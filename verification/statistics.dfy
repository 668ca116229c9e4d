/** The `/staticks` handler: the financial summary of one month. */
module Statistics {
  import opened Wrappers
  import opened Records
  import opened Seqs
  import opened Month

  /** The handler's JSON body. */
  datatype Summary = Summary(totalSaleAmount: real, soldItem: nat, notSoldItem: nat)

  /** `sold === true`: only a present, true flag counts as sold. */
  predicate IsSold(r: Record) {
    r.sold == Some(true)
  }

  /** `sold !== true`: false and absent flags both count as not sold. */
  predicate IsNotSold(r: Record) {
    r.sold != Some(true)
  }

  /** The sum of the prices, starting from 0. */
  function TotalPrice(s: seq<Record>): (total: real)
    ensures (forall i :: 0 <= i < |s| ==> s[i].price >= 0.0) ==> total >= 0.0
  {
    if |s| == 0 then 0.0 else s[0].price + TotalPrice(s[1..])
  }

  /** Summing distributes over concatenation. */
  lemma {:induction false} TotalPriceAppend(a: seq<Record>, b: seq<Record>)
    ensures TotalPrice(a + b) == TotalPrice(a) + TotalPrice(b)
  {
    if |a| == 0 {
      assert a + b == b;
    } else {
      assert (a + b)[1..] == a[1..] + b;
      TotalPriceAppend(a[1..], b);
    }
  }

  /** The summary of a batch of records: every record is counted once,
      either as sold or as not sold. */
  function Summarize(data: seq<Record>): (r: Summary)
    ensures r.soldItem + r.notSoldItem == |data|
    ensures r.soldItem == |Filter(data, IsSold)|
    ensures r.notSoldItem == |Filter(data, IsNotSold)|
    ensures |data| == 0 ==> r == Summary(0.0, 0, 0)
    ensures (forall i :: 0 <= i < |data| ==> data[i].price >= 0.0) ==> r.totalSaleAmount >= 0.0
  {
    CountComplement(data, IsSold, IsNotSold);
    CountIsFilterLength(data, IsSold);
    CountIsFilterLength(data, IsNotSold);
    Summary(TotalPrice(data), Count(data, IsSold), Count(data, IsNotSold))
  }

  /** Adds two summaries field by field. */
  function Merge(x: Summary, y: Summary): Summary {
    Summary(x.totalSaleAmount + y.totalSaleAmount, x.soldItem + y.soldItem, x.notSoldItem + y.notSoldItem)
  }

  /** The summary of two batches together is the sum of their summaries. */
  lemma SummarizeAppend(a: seq<Record>, b: seq<Record>)
    ensures Summarize(a + b) == Merge(Summarize(a), Summarize(b))
  {
    TotalPriceAppend(a, b);
    CountAppend(a, b, IsSold);
    CountAppend(a, b, IsNotSold);
  }

  /** `GET /staticks?month=`. */
  function Staticks(month: Option<string>, store: Store, parse: NumberParser): (r: Result<Summary, Error>)
    ensures Missing(month) ==> r == Failure(InvalidRequest)
    ensures !Missing(month) ==> (r.Success? <==> store.Online?)
    ensures r.Failure? && !Missing(month) ==> r.error == StoreFailure
    ensures r.Success? ==>
      r.value.soldItem + r.value.notSoldItem == Count(store.records, Selector(parse(month.value)))
    ensures r.Success? ==>
      var data := Fetch(month, store, parse).value;
      && r.value.totalSaleAmount == TotalPrice(data)
      && r.value.soldItem == Count(data, IsSold)
      && r.value.notSoldItem == Count(data, IsNotSold)
  {
    var data :- Fetch(month, store, parse);
    Success(Summarize(data))
  }

  /** A sold record of price 100 and an unsold one of price 200 in May
      summarise to a total of 300, one sold and one not sold. */
  lemma MayExample(text: TextIndex, parse: NumberParser)
    requires parse("5") == Some(5.0)
    ensures
      var a := Record(1, "a", 100.0, "", "x", "", Some(true), Some(5));
      var b := Record(2, "b", 200.0, "", "y", "", Some(false), Some(5));
      Staticks(Some("5"), Online([a, b], text), parse) == Success(Summary(300.0, 1, 1))
  {
    var a := Record(1, "a", 100.0, "", "x", "", Some(true), Some(5));
    var b := Record(2, "b", 200.0, "", "y", "", Some(false), Some(5));
    FetchWholeStore(Some("5"), Online([a, b], text), parse);
    SummarizePair(a, b);
  }

  /** One sold and one unsold record. */
  lemma SummarizePair(a: Record, b: Record)
    requires a.price == 100.0 && a.sold == Some(true)
    requires b.price == 200.0 && b.sold == Some(false)
    ensures Summarize([a, b]) == Summary(300.0, 1, 1)
  {
    assert [a, b][1..] == [b] && [b][1..] == [];
    assert TotalPrice([b]) == 200.0 + TotalPrice([]);
    assert TotalPrice([a, b]) == 100.0 + TotalPrice([b]);
    assert Count([a, b], IsSold) == 1;
    assert Count([a, b], IsNotSold) == 1;
  }
}
