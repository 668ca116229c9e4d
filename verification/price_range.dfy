/** The `/pricerange` handler: a ten-band price histogram of one month. */
module PriceRange {
  import opened Wrappers
  import opened Records
  import opened Seqs
  import opened Month

  const BandCount: nat := 10

  /** The histogram's keys, band by band. */
  const Labels: seq<string> := [
    "0 - 100", "101-200", "201-300", "301-400", "401-500",
    "501-600", "601-700", "701-800", "801-900", "901-above"]

  /** Band 0 is every price up to 100; band i, for 1 <= i <= 8, is
      (100 i, 100 (i + 1)]; band 9 is every price above 900. */
  predicate InBand(price: real, i: int) {
    && 0 <= i < BandCount
    && (i == 0 || (100 * i) as real < price)
    && (i == BandCount - 1 || price <= (100 * (i + 1)) as real)
  }

  /** The band the handler's if-else chain increments for `price`: the one
      band whose range holds the price. */
  function Band(price: real): (b: nat)
    ensures b < BandCount
    ensures forall i :: InBand(price, i) <==> i == b
  {
    if price <= 100.0 then 0
    else if 100.0 < price && price <= 200.0 then 1
    else if 200.0 < price && price <= 300.0 then 2
    else if 300.0 < price && price <= 400.0 then 3
    else if 400.0 < price && price <= 500.0 then 4
    else if 500.0 < price && price <= 600.0 then 5
    else if 600.0 < price && price <= 700.0 then 6
    else if 700.0 < price && price <= 800.0 then 7
    else if 800.0 < price && price <= 900.0 then 8
    else 9 // price > 900
  }

  function BandMember(i: int): Record -> bool {
    (r: Record) => InBand(r.price, i)
  }

  function Zeros(n: nat): (z: seq<nat>)
    ensures |z| == n && forall i :: 0 <= i < n ==> z[i] == 0
  {
    seq(n, i => 0)
  }

  /** The sum of a sequence of counts. */
  function SumOf(s: seq<nat>): nat {
    if |s| == 0 then 0 else s[0] + SumOf(s[1..])
  }

  lemma {:induction false} SumOfZeros(n: nat)
    ensures SumOf(Zeros(n)) == 0
  {
    if n > 0 {
      assert Zeros(n)[1..] == Zeros(n - 1);
      SumOfZeros(n - 1);
    }
  }

  /** Adding one to one count adds one to the sum. */
  lemma {:induction false} SumOfBump(s: seq<nat>, b: nat)
    requires b < |s|
    ensures SumOf(s[b := s[b] + 1]) == SumOf(s) + 1
  {
    if b > 0 {
      assert s[b := s[b] + 1][1..] == s[1..][b - 1 := s[b] + 1];
      SumOfBump(s[1..], b - 1);
    }
  }

  /** The band counts of `data`: band i counts the records whose price is
      in band i, so the counts add up to the number of records. */
  function Histogram(data: seq<Record>): (h: seq<nat>)
    ensures |h| == BandCount
  {
    if |data| == 0 then Zeros(BandCount)
    else
      var rest := Histogram(data[1..]);
      var b := Band(data[0].price);
      rest[b := rest[b] + 1]
  }

  /** Count i is the number of records whose price is in band i. */
  lemma {:induction false} HistogramCounts(data: seq<Record>)
    ensures forall i :: 0 <= i < BandCount ==> Histogram(data)[i] == Count(data, BandMember(i))
  {
    if |data| > 0 {
      HistogramCounts(data[1..]);
    }
  }

  /** Every record is counted in exactly one band. */
  lemma {:induction false} HistogramTotal(data: seq<Record>)
    ensures SumOf(Histogram(data)) == |data|
  {
    if |data| == 0 {
      SumOfZeros(BandCount);
    } else {
      HistogramTotal(data[1..]);
      SumOfBump(Histogram(data[1..]), Band(data[0].price));
    }
  }


  /** The labels are pairwise different, so the chart has ten keys. */
  lemma LabelsDistinct()
    ensures forall i, j :: 0 <= i < j < BandCount ==> Labels[i] != Labels[j]
  {
    forall i, j | 0 <= i < j < BandCount
      ensures Labels[i] != Labels[j]
    {
      assert Labels[i][0] != Labels[j][0];
    }
  }

  /** A sequence without repetitions has as many elements as entries. */
  lemma {:induction false} DistinctElements(s: seq<string>)
    requires forall i, j :: 0 <= i < j < |s| ==> s[i] != s[j]
    ensures |set x | x in s| == |s|
  {
    if |s| > 0 {
      DistinctElements(s[1..]);
      assert (set x | x in s) == {s[0]} + (set x | x in s[1..]);
      assert s[0] !in s[1..];
    }
  }

  /** The histogram keyed by band label. */
  function BarChart(h: seq<nat>): (m: map<string, nat>)
    requires |h| == BandCount
    ensures m.Keys == set x | x in Labels
    ensures forall i :: 0 <= i < BandCount ==> m[Labels[i]] == h[i]
  {
    LabelsDistinct();
    map i | 0 <= i < BandCount :: Labels[i] := h[i]
  }

  /** The chart has exactly ten keys. */
  lemma ChartSize(h: seq<nat>)
    requires |h| == BandCount
    ensures |BarChart(h).Keys| == BandCount
  {
    LabelsDistinct();
    DistinctElements(Labels);
  }


  /** Reading the chart back label by label gives the band counts again. */
  lemma ChartReadBack(h: seq<nat>)
    requires |h| == BandCount
    ensures seq(BandCount, i requires 0 <= i < BandCount => BarChart(h)[Labels[i]]) == h
  {
    var m := BarChart(h);
    var back := seq(BandCount, i requires 0 <= i < BandCount => m[Labels[i]]);
    assert forall i :: 0 <= i < BandCount ==> back[i] == h[i];
  }

  /** `GET /pricerange?month=`. */
  function Pricerange(month: Option<string>, store: Store, parse: NumberParser): (r: Result<map<string, nat>, Error>)
    ensures Missing(month) ==> r == Failure(InvalidRequest)
    ensures !Missing(month) ==> (r.Success? <==> store.Online?)
    ensures r.Failure? && !Missing(month) ==> r.error == StoreFailure
    ensures r.Success? ==> |r.value.Keys| == BandCount && forall i :: 0 <= i < BandCount ==> Labels[i] in r.value
    ensures r.Success? ==>
      var data := Fetch(month, store, parse).value;
      forall i :: 0 <= i < BandCount ==> r.value[Labels[i]] == Count(data, BandMember(i))
  {
    var data :- Fetch(month, store, parse);
    var h := Histogram(data);
    HistogramCounts(data);
    ChartSize(h);
    Success(BarChart(h))
  }

  /** The ten counts of a month's chart add up to the month's number of
      records: every record is in exactly one band. */
  lemma PricerangeTotal(month: Option<string>, store: Store, parse: NumberParser)
    ensures var r := Pricerange(month, store, parse);
      r.Success? ==>
        SumOf(seq(BandCount, i requires 0 <= i < BandCount => r.value[Labels[i]]))
          == Count(store.records, Selector(parse(month.value)))
  {
    var r := Pricerange(month, store, parse);
    if r.Success? {
      var data := Fetch(month, store, parse).value;
      HistogramTotal(data);
      ChartReadBack(Histogram(data));
    }
  }

  /** Records priced 50, 150 and 950 count once in each of bands 0, 1
      and 9 and nowhere else. */
  lemma HistogramExample(a: Record, b: Record, c: Record)
    requires a.price == 50.0 && b.price == 150.0 && c.price == 950.0
    ensures Histogram([a, b, c]) == [1, 1, 0, 0, 0, 0, 0, 0, 0, 1]
  {
    assert [a, b, c][1..] == [b, c] && [b, c][1..] == [c] && [c][1..] == [];
    assert Band(50.0) == 0 && Band(150.0) == 1 && Band(950.0) == 9;
    assert Histogram([]) == [0, 0, 0, 0, 0, 0, 0, 0, 0, 0];
    assert Histogram([c]) == [0, 0, 0, 0, 0, 0, 0, 0, 0, 1];
    assert Histogram([b, c]) == [0, 1, 0, 0, 0, 0, 0, 0, 0, 1];
  }

  /** Three March records priced 50, 150 and 950 put one record in each of
      the first, second and last bands and none in the others. */
  lemma MarchExample(text: TextIndex, parse: NumberParser)
    requires parse("3") == Some(3.0)
    ensures
      var a := Record(1, "a", 50.0, "", "x", "", None, Some(3));
      var b := Record(2, "b", 150.0, "", "x", "", None, Some(3));
      var c := Record(3, "c", 950.0, "", "x", "", None, Some(3));
      Pricerange(Some("3"), Online([a, b, c], text), parse) == Success(BarChart([1, 1, 0, 0, 0, 0, 0, 0, 0, 1]))
  {
    var a := Record(1, "a", 50.0, "", "x", "", None, Some(3));
    var b := Record(2, "b", 150.0, "", "x", "", None, Some(3));
    var c := Record(3, "c", 950.0, "", "x", "", None, Some(3));
    var store := Online([a, b, c], text);
    FetchWholeStore(Some("3"), store, parse);
    assert Pricerange(Some("3"), store, parse) == Success(BarChart(Histogram([a, b, c])));
    HistogramExample(a, b, c);
  }
}
