/** The `/piechart` handler: how many of one month's records fall in each
    category. */
module PieChart {
  import opened Wrappers
  import opened Records
  import opened Seqs
  import opened Month

  function HasCategory(c: string): Record -> bool {
    (r: Record) => r.category == c
  }

  /** The category counts of `data`: a category is a key exactly when some
      record has it, and maps to the number of records that have it. */
  function Categories(data: seq<Record>): (m: map<string, nat>)
    ensures forall c :: c in m <==> Count(data, HasCategory(c)) > 0
    ensures forall c :: c in m ==> m[c] == Count(data, HasCategory(c))
  {
    if |data| == 0 then map[]
    else
      var rest := Categories(data[1..]);
      var c := data[0].category;
      if c in rest then rest[c := rest[c] + 1] else rest[c := 1]
  }

  /** The keys are exactly the categories that occur. */
  lemma CategoriesKeys(data: seq<Record>)
    ensures forall c :: c in Categories(data) <==> exists r :: r in data && r.category == c
  {
    forall c
      ensures c in Categories(data) <==> exists r :: r in data && r.category == c
    {
      if exists r :: r in data && r.category == c {
        var r :| r in data && r.category == c;
        var i :| 0 <= i < |data| && data[i] == r;
        assert HasCategory(c)(data[i]);
      }
    }
  }

  /** The sum of a map's values. */
  ghost function SumValues(m: map<string, nat>): nat
    decreases |m|
  {
    if |m| == 0 then 0
    else
      assert m.Keys != {};
      var k :| k in m;
      m[k] + SumValues(m - {k})
  }

  /** Takes out the key the sum takes out first. */
  lemma Unfold(m: map<string, nat>) returns (j: string)
    requires |m| > 0
    ensures j in m && SumValues(m) == m[j] + SumValues(m - {j})
  {
    assert m.Keys != {};
    j :| j in m && SumValues(m) == m[j] + SumValues(m - {j});
  }

  /** The sum does not depend on which key is taken out first. */
  lemma {:induction false} SumValuesRemove(m: map<string, nat>, k: string)
    requires k in m
    ensures SumValues(m) == m[k] + SumValues(m - {k})
    decreases |m|
  {
    var j := Unfold(m);
    if j != k {
      var mj := m - {j};
      var mk := m - {k};
      assert k in mj && j in mk;
      SumValuesRemove(mj, k);
      SumValuesRemove(mk, j);
      assert mj - {k} == mk - {j};
    }
  }

  /** Setting one key's value changes the sum by the difference. */
  lemma SumValuesUpdate(m: map<string, nat>, k: string, v: nat)
    ensures SumValues(m[k := v]) + (if k in m then m[k] else 0) == SumValues(m) + v
  {
    if k in m {
      SumValuesReplace(m, k, v);
    } else {
      SumValuesAdd(m, k, v);
    }
  }

  /** Replacing a value swaps it in the sum. */
  lemma SumValuesReplace(m: map<string, nat>, k: string, v: nat)
    requires k in m
    ensures SumValues(m[k := v]) + m[k] == SumValues(m) + v
  {
    var u := m[k := v];
    assert u - {k} == m - {k};
    SumValuesRemove(u, k);
    SumValuesRemove(m, k);
  }

  /** A new key adds its value to the sum. */
  lemma SumValuesAdd(m: map<string, nat>, k: string, v: nat)
    requires k !in m
    ensures SumValues(m[k := v]) == SumValues(m) + v
  {
    var u := m[k := v];
    assert u - {k} == m;
    SumValuesRemove(u, k);
  }


  /** Counting one more record adds one to the sum of the counts. */
  lemma CategoriesStepTotal(data: seq<Record>)
    requires |data| > 0
    ensures SumValues(Categories(data)) == SumValues(Categories(data[1..])) + 1
  {
    var rest := Categories(data[1..]);
    var c := data[0].category;
    if c in rest {
      SumValuesUpdate(rest, c, rest[c] + 1);
    } else {
      SumValuesUpdate(rest, c, 1);
    }
  }

  /** Every record is counted in exactly one category. */
  lemma {:induction false} CategoriesTotal(data: seq<Record>)
    ensures SumValues(Categories(data)) == |data|
  {
    if |data| > 0 {
      CategoriesTotal(data[1..]);
      CategoriesStepTotal(data);
    }
  }

  /** `GET /piechart?month=`. */
  function Piechart(month: Option<string>, store: Store, parse: NumberParser): (r: Result<map<string, nat>, Error>)
    ensures Missing(month) ==> r == Failure(InvalidRequest)
    ensures !Missing(month) ==> (r.Success? <==> store.Online?)
    ensures r.Failure? && !Missing(month) ==> r.error == StoreFailure
    ensures r.Success? ==>
      forall c :: c in r.value <==>
        exists x :: x in store.records && InMonth(x, parse(month.value)) && x.category == c
    ensures r.Success? ==>
      var data := Fetch(month, store, parse).value;
      forall c :: c in r.value ==> r.value[c] == Count(data, HasCategory(c)) >= 1
    ensures r.Success? ==> SumValues(r.value) == Count(store.records, Selector(parse(month.value)))
  {
    var data :- Fetch(month, store, parse);
    CategoriesTotal(data);
    CategoriesKeys(data);
    Success(Categories(data))
  }
}
