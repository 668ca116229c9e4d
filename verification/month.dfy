/** The month selection shared by `/staticks`, `/pricerange`, `/piechart`
    and `/`: the presence check on the `month` parameter, and the store
    query for records whose sale date falls in that month. */
module Month {
  import opened Wrappers
  import opened Records
  import opened Seqs

  /** `!month`: the parameter is absent or the empty string. */
  predicate Missing(month: Option<string>) {
    month.None? || month.value == ""
  }

  /** `$month(dateOfSale) == parseFloat(month)`: the record has a sale date
      and its month equals the parsed parameter. A parameter that does not
      parse selects nothing. */
  predicate InMonth(r: Record, value: Option<real>) {
    r.saleMonth.Some? && value.Some? && r.saleMonth.value as real == value.value
  }

  function Selector(value: Option<real>): Record -> bool {
    r => InMonth(r, value)
  }

  /** The records a monthly handler reads: a missing month is rejected
      before the store is queried; an unreachable store fails the query. */
  function Fetch(month: Option<string>, store: Store, parse: NumberParser): (r: Result<seq<Record>, Error>)
    ensures Missing(month) ==> r == Failure(InvalidRequest)
    ensures r.Failure? && !Missing(month) <==> store.Offline? && !Missing(month)
    ensures r.Failure? && !Missing(month) ==> r.error == StoreFailure
    ensures r.Failure? ==> r.error.Status() == if Missing(month) then 400 else 500
    ensures r.Success? ==> forall x :: x in r.value <==> x in store.records && InMonth(x, parse(month.value))
    ensures r.Success? ==> |r.value| == Count(store.records, Selector(parse(month.value)))
    ensures r.Success? ==> forall x ::
      multiset(r.value)[x] == if InMonth(x, parse(month.value)) then multiset(store.records)[x] else 0
  {
    if Missing(month) then Failure(InvalidRequest)
    else if store.Offline? then Failure(StoreFailure)
    else
      CountIsFilterLength(store.records, Selector(parse(month.value)));
      FilterMembers(store.records, Selector(parse(month.value)));
      FilterMultiplicity(store.records, Selector(parse(month.value)));
      Success(Filter(store.records, Selector(parse(month.value))))
  }

  /** When every stored record falls in the month, the month's records
      are all of them, in store order. */
  lemma FetchWholeStore(month: Option<string>, store: Store, parse: NumberParser)
    requires !Missing(month) && store.Online?
    requires forall i :: 0 <= i < |store.records| ==> InMonth(store.records[i], parse(month.value))
    ensures Fetch(month, store, parse) == Success(store.records)
  {
    FilterAll(store.records, Selector(parse(month.value)));
  }
}
