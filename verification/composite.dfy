/** The `/` handler: the three monthly views of one month in one body. */
module Composite {
  import opened Wrappers
  import opened Records
  import opened Seqs
  import opened Month
  import opened Statistics
  import opened PriceRange
  import opened PieChart

  /** The composite body, under the handler's own key names. */
  datatype Report = Report(staticks: Summary, barChat: map<string, nat>, pieChar: map<string, nat>)

  /** All-or-nothing join of the three sub-results: the report when all
      three succeed, otherwise the error of one that failed. */
  function JoinAll(
    a: Result<Summary, Error>,
    b: Result<map<string, nat>, Error>,
    c: Result<map<string, nat>, Error>): (r: Result<Report, Error>)
    ensures r.Success? <==> a.Success? && b.Success? && c.Success?
    ensures r.Success? ==>
      r.value.staticks == a.value && r.value.barChat == b.value && r.value.pieChar == c.value
    ensures r.Failure? ==>
      || (a.Failure? && r.error == a.error)
      || (b.Failure? && r.error == b.error)
      || (c.Failure? && r.error == c.error)
  {
    var staticks :- a;
    var barChat :- b;
    var pieChar :- c;
    Success(Report(staticks, barChat, pieChar))
  }

  /** `GET /?month=`: validates the month once, then composes the three
      monthly handlers for that same month. */
  function Overview(month: Option<string>, store: Store, parse: NumberParser): (r: Result<Report, Error>)
    ensures Missing(month) ==> r == Failure(InvalidRequest)
    ensures !Missing(month) ==>
      (r.Success? <==>
        && Staticks(month, store, parse).Success?
        && Pricerange(month, store, parse).Success?
        && Piechart(month, store, parse).Success?)
    ensures r.Success? ==>
      && Staticks(month, store, parse) == Success(r.value.staticks)
      && Pricerange(month, store, parse) == Success(r.value.barChat)
      && Piechart(month, store, parse) == Success(r.value.pieChar)
    ensures !Missing(month) ==> (r.Success? <==> store.Online?)
    ensures r.Failure? && !Missing(month) ==> r.error == StoreFailure
  {
    if Missing(month) then Failure(InvalidRequest)
    else JoinAll(Staticks(month, store, parse), Pricerange(month, store, parse), Piechart(month, store, parse))
  }

  /** The three views of a report count the same records: sold plus not
      sold, the ten band counts, and the category counts all add up to the
      number of records of the month. */
  lemma ReportConsistent(month: Option<string>, store: Store, parse: NumberParser)
    requires Overview(month, store, parse).Success?
    ensures var r := Overview(month, store, parse).value;
      var n := Count(store.records, Selector(parse(month.value)));
      && r.staticks.soldItem + r.staticks.notSoldItem == n
      && SumOf(seq(BandCount, i requires 0 <= i < BandCount => r.barChat[Labels[i]])) == n
      && SumValues(r.pieChar) == n
  {
    PricerangeTotal(month, store, parse);
  }

  // The handler as written fetches the three sub-endpoints over HTTP and
  // reads each response's JSON body whatever its status, so a sub-endpoint
  // that answers 500 contributes its error body to a 200 report.

  /** A sub-endpoint's JSON body: its result, or the error message. */
  datatype Body = SummaryBody(summary: Summary) | CountsBody(counts: map<string, nat>) | MessageBody(message: string)

  /** `fetch(url).then(response => response.json())`: the body of the
      response, with no regard to its status. */
  function BodyOf<T>(r: Result<T, Error>, wrap: T -> Body): Body {
    match r
    case Success(v) => wrap(v)
    case Failure(e) => MessageBody(e.Message())
  }

  datatype RawReport = RawReport(staticks: Body, barChat: Body, pieChar: Body)

  /** `GET /?month=` as written: it fails only on a missing month. */
  function OverviewAsWritten(month: Option<string>, store: Store, parse: NumberParser): (r: Result<RawReport, Error>)
    ensures r.Success? <==> !Missing(month)
    ensures Missing(month) ==> r.error == InvalidRequest
  {
    if Missing(month) then Failure(InvalidRequest)
    else
      Success(RawReport(
        BodyOf(Staticks(month, store, parse), s => SummaryBody(s)),
        BodyOf(Pricerange(month, store, parse), m => CountsBody(m)),
        BodyOf(Piechart(month, store, parse), m => CountsBody(m))))
  }

  /** With the store unreachable, the corrected handler fails as a whole,
      while the handler as written answers with three error bodies. */
  lemma AsWrittenEmbedsErrors(month: Option<string>, parse: NumberParser)
    requires !Missing(month)
    ensures Overview(month, Offline, parse) == Failure(StoreFailure)
    ensures
      var err := MessageBody("Internal server error");
      OverviewAsWritten(month, Offline, parse) == Success(RawReport(err, err, err))
  {
  }

  /** In the handler as written, a view is an error message exactly when
      its sub-endpoint failed, and then it is the store failure's message. */
  lemma AsWrittenBodies(month: Option<string>, store: Store, parse: NumberParser)
    ensures var r := OverviewAsWritten(month, store, parse);
      r.Success? ==>
        && (r.value.staticks.MessageBody? <==> Staticks(month, store, parse).Failure?)
        && (r.value.barChat.MessageBody? <==> Pricerange(month, store, parse).Failure?)
        && (r.value.pieChar.MessageBody? <==> Piechart(month, store, parse).Failure?)
        && (r.value.staticks.MessageBody? ==> r.value.staticks.message == "Internal server error")
        && (r.value.barChat.MessageBody? ==> r.value.barChat.message == "Internal server error")
        && (r.value.pieChar.MessageBody? ==> r.value.pieChar.message == "Internal server error")
  {
  }

  /** When every sub-endpoint succeeds, both handlers carry the same views. */
  lemma AsWrittenAgreesOnSuccess(month: Option<string>, store: Store, parse: NumberParser)
    requires Overview(month, store, parse).Success?
    ensures var r := Overview(month, store, parse).value;
      OverviewAsWritten(month, store, parse)
        == Success(RawReport(SummaryBody(r.staticks), CountsBody(r.barChat), CountsBody(r.pieChar)))
  {
  }
}
