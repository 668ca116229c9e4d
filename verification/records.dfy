/** The persisted transaction record and the store that serves it. */
module Records {
  import opened Wrappers

  /** One transaction. `saleMonth` stands for the month component (1..12)
      of `dateOfSale`, or None when the record has no sale date. `sold` is
      three-valued: true, false, or absent. */
  datatype Record = Record(
    id: int,
    title: string,
    price: real,
    description: string,
    category: string,
    image: string,
    sold: Option<bool>,
    saleMonth: Option<int>)

  /** The store's free-text index over title and description: whether a
      search phrase matches a record, and the relevance score it gets. */
  datatype TextIndex = TextIndex(
    matches: (string, Record) -> bool,
    score: (string, Record) -> real)

  /** The record store as seen by one request: either reachable, holding
      the ingested records and their text index, or failing every query. */
  datatype Store = Online(records: seq<Record>, text: TextIndex) | Offline

  /** How a query-string value is read as a number: Some(v) when the
      value is numeric (JavaScript's `!isNaN`), with `v` its parsed value. */
  type NumberParser = string -> Option<real>

  /** The errors a handler reports. */
  datatype Error = InvalidRequest | StoreFailure {

    /** The HTTP status the handler answers with. */
    function Status(): int {
      match this
      case InvalidRequest => 400
      case StoreFailure => 500
    }

    /** The `message` field of the JSON error body. */
    function Message(): string {
      match this
      case InvalidRequest => "Provide month"
      case StoreFailure => "Internal server error"
    }
  }
}
