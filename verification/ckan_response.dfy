/** What the transport's response resolves to, and how the DataStore turns
    it into the value its caller receives. */
module CkanResponse {

  /** The body `json()` resolves to, reduced to what the DataStore inspects. */
  datatype Envelope<+R> =
    | Falsy                  // a falsy body (`false`, `null`, ...)
    | Unsuccessful           // an object whose `success` is not exactly `true`
    | Successful(result: R)  // `success` is `true`; `result` is its result object

  /** The result object of a search; records and total are passed on as
      they arrive, whatever they hold. */
  datatype SearchResult<+Rec, +Tot> = SearchResult(records: Rec, total: Tot)

  /** One row of a count query; only its `count` column is read. */
  datatype CountRow = CountRow(count: int)

  /** The result object of a count query. */
  datatype CountResult = CountResult(records: seq<CountRow>)

  /** What a DataStore call settles to: a value, the sentinel `false`, or a
      rejection raised while reading the body (a `TypeError`). */
  datatype Outcome<+T> = Value(value: T) | Sentinel | Fault

  /** The search normalisation: a successful envelope yields its records and
      total unchanged; any other body yields `false`. */
  function NormaliseSearch<Rec, Tot>(body: Envelope<SearchResult<Rec, Tot>>): (r: Outcome<SearchResult<Rec, Tot>>)
    ensures r.Value? <==> body.Successful?
    ensures r.Sentinel? <==> (body.Falsy? || body.Unsuccessful?)
    ensures r.Value? ==> r.value.records == body.result.records && r.value.total == body.result.total
  {
    match body
    case Successful(result) => Value(SearchResult(result.records, result.total))
    case _ => Sentinel
  }

  /** The count normalisation: a successful envelope yields the `count` of
      its first record; any other body yields `false`. A successful envelope
      with no records has no first record to read, and the read fails. */
  function NormaliseCount(body: Envelope<CountResult>): (r: Outcome<int>)
    ensures r.Value? <==> body.Successful? && |body.result.records| > 0
    ensures r.Value? ==> r.value == body.result.records[0].count
    ensures r.Sentinel? <==> (body.Falsy? || body.Unsuccessful?)
    ensures r.Fault? <==> body.Successful? && |body.result.records| == 0
  {
    match body
    case Successful(result) =>
      if |result.records| > 0 then Value(result.records[0].count) else Fault
    case _ => Sentinel
  }
}
