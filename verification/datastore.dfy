/** The DataStore query builder: one catalog connection that turns
    `search`, `searchSql` and `countSql` calls into a single Data Store
    request and normalises the response. The transport is a parameter (a
    function from the request to the body its response resolves to), so a
    call that issues no request is one whose result does not depend on it. */
module DataStore {
  import opened Wrappers
  import FieldList
  import FilterJson
  import SortClause
  import opened CkanRequest
  import opened CkanResponse

  /** One catalog connection: the endpoint and the resource identifier,
      fixed at construction. */
  datatype Store = Store(endpoint: string, resource: string)

  /** The `fields` argument: an array of column names, or anything else
      (`null`, `false`, a number, ...). */
  datatype FieldsArg = NotAnArray | AnArray(names: seq<string>)

  /** The `term` argument: absent (`null`/`undefined`), a free-text string,
      a plain object of column filters, or a value of any other type. */
  datatype Term =
    | NoTerm
    | TextTerm(text: string)
    | MapTerm(members: FilterJson.JsObject)
    | BadTerm

  /** The `sortOptions` argument; either property may be missing. */
  datatype SortOptions = SortOptions(sortField: Option<string>, sortAscending: Option<bool>)

  /** The arguments of one `search` call. */
  datatype SearchArgs = SearchArgs(
    fields: FieldsArg,
    term: Term,
    distinct: bool,
    limit: Option<int>,
    offset: Option<int>,
    sortOptions: Option<SortOptions>)

  /** The query object handed to `searchSql` and `countSql`, given by the
      strings its `parse()` and `parseCount()` return. */
  datatype SqlQuery = SqlQuery(parse: string, parseCount: string)

  /** The transport: the body the response to a request resolves to. */
  type Transport<R> = Request -> Envelope<R>

  /** `fields` is a non-empty array. */
  predicate ValidFields(fields: FieldsArg)
  {
    fields.AnArray? && |fields.names| > 0
  }

  /** The arguments `search` accepts: valid fields and a term of a known
      shape. */
  predicate Accepted(args: SearchArgs)
  {
    ValidFields(args.fields) && !args.term.BadTerm?
  }

  /** The `q` parameter: sent exactly for a non-empty string term, and then
      that string verbatim. */
  function QueryText(term: Term): (q: Option<string>)
    ensures q.Some? <==> term.TextTerm? && term.text != ""
    ensures q.Some? ==> q.value == term.text
  {
    if term.TextTerm? && |term.text| > 0 then Some(term.text) else None
  }

  /** The `filters` parameter: sent exactly for a non-empty object term, as a
      JSON text that decodes back to that object's members in order. */
  function FilterText(term: Term): (filters: Option<string>)
    ensures filters.Some? <==> term.MapTerm? && term.members != []
    ensures filters.Some? ==> FilterJson.DecodeObject(filters.value) == Some(term.members)
  {
    if term.MapTerm? && |term.members| > 0 then
      FilterJson.ObjectRoundTrip(term.members);
      Some(FilterJson.EncodeObject(term.members))
    else None
  }

  /** The `sort` parameter: sent exactly when both options are given and
      the field is not empty, as a clause that reads back as the given field
      and direction. An empty field names no column, so, like an empty text
      term, it sends nothing. */
  function SortText(options: Option<SortOptions>): (sort: Option<string>)
    ensures sort.Some? <==>
      && options.Some? && options.value.sortField.Some? && options.value.sortAscending.Some?
      && options.value.sortField.value != ""
    ensures sort.Some? ==>
      SortClause.Parse(sort.value) == Some((options.value.sortField.value, options.value.sortAscending.value))
  {
    match options
    case Some(SortOptions(Some(field), Some(ascending))) =>
      if field == "" then None else Some(SortClause.Render(field, ascending))
    case _ => None
  }

  /** The request `search` makes, or its refusal. */
  function BuildSearch(store: Store, args: SearchArgs): (d: Dispatch)
    ensures d.Reject? <==> !Accepted(args)
    ensures d.Send? ==>
      && d.request.endpoint == store.endpoint
      && d.request.action == DatastoreSearch
      && d.request.params.SearchParams?
      && d.request.params.id == store.resource
  {
    if !Accepted(args) then Reject
    else
      Send(Request(store.endpoint, DatastoreSearch, SearchParams(
        id := store.resource,
        fields := FieldList.Join(args.fields.names),
        q := QueryText(args.term),
        filters := FilterText(args.term),
        distinct := if args.distinct then Some(true) else None,
        sort := SortText(args.sortOptions),
        limit := args.limit,
        offset := args.offset)))
  }

  /** `search`: build the request, send it, normalise the body. A refused
      call yields `false`; no search ever ends in a fault. */
  function Search<Rec, Tot>(store: Store, args: SearchArgs, transport: Transport<SearchResult<Rec, Tot>>)
    : (r: Outcome<SearchResult<Rec, Tot>>)
    ensures !r.Fault?
    ensures !Accepted(args) ==> r.Sentinel?
  {
    match BuildSearch(store, args)
    case Reject => Sentinel
    case Send(request) => NormaliseSearch(transport(request))
  }

  /** The request `searchSql` makes: the query's SQL, unchanged. */
  function BuildSearchSql(store: Store, query: SqlQuery): (d: Dispatch)
    ensures d.Send?
    ensures d.request.endpoint == store.endpoint && d.request.action == DatastoreSearchSql
    ensures d.request.params == SqlParams(query.parse)
  {
    Send(Request(store.endpoint, DatastoreSearchSql, SqlParams(query.parse)))
  }

  /** `searchSql`: send the parsed SQL, normalise the body like `search`. */
  function SearchSql<Rec, Tot>(store: Store, query: SqlQuery, transport: Transport<SearchResult<Rec, Tot>>)
    : (r: Outcome<SearchResult<Rec, Tot>>)
    ensures !r.Fault?
  {
    NormaliseSearch(transport(BuildSearchSql(store, query).request))
  }

  /** The request `countSql` makes: the query's count SQL, unchanged. */
  function BuildCountSql(store: Store, query: SqlQuery): (d: Dispatch)
    ensures d.Send?
    ensures d.request.endpoint == store.endpoint && d.request.action == DatastoreSearchSql
    ensures d.request.params == SqlParams(query.parseCount)
  {
    Send(Request(store.endpoint, DatastoreSearchSql, SqlParams(query.parseCount)))
  }

  /** `countSql`: send the count SQL, read the first record's count. */
  function CountSql(store: Store, query: SqlQuery, transport: Transport<CountResult>): (r: Outcome<int>)
    ensures
      var body := transport(Request(store.endpoint, DatastoreSearchSql, SqlParams(query.parseCount)));
      r.Value? ==> body.Successful? && body.result.records != [] && r.value == body.result.records[0].count
  {
    NormaliseCount(transport(BuildCountSql(store, query).request))
  }

  // ---------------------------------------------------------------------
  // Properties of `search`
  // ---------------------------------------------------------------------

  /** Fields that are not an array, or an empty array, make `search` issue
      no request and yield `false`, whatever the transport would answer. */
  lemma InvalidFieldsMakeNoRequest<Rec, Tot>(store: Store, args: SearchArgs, transport: Transport<SearchResult<Rec, Tot>>)
    requires args.fields.NotAnArray? || args.fields.names == []
    ensures BuildSearch(store, args).Calls() == []
    ensures Search(store, args, transport) == Sentinel
  {
  }

  /** A term of an unknown type makes `search` issue no request and yield
      `false`. */
  lemma BadTermMakesNoRequest<Rec, Tot>(store: Store, args: SearchArgs, transport: Transport<SearchResult<Rec, Tot>>)
    requires args.term.BadTerm?
    ensures BuildSearch(store, args).Calls() == []
    ensures Search(store, args, transport) == Sentinel
  {
  }

  /** A `search` request is refused exactly when its fields or its term are
      invalid; otherwise exactly one request goes out. */
  lemma SearchIssuesOneRequestIffAccepted(store: Store, args: SearchArgs)
    ensures |BuildSearch(store, args).Calls()| == (if Accepted(args) then 1 else 0)
  {
  }

  /** An accepted search targets the store's own endpoint and resource with
      `datastore_search`, and its `fields` parameter is the given column
      names joined by commas. When no name contains a comma, splitting it at
      the commas gives the names back in the given order. */
  lemma SearchTargetsStoreColumns(store: Store, args: SearchArgs)
    requires Accepted(args)
    ensures
      var request := BuildSearch(store, args).request;
      && request.endpoint == store.endpoint
      && request.action.Name() == "datastore_search"
      && request.params.id == store.resource
      && request.params.fields == FieldList.Join(args.fields.names)
      && (FieldList.CommaFree(args.fields.names) ==>
            FieldList.Split(request.params.fields) == args.fields.names)
  {
    if FieldList.CommaFree(args.fields.names) {
      FieldList.SplitJoin(args.fields.names);
    }
  }

  /** The term decides between `q` and `filters`: a non-empty string goes
      out verbatim as `q`; a non-empty object goes out as `filters`, whose
      JSON text decodes back to exactly the object's members in order; an
      absent term or an empty object sends neither key. Never both. */
  lemma TermParameters(store: Store, args: SearchArgs)
    requires Accepted(args)
    ensures
      var p := BuildSearch(store, args).request.params;
      && (p.q.None? || p.filters.None?)
      && (p.q.Some? <==> args.term.TextTerm? && args.term.text != "")
      && (p.q.Some? ==> p.q.value == args.term.text)
      && (p.filters.Some? <==> args.term.MapTerm? && args.term.members != [])
      && (p.filters.Some? ==> FilterJson.DecodeObject(p.filters.value) == Some(args.term.members))
  {
  }

  /** `distinct` is sent, with the value `true`, exactly when it is asked
      for; it is never sent as `false`. */
  lemma DistinctOnlyWhenTrue(store: Store, args: SearchArgs)
    requires Accepted(args)
    ensures
      var p := BuildSearch(store, args).request.params;
      && (p.distinct.Some? <==> args.distinct)
      && p.distinct != Some(false)
  {
  }

  /** With both sort options given, `sort` is the field followed by `ASC`
      or `DESC`, and reads back as that field and direction; with either
      missing, no `sort` key is sent. */
  lemma SortParameter(store: Store, args: SearchArgs)
    requires Accepted(args)
    ensures
      var p := BuildSearch(store, args).request.params;
      match args.sortOptions
      case Some(SortOptions(Some(field), Some(ascending))) =>
        if field == "" then p.sort.None? else
        && p.sort == Some(field + (if ascending then " ASC" else " DESC"))
        && SortClause.Parse(p.sort.value) == Some((field, ascending))
      case _ => p.sort.None?
  {
  }

  /** `limit` and `offset` are passed through exactly when given. */
  lemma PagingPassesThrough(store: Store, args: SearchArgs)
    requires Accepted(args)
    ensures
      var p := BuildSearch(store, args).request.params;
      p.limit == args.limit && p.offset == args.offset
  {
  }

  /** `search` yields records and total exactly when its request was sent
      and the answer was a successful envelope, and then yields precisely
      that envelope's records and total; every other case yields `false`. */
  lemma SearchOutcome<Rec, Tot>(store: Store, args: SearchArgs, transport: Transport<SearchResult<Rec, Tot>>)
    ensures
      var r := Search(store, args, transport);
      var d := BuildSearch(store, args);
      && (r.Value? <==> d.Send? && transport(d.request).Successful?)
      && (r.Value? ==> r.value == transport(d.request).result)
      && (r.Sentinel? <==> d.Reject? || !transport(d.request).Successful?)
  {
  }

  // ---------------------------------------------------------------------
  // Properties of `searchSql` and `countSql`
  // ---------------------------------------------------------------------

  /** `searchSql` always sends one request and forwards the SQL that
      `parse()` returned unchanged; the answer is normalised as for `search`:
      a successful envelope's records and total, otherwise `false`. */
  lemma SearchSqlOutcome<Rec, Tot>(store: Store, query: SqlQuery, transport: Transport<SearchResult<Rec, Tot>>)
    ensures
      var d := BuildSearchSql(store, query);
      var r := SearchSql(store, query, transport);
      && |d.Calls()| == 1
      && d.request.action.Name() == "datastore_search_sql"
      && d.request.params.sql == query.parse
      && (r.Value? <==> transport(d.request).Successful?)
      && (r.Value? ==> r.value == transport(d.request).result)
  {
  }

  /** `countSql` always sends one request with the SQL that `parseCount()`
      returned; it yields the first record's count on success, `false` on an
      unsuccessful or falsy body, and fails on a successful body without
      records. */
  lemma CountSqlOutcome(store: Store, query: SqlQuery, transport: Transport<CountResult>)
    ensures
      var d := BuildCountSql(store, query);
      var body := transport(d.request);
      var r := CountSql(store, query, transport);
      && |d.Calls()| == 1
      && d.request.action.Name() == "datastore_search_sql"
      && d.request.params.sql == query.parseCount
      && (body.Successful? && body.result.records != [] ==> r == Value(body.result.records[0].count))
      && (!body.Successful? ==> r == Sentinel)
      && (body.Successful? && body.result.records == [] ==> r == Fault)
  {
  }

  /** `searchSql` reads only `parse()` of its query: two queries with the
      same `parse()` give the same request and the same outcome, whatever
      their `parseCount()` returns. */
  lemma SearchSqlReadsOnlyParse<Rec, Tot>(store: Store, q1: SqlQuery, q2: SqlQuery, transport: Transport<SearchResult<Rec, Tot>>)
    requires q1.parse == q2.parse
    ensures BuildSearchSql(store, q1) == BuildSearchSql(store, q2)
    ensures SearchSql(store, q1, transport) == SearchSql(store, q2, transport)
  {
  }

  /** `countSql` reads only `parseCount()` of its query: two queries with
      the same `parseCount()` give the same request and the same outcome,
      whatever their `parse()` returns. */
  lemma CountSqlReadsOnlyParseCount(store: Store, q1: SqlQuery, q2: SqlQuery, transport: Transport<CountResult>)
    requires q1.parseCount == q2.parseCount
    ensures BuildCountSql(store, q1) == BuildCountSql(store, q2)
    ensures CountSql(store, q1, transport) == CountSql(store, q2, transport)
  {
  }

  // ---------------------------------------------------------------------
  // The concrete cases of the DataStore test file
  // ---------------------------------------------------------------------

  const ExampleStore := Store("http://ckan.example.com", "0ea81453-3d20-4eed-8be1-ec5522a28b6e")

  /** A search with the given fields and term and every other argument
      left at its default. */
  function PlainSearch(names: seq<string>, term: Term): (args: SearchArgs)
  {
    SearchArgs(AnArray(names), term, false, None, None, None)
  }

  /** The test file's search for two columns sends them comma-joined. */
  lemma FieldsExample()
    ensures BuildSearch(ExampleStore, PlainSearch(["foo", "bar"], NoTerm)).request.params.fields == "foo,bar"
  {
    assert FieldList.Join(["foo", "bar"]) == "foo" + "," + "bar";
  }

  /** The test file's string and empty-object terms. */
  lemma TextTermExamples()
    ensures BuildSearch(ExampleStore, PlainSearch(["foo", "bar"], TextTerm("baz"))).request.params.q == Some("baz")
    ensures BuildSearch(ExampleStore, PlainSearch(["foo", "bar"], MapTerm([]))).request.params.q == None
  {
  }

  /** The JSON text of one member of the test file's object term. */
  lemma MemberTextExample(key: string, value: string)
    requires key in {"foo", "bar"} && value in {"bin", "baz"}
    ensures FilterJson.EncodeMember((key, value)) == "\"" + key + "\":\"" + value + "\""
  {
    FilterJson.PlainMember(key, value);
  }

  /** The JSON text of the test file's two-column object term, written out
      piece by piece: `{"foo":"bin","bar":"baz"}`. */
  lemma FilterTextExample()
    ensures FilterJson.EncodeObject([("foo", "bin"), ("bar", "baz")])
      == "{" + "\"foo\":\"bin\"" + "," + "\"bar\":\"baz\"" + "}"
  {
    MemberTextExample("foo", "bin");
    MemberTextExample("bar", "baz");
    assert "\"" + "foo" + "\":\"" + "bin" + "\"" == "\"foo\":\"bin\"";
    assert "\"" + "bar" + "\":\"" + "baz" + "\"" == "\"bar\":\"baz\"";
    var members := [("foo", "bin"), ("bar", "baz")];
    assert members[1..] == [("bar", "baz")];
  }

  /** The test file's two-column object term is sent as its JSON text. */
  lemma FiltersExample()
    ensures BuildSearch(ExampleStore, PlainSearch(["foo", "bar"], MapTerm([("foo", "bin"), ("bar", "baz")]))).request.params.filters
      == Some("{" + "\"foo\":\"bin\"" + "," + "\"bar\":\"baz\"" + "}")
  {
    FilterTextExample();
  }

  /** The test file's two sort requests. */
  lemma SortExamples()
    ensures BuildSearch(ExampleStore, SearchArgs(AnArray(["test"]), NoTerm, false, Some(100), Some(0),
      Some(SortOptions(Some("test"), Some(false))))).request.params.sort == Some("test DESC")
    ensures BuildSearch(ExampleStore, SearchArgs(AnArray(["test"]), NoTerm, false, Some(100), Some(0),
      Some(SortOptions(Some("blah"), Some(true))))).request.params.sort == Some("blah ASC")
  {
    assert SortClause.Render("test", false) == "test" + " DESC" == "test DESC";
    assert SortClause.Render("blah", true) == "blah" + " ASC" == "blah ASC";
  }

  /** The count the test file expects from a one-record count response. */
  lemma CountExample(query: SqlQuery)
    ensures CountSql(ExampleStore, query, _ => Successful(CountResult([CountRow(123)]))) == Value(123)
    ensures CountSql(ExampleStore, query, _ => Unsuccessful) == Sentinel
  {
  }
}
