/** What the DataStore hands to the catalog transport: the endpoint, the
    Data Store action and the parameter object of one request. */
module CkanRequest {
  import opened Wrappers

  /** The Data Store actions the DataStore calls. */
  datatype Action = DatastoreSearch | DatastoreSearchSql
  {
    /** The action name sent to the catalog. */
    function Name(): (name: string)
      ensures |name| > 10 && name[..10] == "datastore_"
      ensures name == "datastore_search" <==> DatastoreSearch?
      ensures name == "datastore_search_sql" <==> DatastoreSearchSql?
    {
      match this
      case DatastoreSearch => "datastore_search"
      case DatastoreSearchSql => "datastore_search_sql"
    }
  }

  /** The parameter object. Each `Option` field is a key that may be absent
      from the object; `None` means the key is not there at all. */
  datatype Params =
    | SearchParams(
        id: string,
        fields: string,
        q: Option<string>,
        filters: Option<string>,
        distinct: Option<bool>,
        sort: Option<string>,
        limit: Option<int>,
        offset: Option<int>)
    | SqlParams(sql: string)

  /** The arguments of one `makeRequest(endpoint, action, params)` call. */
  datatype Request = Request(endpoint: string, action: Action, params: Params)

  /** What a DataStore operation does with its input: refuse it without
      calling the transport, or send exactly one request. */
  datatype Dispatch = Reject | Send(request: Request)
  {
    /** The transport calls this dispatch makes, in order. */
    function Calls(): (calls: seq<Request>)
      ensures |calls| <= 1
      ensures |calls| == 0 <==> Reject?
    {
      match this
      case Reject => []
      case Send(request) => [request]
    }
  }
}
