# CKAN DataStore query builder — a Dafny model

This project models the client-side `DataStore` of the CKAN registry page
module. A `DataStore` is one connection to a CKAN catalog. It holds an
endpoint and a resource identifier. Each of its three calls makes at most one
Data Store request and normalises the JSON envelope that comes back:

- `search(fields, term, distinct, limit, offset, sortOptions)` validates its
  arguments. It then builds a `datastore_search` request with these
  parameters: `id`, `fields` (comma-joined), `q` or `filters`, `distinct`,
  `sort`, `limit` and `offset`. It yields `{records, total}` or `false`.
- `searchSql(query)` sends the SQL returned by `query.parse()` to
  `datastore_search_sql`. It yields `{records, total}` or `false`.
- `countSql(query)` sends the SQL returned by `query.parseCount()` to
  `datastore_search_sql`. It yields `result.records[0].count` or `false`.

The DataStore implementation file is not part of this model. Its behaviour
is taken from the assertions of its Jest test file,
`client/src/lib/CKANApi/tests/DataStore-test.js`. Where that file leaves a
case open, the model makes its own choice; each such choice is listed under
"Left out".

Modules:

- `Wrappers`: the `Option` type.
- `FieldList`: `Join` (how `fields.join(',')` renders the list) and `Split`,
  its partner. The lemma `SplitJoin` proves that splitting gives back the
  same names in the same order.
- `SortClause`: renders `"<field> ASC"` / `"<field> DESC"`. `Render`'s
  contract states that `Parse` reads the clause back.
- `FilterJson`: `JSON.stringify` of a flat object of strings, which is what
  `filters` carries. A term object is a `JsObject`: no key occurs twice. The
  encoder applies the escapes `JSON.stringify` uses for Unicode scalar
  values: `\"`, `\\`, `\b`, `\f`, `\n`, `\r`, `\t` and lower-case
  `\u00xx`. Lone surrogates cannot occur in a Dafny string (see "Left out"). A
  decoder reads the compact JSON text back. `ObjectRoundTrip` proves
  `DecodeObject(EncodeObject(m)) == Some(m)`.
- `CkanRequest`: the actions, the parameter object and the request. A
  `Dispatch` is either `Reject` (no transport call) or `Send(request)`
  (exactly one call).
- `CkanResponse`: the envelope (`Falsy`, `Unsuccessful`,
  `Successful(result)`). It also holds the caller-visible `Outcome`:
  - `Value(v)`: the call delivers `v`.
  - `Sentinel`: the call delivers `false`. The model does not say whether
    `false` arrives by resolving or by rejecting the promise.
  - `Fault`: a `TypeError` raised while reading the body. The only such
    case modelled is a successful count answer with no records.

  The two normalisation functions live here too.
- `DataStore`: the store, the argument types, the three calls and their
  properties. The transport is a function parameter from a request to the
  body its response resolves to. "No network call" is stated two ways: the
  dispatch is `Reject` with no calls, and the outcome is `false` whatever
  the transport would answer.

## Model

| member | source | states |
|---|---|---|
| CkanRequest.Action.Name | client/src/lib/CKANApi/tests/DataStore-test.js:45-181 | a structured search sends exactly the action name `datastore_search` (lines 45-48), an SQL search exactly `datastore_search_sql` (lines 178-181), and no action sends the other's name; both names carry the `datastore_` prefix |
| CkanRequest.Dispatch.Calls | client/src/lib/CKANApi/tests/DataStore-test.js:33-45 | the transport call log of one operation holds at most one request, and it is empty exactly when the operation refused its input |
| DataStore.BuildSearch | client/src/lib/CKANApi/tests/DataStore-test.js:22-60 | a search is refused exactly when the fields are not a non-empty array or the term has an unknown type; a sent search goes to the store's endpoint with `datastore_search` and `id` = the resource |
| DataStore.InvalidFieldsMakeNoRequest | client/src/lib/CKANApi/tests/DataStore-test.js:22-36 | fields that are not an array, or are an empty array, cause no transport call, and the call yields `false` whatever the transport would answer |
| DataStore.SearchIssuesOneRequestIffAccepted | client/src/lib/CKANApi/tests/DataStore-test.js:22-60 | a search makes one transport call when its arguments are accepted and none otherwise |
| DataStore.SearchTargetsStoreColumns | client/src/lib/CKANApi/tests/DataStore-test.js:38-60 | an accepted search uses the store's endpoint, the action name `datastore_search` and `id` = the resource; `fields` is the names joined by commas; for comma-free names it splits back into the same names in the same order |
| FieldList.Join | client/src/lib/CKANApi/tests/DataStore-test.js:53-60 | the `fields` value is as long as the names plus one comma per gap, and starts with the first name, followed by a comma when more names come |
| FieldList.SplitJoin | client/src/lib/CKANApi/tests/DataStore-test.js:53-60 | for a non-empty list of comma-free names, splitting the joined `fields` value at commas gives back exactly the original list |
| DataStore.FieldsExample | client/src/lib/CKANApi/tests/DataStore-test.js:53-60 | `['foo','bar']` is sent as `fields: "foo,bar"` |
| DataStore.QueryText | client/src/lib/CKANApi/tests/DataStore-test.js:62-87 | `q` is sent exactly for a non-empty string term, and then equals that string |
| DataStore.FilterText | client/src/lib/CKANApi/tests/DataStore-test.js:62-87 | `filters` is sent exactly for a non-empty object term, and its text decodes back to that object's members in order |
| DataStore.TermParameters | client/src/lib/CKANApi/tests/DataStore-test.js:62-87 | `q` and `filters` are never both sent; `q` is sent exactly for a non-empty string term and equals it; `filters` is sent exactly for a non-empty object term and decodes back to that object's members in order; an empty object sends neither |
| DataStore.TextTermExamples | client/src/lib/CKANApi/tests/DataStore-test.js:62-87 | the term `'baz'` is sent as `q: "baz"`, and the term `{}` sends no `q` |
| FilterJson.EscapeChar | client/src/lib/CKANApi/tests/DataStore-test.js:71-78 | a character is written behind a backslash exactly when JSON requires it (quote, backslash, control character); any other character is written as itself; the escape never starts with a quote and never contains a raw control character |
| FilterJson.EncodeObject | client/src/lib/CKANApi/tests/DataStore-test.js:71-78 | the `filters` text is brace-delimited, and is `{}` exactly for an object without members |
| FilterJson.ObjectRoundTrip | client/src/lib/CKANApi/tests/DataStore-test.js:71-78 | decoding the `filters` JSON text of any flat object gives back exactly its members, in order |
| FilterJson.StringRoundTrip | client/src/lib/CKANApi/tests/DataStore-test.js:71-78 | every JSON-encoded key or value decodes to itself, and decoding stops right after its closing quote |
| FilterJson.EncodeObjectInjective | client/src/lib/CKANApi/tests/DataStore-test.js:71-78 | two objects with the same `filters` text have the same members in the same order |
| DataStore.FilterTextExample | client/src/lib/CKANApi/tests/DataStore-test.js:71-78 | the JSON text of `{foo:'bin', bar:'baz'}` is `{"foo":"bin","bar":"baz"}` |
| DataStore.FiltersExample | client/src/lib/CKANApi/tests/DataStore-test.js:71-78 | `{foo:'bin', bar:'baz'}` is sent as `filters: '{"foo":"bin","bar":"baz"}'` |
| DataStore.DistinctOnlyWhenTrue | client/src/lib/CKANApi/tests/DataStore-test.js:89-101 | `distinct` is present exactly when the argument is true; it is then `true`, and it is never sent as `false` |
| DataStore.SortParameter | client/src/lib/CKANApi/tests/DataStore-test.js:103-122 | with both sort options given and a non-empty field, `sort` is the field followed by ` ASC` or ` DESC` and parses back to the same field and direction; with either option missing or an empty field, no `sort` is sent |
| SortClause.Render | client/src/lib/CKANApi/tests/DataStore-test.js:103-122 | every rendered sort clause parses back to the field and direction it came from, even when the field contains spaces |
| DataStore.SortText | client/src/lib/CKANApi/tests/DataStore-test.js:103-122 | `sort` is sent exactly when both `sortField` and `sortAscending` are given and the field is not empty, and parses back to that field and direction |
| DataStore.SortExamples | client/src/lib/CKANApi/tests/DataStore-test.js:103-122 | `{sortField:'test', sortAscending:false}` is sent as `"test DESC"` and `{sortField:'blah', sortAscending:true}` as `"blah ASC"` |
| DataStore.PagingPassesThrough | client/src/lib/CKANApi/tests/DataStore-test.js:106-109 | the test passes `limit` 100 and `offset` 0 and asserts nothing about them; the model sends each exactly when given, unchanged |
| DataStore.BadTermMakesNoRequest | client/src/lib/CKANApi/tests/DataStore-test.js:124-131 | a term that is not absent, a string or an object causes no transport call, and the call yields `false` |
| DataStore.Search | client/src/lib/CKANApi/tests/DataStore-test.js:124-153 | reading a search's body never raises a `TypeError`, and a refused search yields `false` |
| DataStore.SearchOutcome | client/src/lib/CKANApi/tests/DataStore-test.js:133-153 | a search yields a value exactly when its request was sent and the answer was successful; the value is then that answer's `records` and `total`; every other case yields `false` |
| CkanResponse.NormaliseSearch | client/src/lib/CKANApi/tests/DataStore-test.js:133-153 | a successful envelope yields exactly its `records` and `total`; a falsy or unsuccessful body yields `false` |
| DataStore.BuildSearchSql | client/src/lib/CKANApi/tests/DataStore-test.js:164-183 | `searchSql` always sends a request: the store's endpoint, `datastore_search_sql`, and `sql` equal to what `parse()` returned |
| DataStore.SearchSql | client/src/lib/CKANApi/tests/DataStore-test.js:185-220 | reading an SQL search's body never raises a `TypeError` |
| DataStore.SearchSqlOutcome | client/src/lib/CKANApi/tests/DataStore-test.js:164-220 | `searchSql` makes exactly one call with the action name `datastore_search_sql` and the SQL from `parse()` unchanged; it yields the envelope's result exactly when the answer was successful |
| DataStore.SearchSqlReadsOnlyParse | client/src/lib/CKANApi/tests/DataStore-test.js:157-183 | two queries with the same `parse()` result give the same `searchSql` request and outcome, whatever `parseCount()` returns |
| DataStore.BuildCountSql | client/src/lib/CKANApi/tests/DataStore-test.js:234-253 | `countSql` always sends a request: the store's endpoint, `datastore_search_sql`, and `sql` equal to what `parseCount()` returned |
| DataStore.CountSql | client/src/lib/CKANApi/tests/DataStore-test.js:255-288 | a count is only ever the `count` of the first record in a successful answer to the count request |
| DataStore.CountSqlReadsOnlyParseCount | client/src/lib/CKANApi/tests/DataStore-test.js:224-253 | two queries with the same `parseCount()` result give the same `countSql` request and outcome, whatever `parse()` returns |
| CkanResponse.NormaliseCount | client/src/lib/CKANApi/tests/DataStore-test.js:255-288 | a successful envelope with records yields the first record's `count`; a falsy or unsuccessful body yields `false`; a successful envelope with no records fails |
| DataStore.CountSqlOutcome | client/src/lib/CKANApi/tests/DataStore-test.js:234-288 | `countSql` makes one call with the SQL from `parseCount()` unchanged; it yields `records[0].count` on success, `false` on an unsuccessful or falsy body, and a fault on a successful body with no records |
| DataStore.CountExample | client/src/lib/CKANApi/tests/DataStore-test.js:255-288 | `{success:true, result:{records:[{count:123}]}}` yields `123`, and `{success:false}` yields `false` |

## Left out

- The transport (`CKANApi.makeRequest`), promises and asynchronous sequencing are not modelled. The transport is a function parameter. Transport-level rejections, and a `json()` that throws, are not modelled either.
- Resolve versus reject for invalid `fields`: the test reads the value through the promise's rejection handler. That passes whether the promise is rejected with `false` or resolved. The model records only that no request is made and that the value delivered is the sentinel `false`.
- A term of an unknown type (the number 7): the test asserts only that `search` resolves to `false`. The model's own choice is that no request is issued either.
- An empty string term: the test does not exercise it. The model's own choice is to send no `q` for it.
- A `sortOptions` object with either property missing sends no `sort`. The test exercises only the case where both are present.
- DataStore.SortText: an empty `sortField` sends no `sort`, matching the treatment of an empty text term. The test does not exercise it; this is the model's own choice. A `sortField` that is not a string and a `sortAscending` that is not a boolean are not modelled.
- A `fields` array is modelled with string elements only. Arrays holding non-string elements are never exercised by the test.
- FieldList.SplitJoin: proved only for column names without commas. A name containing a comma cannot be told apart from two names once joined, the test does not exercise such names, and the model accepts them without a guard.
- The SQL query object is modelled by the strings its `parse()` and `parseCount()` return. The model therefore cannot state that `searchSql` calls `parse()` and `countSql` calls `parseCount()`, nor that each is called exactly once. It states only that each call reads the one result it needs (`SearchSqlReadsOnlyParse`, `CountSqlReadsOnlyParseCount`). A query whose method is missing or returns `undefined` is not modelled.
- JavaScript strings are sequences of UTF-16 code units; a Dafny `string` is a sequence of Unicode scalar values. A lone surrogate in a term key or value cannot be represented, so the `\udxxx` escape `JSON.stringify` writes for one is not modelled.
- Filter values are strings only. JSON values of other types inside a term object are not modelled.
- A term object's members are taken in the order in which `JSON.stringify` enumerates them. JavaScript's rule that integer-like keys come first in ascending order is not modelled.
- The `filters` decoder reads the compact form that `JSON.stringify` writes. It does not read whitespace between tokens or surrogate-pair `\u` escapes.
- CkanResponse.CountRow: a count is an integer. A `count` that is not a number, and a first record with no `count` (JavaScript then yields `undefined`), are not modelled.
- `records` and `total` of a search are opaque. A `success: true` envelope without a `result` object is not modelled.
- `distinct` is a boolean argument. Truthy non-boolean values are not modelled.
- No file shows whether `search` fills in a value for an omitted `limit` or `offset`. The model sends none.
- The CMS page type and its grid-field configuration (`src/Page/CKANRegistryPage.php`), the dropdown filter component and the resource-locator entwine binding are not modelled. They are framework and UI glue with no query logic.
