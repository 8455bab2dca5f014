/** The API Gateway proxy events the handlers receive and the responses they return. */
module Http {
  import opened Wrappers
  import opened JsValues

  /**
   * The parts of an event the handlers read. `body` is the request body after
   * JSON.parse; GET and DELETE handlers never look at it.
   */
  datatype Event = Event(
    httpMethod: string,
    pathParameters: Option<map<string, string>>,
    queryStringParameters: Option<map<string, string>>,
    body: Item)

  /** What a response carries in `body`. */
  datatype Body =
    | NoBody                            // no `body` property
    | Text(message: string)             // a fixed message or an exception's message
    | ValidationErrors                  // JSON.stringify(validate.errors)
    | StoreOutput                       // the raw answer of a store write
    | Record(item: Item)                // one item
    | MaybeRecord(found: Option<Item>)  // JSON.stringify of an item that may be undefined
    | Listing(items: set<Item>)         // the items of a full table scan, in no particular order

  /** A handler's answer, or an exception that escapes the handler. */
  datatype Response = Response(statusCode: int, body: Body) | Thrown

  /** The answer of a store read that throws a DatabaseOperationException on failure. */
  datatype StoreRead<T> = Read(value: T) | ReadFailed

  /**
   * `event.<params>.<name>` when the guard `event && event.<params> && event.<params>.<name>`
   * lets it through: present and not the empty string.
   */
  function Param(params: Option<map<string, string>>, name: string): (r: Option<string>)
    ensures r.Some? <==> params.Some? && name in params.value && params.value[name] != ""
    ensures r.Some? ==> r.value == params.value[name] && r.value != ""
  {
    if params.Some? && name in params.value && params.value[name] != "" then Some(params.value[name]) else None
  }

  /** True when every key of the table is the string stored under `attr` in its item. */
  ghost predicate KeyedBy(table: map<string, Item>, attr: string)
  {
    forall k :: k in table ==> Get(table[k], attr) == Some(JStr(k))
  }
}
