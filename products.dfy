/**
 * The product handler (src/products/DynamoRestfulHandler.js): a catalogue
 * keyed by the product's `ean`, written by unconditional puts.
 */
module Products {
  import opened Wrappers
  import opened JsValues
  import opened Http

  /**
   * The key a payload is stored under: its `ean`, which the table's key
   * schema requires to be a non-empty string.
   */
  function ProductKey(item: Item): (k: Option<string>)
    ensures k.Some? <==> exists s :: s != "" && Get(item, "ean") == Some(JStr(s))
    ensures k.Some? ==> Get(item, "ean") == Some(JStr(k.value)) && k.value != ""
  {
    match Get(item, "ean")
    case Some(JStr(s)) => if s != "" then Some(s) else None
    case _ => None
  }

  /** What GET answers on the table t: by the query-string ean when given, else the scan. */
  ghost predicate AnswersGet(t: map<string, Item>, event: Event, readFails: bool, r: Response)
  {
    (readFails ==> r == Response(500, NoBody)) &&
    (!readFails && Param(event.queryStringParameters, "ean").Some? ==>
      var ean := Param(event.queryStringParameters, "ean").value;
      r == if ean in t then Response(200, Record(t[ean])) else Response(404, NoBody)) &&
    (!readFails && Param(event.queryStringParameters, "ean").None? ==> r == Response(200, Listing(t.Values)))
  }

  /** What PUT answers and leaves: 422 for a refused payload, 500 without a usable key, else the upsert and 201. */
  ghost predicate AnswersPut(before: map<string, Item>, after: map<string, Item>, body: Item, validate: Item -> bool,
                             writeFails: bool, r: Response)
  {
    (!validate(body) ==> r == Response(422, ValidationErrors) && after == before) &&
    (validate(body) && (writeFails || ProductKey(body).None?) ==> r == Response(500, NoBody) && after == before) &&
    (validate(body) && !writeFails && ProductKey(body).Some? ==>
      r == Response(201, NoBody) && after == before[ProductKey(body).value := body])
  }

  /** What DELETE answers and leaves: 404 without a query-string ean, else the key removed and 201. */
  ghost predicate AnswersDelete(before: map<string, Item>, after: map<string, Item>, event: Event, writeFails: bool, r: Response)
  {
    (Param(event.queryStringParameters, "ean").None? ==> r == Response(404, NoBody) && after == before) &&
    (Param(event.queryStringParameters, "ean").Some? && writeFails ==> r == Response(500, NoBody) && after == before) &&
    (Param(event.queryStringParameters, "ean").Some? && !writeFails ==>
      r == Response(201, NoBody) && after == before - {Param(event.queryStringParameters, "ean").value})
  }

  class ProductHandler {
    var table: map<string, Item>

    ghost predicate Valid()
      reads this
    {
      KeyedBy(table, "ean")
    }

    constructor ()
      ensures Valid() && table == map[]
    {
      table := map[];
    }

    /** Routing on the HTTP method. Only PUT and DELETE write. */
    method HandleApiEvent(event: Event, validate: Item -> bool, readFails: bool, writeFails: bool)
      returns (r: Response)
      requires Valid()
      modifies this
      ensures Valid()
      ensures event.httpMethod != "PUT" && event.httpMethod != "DELETE" ==> table == old(table)
      ensures event.httpMethod == "GET" ==> AnswersGet(table, event, readFails, r)
      ensures event.httpMethod == "PUT" ==> AnswersPut(old(table), table, event.body, validate, writeFails, r)
      ensures event.httpMethod == "DELETE" ==> AnswersDelete(old(table), table, event, writeFails, r)
      ensures event.httpMethod !in {"GET", "PUT", "DELETE"} ==> r == Response(501, NoBody)
    {
      match event.httpMethod
      case "GET" => r := HandleGet(event, readFails);
      case "PUT" => r := HandlePut(event.body, validate, writeFails);
      case "POST" => r := HandlePost(event);
      case "DELETE" => r := HandleDelete(event, writeFails);
      case _ => r := Response(501, NoBody);
    }

    /**
     * DELETE by the query-string ean: 404 without one, else 201 whether or not
     * the product existed. The integration tests send the ean as a path
     * parameter and expect 204 (products.test.js:89-116); the code reads the
     * query string.
     */
    method HandleDelete(event: Event, writeFails: bool) returns (r: Response)
      requires Valid()
      modifies this
      ensures Valid()
      ensures AnswersDelete(old(table), table, event, writeFails, r)
      ensures Param(event.queryStringParameters, "ean").Some? && !writeFails ==>
        Param(event.queryStringParameters, "ean").value !in table
    {
      var ean := Param(event.queryStringParameters, "ean");
      if ean.None? {
        return Response(404, NoBody);
      }
      if writeFails {
        return Response(500, NoBody);
      }
      table := table - {ean.value};
      r := Response(201, NoBody);
    }

    /** POST is not implemented. */
    method HandlePost(event: Event) returns (r: Response)
      ensures r == Response(501, NoBody)
    {
      r := Response(501, NoBody);
    }

    /**
     * PUT: a refused payload is answered 422; otherwise it replaces whatever
     * is stored under its ean (an upsert) and the answer is 201. A payload
     * without a usable key is refused by the store (500).
     */
    method HandlePut(body: Item, validate: Item -> bool, writeFails: bool) returns (r: Response)
      requires Valid()
      modifies this
      ensures Valid()
      ensures AnswersPut(old(table), table, body, validate, writeFails, r)
      ensures forall k :: k in old(table) && Some(k) != ProductKey(body) ==> k in table && table[k] == old(table)[k]
    {
      // The integration test expects 200 (products.test.js:78); the code answers 201.
      if !validate(body) {
        return Response(422, ValidationErrors);
      }
      var ean := ProductKey(body);
      if writeFails || ean.None? {
        return Response(500, NoBody);
      }
      table := table[ean.value := body];
      r := Response(201, NoBody);
    }

    /**
     * GET by the query-string ean, else the scan. The integration tests send
     * the ean as a path parameter (products.test.js:28-57), which this code
     * answers with the scan.
     */
    method HandleGet(event: Event, readFails: bool) returns (r: Response)
      requires Valid()
      ensures AnswersGet(table, event, readFails, r)
      ensures !readFails && r.Response? && r.body.Record? ==> r.body.item in table.Values
    {
      var ean := Param(event.queryStringParameters, "ean");
      if ean.Some? {
        r := GetItemByEan(ean.value, readFails);
      } else {
        r := GetItems(readFails);
      }
    }

    /** GET by ean: the stored product, whose own ean is the one asked for, or 404. */
    method GetItemByEan(ean: string, readFails: bool) returns (r: Response)
      requires Valid()
      ensures readFails ==> r == Response(500, NoBody)
      ensures !readFails && ean !in table ==> r == Response(404, NoBody)
      ensures !readFails && ean in table ==>
        r == Response(200, Record(table[ean])) && Get(r.body.item, "ean") == Some(JStr(ean))
    {
      if readFails {
        return Response(500, NoBody);
      }
      if ean !in table {
        return Response(404, NoBody);
      }
      r := Response(200, Record(table[ean]));
    }

    /** A scan: 200 with every product. */
    method GetItems(readFails: bool) returns (r: Response)
      ensures readFails ==> r == Response(500, NoBody)
      ensures !readFails ==> r == Response(200, Listing(table.Values))
    {
      if readFails {
        return Response(500, NoBody);
      }
      r := Response(200, Listing(table.Values));
    }
  }
}
