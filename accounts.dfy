/**
 * The account handler (src/accounts/DynamoRestfulHandler.js): a table of
 * accounts keyed by a generated id. PUT creates, POST replaces an existing
 * account, DELETE removes, GET lists.
 */
module Accounts {
  import opened Wrappers
  import opened JsValues
  import opened Http

  /** The message of the DatabaseOperationException that getItemByID and getItems throw. */
  const DatabaseErrorMessage := "Error while calling DynamoDB."

  /** What GET answers on the table t: a failed read by id, else the scan (the by-id result is discarded). */
  ghost predicate AnswersGet(t: map<string, Item>, event: Event, readFails: bool, scanFails: bool, r: Response)
  {
    (Param(event.pathParameters, "id").Some? && readFails ==> r == Response(500, Text(DatabaseErrorMessage))) &&
    (!(Param(event.pathParameters, "id").Some? && readFails) ==>
      r == if scanFails then Response(500, Text(DatabaseErrorMessage)) else Response(200, Listing(t.Values)))
  }

  /** What PUT answers and leaves: 422 for a refused payload, else the insert under the fresh id or 500. */
  ghost predicate AnswersPut(before: map<string, Item>, after: map<string, Item>, body: Item, validate: Item -> bool,
                             freshId: string, writeFails: bool, r: Response)
  {
    (!validate(body) ==> r == Response(422, ValidationErrors) && after == before) &&
    (validate(body) && (writeFails || freshId in before) ==> r == Response(500, NoBody) && after == before) &&
    (validate(body) && !writeFails && freshId !in before ==>
      r == Response(200, Record(body["id" := JStr(freshId)])) && after == before[freshId := body["id" := JStr(freshId)]])
  }

  /** What POST answers and leaves: 400 without a path id, 422 for a refused payload, else the conditional replace. */
  ghost predicate AnswersPost(before: map<string, Item>, after: map<string, Item>, event: Event, validate: Item -> bool,
                              writeFails: bool, r: Response)
  {
    (Param(event.pathParameters, "id").None? ==> r == Response(400, NoBody) && after == before) &&
    (Param(event.pathParameters, "id").Some? && !validate(event.body) ==>
      r == Response(422, ValidationErrors) && after == before) &&
    (Param(event.pathParameters, "id").Some? && validate(event.body) ==>
      var id := Param(event.pathParameters, "id").value;
      if writeFails then r == Response(500, NoBody) && after == before
      else if id !in before then r == Response(404, NoBody) && after == before
      else r == Response(201, NoBody) && after == before[id := event.body["id" := JStr(id)]])
  }

  /** What DELETE answers and leaves: 404 without a path id, else the key removed and 201, present or not. */
  ghost predicate AnswersDelete(before: map<string, Item>, after: map<string, Item>, event: Event, writeFails: bool, r: Response)
  {
    (Param(event.pathParameters, "id").None? ==> r == Response(404, NoBody) && after == before) &&
    (Param(event.pathParameters, "id").Some? && writeFails ==> r == Response(500, NoBody) && after == before) &&
    (Param(event.pathParameters, "id").Some? && !writeFails ==>
      r == Response(201, NoBody) && after == before - {Param(event.pathParameters, "id").value})
  }

  class AccountHandler {
    var table: map<string, Item>

    ghost predicate Valid()
      reads this
    {
      KeyedBy(table, "id")
    }

    constructor ()
      ensures Valid() && table == map[]
    {
      table := map[];
    }

    /** Routing on the HTTP method; GET reads twice (by id, then the scan). */
    method HandleApiEvent(event: Event, validate: Item -> bool, freshId: string,
                          readFails: bool, scanFails: bool, writeFails: bool)
      returns (r: Response)
      requires Valid()
      modifies this
      ensures Valid()
      ensures event.httpMethod !in {"PUT", "POST", "DELETE"} ==> table == old(table)
      ensures event.httpMethod == "GET" ==> AnswersGet(table, event, readFails, scanFails, r)
      ensures event.httpMethod == "PUT" ==> AnswersPut(old(table), table, event.body, validate, freshId, writeFails, r)
      ensures event.httpMethod == "POST" ==> AnswersPost(old(table), table, event, validate, writeFails, r)
      ensures event.httpMethod == "DELETE" ==> AnswersDelete(old(table), table, event, writeFails, r)
      ensures event.httpMethod !in {"GET", "PUT", "POST", "DELETE"} ==> r == Response(501, NoBody)
    {
      match event.httpMethod
      case "GET" => r := HandleGet(event, readFails, scanFails);
      case "PUT" => r := HandlePut(event.body, validate, freshId, writeFails);
      case "POST" => r := HandlePost(event, validate, writeFails);
      case "DELETE" => r := HandleDelete(event, writeFails);
      case _ => r := Response(501, NoBody);
    }

    /** DELETE by path id: 404 without an id, else 201 whether or not the account existed. */
    method HandleDelete(event: Event, writeFails: bool) returns (r: Response)
      requires Valid()
      modifies this
      ensures Valid()
      ensures AnswersDelete(old(table), table, event, writeFails, r)
      ensures Param(event.pathParameters, "id").Some? && !writeFails ==>
        var id := Param(event.pathParameters, "id").value;
        id !in table && (id !in old(table) ==> table == old(table))
    {
      var id := Param(event.pathParameters, "id");
      if id.None? {
        return Response(404, NoBody);
      }
      if writeFails {
        return Response(500, NoBody);
      }
      table := table - {id.value};
      r := Response(201, NoBody);
    }

    /**
     * POST: replaces the account at the path id with the payload, whose id is
     * forced to the path id; the condition `attribute_exists(id)` turns a
     * missing account into 404.
     */
    method HandlePost(event: Event, validate: Item -> bool, writeFails: bool) returns (r: Response)
      requires Valid()
      modifies this
      ensures Valid()
      ensures AnswersPost(old(table), table, event, validate, writeFails, r)
      ensures r.Response? && (table == old(table) || r.statusCode == 201)
      ensures table.Keys == old(table.Keys)
    {
      // The integration test expects 200 and the changed account as body (accounts.test.js:193-216); the code answers
      // 201 without a body.
      var id := Param(event.pathParameters, "id");
      if id.None? {
        return Response(400, NoBody);
      }
      var item := event.body;
      if !validate(item) {
        return Response(422, ValidationErrors);
      }
      item := item["id" := JStr(id.value)];
      if writeFails {
        return Response(500, NoBody);
      }
      if id.value !in table {
        return Response(404, NoBody);
      }
      table := table[id.value := item];
      r := Response(201, NoBody);
    }

    /**
     * PUT: a refused payload is answered 422; otherwise it is stored under the
     * fresh id with `attribute_not_exists(id)`, and the stored record is returned.
     */
    method HandlePut(body: Item, validate: Item -> bool, freshId: string, writeFails: bool) returns (r: Response)
      requires Valid()
      modifies this
      ensures Valid()
      ensures AnswersPut(old(table), table, body, validate, freshId, writeFails, r)
      ensures forall k :: k in old(table) ==> k in table && table[k] == old(table)[k]
    {
      if !validate(body) {
        return Response(422, ValidationErrors);
      }
      var item := body["id" := JStr(freshId)];
      if writeFails || freshId in table {
        return Response(500, NoBody);
      }
      table := table[freshId := item];
      r := Response(200, Record(item));
    }

    /**
     * GET as written: the by-id result is overwritten by the scan, so a path id
     * changes nothing but the chance of a failure, and 404 is never answered
     * (the integration test at accounts.test.js:62-80 expects 404 for a missing id).
     */
    method HandleGet(event: Event, readFails: bool, scanFails: bool) returns (r: Response)
      requires Valid()
      ensures AnswersGet(table, event, readFails, scanFails, r)
      ensures r.Response? && r.statusCode != 404
    {
      var id := Param(event.pathParameters, "id");
      if id.Some? {
        var byId := GetItemByID(id.value, readFails);
        if byId.ReadFailed? {
          return Response(500, Text(DatabaseErrorMessage));
        }
      }
      var data := GetItems(scanFails);
      if data.ReadFailed? {
        return Response(500, Text(DatabaseErrorMessage));
      }
      // `data === null` cannot hold here: a scan yields a list.
      r := Response(200, Listing(data.value));
    }

    /** GET as evidently intended: the account at the path id, 404 when it is missing, else the scan. */
    method HandleGetIntended(event: Event, readFails: bool, scanFails: bool) returns (r: Response)
      requires Valid()
      ensures Param(event.pathParameters, "id").Some? ==>
        var id := Param(event.pathParameters, "id").value;
        r == if readFails then Response(500, Text(DatabaseErrorMessage))
             else if id in table then Response(200, Record(table[id]))
             else Response(404, NoBody)
      ensures Param(event.pathParameters, "id").None? ==>
        r == if scanFails then Response(500, Text(DatabaseErrorMessage)) else Response(200, Listing(table.Values))
    {
      var id := Param(event.pathParameters, "id");
      if id.Some? {
        var byId := GetItemByID(id.value, readFails);
        if byId.ReadFailed? {
          return Response(500, Text(DatabaseErrorMessage));
        }
        if byId.value.None? {
          return Response(404, NoBody);
        }
        return Response(200, Record(byId.value.value));
      }
      var data := GetItems(scanFails);
      if data.ReadFailed? {
        return Response(500, Text(DatabaseErrorMessage));
      }
      r := Response(200, Listing(data.value));
    }

    /** The account stored at the key, or None; a failing read throws. */
    method GetItemByID(id: string, readFails: bool) returns (r: StoreRead<Option<Item>>)
      requires Valid()
      ensures readFails <==> r.ReadFailed?
      ensures r.Read? ==> (r.value.None? <==> id !in table)
      ensures r.Read? && r.value.Some? ==> id in table && r.value.value == table[id]
      ensures r.Read? && r.value.Some? ==> Get(r.value.value, "id") == Some(JStr(id))
    {
      if readFails {
        return ReadFailed;
      }
      if id !in table {
        return Read(None);
      }
      r := Read(Some(table[id]));
    }

    /** The scan: every stored account; a failing scan throws. */
    method GetItems(scanFails: bool) returns (r: StoreRead<set<Item>>)
      ensures scanFails <==> r.ReadFailed?
      ensures r.Read? ==> r.value == table.Values
    {
      if scanFails {
        return ReadFailed;
      }
      r := Read(table.Values);
    }
  }

  /**
   * As written, GET with the id of a stored account answers the whole table:
   * with two accounts stored, asking for one returns both.
   */
  method GetByIdReturnsAllAccounts() returns (r: Response, asked: Item, other: Item)
    ensures r.Response? && r.statusCode == 200 && r.body.Listing?
    ensures Get(asked, "id") == Some(JStr("a")) && Get(other, "id") == Some(JStr("b"))
    ensures asked in r.body.items && other in r.body.items
  {
    var h := new AccountHandler();
    var a := map["name" := JStr("Alice")];
    var b := map["name" := JStr("Bob")];
    var ra := h.HandlePut(a, _ => true, "a", false);
    var rb := h.HandlePut(b, _ => true, "b", false);
    asked, other := a["id" := JStr("a")], b["id" := JStr("b")];
    assert h.table["a"] == asked && h.table["b"] == other;
    var event := Event("GET", Some(map["id" := "a"]), None, map[]);
    r := h.HandleGet(event, false, false);
  }

  /** The intended GET answers the one account asked for. */
  method GetByIdIntendedReturnsOne() returns (r: Response)
    ensures r == Response(200, Record(map["name" := JStr("Alice"), "id" := JStr("a")]))
  {
    var h := new AccountHandler();
    var a := map["name" := JStr("Alice")];
    var b := map["name" := JStr("Bob")];
    var ra := h.HandlePut(a, _ => true, "a", false);
    var rb := h.HandlePut(b, _ => true, "b", false);
    var event := Event("GET", Some(map["id" := "a"]), None, map[]);
    r := h.HandleGetIntended(event, false, false);
  }
}
