/**
 * The media-mapping handler (src/media-mappings/DynamoRestfulHandler.js): a
 * table of mappings keyed by a generated id, in which a PUT first checks that
 * no mapping has the same (media_type, media_identification) pair.
 */
module MediaMappings {
  import opened Wrappers
  import opened JsValues
  import opened Http

  const ConflictMessage := "Exact media-id with that media type is already mapped."

  /** The pair a PUT must not duplicate: (media_type, media_identification). */
  function MediaKey(item: Item): (Option<Json>, Option<Json>)
  {
    (Get(item, "media_type"), Get(item, "media_identification"))
  }

  /**
   * Both attributes of the pair are present: the pair query marshalls them
   * outside its try block, and marshalling refuses an undefined value.
   */
  predicate HasMediaKey(item: Item)
  {
    Get(item, "media_type").Some? && Get(item, "media_identification").Some?
  }

  /** Some stored mapping has the given media type and identification. */
  predicate IsMapped(table: map<string, Item>, mediaType: Option<Json>, mediaIdentification: Option<Json>)
    ensures IsMapped(table, mediaType, mediaIdentification) <==>
            exists item :: item in table.Values && MediaKey(item) == (mediaType, mediaIdentification)
  {
    exists k :: k in table && MediaKey(table[k]) == (mediaType, mediaIdentification)
  }

  /** The table invariant: no two stored mappings share a media pair. */
  ghost predicate UniqueMediaKeys(table: map<string, Item>)
    ensures UniqueMediaKeys(table) ==>
            forall k :: k in table ==> !IsMapped(table - {k}, MediaKey(table[k]).0, MediaKey(table[k]).1)
  {
    forall k1, k2 :: k1 in table && k2 in table && MediaKey(table[k1]) == MediaKey(table[k2]) ==> k1 == k2
  }

  /** Inserting a mapping whose pair is not yet mapped keeps the pairs unique. */
  lemma InsertKeepsUnique(table: map<string, Item>, id: string, item: Item)
    requires UniqueMediaKeys(table)
    requires id !in table && !IsMapped(table, MediaKey(item).0, MediaKey(item).1)
    ensures UniqueMediaKeys(table[id := item])
  {
    var t := table[id := item];
    forall k1, k2 | k1 in t && k2 in t && MediaKey(t[k1]) == MediaKey(t[k2]) ensures k1 == k2 {
      if k1 == id && k2 != id {
        // table[k2] would map the pair of item
        assert false;
      } else if k2 == id && k1 != id {
        assert false;
      }
    }
  }

  /** What GET answers on the table t: by path id, else by the query pair when both are given, else the scan. */
  ghost predicate AnswersGet(t: map<string, Item>, event: Event, readFails: bool, r: Response)
  {
    (readFails ==> r == Response(500, NoBody)) &&
    (!readFails && Param(event.pathParameters, "id").Some? ==>
      var id := Param(event.pathParameters, "id").value;
      r == if id in t then Response(200, Record(t[id])) else Response(404, NoBody)) &&
    (!readFails && Param(event.pathParameters, "id").None? &&
     Param(event.queryStringParameters, "media_identification").Some? &&
     Param(event.queryStringParameters, "media_type").Some? ==>
      var mt := Some(JStr(Param(event.queryStringParameters, "media_type").value));
      var mi := Some(JStr(Param(event.queryStringParameters, "media_identification").value));
      (r == Response(404, NoBody) <==> !IsMapped(t, mt, mi)) &&
      (r != Response(404, NoBody) ==> r.Response? && r.statusCode == 200 && r.body.Record? &&
                                       r.body.item in t.Values && MediaKey(r.body.item) == (mt, mi))) &&
    (!readFails && Param(event.pathParameters, "id").None? &&
     (Param(event.queryStringParameters, "media_identification").None? ||
      Param(event.queryStringParameters, "media_type").None?) ==>
      r == Response(200, Listing(t.Values)))
  }

  /**
   * What PUT answers and leaves, from table before to table after: 422 for a
   * refused payload; a throw when a pair attribute is missing; 422 for a pair
   * the query reports mapped; otherwise the conditional insert under the fresh id.
   */
  ghost predicate AnswersPut(before: map<string, Item>, after: map<string, Item>, body: Item, validate: Item -> bool,
                             freshId: string, readFails: bool, writeFails: bool, r: Response)
  {
    (!validate(body) ==> r == Response(422, ValidationErrors) && after == before) &&
    (validate(body) && !HasMediaKey(body) ==> r == Thrown && after == before) &&
    (validate(body) && HasMediaKey(body) && !readFails && IsMapped(before, MediaKey(body).0, MediaKey(body).1) ==>
      r == Response(422, Text(ConflictMessage)) && after == before) &&
    (validate(body) && HasMediaKey(body) && (readFails || !IsMapped(before, MediaKey(body).0, MediaKey(body).1)) ==>
      if writeFails || freshId in before then r == Response(500, NoBody) && after == before
      else r == Response(200, Record(body["id" := JStr(freshId)])) && after == before[freshId := body["id" := JStr(freshId)]])
  }

  /** What DELETE answers and leaves: 404 without a path id, else the key removed and 201, present or not. */
  ghost predicate AnswersDelete(before: map<string, Item>, after: map<string, Item>, event: Event, writeFails: bool, r: Response)
  {
    (Param(event.pathParameters, "id").None? ==> r == Response(404, NoBody) && after == before) &&
    (Param(event.pathParameters, "id").Some? && writeFails ==> r == Response(500, NoBody) && after == before) &&
    (Param(event.pathParameters, "id").Some? && !writeFails ==>
      r == Response(201, NoBody) && after == before - {Param(event.pathParameters, "id").value})
  }

  class MediaMappingHandler {
    var table: map<string, Item>

    ghost predicate Valid()
      reads this
    {
      KeyedBy(table, "id")
    }

    ghost predicate Unique()
      reads this
    {
      UniqueMediaKeys(table)
    }

    constructor ()
      ensures Valid() && Unique() && table == map[]
    {
      table := map[];
    }

    /** Routing on the HTTP method. Only PUT and DELETE write. */
    method HandleApiEvent(event: Event, validate: Item -> bool, freshId: string, readFails: bool, writeFails: bool)
      returns (r: Response)
      requires Valid()
      modifies this
      ensures Valid()
      ensures event.httpMethod != "PUT" && event.httpMethod != "DELETE" ==> table == old(table)
      ensures event.httpMethod == "GET" ==> AnswersGet(table, event, readFails, r)
      ensures event.httpMethod == "PUT" ==>
        AnswersPut(old(table), table, event.body, validate, freshId, readFails, writeFails, r)
      ensures event.httpMethod == "DELETE" ==> AnswersDelete(old(table), table, event, writeFails, r)
      ensures event.httpMethod !in {"GET", "PUT", "DELETE"} ==> r == Response(501, NoBody)
      ensures old(Unique()) && !(event.httpMethod == "PUT" && readFails) ==> Unique()
    {
      match event.httpMethod
      case "GET" => r := HandleGet(event, readFails);
      case "PUT" => r := HandlePut(event.body, validate, freshId, readFails, writeFails);
      case "POST" => r := HandlePost(event);
      case "DELETE" => r := HandleDelete(event, writeFails);
      case _ => r := Response(501, NoBody);
    }

    /**
     * DELETE by path id: 404 without an id; otherwise the key is removed and
     * the answer is 201 whether or not it was there.
     */
    method HandleDelete(event: Event, writeFails: bool) returns (r: Response)
      requires Valid()
      modifies this
      ensures Valid() && (old(Unique()) ==> Unique())
      ensures AnswersDelete(old(table), table, event, writeFails, r)
    {
      // The integration tests expect 204 (media-mappings.test.js:213, :228); the code answers 201.
      var id := Param(event.pathParameters, "id");
      if id.None? {
        return Response(404, NoBody);
      }
      if writeFails {
        return Response(500, NoBody);
      }
      table := table - {id.value};
      r := Response(201, NoBody);
    }

    /** POST is not implemented. */
    method HandlePost(event: Event) returns (r: Response)
      ensures r == Response(501, NoBody)
    {
      r := Response(501, NoBody);
    }

    /**
     * PUT: a payload the validator refuses, or whose media pair is already
     * mapped, is answered 422 with nothing written; otherwise the mapping is
     * stored under the fresh id. A failing pair query reads as "no conflict".
     */
    method HandlePut(body: Item, validate: Item -> bool, freshId: string, readFails: bool, writeFails: bool)
      returns (r: Response)
      requires Valid()
      modifies this
      ensures Valid()
      ensures AnswersPut(old(table), table, body, validate, freshId, readFails, writeFails, r)
      ensures old(Unique()) && !readFails ==> Unique()
    {
      if !validate(body) {
        return Response(422, ValidationErrors);
      }
      if !HasMediaKey(body) {
        return Thrown;
      }
      var conflict := ConflictingMappingExists(body, readFails);
      if conflict {
        return Response(422, Text(ConflictMessage));
      }
      var item := body["id" := JStr(freshId)];
      assert MediaKey(item) == MediaKey(body);
      ghost var before := table;
      r := Insert(item, freshId, writeFails);
      if UniqueMediaKeys(before) && !readFails && table != before {
        InsertKeepsUnique(before, freshId, item);
      }
    }

    /**
     * PUT that treats a failing pair query as a failure (500, nothing written)
     * instead of as "no conflict"; it keeps the pairs unique whatever the store does.
     */
    method HandlePutFailClosed(body: Item, validate: Item -> bool, freshId: string, readFails: bool, writeFails: bool)
      returns (r: Response)
      requires Valid()
      modifies this
      ensures Valid()
      ensures !validate(body) ==> r == Response(422, ValidationErrors) && table == old(table)
      ensures validate(body) && !HasMediaKey(body) ==> r == Thrown && table == old(table)
      ensures validate(body) && HasMediaKey(body) && readFails ==> r == Response(500, NoBody) && table == old(table)
      ensures validate(body) && HasMediaKey(body) && !readFails && IsMapped(old(table), MediaKey(body).0, MediaKey(body).1) ==>
        r == Response(422, Text(ConflictMessage)) && table == old(table)
      ensures validate(body) && HasMediaKey(body) && !readFails && !IsMapped(old(table), MediaKey(body).0, MediaKey(body).1) ==>
        if writeFails || freshId in old(table) then r == Response(500, NoBody) && table == old(table)
        else r == Response(200, Record(body["id" := JStr(freshId)])) &&
             table == old(table)[freshId := body["id" := JStr(freshId)]]
      ensures old(Unique()) ==> Unique()
    {
      if !validate(body) {
        return Response(422, ValidationErrors);
      }
      if !HasMediaKey(body) {
        return Thrown;
      }
      var query := GetItemByMediaTypeAndIdentification(MediaKey(body).0, MediaKey(body).1, readFails);
      if query.Response? && query.statusCode == 200 {
        return Response(422, Text(ConflictMessage));
      } else if query != Response(404, NoBody) {
        return Response(500, NoBody);
      }
      var item := body["id" := JStr(freshId)];
      assert MediaKey(item) == MediaKey(body);
      ghost var before := table;
      r := Insert(item, freshId, writeFails);
      if UniqueMediaKeys(before) && table != before {
        InsertKeepsUnique(before, freshId, item);
      }
    }

    /** The conditional put `attribute_not_exists(id)`; a failed condition is caught like any store error. */
    method Insert(item: Item, id: string, writeFails: bool) returns (r: Response)
      requires Valid() && Get(item, "id") == Some(JStr(id))
      modifies this
      ensures Valid()
      ensures writeFails || id in old(table) ==> r == Response(500, NoBody) && table == old(table)
      ensures !writeFails && id !in old(table) ==> r == Response(200, Record(item)) && table == old(table)[id := item]
    {
      if writeFails || id in table {
        return Response(500, NoBody);
      }
      table := table[id := item];
      r := Response(200, Record(item));
    }

    /** conflictingMappingExists: the pair query answered 200. */
    method ConflictingMappingExists(item: Item, readFails: bool) returns (conflict: bool)
      requires HasMediaKey(item)
      ensures conflict <==> !readFails && IsMapped(table, MediaKey(item).0, MediaKey(item).1)
    {
      var response := GetItemByMediaTypeAndIdentification(MediaKey(item).0, MediaKey(item).1, readFails);
      conflict := response.Response? && response.statusCode == 200;
    }

    /** GET by path id, else by the query pair when both are given, else a scan. */
    method HandleGet(event: Event, readFails: bool) returns (r: Response)
      requires Valid()
      ensures AnswersGet(table, event, readFails, r)
    {
      var id := Param(event.pathParameters, "id");
      var mi := Param(event.queryStringParameters, "media_identification");
      var mt := Param(event.queryStringParameters, "media_type");
      if id.Some? {
        r := GetItemByID(id.value, readFails);
      } else if mi.Some? && mt.Some? {
        r := GetItemByMediaTypeAndIdentification(Some(JStr(mt.value)), Some(JStr(mi.value)), readFails);
      } else {
        r := GetItems(readFails);
      }
    }

    /** GET by id: 404 for a key that is not stored. */
    method GetItemByID(id: string, readFails: bool) returns (r: Response)
      requires Valid()
      ensures readFails ==> r == Response(500, NoBody)
      ensures !readFails && id !in table ==> r == Response(404, NoBody)
      ensures !readFails && id in table ==> r == Response(200, Record(table[id]))
      ensures r.Response? && r.statusCode == 200 ==> r.body.Record? && Get(r.body.item, "id") == Some(JStr(id))
    {
      if readFails {
        return Response(500, NoBody);
      }
      if id !in table {
        return Response(404, NoBody);
      }
      r := Response(200, Record(table[id]));
    }

    /**
     * The query on the media pair: 200 with a matching mapping (the only one
     * when the pairs are unique), or 404 when none matches.
     */
    method GetItemByMediaTypeAndIdentification(mediaType: Option<Json>, mediaIdentification: Option<Json>, readFails: bool)
      returns (r: Response)
      requires mediaType.Some? && mediaIdentification.Some?
      ensures readFails ==> r == Response(500, NoBody)
      ensures !readFails && !IsMapped(table, mediaType, mediaIdentification) ==> r == Response(404, NoBody)
      ensures !readFails && IsMapped(table, mediaType, mediaIdentification) ==>
        r.Response? && r.statusCode == 200 && r.body.Record? &&
        r.body.item in table.Values && MediaKey(r.body.item) == (mediaType, mediaIdentification)
      ensures !readFails && IsMapped(table, mediaType, mediaIdentification) && UniqueMediaKeys(table) ==>
        forall k :: k in table && MediaKey(table[k]) == (mediaType, mediaIdentification) ==> r == Response(200, Record(table[k]))
    {
      if readFails {
        return Response(500, NoBody);
      }
      if !IsMapped(table, mediaType, mediaIdentification) {
        return Response(404, NoBody);
      }
      var k :| k in table && MediaKey(table[k]) == (mediaType, mediaIdentification);
      r := Response(200, Record(table[k]));
    }

    /** A scan: 200 with every mapping. */
    method GetItems(readFails: bool) returns (r: Response)
      ensures readFails ==> r == Response(500, NoBody)
      ensures !readFails ==> r == Response(200, Listing(table.Values))
    {
      if readFails {
        return Response(500, NoBody);
      }
      r := Response(200, Listing(table.Values));
    }
  }

  /**
   * As written, a PUT whose pair query fails goes ahead: starting from one
   * mapping, a second PUT of the same pair while the query fails leaves two
   * mappings with that pair.
   */
  method FailedQueryAdmitsDuplicate() returns (h: MediaMappingHandler)
    ensures h.Valid() && !h.Unique() && |h.table| == 2
  {
    var mapping := map["media_type" := JStr("RFID_ID"), "media_identification" := JStr("11234asdf34fqv")];
    h := new MediaMappingHandler();
    var r1 := h.HandlePut(mapping, _ => true, "1", false, false);
    var r2 := h.HandlePut(mapping, _ => true, "2", true, false);
    assert h.table == map["1" := mapping["id" := JStr("1")], "2" := mapping["id" := JStr("2")]];
    assert MediaKey(h.table["1"]) == MediaKey(h.table["2"]);
  }

  /**
   * The pair is the conflict key: after one mapping is stored, a PUT of the
   * same identification under another media type is stored as well.
   */
  method OtherMediaTypeAccepted(mediaType: string, otherType: string, identification: string)
    returns (h: MediaMappingHandler, r: Response)
    requires mediaType != otherType
    ensures h.Valid() && h.Unique() && |h.table| == 2
    ensures r == Response(200, Record(map["media_type" := JStr(otherType), "media_identification" := JStr(identification),
                                          "id" := JStr("2")]))
  {
    var first := map["media_type" := JStr(mediaType), "media_identification" := JStr(identification)];
    var second := map["media_type" := JStr(otherType), "media_identification" := JStr(identification)];
    h := new MediaMappingHandler();
    var r1 := h.HandlePut(first, _ => true, "1", false, false);
    assert h.table == map["1" := first["id" := JStr("1")]];
    assert MediaKey(h.table["1"]) != MediaKey(second);
    r := h.HandlePut(second, _ => true, "2", false, false);
    assert h.table.Keys == {"1", "2"};
  }

  /** The same two PUTs through the fail-closed PUT leave one mapping. */
  method FailClosedRefusesDuplicate() returns (h: MediaMappingHandler)
    ensures h.Valid() && h.Unique() && |h.table| == 1
  {
    var mapping := map["media_type" := JStr("RFID_ID"), "media_identification" := JStr("11234asdf34fqv")];
    h := new MediaMappingHandler();
    var r1 := h.HandlePutFailClosed(mapping, _ => true, "1", false, false);
    var r2 := h.HandlePutFailClosed(mapping, _ => true, "2", true, false);
    assert h.table == map["1" := mapping["id" := JStr("1")]];
  }
}
