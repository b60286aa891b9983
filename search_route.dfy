/** The `POST /api/search` handler: validation, the default limit, and the
    mapping of a failed request to an empty result. */
module SearchRoute {

  import opened Common
  import opened Pinecone
  import opened IdeaSearch

  /** The destructured body `{ query, projectId, limit }`; an absent field is
      `None`. `limit` is whatever JSON value the client sent. */
  datatype SearchRequest = SearchRequest(query: Option<string>, projectId: Option<string>, limit: Option<Json>)

  /** What the handler answered, and the search it issued, if any. */
  datatype SearchHandled = SearchHandled(response: Response, call: Option<SearchCall>)

  /** `limit = 5` in the destructuring. */
  const DefaultLimit: int := 5

  /** The `topK` the query receives. The default applies only to an absent
      field (`null` does not trigger it); a whole number is passed on; any
      other value (`null`, a string, a boolean, a fraction) makes the query
      throw, which `findSimilarIdeas` turns into `[]`: `None` here. */
  function QueryLimit(limit: Option<Json>): (l: Option<int>)
    ensures limit.None? ==> l == Some(DefaultLimit)
    ensures limit.Some? ==> (l.Some? <==> limit.value.JNum? && limit.value.n.Floor as real == limit.value.n)
    ensures limit.Some? && l.Some? ==> l.value as real == limit.value.n
  {
    match limit
    case None => Some(DefaultLimit)
    case Some(JNum(n)) => if n.Floor as real == n then Some(n.Floor) else None
    case Some(_) => None
  }

  /** The `ideas` array of the response: each idea as the object it is. */
  function IdeasJson(ideas: seq<Obj>): (j: Json)
    ensures j.JArr? && |j.items| == |ideas|
    ensures forall i :: 0 <= i < |ideas| ==> j.items[i] == JObj(ideas[i])
  {
    JArr(seq(|ideas|, i requires 0 <= i < |ideas| => JObj(ideas[i])))
  }

  /** `POST(request)`: `body` is the result of `request.json()`, `Failed` when
      it throws. The search itself never throws: it answers `[]` on error.
      `call` is the search that reached the index. */
  function Post(body: Remote<SearchRequest>, embed: Embedder, search: QueryService): (h: SearchHandled)
    ensures h.response.status in {200, 400}
    ensures h.response.status == 400 <==> body.Ok? && (body.value.query.None? || body.value.query.value == "")
    ensures h.response.status == 400 ==> h.response == ErrorResponse(400, "Query is required") && h.call.None?
    ensures h.call.Some? <==> body.Ok? && body.value.query.Some? && body.value.query.value != ""
                              && QueryLimit(body.value.limit).Some?
    ensures h.call.Some? ==>
      var req := body.value;
      var limit := QueryLimit(req.limit).value;
      var ideas := FindSimilarIdeas(req.query.value, req.projectId, limit, embed, search);
      && h.call.value == SearchCall(req.query.value, req.projectId, limit)
      && h.response == Response(200, map["ideas" := IdeasJson(ideas), "success" := JBool(true)])
    ensures body.Ok? && body.value.query.Some? && body.value.query.value != "" && QueryLimit(body.value.limit).None? ==>
      h.response == Response(200, map["ideas" := JArr([]), "success" := JBool(true)])
    ensures body.Failed? ==>
      h.response == Response(200, map["ideas" := JArr([]), "success" := JBool(false),
                                      "error" := JStr("Search temporarily unavailable")])
  {
    match body
    case Failed =>
      SearchHandled(Response(200, map["ideas" := JArr([]), "success" := JBool(false),
                                      "error" := JStr("Search temporarily unavailable")]), None)
    case Ok(req) =>
      if req.query.None? || req.query.value == "" then SearchHandled(ErrorResponse(400, "Query is required"), None)
      else
        match QueryLimit(req.limit)
        case None => SearchHandled(Response(200, map["ideas" := JArr([]), "success" := JBool(true)]), None)
        case Some(limit) =>
          var ideas := FindSimilarIdeas(req.query.value, req.projectId, limit, embed, search);
          SearchHandled(Response(200, map["ideas" := IdeasJson(ideas), "success" := JBool(true)]),
                        Some(SearchCall(req.query.value, req.projectId, limit)))
  }

  /** A search without a limit returns at most five ideas, and one with a
      limit at most that many. */
  lemma SearchRouteBounded(records: map<string, VectorRecord>, body: Remote<SearchRequest>, embed: Embedder, search: QueryService)
    requires Serves(records, search)
    ensures var h := Post(body, embed, search);
      h.call.Some? ==>
        && "ideas" in h.response.body && h.response.body["ideas"].JArr?
        && |h.response.body["ideas"].items| <= (if h.call.value.limit < 0 then 0 else h.call.value.limit)
        && (body.value.limit.None? ==> |h.response.body["ideas"].items| <= 5)
  {
    var h := Post(body, embed, search);
    if h.call.Some? {
      var c := h.call.value;
      FindSimilarIdeasBounded(records, c.query, c.projectId, c.limit, embed, search);
      assert h.response.body["ideas"] == IdeasJson(FindSimilarIdeas(c.query, c.projectId, c.limit, embed, search));
    }
  }
}
