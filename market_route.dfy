/** The `POST /api/market-analysis` handler: the choice between live market
    data and the fallback table, and the one memory write that records the
    analysis. */
module MarketRoute {

  import opened Common
  import opened Pinecone
  import opened MemoryStore
  import opened FallbackData

  /** The destructured body `{ idea, projectId }`. `idea` is `None` when it is
      not a string (then `getFallbackInsights` throws on `toLowerCase`). */
  datatype MarketRequest = MarketRequest(idea: Option<string>, projectId: string)

  /** `v.length` for a value that has properties: a list's or a string's
      length, an object's own `length` property; numbers and booleans have
      none (`undefined`). */
  function Length(v: Json): Option<Json> {
    match v
    case JArr(items) => Some(JNum(|items| as real))
    case JStr(s) => Some(JNum(|s| as real))
    case JObj(fields) => if "length" in fields then Some(fields["length"]) else None
    case _ => None
  }

  /** The live result passes `if (!insights || insights.problems.length === 0)`
      without throwing: it is truthy, it has a `problems` property that is
      neither `undefined` nor `null` (reading `.length` of those throws), and
      that property's `length` is not the number 0. */
  predicate UsesLive(live: Json) {
    && Truthy(Some(live))
    && match Prop(live, "problems")
       case None => false
       case Some(p) => p != JNull && Length(p) != Some(JNum(0.0))
  }

  /** The insights the handler goes on with: the live result exactly as the
      market sentiment service produced it when it names a problem, otherwise
      the fallback table's; `None` when the fallback throws. */
  function ChooseInsights(idea: Option<string>, live: Remote<Json>): (r: Option<Json>)
    ensures live.Ok? && UsesLive(live.value) ==> r == Some(live.value)
    ensures !(live.Ok? && UsesLive(live.value)) ==>
      r == if idea.Some? then Some(InsightsJson(GetFallbackInsights(idea.value))) else None
    ensures r.Some? ==> UsesLive(r.value)
  {
    if live.Ok? && UsesLive(live.value) then Some(live.value)
    else if idea.Some? then
      var ins := GetFallbackInsights(idea.value);
      assert Length(Strings(ins.problems)) == Some(JNum(4.0));
      Some(InsightsJson(ins))
    else None
  }

  /** A live result with a non-empty `problems` list is answered as it is:
      the response gains no `statistics` (or any other) property. */
  lemma LiveInsightsKeptAsIs(idea: Option<string>, fields: map<string, Json>)
    requires "problems" in fields && fields["problems"].JArr? && fields["problems"].items != []
    ensures ChooseInsights(idea, Ok(JObj(fields))) == Some(JObj(fields))
  {
    assert Length(fields["problems"]) != Some(JNum(0.0));
  }

  /** `null` (no tweets), a result without `problems` (parsing gave `{}`) or
      with an empty `problems` list all fall back to the table. */
  lemma EmptyLiveFallsBack(idea: string, live: Json)
    requires live == JNull || (live.JObj? && ("problems" !in live.fields || live.fields["problems"] == JArr([])))
    ensures ChooseInsights(Some(idea), Ok(live)) == Some(InsightsJson(GetFallbackInsights(idea)))
  {
  }

  function Strings(xs: seq<string>): (j: Json)
    ensures j.JArr? && |j.items| == |xs|
    ensures forall i :: 0 <= i < |xs| ==> j.items[i] == JStr(xs[i])
  {
    JArr(seq(|xs|, i requires 0 <= i < |xs| => JStr(xs[i])))
  }

  /** The fallback insights object as it is serialised into the response. */
  function InsightsJson(ins: Insights): Json {
    JObj(map[
      "summary" := JStr(ins.summary),
      "problems" := Strings(ins.problems),
      "userQuotes" := Strings(ins.userQuotes),
      "statistics" := JObj(map["marketSize" := JStr(ins.statistics.marketSize),
                               "growth" := JStr(ins.statistics.growth),
                               "demographics" := JStr(ins.statistics.demographics)]),
      "sentiment" := JStr(ins.sentiment),
      "confidence" := JNum(ins.confidence),
      "source" := JStr(ins.source)])
  }

  /** `insights.summary` as the text remembered; a summary that is not a
      string is remembered as the empty text. */
  function SummaryText(ins: Json): string {
    match Prop(ins, "summary")
    case Some(JStr(s)) => s
    case _ => ""
  }

  /** The metadata passed to `saveToVectorDB`: `problems` and `source` are
      copied as they are, and left out when `undefined`. */
  function AnalysisMetadata(ins: Json): Obj {
    map["type" := JStr("market_analysis")] + Field("problems", Prop(ins, "problems")) + Field("source", Prop(ins, "source"))
  }

  /** The record the analysis is remembered as. */
  function AnalysisRecord(projectId: string, ins: Json, embed: Embedder, timestamp: string): VectorRecord {
    MemoryRecord(projectId, SummaryText(ins), AnalysisMetadata(ins), embed, timestamp)
  }

  /** The metadata `saveToVectorDB` is given: the type, and `problems` and
      `source` exactly when defined; it is flat iff those two are. */
  lemma AnalysisMetadataFacts(ins: Json)
    ensures var meta := AnalysisMetadata(ins);
      && meta.Keys == {"type"} + Field("problems", Prop(ins, "problems")).Keys + Field("source", Prop(ins, "source")).Keys
      && meta["type"] == JStr("market_analysis")
      && (Prop(ins, "problems").Some? ==> meta["problems"] == Prop(ins, "problems").value)
      && (Prop(ins, "source").Some? ==> meta["source"] == Prop(ins, "source").value)
      && "content" !in meta && "projectId" !in meta && "timestamp" !in meta
      && (FlatMetadata(meta) <==> FlatField(Prop(ins, "problems")) && FlatField(Prop(ins, "source")))
  {
    var kinds := map["type" := JStr("market_analysis")];
    var problems := Field("problems", Prop(ins, "problems"));
    var source := Field("source", Prop(ins, "source"));
    FlatSpread(Spread(kinds, problems), source);
    FlatSpread(kinds, problems);
    FlatFieldOf("problems", Prop(ins, "problems"));
    FlatFieldOf("source", Prop(ins, "source"));
  }

  /** The remembered analysis carries the summary as its content, the project,
      the type `market_analysis`, the problems and the source when defined,
      and the timestamp; the service stores it exactly when the problems and
      the source it copies are flat. */
  lemma AnalysisRecordMetadata(projectId: string, ins: Json, embed: Embedder, timestamp: string)
    ensures var md := AnalysisRecord(projectId, ins, embed, timestamp).metadata;
      var meta := AnalysisMetadata(ins);
      && md.Keys == {"projectId", "content", "timestamp"} + meta.Keys
      && md["content"] == JStr(SummaryText(ins)) && md["projectId"] == JStr(projectId)
      && md["timestamp"] == JStr(timestamp)
      && (forall k :: k in meta ==> md[k] == meta[k])
      && (FlatMetadata(md) <==> FlatField(Prop(ins, "problems")) && FlatField(Prop(ins, "source")))
  {
    var meta := AnalysisMetadata(ins);
    AnalysisMetadataFacts(ins);
    var md := MemoryMetadata(projectId, SummaryText(ins), meta, timestamp);
    FlatExtension(md, meta);
  }

  /** An object that extends `meta` with string values only is flat iff
      `meta` is. */
  lemma FlatExtension(md: Obj, meta: Obj)
    requires meta.Keys <= md.Keys
    requires forall k :: k in meta ==> md[k] == meta[k]
    requires forall k :: k in md && k !in meta ==> md[k].JStr?
    ensures FlatMetadata(md) <==> FlatMetadata(meta)
  {
  }

  /** A property that is `undefined` or flat. */
  predicate FlatField(v: Option<Json>) {
    v.Some? ==> FlatValue(v.value)
  }

  lemma FlatFieldOf(k: string, v: Option<Json>)
    ensures FlatMetadata(Field(k, v)) <==> FlatField(v)
  {
  }

  /** `{...a, ...b}` is flat iff `b` is and so is every value of `a` that `b`
      does not override. */
  lemma FlatSpread(a: Obj, b: Obj)
    ensures FlatMetadata(Spread(a, b)) <==> FlatMetadata(b) && forall k :: k in a && k !in b ==> FlatValue(a[k])
  {
    var r := Spread(a, b);
    if FlatMetadata(b) && forall k :: k in a && k !in b ==> FlatValue(a[k]) {
      forall k | k in r
        ensures FlatValue(r[k])
      {
        if k !in b {
          assert k in a;
        }
      }
    }
  }

  /** The fallback analysis is always stored: its summary is remembered, and
      its problems (a list of strings) and source are flat. */
  lemma FallbackRecordIsFlat(projectId: string, idea: string, embed: Embedder, timestamp: string)
    ensures var ins := GetFallbackInsights(idea);
      var rec := AnalysisRecord(projectId, InsightsJson(ins), embed, timestamp);
      && rec.metadata["content"] == JStr(ins.summary)
      && rec.metadata["problems"] == Strings(ins.problems)
      && rec.metadata["source"] == JStr(ins.source)
      && FlatMetadata(rec.metadata)
  {
    var ins := GetFallbackInsights(idea);
    var j := InsightsJson(ins);
    assert Prop(j, "summary") == Some(JStr(ins.summary));
    assert Prop(j, "problems") == Some(Strings(ins.problems));
    assert Prop(j, "source") == Some(JStr(ins.source));
    AnalysisRecordMetadata(projectId, j, embed, timestamp);
  }

  /** The successful answer: the insights as chosen, unchanged. */
  function Analysed(ins: Json): Response {
    Response(200, map["success" := JBool(true), "insights" := ins, "canvasObjectCreated" := JBool(true)])
  }

  /** `POST(request)`. `body` is the result of `request.json()` (`Failed` when
      it throws); `live` is what the market sentiment service produced for the
      idea: the parsed model output (any JSON value, `null` when no tweets
      were found), or a thrown error. */
  method Post(vectors: VectorModule, body: Remote<MarketRequest>, live: Remote<Json>,
              apiKeyEnv: Option<string>, embed: Embedder, now: nat, timestamp: string) returns (r: Response)
    requires vectors.Valid()
    modifies vectors`pinecone, vectors`constructions, vectors.memory`records
    ensures vectors.Valid() && vectors.ClientKept(apiKeyEnv)
    ensures r.status in {200, 500}
    ensures r.status == 500 <==> body.Failed? || ChooseInsights(body.value.idea, live).None?
    ensures r.status == 500 ==>
      r == ErrorResponse(500, "Failed to analyze market") && vectors.memory.records == old(vectors.memory.records)
    ensures r.status == 200 ==>
      var ins := ChooseInsights(body.value.idea, live).value;
      var rec := AnalysisRecord(body.value.projectId, ins, embed, timestamp);
      && r == Analysed(ins)
      && vectors.memory.records == AfterSave(old(vectors.memory.records),
           vectors.memory.online && Storable(rec, vectors.memory.dimension), body.value.projectId, now, rec)
  {
    if body.Failed? {
      return ErrorResponse(500, "Failed to analyze market");
    }
    var insights := ChooseInsights(body.value.idea, live);
    if insights.None? {
      return ErrorResponse(500, "Failed to analyze market");
    }
    var ins := insights.value;
    vectors.SaveToVectorDB(body.value.projectId, SummaryText(ins), AnalysisMetadata(ins), apiKeyEnv, embed, now, timestamp);
    r := Analysed(ins);
  }
}
