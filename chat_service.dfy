/** `lib/api/chat.ts`: `sendMessage`, the fixed sequence of message-store
    writes, memory search, reply generation and memory write; the reply
    prompt and its fallback; and the keyword classifier that proposes
    canvas objects from the user's message. */
module ChatService {

  import opened Common
  import opened Text
  import opened Pinecone
  import opened MemoryStore

  // ---------------------------------------------------------------------
  // Reply generation (`generateAIResponse`)
  // ---------------------------------------------------------------------

  /** The system prompt before the retrieved context, whitespace included. */
  const PromptHead: string :=
    "Ты AI-кофаундер, помогающий предпринимателям развивать их идеи. \n  \n  Контекст из предыдущих разговоров:\n  "

  /** The system prompt after the retrieved context. */
  const PromptTail: string :=
    "\n  \n  Отвечай на русском языке, будь дружелюбным и конструктивным. \n  Помогай структурировать идеи и давай практические советы."

  /** The text a memory hit's `content` contributes to `join`: `undefined`
      becomes empty, any other value its element text. */
  function ContentText(v: Option<Json>): string {
    match v
    case None => ""
    case Some(j) => ElementText(j)
  }

  /** `context.map(c => c.content)`, as the texts `join` sees. */
  function ContextTexts(hits: seq<MemoryHit>): (texts: seq<string>)
    ensures |texts| == |hits|
    ensures forall i :: 0 <= i < |hits| ==> texts[i] == ContentText(hits[i].content)
  {
    seq(|hits|, i requires 0 <= i < |hits| => ContentText(hits[i].content))
  }

  /** The system prompt: the retrieved contents joined by newlines, in
      retrieval order, between the fixed head and tail. */
  function SystemPrompt(hits: seq<MemoryHit>): string {
    PromptHead + Join(ContextTexts(hits), "\n") + PromptTail
  }

  /** The fixed parts frame the prompt, and when no retrieved content holds a
      newline, splitting the middle on newlines gives the contents back in
      order: the prompt loses nothing and reorders nothing. */
  lemma SystemPromptCarriesContext(hits: seq<MemoryHit>)
    ensures var p := SystemPrompt(hits);
      && |PromptHead| + |PromptTail| <= |p|
      && p[..|PromptHead|] == PromptHead
      && p[|p| - |PromptTail|..] == PromptTail
    ensures var p := SystemPrompt(hits);
      var texts := ContextTexts(hits);
      |hits| >= 1 && (forall i :: 0 <= i < |texts| ==> '\n' !in texts[i]) ==>
        Split(p[|PromptHead|..|p| - |PromptTail|], '\n') == texts
  {
    var p := SystemPrompt(hits);
    var texts := ContextTexts(hits);
    var middle := Join(texts, "\n");
    assert p[|PromptHead|..|p| - |PromptTail|] == middle;
    if |hits| >= 1 && (forall i :: 0 <= i < |texts| ==> '\n' !in texts[i]) {
      SplitJoin(texts, '\n');
    }
  }

  /** The reply used when the model's first choice has no content. */
  const ReplyFallback: string := "Извините, произошла ошибка."

  /** The request `generateAIResponse` sends: gpt-4, the system prompt, then the
      user's message, at most 500 tokens, temperature 0.7. */
  function GenerationRequest(userMessage: string, hits: seq<MemoryHit>): (req: CompletionRequest)
    ensures req.model == "gpt-4" && req.maxTokens == 500 && req.temperature == 0.7
    ensures |req.messages| == 2
    ensures req.messages[0] == ChatMessage("system", Some(SystemPrompt(hits)))
    ensures req.messages[1] == ChatMessage("user", Some(userMessage))
  {
    CompletionRequest("gpt-4",
      [ChatMessage("system", Some(SystemPrompt(hits))), ChatMessage("user", Some(userMessage))],
      500, 0.7)
  }

  /** `response.choices[0].message.content || fallback`: an answer with no
      choices throws; an empty or `null` content becomes the fallback. */
  function ReplyText(choices: seq<Option<string>>): (r: Remote<string>)
    ensures r.Failed? <==> choices == []
    ensures r.Ok? ==> r.value != ""
    ensures choices != [] && choices[0].Some? && choices[0].value != "" ==> r == Ok(choices[0].value)
    ensures choices != [] && (choices[0].None? || choices[0].value == "") ==> r == Ok(ReplyFallback)
  {
    if choices == [] then Failed
    else if choices[0].Some? && choices[0].value != "" then Ok(choices[0].value)
    else Ok(ReplyFallback)
  }

  /** `generateAIResponse(userMessage, context)`: the reply text, or a thrown
      error when the service fails or answers with no choice. */
  function GenerateAIResponse(userMessage: string, hits: seq<MemoryHit>, complete: Completer): (r: Remote<string>)
    ensures r.Ok? ==> r.value != ""
    ensures complete(GenerationRequest(userMessage, hits)).Failed? ==> r.Failed?
    ensures complete(GenerationRequest(userMessage, hits)).Ok? ==>
      r == ReplyText(complete(GenerationRequest(userMessage, hits)).value)
  {
    match complete(GenerationRequest(userMessage, hits))
    case Failed => Failed
    case Ok(choices) => ReplyText(choices)
  }

  // ---------------------------------------------------------------------
  // Canvas objects (`analyzeForCanvasObjects`)
  // ---------------------------------------------------------------------

  datatype CanvasKind = Problem | Insight | Persona | Solution

  /** The `type` string of an object of this kind. */
  function KindName(k: CanvasKind): string {
    match k
    case Problem => "problem"
    case Insight => "insight"
    case Persona => "persona"
    case Solution => "solution"
  }

  /** The position of the kind's test in the classifier. */
  function Rank(k: CanvasKind): nat {
    match k
    case Problem => 0
    case Insight => 1
    case Persona => 2
    case Solution => 3
  }

  /** The two words whose presence proposes an object of this kind. */
  function Keywords(k: CanvasKind): (string, string) {
    match k
    case Problem => ("проблема", "проблемы")
    case Insight => ("идея", "идеи")
    case Persona => ("пользователь", "аудитория")
    case Solution => ("решение", "продукт")
  }

  /** The lower-cased message contains one of the kind's words. */
  predicate Triggers(msg: string, k: CanvasKind) {
    Contains(Lower(msg), Keywords(k).0) || Contains(Lower(msg), Keywords(k).1)
  }

  function KindIf(msg: string, k: CanvasKind): seq<CanvasKind> {
    if Triggers(msg, k) then [k] else []
  }

  /** The kinds the message proposes: each kind at most once, exactly when the
      message triggers it, in the order problem, insight, persona, solution. */
  function TriggeredKinds(msg: string): (ks: seq<CanvasKind>)
    ensures |ks| <= 4
    ensures forall i, j :: 0 <= i < j < |ks| ==> Rank(ks[i]) < Rank(ks[j])
    ensures forall k :: k in ks <==> Triggers(msg, k)
  {
    KindIf(msg, Problem) + KindIf(msg, Insight) + KindIf(msg, Persona) + KindIf(msg, Solution)
  }

  /** A proposed canvas object: `{type, content, x, y}`. */
  datatype CanvasObject = CanvasObject(kind: CanvasKind, content: string, x: real, y: real)

  /** `userMessage.substring(0, 50) + '...'`. */
  function Snippet(msg: string): string {
    Take(msg, 50) + "..."
  }

  /** The `i`-th pushed object: `random(n)` is the value of the `n`-th call of
      `Math.random()` in this call, x drawn before y. */
  function Placed(k: CanvasKind, msg: string, random: nat -> real, i: nat): CanvasObject {
    CanvasObject(k, Snippet(msg), random(2 * i) * 300.0 + 50.0, random(2 * i + 1) * 200.0 + 50.0)
  }

  /** One object per kind of `ks`, the `i`-th placed with the `i`-th pair of
      random values. */
  function PlacedAll(ks: seq<CanvasKind>, msg: string, random: nat -> real): (objs: seq<CanvasObject>)
    ensures |objs| == |ks|
    ensures forall i :: 0 <= i < |ks| ==> objs[i] == Placed(ks[i], msg, random, i)
  {
    seq(|ks|, i requires 0 <= i < |ks| => Placed(ks[i], msg, random, i))
  }

  /** Placing one more kind appends one object after the others. */
  lemma PlaceNext(ks: seq<CanvasKind>, k: CanvasKind, msg: string, random: nat -> real)
    ensures PlacedAll(ks + [k], msg, random) == PlacedAll(ks, msg, random) + [Placed(k, msg, random, |ks|)]
  {
    assert (ks + [k])[|ks|] == k;
  }

  /** The objects `analyzeForCanvasObjects` proposes for the message. */
  function CanvasObjects(msg: string, random: nat -> real): seq<CanvasObject> {
    PlacedAll(TriggeredKinds(msg), msg, random)
  }

  /** `analyzeForCanvasObjects(userMessage, aiResponse)`: four tests in a fixed
      order, each pushing one object; the reply is not consulted. */
  method AnalyzeForCanvasObjects(userMessage: string, aiResponse: string, random: nat -> real)
    returns (objs: seq<CanvasObject>)
    ensures objs == CanvasObjects(userMessage, random)
  {
    objs := [];
    ghost var ks: seq<CanvasKind> := [];
    if Triggers(userMessage, Problem) {
      PlaceNext(ks, Problem, userMessage, random);
      objs, ks := objs + [Placed(Problem, userMessage, random, |objs|)], ks + [Problem];
    }
    assert objs == PlacedAll(ks, userMessage, random) && ks == KindIf(userMessage, Problem);
    if Triggers(userMessage, Insight) {
      PlaceNext(ks, Insight, userMessage, random);
      objs, ks := objs + [Placed(Insight, userMessage, random, |objs|)], ks + [Insight];
    }
    assert objs == PlacedAll(ks, userMessage, random);
    assert ks == KindIf(userMessage, Problem) + KindIf(userMessage, Insight);
    if Triggers(userMessage, Persona) {
      PlaceNext(ks, Persona, userMessage, random);
      objs, ks := objs + [Placed(Persona, userMessage, random, |objs|)], ks + [Persona];
    }
    assert objs == PlacedAll(ks, userMessage, random);
    assert ks == KindIf(userMessage, Problem) + KindIf(userMessage, Insight) + KindIf(userMessage, Persona);
    if Triggers(userMessage, Solution) {
      PlaceNext(ks, Solution, userMessage, random);
      objs, ks := objs + [Placed(Solution, userMessage, random, |objs|)], ks + [Solution];
    }
    assert ks == TriggeredKinds(userMessage);
  }

  /** At most four objects, at most one per kind, in the classifier's order,
      and a kind appears exactly when the message triggers it. */
  lemma CanvasObjectsClassified(msg: string, random: nat -> real)
    ensures var objs := CanvasObjects(msg, random);
      && |objs| <= 4
      && (forall i, j :: 0 <= i < j < |objs| ==> Rank(objs[i].kind) < Rank(objs[j].kind))
      && (forall k :: Triggers(msg, k) <==> exists i :: 0 <= i < |objs| && objs[i].kind == k)
  {
    var objs := CanvasObjects(msg, random);
    var ks := TriggeredKinds(msg);
    forall k
      ensures Triggers(msg, k) <==> exists i :: 0 <= i < |objs| && objs[i].kind == k
    {
      if Triggers(msg, k) {
        var i :| 0 <= i < |ks| && ks[i] == k;
        assert objs[i].kind == k;
      }
    }
  }

  /** Every object carries the first 50 characters of the message as written
      (not lower-cased), followed by three dots, even when the message is
      shorter than 50. */
  lemma CanvasObjectsContent(msg: string, random: nat -> real)
    ensures forall o :: o in CanvasObjects(msg, random) ==>
      && |o.content| == (if |msg| < 50 then |msg| else 50) + 3
      && StartsWith(msg, o.content[..|o.content| - 3])
      && o.content[|o.content| - 3..] == "..."
  {
  }

  /** With `Math.random()` in [0, 1), every object lies in the area
      50 <= x < 350, 50 <= y < 250. */
  lemma CanvasObjectsInArea(msg: string, random: nat -> real)
    requires forall n :: 0.0 <= random(n) < 1.0
    ensures forall o :: o in CanvasObjects(msg, random) ==>
      50.0 <= o.x < 350.0 && 50.0 <= o.y < 250.0
  {
    var objs := CanvasObjects(msg, random);
    forall o | o in objs
      ensures 50.0 <= o.x < 350.0 && 50.0 <= o.y < 250.0
    {
      var i :| 0 <= i < |objs| && objs[i] == o;
      assert 0.0 <= random(2 * i) < 1.0 && 0.0 <= random(2 * i + 1) < 1.0;
    }
  }

  /** The classifier ignores case: a message and its lower-cased form propose
      the same kinds. */
  lemma TriggeredKindsIgnoreCase(msg: string)
    ensures TriggeredKinds(Lower(msg)) == TriggeredKinds(msg)
  {
    LowerIdempotent(msg);
  }

  // ---------------------------------------------------------------------
  // The conversation (`sendMessage`)
  // ---------------------------------------------------------------------

  /** A row of the message table. */
  datatype StoredMessage = StoredMessage(projectId: string, content: string, role: string)

  /** The message table behind `saveMessage`. The database may refuse any
      particular write: `outages` holds the numbers of the writes it refuses,
      counted from 0 by `writes`. */
  class MessageTable {
    var rows: seq<StoredMessage>
    var writes: nat
    const outages: set<nat>

    constructor (rows: seq<StoredMessage>, outages: set<nat>)
      ensures this.rows == rows && writes == 0 && this.outages == outages
    {
      this.rows := rows;
      writes := 0;
      this.outages := outages;
    }

    /** `saveMessage(data)`: appends the row, or throws when the database
        refuses the write. */
    method Save(m: StoredMessage) returns (ok: bool)
      modifies this`rows, this`writes
      ensures writes == old(writes) + 1
      ensures ok == (old(writes) !in outages)
      ensures rows == if ok then old(rows) + [m] else old(rows)
    {
      ok := writes !in outages;
      if ok {
        rows := rows + [m];
      }
      writes := writes + 1;
    }
  }

  /** The error `sendMessage` throws whatever went wrong. */
  const SendFailure: string := "Failed to send message"

  /** What `sendMessage` produced: `{success: true, message, canvasObjects}` or
      a thrown error. */
  datatype SendOutcome = Sent(message: string, canvasObjects: seq<CanvasObject>) | Thrown(error: string)

  /** A memory hit as a JSON value, with its `undefined` fields left out. */
  function HitJson(h: MemoryHit): (j: Json)
    ensures j.JObj? && j.fields.Keys <= {"content", "score", "metadata"}
    ensures ("content" in j.fields <==> h.content.Some?) && (h.content.Some? ==> j.fields["content"] == h.content.value)
    ensures ("score" in j.fields <==> h.score.Some?) && (h.score.Some? ==> j.fields["score"] == JNum(h.score.value))
    ensures ("metadata" in j.fields <==> h.metadata.Some?) && (h.metadata.Some? ==> j.fields["metadata"] == JObj(h.metadata.value))
  {
    JObj(Field("content", h.content)
      + Field("score", if h.score.Some? then Some(JNum(h.score.value)) else None)
      + Field("metadata", if h.metadata.Some? then Some(JObj(h.metadata.value)) else None))
  }

  /** The metadata the reply is remembered with: `{type: 'ai_response', context}`. */
  function ReplyMetadata(hits: seq<MemoryHit>): (m: Obj)
    ensures m.Keys == {"type", "context"}
    ensures m["type"] == JStr("ai_response")
    ensures m["context"].JArr? && |m["context"].items| == |hits|
    ensures forall i :: 0 <= i < |hits| ==> m["context"].items[i] == HitJson(hits[i])
  {
    map["type" := JStr("ai_response"),
        "context" := JArr(seq(|hits|, i requires 0 <= i < |hits| => HitJson(hits[i])))]
  }

  /** The services `sendMessage` depends on: the embedding and query services
      of the memory, the completion service, and `Math.random`. */
  datatype Services = Services(embed: Embedder, search: QueryService, complete: Completer, random: nat -> real)

  /** What `sendMessage` reads and writes: the message table's rows, how many
      writes it has received and which of them it refuses, and the memory
      index's records, whether it is reachable and its dimension. */
  datatype Stores = Stores(rows: seq<StoredMessage>, writes: nat, outages: set<nat>,
                           records: map<string, VectorRecord>, online: bool, dimension: nat)

  /** What a call returns, with the stores it leaves. */
  datatype Effect = Effect(outcome: SendOutcome, after: Stores)

  /** Whether the table takes the next write. */
  predicate TakesWrite(s: Stores) {
    s.writes !in s.outages
  }

  /** `saveMessage` on the stores: the row is appended when the table takes
      the write, and the write is counted either way. */
  function SaveRow(s: Stores, m: StoredMessage): Stores {
    if TakesWrite(s) then s.(rows := s.rows + [m], writes := s.writes + 1)
    else s.(writes := s.writes + 1)
  }

  /** The record the reply is remembered as. */
  function ReplyRecord(projectId: string, reply: string, hits: seq<MemoryHit>, sv: Services, timestamp: string): VectorRecord {
    MemoryRecord(projectId, reply, ReplyMetadata(hits), sv.embed, timestamp)
  }

  /** `saveToVectorDB` on the stores. */
  function Remember(s: Stores, projectId: string, now: nat, rec: VectorRecord): Stores {
    s.(records := AfterSave(s.records, s.online && Storable(rec, s.dimension), projectId, now, rec))
  }

  /** The end of `sendMessage`, once the reply exists: the reply is saved,
      remembered with the hits it drew on, and the canvas objects proposed. */
  function StoreReplyEffect(content: string, projectId: string, hits: seq<MemoryHit>, reply: string,
                            sv: Services, now: nat, timestamp: string, s: Stores): Effect
  {
    if !TakesWrite(s) then Effect(Thrown(SendFailure), SaveRow(s, StoredMessage(projectId, reply, "assistant")))
    else Effect(Sent(reply, CanvasObjects(content, sv.random)),
                Remember(SaveRow(s, StoredMessage(projectId, reply, "assistant")), projectId, now,
                         ReplyRecord(projectId, reply, hits, sv, timestamp)))
  }

  /** The memory `sendMessage` retrieves for the user's message: the default
      five best matches within the project. */
  function RecalledFor(content: string, projectId: string, sv: Services): seq<MemoryHit> {
    SearchHits(projectId, content, DefaultTopK, sv.embed, sv.search)
  }

  /** The reply `sendMessage` generates from the message and that memory. */
  function ReplyFor(content: string, projectId: string, sv: Services): Remote<string> {
    GenerateAIResponse(content, RecalledFor(content, projectId, sv), sv.complete)
  }

  /** `sendMessage` after the user's message is saved: the memory is searched
      with the message, the reply generated from both, and stored. */
  function RespondEffect(content: string, projectId: string, sv: Services, now: nat, timestamp: string,
                         s: Stores): Effect
  {
    var reply := ReplyFor(content, projectId, sv);
    if reply.Failed? then Effect(Thrown(SendFailure), s)
    else StoreReplyEffect(content, projectId, RecalledFor(content, projectId, sv), reply.value, sv, now, timestamp, s)
  }

  /** `sendMessage({content, projectId})`: what it returns and the stores it
      leaves. The first failure ends the call with `SendFailure`. */
  function SendEffect(content: string, projectId: string, sv: Services, now: nat, timestamp: string,
                      s: Stores): Effect
  {
    if !TakesWrite(s) then Effect(Thrown(SendFailure), SaveRow(s, StoredMessage(projectId, content, "user")))
    else RespondEffect(content, projectId, sv, now, timestamp, SaveRow(s, StoredMessage(projectId, content, "user")))
  }

  /** The end of `sendMessage` succeeds exactly when the table takes the
      reply; a refusal changes nothing but the write count, a success appends
      the reply and remembers it. */
  lemma StoreReplyFacts(content: string, projectId: string, hits: seq<MemoryHit>, reply: string,
                        sv: Services, now: nat, timestamp: string, s: Stores)
    ensures var e := StoreReplyEffect(content, projectId, hits, reply, sv, now, timestamp, s);
      && (e.outcome.Sent? <==> TakesWrite(s))
      && e.after.writes == s.writes + 1
      && e.after.outages == s.outages && e.after.online == s.online && e.after.dimension == s.dimension
      && (e.outcome.Thrown? ==> e.outcome.error == SendFailure && e.after.rows == s.rows && e.after.records == s.records)
      && (e.outcome.Sent? ==>
            && e.outcome == Sent(reply, CanvasObjects(content, sv.random))
            && e.after.rows == s.rows + [StoredMessage(projectId, reply, "assistant")]
            && e.after.records == Remember(s, projectId, now, ReplyRecord(projectId, reply, hits, sv, timestamp)).records)
  {
  }

  /** A call stops at the first failure: it succeeds exactly when the table
      takes both writes and the model answers, it returns the reply and the
      objects proposed from the user's message, every failure is reported as
      `SendFailure`, and the configuration of the stores never changes. */
  lemma SendSucceedsIffNothingFails(content: string, projectId: string, sv: Services, now: nat,
                                    timestamp: string, s: Stores)
    ensures var e := SendEffect(content, projectId, sv, now, timestamp, s);
      var reply := ReplyFor(content, projectId, sv);
      && (e.outcome.Sent? <==> s.writes !in s.outages && reply.Ok? && s.writes + 1 !in s.outages)
      && (e.outcome.Thrown? ==> e.outcome.error == SendFailure)
      && (e.outcome.Sent? ==> e.outcome == Sent(reply.value, CanvasObjects(content, sv.random)))
      && e.after.outages == s.outages && e.after.online == s.online && e.after.dimension == s.dimension
  {
    var e := SendEffect(content, projectId, sv, now, timestamp, s);
    var s1 := SaveRow(s, StoredMessage(projectId, content, "user"));
    var reply := ReplyFor(content, projectId, sv);
    if !TakesWrite(s) {
      assert e == Effect(Thrown(SendFailure), s1);
    } else if reply.Failed? {
      assert e == Effect(Thrown(SendFailure), s1);
    } else {
      var hits := RecalledFor(content, projectId, sv);
      assert e == StoreReplyEffect(content, projectId, hits, reply.value, sv, now, timestamp, s1);
      StoreReplyFacts(content, projectId, hits, reply.value, sv, now, timestamp, s1);
    }
  }

  /** The table receives the user's message first and the reply second, and
      nothing else: a refused first write or a missing reply stops the call
      after one write, and a success leaves exactly both rows appended. */
  lemma SendStoresMessagesInOrder(content: string, projectId: string, sv: Services, now: nat,
                                  timestamp: string, s: Stores)
    ensures var e := SendEffect(content, projectId, sv, now, timestamp, s);
      var user := StoredMessage(projectId, content, "user");
      && (!TakesWrite(s) ==> e.after.rows == s.rows && e.after.writes == s.writes + 1)
      && (TakesWrite(s) && ReplyFor(content, projectId, sv).Failed? ==>
            e.after.rows == s.rows + [user] && e.after.writes == s.writes + 1)
      && (TakesWrite(s) && ReplyFor(content, projectId, sv).Ok? ==> e.after.writes == s.writes + 2)
      && (e.outcome.Thrown? && TakesWrite(s) ==> e.after.rows == s.rows + [user])
      && (e.outcome.Sent? ==>
            e.after.rows == s.rows + [user] + [StoredMessage(projectId, e.outcome.message, "assistant")])
  {
    var e := SendEffect(content, projectId, sv, now, timestamp, s);
    var s1 := SaveRow(s, StoredMessage(projectId, content, "user"));
    var reply := ReplyFor(content, projectId, sv);
    if !TakesWrite(s) {
      assert e == Effect(Thrown(SendFailure), s1);
    } else if reply.Failed? {
      assert e == Effect(Thrown(SendFailure), s1);
    } else {
      var hits := RecalledFor(content, projectId, sv);
      assert e == StoreReplyEffect(content, projectId, hits, reply.value, sv, now, timestamp, s1);
      StoreReplyFacts(content, projectId, hits, reply.value, sv, now, timestamp, s1);
    }
  }

  /** The memory changes only when the call succeeds, and then by one record
      under the id of the project and the moment: the reply as content, typed
      `ai_response`, with the project, the timestamp and one entry per hit of
      the memory the reply drew on. Those entries are objects, which the
      service refuses as metadata, so a reply that drew on any memory is never
      remembered: the refusal is swallowed. */
  lemma SendRemembersOnlyReplies(content: string, projectId: string, sv: Services, now: nat,
                                 timestamp: string, s: Stores)
    ensures var e := SendEffect(content, projectId, sv, now, timestamp, s);
      && (e.outcome.Thrown? ==> e.after.records == s.records)
      && (e.outcome.Sent? ==>
            var hits := RecalledFor(content, projectId, sv);
            var rec := ReplyRecord(projectId, e.outcome.message, hits, sv, timestamp);
            && e.after.records == AfterSave(s.records, s.online && Storable(rec, s.dimension), projectId, now, rec)
            && rec.metadata["content"] == JStr(e.outcome.message)
            && rec.metadata["type"] == JStr("ai_response")
            && rec.metadata["projectId"] == JStr(projectId)
            && rec.metadata["timestamp"] == JStr(timestamp)
            && rec.metadata["context"].JArr? && |rec.metadata["context"].items| == |hits|
            && (forall i :: 0 <= i < |hits| ==> rec.metadata["context"].items[i] == HitJson(hits[i]))
            && (hits != [] ==> e.after.records == s.records))
  {
    var s1 := SaveRow(s, StoredMessage(projectId, content, "user"));
    var reply := ReplyFor(content, projectId, sv);
    if TakesWrite(s) && reply.Ok? {
      var hits := RecalledFor(content, projectId, sv);
      StoreReplyFacts(content, projectId, hits, reply.value, sv, now, timestamp, s1);
      ReplyRecordMetadata(projectId, reply.value, hits, sv, timestamp);
    }
  }

  /** The remembered reply's metadata: the reply as content, typed
      `ai_response`, with the project, the timestamp and one entry per hit.
      It is flat, and so storable, exactly when there are no hits. */
  lemma ReplyRecordMetadata(projectId: string, reply: string, hits: seq<MemoryHit>, sv: Services, timestamp: string)
    ensures var md := ReplyRecord(projectId, reply, hits, sv, timestamp).metadata;
      && md.Keys == {"projectId", "content", "timestamp", "type", "context"}
      && md["content"] == JStr(reply)
      && md["type"] == JStr("ai_response")
      && md["projectId"] == JStr(projectId)
      && md["timestamp"] == JStr(timestamp)
      && md["context"].JArr? && |md["context"].items| == |hits|
      && (forall i :: 0 <= i < |hits| ==> md["context"].items[i] == HitJson(hits[i]))
      && (FlatMetadata(md) <==> hits == [])
  {
    var md := ReplyMetadata(hits);
    assert "content" !in md && "projectId" !in md;
    var full := ReplyRecord(projectId, reply, hits, sv, timestamp).metadata;
    if hits != [] {
      assert !full["context"].items[0].JStr?;
    } else {
      assert full["context"] == JArr([]);
      assert forall k :: k in full ==> FlatValue(full[k]);
    }
  }

  /** The server side of a conversation: the message table and the memory module. */
  class ChatBackend {
    const messages: MessageTable
    const vectors: VectorModule

    ghost predicate Valid()
      reads this, vectors
    {
      vectors.Valid()
    }

    /** The stores as `sendMessage` sees them. */
    ghost function Snapshot(): Stores
      reads messages, vectors.memory
    {
      Stores(messages.rows, messages.writes, messages.outages,
             vectors.memory.records, vectors.memory.online, vectors.memory.dimension)
    }

    constructor (messages: MessageTable, vectors: VectorModule)
      requires vectors.Valid()
      ensures Valid()
      ensures this.messages == messages && this.vectors == vectors
    {
      this.messages := messages;
      this.vectors := vectors;
    }

    /** `sendMessage({content, projectId})`. */
    method SendMessage(content: string, projectId: string, apiKeyEnv: Option<string>, sv: Services,
                       now: nat, timestamp: string) returns (r: SendOutcome)
      requires Valid()
      modifies messages`rows, messages`writes, vectors`pinecone, vectors`constructions, vectors.memory`records
      ensures Valid() && vectors.ClientKept(apiKeyEnv)
      ensures Effect(r, Snapshot()) == SendEffect(content, projectId, sv, now, timestamp, old(Snapshot()))
    {
      var saved := messages.Save(StoredMessage(projectId, content, "user"));
      assert Snapshot() == SaveRow(old(Snapshot()), StoredMessage(projectId, content, "user"));
      if !saved {
        return Thrown(SendFailure);
      }
      r := Respond(content, projectId, apiKeyEnv, sv, now, timestamp);
    }

    /** `sendMessage` after the user's message is saved. */
    method Respond(content: string, projectId: string, apiKeyEnv: Option<string>, sv: Services,
                   now: nat, timestamp: string) returns (r: SendOutcome)
      requires Valid()
      modifies messages`rows, messages`writes, vectors`pinecone, vectors`constructions, vectors.memory`records
      ensures Valid() && vectors.ClientKept(apiKeyEnv)
      ensures Effect(r, Snapshot()) == RespondEffect(content, projectId, sv, now, timestamp, old(Snapshot()))
    {
      var hits := vectors.SearchVectorDB(projectId, content, DefaultTopK, apiKeyEnv, sv.embed, sv.search);
      var reply := GenerateAIResponse(content, hits, sv.complete);
      if reply.Failed? {
        return Thrown(SendFailure);
      }
      r := StoreReply(content, projectId, hits, reply.value, apiKeyEnv, sv, now, timestamp);
    }

    /** The end of `sendMessage`: the reply is saved, remembered, and the
        canvas objects proposed from the user's message. */
    method StoreReply(content: string, projectId: string, hits: seq<MemoryHit>, reply: string,
                      apiKeyEnv: Option<string>, sv: Services, now: nat, timestamp: string)
      returns (r: SendOutcome)
      requires Valid()
      modifies messages`rows, messages`writes, vectors`pinecone, vectors`constructions, vectors.memory`records
      ensures Valid() && vectors.ClientKept(apiKeyEnv)
      ensures Effect(r, Snapshot()) == StoreReplyEffect(content, projectId, hits, reply, sv, now, timestamp, old(Snapshot()))
    {
      var saved := messages.Save(StoredMessage(projectId, reply, "assistant"));
      assert Snapshot() == SaveRow(old(Snapshot()), StoredMessage(projectId, reply, "assistant"));
      if !saved {
        return Thrown(SendFailure);
      }
      vectors.SaveToVectorDB(projectId, reply, ReplyMetadata(hits), apiKeyEnv, sv.embed, now, timestamp);
      var canvasObjects := AnalyzeForCanvasObjects(content, reply, sv.random);
      r := Sent(reply, canvasObjects);
    }
  }
}
