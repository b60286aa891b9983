/** The conversation memory of `lib/vector.ts`: a lazily created client, writes
    of remembered texts into the index 'ai-cofounder-memory', searches scoped
    to one project, the zero-vector embedding fallback and index creation. */
module MemoryStore {

  import opened Common
  import opened Text
  import opened Pinecone

  const MemoryIndexName: string := "ai-cofounder-memory"
  const EmbeddingDimension: nat := 1536
  const MemoryIndexSpec: IndexSpec := IndexSpec(1536, "cosine", "aws", "us-east-1")
  const DefaultTopK: int := 5

  /** `new Array(1536).fill(0)`. */
  function ZeroVector(): (v: Vector)
    ensures |v| == EmbeddingDimension
    ensures forall i :: 0 <= i < |v| ==> v[i] == 0.0
  {
    seq(EmbeddingDimension, _ => 0.0)
  }

  /** `generateEmbedding(text)`: the service's vector, or 1536 zeros when the
      service fails; it never throws. */
  function GenerateEmbedding(text: string, embed: Embedder): (v: Vector)
    ensures embed(text).Ok? ==> v == embed(text).value
    ensures embed(text).Failed? ==> |v| == EmbeddingDimension && forall i :: 0 <= i < |v| ==> v[i] == 0.0
  {
    match embed(text)
    case Ok(values) => values
    case Failed => ZeroVector()
  }

  /** The id `${projectId}-${Date.now()}`. */
  function MemoryId(projectId: string, now: nat): string {
    projectId + "-" + NatToString(now)
  }

  /** The id determines the project and the millisecond: two writes collide
      exactly when both agree, whatever dashes the projectId holds. */
  lemma MemoryIdInjective(p1: string, t1: nat, p2: string, t2: nat)
    requires MemoryId(p1, t1) == MemoryId(p2, t2)
    ensures p1 == p2 && t1 == t2
  {
    var d1, d2 := NatToString(t1), NatToString(t2);
    DigitsHaveNoDash(d1);
    DigitsHaveNoDash(d2);
    SplitAtLastDash(p1, d1, p2, d2);
    NatToStringInjective(t1, t2);
  }

  lemma DigitsHaveNoDash(d: string)
    requires forall i :: 0 <= i < |d| ==> '0' <= d[i] <= '9'
    ensures '-' !in d
  {
  }

  /** A dash-free tail after the last dash is determined, and so is the head. */
  lemma SplitAtLastDash(p1: string, d1: string, p2: string, d2: string)
    requires '-' !in d1 && '-' !in d2
    requires p1 + "-" + d1 == p2 + "-" + d2
    ensures p1 == p2 && d1 == d2
  {
    var s := p1 + "-" + d1;
    LastIndexAfter(p1, '-', d1);
    LastIndexAfter(p2, '-', d2);
    assert |p1| == |p2|;
    assert p1 == s[..|p1|];
    assert p2 == s[..|p2|];
    assert d1 == s[|p1| + 1..];
    assert d2 == s[|p2| + 1..];
  }

  /** The metadata `saveToVectorDB` stores: projectId and content, the caller's
      metadata over them, then the timestamp, which nothing can override. */
  function MemoryMetadata(projectId: string, content: string, metadata: Obj, timestamp: string): (m: Obj)
    ensures m.Keys == {"projectId", "content", "timestamp"} + metadata.Keys
    ensures m["timestamp"] == JStr(timestamp)
    ensures forall k :: k in metadata && k != "timestamp" ==> m[k] == metadata[k]
    ensures "projectId" !in metadata ==> m["projectId"] == JStr(projectId)
    ensures "content" !in metadata ==> m["content"] == JStr(content)
  {
    Spread(Spread(map["projectId" := JStr(projectId), "content" := JStr(content)], metadata),
           map["timestamp" := JStr(timestamp)])
  }

  /** The record `saveToVectorDB` upserts. */
  function MemoryRecord(projectId: string, content: string, metadata: Obj, embed: Embedder, timestamp: string): VectorRecord {
    VectorRecord(GenerateEmbedding(content, embed), MemoryMetadata(projectId, content, metadata, timestamp))
  }

  /** The memory index after one `saveToVectorDB`: the record is stored under
      its id when the service accepts it; a refused write changes nothing. */
  function AfterSave(records: map<string, VectorRecord>, accepted: bool, projectId: string, now: nat, rec: VectorRecord): map<string, VectorRecord> {
    if accepted then records[MemoryId(projectId, now) := rec] else records
  }

  /** Two saves for one project in the same millisecond share an id: the later
      one replaces the earlier. */
  lemma SameMillisecondOverwrites(records: map<string, VectorRecord>, projectId: string, now: nat, r1: VectorRecord, r2: VectorRecord)
    ensures AfterSave(AfterSave(records, true, projectId, now, r1), true, projectId, now, r2)
         == AfterSave(records, true, projectId, now, r2)
  {
  }

  /** Saves for different projects or different milliseconds never replace
      each other. */
  lemma DistinctSavesKept(records: map<string, VectorRecord>, p1: string, t1: nat, r1: VectorRecord, p2: string, t2: nat, r2: VectorRecord)
    requires p1 != p2 || t1 != t2
    ensures var after := AfterSave(AfterSave(records, true, p1, t1, r1), true, p2, t2, r2);
      after[MemoryId(p1, t1)] == r1 && after[MemoryId(p2, t2)] == r2
  {
    if MemoryId(p1, t1) == MemoryId(p2, t2) {
      MemoryIdInjective(p1, t1, p2, t2);
    }
  }

  /** The query `searchVectorDB` sends: always filtered by the project. */
  function MemorySearchRequest(projectId: string, vector: Vector, topK: int): (req: QueryRequest)
    ensures req.filter == Some(projectId) && req.topK == topK && req.vector == vector
  {
    QueryRequest(vector, topK, Some(projectId))
  }

  /** One result of `searchVectorDB`: `{content, score, metadata}`. */
  datatype MemoryHit = MemoryHit(content: Option<Json>, score: Option<real>, metadata: Option<Obj>)

  function HitFromMatch(m: Match): MemoryHit {
    MemoryHit(Get(m.metadata, "content"), m.score, m.metadata)
  }

  /** What `searchVectorDB(projectId, query, topK)` returns: one hit per match,
      `[]` on a thrown error or a missing match list. */
  function SearchHits(projectId: string, query: string, topK: int, embed: Embedder, search: QueryService): (hits: seq<MemoryHit>)
    ensures var answer := search(MemorySearchRequest(projectId, GenerateEmbedding(query, embed), topK));
      && (answer.Failed? || answer.value.None? ==> hits == [])
      && (answer.Ok? && answer.value.Some? ==>
            |hits| == |answer.value.value| && forall i :: 0 <= i < |hits| ==> hits[i] == HitFromMatch(answer.value.value[i]))
  {
    match search(MemorySearchRequest(projectId, GenerateEmbedding(query, embed), topK))
    case Failed => []
    case Ok(None) => []
    case Ok(Some(ms)) => seq(|ms|, i requires 0 <= i < |ms| => HitFromMatch(ms[i]))
  }

  /** Every hit of `searchVectorDB` is a record of the project asked about, and
      there are at most `topK` of them. */
  lemma SearchHitsScoped(records: map<string, VectorRecord>, projectId: string, query: string, topK: int, embed: Embedder, search: QueryService)
    requires Serves(records, search)
    ensures var hits := SearchHits(projectId, query, topK, embed, search);
      && |hits| <= (if topK < 0 then 0 else topK)
      && forall h :: h in hits ==> h.metadata.Some? && InProject(h.metadata.value, projectId)
  {
    var req := MemorySearchRequest(projectId, GenerateEmbedding(query, embed), topK);
    if search(req).Ok? && search(req).value.Some? {
      var ms := search(req).value.value;
      assert IsQueryAnswer(records, req, ms);
      var hits := SearchHits(projectId, query, topK, embed, search);
      forall h | h in hits
        ensures h.metadata.Some? && InProject(h.metadata.value, projectId)
      {
        var i :| 0 <= i < |hits| && hits[i] == h;
        assert h == HitFromMatch(ms[i]);
      }
    }
  }

  /** The index list after `ensureVectorIndex` succeeds: the memory index is
      created with 1536 dimensions and the cosine metric only when missing. */
  function EnsuredIndexes(indexes: map<string, IndexSpec>): (r: map<string, IndexSpec>)
    ensures MemoryIndexName in r
    ensures MemoryIndexName in indexes ==> r == indexes
    ensures MemoryIndexName !in indexes ==> r[MemoryIndexName] == MemoryIndexSpec && r.Keys == indexes.Keys + {MemoryIndexName}
    ensures forall k :: k in indexes ==> k in r && r[k] == indexes[k]
  {
    if MemoryIndexName in indexes then indexes else indexes[MemoryIndexName := MemoryIndexSpec]
  }

  /** Ensuring twice has the effect of ensuring once. */
  lemma EnsureIdempotent(indexes: map<string, IndexSpec>)
    ensures EnsuredIndexes(EnsuredIndexes(indexes)) == EnsuredIndexes(indexes)
  {
  }

  /** The module state of `lib/vector.ts`: the lazily created client, the
      account whose indexes it lists, and the memory index it writes to. */
  class VectorModule {
    var pinecone: Client?
    /** How many clients this module has constructed. */
    ghost var constructions: nat
    const account: ServiceAccount
    const memory: VectorIndex

    /** The client is built at most once, and exists exactly when it was
        built; the index written to is 'ai-cofounder-memory' with 1536
        dimensions. */
    ghost predicate Valid()
      reads this
    {
      && constructions <= 1 && (pinecone == null <==> constructions == 0)
      && memory.name == MemoryIndexName && memory.dimension == EmbeddingDimension
    }

    constructor (account: ServiceAccount, memory: VectorIndex)
      requires memory.name == MemoryIndexName && memory.dimension == EmbeddingDimension
      ensures Valid() && pinecone == null
      ensures this.account == account && this.memory == memory
    {
      pinecone := null;
      constructions := 0;
      this.account := account;
      this.memory := memory;
    }

    /** Across a call that may fetch the client: a client that existed is
        kept and nothing more is constructed; otherwise there is still none,
        or a new one built from the configured key. */
    twostate predicate ClientKept(apiKeyEnv: Option<string>)
      reads this
    {
      && (old(pinecone) != null ==> pinecone == old(pinecone) && constructions == old(constructions))
      && (old(pinecone) == null ==> pinecone == null || (fresh(pinecone) && pinecone.apiKey == apiKeyEnv.GetOr("")))
    }

    /** `getPineconeClient()`: constructs the client on the first call and
        returns that same client on every later call. */
    method GetPineconeClient(apiKeyEnv: Option<string>) returns (c: Client)
      requires Valid()
      modifies this`pinecone, this`constructions
      ensures Valid() && pinecone == c
      ensures old(pinecone) != null ==> c == old(pinecone) && constructions == old(constructions)
      ensures old(pinecone) == null ==> fresh(c) && c.apiKey == apiKeyEnv.GetOr("")
    {
      if pinecone == null {
        pinecone := new Client(apiKeyEnv.GetOr(""));
        constructions := constructions + 1;
      }
      c := pinecone;
    }

    /** `saveToVectorDB(projectId, content, metadata)`: one upsert under
        `MemoryId(projectId, now)`; a refused write is swallowed. */
    method SaveToVectorDB(projectId: string, content: string, metadata: Obj, apiKeyEnv: Option<string>,
                          embed: Embedder, now: nat, timestamp: string)
      requires Valid()
      modifies this`pinecone, this`constructions, memory`records
      ensures Valid() && pinecone != null
      ensures old(pinecone) != null ==> pinecone == old(pinecone) && constructions == old(constructions)
      ensures old(pinecone) == null ==> fresh(pinecone) && pinecone.apiKey == apiKeyEnv.GetOr("")
      ensures var rec := MemoryRecord(projectId, content, metadata, embed, timestamp);
        memory.records == AfterSave(old(memory.records), memory.online && Storable(rec, memory.dimension), projectId, now, rec)
    {
      var client := GetPineconeClient(apiKeyEnv);
      var embedding := GenerateEmbedding(content, embed);
      var rec := VectorRecord(embedding, MemoryMetadata(projectId, content, metadata, timestamp));
      var _ := memory.Upsert(MemoryId(projectId, now), rec);
    }

    /** `searchVectorDB(projectId, query, topK)`. */
    method SearchVectorDB(projectId: string, query: string, topK: int, apiKeyEnv: Option<string>,
                          embed: Embedder, search: QueryService) returns (hits: seq<MemoryHit>)
      requires Valid()
      modifies this`pinecone, this`constructions
      ensures Valid() && pinecone != null
      ensures old(pinecone) != null ==> pinecone == old(pinecone) && constructions == old(constructions)
      ensures old(pinecone) == null ==> fresh(pinecone) && pinecone.apiKey == apiKeyEnv.GetOr("")
      ensures hits == SearchHits(projectId, query, topK, embed, search)
    {
      var client := GetPineconeClient(apiKeyEnv);
      hits := SearchHits(projectId, query, topK, embed, search);
    }

    /** `ensureVectorIndex()`: creates the memory index when the listing does
        not show it; failures are swallowed. */
    method EnsureVectorIndex(apiKeyEnv: Option<string>)
      requires Valid()
      modifies this`pinecone, this`constructions, account`indexes
      ensures Valid() && pinecone != null
      ensures old(pinecone) != null ==> pinecone == old(pinecone) && constructions == old(constructions)
      ensures old(pinecone) == null ==> fresh(pinecone) && pinecone.apiKey == apiKeyEnv.GetOr("")
      ensures account.indexes == if account.online then EnsuredIndexes(old(account.indexes)) else old(account.indexes)
    {
      var client := GetPineconeClient(apiKeyEnv);
      var listed := account.ListIndexes();
      if listed.Failed? {
        return;
      }
      if MemoryIndexName !in listed.value {
        var _ := account.CreateIndex(MemoryIndexName, MemoryIndexSpec);
      }
    }
  }
}
