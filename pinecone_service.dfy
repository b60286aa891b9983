/** The hosted vector database and the embedding service, as the core sees
    them. An index is a store of records keyed by id; similarity is computed
    by the service, so a query answer is an input constrained by what the
    service promises (`IsQueryAnswer`), never computed here. */
module Pinecone {

  import opened Common

  type Vector = seq<real>

  /** The embedding service: text in, a vector or a thrown error out. */
  type Embedder = string -> Remote<Vector>

  datatype VectorRecord = VectorRecord(values: Vector, metadata: Obj)

  /** A metadata value the service stores: a string, a number, a boolean or a
      list of strings. Objects, lists of anything else and `null` are refused. */
  predicate FlatValue(j: Json) {
    match j
    case JStr(_) => true
    case JNum(_) => true
    case JBool(_) => true
    case JArr(items) => forall i :: 0 <= i < |items| ==> items[i].JStr?
    case _ => false
  }

  /** Metadata the service stores: every value is flat. */
  predicate FlatMetadata(m: Obj) {
    forall k :: k in m ==> FlatValue(m[k])
  }

  /** A record an index of that dimension accepts. */
  predicate Storable(rec: VectorRecord, dimension: nat) {
    |rec.values| == dimension && FlatMetadata(rec.metadata)
  }

  /** The configuration passed to `createIndex`. */
  datatype IndexSpec = IndexSpec(dimension: nat, metric: string, cloud: string, region: string)

  /** One named index of the hosted service: its records, keyed by id. */
  class VectorIndex {
    const name: string
    const dimension: nat
    var records: map<string, VectorRecord>
    /** Whether the service currently answers requests. */
    var online: bool

    constructor (name: string, dimension: nat)
      ensures this.name == name && this.dimension == dimension
      ensures records == map[] && online
    {
      this.name := name;
      this.dimension := dimension;
      records := map[];
      online := true;
    }

    /** `index.upsert([{id, values, metadata}])`: a record with the same id is
        replaced. The service refuses the call when it is unreachable, the
        vector has the wrong dimension or the metadata is not flat. */
    method Upsert(id: string, rec: VectorRecord) returns (ok: bool)
      modifies this`records
      ensures ok == (online && Storable(rec, dimension))
      ensures records == if ok then old(records)[id := rec] else old(records)
    {
      ok := online && Storable(rec, dimension);
      if ok {
        records := records[id := rec];
      }
    }

    /** `index.deleteOne(id)`: an absent id is not an error. */
    method DeleteOne(id: string) returns (ok: bool)
      modifies this`records
      ensures ok == online
      ensures records == if ok then old(records) - {id} else old(records)
    {
      ok := online;
      if ok {
        records := records - {id};
      }
    }
  }

  /** A query: the vector, how many matches at most, and an optional
      `{projectId: {$eq: p}}` filter. Metadata is always requested. */
  datatype QueryRequest = QueryRequest(vector: Vector, topK: int, filter: Option<string>)

  /** One match: its id, its score (the service may leave it out) and its
      metadata. */
  datatype Match = Match(id: string, score: Option<real>, metadata: Option<Obj>)

  /** `{projectId: {$eq: p}}` holds of the metadata. */
  predicate InProject(metadata: Obj, p: string) {
    "projectId" in metadata && metadata["projectId"] == JStr(p)
  }

  /** What the service promises of an answer to `req` over `records`: at most
      `topK` matches, distinct ids, each an existing record carrying its stored
      metadata and passing the filter. */
  ghost predicate IsQueryAnswer(records: map<string, VectorRecord>, req: QueryRequest, matches: seq<Match>) {
    && |matches| <= req.topK
    && (forall i :: 0 <= i < |matches| ==>
          && matches[i].id in records
          && matches[i].metadata == Some(records[matches[i].id].metadata)
          && (req.filter.Some? ==> InProject(records[matches[i].id].metadata, req.filter.value)))
    && (forall i, j :: 0 <= i < j < |matches| ==> matches[i].id != matches[j].id)
  }

  /** `index.query(req)`: the matches (possibly `undefined`) or a thrown error. */
  type QueryService = QueryRequest -> Remote<Option<seq<Match>>>

  /** The query service answers every request over `records` as the service promises. */
  ghost predicate Serves(records: map<string, VectorRecord>, query: QueryService) {
    forall req :: query(req).Ok? && query(req).value.Some? ==> IsQueryAnswer(records, req, query(req).value.value)
  }

  /** A client handle, `new Pinecone({apiKey})`. */
  class Client {
    const apiKey: string

    constructor (apiKey: string)
      ensures this.apiKey == apiKey
    {
      this.apiKey := apiKey;
    }
  }

  /** The hosted account as the client sees it: which indexes exist. */
  class ServiceAccount {
    var indexes: map<string, IndexSpec>
    /** Whether the service currently answers requests. */
    var online: bool

    constructor (indexes: map<string, IndexSpec>)
      ensures this.indexes == indexes && online
    {
      this.indexes := indexes;
      online := true;
    }

    /** `listIndexes()`: the names of the existing indexes, or a thrown error. */
    method ListIndexes() returns (r: Remote<set<string>>)
      ensures r == if online then Ok(indexes.Keys) else Failed
    {
      r := if online then Ok(indexes.Keys) else Failed;
    }

    /** `createIndex(...)`: refused when unreachable or when the name is taken. */
    method CreateIndex(name: string, spec: IndexSpec) returns (ok: bool)
      modifies this`indexes
      ensures ok == (online && name !in old(indexes))
      ensures indexes == if ok then old(indexes)[name := spec] else old(indexes)
    {
      ok := online && name !in indexes;
      if ok {
        indexes := indexes[name := spec];
      }
    }
  }
}
