/** The idea index of `lib/pinecone.ts`: saving and deleting ideas, searching
    for similar ideas, and recommendations drawn from the recent conversation. */
module IdeaSearch {

  import opened Common
  import opened Text
  import opened Pinecone

  const DefaultIndexName: string := "ai-cofounder-ideas"

  /** `process.env.PINECONE_INDEX_NAME || 'ai-cofounder-ideas'`. */
  function IdeasIndexName(env: Option<string>): (name: string)
    ensures name != ""
    ensures env.Some? && env.value != "" ==> name == env.value
    ensures env.None? || env.value == "" ==> name == DefaultIndexName
  {
    if env.Some? && env.value != "" then env.value else DefaultIndexName
  }

  /** The argument of `saveIdeaToVectorDB`. */
  datatype IdeaInput = IdeaInput(id: string, content: string, projectId: string, userId: Option<string>, metadata: Option<Obj>)

  /** The metadata `saveIdeaToVectorDB` stores: content, projectId, userId (when
      given) and createdAt, then the caller's metadata spread over them. */
  function IdeaMetadata(idea: IdeaInput, createdAt: string): (m: Obj)
    ensures var caller := idea.metadata.GetOr(map[]);
      && m.Keys == {"content", "projectId", "createdAt"} + (if idea.userId.Some? then {"userId"} else {}) + caller.Keys
      && (forall k :: k in caller ==> m[k] == caller[k])
      && ("content" !in caller ==> m["content"] == JStr(idea.content))
      && ("projectId" !in caller ==> m["projectId"] == JStr(idea.projectId))
      && ("createdAt" !in caller ==> m["createdAt"] == JStr(createdAt))
      && (idea.userId.Some? && "userId" !in caller ==> m["userId"] == JStr(idea.userId.value))
  {
    var base := map["content" := JStr(idea.content), "projectId" := JStr(idea.projectId)]
      + Field("userId", if idea.userId.Some? then Some(JStr(idea.userId.value)) else None)
      + map["createdAt" := JStr(createdAt)];
    assert base.Keys == {"content", "projectId", "createdAt"} + (if idea.userId.Some? then {"userId"} else {});
    assert base["content"] == JStr(idea.content) && base["projectId"] == JStr(idea.projectId);
    assert base["createdAt"] == JStr(createdAt);
    Spread(base, idea.metadata.GetOr(map[]))
  }

  /** `saveIdeaToVectorDB`: embeds the content and upserts exactly one record
      under `idea.id`. `ok == false` stands for the error being rethrown; the
      index is then unchanged. */
  method SaveIdea(index: VectorIndex, idea: IdeaInput, embed: Embedder, createdAt: string) returns (ok: bool)
    modifies index`records
    ensures ok <==> embed(idea.content).Ok? && index.online
                    && Storable(VectorRecord(embed(idea.content).value, IdeaMetadata(idea, createdAt)), index.dimension)
    ensures index.records == if ok
      then old(index.records)[idea.id := VectorRecord(embed(idea.content).value, IdeaMetadata(idea, createdAt))]
      else old(index.records)
  {
    var embedding := embed(idea.content);
    if embedding.Failed? {
      return false;
    }
    ok := index.Upsert(idea.id, VectorRecord(embedding.value, IdeaMetadata(idea, createdAt)));
  }

  /** `deleteIdeaFromVectorDB`: removes the record with that id; `ok == false`
      stands for the error being rethrown. */
  method DeleteIdea(index: VectorIndex, ideaId: string) returns (ok: bool)
    modifies index`records
    ensures ok == index.online
    ensures index.records == if ok then old(index.records) - {ideaId} else old(index.records)
  {
    ok := index.DeleteOne(ideaId);
  }

  /** The query `findSimilarIdeas` sends: `topK` is the limit, and the project
      filter is present exactly when a non-empty projectId is given. */
  function SimilarIdeasRequest(vector: Vector, projectId: Option<string>, limit: int): (req: QueryRequest)
    ensures req.vector == vector && req.topK == limit
    ensures req.filter.Some? <==> projectId.Some? && projectId.value != ""
    ensures req.filter.Some? ==> req.filter.value == projectId.value
  {
    QueryRequest(vector, limit, if projectId.Some? && projectId.value != "" then projectId else None)
  }

  /** One result of `findSimilarIdeas`: id, score, content, projectId, userId and
      createdAt, then the match's whole metadata spread over them. The result
      has the id, the score when the match has one, and the metadata's keys;
      the match's id and score survive unless the metadata overrides them. */
  function IdeaFromMatch(m: Match): (idea: Obj)
    ensures var md := m.metadata.GetOr(map[]);
      && idea.Keys == {"id"} + (if m.score.Some? then {"score"} else {}) + md.Keys
      && ("id" !in md ==> idea["id"] == JStr(m.id))
      && (m.score.Some? && "score" !in md ==> idea["score"] == JNum(m.score.value))
      && (forall k :: k in md ==> idea[k] == md[k])
  {
    var md := m.metadata;
    var base := map["id" := JStr(m.id)]
      + Field("score", if m.score.Some? then Some(JNum(m.score.value)) else None)
      + DescribedFields(md);
    Spread(base, md.GetOr(map[]))
  }

  /** The descriptive properties copied from the match's metadata. */
  function DescribedFields(md: Option<Obj>): (d: Obj)
    ensures forall k :: k in d ==> md.Some? && k in md.value && d[k] == md.value[k]
  {
    Field("content", Get(md, "content"))
      + Field("projectId", Get(md, "projectId"))
      + Field("userId", Get(md, "userId"))
      + Field("createdAt", Get(md, "createdAt"))
  }

  /** The descriptive properties of a result are those of its match, present
      exactly when the match has them; the score comes from the match unless
      its metadata overrides it. */
  lemma IdeaFromMatchFields(m: Match)
    ensures var idea := IdeaFromMatch(m);
      && Get(Some(idea), "content") == Get(m.metadata, "content")
      && Get(Some(idea), "projectId") == Get(m.metadata, "projectId")
      && Get(Some(idea), "userId") == Get(m.metadata, "userId")
      && Get(Some(idea), "createdAt") == Get(m.metadata, "createdAt")
      && (Get(m.metadata, "score").None? ==> NumOf(Get(Some(idea), "score")) == m.score)
  {
    var md := m.metadata;
    var d := DescribedFields(md);
    assert forall k :: k in ["content", "projectId", "userId", "createdAt"] ==> (k in d <==> md.Some? && k in md.value);
  }

  /** `findSimilarIdeas(query, projectId, limit)`: embed the query, ask the
      index, map every match. Any error, and a missing match list, give `[]`. */
  function FindSimilarIdeas(query: string, projectId: Option<string>, limit: int, embed: Embedder, search: QueryService): (ideas: seq<Obj>)
    ensures embed(query).Failed? ==> ideas == []
    ensures embed(query).Ok? ==>
      var answer := search(SimilarIdeasRequest(embed(query).value, projectId, limit));
      && (answer.Failed? || answer.value.None? ==> ideas == [])
      && (answer.Ok? && answer.value.Some? ==>
            |ideas| == |answer.value.value| && forall i :: 0 <= i < |ideas| ==> ideas[i] == IdeaFromMatch(answer.value.value[i]))
  {
    match embed(query)
    case Failed => []
    case Ok(v) =>
      match search(SimilarIdeasRequest(v, projectId, limit))
      case Failed => []
      case Ok(None) => []
      case Ok(Some(ms)) => seq(|ms|, i requires 0 <= i < |ms| => IdeaFromMatch(ms[i]))
  }

  /** `findSimilarIdeas` never returns more than `limit` results. */
  lemma FindSimilarIdeasBounded(records: map<string, VectorRecord>, query: string, projectId: Option<string>, limit: int, embed: Embedder, search: QueryService)
    requires Serves(records, search)
    ensures |FindSimilarIdeas(query, projectId, limit, embed, search)| <= if limit < 0 then 0 else limit
  {
    if embed(query).Ok? {
      var req := SimilarIdeasRequest(embed(query).value, projectId, limit);
      if search(req).Ok? && search(req).value.Some? {
        assert IsQueryAnswer(records, req, search(req).value.value);
      }
    }
  }

  /** With a non-empty projectId every result belongs to that project; without
      one the query carries no filter and may return any project's ideas. */
  lemma FindSimilarIdeasScoped(records: map<string, VectorRecord>, query: string, p: string, limit: int, embed: Embedder, search: QueryService)
    requires Serves(records, search)
    requires p != ""
    ensures forall idea :: idea in FindSimilarIdeas(query, Some(p), limit, embed, search) ==>
      "projectId" in idea && idea["projectId"] == JStr(p)
  {
    var ideas := FindSimilarIdeas(query, Some(p), limit, embed, search);
    if embed(query).Ok? {
      var req := SimilarIdeasRequest(embed(query).value, Some(p), limit);
      if search(req).Ok? && search(req).value.Some? {
        var ms := search(req).value.value;
        assert IsQueryAnswer(records, req, ms);
        forall idea | idea in ideas
          ensures "projectId" in idea && idea["projectId"] == JStr(p)
        {
          var i :| 0 <= i < |ideas| && ideas[i] == idea;
          assert idea == IdeaFromMatch(ms[i]);
          assert InProject(records[ms[i].id].metadata, p);
        }
      }
    }
  }

  /** `conversationHistory.slice(-5)`: the last five entries, in order. */
  function RecentWindow(history: seq<Json>): (w: seq<Json>)
    ensures |w| == if |history| < 5 then |history| else 5
    ensures w == history[|history| - |w|..]
  {
    if |history| <= 5 then history else history[|history| - 5..]
  }

  /** What `join` makes of `msg.text` for an entry that has properties: an
      object's `text`, rendered as a `join` element; any other value has no
      `text`, which renders as empty. */
  function EntryText(entry: Json): string {
    if entry.JObj? && "text" in entry.fields then ElementText(entry.fields["text"]) else ""
  }

  /** `.map(msg => msg.text)`: the entries' texts in order, or `None` when an
      entry is `null`, whose `text` cannot be read (a `TypeError`). */
  function EntryTexts(window: seq<Json>): (r: Option<seq<string>>)
    ensures r.None? <==> exists i :: 0 <= i < |window| && window[i] == JNull
    ensures r.Some? ==> |r.value| == |window| && forall i :: 0 <= i < |window| ==> r.value[i] == EntryText(window[i])
  {
    if window == [] then Some([])
    else if window[0] == JNull then None
    else match EntryTexts(window[1..])
      case None => None
      case Some(rest) => Some([EntryText(window[0])] + rest)
  }

  /** `.map(msg => msg.text).join(' ')`: the texts joined by single spaces,
      or `None` when reading a text throws. */
  function ContextText(window: seq<Json>): (r: Option<string>)
    ensures r.None? <==> exists i :: 0 <= i < |window| && window[i] == JNull
  {
    match EntryTexts(window)
    case None => None
    case Some(texts) => Some(Join(texts, " "))
  }

  /** When every entry is an object with a string `text` free of spaces, the
      context splits back into those texts, in order. */
  lemma ContextTextSplits(window: seq<Json>)
    requires forall i :: 0 <= i < |window| ==> window[i].JObj? && "text" in window[i].fields && window[i].fields["text"].JStr?
    requires forall i :: 0 <= i < |window| ==> ' ' !in window[i].fields["text"].s
    requires window != []
    ensures ContextText(window).Some?
    ensures Split(ContextText(window).value, ' ') == seq(|window|, i requires 0 <= i < |window| => window[i].fields["text"].s)
  {
    var texts := EntryTexts(window).value;
    assert texts == seq(|window|, i requires 0 <= i < |window| => window[i].fields["text"].s);
    SplitJoin(texts, ' ');
  }

  /** A search the recommendation pipeline issued. */
  datatype SearchCall = SearchCall(query: string, projectId: Option<string>, limit: int)

  datatype Recommendations = Recommendations(search: Option<SearchCall>, ideas: seq<Obj>)

  /** `idea.score` as the comparisons `> 0.7` and `-` see it: a number, or a
      boolean, which compares as 1 or 0. Any other value reads as no score. */
  function Score(idea: Obj): Option<real> {
    match Get(Some(idea), "score")
    case Some(JNum(n)) => Some(n)
    case Some(JBool(b)) => Some(if b then 1.0 else 0.0)
    case _ => None
  }

  /** `idea.score && idea.score > 0.7`: a missing or zero score fails. */
  predicate Relevant(idea: Obj) {
    Score(idea).Some? && Score(idea).value != 0.0 && Score(idea).value > 0.7
  }

  /** `.filter(idea => idea.score && idea.score > 0.7)`. */
  function KeepRelevant(ideas: seq<Obj>): (r: seq<Obj>)
    ensures forall i :: 0 <= i < |r| ==> Relevant(r[i])
    ensures forall x :: x in r <==> x in ideas && Relevant(x)
    ensures multiset(r) <= multiset(ideas)
    ensures |r| <= |ideas|
  {
    if ideas == [] then []
    else
      var rest := KeepRelevant(ideas[1..]);
      assert ideas == [ideas[0]] + ideas[1..];
      if Relevant(ideas[0]) then [ideas[0]] + rest else rest
  }

  /** The filter keeps every relevant idea as often as it occurs, and nothing
      else. */
  lemma {:induction false} KeepRelevantCounts(ideas: seq<Obj>)
    ensures forall x :: multiset(KeepRelevant(ideas))[x] == if Relevant(x) then multiset(ideas)[x] else 0
  {
    if ideas != [] {
      var t := ideas[1..];
      assert ideas == [ideas[0]] + t;
      KeepRelevantCons(ideas[0], t);
      KeepRelevantCounts(t);
    }
  }

  /** The filter keeps the order of the ideas: filtering a concatenation is
      concatenating the filtered parts. */
  lemma {:induction false} KeepRelevantKeepsOrder(a: seq<Obj>, b: seq<Obj>)
    ensures KeepRelevant(a + b) == KeepRelevant(a) + KeepRelevant(b)
  {
    if a == [] {
      assert a + b == b;
    } else {
      var t := a[1..];
      assert a == [a[0]] + t;
      AppendAssoc([a[0]], t, b);
      KeepRelevantCons(a[0], t + b);
      KeepRelevantCons(a[0], t);
      KeepRelevantKeepsOrder(t, b);
      AppendAssoc(if Relevant(a[0]) then [a[0]] else [], KeepRelevant(t), KeepRelevant(b));
    }
  }

  /** The filter on a sequence with a known first idea: the idea stays iff it
      is relevant, in front of the filtered rest. */
  lemma KeepRelevantCons(y: Obj, t: seq<Obj>)
    ensures KeepRelevant([y] + t) == (if Relevant(y) then [y] else []) + KeepRelevant(t)
  {
    assert ([y] + t)[1..] == t;
  }

  /** The sort key `idea.score || 0`. */
  function ScoreKey(idea: Obj): real {
    Score(idea).GetOr(0.0)
  }

  /** `s` is in non-increasing order of `key`. */
  predicate SortedBy<T>(s: seq<T>, key: T -> real) {
    forall i, j :: 0 <= i < j < |s| ==> key(s[i]) >= key(s[j])
  }

  predicate SortedByScore(s: seq<Obj>) {
    SortedBy(s, ScoreKey)
  }

  /** The elements of `s` whose key is `k`, in their order in `s`. */
  function WithKey<T>(s: seq<T>, key: T -> real, k: real): seq<T> {
    if s == [] then [] else (if key(s[0]) == k then [s[0]] else []) + WithKey(s[1..], key, k)
  }

  /** Inserts `x` before the first element whose key is no larger than its own. */
  function InsertBy<T>(x: T, s: seq<T>, key: T -> real): (r: seq<T>)
    requires SortedBy(s, key)
    ensures SortedBy(r, key)
    ensures multiset(r) == multiset(s) + multiset{x}
    ensures |r| == |s| + 1
    ensures r[0] == x || (s != [] && r[0] == s[0])
  {
    if s == [] || key(x) >= key(s[0]) then
      ConsSorted(x, s, key);
      [x] + s
    else
      var rest := InsertBy(x, s[1..], key);
      assert s == [s[0]] + s[1..];
      assert rest[0] == x || rest[0] == s[1];
      ConsSorted(s[0], rest, key);
      [s[0]] + rest
  }

  /** `x` goes in front of every element with its own key: among equal keys
      the inserted element comes first. */
  lemma {:induction false} InsertByStable<T>(x: T, s: seq<T>, key: T -> real, k: real)
    requires SortedBy(s, key)
    ensures WithKey(InsertBy(x, s, key), key, k) == (if key(x) == k then [x] else []) + WithKey(s, key, k)
  {
    if s == [] || key(x) >= key(s[0]) {
      WithKeyCons(x, s, key, k);
    } else {
      var t := s[1..];
      var rest := InsertBy(x, t, key);
      assert s == [s[0]] + t;
      assert InsertBy(x, s, key) == [s[0]] + rest;
      WithKeyCons(s[0], rest, key, k);
      WithKeyCons(s[0], t, key, k);
      InsertByStable(x, t, key, k);
      // at most one of `x` and `s[0]` has the key `k`, so their order does not matter
      SwapWhenOneEmpty(if key(x) == k then [x] else [], if key(s[0]) == k then [s[0]] else [], WithKey(t, key, k));
    }
  }

  lemma SwapWhenOneEmpty<T>(p: seq<T>, q: seq<T>, w: seq<T>)
    requires p == [] || q == []
    ensures q + (p + w) == p + (q + w)
  {
    if p == [] {
      assert p + w == w;
    } else {
      assert q + w == w;
    }
  }

  lemma WithKeyCons<T>(y: T, t: seq<T>, key: T -> real, k: real)
    ensures WithKey([y] + t, key, k) == (if key(y) == k then [y] else []) + WithKey(t, key, k)
  {
    assert ([y] + t)[1..] == t;
  }

  /** Putting an element whose key is at least the head's in front of a
      sorted sequence keeps it sorted. */
  lemma ConsSorted<T>(a: T, t: seq<T>, key: T -> real)
    requires SortedBy(t, key)
    requires t != [] ==> key(a) >= key(t[0])
    ensures SortedBy([a] + t, key)
  {
    var u := [a] + t;
    forall i, j | 0 <= i < j < |u|
      ensures key(u[i]) >= key(u[j])
    {
      if i == 0 {
        assert u[j] == t[j - 1];
        assert key(t[0]) >= key(t[j - 1]);
      } else {
        assert u[i] == t[i - 1] && u[j] == t[j - 1];
      }
    }
  }

  /** A stable insertion sort by descending `key`: elements with equal keys
      keep their original order. */
  function SortBy<T>(s: seq<T>, key: T -> real): (r: seq<T>)
    ensures SortedBy(r, key)
    ensures multiset(r) == multiset(s)
    ensures |r| == |s|
    ensures forall k :: WithKey(r, key, k) == WithKey(s, key, k)
  {
    if s == [] then []
    else
      assert s == [s[0]] + s[1..];
      var sorted := SortBy(s[1..], key);
      assert forall k :: WithKey(InsertBy(s[0], sorted, key), key, k) == WithKey(s, key, k) by {
        forall k {
          InsertByStable(s[0], sorted, key, k);
        }
      }
      InsertBy(s[0], sorted, key)
  }

  /** `.sort((a, b) => (b.score || 0) - (a.score || 0))`: descending score,
      equal scores in their original order. */
  function SortByScore(s: seq<Obj>): (r: seq<Obj>)
    ensures SortedByScore(r)
    ensures multiset(r) == multiset(s)
    ensures forall k :: WithKey(r, ScoreKey, k) == WithKey(s, ScoreKey, k)
  {
    SortBy(s, ScoreKey)
  }

  /** `getIdeaRecommendations(conversationHistory, projectId)`: the last five
      texts joined by spaces; a `null` entry among them throws before any
      search and the error is caught as `[]`; a blank context returns `[]`
      without any search; otherwise three similar ideas are asked for, those
      scoring above 0.7 are kept and sorted by descending score. Every
      relevant result is kept as often as it was found, and results with
      equal scores stay in the order the search returned them. */
  function GetIdeaRecommendations(history: seq<Json>, projectId: Option<string>, embed: Embedder, search: QueryService): (r: Recommendations)
    ensures var w := RecentWindow(history);
      (exists i :: 0 <= i < |w| && w[i] == JNull) ==> r == Recommendations(None, [])
    ensures var context := ContextText(RecentWindow(history));
      && (r.search.None? <==> context.None? || Trim(context.value) == "")
      && (r.search.None? ==> r.ideas == [])
      && (r.search.Some? ==>
            var found := FindSimilarIdeas(context.value, projectId, 3, embed, search);
            && r.search.value == SearchCall(context.value, projectId, 3)
            && (forall x :: multiset(r.ideas)[x] == if Relevant(x) then multiset(found)[x] else 0)
            && (forall k :: k > 0.7 ==> WithKey(r.ideas, ScoreKey, k) == WithKey(found, ScoreKey, k))
            && |r.ideas| <= |found|)
    ensures forall i :: 0 <= i < |r.ideas| ==> Relevant(r.ideas[i])
    ensures SortedByScore(r.ideas)
  {
    match ContextText(RecentWindow(history))
    case None => Recommendations(None, [])
    case Some(context) =>
      if Trim(context) == "" then Recommendations(None, [])
      else
        var found := FindSimilarIdeas(context, projectId, 3, embed, search);
        FilterThenSort(found);
        Recommendations(Some(SearchCall(context, projectId, 3)), SortByScore(KeepRelevant(found)))
  }

  /** What the filter and the sort together make of the found ideas: the
      relevant ones, each as often as found, by descending score, equal
      scores in the order found. */
  lemma FilterThenSort(found: seq<Obj>)
    ensures var r := SortByScore(KeepRelevant(found));
      && (forall x :: multiset(r)[x] == if Relevant(x) then multiset(found)[x] else 0)
      && (forall k :: k > 0.7 ==> WithKey(r, ScoreKey, k) == WithKey(found, ScoreKey, k))
      && (forall i :: 0 <= i < |r| ==> Relevant(r[i]))
      && SortedByScore(r)
      && |r| <= |found|
  {
    var kept := KeepRelevant(found);
    var sorted := SortByScore(kept);
    assert |sorted| == |multiset(sorted)| == |multiset(kept)| == |kept|;
    forall i | 0 <= i < |sorted|
      ensures Relevant(sorted[i])
    {
      assert sorted[i] in multiset(kept);
    }
    KeepRelevantCounts(found);
    forall k | k > 0.7
      ensures WithKey(sorted, ScoreKey, k) == WithKey(found, ScoreKey, k)
    {
      WithKeyRelevant(found, k);
    }
  }

  /** Ideas whose sort key is above 0.7 are relevant, so the filter keeps
      every one of them, in order. */
  lemma {:induction false} WithKeyRelevant(s: seq<Obj>, k: real)
    requires k > 0.7
    ensures WithKey(KeepRelevant(s), ScoreKey, k) == WithKey(s, ScoreKey, k)
  {
    if s != [] {
      WithKeyRelevant(s[1..], k);
      var rest := KeepRelevant(s[1..]);
      if Relevant(s[0]) {
        assert ([s[0]] + rest)[1..] == rest;
      } else {
        assert ScoreKey(s[0]) != k;
      }
    }
  }

  /** Recommendations number at most three, and every one of them is a search
      result. */
  lemma RecommendationsAtMostThree(records: map<string, VectorRecord>, history: seq<Json>, projectId: Option<string>, embed: Embedder, search: QueryService)
    requires Serves(records, search)
    ensures |GetIdeaRecommendations(history, projectId, embed, search).ideas| <= 3
  {
    var r := GetIdeaRecommendations(history, projectId, embed, search);
    if r.search.Some? {
      var context := ContextText(RecentWindow(history)).value;
      FindSimilarIdeasBounded(records, context, projectId, 3, embed, search);
    }
  }

  /** The context is built from the last five entries only: entries before
      them do not change the recommendations. */
  lemma RecommendationsUseLastFive(older: seq<Json>, recent: seq<Json>, projectId: Option<string>, embed: Embedder, search: QueryService)
    requires |recent| == 5
    ensures GetIdeaRecommendations(older + recent, projectId, embed, search)
         == GetIdeaRecommendations(recent, projectId, embed, search)
  {
    assert (older + recent)[|older + recent| - 5..] == recent;
  }
}
