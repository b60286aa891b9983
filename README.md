# AI co-founder: a verified model of the core

The system is a Next.js application that acts as an "AI co-founder". It has
four parts, and this project models the logic of each:

- **Chat.** The user chats with a language model. The chat route builds the
  model's message list from the conversation history. When the model is
  unavailable, it answers with a fixed pool of replies.
- **Conversation service.** It stores both sides of every exchange in a
  message table. Before replying, it recalls earlier replies from a vector
  memory (Pinecone, index `ai-cofounder-memory`), and it remembers each new
  reply there. It also proposes canvas objects (problem, insight, persona,
  solution) from keywords in the user's message.
- **Idea search and recommendations.** Ideas live in a second Pinecone index
  (`ai-cofounder-ideas`). Searches can be scoped to one project.
  Recommendations are drawn from the last five turns of the conversation,
  keep only scores above 0.7, and are ranked by score.
- **Market analysis.** It uses live market data when that data names a
  problem, and a built-in table of ten market categories otherwise. The
  analysis it uses is written into the memory.

Three maintenance scripts read the project's `.env` file, each with its own
parser:
- the deployment script (`auto-fix-deploy.js`), which also decides whether to
  rewrite the file;
- the API key checker (`test-api-keys.js`);
- the Supabase connection test (`test-supabase-connection.js`).

The model proves where these parsers agree and where they do not.

## How the model is organised

Modules follow the source files:

| module | source file |
|---|---|
| `IdeaSearch` | `lib/pinecone.ts` |
| `MemoryStore` | `lib/vector.ts` |
| `ChatService` | `lib/api/chat.ts` |
| `ChatRoute`, `SearchRoute`, `MarketRoute` | the three route handlers |
| `FallbackData` | `lib/fallback-data.ts` |
| `AutoFixDeploy`, `ApiKeys`, `SupabaseEnv` | the three scripts |

Shared modules:
- `Common`: optional values, service outcomes, JSON values and JavaScript
  object spread.
- `Text`: the JavaScript string operations used (`trim`, `split`, `join`,
  `includes`, `startsWith`, `toLowerCase`, `substring`, decimal rendering).
- `Pinecone`: the hosted vector service.
- `EnvLines`: how one `.env` line splits into key and value, and the
  last-assignment-wins fold.

Where the source updates state, the model uses classes:
- `Pinecone.VectorIndex`: the records of an index;
- `Pinecone.ServiceAccount`: the account's index list;
- `MemoryStore.VectorModule`: the lazily created client of `lib/vector.ts`,
  writing to the 1536-dimension index `ai-cofounder-memory`;
- `ChatService.MessageTable`: the message store;
- `ChatService.ChatBackend`: the store and the memory, as `sendMessage`
  updates them.

The pipelines are functions. Loops that update variables are methods whose
loop invariants tie them to a specification function:
- the `.env` read loops;
- the `allKeysPresent` loop;
- the Supabase reader;
- the step-by-step `needsFix` decision.

Everything outside the program is an input:
- **Services:** embedding, vector query and chat completion are function
  parameters. A query answer is only assumed to satisfy what the service
  promises (`Pinecone.IsQueryAnswer`): at most `topK` matches, distinct
  existing records, and the filter respected. An upsert is accepted only
  with the index's dimension and flat metadata (`Pinecone.FlatMetadata`:
  strings, numbers, booleans and lists of strings), as the service requires.
  One consequence is proved: the reply memory written by `sendMessage`
  carries its context as a list of objects, so a reply that drew on any
  memory is refused by the service, and the refusal is swallowed
  (`ChatService.SendRemembersOnlyReplies`).
- **Environment values:** `Math.random()`, `Date.now()` and
  `new Date().toISOString()` are parameters.
- **Files and variables:** file contents and environment variables are
  parameters, `None` when they are absent or unreadable.

Where the system's specification and its code disagree, the model follows
the code:
- **Chat route status.** A missing `message` yields status 400, not 500.
- **Recommendation bound.** Recommendations are not truncated after
  filtering. Their bound of three comes from the query's `topK`.
- **Sort ties.** Equal scores are not ordered by recency. The sort is
  stable, so they keep the service's order (`IdeaSearch.SortBy`,
  `IdeaSearch.GetIdeaRecommendations`).

## Model

| member | source | states |
|---|---|---|
| Common.Spread | lib/pinecone.ts:48-54 | `{...a, ...b}`: the keys of both, every key of `b` overriding the same key of `a` |
| Common.Field | lib/pinecone.ts:51 | a property whose value is `undefined` is absent from the object |
| Common.Get | lib/pinecone.ts:87-90 | `metadata?.k` is the property when the object has it, `undefined` otherwise |
| Text.Trim | auto-fix-deploy.js:17 | the result is the input without leading and trailing ECMAScript whitespace and starts and ends with a non-space |
| Text.SplitHeadTail | auto-fix-deploy.js:16-17 | `[key, ...rest] = s.split('=')`: `key` is the text before the first `=`, `rest.join('=')` everything after it |
| Text.JoinSplit | auto-fix-deploy.js:16-17 | joining the parts of a split with the separator gives the string back |
| Text.SplitJoin | lib/api/chat.ts:56 | splitting a join of separator-free parts gives the parts back |
| Text.SplitConcat | auto-fix-deploy.js:68 | the split of two strings glued by the separator is the concatenation of their splits |
| Text.ContainsAt | lib/fallback-data.ts:23 | `includes` holds exactly when the substring occurs at some position |
| Text.LowerIdempotent | lib/fallback-data.ts:21 | lower-casing twice is lower-casing once |
| Text.Take | lib/api/chat.ts:83 | `substring(0, n)` is a prefix of length `min(n, length)` |
| Text.NatToStringInjective | lib/vector.ts:29 | distinct millisecond values render as distinct decimal strings |
| Pinecone.VectorIndex.Upsert | lib/pinecone.ts:44-56 | a record replaces any record with the same id; the call is refused, changing nothing, when the service is unreachable, the dimension differs or the metadata is not flat |
| Pinecone.VectorIndex.DeleteOne | lib/pinecone.ts:129 | removes exactly that id; an absent id is not an error |
| Pinecone.ServiceAccount.ListIndexes | lib/vector.ts:94 | the names of the existing indexes, or an error when the service is unreachable |
| Pinecone.ServiceAccount.CreateIndex | lib/vector.ts:99-109 | adds the index when its name is free; otherwise nothing changes |
| IdeaSearch.IdeasIndexName | lib/pinecone.ts:14-16 | the configured index name when it is non-empty, `ai-cofounder-ideas` otherwise |
| IdeaSearch.IdeaMetadata | lib/pinecone.ts:48-54 | stored metadata holds content, projectId, createdAt and userId (when given), each overridden by the caller's metadata |
| IdeaSearch.SaveIdea | lib/pinecone.ts:33-63 | exactly one record is upserted under `idea.id` with the embedding and that metadata; on an embedding error or a refused upsert (wrong dimension, metadata not flat) the index is unchanged and the error surfaces |
| IdeaSearch.DeleteIdea | lib/pinecone.ts:126-135 | the record with that id is removed; errors surface and change nothing |
| IdeaSearch.SimilarIdeasRequest | lib/pinecone.ts:71-80 | `topK` is the limit; the project filter is present exactly when a non-empty projectId is given |
| IdeaSearch.IdeaFromMatch | lib/pinecone.ts:84-92 | the keys are `id`, `score` when the match has one, and the metadata keys; `id` and `score` are the match's unless the metadata overrides them; every metadata property keeps its value |
| IdeaSearch.DescribedFields | lib/pinecone.ts:87-90 | the descriptive properties are copied from the match's metadata, never invented |
| IdeaSearch.IdeaFromMatchFields | lib/pinecone.ts:84-92 | content, projectId, userId and createdAt are those of the match; the score is the match's unless metadata overrides it |
| IdeaSearch.FindSimilarIdeas | lib/pinecone.ts:66-97 | one result per match in service order; an embedding error, a query error or a missing match list gives `[]` |
| IdeaSearch.FindSimilarIdeasBounded | lib/pinecone.ts:73 | never more than `limit` results |
| IdeaSearch.FindSimilarIdeasScoped | lib/pinecone.ts:78-80 | with a non-empty projectId every result belongs to that project |
| IdeaSearch.RecentWindow | lib/pinecone.ts:103 | `slice(-5)`: the last `min(5, n)` entries, in order |
| IdeaSearch.EntryTexts | lib/pinecone.ts:104-105 | `map(msg => msg.text)` throws iff an entry is `null`; otherwise one text per entry, in order |
| IdeaSearch.ContextText | lib/pinecone.ts:104-106 | the context cannot be built iff an entry of the window is `null` |
| IdeaSearch.ContextTextSplits | lib/pinecone.ts:104-106 | texts without spaces are recovered from the context by splitting on spaces, in order |
| IdeaSearch.KeepRelevant | lib/pinecone.ts:117 | every kept idea is relevant, an idea occurs in the result iff it occurs in the input and is relevant, and the result is a sub-multiset of the input |
| IdeaSearch.KeepRelevantCounts | lib/pinecone.ts:117 | each idea occurs in the result as often as in the input when relevant, and not at all otherwise |
| IdeaSearch.KeepRelevantKeepsOrder | lib/pinecone.ts:117 | filtering a concatenation concatenates the filtered parts, so the input order is kept |
| IdeaSearch.KeepRelevantCons | lib/pinecone.ts:117 | a first idea stays, in front, iff it is relevant |
| IdeaSearch.InsertBy | lib/pinecone.ts:118 | inserting into a sequence sorted by descending key keeps it sorted and adds exactly that element |
| IdeaSearch.InsertByStable | lib/pinecone.ts:118 | the inserted element precedes every element with its own key |
| IdeaSearch.SortBy | lib/pinecone.ts:118 | the result is sorted by descending key, a permutation of the input, and stable: the elements of each key keep their input order |
| IdeaSearch.SortByScore | lib/pinecone.ts:118 | sorted by descending score (a missing score counts as 0), a permutation of the input, equal scores in input order |
| IdeaSearch.WithKeyRelevant | lib/pinecone.ts:117 | ideas whose sort key is above 0.7 are all kept, in order |
| IdeaSearch.FilterThenSort | lib/pinecone.ts:116-118 | filter then sort gives every relevant idea as often as found, sorted, equal scores in the order found |
| IdeaSearch.GetIdeaRecommendations | lib/pinecone.ts:100-123 | a `null` entry among the last five or a blank context returns `[]` with no search; otherwise one search for the context with limit 3, and the result holds every relevant search result exactly as often as found and nothing else, sorted by descending score, equal scores in the order found |
| IdeaSearch.RecommendationsAtMostThree | lib/pinecone.ts:113 | at most three recommendations |
| IdeaSearch.RecommendationsUseLastFive | lib/pinecone.ts:103-106 | entries before the last five do not change the recommendations |
| MemoryStore.ZeroVector | lib/vector.ts:85 | 1536 zeros |
| MemoryStore.GenerateEmbedding | lib/vector.ts:74-87 | the service's vector, or 1536 zeros when the service fails |
| MemoryStore.MemoryIdInjective | lib/vector.ts:29 | `${projectId}-${Date.now()}` determines both the project and the millisecond, whatever dashes the projectId holds |
| MemoryStore.MemoryMetadata | lib/vector.ts:31-36 | projectId and content, overridden by the caller's metadata, and a timestamp nothing overrides |
| MemoryStore.SameMillisecondOverwrites | lib/vector.ts:28-37 | two saves for one project in one millisecond share an id, so the later replaces the earlier |
| MemoryStore.DistinctSavesKept | lib/vector.ts:28-37 | saves for different projects or milliseconds never replace each other |
| MemoryStore.MemorySearchRequest | lib/vector.ts:54-61 | every memory query is filtered by the project |
| MemoryStore.SearchHits | lib/vector.ts:45-72 | one `{content, score, metadata}` hit per match; a query error or missing list gives `[]` |
| MemoryStore.SearchHitsScoped | lib/vector.ts:54-67 | at most `topK` hits, each a record of the project asked about |
| MemoryStore.EnsuredIndexes | lib/vector.ts:89-118 | the memory index exists afterwards; it is created with 1536 dimensions and cosine only when missing; other indexes are kept |
| MemoryStore.EnsureIdempotent | lib/vector.ts:94-109 | ensuring twice is ensuring once |
| MemoryStore.VectorModule.GetPineconeClient | lib/vector.ts:10-17 | the client is constructed on the first call only, and the same client is returned afterwards |
| MemoryStore.VectorModule.SaveToVectorDB | lib/vector.ts:19-43 | one upsert of the memory record under `MemoryId` into the 1536-dimension memory index; a write the service refuses (unreachable, wrong dimension, metadata not flat) is swallowed and changes nothing; an existing client is kept, otherwise one is created |
| MemoryStore.VectorModule.SearchVectorDB | lib/vector.ts:45-72 | returns `SearchHits` and changes no record; an existing client is kept, otherwise one is created |
| MemoryStore.VectorModule.EnsureVectorIndex | lib/vector.ts:89-118 | the account's indexes become `EnsuredIndexes`; a failed listing changes nothing; an existing client is kept, otherwise one is created |
| ChatService.ContextTexts | lib/api/chat.ts:56 | one text per memory hit, in retrieval order, as `join` renders it (an array as its elements joined by commas) |
| ChatService.SystemPromptCarriesContext | lib/api/chat.ts:53-59 | the prompt opens and closes with the fixed text, and its middle splits back into the retrieved contents in order |
| ChatService.GenerationRequest | lib/api/chat.ts:61-69 | gpt-4, system prompt then user message, 500 tokens, temperature 0.7 |
| ChatService.ReplyText | lib/api/chat.ts:71-73 | the first choice's content, or the fixed apology when it is empty; no choice at all is an error |
| ChatService.GenerateAIResponse | lib/api/chat.ts:52-74 | a reply is never empty; a service error is an error; otherwise the reply is `ReplyText` of the service's choices |
| ChatService.TriggeredKinds | lib/api/chat.ts:80-114 | each kind at most once, exactly when one of its two words occurs in the lower-cased message, in the order problem, insight, persona, solution |
| ChatService.PlacedAll | lib/api/chat.ts:81-113 | object `i` uses random values `2i` and `2i+1` |
| ChatService.AnalyzeForCanvasObjects | lib/api/chat.ts:76-117 | the four pushes produce exactly `CanvasObjects(userMessage)`; the reply is not consulted |
| ChatService.CanvasObjectsClassified | lib/api/chat.ts:80-114 | at most four objects, one per triggered kind, in classifier order |
| ChatService.CanvasObjectsContent | lib/api/chat.ts:83 | the content is the message's first 50 characters followed by `...` |
| ChatService.CanvasObjectsInArea | lib/api/chat.ts:84-85 | with random values in [0, 1), objects lie in 50 <= x < 350, 50 <= y < 250 |
| ChatService.TriggeredKindsIgnoreCase | lib/api/chat.ts:80 | a message and its lower-cased form propose the same kinds |
| ChatService.MessageTable.Save | lib/api/chat.ts:13-17 | appends the row unless the database refuses the write; every write is counted |
| ChatService.HitJson | lib/api/chat.ts:35 | a hit as JSON has `content`, `score` and `metadata` exactly when the hit has them, with their values |
| ChatService.ReplyMetadata | lib/api/chat.ts:33-36 | `{type: 'ai_response', context}` where context entry `i` is hit `i` as JSON |
| ChatService.ReplyRecordMetadata | lib/api/chat.ts:33-36 | the remembered reply has the reply as content, the type, the project, the timestamp, and context entry `i` is hit `i`; the metadata is flat iff there are no hits |
| ChatService.StoreReplyFacts | lib/api/chat.ts:26-45 | the reply's end of the call succeeds iff the table takes the reply, which is then appended and remembered |
| ChatService.SendSucceedsIffNothingFails | lib/api/chat.ts:10-50 | success iff both writes are taken and the model answers; every failure is `Failed to send message` |
| ChatService.SendStoresMessagesInOrder | lib/api/chat.ts:13-30 | the user's message is stored first and the reply second; nothing else reaches the table |
| ChatService.SendRemembersOnlyReplies | lib/api/chat.ts:33-36 | the memory changes only on success, by one record holding the reply and its hits; with any hit the service refuses it and the memory is unchanged |
| ChatService.ChatBackend.SendMessage | lib/api/chat.ts:10-50 | the returned outcome and the new state of table and memory are `SendEffect` of the old state; an existing memory client is kept (`VectorModule.ClientKept`) |
| ChatService.ChatBackend.Respond | lib/api/chat.ts:20-24 | recall, then generate; a generation error ends the call; an existing memory client is kept (`VectorModule.ClientKept`) |
| ChatService.ChatBackend.StoreReply | lib/api/chat.ts:25-45 | stores the reply, remembers it, then proposes the canvas objects; an existing memory client is kept (`VectorModule.ClientKept`) |
| ChatRoute.HistoryMessages | app/api/chat/route.ts:36-39 | one message per history entry, in order: assistant iff `isAI` is truthy, content `msg.text`; a `null` entry throws |
| ChatRoute.ModelMessages | app/api/chat/route.ts:34-41 | system prompt first, the history in order, the new message last |
| ChatRoute.AnswerText | app/api/chat/route.ts:50 | the first choice's content, or the fixed apology; never empty |
| ChatRoute.Unavailable | app/api/chat/route.ts:61-75 | status 200, `success: false`, the pool reply at `floor(random * 5)` |
| ChatRoute.Post | app/api/chat/route.ts:8-77 | 400 iff the message is falsy; 500 iff the key is missing; a completion with gpt-3.5-turbo, 300 tokens and 0.7 iff all checks pass; the model's answer on success, a pool reply on any error |
| ChatRoute.ReplyIsAnswerOrPool | app/api/chat/route.ts:50-75 | every status-200 reply is the model's text, the apology or a pool reply |
| ChatRoute.HistoryInOrder | app/api/chat/route.ts:34-41 | history entry `i` is message `i + 1` sent to the model |
| SearchRoute.IdeasJson | app/api/search/route.ts:14-17 | the `ideas` array holds each found idea, in order, as the object it is |
| SearchRoute.Post | app/api/search/route.ts:4-28 | 400 `Query is required` iff the query is missing or empty, with no search; otherwise `success: true` with one search with the limit (5 when absent), or `[]` when the limit is not a whole number; an unreadable body gives `ideas: []` and `success: false` |
| SearchRoute.QueryLimit | app/api/search/route.ts:6 | an absent limit is 5; a whole number is passed on as `topK`; `null` or any other value gives no usable limit |
| SearchRoute.SearchRouteBounded | app/api/search/route.ts:6-12 | at most `limit` ideas, and at most 5 without a limit |
| MarketRoute.ChooseInsights | app/api/market-analysis/route.ts:12-24 | the live result unchanged when it is truthy and its `problems` has a length other than 0, otherwise the fallback table's insights (none when the idea is not a string); the chosen insights always pass that test |
| MarketRoute.LiveInsightsKeptAsIs | app/api/market-analysis/route.ts:15-17 | a live object with a non-empty `problems` list is answered as it is, with no property added |
| MarketRoute.EmptyLiveFallsBack | app/api/market-analysis/route.ts:17-24 | `null`, an object without `problems` and an empty `problems` list all give the fallback insights |
| MarketRoute.AnalysisMetadataFacts | app/api/market-analysis/route.ts:27-31 | the metadata holds the type `market_analysis`, and `problems` and `source` exactly when defined, with their values; it is flat iff those two are |
| MarketRoute.AnalysisRecordMetadata | app/api/market-analysis/route.ts:27-31 | the remembered analysis holds the summary, the project, the timestamp and that metadata; the service can store it iff the copied `problems` and `source` are flat |
| MarketRoute.FallbackRecordIsFlat | app/api/market-analysis/route.ts:27-31 | the fallback analysis is remembered with its summary, its problems and its source, and is always flat |
| MarketRoute.Post | app/api/market-analysis/route.ts:6-45 | 500 iff the body is unreadable or no insights exist, with memory unchanged; otherwise exactly one memory write of the analysis, and the chosen insights unchanged in the response; an existing memory client is kept (`VectorModule.ClientKept`) |
| FallbackData.CategoryOf | lib/fallback-data.ts:32 | the category stored under a key, exactly when one is |
| FallbackData.FirstMatch | lib/fallback-data.ts:22-26 | the first rule, in table order, whose keyword occurs |
| FallbackData.DetectCategory | lib/fallback-data.ts:1-28 | `general` iff no keyword occurs in the lower-cased idea; otherwise the category of the earliest matching keyword |
| FallbackData.DetectCategoryIgnoresCase | lib/fallback-data.ts:21 | case does not change the category |
| FallbackData.PlantBeforeFitness | lib/fallback-data.ts:2-26 | "Plant fitness" is plant care: the earlier row wins |
| FallbackData.DetectedCategoryIsKey | lib/fallback-data.ts:30-32 | every detected category is a key of the table |
| FallbackData.Data | lib/fallback-data.ts:45-236 | every category lists four problems and four quotes |
| FallbackData.GetFallbackInsights | lib/fallback-data.ts:30-43 | four problems, four quotes, mixed sentiment, confidence 0.7, source `Fallback Database` |
| FallbackData.FallbackSummaryQuotesIdea | lib/fallback-data.ts:35 | the summary quotes the idea verbatim after its fixed opening |
| FallbackData.FallbackInsightsFromTable | lib/fallback-data.ts:31-38 | problems, quotes and statistics are the detected category's own row |
| EnvLines.KeyValueAroundFirstEquals | auto-fix-deploy.js:16-17 | the key is the trimmed text before the first `=`, the value the trimmed rest, later `=` included |
| EnvLines.KeyValueOf | auto-fix-deploy.js:16-17 | the line `a=b` with no `=` in `a` has key `trim(a)` and value `trim(b)` |
| EnvLines.AssignedDefined | auto-fix-deploy.js:14-19 | a key is defined iff an accepted line names it |
| EnvLines.AssignedLastWins | auto-fix-deploy.js:14-19 | the last accepted line naming a key gives its value |
| EnvLines.EnvOfDefined | test-api-keys.js:15-21 | a variable is defined iff an accepted line names it |
| EnvLines.EnvOfLastWins | test-api-keys.js:15-21 | the last occurrence wins |
| EnvLines.AssignedSameTest | test-api-keys.js:16 | parsers whose line tests agree read the same variables |
| EnvLines.AssignedAppend | auto-fix-deploy.js:68 | an appended setting followed by an ignored line wins over earlier ones |
| AutoFixDeploy.ReadEnvFile | auto-fix-deploy.js:10-25 | the read loop computes `EnvOf` over the accepted lines; an unreadable file gives `{}` |
| AutoFixDeploy.MissingApiKeyAloneIsFine | auto-fix-deploy.js:35-48 | an absent API key alone triggers no fix |
| AutoFixDeploy.FirstWholeLine | auto-fix-deploy.js:57-64 | the leftmost position where the pattern fills a whole line, in multiline mode |
| AutoFixDeploy.ReplaceFirstLine | auto-fix-deploy.js:57-64 | the non-global replace rewrites only the leftmost whole-line match and keeps everything else |
| AutoFixDeploy.FixEnvFile | auto-fix-deploy.js:28-81 | unchanged iff no check fails; a crash iff the file it must rewrite is unreadable; otherwise both placeholders are commented out and the default index name is appended iff missing |
| AutoFixDeploy.SettingLine | auto-fix-deploy.js:15-17 | a `k=v` line with a plain key is accepted, with key `k` and value `v` |
| AutoFixDeploy.IndexNameDefaultIsSetting | auto-fix-deploy.js:68 | the appended line sets `PINECONE_INDEX_NAME` to `ai-cofounder-ideas` |
| AutoFixDeploy.SplitAppendedLine | auto-fix-deploy.js:68 | appending `\n line \n` adds that line and an empty one |
| AutoFixDeploy.RewriteSetsIndexName | auto-fix-deploy.js:67-69 | when the index name was missing, reading the rewritten file finds the default |
| ApiKeys.ReadEnvVars | test-api-keys.js:11-24 | the read loop computes `EnvOf` over lines holding `=` and not opening with `#`; an unreadable file gives `{}` |
| ApiKeys.SameVariablesAsDeployScript | test-api-keys.js:16 | this script and the deployment script read the same variables from every file |
| ApiKeys.NoUnderscoreIsSecure | test-api-keys.js:44 | a non-empty value without `_` is never flagged as a placeholder |
| ApiKeys.HyphenatedPlaceholderPasses | test-api-keys.js:44 | `your-pinecone-api-key` is accepted as secure |
| ApiKeys.SecureIsPresent | test-api-keys.js:43-44 | a secure value is present |
| ApiKeys.ReportFor | test-api-keys.js:42-52 | missing iff not present; otherwise the length, the secure flag and exactly the first 10 characters |
| ApiKeys.CheckKeys | test-api-keys.js:30-56 | one report per required key, in order; `allKeysPresent` iff every key is present and secure |
| ApiKeys.MissingProbeKeyFailsApis | test-api-keys.js:65-125 | a missing OpenAI key, Supabase credential or Pinecone key fails its probe, so the verdict is never all working and the API advice is printed |
| ApiKeys.Overall | test-api-keys.js:162-175 | exactly one of: all working, keys present but an API failing, keys missing |
| ApiKeys.Recommendations | test-api-keys.js:177-191 | advice about keys iff a key failed, about APIs iff an API failed, all three deployment steps iff nothing failed; each once, in print order |
| SupabaseEnv.SecondSegment | test-supabase-connection.js:16-19 | the trimmed text between the first and the second `=` |
| SupabaseEnv.LastValueOfLastLine | test-supabase-connection.js:14-21 | the last line with the exact prefix decides the value |
| SupabaseEnv.LastValueNone | test-supabase-connection.js:7-21 | without such a line the value stays empty |
| SupabaseEnv.ReadCredentials | test-supabase-connection.js:7-24 | the loop leaves `LastValue` for each prefix; an unreadable file leaves both empty |
| SupabaseEnv.Start | test-supabase-connection.js:30-35 | exit code 1 iff either value is empty; otherwise a client with exactly the values read |
| SupabaseEnv.SecondEqualsDropped | test-supabase-connection.js:16-19 | on `KEY=a=b` this reader keeps `a`, the general parser `a=b`: they differ |
| SupabaseEnv.IndentedLineIgnored | test-supabase-connection.js:15-18 | an indented line is skipped here, but the general parser reads it |
| SupabaseEnv.CredentialKeysArePlain | test-supabase-connection.js:15-18 | both keys are plain, so the two lemmas above apply to them |

## Left out

- Console output. No `console.log` or `console.error` message is modelled.
- The deployment script's `deployChanges` and `checkHealth` (git commands and network polling) are not modelled.
- The three `fetch` probes of the API key checker are not modelled. Their results are the boolean inputs of `ApiKeys.Overall` and `ApiKeys.Recommendations`.
- `ChatRoute.Post`: the OpenAI client that `app/api/chat/route.ts` builds when the module loads is not modelled. The model assumes the module loaded, so an absent key reaches the handler's own 500 `OpenAI API key not configured`. If the SDK refuses to construct a client without a key, that branch is answered only for an empty key, and module loading itself fails for an absent one.
- The Supabase table queries after the client is created (`testConnection`, network) are not modelled.
- `lib/twitter.ts` is not part of this model. Its result is the `live` input of `MarketRoute.ChooseInsights`: any JSON value the model's output parses to (`null` when no tweets were found), or a thrown error.
- `MarketRoute.SummaryText`: a live `summary` that is not a string is remembered as the empty text. The source hands the raw value to the embedding service and the metadata, and what those services make of it is not modelled.
- `lib/database.ts` is not part of this model. `saveMessage` is `ChatService.MessageTable.Save`, and the database's refusals are the table's `outages`.
- Embeddings, similarity scores and the embedding model name are not modelled. The services are function parameters.
- Floating-point arithmetic is not modelled: scores, random values and canvas positions are reals.
- `Date.now()` and `new Date().toISOString()` are parameters. The timestamp's format is not modelled.
- `ChatService.ContentText`: a number, alone or inside an array, renders as the empty string rather than as JavaScript's number formatting.
- `IdeaSearch.EntryTexts`: a history `text` that is a number renders as the empty string, for the same reason (`Text.ElementText`). An `undefined` history entry is represented by `null`, which fails the same way.
- Text lengths count characters, not UTF-16 code units. This affects `ApiKeys.ReportFor` and `ChatService.CanvasObjectsContent` only for characters outside the Basic Multilingual Plane.
- `Text.Lower` lower-cases ASCII A–Z and Cyrillic U+0400–U+042F only. Other Unicode case mappings (Latin-1 `À`–`Þ` included) are not modelled.
- `SearchRoute.Post`: a `query` or `projectId` that is not a string is treated as absent.
- `MarketRoute.Post`: an `idea` that is not a string is treated as absent.
- `MarketRoute.Post`: an absent `projectId` is not modelled. The source then writes under the id `undefined-<ms>`, with no `projectId` in the metadata.
- `IdeaSearch.Score`: a `score` (the metadata may override the match's) that is a string, an array or an object reads as no score. JavaScript would convert it to a number for `> 0.7` and for the sort, so `"0.9"` would be kept. Numbers and booleans are modelled.
- `SearchRoute.QueryLimit`: a limit that is a fraction, a string or a boolean is taken to make the query fail, as `null` does. The service's own argument checks are not modelled in detail.
- `Pinecone.FlatMetadata`: the service's size limits on metadata are not modelled.
- Metadata keys with special meaning to JavaScript objects (`__proto__`) are treated as ordinary keys.
- The file writes of `fixEnvFile` (`.env.fixed`, then the copy over `.env`) are not modelled. `AutoFixDeploy.FixEnvFile` returns the content written.
- `AutoFixDeploy.FixEnvFile` assumes that the second read of `.env` sees the same content as the first.
- `AutoFixDeploy.RewriteSetsIndexName`: proved only for the case where the index name was missing. When it was set, the rewrite leaves it to `ReplaceFirstLine`, and no lemma about that case is stated.
- Concurrency is not modelled. Each handler and each `sendMessage` is one sequential step.
