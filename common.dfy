/** Shared vocabulary of the model: optional values, the outcome of a call
    into a hosted service, and JSON-like metadata objects. */
module Common {

  datatype Option<+T> = None | Some(value: T) {
    function GetOr(default: T): T {
      match this
      case Some(v) => v
      case None => default
    }
  }

  /** What a call into a remote service (OpenAI, Pinecone, Supabase) produced:
      a value, or a thrown error. */
  datatype Remote<+T> = Ok(value: T) | Failed

  /** A JSON value as it travels in request bodies and vector metadata. */
  datatype Json =
    | JNull
    | JBool(b: bool)
    | JNum(n: real)
    | JStr(s: string)
    | JArr(items: seq<Json>)
    | JObj(fields: map<string, Json>)

  /** A JavaScript object literal. Keys whose value is `undefined` are absent. */
  type Obj = map<string, Json>

  /** The object `{...a, ...b}`: every key of `b` overrides the same key of `a`. */
  function Spread(a: Obj, b: Obj): (r: Obj)
    ensures r.Keys == a.Keys + b.Keys
    ensures forall k :: k in b ==> r[k] == b[k]
    ensures forall k :: k in a && k !in b ==> r[k] == a[k]
  {
    a + b
  }

  /** `{k: v}` when `v` is defined, `{}` when it is `undefined`. */
  function Field(k: string, v: Option<Json>): (r: Obj)
    ensures k in r <==> v.Some?
    ensures r.Keys <= {k}
    ensures v.Some? ==> r[k] == v.value
  {
    match v
    case Some(x) => map[k := x]
    case None => map[]
  }

  /** `o?.[k]`: the property, or `undefined`. */
  function Get(o: Option<Obj>, k: string): (r: Option<Json>)
    ensures r.Some? <==> o.Some? && k in o.value
    ensures r.Some? ==> r.value == o.value[k]
  {
    if o.Some? && k in o.value then Some(o.value[k]) else None
  }

  /** JavaScript truthiness of a property: `undefined`, `null`, `false`, `0`
      and `""` are falsy, every other value (arrays and objects included) is
      truthy. */
  predicate Truthy(v: Option<Json>) {
    match v
    case None => false
    case Some(j) => !(j.JNull? || j == JBool(false) || j == JNum(0.0) || j == JStr(""))
  }

  /** A string-valued property; any other value reads as `undefined` here. */
  function StrOf(v: Option<Json>): Option<string> {
    if v.Some? && v.value.JStr? then Some(v.value.s) else None
  }

  /** A number-valued property; any other value reads as `undefined` here. */
  function NumOf(v: Option<Json>): Option<real> {
    if v.Some? && v.value.JNum? then Some(v.value.n) else None
  }

  /** An HTTP response of a route handler: its status and its JSON body. */
  datatype Response = Response(status: nat, body: Obj)

  /** `NextResponse.json({ error: message }, { status })`. */
  function ErrorResponse(status: nat, message: string): Response {
    Response(status, map["error" := JStr(message)])
  }

  /** A property of a parsed request body: an object's own property; any
      other value (a string, a number, an array) has none of the properties a
      handler reads. */
  function Prop(body: Json, k: string): Option<Json> {
    if body.JObj? && k in body.fields then Some(body.fields[k]) else None
  }

  /** One entry of the `messages` array sent to the completion service: a role
      and a content, which may be `undefined`. */
  datatype ChatMessage = ChatMessage(role: string, content: Option<string>)

  /** `openai.chat.completions.create({model, messages, max_tokens, temperature})`. */
  datatype CompletionRequest = CompletionRequest(model: string, messages: seq<ChatMessage>, maxTokens: nat, temperature: real)

  /** The completion service: the `content` of each returned choice (`null`
      reads as `None`), or a thrown error. */
  type Completer = CompletionRequest -> Remote<seq<Option<string>>>
}
