/** The `POST /api/chat` handler: validation of the request, the message list
    sent to the completion service, and the fixed replies used when that
    service is unavailable. */
module ChatRoute {

  import opened Common

  /** The instructions that open every conversation with the co-founder. */
  const SystemPrompt: string :=
    "Ты - AI-кофаундер, эксперт по предпринимательству и развитию стартапов. \n" +
    "Твоя задача - помочь пользователю пройти путь от идеи до запуска продукта.\n\n" +
    "Твой стиль общения:\n" +
    "- Дружелюбный и мотивирующий\n" +
    "- Конкретный и практичный\n" +
    "- Задаешь правильные вопросы\n" +
    "- Даешь пошаговые рекомендации\n" +
    "- Фокусируешься на действиях\n\n" +
    "Отвечай на русском языке, кратко и по делу. Максимум 2-3 предложения."

  /** The reply when the model's first choice carries no content. */
  const NoAnswer: string := "Извините, не могу ответить сейчас."

  /** The replies one of which is returned when anything throws. */
  const FallbackPool: seq<string> := [
    "Отличная идея! Расскажи подробнее о проблеме, которую решает твой продукт.",
    "Интересно! Кто твоя целевая аудитория?",
    "Хорошо! Как ты планируешь монетизировать эту идею?",
    "Понятно! Какие у тебя есть ресурсы для реализации?",
    "Отлично! С чего ты хочешь начать?"
  ]

  /** One entry of the `messages` array: the content is passed through as the
      client sent it, and may be `undefined`. */
  datatype RouteMessage = RouteMessage(role: string, content: Option<Json>)

  /** `openai.chat.completions.create({model, messages, max_tokens, temperature})`. */
  datatype ChatCompletion = ChatCompletion(model: string, messages: seq<RouteMessage>, maxTokens: nat, temperature: real)

  /** The completion service: the `content` of each returned choice (`None`
      when the choice has no message content), or a thrown error. */
  type RouteCompleter = ChatCompletion -> Remote<seq<Option<string>>>

  /** What the handler answered, and the completion it requested, if any. */
  datatype ChatHandled = ChatHandled(response: Response, completion: Option<ChatCompletion>)

  /** `msg.isAI`, read for truthiness; values other than objects have no such property. */
  predicate IsAI(item: Json) {
    Truthy(Prop(item, "isAI"))
  }

  /** `conversationHistory.map(msg => ({role, content: msg.text}))`: `None`
      when an entry is `null`, whose properties cannot be read. */
  function HistoryMessages(items: seq<Json>): (r: Option<seq<RouteMessage>>)
    ensures r.Some? <==> forall i :: 0 <= i < |items| ==> items[i] != JNull
    ensures r.Some? ==> |r.value| == |items|
    ensures r.Some? ==> forall i :: 0 <= i < |items| ==>
      && (r.value[i].role == "assistant" <==> IsAI(items[i]))
      && (r.value[i].role == "user" <==> !IsAI(items[i]))
      && r.value[i].content == Prop(items[i], "text")
  {
    if items == [] then Some([])
    else if items[0] == JNull then None
    else match HistoryMessages(items[1..])
      case None => None
      case Some(rest) =>
        Some([RouteMessage(if IsAI(items[0]) then "assistant" else "user", Prop(items[0], "text"))] + rest)
  }

  /** `const { conversationHistory = [] }` followed by the `map`: an absent
      history is empty; a value other than an array has no `map` and throws. */
  function ConversationOf(body: Json): Option<seq<RouteMessage>> {
    match Prop(body, "conversationHistory")
    case None => Some([])
    case Some(h) => if h.JArr? then HistoryMessages(h.items) else None
  }

  /** The system prompt first, then the history in its order, then the new
      message last. */
  function ModelMessages(message: Json, history: seq<RouteMessage>): (ms: seq<RouteMessage>)
    ensures |ms| == |history| + 2
    ensures ms[0] == RouteMessage("system", Some(JStr(SystemPrompt)))
    ensures ms[1..|ms| - 1] == history
    ensures ms[|ms| - 1] == RouteMessage("user", Some(message))
  {
    [RouteMessage("system", Some(JStr(SystemPrompt)))] + history + [RouteMessage("user", Some(message))]
  }

  /** `completion.choices[0]?.message?.content || fallback`: a missing choice
      or an empty content gives the fallback; the reply is never empty. */
  function AnswerText(choices: seq<Option<string>>): (r: string)
    ensures r != ""
    ensures choices != [] && choices[0].Some? && choices[0].value != "" ==> r == choices[0].value
    ensures choices == [] || choices[0].None? || choices[0].value == "" ==> r == NoAnswer
  {
    if choices != [] && choices[0].Some? && choices[0].value != "" then choices[0].value else NoAnswer
  }

  /** The successful answer `{response, success: true}`. */
  function Answer(text: string): Response {
    Response(200, map["response" := JStr(text), "success" := JBool(true)])
  }

  /** The answer when anything throws: status 200, `success: false`, and the
      pool entry at `floor(random * 5)`. */
  predicate IsFallback(r: Response) {
    && r.status == 200
    && "response" in r.body && r.body["response"].JStr? && r.body["response"].s in FallbackPool
    && "success" in r.body && r.body["success"] == JBool(false)
    && "error" in r.body && r.body["error"] == JStr("API temporarily unavailable")
  }

  /** `fallbackResponses[Math.floor(Math.random() * fallbackResponses.length)]`,
      with `Math.random()` given as `random`. */
  function Unavailable(random: real): (r: Response)
    requires 0.0 <= random < 1.0
    ensures IsFallback(r)
    ensures r.body["response"] == JStr(FallbackPool[(random * 5.0).Floor])
  {
    var i := (random * 5.0).Floor;
    assert 0 <= i < |FallbackPool|;
    Response(200, map["response" := JStr(FallbackPool[i]), "success" := JBool(false),
                      "error" := JStr("API temporarily unavailable")])
  }

  /** The body was parsed and can be destructured (it is not `null`). */
  predicate Parsed(body: Remote<Json>) {
    body.Ok? && body.value != JNull
  }

  /** `!process.env.OPENAI_API_KEY` is false. */
  predicate KeySet(apiKey: Option<string>) {
    apiKey.Some? && apiKey.value != ""
  }

  /** `POST(request)`. `body` is the result of `request.json()` (`Failed` when
      it throws), `apiKey` the environment variable, `random` the value of
      `Math.random()`. */
  function Post(body: Remote<Json>, apiKey: Option<string>, complete: RouteCompleter, random: real): (h: ChatHandled)
    requires 0.0 <= random < 1.0
    ensures h.response.status in {200, 400, 500}
    ensures h.response.status == 400 <==> Parsed(body) && !Truthy(Prop(body.value, "message"))
    ensures h.response.status == 400 ==> h.response == ErrorResponse(400, "Message is required")
    ensures h.response.status == 500 <==>
      Parsed(body) && Truthy(Prop(body.value, "message")) && !KeySet(apiKey)
    ensures h.response.status == 500 ==> h.response == ErrorResponse(500, "OpenAI API key not configured")
    ensures h.completion.Some? <==>
      Parsed(body) && Truthy(Prop(body.value, "message")) && KeySet(apiKey) && ConversationOf(body.value).Some?
    ensures h.completion.Some? ==>
      h.completion.value == ChatCompletion("gpt-3.5-turbo",
        ModelMessages(Prop(body.value, "message").value, ConversationOf(body.value).value), 300, 0.7)
    ensures h.completion.Some? && complete(h.completion.value).Ok? ==>
      h.response == Answer(AnswerText(complete(h.completion.value).value))
    ensures h.response.status == 200 && !(h.completion.Some? && complete(h.completion.value).Ok?) ==>
      h.response == Unavailable(random)
  {
    if !Parsed(body) then ChatHandled(Unavailable(random), None)
    else
      var message := Prop(body.value, "message");
      if !Truthy(message) then ChatHandled(ErrorResponse(400, "Message is required"), None)
      else if !KeySet(apiKey) then ChatHandled(ErrorResponse(500, "OpenAI API key not configured"), None)
      else match ConversationOf(body.value)
        case None => ChatHandled(Unavailable(random), None)
        case Some(history) =>
          var request := ChatCompletion("gpt-3.5-turbo", ModelMessages(message.value, history), 300, 0.7);
          match complete(request)
          case Failed => ChatHandled(Unavailable(random), Some(request))
          case Ok(choices) => ChatHandled(Answer(AnswerText(choices)), Some(request))
  }

  /** Whatever the request, the reply text is the model's answer, the fixed
      apology, or one of the five pool replies; errors only come with the
      statuses 400 and 500. */
  lemma ReplyIsAnswerOrPool(body: Remote<Json>, apiKey: Option<string>, complete: RouteCompleter, random: real)
    requires 0.0 <= random < 1.0
    ensures var h := Post(body, apiKey, complete, random);
      h.response.status == 200 ==>
        && "response" in h.response.body && h.response.body["response"].JStr?
        && var text := h.response.body["response"].s;
           text in FallbackPool || text == NoAnswer ||
           (h.completion.Some? && complete(h.completion.value).Ok? && text == complete(h.completion.value).value[0].value)
  {
    var h := Post(body, apiKey, complete, random);
    if h.response.status == 200 && h.completion.Some? && complete(h.completion.value).Ok? {
      var choices := complete(h.completion.value).value;
      assert h.response.body["response"] == JStr(AnswerText(choices));
    }
  }

  /** The history entries keep their order and number: entry `i` of the
      history is message `i + 1` sent to the model, as the assistant exactly
      when `isAI` is truthy. */
  lemma HistoryInOrder(body: Remote<Json>, apiKey: Option<string>, complete: RouteCompleter, random: real)
    requires 0.0 <= random < 1.0
    ensures var h := Post(body, apiKey, complete, random);
      h.completion.Some? ==>
        var items := match Prop(body.value, "conversationHistory") case None => [] case Some(v) => v.items;
        var ms := h.completion.value.messages;
        && |ms| == |items| + 2
        && forall i :: 0 <= i < |items| ==>
             (ms[i + 1].role == "assistant" <==> IsAI(items[i])) && ms[i + 1].content == Prop(items[i], "text")
  {
    var h := Post(body, apiKey, complete, random);
    if h.completion.Some? {
      var history := ConversationOf(body.value).value;
      var ms := h.completion.value.messages;
      assert ms[1..|ms| - 1] == history;
      forall i | 0 <= i < |history|
        ensures ms[i + 1] == history[i]
      {
        assert ms[1..|ms| - 1][i] == ms[i + 1];
      }
    }
  }
}
