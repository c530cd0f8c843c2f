/** The webhook conversation logic of the module build: the three async
    operations that talk to the webhook, each as a pure function of its
    inputs and of the outcome of the one `fetch` it may issue. Displayed
    messages are returned in the order they are appended to the chat. */
module ChatOperations {
  import opened JsValue

  datatype Sender = User | Bot

  /** One `addMessageFunc(container, text, sender)` call. The text is whatever
      value the code passes, which for bot replies need not be a string. */
  datatype Display = Display(text: Json, sender: Sender)

  /** A POST to the webhook: the URL value and the body before `JSON.stringify`. */
  datatype Request = Request(url: Json, body: Json)

  /** What `fetch` and `response.json()` produce. `body` is `None` when the
      body is not valid JSON, so that `response.json()` rejects. */
  datatype FetchOutcome = NetworkError | Http(status: int, body: Option<Json>)

  /** The observable effect of one operation: the messages it displays, the
      request it issues, and the session id it installs through its setter. */
  datatype ChatStep = ChatStep(displayed: seq<Display>, request: Option<Request>, session: Option<string>)

  const ConnectFallback: string := "Sorry, I couldn't connect to the chat service. Please try again later."
  const SendFallback: string := "Sorry, I encountered an error sending your message. Please try again."
  const StartFallback: string := "Sorry, I could not start a new conversation. Please try again later."
  const SendNotConfigured: string := "Cannot send message: Chat service is not configured."
  const SendNoSession: string := "Cannot send message: No active session. Please start a new conversation."
  const StartNotConfigured: string := "Chat service is currently unavailable (webhook not configured)."
  const WelcomeMessage: string :=
    "Hello! I'm your Toratech AI Assistant. How can I help you today? Feel free to ask me any questions."
  const DefaultSession: string := "default-session"
  const DefaultRoute: string := "general"

  function DemoReply(message: string): string {
    "You said: \"" + message + "\". This is a demo response from Toratech AI."
  }

  /** `response.ok`. */
  predicate HttpOk(status: int) {
    200 <= status <= 299
  }

  /** The parsed body of a usable response, or `None` on every path that
      throws before extraction: a transport error, a non-2xx status, or a
      body that is not JSON. */
  function ResponseBody(outcome: FetchOutcome): (r: Option<Json>)
    ensures r.Some? <==> outcome.Http? && HttpOk(outcome.status) && outcome.body.Some?
    ensures r.Some? ==> r == outcome.body
  {
    match outcome
    case NetworkError => None
    case Http(status, body) => if HttpOk(status) then body else None
  }

  function BotSays(text: string): Display {
    Display(Str(text), Bot)
  }

  /** Messages reach the chat only when a display function and a messages
      container are available. */
  function Shown(canDisplay: bool, ds: seq<Display>): seq<Display> {
    if canDisplay then ds else []
  }

  // ---------------------------------------------------------------------
  // Reply extraction
  // ---------------------------------------------------------------------

  /** `a || b || … || last`: the first truthy operand, else `last`. */
  function FirstTruthy(xs: seq<Json>, last: Json): (r: Json)
    ensures r == last || (Truthy(r) && r in xs)
    ensures (exists i :: 0 <= i < |xs| && Truthy(xs[i])) ==> Truthy(r)
    ensures forall i :: 0 <= i < |xs| && Truthy(xs[i]) ==> (exists j :: 0 <= j <= i && r == xs[j])
  {
    if |xs| == 0 then last
    else if Truthy(xs[0]) then xs[0]
    else
      var r := FirstTruthy(xs[1..], last);
      assert forall i :: 1 <= i < |xs| ==> xs[i] == xs[1..][i - 1];
      r
  }

  /** The reply `sendMessage` shows for a parsed body `R`; `None` when reading
      a property throws (the body, or its first element, is `null`). */
  function ExtractReply(R: Json, stringify: Json -> string): (r: Option<Json>)
    ensures r.None? <==> (Nullish(R) || (R.Arr? && |R.items| > 0 && Nullish(R.items[0])))
    ensures R.Arr? && |R.items| > 0 ==> r == Access(R.items[0], "output")
    ensures R.Obj? && Truthy(Get(R, "output")) ==> r == Some(Get(R, "output"))
    ensures R.Str? ==> r == Some(R)
    ensures !R.Obj? && !Nullish(R) && !(R.Arr? && |R.items| > 0) && !R.Str? ==> r == Some(Str(stringify(R)))
    ensures R.Obj? && !Truthy(Get(R, "output")) ==> r == Some(FirstTruthy(FallbackFields(R), Str(stringify(R))))
  {
    if R.Arr? && |R.items| > 0 then Access(R.items[0], "output")
    else if Nullish(R) then None
    else if Truthy(Get(R, "output")) then Some(Get(R, "output"))
    else if R.Str? then Some(R)
    else Some(FirstTruthy(FallbackFields(R), Str(stringify(R))))
  }

  function FallbackFields(R: Json): seq<Json> {
    [Get(R, "message"), Get(R, "response"), Get(R, "text"), Get(R, "content")]
  }

  /** For an object body without a truthy `output`, the fallback fields are
      tried in the fixed order `message`, `response`, `text`, `content`, and
      the serialized body is shown only when all four are falsy. */
  lemma FallbackFieldOrder(R: Json, stringify: Json -> string)
    requires R.Obj? && !Truthy(Get(R, "output"))
    ensures Truthy(Get(R, "message")) ==> ExtractReply(R, stringify) == Some(Get(R, "message"))
    ensures (!Truthy(Get(R, "message")) && Truthy(Get(R, "response"))) ==>
              ExtractReply(R, stringify) == Some(Get(R, "response"))
    ensures (!Truthy(Get(R, "message")) && !Truthy(Get(R, "response")) && Truthy(Get(R, "text"))) ==>
              ExtractReply(R, stringify) == Some(Get(R, "text"))
    ensures (!Truthy(Get(R, "message")) && !Truthy(Get(R, "response")) && !Truthy(Get(R, "text"))
             && Truthy(Get(R, "content"))) ==>
              ExtractReply(R, stringify) == Some(Get(R, "content"))
    ensures (!Truthy(Get(R, "message")) && !Truthy(Get(R, "response")) && !Truthy(Get(R, "text"))
             && !Truthy(Get(R, "content"))) ==>
              ExtractReply(R, stringify) == Some(Str(stringify(R)))
  {
    var d := Str(stringify(R));
    var m, p, t, c := Get(R, "message"), Get(R, "response"), Get(R, "text"), Get(R, "content");
    assert [m, p, t, c][1..] == [p, t, c] && [p, t, c][1..] == [t, c] && [t, c][1..] == [c] && [c][1..] == [];
    assert FirstTruthy([c], d) == if Truthy(c) then c else d;
    assert FirstTruthy([t, c], d) == if Truthy(t) then t else FirstTruthy([c], d);
    assert FirstTruthy([p, t, c], d) == if Truthy(p) then p else FirstTruthy([t, c], d);
    assert FirstTruthy([m, p, t, c], d) == if Truthy(m) then m else FirstTruthy([p, t, c], d);
  }

  /** The shorter extraction of `submitMessageToServer` and
      `initiateNewConversationSession`: `R[0].output` for a non-empty array,
      `R.output` otherwise. */
  function ShortReply(R: Json): (r: Option<Json>)
    ensures r.None? <==> (Nullish(R) || (R.Arr? && |R.items| > 0 && Nullish(R.items[0])))
    ensures R.Arr? && |R.items| > 0 && !Nullish(R.items[0]) ==> r == Some(Get(R.items[0], "output"))
    ensures R.Obj? ==> r == Some(Get(R, "output"))
    ensures !R.Obj? && !Nullish(R) && !(R.Arr? && |R.items| > 0) ==> r == Some(Undefined)
  {
    if R.Arr? && |R.items| > 0 then Access(R.items[0], "output") else Access(R, "output")
  }

  // ---------------------------------------------------------------------
  // sendMessage
  // ---------------------------------------------------------------------

  function SendBody(config: Json, message: string): Json {
    Obj(map[
      "action" := Str("sendMessage"),
      "sessionId" := Or(Get(config, "sessionId"), Str(DefaultSession)),
      "route" := Or(Get(config, "webhook_route"), Str(DefaultRoute)),
      "chatInput" := Str(message),
      "metadata" := Obj(map["userId" := Str("")])
    ])
  }

  /** `sendMessage(elements, message, addMessage, log, config)`. */
  function SendMessage(config: Json, message: string, outcome: FetchOutcome, stringify: Json -> string): (r: ChatStep)
    ensures Trim(message) == "" ==> r == ChatStep([], None, None)
    ensures Trim(message) != "" ==>
              && |r.displayed| == 2
              && r.displayed[0] == Display(Str(message), User)
              && r.displayed[1].sender == Bot
    ensures r.session == None
    ensures r.request.Some? <==> Trim(message) != "" && Truthy(config) && Truthy(Get(config, "webhook_url"))
    ensures r.request.Some? ==>
              && r.request.value.url == Get(config, "webhook_url")
              && Get(r.request.value.body, "action") == Str("sendMessage")
              && Get(r.request.value.body, "chatInput") == Str(message)
              && (Truthy(Get(config, "sessionId")) ==> Get(r.request.value.body, "sessionId") == Get(config, "sessionId"))
              && (!Truthy(Get(config, "sessionId")) ==> Get(r.request.value.body, "sessionId") == Str(DefaultSession))
              && (Truthy(Get(config, "webhook_route")) ==> Get(r.request.value.body, "route") == Get(config, "webhook_route"))
              && (!Truthy(Get(config, "webhook_route")) ==> Get(r.request.value.body, "route") == Str(DefaultRoute))
    ensures r.request.Some? && ResponseBody(outcome).None? ==> r.displayed[1] == BotSays(ConnectFallback)
    ensures r.request.Some? && ResponseBody(outcome).Some? ==>
              match ExtractReply(ResponseBody(outcome).value, stringify)
              case None => r.displayed[1] == BotSays(ConnectFallback)
              case Some(t) => r.displayed[1] == Display(t, Bot)
    ensures Trim(message) != "" && r.request.None? ==> r.displayed[1] == BotSays(DemoReply(message))
  {
    if Trim(message) == "" then ChatStep([], None, None)
    else
      var user := Display(Str(message), User);
      if Truthy(config) && Truthy(Get(config, "webhook_url")) then
        var reply := match ResponseBody(outcome)
          case None => BotSays(ConnectFallback)
          case Some(R) =>
            match ExtractReply(R, stringify)
            case None => BotSays(ConnectFallback)
            case Some(t) => Display(t, Bot);
        ChatStep([user, reply], Some(Request(Get(config, "webhook_url"), SendBody(config, message))), None)
      else
        ChatStep([user, BotSays(DemoReply(message))], None, None)
  }

  // ---------------------------------------------------------------------
  // submitMessageToServer
  // ---------------------------------------------------------------------

  function SubmitBody(sessionId: string, messageText: string): Json {
    Obj(map[
      "action" := Str("sendMessage"),
      "sessionId" := Str(sessionId),
      "route" := Str(DefaultRoute),
      "chatInput" := Str(messageText),
      "metadata" := Obj(map["userId" := Str("")])
    ])
  }

  /** `submitMessageToServer(config, log, currentSessionId, messageText, ui, addMessage)`;
      `canDisplay` abstracts `addMessageFunc && ui.messagesContainerElement`. */
  function SubmitMessageToServer(config: map<string, Json>, sessionId: string, messageText: string,
                                 canDisplay: bool, outcome: FetchOutcome): (r: ChatStep)
    ensures r.session == None
    ensures !canDisplay ==> r.displayed == []
    ensures !Truthy(Lookup(config, "webhook_url")) ==> r == ChatStep(Shown(canDisplay, [BotSays(SendNotConfigured)]), None, None)
    ensures Truthy(Lookup(config, "webhook_url")) && sessionId == "" ==>
              r == ChatStep(Shown(canDisplay, [BotSays(SendNoSession)]), None, None)
    ensures r.request.Some? <==> Truthy(Lookup(config, "webhook_url")) && sessionId != ""
    ensures r.request.Some? ==>
              && r.request.value.url == Lookup(config, "webhook_url")
              && Get(r.request.value.body, "sessionId") == Str(sessionId)
              && Get(r.request.value.body, "route") == Str(DefaultRoute)
              && Get(r.request.value.body, "chatInput") == Str(messageText)
    ensures r.request.Some? && canDisplay ==>
              && 1 <= |r.displayed| <= 2
              && r.displayed[0] == Display(Str(messageText), User)
              && (ResponseBody(outcome).None? ==> r.displayed == [Display(Str(messageText), User), BotSays(SendFallback)])
              && (forall i :: 1 <= i < |r.displayed| ==> r.displayed[i].sender == Bot)
    ensures r.request.Some? && canDisplay && ResponseBody(outcome).Some? ==>
              match ShortReply(ResponseBody(outcome).value)
              case None => r.displayed[1..] == [BotSays(SendFallback)]
              case Some(t) => r.displayed[1..] == (if Truthy(t) then [Display(t, Bot)] else [])
  {
    var url := Lookup(config, "webhook_url");
    if !Truthy(url) then ChatStep(Shown(canDisplay, [BotSays(SendNotConfigured)]), None, None)
    else if sessionId == "" then ChatStep(Shown(canDisplay, [BotSays(SendNoSession)]), None, None)
    else
      var replies := match ResponseBody(outcome)
        case None => [BotSays(SendFallback)]
        case Some(R) =>
          match ShortReply(R)
          case None => [BotSays(SendFallback)]
          case Some(t) => if Truthy(t) then [Display(t, Bot)] else [];
      ChatStep(Shown(canDisplay, [Display(Str(messageText), User)] + replies),
               Some(Request(url, SubmitBody(sessionId, messageText))), None)
  }

  // ---------------------------------------------------------------------
  // initiateNewConversationSession / startNewConversation
  // ---------------------------------------------------------------------

  function StartBody(config: map<string, Json>, sessionId: string): Json {
    Arr([Obj(map[
      "action" := Str("loadPreviousSession"),
      "sessionId" := Str(sessionId),
      "route" := Or(Lookup(config, "webhook_route"), Str(DefaultRoute)),
      "metadata" := Obj(map["userId" := Str("")])
    ])])
  }

  /** `initiateNewConversationSession(config, log, generate, setter, ui, addMessage)`;
      `newId` is the value the generator returns. */
  function InitiateNewConversationSession(config: map<string, Json>, newId: string, canDisplay: bool,
                                          outcome: FetchOutcome): (r: ChatStep)
    ensures !canDisplay ==> r.displayed == []
    ensures !Truthy(Lookup(config, "webhook_url")) ==> r == ChatStep(Shown(canDisplay, [BotSays(StartNotConfigured)]), None, None)
    ensures Truthy(Lookup(config, "webhook_url")) ==>
              && r.session == Some(newId)
              && r.request.Some?
              && r.request.value.url == Lookup(config, "webhook_url")
              && r.request.value.body.Arr? && |r.request.value.body.items| == 1
              && Get(r.request.value.body.items[0], "action") == Str("loadPreviousSession")
              && Get(r.request.value.body.items[0], "sessionId") == Str(newId)
    ensures Truthy(Lookup(config, "webhook_url")) && canDisplay && ResponseBody(outcome).None? ==>
              r.displayed == [BotSays(StartFallback)]
    ensures Truthy(Lookup(config, "webhook_url")) && canDisplay && ResponseBody(outcome).Some?
              && ShortReply(ResponseBody(outcome).value).None? ==>
              r.displayed == [BotSays(StartFallback)]
    ensures Truthy(Lookup(config, "webhook_url")) && canDisplay && ResponseBody(outcome).Some?
              && ShortReply(ResponseBody(outcome).value).Some? && Truthy(ShortReply(ResponseBody(outcome).value).value) ==>
              r.displayed == [Display(ShortReply(ResponseBody(outcome).value).value, Bot)]
    ensures Truthy(Lookup(config, "webhook_url")) && ResponseBody(outcome).Some?
              && ShortReply(ResponseBody(outcome).value).Some? && !Truthy(ShortReply(ResponseBody(outcome).value).value) ==>
              r.displayed == []
    ensures |r.displayed| <= 1 && forall i :: 0 <= i < |r.displayed| ==> r.displayed[i].sender == Bot
  {
    var url := Lookup(config, "webhook_url");
    if !Truthy(url) then ChatStep(Shown(canDisplay, [BotSays(StartNotConfigured)]), None, None)
    else
      var replies := match ResponseBody(outcome)
        case None => [BotSays(StartFallback)]
        case Some(R) =>
          match ShortReply(R)
          case None => [BotSays(StartFallback)]
          case Some(t) => if Truthy(t) then [Display(t, Bot)] else [];
      ChatStep(Shown(canDisplay, replies), Some(Request(url, StartBody(config, newId))), Some(newId))
  }

  /** `startNewConversation`: installs the generated id and, after its delay,
      shows the fixed welcome message; no request is made. */
  function StartNewConversation(newId: string): (r: ChatStep)
    ensures r.session == Some(newId) && r.request.None?
    ensures r.displayed == [BotSays(WelcomeMessage)]
  {
    ChatStep([BotSays(WelcomeMessage)], None, Some(newId))
  }

  // ---------------------------------------------------------------------
  // Lemmas
  // ---------------------------------------------------------------------

  /** A message is dropped exactly when it is whitespace only: then nothing is
      displayed and no request is issued; otherwise the user's text is shown
      first, once, followed by exactly one bot message. */
  lemma SendDropsExactlyBlankMessages(config: Json, message: string, outcome: FetchOutcome, stringify: Json -> string)
    ensures SendMessage(config, message, outcome, stringify).displayed == [] <==> AllWhitespace(message)
    ensures AllWhitespace(message) ==> SendMessage(config, message, outcome, stringify).request.None?
    ensures !AllWhitespace(message) ==>
              var d := SendMessage(config, message, outcome, stringify).displayed;
              |d| == 2 && d[0] == Display(Str(message), User) && d[1].sender == Bot
  {
    TrimEmptyIffBlank(message);
  }

  /** The two extraction rules throw on the same bodies. Wherever the short
      rule finds a truthy reply the long rule finds the same reply; wherever
      the long rule stops at `output` (a non-empty array, or a truthy
      `output`) the short rule gives the same value; and where they differ,
      the short rule's value is falsy, so nothing is shown for it. */
  lemma ExtractionsAgree(R: Json, stringify: Json -> string)
    ensures ShortReply(R).None? <==> ExtractReply(R, stringify).None?
    ensures ShortReply(R).Some? && Truthy(ShortReply(R).value) ==> ExtractReply(R, stringify) == ShortReply(R)
    ensures (R.Arr? && |R.items| > 0) || Truthy(Get(R, "output")) ==> ShortReply(R) == ExtractReply(R, stringify)
    ensures ShortReply(R) != ExtractReply(R, stringify) ==>
              && ShortReply(R).Some? && !Truthy(ShortReply(R).value)
              && !(R.Arr? && |R.items| > 0) && !Truthy(Get(R, "output"))
  {
  }

  /** Consequence: `sendMessage` and `submitMessageToServer` fail on the same
      outcomes (each then shows its own fallback). Wherever
      `submitMessageToServer` shows a reply, `sendMessage` shows the same one;
      conversely, where `sendMessage` shows a truthy reply and
      `submitMessageToServer` shows none, the body had no usable `output`
      (the reply came from the string body or a fallback field). */
  lemma SendAndSubmitShowSameReply(config: map<string, Json>, sessionId: string, message: string,
                                   outcome: FetchOutcome, stringify: Json -> string)
    requires Truthy(Lookup(config, "webhook_url")) && sessionId != "" && !AllWhitespace(message)
    ensures var s := SendMessage(Obj(config), message, outcome, stringify);
            var t := SubmitMessageToServer(config, sessionId, message, true, outcome);
            var failed := ResponseBody(outcome).None? || ShortReply(ResponseBody(outcome).value).None?;
            && |s.displayed| == 2 && 1 <= |t.displayed| <= 2
            && (failed ==> s.displayed[1] == BotSays(ConnectFallback) && t.displayed[1..] == [BotSays(SendFallback)])
            && (!failed && Truthy(ShortReply(ResponseBody(outcome).value).value) ==>
                  |t.displayed| == 2 && s.displayed[1] == t.displayed[1])
            && (!failed && |t.displayed| == 2 ==> s.displayed[1] == t.displayed[1])
            && (!failed && !Truthy(ShortReply(ResponseBody(outcome).value).value) ==> |t.displayed| == 1)
            && (!failed && Truthy(s.displayed[1].text) && |t.displayed| == 1 ==>
                  && !(ResponseBody(outcome).value.Arr? && |ResponseBody(outcome).value.items| > 0)
                  && !Truthy(Get(ResponseBody(outcome).value, "output")))
  {
    TrimEmptyIffBlank(message);
    assert Get(Obj(config), "webhook_url") == Lookup(config, "webhook_url");
    var s := SendMessage(Obj(config), message, outcome, stringify);
    var t := SubmitMessageToServer(config, sessionId, message, true, outcome);
    match ResponseBody(outcome) {
      case None =>
      case Some(R) =>
        ExtractionsAgree(R, stringify);
        match ShortReply(R) {
          case None =>
          case Some(v) =>
            assert s.displayed[1] == Display(ExtractReply(R, stringify).value, Bot);
            if Truthy(v) {
              assert t.displayed == [Display(Str(message), User), Display(v, Bot)];
            } else {
              assert t.displayed == [Display(Str(message), User)];
            }
        }
    }
  }

  /** A started session is installed whatever the webhook answers, so a
      failed start still leaves the new id active. */
  lemma StartInstallsSessionWhateverTheOutcome(config: map<string, Json>, newId: string, canDisplay: bool,
                                               o1: FetchOutcome, o2: FetchOutcome)
    requires Truthy(Lookup(config, "webhook_url"))
    ensures InitiateNewConversationSession(config, newId, canDisplay, o1).session
         == InitiateNewConversationSession(config, newId, canDisplay, o2).session
         == Some(newId)
    ensures InitiateNewConversationSession(config, newId, canDisplay, o1).request
         == InitiateNewConversationSession(config, newId, canDisplay, o2).request
  {
  }

  /** The documented response shapes and what `sendMessage` shows for each. */
  lemma ExtractionExamplesWrapped(stringify: Json -> string)
    ensures ExtractReply(Arr([Obj(map["output" := Str("hi")])]), stringify) == Some(Str("hi"))
    ensures ExtractReply(Arr([EmptyObj]), stringify) == Some(Undefined)
    ensures ExtractReply(Arr([Null]), stringify) == None
  {
  }

  lemma ExtractionExamplesPlain(stringify: Json -> string)
    ensures ExtractReply(Obj(map["output" := Str("hi")]), stringify) == Some(Str("hi"))
    ensures ExtractReply(Str("hi"), stringify) == Some(Str("hi"))
    ensures ExtractReply(Null, stringify) == None
  {
  }

  lemma ExtractionExamplesFallback(stringify: Json -> string)
    ensures ExtractReply(Obj(map["message" := Str("hi")]), stringify) == Some(Str("hi"))
    ensures ExtractReply(EmptyObj, stringify) == Some(Str(stringify(EmptyObj)))
    ensures ExtractReply(Arr([]), stringify) == Some(Str(stringify(Arr([]))))
  {
    var m := Obj(map["message" := Str("hi")]);
    assert FallbackFields(m)[0] == Str("hi");
  }

  /** The fallback fields are tried in their fixed order: `message` before
      `text`, whatever else the body holds. */
  lemma ExtractionExamplesOrder(stringify: Json -> string)
    ensures ExtractReply(Obj(map["message" := Str("a"), "text" := Str("b")]), stringify) == Some(Str("a"))
    ensures ExtractReply(Obj(map["output" := Str(""), "text" := Str("b")]), stringify) == Some(Str("b"))
  {
    var both := Obj(map["message" := Str("a"), "text" := Str("b")]);
    assert Get(both, "message") == Str("a");
    FallbackFieldOrder(both, stringify);
    var textOnly := Obj(map["output" := Str(""), "text" := Str("b")]);
    assert Get(textOnly, "message") == Undefined && Get(textOnly, "response") == Undefined;
    assert Get(textOnly, "text") == Str("b");
    FallbackFieldOrder(textOnly, stringify);
  }

  /** `submitMessageToServer` shows the `output` of a plain or an
      array-wrapped reply. */
  lemma SubmitExamples(sessionId: string)
    requires sessionId != ""
    ensures var config := map["webhook_url" := Str("https://hook")];
            && SubmitMessageToServer(config, sessionId, "q", true, Http(200, Some(Obj(map["output" := Str("hi")])))).displayed
               == [Display(Str("q"), User), BotSays("hi")]
            && SubmitMessageToServer(config, sessionId, "q", true, Http(200, Some(Arr([Obj(map["output" := Str("hi")])])))).displayed
               == [Display(Str("q"), User), BotSays("hi")]
  {
  }

  /** A webhook answering a new session with `[{output: "Welcome!"}]` gets
      exactly that greeting shown, under the freshly installed id. */
  lemma SessionStartExample(newId: string)
    ensures var r := InitiateNewConversationSession(map["webhook_url" := Str("https://hook")], newId, true,
                                                    Http(200, Some(Arr([Obj(map["output" := Str("Welcome!")])]))));
            r.displayed == [BotSays("Welcome!")] && r.session == Some(newId)
  {
  }
}
