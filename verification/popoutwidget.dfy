/** The ES-module build of the widget: module-level state (configuration,
    initialized flag, the widget's elements, the current session id), the
    public API, and the handlers the widget's controls are wired to. The DOM
    is reduced to the container's `open` class, the active chat view, the
    textarea's text and the transcript shown. */
module PopoutWidget {
  import opened JsValue
  import opened ObjectMerge
  import opened ChatOperations

  /** The module's built-in configuration. Its webhook sits under
      `webhook.url`, not the top-level `webhook_url` that sending reads. */
  const DefaultConfig: map<string, Json> := map[
    "branding" := Obj(map[
      "logo" := Str("https://cdn.toratech.com/assets/default-logo.png"),
      "name" := Str("Toratech AI Support"),
      "welcomeText" := Str("Hi there! \U{1F44B} How can I assist you today?"),
      "responseTimeText" := Str("We typically respond quickly."),
      "poweredBy" := Obj(map["text" := Str("Powered by Toratech AI"), "link" := Str("https://toratech.ai")])]),
    "style" := Obj(map[
      "primaryColor" := Str("#338AFF"),
      "secondaryColor" := Str("#2072E8"),
      "position" := Str("right"),
      "backgroundColor" := Str("#ffffff"),
      "fontColor" := Str("#333333")]),
    "advanced" := Obj(map[
      "autoInit" := Bool(true),
      "debug" := Bool(false),
      "zIndex" := Num(9999),
      "storageKey" := Str("toratech_chat_prefs"),
      "apiVersion" := Str("v1"),
      "allowProgrammaticOpen" := Bool(false)]),
    "webhook" := Obj(map["url" := Str(""), "route" := Str("")])]

  /** The widget's elements as far as the model needs them: whether the
      container is open, whether the chat view (rather than the start screen)
      is active, the textarea's text, and the messages shown so far. */
  datatype Panel = Panel(open: bool, chatActive: bool, draft: string, transcript: seq<Display>)

  /** The module state. `inDocument` says whether the widget element can
      still be found in the page (the host page may remove it);
      `requests` collects the webhook requests sent so far. */
  datatype Module = Module(config: map<string, Json>, initialized: bool, elements: Option<Panel>,
                           inDocument: bool, sessionId: string, requests: seq<Request>)

  /** A freshly created, closed widget showing the start screen. */
  const FreshPanel: Panel := Panel(false, false, "", [])

  /** `deepMerge({}, base, custom)`, the merge both module loading and `init`
      perform: every key of either survives, the argument's non-object values
      win, and a key the argument lacks keeps the base's value. */
  lemma MergeOver(base: map<string, Json>, custom: Json)
    ensures var r := DeepMerge(Utils, [EmptyObj, Obj(base), custom]);
            && r.Keys == base.Keys + OwnProps(custom).Keys
            && (forall k :: k in OwnProps(custom) && !OwnProps(custom)[k].Obj? ==> r[k] == OwnProps(custom)[k])
            && (forall k :: k in base && k !in OwnProps(custom) ==> r[k] == base[k])
  {
    var xs := [EmptyObj, Obj(base), custom];
    MergeKeys(Utils, xs);
    assert KeyUnion(xs) == base.Keys + OwnProps(custom).Keys by {
      assert xs[..2][..1] == [EmptyObj];
      assert xs[..2] == [EmptyObj, Obj(base)];
      assert [EmptyObj][..0] == [];
      assert KeyUnion([EmptyObj]) == {};
      assert KeyUnion(xs[..2]) == base.Keys;
    }
    forall k | k in OwnProps(custom) && !OwnProps(custom)[k].Obj? {
      LastAssignmentWins(Utils, xs, 2, k);
    }
    assert DeepMerge(Utils, xs[..2]) == base by {
      assert xs[..2][..1] == [EmptyObj];
      assert [EmptyObj][..0] == [];
      assert DeepMerge(Utils, [EmptyObj]) == map[];
      CopyIsMergeIntoEmpty(Utils, Obj(base));
      CopyIdentity(Obj(base));
    }
    assert DeepMerge(Utils, xs) == MergeFields(Utils, base, ArgView(custom));
  }

  /** Module evaluation: the defaults, deep-merged with the page's global
      configuration when it is truthy. */
  function LoadConfig(windowConfig: Json): (r: map<string, Json>)
    ensures !Truthy(windowConfig) ==> r == DefaultConfig
    ensures Truthy(windowConfig) ==> r.Keys == DefaultConfig.Keys + OwnProps(windowConfig).Keys
    ensures Truthy(windowConfig) ==>
              forall k :: k in OwnProps(windowConfig) && !OwnProps(windowConfig)[k].Obj? ==> r[k] == OwnProps(windowConfig)[k]
    ensures Truthy(windowConfig) ==> forall k :: k in DefaultConfig && k !in OwnProps(windowConfig) ==> r[k] == DefaultConfig[k]
  {
    MergeOver(DefaultConfig, windowConfig);
    if Truthy(windowConfig) then DeepMerge(Utils, [EmptyObj, Obj(DefaultConfig), windowConfig]) else DefaultConfig
  }

  /** The state right after the module is evaluated, before any auto-init. */
  function Loaded(windowConfig: Json): (m: Module)
    ensures !m.initialized && m.elements.None? && !m.inDocument && m.sessionId == "" && m.requests == []
    ensures m.config == LoadConfig(windowConfig)
  {
    Module(LoadConfig(windowConfig), false, None, false, "", [])
  }

  /** `init(customConfig)`: on an initialized widget, returns the existing
      elements and ignores the argument; otherwise merges a truthy argument
      over the current configuration and builds a closed widget. */
  function Init(m: Module, custom: Json): (r: (Module, Option<Panel>))
    ensures m.initialized ==> r == (m, m.elements)
    ensures !m.initialized ==>
              && r.0.initialized && r.0.inDocument && r.0.elements == Some(FreshPanel) && r.1 == r.0.elements
              && r.0.sessionId == m.sessionId && r.0.requests == m.requests
    ensures !m.initialized && !Truthy(custom) ==> r.0.config == m.config
    ensures !m.initialized && Truthy(custom) ==> r.0.config == DeepMerge(Utils, [EmptyObj, Obj(m.config), custom])
  {
    if m.initialized then (m, m.elements)
    else
      var config := if Truthy(custom) then DeepMerge(Utils, [EmptyObj, Obj(m.config), custom]) else m.config;
      var r := m.(config := config, initialized := true, elements := Some(FreshPanel), inDocument := true);
      (r, r.elements)
  }

  /** A deep merge over `{}` followed by the current configuration and the
      argument: every key of both survives, and the argument's scalar
      values win. */
  lemma InitMergeKeepsKeys(m: Module, custom: Json, k: string)
    requires !m.initialized && Truthy(custom)
    ensures k in Init(m, custom).0.config <==> k in m.config || k in OwnProps(custom)
    ensures k in OwnProps(custom) && !OwnProps(custom)[k].Obj? ==> Init(m, custom).0.config[k] == OwnProps(custom)[k]
    ensures k in m.config && k !in OwnProps(custom) ==> Init(m, custom).0.config[k] == m.config[k]
  {
    MergeOver(m.config, custom);
  }

  /** `close()`: refuses (false) before initialization; otherwise closes. */
  function Close(m: Module): (r: (Module, bool))
    ensures !r.1 <==> !m.initialized || m.elements.None?
    ensures !r.1 ==> r.0 == m
    ensures r.1 ==> r.0.elements.Some? && !r.0.elements.value.open
    ensures r.0.initialized == m.initialized && r.0.config == m.config && r.0.sessionId == m.sessionId
  {
    if !m.initialized || m.elements.None? then (m, false)
    else (m.(elements := Some(m.elements.value.(open := false))), true)
  }

  /** `destroy()`: refuses before initialization and when the widget element
      is no longer in the page (changing nothing); otherwise removes it and
      forgets the elements. */
  function Destroy(m: Module): (r: (Module, bool))
    ensures !r.1 <==> !m.initialized || !m.inDocument
    ensures !r.1 ==> r.0 == m
    ensures r.1 ==> !r.0.initialized && r.0.elements.None? && !r.0.inDocument
    ensures r.0.config == m.config && r.0.sessionId == m.sessionId && r.0.requests == m.requests
  {
    if !m.initialized || !m.inDocument then (m, false)
    else (m.(initialized := false, elements := None, inDocument := false), true)
  }

  /** The public `open()` and `toggle()`: disabled, they report false. */
  function DisabledCall(m: Module): (r: (Module, bool))
    ensures r == (m, false)
  {
    (m, false)
  }

  /** What can happen to the module: the public API, the page removing the
      widget element, and the user's input on the widget's controls. */
  datatype Event =
    | CallInit(custom: Json)
    | CallOpen
    | CallClose
    | CallToggle
    | CallDestroy
    | HostRemovesWidget
    | ToggleClick
    | ToggleKey(key: string)
    | EscapeKey
    | CloseClick
    | CloseKey(key: string)
    | NewChatClick(newId: string)
    | Type(text: string)
    | SendClick(outcome: FetchOutcome)
    | TextareaKey(key: string, shift: bool, outcome: FetchOutcome)

  /** Keys that activate a focused button. */
  predicate Activates(key: string) {
    key == "Enter" || key == " "
  }

  /** The module with its panel replaced by `p`. */
  function WithPanel(m: Module, p: Panel): Module {
    m.(elements := Some(p))
  }

  /** The toggle button flips the container's `open` class. */
  function Toggle(m: Module): (r: Module)
    ensures m.elements.Some? ==> r.elements.Some? && r.elements.value.open == !m.elements.value.open
    ensures m.elements.None? ==> r == m
  {
    match m.elements
    case None => m
    case Some(p) => WithPanel(m, p.(open := !p.open))
  }

  /** Escape and the close buttons only ever remove the `open` class. */
  function Shut(m: Module): (r: Module)
    ensures m.elements.Some? ==> r.elements.Some? && !r.elements.value.open
    ensures m.elements.None? || !m.elements.value.open ==> r == m
  {
    match m.elements
    case None => m
    case Some(p) => if p.open then WithPanel(m, p.(open := false)) else m
  }

  /** The new-chat button: the new session id becomes current, the chat view
      is shown, and the welcome message appears. */
  function NewChat(m: Module, newId: string): (r: Module)
    ensures m.elements.Some? ==> r.sessionId == newId && r.elements.Some? && r.elements.value.chatActive
    ensures m.elements.Some? ==> r.elements.value.transcript == m.elements.value.transcript + [BotSays(WelcomeMessage)]
    ensures m.elements.None? ==> r == m
  {
    match m.elements
    case None => m
    case Some(p) =>
      var step := StartNewConversation(newId);
      WithPanel(m.(sessionId := step.session.value), p.(chatActive := true, transcript := p.transcript + step.displayed))
  }

  function RequestsOf(request: Option<Request>): seq<Request> {
    match request
    case None => []
    case Some(q) => [q]
  }

  /** The send button and Enter in the textarea: a message is sent only when
      the trimmed text is non-empty, it is the trimmed text that is sent, and
      the textarea is then cleared. The module's configuration is passed;
      the current session id is not. */
  function Dispatch(m: Module, outcome: FetchOutcome, stringify: Json -> string): (r: Module)
    ensures m.elements.None? || Trim(m.elements.value.draft) == "" ==> r == m
    ensures m.elements.Some? && Trim(m.elements.value.draft) != "" ==>
              var step := SendMessage(Obj(m.config), Trim(m.elements.value.draft), outcome, stringify);
              && r.elements.Some? && r.elements.value.draft == ""
              && r.elements.value.transcript == m.elements.value.transcript + step.displayed
              && r.requests == m.requests + RequestsOf(step.request)
              && r.sessionId == m.sessionId
  {
    match m.elements
    case None => m
    case Some(p) =>
      var message := Trim(p.draft);
      if message == "" then m
      else
        var step := SendMessage(Obj(m.config), message, outcome, stringify);
        WithPanel(m.(requests := m.requests + RequestsOf(step.request)),
                  p.(draft := "", transcript := p.transcript + step.displayed))
  }

  /** One event. Enter and space on the toggle and close buttons act as
      their clicks, Enter without Shift in the textarea acts as the send
      button, and any other key there is ignored. Only `init` changes the
      configuration and only "new chat" changes the session id. */
  function Step(m: Module, e: Event, stringify: Json -> string): (r: Module)
    ensures (e.ToggleClick? || (e.ToggleKey? && Activates(e.key))) && m.elements.Some? ==>
              && r.elements.Some? && r.elements.value.open == !m.elements.value.open
              && r.elements.value.transcript == m.elements.value.transcript
    ensures (e.EscapeKey? || e.CloseClick? || (e.CloseKey? && Activates(e.key))) && m.elements.Some? ==>
              r.elements.Some? && !r.elements.value.open
    ensures (e.ToggleKey? || e.CloseKey?) && !Activates(e.key) ==> r == m
    ensures e.TextareaKey? && (e.key != "Enter" || e.shift) ==> r == m
    ensures e.TextareaKey? && e.key == "Enter" && !e.shift ==> r == Dispatch(m, e.outcome, stringify)
    ensures !e.CallInit? ==> r.config == m.config
    ensures !e.NewChatClick? ==> r.sessionId == m.sessionId
  {
    match e
    case CallInit(custom) => Init(m, custom).0
    case CallOpen => DisabledCall(m).0
    case CallClose => Close(m).0
    case CallToggle => DisabledCall(m).0
    case CallDestroy => Destroy(m).0
    case HostRemovesWidget => m.(inDocument := false)
    case ToggleClick => Toggle(m)
    case ToggleKey(key) => if Activates(key) then Toggle(m) else m
    case EscapeKey => Shut(m)
    case CloseClick => Shut(m)
    case CloseKey(key) => if Activates(key) then Shut(m) else m
    case NewChatClick(newId) => NewChat(m, newId)
    case Type(text) =>
      if m.elements.Some? then WithPanel(m, m.elements.value.(draft := text)) else m
    case SendClick(outcome) => Dispatch(m, outcome, stringify)
    case TextareaKey(key, shift, outcome) =>
      if key == "Enter" && !shift then Dispatch(m, outcome, stringify) else m
  }

  /** Auto-initialization at load: `init()` runs when the loaded
      configuration's `advanced.autoInit` is truthy. Reading it throws (and
      nothing is initialized) when `advanced` is `null` or `undefined`. */
  function Start(windowConfig: Json): (r: (Module, bool))
    ensures var c := LoadConfig(windowConfig);
            && (r.1 <==> Nullish(Lookup(c, "advanced")))
            && (r.0.initialized <==> !r.1 && Truthy(Get(Lookup(c, "advanced"), "autoInit")))
  {
    var m := Loaded(windowConfig);
    match Access(Lookup(m.config, "advanced"), "autoInit")
    case None => (m, true)
    case Some(flag) => if Truthy(flag) then (Init(m, Undefined).0, false) else (m, false)
  }

  // ---------------------------------------------------------------------
  // Properties
  // ---------------------------------------------------------------------

  /** Only the toggle button opens the widget: every other event, the
      disabled `open()`/`toggle()` included, leaves a closed widget closed. */
  lemma OnlyToggleOpens(m: Module, e: Event, stringify: Json -> string)
    requires !e.ToggleClick? && !e.ToggleKey?
    requires m.elements.None? || !m.elements.value.open
    ensures var r := Step(m, e, stringify); r.elements.None? || !r.elements.value.open
  {
  }

  /** The current session id never reaches a request: two modules that
      differ only in their session id send the same requests and show the
      same messages, whatever happens. */
  lemma SessionNeverSent(m: Module, id: string, e: Event, stringify: Json -> string)
    requires !e.NewChatClick?
    ensures Step(m.(sessionId := id), e, stringify) == Step(m, e, stringify).(sessionId := id)
  {
  }

  /** Every request a dispatch sends carries `config.sessionId`, or
      `default-session`, as its session, and the trimmed text as input. */
  lemma DispatchedSession(m: Module, outcome: FetchOutcome, stringify: Json -> string)
    requires m.elements.Some? && Trim(m.elements.value.draft) != ""
    requires Truthy(Lookup(m.config, "webhook_url"))
    ensures var r := Dispatch(m, outcome, stringify);
            && |r.requests| == |m.requests| + 1
            && var body := r.requests[|m.requests|].body;
            && Get(body, "sessionId") == Or(Lookup(m.config, "sessionId"), Str(DefaultSession))
            && Get(body, "chatInput") == Str(Trim(m.elements.value.draft))
  {
    assert Get(Obj(m.config), "webhook_url") == Lookup(m.config, "webhook_url");
    assert Get(Obj(m.config), "sessionId") == Lookup(m.config, "sessionId");
    TrimmedNotBlank(m.elements.value.draft);
  }

  /** With a configuration that has no top-level `webhook_url` — the
      module's own defaults among them — sending never reaches the webhook:
      every message gets the demo reply. */
  lemma NoWebhookUrlMeansDemo(m: Module, outcome: FetchOutcome, stringify: Json -> string)
    requires m.elements.Some? && Trim(m.elements.value.draft) != ""
    requires !Truthy(Lookup(m.config, "webhook_url"))
    ensures var r := Dispatch(m, outcome, stringify);
            var message := Trim(m.elements.value.draft);
            && r.requests == m.requests
            && r.elements.Some?
            && r.elements.value.transcript
               == m.elements.value.transcript + [Display(Str(message), User), BotSays(DemoReply(message))]
  {
    var message := Trim(m.elements.value.draft);
    assert Get(Obj(m.config), "webhook_url") == Lookup(m.config, "webhook_url");
    TrimmedNotBlank(m.elements.value.draft);
  }

  lemma DefaultsHaveNoWebhookUrl()
    ensures !Truthy(Lookup(DefaultConfig, "webhook_url"))
  {
  }

  /** A second `init` returns the same elements and leaves the state alone. */
  lemma InitTwice(m: Module, a: Json, b: Json)
    ensures var first := Init(m, a).0;
            Init(first, b) == (first, first.elements)
  {
  }

  // ---------------------------------------------------------------------
  // Runs of events
  // ---------------------------------------------------------------------

  function Run(m: Module, events: seq<Event>, stringify: Json -> string): Module
    decreases |events|
  {
    if |events| == 0 then m else Run(Step(m, events[0], stringify), events[1..], stringify)
  }

  /** The module's elements exist exactly while it is initialized. */
  predicate Consistent(m: Module) {
    m.initialized <==> m.elements.Some?
  }

  /** Each event keeps the module consistent, never drops a request already
      sent, and sends at most one new one. */
  lemma StepKeepsConsistent(m: Module, e: Event, stringify: Json -> string)
    requires Consistent(m)
    ensures var r := Step(m, e, stringify);
            Consistent(r) && m.requests <= r.requests && |r.requests| <= |m.requests| + 1
  {
  }

  lemma StartConsistent(windowConfig: Json)
    ensures Consistent(Start(windowConfig).0)
  {
  }

  /** Over any run the module stays consistent and the request log only
      grows. */
  lemma {:induction false} RunKeepsConsistent(m: Module, events: seq<Event>, stringify: Json -> string)
    requires Consistent(m)
    ensures Consistent(Run(m, events, stringify)) && m.requests <= Run(m, events, stringify).requests
    decreases |events|
  {
    if |events| > 0 {
      StepKeepsConsistent(m, events[0], stringify);
      RunKeepsConsistent(Step(m, events[0], stringify), events[1..], stringify);
    }
  }

  /** One event started from a different session id ends in the same state
      up to the session id. */
  lemma StepUpToSession(m: Module, id: string, e: Event, stringify: Json -> string)
    ensures var r := Step(m.(sessionId := id), e, stringify);
            r == Step(m, e, stringify).(sessionId := r.sessionId)
  {
  }

  /** Whatever sessions "new chat" installs along the way, the session id
      never influences what is sent or shown: two runs from states that
      differ only in their session id send the same requests and show the
      same messages. */
  lemma {:induction false} RunIgnoresSession(m: Module, id: string, events: seq<Event>, stringify: Json -> string)
    ensures Run(m.(sessionId := id), events, stringify).requests == Run(m, events, stringify).requests
    ensures Run(m.(sessionId := id), events, stringify).elements == Run(m, events, stringify).elements
    decreases |events|
  {
    if |events| > 0 {
      var r := Step(m.(sessionId := id), events[0], stringify);
      StepUpToSession(m, id, events[0], stringify);
      RunIgnoresSession(Step(m, events[0], stringify), r.sessionId, events[1..], stringify);
    }
  }
}
