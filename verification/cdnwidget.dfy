/** The single-file CDN build of the widget (`ToRaTechChatWidget`): its
    configuration merge with the protected webhook, the position rule of its
    injected stylesheet, and the lifecycle of one widget instance with the DOM
    reduced to a few booleans. */
module CdnWidget {
  import opened JsValue
  import opened ObjectMerge

  // ---------------------------------------------------------------------
  // Constants
  // ---------------------------------------------------------------------

  const WebhookUrl: string := "https://luccatora.app.n8n.cloud/webhook/e20c3a9c-8b20-4e47-82c4-61bb7207b07e/chat"

  /** The webhook managed by the vendor; no configuration source may replace it. */
  const ToratechWebhook: Json := Obj(map["url" := Str(WebhookUrl), "route" := Str("general")])

  /** The built-in defaults, lowest in precedence. The welcome text keeps the
      mis-decoded waving-hand emoji exactly as the file spells it. */
  const DefaultConfig: Json := Obj(map[
    "branding" := Obj(map[
      "logo" := Str("https://cdn.toratech.com/assets/default-logo.png"),
      "name" := Str("ToRaTech Support"),
      "welcomeText" := Str("Hi there! \U{00F0}\U{0178}\U{2018}\U{2039} How can I assist you today?"),
      "responseTimeText" := Str("We typically respond quickly.")]),
    "style" := Obj(map[
      "primaryColor" := Str("#338AFF"),
      "secondaryColor" := Str("#2072E8"),
      "position" := Str("right"),
      "backgroundColor" := Str("#ffffff"),
      "fontColor" := Str("#333333")]),
    "advanced" := Obj(map[
      "autoInit" := Bool(true),
      "debug" := Bool(false),
      "zIndex" := Num(9999),
      "storageKey" := Str("toratech_chat_prefs"),
      "apiVersion" := Str("v1")])])

  const LeftRule: string := "left: 20px;"
  const RightRule: string := "right: 20px;"

  // ---------------------------------------------------------------------
  // Configuration
  // ---------------------------------------------------------------------

  /** What the page supplies besides the runtime argument: the configuration
      read from the script tag's data attributes and the global
      `window.ChatWidgetConfig` (`undefined` when the page sets none). Both are
      read afresh on every merge. */
  datatype Env = Env(scriptConfig: Json, windowConfig: Json)

  /** `typeof x === 'object'`: objects, arrays and `null`. */
  predicate TypeofObject(x: Json) {
    x.Obj? || x.Arr? || x.Null?
  }

  /** A shallow copy of a truthy object (or array) without its `webhook`
      property; every other value is handed back untouched. */
  function RemoveWebhookConfig(config: Json): (r: Json)
    ensures !(Truthy(config) && TypeofObject(config)) ==> r == config
    ensures Truthy(config) && TypeofObject(config) ==>
              && r.Obj?
              && r.fields.Keys == OwnProps(config).Keys - {"webhook"}
              && forall k :: k in r.fields ==> r.fields[k] == OwnProps(config)[k]
  {
    if !Truthy(config) || !TypeofObject(config) then config
    else Obj(OwnProps(config) - {"webhook"})
  }

  /** The four sources in increasing precedence, as handed to `deepMerge`. */
  function Sources(custom: Json, env: Env): seq<Json> {
    [DefaultConfig, env.scriptConfig, RemoveWebhookConfig(Or(env.windowConfig, EmptyObj)), RemoveWebhookConfig(custom)]
  }

  /** Defaults, then the script tag, then the window global, then the runtime
      argument, merged with the CDN `deepMerge`; the webhook is then pinned. */
  function MergeConfig(custom: Json, env: Env): (r: map<string, Json>)
    ensures "webhook" in r && r["webhook"] == ToratechWebhook
    ensures "branding" in r && "style" in r && "advanced" in r
  {
    MergeKeys(Cdn, Sources(custom, env));
    assert "branding" in OwnProps(Sources(custom, env)[0]);
    assert "style" in OwnProps(Sources(custom, env)[0]);
    assert "advanced" in OwnProps(Sources(custom, env)[0]);
    DeepMerge(Cdn, Sources(custom, env))["webhook" := ToratechWebhook]
  }

  /** Removing the webhook leaves every path that does not start with
      `webhook` exactly as it was. */
  lemma RemoveWebhookKeepsOtherPaths(config: Json, path: seq<string>)
    requires |path| > 0 && path[0] != "webhook"
    ensures HasPath(ArgView(RemoveWebhookConfig(config)), path) == HasPath(ArgView(config), path)
    ensures GetPath(ArgView(RemoveWebhookConfig(config)), path) == GetPath(ArgView(config), path)
    ensures Leafy(Cdn, ArgView(RemoveWebhookConfig(config)), path) == Leafy(Cdn, ArgView(config), path)
  {
    var r := RemoveWebhookConfig(config);
    if Truthy(config) && TypeofObject(config) {
      assert OwnProps(r) == OwnProps(config) - {"webhook"};
      var k := path[0];
      assert k in OwnProps(r) <==> k in OwnProps(config);
      if k in OwnProps(config) {
        assert OwnProps(r)[k] == OwnProps(config)[k];
      }
    }
  }

  /** Whatever `webhook` the runtime argument or the window global carries,
      the merged configuration is the same. */
  lemma UserWebhookIgnored(m: map<string, Json>, w: map<string, Json>, x: Json, y: Json, script: Json)
    ensures MergeConfig(Obj(m), Env(script, Obj(w))) == MergeConfig(Obj(m["webhook" := x]), Env(script, Obj(w["webhook" := y])))
  {
    assert m - {"webhook"} == m["webhook" := x] - {"webhook"};
    assert w - {"webhook"} == w["webhook" := y] - {"webhook"};
    assert RemoveWebhookConfig(Obj(m)) == RemoveWebhookConfig(Obj(m["webhook" := x]));
    assert RemoveWebhookConfig(Obj(w)) == RemoveWebhookConfig(Obj(w["webhook" := y]));
    assert Sources(Obj(m), Env(script, Obj(w))) == Sources(Obj(m["webhook" := x]), Env(script, Obj(w["webhook" := y])));
  }

  /** The value the merged configuration holds at `path`: the runtime
      argument's if it has the path, else the window global's, else the script
      tag's, else the default's. */
  function Preferred(custom: Json, env: Env, path: seq<string>): Json {
    LastWith(DefaultConfig, env.scriptConfig, Or(env.windowConfig, EmptyObj), custom, path)
  }

  /** A path whose steps are objects in a source and whose end, if present,
      is a value that is assigned rather than merged. */
  predicate LeafPath(x: Json, path: seq<string>) {
    Leafy(Cdn, ArgView(x), path)
  }

  /** Precedence: runtime config over window config over script-tag config
      over defaults, at every leaf other than the webhook. */
  lemma {:induction false} ConfigPrecedence(custom: Json, env: Env, path: seq<string>)
    requires |path| > 0 && path[0] != "webhook"
    requires LeafPath(DefaultConfig, path) && LeafPath(env.scriptConfig, path)
    requires LeafPath(Or(env.windowConfig, EmptyObj), path) && LeafPath(custom, path)
    ensures GetPath(Obj(MergeConfig(custom, env)), path) == Preferred(custom, env, path)
  {
    var xs := Sources(custom, env);
    var window := Or(env.windowConfig, EmptyObj);
    RemoveWebhookKeepsOtherPaths(window, path);
    RemoveWebhookKeepsOtherPaths(custom, path);
    assert ArgView(DefaultConfig) == DefaultConfig;
    forall i | 0 <= i < |xs| ensures Leafy(Cdn, ArgView(xs[i]), path) {
    }
    MergePrecedence(Cdn, xs, path);
    var merged := DeepMerge(Cdn, xs);
    assert GetPath(Obj(MergeConfig(custom, env)), path) == GetPath(Obj(merged), path) by {
      assert Get(Obj(MergeConfig(custom, env)), path[0]) == Get(Obj(merged), path[0]);
    }
    LatestAtOfSources(custom, env, path);
  }

  /** The reference precedence over the four sources, unfolded. */
  lemma LatestAtOfSources(custom: Json, env: Env, path: seq<string>)
    requires |path| > 0 && path[0] != "webhook"
    ensures LatestAt(Sources(custom, env), path) == Preferred(custom, env, path)
  {
    CleanedSources(DefaultConfig, env.scriptConfig, Or(env.windowConfig, EmptyObj), custom, path);
  }

  lemma CleanedSources(d: Json, s: Json, w: Json, c: Json, path: seq<string>)
    requires |path| > 0 && path[0] != "webhook"
    ensures LatestAt([d, s, RemoveWebhookConfig(w), RemoveWebhookConfig(c)], path) == LastWith(d, s, w, c, path)
  {
    LatestAtOfFour(d, s, RemoveWebhookConfig(w), RemoveWebhookConfig(c), path);
    RemoveWebhookKeepsOtherPaths(w, path);
    RemoveWebhookKeepsOtherPaths(c, path);
  }

  /** The value at `path` in the last of four arguments that has it. */
  function LastWith(a: Json, b: Json, c: Json, d: Json, path: seq<string>): Json {
    if HasPath(ArgView(d), path) then GetPath(ArgView(d), path)
    else if HasPath(ArgView(c), path) then GetPath(ArgView(c), path)
    else if HasPath(ArgView(b), path) then GetPath(ArgView(b), path)
    else if HasPath(ArgView(a), path) then GetPath(ArgView(a), path)
    else Undefined
  }

  lemma LatestAtOfFour(a: Json, b: Json, c: Json, d: Json, path: seq<string>)
    ensures LatestAt([a, b, c, d], path) == LastWith(a, b, c, d, path)
  {
    assert [a, b, c, d][..3] == [a, b, c];
    assert [a, b, c][..2] == [a, b];
    assert [a, b][..1] == [a];
    assert [a][..0] == [];
    assert LatestAt([a], path) == if HasPath(ArgView(a), path) then GetPath(ArgView(a), path) else Undefined;
    assert LatestAt([a, b], path) == if HasPath(ArgView(b), path) then GetPath(ArgView(b), path) else LatestAt([a], path);
    assert LatestAt([a, b, c], path) == if HasPath(ArgView(c), path) then GetPath(ArgView(c), path) else LatestAt([a, b], path);
  }

  /** The `left`/`right` rule written into the stylesheet, or `None` when
      reading `config.style.position` throws because `style` is missing. */
  function PositionRule(config: map<string, Json>): (r: Option<string>)
    ensures r.None? <==> Nullish(Lookup(config, "style"))
    ensures r.Some? ==> (r.value == LeftRule <==> GetPath(Obj(config), ["style", "position"]) == Str("left"))
    ensures r.Some? ==> (r.value == LeftRule || r.value == RightRule)
  {
    match Access(Lookup(config, "style"), "position")
    case None => None
    case Some(p) => Some(if p == Str("left") then LeftRule else RightRule)
  }

  // ---------------------------------------------------------------------
  // Lifecycle
  // ---------------------------------------------------------------------

  /** The chat container `this.container` refers to: whether it carries the
      `open` class, whether the widget element holding it is still in the
      document, and whether its loaded interface has a close button. */
  datatype Panel = Panel(open: bool, attached: bool, closeButton: bool)

  /** One widget instance. `styles` is the position rule of the injected
      stylesheet while it is in the document; `escapeListener` records that a
      document-level Escape handler has been attached (it is never removed). */
  datatype Widget = Widget(config: map<string, Json>, initialized: bool, container: Option<Panel>,
                           styles: Option<string>, escapeListener: bool)

  /** The widget after an operation, and whether the operation ended by
      throwing a TypeError (what it changed before the throw is kept). */
  datatype Outcome = Outcome(widget: Widget, threw: bool)

  /** `new ToRaTechChatWidget(config)`; an omitted argument defaults to `{}`. */
  function Construct(custom: Json, env: Env): (w: Widget)
    ensures !w.initialized && w.container.None? && w.styles.None? && !w.escapeListener
    ensures w.config == MergeConfig(if custom.Undefined? then EmptyObj else custom, env)
  {
    Widget(MergeConfig(if custom.Undefined? then EmptyObj else custom, env), false, None, None, false)
  }

  /** `this.log(...)` reads `config.advanced.debug` and so throws when
      `advanced` has been set to `undefined`. */
  predicate LogThrows(config: map<string, Json>) {
    Nullish(Lookup(config, "advanced"))
  }

  /** The stylesheet after `injectStyles`: kept when one is already present,
      otherwise built from the configuration; `None` when building it throws. */
  function InjectStyles(w: Widget): (r: Option<string>)
    ensures w.styles.Some? ==> r == w.styles
    ensures w.styles.None? ==> (r.Some? <==> !Nullish(Lookup(w.config, "style")) && !LogThrows(w.config))
    ensures w.styles.None? && r.Some? ==> Some(r.value) == PositionRule(w.config)
  {
    if w.styles.Some? then w.styles
    else match PositionRule(w.config)
      case None => None
      case Some(rule) => if Nullish(Lookup(w.config, "advanced")) then None else Some(rule)
  }

  /** `init()`: a no-op once initialized; otherwise styles, a fresh closed
      container, the Escape listener, and the initialized flag. Loading the
      user preferences logs, so without `advanced` the call throws after the
      container and the listener exist but before the flag is set (reachable
      only when a stylesheet is already in the document, since building one
      reads `advanced` too). */
  function Init(w: Widget): (o: Outcome)
    ensures w.initialized ==> o.widget == w && (o.threw <==> LogThrows(w.config))
    ensures !w.initialized ==> (o.threw <==> InjectStyles(w).None? || LogThrows(w.config))
    ensures !w.initialized ==> (o.widget.initialized <==> InjectStyles(w).Some? && !LogThrows(w.config))
    ensures !w.initialized && InjectStyles(w).None? ==> o.widget == w
    ensures !o.threw ==> o.widget.initialized && o.widget.config == w.config
    ensures !w.initialized && InjectStyles(w).Some? ==>
              && o.widget.config == w.config
              && o.widget.container == Some(Panel(false, true, false))
              && o.widget.escapeListener
              && o.widget.styles == InjectStyles(w)
  {
    if w.initialized then Outcome(w, LogThrows(w.config))
    else match InjectStyles(w)
      case None => Outcome(w, true)
      case Some(rule) =>
        var done := w.(styles := Some(rule), container := Some(Panel(false, true, false)),
                       escapeListener := true, initialized := !LogThrows(w.config));
        Outcome(done, LogThrows(w.config))
  }

  /** A stylesheet left in the document by another instance lets `init`
      get as far as building the widget; without `advanced` it then throws
      and leaves an attached container on an uninitialized widget. */
  lemma InitThrowsAfterBuilding(w: Widget)
    requires !w.initialized && w.styles.Some? && LogThrows(w.config)
    ensures var o := Init(w);
            o.threw && !o.widget.initialized
            && o.widget.container == Some(Panel(false, true, false)) && o.widget.escapeListener
  {
  }

  /** `open()`: adds the `open` class, then loads the chat interface, which
      reads `branding` and `advanced` and throws when either is missing. */
  function Open(w: Widget): (o: Outcome)
    ensures w.container.None? ==> o == Outcome(w, false)
    ensures w.container.Some? ==> o.widget.container.Some? && o.widget.container.value.open
    ensures o.threw <==> w.container.Some? && (Nullish(Lookup(w.config, "branding")) || LogThrows(w.config))
    ensures o.widget.initialized == w.initialized && o.widget.config == w.config && o.widget.styles == w.styles
  {
    match w.container
    case None => Outcome(w, false)
    case Some(p) =>
      if LogThrows(w.config) || Nullish(Lookup(w.config, "branding")) then
        Outcome(w.(container := Some(p.(open := true))), true)
      else
        Outcome(w.(container := Some(p.(open := true, closeButton := true))), false)
  }

  /** `close()`: removes the `open` class from the container, if there is one. */
  function Close(w: Widget): (r: Widget)
    ensures w.container.Some? ==> r.container.Some? && !r.container.value.open
    ensures w.container.None? ==> r == w
    ensures r.initialized == w.initialized && r.config == w.config && r.styles == w.styles
  {
    match w.container
    case None => w
    case Some(p) => w.(container := Some(p.(open := false)))
  }

  /** `destroy()`: removes the widget element and the stylesheet from the
      document and clears the initialized flag. The container reference and
      the Escape listener survive. */
  function Destroy(w: Widget): (r: Widget)
    ensures !r.initialized && r.styles.None?
    ensures r.config == w.config && r.escapeListener == w.escapeListener
    ensures r.container.Some? <==> w.container.Some?
    ensures r.container.Some? ==> !r.container.value.attached && r.container.value.open == w.container.value.open
  {
    var container := match w.container
      case None => None
      case Some(p) => Some(p.(attached := false));
    w.(container := container, styles := None, initialized := false)
  }

  /** `updateConfig(newConfig)`: re-merges, and rebuilds an initialized widget
      so that the new configuration reaches the stylesheet. */
  function UpdateConfig(w: Widget, newConfig: Json, env: Env): (o: Outcome)
    ensures !w.initialized ==> o == Outcome(w.(config := MergeConfig(newConfig, env)), false)
    ensures o.widget.config == MergeConfig(newConfig, env)
  {
    var w1 := w.(config := MergeConfig(newConfig, env));
    if w1.initialized then Init(Destroy(w1)) else Outcome(w1, false)
  }

  /** The public `init(config)`: update, then initialize if still needed. */
  function ApiInit(w: Widget, config: Json, env: Env): (o: Outcome)
    ensures o.widget.config == MergeConfig(config, env)
    ensures !o.threw ==> o.widget.initialized
  {
    var o := UpdateConfig(w, config, env);
    if !o.threw && !o.widget.initialized then Init(o.widget) else o
  }

  /** Events reaching the widget: calls on the public API and user input. */
  datatype Event =
    | CallInit(config: Json)
    | CallOpen
    | CallClose
    | CallDestroy
    | CallUpdateConfig(config: Json)
    | ToggleClick
    | EscapeKey
    | CloseButtonClick

  /** The chat button flips the container; the button exists only while the
      widget element is in the document. */
  function Toggle(w: Widget): (o: Outcome)
    ensures w.container.Some? && w.container.value.attached ==>
              o.widget.container.Some? && o.widget.container.value.open == !w.container.value.open
    ensures !(w.container.Some? && w.container.value.attached) ==> o == Outcome(w, false)
  {
    match w.container
    case Some(p) =>
      if !p.attached then Outcome(w, false)
      else if p.open then Outcome(Close(w), false)
      else Open(w)
    case None => Outcome(w, false)
  }

  /** The document-level Escape handler closes an open container and ignores
      the key otherwise. */
  function Escape(w: Widget): (r: Widget)
    ensures w.escapeListener && w.container.Some? && w.container.value.open ==>
              r.container.Some? && !r.container.value.open
    ensures !(w.escapeListener && w.container.Some? && w.container.value.open) ==> r == w
  {
    if w.escapeListener && w.container.Some? && w.container.value.open then Close(w) else w
  }

  /** One public call or user event. The close button in the loaded chat
      interface only ever closes; it exists once `open` has loaded the
      interface, and goes with the widget element. Closing, destroying and
      Escape never throw, and only `init` and `updateConfig` change the
      configuration. */
  function Step(w: Widget, e: Event, env: Env): (o: Outcome)
    ensures e.CloseButtonClick? && w.container.Some? && w.container.value.attached && w.container.value.closeButton ==>
              o.widget.container.Some? && !o.widget.container.value.open
    ensures e.CloseButtonClick? && !(w.container.Some? && w.container.value.attached && w.container.value.closeButton) ==>
              o == Outcome(w, false)
    ensures e.CallClose? || e.CallDestroy? || e.EscapeKey? || e.CloseButtonClick? ==> !o.threw
    ensures !(e.CallInit? || e.CallUpdateConfig?) ==> o.widget.config == w.config
    ensures e.CallInit? || e.CallUpdateConfig? ==> o.widget.config == MergeConfig(e.config, env)
  {
    match e
    case CallInit(config) => ApiInit(w, config, env)
    case CallOpen => Open(w)
    case CallClose => Outcome(Close(w), false)
    case CallDestroy => Outcome(Destroy(w), false)
    case CallUpdateConfig(config) => UpdateConfig(w, config, env)
    case ToggleClick => Toggle(w)
    case EscapeKey => Outcome(Escape(w), false)
    case CloseButtonClick =>
      if w.container.Some? && w.container.value.attached && w.container.value.closeButton
      then Outcome(Close(w), false) else Outcome(w, false)
  }

  /** Auto-initialization runs unless the window global sets
      `advanced.autoInit` to exactly `false`. */
  predicate AutoInit(env: Env) {
    GetPath(Or(env.windowConfig, EmptyObj), ["advanced", "autoInit"]) != Bool(false)
  }

  /** The script's start-up: the instance it creates and initializes, or
      `None` when auto-initialization is switched off. */
  function InitWidget(env: Env): (r: Option<Outcome>)
    ensures r.Some? <==> AutoInit(env)
    ensures r.Some? ==> r.value.widget.config == MergeConfig(EmptyObj, env)
  {
    if AutoInit(env) then Some(Init(Construct(Undefined, env))) else None
  }

  // ---------------------------------------------------------------------
  // Properties of the lifecycle
  // ---------------------------------------------------------------------

  /** The state every reachable widget is in: the webhook is the protected
      one, the stylesheet is present exactly while initialized, and an
      initialized widget is in the document with its Escape handler. */
  predicate Valid(w: Widget) {
    && "webhook" in w.config && w.config["webhook"] == ToratechWebhook
    && (w.initialized <==> w.styles.Some?)
    && (w.initialized ==> w.container.Some? && w.container.value.attached && w.escapeListener)
    && (w.container.Some? && w.container.value.attached ==> w.initialized)
  }

  lemma InitWidgetValid(env: Env)
    ensures var r := InitWidget(env); r.Some? ==> Valid(r.value.widget)
  {
  }

  /** Every event keeps a widget valid, whether or not it throws. */
  lemma StepPreservesValid(w: Widget, e: Event, env: Env)
    requires Valid(w)
    ensures Valid(Step(w, e, env).widget)
  {
  }

  function Run(w: Widget, events: seq<Event>, env: Env): Widget
    decreases |events|
  {
    if |events| == 0 then w else Run(Step(w, events[0], env).widget, events[1..], env)
  }

  /** No sequence of API calls and user input, with any configurations,
      changes the webhook the widget talks to. */
  lemma {:induction false} WebhookNeverChanges(w: Widget, events: seq<Event>, env: Env)
    requires Valid(w)
    ensures Valid(Run(w, events, env))
    ensures Run(w, events, env).config["webhook"] == ToratechWebhook
    decreases |events|
  {
    if |events| > 0 {
      StepPreservesValid(w, events[0], env);
      WebhookNeverChanges(Step(w, events[0], env).widget, events[1..], env);
    }
  }

  /** A second `init` changes nothing. */
  lemma InitIdempotent(w: Widget)
    requires Valid(w)
    ensures var o := Init(w); !o.threw ==> Init(o.widget).widget == o.widget
  {
  }

  /** `updateConfig` on an initialized widget leaves it initialized (unless
      the new configuration makes the rebuild throw), holding the new
      configuration, with a freshly injected stylesheet and a closed
      container. */
  lemma UpdateConfigRebuilds(w: Widget, newConfig: Json, env: Env)
    requires Valid(w) && w.initialized
    ensures var o := UpdateConfig(w, newConfig, env);
            var c := MergeConfig(newConfig, env);
            && o.widget.config == c
            && (o.threw <==> Nullish(Lookup(c, "style")) || LogThrows(c))
            && (!o.threw ==> o.widget.initialized && o.widget.styles == PositionRule(c)
                             && o.widget.container == Some(Panel(false, true, false)))
  {
  }

  /** Escape never opens the container, and user input other than the chat
      button never does either. */
  lemma OnlyToggleOpens(w: Widget, e: Event, env: Env)
    requires e.EscapeKey? || e.CloseButtonClick? || e.CallClose? || e.CallDestroy?
    requires w.container.Some? && !w.container.value.open
    ensures Step(w, e, env).widget.container.Some? && !Step(w, e, env).widget.container.value.open
  {
  }
}
