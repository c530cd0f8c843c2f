# ToRaTech popout chat widget — a Dafny model

This project models the logic under the ToRaTech chat widget's DOM and CSS: an
embeddable support chat that forwards messages to an n8n webhook. The model
covers three parts.

- **Configuration merging with a pinned webhook** (`jsvalue.dfy`,
  `objectmerge.dfy`, `cdnwidget.dfy`, `chatservice.dfy`).
  - Both `deepMerge` variants are modelled. The module build skips `null`. The
    CDN build lets a `null` value recurse, so a later `null` never erases
    an earlier object (an earlier number, boolean or string is still
    replaced by an object).
  - The CDN build's `mergeConfig` and `removeWebhookConfig` are modelled, along
    with the React app's storage-backed `ChatService`.
  - In every case the webhook comes from a constant and never from the
    configuration the page passes in. The proofs show this for any inputs and
    any sequence of the modelled calls and events. They do not cover page code
    that mutates an object the widget hands out: `getConfig()` returns the
    live configuration, whose `webhook` is the shared, unfrozen protected
    object, so writing to it redirects every later request (see "Left out").
- **Webhook conversation logic** (`chatoperations.dfy`).
  - Modelled: `sendMessage`, `submitMessageToServer`,
    `initiateNewConversationSession` and the session step of
    `startNewConversation`.
  - Each operation is a pure function of the configuration, the text, the
    session and the outcome of its single `fetch`. It returns:
    - the messages it displays,
    - the request it sends,
    - the session id it installs.
- **Lifecycle state machines** (`cdnwidget.dfy`, `popoutwidget.dfy`).
  - The CDN build's `ToRaTechChatWidget` class, with its public API and
    auto-initialization.
  - The module build's module-level state, public API and control handlers.

JavaScript values are the datatype `JsValue.Json`. An object is a map from
property name to value, so property order does not exist in the model.

- Truthiness (`Truthy`) and `||` (`Or`) follow JavaScript.
- Reading a property of `null` or `undefined` throws. The model shows this as
  `None` (`Access`).
- `for … in` and object spread see a value's own enumerable properties
  (`OwnProps`). For arrays and strings these are the index keys "0", "1", ….
  So when a string is merged or spread, its characters become keys. A Dafny
  string is a sequence of Unicode code points, while JavaScript indexes UTF-16
  code units, so the two agree only on strings without characters outside the
  Basic Multilingual Plane (see "Left out").
- `JSON.stringify` and `JSON.parse` are function parameters.

The recursive call `deepMerge(result[key] || {}, value)` is modelled as
merging into a deep copy of the earlier value. `ObjectMerge.CopyIsMergeIntoEmpty`
proves that this copy is exactly what merging into `{}` produces, so the model
computes the same value as the source's recursion.

The module build has a configuration mismatch, and the model keeps it as
written. Its configuration stores the webhook under `webhook.url`, but
`sendMessage` reads the top-level `webhook_url`. With the built-in defaults,
sending therefore always produces the demo reply
(`PopoutWidget.NoWebhookUrlMeansDemo`, `PopoutWidget.DefaultsHaveNoWebhookUrl`).
The session id set by "new chat" is never passed on either
(`PopoutWidget.SessionNeverSent`, `PopoutWidget.RunIgnoresSession`).

## Model

| member | source | states |
|---|---|---|
| ObjectMerge.DeepMerge | src/widget-utils.js:6-25 | both merges (the CDN build's copy at lines 188-204 of src/toratech-widget-cdn.js is the `Cdn` variant): the arguments are visited left to right from `{}`, and the result's keys are exactly the union of the arguments' own keys |
| ObjectMerge.IsObject | src/widget-utils.js:32-34 | the result is truthy exactly for non-null, non-array objects; a falsy item comes back unchanged, a truthy one yields a boolean |
| ObjectMerge.MergeFields | src/widget-utils.js:11-21 | after one argument, the keys are the earlier keys plus the argument's own keys; its non-object values are assigned as given; keys it lacks keep their earlier values |
| ObjectMerge.Assign | src/widget-utils.js:13-18 | a plain-object value (and, in the CDN variant, also `null`) is merged into an object; any other value replaces the earlier one as is |
| ObjectMerge.CopyIsMergeIntoEmpty | src/widget-utils.js:15 | merging a value into `{}` gives its deep copy, so the copy-then-merge formulation equals the source's recursive call |
| ObjectMerge.CopyIdentity | src/widget-utils.js:15 | in the module build's merge, the fresh copy equals the value's own properties: nothing is lost or altered by copying |
| ObjectMerge.MergeDropsNullish | src/widget-utils.js:9-10 | `null` and `undefined` arguments have no effect on the result |
| ObjectMerge.NullishOnlyGivesEmpty | src/widget-utils.js:9-10 | merging only `null`/`undefined` arguments gives the empty object |
| ObjectMerge.MergeKeys | src/widget-utils.js:9-22 | the result's keys are exactly the union of the arguments' own keys |
| ObjectMerge.LastAssignmentWins | src/widget-utils.js:13-18 | a non-merged value at a key in some argument survives when no later argument has that key |
| ObjectMerge.MergesNestedObjects | src/widget-utils.js:13-15 | two plain-object values at the same key are themselves deep-merged |
| ObjectMerge.NestedKeySurvives | src/widget-utils.js:13-15 | a nested key present only in the earlier argument's object survives a later object at the same key |
| ObjectMerge.SingleArg | src/widget-utils.js:6-25 | merging a single argument gives its deep copy |
| ObjectMerge.MergeIsPairwiseFold | src/widget-utils.js:6-25 | a many-argument merge equals folding the two-argument merge from left to right |
| ObjectMerge.DeepMergeNullFree | src/toratech-widget-cdn.js:194-195 | the CDN merge never produces `null` at any depth of object nesting, because every `null` it meets starts a recursive merge |
| ObjectMerge.CopyOfNullFree | src/toratech-widget-cdn.js:195 | copying a `null`-free object for the CDN recursion changes nothing |
| ObjectMerge.NullNeverErases | src/toratech-widget-cdn.js:194-195 | in the CDN merge, a later `null` keeps an earlier object exactly and turns a falsy earlier value into `{}`; a number or boolean becomes `{}`, a string the object of its characters, an array an object with its index keys; the module-build merge stores `null` |
| ObjectMerge.MergePrecedence | src/widget-utils.js:9-23 | along a path of objects ending in an assigned value, the merged value is the one from the last argument that has the path |
| CdnWidget.RemoveWebhookConfig | src/toratech-widget-cdn.js:148-158 | a truthy object or array becomes a copy of its own properties without `webhook`; every other value is returned unchanged |
| CdnWidget.RemoveWebhookKeepsOtherPaths | src/toratech-widget-cdn.js:148-158 | every path not starting with `webhook` reads the same before and after removal |
| CdnWidget.MergeConfig | src/toratech-widget-cdn.js:118-145 | the merged `webhook` is the protected constant whatever the inputs, and `branding`, `style`, `advanced` are always present |
| CdnWidget.UserWebhookIgnored | src/toratech-widget-cdn.js:126-142 | changing the `webhook` of the runtime config or the window config leaves the merged configuration identical |
| CdnWidget.ConfigPrecedence | src/toratech-widget-cdn.js:119-139 | at every non-webhook leaf: runtime config, else window config, else script-tag config, else defaults |
| CdnWidget.PositionRule | src/toratech-widget-cdn.js:229 | the rule is `left: 20px;` exactly when `style.position` is the string `left`, otherwise `right: 20px;`; missing `style` throws |
| CdnWidget.Construct | src/toratech-widget-cdn.js:110-115 | a new widget is uninitialized, has no container and no stylesheet, and holds the merged configuration of the argument (`{}` when omitted) |
| CdnWidget.InjectStyles | src/toratech-widget-cdn.js:223-244 | an existing stylesheet is kept; otherwise the stylesheet carries the position rule, and it throws exactly when `style` or `advanced` is missing |
| CdnWidget.Init | src/toratech-widget-cdn.js:207-220 | a second call changes nothing and throws only when logging does (`log`, lines 311-315, reads `advanced`); a first call throws exactly when building the stylesheet throws or `advanced` is missing; once the stylesheet is in place it builds the closed container and the Escape listener, and sets the initialized flag only when `advanced` is present |
| CdnWidget.InitThrowsAfterBuilding | src/toratech-widget-cdn.js:214-217 | with a stylesheet already in the document and `advanced` missing, `init` throws from the preference loader's logging after attaching the container and the listener, and the widget stays uninitialized |
| CdnWidget.Open | src/toratech-widget-cdn.js:269-274 | with a container, it ends up open, and throws exactly when `branding` or `advanced` is missing; without one, nothing happens |
| CdnWidget.Close | src/toratech-widget-cdn.js:276-280 | a container ends up closed; the rest is unchanged |
| CdnWidget.Destroy | src/toratech-widget-cdn.js:282-294 | the widget is no longer initialized, no stylesheet remains, the container is detached with its open state kept, and the configuration is kept |
| CdnWidget.UpdateConfig | src/toratech-widget-cdn.js:297-304 | the widget holds the newly merged configuration; an uninitialized widget is otherwise untouched |
| CdnWidget.ApiInit | src/toratech-widget-cdn.js:394-399 | the public `init` leaves the new configuration in place and, unless it throws, an initialized widget |
| CdnWidget.Step | src/toratech-widget-cdn.js:373-404 | the interface's close button closes an attached container that has it and otherwise does nothing; `close`, `destroy`, Escape and the close button never throw; only `init` and `updateConfig` change the configuration, to the newly merged one |
| CdnWidget.Toggle | src/toratech-widget-cdn.js:335-342 | the chat button flips the open state of an attached container and does nothing otherwise |
| CdnWidget.Escape | src/toratech-widget-cdn.js:345-349 | Escape closes an open container and otherwise leaves the widget unchanged |
| CdnWidget.InitWidget | src/toratech-widget-cdn.js:382-407 | a widget is created exactly when `advanced.autoInit` is not `false`, with the configuration merged from `{}` |
| CdnWidget.InitWidgetValid | src/toratech-widget-cdn.js:382-390 | the auto-initialized widget starts with the protected webhook and a consistent lifecycle state |
| CdnWidget.StepPreservesValid | src/toratech-widget-cdn.js:207-304 | every API call and user event keeps the webhook pinned, keeps the stylesheet present exactly while initialized, and keeps an initialized widget attached |
| CdnWidget.WebhookNeverChanges | src/toratech-widget-cdn.js:141-142 | after any sequence of calls and events with any configurations, the webhook is still the protected constant |
| CdnWidget.InitIdempotent | src/toratech-widget-cdn.js:207-211 | calling `init` again after a successful `init` changes nothing |
| CdnWidget.UpdateConfigRebuilds | src/toratech-widget-cdn.js:297-304 | on an initialized widget, the update keeps it initialized with the new configuration, a stylesheet built from it and a fresh closed container; it throws exactly when `style` or `advanced` is missing |
| CdnWidget.OnlyToggleOpens | src/toratech-widget-cdn.js:335-349 | Escape, the close button, `close` and `destroy` never open a closed container |
| ChatService.Overlay | src/vite-app-widget/services/chatService.js:19-26 | a section's keys are the default keys plus the stored keys; a falsy stored section leaves the defaults |
| ChatService.ReadStored | src/vite-app-widget/services/chatService.js:10-22 | unreadable storage, unparsable text and a stored `null` fail; a missing or empty string reads as `{}`; any other parsed value is returned as it is |
| ChatService.LoadConfig | src/vite-app-widget/services/chatService.js:10-47 | the keys are exactly `webhook`, `branding` and `style`; `webhook` is the default; every default key is present in both sections; unreadable storage, unparsable text and a stored `null` all give the defaults |
| ChatService.NothingStoredGivesDefaults | src/vite-app-widget/services/chatService.js:12-13 | with no stored string, loading gives exactly the defaults |
| ChatService.StoredKeysOverride | src/vite-app-widget/services/chatService.js:19-26 | a stored section's keys override the defaults key by key, and the other default keys keep their default values |
| ChatService.Construct | src/vite-app-widget/services/chatService.js:6-8 | a new service holds the loaded configuration |
| ChatService.ToStore | src/vite-app-widget/services/chatService.js:53-56 | only `branding` and `style` are persisted, each replaced by the default section when falsy |
| ChatService.SaveConfig | src/vite-app-widget/services/chatService.js:49-74 | a `null`/`undefined` argument or a failing write changes nothing; otherwise storage gets the serialized sections, the memory copy gets the default webhook, and other storage keys are untouched |
| ChatService.GetConfig | src/vite-app-widget/services/chatService.js:76-78 | returns the cached configuration when present; otherwise it loads one and caches it |
| ChatService.SaveKeepsWebhook | src/vite-app-widget/services/chatService.js:61-66 | after a save, the webhook handed out is still the default one |
| ChatService.SaveThenLoad | src/vite-app-widget/services/chatService.js:53-58 | if parsing undoes serializing, reloading after a save gives the saved sections overlaid on the defaults, with the default webhook |
| ChatService.CompleteSaveRoundTrips | src/vite-app-widget/services/chatService.js:62-66 | when the saved sections are objects carrying every default key, a reload reproduces the in-memory configuration exactly |
| ChatOperations.ResponseBody | src/widget-chat-operations.js:371-377 | a body is available exactly for a 2xx response whose body parses, and it is that parsed body |
| ChatOperations.FirstTruthy | src/widget-chat-operations.js:387-388 | the `||` chain yields the earliest truthy operand, else the final fallback |
| ChatOperations.ExtractReply | src/widget-chat-operations.js:378-389 | checked in order: the first element's `output` for a non-empty array, then a truthy `output`, then a string body itself, then the first truthy of message/response/text/content, then the serialized body; it fails exactly on a `null` body or a `null` first element |
| ChatOperations.FallbackFieldOrder | src/widget-chat-operations.js:385-389 | without a truthy `output`, `message` is tried first, then `response`, then `text`, then `content`, and the serialized body only when all four are falsy |
| ChatOperations.ShortReply | src/widget-chat-operations.js:256 | fails exactly on a `null` body or `null` first element; otherwise the first element's `output` for a non-empty array, an object's `output`, and `undefined` for any other value |
| ChatOperations.SendMessage | src/widget-chat-operations.js:326-428 | blank text does nothing; otherwise the user text is shown first and exactly one bot message follows; a request is sent iff `webhook_url` is truthy, with session id and route defaults; failure shows the connection fallback; without a URL the demo reply is shown |
| ChatOperations.SubmitMessageToServer | src/widget-chat-operations.js:211-269 | the URL guard comes before the session guard, each giving one bot error and no request; route is always "general"; a reply is shown only when truthy; failure shows the send fallback |
| ChatOperations.InitiateNewConversationSession | src/widget-chat-operations.js:144-200 | without a URL, no session and no request; with one, the new id is installed and a one-element `loadPreviousSession` array is sent; a failed request or a `null` body or first element shows the start fallback, a truthy reply is shown as the one bot message, and a falsy reply shows nothing |
| ChatOperations.StartNewConversation | src/widget-chat-operations.js:280-282 | the generated id is installed, no request is made, and the welcome message is shown |
| ChatOperations.SendDropsExactlyBlankMessages | src/widget-chat-operations.js:326-330 | nothing is displayed exactly when the text is whitespace only; otherwise the user's text is shown once, first |
| ChatOperations.ExtractionsAgree | src/widget-chat-operations.js:378-389 | the full and the two-step extraction fail on the same bodies; they agree whenever the latter is truthy and whenever the former stops at `output`; where they differ, the two-step value is falsy |
| ChatOperations.SendAndSubmitShowSameReply | src/widget-chat-operations.js:251-267 | both senders fail on the same outcomes; where submit shows a reply, send shows the same one; where send shows a truthy reply and submit none, the body had no usable `output` |
| ChatOperations.SubmitExamples | src/widget-chat-operations.js:254-261 | `{output: "hi"}` and `[{output: "hi"}]` both make submit show "hi" after the user's text |
| ChatOperations.StartInstallsSessionWhateverTheOutcome | src/widget-chat-operations.js:155-167 | the installed session and the request do not depend on the response |
| ChatOperations.ExtractionExamplesWrapped | src/widget-chat-operations.js:379-380 | concrete array bodies: `[{output}]` gives the output, `[{}]` gives `undefined`, `[null]` fails |
| ChatOperations.ExtractionExamplesPlain | src/widget-chat-operations.js:381-384 | concrete bodies: `{output}` gives the output, a string gives itself, `null` fails |
| ChatOperations.ExtractionExamplesFallback | src/widget-chat-operations.js:385-389 | concrete bodies: `{message}` gives the message; `{}` and `[]` give their serialization |
| ChatOperations.ExtractionExamplesOrder | src/widget-chat-operations.js:385-389 | concrete bodies: `{message: "a", text: "b"}` gives "a"; `{output: "", text: "b"}` gives "b" |
| ChatOperations.SessionStartExample | src/widget-chat-operations.js:176-185 | a start answered with `[{output: "Welcome!"}]` shows exactly "Welcome!" under the new id |
| PopoutWidget.MergeOver | src/toratech-widget.js:47-49 | `deepMerge({}, base, custom)` has the keys of both, the argument's non-object values, and the base's values at keys the argument lacks |
| PopoutWidget.LoadConfig | src/toratech-widget.js:21-27 | a falsy window config leaves the defaults; a truthy one adds its keys, its non-object values win, and default keys it lacks keep their defaults |
| PopoutWidget.Loaded | src/toratech-widget.js:19-27 | the initial module state: uninitialized, no elements, no session, no requests |
| PopoutWidget.Init | src/toratech-widget.js:40-150 | on an initialized module, returns the existing elements and ignores the argument; otherwise merges a truthy argument and builds a closed widget |
| PopoutWidget.InitMergeKeepsKeys | src/toratech-widget.js:47-49 | the first `init` keeps every current key, adds the argument's keys, lets its non-object values win, and keeps the current values at keys the argument lacks |
| PopoutWidget.Close | src/toratech-widget.js:153-162 | returns false and changes nothing before initialization; otherwise closes and returns true |
| PopoutWidget.Destroy | src/toratech-widget.js:165-181 | returns false, unchanged, when not initialized or the widget element is gone; otherwise clears the elements and the initialized flag |
| PopoutWidget.DisabledCall | src/toratech-widget.js:190-198 | the public `open` and `toggle` return false and change nothing |
| PopoutWidget.Toggle | src/toratech-widget.js:56-71 | the toggle button flips the open state |
| PopoutWidget.Shut | src/toratech-widget.js:95-101 | Escape and the close buttons close an open widget and leave a closed one unchanged |
| PopoutWidget.NewChat | src/toratech-widget.js:103-105 | "new chat" installs the new session id, activates the chat view and appends the welcome message |
| PopoutWidget.Dispatch | src/toratech-widget.js:107-124 | a message is sent only when the trimmed textarea is non-empty, and the trimmed text is sent; the textarea is then cleared and the session id is left alone |
| PopoutWidget.Start | src/toratech-widget.js:203-217 | auto-init runs exactly when `advanced.autoInit` is truthy, and throws when `advanced` is missing |
| PopoutWidget.Step | src/toratech-widget.js:55-143 | Enter or space on the toggle button flips the widget like a click, and on a close button closes it like a click; Enter without Shift in the textarea sends like the send button; other keys are ignored; only `init` changes the configuration and only "new chat" the session id |
| PopoutWidget.OnlyToggleOpens | src/toratech-widget.js:56-145 | no event other than the toggle button's click or activation key opens a closed widget |
| PopoutWidget.SessionNeverSent | src/toratech-widget.js:103-113 | two states that differ only in the current session id send the same requests and show the same messages |
| PopoutWidget.RunIgnoresSession | src/toratech-widget.js:103-113 | over any sequence of events, "new chat" included, runs from states that differ only in the session id send the same requests and show the same messages |
| PopoutWidget.StepKeepsConsistent | src/toratech-widget.js:40-181 | every event keeps the elements present exactly while initialized, keeps all requests already sent, and adds at most one |
| PopoutWidget.StartConsistent | src/toratech-widget.js:203-217 | the state after loading and auto-init is consistent |
| PopoutWidget.RunKeepsConsistent | src/toratech-widget.js:40-181 | over any run, the state stays consistent and the request log only grows |
| PopoutWidget.DispatchedSession | src/toratech-widget.js:107-113 | a sent request carries `config.sessionId`, or else "default-session", and the trimmed text |
| PopoutWidget.NoWebhookUrlMeansDemo | src/toratech-widget.js:107-124 | without a top-level `webhook_url`, sending makes no request and shows the user's text, then the demo reply |
| PopoutWidget.DefaultsHaveNoWebhookUrl | src/widget-default-config.js:7-37 | the module's defaults have no top-level `webhook_url` |
| PopoutWidget.InitTwice | src/toratech-widget.js:40-44 | a second `init` returns the same elements and changes nothing |
| JsValue.TrimEmptyIffBlank | src/widget-chat-operations.js:327 | `trim()` gives the empty string exactly when every character is ECMAScript whitespace |
| JsValue.TrimmedNotBlank | src/toratech-widget.js:108-109 | non-empty trimmed text is not blank, so passing it on to `sendMessage` is never dropped there |

## Left out

- DOM construction, CSS templates and placeholder substitution are not modelled. The stylesheet is reduced to its position rule and the chat interface to a few booleans.
- Timers, typing indicators, focus and scrolling are cosmetic. Only the message that eventually appears is modelled.
- `fetch` and `response.json()` are foreign. They are the `FetchOutcome` input, and each operation issues at most one request.
- How asynchronous replies interleave is not modelled. Each send is modelled as complete before the next event, with its user message and its reply appended together.
- Session ids come from `Date.now`, `Math.random` and base-36 conversion, so they are opaque inputs (`newId`).
- Logging has no effect on state and is not modelled. A throwing `log` is kept, because it can abort `init`.
- Reading the script tag's data attributes is not modelled. The script-tag configuration is an input (`Env.scriptConfig`).
- The CDN build's loading of stored user preferences is modelled only through its logging. It changes no state, but its error handler logs, and that throws when `advanced` is missing (`CdnWidget.Init`).
- The CDN build's per-instance `sessionId` is not modelled. It is generated in the constructor and never read.
- The CDN public API's `getConfig` and `version` are not modelled. They return the `config` field itself (not a copy) and a constant.
- CdnWidget.WebhookNeverChanges: holds for the modelled calls and events only. Values are immutable in the model, so mutation through objects the program hands out is outside it. In the source, `getConfig()` returns the live configuration, and its `webhook` is the unfrozen `TORATECH_WEBHOOK` object itself (src/toratech-widget-cdn.js lines 22-25 and 142). So `getConfig().webhook.url = …` redirects the current configuration and every later `mergeConfig`.
- ChatService.SaveKeepsWebhook: the same limit applies. `getConfig()` returns the in-memory configuration, so a caller can mutate its `webhook` copy and break the pinned default until the next save or load. `saveConfig` also keeps the caller's own `branding` and `style` objects, which stay shared with the caller.
- ObjectMerge.DeepMerge: two property names are treated as ordinary keys, which the source does not do. The merge calls `obj.hasOwnProperty(key)`, so an own `hasOwnProperty` property (possible in parsed JSON) makes the call throw a TypeError; in the CDN build this escapes `mergeConfig`. An own `__proto__` key (which `JSON.parse` creates) is written with `result[key] = …`, which sets the prototype instead of adding a key.
- ObjectMerge.MergeKeys: for the same reason, a source result lacks an own `__proto__` key that the model's key union includes. The model has no prototypes.
- Numbers are integers. The configuration holds no fractional values. A webhook reply's numbers are only tested for truthiness, displayed or serialized by the `stringify` parameter, so a fractional value behaves like any non-zero integer in the model; `NaN` cannot come out of `JSON.parse`.
- Strings are sequences of Unicode code points. JavaScript's `for … in` and spread on a string see one key per UTF-16 code unit, so a character outside the Basic Multilingual Plane (the 👋 in the default welcome texts) gives two keys in JavaScript and one in the model (`JsValue.CharProps`). This matters only when a string is merged or spread as if it were an object.
- Object key order is not modelled (objects are maps). `JSON.stringify` is therefore a parameter, and `JSON.parse` is a partial-function parameter.
- Inputs are never mutated. Values in the model are immutable, so every result is a new value by construction, and no separate contract states it.
- `sendMessage` is modelled with a messages container present, as its only caller guarantees. Without one, the source throws a TypeError before any request.
- The module build's `createWidgetElements` (in src/widget-dom.js) is not part of this model. `init` is modelled as always succeeding in building the elements.
- The module build's `DOMContentLoaded` deferral of auto-init is modelled as an immediate `init()`.
- CdnWidget.ConfigPrecedence: stated only for paths whose steps are objects in every source and whose end is an assigned value. A `null` at the end is handled by `ObjectMerge.NullNeverErases`, and an object at the end merges key by key.
- ChatService.SaveThenLoad: assumes `JSON.parse` undoes `JSON.stringify` on the saved object, and that the serialization is not the empty string. The second always holds for an object. The first holds only when the saved sections contain no `undefined`: `JSON.stringify` drops such properties, so after `saveConfig({branding: {name: undefined}, …})` a reload has the default `name` while memory holds `undefined`. `ChatService.CompleteSaveRoundTrips` rests on the same assumption.
- The generated bundle `dist/widget.es.js`, the React `CustomChatInitializer`, the debug and index entry points, and the build configuration are not part of this model. They duplicate or wrap the code modelled here.
