/** The configuration service of the bundled React app: a configuration kept
    in memory and in browser storage, where only `branding` and `style` are
    persisted and the webhook always comes from the built-in defaults. */
module ChatService {
  import opened JsValue

  const StorageKey: string := "customChatWidgetConfig"

  const DefaultWebhook: map<string, Json> := map[
    "url" := Str("https://luccatora.app.n8n.cloud/webhook/e20c3a9c-8b20-4e47-82c4-61bb7207b07e/chat"),
    "route" := Str("general")]

  const DefaultBranding: map<string, Json> := map[
    "logo" := Str("/lovable-uploads/d340a3d9-13cf-475e-baef-3b3b8b98db94.png"),
    "name" := Str("ToRaTech"),
    "welcomeText" := Str("Hi there! \U{1F44B} How can I assist you today?"),
    "responseTimeText" := Str("We typically respond quickly.")]

  const DefaultStyle: map<string, Json> := map[
    "primaryColor" := Str("#338AFF"),
    "secondaryColor" := Str("#2072E8"),
    "position" := Str("right"),
    "backgroundColor" := Str("#FFFFFF"),
    "fontColor" := Str("#333333")]

  /** The configuration used whenever storage cannot be read. */
  const DefaultConfig: map<string, Json> := map[
    "webhook" := Obj(DefaultWebhook), "branding" := Obj(DefaultBranding), "style" := Obj(DefaultStyle)]

  /** Browser storage: its string entries, and whether reading and writing
      succeed (either may throw, e.g. when storage is disabled or full). */
  datatype Storage = Storage(items: map<string, string>, readable: bool, writable: bool)

  /** `{ ...defaults, ...(stored || {}) }`: stored own properties win over the
      defaults, and a falsy stored section contributes nothing. */
  function Overlay(defaults: map<string, Json>, stored: Json): (r: map<string, Json>)
    ensures r.Keys == defaults.Keys + OwnProps(Or(stored, EmptyObj)).Keys
    ensures !Truthy(stored) ==> r == defaults
  {
    defaults + OwnProps(Or(stored, EmptyObj))
  }

  /** The parsed stored configuration, `{}` when there is no (or an empty)
      stored string, or `None` when reading it throws: storage unreadable,
      unparsable text, or a stored `null` whose `branding` cannot be read. */
  function ReadStored(storage: Storage, parse: string -> Option<Json>): (r: Option<Json>)
    ensures r.Some? ==> !Nullish(r.value)
    ensures storage.readable && (StorageKey !in storage.items || storage.items[StorageKey] == "") ==> r == Some(EmptyObj)
    ensures !storage.readable ==> r.None?
    ensures storage.readable && StorageKey in storage.items && storage.items[StorageKey] != "" ==>
              && (parse(storage.items[StorageKey]).None? ==> r.None?)
              && (parse(storage.items[StorageKey]).Some? && Nullish(parse(storage.items[StorageKey]).value) ==> r.None?)
              && (parse(storage.items[StorageKey]).Some? && !Nullish(parse(storage.items[StorageKey]).value) ==>
                    r == parse(storage.items[StorageKey]))
  {
    if !storage.readable then None
    else if StorageKey !in storage.items || storage.items[StorageKey] == "" then Some(EmptyObj)
    else match parse(storage.items[StorageKey])
      case None => None
      case Some(v) => if Nullish(v) then None else Some(v)
  }

  /** `loadConfig()`: defaults overlaid with the stored `branding` and
      `style`; the webhook is copied from the defaults whatever is stored, and
      any failure yields the defaults. */
  function LoadConfig(storage: Storage, parse: string -> Option<Json>): (r: map<string, Json>)
    ensures r.Keys == {"webhook", "branding", "style"}
    ensures r["webhook"] == Obj(DefaultWebhook)
    ensures ReadStored(storage, parse).None? ==> r == DefaultConfig
    ensures StorageKey in storage.items && storage.items[StorageKey] != "" &&
            (parse(storage.items[StorageKey]).None? || Nullish(parse(storage.items[StorageKey]).value)) ==>
              r == DefaultConfig
    ensures r["branding"].Obj? && DefaultBranding.Keys <= r["branding"].fields.Keys
    ensures r["style"].Obj? && DefaultStyle.Keys <= r["style"].fields.Keys
  {
    match ReadStored(storage, parse)
    case None => DefaultConfig
    case Some(stored) =>
      map["webhook" := Obj(DefaultWebhook),
          "branding" := Obj(Overlay(DefaultBranding, Get(stored, "branding"))),
          "style" := Obj(Overlay(DefaultStyle, Get(stored, "style")))]
  }

  /** With nothing stored, loading gives exactly the defaults. */
  lemma NothingStoredGivesDefaults(storage: Storage, parse: string -> Option<Json>)
    requires storage.readable && (StorageKey !in storage.items || storage.items[StorageKey] == "")
    ensures LoadConfig(storage, parse) == DefaultConfig
  {
    assert Get(EmptyObj, "branding") == Undefined;
    assert Get(EmptyObj, "style") == Undefined;
  }

  /** A stored object section overrides the defaults key by key: a key it has
      takes its value, any other default key keeps the default. */
  lemma StoredKeysOverride(storage: Storage, parse: string -> Option<Json>, section: string, k: string)
    requires section == "branding" || section == "style"
    requires ReadStored(storage, parse).Some?
    requires Get(ReadStored(storage, parse).value, section).Obj?
    ensures var stored := Get(ReadStored(storage, parse).value, section).fields;
            var defaults := if section == "branding" then DefaultBranding else DefaultStyle;
            var loaded := LoadConfig(storage, parse)[section].fields;
            && (k in stored ==> k in loaded && loaded[k] == stored[k])
            && (k !in stored && k in defaults ==> k in loaded && loaded[k] == defaults[k])
            && (k in loaded <==> k in stored || k in defaults)
  {
  }

  /** The service: the in-memory configuration (`undefined` until the
      constructor has loaded it) and the storage it persists to. */
  datatype Service = Service(config: Json, storage: Storage)

  /** `new ChatService()`. */
  function Construct(storage: Storage, parse: string -> Option<Json>): (s: Service)
    ensures s.storage == storage && s.config == Obj(LoadConfig(storage, parse))
  {
    Service(Obj(LoadConfig(storage, parse)), storage)
  }

  /** The object `saveConfig` persists: `branding` and `style` only, each
      falling back to (a copy of) the default section when falsy. */
  function ToStore(newConfig: Json): (r: map<string, Json>)
    ensures r.Keys == {"branding", "style"}
    ensures Truthy(Get(newConfig, "branding")) ==> r["branding"] == Get(newConfig, "branding")
    ensures !Truthy(Get(newConfig, "branding")) ==> r["branding"] == Obj(DefaultBranding)
    ensures Truthy(Get(newConfig, "style")) ==> r["style"] == Get(newConfig, "style")
    ensures !Truthy(Get(newConfig, "style")) ==> r["style"] == Obj(DefaultStyle)
  {
    map["branding" := Or(Get(newConfig, "branding"), Obj(DefaultBranding)),
        "style" := Or(Get(newConfig, "style"), Obj(DefaultStyle))]
  }

  /** `saveConfig(newConfig)`: writes `branding`/`style` to storage and
      updates the in-memory configuration with the default webhook. Reading
      from a `null`/`undefined` argument or a failing write is caught and
      changes nothing. */
  function SaveConfig(svc: Service, newConfig: Json, stringify: Json -> string): (r: Service)
    ensures Nullish(newConfig) || !svc.storage.writable ==> r == svc
    ensures !Nullish(newConfig) && svc.storage.writable ==>
              && r.storage == svc.storage.(items := svc.storage.items[StorageKey := stringify(Obj(ToStore(newConfig)))])
              && r.config.Obj? && r.config.fields.Keys == {"webhook", "branding", "style"}
              && r.config.fields["webhook"] == Obj(DefaultWebhook)
              && r.config.fields["branding"] == ToStore(newConfig)["branding"]
              && r.config.fields["style"] == ToStore(newConfig)["style"]
    ensures forall k :: k != StorageKey && k in svc.storage.items ==> k in r.storage.items && r.storage.items[k] == svc.storage.items[k]
  {
    if Nullish(newConfig) || !svc.storage.writable then svc
    else
      var toStore := ToStore(newConfig);
      Service(Obj(map["webhook" := Obj(DefaultWebhook), "branding" := toStore["branding"], "style" := toStore["style"]]),
              svc.storage.(items := svc.storage.items[StorageKey := stringify(Obj(toStore))]))
  }

  /** `getConfig()`: the in-memory configuration, or a fresh load (which
      also becomes the in-memory configuration) when there is none. */
  function GetConfig(svc: Service, parse: string -> Option<Json>): (r: (Service, Json))
    ensures Truthy(svc.config) ==> r == (svc, svc.config)
    ensures !Truthy(svc.config) ==> r.1 == Obj(LoadConfig(svc.storage, parse)) && r.0 == svc.(config := r.1)
  {
    if Truthy(svc.config) then (svc, svc.config)
    else
      var loaded := Obj(LoadConfig(svc.storage, parse));
      (svc.(config := loaded), loaded)
  }

  /** The webhook the service hands out is the default one, after any
      sequence of loads and saves. */
  predicate WebhookIsDefault(svc: Service) {
    svc.config.Obj? && "webhook" in svc.config.fields && svc.config.fields["webhook"] == Obj(DefaultWebhook)
  }

  lemma SaveKeepsWebhook(svc: Service, newConfig: Json, stringify: Json -> string, parse: string -> Option<Json>)
    requires WebhookIsDefault(svc)
    ensures WebhookIsDefault(SaveConfig(svc, newConfig, stringify))
    ensures var r := GetConfig(SaveConfig(svc, newConfig, stringify), parse);
            r.1.Obj? && "webhook" in r.1.fields && r.1.fields["webhook"] == Obj(DefaultWebhook)
  {
  }

  /** Saving and then loading from the same storage gives back the saved
      sections overlaid on the defaults (so the reloaded configuration equals
      the in-memory one exactly when the saved sections are objects holding
      every default key), provided `JSON.parse` undoes `JSON.stringify`. */
  lemma {:induction false} SaveThenLoad(svc: Service, newConfig: Json, stringify: Json -> string, parse: string -> Option<Json>)
    requires !Nullish(newConfig) && svc.storage.writable && svc.storage.readable
    requires stringify(Obj(ToStore(newConfig))) != ""
    requires parse(stringify(Obj(ToStore(newConfig)))) == Some(Obj(ToStore(newConfig)))
    ensures var saved := SaveConfig(svc, newConfig, stringify);
            var loaded := LoadConfig(saved.storage, parse);
            && loaded["webhook"] == Obj(DefaultWebhook)
            && loaded["branding"] == Obj(Overlay(DefaultBranding, ToStore(newConfig)["branding"]))
            && loaded["style"] == Obj(Overlay(DefaultStyle, ToStore(newConfig)["style"]))
  {
    var saved := SaveConfig(svc, newConfig, stringify);
    assert ReadStored(saved.storage, parse) == Some(Obj(ToStore(newConfig)));
  }

  /** When the saved sections are objects that carry every default key, a
      reload reproduces the in-memory configuration exactly. */
  lemma {:induction false} CompleteSaveRoundTrips(svc: Service, newConfig: Json, stringify: Json -> string, parse: string -> Option<Json>)
    requires !Nullish(newConfig) && svc.storage.writable && svc.storage.readable
    requires stringify(Obj(ToStore(newConfig))) != ""
    requires parse(stringify(Obj(ToStore(newConfig)))) == Some(Obj(ToStore(newConfig)))
    requires Get(newConfig, "branding").Obj? && DefaultBranding.Keys <= Get(newConfig, "branding").fields.Keys
    requires Get(newConfig, "style").Obj? && DefaultStyle.Keys <= Get(newConfig, "style").fields.Keys
    ensures var saved := SaveConfig(svc, newConfig, stringify);
            Obj(LoadConfig(saved.storage, parse)) == saved.config
  {
    SaveThenLoad(svc, newConfig, stringify, parse);
    var saved := SaveConfig(svc, newConfig, stringify);
    var b := Get(newConfig, "branding").fields;
    var s := Get(newConfig, "style").fields;
    assert Overlay(DefaultBranding, Obj(b)) == b;
    assert Overlay(DefaultStyle, Obj(s)) == s;
    assert LoadConfig(saved.storage, parse) == saved.config.fields;
  }
}
