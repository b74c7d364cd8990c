/**
 * The OpenShift strategy resolver: a config manager names a config map
 * (name and namespace); ReadStorageStrategy reads that config map, takes the
 * entry for a resource type, decodes it as a tier-keyed mapping of strategy
 * configs, and returns the entry for the requested tier, or one of four errors.
 *
 * The Kubernetes store and the JSON decoder are not modelled: what the store
 * returned is an input of ReadStorageStrategy, and the decoder is a function
 * parameter.
 */
module OpenShiftConfig {
  import opened Wrappers

  type ResourceType = string

  const DefaultConfigMapName: string := "cloud-resources-openshift-strategies"

  // The resource types the default config map knows about.
  const Postgres: ResourceType := "postgres"
  const Redis: ResourceType := "redis"
  const BlobStorage: ResourceType := "blobstorage"
  const KnownResourceTypes: set<ResourceType> := {Postgres, Redis, BlobStorage}

  // The tiers of the default config map.
  const Development: string := "development"
  const Production: string := "production"

  /** The JSON text the default config map holds for every known resource type. */
  const DefaultTierMappingText: string :=
    "{\"development\": { \"strategy\": {} }, \"production\": { \"strategy\": {} } }"

  /**
   * A strategy config: the raw JSON text of its `strategy` field, handed on
   * undecoded. The empty text stands for a nil raw message, which is what a
   * tier entry without a `strategy` field decodes to.
   */
  datatype StrategyConfig = StrategyConfig(rawStrategy: string)

  /** A decoded config map entry: tier to strategy; `None` is a JSON null (a nil pointer). */
  type TierMapping = map<string, Option<StrategyConfig>>

  /** The JSON decoder: the mapping, or the text of the decoding error. */
  type Decoder = string -> Result<TierMapping, string>

  /** The config manager; its Kubernetes client is not modelled. */
  datatype ConfigMapConfigManager = ConfigMapConfigManager(configMapName: string, configMapNamespace: string)

  /** The part of a Kubernetes config map the resolver uses. */
  datatype ConfigMap = ConfigMap(name: string, namespace: string, data: map<string, string>)

  /** The four ways ReadStorageStrategy fails, each with the context it reports. */
  datatype ConfigError =
    | StoreFailure(configMapName: string, configMapNamespace: string, cause: string)
    | ResourceTypeUndefined(resourceType: ResourceType)
    | DecodeFailure(resourceType: ResourceType, cause: string)
    | TierUndefined(resourceType: ResourceType, tier: string)

  /**
   * Builds a manager; an empty name or namespace is replaced by the default.
   * `defaultNamespace` is the watch namespace read from the environment at
   * start-up, which is itself empty when that read failed.
   */
  function NewConfigMapConfigManager(cm: string, namespace: string, defaultNamespace: string): (m: ConfigMapConfigManager)
    ensures cm != "" ==> m.configMapName == cm
    ensures cm == "" ==> m.configMapName == DefaultConfigMapName
    ensures namespace != "" ==> m.configMapNamespace == namespace
    ensures namespace == "" ==> m.configMapNamespace == defaultNamespace
    ensures m.configMapName != ""
  {
    var name := if cm == "" then DefaultConfigMapName else cm;
    var ns := if namespace == "" then defaultNamespace else namespace;
    ConfigMapConfigManager(name, ns)
  }

  /** A manager for the default config map in the default namespace. */
  function NewDefaultConfigManager(defaultNamespace: string): (m: ConfigMapConfigManager)
    ensures m.configMapName == DefaultConfigMapName
    ensures m.configMapNamespace == defaultNamespace
  {
    NewConfigMapConfigManager(DefaultConfigMapName, defaultNamespace, defaultNamespace)
  }

  /** Building a manager from an existing manager's fields gives that manager back. */
  lemma NewConfigMapConfigManagerIdempotent(cm: string, namespace: string, defaultNamespace: string)
    ensures var m := NewConfigMapConfigManager(cm, namespace, defaultNamespace);
            NewConfigMapConfigManager(m.configMapName, m.configMapNamespace, defaultNamespace) == m
  {
  }

  /**
   * The config map the store creates when none exists: named after the
   * manager, with every known resource type mapped to the two default tiers.
   */
  function BuildDefaultConfigMap(m: ConfigMapConfigManager): (c: ConfigMap)
    ensures c.name == m.configMapName && c.namespace == m.configMapNamespace
    ensures c.data.Keys == KnownResourceTypes
    ensures forall rt :: rt in c.data ==> c.data[rt] == DefaultTierMappingText
  {
    ConfigMap(m.configMapName, m.configMapNamespace,
              map[Postgres := DefaultTierMappingText,
                  Redis := DefaultTierMappingText,
                  BlobStorage := DefaultTierMappingText])
  }

  /** Indexing a Go map: a missing key reads as the zero value "". */
  function RawEntry(c: ConfigMap, rt: ResourceType): (raw: string)
    ensures rt in c.data ==> raw == c.data[rt]
    ensures rt !in c.data ==> raw == ""
  {
    if rt in c.data then c.data[rt] else ""
  }

  /** The config map holds non-empty text for `rt`. */
  predicate EntryDefined(c: ConfigMap, rt: ResourceType): (b: bool)
    ensures b <==> RawEntry(c, rt) != ""
  {
    rt in c.data && c.data[rt] != ""
  }

  /** The decoded mapping has a non-null entry for `tier`. */
  predicate TierDefined(strategies: TierMapping, tier: string): (b: bool)
    ensures !b <==> tier !in strategies || strategies[tier] == None
  {
    tier in strategies && strategies[tier].Some?
  }

  /**
   * Resolves the strategy for (`rt`, `tier`) from `fetched`, the config map
   * (or the error) that the store returned for the manager's name and
   * namespace, given the manager's default config map.
   */
  function ReadStorageStrategy(m: ConfigMapConfigManager, fetched: Result<ConfigMap, string>, decode: Decoder,
                               rt: ResourceType, tier: string): (r: Result<StrategyConfig, ConfigError>)
    // The store failed: the error names the config map and its namespace.
    ensures fetched.Failure? ==>
      r == Failure(StoreFailure(m.configMapName, m.configMapNamespace, fetched.error))
    // No entry, or an empty one, for the resource type.
    ensures fetched.Success? && !EntryDefined(fetched.value, rt) ==>
      r == Failure(ResourceTypeUndefined(rt))
    // The entry is not a tier mapping.
    ensures fetched.Success? && EntryDefined(fetched.value, rt) && decode(fetched.value.data[rt]).Failure? ==>
      r == Failure(DecodeFailure(rt, decode(fetched.value.data[rt]).error))
    // The tier is missing or null.
    ensures fetched.Success? && EntryDefined(fetched.value, rt) && decode(fetched.value.data[rt]).Success?
            && !TierDefined(decode(fetched.value.data[rt]).value, tier) ==>
      r == Failure(TierUndefined(rt, tier))
    // Success returns exactly the decoded entry for the tier, and only then is there no error.
    ensures r.Success? <==>
      fetched.Success? && EntryDefined(fetched.value, rt) && decode(fetched.value.data[rt]).Success?
      && TierDefined(decode(fetched.value.data[rt]).value, tier)
    ensures r.Success? ==> decode(fetched.value.data[rt]).value[tier] == Some(r.value)
  {
    match fetched
    case Failure(err) => Failure(StoreFailure(m.configMapName, m.configMapNamespace, err))
    case Success(cm) =>
      var rawStrategyCfg := RawEntry(cm, rt);
      if rawStrategyCfg == "" then
        Failure(ResourceTypeUndefined(rt))
      else
        match decode(rawStrategyCfg)
        case Failure(err) => Failure(DecodeFailure(rt, err))
        case Success(strategies) =>
          var entry := if tier in strategies then strategies[tier] else None;
          if entry.None? then Failure(TierUndefined(rt, tier))
          else Success(entry.value)
  }

  // ---------------------------------------------------------------------
  // Resolution against the default config map

  /** The default tier mapping: both default tiers with an empty `{}` strategy. */
  function DefaultTiers(): TierMapping {
    map[Development := Some(StrategyConfig("{}")), Production := Some(StrategyConfig("{}"))]
  }

  /** What encoding/json yields for the default entry text. */
  predicate DecodesDefaultEntry(decode: Decoder) {
    decode(DefaultTierMappingText) == Success(DefaultTiers())
  }

  /** A known resource type with a default tier resolves to the empty `{}` strategy. */
  lemma DefaultConfigMapResolvesDefaultTiers(m: ConfigMapConfigManager, decode: Decoder, rt: ResourceType, tier: string)
    requires DecodesDefaultEntry(decode)
    requires rt in KnownResourceTypes
    requires tier == Development || tier == Production
    ensures ReadStorageStrategy(m, Success(BuildDefaultConfigMap(m)), decode, rt, tier) == Success(StrategyConfig("{}"))
  {
  }

  /** A known resource type with any other tier fails with "no strategy found". */
  lemma DefaultConfigMapRejectsOtherTiers(m: ConfigMapConfigManager, decode: Decoder, rt: ResourceType, tier: string)
    requires DecodesDefaultEntry(decode)
    requires rt in KnownResourceTypes
    requires tier != Development && tier != Production
    ensures ReadStorageStrategy(m, Success(BuildDefaultConfigMap(m)), decode, rt, tier) == Failure(TierUndefined(rt, tier))
  {
  }

  /** Any other resource type is undefined, whatever the decoder and the tier. */
  lemma DefaultConfigMapRejectsOtherTypes(m: ConfigMapConfigManager, decode: Decoder, rt: ResourceType, tier: string)
    requires rt !in KnownResourceTypes
    ensures ReadStorageStrategy(m, Success(BuildDefaultConfigMap(m)), decode, rt, tier) == Failure(ResourceTypeUndefined(rt))
  {
  }

  // ---------------------------------------------------------------------
  // How the resolver reads the config map

  /** A key mapped to "" and a missing key both give "not defined". */
  lemma EmptyEntryIsMissingEntry(m: ConfigMapConfigManager, c: ConfigMap, decode: Decoder, rt: ResourceType, tier: string)
    ensures ReadStorageStrategy(m, Success(c.(data := c.data[rt := ""])), decode, rt, tier)
         == ReadStorageStrategy(m, Success(c.(data := c.data - {rt})), decode, rt, tier)
         == Failure(ResourceTypeUndefined(rt))
  {
  }

  /**
   * Only the entry stored under exactly `rt` is consulted: two config maps
   * that agree on that key (and may differ on every other key, including keys
   * that differ from `rt` only in case or spacing) resolve alike.
   */
  lemma OnlyExactKeyConsulted(m: ConfigMapConfigManager, c1: ConfigMap, c2: ConfigMap, decode: Decoder, rt: ResourceType, tier: string)
    requires rt in c1.data <==> rt in c2.data
    requires rt in c1.data ==> c1.data[rt] == c2.data[rt]
    ensures ReadStorageStrategy(m, Success(c1), decode, rt, tier) == ReadStorageStrategy(m, Success(c2), decode, rt, tier)
  {
  }

  /** A store failure ends resolution: resource type, tier and decoder play no part. */
  lemma StoreFailureIgnoresRequest(m: ConfigMapConfigManager, cause: string, d1: Decoder, d2: Decoder,
                                   rt1: ResourceType, rt2: ResourceType, tier1: string, tier2: string)
    ensures ReadStorageStrategy(m, Failure(cause), d1, rt1, tier1) == ReadStorageStrategy(m, Failure(cause), d2, rt2, tier2)
  {
  }

  /** An undefined resource type is reported without decoding anything. */
  lemma UndefinedTypeNeverDecodes(m: ConfigMapConfigManager, c: ConfigMap, d1: Decoder, d2: Decoder, rt: ResourceType, tier: string)
    requires !EntryDefined(c, rt)
    ensures ReadStorageStrategy(m, Success(c), d1, rt, tier) == ReadStorageStrategy(m, Success(c), d2, rt, tier)
  {
  }

  /** A decoding failure is reported without looking at the tier. */
  lemma DecodeFailureNeverSelectsTier(m: ConfigMapConfigManager, c: ConfigMap, decode: Decoder, rt: ResourceType, tier1: string, tier2: string)
    requires EntryDefined(c, rt) && decode(c.data[rt]).Failure?
    ensures ReadStorageStrategy(m, Success(c), decode, rt, tier1) == ReadStorageStrategy(m, Success(c), decode, rt, tier2)
  {
  }

  /**
   * A tier entry without a `strategy` field is not an error: only a null
   * entry is. Resolution returns the config with a nil raw strategy.
   */
  lemma TierWithoutStrategySucceeds(m: ConfigMapConfigManager, c: ConfigMap, decode: Decoder, rt: ResourceType, tier: string)
    requires EntryDefined(c, rt)
    requires decode(c.data[rt]).Success?
    requires tier in decode(c.data[rt]).value && decode(c.data[rt]).value[tier] == Some(StrategyConfig(""))
    ensures ReadStorageStrategy(m, Success(c), decode, rt, tier) == Success(StrategyConfig(""))
  {
  }

  /** A JSON null tier entry is "no strategy found", like a missing one. */
  lemma NullTierIsUndefined(m: ConfigMapConfigManager, c: ConfigMap, decode: Decoder, rt: ResourceType, tier: string)
    requires EntryDefined(c, rt)
    requires decode(c.data[rt]).Success?
    requires tier in decode(c.data[rt]).value && decode(c.data[rt]).value[tier] == None
    ensures ReadStorageStrategy(m, Success(c), decode, rt, tier) == Failure(TierUndefined(rt, tier))
  {
  }

  /**
   * Round trip: store under `rt` the encoding of a one-tier mapping holding
   * `sc`; resolving (`rt`, `tier`) gives `sc` back, provided the decoder
   * inverts the encoder on that mapping and the encoding is not empty text.
   */
  lemma StoredStrategyRoundTrip(m: ConfigMapConfigManager, c: ConfigMap, encode: TierMapping -> string, decode: Decoder,
                                rt: ResourceType, tier: string, sc: StrategyConfig)
    requires encode(map[tier := Some(sc)]) != ""
    requires decode(encode(map[tier := Some(sc)])) == Success(map[tier := Some(sc)])
    ensures ReadStorageStrategy(m, Success(c.(data := c.data[rt := encode(map[tier := Some(sc)])])), decode, rt, tier) == Success(sc)
  {
  }

  // ---------------------------------------------------------------------
  // Error messages

  /** The opening shared by the two messages that wrap a cause. */
  const FailedTo: string := "failed to "

  /** The phrase before the resource type in two of the messages. */
  const ForResourceType: string := " for resource type "

  /** The text of the error, as errors.New and errors.Wrapf (which appends ": " and the cause) render it. */
  function Message(e: ConfigError): (text: string)
    // Wrapping puts ": " and the cause's own text at the end.
    ensures e.StoreFailure? || e.DecodeFailure? ==>
      |text| >= |e.cause| + 2 && text[|text| - |e.cause| - 2..] == ": " + e.cause
  {
    match e
    case StoreFailure(name, namespace, cause) =>
      FailedTo + "get openshift strategy config map " + name + " in namespace " + namespace + ": " + cause
    case ResourceTypeUndefined(rt) =>
      "openshift strategy" + ForResourceType + rt + " is not defined"
    case DecodeFailure(rt, cause) =>
      FailedTo + "unmarshal strategy mapping" + ForResourceType + rt + ": " + cause
    case TierUndefined(rt, tier) =>
      "no strategy found for deployment type " + rt + " and deployment tier " + tier
  }

  /** `t` occurs in `s` starting at index `i`. */
  predicate OccursAt(s: string, t: string, i: nat) {
    i + |t| <= |s| && s[i..i + |t|] == t
  }

  /** `t` occurs in `s` as a contiguous piece. */
  predicate Mentions(s: string, t: string) {
    exists i: nat | i <= |s| :: OccursAt(s, t, i)
  }

  lemma MentionsInfix(s: string, p: string, t: string, q: string)
    requires s == p + t + q
    ensures Mentions(s, t)
  {
    assert OccursAt(s, t, |p|);
  }

  lemma StoreFailureNamesContext(name: string, namespace: string, cause: string)
    ensures var s := Message(StoreFailure(name, namespace, cause));
            Mentions(s, name) && Mentions(s, namespace) && Mentions(s, cause)
  {
    var s := Message(StoreFailure(name, namespace, cause));
    var p := FailedTo + "get openshift strategy config map ";
    var q := " in namespace ";
    MentionsInfix(s, p, name, q + namespace + ": " + cause);
    MentionsInfix(s, p + name + q, namespace, ": " + cause);
    MentionsInfix(s, p + name + q + namespace + ": ", cause, "");
  }

  lemma DecodeFailureNamesContext(rt: ResourceType, cause: string)
    ensures var s := Message(DecodeFailure(rt, cause));
            Mentions(s, rt) && Mentions(s, cause)
  {
    var s := Message(DecodeFailure(rt, cause));
    var p := FailedTo + "unmarshal strategy mapping" + ForResourceType;
    MentionsInfix(s, p, rt, ": " + cause);
    MentionsInfix(s, p + rt + ": ", cause, "");
  }

  lemma TierUndefinedNamesContext(rt: ResourceType, tier: string)
    ensures var s := Message(TierUndefined(rt, tier));
            Mentions(s, rt) && Mentions(s, tier)
  {
    var s := Message(TierUndefined(rt, tier));
    var p := "no strategy found for deployment type ";
    var q := " and deployment tier ";
    MentionsInfix(s, p, rt, q + tier);
    MentionsInfix(s, p + rt + q, tier, "");
  }

  /** Every error message carries its context: config map and namespace, resource type, tier, cause. */
  lemma MessageNamesContext(e: ConfigError)
    ensures e.StoreFailure? ==>
      Mentions(Message(e), e.configMapName) && Mentions(Message(e), e.configMapNamespace) && Mentions(Message(e), e.cause)
    ensures e.DecodeFailure? ==> Mentions(Message(e), e.cause)
    ensures !e.StoreFailure? ==> Mentions(Message(e), e.resourceType)
    ensures e.TierUndefined? ==> Mentions(Message(e), e.tier)
  {
    match e
    case StoreFailure(name, namespace, cause) =>
      StoreFailureNamesContext(name, namespace, cause);
    case ResourceTypeUndefined(rt) =>
      MentionsInfix(Message(e), "openshift strategy" + ForResourceType, rt, " is not defined");
    case DecodeFailure(rt, cause) =>
      DecodeFailureNamesContext(rt, cause);
    case TierUndefined(rt, tier) =>
      TierUndefinedNamesContext(rt, tier);
  }

  /** Indexing into the fixed opening of a text. */
  lemma IndexInOpening(p: string, x: string, i: nat)
    requires i < |p|
    ensures (p + x)[i] == p[i]
  {
  }

  lemma StoreFailureHead(name: string, namespace: string, cause: string)
    ensures var s := Message(StoreFailure(name, namespace, cause));
            |s| > 10 && s[0] == 'f' && s[10] == 'g'
  {
    var w := "get openshift strategy config map ";
    var rest := name + " in namespace " + namespace + ": " + cause;
    assert Message(StoreFailure(name, namespace, cause)) == FailedTo + (w + rest);
    IndexInOpening(FailedTo, w + rest, 0);
    IndexInOpening(w, rest, 0);
  }

  lemma DecodeFailureHead(rt: ResourceType, cause: string)
    ensures var s := Message(DecodeFailure(rt, cause));
            |s| > 10 && s[0] == 'f' && s[10] == 'u'
  {
    var w := "unmarshal strategy mapping";
    var rest := ForResourceType + rt + ": " + cause;
    assert Message(DecodeFailure(rt, cause)) == FailedTo + (w + rest);
    IndexInOpening(FailedTo, w + rest, 0);
    IndexInOpening(w, rest, 0);
  }

  /** The characters at indices 0 and 10 of a message tell the four kinds apart. */
  lemma MessageHead(e: ConfigError)
    ensures |Message(e)| > 10
    ensures Message(e)[0] == (if e.StoreFailure? || e.DecodeFailure? then 'f' else if e.ResourceTypeUndefined? then 'o' else 'n')
    ensures e.StoreFailure? ==> Message(e)[10] == 'g'
    ensures e.DecodeFailure? ==> Message(e)[10] == 'u'
  {
    match e
    case StoreFailure(name, namespace, cause) =>
      StoreFailureHead(name, namespace, cause);
    case ResourceTypeUndefined(rt) =>
      IndexInOpening("openshift strategy", ForResourceType + rt + " is not defined", 0);
    case DecodeFailure(rt, cause) =>
      DecodeFailureHead(rt, cause);
    case TierUndefined(rt, tier) =>
      IndexInOpening("no strategy found for deployment type ", rt + " and deployment tier " + tier, 0);
  }

  /** Two errors with the same message are of the same kind. */
  lemma MessageIdentifiesKind(e1: ConfigError, e2: ConfigError)
    requires Message(e1) == Message(e2)
    ensures e1.StoreFailure? == e2.StoreFailure?
    ensures e1.ResourceTypeUndefined? == e2.ResourceTypeUndefined?
    ensures e1.DecodeFailure? == e2.DecodeFailure?
    ensures e1.TierUndefined? == e2.TierUndefined?
  {
    MessageHead(e1);
    MessageHead(e2);
  }

  /** The "not defined" message names exactly one resource type. */
  lemma UndefinedMessageIdentifiesType(rt1: ResourceType, rt2: ResourceType)
    requires Message(ResourceTypeUndefined(rt1)) == Message(ResourceTypeUndefined(rt2))
    ensures rt1 == rt2
  {
    var p := "openshift strategy" + ForResourceType;
    var s := Message(ResourceTypeUndefined(rt1));
    assert |rt1| == |rt2|;
    assert rt1 == s[|p|..|p| + |rt1|] == rt2;
  }
}
