# OpenShift strategy resolver

A Dafny model of the strategy resolver of the cloud resource operator's
OpenShift provider (`pkg/providers/openshift/config.go`). A
`ConfigMapConfigManager` names a Kubernetes config map by name and namespace.
`ReadStorageStrategy` reads that config map, or the default one the store
creates when it is missing. It takes the text stored under the resource type
(`postgres`, `redis`, `blobstorage`, or any other key), decodes that text as a
JSON object from deployment tier to strategy config, and returns the strategy
config for the requested tier. It can fail in four ways:

- the store fails;
- the resource type has no entry, or an empty one;
- the entry does not decode;
- the tier is missing or null.

Files:

- `wrappers.dfy`: `Option` (a nil pointer is `None`) and `Result` (Go's `(value, error)` pair).
- `config.dfy`: module `OpenShiftConfig`. It holds the manager, the default
  config map, the resolver, the error kinds with their message texts, and the
  lemmas about them.

Inputs the model takes instead of computing them:

- `fetched`: what `resources.GetConfigMapOrDefault` returned, either a config
  map or the store's error text. When the config map did not exist, that is
  `Success(BuildDefaultConfigMap(m))`; the default-record lemmas assume exactly that.
- `decode`: the JSON decoder, a function from text to a tier mapping or an
  error text. A JSON `null` tier decodes to `None`, which is a nil
  `*StrategyConfig`. A tier object without a `strategy` field decodes to
  `Some(StrategyConfig(""))`, which is a nil raw message inside a non-nil struct.
  The default-record lemmas assume only that `decode` maps the default entry
  text to the two default tiers with raw strategy `{}` (`DecodesDefaultEntry`).
- `defaultNamespace`: the watch namespace read from the environment at start-up.
  It is empty when that read failed, because the error is ignored at line 30.

Line 81 rejects only a nil tier entry. An entry without a `strategy` field
therefore resolves to a config with a nil raw strategy
(`TierWithoutStrategySucceeds`).

## Model

| member | source | states |
|---|---|---|
| `OpenShiftConfig.NewConfigMapConfigManager` | pkg/providers/openshift/config.go:49-61 | An empty name becomes `cloud-resources-openshift-strategies` and an empty namespace becomes the default namespace; non-empty arguments are kept; the resulting name is never empty |
| `OpenShiftConfig.NewDefaultConfigManager` | pkg/providers/openshift/config.go:63-65 | The manager names the default config map in the default namespace |
| `OpenShiftConfig.NewConfigMapConfigManagerIdempotent` | pkg/providers/openshift/config.go:49-61 | Building a manager from an existing manager's own fields gives the same manager back |
| `OpenShiftConfig.BuildDefaultConfigMap` | pkg/providers/openshift/config.go:87-98 | The default config map has the manager's name and namespace, exactly the keys `postgres`, `redis` and `blobstorage`, and the two-tier default text under each |
| `OpenShiftConfig.RawEntry` | pkg/providers/openshift/config.go:72 | Indexing the config map's data gives the stored text, or "" when the key is missing |
| `OpenShiftConfig.EntryDefined` | pkg/providers/openshift/config.go:72-73 | The entry counts as defined exactly when the text read for `rt` is not "" |
| `OpenShiftConfig.TierDefined` | pkg/providers/openshift/config.go:81 | A tier is undefined exactly when it is missing or decoded to null, the two cases in which the map index yields a nil pointer |
| `OpenShiftConfig.ReadStorageStrategy` | pkg/providers/openshift/config.go:67-85 | Each outcome and its exact condition. A store failure names the config map and namespace and carries the cause. A missing or empty entry gives "not defined" for `rt`. A decoding failure names `rt` and carries the decoder's error. A missing or null tier gives "no strategy found" for `rt` and `tier`. Success happens exactly when none of these apply, and returns the decoded entry for `tier` |
| `OpenShiftConfig.DefaultConfigMapResolvesDefaultTiers` | pkg/providers/openshift/config.go:67-98 | Against the default config map, each known resource type with tier `development` or `production` resolves to the empty `{}` strategy |
| `OpenShiftConfig.DefaultConfigMapRejectsOtherTiers` | pkg/providers/openshift/config.go:67-98 | Against the default config map, a known resource type with any other tier fails with "no strategy found" |
| `OpenShiftConfig.DefaultConfigMapRejectsOtherTypes` | pkg/providers/openshift/config.go:67-98 | Against the default config map, any other resource type fails with "not defined", whatever the decoder and tier |
| `OpenShiftConfig.EmptyEntryIsMissingEntry` | pkg/providers/openshift/config.go:72-75 | A key mapped to "" and a missing key give the same "not defined" error |
| `OpenShiftConfig.OnlyExactKeyConsulted` | pkg/providers/openshift/config.go:72 | Two config maps that agree on the exact key `rt` resolve alike. Keys that differ from `rt` only in case or spacing play no part |
| `OpenShiftConfig.StoreFailureIgnoresRequest` | pkg/providers/openshift/config.go:68-71 | After a store failure the result does not depend on the resource type, the tier or the decoder |
| `OpenShiftConfig.UndefinedTypeNeverDecodes` | pkg/providers/openshift/config.go:72-78 | When the entry is missing or empty, the result does not depend on the decoder, so nothing is decoded |
| `OpenShiftConfig.DecodeFailureNeverSelectsTier` | pkg/providers/openshift/config.go:77-81 | When decoding fails, the result does not depend on the tier, so no tier is looked up |
| `OpenShiftConfig.TierWithoutStrategySucceeds` | pkg/providers/openshift/config.go:81-84 | A tier entry that is present but has no `strategy` field resolves to a config with a nil raw strategy, not to an error |
| `OpenShiftConfig.NullTierIsUndefined` | pkg/providers/openshift/config.go:81-83 | A JSON `null` tier entry fails with "no strategy found", as a missing tier does |
| `OpenShiftConfig.StoredStrategyRoundTrip` | pkg/providers/openshift/config.go:72-84 | Store the encoding of a one-tier mapping under `rt`, with a decoder that inverts the encoder; resolving that tier then returns the stored strategy config |
| `OpenShiftConfig.Message` | pkg/providers/openshift/config.go:70-82 | The text each error prints; the two wrapped errors end with ": " and the cause's text, as `errors.Wrapf` renders them |
| `OpenShiftConfig.StoreFailureNamesContext` | pkg/providers/openshift/config.go:70 | The store-failure message contains the config map name, the namespace and the cause's text |
| `OpenShiftConfig.DecodeFailureNamesContext` | pkg/providers/openshift/config.go:79 | The decoding-failure message contains the resource type and the decoder's error text |
| `OpenShiftConfig.TierUndefinedNamesContext` | pkg/providers/openshift/config.go:82 | The "no strategy found" message contains the resource type and the tier |
| `OpenShiftConfig.MessageNamesContext` | pkg/providers/openshift/config.go:70-82 | Every error message contains all of its error's context |
| `OpenShiftConfig.MessageIdentifiesKind` | pkg/providers/openshift/config.go:70-82 | Two errors with the same message text are of the same kind, so a caller can tell the four failures apart from the text |
| `OpenShiftConfig.UndefinedMessageIdentifiesType` | pkg/providers/openshift/config.go:74 | The "not defined" message determines the resource type exactly |

## Left out

- The Kubernetes client and `resources.GetConfigMapOrDefault` (line 68) are not modelled: they are an external store with get-or-create semantics. Their result is the input `fetched`, so this model does not cover creating the default config map on the first call or seeing the same data on a second call.
- `encoding/json` is not modelled: the decoder is the parameter `decode`. Its own behaviour (Go's case-insensitive field matching, duplicate keys, a top-level `null` decoding to an empty mapping) belongs to `decode`.
- `DefaultConfigMapNamespace` (line 30) reads the environment once at start-up. It is the parameter `defaultNamespace`.
- `context.Context`, `DefaultFinalizer`, `defaultReconcileTime`, `NamespacePrefixOpenShift`, the `ConfigManager` interface and the moq directive are not used by resolution.
- Concurrency: the resolver holds no mutable state, and the model is a pure function.
- ReadStorageStrategy: the model returns the strategy config by value. Go returns a pointer into the freshly decoded map, so aliasing between calls does not arise.
- MessageIdentifiesKind: it recovers only the kind of error from its text. The resource type and tier in the "no strategy found" message and in the decoding-failure message cannot always be recovered, because a resource type may itself contain the words that follow it.
