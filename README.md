# numalogic-config-aggregator, modelled in Dafny

This project models the config aggregator. The aggregator lists the labelled ConfigMaps of
every namespace, validates and decodes each key/value fragment they hold, and merges the
surviving fragments into one global configuration. Each merged entry is tagged with its source
namespace. The result is serialised and published to one destination ConfigMap. Publishing
creates that ConfigMap if it is absent, updates only the configured key if the stored text
differs, and otherwise writes nothing. The project also models how the aggregator and the
Kubernetes leader elector are built from defaults and functional options, and the
configuration the elector hands to client-go's leader election.

Modules, leaves first:

- `Wrappers`: `Option` and `Result`.
- `Durations`: `time.Duration` as a signed 64-bit nanosecond count.
- `AggregatorTypes`: `obj` as a map to a tagged value union, `GlobalConfig`, and the `"namespace"` key.
- `AggregatorOptions`: the aggregator's defaults and its option closures. An option is a datatype naming the field it assigns. `ApplyOptions` is the option loop.
- `Kube`: the cluster as plain state. It holds the labelled sources, the destination slot, one
  injectable fault per call (list, get other than not-found, create, update) and a log of
  every call made. `Kube.Cluster` is the client object whose methods change that state.
- `Merge`: the nested loop of `runOnce` (pkg/aggregator/aggregator.go:115-134), which turns the
  listed ConfigMaps into `Configs`. `Merged` specifies it and `Collect` is that loop, proved equal
  to `Merged`. `AllFragments`, `Selected` and `KeptIndices` give an independent flat description
  of the result, and the lemmas connect the two.
- `Reconcile`: a whole cycle as a function `Cycle` of the cluster state, with lemmas on its
  error paths, its three publishing outcomes, at-most-one-write and idempotence.
- `Aggregator`: the `Aggregator` class. Its constructor is `NewAggregator`, `Apply` calls one
  option closure, and `RunOnce` is proved to change the cluster exactly as `Cycle` says.
- `ElectionOptions`, `LeaderElection`: the elector's defaults and duration options, the
  `K8sElector` class, and the `LeaderElectionConfig` record that `RunOrDie` builds.

`convert` and `yaml.Marshal` are function parameters (`Validator`, `Marshaller`) that return
`Ok` or `Err`. The validator also receives the schema reference (`file://<dir>/schema.json`)
that the aggregator builds from its schema directory.

Points where the model follows a particular detail of the code:

- `runOnce` ranges over `cm.Data`, a Go map (pkg/aggregator/aggregator.go:119), so for a ConfigMap
  with several keys the order of the merged entries, and with it the serialised text, can change
  from one cycle to the next. The model takes the pairs of each ConfigMap in the order of a
  sequence, which stands for one iteration. Idempotence is proved for a second cycle that sees the
  same sequence, which is always the case for ConfigMaps with at most one key.
- The code compares against `cm.Data[key]`, and Go gives `""` for a missing key. `StoredText` models this.
- After a successful create, the code still reaches the comparison with its local copy of the
  new ConfigMap. The model keeps that step, and `CreatesWhenAbsent` shows that no update follows.

## Model

| member | source | states |
|---|---|---|
| `AggregatorOptions.Initial` | pkg/aggregator/aggregator.go:28-33 | Before any option: interval 180s, key "config.yaml", label "numaprom.numaproj.io/component=argo-rollouts", schema dir "/etc/config/config-aggregator", no logger; namespace and name as passed |
| `AggregatorOptions.ApplyOption` | pkg/aggregator/option.go:12-44 | Each option sets its own field to its value and keeps every other field |
| `AggregatorOptions.ApplyOptions` | pkg/aggregator/aggregator.go:65-69 | No option changes the namespace or the destination name |
| `AggregatorOptions.ApplyOptionsAppend` | pkg/aggregator/aggregator.go:65-69 | Options act in the order given: applying a + b is applying a, then b |
| `AggregatorOptions.NilOptionSkipped` | pkg/aggregator/aggregator.go:66-68 | A nil option anywhere in the list has no effect |
| `AggregatorOptions.UnnamedFieldKept` | pkg/aggregator/aggregator.go:56-69 | A field that no option names keeps its initial value |
| `AggregatorOptions.LastOptionWins` | pkg/aggregator/option.go:12-44 | A field named by several options takes the value of the last one |
| `AggregatorOptions.CustomizedSettings` | pkg/aggregator/aggregator_test.go:30-38 | With interval, label, key and dir options given, each field takes the value given |
| `Aggregator.SchemaReference` | pkg/aggregator/aggregator.go:84 | The reference is `file://`, then the schema directory unchanged, then `/schema.json` |
| `Aggregator.WithDefaultLogger` | pkg/aggregator/aggregator.go:70-72 | The logger is always set afterwards; a supplied one is kept, otherwise it is the default logger |
| `Aggregator.NewAggregatorDefaults` | pkg/aggregator/aggregator.go:55-72 | A new aggregator keeps each default (interval, key, label, schema dir, default logger) unless an option names that field |
| `Aggregator.Aggregator.constructor` | pkg/aggregator/aggregator.go:55-75 | The fields are the non-nil options applied in order to the defaults, followed by the logger default; the schema reference points into the final schema dir |
| `Aggregator.Aggregator.Apply` | pkg/aggregator/option.go:12-44 | Calling an option closure changes the aggregator's fields exactly as `ApplyOption` says |
| `Aggregator.Aggregator.RunOnce` | pkg/aggregator/aggregator.go:110-172 | The cluster's new state and the returned error are exactly those of `Cycle` |
| `Merge.Tag` | pkg/aggregator/aggregator.go:131 | "namespace" maps to the source namespace, replacing any such key; every other key keeps its value |
| `Merge.Entries` | pkg/aggregator/aggregator.go:119-132 | One ConfigMap contributes at most one entry per key/value pair, and each entry maps "namespace" to that ConfigMap's namespace |
| `Merge.Merged` | pkg/aggregator/aggregator.go:115-134 | Every entry of `Configs` carries a "namespace" key holding a string |
| `Merge.Collect` | pkg/aggregator/aggregator.go:115-134 | The nested loop builds exactly `Merged` of the listed ConfigMaps |
| `Merge.MergedIsSelected` | pkg/aggregator/aggregator.go:118-133 | The nested result equals the flat list of all fragments, filtered to the kept ones and tagged |
| `Merge.SelectedExactlyKept` | pkg/aggregator/aggregator.go:122-132 | The k-th entry is the tagged mapping of the k-th kept fragment; kept positions ascend; every kept fragment is included |
| `Merge.MergedExactlyKept` | pkg/aggregator/aggregator.go:115-134 | Configs holds exactly the fragments that converted to a non-empty mapping, in discovery order and tagged; at most one entry per fragment |
| `Merge.DroppedFragmentIrrelevant` | pkg/aggregator/aggregator.go:122-130 | Removing a failing or empty fragment does not change the result: it does not abort the cycle or disturb other entries |
| `Merge.MergedAppend` | pkg/aggregator/aggregator.go:118 | Entries of earlier ConfigMaps precede those of later ones |
| `Merge.FragmentsFromSources` | pkg/aggregator/aggregator.go:118-119 | Every fragment is a key/value pair of one listed ConfigMap and carries its namespace and name |
| `Merge.EveryPairIsAFragment` | pkg/aggregator/aggregator.go:118-119 | Every key/value pair of every listed ConfigMap is a fragment, so none escapes the filter |
| `Merge.MergedEntriesTagged` | pkg/aggregator/aggregator.go:131-132 | Every merged entry maps "namespace" to the namespace of one of the listed ConfigMaps |
| `Merge.TwoNamespacesScenario` | pkg/aggregator/aggregator_test.go:41-80 | Single fragments in ns1 and ns2 yield two entries in that order, each with four keys and its own fields unchanged |
| `Reconcile.StoredText` | pkg/aggregator/aggregator.go:161 | The stored text is the value under the key when the key is present, and the empty string when it is absent |
| `Reconcile.Publish` | pkg/aggregator/aggregator.go:161-170 | Equal text: no call and success. Different text: exactly one more call, an update of the object with the text under the key and every other key, the identity and the annotations kept; an error exactly when the update fails, and then it is the update error; on success the destination is the updated object, on failure it is unchanged. Only the log and the destination change |
| `Reconcile.Cycle` | pkg/aggregator/aggregator.go:110-172 | A cycle's first call is the list with the configured selector; only the log and the destination change; after success the destination holds the serialised text under the configured key |
| `Reconcile.Fresh` | pkg/aggregator/aggregator.go:142-153 | A created ConfigMap has the configured namespace and name, one data key holding the text, and the managed-by annotation |
| `Reconcile.ListFailureAborts` | pkg/aggregator/aggregator.go:111-114 | A failed listing returns the list error after the list call alone: no get, create or update |
| `Reconcile.MarshalFailureAborts` | pkg/aggregator/aggregator.go:135-138 | A serialisation failure returns the marshal error before the destination is read |
| `Reconcile.GetFailureAborts` | pkg/aggregator/aggregator.go:139-159 | A get failure other than not-found returns the get error and makes no write |
| `Reconcile.FailsOnlyOnFault` | pkg/aggregator/aggregator.go:110-172 | A cycle returns an error if and only if listing, marshalling, getting, the create it needs or the update it needs fails |
| `Reconcile.CreatesWhenAbsent` | pkg/aggregator/aggregator.go:141-161 | An absent destination gets exactly one create of `Fresh`, and no update; on success the destination is that ConfigMap; on failure the error is returned and nothing is stored |
| `Reconcile.UpdatesWhenStale` | pkg/aggregator/aggregator.go:161-164 | Stale text causes exactly one update, which sets only the configured key; other data keys, identity and annotations are kept |
| `Reconcile.NoWriteWhenCurrent` | pkg/aggregator/aggregator.go:161-169 | When the stored text equals the new text, there is no write call and the cycle succeeds |
| `Reconcile.AtMostOneWrite` | pkg/aggregator/aggregator.go:139-170 | A cycle makes at most one write, so the log's write count grows by at most one; it appends to the call log, and changes nothing but the log and the destination |
| `Reconcile.SuccessPublishes` | pkg/aggregator/aggregator.go:139-171 | After a successful cycle the destination holds the serialised text under the configured key |
| `Reconcile.SecondRunWritesNothing` | pkg/aggregator/aggregator.go:161-169 | After a successful cycle, a second cycle on the same sources only lists and gets, makes no write, and succeeds |
| `ElectionOptions.Initial` | pkg/leaderelection/leaderelection.go:26-34 | Namespace, lease name and identifier as passed; lease duration 15s, renew deadline 10s, retry period 2s |
| `ElectionOptions.ApplyOption` | pkg/leaderelection/option.go:8-26 | Each option sets its own duration and keeps every other field |
| `ElectionOptions.ApplyOptions` | pkg/leaderelection/leaderelection.go:35-39 | No option changes the namespace, the lease name or the identifier |
| `ElectionOptions.ApplyOptionsAppend` | pkg/leaderelection/leaderelection.go:35-39 | Options act in the order given |
| `ElectionOptions.NilOptionSkipped` | pkg/leaderelection/leaderelection.go:36-38 | A nil option anywhere in the list has no effect |
| `ElectionOptions.UnnamedFieldKept` | pkg/leaderelection/leaderelection.go:26-39 | A duration that no option names keeps its initial value |
| `ElectionOptions.LastOptionWins` | pkg/leaderelection/option.go:8-26 | A duration named by several options takes the value of the last one |
| `ElectionOptions.LeaseAndRenewOnly` | pkg/leaderelection/leaderelection_test.go:16-17 | With only 10s lease and 5s renew given, those hold and the retry period stays 2s |
| `LeaderElection.ElectionConfig` | pkg/leaderelection/leaderelection.go:43-65 | The lock names the lease name, namespace and identity; ReleaseOnCancel is true; the three durations and both callbacks are passed through |
| `LeaderElection.ElectionConfigKeepsEverything` | pkg/leaderelection/leaderelection.go:44-65 | The elector's fields can be read back from the configuration unchanged |
| `LeaderElection.ConfigOfNewElector` | pkg/leaderelection/leaderelection.go:25-65 | A new elector's configuration locks the lease and identity exactly as passed; each duration no option names keeps its default |
| `LeaderElection.K8sElector.constructor` | pkg/leaderelection/leaderelection.go:25-41 | The fields are the non-nil options applied in order to the identity as passed and the default durations |
| `LeaderElection.K8sElector.Apply` | pkg/leaderelection/option.go:8-26 | Calling an option closure changes the elector's fields exactly as `ApplyOption` says |

## Left out

- The `Run` ticker loop (pkg/aggregator/aggregator.go:93-108): it depends on timer ticks and context cancellation, which are timing and concurrency.
- `loadConfig` (pkg/aggregator/aggregator.go:78-89): the file watcher and its background swap of the schema loader. Only the initial schema reference is modelled.
- The insides of `convert` and `yaml.Marshal`: YAML/JSON conversion, JSON-schema validation and serialisation live in foreign libraries. They are function parameters, and no byte format is claimed.
- The per-ConfigMap key order: Go map iteration order is random. The model fixes one order per ConfigMap, and says nothing about what a different order would produce for a ConfigMap with several keys.
- The Go nil-map panic at pkg/aggregator/aggregator.go:162 when an existing destination has nil `Data`: a Dafny map is never nil.
- The label selector's meaning: the cluster's `sources` are the ConfigMaps matching the configured selector. The model records which selector the list call used, but does not parse selectors.
- The destination is one slot: the ConfigMap at the configured namespace and name. Other objects in the cluster and resource versions are not modelled.
- The destination is assumed not to match the label selector, so that writes never change the listed sources. In the cluster the list call (pkg/aggregator/aggregator.go:111) also returns the destination when the selector matches it, for example a labelled destination, or `WithAppConfigLabel("")`, which lists every ConfigMap. Then the destination's text is passed to `convert` like any fragment; if it validates to a non-empty mapping it is merged, and an update can change what the next cycle merges and publishes.
- Reconcile.SecondRunWritesNothing: holds only under the assumption above; with a destination that the selector matches, a second cycle can merge the newly written text and update again. Both cycles also use the same `validate`. In the program the schema loader reads `file://<dir>/schema.json` again on every validation (pkg/aggregator/aggregator.go:84, 182), so the lemma also assumes the schema file is unchanged between the two cycles.
- A ConfigMap's labels, owner references and other metadata are not represented: `Kube.ConfigMap` has only the namespace, name, annotations and data. `Reconcile.UpdatesWhenStale` and `Reconcile.Publish` say that the update keeps the namespace, name, annotations and every other data key, and say nothing about the rest.
- The logging calls inside `runOnce` are no-ops; the logger is an opaque token.
- The cluster clients of the aggregator (only its calls are modelled, through `Kube.Cluster`) and of the elector (not modelled), and main.go's flag/environment parsing, client construction, signal handling and process exits.
- `RunOrDie`'s election itself (pkg/leaderelection/leaderelection.go:55), lease acquisition and renewal, and the callbacks main.go passes: client-go provides the exclusivity. The model only builds the configuration record.
- Callbacks are opaque tokens, passed through and never called.
- pkg/aggregator/types_test.go: it uses an older shape of `GlobalConfig` than pkg/aggregator/types.go, so no property is drawn from it.
