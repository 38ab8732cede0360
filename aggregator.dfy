/**
 * The aggregator object of pkg/aggregator/aggregator.go: NewAggregator builds it from
 * defaults and options, and RunOnce performs one reconciliation cycle against the cluster.
 */
module Aggregator {
  import opened Wrappers
  import opened Durations
  import opened AggregatorTypes
  import opened AggregatorOptions
  import opened Kube
  import opened Merge
  import opened Reconcile

  /** The reference loadConfig hands the schema validator (line 84). */
  function SchemaReference(dir: string): (r: string)
    ensures |r| == |dir| + 19
    ensures r[..7] == "file://" && r[|r| - 12..] == "/schema.json"
    ensures r[7..|r| - 12] == dir
  {
    "file://" + dir + "/schema.json"
  }

  /** Lines 70-72: without a logger from the options, NewAggregator builds the default one. */
  function WithDefaultLogger(s: Settings): (r: Settings)
    ensures r.logger.Some?
    ensures s.logger.Some? ==> r == s
    ensures s.logger.None? ==> r == s.(logger := Some(DefaultLogger))
  {
    if s.logger.None? then s.(logger := Some(DefaultLogger)) else s
  }

  class Aggregator {
    const client: Cluster
    var namespace: string
    var configMap: string
    var configMapKey: string
    var appConfigLabel: string
    var schemaFileDir: string
    var interval: Duration
    var logger: Option<Logger>
    var schemaRef: string

    function Fields(): Settings
      reads this
    {
      Settings(namespace, configMap, configMapKey, appConfigLabel, schemaFileDir, interval, logger)
    }

    /** Calling one option closure on the aggregator. */
    method Apply(o: AggregatorOption)
      modifies this
      ensures Fields() == ApplyOption(old(Fields()), o)
      ensures schemaRef == old(schemaRef)
    {
      match o
      case WithInterval(d) => interval := d;
      case WithLogger(l) => logger := l;
      case WithAppConfigLabel(l) => appConfigLabel := l;
      case WithConfigMapKey(k) => configMapKey := k;
      case WithSchemaFileDir(p) => schemaFileDir := p;
    }

    /**
     * NewAggregator: defaults, then the non-nil options in order, then the default logger if
     * none was given, then the schema reference under the final schema directory.
     */
    constructor (client: Cluster, namespace: string, configMap: string, opts: seq<Option<AggregatorOption>>)
      ensures this.client == client
      ensures Fields() == WithDefaultLogger(ApplyOptions(Initial(namespace, configMap), opts))
      ensures schemaRef == SchemaReference(schemaFileDir)
    {
      this.client := client;
      this.namespace := namespace;
      this.configMap := configMap;
      configMapKey := DefaultConfigMapKey;
      interval := DefaultInterval;
      appConfigLabel := DefaultAppConfigLabel;
      schemaFileDir := DefaultSchemaFileDir;
      logger := None;
      schemaRef := "";
      new;
      var i := 0;
      while i < |opts|
        invariant 0 <= i <= |opts|
        invariant Fields() == ApplyOptions(Initial(namespace, configMap), opts[..i])
      {
        assert opts[..i + 1][..i] == opts[..i];
        if opts[i].Some? {
          Apply(opts[i].value);
        }
        i := i + 1;
      }
      assert opts[..|opts|] == opts;
      if logger.None? {
        logger := Some(DefaultLogger);
      }
      schemaRef := SchemaReference(schemaFileDir);
    }

    /**
     * One cycle. validate stands for convert under the current schema, marshal for
     * yaml.Marshal. The cluster ends up exactly as Cycle describes and the error is Cycle's.
     */
    method RunOnce(validate: Validator, marshal: Marshaller) returns (err: Option<CycleError>)
      modifies client
      ensures (client.State(), err) == Cycle(Fields(), schemaRef, old(client.State()), validate, marshal)
    {
      var listed := client.List(appConfigLabel);
      if listed.Err? {
        return Some(ListFailed(listed.error));
      }
      var configs := Collect(listed.value, schemaRef, validate);
      var marshalled := marshal(GlobalConfig(configs));
      if marshalled.Err? {
        return Some(MarshalFailed(marshalled.error));
      }
      var text := marshalled.value;
      var got := client.Get(namespace, configMap);
      var cm: ConfigMap;
      if got.Err? {
        if got.error.NotFound? {
          cm := ConfigMap(namespace, configMap, map[ManagedByKey := ManagedByValue], map[configMapKey := text]);
          var fault := client.Create(cm);
          if fault.Some? {
            return Some(CreateFailed(fault.value));
          }
        } else {
          return Some(GetFailed(got.error.cause));
        }
      } else {
        cm := got.value;
      }
      if text != StoredText(cm, configMapKey) {
        cm := cm.(data := cm.data[configMapKey := text]);
        var fault := client.Update(cm);
        if fault.Some? {
          return Some(UpdateFailed(fault.value));
        }
      }
      return None;
    }
  }

  /** A new aggregator's fields: each default holds unless an option names its field. */
  lemma {:induction false} NewAggregatorDefaults(namespace: string, configMap: string, opts: seq<Option<AggregatorOption>>)
    ensures var s := WithDefaultLogger(ApplyOptions(Initial(namespace, configMap), opts));
            s.namespace == namespace && s.configMap == configMap &&
            ((forall j :: 0 <= j < |opts| ==> !Names(opts[j], IntervalField)) ==> s.interval == 180 * Second) &&
            ((forall j :: 0 <= j < |opts| ==> !Names(opts[j], ConfigMapKeyField)) ==> s.configMapKey == "config.yaml") &&
            ((forall j :: 0 <= j < |opts| ==> !Names(opts[j], AppConfigLabelField)) ==>
               s.appConfigLabel == "numaprom.numaproj.io/component=argo-rollouts") &&
            ((forall j :: 0 <= j < |opts| ==> !Names(opts[j], SchemaFileDirField)) ==>
               s.schemaFileDir == "/etc/config/config-aggregator") &&
            ((forall j :: 0 <= j < |opts| ==> !Names(opts[j], LoggerField)) ==> s.logger == Some(DefaultLogger))
  {
    var s0 := Initial(namespace, configMap);
    if forall j :: 0 <= j < |opts| ==> !Names(opts[j], IntervalField) {
      UnnamedFieldKept(s0, opts, IntervalField);
    }
    if forall j :: 0 <= j < |opts| ==> !Names(opts[j], ConfigMapKeyField) {
      UnnamedFieldKept(s0, opts, ConfigMapKeyField);
    }
    if forall j :: 0 <= j < |opts| ==> !Names(opts[j], AppConfigLabelField) {
      UnnamedFieldKept(s0, opts, AppConfigLabelField);
    }
    if forall j :: 0 <= j < |opts| ==> !Names(opts[j], SchemaFileDirField) {
      UnnamedFieldKept(s0, opts, SchemaFileDirField);
    }
    if forall j :: 0 <= j < |opts| ==> !Names(opts[j], LoggerField) {
      UnnamedFieldKept(s0, opts, LoggerField);
    }
  }
}
