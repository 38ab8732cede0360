/**
 * The aggregator's settings, their defaults, and the functional options that
 * override them (pkg/aggregator/aggregator.go:21-33, 55-69 and pkg/aggregator/option.go).
 * A Go option is a closure that assigns one field of the aggregator; here it is a
 * datatype naming that field and its new value, and ApplyOption is what calling the
 * closure does to the settings.
 */
module AggregatorOptions {
  import opened Wrappers
  import opened Durations

  /** A logger handle: the one logging.NewLogger builds, or one supplied by the caller. */
  datatype Logger = DefaultLogger | SuppliedLogger(id: nat)

  const DefaultInterval: Duration := 180 * Second
  const DefaultConfigMapKey: string := "config.yaml"
  const DefaultAppConfigLabel: string := "numaprom.numaproj.io/component=argo-rollouts"
  const DefaultSchemaFileDir: string := "/etc/config/config-aggregator"

  /** The plain fields of the aggregator struct (the client and the schema reference aside). */
  datatype Settings = Settings(
    namespace: string,
    configMap: string,
    configMapKey: string,
    appConfigLabel: string,
    schemaFileDir: string,
    interval: Duration,
    logger: Option<Logger>)

  /** The struct literal NewAggregator starts from: the two arguments and the defaults, no logger yet. */
  function Initial(namespace: string, configMap: string): (s: Settings)
    ensures s.namespace == namespace && s.configMap == configMap
    ensures s.interval == 180 * Second
    ensures s.configMapKey == "config.yaml"
    ensures s.appConfigLabel == "numaprom.numaproj.io/component=argo-rollouts"
    ensures s.schemaFileDir == "/etc/config/config-aggregator"
    ensures s.logger == None
  {
    Settings(namespace, configMap, DefaultConfigMapKey, DefaultAppConfigLabel,
             DefaultSchemaFileDir, DefaultInterval, None)
  }

  /** One option closure of option.go. */
  datatype AggregatorOption =
    | WithInterval(interval: Duration)
    | WithLogger(logger: Option<Logger>)
    | WithAppConfigLabel(selector: string)
    | WithConfigMapKey(key: string)
    | WithSchemaFileDir(dir: string)

  /** The field an option assigns. */
  datatype Field = IntervalField | LoggerField | AppConfigLabelField | ConfigMapKeyField | SchemaFileDirField

  function FieldOf(o: AggregatorOption): Field
  {
    match o
    case WithInterval(_) => IntervalField
    case WithLogger(_) => LoggerField
    case WithAppConfigLabel(_) => AppConfigLabelField
    case WithConfigMapKey(_) => ConfigMapKeyField
    case WithSchemaFileDir(_) => SchemaFileDirField
  }

  /** a and b hold the same value in field f. */
  predicate Agree(a: Settings, b: Settings, f: Field)
  {
    match f
    case IntervalField => a.interval == b.interval
    case LoggerField => a.logger == b.logger
    case AppConfigLabelField => a.appConfigLabel == b.appConfigLabel
    case ConfigMapKeyField => a.configMapKey == b.configMapKey
    case SchemaFileDirField => a.schemaFileDir == b.schemaFileDir
  }

  /** A (possibly nil) option in an argument list assigns field f. */
  predicate Names(o: Option<AggregatorOption>, f: Field)
  {
    o.Some? && FieldOf(o.value) == f
  }

  /** Calling one option closure: its own field takes the option's value, every other field is kept. */
  function ApplyOption(s: Settings, o: AggregatorOption): (r: Settings)
    ensures r.namespace == s.namespace && r.configMap == s.configMap
    ensures r.interval == (if o.WithInterval? then o.interval else s.interval)
    ensures r.logger == (if o.WithLogger? then o.logger else s.logger)
    ensures r.appConfigLabel == (if o.WithAppConfigLabel? then o.selector else s.appConfigLabel)
    ensures r.configMapKey == (if o.WithConfigMapKey? then o.key else s.configMapKey)
    ensures r.schemaFileDir == (if o.WithSchemaFileDir? then o.dir else s.schemaFileDir)
  {
    match o
    case WithInterval(d) => s.(interval := d)
    case WithLogger(l) => s.(logger := l)
    case WithAppConfigLabel(l) => s.(appConfigLabel := l)
    case WithConfigMapKey(k) => s.(configMapKey := k)
    case WithSchemaFileDir(p) => s.(schemaFileDir := p)
  }

  /** The option loop of NewAggregator: nil options are skipped, the others applied left to right. */
  function ApplyOptions(s: Settings, opts: seq<Option<AggregatorOption>>): (r: Settings)
    ensures r.namespace == s.namespace && r.configMap == s.configMap
    decreases |opts|
  {
    if opts == [] then s
    else
      var t := ApplyOptions(s, opts[..|opts| - 1]);
      match opts[|opts| - 1]
      case None => t
      case Some(o) => ApplyOption(t, o)
  }

  /** The value an option gives its field does not depend on the settings it is applied to. */
  lemma OptionFixesItsField(s: Settings, t: Settings, o: AggregatorOption)
    ensures Agree(ApplyOption(s, o), ApplyOption(t, o), FieldOf(o))
  {
  }

  /** Applying a + b is applying a, then b: the options act in the order they are given. */
  lemma {:induction false} ApplyOptionsAppend(s: Settings, a: seq<Option<AggregatorOption>>, b: seq<Option<AggregatorOption>>)
    ensures ApplyOptions(s, a + b) == ApplyOptions(ApplyOptions(s, a), b)
    decreases |b|
  {
    if b == [] {
      assert a + b == a;
    } else {
      var b' := b[..|b| - 1];
      assert (a + b)[..|a + b| - 1] == a + b';
      assert (a + b)[|a + b| - 1] == b[|b| - 1];
      ApplyOptionsAppend(s, a, b');
    }
  }

  /** A nil option anywhere in the list has no effect. */
  lemma NilOptionSkipped(s: Settings, a: seq<Option<AggregatorOption>>, b: seq<Option<AggregatorOption>>)
    ensures ApplyOptions(s, a + [None] + b) == ApplyOptions(s, a + b)
  {
    ApplyOptionsAppend(s, a + [None], b);
    ApplyOptionsAppend(s, a, b);
    assert (a + [None])[..|a + [None]| - 1] == a;
  }

  /** A field that no option names keeps the value it started with. */
  lemma {:induction false} UnnamedFieldKept(s: Settings, opts: seq<Option<AggregatorOption>>, f: Field)
    requires forall j :: 0 <= j < |opts| ==> !Names(opts[j], f)
    ensures Agree(ApplyOptions(s, opts), s, f)
    decreases |opts|
  {
    if opts != [] {
      UnnamedFieldKept(s, opts[..|opts| - 1], f);
      assert !Names(opts[|opts| - 1], f);
    }
  }

  /** A field named by some option takes the value of the last option naming it. */
  lemma {:induction false} LastOptionWins(s: Settings, opts: seq<Option<AggregatorOption>>, f: Field, i: int)
    requires 0 <= i < |opts| && Names(opts[i], f)
    requires forall j :: i < j < |opts| ==> !Names(opts[j], f)
    ensures Agree(ApplyOptions(s, opts), ApplyOption(s, opts[i].value), f)
    decreases |opts|
  {
    var prefix := opts[..|opts| - 1];
    var t := ApplyOptions(s, prefix);
    if i == |opts| - 1 {
      OptionFixesItsField(t, s, opts[i].value);
    } else {
      LastOptionWins(s, prefix, f, i);
      assert !Names(opts[|opts| - 1], f);
    }
  }

  /** The customised construction of aggregator_test.go: every named field takes the value given. */
  lemma CustomizedSettings(dir: string)
    ensures var s := ApplyOptions(Initial("ns", "cm"),
                                  [Some(WithInterval(100 * Second)), Some(WithAppConfigLabel("a=b")),
                                   Some(WithConfigMapKey("a.yaml")), Some(WithSchemaFileDir(dir))]);
            s.interval == 100 * Second && s.configMapKey == "a.yaml" && s.appConfigLabel == "a=b" &&
            s.schemaFileDir == dir && s.logger == None
  {
    var s0 := Initial("ns", "cm");
    var opts := [Some(WithInterval(100 * Second)), Some(WithAppConfigLabel("a=b")),
                 Some(WithConfigMapKey("a.yaml")), Some(WithSchemaFileDir(dir))];
    LastOptionWins(s0, opts, IntervalField, 0);
    LastOptionWins(s0, opts, AppConfigLabelField, 1);
    LastOptionWins(s0, opts, ConfigMapKeyField, 2);
    LastOptionWins(s0, opts, SchemaFileDirField, 3);
    UnnamedFieldKept(s0, opts, LoggerField);
  }
}
