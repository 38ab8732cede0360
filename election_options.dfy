/**
 * The leader elector's settings, their defaults and the duration options
 * (pkg/leaderelection/leaderelection.go:25-41 and pkg/leaderelection/option.go).
 * As for the aggregator, an option closure is a datatype naming the field it assigns.
 */
module ElectionOptions {
  import opened Wrappers
  import opened Durations

  const DefaultLeaseDuration: Duration := 15 * Second
  const DefaultRenewDeadline: Duration := 10 * Second
  const DefaultRetryPeriod: Duration := 2 * Second

  /** The plain fields of the k8selector struct (the client aside). */
  datatype ElectorSettings = ElectorSettings(
    namespace: string,
    leaseName: string,
    identifier: string,
    leaseDuration: Duration,
    renewDeadline: Duration,
    retryPeriod: Duration)

  /** The struct literal NewK8sLeaderElector starts from. */
  function Initial(namespace: string, leaseName: string, identifier: string): (s: ElectorSettings)
    ensures s.namespace == namespace && s.leaseName == leaseName && s.identifier == identifier
    ensures s.leaseDuration == 15 * Second
    ensures s.renewDeadline == 10 * Second
    ensures s.retryPeriod == 2 * Second
  {
    ElectorSettings(namespace, leaseName, identifier, DefaultLeaseDuration, DefaultRenewDeadline, DefaultRetryPeriod)
  }

  /** One option closure of option.go. */
  datatype ElectorOption =
    | WithLeaseDuration(leaseDuration: Duration)
    | WithRenewDeadline(renewDeadline: Duration)
    | WithRetryPeriod(retryPeriod: Duration)

  datatype Field = LeaseDurationField | RenewDeadlineField | RetryPeriodField

  function FieldOf(o: ElectorOption): Field
  {
    match o
    case WithLeaseDuration(_) => LeaseDurationField
    case WithRenewDeadline(_) => RenewDeadlineField
    case WithRetryPeriod(_) => RetryPeriodField
  }

  /** a and b hold the same value in field f. */
  predicate Agree(a: ElectorSettings, b: ElectorSettings, f: Field)
  {
    match f
    case LeaseDurationField => a.leaseDuration == b.leaseDuration
    case RenewDeadlineField => a.renewDeadline == b.renewDeadline
    case RetryPeriodField => a.retryPeriod == b.retryPeriod
  }

  predicate Names(o: Option<ElectorOption>, f: Field)
  {
    o.Some? && FieldOf(o.value) == f
  }

  /** Calling one option closure: its own duration takes the option's value, everything else is kept. */
  function ApplyOption(s: ElectorSettings, o: ElectorOption): (r: ElectorSettings)
    ensures r.namespace == s.namespace && r.leaseName == s.leaseName && r.identifier == s.identifier
    ensures r.leaseDuration == (if o.WithLeaseDuration? then o.leaseDuration else s.leaseDuration)
    ensures r.renewDeadline == (if o.WithRenewDeadline? then o.renewDeadline else s.renewDeadline)
    ensures r.retryPeriod == (if o.WithRetryPeriod? then o.retryPeriod else s.retryPeriod)
  {
    match o
    case WithLeaseDuration(d) => s.(leaseDuration := d)
    case WithRenewDeadline(d) => s.(renewDeadline := d)
    case WithRetryPeriod(d) => s.(retryPeriod := d)
  }

  /** The option loop of NewK8sLeaderElector: nil options are skipped, the others applied in order. */
  function ApplyOptions(s: ElectorSettings, opts: seq<Option<ElectorOption>>): (r: ElectorSettings)
    ensures r.namespace == s.namespace && r.leaseName == s.leaseName && r.identifier == s.identifier
    decreases |opts|
  {
    if opts == [] then s
    else
      var t := ApplyOptions(s, opts[..|opts| - 1]);
      match opts[|opts| - 1]
      case None => t
      case Some(o) => ApplyOption(t, o)
  }

  /** Applying a + b is applying a, then b. */
  lemma {:induction false} ApplyOptionsAppend(s: ElectorSettings, a: seq<Option<ElectorOption>>, b: seq<Option<ElectorOption>>)
    ensures ApplyOptions(s, a + b) == ApplyOptions(ApplyOptions(s, a), b)
    decreases |b|
  {
    if b == [] {
      assert a + b == a;
    } else {
      var b' := b[..|b| - 1];
      assert (a + b)[..|a + b| - 1] == a + b';
      assert (a + b)[|a + b| - 1] == b[|b| - 1];
      ApplyOptionsAppend(s, a, b');
    }
  }

  /** A nil option anywhere in the list has no effect. */
  lemma NilOptionSkipped(s: ElectorSettings, a: seq<Option<ElectorOption>>, b: seq<Option<ElectorOption>>)
    ensures ApplyOptions(s, a + [None] + b) == ApplyOptions(s, a + b)
  {
    ApplyOptionsAppend(s, a + [None], b);
    ApplyOptionsAppend(s, a, b);
    assert (a + [None])[..|a + [None]| - 1] == a;
  }

  /** A duration that no option names keeps the value it started with. */
  lemma {:induction false} UnnamedFieldKept(s: ElectorSettings, opts: seq<Option<ElectorOption>>, f: Field)
    requires forall j :: 0 <= j < |opts| ==> !Names(opts[j], f)
    ensures Agree(ApplyOptions(s, opts), s, f)
    decreases |opts|
  {
    if opts != [] {
      UnnamedFieldKept(s, opts[..|opts| - 1], f);
      assert !Names(opts[|opts| - 1], f);
    }
  }

  /** A duration named by some option takes the value of the last option naming it. */
  lemma {:induction false} LastOptionWins(s: ElectorSettings, opts: seq<Option<ElectorOption>>, f: Field, i: int)
    requires 0 <= i < |opts| && Names(opts[i], f)
    requires forall j :: i < j < |opts| ==> !Names(opts[j], f)
    ensures Agree(ApplyOptions(s, opts), ApplyOption(s, opts[i].value), f)
    decreases |opts|
  {
    if i < |opts| - 1 {
      LastOptionWins(s, opts[..|opts| - 1], f, i);
      assert !Names(opts[|opts| - 1], f);
    }
  }

  /**
   * The electors of leaderelection_test.go: with only the lease and renew options given,
   * those two take the values given and the retry period keeps its 2s default.
   */
  lemma LeaseAndRenewOnly(namespace: string, leaseName: string, identifier: string)
    ensures var s := ApplyOptions(Initial(namespace, leaseName, identifier),
                                  [Some(WithLeaseDuration(10 * Second)), Some(WithRenewDeadline(5 * Second))]);
            s.leaseDuration == 10 * Second && s.renewDeadline == 5 * Second && s.retryPeriod == 2 * Second &&
            s.namespace == namespace && s.leaseName == leaseName && s.identifier == identifier
  {
    var s0 := Initial(namespace, leaseName, identifier);
    var opts := [Some(WithLeaseDuration(10 * Second)), Some(WithRenewDeadline(5 * Second))];
    LastOptionWins(s0, opts, LeaseDurationField, 0);
    LastOptionWins(s0, opts, RenewDeadlineField, 1);
    UnnamedFieldKept(s0, opts, RetryPeriodField);
  }
}
