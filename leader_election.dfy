/**
 * The Kubernetes leader elector of pkg/leaderelection/leaderelection.go: its constructor,
 * and the configuration RunOrDie hands to client-go's leader election. The election itself
 * (acquiring and renewing the lease, invoking the callbacks) is client-go's and not modelled.
 */
module LeaderElection {
  import opened Wrappers
  import opened Durations
  import opened ElectionOptions

  /** A Go callback value, identified by a token; the model never calls it. */
  datatype Callback = Callback(id: nat)

  datatype LeaderCallbacks = LeaderCallbacks(onStartedLeading: Callback, onStoppedLeading: Callback)

  /** The lease lock: the lease's name and namespace and the holder identity to record. */
  datatype LeaseLock = LeaseLock(name: string, namespace: string, identity: string)

  /** client-go's LeaderElectionConfig, as far as RunOrDie fills it. */
  datatype LeaderElectionConfig = LeaderElectionConfig(
    lock: LeaseLock,
    releaseOnCancel: bool,
    leaseDuration: Duration,
    renewDeadline: Duration,
    retryPeriod: Duration,
    callbacks: LeaderCallbacks)

  /** The configuration RunOrDie builds from the elector's fields and the callbacks it is given. */
  function ElectionConfig(e: ElectorSettings, callbacks: LeaderCallbacks): (c: LeaderElectionConfig)
    ensures c.lock == LeaseLock(e.leaseName, e.namespace, e.identifier)
    ensures c.releaseOnCancel
    ensures c.leaseDuration == e.leaseDuration && c.renewDeadline == e.renewDeadline && c.retryPeriod == e.retryPeriod
    ensures c.callbacks == callbacks
  {
    LeaderElectionConfig(
      LeaseLock(e.leaseName, e.namespace, e.identifier),
      true,
      e.leaseDuration, e.renewDeadline, e.retryPeriod,
      LeaderCallbacks(callbacks.onStartedLeading, callbacks.onStoppedLeading))
  }

  /** The elector's fields, read back from a configuration. */
  function SettingsOf(c: LeaderElectionConfig): ElectorSettings
  {
    ElectorSettings(c.lock.namespace, c.lock.name, c.lock.identity, c.leaseDuration, c.renewDeadline, c.retryPeriod)
  }

  /** The configuration loses nothing: the elector and the callbacks can be read back from it. */
  lemma ElectionConfigKeepsEverything(e: ElectorSettings, callbacks: LeaderCallbacks)
    ensures SettingsOf(ElectionConfig(e, callbacks)) == e
    ensures ElectionConfig(e, callbacks).callbacks == callbacks
    ensures ElectionConfig(e, callbacks).releaseOnCancel
  {
  }

  /**
   * The configuration of an elector built with given options: the lock names the lease and
   * identity exactly as passed, and a duration no option names keeps its default.
   */
  lemma {:induction false} ConfigOfNewElector(namespace: string, leaseName: string, identifier: string,
                                              opts: seq<Option<ElectorOption>>, callbacks: LeaderCallbacks)
    ensures var c := ElectionConfig(ApplyOptions(Initial(namespace, leaseName, identifier), opts), callbacks);
            c.lock == LeaseLock(leaseName, namespace, identifier) && c.releaseOnCancel &&
            ((forall j :: 0 <= j < |opts| ==> !Names(opts[j], LeaseDurationField)) ==> c.leaseDuration == 15 * Second) &&
            ((forall j :: 0 <= j < |opts| ==> !Names(opts[j], RenewDeadlineField)) ==> c.renewDeadline == 10 * Second) &&
            ((forall j :: 0 <= j < |opts| ==> !Names(opts[j], RetryPeriodField)) ==> c.retryPeriod == 2 * Second)
  {
    var s0 := Initial(namespace, leaseName, identifier);
    if forall j :: 0 <= j < |opts| ==> !Names(opts[j], LeaseDurationField) {
      UnnamedFieldKept(s0, opts, LeaseDurationField);
    }
    if forall j :: 0 <= j < |opts| ==> !Names(opts[j], RenewDeadlineField) {
      UnnamedFieldKept(s0, opts, RenewDeadlineField);
    }
    if forall j :: 0 <= j < |opts| ==> !Names(opts[j], RetryPeriodField) {
      UnnamedFieldKept(s0, opts, RetryPeriodField);
    }
  }

  class K8sElector {
    var namespace: string
    var leaseName: string
    var identifier: string
    var leaseDuration: Duration
    var renewDeadline: Duration
    var retryPeriod: Duration

    function Fields(): ElectorSettings
      reads this
    {
      ElectorSettings(namespace, leaseName, identifier, leaseDuration, renewDeadline, retryPeriod)
    }

    /** Calling one option closure on the elector. */
    method Apply(o: ElectorOption)
      modifies this
      ensures Fields() == ApplyOption(old(Fields()), o)
    {
      match o
      case WithLeaseDuration(d) => leaseDuration := d;
      case WithRenewDeadline(d) => renewDeadline := d;
      case WithRetryPeriod(d) => retryPeriod := d;
    }

    /** NewK8sLeaderElector: identity as passed, default durations, then the non-nil options in order. */
    constructor (namespace: string, leaseName: string, identifier: string, opts: seq<Option<ElectorOption>>)
      ensures Fields() == ApplyOptions(Initial(namespace, leaseName, identifier), opts)
    {
      this.namespace := namespace;
      this.leaseName := leaseName;
      this.identifier := identifier;
      leaseDuration := DefaultLeaseDuration;
      renewDeadline := DefaultRenewDeadline;
      retryPeriod := DefaultRetryPeriod;
      new;
      var i := 0;
      while i < |opts|
        invariant 0 <= i <= |opts|
        invariant Fields() == ApplyOptions(Initial(namespace, leaseName, identifier), opts[..i])
      {
        assert opts[..i + 1][..i] == opts[..i];
        if opts[i].Some? {
          Apply(opts[i].value);
        }
        i := i + 1;
      }
      assert opts[..|opts|] == opts;
    }
  }
}
