/**
 * One reconciliation cycle as a function of the cluster state
 * (pkg/aggregator/aggregator.go:110-172): list, merge, serialise, then publish by
 * create, update, or no write at all. The method Aggregator.RunOnce is proved to
 * change the cluster exactly as Cycle says; the lemmas below are about Cycle.
 */
module Reconcile {
  import opened Wrappers
  import opened AggregatorTypes
  import opened AggregatorOptions
  import opened Kube
  import opened Merge

  /** The error a failed cycle returns; each wraps the cause reported by the failing call. */
  datatype CycleError =
    | ListFailed(cause: string)
    | MarshalFailed(cause: string)
    | GetFailed(cause: string)
    | CreateFailed(cause: string)
    | UpdateFailed(cause: string)

  /** yaml.Marshal of the global config: a foreign library, taken as a parameter. */
  type Marshaller = GlobalConfig -> Result<string, string>

  const ManagedByKey: string := "app.kubernetes.io/managed-by"
  const ManagedByValue: string := "numalogic-config-aggregator"

  /** The ConfigMap created when the destination does not exist (lines 142-153). */
  function Fresh(s: Settings, text: string): (cm: ConfigMap)
    ensures cm.namespace == s.namespace && cm.name == s.configMap
    ensures cm.data == map[s.configMapKey := text] && |cm.data| == 1
    ensures cm.annotations == map[ManagedByKey := ManagedByValue]
  {
    ConfigMap(s.namespace, s.configMap, map[ManagedByKey := ManagedByValue], map[s.configMapKey := text])
  }

  /** `cm.Data[key]`: Go yields the empty string for a missing key. */
  function StoredText(cm: ConfigMap, key: string): (t: string)
    ensures key in cm.data ==> t == cm.data[key]
    ensures key !in cm.data ==> t == ""
  {
    if key in cm.data then cm.data[key] else ""
  }

  /** Lines 161-170: overwrite the configured key and update, unless the stored text is already current. */
  function Publish(w: World, key: string, cm: ConfigMap, text: string): (r: (World, Option<CycleError>))
    ensures r.0.(calls := w.calls, dest := w.dest) == w
    ensures |w.calls| <= |r.0.calls| <= |w.calls| + 1 && r.0.calls[..|w.calls|] == w.calls
    ensures text == StoredText(cm, key) ==> r == (w, None)
    ensures r.1.Some? <==> text != StoredText(cm, key) && w.updateFault.Some?
    ensures text != StoredText(cm, key) ==>
              |r.0.calls| == |w.calls| + 1 &&
              var u := r.0.calls[|w.calls|];
              u.UpdateCall? &&
              u.updated.(data := cm.data) == cm &&
              u.updated.data.Keys == cm.data.Keys + {key} &&
              StoredText(u.updated, key) == text &&
              (forall k :: k in cm.data && k != key ==> u.updated.data[k] == cm.data[k]) &&
              (r.1.None? ==> r.0.dest == Some(u.updated))
    ensures r.1.Some? ==> r.0.dest == w.dest && w.updateFault.Some? && r.1 == Some(UpdateFailed(w.updateFault.value))
  {
    if text != StoredText(cm, key) then
      var w' := AfterUpdate(w, cm.(data := cm.data[key := text]));
      match w.updateFault
      case Some(e) => (w', Some(UpdateFailed(e)))
      case None => (w', None)
    else (w, None)
  }

  /** The whole cycle: the new cluster state and the error runOnce returns, if any. */
  function Cycle(s: Settings, schema: string, w: World, validate: Validator, marshal: Marshaller): (r: (World, Option<CycleError>))
    ensures r.0.(calls := w.calls, dest := w.dest) == w
    ensures |r.0.calls| > |w.calls| && r.0.calls[..|w.calls| + 1] == w.calls + [ListCall(s.appConfigLabel)]
    ensures r.1.None? ==> r.0.dest.Some? && w.listFault.None? && Serialised(s, schema, w, validate, marshal).Ok? &&
                          StoredText(r.0.dest.value, s.configMapKey) == Serialised(s, schema, w, validate, marshal).value
  {
    var listed := ListResult(w);
    var w1 := w.(calls := w.calls + [ListCall(s.appConfigLabel)]);
    match listed
    case Err(e) => (w1, Some(ListFailed(e)))
    case Ok(items) =>
      match marshal(GlobalConfig(Merged(items, schema, validate)))
      case Err(e) => (w1, Some(MarshalFailed(e)))
      case Ok(text) =>
        var got := GetResult(w1);
        var w2 := w1.(calls := w1.calls + [GetCall(s.namespace, s.configMap)]);
        match got
        case Err(Failure(e)) => (w2, Some(GetFailed(e)))
        case Err(NotFound) =>
          var cm := Fresh(s, text);
          var w3 := AfterCreate(w2, cm);
          if w2.createFault.Some? then (w3, Some(CreateFailed(w2.createFault.value)))
          else Publish(w3, s.configMapKey, cm, text)
        case Ok(cm) => Publish(w2, s.configMapKey, cm, text)
  }

  /** The serialised text a cycle whose listing succeeds publishes. */
  function Serialised(s: Settings, schema: string, w: World, validate: Validator, marshal: Marshaller): Result<string, string>
  {
    marshal(GlobalConfig(Merged(w.sources, schema, validate)))
  }

  // ---------------------------------------------------------------------------
  // Error paths

  /** A failed listing aborts the cycle: no get, create or update call, nothing stored changes. */
  lemma ListFailureAborts(s: Settings, schema: string, w: World, validate: Validator, marshal: Marshaller)
    requires w.listFault.Some?
    ensures Cycle(s, schema, w, validate, marshal) ==
            (w.(calls := w.calls + [ListCall(s.appConfigLabel)]), Some(ListFailed(w.listFault.value)))
  {
  }

  /** A serialisation failure aborts the cycle before the destination is read. */
  lemma MarshalFailureAborts(s: Settings, schema: string, w: World, validate: Validator, marshal: Marshaller)
    requires w.listFault.None? && Serialised(s, schema, w, validate, marshal).Err?
    ensures Cycle(s, schema, w, validate, marshal) ==
            (w.(calls := w.calls + [ListCall(s.appConfigLabel)]),
             Some(MarshalFailed(Serialised(s, schema, w, validate, marshal).error)))
  {
  }

  /** A get failure other than not-found aborts the cycle without any write. */
  lemma GetFailureAborts(s: Settings, schema: string, w: World, validate: Validator, marshal: Marshaller)
    requires w.listFault.None? && Serialised(s, schema, w, validate, marshal).Ok? && w.getFault.Some?
    ensures Cycle(s, schema, w, validate, marshal) ==
            (w.(calls := w.calls + [ListCall(s.appConfigLabel), GetCall(s.namespace, s.configMap)]),
             Some(GetFailed(w.getFault.value)))
  {
    assert w.calls + [ListCall(s.appConfigLabel)] + [GetCall(s.namespace, s.configMap)]
        == w.calls + [ListCall(s.appConfigLabel), GetCall(s.namespace, s.configMap)];
  }

  /** A cycle fails exactly when one of the five failures occurs on the path it takes. */
  lemma FailsOnlyOnFault(s: Settings, schema: string, w: World, validate: Validator, marshal: Marshaller)
    ensures var err := Cycle(s, schema, w, validate, marshal).1;
            err.Some? <==>
              w.listFault.Some? ||
              Serialised(s, schema, w, validate, marshal).Err? ||
              w.getFault.Some? ||
              (w.dest.None? && w.createFault.Some?) ||
              (w.dest.Some? && w.updateFault.Some? &&
               Serialised(s, schema, w, validate, marshal).value != StoredText(w.dest.value, s.configMapKey))
  {
  }

  // ---------------------------------------------------------------------------
  // The three publishing outcomes

  /**
   * An absent destination is created in the configured namespace and name, holding only the
   * serialised text under the configured key and the ownership annotation; no update follows.
   */
  lemma CreatesWhenAbsent(s: Settings, schema: string, w: World, validate: Validator, marshal: Marshaller)
    requires w.listFault.None? && Serialised(s, schema, w, validate, marshal).Ok?
    requires w.getFault.None? && w.dest.None?
    ensures var text := Serialised(s, schema, w, validate, marshal).value;
            var (w', err) := Cycle(s, schema, w, validate, marshal);
            w'.calls == w.calls + [ListCall(s.appConfigLabel), GetCall(s.namespace, s.configMap),
                                   CreateCall(Fresh(s, text))] &&
            (w.createFault.None? ==> err == None && w'.dest == Some(Fresh(s, text))) &&
            (w.createFault.Some? ==> err == Some(CreateFailed(w.createFault.value)) && w'.dest == None)
  {
    var text := Serialised(s, schema, w, validate, marshal).value;
    assert StoredText(Fresh(s, text), s.configMapKey) == text;
    assert w.calls + [ListCall(s.appConfigLabel)] + [GetCall(s.namespace, s.configMap)] + [CreateCall(Fresh(s, text))]
        == w.calls + [ListCall(s.appConfigLabel), GetCall(s.namespace, s.configMap), CreateCall(Fresh(s, text))];
  }

  /**
   * A destination whose text under the configured key differs from the serialised text gets
   * exactly one update, which changes only that key: its other data keys, its identity and its
   * annotations are kept.
   */
  lemma UpdatesWhenStale(s: Settings, schema: string, w: World, validate: Validator, marshal: Marshaller)
    requires w.listFault.None? && Serialised(s, schema, w, validate, marshal).Ok?
    requires w.getFault.None? && w.dest.Some?
    requires Serialised(s, schema, w, validate, marshal).value != StoredText(w.dest.value, s.configMapKey)
    ensures var text := Serialised(s, schema, w, validate, marshal).value;
            var cm := w.dest.value;
            var (w', err) := Cycle(s, schema, w, validate, marshal);
            |w'.calls| == |w.calls| + 3 && w'.calls[..|w.calls| + 2] ==
              w.calls + [ListCall(s.appConfigLabel), GetCall(s.namespace, s.configMap)] &&
            var last := w'.calls[|w.calls| + 2];
            last.UpdateCall? &&
            last.updated.namespace == cm.namespace && last.updated.name == cm.name &&
            last.updated.annotations == cm.annotations &&
            last.updated.data.Keys == cm.data.Keys + {s.configMapKey} &&
            last.updated.data[s.configMapKey] == text &&
            (forall k :: k in cm.data && k != s.configMapKey ==> last.updated.data[k] == cm.data[k]) &&
            (w.updateFault.None? ==> err == None && w'.dest == Some(last.updated)) &&
            (w.updateFault.Some? ==> err == Some(UpdateFailed(w.updateFault.value)) && w'.dest == w.dest)
  {
    var text := Serialised(s, schema, w, validate, marshal).value;
    var cm := w.dest.value;
    var updated := cm.(data := cm.data[s.configMapKey := text]);
    var w' := Cycle(s, schema, w, validate, marshal).0;
    assert w'.calls == w.calls + [ListCall(s.appConfigLabel)] + [GetCall(s.namespace, s.configMap)] + [UpdateCall(updated)];
    assert w'.calls[..|w.calls| + 2] == w.calls + [ListCall(s.appConfigLabel), GetCall(s.namespace, s.configMap)];
  }

  /** A destination that already holds the serialised text is left alone: no write call at all. */
  lemma NoWriteWhenCurrent(s: Settings, schema: string, w: World, validate: Validator, marshal: Marshaller)
    requires w.listFault.None? && Serialised(s, schema, w, validate, marshal).Ok?
    requires w.getFault.None? && w.dest.Some?
    requires Serialised(s, schema, w, validate, marshal).value == StoredText(w.dest.value, s.configMapKey)
    ensures Cycle(s, schema, w, validate, marshal) ==
            (w.(calls := w.calls + [ListCall(s.appConfigLabel), GetCall(s.namespace, s.configMap)]), None)
  {
    assert w.calls + [ListCall(s.appConfigLabel)] + [GetCall(s.namespace, s.configMap)]
        == w.calls + [ListCall(s.appConfigLabel), GetCall(s.namespace, s.configMap)];
  }

  // ---------------------------------------------------------------------------
  // Whole-cycle properties

  /** A cycle changes nothing but the call log and the destination, and makes at most one write. */
  lemma AtMostOneWrite(s: Settings, schema: string, w: World, validate: Validator, marshal: Marshaller)
    ensures var w' := Cycle(s, schema, w, validate, marshal).0;
            w'.(calls := w.calls, dest := w.dest) == w &&
            |w'.calls| > |w.calls| && w'.calls[..|w.calls|] == w.calls &&
            |Writes(w'.calls[|w.calls|..])| <= 1 &&
            |Writes(w'.calls)| <= |Writes(w.calls)| + 1
  {
    var w' := Cycle(s, schema, w, validate, marshal).0;
    var added := w'.calls[|w.calls|..];
    assert w'.calls == w.calls + added;
    CycleCalls(s, schema, w, validate, marshal);
    ReadThenWrite(added, ListCall(s.appConfigLabel), GetCall(s.namespace, s.configMap));
    WritesAppend(w.calls, added);
  }

  /** The calls a cycle adds: the list, then possibly the get, then possibly one more call. */
  lemma CycleCalls(s: Settings, schema: string, w: World, validate: Validator, marshal: Marshaller)
    ensures var added := Cycle(s, schema, w, validate, marshal).0.calls[|w.calls|..];
            1 <= |added| <= 3 && added[0] == ListCall(s.appConfigLabel) &&
            (|added| >= 2 ==> added[1] == GetCall(s.namespace, s.configMap))
  {
  }

  /** A log of the list call, possibly the get call and possibly one more call holds at most one write. */
  lemma ReadThenWrite(added: seq<ApiCall>, l: ApiCall, g: ApiCall)
    requires l.ListCall? && g.GetCall?
    requires 1 <= |added| <= 3 && added[0] == l && (|added| >= 2 ==> added[1] == g)
    ensures |Writes(added)| <= 1
  {
    assert Writes([l]) == [] by { assert [l][..0] == []; }
    assert Writes([l, g]) == [] by { assert [l, g][..1] == [l]; }
    if |added| == 1 {
      assert added == [l];
    } else if |added| == 2 {
      assert added == [l, g];
    } else {
      assert added[..2] == [l, g];
    }
  }

  /** After a successful cycle the destination holds the serialised text under the configured key. */
  lemma SuccessPublishes(s: Settings, schema: string, w: World, validate: Validator, marshal: Marshaller)
    requires Cycle(s, schema, w, validate, marshal).1 == None
    ensures var w' := Cycle(s, schema, w, validate, marshal).0;
            w.listFault.None? && Serialised(s, schema, w, validate, marshal).Ok? &&
            w'.dest.Some? &&
            StoredText(w'.dest.value, s.configMapKey) == Serialised(s, schema, w, validate, marshal).value
  {
  }

  /**
   * Idempotence: once a cycle has succeeded, a second cycle against the unchanged sources
   * lists and reads but makes no write, leaves the destination as it is and succeeds.
   * The model's writes never touch the listed sources: the destination is taken not to match
   * the label selector.
   */
  lemma SecondRunWritesNothing(s: Settings, schema: string, w: World, validate: Validator, marshal: Marshaller)
    requires Cycle(s, schema, w, validate, marshal).1 == None
    ensures var w1 := Cycle(s, schema, w, validate, marshal).0;
            Cycle(s, schema, w1, validate, marshal) ==
              (w1.(calls := w1.calls + [ListCall(s.appConfigLabel), GetCall(s.namespace, s.configMap)]), None)
  {
    var w1 := Cycle(s, schema, w, validate, marshal).0;
    SuccessPublishes(s, schema, w, validate, marshal);
    AtMostOneWrite(s, schema, w, validate, marshal);
    assert w1.sources == w.sources && w1.listFault == w.listFault && w1.getFault == w.getFault;
    NoWriteWhenCurrent(s, schema, w1, validate, marshal);
  }
}
