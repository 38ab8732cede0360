/**
 * The part of the cluster API the reconciler talks to: a list of the labelled
 * source ConfigMaps and get/create/update of the one destination ConfigMap.
 * The cluster is plain state. Each call is recorded in a log, and every failure
 * the real API can report is an injectable fault of the state.
 */
module Kube {
  import opened Wrappers

  /** A ConfigMap: identity, annotations and its key/text data. */
  datatype ConfigMap = ConfigMap(
    namespace: string,
    name: string,
    annotations: map<string, string>,
    data: map<string, string>)

  /**
   * A labelled source ConfigMap as the list call returns it. Its data is a Go map whose
   * iteration order is not fixed; the sequence stands for the order one iteration met the pairs.
   */
  datatype SourceObject = SourceObject(namespace: string, name: string, data: seq<(string, string)>)

  /** A failed API call: the not-found status, or any other error. */
  datatype ApiError = NotFound | Failure(cause: string)

  /** One call made on the cluster, in the order made. */
  datatype ApiCall =
    | ListCall(selector: string)
    | GetCall(namespace: string, name: string)
    | CreateCall(created: ConfigMap)
    | UpdateCall(updated: ConfigMap)

  predicate IsWrite(c: ApiCall)
  {
    c.CreateCall? || c.UpdateCall?
  }

  /** The write calls of a log, in order. */
  function Writes(calls: seq<ApiCall>): (w: seq<ApiCall>)
    ensures |w| <= |calls|
    ensures forall k :: 0 <= k < |w| ==> IsWrite(w[k])
    decreases |calls|
  {
    if calls == [] then []
    else
      var rest := Writes(calls[..|calls| - 1]);
      if IsWrite(calls[|calls| - 1]) then rest + [calls[|calls| - 1]] else rest
  }

  lemma {:induction false} WritesAppend(a: seq<ApiCall>, b: seq<ApiCall>)
    ensures Writes(a + b) == Writes(a) + Writes(b)
    decreases |b|
  {
    if b == [] {
      assert a + b == a;
    } else {
      var b' := b[..|b| - 1];
      assert (a + b)[..|a + b| - 1] == a + b';
      assert (a + b)[|a + b| - 1] == b[|b| - 1];
      WritesAppend(a, b');
    }
  }

  /**
   * The cluster as the reconciler sees it.
   * `sources` are the ConfigMaps carrying the configured label; `dest` is the ConfigMap at
   * the configured destination namespace and name, if any. The destination is taken not to be
   * one of the sources, so a write never changes what the list call returns. Each fault, when present, is the
   * error the corresponding call returns; a get fault is an error other than not-found.
   */
  datatype World = World(
    sources: seq<SourceObject>,
    listFault: Option<string>,
    dest: Option<ConfigMap>,
    getFault: Option<string>,
    createFault: Option<string>,
    updateFault: Option<string>,
    calls: seq<ApiCall>)

  function ListResult(w: World): (r: Result<seq<SourceObject>, string>)
    ensures r.Ok? <==> w.listFault.None?
    ensures r.Ok? ==> r.value == w.sources
  {
    match w.listFault
    case Some(e) => Err(e)
    case None => Ok(w.sources)
  }

  function GetResult(w: World): (r: Result<ConfigMap, ApiError>)
    ensures r == Err(NotFound) <==> w.getFault.None? && w.dest.None?
    ensures r.Ok? <==> w.getFault.None? && w.dest.Some?
    ensures r.Ok? ==> Some(r.value) == w.dest
  {
    match w.getFault
    case Some(e) => Err(Failure(e))
    case None =>
      match w.dest
      case None => Err(NotFound)
      case Some(cm) => Ok(cm)
  }

  /** A create call: logged; stores the object unless it fails. */
  function AfterCreate(w: World, cm: ConfigMap): (r: World)
    ensures r.calls == w.calls + [CreateCall(cm)]
    ensures r.dest == if w.createFault.None? then Some(cm) else w.dest
    ensures r.(calls := w.calls, dest := w.dest) == w
  {
    w.(calls := w.calls + [CreateCall(cm)], dest := if w.createFault.None? then Some(cm) else w.dest)
  }

  /** An update call: logged; replaces the stored object unless it fails. */
  function AfterUpdate(w: World, cm: ConfigMap): (r: World)
    ensures r.calls == w.calls + [UpdateCall(cm)]
    ensures r.dest == if w.updateFault.None? then Some(cm) else w.dest
    ensures r.(calls := w.calls, dest := w.dest) == w
  {
    w.(calls := w.calls + [UpdateCall(cm)], dest := if w.updateFault.None? then Some(cm) else w.dest)
  }

  /** The cluster client, whose calls change the cluster in place. */
  class Cluster {
    var sources: seq<SourceObject>
    var listFault: Option<string>
    var dest: Option<ConfigMap>
    var getFault: Option<string>
    var createFault: Option<string>
    var updateFault: Option<string>
    var calls: seq<ApiCall>

    function State(): World
      reads this
    {
      World(sources, listFault, dest, getFault, createFault, updateFault, calls)
    }

    constructor (w: World)
      ensures State() == w
    {
      sources, listFault, dest := w.sources, w.listFault, w.dest;
      getFault, createFault, updateFault := w.getFault, w.createFault, w.updateFault;
      calls := w.calls;
    }

    /** List the ConfigMaps of all namespaces that match a label selector. */
    method List(selector: string) returns (r: Result<seq<SourceObject>, string>)
      modifies this
      ensures r == ListResult(old(State()))
      ensures State() == old(State()).(calls := old(calls) + [ListCall(selector)])
    {
      r := if listFault.Some? then Err(listFault.value) else Ok(sources);
      calls := calls + [ListCall(selector)];
    }

    /** Get the destination ConfigMap. */
    method Get(namespace: string, name: string) returns (r: Result<ConfigMap, ApiError>)
      modifies this
      ensures r == GetResult(old(State()))
      ensures State() == old(State()).(calls := old(calls) + [GetCall(namespace, name)])
    {
      r := GetResult(State());
      calls := calls + [GetCall(namespace, name)];
    }

    /** Create the destination ConfigMap; the result is the error, if any. */
    method Create(cm: ConfigMap) returns (fault: Option<string>)
      modifies this
      ensures fault == old(createFault)
      ensures State() == AfterCreate(old(State()), cm)
    {
      fault := createFault;
      if fault.None? {
        dest := Some(cm);
      }
      calls := calls + [CreateCall(cm)];
    }

    /** Update the destination ConfigMap; the result is the error, if any. */
    method Update(cm: ConfigMap) returns (fault: Option<string>)
      modifies this
      ensures fault == old(updateFault)
      ensures State() == AfterUpdate(old(State()), cm)
    {
      fault := updateFault;
      if fault.None? {
        dest := Some(cm);
      }
      calls := calls + [UpdateCall(cm)];
    }
  }
}
