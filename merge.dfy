/**
 * The nested loop of runOnce (pkg/aggregator/aggregator.go:115-134) that builds the global
 * config: every key/value fragment of every listed source ConfigMap is validated and decoded,
 * fragments that fail or decode to an empty mapping are dropped, and each surviving
 * fragment is tagged with its source namespace and appended to the global config.
 */
module Merge {
  import opened Wrappers
  import opened AggregatorTypes
  import opened Kube

  /**
   * The `convert` step: validate raw YAML text against the schema at the given reference and
   * decode it. The YAML-to-JSON conversion, the schema validation and the decoding belong to
   * foreign libraries, so the model takes the whole step as a parameter.
   */
  type Validator = (string, string) -> Result<Obj, string>

  /** A converted fragment is merged only if it decoded and is not empty (lines 123-130). */
  predicate Keeps(r: Result<Obj, string>)
  {
    r.Ok? && |r.value| > 0
  }

  /** Inject the source namespace (line 131): "namespace" now names ns, every other key is kept. */
  function Tag(cfg: Obj, ns: string): (r: Obj)
    ensures Namespace in r && r[Namespace] == Str(ns)
    ensures r.Keys == cfg.Keys + {Namespace}
    ensures forall k :: k in cfg && k != Namespace ==> r[k] == cfg[k]
  {
    cfg[Namespace := Str(ns)]
  }

  /** The entries one source ConfigMap contributes, its pairs taken in the order given. */
  function Entries(ns: string, data: seq<(string, string)>, schema: string, validate: Validator): (r: seq<Obj>)
    ensures |r| <= |data|
    ensures forall k :: 0 <= k < |r| ==> Namespace in r[k] && r[k][Namespace] == Str(ns)
    decreases |data|
  {
    if data == [] then []
    else
      var rest := Entries(ns, data[..|data| - 1], schema, validate);
      var r := validate(schema, data[|data| - 1].1);
      if Keeps(r) then rest + [Tag(r.value, ns)] else rest
  }

  /** GlobalConfig.Configs after the nested loop over all listed ConfigMaps. */
  function Merged(items: seq<SourceObject>, schema: string, validate: Validator): (r: seq<Obj>)
    ensures forall k :: 0 <= k < |r| ==> Namespace in r[k] && r[k][Namespace].Str?
    decreases |items|
  {
    if items == [] then []
    else
      var last := items[|items| - 1];
      Merged(items[..|items| - 1], schema, validate) + Entries(last.namespace, last.data, schema, validate)
  }

  /** The nested loop of runOnce that builds config.Configs. */
  method Collect(items: seq<SourceObject>, schema: string, validate: Validator) returns (configs: seq<Obj>)
    ensures configs == Merged(items, schema, validate)
  {
    configs := [];
    var i := 0;
    while i < |items|
      invariant 0 <= i <= |items|
      invariant configs == Merged(items[..i], schema, validate)
    {
      var cm := items[i];
      ghost var before := configs;
      var j := 0;
      while j < |cm.data|
        invariant 0 <= j <= |cm.data|
        invariant configs == before + Entries(cm.namespace, cm.data[..j], schema, validate)
      {
        assert cm.data[..j + 1][..j] == cm.data[..j];
        var appConfig := validate(schema, cm.data[j].1);
        if appConfig.Err? {
          j := j + 1;
          continue;
        }
        if |appConfig.value| == 0 {
          j := j + 1;
          continue;
        }
        configs := configs + [Tag(appConfig.value, cm.namespace)];
        j := j + 1;
      }
      assert cm.data[..|cm.data|] == cm.data;
      assert items[..i + 1][..i] == items[..i];
      i := i + 1;
    }
    assert items[..|items|] == items;
  }

  // ---------------------------------------------------------------------------
  // An independent, flat description of the same result: the list of all
  // fragments in discovery order, filtered and tagged.

  /** One key/value pair of one source ConfigMap. */
  datatype Fragment = Fragment(namespace: string, name: string, key: string, raw: string)

  function FragmentsIn(ns: string, name: string, data: seq<(string, string)>): (fs: seq<Fragment>)
    ensures |fs| == |data|
    ensures forall j :: 0 <= j < |fs| ==>
              fs[j] == Fragment(ns, name, data[j].0, data[j].1)
  {
    seq(|data|, j requires 0 <= j < |data| => Fragment(ns, name, data[j].0, data[j].1))
  }

  /** All fragments of all listed ConfigMaps: object by object, pair by pair. */
  function AllFragments(items: seq<SourceObject>): seq<Fragment>
    decreases |items|
  {
    if items == [] then []
    else
      var last := items[|items| - 1];
      AllFragments(items[..|items| - 1]) + FragmentsIn(last.namespace, last.name, last.data)
  }

  predicate KeptAt(fs: seq<Fragment>, i: int, schema: string, validate: Validator)
    requires 0 <= i < |fs|
  {
    Keeps(validate(schema, fs[i].raw))
  }

  /** The merged entry a kept fragment becomes. */
  function EntryOf(f: Fragment, schema: string, validate: Validator): Obj
    requires Keeps(validate(schema, f.raw))
  {
    Tag(validate(schema, f.raw).value, f.namespace)
  }

  function Selected(fs: seq<Fragment>, schema: string, validate: Validator): seq<Obj>
    decreases |fs|
  {
    if fs == [] then []
    else
      var f := fs[|fs| - 1];
      var rest := Selected(fs[..|fs| - 1], schema, validate);
      if Keeps(validate(schema, f.raw)) then rest + [EntryOf(f, schema, validate)] else rest
  }

  /** The positions of the kept fragments, ascending. */
  function KeptIndices(fs: seq<Fragment>, schema: string, validate: Validator): seq<int>
    decreases |fs|
  {
    if fs == [] then []
    else
      var rest := KeptIndices(fs[..|fs| - 1], schema, validate);
      if Keeps(validate(schema, fs[|fs| - 1].raw)) then rest + [|fs| - 1] else rest
  }

  lemma {:induction false} SelectedAppend(a: seq<Fragment>, b: seq<Fragment>, schema: string, validate: Validator)
    ensures Selected(a + b, schema, validate) == Selected(a, schema, validate) + Selected(b, schema, validate)
    decreases |b|
  {
    if b == [] {
      assert a + b == a;
    } else {
      var b' := b[..|b| - 1];
      assert (a + b)[..|a + b| - 1] == a + b';
      assert (a + b)[|a + b| - 1] == b[|b| - 1];
      SelectedAppend(a, b', schema, validate);
    }
  }

  /** The per-object loop agrees with filtering that object's fragments. */
  lemma {:induction false} EntriesAreSelected(ns: string, name: string, data: seq<(string, string)>, schema: string, validate: Validator)
    ensures Entries(ns, data, schema, validate) == Selected(FragmentsIn(ns, name, data), schema, validate)
    decreases |data|
  {
    if data != [] {
      var d' := data[..|data| - 1];
      EntriesAreSelected(ns, name, d', schema, validate);
      var fs := FragmentsIn(ns, name, data);
      assert fs[..|fs| - 1] == FragmentsIn(ns, name, d');
    }
  }

  /** The nested loop's result is the flat fragment list, filtered and tagged. */
  lemma {:induction false} MergedIsSelected(items: seq<SourceObject>, schema: string, validate: Validator)
    ensures Merged(items, schema, validate) == Selected(AllFragments(items), schema, validate)
    decreases |items|
  {
    if items != [] {
      var last := items[|items| - 1];
      var prefix := items[..|items| - 1];
      MergedIsSelected(prefix, schema, validate);
      EntriesAreSelected(last.namespace, last.name, last.data, schema, validate);
      SelectedAppend(AllFragments(prefix), FragmentsIn(last.namespace, last.name, last.data), schema, validate);
    }
  }

  /**
   * The selection holds exactly the kept fragments, in their order: the k-th entry is the
   * tagged mapping of the k-th kept fragment, the kept positions ascend, and every kept
   * fragment has a position.
   */
  lemma {:induction false} SelectedExactlyKept(fs: seq<Fragment>, schema: string, validate: Validator)
    ensures var ks := KeptIndices(fs, schema, validate);
            |Selected(fs, schema, validate)| == |ks| &&
            (forall k :: 0 <= k < |ks| ==>
               0 <= ks[k] < |fs| && KeptAt(fs, ks[k], schema, validate) &&
               Selected(fs, schema, validate)[k] == EntryOf(fs[ks[k]], schema, validate)) &&
            (forall k, k' :: 0 <= k < k' < |ks| ==> ks[k] < ks[k']) &&
            (forall i :: 0 <= i < |fs| && KeptAt(fs, i, schema, validate) ==> i in ks)
  {
    KeptIndicesAscend(fs, schema, validate);
    SelectedAtKept(fs, schema, validate);
    KeptIndicesComplete(fs, schema, validate);
  }

  /** The kept positions are positions of kept fragments, in ascending order. */
  lemma {:induction false} KeptIndicesAscend(fs: seq<Fragment>, schema: string, validate: Validator)
    ensures forall k :: 0 <= k < |KeptIndices(fs, schema, validate)| ==>
              0 <= KeptIndices(fs, schema, validate)[k] < |fs| &&
              KeptAt(fs, KeptIndices(fs, schema, validate)[k], schema, validate)
    ensures forall k, k' :: 0 <= k < k' < |KeptIndices(fs, schema, validate)| ==>
              KeptIndices(fs, schema, validate)[k] < KeptIndices(fs, schema, validate)[k']
    decreases |fs|
  {
    if fs != [] {
      var fs' := fs[..|fs| - 1];
      KeptIndicesAscend(fs', schema, validate);
      assert forall i :: 0 <= i < |fs'| ==> (KeptAt(fs', i, schema, validate) <==> KeptAt(fs, i, schema, validate));
    }
  }

  /** The k-th selected entry is the entry of the k-th kept fragment. */
  lemma {:induction false} SelectedAtKept(fs: seq<Fragment>, schema: string, validate: Validator)
    ensures |Selected(fs, schema, validate)| == |KeptIndices(fs, schema, validate)|
    ensures forall k :: 0 <= k < |KeptIndices(fs, schema, validate)| ==>
              0 <= KeptIndices(fs, schema, validate)[k] < |fs| &&
              KeptAt(fs, KeptIndices(fs, schema, validate)[k], schema, validate) &&
              Selected(fs, schema, validate)[k] == EntryOf(fs[KeptIndices(fs, schema, validate)[k]], schema, validate)
    decreases |fs|
  {
    KeptIndicesAscend(fs, schema, validate);
    if fs != [] {
      var fs' := fs[..|fs| - 1];
      SelectedAtKept(fs', schema, validate);
      KeptIndicesAscend(fs', schema, validate);
      assert forall i :: 0 <= i < |fs'| ==> fs'[i] == fs[i];
    }
  }

  /** Every kept fragment has a kept position. */
  lemma {:induction false} KeptIndicesComplete(fs: seq<Fragment>, schema: string, validate: Validator)
    ensures forall i :: 0 <= i < |fs| && KeptAt(fs, i, schema, validate) ==> i in KeptIndices(fs, schema, validate)
    decreases |fs|
  {
    if fs != [] {
      var fs' := fs[..|fs| - 1];
      KeptIndicesComplete(fs', schema, validate);
      assert forall i :: 0 <= i < |fs'| ==> (KeptAt(fs', i, schema, validate) <==> KeptAt(fs, i, schema, validate));
    }
  }

  lemma {:induction false} SelectedBound(fs: seq<Fragment>, schema: string, validate: Validator)
    ensures |Selected(fs, schema, validate)| <= |fs|
    decreases |fs|
  {
    if fs != [] {
      SelectedBound(fs[..|fs| - 1], schema, validate);
    }
  }

  /** A fragment that is dropped does not affect any other fragment's entry. */
  lemma DroppedFragmentIrrelevant(fs: seq<Fragment>, i: int, schema: string, validate: Validator)
    requires 0 <= i < |fs| && !KeptAt(fs, i, schema, validate)
    ensures Selected(fs[..i] + fs[i + 1..], schema, validate) == Selected(fs, schema, validate)
  {
    assert fs == fs[..i] + [fs[i]] + fs[i + 1..];
    SelectedAppend(fs[..i] + [fs[i]], fs[i + 1..], schema, validate);
    SelectedAppend(fs[..i], fs[i + 1..], schema, validate);
    assert (fs[..i] + [fs[i]])[..i] == fs[..i];
  }

  // ---------------------------------------------------------------------------
  // Properties of the merged configuration.

  /**
   * Configs holds exactly the fragments that converted to a non-empty mapping, in discovery
   * order, each tagged with its source namespace; so there are at most as many entries as fragments.
   */
  lemma MergedExactlyKept(items: seq<SourceObject>, schema: string, validate: Validator)
    ensures var fs := AllFragments(items);
            var ks := KeptIndices(fs, schema, validate);
            var m := Merged(items, schema, validate);
            |m| == |ks| <= |fs| &&
            (forall k :: 0 <= k < |ks| ==>
               0 <= ks[k] < |fs| && KeptAt(fs, ks[k], schema, validate) &&
               m[k] == EntryOf(fs[ks[k]], schema, validate)) &&
            (forall k, k' :: 0 <= k < k' < |ks| ==> ks[k] < ks[k']) &&
            (forall i :: 0 <= i < |fs| && KeptAt(fs, i, schema, validate) ==> i in ks)
  {
    var fs := AllFragments(items);
    MergedIsSelected(items, schema, validate);
    SelectedExactlyKept(fs, schema, validate);
    SelectedBound(fs, schema, validate);
  }

  /** Entries of earlier ConfigMaps come before entries of later ones. */
  lemma {:induction false} MergedAppend(a: seq<SourceObject>, b: seq<SourceObject>, schema: string, validate: Validator)
    ensures Merged(a + b, schema, validate) == Merged(a, schema, validate) + Merged(b, schema, validate)
    decreases |b|
  {
    if b == [] {
      assert a + b == a;
    } else {
      var b' := b[..|b| - 1];
      assert (a + b)[..|a + b| - 1] == a + b';
      assert (a + b)[|a + b| - 1] == b[|b| - 1];
      MergedAppend(a, b', schema, validate);
    }
  }

  /** Conversely, every key/value pair of every listed ConfigMap is a fragment. */
  lemma {:induction false} EveryPairIsAFragment(items: seq<SourceObject>, i: int, p: int)
    requires 0 <= i < |items| && 0 <= p < |items[i].data|
    ensures Fragment(items[i].namespace, items[i].name, items[i].data[p].0, items[i].data[p].1) in AllFragments(items)
    decreases |items|
  {
    var prefix := items[..|items| - 1];
    var last := items[|items| - 1];
    var tail := FragmentsIn(last.namespace, last.name, last.data);
    assert AllFragments(items) == AllFragments(prefix) + tail;
    if i == |items| - 1 {
      assert tail[p] == Fragment(items[i].namespace, items[i].name, items[i].data[p].0, items[i].data[p].1);
    } else {
      assert prefix[i] == items[i];
      EveryPairIsAFragment(prefix, i, p);
    }
  }

  /** Every fragment comes from one of the listed ConfigMaps and carries its namespace and name. */
  lemma {:induction false} FragmentsFromSources(items: seq<SourceObject>)
    ensures forall j :: 0 <= j < |AllFragments(items)| ==>
              exists i :: 0 <= i < |items| &&
                AllFragments(items)[j].namespace == items[i].namespace &&
                AllFragments(items)[j].name == items[i].name &&
                (AllFragments(items)[j].key, AllFragments(items)[j].raw) in items[i].data
    decreases |items|
  {
    if items == [] {
      assert AllFragments(items) == [];
    } else {
      var prefix := items[..|items| - 1];
      var last := items[|items| - 1];
      FragmentsFromSources(prefix);
      var fs := AllFragments(items);
      var head := AllFragments(prefix);
      var tail := FragmentsIn(last.namespace, last.name, last.data);
      forall j | 0 <= j < |fs|
        ensures exists i :: 0 <= i < |items| &&
                  fs[j].namespace == items[i].namespace && fs[j].name == items[i].name &&
                  (fs[j].key, fs[j].raw) in items[i].data
      {
        if j < |head| {
          assert fs[j] == head[j];
          var i :| 0 <= i < |prefix| && head[j].namespace == prefix[i].namespace &&
                   head[j].name == prefix[i].name && (head[j].key, head[j].raw) in prefix[i].data;
          assert prefix[i] == items[i];
        } else {
          var jj := j - |head|;
          assert fs[j] == tail[jj];
          assert last.data[jj] == (fs[j].key, fs[j].raw);
          assert items[|items| - 1] == last;
        }
      }
    }
  }

  /**
   * Every merged entry is non-empty and maps "namespace" to the namespace of one of the
   * listed ConfigMaps.
   */
  lemma MergedEntriesTagged(items: seq<SourceObject>, schema: string, validate: Validator)
    ensures forall k :: 0 <= k < |Merged(items, schema, validate)| ==>
              Namespace in Merged(items, schema, validate)[k] &&
              exists i :: 0 <= i < |items| &&
                Merged(items, schema, validate)[k][Namespace] == Str(items[i].namespace)
  {
    var fs := AllFragments(items);
    var m := Merged(items, schema, validate);
    MergedExactlyKept(items, schema, validate);
    FragmentsFromSources(items);
    var ks := KeptIndices(fs, schema, validate);
    forall k | 0 <= k < |m|
      ensures Namespace in m[k] && exists i :: 0 <= i < |items| && m[k][Namespace] == Str(items[i].namespace)
    {
      var j := ks[k];
      assert m[k] == EntryOf(fs[j], schema, validate);
      var i :| 0 <= i < |items| && fs[j].namespace == items[i].namespace;
      assert m[k][Namespace] == Str(items[i].namespace);
    }
  }

  /**
   * The scenario of aggregator_test.go: ConfigMaps in ns1 and ns2 each hold one fragment that
   * decodes to a three-key mapping. The result has two entries, tagged ns1 then ns2, each with
   * four keys and the fragment's own fields unchanged.
   */
  lemma TwoNamespacesScenario(schema: string, validate: Validator, raw: string, m: Obj)
    requires validate(schema, raw) == Ok(m)
    requires Namespace !in m && |m| == 3
    ensures Merged([SourceObject("ns1", "n1", [("hello", raw)]),
                    SourceObject("ns2", "n2", [("hello", raw)])], schema, validate)
            == [Tag(m, "ns1"), Tag(m, "ns2")]
    ensures |Tag(m, "ns1")| == 4 && |Tag(m, "ns2")| == 4
  {
    var o1 := SourceObject("ns1", "n1", [("hello", raw)]);
    var o2 := SourceObject("ns2", "n2", [("hello", raw)]);
    assert Keeps(validate(schema, raw));
    assert [("hello", raw)][..0] == [];
    assert Entries("ns1", o1.data, schema, validate) == [Tag(m, "ns1")];
    assert Entries("ns2", o2.data, schema, validate) == [Tag(m, "ns2")];
    assert [o1, o2][..1] == [o1];
    assert [o1][..0] == [];
    assert Merged([o1], schema, validate) == [Tag(m, "ns1")];
    assert Namespace !in m.Keys;
  }
}
