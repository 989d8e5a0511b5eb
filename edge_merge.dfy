/**
 * Merging parallel edges: all edges that share source, destination, protocol
 * and path kind collapse into one edge, in order of first occurrence.  A key
 * with a single edge keeps that edge unchanged; a larger group sums the
 * weights, keeps the lowest confidence, merges TLS, takes the sorted union of
 * every list field except filters, and keeps the filters in first-seen order
 * without repeats.
 */
module EdgeMerge {
  import opened Wrappers
  import opened Order
  import opened Edges

  type EdgeKey = (string, string, Protocol, PathKind)

  function KeyOf(e: Edge): EdgeKey {
    (e.src, e.dst, e.protocol, e.pathKind)
  }

  function KeysOf(edges: seq<Edge>): (r: seq<EdgeKey>)
    ensures |r| == |edges|
    ensures forall i :: 0 <= i < |edges| ==> r[i] == KeyOf(edges[i])
  {
    seq(|edges|, i requires 0 <= i < |edges| => KeyOf(edges[i]))
  }

  lemma KeysSnoc(edges: seq<Edge>, e: Edge)
    ensures KeysOf(edges + [e]) == KeysOf(edges) + [KeyOf(e)]
  {
  }

  /** The distinct keys, in order of first occurrence. */
  function GroupKeys(edges: seq<Edge>): seq<EdgeKey> {
    Dedup(KeysOf(edges))
  }

  /** The edges with key `k`, in input order. */
  function Members(edges: seq<Edge>, k: EdgeKey): (r: seq<Edge>)
    ensures forall e :: e in r <==> e in edges && KeyOf(e) == k
    ensures r == [] <==> k !in KeysOf(edges)
    decreases |edges|
  {
    if edges == [] then []
    else
      var init, last := edges[..|edges| - 1], edges[|edges| - 1];
      assert edges == init + [last];
      assert KeysOf(edges) == KeysOf(init) + [KeyOf(last)];
      Members(init, k) + if KeyOf(last) == k then [last] else []
  }

  // ---------------------------------------------------------------------------
  // Combining one group

  datatype ListField = SourcesField | SourcetypesField | IndexesField | FiltersField | DropRulesField | AppContextsField

  function FieldOf(e: Edge, f: ListField): seq<string> {
    match f
    case SourcesField => e.sources
    case SourcetypesField => e.sourcetypes
    case IndexesField => e.indexes
    case FiltersField => e.filters
    case DropRulesField => e.dropRules
    case AppContextsField => e.appContexts
  }

  /** One list field of every edge of a group, concatenated in order. */
  function Gather(group: seq<Edge>, f: ListField): seq<string>
    decreases |group|
  {
    if group == [] then [] else Gather(group[..|group| - 1], f) + FieldOf(group[|group| - 1], f)
  }

  /** The gathered entries are exactly those of the group's edges. */
  lemma {:induction false} GatherMembers(group: seq<Edge>, f: ListField)
    ensures forall x :: x in Gather(group, f) <==> exists e :: e in group && x in FieldOf(e, f)
    decreases |group|
  {
    if group != [] {
      var init, last := group[..|group| - 1], group[|group| - 1];
      assert group == init + [last];
      GatherMembers(init, f);
    }
  }

  function WeightSum(group: seq<Edge>): int
    decreases |group|
  {
    if group == [] then 0 else WeightSum(group[..|group| - 1]) + group[|group| - 1].weight
  }

  /** The lowest confidence of a group: derived as soon as one edge is. */
  function LowestConfidence(group: seq<Edge>): (r: Confidence)
    ensures r == Derived <==> exists e :: e in group && e.confidence == Derived
    decreases |group|
  {
    if group == [] then Explicit
    else
      var init, last := group[..|group| - 1], group[|group| - 1];
      assert group == init + [last];
      if last.confidence == Derived then Derived else LowestConfidence(init)
  }

  /** The known TLS settings of a group, in order; unknown ones are skipped. */
  function TlsValues(group: seq<Edge>): (r: seq<bool>)
    ensures forall b :: b in r <==> exists e :: e in group && e.tls == Some(b)
    decreases |group|
  {
    if group == [] then []
    else
      var init, last := group[..|group| - 1], group[|group| - 1];
      assert group == init + [last];
      TlsValues(init) + if last.tls.Some? then [last.tls.value] else []
  }

  /**
   * The merged TLS setting: unknown when no edge knows it, false as soon as
   * one edge is unsecured, true otherwise; an unknown setting next to known
   * ones is ignored.
   */
  function MergedTls(values: seq<bool>): (r: Option<bool>)
    ensures r.None? <==> values == []
    ensures r == Some(false) <==> false in values
  {
    if values == [] then None
    else if false in values then Some(false)
    else if forall v :: v in values ==> v then Some(true)
    else None
  }

  /** The merge of one group of edges sharing key `k`. */
  function MergeGroup(k: EdgeKey, group: seq<Edge>): (r: Edge)
    requires group != []
    requires forall e :: e in group ==> KeyOf(e) == k
    ensures KeyOf(r) == k
  {
    if |group| == 1 then group[0]
    else
      Edge(k.0, k.1, k.2, k.3,
           SortedSet(Gather(group, SourcesField)), SortedSet(Gather(group, SourcetypesField)),
           SortedSet(Gather(group, IndexesField)), Dedup(Gather(group, FiltersField)),
           SortedSet(Gather(group, DropRulesField)), MergedTls(TlsValues(group)), WeightSum(group),
           SortedSet(Gather(group, AppContextsField)), LowestConfidence(group))
  }

  /** `merge_similar_edges`, as a function of its input. */
  function MergeSpec(edges: seq<Edge>): (r: seq<Edge>)
    ensures |r| == |GroupKeys(edges)|
  {
    var ks := GroupKeys(edges);
    seq(|ks|, i requires 0 <= i < |ks| => MergeGroup(ks[i], Members(edges, ks[i])))
  }

  // ---------------------------------------------------------------------------
  // The imperative merge

  /** One more edge of a group, as the combining loop sees it. */
  lemma CombineStep(group: seq<Edge>, j: int)
    requires 0 <= j < |group|
    ensures Gather(group[..j + 1], SourcesField) == Gather(group[..j], SourcesField) + group[j].sources
    ensures Gather(group[..j + 1], SourcetypesField) == Gather(group[..j], SourcetypesField) + group[j].sourcetypes
    ensures Gather(group[..j + 1], IndexesField) == Gather(group[..j], IndexesField) + group[j].indexes
    ensures Gather(group[..j + 1], FiltersField) == Gather(group[..j], FiltersField) + group[j].filters
    ensures Gather(group[..j + 1], DropRulesField) == Gather(group[..j], DropRulesField) + group[j].dropRules
    ensures Gather(group[..j + 1], AppContextsField) == Gather(group[..j], AppContextsField) + group[j].appContexts
    ensures TlsValues(group[..j + 1]) == TlsValues(group[..j]) + if group[j].tls.Some? then [group[j].tls.value] else []
    ensures WeightSum(group[..j + 1]) == WeightSum(group[..j]) + group[j].weight
    ensures LowestConfidence(group[..j + 1]) == if group[j].confidence == Derived then Derived else LowestConfidence(group[..j])
  {
    assert group[..j + 1][..j] == group[..j];
  }

  /** Combines one group field by field, as the merge loop does. */
  method DedupInOrder(xs: seq<string>) returns (r: seq<string>)
    ensures r == Dedup(xs)
  {
    r := [];
    for j := 0 to |xs|
      invariant r == Dedup(xs[..j])
    {
      DedupAppend(xs[..j], xs[j]);
      assert xs[..j + 1] == xs[..j] + [xs[j]];
      if xs[j] !in r {
        r := r + [xs[j]];
      }
    }
    assert xs[..|xs|] == xs;
  }

  method CombineGroup(k: EdgeKey, group: seq<Edge>) returns (merged: Edge)
    requires group != []
    requires forall e :: e in group ==> KeyOf(e) == k
    ensures merged == MergeGroup(k, group)
  {
    if |group| == 1 {
      return group[0];
    }
    var sources, sourcetypes, indexes, filtersList, drops, apps: seq<string> := [], [], [], [], [], [];
    var tlsValues: seq<bool> := [];
    var weight := 0;
    var confidence := Explicit;
    for j := 0 to |group|
      invariant sources == Gather(group[..j], SourcesField)
      invariant sourcetypes == Gather(group[..j], SourcetypesField)
      invariant indexes == Gather(group[..j], IndexesField)
      invariant filtersList == Gather(group[..j], FiltersField)
      invariant drops == Gather(group[..j], DropRulesField)
      invariant apps == Gather(group[..j], AppContextsField)
      invariant tlsValues == TlsValues(group[..j])
      invariant weight == WeightSum(group[..j])
      invariant confidence == LowestConfidence(group[..j])
    {
      var e := group[j];
      CombineStep(group, j);
      sources := sources + e.sources;
      sourcetypes := sourcetypes + e.sourcetypes;
      indexes := indexes + e.indexes;
      filtersList := filtersList + e.filters;
      drops := drops + e.dropRules;
      apps := apps + e.appContexts;
      if e.tls.Some? {
        tlsValues := tlsValues + [e.tls.value];
      }
      weight := weight + e.weight;
      if e.confidence == Derived {
        confidence := Derived;
      }
    }
    assert group[..|group|] == group;
    var tls: Option<bool> := None;
    if tlsValues != [] {
      if false in tlsValues {
        tls := Some(false);
      } else if forall v :: v in tlsValues ==> v {
        tls := Some(true);
      } else {
        tls := None;
      }
    }
    var filters := DedupInOrder(filtersList);
    merged := Edge(k.0, k.1, k.2, k.3, SortedSet(sources), SortedSet(sourcetypes), SortedSet(indexes),
                   filters, SortedSet(drops), tls, weight, SortedSet(apps), confidence);
  }

  /** The grouping pass: the keys in first-occurrence order and each key's edges. */
  method GroupEdges(edges: seq<Edge>) returns (keys: seq<EdgeKey>, groups: map<EdgeKey, seq<Edge>>)
    ensures keys == GroupKeys(edges)
    ensures forall k :: k in groups <==> k in keys
    ensures forall k :: k in groups ==> groups[k] == Members(edges, k)
  {
    keys := [];
    groups := map[];
    for i := 0 to |edges|
      invariant keys == GroupKeys(edges[..i])
      invariant forall k :: k in groups <==> k in keys
      invariant forall k :: k in groups ==> groups[k] == Members(edges[..i], k)
    {
      var e := edges[i];
      var k := KeyOf(e);
      assert edges[..i + 1] == edges[..i] + [e];
      KeysSnoc(edges[..i], e);
      DedupAppend(KeysOf(edges[..i]), k);
      if k !in groups {
        keys := keys + [k];
        groups := groups[k := []];
      }
      groups := groups[k := groups[k] + [e]];
    }
    assert edges[..|edges|] == edges;
  }

  /** `merge_similar_edges`: groups by key in first-occurrence order, then merges each group. */
  method MergeSimilarEdges(edges: seq<Edge>) returns (merged: seq<Edge>)
    ensures merged == MergeSpec(edges)
  {
    var keys, groups := GroupEdges(edges);
    ghost var spec := MergeSpec(edges);
    merged := [];
    for i := 0 to |keys|
      invariant merged == spec[..i]
    {
      var group := groups[keys[i]];
      var e := CombineGroup(keys[i], group);
      merged := merged + [e];
    }
  }

  // ---------------------------------------------------------------------------
  // Properties of the merge

  /** One edge per distinct key, in order of first occurrence. */
  lemma MergedKeys(edges: seq<Edge>)
    ensures KeysOf(MergeSpec(edges)) == GroupKeys(edges)
    ensures NoDup(KeysOf(MergeSpec(edges)))
    ensures forall k :: k in KeysOf(MergeSpec(edges)) <==> k in KeysOf(edges)
  {
    var r, ks := MergeSpec(edges), GroupKeys(edges);
    forall i | 0 <= i < |r| ensures KeysOf(r)[i] == ks[i] {
      assert r[i] == MergeGroup(ks[i], Members(edges, ks[i]));
    }
  }

  /** The merged edge of key `ks[i]` is the merge of the edges with that key. */
  lemma MergedAt(edges: seq<Edge>, i: int)
    requires 0 <= i < |GroupKeys(edges)|
    ensures var k := GroupKeys(edges)[i];
            var group := Members(edges, k);
            group != [] && MergeSpec(edges)[i] == MergeGroup(k, group)
  {
  }

  /** Whatever is merged, each list field holds exactly the entries of the group's edges. */
  lemma MergedField(k: EdgeKey, group: seq<Edge>, f: ListField)
    requires group != []
    requires forall e :: e in group ==> KeyOf(e) == k
    ensures forall x :: x in FieldOf(MergeGroup(k, group), f) <==> exists e :: e in group && x in FieldOf(e, f)
  {
    GatherMembers(group, f);
    if |group| == 1 {
      assert group == [group[0]];
    } else {
      var g := Gather(group, f);
      assert forall x :: x in FieldOf(MergeGroup(k, group), f) <==> x in g by {
        match f
        case FiltersField =>
        case _ =>
      }
    }
  }

  /**
   * Each merged edge has the weight total, the lowest confidence and the
   * merged TLS of its group.
   */
  lemma MergedScalars(k: EdgeKey, group: seq<Edge>)
    requires group != []
    requires forall e :: e in group ==> KeyOf(e) == k
    ensures MergeGroup(k, group).weight == WeightSum(group)
    ensures MergeGroup(k, group).confidence == Derived <==> exists e :: e in group && e.confidence == Derived
    ensures MergeGroup(k, group).tls == Some(false) <==> exists e :: e in group && e.tls == Some(false)
    ensures MergeGroup(k, group).tls.None? <==> forall e :: e in group ==> e.tls.None?
  {
    var r := MergeGroup(k, group);
    if |group| == 1 {
      var e := group[0];
      assert group == [e];
      assert WeightSum(group) == WeightSum(group[..0]) + e.weight;
    } else {
      var tv := TlsValues(group);
      assert r.tls == MergedTls(tv);
      if tv != [] {
        assert tv[0] in tv;
      }
      if r.tls.None? {
        assert tv == [];
      }
      if exists e :: e in group && e.tls == Some(false) {
        assert false in tv;
      }
    }
  }

  /** A group of two or more edges has its list fields sorted without repeats, filters aside. */
  lemma MergedListsSorted(k: EdgeKey, group: seq<Edge>)
    requires |group| > 1
    requires forall e :: e in group ==> KeyOf(e) == k
    ensures var r := MergeGroup(k, group);
            StrictlySorted(r.sources) && StrictlySorted(r.sourcetypes) && StrictlySorted(r.indexes)
            && StrictlySorted(r.dropRules) && StrictlySorted(r.appContexts)
    ensures NoDup(MergeGroup(k, group).filters)
    ensures MergeGroup(k, group).filters == Dedup(Gather(group, FiltersField))
  {
  }

  /** An edge whose key no other edge shares comes through the merge unchanged. */
  lemma SingletonUnchanged(edges: seq<Edge>, j: int)
    requires 0 <= j < |edges|
    requires forall i :: 0 <= i < |edges| && i != j ==> KeyOf(edges[i]) != KeyOf(edges[j])
    ensures edges[j] in MergeSpec(edges)
  {
    var k := KeyOf(edges[j]);
    MembersOfUnique(edges, j);
    var ks := GroupKeys(edges);
    assert k in KeysOf(edges);
    var i :| 0 <= i < |ks| && ks[i] == k;
    assert MergeSpec(edges)[i] == MergeGroup(k, [edges[j]]);
  }

  lemma {:induction false} MembersOfUnique(edges: seq<Edge>, j: int)
    requires 0 <= j < |edges|
    requires forall i :: 0 <= i < |edges| && i != j ==> KeyOf(edges[i]) != KeyOf(edges[j])
    ensures Members(edges, KeyOf(edges[j])) == [edges[j]]
    decreases |edges|
  {
    var k := KeyOf(edges[j]);
    var init, last := edges[..|edges| - 1], edges[|edges| - 1];
    if j == |edges| - 1 {
      assert k !in KeysOf(init);
    } else {
      MembersOfUnique(init, j);
    }
  }

  // Weight

  /** The weights of the groups of keys `ks`, summed. */
  function SumOver(ks: seq<EdgeKey>, edges: seq<Edge>): int
    decreases |ks|
  {
    if ks == [] then 0 else SumOver(ks[..|ks| - 1], edges) + WeightSum(Members(edges, ks[|ks| - 1]))
  }

  lemma {:induction false} SumOverSnoc(ks: seq<EdgeKey>, edges: seq<Edge>, e: Edge)
    requires NoDup(ks)
    ensures SumOver(ks, edges + [e]) == SumOver(ks, edges) + if KeyOf(e) in ks then e.weight else 0
    decreases |ks|
  {
    if ks != [] {
      var init, k := ks[..|ks| - 1], ks[|ks| - 1];
      assert ks == init + [k];
      assert NoDup(init);
      SumOverSnoc(init, edges, e);
      var m := Members(edges + [e], k);
      assert (edges + [e])[..|edges + [e]| - 1] == edges;
      assert m == Members(edges, k) + if KeyOf(e) == k then [e] else [];
      var extra := if KeyOf(e) == k then [e] else [];
      WeightSumAppend(Members(edges, k), extra);
      if KeyOf(e) == k {
        assert KeyOf(e) !in init;
        assert WeightSum(extra) == WeightSum(extra[..0]) + e.weight;
      }
    }
  }

  lemma {:induction false} WeightSumAppend(a: seq<Edge>, b: seq<Edge>)
    ensures WeightSum(a + b) == WeightSum(a) + WeightSum(b)
    decreases |b|
  {
    if b == [] {
      assert a + b == a;
    } else {
      var init := b[..|b| - 1];
      assert (a + b)[..|a + b| - 1] == a + init;
      WeightSumAppend(a, init);
    }
  }

  lemma {:induction false} SumOverAll(ks: seq<EdgeKey>, edges: seq<Edge>)
    requires NoDup(ks)
    requires forall k :: k in KeysOf(edges) ==> k in ks
    ensures SumOver(ks, edges) == WeightSum(edges)
    decreases |edges|
  {
    if edges == [] {
      SumOverEmpty(ks);
    } else {
      var init, last := edges[..|edges| - 1], edges[|edges| - 1];
      assert edges == init + [last];
      KeysSnoc(init, last);
      SumOverAll(ks, init);
      SumOverSnoc(ks, init, last);
    }
  }

  lemma {:induction false} SumOverEmpty(ks: seq<EdgeKey>)
    ensures SumOver(ks, []) == 0
    decreases |ks|
  {
    if ks != [] {
      SumOverEmpty(ks[..|ks| - 1]);
    }
  }

  lemma {:induction false} SumOfMerged(ks: seq<EdgeKey>, edges: seq<Edge>, r: seq<Edge>)
    requires |r| == |ks|
    requires forall i :: 0 <= i < |ks| ==> r[i].weight == WeightSum(Members(edges, ks[i]))
    ensures WeightSum(r) == SumOver(ks, edges)
    decreases |ks|
  {
    if ks != [] {
      SumOfMerged(ks[..|ks| - 1], edges, r[..|r| - 1]);
    }
  }

  /** Merging preserves the total weight. */
  lemma WeightPreserved(edges: seq<Edge>)
    ensures WeightSum(MergeSpec(edges)) == WeightSum(edges)
  {
    var r, ks := MergeSpec(edges), GroupKeys(edges);
    forall i | 0 <= i < |ks| ensures r[i].weight == WeightSum(Members(edges, ks[i])) {
      MergedScalars(ks[i], Members(edges, ks[i]));
    }
    SumOfMerged(ks, edges, r);
    SumOverAll(ks, edges);
  }

  /**
   * Every merged edge speaks for exactly the edges with its key: its list
   * entries, its lowest confidence and its TLS are those of that group.
   */
  lemma MergedSummary(edges: seq<Edge>, i: int, f: ListField)
    requires 0 <= i < |MergeSpec(edges)|
    ensures var m := MergeSpec(edges)[i];
            && (forall x :: x in FieldOf(m, f) <==> exists e :: e in edges && KeyOf(e) == KeyOf(m) && x in FieldOf(e, f))
            && (m.confidence == Derived <==> exists e :: e in edges && KeyOf(e) == KeyOf(m) && e.confidence == Derived)
            && (m.tls == Some(false) <==> exists e :: e in edges && KeyOf(e) == KeyOf(m) && e.tls == Some(false))
            && (m.tls.None? <==> forall e :: e in edges && KeyOf(e) == KeyOf(m) ==> e.tls.None?)
  {
    var ks := GroupKeys(edges);
    var group := Members(edges, ks[i]);
    MergedField(ks[i], group, f);
    MergedScalars(ks[i], group);
  }

  /** Merging an already merged list changes nothing. */
  lemma MergeIdempotent(edges: seq<Edge>)
    ensures MergeSpec(MergeSpec(edges)) == MergeSpec(edges)
  {
    var r := MergeSpec(edges);
    MergedKeys(edges);
    MergeOfDistinct(r);
  }

  /** A list whose keys are all distinct is its own merge. */
  lemma MergeOfDistinct(xs: seq<Edge>)
    requires NoDup(KeysOf(xs))
    ensures MergeSpec(xs) == xs
  {
    DedupOfNoDup(KeysOf(xs));
    var r := MergeSpec(xs);
    forall j | 0 <= j < |xs| ensures r[j] == xs[j] {
      MembersOfUnique(xs, j);
      assert GroupKeys(xs)[j] == KeyOf(xs[j]);
    }
  }
}
