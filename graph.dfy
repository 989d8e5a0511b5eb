/**
 * The canonical graph: the primary host, the merged edges, a placeholder host
 * for every destination that is not a known host, and the graph metadata with
 * the resolver's statistics.
 */
module Graph {
  import opened Wrappers
  import opened Text
  import opened Order
  import opened Dicts
  import opened ConfExtract
  import opened ConfSnapshot
  import opened HostInference
  import opened TransformEval
  import opened Edges
  import opened EdgeMerge

  const Generator := "splunk-autodoc-v2.0"
  const PlaceholderLabel := "placeholder"
  const DiscoveryLabel := "indexer_discovery"

  // ---------------------------------------------------------------------------
  // Placeholder hosts

  /** The destinations that are not known hosts, each once, in order of first appearance. */
  function UnknownDestinations(edges: seq<Edge>, known: set<string>): (r: seq<string>)
    ensures NoDup(r)
    ensures forall d :: d in r <==> d !in known && exists e :: e in edges && e.dst == d
    decreases |edges|
  {
    if edges == [] then []
    else
      var init, last := edges[..|edges| - 1], edges[|edges| - 1];
      assert edges == init + [last];
      var prev := UnknownDestinations(init, known);
      if last.dst !in known && last.dst !in prev then prev + [last.dst] else prev
  }

  /** The role a placeholder's name suggests, tried pattern group by pattern group. */
  function NamedRole(id: string): (r: Role)
    ensures r == Indexer <==> Contains(Lower(id), "idx") || Contains(Lower(id), "indexer")
    ensures r == HeavyForwarder <==> r != Indexer && (Contains(Lower(id), "hf") || Contains(Lower(id), "heavy"))
    ensures r == UniversalForwarder <==>
              r !in {Indexer, HeavyForwarder} && (Contains(Lower(id), "uf") || Contains(Lower(id), "forwarder"))
    ensures r == SearchHead <==>
              r !in {Indexer, HeavyForwarder, UniversalForwarder} && (Contains(Lower(id), "search") || Contains(Lower(id), "sh"))
    ensures r == Unknown <==>
              !Contains(Lower(id), "idx") && !Contains(Lower(id), "indexer") && !Contains(Lower(id), "hf")
              && !Contains(Lower(id), "heavy") && !Contains(Lower(id), "uf") && !Contains(Lower(id), "forwarder")
              && !Contains(Lower(id), "search") && !Contains(Lower(id), "sh")
  {
    var l := Lower(id);
    if Contains(l, "idx") || Contains(l, "indexer") then Indexer
    else if Contains(l, "hf") || Contains(l, "heavy") then HeavyForwarder
    else if Contains(l, "uf") || Contains(l, "forwarder") then UniversalForwarder
    else if Contains(l, "search") || Contains(l, "sh") then SearchHead
    else Unknown
  }

  /** The placeholder host standing for the unknown destination `id`. */
  function PlaceholderHost(id: string): (h: Host)
    ensures h.id == id && h.apps == [] && |h.roles| == 1
    ensures PlaceholderLabel in h.labels
    ensures id == UnknownDestination ==> h.roles == [Unknown] && h.labels == [PlaceholderLabel]
    ensures id != UnknownDestination && IsPrefix(DiscoveryHostPrefix, id) ==>
              h.roles == [Indexer] && h.labels == [DiscoveryLabel, PlaceholderLabel]
    ensures id != UnknownDestination && !IsPrefix(DiscoveryHostPrefix, id) ==>
              h.roles == [NamedRole(id)] && h.labels == [PlaceholderLabel]
  {
    if id == UnknownDestination then Host(id, [Unknown], [PlaceholderLabel], [])
    else if IsPrefix(DiscoveryHostPrefix, id) then Host(id, [Indexer], [DiscoveryLabel, PlaceholderLabel], [])
    else Host(id, [NamedRole(id)], [PlaceholderLabel], [])
  }

  function HostIds(hosts: seq<Host>): (r: seq<string>)
    ensures |r| == |hosts| && forall i :: 0 <= i < |hosts| ==> r[i] == hosts[i].id
  {
    seq(|hosts|, i requires 0 <= i < |hosts| => hosts[i].id)
  }

  /** `create_placeholder_hosts` */
  function PlaceholderHosts(edges: seq<Edge>, known: set<string>): (r: seq<Host>)
    ensures HostIds(r) == UnknownDestinations(edges, known)
    ensures forall h :: h in r ==> PlaceholderLabel in h.labels && h.id !in known
  {
    var ds := UnknownDestinations(edges, known);
    seq(|ds|, i requires 0 <= i < |ds| => PlaceholderHost(ds[i]))
  }

  /**
   * One placeholder per distinct unknown destination: every destination that is
   * not known gets a host, no host is made twice, and known hosts get none.
   */
  lemma PlaceholdersCoverDestinations(edges: seq<Edge>, known: set<string>)
    ensures var r := PlaceholderHosts(edges, known);
            && NoDup(HostIds(r))
            && (forall e :: e in edges && e.dst !in known ==> exists h :: h in r && h.id == e.dst)
            && (forall h :: h in r ==> exists e :: e in edges && e.dst == h.id)
  {
    var r := PlaceholderHosts(edges, known);
    var ds := UnknownDestinations(edges, known);
    forall e | e in edges && e.dst !in known ensures exists h :: h in r && h.id == e.dst {
      var i :| 0 <= i < |ds| && ds[i] == e.dst;
      assert r[i].id == e.dst;
    }
    forall h | h in r ensures exists e :: e in edges && e.dst == h.id {
      var i :| 0 <= i < |r| && r[i] == h;
      assert HostIds(r)[i] == h.id;
    }
  }

  // ---------------------------------------------------------------------------
  // Metadata

  /** `[h.id for h in hosts if "placeholder" not in h.labels]` */
  function SourceHosts(hosts: seq<Host>): (r: seq<string>)
    ensures |r| <= |hosts|
    ensures forall id :: id in r <==> exists h :: h in hosts && h.id == id && PlaceholderLabel !in h.labels
    decreases |hosts|
  {
    if hosts == [] then []
    else
      var init, last := hosts[..|hosts| - 1], hosts[|hosts| - 1];
      assert hosts == init + [last];
      SourceHosts(init) + if PlaceholderLabel in last.labels then [] else [last.id]
  }

  /** How often `name` occurs. */
  function Occurrences(names: seq<string>, name: string): nat
    decreases |names|
  {
    if names == [] then 0
    else Occurrences(names[..|names| - 1], name) + if names[|names| - 1] == name then 1 else 0
  }

  /** `d[k] = d.get(k, 0) + 1` */
  function Increment(d: Dict<int>, k: string): (r: Dict<int>)
    ensures Get(r, k) == Some(GetOr(d, k, 0) + 1)
    ensures forall k' :: k' != k ==> Get(r, k') == Get(d, k')
    ensures Keys(r) == if HasKey(d, k) then Keys(d) else Keys(d) + [k]
  {
    var v := GetOr(d, k, 0) + 1;
    var r := Put(d, k, v);
    GetPut(d, k, v, k);
    forall k' | k' != k ensures Get(r, k') == Get(d, k') {
      GetPut(d, k, v, k');
    }
    r
  }

  /** A histogram built by counting names one at a time. */
  function Histogram(names: seq<string>): Dict<int>
    decreases |names|
  {
    if names == [] then []
    else
      Increment(Histogram(names[..|names| - 1]), names[|names| - 1])
  }

  function KindNames(inputs: seq<InputStanza>): (r: seq<string>)
    ensures |r| == |inputs| && forall i :: 0 <= i < |inputs| ==> r[i] == inputs[i].kind.Name()
  {
    seq(|inputs|, i requires 0 <= i < |inputs| => inputs[i].kind.Name())
  }

  /** The input-type histogram. */
  function KindCounts(inputs: seq<InputStanza>): Dict<int> {
    Histogram(KindNames(inputs))
  }

  /** The histogram counts every name that occurs, under that name. */
  lemma {:induction false} HistogramGet(names: seq<string>, name: string)
    ensures HasKey(Histogram(names), name) <==> Occurrences(names, name) > 0
    ensures GetOr(Histogram(names), name, 0) == Occurrences(names, name)
    decreases |names|
  {
    if names != [] {
      var init := names[..|names| - 1];
      var prev := Histogram(init);
      var n := names[|names| - 1];
      HistogramGet(init, name);
      assert Histogram(names) == Increment(prev, n);
    }
  }

  /** The names appear in the order of their first occurrence. */
  lemma {:induction false} HistogramKeys(names: seq<string>)
    ensures Keys(Histogram(names)) == Dedup(names)
    decreases |names|
  {
    if names != [] {
      var init := names[..|names| - 1];
      var n := names[|names| - 1];
      assert names == init + [n];
      var prev := Histogram(init);
      HistogramKeys(init);
      assert Histogram(names) == Increment(prev, n);
      assert HasKey(prev, n) <==> n in init;
      DedupAppend(init, n);
    }
  }

  function SumValues(d: Dict<int>): int {
    if d == [] then 0 else d[0].1 + SumValues(d[1..])
  }

  lemma {:induction false} SumValuesPut(d: Dict<int>, k: string, v: int)
    ensures SumValues(Put(d, k, v)) + GetOr(d, k, 0) == SumValues(d) + v
  {
    if d != [] && d[0].0 != k {
      SumValuesPut(d[1..], k, v);
      assert Put(d, k, v)[1..] == Put(d[1..], k, v);
    }
  }

  lemma SumValuesIncrement(d: Dict<int>, k: string)
    ensures SumValues(Increment(d, k)) == SumValues(d) + 1
  {
    SumValuesPut(d, k, GetOr(d, k, 0) + 1);
  }

  /** The histogram's counts add up to the number of names counted. */
  lemma {:induction false} HistogramSum(names: seq<string>)
    ensures SumValues(Histogram(names)) == |names|
    decreases |names|
  {
    if names != [] {
      var init := names[..|names| - 1];
      var prev := Histogram(init);
      var n := names[|names| - 1];
      HistogramSum(init);
      SumValuesIncrement(prev, n);
      assert Histogram(names) == Increment(prev, n);
    }
  }

  /** Counts the input types, as the metadata loop does. */
  method CountInputKinds(inputs: seq<InputStanza>) returns (counts: Dict<int>)
    ensures counts == KindCounts(inputs)
  {
    ghost var names := KindNames(inputs);
    counts := [];
    for i := 0 to |inputs|
      invariant counts == Histogram(names[..i])
    {
      assert names[..i + 1][..i] == names[..i];
      var name := inputs[i].kind.Name();
      counts := Increment(counts, name);
    }
    assert names[..|inputs|] == names;
  }

  /** What the resolver adds under the `resolver` key of the traceability map. */
  datatype ResolverStats = ResolverStats(
    inputCounts: Dict<int>, outputGroupCount: nat, propsCount: nat, transformsCount: nat, appsFound: seq<string>)

  /**
   * The graph metadata.  `traceability` is the parser's map; serialised, the
   * resolver statistics appear in it under the key `resolver`.
   */
  datatype GraphMeta = GraphMeta(
    generator: string, generatedAt: string, hostCount: nat, edgeCount: nat,
    sourceHosts: seq<string>, traceability: Dict<seq<string>>, resolver: ResolverStats)

  /**
   * The parser's traceability map already holds a list of files under
   * `resolver`; indexing that list by a key name fails.
   */
  datatype GraphError = EmptyConfig | ResolverKeyTaken

  const ResolverKey := "resolver"

  /** `build_graph_metadata`, as a function of its inputs; the clock reading is a parameter. */
  function GraphMetadata(c: ParsedConfig, hosts: seq<Host>, edges: seq<Edge>, generatedAt: string): (r: Result<GraphMeta, GraphError>)
    ensures r.Err? <==> HasKey(c.traceability, ResolverKey)
    ensures r.Ok? ==> r.value.hostCount == |hosts| && r.value.edgeCount == |edges|
                      && r.value.traceability == c.traceability && r.value.generator == Generator
  {
    if HasKey(c.traceability, ResolverKey) then Err(ResolverKeyTaken)
    else
      Ok(GraphMeta(Generator, generatedAt, |hosts|, |edges|, SourceHosts(hosts), c.traceability,
                   ResolverStats(KindCounts(c.inputs), |c.outputs|, |c.props|, |c.transforms|,
                                 c.hostMetadata.apps.GetOr([]))))
  }

  /** `build_graph_metadata` */
  method BuildGraphMetadata(c: ParsedConfig, hosts: seq<Host>, edges: seq<Edge>, generatedAt: string)
    returns (r: Result<GraphMeta, GraphError>)
    ensures r == GraphMetadata(c, hosts, edges, generatedAt)
  {
    if HasKey(c.traceability, ResolverKey) {
      return Err(ResolverKeyTaken);
    }
    var counts := CountInputKinds(c.inputs);
    var stats := ResolverStats(counts, |c.outputs|, |c.props|, |c.transforms|, c.hostMetadata.apps.GetOr([]));
    r := Ok(GraphMeta(Generator, generatedAt, |hosts|, |edges|, SourceHosts(hosts), c.traceability, stats));
  }

  /**
   * The resolver statistics: the input-type histogram counts every input once
   * and lists each type that occurs, in order of first occurrence.
   */
  lemma ResolverStatsCounts(c: ParsedConfig, hosts: seq<Host>, edges: seq<Edge>, generatedAt: string)
    requires GraphMetadata(c, hosts, edges, generatedAt).Ok?
    ensures var s := GraphMetadata(c, hosts, edges, generatedAt).value.resolver;
            && SumValues(s.inputCounts) == |c.inputs|
            && Keys(s.inputCounts) == Dedup(KindNames(c.inputs))
            && (forall name :: HasKey(s.inputCounts, name) <==> Occurrences(KindNames(c.inputs), name) > 0)
            && (forall name :: GetOr(s.inputCounts, name, 0) == Occurrences(KindNames(c.inputs), name))
            && s.outputGroupCount == |c.outputs| && s.propsCount == |c.props| && s.transformsCount == |c.transforms|
  {
    var names := KindNames(c.inputs);
    HistogramSum(names);
    HistogramKeys(names);
    forall name ensures (HasKey(Histogram(names), name) <==> Occurrences(names, name) > 0)
                        && GetOr(Histogram(names), name, 0) == Occurrences(names, name) {
      HistogramGet(names, name);
    }
  }

  // ---------------------------------------------------------------------------
  // The graph

  datatype CanonicalGraph = CanonicalGraph(hosts: seq<Host>, edges: seq<Edge>, meta: GraphMeta)

  /** `build_canonical_graph`, as a function of the parsed configuration and the clock reading. */
  function CanonicalGraphOf(c: ParsedConfig, policy: Marking, generatedAt: string): (r: Result<CanonicalGraph, GraphError>)
    ensures r.Err? <==> (c.inputs == [] && c.outputs == []) || HasKey(c.traceability, ResolverKey)
    ensures c.inputs == [] && c.outputs == [] ==> r == Err(EmptyConfig)
  {
    if c.inputs == [] && c.outputs == [] then Err(EmptyConfig)
    else
      var host := BuildHost(c);
      var edges := MergeSpec(BuildEdges(c, policy, host));
      var hosts := [host] + PlaceholderHosts(edges, {host.id});
      match GraphMetadata(c, hosts, edges, generatedAt)
      case Err(e) => Err(e)
      case Ok(meta) => Ok(CanonicalGraph(hosts, edges, meta))
  }

  /** `build_canonical_graph` */
  method BuildCanonicalGraph(c: ParsedConfig, policy: Marking, generatedAt: string) returns (r: Result<CanonicalGraph, GraphError>)
    ensures r == CanonicalGraphOf(c, policy, generatedAt)
  {
    if c.inputs == [] && c.outputs == [] {
      return Err(EmptyConfig);
    }
    var host := BuildHost(c);
    var edges := BuildEdges(c, policy, host);
    edges := MergeSimilarEdges(edges);
    var placeholders := PlaceholderHosts(edges, {host.id});
    var hosts := [host] + placeholders;
    var meta := BuildGraphMetadata(c, hosts, edges, generatedAt);
    if meta.Err? {
      return Err(meta.error);
    }
    r := Ok(CanonicalGraph(hosts, edges, meta.value));
  }

  /** The primary host never carries the placeholder label. */
  lemma PrimaryHostNotPlaceholder(c: ParsedConfig)
    ensures PlaceholderLabel !in BuildHost(c).labels
  {
    var md := c.hostMetadata;
    var env: seq<string> := if Truthy(md.environment) then ["env:" + md.environment.value] else [];
    var cluster: seq<string> := if Truthy(md.cluster) then ["cluster:" + md.cluster.value] else [];
    assert BuildHost(c).labels == env + cluster;
    assert PlaceholderLabel !in env by {
      if env != [] { assert env[0][0] == 'e'; }
    }
    assert PlaceholderLabel !in cluster by {
      if cluster != [] { assert cluster[0][0] == 'c'; }
    }
  }

  /**
   * A resolved graph is closed: every edge leaves the primary host and ends at
   * a host of the graph; host ids are distinct; the primary host is first and
   * is the only source host.
   */
  lemma GraphIsClosed(c: ParsedConfig, policy: Marking, generatedAt: string)
    requires CanonicalGraphOf(c, policy, generatedAt).Ok?
    ensures var g := CanonicalGraphOf(c, policy, generatedAt).value;
            && g.hosts != [] && g.hosts[0] == BuildHost(c)
            && NoDup(HostIds(g.hosts))
            && (forall e :: e in g.edges ==> e.src == g.hosts[0].id && e.dst in HostIds(g.hosts))
            && g.meta.sourceHosts == [g.hosts[0].id]
            && g.meta.hostCount == |g.hosts| && g.meta.edgeCount == |g.edges|
  {
    var host := BuildHost(c);
    var built := BuildEdges(c, policy, host);
    var edges := MergeSpec(built);
    var ph := PlaceholderHosts(edges, {host.id});
    MergedSources(built, host.id);
    DestinationsAreHosts(edges, host);
    PrimaryHostNotPlaceholder(c);
    assert [host][..0] == [];
    SourceHostsOfPlaceholders([host], ph);
  }

  /** Merging keeps every edge's source host. */
  lemma MergedSources(built: seq<Edge>, src: string)
    requires forall e :: e in built ==> e.src == src
    ensures forall e :: e in MergeSpec(built) ==> e.src == src
  {
    var edges := MergeSpec(built);
    MergedKeys(built);
    forall e | e in edges ensures e.src == src {
      var i :| 0 <= i < |edges| && edges[i] == e;
      assert KeysOf(edges)[i] in KeysOf(built);
      var j :| 0 <= j < |built| && KeysOf(built)[j] == KeysOf(edges)[i];
      assert built[j] in built;
    }
  }

  /** With its placeholders, the hosts of a graph are distinct and include every destination. */
  lemma DestinationsAreHosts(edges: seq<Edge>, host: Host)
    ensures var hosts := [host] + PlaceholderHosts(edges, {host.id});
            && NoDup(HostIds(hosts))
            && forall e :: e in edges ==> e.dst in HostIds(hosts)
  {
    var ph := PlaceholderHosts(edges, {host.id});
    var hosts := [host] + ph;
    assert HostIds(hosts) == [host.id] + HostIds(ph);
    forall e | e in edges ensures e.dst in HostIds(hosts) {
      if e.dst != host.id {
        assert e.dst in UnknownDestinations(edges, {host.id});
      }
    }
  }

  /** Placeholders add nothing to the source hosts. */
  lemma {:induction false} SourceHostsOfPlaceholders(hosts: seq<Host>, ph: seq<Host>)
    requires forall h :: h in ph ==> PlaceholderLabel in h.labels
    ensures SourceHosts(hosts + ph) == SourceHosts(hosts)
    decreases |ph|
  {
    if ph == [] {
      assert hosts + ph == hosts;
    } else {
      var init := ph[..|ph| - 1];
      assert (hosts + ph)[..|hosts + ph| - 1] == hosts + init;
      assert (hosts + ph)[|hosts + ph| - 1] == ph[|ph| - 1];
      SourceHostsOfPlaceholders(hosts, init);
    }
  }

  /**
   * The merged edges carry the whole flow: their total weight is the number of
   * edges built, one per enabled input and target.
   */
  lemma GraphWeight(c: ParsedConfig, policy: Marking, generatedAt: string)
    requires CanonicalGraphOf(c, policy, generatedAt).Ok?
    ensures var targets := OutputTargets(c.outputs);
            WeightSum(CanonicalGraphOf(c, policy, generatedAt).value.edges)
            == EnabledCount(c.inputs) * (if targets == [] then 1 else |targets|)
  {
    var host := BuildHost(c);
    var built := BuildEdges(c, policy, host);
    WeightPreserved(built);
    UnitWeights(built);
    EdgeCount(host.id, c.inputs, c, policy, OutputTargets(c.outputs), AmbiguousRouting(c.outputs));
  }

  lemma {:induction false} UnitWeights(edges: seq<Edge>)
    requires forall i :: 0 <= i < |edges| ==> edges[i].weight == 1
    ensures WeightSum(edges) == |edges|
    decreases |edges|
  {
    if edges != [] {
      UnitWeights(edges[..|edges| - 1]);
    }
  }
}
