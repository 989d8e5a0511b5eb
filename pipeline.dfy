// The resolver's graph as the validator reads it: the canonical graph is
// serialised to a document and the validator's rules run on that document.
// These lemmas say what the validator reports about a graph the resolver built.

module Pipeline {
  import opened Wrappers
  import opened Text
  import opened Order
  import opened ConfSnapshot
  import opened HostInference
  import opened TransformEval
  import opened Edges
  import opened EdgeMerge
  import opened Graph
  import V = Validator

  // ---------------------------------------------------------------------------
  // Serialisation

  function RoleNames(roles: seq<Role>): (r: seq<string>)
    ensures |r| == |roles| && forall i :: 0 <= i < |roles| ==> r[i] == roles[i].Name()
  {
    seq(|roles|, i requires 0 <= i < |roles| => roles[i].Name())
  }

  /** A host as its document: every key is present. */
  function HostDocOf(h: Host): V.HostDoc {
    V.HostDoc(Some(h.id), Some(RoleNames(h.roles)), Some(h.labels))
  }

  function HostDocs(hosts: seq<Host>): (r: seq<V.HostDoc>)
    ensures |r| == |hosts| && forall i :: 0 <= i < |hosts| ==> r[i] == HostDocOf(hosts[i])
  {
    seq(|hosts|, i requires 0 <= i < |hosts| => HostDocOf(hosts[i]))
  }

  /** An edge as its document: enumerations by their values, `tls` as it is. */
  function EdgeDocOf(e: Edge): V.EdgeDoc {
    V.EdgeDoc(Some(e.src), Some(e.dst), Some(e.protocol.Name()), Some(e.sources), Some(e.sourcetypes),
              Some(e.indexes), Some(e.filters), Some(e.dropRules), e.tls, Some(e.confidence.Name()))
  }

  function EdgeDocs(edges: seq<Edge>): (r: seq<V.EdgeDoc>)
    ensures |r| == |edges| && forall i :: 0 <= i < |edges| ==> r[i] == EdgeDocOf(edges[i])
  {
    seq(|edges|, i requires 0 <= i < |edges| => EdgeDocOf(edges[i]))
  }

  /** The scalar entries of the metadata, as text. */
  function MetaDocOf(m: GraphMeta): (r: V.Meta)
    ensures r != []
  {
    [("generator", m.generator), ("generated_at", m.generatedAt),
     ("host_count", NatToString(m.hostCount)), ("edge_count", NatToString(m.edgeCount))]
  }

  function GraphDocOf(g: CanonicalGraph): V.GraphDoc {
    V.GraphDoc(V.Present(HostDocs(g.hosts)), V.Present(EdgeDocs(g.edges)), V.Present(MetaDocOf(g.meta)))
  }

  /**
   * The validator reads back what the resolver wrote: the hosts, the edges and
   * the metadata of a graph's document are those of the graph, and findings
   * carry that metadata as their context.
   */
  lemma GraphDocRoundTrip(g: CanonicalGraph)
    ensures V.ExtractHosts(GraphDocOf(g)) == HostDocs(g.hosts)
    ensures V.ExtractEdges(GraphDocOf(g)) == EdgeDocs(g.edges)
    ensures V.ExtractMeta(GraphDocOf(g)) == MetaDocOf(g.meta)
    ensures V.MetaOf(V.ExtractMeta(GraphDocOf(g))) == Some(MetaDocOf(g.meta))
  {
  }

  // ---------------------------------------------------------------------------
  // Hosts

  /** Every placeholder the resolver creates is one for the validator. */
  lemma PlaceholdersRecognised(id: string)
    ensures V.IsPlaceholderHost(HostDocOf(PlaceholderHost(id)))
  {
  }

  /**
   * The primary host counts as a placeholder for the validator exactly when it
   * is named `unknown_destination` or no role could be inferred for it: it
   * carries no placeholder label and a sanitised id holds no `:`.
   */
  lemma PrimaryHostAsPlaceholder(c: ParsedConfig)
    ensures var h := BuildHost(c);
            V.IsPlaceholderHost(HostDocOf(h)) <==> h.id == UnknownDestination || h.roles == [Unknown]
  {
    var h := BuildHost(c);
    PrimaryHostNotPlaceholder(c);
    NoDiscoveryPrefix(h.id);
    UnknownRoleName(h.roles);
  }

  lemma NoDiscoveryPrefix(id: string)
    requires forall i :: 0 <= i < |id| ==> IdChar(id[i])
    ensures !IsPrefix(V.DiscoveryPrefix, id)
  {
    if |V.DiscoveryPrefix| <= |id| {
      assert IdChar(id[17]);
      assert id[..|V.DiscoveryPrefix|][17] == id[17];
    }
  }

  lemma UnknownRoleName(roles: seq<Role>)
    ensures V.UnknownRole in RoleNames(roles) <==> Unknown in roles
  {
    var names := RoleNames(roles);
    if V.UnknownRole in names {
      var i :| 0 <= i < |names| && names[i] == V.UnknownRole;
      assert roles[i] == Unknown;
    }
    if Unknown in roles {
      var i :| 0 <= i < |roles| && roles[i] == Unknown;
      assert names[i] == V.UnknownRole;
    }
  }

  // ---------------------------------------------------------------------------
  // Edges

  /** Every merged edge has the key of some edge it merged. */
  lemma MergedKeyOrigin(built: seq<Edge>, e: Edge)
    requires e in MergeSpec(built)
    ensures exists b :: b in built && KeyOf(b) == KeyOf(e)
  {
    var edges := MergeSpec(built);
    MergedKeys(built);
    var i :| 0 <= i < |edges| && edges[i] == e;
    assert KeysOf(edges)[i] in KeysOf(built);
    var j :| 0 <= j < |built| && KeysOf(built)[j] == KeysOf(edges)[i];
    assert built[j] in built;
  }

  /** Merging keeps the shape of the edges built: their destination, and their confidence and TLS where fixed. */
  lemma MergedHasBuiltShape(built: seq<Edge>, e: Edge, targets: seq<Target>, ambiguous: bool)
    requires e in MergeSpec(built)
    requires forall b :: b in built ==> EdgeShape(b, targets, ambiguous)
    requires forall t :: t in targets ==> t.host != ""
    ensures e.dst != ""
    ensures e.confidence == Derived <==> targets == [] || ambiguous
    ensures targets == [] ==> e.dst == UnknownDestination && e.tls.None?
  {
    var edges := MergeSpec(built);
    var i :| 0 <= i < |edges| && edges[i] == e;
    MergedAt(built, i);
    var k := GroupKeys(built)[i];
    var group := Members(built, k);
    MergedScalars(k, group);
    assert group[0] in group;
    assert KeyOf(group[0]) == KeyOf(e);
  }

  /**
   * The edges of a resolved graph: each leaves the primary host over
   * splunktcp to a named destination; it is derived exactly when no target is
   * configured or routing is ambiguous; with no targets it goes to the unknown
   * destination with its TLS unknown.
   */
  lemma ResolvedEdges(c: ParsedConfig, policy: Marking, generatedAt: string)
    requires CanonicalGraphOf(c, policy, generatedAt).Ok?
    ensures var g := CanonicalGraphOf(c, policy, generatedAt).value;
            var targets, ambiguous := OutputTargets(c.outputs), AmbiguousRouting(c.outputs);
            forall e :: e in g.edges ==>
              && e.src == BuildHost(c).id && e.protocol == SplunkTcpProtocol && e.dst != ""
              && (e.confidence == Derived <==> targets == [] || ambiguous)
              && (targets == [] ==> e.dst == UnknownDestination && e.tls.None?)
  {
    var host := BuildHost(c);
    var targets, ambiguous := OutputTargets(c.outputs), AmbiguousRouting(c.outputs);
    var built := BuildEdges(c, policy, host);
    EdgeConfidence(host.id, c.inputs, c, policy, targets, ambiguous);
    forall e | e in MergeSpec(built)
      ensures && e.src == host.id && e.protocol == SplunkTcpProtocol && e.dst != ""
              && (e.confidence == Derived <==> targets == [] || ambiguous)
              && (targets == [] ==> e.dst == UnknownDestination && e.tls.None?)
    {
      MergedKeyOrigin(built, e);
      MergedHasBuiltShape(built, e, targets, ambiguous);
    }
  }

  /** A resolved graph is its primary host and placeholders, and the merged edges built from it. */
  lemma ResolvedParts(c: ParsedConfig, policy: Marking, generatedAt: string)
    requires CanonicalGraphOf(c, policy, generatedAt).Ok?
    ensures var g := CanonicalGraphOf(c, policy, generatedAt).value;
            var host := BuildHost(c);
            && g.edges == MergeSpec(BuildEdges(c, policy, host))
            && g.hosts == [host] + PlaceholderHosts(g.edges, {host.id})
  {
  }

  /**
   * With a primary host that is not a placeholder, the validator's placeholder
   * ids among the primary host and its placeholders are exactly the
   * destinations other than the primary host.
   */
  lemma PlaceholderIdsOfHosts(host: Host, edges: seq<Edge>)
    requires !V.IsPlaceholderHost(HostDocOf(host))
    requires forall e :: e in edges ==> e.dst != ""
    ensures var hosts := [host] + PlaceholderHosts(edges, {host.id});
            forall id :: id in V.PlaceholderIds(HostDocs(hosts)) <==>
                           id != host.id && exists e :: e in edges && e.dst == id
  {
    var hosts := [host] + PlaceholderHosts(edges, {host.id});
    forall id ensures id in V.PlaceholderIds(HostDocs(hosts)) <==> id != host.id && exists e :: e in edges && e.dst == id {
      if id != host.id && exists e :: e in edges && e.dst == id {
        var e :| e in edges && e.dst == id;
        PlaceholderIdOfDestination(host, edges, e);
      }
      if id in V.PlaceholderIds(HostDocs(hosts)) {
        DestinationOfPlaceholderId(host, edges, id);
      }
    }
  }

  lemma PlaceholderIdOfDestination(host: Host, edges: seq<Edge>, e: Edge)
    requires e in edges && e.dst != "" && e.dst != host.id
    ensures e.dst in V.PlaceholderIds(HostDocs([host] + PlaceholderHosts(edges, {host.id})))
  {
    var ph := PlaceholderHosts(edges, {host.id});
    var hosts := [host] + ph;
    var docs := HostDocs(hosts);
    assert e.dst in UnknownDestinations(edges, {host.id});
    var j :| 0 <= j < |ph| && HostIds(ph)[j] == e.dst;
    assert ph[j] in ph;
    assert hosts[1 + j] == ph[j];
    assert docs[1 + j] in docs;
    PlaceholdersRecognised(e.dst);
  }

  lemma DestinationOfPlaceholderId(host: Host, edges: seq<Edge>, id: string)
    requires !V.IsPlaceholderHost(HostDocOf(host))
    requires id in V.PlaceholderIds(HostDocs([host] + PlaceholderHosts(edges, {host.id})))
    ensures id != host.id && exists e :: e in edges && e.dst == id
  {
    var ph := PlaceholderHosts(edges, {host.id});
    var hosts := [host] + ph;
    var docs := HostDocs(hosts);
    var d :| d in docs && V.IsPlaceholderHost(d) && d.id == Some(id);
    var j :| 0 <= j < |docs| && docs[j] == d;
    assert j != 0;
    assert hosts[j] == ph[j - 1];
    assert HostIds(ph)[j - 1] == id;
    assert id in UnknownDestinations(edges, {host.id});
  }

  /**
   * With a primary host that is not a placeholder, the validator's placeholder
   * ids in a resolved graph are exactly the destinations other than the
   * primary host.
   */
  lemma ResolvedPlaceholderIds(c: ParsedConfig, policy: Marking, generatedAt: string)
    requires CanonicalGraphOf(c, policy, generatedAt).Ok?
    requires !V.IsPlaceholderHost(HostDocOf(BuildHost(c)))
    ensures var g := CanonicalGraphOf(c, policy, generatedAt).value;
            forall id :: id in V.PlaceholderIds(HostDocs(g.hosts)) <==>
                           id != BuildHost(c).id && exists e :: e in g.edges && e.dst == id
  {
    var g := CanonicalGraphOf(c, policy, generatedAt).value;
    ResolvedParts(c, policy, generatedAt);
    ResolvedEdges(c, policy, generatedAt);
    PlaceholderIdsOfHosts(BuildHost(c), g.edges);
  }

  /**
   * What the validator reports for one edge of a resolved graph: it dangles
   * exactly when it does not end at the primary host, it is unsecured exactly
   * when its TLS is not known to be on, and it is ambiguous exactly when the
   * resolver derived it.
   */
  lemma ResolvedEdgeFindings(c: ParsedConfig, policy: Marking, generatedAt: string, e: Edge)
    requires CanonicalGraphOf(c, policy, generatedAt).Ok?
    requires !V.IsPlaceholderHost(HostDocOf(BuildHost(c)))
    requires e in CanonicalGraphOf(c, policy, generatedAt).value.edges
    ensures var g := CanonicalGraphOf(c, policy, generatedAt).value;
            var ids := V.PlaceholderIds(HostDocs(g.hosts));
            var d := EdgeDocOf(e);
            && (V.Dangles(d, ids) <==> e.dst != BuildHost(c).id)
            && (V.Unsecured(d) <==> e.tls != Some(true))
            && (V.Raised(V.AmbiguousRule, d) == 1 <==> e.confidence == Derived)
            && (V.Raised(V.DropRule, d) == 1 <==> e.dropRules != [])
  {
    var g := CanonicalGraphOf(c, policy, generatedAt).value;
    ResolvedEdges(c, policy, generatedAt);
    ResolvedPlaceholderIds(c, policy, generatedAt);
    EdgeDocFindings(e, BuildHost(c).id, V.PlaceholderIds(HostDocs(g.hosts)));
  }

  lemma EdgeDocFindings(e: Edge, hostId: string, ids: set<string>)
    requires e.protocol == SplunkTcpProtocol && e.dst != ""
    requires e.dst in ids <==> e.dst != hostId
    ensures var d := EdgeDocOf(e);
            && (V.Dangles(d, ids) <==> e.dst != hostId)
            && (V.Unsecured(d) <==> e.tls != Some(true))
            && (V.Raised(V.AmbiguousRule, d) == 1 <==> e.confidence == Derived)
            && (V.Raised(V.DropRule, d) == 1 <==> e.dropRules != [])
  {
  }

  lemma {:induction false} RaisedByEvery(rule: V.Rule, edges: seq<V.EdgeDoc>)
    requires forall i :: 0 <= i < |edges| ==> V.Raised(rule, edges[i]) == 1
    ensures V.TotalRaised(rule, edges) == |edges|
    decreases |edges|
  {
    if edges != [] {
      RaisedByEvery(rule, edges[..|edges| - 1]);
    }
  }

  /**
   * A host with no outputs configured: every edge goes to the unknown
   * destination, so the validator raises a dangling output, an unsecured pipe
   * and an ambiguous group for each, knows no index, and reports every index
   * of every edge as unknown.
   */
  lemma UnroutedFindings(c: ParsedConfig, policy: Marking, generatedAt: string)
    requires CanonicalGraphOf(c, policy, generatedAt).Ok?
    requires c.outputs == []
    requires !V.IsPlaceholderHost(HostDocOf(BuildHost(c)))
    ensures var g := CanonicalGraphOf(c, policy, generatedAt).value;
            var docs := EdgeDocs(g.edges);
            var ids := V.PlaceholderIds(HostDocs(g.hosts));
            && V.KnownIndexes(docs, ids) == {}
            && V.TotalRaised(V.DanglingRule(ids), docs) == |g.edges|
            && V.TotalRaised(V.UnsecuredRule, docs) == |g.edges|
            && V.TotalRaised(V.AmbiguousRule, docs) == |g.edges|
            && (forall i :: 0 <= i < |docs| ==> V.UnknownIndexesOf(docs[i], {}) == g.edges[i].indexes)
            && |V.ValidateGraph(GraphDocOf(g))|
               == 3 * |g.edges| + V.TotalRaised(V.UnknownIndexRule({}), docs) + V.TotalRaised(V.DropRule, docs)
  {
    var g := CanonicalGraphOf(c, policy, generatedAt).value;
    var host := BuildHost(c);
    var docs := EdgeDocs(g.edges);
    var ids := V.PlaceholderIds(HostDocs(g.hosts));
    assert OutputTargets(c.outputs) == [];
    assert host.id != UnknownDestination;
    ResolvedEdges(c, policy, generatedAt);
    ResolvedPlaceholderIds(c, policy, generatedAt);
    UnroutedDocs(g.edges, host.id, ids);
    V.ValidateCount(GraphDocOf(g));
  }

  /** Edges that all end at a placeholder, unsecured and derived, raise those findings each. */
  lemma UnroutedDocs(edges: seq<Edge>, hostId: string, ids: set<string>)
    requires forall e :: e in edges ==>
               e.protocol == SplunkTcpProtocol && e.tls.None? && e.confidence == Derived && e.dst != hostId && e.dst != ""
    requires forall id :: id in ids <==> id != hostId && exists e :: e in edges && e.dst == id
    ensures var docs := EdgeDocs(edges);
            && V.KnownIndexes(docs, ids) == {}
            && V.TotalRaised(V.DanglingRule(ids), docs) == |edges|
            && V.TotalRaised(V.UnsecuredRule, docs) == |edges|
            && V.TotalRaised(V.AmbiguousRule, docs) == |edges|
            && (forall i :: 0 <= i < |docs| ==> V.UnknownIndexesOf(docs[i], {}) == edges[i].indexes)
  {
    var docs := EdgeDocs(edges);
    forall i | 0 <= i < |docs|
      ensures && V.Dangles(docs[i], ids) && V.Unsecured(docs[i]) && docs[i].confidence == Some("derived")
              && V.UnknownIndexesOf(docs[i], {}) == edges[i].indexes
    {
      assert edges[i] in edges;
      NoneUnknown(edges[i].indexes);
    }
    RaisedByEvery(V.DanglingRule(ids), docs);
    RaisedByEvery(V.UnsecuredRule, docs);
    RaisedByEvery(V.AmbiguousRule, docs);
  }

  lemma {:induction false} NoneUnknown(xs: seq<string>)
    ensures V.Unknowns(xs, {}) == xs
    decreases |xs|
  {
    if xs != [] {
      NoneUnknown(xs[1..]);
      assert V.Unknowns(xs, {}) == [xs[0]] + V.Unknowns(xs[1..], {});
      assert xs == [xs[0]] + xs[1..];
    }
  }
}
