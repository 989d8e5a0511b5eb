/**
 * Validation of a canonical graph document: five rules, each run over the
 * edges, each producing one finding per offending edge (one per offending
 * index for unknown indexes), concatenated in rule order.
 */
module Validator {
  import opened Wrappers
  import opened Text
  import opened Order
  import opened Dicts

  // ---------------------------------------------------------------------------
  // The graph document

  /** A top-level field of the document: missing, of the wrong type, or present. */
  datatype Field<T> = Absent | WrongType | Present(value: T)

  /** A host entry; `None` stands for a missing key. */
  datatype HostDoc = HostDoc(id: Option<string>, roles: Option<seq<string>>, labels: Option<seq<string>>)

  /** An edge entry; `None` stands for a missing key (and, for `tls`, for `null`). */
  datatype EdgeDoc = EdgeDoc(
    srcHost: Option<string>, dstHost: Option<string>, protocol: Option<string>,
    sources: Option<seq<string>>, sourcetypes: Option<seq<string>>, indexes: Option<seq<string>>,
    filters: Option<seq<string>>, dropRules: Option<seq<string>>, tls: Option<bool>,
    confidence: Option<string>)

  /** The metadata object, its values kept as serialised text. */
  type Meta = Dict<string>

  datatype GraphDoc = GraphDoc(hosts: Field<seq<HostDoc>>, edges: Field<seq<EdgeDoc>>, meta: Field<Meta>)

  /** `extract_hosts_from_graph` */
  function ExtractHosts(g: GraphDoc): (r: seq<HostDoc>)
    ensures g.hosts.Present? ==> r == g.hosts.value
    ensures !g.hosts.Present? ==> r == []
  {
    if g.hosts.Present? then g.hosts.value else []
  }

  /** `extract_edges_from_graph` */
  function ExtractEdges(g: GraphDoc): (r: seq<EdgeDoc>)
    ensures g.edges.Present? ==> r == g.edges.value
    ensures !g.edges.Present? ==> r == []
  {
    if g.edges.Present? then g.edges.value else []
  }

  /** `extract_meta_from_graph` */
  function ExtractMeta(g: GraphDoc): (r: Meta)
    ensures g.meta.Present? ==> r == g.meta.value
    ensures !g.meta.Present? ==> r == []
  {
    if g.meta.Present? then g.meta.value else []
  }

  // ---------------------------------------------------------------------------
  // Placeholders and known indexes

  const PlaceholderLabel := "placeholder"
  const UnknownDestinationId := "unknown_destination"
  const DiscoveryPrefix := "indexer_discovery:"
  const UnknownRole := "unknown"

  /** `is_placeholder_host` */
  predicate IsPlaceholderHost(h: HostDoc) {
    || PlaceholderLabel in h.labels.GetOr([])
    || h.id.GetOr("") == UnknownDestinationId
    || IsPrefix(DiscoveryPrefix, h.id.GetOr(""))
    || UnknownRole in h.roles.GetOr([])
  }

  /** `get_placeholder_host_ids`: the non-empty ids of the placeholder hosts. */
  function PlaceholderIds(hosts: seq<HostDoc>): (ids: set<string>)
    ensures forall id :: id in ids <==>
              id != "" && exists h :: h in hosts && IsPlaceholderHost(h) && h.id == Some(id)
    decreases |hosts|
  {
    if hosts == [] then {}
    else
      var init, h := hosts[..|hosts| - 1], hosts[|hosts| - 1];
      assert hosts == init + [h];
      PlaceholderIds(init) + if IsPlaceholderHost(h) && h.id.Some? && h.id.value != "" then {h.id.value} else {}
  }

  /** The edge ends at a real host: its destination is set and is not a placeholder. */
  predicate ToRealHost(e: EdgeDoc, ids: set<string>) {
    e.dstHost.Some? && e.dstHost.value != "" && e.dstHost.value !in ids
  }

  /** `collect_known_indexes`: the indexes on edges to real hosts. */
  function KnownIndexes(edges: seq<EdgeDoc>, ids: set<string>): (known: set<string>)
    ensures forall x :: x in known <==> exists e :: e in edges && ToRealHost(e, ids) && x in e.indexes.GetOr([])
    decreases |edges|
  {
    if edges == [] then {}
    else
      var init, e := edges[..|edges| - 1], edges[|edges| - 1];
      assert edges == init + [e];
      KnownIndexes(init, ids) + if ToRealHost(e, ids) then set x | x in e.indexes.GetOr([]) else {}
  }

  // ---------------------------------------------------------------------------
  // Findings

  datatype Severity = Error | Warning | Info {
    function Name(): string {
      match this
      case Error => "error"
      case Warning => "warning"
      case Info => "info"
    }
  }

  datatype Code = DanglingOutput | UnknownIndex | UnsecuredPipe | DropPath | AmbiguousGroup {
    function Name(): string {
      match this
      case DanglingOutput => "DANGLING_OUTPUT"
      case UnknownIndex => "UNKNOWN_INDEX"
      case UnsecuredPipe => "UNSECURED_PIPE"
      case DropPath => "DROP_PATH"
      case AmbiguousGroup => "AMBIGUOUS_GROUP"
    }

    /** The severity every finding with this code has. */
    function Severity(): Severity {
      match this
      case DanglingOutput => Error
      case DropPath => Info
      case _ => Warning
    }
  }

  /** What a finding's context records beyond its two hosts, per code. */
  datatype Detail =
    | DanglingDetail(protocol: Option<string>, sources: seq<string>, indexes: seq<string>)
    | UnknownIndexDetail(index: string, protocol: Option<string>, sourcetypes: seq<string>)
    | UnsecuredDetail(pipeProtocol: string, tls: Option<bool>, sources: seq<string>)
    | DropDetail(dropRules: seq<string>, sources: seq<string>, sourcetypes: seq<string>, filters: seq<string>)
    | AmbiguousDetail(protocol: Option<string>, confidence: string, sources: seq<string>)

  /** A finding's context; `meta` is there exactly when the graph's metadata is not empty. */
  datatype Context = Context(srcHost: string, dstHost: string, detail: Detail, meta: Option<Meta>)

  datatype Finding = Finding(code: Code, severity: Severity, message: string, context: Context)

  /** `if meta: context["meta"] = meta` */
  function MetaOf(meta: Meta): (r: Option<Meta>)
    ensures r.Some? <==> meta != []
    ensures r.Some? ==> r.value == meta
  {
    if meta == [] then None else Some(meta)
  }

  function MakeFinding(code: Code, message: string, src: string, dst: string, detail: Detail, meta: Meta): (f: Finding)
    ensures f.code == code && f.severity == code.Severity()
    ensures f.context.srcHost == src && f.context.dstHost == dst && f.context.detail == detail
    ensures f.context.meta == MetaOf(meta)
  {
    Finding(code, code.Severity(), message, Context(src, dst, detail, MetaOf(meta)))
  }

  /** `", ".join(parts)` */
  function JoinWith(parts: seq<string>, sep: string): string
    decreases |parts|
  {
    if parts == [] then ""
    else if |parts| == 1 then parts[0]
    else parts[0] + sep + JoinWith(parts[1..], sep)
  }

  function SrcOf(e: EdgeDoc): string { e.srcHost.GetOr("unknown") }
  function DstOf(e: EdgeDoc): string { e.dstHost.GetOr("unknown") }

  // ---------------------------------------------------------------------------
  // The rules, edge by edge

  const TlsRequiredProtocols: set<string> := {"splunktcp", "http_event_collector"}

  /** The edge ends at a placeholder host. */
  predicate Dangles(e: EdgeDoc, ids: set<string>) {
    e.dstHost.Some? && e.dstHost.value != "" && e.dstHost.value in ids
  }

  /** The edge's protocol needs TLS and its TLS is off or unknown. */
  predicate Unsecured(e: EdgeDoc) {
    e.protocol.Some? && e.protocol.value in TlsRequiredProtocols && e.tls != Some(true)
  }

  /** The indexes of the edge that are not known, in order and with repeats. */
  function UnknownIndexesOf(e: EdgeDoc, known: set<string>): (r: seq<string>)
    ensures forall x :: x in r <==> x in e.indexes.GetOr([]) && x !in known
    ensures r == [] <==> forall x :: x in e.indexes.GetOr([]) ==> x in known
    ensures |r| <= |e.indexes.GetOr([])|
  {
    Unknowns(e.indexes.GetOr([]), known)
  }

  /** The unknown indexes, in order and with repeats, as the loop over the edge's indexes reports them. */
  function Unknowns(xs: seq<string>, known: set<string>): (r: seq<string>)
    ensures forall x :: x in r <==> x in xs && x !in known
    ensures r == [] <==> forall x :: x in xs ==> x in known
    ensures |r| <= |xs|
  {
    UnknownsOfMembers(xs, known);
    var r := UnknownsOf(xs, known);
    assert r != [] ==> r[0] in r;
    r
  }

  /** The loop itself: each index in turn, kept when it is not known. */
  function UnknownsOf(xs: seq<string>, known: set<string>): seq<string> {
    if xs == [] then [] else (if xs[0] in known then [] else [xs[0]]) + UnknownsOf(xs[1..], known)
  }

  lemma {:induction false} UnknownsOfMembers(xs: seq<string>, known: set<string>)
    ensures forall x :: x in UnknownsOf(xs, known) <==> x in xs && x !in known
    ensures |UnknownsOf(xs, known)| <= |xs|
  {
    if xs != [] {
      UnknownsOfMembers(xs[1..], known);
      assert forall y :: y in xs <==> y == xs[0] || y in xs[1..];
    }
  }

  /** Unknown indexes keep the order of the edge's indexes: the unknowns of a concatenation are those of each half. */
  lemma UnknownsAppend(a: seq<string>, b: seq<string>, known: set<string>)
    ensures Unknowns(a + b, known) == Unknowns(a, known) + Unknowns(b, known)
  {
    UnknownsOfAppend(a, b, known);
  }

  lemma {:induction false} UnknownsOfAppend(a: seq<string>, b: seq<string>, known: set<string>)
    ensures UnknownsOf(a + b, known) == UnknownsOf(a, known) + UnknownsOf(b, known)
    decreases |a|
  {
    if a == [] {
      assert a + b == b;
    } else {
      assert (a + b)[0] == a[0];
      assert (a + b)[1..] == a[1..] + b;
      UnknownsOfAppend(a[1..], b, known);
    }
  }

  /** A single index is reported iff it is not known. */
  lemma UnknownsOne(x: string, known: set<string>)
    ensures Unknowns([x], known) == if x in known then [] else [x]
  {
    assert [x][1..] == [];
  }

  /** Every occurrence of an unknown index is reported, once per occurrence. */
  lemma UnknownsOccurrences(xs: seq<string>, known: set<string>)
    ensures forall x :: multiset(Unknowns(xs, known))[x] == if x in known then 0 else multiset(xs)[x]
  {
    UnknownsOfOccurrences(xs, known);
  }

  lemma {:induction false} UnknownsOfOccurrences(xs: seq<string>, known: set<string>)
    ensures forall x :: multiset(UnknownsOf(xs, known))[x] == if x in known then 0 else multiset(xs)[x]
    decreases |xs|
  {
    if xs != [] {
      assert xs == [xs[0]] + xs[1..];
      UnknownsOfOccurrences(xs[1..], known);
      assert multiset(xs) == multiset{xs[0]} + multiset(xs[1..]);
    }
  }

  function DanglingOf(e: EdgeDoc, ids: set<string>, meta: Meta): (r: seq<Finding>)
    ensures |r| == if Dangles(e, ids) then 1 else 0
    ensures Dangles(e, ids) ==> r[0] == MakeFinding(DanglingOutput, DanglingMessage(SrcOf(e), e.dstHost.value), SrcOf(e), e.dstHost.value,
                                                     DanglingDetail(e.protocol, e.sources.GetOr([]), e.indexes.GetOr([])), meta)
  {
    if Dangles(e, ids) then
      [MakeFinding(DanglingOutput, DanglingMessage(SrcOf(e), e.dstHost.value), SrcOf(e), e.dstHost.value,
                   DanglingDetail(e.protocol, e.sources.GetOr([]), e.indexes.GetOr([])), meta)]
    else []
  }

  function UnknownIndexOf(e: EdgeDoc, known: set<string>, meta: Meta): (r: seq<Finding>)
    ensures var u := UnknownIndexesOf(e, known);
            |r| == |u| && forall i :: 0 <= i < |u| ==>
              r[i] == MakeFinding(UnknownIndex, UnknownIndexMessage(SrcOf(e), DstOf(e), u[i]), SrcOf(e), DstOf(e),
                                  UnknownIndexDetail(u[i], e.protocol, e.sourcetypes.GetOr([])), meta)
  {
    var u := UnknownIndexesOf(e, known);
    seq(|u|, i requires 0 <= i < |u| =>
      MakeFinding(UnknownIndex, UnknownIndexMessage(SrcOf(e), DstOf(e), u[i]), SrcOf(e), DstOf(e),
                  UnknownIndexDetail(u[i], e.protocol, e.sourcetypes.GetOr([])), meta))
  }

  function UnsecuredOf(e: EdgeDoc, meta: Meta): (r: seq<Finding>)
    ensures |r| == if Unsecured(e) then 1 else 0
    ensures Unsecured(e) ==> r[0] == MakeFinding(UnsecuredPipe, UnsecuredMessage(e.protocol.value, SrcOf(e), DstOf(e)), SrcOf(e), DstOf(e),
                                                  UnsecuredDetail(e.protocol.value, e.tls, e.sources.GetOr([])), meta)
  {
    if Unsecured(e) then
      [MakeFinding(UnsecuredPipe, UnsecuredMessage(e.protocol.value, SrcOf(e), DstOf(e)), SrcOf(e), DstOf(e),
                   UnsecuredDetail(e.protocol.value, e.tls, e.sources.GetOr([])), meta)]
    else []
  }

  function DropOf(e: EdgeDoc, meta: Meta): (r: seq<Finding>)
    ensures |r| == if e.dropRules.GetOr([]) != [] then 1 else 0
    ensures e.dropRules.GetOr([]) != [] ==>
              r[0] == MakeFinding(DropPath, DropMessage(SrcOf(e), e.dropRules.value), SrcOf(e), DstOf(e),
                                  DropDetail(e.dropRules.value, e.sources.GetOr([]), e.sourcetypes.GetOr([]), e.filters.GetOr([])), meta)
  {
    var drops := e.dropRules.GetOr([]);
    if drops != [] then
      [MakeFinding(DropPath, DropMessage(SrcOf(e), drops), SrcOf(e), DstOf(e),
                   DropDetail(drops, e.sources.GetOr([]), e.sourcetypes.GetOr([]), e.filters.GetOr([])), meta)]
    else []
  }

  function AmbiguousOf(e: EdgeDoc, meta: Meta): (r: seq<Finding>)
    ensures |r| == if e.confidence == Some("derived") then 1 else 0
    ensures e.confidence == Some("derived") ==>
              r[0] == MakeFinding(AmbiguousGroup, AmbiguousMessage(SrcOf(e), DstOf(e)), SrcOf(e), DstOf(e),
                                  AmbiguousDetail(e.protocol, "derived", e.sources.GetOr([])), meta)
  {
    if e.confidence == Some("derived") then
      [MakeFinding(AmbiguousGroup, AmbiguousMessage(SrcOf(e), DstOf(e)), SrcOf(e), DstOf(e),
                   AmbiguousDetail(e.protocol, "derived", e.sources.GetOr([])), meta)]
    else []
  }

  function DanglingMessage(src: string, dst: string): string {
    "Output from " + src + " to " + dst + " is dangling (destination unreachable or undefined)"
  }

  function UnknownIndexMessage(src: string, dst: string, index: string): string {
    "Edge from " + src + " to " + dst + " references unknown index '" + index + "'"
  }

  function UnsecuredMessage(protocol: string, src: string, dst: string): string {
    protocol + " connection from " + src + " to " + dst + " does not use TLS"
  }

  function DropMessage(src: string, drops: seq<string>): string {
    "Data from " + src + " is dropped via nullQueue: " + JoinWith(drops, ", ")
  }

  function AmbiguousMessage(src: string, dst: string): string {
    "Ambiguous routing from " + src + " to " + dst + ": multiple output groups without defaultGroup"
  }

  // ---------------------------------------------------------------------------
  // The rules over all edges

  /** Which rule to run, with what it needs to know of the whole graph. */
  datatype Rule = DanglingRule(ids: set<string>) | UnknownIndexRule(known: set<string>) | UnsecuredRule | DropRule | AmbiguousRule {
    function Code(): Code {
      match this
      case DanglingRule(_) => DanglingOutput
      case UnknownIndexRule(_) => UnknownIndex
      case UnsecuredRule => UnsecuredPipe
      case DropRule => DropPath
      case AmbiguousRule => AmbiguousGroup
    }
  }

  /** The findings one edge raises under a rule. */
  function EdgeFindings(rule: Rule, e: EdgeDoc, meta: Meta): (r: seq<Finding>)
    ensures forall f :: f in r ==> f.code == rule.Code() && f.severity == rule.Code().Severity() && f.context.meta == MetaOf(meta)
  {
    match rule
    case DanglingRule(ids) => DanglingOf(e, ids, meta)
    case UnknownIndexRule(known) => UnknownIndexOf(e, known, meta)
    case UnsecuredRule => UnsecuredOf(e, meta)
    case DropRule => DropOf(e, meta)
    case AmbiguousRule => AmbiguousOf(e, meta)
  }

  /** The number of findings one edge raises under a rule. */
  function Raised(rule: Rule, e: EdgeDoc): nat {
    match rule
    case DanglingRule(ids) => if Dangles(e, ids) then 1 else 0
    case UnknownIndexRule(known) => |UnknownIndexesOf(e, known)|
    case UnsecuredRule => if Unsecured(e) then 1 else 0
    case DropRule => if e.dropRules.GetOr([]) != [] then 1 else 0
    case AmbiguousRule => if e.confidence == Some("derived") then 1 else 0
  }

  function TotalRaised(rule: Rule, edges: seq<EdgeDoc>): nat
    decreases |edges|
  {
    if edges == [] then 0 else TotalRaised(rule, edges[..|edges| - 1]) + Raised(rule, edges[|edges| - 1])
  }

  /** A rule run over the edges in order, keeping every finding. */
  function Detect(rule: Rule, edges: seq<EdgeDoc>, meta: Meta): (r: seq<Finding>)
    ensures |r| == TotalRaised(rule, edges)
    decreases |edges|
  {
    if edges == [] then []
    else
      var prev := Detect(rule, edges[..|edges| - 1], meta);
      var more := EdgeFindings(rule, edges[|edges| - 1], meta);
      assert |more| == Raised(rule, edges[|edges| - 1]);
      prev + more
  }

  /** `detect_dangling_outputs` */
  function DetectDanglingOutputs(hosts: seq<HostDoc>, edges: seq<EdgeDoc>, meta: Meta): seq<Finding> {
    Detect(DanglingRule(PlaceholderIds(hosts)), edges, meta)
  }

  /** `detect_unknown_indexes` */
  function DetectUnknownIndexes(edges: seq<EdgeDoc>, known: set<string>, meta: Meta): seq<Finding> {
    Detect(UnknownIndexRule(known), edges, meta)
  }

  /** `detect_unsecured_pipes` */
  function DetectUnsecuredPipes(edges: seq<EdgeDoc>, meta: Meta): seq<Finding> {
    Detect(UnsecuredRule, edges, meta)
  }

  /** `detect_drop_paths` */
  function DetectDropPaths(edges: seq<EdgeDoc>, meta: Meta): seq<Finding> {
    Detect(DropRule, edges, meta)
  }

  /** `detect_ambiguous_groups` */
  function DetectAmbiguousGroups(edges: seq<EdgeDoc>, meta: Meta): seq<Finding> {
    Detect(AmbiguousRule, edges, meta)
  }

  /** `validate_graph` */
  function ValidateGraph(g: GraphDoc): (r: seq<Finding>)
    ensures ExtractHosts(g) == [] && ExtractEdges(g) == [] ==> r == []
  {
    var hosts, edges, meta := ExtractHosts(g), ExtractEdges(g), ExtractMeta(g);
    if hosts == [] && edges == [] then []
    else
      var ids := PlaceholderIds(hosts);
      var known := KnownIndexes(edges, ids);
      DetectDanglingOutputs(hosts, edges, meta) + DetectUnknownIndexes(edges, known, meta)
      + DetectUnsecuredPipes(edges, meta) + DetectDropPaths(edges, meta) + DetectAmbiguousGroups(edges, meta)
  }

  // ---------------------------------------------------------------------------
  // Properties

  /** A rule over two runs of edges is the rule over each, in order: no finding is merged or dropped. */
  lemma {:induction false} DetectAppend(rule: Rule, a: seq<EdgeDoc>, b: seq<EdgeDoc>, meta: Meta)
    ensures Detect(rule, a + b, meta) == Detect(rule, a, meta) + Detect(rule, b, meta)
    decreases |b|
  {
    if b == [] {
      assert a + b == a;
    } else {
      var init, last := b[..|b| - 1], b[|b| - 1];
      assert a + b == (a + init) + [last];
      assert b == init + [last];
      DetectAppend(rule, a, init, meta);
      DetectSnoc(rule, a + init, last, meta);
      DetectSnoc(rule, init, last, meta);
      ConcatAssoc(Detect(rule, a, meta), Detect(rule, init, meta), EdgeFindings(rule, last, meta));
    }
  }

  lemma DetectSnoc(rule: Rule, edges: seq<EdgeDoc>, e: EdgeDoc, meta: Meta)
    ensures Detect(rule, edges + [e], meta) == Detect(rule, edges, meta) + EdgeFindings(rule, e, meta)
  {
    assert (edges + [e])[..|edges|] == edges;
  }

  /** Every finding of a rule carries the rule's code and severity, and the metadata when there is any. */
  lemma {:induction false} DetectCodes(rule: Rule, edges: seq<EdgeDoc>, meta: Meta)
    ensures forall f :: f in Detect(rule, edges, meta) ==>
              f.code == rule.Code() && f.severity == rule.Code().Severity() && f.context.meta == MetaOf(meta)
    decreases |edges|
  {
    if edges != [] {
      DetectCodes(rule, edges[..|edges| - 1], meta);
    }
  }

  /** On one edge, a rule raises exactly that edge's findings. */
  lemma DetectOne(rule: Rule, e: EdgeDoc, meta: Meta)
    ensures Detect(rule, [e], meta) == EdgeFindings(rule, e, meta)
  {
    assert [e][..0] == [];
  }

  /**
   * The placeholder predicate holds exactly for hosts labelled `placeholder`,
   * the unknown destination, indexer-discovery ids and hosts with the unknown role.
   */
  lemma PlaceholderCriteria(h: HostDoc)
    ensures IsPlaceholderHost(h) <==>
              (h.labels.Some? && PlaceholderLabel in h.labels.value)
              || h.id == Some(UnknownDestinationId)
              || (h.id.Some? && IsPrefix(DiscoveryPrefix, h.id.value))
              || (h.roles.Some? && UnknownRole in h.roles.value)
  {
    if h.id.None? {
      assert !IsPrefix(DiscoveryPrefix, "");
    }
  }

  /** Placeholder ids never include hosts without an id. */
  lemma PlaceholderIdsAreNamed(hosts: seq<HostDoc>, h: HostDoc)
    requires h in hosts && IsPlaceholderHost(h)
    ensures h.id.Some? && h.id.value != "" <==> h.id.GetOr("") in PlaceholderIds(hosts)
  {
  }

  /**
   * Within a validation, an edge to a real host never raises an unknown index:
   * all its indexes are known, because they are collected from such edges.
   */
  lemma NoUnknownIndexOnRealHost(g: GraphDoc, e: EdgeDoc)
    requires e in ExtractEdges(g)
    requires ToRealHost(e, PlaceholderIds(ExtractHosts(g)))
    ensures var known := KnownIndexes(ExtractEdges(g), PlaceholderIds(ExtractHosts(g)));
            UnknownIndexOf(e, known, ExtractMeta(g)) == []
  {
    var known := KnownIndexes(ExtractEdges(g), PlaceholderIds(ExtractHosts(g)));
    assert forall x :: x in e.indexes.GetOr([]) ==> x in known;
  }

  /** The findings of a validation are the five rules' findings, so their number is the sum. */
  lemma ValidateCount(g: GraphDoc)
    requires ExtractHosts(g) != [] || ExtractEdges(g) != []
    ensures var hosts, edges := ExtractHosts(g), ExtractEdges(g);
            var ids := PlaceholderIds(hosts);
            |ValidateGraph(g)| == TotalRaised(DanglingRule(ids), edges)
                                   + TotalRaised(UnknownIndexRule(KnownIndexes(edges, ids)), edges)
                                   + TotalRaised(UnsecuredRule, edges) + TotalRaised(DropRule, edges)
                                   + TotalRaised(AmbiguousRule, edges)
  {
  }

  /** Each finding of a validation comes from one of the five rules, with that rule's severity. */
  lemma ValidateSeverities(g: GraphDoc)
    ensures forall f :: f in ValidateGraph(g) ==> f.severity == f.code.Severity() && f.context.meta == MetaOf(ExtractMeta(g))
  {
    var hosts, edges, meta := ExtractHosts(g), ExtractEdges(g), ExtractMeta(g);
    if hosts != [] || edges != [] {
      var ids := PlaceholderIds(hosts);
      var known := KnownIndexes(edges, ids);
      var a, b, c, d, e := DetectDanglingOutputs(hosts, edges, meta), DetectUnknownIndexes(edges, known, meta),
                           DetectUnsecuredPipes(edges, meta), DetectDropPaths(edges, meta), DetectAmbiguousGroups(edges, meta);
      assert ValidateGraph(g) == a + b + c + d + e;
      DetectCodes(DanglingRule(ids), edges, meta);
      DetectCodes(UnknownIndexRule(known), edges, meta);
      DetectCodes(UnsecuredRule, edges, meta);
      DetectCodes(DropRule, edges, meta);
      DetectCodes(AmbiguousRule, edges, meta);
    }
  }

  /** Dangling outputs: one error per edge to a placeholder id, repeated edges repeated. */
  lemma DanglingPerEdge(hosts: seq<HostDoc>, edges: seq<EdgeDoc>, meta: Meta, e: EdgeDoc)
    ensures |DetectDanglingOutputs(hosts, edges + [e], meta)|
            == |DetectDanglingOutputs(hosts, edges, meta)| + if Dangles(e, PlaceholderIds(hosts)) then 1 else 0
  {
    assert (edges + [e])[..|edges|] == edges;
  }

  /** Unsecured pipes: one warning per TLS-requiring edge whose TLS is off or unknown. */
  lemma UnsecuredPerEdge(edges: seq<EdgeDoc>, meta: Meta, e: EdgeDoc)
    ensures |DetectUnsecuredPipes(edges + [e], meta)|
            == |DetectUnsecuredPipes(edges, meta)| + if Unsecured(e) then 1 else 0
    ensures Unsecured(e) <==> (e.protocol == Some("splunktcp") || e.protocol == Some("http_event_collector")) && (e.tls.None? || e.tls == Some(false))
  {
    if e.tls.Some? {
      assert e.tls.value || e.tls == Some(false);
    }
    assert (edges + [e])[..|edges|] == edges;
  }
}
