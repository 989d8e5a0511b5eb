/**
 * Edges of the data-flow graph: how an input's type maps to a protocol and
 * path kind, which hosts the output groups send to, and the edges built by
 * pairing every enabled input with every output target.
 */
module Edges {
  import opened Wrappers
  import opened Text
  import opened Order
  import opened ConfExtract
  import opened ConfSnapshot
  import opened TransformEval
  import opened HostInference

  datatype Protocol = SplunkTcpProtocol | HttpEventCollector | SyslogProtocol | TcpProtocol | UdpProtocol {
    function Name(): string {
      match this
      case SplunkTcpProtocol => "splunktcp"
      case HttpEventCollector => "http_event_collector"
      case SyslogProtocol => "syslog"
      case TcpProtocol => "tcp"
      case UdpProtocol => "udp"
    }
  }

  datatype PathKind = Forwarding | Hec | SyslogPath | ScriptedInput | ModInput {
    function Name(): string {
      match this
      case Forwarding => "forwarding"
      case Hec => "hec"
      case SyslogPath => "syslog"
      case ScriptedInput => "scripted_input"
      case ModInput => "modinput"
    }
  }

  datatype Confidence = Explicit | Derived {
    function Name(): string {
      match this
      case Explicit => "explicit"
      case Derived => "derived"
    }
  }

  /** One data flow between two hosts; `tls` is unknown when `None`. */
  datatype Edge = Edge(
    src: string, dst: string, protocol: Protocol, pathKind: PathKind,
    sources: seq<string>, sourcetypes: seq<string>, indexes: seq<string>,
    filters: seq<string>, dropRules: seq<string>, tls: Option<bool>, weight: int,
    appContexts: seq<string>, confidence: Confidence)

  /** The destination of edges from a host with no output targets. */
  const UnknownDestination := "unknown_destination"

  /** Prefix of the placeholder target standing for an indexer-discovery group. */
  const DiscoveryHostPrefix := "indexer_discovery:"

  // ---------------------------------------------------------------------------
  // Protocol and path kind

  /** Input-type prefixes in the order they are tried. */
  const ProtocolMappings: seq<(string, (Protocol, PathKind))> := [
    ("monitor", (SplunkTcpProtocol, Forwarding)),
    ("tcp", (TcpProtocol, SyslogPath)),
    ("udp", (UdpProtocol, SyslogPath)),
    ("splunktcp", (SplunkTcpProtocol, Forwarding)),
    ("http", (HttpEventCollector, Hec)),
    ("script", (SplunkTcpProtocol, ScriptedInput)),
    ("WinEventLog", (SplunkTcpProtocol, ModInput)),
    ("modular_input", (SplunkTcpProtocol, ModInput))]

  /** Mapping `i` is the first whose lower-cased key starts the lower-cased input type. */
  predicate FirstMatchAt(inputType: string, ms: seq<(string, (Protocol, PathKind))>, i: int) {
    && 0 <= i < |ms| && IsPrefix(Lower(ms[i].0), Lower(inputType))
    && forall j :: 0 <= j < i ==> !IsPrefix(Lower(ms[j].0), Lower(inputType))
  }

  function FirstMapping(inputType: string, ms: seq<(string, (Protocol, PathKind))>): (r: Option<(Protocol, PathKind)>)
    ensures r.None? <==> forall i :: 0 <= i < |ms| ==> !IsPrefix(Lower(ms[i].0), Lower(inputType))
    ensures r.Some? ==> exists i :: FirstMatchAt(inputType, ms, i) && r.value == ms[i].1
    decreases |ms|
  {
    if ms == [] then None
    else if IsPrefix(Lower(ms[0].0), Lower(inputType)) then
      assert FirstMatchAt(inputType, ms, 0);
      Some(ms[0].1)
    else
      var r := FirstMapping(inputType, ms[1..]);
      assert forall i :: 0 < i < |ms| ==> ms[i] == ms[1..][i - 1];
      assert r.Some? ==> exists i :: FirstMatchAt(inputType, ms, i) && r.value == ms[i].1 by {
        if r.Some? {
          var i :| FirstMatchAt(inputType, ms[1..], i) && r.value == ms[1..][i].1;
          assert FirstMatchAt(inputType, ms, i + 1);
        }
      }
      r
  }

  /** `determine_protocol_and_path_kind`: the first matching prefix, else splunktcp forwarding. */
  function ProtocolAndPathKind(input: InputStanza): (Protocol, PathKind) {
    match FirstMapping(input.kind.Name(), ProtocolMappings)
    case Some(m) => m
    case None => (SplunkTcpProtocol, Forwarding)
  }

  lemma NotPrefix(p: string, s: string, i: nat)
    requires i < |p| && i < |s| && p[i] != s[i]
    ensures !IsPrefix(p, s)
  {
  }

  /**
   * What each input kind maps to. `splunktcp` is not caught by `tcp` because
   * the match is on prefixes, and `modular` inputs do not start with
   * `modular_input`, so they get the default.
   */
  lemma ProtocolOfEachKind(input: InputStanza)
    ensures ProtocolAndPathKind(input) == match input.kind
      case Monitor => (SplunkTcpProtocol, Forwarding)
      case Tcp => (TcpProtocol, SyslogPath)
      case Udp => (UdpProtocol, SyslogPath)
      case SplunkTcp => (SplunkTcpProtocol, Forwarding)
      case Http => (HttpEventCollector, Hec)
      case Script => (SplunkTcpProtocol, ScriptedInput)
      case WinEventLog => (SplunkTcpProtocol, ModInput)
      case Modular => (SplunkTcpProtocol, Forwarding)
  {
    var t := input.kind.Name();
    var ms := ProtocolMappings;
    var k := |ms|;
    match input.kind {
      case Monitor => k := 0;
      case Tcp => k := 1;
      case Udp => k := 2;
      case SplunkTcp => k := 3;
      case Http => k := 4;
      case Script => k := 5;
      case WinEventLog => k := 6;
      case Modular =>
    }
    forall j | 0 <= j < k && j < |ms| ensures !IsPrefix(Lower(ms[j].0), Lower(t)) {
      var p, s := Lower(ms[j].0), Lower(t);
      if input.kind == Modular && j == 0 {
        NotPrefix(p, s, 2);
      } else if input.kind == Script && j == 3 {
        NotPrefix(p, s, 1);
      } else if input.kind == Modular && j == 7 {
        assert |p| > |s|;
      } else {
        NotPrefix(p, s, 0);
      }
    }
    if k < |ms| {
      assert IsPrefix(Lower(ms[k].0), Lower(t));
      assert FirstMatchAt(t, ms, k);
    }
  }

  // ---------------------------------------------------------------------------
  // Output targets

  /** A host data is sent to, whether the connection uses TLS, and the group naming it. */
  datatype Target = Target(host: string, tls: bool, group: string)

  /** The host part of a `host:port` server entry. */
  function HostPart(server: string): string {
    Strip(Split(server, ':')[0])
  }

  /** A group's TLS setting, as a plain boolean: enabled, or a certificate configured. */
  predicate GroupTls(g: OutputGroup) {
    g.sslEnabled == Some(true) || Truthy(g.sslCertPath)
  }

  /** One target per server whose host part is not empty. */
  function ServerTargets(servers: seq<string>, tls: bool, group: string): (r: seq<Target>)
    ensures forall i :: 0 <= i < |r| ==> r[i].host != "" && ':' !in r[i].host && r[i].tls == tls && r[i].group == group
    ensures |r| <= |servers|
    ensures forall t :: t in r <==> exists s :: s in servers && HostPart(s) != "" && t == Target(HostPart(s), tls, group)
    decreases |servers|
  {
    if servers == [] then []
    else
      var init := servers[..|servers| - 1];
      var prev := ServerTargets(init, tls, group);
      var host := HostPart(servers[|servers| - 1]);
      assert forall s :: s in servers <==> s in init || s == servers[|servers| - 1];
      if host == "" then prev else prev + [Target(host, tls, group)]
  }

  /** Targets keep the order of the servers: a list in two parts gives the targets of each, one after the other. */
  lemma {:induction false} ServerTargetsAppend(a: seq<string>, b: seq<string>, tls: bool, group: string)
    ensures ServerTargets(a + b, tls, group) == ServerTargets(a, tls, group) + ServerTargets(b, tls, group)
    decreases |b|
  {
    if b == [] {
      assert a + b == a;
    } else {
      var b' := b[..|b| - 1];
      assert (a + b)[..|a + b| - 1] == a + b';
      assert (a + b)[|a + b| - 1] == b[|b| - 1];
      ServerTargetsAppend(a, b', tls, group);
      var more := if HostPart(b[|b| - 1]) == "" then [] else [Target(HostPart(b[|b| - 1]), tls, group)];
      assert ServerTargets(a + b, tls, group) == ServerTargets(a + b', tls, group) + more;
      assert ServerTargets(b, tls, group) == ServerTargets(b', tls, group) + more;
      ConcatAssoc(ServerTargets(a, tls, group), ServerTargets(b', tls, group), more);
    }
  }

  /** An indexer-discovery group is one placeholder target; otherwise its servers are. */
  function GroupTargets(g: OutputGroup): (r: seq<Target>)
    ensures forall t :: t in r ==> t.tls == GroupTls(g) && t.group == g.name
    ensures Truthy(g.indexerDiscovery) ==> |r| == 1 && r[0].host == DiscoveryHostPrefix + g.indexerDiscovery.value
    ensures !Truthy(g.indexerDiscovery) ==>
              forall t :: t in r <==> exists s :: s in g.servers && HostPart(s) != "" && t.host == HostPart(s)
                                                  && t.tls == GroupTls(g) && t.group == g.name
  {
    if Truthy(g.indexerDiscovery) then [Target(DiscoveryHostPrefix + g.indexerDiscovery.value, GroupTls(g), g.name)]
    else ServerTargets(g.servers, GroupTls(g), g.name)
  }

  /** `resolve_output_targets` */
  function OutputTargets(groups: seq<OutputGroup>): (r: seq<Target>)
    ensures forall i :: 0 <= i < |r| ==> r[i].host != ""
    ensures forall t :: t in r <==> exists g :: g in groups && t in GroupTargets(g)
    ensures forall t :: t in r ==> exists g :: g in groups && t.group == g.name && t.tls == GroupTls(g)
    decreases |groups|
  {
    if groups == [] then []
    else
      var init := groups[..|groups| - 1];
      assert forall g :: g in groups <==> g in init || g == groups[|groups| - 1];
      OutputTargets(init) + GroupTargets(groups[|groups| - 1])
  }

  /** The targets of a list of groups are those of its parts, in order. */
  lemma {:induction false} OutputTargetsAppend(a: seq<OutputGroup>, b: seq<OutputGroup>)
    ensures OutputTargets(a + b) == OutputTargets(a) + OutputTargets(b)
    decreases |b|
  {
    if b == [] {
      assert a + b == a;
    } else {
      var b' := b[..|b| - 1];
      assert (a + b)[..|a + b| - 1] == a + b';
      assert (a + b)[|a + b| - 1] == b[|b| - 1];
      OutputTargetsAppend(a, b');
      assert OutputTargets(a + b) == OutputTargets(a + b') + GroupTargets(b[|b| - 1]);
      assert OutputTargets(b) == OutputTargets(b') + GroupTargets(b[|b| - 1]);
      ConcatAssoc(OutputTargets(a), OutputTargets(b'), GroupTargets(b[|b| - 1]));
    }
  }

  /** Every target either names an indexer-discovery placeholder or is a bare host. */
  lemma {:induction false} TargetKinds(groups: seq<OutputGroup>)
    ensures forall t :: t in OutputTargets(groups) ==>
              (t.host != "" && ':' !in t.host) || IsPrefix(DiscoveryHostPrefix, t.host)
    decreases |groups|
  {
    if groups != [] {
      TargetKinds(groups[..|groups| - 1]);
      var g := groups[|groups| - 1];
      if Truthy(g.indexerDiscovery) {
        assert IsPrefix(DiscoveryHostPrefix, DiscoveryHostPrefix + g.indexerDiscovery.value);
      }
    }
  }

  /** The host part of `host:port` (or of a bare host) is the host. */
  lemma HostPartOfServer(host: string, port: string)
    requires host != "" && ':' !in host && !IsSpace(host[0]) && !IsSpace(host[|host| - 1])
    ensures HostPart(host + ":" + port) == host
    ensures HostPart(host) == host
  {
    SplitPrefix(host, ":" + port, ':');
    assert Split(":" + port, ':')[0] == "";
    assert host + ":" + port == host + (":" + port);
    SplitPrefix(host, "", ':');
    assert host + "" == host;
  }

  /** A server entry naming `host`, with or without a port. */
  predicate NamesHost(server: string, host: string) {
    server == host || IsPrefix(host + ":", server)
  }

  /** A clean host name: not empty, no colon, no surrounding white space. */
  predicate CleanHost(host: string) {
    host != "" && ':' !in host && !IsSpace(host[0]) && !IsSpace(host[|host| - 1])
  }

  lemma HostPartOfNamingServer(server: string, host: string)
    requires CleanHost(host) && NamesHost(server, host)
    ensures HostPart(server) == host
  {
    if server != host {
      var p := host + ":";
      var port := server[|p|..];
      assert server == server[..|p|] + port;
      assert server == host + ":" + port;
      HostPartOfServer(host, port);
    } else {
      HostPartOfServer(host, "");
    }
  }

  /** Each server names the clean host at the same position. */
  predicate ServersName(servers: seq<string>, hosts: seq<string>)
    decreases |servers|
  {
    && |servers| == |hosts|
    && (servers != [] ==>
          && CleanHost(hosts[|hosts| - 1]) && NamesHost(servers[|servers| - 1], hosts[|hosts| - 1])
          && ServersName(servers[..|servers| - 1], hosts[..|hosts| - 1]))
  }

  function HostTargets(hosts: seq<string>, tls: bool, group: string): seq<Target>
    decreases |hosts|
  {
    if hosts == [] then [] else HostTargets(hosts[..|hosts| - 1], tls, group) + [Target(hosts[|hosts| - 1], tls, group)]
  }

  /** Servers written `host` or `host:port` give one target per host, in order. */
  lemma {:induction false} ServerTargetsOfHosts(servers: seq<string>, hosts: seq<string>, tls: bool, group: string)
    requires ServersName(servers, hosts)
    ensures ServerTargets(servers, tls, group) == HostTargets(hosts, tls, group)
    decreases |hosts|
  {
    if hosts != [] {
      var n := |hosts| - 1;
      ServerTargetsOfHosts(servers[..n], hosts[..n], tls, group);
      HostPartOfNamingServer(servers[n], hosts[n]);
    }
  }

  // ---------------------------------------------------------------------------
  // Edges

  /** More than one output group and none of them the default. */
  predicate AmbiguousRouting(outputs: seq<OutputGroup>) {
    |outputs| > 1 && forall i :: 0 <= i < |outputs| ==> !outputs[i].defaultGroup
  }

  function SourcesOf(input: InputStanza): seq<string> {
    if input.name != "" then [input.name] else []
  }

  function SourcetypesOf(input: InputStanza): seq<string> {
    if Truthy(input.sourcetype) then [input.sourcetype.value] else []
  }

  function AppContextsOf(input: InputStanza): seq<string> {
    if Truthy(input.provenance.sourceApp) then [input.provenance.sourceApp.value] else []
  }

  /**
   * One edge for each target, or a single edge to the unknown destination when
   * there are none; `pk` is the input's path kind and `ev` its transform evaluation.
   */
  function InputEdges(hostId: string, input: InputStanza, pk: PathKind, ev: EvalState, targets: seq<Target>,
                      ambiguous: bool): (r: seq<Edge>)
    ensures |r| == if targets == [] then 1 else |targets|
    ensures forall i :: 0 <= i < |r| ==>
              && r[i].src == hostId && r[i].protocol == SplunkTcpProtocol && r[i].weight == 1
              && r[i].pathKind == pk
              && r[i].sources == SourcesOf(input) && r[i].sourcetypes == SourcetypesOf(input)
              && r[i].appContexts == AppContextsOf(input)
              && r[i].indexes == ev.indexes && r[i].filters == ev.filters && r[i].dropRules == ev.drops
    ensures targets == [] ==> r[0].dst == UnknownDestination && r[0].tls.None? && r[0].confidence == Derived
    ensures forall i :: 0 <= i < |targets| ==>
              r[i].dst == targets[i].host && r[i].tls == Some(targets[i].tls)
              && (r[i].confidence == Derived <==> ambiguous)
  {
    if targets == [] then
      [Edge(hostId, UnknownDestination, SplunkTcpProtocol, pk, SourcesOf(input), SourcetypesOf(input),
            ev.indexes, ev.filters, ev.drops, None, 1, AppContextsOf(input), Derived)]
    else
      seq(|targets|, i requires 0 <= i < |targets| =>
        Edge(hostId, targets[i].host, SplunkTcpProtocol, pk, SourcesOf(input), SourcetypesOf(input),
             ev.indexes, ev.filters, ev.drops, Some(targets[i].tls), 1, AppContextsOf(input),
             if ambiguous then Derived else Explicit))
  }

  /** The edges of every enabled input, in input order; disabled inputs have none. */
  function EdgesOf(hostId: string, inputs: seq<InputStanza>, c: ParsedConfig, policy: Marking, targets: seq<Target>, ambiguous: bool): (r: seq<Edge>)
    ensures forall i :: 0 <= i < |r| ==> r[i].src == hostId && r[i].protocol == SplunkTcpProtocol && r[i].weight == 1
    decreases |inputs|
  {
    if inputs == [] then []
    else
      EdgesOf(hostId, inputs[..|inputs| - 1], c, policy, targets, ambiguous)
      + EnabledEdges(hostId, inputs[|inputs| - 1], c, policy, targets, ambiguous)
  }

  /**
   * The edges of one input. `policy` says when a props stanza counts as
   * applied: the resolver as written evaluates routing with `AtEvaluation`;
   * `AtMatch` is the evidently intended behaviour. Every lemma below holds for both.
   */
  function EnabledEdges(hostId: string, input: InputStanza, c: ParsedConfig, policy: Marking, targets: seq<Target>, ambiguous: bool): (r: seq<Edge>)
    ensures |r| == if input.disabled then 0 else if targets == [] then 1 else |targets|
    ensures forall i :: 0 <= i < |r| ==> r[i].src == hostId && r[i].protocol == SplunkTcpProtocol && r[i].weight == 1
  {
    if input.disabled then [] else InputEdges(hostId, input, ProtocolAndPathKind(input).1, Evaluate(input, c.props, c.transforms, policy),
                                                targets, ambiguous)
  }

  /** `build_edges_from_inputs_outputs`; the code as written corresponds to `policy == AtEvaluation`. */
  function BuildEdges(c: ParsedConfig, policy: Marking, host: Host): (r: seq<Edge>)
    ensures forall i :: 0 <= i < |r| ==> r[i].src == host.id && r[i].protocol == SplunkTcpProtocol && r[i].weight == 1
  {
    EdgesOf(host.id, c.inputs, c, policy, OutputTargets(c.outputs), AmbiguousRouting(c.outputs))
  }

  function EnabledCount(inputs: seq<InputStanza>): nat
    decreases |inputs|
  {
    if inputs == [] then 0
    else EnabledCount(inputs[..|inputs| - 1]) + if inputs[|inputs| - 1].disabled then 0 else 1
  }

  lemma MulStep(n: nat, k: nat)
    ensures (n + 1) * k == n * k + k
  {
  }

  /** Edges per input, per target: each enabled input gives one edge per target, or exactly one. */
  lemma {:induction false} EdgeCount(hostId: string, inputs: seq<InputStanza>, c: ParsedConfig, policy: Marking, targets: seq<Target>, ambiguous: bool)
    ensures |EdgesOf(hostId, inputs, c, policy, targets, ambiguous)| == EnabledCount(inputs) * (if targets == [] then 1 else |targets|)
    decreases |inputs|
  {
    if inputs != [] {
      var init, last := inputs[..|inputs| - 1], inputs[|inputs| - 1];
      var k := if targets == [] then 1 else |targets|;
      var n := EnabledCount(init);
      EdgeCount(hostId, init, c, policy, targets, ambiguous);
      var prev := EdgesOf(hostId, init, c, policy, targets, ambiguous);
      var more := EnabledEdges(hostId, last, c, policy, targets, ambiguous);
      assert EdgesOf(hostId, inputs, c, policy, targets, ambiguous) == prev + more;
      assert |prev| == n * k;
      if last.disabled {
        assert EnabledCount(inputs) == n && |more| == 0;
      } else {
        assert EnabledCount(inputs) == n + 1 && |more| == k;
        MulStep(n, k);
      }
    }
  }

  /** The edges of a list of inputs are those of its parts, in order. */
  lemma {:induction false} EdgesAppend(hostId: string, a: seq<InputStanza>, b: seq<InputStanza>, c: ParsedConfig, policy: Marking,
                                       targets: seq<Target>, ambiguous: bool)
    ensures EdgesOf(hostId, a + b, c, policy, targets, ambiguous) == EdgesOf(hostId, a, c, policy, targets, ambiguous) + EdgesOf(hostId, b, c, policy, targets, ambiguous)
    decreases |b|
  {
    if b == [] {
      assert a + b == a;
    } else {
      var b' := b[..|b| - 1];
      var last := b[|b| - 1];
      assert (a + b)[..|a + b| - 1] == a + b';
      assert (a + b)[|a + b| - 1] == last;
      EdgesAppend(hostId, a, b', c, policy, targets, ambiguous);
      assert EdgesOf(hostId, a + b, c, policy, targets, ambiguous)
             == EdgesOf(hostId, a + b', c, policy, targets, ambiguous) + EnabledEdges(hostId, last, c, policy, targets, ambiguous);
      assert EdgesOf(hostId, b, c, policy, targets, ambiguous)
             == EdgesOf(hostId, b', c, policy, targets, ambiguous) + EnabledEdges(hostId, last, c, policy, targets, ambiguous);
      ConcatAssoc(EdgesOf(hostId, a, c, policy, targets, ambiguous), EdgesOf(hostId, b', c, policy, targets, ambiguous),
                  EnabledEdges(hostId, last, c, policy, targets, ambiguous));
    }
  }

  /** A disabled input adds no edges. */
  lemma DisabledInputHasNoEdges(hostId: string, inputs: seq<InputStanza>, input: InputStanza, c: ParsedConfig, policy: Marking,
                                targets: seq<Target>, ambiguous: bool)
    requires input.disabled
    ensures EdgesOf(hostId, inputs + [input], c, policy, targets, ambiguous) == EdgesOf(hostId, inputs, c, policy, targets, ambiguous)
  {
    assert (inputs + [input])[..|inputs|] == inputs;
  }

  /**
   * The shape every edge has: derived exactly when nothing is configured to
   * receive it or routing is ambiguous; with no targets it goes to the unknown
   * destination with TLS unknown, otherwise to one of the targets with that
   * target's TLS.
   */
  predicate EdgeShape(e: Edge, targets: seq<Target>, ambiguous: bool)
  {
    && (e.confidence == Derived <==> targets == [] || ambiguous)
    && (targets == [] ==> e.dst == UnknownDestination && e.tls.None?)
    && (targets != [] ==> exists t :: t in targets && e.dst == t.host && e.tls == Some(t.tls))
  }

  lemma InputEdgesShape(hostId: string, input: InputStanza, pk: PathKind, ev: EvalState, targets: seq<Target>,
                        ambiguous: bool)
    ensures forall e :: e in InputEdges(hostId, input, pk, ev, targets, ambiguous) ==> EdgeShape(e, targets, ambiguous)
  {
    var es := InputEdges(hostId, input, pk, ev, targets, ambiguous);
    forall e | e in es ensures EdgeShape(e, targets, ambiguous) {
      var i :| 0 <= i < |es| && es[i] == e;
      if targets != [] {
        assert targets[i] in targets;
      }
    }
  }

  /** Every edge built has that shape. */
  lemma {:induction false} EdgeConfidence(hostId: string, inputs: seq<InputStanza>, c: ParsedConfig, policy: Marking,
                                          targets: seq<Target>, ambiguous: bool)
    ensures forall e :: e in EdgesOf(hostId, inputs, c, policy, targets, ambiguous) ==> EdgeShape(e, targets, ambiguous)
    decreases |inputs|
  {
    if inputs != [] {
      var init, input := inputs[..|inputs| - 1], inputs[|inputs| - 1];
      EdgeConfidence(hostId, init, c, policy, targets, ambiguous);
      var prev := EdgesOf(hostId, init, c, policy, targets, ambiguous);
      var more := EnabledEdges(hostId, input, c, policy, targets, ambiguous);
      assert EdgesOf(hostId, inputs, c, policy, targets, ambiguous) == prev + more;
      if !input.disabled {
        InputEdgesShape(hostId, input, ProtocolAndPathKind(input).1, Evaluate(input, c.props, c.transforms, policy),
                        targets, ambiguous);
      }
    }
  }

  /**
   * As written, the edge built for the example input (a sourcetype rewritten
   * to B and back to A) lists the index `idx` twice; marking at match time
   * lists it once.
   */
  lemma ExampleEdgeIndexes(hostId: string, c: ParsedConfig)
    requires c.props == ExampleProps && c.transforms == ExampleTransforms
    ensures EnabledEdges(hostId, ExampleInput, c, AtEvaluation, [], false)[0].indexes == ["main", "idx", "idx"]
    ensures EnabledEdges(hostId, ExampleInput, c, AtMatch, [], false)[0].indexes == ["main", "idx"]
  {
    ReappliedAsWritten();
    AppliedOnceCorrected();
  }
}
