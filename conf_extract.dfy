/**
 * The typed views of the merged stanza tables: inputs, output groups, props
 * stanzas and transforms, each derived from a stanza's name and values.
 * Regular expressions on stanza names and keys are written out as prefix,
 * separator and digit tests.
 */
module ConfExtract {
  import opened Wrappers
  import opened Text
  import opened Order
  import opened Dicts
  import opened ConfLayers

  /** Where a stanza came from (the latest file and app, and all of them in merge order). */
  datatype Provenance = Provenance(sourceFile: string, sourceApp: Option<string>,
                                   sourceFiles: seq<string>, sourceApps: seq<Option<string>>)

  function ProvenanceOf(st: Stanza): Provenance {
    Provenance(st.sourceFile, st.sourceApp, st.sourceFiles, st.sourceApps)
  }

  /** Python truthiness of an optional string: present and non-empty. */
  predicate Truthy(o: Option<string>) {
    o.Some? && o.value != ""
  }

  /** The text after prefix `p`. */
  function After(p: string, s: string): string
    requires IsPrefix(p, s)
  {
    s[|p|..]
  }

  /** The boolean spelling the parser accepts: `1`, `true` or `yes`, in any case. */
  predicate ParseBool(v: string) {
    Lower(v) in {"1", "true", "yes"}
  }

  /** An optional boolean setting: absent stays absent. */
  function TriBool(o: Option<string>): (r: Option<bool>)
    ensures r.Some? <==> o.Some?
    ensures r.Some? ==> (r.value <==> ParseBool(o.value))
  {
    match o
    case None => None
    case Some(v) => Some(ParseBool(v))
  }

  // ---------------------------------------------------------------------------
  // inputs.conf

  datatype InputKind = Monitor | Tcp | Udp | SplunkTcp | Http | Script | WinEventLog | Modular {
    function Name(): string {
      match this
      case Monitor => "monitor"
      case Tcp => "tcp"
      case Udp => "udp"
      case SplunkTcp => "splunktcp"
      case Http => "http"
      case Script => "script"
      case WinEventLog => "WinEventLog"
      case Modular => "modular"
    }

    predicate IsNetwork() { this == Tcp || this == Udp || this == SplunkTcp }
  }

  predicate IsNumber(s: string) { |s| > 0 && AllDigits(s) }

  /** `(?:[^:]*:)?(\d+)$`: digits, optionally after one colon-free prefix and a colon. */
  function PortSpec(rest: string): (port: Option<nat>) {
    var parts := Split(rest, ':');
    var digits := parts[|parts| - 1];
    if |parts| <= 2 && IsNumber(digits) then Some(DigitsValue(digits)) else None
  }

  /** A bare port, or a colon-free host and a port, reads as that port. */
  lemma PortSpecOf(host: string, port: nat)
    requires ':' !in host
    ensures PortSpec(NatToString(port)) == Some(port)
    ensures PortSpec(host + ":" + NatToString(port)) == Some(port)
  {
    var d := NatToString(port);
    NatToStringValue(port);
    assert ':' !in d by { assert forall i :: 0 <= i < |d| ==> IsDigit(d[i]); }
    SplitJoin([d], ':');
    assert Join([d], ':') == d;
    SplitJoin([host, d], ':');
    assert Join([host, d], ':') == host + ":" + d;
  }

  const WinEventLogPrefix := "wineventlog://"

  predicate MatchesMonitor(name: string) { IsPrefix("monitor://", name) && |name| > 10 }
  predicate MatchesPort(p: string, name: string) { IsPrefix(p, name) && PortSpec(After(p, name)).Some? }
  predicate MatchesHttp(name: string) { name == "http" || (IsPrefix("http://", name) && |name| > 7) }
  predicate MatchesScript(name: string) { IsPrefix("script://", name) && |name| > 9 }
  /** `^WinEventLog://(.+)$` matched ignoring case. */
  predicate MatchesWinEventLog(name: string) { |name| > 14 && Lower(name[..14]) == WinEventLogPrefix }

  /** What the stanza name of an input says: its kind, source path and port. */
  datatype InputClass = InputClass(kind: InputKind, sourcePath: Option<string>, port: Option<int>)

  /** The first pattern that matches decides, in the order the parser tries them. */
  function ClassifyInput(name: string): (c: InputClass)
    ensures c.kind == Monitor <==> MatchesMonitor(name)
    ensures c.kind == Tcp <==> !MatchesMonitor(name) && MatchesPort("tcp://", name)
    ensures c.kind == Udp <==> !MatchesMonitor(name) && !MatchesPort("tcp://", name) && MatchesPort("udp://", name)
    ensures c.kind == SplunkTcp <==>
              !MatchesMonitor(name) && !MatchesPort("tcp://", name) && !MatchesPort("udp://", name)
              && MatchesPort("splunktcp://", name)
    ensures c.kind == Http <==>
              !MatchesMonitor(name) && !MatchesPort("tcp://", name) && !MatchesPort("udp://", name)
              && !MatchesPort("splunktcp://", name) && MatchesHttp(name)
    ensures c.kind == Script <==>
              !MatchesMonitor(name) && !MatchesPort("tcp://", name) && !MatchesPort("udp://", name)
              && !MatchesPort("splunktcp://", name) && !MatchesHttp(name) && MatchesScript(name)
    ensures c.kind == WinEventLog <==>
              !MatchesMonitor(name) && !MatchesPort("tcp://", name) && !MatchesPort("udp://", name)
              && !MatchesPort("splunktcp://", name) && !MatchesHttp(name) && !MatchesScript(name)
              && MatchesWinEventLog(name)
    ensures c.kind == Modular <==>
              !MatchesMonitor(name) && !MatchesPort("tcp://", name) && !MatchesPort("udp://", name)
              && !MatchesPort("splunktcp://", name) && !MatchesHttp(name) && !MatchesScript(name)
              && !MatchesWinEventLog(name)
    ensures c.port.Some? <==> c.kind.IsNetwork()
    ensures c.port.Some? ==> c.port.value >= 0
    ensures c.sourcePath.Some? <==> c.kind in {Monitor, Script, WinEventLog} || (c.kind == Http && name != "http")
    ensures c.kind == Monitor ==> c.sourcePath == Some(After("monitor://", name))
    ensures c.kind == Script ==> c.sourcePath == Some(After("script://", name))
    ensures c.kind == Http && name != "http" ==> c.sourcePath == Some(After("http://", name))
    ensures c.kind == WinEventLog ==> c.sourcePath == Some(name[14..])
    ensures c.kind == Tcp ==> PortSpec(After("tcp://", name)).Some? && c.port == Some(PortSpec(After("tcp://", name)).value as int)
    ensures c.kind == Udp ==> PortSpec(After("udp://", name)).Some? && c.port == Some(PortSpec(After("udp://", name)).value as int)
    ensures c.kind == SplunkTcp ==> PortSpec(After("splunktcp://", name)).Some? && c.port == Some(PortSpec(After("splunktcp://", name)).value as int)
  {
    if MatchesMonitor(name) then InputClass(Monitor, Some(After("monitor://", name)), None)
    else if MatchesPort("tcp://", name) then InputClass(Tcp, None, Some(PortSpec(After("tcp://", name)).value))
    else if MatchesPort("udp://", name) then InputClass(Udp, None, Some(PortSpec(After("udp://", name)).value))
    else if MatchesPort("splunktcp://", name) then
      InputClass(SplunkTcp, None, Some(PortSpec(After("splunktcp://", name)).value))
    else if MatchesHttp(name) then
      InputClass(Http, if name == "http" then None else Some(After("http://", name)), None)
    else if MatchesScript(name) then InputClass(Script, Some(After("script://", name)), None)
    else if MatchesWinEventLog(name) then InputClass(WinEventLog, Some(name[14..]), None)
    else InputClass(Modular, None, None)
  }

  datatype InputStanza = InputStanza(
    name: string, kind: InputKind, sourcePath: Option<string>, port: Option<int>,
    sourcetype: Option<string>, index: Option<string>, host: Option<string>,
    disabled: bool, options: Dict<string>, provenance: Provenance)

  predicate InputOptionKey(k: string) { k !in {"sourcetype", "index", "host", "disabled"} }

  /** `disabled` as the parser reads it: absent means enabled. */
  predicate IsDisabled(values: Dict<string>) {
    ParseBool(GetOr(values, "disabled", "false"))
  }

  function ExtractInput(name: string, st: Stanza): (i: InputStanza)
    ensures InputClass(i.kind, i.sourcePath, i.port) == ClassifyInput(name)
    ensures i.sourcetype == Get(st.values, "sourcetype") && i.index == Get(st.values, "index")
            && i.host == Get(st.values, "host")
    ensures i.disabled <==> Get(st.values, "disabled").Some? && ParseBool(Get(st.values, "disabled").value)
    ensures forall k :: Get(i.options, k) == if InputOptionKey(k) then Get(st.values, k) else None
  {
    var c := ClassifyInput(name);
    InputStanza(name, c.kind, c.sourcePath, c.port,
                Get(st.values, "sourcetype"), Get(st.values, "index"), Get(st.values, "host"),
                IsDisabled(st.values), Restrict(st.values, InputOptionKey), ProvenanceOf(st))
  }

  /** `parse_inputs_conf`: one input per merged stanza, in stanza order. */
  function ParseInputsConf(merged: Merged): (inputs: seq<InputStanza>)
    ensures |inputs| == |merged|
    ensures forall i :: 0 <= i < |merged| ==> inputs[i].name == merged[i].0
    ensures forall i :: 0 <= i < |merged| ==> inputs[i] == ExtractInput(merged[i].0, merged[i].1)
  {
    seq(|merged|, i requires 0 <= i < |merged| => ExtractInput(merged[i].0, merged[i].1))
  }

  /** A network stanza name carrying a port classifies as that kind with that port. */
  lemma ClassifyPortStanza(p: string, kind: InputKind, n: string)
    requires (p, kind) in {("tcp://", Tcp), ("udp://", Udp), ("splunktcp://", SplunkTcp)}
    requires IsPrefix(p, n) && PortSpec(After(p, n)).Some?
    ensures ClassifyInput(n) == InputClass(kind, None, Some(PortSpec(After(p, n)).value))
  {
    assert n[..|p|] == p;
    assert n[0] == p[0] && n[1] == p[1];
    assert !MatchesMonitor(n) && !MatchesScript(n) && !MatchesHttp(n);
    if |n| > 14 {
      assert Lower(n[..14])[1] == LowerChar(n[..14][1]);
      assert !MatchesWinEventLog(n);
    }
    if p != "tcp://" {
      assert !IsPrefix("tcp://", n);
    }
    if p == "splunktcp://" {
      assert !IsPrefix("udp://", n);
    }
  }

  /** A network stanza name written as `<kind>://[host:]<port>` classifies back to its kind and port. */
  lemma PortStanzaRoundTrip(p: string, kind: InputKind, host: string, port: nat)
    requires (p, kind) in {("tcp://", Tcp), ("udp://", Udp), ("splunktcp://", SplunkTcp)}
    requires ':' !in host
    ensures ClassifyInput(p + NatToString(port)) == InputClass(kind, None, Some(port))
    ensures ClassifyInput(p + host + ":" + NatToString(port)) == InputClass(kind, None, Some(port))
  {
    PortSpecOf(host, port);
    PortStanzaWith(p, kind, NatToString(port), port);
    HostedPortStanza(p, kind, host, NatToString(port), port);
  }

  lemma HostedPortStanza(p: string, kind: InputKind, host: string, d: string, port: nat)
    requires (p, kind) in {("tcp://", Tcp), ("udp://", Udp), ("splunktcp://", SplunkTcp)}
    requires PortSpec(host + ":" + d) == Some(port)
    ensures ClassifyInput(p + host + ":" + d) == InputClass(kind, None, Some(port))
  {
    PortStanzaWith(p, kind, host + ":" + d, port);
    assert p + (host + ":" + d) == p + host + ":" + d;
  }

  lemma PortStanzaWith(p: string, kind: InputKind, spec: string, port: nat)
    requires (p, kind) in {("tcp://", Tcp), ("udp://", Udp), ("splunktcp://", SplunkTcp)}
    requires PortSpec(spec) == Some(port)
    ensures ClassifyInput(p + spec) == InputClass(kind, None, Some(port))
  {
    assert After(p, p + spec) == spec;
    ClassifyPortStanza(p, kind, p + spec);
  }

  /** A monitored path or script written after its scheme classifies back to it. */
  lemma PathStanzaRoundTrip(path: string)
    requires path != ""
    ensures ClassifyInput("monitor://" + path) == InputClass(Monitor, Some(path), None)
    ensures ClassifyInput("script://" + path) == InputClass(Script, Some(path), None)
    ensures ClassifyInput("http://" + path) == InputClass(Http, Some(path), None)
  {
    var m, sc, h := "monitor://" + path, "script://" + path, "http://" + path;
    assert After("monitor://", m) == path && After("script://", sc) == path && After("http://", h) == path;
    assert sc[0] == 's' && sc[1] == 'c';
    assert h[0] == 'h' && h[1] == 't';
    assert !IsPrefix("tcp://", sc) && !IsPrefix("udp://", sc) && !IsPrefix("splunktcp://", sc);
    assert !IsPrefix("tcp://", h) && !IsPrefix("udp://", h) && !IsPrefix("splunktcp://", h);
    assert !MatchesMonitor(sc) && !MatchesMonitor(h) && !MatchesHttp(sc);
  }

  /** A `WinEventLog://` stanza, with its scheme in any letter case, classifies back to the channel it names. */
  lemma WinEventLogStanzaRoundTrip(scheme: string, channel: string)
    requires |scheme| == 14 && Lower(scheme) == WinEventLogPrefix && channel != ""
    ensures ClassifyInput(scheme + channel) == InputClass(WinEventLog, Some(channel), None)
  {
    var n := scheme + channel;
    assert n[..14] == scheme && n[14..] == channel;
    assert LowerChar(n[0]) == 'w';
    assert n[0] == 'w' || n[0] == 'W';
    assert !IsPrefix("monitor://", n) && !IsPrefix("tcp://", n) && !IsPrefix("udp://", n);
    assert !IsPrefix("splunktcp://", n) && !IsPrefix("http://", n) && !IsPrefix("script://", n);
    assert n != "http";
  }

  // ---------------------------------------------------------------------------
  // outputs.conf

  /** An `[indexer_discovery:<name>]` stanza, in the form a group references it. */
  datatype DiscoveryDetails = DiscoveryDetails(
    masterUri: Option<string>, pass4SymmKey: Option<string>, sslCertPath: Option<string>,
    sslPassword: Option<string>, sslVerifyServerCert: Option<string>, sourceFile: string)

  /** `a if a is not None else b` */
  function FirstPresent(a: Option<string>, b: Option<string>): (r: Option<string>)
    ensures r == if a.Some? then a else b
  {
    if a.Some? then a else b
  }

  /** Each setting is read under its documented spelling, falling back to the alternative one when absent. */
  function ExtractDiscovery(st: Stanza): (d: DiscoveryDetails)
    ensures var v := st.values;
            && d.masterUri == (if HasKey(v, "master_uri") then Get(v, "master_uri") else Get(v, "masterUri"))
            && d.pass4SymmKey == (if HasKey(v, "pass4SymmKey") then Get(v, "pass4SymmKey") else Get(v, "pass4symmkey"))
            && d.sslCertPath == (if HasKey(v, "sslCertPath") then Get(v, "sslCertPath") else Get(v, "sslcertpath"))
            && d.sslPassword == (if HasKey(v, "sslPassword") then Get(v, "sslPassword") else Get(v, "sslpassword"))
            && d.sslVerifyServerCert == (if HasKey(v, "sslVerifyServerCert") then Get(v, "sslVerifyServerCert")
                                         else Get(v, "sslverifyservercert"))
            && d.sourceFile == st.sourceFile
  {
    var v := st.values;
    DiscoveryDetails(
      FirstPresent(Get(v, "master_uri"), Get(v, "masterUri")),
      FirstPresent(Get(v, "pass4SymmKey"), Get(v, "pass4symmkey")),
      FirstPresent(Get(v, "sslCertPath"), Get(v, "sslcertpath")),
      FirstPresent(Get(v, "sslPassword"), Get(v, "sslpassword")),
      FirstPresent(Get(v, "sslVerifyServerCert"), Get(v, "sslverifyservercert")),
      st.sourceFile)
  }

  const DiscoveryPrefix := "indexer_discovery:"
  const TcpoutPrefix := "tcpout:"
  const ServerPrefix := "tcpout-server://"

  /** `^<p>(.+)$` */
  predicate NamedBy(p: string, name: string) { IsPrefix(p, name) && |name| > |p| }

  /** The map from discovery name to its settings. */
  function DiscoveryMap(merged: Merged): Dict<DiscoveryDetails>
    decreases |merged|
  {
    if merged == [] then []
    else
      var prev := DiscoveryMap(merged[..|merged| - 1]);
      var (name, st) := merged[|merged| - 1];
      if NamedBy(DiscoveryPrefix, name) then Put(prev, After(DiscoveryPrefix, name), ExtractDiscovery(st)) else prev
  }

  /** The settings of a `[tcpout-server://<endpoint>]` stanza: every key not starting with `_source`. */
  predicate ServerSettingKey(k: string) { !IsPrefix("_source", k) }

  function ServerOverrides(merged: Merged): Dict<Dict<string>>
    decreases |merged|
  {
    if merged == [] then []
    else
      var prev := ServerOverrides(merged[..|merged| - 1]);
      var (name, st) := merged[|merged| - 1];
      if NamedBy(ServerPrefix, name) then Put(prev, After(ServerPrefix, name), Restrict(st.values, ServerSettingKey))
      else prev
  }

  /** Reading a merged table with one more stanza appended, whose name is new. */
  lemma MergedSnoc(init: Merged, name: string, st: Stanza, key: string)
    requires !HasKey(init, name)
    ensures HasKey(init + [(name, st)], key) <==> HasKey(init, key) || key == name
    ensures StanzaOf(init + [(name, st)], key) == if key == name then st else StanzaOf(init, key)
  {
    GetSnoc(init, name, st, key);
  }

  lemma MergedInit(merged: Merged)
    requires merged != [] && NoDup(Keys(merged))
    ensures var init := merged[..|merged| - 1];
            merged == init + [merged[|merged| - 1]] && NoDup(Keys(init)) && !HasKey(init, merged[|merged| - 1].0)
  {
    var init := merged[..|merged| - 1];
    assert merged == init + [merged[|merged| - 1]];
    GetSnoc(init, merged[|merged| - 1].0, merged[|merged| - 1].1, "");
    var ks := Keys(merged);
    assert Keys(init) == ks[..|ks| - 1];
  }

  /** `p + x` is named by `p` iff `x` is non-empty, and the name gives back `x`. */
  lemma NamedByPrefix(p: string, x: string, name: string)
    ensures name == p + x ==> (NamedBy(p, name) <==> x != "") && (NamedBy(p, name) ==> After(p, name) == x)
    ensures NamedBy(p, name) && After(p, name) == x ==> name == p + x
  {
    if name == p + x { assert name[..|p|] == p && name[|p|..] == x; }
    if NamedBy(p, name) { assert name == name[..|p|] + name[|p|..]; }
  }

  /**
   * Discovery name `n` is mapped iff the table has a stanza `indexer_discovery:<n>` with `n` non-empty,
   * and it is mapped to that stanza's settings.
   */
  lemma {:induction false} DiscoveryMapLookup(merged: Merged, n: string)
    requires NoDup(Keys(merged))
    ensures Get(DiscoveryMap(merged), n)
            == if n != "" && HasKey(merged, DiscoveryPrefix + n)
               then Some(ExtractDiscovery(StanzaOf(merged, DiscoveryPrefix + n))) else None
    decreases |merged|
  {
    if merged != [] {
      MergedInit(merged);
      var init := merged[..|merged| - 1];
      var (name, st) := merged[|merged| - 1];
      DiscoveryMapLookup(init, n);
      MergedSnoc(init, name, st, DiscoveryPrefix + n);
      NamedByPrefix(DiscoveryPrefix, n, name);
      if NamedBy(DiscoveryPrefix, name) {
        GetPut(DiscoveryMap(init), After(DiscoveryPrefix, name), ExtractDiscovery(st), n);
      }
    }
  }

  /**
   * Endpoint `e` has overrides iff the table has a stanza `tcpout-server://<e>` with `e` non-empty,
   * and they are that stanza's settings other than the `_source` metadata.
   */
  lemma {:induction false} ServerOverridesLookup(merged: Merged, e: string)
    requires NoDup(Keys(merged))
    ensures Get(ServerOverrides(merged), e)
            == if e != "" && HasKey(merged, ServerPrefix + e)
               then Some(Restrict(StanzaOf(merged, ServerPrefix + e).values, ServerSettingKey)) else None
    decreases |merged|
  {
    if merged != [] {
      MergedInit(merged);
      var init := merged[..|merged| - 1];
      var (name, st) := merged[|merged| - 1];
      ServerOverridesLookup(init, e);
      MergedSnoc(init, name, st, ServerPrefix + e);
      NamedByPrefix(ServerPrefix, e, name);
      if NamedBy(ServerPrefix, name) {
        GetPut(ServerOverrides(init), After(ServerPrefix, name), Restrict(st.values, ServerSettingKey), e);
      }
    }
  }

  datatype OutputGroup = OutputGroup(
    name: string, servers: seq<string>, defaultGroup: bool,
    sslEnabled: Option<bool>, sslCertPath: Option<string>,
    compressed: Option<bool>, useAck: Option<bool>, indexerDiscovery: Option<string>,
    options: Dict<string>, discoveryDetails: Option<DiscoveryDetails>,
    perServerOptions: Dict<Dict<string>>, provenance: Provenance)

  /**
   * TLS for a group: certificates configured mean on; otherwise `useSSL` decides;
   * with neither the setting is unknown.
   */
  function SslEnabled(certPath: Option<string>, clientCert: Option<string>, rootCa: Option<string>,
                      useSsl: Option<string>): (r: Option<bool>)
    ensures r == Some(true) <==> Truthy(certPath) || Truthy(clientCert) || Truthy(rootCa) || (useSsl.Some? && ParseBool(useSsl.value))
    ensures r == Some(false) <==> !Truthy(certPath) && !Truthy(clientCert) && !Truthy(rootCa) && useSsl.Some? && !ParseBool(useSsl.value)
    ensures r == None <==> !Truthy(certPath) && !Truthy(clientCert) && !Truthy(rootCa) && useSsl.None?
  {
    if Truthy(certPath) || Truthy(clientCert) || Truthy(rootCa) then Some(true)
    else TriBool(useSsl)
  }

  predicate OutputOptionKey(k: string) {
    k !in {"server", "sslCertPath", "clientCert", "sslRootCAPath", "useSSL", "compressed", "useACK", "indexerDiscovery"}
  }

  /** `[tcpout] defaultGroup`, if set. */
  function DefaultGroupName(merged: Merged): Option<string> {
    if HasKey(merged, "tcpout") then Get(StanzaOf(merged, "tcpout").values, "defaultGroup") else None
  }

  /** One `[tcpout:<name>]` group, before per-server overrides are attached. */
  function ExtractOutputGroup(name: string, st: Stanza, defaultName: Option<string>,
                              discovery: Dict<DiscoveryDetails>): (g: OutputGroup)
    ensures g.defaultGroup <==> defaultName == Some(name)
    ensures forall i :: 0 <= i < |g.servers| ==> IsItem(g.servers[i], ',')
    ensures g.name == name && g.servers == SplitItems(GetOr(st.values, "server", ""), ',')
    ensures g.sslEnabled == SslEnabled(Get(st.values, "sslCertPath"), Get(st.values, "clientCert"),
                                       Get(st.values, "sslRootCAPath"), Get(st.values, "useSSL"))
    ensures g.sslCertPath == Get(st.values, "sslCertPath")
    ensures g.compressed == TriBool(Get(st.values, "compressed")) && g.useAck == TriBool(Get(st.values, "useACK"))
    ensures g.indexerDiscovery == Get(st.values, "indexerDiscovery") && g.perServerOptions == []
    ensures g.discoveryDetails.Some? <==> Truthy(g.indexerDiscovery) && HasKey(discovery, g.indexerDiscovery.value)
    ensures g.discoveryDetails.Some? ==> g.discoveryDetails == Get(discovery, g.indexerDiscovery.value)
    ensures forall k :: Get(g.options, k) == if OutputOptionKey(k) then Get(st.values, k) else None
  {
    var v := st.values;
    var discoveryRef := Get(v, "indexerDiscovery");
    OutputGroup(
      name,
      SplitItems(GetOr(v, "server", ""), ','),
      Some(name) == defaultName,
      SslEnabled(Get(v, "sslCertPath"), Get(v, "clientCert"), Get(v, "sslRootCAPath"), Get(v, "useSSL")),
      Get(v, "sslCertPath"),
      TriBool(Get(v, "compressed")),
      TriBool(Get(v, "useACK")),
      discoveryRef,
      Restrict(v, OutputOptionKey),
      if Truthy(discoveryRef) && HasKey(discovery, discoveryRef.value) then Get(discovery, discoveryRef.value) else None,
      [],
      ProvenanceOf(st))
  }

  function TcpoutGroups(merged: Merged, defaultName: Option<string>, discovery: Dict<DiscoveryDetails>): seq<OutputGroup>
    decreases |merged|
  {
    if merged == [] then []
    else
      var prev := TcpoutGroups(merged[..|merged| - 1], defaultName, discovery);
      var (name, st) := merged[|merged| - 1];
      if NamedBy(TcpoutPrefix, name) then prev + [ExtractOutputGroup(After(TcpoutPrefix, name), st, defaultName, discovery)]
      else prev
  }

  /** Groups keep stanza order: the groups of a concatenated table are those of each part. */
  lemma {:induction false} TcpoutGroupsAppend(a: Merged, b: Merged, defaultName: Option<string>,
                                              discovery: Dict<DiscoveryDetails>)
    ensures TcpoutGroups(a + b, defaultName, discovery)
            == TcpoutGroups(a, defaultName, discovery) + TcpoutGroups(b, defaultName, discovery)
    decreases |b|
  {
    if b == [] {
      assert a + b == a;
    } else {
      var ab := a + b;
      assert ab[..|ab| - 1] == a + b[..|b| - 1] && ab[|ab| - 1] == b[|b| - 1];
      TcpoutGroupsAppend(a, b[..|b| - 1], defaultName, discovery);
    }
  }

  /** A single stanza gives one group iff it is named `tcpout:<name>` with a non-empty name. */
  lemma TcpoutGroupsOne(name: string, st: Stanza, defaultName: Option<string>, discovery: Dict<DiscoveryDetails>)
    ensures TcpoutGroups([(name, st)], defaultName, discovery)
            == if NamedBy(TcpoutPrefix, name) then [ExtractOutputGroup(After(TcpoutPrefix, name), st, defaultName, discovery)]
               else []
  {
    assert [(name, st)][..0] == [];
  }

  /** The overrides of the servers a group lists, keyed by server in list order. */
  function PerServerOptions(servers: seq<string>, overrides: Dict<Dict<string>>): Dict<Dict<string>>
    decreases |servers|
  {
    if servers == [] then []
    else
      var prev := PerServerOptions(servers[..|servers| - 1], overrides);
      var server := servers[|servers| - 1];
      if HasKey(overrides, server) then Put(prev, server, Get(overrides, server).value) else prev
  }

  /** Exactly the listed servers that have an override are keyed, each to that override. */
  lemma {:induction false} PerServerOptionsLookup(servers: seq<string>, overrides: Dict<Dict<string>>, s: string)
    ensures Get(PerServerOptions(servers, overrides), s) == if s in servers then Get(overrides, s) else None
    decreases |servers|
  {
    if servers != [] {
      var init := servers[..|servers| - 1];
      var server := servers[|servers| - 1];
      PerServerOptionsLookup(init, overrides, s);
      assert servers == init + [server];
      assert s in servers <==> s in init || s == server;
      if HasKey(overrides, server) {
        GetPut(PerServerOptions(init, overrides), server, Get(overrides, server).value, s);
      }
    }
  }

  function WithOverrides(g: OutputGroup, overrides: Dict<Dict<string>>): OutputGroup {
    g.(perServerOptions := PerServerOptions(g.servers, overrides))
  }

  /** Attaches every group's per-server overrides, as the parser does after building the groups. */
  method AttachServerOverrides(groups: seq<OutputGroup>, overrides: Dict<Dict<string>>) returns (out: seq<OutputGroup>)
    ensures |out| == |groups|
    ensures forall i :: 0 <= i < |groups| ==> out[i] == WithOverrides(groups[i], overrides)
  {
    out := [];
    for i := 0 to |groups|
      invariant |out| == i
      invariant forall j :: 0 <= j < i ==> out[j] == WithOverrides(groups[j], overrides)
    {
      var g := groups[i];
      var perServer: Dict<Dict<string>> := [];
      for j := 0 to |g.servers|
        invariant perServer == PerServerOptions(g.servers[..j], overrides)
      {
        var server := g.servers[j];
        assert g.servers[..j + 1][..j] == g.servers[..j];
        if HasKey(overrides, server) {
          perServer := Put(perServer, server, Get(overrides, server).value);
        }
      }
      assert g.servers[..|g.servers|] == g.servers;
      out := out + [g.(perServerOptions := perServer)];
    }
  }

  function OutputsOf(merged: Merged): (outs: seq<OutputGroup>) {
    var groups := TcpoutGroups(merged, DefaultGroupName(merged), DiscoveryMap(merged));
    seq(|groups|, i requires 0 <= i < |groups| => WithOverrides(groups[i], ServerOverrides(merged)))
  }

  /**
   * The i-th parsed group is the i-th `tcpout:` group with everything but its per-server options kept,
   * and those options key exactly its listed servers that have overrides.
   */
  lemma OutputGroupAt(merged: Merged, i: int)
    requires 0 <= i < |TcpoutGroups(merged, DefaultGroupName(merged), DiscoveryMap(merged))|
    ensures var g := TcpoutGroups(merged, DefaultGroupName(merged), DiscoveryMap(merged));
            && |OutputsOf(merged)| == |g|
            && OutputsOf(merged)[i].(perServerOptions := g[i].perServerOptions) == g[i]
            && forall s :: Get(OutputsOf(merged)[i].perServerOptions, s)
                           == if s in g[i].servers then Get(ServerOverrides(merged), s) else None
  {
    var g := TcpoutGroups(merged, DefaultGroupName(merged), DiscoveryMap(merged));
    forall s ensures Get(OutputsOf(merged)[i].perServerOptions, s)
                     == if s in g[i].servers then Get(ServerOverrides(merged), s) else None {
      PerServerOptionsLookup(g[i].servers, ServerOverrides(merged), s);
    }
  }

  /** `parse_outputs_conf` */
  method ParseOutputsConf(merged: Merged) returns (outs: seq<OutputGroup>)
    ensures outs == OutputsOf(merged)
  {
    var groups := TcpoutGroups(merged, DefaultGroupName(merged), DiscoveryMap(merged));
    outs := AttachServerOverrides(groups, ServerOverrides(merged));
  }

  /** A server list written as a comma-separated list of clean names reads back as that list. */
  lemma ServerListRoundTrip(servers: seq<string>)
    requires |servers| > 0
    requires forall i :: 0 <= i < |servers| ==> IsItem(servers[i], ',')
    ensures SplitItems(Join(servers, ','), ',') == servers
  {
    SplitJoin(servers, ',');
    StripNonEmptyOfItems(servers);
  }

  lemma {:induction false} StripNonEmptyOfItems(xs: seq<string>)
    requires forall i :: 0 <= i < |xs| ==> IsItem(xs[i], ',')
    ensures forall i :: 0 <= i < |xs| ==> ',' !in xs[i]
    ensures StripNonEmpty(xs, ',') == xs
  {
    assert forall i :: 0 <= i < |xs| ==> ',' !in xs[i] by {
      forall i | 0 <= i < |xs| ensures ',' !in xs[i] { assert IsItem(xs[i], ','); }
    }
    if xs != [] {
      assert IsItem(xs[0], ',');
      assert Strip(xs[0]) == xs[0];
      StripNonEmptyOfItems(xs[1..]);
      assert xs == [xs[0]] + xs[1..];
    }
  }

  // ---------------------------------------------------------------------------
  // props.conf

  datatype PropsKind = DefaultStanza | SourcetypeStanza | SourceStanza | HostStanza {
    function Name(): string {
      match this
      case DefaultStanza => "default"
      case SourcetypeStanza => "sourcetype"
      case SourceStanza => "source"
      case HostStanza => "host"
    }
  }

  /** What a props stanza name says: which events it applies to. */
  function ClassifyProps(name: string): (r: (PropsKind, string))
    ensures r.0 == DefaultStanza <==> name == "default"
    ensures r.0 == SourceStanza <==> NamedBy("source::", name)
    ensures r.0 == HostStanza <==> NamedBy("host::", name)
    ensures r.0 == SourcetypeStanza && !NamedBy("sourcetype::", name) ==> r.1 == name
    ensures r.0 != DefaultStanza ==> r.1 != "" || name == ""
  {
    if name == "default" then (DefaultStanza, "default")
    else if NamedBy("sourcetype::", name) then
      assert name[6] == 't' && name[0] == 's';
      (SourcetypeStanza, After("sourcetype::", name))
    else if NamedBy("source::", name) then
      assert name[0] == 's';
      (SourceStanza, After("source::", name))
    else if NamedBy("host::", name) then
      assert name[0] == 'h';
      (HostStanza, After("host::", name))
    else (SourcetypeStanza, name)
  }

  /** A stanza name built from a kind prefix and a value classifies back to both. */
  lemma PropsStanzaRoundTrip(v: string)
    requires v != ""
    ensures ClassifyProps("sourcetype::" + v) == (SourcetypeStanza, v)
    ensures ClassifyProps("source::" + v) == (SourceStanza, v)
    ensures ClassifyProps("host::" + v) == (HostStanza, v)
  {
    assert After("sourcetype::", "sourcetype::" + v) == v;
    assert After("source::", "source::" + v) == v;
    assert After("host::", "host::" + v) == v;
    assert ("source::" + v)[6] == ':';
    assert ("host::" + v)[0] == 'h';
  }

  /** `^TRANSFORMS-(.+)$` matched ignoring case. */
  predicate TransformsKey(k: string) {
    |k| > 11 && Lower(k[..11]) == "transforms-"
  }

  /** The transform names a props stanza references, in key order, with no de-duplication. */
  function TransformRefs(values: Dict<string>): (refs: seq<string>)
    ensures forall i :: 0 <= i < |refs| ==> IsItem(refs[i], ',')
    decreases |values|
  {
    if values == [] then []
    else TransformRefs(values[..|values| - 1]) + KeyRefs(values[|values| - 1])
  }

  /** The references one `TRANSFORMS-<class> = a, b` entry contributes. */
  function KeyRefs(entry: (string, string)): (refs: seq<string>)
    ensures forall i :: 0 <= i < |refs| ==> IsItem(refs[i], ',')
    ensures !TransformsKey(entry.0) ==> refs == []
    ensures TransformsKey(entry.0) ==> refs == SplitItems(entry.1, ',')
  {
    if TransformsKey(entry.0) then SplitItems(entry.1, ',') else []
  }

  /** References from two runs of keys come out in order, one run after the other. */
  lemma {:induction false} TransformRefsAppend(a: Dict<string>, b: Dict<string>)
    ensures TransformRefs(a + b) == TransformRefs(a) + TransformRefs(b)
    decreases |b|
  {
    if b == [] {
      assert a + b == a;
    } else {
      var b', last := b[..|b| - 1], b[|b| - 1];
      assert b == b' + [last];
      TransformRefsAppend(a, b');
      TransformRefsSnocAfter(a, b', last);
      TransformRefsSnoc(b', last);
      ConcatAssoc(TransformRefs(a), TransformRefs(b'), KeyRefs(last));
    }
  }

  lemma TransformRefsSnocAfter(a: Dict<string>, b: Dict<string>, entry: (string, string))
    ensures TransformRefs(a + (b + [entry])) == TransformRefs(a + b) + KeyRefs(entry)
  {
    assert a + (b + [entry]) == (a + b) + [entry];
    TransformRefsSnoc(a + b, entry);
  }

  lemma TransformRefsSnoc(values: Dict<string>, entry: (string, string))
    ensures TransformRefs(values + [entry]) == TransformRefs(values) + KeyRefs(entry)
  {
    assert (values + [entry])[..|values|] == values;
  }

  /** Two keys naming the same transform yield it twice. */
  lemma TransformRefsKeepDuplicates(k1: string, k2: string, t: string)
    requires TransformsKey(k1) && TransformsKey(k2) && IsItem(t, ',')
    ensures TransformRefs([(k1, t), (k2, t)]) == [t, t]
  {
    SplitJoin([t], ',');
    assert Join([t], ',') == t;
    StripNonEmptyOfItems([t]);
    assert SplitItems(t, ',') == [t];
    var d := [(k1, t), (k2, t)];
    assert d[..1] == [(k1, t)];
    assert [(k1, t)][..0] == [];
    assert TransformRefs([(k1, t)]) == [t];
  }

  datatype PropsStanza = PropsStanza(
    name: string, kind: PropsKind, value: string, transforms: seq<string>,
    lineBreaker: Option<string>, timeFormat: Option<string>, truncate: Option<int>,
    options: Dict<string>, provenance: Provenance)

  predicate PropsOptionKey(k: string) {
    k !in {"LINE_BREAKER", "TIME_FORMAT", "TRUNCATE"} && !TransformsKey(k)
  }

  /** `TRUNCATE` read with `int(...)`; unparsable or absent gives nothing. */
  function Truncate(values: Dict<string>): (r: Option<int>)
    ensures Get(values, "TRUNCATE").None? ==> r.None?
    ensures forall n: int :: Get(values, "TRUNCATE") == Some(IntToString(n)) ==> r == Some(n)
    ensures r.Some? ==> Get(values, "TRUNCATE").Some? && IntText(Get(values, "TRUNCATE").value)
  {
    forall n: int | Get(values, "TRUNCATE") == Some(IntToString(n)) ensures ParseInt(IntToString(n)) == Some(n) {
      IntToStringParses(n);
    }
    match Get(values, "TRUNCATE")
    case None => None
    case Some(t) => ParseIntRejects(t); ParseInt(t)
  }

  function ExtractProps(name: string, st: Stanza): (p: PropsStanza)
    ensures p.name == name && (p.kind, p.value) == ClassifyProps(name)
    ensures p.transforms == TransformRefs(st.values) && p.truncate == Truncate(st.values)
    ensures p.lineBreaker == Get(st.values, "LINE_BREAKER") && p.timeFormat == Get(st.values, "TIME_FORMAT")
    ensures forall k :: Get(p.options, k) == if PropsOptionKey(k) then Get(st.values, k) else None
  {
    var (kind, value) := ClassifyProps(name);
    PropsStanza(name, kind, value, TransformRefs(st.values),
                Get(st.values, "LINE_BREAKER"), Get(st.values, "TIME_FORMAT"), Truncate(st.values),
                Restrict(st.values, PropsOptionKey), ProvenanceOf(st))
  }

  /** `parse_props_conf`: one props stanza per merged stanza, in stanza order. */
  function ParsePropsConf(merged: Merged): (props: seq<PropsStanza>)
    ensures |props| == |merged|
    ensures forall i :: 0 <= i < |merged| ==> props[i].name == merged[i].0
    ensures forall i :: 0 <= i < |merged| ==> props[i] == ExtractProps(merged[i].0, merged[i].1)
  {
    seq(|merged|, i requires 0 <= i < |merged| => ExtractProps(merged[i].0, merged[i].1))
  }

  // ---------------------------------------------------------------------------
  // transforms.conf

  /** The four kinds of transform the resolver acts on. */
  datatype TransformFlags = TransformFlags(isDrop: bool, isIndexRouting: bool, isSourcetypeRewrite: bool, isHostRewrite: bool) {
    function Count(): nat {
      (if isDrop then 1 else 0) + (if isIndexRouting then 1 else 0)
      + (if isSourcetypeRewrite then 1 else 0) + (if isHostRewrite then 1 else 0)
    }

    predicate AtMostOne() { Count() <= 1 }
  }

  function LowerOf(o: Option<string>): string
    requires o.Some?
  {
    Lower(o.value)
  }

  function ClassifyTransform(destKey: Option<string>, format: Option<string>): (f: TransformFlags)
    ensures f.isDrop <==> Truthy(destKey) && LowerOf(destKey) in {"queue", "_tcp_routing"}
                          && Truthy(format) && LowerOf(format) == "nullqueue"
    ensures f.isIndexRouting <==> Truthy(destKey) && LowerOf(destKey) == "_metadata:index"
    ensures f.isSourcetypeRewrite <==> Truthy(destKey) && LowerOf(destKey) == "_metadata:sourcetype"
    ensures f.isHostRewrite <==> Truthy(destKey) && LowerOf(destKey) == "_metadata:host"
    ensures f.AtMostOne()
  {
    if !Truthy(destKey) then TransformFlags(false, false, false, false)
    else
      var d := Lower(destKey.value);
      if d in {"queue", "_tcp_routing"} && Truthy(format) && Lower(format.value) == "nullqueue" then
        TransformFlags(true, false, false, false)
      else if d == "_metadata:index" then TransformFlags(false, true, false, false)
      else if d == "_metadata:sourcetype" then TransformFlags(false, false, true, false)
      else if d == "_metadata:host" then TransformFlags(false, false, false, true)
      else TransformFlags(false, false, false, false)
  }

  datatype TransformStanza = TransformStanza(
    name: string, regex: Option<string>, format: Option<string>, destKey: Option<string>,
    sourceKey: Option<string>, lookupName: Option<string>, filename: Option<string>,
    flags: TransformFlags, options: Dict<string>, provenance: Provenance)

  predicate TransformOptionKey(k: string) {
    k !in {"REGEX", "FORMAT", "DEST_KEY", "SOURCE_KEY", "lookup_name", "filename"}
  }

  function ExtractTransform(name: string, st: Stanza): (t: TransformStanza)
    ensures t.name == name && t.flags == ClassifyTransform(Get(st.values, "DEST_KEY"), Get(st.values, "FORMAT"))
    ensures t.regex == Get(st.values, "REGEX") && t.format == Get(st.values, "FORMAT")
            && t.destKey == Get(st.values, "DEST_KEY") && t.sourceKey == Get(st.values, "SOURCE_KEY")
    ensures t.lookupName == Get(st.values, "lookup_name") && t.filename == Get(st.values, "filename")
    ensures forall k :: Get(t.options, k) == if TransformOptionKey(k) then Get(st.values, k) else None
  {
    var v := st.values;
    TransformStanza(name, Get(v, "REGEX"), Get(v, "FORMAT"), Get(v, "DEST_KEY"), Get(v, "SOURCE_KEY"),
                    Get(v, "lookup_name"), Get(v, "filename"),
                    ClassifyTransform(Get(v, "DEST_KEY"), Get(v, "FORMAT")),
                    Restrict(v, TransformOptionKey), ProvenanceOf(st))
  }

  /** `parse_transforms_conf`: one transform per merged stanza, in stanza order. */
  function ParseTransformsConf(merged: Merged): (ts: seq<TransformStanza>)
    ensures |ts| == |merged|
    ensures forall i :: 0 <= i < |merged| ==> ts[i].name == merged[i].0
    ensures forall i :: 0 <= i < |merged| ==> ts[i] == ExtractTransform(merged[i].0, merged[i].1)
  {
    seq(|merged|, i requires 0 <= i < |merged| => ExtractTransform(merged[i].0, merged[i].1))
  }
}
