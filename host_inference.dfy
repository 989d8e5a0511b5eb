/**
 * The primary host of a snapshot: its id (the sanitised server name, or a
 * name derived from the job), the roles inferred from what the configuration
 * contains, and its labels and apps.
 */
module HostInference {
  import opened Wrappers
  import opened Text
  import opened Order
  import opened ConfLayers
  import opened ConfExtract
  import opened ConfSnapshot

  datatype Role = UniversalForwarder | HeavyForwarder | Indexer | SearchHead | Unknown {
    function Name(): string {
      match this
      case UniversalForwarder => "universal_forwarder"
      case HeavyForwarder => "heavy_forwarder"
      case Indexer => "indexer"
      case SearchHead => "search_head"
      case Unknown => "unknown"
    }
  }

  datatype Host = Host(id: string, roles: seq<Role>, labels: seq<string>, apps: seq<string>)

  // ---------------------------------------------------------------------------
  // Host id

  /** `[a-zA-Z0-9_-]` */
  predicate IdChar(c: char) {
    'a' <= c <= 'z' || 'A' <= c <= 'Z' || '0' <= c <= '9' || c == '_' || c == '-'
  }

  /** Every character outside `[a-zA-Z0-9_-]` becomes `_`. */
  function Sanitize(s: string): (r: string)
    ensures |r| == |s|
    ensures forall i :: 0 <= i < |s| ==> r[i] == if IdChar(s[i]) then s[i] else '_'
  {
    seq(|s|, i requires 0 <= i < |s| => if IdChar(s[i]) then s[i] else '_')
  }

  /** The name a host gets without a server name: `host_<job id>`. */
  function FallbackHostname(jobId: int): string {
    "host_" + IntToString(jobId)
  }

  /** `extract_hostname` */
  function ExtractHostname(md: HostMetadata): (id: string)
    ensures forall i :: 0 <= i < |id| ==> IdChar(id[i])
    ensures md.hostname.Some? && md.hostname.value != "" ==> |id| == |md.hostname.value|
    ensures md.hostname.Some? && md.hostname.value != "" ==> id == Sanitize(md.hostname.value)
    ensures md.hostname.Some? && md.hostname.value != "" && (forall i :: 0 <= i < |md.hostname.value| ==> IdChar(md.hostname.value[i]))
            ==> id == md.hostname.value
    ensures md.hostname.None? || md.hostname.value == "" ==> id == Sanitize(FallbackHostname(md.jobId))
  {
    var h := md.hostname.GetOr("");
    var chosen := if h == "" then FallbackHostname(md.jobId) else h;
    var r := Sanitize(chosen);
    assert (forall i :: 0 <= i < |chosen| ==> IdChar(chosen[i])) ==> r == chosen;
    r
  }

  /** Sanitising is idempotent, and the fallback name is already clean. */
  lemma SanitizeIdempotent(s: string, jobId: int)
    ensures Sanitize(Sanitize(s)) == Sanitize(s)
    ensures Sanitize(FallbackHostname(jobId)) == FallbackHostname(jobId)
  {
    var f := FallbackHostname(jobId);
    var digits := NatToString(if jobId < 0 then -jobId else jobId);
    assert f == "host_" + (if jobId < 0 then "-" else "") + digits;
    forall i | 0 <= i < |f| ensures IdChar(f[i]) {
      if i >= |f| - |digits| {
        assert f[i] == digits[i - (|f| - |digits|)];
      }
    }
    assert Sanitize(f) == f;
  }

  // ---------------------------------------------------------------------------
  // Roles

  /** What the role rules look at. */
  datatype RoleFacts = RoleFacts(
    hasOutputs: bool, hasProps: bool, hasTransforms: bool,
    hasParsingApps: bool, hasSearchApps: bool,
    hasSplunkTcpInput: bool, hasDataInputs: bool,
    hostname: string, appNames: seq<string>)

  function ContainsAny(s: string, subs: seq<string>): bool {
    exists i :: 0 <= i < |subs| && Contains(s, subs[i])
  }

  function AnyContainsAny(ss: seq<string>, subs: seq<string>): bool {
    exists i :: 0 <= i < |ss| && ContainsAny(ss[i], subs)
  }

  predicate IsDataInputKind(k: InputKind) { k in {Monitor, Tcp, Udp, Script, WinEventLog} }

  function EnabledKinds(inputs: seq<InputStanza>): (ks: seq<InputKind>)
    ensures forall k :: k in ks <==> exists i :: 0 <= i < |inputs| && !inputs[i].disabled && inputs[i].kind == k
  {
    if inputs == [] then []
    else
      var rest := EnabledKinds(inputs[1..]);
      assert forall i :: 0 < i < |inputs| ==> inputs[i] == inputs[1..][i - 1];
      (if inputs[0].disabled then [] else [inputs[0].kind]) + rest
  }

  function LowerAll(ss: seq<string>): (ls: seq<string>)
    ensures |ls| == |ss| && forall i :: 0 <= i < |ss| ==> ls[i] == Lower(ss[i])
  {
    seq(|ss|, i requires 0 <= i < |ss| => Lower(ss[i]))
  }

  function FactsOf(c: ParsedConfig): RoleFacts {
    var appNames := LowerAll(c.hostMetadata.apps.GetOr([]));
    var kinds := EnabledKinds(c.inputs);
    RoleFacts(
      |c.outputs| > 0, |c.props| > 0, |c.transforms| > 0,
      AnyContainsAny(appNames, ["splunk_ta_", "sa-", "ta-"]),
      AnyContainsAny(appNames, ["search"]),
      SplunkTcp in kinds,
      exists k :: k in kinds && IsDataInputKind(k),
      Lower(c.hostMetadata.hostname.GetOr("")),
      appNames)
  }

  /** The roles the configuration-shape rules give, before any name pattern is consulted. */
  function RuleRoles(f: RoleFacts): (roles: seq<Role>)
    ensures NoDup(roles) && Unknown !in roles
    ensures Indexer in roles <==> f.hasSplunkTcpInput && (!f.hasOutputs || (!f.hasParsingApps && !f.hasProps))
    ensures HeavyForwarder in roles <==> f.hasDataInputs && f.hasOutputs && (f.hasParsingApps || f.hasProps || f.hasTransforms)
    ensures UniversalForwarder in roles <==>
              f.hasDataInputs && f.hasOutputs && !f.hasParsingApps && !f.hasProps && !f.hasTransforms
    ensures SearchHead in roles <==> f.hasSearchApps && !f.hasDataInputs
  {
    var idx: seq<Role> := if f.hasSplunkTcpInput && (!f.hasOutputs || (!f.hasParsingApps && !f.hasProps)) then [Indexer] else [];
    var heavy := f.hasDataInputs && f.hasOutputs && (f.hasParsingApps || f.hasProps || f.hasTransforms);
    var hf: seq<Role> := if heavy then [HeavyForwarder] else [];
    var uf: seq<Role> :=
      if f.hasDataInputs && f.hasOutputs && !f.hasParsingApps && !f.hasProps && !f.hasTransforms && !heavy
      then [UniversalForwarder] else [];
    var sh: seq<Role> := if f.hasSearchApps && !f.hasDataInputs then [SearchHead] else [];
    idx + hf + uf + sh
  }

  /** `ROLE_PATTERNS`, in its iteration order. */
  const RolePatterns: seq<(Role, seq<string>)> := [
    (UniversalForwarder, ["splunkforwarder", "uf_", "forwarder"]),
    (HeavyForwarder, ["heavy", "hf_", "Splunk_TA_", "SA-"]),
    (Indexer, ["idx", "indexer", "cluster_master", "cluster_peer"]),
    (SearchHead, ["search", "sh_", "deployer"])
  ]

  /** A role's patterns match the host name or one of the app names. */
  predicate PatternHit(f: RoleFacts, patterns: seq<string>) {
    ContainsAny(f.hostname, patterns) || AnyContainsAny(f.appNames, patterns)
  }

  /** The first role, in pattern order, not yet present and whose patterns match. */
  function PatternRole(f: RoleFacts, roles: seq<Role>, candidates: seq<(Role, seq<string>)>): (r: Option<Role>)
    ensures r.Some? ==> r.value !in roles && exists i :: 0 <= i < |candidates| && candidates[i].0 == r.value
    ensures r.None? <==> forall i :: 0 <= i < |candidates| ==> candidates[i].0 in roles || !PatternHit(f, candidates[i].1)
  {
    if candidates == [] then None
    else
      var (role, patterns) := candidates[0];
      if role !in roles && PatternHit(f, patterns) then Some(role)
      else
        var r := PatternRole(f, roles, candidates[1..]);
        assert forall i :: 0 < i < |candidates| ==> candidates[i] == candidates[1..][i - 1];
        r
  }

  /**
   * The pattern role is the first candidate that is not already a role and
   * whose patterns hit: every candidate before it is a role already or misses.
   */
  lemma {:induction false} PatternRoleFirstHit(f: RoleFacts, roles: seq<Role>, candidates: seq<(Role, seq<string>)>)
    requires PatternRole(f, roles, candidates).Some?
    ensures var r := PatternRole(f, roles, candidates).value;
            exists i :: && 0 <= i < |candidates| && candidates[i].0 == r && PatternHit(f, candidates[i].1)
                        && forall j :: 0 <= j < i ==> candidates[j].0 in roles || !PatternHit(f, candidates[j].1)
    decreases |candidates|
  {
    var r := PatternRole(f, roles, candidates).value;
    var (role, patterns) := candidates[0];
    if role !in roles && PatternHit(f, patterns) {
      assert candidates[0].0 == r && PatternHit(f, candidates[0].1);
    } else {
      PatternRoleFirstHit(f, roles, candidates[1..]);
      var k :| && 0 <= k < |candidates[1..]| && candidates[1..][k].0 == r && PatternHit(f, candidates[1..][k].1)
               && forall j :: 0 <= j < k ==> candidates[1..][j].0 in roles || !PatternHit(f, candidates[1..][j].1);
      assert candidates[k + 1] == candidates[1..][k];
      assert forall j :: 1 <= j < k + 1 ==> candidates[j] == candidates[1..][j - 1];
    }
  }

  /** `infer_host_roles` on the facts it looks at. */
  function InferRoles(f: RoleFacts): (roles: seq<Role>)
    ensures roles != [] && NoDup(roles)
    ensures Unknown in roles <==> roles == [Unknown]
    ensures roles == [Unknown] <==> RuleRoles(f) == [] && PatternRole(f, [], RolePatterns).None?
    ensures |roles| <= |RuleRoles(f)| + 1
    ensures forall r :: r in RuleRoles(f) ==> r in roles
    ensures var extra := PatternRole(f, RuleRoles(f), RolePatterns);
            roles == if RuleRoles(f) == [] && extra.None? then [Unknown]
                     else RuleRoles(f) + (if extra.Some? then [extra.value] else [])
  {
    var rules := RuleRoles(f);
    var extra := PatternRole(f, rules, RolePatterns);
    PatternRoleNotUnknown(f, rules);
    var withPattern := if extra.Some? then rules + [extra.value] else rules;
    assert Unknown !in withPattern;
    assert forall i :: 0 <= i < |rules| ==> withPattern[i] == rules[i];
    if withPattern == [] then [Unknown] else withPattern
  }

  /** No role pattern names `Unknown`. */
  lemma PatternRoleNotUnknown(f: RoleFacts, roles: seq<Role>)
    ensures PatternRole(f, roles, RolePatterns) != Some(Unknown)
  {
    assert forall i :: 0 <= i < |RolePatterns| ==> RolePatterns[i].0 != Unknown;
  }

  function InferHostRoles(c: ParsedConfig): seq<Role> {
    InferRoles(FactsOf(c))
  }

  /**
   * Two heavy-forwarder patterns hold upper-case letters and are searched in
   * lower-cased text, so they never match: only `heavy` and `hf_` can.
   */
  lemma HeavyPatternsThatCanMatch(s: string)
    ensures ContainsAny(Lower(s), RolePatterns[1].1) <==> Contains(Lower(s), "heavy") || Contains(Lower(s), "hf_")
  {
    var ps := RolePatterns[1].1;
    LowerNeverContainsUpper(s, ps[2], 0);
    LowerNeverContainsUpper(s, ps[3], 0);
    if ContainsAny(Lower(s), ps) {
      var i :| 0 <= i < |ps| && Contains(Lower(s), ps[i]);
      assert i < 2;
    }
    if Contains(Lower(s), "heavy") { assert Contains(Lower(s), ps[0]); }
    if Contains(Lower(s), "hf_") { assert Contains(Lower(s), ps[1]); }
  }

  /** A host whose apps and server name are all lower-cased strings never gets a role from `Splunk_TA_` or `SA-`. */
  lemma HeavyForwarderPatternsOnInferredFacts(c: ParsedConfig)
    ensures PatternHit(FactsOf(c), RolePatterns[1].1)
        <==> PatternHit(FactsOf(c), ["heavy", "hf_"])
  {
    var f := FactsOf(c);
    var apps := c.hostMetadata.apps.GetOr([]);
    HeavyPatternsThatCanMatch(c.hostMetadata.hostname.GetOr(""));
    forall i | 0 <= i < |f.appNames|
      ensures ContainsAny(f.appNames[i], RolePatterns[1].1) <==> ContainsAny(f.appNames[i], ["heavy", "hf_"])
    {
      HeavyPatternsThatCanMatch(apps[i]);
      TwoPatterns(f.appNames[i]);
    }
    TwoPatterns(f.hostname);
  }

  lemma TwoPatterns(s: string)
    ensures ContainsAny(s, ["heavy", "hf_"]) <==> Contains(s, "heavy") || Contains(s, "hf_")
  {
    var ps := ["heavy", "hf_"];
    if Contains(s, "heavy") { assert Contains(s, ps[0]); }
    if Contains(s, "hf_") { assert Contains(s, ps[1]); }
  }

  /** `build_host` */
  function BuildHost(c: ParsedConfig): (h: Host)
    ensures forall i :: 0 <= i < |h.id| ==> IdChar(h.id[i])
    ensures h.roles != [] && NoDup(h.roles)
    ensures h.apps == c.hostMetadata.apps.GetOr([])
    ensures c.hostMetadata.environment.None? && c.hostMetadata.cluster.None? ==> h.labels == []
    ensures h.id == ExtractHostname(c.hostMetadata) && h.roles == InferRoles(FactsOf(c))
    ensures var md := c.hostMetadata;
            h.labels == (if Truthy(md.environment) then ["env:" + md.environment.value] else [])
                      + (if Truthy(md.cluster) then ["cluster:" + md.cluster.value] else [])
  {
    var md := c.hostMetadata;
    var env: seq<string> := if Truthy(md.environment) then ["env:" + md.environment.value] else [];
    var cluster: seq<string> := if Truthy(md.cluster) then ["cluster:" + md.cluster.value] else [];
    Host(ExtractHostname(md), InferHostRoles(c), env + cluster, md.apps.GetOr([]))
  }
}
