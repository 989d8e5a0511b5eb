/**
 * `parse_splunk_config`: the four merged configurations of one snapshot, the
 * host metadata read beside them and the traceability map from stanza to the
 * files it came from.
 */
module ConfSnapshot {
  import opened Wrappers
  import opened Text
  import opened Order
  import opened Dicts
  import opened ConfLayers
  import opened ConfExtract

  /**
   * An extracted snapshot: the work directory, whether it is present, its files,
   * and the sections each readable file yields (an unreadable file reads as empty).
   */
  datatype Snapshot = Snapshot(workDir: string, present: bool, tree: FileTree, contents: map<string, seq<Section>>)

  function ReadConf(snap: Snapshot, path: string): seq<Section> {
    if path in snap.contents then snap.contents[path] else []
  }

  /** The files in precedence order, each with its sections. */
  function Layers(snap: Snapshot, files: seq<ConfFile>): (ls: seq<LayerFile>)
    ensures |ls| == |files|
    ensures forall i :: 0 <= i < |files| ==> ls[i] == LayerFile(files[i], ReadConf(snap, files[i].path))
  {
    seq(|files|, i requires 0 <= i < |files| => LayerFile(files[i], ReadConf(snap, files[i].path)))
  }

  function ConfLayersOf(snap: Snapshot, confName: string): seq<LayerFile> {
    Layers(snap, PrecedenceOrder(snap.tree, confName))
  }

  function MergedConf(snap: Snapshot, confName: string): Merged {
    MergeFiles(ConfLayersOf(snap, confName))
  }

  // ---------------------------------------------------------------------------
  // Host metadata

  /**
   * The host metadata the parser records. `environment` and `cluster` are read
   * by the resolver's host builder; the parser never sets them.
   */
  datatype HostMetadata = HostMetadata(
    workDirectory: string, jobId: int, hostname: Option<string>,
    apps: Option<seq<string>>, appCount: Option<nat>,
    inputCount: nat, outputCount: nat, propsCount: nat, transformsCount: nat,
    environment: Option<string>, cluster: Option<string>)

  /** The `[general] serverName` a single parsed file sets, if any. */
  function FileServerName(l: LayerFile): Option<string> {
    LastSectionValue(l.sections, "general", "serverName")
  }

  /** The server names set by the `server.conf` files, in precedence order. */
  function ServerNameCandidates(ls: seq<LayerFile>): seq<string>
    decreases |ls|
  {
    if ls == [] then []
    else
      var prev := ServerNameCandidates(ls[..|ls| - 1]);
      match FileServerName(ls[|ls| - 1])
      case Some(n) => prev + [n]
      case None => prev
  }

  /** The last candidate, the one from the highest-precedence file. */
  function LastCandidate(cs: seq<string>): Option<string> {
    if cs == [] then None else Some(cs[|cs| - 1])
  }

  lemma ServerNameNotSensitive()
    ensures !IsSensitive("serverName")
  {
    assert Lower("serverName") == "servername";
  }

  /**
   * The host name taken from the unmerged `server.conf` files is the one the
   * layered merge would give `[general] serverName`.
   */
  lemma {:induction false} HostnameFollowsPrecedence(ls: seq<LayerFile>)
    ensures LastCandidate(ServerNameCandidates(ls)) == StanzaValue(MergeFiles(ls), "general", "serverName")
    decreases |ls|
  {
    MergePrecedence(ls, "general", "serverName");
    ServerNameNotSensitive();
    if ls != [] {
      HostnameFollowsPrecedence(ls[..|ls| - 1]);
      MergePrecedence(ls[..|ls| - 1], "general", "serverName");
    }
  }

  /** `[d.name for d in apps_dir.iterdir() if d.is_dir()]` */
  function DirNames(es: seq<DirEntry>): (names: seq<string>)
    ensures |names| <= |es|
    ensures forall n :: n in names <==> exists e :: e in es && e.isDir && e.name == n
  {
    if es == [] then []
    else
      assert forall e :: e in es <==> e == es[0] || e in es[1..];
      (if es[0].isDir then [es[0].name] else []) + DirNames(es[1..])
  }

  /** The directories keep their listing order: a listing in two parts gives the names of each, one after the other. */
  lemma {:induction false} DirNamesAppend(a: seq<DirEntry>, b: seq<DirEntry>)
    ensures DirNames(a + b) == DirNames(a) + DirNames(b)
    decreases |a|
  {
    if a == [] {
      assert a + b == b;
    } else {
      assert (a + b)[0] == a[0];
      assert (a + b)[1..] == a[1..] + b;
      DirNamesAppend(a[1..], b);
    }
  }

  // ---------------------------------------------------------------------------
  // Traceability

  /** One contribution to the traceability map: a key and the files to add under it. */
  type TraceEntry = (string, seq<string>)

  function InputTrace(inputs: seq<InputStanza>): seq<TraceEntry> {
    seq(|inputs|, i requires 0 <= i < |inputs| => (inputs[i].name, inputs[i].provenance.sourceFiles))
  }

  function OutputTrace(outputs: seq<OutputGroup>): seq<TraceEntry> {
    seq(|outputs|, i requires 0 <= i < |outputs| => (TcpoutPrefix + outputs[i].name, outputs[i].provenance.sourceFiles))
  }

  function PropsTrace(props: seq<PropsStanza>): seq<TraceEntry> {
    seq(|props|, i requires 0 <= i < |props| => (props[i].name, props[i].provenance.sourceFiles))
  }

  function TransformTrace(ts: seq<TransformStanza>): seq<TraceEntry> {
    seq(|ts|, i requires 0 <= i < |ts| => (ts[i].name, ts[i].provenance.sourceFiles))
  }

  /** The contributions in the order the parser makes them: inputs, outputs, props, transforms. */
  function TraceEntries(inputs: seq<InputStanza>, outputs: seq<OutputGroup>, props: seq<PropsStanza>,
                        ts: seq<TransformStanza>): seq<TraceEntry> {
    InputTrace(inputs) + OutputTrace(outputs) + PropsTrace(props) + TransformTrace(ts)
  }

  /** `traceability.setdefault(key, []).extend(files)` for every entry in turn. */
  function Traceability(es: seq<TraceEntry>): Dict<seq<string>>
    decreases |es|
  {
    if es == [] then []
    else Extend(Traceability(es[..|es| - 1]), es[|es| - 1].0, es[|es| - 1].1)
  }

  function TraceKeys(es: seq<TraceEntry>): (ks: seq<string>)
    ensures |ks| == |es| && forall i :: 0 <= i < |es| ==> ks[i] == es[i].0
  {
    seq(|es|, i requires 0 <= i < |es| => es[i].0)
  }

  /** All files contributed under key `k`, in contribution order. */
  function TracedFiles(es: seq<TraceEntry>, k: string): seq<string>
    decreases |es|
  {
    if es == [] then []
    else TracedFiles(es[..|es| - 1], k) + (if es[|es| - 1].0 == k then es[|es| - 1].1 else [])
  }

  lemma {:induction false} TracedFilesOfAbsentKey(es: seq<TraceEntry>, k: string)
    requires k !in TraceKeys(es)
    ensures TracedFiles(es, k) == []
    decreases |es|
  {
    if es != [] {
      var init := es[..|es| - 1];
      assert TraceKeys(init) == TraceKeys(es)[..|es| - 1];
      TracedFilesOfAbsentKey(init, k);
    }
  }

  /** Every key ever contributed maps to the concatenation of all its contributions; nothing else is in the map. */
  lemma {:induction false} TraceabilityLookup(es: seq<TraceEntry>, k: string)
    ensures Get(Traceability(es), k) == if k in TraceKeys(es) then Some(TracedFiles(es, k)) else None
    decreases |es|
  {
    if es != [] {
      var init := es[..|es| - 1];
      var last := es[|es| - 1];
      TraceabilityLookup(init, k);
      KeysOfSnoc(es);
      LookupStep(Traceability(init), init, last, k);
      assert Traceability(es) == Extend(Traceability(init), last.0, last.1);
      assert TracedFiles(es, k) == TracedFiles(init, k) + (if last.0 == k then last.1 else []);
    }
  }

  lemma LookupStep(t: Dict<seq<string>>, init: seq<TraceEntry>, last: TraceEntry, k: string)
    requires Get(t, k) == if k in TraceKeys(init) then Some(TracedFiles(init, k)) else None
    ensures Get(Extend(t, last.0, last.1), k)
         == if k in TraceKeys(init) || k == last.0 then Some(TracedFiles(init, k) + (if last.0 == k then last.1 else []))
            else None
  {
    var r := Extend(t, last.0, last.1);
    if k == last.0 {
      assert Get(r, k) == Some(GetOr(t, k, []) + last.1);
      if k !in TraceKeys(init) {
        TracedFilesOfAbsentKey(init, k);
        assert GetOr(t, k, []) == [];
      } else {
        assert GetOr(t, k, []) == TracedFiles(init, k);
      }
    } else {
      assert Get(r, k) == Get(t, k);
      assert TracedFiles(init, k) + [] == TracedFiles(init, k);
    }
  }

  lemma KeysOfSnoc(es: seq<TraceEntry>)
    requires es != []
    ensures TraceKeys(es) == TraceKeys(es[..|es| - 1]) + [es[|es| - 1].0]
    ensures forall k :: k in TraceKeys(es) <==> k in TraceKeys(es[..|es| - 1]) || k == es[|es| - 1].0
  {
    assert TraceKeys(es) == TraceKeys(es[..|es| - 1]) + [es[|es| - 1].0];
  }

  /** Keys appear in order of their first contribution. */
  lemma {:induction false} TraceabilityKeyOrder(es: seq<TraceEntry>)
    ensures Keys(Traceability(es)) == Dedup(TraceKeys(es))
    decreases |es|
  {
    if es != [] {
      var init := es[..|es| - 1];
      var k' := es[|es| - 1].0;
      TraceabilityKeyOrder(init);
      KeysOfSnoc(es);
      DedupAppend(TraceKeys(init), k');
      TraceabilityLookup(init, k');
    }
  }

  /** Builds the traceability map entry by entry. */
  method BuildTraceability(es: seq<TraceEntry>) returns (trace: Dict<seq<string>>)
    ensures trace == Traceability(es)
  {
    trace := [];
    for i := 0 to |es|
      invariant trace == Traceability(es[..i])
    {
      var (k, files) := es[i];
      assert es[..i + 1][..i] == es[..i];
      trace := Extend(trace, k, files);
    }
    assert es[..|es|] == es;
  }

  // ---------------------------------------------------------------------------
  // The parsed configuration

  datatype ParsedConfig = ParsedConfig(
    inputs: seq<InputStanza>, outputs: seq<OutputGroup>, props: seq<PropsStanza>,
    transforms: seq<TransformStanza>, hostMetadata: HostMetadata, traceability: Dict<seq<string>>)

  datatype ParseError = WorkDirNotFound(path: string)

  function MetadataOf(jobId: int, snap: Snapshot, inputs: seq<InputStanza>, outputs: seq<OutputGroup>,
                      props: seq<PropsStanza>, ts: seq<TransformStanza>): HostMetadata {
    var dirs := if snap.tree.apps.Some? then DirNames(snap.tree.apps.value) else [];
    HostMetadata(
      snap.workDir, jobId, LastCandidate(ServerNameCandidates(ConfLayersOf(snap, "server.conf"))),
      if snap.tree.apps.Some? then Some(SortStrings(dirs)) else None,
      if snap.tree.apps.Some? then Some(|dirs|) else None,
      |inputs|, |outputs|, |props|, |ts|, None, None)
  }

  /** What `parse_splunk_config` returns for a snapshot. */
  function ParsedConfigOf(jobId: int, snap: Snapshot): Result<ParsedConfig, ParseError> {
    if !snap.present then Err(WorkDirNotFound(snap.workDir))
    else
      var inputs := ParseInputsConf(MergedConf(snap, "inputs.conf"));
      var outputs := OutputsOf(MergedConf(snap, "outputs.conf"));
      var props := ParsePropsConf(MergedConf(snap, "props.conf"));
      var ts := ParseTransformsConf(MergedConf(snap, "transforms.conf"));
      Ok(ParsedConfig(inputs, outputs, props, ts, MetadataOf(jobId, snap, inputs, outputs, props, ts),
                      Traceability(TraceEntries(inputs, outputs, props, ts))))
  }

  /**
   * The metadata describes the configuration beside it: one count per extracted
   * list, the apps listing sorted with its size, and the host name that the
   * merge of `server.conf` gives `[general] serverName`.
   */
  lemma ParsedConfigMetadata(jobId: int, snap: Snapshot)
    requires snap.present
    ensures ParsedConfigOf(jobId, snap).Ok?
    ensures var c := ParsedConfigOf(jobId, snap).value;
            var md := c.hostMetadata;
            && md.inputCount == |c.inputs| && md.outputCount == |c.outputs|
            && md.propsCount == |c.props| && md.transformsCount == |c.transforms|
            && md.jobId == jobId && md.workDirectory == snap.workDir
            && (md.apps.Some? <==> snap.tree.apps.Some?)
            && (md.apps.Some? ==> md.appCount == Some(|md.apps.value|) && SortedBy(md.apps.value, Identity)
                                  && multiset(md.apps.value) == multiset(DirNames(snap.tree.apps.value)))
            && md.hostname == StanzaValue(MergedConf(snap, "server.conf"), "general", "serverName")
  {
    HostnameFollowsPrecedence(ConfLayersOf(snap, "server.conf"));
    if snap.tree.apps.Some? {
      var dirs := DirNames(snap.tree.apps.value);
      assert |SortStrings(dirs)| == |multiset(SortStrings(dirs))| == |multiset(dirs)| == |dirs|;
    }
  }

  /** Collects the `[general] serverName` of each `server.conf` file, in precedence order. */
  method CollectServerNames(snap: Snapshot, files: seq<ConfFile>) returns (candidates: seq<string>)
    ensures candidates == ServerNameCandidates(Layers(snap, files))
  {
    candidates := [];
    for i := 0 to |files|
      invariant candidates == ServerNameCandidates(Layers(snap, files[..i]))
    {
      assert Layers(snap, files[..i + 1]) == Layers(snap, files[..i]) + [LayerFile(files[i], ReadConf(snap, files[i].path))];
      var name := LastSectionValue(ReadConf(snap, files[i].path), "general", "serverName");
      if name.Some? {
        candidates := candidates + [name.value];
      }
    }
    assert files[..|files|] == files;
  }

  method ParseConf(snap: Snapshot, confName: string) returns (merged: Merged)
    ensures merged == MergedConf(snap, confName)
  {
    var files := FindConfFiles(snap.tree, confName);
    merged := MergeConfLayers(Layers(snap, files));
  }

  /** The host name: the server name of the last `server.conf` file that sets one. */
  method FindHostname(snap: Snapshot) returns (hostname: Option<string>)
    ensures hostname == LastCandidate(ServerNameCandidates(ConfLayersOf(snap, "server.conf")))
  {
    var serverFiles := FindConfFiles(snap.tree, "server.conf");
    var candidates := CollectServerNames(snap, serverFiles);
    hostname := None;
    if candidates != [] {
      hostname := Some(candidates[|candidates| - 1]);
    }
  }

  method BuildHostMetadata(jobId: int, snap: Snapshot, hostname: Option<string>, inputs: seq<InputStanza>,
                           outputs: seq<OutputGroup>, props: seq<PropsStanza>, ts: seq<TransformStanza>)
      returns (md: HostMetadata)
    requires hostname == LastCandidate(ServerNameCandidates(ConfLayersOf(snap, "server.conf")))
    ensures md == MetadataOf(jobId, snap, inputs, outputs, props, ts)
  {
    var apps: Option<seq<string>> := None;
    var appCount: Option<nat> := None;
    if snap.tree.apps.Some? {
      var found := DirNames(snap.tree.apps.value);
      apps := Some(SortStrings(found));
      appCount := Some(|found|);
    }
    md := HostMetadata(snap.workDir, jobId, hostname, apps, appCount, |inputs|, |outputs|, |props|, |ts|, None, None);
  }

  /** `parse_splunk_config` */
  method ParseSplunkConfig(jobId: int, snap: Snapshot) returns (r: Result<ParsedConfig, ParseError>)
    ensures r == ParsedConfigOf(jobId, snap)
  {
    if !snap.present {
      return Err(WorkDirNotFound(snap.workDir));
    }
    var inputsConf := ParseConf(snap, "inputs.conf");
    var inputs := ParseInputsConf(inputsConf);
    var outputsConf := ParseConf(snap, "outputs.conf");
    var outputs := ParseOutputsConf(outputsConf);
    var propsConf := ParseConf(snap, "props.conf");
    var props := ParsePropsConf(propsConf);
    var transformsConf := ParseConf(snap, "transforms.conf");
    var ts := ParseTransformsConf(transformsConf);

    var hostname := FindHostname(snap);
    var md := BuildHostMetadata(jobId, snap, hostname, inputs, outputs, props, ts);
    var trace := BuildTraceability(TraceEntries(inputs, outputs, props, ts));
    r := Ok(ParsedConfig(inputs, outputs, props, ts, md, trace));
  }
}
