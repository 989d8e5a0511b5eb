/**
 * The layered configuration merge: which `.conf` files take part, in which
 * order, and how their sections fold into one stanza table in which later
 * layers win, secrets are redacted and every stanza remembers its files.
 *
 * The file system is abstract: a set of existing file paths (relative to the
 * work directory) and the listing of the `apps` directory. A parsed file is
 * its list of sections, each an ordered list of key/value items.
 */
module ConfLayers {
  import opened Wrappers
  import opened Text
  import opened Order
  import opened Dicts

  // ---------------------------------------------------------------------------
  // Redaction

  /** Keys whose values never leave the parser, compared after lower-casing. */
  const SensitiveKeys: set<string> := {"pass4symmkey", "sslpassword", "password", "token", "secret"}

  const Redacted: string := "<REDACTED>"

  predicate IsSensitive(key: string) {
    Lower(key) in SensitiveKeys
  }

  /** The value stored for `key`: the placeholder for a secret, else the value itself. */
  function RedactSensitiveValue(key: string, value: string): (r: string)
    ensures IsSensitive(key) ==> r == Redacted
    ensures !IsSensitive(key) ==> r == value
  {
    if IsSensitive(key) then Redacted else value
  }

  /** Redaction depends on the key only up to case, and applying it twice changes nothing. */
  lemma RedactionCaseInsensitiveAndIdempotent(k1: string, k2: string, v: string)
    requires Lower(k1) == Lower(k2)
    ensures RedactSensitiveValue(k1, v) == RedactSensitiveValue(k2, v)
    ensures RedactSensitiveValue(k1, RedactSensitiveValue(k1, v)) == RedactSensitiveValue(k1, v)
  {
  }

  // ---------------------------------------------------------------------------
  // Layers and file discovery

  datatype Layer = SystemDefault | SystemLocal | AppDefault | AppLocal {
    /** Position in the precedence order, lowest first. */
    function Rank(): nat {
      match this
      case SystemDefault => 0
      case SystemLocal => 1
      case AppDefault => 2
      case AppLocal => 3
    }

    function Name(): string {
      match this
      case SystemDefault => "system/default"
      case SystemLocal => "system/local"
      case AppDefault => "app/default"
      case AppLocal => "app/local"
    }
  }

  /** A configuration file taking part in a merge. `app` is absent for the system layers. */
  datatype ConfFile = ConfFile(path: string, layer: Layer, app: Option<string>)

  datatype DirEntry = DirEntry(name: string, isDir: bool)

  /**
   * The extracted snapshot: the relative paths of the regular files that exist,
   * and the listing of `apps/` (absent when there is no such directory), in the
   * arbitrary order the directory yields it.
   */
  datatype FileTree = FileTree(files: set<string>, apps: Option<seq<DirEntry>>)

  function SystemPath(level: string, confName: string): string {
    "system/" + level + "/" + confName
  }

  function AppPath(app: string, level: string, confName: string): string {
    "apps/" + app + "/" + level + "/" + confName
  }

  function EntryName(e: DirEntry): string { e.name }

  /** `sorted(apps_dir.iterdir())`: siblings compare by name. */
  function SortedEntries(tree: FileTree): (es: seq<DirEntry>)
    ensures tree.apps.Some? ==> multiset(es) == multiset(tree.apps.value)
    ensures SortedBy(es, EntryName)
  {
    match tree.apps
    case None => []
    case Some(entries) => SortBy(entries, EntryName)
  }

  /** The names of the directories among `es`, in the order of `es`. */
  function AppNames(es: seq<DirEntry>): seq<string>
    decreases |es|
  {
    if es == [] then []
    else
      var e := es[|es| - 1];
      AppNames(es[..|es| - 1]) + (if e.isDir then [e.name] else [])
  }

  function SystemFile(tree: FileTree, level: string, layer: Layer, confName: string): seq<ConfFile> {
    var path := SystemPath(level, confName);
    if path in tree.files then [ConfFile(path, layer, None)] else []
  }

  function AppFile(tree: FileTree, app: string, level: string, layer: Layer, confName: string): seq<ConfFile> {
    var path := AppPath(app, level, confName);
    if path in tree.files then [ConfFile(path, layer, Some(app))] else []
  }

  function SystemFiles(tree: FileTree, confName: string): seq<ConfFile> {
    SystemFile(tree, "default", SystemDefault, confName) + SystemFile(tree, "local", SystemLocal, confName)
  }

  /** The files one directory entry contributes while scanning: its default file, then its local file. */
  function EntryFiles(tree: FileTree, e: DirEntry, confName: string): seq<ConfFile> {
    if e.isDir then
      AppFile(tree, e.name, "default", AppDefault, confName) + AppFile(tree, e.name, "local", AppLocal, confName)
    else []
  }

  /** The app files in the order the scan meets them. */
  function ScannedAppFiles(tree: FileTree, es: seq<DirEntry>, confName: string): seq<ConfFile>
    decreases |es|
  {
    if es == [] then []
    else ScannedAppFiles(tree, es[..|es| - 1], confName) + EntryFiles(tree, es[|es| - 1], confName)
  }

  /** One layer of app files, apps in the given order. */
  function AppLayerFiles(tree: FileTree, names: seq<string>, level: string, layer: Layer, confName: string): seq<ConfFile>
    decreases |names|
  {
    if names == [] then []
    else AppLayerFiles(tree, names[..|names| - 1], level, layer, confName) + AppFile(tree, names[|names| - 1], level, layer, confName)
  }

  /** The files of one rank, in their original order. */
  function WithRank(fs: seq<ConfFile>, rank: nat): (r: seq<ConfFile>)
    ensures forall i :: 0 <= i < |r| ==> r[i].layer.Rank() == rank
    decreases |fs|
  {
    if fs == [] then []
    else
      var f := fs[|fs| - 1];
      WithRank(fs[..|fs| - 1], rank) + (if f.layer.Rank() == rank then [f] else [])
  }

  /**
   * `list.sort(key=rank)`, which is stable: every file of rank 0, then of rank 1,
   * and so on, each class in its original order.
   */
  function StableSortByRank(fs: seq<ConfFile>): seq<ConfFile> {
    WithRank(fs, 0) + WithRank(fs, 1) + WithRank(fs, 2) + WithRank(fs, 3)
  }

  lemma {:induction false} WithRankAppend(a: seq<ConfFile>, b: seq<ConfFile>, rank: nat)
    ensures WithRank(a + b, rank) == WithRank(a, rank) + WithRank(b, rank)
    decreases |b|
  {
    if b == [] {
      assert a + b == a;
    } else {
      var b' := b[..|b| - 1];
      assert (a + b)[..|a + b| - 1] == a + b';
      WithRankAppend(a, b', rank);
    }
  }

  lemma {:induction false} WithRankOfRank(fs: seq<ConfFile>, rank: nat)
    requires forall i :: 0 <= i < |fs| ==> fs[i].layer.Rank() == rank
    ensures WithRank(fs, rank) == fs
    decreases |fs|
  {
    if fs != [] {
      WithRankOfRank(fs[..|fs| - 1], rank);
    }
  }

  lemma {:induction false} WithRankOfOtherRank(fs: seq<ConfFile>, rank: nat)
    requires forall i :: 0 <= i < |fs| ==> fs[i].layer.Rank() != rank
    ensures WithRank(fs, rank) == []
    decreases |fs|
  {
    if fs != [] {
      WithRankOfOtherRank(fs[..|fs| - 1], rank);
    }
  }

  lemma {:induction false} StableSortByRankPermutes(fs: seq<ConfFile>)
    ensures multiset(StableSortByRank(fs)) == multiset(fs)
    decreases |fs|
  {
    if fs != [] {
      var init := fs[..|fs| - 1];
      var f := fs[|fs| - 1];
      StableSortByRankPermutes(init);
      var r := f.layer.Rank();
      var e0: seq<ConfFile> := if r == 0 then [f] else [];
      var e1: seq<ConfFile> := if r == 1 then [f] else [];
      var e2: seq<ConfFile> := if r == 2 then [f] else [];
      var e3: seq<ConfFile> := if r == 3 then [f] else [];
      var a0, a1, a2, a3 := WithRank(init, 0), WithRank(init, 1), WithRank(init, 2), WithRank(init, 3);
      assert StableSortByRank(fs) == (a0 + e0) + (a1 + e1) + (a2 + e2) + (a3 + e3);
      MultisetOfBlocks(a0, a1, a2, a3, e0, e1, e2, e3);
      assert multiset(e0) + multiset(e1) + multiset(e2) + multiset(e3) == multiset{f};
      assert fs == init + [f];
    }
  }

  lemma MultisetOfBlocks<T>(a0: seq<T>, a1: seq<T>, a2: seq<T>, a3: seq<T>, e0: seq<T>, e1: seq<T>, e2: seq<T>, e3: seq<T>)
    ensures multiset((a0 + e0) + (a1 + e1) + (a2 + e2) + (a3 + e3))
         == multiset(a0 + a1 + a2 + a3) + (multiset(e0) + multiset(e1) + multiset(e2) + multiset(e3))
  {
  }

  lemma StableSortByRankOrdered(fs: seq<ConfFile>)
    ensures forall i, j :: 0 <= i < j < |StableSortByRank(fs)| ==>
              StableSortByRank(fs)[i].layer.Rank() <= StableSortByRank(fs)[j].layer.Rank()
  {
    var w0, w1, w2, w3 := WithRank(fs, 0), WithRank(fs, 1), WithRank(fs, 2), WithRank(fs, 3);
    var s := StableSortByRank(fs);
    assert s == w0 + w1 + w2 + w3;
    forall i, j | 0 <= i < j < |s| ensures s[i].layer.Rank() <= s[j].layer.Rank() {
      BlockRank(w0, w1, w2, w3, i);
      BlockRank(w0, w1, w2, w3, j);
    }
  }

  lemma StableSortByRankKeepsClass(fs: seq<ConfFile>, rank: nat)
    ensures WithRank(StableSortByRank(fs), rank) == WithRank(fs, rank)
  {
    var w0, w1, w2, w3 := WithRank(fs, 0), WithRank(fs, 1), WithRank(fs, 2), WithRank(fs, 3);
    WithRankOfFour(w0, w1, w2, w3, rank);
    WithRankOfBlock(w0, 0, rank);
    WithRankOfBlock(w1, 1, rank);
    WithRankOfBlock(w2, 2, rank);
    WithRankOfBlock(w3, 3, rank);
    if rank > 3 {
      forall i | 0 <= i < |fs| ensures fs[i].layer.Rank() != rank {}
      WithRankOfOtherRank(fs, rank);
    } else if rank == 0 {
      assert w0 + [] + [] + [] == w0;
    } else if rank == 1 {
      assert [] + w1 + [] + [] == w1;
    } else if rank == 2 {
      assert [] + [] + w2 + [] == w2;
    } else {
      assert [] + [] + [] + w3 == w3;
    }
  }

  lemma WithRankOfFour(w0: seq<ConfFile>, w1: seq<ConfFile>, w2: seq<ConfFile>, w3: seq<ConfFile>, rank: nat)
    ensures WithRank(w0 + w1 + w2 + w3, rank)
         == WithRank(w0, rank) + WithRank(w1, rank) + WithRank(w2, rank) + WithRank(w3, rank)
  {
    WithRankAppend(w0 + w1 + w2, w3, rank);
    WithRankAppend(w0 + w1, w2, rank);
    WithRankAppend(w0, w1, rank);
  }

  /** The stable sort is a permutation, ordered by rank, that keeps each rank class in order. */
  lemma StableSortByRankIsStableSort(fs: seq<ConfFile>)
    ensures multiset(StableSortByRank(fs)) == multiset(fs)
    ensures forall i, j :: 0 <= i < j < |StableSortByRank(fs)| ==>
              StableSortByRank(fs)[i].layer.Rank() <= StableSortByRank(fs)[j].layer.Rank()
    ensures forall rank :: WithRank(StableSortByRank(fs), rank) == WithRank(fs, rank)
  {
    StableSortByRankPermutes(fs);
    StableSortByRankOrdered(fs);
    forall rank ensures WithRank(StableSortByRank(fs), rank) == WithRank(fs, rank) {
      StableSortByRankKeepsClass(fs, rank);
    }
  }

  lemma WithRankOfBlock(w: seq<ConfFile>, r: nat, rank: nat)
    requires forall i :: 0 <= i < |w| ==> w[i].layer.Rank() == r
    ensures WithRank(w, rank) == if r == rank then w else []
  {
    if r == rank { WithRankOfRank(w, rank); } else { WithRankOfOtherRank(w, rank); }
  }

  /** In the concatenation of the four rank classes, position `i` lies in the block of its rank. */
  lemma BlockRank(w0: seq<ConfFile>, w1: seq<ConfFile>, w2: seq<ConfFile>, w3: seq<ConfFile>, i: nat)
    requires forall k :: 0 <= k < |w0| ==> w0[k].layer.Rank() == 0
    requires forall k :: 0 <= k < |w1| ==> w1[k].layer.Rank() == 1
    requires forall k :: 0 <= k < |w2| ==> w2[k].layer.Rank() == 2
    requires forall k :: 0 <= k < |w3| ==> w3[k].layer.Rank() == 3
    requires i < |w0 + w1 + w2 + w3|
    ensures (w0 + w1 + w2 + w3)[i].layer.Rank() == (if i < |w0| then 0 else if i < |w0| + |w1| then 1 else if i < |w0| + |w1| + |w2| then 2 else 3)
  {
    var s := w0 + w1 + w2 + w3;
    if i < |w0| { assert s[i] == w0[i]; }
    else if i < |w0| + |w1| { assert s[i] == w1[i - |w0|]; }
    else if i < |w0| + |w1| + |w2| { assert s[i] == w2[i - |w0| - |w1|]; }
    else { assert s[i] == w3[i - |w0| - |w1| - |w2|]; }
  }

  /** The files in precedence order: both system layers, every app's default file, every app's local file. */
  function PrecedenceOrder(tree: FileTree, confName: string): seq<ConfFile> {
    var names := AppNames(SortedEntries(tree));
    SystemFiles(tree, confName)
    + AppLayerFiles(tree, names, "default", AppDefault, confName)
    + AppLayerFiles(tree, names, "local", AppLocal, confName)
  }

  /** The files of one app layer among `names`; empty for the system ranks. */
  function AppRank(tree: FileTree, names: seq<string>, rank: nat, confName: string): seq<ConfFile> {
    if rank == 2 then AppLayerFiles(tree, names, "default", AppDefault, confName)
    else if rank == 3 then AppLayerFiles(tree, names, "local", AppLocal, confName)
    else []
  }

  lemma EntryRank(tree: FileTree, e: DirEntry, rank: nat, confName: string)
    ensures WithRank(EntryFiles(tree, e, confName), rank)
         == if !e.isDir then [] else AppRank(tree, [e.name], rank, confName)
  {
    if e.isDir {
      var d := AppFile(tree, e.name, "default", AppDefault, confName);
      var l := AppFile(tree, e.name, "local", AppLocal, confName);
      WithRankAppend(d, l, rank);
      WithRankOfBlock(d, 2, rank);
      WithRankOfBlock(l, 3, rank);
      AppRankSnoc(tree, [], e.name, rank, confName);
      assert [] + [e.name] == [e.name];
      if rank == 2 {
        assert WithRank(d + l, rank) == d + [];
      } else if rank == 3 {
        assert WithRank(d + l, rank) == [] + l;
      }
    }
  }

  lemma AppRankSnoc(tree: FileTree, names: seq<string>, n: string, rank: nat, confName: string)
    ensures AppRank(tree, names + [n], rank, confName)
         == AppRank(tree, names, rank, confName) + AppRank(tree, [n], rank, confName)
  {
    var ns := names + [n];
    assert ns[..|ns| - 1] == names && ns[|ns| - 1] == n;
    assert [n][..0] == [];
    forall level: string, layer: Layer
      ensures AppLayerFiles(tree, ns, level, layer, confName)
           == AppLayerFiles(tree, names, level, layer, confName) + AppLayerFiles(tree, [n], level, layer, confName)
    {
      assert AppLayerFiles(tree, [n], level, layer, confName) == [] + AppFile(tree, n, level, layer, confName);
    }
  }

  lemma {:induction false} ScannedLayer(tree: FileTree, es: seq<DirEntry>, rank: nat, confName: string)
    ensures WithRank(ScannedAppFiles(tree, es, confName), rank) == AppRank(tree, AppNames(es), rank, confName)
    decreases |es|
  {
    if es != [] {
      var init := es[..|es| - 1];
      var e := es[|es| - 1];
      ScannedLayer(tree, init, rank, confName);
      WithRankAppend(ScannedAppFiles(tree, init, confName), EntryFiles(tree, e, confName), rank);
      EntryRank(tree, e, rank, confName);
      var names := AppNames(init);
      if e.isDir {
        assert AppNames(es) == names + [e.name];
        AppRankSnoc(tree, names, e.name, rank, confName);
      } else {
        assert AppNames(es) == names + [] == names;
        assert WithRank(ScannedAppFiles(tree, es, confName), rank)
            == WithRank(ScannedAppFiles(tree, init, confName), rank) + [];
      }
    }
  }

  lemma SortedDiscoveryIsPrecedenceOrder(tree: FileTree, es: seq<DirEntry>, confName: string)
    ensures StableSortByRank(SystemFiles(tree, confName) + ScannedAppFiles(tree, es, confName))
         == SystemFiles(tree, confName)
          + AppLayerFiles(tree, AppNames(es), "default", AppDefault, confName)
          + AppLayerFiles(tree, AppNames(es), "local", AppLocal, confName)
  {
    var sys := SystemFiles(tree, confName);
    var apps := ScannedAppFiles(tree, es, confName);
    var names := AppNames(es);
    var sd := SystemFile(tree, "default", SystemDefault, confName);
    var sl := SystemFile(tree, "local", SystemLocal, confName);
    var l2 := AppLayerFiles(tree, names, "default", AppDefault, confName);
    var l3 := AppLayerFiles(tree, names, "local", AppLocal, confName);
    ScannedLayer(tree, es, 0, confName);
    ScannedLayer(tree, es, 1, confName);
    ScannedLayer(tree, es, 2, confName);
    ScannedLayer(tree, es, 3, confName);
    SystemThenApps(tree, apps, 0, confName);
    SystemThenApps(tree, apps, 1, confName);
    SystemThenApps(tree, apps, 2, confName);
    SystemThenApps(tree, apps, 3, confName);
    assert WithRank(sys + apps, 0) == sd + [] == sd;
    assert WithRank(sys + apps, 1) == sl + [] == sl;
    assert WithRank(sys + apps, 2) == [] + l2 == l2;
    assert WithRank(sys + apps, 3) == [] + l3 == l3;
    assert StableSortByRank(sys + apps) == sd + sl + l2 + l3;
  }

  /** Rank by rank, the system files come before the apps' files of that rank. */
  lemma SystemThenApps(tree: FileTree, apps: seq<ConfFile>, rank: nat, confName: string)
    ensures WithRank(SystemFiles(tree, confName) + apps, rank)
         == (if rank == 0 then SystemFile(tree, "default", SystemDefault, confName)
             else if rank == 1 then SystemFile(tree, "local", SystemLocal, confName)
             else []) + WithRank(apps, rank)
  {
    var sd := SystemFile(tree, "default", SystemDefault, confName);
    var sl := SystemFile(tree, "local", SystemLocal, confName);
    assert SystemFiles(tree, confName) == sd + sl;
    WithRankAppend(sd + sl, apps, rank);
    WithRankAppend(sd, sl, rank);
    WithRankOfBlock(sd, 0, rank);
    WithRankOfBlock(sl, 1, rank);
    var head := if rank == 0 then sd else if rank == 1 then sl else [];
    assert WithRank(sd + sl, rank) == head by {
      if rank == 0 {
        assert WithRank(sd + sl, rank) == sd + [];
      } else if rank == 1 {
        assert WithRank(sd + sl, rank) == [] + sl;
      } else {
        assert WithRank(sd + sl, rank) == [] + [];
      }
    }
  }

  /** The system part of the scan: `system/default`, then `system/local`. */
  method ScanSystemLayers(tree: FileTree, confName: string) returns (found: seq<ConfFile>)
    ensures found == SystemFiles(tree, confName)
  {
    found := [];
    var levels := [("default", SystemDefault), ("local", SystemLocal)];
    for i := 0 to |levels|
      invariant found == (if i >= 1 then SystemFile(tree, "default", SystemDefault, confName) else [])
                       + (if i >= 2 then SystemFile(tree, "local", SystemLocal, confName) else [])
    {
      var level := levels[i].0;
      var path := SystemPath(level, confName);
      if path in tree.files {
        found := found + [ConfFile(path, levels[i].1, None)];
      }
    }
  }

  /** What one entry of `apps/` contributes: its default, then its local file, if it is a directory. */
  method ScanAppEntry(tree: FileTree, e: DirEntry, confName: string) returns (found: seq<ConfFile>)
    ensures found == EntryFiles(tree, e, confName)
  {
    found := [];
    if e.isDir {
      var levels := [("default", AppDefault), ("local", AppLocal)];
      for j := 0 to |levels|
        invariant found == (if j >= 1 then AppFile(tree, e.name, "default", AppDefault, confName) else [])
                         + (if j >= 2 then AppFile(tree, e.name, "local", AppLocal, confName) else [])
      {
        var path := AppPath(e.name, levels[j].0, confName);
        if path in tree.files {
          found := found + [ConfFile(path, levels[j].1, Some(e.name))];
        }
      }
    }
  }

  /**
   * `find_conf_files`: the system layers, then each app directory in name order
   * with its default and local file, and finally a stable sort on the layer rank.
   */
  method FindConfFiles(tree: FileTree, confName: string) returns (found: seq<ConfFile>)
    ensures found == PrecedenceOrder(tree, confName)
  {
    found := ScanSystemLayers(tree, confName);
    var entries := SortedEntries(tree);
    for i := 0 to |entries|
      invariant found == SystemFiles(tree, confName) + ScannedAppFiles(tree, entries[..i], confName)
    {
      var prefix := entries[..i + 1];
      assert prefix[..|prefix| - 1] == entries[..i] && prefix[|prefix| - 1] == entries[i];
      var more := ScanAppEntry(tree, entries[i], confName);
      assert ScannedAppFiles(tree, prefix, confName) == ScannedAppFiles(tree, entries[..i], confName) + more;
      ConcatAssoc(SystemFiles(tree, confName), ScannedAppFiles(tree, entries[..i], confName), more);
      found := found + more;
    }
    assert entries[..|entries|] == entries;
    DiscoveryOrder(tree, confName);
    found := StableSortByRank(found);
  }

  lemma DiscoveryOrder(tree: FileTree, confName: string)
    ensures StableSortByRank(SystemFiles(tree, confName) + ScannedAppFiles(tree, SortedEntries(tree), confName))
         == PrecedenceOrder(tree, confName)
  {
    SortedDiscoveryIsPrecedenceOrder(tree, SortedEntries(tree), confName);
  }

  // ---------------------------------------------------------------------------
  // Merging the layers

  /** A section of a parsed file: its name and its key/value items in file order. */
  datatype Section = Section(name: string, items: seq<(string, string)>)

  /** A file taking part in the merge, with the sections read from it (none if it could not be read). */
  datatype LayerFile = LayerFile(file: ConfFile, sections: seq<Section>)

  /**
   * A merged stanza: its (redacted) values, and the files and apps that
   * contributed a section to it, in merge order, with the latest one separately.
   */
  datatype Stanza = Stanza(values: Dict<string>, sourceFiles: seq<string>, sourceApps: seq<Option<string>>,
                           sourceFile: string, sourceApp: Option<string>)

  const NewStanza := Stanza([], [], [], "", None)

  type Merged = Dict<Stanza>

  /** The stanza stored under `name`, or the empty record a new section starts from. */
  function StanzaOf(m: Merged, name: string): Stanza {
    GetOr(m, name, NewStanza)
  }

  function MergeItems(values: Dict<string>, items: seq<(string, string)>): Dict<string>
    decreases |items|
  {
    if items == [] then values
    else
      var (k, v) := items[|items| - 1];
      Put(MergeItems(values, items[..|items| - 1]), k, RedactSensitiveValue(k, v))
  }

  /** One section of file `f` folded into the table. */
  function MergeSection(m: Merged, f: ConfFile, sec: Section): Merged {
    var st := StanzaOf(m, sec.name);
    Put(m, sec.name, Stanza(MergeItems(st.values, sec.items), st.sourceFiles + [f.path],
                            st.sourceApps + [f.app], f.path, f.app))
  }

  function MergeSections(m: Merged, f: ConfFile, secs: seq<Section>): Merged
    decreases |secs|
  {
    if secs == [] then m
    else MergeSection(MergeSections(m, f, secs[..|secs| - 1]), f, secs[|secs| - 1])
  }

  /** The whole merge: the files folded in order, each one's sections in order. */
  function MergeFiles(ls: seq<LayerFile>): Merged
    decreases |ls|
  {
    if ls == [] then []
    else
      var last := ls[|ls| - 1];
      MergeSections(MergeFiles(ls[..|ls| - 1]), last.file, last.sections)
  }

  /** `merge_conf_layers`: files in the given order, later values overwriting earlier ones. */
  method MergeConfLayers(ls: seq<LayerFile>) returns (merged: Merged)
    ensures merged == MergeFiles(ls)
  {
    merged := [];
    for i := 0 to |ls|
      invariant merged == MergeFiles(ls[..i])
    {
      assert ls[..i + 1][..i] == ls[..i];
      merged := MergeFileInto(merged, ls[i].file, ls[i].sections);
    }
    assert ls[..|ls|] == ls;
  }

  /** The sections of one file, in file order. */
  method MergeFileInto(merged: Merged, f: ConfFile, secs: seq<Section>) returns (r: Merged)
    ensures r == MergeSections(merged, f, secs)
  {
    r := merged;
    for j := 0 to |secs|
      invariant r == MergeSections(merged, f, secs[..j])
    {
      assert secs[..j + 1][..j] == secs[..j];
      r := MergeSectionInto(r, f, secs[j]);
    }
    assert secs[..|secs|] == secs;
  }

  /** One `[section]` of a file: its items set one by one, then the file recorded. */
  method MergeSectionInto(merged: Merged, f: ConfFile, sec: Section) returns (r: Merged)
    ensures r == MergeSection(merged, f, sec)
  {
    var stanza := StanzaOf(merged, sec.name);
    var values := MergeItemsInto(stanza.values, sec.items);
    r := Put(merged, sec.name, Stanza(values, stanza.sourceFiles + [f.path], stanza.sourceApps + [f.app], f.path, f.app));
  }

  /** `stanza[key] = redact_sensitive_value(key, value)` for each item in order. */
  method MergeItemsInto(values: Dict<string>, items: seq<(string, string)>) returns (r: Dict<string>)
    ensures r == MergeItems(values, items)
  {
    r := values;
    for k := 0 to |items|
      invariant r == MergeItems(values, items[..k])
    {
      var key, value := items[k].0, items[k].1;
      assert items[..k + 1][..k] == items[..k];
      r := Put(r, key, RedactSensitiveValue(key, value));
    }
    assert items[..|items|] == items;
  }

  // ---------------------------------------------------------------------------
  // Properties of the merge

  function SectionNames(secs: seq<Section>): seq<string>
    decreases |secs|
  {
    if secs == [] then [] else SectionNames(secs[..|secs| - 1]) + [secs[|secs| - 1].name]
  }

  /** Every section name of every file, in merge order (with repetitions). */
  function AllSectionNames(ls: seq<LayerFile>): seq<string>
    decreases |ls|
  {
    if ls == [] then [] else AllSectionNames(ls[..|ls| - 1]) + SectionNames(ls[|ls| - 1].sections)
  }

  lemma {:induction false} KeysMergeSections(m: Merged, f: ConfFile, secs: seq<Section>, prior: seq<string>)
    requires Keys(m) == Dedup(prior)
    ensures Keys(MergeSections(m, f, secs)) == Dedup(prior + SectionNames(secs))
    decreases |secs|
  {
    if secs == [] {
      assert prior + [] == prior;
    } else {
      var init := secs[..|secs| - 1];
      var name := secs[|secs| - 1].name;
      KeysMergeSections(m, f, init, prior);
      var q := prior + SectionNames(init);
      assert prior + SectionNames(secs) == q + [name];
      DedupAppend(q, name);
    }
  }

  /** The merged table has one stanza per distinct section name, in order of first appearance. */
  lemma {:induction false} MergedStanzaOrder(ls: seq<LayerFile>)
    ensures Keys(MergeFiles(ls)) == Dedup(AllSectionNames(ls))
    ensures NoDup(Keys(MergeFiles(ls)))
    decreases |ls|
  {
    if ls != [] {
      var init := ls[..|ls| - 1];
      MergedStanzaOrder(init);
      KeysMergeSections(MergeFiles(init), ls[|ls| - 1].file, ls[|ls| - 1].sections, AllSectionNames(init));
    }
  }

  /** The value the last item setting `k` gives it, searching backwards. */
  function LastItemValue(items: seq<(string, string)>, k: string): Option<string>
    decreases |items|
  {
    if items == [] then None
    else if items[|items| - 1].0 == k then Some(items[|items| - 1].1)
    else LastItemValue(items[..|items| - 1], k)
  }

  /** The value the last section named `s` that sets `k` gives it, searching backwards. */
  function LastSectionValue(secs: seq<Section>, s: string, k: string): Option<string>
    decreases |secs|
  {
    if secs == [] then None
    else
      var sec := secs[|secs| - 1];
      if sec.name == s && LastItemValue(sec.items, k).Some? then LastItemValue(sec.items, k)
      else LastSectionValue(secs[..|secs| - 1], s, k)
  }

  /**
   * The reference definition of precedence: the (redacted) value from the last
   * file, in merge order, that sets `k` in a section named `s`.
   */
  function LastValue(ls: seq<LayerFile>, s: string, k: string): Option<string>
    decreases |ls|
  {
    if ls == [] then None
    else
      match LastSectionValue(ls[|ls| - 1].sections, s, k)
      case Some(v) => Some(RedactSensitiveValue(k, v))
      case None => LastValue(ls[..|ls| - 1], s, k)
  }

  /** `merged[s].get(k)`, absent when there is no stanza `s`. */
  function StanzaValue(m: Merged, s: string, k: string): Option<string> {
    Get(StanzaOf(m, s).values, k)
  }

  lemma {:induction false} GetMergeItems(values: Dict<string>, items: seq<(string, string)>, k: string)
    ensures Get(MergeItems(values, items), k)
         == match LastItemValue(items, k)
            case Some(v) => Some(RedactSensitiveValue(k, v))
            case None => Get(values, k)
    decreases |items|
  {
    if items != [] {
      var (k', v) := items[|items| - 1];
      GetMergeItems(values, items[..|items| - 1], k);
      GetPut(MergeItems(values, items[..|items| - 1]), k', RedactSensitiveValue(k', v), k);
    }
  }

  /** How one section changes the stanza table, seen from stanza `s`. */
  lemma StanzaOfMergeSection(m: Merged, f: ConfFile, sec: Section, s: string)
    ensures StanzaOf(MergeSection(m, f, sec), s)
         == if sec.name == s then
              Stanza(MergeItems(StanzaOf(m, s).values, sec.items), StanzaOf(m, s).sourceFiles + [f.path],
                     StanzaOf(m, s).sourceApps + [f.app], f.path, f.app)
            else StanzaOf(m, s)
    ensures HasKey(MergeSection(m, f, sec), s) <==> HasKey(m, s) || sec.name == s
  {
    var st := StanzaOf(m, sec.name);
    GetPut(m, sec.name, Stanza(MergeItems(st.values, sec.items), st.sourceFiles + [f.path],
                               st.sourceApps + [f.app], f.path, f.app), s);
  }

  lemma {:induction false} StanzaValueMergeSections(m: Merged, f: ConfFile, secs: seq<Section>, s: string, k: string)
    ensures StanzaValue(MergeSections(m, f, secs), s, k)
         == match LastSectionValue(secs, s, k)
            case Some(v) => Some(RedactSensitiveValue(k, v))
            case None => StanzaValue(m, s, k)
    decreases |secs|
  {
    if secs != [] {
      var init := secs[..|secs| - 1];
      var sec := secs[|secs| - 1];
      var m' := MergeSections(m, f, init);
      StanzaValueMergeSections(m, f, init, s, k);
      StanzaOfMergeSection(m', f, sec, s);
      if sec.name == s {
        GetMergeItems(StanzaOf(m', s).values, sec.items, k);
      }
    }
  }

  /**
   * Precedence: for every stanza and key, the merged value is the redacted value
   * from the last file that sets that key in that stanza; a key no later file sets
   * keeps the value an earlier file gave it.
   */
  lemma {:induction false} MergePrecedence(ls: seq<LayerFile>, s: string, k: string)
    ensures StanzaValue(MergeFiles(ls), s, k) == LastValue(ls, s, k)
    decreases |ls|
  {
    if ls != [] {
      var init := ls[..|ls| - 1];
      var last := ls[|ls| - 1];
      MergePrecedence(init, s, k);
      StanzaValueMergeSections(MergeFiles(init), last.file, last.sections, s, k);
    }
  }

  /** No secret survives the merge: a sensitive key only ever holds the placeholder. */
  lemma {:induction false} MergeRedactsSecrets(ls: seq<LayerFile>, s: string, k: string)
    requires IsSensitive(k)
    ensures StanzaValue(MergeFiles(ls), s, k) == None || StanzaValue(MergeFiles(ls), s, k) == Some(Redacted)
    decreases |ls|
  {
    MergePrecedence(ls, s, k);
    if ls != [] {
      MergeRedactsSecrets(ls[..|ls| - 1], s, k);
      MergePrecedence(ls[..|ls| - 1], s, k);
    }
  }

  /** The files in which a section named `s` appears, once per appearance, in merge order. */
  function SectionHits(f: ConfFile, secs: seq<Section>, s: string): seq<ConfFile>
    decreases |secs|
  {
    if secs == [] then []
    else SectionHits(f, secs[..|secs| - 1], s) + (if secs[|secs| - 1].name == s then [f] else [])
  }

  function Contributors(ls: seq<LayerFile>, s: string): seq<ConfFile>
    decreases |ls|
  {
    if ls == [] then []
    else Contributors(ls[..|ls| - 1], s) + SectionHits(ls[|ls| - 1].file, ls[|ls| - 1].sections, s)
  }

  function Paths(cs: seq<ConfFile>): (ps: seq<string>)
    ensures |ps| == |cs| && forall i :: 0 <= i < |cs| ==> ps[i] == cs[i].path
  {
    seq(|cs|, i requires 0 <= i < |cs| => cs[i].path)
  }

  function Apps(cs: seq<ConfFile>): (as_: seq<Option<string>>)
    ensures |as_| == |cs| && forall i :: 0 <= i < |cs| ==> as_[i] == cs[i].app
  {
    seq(|cs|, i requires 0 <= i < |cs| => cs[i].app)
  }

  /** A stanza's provenance lists are those of `cs`, and its latest source is the last of them. */
  predicate HasProvenance(st: Stanza, cs: seq<ConfFile>) {
    && st.sourceFiles == Paths(cs)
    && st.sourceApps == Apps(cs)
    && (cs != [] ==> st.sourceFile == cs[|cs| - 1].path && st.sourceApp == cs[|cs| - 1].app)
  }

  lemma ProvenanceStep(st: Stanza, cs: seq<ConfFile>, f: ConfFile, values: Dict<string>)
    requires HasProvenance(st, cs)
    ensures HasProvenance(Stanza(values, st.sourceFiles + [f.path], st.sourceApps + [f.app], f.path, f.app), cs + [f])
  {
    assert Paths(cs + [f]) == Paths(cs) + [f.path];
    assert Apps(cs + [f]) == Apps(cs) + [f.app];
  }

  lemma {:induction false} ProvenanceMergeSections(m: Merged, f: ConfFile, secs: seq<Section>, s: string, cs: seq<ConfFile>)
    requires HasProvenance(StanzaOf(m, s), cs)
    requires HasKey(m, s) <==> cs != []
    ensures HasProvenance(StanzaOf(MergeSections(m, f, secs), s), cs + SectionHits(f, secs, s))
    ensures HasKey(MergeSections(m, f, secs), s) <==> cs + SectionHits(f, secs, s) != []
    decreases |secs|
  {
    if secs == [] {
      assert cs + [] == cs;
    } else {
      var init := secs[..|secs| - 1];
      var sec := secs[|secs| - 1];
      ProvenanceMergeSections(m, f, init, s, cs);
      var m' := MergeSections(m, f, init);
      var cs' := cs + SectionHits(f, init, s);
      StanzaOfMergeSection(m', f, sec, s);
      assert MergeSections(m, f, secs) == MergeSection(m', f, sec);
      var hit: seq<ConfFile> := if sec.name == s then [f] else [];
      assert SectionHits(f, secs, s) == SectionHits(f, init, s) + hit;
      ConcatAssoc(cs, SectionHits(f, init, s), hit);
      if sec.name == s {
        ProvenanceStep(StanzaOf(m', s), cs', f, MergeItems(StanzaOf(m', s).values, sec.items));
      } else {
        assert cs' + hit == cs';
      }
    }
  }

  /**
   * Provenance: every stanza lists one source file and one source app per
   * section that contributed to it, in merge order, and its latest source file
   * and app are the last of those; a stanza exists exactly when some section
   * with its name was read.
   */
  lemma {:induction false} MergeProvenance(ls: seq<LayerFile>, s: string)
    ensures HasProvenance(StanzaOf(MergeFiles(ls), s), Contributors(ls, s))
    ensures HasKey(MergeFiles(ls), s) <==> Contributors(ls, s) != []
    ensures |StanzaOf(MergeFiles(ls), s).sourceFiles| == |StanzaOf(MergeFiles(ls), s).sourceApps|
    decreases |ls|
  {
    if ls != [] {
      var init := ls[..|ls| - 1];
      var last := ls[|ls| - 1];
      MergeProvenance(init, s);
      ProvenanceMergeSections(MergeFiles(init), last.file, last.sections, s, Contributors(init, s));
    } else {
      assert Paths([]) == [] && Apps([]) == [];
    }
  }
}
