# Splunk-autodoc configuration-to-topology pipeline, modelled in Dafny

Splunk-autodoc reads the configuration directories of a Splunk installation and draws a graph of where
the data goes. It has three services, and this project models all three.

1. **The parser** (`parser.py`):
   - It finds each `.conf` file across the four precedence layers: system/default, system/local,
     app/default and app/local.
   - It merges the files stanza by stanza, later files winning. It redacts secret keys and records
     which files contributed each stanza.
   - It extracts typed records:
     - inputs: the kind, port and source path of each stanza;
     - output groups: the server list and the tri-state SSL setting;
     - props stanzas: the ordered `TRANSFORMS-*` reference list;
     - transform stanzas: the drop, index, sourcetype and host flags.
   - It also builds the traceability map.
2. **The resolver** (`resolver.py`):
   - It builds the primary host: a sanitised id and inferred roles.
   - It expands the output groups into targets.
   - It runs the bounded props/transforms evaluation for each input. The result is the input's final
     indexes, filters and drop rules.
   - It builds one edge per enabled input and target, then merges edges that share
     `(src, dst, protocol, path_kind)`.
   - It adds a placeholder host for every unknown destination and computes the graph metadata.
3. **The validator** (`validator.py`):
   - It reads the graph document back.
   - It recognises placeholder hosts and collects the "known" indexes.
   - It runs the five finding rules and concatenates their results:
     - DANGLING_OUTPUT
     - UNKNOWN_INDEX
     - UNSECURED_PIPE
     - DROP_PATH
     - AMBIGUOUS_GROUP

The modules follow that structure:

- `Wrappers`: `Option` and `Result`.
- `Text`: The string operations the source relies on: ASCII `lower`, Python's `strip` (full `isspace` set), `split`, `int()` and string ordering.
- `Order`: Sorting by key, sorted set-unions, and order-preserving dedup.
- `Dicts`: Python's insertion-ordered `dict`, as a sequence of key/value pairs.
- `ConfLayers`: `find_conf_files`, `merge_conf_layers` and `redact_sensitive_value`.
- `ConfExtract`: The four extractors.
- `ConfSnapshot`: `parse_splunk_config`: each file as a list of sections already read, server names and traceability.
- `HostInference`: `extract_hostname`, `infer_host_roles` and `build_host`.
- `TransformEval`: `apply_transforms_to_index`.
- `Edges`: Protocol mapping, output targets and edge construction.
- `EdgeMerge`: `merge_similar_edges`.
- `Graph`: Placeholder hosts, metadata and `build_canonical_graph`.
- `Validator`: The validator.
- `Pipeline`: Properties of the resolver's graph as the validator reads it.

The loops that the source writes as loops, over state that changes, are Dafny methods. Each is proved
equal to a specification function, and the properties are lemmas about that function. These methods are:

- `FindConfFiles`
- `MergeConfLayers`
- `AttachServerOverrides`
- `BuildTraceability`
- `ApplyTransformsToIndex`
- `MergeSimilarEdges`
- `CountInputKinds`
- `BuildGraphMetadata`
- `BuildCanonicalGraph`

The per-stanza classifiers, extractors and validator rules are pure in the source, and they are pure
functions here.

Where the code and its documentation disagree, the model follows the code:

- **Merged TLS.** The docstring promises "True if all True". The code ignores `None` members, so
  `[True, None]` merges to `True`.
- **Dangling output with an unknown index.** When the only output is dangling, no edge reaches a real
  host, so the known set is empty and every index of the edge is flagged UNKNOWN_INDEX.
  `Pipeline.UnroutedFindings` states this.

## Model

| member | source | states |
|---|---|---|
| `Text.Lower` | api/app/services/parser.py:205 | `lower()`: same length, each character mapped by `LowerChar`, which never yields an upper-case letter and keeps every other character |
| `Text.Strip` | api/app/services/parser.py:506 | `strip()`: the result is the run of the input between its leading whitespace and its trailing whitespace, so only whitespace is removed, at either end; it neither starts nor ends with whitespace, and is unchanged when already stripped |
| `Text.JoinSplit` | api/app/services/parser.py:506 | `sep.join(s.split(sep)) == s` |
| `Text.SplitJoin` | api/app/services/parser.py:506 | splitting a join of sep-free parts gives back the parts |
| `Text.SplitItems` | api/app/services/parser.py:506 | the comma-split, stripped, non-empty list: every item is clean, and a text is an item iff it is non-empty and the strip of some part of the split |
| `Text.StripNonEmpty` | api/app/services/parser.py:506 | the non-empty stripped parts: a text is an item iff it is non-empty and the strip of some part; never more items than parts |
| `Text.StripNonEmptyAppend` | api/app/services/parser.py:506 | items keep the order of their parts: the items of a concatenation are those of each half, in order |
| `Text.StripNonEmptyOne` | api/app/services/parser.py:506 | one part gives its strip, or nothing when that is empty |
| `Text.SplitItemsOfJoin` | api/app/services/parser.py:506 | splitting a join of separator-free parts gives their stripped, non-empty forms, in order |
| `Text.IntToStringParses` | api/app/services/parser.py:678-682 | `int()` reads back every decimal numeral, negative ones included |
| `Text.ParseUnsigned` | api/app/services/parser.py:680 | `int()` of a digit string is its decimal value |
| `Text.ParseIntRejects` | api/app/services/parser.py:678-682 | `int()` reads a value only when it holds an ASCII digit and only digits, `_`, a sign and whitespace |
| `Text.ParseNegative` | api/app/services/parser.py:680 | `int()` of `-` followed by digits is the negated value |
| `Text.LowerNeverContainsUpper` | api/app/services/resolver.py:177 | a lower-cased string contains no pattern holding an upper-case letter (why two role patterns never match) |
| `Text.NatToStringValue` | api/app/services/parser.py:678-682 | the decimal rendering of a number denotes that number, with no leading zero |
| `Text.StrLtTotal` | api/app/services/resolver.py:711-715 | Python's string order is total, which `sorted` relies on |
| `Order.SortBy` | api/app/services/parser.py:240 | `sorted(key=...)`: a permutation of the input, ordered by the key |
| `Order.SortStrings` | api/app/services/parser.py:887 | `sorted()` of names: a permutation, in ascending order |
| `Order.SortedSet` | api/app/services/resolver.py:711-715 | `sorted(set(xs))`: strictly ascending, with exactly the elements of `xs` |
| `Order.SortedSetOfSameElements` | api/app/services/resolver.py:711-715 | `sorted(set(...))` depends only on which elements occur |
| `Order.StrictlySortedUnique` | api/app/services/resolver.py:711-715 | two strictly sorted lists with the same elements are equal |
| `Order.Dedup` | api/app/services/resolver.py:704-709 | first-seen dedup: no duplicates, the same elements, no longer than the input |
| `Order.DedupAppend` | api/app/services/resolver.py:706-709 | one more element is kept only if not seen before |
| `Order.DedupOfNoDup` | api/app/services/resolver.py:704-709 | dedup leaves a duplicate-free list unchanged |
| `Dicts.Get` | api/app/services/parser.py:387-390 | `dict.get` finds a value exactly when the key is present |
| `Dicts.Put` | api/app/services/parser.py:315 | `d[k] = v` keeps key order and appends a new key at the end |
| `Dicts.GetPut` | api/app/services/parser.py:315 | after `d[k] = v`, `k` reads `v` and every other key reads as before |
| `Dicts.Restrict` | api/app/services/parser.py:399-412 | a filtering dict comprehension keeps exactly the accepted keys, with their values |
| `Dicts.Extend` | api/app/services/parser.py:900 | `setdefault(k, []).extend(xs)` appends `xs` under `k`, leaves other keys alone and adds `k` at the end if new |
| `ConfLayers.RedactSensitiveValue` | api/app/services/parser.py:192-207 | `<REDACTED>` exactly when the lower-cased key is one of the five sensitive names, else the value unchanged |
| `ConfLayers.RedactionCaseInsensitiveAndIdempotent` | api/app/services/parser.py:51-207 | keys equal up to case redact alike, and redacting twice equals redacting once |
| `ConfLayers.SortedEntries` | api/app/services/parser.py:240 | the app directory listing sorted by name, as a permutation |
| `ConfLayers.WithRank` | api/app/services/parser.py:251-261 | the files selected for one precedence rank all have that rank |
| `ConfLayers.StableSortByRankIsStableSort` | api/app/services/parser.py:251-262 | sorting by layer rank is a permutation, ordered by rank, and keeps the order within each rank (stable) |
| `ConfLayers.StableSortByRankPermutes` | api/app/services/parser.py:262 | the rank sort is a permutation |
| `ConfLayers.StableSortByRankOrdered` | api/app/services/parser.py:262 | the rank sort orders files by rank |
| `ConfLayers.StableSortByRankKeepsClass` | api/app/services/parser.py:262 | the rank sort keeps the order of the files within each rank |
| `ConfLayers.WithRankAppend` | api/app/services/parser.py:262 | selecting one rank distributes over concatenation |
| `ConfLayers.ScannedLayer` | api/app/services/parser.py:238-248 | the scanned app files of one rank are that layer's files of each directory, in listing order |
| `ConfLayers.SortedDiscoveryIsPrecedenceOrder` | api/app/services/parser.py:231-262 | sorting the discovered files by rank gives system/default, then system/local, then every app's default, then every app's local, apps in listing order |
| `ConfLayers.DiscoveryOrder` | api/app/services/parser.py:210-262 | the same for the name-sorted listing: the result of `find_conf_files` is the precedence order |
| `ConfLayers.ScanSystemLayers` | api/app/services/parser.py:231-235 | the system loop finds system/default then system/local, each only if present |
| `ConfLayers.ScanAppEntry` | api/app/services/parser.py:241-248 | one app entry contributes its default then its local file, or nothing when it is not a directory |
| `ConfLayers.FindConfFiles` | api/app/services/parser.py:210-262 | the discovery loop and the rank sort return exactly the precedence order |
| `ConfLayers.MergeConfLayers` | api/app/services/parser.py:282-326 | the merge loop over files equals the fold over files |
| `ConfLayers.MergeFileInto` | api/app/services/parser.py:305-324 | one file's sections folded in file order |
| `ConfLayers.MergeSectionInto` | api/app/services/parser.py:306-324 | one section: items merged, file and app appended, latest file and app recorded |
| `ConfLayers.MergeItemsInto` | api/app/services/parser.py:313-315 | the item loop stores each value redacted, later keys overwriting earlier ones |
| `ConfLayers.KeysMergeSections` | api/app/services/parser.py:306-310 | stanza keys stay in first-seen order across one file's sections |
| `ConfLayers.MergedStanzaOrder` | api/app/services/parser.py:302-310 | the merged map's stanzas are all section names in first-seen order, each once |
| `ConfLayers.GetMergeItems` | api/app/services/parser.py:313-315 | a key reads the redacted last value the items give it, else its earlier value |
| `ConfLayers.StanzaOfMergeSection` | api/app/services/parser.py:306-324 | merging a section changes only that section's stanza, in the stated way |
| `ConfLayers.StanzaValueMergeSections` | api/app/services/parser.py:305-314 | within one file, the last section defining a key decides its value |
| `ConfLayers.MergePrecedence` | api/app/services/parser.py:302-315 | for every stanza and key, the merged value is the redacted value from the last file whose section defines the key; keys defined only earlier survive |
| `ConfLayers.MergeRedactsSecrets` | api/app/services/parser.py:313-315 | a sensitive key is never stored in clear: absent or `<REDACTED>` |
| `ConfLayers.ProvenanceStep` | api/app/services/parser.py:317-324 | one more contributing file keeps the provenance invariant |
| `ConfLayers.ProvenanceMergeSections` | api/app/services/parser.py:305-324 | provenance is kept across one file's sections; a stanza exists exactly when some file contributed it |
| `ConfLayers.MergeProvenance` | api/app/services/parser.py:317-324 | `_source_files` and `_source_apps` list each file once for each of its sections naming the stanza, in file order, and have equal length; `_source_file` and `_source_app` are the last entries; the stanza exists iff some file contributed |
| `ConfExtract.TriBool` | api/app/services/parser.py:519-521 | an absent value stays `None`; a present one is true iff it is 1/true/yes ignoring case |
| `ConfExtract.PortSpecOf` | api/app/services/parser.py:351-353 | `PORT` and `HOST:PORT` both read back the port |
| `ConfExtract.ClassifyInput` | api/app/services/parser.py:349-383 | each of the eight kinds is chosen iff its pattern matches and no earlier pattern does, in the order monitor, tcp, udp, splunktcp, http, script, WinEventLog, with modular the default; the network kinds carry the port their pattern reads and no path; monitor, script, WinEventLog and `http://...` carry the text after the scheme as their path |
| `ConfExtract.ExtractInput` | api/app/services/parser.py:385-432 | kind, path and port are those the name classifies to; sourcetype, index and host are the stanza values; `disabled` iff the value is present and 1/true/yes ignoring case (false when absent); options are every key except sourcetype, index, host and disabled |
| `ConfExtract.ParseInputsConf` | api/app/services/parser.py:357-432 | one input per merged stanza, in stanza order, each the extraction of that stanza |
| `ConfExtract.ClassifyPortStanza` | api/app/services/parser.py:364-373 | a network stanza with a valid port spec is classified by its prefix with that port |
| `ConfExtract.PortStanzaRoundTrip` | api/app/services/parser.py:351-373 | `tcp://PORT`, `udp://HOST:PORT` and the like classify as their kind with that port |
| `ConfExtract.PortStanzaWith` | api/app/services/parser.py:351-373 | a prefix followed by any valid port spec classifies with that port |
| `ConfExtract.PathStanzaRoundTrip` | api/app/services/parser.py:350-380 | `monitor://P`, `script://P` and `http://P` classify with source path `P` |
| `ConfExtract.WinEventLogStanzaRoundTrip` | api/app/services/parser.py:355-383 | `WinEventLog://P`, with the scheme in any letter case, classifies as WinEventLog with source path `P` |
| `ConfExtract.SslEnabled` | api/app/services/parser.py:519-530 | true iff some certificate setting is non-empty or `useSSL` is 1/true/yes; false iff none is set and `useSSL` is present and not true; `None` iff none is set and `useSSL` is absent |
| `ConfExtract.ExtractOutputGroup` | api/app/services/parser.py:501-598 | default iff the group name equals `[tcpout] defaultGroup`; servers are the comma items of `server` (none when absent); the SSL setting, certificate path, compressed, useACK and discovery name are read as stated by `SslEnabled` and `TriBool`; discovery details iff the group names a known discovery stanza, and then that stanza's; no per-server options yet; options are every key except the eight consumed ones, with the discovery details and per-server options held in their own fields |
| `ConfExtract.ExtractDiscovery` | api/app/services/parser.py:468-496 | each discovery setting is read under its first spelling, falling back to the second when absent; the source file is the stanza's |
| `ConfExtract.DiscoveryMapLookup` | api/app/services/parser.py:462-497 | on a table with distinct stanza names, which the merge guarantees: discovery name `n` is mapped iff `n` is non-empty and `[indexer_discovery:<n>]` exists, and then to that stanza's settings |
| `ConfExtract.TcpoutGroupsAppend` | api/app/services/parser.py:498-502 | groups keep stanza order: the groups of a concatenated table are those of each part |
| `ConfExtract.TcpoutGroupsOne` | api/app/services/parser.py:498-595 | one stanza gives one group iff it is `[tcpout:<name>]` with a non-empty name, and that group is its extraction under `<name>` |
| `ConfExtract.ServerOverridesLookup` | api/app/services/parser.py:600-608 | on a table with distinct stanza names: endpoint `e` has overrides iff `e` is non-empty and `[tcpout-server://<e>]` exists, and they are that stanza's settings without the `_source` metadata |
| `ConfExtract.OutputGroupAt` | api/app/services/parser.py:610-617 | the i-th parsed group is the i-th `tcpout:` group, unchanged except for its per-server options, which key exactly its listed servers that have overrides |
| `ConfExtract.PerServerOptionsLookup` | api/app/services/parser.py:611-617 | a server's override is attached exactly when the server is in the group's list and has an override |
| `ConfExtract.AttachServerOverrides` | api/app/services/parser.py:610-617 | the override loop yields each group with its per-server options attached |
| `ConfExtract.ParseOutputsConf` | api/app/services/parser.py:438-620 | the imperative output parse equals the specification of the groups with overrides |
| `ConfExtract.ServerListRoundTrip` | api/app/services/parser.py:505-506 | a comma-joined list of clean server names splits back into that list |
| `ConfExtract.StripNonEmptyOfItems` | api/app/services/parser.py:506 | stripping and dropping empty items leaves a list of clean items unchanged |
| `ConfExtract.ClassifyProps` | api/app/services/parser.py:649-664 | `default` only for the name `default`; `source::` and `host::` stanzas by their prefix (with something after it); any other name is a sourcetype stanza, whose value is the name unless it has the `sourcetype::` prefix; a non-default stanza has a non-empty value unless the name is empty |
| `ConfExtract.PropsStanzaRoundTrip` | api/app/services/parser.py:656-664 | `sourcetype::V`, `source::V` and `host::V` classify with value `V` |
| `ConfExtract.TransformRefs` | api/app/services/parser.py:667-673 | every reference is a clean, non-empty, comma-free name |
| `ConfExtract.KeyRefs` | api/app/services/parser.py:670-673 | a `TRANSFORMS-*` key (ignoring case) contributes the comma items of its value; any other key contributes nothing |
| `ConfExtract.TransformRefsAppend` | api/app/services/parser.py:669-673 | the reference list concatenates per-key lists in key order |
| `ConfExtract.TransformRefsSnoc` | api/app/services/parser.py:669-673 | one more key appends its references |
| `ConfExtract.TransformRefsKeepDuplicates` | api/app/services/parser.py:667-673 | two `TRANSFORMS-*` keys naming the same transform give it twice: no dedup |
| `ConfExtract.Truncate` | api/app/services/parser.py:678-682 | an absent TRUNCATE is `None`; the decimal rendering of any integer reads back as that integer; a value is only read when it has an ASCII digit and nothing but digits, `_`, a sign and whitespace, so `"abc"` or `"1.5"` gives `None` |
| `ConfExtract.ExtractProps` | api/app/services/parser.py:650-722 | kind and value as the name classifies; the `TRANSFORMS-*` references in key order; TRUNCATE as read by `int()`; LINE_BREAKER and TIME_FORMAT as stored; options are every other key |
| `ConfExtract.ParsePropsConf` | api/app/services/parser.py:648-722 | one props record per merged stanza, in stanza order, each the extraction of that stanza |
| `ConfExtract.ClassifyTransform` | api/app/services/parser.py:760-780 | is_drop iff DEST_KEY is queue/_tcp_routing and FORMAT is nullqueue, ignoring case; the other three flags for `_metadata:index`, `:sourcetype` and `:host`; at most one flag is set |
| `ConfExtract.ExtractTransform` | api/app/services/parser.py:748-826 | the six named settings as stored, the flags as `DEST_KEY` and `FORMAT` classify, and every other key as an option |
| `ConfExtract.ParseTransformsConf` | api/app/services/parser.py:748-826 | one transform record per merged stanza, in stanza order, each the extraction of that stanza |
| `ConfSnapshot.ServerNameNotSensitive` | api/app/services/parser.py:878-879 | `serverName` is not a redacted key |
| `ConfSnapshot.HostnameFollowsPrecedence` | api/app/services/parser.py:874-881 | the last `[general] serverName` candidate equals the merged value of that key |
| `ConfSnapshot.DirNames` | api/app/services/parser.py:886 | a name is listed iff some entry with that name is a directory |
| `ConfSnapshot.DirNamesAppend` | api/app/services/parser.py:886 | directory names keep the listing order: a listing in two parts gives the names of each, in order |
| `ConfSnapshot.TracedFilesOfAbsentKey` | api/app/services/parser.py:897-912 | a key no record names has no files |
| `ConfSnapshot.TraceabilityLookup` | api/app/services/parser.py:897-912 | a key is present exactly when some record names it, and maps to the files of all such records, in order |
| `ConfSnapshot.LookupStep` | api/app/services/parser.py:900 | one `setdefault(...).extend(...)` keeps the lookup invariant |
| `ConfSnapshot.KeysOfSnoc` | api/app/services/parser.py:899-912 | one more record adds its key at the end |
| `ConfSnapshot.TraceabilityKeyOrder` | api/app/services/parser.py:897-912 | traceability keys appear in first-seen order, each once |
| `ConfSnapshot.BuildTraceability` | api/app/services/parser.py:896-912 | the four `setdefault(...).extend(...)` loops build the specified map |
| `ConfSnapshot.ParsedConfigMetadata` | api/app/services/parser.py:853-894 | a present work directory parses; counts match the record lists; the app list is the sorted directory names with a matching count; the hostname is the merged `serverName` |
| `ConfSnapshot.CollectServerNames` | api/app/services/parser.py:874-879 | the candidate loop collects each file's `serverName` in precedence order |
| `ConfSnapshot.ParseConf` | api/app/services/parser.py:341-346 | find then merge one conf type |
| `ConfSnapshot.FindHostname` | api/app/services/parser.py:874-881 | the last `serverName` candidate in precedence order, when any |
| `ConfSnapshot.BuildHostMetadata` | api/app/services/parser.py:867-894 | the host metadata record, as specified |
| `ConfSnapshot.ParseSplunkConfig` | api/app/services/parser.py:832-929 | an absent work directory is an error; otherwise the four records, metadata and traceability |
| `HostInference.Sanitize` | api/app/services/resolver.py:262 | same length; allowed characters kept, every other one replaced by `_` |
| `HostInference.ExtractHostname` | api/app/services/resolver.py:241-264 | only `[A-Za-z0-9_-]`; a present, non-empty name with every other character replaced by `_` (so a clean name is unchanged); `host_<job_id>` when missing or empty |
| `HostInference.SanitizeIdempotent` | api/app/services/resolver.py:256-262 | sanitising twice equals once, and the fallback name is already clean |
| `HostInference.EnabledKinds` | api/app/services/resolver.py:186-193 | exactly the kinds of enabled inputs |
| `HostInference.RuleRoles` | api/app/services/resolver.py:195-221 | the rule cascade: indexer, heavy forwarder, universal forwarder and search head each under exactly its stated condition; no duplicates, never unknown |
| `HostInference.PatternRole` | api/app/services/resolver.py:224-232 | the fallback picks at most one role not already present, whose pattern hits the hostname or an app; none iff no such role |
| `HostInference.PatternRoleFirstHit` | api/app/services/resolver.py:224-232 | the pattern role is the first candidate in `ROLE_PATTERNS` order that is not yet a role and whose patterns hit; every earlier candidate is a role already or misses |
| `HostInference.InferRoles` | api/app/services/resolver.py:169-238 | the rule roles, followed by the pattern role when there is one; `[unknown]` exactly when there is neither; hence non-empty and duplicate-free, with `unknown` only as the sole role |
| `HostInference.HeavyPatternsThatCanMatch` | api/app/services/resolver.py:49-54 | on lower-cased text the heavy-forwarder patterns reduce to `heavy` and `hf_` |
| `HostInference.HeavyForwarderPatternsOnInferredFacts` | api/app/services/resolver.py:224-232 | `Splunk_TA_` and `SA-` never contribute to a pattern hit |
| `HostInference.TwoPatterns` | api/app/services/resolver.py:227 | `any()` over two patterns is their disjunction |
| `HostInference.BuildHost` | api/app/services/resolver.py:267-290 | the id is `ExtractHostname` of the metadata (a clean id), the roles are `InferRoles` of the host's facts (non-empty, duplicate-free), the apps are the metadata's, and the labels are `env:<environment>` then `cluster:<cluster>`, each present exactly when that value is truthy |
| `TransformEval.MatchedInOrder` | api/app/services/resolver.py:418-437 | exactly the props not yet processed under the current sourcetype that match by sourcetype, source (exact or `*` prefix) or host |
| `TransformEval.OfKind` | api/app/services/resolver.py:444 | the matches of one stanza type, in order |
| `TransformEval.ByPrecedence` | api/app/services/resolver.py:444 | the precedence sort keeps exactly the non-default matches |
| `TransformEval.PrecedenceHostThenType` | api/app/services/resolver.py:444 | a host match sorts before a sourcetype match |
| `TransformEval.FindTransform` | api/app/services/resolver.py:459-462 | the first transform with the referenced name; none iff no transform has it |
| `TransformEval.ApplyRef` | api/app/services/resolver.py:457-500 | a missing reference changes nothing. For a found transform: index routing with a FORMAT appends it to the indexes and `TRANSFORMS:<ref>` to the filters; a drop appends `DROP:<ref>` and clears the indexes; a sourcetype rewrite with a FORMAT appends `SOURCETYPE_REWRITE:<ref>` and makes FORMAT the current sourcetype, setting `changed` exactly when that differs from the old one; otherwise the sourcetype and `changed` stay; the processed set, log and round count are untouched |
| `TransformEval.ApplyRefs` | api/app/services/resolver.py:455-500 | the references in order leave the processed set, log and round count unchanged |
| `TransformEval.ApplyProps` | api/app/services/resolver.py:449-500 | applying matched props only adds keys and does not count a round |
| `TransformEval.ApplyPropsLog` | api/app/services/resolver.py:449-452 | the log grows by exactly the applied props, in order |
| `TransformEval.ApplyPropsKeys` | api/app/services/resolver.py:450-452 | with keys marked at match time, exactly the keys of the applied props are added |
| `TransformEval.Round` | api/app/services/resolver.py:412-504 | each iteration counts one round |
| `TransformEval.LoopCounts` | api/app/services/resolver.py:409-413 | a loop whose step counts one round runs at most its bound |
| `TransformEval.LoopPreserves` | api/app/services/resolver.py:412-504 | an invariant every step keeps holds after the loop |
| `TransformEval.Rounds` | api/app/services/resolver.py:409-413 | the rounds run are between none and the bound |
| `TransformEval.Evaluate` | api/app/services/resolver.py:397-512 | at most 10 iterations |
| `TransformEval.FindMatchingProps` | api/app/services/resolver.py:416-444 | the matching loop and sort return the specified matches |
| `TransformEval.ApplyMatchedProps` | api/app/services/resolver.py:449-500 | the loop over matched props equals applying them in order |
| `TransformEval.ApplyTransformRefs` | api/app/services/resolver.py:457-500 | the loop over references equals applying them in order |
| `TransformEval.RunRound` | api/app/services/resolver.py:412-504 | one iteration of the `while` loop, as specified |
| `TransformEval.RunMatched` | api/app/services/resolver.py:440-504 | stop when nothing matched; otherwise apply and continue iff the sourcetype changed |
| `TransformEval.ApplyTransformsToIndex` | api/app/services/resolver.py:370-512 | the loop returns the specified indexes, filters and drop rules |
| `TransformEval.NoMatchKeepsIndex` | api/app/services/resolver.py:397-441 | with no matching props the result is `([index or "main"], [], [])` after one iteration |
| `TransformEval.ApplyRefSound` | api/app/services/resolver.py:471-485 | one reference keeps every index either the start index or a routing target, and every drop a named drop transform |
| `TransformEval.ApplyRefsSound` | api/app/services/resolver.py:457-500 | the same for a list of references |
| `TransformEval.ApplyPropsSound` | api/app/services/resolver.py:449-500 | the same for a list of props |
| `TransformEval.RoundSound` | api/app/services/resolver.py:412-504 | the same for one iteration |
| `TransformEval.RoundOnSound` | api/app/services/resolver.py:440-504 | the same for one iteration's matched props |
| `TransformEval.RoundsSound` | api/app/services/resolver.py:412-504 | the same for all iterations |
| `TransformEval.EvaluateSound` | api/app/services/resolver.py:370-512 | every final index is the input's start index or the FORMAT of an index-routing transform; after a drop only routed indexes remain; every drop rule names a drop transform |
| `TransformEval.RoundKeepsLogSound` | api/app/services/resolver.py:449-452 | applying not-yet-processed props keeps the log duplicate-free and covered by the processed set |
| `TransformEval.AppendedLogSound` | api/app/services/resolver.py:449-452 | appending fresh, distinct props to a sound log keeps it sound |
| `TransformEval.RoundKeepsLog` | api/app/services/resolver.py:418-452 | one iteration keeps the log sound |
| `TransformEval.RoundsKeepLogSound` | api/app/services/resolver.py:412-504 | all iterations keep the log sound |
| `TransformEval.NoStanzaAppliedTwice` | api/app/services/resolver.py:405-452 | with keys marked by the sourcetype they matched under, no `(stanza, sourcetype)` is evaluated twice |
| `TransformEval.ExampleTransformsParsed` | api/app/services/parser.py:760-780 | the worked example's transform flags are those the parser derives from their DEST_KEY and FORMAT |
| `TransformEval.ExampleMatchedOne` | api/app/services/resolver.py:418-437 | worked example, round one: the host and sourcetype-A stanzas match |
| `TransformEval.ExampleMatchOne` | api/app/services/resolver.py:416-444 | worked example, round one: host before sourcetype after the sort |
| `TransformEval.ExampleHostInRoundOne` | api/app/services/resolver.py:449-500 | worked example: the host stanza rewrites the sourcetype to B |
| `TransformEval.ExampleAInRoundOne` | api/app/services/resolver.py:449-500 | worked example: stanza A routes to `idx` |
| `TransformEval.ExampleRoundOne` | api/app/services/resolver.py:412-504 | worked example: round one's state, continuing |
| `TransformEval.ExampleMatchTwo` | api/app/services/resolver.py:416-444 | worked example, round two: the host and sourcetype-B stanzas match |
| `TransformEval.ExampleHostInRoundTwo` | api/app/services/resolver.py:449-500 | worked example: the host stanza again, under B |
| `TransformEval.ExampleBInRoundTwo` | api/app/services/resolver.py:449-500 | worked example: stanza B rewrites back to A |
| `TransformEval.ExampleRoundTwo` | api/app/services/resolver.py:412-504 | worked example: round two's state, continuing |
| `TransformEval.ExampleMatchThree` | api/app/services/resolver.py:418-452 | worked example, round three: as written, stanza A matches again under A; with match-time marking nothing does |
| `TransformEval.ExampleAInRoundThree` | api/app/services/resolver.py:449-500 | worked example: stanza A applied a second time, as written |
| `TransformEval.ExampleRoundThreeAsWritten` | api/app/services/resolver.py:412-504 | worked example: round three as written, stopping |
| `TransformEval.ExampleRounds` | api/app/services/resolver.py:412-504 | worked example: the evaluation is round three after round two |
| `TransformEval.ExampleResultAsWritten` | api/app/services/resolver.py:370-512 | worked example: the evaluation as written ends in round three's state |
| `TransformEval.ReappliedAsWritten` | api/app/services/resolver.py:420-452 | as written, the worked example applies `(A, sourcetype A)` twice: index `idx` and filter `TRANSFORMS:route` recorded twice |
| `TransformEval.RoundThreeAsWrittenFacts` | api/app/services/resolver.py:420-452 | the facts of round three's state as written |
| `TransformEval.AppliedOnceCorrected` | api/app/services/resolver.py:420-452 | with match-time marking the worked example applies each stanza once: indexes `main, idx` |
| `Edges.FirstMapping` | api/app/services/resolver.py:311-313 | the first mapping whose key prefixes the lower-cased input type; none iff no key does |
| `Edges.ProtocolOfEachKind` | api/app/services/resolver.py:293-320 | the protocol and path kind of each input kind, by the first matching entry of `PROTOCOL_MAPPINGS` (lines 57-66), with `modular` falling back to splunktcp/forwarding |
| `Edges.ServerTargets` | api/app/services/resolver.py:351-365 | a target is listed iff some server has a non-empty host part, which is its host; each carries the group's TLS and name |
| `Edges.ServerTargetsAppend` | api/app/services/resolver.py:351-365 | targets keep server order: a list in two parts gives the targets of each, in order |
| `Edges.GroupTargets` | api/app/services/resolver.py:344-365 | a discovery group gives exactly one `indexer_discovery:<name>` target; otherwise a target per server host part; every target carries the group's TLS (`ssl_enabled` true or a certificate path) and name |
| `Edges.OutputTargets` | api/app/services/resolver.py:339-367 | a target is listed iff it is a target of some group; each has a non-empty host and the TLS and name of a group it came from |
| `Edges.OutputTargetsAppend` | api/app/services/resolver.py:341 | targets of consecutive groups concatenate |
| `Edges.TargetKinds` | api/app/services/resolver.py:344-365 | every target is a clean host or an `indexer_discovery:` name |
| `Edges.HostPartOfServer` | api/app/services/resolver.py:353 | `host:port` and `host` both give `host` |
| `Edges.HostPartOfNamingServer` | api/app/services/resolver.py:353 | a server naming a clean host gives that host |
| `Edges.ServerTargetsOfHosts` | api/app/services/resolver.py:351-365 | servers naming clean hosts give exactly those hosts as targets, in order |
| `Edges.InputEdges` | api/app/services/resolver.py:553-607 | one edge per target, or exactly one to `unknown_destination` with no TLS and `derived`; all splunktcp, weight 1, carrying the input's sources, sourcetypes, apps and the evaluated indexes, filters and drops; target edges `derived` iff routing is ambiguous and carrying the target's TLS |
| `Edges.EdgesOf` | api/app/services/resolver.py:548-609 | every edge leaves the host, splunktcp, weight 1, for either marking policy |
| `Edges.EnabledEdges` | api/app/services/resolver.py:549-607 | a disabled input gives no edges; an enabled one gives one per target, or one; the policy argument selects as-written (`AtEvaluation`) or corrected evaluation |
| `Edges.BuildEdges` | api/app/services/resolver.py:515-609 | every edge leaves the primary host, splunktcp, weight 1; `AtEvaluation` gives the code as written |
| `Edges.EdgeCount` | api/app/services/resolver.py:548-609 | the edge count is the number of enabled inputs times the number of targets (or one) |
| `Edges.EdgesAppend` | api/app/services/resolver.py:548 | edges of consecutive inputs concatenate |
| `Edges.DisabledInputHasNoEdges` | api/app/services/resolver.py:549-550 | a disabled input adds no edges |
| `Edges.InputEdgesShape` | api/app/services/resolver.py:566-607 | each built edge has the destination, TLS and confidence its case demands |
| `Edges.EdgeConfidence` | api/app/services/resolver.py:545-607 | every edge is `derived` exactly when there are no targets or routing is ambiguous (more than one group, none default) |
| `Edges.ExampleEdgeIndexes` | api/app/services/resolver.py:556-558 | on the worked example the edge built as written lists index `idx` twice, and once with match-time marking |
| `EdgeMerge.Members` | api/app/services/resolver.py:633-637 | a group holds exactly the edges with its key, in order; empty iff the key does not occur |
| `EdgeMerge.GatherMembers` | api/app/services/resolver.py:674-680 | the gathered list holds exactly the members' values |
| `EdgeMerge.LowestConfidence` | api/app/services/resolver.py:690-691 | `derived` iff some member is |
| `EdgeMerge.TlsValues` | api/app/services/resolver.py:683-684 | exactly the non-`None` TLS values of the members |
| `EdgeMerge.MergedTls` | api/app/services/resolver.py:695-701 | `None` iff no member has TLS set; `False` iff some member is `False`; otherwise `True` |
| `EdgeMerge.MergeGroup` | api/app/services/resolver.py:642-717 | a merged edge keeps its group's key |
| `EdgeMerge.MergeSpec` | api/app/services/resolver.py:612-719 | one edge per distinct key |
| `EdgeMerge.DedupInOrder` | api/app/services/resolver.py:704-709 | the filter loop keeps the first occurrence of each filter |
| `EdgeMerge.CombineGroup` | api/app/services/resolver.py:643-717 | the combining loop yields the specified merge of a group |
| `EdgeMerge.GroupEdges` | api/app/services/resolver.py:631-637 | the grouping loop: keys in first-occurrence order, each mapped to its members |
| `EdgeMerge.MergeSimilarEdges` | api/app/services/resolver.py:612-719 | the method returns the specified merge |
| `EdgeMerge.MergedKeys` | api/app/services/resolver.py:631-642 | exactly one output edge per distinct key, in first-occurrence order |
| `EdgeMerge.MergedAt` | api/app/services/resolver.py:642-717 | the i-th output is the merge of the i-th key's group |
| `EdgeMerge.MergedField` | api/app/services/resolver.py:666-715 | each list field of a merge holds exactly the values of its members |
| `EdgeMerge.MergedScalars` | api/app/services/resolver.py:683-701 | weight is the members' sum; `derived` iff some member is; TLS `False` iff some member is `False`; `None` iff every member's is `None` |
| `EdgeMerge.MergedListsSorted` | api/app/services/resolver.py:704-715 | a merged group's sources, sourcetypes, indexes, drop rules and apps are strictly sorted; its filters are deduplicated in first-seen order |
| `EdgeMerge.SingletonUnchanged` | api/app/services/resolver.py:643-646 | an edge whose key is unique passes through unchanged |
| `EdgeMerge.MembersOfUnique` | api/app/services/resolver.py:643 | a unique key's group is that one edge |
| `EdgeMerge.WeightSumAppend` | api/app/services/resolver.py:687 | weights add over concatenation |
| `EdgeMerge.SumOverAll` | api/app/services/resolver.py:631-637 | summing group weights over all keys is the total weight |
| `EdgeMerge.SumOfMerged` | api/app/services/resolver.py:687 | the merged edges' weights sum group by group |
| `EdgeMerge.WeightPreserved` | api/app/services/resolver.py:612-719 | merging preserves the total weight |
| `EdgeMerge.MergedSummary` | api/app/services/resolver.py:642-717 | each output edge's lists, confidence and TLS, in terms of the input edges that share its key |
| `EdgeMerge.MergeIdempotent` | api/app/services/resolver.py:612-719 | merging a merged list changes nothing |
| `EdgeMerge.MergeOfDistinct` | api/app/services/resolver.py:643-646 | a list with distinct keys is unchanged |
| `Graph.UnknownDestinations` | api/app/services/resolver.py:744-749 | each destination not in the known set, once |
| `Graph.NamedRole` | api/app/services/resolver.py:765-772 | tried in order: indexer iff the lower-cased id contains `idx` or `indexer`; otherwise heavy forwarder iff `hf` or `heavy`; otherwise universal forwarder iff `uf` or `forwarder`; otherwise search head iff `search` or `sh`; unknown iff none occurs |
| `Graph.PlaceholderHost` | api/app/services/resolver.py:753-775 | a placeholder is labelled `placeholder`, has no apps and one role; `unknown_destination` is unknown; `indexer_discovery:` ids are indexers with the extra `indexer_discovery` label |
| `Graph.PlaceholderHosts` | api/app/services/resolver.py:722-777 | one placeholder per unknown destination, labelled and never a known host |
| `Graph.PlaceholdersCoverDestinations` | api/app/services/resolver.py:744-777 | exactly one placeholder per distinct destination outside the known set, and no other |
| `Graph.SourceHosts` | api/app/services/resolver.py:800 | exactly the ids of hosts without the placeholder label |
| `Graph.Increment` | api/app/services/resolver.py:811-813 | `counts[t] = counts.get(t, 0) + 1` |
| `Graph.HistogramGet` | api/app/services/resolver.py:808-813 | each type's count is its number of occurrences |
| `Graph.HistogramKeys` | api/app/services/resolver.py:808-813 | the types appear in first-occurrence order |
| `Graph.SumValuesPut` | api/app/services/resolver.py:811 | the total changes by the difference of the stored values |
| `Graph.SumValuesIncrement` | api/app/services/resolver.py:811-813 | one increment adds one to the total |
| `Graph.HistogramSum` | api/app/services/resolver.py:808-813 | the histogram sums to the number of inputs |
| `Graph.CountInputKinds` | api/app/services/resolver.py:808-813 | the counting loop builds the histogram |
| `Graph.GraphMetadata` | api/app/services/resolver.py:795-820 | fails exactly when the traceability map already has a `resolver` key; otherwise the counts, the generator and the parser's traceability |
| `Graph.BuildGraphMetadata` | api/app/services/resolver.py:780-820 | the method returns the specified metadata |
| `Graph.ResolverStatsCounts` | api/app/services/resolver.py:808-818 | the input-type histogram counts each input once, in first-occurrence order, and sums to the input count; the other counts match |
| `Graph.CanonicalGraphOf` | api/app/services/resolver.py:826-897 | no inputs and no outputs is an error; the only other error is the `resolver` key collision; for either marking policy |
| `Graph.BuildCanonicalGraph` | api/app/services/resolver.py:826-897 | the method returns the specified graph, under the same marking policy |
| `Graph.PrimaryHostNotPlaceholder` | api/app/services/resolver.py:284-288 | the primary host never has the placeholder label |
| `Graph.GraphIsClosed` | api/app/services/resolver.py:859-890 | the primary host comes first; host ids are distinct; every edge leaves the primary host and reaches a listed host; the source hosts are the primary host alone; counts match |
| `Graph.MergedSources` | api/app/services/resolver.py:869 | merging keeps every edge's source |
| `Graph.DestinationsAreHosts` | api/app/services/resolver.py:874-878 | with the placeholders, every destination is a host and ids are distinct |
| `Graph.SourceHostsOfPlaceholders` | api/app/services/resolver.py:800 | placeholders add no source host |
| `Graph.GraphWeight` | api/app/services/resolver.py:861-869 | the graph's total weight is enabled inputs times targets (or one) |
| `Graph.UnitWeights` | api/app/services/resolver.py:578-603 | unit weights sum to the count |
| `Validator.PlaceholderCriteria` | api/app/services/validator.py:163-209 | placeholder iff labelled `placeholder`, or id `unknown_destination`, or id starting `indexer_discovery:`, or role `unknown` |
| `Validator.PlaceholderIds` | api/app/services/validator.py:212-245 | exactly the non-empty ids of placeholder hosts |
| `Validator.PlaceholderIdsAreNamed` | api/app/services/validator.py:239-245 | a placeholder's id is collected iff it is present and non-empty |
| `Validator.KnownIndexes` | api/app/services/validator.py:248-285 | exactly the indexes of edges whose destination is non-empty and not a placeholder |
| `Validator.UnknownIndexesOf` | api/app/services/validator.py:384-385 | exactly the edge's indexes outside the known set; empty iff every index is known |
| `Validator.Unknowns` | api/app/services/validator.py:384-385 | an index is listed iff it occurs and is not known; the list is empty iff all are known; order and repeats are fixed by the three lemmas below |
| `Validator.UnknownsAppend` | api/app/services/validator.py:384-385 | the unknowns of a concatenation are those of each half, in order |
| `Validator.UnknownsOne` | api/app/services/validator.py:384-385 | a single index is reported iff it is not known |
| `Validator.UnknownsOccurrences` | api/app/services/validator.py:384-385 | each unknown index is reported once for every occurrence, and a known one never |
| `Validator.DanglingOf` | api/app/services/validator.py:319-343 | one error finding iff the destination is a placeholder id |
| `Validator.UnknownIndexOf` | api/app/services/validator.py:379-406 | one warning per unknown index of the edge, in order |
| `Validator.UnsecuredOf` | api/app/services/validator.py:441-469 | one warning iff the protocol requires TLS and TLS is not true |
| `Validator.DropOf` | api/app/services/validator.py:503-530 | one info finding iff the drop rules are non-empty |
| `Validator.AmbiguousOf` | api/app/services/validator.py:564-589 | one warning iff the confidence is `derived` |
| `Validator.EdgeFindings` | api/app/services/validator.py:288-592 | every finding of a rule has that rule's code, its severity and the meta |
| `Validator.Detect` | api/app/services/validator.py:288-592 | a rule gives exactly as many findings as its edges raise |
| `Validator.DetectAppend` | api/app/services/validator.py:288-592 | a rule over two runs of edges is the rule over each, in order |
| `Validator.DetectSnoc` | api/app/services/validator.py:288-592 | one more edge appends its findings |
| `Validator.DetectCodes` | api/app/services/validator.py:288-592 | every finding of a rule has that rule's code and severity (error, warning or info) and the meta |
| `Validator.DetectOne` | api/app/services/validator.py:288-592 | a single edge yields its own findings |
| `Validator.ValidateGraph` | api/app/services/validator.py:629-631 | no hosts and no edges gives no findings |
| `Validator.ValidateCount` | api/app/services/validator.py:634-667 | otherwise the total is the sum of the five rule counts |
| `Validator.ValidateSeverities` | api/app/services/validator.py:595-667 | every finding has its code's severity and the graph's meta |
| `Validator.NoUnknownIndexOnRealHost` | api/app/services/validator.py:636-643 | an edge to a real host never raises UNKNOWN_INDEX |
| `Validator.DanglingPerEdge` | api/app/services/validator.py:316-346 | one DANGLING_OUTPUT per dangling edge, no dedup |
| `Validator.UnsecuredPerEdge` | api/app/services/validator.py:441-472 | one UNSECURED_PIPE per edge whose protocol is in `TLS_REQUIRED_PROTOCOLS` (splunktcp, http_event_collector; line 77) whose TLS is false or missing |
| `Pipeline.MetaDocOf` | api/app/services/resolver.py:889 | the meta document is never empty |
| `Pipeline.GraphDocRoundTrip` | api/app/services/validator.py:80-160 | the validator's extractors read back the hosts, edges and meta the resolver serialised, and findings carry that meta as their context |
| `Pipeline.PlaceholdersRecognised` | api/app/services/validator.py:193-209 | every resolver placeholder is a validator placeholder |
| `Pipeline.PrimaryHostAsPlaceholder` | api/app/services/validator.py:193-209 | the primary host is seen as a placeholder exactly when its id is `unknown_destination` or its roles are `[unknown]` |
| `Pipeline.NoDiscoveryPrefix` | api/app/services/validator.py:202 | a sanitised id never starts with `indexer_discovery:` |
| `Pipeline.UnknownRoleName` | api/app/services/validator.py:206 | `unknown` is among the role names iff the role is |
| `Pipeline.MergedKeyOrigin` | api/app/services/resolver.py:642-717 | every merged edge's key comes from a built edge |
| `Pipeline.MergedHasBuiltShape` | api/app/services/resolver.py:566-717 | merged edges keep a non-empty destination and the confidence and TLS of their case |
| `Pipeline.ResolvedEdges` | api/app/services/resolver.py:826-897 | every graph edge leaves the primary host, splunktcp, to a non-empty destination, `derived` iff no targets or ambiguous routing |
| `Pipeline.ResolvedParts` | api/app/services/resolver.py:859-878 | the graph's edges are the merged built edges, its hosts the primary host then the placeholders |
| `Pipeline.PlaceholderIdsOfHosts` | api/app/services/validator.py:212-245 | the validator's placeholder ids are exactly the destinations other than the primary host |
| `Pipeline.PlaceholderIdOfDestination` | api/app/services/validator.py:212-245 | each such destination is a placeholder id |
| `Pipeline.DestinationOfPlaceholderId` | api/app/services/validator.py:212-245 | each placeholder id is such a destination |
| `Pipeline.ResolvedPlaceholderIds` | api/app/services/validator.py:634 | on a resolved graph, placeholder ids are the destinations other than the primary host |
| `Pipeline.ResolvedEdgeFindings` | api/app/services/validator.py:642-646 | on a resolved graph whose primary host is not a placeholder: an edge dangles iff its destination is not the primary host, is unsecured iff its TLS is not true, is ambiguous iff derived, and drops iff it has drop rules |
| `Pipeline.EdgeDocFindings` | api/app/services/validator.py:319-566 | the same, for one serialised edge |
| `Pipeline.RaisedByEvery` | api/app/services/validator.py:319-592 | a rule that every edge raises gives one finding per edge |
| `Pipeline.UnroutedFindings` | api/app/services/validator.py:629-667 | with no outputs: the known set is empty; every edge dangles, is unsecured and ambiguous; every index is unknown; the total is three per edge plus the index and drop findings |
| `Pipeline.UnroutedDocs` | api/app/services/validator.py:277-589 | the same facts for serialised unrouted edges |
| `Pipeline.NoneUnknown` | api/app/services/validator.py:384-385 | against the empty known set every index is unknown, in order |

## Left out

- File system and configparser: the directory tree is a set of paths plus an optional listing of the
  apps directory, and each file is its list of sections already read. Reading, parse errors, `Path`
  operations and the work-directory lookup are not modelled. A missing work directory is an input flag
  that gives an error.
- configparser details are not modelled: duplicate keys, `DEFAULT` sections and interpolation. Keys
  are handled case-sensitively, as the source's parser is configured.
- Regular expressions are replaced by prefix, suffix and digit predicates. `\d` is modelled as ASCII
  digits.
- Case folding is modelled on ASCII letters only. `str.lower` of other scripts is not modelled.
- The resolver is handed `ParsedConfig` values. JSON serialisation of hosts, edges and meta is modelled
  only as the fields the validator reads. `to_dict` key names are not modelled.
- The validator reads a typed graph document. A field is absent, of the wrong type, or present. Values
  of the wrong type inside hosts and edges are not modelled.
- Finding messages are kept as plain string concatenation. Their wording is not verified.
- `build_graph_metadata` writes its statistics into the parser's own traceability dict; the model
  returns them in a separate record and leaves the parser's map unchanged. When the map already holds a
  stanza named `resolver`, the source fails with a type error; the model returns an error value.
- The metadata's `generated_at` timestamp is a parameter. `GRAPH_VERSION` and the timestamp format
  are not modelled.
- Placeholder order: the source iterates a set, so the order is unspecified. The model uses
  first-occurrence order, and the lemmas about placeholders do not depend on it.
- `resolve_and_create_graph` and the validator's database functions are not modelled, because they
  are persistence. Logging is not modelled either.
- Pipeline.PrimaryHostAsPlaceholder: a primary host named `unknown_destination`, or whose roles are
  `[unknown]`, is reported by the validator as a placeholder. This is stated and not treated as an
  error.
- Stanza metadata shares the dict with the configuration keys in the source (parser.py:308-324). A conf
  key named `_source_files` or `_source_apps` replaces the list, so the next `.append` fails. A key
  named `_source_file` or `_source_app` is overwritten by the metadata. The model keeps the metadata
  in separate fields of the stanza, so neither collision is modelled.
- ConfExtract.ExtractOutputGroup: the source stores the discovery details and the per-server
  overrides in the group's options dict, under `indexer_discovery_details` (parser.py:578-580) and
  `per_server_options` (parser.py:616-617, written by ConfExtract.AttachServerOverrides), so a conf
  key of either name is overwritten. Those values are dicts while options map to strings, so the
  model keeps them in the fields `discoveryDetails` and `perServerOptions`, and its options keep a
  conf key of either name unchanged.
- `int()` also accepts the decimal digits of other scripts (any Unicode `Nd` character). `Text.ParseInt`
  reads surrounding whitespace, an optional sign, ASCII digits and single underscores between digits.
  A `TRUNCATE` value written with other digits parses in the source and is `None` in the model.
- Unit tests that call `detect_unsecured_pipes` with three arguments do not match the source, which
  takes two. The unit tests also import `get_declared_indexes_from_meta`, which validator.py does not
  define, and expect `meta["declared_indexes"]` to count as known indexes. The code never reads that
  key: its known indexes come from edges alone. In all three cases the model follows the source.

## Findings

| source | as written | input that shows it | evidently intended | confidence | as-written member | corrected member |
|---|---|---|---|---|---|---|
| api/app/services/resolver.py:449-452 | A props stanza is marked processed under the sourcetype current when it is applied. The sourcetype it matched under may already have been rewritten by an earlier stanza of the same round. | Input with sourcetype A and host h. Props: `host::h` rewrites to B, `A` routes to `idx`, `B` rewrites to A. `(A, sourcetype A)` is marked under B, so A is applied again in round three: index `idx` and filter `TRANSFORMS:route` appear twice. | Mark each stanza with the sourcetype it was matched under, so that no `(type, value, sourcetype)` key is evaluated twice, as the comments at lines 405 and 419 say. | not executed | `TransformEval.ReappliedAsWritten` | `TransformEval.NoStanzaAppliedTwice` |

`TransformEval.ApplyTransformsToIndex` takes the marking policy as a parameter:

- `AtEvaluation` is the code as written.
- `AtMatch` is the corrected behaviour.

The edge builder (`Edges.EnabledEdges`), and everything built on it up to `Graph.BuildCanonicalGraph`,
takes the same policy as a parameter: with `AtEvaluation` it is the resolver as written, with `AtMatch`
the corrected one. Every edge, graph and pipeline lemma holds for both. `Edges.ExampleEdgeIndexes` shows
the difference on the edge built for the worked example.
