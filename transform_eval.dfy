/**
 * `apply_transforms_to_index`: which props stanzas apply to an input, and the
 * bounded loop that runs their transforms, routing to indexes, dropping, and
 * re-matching the props after a sourcetype rewrite.
 *
 * The loop remembers the props it has applied as keys `(type, value,
 * sourcetype)`. The resolver marks a stanza with the sourcetype current when
 * the stanza is APPLIED, which an earlier stanza of the same round may already
 * have rewritten, although it looks keys up with the sourcetype the round
 * MATCHED with. `Marking` selects between the two; `AtEvaluation` is the code
 * as written and `AtMatch` the evidently intended behaviour.
 */
module TransformEval {
  import opened Wrappers
  import opened Text
  import opened Order
  import opened ConfExtract

  datatype Marking = AtEvaluation | AtMatch

  type PropKey = (PropsKind, string, Option<string>)

  function Key(p: PropsStanza, sourcetype: Option<string>): PropKey {
    (p.kind, p.value, sourcetype)
  }

  /** The cap on rounds of props matching. */
  const MaxIterations: nat := 10

  /**
   * The loop's variables: current indexes, applied filters and drop rules,
   * current sourcetype, the processed keys, whether this round rewrote the
   * sourcetype, the rounds run, and a log of each stanza applied with the
   * sourcetype it was matched under.
   */
  datatype EvalState = EvalState(
    indexes: seq<string>, filters: seq<string>, drops: seq<string>,
    sourcetype: Option<string>, processed: set<PropKey>, changed: bool, rounds: nat,
    log: seq<(PropsStanza, Option<string>)>)

  /** The index an input starts in: its own, or `main`. */
  function InitialIndex(input: InputStanza): string {
    if Truthy(input.index) then input.index.value else "main"
  }

  function InitialState(input: InputStanza): EvalState {
    EvalState([InitialIndex(input)], [], [], input.sourcetype, {}, false, 0, [])
  }

  // ---------------------------------------------------------------------------
  // Which props apply

  /** A `source::` value ending in `*` matches every path with the prefix before the `*`. */
  predicate SourceMatches(value: string, path: string) {
    value == path || (IsSuffix("*", value) && IsPrefix(value[..|value| - 1], path))
  }

  predicate PropMatches(input: InputStanza, p: PropsStanza, sourcetype: Option<string>) {
    || (p.kind == SourcetypeStanza && Some(p.value) == sourcetype)
    || (p.kind == SourceStanza && Truthy(input.sourcePath) && SourceMatches(p.value, input.sourcePath.value))
    || (p.kind == HostStanza && Some(p.value) == input.host)
  }

  predicate Eligible(input: InputStanza, p: PropsStanza, sourcetype: Option<string>, processed: set<PropKey>) {
    Key(p, sourcetype) !in processed && PropMatches(input, p, sourcetype)
  }

  /** The props that match and are not yet processed, in props order. */
  function MatchedInOrder(input: InputStanza, props: seq<PropsStanza>, sourcetype: Option<string>,
                          processed: set<PropKey>): (ms: seq<PropsStanza>)
    ensures forall p :: p in ms <==> p in props && Eligible(input, p, sourcetype, processed)
    ensures NoDup(props) ==> NoDup(ms)
    decreases |props|
  {
    if props == [] then []
    else
      var init := props[..|props| - 1];
      var p := props[|props| - 1];
      var prev := MatchedInOrder(input, init, sourcetype, processed);
      assert props == init + [p];
      assert NoDup(props) ==> NoDup(init) && p !in init;
      if Eligible(input, p, sourcetype, processed) then prev + [p] else prev
  }

  /** The stanzas of one type, in order. */
  function OfKind(ms: seq<PropsStanza>, kind: PropsKind): (r: seq<PropsStanza>)
    ensures forall p :: p in r <==> p in ms && p.kind == kind
    ensures NoDup(ms) ==> NoDup(r)
    decreases |ms|
  {
    if ms == [] then []
    else
      var init := ms[..|ms| - 1];
      var p := ms[|ms| - 1];
      assert ms == init + [p];
      assert NoDup(ms) ==> NoDup(init) && p !in init;
      var prev := OfKind(init, kind);
      if p.kind == kind then prev + [p] else prev
  }

  /** The precedence sort, descending and stable: host stanzas, then source, then sourcetype. */
  function ByPrecedence(ms: seq<PropsStanza>): (r: seq<PropsStanza>)
    ensures forall p :: p in r <==> p in ms && p.kind != DefaultStanza
    ensures NoDup(ms) ==> NoDup(r)
  {
    var h, s, t := OfKind(ms, HostStanza), OfKind(ms, SourceStanza), OfKind(ms, SourcetypeStanza);
    assert NoDup(ms) ==> NoDup(h + s + t) by {
      if NoDup(ms) {
        NoDupConcat(h, s);
        NoDupConcat(h + s, t);
      }
    }
    h + s + t
  }

  lemma NoDupConcat(a: seq<PropsStanza>, b: seq<PropsStanza>)
    requires NoDup(a) && NoDup(b)
    requires forall p :: p in a ==> p !in b
    ensures NoDup(a + b)
  {
    forall i, j | 0 <= i < j < |a + b| ensures (a + b)[i] != (a + b)[j] {
      if i < |a| && j >= |a| {
        assert (a + b)[i] in a && (a + b)[j] == b[j - |a|];
      }
    }
  }

  function Matching(input: InputStanza, props: seq<PropsStanza>, sourcetype: Option<string>,
                    processed: set<PropKey>): seq<PropsStanza> {
    ByPrecedence(MatchedInOrder(input, props, sourcetype, processed))
  }

  // ---------------------------------------------------------------------------
  // Applying transforms

  /** `next((t for t in transforms if t.stanza_name == ref), None)` */
  function FindTransform(ts: seq<TransformStanza>, ref: string): (r: Option<TransformStanza>)
    ensures r.Some? ==> r.value in ts && r.value.name == ref
    ensures r.None? <==> forall i :: 0 <= i < |ts| ==> ts[i].name != ref
  {
    if ts == [] then None
    else if ts[0].name == ref then Some(ts[0])
    else
      var r := FindTransform(ts[1..], ref);
      assert forall i :: 0 < i < |ts| ==> ts[i] == ts[1..][i - 1];
      r
  }

  /** One transform reference: index routing, drop, sourcetype rewrite; a missing one is skipped. */
  function ApplyRef(st: EvalState, ref: string, ts: seq<TransformStanza>): (r: EvalState)
    ensures FindTransform(ts, ref).None? ==> r == st
    ensures FindTransform(ts, ref).Some? && FindTransform(ts, ref).value.flags.isDrop
            ==> r.indexes == [] && r.drops == st.drops + ["DROP:" + ref]
    ensures r.processed == st.processed && r.log == st.log && r.rounds == st.rounds
    ensures st.changed ==> r.changed
    ensures FindTransform(ts, ref).Some? ==>
              var t := FindTransform(ts, ref).value;
              var routes := t.flags.isIndexRouting && Truthy(t.format);
              var rewrites := t.flags.isSourcetypeRewrite && Truthy(t.format);
              && r.indexes == (if t.flags.isDrop then [] else st.indexes + if routes then [t.format.value] else [])
              && r.filters == st.filters + (if routes then ["TRANSFORMS:" + ref] else [])
                                         + (if rewrites then ["SOURCETYPE_REWRITE:" + ref] else [])
              && r.drops == st.drops + (if t.flags.isDrop then ["DROP:" + ref] else [])
              && r.sourcetype == (if rewrites then Some(t.format.value) else st.sourcetype)
              && (r.changed <==> st.changed || (rewrites && Some(t.format.value) != st.sourcetype))
  {
    match FindTransform(ts, ref)
    case None => st
    case Some(t) =>
      var s1 := if t.flags.isIndexRouting && Truthy(t.format)
                then st.(indexes := st.indexes + [t.format.value], filters := st.filters + ["TRANSFORMS:" + ref])
                else st;
      var s2 := if t.flags.isDrop then s1.(drops := s1.drops + ["DROP:" + ref], indexes := []) else s1;
      if t.flags.isSourcetypeRewrite && Truthy(t.format) then
        var s3 := s2.(filters := s2.filters + ["SOURCETYPE_REWRITE:" + ref]);
        if Some(t.format.value) != s3.sourcetype then s3.(sourcetype := Some(t.format.value), changed := true) else s3
      else s2
  }

  function ApplyRefs(st: EvalState, refs: seq<string>, ts: seq<TransformStanza>): (r: EvalState)
    ensures r.processed == st.processed && r.log == st.log && r.rounds == st.rounds
    decreases |refs|
  {
    if refs == [] then st else ApplyRef(ApplyRefs(st, refs[..|refs| - 1], ts), refs[|refs| - 1], ts)
  }

  /** The key a stanza is marked with, under each policy. */
  function MarkKey(policy: Marking, p: PropsStanza, matched: Option<string>, current: Option<string>): PropKey {
    if policy == AtMatch then Key(p, matched) else Key(p, current)
  }

  /** One matched stanza: mark it processed, then run its transforms in order. */
  function ApplyProp(st: EvalState, p: PropsStanza, matched: Option<string>, policy: Marking,
                     ts: seq<TransformStanza>): EvalState {
    var marked := st.(processed := st.processed + {MarkKey(policy, p, matched, st.sourcetype)},
                      log := st.log + [(p, matched)]);
    ApplyRefs(marked, p.transforms, ts)
  }

  /** Each stanza tagged with the sourcetype it was matched under. */
  function Tagged(ps: seq<PropsStanza>, matched: Option<string>): (r: seq<(PropsStanza, Option<string>)>)
    ensures |r| == |ps| && forall i :: 0 <= i < |ps| ==> r[i] == (ps[i], matched)
  {
    seq(|ps|, i requires 0 <= i < |ps| => (ps[i], matched))
  }

  function KeySet(ps: seq<PropsStanza>, matched: Option<string>): set<PropKey> {
    set p | p in ps :: Key(p, matched)
  }

  function ApplyProps(st: EvalState, ps: seq<PropsStanza>, matched: Option<string>, policy: Marking,
                      ts: seq<TransformStanza>): (r: EvalState)
    ensures st.processed <= r.processed && r.rounds == st.rounds
    decreases |ps|
  {
    if ps == [] then st
    else ApplyProp(ApplyProps(st, ps[..|ps| - 1], matched, policy, ts), ps[|ps| - 1], matched, policy, ts)
  }

  /** Applying stanzas logs each of them, in order, with the sourcetype matched. */
  lemma {:induction false} ApplyPropsLog(st: EvalState, ps: seq<PropsStanza>, matched: Option<string>, policy: Marking,
                                         ts: seq<TransformStanza>)
    ensures ApplyProps(st, ps, matched, policy, ts).log == st.log + Tagged(ps, matched)
    decreases |ps|
  {
    if ps == [] {
      assert st.log + Tagged(ps, matched) == st.log;
    } else {
      var init := ps[..|ps| - 1];
      var p := ps[|ps| - 1];
      ApplyPropsLog(st, init, matched, policy, ts);
      var prev := ApplyProps(st, init, matched, policy, ts);
      assert ApplyProps(st, ps, matched, policy, ts).log == prev.log + [(p, matched)];
      assert Tagged(ps, matched) == Tagged(init, matched) + [(p, matched)];
    }
  }

  /** Marking at match time, applying stanzas processes exactly their keys. */
  lemma {:induction false} ApplyPropsKeys(st: EvalState, ps: seq<PropsStanza>, matched: Option<string>,
                                          ts: seq<TransformStanza>)
    ensures ApplyProps(st, ps, matched, AtMatch, ts).processed == st.processed + KeySet(ps, matched)
    decreases |ps|
  {
    if ps == [] {
      assert KeySet(ps, matched) == {};
    } else {
      var init := ps[..|ps| - 1];
      var p := ps[|ps| - 1];
      ApplyPropsKeys(st, init, matched, ts);
      var prev := ApplyProps(st, init, matched, AtMatch, ts);
      assert ApplyProps(st, ps, matched, AtMatch, ts).processed == prev.processed + {Key(p, matched)};
      assert ps == init + [p];
      assert KeySet(ps, matched) == KeySet(init, matched) + {Key(p, matched)};
    }
  }

  /** The outcome of one round: the new state, and whether the loop goes on. */
  datatype Step = Step(state: EvalState, more: bool)

  /** One round: nothing matching ends the loop; otherwise it goes on only if the sourcetype was rewritten. */
  function Round(input: InputStanza, props: seq<PropsStanza>, ts: seq<TransformStanza>,
                 policy: Marking, st: EvalState): (r: Step)
    ensures r.state.rounds == st.rounds + 1
  {
    RoundOn(st.(rounds := st.rounds + 1), Matching(input, props, st.sourcetype, st.processed), ts, policy)
  }

  /** A round that matched `ms`, from the state `st1` with the round counted. */
  function RoundOn(st1: EvalState, ms: seq<PropsStanza>, ts: seq<TransformStanza>, policy: Marking): Step {
    if ms == [] then Step(st1, false)
    else
      var st2 := ApplyProps(st1.(changed := false), ms, st1.sourcetype, policy, ts);
      Step(st2, st2.changed)
  }

  /** The bounded loop: at most `fuel` more steps, stopping after a step that asks for no more. */
  function Loop(fuel: nat, step: EvalState -> Step, st: EvalState): EvalState
    decreases fuel
  {
    if fuel == 0 then st
    else
      var s := step(st);
      if s.more then Loop(fuel - 1, step, s.state) else s.state
  }

  /** Steps that each count one round make a loop that counts at most `fuel` of them. */
  lemma {:induction false} LoopCounts(fuel: nat, step: EvalState -> Step, st: EvalState)
    requires forall x :: step(x).state.rounds == x.rounds + 1
    ensures st.rounds <= Loop(fuel, step, st).rounds <= st.rounds + fuel
    decreases fuel
  {
    if fuel > 0 && step(st).more {
      LoopCounts(fuel - 1, step, step(st).state);
    }
  }

  /** Whatever one step preserves holds after the whole loop. */
  lemma {:induction false} LoopPreserves(fuel: nat, step: EvalState -> Step, st: EvalState, inv: EvalState -> bool)
    requires inv(st)
    requires forall x :: inv(x) ==> inv(step(x).state)
    ensures inv(Loop(fuel, step, st))
    decreases fuel
  {
    if fuel > 0 && step(st).more {
      LoopPreserves(fuel - 1, step, step(st).state, inv);
    }
  }

  /** The props loop: at most `fuel` more rounds. */
  function Rounds(fuel: nat, input: InputStanza, props: seq<PropsStanza>, ts: seq<TransformStanza>,
                  policy: Marking, st: EvalState): (r: EvalState)
    ensures st.rounds <= r.rounds <= st.rounds + fuel
  {
    var step := x => Round(input, props, ts, policy, x);
    LoopCounts(fuel, step, st);
    Loop(fuel, step, st)
  }

  function Evaluate(input: InputStanza, props: seq<PropsStanza>, ts: seq<TransformStanza>, policy: Marking): (r: EvalState)
    ensures r.rounds <= MaxIterations
  {
    Rounds(MaxIterations, input, props, ts, policy, InitialState(input))
  }

  // ---------------------------------------------------------------------------
  // The loop as the resolver writes it

  /** The props loop, collecting matches in props order before the precedence sort. */
  method FindMatchingProps(input: InputStanza, props: seq<PropsStanza>, sourcetype: Option<string>,
                           processed: set<PropKey>) returns (ms: seq<PropsStanza>)
    ensures ms == Matching(input, props, sourcetype, processed)
  {
    var found: seq<PropsStanza> := [];
    for i := 0 to |props|
      invariant found == MatchedInOrder(input, props[..i], sourcetype, processed)
    {
      assert props[..i + 1][..i] == props[..i];
      if Eligible(input, props[i], sourcetype, processed) {
        found := found + [props[i]];
      }
    }
    assert props[..|props|] == props;
    ms := ByPrecedence(found);
  }

  method ApplyMatchedProps(st: EvalState, ms: seq<PropsStanza>, matched: Option<string>, policy: Marking,
                           ts: seq<TransformStanza>) returns (r: EvalState)
    ensures r == ApplyProps(st, ms, matched, policy, ts)
  {
    r := st;
    for j := 0 to |ms|
      invariant r == ApplyProps(st, ms[..j], matched, policy, ts)
    {
      var p := ms[j];
      ApplyPropsSnoc(st, ms, j, matched, policy, ts);
      r := r.(processed := r.processed + {MarkKey(policy, p, matched, r.sourcetype)}, log := r.log + [(p, matched)]);
      r := ApplyTransformRefs(r, p.transforms, ts);
    }
    assert ms[..|ms|] == ms;
  }

  lemma ApplyPropsSnoc(st: EvalState, ms: seq<PropsStanza>, j: int, matched: Option<string>, policy: Marking,
                       ts: seq<TransformStanza>)
    requires 0 <= j < |ms|
    ensures ApplyProps(st, ms[..j + 1], matched, policy, ts)
         == ApplyProp(ApplyProps(st, ms[..j], matched, policy, ts), ms[j], matched, policy, ts)
  {
    assert ms[..j + 1][..j] == ms[..j];
  }

  /** `for ref in props.transforms`: each reference in order. */
  method ApplyTransformRefs(st: EvalState, refs: seq<string>, ts: seq<TransformStanza>) returns (r: EvalState)
    ensures r == ApplyRefs(st, refs, ts)
  {
    r := st;
    for k := 0 to |refs|
      invariant r == ApplyRefs(st, refs[..k], ts)
    {
      assert refs[..k + 1][..k] == refs[..k];
      r := ApplyRef(r, refs[k], ts);
    }
    assert refs[..|refs|] == refs;
  }

  /** One pass of the resolver's `while` body. */
  method RunRound(input: InputStanza, props: seq<PropsStanza>, ts: seq<TransformStanza>,
                  policy: Marking, st: EvalState) returns (r: Step)
    ensures r == Round(input, props, ts, policy, st)
  {
    var ms := FindMatchingProps(input, props, st.sourcetype, st.processed);
    r := RunMatched(st.(rounds := st.rounds + 1), ms, ts, policy);
  }

  /** The rest of the pass, once the matching props are known. */
  method RunMatched(st1: EvalState, ms: seq<PropsStanza>, ts: seq<TransformStanza>, policy: Marking) returns (r: Step)
    ensures r == RoundOn(st1, ms, ts, policy)
  {
    if ms == [] {
      r := Step(st1, false);
    } else {
      var st2 := ApplyMatchedProps(st1.(changed := false), ms, st1.sourcetype, policy, ts);
      r := Step(st2, st2.changed);
    }
  }

  /** `apply_transforms_to_index`: the final indexes, the filters applied and the drop rules. */
  method ApplyTransformsToIndex(input: InputStanza, props: seq<PropsStanza>, ts: seq<TransformStanza>,
                                policy: Marking) returns (indexes: seq<string>, filters: seq<string>, drops: seq<string>)
    ensures var r := Evaluate(input, props, ts, policy); indexes == r.indexes && filters == r.filters && drops == r.drops
  {
    var st := InitialState(input);
    var iteration: nat := 0;
    var done := false;
    while iteration < MaxIterations && !done
      invariant iteration <= MaxIterations && st.rounds == iteration
      invariant done ==> st == Evaluate(input, props, ts, policy)
      invariant !done ==> Rounds(MaxIterations - iteration, input, props, ts, policy, st) == Evaluate(input, props, ts, policy)
      decreases MaxIterations - iteration, !done
    {
      var step := RunRound(input, props, ts, policy, st);
      iteration := iteration + 1;
      st := step.state;
      done := !step.more;
    }
    indexes, filters, drops := st.indexes, st.filters, st.drops;
  }

  // ---------------------------------------------------------------------------
  // Properties

  /** With no props matching the input, it keeps its starting index and nothing is applied. */
  lemma NoMatchKeepsIndex(input: InputStanza, props: seq<PropsStanza>, ts: seq<TransformStanza>, policy: Marking)
    requires Matching(input, props, input.sourcetype, {}) == []
    ensures var r := Evaluate(input, props, ts, policy);
            r.indexes == [InitialIndex(input)] && r.filters == [] && r.drops == [] && r.rounds == 1
  {
  }

  /** Something is routed to an index `x` when a reachable transform routes there. */
  predicate RoutesTo(ts: seq<TransformStanza>, x: string) {
    exists t :: t in ts && t.flags.isIndexRouting && t.format == Some(x)
  }

  /**
   * What the indexes can be: the starting index or a routing target, and only
   * routing targets once anything was dropped; every drop rule names a drop transform.
   */
  predicate Sound(st: EvalState, start: string, ts: seq<TransformStanza>) {
    && (forall x :: x in st.indexes ==> x == start || RoutesTo(ts, x))
    && (st.drops != [] ==> forall x :: x in st.indexes ==> RoutesTo(ts, x))
    && (forall d :: d in st.drops ==> exists t :: t in ts && t.flags.isDrop && d == "DROP:" + t.name)
  }

  lemma ApplyRefSound(st: EvalState, ref: string, ts: seq<TransformStanza>, start: string)
    requires Sound(st, start, ts)
    ensures Sound(ApplyRef(st, ref, ts), start, ts)
  {
    var r := ApplyRef(st, ref, ts);
    if FindTransform(ts, ref).Some? {
      var t := FindTransform(ts, ref).value;
      if t.flags.isIndexRouting && Truthy(t.format) {
        assert RoutesTo(ts, t.format.value);
      }
      if t.flags.isDrop {
        assert "DROP:" + ref == "DROP:" + t.name;
      }
      assert forall d :: d in r.drops ==> d in st.drops || d == "DROP:" + t.name;
    }
  }

  lemma {:induction false} ApplyRefsSound(st: EvalState, refs: seq<string>, ts: seq<TransformStanza>, start: string)
    requires Sound(st, start, ts)
    ensures Sound(ApplyRefs(st, refs, ts), start, ts)
    decreases |refs|
  {
    if refs != [] {
      ApplyRefsSound(st, refs[..|refs| - 1], ts, start);
      ApplyRefSound(ApplyRefs(st, refs[..|refs| - 1], ts), refs[|refs| - 1], ts, start);
    }
  }

  lemma {:induction false} ApplyPropsSound(st: EvalState, ps: seq<PropsStanza>, matched: Option<string>, policy: Marking,
                                           ts: seq<TransformStanza>, start: string)
    requires Sound(st, start, ts)
    ensures Sound(ApplyProps(st, ps, matched, policy, ts), start, ts)
    decreases |ps|
  {
    if ps != [] {
      var init := ps[..|ps| - 1];
      var p := ps[|ps| - 1];
      ApplyPropsSound(st, init, matched, policy, ts, start);
      var prev := ApplyProps(st, init, matched, policy, ts);
      var marked := prev.(processed := prev.processed + {MarkKey(policy, p, matched, prev.sourcetype)},
                          log := prev.log + [(p, matched)]);
      ApplyRefsSound(marked, p.transforms, ts, start);
    }
  }

  lemma RoundSound(input: InputStanza, props: seq<PropsStanza>, ts: seq<TransformStanza>,
                   policy: Marking, st: EvalState, start: string)
    requires Sound(st, start, ts)
    ensures Sound(Round(input, props, ts, policy, st).state, start, ts)
  {
    var st1, ms := st.(rounds := st.rounds + 1), Matching(input, props, st.sourcetype, st.processed);
    var s := Round(input, props, ts, policy, st);
    assert s == RoundOn(st1, ms, ts, policy);
    RoundOnSound(st1, ms, ts, policy, start);
  }

  lemma RoundOnSound(st1: EvalState, ms: seq<PropsStanza>, ts: seq<TransformStanza>, policy: Marking, start: string)
    requires Sound(st1, start, ts)
    ensures Sound(RoundOn(st1, ms, ts, policy).state, start, ts)
  {
    if ms != [] {
      ApplyPropsSound(st1.(changed := false), ms, st1.sourcetype, policy, ts, start);
    }
  }

  lemma RoundsSound(fuel: nat, input: InputStanza, props: seq<PropsStanza>, ts: seq<TransformStanza>,
                    policy: Marking, st: EvalState, start: string)
    requires Sound(st, start, ts)
    ensures Sound(Rounds(fuel, input, props, ts, policy, st), start, ts)
  {
    forall x | Sound(x, start, ts) ensures Sound(Round(input, props, ts, policy, x).state, start, ts) {
      RoundSound(input, props, ts, policy, x, start);
    }
    LoopPreserves(fuel, x => Round(input, props, ts, policy, x), st, x => Sound(x, start, ts));
  }

  /**
   * The evaluation's indexes are the input's starting index or routing targets,
   * only routing targets once something was dropped, and its drop rules name drop transforms.
   */
  lemma EvaluateSound(input: InputStanza, props: seq<PropsStanza>, ts: seq<TransformStanza>, policy: Marking)
    ensures Sound(Evaluate(input, props, ts, policy), InitialIndex(input), ts)
  {
    RoundsSound(MaxIterations, input, props, ts, policy, InitialState(input), InitialIndex(input));
  }

  /** Every applied stanza is remembered, under its matched key, and none was applied twice. */
  predicate LogSound(st: EvalState) {
    && NoDup(st.log)
    && forall i :: 0 <= i < |st.log| ==> Key(st.log[i].0, st.log[i].1) in st.processed
  }

  lemma RoundKeepsLogSound(st: EvalState, ms: seq<PropsStanza>, ts: seq<TransformStanza>)
    requires LogSound(st) && NoDup(ms)
    requires forall p :: p in ms ==> Key(p, st.sourcetype) !in st.processed
    ensures LogSound(ApplyProps(st, ms, st.sourcetype, AtMatch, ts))
  {
    ApplyPropsLog(st, ms, st.sourcetype, AtMatch, ts);
    ApplyPropsKeys(st, ms, st.sourcetype, ts);
    AppendedLogSound(st.log, st.processed, ms, st.sourcetype);
  }

  /** A log stays free of repeats when stanzas whose keys are not yet processed are appended and processed. */
  lemma AppendedLogSound(log: seq<(PropsStanza, Option<string>)>, processed: set<PropKey>, ms: seq<PropsStanza>,
                         matched: Option<string>)
    requires NoDup(log) && forall i :: 0 <= i < |log| ==> Key(log[i].0, log[i].1) in processed
    requires NoDup(ms) && forall p :: p in ms ==> Key(p, matched) !in processed
    ensures var l := log + Tagged(ms, matched);
            && NoDup(l)
            && forall i :: 0 <= i < |l| ==> Key(l[i].0, l[i].1) in processed + KeySet(ms, matched)
  {
    var tags := Tagged(ms, matched);
    var l := log + tags;
    forall i, j | 0 <= i < j < |l| ensures l[i] != l[j] {
      if j >= |log| && i < |log| {
        assert l[j] == tags[j - |log|] && ms[j - |log|] in ms;
        assert Key(l[i].0, l[i].1) in processed;
      } else if i >= |log| {
        assert l[i] == tags[i - |log|] && l[j] == tags[j - |log|];
      }
    }
    forall i | 0 <= i < |l| ensures Key(l[i].0, l[i].1) in processed + KeySet(ms, matched) {
      if i >= |log| {
        assert l[i] == tags[i - |log|] && ms[i - |log|] in ms;
      }
    }
  }

  lemma RoundKeepsLog(input: InputStanza, props: seq<PropsStanza>, ts: seq<TransformStanza>, st: EvalState)
    requires LogSound(st) && NoDup(props)
    ensures LogSound(Round(input, props, ts, AtMatch, st).state)
  {
    var st1 := st.(rounds := st.rounds + 1);
    var ms := Matching(input, props, st.sourcetype, st.processed);
    if ms != [] {
      RoundKeepsLogSound(st1.(changed := false), ms, ts);
    }
  }

  lemma RoundsKeepLogSound(fuel: nat, input: InputStanza, props: seq<PropsStanza>,
                           ts: seq<TransformStanza>, st: EvalState)
    requires LogSound(st) && NoDup(props)
    ensures LogSound(Rounds(fuel, input, props, ts, AtMatch, st))
  {
    forall x | LogSound(x) ensures LogSound(Round(input, props, ts, AtMatch, x).state) {
      RoundKeepsLog(input, props, ts, x);
    }
    LoopPreserves(fuel, x => Round(input, props, ts, AtMatch, x), st, LogSound);
  }

  /**
   * Marking each stanza with the sourcetype it matched under, no props stanza
   * is ever applied twice under the same sourcetype.
   */
  lemma NoStanzaAppliedTwice(input: InputStanza, props: seq<PropsStanza>, ts: seq<TransformStanza>)
    requires NoDup(props)
    ensures NoDup(Evaluate(input, props, ts, AtMatch).log)
  {
    RoundsKeepLogSound(MaxIterations, input, props, ts, InitialState(input));
  }

  // ---------------------------------------------------------------------------
  // A stanza re-applied: the input has sourcetype A and host h; `host::h`
  // rewrites the sourcetype to B, stanza A routes to index `idx`, stanza B
  // rewrites back to A. Marking at evaluation stores A's key under B, so the
  // third round applies stanza A again and routes to `idx` a second time.

  const ExampleProvenance := Provenance("props.conf", None, ["props.conf"], [None])
  const ExampleInput := InputStanza("monitor:///x", Monitor, Some("/x"), None, Some("A"), None, Some("h"),
                                    false, [], ExampleProvenance)
  const HostProps := PropsStanza("host::h", HostStanza, "h", ["toB"], None, None, None, [], ExampleProvenance)
  const AProps := PropsStanza("A", SourcetypeStanza, "A", ["route"], None, None, None, [], ExampleProvenance)
  const BProps := PropsStanza("B", SourcetypeStanza, "B", ["toA"], None, None, None, [], ExampleProvenance)
  const ExampleProps := [HostProps, AProps, BProps]

  function Rewrite(name: string, target: string): TransformStanza {
    TransformStanza(name, Some("."), Some(target), Some("_MetaData:Sourcetype"), None, None, None,
                    TransformFlags(false, false, true, false), [], ExampleProvenance)
  }
  const Route := TransformStanza("route", Some("."), Some("idx"), Some("_MetaData:Index"), None, None, None,
                                 TransformFlags(false, true, false, false), [], ExampleProvenance)
  const ExampleTransforms := [Rewrite("toB", "B"), Route, Rewrite("toA", "A")]

  /** The example's flags are those the parser derives from its DEST_KEY and FORMAT settings. */
  lemma ExampleTransformsParsed()
    ensures forall t :: t in ExampleTransforms ==> t.flags == ClassifyTransform(t.destKey, t.format)
  {
    assert Lower("_MetaData:Sourcetype") == "_metadata:sourcetype";
    assert Lower("_MetaData:Index") == "_metadata:index";
  }

  lemma MatchedSnoc(input: InputStanza, ps: seq<PropsStanza>, p: PropsStanza, sourcetype: Option<string>,
                    processed: set<PropKey>)
    ensures MatchedInOrder(input, ps + [p], sourcetype, processed)
            == MatchedInOrder(input, ps, sourcetype, processed) + (if Eligible(input, p, sourcetype, processed) then [p] else [])
  {
    assert (ps + [p])[..|ps|] == ps;
  }

  lemma ApplyPropsOne(st: EvalState, p: PropsStanza, matched: Option<string>, policy: Marking, ts: seq<TransformStanza>)
    ensures ApplyProps(st, [p], matched, policy, ts) == ApplyProp(st, p, matched, policy, ts)
  {
    assert [p][..0] == [];
  }

  lemma ApplyPropsTwo(st: EvalState, p: PropsStanza, q: PropsStanza, matched: Option<string>, policy: Marking,
                      ts: seq<TransformStanza>)
    ensures ApplyProps(st, [p, q], matched, policy, ts)
            == ApplyProp(ApplyProp(st, p, matched, policy, ts), q, matched, policy, ts)
  {
    assert [p, q][..1] == [p];
    ApplyPropsOne(st, p, matched, policy, ts);
  }

  lemma ApplyPropOneRef(st: EvalState, p: PropsStanza, matched: Option<string>, policy: Marking, ts: seq<TransformStanza>)
    requires |p.transforms| == 1
    ensures ApplyProp(st, p, matched, policy, ts)
            == ApplyRef(st.(processed := st.processed + {MarkKey(policy, p, matched, st.sourcetype)},
                            log := st.log + [(p, matched)]), p.transforms[0], ts)
  {
    var marked := st.(processed := st.processed + {MarkKey(policy, p, matched, st.sourcetype)},
                      log := st.log + [(p, matched)]);
    assert p.transforms[..0] == [];
    assert ApplyRefs(marked, p.transforms[..0], ts) == marked;
  }

  lemma FindTransformCons(t: TransformStanza, ts: seq<TransformStanza>, ref: string)
    ensures FindTransform([t] + ts, ref) == if t.name == ref then Some(t) else FindTransform(ts, ref)
  {
    assert ([t] + ts)[1..] == ts;
  }

  lemma ExampleLookups()
    ensures FindTransform(ExampleTransforms, "toB") == Some(Rewrite("toB", "B"))
    ensures FindTransform(ExampleTransforms, "route") == Some(Route)
    ensures FindTransform(ExampleTransforms, "toA") == Some(Rewrite("toA", "A"))
  {
    assert "toB" != "toA" && "route" != "toA" && "toB" != "route";
    FindTransformCons(Rewrite("toA", "A"), [], "toA");
    FindTransformCons(Route, [Rewrite("toA", "A")], "toA");
    FindTransformCons(Route, [Rewrite("toA", "A")], "route");
    FindTransformCons(Rewrite("toB", "B"), [Route, Rewrite("toA", "A")], "toA");
    FindTransformCons(Rewrite("toB", "B"), [Route, Rewrite("toA", "A")], "route");
    assert ExampleTransforms == [Rewrite("toB", "B")] + [Route, Rewrite("toA", "A")];
    assert [Route, Rewrite("toA", "A")] == [Route] + [Rewrite("toA", "A")];
    assert [Rewrite("toA", "A")] == [Rewrite("toA", "A")] + [];
  }

  lemma OfKindSnoc(ms: seq<PropsStanza>, p: PropsStanza, kind: PropsKind)
    ensures OfKind(ms + [p], kind) == OfKind(ms, kind) + (if p.kind == kind then [p] else [])
  {
    assert (ms + [p])[..|ms|] == ms;
  }

  lemma ExampleMatchedOne()
    ensures MatchedInOrder(ExampleInput, ExampleProps, Some("A"), {}) == [HostProps, AProps]
  {
    assert Eligible(ExampleInput, HostProps, Some("A"), {});
    assert Eligible(ExampleInput, AProps, Some("A"), {});
    assert !Eligible(ExampleInput, BProps, Some("A"), {}) by { assert "B" != "A"; }
    MatchedSnoc(ExampleInput, [], HostProps, Some("A"), {});
    MatchedSnoc(ExampleInput, [HostProps], AProps, Some("A"), {});
    MatchedSnoc(ExampleInput, [HostProps, AProps], BProps, Some("A"), {});
    assert [] + [HostProps] == [HostProps];
    assert ExampleProps == [HostProps, AProps] + [BProps];
  }

  lemma PrecedenceHostThenType(h: PropsStanza, t: PropsStanza)
    requires h.kind == HostStanza && t.kind == SourcetypeStanza
    ensures ByPrecedence([h, t]) == [h, t]
  {
    OfKindPair(h, t, HostStanza);
    OfKindPair(h, t, SourceStanza);
    OfKindPair(h, t, SourcetypeStanza);
    assert [h] + [] + [t] == [h, t];
  }

  lemma OfKindPair(p: PropsStanza, q: PropsStanza, kind: PropsKind)
    ensures OfKind([p, q], kind) == (if p.kind == kind then [p] else []) + (if q.kind == kind then [q] else [])
  {
    assert [p, q] == [p] + [q];
    assert [p] == [] + [p];
    OfKindSnoc([], p, kind);
    OfKindSnoc([p], q, kind);
  }

  lemma ExampleMatchOne()
    ensures Matching(ExampleInput, ExampleProps, Some("A"), {}) == [HostProps, AProps]
  {
    ExampleMatchedOne();
    PrecedenceHostThenType(HostProps, AProps);
  }

  /** After round one the sourcetype is B and stanza A's key depends on the marking. */
  function AfterRoundOne(policy: Marking): EvalState {
    EvalState(["main", "idx"], ["SOURCETYPE_REWRITE:toB", "TRANSFORMS:route"], [], Some("B"),
              {Key(HostProps, Some("A")), MarkKey(policy, AProps, Some("A"), Some("B"))}, true, 1,
              [(HostProps, Some("A")), (AProps, Some("A"))])
  }

  const StartOfRoundOne := EvalState(["main"], [], [], Some("A"), {}, false, 1, [])

  lemma ExampleHostInRoundOne(policy: Marking)
    ensures ApplyProp(StartOfRoundOne, HostProps, Some("A"), policy, ExampleTransforms) == HostAppliedInRoundOne
  {
    ExampleLookups();
    ApplyPropOneRef(StartOfRoundOne, HostProps, Some("A"), policy, ExampleTransforms);
    var marked := StartOfRoundOne.(processed := {Key(HostProps, Some("A"))}, log := [(HostProps, Some("A"))]);
    assert HostProps.transforms[0] == "toB";
    assert "SOURCETYPE_REWRITE:" + "toB" == "SOURCETYPE_REWRITE:toB";
    assert "B" != "" && "B" != "A";
    assert ApplyRef(marked, "toB", ExampleTransforms)
           == marked.(filters := ["SOURCETYPE_REWRITE:toB"], sourcetype := Some("B"), changed := true);
  }

  const HostAppliedInRoundOne := EvalState(["main"], ["SOURCETYPE_REWRITE:toB"], [], Some("B"),
                                           {Key(HostProps, Some("A"))}, true, 1, [(HostProps, Some("A"))])

  lemma ExampleAInRoundOne(policy: Marking)
    ensures ApplyProp(HostAppliedInRoundOne, AProps, Some("A"), policy, ExampleTransforms) == AfterRoundOne(policy)
  {
    ExampleLookups();
    ApplyPropOneRef(HostAppliedInRoundOne, AProps, Some("A"), policy, ExampleTransforms);
    var marked := HostAppliedInRoundOne.(
      processed := {Key(HostProps, Some("A")), MarkKey(policy, AProps, Some("A"), Some("B"))},
      log := [(HostProps, Some("A")), (AProps, Some("A"))]);
    assert AProps.transforms[0] == "route";
    assert "TRANSFORMS:" + "route" == "TRANSFORMS:route";
    assert "idx" != "";
    assert ApplyRef(marked, "route", ExampleTransforms)
           == marked.(indexes := ["main", "idx"], filters := ["SOURCETYPE_REWRITE:toB", "TRANSFORMS:route"]);
  }

  lemma ExampleRoundOne(policy: Marking)
    ensures Round(ExampleInput, ExampleProps, ExampleTransforms, policy, InitialState(ExampleInput))
            == Step(AfterRoundOne(policy), true)
  {
    ExampleMatchOne();
    assert InitialState(ExampleInput).(rounds := 1).(changed := false) == StartOfRoundOne;
    ApplyPropsTwo(StartOfRoundOne, HostProps, AProps, Some("A"), policy, ExampleTransforms);
    ExampleHostInRoundOne(policy);
    ExampleAInRoundOne(policy);
  }

  lemma PrecedenceOfOne(p: PropsStanza)
    requires p.kind != DefaultStanza
    ensures ByPrecedence([p]) == [p]
  {
    assert [p] == [] + [p];
    OfKindSnoc([], p, HostStanza);
    OfKindSnoc([], p, SourceStanza);
    OfKindSnoc([], p, SourcetypeStanza);
  }

  lemma ExampleMatchTwo(policy: Marking)
    ensures Matching(ExampleInput, ExampleProps, Some("B"), AfterRoundOne(policy).processed) == [HostProps, BProps]
  {
    var done := AfterRoundOne(policy).processed;
    assert "B" != "A";
    assert Eligible(ExampleInput, HostProps, Some("B"), done);
    assert !Eligible(ExampleInput, AProps, Some("B"), done);
    assert Eligible(ExampleInput, BProps, Some("B"), done);
    MatchedSnoc(ExampleInput, [], HostProps, Some("B"), done);
    MatchedSnoc(ExampleInput, [HostProps], AProps, Some("B"), done);
    MatchedSnoc(ExampleInput, [HostProps, AProps], BProps, Some("B"), done);
    assert [] + [HostProps] == [HostProps];
    assert ExampleProps == [HostProps, AProps] + [BProps];
    assert [HostProps] + [] == [HostProps] && [HostProps] + [BProps] == [HostProps, BProps];
    assert MatchedInOrder(ExampleInput, ExampleProps, Some("B"), done) == [HostProps, BProps];
    PrecedenceHostThenType(HostProps, BProps);
  }

  function HostAppliedInRoundTwo(policy: Marking): EvalState {
    EvalState(["main", "idx"], ["SOURCETYPE_REWRITE:toB", "TRANSFORMS:route", "SOURCETYPE_REWRITE:toB"], [], Some("B"),
              AfterRoundOne(policy).processed + {Key(HostProps, Some("B"))}, false, 2,
              [(HostProps, Some("A")), (AProps, Some("A")), (HostProps, Some("B"))])
  }

  function AfterRoundTwo(policy: Marking): EvalState {
    EvalState(["main", "idx"],
              ["SOURCETYPE_REWRITE:toB", "TRANSFORMS:route", "SOURCETYPE_REWRITE:toB", "SOURCETYPE_REWRITE:toA"], [],
              Some("A"), AfterRoundOne(policy).processed + {Key(HostProps, Some("B")), Key(BProps, Some("B"))}, true, 2,
              [(HostProps, Some("A")), (AProps, Some("A")), (HostProps, Some("B")), (BProps, Some("B"))])
  }

  lemma ExampleHostInRoundTwo(policy: Marking)
    ensures ApplyProp(AfterRoundOne(policy).(rounds := 2, changed := false), HostProps, Some("B"), policy, ExampleTransforms)
            == HostAppliedInRoundTwo(policy)
  {
    var st := AfterRoundOne(policy).(rounds := 2, changed := false);
    ExampleLookups();
    ApplyPropOneRef(st, HostProps, Some("B"), policy, ExampleTransforms);
    var marked := st.(processed := st.processed + {Key(HostProps, Some("B"))}, log := st.log + [(HostProps, Some("B"))]);
    assert HostProps.transforms[0] == "toB";
    assert "SOURCETYPE_REWRITE:" + "toB" == "SOURCETYPE_REWRITE:toB";
    assert "B" != "";
    assert ApplyRef(marked, "toB", ExampleTransforms) == marked.(filters := marked.filters + ["SOURCETYPE_REWRITE:toB"]);
  }

  lemma ExampleBInRoundTwo(policy: Marking)
    ensures ApplyProp(HostAppliedInRoundTwo(policy), BProps, Some("B"), policy, ExampleTransforms) == AfterRoundTwo(policy)
  {
    var st := HostAppliedInRoundTwo(policy);
    ExampleLookups();
    ApplyPropOneRef(st, BProps, Some("B"), policy, ExampleTransforms);
    var marked := st.(processed := st.processed + {Key(BProps, Some("B"))}, log := st.log + [(BProps, Some("B"))]);
    assert BProps.transforms[0] == "toA";
    assert "SOURCETYPE_REWRITE:" + "toA" == "SOURCETYPE_REWRITE:toA";
    assert "A" != "" && "A" != "B";
    assert ApplyRef(marked, "toA", ExampleTransforms)
           == marked.(filters := marked.filters + ["SOURCETYPE_REWRITE:toA"], sourcetype := Some("A"), changed := true);
  }

  lemma ExampleRoundTwo(policy: Marking)
    ensures Round(ExampleInput, ExampleProps, ExampleTransforms, policy, AfterRoundOne(policy))
            == Step(AfterRoundTwo(policy), true)
  {
    ExampleMatchTwo(policy);
    ApplyPropsTwo(AfterRoundOne(policy).(rounds := 2, changed := false), HostProps, BProps, Some("B"), policy, ExampleTransforms);
    ExampleHostInRoundTwo(policy);
    ExampleBInRoundTwo(policy);
  }

  lemma ExampleMatchThree(policy: Marking)
    ensures Matching(ExampleInput, ExampleProps, Some("A"), AfterRoundTwo(policy).processed)
            == if policy == AtEvaluation then [AProps] else []
  {
    var done := AfterRoundTwo(policy).processed;
    assert "B" != "A";
    assert !Eligible(ExampleInput, HostProps, Some("A"), done);
    assert Eligible(ExampleInput, AProps, Some("A"), done) <==> policy == AtEvaluation;
    assert !Eligible(ExampleInput, BProps, Some("A"), done);
    MatchedSnoc(ExampleInput, [], HostProps, Some("A"), done);
    MatchedSnoc(ExampleInput, [HostProps], AProps, Some("A"), done);
    MatchedSnoc(ExampleInput, [HostProps, AProps], BProps, Some("A"), done);
    assert [] + [HostProps] == [HostProps];
    assert ExampleProps == [HostProps, AProps] + [BProps];
    if policy == AtEvaluation {
      assert [] + [AProps] == [AProps] && [AProps] + [] == [AProps];
      assert MatchedInOrder(ExampleInput, ExampleProps, Some("A"), done) == [AProps];
      PrecedenceOfOne(AProps);
    } else {
      assert MatchedInOrder(ExampleInput, ExampleProps, Some("A"), done) == [];
    }
  }

  /** As written, the third round applies stanza A again. */
  function AfterRoundThreeAsWritten(): EvalState {
    var st := AfterRoundTwo(AtEvaluation);
    EvalState(["main", "idx", "idx"], st.filters + ["TRANSFORMS:route"], [], Some("A"),
              st.processed + {Key(AProps, Some("A"))}, false, 3, st.log + [(AProps, Some("A"))])
  }

  lemma ExampleAInRoundThree()
    ensures ApplyProp(AfterRoundTwo(AtEvaluation).(rounds := 3, changed := false), AProps, Some("A"), AtEvaluation,
                      ExampleTransforms) == AfterRoundThreeAsWritten()
  {
    var st := AfterRoundTwo(AtEvaluation).(rounds := 3, changed := false);
    ExampleLookups();
    ApplyPropOneRef(st, AProps, Some("A"), AtEvaluation, ExampleTransforms);
    var marked := st.(processed := st.processed + {Key(AProps, Some("A"))}, log := st.log + [(AProps, Some("A"))]);
    assert AProps.transforms[0] == "route";
    assert "TRANSFORMS:" + "route" == "TRANSFORMS:route";
    assert "idx" != "";
    assert ApplyRef(marked, "route", ExampleTransforms)
           == marked.(indexes := ["main", "idx", "idx"], filters := marked.filters + ["TRANSFORMS:route"]);
  }

  lemma ExampleRoundThreeAsWritten()
    ensures Round(ExampleInput, ExampleProps, ExampleTransforms, AtEvaluation, AfterRoundTwo(AtEvaluation))
            == Step(AfterRoundThreeAsWritten(), false)
  {
    ExampleMatchThree(AtEvaluation);
    ApplyPropsOne(AfterRoundTwo(AtEvaluation).(rounds := 3, changed := false), AProps, Some("A"), AtEvaluation, ExampleTransforms);
    ExampleAInRoundThree();
  }

  lemma ExampleRounds(policy: Marking)
    ensures Evaluate(ExampleInput, ExampleProps, ExampleTransforms, policy)
            == Round(ExampleInput, ExampleProps, ExampleTransforms, policy, AfterRoundTwo(policy)).state
  {
    ExampleRoundOne(policy);
    ExampleRoundTwo(policy);
    ExampleMatchThree(policy);
    var r3 := Round(ExampleInput, ExampleProps, ExampleTransforms, policy, AfterRoundTwo(policy));
    if policy == AtEvaluation {
      ExampleRoundThreeAsWritten();
    }
    assert !r3.more;
    assert Rounds(8, ExampleInput, ExampleProps, ExampleTransforms, policy, AfterRoundTwo(policy)) == r3.state;
  }

  lemma ExampleResultAsWritten()
    ensures Evaluate(ExampleInput, ExampleProps, ExampleTransforms, AtEvaluation) == AfterRoundThreeAsWritten()
  {
    ExampleRounds(AtEvaluation);
    ExampleRoundThreeAsWritten();
  }

  /**
   * As written, stanza A is applied twice under sourcetype A, and the input is
   * routed to `idx` twice with the routing filter recorded twice.
   */
  lemma ReappliedAsWritten()
    ensures var r := Evaluate(ExampleInput, ExampleProps, ExampleTransforms, AtEvaluation);
            && r.indexes == ["main", "idx", "idx"]
            && r.filters == ["SOURCETYPE_REWRITE:toB", "TRANSFORMS:route", "SOURCETYPE_REWRITE:toB",
                             "SOURCETYPE_REWRITE:toA", "TRANSFORMS:route"]
            && |r.log| == 5 && r.log[1] == r.log[4] == (AProps, Some("A"))
            && !NoDup(r.log)
  {
    ExampleResultAsWritten();
    RoundThreeAsWrittenFacts();
  }

  lemma RoundThreeAsWrittenFacts()
    ensures var r := AfterRoundThreeAsWritten();
            && r.indexes == ["main", "idx", "idx"]
            && r.filters == ["SOURCETYPE_REWRITE:toB", "TRANSFORMS:route", "SOURCETYPE_REWRITE:toB",
                             "SOURCETYPE_REWRITE:toA", "TRANSFORMS:route"]
            && |r.log| == 5 && r.log[1] == r.log[4] == (AProps, Some("A"))
            && !NoDup(r.log)
  {
    var r := AfterRoundThreeAsWritten();
    assert r.log == [(HostProps, Some("A")), (AProps, Some("A")), (HostProps, Some("B")), (BProps, Some("B")),
                     (AProps, Some("A"))];
    assert r.log[1] == r.log[4];
  }

  /** Marking at match time, the third round finds nothing left to apply. */
  lemma AppliedOnceCorrected()
    ensures var r := Evaluate(ExampleInput, ExampleProps, ExampleTransforms, AtMatch);
            && r.indexes == ["main", "idx"]
            && r.filters == ["SOURCETYPE_REWRITE:toB", "TRANSFORMS:route", "SOURCETYPE_REWRITE:toB", "SOURCETYPE_REWRITE:toA"]
            && r.rounds == 3
  {
    ExampleRounds(AtMatch);
    ExampleMatchThree(AtMatch);
  }

}
