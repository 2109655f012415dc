/**
 Correlating start and completion events of a recorded trace in one pass. Events of different keys interleave
 freely; what the pass reports about a key is a matter of that key's own events alone.
 */
module EventCorrelation {
  import opened Sequences

  /** A correlation key. A record whose key is missing or empty has none. */
  datatype Key = Key(text: string)

  datatype SignalKind = Start | Completion | Unrelated

  /** A trace record as the correlation sees it; `outcome` is what the repeat rule looks at. */
  datatype Signal = Signal(kind: SignalKind, key: Option<Key>, outcome: string) {
    predicate Concerns(k: Key) {
      !kind.Unrelated? && key == Some(k)
    }
  }

  /** Whether a further completion of a key is welcome, given the key's previous completion. */
  type RepeatRule = (Signal, Signal) -> bool

  datatype Pair = Pair(key: Key, start: nat, completion: nat)

  datatype Unmatched = Unmatched(key: Key, index: nat)

  /** `order` lists the active keys in the order in which they were entered. */
  datatype Tracker = Tracker(
    active: map<Key, nat>,
    order: seq<Key>,
    seenStarts: set<Key>,
    seenCompletions: set<Key>,
    latestCompletion: map<Key, Signal>,
    pairs: seq<Pair>,
    duplicateStarts: seq<Key>,
    duplicateCompletions: seq<Key>,
    unmatched: seq<Unmatched>,
    starts: nat,
    completions: nat)

  const NOTHING := Tracker(map[], [], {}, {}, map[], [], [], [], [], 0, 0)

  function ObserveStart(t: Tracker, key: Key, index: nat): Tracker {
    t.(starts := t.starts + 1,
       duplicateStarts := t.duplicateStarts + if key in t.seenStarts then [key] else [],
       seenStarts := t.seenStarts + {key},
       active := if key in t.active then t.active else t.active[key := index],
       order := if key in t.active then t.order else t.order + [key])
  }

  predicate Accepts(t: Tracker, key: Key, s: Signal, rule: RepeatRule) {
    key in t.seenCompletions && key in t.latestCompletion && rule(s, t.latestCompletion[key])
  }

  function Without(keys: seq<Key>, key: Key): seq<Key> {
    Filter((k: Key) => k != key, keys)
  }

  /** A completion that is no welcome repeat closes the open start of its key, or is left without one. */
  function Close(t: Tracker, key: Key, index: nat): Tracker {
    t.(duplicateCompletions := t.duplicateCompletions + if key in t.seenCompletions then [key] else [],
       seenCompletions := t.seenCompletions + {key},
       active := t.active - {key},
       order := Without(t.order, key),
       pairs := t.pairs + if key in t.active then [Pair(key, t.active[key], index)] else [],
       unmatched := t.unmatched + if key in t.active then [] else [Unmatched(key, index)])
  }

  function ObserveCompletion(t: Tracker, key: Key, s: Signal, index: nat, rule: RepeatRule): Tracker {
    (if Accepts(t, key, s, rule) then t else Close(t, key, index)).(
      completions := t.completions + 1, latestCompletion := t.latestCompletion[key := s])
  }

  function Observe(t: Tracker, s: Signal, index: nat, rule: RepeatRule): Tracker {
    if s.kind.Unrelated? || s.key.None? then t
    else if s.kind.Start? then ObserveStart(t, s.key.value, index)
    else ObserveCompletion(t, s.key.value, s, index, rule)
  }

  function Correlate(trace: seq<Signal>, rule: RepeatRule): Tracker {
    if trace == [] then NOTHING
    else
      var last := |trace| - 1;
      Observe(Correlate(trace[..last], rule), trace[last], last, rule)
  }

  // ---- One key on its own ----

  /** What is known about one key; positions count in whatever list the key's events were read from. */
  datatype KeyState = KeyState(
    active: Option<nat>,
    started: bool,
    latest: Option<Signal>,
    pairs: seq<(nat, nat)>,
    unmatched: seq<nat>,
    duplicateStarts: nat,
    duplicateCompletions: nat)

  const UNSEEN := KeyState(None, false, None, [], [], 0, 0)

  function KeyClose(st: KeyState, at: nat): KeyState {
    var st' := st.(active := None, duplicateCompletions := st.duplicateCompletions + if st.latest.Some? then 1 else 0);
    if st.active.Some? then st'.(pairs := st.pairs + [(st.active.value, at)])
    else st'.(unmatched := st.unmatched + [at])
  }

  function KeyStep(st: KeyState, s: Signal, at: nat, rule: RepeatRule): KeyState {
    if s.kind.Start? then
      st.(started := true,
          duplicateStarts := st.duplicateStarts + if st.started then 1 else 0,
          active := if st.active.Some? then st.active else Some(at))
    else
      (if st.latest.Some? && rule(s, st.latest.value) then st else KeyClose(st, at)).(latest := Some(s))
  }

  /** The run of a key over its own events, numbered among themselves. */
  function KeyRun(own: seq<Signal>, rule: RepeatRule): KeyState {
    if own == [] then UNSEEN
    else
      var last := |own| - 1;
      KeyStep(KeyRun(own[..last], rule), own[last], last, rule)
  }

  function Own(trace: seq<Signal>, k: Key): seq<Signal> {
    Filter((s: Signal) => s.Concerns(k), trace)
  }

  function Positions(trace: seq<Signal>, k: Key): (positions: seq<nat>)
    ensures forall i | 0 <= i < |positions| :: positions[i] < |trace| && trace[positions[i]].Concerns(k)
    ensures forall i, j | 0 <= i < j < |positions| :: positions[i] < positions[j]
  {
    if trace == [] then []
    else
      var last := |trace| - 1;
      Positions(trace[..last], k) + if trace[last].Concerns(k) then [last] else []
  }

  lemma {:induction false} OwnAppend(trace: seq<Signal>, s: Signal, k: Key)
    ensures Own(trace + [s], k) == Own(trace, k) + if s.Concerns(k) then [s] else []
    ensures Positions(trace + [s], k) == Positions(trace, k) + if s.Concerns(k) then [|trace|] else []
  {
    FilterConcat((x: Signal) => x.Concerns(k), trace, [s]);
    assert [s][1..] == [];
    assert (trace + [s])[..|trace|] == trace;
  }

  /** All positions that a key's state mentions are below `n`. */
  predicate Within(st: KeyState, n: nat) {
    && (st.active.Some? ==> st.active.value < n)
    && (forall i | 0 <= i < |st.pairs| :: st.pairs[i].0 < n && st.pairs[i].1 < n)
    && (forall i | 0 <= i < |st.unmatched| :: st.unmatched[i] < n)
  }

  /** The same state with its own numbering translated into positions in the trace. */
  function Located(st: KeyState, positions: seq<nat>): KeyState
    requires Within(st, |positions|)
  {
    st.(active := if st.active.Some? then Some(positions[st.active.value]) else None,
        pairs := seq(|st.pairs|, i requires 0 <= i < |st.pairs| => (positions[st.pairs[i].0], positions[st.pairs[i].1])),
        unmatched := seq(|st.unmatched|, i requires 0 <= i < |st.unmatched| => positions[st.unmatched[i]]))
  }

  lemma {:induction false} LocatedClose(st: KeyState, positions: seq<nat>, index: nat)
    requires Within(st, |positions|)
    ensures Within(KeyClose(st, |positions|), |positions| + 1)
    ensures Located(KeyClose(st, |positions|), positions + [index]) == KeyClose(Located(st, positions), index)
  {
  }

  lemma {:induction false} LocatedMore(st: KeyState, positions: seq<nat>, index: nat)
    requires Within(st, |positions|)
    ensures Within(st, |positions| + 1) && Located(st, positions + [index]) == Located(st, positions)
  {
  }

  lemma {:induction false} LocatedStep(st: KeyState, positions: seq<nat>, s: Signal, index: nat, rule: RepeatRule)
    requires Within(st, |positions|)
    ensures Within(KeyStep(st, s, |positions|, rule), |positions| + 1)
    ensures Located(KeyStep(st, s, |positions|, rule), positions + [index]) ==
            KeyStep(Located(st, positions), s, index, rule)
  {
    LocatedClose(st, positions, index);
    LocatedMore(st, positions, index);
    assert Located(st, positions).latest == st.latest;
  }

  // ---- The tracker is the keys side by side ----

  function PairsOf(pairs: seq<Pair>, k: Key): seq<(nat, nat)> {
    if pairs == [] then []
    else
      var p := pairs[|pairs| - 1];
      PairsOf(pairs[..|pairs| - 1], k) + if p.key == k then [(p.start, p.completion)] else []
  }

  function UnmatchedOf(us: seq<Unmatched>, k: Key): seq<nat> {
    if us == [] then []
    else
      var u := us[|us| - 1];
      UnmatchedOf(us[..|us| - 1], k) + if u.key == k then [u.index] else []
  }

  function Count(keys: seq<Key>, k: Key): nat {
    if keys == [] then 0
    else Count(keys[..|keys| - 1], k) + if keys[|keys| - 1] == k then 1 else 0
  }

  /** What the tracker knows about one key. */
  function Slice(t: Tracker, k: Key): KeyState {
    KeyState(
      if k in t.active then Some(t.active[k]) else None,
      k in t.seenStarts,
      if k in t.latestCompletion then Some(t.latestCompletion[k]) else None,
      PairsOf(t.pairs, k),
      UnmatchedOf(t.unmatched, k),
      Count(t.duplicateStarts, k),
      Count(t.duplicateCompletions, k))
  }

  /** A key has been completed before exactly when its latest completion is on record. */
  ghost predicate Tidy(t: Tracker) {
    t.latestCompletion.Keys == t.seenCompletions
  }

  lemma {:induction false} PairsAppend(pairs: seq<Pair>, p: Pair, k: Key)
    ensures PairsOf(pairs + [p], k) == PairsOf(pairs, k) + if p.key == k then [(p.start, p.completion)] else []
  {
    assert (pairs + [p])[..|pairs|] == pairs;
  }

  lemma {:induction false} UnmatchedAppend(us: seq<Unmatched>, u: Unmatched, k: Key)
    ensures UnmatchedOf(us + [u], k) == UnmatchedOf(us, k) + if u.key == k then [u.index] else []
  {
    assert (us + [u])[..|us|] == us;
  }

  lemma {:induction false} CountAppend(keys: seq<Key>, key: Key, k: Key)
    ensures Count(keys + [key], k) == Count(keys, k) + if key == k then 1 else 0
  {
    assert (keys + [key])[..|keys|] == keys;
  }

  lemma {:induction false} ClosePairs(t: Tracker, key: Key, index: nat, k: Key)
    ensures PairsOf(Close(t, key, index).pairs, k) ==
            if k == key && key in t.active then PairsOf(t.pairs, k) + [(t.active[key], index)] else PairsOf(t.pairs, k)
  {
    if key in t.active {
      PairsAppend(t.pairs, Pair(key, t.active[key], index), k);
    } else {
      assert t.pairs + [] == t.pairs;
    }
  }

  lemma {:induction false} CloseUnmatched(t: Tracker, key: Key, index: nat, k: Key)
    ensures UnmatchedOf(Close(t, key, index).unmatched, k) ==
            if k == key && key !in t.active then UnmatchedOf(t.unmatched, k) + [index] else UnmatchedOf(t.unmatched, k)
  {
    if key in t.active {
      assert t.unmatched + [] == t.unmatched;
    } else {
      UnmatchedAppend(t.unmatched, Unmatched(key, index), k);
    }
  }

  lemma {:induction false} CloseDuplicates(t: Tracker, key: Key, index: nat, k: Key)
    ensures Count(Close(t, key, index).duplicateCompletions, k) ==
            Count(t.duplicateCompletions, k) + if k == key && key in t.seenCompletions then 1 else 0
  {
    CountAppend(t.duplicateCompletions, key, k);
    assert t.duplicateCompletions + [] == t.duplicateCompletions;
  }

  lemma {:induction false} SliceIs(t: Tracker, k: Key, st: KeyState)
    requires st.active == if k in t.active then Some(t.active[k]) else None
    requires st.started == (k in t.seenStarts)
    requires st.latest == if k in t.latestCompletion then Some(t.latestCompletion[k]) else None
    requires PairsOf(t.pairs, k) == st.pairs && UnmatchedOf(t.unmatched, k) == st.unmatched
    requires Count(t.duplicateStarts, k) == st.duplicateStarts
    requires Count(t.duplicateCompletions, k) == st.duplicateCompletions
    ensures Slice(t, k) == st
  {
  }

  lemma {:induction false} KeyStartFields(st: KeyState, s: Signal, index: nat, rule: RepeatRule)
    requires s.kind.Start?
    ensures var st' := KeyStep(st, s, index, rule);
            && st'.active == (if st.active.Some? then st.active else Some(index)) && st'.started
            && st'.latest == st.latest && st'.pairs == st.pairs && st'.unmatched == st.unmatched
            && st'.duplicateStarts == st.duplicateStarts + (if st.started then 1 else 0)
            && st'.duplicateCompletions == st.duplicateCompletions
  {
  }

  lemma {:induction false} StartDuplicates(t: Tracker, key: Key, index: nat, k: Key)
    ensures Count(ObserveStart(t, key, index).duplicateStarts, k) ==
            Count(t.duplicateStarts, k) + if k == key && key in t.seenStarts then 1 else 0
  {
    CountAppend(t.duplicateStarts, key, k);
    assert t.duplicateStarts + [] == t.duplicateStarts;
  }

  lemma {:induction false} StartOther(t: Tracker, key: Key, index: nat, k: Key)
    requires k != key
    ensures Slice(ObserveStart(t, key, index), k) == Slice(t, k)
  {
    StartDuplicates(t, key, index, k);
    SliceIs(ObserveStart(t, key, index), k, Slice(t, k));
  }

  lemma {:induction false} StartOwn(t: Tracker, key: Key, s: Signal, index: nat, rule: RepeatRule)
    requires s.kind.Start?
    ensures Slice(ObserveStart(t, key, index), key) == KeyStep(Slice(t, key), s, index, rule)
  {
    StartDuplicates(t, key, index, key);
    KeyStartFields(Slice(t, key), s, index, rule);
    SliceIs(ObserveStart(t, key, index), key, KeyStep(Slice(t, key), s, index, rule));
  }

  /** A step concerns the slice of its own key, and leaves every other slice alone. */
  lemma {:induction false} StartSlice(t: Tracker, key: Key, s: Signal, index: nat, rule: RepeatRule, k: Key)
    requires s.kind.Start?
    ensures Slice(ObserveStart(t, key, index), k) == if k == key then KeyStep(Slice(t, k), s, index, rule) else Slice(t, k)
  {
    if k == key {
      StartOwn(t, key, s, index, rule);
    } else {
      StartOther(t, key, index, k);
    }
  }

  lemma {:induction false} CloseOther(t: Tracker, key: Key, index: nat, k: Key)
    requires k != key
    ensures Slice(Close(t, key, index), k) == Slice(t, k)
  {
    ClosePairs(t, key, index, k);
    CloseUnmatched(t, key, index, k);
    CloseDuplicates(t, key, index, k);
    SliceIs(Close(t, key, index), k, Slice(t, k));
  }

  lemma {:induction false} CloseOwn(t: Tracker, key: Key, index: nat)
    requires Tidy(t)
    ensures Slice(Close(t, key, index), key) == KeyClose(Slice(t, key), index)
  {
    ClosePairs(t, key, index, key);
    CloseUnmatched(t, key, index, key);
    CloseDuplicates(t, key, index, key);
    KeyCloseFields(t, key, index);
    SliceIs(Close(t, key, index), key, KeyClose(Slice(t, key), index));
  }

  lemma {:induction false} KeyCloseFields(t: Tracker, key: Key, index: nat)
    requires Tidy(t)
    ensures var st, st' := Slice(t, key), KeyClose(Slice(t, key), index);
            && st'.active == None && st'.started == st.started && st'.latest == st.latest
            && st'.pairs == (if key in t.active then st.pairs + [(t.active[key], index)] else st.pairs)
            && st'.unmatched == (if key in t.active then st.unmatched else st.unmatched + [index])
            && st'.duplicateStarts == st.duplicateStarts
            && st'.duplicateCompletions == st.duplicateCompletions + if key in t.seenCompletions then 1 else 0
  {
  }

  lemma {:induction false} CloseSlice(t: Tracker, key: Key, index: nat, k: Key)
    requires Tidy(t)
    ensures Slice(Close(t, key, index), k) == if k == key then KeyClose(Slice(t, k), index) else Slice(t, k)
  {
    if k == key {
      CloseOwn(t, key, index);
    } else {
      CloseOther(t, key, index, k);
    }
  }

  lemma {:induction false} CompletionSlice(t: Tracker, key: Key, s: Signal, index: nat, rule: RepeatRule, k: Key)
    requires Tidy(t) && s.kind.Completion?
    ensures Slice(ObserveCompletion(t, key, s, index, rule), k) ==
            if k == key then KeyStep(Slice(t, k), s, index, rule) else Slice(t, k)
  {
    CloseSlice(t, key, index, k);
    assert key in t.seenCompletions <==> key in t.latestCompletion;
    var next := if Accepts(t, key, s, rule) then t else Close(t, key, index);
    assert Slice(ObserveCompletion(t, key, s, index, rule), k) ==
           if k == key then Slice(next, k).(latest := Some(s)) else Slice(next, k);
  }

  lemma {:induction false} ObserveTidy(t: Tracker, s: Signal, index: nat, rule: RepeatRule)
    requires Tidy(t)
    ensures Tidy(Observe(t, s, index, rule))
  {
    if s.kind.Completion? && s.key.Some? {
      assert s.key.value in t.seenCompletions <==> s.key.value in t.latestCompletion;
    }
  }

  lemma {:induction false} ObserveSlice(t: Tracker, s: Signal, index: nat, rule: RepeatRule, k: Key)
    requires Tidy(t)
    ensures Slice(Observe(t, s, index, rule), k) ==
            if s.Concerns(k) then KeyStep(Slice(t, k), s, index, rule) else Slice(t, k)
  {
    if s.key.Some? {
      if s.kind.Start? {
        StartSlice(t, s.key.value, s, index, rule, k);
      } else if s.kind.Completion? {
        CompletionSlice(t, s.key.value, s, index, rule, k);
      }
    }
  }

  lemma {:induction false} CorrelateTidy(trace: seq<Signal>, rule: RepeatRule)
    ensures Tidy(Correlate(trace, rule))
  {
    if trace != [] {
      var last := |trace| - 1;
      CorrelateTidy(trace[..last], rule);
      ObserveTidy(Correlate(trace[..last], rule), trace[last], last, rule);
    }
  }

  lemma {:induction false} KeyRunAppend(own: seq<Signal>, s: Signal, rule: RepeatRule)
    ensures KeyRun(own + [s], rule) == KeyStep(KeyRun(own, rule), s, |own|, rule)
  {
    assert (own + [s])[..|own|] == own;
  }

  /**
   What the pass knows about a key is the run of the key over its own events, whatever lies between them: only
   the positions depend on the interleaving.
   */
  lemma {:induction false} KeysAreIndependent(trace: seq<Signal>, rule: RepeatRule, k: Key)
    ensures |Positions(trace, k)| == |Own(trace, k)|
    ensures Within(KeyRun(Own(trace, k), rule), |Positions(trace, k)|)
    ensures Slice(Correlate(trace, rule), k) == Located(KeyRun(Own(trace, k), rule), Positions(trace, k))
  {
    if trace != [] {
      var last := |trace| - 1;
      var init, s := trace[..last], trace[last];
      assert trace == init + [s];
      KeysAreIndependent(init, rule, k);
      CorrelateTidy(init, rule);
      ObserveSlice(Correlate(init, rule), s, last, rule, k);
      KeyAdvances(init, s, rule, k);
    }
  }

  lemma {:induction false} KeyAdvances(init: seq<Signal>, s: Signal, rule: RepeatRule, k: Key)
    requires |Positions(init, k)| == |Own(init, k)|
    requires Within(KeyRun(Own(init, k), rule), |Positions(init, k)|)
    ensures |Positions(init + [s], k)| == |Own(init + [s], k)|
    ensures Within(KeyRun(Own(init + [s], k), rule), |Positions(init + [s], k)|)
    ensures var st := Located(KeyRun(Own(init, k), rule), Positions(init, k));
            Located(KeyRun(Own(init + [s], k), rule), Positions(init + [s], k)) ==
            if s.Concerns(k) then KeyStep(st, s, |init|, rule) else st
  {
    OwnAppend(init, s, k);
    assert Own(init, k) + [] == Own(init, k) && Positions(init, k) + [] == Positions(init, k);
    if s.Concerns(k) {
      KeyRunAppend(Own(init, k), s, rule);
      LocatedStep(KeyRun(Own(init, k), rule), Positions(init, k), s, |init|, rule);
    }
  }

  // ---- What the run of a key means ----

  predicate Related(own: seq<Signal>) {
    forall s | s in own :: !s.kind.Unrelated?
  }

  function LastCompletion(own: seq<Signal>): Option<Signal> {
    if own == [] then None
    else if own[|own| - 1].kind.Completion? then Some(own[|own| - 1])
    else LastCompletion(own[..|own| - 1])
  }

  /** A repeat that the rule allows after the completion before it. */
  predicate Welcome(own: seq<Signal>, c: nat, rule: RepeatRule)
    requires c < |own|
  {
    own[c].kind.Completion? && LastCompletion(own[..c]).Some? && rule(own[c], LastCompletion(own[..c]).value)
  }

  predicate Closes(own: seq<Signal>, c: nat, rule: RepeatRule)
    requires c < |own|
  {
    own[c].kind.Completion? && !Welcome(own, c, rule)
  }

  /** Where the stretch begins that no completion has closed yet. */
  function Since(own: seq<Signal>, rule: RepeatRule): (lo: nat)
    ensures lo <= |own|
    ensures lo > 0 ==> Closes(own, lo - 1, rule)
    ensures forall c | lo <= c < |own| :: !Closes(own, c, rule)
  {
    if own == [] then 0
    else
      var last := |own| - 1;
      if Closes(own, last, rule) then |own|
      else
        var lo := Since(own[..last], rule);
        assert forall c | 0 <= c < last :: own[..last][..c] == own[..c];
        assert forall c | 0 <= c < last :: Closes(own, c, rule) == Closes(own[..last], c, rule);
        lo
  }

  /** The first start at or after `lo`. */
  predicate Opens(own: seq<Signal>, lo: nat, s: nat) {
    lo <= s < |own| && own[s].kind.Start? && forall j | lo <= j < s :: !own[j].kind.Start?
  }

  /** The start that is open when all of `own` has been seen. */
  predicate OpenAtEnd(own: seq<Signal>, rule: RepeatRule, s: nat) {
    Opens(own, Since(own, rule), s)
  }

  lemma {:induction false} OpenAppend(own: seq<Signal>, x: Signal, rule: RepeatRule, s: nat)
    ensures Closes(own + [x], |own|, rule) ==> !OpenAtEnd(own + [x], rule, s)
    ensures !Closes(own + [x], |own|, rule) ==>
              (OpenAtEnd(own + [x], rule, s) <==>
                 OpenAtEnd(own, rule, s) || (s == |own| && x.kind.Start? && forall j: nat :: !OpenAtEnd(own, rule, j)))
  {
    var all := own + [x];
    assert all[..|own|] == own;
    var lo := Since(own, rule);
    if !Closes(all, |own|, rule) {
      assert Since(all, rule) == lo;
      if s == |own| && x.kind.Start? && forall j: nat :: !OpenAtEnd(own, rule, j) {
        forall j: nat ensures !Opens(own, lo, j) { assert !OpenAtEnd(own, rule, j); }
        NoneOpen(own, lo);
      }
    }
  }

  /** Where no first start exists there is no start at all. */
  lemma {:induction false} NoneOpen(own: seq<Signal>, lo: nat)
    requires forall j: nat :: !Opens(own, lo, j)
    ensures forall j | lo <= j < |own| :: !own[j].kind.Start?
  {
    if own != [] {
      var init := own[..|own| - 1];
      forall j: nat ensures !Opens(init, lo, j) {
        assert Opens(init, lo, j) ==> Opens(own, lo, j);
      }
      NoneOpen(init, lo);
      assert !Opens(own, lo, |own| - 1);
    }
  }

  ghost predicate IsPair(own: seq<Signal>, rule: RepeatRule, s: nat, c: nat) {
    c < |own| && Closes(own, c, rule) && OpenAtEnd(own[..c], rule, s)
  }

  ghost predicate IsUnmatched(own: seq<Signal>, rule: RepeatRule, c: nat) {
    c < |own| && Closes(own, c, rule) && forall s: nat :: !OpenAtEnd(own[..c], rule, s)
  }

  lemma {:induction false} ClosesAppend(own: seq<Signal>, x: Signal, rule: RepeatRule, c: nat)
    requires c < |own|
    ensures Closes(own + [x], c, rule) == Closes(own, c, rule) && (own + [x])[..c] == own[..c]
  {
    assert (own + [x])[..c] == own[..c];
  }

  ghost predicate Means(own: seq<Signal>, rule: RepeatRule, st: KeyState) {
    && st.latest == LastCompletion(own)
    && (forall s: nat :: st.active == Some(s) <==> OpenAtEnd(own, rule, s))
    && (forall s: nat, c: nat :: (s, c) in st.pairs <==> IsPair(own, rule, s, c))
    && (forall c: nat :: c in st.unmatched <==> IsUnmatched(own, rule, c))
  }

  lemma {:induction false} PairAppend(own: seq<Signal>, x: Signal, rule: RepeatRule, s: nat, c: nat)
    ensures IsPair(own + [x], rule, s, c) <==>
            IsPair(own, rule, s, c) || (c == |own| && Closes(own + [x], c, rule) && OpenAtEnd(own, rule, s))
    ensures IsUnmatched(own + [x], rule, c) <==>
            || IsUnmatched(own, rule, c)
            || (c == |own| && Closes(own + [x], c, rule) && forall j: nat :: !OpenAtEnd(own, rule, j))
  {
    assert (own + [x])[..|own|] == own;
    if c < |own| {
      ClosesAppend(own, x, rule, c);
    }
  }

  lemma {:induction false} StepMeans(own: seq<Signal>, x: Signal, rule: RepeatRule, st: KeyState)
    requires Means(own, rule, st) && !x.kind.Unrelated?
    ensures Means(own + [x], rule, KeyStep(st, x, |own|, rule))
  {
    var all, n, st' := own + [x], |own|, KeyStep(st, x, |own|, rule);
    assert all[..n] == own;
    assert Closes(all, n, rule) <==> x.kind.Completion? && !(st.latest.Some? && rule(x, st.latest.value));
    forall s: nat ensures st'.active == Some(s) <==> OpenAtEnd(all, rule, s) {
      OpenAppend(own, x, rule, s);
      assert st.active.Some? ==> OpenAtEnd(own, rule, st.active.value);
    }
    forall s: nat, c: nat ensures (s, c) in st'.pairs <==> IsPair(all, rule, s, c) {
      PairAppend(own, x, rule, s, c);
    }
    forall c: nat ensures c in st'.unmatched <==> IsUnmatched(all, rule, c) {
      PairAppend(own, x, rule, 0, c);
      assert st.active.Some? ==> OpenAtEnd(own, rule, st.active.value);
    }
  }

  /**
   A completion that is no welcome repeat is paired with the first start since the previous such completion, and
   is unmatched if there is none; the start still open at the end is the first one since the last of them.
   */
  lemma {:induction false} KeyRunMeans(own: seq<Signal>, rule: RepeatRule)
    requires Related(own)
    ensures Means(own, rule, KeyRun(own, rule))
  {
    if own != [] {
      var init, x := own[..|own| - 1], own[|own| - 1];
      assert own == init + [x];
      KeyRunMeans(init, rule);
      KeyRunAppend(init, x, rule);
      StepMeans(init, x, rule, KeyRun(init, rule));
    }
  }

  /** The pairs of a key are intervals that follow one another, and an open start comes after all of them. */
  ghost predicate Chronological(st: KeyState, n: nat) {
    && (forall i | 0 <= i < |st.pairs| :: st.pairs[i].0 < st.pairs[i].1 < n)
    && (forall i, j | 0 <= i < j < |st.pairs| :: st.pairs[i].1 < st.pairs[j].0)
    && (st.active.Some? ==> st.active.value < n && forall i | 0 <= i < |st.pairs| :: st.pairs[i].1 < st.active.value)
  }

  lemma {:induction false} PairsAreIntervals(own: seq<Signal>, rule: RepeatRule)
    ensures Chronological(KeyRun(own, rule), |own|)
  {
    if own != [] {
      PairsAreIntervals(own[..|own| - 1], rule);
    }
  }

  // ---- Accounts ----

  function Starts(own: seq<Signal>): nat {
    |Filter((s: Signal) => s.kind.Start?, own)|
  }

  function Completions(own: seq<Signal>): nat {
    |Filter((s: Signal) => s.kind.Completion?, own)|
  }

  /** Starts that arrive while one is open. */
  function Ignored(own: seq<Signal>, rule: RepeatRule): nat {
    if own == [] then 0
    else
      var last := |own| - 1;
      Ignored(own[..last], rule) +
      if own[last].kind.Start? && KeyRun(own[..last], rule).active.Some? then 1 else 0
  }

  function Repeats(own: seq<Signal>, rule: RepeatRule): nat {
    if own == [] then 0
    else Repeats(own[..|own| - 1], rule) + if Welcome(own, |own| - 1, rule) then 1 else 0
  }

  function One(o: Option<nat>): nat {
    if o.Some? then 1 else 0
  }

  lemma {:induction false} CountsAppend(own: seq<Signal>, x: Signal)
    ensures Starts(own + [x]) == Starts(own) + if x.kind.Start? then 1 else 0
    ensures Completions(own + [x]) == Completions(own) + if x.kind.Completion? then 1 else 0
  {
    FilterConcat((s: Signal) => s.kind.Start?, own, [x]);
    FilterConcat((s: Signal) => s.kind.Completion?, own, [x]);
    assert [x][1..] == [];
  }

  predicate Balance(st: KeyState, starts: nat, completions: nat, ignored: nat, repeats: nat) {
    && starts == |st.pairs| + One(st.active) + ignored
    && completions == |st.pairs| + |st.unmatched| + repeats
    && st.started == (starts > 0) && st.latest.Some? == (|st.pairs| + |st.unmatched| > 0)
    && st.duplicateStarts == (if starts == 0 then 0 else starts - 1)
    && st.duplicateCompletions == (if st.latest.None? then 0 else |st.pairs| + |st.unmatched| - 1)
  }

  ghost predicate Balanced(own: seq<Signal>, rule: RepeatRule, st: KeyState) {
    Balance(st, Starts(own), Completions(own), Ignored(own, rule), Repeats(own, rule))
  }

  /**
   Every start is paired, open or ignored, every completion paired, unmatched or a welcome repeat; all starts
   but the first and all closing completions but the first are flagged as duplicates.
   */
  lemma {:induction false} KeyAccounts(own: seq<Signal>, rule: RepeatRule)
    requires Related(own)
    ensures Balanced(own, rule, KeyRun(own, rule))
  {
    if own != [] {
      var init, x := own[..|own| - 1], own[|own| - 1];
      assert own == init + [x];
      KeyAccounts(init, rule);
      KeyRunMeans(init, rule);
      CountsAppend(init, x);
      AccountStep(init, x, rule, KeyRun(init, rule));
    }
  }

  lemma {:induction false} IgnoredAppend(init: seq<Signal>, x: Signal, rule: RepeatRule)
    ensures Ignored(init + [x], rule) ==
            Ignored(init, rule) + if x.kind.Start? && KeyRun(init, rule).active.Some? then 1 else 0
  {
    assert (init + [x])[..|init|] == init;
  }

  lemma {:induction false} RepeatsAppend(init: seq<Signal>, x: Signal, rule: RepeatRule)
    ensures Repeats(init + [x], rule) ==
            Repeats(init, rule) +
            if x.kind.Completion? && LastCompletion(init).Some? && rule(x, LastCompletion(init).value) then 1 else 0
  {
    assert (init + [x])[..|init|] == init;
  }

  lemma {:induction false} BalanceStep(
      st: KeyState, x: Signal, at: nat, rule: RepeatRule, starts: nat, completions: nat, ignored: nat, repeats: nat)
    requires !x.kind.Unrelated? && Balance(st, starts, completions, ignored, repeats)
    ensures Balance(
              KeyStep(st, x, at, rule),
              starts + (if x.kind.Start? then 1 else 0), completions + (if x.kind.Completion? then 1 else 0),
              ignored + (if x.kind.Start? && st.active.Some? then 1 else 0),
              repeats + (if x.kind.Completion? && st.latest.Some? && rule(x, st.latest.value) then 1 else 0))
  {
  }

  lemma {:induction false} AccountStep(init: seq<Signal>, x: Signal, rule: RepeatRule, st: KeyState)
    requires !x.kind.Unrelated? && st == KeyRun(init, rule) && st.latest == LastCompletion(init)
    requires Balanced(init, rule, st)
    ensures Balanced(init + [x], rule, KeyRun(init + [x], rule))
  {
    CountsAppend(init, x);
    IgnoredAppend(init, x, rule);
    RepeatsAppend(init, x, rule);
    KeyRunAppend(init, x, rule);
    BalanceStep(st, x, |init|, rule, Starts(init), Completions(init), Ignored(init, rule), Repeats(init, rule));
  }

  lemma {:induction false} OwnRelated(trace: seq<Signal>, k: Key)
    ensures Related(Own(trace, k))
  {
    FilterMembers((s: Signal) => s.Concerns(k), trace);
  }

  /** Two traces with the same events of a key report the same about it, up to where those events lie. */
  lemma {:induction false} InterleavingIsIrrelevant(a: seq<Signal>, b: seq<Signal>, rule: RepeatRule, k: Key)
    returns (st: KeyState)
    requires Own(a, k) == Own(b, k)
    ensures Within(st, |Positions(a, k)|) && Within(st, |Positions(b, k)|)
    ensures Slice(Correlate(a, rule), k) == Located(st, Positions(a, k))
    ensures Slice(Correlate(b, rule), k) == Located(st, Positions(b, k))
    ensures Means(Own(a, k), rule, st) && Chronological(st, |Own(a, k)|) && Balanced(Own(a, k), rule, st)
  {
    st := KeyRun(Own(a, k), rule);
    KeysAreIndependent(a, rule, k);
    KeysAreIndependent(b, rule, k);
    OwnRelated(a, k);
    KeyRunMeans(Own(a, k), rule);
    PairsAreIntervals(Own(a, k), rule);
    KeyAccounts(Own(a, k), rule);
  }

  // ---- The pass itself, and its boundary lists ----

  datatype Report = Report(
    starts: nat,
    completions: nat,
    pairs: seq<Pair>,
    startedWithoutCompletion: seq<Key>,
    completionWithoutStart: seq<Key>,
    duplicateStarts: seq<Key>,
    duplicateCompletions: seq<Key>,
    leftOpen: seq<Key>,
    rightOpen: seq<Key>)

  /** What a set remembers of a list: each key once, where it first occurs. */
  function FirstOccurrences(keys: seq<Key>): seq<Key> {
    if keys == [] then []
    else
      var last := |keys| - 1;
      FirstOccurrences(keys[..last]) + if keys[last] in keys[..last] then [] else [keys[last]]
  }

  lemma {:induction false} FirstOccurrencesMean(keys: seq<Key>)
    ensures Distinct(FirstOccurrences(keys)) && forall k :: k in FirstOccurrences(keys) <==> k in keys
  {
    if keys != [] {
      var init, k := keys[..|keys| - 1], keys[|keys| - 1];
      assert keys == init + [k];
      FirstOccurrencesMean(init);
    }
  }

  /** Where the listed keys first occur: at ascending positions. */
  lemma {:induction false} FirstOccurrencesInOrder(keys: seq<Key>) returns (at: seq<nat>)
    ensures |at| == |FirstOccurrences(keys)|
    ensures forall i | 0 <= i < |at| :: FirstAt(keys, FirstOccurrences(keys)[i], at[i])
    ensures forall i, j | 0 <= i < j < |at| :: at[i] < at[j]
  {
    at := [];
    if keys != [] {
      var init, k := keys[..|keys| - 1], keys[|keys| - 1];
      assert keys == init + [k];
      var before := FirstOccurrencesInOrder(init);
      forall i | 0 <= i < |before| ensures FirstAt(keys, FirstOccurrences(init)[i], before[i]) {
        assert FirstAt(init, FirstOccurrences(init)[i], before[i]);
      }
      if k in init {
        at := before;
      } else {
        at := before + [|init|];
        assert FirstAt(keys, k, |init|);
      }
    }
  }

  predicate FirstAt(keys: seq<Key>, k: Key, i: nat) {
    i < |keys| && keys[i] == k && k !in keys[..i]
  }

  /** Index of the first start of any key, or the length of the trace. */
  function FirstStart(trace: seq<Signal>): (index: nat)
    ensures index <= |trace| && (index < |trace| ==> trace[index].kind.Start?)
    ensures forall i | 0 <= i < index :: !trace[i].kind.Start?
  {
    if trace == [] || trace[0].kind.Start? then 0 else 1 + FirstStart(trace[1..])
  }

  /** One past the index of the last completion of any key. */
  function PastLastCompletion(trace: seq<Signal>): (end: nat)
    ensures end <= |trace| && (end > 0 ==> trace[end - 1].kind.Completion?)
    ensures forall i | end <= i < |trace| :: !trace[i].kind.Completion?
  {
    if trace == [] then 0
    else if trace[|trace| - 1].kind.Completion? then |trace|
    else PastLastCompletion(trace[..|trace| - 1])
  }

  function LeftOpen(t: Tracker, firstStart: nat): set<Key> {
    set u | u in t.unmatched && u.index < firstStart :: u.key
  }

  function RightOpen(t: Tracker, end: nat): set<Key> {
    set k | k in t.active && t.active[k] >= end
  }

  function UnmatchedKeys(us: seq<Unmatched>): (keys: seq<Key>)
    ensures |keys| == |us| && forall i | 0 <= i < |us| :: keys[i] == us[i].key
  {
    seq(|us|, i requires 0 <= i < |us| => us[i].key)
  }

  /** The keys of the completions left without a start before `firstStart`. */
  function LeftKeys(t: Tracker, firstStart: nat): seq<Key> {
    UnmatchedKeys(Filter((u: Unmatched) => u.index < firstStart, t.unmatched))
  }

  lemma {:induction false} LeftKeysMean(t: Tracker, firstStart: nat, key: Key)
    ensures key in LeftKeys(t, firstStart) <==> key in LeftOpen(t, firstStart)
  {
    var early := Filter((u: Unmatched) => u.index < firstStart, t.unmatched);
    FilterMembers((u: Unmatched) => u.index < firstStart, t.unmatched);
    if key in LeftKeys(t, firstStart) {
      var i :| 0 <= i < |early| && UnmatchedKeys(early)[i] == key;
      assert early[i] in early;
    }
    if key in LeftOpen(t, firstStart) {
      var u :| u in t.unmatched && u.index < firstStart && u.key == key;
      var i :| 0 <= i < |early| && early[i] == u;
      assert UnmatchedKeys(early)[i] == key;
    }
  }

  ghost predicate Reports(trace: seq<Signal>, rule: RepeatRule, r: Report) {
    var t := Correlate(trace, rule);
    var left, right := LeftOpen(t, FirstStart(trace)), RightOpen(t, PastLastCompletion(trace));
    && r.starts == t.starts && r.completions == t.completions && r.pairs == t.pairs
    && r.duplicateStarts == FirstOccurrences(t.duplicateStarts)
    && r.duplicateCompletions == FirstOccurrences(t.duplicateCompletions)
    && r.leftOpen == FirstOccurrences(LeftKeys(t, FirstStart(trace)))
    && r.rightOpen == FirstOccurrences(Filter((k: Key) => k in right, t.order))
    && r.startedWithoutCompletion == Filter((k: Key) => k !in right, t.order)
    && r.completionWithoutStart == UnmatchedKeys(Filter((u: Unmatched) => u.key !in left, t.unmatched))
  }

  /** The list holds exactly the active keys, by ascending position of their open starts. */
  ghost predicate InOrder(t: Tracker, n: nat) {
    && (forall k :: k in t.order <==> k in t.active)
    && (forall k | k in t.active :: t.active[k] < n)
    && (forall i, j | 0 <= i < j < |t.order| && t.order[i] in t.active && t.order[j] in t.active ::
          t.active[t.order[i]] < t.active[t.order[j]])
  }

  lemma {:induction false} OpenedInOrder(trace: seq<Signal>, rule: RepeatRule)
    ensures InOrder(Correlate(trace, rule), |trace|)
  {
    if trace != [] {
      var init, s := trace[..|trace| - 1], trace[|trace| - 1];
      OpenedInOrder(init, rule);
      var t := Correlate(init, rule);
      if s.key.Some? && s.kind.Start? && s.key.value !in t.active {
        StartInOrder(t, s.key.value, |init|);
      } else if s.key.Some? && s.kind.Completion? && !Accepts(t, s.key.value, s, rule) {
        CloseInOrder(t, s.key.value, |init|);
      }
    }
  }

  lemma {:induction false} StartInOrder(t: Tracker, key: Key, index: nat)
    requires InOrder(t, index) && key !in t.active
    ensures InOrder(ObserveStart(t, key, index), index + 1)
  {
    var t' := ObserveStart(t, key, index);
    forall i, j | 0 <= i < j < |t'.order| && t'.order[i] in t'.active && t'.order[j] in t'.active
      ensures t'.active[t'.order[i]] < t'.active[t'.order[j]]
    {
      assert t.order[i] in t.order;
      assert j < |t.order| ==> t.order[j] in t.order;
    }
  }

  lemma {:induction false} CloseInOrder(t: Tracker, key: Key, index: nat)
    requires InOrder(t, index)
    ensures InOrder(Close(t, key, index), index + 1)
  {
    FilterMembers((k: Key) => k != key, t.order);
    WithoutAscends(t.order, t.active, key);
  }

  ghost predicate Ascends(keys: seq<Key>, at: map<Key, nat>) {
    && (forall k | k in keys :: k in at)
    && forall i, j | 0 <= i < j < |keys| && keys[i] in at && keys[j] in at :: at[keys[i]] < at[keys[j]]
  }

  lemma {:induction false} WithoutAscends(keys: seq<Key>, at: map<Key, nat>, key: Key)
    requires Ascends(keys, at)
    ensures Ascends(Without(keys, key), at - {key})
  {
    FilterAscends((k: Key) => k != key, keys, at);
    FilterMembers((k: Key) => k != key, keys);
  }

  /** A start without completion is reported once, in the order of the starts, unless it is open at the right end. */
  lemma {:induction false} StartsReportedInOrder(trace: seq<Signal>, rule: RepeatRule)
    ensures var t := Correlate(trace, rule);
            var right := RightOpen(t, PastLastCompletion(trace));
            var reported := Filter((k: Key) => k !in right, t.order);
            && (forall k :: k in reported <==> k in t.active && t.active[k] < PastLastCompletion(trace))
            && Ascends(reported, t.active)
  {
    var t := Correlate(trace, rule);
    var right := RightOpen(t, PastLastCompletion(trace));
    OpenedInOrder(trace, rule);
    FilterMembers((k: Key) => k !in right, t.order);
    FilterAscends((k: Key) => k !in right, t.order, t.active);
  }

  lemma {:induction false} TailAscends(keys: seq<Key>, at: map<Key, nat>)
    requires Ascends(keys, at) && keys != []
    ensures keys[0] in at && Ascends(keys[1..], at) && forall k | k in keys[1..] :: at[keys[0]] < at[k]
  {
    assert forall i | 0 <= i < |keys| - 1 :: keys[1..][i] == keys[i + 1] && keys[i + 1] in keys;
    assert keys[0] in keys;
  }

  lemma {:induction false} HeadAscends(key: Key, rest: seq<Key>, at: map<Key, nat>)
    requires key in at && Ascends(rest, at) && forall k | k in rest :: at[key] < at[k]
    ensures Ascends([key] + rest, at)
  {
    var keys := [key] + rest;
    forall i, j | 0 <= i < j < |keys| && keys[i] in at && keys[j] in at ensures at[keys[i]] < at[keys[j]] {
      assert keys[j] == rest[j - 1] && rest[j - 1] in rest;
      assert i > 0 ==> keys[i] == rest[i - 1];
    }
  }

  lemma {:induction false} FilterAscends(p: Key -> bool, keys: seq<Key>, at: map<Key, nat>)
    requires Ascends(keys, at)
    ensures Ascends(Filter(p, keys), at)
  {
    if keys != [] {
      TailAscends(keys, at);
      FilterAscends(p, keys[1..], at);
      FilterMembers(p, keys[1..]);
      HeadAscends(keys[0], Filter(p, keys[1..]), at);
    }
  }

  /** One completion of a key that has been seen to start or not. */
  method RecordCompletion(t: Tracker, key: Key, record: Signal, index: nat, rule: RepeatRule) returns (t': Tracker)
    requires Tidy(t) && forall k | k in t.order :: k in t.active
    ensures t' == ObserveCompletion(t, key, record, index, rule)
  {
    var duplicateCompletions := t.duplicateCompletions;
    var latestCompletion := t.latestCompletion[key := record];
    assert key in t.seenCompletions <==> key in t.latestCompletion;
    if key in t.seenCompletions {
      if rule(record, t.latestCompletion[key]) {
        return t.(completions := t.completions + 1, latestCompletion := latestCompletion);
      }
      duplicateCompletions := duplicateCompletions + [key];
    }
    var active, order, pairs, unmatched := t.active, t.order, t.pairs, t.unmatched;
    if key !in active {
      unmatched := unmatched + [Unmatched(key, index)];
      assert active - {key} == active;
      FilterAll((k: Key) => k != key, order);
    } else {
      pairs := pairs + [Pair(key, active[key], index)];
      active, order := active - {key}, Without(order, key);
    }
    t' := Tracker(active, order, t.seenStarts, t.seenCompletions + {key}, latestCompletion, pairs, t.duplicateStarts,
                  duplicateCompletions, unmatched, t.starts, t.completions + 1);
  }

  method RecordStart(t: Tracker, key: Key, index: nat) returns (t': Tracker)
    ensures t' == ObserveStart(t, key, index)
  {
    t' := t.(starts := t.starts + 1);
    if key in t.seenStarts {
      t' := t'.(duplicateStarts := t.duplicateStarts + [key]);
    }
    t' := t'.(seenStarts := t.seenStarts + {key});
    if key in t.active { return; }
    t' := t'.(active := t.active[key := index], order := t.order + [key]);
  }

  method CorrelateEvents(records: seq<Signal>, rule: RepeatRule) returns (r: Report)
    ensures Reports(records, rule, r)
  {
    var t := NOTHING;
    for index := 0 to |records|
      invariant t == Correlate(records[..index], rule) && Tidy(t)
    {
      var record := records[index];
      assert records[..index + 1][..index] == records[..index];
      OpenedInOrder(records[..index], rule);
      ObserveTidy(t, record, index, rule);
      if record.kind == Unrelated || record.key == None { continue; }
      if record.kind == Start {
        t := RecordStart(t, record.key.value, index);
      } else {
        t := RecordCompletion(t, record.key.value, record, index, rule);
      }
    }
    assert records[..|records|] == records;
    var firstStart, end := FirstStart(records), PastLastCompletion(records);
    var left := set u | u in t.unmatched && u.index < firstStart :: u.key;
    var right := set k | k in t.active && t.active[k] >= end;
    r := Report(t.starts, t.completions, t.pairs, Filter((k: Key) => k !in right, t.order),
                UnmatchedKeys(Filter((u: Unmatched) => u.key !in left, t.unmatched)),
                FirstOccurrences(t.duplicateStarts), FirstOccurrences(t.duplicateCompletions),
                FirstOccurrences(LeftKeys(t, firstStart)), FirstOccurrences(Filter((k: Key) => k in right, t.order)));
  }

  /** An unmatched completion is accounted for at the left boundary or reported by its position. */
  predicate Reported(trace: seq<Signal>, rule: RepeatRule, u: Unmatched) {
    u in Filter((x: Unmatched) => x.key !in LeftOpen(Correlate(trace, rule), FirstStart(trace)),
                Correlate(trace, rule).unmatched)
  }

  /** The key completes somewhere before `n`. */
  ghost predicate CompletesBefore(trace: seq<Signal>, n: nat, key: Key) {
    exists i :: 0 <= i < n && i < |trace| && trace[i].kind.Completion? && trace[i].key == Some(key)
  }

  predicate HasUnmatched(t: Tracker, key: Key) {
    exists u | u in t.unmatched :: u.key == key
  }

  lemma {:induction false} CompletesAppend(trace: seq<Signal>, s: Signal, key: Key)
    ensures CompletesBefore(trace + [s], |trace| + 1, key) <==>
            CompletesBefore(trace, |trace|, key) || (s.kind.Completion? && s.key == Some(key))
  {
    var more := trace + [s];
    assert more[|trace|] == s;
    if CompletesBefore(trace, |trace|, key) {
      var i :| 0 <= i < |trace| && trace[i].kind.Completion? && trace[i].key == Some(key);
      assert more[i] == trace[i];
    }
    if CompletesBefore(more, |trace| + 1, key) {
      var i :| 0 <= i < |more| && more[i].kind.Completion? && more[i].key == Some(key);
      assert i < |trace| ==> trace[i] == more[i];
    }
  }

  /** Without any start, nothing is active, and the first completion of a key is left unmatched. */
  lemma {:induction false} StartFreeRun(trace: seq<Signal>, rule: RepeatRule, key: Key)
    requires forall i | 0 <= i < |trace| :: !trace[i].kind.Start?
    ensures var t := Correlate(trace, rule);
            && key !in t.active
            && (HasUnmatched(t, key) <==> CompletesBefore(trace, |trace|, key))
            && (key in t.seenCompletions <==> CompletesBefore(trace, |trace|, key))
  {
    if trace != [] {
      var init, s := trace[..|trace| - 1], trace[|trace| - 1];
      assert trace == init + [s];
      StartFreeRun(init, rule, key);
      CompletesAppend(init, s, key);
      StartFreeStep(Correlate(init, rule), s, |init|, rule, key);
    }
  }

  lemma {:induction false} StartFreeStep(t: Tracker, s: Signal, index: nat, rule: RepeatRule, key: Key)
    requires !s.kind.Start? && key !in t.active && (key in t.seenCompletions ==> HasUnmatched(t, key))
    ensures var t', completes := Observe(t, s, index, rule), s.kind.Completion? && s.key == Some(key);
            && key !in t'.active
            && (HasUnmatched(t', key) <==> HasUnmatched(t, key) || completes)
            && (key in t'.seenCompletions <==> key in t.seenCompletions || completes)
  {
    var t' := Observe(t, s, index, rule);
    if s.kind.Completion? && s.key.Some? && !Accepts(t, s.key.value, s, rule) {
      var more := if s.key.value in t.active then [] else [Unmatched(s.key.value, index)];
      assert t'.unmatched == t.unmatched + more;
      HasUnmatchedAppend(t, t', more, key);
    } else {
      assert t'.unmatched == t.unmatched;
    }
  }

  lemma {:induction false} HasUnmatchedAppend(t: Tracker, t': Tracker, more: seq<Unmatched>, key: Key)
    requires t'.unmatched == t.unmatched + more
    ensures HasUnmatched(t', key) <==> HasUnmatched(t, key) || exists u | u in more :: u.key == key
  {
    assert forall u :: u in t'.unmatched <==> u in t.unmatched || u in more;
  }

  predicate Rising(us: seq<Unmatched>) {
    forall i, j | 0 <= i < j < |us| :: us[i].index < us[j].index
  }

  lemma {:induction false} RisingAppend(us: seq<Unmatched>, u: Unmatched)
    requires Rising(us) && forall x | x in us :: x.index < u.index
    ensures Rising(us + [u])
  {
    var more := us + [u];
    forall i, j | 0 <= i < j < |more| ensures more[i].index < more[j].index {
      assert more[i] == us[i] && us[i] in us;
      assert j < |us| ==> more[j] == us[j];
    }
  }

  lemma {:induction false} RisingFilter(p: Unmatched -> bool, us: seq<Unmatched>)
    requires Rising(us)
    ensures Rising(Filter(p, us))
    decreases |us|
  {
    if us != [] {
      var init, u := us[..|us| - 1], us[|us| - 1];
      assert us == init + [u];
      FilterConcat(p, init, [u]);
      assert [u][1..] == [];
      RisingFilter(p, init);
      FilterMembers(p, init);
      forall x | x in init ensures x.index < u.index {
        var i :| 0 <= i < |init| && init[i] == x;
        assert us[i] == x && us[|us| - 1] == u;
      }
      if p(u) {
        RisingAppend(Filter(p, init), u);
      } else {
        assert Filter(p, init) + [] == Filter(p, init);
      }
    }
  }

  /** The completions without a start are kept in the order in which they came. */
  lemma {:induction false} UnmatchedRises(trace: seq<Signal>, rule: RepeatRule)
    ensures Rising(Correlate(trace, rule).unmatched)
  {
    if trace != [] {
      var init, s := trace[..|trace| - 1], trace[|trace| - 1];
      UnmatchedRises(init, rule);
      UnmatchedBelow(init, rule);
      var t, t' := Correlate(init, rule), Correlate(trace, rule);
      assert t' == Observe(t, s, |init|, rule);
      if t'.unmatched != t.unmatched {
        assert t'.unmatched == t.unmatched + [Unmatched(s.key.value, |init|)];
        RisingAppend(t.unmatched, Unmatched(s.key.value, |init|));
      }
    }
  }

  /** The completions reported without start stand in the order in which they came. */
  lemma {:induction false} CompletionsReportedInOrder(trace: seq<Signal>, rule: RepeatRule, r: Report)
    returns (us: seq<Unmatched>)
    requires Reports(trace, rule, r)
    ensures r.completionWithoutStart == UnmatchedKeys(us) && Rising(us)
    ensures forall u | u in us :: Reported(trace, rule, u)
  {
    var t := Correlate(trace, rule);
    var p := (u: Unmatched) => u.key !in LeftOpen(t, FirstStart(trace));
    us := Filter(p, t.unmatched);
    UnmatchedRises(trace, rule);
    RisingFilter(p, t.unmatched);
  }

  /** What comes later is added behind, under later positions. */
  lemma {:induction false} UnmatchedGrows(trace: seq<Signal>, n: nat, rule: RepeatRule)
    requires n <= |trace|
    ensures forall u :: u in Correlate(trace, rule).unmatched && u.index < n <==>
                        u in Correlate(trace[..n], rule).unmatched
    decreases |trace|
  {
    if n == |trace| {
      assert trace[..n] == trace;
      UnmatchedBelow(trace, rule);
    } else {
      var init, s := trace[..|trace| - 1], trace[|trace| - 1];
      assert init[..n] == trace[..n];
      UnmatchedGrows(init, n, rule);
      var t, t' := Correlate(init, rule), Correlate(trace, rule);
      assert t' == Observe(t, s, |init|, rule);
      assert t'.unmatched == t.unmatched || exists k :: t'.unmatched == t.unmatched + [Unmatched(k, |init|)];
    }
  }

  lemma {:induction false} UnmatchedBelow(trace: seq<Signal>, rule: RepeatRule)
    ensures forall u | u in Correlate(trace, rule).unmatched :: u.index < |trace|
  {
    if trace != [] {
      UnmatchedBelow(trace[..|trace| - 1], rule);
    }
  }

  /** A key counts as left open if and only if it completes before anything starts. */
  lemma {:induction false} LeftOpenIff(trace: seq<Signal>, rule: RepeatRule, key: Key)
    ensures key in LeftOpen(Correlate(trace, rule), FirstStart(trace)) <==>
            CompletesBefore(trace, FirstStart(trace), key)
  {
    var n := FirstStart(trace);
    var t, early := Correlate(trace, rule), Correlate(trace[..n], rule);
    StartFreeRun(trace[..n], rule, key);
    UnmatchedGrows(trace, n, rule);
    assert HasUnmatched(early, key) <==> key in LeftOpen(t, n) by {
      if HasUnmatched(early, key) {
        var u :| u in early.unmatched && u.key == key;
        assert u in t.unmatched && u.index < n;
      }
    }
    CompletesInPrefix(trace, n, key);
  }

  lemma {:induction false} CompletesInPrefix(trace: seq<Signal>, n: nat, key: Key)
    requires n <= |trace|
    ensures CompletesBefore(trace[..n], n, key) <==> CompletesBefore(trace, n, key)
  {
    if CompletesBefore(trace, n, key) {
      var i :| 0 <= i < n && i < |trace| && trace[i].kind.Completion? && trace[i].key == Some(key);
      assert trace[..n][i] == trace[i];
    }
    if CompletesBefore(trace[..n], n, key) {
      var i :| 0 <= i < n && trace[..n][i].kind.Completion? && trace[..n][i].key == Some(key);
      assert trace[..n][i] == trace[i];
    }
  }

  /**
   Both boundary lists name each key once: the left one those that complete before anything starts, the right one
   those whose start is still open and behind the last completion of anything.
   */
  lemma {:induction false} BoundaryListsMean(trace: seq<Signal>, rule: RepeatRule, r: Report, key: Key)
    requires Reports(trace, rule, r)
    ensures Distinct(r.leftOpen) && Distinct(r.rightOpen)
    ensures key in r.leftOpen <==> CompletesBefore(trace, FirstStart(trace), key)
    ensures var t := Correlate(trace, rule);
            key in r.rightOpen <==> key in t.active && t.active[key] >= PastLastCompletion(trace)
  {
    var t := Correlate(trace, rule);
    var right := RightOpen(t, PastLastCompletion(trace));
    FirstOccurrencesMean(LeftKeys(t, FirstStart(trace)));
    LeftKeysMean(t, FirstStart(trace), key);
    LeftOpenIff(trace, rule, key);
    FirstOccurrencesMean(Filter((k: Key) => k in right, t.order));
    FilterMembers((k: Key) => k in right, t.order);
    OpenedInOrder(trace, rule);
  }

  /**
   The boundary list works by key: an unmatched completion is reported if and only if its key does not complete
   before the first start of anything in the trace.
   */
  lemma {:induction false} ReportedIff(trace: seq<Signal>, rule: RepeatRule, u: Unmatched)
    requires u in Correlate(trace, rule).unmatched
    ensures Reported(trace, rule, u) <==> !CompletesBefore(trace, FirstStart(trace), u.key)
  {
    var t := Correlate(trace, rule);
    FilterMembers((x: Unmatched) => x.key !in LeftOpen(t, FirstStart(trace)), t.unmatched);
    LeftOpenIff(trace, rule, u.key);
  }

  predicate IsStart(s: Signal) {
    s.kind.Start? && s.key.Some?
  }

  predicate IsCompletion(s: Signal) {
    s.kind.Completion? && s.key.Some?
  }

  /** The totals count every keyed start and completion, duplicates and repeats included. */
  lemma {:induction false} TotalsCountEverything(trace: seq<Signal>, rule: RepeatRule)
    ensures Correlate(trace, rule).starts == |Filter(IsStart, trace)|
    ensures Correlate(trace, rule).completions == |Filter(IsCompletion, trace)|
  {
    if trace != [] {
      var init, s := trace[..|trace| - 1], trace[|trace| - 1];
      assert trace == init + [s];
      TotalsCountEverything(init, rule);
      FilterConcat(IsStart, init, [s]);
      FilterConcat(IsCompletion, init, [s]);
      assert [s][1..] == [];
    }
  }

  const TOOL := Some(Key("call_1"))
  const OTHER := Some(Key("call_2"))

  /** A completion left over from before the capture hides a later one of the same key that has no start either. */
  const MASKED := [Signal(Completion, TOOL, ""), Signal(Start, OTHER, ""), Signal(Completion, TOOL, "")]

  lemma {:induction false} MaskedCompletion(rule: RepeatRule)
    requires !rule(MASKED[2], MASKED[0])
    ensures Unmatched(TOOL.value, 2) in Correlate(MASKED, rule).unmatched
    ensures FirstStart(MASKED) < 2 && !Reported(MASKED, rule, Unmatched(TOOL.value, 2))
  {
    var m := MASKED;
    assert m[..2][..1] == m[..1] && m[..3] == m && m[..1][..0] == [] && m[..3][..2] == m[..2];
    var t1 := Observe(NOTHING, m[0], 0, rule);
    assert Correlate(m[..1], rule) == t1;
    var t2 := Observe(t1, m[1], 1, rule);
    assert Correlate(m[..2], rule) == t2;
    assert Correlate(m, rule) == Observe(t2, m[2], 2, rule);
    assert Correlate(m, rule).unmatched == [Unmatched(TOOL.value, 0), Unmatched(TOOL.value, 2)];
    assert FirstStart(m) == 1;
    assert m[0].kind.Completion? && m[0].key == Some(TOOL.value);
    ReportedIff(m, rule, Unmatched(TOOL.value, 2));
  }
}
