/**
 Compactions racing with writers. A compaction prepares a candidate, waits for a summary, and only then builds
 and installs its plan; meanwhile records are appended, tool results are replaced and other compactions finish.
 The staleness check compares the identities of the objects that every write replaces.
 */
module CompactionRace {
  import opened Sequences
  import opened Identifiers
  import opened Transcript
  import opened RoundCut
  import opened ClaudeProjector
  import opened Compaction
  import opened ContextRuns

  /** What a candidate remembers of the state it was prepared from. */
  datatype Work = Work(
    mode: Mode, pivotId: Option<Id>, cut: nat, candidate: Candidate,
    recordsStamp: nat, replacementsStamp: nat, watermark: Id)

  /** A compaction that awaits its summary. `seen` and `writes` are history; no step reads them. */
  datatype Waiting = Waiting(work: Work, seen: Context, writes: nat)

  /** Every write puts a fresh object in place, so an object's identity is the number of the write that made it. */
  datatype System = System(
    context: Context, options: Options, watermark: Option<Id>,
    recordsStamp: nat, replacementsStamp: nat, writes: nat,
    waiting: map<nat, Waiting>)

  datatype Step =
    | Write(op: Op, watermark: Option<Id>)
    | Replace(options: Options)
    | Prepare(runner: nat, mode: Mode, pivotId: Option<Id>, cut: nat, commitId: Id)
    | GiveUp(runner: nat)
    | Finish(runner: nat, summary: string, extras: Extras)

  predicate Stale(s: System, work: Work) {
    || s.recordsStamp != work.recordsStamp
    || s.replacementsStamp != work.replacementsStamp
    || s.watermark != Some(work.watermark)
    || s.context.epoch + 1 != work.candidate.nextEpoch
  }

  function Without(waiting: map<nat, Waiting>, runner: nat): map<nat, Waiting> {
    map i | i in waiting && i != runner :: waiting[i]
  }

  ghost predicate Prepares(s: System, step: Step, s': System)
    requires step.Prepare?
  {
    && step.runner !in s.waiting
    && IsCut(SourceRecords(s.context.records), step.mode, step.pivotId, step.cut)
    && var candidate := Offer(s.context, step.mode, step.pivotId, step.commitId, step.cut);
       s' ==
       if candidate.None? || s.watermark.None? then s
       else
         var work := Work(step.mode, step.pivotId, step.cut, candidate.value,
                          s.recordsStamp, s.replacementsStamp, s.watermark.value);
         s.(waiting := s.waiting[step.runner := Waiting(work, s.context, s.writes)])
  }

  /** Plan and install, in one go: nothing is awaited between the staleness check and the assignments. */
  ghost predicate Finishes(s: System, step: Step, s': System)
    requires step.Finish?
  {
    && step.runner in s.waiting
    && var work, done := s.waiting[step.runner].work, s.(waiting := Without(s.waiting, step.runner));
       if Stale(s, work) then s' == done
       else
         && FreshExtras(s.context, work.candidate.commitId, step.extras)
         && (s.options.claude || s.context.checkpoint.None?)
         && var next := Compacted(s.context, Some(work.candidate), step.summary, step.extras, s.options);
            // A refused plan leaves the context as it is; an installed one is an epoch further.
            s' == if next == s.context then done
                  else done.(context := next, recordsStamp := s.writes + 1, writes := s.writes + 1)
  }

  ghost predicate Moves(s: System, step: Step, s': System) {
    match step
    case Write(op, watermark) =>
      // A Snip is mounted under the owner's mutation, so no compaction is waiting then; anyone may append.
      && (op.Append? || (op.Snip? && s.waiting == map[])) && Next(s.context, op, s'.context)
      && s' == s.(context := s'.context, watermark := watermark, recordsStamp := s.writes + 1, writes := s.writes + 1)
    case Replace(options) =>
      s' == s.(options := options, replacementsStamp := s.writes + 1, writes := s.writes + 1)
    case Prepare(_, _, _, _, _) => Prepares(s, step, s')
    case GiveUp(runner) => runner in s.waiting && s' == s.(waiting := Without(s.waiting, runner))
    case Finish(_, _, _) => Finishes(s, step, s')
  }

  predicate Initial(s: System) {
    s.context == EMPTY && s.waiting == map[] && s.recordsStamp <= s.writes && s.replacementsStamp <= s.writes
  }

  ghost predicate IsTrace(ss: seq<System>, steps: seq<Step>) {
    && |ss| == |steps| + 1 && Initial(ss[0])
    && forall i | 0 <= i < |steps| :: Moves(ss[i], steps[i], ss[i + 1])
  }

  // ---- What the stamps tell ----

  ghost predicate Remembers(s: System, w: Waiting) {
    && IsCandidate(w.seen, w.work.mode, w.work.pivotId, w.work.candidate.commitId, w.work.cut, Some(w.work.candidate))
    && w.work.recordsStamp <= w.writes && w.work.replacementsStamp <= w.writes <= s.writes
    && (s.writes == w.writes ==>
          && s.context == w.seen && s.watermark == Some(w.work.watermark)
          && s.recordsStamp == w.work.recordsStamp && s.replacementsStamp == w.work.replacementsStamp)
    && (s.writes > w.writes ==> s.recordsStamp > w.writes || s.replacementsStamp > w.writes)
  }

  ghost predicate Consistent(s: System) {
    && s.recordsStamp <= s.writes && s.replacementsStamp <= s.writes
    && forall i | i in s.waiting :: Remembers(s, s.waiting[i])
  }

  lemma {:induction false} CandidateEpoch(
      c: Context, mode: Mode, pivotId: Option<Id>, commitId: Id, cut: nat, candidate: Candidate)
    requires IsCandidate(c, mode, pivotId, commitId, cut, Some(candidate))
    ensures candidate.nextEpoch == c.epoch + 1 && candidate.commitId == commitId
  {
  }

  /** The check is exact: a candidate is stale if and only if something was written since it was prepared. */
  lemma {:induction false} StaleIffWritten(s: System, runner: nat)
    requires Consistent(s) && runner in s.waiting
    ensures Stale(s, s.waiting[runner].work) <==> s.writes != s.waiting[runner].writes
  {
    var w := s.waiting[runner];
    assert Remembers(s, w);
    CandidateEpoch(w.seen, w.work.mode, w.work.pivotId, w.work.candidate.commitId, w.work.cut, w.work.candidate);
  }

  lemma {:induction false} PrepareConsistent(s: System, step: Step, s': System)
    requires Consistent(s) && step.Prepare? && Prepares(s, step, s')
    ensures Consistent(s')
  {
    if s' != s {
      var candidate := Offer(s.context, step.mode, step.pivotId, step.commitId, step.cut);
      CandidateEpoch(s.context, step.mode, step.pivotId, step.commitId, step.cut, candidate.value);
      forall i | i in s'.waiting ensures Remembers(s', s'.waiting[i]) {
        if i != step.runner {
          assert Remembers(s, s.waiting[i]);
        }
      }
    }
  }

  /** A write only ever raises a stamp above everything that any waiting compaction has seen. */
  lemma {:induction false} WriteRemembered(s: System, s': System, w: Waiting)
    requires s.recordsStamp <= s.writes && s.replacementsStamp <= s.writes && Remembers(s, w)
    requires s'.writes == s.writes + 1
    requires s'.recordsStamp == s'.writes || s'.replacementsStamp == s'.writes
    ensures Remembers(s', w)
  {
  }

  lemma {:induction false} SameRemembered(s: System, s': System, w: Waiting)
    requires Remembers(s, w) && s' == s.(waiting := s'.waiting)
    ensures Remembers(s', w)
  {
  }

  /** Apart from preparing, a step takes nobody into the wait, and a write leaves a fresh stamp. */
  lemma {:induction false} MoveKeepsWaiting(s: System, step: Step, s': System)
    requires Moves(s, step, s') && !step.Prepare?
    ensures forall i | i in s'.waiting :: i in s.waiting && s'.waiting[i] == s.waiting[i]
    ensures s'.writes == s.writes ==> s' == s.(waiting := s'.waiting)
    ensures s'.writes != s.writes ==>
              s'.writes == s.writes + 1 && (s'.recordsStamp == s'.writes || s'.replacementsStamp == s'.writes)
    ensures s'.recordsStamp in {s.recordsStamp, s'.writes} && s'.replacementsStamp in {s.replacementsStamp, s'.writes}
  {
  }

  lemma {:induction false} MoveConsistent(s: System, step: Step, s': System)
    requires Consistent(s) && Moves(s, step, s')
    ensures Consistent(s')
  {
    if step.Prepare? {
      PrepareConsistent(s, step, s');
    } else {
      MoveKeepsWaiting(s, step, s');
      forall i | i in s'.waiting ensures Remembers(s', s'.waiting[i]) {
        if s'.writes == s.writes {
          SameRemembered(s, s', s.waiting[i]);
        } else {
          WriteRemembered(s, s', s.waiting[i]);
        }
      }
    }
  }

  lemma {:induction false} TraceConsistent(ss: seq<System>, steps: seq<Step>)
    requires IsTrace(ss, steps)
    ensures Consistent(ss[|steps|])
  {
    if steps != [] {
      var n := |steps| - 1;
      TraceConsistent(ss[..n + 1], steps[..n]);
      MoveConsistent(ss[n], steps[n], ss[n + 1]);
    }
  }

  /**
   In every interleaving: a compaction that finishes after any write is refused and changes nothing but its own
   wait; one that finishes without a write in between works on exactly the state it was prepared from.
   */
  lemma {:induction false} FinishesOnlyUnwritten(ss: seq<System>, steps: seq<Step>, k: nat)
    requires IsTrace(ss, steps) && k < |steps| && steps[k].Finish?
    ensures steps[k].runner in ss[k].waiting
    ensures var w := ss[k].waiting[steps[k].runner];
            && (ss[k].writes != w.writes ==> ss[k + 1] == ss[k].(waiting := ss[k + 1].waiting))
            && (ss[k].writes == w.writes ==>
                  && ss[k].context == w.seen
                  && FromSource(ss[k].context, w.work.candidate)
                  && ss[k + 1].context ==
                     Compacted(w.seen, Some(w.work.candidate), steps[k].summary, steps[k].extras, ss[k].options))
  {
    TraceConsistent(ss[..k + 1], steps[..k]);
    assert Moves(ss[k], steps[k], ss[k + 1]);
    StaleIffWritten(ss[k], steps[k].runner);
    var w := ss[k].waiting[steps[k].runner];
    assert Remembers(ss[k], w);
    CandidateFromSource(
      w.seen, w.work.mode, w.work.pivotId, w.work.candidate.commitId, w.work.cut, Some(w.work.candidate));
  }

  /** Of the compactions that wait at any time, the first install makes every other one stale for good. */
  lemma {:induction false} FirstInstallWins(ss: seq<System>, steps: seq<Step>, k: nat, m: nat)
    requires IsTrace(ss, steps) && k < m < |steps| && steps[k].Finish? && steps[m].Finish?
    requires ss[k + 1].context != ss[k].context
    requires steps[m].runner in ss[m].waiting && ss[m].waiting[steps[m].runner].writes <= ss[k].writes
    ensures ss[m + 1].context == ss[m].context
  {
    WritesGrow(ss, steps, k + 1, m);
    assert Moves(ss[k], steps[k], ss[k + 1]);
    FinishesOnlyUnwritten(ss, steps, m);
  }

  lemma {:induction false} MoveGrows(s: System, step: Step, s': System)
    requires Moves(s, step, s')
    ensures s.writes <= s'.writes <= s.writes + 1
  {
  }

  lemma {:induction false} StepGrows(ss: seq<System>, steps: seq<Step>, k: nat)
    requires IsTrace(ss, steps) && k < |steps|
    ensures ss[k].writes <= ss[k + 1].writes
  {
    MoveGrows(ss[k], steps[k], ss[k + 1]);
  }

  lemma {:induction false} Monotone(ns: seq<nat>, i: nat, j: nat)
    requires i <= j < |ns| && forall k | 0 <= k < |ns| - 1 :: ns[k] <= ns[k + 1]
    ensures ns[i] <= ns[j]
    decreases j
  {
    if i < j {
      Monotone(ns, i, j - 1);
    }
  }

  lemma {:induction false} WritesGrow(ss: seq<System>, steps: seq<Step>, i: nat, j: nat)
    requires IsTrace(ss, steps) && i <= j <= |steps|
    ensures ss[i].writes <= ss[j].writes
  {
    var ns := seq(|ss|, k requires 0 <= k < |ss| => ss[k].writes);
    forall k | 0 <= k < |ns| - 1 ensures ns[k] <= ns[k + 1] {
      StepGrows(ss, steps, k);
    }
    Monotone(ns, i, j);
  }

  // ---- Every interleaving is a sequential run ----

  /** What a step does to the conversation, as one atomic operation or none. */
  function Effect(s: System, step: Step): seq<Op> {
    match step
    case Write(op, _) => [op]
    case Finish(runner, summary, extras) =>
      if runner in s.waiting && !Stale(s, s.waiting[runner].work) then
        var work := s.waiting[runner].work;
        [Compact(work.mode, work.pivotId, work.cut, work.candidate.commitId, summary, extras, s.options)]
      else []
    case _ => []
  }

  function Effects(ss: seq<System>, steps: seq<Step>): seq<Op>
    requires |ss| == |steps| + 1
  {
    if steps == [] then []
    else
      var n := |steps| - 1;
      Effects(ss[..n + 1], steps[..n]) + Effect(ss[n], steps[n])
  }

  /** What an effect of at most one operation does. */
  ghost predicate Follows(c: Context, effect: seq<Op>, c': Context) {
    if effect == [] then c' == c else |effect| == 1 && Next(c, effect[0], c')
  }

  lemma {:induction false} CompactIsNext(c: Context, op: Op, candidate: Candidate)
    requires op.Compact? && FreshExtras(c, op.commitId, op.extras) && (op.options.claude || c.checkpoint.None?)
    requires IsCandidate(c, op.mode, op.pivotId, op.commitId, op.cut, Some(candidate))
    ensures Next(c, op, Compacted(c, Some(candidate), op.summary, op.extras, op.options))
  {
  }

  lemma {:induction false} FollowsOne(c: Context, op: Op, c': Context)
    requires Next(c, op, c')
    ensures Follows(c, [op], c')
  {
  }

  lemma {:induction false} EffectOfFinish(s: System, step: Step, work: Work)
    requires step.Finish? && step.runner in s.waiting && work == s.waiting[step.runner].work
    ensures Effect(s, step) ==
            if Stale(s, work) then []
            else [Compact(work.mode, work.pivotId, work.cut, work.candidate.commitId,
                          step.summary, step.extras, s.options)]
  {
  }

  lemma {:induction false} FinishOutcome(s: System, step: Step, s': System)
    requires step.Finish? && Finishes(s, step, s')
    ensures var work := s.waiting[step.runner].work;
            if Stale(s, work) then s'.context == s.context
            else
              && FreshExtras(s.context, work.candidate.commitId, step.extras)
              && (s.options.claude || s.context.checkpoint.None?)
              && s'.context == Compacted(s.context, Some(work.candidate), step.summary, step.extras, s.options)
  {
  }

  lemma {:induction false} FinishIsCompact(s: System, step: Step, s': System)
    requires Consistent(s) && step.Finish? && Finishes(s, step, s')
    ensures Follows(s.context, Effect(s, step), s'.context)
  {
    var work := s.waiting[step.runner].work;
    FinishOutcome(s, step, s');
    EffectOfFinish(s, step, work);
    if !Stale(s, work) {
      CurrentCandidate(s, step.runner);
      CompactIsNext(s.context, Effect(s, step)[0], work.candidate);
      FollowsOne(s.context, Effect(s, step)[0], s'.context);
    }
  }

  /** A candidate that is not stale is a candidate of the present context. */
  lemma {:induction false} CurrentCandidate(s: System, runner: nat)
    requires Consistent(s) && runner in s.waiting && !Stale(s, s.waiting[runner].work)
    ensures var work := s.waiting[runner].work;
            IsCandidate(s.context, work.mode, work.pivotId, work.candidate.commitId, work.cut, Some(work.candidate))
  {
    StaleIffWritten(s, runner);
    assert Remembers(s, s.waiting[runner]);
  }

  lemma {:induction false} EffectIsNext(s: System, step: Step, s': System)
    requires Consistent(s) && Moves(s, step, s')
    ensures Follows(s.context, Effect(s, step), s'.context)
  {
    if step.Finish? {
      FinishIsCompact(s, step, s');
    }
  }

  /**
   Every interleaving has the effect of a sequential run in which each compaction happens at once, at its
   install, so all that holds of runs holds of races.
   */
  lemma {:induction false} RaceIsRun(ss: seq<System>, steps: seq<Step>) returns (cs: seq<Context>)
    requires IsTrace(ss, steps)
    ensures IsRun(cs, Effects(ss, steps)) && cs[|cs| - 1] == ss[|steps|].context
  {
    if steps == [] {
      cs := [EMPTY];
    } else {
      var n := |steps| - 1;
      var before := RaceIsRun(ss[..n + 1], steps[..n]);
      TraceConsistent(ss[..n + 1], steps[..n]);
      EffectIsNext(ss[n], steps[n], ss[n + 1]);
      cs := RunGoesOn(before, Effects(ss[..n + 1], steps[..n]), Effect(ss[n], steps[n]), ss[n + 1].context);
    }
  }

  lemma {:induction false} RunGoesOn(before: seq<Context>, ops: seq<Op>, effect: seq<Op>, c: Context)
    returns (cs: seq<Context>)
    requires IsRun(before, ops) && Follows(before[|before| - 1], effect, c)
    ensures IsRun(cs, ops + effect) && cs[|cs| - 1] == c
  {
    if effect == [] {
      cs := before;
      assert ops + effect == ops;
    } else {
      cs := before + [c];
      assert ops + effect == ops + [effect[0]];
      RunExtends(before, ops, effect[0], c);
    }
  }

  function Written(steps: seq<Step>): seq<Record> {
    if steps == [] then []
    else
      var last := steps[|steps| - 1];
      Written(steps[..|steps| - 1]) + if last.Write? && last.op.Append? then [last.op.record] else []
  }

  lemma {:induction false} WrittenIsAppended(ss: seq<System>, steps: seq<Step>)
    requires |ss| == |steps| + 1
    ensures Appended(Effects(ss, steps)) == Written(steps)
  {
    if steps != [] {
      var n := |steps| - 1;
      WrittenIsAppended(ss[..n + 1], steps[..n]);
      var ops, effect := Effects(ss[..n + 1], steps[..n]), Effect(ss[n], steps[n]);
      if effect == [] {
        assert ops + effect == ops;
      } else {
        assert (ops + effect)[..|ops|] == ops && (ops + effect)[|ops|] == effect[0];
      }
    }
  }

  /**
   No interleaving loses a record: every message written by anyone, at any time, is exactly once among what is
   shown, what is archived and what was snipped out. And the state that any race leaves is a mounted one.
   */
  lemma {:induction false} RacesLoseNothing(ss: seq<System>, steps: seq<Step>)
    requires IsTrace(ss, steps)
    ensures var story := Tale(Effects(ss, steps));
            && multiset(Written(steps)) == Total(story)
            && Refines(ss[|steps|].context, story)
  {
    var cs := RaceIsRun(ss, steps);
    NothingIsLost(cs, Effects(ss, steps));
    RunTellsTale(cs, Effects(ss, steps));
    WrittenIsAppended(ss, steps);
  }
}
