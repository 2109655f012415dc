/**
 The mounted state refines the race. Its methods compare the identities of objects; the race compares the numbers of
 the writes that made them. Each method does what one step of the race does, so all that holds of races holds of it.
 */
module StateRefinesRace {
  import opened Sequences
  import opened Identifiers
  import opened Transcript
  import opened RoundCut
  import opened ClaudeProjector
  import opened Compaction
  import opened ContextRuns
  import opened ConversationState
  import opened CompactionRace

  /** The waiting compactions that hold this list. */
  ghost function HoldRecords(waiting: map<nat, Prepared>, records: array<Record>): set<nat> {
    set i | i in waiting && waiting[i].records == records
  }

  ghost function HoldReplacements(waiting: map<nat, Prepared>, replacements: ToolResultReplacements): set<nat> {
    set i | i in waiting && waiting[i].replacements == replacements
  }

  /** A waiting compaction holds the present object exactly if it has the present stamp. */
  ghost predicate Matches(s: System, p: Prepared, work: Work, sameRecords: bool, sameReplacements: bool) {
    && p.candidate == work.candidate && p.watermark == work.watermark
    && sameRecords == (s.recordsStamp == work.recordsStamp)
    && sameReplacements == (s.replacementsStamp == work.replacementsStamp)
  }

  ghost predicate Stamped(s: System, waiting: map<nat, Prepared>, records: set<nat>, replacements: set<nat>) {
    && waiting.Keys == s.waiting.Keys
    && forall i | i in waiting :: Matches(s, waiting[i], s.waiting[i].work, i in records, i in replacements)
  }

  ghost predicate Mirrors(state: State, s: System, waiting: map<nat, Prepared>)
    reads state, state.records
  {
    && state.Mount() == s.context && state.watermark == s.watermark
    && state.replacements.byToolUseId == s.options.replacements
    && Stamped(s, waiting, HoldRecords(waiting, state.records), HoldReplacements(waiting, state.replacements))
  }

  /** Both staleness checks agree. */
  lemma {:induction false} ChecksAgree(state: State, s: System, waiting: map<nat, Prepared>, runner: nat)
    requires Mirrors(state, s, waiting) && runner in waiting
    ensures state.StillCurrent(waiting[runner]) <==> !Stale(s, s.waiting[runner].work)
  {
    assert Matches(s, waiting[runner], s.waiting[runner].work,
                   runner in HoldRecords(waiting, state.records), runner in HoldReplacements(waiting, state.replacements));
  }

  // ---- What a write does to the stamps ----

  /** A fresh list is held by nobody, and its stamp is nobody's. */
  lemma {:induction false} WriteStamped(
      s: System, s': System, waiting: map<nat, Prepared>, records: set<nat>, replacements: set<nat>)
    requires Consistent(s) && Stamped(s, waiting, records, replacements) && s'.waiting == s.waiting
    requires s'.recordsStamp == s.writes + 1 && s'.replacementsStamp == s.replacementsStamp
    ensures Stamped(s', waiting, {}, replacements)
  {
    forall i | i in waiting ensures Matches(s', waiting[i], s'.waiting[i].work, false, i in replacements) {
      assert Matches(s, waiting[i], s.waiting[i].work, i in records, i in replacements);
      assert Remembers(s, s.waiting[i]);
    }
  }

  lemma {:induction false} ReplaceStamped(
      s: System, s': System, waiting: map<nat, Prepared>, records: set<nat>, replacements: set<nat>)
    requires Consistent(s) && Stamped(s, waiting, records, replacements) && s'.waiting == s.waiting
    requires s'.replacementsStamp == s.writes + 1 && s'.recordsStamp == s.recordsStamp
    ensures Stamped(s', waiting, records, {})
  {
    forall i | i in waiting ensures Matches(s', waiting[i], s'.waiting[i].work, i in records, false) {
      assert Matches(s, waiting[i], s.waiting[i].work, i in records, i in replacements);
      assert Remembers(s, s.waiting[i]);
    }
  }

  ghost function Left(waiting: map<nat, Prepared>, runner: nat): map<nat, Prepared> {
    map i | i in waiting && i != runner :: waiting[i]
  }

  lemma {:induction false} LeaveStamped(
      s: System, waiting: map<nat, Prepared>, runner: nat, records: set<nat>, replacements: set<nat>)
    requires Stamped(s, waiting, records, replacements)
    ensures Stamped(s.(waiting := Without(s.waiting, runner)), Left(waiting, runner),
                    records - {runner}, replacements - {runner})
  {
    forall i | i in Left(waiting, runner) ensures i in waiting && i != runner {
      assert Matches(s, waiting[i], s.waiting[i].work, i in records, i in replacements);
    }
  }

  // ---- The methods as steps ----

  method Append(state: State, ghost s: System, ghost waiting: map<nat, Prepared>, r: Record, watermark: Option<Id>)
    returns (ghost s': System)
    requires Mirrors(state, s, waiting) && Consistent(s)
    requires r.kind.Message? && FreshId(s.context, r.id)
    modifies state
    ensures Moves(s, Write(Op.Append(r), watermark), s') && Mirrors(state, s', waiting)
  {
    s' := s.(context := s.context.(records := s.context.records + [r]), watermark := watermark,
             recordsStamp := s.writes + 1, writes := s.writes + 1);
    WriteStamped(s, s', waiting, HoldRecords(waiting, state.records), HoldReplacements(waiting, state.replacements));
    state.Append(r, watermark);
    assert HoldRecords(waiting, state.records) == {};
  }

  /** A Snip boundary is appended while no compaction waits. */
  method AppendSnip(
      state: State, ghost s: System, ghost waiting: map<nat, Prepared>, id: Id, removed: seq<Id>, watermark: Option<Id>)
    returns (ghost s': System)
    requires Mirrors(state, s, waiting) && Consistent(s) && s.waiting == map[]
    requires FreshId(s.context, id) && removed != [] && Distinct(removed)
    modifies state
    ensures Moves(s, Write(Op.Snip(id, removed), watermark), s') && Mirrors(state, s', waiting)
  {
    s' := s.(context := s.context.(records := s.context.records + [SnipRecord(id, removed)]), watermark := watermark,
             recordsStamp := s.writes + 1, writes := s.writes + 1);
    WriteStamped(s, s', waiting, HoldRecords(waiting, state.records), HoldReplacements(waiting, state.replacements));
    state.Append(SnipRecord(id, removed), watermark);
    assert HoldRecords(waiting, state.records) == {};
  }

  method Replace(state: State, ghost s: System, ghost waiting: map<nat, Prepared>, byToolUseId: map<Id, string>)
    returns (ghost s': System)
    requires Mirrors(state, s, waiting) && Consistent(s)
    modifies state
    ensures Moves(s, Step.Replace(s.options.(replacements := byToolUseId)), s') && Mirrors(state, s', waiting)
  {
    s' := s.(options := s.options.(replacements := byToolUseId), replacementsStamp := s.writes + 1, writes := s.writes + 1);
    ReplaceStamped(s, s', waiting, HoldRecords(waiting, state.records), HoldReplacements(waiting, state.replacements));
    state.ReplaceToolResults(byToolUseId);
    assert HoldReplacements(waiting, state.replacements) == {};
  }

  lemma {:induction false} HoldJoined(waiting: map<nat, Prepared>, runner: nat, p: Prepared)
    ensures HoldRecords(waiting[runner := p], p.records) == HoldRecords(waiting, p.records) + {runner}
    ensures HoldReplacements(waiting[runner := p], p.replacements) == HoldReplacements(waiting, p.replacements) + {runner}
  {
  }

  lemma {:induction false} HoldLeft(
      waiting: map<nat, Prepared>, runner: nat, records: array<Record>, replacements: ToolResultReplacements)
    ensures HoldRecords(Left(waiting, runner), records) == HoldRecords(waiting, records) - {runner}
    ensures HoldReplacements(Left(waiting, runner), replacements) == HoldReplacements(waiting, replacements) - {runner}
  {
  }

  /** The step that makes a candidate wait. */
  ghost function Joined(s: System, runner: nat, mode: Mode, pivotId: Option<Id>, cut: nat, p: Prepared): System {
    var work := Work(mode, pivotId, cut, p.candidate, s.recordsStamp, s.replacementsStamp, p.watermark);
    s.(waiting := s.waiting[runner := Waiting(work, s.context, s.writes)])
  }

  lemma {:induction false} JoinStamped(
      s: System, waiting: map<nat, Prepared>, runner: nat, mode: Mode, pivotId: Option<Id>, cut: nat, p: Prepared,
      records: set<nat>, replacements: set<nat>)
    requires Stamped(s, waiting, records, replacements)
    ensures Stamped(Joined(s, runner, mode, pivotId, cut, p), waiting[runner := p],
                    records + {runner}, replacements + {runner})
  {
    forall i | i in waiting && i != runner ensures i in s.waiting {
      assert Matches(s, waiting[i], s.waiting[i].work, i in records, i in replacements);
    }
  }

  lemma {:induction false} JoinMoves(
      s: System, runner: nat, mode: Mode, pivotId: Option<Id>, commitId: Id, cut: nat, p: Prepared)
    requires runner !in s.waiting && s.watermark == Some(p.watermark)
    requires IsCandidate(s.context, mode, pivotId, commitId, cut, Some(p.candidate))
    ensures Moves(s, Step.Prepare(runner, mode, pivotId, cut, commitId), Joined(s, runner, mode, pivotId, cut, p))
  {
  }

  lemma {:induction false} NoJoinMoves(
      s: System, runner: nat, mode: Mode, pivotId: Option<Id>, commitId: Id, cut: nat, offered: Option<Candidate>)
    requires runner !in s.waiting && (offered.None? || s.watermark.None?)
    requires IsCandidate(s.context, mode, pivotId, commitId, cut, offered)
    ensures Moves(s, Step.Prepare(runner, mode, pivotId, cut, commitId), s)
  {
  }

  /** What is prepared, as one candidate or none. */
  method Offered(state: State, mode: Mode, pivotId: Option<Id>, commitId: Id)
    returns (p: Option<Prepared>, ghost cut: nat, ghost offered: Option<Candidate>)
    ensures IsCandidate(state.Mount(), mode, pivotId, commitId, cut, offered)
    ensures p.None? ==> offered.None? || state.watermark.None?
    ensures p.Some? ==>
              && offered == Some(p.value.candidate) && state.watermark == Some(p.value.watermark)
              && p.value.records == state.records && p.value.replacements == state.replacements
  {
    var r;
    r, cut, offered := state.PrepareCandidate(mode, pivotId, commitId);
    p := if r.Ok? then r.value else None;
  }

  method Prepare(
      state: State, ghost s: System, ghost waiting: map<nat, Prepared>, ghost runner: nat,
      mode: Mode, pivotId: Option<Id>, commitId: Id)
    returns (ghost s': System, ghost waiting': map<nat, Prepared>, ghost cut: nat)
    requires Mirrors(state, s, waiting) && runner !in waiting
    ensures Moves(s, Step.Prepare(runner, mode, pivotId, cut, commitId), s') && Mirrors(state, s', waiting')
  {
    var r, moved, offered := Offered(state, mode, pivotId, commitId);
    cut := moved;
    if r.Some? {
      ghost var p := r.value;
      ghost var records, replacements := HoldRecords(waiting, p.records), HoldReplacements(waiting, p.replacements);
      JoinMoves(s, runner, mode, pivotId, commitId, cut, p);
      JoinStamped(s, waiting, runner, mode, pivotId, cut, p, records, replacements);
      s', waiting' := Joined(s, runner, mode, pivotId, cut, p), waiting[runner := p];
      HoldJoined(waiting, runner, p);
    } else {
      NoJoinMoves(s, runner, mode, pivotId, commitId, cut, offered);
      s', waiting' := s, waiting;
    }
  }

  /** The step that finishing is: without a summary or an install it is giving up. */
  ghost function FinishStep(runner: nat, summary: string, extras: Extras, invocations: nat): Step {
    if summary == "" || invocations == 0 then GiveUp(runner) else Finish(runner, summary, extras)
  }

  /** The plan that is installed, if any is: `current` says that the candidate is not stale. */
  ghost function Installed(
      c: Context, current: bool, candidate: Candidate, summary: string, extras: Extras, o: Options, invocations: nat)
    : Option<Plan>
    requires candidate.archived != []
  {
    if summary == "" || invocations == 0 || !current then None
    else
      match BuildPlan(c, candidate, summary, extras, o)
      case Err(_) => None
      case Ok(plan) => Some(plan)
  }

  ghost function Finished(s: System, runner: nat, plan: Option<Plan>): System {
    var done := s.(waiting := Without(s.waiting, runner));
    if plan.None? then done
    else done.(context := Install(plan.value), recordsStamp := s.writes + 1, writes := s.writes + 1)
  }

  lemma {:induction false} FinishedMoves(s: System, runner: nat, summary: string, extras: Extras, invocations: nat)
    requires runner in s.waiting && s.waiting[runner].work.candidate.archived != []
    requires FreshExtras(s.context, s.waiting[runner].work.candidate.commitId, extras)
    requires s.options.claude || s.context.checkpoint.None?
    ensures var work := s.waiting[runner].work;
            var plan := Installed(s.context, !Stale(s, work), work.candidate, summary, extras, s.options, invocations);
            Moves(s, FinishStep(runner, summary, extras, invocations), Finished(s, runner, plan))
  {
    var work := s.waiting[runner].work;
    var plan := Installed(s.context, !Stale(s, work), work.candidate, summary, extras, s.options, invocations);
    if plan.Some? {
      assert Install(plan.value).epoch == s.context.epoch + 1;
    }
  }

  lemma {:induction false} FinishStamped(
      s: System, waiting: map<nat, Prepared>, runner: nat, plan: Option<Plan>, records: set<nat>, replacements: set<nat>)
    requires Consistent(s) && Stamped(s, waiting, records, replacements)
    ensures Stamped(Finished(s, runner, plan), Left(waiting, runner),
                    if plan.Some? then {} else records - {runner}, replacements - {runner})
  {
    if plan.Some? {
      var written := s.(recordsStamp := s.writes + 1, writes := s.writes + 1);
      WriteStamped(s, written, waiting, records, replacements);
      LeaveStamped(written, waiting, runner, {}, replacements);
      OtherFieldsDoNotMatter(written.(waiting := Without(s.waiting, runner)), Finished(s, runner, plan),
                             Left(waiting, runner), {} - {runner}, replacements - {runner});
      assert {} - {runner} == {};
    } else {
      LeaveStamped(s, waiting, runner, records, replacements);
    }
  }

  lemma {:induction false} OtherFieldsDoNotMatter(
      s: System, s': System, waiting: map<nat, Prepared>, records: set<nat>, replacements: set<nat>)
    requires Stamped(s, waiting, records, replacements) && s'.waiting == s.waiting
    requires s'.recordsStamp == s.recordsStamp && s'.replacementsStamp == s.replacementsStamp
    ensures Stamped(s', waiting, records, replacements)
  {
    forall i | i in waiting ensures Matches(s', waiting[i], s'.waiting[i].work, i in records, i in replacements) {
      assert Matches(s, waiting[i], s.waiting[i].work, i in records, i in replacements);
    }
  }

  /** What the mounted state goes through: it takes the installed plan, or stays. */
  method Applied(
      state: State, p: Prepared, summary: string, extras: Extras, o: Options, invocations: nat, propagates: bool,
      ghost plan: Option<Plan>)
    returns (r: Result<Commit, RunError>)
    requires p.candidate.archived != []
    requires plan == Installed(
                       state.Mount(), state.StillCurrent(p), p.candidate, summary, extras, state.Reading(o), invocations)
    modifies state
    ensures if plan.Some? then fresh(state.records) && state.Mount() == Install(plan.value)
            else state.records == old(state.records) && state.Mount() == old(state.Mount())
    ensures state.replacements == old(state.replacements) && state.watermark == old(state.watermark)
    ensures r.Ok? ==> plan.Some?
  {
    r := state.SummarizeAndApply(p, summary, extras, o, invocations, propagates);
  }

  /** The mounted state after an install is what the race says, for everyone who still waits. */
  lemma {:induction false} MirrorsAgain(
      state: State, s: System, waiting: map<nat, Prepared>, runner: nat, plan: Option<Plan>,
      records: set<nat>, replacements: set<nat>)
    requires state.Mount() == (if plan.Some? then Install(plan.value) else s.context) && state.watermark == s.watermark
    requires state.replacements.byToolUseId == s.options.replacements
    requires HoldRecords(waiting, state.records) == (if plan.Some? then {} else records)
    requires HoldReplacements(waiting, state.replacements) == replacements
    requires Stamped(Finished(s, runner, plan), Left(waiting, runner),
                     if plan.Some? then {} else records - {runner}, replacements - {runner})
    ensures Mirrors(state, Finished(s, runner, plan), Left(waiting, runner))
  {
    HoldLeft(waiting, runner, state.records, state.replacements);
    assert {} - {runner} == {};
  }

  /** The race step, given the plan that is installed. */
  lemma {:induction false} StampedAfter(
      state: State, s: System, waiting: map<nat, Prepared>, runner: nat, plan: Option<Plan>)
    requires Mirrors(state, s, waiting) && Consistent(s)
    ensures Stamped(Finished(s, runner, plan), Left(waiting, runner),
                    if plan.Some? then {} else HoldRecords(waiting, state.records) - {runner},
                    HoldReplacements(waiting, state.replacements) - {runner})
  {
    FinishStamped(s, waiting, runner, plan,
                  HoldRecords(waiting, state.records), HoldReplacements(waiting, state.replacements));
  }

  lemma {:induction false} FinishesAs(
      state: State, s: System, waiting: map<nat, Prepared>, runner: nat, p: Prepared,
      summary: string, extras: Extras, invocations: nat)
    returns (plan: Option<Plan>)
    requires Mirrors(state, s, waiting) && runner in waiting && waiting[runner] == p && p.candidate.archived != []
    requires FreshExtras(s.context, p.candidate.commitId, extras) && (s.options.claude || s.context.checkpoint.None?)
    ensures state.Reading(s.options) == s.options
    ensures plan == Installed(state.Mount(), state.StillCurrent(p), p.candidate, summary, extras, s.options, invocations)
    ensures Moves(s, FinishStep(runner, summary, extras, invocations), Finished(s, runner, plan))
  {
    assert Matches(s, p, s.waiting[runner].work,
                   runner in HoldRecords(waiting, state.records), runner in HoldReplacements(waiting, state.replacements));
    ChecksAgree(state, s, waiting, runner);
    FinishedMoves(s, runner, summary, extras, invocations);
    plan := Installed(state.Mount(), state.StillCurrent(p), p.candidate, summary, extras, s.options, invocations);
  }

  method SummarizeAndApply(
      state: State, ghost s: System, ghost waiting: map<nat, Prepared>, ghost runner: nat, p: Prepared,
      summary: string, extras: Extras, o: Options, invocations: nat, propagates: bool)
    returns (r: Result<Commit, RunError>, ghost s': System)
    requires Mirrors(state, s, waiting) && Consistent(s) && runner in waiting && waiting[runner] == p
    requires p.candidate.archived != [] && o == s.options && (o.claude || s.context.checkpoint.None?)
    requires FreshExtras(s.context, p.candidate.commitId, extras)
    modifies state
    ensures Moves(s, FinishStep(runner, summary, extras, invocations), s') && Mirrors(state, s', Left(waiting, runner))
    ensures r.Ok? ==> s'.writes == s.writes + 1
  {
    ghost var plan := FinishesAs(state, s, waiting, runner, p, summary, extras, invocations);
    ghost var records, replacements :=
      HoldRecords(waiting, state.records), HoldReplacements(waiting, state.replacements);
    StampedAfter(state, s, waiting, runner, plan);
    s' := Finished(s, runner, plan);
    r := Applied(state, p, summary, extras, o, invocations, propagates, plan);
    MirrorsAgain(state, s, waiting, runner, plan, records, replacements);
  }
}
