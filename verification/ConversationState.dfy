/**
 The mounted state of a conversation. Its fields are assigned in place, but the objects they hold are never
 changed: every write puts a fresh list there, and a compaction that waited compares identities.
 */
module ConversationState {
  import opened Sequences
  import opened Identifiers
  import opened Transcript
  import opened RoundCut
  import opened ClaudeProjector
  import opened Compaction

  /** Replacements of tool results; a new set of replacements is a new object. */
  class ToolResultReplacements {
    const byToolUseId: map<Id, string>

    constructor (byToolUseId: map<Id, string>)
      ensures this.byToolUseId == byToolUseId
    {
      this.byToolUseId := byToolUseId;
    }
  }

  /** A candidate together with the objects it was prepared from. */
  datatype Prepared = Prepared(
    candidate: Candidate, records: array<Record>, replacements: ToolResultReplacements, watermark: Id)

  /** The whole next state, made before the durable commit and only assigned after it. */
  datatype NextState = NextState(
    records: array<Record>, watermark: Id, history: seq<Commit>, active: Id, epoch: nat, checkpoint: Option<Recipe>)

  datatype RunError =
    | MissingWatermark
    | EmptySummary
    | StaleCandidate
    | PlanFailed(error: PlanError)
    | InstalledTwice
    | NotInstalled

  method Materialize(rs: seq<Record>) returns (a: array<Record>)
    ensures fresh(a) && a[..] == rs
  {
    a := new Record[|rs|](i requires 0 <= i < |rs| => rs[i]);
  }

  /** The split around the pivot, if the gate lets it through. */
  method CandidateFromRecords(source: seq<Record>, mode: Mode, pivotId: Option<Id>, commitId: Id, nextEpoch: nat)
    returns (candidate: Option<Candidate>, ghost cut: nat)
    ensures IsCut(source, mode, pivotId, cut)
    ensures candidate == OfferAt(source, mode, pivotId, commitId, cut, nextEpoch)
  {
    var split;
    split, cut := SplitContextCompactionRecords(source, mode, pivotId);
    if !Offers(source, mode, split) { return None, cut; }
    candidate := Some(Candidate(mode, commitId, nextEpoch, split.value.archived, split.value.retained));
  }

  class State {
    var records: array<Record>
    var replacements: ToolResultReplacements
    var watermark: Option<Id>
    var epoch: nat
    var active: Option<Id>
    var history: seq<Commit>
    var checkpoint: Option<Recipe>

    ghost function Mount(): Context
      reads this, records
    {
      Context(records[..], epoch, active, history, checkpoint)
    }

    constructor (replacements: ToolResultReplacements)
      ensures Mount() == EMPTY && watermark == None && this.replacements == replacements && fresh(records)
    {
      records := new Record[0];
      this.replacements := replacements;
      watermark, epoch, active, history, checkpoint := None, 0, None, [], None;
    }

    /** Appending a message or a Snip boundary rebuilds the list. */
    method Append(r: Record, watermark: Option<Id>)
      modifies this
      ensures fresh(records) && replacements == old(replacements) && this.watermark == watermark
      ensures Mount() == old(Mount()).(records := old(records[..]) + [r])
    {
      records := Materialize(records[..] + [r]);
      this.watermark := watermark;
    }

    method ReplaceToolResults(byToolUseId: map<Id, string>)
      modifies this
      ensures fresh(replacements) && replacements.byToolUseId == byToolUseId
      ensures records == old(records) && watermark == old(watermark) && Mount() == old(Mount())
    {
      replacements := new ToolResultReplacements(byToolUseId);
    }

    /** The rows behind the last boundary, without what was snipped, that a compaction accounts for. */
    method CompactionSource() returns (source: seq<Record>)
      ensures source == SourceRecords(records[..])
    {
      var index := FindLastCompactBoundaryIndex(records[..]);
      var slice := if index >= 0 then records[index..] else records[..];
      assert slice == AfterBoundary(records[..]);
      var snipped := CollectSnippedIds(slice);
      source := Filter(IsSource, Filter((r: Record) => r.id !in snipped, slice));
    }

    /** The source rows, their split around the pivot, and the objects to compare with later. */
    method PrepareCandidate(mode: Mode, pivotId: Option<Id>, commitId: Id)
      returns (r: Result<Option<Prepared>, RunError>, ghost cut: nat, ghost offered: Option<Candidate>)
      ensures IsCandidate(Mount(), mode, pivotId, commitId, cut, offered)
      ensures r == if offered.None? then Ok(None)
                   else if watermark.None? then Err(MissingWatermark)
                   else Ok(Some(Prepared(offered.value, records, replacements, watermark.value)))
      ensures r.Ok? && r.value.Some? ==> StillCurrent(r.value.value)
    {
      var source := CompactionSource();
      var candidate;
      candidate, cut := CandidateFromRecords(source, mode, pivotId, commitId, epoch + 1);
      offered := candidate;
      if candidate.None? {
        return Ok(None), cut, offered;
      }
      if watermark.None? {
        return Err(MissingWatermark), cut, offered;
      }
      r := Ok(Some(Prepared(candidate.value, records, replacements, watermark.value)));
    }

    /** A projection reads the replacements that the state holds. */
    function Reading(o: Options): Options
      reads this
    {
      o.(replacements := replacements.byToolUseId)
    }

    predicate StillCurrent(p: Prepared)
      reads this
    {
      && records == p.records && replacements == p.replacements
      && watermark == Some(p.watermark) && epoch + 1 == p.candidate.nextEpoch
    }

    method PrepareInstall(plan: Plan, watermark: Id) returns (next: NextState)
      ensures fresh(next.records) && next.records[..] == plan.ordered
      ensures next == NextState(next.records, watermark, History(plan.ordered),
                                plan.commit.id, plan.commit.epoch, plan.recipe)
    {
      var records := Materialize(plan.ordered);
      var commits := DeriveCompactionHistory(records[..]);
      next := NextState(records, watermark, commits, plan.commit.id, plan.commit.epoch, plan.recipe);
    }

    /** Assignments only: after the durable commit nothing may be refused any more. */
    method ApplyPrepared(next: NextState)
      modifies this
      ensures records == next.records && replacements == old(replacements) && watermark == Some(next.watermark)
      ensures Mount() == Context(next.records[..], next.epoch, Some(next.active), next.history, next.checkpoint)
    {
      records := next.records;
      watermark := Some(next.watermark);
      history := next.history;
      active := Some(next.active);
      epoch := next.epoch;
      checkpoint := next.checkpoint;
    }

    /**
     What happens once the summary is there. `invocations` is how often the durable authority calls back to
     install, and `propagates` whether it lets the error of a second call out. The state changes at most once, only
     when nothing was written since the candidate was prepared, and success means that it changed exactly once, into
     the installed plan.
     */
    method SummarizeAndApply(
        p: Prepared, summary: string, extras: Extras, o: Options, invocations: nat, propagates: bool)
      returns (r: Result<Commit, RunError>)
      requires p.candidate.archived != []
      modifies this
      ensures summary == "" ==> r == Err(EmptySummary)
      ensures summary != "" && !old(StillCurrent(p)) ==> r == Err(StaleCandidate)
      ensures summary == "" || !old(StillCurrent(p)) ==> records == old(records) && Mount() == old(Mount())
      ensures summary != "" && old(StillCurrent(p)) ==>
                match BuildPlan(old(Mount()), p.candidate, summary, extras, old(Reading(o)))
                case Err(e) => r == Err(PlanFailed(e)) && records == old(records) && Mount() == old(Mount())
                case Ok(plan) =>
                  && r == (if invocations == 0 then Err(NotInstalled)
                           else if invocations > 1 && propagates then Err(InstalledTwice)
                           else Ok(plan.commit))
                  && if invocations == 0 then records == old(records) && Mount() == old(Mount())
                     else fresh(records) && Mount() == Install(plan)
      ensures replacements == old(replacements) && watermark == old(watermark)
    {
      if summary == "" { return Err(EmptySummary); }
      if !StillCurrent(p) { return Err(StaleCandidate); }
      var built := BuildPlan(Context(records[..], epoch, active, history, checkpoint), p.candidate, summary, extras, Reading(o));
      if built.Err? { return Err(PlanFailed(built.error)); }
      var plan := built.value;
      var next := PrepareInstall(plan, p.watermark);
      var installCount := 0;
      var calls := 0;
      while calls < invocations
        invariant 0 <= calls <= invocations && installCount == (if calls == 0 then 0 else 1)
        invariant calls > 1 ==> !propagates
        invariant installCount == 0 ==> records == old(records) && Mount() == old(Mount())
        invariant installCount == 1 ==> records == next.records && Mount() == Install(plan)
        invariant fresh(next.records) && next.records[..] == plan.ordered
        invariant replacements == old(replacements) && watermark == old(watermark)
      {
        calls := calls + 1;
        if installCount != 0 {
          if propagates { return Err(InstalledTwice); }
          continue;
        }
        installCount := installCount + 1;
        ApplyPrepared(next);
      }
      if installCount != 1 { return Err(NotInstalled); }
      r := Ok(plan.commit);
    }
  }

  /**
   The identity check at work: a compaction prepared before another writer appends is refused afterwards, and
   the appended record stays.
   */
  method AppendDuringSummary(
      state: State, mode: Mode, pivotId: Option<Id>, commitId: Id, late: Record, summary: string, extras: Extras,
      o: Options, invocations: nat, propagates: bool) returns (r: Option<Result<Commit, RunError>>)
    requires Mounted(state.Mount()) && summary != ""
    modifies state
    ensures state.Mount() == old(state.Mount()).(records := old(state.records[..]) + [late])
    ensures r.None? || r == Some(Err(StaleCandidate))
  {
    var prepared, cut, offered := state.PrepareCandidate(mode, pivotId, commitId);
    state.Append(late, Some(late.id));
    if prepared.Ok? && prepared.value.Some? {
      CandidateFromSource(old(state.Mount()), mode, pivotId, commitId, cut, offered);
      var outcome := state.SummarizeAndApply(prepared.value.value, summary, extras, o, invocations, propagates);
      r := Some(outcome);
    } else {
      r := None;
    }
  }
}
