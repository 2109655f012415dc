/** The tool protocol over whole runs: what is shown never breaks a conversation that is whole. */
module ProtocolRuns {
  import opened Sequences
  import opened Transcript
  import opened ToolProtocol
  import opened ClaudeProjector
  import opened Compaction
  import opened CompactionInstall
  import opened RowRemoval
  import opened CompactionProtocol
  import opened SnipProtocol
  import opened ContextRuns

  /**
   A step that tears no exchange apart: what a Snip removes and what a compaction archives answer the calls they make.
   Each of the two conditions is exact for its step.
   */
  ghost predicate Orderly(c: Context, op: Op) {
    match op
    case Append(_) => true
    case Snip(_, removed) => SelfContained(Filter((r: Record) => r.id in removed, Visible(c.records)))
    case Compact(mode, pivotId, cut, commitId, _, _, _) =>
      var offer := Offer(c, mode, pivotId, commitId, cut);
      offer.Some? ==> SelfContained(offer.value.archived)
  }

  ghost predicate IsDialogue(cs: seq<Context>, ops: seq<Op>) {
    IsRun(cs, ops) && forall i | 0 <= i < |ops| :: Orderly(cs[i], ops[i])
  }

  lemma {:induction false} CompactContinues(c: Context, op: Op, c': Context, s: Story, w: seq<Record>)
    requires op.Compact? && Refines(c, s) && Next(c, op, c') && Orderly(c, op)
    requires Accepts(Turns(s.view + w))
    ensures Accepts(Turns(Tell(s, op).view + w))
  {
    var candidate := Offer(c, op.mode, op.pivotId, op.commitId, op.cut);
    CandidateIsTold(c, s, op.mode, op.pivotId, op.commitId, op.cut, candidate);
    assert Tell(s, op) == TellCompact(s, candidate, op.summary, op.extras, op.options);
    if candidate.Some? {
      OfferedContinues(c, s, op, candidate.value, w);
    }
  }

  lemma {:induction false} OfferedContinues(c: Context, s: Story, op: Op, candidate: Candidate, w: seq<Record>)
    requires op.Compact? && Refines(c, s) && FreshExtras(c, op.commitId, op.extras) && Orderly(c, op)
    requires IsCandidate(c, op.mode, op.pivotId, op.commitId, op.cut, Some(candidate))
    requires Accepts(Turns(s.view + w))
    ensures Accepts(Turns(TellCompact(s, Some(candidate), op.summary, op.extras, op.options).view + w))
  {
    LayoutContinues(c, op, candidate, w);
    LayoutIsTold(c, s, candidate, op.summary, op.extras);
    ToldContinues(s, candidate, op.summary, op.extras, op.options, w);
  }

  lemma {:induction false} LayoutContinues(c: Context, op: Op, candidate: Candidate, w: seq<Record>)
    requires op.Compact? && Mounted(c) && FreshExtras(c, op.commitId, op.extras) && Orderly(c, op)
    requires IsCandidate(c, op.mode, op.pivotId, op.commitId, op.cut, Some(candidate))
    requires Accepts(Turns(Visible(c.records) + w))
    ensures candidate.archived != []
    ensures Accepts(Turns(LayoutOf(c, candidate, op.summary, op.extras).View() + w))
  {
    TransparentIffSelfContained(c, op.mode, op.pivotId, op.commitId, op.cut, candidate, op.summary, op.extras, w);
  }

  lemma {:induction false} LayoutIsTold(c: Context, s: Story, candidate: Candidate, summary: string, extras: Extras)
    requires c.active == LastId(s.log) && candidate.archived != []
    ensures LayoutOf(c, candidate, summary, extras) == ToldLayout(s, candidate, summary, extras)
  {
  }

  lemma {:induction false} ToldContinues(
      s: Story, candidate: Candidate, summary: string, extras: Extras, o: Options, w: seq<Record>)
    requires candidate.archived != [] && Accepts(Turns(s.view + w))
    requires Accepts(Turns(ToldLayout(s, candidate, summary, extras).View() + w))
    ensures Accepts(Turns(TellCompact(s, Some(candidate), summary, extras, o).view + w))
  {
  }

  /** What a step still has to append before `w`. */
  function Pending(op: Op, w: seq<Record>): seq<Record> {
    if op.Append? then [op.record] + w else w
  }

  lemma {:induction false} StepContinues(c: Context, op: Op, c': Context, s: Story, w: seq<Record>)
    requires Refines(c, s) && Next(c, op, c') && Orderly(c, op)
    requires Accepts(Turns(s.view + Pending(op, w)))
    ensures Accepts(Turns(Tell(s, op).view + w))
  {
    if op.Append? {
      AppendTold(s, op.record, w);
    } else if op.Snip? {
      SnipTold(c, s, op, w);
    } else {
      CompactContinues(c, op, c', s, w);
    }
  }

  lemma {:induction false} AppendTold(s: Story, r: Record, w: seq<Record>)
    requires Accepts(Turns(s.view + ([r] + w)))
    ensures Accepts(Turns(Tell(s, Append(r)).view + w))
  {
    assert s.view + ([r] + w) == (s.view + [r]) + w;
  }

  lemma {:induction false} SnipTold(c: Context, s: Story, op: Op, w: seq<Record>)
    requires op.Snip? && Visible(c.records) == s.view && Orderly(c, op)
    requires Accepts(Turns(s.view + w))
    ensures Accepts(Turns(Tell(s, op).view + w))
  {
    SnipTransparentIff(s.view, op.removed, w);
  }

  lemma {:induction false} AppendedPending(ops: seq<Op>, w: seq<Record>)
    requires ops != []
    ensures Appended(ops) + w == Appended(ops[..|ops| - 1]) + Pending(ops[|ops| - 1], w)
  {
  }

  lemma {:induction false} TaleStaysWhole(cs: seq<Context>, ops: seq<Op>, w: seq<Record>)
    requires IsDialogue(cs, ops) && Accepts(Turns(Appended(ops) + w))
    ensures Accepts(Turns(Tale(ops).view + w))
    decreases |ops|
  {
    if ops != [] {
      var n := |ops| - 1;
      AppendedPending(ops, w);
      LastStep(cs, ops);
      TaleStaysWhole(cs[..n + 1], ops[..n], Pending(ops[n], w));
      BeforeLast(cs, ops);
      StepContinues(cs[n], ops[n], cs[n + 1], Tale(ops[..n]), w);
    }
  }

  lemma {:induction false} LastStep(cs: seq<Context>, ops: seq<Op>)
    requires IsDialogue(cs, ops) && ops != []
    ensures IsDialogue(cs[..|ops|], ops[..|ops| - 1])
    ensures Next(cs[|ops| - 1], ops[|ops| - 1], cs[|ops|]) && Orderly(cs[|ops| - 1], ops[|ops| - 1])
  {
  }

  lemma {:induction false} BeforeLast(cs: seq<Context>, ops: seq<Op>)
    requires IsDialogue(cs, ops) && ops != []
    ensures Refines(cs[|ops| - 1], Tale(ops[..|ops| - 1]))
  {
    var n := |ops| - 1;
    LastStep(cs, ops);
    RunTellsTale(cs[..n + 1], ops[..n]);
  }

  /**
   Over every run of such steps: whenever the messages appended so far, continued by `w`, form a conversation
   that the tool protocol accepts, so do the rows that are shown, continued by `w`, however often the transcript
   was compacted or snipped on the way.
   */
  lemma {:induction false} DialogueStaysWhole(cs: seq<Context>, ops: seq<Op>, w: seq<Record>)
    requires IsDialogue(cs, ops) && Accepts(Turns(Appended(ops) + w))
    ensures Accepts(Turns(Visible(cs[|ops|].records) + w))
  {
    RunTellsTale(cs, ops);
    TaleStaysWhole(cs, ops, w);
  }
}
