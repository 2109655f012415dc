/**
 The shortest run with a compaction: two messages, then a full compaction. When the second message calls a tool,
 the call is archived while it is open, and the answer that arrives later has nothing left to answer.
 */
module StrandedCall {
  import opened Sequences
  import opened Identifiers
  import opened Transcript
  import opened ToolProtocol
  import opened RoundCut
  import opened PairCut
  import opened ClaudeProjector
  import opened Compaction
  import opened CompactionInstall
  import opened CompactionOutcome
  import opened CompactionProtocol
  import opened ContextRuns

  const NO_EXTRAS := Extras([], [])

  function Before(a: Record, b: Record): Context {
    EMPTY.(records := [a, b])
  }

  function Everything(a: Record, b: Record, commitId: Id): Candidate {
    Candidate(Full, commitId, 1, [a, b], [])
  }

  /** Two plain messages, and a commit whose record ids are still free. */
  ghost predicate Suited(a: Record, b: Record, commitId: Id) {
    && a.kind.Message? && b.kind.Message? && a.id != b.id && Exact(a.id) && Exact(b.id)
    && Exact("compact_boundary_" + commitId) && Exact("compact_summary_" + commitId)
    && "compact_boundary_" + commitId !in {a.id, b.id} && "compact_summary_" + commitId !in {a.id, b.id}
  }

  lemma {:induction false} EmptyIsMounted()
    ensures Mounted(EMPTY)
  {
    assert History([]) == [];
  }

  lemma {:induction false} AppendNext(c: Context, r: Record)
    requires Mounted(c) && r.kind.Message? && FreshId(c, r.id)
    ensures Next(c, Append(r), c.(records := c.records + [r])) && Mounted(c.(records := c.records + [r]))
  {
    MountedAppend(c, r);
  }

  lemma {:induction false} TwoMessages(a: Record, b: Record, commitId: Id)
    requires Suited(a, b, commitId)
    ensures Next(EMPTY, Append(a), EMPTY.(records := [a]))
    ensures Next(EMPTY.(records := [a]), Append(b), Before(a, b))
    ensures Mounted(Before(a, b)) && FreshExtras(Before(a, b), commitId, NO_EXTRAS)
  {
    var c := EMPTY.(records := [a]);
    assert [] + [a] == [a] && [a] + [b] == [a, b];
    EmptyIsMounted();
    AppendNext(EMPTY, a);
    AppendNext(c, b);
    FreshForNothing(a, b, commitId);
  }

  lemma {:induction false} FreshForNothing(a: Record, b: Record, commitId: Id)
    requires Suited(a, b, commitId)
    ensures FreshExtras(Before(a, b), commitId, NO_EXTRAS)
  {
    assert IdSet([a, b]) == {a.id, b.id} && SnippedIds([a, b]) == {};
    assert NO_EXTRAS.All() == [] && Ids([]) == [];
  }

  lemma {:induction false} MessagesAreAll(rs: seq<Record>)
    requires forall r | r in rs :: r.kind.Message?
    ensures SourceRecords(rs) == rs && Visible(rs) == rs
  {
    NoBoundary(rs);
    var snipped := SnippedIds(rs);
    assert snipped == {};
    FilterAll((r: Record) => r.id !in snipped, rs);
    FilterAll(IsSource, rs);
    FilterAll((r: Record) => !r.IsMarker() && r.id !in snipped, rs);
  }

  lemma {:induction false} EverythingOffered(a: Record, b: Record, commitId: Id)
    requires SourceRecords([a, b]) == [a, b] && a.kind.Message?
    ensures IsCandidate(Before(a, b), Full, None, commitId, 0, Some(Everything(a, b, commitId)))
    ensures FromSource(Before(a, b), Everything(a, b, commitId))
  {
    assert a in [a, b];
    CandidateFromSource(Before(a, b), Full, None, commitId, 0, Some(Everything(a, b, commitId)));
  }

  lemma {:induction false} PlanAccepted(c: Context, candidate: Candidate, summary: string, o: Options)
    requires Mounted(c) && FromSource(c, candidate) && FreshExtras(c, candidate.commitId, NO_EXTRAS)
    requires candidate.retained == []
    ensures BuildPlan(c, candidate, summary, NO_EXTRAS, o).Ok?
  {
    PlanOutcome(c, candidate, summary, NO_EXTRAS, o);
    var l := LayoutOf(c, candidate, summary, NO_EXTRAS);
    ViewSpeaks(l);
    assert Turns([]) == [];
    ViewForProvider(c, candidate, summary, NO_EXTRAS);
    RenderingKeepsToolPairs(l.View(), o, START);
  }

  lemma {:induction false} Installed(c: Context, candidate: Candidate, op: Op) returns (c': Context)
    requires Mounted(c) && FromSource(c, candidate) && op.Compact? && op.extras == NO_EXTRAS
    requires FreshExtras(c, op.commitId, NO_EXTRAS) && candidate.commitId == op.commitId
    requires IsCandidate(c, op.mode, op.pivotId, op.commitId, op.cut, Some(candidate)) && candidate.retained == []
    requires op.options.claude || c.checkpoint.None?
    ensures Next(c, op, c') && c'.epoch == c.epoch + 1
    ensures Visible(c'.records) == LayoutOf(c, candidate, op.summary, NO_EXTRAS).View()
  {
    PlanAccepted(c, candidate, op.summary, op.options);
    var plan := BuildPlan(c, candidate, op.summary, NO_EXTRAS, op.options).value;
    InstallShows(c, candidate, op.summary, NO_EXTRAS, op.options, plan);
    c' := Install(plan);
    NextOfPlan(c, op, candidate, plan);
  }

  lemma {:induction false} NextOfPlan(c: Context, op: Op, candidate: Candidate, plan: Plan)
    requires op.Compact? && FreshExtras(c, op.commitId, op.extras) && candidate.archived != []
    requires IsCandidate(c, op.mode, op.pivotId, op.commitId, op.cut, Some(candidate))
    requires BuildPlan(c, candidate, op.summary, op.extras, op.options) == Ok(plan)
    requires op.options.claude || c.checkpoint.None?
    ensures Next(c, op, Install(plan))
  {
  }

  lemma {:induction false} EverythingCompacted(a: Record, b: Record, op: Op) returns (c: Context)
    requires op.Compact? && op.mode.Full? && op.pivotId.None? && op.cut == 0 && op.extras == NO_EXTRAS
    requires a.kind.Message? && b.kind.Message?
    requires Mounted(Before(a, b)) && FreshExtras(Before(a, b), op.commitId, NO_EXTRAS)
    ensures Next(Before(a, b), op, c) && c.epoch == 1
    ensures Visible(c.records) ==
            LayoutOf(Before(a, b), Everything(a, b, op.commitId), op.summary, NO_EXTRAS).View()
  {
    MessagesAreAll([a, b]);
    EverythingOffered(a, b, op.commitId);
    c := Installed(Before(a, b), Everything(a, b, op.commitId), op);
  }

  /** Such a run exists: the compaction is offered, planned and installed. */
  lemma {:induction false} ShortestRun(a: Record, b: Record, commitId: Id, summary: string, o: Options)
    returns (cs: seq<Context>)
    requires Suited(a, b, commitId)
    ensures IsRun(cs, [Append(a), Append(b), Compact(Full, None, 0, commitId, summary, NO_EXTRAS, o)])
    ensures cs[3].epoch == 1
    ensures Visible(cs[3].records) == LayoutOf(Before(a, b), Everything(a, b, commitId), summary, NO_EXTRAS).View()
  {
    TwoMessages(a, b, commitId);
    var op := Compact(Full, None, 0, commitId, summary, NO_EXTRAS, o);
    var c := EverythingCompacted(a, b, op);
    cs := ThreeSteps(EMPTY, EMPTY.(records := [a]), Before(a, b), c, Append(a), Append(b), op);
  }

  lemma {:induction false} ThreeSteps(c0: Context, c1: Context, c2: Context, c3: Context, op0: Op, op1: Op, op2: Op)
    returns (cs: seq<Context>)
    requires c0 == EMPTY && Next(c0, op0, c1) && Next(c1, op1, c2) && Next(c2, op2, c3)
    ensures cs == [c0, c1, c2, c3] && IsRun(cs, [op0, op1, op2])
  {
    RunExtends([c0], [], op0, c1);
    assert [c0] + [c1] == [c0, c1] && [] + [op0] == [op0];
    RunExtends([c0, c1], [op0], op1, c2);
    assert [c0, c1] + [c2] == [c0, c1, c2] && [op0] + [op1] == [op0, op1];
    RunExtends([c0, c1, c2], [op0, op1], op2, c3);
    cs := [c0, c1, c2, c3];
    assert [c0, c1, c2] + [c3] == cs && [op0, op1] + [op2] == [op0, op1, op2];
  }

  /** With a call open after the two messages, whatever would have completed the conversation now breaks it. */
  lemma {:induction false} CompletionIsStranded(a: Record, b: Record, commitId: Id, summary: string, w: seq<Record>)
    requires Suited(a, b, commitId)
    requires Accepts(Turns([a, b] + w)) && !Accepts(Turns([a, b]))
    ensures !Accepts(Turns(LayoutOf(Before(a, b), Everything(a, b, commitId), summary, NO_EXTRAS).View() + w))
  {
    TwoMessages(a, b, commitId);
    MessagesAreAll([a, b]);
    EverythingOffered(a, b, commitId);
    TransparentIffSelfContained(Before(a, b), Full, None, commitId, 0, Everything(a, b, commitId), summary, NO_EXTRAS, w);
  }

  // ---- A concrete exchange ----

  const HELLO := Plain("m1", User, Text("hello", []))
  const CALL := Plain("m2", Assistant, Blocks([ToolUse("x", "grep_search")]))
  const ANSWER := Plain("m3", User, Blocks([ToolResult("x", "hit")]))

  lemma {:induction false} CallEvents()
    ensures Events(Turns([HELLO, CALL])) == [AssistantTurn, Use(Assistant, "x")]
    ensures Events(Turns([ANSWER])) == [Answer(User, "x")]
  {
    assert [HELLO, CALL] == [HELLO] + [CALL];
    ContinuedEvents([HELLO], [CALL]);
    OneRow(HELLO);
    OneRow(CALL);
    OneRow(ANSWER);
    assert [ToolUse("x", "grep_search")][1..] == [] && BlockEvents(Assistant, []) == [];
    assert [ToolResult("x", "hit")][1..] == [] && BlockEvents(User, []) == [];
    assert TurnEvents(Turn(User, HELLO.content)) == [];
    assert TurnEvents(Turn(Assistant, CALL.content)) == [AssistantTurn, Use(Assistant, "x")];
    assert TurnEvents(Turn(User, ANSWER.content)) == [Answer(User, "x")];
  }

  lemma {:induction false} CallIsOpen()
    ensures Accepts(Turns([HELLO, CALL] + [ANSWER])) && !Accepts(Turns([HELLO, CALL]))
  {
    CallEvents();
    ContinuedEvents([HELLO, CALL], [ANSWER]);
    OneExchange("x");
    HalvesAreBroken("x");
    assert [AssistantTurn, Use(Assistant, "x")] + [Answer(User, "x")] ==
           [AssistantTurn, Use(Assistant, "x"), Answer(User, "x")];
  }

  lemma {:induction false} ExchangeIsSuited()
    ensures Suited(HELLO, CALL, "c1")
  {
    assert "compact_boundary_" + "c1" == "compact_boundary_c1" && "compact_summary_" + "c1" == "compact_summary_c1";
    assert HELLO.id[1] != CALL.id[1];
  }

  /**
   The run exists, it installs a compaction, and afterwards the answer breaks the conversation, although the
   conversation as it was appended is whole.
   */
  lemma {:induction false} FullCompactionStrandsOpenCall(o: Options) returns (cs: seq<Context>)
    ensures IsRun(cs, [Append(HELLO), Append(CALL), Compact(Full, None, 0, "c1", "summary", NO_EXTRAS, o)])
    ensures Accepts(Turns([HELLO, CALL] + [ANSWER]))
    ensures !Accepts(Turns(Visible(cs[3].records) + [ANSWER]))
  {
    ExchangeIsSuited();
    CallIsOpen();
    cs := ShortestRun(HELLO, CALL, "c1", "summary", o);
    CompletionIsStranded(HELLO, CALL, "c1", "summary", [ANSWER]);
  }
}
