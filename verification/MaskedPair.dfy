/**
 Texts that deceive both the cut search and the gate: a partial compaction is offered that severs a real pair. Only
 the assertion over the new view, which does not look into strings, refuses it.
 */
module MaskedPair {
  import opened Sequences
  import opened Identifiers
  import opened Transcript
  import opened ToolProtocol
  import opened RoundCut
  import opened PairCut
  import opened ToolGate
  import opened Compaction
  import opened StrandedCall

  const CALLS := Plain("a", Assistant, Blocks([ToolUse("x", "grep_search")]))
  const POSES_AS_ANSWER := Plain("b", User, Text("[{...}]", [ToolResult("x", "hit")]))
  const POSES_AS_USE := Plain("c", User, Text("[{...}]", [ToolUse("x", "grep_search")]))
  const ANSWERS := Plain("d", User, Blocks([ToolResult("x", "hit")]))

  const MASKED := [CALLS, POSES_AS_ANSWER, POSES_AS_USE, ANSWERS]

  function Here(): Context {
    EMPTY.(records := MASKED)
  }

  function Deceived(commitId: Id): Candidate {
    Candidate(UpTo, commitId, 1, [CALLS, POSES_AS_ANSWER], [POSES_AS_USE, ANSWERS])
  }

  lemma {:induction false} RowEvents()
    ensures Events(Turns([CALLS])) == [AssistantTurn, Use(Assistant, "x")]
    ensures Events(Turns([POSES_AS_ANSWER])) == [] && Events(Turns([POSES_AS_USE])) == []
    ensures Events(Turns([ANSWERS])) == [Answer(User, "x")]
  {
    OneRow(CALLS);
    OneRow(POSES_AS_ANSWER);
    OneRow(POSES_AS_USE);
    OneRow(ANSWERS);
    assert [ToolUse("x", "grep_search")][1..] == [] && [ToolResult("x", "hit")][1..] == [];
    assert BlockEvents(Assistant, []) == [] && BlockEvents(User, []) == [];
  }

  lemma {:induction false} SideEvents()
    ensures Events(Turns([CALLS, POSES_AS_ANSWER])) == [AssistantTurn, Use(Assistant, "x")]
    ensures Events(Turns([POSES_AS_USE, ANSWERS])) == [Answer(User, "x")]
    ensures Events(Turns(MASKED)) == [AssistantTurn, Use(Assistant, "x"), Answer(User, "x")]
  {
    RowEvents();
    assert [CALLS, POSES_AS_ANSWER] == [CALLS] + [POSES_AS_ANSWER];
    assert [POSES_AS_USE, ANSWERS] == [POSES_AS_USE] + [ANSWERS];
    assert MASKED == [CALLS, POSES_AS_ANSWER] + [POSES_AS_USE, ANSWERS];
    ContinuedEvents([CALLS], [POSES_AS_ANSWER]);
    ContinuedEvents([POSES_AS_USE], [ANSWERS]);
    ContinuedEvents([CALLS, POSES_AS_ANSWER], [POSES_AS_USE, ANSWERS]);
  }

  lemma {:induction false} SidesAreBroken()
    ensures Accepts(Turns(MASKED))
    ensures !Accepts(Turns([CALLS, POSES_AS_ANSWER])) && !Accepts(Turns([POSES_AS_USE, ANSWERS]))
  {
    SideEvents();
    OneExchange("x");
    HalvesAreBroken("x");
  }

  lemma {:induction false} SeenBlocks()
    ensures BlockUses(Normalized(CALLS.content)) == {"x"} && BlockAnswers(Normalized(CALLS.content)) == {}
    ensures BlockUses(Normalized(POSES_AS_ANSWER.content)) == {}
    ensures BlockAnswers(Normalized(POSES_AS_ANSWER.content)) == {"x"}
    ensures BlockUses(Normalized(POSES_AS_USE.content)) == {"x"}
    ensures BlockAnswers(Normalized(POSES_AS_USE.content)) == {}
    ensures BlockUses(Normalized(ANSWERS.content)) == {} && BlockAnswers(Normalized(ANSWERS.content)) == {"x"}
  {
    assert ToolUse("x", "grep_search") in [ToolUse("x", "grep_search")];
    assert ToolResult("x", "hit") in [ToolResult("x", "hit")];
  }

  lemma {:induction false} OnlyX(id: Id, i: nat)
    requires i < |MASKED| && UsesIn(MASKED[i], id)
    ensures id == "x"
  {
    SeenBlocks();
    assert i == 0 || i == 1 || i == 2 || i == 3;
  }

  /** The search keeps the pivot: the last use that it sees lies behind the cut. */
  lemma {:induction false} SearchIsDeceived()
    ensures IsRoundStart(MASKED, 2, 2)
  {
    SeenBlocks();
    assert UsesIn(MASKED[2], "x");
    forall id, u: nat, a: nat | LastUse(MASKED, id, u) && LastAnswer(MASKED, id, a) ensures !(u < 2 <= a) {
      OnlyX(id, u);
    }
    assert Settled(MASKED, 2);
    SettledPivotStays(MASKED, 2);
  }

  /** The gate sees a whole pair on either side. */
  lemma {:induction false} PairHasIntegrity(r: Record, s: Record)
    requires (Seen(r, {"x"}, {}) && Seen(s, {}, {"x"})) || (Seen(r, {}, {"x"}) && Seen(s, {"x"}, {}))
    requires UseCount(Normalized(r.content), "x") + UseCount(Normalized(s.content), "x") == 1
    ensures GlobalIntegrity([r, s])
  {
    assert [r, s][1..] == [s] && [s][1..] == [];
    assert SeenCount([], "x") == 0;
    assert SeenCount([s], "x") == UseCount(Normalized(s.content), "x");
    assert SeenCount([r, s], "x") == 1;
    assert r in [r, s] && s in [r, s];
    assert SeenUseIds([r, s]) == {"x"} && SeenAnswerIds([r, s]) == {"x"};
  }

  predicate Seen(r: Record, uses: set<Id>, answers: set<Id>) {
    BlockUses(Normalized(r.content)) == uses && BlockAnswers(Normalized(r.content)) == answers
  }

  lemma {:induction false} GateIsDeceived()
    ensures GlobalIntegrity([CALLS, POSES_AS_ANSWER]) && GlobalIntegrity([POSES_AS_USE, ANSWERS])
  {
    SeenBlocks();
    assert [ToolUse("x", "grep_search")][1..] == [] && [ToolResult("x", "hit")][1..] == [];
    assert UseCount([], "x") == 0;
    assert UseCount([ToolUse("x", "grep_search")], "x") == 1 && UseCount([ToolResult("x", "hit")], "x") == 0;
    PairHasIntegrity(CALLS, POSES_AS_ANSWER);
    PairHasIntegrity(POSES_AS_USE, ANSWERS);
  }

  lemma {:induction false} DeceivedSplit(commitId: Id)
    ensures OfferAt(MASKED, UpTo, Some("c"), commitId, 2, 1) == Some(Deceived(commitId))
    ensures IsCut(MASKED, UpTo, Some("c"), 2)
  {
    SearchIsDeceived();
    GateIsDeceived();
    ThirdIsPivot();
    assert MASKED[..2] == [CALLS, POSES_AS_ANSWER] && MASKED[2..] == [POSES_AS_USE, ANSWERS];
    assert CALLS in [CALLS, POSES_AS_ANSWER];
  }

  lemma {:induction false} ThirdIsPivot()
    ensures PivotIndex(MASKED, Some("c")) == 2
  {
    assert MASKED[0].id[0] != 'c' && MASKED[1].id[0] != 'c' && MASKED[2].id == "c";
  }

  /** The conversation is whole, its compaction up to the third message is offered, and neither side is accepted. */
  lemma {:induction false} MaskedPairIsOffered(commitId: Id)
    ensures Accepts(Turns(SourceRecords(Here().records)))
    ensures IsCandidate(Here(), UpTo, Some("c"), commitId, 2, Some(Deceived(commitId)))
    ensures !Accepts(Turns(Deceived(commitId).archived)) && !Accepts(Turns(Deceived(commitId).retained))
  {
    MessagesAreAll(MASKED);
    SidesAreBroken();
    DeceivedSplit(commitId);
  }
}
