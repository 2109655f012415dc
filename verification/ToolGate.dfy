/**
 The global tool-integrity gate that a partial compaction passes through before it is offered. Like the cut search,
 and unlike the protocol, it also looks for tool blocks in strings.
 */
module ToolGate {
  import opened Sequences
  import opened Identifiers
  import opened Transcript
  import opened ToolProtocol
  import opened RoundCut
  import opened RowRemoval
  import opened PairCut

  // ---- The gate ----

  function UseCount(bs: seq<Block>, id: Id): nat {
    if bs == [] then 0 else (if bs[0].ToolUse? && bs[0].id == id then 1 else 0) + UseCount(bs[1..], id)
  }

  /** How often the gate sees the id used. */
  function SeenCount(rs: seq<Record>, id: Id): nat {
    if rs == [] then 0 else UseCount(Normalized(rs[0].content), id) + SeenCount(rs[1..], id)
  }

  function SeenUseIds(rs: seq<Record>): set<Id> {
    set r, id | r in rs && id in BlockUses(Normalized(r.content)) :: id
  }

  function SeenAnswerIds(rs: seq<Record>): set<Id> {
    set r, id | r in rs && id in BlockAnswers(Normalized(r.content)) :: id
  }

  /** No use is seen twice, every answer has a use, and every use by an assistant has an answer. */
  predicate GlobalIntegrity(rs: seq<Record>) {
    && (forall id | id in SeenUseIds(rs) :: SeenCount(rs, id) == 1)
    && SeenAnswerIds(rs) <= SeenUseIds(rs)
    && (forall r | r in rs && r.role.Assistant? :: BlockUses(Normalized(r.content)) <= SeenAnswerIds(rs))
  }

  lemma {:induction false} SeenUseIdsMean(rs: seq<Record>, id: Id)
    ensures id in SeenUseIds(rs) <==> Used(rs, id)
  {
    if Used(rs, id) {
      var r :| r in rs && UsesIn(r, id);
      assert r in rs && id in BlockUses(Normalized(r.content));
    }
  }

  lemma {:induction false} SeenAnswerIdsMean(rs: seq<Record>, id: Id)
    ensures id in SeenAnswerIds(rs) <==> Answered(rs, id)
  {
    if Answered(rs, id) {
      var r :| r in rs && AnswersIn(r, id);
      assert r in rs && id in BlockAnswers(Normalized(r.content));
    }
  }

  // ---- What passing the gate tells of the real blocks ----

  /**
   An id that a text deceives the gate about: really used and not answered, but a text embeds an answer; or really
   answered and not used, but a text embeds a use.
   */
  ghost predicate Misread(rs: seq<Record>, id: Id) {
    || (id in Calls(rs) && id !in Replies(rs) && EmbedsAnswer(rs, id))
    || (id in Replies(rs) && id !in Calls(rs) && EmbedsUse(rs, id))
  }

  ghost predicate ByAssistant(es: seq<Event>) {
    forall e :: e in es && e.Use? ==> e.role.Assistant?
  }

  lemma {:induction false} CallsByAssistants(rs: seq<Record>)
    requires Run(START, Events(Turns(rs))).Open?
    ensures ByAssistant(Events(Turns(rs)))
  {
    RunMeaning(Events(Turns(rs)));
  }

  lemma {:induction false} ByAssistantParts(a: seq<Record>, b: seq<Record>)
    requires ByAssistant(Events(Turns(a + b)))
    ensures ByAssistant(Events(Turns(a))) && ByAssistant(Events(Turns(b)))
  {
    ContinuedEvents(a, b);
    forall e: Event | e in Events(Turns(a)) || e in Events(Turns(b)) ensures e in Events(Turns(a + b)) {
    }
  }

  /** Where the real uses are the assistants', some assistant's record makes each of them. */
  lemma {:induction false} CallerOf(rs: seq<Record>, id: Id) returns (r: Record)
    requires id in Calls(rs) && ByAssistant(Events(Turns(rs)))
    ensures r in rs && r.role.Assistant? && r.content.Blocks? && UsesIn(r, id)
  {
    var head, rest := [rs[0]], rs[1..];
    assert rs == head + rest;
    IdsOfBoth(head, rest);
    ByAssistantParts(head, rest);
    if id in Calls(rest) {
      r := CallerOf(rest, id);
    } else {
      r := rs[0];
      TurnIds(r);
      var e :| e in Events(Turns(head)) && e.Use? && e.id == id;
      EventsOfOne(r, e);
    }
  }

  lemma {:induction false} EventsOfOne(r: Record, e: Event)
    requires e in Events(Turns([r])) && e.Use?
    ensures e.role == r.role
  {
    var t := Turn(r.role, r.content);
    assert Turns([r]) == [t] && [t][1..] == [] && Events([]) == [];
    assert Events([t]) == TurnEvents(t);
    if r.content.Blocks? {
      RoleOfBlocks(r.role, r.content.blocks);
    }
  }

  lemma {:induction false} RoleOfBlocks(role: Role, bs: seq<Block>)
    ensures forall e: Event | e in BlockEvents(role, bs) && e.Use? :: e.role == role
  {
    if bs != [] {
      RoleOfBlocks(role, bs[1..]);
    }
  }

  /** Rows that pass the gate answer exactly their real calls, if and only if no text deceives it. */
  lemma {:induction false} GateIsExact(rs: seq<Record>)
    requires GlobalIntegrity(rs) && ByAssistant(Events(Turns(rs)))
    ensures SelfContained(rs) <==> forall id :: !Misread(rs, id)
  {
    if SelfContained(rs) {
    } else if id :| id in Calls(rs) && id !in Replies(rs) {
      PassedCall(rs, id);
      assert Misread(rs, id);
    } else {
      var id :| id in Replies(rs) && id !in Calls(rs);
      PassedReply(rs, id);
      assert Misread(rs, id);
    }
  }

  lemma {:induction false} PassedCall(rs: seq<Record>, id: Id)
    requires GlobalIntegrity(rs) && ByAssistant(Events(Turns(rs))) && id in Calls(rs)
    ensures id in Replies(rs) || EmbedsAnswer(rs, id)
  {
    var r := CallerOf(rs, id);
    SeenAnswerIdsMean(rs, id);
    SeenIds(rs, id);
  }

  lemma {:induction false} PassedReply(rs: seq<Record>, id: Id)
    requires GlobalIntegrity(rs) && id in Replies(rs)
    ensures id in Calls(rs) || EmbedsUse(rs, id)
  {
    SeenIds(rs, id);
    SeenAnswerIdsMean(rs, id);
    SeenUseIdsMean(rs, id);
  }

  // ---- A cut that passes the gate ----

  /** A severed pair that the gate takes for two whole ones: each half has a double in a text on its own side. */
  ghost predicate Masked(rs: seq<Record>, cut: nat, id: Id) {
    SeversPair(rs, cut, id) && EmbedsAnswer(rs[..cut], id) && EmbedsUse(rs[cut..], id)
  }

  /** Whatever cut passes the gate, both sides are accepted if and only if no severed pair is masked by texts. */
  lemma {:induction false} PassedCutIsWholeIff(rs: seq<Record>, cut: nat)
    requires Accepts(Turns(rs)) && cut <= |rs|
    requires GlobalIntegrity(rs[..cut]) && GlobalIntegrity(rs[cut..])
    ensures WholeAt(rs, cut) <==> forall id :: !Masked(rs, cut, id)
  {
    WholeIffNoPairSevered(rs, cut);
    assert rs[..cut] + rs[cut..] == rs;
    CallsByAssistants(rs);
    ByAssistantParts(rs[..cut], rs[cut..]);
    SidesShareNoIds(rs, cut);
    if id :| SeversPair(rs, cut, id) {
      PassedCall(rs[..cut], id);
      PassedReply(rs[cut..], id);
      assert Masked(rs, cut, id);
    }
  }

  // ---- Whom the gate refuses ----

  /** The texts among the rows are consistent with everything that is seen. */
  ghost predicate TextIntact(rs: seq<Record>) {
    && (forall id :: EmbedsUse(rs, id) ==> SeenCount(rs, id) == 1)
    && (forall id :: EmbedsAnswer(rs, id) ==> Used(rs, id))
    && (forall r, id :: r in rs && r.role.Assistant? && r.content.Text? && UsesIn(r, id) ==> Answered(rs, id))
  }

  lemma {:induction false} UseCountOpen(role: Role, bs: seq<Block>, id: Id, st: Protocol)
    requires st.Open? && Run(st, BlockEvents(role, bs)).Open?
    ensures UseCount(bs, id) == if id in BlockUses(bs) then 1 else 0
    ensures id in BlockUses(bs) ==> id !in st.calls
  {
    if bs != [] {
      var head := BlockEvents(role, [bs[0]]);
      assert bs == [bs[0]] + bs[1..];
      BlockEventsConcat(role, [bs[0]], bs[1..]);
      RunConcat(st, head, BlockEvents(role, bs[1..]));
      OneBlock(role, bs[0], st);
      UseCountOpen(role, bs[1..], id, Run(st, head));
      assert BlockUses(bs) == BlockUses(bs[1..]) + if bs[0].ToolUse? then {bs[0].id} else {};
      RunIsFresh(st, head);
    }
  }

  lemma {:induction false} NoUseNoCount(bs: seq<Block>, id: Id)
    requires id !in BlockUses(bs)
    ensures UseCount(bs, id) == 0
  {
    if bs != [] {
      assert bs[0] in bs;
      NoUseNoCount(bs[1..], id);
    }
  }

  lemma {:induction false} TurnCount(r: Record, id: Id, st: Protocol)
    requires st.Open? && Run(st, Events(Turns([r]))).Open?
    requires r.content.Text? ==> !UsesIn(r, id)
    ensures UseCount(Normalized(r.content), id) == if id in Calls([r]) then 1 else 0
  {
    TurnIds(r);
    if r.content.Text? {
      NoUseNoCount(r.content.embedded, id);
    } else {
      var t := Turn(r.role, r.content);
      assert Turns([r]) == [t] && [t][1..] == [] && Events([]) == [];
      assert Events([t]) == TurnEvents(t);
      OneTurn(t, st);
      UseCountOpen(r.role, r.content.blocks, id, st);
    }
  }

  /** In a conversation that the protocol runs through, an id that no text embeds is seen at most once. */
  lemma {:induction false} RealUsesAreSeenOnce(rs: seq<Record>, id: Id, st: Protocol)
    requires st.Open? && Run(st, Events(Turns(rs))).Open? && !EmbedsUse(rs, id)
    ensures SeenCount(rs, id) == if id in Calls(rs) then 1 else 0
  {
    if rs != [] {
      var head, rest := [rs[0]], rs[1..];
      assert rs == head + rest;
      ContinuedEvents(head, rest);
      IdsOfBoth(head, rest);
      RunConcat(st, Events(Turns(head)), Events(Turns(rest)));
      var next := Run(st, Events(Turns(head)));
      RunIsFresh(st, Events(Turns(head)));
      RunIsFresh(next, Events(Turns(rest)));
      assert rs[0] in rs && forall r | r in rest :: r in rs;
      TurnCount(rs[0], id, st);
      RealUsesAreSeenOnce(rest, id, next);
    }
  }

  lemma {:induction false} CallsAreAnswered(rs: seq<Record>, r: Record)
    requires Accepts(Turns(rs)) && r in rs && r.content.Blocks?
    ensures forall id | id in BlockUses(Normalized(r.content)) :: Answered(rs, id)
  {
    forall id | id in BlockUses(Normalized(r.content)) ensures Answered(rs, id) {
      RowCalls(rs, r, id);
      AcceptedIsAnswered(Events(Turns(rs)));
      SeenIds(rs, id);
    }
  }

  lemma {:induction false} RowCalls(rs: seq<Record>, r: Record, id: Id)
    requires r in rs && r.content.Blocks? && UsesIn(r, id)
    ensures id in Calls(rs)
  {
    var head, rest := [rs[0]], rs[1..];
    assert rs == head + rest;
    IdsOfBoth(head, rest);
    if r == rs[0] {
      TurnIds(r);
    } else {
      RowCalls(rest, r, id);
    }
  }

  /** The gate never objects to real blocks: an accepted side is refused if and only if its texts are at fault. */
  lemma {:induction false} GateRefusesOnlyTexts(rs: seq<Record>)
    requires Accepts(Turns(rs))
    ensures GlobalIntegrity(rs) <==> TextIntact(rs)
  {
    if GlobalIntegrity(rs) {
      IntegrityIsIntact(rs);
    }
    if TextIntact(rs) {
      IntactHasIntegrity(rs);
    }
  }

  lemma {:induction false} IntegrityIsIntact(rs: seq<Record>)
    requires GlobalIntegrity(rs)
    ensures TextIntact(rs)
  {
    forall id | EmbedsUse(rs, id) ensures SeenCount(rs, id) == 1 {
      SeenIds(rs, id);
      SeenUseIdsMean(rs, id);
    }
    forall id | EmbedsAnswer(rs, id) ensures Used(rs, id) {
      SeenIds(rs, id);
      SeenAnswerIdsMean(rs, id);
      SeenUseIdsMean(rs, id);
    }
    forall r, id | r in rs && r.role.Assistant? && r.content.Text? && UsesIn(r, id) ensures Answered(rs, id) {
      SeenAnswerIdsMean(rs, id);
    }
  }

  lemma {:induction false} IntactHasIntegrity(rs: seq<Record>)
    requires Accepts(Turns(rs)) && TextIntact(rs)
    ensures GlobalIntegrity(rs)
  {
    forall id | id in SeenUseIds(rs) ensures SeenCount(rs, id) == 1 {
      SeenUseIdsMean(rs, id);
      SeenIds(rs, id);
      if !EmbedsUse(rs, id) {
        RealUsesAreSeenOnce(rs, id, START);
      }
    }
    forall id | id in SeenAnswerIds(rs) ensures id in SeenUseIds(rs) {
      SeenAnswerIdsMean(rs, id);
      SeenUseIdsMean(rs, id);
      SeenIds(rs, id);
      AcceptedIsAnswered(Events(Turns(rs)));
    }
    forall r | r in rs && r.role.Assistant? ensures BlockUses(Normalized(r.content)) <= SeenAnswerIds(rs) {
      AssistantAnswered(rs, r);
    }
  }

  lemma {:induction false} AssistantAnswered(rs: seq<Record>, r: Record)
    requires Accepts(Turns(rs)) && TextIntact(rs) && r in rs && r.role.Assistant?
    ensures BlockUses(Normalized(r.content)) <= SeenAnswerIds(rs)
  {
    forall id | id in BlockUses(Normalized(r.content)) ensures id in SeenAnswerIds(rs) {
      SeenAnswerIdsMean(rs, id);
      if r.content.Blocks? {
        CallsAreAnswered(rs, r);
      } else {
        assert UsesIn(r, id);
      }
    }
  }

  /** A split of an accepted source is refused, its pairs being whole, if and only if a text is at fault. */
  lemma {:induction false} GatePassesIff(source: seq<Record>, mode: Mode, pivotId: Option<Id>, cut: nat)
    requires Accepts(Turns(source)) && SplitAt(source, mode, pivotId, cut).Some?
    requires mode.Full? || forall id :: !SeversPair(source, cut, id)
    ensures var split := SplitAt(source, mode, pivotId, cut).value;
            GlobalIntegrity(split.archived) && GlobalIntegrity(split.retained) <==>
            TextIntact(split.archived) && TextIntact(split.retained)
  {
    var split := SplitAt(source, mode, pivotId, cut).value;
    SplitKeepsToolPairsIff(source, mode, pivotId, cut);
    GateRefusesOnlyTexts(split.archived);
    GateRefusesOnlyTexts(split.retained);
  }

  /** The split that the search offers around a hidden use does not pass the gate: its first side has an open call. */
  lemma {:induction false} HiddenUseIsRefused()
    ensures forall cut: nat :: IsRoundStart(HIDDEN_USE, 1, cut) ==>
              cut == 1 && !GlobalIntegrity(HIDDEN_USE[..cut])
  {
    var rs := HIDDEN_USE;
    HiddenUseSettles();
    var first := rs[..1];
    assert first == [rs[0]] && rs[0] in first && rs[0].role.Assistant?;
    assert ToolUse("x", "grep_search") in Normalized(rs[0].content);
    assert "x" in BlockUses(Normalized(rs[0].content));
    assert "x" !in SeenAnswerIds(first);
  }
}
