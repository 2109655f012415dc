/**
 Tool pairs across a cut. The search looks for tool blocks in strings too, the protocol does not; when a text that
 parses as tool blocks misleads the search, a cut may sever a real pair.
 */
module PairCut {
  import opened Sequences
  import opened Identifiers
  import opened Transcript
  import opened ToolProtocol
  import opened RoundCut

  /** The ids that the rows really use, and those that they really answer. */
  function Calls(rs: seq<Record>): set<Id> {
    UseIds(Events(Turns(rs)))
  }

  function Replies(rs: seq<Record>): set<Id> {
    AnswerIds(Events(Turns(rs)))
  }

  /** A text among the rows parses to a use, or to an answer, of the id. */
  ghost predicate EmbedsUse(rs: seq<Record>, id: Id) {
    exists r :: r in rs && r.content.Text? && UsesIn(r, id)
  }

  ghost predicate EmbedsAnswer(rs: seq<Record>, id: Id) {
    exists r :: r in rs && r.content.Text? && AnswersIn(r, id)
  }

  ghost predicate Used(rs: seq<Record>, id: Id) {
    exists r :: r in rs && UsesIn(r, id)
  }

  ghost predicate Answered(rs: seq<Record>, id: Id) {
    exists r :: r in rs && AnswersIn(r, id)
  }

  lemma {:induction false} BlockIds(role: Role, bs: seq<Block>)
    ensures UseIds(BlockEvents(role, bs)) == BlockUses(bs)
    ensures AnswerIds(BlockEvents(role, bs)) == BlockAnswers(bs)
  {
    if bs != [] {
      BlockIds(role, bs[1..]);
      assert bs == [bs[0]] + bs[1..];
      BlockEventsConcat(role, [bs[0]], bs[1..]);
      EventIdsConcat(BlockEvents(role, [bs[0]]), BlockEvents(role, bs[1..]));
      assert BlockEvents(role, [bs[0]][1..]) == [];
    }
  }

  lemma {:induction false} TurnIds(r: Record)
    ensures Calls([r]) == if r.content.Blocks? then BlockUses(r.content.blocks) else {}
    ensures Replies([r]) == if r.content.Blocks? then BlockAnswers(r.content.blocks) else {}
  {
    var t := Turn(r.role, r.content);
    assert Turns([r]) == [t] && [t][1..] == [] && Events([]) == [];
    assert Events([t]) == TurnEvents(t);
    if r.content.Blocks? {
      BlockIds(r.role, r.content.blocks);
      var begin := if r.role.Assistant? then [AssistantTurn] else [];
      EventIdsConcat(begin, BlockEvents(r.role, r.content.blocks));
    }
  }

  lemma {:induction false} IdsOfBoth(a: seq<Record>, b: seq<Record>)
    ensures Calls(a + b) == Calls(a) + Calls(b) && Replies(a + b) == Replies(a) + Replies(b)
  {
    ContinuedEvents(a, b);
    EventIdsConcat(Events(Turns(a)), Events(Turns(b)));
  }

  lemma {:induction false} SeenUses(rs: seq<Record>, id: Id)
    ensures Used(rs, id) <==> id in Calls(rs) || EmbedsUse(rs, id)
  {
    if rs != [] {
      var init, r := rs[..|rs| - 1], rs[|rs| - 1];
      assert rs == init + [r];
      SeenUses(init, id);
      TurnIds(r);
      IdsOfBoth(init, [r]);
      assert Used(rs, id) <==> Used(init, id) || UsesIn(r, id);
      assert EmbedsUse(rs, id) <==> EmbedsUse(init, id) || (r.content.Text? && UsesIn(r, id));
    }
  }

  lemma {:induction false} SeenAnswers(rs: seq<Record>, id: Id)
    ensures Answered(rs, id) <==> id in Replies(rs) || EmbedsAnswer(rs, id)
  {
    if rs != [] {
      var init, r := rs[..|rs| - 1], rs[|rs| - 1];
      assert rs == init + [r];
      SeenAnswers(init, id);
      TurnIds(r);
      IdsOfBoth(init, [r]);
      assert Answered(rs, id) <==> Answered(init, id) || AnswersIn(r, id);
      assert EmbedsAnswer(rs, id) <==> EmbedsAnswer(init, id) || (r.content.Text? && AnswersIn(r, id));
    }
  }

  /** What the search sees is what really happens and what texts embed. */
  lemma {:induction false} SeenIds(rs: seq<Record>, id: Id)
    ensures Used(rs, id) <==> id in Calls(rs) || EmbedsUse(rs, id)
    ensures Answered(rs, id) <==> id in Replies(rs) || EmbedsAnswer(rs, id)
  {
    SeenUses(rs, id);
    SeenAnswers(rs, id);
  }

  // ---- When both sides are whole ----

  /** The cut lies between a real use and its real answer. */
  predicate SeversPair(rs: seq<Record>, cut: nat, id: Id) {
    cut <= |rs| && id in Calls(rs[..cut]) && id in Replies(rs[cut..])
  }

  predicate WholeAt(rs: seq<Record>, cut: nat) {
    cut <= |rs| && Accepts(Turns(rs[..cut])) && Accepts(Turns(rs[cut..]))
  }

  lemma {:induction false} SidesShareNoIds(rs: seq<Record>, cut: nat)
    requires Accepts(Turns(rs)) && cut <= |rs|
    ensures Calls(rs[..cut]) !! Calls(rs[cut..]) && Replies(rs[..cut]) !! Replies(rs[cut..])
  {
    assert rs[..cut] + rs[cut..] == rs;
    ContinuedEvents(rs[..cut], rs[cut..]);
    RunMeaning(Events(Turns(rs)));
    UniqueAcross(Events(Turns(rs[..cut])), Events(Turns(rs[cut..])));
  }

  lemma {:induction false} WholeSeversNone(rs: seq<Record>, cut: nat, id: Id)
    requires Accepts(Turns(rs)) && WholeAt(rs, cut)
    ensures !SeversPair(rs, cut, id)
  {
    AcceptedIsAnswered(Events(Turns(rs[..cut])));
    SidesShareNoIds(rs, cut);
  }

  lemma {:induction false} WholeWithoutSevered(rs: seq<Record>, cut: nat)
    requires Accepts(Turns(rs)) && cut <= |rs| && Calls(rs[..cut]) !! Replies(rs[cut..])
    ensures WholeAt(rs, cut)
  {
    assert rs[..cut] + rs[cut..] == rs;
    ContinuedEvents(rs[..cut], rs[cut..]);
    CutPreserves(Events(Turns(rs[..cut])), Events(Turns(rs[cut..])));
  }

  /** Both sides of a cut are accepted if and only if it severs no real pair. */
  lemma {:induction false} WholeIffNoPairSevered(rs: seq<Record>, cut: nat)
    requires Accepts(Turns(rs)) && cut <= |rs|
    ensures WholeAt(rs, cut) <==> forall id :: !SeversPair(rs, cut, id)
  {
    if WholeAt(rs, cut) {
      forall id ensures !SeversPair(rs, cut, id) {
        WholeSeversNone(rs, cut, id);
      }
    } else if id :| id in Calls(rs[..cut]) && id in Replies(rs[cut..]) {
      assert SeversPair(rs, cut, id);
    } else {
      WholeWithoutSevered(rs, cut);
      assert false;
    }
  }

  lemma {:induction false} LastUseFrom(rs: seq<Record>, id: Id, i: nat) returns (u: nat)
    requires i < |rs| && UsesIn(rs[i], id)
    ensures i <= u && LastUse(rs, id, u)
    decreases |rs| - i
  {
    if LastUse(rs, id, i) {
      u := i;
    } else {
      var k: nat :| i < k < |rs| && UsesIn(rs[k], id);
      u := LastUseFrom(rs, id, k);
    }
  }

  lemma {:induction false} LastAnswerFrom(rs: seq<Record>, id: Id, i: nat) returns (a: nat)
    requires i < |rs| && AnswersIn(rs[i], id)
    ensures i <= a && LastAnswer(rs, id, a)
    decreases |rs| - i
  {
    if LastAnswer(rs, id, i) {
      a := i;
    } else {
      var k: nat :| i < k < |rs| && AnswersIn(rs[k], id);
      a := LastAnswerFrom(rs, id, k);
    }
  }

  /** A cut that the search takes for safe has another use behind it of whatever is used before and answered behind. */
  lemma {:induction false} SafeCutSeesUse(rs: seq<Record>, cut: nat, id: Id, i: nat, k: nat)
    requires ToolSafe(rs, cut) && i < cut <= k < |rs| && UsesIn(rs[i], id) && AnswersIn(rs[k], id)
    ensures Used(rs[cut..], id)
  {
    var u := LastUseFrom(rs, id, i);
    var a := LastAnswerFrom(rs, id, k);
    assert u >= cut;
    assert rs[u] == rs[cut..][u - cut];
    assert rs[u] in rs[cut..];
  }

  lemma {:induction false} UsedAt(rs: seq<Record>, cut: nat, id: Id) returns (i: nat)
    requires cut <= |rs| && Used(rs[..cut], id)
    ensures i < cut && UsesIn(rs[i], id)
  {
    var r :| r in rs[..cut] && UsesIn(r, id);
    i :| i < cut && rs[..cut][i] == r;
  }

  lemma {:induction false} AnsweredAt(rs: seq<Record>, cut: nat, id: Id) returns (k: nat)
    requires cut <= |rs| && Answered(rs[cut..], id)
    ensures cut <= k < |rs| && AnswersIn(rs[k], id)
  {
    var r :| r in rs[cut..] && AnswersIn(r, id);
    var j: nat :| j < |rs| - cut && rs[cut..][j] == r;
    k := cut + j;
  }

  /** So it severs a real pair only if a text behind it embeds that other use. */
  lemma {:induction false} SeveredBehindText(rs: seq<Record>, cut: nat, id: Id)
    requires Accepts(Turns(rs)) && ToolSafe(rs, cut) && SeversPair(rs, cut, id)
    ensures EmbedsUse(rs[cut..], id)
  {
    SeenIds(rs[..cut], id);
    SeenIds(rs[cut..], id);
    var i := UsedAt(rs, cut, id);
    var k := AnsweredAt(rs, cut, id);
    SafeCutSeesUse(rs, cut, id, i, k);
    SidesShareNoIds(rs, cut);
  }

  /** A pair that the search would let a cut sever, a text behind the cut posing as its use. */
  ghost predicate ExposedPair(rs: seq<Record>, cut: nat, id: Id) {
    0 < cut < |rs| && Settled(rs, cut) && SeversPair(rs, cut, id) && EmbedsUse(rs[cut..], id)
  }

  /**
   Every cut that the search may return for some pivot leaves two accepted sides, if and only if no pair is exposed
   by a text.
   */
  lemma {:induction false} CutsWholeIffNoExposedPair(rs: seq<Record>)
    requires Accepts(Turns(rs))
    ensures (forall pivot: nat, cut: nat :: pivot < |rs| && IsRoundStart(rs, pivot, cut) ==> WholeAt(rs, cut))
            <==> (forall cut: nat, id :: !ExposedPair(rs, cut, id))
  {
    if forall pivot: nat, cut: nat :: pivot < |rs| && IsRoundStart(rs, pivot, cut) ==> WholeAt(rs, cut) {
      forall cut: nat, id ensures !ExposedPair(rs, cut, id) {
        if ExposedPair(rs, cut, id) {
          SettledPivotStays(rs, cut);
          WholeIffNoPairSevered(rs, cut);
          assert false;
        }
      }
    }
    if forall cut: nat, id :: !ExposedPair(rs, cut, id) {
      forall pivot: nat, cut: nat | pivot < |rs| && IsRoundStart(rs, pivot, cut) ensures WholeAt(rs, cut) {
        SettledIsWhole(rs, cut);
      }
    }
  }

  lemma {:induction false} SettledIsWhole(rs: seq<Record>, cut: nat)
    requires Accepts(Turns(rs)) && cut < |rs| && Settled(rs, cut)
    requires forall id :: !ExposedPair(rs, cut, id)
    ensures WholeAt(rs, cut)
  {
    WholeIffNoPairSevered(rs, cut);
    forall id ensures !SeversPair(rs, cut, id) {
      if SeversPair(rs, cut, id) {
        SeveredBehindText(rs, cut, id);
        assert Turns(rs[..0]) == [];
        assert ExposedPair(rs, cut, id);
      }
    }
  }

  /** For every mode both sides of a split are accepted, unless it is a partial one and severs a real pair. */
  lemma {:induction false} SplitKeepsToolPairsIff(source: seq<Record>, mode: Mode, pivotId: Option<Id>, cut: nat)
    requires Accepts(Turns(source)) && SplitAt(source, mode, pivotId, cut).Some?
    ensures var split := SplitAt(source, mode, pivotId, cut).value;
            Accepts(Turns(split.archived)) && Accepts(Turns(split.retained)) <==>
            mode.Full? || forall id :: !SeversPair(source, cut, id)
  {
    if mode.Full? {
      assert Turns([]) == [];
    } else {
      WholeIffNoPairSevered(source, cut);
    }
  }

  // ---- A text that hides a tool block ----

  function Plain(id: Id, role: Role, content: Content): Record {
    Record(id, role, Message, content, None, None, None, false)
  }

  /** A text that parses to a second use of `x`, between the use of `x` and its answer. */
  const HIDDEN_USE := [
    Plain("a", Assistant, Blocks([ToolUse("x", "grep_search")])),
    Plain("b", User, Text("[{...}]", [ToolUse("x", "grep_search")])),
    Plain("c", User, Blocks([ToolResult("x", "hit")]))]

  lemma {:induction false} HiddenUseIsAccepted()
    ensures Accepts(Turns(HIDDEN_USE))
  {
    var ts := Turns(HIDDEN_USE);
    assert ts[1..][1..] == [ts[2]] && ts[2..][1..] == [];
    assert Events(ts[2..]) == TurnEvents(ts[2]);
    assert [ToolUse("x", "grep_search")][1..] == [] && [ToolResult("x", "hit")][1..] == [];
    assert TurnEvents(ts[0]) == [AssistantTurn, Use(Assistant, "x")];
    assert TurnEvents(ts[1]) == [];
    assert TurnEvents(ts[2]) == [Answer(User, "x")];
    assert Events(ts) == [AssistantTurn, Use(Assistant, "x"), Answer(User, "x")];
    OneExchange("x");
  }

  /** A call that nothing answers is not accepted, and neither is an answer to nothing. */
  lemma {:induction false} HalvesAreBroken(id: Id)
    ensures !AcceptsEvents([AssistantTurn, Use(Assistant, id)]) && !AcceptsEvents([Answer(User, id)])
  {
    OneEvent(AssistantTurn);
    OneEvent(Use(Assistant, id));
    OneEvent(Answer(User, id));
    EventIdsConcat([AssistantTurn], [Use(Assistant, id)]);
    assert [AssistantTurn, Use(Assistant, id)] == [AssistantTurn] + [Use(Assistant, id)];
    if AcceptsEvents([AssistantTurn, Use(Assistant, id)]) {
      AcceptedIsAnswered([AssistantTurn, Use(Assistant, id)]);
    }
    if AcceptsEvents([Answer(User, id)]) {
      AcceptedIsAnswered([Answer(User, id)]);
    }
  }

  lemma {:induction false} OneExchange(id: Id)
    requires Exact(id)
    ensures AcceptsEvents([AssistantTurn, Use(Assistant, id), Answer(User, id)])
  {
    var es := [AssistantTurn, Use(Assistant, id), Answer(User, id)];
    assert es[1..] == [Use(Assistant, id), Answer(User, id)];
    assert es[1..][1..] == [Answer(User, id)];
    assert [Answer(User, id)][1..] == [];
    var called := Open({id}, {});
    assert Run(called, es[1..][1..]) == Open({id}, {id});
    assert Step(START, AssistantTurn) == START && Step(START, Use(Assistant, id)) == called;
    assert Run(START, es[1..]) == Run(called, es[1..][1..]);
    assert Run(START, es) == Run(START, es[1..]);
  }

  /** The search keeps the pivot at the hidden use. */
  lemma {:induction false} HiddenUseSettles()
    ensures forall cut: nat :: IsRoundStart(HIDDEN_USE, 1, cut) <==> cut == 1
  {
    var rs := HIDDEN_USE;
    assert ToolUse("x", "grep_search") in Normalized(rs[1].content);
    assert UsesIn(rs[1], "x");
    forall id, u: nat, a: nat | LastUse(rs, id, u) && LastAnswer(rs, id, a) ensures !(u < 1 <= a) {
      assert UsesIn(rs[0], id) ==> id == "x";
    }
    assert Settled(rs, 1);
    SettledPivotStays(rs, 1);
  }

  /** The search then accepts a cut that severs the real pair, although the whole conversation is accepted. */
  lemma {:induction false} HiddenUseSeversPair()
    ensures Accepts(Turns(HIDDEN_USE))
    ensures forall cut: nat :: IsRoundStart(HIDDEN_USE, 1, cut) ==> !Accepts(Turns(HIDDEN_USE[cut..]))
  {
    HiddenUseIsAccepted();
    HiddenUseSettles();
    var rs := HIDDEN_USE;
    var ts := Turns(rs[1..]);
    assert ts == [ts[0]] + [ts[1]];
    EventsConcat([ts[0]], [ts[1]]);
    assert [ts[0]][1..] == [] && [ts[1]][1..] == [];
    assert [ToolResult("x", "hit")][1..] == [];
    assert TurnEvents(ts[0]) == [] && TurnEvents(ts[1]) == [Answer(User, "x")];
    assert Events(ts) == [Answer(User, "x")];
    assert Run(START, Events(ts)).Broken?;
  }
}
