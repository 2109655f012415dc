/**
 The provider's tool protocol. Every tool_use must be answered by exactly one later tool_result before the
 next assistant message. The assertion walks messages and blocks; here the walk is read as a run of a small
 automaton over tool events, which makes cutting, joining and decorating a conversation algebra on runs.
 */
module ToolProtocol {
  import opened Sequences
  import opened Identifiers
  import opened Transcript

  datatype Turn = Turn(role: Role, content: Content)

  datatype Event =
    | AssistantTurn
    | Use(role: Role, id: Id)
    | Answer(role: Role, id: Id)

  datatype ToolPairError =
    | UnresolvedBeforeAssistant
    | UseOutsideAssistant
    | UseWithoutId
    | DuplicateUse
    | AnswerOutsideUser
    | AnswerWithoutId
    | OrphanAnswer
    | DuplicateAnswer
    | UnresolvedAtEnd

  datatype Protocol = Open(calls: set<Id>, results: set<Id>) | Broken(error: ToolPairError)

  const START := Open({}, {})

  function BlockEvents(role: Role, bs: seq<Block>): seq<Event> {
    if bs == [] then []
    else
      (match bs[0]
       case ToolUse(id, _) => [Use(role, id)]
       case ToolResult(id, _) => [Answer(role, id)]
       case _ => []) + BlockEvents(role, bs[1..])
  }

  /** String content is opaque to the assertion, whatever it would parse to. */
  function TurnEvents(t: Turn): seq<Event> {
    (if t.role.Assistant? then [AssistantTurn] else []) +
    (if t.content.Blocks? then BlockEvents(t.role, t.content.blocks) else [])
  }

  function Events(ts: seq<Turn>): seq<Event> {
    if ts == [] then [] else TurnEvents(ts[0]) + Events(ts[1..])
  }

  function Step(st: Protocol, e: Event): Protocol
    requires st.Open?
  {
    match e
    case AssistantTurn =>
      if st.calls <= st.results then st else Broken(UnresolvedBeforeAssistant)
    case Use(role, id) =>
      if !role.Assistant? then Broken(UseOutsideAssistant)
      else if !Exact(id) then Broken(UseWithoutId)
      else if id in st.calls then Broken(DuplicateUse)
      else Open(st.calls + {id}, st.results)
    case Answer(role, id) =>
      if !role.User? then Broken(AnswerOutsideUser)
      else if !Exact(id) then Broken(AnswerWithoutId)
      else if id !in st.calls then Broken(OrphanAnswer)
      else if id in st.results then Broken(DuplicateAnswer)
      else Open(st.calls, st.results + {id})
  }

  function Run(st: Protocol, es: seq<Event>): Protocol
    decreases |es|
  {
    if st.Broken? || es == [] then st else Run(Step(st, es[0]), es[1..])
  }

  function Verdict(st: Protocol): Option<ToolPairError> {
    match st
    case Broken(error) => Some(error)
    case Open(calls, results) => if calls <= results then None else Some(UnresolvedAtEnd)
  }

  predicate AcceptsEvents(es: seq<Event>) {
    Verdict(Run(START, es)).None?
  }

  predicate Accepts(ts: seq<Turn>) {
    AcceptsEvents(Events(ts))
  }

  predicate IsToolBlock(b: Block) {
    b.ToolUse? || b.ToolResult?
  }

  ghost predicate AreEventsOf(es: seq<Event>, role: Role, tools: seq<Block>) {
    && |es| == |tools|
    && forall i | 0 <= i < |tools| ::
         if tools[i].ToolUse? then es[i] == Use(role, tools[i].id)
         else tools[i].ToolResult? && es[i] == Answer(role, tools[i].toolUseId)
  }

  lemma {:induction false} EventsOfBlocks(role: Role, bs: seq<Block>)
    ensures AreEventsOf(BlockEvents(role, bs), role, Filter(IsToolBlock, bs))
  {
    if bs != [] {
      var es, tools := BlockEvents(role, bs[1..]), Filter(IsToolBlock, bs[1..]);
      EventsOfBlocks(role, bs[1..]);
      if IsToolBlock(bs[0]) {
        var e := if bs[0].ToolUse? then Use(role, bs[0].id) else Answer(role, bs[0].toolUseId);
        assert BlockEvents(role, bs) == [e] + es;
        forall i | 0 < i < |tools| + 1 ensures ([e] + es)[i] == es[i - 1] && ([bs[0]] + tools)[i] == tools[i - 1] {
        }
      } else {
        assert [] + es == es;
      }
    }
  }

  /**
   What the walk sees of one more message: that an assistant speaks, and then each tool block of a block list in its
   place. Strings say nothing to it.
   */
  lemma {:induction false} EventsOfMessage(ts: seq<Turn>, t: Turn) returns (es: seq<Event>)
    ensures Events(ts + [t]) == Events(ts) + (if t.role.Assistant? then [AssistantTurn] else []) + es
    ensures AreEventsOf(es, t.role, if t.content.Text? then [] else Filter(IsToolBlock, t.content.blocks))
  {
    es := if t.content.Blocks? then BlockEvents(t.role, t.content.blocks) else [];
    EventsConcat(ts, [t]);
    assert [t][1..] == [] && Events([]) == [];
    assert Events([t]) == TurnEvents(t);
    if t.content.Blocks? {
      EventsOfBlocks(t.role, t.content.blocks);
    }
  }

  lemma {:induction false} RunConcat(st: Protocol, a: seq<Event>, b: seq<Event>)
    ensures Run(st, a + b) == Run(Run(st, a), b)
    decreases |a|
  {
    if st.Broken? || a == [] {
      assert a == [] ==> a + b == b;
    } else {
      assert (a + b)[1..] == a[1..] + b;
      RunConcat(Step(st, a[0]), a[1..], b);
    }
  }

  lemma {:induction false} EventsConcat(a: seq<Turn>, b: seq<Turn>)
    ensures Events(a + b) == Events(a) + Events(b)
  {
    if a == [] {
      assert a + b == b;
    } else {
      assert (a + b)[1..] == a[1..] + b;
      EventsConcat(a[1..], b);
    }
  }

  lemma {:induction false} BlockEventsConcat(role: Role, a: seq<Block>, b: seq<Block>)
    ensures BlockEvents(role, a + b) == BlockEvents(role, a) + BlockEvents(role, b)
  {
    if a == [] {
      assert a + b == b;
    } else {
      assert (a + b)[1..] == a[1..] + b;
      BlockEventsConcat(role, a[1..], b);
    }
  }

  // ---- The turns of a transcript ----

  function Turns(rs: seq<Record>): (ts: seq<Turn>)
    ensures |ts| == |rs|
    ensures forall i | 0 <= i < |rs| :: ts[i] == Turn(rs[i].role, rs[i].content)
  {
    seq(|rs|, i requires 0 <= i < |rs| => Turn(rs[i].role, rs[i].content))
  }

  lemma {:induction false} TurnsConcat(a: seq<Record>, b: seq<Record>)
    ensures Turns(a + b) == Turns(a) + Turns(b)
  {
  }

  lemma {:induction false} OneRow(r: Record)
    ensures Events(Turns([r])) == TurnEvents(Turn(r.role, r.content))
  {
    var t := Turn(r.role, r.content);
    assert Turns([r]) == [t] && [t][1..] == [] && Events([]) == [];
  }

  lemma {:induction false} ContinuedEvents(rs: seq<Record>, w: seq<Record>)
    ensures Events(Turns(rs + w)) == Events(Turns(rs)) + Events(Turns(w))
  {
    TurnsConcat(rs, w);
    EventsConcat(Turns(rs), Turns(w));
  }

  // ---- The assertion, as the projector performs it ----

  /** What one more block does to the bookkeeping, and that a failure is final. */
  lemma {:induction false} BlockStep(role: Role, blocks: seq<Block>, j: nat, st: Protocol)
    requires j < |blocks|
    ensures var next := Run(Run(st, BlockEvents(role, blocks[..j])), BlockEvents(role, [blocks[j]]));
            && Run(st, BlockEvents(role, blocks[..j + 1])) == next
            && (next.Broken? ==> Run(st, BlockEvents(role, blocks)) == next)
  {
    assert blocks[..j + 1] == blocks[..j] + [blocks[j]];
    BlockEventsConcat(role, blocks[..j], [blocks[j]]);
    RunConcat(st, BlockEvents(role, blocks[..j]), BlockEvents(role, [blocks[j]]));
    assert blocks == blocks[..j + 1] + blocks[j + 1..];
    BlockEventsConcat(role, blocks[..j + 1], blocks[j + 1..]);
    RunConcat(st, BlockEvents(role, blocks[..j + 1]), BlockEvents(role, blocks[j + 1..]));
  }

  lemma {:induction false} OneBlock(role: Role, b: Block, st: Protocol)
    requires st.Open?
    ensures Run(st, BlockEvents(role, [b])) ==
            match b
            case ToolUse(id, _) => Step(st, Use(role, id))
            case ToolResult(id, _) => Step(st, Answer(role, id))
            case _ => st
  {
    assert [b][1..] == [];
    assert BlockEvents(role, []) == [];
    if b.ToolUse? {
      OneStep(st, Use(role, b.id));
    } else if b.ToolResult? {
      OneStep(st, Answer(role, b.toolUseId));
    }
  }

  lemma {:induction false} OneStep(st: Protocol, e: Event)
    requires st.Open?
    ensures Run(st, [e]) == Step(st, e)
  {
    assert [e][1..] == [];
  }

  /** What one more message does to the bookkeeping, and that a failure is final. */
  lemma {:induction false} TurnStep(messages: seq<Turn>, i: nat, st: Protocol)
    requires i < |messages|
    ensures var next := Run(Run(st, Events(messages[..i])), TurnEvents(messages[i]));
            && Run(st, Events(messages[..i + 1])) == next
            && (next.Broken? ==> Run(st, Events(messages)) == next)
  {
    assert messages[..i + 1] == messages[..i] + [messages[i]];
    EventsConcat(messages[..i], [messages[i]]);
    assert [messages[i]][1..] == [] && Events([]) == [];
    assert Events([messages[i]]) == TurnEvents(messages[i]);
    RunConcat(st, Events(messages[..i]), TurnEvents(messages[i]));
    assert messages == messages[..i + 1] + messages[i + 1..];
    EventsConcat(messages[..i + 1], messages[i + 1..]);
    RunConcat(st, Events(messages[..i + 1]), Events(messages[i + 1..]));
  }

  /** A message of the assistant first asks whether all calls are answered; then come its blocks. */
  lemma {:induction false} OneTurn(t: Turn, st: Protocol)
    requires st.Open?
    ensures var blocks := if t.content.Blocks? then t.content.blocks else [];
            Run(st, TurnEvents(t)) ==
            if t.role.Assistant? && !(st.calls <= st.results) then Broken(UnresolvedBeforeAssistant)
            else Run(st, BlockEvents(t.role, blocks))
  {
    var begin := if t.role.Assistant? then [AssistantTurn] else [];
    var body := if t.content.Blocks? then BlockEvents(t.role, t.content.blocks) else [];
    RunConcat(st, begin, body);
    if t.role.Assistant? {
      OneStep(st, AssistantTurn);
    }
  }

  /** Walks one message's blocks; `st` is the bookkeeping before its first block. */
  method CheckBlocks(role: Role, blocks: seq<Block>, st: Protocol) returns (end: Protocol)
    requires st.Open?
    ensures end == Run(st, BlockEvents(role, blocks))
  {
    var calls, results := st.calls, st.results;
    for j := 0 to |blocks|
      invariant Run(st, BlockEvents(role, blocks[..j])) == Open(calls, results)
    {
      BlockStep(role, blocks, j, st);
      OneBlock(role, blocks[j], Open(calls, results));
      match blocks[j] {
        case ToolUse(id, _) =>
          if role != Assistant { return Broken(UseOutsideAssistant); }
          if !Exact(id) { return Broken(UseWithoutId); }
          if id in calls { return Broken(DuplicateUse); }
          calls := calls + {id};
        case ToolResult(id, _) =>
          if role != User { return Broken(AnswerOutsideUser); }
          if !Exact(id) { return Broken(AnswerWithoutId); }
          if id !in calls { return Broken(OrphanAnswer); }
          if id in results { return Broken(DuplicateAnswer); }
          results := results + {id};
        case _ =>
      }
    }
    assert blocks[..|blocks|] == blocks;
    end := Open(calls, results);
  }

  method AssertToolPairs(messages: seq<Turn>) returns (error: Option<ToolPairError>)
    ensures error.None? <==> Accepts(messages)
    ensures error == Verdict(Run(START, Events(messages)))
  {
    var calls: set<Id>, results: set<Id> := {}, {};
    for i := 0 to |messages|
      invariant Run(START, Events(messages[..i])) == Open(calls, results)
    {
      var message := messages[i];
      TurnStep(messages, i, START);
      OneTurn(message, Open(calls, results));
      if message.role == Assistant && !(calls <= results) {
        return Some(UnresolvedBeforeAssistant);
      }
      if message.content.Blocks? {
        var end := CheckBlocks(message.role, message.content.blocks, Open(calls, results));
        if end.Broken? {
          return Some(end.error);
        }
        calls, results := end.calls, end.results;
      }
    }
    assert messages[..|messages|] == messages;
    error := if calls <= results then None else Some(UnresolvedAtEnd);
  }

  // ---- An independent definition of what is accepted ----

  function UseIds(es: seq<Event>): set<Id> {
    set e | e in es && e.Use? :: e.id
  }

  function AnswerIds(es: seq<Event>): set<Id> {
    set e | e in es && e.Answer? :: e.id
  }

  /** Roles and ids are right, and no id is used or answered twice. */
  ghost predicate WellFormed(es: seq<Event>) {
    && (forall e :: e in es && e.Use? ==> e.role.Assistant? && Exact(e.id))
    && (forall e :: e in es && e.Answer? ==> e.role.User? && Exact(e.id))
    && (forall i, j :: 0 <= i < j < |es| && es[i].Use? && es[j].Use? ==> es[i].id != es[j].id)
    && (forall i, j :: 0 <= i < j < |es| && es[i].Answer? && es[j].Answer? ==> es[i].id != es[j].id)
  }

  /** Answers come after their use, and before any further assistant message. */
  ghost predicate WellOrdered(es: seq<Event>) {
    && (forall j :: 0 <= j < |es| && es[j].Answer? ==> es[j].id in UseIds(es[..j]))
    && (forall k :: 0 <= k < |es| && es[k].AssistantTurn? ==> UseIds(es[..k]) <= AnswerIds(es[..k]))
  }

  ghost predicate WellPaired(es: seq<Event>) {
    WellFormed(es) && WellOrdered(es) && UseIds(es) <= AnswerIds(es)
  }

  lemma {:induction false} EventIdsAppend(es: seq<Event>, e: Event)
    ensures UseIds(es + [e]) == UseIds(es) + if e.Use? then {e.id} else {}
    ensures AnswerIds(es + [e]) == AnswerIds(es) + if e.Answer? then {e.id} else {}
  {
  }

  lemma {:induction false} WellFormedAppend(es: seq<Event>, e: Event)
    ensures WellFormed(es + [e]) <==>
            && WellFormed(es)
            && (e.Use? ==> e.role.Assistant? && Exact(e.id) && e.id !in UseIds(es))
            && (e.Answer? ==> e.role.User? && Exact(e.id) && e.id !in AnswerIds(es))
  {
    var s := es + [e];
    assert s[|es|] == e;
    assert forall i :: 0 <= i < |es| ==> s[i] == es[i];
    assert forall i :: 0 <= i < |es| ==> s[i] in es;
    if WellFormed(s) {
      assert forall x :: x in es ==> x in s;
    }
  }

  lemma {:induction false} WellOrderedAppend(es: seq<Event>, e: Event)
    ensures WellOrdered(es + [e]) <==>
            && WellOrdered(es)
            && (e.Answer? ==> e.id in UseIds(es))
            && (e.AssistantTurn? ==> UseIds(es) <= AnswerIds(es))
  {
    var s := es + [e];
    assert s[..|es|] == es && s[|es|] == e;
    assert forall i :: 0 <= i < |es| ==> s[..i] == es[..i] && s[i] == es[i];
  }

  /** The automaton runs exactly on the well-formed, well-ordered event lists, and remembers their ids. */
  lemma {:induction false} RunMeaning(es: seq<Event>)
    ensures Run(START, es).Open? <==> WellFormed(es) && WellOrdered(es)
    ensures Run(START, es).Open? ==> Run(START, es) == Open(UseIds(es), AnswerIds(es))
  {
    if es != [] {
      var init, e := es[..|es| - 1], es[|es| - 1];
      assert es == init + [e];
      RunMeaning(init);
      RunConcat(START, init, [e]);
      EventIdsAppend(init, e);
      WellFormedAppend(init, e);
      WellOrderedAppend(init, e);
    }
  }

  /** The assertion accepts a conversation if and only if it is well paired. */
  lemma {:induction false} AcceptsIffWellPaired(ts: seq<Turn>)
    ensures Accepts(ts) <==> WellPaired(Events(ts))
  {
    RunMeaning(Events(ts));
  }

  /** What is wrong at position `k`, behind a part that is in order: the event there, or that nothing follows. */
  ghost predicate Violates(es: seq<Event>, k: nat, error: ToolPairError) {
    k <= |es| && WellFormed(es[..k]) && WellOrdered(es[..k]) &&
    var calls, results := UseIds(es[..k]), AnswerIds(es[..k]);
    match error
    case UnresolvedAtEnd => k == |es| && !(calls <= results)
    case UnresolvedBeforeAssistant => k < |es| && es[k].AssistantTurn? && !(calls <= results)
    case UseOutsideAssistant => k < |es| && es[k].Use? && !es[k].role.Assistant?
    case UseWithoutId => k < |es| && es[k].Use? && es[k].role.Assistant? && !Exact(es[k].id)
    case DuplicateUse => k < |es| && es[k].Use? && es[k].role.Assistant? && Exact(es[k].id) && es[k].id in calls
    case AnswerOutsideUser => k < |es| && es[k].Answer? && !es[k].role.User?
    case AnswerWithoutId => k < |es| && es[k].Answer? && es[k].role.User? && !Exact(es[k].id)
    case OrphanAnswer => k < |es| && es[k].Answer? && es[k].role.User? && Exact(es[k].id) && es[k].id !in calls
    case DuplicateAnswer =>
      k < |es| && es[k].Answer? && es[k].role.User? && Exact(es[k].id) && es[k].id in calls && es[k].id in results
  }

  lemma {:induction false} BrokenAt(es: seq<Event>) returns (k: nat)
    requires Run(START, es).Broken?
    ensures k < |es| && Violates(es, k, Run(START, es).error)
  {
    var init, e := es[..|es| - 1], es[|es| - 1];
    assert es == init + [e];
    RunConcat(START, init, [e]);
    RunMeaning(init);
    if Run(START, init).Broken? {
      k := BrokenAt(init);
      assert init[..k] == es[..k] && init[k] == es[k];
    } else {
      k := |init|;
    }
  }

  /** A refusal names what is wrong with the first event that cannot follow, or that a call is open at the end. */
  lemma {:induction false} RefusalNamesFirst(es: seq<Event>) returns (k: nat)
    requires !AcceptsEvents(es)
    ensures Violates(es, k, Verdict(Run(START, es)).value)
  {
    RunMeaning(es);
    if Run(START, es).Broken? {
      k := BrokenAt(es);
    } else {
      k := |es|;
      assert es[..k] == es;
    }
  }

  // ---- The algebra of runs ----

  lemma {:induction false} EventIdsConcat(a: seq<Event>, b: seq<Event>)
    ensures UseIds(a + b) == UseIds(a) + UseIds(b)
    ensures AnswerIds(a + b) == AnswerIds(a) + AnswerIds(b)
  {
  }

  lemma {:induction false} UniqueAcross(a: seq<Event>, b: seq<Event>)
    requires WellFormed(a + b)
    ensures UseIds(a) !! UseIds(b) && AnswerIds(a) !! AnswerIds(b)
  {
    var s := a + b;
    forall i, j | 0 <= i < |a| && 0 <= j < |b|
      ensures a[i].Use? && b[j].Use? ==> a[i].id != b[j].id
      ensures a[i].Answer? && b[j].Answer? ==> a[i].id != b[j].id
    {
      assert s[i] == a[i] && s[|a| + j] == b[j];
    }
  }

  lemma {:induction false} OneEvent(e: Event)
    ensures UseIds([e]) == if e.Use? then {e.id} else {}
    ensures AnswerIds([e]) == if e.Answer? then {e.id} else {}
  {
    EventIdsAppend([], e);
    assert [] + [e] == [e];
  }

  /** A run never uses or answers an id twice, and remembers the ids it used and answered. */
  lemma {:induction false} RunIsFresh(st: Protocol, es: seq<Event>)
    requires st.Open? && Run(st, es).Open?
    ensures UseIds(es) !! st.calls && AnswerIds(es) !! st.results
    ensures Run(st, es) == Open(st.calls + UseIds(es), st.results + AnswerIds(es))
    decreases |es|
  {
    if es != [] {
      assert es == [es[0]] + es[1..];
      EventIdsConcat([es[0]], es[1..]);
      OneEvent(es[0]);
      RunIsFresh(Step(st, es[0]), es[1..]);
    }
  }

  /** Only what was called is ever answered. */
  lemma {:induction false} RunAnswersCalls(st: Protocol, es: seq<Event>)
    requires st.Open? && Run(st, es).Open? && st.results <= st.calls
    ensures Run(st, es).results <= Run(st, es).calls
    decreases |es|
  {
    if es != [] {
      RunAnswersCalls(Step(st, es[0]), es[1..]);
    }
  }

  /** An accepted conversation answers exactly the calls that it makes. */
  lemma {:induction false} AcceptedIsAnswered(es: seq<Event>)
    requires AcceptsEvents(es)
    ensures UseIds(es) == AnswerIds(es)
  {
    RunIsFresh(START, es);
    RunAnswersCalls(START, es);
  }

  /** A run forgets earlier, settled calls that the rest of the conversation does not answer. */
  lemma {:induction false} RunForget(calls: set<Id>, results: set<Id>, kept: Protocol, es: seq<Event>)
    requires results <= calls && kept.Open? && kept.calls !! calls
    requires AnswerIds(es) !! calls
    requires Run(Open(calls + kept.calls, results + kept.results), es).Open?
    ensures Run(kept, es).Open?
    ensures var whole := Run(Open(calls + kept.calls, results + kept.results), es);
            && whole == Open(calls + Run(kept, es).calls, results + Run(kept, es).results)
            && Run(kept, es).calls !! calls
    decreases |es|
  {
    if es != [] {
      var whole := Open(calls + kept.calls, results + kept.results);
      var next := Step(whole, es[0]);
      assert next.Open?;
      assert es[0] in es;
      assert AnswerIds(es[1..]) <= AnswerIds(es);
      if es[0].Answer? {
        assert es[0].id in AnswerIds(es);
      }
      if es[0].AssistantTurn? {
        forall x | x in kept.calls ensures x in kept.results {
          assert x in whole.calls;
        }
      }
      var kept' := Step(kept, es[0]);
      assert kept'.Open?;
      assert next == Open(calls + kept'.calls, results + kept'.results);
      RunForget(calls, results, kept', es[1..]);
    }
  }

  /** No tool id is used before the cut and answered after it. */
  predicate NotSevered(a: seq<Event>, b: seq<Event>) {
    UseIds(a) !! AnswerIds(b)
  }

  /** Cutting an accepted conversation where no pair is severed leaves two accepted conversations. */
  lemma {:induction false} CutPreserves(a: seq<Event>, b: seq<Event>)
    requires AcceptsEvents(a + b) && NotSevered(a, b)
    ensures AcceptsEvents(a) && AcceptsEvents(b)
    ensures UseIds(a) !! UseIds(b)
  {
    RunConcat(START, a, b);
    var mid := Run(START, a);
    RunIsFresh(START, a);
    RunIsFresh(mid, b);
    RunAnswersCalls(START, a);
    RunAnswersCalls(mid, b);
    assert Open(mid.calls + START.calls, mid.results + START.results) == mid;
    RunForget(mid.calls, mid.results, START, b);
    var tail := Run(START, b);
    RunIsFresh(START, b);
    forall x | x in mid.calls ensures x in mid.results {
      assert x in Run(mid, b).results;
    }
    forall x | x in tail.calls ensures x in tail.results {
      assert x in Run(mid, b).results;
    }
  }

  /** The first lemma's converse direction on runs: unrelated settled calls in front change nothing. */
  lemma {:induction false} RunRemember(calls: set<Id>, kept: Protocol, es: seq<Event>)
    requires kept.Open? && kept.calls !! calls && UseIds(es) !! calls
    requires Run(kept, es).Open?
    ensures Run(Open(calls + kept.calls, calls + kept.results), es) ==
            Open(calls + Run(kept, es).calls, calls + Run(kept, es).results)
    ensures Run(kept, es).calls !! calls
    decreases |es|
  {
    if es != [] {
      var kept' := Step(kept, es[0]);
      assert es[0] in es;
      assert UseIds(es[1..]) <= UseIds(es);
      if es[0].Use? {
        assert es[0].id in UseIds(es);
      }
      assert kept'.Open?;
      var next := Step(Open(calls + kept.calls, calls + kept.results), es[0]);
      if es[0].Answer? {
        assert es[0].id in kept.calls;
      }
      assert next == Open(calls + kept'.calls, calls + kept'.results);
      RunRemember(calls, kept', es[1..]);
    }
  }

  /** Two accepted conversations that share no tool id may be put one after the other. */
  lemma {:induction false} JoinPreserves(a: seq<Event>, b: seq<Event>)
    requires AcceptsEvents(a) && AcceptsEvents(b)
    requires UseIds(a) !! UseIds(b)
    ensures AcceptsEvents(a + b)
  {
    RunConcat(START, a, b);
    var mid := Run(START, a);
    RunIsFresh(START, a);
    RunAnswersCalls(START, a);
    RunRemember(mid.calls, START, b);
    assert Open(mid.calls + START.calls, mid.calls + START.results) == mid;
  }
}
