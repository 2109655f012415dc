/**
 Microcompaction of a projected view: the content of old tool results is cleared, the most recent ones are
 kept. It is a pure transform that is evaluated again at every send.
 */
module Microcompact {
  import opened Sequences
  import opened Identifiers
  import opened Transcript
  import opened ToolProtocol
  import opened ProviderMessage

  const KEEP_RECENT_RESULTS := 12
  const MIN_RESULT_TOKENS := 400
  const CLEARED_MARKER := "[Old tool result content cleared]"
  const CLEARABLE_TOOLS := {
    "read_file", "read_files", "read_project", "read_lints", "run_terminal_command", "grep_search", "glob_search",
    "file_search", "list_directory", "codebase_search", "web_search", "web_fetch"}

  type Counter = string -> nat

  function NamesIn(names: map<Id, string>, bs: seq<Block>): map<Id, string> {
    if bs == [] then names
    else
      var b, before := bs[|bs| - 1], NamesIn(names, bs[..|bs| - 1]);
      if b.ToolUse? then before[b.id := b.name] else before
  }

  /** The name of the latest tool_use of every id. */
  function ToolNames(ms: seq<Projected>): map<Id, string> {
    if ms == [] then map[]
    else
      var m, before := ms[|ms| - 1], ToolNames(ms[..|ms| - 1]);
      if m.role.Assistant? && m.content.Blocks? then NamesIn(before, m.content.blocks) else before
  }

  predicate Eligible(b: Block, names: map<Id, string>, count: Counter) {
    && b.ToolResult? && b.toolUseId in names && names[b.toolUseId] in CLEARABLE_TOOLS
    && b.text != CLEARED_MARKER && count(b.text) >= MIN_RESULT_TOKENS
  }

  function BlocksOf(m: Projected): seq<Block> {
    if m.content.Blocks? then m.content.blocks else []
  }

  function CountBlocks(bs: seq<Block>, names: map<Id, string>, count: Counter): nat {
    if bs == [] then 0 else (if Eligible(bs[0], names, count) then 1 else 0) + CountBlocks(bs[1..], names, count)
  }

  function CountAll(ms: seq<Projected>, names: map<Id, string>, count: Counter): nat {
    if ms == [] then 0 else CountBlocks(BlocksOf(ms[0]), names, count) + CountAll(ms[1..], names, count)
  }

  function ClearBlock(b: Block): Block
    requires b.ToolResult?
  {
    ToolResult(b.toolUseId, CLEARED_MARKER)
  }

  /** Clears every eligible result that at least twelve eligible ones follow; `later` counts those beyond `bs`. */
  function ClearBlocks(bs: seq<Block>, names: map<Id, string>, count: Counter, later: nat): (r: seq<Block>)
    ensures |r| == |bs|
  {
    if bs == [] then []
    else
      var cleared := Eligible(bs[0], names, count) && CountBlocks(bs[1..], names, count) + later >= KEEP_RECENT_RESULTS;
      [if cleared then ClearBlock(bs[0]) else bs[0]] + ClearBlocks(bs[1..], names, count, later)
  }

  function ClearMessage(m: Projected, names: map<Id, string>, count: Counter, later: nat): Projected {
    if m.content.Blocks? then m.(content := Blocks(ClearBlocks(m.content.blocks, names, count, later))) else m
  }

  function ClearAll(ms: seq<Projected>, names: map<Id, string>, count: Counter): (r: seq<Projected>)
    ensures |r| == |ms|
  {
    if ms == [] then []
    else [ClearMessage(ms[0], names, count, CountAll(ms[1..], names, count))] + ClearAll(ms[1..], names, count)
  }

  datatype Compacted = Compacted(messages: seq<Projected>, clearedToolResults: nat)

  function Compact(ms: seq<Projected>, count: Counter): Option<Compacted> {
    var names := ToolNames(ms);
    var eligible := CountAll(ms, names, count);
    if eligible <= KEEP_RECENT_RESULTS then None
    else Some(Compacted(ClearAll(ms, names, count), eligible - KEEP_RECENT_RESULTS))
  }

  // ---- The pass over positions ----

  type Position = (nat, nat)

  /** Positions of the eligible results among the first `j` blocks of message `i`. */
  function BlockPositions(i: nat, bs: seq<Block>, names: map<Id, string>, count: Counter, j: nat): (ps: seq<Position>)
    requires j <= |bs|
    ensures forall p | p in ps :: p.0 == i && p.1 < j
    ensures Distinct(ps)
  {
    if j == 0 then []
    else
      BlockPositions(i, bs, names, count, j - 1) + if Eligible(bs[j - 1], names, count) then [(i, j - 1)] else []
  }

  function Positions(ms: seq<Projected>, names: map<Id, string>, count: Counter, i: nat): (ps: seq<Position>)
    requires i <= |ms|
    ensures forall p | p in ps :: p.0 < i
    ensures Distinct(ps)
  {
    if i == 0 then []
    else
      var bs := BlocksOf(ms[i - 1]);
      Positions(ms, names, count, i - 1) + BlockPositions(i - 1, bs, names, count, |bs|)
  }

  lemma {:induction false} CountSplit(bs: seq<Block>, names: map<Id, string>, count: Counter, j: nat)
    requires j <= |bs|
    ensures CountBlocks(bs, names, count) == CountBlocks(bs[..j], names, count) + CountBlocks(bs[j..], names, count)
  {
    if j > 0 {
      CountSplit(bs[1..], names, count, j - 1);
      assert bs[..j][1..] == bs[1..][..j - 1] && bs[1..][j - 1..] == bs[j..];
    } else {
      assert bs[0..] == bs;
    }
  }

  lemma {:induction false} BlockPositionsCount(i: nat, bs: seq<Block>, names: map<Id, string>, count: Counter, j: nat)
    requires j <= |bs|
    ensures |BlockPositions(i, bs, names, count, j)| == CountBlocks(bs[..j], names, count)
  {
    if j > 0 {
      BlockPositionsCount(i, bs, names, count, j - 1);
      CountSplit(bs[..j], names, count, j - 1);
      assert bs[..j][..j - 1] == bs[..j - 1] && bs[..j][j - 1..] == [bs[j - 1]];
      assert [bs[j - 1]][1..] == [];
    }
  }

  lemma {:induction false} PositionsCount(ms: seq<Projected>, names: map<Id, string>, count: Counter, i: nat)
    requires i <= |ms|
    ensures |Positions(ms, names, count, i)| + CountAll(ms[i..], names, count) == CountAll(ms, names, count)
  {
    if i == 0 {
      assert ms[0..] == ms;
    } else {
      var bs := BlocksOf(ms[i - 1]);
      PositionsCount(ms, names, count, i - 1);
      BlockPositionsCount(i - 1, bs, names, count, |bs|);
      assert bs[..|bs|] == bs;
      assert ms[i - 1..][1..] == ms[i..] && ms[i - 1..][0] == ms[i - 1];
    }
  }

  lemma {:induction false} AllPositionsCount(ms: seq<Projected>, names: map<Id, string>, count: Counter)
    ensures |Positions(ms, names, count, |ms|)| == CountAll(ms, names, count)
  {
    PositionsCount(ms, names, count, |ms|);
    assert ms[|ms|..] == [];
  }

  /** Positions found up to a point start the list of all positions. */
  lemma {:induction false} BlockPositionsPrefix(i: nat, bs: seq<Block>, names: map<Id, string>, count: Counter, j: nat)
    requires j <= |bs|
    ensures BlockPositions(i, bs, names, count, j) <= BlockPositions(i, bs, names, count, |bs|)
    decreases |bs| - j
  {
    if j < |bs| {
      BlockPositionsPrefix(i, bs, names, count, j + 1);
    }
  }

  lemma {:induction false} PositionsPrefix(ms: seq<Projected>, names: map<Id, string>, count: Counter, i: nat)
    requires i <= |ms|
    ensures Positions(ms, names, count, i) <= Positions(ms, names, count, |ms|)
    decreases |ms| - i
  {
    if i < |ms| {
      PositionsPrefix(ms, names, count, i + 1);
    }
  }

  lemma {:induction false} DistinctAt(ps: seq<Position>, p: Position, at: nat, m: nat)
    requires Distinct(ps) && at < |ps| && ps[at] == p && m <= |ps|
    ensures p in ps[..m] <==> at < m
  {
    if at < m {
      assert ps[..m][at] == p;
    }
  }

  /** A position is among the first ones of the list exactly when enough eligible results follow it. */
  lemma {:induction false} OldestAreFollowed(
      ms: seq<Projected>, names: map<Id, string>, count: Counter, i: nat, j: nat)
    requires i < |ms| && j < |BlocksOf(ms[i])|
    requires CountAll(ms, names, count) > KEEP_RECENT_RESULTS
    ensures var all := Positions(ms, names, count, |ms|);
            var bs := BlocksOf(ms[i]);
            && |all| == CountAll(ms, names, count)
            && ((i, j) in all[..|all| - KEEP_RECENT_RESULTS] <==>
                  && Eligible(bs[j], names, count)
                  && CountBlocks(bs[j + 1..], names, count) + CountAll(ms[i + 1..], names, count) >= KEEP_RECENT_RESULTS)
  {
    var all, bs := Positions(ms, names, count, |ms|), BlocksOf(ms[i]);
    PositionsCount(ms, names, count, |ms|);
    assert ms[|ms|..] == [];
    if Eligible(bs[j], names, count) {
      var at := PlaceOf(ms, names, count, i, j);
      DistinctAt(all, (i, j), at, |all| - KEEP_RECENT_RESULTS);
    } else {
      NotPlaced(ms, names, count, i, j);
    }
  }

  /** How many eligible results come before a place, and how many after it. */
  lemma {:induction false} CountAround(ms: seq<Projected>, names: map<Id, string>, count: Counter, i: nat, j: nat)
    requires i < |ms| && j < |BlocksOf(ms[i])| && Eligible(BlocksOf(ms[i])[j], names, count)
    ensures var bs := BlocksOf(ms[i]);
            |Positions(ms, names, count, i)| + |BlockPositions(i, bs, names, count, j)| + 1
            + CountBlocks(bs[j + 1..], names, count) + CountAll(ms[i + 1..], names, count) == CountAll(ms, names, count)
  {
    var bs := BlocksOf(ms[i]);
    PositionsCount(ms, names, count, i);
    assert ms[i..][1..] == ms[i + 1..] && ms[i..][0] == ms[i];
    BlockPositionsCount(i, bs, names, count, j);
    CountSplit(bs, names, count, j);
    assert bs[j..][1..] == bs[j + 1..] && bs[j..][0] == bs[j];
  }

  lemma {:induction false} PlaceOf(ms: seq<Projected>, names: map<Id, string>, count: Counter, i: nat, j: nat)
    returns (at: nat)
    requires i < |ms| && j < |BlocksOf(ms[i])| && Eligible(BlocksOf(ms[i])[j], names, count)
    ensures var all, bs := Positions(ms, names, count, |ms|), BlocksOf(ms[i]);
            && at < |all| && all[at] == (i, j)
            && at + 1 + CountBlocks(bs[j + 1..], names, count) + CountAll(ms[i + 1..], names, count) ==
               CountAll(ms, names, count)
  {
    CountAround(ms, names, count, i, j);
    var bs := BlocksOf(ms[i]);
    var before, inside := Positions(ms, names, count, i), BlockPositions(i, bs, names, count, j);
    at := |before| + |inside|;
    var row := BlockPositions(i, bs, names, count, |bs|);
    assert row[|inside|] == (i, j) by {
      BlockPositionsPrefix(i, bs, names, count, j + 1);
      assert BlockPositions(i, bs, names, count, j + 1) == inside + [(i, j)];
    }
    PositionsPrefix(ms, names, count, i + 1);
    assert (before + row)[at] == row[|inside|];
  }

  lemma {:induction false} NotPlaced(ms: seq<Projected>, names: map<Id, string>, count: Counter, i: nat, j: nat)
    requires i < |ms| && j < |BlocksOf(ms[i])| && !Eligible(BlocksOf(ms[i])[j], names, count)
    ensures (i, j) !in Positions(ms, names, count, |ms|)
  {
    AllEligible(ms, names, count, |ms|, (i, j));
  }

  lemma {:induction false} BlocksEligible(
      i: nat, bs: seq<Block>, names: map<Id, string>, count: Counter, j: nat, p: Position)
    requires j <= |bs|
    ensures p in BlockPositions(i, bs, names, count, j) ==> p.0 == i && p.1 < j && Eligible(bs[p.1], names, count)
  {
    if j > 0 {
      BlocksEligible(i, bs, names, count, j - 1, p);
    }
  }

  lemma {:induction false} AllEligible(ms: seq<Projected>, names: map<Id, string>, count: Counter, i: nat, p: Position)
    requires i <= |ms|
    ensures p in Positions(ms, names, count, i) ==>
              p.0 < i && p.1 < |BlocksOf(ms[p.0])| && Eligible(BlocksOf(ms[p.0])[p.1], names, count)
  {
    if i > 0 {
      var bs := BlocksOf(ms[i - 1]);
      AllEligible(ms, names, count, i - 1, p);
      BlocksEligible(i - 1, bs, names, count, |bs|, p);
    }
  }

  lemma {:induction false} ClearAt(bs: seq<Block>, names: map<Id, string>, count: Counter, later: nat, j: nat)
    requires j < |bs|
    ensures ClearBlocks(bs, names, count, later)[j] ==
            if Eligible(bs[j], names, count) && CountBlocks(bs[j + 1..], names, count) + later >= KEEP_RECENT_RESULTS
            then ClearBlock(bs[j]) else bs[j]
  {
    if j > 0 {
      ClearAt(bs[1..], names, count, later, j - 1);
      assert bs[1..][j..] == bs[j + 1..];
    }
  }

  lemma {:induction false} ClearAllAt(ms: seq<Projected>, names: map<Id, string>, count: Counter, i: nat)
    requires i < |ms|
    ensures ClearAll(ms, names, count)[i] == ClearMessage(ms[i], names, count, CountAll(ms[i + 1..], names, count))
  {
    if i > 0 {
      ClearAllAt(ms[1..], names, count, i - 1);
      assert ms[1..][i..] == ms[i + 1..];
    }
  }

  method IndexToolNames(ms: seq<Projected>) returns (names: map<Id, string>)
    ensures names == ToolNames(ms)
  {
    names := map[];
    for i := 0 to |ms|
      invariant names == ToolNames(ms[..i])
    {
      assert ms[..i + 1][..i] == ms[..i];
      var message := ms[i];
      if !message.role.Assistant? || !message.content.Blocks? { continue; }
      var blocks := message.content.blocks;
      ghost var before := names;
      for j := 0 to |blocks|
        invariant names == NamesIn(before, blocks[..j])
      {
        assert blocks[..j + 1][..j] == blocks[..j];
        if blocks[j].ToolUse? {
          names := names[blocks[j].id := blocks[j].name];
        }
      }
      assert blocks[..|blocks|] == blocks;
    }
    assert ms[..|ms|] == ms;
  }

  method CollectFromBlocks(i: nat, blocks: seq<Block>, names: map<Id, string>, count: Counter)
    returns (clearable: seq<Position>)
    ensures clearable == BlockPositions(i, blocks, names, count, |blocks|)
  {
    clearable := [];
    for j := 0 to |blocks|
      invariant clearable == BlockPositions(i, blocks, names, count, j)
    {
      if Eligible(blocks[j], names, count) {
        clearable := clearable + [(i, j)];
      }
    }
  }

  method CollectClearable(ms: seq<Projected>, names: map<Id, string>, count: Counter) returns (clearable: seq<Position>)
    ensures clearable == Positions(ms, names, count, |ms|)
  {
    clearable := [];
    for i := 0 to |ms|
      invariant clearable == Positions(ms, names, count, i)
    {
      var inMessage := CollectFromBlocks(i, BlocksOf(ms[i]), names, count);
      clearable := clearable + inMessage;
    }
  }

  /** Clears the blocks of message `i` that the list names. */
  method ClearListed(ms: seq<Projected>, i: nat, names: map<Id, string>, count: Counter, toClear: seq<Position>)
    returns (message: Projected)
    requires i < |ms| && CountAll(ms, names, count) > KEEP_RECENT_RESULTS
    requires var all := Positions(ms, names, count, |ms|);
             |all| == CountAll(ms, names, count) && toClear == all[..|all| - KEEP_RECENT_RESULTS]
    ensures message == ClearAll(ms, names, count)[i]
  {
    message := ms[i];
    ClearAllAt(ms, names, count, i);
    if message.content.Blocks? {
      var blocks := message.content.blocks;
      var content := seq(|blocks|, j requires 0 <= j < |blocks| =>
        if (i, j) in toClear && blocks[j].ToolResult? then ClearBlock(blocks[j]) else blocks[j]);
      ghost var later := CountAll(ms[i + 1..], names, count);
      forall j | 0 <= j < |blocks| ensures content[j] == ClearBlocks(blocks, names, count, later)[j] {
        OldestAreFollowed(ms, names, count, i, j);
        ClearAt(blocks, names, count, later, j);
      }
      assert content == ClearBlocks(blocks, names, count, later);
      message := message.(content := Blocks(content));
    }
  }

  method ClearEverywhere(ms: seq<Projected>, names: map<Id, string>, count: Counter, toClear: seq<Position>)
    returns (messages: seq<Projected>)
    requires CountAll(ms, names, count) > KEEP_RECENT_RESULTS
    requires var all := Positions(ms, names, count, |ms|);
             |all| == CountAll(ms, names, count) && toClear == all[..|all| - KEEP_RECENT_RESULTS]
    ensures messages == ClearAll(ms, names, count)
  {
    messages := [];
    ghost var cleared := ClearAll(ms, names, count);
    for i := 0 to |ms|
      invariant messages == cleared[..i]
    {
      var message := ClearListed(ms, i, names, count, toClear);
      messages := messages + [message];
    }
  }

  /** The pass over positions computes what is cleared by looking ahead from every result. */
  method MicrocompactProjectedToolResults(ms: seq<Projected>, count: Counter) returns (r: Option<Compacted>)
    ensures r == Compact(ms, count)
  {
    var names := IndexToolNames(ms);
    var clearable := CollectClearable(ms, names, count);
    AllPositionsCount(ms, names, count);
    if |clearable| <= KEEP_RECENT_RESULTS { return None; }
    var toClear := clearable[..|clearable| - KEEP_RECENT_RESULTS];
    var messages := ClearEverywhere(ms, names, count, toClear);
    r := Some(Compacted(messages, |toClear|));
  }

  // ---- What a pass leaves alone ----

  /** Nothing but the text of a tool result may differ. */
  predicate SameShape(b: Block, b': Block) {
    b' == b || (b.ToolResult? && b' == ClearBlock(b))
  }

  /** Ids, roles, sources and block positions all stay. */
  ghost predicate SameFrame(m: Projected, m': Projected) {
    && m' == m.(content := m'.content)
    && (m.content.Text? ==> m' == m)
    && (m.content.Blocks? ==>
          && m'.content.Blocks? && |m'.content.blocks| == |m.content.blocks|
          && forall j | 0 <= j < |m.content.blocks| :: SameShape(m.content.blocks[j], m'.content.blocks[j]))
  }

  lemma {:induction false} FrameKept(ms: seq<Projected>, names: map<Id, string>, count: Counter, i: nat)
    requires i < |ms|
    ensures SameFrame(ms[i], ClearAll(ms, names, count)[i])
  {
    var later := CountAll(ms[i + 1..], names, count);
    ClearAllAt(ms, names, count, i);
    if ms[i].content.Blocks? {
      forall j | 0 <= j < |ms[i].content.blocks|
        ensures SameShape(ms[i].content.blocks[j], ClearBlocks(ms[i].content.blocks, names, count, later)[j])
      {
        ClearAt(ms[i].content.blocks, names, count, later, j);
      }
    }
  }

  lemma {:induction false} ClearedEvents(role: Role, bs: seq<Block>, names: map<Id, string>, count: Counter, later: nat)
    ensures BlockEvents(role, ClearBlocks(bs, names, count, later)) == BlockEvents(role, bs)
  {
    if bs != [] {
      ClearedEvents(role, bs[1..], names, count, later);
      var all := ClearBlocks(bs, names, count, later);
      assert all[1..] == ClearBlocks(bs[1..], names, count, later);
    }
  }

  lemma {:induction false} ClearedTurnEvents(m: Projected, names: map<Id, string>, count: Counter, later: nat)
    ensures var m' := ClearMessage(m, names, count, later);
            TurnEvents(Turn(m'.role, m'.content)) == TurnEvents(Turn(m.role, m.content))
  {
    if m.content.Blocks? {
      ClearedEvents(m.role, m.content.blocks, names, count, later);
    }
  }

  lemma {:induction false} HeadEvents(m: Projected, ms: seq<Projected>)
    ensures Events(TurnsOf([m] + ms)) == TurnEvents(Turn(m.role, m.content)) + Events(TurnsOf(ms))
  {
    assert TurnsOf([m] + ms) == [Turn(m.role, m.content)] + TurnsOf(ms);
    assert TurnsOf([m] + ms)[1..] == TurnsOf(ms);
  }

  lemma {:induction false} ClearedTurns(ms: seq<Projected>, names: map<Id, string>, count: Counter)
    ensures Events(TurnsOf(ClearAll(ms, names, count))) == Events(TurnsOf(ms))
  {
    if ms != [] {
      var later, rest := CountAll(ms[1..], names, count), ms[1..];
      ClearedTurns(rest, names, count);
      ClearedTurnEvents(ms[0], names, count, later);
      HeadEvents(ms[0], rest);
      HeadEvents(ClearMessage(ms[0], names, count, later), ClearAll(rest, names, count));
      assert ms == [ms[0]] + rest;
    }
  }

  /** A pass keeps every message, role, id and block position, and the verdict on the tool pairs. */
  lemma {:induction false} CompactKeepsShape(ms: seq<Projected>, count: Counter)
    requires Compact(ms, count).Some?
    ensures var r := Compact(ms, count).value.messages;
            && |r| == |ms|
            && (forall i | 0 <= i < |ms| :: SameFrame(ms[i], r[i]))
            && Verdict(Run(START, Events(TurnsOf(r)))) == Verdict(Run(START, Events(TurnsOf(ms))))
            && ToolNames(r) == ToolNames(ms)
  {
    var names := ToolNames(ms);
    forall i | 0 <= i < |ms| ensures SameFrame(ms[i], ClearAll(ms, names, count)[i]) {
      FrameKept(ms, names, count, i);
    }
    ClearedTurns(ms, names, count);
    NamesKept(ms, ClearAll(ms, names, count));
  }

  lemma {:induction false} BlockNamesKept(names: map<Id, string>, bs: seq<Block>, bs': seq<Block>)
    requires |bs'| == |bs| && forall j | 0 <= j < |bs| :: SameShape(bs[j], bs'[j])
    ensures NamesIn(names, bs') == NamesIn(names, bs)
  {
    if bs != [] {
      BlockNamesKept(names, bs[..|bs| - 1], bs'[..|bs| - 1]);
      assert SameShape(bs[|bs| - 1], bs'[|bs| - 1]);
    }
  }

  lemma {:induction false} NamesKept(ms: seq<Projected>, ms': seq<Projected>)
    requires |ms'| == |ms| && forall i | 0 <= i < |ms| :: SameFrame(ms[i], ms'[i])
    ensures ToolNames(ms') == ToolNames(ms)
  {
    if ms != [] {
      var last := |ms| - 1;
      NamesKept(ms[..last], ms'[..last]);
      assert SameFrame(ms[last], ms'[last]);
      if ms[last].role.Assistant? && ms[last].content.Blocks? {
        BlockNamesKept(ToolNames(ms[..last]), ms[last].content.blocks, ms'[last].content.blocks);
      }
    }
  }

  // ---- A second pass ----

  function AtMost(n: nat): nat {
    if n <= KEEP_RECENT_RESULTS then n else KEEP_RECENT_RESULTS
  }

  lemma {:induction false} BlocksLeft(bs: seq<Block>, names: map<Id, string>, count: Counter, later: nat)
    ensures CountBlocks(ClearBlocks(bs, names, count, later), names, count) + AtMost(later) ==
            AtMost(CountBlocks(bs, names, count) + later)
  {
    if bs != [] {
      BlocksLeft(bs[1..], names, count, later);
      var all := ClearBlocks(bs, names, count, later);
      assert all[1..] == ClearBlocks(bs[1..], names, count, later);
    }
  }

  /** After a pass at most twelve results are eligible. */
  lemma {:induction false} AllLeft(ms: seq<Projected>, names: map<Id, string>, count: Counter)
    ensures CountAll(ClearAll(ms, names, count), names, count) == AtMost(CountAll(ms, names, count))
  {
    if ms != [] {
      var later := CountAll(ms[1..], names, count);
      AllLeft(ms[1..], names, count);
      BlocksLeft(BlocksOf(ms[0]), names, count, later);
      var all := ClearAll(ms, names, count);
      assert all[1..] == ClearAll(ms[1..], names, count);
      assert BlocksOf(all[0]) == ClearBlocks(BlocksOf(ms[0]), names, count, later);
    }
  }

  /** A second pass finds nothing to clear. */
  lemma {:induction false} SecondPassChangesNothing(ms: seq<Projected>, count: Counter)
    requires Compact(ms, count).Some?
    ensures Compact(Compact(ms, count).value.messages, count).None?
  {
    CompactKeepsShape(ms, count);
    AllLeft(ms, ToolNames(ms), count);
  }

  // ---- Later sends ----

  /** The result at this place is cleared when `ms` is sent. */
  predicate ClearedAt(ms: seq<Projected>, count: Counter, i: nat, j: nat) {
    && i < |ms| && j < |BlocksOf(ms[i])|
    && Eligible(BlocksOf(ms[i])[j], ToolNames(ms), count)
    && CountBlocks(BlocksOf(ms[i])[j + 1..], ToolNames(ms), count) + CountAll(ms[i + 1..], ToolNames(ms), count)
       >= KEEP_RECENT_RESULTS
  }

  /** What a pass does at each place: exactly the results marked as cleared change, and the others are as before. */
  lemma {:induction false} CompactAt(ms: seq<Projected>, count: Counter, i: nat, j: nat)
    requires Compact(ms, count).Some? && i < |ms| && j < |BlocksOf(ms[i])|
    ensures var r := Compact(ms, count).value.messages;
            && |r| == |ms| && |BlocksOf(r[i])| == |BlocksOf(ms[i])|
            && BlocksOf(r[i])[j] ==
               if ClearedAt(ms, count, i, j) then ToolResult(BlocksOf(ms[i])[j].toolUseId, CLEARED_MARKER)
               else BlocksOf(ms[i])[j]
  {
    ClearAllAt(ms, ToolNames(ms), count, i);
    ClearAt(BlocksOf(ms[i]), ToolNames(ms), count, CountAll(ms[i + 1..], ToolNames(ms), count), j);
  }

  /** A pass takes place if and only if some result is to be cleared, and it reports how many there are. */
  lemma {:induction false} ClearedPlaces(ms: seq<Projected>, count: Counter) returns (places: seq<Position>)
    ensures Distinct(places)
    ensures forall i: nat, j: nat | i < |ms| && j < |BlocksOf(ms[i])| :: (i, j) in places <==> ClearedAt(ms, count, i, j)
    ensures Compact(ms, count) ==
            if places == [] then None else Some(Compacted(ClearAll(ms, ToolNames(ms), count), |places|))
  {
    var names := ToolNames(ms);
    var all := Positions(ms, names, count, |ms|);
    AllPositionsCount(ms, names, count);
    places := if |all| > KEEP_RECENT_RESULTS then all[..|all| - KEEP_RECENT_RESULTS] else [];
    forall i: nat, j: nat | i < |ms| && j < |BlocksOf(ms[i])|
      ensures (i, j) in places <==> ClearedAt(ms, count, i, j)
    {
      PlaceIsCleared(ms, count, i, j);
    }
  }

  lemma {:induction false} PlaceIsCleared(ms: seq<Projected>, count: Counter, i: nat, j: nat)
    requires i < |ms| && j < |BlocksOf(ms[i])|
    ensures var all := Positions(ms, ToolNames(ms), count, |ms|);
            ClearedAt(ms, count, i, j) <==>
            |all| > KEEP_RECENT_RESULTS && (i, j) in all[..|all| - KEEP_RECENT_RESULTS]
  {
    var names := ToolNames(ms);
    AllPositionsCount(ms, names, count);
    if CountAll(ms, names, count) > KEEP_RECENT_RESULTS {
      OldestAreFollowed(ms, names, count, i, j);
    } else if Eligible(BlocksOf(ms[i])[j], names, count) {
      CountAround(ms, names, count, i, j);
    }
  }

  ghost predicate Uses(ms: seq<Projected>, id: Id) {
    exists m, b :: m in ms && m.role.Assistant? && b in BlocksOf(m) && b.ToolUse? && b.id == id
  }

  lemma {:induction false} NamesInGrow(names: map<Id, string>, bs: seq<Block>, id: Id)
    requires forall b | b in bs && b.ToolUse? :: b.id != id
    ensures id in NamesIn(names, bs) <==> id in names
    ensures id in names ==> NamesIn(names, bs)[id] == names[id]
  {
    if bs != [] {
      NamesInGrow(names, bs[..|bs| - 1], id);
      assert bs[|bs| - 1] in bs;
    }
  }

  lemma {:induction false} NamesGrow(ms: seq<Projected>, more: seq<Projected>, id: Id)
    requires !Uses(more, id)
    ensures id in ToolNames(ms + more) <==> id in ToolNames(ms)
    ensures id in ToolNames(ms) ==> ToolNames(ms + more)[id] == ToolNames(ms)[id]
  {
    if more == [] {
      assert ms + more == ms;
    } else {
      var last := |more| - 1;
      var m := more[last];
      assert (ms + more)[..|ms| + last] == ms + more[..last];
      assert m in more;
      assert forall x | x in more[..last] :: x in more;
      assert !Uses(more[..last], id);
      NamesGrow(ms, more[..last], id);
      if m.role.Assistant? && m.content.Blocks? {
        NamesInGrow(ToolNames(ms + more[..last]), m.content.blocks, id);
      }
    }
  }

  lemma {:induction false} NamesInUsed(names: map<Id, string>, bs: seq<Block>, id: Id)
    requires id in NamesIn(names, bs)
    ensures id in names || exists b :: b in bs && b.ToolUse? && b.id == id
  {
    if bs != [] {
      var b := bs[|bs| - 1];
      assert b in bs;
      if !(b.ToolUse? && b.id == id) {
        NamesInUsed(names, bs[..|bs| - 1], id);
      }
    }
  }

  lemma {:induction false} NamedIsUsed(ms: seq<Projected>, id: Id)
    requires id in ToolNames(ms)
    ensures Uses(ms, id)
  {
    var last := |ms| - 1;
    var m := ms[last];
    assert m in ms;
    if id in ToolNames(ms[..last]) {
      NamedIsUsed(ms[..last], id);
    } else {
      NamesInUsed(ToolNames(ms[..last]), m.content.blocks, id);
    }
  }

  /** An assistant's use of the id that no further one follows. */
  ghost predicate LatestUse(ms: seq<Projected>, id: Id, i: nat, j: nat) {
    && i < |ms| && ms[i].role.Assistant? && j < |BlocksOf(ms[i])| && !Uses(ms[i + 1..], id)
    && BlocksOf(ms[i])[j].ToolUse? && BlocksOf(ms[i])[j].id == id
    && forall k | j < k < |BlocksOf(ms[i])| && BlocksOf(ms[i])[k].ToolUse? :: BlocksOf(ms[i])[k].id != id
  }

  lemma {:induction false} LastInBlocks(names: map<Id, string>, bs: seq<Block>, j: nat)
    requires j < |bs| && bs[j].ToolUse? && forall k | j < k < |bs| && bs[k].ToolUse? :: bs[k].id != bs[j].id
    ensures bs[j].id in NamesIn(names, bs) && NamesIn(names, bs)[bs[j].id] == bs[j].name
  {
    if j < |bs| - 1 {
      LastInBlocks(names, bs[..|bs| - 1], j);
    }
  }

  /** A tool result goes by the name of the assistant's latest use of its id, and by none if there is no use. */
  lemma {:induction false} ToolNamesMean(ms: seq<Projected>, id: Id)
    ensures id in ToolNames(ms) ==> Uses(ms, id)
    ensures forall i: nat, j: nat | LatestUse(ms, id, i, j) ::
              id in ToolNames(ms) && ToolNames(ms)[id] == BlocksOf(ms[i])[j].name
  {
    if id in ToolNames(ms) {
      NamedIsUsed(ms, id);
    }
    forall i: nat, j: nat | LatestUse(ms, id, i, j)
      ensures id in ToolNames(ms) && ToolNames(ms)[id] == BlocksOf(ms[i])[j].name
    {
      assert ms == ms[..i + 1] + ms[i + 1..];
      assert ms[..i + 1][..i] == ms[..i];
      NamesGrow(ms[..i + 1], ms[i + 1..], id);
      LastInBlocks(ToolNames(ms[..i]), BlocksOf(ms[i]), j);
    }
  }

  lemma {:induction false} LastInList(bs: seq<Block>, id: Id) returns (j: nat)
    requires exists b :: b in bs && b.ToolUse? && b.id == id
    ensures j < |bs| && bs[j].ToolUse? && bs[j].id == id
    ensures forall k | j < k < |bs| && bs[k].ToolUse? :: bs[k].id != id
  {
    var last := |bs| - 1;
    if bs[last].ToolUse? && bs[last].id == id {
      j := last;
    } else {
      assert bs == bs[..last] + [bs[last]];
      j := LastInList(bs[..last], id);
    }
  }

  /** Every id that is used has a latest use. */
  lemma {:induction false} UseHasLatest(ms: seq<Projected>, id: Id) returns (i: nat, j: nat)
    requires Uses(ms, id)
    ensures LatestUse(ms, id, i, j)
  {
    var head, rest := ms[0], ms[1..];
    assert ms == [head] + rest;
    if Uses(rest, id) {
      var i';
      i', j := UseHasLatest(rest, id);
      i := i' + 1;
      assert ms[i + 1..] == rest[i' + 1..];
    } else {
      i := 0;
      assert ms[1..] == rest;
      j := LastInList(BlocksOf(head), id);
    }
  }

  /** A long result of one of the tools whose results can be had again, not cleared yet. */
  ghost predicate IsBulky(ms: seq<Projected>, b: Block, count: Counter) {
    && b.ToolResult? && b.text != CLEARED_MARKER && count(b.text) >= 400
    && exists i: nat, j: nat ::
         LatestUse(ms, b.toolUseId, i, j) && BlocksOf(ms[i])[j].name in CLEARABLE_TOOLS
  }

  /** Which results a pass counts: the long ones of these tools, by the name of the latest use. */
  lemma {:induction false} EligibleIff(ms: seq<Projected>, b: Block, count: Counter)
    ensures Eligible(b, ToolNames(ms), count) <==> IsBulky(ms, b, count)
  {
    if b.ToolResult? {
      ToolNamesMean(ms, b.toolUseId);
      if Uses(ms, b.toolUseId) {
        var i, j := UseHasLatest(ms, b.toolUseId);
      }
    }
  }

  /** No tool id is used again later. */
  ghost predicate FreshUses(ms: seq<Projected>, more: seq<Projected>) {
    forall id :: Uses(ms, id) ==> !Uses(more, id)
  }

  lemma {:induction false} EligibleGrows(ms: seq<Projected>, more: seq<Projected>, count: Counter, b: Block)
    requires FreshUses(ms, more) && Eligible(b, ToolNames(ms), count)
    ensures Eligible(b, ToolNames(ms + more), count)
  {
    NamedIsUsed(ms, b.toolUseId);
    NamesGrow(ms, more, b.toolUseId);
  }

  lemma {:induction false} CountGrows(
      bs: seq<Block>, names: map<Id, string>, names': map<Id, string>, count: Counter)
    requires forall b | b in bs :: Eligible(b, names, count) ==> Eligible(b, names', count)
    ensures CountBlocks(bs, names, count) <= CountBlocks(bs, names', count)
  {
    if bs != [] {
      CountGrows(bs[1..], names, names', count);
    }
  }

  lemma {:induction false} CountAllGrows(
      ms: seq<Projected>, more: seq<Projected>, names: map<Id, string>, names': map<Id, string>, count: Counter)
    requires forall b: Block :: Eligible(b, names, count) ==> Eligible(b, names', count)
    ensures CountAll(ms, names, count) <= CountAll(ms + more, names', count)
  {
    if ms != [] {
      assert (ms + more)[1..] == ms[1..] + more;
      CountAllGrows(ms[1..], more, names, names', count);
      CountGrows(BlocksOf(ms[0]), names, names', count);
    }
  }

  /** A result that was cleared once stays cleared as the conversation goes on. */
  lemma {:induction false} ClearedStaysCleared(ms: seq<Projected>, more: seq<Projected>, count: Counter, i: nat, j: nat)
    requires FreshUses(ms, more) && ClearedAt(ms, count, i, j)
    ensures ClearedAt(ms + more, count, i, j)
  {
    var names, names' := ToolNames(ms), ToolNames(ms + more);
    forall b: Block | Eligible(b, names, count) ensures Eligible(b, names', count) {
      EligibleGrows(ms, more, count, b);
    }
    FollowersGrow(ms, more, names, names', count, i, j);
  }

  lemma {:induction false} FollowersGrow(
      ms: seq<Projected>, more: seq<Projected>, names: map<Id, string>, names': map<Id, string>, count: Counter,
      i: nat, j: nat)
    requires forall b: Block :: Eligible(b, names, count) ==> Eligible(b, names', count)
    requires i < |ms| && j < |BlocksOf(ms[i])|
    ensures (ms + more)[i] == ms[i]
    ensures CountBlocks(BlocksOf(ms[i])[j + 1..], names, count) + CountAll(ms[i + 1..], names, count) <=
            CountBlocks(BlocksOf(ms[i])[j + 1..], names', count) + CountAll((ms + more)[i + 1..], names', count)
  {
    assert (ms + more)[i + 1..] == ms[i + 1..] + more;
    CountAllGrows(ms[i + 1..], more, names, names', count);
    CountGrows(BlocksOf(ms[i])[j + 1..], names, names', count);
  }
}
