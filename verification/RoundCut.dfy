/**
 Where a compaction may cut. A pivot inside a structured round is moved back until the cut splits neither a
 provider response nor a tool_use/tool_result pair; the archived and the retained side follow from the cut.
 */
module RoundCut {
  import opened Sequences
  import opened Identifiers
  import opened Transcript

  /** The blocks the search looks at: here a text that parses as a block list counts. */
  function Normalized(content: Content): seq<Block> {
    if content.Blocks? then content.blocks else content.embedded
  }

  function BlockUses(bs: seq<Block>): set<Id> {
    set b | b in bs && b.ToolUse? :: b.id
  }

  function BlockAnswers(bs: seq<Block>): set<Id> {
    set b | b in bs && b.ToolResult? :: b.toolUseId
  }

  predicate UsesIn(r: Record, id: Id) {
    id in BlockUses(Normalized(r.content))
  }

  predicate AnswersIn(r: Record, id: Id) {
    id in BlockAnswers(Normalized(r.content))
  }

  /** Two records of one provider response. */
  predicate Siblings(a: Record, b: Record) {
    a.role.Assistant? && b.role.Assistant? && a.ResponseKey().Some? && a.ResponseKey() == b.ResponseKey()
  }

  ghost predicate LastUse(rs: seq<Record>, id: Id, i: nat) {
    i < |rs| && UsesIn(rs[i], id) && forall k :: i < k < |rs| ==> !UsesIn(rs[k], id)
  }

  ghost predicate LastAnswer(rs: seq<Record>, id: Id, i: nat) {
    i < |rs| && AnswersIn(rs[i], id) && forall k :: i < k < |rs| ==> !AnswersIn(rs[k], id)
  }

  /** The recorded use and answer of every id lie on the same side. */
  ghost predicate ToolSafe(rs: seq<Record>, cut: nat) {
    forall id, u: nat, a: nat :: LastUse(rs, id, u) && LastAnswer(rs, id, a) ==> !(u < cut <= a)
  }

  /** The record at the cut opens its response. */
  ghost predicate OpensResponse(rs: seq<Record>, cut: nat) {
    cut < |rs| ==> forall k :: 0 <= k < cut ==> !Siblings(rs[k], rs[cut])
  }

  /** No response has records on both sides. */
  ghost predicate GroupSafe(rs: seq<Record>, cut: nat) {
    forall i, k :: 0 <= i < cut <= k < |rs| ==> !Siblings(rs[i], rs[k])
  }

  /** A cut that the search leaves alone. */
  ghost predicate Settled(rs: seq<Record>, cut: nat) {
    ToolSafe(rs, cut) && OpensResponse(rs, cut)
  }

  ghost predicate Safe(rs: seq<Record>, cut: nat) {
    ToolSafe(rs, cut) && GroupSafe(rs, cut)
  }

  /** What the search returns for a pivot: it never goes below a safe cut, and keeps a settled pivot. */
  ghost predicate IsRoundStart(rs: seq<Record>, pivot: nat, cut: nat) {
    && cut <= pivot
    && Settled(rs, cut)
    && (forall c: nat :: c <= pivot && Safe(rs, c) ==> c <= cut)
    && (Settled(rs, pivot) ==> cut == pivot)
  }

  ghost predicate MapsUses(rs: seq<Record>, m: map<Id, nat>) {
    && (forall id :: id in m ==> LastUse(rs, id, m[id]))
    && (forall i, id :: 0 <= i < |rs| && UsesIn(rs[i], id) ==> id in m)
  }

  ghost predicate MapsAnswers(rs: seq<Record>, m: map<Id, nat>) {
    && (forall id :: id in m ==> LastAnswer(rs, id, m[id]))
    && (forall i, id :: 0 <= i < |rs| && AnswersIn(rs[i], id) ==> id in m)
  }

  function AllAt(ids: set<Id>, i: nat): map<Id, nat> {
    map id | id in ids :: i
  }

  function UsesAt(m: map<Id, nat>, bs: seq<Block>, i: nat): map<Id, nat> {
    m + AllAt(BlockUses(bs), i)
  }

  function AnswersAt(m: map<Id, nat>, bs: seq<Block>, i: nat): map<Id, nat> {
    m + AllAt(BlockAnswers(bs), i)
  }

  lemma {:induction false} UsesAtAppend(m: map<Id, nat>, bs: seq<Block>, b: Block, i: nat)
    ensures UsesAt(m, bs + [b], i) == if b.ToolUse? then UsesAt(m, bs, i)[b.id := i] else UsesAt(m, bs, i)
  {
    assert BlockUses(bs + [b]) == BlockUses(bs) + if b.ToolUse? then {b.id} else {};
  }

  lemma {:induction false} AnswersAtAppend(m: map<Id, nat>, bs: seq<Block>, b: Block, i: nat)
    ensures AnswersAt(m, bs + [b], i) ==
            if b.ToolResult? then AnswersAt(m, bs, i)[b.toolUseId := i] else AnswersAt(m, bs, i)
  {
    assert BlockAnswers(bs + [b]) == BlockAnswers(bs) + if b.ToolResult? then {b.toolUseId} else {};
  }

  method IndexBlocks(blocks: seq<Block>, i: nat, uses0: map<Id, nat>, answers0: map<Id, nat>)
    returns (uses: map<Id, nat>, answers: map<Id, nat>)
    ensures uses == UsesAt(uses0, blocks, i) && answers == AnswersAt(answers0, blocks, i)
  {
    uses, answers := uses0, answers0;
    for j := 0 to |blocks|
      invariant uses == UsesAt(uses0, blocks[..j], i) && answers == AnswersAt(answers0, blocks[..j], i)
    {
      assert blocks[..j + 1] == blocks[..j] + [blocks[j]];
      UsesAtAppend(uses0, blocks[..j], blocks[j], i);
      AnswersAtAppend(answers0, blocks[..j], blocks[j], i);
      match blocks[j] {
        case ToolUse(id, _) => uses := uses[id := i];
        case ToolResult(id, _) => answers := answers[id := i];
        case _ =>
      }
    }
    assert blocks[..|blocks|] == blocks;
  }

  lemma {:induction false} LastUseNew(rs: seq<Record>, id: Id, r: Record)
    requires UsesIn(r, id)
    ensures LastUse(rs + [r], id, |rs|)
  {
  }

  lemma {:induction false} LastUseKept(rs: seq<Record>, id: Id, i: nat, r: Record)
    requires LastUse(rs, id, i) && !UsesIn(r, id)
    ensures LastUse(rs + [r], id, i)
  {
    assert (rs + [r])[..|rs|] == rs;
  }

  lemma {:induction false} MapsUsesAppend(rs: seq<Record>, m: map<Id, nat>, r: Record)
    requires MapsUses(rs, m)
    ensures MapsUses(rs + [r], UsesAt(m, Normalized(r.content), |rs|))
  {
    var after, m' := rs + [r], UsesAt(m, Normalized(r.content), |rs|);
    forall id | id in m' ensures LastUse(after, id, m'[id]) {
      if UsesIn(r, id) {
        LastUseNew(rs, id, r);
      } else {
        LastUseKept(rs, id, m[id], r);
      }
    }
  }

  lemma {:induction false} LastAnswerNew(rs: seq<Record>, id: Id, r: Record)
    requires AnswersIn(r, id)
    ensures LastAnswer(rs + [r], id, |rs|)
  {
  }

  lemma {:induction false} LastAnswerKept(rs: seq<Record>, id: Id, i: nat, r: Record)
    requires LastAnswer(rs, id, i) && !AnswersIn(r, id)
    ensures LastAnswer(rs + [r], id, i)
  {
    assert (rs + [r])[..|rs|] == rs;
  }

  lemma {:induction false} MapsAnswersAppend(rs: seq<Record>, m: map<Id, nat>, r: Record)
    requires MapsAnswers(rs, m)
    ensures MapsAnswers(rs + [r], AnswersAt(m, Normalized(r.content), |rs|))
  {
    var after, m' := rs + [r], AnswersAt(m, Normalized(r.content), |rs|);
    forall id | id in m' ensures LastAnswer(after, id, m'[id]) {
      if AnswersIn(r, id) {
        LastAnswerNew(rs, id, r);
      } else {
        LastAnswerKept(rs, id, m[id], r);
      }
    }
  }

  ghost predicate Maps(rs: seq<Record>, uses: map<Id, nat>, answers: map<Id, nat>) {
    MapsUses(rs, uses) && MapsAnswers(rs, answers)
  }

  lemma {:induction false} MapsAppend(rs: seq<Record>, uses: map<Id, nat>, answers: map<Id, nat>, r: Record)
    requires Maps(rs, uses, answers)
    ensures Maps(rs + [r], UsesAt(uses, Normalized(r.content), |rs|), AnswersAt(answers, Normalized(r.content), |rs|))
  {
    MapsUsesAppend(rs, uses, r);
    MapsAnswersAppend(rs, answers, r);
  }

  method IndexToolBlocks(rs: seq<Record>) returns (uses: map<Id, nat>, answers: map<Id, nat>)
    ensures Maps(rs, uses, answers)
  {
    uses, answers := map[], map[];
    for i := 0 to |rs|
      invariant Maps(rs[..i], uses, answers)
    {
      MapsAppend(rs[..i], uses, answers, rs[i]);
      assert rs[..i + 1] == rs[..i] + [rs[i]];
      uses, answers := IndexBlocks(Normalized(rs[i].content), i, uses, answers);
    }
    assert rs[..|rs|] == rs;
  }

  method FirstSiblingBefore(rs: seq<Record>, cut: nat) returns (index: nat)
    requires cut < |rs|
    ensures index <= cut
    ensures index < cut ==> Siblings(rs[index], rs[cut])
    ensures index == cut <==> OpensResponse(rs, cut)
  {
    index := 0;
    while index < cut
      invariant index <= cut
      invariant forall k :: 0 <= k < index ==> !Siblings(rs[k], rs[cut])
    {
      if Siblings(rs[index], rs[cut]) { return; }
      index := index + 1;
    }
  }

  lemma {:induction false} NoneSeveredIsSafe(rs: seq<Record>, uses: map<Id, nat>, answers: map<Id, nat>, cut: nat)
    requires MapsUses(rs, uses) && MapsAnswers(rs, answers)
    requires forall id | id in uses && id in answers :: !(uses[id] < cut <= answers[id])
    ensures ToolSafe(rs, cut)
  {
    forall id, u: nat, a: nat | LastUse(rs, id, u) && LastAnswer(rs, id, a) ensures !(u < cut <= a) {
      assert id in uses && id in answers;
      OneLastUse(rs, id, u, uses[id]);
      OneLastAnswer(rs, id, a, answers[id]);
    }
  }

  lemma {:induction false} OneLastUse(rs: seq<Record>, id: Id, i: nat, k: nat)
    requires LastUse(rs, id, i) && LastUse(rs, id, k)
    ensures i == k
  {
  }

  lemma {:induction false} OneLastAnswer(rs: seq<Record>, id: Id, i: nat, k: nat)
    requires LastAnswer(rs, id, i) && LastAnswer(rs, id, k)
    ensures i == k
  {
  }

  /** A cut inside a recorded pair is not safe, and no safe cut lies between the pair's use and it. */
  lemma {:induction false} SeveredPullsBack(
      rs: seq<Record>, uses: map<Id, nat>, answers: map<Id, nat>, cut: nat, id: Id)
    requires MapsUses(rs, uses) && MapsAnswers(rs, answers)
    requires id in uses && id in answers && uses[id] < cut <= answers[id]
    ensures forall c: nat :: c <= cut && ToolSafe(rs, c) ==> c <= uses[id]
  {
    assert LastUse(rs, id, uses[id]) && LastAnswer(rs, id, answers[id]);
  }

  /** Moves the cut before every pair it finds severed. The keys come in some order, which does not matter. */
  method PullBeforeSeveredPairs(rs: seq<Record>, uses: map<Id, nat>, answers: map<Id, nat>, start: nat)
    returns (cut: nat)
    requires MapsUses(rs, uses) && MapsAnswers(rs, answers)
    ensures cut <= start
    ensures cut == start <==> ToolSafe(rs, start)
    ensures forall c: nat :: c <= start && ToolSafe(rs, c) ==> c <= cut
  {
    cut := start;
    var pending := uses.Keys;
    while pending != {}
      invariant pending <= uses.Keys && cut <= start
      invariant cut < start ==> !ToolSafe(rs, start)
      invariant forall c: nat :: c <= start && ToolSafe(rs, c) ==> c <= cut
      invariant cut == start ==> forall id :: id in uses.Keys - pending && id in answers ==>
                                                !(uses[id] < start <= answers[id])
      decreases pending
    {
      var id :| id in pending;
      if id in answers && uses[id] < cut && answers[id] >= cut {
        SeveredPullsBack(rs, uses, answers, cut, id);
        cut := uses[id];
      }
      pending := pending - {id};
    }
    if cut == start {
      NoneSeveredIsSafe(rs, uses, answers, start);
    }
  }

  method ResolveStructuredRoundStart(rs: seq<Record>, pivot: nat) returns (cut: nat)
    requires pivot < |rs|
    ensures IsRoundStart(rs, pivot, cut)
  {
    var uses, answers := IndexToolBlocks(rs);
    cut := pivot;
    var changed := true;
    while changed
      invariant cut <= pivot
      invariant forall c: nat :: c <= pivot && Safe(rs, c) ==> c <= cut
      invariant cut == pivot || !Settled(rs, pivot)
      invariant changed || Settled(rs, cut)
      decreases cut, changed
    {
      changed := false;
      var first := FirstSiblingBefore(rs, cut);
      if first < cut {
        assert Siblings(rs[first], rs[cut]);
        cut := first;
        changed := true;
      }
      var pulled := PullBeforeSeveredPairs(rs, uses, answers, cut);
      if pulled < cut {
        cut := pulled;
        changed := true;
      }
    }
  }

  datatype Mode = Full | UpTo | From

  datatype Split = Split(archived: seq<Record>, retained: seq<Record>)

  function PivotIndex(source: seq<Record>, pivotId: Option<Id>): int {
    if pivotId.Some? && pivotId.value != "" then IndexOf(source, pivotId.value) else -1
  }

  /** The two sides of a source around a cut, by mode. */
  function SplitAt(source: seq<Record>, mode: Mode, pivotId: Option<Id>, cut: nat): Option<Split> {
    match mode
    case Full => if source == [] then None else Some(Split(source, []))
    case _ =>
      if PivotIndex(source, pivotId) < 0 || cut == 0 || cut >= |source| then None
      else if mode.UpTo? then Some(Split(source[..cut], source[cut..]))
      else Some(Split(source[cut..], source[..cut]))
  }

  /** The cut is what the search makes of the pivot, where there is one to move. */
  ghost predicate IsCut(source: seq<Record>, mode: Mode, pivotId: Option<Id>, cut: nat) {
    mode.Full? || PivotIndex(source, pivotId) < 0 || IsRoundStart(source, PivotIndex(source, pivotId), cut)
  }

  method SplitContextCompactionRecords(source: seq<Record>, mode: Mode, pivotId: Option<Id>)
    returns (split: Option<Split>, ghost cut: nat)
    ensures IsCut(source, mode, pivotId, cut) && split == SplitAt(source, mode, pivotId, cut)
    ensures split.Some? ==> split.value.archived != [] && (mode.Full? <==> split.value.retained == [])
    ensures split.Some? ==>
              source == if mode.From? then split.value.retained + split.value.archived
                        else split.value.archived + split.value.retained
  {
    cut := 0;
    if source == [] { return None, 0; }
    if mode == Full { return Some(Split(source, [])), 0; }
    if pivotId.None? || pivotId.value == "" { return None, 0; }
    var pivot := IndexOf(source, pivotId.value);
    if pivot < 0 { return None, 0; }
    var boundary := ResolveStructuredRoundStart(source, pivot);
    cut := boundary;
    var archived := if mode == UpTo then source[..boundary] else source[boundary..];
    var retained := if mode == UpTo then source[boundary..] else source[..boundary];
    if archived == [] || retained == [] { return None, cut; }
    return Some(Split(archived, retained)), cut;
  }

  // ---- What the search guarantees ----

  /** The siblings of every response follow each other without a gap. */
  ghost predicate ContiguousResponses(rs: seq<Record>) {
    forall i, c, k :: 0 <= i < c <= k < |rs| && Siblings(rs[i], rs[k]) ==> Siblings(rs[i], rs[c])
  }

  /** With contiguous responses the search returns exactly the greatest safe cut at or below the pivot. */
  lemma {:induction false} GreatestSafeCut(rs: seq<Record>, pivot: nat, cut: nat)
    requires pivot < |rs| && ContiguousResponses(rs) && IsRoundStart(rs, pivot, cut)
    ensures Safe(rs, cut)
    ensures forall c: nat :: c <= pivot && Safe(rs, c) ==> c <= cut
  {
    forall i, k | 0 <= i < cut <= k < |rs| ensures !Siblings(rs[i], rs[k]) {
    }
  }

  /** A response gap that the search would accept as a cut. */
  ghost predicate ExposedGap(rs: seq<Record>, i: nat, c: nat, k: nat) {
    i < c <= k < |rs| && Siblings(rs[i], rs[k]) && Settled(rs, c)
  }

  /**
   Without that assumption the promise can fail. No pivot ever cuts a response if and only if no record
   inside a response's span both opens a response and lies outside every tool pair.
   */
  lemma {:induction false} ResponsesWholeIffNoExposedGap(rs: seq<Record>)
    ensures (forall pivot: nat, cut: nat :: pivot < |rs| && IsRoundStart(rs, pivot, cut) ==> GroupSafe(rs, cut))
            <==> (forall i: nat, c: nat, k: nat :: !ExposedGap(rs, i, c, k))
  {
    if forall pivot: nat, cut: nat :: pivot < |rs| && IsRoundStart(rs, pivot, cut) ==> GroupSafe(rs, cut) {
      forall i: nat, c: nat, k: nat ensures !ExposedGap(rs, i, c, k) {
        if c < |rs| && Settled(rs, c) {
          SettledPivotStays(rs, c);
          assert GroupSafe(rs, c);
        }
      }
    }
    if forall i: nat, c: nat, k: nat :: !ExposedGap(rs, i, c, k) {
      forall pivot: nat, cut: nat | pivot < |rs| && IsRoundStart(rs, pivot, cut) ensures GroupSafe(rs, cut) {
        forall i, k | 0 <= i < cut <= k < |rs| ensures !Siblings(rs[i], rs[k]) {
          assert !ExposedGap(rs, i, cut, k);
        }
      }
    }
  }

  lemma {:induction false} SettledPivotStays(rs: seq<Record>, pivot: nat)
    requires pivot < |rs| && Settled(rs, pivot)
    ensures IsRoundStart(rs, pivot, pivot)
  {
  }

  /** Without that assumption a response is cut: an ordinary user message stands between its two records. */
  const GAPPED := [
    Sibling("a"), Record("b", User, Message, Text("and also", []), None, None, None, false), Sibling("c")]

  function Sibling(id: Id): Record {
    Record(id, Assistant, Message, Text("part", []), Some("k1"), None, None, false)
  }

  lemma {:induction false} GappedResponseIsCut()
    ensures forall cut: nat :: IsRoundStart(GAPPED, 1, cut) <==> cut == 1
    ensures !GroupSafe(GAPPED, 1)
  {
    var rs := GAPPED;
    forall id, i: nat | i < |rs| ensures !UsesIn(rs[i], id) {
      assert Normalized(rs[i].content) == [];
    }
    assert Settled(rs, 1);
    SettledPivotStays(rs, 1);
    assert Siblings(rs[0], rs[2]);
  }

  /** The two sides of a split are the source. */
  lemma {:induction false} SplitSides(source: seq<Record>, mode: Mode, pivotId: Option<Id>, cut: nat)
    requires SplitAt(source, mode, pivotId, cut).Some?
    ensures var split := SplitAt(source, mode, pivotId, cut).value;
            source == if mode.From? then split.retained + split.archived else split.archived + split.retained
  {
    if mode.Full? {
      assert source + [] == source;
    } else {
      assert source[..cut] + source[cut..] == source;
    }
  }
}
