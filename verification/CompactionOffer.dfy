/**
 When a compaction is offered, and with which sides: in terms of the source rows, the mode and the pivot alone.
 */
module CompactionOffer {
  import opened Sequences
  import opened Identifiers
  import opened Transcript
  import opened RoundCut
  import opened PairCut
  import opened ToolGate
  import opened Compaction

  // ---- The gate's rules ----

  function UseIds(bs: seq<Block>): seq<Id> {
    if bs == [] then [] else (if bs[0].ToolUse? then [bs[0].id] else []) + UseIds(bs[1..])
  }

  /** The id of every use that the gate sees, in order. */
  function SeenUses(rs: seq<Record>): seq<Id> {
    if rs == [] then [] else UseIds(Normalized(rs[0].content)) + SeenUses(rs[1..])
  }

  /** No id is used twice, every answer answers a use, and every use by an assistant is answered. */
  ghost predicate Passes(rs: seq<Record>) {
    && Distinct(SeenUses(rs))
    && (forall id | Answered(rs, id) :: Used(rs, id))
    && (forall r, id | r in rs && r.role.Assistant? && UsesIn(r, id) :: Answered(rs, id))
  }

  lemma {:induction false} UseIdsCount(bs: seq<Block>, id: Id)
    ensures multiset(UseIds(bs))[id] == UseCount(bs, id)
    ensures id in UseIds(bs) <==> id in BlockUses(bs)
  {
    if bs != [] {
      UseIdsCount(bs[1..], id);
      assert bs == [bs[0]] + bs[1..];
    }
  }

  lemma {:induction false} SeenUsesCount(rs: seq<Record>, id: Id)
    ensures multiset(SeenUses(rs))[id] == SeenCount(rs, id)
    ensures id in SeenUses(rs) <==> id in SeenUseIds(rs)
  {
    if rs != [] {
      SeenUsesCount(rs[1..], id);
      UseIdsCount(Normalized(rs[0].content), id);
      assert rs == [rs[0]] + rs[1..];
    }
  }

  lemma {:induction false} DistinctIffCounted<T>(s: seq<T>)
    ensures Distinct(s) <==> forall x | x in s :: multiset(s)[x] == 1
  {
    if s != [] {
      DistinctIffCounted(s[1..]);
      DistinctConcat([s[0]], s[1..]);
      assert s == [s[0]] + s[1..];
      assert multiset(s) == multiset{s[0]} + multiset(s[1..]);
      assert s[0] in [s[0]];
      if Distinct(s) {
        forall x | x in s ensures multiset(s)[x] == 1 {
          assert x == s[0] || x in s[1..];
        }
      } else if Distinct(s[1..]) {
        assert s[0] in s[1..];
        assert multiset(s)[s[0]] >= 2;
      } else {
        var x :| x in s[1..] && multiset(s[1..])[x] != 1;
        assert x in s && multiset(s)[x] > 1;
      }
    }
  }

  lemma {:induction false} GateIs(rs: seq<Record>)
    ensures GlobalIntegrity(rs) <==> Passes(rs)
  {
    forall id
      ensures multiset(SeenUses(rs))[id] == SeenCount(rs, id) && (id in SeenUses(rs) <==> id in SeenUseIds(rs))
    {
      SeenUsesCount(rs, id);
    }
    DistinctIffCounted(SeenUses(rs));
    forall id ensures (id in SeenUseIds(rs) <==> Used(rs, id)) && (id in SeenAnswerIds(rs) <==> Answered(rs, id)) {
      SeenUseIdsMean(rs, id);
      SeenAnswerIdsMean(rs, id);
    }
    GateRest(rs);
  }

  lemma {:induction false} GateRest(rs: seq<Record>)
    requires forall id :: id in SeenUseIds(rs) <==> Used(rs, id)
    requires forall id :: id in SeenAnswerIds(rs) <==> Answered(rs, id)
    ensures SeenAnswerIds(rs) <= SeenUseIds(rs) <==> forall id | Answered(rs, id) :: Used(rs, id)
    ensures (forall r | r in rs && r.role.Assistant? :: BlockUses(Normalized(r.content)) <= SeenAnswerIds(rs)) <==>
            (forall r, id | r in rs && r.role.Assistant? && UsesIn(r, id) :: Answered(rs, id))
  {
  }

  // ---- When a compaction is offered ----

  function ArchivedSide(source: seq<Record>, mode: Mode, cut: nat): seq<Record>
    requires cut <= |source|
  {
    match mode
    case Full => source
    case UpTo => source[..cut]
    case From => source[cut..]
  }

  function RetainedSide(source: seq<Record>, mode: Mode, cut: nat): seq<Record>
    requires cut <= |source|
  {
    match mode
    case Full => []
    case UpTo => source[cut..]
    case From => source[..cut]
  }

  /** The pivot is the first row of that id. */
  predicate IsPivot(source: seq<Record>, pivotId: Option<Id>, p: nat) {
    && p < |source| && pivotId.Some? && pivotId.value != "" && source[p].id == pivotId.value
    && forall k | 0 <= k < p :: source[k].id != pivotId.value
  }

  predicate SomeMessage(rs: seq<Record>) {
    exists r | r in rs :: r.kind.Message?
  }

  /** A full compaction is offered for two rows or more, if one of them is a message. */
  ghost predicate MayArchiveAll(source: seq<Record>) {
    |source| > 1 && SomeMessage(source)
  }

  /**
   A partial one is offered if there is the pivot, the cut it is moved to leaves rows on both sides, a message is
   archived, and both sides pass the gate.
   */
  ghost predicate MayArchiveSide(source: seq<Record>, mode: Mode, pivotId: Option<Id>, p: nat, cut: nat) {
    && IsPivot(source, pivotId, p) && IsRoundStart(source, p, cut) && 0 < cut < |source|
    && SomeMessage(ArchivedSide(source, mode, cut))
    && Passes(ArchivedSide(source, mode, cut)) && Passes(RetainedSide(source, mode, cut))
  }

  lemma {:induction false} PivotFound(source: seq<Record>, pivotId: Option<Id>)
    ensures var p := PivotIndex(source, pivotId);
            if p < 0 then forall k: nat :: !IsPivot(source, pivotId, k)
            else IsPivot(source, pivotId, p) && forall k: nat :: IsPivot(source, pivotId, k) ==> k == p
  {
  }

  lemma {:induction false} SideOffered(
      source: seq<Record>, mode: Mode, pivotId: Option<Id>, commitId: Id, cut: nat, epoch: nat)
    requires !mode.Full? && IsCut(source, mode, pivotId, cut)
    ensures var offered := OfferAt(source, mode, pivotId, commitId, cut, epoch);
            && (offered.Some? <==> exists p: nat :: MayArchiveSide(source, mode, pivotId, p, cut))
            && (offered.Some? ==> cut <= |source|)
  {
    PivotFound(source, pivotId);
    if 0 < cut < |source| {
      GateIs(source[..cut]);
      GateIs(source[cut..]);
      if OfferAt(source, mode, pivotId, commitId, cut, epoch).Some? {
        assert MayArchiveSide(source, mode, pivotId, PivotIndex(source, pivotId), cut);
      }
    }
  }

  lemma {:induction false} OfferedSides(
      source: seq<Record>, mode: Mode, pivotId: Option<Id>, commitId: Id, cut: nat, epoch: nat)
    requires OfferAt(source, mode, pivotId, commitId, cut, epoch).Some? && (mode.Full? || cut <= |source|)
    ensures var at := if mode.Full? then 0 else cut;
            OfferAt(source, mode, pivotId, commitId, cut, epoch).value ==
            Candidate(mode, commitId, epoch, ArchivedSide(source, mode, at), RetainedSide(source, mode, at))
  {
  }

  /** What is offered to a caller, for every context, mode and pivot: `cut` is where the search moves the pivot. */
  lemma {:induction false} OfferedIff(
      c: Context, mode: Mode, pivotId: Option<Id>, commitId: Id, cut: nat, offered: Option<Candidate>)
    requires IsCandidate(c, mode, pivotId, commitId, cut, offered)
    ensures var source := SourceRecords(c.records);
            offered.Some? <==> if mode.Full? then MayArchiveAll(source)
                               else exists p: nat :: MayArchiveSide(source, mode, pivotId, p, cut)
    ensures var source := SourceRecords(c.records);
            offered.Some? ==>
              (mode.Full? || cut <= |source|) &&
              var at := if mode.Full? then 0 else cut;
              offered.value == Candidate(mode, commitId, c.epoch + 1, ArchivedSide(source, mode, at),
                                         RetainedSide(source, mode, at))
  {
    var source := SourceRecords(c.records);
    if !mode.Full? {
      SideOffered(source, mode, pivotId, commitId, cut, c.epoch + 1);
    }
    if offered.Some? {
      OfferedSides(source, mode, pivotId, commitId, cut, c.epoch + 1);
    }
  }

  // ---- Conversations of plain texts ----

  /** No row carries or embeds a tool block, and no two rows belong to one response. */
  ghost predicate PlainTexts(rs: seq<Record>) {
    && (forall r | r in rs :: Normalized(r.content) == [])
    && forall i, k | 0 <= i < k < |rs| :: !Siblings(rs[i], rs[k])
  }

  lemma {:induction false} PlainPasses(rs: seq<Record>)
    requires forall r | r in rs :: Normalized(r.content) == []
    ensures Passes(rs) && SeenUses(rs) == []
  {
    if rs != [] {
      assert rs[0] in rs;
      PlainPasses(rs[1..]);
    }
  }

  lemma {:induction false} PlainSettles(rs: seq<Record>, cut: nat)
    requires PlainTexts(rs)
    ensures Settled(rs, cut)
  {
    forall id, u: nat | u < |rs| ensures !UsesIn(rs[u], id) {
      assert rs[u] in rs;
    }
  }

  /**
   Among plain texts every pivot behind the first row cuts right before itself, in both directions, and a compaction
   is offered as soon as the side to be archived holds a message.
   */
  lemma {:induction false} PlainTextsAreOffered(
      c: Context, mode: Mode, p: nat, commitId: Id, cut: nat, offered: Option<Candidate>)
    requires Mounted(c) && PlainTexts(SourceRecords(c.records)) && 0 < p < |SourceRecords(c.records)|
    requires IsCandidate(c, mode, Some(SourceRecords(c.records)[p].id), commitId, cut, offered) && !mode.Full?
    ensures var source := SourceRecords(c.records);
            && cut == p
            && offered == if SomeMessage(ArchivedSide(source, mode, p))
                          then Some(Candidate(mode, commitId, c.epoch + 1, ArchivedSide(source, mode, p),
                                              RetainedSide(source, mode, p)))
                          else None
  {
    var source := SourceRecords(c.records);
    var pivotId := Some(source[p].id);
    SourceUnique(c);
    assert source[p] in source;
    SourceMembers(c, source[p]);
    UniquePivot(source, p);
    PivotFound(source, pivotId);
    PlainSettles(source, p);
    assert cut == p;
    PlainPasses(source[..p]);
    PlainPasses(source[p..]);
    OfferedIff(c, mode, pivotId, commitId, cut, offered);
    if SomeMessage(ArchivedSide(source, mode, p)) {
      assert MayArchiveSide(source, mode, pivotId, p, cut);
    }
  }

  lemma {:induction false} UniquePivot(source: seq<Record>, p: nat)
    requires UniqueIds(source) && p < |source| && source[p].id != ""
    ensures IsPivot(source, Some(source[p].id), p)
  {
    forall k | 0 <= k < p ensures source[k].id != source[p].id {
      assert Ids(source)[k] != Ids(source)[p];
    }
  }
}
