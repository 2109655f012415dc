/**
 The append-only transcript of a conversation: its records, and the reads that every projection starts
 from (the window after the last compact boundary, the Snip view, the active commit).
 */
module Transcript {
  import opened Sequences
  import opened Identifiers

  datatype Role = User | Assistant

  datatype Block =
    | ToolUse(id: Id, name: string)
    | ToolResult(toolUseId: Id, text: string)
    | Thinking(text: string)
    | OtherBlock(text: string)

  /** `embedded` holds the blocks that normalization finds in a text that happens to be a JSON array. */
  datatype Content =
    | Text(text: string, embedded: seq<Block>)
    | Blocks(blocks: seq<Block>)

  datatype Commit = Commit(id: Id, epoch: nat, parent: Option<Id>, archivedThrough: Id, summary: string)

  datatype AttachmentKind = SessionMemory | SubAgent | Todos | FileSnapshots | FileStates | ReadPaths

  /** The metadata a record carries depends on its kind. A missing or malformed commit is `None`. */
  datatype Kind =
    | Message
    | CompactBoundary(commit: Option<Commit>)
    | CompactSummary(commit: Option<Commit>)
    | SnipBoundary(removed: seq<Id>)
    | MicrocompactBoundary
    | Attachment(attachment: AttachmentKind)
    | HookResult

  /** An empty message id counts as none. */
  datatype Record = Record(
    id: Id,
    role: Role,
    kind: Kind,
    content: Content,
    messageId: Option<Id>,
    providerMessageId: Option<Id>,
    logicalParent: Option<Id>,
    providerExcluded: bool)
  {
    /** The provider message id that the siblings of one response share. */
    function ResponseKey(): Option<Id> {
      if messageId.Some? then messageId else providerMessageId
    }

    /** Markers steer the projections and are never sent to a provider. */
    predicate IsMarker() {
      kind.CompactBoundary? || kind.SnipBoundary? || kind.MicrocompactBoundary?
    }
  }

  function Ids(rs: seq<Record>): (ids: seq<Id>)
    ensures |ids| == |rs|
    ensures forall i | 0 <= i < |rs| :: ids[i] == rs[i].id
  {
    seq(|rs|, i requires 0 <= i < |rs| => rs[i].id)
  }

  predicate UniqueIds(rs: seq<Record>) {
    Distinct(Ids(rs))
  }

  function IdSet(rs: seq<Record>): set<Id> {
    set r | r in rs :: r.id
  }

  function IndexOf(rs: seq<Record>, id: Id): (index: int)
    ensures -1 <= index < |rs|
    ensures index >= 0 ==> rs[index].id == id && forall k :: 0 <= k < index ==> rs[k].id != id
    ensures index < 0 ==> forall r | r in rs :: r.id != id
  {
    if rs == [] then -1
    else if rs[0].id == id then 0
    else
      var rest := IndexOf(rs[1..], id);
      if rest < 0 then -1 else rest + 1
  }

  lemma {:induction false} IdsMember(rs: seq<Record>, id: Id)
    ensures id in Ids(rs) <==> id in IdSet(rs)
  {
    if id in Ids(rs) {
      var i :| 0 <= i < |rs| && Ids(rs)[i] == id;
      assert rs[i] in rs;
    }
    if id in IdSet(rs) {
      var r :| r in rs && r.id == id;
      var i :| 0 <= i < |rs| && rs[i] == r;
      assert Ids(rs)[i] == id;
    }
  }

  lemma {:induction false} IdsConcat(a: seq<Record>, b: seq<Record>)
    ensures Ids(a + b) == Ids(a) + Ids(b)
    ensures IdSet(a + b) == IdSet(a) + IdSet(b)
    ensures UniqueIds(a + b) <==> UniqueIds(a) && UniqueIds(b) && IdSet(a) !! IdSet(b)
  {
    DistinctConcat(Ids(a), Ids(b));
    assert Ids(a + b) == Ids(a) + Ids(b);
    forall id ensures id in Ids(a) <==> id in IdSet(a) { IdsMember(a, id); }
    forall id ensures id in Ids(b) <==> id in IdSet(b) { IdsMember(b, id); }
  }

  /** In a list with unique ids the id determines the record. */
  lemma {:induction false} UniqueRecord(rs: seq<Record>, r: Record, s: Record)
    requires UniqueIds(rs) && r in rs && s in rs && r.id == s.id
    ensures r == s
  {
    var i :| 0 <= i < |rs| && rs[i] == r;
    var j :| 0 <= j < |rs| && rs[j] == s;
    assert Ids(rs)[i] == Ids(rs)[j];
  }

  // ---- The window after the last compact boundary ----

  function LastBoundary(rs: seq<Record>): int {
    if rs == [] then -1
    else if rs[|rs| - 1].kind.CompactBoundary? then |rs| - 1
    else LastBoundary(rs[..|rs| - 1])
  }

  method FindLastCompactBoundaryIndex(rs: seq<Record>) returns (index: int)
    ensures -1 <= index < |rs|
    ensures index >= 0 ==> rs[index].kind.CompactBoundary?
    ensures forall k :: index < k < |rs| ==> !rs[k].kind.CompactBoundary?
    ensures index == LastBoundary(rs)
  {
    index := |rs| - 1;
    assert rs[..index + 1] == rs;
    while index >= 0
      invariant -1 <= index < |rs|
      invariant forall k :: index < k < |rs| ==> !rs[k].kind.CompactBoundary?
      invariant LastBoundary(rs[..index + 1]) == LastBoundary(rs)
    {
      if rs[index].kind.CompactBoundary? {
        return;
      }
      assert rs[..index + 1][..index] == rs[..index];
      index := index - 1;
    }
  }

  function SnippedIds(rs: seq<Record>): set<Id> {
    set r, id | r in rs && r.kind.SnipBoundary? && id in r.kind.removed :: id
  }

  lemma {:induction false} SnippedIdsConcat(a: seq<Record>, b: seq<Record>)
    ensures SnippedIds(a + b) == SnippedIds(a) + SnippedIds(b)
  {
  }

  method CollectSnippedIds(rs: seq<Record>) returns (snipped: set<Id>)
    ensures snipped == SnippedIds(rs)
  {
    snipped := {};
    for i := 0 to |rs|
      invariant snipped == SnippedIds(rs[..i])
    {
      assert rs[..i + 1] == rs[..i] + [rs[i]];
      if rs[i].kind.SnipBoundary? {
        var removed := rs[i].kind.removed;
        for j := 0 to |removed|
          invariant snipped == SnippedIds(rs[..i]) + set id | id in removed[..j]
        {
          assert removed[..j + 1] == removed[..j] + [removed[j]];
          snipped := snipped + {removed[j]};
        }
        assert removed[..|removed|] == removed;
      }
    }
    assert rs[..|rs|] == rs;
  }

  function SnippedView(rs: seq<Record>): seq<Record> {
    var snipped := SnippedIds(rs);
    Filter((r: Record) => r.id !in snipped, rs)
  }

  function AfterBoundary(rs: seq<Record>): seq<Record> {
    var index := LastBoundary(rs);
    if 0 <= index < |rs| then rs[index..] else rs
  }

  /** The records a generic provider projection starts from. */
  function ActiveWindow(rs: seq<Record>): seq<Record> {
    SnippedView(AfterBoundary(rs))
  }

  function ActiveCommit(rs: seq<Record>): Option<Commit> {
    var index := LastBoundary(rs);
    if 0 <= index < |rs| && rs[index].kind.CompactBoundary? then rs[index].kind.commit else None
  }

  /** The commits of the compact boundaries, oldest first. */
  function History(rs: seq<Record>): seq<Commit> {
    if rs == [] then []
    else
      var r := rs[|rs| - 1];
      History(rs[..|rs| - 1]) +
      (if r.kind.CompactBoundary? && r.kind.commit.Some? then [r.kind.commit.value] else [])
  }

  method DeriveCompactionHistory(rs: seq<Record>) returns (commits: seq<Commit>)
    ensures commits == History(rs)
  {
    commits := [];
    for i := 0 to |rs|
      invariant commits == History(rs[..i])
    {
      assert rs[..i + 1][..i] == rs[..i];
      if rs[i].kind.CompactBoundary? && rs[i].kind.commit.Some? {
        commits := commits + [rs[i].kind.commit.value];
      }
    }
    assert rs[..|rs|] == rs;
  }

  predicate Commits(r: Record) {
    r.kind.CompactBoundary? && r.kind.commit.Some?
  }

  /** The history is that of the boundaries that carry a commit, in the order of the transcript. */
  lemma {:induction false} HistoryInOrder(rs: seq<Record>)
    ensures var kept := Filter(Commits, rs);
            |History(rs)| == |kept| && forall i | 0 <= i < |kept| :: kept[i].kind == CompactBoundary(Some(History(rs)[i]))
  {
    if rs != [] {
      var init, r := rs[..|rs| - 1], rs[|rs| - 1];
      assert rs == init + [r];
      HistoryInOrder(init);
      FilterConcat(Commits, init, [r]);
      FilterMembers(Commits, [r]);
      assert [r][1..] == [];
    }
  }

  /** With a single boundary, in front, the window is the whole transcript and the history one commit. */
  lemma {:induction false} LeadingBoundary(rs: seq<Record>, commit: Commit)
    requires rs != [] && rs[0].kind == CompactBoundary(Some(commit))
    requires forall k :: 0 < k < |rs| ==> !rs[k].kind.CompactBoundary?
    ensures LastBoundary(rs) == 0 && ActiveCommit(rs) == Some(commit) && History(rs) == [commit]
    ensures AfterBoundary(rs) == rs
  {
    if |rs| > 1 {
      LeadingBoundary(rs[..|rs| - 1], commit);
    } else {
      assert History(rs[..0]) == [];
    }
  }

  lemma {:induction false} NoBoundary(rs: seq<Record>)
    requires forall r :: r in rs ==> !r.kind.CompactBoundary?
    ensures LastBoundary(rs) == -1 && ActiveCommit(rs) == None && History(rs) == [] && AfterBoundary(rs) == rs
  {
    if rs != [] {
      NoBoundary(rs[..|rs| - 1]);
    }
  }
}
