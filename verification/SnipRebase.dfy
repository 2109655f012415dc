/**
 Carrying Snip boundaries across a compaction. The mounted boundaries are spliced, in the canonical order of
 the state, into the freshly built compact projection.
 */
module SnipRebase {
  import opened Sequences
  import opened Identifiers
  import opened Transcript

  datatype RebaseError =
    | DuplicateRecord(id: Id)
    | DuplicateSnip(id: Id)
    | AbsentSuccessor(id: Id)

  function GraphIds(rs: seq<Record>): set<Id> {
    set r | r in rs && r.kind.Message? :: r.id
  }

  predicate IsRetained(r: Record, retained: set<Id>) {
    r.kind.Message? && r.id in retained
  }

  /** The first graph message, in canonical order, that survives the compaction. */
  function Successor(canonical: seq<Record>, retained: set<Id>): Option<Record> {
    if canonical == [] then None
    else if IsRetained(canonical[0], retained) then Some(canonical[0])
    else Successor(canonical[1..], retained)
  }

  function Insert(rs: seq<Record>, i: nat, r: Record): seq<Record>
    requires i <= |rs|
  {
    rs[..i] + [r] + rs[i..]
  }

  /** Replays the boundaries of `canonical` into `result`; `seen` holds the ids placed so far. */
  function Replay(canonical: seq<Record>, retained: set<Id>, result: seq<Record>, seen: set<Id>)
    : Result<seq<Record>, RebaseError>
    decreases |canonical|
  {
    if canonical == [] then Ok(result)
    else
      var boundary, rest := canonical[0], canonical[1..];
      if !boundary.kind.SnipBoundary? then Replay(rest, retained, result, seen)
      else if boundary.id in seen then Err(DuplicateSnip(boundary.id))
      else
        var successor := Successor(rest, retained);
        if successor.None? then
          Replay(rest, retained, Insert(result, |result|, boundary), seen + {boundary.id})
        else
          var i := IndexOf(result, successor.value.id);
          if i < 0 then Err(AbsentSuccessor(successor.value.id))
          else Replay(rest, retained, Insert(result, i, boundary), seen + {boundary.id})
  }

  function FirstDuplicate(rs: seq<Record>, seen: set<Id>): Option<Id> {
    if rs == [] then None
    else if rs[0].id in seen then Some(rs[0].id)
    else FirstDuplicate(rs[1..], seen + {rs[0].id})
  }

  function Rebase(canonical: seq<Record>, projection: seq<Record>, retained: seq<Record>)
    : Result<seq<Record>, RebaseError>
  {
    var duplicate := FirstDuplicate(projection, {});
    if duplicate.Some? then Err(DuplicateRecord(duplicate.value))
    else Replay(canonical, GraphIds(retained), projection, IdSet(projection))
  }

  method RebaseSnipBoundariesIntoCompactProjection(
      canonical: seq<Record>, projection: seq<Record>, retained: seq<Record>)
    returns (r: Result<seq<Record>, RebaseError>)
    ensures r == Rebase(canonical, projection, retained)
  {
    var result := projection;
    var retainedIds := GraphIds(retained);
    var seen: set<Id> := {};
    for k := 0 to |projection|
      invariant seen == IdSet(projection[..k])
      invariant FirstDuplicate(projection, {}) == FirstDuplicate(projection[k..], seen)
    {
      assert projection[k..][1..] == projection[k + 1..];
      assert projection[..k + 1] == projection[..k] + [projection[k]];
      if projection[k].id in seen {
        return Err(DuplicateRecord(projection[k].id));
      }
      seen := seen + {projection[k].id};
    }
    assert projection[..|projection|] == projection;
    for index := 0 to |canonical|
      invariant Rebase(canonical, projection, retained) == Replay(canonical[index..], retainedIds, result, seen)
    {
      var boundary, rest := canonical[index], canonical[index + 1..];
      assert canonical[index..][1..] == rest;
      if boundary.kind.SnipBoundary? {
        if boundary.id in seen {
          return Err(DuplicateSnip(boundary.id));
        }
        var successor := Successor(rest, retainedIds);
        var i := if successor.Some? then IndexOf(result, successor.value.id) else -1;
        if successor.Some? && i < 0 {
          return Err(AbsentSuccessor(successor.value.id));
        }
        result := Insert(result, if i >= 0 then i else |result|, boundary);
        seen := seen + {boundary.id};
      }
    }
    assert canonical[|canonical|..] == [];
    r := Ok(result);
  }

  // ---- What is refused ----

  function SnipIds(rs: seq<Record>): set<Id> {
    set r | r in rs && r.kind.SnipBoundary? :: r.id
  }

  /** The first message behind the boundary that survives. */
  ghost predicate Follows(canonical: seq<Record>, retained: set<Id>, i: nat, k: nat) {
    i < k < |canonical| && IsRetained(canonical[k], retained) && forall j | i < j < k :: !IsRetained(canonical[j], retained)
  }

  /** The boundary at `i` has a new id, and the message that it comes before is there already. */
  ghost predicate Placeable(canonical: seq<Record>, retained: set<Id>, placed: set<Id>, i: nat)
    requires i < |canonical|
  {
    canonical[i].kind.SnipBoundary? ==>
      var seen := placed + SnipIds(canonical[..i]);
      canonical[i].id !in seen && forall k: nat | Follows(canonical, retained, i, k) :: canonical[k].id in seen
  }

  lemma {:induction false} SuccessorFollows(canonical: seq<Record>, retained: set<Id>, i: nat)
    requires i < |canonical|
    ensures var s := Successor(canonical[i + 1..], retained);
            && (s.None? ==> forall k: nat :: !Follows(canonical, retained, i, k))
            && (s.Some? ==> exists k: nat :: Follows(canonical, retained, i, k) && canonical[k] == s.value)
            && (forall k: nat | Follows(canonical, retained, i, k) :: s == Some(canonical[k]))
    decreases |canonical| - i
  {
    if i + 1 < |canonical| {
      assert canonical[i + 1..][1..] == canonical[i + 2..];
      SuccessorFollows(canonical, retained, i + 1);
      if IsRetained(canonical[i + 1], retained) {
        assert Follows(canonical, retained, i, i + 1);
      } else {
        forall k: nat ensures Follows(canonical, retained, i, k) <==> Follows(canonical, retained, i + 1, k) {
          if Follows(canonical, retained, i, k) {
            assert k != i + 1;
          }
        }
      }
    }
  }

  lemma {:induction false} ReplaySucceedsIff(
      canonical: seq<Record>, n: nat, retained: set<Id>, result: seq<Record>, placed: set<Id>)
    requires n <= |canonical| && IdSet(result) == placed + SnipIds(canonical[..n])
    ensures Replay(canonical[n..], retained, result, IdSet(result)).Ok? <==>
            forall i | n <= i < |canonical| :: Placeable(canonical, retained, placed, i)
    decreases |canonical| - n
  {
    if n < |canonical| {
      var boundary := canonical[n];
      assert canonical[n..][1..] == canonical[n + 1..] && canonical[n..][0] == boundary;
      SnipIdsStep(canonical, n);
      SuccessorFollows(canonical, retained, n);
      if !boundary.kind.SnipBoundary? {
        ReplaySucceedsIff(canonical, n + 1, retained, result, placed);
      } else {
        var successor := Successor(canonical[n + 1..], retained);
        var i := if successor.Some? then IndexOf(result, successor.value.id) else -1;
        PlacedNext(canonical, n, retained, result, placed);
        if boundary.id !in IdSet(result) && (successor.None? || i >= 0) {
          var next := Insert(result, if i >= 0 then i else |result|, boundary);
          InsertIds(result, if i >= 0 then i else |result|, boundary);
          ReplaySucceedsIff(canonical, n + 1, retained, next, placed);
        }
      }
    }
  }

  lemma {:induction false} SnipIdsStep(canonical: seq<Record>, n: nat)
    requires n < |canonical|
    ensures SnipIds(canonical[..n + 1]) ==
            SnipIds(canonical[..n]) + if canonical[n].kind.SnipBoundary? then {canonical[n].id} else {}
  {
    assert canonical[..n + 1] == canonical[..n] + [canonical[n]];
  }

  lemma {:induction false} InsertIds(rs: seq<Record>, i: nat, r: Record)
    requires i <= |rs|
    ensures IdSet(Insert(rs, i, r)) == IdSet(rs) + {r.id}
  {
    assert rs == rs[..i] + rs[i..];
    IdsAround(rs[..i], r, rs[i..]);
  }

  lemma {:induction false} IdsAround(a: seq<Record>, r: Record, b: seq<Record>)
    ensures IdSet(a + [r] + b) == IdSet(a + b) + {r.id}
  {
  }

  lemma {:induction false} PlacedNext(
      canonical: seq<Record>, n: nat, retained: set<Id>, result: seq<Record>, placed: set<Id>)
    requires n < |canonical| && canonical[n].kind.SnipBoundary? && IdSet(result) == placed + SnipIds(canonical[..n])
    ensures var successor := Successor(canonical[n + 1..], retained);
            Placeable(canonical, retained, placed, n) <==>
            canonical[n].id !in IdSet(result) && (successor.None? || IndexOf(result, successor.value.id) >= 0)
  {
    SuccessorFollows(canonical, retained, n);
    var successor := Successor(canonical[n + 1..], retained);
    if successor.Some? {
      var i := IndexOf(result, successor.value.id);
      assert i >= 0 ==> result[i] in result;
      assert i >= 0 <==> successor.value.id in IdSet(result);
    }
  }

  /**
   The rebase succeeds if and only if no id of the projection occurs twice, no boundary repeats an id that is placed
   already, and each one's successor among the retained messages is there when the boundary is placed.
   */
  lemma {:induction false} RebaseSucceedsIff(canonical: seq<Record>, projection: seq<Record>, retained: seq<Record>)
    ensures Rebase(canonical, projection, retained).Ok? <==>
            && UniqueIds(projection)
            && forall i | 0 <= i < |canonical| ::
                 Placeable(canonical, GraphIds(retained), IdSet(projection), i)
  {
    FirstDuplicateIff(projection, {});
    assert canonical[0..] == canonical && SnipIds(canonical[..0]) == {};
    ReplaySucceedsIff(canonical, 0, GraphIds(retained), projection, IdSet(projection));
  }

  lemma {:induction false} SuccessorIsThere(canonical: seq<Record>, retained: set<Id>)
    ensures var s := Successor(canonical, retained);
            s.Some? ==> s.value in canonical && IsRetained(s.value, retained)
  {
    if canonical != [] && !IsRetained(canonical[0], retained) {
      SuccessorIsThere(canonical[1..], retained);
    }
  }

  lemma {:induction false} ReplayRefusal(canonical: seq<Record>, retained: set<Id>, result: seq<Record>, seen: set<Id>)
    requires Replay(canonical, retained, result, seen).Err?
    ensures match Replay(canonical, retained, result, seen).error
            case DuplicateRecord(_) => false
            case DuplicateSnip(id) => exists r :: r in canonical && r.kind.SnipBoundary? && r.id == id
            case AbsentSuccessor(id) => exists r :: r in canonical && IsRetained(r, retained) && r.id == id
    decreases |canonical|
  {
    var boundary, rest := canonical[0], canonical[1..];
    assert canonical == [boundary] + rest;
    SuccessorIsThere(rest, retained);
    var successor := Successor(rest, retained);
    if !boundary.kind.SnipBoundary? {
      ReplayRefusal(rest, retained, result, seen);
    } else if boundary.id !in seen && (successor.None? || IndexOf(result, successor.value.id) >= 0) {
      var i := if successor.None? then |result| else IndexOf(result, successor.value.id);
      ReplayRefusal(rest, retained, Insert(result, i, boundary), seen + {boundary.id});
    }
  }

  /** A refusal names an id that occurs twice in the projection, a boundary of the state, or a retained message. */
  lemma {:induction false} RebaseRefusalNames(canonical: seq<Record>, projection: seq<Record>, retained: seq<Record>)
    requires Rebase(canonical, projection, retained).Err?
    ensures match Rebase(canonical, projection, retained).error
            case DuplicateRecord(id) => id in IdSet(projection) && !UniqueIds(projection)
            case DuplicateSnip(id) => UniqueIds(projection) && id in SnipIds(canonical)
            case AbsentSuccessor(id) =>
              UniqueIds(projection) && exists r :: r in canonical && IsRetained(r, GraphIds(retained)) && r.id == id
  {
    FirstDuplicateIff(projection, {});
    FirstDuplicateIsThere(projection, {});
    if UniqueIds(projection) {
      ReplayRefusal(canonical, GraphIds(retained), projection, IdSet(projection));
    }
  }

  lemma {:induction false} FirstDuplicateIsThere(rs: seq<Record>, seen: set<Id>)
    ensures FirstDuplicate(rs, seen).Some? ==> FirstDuplicate(rs, seen).value in IdSet(rs)
  {
    if rs != [] {
      FirstDuplicateIsThere(rs[1..], seen + {rs[0].id});
      assert rs == [rs[0]] + rs[1..];
    }
  }

  lemma {:induction false} FirstDuplicateIff(rs: seq<Record>, seen: set<Id>)
    ensures FirstDuplicate(rs, seen).None? <==> UniqueIds(rs) && IdSet(rs) !! seen
  {
    if rs != [] {
      FirstOfUnique(rs[0], rs[1..]);
      assert [rs[0]] + rs[1..] == rs;
      FirstDuplicateIff(rs[1..], seen + {rs[0].id});
    }
  }

  lemma {:induction false} FirstOfUnique(r: Record, rs: seq<Record>)
    ensures IdSet([r] + rs) == {r.id} + IdSet(rs)
    ensures UniqueIds([r] + rs) <==> UniqueIds(rs) && r.id !in IdSet(rs)
  {
    IdsConcat([r], rs);
    assert IdSet([r]) == {r.id} && UniqueIds([r]);
  }

  // ---- The result is an order-preserving merge ----

  predicate NotSnip(r: Record) {
    !r.kind.SnipBoundary?
  }

  /** The records whose relative order both lists fix: the Snips and the retained graph messages. */
  function Shared(retained: set<Id>): Record -> bool {
    (r: Record) => r.kind.SnipBoundary? || IsRetained(r, retained)
  }

  function Retained(retained: set<Id>): Record -> bool {
    (r: Record) => IsRetained(r, retained)
  }

  /**
   What the planner guarantees: unique ids on both sides, no Snip in the projection and none whose id is
   taken, and the projection's graph messages are the retained ones in canonical order.
   */
  ghost predicate PlannerInput(canonical: seq<Record>, projection: seq<Record>, retained: set<Id>) {
    && UniqueIds(canonical) && UniqueIds(projection)
    && (forall r | r in projection :: !r.kind.SnipBoundary?)
    && (forall r | r in canonical && r.kind.SnipBoundary? :: r.id !in IdSet(projection))
    && Filter(Retained(retained), projection) == Filter(Retained(retained), canonical)
  }

  lemma {:induction false} SuccessorIsHead(canonical: seq<Record>, retained: set<Id>)
    ensures var rest := Filter(Retained(retained), canonical);
            Successor(canonical, retained) == if rest == [] then None else Some(rest[0])
  {
    if canonical != [] {
      SuccessorIsHead(canonical[1..], retained);
    }
  }

  lemma {:induction false} NoDuplicate(rs: seq<Record>, seen: set<Id>)
    requires UniqueIds(rs) && forall r | r in rs :: r.id !in seen
    ensures FirstDuplicate(rs, seen) == None
  {
    if rs != [] {
      UniqueTail(rs);
      NoDuplicate(rs[1..], seen + {rs[0].id});
    }
  }

  lemma {:induction false} UniqueTail(rs: seq<Record>)
    requires rs != [] && UniqueIds(rs)
    ensures UniqueIds(rs[1..]) && forall r | r in rs[1..] :: r.id != rs[0].id
  {
    assert rs == [rs[0]] + rs[1..];
    IdsConcat([rs[0]], rs[1..]);
    assert rs[0] in [rs[0]];
  }

  /** Inserting a fresh record keeps the ids unique. */
  lemma {:induction false} InsertUnique(rs: seq<Record>, i: nat, r: Record)
    requires UniqueIds(rs) && i <= |rs| && r.id !in IdSet(rs)
    ensures UniqueIds(Insert(rs, i, r)) && IdSet(Insert(rs, i, r)) == IdSet(rs) + {r.id}
  {
    var a, b := rs[..i], rs[i..];
    assert rs == a + b;
    IdsConcat(a, b);
    IdsConcat(a, [r]);
    IdsConcat(a + [r], b);
    assert Ids([r]) == [r.id] && IdSet([r]) == {r.id};
  }

  lemma {:induction false} FilterInsert(p: Record -> bool, rs: seq<Record>, i: nat, r: Record)
    requires i <= |rs|
    ensures Filter(p, Insert(rs, i, r)) ==
            Filter(p, rs[..i]) + (if p(r) then [r] else []) + Filter(p, rs[i..])
    ensures Filter(p, rs) == Filter(p, rs[..i]) + Filter(p, rs[i..])
  {
    FilterConcat(p, rs[..i] + [r], rs[i..]);
    FilterConcat(p, rs[..i], [r]);
    FilterConcat(p, rs[..i], rs[i..]);
    assert rs == rs[..i] + rs[i..];
    assert [r][1..] == [];
  }

  /** Where the successor sits splits the shared records exactly between what is done and what is left. */
  lemma {:induction false} SplitAtSuccessor(
      result: seq<Record>, i: nat, retained: set<Id>, done: seq<Record>, left: seq<Record>)
    requires UniqueIds(result) && i < |result|
    requires left != [] && result[i] == left[0] && IsRetained(left[0], retained)
    requires Filter(Shared(retained), result) == done + left
    requires left[0] !in done
    ensures Filter(Shared(retained), result[..i]) == done
    ensures Filter(Shared(retained), result[i..]) == left
  {
    var p, x := Shared(retained), left[0];
    var a, b := result[..i], result[i + 1..];
    assert result == a + [x] + b;
    assert result[i..] == [x] + b;
    FilterAround(p, a, x, b);
    NotBefore(result, i);
    FilterMembers(p, a);
    assert left == [x] + left[1..];
    assert done + left == done + [x] + left[1..];
    SplitAtUnique(Filter(p, a), Filter(p, b), done, left[1..], x);
  }

  lemma {:induction false} FilterAround(p: Record -> bool, a: seq<Record>, x: Record, b: seq<Record>)
    requires p(x)
    ensures Filter(p, a + [x] + b) == Filter(p, a) + [x] + Filter(p, b)
    ensures Filter(p, [x] + b) == [x] + Filter(p, b)
  {
    assert ([x] + b)[1..] == b;
    assert a + [x] + b == a + ([x] + b);
    FilterConcat(p, a, [x] + b);
  }

  lemma {:induction false} NotBefore(rs: seq<Record>, i: nat)
    requires UniqueIds(rs) && i < |rs|
    ensures rs[i] !in rs[..i]
  {
    forall k | 0 <= k < i ensures rs[k] != rs[i] {
      assert Ids(rs)[k] != Ids(rs)[i];
    }
  }

  /** The rest of the canonical list is not placed yet. */
  ghost predicate Ahead(canonical: seq<Record>, done: seq<Record>, result: seq<Record>) {
    forall r | r in canonical :: r !in done && (r.kind.SnipBoundary? ==> r.id !in IdSet(result))
  }

  lemma {:induction false} AheadStep(
      canonical: seq<Record>, done: seq<Record>, result: seq<Record>, result': seq<Record>)
    requires canonical != [] && UniqueIds(canonical) && Ahead(canonical, done, result)
    requires IdSet(result') == IdSet(result) + {canonical[0].id}
    ensures Ahead(canonical[1..], done + [canonical[0]], result')
  {
    UniqueTail(canonical);
    forall r | r in canonical[1..]
      ensures r !in done + [canonical[0]] && (r.kind.SnipBoundary? ==> r.id !in IdSet(result'))
    {
      assert r in canonical;
    }
  }

  /** Everything the loop has established after the canonical prefix that produced `done`. */
  ghost predicate Merged(
      canonical: seq<Record>, projection: seq<Record>, retained: set<Id>, done: seq<Record>, result: seq<Record>)
  {
    && UniqueIds(result)
    && Filter(NotSnip, result) == projection
    && Filter(Shared(retained), result) == done + Filter(Retained(retained), canonical)
    && Ahead(canonical, done, result)
  }

  lemma {:induction false} FilterPrefix(p: Record -> bool, rs: seq<Record>, done: seq<Record>)
    requires rs != []
    ensures done + Filter(p, rs) == (if p(rs[0]) then done + [rs[0]] else done) + Filter(p, rs[1..])
  {
  }

  lemma {:induction false} MergeOther(
      canonical: seq<Record>, projection: seq<Record>, retained: set<Id>, done: seq<Record>, result: seq<Record>)
    requires canonical != [] && !canonical[0].kind.SnipBoundary? && UniqueIds(canonical)
    requires Merged(canonical, projection, retained, done, result)
    ensures var done' := if IsRetained(canonical[0], retained) then done + [canonical[0]] else done;
            Merged(canonical[1..], projection, retained, done', result)
  {
    var head, rest := canonical[0], canonical[1..];
    FilterPrefix(Retained(retained), canonical, done);
    UniqueTail(canonical);
    assert forall r | r in rest :: r in canonical && r != head;
  }

  /** Where a Snip goes: right between the shared records already placed and those still to come. */
  lemma {:induction false} PlaceOfSnip(rest: seq<Record>, retained: set<Id>, done: seq<Record>, result: seq<Record>)
    returns (i: nat)
    requires UniqueIds(result)
    requires Filter(Shared(retained), result) == done + Filter(Retained(retained), rest)
    requires Ahead(rest, done, result)
    ensures i <= |result|
    ensures var successor := Successor(rest, retained);
            && (successor.None? ==> i == |result|)
            && (successor.Some? ==> i == IndexOf(result, successor.value.id) < |result|)
    ensures Filter(Shared(retained), result[..i]) == done
    ensures Filter(Shared(retained), result[i..]) == Filter(Retained(retained), rest)
  {
    var left := Filter(Retained(retained), rest);
    SuccessorIsHead(rest, retained);
    if left == [] {
      i := |result|;
      assert result[..i] == result && result[i..] == [];
    } else {
      FilterMembers(Retained(retained), rest);
      assert left[0] in left;
      FindsSuccessor(result, done, left, retained);
      i := IndexOf(result, left[0].id);
      SplitAtSuccessor(result, i, retained, done, left);
    }
  }

  lemma {:induction false} MergeSnip(
      canonical: seq<Record>, projection: seq<Record>, retained: set<Id>, done: seq<Record>, result: seq<Record>)
    returns (i: nat)
    requires canonical != [] && canonical[0].kind.SnipBoundary? && UniqueIds(canonical)
    requires Merged(canonical, projection, retained, done, result)
    ensures i <= |result|
    ensures var successor := Successor(canonical[1..], retained);
            && (successor.None? ==> i == |result|)
            && (successor.Some? ==> i == IndexOf(result, successor.value.id) < |result|)
    ensures Merged(canonical[1..], projection, retained, done + [canonical[0]], Insert(result, i, canonical[0]))
    ensures IdSet(Insert(result, i, canonical[0])) == IdSet(result) + {canonical[0].id}
  {
    var head, rest := canonical[0], canonical[1..];
    assert Filter(Retained(retained), canonical) == Filter(Retained(retained), rest);
    assert Ahead(rest, done, result) by { assert forall r | r in rest :: r in canonical; }
    i := PlaceOfSnip(rest, retained, done, result);
    var result' := Insert(result, i, head);
    assert head in canonical;
    assert head.id !in IdSet(result);
    InsertUnique(result, i, head);
    InsertedSnip(result, i, head, retained);
    assert (done + [head]) + Filter(Retained(retained), rest) == done + [head] + Filter(Retained(retained), rest);
    AheadStep(canonical, done, result, result');
  }

  lemma {:induction false} InsertedSnip(result: seq<Record>, i: nat, snip: Record, retained: set<Id>)
    requires i <= |result| && snip.kind.SnipBoundary?
    ensures Filter(NotSnip, Insert(result, i, snip)) == Filter(NotSnip, result)
    ensures Filter(Shared(retained), Insert(result, i, snip)) ==
            Filter(Shared(retained), result[..i]) + [snip] + Filter(Shared(retained), result[i..])
  {
    FilterInsert(NotSnip, result, i, snip);
    FilterInsert(Shared(retained), result, i, snip);
  }

  lemma {:induction false} ReplayMerges(
      canonical: seq<Record>, projection: seq<Record>, retained: set<Id>, done: seq<Record>, result: seq<Record>)
    requires UniqueIds(canonical) && Merged(canonical, projection, retained, done, result)
    ensures var r := Replay(canonical, retained, result, IdSet(result));
            && r.Ok?
            && UniqueIds(r.value)
            && Filter(NotSnip, r.value) == projection
            && Filter(Shared(retained), r.value) == done + Filter(Shared(retained), canonical)
    decreases |canonical|
  {
    if canonical != [] {
      var head, rest := canonical[0], canonical[1..];
      UniqueTail(canonical);
      FilterPrefix(Shared(retained), canonical, done);
      if !head.kind.SnipBoundary? {
        MergeOther(canonical, projection, retained, done, result);
        var done' := if IsRetained(head, retained) then done + [head] else done;
        ReplayMerges(rest, projection, retained, done', result);
      } else {
        var i := MergeSnip(canonical, projection, retained, done, result);
        assert head in canonical;
        ReplayMerges(rest, projection, retained, done + [head], Insert(result, i, head));
      }
    }
  }

  lemma {:induction false} FindsSuccessor(result: seq<Record>, done: seq<Record>, left: seq<Record>, retained: set<Id>)
    requires UniqueIds(result) && left != []
    requires Filter(Shared(retained), result) == done + left
    ensures IndexOf(result, left[0].id) >= 0 && result[IndexOf(result, left[0].id)] == left[0]
  {
    FilterMembers(Shared(retained), result);
    assert (done + left)[|done|] == left[0];
    assert left[0] in Filter(Shared(retained), result);
    var k :| 0 <= k < |result| && result[k] == left[0];
    var i := IndexOf(result, left[0].id);
    assert Ids(result)[k] == Ids(result)[i];
  }

  /**
   For every input the planner builds, the rebase succeeds; without its Snips the result is the compact
   projection, and its Snips and retained graph messages are those of the canonical transcript, each exactly
   once and in canonical order.
   */
  lemma {:induction false} RebaseIsMerge(canonical: seq<Record>, projection: seq<Record>, retained: seq<Record>)
    requires PlannerInput(canonical, projection, GraphIds(retained))
    ensures var r := Rebase(canonical, projection, retained);
            && r.Ok?
            && UniqueIds(r.value)
            && Filter(NotSnip, r.value) == projection
            && Filter(Shared(GraphIds(retained)), r.value) == Filter(Shared(GraphIds(retained)), canonical)
  {
    var kept := GraphIds(retained);
    NoDuplicate(projection, {});
    FilterAll(NotSnip, projection);
    FilterAgree(Shared(kept), Retained(kept), projection);
    ReplayMerges(canonical, projection, kept, [], projection);
  }

  lemma {:induction false} SuccessorIsRetained(canonical: seq<Record>, retained: set<Id>)
    requires Successor(canonical, retained).Some?
    ensures IsRetained(Successor(canonical, retained).value, retained)
  {
    if !IsRetained(canonical[0], retained) {
      SuccessorIsRetained(canonical[1..], retained);
    }
  }

  /** A leading record that is no retained message stays in front. */
  lemma {:induction false} RebaseKeepsHead(
      canonical: seq<Record>, retained: set<Id>, result: seq<Record>, seen: set<Id>)
    requires result != [] && result[0].id !in retained
    requires Replay(canonical, retained, result, seen).Ok?
    ensures var r := Replay(canonical, retained, result, seen).value; r != [] && r[0] == result[0]
    decreases |canonical|
  {
    if canonical != [] {
      var boundary, rest := canonical[0], canonical[1..];
      if !boundary.kind.SnipBoundary? {
        RebaseKeepsHead(rest, retained, result, seen);
      } else {
        var successor := Successor(rest, retained);
        if successor.None? {
          RebaseKeepsHead(rest, retained, Insert(result, |result|, boundary), seen + {boundary.id});
        } else {
          SuccessorIsRetained(rest, retained);
          var i := IndexOf(result, successor.value.id);
          RebaseKeepsHead(rest, retained, Insert(result, i, boundary), seen + {boundary.id});
        }
      }
    }
  }
}
