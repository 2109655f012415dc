/**
 The mutation queue of a projection owner: a promise chain that runs one operation at a time. A queue entry is
 a ticket that waits for the ticket before it; the entry of an owner is dropped when its last ticket is done.
 */
module MutationPipeline {
  import opened Sequences

  type Key = string

  datatype Phase = Queued | Running | Finished | Rejected

  /** `previous` is the promise found in the map when the operation was enqueued. */
  datatype Ticket = Ticket(owner: Key, previous: Option<nat>, phase: Phase, scopeActive: bool) {
    predicate Released() {
      phase.Finished? || phase.Rejected?
    }
  }

  datatype Pipeline = Pipeline(tickets: seq<Ticket>, queues: map<Key, nat>, aborted: set<nat>)

  const IDLE := Pipeline([], map[], {})

  datatype Action = Enqueue(owner: Key) | Abort(ticket: nat) | Wake(ticket: nat) | Complete(ticket: nat)

  /** Tickets only ever point back. */
  predicate Linked(tickets: seq<Ticket>) {
    forall t | 0 <= t < |tickets| :: tickets[t].previous.Some? ==> tickets[t].previous.value < t
  }

  /** The queued promise of a ticket is settled once the ticket is released and the promise before it is settled. */
  predicate Settled(tickets: seq<Ticket>, t: nat)
    requires Linked(tickets) && t < |tickets|
  {
    tickets[t].Released() && (tickets[t].previous.None? || Settled(tickets, tickets[t].previous.value))
  }

  predicate MayWake(s: Pipeline, t: nat) {
    && Linked(s.tickets) && t < |s.tickets| && s.tickets[t].phase.Queued?
    && (s.tickets[t].previous.None? || Settled(s.tickets, s.tickets[t].previous.value))
  }

  predicate Enabled(s: Pipeline, a: Action) {
    match a
    case Enqueue(_) => true
    case Abort(t) => t < |s.tickets|
    case Wake(t) => MayWake(s, t)
    case Complete(t) => t < |s.tickets| && s.tickets[t].phase.Running?
  }

  /** Releases a ticket and drops the owner's entry if nothing was enqueued behind it. */
  function Release(s: Pipeline, t: nat, phase: Phase): Pipeline
    requires t < |s.tickets|
  {
    var owner := s.tickets[t].owner;
    Pipeline(s.tickets[t := s.tickets[t].(phase := phase, scopeActive := false)],
             if owner in s.queues && s.queues[owner] == t then s.queues - {owner} else s.queues,
             s.aborted)
  }

  function Act(s: Pipeline, a: Action): Pipeline
    requires Enabled(s, a)
  {
    match a
    case Enqueue(owner) =>
      var previous := if owner in s.queues then Some(s.queues[owner]) else None;
      Pipeline(s.tickets + [Ticket(owner, previous, Queued, false)], s.queues[owner := |s.tickets|], s.aborted)
    case Abort(t) => s.(aborted := s.aborted + {t})
    case Wake(t) =>
      if t in s.aborted then Release(s, t, Rejected)
      else s.(tickets := s.tickets[t := s.tickets[t].(phase := Running, scopeActive := true)])
    case Complete(t) => Release(s, t, Finished)
  }

  /** A write guard: the scope that a callback carries must be live and belong to this owner. */
  predicate MayMutate(s: Pipeline, scope: Option<nat>, owner: Key) {
    && scope.Some? && scope.value < |s.tickets|
    && s.tickets[scope.value].scopeActive && s.tickets[scope.value].owner == owner
  }

  // ---- The queue, step by step ----

  class ContextPipeline {
    var tickets: seq<Ticket>
    var mutationQueues: map<Key, nat>
    var aborted: set<nat>

    ghost function View(): Pipeline
      reads this
    {
      Pipeline(tickets, mutationQueues, aborted)
    }

    constructor ()
      ensures View() == IDLE
    {
      tickets, mutationQueues, aborted := [], map[], {};
    }

    method EnqueueMutation(owner: Key) returns (current: nat)
      modifies this
      ensures View() == Act(old(View()), Enqueue(owner)) && current == |old(tickets)|
    {
      var previous := None;
      if owner in mutationQueues {
        previous := Some(mutationQueues[owner]);
      }
      current := |tickets|;
      tickets := tickets + [Ticket(owner, previous, Queued, false)];
      mutationQueues := mutationQueues[owner := current];
    }

    method AbortSignal(t: nat)
      requires t < |tickets|
      modifies this
      ensures View() == Act(old(View()), Abort(t))
    {
      aborted := aborted + {t};
    }

    /** The code behind the await on the previous promise. */
    method Resume(t: nat) returns (started: bool)
      requires Enabled(View(), Wake(t))
      modifies this
      ensures View() == Act(old(View()), Wake(t)) && started == (t !in aborted)
    {
      if t in aborted {
        ReleaseTicket(t, Rejected);
        return false;
      }
      tickets := tickets[t := tickets[t].(phase := Running, scopeActive := true)];
      started := true;
    }

    /** The operation returned or threw: both end in the same `finally` blocks. */
    method FinishMutation(t: nat)
      requires Enabled(View(), Complete(t))
      modifies this
      ensures View() == Act(old(View()), Complete(t))
    {
      ReleaseTicket(t, Finished);
    }

    method ReleaseTicket(t: nat, phase: Phase)
      requires t < |tickets|
      modifies this
      ensures View() == Release(old(View()), t, phase)
    {
      var owner := tickets[t].owner;
      tickets := tickets[t := tickets[t].(scopeActive := false)];
      tickets := tickets[t := tickets[t].(phase := phase)];
      if owner in mutationQueues && mutationQueues[owner] == t {
        mutationQueues := mutationQueues - {owner};
      }
    }

    method AssertMutationOwner(scope: Option<nat>, owner: Key) returns (allowed: bool)
      ensures allowed == MayMutate(View(), scope, owner)
    {
      allowed := scope.Some? && scope.value < |tickets| && tickets[scope.value].scopeActive
                 && tickets[scope.value].owner == owner;
    }
  }

  // ---- What every schedule keeps ----

  predicate SameOwner(s: Pipeline, i: nat, t: nat) {
    i < |s.tickets| && t < |s.tickets| && s.tickets[i].owner == s.tickets[t].owner
  }

  /** A ticket points at the latest earlier ticket of its owner, or all earlier ones were done at its time. */
  ghost predicate LinksBack(s: Pipeline, t: nat)
    requires t < |s.tickets|
  {
    match s.tickets[t].previous
    case Some(p) => p < t && SameOwner(s, p, t) && forall i: nat | p < i < t :: !SameOwner(s, i, t)
    case None => forall i: nat | i < t && SameOwner(s, i, t) :: s.tickets[i].Released()
  }

  /** A ticket that left the queue has only done tickets of its owner before it; only running scopes are live. */
  ghost predicate InTurn(s: Pipeline, t: nat)
    requires t < |s.tickets|
  {
    && (!s.tickets[t].phase.Queued? ==> forall i: nat | i < t && SameOwner(s, i, t) :: s.tickets[i].Released())
    && (s.tickets[t].scopeActive <==> s.tickets[t].phase.Running?)
  }

  /** The entry of an owner is its last ticket, which is not done. */
  ghost predicate EntryIsLast(s: Pipeline, owner: Key)
    requires owner in s.queues
  {
    var last := s.queues[owner];
    && last < |s.tickets| && s.tickets[last].owner == owner && !s.tickets[last].Released()
    && forall i: nat | last < i < |s.tickets| :: s.tickets[i].owner != owner
  }

  ghost predicate Orderly(s: Pipeline) {
    && (forall t: nat | t < |s.tickets| :: LinksBack(s, t) && InTurn(s, t))
    && (forall owner | owner in s.queues :: EntryIsLast(s, owner))
    && (forall t: nat | t < |s.tickets| && s.tickets[t].owner !in s.queues :: s.tickets[t].Released())
  }

  lemma {:induction false} OrderlyIsLinked(s: Pipeline)
    requires Orderly(s)
    ensures Linked(s.tickets)
  {
    forall t: nat | t < |s.tickets| ensures s.tickets[t].previous.Some? ==> s.tickets[t].previous.value < t {
      assert LinksBack(s, t);
    }
  }

  /** A settled promise means that every ticket of the owner up to it is done. */
  lemma {:induction false} SettledMeansDone(s: Pipeline, t: nat)
    requires Orderly(s) && Linked(s.tickets) && t < |s.tickets|
    ensures Settled(s.tickets, t) <==> forall i: nat | i <= t && SameOwner(s, i, t) :: s.tickets[i].Released()
  {
    assert LinksBack(s, t) && InTurn(s, t);
    if s.tickets[t].previous.Some? {
      SettledMeansDone(s, s.tickets[t].previous.value);
    }
  }

  lemma {:induction false} WakeInTurn(s: Pipeline, t: nat)
    requires Orderly(s) && MayWake(s, t)
    ensures forall i: nat | i < t && SameOwner(s, i, t) :: s.tickets[i].Released()
  {
    assert LinksBack(s, t);
    if s.tickets[t].previous.Some? {
      SettledMeansDone(s, s.tickets[t].previous.value);
    }
  }

  /** A step that changes one ticket forward leaves every link and turn in order. */
  lemma {:induction false} AdvanceKeepsTurns(s: Pipeline, s': Pipeline, t: nat)
    requires Orderly(s) && t < |s.tickets| == |s'.tickets|
    requires forall i: nat | i < |s.tickets| && i != t :: s'.tickets[i] == s.tickets[i]
    requires s'.tickets[t].owner == s.tickets[t].owner && s'.tickets[t].previous == s.tickets[t].previous
    requires !s.tickets[t].Released() && !s'.tickets[t].phase.Queued?
    requires s'.tickets[t].scopeActive <==> s'.tickets[t].phase.Running?
    requires forall i: nat | i < t && SameOwner(s, i, t) :: s.tickets[i].Released()
    ensures forall i: nat | i < |s'.tickets| :: LinksBack(s', i) && InTurn(s', i)
  {
    forall i: nat | i < |s'.tickets| ensures LinksBack(s', i) && InTurn(s', i) {
      assert LinksBack(s, i) && InTurn(s, i);
      assert forall k: nat | k < |s.tickets| :: SameOwner(s', k, i) == SameOwner(s, k, i);
    }
  }

  lemma {:induction false} EnqueueKeepsTurns(s: Pipeline, owner: Key)
    requires Orderly(s)
    ensures var s' := Act(s, Enqueue(owner));
            forall i: nat | i < |s'.tickets| :: LinksBack(s', i) && InTurn(s', i)
  {
    var s' := Act(s, Enqueue(owner));
    forall i: nat | i < |s'.tickets| ensures LinksBack(s', i) && InTurn(s', i) {
      if i < |s.tickets| {
        assert LinksBack(s, i) && InTurn(s, i);
        assert forall k: nat | k <= i :: SameOwner(s', k, i) == SameOwner(s, k, i);
      } else if owner in s.queues {
        assert EntryIsLast(s, owner);
      }
    }
  }

  lemma {:induction false} ReleaseOrderly(s: Pipeline, t: nat, phase: Phase)
    requires Orderly(s) && t < |s.tickets| && !s.tickets[t].Released()
    requires phase.Finished? || phase.Rejected?
    requires forall i: nat | i < t && SameOwner(s, i, t) :: s.tickets[i].Released()
    ensures Orderly(Release(s, t, phase))
  {
    var s', owner := Release(s, t, phase), s.tickets[t].owner;
    AdvanceKeepsTurns(s, s', t);
    assert owner in s.queues && EntryIsLast(s, owner);
    forall o | o in s'.queues ensures EntryIsLast(s', o) {
      assert EntryIsLast(s, o);
    }
    forall i: nat | i < |s'.tickets| && s'.tickets[i].owner !in s'.queues ensures s'.tickets[i].Released() {
      if s.tickets[i].owner == owner && i != t {
        assert i < t ==> SameOwner(s, i, t);
      }
    }
  }

  lemma {:induction false} StartOrderly(s: Pipeline, t: nat)
    requires Orderly(s) && MayWake(s, t) && t !in s.aborted
    ensures Orderly(Act(s, Wake(t)))
  {
    var s' := Act(s, Wake(t));
    WakeInTurn(s, t);
    AdvanceKeepsTurns(s, s', t);
    forall o | o in s'.queues ensures EntryIsLast(s', o) {
      assert EntryIsLast(s, o);
    }
  }

  lemma {:induction false} EnqueueOrderly(s: Pipeline, owner: Key)
    requires Orderly(s)
    ensures Orderly(Act(s, Enqueue(owner)))
  {
    var s' := Act(s, Enqueue(owner));
    EnqueueKeepsTurns(s, owner);
    forall o | o in s'.queues ensures EntryIsLast(s', o) {
      if o != owner {
        assert EntryIsLast(s, o);
      }
    }
  }

  lemma {:induction false} ActOrderly(s: Pipeline, a: Action)
    requires Orderly(s) && Enabled(s, a)
    ensures Orderly(Act(s, a))
  {
    match a {
      case Enqueue(owner) => EnqueueOrderly(s, owner);
      case Abort(t) => AbortOrderly(s, t);
      case Wake(t) =>
        WakeInTurn(s, t);
        if t in s.aborted { ReleaseOrderly(s, t, Rejected); } else { StartOrderly(s, t); }
      case Complete(t) =>
        assert InTurn(s, t);
        ReleaseOrderly(s, t, Finished);
    }
  }

  lemma {:induction false} AbortOrderly(s: Pipeline, t: nat)
    requires Orderly(s) && t < |s.tickets|
    ensures Orderly(Act(s, Abort(t)))
  {
    var s' := Act(s, Abort(t));
    forall i: nat | i < |s'.tickets| ensures LinksBack(s', i) && InTurn(s', i) {
      assert LinksBack(s, i) && InTurn(s, i);
      assert forall k: nat | k < |s.tickets| :: SameOwner(s', k, i) == SameOwner(s, k, i);
    }
    forall o | o in s'.queues ensures EntryIsLast(s', o) { assert EntryIsLast(s, o); }
  }

  // ---- Every schedule ----

  ghost predicate IsSchedule(ss: seq<Pipeline>, actions: seq<Action>) {
    && |ss| == |actions| + 1 && ss[0] == IDLE
    && forall i | 0 <= i < |actions| :: Enabled(ss[i], actions[i]) && ss[i + 1] == Act(ss[i], actions[i])
  }

  lemma {:induction false} ScheduleOrderly(ss: seq<Pipeline>, actions: seq<Action>, k: nat)
    requires IsSchedule(ss, actions) && k <= |actions|
    ensures Orderly(ss[k])
  {
    if k > 0 {
      ScheduleOrderly(ss, actions, k - 1);
      ActOrderly(ss[k - 1], actions[k - 1]);
    }
  }

  /**
   Per owner at most one operation runs and at most one scope is live; an operation starts, and ends, only after
   all that were enqueued before it are done; and the map holds an owner if and only if one of its operations
   is queued or running.
   */
  lemma {:induction false} OneAtATimeInOrder(ss: seq<Pipeline>, actions: seq<Action>, k: nat)
    requires IsSchedule(ss, actions) && k <= |actions|
    ensures forall i: nat, t: nat | i < t && SameOwner(ss[k], i, t) ::
              !ss[k].tickets[t].phase.Queued? ==> ss[k].tickets[i].Released()
    ensures forall i: nat, t: nat | SameOwner(ss[k], i, t) && ss[k].tickets[i].scopeActive && ss[k].tickets[t].scopeActive
              :: i == t
    ensures forall owner ::
              owner in ss[k].queues <==>
              exists t: nat | t < |ss[k].tickets| :: ss[k].tickets[t].owner == owner && !ss[k].tickets[t].Released()
  {
    ScheduleOrderly(ss, actions, k);
    var s := ss[k];
    forall i: nat, t: nat | i < t && SameOwner(s, i, t)
      ensures !s.tickets[t].phase.Queued? ==> s.tickets[i].Released()
    {
      assert InTurn(s, t);
    }
    forall i: nat, t: nat | SameOwner(s, i, t) && s.tickets[i].scopeActive && s.tickets[t].scopeActive ensures i == t {
      assert InTurn(s, t) && InTurn(s, i);
    }
    forall owner | owner in s.queues
      ensures exists t: nat | t < |s.tickets| :: s.tickets[t].owner == owner && !s.tickets[t].Released()
    {
      assert EntryIsLast(s, owner);
    }
  }

  /** Once a ticket has been released it stays as it is, whatever happens. */
  lemma {:induction false} ReleasedForGood(ss: seq<Pipeline>, actions: seq<Action>, j: nat, k: nat, t: nat)
    requires IsSchedule(ss, actions) && j <= k <= |actions|
    requires t < |ss[j].tickets| && ss[j].tickets[t].Released()
    ensures t < |ss[k].tickets| && ss[k].tickets[t] == ss[j].tickets[t]
    decreases k
  {
    if j < k {
      ReleasedForGood(ss, actions, j, k - 1, t);
      assert Enabled(ss[k - 1], actions[k - 1]);
    }
  }

  /** A callback that outlives its operation never passes the write guard again, for any owner. */
  lemma {:induction false} ExpiredScopeFails(
      ss: seq<Pipeline>, actions: seq<Action>, j: nat, k: nat, t: nat, owner: Key)
    requires IsSchedule(ss, actions) && j < k <= |actions| && actions[j] == Complete(t)
    ensures !MayMutate(ss[k], Some(t), owner)
  {
    assert Enabled(ss[j], actions[j]);
    ReleasedForGood(ss, actions, j + 1, k, t);
  }

  /** The guard lets exactly the running operation of the owner through. */
  lemma {:induction false} GuardIsExact(ss: seq<Pipeline>, actions: seq<Action>, k: nat, t: nat, owner: Key)
    requires IsSchedule(ss, actions) && k <= |actions|
    ensures MayMutate(ss[k], Some(t), owner) <==>
            t < |ss[k].tickets| && ss[k].tickets[t].phase.Running? && ss[k].tickets[t].owner == owner
  {
    ScheduleOrderly(ss, actions, k);
    if t < |ss[k].tickets| {
      assert InTurn(ss[k], t);
    }
  }

  /** An operation whose signal was aborted while it was queued never starts. */
  lemma {:induction false} AbortedNeverStarts(ss: seq<Pipeline>, actions: seq<Action>, j: nat, k: nat, t: nat)
    requires IsSchedule(ss, actions) && j <= k <= |actions|
    requires t < |ss[j].tickets| && ss[j].tickets[t].phase.Queued? && t in ss[j].aborted
    ensures t < |ss[k].tickets| && t in ss[k].aborted
    ensures ss[k].tickets[t].phase.Queued? || ss[k].tickets[t].phase.Rejected?
    decreases k
  {
    if j < k {
      AbortedNeverStarts(ss, actions, j, k - 1, t);
      assert Enabled(ss[k - 1], actions[k - 1]);
    }
  }

  /** An operation is given up only if its signal was aborted, and no other is ever done without having run. */
  lemma {:induction false} DoneHasRun(ss: seq<Pipeline>, actions: seq<Action>, k: nat, t: nat)
    requires IsSchedule(ss, actions) && k <= |actions| && t < |ss[k].tickets| && ss[k].tickets[t].Released()
    ensures ss[k].tickets[t].phase.Rejected? ==> t in ss[k].aborted
    ensures ss[k].tickets[t].phase.Finished? ==>
              exists j: nat :: j < k && t < |ss[j].tickets| && ss[j].tickets[t].phase.Running?
    decreases k
  {
    if k > 0 {
      assert Enabled(ss[k - 1], actions[k - 1]);
      if t < |ss[k - 1].tickets| && ss[k - 1].tickets[t].Released() {
        DoneHasRun(ss, actions, k - 1, t);
      }
    }
  }

  // ---- Progress ----

  /** What is still to be done: a queued operation has two steps ahead of it, a running one has one. */
  function Ahead(tickets: seq<Ticket>): nat {
    if tickets == [] then 0
    else
      var t := tickets[|tickets| - 1];
      Ahead(tickets[..|tickets| - 1]) + if t.phase.Queued? then 2 else if t.phase.Running? then 1 else 0
  }

  /** While any operation of an owner is not done, the first such one can take a step. */
  lemma {:induction false} SomeoneCanMove(s: Pipeline, t: nat) returns (a: Action)
    requires Orderly(s) && t < |s.tickets| && !s.tickets[t].Released()
    ensures (a.Wake? || a.Complete?) && Enabled(s, a) && a.ticket <= t && SameOwner(s, a.ticket, t)
    decreases t
  {
    OrderlyIsLinked(s);
    assert LinksBack(s, t);
    if i: nat :| i < t && SameOwner(s, i, t) && !s.tickets[i].Released() {
      a := SomeoneCanMove(s, i);
    } else if s.tickets[t].phase.Running? {
      a := Complete(t);
    } else {
      if s.tickets[t].previous.Some? {
        SettledMeansDone(s, s.tickets[t].previous.value);
      }
      a := Wake(t);
    }
  }

  lemma {:induction false} AheadUpdate(tickets: seq<Ticket>, t: nat, x: Ticket)
    requires t < |tickets|
    requires || (tickets[t].phase.Queued? && !x.phase.Queued?)
             || (tickets[t].phase.Running? && (x.phase.Finished? || x.phase.Rejected?))
    ensures Ahead(tickets[t := x]) < Ahead(tickets)
  {
    var n := |tickets| - 1;
    if t == n {
      assert tickets[t := x][..n] == tickets[..n];
    } else {
      assert tickets[t := x][..n] == tickets[..n][t := x];
      AheadUpdate(tickets[..n], t, x);
    }
  }

  /** Each such step brings the queue closer to empty, so without new work it drains. */
  lemma {:induction false} StepsDrain(s: Pipeline, a: Action)
    requires (a.Wake? || a.Complete?) && Enabled(s, a)
    ensures Ahead(Act(s, a).tickets) < Ahead(s.tickets)
  {
    var t := a.ticket;
    AheadUpdate(s.tickets, t, Act(s, a).tickets[t]);
  }
}
