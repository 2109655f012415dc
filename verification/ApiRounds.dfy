/**
 Grouping a conversation into API rounds and truncating it at a round boundary, without ever slicing a tool
 chain.
 */
module ApiRounds {
  import opened Sequences
  import opened Transcript
  import opened ToolProtocol

  function Concat<T>(groups: seq<seq<T>>): seq<T> {
    if groups == [] then [] else groups[0] + Concat(groups[1..])
  }

  lemma {:induction false} ConcatAppend<T>(a: seq<seq<T>>, b: seq<seq<T>>)
    ensures Concat(a + b) == Concat(a) + Concat(b)
  {
    if a == [] {
      assert a + b == b;
    } else {
      assert (a + b)[1..] == a[1..] + b;
      ConcatAppend(a[1..], b);
    }
  }

  /** A round opens at an assistant message that follows a message of another role. */
  predicate OpensRound(ms: seq<Turn>, i: nat)
    requires i < |ms|
  {
    i > 0 && ms[i].role.Assistant? && !ms[i - 1].role.Assistant?
  }

  /** Where group `k` begins. */
  function Offset(groups: seq<seq<Turn>>, k: nat): nat
    requires k <= |groups|
  {
    |Concat(groups[..k])|
  }

  ghost predicate BeginsAtOpening(ms: seq<Turn>, groups: seq<seq<Turn>>, k: nat)
    requires k <= |groups|
  {
    Offset(groups, k) < |ms| && OpensRound(ms, Offset(groups, k))
  }

  ghost predicate OpeningBegins(ms: seq<Turn>, groups: seq<seq<Turn>>, i: nat)
    requires i < |ms|
  {
    OpensRound(ms, i) ==> exists k | 0 < k < |groups| :: i == Offset(groups, k)
  }

  /** The groups are the stretches between consecutive round openings. */
  ghost predicate IsGrouping(ms: seq<Turn>, groups: seq<seq<Turn>>) {
    && Concat(groups) == ms
    && (forall g | g in groups :: g != [])
    && (forall k | 0 < k < |groups| :: BeginsAtOpening(ms, groups, k))
    && (forall i | 0 <= i < |ms| :: OpeningBegins(ms, groups, i))
  }

  lemma {:induction false} AppendConcat(groups: seq<seq<Turn>>, g: seq<Turn>)
    ensures Concat(groups + [g]) == Concat(groups) + g
  {
    ConcatAppend(groups, [g]);
    assert [g][1..] == [];
    assert Concat([g]) == g;
  }

  /** Openings of a prefix stay where they are when a message is added and the groups up to there are kept. */
  lemma {:induction false} KeepsOpenings(
      ms: seq<Turn>, m: Turn, groups: seq<seq<Turn>>, groups': seq<seq<Turn>>, n: nat)
    requires IsGrouping(ms, groups) && n <= |groups| && n <= |groups'| && groups[..n] == groups'[..n]
    ensures forall k | 0 < k <= n && k < |groups| :: BeginsAtOpening(ms + [m], groups', k)
    ensures n + 1 >= |groups| && |groups'| >= |groups| ==> forall i | 0 <= i < |ms| :: OpeningBegins(ms + [m], groups', i)
  {
    forall k | 0 <= k <= n ensures Offset(groups', k) == Offset(groups, k) {
      assert groups'[..k] == groups[..n][..k] == groups[..k];
    }
    forall k | 0 < k <= n && k < |groups| ensures BeginsAtOpening(ms + [m], groups', k) {
      assert BeginsAtOpening(ms, groups, k);
    }
    if n + 1 >= |groups| && |groups'| >= |groups| {
      forall i | 0 <= i < |ms| ensures OpeningBegins(ms + [m], groups', i) {
        assert OpeningBegins(ms, groups, i);
      }
    }
  }

  lemma {:induction false} StartNewGroup(ms: seq<Turn>, groups: seq<seq<Turn>>, m: Turn)
    requires IsGrouping(ms, groups) && ms != []
    requires OpensRound(ms + [m], |ms|)
    ensures IsGrouping(ms + [m], groups + [[m]])
  {
    var groups' := groups + [[m]];
    AppendConcat(groups, [m]);
    assert groups[..|groups|] == groups'[..|groups|] == groups;
    KeepsOpenings(ms, m, groups, groups', |groups|);
    assert Offset(groups', |groups|) == |ms|;
    assert groups != [];
  }

  lemma {:induction false} ExtendLastGroup(ms: seq<Turn>, groups: seq<seq<Turn>>, m: Turn)
    requires IsGrouping(ms, groups) && groups != []
    requires !OpensRound(ms + [m], |ms|)
    ensures IsGrouping(ms + [m], groups[..|groups| - 1] + [groups[|groups| - 1] + [m]])
  {
    var n := |groups| - 1;
    var init, last := groups[..n], groups[n];
    var groups' := init + [last + [m]];
    assert groups == init + [last] && groups'[..n] == init;
    AppendConcat(init, last);
    AppendConcat(init, last + [m]);
    KeepsOpenings(ms, m, groups, groups', n);
    forall i | 0 <= i < |ms| + 1 ensures OpeningBegins(ms + [m], groups', i) {
      assert i == |ms| ==> !OpensRound(ms + [m], i);
    }
    forall g | g in groups' ensures g != [] {
      assert g in groups || g == last + [m];
    }
  }

  method GroupMessagesByApiRound(messages: seq<Turn>) returns (groups: seq<seq<Turn>>)
    ensures IsGrouping(messages, groups)
  {
    if messages == [] { return []; }
    groups := [];
    var current: seq<Turn> := [];
    var lastRole: Option<Role> := None;
    for i := 0 to |messages|
      invariant i == 0 ==> groups == [] && current == [] && lastRole == None
      invariant i > 0 ==> current != [] && lastRole == Some(messages[i - 1].role)
      invariant i > 0 ==> IsGrouping(messages[..i], groups + [current])
    {
      var message := messages[i];
      ghost var before := messages[..i];
      assert messages[..i + 1] == before + [message];
      if message.role == Assistant && lastRole.Some? && lastRole.value != Assistant && current != [] {
        StartNewGroup(before, groups + [current], message);
        groups := groups + [current];
        current := [message];
      } else {
        if i > 0 {
          ExtendLastGroup(before, groups + [current], message);
          assert (groups + [current])[..|groups|] == groups;
        } else {
          assert [[message]][1..] == [];
          assert Concat([[message]]) == [message];
        }
        current := current + [message];
      }
      lastRole := Some(message.role);
    }
    assert messages[..|messages|] == messages;
    if current != [] {
      groups := groups + [current];
    }
  }

  // ---- Rounds and the tool protocol ----

  /** When an accepted conversation reaches an assistant message, nothing before it is still open. */
  lemma {:induction false} SettledBeforeAssistant(a: seq<Turn>, b: seq<Turn>)
    requires Accepts(a + b) && b != [] && b[0].role.Assistant?
    ensures NotSevered(Events(a), Events(b))
  {
    EventsConcat(a, b);
    var ea, eb := Events(a), Events(b);
    RunMeaning(ea + eb);
    assert eb[0] == AssistantTurn;
    assert (ea + eb)[|ea|] == AssistantTurn && (ea + eb)[..|ea|] == ea;
    forall i, j | 0 <= i < |ea| && 0 <= j < |eb| && ea[i].Answer? && eb[j].Answer? ensures ea[i].id != eb[j].id {
      assert (ea + eb)[i] == ea[i] && (ea + eb)[|ea| + j] == eb[j];
    }
  }

  /** In an accepted conversation every round, and every suffix that starts at a round, is accepted alone. */
  lemma {:induction false} RoundsAreAccepted(ms: seq<Turn>, groups: seq<seq<Turn>>, k: nat)
    requires Accepts(ms) && IsGrouping(ms, groups) && k < |groups|
    ensures Accepts(groups[k])
    ensures Accepts(Concat(groups[k..]))
  {
    SuffixAccepted(ms, groups, k);
    var tail := Concat(groups[k + 1..]);
    assert groups[k..][1..] == groups[k + 1..];
    assert Concat(groups[k..]) == groups[k] + tail;
    if k + 1 < |groups| {
      HeadIsAssistant(ms, groups, k + 1);
      SettledBeforeAssistant(groups[k], tail);
      EventsConcat(groups[k], tail);
      CutPreserves(Events(groups[k]), Events(tail));
    } else {
      assert groups[k] + tail == groups[k];
    }
  }

  lemma {:induction false} HeadIsAssistant(ms: seq<Turn>, groups: seq<seq<Turn>>, k: nat)
    requires IsGrouping(ms, groups) && 0 < k < |groups|
    ensures Concat(groups[k..]) != [] && Concat(groups[k..])[0].role.Assistant?
    ensures ms == Concat(groups[..k]) + Concat(groups[k..])
  {
    ConcatAppend(groups[..k], groups[k..]);
    assert groups == groups[..k] + groups[k..];
    assert BeginsAtOpening(ms, groups, k);
    assert ms[Offset(groups, k)] == Concat(groups[k..])[0];
  }

  lemma {:induction false} SuffixAccepted(ms: seq<Turn>, groups: seq<seq<Turn>>, k: nat)
    requires Accepts(ms) && IsGrouping(ms, groups) && k < |groups|
    ensures Accepts(Concat(groups[k..]))
  {
    if k > 0 {
      var a, b := Concat(groups[..k]), Concat(groups[k..]);
      HeadIsAssistant(ms, groups, k);
      SettledBeforeAssistant(a, b);
      EventsConcat(a, b);
      CutPreserves(Events(a), Events(b));
    } else {
      assert groups[0..] == groups;
    }
  }

  // ---- Round-aligned truncation ----

  function Total(count: seq<Turn> -> nat, groups: seq<seq<Turn>>): nat {
    if groups == [] then 0 else count(groups[0]) + Total(count, groups[1..])
  }

  /**
   Keeping the groups from `k` on: they fit the target unless only the last group is kept, and keeping one
   group more would not fit.
   */
  ghost predicate BestSuffix(groups: seq<seq<Turn>>, target: int, count: seq<Turn> -> nat, k: nat) {
    && k < |groups|
    && (Total(count, groups[k..]) <= target || k == |groups| - 1)
    && (k > 0 ==> Total(count, groups[k - 1..]) > target)
  }

  lemma {:induction false} PrefixStep(groups: seq<seq<Turn>>, i: nat)
    requires i < |groups|
    ensures Concat(groups[..i + 1]) == Concat(groups[..i]) + groups[i]
    ensures Concat(groups[..i]) + Concat(groups[i..]) == Concat(groups)
  {
    assert groups[..i + 1] == groups[..i] + [groups[i]];
    ConcatAppend(groups[..i], [groups[i]]);
    assert [groups[i]][1..] == [];
    assert Concat([groups[i]]) == groups[i];
    ConcatAppend(groups[..i], groups[i..]);
    assert groups == groups[..i] + groups[i..];
  }

  /** Walks back from the last round and returns the first group that is kept. */
  method FirstKeptGroup(groups: seq<seq<Turn>>, target: int, count: seq<Turn> -> nat) returns (first: nat)
    requires |groups| > 1
    ensures BestSuffix(groups, target, count, first)
  {
    var running := 0;
    first := |groups|;
    var g := |groups| - 1;
    while g >= 0
      invariant -1 <= g < |groups| && first == g + 1
      invariant running == Total(count, groups[first..])
      invariant first >= |groups| - 1 || running <= target
    {
      var tokens := count(groups[g]);
      assert groups[g..] == [groups[g]] + groups[g + 1..];
      if g < |groups| - 1 && running + tokens > target { break; }
      running := running + tokens;
      first := g;
      g := g - 1;
    }
  }

  method FindRoundAlignedTruncationIndex(messages: seq<Turn>, target: int, count: seq<Turn> -> nat)
    returns (start: nat, ghost groups: seq<seq<Turn>>, ghost kept: nat)
    ensures IsGrouping(messages, groups)
    ensures start <= |messages| && (start > 0 ==> start < |messages| && OpensRound(messages, start))
    ensures |groups| <= 1 ==> start == 0
    ensures |groups| > 1 ==> BestSuffix(groups, target, count, kept)
    ensures |groups| > 1 ==> start == Offset(groups, kept) <= |messages| && messages[start..] == Concat(groups[kept..])
  {
    if messages == [] { return 0, [], 0; }
    var gs := GroupMessagesByApiRound(messages);
    if |gs| <= 1 { return 0, gs, 0; }
    var first := FirstKeptGroup(gs, target, count);
    // The last group is always kept, so the source's branch for "nothing fits" is never taken.
    assert first < |gs|;
    start := 0;
    for i := 0 to first
      invariant start == |Concat(gs[..i])|
    {
      PrefixStep(gs, i);
      start := start + |gs[i]|;
    }
    PrefixStep(gs, first);
    groups, kept := gs, first;
    if first > 0 {
      assert BeginsAtOpening(messages, gs, first);
    }
  }

  /** What the truncation keeps of an accepted conversation is accepted. */
  lemma {:induction false} TruncationKeepsToolPairs(
      ms: seq<Turn>, groups: seq<seq<Turn>>, target: int, count: seq<Turn> -> nat, k: nat)
    requires Accepts(ms) && IsGrouping(ms, groups) && BestSuffix(groups, target, count, k)
    ensures Offset(groups, k) <= |ms| && Accepts(ms[Offset(groups, k)..])
    ensures forall k': nat | BestSuffix(groups, target, count, k') :: k' == k
  {
    SuffixAccepted(ms, groups, k);
    ConcatAppend(groups[..k], groups[k..]);
    assert groups == groups[..k] + groups[k..];
    assert ms[|Concat(groups[..k])|..] == Concat(groups[k..]);
    forall k': nat | BestSuffix(groups, target, count, k') ensures k' == k {
      if k' < k {
        TotalGrows(count, groups, k', k - 1);
      } else if k < k' {
        TotalGrows(count, groups, k, k' - 1);
      }
    }
  }

  lemma {:induction false} TotalGrows(count: seq<Turn> -> nat, groups: seq<seq<Turn>>, i: nat, j: nat)
    requires i <= j <= |groups|
    ensures Total(count, groups[j..]) <= Total(count, groups[i..])
    decreases j - i
  {
    if i < j {
      assert groups[i..][1..] == groups[i + 1..];
      TotalGrows(count, groups, i + 1, j);
    }
  }
}
