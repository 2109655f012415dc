/**
 Whole runs of a conversation. Appending, snipping and compacting rewrite the transcript; a plain list with a
 log of commits tells what every projection of it must show.
 */
module ContextRuns {
  import opened Sequences
  import opened Identifiers
  import opened Transcript
  import opened ToolProtocol
  import opened RoundCut
  import opened ProviderMessage
  import opened ClaudeProjector
  import opened Compaction
  import opened CompactionInstall
  import opened CompactionOutcome

  /** One step; a compaction carries the cut its pivot was moved to and the options its plan was projected with. */
  datatype Op =
    | Append(record: Record)
    | Snip(id: Id, removed: seq<Id>)
    | Compact(mode: Mode, pivotId: Option<Id>, cut: nat, commitId: Id, summary: string, extras: Extras,
              options: Options)

  // ---- The transcript's own steps ----

  function SnipRecord(id: Id, removed: seq<Id>): Record {
    Record(id, User, SnipBoundary(removed), Text("Context snipped", []), None, None, None, false)
  }

  function Compacted(c: Context, candidate: Option<Candidate>, summary: string, extras: Extras, o: Options): Context {
    if candidate.None? || candidate.value.archived == [] then c
    else
      match BuildPlan(c, candidate.value, summary, extras, o)
      case Err(_) => c
      case Ok(plan) => Install(plan)
  }

  ghost predicate Next(c: Context, op: Op, c': Context) {
    match op
    case Append(r) =>
      r.kind.Message? && FreshId(c, r.id) && c' == c.(records := c.records + [r])
    case Snip(id, removed) =>
      && FreshId(c, id) && removed != [] && Distinct(removed)
      && c' == c.(records := c.records + [SnipRecord(id, removed)])
    case Compact(mode, pivotId, cut, commitId, summary, extras, o) =>
      && FreshExtras(c, commitId, extras) && IsCut(SourceRecords(c.records), mode, pivotId, cut)
      // An install for another family leaves a Claude recipe that is in force behind; see README.
      && (o.claude || c.checkpoint.None?)
      && c' == Compacted(c, Offer(c, mode, pivotId, commitId, cut), summary, extras, o)
  }

  ghost predicate IsRun(cs: seq<Context>, ops: seq<Op>) {
    && |cs| == |ops| + 1 && cs[0] == EMPTY
    && forall i | 0 <= i < |ops| :: Next(cs[i], ops[i], cs[i + 1])
  }

  lemma {:induction false} RunExtends(cs: seq<Context>, ops: seq<Op>, op: Op, c: Context)
    requires IsRun(cs, ops) && Next(cs[|cs| - 1], op, c)
    ensures IsRun(cs + [c], ops + [op])
  {
    forall i | 0 <= i < |ops| + 1 ensures Next((cs + [c])[i], (ops + [op])[i], (cs + [c])[i + 1]) {
      if i < |ops| {
        RunStep(cs, ops, i);
      }
    }
  }

  lemma {:induction false} RunStep(cs: seq<Context>, ops: seq<Op>, i: nat)
    requires IsRun(cs, ops) && i < |ops|
    ensures Next(cs[i], ops[i], cs[i + 1])
  {
  }

  // ---- The plain list ----

  /** What is shown, what was archived, what was snipped out, and the commits so far. */
  datatype Story = Story(view: seq<Record>, archive: seq<Record>, snipped: seq<Record>, log: seq<Commit>)

  const BEGINNING := Story([], [], [], [])

  function LastId(log: seq<Commit>): Option<Id> {
    if log == [] then None else Some(log[|log| - 1].id)
  }

  /** The compaction that a mode and a cut pivot ask of the list, if it is offered at all. */
  function ToldCandidate(s: Story, mode: Mode, pivotId: Option<Id>, cut: nat, commitId: Id): Option<Candidate> {
    OfferAt(Filter(IsSource, s.view), mode, pivotId, commitId, cut, |s.log| + 1)
  }

  function ToldCommit(s: Story, candidate: Candidate, summary: string): Commit
    requires candidate.archived != []
  {
    Commit(candidate.commitId, candidate.nextEpoch, LastId(s.log),
           candidate.archived[|candidate.archived| - 1].id, summary)
  }

  function ToldLayout(s: Story, candidate: Candidate, summary: string, extras: Extras): Layout
    requires candidate.archived != []
  {
    var commit := ToldCommit(s, candidate, summary);
    Layout(candidate.mode, BoundaryRecord(commit), SummaryRecord(commit), candidate.retained, extras.All())
  }

  /** A Claude provider can be shown the new view: its anchors are not hidden and its tool pairs are whole. */
  predicate Presentable(l: Layout, o: Options) {
    o.claude ==> SegmentShown(l.retained) && Accepts(TurnsOf(PlannedView(l, o)))
  }

  function TellCompact(s: Story, candidate: Option<Candidate>, summary: string, extras: Extras, o: Options): Story {
    if candidate.None? || candidate.value.archived == [] then s
    else
      var l := ToldLayout(s, candidate.value, summary, extras);
      if Presentable(l, o) then
        Story(l.View(), s.archive + candidate.value.archived, s.snipped,
              s.log + [ToldCommit(s, candidate.value, summary)])
      else s
  }

  function Tell(s: Story, op: Op): Story {
    match op
    case Append(r) => s.(view := s.view + [r])
    case Snip(_, removed) =>
      s.(view := Filter((r: Record) => r.id !in removed, s.view),
         snipped := s.snipped + Filter((r: Record) => r.id in removed, s.view))
    case Compact(mode, pivotId, cut, commitId, summary, extras, o) =>
      TellCompact(s, ToldCandidate(s, mode, pivotId, cut, commitId), summary, extras, o)
  }

  function Tale(ops: seq<Op>): Story {
    if ops == [] then BEGINNING else Tell(Tale(ops[..|ops| - 1]), ops[|ops| - 1])
  }

  ghost predicate Refines(c: Context, s: Story) {
    && Mounted(c)
    && Visible(c.records) == s.view
    && c.epoch == |s.log| && c.active == LastId(s.log)
    && c.history == (if s.log == [] then [] else [s.log[|s.log| - 1]])
  }

  // ---- Appending ----

  lemma {:induction false} CarrierAppend(rs: seq<Record>, r: Record, active: Option<Id>, epoch: nat)
    requires Carrier(rs, active, epoch) && !r.kind.CompactBoundary?
    ensures Carrier(rs + [r], active, epoch) && History(rs + [r]) == History(rs)
  {
    assert (rs + [r])[..|rs|] == rs;
  }

  lemma {:induction false} MountedAppend(c: Context, r: Record)
    requires Mounted(c) && FreshId(c, r.id) && !r.kind.CompactBoundary?
    requires !r.kind.Message? ==> !r.providerExcluded && Neutral(r)
    ensures Mounted(c.(records := c.records + [r]))
  {
    var rs := c.records;
    IdsConcat(rs, [r]);
    assert IdSet([r]) == {r.id} && Ids([r]) == [r.id];
    CarrierAppend(rs, r, c.active, c.epoch);
    if c.checkpoint.Some? {
      ReplaysAppend(c.checkpoint.value, rs, r);
    }
  }

  lemma {:induction false} ReplaysAppend(recipe: Recipe, rs: seq<Record>, r: Record)
    requires exists n: nat :: Replays(recipe, rs, n)
    requires r.id !in IdSet(rs) && r.id !in recipe.excluded
    ensures exists n: nat :: Replays(recipe, rs + [r], n)
  {
    var n: nat :| Replays(recipe, rs, n);
    assert (rs + [r])[..n] == rs[..n];
    MembersOfIds(rs[..n]);
    assert IdSet(rs[..n]) <= IdSet(rs);
    assert r.id !in Required(recipe);
    forall id | id in Members(recipe.excluded) ensures id !in IdSet(rs + [r]) {
      assert id !in IdSet(rs);
    }
    assert Replays(recipe, rs + [r], n);
  }

  lemma {:induction false} VisibleAppend(rs: seq<Record>, r: Record)
    requires r.kind.Message? && r.id !in SnippedIds(rs)
    ensures SnippedIds(rs + [r]) == SnippedIds(rs) && Visible(rs + [r]) == Visible(rs) + [r]
  {
    var snipped := SnippedIds(rs);
    SnippedIdsConcat(rs, [r]);
    assert SnippedIds([r]) == {};
    var visible := (x: Record) => !x.IsMarker() && x.id !in snipped;
    FilterConcat(visible, rs, [r]);
    assert [r][1..] == [];
    assert Filter(visible, [r]) == [r];
  }

  lemma {:induction false} Reshown(c: Context, s: Story, rs: seq<Record>, s': Story)
    requires Refines(c, s) && Mounted(c.(records := rs)) && Visible(rs) == s'.view && s'.log == s.log
    ensures Refines(c.(records := rs), s')
  {
  }

  lemma {:induction false} AppendRefines(c: Context, r: Record, s: Story)
    requires Refines(c, s) && FreshId(c, r.id) && r.kind.Message?
    ensures Refines(c.(records := c.records + [r]), Tell(s, Append(r)))
  {
    MountedAppend(c, r);
    VisibleAppend(c.records, r);
    Reshown(c, s, c.records + [r], Tell(s, Append(r)));
  }

  lemma {:induction false} VisibleSnip(rs: seq<Record>, id: Id, removed: seq<Id>)
    ensures Visible(rs + [SnipRecord(id, removed)]) == Filter((r: Record) => r.id !in removed, Visible(rs))
  {
    var b := SnipRecord(id, removed);
    var before, after := SnippedIds(rs), SnippedIds(rs + [b]);
    SnippedIdsConcat(rs, [b]);
    assert b in [b];
    assert SnippedIds([b]) == set x | x in removed;
    var visible := (x: Record) => !x.IsMarker() && x.id !in before;
    var visible' := (x: Record) => !x.IsMarker() && x.id !in after;
    FilterConcat(visible', rs, [b]);
    FilterNone(visible', [b]);
    FilterTwice((r: Record) => r.id !in removed, visible, visible', rs);
  }

  lemma {:induction false} SnipRefines(c: Context, id: Id, removed: seq<Id>, s: Story)
    requires Refines(c, s) && FreshId(c, id)
    ensures Refines(c.(records := c.records + [SnipRecord(id, removed)]), Tell(s, Snip(id, removed)))
  {
    MountedAppend(c, SnipRecord(id, removed));
    VisibleSnip(c.records, id, removed);
    Reshown(c, s, c.records + [SnipRecord(id, removed)], Tell(s, Snip(id, removed)));
  }

  // ---- Compacting ----

  lemma {:induction false} CandidateIsTold(
      c: Context, s: Story, mode: Mode, pivotId: Option<Id>, commitId: Id, cut: nat, candidate: Option<Candidate>)
    requires Mounted(c) && Visible(c.records) == s.view && c.epoch == |s.log|
    requires IsCandidate(c, mode, pivotId, commitId, cut, candidate)
    ensures candidate == ToldCandidate(s, mode, pivotId, cut, commitId)
  {
    SourceIsVisibleSource(c);
  }

  /** What the list expects of a plan is what the planner decides. */
  lemma {:induction false} PlanIsTold(
      c: Context, s: Story, candidate: Candidate, summary: string, extras: Extras, o: Options)
    requires Mounted(c) && c.active == LastId(s.log)
    requires FromSource(c, candidate) && FreshExtras(c, candidate.commitId, extras)
    ensures PlannedCommit(c, candidate, summary) == ToldCommit(s, candidate, summary)
    ensures LayoutOf(c, candidate, summary, extras) == ToldLayout(s, candidate, summary, extras)
    ensures BuildPlan(c, candidate, summary, extras, o).Ok? <==> Presentable(ToldLayout(s, candidate, summary, extras), o)
  {
    PlanOutcome(c, candidate, summary, extras, o);
  }

  lemma {:induction false} InstallShows(
      c: Context, candidate: Candidate, summary: string, extras: Extras, o: Options, plan: Plan)
    requires Mounted(c) && FromSource(c, candidate) && FreshExtras(c, candidate.commitId, extras)
    requires BuildPlan(c, candidate, summary, extras, o) == Ok(plan)
    ensures var c' := Install(plan);
            && Mounted(c') && Visible(c'.records) == LayoutOf(c, candidate, summary, extras).View()
            && c'.epoch == c.epoch + 1 && c'.active == Some(candidate.commitId)
            && c'.history == [PlannedCommit(c, candidate, summary)]
  {
    InstallMounted(c, candidate, summary, extras, o, plan);
  }

  lemma {:induction false} InstallRefines(
      c': Context, view: seq<Record>, s: Story, candidate: Candidate, summary: string)
    requires candidate.archived != [] && candidate.nextEpoch == |s.log| + 1
    requires Mounted(c') && Visible(c'.records) == view
    requires c'.epoch == |s.log| + 1 && c'.active == Some(candidate.commitId)
    requires c'.history == [ToldCommit(s, candidate, summary)]
    ensures Refines(c', Story(view, s.archive + candidate.archived, s.snipped,
                              s.log + [ToldCommit(s, candidate, summary)]))
  {
  }

  lemma {:induction false} CandidateRefines(
      c: Context, s: Story, candidate: Candidate, summary: string, extras: Extras, o: Options)
    requires Refines(c, s) && FromSource(c, candidate) && FreshExtras(c, candidate.commitId, extras)
    ensures Refines(Compacted(c, Some(candidate), summary, extras, o),
                    TellCompact(s, Some(candidate), summary, extras, o))
  {
    PlanIsTold(c, s, candidate, summary, extras, o);
    var r := BuildPlan(c, candidate, summary, extras, o);
    if r.Ok? {
      InstallShows(c, candidate, summary, extras, o, r.value);
      InstallRefines(Install(r.value), ToldLayout(s, candidate, summary, extras).View(), s, candidate, summary);
    }
  }

  lemma {:induction false} CompactRefines(c: Context, op: Op, c': Context, s: Story)
    requires op.Compact? && Refines(c, s) && Next(c, op, c')
    ensures Refines(c', Tell(s, op))
  {
    var candidate := Offer(c, op.mode, op.pivotId, op.commitId, op.cut);
    CandidateIsTold(c, s, op.mode, op.pivotId, op.commitId, op.cut, candidate);
    assert Tell(s, op) == TellCompact(s, candidate, op.summary, op.extras, op.options);
    if candidate.Some? {
      OfferedRefines(c, s, op, candidate.value);
    }
  }

  lemma {:induction false} OfferedRefines(c: Context, s: Story, op: Op, candidate: Candidate)
    requires op.Compact? && Refines(c, s) && FreshExtras(c, op.commitId, op.extras)
    requires IsCandidate(c, op.mode, op.pivotId, op.commitId, op.cut, Some(candidate))
    ensures Refines(Compacted(c, Some(candidate), op.summary, op.extras, op.options),
                    TellCompact(s, Some(candidate), op.summary, op.extras, op.options))
  {
    CandidateFromSource(c, op.mode, op.pivotId, op.commitId, op.cut, Some(candidate));
    CandidateIsTold(c, s, op.mode, op.pivotId, op.commitId, op.cut, Some(candidate));
    CandidateRefines(c, s, candidate, op.summary, op.extras, op.options);
  }

  // ---- Every run ----

  /** After every run the transcript is mounted and shows exactly what the plain list says. */
  lemma {:induction false} RunTellsTale(cs: seq<Context>, ops: seq<Op>)
    requires IsRun(cs, ops)
    ensures Refines(cs[|ops|], Tale(ops))
  {
    if ops == [] {
      assert Visible([]) == [] && History([]) == [];
    } else {
      var n := |ops| - 1;
      RunTellsTale(cs[..n + 1], ops[..n]);
      var c, op, c', s := cs[n], ops[n], cs[n + 1], Tale(ops[..n]);
      assert Next(c, op, c');
      match op {
        case Append(r) => AppendRefines(c, r, s);
        case Snip(id, removed) => SnipRefines(c, id, removed, s);
        case Compact(_, _, _, _, _, _, _) => CompactRefines(c, op, c', s);
      }
    }
  }

  /**
   After every run both provider projections list the rows of the plain list in its order: the generic one all
   of them, the Claude one those it can take. When it can take all, the two agree.
   */
  lemma {:induction false} ViewsTellTale(cs: seq<Context>, ops: seq<Op>, o: Options)
    requires IsRun(cs, ops)
    ensures var c, view := cs[|ops|], Tale(ops).view;
            && SourceIds(GenericView(c.records)) == Ids(view)
            && Select(c.records, c.checkpoint).Ok?
            && SourceIds(ProjectAll(Select(c.records, c.checkpoint).value, o)) ==
               Ids(Filter((r: Record) => ClaudeTakes(r, o), view))
            && ((forall r | r in view :: ClaudeTakes(r, o)) ==>
                  SourceIds(ProjectAll(Select(c.records, c.checkpoint).value, o)) == SourceIds(GenericView(c.records)))
  {
    RunTellsTale(cs, ops);
    ViewsAgree(cs[|ops|], o);
    var takes := (r: Record) => ClaudeTakes(r, o);
    if forall r | r in Tale(ops).view :: ClaudeTakes(r, o) {
      FilterAll(takes, Tale(ops).view);
    }
  }

  /** Each commit is one epoch further than the one it names as its parent. */
  ghost predicate IsChain(log: seq<Commit>) {
    forall k | 0 <= k < |log| :: log[k].epoch == k + 1 && log[k].parent == LastId(log[..k])
  }

  lemma {:induction false} TaleIsChain(ops: seq<Op>)
    ensures IsChain(Tale(ops).log)
  {
    if ops != [] {
      var init := ops[..|ops| - 1];
      TaleIsChain(init);
      var log, log' := Tale(init).log, Tale(ops).log;
      if log' != log {
        forall k | 0 <= k < |log'| ensures log'[k].epoch == k + 1 && log'[k].parent == LastId(log'[..k]) {
          assert log'[..k] == log[..k];
          assert log[..|log|] == log;
        }
      }
    }
  }

  /**
   The chain over every run: after k installs the epoch is k, the only boundary is the first row and carries
   the active commit, the derived history is that commit alone, and its parent is the commit active before it.
   */
  lemma {:induction false} RunIsChain(cs: seq<Context>, ops: seq<Op>)
    requires IsRun(cs, ops)
    ensures var c, log := cs[|ops|], Tale(ops).log;
            && IsChain(log) && c.epoch == |log| && c.active == LastId(log)
            && (log == [] ==> History(c.records) == [] && forall r | r in c.records :: !r.kind.CompactBoundary?)
            && (log != [] ==>
                  && c.records != [] && c.records[0].kind == CompactBoundary(Some(log[|log| - 1]))
                  && History(c.records) == [log[|log| - 1]] && ActiveCommit(c.records) == Some(log[|log| - 1])
                  && forall k | 0 < k < |c.records| :: !c.records[k].kind.CompactBoundary?)
  {
    RunTellsTale(cs, ops);
    TaleIsChain(ops);
    RefinesCarrier(cs[|ops|], Tale(ops));
    CarrierOfLog(cs[|ops|], Tale(ops).log);
  }

  lemma {:induction false} RefinesCarrier(c: Context, s: Story)
    requires Refines(c, s)
    ensures Carrier(c.records, c.active, c.epoch) && c.history == History(c.records)
    ensures c.epoch == |s.log| && c.active == LastId(s.log)
    ensures c.history == if s.log == [] then [] else [s.log[|s.log| - 1]]
  {
  }

  lemma {:induction false} CarrierOfLog(c: Context, log: seq<Commit>)
    requires Carrier(c.records, c.active, c.epoch) && c.history == History(c.records)
    requires c.active == LastId(log) && c.history == if log == [] then [] else [log[|log| - 1]]
    ensures log == [] ==> History(c.records) == [] && forall r | r in c.records :: !r.kind.CompactBoundary?
    ensures log != [] ==>
              && c.records != [] && c.records[0].kind == CompactBoundary(Some(log[|log| - 1]))
              && History(c.records) == [log[|log| - 1]] && ActiveCommit(c.records) == Some(log[|log| - 1])
              && forall k | 0 < k < |c.records| :: !c.records[k].kind.CompactBoundary?
  {
    CarrierWindow(c.records, c.active, c.epoch);
  }

  // ---- Nothing is lost ----

  function Appended(ops: seq<Op>): seq<Record> {
    if ops == [] then []
    else Appended(ops[..|ops| - 1]) + if ops[|ops| - 1].Append? then [ops[|ops| - 1].record] else []
  }

  function Messages(rs: seq<Record>): multiset<Record> {
    multiset(Filter(IsMessage, rs))
  }

  lemma {:induction false} MessagesConcat(a: seq<Record>, b: seq<Record>)
    ensures Messages(a + b) == Messages(a) + Messages(b)
  {
    FilterConcat(IsMessage, a, b);
  }

  lemma {:induction false} MessagesPartition(p: Record -> bool, q: Record -> bool, rs: seq<Record>)
    requires forall r | r in rs :: q(r) == !p(r)
    ensures Messages(Filter(p, rs)) + Messages(Filter(q, rs)) == Messages(rs)
  {
    if rs != [] {
      var head, rest := [rs[0]], rs[1..];
      assert rs == head + rest;
      MessagesPartition(p, q, rest);
      MessagesConcat(head, rest);
      MessagesConcat(head, Filter(p, rest));
      MessagesConcat(head, Filter(q, rest));
    }
  }

  lemma {:induction false} MessagesOfLayout(l: Layout)
    requires !IsMessage(l.summary) && forall r | r in l.trailing :: !IsMessage(r)
    ensures Messages(l.View()) == Messages(l.retained)
  {
    FilterNone(IsMessage, [l.summary]);
    FilterNone(IsMessage, l.trailing);
    MessagesConcat(l.retained, [l.summary]);
    MessagesConcat([l.summary], l.retained);
    MessagesConcat(l.retained + [l.summary], l.trailing);
    MessagesConcat([l.summary] + l.retained, l.trailing);
  }

  lemma {:induction false} MessagesOfSource(view: seq<Record>, mode: Mode, pivotId: Option<Id>, cut: nat)
    requires SplitAt(Filter(IsSource, view), mode, pivotId, cut).Some?
    ensures var split := SplitAt(Filter(IsSource, view), mode, pivotId, cut).value;
            Messages(split.archived) + Messages(split.retained) == Messages(view)
  {
    var source := Filter(IsSource, view);
    FilterTwice(IsMessage, IsSource, IsMessage, view);
    if mode.Full? {
      MessagesConcat(source, []);
      assert source + [] == source;
    } else {
      assert source[..cut] + source[cut..] == source;
      MessagesConcat(source[..cut], source[cut..]);
    }
  }

  /** Everything told so far is shown, archived or snipped out. */
  function Total(s: Story): multiset<Record> {
    Messages(s.view) + Messages(s.archive) + Messages(s.snipped)
  }

  lemma {:induction false} TellKeeps(s: Story, op: Op)
    requires op.Append? ==> IsMessage(op.record)
    requires op.Compact? ==> forall r | r in op.extras.All() :: !IsMessage(r)
    ensures Total(Tell(s, op)) == Total(s) + if op.Append? then multiset{op.record} else multiset{}
  {
    match op {
      case Append(r) =>
        MessagesConcat(s.view, [r]);
        FilterAll(IsMessage, [r]);
      case Snip(_, removed) =>
        MessagesPartition((r: Record) => r.id !in removed, (r: Record) => r.id in removed, s.view);
        MessagesConcat(s.snipped, Filter((r: Record) => r.id in removed, s.view));
      case Compact(mode, pivotId, cut, commitId, summary, extras, o) =>
        CompactKeeps(s, mode, pivotId, cut, commitId, summary, extras, o);
    }
  }

  lemma {:induction false} CompactKeeps(
      s: Story, mode: Mode, pivotId: Option<Id>, cut: nat, commitId: Id, summary: string, extras: Extras, o: Options)
    requires forall r | r in extras.All() :: !IsMessage(r)
    ensures Total(TellCompact(s, ToldCandidate(s, mode, pivotId, cut, commitId), summary, extras, o)) == Total(s)
  {
    var candidate := ToldCandidate(s, mode, pivotId, cut, commitId);
    if candidate.Some? && candidate.value.archived != [] {
      MessagesOfSource(s.view, mode, pivotId, cut);
      MessagesConcat(s.archive, candidate.value.archived);
      MessagesOfLayout(ToldLayout(s, candidate.value, summary, extras));
    }
  }

  /** Over every run, each appended message is shown, archived or snipped out, and is so exactly once. */
  lemma {:induction false} NothingIsLost(cs: seq<Context>, ops: seq<Op>)
    requires IsRun(cs, ops)
    ensures multiset(Appended(ops)) == Total(Tale(ops))
  {
    if ops == [] {
      assert Messages([]) == multiset{};
    } else {
      var n := |ops| - 1;
      NothingIsLost(cs[..n + 1], ops[..n]);
      assert Next(cs[n], ops[n], cs[n + 1]);
      TellKeeps(Tale(ops[..n]), ops[n]);
    }
  }
}
