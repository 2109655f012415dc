/**
 Where the text of a summary goes: which row a compaction shows in place of what it archived, how long the row stays,
 and what both projections hand on of it.
 */
module SummaryShown {
  import opened Sequences
  import opened Identifiers
  import opened Transcript
  import opened RoundCut
  import opened ProviderMessage
  import opened ClaudeProjector
  import opened Compaction
  import opened CompactionInstall
  import opened CompactionOutcome
  import opened ContextRuns
  import opened CompactionOffer
  import opened ProviderViews

  /** A user text that says the summary, under the id of its commit and with the commit attached. */
  ghost predicate Carries(r: Record, commit: Commit) {
    && r.id == "compact_summary_" + commit.id && r.kind == CompactSummary(Some(commit))
    && r.role.User? && r.content == Text(commit.summary, [])
    && r.messageId == None && r.providerMessageId == None && !r.providerExcluded
  }

  /** A compaction that went through: the state has changed. */
  ghost predicate Installs(c: Context, op: Op, c': Context) {
    op.Compact? && Next(c, op, c') && c' != c
  }

  /** The rows around those that are archived. */
  function SideBefore(mode: Mode, source: seq<Record>, cut: nat): seq<Record>
    requires cut <= |source|
  {
    if mode.From? then source[..cut] else []
  }

  function SideAfter(mode: Mode, source: seq<Record>, cut: nat): seq<Record>
    requires cut <= |source|
  {
    if mode.UpTo? then source[cut..] else []
  }

  lemma {:induction false} SidesAround(mode: Mode, source: seq<Record>, cut: nat)
    requires cut <= |source|
    ensures SideBefore(mode, source, cut) + ArchivedSide(source, mode, cut) + SideAfter(mode, source, cut) == source
    ensures SideBefore(mode, source, cut) + SideAfter(mode, source, cut) == RetainedSide(source, mode, cut)
  {
  }

  lemma {:induction false} InstalledPlan(c: Context, op: Op, c': Context) returns (candidate: Candidate, plan: Plan)
    requires Mounted(c) && Installs(c, op, c')
    ensures IsCandidate(c, op.mode, op.pivotId, op.commitId, op.cut, Some(candidate))
    ensures FromSource(c, candidate) && FreshExtras(c, candidate.commitId, op.extras)
    ensures candidate.commitId == op.commitId
    ensures BuildPlan(c, candidate, op.summary, op.extras, op.options) == Ok(plan) && c' == Install(plan)
  {
    var offered := Offer(c, op.mode, op.pivotId, op.commitId, op.cut);
    candidate := offered.value;
    CandidateFromSource(c, op.mode, op.pivotId, op.commitId, op.cut, offered);
    plan := BuildPlan(c, candidate, op.summary, op.extras, op.options).value;
  }

  /** The commit that an installed compaction writes. */
  predicate IsCommitOf(commit: Commit, c: Context, op: Op, archived: seq<Record>) {
    && op.Compact? && archived != []
    && commit == Commit(op.commitId, c.epoch + 1, c.active, archived[|archived| - 1].id, op.summary)
  }

  lemma {:induction false} PlacedSummary(
      c: Context, candidate: Candidate, summary: string, extras: Extras, before: seq<Record>, after: seq<Record>)
    returns (s: Record)
    requires candidate.archived != [] && before + after == candidate.retained
    requires if candidate.mode.From? then after == [] else before == []
    ensures LayoutOf(c, candidate, summary, extras).View() == before + [s] + after + extras.attachments + extras.hooks
    ensures Carries(s, PlannedCommit(c, candidate, summary))
  {
    var l := LayoutOf(c, candidate, summary, extras);
    s := l.summary;
    var trailing := extras.attachments + extras.hooks;
    assert l.View() == before + [s] + after + trailing;
    assert before + [s] + after + trailing == before + [s] + after + extras.attachments + extras.hooks;
  }

  /** The sides of what went through, around the cut. */
  lemma {:induction false} InstalledSides(c: Context, op: Op, candidate: Candidate) returns (at: nat)
    requires op.Compact? && IsCandidate(c, op.mode, op.pivotId, op.commitId, op.cut, Some(candidate))
    ensures at <= |SourceRecords(c.records)| && (!op.mode.Full? ==> at == op.cut)
    ensures var source := SourceRecords(c.records);
            && candidate == Candidate(op.mode, op.commitId, c.epoch + 1, ArchivedSide(source, op.mode, at),
                                      RetainedSide(source, op.mode, at))
            && SideBefore(op.mode, source, at) + SideAfter(op.mode, source, at) == candidate.retained
            && if op.mode.From? then SideAfter(op.mode, source, at) == [] else SideBefore(op.mode, source, at) == []
  {
    OfferedIff(c, op.mode, op.pivotId, op.commitId, op.cut, Some(candidate));
    at := if op.mode.Full? then 0 else op.cut;
    SidesAround(op.mode, SourceRecords(c.records), at);
  }

  /**
   The view shows the summary exactly where the archived rows stood. Everything else that was accounted for stays, and
   only the new attachments and hook results come behind it.
   */
  ghost predicate StandsForArchived(c: Context, op: Op, view: seq<Record>, at: nat, commit: Commit, s: Record) {
    var source := SourceRecords(c.records);
    && op.Compact? && at <= |source| && (!op.mode.Full? ==> at == op.cut)
    && IsCommitOf(commit, c, op, ArchivedSide(source, op.mode, at)) && Carries(s, commit)
    && view == SideBefore(op.mode, source, at) + [s] + SideAfter(op.mode, source, at)
               + op.extras.attachments + op.extras.hooks
  }

  lemma {:induction false} InstalledHead(c: Context, op: Op, c': Context, candidate: Candidate, plan: Plan)
    requires Mounted(c) && op.Compact? && FromSource(c, candidate) && FreshExtras(c, candidate.commitId, op.extras)
    requires BuildPlan(c, candidate, op.summary, op.extras, op.options) == Ok(plan) && c' == Install(plan)
    ensures Mounted(c') && Visible(c'.records) == LayoutOf(c, candidate, op.summary, op.extras).View()
    ensures c'.epoch == c.epoch + 1 && c'.active == Some(candidate.commitId)
    ensures c'.history == [PlannedCommit(c, candidate, op.summary)]
    ensures c'.records != [] && c'.records[0].kind == CompactBoundary(Some(PlannedCommit(c, candidate, op.summary)))
  {
    var commit := PlannedCommit(c, candidate, op.summary);
    InstallShows(c, candidate, op.summary, op.extras, op.options, plan);
    assert LastId([commit]) == Some(candidate.commitId);
    CarrierOfLog(c', [commit]);
  }

  /** Every installed compaction, whatever the mode, the pivot and the family of the provider. */
  lemma {:induction false} SummaryStandsForArchived(c: Context, op: Op, c': Context)
    returns (at: nat, commit: Commit, s: Record)
    requires Mounted(c) && Installs(c, op, c')
    ensures StandsForArchived(c, op, Visible(c'.records), at, commit, s)
    ensures c'.records != [] && c'.records[0].kind == CompactBoundary(Some(commit))
    ensures c'.epoch == c.epoch + 1 && c'.active == Some(op.commitId) && c'.history == [commit] && Mounted(c')
  {
    var candidate, plan := InstalledPlan(c, op, c');
    at := InstalledSides(c, op, candidate);
    InstalledHead(c, op, c', candidate, plan);
    commit := PlannedCommit(c, candidate, op.summary);
    s := SummaryOfSides(c, op, candidate, at);
  }

  lemma {:induction false} SummaryOfSides(c: Context, op: Op, candidate: Candidate, at: nat) returns (s: Record)
    requires op.Compact? && candidate.archived != [] && at <= |SourceRecords(c.records)| && (!op.mode.Full? ==> at == op.cut)
    requires var source := SourceRecords(c.records);
             && candidate == Candidate(op.mode, op.commitId, c.epoch + 1, ArchivedSide(source, op.mode, at),
                                       RetainedSide(source, op.mode, at))
             && SideBefore(op.mode, source, at) + SideAfter(op.mode, source, at) == candidate.retained
             && if op.mode.From? then SideAfter(op.mode, source, at) == [] else SideBefore(op.mode, source, at) == []
    ensures StandsForArchived(c, op, LayoutOf(c, candidate, op.summary, op.extras).View(), at,
                              PlannedCommit(c, candidate, op.summary), s)
  {
    s := PlacedSummary(c, candidate, op.summary, op.extras, SideBefore(op.mode, SourceRecords(c.records), at),
                       SideAfter(op.mode, SourceRecords(c.records), at));
  }

  lemma {:induction false} PlanWrites(c: Context, candidate: Candidate, op: Op, plan: Plan)
    requires op.Compact? && candidate.archived != [] && candidate.commitId == op.commitId
    requires BuildPlan(c, candidate, op.summary, op.extras, op.options) == Ok(plan)
    ensures plan.recipe ==
            if op.options.claude
            then Some(Recipe(op.commitId, "compact_boundary_" + op.commitId, "compact_summary_" + op.commitId,
                             Ids(plan.ordered), Ids(op.extras.attachments), Ids(op.extras.hooks), Ids(candidate.archived),
                             Preserved(plan.ordered)))
            else None
  {
  }

  /** The checkpoint that comes into force: all rows listed, the archived ones excluded, its own rows named. */
  lemma {:induction false} CheckpointWritten(c: Context, op: Op, c': Context) returns (at: nat)
    requires Mounted(c) && Installs(c, op, c')
    ensures at <= |SourceRecords(c.records)| && (!op.mode.Full? ==> at == op.cut)
    ensures c'.checkpoint ==
            if op.options.claude
            then Some(Recipe(op.commitId, "compact_boundary_" + op.commitId, "compact_summary_" + op.commitId,
                             Ids(c'.records), Ids(op.extras.attachments), Ids(op.extras.hooks),
                             Ids(ArchivedSide(SourceRecords(c.records), op.mode, at)), Preserved(c'.records)))
            else None
  {
    var candidate, plan := InstalledPlan(c, op, c');
    at := InstalledSides(c, op, candidate);
    PlanWrites(c, candidate, op, plan);
  }

  lemma {:induction false} OthersPlan(c: Context, candidate: Candidate, op: Op)
    requires Mounted(c) && op.Compact? && !op.options.claude
    requires FromSource(c, candidate) && FreshExtras(c, candidate.commitId, op.extras)
    ensures BuildPlan(c, candidate, op.summary, op.extras, op.options).Ok?
    ensures Install(BuildPlan(c, candidate, op.summary, op.extras, op.options).value).epoch == c.epoch + 1
  {
    PlanOutcome(c, candidate, op.summary, op.extras, op.options);
    InstallShows(c, candidate, op.summary, op.extras, op.options,
                 BuildPlan(c, candidate, op.summary, op.extras, op.options).value);
  }

  /** For another family than Claude nothing but the offer decides. */
  lemma {:induction false} OthersInstallIffOffered(c: Context, op: Op, c': Context, offered: Option<Candidate>)
    requires Mounted(c) && op.Compact? && Next(c, op, c') && !op.options.claude
    requires IsCandidate(c, op.mode, op.pivotId, op.commitId, op.cut, offered)
    ensures Installs(c, op, c') <==> offered.Some?
  {
    if offered.Some? {
      CandidateFromSource(c, op.mode, op.pivotId, op.commitId, op.cut, offered);
      OthersPlan(c, offered.value, op);
    }
  }

  // ---- How many summaries are shown ----

  predicate IsSummary(r: Record) {
    r.kind.CompactSummary?
  }

  lemma {:induction false} KeptAround(kept: Record -> bool, a: seq<Record>, s: Record, b: seq<Record>)
    requires kept(s)
    ensures Filter(kept, a + [s] + b) == Filter(kept, a) + [s] + Filter(kept, b)
  {
    FilterConcat(kept, a + [s], b);
    FilterConcat(kept, a, [s]);
    assert [s][1..] == [];
  }

  lemma {:induction false} OneAmong(before: seq<Record>, s: Record, after: seq<Record>, trailing: seq<Record>)
    requires s.kind.CompactSummary? && forall r | r in trailing :: !r.kind.CompactSummary?
    ensures Filter(IsSummary, before + [s] + after + trailing) == [s] <==>
            forall r | r in before + after :: !r.kind.CompactSummary?
  {
    FilterNone(IsSummary, trailing);
    FilterConcat(IsSummary, before + [s] + after, trailing);
    KeptAround(IsSummary, before, s, after);
    EmptyIffNone(before);
    EmptyIffNone(after);
    var a, b := Filter(IsSummary, before), Filter(IsSummary, after);
    assert |a + [s] + b| == |a| + 1 + |b|;
  }

  /** The new summary is the only one shown if and only if no older one is among the retained rows. */
  lemma {:induction false} OnlySummaryIff(c: Context, op: Op, view: seq<Record>, at: nat, commit: Commit, s: Record)
    requires StandsForArchived(c, op, view, at, commit, s)
    requires forall r | r in op.extras.All() :: !r.kind.CompactSummary?
    ensures Filter(IsSummary, view) == [s] <==>
            forall r | r in RetainedSide(SourceRecords(c.records), op.mode, at) :: !r.kind.CompactSummary?
  {
    var source, extras := SourceRecords(c.records), op.extras;
    SidesAround(op.mode, source, at);
    Regroup(SideBefore(op.mode, source, at) + [s] + SideAfter(op.mode, source, at), extras.attachments, extras.hooks);
    OneAmong(SideBefore(op.mode, source, at), s, SideAfter(op.mode, source, at), extras.All());
  }

  lemma {:induction false} Regroup<T>(a: seq<T>, b: seq<T>, c: seq<T>)
    ensures a + b + c == a + (b + c)
  {
  }

  lemma {:induction false} EmptyIffNone(rs: seq<Record>)
    ensures Filter(IsSummary, rs) == [] <==> forall r | r in rs :: !r.kind.CompactSummary?
  {
    FilterMembers(IsSummary, rs);
    var kept := Filter(IsSummary, rs);
    if kept != [] {
      assert kept[0] in kept;
    }
  }

  // ---- Until the next compaction ----

  ghost predicate AreSteps(cs: seq<Context>, ops: seq<Op>) {
    |cs| == |ops| + 1 && forall i | 0 <= i < |ops| :: Next(cs[i], ops[i], cs[i + 1])
  }

  /** No compaction goes through. */
  ghost predicate Quiet(cs: seq<Context>, ops: seq<Op>) {
    AreSteps(cs, ops) && forall i | 0 <= i < |ops| :: ops[i].Compact? ==> cs[i + 1] == cs[i]
  }

  /** All that is snipped out on the way. */
  function SnippedBy(ops: seq<Op>): set<Id> {
    set op, id | op in ops && op.Snip? && id in op.removed :: id
  }

  function Spared(gone: set<Id>): Record -> bool {
    (r: Record) => r.id !in gone
  }

  lemma {:induction false} QuietInit(cs: seq<Context>, ops: seq<Op>)
    requires Quiet(cs, ops) && ops != []
    ensures Quiet(cs[..|ops|], ops[..|ops| - 1])
    ensures Next(cs[|ops| - 1], ops[|ops| - 1], cs[|ops|])
    ensures ops[|ops| - 1].Compact? ==> cs[|ops|] == cs[|ops| - 1]
  {
    var n := |ops| - 1;
    forall i | 0 <= i < n ensures Next(cs[..n + 1][i], ops[..n][i], cs[..n + 1][i + 1]) {
      assert Next(cs[i], ops[i], cs[i + 1]);
    }
  }

  lemma {:induction false} SnippedByLast(ops: seq<Op>, op: Op)
    ensures SnippedBy(ops + [op]) == SnippedBy(ops) + if op.Snip? then set id | id in op.removed else {}
  {
  }

  /** What was snipped out is on record. */
  lemma {:induction false} SnipsAreKept(cs: seq<Context>, ops: seq<Op>)
    requires Quiet(cs, ops)
    ensures SnippedBy(ops) <= SnippedIds(cs[|ops|].records)
  {
    if ops != [] {
      var n := |ops| - 1;
      QuietInit(cs, ops);
      SnipsAreKept(cs[..n + 1], ops[..n]);
      assert ops == ops[..n] + [ops[n]];
      SnippedByLast(ops[..n], ops[n]);
      match ops[n] {
        case Append(r) => SnippedIdsConcat(cs[n].records, [r]);
        case Snip(id, removed) =>
          SnippedIdsConcat(cs[n].records, [SnipRecord(id, removed)]);
          assert SnipRecord(id, removed) in [SnipRecord(id, removed)];
        case Compact(_, _, _, _, _, _, _) =>
      }
    }
  }

  /** In between, the view is what it was, with what is appended behind it and without what is snipped out. */
  lemma {:induction false} QuietView(cs: seq<Context>, ops: seq<Op>)
    requires Quiet(cs, ops)
    ensures Visible(cs[|ops|].records) ==
            Filter(Spared(SnippedBy(ops)), Visible(cs[0].records) + Appended(ops))
  {
    if ops == [] {
      FilterAll(Spared(SnippedBy(ops)), Visible(cs[0].records));
      assert Visible(cs[0].records) + [] == Visible(cs[0].records);
    } else {
      var n := |ops| - 1;
      QuietInit(cs, ops);
      QuietView(cs[..n + 1], ops[..n]);
      SnipsAreKept(cs[..n + 1], ops[..n]);
      assert ops == ops[..n] + [ops[n]];
      SnippedByLast(ops[..n], ops[n]);
      QuietStep(cs[n], ops[n], cs[n + 1], SnippedBy(ops[..n]), SnippedBy(ops), Visible(cs[0].records) + Appended(ops[..n]));
      assert Visible(cs[0].records) + Appended(ops) ==
             Visible(cs[0].records) + Appended(ops[..n]) + if ops[n].Append? then [ops[n].record] else [];
    }
  }

  lemma {:induction false} QuietStep(c: Context, op: Op, c': Context, gone: set<Id>, gone': set<Id>, told: seq<Record>)
    requires Next(c, op, c') && (op.Compact? ==> c' == c) && gone <= SnippedIds(c.records)
    requires gone' == gone + if op.Snip? then set id | id in op.removed else {}
    requires Visible(c.records) == Filter(Spared(gone), told)
    ensures Visible(c'.records) ==
            Filter(Spared(gone'), told + if op.Append? then [op.record] else [])
  {
    match op {
      case Append(r) =>
        VisibleAppend(c.records, r);
        FilterConcat(Spared(gone), told, [r]);
        FilterAll(Spared(gone), [r]);
        assert gone' == gone;
      case Snip(id, removed) =>
        VisibleSnip(c.records, id, removed);
        FilterTwice((x: Record) => x.id !in removed, Spared(gone), Spared(gone'), told);
        assert told + [] == told;
      case Compact(_, _, _, _, _, _, _) =>
        assert told + [] == told && gone' == gone;
    }
  }

  // ---- What the projections hand on ----

  lemma {:induction false} PlainViewOf(c: Context)
    requires Mounted(c)
    ensures AllShowPlainly(GenericView(c.records), Visible(c.records))
  {
    var snipped := SnippedIds(c.records);
    GenericViewIs(c);
    ProjectedPlainly(Visible(c.records));
    FilterMembers((r: Record) => !r.IsMarker() && r.id !in snipped, c.records);
    FilterAll(IsContent, Visible(c.records));
  }

  lemma {:induction false} OneShows(view: seq<Projected>, rows: seq<Record>, o: Options, all: seq<Record>, s: Record)
    returns (i: nat)
    requires AllShow(view, rows, o) && UniqueIds(rows) && UniqueIds(all) && s in all && forall r | r in rows :: r in all
    requires s.id in SourceIds(view)
    ensures i < |view| && Shows(view[i], s, o)
    ensures forall j | 0 <= j < |view| :: view[j].sourceId == Some(s.id) ==> j == i
  {
    SourceIdsMember(view, s.id);
    var m :| m in view && m.sourceId == Some(s.id);
    i :| 0 <= i < |view| && view[i] == m;
    assert Shows(view[i], rows[i], o);
    UniqueRecord(all, rows[i], s);
    forall j | 0 <= j < |view| && view[j].sourceId == Some(s.id) ensures j == i {
      assert Shows(view[j], rows[j], o);
      assert Ids(rows)[j] == Ids(rows)[i];
    }
  }

  lemma {:induction false} RowsOfView(c: Context, o: Options) returns (rows: seq<Record>)
    requires Mounted(c) && Project(c.records, c.checkpoint, o).Ok?
    ensures AllShow(Project(c.records, c.checkpoint, o).value, rows, o)
    ensures UniqueIds(rows) && forall r | r in rows :: r in c.records
  {
    var selected := Select(c.records, c.checkpoint).value;
    rows := Filter((r: Record) => Renders(r, o), selected);
    AllRenderedShow(selected, o);
    SelectedUnique(c.records, c.checkpoint);
    FilterUnique((r: Record) => Renders(r, o), selected);
    FilterMembers((r: Record) => Renders(r, o), selected);
    forall r | r in rows ensures r in c.records {
      SelectedMembers(c.records, c.checkpoint, r);
    }
  }

  lemma {:induction false} VisibleIsRow(rs: seq<Record>, s: Record)
    requires s in Visible(rs)
    ensures s in rs
  {
    var snipped := SnippedIds(rs);
    FilterMember((r: Record) => !r.IsMarker() && r.id !in snipped, rs, s);
  }

  /** The message of a visible row that Claude takes: there is one, and no other claims the row. */
  lemma {:induction false} ClaudeShowsRow(c: Context, o: Options, s: Record) returns (i: nat)
    requires Mounted(c) && Project(c.records, c.checkpoint, o).Ok?
    requires s in Visible(c.records) && ClaudeTakes(s, o)
    ensures var view := Project(c.records, c.checkpoint, o).value;
            && i < |view| && Shows(view[i], s, o)
            && forall j | 0 <= j < |view| :: view[j].sourceId == Some(s.id) ==> j == i
  {
    var takes := (r: Record) => ClaudeTakes(r, o);
    ViewsAgree(c, o);
    FilterMember(takes, Visible(c.records), s);
    IdsMember(Filter(takes, Visible(c.records)), s.id);
    VisibleIsRow(c.records, s);
    var rows := RowsOfView(c, o);
    i := OneShows(Project(c.records, c.checkpoint, o).value, rows, o, c.records, s);
  }

  /** The message that carries a summary, to whatever provider it goes. */
  function SummaryMessage(commit: Commit): Projected {
    Projected(User, Text(commit.summary, []), FromSummary, Some("compact_summary_" + commit.id), None, None)
  }

  /** The generic view has the message at `n`, and a Claude view, if there is one, has it once. */
  ghost predicate IsHandedOn(c: Context, n: nat, m: Projected, o: Options) {
    && n < |GenericView(c.records)| && GenericView(c.records)[n] == m
    && (Project(c.records, c.checkpoint, o).Ok? ==>
          var view := Project(c.records, c.checkpoint, o).value;
          exists i | 0 <= i < |view| ::
            view[i] == m && forall j | 0 <= j < |view| :: view[j].sourceId == m.sourceId ==> j == i)
  }

  lemma {:induction false} SummaryIsHandedOn(
      c: Context, front: seq<Record>, s: Record, back: seq<Record>, commit: Commit, o: Options)
    requires Mounted(c) && Visible(c.records) == front + [s] + back && Carries(s, commit)
    ensures IsHandedOn(c, |front|, SummaryMessage(commit), o)
  {
    PlainViewOf(c);
    assert (front + [s] + back)[|front|] == s;
    assert s in Visible(c.records);
    if Project(c.records, c.checkpoint, o).Ok? {
      var i := ClaudeShowsRow(c, o, s);
      assert Project(c.records, c.checkpoint, o).value[i] == SummaryMessage(commit);
    }
  }

  // ---- Over every run ----

  lemma {:induction false} RunIsMounted(cs: seq<Context>, ops: seq<Op>, k: nat)
    requires IsRun(cs, ops) && k <= |ops|
    ensures Mounted(cs[k])
  {
    forall i | 0 <= i < k ensures Next(cs[..k + 1][i], ops[..k][i], cs[..k + 1][i + 1]) {
      RunStep(cs, ops, i);
    }
    RunTellsTale(cs[..k + 1], ops[..k]);
  }

  lemma {:induction false} TailIsQuiet(cs: seq<Context>, ops: seq<Op>, k: nat)
    requires IsRun(cs, ops) && k <= |ops|
    requires forall i | k <= i < |ops| && ops[i].Compact? :: cs[i + 1] == cs[i]
    ensures cs[k..][|ops| - k] == cs[|ops|] && cs[k..][0] == cs[k]
    ensures Quiet(cs[k..], ops[k..])
  {
    forall i | 0 <= i < |ops| - k ensures Next(cs[k..][i], ops[k..][i], cs[k..][i + 1]) {
      RunStep(cs, ops, k + i);
    }
  }

  lemma {:induction false} LaterView(cs: seq<Context>, ops: seq<Op>, k: nat)
    requires IsRun(cs, ops) && k <= |ops|
    requires forall i | k <= i < |ops| && ops[i].Compact? :: cs[i + 1] == cs[i]
    ensures Visible(cs[|ops|].records) ==
            Filter(Spared(SnippedBy(ops[k..])), Visible(cs[k].records) + Appended(ops[k..]))
  {
    TailIsQuiet(cs, ops, k);
    QuietView(cs[k..], ops[k..]);
  }

  /** What is left of it later: the summary in its place among the rows that no later Snip names. */
  ghost predicate StillStands(
      c: Context, op: Op, later: seq<Op>, view: seq<Record>, at: nat, commit: Commit, s: Record, front: seq<Record>)
  {
    var source, gone := SourceRecords(c.records), SnippedBy(later);
    && op.Compact? && at <= |source| && (!op.mode.Full? ==> at == op.cut)
    && IsCommitOf(commit, c, op, ArchivedSide(source, op.mode, at)) && Carries(s, commit)
    && front == Filter(Spared(gone), SideBefore(op.mode, source, at))
    && view == front + [s]
               + Filter(Spared(gone),
                        SideAfter(op.mode, source, at) + op.extras.attachments + op.extras.hooks + Appended(later))
  }

  lemma {:induction false} SplitBehind<T>(a: seq<T>, s: T, b: seq<T>, x: seq<T>, y: seq<T>, z: seq<T>)
    ensures a + [s] + b + x + y + z == a + [s] + (b + x + y + z)
  {
  }

  lemma {:induction false} StandsOn(
      c: Context, op: Op, later: seq<Op>, shown: seq<Record>, at: nat, commit: Commit, s: Record)
    returns (front: seq<Record>)
    requires StandsForArchived(c, op, shown, at, commit, s) && s.id !in SnippedBy(later)
    ensures StillStands(c, op, later, Filter(Spared(SnippedBy(later)), shown + Appended(later)),
                        at, commit, s, front)
  {
    var source, gone := SourceRecords(c.records), SnippedBy(later);
    var before, after := SideBefore(op.mode, source, at), SideAfter(op.mode, source, at);
    SplitBehind(before, s, after, op.extras.attachments, op.extras.hooks, Appended(later));
    KeptAround(Spared(gone), before, s, after + op.extras.attachments + op.extras.hooks + Appended(later));
    front := Filter(Spared(gone), before);
  }

  /**
   For every run and the last compaction that went through: unless a later Snip names it, its summary is shown at the
   place of what was archived, between the rows kept before and behind it, and both projections hand on its text.
   */
  lemma {:induction false} LastSummaryIsShown(cs: seq<Context>, ops: seq<Op>, k: nat, o: Options)
    returns (at: nat, commit: Commit, s: Record, front: seq<Record>)
    requires IsRun(cs, ops) && k < |ops| && Installs(cs[k], ops[k], cs[k + 1])
    requires forall i | k < i < |ops| && ops[i].Compact? :: cs[i + 1] == cs[i]
    requires "compact_summary_" + ops[k].commitId !in SnippedBy(ops[k + 1..])
    ensures StillStands(cs[k], ops[k], ops[k + 1..], Visible(cs[|ops|].records), at, commit, s, front)
    ensures IsHandedOn(cs[|ops|], |front|, SummaryMessage(commit), o)
  {
    RunIsMounted(cs, ops, k);
    at, commit, s := SummaryStandsForArchived(cs[k], ops[k], cs[k + 1]);
    LaterView(cs, ops, k + 1);
    front := StandsOn(cs[k], ops[k], ops[k + 1..], Visible(cs[k + 1].records), at, commit, s);
    RunIsMounted(cs, ops, |ops|);
    StillHandedOn(cs[|ops|], cs[k], ops[k], ops[k + 1..], at, commit, s, front, o);
  }

  lemma {:induction false} StillHandedOn(
      c: Context, c0: Context, op: Op, later: seq<Op>, at: nat, commit: Commit, s: Record, front: seq<Record>, o: Options)
    requires Mounted(c) && StillStands(c0, op, later, Visible(c.records), at, commit, s, front)
    ensures IsHandedOn(c, |front|, SummaryMessage(commit), o)
  {
    var source, gone := SourceRecords(c0.records), SnippedBy(later);
    SummaryIsHandedOn(c, front, s,
      Filter(Spared(gone),
             SideAfter(op.mode, source, at) + op.extras.attachments + op.extras.hooks + Appended(later)), commit, o);
  }
}
