/**
 Two summaries side by side: a compaction from a pivot on keeps the rows before it, an older summary among them.
 The shortest such run has three messages and two compactions.
 */
module OlderSummary {
  import opened Sequences
  import opened Identifiers
  import opened Transcript
  import opened RoundCut
  import opened SnipRebase
  import opened ClaudeProjector
  import opened Compaction
  import opened CompactionInstall
  import opened ContextRuns
  import opened PairCut
  import opened StrandedCall
  import opened CompactionOffer
  import opened SummaryShown

  lemma {:induction false} RowsOfPlan(c: Context, op: Op, candidate: Candidate, plan: Plan, ordered: seq<Record>)
    requires op.Compact? && candidate.archived != []
    requires Rebase(c.records, CompactProjection(c, candidate, op.summary, op.extras), candidate.retained) == Ok(ordered)
    requires BuildPlan(c, candidate, op.summary, op.extras, op.options) == Ok(plan)
    ensures plan.ordered == ordered && (!op.options.claude ==> plan.recipe.None?)
  {
  }

  lemma {:induction false} PlanIds(c: Context, op: Op, candidate: Candidate, plan: Plan)
    requires Mounted(c) && op.Compact? && candidate.commitId == op.commitId
    requires FromSource(c, candidate) && FreshExtras(c, candidate.commitId, op.extras)
    requires BuildPlan(c, candidate, op.summary, op.extras, op.options) == Ok(plan)
    ensures SnippedIds(Install(plan).records) == SnippedIds(c.records) && Install(plan).records == plan.ordered
    ensures IdSet(plan.ordered) <= {"compact_boundary_" + op.commitId, "compact_summary_" + op.commitId}
                                   + IdSet(c.records) + IdSet(op.extras.All())
    ensures !op.options.claude ==> plan.recipe.None?
  {
    var ordered := PlanIsLaid(c, candidate, op.summary, op.extras);
    PlanIsSound(c, candidate, op.summary, op.extras);
    RowsOfPlan(c, op, candidate, plan, ordered);
    LaidIds(c, op, candidate, ordered);
  }

  /** An installed compaction brings in no ids but those of its own rows, and snips nothing out. */
  lemma {:induction false} InstalledIds(c: Context, op: Op, c': Context)
    requires Mounted(c) && Installs(c, op, c')
    ensures SnippedIds(c'.records) == SnippedIds(c.records)
    ensures IdSet(c'.records) <= {"compact_boundary_" + op.commitId, "compact_summary_" + op.commitId}
                                 + IdSet(c.records) + IdSet(op.extras.All())
    ensures !op.options.claude ==> c'.checkpoint.None?
  {
    var candidate, plan := InstalledPlan(c, op, c');
    PlanIds(c, op, candidate, plan);
  }

  lemma {:induction false} LaidIds(c: Context, op: Op, candidate: Candidate, ordered: seq<Record>)
    requires op.Compact? && candidate.archived != [] && candidate.commitId == op.commitId
    requires var l := LayoutOf(c, candidate, op.summary, op.extras); Sound(c.records, l) && Laid(c.records, l, ordered)
    ensures IdSet(ordered) <= {"compact_boundary_" + op.commitId, "compact_summary_" + op.commitId}
                              + IdSet(c.records) + IdSet(op.extras.All())
  {
    var l := LayoutOf(c, candidate, op.summary, op.extras);
    forall r | r in ordered
      ensures r.id in {"compact_boundary_" + op.commitId, "compact_summary_" + op.commitId}
                      + IdSet(c.records) + IdSet(op.extras.All())
    {
      assert l.Has(r) || r in c.records;
    }
  }

  /** Ids that a second compaction may use after the first and a third message. */
  ghost predicate AllFree(ids: set<Id>, d: Id, commitId: Id) {
    && Exact(d) && Exact("compact_boundary_" + commitId) && Exact("compact_summary_" + commitId)
    && d !in ids && "compact_boundary_" + commitId !in ids + {d} && "compact_summary_" + commitId !in ids + {d}
  }

  lemma {:induction false} FreeForNothing(c: Context, ids: set<Id>, d: Id, commitId: Id)
    requires IdSet(c.records) <= ids + {d} && SnippedIds(c.records) == {} && c.checkpoint.None?
    requires AllFree(ids, d, commitId)
    ensures FreshExtras(c, commitId, NO_EXTRAS)
  {
    assert NO_EXTRAS.All() == [] && Ids([]) == [];
  }

  lemma {:induction false} SecondSource(c: Context, s: Record, d: Record)
    requires Mounted(c) && Visible(c.records) == [s, d] && s.kind.CompactSummary? && d.kind.Message?
    ensures SourceRecords(c.records) == [s, d]
  {
    SourceIsVisibleSource(c);
    FilterAll(IsSource, [s, d]);
  }

  lemma {:induction false} PlainPair(c: Context, s: Record, d: Record)
    requires Mounted(c) && SourceRecords(c.records) == [s, d] && s.role.User?
    requires Normalized(s.content) == [] && Normalized(d.content) == []
    ensures PlainTexts([s, d]) && UniqueIds([s, d]) && Exact(d.id)
  {
    SourceUnique(c);
    assert d in [s, d];
    SourceMembers(c, d);
  }

  lemma {:induction false} PivotStays(s: Record, d: Record)
    requires PlainTexts([s, d]) && UniqueIds([s, d]) && Exact(d.id)
    ensures IsCut([s, d], From, Some(d.id), 1)
  {
    PlainSettles([s, d], 1);
    SettledPivotStays([s, d], 1);
    UniquePivot([s, d], 1);
    PivotFound([s, d], Some(d.id));
  }

  lemma {:induction false} SecondOffered(c: Context, s: Record, d: Record, commitId: Id)
    returns (offered: Option<Candidate>)
    requires Mounted(c) && SourceRecords(c.records) == [s, d] && PlainTexts([s, d]) && d.kind.Message?
    requires UniqueIds([s, d]) && Exact(d.id)
    ensures IsCandidate(c, From, Some(d.id), commitId, 1, offered) && offered.Some?
  {
    PivotStays(s, d);
    offered := Offer(c, From, Some(d.id), commitId, 1);
    PlainTextsAreOffered(c, From, 1, commitId, 1, offered);
    assert [s, d][1..] == [d] && d in [d];
  }

  lemma {:induction false} StepTaken(c: Context, op: Op, offered: Option<Candidate>) returns (c': Context)
    requires op.Compact? && FreshExtras(c, op.commitId, op.extras) && (op.options.claude || c.checkpoint.None?)
    requires IsCandidate(c, op.mode, op.pivotId, op.commitId, op.cut, offered)
    ensures Next(c, op, c')
  {
    c' := Compacted(c, offered, op.summary, op.extras, op.options);
  }

  /** A plain message behind a summary: from it on, the summary stays and a second one comes behind it. */
  lemma {:induction false} SecondSummary(c: Context, s: Record, d: Record, op: Op)
    returns (c': Context, s': Record, commit': Commit)
    requires Mounted(c) && Visible(c.records) == [s, d] && s.kind.CompactSummary? && s.role.User? && d.kind.Message?
    requires Normalized(s.content) == [] && Normalized(d.content) == []
    requires op.Compact? && op.mode.From? && op.pivotId == Some(d.id) && op.cut == 1 && !op.options.claude
    requires op.extras == NO_EXTRAS && FreshExtras(c, op.commitId, NO_EXTRAS) && c.checkpoint.None?
    ensures Next(c, op, c')
    ensures Visible(c'.records) == [s, s'] && Carries(s', commit') && commit'.summary == op.summary
  {
    SecondSource(c, s, d);
    PlainPair(c, s, d);
    var offered := SecondOffered(c, s, d, op.commitId);
    c' := StepTaken(c, op, offered);
    OthersInstallIffOffered(c, op, c', offered);
    var at;
    at, commit', s' := SummaryStandsForArchived(c, op, c');
    AfterSecond(c, s, d, op, Visible(c'.records), at, commit', s');
  }

  lemma {:induction false} AfterSecond(
      c: Context, s: Record, d: Record, op: Op, view: seq<Record>, at: nat, commit: Commit, s': Record)
    requires SourceRecords(c.records) == [s, d] && StandsForArchived(c, op, view, at, commit, s')
    requires op.mode.From? && op.cut == 1 && op.extras == NO_EXTRAS
    ensures view == [s, s'] && Carries(s', commit) && commit.summary == op.summary
  {
    assert [s, d][..1] == [s];
  }

  lemma {:induction false} AfterFirst(c: Context, op: Op, view: seq<Record>, at: nat, commit: Commit, s: Record)
    requires StandsForArchived(c, op, view, at, commit, s) && op.mode.Full? && op.extras == NO_EXTRAS
    ensures view == [s] && Carries(s, commit) && commit.summary == op.summary
  {
  }

  lemma {:induction false} Appends(cs: seq<Context>, ops: seq<Op>, i: nat)
    requires IsRun(cs, ops) && i < |ops| && ops[i].Append?
    ensures cs[i + 1].records == cs[i].records + [ops[i].record] && cs[i + 1].epoch == cs[i].epoch
    ensures ops[i].record.kind.Message? && cs[0] == EMPTY
  {
    RunStep(cs, ops, i);
  }

  lemma {:induction false} BothAppended(none: seq<Record>, one: seq<Record>, both: seq<Record>, a: Record, b: Record)
    requires none == [] && one == none + [a] && both == one + [b] && a.kind.Message? && b.kind.Message?
    ensures SnippedIds(both) == {} && IdSet(both) == {a.id, b.id}
  {
    assert both == [a, b];
  }

  lemma {:induction false} TwoAppends(cs: seq<Context>, ops: seq<Op>)
    requires IsRun(cs, ops) && |ops| == 3 && ops[0].Append? && ops[1].Append?
    ensures Mounted(cs[2]) && cs[2].epoch == 0 && Next(cs[2], ops[2], cs[3])
    ensures SnippedIds(cs[2].records) == {} && IdSet(cs[2].records) == {ops[0].record.id, ops[1].record.id}
  {
    RunIsMounted(cs, ops, 2);
    Appends(cs, ops, 0);
    Appends(cs, ops, 1);
    RunStep(cs, ops, 2);
    BothAppended(cs[0].records, cs[1].records, cs[2].records, ops[0].record, ops[1].record);
  }

  lemma {:induction false} FirstSummary(cs: seq<Context>, ops: seq<Op>) returns (commit: Commit, s: Record)
    requires IsRun(cs, ops) && |ops| == 3 && cs[3].epoch == 1
    requires ops[0].Append? && ops[1].Append? && ops[2].Compact? && ops[2].mode.Full? && ops[2].extras == NO_EXTRAS
    requires !ops[2].options.claude
    ensures Mounted(cs[3]) && Visible(cs[3].records) == [s] && Carries(s, commit) && commit.summary == ops[2].summary
    ensures SnippedIds(cs[3].records) == {} && cs[3].checkpoint.None?
    ensures IdSet(cs[3].records) <= {ops[0].record.id, ops[1].record.id, "compact_boundary_" + ops[2].commitId,
                                     "compact_summary_" + ops[2].commitId}
  {
    TwoAppends(cs, ops);
    assert NO_EXTRAS.All() == [] && IdSet([]) == {};
    InstalledIds(cs[2], ops[2], cs[3]);
    var at;
    at, commit, s := SummaryStandsForArchived(cs[2], ops[2], cs[3]);
    AfterFirst(cs[2], ops[2], Visible(cs[3].records), at, commit, s);
  }

  lemma {:induction false} StillFree(c: Context, r: Record, ids: set<Id>, commitId: Id)
    requires SnippedIds(c.records) == {} && c.checkpoint.None? && r.kind.Message?
    requires IdSet(c.records) <= ids && AllFree(ids, r.id, commitId)
    ensures FreshId(c, r.id) && FreshExtras(c.(records := c.records + [r]), commitId, NO_EXTRAS)
  {
    IdsConcat(c.records, [r]);
    SnippedIdsConcat(c.records, [r]);
    assert IdSet([r]) == {r.id} && SnippedIds([r]) == {};
    FreeForNothing(c.(records := c.records + [r]), ids, r.id, commitId);
  }

  lemma {:induction false} Behind(rs: seq<Record>, s: Record, d: Record)
    requires Visible(rs) == [s] && SnippedIds(rs) == {} && d.kind.Message?
    ensures Visible(rs + [d]) == [s, d]
  {
    VisibleAppend(rs, d);
  }

  /** A third message is appended behind the summary. */
  lemma {:induction false} ThirdMessage(c: Context, s: Record, d: Record, ids: set<Id>, commitId: Id)
    returns (c': Context)
    requires Mounted(c) && Visible(c.records) == [s] && SnippedIds(c.records) == {} && c.checkpoint.None?
    requires IdSet(c.records) <= ids && AllFree(ids, d.id, commitId) && d.kind.Message?
    ensures Next(c, Append(d), c') && Mounted(c') && Visible(c'.records) == [s, d]
    ensures FreshExtras(c', commitId, NO_EXTRAS) && c'.checkpoint.None?
  {
    c' := c.(records := c.records + [d]);
    StillFree(c, d, ids, commitId);
    AppendNext(c, d);
    Behind(c.records, s, d);
  }

  /** The run: two messages, all of them compacted, a third one, and a compaction from it on. */
  lemma {:induction false} OlderSummaryStays(
      a: Record, b: Record, d: Record, commitId: Id, commitId': Id, summary: string, summary': string, o: Options)
    returns (cs: seq<Context>, s: Record, s': Record, commit: Commit, commit': Commit)
    requires Suited(a, b, commitId) && d.kind.Message? && Normalized(d.content) == [] && !o.claude
    requires AllFree({a.id, b.id, "compact_boundary_" + commitId, "compact_summary_" + commitId}, d.id, commitId')
    ensures IsRun(cs, [Append(a), Append(b), Compact(Full, None, 0, commitId, summary, NO_EXTRAS, o)]
                      + [Append(d)] + [Compact(From, Some(d.id), 1, commitId', summary', NO_EXTRAS, o)])
    ensures Visible(cs[5].records) == [s, s'] && Carries(s, commit) && Carries(s', commit')
    ensures commit.summary == summary && commit'.summary == summary'
  {
    var ops := [Append(a), Append(b), Compact(Full, None, 0, commitId, summary, NO_EXTRAS, o)];
    var op := Compact(From, Some(d.id), 1, commitId', summary', NO_EXTRAS, o);
    var first := ShortestRun(a, b, commitId, summary, o);
    commit, s := FirstSummary(first, ops);
    var c4 := ThirdMessage(first[3], s, d, {a.id, b.id, "compact_boundary_" + commitId, "compact_summary_" + commitId},
                           commitId');
    var c5;
    c5, s', commit' := SecondSummary(c4, s, d, op);
    RunExtends(first, ops, Append(d), c4);
    RunExtends(first + [c4], ops + [Append(d)], op, c5);
    cs := first + [c4] + [c5];
  }

  // ---- Three concrete messages ----

  const MORE := Plain("m2", User, Text("more", []))
  const AGAIN := Plain("m3", User, Text("again", []))

  lemma {:induction false} CommitsDiffer()
    ensures Suited(HELLO, MORE, "c1")
    ensures AllFree({HELLO.id, MORE.id, "compact_boundary_" + "c1", "compact_summary_" + "c1"}, AGAIN.id, "c2")
  {
    assert "compact_boundary_" + "c1" == "compact_boundary_c1" && "compact_summary_" + "c1" == "compact_summary_c1";
    assert "compact_boundary_" + "c2" == "compact_boundary_c2" && "compact_summary_" + "c2" == "compact_summary_c2";
    assert "compact_boundary_c1"[18] != "compact_boundary_c2"[18];
    assert "compact_summary_c1"[17] != "compact_summary_c2"[17];
    assert HELLO.id[1] != MORE.id[1] && AGAIN.id[1] != MORE.id[1] && AGAIN.id[1] != HELLO.id[1];
  }

  /** So two summaries can be visible at once. */
  lemma {:induction false} TwoSummariesShown(o: Options) returns (cs: seq<Context>, s: Record, s': Record)
    requires !o.claude
    ensures IsRun(cs, [Append(HELLO), Append(MORE), Compact(Full, None, 0, "c1", "first", NO_EXTRAS, o)]
                      + [Append(AGAIN)] + [Compact(From, Some("m3"), 1, "c2", "second", NO_EXTRAS, o)])
    ensures Visible(cs[5].records) == [s, s'] && s.content == Text("first", []) && s'.content == Text("second", [])
    ensures s.kind.CompactSummary? && s'.kind.CompactSummary?
  {
    CommitsDiffer();
    var commit, commit';
    cs, s, s', commit, commit' := OlderSummaryStays(HELLO, MORE, AGAIN, "c1", "c2", "first", "second", o);
  }
}
