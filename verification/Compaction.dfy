/**
 A compaction, from the candidate around a pivot to the transcript that replaces the old one: what is
 archived, how the new layout is ordered, which checkpoint is written, and what the installed state shows.
 */
module Compaction {
  import opened Sequences
  import opened Identifiers
  import opened Transcript
  import opened RoundCut
  import opened ToolGate
  import opened ProviderMessage
  import opened ClaudeProjector
  import opened SnipRebase

  /** The part of a conversation's context state that compaction reads and replaces. */
  datatype Context = Context(
    records: seq<Record>,
    epoch: nat,
    active: Option<Id>,
    history: seq<Commit>,
    checkpoint: Option<Recipe>)

  const EMPTY := Context([], 0, None, [], None)

  // ---- The candidate ----

  predicate IsSource(r: Record) {
    r.kind.Message? || r.kind.CompactSummary?
  }

  /** The rows of the active window that a compaction accounts for. */
  function SourceRecords(rs: seq<Record>): seq<Record> {
    Filter(IsSource, ActiveWindow(rs))
  }

  predicate HasMessage(rs: seq<Record>) {
    exists r | r in rs :: r.kind.Message?
  }

  datatype Candidate = Candidate(mode: Mode, commitId: Id, nextEpoch: nat, archived: seq<Record>, retained: seq<Record>)

  /**
   A split is offered if it archives some message; a full compaction needs more than one row, a partial one needs
   both sides to pass the global tool-integrity gate.
   */
  predicate Offers(source: seq<Record>, mode: Mode, split: Option<Split>) {
    && split.Some? && HasMessage(split.value.archived)
    && if mode.Full? then |source| > 1
       else GlobalIntegrity(split.value.archived) && GlobalIntegrity(split.value.retained)
  }

  /** What a source offers for a mode and a cut pivot, `None` standing for the refusal. */
  function OfferAt(
      source: seq<Record>, mode: Mode, pivotId: Option<Id>, commitId: Id, cut: nat, epoch: nat)
    : Option<Candidate>
  {
    var split := SplitAt(source, mode, pivotId, cut);
    if Offers(source, mode, split)
    then Some(Candidate(mode, commitId, epoch, split.value.archived, split.value.retained))
    else None
  }

  /** What a context offers for a mode and a pivot that was moved to `cut`. */
  function Offer(c: Context, mode: Mode, pivotId: Option<Id>, commitId: Id, cut: nat): Option<Candidate> {
    OfferAt(SourceRecords(c.records), mode, pivotId, commitId, cut, c.epoch + 1)
  }

  /** The candidate that a context offers for a mode and pivot. */
  ghost predicate IsCandidate(
      c: Context, mode: Mode, pivotId: Option<Id>, commitId: Id, cut: nat, candidate: Option<Candidate>)
  {
    IsCut(SourceRecords(c.records), mode, pivotId, cut) && candidate == Offer(c, mode, pivotId, commitId, cut)
  }

  // ---- The plan ----

  function BoundaryRecord(commit: Commit): Record {
    Record("compact_boundary_" + commit.id, User, CompactBoundary(Some(commit)),
           Text("[Context boundary " + commit.id + "]", []), None, None, None, false)
  }

  function SummaryRecord(commit: Commit): Record {
    Record("compact_summary_" + commit.id, User, CompactSummary(Some(commit)),
           Text(commit.summary, []), None, None, None, false)
  }

  function OrderProjection(
      mode: Mode, boundary: Record, summary: Record, retained: seq<Record>, trailing: seq<Record>): seq<Record>
  {
    if mode.From? then [boundary] + retained + [summary] + trailing
    else [boundary, summary] + retained + trailing
  }

  function Preserved(ordered: seq<Record>): Option<Segment> {
    var messages := Filter((r: Record) => r.kind.Message?, ordered);
    if messages == [] then None
    else
      var linked := Filter((r: Record) => r.logicalParent.Some?, messages);
      Some(Segment(messages[0].id, if linked == [] then messages[0].id else linked[0].id, messages[|messages| - 1].id))
  }

  function BuildRecipe(
      commit: Commit, ordered: seq<Record>, archived: seq<Record>, attachments: seq<Record>, hooks: seq<Record>): Recipe
  {
    Recipe(commit.id, BoundaryRecord(commit).id, SummaryRecord(commit).id, Ids(ordered), Ids(attachments), Ids(hooks),
           Ids(archived), Preserved(ordered))
  }

  /** The attachment and hook rows that a plan creates, with the ids minted for them. */
  datatype Extras = Extras(attachments: seq<Record>, hooks: seq<Record>) {
    function All(): seq<Record> { attachments + hooks }
  }

  datatype PlanError = RebaseFailed(rebase: RebaseError) | ProjectionFailed(projection: ProjectionError)

  datatype Plan = Plan(commit: Commit, ordered: seq<Record>, recipe: Option<Recipe>, view: seq<Projected>)

  function PlannedCommit(c: Context, candidate: Candidate, summary: string): Commit
    requires candidate.archived != []
  {
    Commit(candidate.commitId, candidate.nextEpoch, c.active,
           candidate.archived[|candidate.archived| - 1].id, summary)
  }

  function CompactProjection(c: Context, candidate: Candidate, summary: string, extras: Extras): seq<Record>
    requires candidate.archived != []
  {
    var commit := PlannedCommit(c, candidate, summary);
    OrderProjection(candidate.mode, BoundaryRecord(commit), SummaryRecord(commit), candidate.retained, extras.All())
  }

  /** The plan, its view projected from a simulated install. Only for the Claude family there is a recipe. */
  function BuildPlan(c: Context, candidate: Candidate, summary: string, extras: Extras, o: Options)
    : Result<Plan, PlanError>
    requires candidate.archived != []
  {
    var commit := PlannedCommit(c, candidate, summary);
    match Rebase(c.records, CompactProjection(c, candidate, summary, extras), candidate.retained)
    case Err(e) => Err(RebaseFailed(e))
    case Ok(ordered) =>
      if !o.claude then Ok(Plan(commit, ordered, None, GenericView(ordered)))
      else
        var recipe := BuildRecipe(commit, ordered, candidate.archived, extras.attachments, extras.hooks);
        match Project(ordered, Some(recipe), o)
        case Err(e) => Err(ProjectionFailed(e))
        case Ok(view) => Ok(Plan(commit, ordered, Some(recipe), view))
  }

  function Install(plan: Plan): Context {
    Context(plan.ordered, plan.commit.epoch, Some(plan.commit.id), History(plan.ordered), plan.recipe)
  }

  // ---- The invariant of a mounted context ----

  predicate Carrier(rs: seq<Record>, active: Option<Id>, epoch: nat) {
    if active.None? then epoch == 0 && forall r | r in rs :: !r.kind.CompactBoundary?
    else
      && rs != [] && rs[0].kind.CompactBoundary? && rs[0].kind.commit.Some?
      && rs[0].kind.commit.value.id == active.value && rs[0].kind.commit.value.epoch == epoch > 0
      && forall k | 0 < k < |rs| :: !rs[k].kind.CompactBoundary?
  }

  /** The checkpoint lists a prefix of the transcript that holds all it needs, and archives only what is gone. */
  ghost predicate Replays(recipe: Recipe, rs: seq<Record>, n: nat) {
    && 0 < n <= |rs|
    && recipe.ordered == Ids(rs[..n])
    && Required(recipe) <= Members(recipe.ordered)
    && Distinct(recipe.excluded) && (forall id | id in recipe.excluded :: Exact(id))
    && Members(recipe.excluded) !! IdSet(rs)
    && (forall r | r in rs && r.id in Required(recipe) :: !r.providerExcluded)
  }

  ghost predicate Mounted(c: Context) {
    && UniqueIds(c.records)
    && (forall r | r in c.records :: Exact(r.id))
    && (forall r | r in c.records && !r.kind.Message? :: !r.providerExcluded && Neutral(r))
    && Carrier(c.records, c.active, c.epoch)
    && c.history == History(c.records)
    && (c.active.None? ==> c.checkpoint.None?)
    && (c.checkpoint.Some? ==> exists n: nat :: Replays(c.checkpoint.value, c.records, n))
  }

  /** An id that nothing in the context knows yet. */
  predicate FreshId(c: Context, id: Id) {
    && Exact(id) && id !in IdSet(c.records) && id !in SnippedIds(c.records)
    && (c.checkpoint.Some? ==> id !in c.checkpoint.value.excluded)
  }

  lemma {:induction false} CarrierWindow(rs: seq<Record>, active: Option<Id>, epoch: nat)
    requires Carrier(rs, active, epoch)
    ensures AfterBoundary(rs) == rs
    ensures active.None? ==> History(rs) == [] && ActiveCommit(rs) == None
    ensures active.Some? ==> History(rs) == [rs[0].kind.commit.value] && ActiveCommit(rs) == rs[0].kind.commit
  {
    if active.None? {
      NoBoundary(rs);
    } else {
      var commit := rs[0].kind.commit.value;
      assert rs[0].kind == CompactBoundary(Some(commit));
      LeadingBoundary(rs, commit);
    }
  }

  lemma {:induction false} MountedWindow(c: Context)
    requires Mounted(c)
    ensures AfterBoundary(c.records) == c.records
  {
    CarrierWindow(c.records, c.active, c.epoch);
  }

  /** What both projections start from: the rows that are neither markers nor snipped. */
  function Visible(rs: seq<Record>): seq<Record> {
    var snipped := SnippedIds(rs);
    Filter((r: Record) => !r.IsMarker() && r.id !in snipped, rs)
  }

  lemma {:induction false} SourceIsVisibleSource(c: Context)
    requires Mounted(c)
    ensures SourceRecords(c.records) == Filter(IsSource, Visible(c.records))
  {
    MountedWindow(c);
    SourceOfVisible(c.records, SnippedIds(c.records));
  }

  lemma {:induction false} SourceOfVisible(rs: seq<Record>, snipped: set<Id>)
    ensures Filter(IsSource, Filter((r: Record) => r.id !in snipped, rs)) ==
            Filter(IsSource, Filter((r: Record) => !r.IsMarker() && r.id !in snipped, rs))
  {
    var both := (r: Record) => IsSource(r) && r.id !in snipped;
    FilterTwice(IsSource, (r: Record) => r.id !in snipped, both, rs);
    FilterTwice(IsSource, (r: Record) => !r.IsMarker() && r.id !in snipped, both, rs);
  }

  // ---- What the planner feeds the rebase ----

  /** The rows a plan creates are new, pairwise different, and are user text of their own kinds. */
  ghost predicate FreshExtras(c: Context, commitId: Id, extras: Extras) {
    && FreshId(c, "compact_boundary_" + commitId) && FreshId(c, "compact_summary_" + commitId)
    && UniqueIds(extras.All())
    && (forall r | r in extras.All() ::
          && FreshId(c, r.id) && r.id != "compact_boundary_" + commitId && r.id != "compact_summary_" + commitId
          && Neutral(r) && !r.providerExcluded)
    && (forall r | r in extras.attachments :: r.kind.Attachment?)
    && (forall r | r in extras.hooks :: r.kind.HookResult?)
  }

  predicate Neutral(r: Record) {
    r.role.User? && r.content.Text?
  }

  /** A candidate's two sides are the two sides of the current source. */
  ghost predicate FromSource(c: Context, candidate: Candidate) {
    && candidate.archived != []
    && candidate.nextEpoch == c.epoch + 1
    && SourceRecords(c.records) ==
       if candidate.mode.From? then candidate.retained + candidate.archived else candidate.archived + candidate.retained
  }

  lemma {:induction false} CandidateFromSource(
      c: Context, mode: Mode, pivotId: Option<Id>, commitId: Id, cut: nat, candidate: Option<Candidate>)
    requires IsCandidate(c, mode, pivotId, commitId, cut, candidate) && candidate.Some?
    ensures FromSource(c, candidate.value)
  {
    SplitSides(SourceRecords(c.records), mode, pivotId, cut);
  }

  /** Where the rows stand: the summary takes exactly the place of what is archived, and the new rows come last. */
  lemma {:induction false} SummaryTakesPlace(c: Context, candidate: Candidate, summary: string, extras: Extras)
    returns (before: seq<Record>, after: seq<Record>)
    requires FromSource(c, candidate)
    ensures SourceRecords(c.records) == before + candidate.archived + after
    ensures var commit := PlannedCommit(c, candidate, summary);
            CompactProjection(c, candidate, summary, extras) ==
            [BoundaryRecord(commit)] + before + [SummaryRecord(commit)] + after + extras.All()
  {
    var commit := PlannedCommit(c, candidate, summary);
    before := if candidate.mode.From? then candidate.retained else [];
    after := if candidate.mode.From? then [] else candidate.retained;
    LayoutPlaces(candidate.mode, BoundaryRecord(commit), SummaryRecord(commit), before, after, extras.All());
    if candidate.mode.From? {
      assert before + after == candidate.retained;
      assert before + candidate.archived + after == candidate.retained + candidate.archived;
    } else {
      assert before + after == candidate.retained;
      assert before + candidate.archived + after == candidate.archived + candidate.retained;
    }
  }

  lemma {:induction false} LayoutPlaces(
      mode: Mode, b: Record, s: Record, before: seq<Record>, after: seq<Record>, trailing: seq<Record>)
    requires if mode.From? then after == [] else before == []
    ensures OrderProjection(mode, b, s, before + after, trailing) == [b] + before + [s] + after + trailing
  {
  }

  lemma {:induction false} SourceMembers(c: Context, r: Record)
    requires Mounted(c)
    ensures r in SourceRecords(c.records) <==> r in c.records && IsSource(r) && r.id !in SnippedIds(c.records)
  {
    MountedWindow(c);
    ActiveMembers(c.records, r);
    FilterMember(IsSource, ActiveWindow(c.records), r);
  }

  lemma {:induction false} ActiveMembers(rs: seq<Record>, r: Record)
    requires AfterBoundary(rs) == rs
    ensures r in ActiveWindow(rs) <==> r in rs && r.id !in SnippedIds(rs)
  {
    var snipped := SnippedIds(rs);
    FilterMember((x: Record) => x.id !in snipped, rs, r);
  }

  lemma {:induction false} SourceUnique(c: Context)
    requires Mounted(c)
    ensures UniqueIds(SourceRecords(c.records))
  {
    MountedWindow(c);
    var snipped := SnippedIds(c.records);
    FilterUnique((r: Record) => r.id !in snipped, c.records);
    FilterUnique(IsSource, ActiveWindow(c.records));
  }

  /** Both sides are unique, disjoint, and made of visible source rows of the transcript. */
  lemma {:induction false} SidesOfCandidate(c: Context, candidate: Candidate)
    requires Mounted(c) && FromSource(c, candidate)
    ensures UniqueIds(candidate.archived) && UniqueIds(candidate.retained)
    ensures IdSet(candidate.archived) !! IdSet(candidate.retained)
    ensures forall r | r in candidate.archived || r in candidate.retained ::
              r in c.records && IsSource(r) && r.id !in SnippedIds(c.records)
  {
    SourceUnique(c);
    IdsConcat(candidate.archived, candidate.retained);
    IdsConcat(candidate.retained, candidate.archived);
    forall r | r in candidate.archived || r in candidate.retained
      ensures r in c.records && IsSource(r) && r.id !in SnippedIds(c.records)
    {
      assert r in SourceRecords(c.records);
      SourceMembers(c, r);
    }
  }

  /** The retained graph messages keep their canonical order. */
  lemma {:induction false} RetainedInOrder(c: Context, candidate: Candidate)
    requires Mounted(c) && FromSource(c, candidate)
    ensures var kept := GraphIds(candidate.retained);
            && Filter(Retained(kept), c.records) == Filter(Retained(kept), candidate.retained)
            && Filter(Retained(kept), candidate.archived) == []
  {
    SidesOfCandidate(c, candidate);
    MountedWindow(c);
    var kept, snipped, rs := GraphIds(candidate.retained), SnippedIds(c.records), c.records;
    var notSnipped := (r: Record) => r.id !in snipped;
    forall r | r in rs ensures Retained(kept)(r) ==> IsSource(r) && notSnipped(r) {
      if IsRetained(r, kept) {
        var x :| x in candidate.retained && x.kind.Message? && x.id == r.id;
        UniqueRecord(rs, x, r);
      }
    }
    FilterTwice(Retained(kept), notSnipped, Retained(kept), rs);
    FilterMembers(notSnipped, rs);
    FilterTwice(Retained(kept), IsSource, Retained(kept), ActiveWindow(rs));
    assert Filter(Retained(kept), SourceRecords(rs)) == Filter(Retained(kept), rs);
    FilterConcat(Retained(kept), candidate.archived, candidate.retained);
    FilterConcat(Retained(kept), candidate.retained, candidate.archived);
    forall r | r in candidate.archived ensures !Retained(kept)(r) {
      assert r.id in IdSet(candidate.archived);
      assert r.id in kept ==> r.id in IdSet(candidate.retained);
    }
    FilterNone(Retained(kept), candidate.archived);
  }

  lemma {:induction false} BoundaryAndSummaryDiffer(commitId: Id)
    ensures "compact_boundary_" + commitId != "compact_summary_" + commitId
  {
    assert ("compact_boundary_" + commitId)[8] == 'b' && ("compact_summary_" + commitId)[8] == 's';
  }

  lemma {:induction false} UniqueLayout(mode: Mode, b: Record, s: Record, kept: seq<Record>, trailing: seq<Record>)
    requires UniqueIds(kept) && UniqueIds(trailing) && b.id != s.id
    requires b.id !in IdSet(kept) + IdSet(trailing) && s.id !in IdSet(kept) + IdSet(trailing)
    requires IdSet(kept) !! IdSet(trailing)
    ensures var projection := OrderProjection(mode, b, s, kept, trailing);
            UniqueIds(projection) && IdSet(projection) == {b.id, s.id} + IdSet(kept) + IdSet(trailing)
  {
    if mode.From? {
      UniqueAround(b, s, kept);
      IdsConcat([b] + kept + [s], trailing);
    } else {
      UniqueBefore(b, s, kept);
      IdsConcat([b, s] + kept, trailing);
    }
  }

  lemma {:induction false} UniqueAround(b: Record, s: Record, kept: seq<Record>)
    requires UniqueIds(kept) && b.id != s.id && b.id !in IdSet(kept) && s.id !in IdSet(kept)
    ensures UniqueIds([b] + kept + [s]) && IdSet([b] + kept + [s]) == {b.id, s.id} + IdSet(kept)
  {
    OneUnique(b);
    OneUnique(s);
    IdsConcat([b], kept);
    IdsConcat([b] + kept, [s]);
  }

  lemma {:induction false} UniqueBefore(b: Record, s: Record, kept: seq<Record>)
    requires UniqueIds(kept) && b.id != s.id && b.id !in IdSet(kept) && s.id !in IdSet(kept)
    ensures UniqueIds([b, s] + kept) && IdSet([b, s] + kept) == {b.id, s.id} + IdSet(kept)
  {
    OneUnique(b);
    OneUnique(s);
    IdsConcat([b], [s]);
    assert [b, s] == [b] + [s];
    IdsConcat([b, s], kept);
  }

  lemma {:induction false} OneUnique(r: Record)
    ensures UniqueIds([r]) && IdSet([r]) == {r.id}
  {
  }

  lemma {:induction false} ProjectionUnique(c: Context, candidate: Candidate, summary: string, extras: Extras)
    requires Mounted(c) && FromSource(c, candidate) && FreshExtras(c, candidate.commitId, extras)
    ensures var projection := CompactProjection(c, candidate, summary, extras);
            && UniqueIds(projection)
            && IdSet(projection) == {"compact_boundary_" + candidate.commitId, "compact_summary_" + candidate.commitId}
                                    + IdSet(candidate.retained) + IdSet(extras.All())
  {
    SidesOfCandidate(c, candidate);
    BoundaryAndSummaryDiffer(candidate.commitId);
    assert IdSet(candidate.retained) <= IdSet(c.records);
    assert IdSet(extras.All()) !! IdSet(c.records);
    var commit := PlannedCommit(c, candidate, summary);
    UniqueLayout(candidate.mode, BoundaryRecord(commit), SummaryRecord(commit), candidate.retained, extras.All());
  }

  lemma {:induction false} ProjectionKeepsGraph(c: Context, candidate: Candidate, summary: string, extras: Extras)
    requires FreshExtras(c, candidate.commitId, extras) && candidate.archived != []
    ensures var kept := GraphIds(candidate.retained);
            Filter(Retained(kept), CompactProjection(c, candidate, summary, extras)) ==
            Filter(Retained(kept), candidate.retained)
  {
    var p := Retained(GraphIds(candidate.retained));
    var commit := PlannedCommit(c, candidate, summary);
    var b, s, kept, trailing := BoundaryRecord(commit), SummaryRecord(commit), candidate.retained, extras.All();
    FilterNone(p, trailing);
    FilterNone(p, [b]);
    FilterNone(p, [s]);
    FilterNone(p, [b, s]);
    if candidate.mode.From? {
      FilterConcat(p, [b] + kept + [s], trailing);
      FilterConcat(p, [b] + kept, [s]);
      FilterConcat(p, [b], kept);
    } else {
      FilterConcat(p, [b, s] + kept, trailing);
      FilterConcat(p, [b, s], kept);
    }
  }

  /** No Snip shares its id with a row of the projection. */
  lemma {:induction false} SnipIdsFree(c: Context, candidate: Candidate, summary: string, extras: Extras, snip: Record)
    requires Mounted(c) && FromSource(c, candidate) && FreshExtras(c, candidate.commitId, extras)
    requires snip in c.records && snip.kind.SnipBoundary?
    ensures snip.id !in IdSet(CompactProjection(c, candidate, summary, extras))
  {
    SnipIdNotRetained(c, candidate, snip);
    ProjectionUnique(c, candidate, summary, extras);
    assert snip.id in IdSet(c.records);
  }

  lemma {:induction false} SnipIdNotRetained(c: Context, candidate: Candidate, snip: Record)
    requires Mounted(c) && FromSource(c, candidate) && snip in c.records && snip.kind.SnipBoundary?
    ensures snip.id !in IdSet(candidate.retained)
  {
    SidesOfCandidate(c, candidate);
    if snip.id in IdSet(candidate.retained) {
      var x :| x in candidate.retained && x.id == snip.id;
      UniqueRecord(c.records, x, snip);
    }
  }

  /** The rebase never fails on a planner's input: its error branches cannot be reached from here. */
  lemma {:induction false} PlannerFeedsRebase(c: Context, candidate: Candidate, summary: string, extras: Extras)
    requires Mounted(c) && FromSource(c, candidate) && FreshExtras(c, candidate.commitId, extras)
    ensures var projection := CompactProjection(c, candidate, summary, extras);
            && PlannerInput(c.records, projection, GraphIds(candidate.retained))
            && Rebase(c.records, projection, candidate.retained).Ok?
  {
    var projection := CompactProjection(c, candidate, summary, extras);
    ProjectionUnique(c, candidate, summary, extras);
    ProjectionKeepsGraph(c, candidate, summary, extras);
    RetainedInOrder(c, candidate);
    forall r | r in c.records && r.kind.SnipBoundary? ensures r.id !in IdSet(projection) {
      SnipIdsFree(c, candidate, summary, extras, r);
    }
    forall r | r in projection ensures !r.kind.SnipBoundary? {
      NoSnipInProjection(c, candidate, summary, extras, r);
    }
    RebaseIsMerge(c.records, projection, candidate.retained);
  }

  lemma {:induction false} LayoutMembers(
      mode: Mode, b: Record, s: Record, kept: seq<Record>, trailing: seq<Record>, r: Record)
    ensures r in OrderProjection(mode, b, s, kept, trailing) <==> r == b || r == s || r in kept || r in trailing
  {
  }

  lemma {:induction false} NoSnipInProjection(
      c: Context, candidate: Candidate, summary: string, extras: Extras, r: Record)
    requires Mounted(c) && FromSource(c, candidate) && FreshExtras(c, candidate.commitId, extras)
    requires r in CompactProjection(c, candidate, summary, extras)
    ensures !r.kind.SnipBoundary?
    ensures r.kind.CompactBoundary? ==> r == BoundaryRecord(PlannedCommit(c, candidate, summary))
  {
    SidesOfCandidate(c, candidate);
    var commit := PlannedCommit(c, candidate, summary);
    LayoutMembers(candidate.mode, BoundaryRecord(commit), SummaryRecord(commit), candidate.retained, extras.All(), r);
  }
}
