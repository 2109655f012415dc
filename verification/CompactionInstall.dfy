/**
 What an installed compaction shows. The checkpoint that a plan writes is always readable on the installed
 state, the two provider projections agree on it, and the tool protocol survives.
 */
module CompactionInstall {
  import opened Sequences
  import opened Identifiers
  import opened Transcript
  import opened RoundCut
  import opened ProviderMessage
  import opened ClaudeProjector
  import opened SnipRebase
  import opened Compaction

  // ---- Reading a checkpoint back ----

  lemma {:induction false} NormalizeExact(ids: seq<Id>, allowEmpty: bool)
    requires Distinct(ids) && (forall id | id in ids :: Exact(id)) && (ids != [] || allowEmpty)
    ensures NormalizeIds(ids, allowEmpty) == Ok(ids)
  {
    var normalized := seq(|ids|, i requires 0 <= i < |ids| => Trim(ids[i]));
    forall i | 0 <= i < |ids| ensures normalized[i] == ids[i] && ids[i] != "" {
      assert ids[i] in ids;
      ExactIffTrimmed(ids[i]);
    }
    assert normalized == ids;
  }

  lemma {:induction false} LookupOwn(rs: seq<Record>, part: seq<Record>)
    requires UniqueIds(rs) && forall r | r in part :: r in rs
    ensures Lookup(rs, Ids(part)) == part
  {
    if part != [] {
      var i := IndexOf(rs, part[0].id);
      assert part[0] in rs && part == [part[0]] + part[1..];
      assert i >= 0;
      assert rs[i] in rs;
      UniqueRecord(rs, rs[i], part[0]);
      assert Ids(part)[1..] == Ids(part[1..]);
      LookupOwn(rs, part[1..]);
    }
  }

  lemma {:induction false} ContinuationIsTail(a: seq<Record>, b: seq<Record>, excluded: seq<Id>)
    requires UniqueIds(a + b) && Members(excluded) !! IdSet(a + b)
    ensures Filter((r: Record) => Continues(r, Members(Ids(a)), Members(excluded)), a + b) == b
  {
    var p := (r: Record) => Continues(r, Members(Ids(a)), Members(excluded));
    IdsConcat(a, b);
    FilterConcat(p, a, b);
    forall r | r in a ensures !p(r) {
      IdsMember(a, r.id);
    }
    forall r | r in b ensures p(r) {
      IdsMember(a, r.id);
      assert r.id in IdSet(b);
    }
    FilterNone(p, a);
    FilterAll(p, b);
  }

  /** Base and continuation together are the whole transcript, in its own order. */
  lemma {:induction false} CandidatesAreAll(recipe: Recipe, rs: seq<Record>, n: nat)
    requires UniqueIds(rs) && Replays(recipe, rs, n)
    ensures Candidates(rs, recipe.ordered, recipe.excluded) == rs
  {
    var a, b := rs[..n], rs[n..];
    assert rs == a + b;
    LookupOwn(rs, a);
    ContinuationIsTail(a, b, recipe.excluded);
  }

  lemma {:induction false} ReplayHasNoFault(recipe: Recipe, rs: seq<Record>, n: nat)
    requires Replays(recipe, rs, n)
    ensures RecipeFault(rs, recipe, recipe.ordered, recipe.excluded).None?
    ensures forall id | id in recipe.ordered :: id in IdSet(rs)
  {
    forall id | id in recipe.ordered ensures id in IdSet(rs) && id !in recipe.excluded {
      IdsMember(rs[..n], id);
      var r :| r in rs[..n] && r.id == id;
      assert r in rs && r.id in IdSet(rs);
      assert id in recipe.excluded ==> id in Members(recipe.excluded);
    }
  }

  lemma {:induction false} ReplayIdsNormal(recipe: Recipe, rs: seq<Record>, n: nat)
    requires UniqueIds(rs) && (forall r | r in rs :: Exact(r.id)) && Replays(recipe, rs, n)
    ensures NormalizeIds(recipe.ordered, false) == Ok(recipe.ordered)
    ensures NormalizeIds(recipe.excluded, true) == Ok(recipe.excluded)
  {
    assert rs == rs[..n] + rs[n..];
    IdsConcat(rs[..n], rs[n..]);
    ReplayHasNoFault(recipe, rs, n);
    NormalizeExact(recipe.ordered, false);
    NormalizeExact(recipe.excluded, true);
  }

  /** A checkpoint that replays a transcript is accepted on it and selects exactly what is visible. */
  lemma {:induction false} ReplaySelects(recipe: Recipe, rs: seq<Record>, n: nat)
    requires UniqueIds(rs) && (forall r | r in rs :: Exact(r.id)) && Replays(recipe, rs, n)
    ensures var snipped := SnippedIds(rs);
            Select(rs, Some(recipe)) == Ok(Filter((r: Record) => Shown(r, snipped), rs))
  {
    ReplayIdsNormal(recipe, rs, n);
    ReplayHasNoFault(recipe, rs, n);
    CandidatesAreAll(recipe, rs, n);
  }

  // ---- The generic projection ----

  lemma {:induction false} GenericIds(rs: seq<Record>)
    ensures SourceIds(ProjectGenericAll(rs)) == Ids(Filter((r: Record) => !r.IsMarker(), rs))
  {
    var p := (r: Record) => !r.IsMarker();
    if rs != [] {
      GenericIds(rs[1..]);
      SourceIdsConcat(ProjectGeneric(rs[0]), ProjectGenericAll(rs[1..]));
      GenericId(rs[0]);
      IdsFirst(rs[0], Filter(p, rs[1..]));
    }
  }

  lemma {:induction false} IdsFirst(r: Record, rs: seq<Record>)
    ensures Ids([r] + rs) == [r.id] + Ids(rs)
  {
  }

  lemma {:induction false} GenericId(r: Record)
    ensures SourceIds(ProjectGeneric(r)) == if r.IsMarker() then [] else [r.id]
  {
    if !r.IsMarker() {
      assert ProjectGeneric(r)[1..] == [];
    }
  }

  /** Claude leaves out the rows kept for audit only, and rows it has no block for. */
  predicate ClaudeTakes(r: Record, o: Options) {
    !r.providerExcluded && !Emptied(r, o)
  }

  /**
   The two projections of a mounted context. The generic one lists the visible rows; the Claude one, replaying
   its checkpoint and continuing after it, lists the same rows in the same order, less those it cannot take.
   */
  lemma {:induction false} ViewsAgree(c: Context, o: Options)
    requires Mounted(c)
    ensures SourceIds(GenericView(c.records)) == Ids(Visible(c.records))
    ensures Select(c.records, c.checkpoint).Ok?
    ensures var selected := Select(c.records, c.checkpoint).value;
            SourceIds(ProjectAll(selected, o)) == Ids(Filter((r: Record) => ClaudeTakes(r, o), Visible(c.records)))
  {
    var rs, snipped := c.records, SnippedIds(c.records);
    MountedWindow(c);
    var kept := (r: Record) => r.id !in snipped;
    var visible := (r: Record) => !r.IsMarker() && r.id !in snipped;
    GenericIds(ActiveWindow(rs));
    FilterTwice((r: Record) => !r.IsMarker(), kept, visible, rs);
    if c.checkpoint.Some? {
      var n: nat :| Replays(c.checkpoint.value, rs, n);
      ReplaySelects(c.checkpoint.value, rs, n);
    }
    var shown := (r: Record) => Shown(r, snipped);
    var takes := (r: Record) => ClaudeTakes(r, o);
    var all := (r: Record) => !r.IsMarker() && r.id !in snipped && ClaudeTakes(r, o);
    ProjectAllIds(Filter(shown, rs), o);
    FilterTwice((r: Record) => Renders(r, o), shown, all, rs);
    FilterTwice(takes, visible, all, rs);
  }

  // ---- Identical views ----

  /** A provider that takes every block, with nothing replaced and nothing cleared. */
  predicate TakesEverything(o: Options) {
    o.supportsThinking && o.replacements == map[] && o.cleared == {}
  }

  lemma {:induction false} BlocksUnchanged(bs: seq<Block>, o: Options)
    requires TakesEverything(o)
    ensures ProjectBlocks(bs, o) == bs
  {
    if bs != [] {
      BlocksUnchanged(bs[1..], o);
    }
  }

  /** A row that both projections show: no row is an empty list of blocks, and none is hidden. */
  predicate Ordinary(r: Record) {
    && r.content != Blocks([]) && !r.providerExcluded && !r.IsMarker()
    && (r.kind.Message? || Neutral(r))
  }

  /** The Claude projection falls back to the provider's message id, the generic one does not. */
  predicate SameKey(r: Record) {
    if r.kind.Message? then r.messageId.Some? || r.providerMessageId.None? else r.ResponseKey().None?
  }

  lemma {:induction false} SameMessageIff(r: Record, o: Options)
    requires Ordinary(r) && TakesEverything(o)
    ensures Renders(r, o) && |ProjectGeneric(r)| == 1
    ensures ProjectGeneric(r) == [ProjectRecord(r, o).value] <==> SameKey(r)
    ensures TurnsOf(ProjectGeneric(r)) == TurnsOf([ProjectRecord(r, o).value])
  {
    if r.content.Blocks? {
      BlocksUnchanged(r.content.blocks, o);
    }
  }

  lemma {:induction false} JoinedTurns(a: seq<Projected>, b: seq<Projected>, c: seq<Projected>, d: seq<Projected>)
    requires TurnsOf(a) == TurnsOf(c) && TurnsOf(b) == TurnsOf(d)
    ensures TurnsOf(a + b) == TurnsOf(c + d)
  {
    assert TurnsOf(a + b) == TurnsOf(a) + TurnsOf(b) && TurnsOf(c + d) == TurnsOf(c) + TurnsOf(d);
  }

  lemma {:induction false} JoinedEqual<T>(a: T, b: seq<T>, c: T, d: seq<T>)
    ensures [a] + b == [c] + d <==> a == c && b == d
  {
    if [a] + b == [c] + d {
      assert a == ([a] + b)[0] && b == ([a] + b)[1..] && c == ([c] + d)[0] && d == ([c] + d)[1..];
    }
  }

  /** The two projections of rows have the same turns, and are the same if and only if every row has the same key. */
  lemma {:induction false} SameMessagesIff(rs: seq<Record>, o: Options)
    requires TakesEverything(o) && forall r | r in rs :: Ordinary(r)
    ensures TurnsOf(ProjectAll(rs, o)) == TurnsOf(ProjectGenericAll(rs))
    ensures ProjectAll(rs, o) == ProjectGenericAll(rs) <==> forall r | r in rs :: SameKey(r)
  {
    if rs != [] {
      assert rs == [rs[0]] + rs[1..];
      SameMessageIff(rs[0], o);
      SameMessagesIff(rs[1..], o);
      var claude, generic := ProjectRecord(rs[0], o).value, ProjectGeneric(rs[0])[0];
      assert ProjectGeneric(rs[0]) == [generic];
      JoinedTurns([claude], ProjectAll(rs[1..], o), [generic], ProjectGenericAll(rs[1..]));
      JoinedEqual(claude, ProjectAll(rs[1..], o), generic, ProjectGenericAll(rs[1..]));
    }
  }

  lemma {:induction false} MarkersProjectNothing(rs: seq<Record>)
    ensures ProjectGenericAll(rs) == ProjectGenericAll(Filter((r: Record) => !r.IsMarker(), rs))
  {
    if rs != [] {
      MarkersProjectNothing(rs[1..]);
    }
  }

  lemma {:induction false} GenericViewIs(c: Context)
    requires Mounted(c)
    ensures GenericView(c.records) == ProjectGenericAll(Visible(c.records))
  {
    var rs, snipped := c.records, SnippedIds(c.records);
    MountedWindow(c);
    MarkersProjectNothing(ActiveWindow(rs));
    FilterTwice((r: Record) => !r.IsMarker(), (r: Record) => r.id !in snipped,
                (r: Record) => !r.IsMarker() && r.id !in snipped, rs);
  }

  // ---- The installed layout ----

  /** The rows of a compact layout, by the part they play. */
  datatype Layout = Layout(mode: Mode, boundary: Record, summary: Record, retained: seq<Record>, trailing: seq<Record>) {
    function Rows(): seq<Record> {
      OrderProjection(mode, boundary, summary, retained, trailing)
    }

    /** What the layout shows: the summary in its place, the retained rows, and the new rows. */
    function View(): seq<Record> {
      if mode.From? then retained + [summary] + trailing else [summary] + retained + trailing
    }

    /** The rows that the compaction itself writes. */
    predicate Adds(r: Record) {
      r == boundary || r == summary || r in trailing
    }

    predicate Has(r: Record) {
      Adds(r) || r in retained
    }
  }

  /** New rows are plain, exact and unknown to the transcript; retained rows are its visible source rows. */
  ghost predicate Sound(rs: seq<Record>, l: Layout) {
    && l.boundary.kind.CompactBoundary? && l.summary.kind.CompactSummary?
    && (forall r | r in l.trailing :: r.kind.Attachment? || r.kind.HookResult?)
    && (forall r | r in l.retained :: r in rs && IsSource(r) && r.id !in SnippedIds(rs))
    && (forall r | l.Adds(r) ::
          Exact(r.id) && Neutral(r) && !r.providerExcluded && r.id !in IdSet(rs) && r.id !in SnippedIds(rs))
  }

  /** `ordered` is the layout with the Snips of `rs` replayed into it. */
  ghost predicate Laid(rs: seq<Record>, l: Layout, ordered: seq<Record>) {
    && UniqueIds(ordered) && ordered != [] && ordered[0] == l.boundary
    && Filter(NotSnip, ordered) == l.Rows()
    && SnippedIds(ordered) == SnippedIds(rs)
    && (forall r: Record :: r in ordered <==> l.Has(r) || (r in rs && r.kind.SnipBoundary?))
  }

  function LayoutOf(c: Context, candidate: Candidate, summary: string, extras: Extras): Layout
    requires candidate.archived != []
  {
    var commit := PlannedCommit(c, candidate, summary);
    Layout(candidate.mode, BoundaryRecord(commit), SummaryRecord(commit), candidate.retained, extras.All())
  }

  lemma {:induction false} RowsMembers(l: Layout, r: Record)
    ensures r in l.Rows() <==> l.Has(r)
  {
  }

  lemma {:induction false} PlanIsSound(c: Context, candidate: Candidate, summary: string, extras: Extras)
    requires Mounted(c) && FromSource(c, candidate) && FreshExtras(c, candidate.commitId, extras)
    ensures Sound(c.records, LayoutOf(c, candidate, summary, extras))
  {
    SidesOfCandidate(c, candidate);
  }

  lemma {:induction false} SameSnips(rs: seq<Record>, ordered: seq<Record>)
    requires forall r: Record | r.kind.SnipBoundary? :: r in ordered <==> r in rs
    ensures SnippedIds(ordered) == SnippedIds(rs)
  {
  }

  /** For every candidate the rebase succeeds and yields the laid-out transcript. */
  lemma {:induction false} PlanIsLaid(c: Context, candidate: Candidate, summary: string, extras: Extras)
    returns (ordered: seq<Record>)
    requires Mounted(c) && FromSource(c, candidate) && FreshExtras(c, candidate.commitId, extras)
    ensures Rebase(c.records, CompactProjection(c, candidate, summary, extras), candidate.retained) == Ok(ordered)
    ensures Laid(c.records, LayoutOf(c, candidate, summary, extras), ordered)
    ensures Filter(Shared(GraphIds(candidate.retained)), ordered)
         == Filter(Shared(GraphIds(candidate.retained)), c.records)
  {
    var projection, l := CompactProjection(c, candidate, summary, extras), LayoutOf(c, candidate, summary, extras);
    assert projection == l.Rows();
    PlannerFeedsRebase(c, candidate, summary, extras);
    RebaseIsMerge(c.records, projection, candidate.retained);
    PlanIsSound(c, candidate, summary, extras);
    ordered := Rebase(c.records, projection, candidate.retained).value;
    LaidMembers(c.records, l, ordered);
    SameSnips(c.records, ordered);
    HeadOfProjection(c.records, l, ordered);
  }

  lemma {:induction false} LaidMembers(rs: seq<Record>, l: Layout, ordered: seq<Record>)
    requires Sound(rs, l) && Filter(NotSnip, ordered) == l.Rows()
    requires Filter(Shared(GraphIds(l.retained)), ordered) == Filter(Shared(GraphIds(l.retained)), rs)
    ensures forall r: Record :: r in ordered <==> l.Has(r) || (r in rs && r.kind.SnipBoundary?)
    ensures forall r: Record | r.kind.SnipBoundary? :: r in ordered <==> r in rs
  {
    var kept := GraphIds(l.retained);
    FilterMembers(NotSnip, ordered);
    FilterMembers(Shared(kept), ordered);
    FilterMembers(Shared(kept), rs);
    forall r: Record ensures r in ordered <==> l.Has(r) || (r in rs && r.kind.SnipBoundary?) {
      RowsMembers(l, r);
      assert r.kind.SnipBoundary? ==> Shared(kept)(r) && !l.Has(r);
    }
  }

  lemma {:induction false} HeadOfProjection(rs: seq<Record>, l: Layout, ordered: seq<Record>)
    requires Sound(rs, l) && Rebase(rs, l.Rows(), l.retained) == Ok(ordered)
    ensures ordered != [] && ordered[0] == l.boundary
  {
    assert GraphIds(l.retained) <= IdSet(rs);
    assert l.Rows()[0] == l.boundary;
    assert l.Adds(l.boundary);
    RebaseKeepsHead(rs, GraphIds(l.retained), l.Rows(), IdSet(l.Rows()));
  }

  /** The installed transcript shows the layout's view. */
  lemma {:induction false} LaidView(rs: seq<Record>, l: Layout, ordered: seq<Record>)
    requires Sound(rs, l) && Laid(rs, l, ordered)
    ensures Visible(ordered) == l.View()
  {
    var snipped := SnippedIds(ordered);
    var visible := (r: Record) => !r.IsMarker() && r.id !in snipped;
    FilterTwice(visible, NotSnip, visible, ordered);
    assert l.Rows() == [l.boundary] + l.View();
    FilterConcat(visible, [l.boundary], l.View());
    FilterNone(visible, [l.boundary]);
    ViewIsVisible(rs, l);
    FilterAll(visible, l.View());
  }

  lemma {:induction false} ViewIsVisible(rs: seq<Record>, l: Layout)
    requires Sound(rs, l)
    ensures forall r | r in l.View() :: !r.IsMarker() && r.id !in SnippedIds(rs)
  {
    forall r | r in l.View() ensures !r.IsMarker() && r.id !in SnippedIds(rs) {
      assert l.Adds(r) || r in l.retained;
    }
  }
}
