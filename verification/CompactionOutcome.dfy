/**
 When a compaction plan is accepted, what it then shows, and that installing it keeps the context mounted.
 */
module CompactionOutcome {
  import opened Sequences
  import opened Identifiers
  import opened Transcript
  import opened ToolProtocol
  import opened ProviderMessage
  import opened ClaudeProjector
  import opened SnipRebase
  import opened Compaction
  import opened CompactionInstall

  predicate IsMessage(r: Record) {
    r.kind.Message?
  }

  function SegmentIds(segment: Option<Segment>): set<Id> {
    match segment
    case None => {}
    case Some(s) => {s.head, s.anchor, s.tail}
  }

  /** The checkpoint's anchors are rows that a provider may see. */
  predicate SegmentShown(retained: seq<Record>) {
    forall r | r in retained && r.id in SegmentIds(Preserved(retained)) :: !r.providerExcluded
  }

  lemma {:induction false} SegmentInMessages(rs: seq<Record>)
    ensures SegmentIds(Preserved(rs)) <= IdSet(Filter(IsMessage, rs))
  {
    var p := (r: Record) => r.kind.Message?;
    FilterAgree(IsMessage, p, rs);
    var messages := Filter(p, rs);
    if messages != [] {
      FilterMembers((r: Record) => r.logicalParent.Some?, messages);
      var linked := Filter((r: Record) => r.logicalParent.Some?, messages);
      if linked != [] {
        assert linked[0] in linked;
      }
      assert messages[0] in messages && messages[|messages| - 1] in messages;
    }
  }

  lemma {:induction false} RowsMessages(l: Layout)
    requires !IsMessage(l.boundary) && !IsMessage(l.summary) && forall r | r in l.trailing :: !IsMessage(r)
    ensures Filter(IsMessage, l.Rows()) == Filter(IsMessage, l.retained)
  {
    var b, s, kept, trailing := l.boundary, l.summary, l.retained, l.trailing;
    FilterNone(IsMessage, trailing);
    FilterNone(IsMessage, [b]);
    FilterNone(IsMessage, [s]);
    FilterNone(IsMessage, [b, s]);
    if l.mode.From? {
      FilterConcat(IsMessage, [b] + kept + [s], trailing);
      FilterConcat(IsMessage, [b] + kept, [s]);
      FilterConcat(IsMessage, [b], kept);
    } else {
      FilterConcat(IsMessage, [b, s] + kept, trailing);
      FilterConcat(IsMessage, [b, s], kept);
    }
  }

  /** The graph messages of the new transcript are exactly the retained ones, in order. */
  lemma {:induction false} LaidMessages(rs: seq<Record>, l: Layout, ordered: seq<Record>)
    requires Sound(rs, l) && Laid(rs, l, ordered)
    ensures Filter(IsMessage, ordered) == Filter(IsMessage, l.retained)
    ensures Preserved(ordered) == Preserved(l.retained)
  {
    FilterTwice(IsMessage, NotSnip, IsMessage, ordered);
    RowsMessages(l);
    SameSegment(ordered, l.retained);
  }

  lemma {:induction false} SameSegment(a: seq<Record>, b: seq<Record>)
    requires Filter(IsMessage, a) == Filter(IsMessage, b)
    ensures Preserved(a) == Preserved(b)
  {
    var p := (r: Record) => r.kind.Message?;
    FilterAgree(IsMessage, p, a);
    FilterAgree(IsMessage, p, b);
  }

  // ---- The checkpoint of a layout ----

  ghost predicate IsCheckpoint(recipe: Recipe, l: Layout, ordered: seq<Record>, archived: seq<Record>) {
    && recipe.boundaryId == l.boundary.id && recipe.summaryId == l.summary.id
    && recipe.ordered == Ids(ordered) && recipe.excluded == Ids(archived)
    && Members(recipe.attachments) + Members(recipe.hooks) == IdSet(l.trailing)
    && recipe.preserved == Preserved(ordered)
  }

  /** A list of rows around its first and its last message. */
  ghost predicate IsFirstMessage(rs: seq<Record>, before: seq<Record>, m: Record, after: seq<Record>) {
    rs == before + [m] + after && IsMessage(m) && forall r | r in before :: !IsMessage(r)
  }

  ghost predicate IsLastMessage(rs: seq<Record>, before: seq<Record>, m: Record, after: seq<Record>) {
    rs == before + [m] + after && IsMessage(m) && forall r | r in after :: !IsMessage(r)
  }

  lemma {:induction false} FirstMessage(rs: seq<Record>) returns (before: seq<Record>, m: Record, after: seq<Record>)
    requires Filter(IsMessage, rs) != []
    ensures IsFirstMessage(rs, before, m, after) && Filter(IsMessage, rs)[0] == m
  {
    if IsMessage(rs[0]) {
      before, m, after := [], rs[0], rs[1..];
      assert rs == [] + [m] + after;
    } else {
      before, m, after := FirstMessage(rs[1..]);
      before := [rs[0]] + before;
      assert rs == before + [m] + after;
    }
  }

  lemma {:induction false} LastMessage(rs: seq<Record>) returns (before: seq<Record>, m: Record, after: seq<Record>)
    requires Filter(IsMessage, rs) != []
    ensures IsLastMessage(rs, before, m, after) && Filter(IsMessage, rs)[|Filter(IsMessage, rs)| - 1] == m
  {
    var init, r := rs[..|rs| - 1], rs[|rs| - 1];
    assert rs == init + [r];
    FilterConcat(IsMessage, init, [r]);
    assert [r][1..] == [];
    if IsMessage(r) {
      before, m, after := init, r, [];
      assert rs == before + [m] + [];
    } else {
      before, m, after := LastMessage(init);
      after := after + [r];
      assert rs == before + [m] + after;
    }
  }

  /** The preserved segment of a recipe is bounded by the first and the last retained message. */
  lemma {:induction false} SegmentBounds(rs: seq<Record>)
    ensures Preserved(rs).None? <==> forall r | r in rs :: !IsMessage(r)
    ensures Preserved(rs).Some? ==>
              && (exists a, m, b :: IsFirstMessage(rs, a, m, b) && m.id == Preserved(rs).value.head)
              && (exists a, m, b :: IsLastMessage(rs, a, m, b) && m.id == Preserved(rs).value.tail)
  {
    var p := (r: Record) => r.kind.Message?;
    FilterAgree(IsMessage, p, rs);
    FilterMembers(IsMessage, rs);
    if Filter(IsMessage, rs) == [] {
      forall r | r in rs ensures !IsMessage(r) { assert IsMessage(r) ==> r in Filter(IsMessage, rs); }
    } else {
      assert Filter(IsMessage, rs)[0] in Filter(IsMessage, rs);
      var a, m, b := FirstMessage(rs);
      var c, l, d := LastMessage(rs);
    }
  }

  predicate IsRelinked(r: Record) {
    r.kind.Message? && r.logicalParent.Some?
  }

  /** The anchor is the first retained message that was relinked, if any was, and the head otherwise. */
  lemma {:induction false} SegmentAnchor(rs: seq<Record>) returns (i: nat)
    requires Preserved(rs).Some?
    ensures (forall r | r in rs :: !IsRelinked(r)) ==> Preserved(rs).value.anchor == Preserved(rs).value.head
    ensures (exists r | r in rs :: IsRelinked(r)) ==>
              && i < |rs| && IsRelinked(rs[i]) && rs[i].id == Preserved(rs).value.anchor
              && forall k | 0 <= k < i :: !IsRelinked(rs[k])
  {
    var message := (r: Record) => r.kind.Message?;
    var linked := (r: Record) => r.logicalParent.Some?;
    FilterTwice(linked, message, IsRelinked, rs);
    FilterMembers(IsRelinked, rs);
    i := 0;
    if Filter(IsRelinked, rs) != [] {
      i := FilterFirst(IsRelinked, rs);
    } else {
      forall r | r in rs ensures !IsRelinked(r) {
        assert r !in Filter(IsRelinked, rs);
      }
    }
  }

  lemma {:induction false} BuildsCheckpoint(
      c: Context, candidate: Candidate, summary: string, extras: Extras, ordered: seq<Record>)
    requires candidate.archived != []
    ensures IsCheckpoint(
              BuildRecipe(PlannedCommit(c, candidate, summary), ordered, candidate.archived,
                          extras.attachments, extras.hooks),
              LayoutOf(c, candidate, summary, extras), ordered, candidate.archived)
  {
    IdsConcat(extras.attachments, extras.hooks);
    MembersOfIds(extras.attachments);
    MembersOfIds(extras.hooks);
  }

  lemma {:induction false} MembersOfIds(rs: seq<Record>)
    ensures Members(Ids(rs)) == IdSet(rs)
  {
    forall id ensures id in Ids(rs) <==> id in IdSet(rs) { IdsMember(rs, id); }
  }

  lemma {:induction false} RequiredIs(recipe: Recipe, l: Layout, ordered: seq<Record>, archived: seq<Record>)
    requires IsCheckpoint(recipe, l, ordered, archived)
    ensures Required(recipe) ==
            {l.boundary.id, l.summary.id} + IdSet(l.trailing) + SegmentIds(Preserved(ordered))
  {
  }

  lemma {:induction false} SegmentInRetained(retained: seq<Record>)
    ensures SegmentIds(Preserved(retained)) <= IdSet(retained)
  {
    SegmentInMessages(retained);
    FilterUniqueIds(IsMessage, retained);
  }

  lemma {:induction false} FilterUniqueIds(p: Record -> bool, rs: seq<Record>)
    ensures IdSet(Filter(p, rs)) <= IdSet(rs)
  {
    FilterMembers(p, rs);
  }

  /** Every required id is that of a row of the layout. */
  lemma {:induction false} RequiredIsLaid(l: Layout, id: Id)
    requires id in {l.boundary.id, l.summary.id} + IdSet(l.trailing) + SegmentIds(Preserved(l.retained))
    ensures exists r: Record :: l.Has(r) && r.id == id
  {
    SegmentInRetained(l.retained);
    if id == l.boundary.id {
      assert l.Has(l.boundary);
    } else if id == l.summary.id {
      assert l.Has(l.summary);
    } else if id in IdSet(l.trailing) {
      var r :| r in l.trailing && r.id == id;
      assert l.Has(r);
    } else {
      var r :| r in l.retained && r.id == id;
      assert l.Has(r);
    }
  }

  lemma {:induction false} RequiredOf(
      rs: seq<Record>, l: Layout, ordered: seq<Record>, archived: seq<Record>, recipe: Recipe)
    requires Sound(rs, l) && Laid(rs, l, ordered) && IsCheckpoint(recipe, l, ordered, archived)
    ensures Required(recipe) ==
            {l.boundary.id, l.summary.id} + IdSet(l.trailing) + SegmentIds(Preserved(l.retained))
    ensures Required(recipe) <= IdSet(ordered)
  {
    LaidMessages(rs, l, ordered);
    RequiredIs(recipe, l, ordered, archived);
    forall id | id in Required(recipe) ensures id in IdSet(ordered) {
      RequiredIsLaid(l, id);
    }
  }

  /** A hidden row of the layout is a retained one. */
  lemma {:induction false} HiddenIsRetained(rs: seq<Record>, l: Layout, ordered: seq<Record>, r: Record)
    requires Sound(rs, l) && Laid(rs, l, ordered)
    requires (forall x | x in rs && x.kind.SnipBoundary? :: !x.providerExcluded)
    requires r in ordered && r.providerExcluded
    ensures r in l.retained && r.id !in {l.boundary.id, l.summary.id} + IdSet(l.trailing)
  {
    assert l.Has(r) && !l.Adds(r);
    assert r.id in IdSet(rs);
    assert l.Adds(l.boundary) && l.Adds(l.summary);
    if r.id in IdSet(l.trailing) {
      var x :| x in l.trailing && x.id == r.id;
      assert l.Adds(x);
    }
  }

  /** A row that the checkpoint requires is hidden only if it is one of the segment's anchors. */
  lemma {:induction false} RequiredHidden(
      rs: seq<Record>, l: Layout, ordered: seq<Record>, archived: seq<Record>, recipe: Recipe, r: Record)
    requires Sound(rs, l) && Laid(rs, l, ordered) && IsCheckpoint(recipe, l, ordered, archived)
    requires (forall x | x in rs && x.kind.SnipBoundary? :: !x.providerExcluded)
    requires r in ordered && r.id in Required(recipe) && r.providerExcluded
    ensures r in l.retained && r.id in SegmentIds(Preserved(l.retained))
  {
    RequiredOf(rs, l, ordered, archived, recipe);
    HiddenIsRetained(rs, l, ordered, r);
  }

  /** Archived rows: unique, exact, visible source rows that are not retained. */
  ghost predicate Gone(rs: seq<Record>, l: Layout, archived: seq<Record>) {
    && UniqueIds(rs) && UniqueIds(archived)
    && (forall r | r in archived :: r in rs && Exact(r.id) && IsSource(r))
    && IdSet(archived) !! IdSet(l.retained)
  }

  lemma {:induction false} ArchivedIsGone(
      rs: seq<Record>, l: Layout, ordered: seq<Record>, archived: seq<Record>, r: Record)
    requires Sound(rs, l) && Laid(rs, l, ordered) && Gone(rs, l, archived) && r in archived
    ensures r.id !in IdSet(ordered)
  {
    assert r.id in IdSet(rs) && r.id in IdSet(archived);
    forall x | x in ordered ensures x.id != r.id {
      if x in rs && x.kind.SnipBoundary? {
        if x.id == r.id { UniqueRecord(rs, x, r); }
      } else {
        assert l.Has(x);
        assert x in l.retained ==> x.id in IdSet(l.retained);
      }
    }
  }

  /** With its anchors shown, a fresh checkpoint replays the transcript it was built from. */
  lemma {:induction false} CheckpointReplays(
      rs: seq<Record>, l: Layout, ordered: seq<Record>, archived: seq<Record>, recipe: Recipe)
    requires Sound(rs, l) && Laid(rs, l, ordered) && Gone(rs, l, archived) && IsCheckpoint(recipe, l, ordered, archived)
    requires (forall x | x in rs && x.kind.SnipBoundary? :: !x.providerExcluded)
    requires SegmentShown(l.retained)
    ensures Replays(recipe, ordered, |ordered|)
  {
    assert ordered[..|ordered|] == ordered;
    RequiredOf(rs, l, ordered, archived, recipe);
    MembersOfIds(ordered);
    MembersOfIds(archived);
    forall id | id in recipe.excluded ensures Exact(id) && id !in IdSet(ordered) {
      IdsMember(archived, id);
      var r :| r in archived && r.id == id;
      ArchivedIsGone(rs, l, ordered, archived, r);
    }
    forall r | r in ordered && r.id in Required(recipe) ensures !r.providerExcluded {
      if r.providerExcluded {
        RequiredHidden(rs, l, ordered, archived, recipe, r);
      }
    }
  }

  /** The id lists of a fresh checkpoint are already normal, and disjoint. */
  lemma {:induction false} CheckpointIdsNormal(
      rs: seq<Record>, l: Layout, ordered: seq<Record>, archived: seq<Record>)
    requires Sound(rs, l) && Laid(rs, l, ordered) && Gone(rs, l, archived)
    requires forall r | r in ordered :: Exact(r.id)
    ensures NormalizeIds(Ids(ordered), false) == Ok(Ids(ordered))
    ensures NormalizeIds(Ids(archived), true) == Ok(Ids(archived))
    ensures forall id | id in Ids(ordered) :: id !in Ids(archived) && id in IdSet(ordered)
  {
    forall id | id in Ids(ordered) ensures Exact(id) && id in IdSet(ordered) { IdsMember(ordered, id); }
    forall id | id in Ids(archived) ensures Exact(id) && id !in IdSet(ordered) {
      IdsMember(archived, id);
      var r :| r in archived && r.id == id;
      ArchivedIsGone(rs, l, ordered, archived, r);
    }
    NormalizeExact(Ids(ordered), false);
    NormalizeExact(Ids(archived), true);
  }

  lemma {:induction false} HiddenRequiredFault(rs: seq<Record>, recipe: Recipe, r: Record)
    requires recipe.ordered == Ids(rs) && Required(recipe) <= IdSet(rs)
    requires forall id | id in recipe.ordered :: id !in recipe.excluded && id in IdSet(rs)
    requires r in rs && r.id in Required(recipe) && r.id !in SnippedIds(rs) && r.providerExcluded
    ensures RecipeFault(rs, recipe, recipe.ordered, recipe.excluded) == Some(ProviderExcludedRequired)
  {
    MembersOfIds(rs);
  }

  /** With a hidden anchor the checkpoint is refused, and for that reason. */
  lemma {:induction false} HiddenAnchorRefused(
      rs: seq<Record>, l: Layout, ordered: seq<Record>, archived: seq<Record>, recipe: Recipe)
    requires Sound(rs, l) && Laid(rs, l, ordered) && Gone(rs, l, archived) && IsCheckpoint(recipe, l, ordered, archived)
    requires forall r | r in ordered :: Exact(r.id)
    requires !SegmentShown(l.retained)
    ensures Select(ordered, Some(recipe)) == Err(ProviderExcludedRequired)
  {
    RequiredOf(rs, l, ordered, archived, recipe);
    CheckpointIdsNormal(rs, l, ordered, archived);
    var r :| r in l.retained && r.id in SegmentIds(Preserved(l.retained)) && r.providerExcluded;
    assert l.Has(r);
    HiddenRequiredFault(ordered, recipe, r);
  }

  lemma {:induction false} LaidRows(rs: seq<Record>, l: Layout, ordered: seq<Record>)
    requires Sound(rs, l) && Laid(rs, l, ordered)
    requires forall r | r in rs :: Exact(r.id)
    requires forall r | r in rs && !r.kind.Message? :: !r.providerExcluded && Neutral(r)
    ensures forall r | r in ordered :: Exact(r.id)
    ensures forall r | r in ordered && !r.kind.Message? :: !r.providerExcluded && Neutral(r)
    ensures forall k | 0 < k < |ordered| :: !ordered[k].kind.CompactBoundary?
  {
    forall r | r in ordered
      ensures Exact(r.id) && (!r.kind.Message? ==> !r.providerExcluded && Neutral(r))
      ensures r.kind.CompactBoundary? ==> r == l.boundary
    {
      if r !in rs {
        assert l.Adds(r);
      }
    }
    forall k | 0 < k < |ordered| ensures !ordered[k].kind.CompactBoundary? {
      assert ordered[k] in ordered;
      assert Ids(ordered)[0] != Ids(ordered)[k];
    }
  }

  // ---- The verdict on a plan ----

  predicate ForProvider(r: Record) {
    !r.providerExcluded
  }

  lemma {:induction false} MarkersRenderNothing(rs: seq<Record>, o: Options)
    ensures ProjectAll(rs, o) == ProjectAll(Filter((r: Record) => !r.IsMarker(), rs), o)
  {
    if rs != [] {
      MarkersRenderNothing(rs[1..], o);
    }
  }

  /** Selecting what is shown and rendering it amounts to rendering the visible rows meant for providers. */
  lemma {:induction false} ShownRendersVisible(rs: seq<Record>, o: Options)
    ensures var snipped := SnippedIds(rs);
            ProjectAll(Filter((r: Record) => Shown(r, snipped), rs), o) == ProjectAll(Filter(ForProvider, Visible(rs)), o)
  {
    var snipped := SnippedIds(rs);
    var shown := (r: Record) => Shown(r, snipped);
    var notMarker := (r: Record) => !r.IsMarker();
    var visible := (r: Record) => !r.IsMarker() && r.id !in snipped;
    var all := (r: Record) => !r.IsMarker() && Shown(r, snipped);
    MarkersRenderNothing(Filter(shown, rs), o);
    FilterTwice(notMarker, shown, all, rs);
    FilterTwice(ForProvider, visible, all, rs);
  }

  /** What the Claude projection of a mounted context renders, before its tool pairs are checked. */
  lemma {:induction false} MountedRenders(c: Context, o: Options)
    requires Mounted(c)
    ensures var view := ProjectAll(Filter(ForProvider, Visible(c.records)), o);
            var verdict := Verdict(Run(START, Events(TurnsOf(view))));
            Project(c.records, c.checkpoint, o) == if verdict.Some? then Err(ToolPairs(verdict.value)) else Ok(view)
  {
    ShownRendersVisible(c.records, o);
    if c.checkpoint.Some? {
      var n: nat :| Replays(c.checkpoint.value, c.records, n);
      ReplaySelects(c.checkpoint.value, c.records, n);
    }
  }

  /**
   If the provider takes every block and nothing visible is hidden, the two projections of a mounted context have the
   same turns; and they are the same messages, content, sources, ids and all, if and only if no visible row carries
   a message id that only one of them reads.
   */
  lemma {:induction false} ViewsCoincideIff(c: Context, o: Options)
    requires Mounted(c) && TakesEverything(o) && forall r | r in Visible(c.records) :: Ordinary(r)
    ensures var view := ProjectAll(Visible(c.records), o);
            var verdict := Verdict(Run(START, Events(TurnsOf(GenericView(c.records)))));
            && Project(c.records, c.checkpoint, o) == (if verdict.Some? then Err(ToolPairs(verdict.value)) else Ok(view))
            && TurnsOf(view) == TurnsOf(GenericView(c.records))
            && (view == GenericView(c.records) <==> forall r | r in Visible(c.records) :: SameKey(r))
  {
    FilterAll(ForProvider, Visible(c.records));
    MountedRenders(c, o);
    SameMessagesIff(Visible(c.records), o);
    GenericViewIs(c);
  }

  lemma {:induction false} CandidateIsGone(c: Context, candidate: Candidate, summary: string, extras: Extras)
    requires Mounted(c) && FromSource(c, candidate)
    ensures Gone(c.records, LayoutOf(c, candidate, summary, extras), candidate.archived)
  {
    SidesOfCandidate(c, candidate);
  }

  /** The view that a plan promises. */
  function PlannedView(l: Layout, o: Options): seq<Projected> {
    ProjectAll(Filter(ForProvider, l.View()), o)
  }

  ghost predicate IsPlan(c: Context, candidate: Candidate, summary: string, extras: Extras, o: Options, plan: Plan)
    requires candidate.archived != []
  {
    var l := LayoutOf(c, candidate, summary, extras);
    && plan.commit == PlannedCommit(c, candidate, summary)
    && Laid(c.records, l, plan.ordered)
    && if !o.claude then plan.recipe == None && plan.view == ProjectGenericAll(l.View())
       else
         && plan.recipe.Some? && IsCheckpoint(plan.recipe.value, l, plan.ordered, candidate.archived)
         && plan.recipe.value.id == plan.commit.id
         && plan.recipe.value.attachments == Ids(extras.attachments) && plan.recipe.value.hooks == Ids(extras.hooks)
         && plan.view == PlannedView(l, o)
  }

  lemma {:induction false} LaidSelection(
      rs: seq<Record>, l: Layout, ordered: seq<Record>, archived: seq<Record>, recipe: Recipe, o: Options)
    requires Sound(rs, l) && Laid(rs, l, ordered) && Gone(rs, l, archived) && IsCheckpoint(recipe, l, ordered, archived)
    requires forall r | r in rs :: Exact(r.id)
    requires forall r | r in rs && !r.kind.Message? :: !r.providerExcluded && Neutral(r)
    ensures !SegmentShown(l.retained) ==> Project(ordered, Some(recipe), o) == Err(ProviderExcludedRequired)
    ensures SegmentShown(l.retained) ==>
              var view := PlannedView(l, o);
              var verdict := Verdict(Run(START, Events(TurnsOf(view))));
              && Replays(recipe, ordered, |ordered|)
              && Project(ordered, Some(recipe), o) ==
                 if verdict.Some? then Err(ToolPairs(verdict.value)) else Ok(view)
  {
    LaidRows(rs, l, ordered);
    if SegmentShown(l.retained) {
      CheckpointReplays(rs, l, ordered, archived, recipe);
      ReplaySelects(recipe, ordered, |ordered|);
      ShownRendersVisible(ordered, o);
      LaidView(rs, l, ordered);
    } else {
      HiddenAnchorRefused(rs, l, ordered, archived, recipe);
    }
  }

  /**
   A plan for the Claude family is refused only when an anchor of the retained segment is hidden from providers, or
   when the promised view breaks the tool protocol; one for another family never is. Otherwise it is exactly the plan
   that was promised.
   */
  lemma {:induction false} PlanOutcome(c: Context, candidate: Candidate, summary: string, extras: Extras, o: Options)
    requires Mounted(c) && FromSource(c, candidate) && FreshExtras(c, candidate.commitId, extras)
    ensures var r := BuildPlan(c, candidate, summary, extras, o);
            var verdict := Verdict(Run(START, Events(TurnsOf(PlannedView(LayoutOf(c, candidate, summary, extras), o)))));
            if o.claude && !SegmentShown(candidate.retained) then r == Err(ProjectionFailed(ProviderExcludedRequired))
            else if o.claude && verdict.Some? then r == Err(ProjectionFailed(ToolPairs(verdict.value)))
            else
              && r.Ok? && IsPlan(c, candidate, summary, extras, o, r.value)
              && (o.claude ==> Replays(r.value.recipe.value, r.value.ordered, |r.value.ordered|))
  {
    var l := LayoutOf(c, candidate, summary, extras);
    var ordered := PlanIsLaid(c, candidate, summary, extras);
    if o.claude {
      ClaudeOutcome(c, candidate, summary, extras, o, ordered);
    } else {
      OtherOutcome(c, candidate, summary, extras, o, ordered);
    }
  }

  lemma {:induction false} ClaudeOutcome(
      c: Context, candidate: Candidate, summary: string, extras: Extras, o: Options, ordered: seq<Record>)
    requires Mounted(c) && FromSource(c, candidate) && FreshExtras(c, candidate.commitId, extras) && o.claude
    requires Rebase(c.records, CompactProjection(c, candidate, summary, extras), candidate.retained) == Ok(ordered)
    requires Laid(c.records, LayoutOf(c, candidate, summary, extras), ordered)
    ensures var r := BuildPlan(c, candidate, summary, extras, o);
            var verdict := Verdict(Run(START, Events(TurnsOf(PlannedView(LayoutOf(c, candidate, summary, extras), o)))));
            if !SegmentShown(candidate.retained) then r == Err(ProjectionFailed(ProviderExcludedRequired))
            else if verdict.Some? then r == Err(ProjectionFailed(ToolPairs(verdict.value)))
            else
              && r.Ok? && IsPlan(c, candidate, summary, extras, o, r.value)
              && Replays(r.value.recipe.value, r.value.ordered, |r.value.ordered|)
  {
    var l := LayoutOf(c, candidate, summary, extras);
    PlanIsSound(c, candidate, summary, extras);
    CandidateIsGone(c, candidate, summary, extras);
    BuildsCheckpoint(c, candidate, summary, extras, ordered);
    var recipe := BuildRecipe(l.boundary.kind.commit.value, ordered, candidate.archived, extras.attachments, extras.hooks);
    LaidSelection(c.records, l, ordered, candidate.archived, recipe, o);
  }

  lemma {:induction false} OtherOutcome(
      c: Context, candidate: Candidate, summary: string, extras: Extras, o: Options, ordered: seq<Record>)
    requires Mounted(c) && FromSource(c, candidate) && FreshExtras(c, candidate.commitId, extras) && !o.claude
    requires Rebase(c.records, CompactProjection(c, candidate, summary, extras), candidate.retained) == Ok(ordered)
    requires Laid(c.records, LayoutOf(c, candidate, summary, extras), ordered)
    ensures var r := BuildPlan(c, candidate, summary, extras, o);
            r.Ok? && IsPlan(c, candidate, summary, extras, o, r.value)
  {
    var l, plan := LayoutOf(c, candidate, summary, extras), BuildPlan(c, candidate, summary, extras, o).value;
    PlanIsSound(c, candidate, summary, extras);
    LaidWithoutRecipe(c.records, l, plan);
    LaidView(c.records, l, ordered);
    GenericViewIs(Install(plan));
  }

  /** An install without a recipe: the state is mounted all the same. */
  lemma {:induction false} LaidWithoutRecipe(rs: seq<Record>, l: Layout, plan: Plan)
    requires Sound(rs, l) && Laid(rs, l, plan.ordered) && plan.recipe.None?
    requires forall r | r in rs :: Exact(r.id)
    requires forall r | r in rs && !r.kind.Message? :: !r.providerExcluded && Neutral(r)
    requires l.boundary == BoundaryRecord(plan.commit) && plan.commit.epoch > 0
    ensures Mounted(Install(plan)) && History(plan.ordered) == [plan.commit]
  {
    LaidRows(rs, l, plan.ordered);
    InstalledCarrier(rs, l, plan.ordered, plan.commit);
  }

  lemma {:induction false} InstalledCarrier(rs: seq<Record>, l: Layout, ordered: seq<Record>, commit: Commit)
    requires Sound(rs, l) && Laid(rs, l, ordered)
    requires forall k | 0 < k < |ordered| :: !ordered[k].kind.CompactBoundary?
    requires l.boundary == BoundaryRecord(commit) && commit.epoch > 0
    ensures Carrier(ordered, Some(commit.id), commit.epoch)
    ensures History(ordered) == [commit] && ActiveCommit(ordered) == Some(commit)
  {
    CarrierWindow(ordered, Some(commit.id), commit.epoch);
  }

  /**
   Installing a plan keeps the context mounted, one epoch further, on a chain of commits; and what the plan
   promised is what both projections of the installed state then show.
   */
  lemma {:induction false} InstallMounted(
      c: Context, candidate: Candidate, summary: string, extras: Extras, o: Options, plan: Plan)
    requires Mounted(c) && FromSource(c, candidate) && FreshExtras(c, candidate.commitId, extras)
    requires BuildPlan(c, candidate, summary, extras, o) == Ok(plan)
    ensures var c', l := Install(plan), LayoutOf(c, candidate, summary, extras);
            && Mounted(c')
            && Visible(c'.records) == l.View() && SnippedIds(c'.records) == SnippedIds(c.records)
            && (o.claude ==> Project(c'.records, c'.checkpoint, o) == Ok(plan.view))
            && (!o.claude ==> GenericView(c'.records) == plan.view)
            && SourceIds(GenericView(c'.records)) == Ids(l.View())
            && c'.epoch == c.epoch + 1 && c'.active == Some(candidate.commitId)
            && c'.history == [plan.commit] && plan.commit.parent == c.active
  {
    var l := LayoutOf(c, candidate, summary, extras);
    PlanOutcome(c, candidate, summary, extras, o);
    PlanIsSound(c, candidate, summary, extras);
    if o.claude {
      LaidIsMounted(c.records, l, plan);
    } else {
      LaidWithoutRecipe(c.records, l, plan);
    }
    LaidView(c.records, l, plan.ordered);
    ViewsAgree(Install(plan), o);
    PlanIsProjected(c, candidate, summary, extras, o, plan);
  }

  /** The view in the plan was projected from the very state that the install makes. */
  lemma {:induction false} PlanIsProjected(
      c: Context, candidate: Candidate, summary: string, extras: Extras, o: Options, plan: Plan)
    requires candidate.archived != [] && BuildPlan(c, candidate, summary, extras, o) == Ok(plan)
    ensures if o.claude then plan.recipe.Some? && Project(plan.ordered, plan.recipe, o) == Ok(plan.view)
            else plan.recipe.None? && plan.view == GenericView(plan.ordered)
    ensures plan.commit == PlannedCommit(c, candidate, summary)
  {
  }

  lemma {:induction false} LaidIsMounted(rs: seq<Record>, l: Layout, plan: Plan)
    requires Sound(rs, l) && Laid(rs, l, plan.ordered)
    requires plan.recipe.Some? && Replays(plan.recipe.value, plan.ordered, |plan.ordered|)
    requires forall r | r in rs :: Exact(r.id)
    requires forall r | r in rs && !r.kind.Message? :: !r.providerExcluded && Neutral(r)
    requires l.boundary == BoundaryRecord(plan.commit) && plan.commit.epoch > 0
    ensures Mounted(Install(plan)) && History(plan.ordered) == [plan.commit]
  {
    LaidRows(rs, l, plan.ordered);
    InstalledCarrier(rs, l, plan.ordered, plan.commit);
  }
}
