/**
 What a reader of a provider view may rely on, in terms of the records alone: which checkpoints are accepted, which
 records a view consists of and in which order, and what each message hands on of its record.
 */
module ProviderViews {
  import opened Sequences
  import opened Identifiers
  import opened Transcript
  import opened ToolProtocol
  import opened ProviderMessage
  import opened ClaudeProjector

  // ---- What a message hands on ----

  /** Role, content, origin and key of the record; a provider gets the blocks that it takes, each standing for its own. */
  ghost predicate Shows(m: Projected, r: Record, o: Options) {
    && m.sourceId == Some(r.id) && m.role == r.role
    && m.messageKey == (if r.messageId.Some? then r.messageId else r.providerMessageId)
    && (r.content.Text? ==> m.content == r.content)
    && (r.content.Blocks? ==>
          && m.content.Blocks? && m.content.blocks != []
          && AllStand(m.content.blocks, Filter((b: Block) => Takes(b, o), r.content.blocks), o))
    && m.attachment == (if r.kind.Attachment? then Some(r.kind.attachment) else None)
    && match r.kind
       case Message => m.source.FromRecord?
       case CompactSummary(_) => m.source.FromSummary?
       case Attachment(_) => m.source.FromAttachment?
       case HookResult => m.source.FromHook?
       case _ => false
  }

  ghost predicate AllShow(ms: seq<Projected>, rs: seq<Record>, o: Options) {
    |ms| == |rs| && forall i | 0 <= i < |rs| :: Shows(ms[i], rs[i], o)
  }

  lemma {:induction false} RenderedShows(r: Record, o: Options)
    requires Renders(r, o)
    ensures Shows(ProjectRecord(r, o).value, r, o)
  {
    if r.content.Blocks? {
      ProjectedBlocksMean(r.content.blocks, o);
    }
  }

  lemma {:induction false} AllRenderedShow(rs: seq<Record>, o: Options)
    ensures AllShow(ProjectAll(rs, o), Filter((r: Record) => Renders(r, o), rs), o)
  {
    if rs != [] {
      AllRenderedShow(rs[1..], o);
      var ms, kept := ProjectAll(rs[1..], o), Filter((r: Record) => Renders(r, o), rs[1..]);
      if Renders(rs[0], o) {
        RenderedShows(rs[0], o);
        ShowOneMore(ProjectRecord(rs[0], o).value, rs[0], ms, kept, o);
      } else {
        assert [] + ms == ms;
      }
    }
  }

  lemma {:induction false} ShowOneMore(m: Projected, r: Record, ms: seq<Projected>, rs: seq<Record>, o: Options)
    requires Shows(m, r, o) && AllShow(ms, rs, o)
    ensures AllShow([m] + ms, [r] + rs, o)
  {
    forall i | 0 <= i < |rs| + 1 ensures Shows(([m] + ms)[i], ([r] + rs)[i], o) {
      if i > 0 {
        assert ([m] + ms)[i] == ms[i - 1] && ([r] + rs)[i] == rs[i - 1];
      }
    }
  }

  // ---- Which checkpoints are accepted ----

  function Trimmed(ids: seq<Id>): (trimmed: seq<Id>)
    ensures |trimmed| == |ids|
    ensures forall i | 0 <= i < |ids| :: trimmed[i] == Trim(ids[i])
  {
    seq(|ids|, i requires 0 <= i < |ids| => Trim(ids[i]))
  }

  /** Ids to read a checkpoint by: none is blank and none occurs twice, whatever white space surrounds them. */
  predicate Readable(ids: seq<Id>) {
    Distinct(Trimmed(ids)) && "" !in Trimmed(ids)
  }

  /** The boundary, the summary, the attachments, the hook results and the ends of the preserved segment. */
  predicate Needs(recipe: Recipe, id: Id) {
    || id == recipe.boundaryId || id == recipe.summaryId || id in recipe.attachments || id in recipe.hooks
    || (recipe.preserved.Some? &&
          (id == recipe.preserved.value.head || id == recipe.preserved.value.anchor || id == recipe.preserved.value.tail))
  }

  /** A fault of a checkpoint on a transcript. */
  ghost predicate Faulty(rs: seq<Record>, recipe: Recipe, e: ProjectionError) {
    var ordered, excluded := Trimmed(recipe.ordered), Trimmed(recipe.excluded);
    match e
    case NoOrderedIds => ordered == []
    case EmptyRecipeId => "" in ordered || "" in excluded
    case DuplicateRecipeId => !Distinct(ordered) || !Distinct(excluded)
    case IncludedAndExcluded => exists id :: id in ordered && id in excluded
    case OutsideOrdered => exists id :: Needs(recipe, id) && id !in ordered
    case MissingRecords => exists id :: id in ordered && id !in IdSet(rs) && id !in SnippedIds(rs)
    case ProviderExcludedRequired =>
      exists r :: r in rs && Needs(recipe, r.id) && r.id !in SnippedIds(rs) && r.providerExcluded
    case _ => false
  }

  lemma {:induction false} RequiredAre(recipe: Recipe)
    ensures forall id :: id in Required(recipe) <==> Needs(recipe, id)
  {
  }

  lemma {:induction false} NormalizedAre(ids: seq<Id>, allowEmpty: bool)
    ensures NormalizeIds(ids, allowEmpty).Ok? <==> Readable(ids) && (ids != [] || allowEmpty)
    ensures NormalizeIds(ids, allowEmpty).Ok? ==> NormalizeIds(ids, allowEmpty).value == Trimmed(ids)
    ensures NormalizeIds(ids, allowEmpty) == Err(NoOrderedIds) <==> ids == [] && !allowEmpty
    ensures NormalizeIds(ids, allowEmpty).Err? ==>
              match NormalizeIds(ids, allowEmpty).error
              case NoOrderedIds => true
              case EmptyRecipeId => "" in Trimmed(ids)
              case DuplicateRecipeId => !Distinct(Trimmed(ids))
              case _ => false
  {
    var normalized := seq(|ids|, i requires 0 <= i < |ids| => Trim(ids[i]));
    assert normalized == Trimmed(ids);
  }

  /**
   A checkpoint is refused if and only if it has a fault, and the refusal names one that it has.
   */
  lemma {:induction false} RefusedIffFaulty(rs: seq<Record>, recipe: Recipe)
    requires UniqueIds(rs)
    ensures Select(rs, Some(recipe)).Ok? <==> forall e :: !Faulty(rs, recipe, e)
    ensures Select(rs, Some(recipe)).Err? ==> Faulty(rs, recipe, Select(rs, Some(recipe)).error)
  {
    NormalizedAre(recipe.ordered, false);
    NormalizedAre(recipe.excluded, true);
    RequiredAre(recipe);
    var r := Select(rs, Some(recipe));
    if r.Err? {
      FaultNamed(rs, recipe);
    } else {
      forall e ensures !Faulty(rs, recipe, e) {
        NoFaultLeft(rs, recipe, e);
      }
    }
  }

  lemma {:induction false} FaultNamed(rs: seq<Record>, recipe: Recipe)
    requires UniqueIds(rs) && Select(rs, Some(recipe)).Err?
    ensures Faulty(rs, recipe, Select(rs, Some(recipe)).error)
  {
    NormalizedAre(recipe.ordered, false);
    NormalizedAre(recipe.excluded, true);
    RequiredAre(recipe);
    if NormalizeIds(recipe.ordered, false).Ok? && NormalizeIds(recipe.excluded, true).Ok? {
      var ordered, excluded := Trimmed(recipe.ordered), Trimmed(recipe.excluded);
      assert RecipeFault(rs, recipe, ordered, excluded).Some?;
      MembersAre(ordered);
    }
  }

  lemma {:induction false} MembersAre(ids: seq<Id>)
    ensures forall id :: id in Members(ids) <==> id in ids
  {
  }

  lemma {:induction false} NoFaultLeft(rs: seq<Record>, recipe: Recipe, e: ProjectionError)
    requires UniqueIds(rs) && Select(rs, Some(recipe)).Ok?
    ensures !Faulty(rs, recipe, e)
  {
    NormalizedAre(recipe.ordered, false);
    NormalizedAre(recipe.excluded, true);
    RequiredAre(recipe);
    var ordered, excluded := Trimmed(recipe.ordered), Trimmed(recipe.excluded);
    assert RecipeFault(rs, recipe, ordered, excluded).None?;
    MembersAre(ordered);
  }

  // ---- Which records, and in which order ----

  /** The record is in the view: not archived by the checkpoint, not snipped out, not hidden, and not without content. */
  ghost predicate InView(rs: seq<Record>, recipe: Option<Recipe>, o: Options, r: Record) {
    && r in rs && !(recipe.Some? && r.id in Trimmed(recipe.value.excluded))
    && r.id !in SnippedIds(rs) && !r.providerExcluded
    && !r.kind.CompactBoundary? && !r.kind.SnipBoundary? && !r.kind.MicrocompactBoundary?
    && (r.content.Blocks? ==> exists b :: b in r.content.blocks && Takes(b, o))
  }

  lemma {:induction false} EmptiedIff(r: Record, o: Options)
    requires r.content.Blocks?
    ensures Emptied(r, o) <==> forall b | b in r.content.blocks :: !Takes(b, o)
  {
    var takes := (b: Block) => Takes(b, o);
    ProjectedBlocksMean(r.content.blocks, o);
    FilterMembers(takes, r.content.blocks);
    var kept := Filter(takes, r.content.blocks);
    if kept != [] {
      assert kept[0] in kept;
    }
  }

  lemma {:induction false} InViewIff(rs: seq<Record>, recipe: Option<Recipe>, o: Options, r: Record)
    requires Select(rs, recipe).Ok?
    ensures InView(rs, recipe, o, r) <==> r in Select(rs, recipe).value && Renders(r, o)
  {
    SelectedMembers(rs, recipe, r);
    if recipe.Some? {
      ExcludedAre(recipe.value, r.id);
    }
    if r.content.Blocks? {
      EmptiedIff(r, o);
    }
  }

  lemma {:induction false} ExcludedAre(recipe: Recipe, id: Id)
    ensures id in ExcludedIds(recipe) <==> id in Trimmed(recipe.excluded)
  {
    if id in Trimmed(recipe.excluded) {
      var i :| 0 <= i < |recipe.excluded| && Trimmed(recipe.excluded)[i] == id;
      assert Trim(recipe.excluded[i]) == id;
    }
    if id in ExcludedIds(recipe) {
      var i :| 0 <= i < |recipe.excluded| && Trim(recipe.excluded[i]) == id;
      assert Trimmed(recipe.excluded)[i] == id;
    }
  }

  lemma {:induction false} FoundFirst(r: Record, rest: seq<Record>, keep: Record -> bool)
    ensures Ids(Filter(keep, [r] + rest)) == (if keep(r) then [r.id] else []) + Ids(Filter(keep, rest))
  {
    assert ([r] + rest)[1..] == rest;
    assert Ids([r] + Filter(keep, rest)) == [r.id] + Ids(Filter(keep, rest));
  }

  /** Looking up a list of ids and keeping some of the records keeps the order of the list. */
  lemma {:induction false} LookupFiltered(rs: seq<Record>, ids: seq<Id>, keep: Record -> bool, kept: set<Id>)
    requires UniqueIds(rs) && forall r | r in rs :: keep(r) == (r.id in kept)
    requires kept <= IdSet(rs)
    ensures Ids(Filter(keep, Lookup(rs, ids))) == Filter((id: Id) => id in kept, ids)
  {
    if ids != [] {
      var i := IndexOf(rs, ids[0]);
      LookupFiltered(rs, ids[1..], keep, kept);
      var rest := Lookup(rs, ids[1..]);
      if i >= 0 {
        assert rs[i] in rs;
        FoundFirst(rs[i], rest, keep);
      } else {
        assert ids[0] !in IdSet(rs);
        assert [] + rest == rest;
      }
    }
  }

  /** The order of the view: first the checkpoint's own list, as far as it is shown, then the transcript's order. */
  ghost predicate InOrder(rs: seq<Record>, listed: seq<Id>, rows: seq<Record>, n: nat) {
    && n <= |rows|
    && Ids(rows[..n]) == Filter((id: Id) => id in IdSet(rows), listed)
    && rows[n..] == Filter((r: Record) => r in rows && r.id !in listed, rs)
  }

  function Listed(recipe: Option<Recipe>): seq<Id> {
    if recipe.None? then [] else Trimmed(recipe.value.ordered)
  }

  lemma {:induction false} PlainOrder(rs: seq<Record>, o: Options)
    requires UniqueIds(rs)
    ensures var selected := Select(rs, None).value;
            InOrder(rs, [], Filter((r: Record) => Renders(r, o), selected), 0)
  {
    var snipped, selected := SnippedIds(rs), Select(rs, None).value;
    var renders, shown := (r: Record) => Renders(r, o), (r: Record) => Shown(r, snipped);
    var rows := Filter(renders, selected);
    FilterMembers(renders, selected);
    FilterMembers(shown, rs);
    FilterTwice(renders, shown, (r: Record) => r in rows && r.id !in [], rs);
    assert Ids(rows[..0]) == [];
  }

  lemma {:induction false} CheckpointOrder(rs: seq<Record>, recipe: Recipe, o: Options) returns (n: nat)
    requires UniqueIds(rs) && Select(rs, Some(recipe)).Ok?
    ensures var selected := Select(rs, Some(recipe)).value;
            InOrder(rs, Trimmed(recipe.ordered), Filter((r: Record) => Renders(r, o), selected), n)
  {
    NormalizedAre(recipe.ordered, false);
    NormalizedAre(recipe.excluded, true);
    var ordered, excluded, snipped := Trimmed(recipe.ordered), Trimmed(recipe.excluded), SnippedIds(rs);
    var renders, shown := (r: Record) => Renders(r, o), (r: Record) => Shown(r, snipped);
    var both := (r: Record) => Renders(r, o) && Shown(r, snipped);
    var continues := (r: Record) => Continues(r, Members(ordered), Members(excluded));
    FilterTwice(renders, shown, both, Candidates(rs, ordered, excluded));
    FilterConcat(both, Lookup(rs, ordered), Filter(continues, rs));
    n := SplitOrder(rs, ordered, both, continues);
  }

  lemma {:induction false} SplitOrder(
      rs: seq<Record>, ordered: seq<Id>, both: Record -> bool, continues: Record -> bool) returns (n: nat)
    requires UniqueIds(rs) && forall r | r in rs :: continues(r) ==> r.id !in ordered
    ensures InOrder(rs, ordered, Filter(both, Lookup(rs, ordered)) + Filter(both, Filter(continues, rs)), n)
  {
    var base, rest := Filter(both, Lookup(rs, ordered)), Filter(both, Filter(continues, rs));
    var rows := base + rest;
    n := |base|;
    assert rows[..n] == base && rows[n..] == rest;
    forall r: Record ensures r in rows <==> r in rs && both(r) && (r.id in ordered || continues(r)) {
      LookupMembers(rs, ordered, r);
      FilterMember(both, Lookup(rs, ordered), r);
      FilterMember(both, Filter(continues, rs), r);
      FilterMember(continues, rs, r);
    }
    FilterTwice(both, continues, (r: Record) => r in rows && r.id !in ordered, rs);
    var kept := set r | r in rs && both(r) :: r.id;
    forall r | r in rs ensures both(r) == (r.id in kept) {
      if r.id in kept {
        var x :| x in rs && both(x) && x.id == r.id;
        UniqueRecord(rs, x, r);
      }
    }
    LookupFiltered(rs, ordered, both, kept);
    forall id | id in ordered ensures (id in kept) == (id in IdSet(rows)) {
    }
    FilterAgree((id: Id) => id in kept, (id: Id) => id in IdSet(rows), ordered);
  }

  /**
   The view of every readable transcript. It consists of exactly the records that are neither archived nor snipped
   out nor hidden nor without content, each once: a checkpoint's list first and in its order, the others in the order
   of the transcript. Each message shows its record, and the view is refused only for its tool pairs.
   */
  lemma {:induction false} ViewIs(rs: seq<Record>, recipe: Option<Recipe>, o: Options)
    returns (view: seq<Projected>, rows: seq<Record>, n: nat)
    requires UniqueIds(rs) && (recipe.Some? ==> forall e :: !Faulty(rs, recipe.value, e))
    ensures AllShow(view, rows, o) && UniqueIds(rows) && InOrder(rs, Listed(recipe), rows, n)
    ensures forall r :: r in rows <==> InView(rs, recipe, o, r)
    ensures Project(rs, recipe, o).Ok? <==> Accepts(TurnsOf(view))
    ensures Project(rs, recipe, o).Ok? ==> Project(rs, recipe, o).value == view
    ensures Project(rs, recipe, o).Err? ==> Project(rs, recipe, o).error.ToolPairs?
  {
    if recipe.Some? {
      RefusedIffFaulty(rs, recipe.value);
    }
    var selected := Select(rs, recipe).value;
    var renders := (r: Record) => Renders(r, o);
    view, rows, n := ProjectAll(selected, o), Filter(renders, selected), 0;
    if recipe.None? {
      PlainOrder(rs, o);
    } else {
      n := CheckpointOrder(rs, recipe.value, o);
    }
    AllRenderedShow(selected, o);
    SelectedUnique(rs, recipe);
    FilterUnique(renders, selected);
    FilterMembers(renders, selected);
    forall r ensures r in rows <==> InView(rs, recipe, o, r) {
      InViewIff(rs, recipe, o, r);
    }
  }

  // ---- Why a record is left out ----

  ghost predicate Hidden(r: Record, rs: seq<Record>, recipe: Option<Recipe>, o: Options, reason: Reason) {
    match reason
    case CheckpointExcluded => recipe.Some? && r.id in Trimmed(recipe.value.excluded) && !r.kind.SnipBoundary?
    case Snipped => r.id in SnippedIds(rs)
    case ProviderExclusion => r.providerExcluded
    case InternalMarker => r.kind.CompactBoundary? || r.kind.SnipBoundary? || r.kind.MicrocompactBoundary?
    case ProviderCapability => r.content.Blocks? && forall b | b in r.content.blocks :: !Takes(b, o)
  }

  /** The later reasons are only looked for when the earlier ones do not apply. */
  function Rank(reason: Reason): nat {
    match reason
    case CheckpointExcluded => 0
    case Snipped => 1
    case ProviderExclusion => 2
    case InternalMarker => 3
    case ProviderCapability => 4
  }

  /** The reason in the manifest is the first one that applies, and there is none only if none applies. */
  lemma {:induction false} ReasonIsFirst(rs: seq<Record>, recipe: Option<Recipe>, o: Options, r: Record)
    ensures var given := ReasonFor(r, rs, recipe, o);
            if given.None? then forall x :: !Hidden(r, rs, recipe, o, x)
            else
              && Hidden(r, rs, recipe, o, given.value)
              && forall x :: Hidden(r, rs, recipe, o, x) ==> Rank(given.value) <= Rank(x)
  {
    if recipe.Some? {
      ExcludedAre(recipe.value, r.id);
    }
    if r.content.Blocks? {
      EmptiedIff(r, o);
    }
  }

  // ---- The generic view ----

  /** Content and origin of the record; everything that is no message is said by the user and has no key. */
  ghost predicate ShowsPlainly(m: Projected, r: Record) {
    && m.sourceId == Some(r.id) && m.content == r.content
    && match r.kind
       case Message => m.source.FromRecord? && m.role == r.role && m.messageKey == r.messageId && m.attachment == None
       case CompactSummary(_) => m.source.FromSummary? && IsNote(m) && m.attachment == None
       case Attachment(kind) => m.source.FromAttachment? && IsNote(m) && m.attachment == Some(kind)
       case HookResult => m.source.FromHook? && IsNote(m) && m.attachment == None
       case _ => false
  }

  predicate IsNote(m: Projected) {
    m.role.User? && m.messageKey == None
  }

  ghost predicate AllShowPlainly(ms: seq<Projected>, rs: seq<Record>) {
    |ms| == |rs| && forall i | 0 <= i < |rs| :: ShowsPlainly(ms[i], rs[i])
  }

  predicate IsContent(r: Record) {
    r.kind.Message? || r.kind.CompactSummary? || r.kind.Attachment? || r.kind.HookResult?
  }

  lemma {:induction false} ProjectedPlainly(rs: seq<Record>)
    ensures AllShowPlainly(ProjectGenericAll(rs), Filter(IsContent, rs))
  {
    if rs != [] {
      ProjectedPlainly(rs[1..]);
      var ms, kept := ProjectGenericAll(rs[1..]), Filter(IsContent, rs[1..]);
      if IsContent(rs[0]) {
        var m := ProjectGeneric(rs[0])[0];
        assert ProjectGeneric(rs[0]) == [m];
        forall i | 0 <= i < |kept| + 1 ensures ShowsPlainly(([m] + ms)[i], ([rs[0]] + kept)[i]) {
          if i > 0 {
            assert ([m] + ms)[i] == ms[i - 1] && ([rs[0]] + kept)[i] == kept[i - 1];
          }
        }
      } else {
        assert ProjectGeneric(rs[0]) + ms == ms;
      }
    }
  }

  lemma {:induction false} LastBoundaryIs(rs: seq<Record>)
    ensures var last := LastBoundary(rs);
            && -1 <= last < |rs| && (last >= 0 ==> rs[last].kind.CompactBoundary?)
            && forall k | last < k < |rs| :: !rs[k].kind.CompactBoundary?
  {
    if rs != [] && !rs[|rs| - 1].kind.CompactBoundary? {
      LastBoundaryIs(rs[..|rs| - 1]);
    }
  }

  /**
   The generic view of every transcript: from the last compact boundary on, or from the start without one, the rows
   that are no markers and that no Snip of this window removed, in order, each shown by one message.
   */
  lemma {:induction false} GenericViewShows(rs: seq<Record>) returns (start: nat, rows: seq<Record>)
    ensures start <= |rs| && (start > 0 ==> start < |rs| && rs[start].kind.CompactBoundary?)
    ensures forall k | start < k < |rs| :: !rs[k].kind.CompactBoundary?
    ensures var snipped := SnippedIds(rs[start..]);
            rows == Filter((r: Record) => IsContent(r) && r.id !in snipped, rs[start..])
    ensures AllShowPlainly(GenericView(rs), rows)
  {
    LastBoundaryIs(rs);
    var last := LastBoundary(rs);
    start := if last >= 0 then last else 0;
    var snipped := SnippedIds(rs[start..]);
    rows := Filter((r: Record) => IsContent(r) && r.id !in snipped, rs[start..]);
    assert last < 0 ==> rs[0..] == rs;
    assert AfterBoundary(rs) == rs[start..];
    FilterTwice(IsContent, (r: Record) => r.id !in snipped, (r: Record) => IsContent(r) && r.id !in snipped, rs[start..]);
    ProjectedPlainly(ActiveWindow(rs));
  }
}
