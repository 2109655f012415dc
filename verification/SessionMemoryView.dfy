/**
 Session memory in a provider view. It is rebuilt for every view from the memories whose source is no longer
 visible, and the durable copy that a compaction left in the transcript is reused, replaced or dropped.
 */
module SessionMemoryView {
  import opened Sequences
  import opened Identifiers
  import opened Transcript
  import opened ProviderMessage
  import opened ClaudeProjector
  import opened Compaction
  import opened Attachments

  datatype Memory = Memory(sourceRecord: Id, text: string)

  /** Builds the attachments for the given memories; the rest of the snapshot and the budget are fixed. */
  type Builder = seq<Memory> -> seq<ContextAttachment>

  predicate IsSessionAttachment(a: ContextAttachment) {
    a.kind.SessionMemory?
  }

  predicate IsSessionMessage(m: Projected) {
    m.attachment == Some(SessionMemory)
  }

  predicate IsSessionRow(r: Record) {
    r.kind == Attachment(SessionMemory)
  }

  /** The builder's candidate list has one place for session memory. */
  predicate OneSessionAttachment(built: seq<ContextAttachment>) {
    |Filter(IsSessionAttachment, built)| <= 1
  }

  function VisibleSources(projected: seq<Projected>): set<Id> {
    set m | m in projected && m.source.FromRecord? && m.sourceId.Some? :: m.sourceId.value
  }

  function Unseen(memories: seq<Memory>, visible: set<Id>): seq<Memory> {
    Filter((m: Memory) => m.sourceRecord !in visible, memories)
  }

  function Rebuilt(built: seq<ContextAttachment>): Option<ContextAttachment> {
    var memory := Filter(IsSessionAttachment, built);
    if memory == [] then None else Some(memory[0])
  }

  /** The one durable row says exactly what would be rebuilt. */
  predicate Reuses(rows: seq<Record>, rebuilt: Option<ContextAttachment>) {
    |rows| == 1 && rebuilt.Some? && rows[0].content.Text? && rows[0].content.text == rebuilt.value.content
  }

  function LiveMessages(attachments: seq<ContextAttachment>): (ms: seq<Projected>)
    ensures |ms| == |attachments|
    ensures forall i | 0 <= i < |ms| ::
              ms[i] == Projected(User, Text(attachments[i].content, []), FromAttachment, None, None, Some(attachments[i].kind))
  {
    seq(|attachments|, i requires 0 <= i < |attachments| =>
      Projected(User, Text(attachments[i].content, []), FromAttachment, None, None, Some(attachments[i].kind)))
  }

  predicate IsStaleCopy(m: Projected, rows: seq<Record>) {
    IsSessionMessage(m) && m.sourceId.Some? && m.sourceId.value in IdSet(rows)
  }

  /** A durable copy that is not reused makes way for the rebuilt one. */
  function WithoutStale(projected: seq<Projected>, rows: seq<Record>, reuses: bool): seq<Projected> {
    if rows != [] && !reuses then Filter((m: Projected) => !IsStaleCopy(m, rows), projected) else projected
  }

  predicate IsLive(a: ContextAttachment, reuses: bool, compacted: bool) {
    if a.kind.SessionMemory? then !reuses else !compacted
  }

  function Live(built: seq<ContextAttachment>, reuses: bool, compacted: bool): seq<ContextAttachment> {
    Filter((a: ContextAttachment) => IsLive(a, reuses, compacted), built)
  }

  /** Puts the live attachments behind what was projected from the slice. */
  function Assemble(slice: seq<Record>, projected: seq<Projected>, built: seq<ContextAttachment>): seq<Projected> {
    var rows := Filter(IsSessionRow, slice);
    var reuses := Reuses(rows, Rebuilt(built));
    var compacted := exists r | r in slice :: r.kind.Attachment?;
    WithoutStale(projected, rows, reuses) + LiveMessages(Live(built, reuses, compacted))
  }

  /** The generic path: `known` is the visible source set when the caller has one. */
  function GenericHistory(
      rs: seq<Record>, memories: seq<Memory>, known: Option<set<Id>>, build: Builder)
    : seq<Projected>
  {
    var projected := GenericView(rs);
    var visible := if known.Some? then known.value else VisibleSources(projected);
    Assemble(ActiveWindow(rs), projected, build(Unseen(memories, visible)))
  }

  /** The Claude path: the slice is the whole transcript, the projection leaves out what is snipped or excluded. */
  function ClaudeHistory(rs: seq<Record>, recipe: Option<Recipe>, o: Options, memories: seq<Memory>, build: Builder)
    : Result<seq<Projected>, ProjectionError>
  {
    match Project(rs, recipe, o)
    case Err(e) => Err(e)
    case Ok(projected) => Ok(Assemble(rs, projected, build(Unseen(memories, VisibleSources(projected)))))
  }

  function SessionMessages(view: seq<Projected>): seq<Projected> {
    Filter(IsSessionMessage, view)
  }

  /** Exactly one session-memory message if one was rebuilt, with its content; none otherwise. */
  predicate Coherent(view: seq<Projected>, rebuilt: Option<ContextAttachment>) {
    var memory := SessionMessages(view);
    if rebuilt.None? then memory == []
    else |memory| == 1 && memory[0].content.Text? && memory[0].content.text == rebuilt.value.content
  }

  // ---- Exact conditions ----

  lemma {:induction false} LiveSession(attachments: seq<ContextAttachment>)
    ensures SessionMessages(LiveMessages(attachments)) == LiveMessages(Filter(IsSessionAttachment, attachments))
  {
    if attachments == [] {
      assert LiveMessages(attachments) == [];
    } else {
      LiveSession(attachments[1..]);
      assert LiveMessages(attachments)[1..] == LiveMessages(attachments[1..]);
      assert LiveMessages([attachments[0]] + Filter(IsSessionAttachment, attachments[1..])) ==
             LiveMessages([attachments[0]]) + LiveMessages(Filter(IsSessionAttachment, attachments[1..]));
    }
  }

  /** What session memory the assembled view holds, whatever was projected. */
  lemma {:induction false} AssembledSession(
      slice: seq<Record>, projected: seq<Projected>, built: seq<ContextAttachment>)
    requires OneSessionAttachment(built)
    requires forall m | m in projected && IsSessionMessage(m) :: IsStaleCopy(m, Filter(IsSessionRow, slice))
    ensures var rows, rebuilt := Filter(IsSessionRow, slice), Rebuilt(built);
            SessionMessages(Assemble(slice, projected, built)) ==
            if Reuses(rows, rebuilt) then SessionMessages(projected)
            else if rebuilt.None? then [] else LiveMessages([rebuilt.value])
  {
    var rows, rebuilt := Filter(IsSessionRow, slice), Rebuilt(built);
    var reuses := Reuses(rows, rebuilt);
    var compacted := exists r | r in slice :: r.kind.Attachment?;
    var shown := WithoutStale(projected, rows, reuses);
    FilterConcat(IsSessionMessage, shown, LiveMessages(Live(built, reuses, compacted)));
    LiveSession(Live(built, reuses, compacted));
    LiveMemory(built, reuses, compacted);
    RebuiltIsAll(built);
    assert LiveMessages([]) == [];
    if reuses {
      assert SessionMessages(shown) + [] == SessionMessages(projected);
    } else {
      StaleGone(projected, rows);
    }
  }

  lemma {:induction false} RebuiltIsAll(built: seq<ContextAttachment>)
    requires OneSessionAttachment(built)
    ensures Filter(IsSessionAttachment, built) == if Rebuilt(built).None? then [] else [Rebuilt(built).value]
  {
  }

  lemma {:induction false} LiveMemory(built: seq<ContextAttachment>, reuses: bool, compacted: bool)
    ensures Filter(IsSessionAttachment, Live(built, reuses, compacted)) ==
            if reuses then [] else Filter(IsSessionAttachment, built)
  {
    var live := (a: ContextAttachment) => IsLive(a, reuses, compacted);
    if reuses {
      FilterMembers(live, built);
      FilterNone(IsSessionAttachment, Filter(live, built));
    } else {
      FilterTwice(IsSessionAttachment, live, IsSessionAttachment, built);
    }
  }

  lemma {:induction false} StaleGone(projected: seq<Projected>, rows: seq<Record>)
    requires forall m | m in projected && IsSessionMessage(m) :: IsStaleCopy(m, rows)
    ensures SessionMessages(WithoutStale(projected, rows, false)) == []
  {
    FilterMembers((m: Projected) => !IsStaleCopy(m, rows), projected);
    if rows == [] {
      assert IdSet(rows) == {};
    }
    FilterNone(IsSessionMessage, WithoutStale(projected, rows, false));
  }

  lemma {:induction false} GenericSession(rs: seq<Record>)
    ensures SessionMessages(ProjectGenericAll(rs)) == ProjectGenericAll(Filter(IsSessionRow, rs))
  {
    if rs != [] {
      GenericSession(rs[1..]);
      FilterConcat(IsSessionMessage, ProjectGeneric(rs[0]), ProjectGenericAll(rs[1..]));
      GenericSessionRow(rs[0]);
      if IsSessionRow(rs[0]) {
        var rows := [rs[0]] + Filter(IsSessionRow, rs[1..]);
        assert rows[1..] == Filter(IsSessionRow, rs[1..]);
      }
    }
  }

  lemma {:induction false} GenericSessionRow(r: Record)
    ensures Filter(IsSessionMessage, ProjectGeneric(r)) == if IsSessionRow(r) then ProjectGeneric(r) else []
  {
    var head := ProjectGeneric(r);
    if IsSessionRow(r) {
      FilterAll(IsSessionMessage, head);
    } else {
      FilterNone(IsSessionMessage, head);
    }
  }

  lemma {:induction false} GenericRow(r: Record)
    requires IsSessionRow(r)
    ensures ProjectGeneric(r) == [Projected(User, r.content, FromAttachment, Some(r.id), None, Some(SessionMemory))]
  {
  }

  lemma {:induction false} GenericSources(rs: seq<Record>)
    requires forall r | r in rs :: IsSessionRow(r)
    ensures forall m | m in ProjectGenericAll(rs) :: m.sourceId.Some? && m.sourceId.value in IdSet(rs)
    ensures |rs| == 1 ==> |ProjectGenericAll(rs)| == 1 && ProjectGenericAll(rs)[0].content == rs[0].content
  {
    if rs != [] {
      GenericSources(rs[1..]);
      GenericRow(rs[0]);
      assert rs == [rs[0]] + rs[1..];
      forall m | m in ProjectGenericAll(rs) ensures m.sourceId.Some? && m.sourceId.value in IdSet(rs) {
        assert m in ProjectGeneric(rs[0]) || m in ProjectGenericAll(rs[1..]);
      }
    }
  }

  lemma {:induction false} GenericCopies(rs: seq<Record>)
    ensures forall m | m in GenericView(rs) && IsSessionMessage(m) :: IsStaleCopy(m, Filter(IsSessionRow, ActiveWindow(rs)))
  {
    var slice, projected := ActiveWindow(rs), GenericView(rs);
    FilterMembers(IsSessionRow, slice);
    GenericSession(slice);
    GenericSources(Filter(IsSessionRow, slice));
    FilterMembers(IsSessionMessage, projected);
    forall m | m in projected && IsSessionMessage(m) ensures IsStaleCopy(m, Filter(IsSessionRow, slice)) {
      assert m in SessionMessages(projected);
    }
  }

  /** On the generic path the durable copies behave as a coherent cache of the session memory. */
  lemma {:induction false} GenericHistoryIsCoherent(
      rs: seq<Record>, memories: seq<Memory>, known: Option<set<Id>>, build: Builder)
    requires forall ms: seq<Memory> :: OneSessionAttachment(build(ms))
    ensures var visible := if known.Some? then known.value else VisibleSources(GenericView(rs));
            Coherent(GenericHistory(rs, memories, known, build), Rebuilt(build(Unseen(memories, visible))))
  {
    var slice, projected := ActiveWindow(rs), GenericView(rs);
    var rows := Filter(IsSessionRow, slice);
    var visible := if known.Some? then known.value else VisibleSources(projected);
    var built := build(Unseen(memories, visible));
    FilterMembers(IsSessionRow, slice);
    GenericSession(slice);
    GenericSources(rows);
    GenericCopies(rs);
    AssembledSession(slice, projected, built);
  }

  /** No memory whose source is visible has any influence on the view. */
  lemma {:induction false} VisibleMemoriesDoNotContribute(
      rs: seq<Record>, memories: seq<Memory>, known: Option<set<Id>>, build: Builder)
    ensures var visible := if known.Some? then known.value else VisibleSources(GenericView(rs));
            && GenericHistory(rs, memories, known, build) == GenericHistory(rs, Unseen(memories, visible), known, build)
            && forall m | m in Unseen(memories, visible) :: m.sourceRecord !in visible
  {
    var visible := if known.Some? then known.value else VisibleSources(GenericView(rs));
    var unseen := (m: Memory) => m.sourceRecord !in visible;
    FilterTwice(unseen, unseen, unseen, memories);
    FilterMembers(unseen, memories);
  }

  lemma {:induction false} ClaudeSession(rs: seq<Record>, o: Options)
    ensures forall m | m in ProjectAll(rs, o) && IsSessionMessage(m) ::
              m.sourceId.Some? && exists r :: r in rs && IsSessionRow(r) && r.id == m.sourceId.value
  {
    if rs != [] {
      ClaudeSession(rs[1..], o);
      assert rs == [rs[0]] + rs[1..];
    }
  }

  /** The durable copy is neither archived, nor snipped out, nor hidden from providers. */
  predicate CopyShown(rs: seq<Record>, recipe: Option<Recipe>, copy: Record) {
    && copy.id !in SnippedIds(rs) && !copy.providerExcluded
    && !(recipe.Some? && copy.id in ExcludedIds(recipe.value))
  }

  /** Rendering keeps the session rows and makes the session messages of them. */
  lemma {:induction false} SessionOfRows(rs: seq<Record>, o: Options)
    ensures SessionMessages(ProjectAll(rs, o)) == ProjectAll(Filter(IsSessionRow, rs), o)
  {
    if rs != [] {
      var head := if Renders(rs[0], o) then [ProjectRecord(rs[0], o).value] else [];
      SessionOfRows(rs[1..], o);
      FilterConcat(IsSessionMessage, head, ProjectAll(rs[1..], o));
      if IsSessionRow(rs[0]) {
        FilterAll(IsSessionMessage, head);
        assert ([rs[0]] + Filter(IsSessionRow, rs[1..]))[1..] == Filter(IsSessionRow, rs[1..]);
      } else {
        FilterNone(IsSessionMessage, head);
      }
    }
  }

  lemma {:induction false} TwoDiffer(rs: seq<Record>)
    requires UniqueIds(rs) && |rs| > 1
    ensures rs[0] != rs[1]
  {
    assert Ids(rs)[0] != Ids(rs)[1];
  }

  lemma {:induction false} AtMostThis(rs: seq<Record>, copy: Record)
    requires UniqueIds(rs) && forall i | 0 <= i < |rs| :: rs[i] == copy
    ensures rs == if copy in rs then [copy] else []
  {
    if |rs| > 1 {
      TwoDiffer(rs);
    } else if |rs| == 1 {
      assert rs[0] in rs;
    }
  }

  /** With one durable copy, the view selects it alone or no session row at all. */
  lemma {:induction false} SelectedCopy(rs: seq<Record>, recipe: Option<Recipe>, copy: Record)
    requires Select(rs, recipe).Ok? && Filter(IsSessionRow, rs) == [copy]
    ensures Filter(IsSessionRow, Select(rs, recipe).value) == if CopyShown(rs, recipe, copy) then [copy] else []
  {
    var selected := Select(rs, recipe).value;
    var rows := Filter(IsSessionRow, selected);
    SelectedUnique(rs, recipe);
    FilterUnique(IsSessionRow, selected);
    FilterMembers(IsSessionRow, selected);
    FilterMembers(IsSessionRow, rs);
    forall r | r in rows ensures r == copy {
      SelectedMembers(rs, recipe, r);
      assert r in [copy];
    }
    forall i | 0 <= i < |rows| ensures rows[i] == copy {
      assert rows[i] in rows;
    }
    AtMostThis(rows, copy);
    assert copy in [copy];
    SelectedMembers(rs, recipe, copy);
  }

  lemma {:induction false} RenderedCopy(copy: Record, o: Options)
    requires IsSessionRow(copy) && copy.content.Text?
    ensures ProjectAll([copy], o) ==
            [Projected(copy.role, copy.content, FromAttachment, Some(copy.id), copy.ResponseKey(), Some(SessionMemory))]
    ensures ProjectAll([], o) == []
  {
    assert [copy][1..] == [];
  }

  /** A copy that says what would be rebuilt makes the projection coherent exactly when it is shown. */
  lemma {:induction false} ReusedCopyTells(
      rs: seq<Record>, recipe: Option<Recipe>, o: Options, rebuilt: Option<ContextAttachment>)
    requires Select(rs, recipe).Ok? && Reuses(Filter(IsSessionRow, rs), rebuilt)
    ensures var copy := Filter(IsSessionRow, rs)[0];
            Coherent(ProjectAll(Select(rs, recipe).value, o), rebuilt) <==> CopyShown(rs, recipe, copy)
  {
    var rows := Filter(IsSessionRow, rs);
    FilterMembers(IsSessionRow, rs);
    assert rows == [rows[0]] && rows[0] in rows;
    SelectedCopy(rs, recipe, rows[0]);
    SessionOfRows(Select(rs, recipe).value, o);
    RenderedCopy(rows[0], o);
  }

  lemma {:induction false} ClaudeCopies(rs: seq<Record>, recipe: Option<Recipe>, o: Options)
    requires Project(rs, recipe, o).Ok?
    ensures forall m | m in Project(rs, recipe, o).value && IsSessionMessage(m) :: IsStaleCopy(m, Filter(IsSessionRow, rs))
  {
    var selected := Select(rs, recipe).value;
    FilterMembers(IsSessionRow, rs);
    ClaudeSession(selected, o);
    forall m | m in Project(rs, recipe, o).value && IsSessionMessage(m) ensures IsStaleCopy(m, Filter(IsSessionRow, rs)) {
      var r :| r in selected && IsSessionRow(r) && r.id == m.sourceId.value;
      SelectedMembers(rs, recipe, r);
      assert r in Filter(IsSessionRow, rs);
    }
  }

  /**
   On the Claude path the view is coherent if and only if a durable copy that would be reused is shown: not archived
   by the recipe, not snipped out and not hidden from providers.
   */
  lemma {:induction false} ClaudeHistoryIsCoherentIff(
      rs: seq<Record>, recipe: Option<Recipe>, o: Options, memories: seq<Memory>, build: Builder)
    requires forall ms: seq<Memory> :: OneSessionAttachment(build(ms))
    requires Project(rs, recipe, o).Ok?
    ensures var projected, rows := Project(rs, recipe, o).value, Filter(IsSessionRow, rs);
            var rebuilt := Rebuilt(build(Unseen(memories, VisibleSources(projected))));
            Coherent(ClaudeHistory(rs, recipe, o, memories, build).value, rebuilt) <==>
            (Reuses(rows, rebuilt) ==> CopyShown(rs, recipe, rows[0]))
  {
    var projected, rows := Project(rs, recipe, o).value, Filter(IsSessionRow, rs);
    var built := build(Unseen(memories, VisibleSources(projected)));
    ClaudeCopies(rs, recipe, o);
    AssembledSession(rs, projected, built);
    if Reuses(rows, Rebuilt(built)) {
      ReusedCopyTells(rs, recipe, o, Rebuilt(built));
    }
  }

  /** Snips name no attachment row: they are written with the ids of messages only. */
  ghost predicate SparesAttachments(rs: seq<Record>) {
    forall r | r in rs && r.kind.Attachment? :: r.id !in SnippedIds(rs)
  }

  /** A mounted context archives nothing it still holds and hides no attachment. */
  lemma {:induction false} MountedShowsCopies(c: Context, copy: Record)
    requires Mounted(c) && SparesAttachments(c.records) && copy in c.records && copy.kind.Attachment?
    ensures CopyShown(c.records, c.checkpoint, copy)
  {
    if c.checkpoint.Some? {
      var n: nat :| Replays(c.checkpoint.value, c.records, n);
      ExactExcluded(c.checkpoint.value);
      assert copy.id in IdSet(c.records);
    }
  }

  lemma {:induction false} ExactExcluded(recipe: Recipe)
    requires forall id | id in recipe.excluded :: Exact(id)
    ensures ExcludedIds(recipe) == Members(recipe.excluded)
  {
    forall i | 0 <= i < |recipe.excluded| ensures Trim(recipe.excluded[i]) == recipe.excluded[i] {
      assert recipe.excluded[i] in recipe.excluded;
      ExactIffTrimmed(recipe.excluded[i]);
    }
    forall id | id in Members(recipe.excluded) ensures id in ExcludedIds(recipe) {
      var i :| 0 <= i < |recipe.excluded| && recipe.excluded[i] == id;
      assert Trim(recipe.excluded[i]) == id;
    }
  }

  /** On every mounted context whose Snips spare the attachments, the Claude path is coherent too. */
  lemma {:induction false} MountedHistoryIsCoherent(
      c: Context, o: Options, memories: seq<Memory>, build: Builder)
    requires forall ms: seq<Memory> :: OneSessionAttachment(build(ms))
    requires Mounted(c) && SparesAttachments(c.records) && Project(c.records, c.checkpoint, o).Ok?
    ensures var projected := Project(c.records, c.checkpoint, o).value;
            Coherent(ClaudeHistory(c.records, c.checkpoint, o, memories, build).value,
                     Rebuilt(build(Unseen(memories, VisibleSources(projected)))))
  {
    var projected, rows := Project(c.records, c.checkpoint, o).value, Filter(IsSessionRow, c.records);
    ClaudeHistoryIsCoherentIff(c.records, c.checkpoint, o, memories, build);
    FilterMembers(IsSessionRow, c.records);
    if Reuses(rows, Rebuilt(build(Unseen(memories, VisibleSources(projected))))) {
      assert rows[0] in rows;
      MountedShowsCopies(c, rows[0]);
    }
  }
}
