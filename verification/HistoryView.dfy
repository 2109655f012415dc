/**
 The whole view that a provider gets: the projected conversation, and behind it what was built live for this view.
 */
module HistoryView {
  import opened Sequences
  import opened Identifiers
  import opened Transcript
  import opened ProviderMessage
  import opened ClaudeProjector
  import opened Attachments
  import opened ProviderViews
  import opened SessionMemoryView

  predicate NoSessionMemory(m: Projected) {
    m.attachment != Some(SessionMemory)
  }

  /** One user text message for each attachment, with its content and kind, and no record behind it. */
  ghost predicate Say(ms: seq<Projected>, attachments: seq<ContextAttachment>) {
    && |ms| == |attachments|
    && forall i | 0 <= i < |ms| ::
         && ms[i].role.User? && ms[i].content == Text(attachments[i].content, [])
         && ms[i].source.FromAttachment? && ms[i].attachment == Some(attachments[i].kind)
         && ms[i].sourceId == None && ms[i].messageKey == None
  }

  /** The slice has a single durable copy of the session memory, and it says what was built. */
  ghost predicate CopyTells(slice: seq<Record>, built: seq<ContextAttachment>) {
    exists copy: Record, a: ContextAttachment ::
      && Filter((r: Record) => r.kind == Attachment(SessionMemory), slice) == [copy]
      && a in built && a.kind.SessionMemory? && copy.content.Text? && copy.content.text == a.content
  }

  /**
   The projected messages, in front, lose their session memory unless the durable copy still tells it; then it is
   built anew. Every other attachment is live exactly when the slice holds no attachment row at all.
   */
  ghost predicate IsHistory(
      view: seq<Projected>, slice: seq<Record>, projected: seq<Projected>, built: seq<ContextAttachment>,
      live: seq<Projected>, added: seq<ContextAttachment>)
  {
    var tells, bare := CopyTells(slice, built), forall r | r in slice :: !r.kind.Attachment?;
    && view == (if tells then projected else Filter(NoSessionMemory, projected)) + live
    && added == Filter((a: ContextAttachment) => if a.kind.SessionMemory? then !tells else bare, built)
    && Say(live, added)
  }

  lemma {:induction false} ReusesIff(slice: seq<Record>, built: seq<ContextAttachment>)
    requires OneSessionAttachment(built)
    ensures Reuses(Filter(IsSessionRow, slice), Rebuilt(built)) <==> CopyTells(slice, built)
  {
    var rows := Filter(IsSessionRow, slice);
    FilterAgree(IsSessionRow, (r: Record) => r.kind == Attachment(SessionMemory), slice);
    FilterMembers(IsSessionAttachment, built);
    RebuiltIsAll(built);
    if Reuses(rows, Rebuilt(built)) {
      var a := Rebuilt(built).value;
      assert rows == [rows[0]];
      assert a in Filter(IsSessionAttachment, built);
    }
  }

  /** The messages that survive when the stale copies go. */
  lemma {:induction false} FrontIs(projected: seq<Projected>, rows: seq<Record>, reuses: bool)
    requires forall m | m in projected && IsSessionMessage(m) :: IsStaleCopy(m, rows)
    ensures WithoutStale(projected, rows, reuses) == if reuses then projected else Filter(NoSessionMemory, projected)
  {
    if !reuses {
      if rows == [] {
        assert IdSet(rows) == {};
        FilterAll(NoSessionMemory, projected);
      } else {
        FilterAgree((m: Projected) => !IsStaleCopy(m, rows), NoSessionMemory, projected);
      }
    }
  }

  lemma {:induction false} AssembledIs(slice: seq<Record>, projected: seq<Projected>, built: seq<ContextAttachment>)
    returns (live: seq<Projected>, added: seq<ContextAttachment>)
    requires OneSessionAttachment(built)
    requires forall m | m in projected && IsSessionMessage(m) :: IsStaleCopy(m, Filter(IsSessionRow, slice))
    ensures IsHistory(Assemble(slice, projected, built), slice, projected, built, live, added)
  {
    var rows := Filter(IsSessionRow, slice);
    var tells, bare := CopyTells(slice, built), forall r | r in slice :: !r.kind.Attachment?;
    ReusesIff(slice, built);
    FrontIs(projected, rows, tells);
    added := Live(built, tells, !bare);
    FilterAgree((a: ContextAttachment) => IsLive(a, tells, !bare),
                (a: ContextAttachment) => if a.kind.SessionMemory? then !tells else bare, built);
    live := LiveMessages(added);
  }

  // ---- Which memories count as seen ----

  /** A memory is repeated unless the message that it comes from is itself in the view. */
  ghost predicate Repeated(told: seq<Memory>, memories: seq<Memory>, shown: seq<Record>) {
    told == Filter((m: Memory) => forall r | r in shown && r.kind.Message? :: r.id != m.sourceRecord, memories)
  }

  lemma {:induction false} SeenAre(view: seq<Projected>, shown: seq<Record>, memories: seq<Memory>)
    requires |view| == |shown|
    requires forall i | 0 <= i < |view| ::
               view[i].sourceId == Some(shown[i].id) && (view[i].source.FromRecord? <==> shown[i].kind.Message?)
    ensures Repeated(Unseen(memories, VisibleSources(view)), memories, shown)
  {
    var visible := VisibleSources(view);
    forall id ensures id !in visible <==> forall r | r in shown && r.kind.Message? :: r.id != id {
      if id in visible {
        var m :| m in view && m.source.FromRecord? && m.sourceId == Some(id);
        var i :| 0 <= i < |view| && view[i] == m;
        assert shown[i] in shown;
      }
      if r :| r in shown && r.kind.Message? && r.id == id {
        var i :| 0 <= i < |shown| && shown[i] == r;
        assert view[i] in view;
      }
    }
    FilterAgree((m: Memory) => m.sourceRecord !in visible,
                (m: Memory) => forall r | r in shown && r.kind.Message? :: r.id != m.sourceRecord, memories);
  }

  // ---- Both paths ----

  /**
   The generic path, for every transcript. `shown` are the rows behind the projected messages and `told` the memories
   that were handed to the builder.
   */
  lemma {:induction false} GenericHistoryIs(
      rs: seq<Record>, memories: seq<Memory>, known: Option<set<Id>>, build: Builder)
    returns (shown: seq<Record>, told: seq<Memory>, live: seq<Projected>, added: seq<ContextAttachment>)
    requires forall ms: seq<Memory> :: OneSessionAttachment(build(ms))
    ensures AllShowPlainly(GenericView(rs), shown)
    ensures known.None? ==> Repeated(told, memories, shown)
    ensures known.Some? ==> told == Filter((m: Memory) => m.sourceRecord !in known.value, memories)
    ensures IsHistory(GenericHistory(rs, memories, known, build), ActiveWindow(rs), GenericView(rs), build(told),
                      live, added)
  {
    var start;
    start, shown := GenericViewShows(rs);
    told := Unseen(memories, if known.Some? then known.value else VisibleSources(GenericView(rs)));
    if known.None? {
      SeenAre(GenericView(rs), shown, memories);
    }
    GenericCopies(rs);
    live, added := AssembledIs(ActiveWindow(rs), GenericView(rs), build(told));
  }

  /** The Claude path: a view that cannot be projected is refused, every other one is this. */
  lemma {:induction false} ClaudeHistoryIs(
      rs: seq<Record>, recipe: Option<Recipe>, o: Options, memories: seq<Memory>, build: Builder)
    returns (shown: seq<Record>, told: seq<Memory>, live: seq<Projected>, added: seq<ContextAttachment>)
    requires forall ms: seq<Memory> :: OneSessionAttachment(build(ms))
    ensures Project(rs, recipe, o).Err? ==>
              ClaudeHistory(rs, recipe, o, memories, build) == Err(Project(rs, recipe, o).error)
    ensures Project(rs, recipe, o).Ok? ==>
              && AllShow(Project(rs, recipe, o).value, shown, o) && Repeated(told, memories, shown)
              && ClaudeHistory(rs, recipe, o, memories, build).Ok?
              && IsHistory(ClaudeHistory(rs, recipe, o, memories, build).value, rs, Project(rs, recipe, o).value,
                           build(told), live, added)
  {
    if Project(rs, recipe, o).Err? {
      return [], [], [], [];
    }
    var projected := Project(rs, recipe, o).value;
    shown := Filter((r: Record) => Renders(r, o), Select(rs, recipe).value);
    AllRenderedShow(Select(rs, recipe).value, o);
    told := Unseen(memories, VisibleSources(projected));
    SeenAre(projected, shown, memories);
    ClaudeCopies(rs, recipe, o);
    live, added := AssembledIs(rs, projected, build(told));
  }

  /** Of such a view: the conversation is exactly what was projected, with the other attachments behind it. */
  lemma {:induction false} ConversationStays(
      view: seq<Projected>, slice: seq<Record>, projected: seq<Projected>, built: seq<ContextAttachment>,
      live: seq<Projected>, added: seq<ContextAttachment>) returns (others: seq<Projected>)
    requires IsHistory(view, slice, projected, built, live, added)
    ensures Filter(NoSessionMemory, view) == Filter(NoSessionMemory, projected) + others
    ensures if exists r | r in slice :: r.kind.Attachment? then others == []
            else Say(others, Filter((a: ContextAttachment) => !a.kind.SessionMemory?, built))
  {
    var tells, bare := CopyTells(slice, built), forall r | r in slice :: !r.kind.Attachment?;
    var front := if tells then projected else Filter(NoSessionMemory, projected);
    FilterTwice(NoSessionMemory, NoSessionMemory, NoSessionMemory, projected);
    FilterConcat(NoSessionMemory, front, live);
    others := Filter(NoSessionMemory, live);
    var other := (a: ContextAttachment) => !a.kind.SessionMemory?;
    var isLive := (a: ContextAttachment) => if a.kind.SessionMemory? then !tells else bare;
    OthersSay(live, added);
    if bare {
      FilterTwice(other, isLive, other, built);
    } else {
      FilterMembers(isLive, built);
      FilterNone(other, added);
    }
  }

  lemma {:induction false} OthersSay(live: seq<Projected>, added: seq<ContextAttachment>)
    requires Say(live, added)
    ensures Say(Filter(NoSessionMemory, live), Filter((a: ContextAttachment) => !a.kind.SessionMemory?, added))
  {
    if live != [] {
      SayRest(live, added);
      OthersSay(live[1..], added[1..]);
      var ms := Filter(NoSessionMemory, live[1..]);
      var others := Filter((a: ContextAttachment) => !a.kind.SessionMemory?, added[1..]);
      forall i | 0 < i < |ms| + 1
        ensures ([live[0]] + ms)[i] == ms[i - 1] && ([added[0]] + others)[i] == others[i - 1]
      {
      }
    }
  }

  lemma {:induction false} SayRest(live: seq<Projected>, added: seq<ContextAttachment>)
    requires Say(live, added) && live != []
    ensures Say(live[1..], added[1..])
  {
  }
}
