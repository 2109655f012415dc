/** Compaction and the provider's tool protocol: what a compaction leaves of a conversation that is whole. */
module CompactionProtocol {
  import opened Sequences
  import opened Identifiers
  import opened Transcript
  import opened ToolProtocol
  import opened RoundCut
  import opened RowRemoval
  import opened PairCut
  import opened ToolGate
  import opened ProviderMessage
  import opened ClaudeProjector
  import opened Compaction
  import opened CompactionInstall
  import opened CompactionOutcome

  predicate Speaks(r: Record) {
    !Neutral(r)
  }

  /** User text raises no tool event, so it may be added and removed freely. */
  lemma {:induction false} SilentRows(rs: seq<Record>)
    ensures Events(Turns(rs)) == Events(Turns(Filter(Speaks, rs)))
  {
    if rs != [] {
      SilentRows(rs[1..]);
      var head, rest := [rs[0]], rs[1..];
      assert rs == head + rest;
      TurnsConcat(head, rest);
      EventsConcat(Turns(head), Turns(rest));
      assert Turns(head)[1..] == [];
      if Speaks(rs[0]) {
        TurnsConcat(head, Filter(Speaks, rest));
        EventsConcat(Turns(head), Turns(Filter(Speaks, rest)));
      } else {
        assert TurnEvents(Turn(rs[0].role, rs[0].content)) == [];
      }
    }
  }

  lemma {:induction false} SameSpeech(a: seq<Record>, b: seq<Record>)
    requires Filter(Speaks, a) == Filter(Speaks, b)
    ensures Events(Turns(a)) == Events(Turns(b))
  {
    SilentRows(a);
    SilentRows(b);
  }

  /** The summary and the new rows add nothing to the events of the retained rows. */
  lemma {:induction false} ViewSpeaks(l: Layout)
    requires Neutral(l.summary) && forall r | r in l.trailing :: Neutral(r)
    ensures Events(Turns(l.View())) == Events(Turns(l.retained))
  {
    FilterNone(Speaks, [l.summary]);
    FilterNone(Speaks, l.trailing);
    if l.mode.From? {
      FilterConcat(Speaks, l.retained + [l.summary], l.trailing);
      FilterConcat(Speaks, l.retained, [l.summary]);
    } else {
      FilterConcat(Speaks, [l.summary] + l.retained, l.trailing);
      FilterConcat(Speaks, [l.summary], l.retained);
    }
    SameSpeech(l.View(), l.retained);
  }

  /** The rows a compaction accounts for carry every tool event of the view. */
  lemma {:induction false} SourceSpeaks(c: Context)
    requires Mounted(c)
    ensures Events(Turns(Visible(c.records))) == Events(Turns(SourceRecords(c.records)))
  {
    SourceIsVisibleSource(c);
    var snipped := SnippedIds(c.records);
    var visible := Visible(c.records);
    FilterMembers((r: Record) => !r.IsMarker() && r.id !in snipped, c.records);
    FilterTwice(Speaks, IsSource, Speaks, visible);
    SameSpeech(visible, SourceRecords(c.records));
  }

  // ---- The two sides as parts of the source ----

  function AnyOf(rs: seq<Record>): Record -> bool {
    (r: Record) => r in rs
  }

  /** Taking the archived rows out of the source leaves the retained ones. */
  lemma {:induction false} SidesAreParts(c: Context, candidate: Candidate)
    requires Mounted(c) && FromSource(c, candidate)
    ensures Filter(AnyOf(candidate.retained), SourceRecords(c.records)) == candidate.retained
    ensures Rest(AnyOf(candidate.retained), SourceRecords(c.records)) == candidate.archived
  {
    SidesOfCandidate(c, candidate);
    var a, b := candidate.archived, candidate.retained;
    forall r | r in a ensures r !in b {
      assert r in b ==> r.id in IdSet(a) && r.id in IdSet(b);
    }
    PartsOfBoth(a, b, AnyOf(b));
  }

  lemma {:induction false} PartsOfBoth(a: seq<Record>, b: seq<Record>, p: Record -> bool)
    requires (forall r | r in a :: !p(r)) && (forall r | r in b :: p(r))
    ensures Filter(p, a + b) == b && Filter(p, b + a) == b
    ensures Rest(p, a + b) == a && Rest(p, b + a) == a
  {
    var q := (r: Record) => !p(r);
    FilterNone(p, a);
    FilterAll(p, b);
    FilterAll(q, a);
    FilterNone(q, b);
    FilterConcat(p, a, b);
    FilterConcat(p, b, a);
    FilterConcat(q, a, b);
    FilterConcat(q, b, a);
  }

  /** Of a partial split, one side answers its own calls exactly when both sides are accepted. */
  lemma {:induction false} OneSideTells(source: seq<Record>, cut: nat)
    requires Accepts(Turns(source)) && cut <= |source|
    ensures SelfContained(source[..cut]) <==> WholeAt(source, cut)
    ensures SelfContained(source[cut..]) <==> WholeAt(source, cut)
  {
    SidesShareNoIds(source, cut);
    WholeIffNoPairSevered(source, cut);
    if WholeAt(source, cut) {
      AcceptedIsAnswered(Events(Turns(source[..cut])));
      AcceptedIsAnswered(Events(Turns(source[cut..])));
    }
    if SelfContained(source[..cut]) || SelfContained(source[cut..]) {
      forall id ensures !SeversPair(source, cut, id) {
      }
    }
  }

  /** No pair that the cut severs is masked by texts; a full compaction severs none. */
  ghost predicate Unmasked(source: seq<Record>, mode: Mode, cut: nat) {
    mode.Full? || forall id :: !Masked(source, cut, id)
  }

  lemma {:induction false} CandidateIsPassed(
      c: Context, mode: Mode, pivotId: Option<Id>, commitId: Id, cut: nat, candidate: Candidate)
    requires IsCandidate(c, mode, pivotId, commitId, cut, Some(candidate))
    ensures mode.Full? ==> candidate.archived == SourceRecords(c.records) && candidate.retained == []
    ensures !mode.Full? ==>
              var source := SourceRecords(c.records);
              && cut <= |source| && GlobalIntegrity(source[..cut]) && GlobalIntegrity(source[cut..])
              && candidate.archived == (if mode.UpTo? then source[..cut] else source[cut..])
              && candidate.retained == (if mode.UpTo? then source[cut..] else source[..cut])
  {
  }

  /** What an accepted source offers is whole on both sides, unless texts masked a severed pair from the gate. */
  lemma {:induction false} CandidateKeepsToolPairsIff(
      c: Context, mode: Mode, pivotId: Option<Id>, commitId: Id, cut: nat, candidate: Candidate)
    requires IsCandidate(c, mode, pivotId, commitId, cut, Some(candidate))
    requires Accepts(Turns(SourceRecords(c.records)))
    ensures Accepts(Turns(candidate.archived)) && Accepts(Turns(candidate.retained)) <==>
            Unmasked(SourceRecords(c.records), mode, cut)
    ensures SelfContained(candidate.archived) <==> Unmasked(SourceRecords(c.records), mode, cut)
    ensures SelfContained(candidate.retained) <==> Unmasked(SourceRecords(c.records), mode, cut)
    ensures Accepts(Turns(candidate.retained)) ==> SelfContained(candidate.retained)
  {
    var source := SourceRecords(c.records);
    CandidateIsPassed(c, mode, pivotId, commitId, cut, candidate);
    if mode.Full? {
      assert Turns([]) == [] && Events([]) == [];
      AcceptedIsAnswered(Events(Turns(source)));
    } else {
      PassedCutIsWholeIff(source, cut);
      OneSideTells(source, cut);
      if Accepts(Turns(candidate.retained)) {
        AcceptedIsAnswered(Events(Turns(candidate.retained)));
      }
    }
  }

  /**
   If the visible conversation is accepted, then for every mode, pivot and cut that is offered: the archived side,
   the retained side and the whole view after the install, with the summary and the new attachment and hook rows in
   their places, are accepted, if and only if no text masked a severed pair from the gate.
   */
  lemma {:induction false} CompactionKeepsToolPairsIff(
      c: Context, mode: Mode, pivotId: Option<Id>, commitId: Id, cut: nat, candidate: Candidate,
      summary: string, extras: Extras)
    requires Mounted(c) && IsCandidate(c, mode, pivotId, commitId, cut, Some(candidate))
    requires FreshExtras(c, candidate.commitId, extras) && Accepts(Turns(Visible(c.records)))
    ensures candidate.archived != []
    ensures Accepts(Turns(candidate.archived)) && Accepts(Turns(candidate.retained)) <==>
            Unmasked(SourceRecords(c.records), mode, cut)
    ensures Accepts(Turns(LayoutOf(c, candidate, summary, extras).View())) <==>
            Unmasked(SourceRecords(c.records), mode, cut)
  {
    CandidateFromSource(c, mode, pivotId, commitId, cut, Some(candidate));
    SourceSpeaks(c);
    CandidateKeepsToolPairsIff(c, mode, pivotId, commitId, cut, candidate);
    ViewSpeaks(LayoutOf(c, candidate, summary, extras));
  }

  // ---- What comes after a compaction ----

  lemma {:induction false} ContinuedSource(
      c: Context, candidate: Candidate, summary: string, extras: Extras, w: seq<Record>)
    requires Mounted(c) && FromSource(c, candidate) && FreshExtras(c, candidate.commitId, extras)
    ensures Accepts(Turns(Visible(c.records) + w)) == Accepts(Turns(SourceRecords(c.records) + w))
    ensures Accepts(Turns(LayoutOf(c, candidate, summary, extras).View() + w)) ==
            Accepts(Turns(candidate.retained + w))
    ensures Accepts(Turns(Visible(c.records))) == Accepts(Turns(SourceRecords(c.records)))
  {
    var l := LayoutOf(c, candidate, summary, extras);
    ContinuedEvents(Visible(c.records), w);
    ContinuedEvents(SourceRecords(c.records), w);
    ContinuedEvents(l.View(), w);
    ContinuedEvents(candidate.retained, w);
    SourceSpeaks(c);
    ViewSpeaks(l);
  }

  /**
   A compaction is invisible to the future exactly when it archives rows that answer the calls they make: of any
   continuation that the conversation would have accepted, the compacted one accepts it if and only if that is so.
   For a full compaction it means that no call is open; for a partial one, which has passed the gate, that no text
   deceived the gate about an id on the archived side.
   */
  lemma {:induction false} TransparentIffSelfContained(
      c: Context, mode: Mode, pivotId: Option<Id>, commitId: Id, cut: nat, candidate: Candidate,
      summary: string, extras: Extras, w: seq<Record>)
    requires Mounted(c) && IsCandidate(c, mode, pivotId, commitId, cut, Some(candidate))
    requires FreshExtras(c, candidate.commitId, extras) && Accepts(Turns(Visible(c.records) + w))
    ensures candidate.archived != []
    ensures Accepts(Turns(LayoutOf(c, candidate, summary, extras).View() + w)) <==> SelfContained(candidate.archived)
    ensures mode.Full? ==> (SelfContained(candidate.archived) <==> Accepts(Turns(Visible(c.records))))
    ensures !mode.Full? ==> (SelfContained(candidate.archived) <==> forall id :: !Misread(candidate.archived, id))
  {
    CandidateFromSource(c, mode, pivotId, commitId, cut, Some(candidate));
    ContinuedSource(c, candidate, summary, extras, w);
    SidesAreParts(c, candidate);
    var source := SourceRecords(c.records);
    RemovalTransparentIff(AnyOf(candidate.retained), source, w);
    CandidateIsPassed(c, mode, pivotId, commitId, cut, candidate);
    if mode.Full? {
      SettledIffSelfContained(source, w);
    } else {
      OfferedGateIsExact(source, mode, cut, candidate, w);
    }
  }

  lemma {:induction false} OfferedGateIsExact(
      source: seq<Record>, mode: Mode, cut: nat, candidate: Candidate, w: seq<Record>)
    requires !mode.Full? && cut <= |source| && Accepts(Turns(source + w)) && GlobalIntegrity(candidate.archived)
    requires candidate.archived == if mode.UpTo? then source[..cut] else source[cut..]
    ensures SelfContained(candidate.archived) <==> forall id :: !Misread(candidate.archived, id)
  {
    CallsByAssistants(source + w);
    ByAssistantParts(source, w);
    assert source[..cut] + source[cut..] == source;
    ByAssistantParts(source[..cut], source[cut..]);
    GateIsExact(candidate.archived);
  }

  // ---- What a provider is sent ----

  /** Replacing, clearing and dropping blocks for a provider leaves every tool event in place. */
  lemma {:induction false} ProjectedBlockEvents(role: Role, bs: seq<Block>, o: Options)
    ensures BlockEvents(role, ProjectBlocks(bs, o)) == BlockEvents(role, bs)
  {
    if bs != [] {
      ProjectedBlockEvents(role, bs[1..], o);
      BlockEventsConcat(role, ProjectBlock(bs[0], o), ProjectBlocks(bs[1..], o));
      ProjectedBlockEvent(role, bs[0], o);
      BlockEventsConcat(role, [bs[0]], bs[1..]);
      assert [bs[0]] + bs[1..] == bs;
    }
  }

  lemma {:induction false} ProjectedBlockEvent(role: Role, b: Block, o: Options)
    ensures BlockEvents(role, ProjectBlock(b, o)) == BlockEvents(role, [b])
  {
    assert [b][1..] == [];
    assert ProjectBlock(b, o) != [] ==> ProjectBlock(b, o)[1..] == [];
  }

  lemma {:induction false} ProjectedTurnEvents(r: Record, o: Options)
    ensures TurnEvents(Turn(r.role, ProjectContent(r.content, o))) == TurnEvents(Turn(r.role, r.content))
    ensures Emptied(r, o) ==> TurnEvents(Turn(r.role, r.content)) == if r.role.Assistant? then [AssistantTurn] else []
  {
    if r.content.Blocks? {
      ProjectedBlockEvents(r.role, r.content.blocks, o);
    }
  }

  lemma {:induction false} OneTurnMore(head: Turn, rest: seq<Turn>, st: Protocol)
    ensures Run(st, Events([head] + rest)) == Run(Run(st, TurnEvents(head)), Events(rest))
  {
    assert ([head] + rest)[1..] == rest;
    RunConcat(st, TurnEvents(head), Events(rest));
  }

  lemma {:induction false} RunFromHead(rs: seq<Record>, st: Protocol)
    requires rs != []
    ensures Run(st, Events(Turns(rs))) ==
            Run(Run(st, TurnEvents(Turn(rs[0].role, rs[0].content))), Events(Turns(rs[1..])))
  {
    var turn := Turn(rs[0].role, rs[0].content);
    assert Turns(rs) == [turn] + Turns(rs[1..]);
    OneTurnMore(turn, Turns(rs[1..]), st);
  }

  lemma {:induction false} RunRenderedHead(rs: seq<Record>, o: Options, st: Protocol)
    requires rs != [] && Renders(rs[0], o)
    ensures Run(st, Events(TurnsOf(ProjectAll(rs, o)))) ==
            Run(Run(st, TurnEvents(Turn(rs[0].role, rs[0].content))), Events(TurnsOf(ProjectAll(rs[1..], o))))
  {
    var rendered := Turn(rs[0].role, ProjectContent(rs[0].content, o));
    ProjectedTurnEvents(rs[0], o);
    assert TurnsOf(ProjectAll(rs, o)) == [rendered] + TurnsOf(ProjectAll(rs[1..], o));
    OneTurnMore(rendered, TurnsOf(ProjectAll(rs[1..], o)), st);
  }

  /** Rendering an accepted conversation for a provider gives an accepted conversation. */
  lemma {:induction false} RenderingKeepsToolPairs(rs: seq<Record>, o: Options, st: Protocol)
    requires forall r | r in rs :: !r.IsMarker()
    requires Verdict(Run(st, Events(Turns(rs)))).None?
    ensures Verdict(Run(st, Events(TurnsOf(ProjectAll(rs, o))))).None?
  {
    if rs == [] {
      assert Turns(rs) == [] && TurnsOf(ProjectAll(rs, o)) == [];
    } else {
      var next := Run(st, TurnEvents(Turn(rs[0].role, rs[0].content)));
      RunFromHead(rs, st);
      RenderingKeepsToolPairs(rs[1..], o, next);
      if Renders(rs[0], o) {
        RunRenderedHead(rs, o, st);
      } else {
        assert rs[0] in rs;
        SkippedTurn(rs[0], o, st);
        BrokenStays(next, Events(Turns(rs[1..])));
        assert ProjectAll(rs, o) == ProjectAll(rs[1..], o);
      }
    }
  }

  lemma {:induction false} BrokenStays(st: Protocol, es: seq<Event>)
    requires Verdict(Run(st, es)).None?
    ensures st.Open?
  {
  }

  lemma {:induction false} SkippedTurn(r: Record, o: Options, st: Protocol)
    requires Emptied(r, o)
    ensures var next := Run(st, TurnEvents(Turn(r.role, r.content))); next == st || next.Broken?
  {
    ProjectedTurnEvents(r, o);
    assert [AssistantTurn][1..] == [];
  }

  /** Rendering leaves the ids that are used and answered as they are. */
  lemma {:induction false} RenderedIds(rs: seq<Record>, o: Options)
    requires forall r | r in rs :: !r.IsMarker()
    ensures var es := Events(TurnsOf(ProjectAll(rs, o))); UseIds(es) == Calls(rs) && AnswerIds(es) == Replies(rs)
  {
    if rs == [] {
      assert Turns(rs) == [] && TurnsOf(ProjectAll(rs, o)) == [];
    } else {
      RenderedIds(rs[1..], o);
      assert rs[0] in rs;
      RenderedHeadIds(rs, o);
      TurnsOfHead(rs);
      EventIdsConcat(TurnEvents(Turn(rs[0].role, rs[0].content)), Events(Turns(rs[1..])));
    }
  }

  lemma {:induction false} TurnsOfHead(rs: seq<Record>)
    requires rs != []
    ensures Events(Turns(rs)) == TurnEvents(Turn(rs[0].role, rs[0].content)) + Events(Turns(rs[1..]))
  {
    assert Turns(rs)[1..] == Turns(rs[1..]);
  }

  lemma {:induction false} RenderedHeadIds(rs: seq<Record>, o: Options)
    requires rs != [] && !rs[0].IsMarker()
    ensures var turn := TurnEvents(Turn(rs[0].role, rs[0].content));
            var es, rest := Events(TurnsOf(ProjectAll(rs, o))), Events(TurnsOf(ProjectAll(rs[1..], o)));
            UseIds(es) == UseIds(turn) + UseIds(rest) && AnswerIds(es) == AnswerIds(turn) + AnswerIds(rest)
  {
    var rendered, rest := Turn(rs[0].role, ProjectContent(rs[0].content, o)), TurnsOf(ProjectAll(rs[1..], o));
    ProjectedTurnEvents(rs[0], o);
    if Renders(rs[0], o) {
      assert TurnsOf(ProjectAll(rs, o)) == [rendered] + rest;
      assert ([rendered] + rest)[1..] == rest;
      EventIdsConcat(TurnEvents(rendered), Events(rest));
    } else {
      assert ProjectAll(rs, o) == ProjectAll(rs[1..], o);
      assert UseIds(TurnEvents(Turn(rs[0].role, rs[0].content))) == {};
    }
  }

  /**
   When nothing retained is hidden from providers, the plan for an accepted conversation is refused if and only if
   texts masked a severed pair from the gate and the provider is Claude: the assertion over the new view is the last
   line of defence, and only the Claude projection has it.
   */
  lemma {:induction false} CompactionRefusedIffMasked(
      c: Context, mode: Mode, pivotId: Option<Id>, commitId: Id, cut: nat, candidate: Candidate,
      summary: string, extras: Extras, o: Options)
    requires Mounted(c) && IsCandidate(c, mode, pivotId, commitId, cut, Some(candidate))
    requires FreshExtras(c, candidate.commitId, extras) && Accepts(Turns(Visible(c.records)))
    requires forall r | r in candidate.retained :: !r.providerExcluded
    ensures candidate.archived != []
    ensures BuildPlan(c, candidate, summary, extras, o).Ok? <==>
            o.claude ==> Unmasked(SourceRecords(c.records), mode, cut)
  {
    CandidateFromSource(c, mode, pivotId, commitId, cut, Some(candidate));
    CompactionKeepsToolPairsIff(c, mode, pivotId, commitId, cut, candidate, summary, extras);
    PlanOkIff(c, candidate, summary, extras, o);
    SourceSpeaks(c);
    CandidateKeepsToolPairsIff(c, mode, pivotId, commitId, cut, candidate);
  }

  /** A plan that hides nothing succeeds if its view is accepted, and only if the view answers its own calls. */
  lemma {:induction false} PlanOkIff(c: Context, candidate: Candidate, summary: string, extras: Extras, o: Options)
    requires Mounted(c) && FromSource(c, candidate) && FreshExtras(c, candidate.commitId, extras)
    requires forall r | r in candidate.retained :: !r.providerExcluded
    ensures Accepts(Turns(LayoutOf(c, candidate, summary, extras).View())) ==>
              BuildPlan(c, candidate, summary, extras, o).Ok?
    ensures !o.claude ==> BuildPlan(c, candidate, summary, extras, o).Ok?
    ensures o.claude && BuildPlan(c, candidate, summary, extras, o).Ok? ==> SelfContained(candidate.retained)
  {
    PlanOutcome(c, candidate, summary, extras, o);
    var l := LayoutOf(c, candidate, summary, extras);
    ViewForProvider(c, candidate, summary, extras);
    ViewSpeaks(l);
    if Accepts(Turns(l.View())) {
      RenderingKeepsToolPairs(l.View(), o, START);
    }
    if o.claude && BuildPlan(c, candidate, summary, extras, o).Ok? {
      AcceptedIsAnswered(Events(TurnsOf(PlannedView(l, o))));
      RenderedIds(l.View(), o);
    }
  }

  lemma {:induction false} ViewForProvider(c: Context, candidate: Candidate, summary: string, extras: Extras)
    requires Mounted(c) && FromSource(c, candidate) && FreshExtras(c, candidate.commitId, extras)
    requires forall r | r in candidate.retained :: !r.providerExcluded
    ensures var l := LayoutOf(c, candidate, summary, extras);
            Filter(ForProvider, l.View()) == l.View() && forall r | r in l.View() :: !r.IsMarker()
  {
    PlanIsSound(c, candidate, summary, extras);
    SoundViewForProvider(c.records, LayoutOf(c, candidate, summary, extras));
  }

  lemma {:induction false} SoundViewForProvider(rs: seq<Record>, l: Layout)
    requires Sound(rs, l) && forall r | r in l.retained :: !r.providerExcluded
    ensures Filter(ForProvider, l.View()) == l.View() && forall r | r in l.View() :: !r.IsMarker()
  {
    forall r | r in l.View() ensures ForProvider(r) && !r.IsMarker() {
      assert r == l.summary || r in l.trailing || r in l.retained;
      assert l.Adds(r) || r in l.retained;
    }
    FilterAll(ForProvider, l.View());
  }

  /** The turns of the generic view are those of the visible rows. */
  lemma {:induction false} GenericTurns(rs: seq<Record>)
    requires forall r | r in rs && !r.kind.Message? :: Neutral(r)
    ensures TurnsOf(ProjectGenericAll(rs)) == Turns(Filter((r: Record) => !r.IsMarker(), rs))
  {
    if rs != [] {
      GenericTurns(rs[1..]);
      GenericTurn(rs[0]);
      TurnsOfConcat(ProjectGeneric(rs[0]), ProjectGenericAll(rs[1..]));
    }
  }

  lemma {:induction false} TurnsOfConcat(a: seq<Projected>, b: seq<Projected>)
    ensures TurnsOf(a + b) == TurnsOf(a) + TurnsOf(b)
  {
  }

  lemma {:induction false} GenericTurn(r: Record)
    requires r.kind.Message? || Neutral(r)
    ensures TurnsOf(ProjectGeneric(r)) == if r.IsMarker() then [] else [Turn(r.role, r.content)]
  {
  }

  lemma {:induction false} GenericViewTurns(c: Context)
    requires Mounted(c)
    ensures TurnsOf(GenericView(c.records)) == Turns(Visible(c.records))
  {
    var rs, snipped := c.records, SnippedIds(c.records);
    MountedWindow(c);
    var kept := (r: Record) => r.id !in snipped;
    var visible := (r: Record) => !r.IsMarker() && r.id !in snipped;
    FilterMembers(kept, rs);
    GenericTurns(ActiveWindow(rs));
    FilterTwice((r: Record) => !r.IsMarker(), kept, visible, rs);
  }

  /** Both projections of a mounted context hand an accepted conversation on as an accepted conversation. */
  lemma {:induction false} ViewsKeepToolPairs(c: Context, o: Options)
    requires Mounted(c) && Accepts(Turns(Visible(c.records)))
    requires forall r | r in Visible(c.records) :: !r.providerExcluded
    ensures Accepts(TurnsOf(GenericView(c.records)))
    ensures Project(c.records, c.checkpoint, o) == Ok(ProjectAll(Visible(c.records), o))
  {
    GenericViewTurns(c);
    NoMarkerVisible(c.records);
    FilterAll(ForProvider, Visible(c.records));
    MountedRenders(c, o);
    RenderingKeepsToolPairs(Visible(c.records), o, START);
  }

  lemma {:induction false} NoMarkerVisible(rs: seq<Record>)
    ensures forall r | r in Visible(rs) :: !r.IsMarker()
  {
    var snipped := SnippedIds(rs);
    FilterMembers((r: Record) => !r.IsMarker() && r.id !in snipped, rs);
  }
}
