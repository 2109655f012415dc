/**
 The Claude read model. Without a checkpoint it shows every record that is visible; with one it replays the
 checkpoint's explicit list and appends whatever the checkpoint neither listed nor archived.
 */
module ClaudeProjector {
  import opened Sequences
  import opened Identifiers
  import opened Transcript
  import opened ToolProtocol
  import opened ProviderMessage

  datatype Segment = Segment(head: Id, anchor: Id, tail: Id)

  datatype Recipe = Recipe(
    id: Id,
    boundaryId: Id,
    summaryId: Id,
    ordered: seq<Id>,
    attachments: seq<Id>,
    hooks: seq<Id>,
    excluded: seq<Id>,
    preserved: Option<Segment>)

  datatype ProjectionError =
    | DuplicateRecord
    | NoOrderedIds
    | EmptyRecipeId
    | DuplicateRecipeId
    | IncludedAndExcluded
    | OutsideOrdered
    | MissingRecords
    | ProviderExcludedRequired
    | ToolPairs(error: ToolPairError)

  datatype Reason = CheckpointExcluded | Snipped | ProviderExclusion | ProviderCapability | InternalMarker

  datatype Entry = Entry(sourceId: Id, included: bool, reason: Option<Reason>)

  /** The provider in use: whether it is of the Claude family, and what its projection does to blocks. */
  datatype Options = Options(claude: bool, supportsThinking: bool, replacements: map<Id, string>, cleared: set<Id>)

  const TIME_CLEARED := "[Tool result cleared by time-based microcompact]"

  // ---- One record ----

  function ProjectBlock(b: Block, o: Options): seq<Block> {
    match b
    case Thinking(_) => if o.supportsThinking then [b] else []
    case ToolResult(id, _) =>
      if id in o.replacements then [ToolResult(id, o.replacements[id])]
      else if id in o.cleared then [ToolResult(id, TIME_CLEARED)]
      else [b]
    case _ => [b]
  }

  function ProjectBlocks(bs: seq<Block>, o: Options): seq<Block> {
    if bs == [] then [] else ProjectBlock(bs[0], o) + ProjectBlocks(bs[1..], o)
  }

  predicate Takes(b: Block, o: Options) {
    b.Thinking? ==> o.supportsThinking
  }

  /** A tool result is replaced if there is a replacement, else marked if it was cleared; all else stays as it is. */
  predicate Stands(shown: Block, b: Block, o: Options) {
    if b.ToolResult? then
      shown.ToolResult? && shown.toolUseId == b.toolUseId
      && shown.text == (if b.toolUseId in o.replacements then o.replacements[b.toolUseId]
                        else if b.toolUseId in o.cleared then TIME_CLEARED
                        else b.text)
    else shown == b
  }

  predicate AllStand(shown: seq<Block>, kept: seq<Block>, o: Options) {
    |shown| == |kept| && forall i | 0 <= i < |kept| :: Stands(shown[i], kept[i], o)
  }

  lemma {:induction false} ProjectedBlock(b: Block, o: Options)
    ensures AllStand(ProjectBlock(b, o), if Takes(b, o) then [b] else [], o)
  {
  }

  lemma {:induction false} StandingJoins(a: seq<Block>, b: seq<Block>, c: seq<Block>, d: seq<Block>, o: Options)
    requires AllStand(a, c, o) && AllStand(b, d, o)
    ensures AllStand(a + b, c + d, o)
  {
    forall i | 0 <= i < |c + d| ensures Stands((a + b)[i], (c + d)[i], o) {
      assert i >= |c| ==> (a + b)[i] == b[i - |a|] && (c + d)[i] == d[i - |c|];
    }
  }

  /** A provider gets one block for each block of the record that it takes, in order, standing for that block. */
  lemma {:induction false} ProjectedBlocksMean(bs: seq<Block>, o: Options)
    ensures AllStand(ProjectBlocks(bs, o), Filter((b: Block) => Takes(b, o), bs), o)
  {
    if bs != [] {
      ProjectedBlocksMean(bs[1..], o);
      ProjectedBlock(bs[0], o);
      StandingJoins(ProjectBlock(bs[0], o), ProjectBlocks(bs[1..], o), if Takes(bs[0], o) then [bs[0]] else [],
                    Filter((b: Block) => Takes(b, o), bs[1..]), o);
      assert [] + Filter((b: Block) => Takes(b, o), bs[1..]) == Filter((b: Block) => Takes(b, o), bs[1..]);
    }
  }

  function ProjectContent(c: Content, o: Options): Content {
    if c.Text? then c else Blocks(ProjectBlocks(c.blocks, o))
  }

  function SourceOf(k: Kind): Source {
    match k
    case CompactSummary(_) => FromSummary
    case Attachment(_) => FromAttachment
    case HookResult => FromHook
    case _ => FromRecord
  }

  function ProjectRecord(r: Record, o: Options): Option<Projected> {
    if r.IsMarker() then None
    else Some(Projected(r.role, ProjectContent(r.content, o), SourceOf(r.kind), Some(r.id), r.ResponseKey(),
                        if r.kind.Attachment? then Some(r.kind.attachment) else None))
  }

  /** Every block of the record was dropped because the provider cannot take it. */
  predicate Emptied(r: Record, o: Options) {
    r.content.Blocks? && ProjectBlocks(r.content.blocks, o) == []
  }

  predicate Renders(r: Record, o: Options) {
    !r.IsMarker() && !Emptied(r, o)
  }

  function ProjectAll(rs: seq<Record>, o: Options): seq<Projected> {
    if rs == [] then []
    else (if Renders(rs[0], o) then [ProjectRecord(rs[0], o).value] else []) + ProjectAll(rs[1..], o)
  }

  // ---- Which records are selected ----

  function NormalizeIds(ids: seq<Id>, allowEmpty: bool): Result<seq<Id>, ProjectionError> {
    if ids == [] && !allowEmpty then Err(NoOrderedIds)
    else
      var normalized := seq(|ids|, i requires 0 <= i < |ids| => Trim(ids[i]));
      if "" in normalized then Err(EmptyRecipeId)
      else if !Distinct(normalized) then Err(DuplicateRecipeId)
      else Ok(normalized)
  }

  function Members(ids: seq<Id>): set<Id> {
    set id | id in ids
  }

  /** The ids a checkpoint cannot do without. */
  function Required(recipe: Recipe): set<Id> {
    {recipe.boundaryId, recipe.summaryId} + Members(recipe.attachments) + Members(recipe.hooks) +
    (match recipe.preserved
     case None => {}
     case Some(s) => {s.head, s.anchor, s.tail})
  }

  function Lookup(rs: seq<Record>, ids: seq<Id>): seq<Record> {
    if ids == [] then []
    else
      var i := IndexOf(rs, ids[0]);
      (if i >= 0 then [rs[i]] else []) + Lookup(rs, ids[1..])
  }

  predicate Continues(r: Record, ordered: set<Id>, excluded: set<Id>) {
    r.id !in ordered && (r.id !in excluded || r.kind.SnipBoundary?)
  }

  predicate Shown(r: Record, snipped: set<Id>) {
    r.id !in snipped && !r.providerExcluded
  }

  function Candidates(rs: seq<Record>, ordered: seq<Id>, excluded: seq<Id>): seq<Record> {
    Lookup(rs, ordered) + Filter((r: Record) => Continues(r, Members(ordered), Members(excluded)), rs)
  }

  /** What the checkpoint demands, in the order in which it is checked. */
  function RecipeFault(rs: seq<Record>, recipe: Recipe, ordered: seq<Id>, excluded: seq<Id>): Option<ProjectionError> {
    var snipped := SnippedIds(rs);
    if exists id | id in ordered :: id in excluded then Some(IncludedAndExcluded)
    else if !(Required(recipe) <= Members(ordered)) then Some(OutsideOrdered)
    else if exists id | id in ordered :: id !in IdSet(rs) && id !in snipped then Some(MissingRecords)
    else if exists r | r in rs :: r.id in Required(recipe) && r.id !in snipped && r.providerExcluded then
      Some(ProviderExcludedRequired)
    else None
  }

  function SelectByRecipe(rs: seq<Record>, recipe: Recipe): Result<seq<Record>, ProjectionError> {
    var snipped := SnippedIds(rs);
    match NormalizeIds(recipe.ordered, false)
    case Err(e) => Err(e)
    case Ok(ordered) =>
      match NormalizeIds(recipe.excluded, true)
      case Err(e) => Err(e)
      case Ok(excluded) =>
        var fault := RecipeFault(rs, recipe, ordered, excluded);
        if fault.Some? then Err(fault.value)
        else Ok(Filter((r: Record) => Shown(r, snipped), Candidates(rs, ordered, excluded)))
  }

  function Select(rs: seq<Record>, recipe: Option<Recipe>): Result<seq<Record>, ProjectionError> {
    if !UniqueIds(rs) then Err(DuplicateRecord)
    else if recipe.None? then
      var snipped := SnippedIds(rs);
      Ok(Filter((r: Record) => Shown(r, snipped), rs))
    else SelectByRecipe(rs, recipe.value)
  }

  function Project(rs: seq<Record>, recipe: Option<Recipe>, o: Options): Result<seq<Projected>, ProjectionError> {
    match Select(rs, recipe)
    case Err(e) => Err(e)
    case Ok(selected) =>
      var messages := ProjectAll(selected, o);
      var verdict := Verdict(Run(START, Events(TurnsOf(messages))));
      if verdict.Some? then Err(ToolPairs(verdict.value)) else Ok(messages)
  }

  /** Why a record is not in the view; `None` says that it is. */
  function ReasonFor(r: Record, rs: seq<Record>, recipe: Option<Recipe>, o: Options): Option<Reason> {
    if recipe.Some? && r.id in ExcludedIds(recipe.value) && !r.kind.SnipBoundary? then Some(CheckpointExcluded)
    else if r.id in SnippedIds(rs) then Some(Snipped)
    else if r.providerExcluded then Some(ProviderExclusion)
    else if r.IsMarker() then Some(InternalMarker)
    else if Emptied(r, o) then Some(ProviderCapability)
    else None
  }

  function ExcludedIds(recipe: Recipe): set<Id> {
    set i | 0 <= i < |recipe.excluded| :: Trim(recipe.excluded[i])
  }

  lemma {:induction false} ExcludedMeaning(recipe: Recipe)
    requires NormalizeIds(recipe.excluded, true).Ok?
    ensures Members(NormalizeIds(recipe.excluded, true).value) == ExcludedIds(recipe)
  {
    var excluded := NormalizeIds(recipe.excluded, true).value;
    forall id ensures id in Members(excluded) <==> id in ExcludedIds(recipe) {
      if id in Members(excluded) {
        var i :| 0 <= i < |excluded| && excluded[i] == id;
        assert Trim(recipe.excluded[i]) == id;
      }
      if id in ExcludedIds(recipe) {
        var i :| 0 <= i < |recipe.excluded| && Trim(recipe.excluded[i]) == id;
        assert excluded[i] == id;
      }
    }
  }

  // ---- The projector's own walk, filling one shared map of reasons ----

  datatype Projection = Projection(messages: seq<Projected>, manifest: seq<Entry>)

  function HiddenReason(snipped: set<Id>): Record -> Option<Reason> {
    (r: Record) =>
      if r.id in snipped then Some(Snipped) else if r.providerExcluded then Some(ProviderExclusion) else None
  }

  function DroppedReason(o: Options): Record -> Option<Reason> {
    (r: Record) =>
      if r.IsMarker() then Some(InternalMarker) else if Emptied(r, o) then Some(ProviderCapability) else None
  }

  /** The reasons a walk over `rs` writes, a later record overwriting an earlier one. */
  function Marks(f: Record -> Option<Reason>, rs: seq<Record>): map<Id, Reason> {
    if rs == [] then map[]
    else
      var m, r := Marks(f, rs[..|rs| - 1]), rs[|rs| - 1];
      if f(r).Some? then m[r.id := f(r).value] else m
  }

  lemma {:induction false} MarksAppend(m: map<Id, Reason>, f: Record -> Option<Reason>, rs: seq<Record>, r: Record)
    ensures m + Marks(f, rs + [r]) ==
            if f(r).Some? then (m + Marks(f, rs))[r.id := f(r).value] else m + Marks(f, rs)
  {
    assert (rs + [r])[..|rs|] == rs;
  }

  /** The walks of `resolveRecipe` and `resolveUncompacted` over their candidates. */
  method KeepShown(candidates: seq<Record>, snipped: set<Id>, reasons0: map<Id, Reason>)
    returns (kept: seq<Record>, reasons: map<Id, Reason>)
    ensures kept == Filter((r: Record) => Shown(r, snipped), candidates)
    ensures reasons == reasons0 + Marks(HiddenReason(snipped), candidates)
  {
    kept, reasons := [], reasons0;
    for i := 0 to |candidates|
      invariant kept == Filter((r: Record) => Shown(r, snipped), candidates[..i])
      invariant reasons == reasons0 + Marks(HiddenReason(snipped), candidates[..i])
    {
      var r := candidates[i];
      FilterStep((r: Record) => Shown(r, snipped), candidates, i);
      assert candidates[..i + 1] == candidates[..i] + [r];
      MarksAppend(reasons0, HiddenReason(snipped), candidates[..i], r);
      if r.id in snipped {
        reasons := reasons[r.id := Snipped];
      } else if !r.providerExcluded {
        kept := kept + [r];
      } else {
        reasons := reasons[r.id := ProviderExclusion];
      }
    }
    assert candidates[..|candidates|] == candidates;
  }

  lemma {:induction false} RenderStep(done: seq<Record>, r: Record, o: Options)
    ensures ProjectAll(done + [r], o) ==
            ProjectAll(done, o) + if Renders(r, o) then [ProjectRecord(r, o).value] else []
  {
    ProjectAllConcat(done, [r], o);
    assert [r][1..] == [];
  }

  method RenderAll(selected: seq<Record>, o: Options, reasons0: map<Id, Reason>)
    returns (messages: seq<Projected>, reasons: map<Id, Reason>)
    ensures messages == ProjectAll(selected, o)
    ensures reasons == reasons0 + Marks(DroppedReason(o), selected)
  {
    messages, reasons := [], reasons0;
    for i := 0 to |selected|
      invariant messages == ProjectAll(selected[..i], o)
      invariant reasons == reasons0 + Marks(DroppedReason(o), selected[..i])
    {
      var r := selected[i];
      assert selected[..i + 1] == selected[..i] + [r];
      RenderStep(selected[..i], r, o);
      MarksAppend(reasons0, DroppedReason(o), selected[..i], r);
      var message := ProjectRecord(r, o);
      if message.None? {
        reasons := reasons[r.id := InternalMarker];
      } else if message.value.content == Blocks([]) {
        reasons := reasons[r.id := ProviderCapability];
      } else {
        messages := messages + [message.value];
      }
    }
    assert selected[..|selected|] == selected;
  }

  method MarkExcluded(excluded: seq<Id>) returns (reasons: map<Id, Reason>)
    ensures reasons == map id | id in Members(excluded) :: CheckpointExcluded
  {
    reasons := map[];
    for i := 0 to |excluded|
      invariant reasons == map id | id in Members(excluded[..i]) :: CheckpointExcluded
    {
      assert excluded[..i + 1] == excluded[..i] + [excluded[i]];
      reasons := reasons[excluded[i] := CheckpointExcluded];
    }
    assert excluded[..|excluded|] == excluded;
  }

  method ResolveRecipe(rs: seq<Record>, recipe: Recipe, snipped: set<Id>)
    returns (r: Result<seq<Record>, ProjectionError>, reasons: map<Id, Reason>)
    requires snipped == SnippedIds(rs)
    ensures r == SelectByRecipe(rs, recipe)
    ensures r.Ok? ==>
      var ordered, excluded := NormalizeIds(recipe.ordered, false).value, NormalizeIds(recipe.excluded, true).value;
      reasons == (map id | id in ExcludedIds(recipe) :: CheckpointExcluded)
                 + Marks(HiddenReason(snipped), Candidates(rs, ordered, excluded))
  {
    reasons := map[];
    var orderedIds := NormalizeIds(recipe.ordered, false);
    if orderedIds.Err? { return Err(orderedIds.error), reasons; }
    var excludedIds := NormalizeIds(recipe.excluded, true);
    if excludedIds.Err? { return Err(excludedIds.error), reasons; }
    var ordered, excluded := orderedIds.value, excludedIds.value;
    var fault := RecipeFault(rs, recipe, ordered, excluded);
    if fault.Some? { return Err(fault.value), reasons; }
    reasons := MarkExcluded(excluded);
    ExcludedMeaning(recipe);
    var kept;
    kept, reasons := KeepShown(Candidates(rs, ordered, excluded), snipped, reasons);
    r := Ok(kept);
  }

  function IncludedIds(messages: seq<Projected>): set<Id> {
    set m | m in messages && m.sourceId.Some? :: m.sourceId.value
  }

  function Entries(rs: seq<Record>, included: set<Id>, reasons: map<Id, Reason>): (entries: seq<Entry>)
    ensures |entries| == |rs|
    ensures forall i | 0 <= i < |rs| ::
              entries[i] ==
              Entry(rs[i].id, rs[i].id in included, if rs[i].id in reasons then Some(reasons[rs[i].id]) else None)
  {
    seq(|rs|, i requires 0 <= i < |rs| =>
      Entry(rs[i].id, rs[i].id in included, if rs[i].id in reasons then Some(reasons[rs[i].id]) else None))
  }

  method ManifestEntries(rs: seq<Record>, messages: seq<Projected>, reasons: map<Id, Reason>)
    returns (manifest: seq<Entry>)
    ensures manifest == Entries(rs, IncludedIds(messages), reasons)
  {
    var included := set m | m in messages && m.sourceId.Some? :: m.sourceId.value;
    manifest := Entries(rs, included, reasons);
  }

  method ProjectConversation(rs: seq<Record>, recipe: Option<Recipe>, o: Options)
    returns (r: Result<Projection, ProjectionError>)
    ensures Project(rs, recipe, o).Err? ==> r == Err(Project(rs, recipe, o).error)
    ensures Project(rs, recipe, o).Ok? ==>
              r.Ok? && r.value.messages == Project(rs, recipe, o).value && r.value.manifest == Manifest(rs, recipe, o)
  {
    if !UniqueIds(rs) { return Err(DuplicateRecord); }
    var snipped := CollectSnippedIds(rs);
    var reasons: map<Id, Reason> := map[];
    var selected: seq<Record>;
    if recipe.Some? {
      var resolved;
      resolved, reasons := ResolveRecipe(rs, recipe.value, snipped);
      if resolved.Err? { return Err(resolved.error); }
      selected := resolved.value;
    } else {
      selected, reasons := KeepShown(rs, snipped, map[]);
    }
    ghost var hidden := reasons;
    var messages;
    messages, reasons := RenderAll(selected, o, reasons);
    var broken := AssertToolPairs(TurnsOf(messages));
    if broken.Some? { return Err(ToolPairs(broken.value)); }
    var manifest := ManifestEntries(rs, messages, reasons);
    EntriesAreManifest(rs, recipe, o, selected, hidden);
    r := Ok(Projection(messages, manifest));
  }

  // ---- The manifest is exact ----

  function Manifest(rs: seq<Record>, recipe: Option<Recipe>, o: Options): (entries: seq<Entry>)
    ensures |entries| == |rs|
    ensures forall i | 0 <= i < |rs| ::
              entries[i] == Entry(rs[i].id, ReasonFor(rs[i], rs, recipe, o).None?, ReasonFor(rs[i], rs, recipe, o))
  {
    seq(|rs|, i requires 0 <= i < |rs| =>
      var reason := ReasonFor(rs[i], rs, recipe, o);
      Entry(rs[i].id, reason.None?, reason))
  }

  lemma {:induction false} ProjectAllConcat(a: seq<Record>, b: seq<Record>, o: Options)
    ensures ProjectAll(a + b, o) == ProjectAll(a, o) + ProjectAll(b, o)
  {
    if a == [] {
      assert a + b == b;
    } else {
      assert (a + b)[1..] == a[1..] + b;
      ProjectAllConcat(a[1..], b, o);
    }
  }

  /** The ids of the rendered records, in order, are the source ids of the view. */
  lemma {:induction false} ProjectAllIds(rs: seq<Record>, o: Options)
    ensures SourceIds(ProjectAll(rs, o)) == Ids(Filter((r: Record) => Renders(r, o), rs))
  {
    var p := (r: Record) => Renders(r, o);
    if rs != [] {
      ProjectAllIds(rs[1..], o);
      var head := if Renders(rs[0], o) then [ProjectRecord(rs[0], o).value] else [];
      SourceIdsConcat(head, ProjectAll(rs[1..], o));
      if Renders(rs[0], o) {
        assert head[1..] == [];
        assert SourceIds(head) == [rs[0].id];
        assert Ids(Filter(p, rs)) == [rs[0].id] + Ids(Filter(p, rs[1..]));
      }
    }
  }

  lemma {:induction false} LookupMembers(rs: seq<Record>, ids: seq<Id>, r: Record)
    requires UniqueIds(rs)
    ensures r in Lookup(rs, ids) <==> r in rs && r.id in ids
  {
    if ids != [] {
      var i := IndexOf(rs, ids[0]);
      LookupMembers(rs, ids[1..], r);
      assert ids == [ids[0]] + ids[1..];
      if i >= 0 {
        assert rs[i] in rs;
        if r in rs && r.id == ids[0] {
          UniqueRecord(rs, r, rs[i]);
        }
      }
    }
  }

  /** Which records survive selection. */
  lemma {:induction false} SelectedMembers(rs: seq<Record>, recipe: Option<Recipe>, r: Record)
    requires Select(rs, recipe).Ok?
    ensures r in Select(rs, recipe).value <==>
            && r in rs
            && !(recipe.Some? && r.id in ExcludedIds(recipe.value) && !r.kind.SnipBoundary?)
            && Shown(r, SnippedIds(rs))
  {
    var snipped := SnippedIds(rs);
    if recipe.None? {
      FilterMembers((r: Record) => Shown(r, snipped), rs);
    } else {
      var ordered := NormalizeIds(recipe.value.ordered, false).value;
      var excluded := NormalizeIds(recipe.value.excluded, true).value;
      CandidateMembers(rs, recipe.value, r);
      FilterMembers((r: Record) => Shown(r, snipped), Candidates(rs, ordered, excluded));
    }
  }

  lemma {:induction false} CandidateMembers(rs: seq<Record>, recipe: Recipe, r: Record)
    requires UniqueIds(rs) && SelectByRecipe(rs, recipe).Ok?
    ensures var ordered, excluded := NormalizeIds(recipe.ordered, false).value, NormalizeIds(recipe.excluded, true).value;
            r in Candidates(rs, ordered, excluded) <==> r in rs && (r.id !in ExcludedIds(recipe) || r.kind.SnipBoundary?)
  {
    var ordered, excluded := NormalizeIds(recipe.ordered, false).value, NormalizeIds(recipe.excluded, true).value;
    ExcludedMeaning(recipe);
    LookupMembers(rs, ordered, r);
    FilterMembers((r: Record) => Continues(r, Members(ordered), Members(excluded)), rs);
    assert RecipeFault(rs, recipe, ordered, excluded).None?;
    assert r.id in ordered ==> r.id !in excluded;
  }

  lemma {:induction false} MarksLookup(f: Record -> Option<Reason>, rs: seq<Record>, id: Id)
    ensures id in Marks(f, rs) ==> exists r :: r in rs && r.id == id && f(r) == Some(Marks(f, rs)[id])
    ensures (exists r :: r in rs && r.id == id && f(r).Some?) ==> id in Marks(f, rs)
  {
    if rs != [] {
      var init, r := rs[..|rs| - 1], rs[|rs| - 1];
      assert rs == init + [r];
      MarksLookup(f, init, id);
    }
  }

  /** With unique ids, what is marked under a record's id is what the walk says about that very record. */
  lemma {:induction false} MarkOf(f: Record -> Option<Reason>, rs: seq<Record>, all: seq<Record>, r: Record)
    requires UniqueIds(all) && r in all && forall x :: x in rs ==> x in all
    ensures r.id in Marks(f, rs) <==> r in rs && f(r).Some?
    ensures r.id in Marks(f, rs) ==> Some(Marks(f, rs)[r.id]) == f(r)
  {
    MarksLookup(f, rs, r.id);
    if r.id in Marks(f, rs) {
      var x :| x in rs && x.id == r.id && f(x) == Some(Marks(f, rs)[r.id]);
      UniqueRecord(all, x, r);
    }
  }

  lemma {:induction false} FinalReason(
      rs: seq<Record>, recipe: Option<Recipe>, o: Options, selected: seq<Record>, hidden: map<Id, Reason>, r: Record)
    requires Select(rs, recipe) == Ok(selected) && r in rs
    requires recipe.None? ==> hidden == Marks(HiddenReason(SnippedIds(rs)), rs)
    requires recipe.Some? ==>
      var ordered := NormalizeIds(recipe.value.ordered, false).value;
      var excluded := NormalizeIds(recipe.value.excluded, true).value;
      hidden == (map id | id in ExcludedIds(recipe.value) :: CheckpointExcluded)
                + Marks(HiddenReason(SnippedIds(rs)), Candidates(rs, ordered, excluded))
    ensures var m := hidden + Marks(DroppedReason(o), selected);
            ReasonFor(r, rs, recipe, o) == if r.id in m then Some(m[r.id]) else None
  {
    var snipped := SnippedIds(rs);
    forall x | x in selected ensures x in rs { SelectedMembers(rs, recipe, x); }
    SelectedMembers(rs, recipe, r);
    MarkOf(DroppedReason(o), selected, rs, r);
    if recipe.None? {
      MarkOf(HiddenReason(snipped), rs, rs, r);
    } else {
      var ordered := NormalizeIds(recipe.value.ordered, false).value;
      var excluded := NormalizeIds(recipe.value.excluded, true).value;
      forall x | x in Candidates(rs, ordered, excluded) ensures x in rs { CandidateMembers(rs, recipe.value, x); }
      CandidateMembers(rs, recipe.value, r);
      MarkOf(HiddenReason(snipped), Candidates(rs, ordered, excluded), rs, r);
    }
  }

  lemma {:induction false} IncludedAre(messages: seq<Projected>, id: Id)
    ensures id in IncludedIds(messages) <==> id in SourceIds(messages)
  {
    SourceIdsMember(messages, id);
  }

  /** What the walks have written down is the manifest. */
  lemma {:induction false} EntriesAreManifest(
      rs: seq<Record>, recipe: Option<Recipe>, o: Options, selected: seq<Record>, hidden: map<Id, Reason>)
    requires Select(rs, recipe) == Ok(selected)
    requires recipe.None? ==> hidden == Marks(HiddenReason(SnippedIds(rs)), rs)
    requires recipe.Some? ==>
      var ordered := NormalizeIds(recipe.value.ordered, false).value;
      var excluded := NormalizeIds(recipe.value.excluded, true).value;
      hidden == (map id | id in ExcludedIds(recipe.value) :: CheckpointExcluded)
                + Marks(HiddenReason(SnippedIds(rs)), Candidates(rs, ordered, excluded))
    ensures Entries(rs, IncludedIds(ProjectAll(selected, o)), hidden + Marks(DroppedReason(o), selected)) ==
            Manifest(rs, recipe, o)
  {
    forall i | 0 <= i < |rs|
      ensures rs[i].id in IncludedIds(ProjectAll(selected, o)) <==> ReasonFor(rs[i], rs, recipe, o).None?
      ensures var m := hidden + Marks(DroppedReason(o), selected);
              ReasonFor(rs[i], rs, recipe, o) == if rs[i].id in m then Some(m[rs[i].id]) else None
    {
      FinalReason(rs, recipe, o, selected, hidden, rs[i]);
      IncludedIffRendered(rs, recipe, o, selected, rs[i]);
      IncludedAre(ProjectAll(selected, o), rs[i].id);
    }
  }

  lemma {:induction false} IncludedIffRendered(
      rs: seq<Record>, recipe: Option<Recipe>, o: Options, selected: seq<Record>, r: Record)
    requires Select(rs, recipe) == Ok(selected) && r in rs
    ensures r.id in SourceIds(ProjectAll(selected, o)) <==> ReasonFor(r, rs, recipe, o).None?
  {
    var p := (r: Record) => Renders(r, o);
    ProjectAllIds(selected, o);
    FilterMembers(p, selected);
    IdsMember(Filter(p, selected), r.id);
    SelectedMembers(rs, recipe, r);
    if r.id in IdSet(Filter(p, selected)) {
      var x :| x in Filter(p, selected) && x.id == r.id;
      SelectedMembers(rs, recipe, x);
      UniqueRecord(rs, x, r);
    }
  }

  lemma {:induction false} LookupUnique(rs: seq<Record>, ids: seq<Id>)
    requires UniqueIds(rs) && Distinct(ids)
    ensures UniqueIds(Lookup(rs, ids)) && IdSet(Lookup(rs, ids)) <= Members(ids)
  {
    if ids != [] {
      assert ids == [ids[0]] + ids[1..];
      DistinctConcat([ids[0]], ids[1..]);
      LookupUnique(rs, ids[1..]);
      assert forall id :: id in ids <==> id == ids[0] || id in ids[1..];
      assert ids[0] in Members(ids) && Members(ids[1..]) <= Members(ids);
      var i := IndexOf(rs, ids[0]);
      if i >= 0 {
        var one := [rs[i]];
        assert ids[0] in [ids[0]];
        assert IdSet(one) == {ids[0]} && Ids(one) == [ids[0]];
        IdsConcat(one, Lookup(rs, ids[1..]));
        assert Lookup(rs, ids) == one + Lookup(rs, ids[1..]);
      }
    }
  }

  lemma {:induction false} FilterUnique(p: Record -> bool, rs: seq<Record>)
    requires UniqueIds(rs)
    ensures UniqueIds(Filter(p, rs)) && IdSet(Filter(p, rs)) <= IdSet(rs)
  {
    if rs != [] {
      assert rs == [rs[0]] + rs[1..];
      IdsConcat([rs[0]], rs[1..]);
      FilterUnique(p, rs[1..]);
      IdsConcat([rs[0]], Filter(p, rs[1..]));
    }
  }

  lemma {:induction false} SelectedUnique(rs: seq<Record>, recipe: Option<Recipe>)
    requires Select(rs, recipe).Ok?
    ensures UniqueIds(Select(rs, recipe).value)
  {
    var snipped := SnippedIds(rs);
    if recipe.None? {
      FilterUnique((r: Record) => Shown(r, snipped), rs);
    } else {
      var ordered := NormalizeIds(recipe.value.ordered, false).value;
      var excluded := NormalizeIds(recipe.value.excluded, true).value;
      var p := (r: Record) => Continues(r, Members(ordered), Members(excluded));
      LookupUnique(rs, ordered);
      FilterUnique(p, rs);
      FilterMembers(p, rs);
      IdsConcat(Lookup(rs, ordered), Filter(p, rs));
      FilterUnique((r: Record) => Shown(r, snipped), Candidates(rs, ordered, excluded));
    }
  }

  /**
   For every transcript, with or without a checkpoint: a record has no exclusion reason if and only if it
   occurs in the view; no record occurs twice; the view shows nothing but records, and never a snipped one.
   */
  lemma {:induction false} ManifestExact(rs: seq<Record>, recipe: Option<Recipe>, o: Options)
    requires Project(rs, recipe, o).Ok?
    ensures var view := SourceIds(Project(rs, recipe, o).value);
            && Distinct(view)
            && (forall r | r in rs :: r.id in view <==> ReasonFor(r, rs, recipe, o).None?)
            && (forall id | id in view :: id in IdSet(rs) && id !in SnippedIds(rs))
  {
    var selected := Select(rs, recipe).value;
    var p := (r: Record) => Renders(r, o);
    ProjectAllIds(selected, o);
    SelectedUnique(rs, recipe);
    FilterUnique(p, selected);
    forall r | r in rs
      ensures r.id in SourceIds(Project(rs, recipe, o).value) <==> ReasonFor(r, rs, recipe, o).None?
    {
      IncludedIffRendered(rs, recipe, o, selected, r);
    }
    forall id | id in SourceIds(Project(rs, recipe, o).value) ensures id in IdSet(rs) && id !in SnippedIds(rs) {
      IdsMember(Filter(p, selected), id);
      FilterMembers(p, selected);
      var x :| x in Filter(p, selected) && x.id == id;
      SelectedMembers(rs, recipe, x);
    }
  }
}
