/** The messages that a projection hands to a provider. */
module ProviderMessage {
  import opened Sequences
  import opened Identifiers
  import opened Transcript
  import opened ToolProtocol

  datatype Source = FromRecord | FromSummary | FromAttachment | FromHook

  /** `sourceId` is absent only on attachments that were never persisted. */
  datatype Projected = Projected(
    role: Role,
    content: Content,
    source: Source,
    sourceId: Option<Id>,
    messageKey: Option<Id>,
    attachment: Option<AttachmentKind>)

  function TurnsOf(ms: seq<Projected>): (ts: seq<Turn>)
    ensures |ts| == |ms|
    ensures forall i | 0 <= i < |ms| :: ts[i] == Turn(ms[i].role, ms[i].content)
  {
    seq(|ms|, i requires 0 <= i < |ms| => Turn(ms[i].role, ms[i].content))
  }

  /** The durable ids behind a view, in order. */
  function SourceIds(ms: seq<Projected>): seq<Id> {
    if ms == [] then []
    else (if ms[0].sourceId.Some? then [ms[0].sourceId.value] else []) + SourceIds(ms[1..])
  }

  lemma {:induction false} SourceIdsConcat(a: seq<Projected>, b: seq<Projected>)
    ensures SourceIds(a + b) == SourceIds(a) + SourceIds(b)
  {
    if a == [] {
      assert a + b == b;
    } else {
      assert (a + b)[1..] == a[1..] + b;
      SourceIdsConcat(a[1..], b);
    }
  }

  lemma {:induction false} SourceIdsMember(ms: seq<Projected>, id: Id)
    ensures id in SourceIds(ms) <==> exists m :: m in ms && m.sourceId == Some(id)
  {
    if ms != [] {
      SourceIdsMember(ms[1..], id);
      assert ms == [ms[0]] + ms[1..];
    }
  }

  // ---- The generic projection, before live attachments ----

  function ProjectGeneric(r: Record): seq<Projected> {
    match r.kind
    case Message => [Projected(r.role, r.content, FromRecord, Some(r.id), r.messageId, None)]
    case CompactSummary(_) => [Projected(User, r.content, FromSummary, Some(r.id), None, None)]
    case Attachment(kind) => [Projected(User, r.content, FromAttachment, Some(r.id), None, Some(kind))]
    case HookResult => [Projected(User, r.content, FromHook, Some(r.id), None, None)]
    case _ => []
  }

  function ProjectGenericAll(rs: seq<Record>): seq<Projected> {
    if rs == [] then [] else ProjectGeneric(rs[0]) + ProjectGenericAll(rs[1..])
  }

  function GenericView(rs: seq<Record>): seq<Projected> {
    ProjectGenericAll(ActiveWindow(rs))
  }
}
