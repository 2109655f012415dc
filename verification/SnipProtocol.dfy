/** Snips and the provider's tool protocol: which rows may be taken out of the middle of a conversation. */
module SnipProtocol {
  import opened Sequences
  import opened Identifiers
  import opened Transcript
  import opened ToolProtocol
  import opened RowRemoval
  import opened CompactionProtocol

  /**
   A Snip is invisible to the future exactly when the rows it removes answer the calls they make: of any
   continuation that the conversation would have accepted, what is left accepts it if and only if that is so.
   */
  lemma {:induction false} SnipTransparentIff(view: seq<Record>, removed: seq<Id>, w: seq<Record>)
    requires Accepts(Turns(view + w))
    ensures Accepts(Turns(Filter((r: Record) => r.id !in removed, view) + w)) <==>
            SelfContained(Filter((r: Record) => r.id in removed, view))
  {
    var p := (r: Record) => r.id !in removed;
    FilterAgree((r: Record) => !p(r), (r: Record) => r.id in removed, view);
    assert Rest(p, view) == Filter((r: Record) => r.id in removed, view);
    RemovalTransparentIff(p, view, w);
  }

  /** A Snip of everything that speaks is invisible to the future exactly when no call is open. */
  lemma {:induction false} SnipOfAllIffSettled(view: seq<Record>, removed: seq<Id>, w: seq<Record>)
    requires Accepts(Turns(view + w)) && forall r | r in view && Speaks(r) :: r.id in removed
    ensures Accepts(Turns(Filter((r: Record) => r.id !in removed, view) + w)) <==> Accepts(Turns(view))
  {
    var gone := (r: Record) => r.id in removed;
    SnipTransparentIff(view, removed, w);
    FilterTwice(Speaks, gone, Speaks, view);
    SameSpeech(Filter(gone, view), view);
    SettledIffSelfContained(view, w);
  }
}
