/** Taking rows out of a conversation: what the provider's tool protocol makes of the rows that are left. */
module RowRemoval {
  import opened Sequences
  import opened Identifiers
  import opened Transcript
  import opened ToolProtocol

  /** The rows answer exactly the calls that they make. */
  predicate SelfContained(rs: seq<Record>) {
    var es := Events(Turns(rs));
    UseIds(es) == AnswerIds(es)
  }

  predicate Apart(es: seq<Event>, ids: set<Id>) {
    UseIds(es) !! ids && AnswerIds(es) !! ids
  }

  predicate Within(es: seq<Event>, ids: set<Id>) {
    UseIds(es) <= ids && AnswerIds(es) <= ids
  }

  lemma {:induction false} IdsOfParts(a: seq<Event>, b: seq<Event>, ids: set<Id>)
    ensures Apart(a + b, ids) <==> Apart(a, ids) && Apart(b, ids)
    ensures Within(a + b, ids) <==> Within(a, ids) && Within(b, ids)
  {
    EventIdsConcat(a, b);
  }

  /** The bookkeeping without the ids in `gone`. */
  function Less(st: Protocol, gone: set<Id>): Protocol
    requires st.Open?
  {
    Open(st.calls - gone, st.results - gone)
  }

  /** Events that have nothing to do with `gone` run alike without it. */
  lemma {:induction false} RunWithout(gone: set<Id>, st: Protocol, es: seq<Event>)
    requires st.Open? && Run(st, es).Open?
    requires Apart(es, gone)
    ensures Run(Less(st, gone), es) == Less(Run(st, es), gone)
    decreases |es|
  {
    if es != [] {
      assert es == [es[0]] + es[1..];
      EventIdsConcat([es[0]], es[1..]);
      OneEvent(es[0]);
      var next := Step(st, es[0]);
      assert next.Open? && Step(Less(st, gone), es[0]) == Less(next, gone);
      RunWithout(gone, next, es[1..]);
    }
  }

  function Rest(p: Record -> bool, rs: seq<Record>): seq<Record> {
    Filter((r: Record) => !p(r), rs)
  }

  lemma {:induction false} HeadEvents(rs: seq<Record>)
    requires rs != []
    ensures Events(Turns(rs)) == Events(Turns([rs[0]])) + Events(Turns(rs[1..]))
  {
    assert rs == [rs[0]] + rs[1..];
    ContinuedEvents([rs[0]], rs[1..]);
  }

  lemma {:induction false} PartHead(p: Record -> bool, rs: seq<Record>)
    requires rs != []
    ensures Events(Turns(Filter(p, rs))) ==
            (if p(rs[0]) then Events(Turns([rs[0]])) else []) + Events(Turns(Filter(p, rs[1..])))
  {
    var rest := Filter(p, rs[1..]);
    if p(rs[0]) {
      assert Filter(p, rs) == [rs[0]] + rest;
      ContinuedEvents([rs[0]], rest);
    } else {
      assert Filter(p, rs) == rest && [] + Events(Turns(rest)) == Events(Turns(rest));
    }
  }

  lemma {:induction false} PartedHead(p: Record -> bool, rs: seq<Record>)
    requires rs != []
    ensures var head := Events(Turns([rs[0]]));
            && Events(Turns(Filter(p, rs))) == (if p(rs[0]) then head else []) + Events(Turns(Filter(p, rs[1..])))
            && Events(Turns(Rest(p, rs))) == (if p(rs[0]) then [] else head) + Events(Turns(Rest(p, rs[1..])))
  {
    PartHead(p, rs);
    PartHead((r: Record) => !p(r), rs);
  }

  lemma {:induction false} PartedSets(head: seq<Event>, all: seq<Event>, kept: seq<Event>, gone: seq<Event>, keeps: bool)
    requires UseIds(kept) + UseIds(gone) == UseIds(all) && UseIds(kept) !! UseIds(gone)
    requires AnswerIds(kept) + AnswerIds(gone) == AnswerIds(all) && AnswerIds(kept) !! AnswerIds(gone)
    requires UseIds(head) !! UseIds(all) && AnswerIds(head) !! AnswerIds(all)
    ensures var kept', gone' := (if keeps then head else []) + kept, (if keeps then [] else head) + gone;
            && UseIds(kept') + UseIds(gone') == UseIds(head + all) && UseIds(kept') !! UseIds(gone')
            && AnswerIds(kept') + AnswerIds(gone') == AnswerIds(head + all) && AnswerIds(kept') !! AnswerIds(gone')
  {
    EventIdsConcat(head, all);
    EventIdsConcat(if keeps then head else [], kept);
    EventIdsConcat(if keeps then [] else head, gone);
  }

  /** The kept and the removed rows share the events between them, no use and no answer being on both sides. */
  lemma {:induction false} PartedIds(p: Record -> bool, st: Protocol, rs: seq<Record>)
    requires st.Open? && Run(st, Events(Turns(rs))).Open?
    ensures var all, kept, gone := Events(Turns(rs)), Events(Turns(Filter(p, rs))), Events(Turns(Rest(p, rs)));
            && UseIds(kept) + UseIds(gone) == UseIds(all) && UseIds(kept) !! UseIds(gone)
            && AnswerIds(kept) + AnswerIds(gone) == AnswerIds(all) && AnswerIds(kept) !! AnswerIds(gone)
    decreases |rs|
  {
    if rs != [] {
      var head, rest := Events(Turns([rs[0]])), Events(Turns(rs[1..]));
      HeadEvents(rs);
      PartedHead(p, rs);
      RunConcat(st, head, rest);
      var next := Run(st, head);
      RunIsFresh(st, head);
      RunIsFresh(next, rest);
      PartedIds(p, next, rs[1..]);
      PartedSets(head, rest, Events(Turns(Filter(p, rs[1..]))), Events(Turns(Rest(p, rs[1..]))), p(rs[0]));
    }
  }

  lemma {:induction false} RunOfRemoved(gone: set<Id>, st: Protocol, es: seq<Event>)
    requires st.Open? && Run(st, es).Open? && Within(es, gone)
    ensures Less(Run(st, es), gone) == Less(st, gone)
  {
    RunIsFresh(st, es);
  }

  lemma {:induction false} HeadWithout(gone: set<Id>, st: Protocol, head: seq<Event>, kept: seq<Event>)
    requires st.Open? && Run(st, head).Open? && Apart(head, gone)
    ensures Run(Less(st, gone), head + kept) == Run(Less(Run(st, head), gone), kept)
  {
    RunWithout(gone, st, head);
    RunConcat(Less(st, gone), head, kept);
  }

  /** The rows that are kept have nothing to do with the ids, the others with nothing else. */
  predicate Sorted(p: Record -> bool, gone: set<Id>, rs: seq<Record>) {
    Apart(Events(Turns(Filter(p, rs))), gone) && Within(Events(Turns(Rest(p, rs))), gone)
  }

  lemma {:induction false} SortedParts(
      head: seq<Event>, kept: seq<Event>, rest: seq<Event>, keeps: bool, gone: set<Id>)
    requires Apart((if keeps then head else []) + kept, gone) && Within((if keeps then [] else head) + rest, gone)
    ensures Apart(kept, gone) && Within(rest, gone) && if keeps then Apart(head, gone) else Within(head, gone)
  {
    IdsOfParts(if keeps then head else [], kept, gone);
    IdsOfParts(if keeps then [] else head, rest, gone);
  }

  lemma {:induction false} SortedHead(p: Record -> bool, gone: set<Id>, rs: seq<Record>)
    requires rs != [] && Sorted(p, gone, rs)
    ensures Sorted(p, gone, rs[1..])
    ensures if p(rs[0]) then Apart(Events(Turns([rs[0]])), gone) else Within(Events(Turns([rs[0]])), gone)
  {
    PartedHead(p, rs);
    SortedParts(Events(Turns([rs[0]])), Events(Turns(Filter(p, rs[1..]))), Events(Turns(Rest(p, rs[1..]))), p(rs[0]), gone);
  }

  /** What the first row does to the run without the removed rows. */
  lemma {:induction false} RunOfKeptHead(p: Record -> bool, gone: set<Id>, st: Protocol, rs: seq<Record>)
    requires rs != [] && st.Open? && Run(st, Events(Turns([rs[0]]))).Open?
    requires if p(rs[0]) then Apart(Events(Turns([rs[0]])), gone) else Within(Events(Turns([rs[0]])), gone)
    ensures Run(Less(st, gone), Events(Turns(Filter(p, rs)))) ==
            Run(Less(Run(st, Events(Turns([rs[0]]))), gone), Events(Turns(Filter(p, rs[1..]))))
  {
    PartedHead(p, rs);
    var head, kept := Events(Turns([rs[0]])), Events(Turns(Filter(p, rs[1..])));
    if p(rs[0]) {
      HeadWithout(gone, st, head, kept);
    } else {
      RunOfRemoved(gone, st, head);
      assert [] + kept == kept;
    }
  }

  /** Without the removed rows the run goes on as before, less their ids. */
  lemma {:induction false} RunOfKept(p: Record -> bool, gone: set<Id>, st: Protocol, rs: seq<Record>)
    requires st.Open? && Run(st, Events(Turns(rs))).Open? && Sorted(p, gone, rs)
    ensures Run(Less(st, gone), Events(Turns(Filter(p, rs)))) == Less(Run(st, Events(Turns(rs))), gone)
    decreases |rs|
  {
    if rs != [] {
      var head := Events(Turns([rs[0]]));
      HeadEvents(rs);
      RunConcat(st, head, Events(Turns(rs[1..])));
      SortedHead(p, gone, rs);
      RunOfKept(p, gone, Run(st, head), rs[1..]);
      RunOfKeptHead(p, gone, st, rs);
    }
  }

  lemma {:induction false} RemovalKeeps(p: Record -> bool, view: seq<Record>, w: seq<Event>)
    requires AcceptsEvents(Events(Turns(view)) + w) && SelfContained(Rest(p, view))
    ensures AcceptsEvents(Events(Turns(Filter(p, view))) + w)
  {
    var gone := UseIds(Events(Turns(Rest(p, view))));
    RunConcat(START, Events(Turns(view)), w);
    var mid := Run(START, Events(Turns(view)));
    RunIsFresh(START, Events(Turns(view)));
    RunIsFresh(mid, w);
    PartedIds(p, START, view);
    RunOfKept(p, gone, START, view);
    RunWithout(gone, mid, w);
    assert Less(START, gone) == START;
    RunConcat(START, Events(Turns(Filter(p, view))), w);
  }

  lemma {:induction false} RemovalIsSelfContained(p: Record -> bool, view: seq<Record>, w: seq<Event>)
    requires AcceptsEvents(Events(Turns(view)) + w) && AcceptsEvents(Events(Turns(Filter(p, view))) + w)
    ensures SelfContained(Rest(p, view))
  {
    var all, kept := Events(Turns(view)), Events(Turns(Filter(p, view)));
    RunConcat(START, all, w);
    RunIsFresh(START, all);
    RunIsFresh(Run(START, all), w);
    PartedIds(p, START, view);
    AcceptedIsAnswered(all + w);
    AcceptedIsAnswered(kept + w);
    EventIdsConcat(all, w);
    EventIdsConcat(kept, w);
  }

  /**
   Taking rows out is invisible to the future exactly when they answer the calls they make: of any continuation that
   the conversation would have accepted, what is left accepts it if and only if that is so.
   */
  lemma {:induction false} RemovalTransparentIff(p: Record -> bool, view: seq<Record>, w: seq<Record>)
    requires Accepts(Turns(view + w))
    ensures Accepts(Turns(Filter(p, view) + w)) <==> SelfContained(Rest(p, view))
  {
    ContinuedEvents(view, w);
    ContinuedEvents(Filter(p, view), w);
    if SelfContained(Rest(p, view)) {
      RemovalKeeps(p, view, Events(Turns(w)));
    }
    if Accepts(Turns(Filter(p, view) + w)) {
      RemovalIsSelfContained(p, view, Events(Turns(w)));
    }
  }

  /** A conversation that can be completed is settled if and only if it answers all its calls by itself. */
  lemma {:induction false} SettledIffSelfContained(view: seq<Record>, w: seq<Record>)
    requires Accepts(Turns(view + w))
    ensures Accepts(Turns(view)) <==> SelfContained(view)
  {
    ContinuedEvents(view, w);
    RunConcat(START, Events(Turns(view)), Events(Turns(w)));
    RunIsFresh(START, Events(Turns(view)));
    if Accepts(Turns(view)) {
      AcceptedIsAnswered(Events(Turns(view)));
    }
  }
}
