/**
 Building context attachments within a token budget. The token counter is any function from text to numbers; it
 need not be additive, nor even monotone.
 */
module Attachments {
  import opened Sequences
  import opened Identifiers
  import opened Transcript

  const TOTAL_ATTACHMENT_BUDGET := 2200
  const MAX_ATTACHMENT_TOKENS := 700
  const FILE_SNAPSHOT_MAX_ATTACHMENT_TOKENS := 1600
  const FILE_SNAPSHOT_MAX_FILES := 5
  const FILE_SNAPSHOT_MAX_TOKENS_PER_FILE := 320
  const FILE_SNAPSHOT_MAX_LINES_PER_FILE := 80
  const TRUNCATED := "...[truncated]"

  type Counter = string -> nat

  datatype ContextAttachment = ContextAttachment(kind: AttachmentKind, title: string, content: string, tokens: nat)

  function Header(title: string): string {
    "[Context attachment: " + title + "]"
  }

  // ---- Trimming ----

  function CutShort(value: string, end: nat): string
    requires end <= |value|
  {
    Trim(value[..end]) + "\n" + TRUNCATED
  }

  /** Shrinks by a fifth until the text fits or is down to 64 characters. */
  function Shrunk(value: string, end: nat, max: int, count: Counter): string
    requires end <= |value|
    decreases end
  {
    if end <= 64 then TRUNCATED
    else
      var next := end * 4 / 5;
      if count(CutShort(value, next)) <= max then CutShort(value, next) else Shrunk(value, next, max, count)
  }

  function Trimmed(text: string, max: int, count: Counter): string {
    var value := Trim(text);
    if value == "" || max <= 0 then ""
    else if count(value) <= max then value
    else Shrunk(value, |value|, max, count)
  }

  method TrimToBudget(text: string, max: int, count: Counter) returns (r: string)
    ensures r == Trimmed(text, max, count)
  {
    var value := Trim(text);
    if value == "" { return value; }
    if max <= 0 { return ""; }
    if count(value) <= max { return value; }
    var end: nat := |value|;
    while end > 64
      invariant end <= |value|
      invariant Shrunk(value, |value|, max, count) == Shrunk(value, end, max, count)
    {
      end := end * 4 / 5;
      var candidate := Trim(value[..end]) + "\n" + TRUNCATED;
      if count(candidate) <= max { return candidate; }
    }
    r := TRUNCATED;
  }

  /** The cut after `k` rounds of shrinking. */
  function CutAfter(length: nat, k: nat): (end: nat)
    ensures end <= length
  {
    if k == 0 then length else CutAfter(length * 4 / 5, k - 1)
  }

  /**
   Shrinking takes the first cut of the chain that fits, every earlier one being too long and longer than 64
   characters; or the bare mark, when all cuts down to that length are too long.
   */
  lemma {:induction false} ShrunkIsFirstFit(value: string, end: nat, max: int, count: Counter) returns (rounds: nat)
    requires end <= |value|
    ensures forall i: nat | i < rounds :: CutAfter(end, i) > 64
    ensures forall i: nat | 0 < i < rounds :: count(CutShort(value, CutAfter(end, i))) > max
    ensures var r := Shrunk(value, end, max, count);
            || (rounds > 0 && r == CutShort(value, CutAfter(end, rounds)) && count(r) <= max)
            || (r == TRUNCATED && CutAfter(end, rounds) <= 64
                && (rounds > 0 ==> count(CutShort(value, CutAfter(end, rounds))) > max))
    decreases end
  {
    if end <= 64 {
      rounds := 0;
    } else {
      var next := end * 4 / 5;
      if count(CutShort(value, next)) <= max {
        rounds := 1;
        assert CutAfter(end, 1) == CutAfter(next, 0) == next;
      } else {
        var more := ShrunkIsFirstFit(value, next, max, count);
        rounds := more + 1;
        assert forall i: nat | 0 < i :: CutAfter(end, i) == CutAfter(next, i - 1);
        assert CutAfter(next, 0) == next;
      }
    }
  }

  lemma {:induction false} TrimmedFits(text: string, max: int, count: Counter)
    ensures var r := Trimmed(text, max, count); r == "" || r == TRUNCATED || count(r) <= max
    ensures Trim(text) != "" && 0 < count(Trim(text)) <= max ==> Trimmed(text, max, count) == Trim(text)
  {
    var rounds := ShrunkIsFirstFit(Trim(text), |Trim(text)|, max, count);
  }

  // ---- One attachment ----

  function Labelled(kind: AttachmentKind, title: string, body: string, count: Counter): ContextAttachment {
    var content := if body == "" then Header(title) else Header(title) + "\n" + body;
    ContextAttachment(kind, title, content, count(content))
  }

  function BodyOf(a: ContextAttachment): string {
    if Header(a.title) + "\n" <= a.content then a.content[|Header(a.title)| + 1..] else a.content
  }

  /** What is left for the body when the header is paid for. */
  function BodyRoom(title: string, maxTokens: Option<int>, count: Counter): int {
    (if maxTokens.Some? then maxTokens.value else MAX_ATTACHMENT_TOKENS) - count(Header(title))
  }

  /** Nothing is left of a text only if there was nothing in it, or no room at all. */
  lemma {:induction false} TrimmedIsBareIff(text: string, max: int, count: Counter)
    ensures Trimmed(text, max, count) == "" <==> Trim(text) == "" || max <= 0
  {
    var rounds := ShrunkIsFirstFit(Trim(text), |Trim(text)|, max, count);
  }

  /** The body can be read back from a labelled text. */
  lemma {:induction false} LabelReadsBack(kind: AttachmentKind, title: string, body: string, count: Counter)
    requires body != ""
    ensures var r := Labelled(kind, title, body, count);
            Header(title) + "\n" <= r.content && BodyOf(r) == body && r.content != Header(title)
  {
    var prefix := Header(title) + "\n";
    assert (prefix + body)[|prefix|..] == body;
  }

  /**
   An attachment opens with its header and is counted as it stands. It is the bare header if and only if the body
   is blank or the header leaves no room; a body that fits the room is kept whole, any other is cut to fit it, or
   gives way to the bare mark.
   */
  method BuildAttachment(kind: AttachmentKind, title: string, body: string, maxTokens: Option<int>, count: Counter)
    returns (r: ContextAttachment)
    ensures r.kind == kind && r.title == title && r.tokens == count(r.content) && Header(title) <= r.content
    ensures r.content == Header(title) <==> Trim(body) == "" || BodyRoom(title, maxTokens, count) <= 0
    ensures r.content != Header(title) ==>
              && Header(title) + "\n" <= r.content
              && (BodyOf(r) == TRUNCATED || count(BodyOf(r)) <= BodyRoom(title, maxTokens, count))
    ensures r.content != Header(title) && count(Trim(body)) <= BodyRoom(title, maxTokens, count) ==>
              BodyOf(r) == Trim(body)
  {
    var budget := if maxTokens.Some? then maxTokens.value else MAX_ATTACHMENT_TOKENS;
    var header := Header(title);
    var bodyBudget := if budget - count(header) > 0 then budget - count(header) else 0;
    var trimmedBody := TrimToBudget(body, bodyBudget, count);
    var content := if trimmedBody != "" then header + "\n" + trimmedBody else header;
    r := ContextAttachment(kind, title, content, count(content));
    TrimmedIsBareIff(body, bodyBudget, count);
    TrimmedFits(body, bodyBudget, count);
    if trimmedBody != "" {
      LabelReadsBack(kind, title, trimmedBody, count);
      assert r == Labelled(kind, title, trimmedBody, count);
    }
  }

  /** An attachment in the room that is left, shortened if need be, or left out. */
  function Fit(a: ContextAttachment, max: int, count: Counter): Option<ContextAttachment> {
    if max <= 0 then None
    else if a.tokens <= max then Some(a)
    else WithBody(a, Trimmed(BodyOf(a), max - count(Header(a.title)), count), max, count)
  }

  function WithBody(a: ContextAttachment, body: string, max: int, count: Counter): Option<ContextAttachment> {
    var shortened := Labelled(a.kind, a.title, body, count);
    if count(Header(a.title)) > max || body == "" || shortened.tokens > max then None else Some(shortened)
  }

  method ReadBody(a: ContextAttachment) returns (body: string)
    ensures body == BodyOf(a)
  {
    var header := Header(a.title);
    body := if header + "\n" <= a.content then a.content[|header| + 1..] else a.content;
  }

  /** Puts the trimmed body under the header, if there is one and the whole fits. */
  method PutUnderHeader(a: ContextAttachment, body: string, max: int, count: Counter)
    returns (r: Option<ContextAttachment>)
    requires count(Header(a.title)) <= max
    ensures r == WithBody(a, body, max, count)
  {
    if body == "" { return None; }
    var content := Header(a.title) + "\n" + body;
    var tokens := count(content);
    assert a.(content := content, tokens := tokens) == Labelled(a.kind, a.title, body, count);
    if tokens > max { return None; }
    r := Some(a.(content := content, tokens := tokens));
  }

  method FitAttachmentToBudget(a: ContextAttachment, max: int, count: Counter) returns (r: Option<ContextAttachment>)
    ensures r == Fit(a, max, count)
  {
    FitIs(a, max, count);
    if max <= 0 { return None; }
    if a.tokens <= max { return Some(a); }
    if count(Header(a.title)) > max { return None; }
    var body := ReadBody(a);
    var trimmedBody := TrimToBudget(body, max - count(Header(a.title)), count);
    r := PutUnderHeader(a, trimmedBody, max, count);
  }

  lemma {:induction false} FitIs(a: ContextAttachment, max: int, count: Counter)
    ensures max <= 0 ==> Fit(a, max, count) == None
    ensures max > 0 && a.tokens <= max ==> Fit(a, max, count) == Some(a)
    ensures 0 < max < a.tokens ==>
              Fit(a, max, count) == WithBody(a, Trimmed(BodyOf(a), max - count(Header(a.title)), count), max, count)
    ensures 0 < max < a.tokens && count(Header(a.title)) > max ==> Fit(a, max, count) == None
  {
  }

  lemma {:induction false} WithoutBody(a: ContextAttachment, body: string, max: int, count: Counter)
    requires body == "" || count(Header(a.title)) > max
    ensures WithBody(a, body, max, count) == None
  {
  }

  /** The text cut for its room: whole if it fits, otherwise the first cut of the chain that does, or the bare mark. */
  ghost predicate IsFirstCut(value: string, max: int, count: Counter, cut: string, rounds: nat) {
    if count(value) <= max then cut == value
    else
      && (forall i: nat | i < rounds :: CutAfter(|value|, i) > 64)
      && (forall i: nat | 0 < i < rounds :: count(Trim(value[..CutAfter(|value|, i)]) + "\n" + TRUNCATED) > max)
      && var last := Trim(value[..CutAfter(|value|, rounds)]) + "\n" + TRUNCATED;
         (|| (rounds > 0 && cut == last && count(last) <= max)
          || (cut == TRUNCATED && CutAfter(|value|, rounds) <= 64 && (rounds > 0 ==> count(last) > max)))
  }

  lemma {:induction false} TrimmedIsFirstCut(text: string, max: int, count: Counter) returns (rounds: nat)
    requires Trim(text) != "" && max > 0
    ensures IsFirstCut(Trim(text), max, count, Trimmed(text, max, count), rounds)
  {
    rounds := ShrunkIsFirstFit(Trim(text), |Trim(text)|, max, count);
  }

  /**
   When an attachment that is too long is shortened: if its header leaves room, there is a body, and the body cut for
   that room fits under the header. The shortened attachment is then that header and that body, and nothing else.
   */
  lemma {:induction false} FitShortens(a: ContextAttachment, max: int, count: Counter)
    returns (cut: string, rounds: nat)
    requires 0 < max < a.tokens
    ensures var room := max - count(Header(a.title));
            Trim(BodyOf(a)) != "" && room > 0 ==> IsFirstCut(Trim(BodyOf(a)), room, count, cut, rounds)
    ensures var room, content := max - count(Header(a.title)), Header(a.title) + "\n" + cut;
            Fit(a, max, count) ==
            if Trim(BodyOf(a)) != "" && room > 0 && count(content) <= max
            then Some(a.(content := content, tokens := count(content))) else None
  {
    FitIs(a, max, count);
    cut, rounds := CutBody(a, BodyOf(a), max, count);
  }

  lemma {:induction false} CutBody(a: ContextAttachment, body: string, max: int, count: Counter)
    returns (cut: string, rounds: nat)
    ensures var room := max - count(Header(a.title));
            && cut == Trimmed(body, room, count)
            && (Trim(body) != "" && room > 0 ==> IsFirstCut(Trim(body), room, count, cut, rounds))
    ensures var room, content := max - count(Header(a.title)), Header(a.title) + "\n" + cut;
            WithBody(a, cut, max, count) ==
            if Trim(body) != "" && room > 0 && count(content) <= max
            then Some(a.(content := content, tokens := count(content))) else None
  {
    var room := max - count(Header(a.title));
    cut, rounds := Trimmed(body, room, count), 0;
    TrimmedIsBareIff(body, room, count);
    if Trim(body) != "" && room > 0 {
      rounds := TrimmedIsFirstCut(body, room, count);
      WithBodyIs(a, cut, max, count);
    } else {
      WithoutBody(a, cut, max, count);
    }
  }

  lemma {:induction false} WithBodyIs(a: ContextAttachment, cut: string, max: int, count: Counter)
    requires count(Header(a.title)) <= max && cut != ""
    ensures var content := Header(a.title) + "\n" + cut;
            WithBody(a, cut, max, count) ==
            if count(content) <= max then Some(a.(content := content, tokens := count(content))) else None
  {
    var content := Header(a.title) + "\n" + cut;
    assert Labelled(a.kind, a.title, cut, count) == a.(content := content, tokens := count(content));
  }

  /** What fitting promises: within the room, unchanged when that is possible, and never a bare header. */
  lemma {:induction false} FitIsWithin(a: ContextAttachment, max: int, count: Counter)
    ensures var r := Fit(a, max, count);
            && (r.Some? ==> r.value.tokens <= max && r.value.kind == a.kind && r.value.title == a.title)
            && (r == Some(a) <==> 0 < max && a.tokens <= max)
            && (r.Some? && r.value != a ==>
                  r.value.tokens == count(r.value.content) && Header(a.title) + "\n" < r.value.content)
  {
    if max > 0 && a.tokens > max {
      var body := Trimmed(BodyOf(a), max - count(Header(a.title)), count);
      if body != "" {
        var h := Header(a.title) + "\n";
        assert h <= h + body && |h| < |h + body|;
      }
    }
  }

  // ---- All attachments ----

  function TotalTokens(attachments: seq<ContextAttachment>): nat {
    if attachments == [] then 0 else attachments[0].tokens + TotalTokens(attachments[1..])
  }

  /** How a candidate is fitted into the room that is left. */
  type Fitter = (ContextAttachment, int) -> Option<ContextAttachment>

  function FitWith(count: Counter): Fitter {
    (a: ContextAttachment, max: int) => Fit(a, max, count)
  }

  /** Each candidate in turn is fitted into what the ones before it have left. */
  function BuildFrom(candidates: seq<Option<ContextAttachment>>, left: int, fit: Fitter): seq<ContextAttachment> {
    if candidates == [] then []
    else
      var fitted := Fitted(candidates[0], left, fit);
      if fitted.None? then BuildFrom(candidates[1..], left, fit)
      else [fitted.value] + BuildFrom(candidates[1..], left - fitted.value.tokens, fit)
  }

  function Budget(maxTokens: Option<int>): nat {
    var wanted := if maxTokens.Some? && maxTokens.value != 0 then maxTokens.value else TOTAL_ATTACHMENT_BUDGET;
    if wanted > 0 then wanted else 0
  }

  method BuildAttachments(candidates: seq<Option<ContextAttachment>>, maxTokens: Option<int>, count: Counter)
    returns (r: seq<ContextAttachment>)
    ensures maxTokens.Some? && maxTokens.value > 0 ==> r == BuildFrom(candidates, maxTokens.value, FitWith(count))
    ensures maxTokens.None? || maxTokens.value == 0 ==> r == BuildFrom(candidates, TOTAL_ATTACHMENT_BUDGET, FitWith(count))
    ensures maxTokens.Some? && maxTokens.value > 0 ==> TotalTokens(r) <= maxTokens.value
    ensures maxTokens.None? || maxTokens.value == 0 ==> TotalTokens(r) <= TOTAL_ATTACHMENT_BUDGET
    ensures maxTokens.Some? && maxTokens.value < 0 ==> r == []
  {
    var budget := Budget(maxTokens);
    FitWithIsTight(count);
    BuiltWithinBudget(candidates, budget, FitWith(count));
    if budget <= 0 { return []; }
    r := FitInTurn(candidates, budget, FitWith(count));
  }

  /** What one candidate adds to the build. */
  function Fitted(candidate: Option<ContextAttachment>, left: int, fit: Fitter): Option<ContextAttachment> {
    if candidate.None? || candidate.value.tokens == 0 then None else fit(candidate.value, left)
  }

  /** What is done and what is still to be built make up the whole. */
  ghost predicate OnCourse(
      done: seq<ContextAttachment>, candidates: seq<Option<ContextAttachment>>, k: nat, left: int, budget: nat, fit: Fitter)
  {
    k <= |candidates| && done + BuildFrom(candidates[k..], left, fit) == BuildFrom(candidates, budget, fit)
  }

  lemma {:induction false} BuildStep(
      done: seq<ContextAttachment>, candidates: seq<Option<ContextAttachment>>, k: nat, left: int, budget: nat, fit: Fitter)
    requires k < |candidates| && OnCourse(done, candidates, k, left, budget, fit)
    ensures var fitted := Fitted(candidates[k], left, fit);
            if fitted.None? then OnCourse(done, candidates, k + 1, left, budget, fit)
            else OnCourse(done + [fitted.value], candidates, k + 1, left - fitted.value.tokens, budget, fit)
  {
    assert candidates[k..][1..] == candidates[k + 1..] && candidates[k..][0] == candidates[k];
    var fitted := Fitted(candidates[k], left, fit);
    if fitted.Some? {
      AppendOne(done, fitted.value, BuildFrom(candidates[k + 1..], left - fitted.value.tokens, fit));
    }
  }

  lemma {:induction false} BuildEnds(
      done: seq<ContextAttachment>, candidates: seq<Option<ContextAttachment>>, left: int, budget: nat, fit: Fitter)
    ensures OnCourse([], candidates, 0, budget, budget, fit)
    ensures OnCourse(done, candidates, |candidates|, left, budget, fit) ==> done == BuildFrom(candidates, budget, fit)
  {
    assert candidates[0..] == candidates && candidates[|candidates|..] == [];
    assert [] + BuildFrom(candidates, budget, fit) == BuildFrom(candidates, budget, fit);
    assert BuildFrom([], left, fit) == [] && done + [] == done;
  }

  method FitInTurn(candidates: seq<Option<ContextAttachment>>, budget: nat, fit: Fitter)
    returns (r: seq<ContextAttachment>)
    ensures r == BuildFrom(candidates, budget, fit)
  {
    r := [];
    var consumed := 0;
    BuildEnds(r, candidates, budget, budget, fit);
    for k := 0 to |candidates|
      invariant OnCourse(r, candidates, k, budget - consumed, budget, fit)
    {
      BuildStep(r, candidates, k, budget - consumed, budget, fit);
      if candidates[k].None? || candidates[k].value.tokens <= 0 { continue; }
      var fitted := fit(candidates[k].value, budget - consumed);
      if fitted.None? { continue; }
      r := r + [fitted.value];
      consumed := consumed + fitted.value.tokens;
    }
    BuildEnds(r, candidates, budget - consumed, budget, fit);
  }

  lemma {:induction false} AppendOne<T>(a: seq<T>, x: T, b: seq<T>)
    ensures a + ([x] + b) == (a + [x]) + b
  {
  }

  /** A fitter that never exceeds the room it is given. */
  ghost predicate Tight(fit: Fitter) {
    forall a, max :: fit(a, max).Some? ==> 0 < max && fit(a, max).value.tokens <= max
  }

  lemma {:induction false} FitWithIsTight(count: Counter)
    ensures Tight(FitWith(count))
  {
    forall a: ContextAttachment, max: int
      ensures FitWith(count)(a, max).Some? ==> 0 < max && FitWith(count)(a, max).value.tokens <= max
    {
      FitIsWithin(a, max, count);
    }
  }

  /** For every counter the attachments total at most the budget; without budget there are none. */
  lemma {:induction false} BuiltWithinBudget(candidates: seq<Option<ContextAttachment>>, left: nat, fit: Fitter)
    requires Tight(fit)
    ensures TotalTokens(BuildFrom(candidates, left, fit)) <= left
    ensures left == 0 ==> BuildFrom(candidates, left, fit) == []
  {
    if candidates != [] {
      var fitted := Fitted(candidates[0], left, fit);
      if fitted.None? {
        BuiltWithinBudget(candidates[1..], left, fit);
      } else {
        BuiltWithinBudget(candidates[1..], left - fitted.value.tokens, fit);
        var rest := BuildFrom(candidates[1..], left - fitted.value.tokens, fit);
        assert ([fitted.value] + rest)[1..] == rest;
      }
    }
  }

  /** A candidate that is there and has tokens. */
  predicate Counts(c: Option<ContextAttachment>) {
    c.Some? && c.value.tokens > 0
  }

  function Present(candidates: seq<Option<ContextAttachment>>): seq<ContextAttachment> {
    if candidates == [] then []
    else (if Counts(candidates[0]) then [candidates[0].value] else []) + Present(candidates[1..])
  }

  lemma {:induction false} HeadStays<T>(x: T, a: seq<T>, b: seq<T>)
    ensures [x] + (a + b) == ([x] + a) + b
  {
  }

  lemma {:induction false} BuildMore(
      candidates: seq<Option<ContextAttachment>>, x: Option<ContextAttachment>, left: int, fit: Fitter)
    ensures var done := BuildFrom(candidates, left, fit);
            BuildFrom(candidates + [x], left, fit) == done + BuildFrom([x], left - TotalTokens(done), fit)
  {
    if candidates == [] {
      assert candidates + [x] == [x];
      assert BuildFrom([], left, fit) == [] && [] + BuildFrom([x], left, fit) == BuildFrom([x], left, fit);
    } else {
      assert (candidates + [x])[0] == candidates[0] && (candidates + [x])[1..] == candidates[1..] + [x];
      var fitted := Fitted(candidates[0], left, fit);
      if fitted.None? {
        BuildMore(candidates[1..], x, left, fit);
      } else {
        var room := left - fitted.value.tokens;
        var rest := BuildFrom(candidates[1..], room, fit);
        BuildMore(candidates[1..], x, room, fit);
        assert ([fitted.value] + rest)[1..] == rest;
        assert TotalTokens([fitted.value] + rest) == fitted.value.tokens + TotalTokens(rest);
        HeadStays(fitted.value, rest, BuildFrom([x], room - TotalTokens(rest), fit));
      }
    }
  }

  function OneOrNone<T>(x: Option<T>): seq<T> {
    if x.None? then [] else [x.value]
  }

  lemma {:induction false} BuildOne(x: Option<ContextAttachment>, left: int, fit: Fitter)
    ensures BuildFrom([x], left, fit) == OneOrNone(Fitted(x, left, fit))
  {
    assert [x][1..] == [];
  }

  /** One more candidate is fitted into what the ones before it have left, behind all of them. */
  lemma {:induction false} NextCandidate(
      candidates: seq<Option<ContextAttachment>>, x: Option<ContextAttachment>, left: int, fit: Fitter)
    ensures var done := BuildFrom(candidates, left, fit);
            BuildFrom(candidates + [x], left, fit) == done + OneOrNone(Fitted(x, left - TotalTokens(done), fit))
  {
    BuildMore(candidates, x, left, fit);
    BuildOne(x, left - TotalTokens(BuildFrom(candidates, left, fit)), fit);
  }

  /**
   What a candidate adds: itself if it fits into what is left, else its shortened form if there is one, and nothing
   only if it is not there, has no tokens or does not fit.
   */
  lemma {:induction false} FittedIs(x: Option<ContextAttachment>, room: int, count: Counter)
    ensures Fitted(x, room, FitWith(count)) ==
            if !Counts(x) then None
            else if x.value.tokens <= room then Some(x.value)
            else Fit(x.value, room, count)
  {
    if Counts(x) {
      FitIsWithin(x.value, room, count);
    }
  }

  /** When all candidates together fit, the result is all that are there and have tokens, in order. */
  lemma {:induction false} AllFitAllBuilt(candidates: seq<Option<ContextAttachment>>, left: nat, count: Counter)
    requires TotalTokens(Present(candidates)) <= left
    ensures BuildFrom(candidates, left, FitWith(count)) == Present(candidates)
  {
    if candidates != [] {
      var rest := Present(candidates[1..]);
      if Counts(candidates[0]) {
        var a := candidates[0].value;
        assert ([a] + rest)[1..] == rest;
        FitIsWithin(a, left, count);
        AllFitAllBuilt(candidates[1..], left - a.tokens, count);
      } else {
        assert [] + rest == rest;
        AllFitAllBuilt(candidates[1..], left, count);
      }
    }
  }

  // ---- File snapshots ----

  /** A file edit with the lines of its content, trailing white space removed; no lines if nothing remains. */
  datatype FileState = FileState(path: string, lines: seq<string>)

  function Decimal(n: nat): string {
    (if n < 10 then "" else Decimal(n / 10)) + ["0123456789"[n % 10]]
  }

  function JoinLines(lines: seq<string>): string {
    if lines == [] then "" else if |lines| == 1 then lines[0] else lines[0] + "\n" + JoinLines(lines[1..])
  }

  /** The number that a string of digits denotes. */
  function Value(s: string): int {
    if s == "" then 0 else Value(s[..|s| - 1]) * 10 + (s[|s| - 1] as int - '0' as int)
  }

  lemma {:induction false} DecimalReadsBack(n: nat)
    ensures Value(Decimal(n)) == n && forall c | c in Decimal(n) :: '0' <= c <= '9'
  {
    var c := LastDigit(n);
    var init := if n < 10 then "" else Decimal(n / 10);
    if n >= 10 {
      DecimalReadsBack(n / 10);
    }
    ValueAppend(init, c);
    TenTimes(n);
  }

  lemma {:induction false} TenTimes(n: nat)
    ensures n == n / 10 * 10 + n % 10
  {
  }

  lemma {:induction false} ValueAppend(s: string, c: char)
    ensures Value(s + [c]) == Value(s) * 10 + (c as int - '0' as int)
  {
    assert (s + [c])[..|s|] == s;
  }

  lemma {:induction false} LastDigit(n: nat) returns (c: char)
    ensures Decimal(n) == (if n < 10 then "" else Decimal(n / 10)) + [c]
    ensures '0' <= c <= '9' && c as int - '0' as int == n % 10
  {
    c := "0123456789"[n % 10];
    var d := n % 10;
    if d == 0 || d == 1 || d == 2 || d == 3 || d == 4 {
    } else {
    }
  }

  /** The lines stand one below the other. */
  lemma {:induction false} JoinedLines(a: seq<string>, b: seq<string>)
    ensures a != [] && b != [] ==> JoinLines(a + b) == JoinLines(a) + "\n" + JoinLines(b)
    ensures |a| == 1 ==> JoinLines(a) == a[0]
  {
    if |a| > 1 {
      assert (a + b)[1..] == a[1..] + b;
      JoinedLines(a[1..], b);
    } else if |a| == 1 {
      assert (a + b)[1..] == b;
    }
  }

  /** The first `n` lines of a file under a header that gives their true number. */
  function Snippet(file: FileState, n: nat, note: bool): string
    requires n <= |file.lines|
  {
    "- " + file.path + " (" + Decimal(|file.lines|) + " lines total)\n```\n" + JoinLines(file.lines[..n]) + "\n```" +
    if note then "\n  ... [truncated to first " + Decimal(n) + " of " + Decimal(|file.lines|) + " lines]" else ""
  }

  function FewerLines(n: nat): nat {
    if n * 7 / 10 > 4 then n * 7 / 10 else 4
  }

  /** Drops three tenths of the lines until the snippet fits or four lines are left. */
  function ShrunkSnippet(file: FileState, n: nat, max: int, count: Counter): string
    requires n <= |file.lines|
    decreases n
  {
    if n <= 4 then ""
    else if count(Snippet(file, FewerLines(n), true)) <= max then Snippet(file, FewerLines(n), true)
    else ShrunkSnippet(file, FewerLines(n), max, count)
  }

  function Section(file: FileState, max: int, count: Counter): string {
    var total := |file.lines|;
    var kept := if total < FILE_SNAPSHOT_MAX_LINES_PER_FILE then total else FILE_SNAPSHOT_MAX_LINES_PER_FILE;
    if total == 0 then "- " + file.path + "\n  (empty)"
    else if count(Snippet(file, kept, kept < total)) <= max then Snippet(file, kept, kept < total)
    else ShrunkSnippet(file, kept, max, count)
  }

  method RenderFileSnapshotSection(file: FileState, max: int, count: Counter) returns (r: string)
    ensures r == Section(file, max, count)
  {
    if file.lines == [] { return "- " + file.path + "\n  (empty)"; }
    var total := |file.lines|;
    var kept := if total < FILE_SNAPSHOT_MAX_LINES_PER_FILE then total else FILE_SNAPSHOT_MAX_LINES_PER_FILE;
    var snippet := Snippet(file, kept, kept < total);
    if count(snippet) <= max { return snippet; }
    var candidateLineCount: nat := kept;
    while candidateLineCount > 4
      invariant candidateLineCount <= kept
      invariant ShrunkSnippet(file, kept, max, count) == ShrunkSnippet(file, candidateLineCount, max, count)
    {
      candidateLineCount := if candidateLineCount * 7 / 10 > 4 then candidateLineCount * 7 / 10 else 4;
      var candidate := Snippet(file, candidateLineCount, true);
      if count(candidate) <= max { return candidate; }
    }
    r := "";
  }

  /** A first part of the file, with a note if that is not all of it. */
  predicate Shows(file: FileState, n: nat, note: bool, section: string) {
    && n <= |file.lines| && (n < |file.lines| ==> note)
    && section == "- " + file.path + " (" + Decimal(|file.lines|) + " lines total)\n```\n" + JoinLines(file.lines[..n])
                  + "\n```"
                  + if note then "\n  ... [truncated to first " + Decimal(n) + " of " + Decimal(|file.lines|) + " lines]"
                    else ""
  }

  lemma {:induction false} ShrunkSnippetShows(file: FileState, n: nat, max: int, count: Counter)
    requires n <= |file.lines|
    ensures var r := ShrunkSnippet(file, n, max, count);
            r != "" ==> count(r) <= max && exists k: nat :: k < n && Shows(file, k, true, r)
    decreases n
  {
    if n > 4 {
      if count(Snippet(file, FewerLines(n), true)) <= max {
        assert Shows(file, FewerLines(n), true, Snippet(file, FewerLines(n), true));
      } else {
        ShrunkSnippetShows(file, FewerLines(n), max, count);
      }
    }
  }

  /** A section shows a first part of its file, at most 80 lines, honestly noted, and is within its limit. */
  lemma {:induction false} SectionShows(file: FileState, max: int, count: Counter)
    requires file.lines != []
    ensures var r := Section(file, max, count);
            r != "" ==>
              && count(r) <= max
              && exists n: nat, note: bool :: n <= FILE_SNAPSHOT_MAX_LINES_PER_FILE && Shows(file, n, note, r)
  {
    var total := |file.lines|;
    var kept := if total < FILE_SNAPSHOT_MAX_LINES_PER_FILE then total else FILE_SNAPSHOT_MAX_LINES_PER_FILE;
    if count(Snippet(file, kept, kept < total)) <= max {
      assert Shows(file, kept, kept < total, Snippet(file, kept, kept < total));
    } else {
      ShrunkSnippetShows(file, kept, max, count);
    }
  }

  /** The lines left after `k` rounds of dropping. */
  function LinesAfter(n: nat, k: nat): nat
    decreases k
  {
    if k == 0 then n else LinesAfter(FewerLines(n), k - 1)
  }

  lemma {:induction false} FewerIsFewer(n: nat)
    requires n > 4
    ensures FewerLines(n) < n
  {
  }

  /** The first number of lines in the chain that fits, every earlier one being too long; or nothing. */
  ghost predicate IsFirstSnippet(file: FileState, n: nat, max: int, count: Counter, r: string, rounds: nat) {
    && (forall i: nat | i < rounds :: LinesAfter(n, i) > 4)
    && (forall i: nat | 0 < i < rounds && LinesAfter(n, i) <= |file.lines| ::
          count(Snippet(file, LinesAfter(n, i), true)) > max)
    && LinesAfter(n, rounds) <= |file.lines|
    && (|| (rounds > 0 && r == Snippet(file, LinesAfter(n, rounds), true) && count(r) <= max)
        || (r == "" && LinesAfter(n, rounds) <= 4
            && (rounds > 0 ==> count(Snippet(file, LinesAfter(n, rounds), true)) > max)))
  }

  lemma {:induction false} ShrunkSnippetIsFirst(file: FileState, n: nat, max: int, count: Counter) returns (rounds: nat)
    requires n <= |file.lines|
    ensures IsFirstSnippet(file, n, max, count, ShrunkSnippet(file, n, max, count), rounds)
    decreases n
  {
    if n <= 4 {
      rounds := 0;
    } else {
      var next := FewerLines(n);
      FewerIsFewer(n);
      assert LinesAfter(n, 1) == LinesAfter(next, 0) == next;
      if count(Snippet(file, next, true)) <= max {
        rounds := 1;
      } else {
        var more := ShrunkSnippetIsFirst(file, next, max, count);
        rounds := more + 1;
        assert forall i: nat | 0 < i :: LinesAfter(n, i) == LinesAfter(next, i - 1);
      }
    }
  }

  /** A section shows as many lines, up to 80, as fit; if not all do, the first number of the chain that fits. */
  lemma {:induction false} SectionIsFirstFit(file: FileState, max: int, count: Counter) returns (rounds: nat)
    requires file.lines != []
    ensures var kept := if |file.lines| < 80 then |file.lines| else 80;
            var whole, r := Snippet(file, kept, kept < |file.lines|), Section(file, max, count);
            if count(whole) <= max then r == whole else IsFirstSnippet(file, kept, max, count, r, rounds)
  {
    rounds := ShrunkSnippetIsFirst(file, if |file.lines| < 80 then |file.lines| else 80, max, count);
  }

  function PerFile(consumed: nat): int {
    var remaining := FILE_SNAPSHOT_MAX_ATTACHMENT_TOKENS - consumed;
    if FILE_SNAPSHOT_MAX_TOKENS_PER_FILE < remaining then FILE_SNAPSHOT_MAX_TOKENS_PER_FILE else remaining
  }

  /** What is consumed counts twice against a further section: in the remaining budget, and beside it. */
  predicate Taken(section: string, consumed: nat, count: Counter) {
    section != "" && count(section) > 0 && consumed + count(section) <= FILE_SNAPSHOT_MAX_ATTACHMENT_TOKENS - consumed
  }

  /** How a file is rendered within a limit. */
  type Renderer = (FileState, int) -> string

  function SectionWith(count: Counter): Renderer {
    (file: FileState, max: int) => Section(file, max, count)
  }

  /** The sections of the files `files[first..k]`, newest first. */
  function Sections(
      files: seq<FileState>, first: nat, k: nat, consumed: nat, render: Renderer, count: Counter)
    : seq<string>
    requires k <= |files|
    decreases k
  {
    if k <= first || consumed >= FILE_SNAPSHOT_MAX_ATTACHMENT_TOKENS then []
    else
      var section := render(files[k - 1], PerFile(consumed));
      if Taken(section, consumed, count) then
        [section] + Sections(files, first, k - 1, consumed + count(section), render, count)
      else Sections(files, first, k - 1, consumed, render, count)
  }

  lemma {:induction false} SectionsStep(
      done: seq<string>, files: seq<FileState>, first: nat, k: nat, consumed: nat, render: Renderer, count: Counter)
    requires first < k <= |files| && consumed < FILE_SNAPSHOT_MAX_ATTACHMENT_TOKENS
    ensures var section := render(files[k - 1], PerFile(consumed));
            done + Sections(files, first, k, consumed, render, count) ==
            if Taken(section, consumed, count)
            then (done + [section]) + Sections(files, first, k - 1, consumed + count(section), render, count)
            else done + Sections(files, first, k - 1, consumed, render, count)
  {
    var section := render(files[k - 1], PerFile(consumed));
    AppendOne(done, section, Sections(files, first, k - 1, consumed + count(section), render, count));
  }

  /** Newest file first, each rendered within what is left for it. */
  method CollectSections(
      files: seq<FileState>, first: nat, render: Renderer, count: Counter) returns (sections: seq<string>)
    requires first <= |files|
    ensures sections == Sections(files, first, |files|, 0, render, count)
  {
    sections := [];
    var consumed: nat := 0;
    var k := |files|;
    while k > first
      invariant first <= k <= |files|
      invariant sections + Sections(files, first, k, consumed, render, count)
             == Sections(files, first, |files|, 0, render, count)
    {
      if consumed >= FILE_SNAPSHOT_MAX_ATTACHMENT_TOKENS { break; }
      SectionsStep(sections, files, first, k, consumed, render, count);
      k := k - 1;
      var remaining := FILE_SNAPSHOT_MAX_ATTACHMENT_TOKENS - consumed;
      var perFile := if FILE_SNAPSHOT_MAX_TOKENS_PER_FILE < remaining then FILE_SNAPSHOT_MAX_TOKENS_PER_FILE else remaining;
      var section := render(files[k], perFile);
      if section == "" { continue; }
      var sectionTokens := count(section);
      if sectionTokens <= 0 || consumed + sectionTokens > remaining { continue; }
      sections := sections + [section];
      consumed := consumed + sectionTokens;
    }
  }

  method CollectFileSnapshots(files: seq<FileState>, count: Counter) returns (sections: seq<string>)
    ensures var first := if |files| > FILE_SNAPSHOT_MAX_FILES then |files| - FILE_SNAPSHOT_MAX_FILES else 0;
            sections == Sections(files, first, |files|, 0, SectionWith(count), count)
    ensures SectionTokens(sections, count) <= FILE_SNAPSHOT_MAX_ATTACHMENT_TOKENS
    ensures (forall f | f in files :: f.lines != []) ==> SectionTokens(sections, count) <= 960
  {
    var first := if |files| > FILE_SNAPSHOT_MAX_FILES then |files| - FILE_SNAPSHOT_MAX_FILES else 0;
    SectionsFillHalf(files, first, |files|, 0, SectionWith(count), count, FILE_SNAPSHOT_MAX_ATTACHMENT_TOKENS);
    if forall f | f in files :: f.lines != [] {
      SectionsAreBounded(files, count);
      SectionsFillHalf(files, first, |files|, 0, SectionWith(count), count, FILE_SNAPSHOT_MAX_TOKENS_PER_FILE);
    }
    sections := CollectSections(files, first, SectionWith(count), count);
  }

  function SectionTokens(sections: seq<string>, count: Counter): nat {
    if sections == [] then 0 else count(sections[0]) + SectionTokens(sections[1..], count)
  }

  /** What a renderer keeps to for the files at hand. */
  ghost predicate Bounded(files: seq<FileState>, render: Renderer, count: Counter, bound: nat) {
    forall f, max | f in files && max <= FILE_SNAPSHOT_MAX_TOKENS_PER_FILE ::
      render(f, max) != "" ==> count(render(f, max)) <= bound
  }

  lemma {:induction false} SectionsAreBounded(files: seq<FileState>, count: Counter)
    requires forall f | f in files :: f.lines != []
    ensures Bounded(files, SectionWith(count), count, FILE_SNAPSHOT_MAX_TOKENS_PER_FILE)
  {
    forall f: FileState, max: int | f in files && max <= FILE_SNAPSHOT_MAX_TOKENS_PER_FILE
      ensures SectionWith(count)(f, max) != "" ==> count(SectionWith(count)(f, max)) <= FILE_SNAPSHOT_MAX_TOKENS_PER_FILE
    {
      SectionShows(f, max, count);
    }
  }

  lemma {:induction false} SectionTokensFirst(section: string, rest: seq<string>, count: Counter)
    ensures SectionTokens([section] + rest, count) == count(section) + SectionTokens(rest, count)
  {
    assert ([section] + rest)[1..] == rest;
  }

  lemma {:induction false} TakenStaysWithin(section: string, consumed: nat, count: Counter, bound: nat)
    requires Taken(section, consumed, count) && count(section) <= bound
    ensures 2 * (consumed + count(section)) <= FILE_SNAPSHOT_MAX_ATTACHMENT_TOKENS + bound
  {
  }

  /** Sections of at most `bound` tokens fill at most half of the limit and half of one section more. */
  lemma {:induction false} SectionsFillHalf(
      files: seq<FileState>, first: nat, k: nat, consumed: nat, render: Renderer, count: Counter, bound: nat)
    requires k <= |files| && 2 * consumed <= FILE_SNAPSHOT_MAX_ATTACHMENT_TOKENS + bound
    requires bound == FILE_SNAPSHOT_MAX_ATTACHMENT_TOKENS || Bounded(files, render, count, bound)
    ensures 2 * (consumed + SectionTokens(Sections(files, first, k, consumed, render, count), count)) <=
            FILE_SNAPSHOT_MAX_ATTACHMENT_TOKENS + bound
    decreases k
  {
    if k > first && consumed < FILE_SNAPSHOT_MAX_ATTACHMENT_TOKENS {
      var section := render(files[k - 1], PerFile(consumed));
      if Taken(section, consumed, count) {
        assert files[k - 1] in files;
        TakenStaysWithin(section, consumed, count, bound);
        SectionTokensFirst(section, Sections(files, first, k - 1, consumed + count(section), render, count), count);
        SectionsFillHalf(files, first, k - 1, consumed + count(section), render, count, bound);
      } else {
        SectionsFillHalf(files, first, k - 1, consumed, render, count, bound);
      }
    }
  }

  /** From 800 consumed tokens on nothing more is taken, although half of the limit is still free. */
  lemma {:induction false} HalfFullTakesNothing(
      files: seq<FileState>, first: nat, k: nat, consumed: nat, render: Renderer, count: Counter)
    requires k <= |files| && 2 * consumed >= FILE_SNAPSHOT_MAX_ATTACHMENT_TOKENS
    ensures Sections(files, first, k, consumed, render, count) == []
    decreases k
  {
    if k > first {
      HalfFullTakesNothing(files, first, k - 1, consumed, render, count);
    }
  }

  /** The sections of the files, newest first, each with the room of one file. */
  function NewestFirst(files: seq<FileState>, first: nat, k: nat, render: Renderer): seq<string>
    requires k <= |files|
    decreases k
  {
    if k <= first then [] else [render(files[k - 1], 320)] + NewestFirst(files, first, k - 1, render)
  }

  /** While everything fits twice, every file that has a section is shown, newest first. */
  lemma {:induction false} AllSectionsTaken(
      files: seq<FileState>, first: nat, k: nat, consumed: nat, render: Renderer, count: Counter)
    requires k <= |files|
    requires forall i | first <= i < k :: render(files[i], 320) != "" && count(render(files[i], 320)) > 0
    requires 2 * (consumed + SectionTokens(NewestFirst(files, first, k, render), count)) <= 1_600
    ensures Sections(files, first, k, consumed, render, count) == NewestFirst(files, first, k, render)
    decreases k
  {
    if k > first {
      var section := render(files[k - 1], 320);
      SectionTokensFirst(section, NewestFirst(files, first, k - 1, render), count);
      assert PerFile(consumed) == 320;
      AllSectionsTaken(files, first, k - 1, consumed + count(section), render, count);
    }
  }

  /** A section that would fit the limit is refused exactly when it does not fit beside twice what is consumed. */
  lemma {:induction false} RefusedThoughFittingIff(section: string, consumed: nat, count: Counter)
    requires section != "" && count(section) > 0
    requires consumed + count(section) <= FILE_SNAPSHOT_MAX_ATTACHMENT_TOKENS
    ensures !Taken(section, consumed, count) <==>
            FILE_SNAPSHOT_MAX_ATTACHMENT_TOKENS < 2 * consumed + count(section)
  {
  }

  const ONE_LINER := FileState("f", ["x"])
  const FOUR_FILES := [ONE_LINER, ONE_LINER, ONE_LINER, ONE_LINER]

  lemma {:induction false} NextIsTaken(k: nat, consumed: nat, render: Renderer, count: Counter)
    requires 0 < k <= |FOUR_FILES| && consumed <= 600
    requires render(ONE_LINER, 320) != "" && count(render(ONE_LINER, 320)) == 300
    ensures Sections(FOUR_FILES, 0, k, consumed, render, count) ==
            [render(ONE_LINER, 320)] + Sections(FOUR_FILES, 0, k - 1, consumed + 300, render, count)
  {
    assert FOUR_FILES[k - 1] == ONE_LINER && PerFile(consumed) == 320;
  }

  /** Four files of 300 tokens each would fit the limit; the fourth is refused. */
  lemma {:induction false} FourthFileIsRefused()
    ensures var count := (s: string) => 300;
            && Sections(FOUR_FILES, 0, 4, 0, SectionWith(count), count) == seq(3, i => Section(ONE_LINER, 320, count))
            && 4 * count(Section(ONE_LINER, 320, count)) <= FILE_SNAPSHOT_MAX_ATTACHMENT_TOKENS
  {
    var count := (s: string) => 300;
    var render := SectionWith(count);
    assert render(ONE_LINER, 320) == Snippet(ONE_LINER, 1, false);
    NextIsTaken(4, 0, render, count);
    NextIsTaken(3, 300, render, count);
    NextIsTaken(2, 600, render, count);
    RefusedThoughFittingIff(render(ONE_LINER, 320), 900, count);
    HalfFullTakesNothing(FOUR_FILES, 0, 1, 900, render, count);
  }
}
