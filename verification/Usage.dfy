/**
 The usage log and what the ledger's counters mean: each is a sum over the log, so the same numbers can be read
 off per transport, per model, per account or per day, and do not depend on the order of the log.
 */
module Usage {
  import opened Sequences
  import opened Identifiers

  datatype Backend = Codex | Google | OpenAiCompat | ClaudeApi | Kiro

  /** One upstream attempt as it was measured. */
  datatype Values = Values(
    inputTokens: nat, cachedInputTokens: nat, cacheCreationInputTokens: nat, outputTokens: nat,
    webSearchRequests: nat, error429Count: nat, error503Count: nat, durationMs: nat, recordedAt: int)

  datatype UsageRecord = UsageRecord(
    backend: Backend, transport: string, modelName: string, accountKey: string, accountLabel: string, values: Values)

  datatype Counters = Counters(
    requests: nat, cachedRequests: nat, inputTokens: nat, cachedInputTokens: nat, cacheCreationInputTokens: nat,
    outputTokens: nat, webSearchRequests: nat, totalAttempts: nat, error429Count: nat, error503Count: nat,
    totalDurationMs: nat)

  const ZERO := Counters(0, 0, 0, 0, 0, 0, 0, 0, 0, 0, 0)

  function Add(a: Counters, b: Counters): Counters {
    Counters(a.requests + b.requests, a.cachedRequests + b.cachedRequests, a.inputTokens + b.inputTokens,
             a.cachedInputTokens + b.cachedInputTokens, a.cacheCreationInputTokens + b.cacheCreationInputTokens,
             a.outputTokens + b.outputTokens, a.webSearchRequests + b.webSearchRequests,
             a.totalAttempts + b.totalAttempts, a.error429Count + b.error429Count, a.error503Count + b.error503Count,
             a.totalDurationMs + b.totalDurationMs)
  }

  /** An attempt that carries nothing but a retryable error is not a request. */
  predicate CountsAsRequest(v: Values) {
    !(v.inputTokens == 0 && v.cachedInputTokens == 0 && v.cacheCreationInputTokens == 0 && v.outputTokens == 0
      && v.webSearchRequests == 0 && (v.error429Count > 0 || v.error503Count > 0))
  }

  /** What one record adds to a bucket. */
  function Of(v: Values): Counters {
    Counters(
      if CountsAsRequest(v) then 1 else 0,
      if CountsAsRequest(v) && v.cachedInputTokens > 0 then 1 else 0,
      v.inputTokens, v.cachedInputTokens, v.cacheCreationInputTokens, v.outputTokens, v.webSearchRequests, 1,
      v.error429Count, v.error503Count, if CountsAsRequest(v) then v.durationMs else 0)
  }

  function Sum(log: seq<UsageRecord>): Counters {
    if log == [] then ZERO else Add(Sum(log[..|log| - 1]), Of(log[|log| - 1].values))
  }

  /** The records of one key. */
  function Where<K(==)>(key: UsageRecord -> K, k: K, log: seq<UsageRecord>): seq<UsageRecord> {
    Filter((u: UsageRecord) => key(u) == k, log)
  }

  lemma {:induction false} AddAssoc(a: Counters, b: Counters, c: Counters)
    ensures Add(Add(a, b), c) == Add(a, Add(b, c))
  {
  }

  lemma {:induction false} AddZero(a: Counters)
    ensures Add(a, ZERO) == a && Add(ZERO, a) == a
  {
  }

  lemma {:induction false} AddSwap(a: Counters, b: Counters, c: Counters)
    ensures Add(Add(a, b), c) == Add(Add(a, c), b)
  {
  }

  lemma {:induction false} SumAppend(log: seq<UsageRecord>, u: UsageRecord)
    ensures Sum(log + [u]) == Add(Sum(log), Of(u.values))
  {
    assert (log + [u])[..|log|] == log;
  }

  lemma {:induction false} SumConcat(a: seq<UsageRecord>, b: seq<UsageRecord>)
    ensures Sum(a + b) == Add(Sum(a), Sum(b))
  {
    if b == [] {
      assert a + b == a;
      AddZero(Sum(a));
    } else {
      var init, u := b[..|b| - 1], b[|b| - 1];
      assert a + b == (a + init) + [u] && b == init + [u];
      SumConcat(a, init);
      SumAppend(a + init, u);
      SumAppend(init, u);
      AddAssoc(Sum(a), Sum(init), Of(u.values));
    }
  }

  // ---- Order does not matter ----

  lemma {:induction false} SumAround(x: seq<UsageRecord>, u: UsageRecord, y: seq<UsageRecord>)
    ensures Sum(x + [u] + y) == Add(Sum(x + y), Of(u.values))
  {
    SumConcat(x + [u], y);
    SumAppend(x, u);
    SumConcat(x, y);
    AddSwap(Sum(x), Of(u.values), Sum(y));
  }

  /** Every counter of every bucket is the same for a log in any order. */
  lemma {:induction false} SumOfPermutation(a: seq<UsageRecord>, b: seq<UsageRecord>)
    requires multiset(a) == multiset(b)
    ensures Sum(a) == Sum(b)
  {
    if a == [] {
      assert |b| == |multiset(b)|;
    } else {
      var x, y := SplitPermutation(a, b);
      SumOfPermutation(a[1..], x + y);
      SumAround(x, a[0], y);
      SumAround([], a[0], a[1..]);
      assert [] + [a[0]] + a[1..] == a && [] + a[1..] == a[1..];
    }
  }

  lemma {:induction false} FilterAround(
      p: UsageRecord -> bool, x: seq<UsageRecord>, u: UsageRecord, y: seq<UsageRecord>)
    ensures multiset(Filter(p, x + [u] + y)) == multiset(Filter(p, x + y)) + if p(u) then multiset{u} else multiset{}
  {
    FilterConcat(p, x + [u], y);
    FilterConcat(p, x, [u]);
    FilterConcat(p, x, y);
    assert [u][1..] == [];
  }

  lemma {:induction false} FilterPermutation(p: UsageRecord -> bool, a: seq<UsageRecord>, b: seq<UsageRecord>)
    requires multiset(a) == multiset(b)
    ensures multiset(Filter(p, a)) == multiset(Filter(p, b))
  {
    if a == [] {
      assert |b| == |multiset(b)|;
    } else {
      var x, y := SplitPermutation(a, b);
      FilterPermutation(p, a[1..], x + y);
      FilterAround(p, x, a[0], y);
      FilterHead(p, a);
    }
  }

  lemma {:induction false} FilterHead(p: UsageRecord -> bool, a: seq<UsageRecord>)
    requires a != []
    ensures multiset(Filter(p, a)) == multiset(Filter(p, a[1..])) + if p(a[0]) then multiset{a[0]} else multiset{}
  {
  }

  // ---- The same sum, key by key ----

  function KeysOf<K(==)>(key: UsageRecord -> K, log: seq<UsageRecord>): set<K> {
    set u | u in log :: key(u)
  }

  /** Adding up the buckets of the keys `ks`. */
  function SumOver<K(==)>(key: UsageRecord -> K, ks: seq<K>, log: seq<UsageRecord>): Counters {
    if ks == [] then ZERO else Add(Sum(Where(key, ks[0], log)), SumOver(key, ks[1..], log))
  }

  lemma {:induction false} WhereNone<K>(key: UsageRecord -> K, k: K, log: seq<UsageRecord>)
    requires k !in KeysOf(key, log)
    ensures Where(key, k, log) == []
  {
    forall u | u in log ensures key(u) != k {
      assert key(u) in KeysOf(key, log);
    }
    FilterNone((u: UsageRecord) => key(u) == k, log);
  }

  lemma {:induction false} WhereAppend<K>(key: UsageRecord -> K, k: K, log: seq<UsageRecord>, u: UsageRecord)
    ensures Where(key, k, log + [u]) == Where(key, k, log) + if key(u) == k then [u] else []
  {
    FilterConcat((x: UsageRecord) => key(x) == k, log, [u]);
    assert [u][1..] == [];
  }

  /** A further record goes into exactly one of distinct buckets. */
  lemma {:induction false} SumOverAppend<K>(key: UsageRecord -> K, ks: seq<K>, log: seq<UsageRecord>, u: UsageRecord)
    requires Distinct(ks)
    ensures SumOver(key, ks, log + [u]) ==
            if key(u) in ks then Add(SumOver(key, ks, log), Of(u.values)) else SumOver(key, ks, log)
  {
    if ks != [] {
      var k, rest := ks[0], ks[1..];
      assert ks == [k] + rest;
      DistinctConcat([k], rest);
      assert k in [k];
      SumOverAppend(key, rest, log, u);
      BucketAppend(key, k, log, u);
      AddSwap(Sum(Where(key, k, log)), Of(u.values), SumOver(key, rest, log));
      AddAssoc(Sum(Where(key, k, log)), SumOver(key, rest, log), Of(u.values));
    }
  }

  lemma {:induction false} SumOverNothing<K>(key: UsageRecord -> K, ks: seq<K>)
    ensures SumOver(key, ks, []) == ZERO
  {
    if ks != [] {
      SumOverNothing(key, ks[1..]);
      assert Sum(Where(key, ks[0], [])) == ZERO;
      AddZero(ZERO);
    }
  }

  /** The buckets of any grouping of the log add up to the totals. */
  lemma {:induction false} BucketsAddUp<K>(key: UsageRecord -> K, ks: seq<K>, log: seq<UsageRecord>)
    requires Distinct(ks) && forall u | u in log :: key(u) in ks
    ensures SumOver(key, ks, log) == Sum(log)
  {
    if log == [] {
      SumOverNothing(key, ks);
    } else {
      var init, u := log[..|log| - 1], log[|log| - 1];
      assert log == init + [u];
      BucketsAddUp(key, ks, init);
      SumOverAppend(key, ks, init, u);
    }
  }

  // ---- What each counter means ----

  function SumBy(f: Values -> nat, log: seq<UsageRecord>): nat {
    if log == [] then 0 else SumBy(f, log[..|log| - 1]) + f(log[|log| - 1].values)
  }

  predicate IsRequest(u: UsageRecord) {
    CountsAsRequest(u.values)
  }

  predicate IsCachedRequest(u: UsageRecord) {
    CountsAsRequest(u.values) && u.values.cachedInputTokens > 0
  }

  lemma {:induction false} CountAppend(p: UsageRecord -> bool, log: seq<UsageRecord>, u: UsageRecord)
    ensures |Filter(p, log + [u])| == |Filter(p, log)| + if p(u) then 1 else 0
  {
    FilterConcat(p, log, [u]);
    assert [u][1..] == [];
  }

  /** Every counter, by its own definition: a sum of one measurement, or a number of records of one kind. */
  lemma {:induction false} CountersMean(log: seq<UsageRecord>)
    ensures var c := Sum(log);
            && c.totalAttempts == |log|
            && c.requests == |Filter(IsRequest, log)| && c.cachedRequests == |Filter(IsCachedRequest, log)|
            && c.inputTokens == SumBy((v: Values) => v.inputTokens, log)
            && c.cachedInputTokens == SumBy((v: Values) => v.cachedInputTokens, log)
            && c.cacheCreationInputTokens == SumBy((v: Values) => v.cacheCreationInputTokens, log)
            && c.outputTokens == SumBy((v: Values) => v.outputTokens, log)
            && c.webSearchRequests == SumBy((v: Values) => v.webSearchRequests, log)
            && c.error429Count == SumBy((v: Values) => v.error429Count, log)
            && c.error503Count == SumBy((v: Values) => v.error503Count, log)
            && c.totalDurationMs == SumBy((v: Values) => if CountsAsRequest(v) then v.durationMs else 0, log)
  {
    if log != [] {
      var init, u := log[..|log| - 1], log[|log| - 1];
      assert log == init + [u];
      CountersMean(init);
      CountAppend(IsRequest, init, u);
      CountAppend(IsCachedRequest, init, u);
    }
  }

  // ---- Days ----

  /** The request count of the daily query: a row counts unless it is all zero but for an error. */
  function DailyRequests(day: UsageRecord -> int, d: int, log: seq<UsageRecord>): nat {
    if log == [] then 0
    else
      var u, before := log[|log| - 1], DailyRequests(day, d, log[..|log| - 1]);
      var v := u.values;
      before + if day(u) != d then 0
               else if v.inputTokens == 0 && v.cachedInputTokens == 0 && v.cacheCreationInputTokens == 0
                       && v.outputTokens == 0 && v.webSearchRequests == 0
                       && (v.error429Count > 0 || v.error503Count > 0) then 0
               else 1
  }

  function SumOfDays(day: UsageRecord -> int, days: seq<int>, log: seq<UsageRecord>): nat {
    if days == [] then 0 else DailyRequests(day, days[0], log) + SumOfDays(day, days[1..], log)
  }

  lemma {:induction false} DailyAppend(day: UsageRecord -> int, d: int, log: seq<UsageRecord>, u: UsageRecord)
    ensures DailyRequests(day, d, log + [u]) ==
            DailyRequests(day, d, log) + if day(u) == d && CountsAsRequest(u.values) then 1 else 0
  {
    assert (log + [u])[..|log|] == log;
  }

  lemma {:induction false} BucketAppend<K>(key: UsageRecord -> K, k: K, log: seq<UsageRecord>, u: UsageRecord)
    ensures Sum(Where(key, k, log + [u])) ==
            if key(u) == k then Add(Sum(Where(key, k, log)), Of(u.values)) else Sum(Where(key, k, log))
  {
    WhereAppend(key, k, log, u);
    assert Where(key, k, log) + [] == Where(key, k, log);
    SumAppend(Where(key, k, log), u);
  }

  lemma {:induction false} DailyIsBucket(day: UsageRecord -> int, d: int, log: seq<UsageRecord>)
    ensures DailyRequests(day, d, log) == Sum(Where(day, d, log)).requests
  {
    if log != [] {
      var init, u := log[..|log| - 1], log[|log| - 1];
      assert log == init + [u];
      DailyIsBucket(day, d, init);
      DailyAppend(day, d, init, u);
      BucketAppend(day, d, init, u);
    }
  }

  lemma {:induction false} DaysAreBuckets(day: UsageRecord -> int, days: seq<int>, log: seq<UsageRecord>)
    ensures SumOfDays(day, days, log) == SumOver(day, days, log).requests
  {
    if days != [] {
      DaysAreBuckets(day, days[1..], log);
      DailyIsBucket(day, days[0], log);
    }
  }

  /** The daily query and the buckets count the same requests. */
  lemma {:induction false} DaysAddUp(day: UsageRecord -> int, days: seq<int>, log: seq<UsageRecord>)
    requires Distinct(days) && forall u | u in log :: day(u) in days
    ensures SumOfDays(day, days, log) == Sum(log).requests
  {
    DaysAreBuckets(day, days, log);
    BucketsAddUp(day, days, log);
  }

  // ---- The grand total ----

  const BACKENDS := [Codex, Google, OpenAiCompat, ClaudeApi, Kiro]

  function BackendOf(u: UsageRecord): Backend {
    u.backend
  }

  /** What the summary adds up over the backends: every counter except the attempts. */
  function AddSummary(acc: Counters, totals: Counters): Counters {
    Add(acc, totals).(totalAttempts := acc.totalAttempts)
  }

  function GrandTotal(log: seq<UsageRecord>, backends: seq<Backend>): Counters {
    if backends == [] then ZERO
    else AddSummary(GrandTotal(log, backends[..|backends| - 1]), Sum(Where(BackendOf, backends[|backends| - 1], log)))
  }

  lemma {:induction false} SumOverOne<K>(key: UsageRecord -> K, k: K, log: seq<UsageRecord>)
    ensures SumOver(key, [k], log) == Sum(Where(key, k, log))
  {
    assert [k][1..] == [];
    AddZero(Sum(Where(key, k, log)));
  }

  lemma {:induction false} AddSummaryDropsAttempts(acc: Counters, a: Counters, totals: Counters)
    requires acc == a.(totalAttempts := 0)
    ensures AddSummary(acc, totals) == Add(a, totals).(totalAttempts := 0)
  {
  }

  lemma {:induction false} GrandTotalStep(log: seq<UsageRecord>, backends: seq<Backend>, b: Backend)
    ensures GrandTotal(log, backends + [b]) == AddSummary(GrandTotal(log, backends), Sum(Where(BackendOf, b, log)))
  {
    assert (backends + [b])[..|backends|] == backends;
  }

  lemma {:induction false} SumOverStep<K>(key: UsageRecord -> K, ks: seq<K>, k: K, log: seq<UsageRecord>)
    ensures SumOver(key, ks + [k], log) == Add(SumOver(key, ks, log), Sum(Where(key, k, log)))
  {
    SumOverConcat(key, ks, [k], log);
    SumOverOne(key, k, log);
  }

  lemma {:induction false} GrandTotalOver(log: seq<UsageRecord>, backends: seq<Backend>)
    ensures GrandTotal(log, backends) == SumOver(BackendOf, backends, log).(totalAttempts := 0)
  {
    if backends != [] {
      var init, b := backends[..|backends| - 1], backends[|backends| - 1];
      assert backends == init + [b];
      GrandTotalOver(log, init);
      GrandTotalStep(log, init, b);
      SumOverStep(BackendOf, init, b, log);
      AddSummaryDropsAttempts(GrandTotal(log, init), SumOver(BackendOf, init, log), Sum(Where(BackendOf, b, log)));
    }
  }

  lemma {:induction false} SumOverConcat<K>(key: UsageRecord -> K, a: seq<K>, b: seq<K>, log: seq<UsageRecord>)
    ensures SumOver(key, a + b, log) == Add(SumOver(key, a, log), SumOver(key, b, log))
  {
    if a == [] {
      assert a + b == b;
      AddZero(SumOver(key, b, log));
    } else {
      assert (a + b)[1..] == a[1..] + b;
      SumOverConcat(key, a[1..], b, log);
      AddAssoc(Sum(Where(key, a[0], log)), SumOver(key, a[1..], log), SumOver(key, b, log));
    }
  }

  /** The grand total is the sum of the whole log in every counter but the attempts, which it reports as zero. */
  lemma {:induction false} GrandTotalIsSum(log: seq<UsageRecord>)
    ensures GrandTotal(log, BACKENDS) == Sum(log).(totalAttempts := 0)
    ensures GrandTotal(log, BACKENDS) == Sum(log) <==> log == []
  {
    GrandTotalOver(log, BACKENDS);
    forall u | u in log ensures u.backend in BACKENDS {
      assert u.backend == BACKENDS[0] || u.backend == BACKENDS[1] || u.backend == BACKENDS[2]
          || u.backend == BACKENDS[3] || u.backend == BACKENDS[4];
    }
    BucketsAddUp(BackendOf, BACKENDS, log);
  }

  // ---- Hydration ----

  /** A record as a caller hands it in; absent or non-finite numbers are `None`. */
  datatype RawUsage = RawUsage(
    backend: Backend, transport: string, modelName: string, accountKey: string, accountLabel: string,
    inputTokens: Option<real>, cachedInputTokens: Option<real>, cacheCreationInputTokens: Option<real>,
    outputTokens: Option<real>, webSearchRequests: Option<real>, error429Count: Option<real>, error503Count: Option<real>,
    durationMs: Option<real>, recordedAt: Option<real>)

  function Round(x: real): int {
    (x + 0.5).Floor
  }

  function ToWholeNumber(v: Option<real>): nat {
    if v.Some? && Round(v.value) > 0 then Round(v.value) else 0
  }

  function OrElse(s: string, fallback: string): string {
    if s == "" then fallback else s
  }

  function AccountFallback(b: Backend): string {
    match b
    case Codex => "Codex account"
    case Google => "Antigravity account"
    case OpenAiCompat => "OpenAI-Compatible account"
    case ClaudeApi => "Claude API account"
    case Kiro => "Kiro account"
  }

  function Normalize(raw: RawUsage, now: int): UsageRecord {
    UsageRecord(
      raw.backend, OrElse(Trim(OrElse(raw.transport, "unknown")), "unknown"), OrElse(Trim(raw.modelName), "(unknown)"),
      OrElse(Trim(raw.accountKey), "(unknown)"), OrElse(Trim(raw.accountLabel), AccountFallback(raw.backend)),
      Values(ToWholeNumber(raw.inputTokens), ToWholeNumber(raw.cachedInputTokens),
             ToWholeNumber(raw.cacheCreationInputTokens), ToWholeNumber(raw.outputTokens),
             ToWholeNumber(raw.webSearchRequests), ToWholeNumber(raw.error429Count), ToWholeNumber(raw.error503Count),
             ToWholeNumber(raw.durationMs), if raw.recordedAt.Some? then Round(raw.recordedAt.value) else now))
  }

  /** The row that is stored for a record and read back at the next start. */
  function Stored(u: UsageRecord): RawUsage {
    RawUsage(u.backend, u.transport, u.modelName, u.accountKey, u.accountLabel,
             Some(u.values.inputTokens as real), Some(u.values.cachedInputTokens as real),
             Some(u.values.cacheCreationInputTokens as real), Some(u.values.outputTokens as real),
             Some(u.values.webSearchRequests as real), Some(u.values.error429Count as real),
             Some(u.values.error503Count as real), Some(u.values.durationMs as real), Some(u.values.recordedAt as real))
  }

  lemma {:induction false} RoundOfInteger(n: int)
    ensures Round(n as real) == n
  {
  }

  lemma {:induction false} TrimmedOrElse(s: string, fallback: string)
    requires Trim(fallback) == fallback && fallback != ""
    ensures var t := OrElse(Trim(s), fallback); t != "" && Trim(t) == t
  {
    TrimIdempotent(s);
  }

  lemma {:induction false} FallbacksAreTrim(b: Backend)
    ensures Trim(AccountFallback(b)) == AccountFallback(b) && Trim("unknown") == "unknown" && Trim("(unknown)") == "(unknown)"
  {
    ExactIffTrimmed("unknown");
    ExactIffTrimmed("(unknown)");
    ExactIffTrimmed(AccountFallback(b));
  }

  /** The nearest whole number, half rounded up, and nothing below zero; nothing is zero. */
  predicate IsNearest(v: Option<real>, n: nat) {
    if v.None? || v.value <= 0.0 then n == 0 else n as real - 0.5 <= v.value < n as real + 0.5
  }

  /** The text without the white space around it, or the fallback if nothing else is in it. */
  ghost predicate IsTrimmedOr(text: string, raw: string, fallback: string) {
    exists i: nat, j: nat, t: string :: IsTrimOf(t, raw, i, j) && text == if t == "" then fallback else t
  }

  lemma {:induction false} OrElseTrims(raw: string, fallback: string)
    ensures IsTrimmedOr(OrElse(Trim(raw), fallback), raw, fallback)
  {
    var i, j := TrimMeans(raw);
    assert IsTrimOf(Trim(raw), raw, i, j);
  }

  /** Every number and every text of a normalized record, measured against what was handed in. */
  lemma {:induction false} NormalizedMeans(raw: RawUsage, now: int)
    ensures var u := Normalize(raw, now);
            && u.backend == raw.backend
            && IsTrimmedOr(u.transport, raw.transport, "unknown")
            && IsTrimmedOr(u.modelName, raw.modelName, "(unknown)")
            && IsTrimmedOr(u.accountKey, raw.accountKey, "(unknown)")
            && IsTrimmedOr(u.accountLabel, raw.accountLabel, AccountFallback(raw.backend))
    ensures var v := Normalize(raw, now).values;
            && IsNearest(raw.inputTokens, v.inputTokens) && IsNearest(raw.cachedInputTokens, v.cachedInputTokens)
            && IsNearest(raw.cacheCreationInputTokens, v.cacheCreationInputTokens)
            && IsNearest(raw.outputTokens, v.outputTokens) && IsNearest(raw.webSearchRequests, v.webSearchRequests)
            && IsNearest(raw.error429Count, v.error429Count) && IsNearest(raw.error503Count, v.error503Count)
            && IsNearest(raw.durationMs, v.durationMs)
            && (raw.recordedAt.None? ==> v.recordedAt == now)
            && (raw.recordedAt.Some? ==>
                  v.recordedAt as real - 0.5 <= raw.recordedAt.value < v.recordedAt as real + 0.5)
  {
    TransportTrims(raw.transport);
    OrElseTrims(raw.modelName, "(unknown)");
    OrElseTrims(raw.accountKey, "(unknown)");
    OrElseTrims(raw.accountLabel, AccountFallback(raw.backend));
  }

  lemma {:induction false} TransportTrims(raw: string)
    ensures IsTrimmedOr(OrElse(Trim(OrElse(raw, "unknown")), "unknown"), raw, "unknown")
  {
    OrElseTrims(raw, "unknown");
    if raw == "" {
      ExactIffTrimmed("unknown");
      assert Trim("") == "";
    }
  }

  /** Reading a stored record back normalizes it to itself. */
  lemma {:induction false} StoredReadsBack(raw: RawUsage, now: int, later: int)
    ensures Normalize(Stored(Normalize(raw, now)), later) == Normalize(raw, now)
  {
    var u := Normalize(raw, now);
    FallbacksAreTrim(raw.backend);
    TrimmedOrElse(OrElse(raw.transport, "unknown"), "unknown");
    TrimmedOrElse(raw.modelName, "(unknown)");
    TrimmedOrElse(raw.accountKey, "(unknown)");
    TrimmedOrElse(raw.accountLabel, AccountFallback(raw.backend));
    RoundOfInteger(u.values.recordedAt);
    WholeNumbersReadBack(u.values);
  }

  lemma {:induction false} WholeNumbersReadBack(v: Values)
    ensures ToWholeNumber(Some(v.inputTokens as real)) == v.inputTokens
    ensures ToWholeNumber(Some(v.cachedInputTokens as real)) == v.cachedInputTokens
    ensures ToWholeNumber(Some(v.cacheCreationInputTokens as real)) == v.cacheCreationInputTokens
    ensures ToWholeNumber(Some(v.outputTokens as real)) == v.outputTokens
    ensures ToWholeNumber(Some(v.webSearchRequests as real)) == v.webSearchRequests
    ensures ToWholeNumber(Some(v.error429Count as real)) == v.error429Count
    ensures ToWholeNumber(Some(v.error503Count as real)) == v.error503Count
    ensures ToWholeNumber(Some(v.durationMs as real)) == v.durationMs
  {
    RoundOfInteger(v.inputTokens);
    RoundOfInteger(v.cachedInputTokens);
    RoundOfInteger(v.cacheCreationInputTokens);
    RoundOfInteger(v.outputTokens);
    RoundOfInteger(v.webSearchRequests);
    RoundOfInteger(v.error429Count);
    RoundOfInteger(v.error503Count);
    RoundOfInteger(v.durationMs);
  }

  function NormalizeAll(rows: seq<RawUsage>, now: int): (log: seq<UsageRecord>)
    ensures |log| == |rows| && forall i | 0 <= i < |rows| :: log[i] == Normalize(rows[i], now)
  {
    seq(|rows|, i requires 0 <= i < |rows| => Normalize(rows[i], now))
  }

  /** The stored rows come back sorted by time, then by age; any such order is a permutation of the log. */
  predicate IsReadBack(log: seq<UsageRecord>, rows: seq<RawUsage>, order: seq<UsageRecord>) {
    && multiset(order) == multiset(log)
    && |rows| == |order| && (forall i | 0 <= i < |rows| :: rows[i] == Stored(order[i]))
    && (forall i, j | 0 <= i < j < |order| :: order[i].values.recordedAt <= order[j].values.recordedAt)
  }

  ghost predicate IsNormalized(log: seq<UsageRecord>) {
    forall u | u in log :: exists raw, now :: u == Normalize(raw, now)
  }

  /** Hydration replays the same records: each bucket has the same counters as it had live. */
  lemma {:induction false} HydrationReproducesCounters<K>(
      log: seq<UsageRecord>, rows: seq<RawUsage>, order: seq<UsageRecord>, later: int, key: UsageRecord -> K, k: K)
    requires IsNormalized(log) && IsReadBack(log, rows, order)
    ensures NormalizeAll(rows, later) == order
    ensures Sum(NormalizeAll(rows, later)) == Sum(log)
    ensures Sum(Where(key, k, NormalizeAll(rows, later))) == Sum(Where(key, k, log))
  {
    forall i | 0 <= i < |rows| ensures Normalize(rows[i], later) == order[i] {
      assert order[i] in multiset(order);
      assert order[i] in log;
      var raw, now :| order[i] == Normalize(raw, now);
      StoredReadsBack(raw, now, later);
    }
    assert NormalizeAll(rows, later) == order;
    SumOfPermutation(order, log);
    FilterPermutation((u: UsageRecord) => key(u) == k, order, log);
    SumOfPermutation(Where(key, k, order), Where(key, k, log));
  }

  /** A bucket's last sighting is that of the record applied last. */
  function LastSeen(log: seq<UsageRecord>): Option<int> {
    if log == [] then None else Some(log[|log| - 1].values.recordedAt)
  }

  /** It survives hydration exactly when the record applied last was also recorded last. */
  lemma {:induction false} LastSeenSurvivesIff(log: seq<UsageRecord>, rows: seq<RawUsage>, order: seq<UsageRecord>)
    requires IsReadBack(log, rows, order) && log != []
    ensures LastSeen(order) == LastSeen(log) <==>
            forall u | u in log :: u.values.recordedAt <= log[|log| - 1].values.recordedAt
  {
    assert |order| == |multiset(order)| == |multiset(log)| == |log|;
    var last, latest := log[|log| - 1], order[|order| - 1];
    assert last in multiset(order) && latest in multiset(log);
    assert latest in log && last in order;
    forall u | u in log ensures u.values.recordedAt <= latest.values.recordedAt {
      assert u in multiset(order);
      assert u in order;
    }
  }
}
