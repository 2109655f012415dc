/**
 The ledger's mutable state: buckets that are added into in place, tables that create a bucket on first use,
 and the state of one backend, whose every bucket is kept equal to a sum over the records applied so far.
 */
module UsageLedger {
  import opened Sequences
  import opened Usage

  class Bucket {
    var counters: Counters
    var lastSeenAt: Option<int>

    constructor ()
      ensures counters == ZERO && lastSeenAt == None
    {
      counters, lastSeenAt := ZERO, None;
    }

    method ApplyUsage(v: Values)
      modifies this
      ensures counters == Add(old(counters), Of(v)) && lastSeenAt == Some(v.recordedAt)
    {
      counters := counters.(totalAttempts := counters.totalAttempts + 1);
      if CountsAsRequest(v) {
        counters := counters.(requests := counters.requests + 1);
        if v.cachedInputTokens > 0 {
          counters := counters.(cachedRequests := counters.cachedRequests + 1);
        }
        counters := counters.(totalDurationMs := counters.totalDurationMs + v.durationMs);
      }
      counters := counters.(inputTokens := counters.inputTokens + v.inputTokens);
      counters := counters.(cachedInputTokens := counters.cachedInputTokens + v.cachedInputTokens);
      counters := counters.(cacheCreationInputTokens := counters.cacheCreationInputTokens + v.cacheCreationInputTokens);
      counters := counters.(outputTokens := counters.outputTokens + v.outputTokens);
      counters := counters.(webSearchRequests := counters.webSearchRequests + v.webSearchRequests);
      counters := counters.(error429Count := counters.error429Count + v.error429Count);
      counters := counters.(error503Count := counters.error503Count + v.error503Count);
      lastSeenAt := Some(v.recordedAt);
    }
  }

  /** What adding a record to one key's bucket does to all buckets of a table. */
  function Tallied(tally: map<string, Counters>, key: string, v: Values): map<string, Counters> {
    tally[key := Add(if key in tally then tally[key] else ZERO, Of(v))]
  }

  class BucketTable {
    var buckets: map<string, Bucket>
    /** What the buckets hold, by key. */
    ghost var tally: map<string, Counters>
    ghost var Repr: set<object>

    /** No two keys share a bucket. */
    ghost predicate Valid()
      reads this, Repr
    {
      && this in Repr && tally.Keys == buckets.Keys
      && (forall k | k in buckets :: buckets[k] in Repr && buckets[k].counters == tally[k])
      && (forall k, l | k in buckets && l in buckets && k != l :: buckets[k] != buckets[l])
    }

    constructor ()
      ensures Valid() && fresh(Repr) && buckets == map[] && tally == map[]
    {
      buckets, tally := map[], map[];
      Repr := {this};
    }

    method Record(key: string, v: Values)
      requires Valid()
      modifies Repr
      ensures Valid() && fresh(Repr - old(Repr)) && old(Repr) <= Repr
      ensures tally == Tallied(old(tally), key, v)
    {
      var bucket: Bucket;
      if key in buckets {
        bucket := buckets[key];
      } else {
        bucket := new Bucket();
      }
      bucket.ApplyUsage(v);
      buckets := buckets[key := bucket];
      tally := Tallied(tally, key, v);
      Repr := Repr + {bucket};
    }
  }

  /** A table says of every key exactly what its own records add up to. */
  ghost predicate Tallies(tally: map<string, Counters>, key: UsageRecord -> string, log: seq<UsageRecord>) {
    && tally.Keys == KeysOf(key, log)
    && forall k | k in tally :: tally[k] == Sum(Where(key, k, log))
  }

  lemma {:induction false} TalliesAppend(
      tally: map<string, Counters>, key: UsageRecord -> string, log: seq<UsageRecord>, u: UsageRecord)
    requires Tallies(tally, key, log)
    ensures Tallies(Tallied(tally, key(u), u.values), key, log + [u])
  {
    var tally' := Tallied(tally, key(u), u.values);
    assert KeysOf(key, log + [u]) == KeysOf(key, log) + {key(u)};
    forall k | k in tally' ensures tally'[k] == Sum(Where(key, k, log + [u])) {
      BucketAppend(key, k, log, u);
      if k == key(u) && k !in tally {
        WhereNone(key, k, log);
      }
    }
  }

  function TransportOf(u: UsageRecord): string {
    u.transport
  }

  function ModelOf(u: UsageRecord): string {
    u.modelName
  }

  function AccountOf(u: UsageRecord): string {
    u.accountKey
  }

  /** Every bucket equals the sum over its own records. */
  ghost predicate IsExact(
      totals: Counters, lastSeenAt: Option<int>, transports: map<string, Counters>, models: map<string, Counters>,
      accounts: map<string, Counters>, log: seq<UsageRecord>)
  {
    && totals == Sum(log) && lastSeenAt == LastSeen(log)
    && Tallies(transports, TransportOf, log) && Tallies(models, ModelOf, log) && Tallies(accounts, AccountOf, log)
  }

  lemma {:induction false} ExactAppend(
      totals: Counters, lastSeenAt: Option<int>, transports: map<string, Counters>, models: map<string, Counters>,
      accounts: map<string, Counters>, log: seq<UsageRecord>, u: UsageRecord)
    requires IsExact(totals, lastSeenAt, transports, models, accounts, log)
    ensures IsExact(Add(totals, Of(u.values)), Some(u.values.recordedAt), Tallied(transports, u.transport, u.values),
                    Tallied(models, u.modelName, u.values), Tallied(accounts, u.accountKey, u.values), log + [u])
  {
    SumAppend(log, u);
    TalliesAppend(transports, TransportOf, log, u);
    TalliesAppend(models, ModelOf, log, u);
    TalliesAppend(accounts, AccountOf, log, u);
  }

  /** The counters of a table's buckets, added up in the order of a list of their keys. */
  function Added(tally: map<string, Counters>, ks: seq<string>): Counters
    requires forall k | k in ks :: k in tally
  {
    if ks == [] then ZERO else Add(tally[ks[0]], Added(tally, ks[1..]))
  }

  ghost predicate Lists(ks: seq<string>, tally: map<string, Counters>) {
    Distinct(ks) && forall k :: k in ks <==> k in tally
  }

  lemma {:induction false} AddedIsSumOver(
      tally: map<string, Counters>, key: UsageRecord -> string, ks: seq<string>, log: seq<UsageRecord>)
    requires Tallies(tally, key, log) && forall k | k in ks :: k in tally
    ensures Added(tally, ks) == SumOver(key, ks, log)
  {
    if ks != [] {
      AddedIsSumOver(tally, key, ks[1..], log);
      assert ks[0] in ks;
    }
  }

  lemma {:induction false} TableAddsUp(
      tally: map<string, Counters>, key: UsageRecord -> string, ks: seq<string>, log: seq<UsageRecord>)
    requires Tallies(tally, key, log) && Lists(ks, tally)
    ensures Added(tally, ks) == Sum(log)
  {
    AddedIsSumOver(tally, key, ks, log);
    forall u | u in log ensures key(u) in ks {
      assert key(u) in KeysOf(key, log);
    }
    BucketsAddUp(key, ks, log);
  }

  /** In every reachable state each of the three tables adds up to the totals, in whatever order it is read. */
  lemma {:induction false} TablesAddUp(
      totals: Counters, lastSeenAt: Option<int>, transports: map<string, Counters>, models: map<string, Counters>,
      accounts: map<string, Counters>, log: seq<UsageRecord>,
      transportKeys: seq<string>, modelKeys: seq<string>, accountKeys: seq<string>)
    requires IsExact(totals, lastSeenAt, transports, models, accounts, log)
    requires Lists(transportKeys, transports) && Lists(modelKeys, models) && Lists(accountKeys, accounts)
    ensures Added(transports, transportKeys) == Added(models, modelKeys) == Added(accounts, accountKeys) == totals
  {
    TableAddsUp(transports, TransportOf, transportKeys, log);
    TableAddsUp(models, ModelOf, modelKeys, log);
    TableAddsUp(accounts, AccountOf, accountKeys, log);
  }

  class BackendState {
    const totals: Bucket
    const transports: BucketTable
    const models: BucketTable
    const accounts: BucketTable
    /** The records applied so far. */
    ghost var log: seq<UsageRecord>
    ghost var Repr: set<object>

    /** No bucket belongs to two tables, or is the totals. */
    ghost predicate Separate()
      reads this, transports, models, accounts
    {
      && transports.Repr !! models.Repr && transports.Repr !! accounts.Repr && models.Repr !! accounts.Repr
      && totals !in transports.Repr && totals !in models.Repr && totals !in accounts.Repr
      && this !in transports.Repr && this !in models.Repr && this !in accounts.Repr
    }

    ghost predicate Sound()
      reads this, Repr
    {
      && this in Repr && totals in Repr && transports in Repr && models in Repr && accounts in Repr
      && transports.Repr <= Repr && models.Repr <= Repr && accounts.Repr <= Repr
      && Separate() && transports.Valid() && models.Valid() && accounts.Valid()
    }

    ghost predicate Valid()
      reads this, Repr
    {
      Sound() && IsExact(totals.counters, totals.lastSeenAt, transports.tally, models.tally, accounts.tally, log)
    }

    constructor ()
      ensures Valid() && fresh(Repr) && log == []
    {
      totals := new Bucket();
      transports := new BucketTable();
      models := new BucketTable();
      accounts := new BucketTable();
      log := [];
      new;
      Repr := {this, totals} + transports.Repr + models.Repr + accounts.Repr;
    }

    method RecordIn(table: BucketTable, key: string, v: Values)
      requires table in {transports, models, accounts} && Sound()
      modifies this`Repr, table.Repr
      ensures Sound() && fresh(Repr - old(Repr)) && table.tally == Tallied(old(table.tally), key, v)
      ensures transports != table ==> transports.tally == old(transports.tally)
      ensures models != table ==> models.tally == old(models.tally)
      ensures accounts != table ==> accounts.tally == old(accounts.tally)
      ensures totals.counters == old(totals.counters) && totals.lastSeenAt == old(totals.lastSeenAt)
    {
      table.Record(key, v);
      Repr := Repr + table.Repr;
    }

    method AddToTotals(u: UsageRecord)
      requires Sound()
      modifies this`log, totals
      ensures Sound() && log == old(log) + [u]
      ensures totals.counters == Add(old(totals.counters), Of(u.values)) && totals.lastSeenAt == Some(u.values.recordedAt)
    {
      totals.ApplyUsage(u.values);
      log := log + [u];
    }

    method AddToTables(u: UsageRecord)
      requires Sound()
      modifies this`Repr, transports.Repr, models.Repr, accounts.Repr
      ensures Sound() && fresh(Repr - old(Repr))
      ensures totals.counters == old(totals.counters) && totals.lastSeenAt == old(totals.lastSeenAt)
      ensures transports.tally == Tallied(old(transports.tally), u.transport, u.values)
      ensures models.tally == Tallied(old(models.tally), u.modelName, u.values)
      ensures accounts.tally == Tallied(old(accounts.tally), u.accountKey, u.values)
    {
      RecordIn(transports, u.transport, u.values);
      RecordIn(models, u.modelName, u.values);
      RecordIn(accounts, u.accountKey, u.values);
    }

    method AddEverywhere(u: UsageRecord)
      requires Sound()
      modifies Repr
      ensures Sound() && fresh(Repr - old(Repr)) && log == old(log) + [u]
      ensures totals.counters == Add(old(totals.counters), Of(u.values)) && totals.lastSeenAt == Some(u.values.recordedAt)
      ensures transports.tally == Tallied(old(transports.tally), u.transport, u.values)
      ensures models.tally == Tallied(old(models.tally), u.modelName, u.values)
      ensures accounts.tally == Tallied(old(accounts.tally), u.accountKey, u.values)
    {
      AddToTotals(u);
      AddToTables(u);
    }

    method ApplyUsageRecord(u: UsageRecord)
      requires Valid()
      modifies Repr
      ensures Valid() && fresh(Repr - old(Repr)) && log == old(log) + [u]
    {
      ExactAppend(totals.counters, totals.lastSeenAt, transports.tally, models.tally, accounts.tally, log, u);
      AddEverywhere(u);
    }
  }
}
