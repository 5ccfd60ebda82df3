/**
 * The per-URL failure circuit breaker. The record functions give the value a
 * counter holds and how `fail` and `increment` change it; the class FailCounter
 * changes its own fields in place and counts its `save` calls in a ghost field;
 * FailCounterStore is the collection the static `increment`, `reset` and
 * `hasFailed` look counters up in by URL.
 */
module FailCounters {
  import opened Wrappers

  type Url = string

  /** A `Date` as the clock reported it; the clock is an input of the model. */
  type Timestamp = nat

  /** `hasFailed()`: tripped at or above the limit; a limit of 0 disables the breaker. */
  predicate Tripped(count: nat, limit: nat) {
    limit > 0 && count >= limit
  }

  /** What `toObject()` returns. */
  datatype CounterRecord = CounterRecord(url: Url, count: nat, reason: Option<string>, failedAt: Option<Timestamp>)

  /** The record of `new FailCounter(data)`: a missing count starts at 0. */
  function NewRecord(url: Url, count: Option<nat>, reason: Option<string>, failedAt: Option<Timestamp>): CounterRecord {
    CounterRecord(url, if count.Some? then count.value else 0, reason, failedAt)
  }

  function Fresh(url: Url): CounterRecord {
    NewRecord(url, None, None, None)
  }

  /** `fail(reason)`: record the reason, pin the count to the limit, stamp the first failure once. */
  function FailRecord(c: CounterRecord, reason: Option<string>, now: Timestamp, limit: nat): CounterRecord {
    CounterRecord(c.url, limit, reason, if c.failedAt.None? then Some(now) else c.failedAt)
  }

  /** `fail` saves only when it changes something. */
  predicate FailSaves(c: CounterRecord, reason: Option<string>, limit: nat) {
    c.reason != reason || c.failedAt.None? || c.count != limit
  }

  /**
   * `increment(reason)`: delegate to `fail` once tripped, otherwise add one; the
   * increment that trips the counter stamps `failedAt` unless it is already set.
   */
  function IncrementRecord(c: CounterRecord, reason: Option<string>, now: Timestamp, limit: nat): CounterRecord {
    if Tripped(c.count, limit) then FailRecord(c, reason, now, limit)
    else if Tripped(c.count + 1, limit) && c.failedAt.None? then c.(count := c.count + 1, failedAt := Some(now))
    else c.(count := c.count + 1)
  }

  /** Whether `increment` calls `save`, directly or through `fail`. */
  predicate IncrementSaves(c: CounterRecord, reason: Option<string>, limit: nat) {
    !Tripped(c.count, limit) || FailSaves(c, reason, limit)
  }

  /** `n` increments with the same reason at the same time. */
  function Increments(c: CounterRecord, n: nat, reason: Option<string>, now: Timestamp, limit: nat): CounterRecord
    decreases n
  {
    if n == 0 then c else IncrementRecord(Increments(c, n - 1, reason, now, limit), reason, now, limit)
  }

  /** Static `increment(url, reason)`: the counter found for the URL, or a new one, is incremented. */
  function StoreIncrement(store: map<Url, CounterRecord>, url: Url, reason: Option<string>, now: Timestamp, limit: nat): map<Url, CounterRecord> {
    store[url := IncrementRecord(if url in store then store[url] else Fresh(url), reason, now, limit)]
  }

  /** Static `reset(url)`: the counter found for the URL is deleted. */
  function StoreReset(store: map<Url, CounterRecord>, url: Url): map<Url, CounterRecord> {
    store - {url}
  }

  /** Static `hasFailed(url)`: false when no counter exists for the URL. */
  predicate StoreHasFailed(store: map<Url, CounterRecord>, url: Url, limit: nat) {
    url in store && Tripped(store[url].count, limit)
  }

  // ---------------------------------------------------------------- properties

  /** A limit of 0 never trips, whatever the count. */
  lemma ZeroLimitNeverTrips(c: CounterRecord, n: nat, reason: Option<string>, now: Timestamp)
    ensures !Tripped(c.count, 0)
    ensures Increments(c, n, reason, now, 0).count == c.count + n
    ensures Increments(c, n, reason, now, 0).failedAt == c.failedAt
  {
    if n > 0 {
      ZeroLimitNeverTrips(c, n - 1, reason, now);
    }
  }

  /** Once tripped, an increment keeps the counter tripped, keeps the first failure time and pins the count. */
  lemma TrippedStaysTripped(c: CounterRecord, reason: Option<string>, now: Timestamp, limit: nat)
    requires Tripped(c.count, limit)
    ensures var d := IncrementRecord(c, reason, now, limit);
      Tripped(d.count, limit) && d.count == limit && d.reason == reason
      && (c.failedAt.Some? ==> d.failedAt == c.failedAt)
  {
  }

  /**
   * From a fresh counter, `n` increments give a count of `min(n, limit)`, trip exactly
   * when `n` reaches the limit, and carry a failure time exactly from then on; the
   * reason is only recorded by increments after that (the ones that go through `fail`).
   */
  lemma {:induction false} IncrementsFromFresh(url: Url, n: nat, reason: Option<string>, now: Timestamp, limit: nat)
    requires limit > 0
    ensures var c := Increments(Fresh(url), n, reason, now, limit);
      && c.url == url
      && c.count == (if n <= limit then n else limit)
      && (Tripped(c.count, limit) <==> n >= limit)
      && (c.failedAt.Some? <==> n >= limit)
      && (n <= limit ==> c.reason == None)
  {
    if n > 0 {
      IncrementsFromFresh(url, n - 1, reason, now, limit);
    }
  }

  /** With a positive limit an increment never takes a count that is within the limit beyond it. */
  lemma IncrementWithinLimit(c: CounterRecord, reason: Option<string>, now: Timestamp, limit: nat)
    requires limit > 0 && c.count <= limit
    ensures IncrementRecord(c, reason, now, limit).count <= limit
  {
  }

  /**
   * After `reset`, the next `increment` behaves like the URL's first one: count 1, and
   * a fresh failure time exactly when that one increment trips the counter.
   */
  lemma ResetThenIncrement(store: map<Url, CounterRecord>, url: Url, reason: Option<string>, now: Timestamp, limit: nat)
    ensures var s := StoreIncrement(StoreReset(store, url), url, reason, now, limit);
      && url in s && s[url] == CounterRecord(url, 1, None, if limit == 1 then Some(now) else None)
      && s[url] == StoreIncrement(map[], url, reason, now, limit)[url]
      && (StoreHasFailed(s, url, limit) <==> limit == 1)
  {
  }

  /** Increments and resets of one URL leave every other URL's counter as it was. */
  lemma StoreOpsAreLocal(store: map<Url, CounterRecord>, url: Url, other: Url, reason: Option<string>, now: Timestamp, limit: nat)
    requires other != url
    ensures other in StoreIncrement(store, url, reason, now, limit) <==> other in store
    ensures other in store ==> StoreIncrement(store, url, reason, now, limit)[other] == store[other]
    ensures other in StoreReset(store, url) <==> other in store
    ensures other in store ==> StoreReset(store, url)[other] == store[other]
    ensures !StoreHasFailed(StoreReset(store, url), url, limit)
  {
  }

  // ------------------------------------------------------------------ objects

  class FailCounter {
    var url: Url
    var count: nat
    var reason: Option<string>
    var failedAt: Option<Timestamp>
    /** `FailCounter.limit`, read from the configuration. */
    const limit: nat
    /** How many times `save()` has been called on this counter. */
    ghost var saves: nat

    constructor (url: Url, count: Option<nat>, reason: Option<string>, failedAt: Option<Timestamp>, limit: nat)
      ensures ToObject() == NewRecord(url, count, reason, failedAt)
      ensures this.limit == limit && saves == 0
    {
      this.url := url;
      this.count := if count.Some? then count.value else 0;
      this.reason := reason;
      this.failedAt := failedAt;
      this.limit := limit;
      saves := 0;
    }

    /** `toObject()`: exactly the url, count, reason and failedAt fields. */
    function ToObject(): (r: CounterRecord)
      reads this
      ensures r.url == url && r.count == count && r.reason == reason && r.failedAt == failedAt
    {
      CounterRecord(url, count, reason, failedAt)
    }

    predicate HasFailed()
      reads this
    {
      Tripped(count, limit)
    }

    method Fail(r: Option<string>, now: Timestamp)
      modifies this`reason, this`count, this`failedAt, this`saves
      ensures ToObject() == FailRecord(old(ToObject()), r, now, limit)
      ensures saves == old(saves) + (if FailSaves(old(ToObject()), r, limit) then 1 else 0)
    {
      var changed := false;
      if reason != r {
        reason := r;
        changed := true;
      }
      if failedAt.None? {
        failedAt := Some(now);
        changed := true;
      }
      if count != limit {
        count := limit;
        changed := true;
      }
      if changed {
        saves := saves + 1;
      }
    }

    method Increment(r: Option<string>, now: Timestamp)
      modifies this`reason, this`count, this`failedAt, this`saves
      ensures ToObject() == IncrementRecord(old(ToObject()), r, now, limit)
      ensures saves == old(saves) + (if IncrementSaves(old(ToObject()), r, limit) then 1 else 0)
    {
      if HasFailed() {
        Fail(r, now);
      } else {
        count := count + 1;
        if HasFailed() && failedAt.None? {
          failedAt := Some(now);
        }
        saves := saves + 1;
      }
    }
  }

  /** The stored counters, one per URL, as the static methods find them with `getBy('url', url)`. */
  class FailCounterStore {
    var counters: map<Url, FailCounter>
    const limit: nat

    ghost predicate Valid()
      reads this, counters.Values
    {
      && (forall u :: u in counters ==> counters[u].url == u && counters[u].limit == limit)
      && (forall u, v :: u in counters && v in counters && u != v ==> counters[u] != counters[v])
    }

    ghost function Records(): map<Url, CounterRecord>
      reads this, counters.Values
    {
      map u | u in counters :: counters[u].ToObject()
    }

    constructor (limit: nat)
      ensures Valid() && Records() == map[] && this.limit == limit
    {
      counters := map[];
      this.limit := limit;
    }

    predicate HasFailed(url: Url)
      reads this, counters.Values
    {
      url in counters && counters[url].HasFailed()
    }

    lemma HasFailedMeansStore(url: Url)
      requires Valid()
      ensures HasFailed(url) == StoreHasFailed(Records(), url, limit)
    {
    }

    method Increment(url: Url, reason: Option<string>, now: Timestamp)
      requires Valid()
      modifies this, counters.Values
      ensures Valid()
      ensures Records() == StoreIncrement(old(Records()), url, reason, now, limit)
    {
      if url in counters {
        IncrementFound(url, reason, now);
      } else {
        IncrementCreated(url, reason, now);
      }
    }

    /** `increment` for a URL that has a counter: that counter is incremented in place. */
    method IncrementFound(url: Url, reason: Option<string>, now: Timestamp)
      requires Valid() && url in counters
      modifies counters.Values
      ensures Valid()
      ensures Records() == StoreIncrement(old(Records()), url, reason, now, limit)
    {
      ghost var after := StoreIncrement(Records(), url, reason, now, limit);
      var found := counters[url];
      found.Increment(reason, now);
      forall u | u in counters
        ensures counters[u].ToObject() == after[u]
      {
        if u != url {
          assert counters[u] != found;
        }
      }
      assert Records().Keys == after.Keys;
    }

    /** `increment` for a URL without a counter: a new counter is created, incremented and stored. */
    method IncrementCreated(url: Url, reason: Option<string>, now: Timestamp)
      requires Valid() && url !in counters
      modifies this
      ensures Valid()
      ensures Records() == StoreIncrement(old(Records()), url, reason, now, limit)
    {
      ghost var after := StoreIncrement(Records(), url, reason, now, limit);
      var created := new FailCounter(url, None, None, None, limit);
      created.Increment(reason, now);
      counters := counters[url := created];
      forall u | u in counters
        ensures counters[u].ToObject() == after[u]
      {
      }
      assert Records().Keys == after.Keys;
    }

    method Reset(url: Url)
      requires Valid()
      modifies this
      ensures Valid()
      ensures Records() == StoreReset(old(Records()), url)
    {
      if url in counters {
        counters := counters - {url};
      }
      assert Records() == StoreReset(old(Records()), url);
    }
  }
}
