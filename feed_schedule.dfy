/**
 * The feed-cycle controller. Each cycle it recovers from a previous cycle that did not
 * finish, folds its feeds into source lists, cuts them into batches and dispatches the
 * batches, either one after another or through a bounded pool of processors, counting
 * link outcomes until the cycle finishes.
 *
 * Processes, timers and fetches are outside the model: what the controller asks of the
 * world is appended to `effects`, reports come in through `OnLinkCompletion` and
 * `OnProcessorMessage`, and a pending 200 ms timer is fired by `FireTimer`.
 */
module FeedSchedules {
  import opened Wrappers
  import opened OrderedMaps
  import opened Sources
  import opened Dispatch
  import FailCounters
  import Permissions

  const TIMEOUT_REASON := "Failed to respond in a timely manner"
  const DEFAULT_SCHEDULE := "default"
  const NO_REFRESH_RATE := "No refreshRateMinutes has been declared for a schedule"

  function EmptyScheduleError(name: string): string {
    "Cannot create a FeedSchedule with invalid/empty keywords array for nondefault schedule (name: " + name + ")"
  }

  /** The configuration the controller reads: batch size, isolated processors, pool width, fail limit. */
  datatype Settings = Settings(batchSize: int, forkBatches: bool, parallelBatches: int, failLimit: nat)

  type ProcId = nat

  /** The `headers` cache entry stored for a link. */
  datatype HeaderEntry = HeaderEntry(lastModified: Option<string>, etag: Option<string>)

  /** What the controller asks of the world, in the order it asks. */
  datatype Effect =
    | IncrementCounter(url: Url, reason: Option<string>)
    | ResetCounter(url: Url)
    | SetDisabled(feed: FeedId, action: Permissions.Action)
    | EmitArticle(article: Article)
    | EmitFinish
    | Fetch(link: Url, rssList: SourceList, uniqueSettings: Option<map<string, string>>, runNum: nat)
    | Fork(proc: ProcId, batch: SourceMap, headers: map<Url, HeaderEntry>, runNum: nat)
    | Kill(proc: ProcId)
    | ScheduleComplete(refreshRate: int)
    | SaveStats(feeds: nat, cycleFails: nat, cycleURLs: nat)

  /** What one deployed processor's message handler closes over. */
  datatype Slot = Slot(pool: nat, ref: BatchRef, size: nat, completed: nat, hasCallback: bool, proc: ProcId)

  ghost predicate SlotsOk(slots: seq<Slot>, poolCount: nat) {
    forall k :: 0 <= k < |slots| ==> slots[k].pool < poolCount
  }

  /** What one cycle reads: stored fail counters, all feeds with their determined schedule names, and the lookups. */
  datatype CycleInput = CycleInput(
    counters: seq<FailCounters.CounterRecord>,
    feeds: seq<Feed>,
    schedules: seq<string>,
    bot: Bot,
    formatEmbeds: map<FeedId, nat>)

  /** `failCounters` keyed by URL; a later record for the same URL replaces an earlier one. */
  function CounterMap(cs: seq<FailCounters.CounterRecord>): map<Url, FailCounters.CounterRecord> {
    if cs == [] then map[] else CounterMap(cs[..|cs| - 1])[cs[|cs| - 1].url := cs[|cs| - 1]]
  }

  /** Each URL maps to the last record stored for it, and only stored URLs appear. */
  lemma {:induction false} CounterMapLastWins(cs: seq<FailCounters.CounterRecord>)
    ensures forall u :: u in CounterMap(cs) <==> exists i :: 0 <= i < |cs| && cs[i].url == u
    ensures forall u :: u in CounterMap(cs) ==>
      exists i :: (0 <= i < |cs| && CounterMap(cs)[u] == cs[i] && cs[i].url == u &&
        forall j :: i < j < |cs| ==> cs[j].url != u)
  {
    if cs != [] {
      var n := |cs| - 1;
      CounterMapLastWins(cs[..n]);
      forall u | u in CounterMap(cs)
        ensures exists i :: 0 <= i < |cs| && CounterMap(cs)[u] == cs[i] && cs[i].url == u && forall j :: i < j < |cs| ==> cs[j].url != u
      {
        if u != cs[n].url {
          assert CounterMap(cs) == CounterMap(cs[..n])[cs[n].url := cs[n]];
          assert u in CounterMap(cs[..n]) && CounterMap(cs)[u] == CounterMap(cs[..n])[u];
          var i :| 0 <= i < n && CounterMap(cs[..n])[u] == cs[..n][i] && cs[..n][i].url == u && forall j :: i < j < n ==> cs[..n][j].url != u;
          assert cs[i] == cs[..n][i];
          assert forall j :: i < j < |cs| ==> cs[j].url != u by {
            forall j | i < j < |cs| ensures cs[j].url != u {
              if j < n { assert cs[j] == cs[..n][j]; }
            }
          }
        }
      }
      forall u | exists i :: 0 <= i < |cs| && cs[i].url == u
        ensures u in CounterMap(cs)
      {
        var i :| 0 <= i < |cs| && cs[i].url == u;
        if i < n { assert cs[..n][i].url == u; }
      }
    }
  }

  function EnvOf(input: CycleInput, counters: map<Url, FailCounters.CounterRecord>, failLimit: nat): Env {
    Env(input.bot, counters, failLimit, input.formatEmbeds)
  }

  /** The feeds a cycle of schedule `name` folds in: its own feeds, in order, that are eligible. */
  function Admitted(input: CycleInput, name: string, failLimit: nat): seq<Feed>
    requires |input.schedules| == |input.feeds|
  {
    Accepted(Selected(input.feeds, input.schedules, name), EnvOf(input, CounterMap(input.counters), failLimit))
  }

  /** The permission call `_addToSourceLists` makes for `f`, if any. */
  function PermissionEffect(f: Feed, env: Env): seq<Effect> {
    var a := PermissionAction(f, env);
    if a == Permissions.NoAction then [] else [SetDisabled(f.id, a)]
  }

  /** The permission calls made while folding `feeds` in, in order. */
  function PermissionEffects(feeds: seq<Feed>, env: Env): seq<Effect> {
    if feeds == [] then [] else PermissionEffects(feeds[..|feeds| - 1], env) + PermissionEffect(feeds[|feeds| - 1], env)
  }

  lemma PermissionEffectsNext(feeds: seq<Feed>, f: Feed, env: Env)
    ensures PermissionEffects(feeds + [f], env) == PermissionEffects(feeds, env) + PermissionEffect(f, env)
  {
    assert (feeds + [f])[..|feeds|] == feeds;
  }

  /** The permission calls of a cycle of schedule `name`, over its own feeds. */
  function PermissionCalls(input: CycleInput, name: string, failLimit: nat): seq<Effect>
    requires |input.schedules| == |input.feeds|
  {
    PermissionEffects(Selected(input.feeds, input.schedules, name), EnvOf(input, CounterMap(input.counters), failLimit))
  }

  function CounterEffects(r: Report): seq<Effect> {
    match r
    case Failed(l) => [IncrementCounter(l, None)]
    case Succeeded(l) => [ResetCounter(l)]
    case _ => []
  }

  function TimeoutIncrements(links: seq<Url>): seq<Effect> {
    if links == [] then [] else TimeoutIncrements(links[..|links| - 1]) + [IncrementCounter(links[|links| - 1], Some(TIMEOUT_REASON))]
  }

  function Kills(procs: seq<ProcId>): seq<Effect> {
    if procs == [] then [] else Kills(procs[..|procs| - 1]) + [Kill(procs[|procs| - 1])]
  }

  /** Stuck-cycle recovery: a timeout increment per link whose pending count is not exactly 0, then a kill per processor. */
  function RecoveryEffects(t: PendingTable, procs: seq<ProcId>): seq<Effect>
    requires t.Valid()
  {
    TimeoutIncrements(Unresponded(t, t.keys)) + Kills(procs)
  }

  /** The fetches of one batch, one per link of `links` with its source list and settings. */
  function FetchEffects(batch: SourceMap, links: seq<Url>, runNum: nat): seq<Effect> {
    if links == [] then []
    else
      var n := |links| - 1;
      var l := links[n];
      FetchEffects(batch, links[..n], runNum) +
        (if l in batch.entries then [Fetch(l, batch.entries[l], UniqueSettings(batch.entries[l]), runNum)] else [])
  }

  /** `_finishCycle`: the completion notice, the statistics, and `finish` unless the cycle had no feeds. */
  function FinishEffects(refreshRate: int, feeds: nat, fails: nat, urls: nat, noFeeds: bool): seq<Effect> {
    [ScheduleComplete(refreshRate), SaveStats(feeds, fails, urls)] + (if noFeeds then [] else [EmitFinish])
  }

  function BatchOf(p: Pool, r: BatchRef): SourceMap
    requires RefOk(p, r)
  {
    ListOf(p, r.lane)[r.index]
  }

  predicate RefsOk(p: Pool, refs: seq<BatchRef>) {
    forall k :: 0 <= k < |refs| ==> RefOk(p, refs[k])
  }

  /** The slots of processors deployed for `refs`, numbered from `firstProc`. */
  function Deployed(p: Pool, poolId: nat, refs: seq<BatchRef>, hasCallback: bool, firstProc: ProcId): seq<Slot>
    requires RefsOk(p, refs)
  {
    seq(|refs|, k requires 0 <= k < |refs| => Slot(poolId, refs[k], |BatchOf(p, refs[k]).keys|, 0, hasCallback, firstProc + k))
  }

  /** The fork-and-send of each deployed processor. */
  function Forks(p: Pool, refs: seq<BatchRef>, firstProc: ProcId, headers: map<Url, HeaderEntry>, runNum: nat): seq<Effect>
    requires RefsOk(p, refs)
  {
    seq(|refs|, k requires 0 <= k < |refs| => Fork(firstProc + k, BatchOf(p, refs[k]), headers, runNum))
  }

  /** Deploying `refs + more` deploys `refs`, then `more` with the processor numbers that follow. */
  lemma DeployedAppend(p: Pool, poolId: nat, refs: seq<BatchRef>, more: seq<BatchRef>,
                        hasCallback: bool, firstProc: ProcId, headers: map<Url, HeaderEntry>, runNum: nat)
    requires RefsOk(p, refs) && RefsOk(p, more)
    ensures RefsOk(p, refs + more)
    ensures Deployed(p, poolId, refs + more, hasCallback, firstProc) ==
      Deployed(p, poolId, refs, hasCallback, firstProc) + Deployed(p, poolId, more, hasCallback, firstProc + |refs|)
    ensures Forks(p, refs + more, firstProc, headers, runNum) ==
      Forks(p, refs, firstProc, headers, runNum) + Forks(p, more, firstProc + |refs|, headers, runNum)
  {
    assert forall k :: |refs| <= k < |refs + more| ==> (refs + more)[k] == more[k - |refs|];
  }

  /** Deployment reads only a pool's lists. */
  lemma DeployedSameLists(p: Pool, cur: Pool, poolId: nat, refs: seq<BatchRef>, hasCallback: bool,
                           firstProc: ProcId, headers: map<Url, HeaderEntry>, runNum: nat)
    requires cur.regList == p.regList && cur.modList == p.modList && RefsOk(p, refs)
    ensures RefsOk(cur, refs)
    ensures Deployed(cur, poolId, refs, hasCallback, firstProc) == Deployed(p, poolId, refs, hasCallback, firstProc)
    ensures Forks(cur, refs, firstProc, headers, runNum) == Forks(p, refs, firstProc, headers, runNum)
  {
    assert forall lane: Lane :: ListOf(cur, lane) == ListOf(p, lane);
  }

  /** The part of a schedule's state that deploying processors changes. */
  datatype Deployment = Deployment(pools: seq<Pool>, slots: seq<Slot>, procs: seq<ProcId>, next: ProcId, effects: seq<Effect>)

  /**
   * `d` is `d0` after pool `poolId`, which was `p`, became `q` and the batches `refs` of
   * `p` were deployed with callbacks, in order, under consecutive processor numbers.
   */
  ghost predicate DeployedFrom(p: Pool, poolId: nat, q: Pool, refs: seq<BatchRef>, d0: Deployment, d: Deployment,
                               headers: map<Url, HeaderEntry>, runNum: nat)
  {
    && poolId < |d0.pools| && d0.pools[poolId] == p
    && RefsOk(p, refs) && q.regList == p.regList && q.modList == p.modList
    && d.pools == d0.pools[poolId := q]
    && d.slots == d0.slots + Deployed(p, poolId, refs, true, d0.next)
    && d.procs == d0.procs + Range(d0.next, d0.next + |refs|)
    && d.next == d0.next + |refs|
    && d.effects == d0.effects + Forks(p, refs, d0.next, headers, runNum)
  }

  /** `d` is `d0` after `spawn(count)` on pool `poolId`, which was `p`. */
  ghost predicate SpawnedFrom(p: Pool, poolId: nat, count: int, d0: Deployment, d: Deployment,
                              headers: map<Url, HeaderEntry>, runNum: nat)
  {
    DeployedFrom(p, poolId, Spawned(p, count).0, Spawned(p, count).1, d0, d, headers, runNum)
  }

  /** Two deployments in a row are one deployment of both lists of batches. */
  lemma DeployedCompose(p: Pool, poolId: nat, cur: Pool, refs: seq<BatchRef>, q: Pool, more: seq<BatchRef>,
                        d0: Deployment, d1: Deployment, d2: Deployment, headers: map<Url, HeaderEntry>, runNum: nat)
    requires DeployedFrom(p, poolId, cur, refs, d0, d1, headers, runNum)
    requires DeployedFrom(cur, poolId, q, more, d1, d2, headers, runNum)
    ensures DeployedFrom(p, poolId, q, refs + more, d0, d2, headers, runNum)
  {
    var n0, n1 := d0.next, d0.next + |refs|;
    DeployedSameLists(cur, p, poolId, more, true, n1, headers, runNum);
    DeployedAppend(p, poolId, refs, more, true, n0, headers, runNum);
    var s1, s2 := Deployed(p, poolId, refs, true, n0), Deployed(p, poolId, more, true, n1);
    Regroup(d0.slots, s1, s2);
    assert d2.slots == d0.slots + s1 + s2;
    var r1, r2 := Range(n0, n1), Range(n1, n1 + |more|);
    RangeAppend(n0, n1, n1 + |more|);
    Regroup(d0.procs, r1, r2);
    assert d2.procs == d0.procs + r1 + r2;
    var f1, f2 := Forks(p, refs, n0, headers, runNum), Forks(p, more, n1, headers, runNum);
    Regroup(d0.effects, f1, f2);
    assert d2.effects == d0.effects + f1 + f2;
    assert d0.pools[poolId := cur][poolId := q] == d0.pools[poolId := q];
  }

  /** A turn that deploys the batch `ref` of pool `poolId`, which was `p` and became `q`. */
  lemma DeployedOne(p: Pool, poolId: nat, q: Pool, ref: BatchRef, d0: Deployment, d: Deployment,
                    headers: map<Url, HeaderEntry>, runNum: nat)
    requires poolId < |d0.pools| && d0.pools[poolId] == p && RefOk(p, ref)
    requires q.regList == p.regList && q.modList == p.modList
    requires d.pools == d0.pools[poolId := q]
    requires d.slots == d0.slots + [Slot(poolId, ref, |BatchOf(q, ref).keys|, 0, true, d0.next)]
    requires d.procs == d0.procs + [d0.next] && d.next == d0.next + 1
    requires d.effects == d0.effects + [Fork(d0.next, BatchOf(q, ref), headers, runNum)]
    ensures DeployedFrom(p, poolId, q, [ref], d0, d, headers, runNum)
  {
    assert BatchOf(q, ref) == BatchOf(p, ref);
    assert Deployed(p, poolId, [ref], true, d0.next) == [Slot(poolId, ref, |BatchOf(p, ref).keys|, 0, true, d0.next)];
    assert Forks(p, [ref], d0.next, headers, runNum) == [Fork(d0.next, BatchOf(p, ref), headers, runNum)];
    assert Range(d0.next, d0.next + 1) == [d0.next];
  }

  /** A turn that finds the queue empty deploys nothing. */
  lemma DeployedNone(p: Pool, poolId: nat, q: Pool, d0: Deployment, d: Deployment, headers: map<Url, HeaderEntry>, runNum: nat)
    requires poolId < |d0.pools| && d0.pools[poolId] == p
    requires q.regList == p.regList && q.modList == p.modList
    requires d == d0.(pools := d0.pools[poolId := q])
    ensures DeployedFrom(p, poolId, q, [], d0, d, headers, runNum)
  {
    assert Deployed(p, poolId, [], true, d0.next) == [] && Forks(p, [], d0.next, headers, runNum) == [];
    assert d0.slots + [] == d0.slots && d0.procs + [] == d0.procs && d0.effects + [] == d0.effects;
  }

  /** `count` turns followed by one more are `count + 1` turns. */
  lemma SpawnedCompose(p: Pool, poolId: nat, count: nat, d0: Deployment, d1: Deployment, d2: Deployment,
                       headers: map<Url, HeaderEntry>, runNum: nat)
    requires SpawnedFrom(p, poolId, count, d0, d1, headers, runNum)
    requires SpawnedFrom(Spawned(p, count).0, poolId, 1, d1, d2, headers, runNum)
    ensures SpawnedFrom(p, poolId, count + 1, d0, d2, headers, runNum)
  {
    var (cur, refs) := Spawned(p, count);
    SpawnedSucc(p, count);
    DeployedCompose(p, poolId, cur, refs, Spawned(cur, 1).0, Spawned(cur, 1).1, d0, d1, d2, headers, runNum);
  }

  /** The pool and the batches `_getBatchParallel` starts: `spawn(width)`, or every batch without a callback. */
  function Started(p: Pool, width: int): (Pool, seq<BatchRef>) {
    if width > 0 then Spawned(p, width) else (p, Order(|p.regList|, |p.modList|))
  }

  lemma StartedOk(reg: seq<SourceMap>, mod: seq<SourceMap>, width: int)
    ensures PoolOk(Started(NewPool(reg, mod), width).0)
    ensures RefsOk(NewPool(reg, mod), Started(NewPool(reg, mod), width).1)
    ensures Started(NewPool(reg, mod), width).0.regList == reg && Started(NewPool(reg, mod), width).0.modList == mod
  {
    NewPoolQueue(reg, mod);
    if width > 0 {
      SpawnedTakesPrefix(NewPool(reg, mod), width);
    } else {
      OrderRefsOk(reg, mod);
    }
  }

  /** How `_genBatchLists` marks the links of one lane pending. */
  function Marked(t: PendingTable, links: seq<Url>, lane: Lane): (r: PendingTable)
    requires t.Valid()
    ensures r.Valid()
  {
    if lane == Regular then MarkRegular(t, links) else MarkAllModded(t, links)
  }

  /**
   * One batching loop of `_genBatchLists`: cut the lane's source map into batches and
   * mark each link pending, once (regular lane) or one more time (modded lane).
   */
  method CutBatches(m: SourceMap, size: int, t: PendingTable, lane: Lane) returns (bs: seq<SourceMap>, pending: PendingTable)
    requires m.Valid() && t.Valid()
    ensures bs == Batches(m, size)
    ensures pending == Marked(t, m.keys, lane)
  {
    var links := m.keys;
    var batch: SourceMap := Empty();
    bs := [];
    pending := t;
    var i := 0;
    while i < |links|
      invariant 0 <= i <= |links|
      invariant bs == Scan(links[..i], m.entries, size).done
      invariant batch == Scan(links[..i], m.entries, size).current
      invariant pending == Marked(t, links[..i], lane)
    {
      assert links[..i + 1][..i] == links[..i];
      var link := links[i];
      if |batch.keys| >= size {
        bs := bs + [batch];
        batch := Single(link, m.entries[link]);
      } else {
        batch := OMap(batch.keys + [link], batch.entries[link := m.entries[link]]);
      }
      if lane == Regular {
        pending := pending.Put(link, Count(1));
      } else {
        pending := MarkModded(pending, link);
      }
      i := i + 1;
    }
    assert links[..i] == links;
    if |batch.keys| > 0 {
      bs := bs + [batch];
    }
  }

  /** The timeout increments of stuck-cycle recovery: one per link whose pending count is not exactly 0. */
  method BlameUnresponded(t: PendingTable) returns (es: seq<Effect>)
    requires t.Valid()
    ensures es == TimeoutIncrements(Unresponded(t, t.keys))
  {
    var links := t.keys;
    es := [];
    var i := 0;
    while i < |links|
      invariant 0 <= i <= |links|
      invariant es == TimeoutIncrements(Unresponded(t, links[..i]))
    {
      assert links[..i + 1][..i] == links[..i];
      var blamed := Unresponded(t, links[..i]);
      if t.entries[links[i]] != Count(0) {
        assert Unresponded(t, links[..i + 1]) == blamed + [links[i]];
        assert (blamed + [links[i]])[..|blamed|] == blamed;
        es := es + [IncrementCounter(links[i], Some(TIMEOUT_REASON))];
      } else {
        assert Unresponded(t, links[..i + 1]) == blamed;
      }
      i := i + 1;
    }
    assert links[..i] == links;
  }

  /** The fetch loop of `_getBatch`: one fetch per link of the batch, with its source list and settings. */
  method FetchBatch(batch: SourceMap, runNum: nat) returns (es: seq<Effect>)
    ensures es == FetchEffects(batch, batch.keys, runNum)
  {
    var links := batch.keys;
    es := [];
    var i := 0;
    while i < |links|
      invariant 0 <= i <= |links|
      invariant es == FetchEffects(batch, links[..i], runNum)
    {
      assert links[..i + 1][..i] == links[..i];
      var link := links[i];
      if link in batch.entries {
        var rssList := batch.entries[link];
        es := es + [Fetch(link, rssList, UniqueSettings(rssList), runNum)];
      }
      i := i + 1;
    }
    assert links[..i] == links;
  }

  class FeedSchedule {
    const name: string
    const refreshRate: int
    const settings: Settings

    var sourceList: SourceMap
    var modSourceList: SourceMap
    var regBatchList: seq<SourceMap>
    var modBatchList: seq<SourceMap>
    var linksResponded: PendingTable
    var cycleFailCount: nat
    var cycleTotalCount: nat
    var processorList: seq<ProcId>
    var inProgress: bool
    var ran: nat
    var feedCount: nat
    var failCounters: map<Url, FailCounters.CounterRecord>
    var headers: map<Url, HeaderEntry>
    /** One per `_getBatch` call: the state its callback closes over. */
    var sessions: seq<OpenSession>
    /** The `_getBatch` calls waiting on their 200 ms timer. */
    var timers: seq<PendingCall>
    /** One per `_getBatchParallel` call: the state its closures share. */
    var pools: seq<LivePool>
    /** One per deployed processor: the state its message handler closes over. */
    var slots: seq<Slot>
    var nextProc: ProcId
    var effects: seq<Effect>

    /** The source maps and the pending table are well formed, and every slot names an existing pool. */
    ghost predicate Valid()
      reads this
    {
      sourceList.Valid() && modSourceList.Valid() && linksResponded.Valid() && SlotsOk(slots, |pools|)
    }

    /** A schedule before its first cycle. */
    ghost predicate Initial()
      reads this
    {
      && sourceList == Empty() && modSourceList == Empty()
      && regBatchList == [] && modBatchList == [] && linksResponded == Empty()
      && cycleFailCount == 0 && cycleTotalCount == 0 && processorList == []
      && !inProgress && ran == 0 && feedCount == 0 && failCounters == map[] && headers == map[]
      && sessions == [] && timers == [] && pools == [] && slots == [] && effects == []
    }

    constructor (name: string, refreshRate: int, settings: Settings)
      ensures this.name == name && this.refreshRate == refreshRate && this.settings == settings
      ensures Valid() && Initial()
    {
      this.name := name;
      this.refreshRate := refreshRate;
      this.settings := settings;
      sourceList := Empty();
      modSourceList := Empty();
      regBatchList := [];
      modBatchList := [];
      linksResponded := Empty();
      cycleFailCount := 0;
      cycleTotalCount := 0;
      processorList := [];
      inProgress := false;
      ran := 0;
      feedCount := 0;
      failCounters := map[];
      headers := map[];
      sessions := [];
      timers := [];
      pools := [];
      slots := [];
      nextProc := 0;
      effects := [];
    }

    /**
     * Construction refuses a refresh rate of 0, and a schedule that is neither the
     * default nor the supporter schedule yet has no keywords and no feed names.
     */
    static method Create(name: string, refreshRate: int, keywords: seq<string>, feedNames: seq<string>,
                         supporterSchedule: string, settings: Settings) returns (r: Result<FeedSchedule, string>)
      ensures r.Failure? <==>
        refreshRate == 0 || (name != DEFAULT_SCHEDULE && name != supporterSchedule && |keywords| == 0 && |feedNames| == 0)
      ensures r.Failure? && refreshRate == 0 ==> r.error == NO_REFRESH_RATE
      ensures r.Failure? && refreshRate != 0 ==> r.error == EmptyScheduleError(name)
      ensures r.Success? ==>
        (fresh(r.value) && r.value.Valid() && r.value.Initial() &&
         r.value.name == name && r.value.refreshRate == refreshRate && r.value.settings == settings)
    {
      if refreshRate == 0 {
        return Failure(NO_REFRESH_RATE);
      }
      if name != DEFAULT_SCHEDULE && name != supporterSchedule && |keywords| == 0 && |feedNames| == 0 {
        return Failure(EmptyScheduleError(name));
      }
      var s := new FeedSchedule(name, refreshRate, settings);
      return Success(s);
    }

    // ------------------------------------------------------------ aggregation

    /** `_delegateFeed`: file the feed under its URL and id. */
    method DelegateFeed(feed: Feed)
      requires sourceList.Valid()
      modifies this`sourceList
      ensures sourceList == Delegate(old(sourceList), feed)
    {
      if feed.url in sourceList.entries {
        var linkList := sourceList.entries[feed.url];
        sourceList := sourceList.Put(feed.url, linkList.Put(feed.id, feed));
      } else {
        sourceList := sourceList.Put(feed.url, Single(feed.id, feed));
      }
    }

    /**
     * `_addToSourceLists`: delegate the feed and answer true exactly when it is eligible;
     * the permission check's disable or enable call is recorded.
     */
    method AddToSourceLists(feed: Feed, env: Env) returns (added: bool)
      requires sourceList.Valid()
      modifies this`sourceList, this`effects
      ensures added == Eligible(feed, env)
      ensures sourceList == if added then Delegate(old(sourceList), feed) else old(sourceList)
      ensures effects == old(effects) + PermissionEffect(feed, env)
    {
      if feed.guild !in env.bot.guilds || feed.channel !in env.bot.channels {
        return false;
      }
      if CounterTripped(env, feed.url) {
        return false;
      }
      var decision := Permissions.CheckPermissions(feed.disabled, env.bot.channels[feed.channel], FormatEmbeds(env, feed.id));
      if decision.action != Permissions.NoAction {
        effects := effects + [SetDisabled(feed.id, decision.action)];
      }
      if decision.disabled {
        return false;
      }
      DelegateFeed(feed);
      return true;
    }

    // -------------------------------------------------------------- batching

    /**
     * `_genBatchLists`: cut each source map into batches, pushing a batch once it is
     * full, and mark every link as pending (modded links as intended, see `MarkModded`).
     */
    method GenBatchLists()
      requires sourceList.Valid() && modSourceList.Valid() && linksResponded.Valid()
      modifies this`regBatchList, this`modBatchList, this`linksResponded
      ensures regBatchList == old(regBatchList) + Batches(sourceList, settings.batchSize)
      ensures modBatchList == old(modBatchList) + Batches(modSourceList, settings.batchSize)
      ensures linksResponded == MarkAllModded(MarkRegular(old(linksResponded), sourceList.keys), modSourceList.keys)
      ensures linksResponded.Valid()
    {
      var regBatches, regMarked := CutBatches(sourceList, settings.batchSize, linksResponded, Regular);
      regBatchList := regBatchList + regBatches;
      var modBatches, marked := CutBatches(modSourceList, settings.batchSize, regMarked, Modded);
      modBatchList := modBatchList + modBatches;
      linksResponded := marked;
    }

    // ----------------------------------------------------------------- run

    /**
     * The start of `run`: a cycle still in progress is abandoned. Without isolated
     * processors only the flag is cleared; with them every link not exactly at 0
     * pending gets a timeout increment and every processor is killed.
     */
    method Recover()
      requires Valid()
      modifies this`inProgress, this`processorList, this`effects
      ensures Valid()
      ensures inProgress == (old(inProgress) && settings.forkBatches)
      ensures processorList == if old(inProgress) && settings.forkBatches then [] else old(processorList)
      ensures effects == old(effects) +
        (if old(inProgress) && settings.forkBatches then RecoveryEffects(linksResponded, old(processorList)) else [])
    {
      if inProgress {
        if !settings.forkBatches {
          inProgress := false;
        } else {
          ghost var e0, procs := effects, processorList;
          var blamed := BlameUnresponded(linksResponded);
          effects := effects + blamed;
          KillChildren();
          assert effects == e0 + blamed + Kills(procs);
          Regroup(e0, blamed, Kills(procs));
        }
      }
    }

    /** The reset at the start of a cycle's preparation. */
    method ResetCycle()
      modifies this`regBatchList, this`modBatchList, this`cycleFailCount, this`cycleTotalCount
      modifies this`linksResponded, this`modSourceList
      ensures regBatchList == [] && modBatchList == [] && cycleFailCount == 0 && cycleTotalCount == 0
      ensures linksResponded == Empty() && modSourceList == Empty()
    {
      regBatchList := [];
      modBatchList := [];
      cycleFailCount := 0;
      cycleTotalCount := 0;
      linksResponded := Empty();
      modSourceList := Empty();
    }

    /**
     * The feed loop of `run`: fold in every eligible feed of this schedule and count
     * them, recording the permission calls made on the way.
     */
    method FoldFeeds(feeds: seq<Feed>, schedules: seq<string>, env: Env) returns (count: nat)
      requires |schedules| == |feeds|
      modifies this`sourceList, this`effects
      ensures sourceList == Aggregate(Accepted(Selected(feeds, schedules, name), env))
      ensures count == |Accepted(Selected(feeds, schedules, name), env)|
      ensures effects == old(effects) + PermissionEffects(Selected(feeds, schedules, name), env)
    {
      sourceList := Empty();
      count := 0;
      var i := 0;
      while i < |feeds|
        invariant 0 <= i <= |feeds|
        invariant sourceList == Aggregate(Accepted(Selected(feeds[..i], schedules[..i], name), env))
        invariant count == |Accepted(Selected(feeds[..i], schedules[..i], name), env)|
        invariant effects == old(effects) + PermissionEffects(Selected(feeds[..i], schedules[..i], name), env)
      {
        ghost var selected := Selected(feeds[..i], schedules[..i], name);
        SelectedNext(feeds, schedules, name, i);
        if schedules[i] == name {
          count := FoldOne(feeds[i], selected, env, count);
          PermissionEffectsNext(selected, feeds[i], env);
          Regroup(old(effects), PermissionEffects(selected, env), PermissionEffect(feeds[i], env));
        } else {
          assert selected + [] == selected;
        }
        i := i + 1;
      }
      assert feeds[..i] == feeds && schedules[..i] == schedules;
    }

    /** One feed of this schedule through `_addToSourceLists`, counted when it is added. */
    method FoldOne(f: Feed, ghost done: seq<Feed>, env: Env, count: nat) returns (count': nat)
      requires sourceList == Aggregate(Accepted(done, env)) && count == |Accepted(done, env)|
      modifies this`sourceList, this`effects
      ensures sourceList == Aggregate(Accepted(done + [f], env)) && count' == |Accepted(done + [f], env)|
      ensures effects == old(effects) + PermissionEffect(f, env)
    {
      var added := AddToSourceLists(f, env);
      AcceptedNext(done, f, env);
      if added {
        AggregateNext(Accepted(done, env), f);
        count' := count + 1;
      } else {
        assert Accepted(done, env) + [] == Accepted(done, env);
        count' := count;
      }
    }

    /**
     * The middle of `run`: store the counters, reset the cycle's state, fold in every
     * feed of this schedule that is eligible (feeds of other schedules are skipped),
     * and mark the cycle in progress.
     */
    method Prepare(input: CycleInput)
      requires Valid() && |input.schedules| == |input.feeds|
      modifies this`failCounters, this`regBatchList, this`modBatchList, this`cycleFailCount, this`cycleTotalCount
      modifies this`linksResponded, this`modSourceList, this`sourceList, this`inProgress, this`feedCount, this`effects
      ensures Valid()
      ensures failCounters == CounterMap(input.counters)
      ensures effects == old(effects) + PermissionCalls(input, name, settings.failLimit)
      ensures sourceList == Aggregate(Admitted(input, name, settings.failLimit))
      ensures feedCount == |Admitted(input, name, settings.failLimit)|
      ensures modSourceList == Empty() && modBatchList == [] && regBatchList == [] && linksResponded == Empty()
      ensures cycleFailCount == 0 && cycleTotalCount == 0 && inProgress
    {
      var counters := CounterMap(input.counters);
      failCounters := counters;
      ResetCycle();
      var count := FoldFeeds(input.feeds, input.schedules, EnvOf(input, counters, settings.failLimit));
      inProgress := true;
      feedCount := count;
    }

    /** The end of `run`: a cycle with no sources finishes at once; otherwise the batches are dispatched. */
    method Launch()
      requires Valid()
      requires regBatchList == Batches(sourceList, settings.batchSize)
      requires modBatchList == Batches(modSourceList, settings.batchSize)
      modifies this`inProgress, this`ran, this`effects, this`sessions, this`pools, this`slots, this`processorList, this`nextProc
      ensures Valid()
      ensures |sourceList.keys| + |modSourceList.keys| == 0 ==>
        && !inProgress && ran == old(ran) + 1
        && effects == old(effects) + FinishEffects(refreshRate, feedCount, cycleFailCount, cycleTotalCount, true)
        && sessions == old(sessions) && pools == old(pools) && slots == old(slots)
        && processorList == old(processorList) && nextProc == old(nextProc)
      ensures |sourceList.keys| + |modSourceList.keys| > 0 ==> inProgress == old(inProgress) && ran == old(ran)
      ensures |sourceList.keys| + |modSourceList.keys| > 0 && !settings.forkBatches ==>
        && CallOk(BatchCall(0, regBatchList, Regular), modBatchList)
        && sessions == old(sessions) + [Open(BatchCall(0, regBatchList, Regular), modBatchList)]
        && effects == old(effects) + SessionFetches(Open(BatchCall(0, regBatchList, Regular), modBatchList), ran)
        && pools == old(pools) && slots == old(slots) && processorList == old(processorList) && nextProc == old(nextProc)
      ensures |sourceList.keys| + |modSourceList.keys| > 0 && settings.forkBatches ==>
        && sessions == old(sessions)
        && ParallelStarted(old(View()), View())
    {
      BatchesExist(sourceList, settings.batchSize);
      BatchesExist(modSourceList, settings.batchSize);
      if |sourceList.keys| + |modSourceList.keys| == 0 {
        inProgress := false;
        FinishCycle(true);
      } else if settings.forkBatches {
        GetBatchParallel();
      } else {
        GetBatch(BatchCall(0, regBatchList, Regular));
      }
    }

    /**
     * The end of `run` after the feed loop: cut the source maps into batches, then
     * finish at once (no sources) or dispatch the batches.
     */
    method StartBatches()
      requires Valid()
      requires modSourceList == Empty() && regBatchList == [] && modBatchList == [] && linksResponded == Empty()
      modifies this`regBatchList, this`modBatchList, this`linksResponded, this`inProgress, this`ran, this`effects
      modifies this`sessions, this`pools, this`slots, this`processorList, this`nextProc
      ensures Valid()
      ensures regBatchList == Batches(sourceList, settings.batchSize) && modBatchList == []
      ensures linksResponded == MarkRegular(Empty(), sourceList.keys)
      ensures |sourceList.keys| == 0 ==>
        && !inProgress && ran == old(ran) + 1
        && effects == old(effects) + FinishEffects(refreshRate, feedCount, cycleFailCount, cycleTotalCount, true)
        && sessions == old(sessions) && View() == old(View()).(effects := effects)
      ensures |sourceList.keys| > 0 ==> inProgress == old(inProgress) && ran == old(ran)
      ensures |sourceList.keys| > 0 && !settings.forkBatches ==>
        && sessions == old(sessions) + [Open(BatchCall(0, regBatchList, Regular), [])]
        && effects == old(effects) + SessionFetches(Open(BatchCall(0, regBatchList, Regular), []), ran)
        && View() == old(View()).(effects := effects)
      ensures |sourceList.keys| > 0 && settings.forkBatches ==>
        sessions == old(sessions) && ParallelStarted(old(View()), View())
    {
      GenBatchLists();
      BatchesExist(modSourceList, settings.batchSize);
      assert Batches(modSourceList, settings.batchSize) == [];
      assert regBatchList == Batches(sourceList, settings.batchSize);
      Launch();
    }

    /**
     * `run`: recover from an unfinished cycle, fold in the feeds, then batch and
     * dispatch. Feeds assigned to other schedules are skipped (the loop as written
     * stops at the first of them, see `SelectedAsWritten`).
     */
    method Run(input: CycleInput)
      requires Valid() && |input.schedules| == |input.feeds|
      modifies this
      ensures Valid()
      ensures failCounters == CounterMap(input.counters)
      ensures sourceList == Aggregate(Admitted(input, name, settings.failLimit))
      ensures feedCount == |Admitted(input, name, settings.failLimit)|
      ensures regBatchList == Batches(sourceList, settings.batchSize) && modBatchList == []
      ensures modSourceList == Empty() && linksResponded == MarkRegular(Empty(), sourceList.keys)
      ensures cycleFailCount == 0 && cycleTotalCount == 0
      ensures inProgress <==> |sourceList.keys| > 0
      ensures ran == old(ran) + (if |sourceList.keys| == 0 then 1 else 0)
      ensures var recovering := old(inProgress) && settings.forkBatches;
        var recovered := old(effects) + (if recovering then RecoveryEffects(old(linksResponded), old(processorList)) else []) +
          PermissionCalls(input, name, settings.failLimit);
        var before := old(View()).(procs := if recovering then [] else old(processorList), effects := recovered);
        && (|sourceList.keys| == 0 ==>
              && effects == recovered + FinishEffects(refreshRate, feedCount, 0, 0, true)
              && sessions == old(sessions) && View() == before.(effects := effects))
        && (|sourceList.keys| > 0 && !settings.forkBatches ==>
              && sessions == old(sessions) + [Open(BatchCall(0, regBatchList, Regular), [])]
              && effects == recovered + SessionFetches(Open(BatchCall(0, regBatchList, Regular), []), ran)
              && View() == before.(effects := effects))
        && (|sourceList.keys| > 0 && settings.forkBatches ==>
              sessions == old(sessions) && ParallelStarted(before, View()))
    {
      Recover();
      Prepare(input);
      StartBatches();
    }

    // ------------------------------------------------------ sequential batches

    /** The fetches a session's batch issues. */
    function SessionFetches(s: Session, runNum: nat): seq<Effect>
      requires SessionOk(s)
    {
      FetchEffects(s.batchList[s.batchNumber], s.batchList[s.batchNumber].keys, runNum)
    }

    /**
     * `_getBatch`: open a session for the batch (an empty list is redirected to the first
     * modded batch) and fetch each of its links with the URL's settings.
     */
    method GetBatch(call: BatchCall)
      requires Valid() && CallOk(call, modBatchList)
      modifies this`sessions, this`effects
      ensures Valid()
      ensures sessions == old(sessions) + [Open(call, modBatchList)]
      ensures effects == old(effects) + SessionFetches(Open(call, modBatchList), ran)
      decreases if |call.batchList| == 0 then 1 else 0
    {
      if |call.batchList| == 0 {
        assert Open(call, modBatchList) == Open(BatchCall(0, modBatchList, Modded), modBatchList);
        GetBatch(BatchCall(0, modBatchList, Modded));
        return;
      }
      var batch := call.batchList[call.batchNumber];
      assert Open(call, modBatchList) == Session(call.batchList, call.lane, call.batchNumber, |batch.keys|, 0);
      sessions := sessions + [Session(call.batchList, call.lane, call.batchNumber, |batch.keys|, 0)];
      var fetches := FetchBatch(batch, ran);
      effects := effects + fetches;
    }

    /** A pending 200 ms timer fires and runs its `_getBatch` call. */
    method FireTimer(k: nat)
      requires Valid() && k < |timers|
      modifies this`timers, this`sessions, this`effects
      ensures Valid()
      ensures timers == old(timers[..k] + timers[k + 1..])
      ensures sessions == old(sessions) + [Open(old(timers[k]), modBatchList)]
      ensures effects == old(effects) + SessionFetches(Open(old(timers[k]), modBatchList), ran)
    {
      var call := timers[k];
      timers := timers[..k] + timers[k + 1..];
      GetBatch(call);
    }

    /**
     * One finished link, as both handlers count it: a failure raises the cycle's fail
     * count and increments the URL's counter, a success resets it; the total count
     * rises and the link's pending count falls.
     */
    method RecordOutcome(r: Report)
      requires linksResponded.Valid()
      modifies this`cycleFailCount, this`cycleTotalCount, this`linksResponded, this`effects
      ensures linksResponded.Valid()
      ensures cycleFailCount == old(cycleFailCount) + (if r.Failed? then 1 else 0)
      ensures cycleTotalCount == old(cycleTotalCount) + 1
      ensures linksResponded == Decrement(old(linksResponded), LinkKey(r))
      ensures effects == old(effects) + CounterEffects(r)
    {
      if r.Failed? {
        cycleFailCount := cycleFailCount + 1;
        effects := effects + [IncrementCounter(r.link, None)];
      } else if r.Succeeded? {
        effects := effects + [ResetCounter(r.link)];
      }
      cycleTotalCount := cycleTotalCount + 1;
      linksResponded := Decrement(linksResponded, LinkKey(r));
    }

    /**
     * A report to session `i`'s callback. An article is emitted and changes no counter;
     * anything else is one finished link (see `CountFinishedLink`).
     */
    method OnLinkCompletion(i: nat, r: Report)
      requires Valid() && i < |sessions|
      modifies this`sessions, this`effects, this`cycleFailCount, this`cycleTotalCount, this`linksResponded
      modifies this`timers, this`inProgress, this`ran
      ensures Valid()
      ensures r.ArticleFound? ==>
        && effects == old(effects) + [EmitArticle(r.article)]
        && sessions == old(sessions) && cycleFailCount == old(cycleFailCount) && cycleTotalCount == old(cycleTotalCount)
        && linksResponded == old(linksResponded) && timers == old(timers) && inProgress == old(inProgress) && ran == old(ran)
      ensures !r.ArticleFound? ==>
        var s := old(sessions[i]).(completed := old(sessions[i]).completed + 1);
        var next := AfterLink(s, modBatchList);
        && sessions == old(sessions)[i := s]
        && cycleFailCount == old(cycleFailCount) + (if r.Failed? then 1 else 0)
        && cycleTotalCount == old(cycleTotalCount) + 1
        && linksResponded == Decrement(old(linksResponded), LinkKey(r))
        && timers == old(timers) + (if next.Timer? then [next.call] else [])
        && ran == old(ran) + (if next == EndCycle then 1 else 0)
        && inProgress == (if next == EndCycle && processorList == [] then false else old(inProgress))
        && effects == old(effects) + CounterEffects(r) +
             (if next == EndCycle then FinishEffects(refreshRate, feedCount, cycleFailCount, cycleTotalCount, false) else [])
    {
      if r.ArticleFound? {
        effects := effects + [EmitArticle(r.article)];
      } else {
        CountFinishedLink(i, r);
      }
    }

    /**
     * The callback's count of one finished link; once the whole batch has reported it
     * sets a timer for the next batch or finishes the cycle.
     */
    method CountFinishedLink(i: nat, r: Report)
      requires Valid() && i < |sessions|
      modifies this`sessions, this`effects, this`cycleFailCount, this`cycleTotalCount, this`linksResponded
      modifies this`timers, this`inProgress, this`ran
      ensures Valid()
      ensures var s := old(sessions[i]).(completed := old(sessions[i]).completed + 1);
        var next := AfterLink(s, modBatchList);
        && sessions == old(sessions)[i := s]
        && cycleFailCount == old(cycleFailCount) + (if r.Failed? then 1 else 0)
        && cycleTotalCount == old(cycleTotalCount) + 1
        && linksResponded == Decrement(old(linksResponded), LinkKey(r))
        && timers == old(timers) + (if next.Timer? then [next.call] else [])
        && ran == old(ran) + (if next == EndCycle then 1 else 0)
        && inProgress == (if next == EndCycle && processorList == [] then false else old(inProgress))
        && effects == old(effects) + CounterEffects(r) +
             (if next == EndCycle then FinishEffects(refreshRate, feedCount, cycleFailCount, cycleTotalCount, false) else [])
    {
      RecordOutcome(r);
      var s := sessions[i].(completed := sessions[i].completed + 1);
      sessions := sessions[i := s];
      var next := AfterLink(s, modBatchList);
      if next.Timer? {
        timers := timers + [next.call];
      } else if next == EndCycle {
        FinishCycle(false);
      }
    }

    // ------------------------------------------------------------ bounded pool

    /** The state `_getBatchParallel` leaves, from the state before it. */
    ghost predicate ParallelStarted(d0: Deployment, d: Deployment)
      reads this`regBatchList, this`modBatchList, this`headers, this`ran
    {
      var p := NewPool(regBatchList, modBatchList);
      var (q, refs) := Started(p, settings.parallelBatches);
      && RefsOk(p, refs)
      && d.pools == d0.pools + [q]
      && d.slots == d0.slots + Deployed(p, |d0.pools|, refs, settings.parallelBatches > 0, d0.next)
      && d.procs == d0.procs + Range(d0.next, d0.next + |refs|)
      && d.next == d0.next + |refs|
      && d.effects == d0.effects + Forks(p, refs, d0.next, headers, ran)
    }

    /**
     * `_getBatchParallel`: a new pool over both lists. With a positive width it spawns
     * that many turns, each with a callback; otherwise it deploys every batch, regular
     * ones first, without callbacks.
     */
    method GetBatchParallel()
      requires Valid()
      modifies this`pools, this`slots, this`processorList, this`nextProc, this`effects
      ensures Valid()
      ensures ParallelStarted(old(View()), View())
    {
      var p := NewPool(regBatchList, modBatchList);
      NewPoolQueue(regBatchList, modBatchList);
      StartedOk(regBatchList, modBatchList, settings.parallelBatches);
      var poolId := |pools|;
      pools := pools + [p];
      if settings.parallelBatches > 0 {
        Spawn(poolId, settings.parallelBatches);
        assert (old(pools) + [p])[poolId := Spawned(p, settings.parallelBatches).0] == old(pools) + [Spawned(p, settings.parallelBatches).0];
      } else {
        OrderRefsOk(regBatchList, modBatchList);
        DeployAll(poolId, Order(|regBatchList|, |modBatchList|));
      }
    }

    /** The two loops of `_getBatchParallel` without a positive width: deploy each batch of `order` without a callback. */
    method DeployAll(poolId: nat, order: seq<BatchRef>)
      requires Valid() && poolId < |pools| && RefsOk(pools[poolId], order)
      modifies this`slots, this`processorList, this`nextProc, this`effects
      ensures Valid()
      ensures slots == old(slots) + Deployed(pools[poolId], poolId, order, false, old(nextProc))
      ensures processorList == old(processorList) + Range(old(nextProc), old(nextProc) + |order|)
      ensures nextProc == old(nextProc) + |order|
      ensures effects == old(effects) + Forks(pools[poolId], order, old(nextProc), headers, ran)
    {
      var k := 0;
      while k < |order|
        invariant 0 <= k <= |order|
        invariant Valid()
        invariant slots == old(slots) + Deployed(pools[poolId], poolId, order[..k], false, old(nextProc))
        invariant processorList == old(processorList) + Range(old(nextProc), old(nextProc) + k)
        invariant nextProc == old(nextProc) + k
        invariant effects == old(effects) + Forks(pools[poolId], order[..k], old(nextProc), headers, ran)
      {
        assert order[..k + 1][..k] == order[..k];
        Deploy(poolId, order[k], false);
        RangeAppend(old(nextProc), old(nextProc) + k, old(nextProc) + k + 1);
        k := k + 1;
      }
      assert order[..k] == order;
    }

    /** `deployProcessor`: fork a processor for one batch of the pool and send it the batch and the header cache. */
    method Deploy(poolId: nat, ref: BatchRef, hasCallback: bool)
      requires Valid() && poolId < |pools| && RefOk(pools[poolId], ref)
      modifies this`slots, this`processorList, this`nextProc, this`effects
      ensures Valid()
      ensures slots == old(slots) + [Slot(poolId, ref, |BatchOf(pools[poolId], ref).keys|, 0, hasCallback, old(nextProc))]
      ensures processorList == old(processorList) + [old(nextProc)]
      ensures nextProc == old(nextProc) + 1
      ensures effects == old(effects) + [Fork(old(nextProc), BatchOf(pools[poolId], ref), headers, ran)]
    {
      var batch := BatchOf(pools[poolId], ref);
      var proc := nextProc;
      nextProc := nextProc + 1;
      processorList := processorList + [proc];
      slots := slots + [Slot(poolId, ref, |batch.keys|, 0, hasCallback, proc)];
      effects := effects + [Fork(proc, batch, headers, ran)];
    }

    /** The part of the state that deploying processors changes. */
    ghost function View(): Deployment
      reads this`pools, this`slots, this`processorList, this`nextProc, this`effects
    {
      Deployment(pools, slots, processorList, nextProc, effects)
    }

    /** One turn of `spawn`'s loop: count a batch as started and deploy the next queued one, if any, with a callback. */
    method Turn(poolId: nat)
      requires Valid() && poolId < |pools|
      modifies this`pools, this`slots, this`processorList, this`nextProc, this`effects
      ensures Valid()
      ensures SpawnedFrom(old(pools[poolId]), poolId, 1, old(View()), View(), headers, ran)
    {
      ghost var d0 := View();
      var p := pools[poolId];
      var (q, taken) := SpawnOne(p);
      SpawnOneIsFirstTurn(p);
      SpawnedTakesPrefix(p, 1);
      pools := pools[poolId := q];
      if taken.Some? {
        Deploy(poolId, taken.value, true);
        DeployedOne(p, poolId, q, taken.value, d0, View(), headers, ran);
      } else {
        DeployedNone(p, poolId, q, d0, View(), headers, ran);
      }
    }

    /** One more turn of the spawning loop keeps `SpawnedFrom` one step further. */
    method SpawnStep(poolId: nat, ghost p: Pool, ghost q: nat, ghost d0: Deployment)
      requires Valid() && poolId < |pools|
      requires SpawnedFrom(p, poolId, q, d0, View(), headers, ran)
      modifies this`pools, this`slots, this`processorList, this`nextProc, this`effects
      ensures Valid() && poolId < |pools|
      ensures SpawnedFrom(p, poolId, q + 1, d0, View(), headers, ran)
    {
      ghost var d1 := View();
      Turn(poolId);
      SpawnedCompose(p, poolId, q, d0, d1, View(), headers, ran);
    }

    /** `spawn(count)`: `count` turns of the pool. */
    method Spawn(poolId: nat, count: int)
      requires Valid() && poolId < |pools|
      modifies this`pools, this`slots, this`processorList, this`nextProc, this`effects
      ensures Valid()
      ensures SpawnedFrom(old(pools[poolId]), poolId, count, old(View()), View(), headers, ran)
    {
      var p := pools[poolId];
      var q := 0;
      SpawnedNone(p, 0);
      UpdateSame(View().pools, poolId);
      DeployedNone(p, poolId, p, View(), View(), headers, ran);
      assert old(View()) == View();
      assert SpawnedFrom(p, poolId, q, old(View()), View(), headers, ran);
      while q < count
        invariant 0 <= q <= (if count > 0 then count else 0)
        invariant Valid() && poolId < |pools|
        invariant SpawnedFrom(p, poolId, q, old(View()), View(), headers, ran)
      {
        SpawnStep(poolId, p, q, old(View()));
        q := q + 1;
      }
      if count <= 0 {
        SpawnedNone(p, count);
        assert q == 0;
      } else {
        assert q == count;
      }
    }

    /**
     * A report to processor slot `i`'s handler. Headers are cached; an article is
     * emitted; the handshake starts one more batch while fewer than the total have been
     * started (and is otherwise ignored, see `ParallelHandlingAsWritten`); a terminal
     * report is one finished link (see `CountProcessorLink`).
     */
    method OnProcessorMessage(i: nat, r: Report)
      requires Valid() && i < |slots|
      modifies this`headers, this`effects, this`pools, this`slots, this`processorList, this`nextProc
      modifies this`cycleFailCount, this`cycleTotalCount, this`linksResponded, this`inProgress, this`ran
      ensures Valid()
      ensures ParallelHandling(r, old(slots[i]).hasCallback) != CountLink ==>
        && cycleFailCount == old(cycleFailCount) && cycleTotalCount == old(cycleTotalCount)
        && linksResponded == old(linksResponded) && inProgress == old(inProgress) && ran == old(ran)
        && OnSignalDone(old(slots[i]), r, old(headers), old(View()))
      ensures var slot := old(slots[i]);
        var p := old(pools[slot.pool]);
        var done := slot.completed + 1 == slot.size;
        var finish := done && p.completedBatches + 1 == p.total;
        ParallelHandling(r, slot.hasCallback) == CountLink ==>
          && headers == old(headers) && nextProc == old(nextProc)
          && slots == old(slots)[i := slot.(completed := slot.completed + 1)]
          && cycleFailCount == old(cycleFailCount) + (if r.Failed? then 1 else 0)
          && cycleTotalCount == old(cycleTotalCount) + 1
          && linksResponded == Decrement(old(linksResponded), LinkKey(r))
          && pools == (if done then old(pools)[slot.pool := p.(completedBatches := p.completedBatches + 1)] else old(pools))
          && processorList == (if finish then [] else old(processorList))
          && inProgress == (if finish then false else old(inProgress))
          && ran == old(ran) + (if finish then 1 else 0)
          && effects == old(effects) + CounterEffects(r) + (if done then [Kill(slot.proc)] else []) +
               (if finish then FinishEffects(refreshRate, feedCount, cycleFailCount, cycleTotalCount, false) else [])
    {
      if Terminal(r) {
        CountProcessorLink(i, r);
      } else {
        OnSignal(i, r);
      }
    }

    /** The new state after a non-terminal report to `slot`'s handler, from the state before it. */
    ghost predicate OnSignalDone(slot: Slot, r: Report, headers0: map<Url, HeaderEntry>, d0: Deployment)
      requires slot.pool < |d0.pools|
      reads this`headers, this`ran, this`pools, this`slots, this`processorList, this`nextProc, this`effects
    {
      var p := d0.pools[slot.pool];
      match ParallelHandling(r, slot.hasCallback)
      case StoreHeaders => headers == headers0[r.link := HeaderEntry(r.lastModified, r.etag)] && View() == d0
      case Emit => headers == headers0 && View() == d0.(effects := d0.effects + [EmitArticle(r.article)])
      case Ignore => headers == headers0 && View() == d0
      case CallBack =>
        && headers == headers0
        && (p.willComplete < p.total ==> SpawnedFrom(p, slot.pool, 1, d0, View(), headers, ran))
        && (p.willComplete >= p.total ==> View() == d0)
      case CountLink => true
    }

    /** A report that is not a link's outcome: headers, an article, or the handshake. */
    method OnSignal(i: nat, r: Report)
      requires Valid() && i < |slots| && !Terminal(r)
      modifies this`headers, this`effects, this`pools, this`slots, this`processorList, this`nextProc
      ensures Valid()
      ensures OnSignalDone(old(slots[i]), r, old(headers), old(View()))
    {
      var slot := slots[i];
      match r {
        case HeadersSeen(link, lastModified, etag) =>
          headers := headers[link := HeaderEntry(lastModified, etag)];
        case ArticleFound(article) =>
          effects := effects + [EmitArticle(article)];
        case BatchConnected =>
          if slot.hasCallback {
            Handshake(slot.pool);
          }
      }
    }

    /** The callback of a processor deployed by `spawn`, run on its handshake: one more turn while batches remain unstarted. */
    method Handshake(poolId: nat)
      requires Valid() && poolId < |pools|
      modifies this`pools, this`slots, this`processorList, this`nextProc, this`effects
      ensures Valid()
      ensures var p := old(pools[poolId]);
        && (p.willComplete < p.total ==> SpawnedFrom(p, poolId, 1, old(View()), View(), headers, ran))
        && (p.willComplete >= p.total ==> View() == old(View()))
    {
      if pools[poolId].willComplete < pools[poolId].total {
        Spawn(poolId, 1);
      }
    }

    /** A terminal report to slot `i`: one finished link; the batch's last one completes the batch. */
    method CountProcessorLink(i: nat, r: Report)
      requires Valid() && i < |slots|
      modifies this`effects, this`pools, this`slots, this`processorList
      modifies this`cycleFailCount, this`cycleTotalCount, this`linksResponded, this`inProgress, this`ran
      ensures Valid()
      ensures var slot := old(slots[i]);
        var p := old(pools[slot.pool]);
        var done := slot.completed + 1 == slot.size;
        var finish := done && p.completedBatches + 1 == p.total;
        && slots == old(slots)[i := slot.(completed := slot.completed + 1)]
        && cycleFailCount == old(cycleFailCount) + (if r.Failed? then 1 else 0)
        && cycleTotalCount == old(cycleTotalCount) + 1
        && linksResponded == Decrement(old(linksResponded), LinkKey(r))
        && pools == (if done then old(pools)[slot.pool := p.(completedBatches := p.completedBatches + 1)] else old(pools))
        && processorList == (if finish then [] else old(processorList))
        && inProgress == (if finish then false else old(inProgress))
        && ran == old(ran) + (if finish then 1 else 0)
        && effects == old(effects) + CounterEffects(r) + (if done then [Kill(slot.proc)] else []) +
             (if finish then FinishEffects(refreshRate, feedCount, cycleFailCount, cycleTotalCount, false) else [])
    {
      var slot := slots[i];
      RecordOutcome(r);
      slots := slots[i := slot.(completed := slot.completed + 1)];
      if slot.completed + 1 == slot.size {
        CompleteBatch(slot.pool, slot.proc);
      }
    }

    /** A processor's batch is complete: count it, kill the processor, and after the pool's last batch finish the cycle. */
    method CompleteBatch(poolId: nat, proc: ProcId)
      requires Valid() && poolId < |pools|
      modifies this`pools, this`effects, this`processorList, this`inProgress, this`ran
      ensures Valid()
      ensures var p := old(pools[poolId]);
        var finish := p.completedBatches + 1 == p.total;
        && pools == old(pools)[poolId := p.(completedBatches := p.completedBatches + 1)]
        && processorList == (if finish then [] else old(processorList))
        && inProgress == (if finish then false else old(inProgress))
        && ran == old(ran) + (if finish then 1 else 0)
        && effects == old(effects) + [Kill(proc)] +
             (if finish then FinishEffects(refreshRate, feedCount, cycleFailCount, cycleTotalCount, false) else [])
    {
      var p := pools[poolId];
      pools := pools[poolId := p.(completedBatches := p.completedBatches + 1)];
      effects := effects + [Kill(proc)];
      if p.completedBatches + 1 == p.total {
        processorList := [];
        FinishCycle(false);
      }
    }

    // ---------------------------------------------------------- end of cycle

    /** `killChildren`: kill every tracked processor and forget them. */
    method KillChildren()
      modifies this`processorList, this`effects
      ensures processorList == [] && effects == old(effects) + Kills(old(processorList))
    {
      var procs := processorList;
      var i := 0;
      while i < |procs|
        invariant 0 <= i <= |procs|
        invariant effects == old(effects) + Kills(procs[..i])
      {
        assert procs[..i + 1][..i] == procs[..i];
        effects := effects + [Kill(procs[i])];
        i := i + 1;
      }
      assert procs[..i] == procs;
      processorList := [];
    }

    /**
     * `_finishCycle`: report completion and statistics; unless the cycle had no feeds,
     * clear `inProgress` when no processor is tracked and emit `finish`; count the run.
     */
    method FinishCycle(noFeeds: bool)
      modifies this`effects, this`inProgress, this`ran
      ensures ran == old(ran) + 1
      ensures effects == old(effects) + FinishEffects(refreshRate, feedCount, cycleFailCount, cycleTotalCount, noFeeds)
      ensures inProgress == if !noFeeds && processorList == [] then false else old(inProgress)
    {
      effects := effects + [ScheduleComplete(refreshRate), SaveStats(feedCount, cycleFailCount, cycleTotalCount)];
      if !noFeeds {
        if processorList == [] {
          inProgress := false;
        }
        effects := effects + [EmitFinish];
      }
      ran := ran + 1;
    }
  }
}
