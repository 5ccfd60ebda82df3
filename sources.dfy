/**
 * The feeds of one cycle and what the controller builds from them: the
 * deduplicated source map (URL -> feed id -> delegated data, in insertion order),
 * the feeds a cycle selects and accepts, and the batches the source map is cut into.
 */
module Sources {
  import opened Wrappers
  import opened OrderedMaps
  import FailCounters
  import Permissions

  type Url = string
  type FeedId = string
  type GuildId = string
  type ChannelId = string

  /**
   * A feed as the cycle sees it. `advanced` holds its custom fetch settings (empty
   * when it has none). The data delegated for a feed (subscribers, format, filtered
   * formats, date settings) is represented by the feed value itself.
   */
  datatype Feed = Feed(
    id: FeedId,
    url: Url,
    guild: GuildId,
    channel: ChannelId,
    disabled: Option<string>,
    advanced: map<string, string>)

  /** `rssList`: the feeds sharing one URL, by feed id. */
  type SourceList = OMap<FeedId, Feed>

  /** `_sourceList` / `_modSourceList`, and also one batch: URL -> rssList. */
  type SourceMap = OMap<Url, SourceList>

  /** The guilds and channels the bot can see, with its permissions in each channel. */
  datatype Bot = Bot(guilds: set<GuildId>, channels: map<ChannelId, Permissions.ChannelPermissions>)

  /** The lookups `_addToSourceLists` consults: the bot, the fail counters and the formats' embed counts. */
  datatype Env = Env(
    bot: Bot,
    failCounters: map<Url, FailCounters.CounterRecord>,
    failLimit: nat,
    formatEmbeds: map<FeedId, nat>)

  function FormatEmbeds(env: Env, id: FeedId): Option<nat> {
    if id in env.formatEmbeds then Some(env.formatEmbeds[id]) else None
  }

  predicate CounterTripped(env: Env, url: Url) {
    url in env.failCounters && FailCounters.Tripped(env.failCounters[url].count, env.failLimit)
  }

  /** `_addToSourceLists` returns true and delegates the feed exactly when this holds. */
  predicate Eligible(f: Feed, env: Env) {
    && f.guild in env.bot.guilds
    && f.channel in env.bot.channels
    && !CounterTripped(env, f.url)
    && !Permissions.CheckPermissions(f.disabled, env.bot.channels[f.channel], FormatEmbeds(env, f.id)).disabled
  }

  /**
   * The `feed.disable(reason)` / `feed.enable()` call `checkPermissions` makes while
   * `_addToSourceLists` handles `f`; a feed turned away before the check gets none.
   */
  function PermissionAction(f: Feed, env: Env): (a: Permissions.Action)
    ensures a == Permissions.Enable ==> Eligible(f, env)
    ensures a.Disable? || a.UpdateReason? ==> !Eligible(f, env)
    ensures a != Permissions.NoAction ==> f.guild in env.bot.guilds && f.channel in env.bot.channels && !CounterTripped(env, f.url)
  {
    if f.guild in env.bot.guilds && f.channel in env.bot.channels && !CounterTripped(env, f.url) then
      Permissions.CheckPermissions(f.disabled, env.bot.channels[f.channel], FormatEmbeds(env, f.id)).action
    else
      Permissions.NoAction
  }

  const UNDEFINED_COUNTER_ERROR := "TypeError: Cannot read property 'hasFailed' of undefined"

  /**
   * `_addToSourceLists` as written, with `toDebug` telling whether the feed is traced:
   * the debug message for a disabled feed reads `failCounter.hasFailed()` even when the
   * URL has no counter, which throws.
   */
  function AddDecisionAsWritten(f: Feed, env: Env, toDebug: bool): Result<bool, string> {
    if f.guild !in env.bot.guilds || f.channel !in env.bot.channels then Success(false)
    else if CounterTripped(env, f.url) then Success(false)
    else if Permissions.CheckPermissions(f.disabled, env.bot.channels[f.channel], FormatEmbeds(env, f.id)).disabled then
      if toDebug && f.url !in env.failCounters then Failure(UNDEFINED_COUNTER_ERROR) else Success(false)
    else Success(true)
  }

  /** A traced feed that is disabled and has no fail counter makes `_addToSourceLists` throw. */
  lemma DebugDisabledWithoutCounterThrows(env: Env)
    requires "g" in env.bot.guilds && "c" in env.bot.channels && "u" !in env.failCounters
    ensures AddDecisionAsWritten(Feed("f", "u", "g", "c", Some("Blacklisted"), map[]), env, true).Failure?
  {
    assert !StartsWith("Blacklisted", Permissions.MISSING_PREFIX);
  }

  /** Apart from that throw, the decision as written is `Eligible`, traced or not. */
  lemma AddDecisionIsEligible(f: Feed, env: Env, toDebug: bool)
    ensures AddDecisionAsWritten(f, env, toDebug).Success? ==> AddDecisionAsWritten(f, env, toDebug).value == Eligible(f, env)
    ensures AddDecisionAsWritten(f, env, toDebug).Failure? <==> toDebug && f.url !in env.failCounters && f.guild in env.bot.guilds && f.channel in env.bot.channels && !Eligible(f, env)
  {
  }

  /** `_delegateFeed`: store the feed under `sourceList[feed.url][feed._id]`. */
  function Delegate(m: SourceMap, f: Feed): (r: SourceMap)
    requires m.Valid()
    ensures r.Valid()
  {
    m.Put(f.url, if f.url in m.entries then m.entries[f.url].Put(f.id, f) else Single(f.id, f))
  }

  /**
   * Delegating files the feed under its id in its URL's source list, appending the URL
   * when it is new, and leaves every other URL's source list as it was.
   */
  lemma DelegateSpec(m: SourceMap, f: Feed)
    requires m.Valid()
    ensures var r := Delegate(m, f);
      && (f.url in m.entries ==> r.keys == m.keys && r.entries[f.url] == m.entries[f.url].Put(f.id, f))
      && (f.url !in m.entries ==> r.keys == m.keys + [f.url] && r.entries[f.url] == Single(f.id, f))
      && (forall u :: u != f.url ==> (u in r.entries <==> u in m.entries))
      && (forall u :: u in m.entries && u != f.url ==> r.entries[u] == m.entries[u])
  {
  }

  /** The feeds this schedule keeps: those whose determined schedule is its name (the corrected loop). */
  function Selected(feeds: seq<Feed>, schedules: seq<string>, name: string): seq<Feed>
    requires |schedules| == |feeds|
    decreases |feeds|, 1
  {
    if feeds == [] then [] else SelectedLast(feeds, schedules, name)
  }

  function SelectedLast(feeds: seq<Feed>, schedules: seq<string>, name: string): seq<Feed>
    requires |schedules| == |feeds| && feeds != []
    decreases |feeds|, 0
  {
      var n := |feeds| - 1;
      Selected(feeds[..n], schedules[..n], name) + (if schedules[n] == name then [feeds[n]] else [])
  }

  /**
   * The selection loop as written: it `return`s at the first feed scheduled to another
   * schedule. Failure(processed) is that early return, with the feeds handled before it.
   */
  function SelectedAsWritten(feeds: seq<Feed>, schedules: seq<string>, name: string): Result<seq<Feed>, seq<Feed>>
    requires |schedules| == |feeds|
  {
    if feeds == [] then Success([])
    else if schedules[0] != name then Failure([])
    else match SelectedAsWritten(feeds[1..], schedules[1..], name)
      case Success(rest) => Success([feeds[0]] + rest)
      case Failure(rest) => Failure([feeds[0]] + rest)
  }

  /** The feeds of `feeds` that `_addToSourceLists` accepts, in order. */
  function Accepted(feeds: seq<Feed>, env: Env): seq<Feed>
    decreases |feeds|, 1
  {
    if feeds == [] then [] else AcceptedLast(feeds, env)
  }

  function AcceptedLast(feeds: seq<Feed>, env: Env): seq<Feed>
    requires feeds != []
    decreases |feeds|, 0
  {
      var n := |feeds| - 1;
      Accepted(feeds[..n], env) + (if Eligible(feeds[n], env) then [feeds[n]] else [])
  }

  /** The source map after delegating `feeds` in order into an empty one. */
  function Aggregate(feeds: seq<Feed>): (r: SourceMap)
    ensures r.Valid()
    decreases |feeds|, 1
  {
    if feeds == [] then Empty() else AggregateLast(feeds)
  }

  function AggregateLast(feeds: seq<Feed>): (r: SourceMap)
    requires feeds != []
    ensures r.Valid()
    decreases |feeds|, 0
  {
    Delegate(Aggregate(feeds[..|feeds| - 1]), feeds[|feeds| - 1])
  }

  /** The selection grows by the next feed exactly when that feed is this schedule's. */
  lemma SelectedNext(feeds: seq<Feed>, schedules: seq<string>, name: string, i: nat)
    requires |schedules| == |feeds| && i < |feeds|
    ensures Selected(feeds[..i + 1], schedules[..i + 1], name) ==
      Selected(feeds[..i], schedules[..i], name) + (if schedules[i] == name then [feeds[i]] else [])
  {
    assert feeds[..i + 1][..i] == feeds[..i];
    assert schedules[..i + 1][..i] == schedules[..i];
  }

  /** The accepted feeds grow by the next feed exactly when it is eligible. */
  lemma AcceptedNext(feeds: seq<Feed>, f: Feed, env: Env)
    ensures Accepted(feeds + [f], env) == Accepted(feeds, env) + (if Eligible(f, env) then [f] else [])
  {
    assert (feeds + [f])[..|feeds|] == feeds;
  }

  /** Aggregating one more feed is delegating it. */
  lemma AggregateNext(feeds: seq<Feed>, f: Feed)
    ensures Aggregate(feeds + [f]) == Delegate(Aggregate(feeds), f)
  {
    assert (feeds + [f])[..|feeds|] == feeds;
  }

  function UrlsOf(feeds: seq<Feed>): set<Url> {
    set f | f in feeds :: f.url
  }

  // ------------------------------------------------------- selection properties

  /** One foreign feed first makes the loop as written give up on the feeds after it. */
  lemma ForeignFeedAbortsRun(a: Feed, b: Feed, name: string)
    requires name != "other"
    ensures SelectedAsWritten([a, b], ["other", name], name) == Failure([])
    ensures Selected([a, b], ["other", name], name) == [b]
  {
    assert [a, b][..1] == [a];
    assert ["other", name][..1] == ["other"];
    assert [a][..0] == [];
    assert ["other"][..0] == [];
    assert SelectedLast([a], ["other"], name) == [];
    assert Selected([a, b], ["other", name], name) == Selected([a], ["other"], name) + [b];
  }

  /** The corrected loop keeps exactly the feeds scheduled to this schedule. */
  lemma {:induction false} SelectedExact(feeds: seq<Feed>, schedules: seq<string>, name: string)
    requires |schedules| == |feeds|
    ensures forall i :: 0 <= i < |feeds| && schedules[i] == name ==> feeds[i] in Selected(feeds, schedules, name)
    ensures forall f :: f in Selected(feeds, schedules, name) ==> exists i :: 0 <= i < |feeds| && feeds[i] == f && schedules[i] == name
  {
    if feeds != [] {
      var n := |feeds| - 1;
      SelectedExact(feeds[..n], schedules[..n], name);
      assert Selected(feeds, schedules, name) ==
        Selected(feeds[..n], schedules[..n], name) + (if schedules[n] == name then [feeds[n]] else []);
      forall f | f in Selected(feeds, schedules, name)
        ensures exists i :: 0 <= i < |feeds| && feeds[i] == f && schedules[i] == name
      {
        if f in Selected(feeds[..n], schedules[..n], name) {
          var i :| 0 <= i < n && feeds[..n][i] == f && schedules[..n][i] == name;
          assert feeds[i] == f && schedules[i] == name;
        } else {
          assert feeds[n] == f && schedules[n] == name;
        }
      }
    }
  }

  /** When every feed is scheduled to this schedule the two loops agree. */
  lemma {:induction false} AsWrittenAgreesWithoutForeign(feeds: seq<Feed>, schedules: seq<string>, name: string)
    requires |schedules| == |feeds|
    requires forall i :: 0 <= i < |schedules| ==> schedules[i] == name
    ensures SelectedAsWritten(feeds, schedules, name) == Success(feeds)
    ensures Selected(feeds, schedules, name) == feeds
  {
    if feeds != [] {
      assert forall i :: 0 <= i < |schedules[1..]| ==> schedules[1..][i] == schedules[i + 1];
      AsWrittenAgreesWithoutForeign(feeds[1..], schedules[1..], name);
      assert feeds == [feeds[0]] + feeds[1..];
    }
    SelectedAll(feeds, schedules, name);
  }

  lemma {:induction false} SelectedAll(feeds: seq<Feed>, schedules: seq<string>, name: string)
    requires |schedules| == |feeds|
    requires forall i :: 0 <= i < |schedules| ==> schedules[i] == name
    ensures Selected(feeds, schedules, name) == feeds
  {
    if feeds != [] {
      var n := |feeds| - 1;
      SelectedAll(feeds[..n], schedules[..n], name);
      assert feeds == feeds[..n] + [feeds[n]];
    }
  }

  /** A feed is accepted exactly when it is eligible. */
  lemma {:induction false} AcceptedExact(feeds: seq<Feed>, env: Env)
    ensures forall f :: f in Accepted(feeds, env) <==> f in feeds && Eligible(f, env)
  {
    if feeds != [] {
      var n := |feeds| - 1;
      AcceptedExact(feeds[..n], env);
      assert feeds == feeds[..n] + [feeds[n]];
    }
  }

  // ----------------------------------------------------- aggregation properties

  /** Every delegated feed is stored under its URL and its id. */
  lemma {:induction false} AggregateStoresEvery(feeds: seq<Feed>)
    ensures forall f :: f in feeds ==> f.url in Aggregate(feeds).entries && f.id in Aggregate(feeds).entries[f.url].entries
  {
    if feeds != [] {
      var n := |feeds| - 1;
      AggregateStoresEvery(feeds[..n]);
      assert feeds == feeds[..n] + [feeds[n]];
    }
  }

  /** The source map's URLs are exactly the delegated feeds' URLs, and no source list is empty. */
  lemma {:induction false} AggregateUrls(feeds: seq<Feed>)
    ensures forall u :: u in Aggregate(feeds).entries <==> u in UrlsOf(feeds)
    ensures forall u :: u in Aggregate(feeds).entries ==>
      Aggregate(feeds).entries[u].Valid() && |Aggregate(feeds).entries[u].keys| >= 1
  {
    if feeds != [] {
      var n := |feeds| - 1;
      AggregateUrls(feeds[..n]);
      assert feeds == feeds[..n] + [feeds[n]];
      assert UrlsOf(feeds) == UrlsOf(feeds[..n]) + {feeds[n].url};
    }
  }

  /** Every stored entry is a delegated feed, filed under its own URL and id. */
  lemma {:induction false} AggregateStoresOnlyFeeds(feeds: seq<Feed>)
    ensures forall u, id :: u in Aggregate(feeds).entries && id in Aggregate(feeds).entries[u].entries ==>
      var v := Aggregate(feeds).entries[u].entries[id]; v in feeds && v.url == u && v.id == id
  {
    if feeds != [] {
      var n := |feeds| - 1;
      var f := feeds[n];
      AggregateStoresOnlyFeeds(feeds[..n]);
      assert feeds == feeds[..n] + [f];
      var m := Aggregate(feeds[..n]);
      var r := Aggregate(feeds);
      assert r == AggregateLast(feeds) == Delegate(m, f);
      DelegateSpec(m, f);
      forall u, id | u in r.entries && id in r.entries[u].entries
        ensures var v := r.entries[u].entries[id]; v in feeds && v.url == u && v.id == id
      {
        if u != f.url || id != f.id {
          assert u in m.entries && id in m.entries[u].entries;
          assert m.entries[u].entries[id] in feeds[..n];
        }
      }
    }
  }

  /** The source map holds exactly as many source lists as there are distinct URLs. */
  lemma AggregateCountsUrls(feeds: seq<Feed>)
    ensures |Aggregate(feeds).keys| == |UrlsOf(feeds)|
  {
    var r := Aggregate(feeds);
    AggregateUrls(feeds);
    DistinctCard(r.keys);
    assert (set i | 0 <= i < |r.keys| :: r.keys[i]) == UrlsOf(feeds);
  }

  // ---------------------------------------------------------------- batching

  /** The batches completed so far and the batch being filled, after some links of `_genBatchLists`' loop. */
  datatype Split = Split(done: seq<SourceMap>, current: SourceMap)

  /** One step of the batching loop: close the batch once it is full, then add the link. */
  function ScanStep(s: Split, link: Url, list: SourceList, size: int): Split {
    if |s.current.keys| >= size then Split(s.done + [s.current], Single(link, list))
    else Split(s.done, OMap(s.current.keys + [link], s.current.entries[link := list]))
  }

  function Scan(links: seq<Url>, lists: map<Url, SourceList>, size: int): Split
    requires forall l :: l in links ==> l in lists
  {
    if links == [] then Split([], Empty())
    else
      var n := |links| - 1;
      ScanStep(Scan(links[..n], lists, size), links[n], lists[links[n]], size)
  }

  /** `_genBatchLists` for one source map: the batches, the last non-empty one flushed. */
  function Batches(m: SourceMap, size: int): seq<SourceMap>
    requires m.Valid()
  {
    var s := Scan(m.keys, m.entries, size);
    if |s.current.keys| > 0 then s.done + [s.current] else s.done
  }

  /** The links of the batches, batch after batch. */
  function LinksOf(bs: seq<SourceMap>): seq<Url> {
    if bs == [] then [] else LinksOf(bs[..|bs| - 1]) + bs[|bs| - 1].keys
  }

  /** `b` is a valid part of `m`: its links map to `m`'s own source lists. */
  ghost predicate PartOf(b: SourceMap, m: map<Url, SourceList>) {
    b.Valid() && forall u :: u in b.entries ==> u in m && b.entries[u] == m[u]
  }

  lemma LinksOfAppend(bs: seq<SourceMap>, b: SourceMap)
    ensures LinksOf(bs + [b]) == LinksOf(bs) + b.keys
  {
    assert (bs + [b])[..|bs|] == bs;
  }

  /** The loop's shape: full closed batches, then the current one, covering the links in order. */
  lemma {:induction false} ScanLinks(links: seq<Url>, lists: map<Url, SourceList>, size: int)
    requires size >= 1
    requires forall l :: l in links ==> l in lists
    ensures var s := Scan(links, lists, size);
      && LinksOf(s.done) + s.current.keys == links
      && (forall b :: b in s.done ==> |b.keys| == size)
      && |s.current.keys| <= size
      && (links != [] ==> |s.current.keys| >= 1)
  {
    if links != [] {
      var n := |links| - 1;
      ScanLinks(links[..n], lists, size);
      assert links == links[..n] + [links[n]];
      var s := Scan(links[..n], lists, size);
      if |s.current.keys| >= size {
        LinksOfAppend(s.done, s.current);
      }
    }
  }

  /** One loop step keeps every batch a valid part of the source map when the link is new. */
  lemma ScanStepParts(s: Split, l: Url, lists: map<Url, SourceList>, size: int)
    requires l in lists && l !in s.current.keys
    requires forall b :: b in s.done ==> PartOf(b, lists)
    requires PartOf(s.current, lists)
    ensures var t := ScanStep(s, l, lists[l], size);
      (forall b :: b in t.done ==> PartOf(b, lists)) && PartOf(t.current, lists)
  {
    if |s.current.keys| < size {
      var c := OMap(s.current.keys + [l], s.current.entries[l := lists[l]]);
      DistinctSnoc(s.current.keys, l);
      assert PartOf(c, lists);
    }
  }

  /** With distinct links every batch maps its links to their own source lists. */
  lemma {:induction false} ScanParts(links: seq<Url>, lists: map<Url, SourceList>, size: int)
    requires size >= 1 && Distinct(links)
    requires forall l :: l in links ==> l in lists
    ensures var s := Scan(links, lists, size);
      (forall b :: b in s.done ==> PartOf(b, lists)) && PartOf(s.current, lists)
  {
    if links != [] {
      var n := |links| - 1;
      var init := links[..n];
      var l := links[n];
      assert links == init + [l];
      DistinctParts(init, [l]);
      ScanParts(init, lists, size);
      ScanLinks(init, lists, size);
      var s := Scan(init, lists, size);
      assert l in [l];
      assert l !in LinksOf(s.done) + s.current.keys;
      ScanStepParts(s, l, lists, size);
    }
  }

  /**
   * With a batch size of at least 1: every batch holds between 1 and `size` links and
   * all but the last exactly `size`; each batch maps its links to the source map's own
   * lists; and the batches' links, in order, are the source map's links, each once.
   */
  lemma BatchesExact(m: SourceMap, size: int)
    requires m.Valid() && size >= 1
    ensures var bs := Batches(m, size);
      && LinksOf(bs) == m.keys
      && (forall i :: 0 <= i < |bs| ==> 1 <= |bs[i].keys| <= size && PartOf(bs[i], m.entries))
      && (forall i :: 0 <= i < |bs| - 1 ==> |bs[i].keys| == size)
  {
    ScanLinks(m.keys, m.entries, size);
    ScanParts(m.keys, m.entries, size);
    var s := Scan(m.keys, m.entries, size);
    var bs := Batches(m, size);
    if |s.current.keys| > 0 {
      assert bs == s.done + [s.current];
      LinksOfAppend(s.done, s.current);
      ClosedBatches(s.done, s.current, m.entries, size);
    } else {
      assert m.keys == [];
      assert s == Split([], Empty());
    }
  }

  /** The closed batches, all full, then a last batch of 1 to `size` links. */
  lemma ClosedBatches(done: seq<SourceMap>, current: SourceMap, lists: map<Url, SourceList>, size: int)
    requires 1 <= |current.keys| <= size && PartOf(current, lists)
    requires forall b :: b in done ==> |b.keys| == size && PartOf(b, lists)
    ensures var bs := done + [current];
      && (forall i :: 0 <= i < |bs| ==> 1 <= |bs[i].keys| <= size && PartOf(bs[i], lists))
      && (forall i :: 0 <= i < |bs| - 1 ==> |bs[i].keys| == size)
  {
    var bs := done + [current];
    forall i | 0 <= i < |bs|
      ensures 1 <= |bs[i].keys| <= size && PartOf(bs[i], lists)
      ensures i < |bs| - 1 ==> |bs[i].keys| == size
    {
      if i < |done| {
        assert bs[i] == done[i] && done[i] in done;
      }
    }
  }

  /** Concatenated in order, the batches list every link exactly once. */
  lemma BatchesCoverOnce(m: SourceMap, size: int)
    requires m.Valid() && size >= 1
    ensures Distinct(LinksOf(Batches(m, size)))
    ensures forall u :: u in m.entries <==> u in LinksOf(Batches(m, size))
  {
    BatchesExact(m, size);
  }

  /** There are as many batches as `size`-sized slices of the links, rounded up. */
  lemma BatchCount(m: SourceMap, size: int)
    requires m.Valid() && size >= 1
    ensures |m.keys| == 0 <==> Batches(m, size) == []
    ensures Batches(m, size) != [] ==> (|Batches(m, size)| - 1) * size < |m.keys| <= |Batches(m, size)| * size
  {
    BatchesExact(m, size);
    var bs := Batches(m, size);
    LinksLength(bs, size);
  }

  lemma {:induction false} LinksLength(bs: seq<SourceMap>, size: int)
    requires size >= 1
    requires forall i :: 0 <= i < |bs| ==> 1 <= |bs[i].keys| <= size
    requires forall i :: 0 <= i < |bs| - 1 ==> |bs[i].keys| == size
    ensures bs == [] <==> LinksOf(bs) == []
    ensures bs != [] ==> (|bs| - 1) * size < |LinksOf(bs)| <= |bs| * size
  {
    if bs != [] {
      var n := |bs| - 1;
      FullLinksLength(bs[..n], size);
      var k := |bs[n].keys|;
      assert |LinksOf(bs)| == n * size + k;
      assert (n + 1) * size == n * size + size;
    }
  }

  lemma {:induction false} FullLinksLength(bs: seq<SourceMap>, size: int)
    requires forall i :: 0 <= i < |bs| ==> |bs[i].keys| == size
    ensures |LinksOf(bs)| == |bs| * size
  {
    if bs != [] {
      var n := |bs| - 1;
      assert forall i :: 0 <= i < n ==> bs[..n][i] == bs[i];
      FullLinksLength(bs[..n], size);
      assert |LinksOf(bs)| == |LinksOf(bs[..n])| + |bs[n].keys|;
      assert |LinksOf(bs)| == n * size + size;
      assert n * size + size == (n + 1) * size;
    }
  }

  /** With a batch size of 0 or less the loop closes the empty batch before the first link. */
  lemma ZeroSizeFirstBatchEmpty(m: SourceMap, size: int)
    requires m.Valid() && size <= 0 && |m.keys| >= 1
    ensures |Batches(m, size)| >= 1 && Batches(m, size)[0].keys == []
  {
    var s := Scan(m.keys, m.entries, size);
    ZeroSizeScan(m.keys, m.entries, size);
  }

  lemma {:induction false} ZeroSizeScan(links: seq<Url>, lists: map<Url, SourceList>, size: int)
    requires size <= 0 && |links| >= 1
    requires forall l :: l in links ==> l in lists
    ensures var s := Scan(links, lists, size); |s.done| >= 1 && s.done[0].keys == []
  {
    var n := |links| - 1;
    if n >= 1 {
      ZeroSizeScan(links[..n], lists, size);
    } else {
      assert links[..0] == [];
    }
  }

  /** The feeds' URLs in order, repeats included. */
  function UrlSeq(feeds: seq<Feed>): (r: seq<Url>)
    ensures |r| == |feeds| && forall i :: 0 <= i < |feeds| ==> r[i] == feeds[i].url
  {
    if feeds == [] then [] else UrlSeq(feeds[..|feeds| - 1]) + [feeds[|feeds| - 1].url]
  }

  /** Each URL once, at the position of its first occurrence. */
  function FirstSeen(urls: seq<Url>): seq<Url> {
    if urls == [] then []
    else
      var n := |urls| - 1;
      var p := FirstSeen(urls[..n]);
      if urls[n] in p then p else p + [urls[n]]
  }

  /** The source map lists its URLs in the order the feeds first mention them. */
  lemma {:induction false} AggregateKeysFirstSeen(feeds: seq<Feed>)
    ensures Aggregate(feeds).keys == FirstSeen(UrlSeq(feeds))
  {
    if feeds != [] {
      var n := |feeds| - 1;
      AggregateKeysFirstSeen(feeds[..n]);
      assert UrlSeq(feeds)[..n] == UrlSeq(feeds[..n]);
    }
  }

  /** Three URLs in batches of two make a batch of two links followed by a batch of one. */
  lemma ExampleThreeUrlsInTwos(m: SourceMap)
    requires m.Valid() && |m.keys| == 3
    ensures var bs := Batches(m, 2); |bs| == 2 && |bs[0].keys| == 2 && |bs[1].keys| == 1
  {
    BatchesExact(m, 2);
    BatchCount(m, 2);
    var bs := Batches(m, 2);
    assert bs[..1][..0] == [];
    assert bs == bs[..1] + [bs[1]];
    assert LinksOf(bs[..1]) == bs[0].keys;
  }

  /** Whatever the batch size, a source map with links yields at least one batch, and one without yields none. */
  lemma BatchesExist(m: SourceMap, size: int)
    requires m.Valid()
    ensures |m.keys| > 0 <==> |Batches(m, size)| > 0
  {
    if size >= 1 {
      BatchCount(m, size);
    } else if |m.keys| > 0 {
      ZeroSizeFirstBatchEmpty(m, size);
    } else {
      assert Scan(m.keys, m.entries, size) == Split([], Empty());
    }
  }

  // ------------------------------------------------------ pending-link table

  /** A `_linksResponded` value: a count, or NaN once a key that was never set is decremented. */
  datatype Pending = Count(n: int) | NotANumber

  /** `_linksResponded`: link -> how many responses are still awaited, in insertion order. */
  type PendingTable = OMap<Url, Pending>

  /** JavaScript reads `undefined`, 0 and NaN as false. */
  predicate PendingFalsy(t: PendingTable, l: Url) {
    l !in t.entries || t.entries[l] == Count(0) || t.entries[l] == NotANumber
  }

  /** `_linksResponded[link] = 1` for every regular link, in order. */
  function MarkRegular(t: PendingTable, links: seq<Url>): (r: PendingTable)
    requires t.Valid()
    ensures r.Valid()
  {
    if links == [] then t else MarkRegular(t, links[..|links| - 1]).Put(links[|links| - 1], Count(1))
  }

  /** The modded-lane marking as intended: set a falsy entry to 1, otherwise add 1. */
  function MarkModded(t: PendingTable, l: Url): (r: PendingTable)
    requires t.Valid()
    ensures r.Valid()
    ensures r.entries == t.entries[l := if PendingFalsy(t, l) then Count(1) else Count(t.entries[l].n + 1)]
  {
    t.Put(l, if PendingFalsy(t, l) then Count(1) else Count(t.entries[l].n + 1))
  }

  /**
   * The modded-lane marking as written: a falsy entry makes it assign 1 to the whole
   * table rather than to the entry, shown as None; otherwise it adds 1 to the entry.
   */
  function MarkModdedAsWritten(t: PendingTable, l: Url): Option<PendingTable>
    requires t.Valid()
  {
    if PendingFalsy(t, l) then None else Some(t.Put(l, Count(t.entries[l].n + 1)))
  }

  function MarkAllModded(t: PendingTable, links: seq<Url>): (r: PendingTable)
    requires t.Valid()
    ensures r.Valid()
  {
    if links == [] then t else MarkModded(MarkAllModded(t, links[..|links| - 1]), links[|links| - 1])
  }

  /** `--_linksResponded[key]`: a missing key becomes NaN, and NaN stays NaN. */
  function Decrement(t: PendingTable, key: Url): (r: PendingTable)
    requires t.Valid()
    ensures r.Valid() && r.keys == (if key in t.entries then t.keys else t.keys + [key])
    ensures forall u :: u != key ==> (u in r.entries <==> u in t.entries)
    ensures forall u :: u in t.entries && u != key ==> r.entries[u] == t.entries[u]
    ensures key in r.entries && r.entries[key] == match Lookup(t, key) {
      case Some(Count(n)) => Count(n - 1)
      case _ => NotANumber
    }
  {
    t.Put(key, if key in t.entries && t.entries[key].Count? then Count(t.entries[key].n - 1) else NotANumber)
  }

  function Lookup(t: PendingTable, key: Url): Option<Pending> {
    if key in t.entries then Some(t.entries[key]) else None
  }

  /** The links recovery reports as not having responded: those whose entry is not exactly 0, in order. */
  function Unresponded(t: PendingTable, links: seq<Url>): seq<Url>
    requires forall l :: l in links ==> l in t.entries
  {
    if links == [] then []
    else
      var n := |links| - 1;
      Unresponded(t, links[..n]) + (if t.entries[links[n]] != Count(0) then [links[n]] else [])
  }

  /** After marking, every regular link awaits exactly one response and other entries are untouched. */
  lemma {:induction false} MarkRegularExact(t: PendingTable, links: seq<Url>)
    requires t.Valid()
    ensures forall l :: l in links ==> l in MarkRegular(t, links).entries && MarkRegular(t, links).entries[l] == Count(1)
    ensures forall l :: l !in links ==> (l in MarkRegular(t, links).entries <==> l in t.entries)
    ensures forall l :: l !in links && l in t.entries ==> MarkRegular(t, links).entries[l] == t.entries[l]
  {
    if links != [] {
      var n := |links| - 1;
      MarkRegularExact(t, links[..n]);
      assert links == links[..n] + [links[n]];
    }
  }

  /** Marked into an empty table, distinct links appear in their own order. */
  lemma {:induction false} MarkRegularKeys(links: seq<Url>)
    requires Distinct(links)
    ensures MarkRegular(Empty(), links).keys == links
  {
    if links != [] {
      var n := |links| - 1;
      assert links == links[..n] + [links[n]];
      DistinctParts(links[..n], [links[n]]);
      MarkRegularKeys(links[..n]);
      assert links[n] in [links[n]];
    }
  }

  /** A new modded link makes the marking as written discard every pending entry, including the regular ones. */
  lemma ModdedMarkClobbers(regular: Url, modded: Url)
    requires regular != modded
    ensures var t := Single(regular, Count(1));
      && MarkModdedAsWritten(t, modded).None?
      && MarkModded(t, modded).entries == map[regular := Count(1), modded := Count(1)]
  {
  }

  /** Where the entry is a non-zero count the two markings agree. */
  lemma ModdedMarkAgrees(t: PendingTable, l: Url)
    requires t.Valid() && !PendingFalsy(t, l)
    ensures MarkModdedAsWritten(t, l) == Some(MarkModded(t, l))
  {
  }

  /** Every entry recovery would blame is an entry that is not exactly 0, and every such entry is blamed. */
  lemma {:induction false} UnrespondedExact(t: PendingTable, links: seq<Url>)
    requires forall l :: l in links ==> l in t.entries
    ensures forall l :: l in Unresponded(t, links) <==> l in links && t.entries[l] != Count(0)
  {
    if links != [] {
      var n := |links| - 1;
      UnrespondedExact(t, links[..n]);
      assert links == links[..n] + [links[n]];
    }
  }

  // ---------------------------------------------------------- fetch settings

  /** The `uniqueSettings` of one URL: the last non-empty `advanced` settings among its feeds. */
  function UniqueSettings(list: SourceList): Option<map<string, string>> {
    LastAdvanced(list.entries, list.keys)
  }

  function LastAdvanced(feeds: map<FeedId, Feed>, ids: seq<FeedId>): Option<map<string, string>> {
    if ids == [] then None
    else
      var n := |ids| - 1;
      if ids[n] in feeds && |feeds[ids[n]].advanced| > 0 then Some(feeds[ids[n]].advanced) else LastAdvanced(feeds, ids[..n])
  }

  /**
   * The settings are those of the last feed (in insertion order) with non-empty
   * settings; the settings of any earlier feed of the same URL are not used.
   */
  lemma {:induction false} UniqueSettingsLastWins(feeds: map<FeedId, Feed>, ids: seq<FeedId>)
    requires forall id :: id in ids ==> id in feeds
    ensures LastAdvanced(feeds, ids).None? <==> forall i :: 0 <= i < |ids| ==> |feeds[ids[i]].advanced| == 0
    ensures LastAdvanced(feeds, ids).Some? ==>
      exists i :: (0 <= i < |ids| && LastAdvanced(feeds, ids).value == feeds[ids[i]].advanced &&
        |feeds[ids[i]].advanced| > 0 && forall j :: i < j < |ids| ==> |feeds[ids[j]].advanced| == 0)
  {
    if ids != [] {
      var n := |ids| - 1;
      UniqueSettingsLastWins(feeds, ids[..n]);
      if |feeds[ids[n]].advanced| == 0 && LastAdvanced(feeds, ids).Some? {
        var i :| 0 <= i < n && LastAdvanced(feeds, ids[..n]).value == feeds[ids[..n][i]].advanced
          && |feeds[ids[..n][i]].advanced| > 0 && forall j :: i < j < n ==> |feeds[ids[..n][j]].advanced| == 0;
        assert forall j :: i < j < |ids| ==> |feeds[ids[j]].advanced| == 0 by {
          forall j | i < j < |ids| ensures |feeds[ids[j]].advanced| == 0 {
            if j < n { assert ids[j] == ids[..n][j]; }
          }
        }
      }
    }
  }

  /**
   * When every feed of the URL that has settings has the same ones, those settings
   * reach the fetch: the precedence only matters when the feeds disagree.
   */
  lemma AgreeingSettingsKept(feeds: map<FeedId, Feed>, ids: seq<FeedId>, adv: map<string, string>)
    requires forall id :: id in ids ==> id in feeds
    requires exists i :: 0 <= i < |ids| && feeds[ids[i]].advanced == adv
    requires |adv| > 0
    requires forall i :: 0 <= i < |ids| && |feeds[ids[i]].advanced| > 0 ==> feeds[ids[i]].advanced == adv
    ensures LastAdvanced(feeds, ids) == Some(adv)
  {
    UniqueSettingsLastWins(feeds, ids);
  }

  /** Two feeds with different settings on one URL: only the later feed's settings reach the fetch. */
  lemma EarlierSettingsDropped(a: Feed, b: Feed)
    requires a.id != b.id && |a.advanced| > 0 && |b.advanced| > 0 && a.advanced != b.advanced
    ensures UniqueSettings(OMap([a.id, b.id], map[a.id := a, b.id := b])) == Some(b.advanced)
    ensures UniqueSettings(OMap([a.id, b.id], map[a.id := a, b.id := b])) != Some(a.advanced)
  {
  }
}
