/**
 * The decision logic of batch dispatch, free of processes and timers: how a report
 * from a fetch is handled, how a sequential batch hands over to the next one, and
 * how the bounded pool of processors picks the batches it starts.
 */
module Dispatch {
  import opened Wrappers
  import opened OrderedMaps
  import opened Sources

  /** The regular lane, or the lane of sources needing their own fetch settings. */
  datatype Lane = Regular | Modded

  /** An article found by a fetch; the controller passes it on unchanged. */
  datatype Article = Article(feedId: FeedId, link: Url, guid: string)

  /** One report (`linkCompletion`) from a fetch, by its status. */
  datatype Report =
    | ArticleFound(article: Article)
    | HeadersSeen(link: Url, lastModified: Option<string>, etag: Option<string>)
    | BatchConnected
    | Failed(link: Url)
    | Succeeded(link: Url)

  /** A report with no link decrements the pending entry under the key "undefined". */
  const UNDEFINED_KEY := "undefined"

  function LinkKey(r: Report): Url {
    match r
    case ArticleFound(a) => a.link
    case HeadersSeen(l, _, _) => l
    case BatchConnected => UNDEFINED_KEY
    case Failed(l) => l
    case Succeeded(l) => l
  }

  /** The two statuses a fetch reports exactly once per link. */
  predicate Terminal(r: Report) {
    r.Failed? || r.Succeeded?
  }

  /** What a handler does with one report. */
  datatype Handling = StoreHeaders | Emit | CallBack | Ignore | CountLink

  /** The sequential callback: an article is emitted, anything else counts as one finished link. */
  function SequentialHandling(r: Report): Handling {
    if r.ArticleFound? then Emit else CountLink
  }

  /**
   * The processor handler as intended: the handshake starts the next batch when the
   * processor has a callback and is otherwise ignored; it never counts as a link.
   */
  function ParallelHandling(r: Report, hasCallback: bool): Handling {
    match r
    case HeadersSeen(_, _, _) => StoreHeaders
    case ArticleFound(_) => Emit
    case BatchConnected => if hasCallback then CallBack else Ignore
    case _ => CountLink
  }

  /** The processor handler as written: without a callback the handshake falls through and counts as a link. */
  function ParallelHandlingAsWritten(r: Report, hasCallback: bool): Handling {
    match r
    case HeadersSeen(_, _, _) => StoreHeaders
    case ArticleFound(_) => Emit
    case BatchConnected => if hasCallback then CallBack else CountLink
    case _ => CountLink
  }

  function TerminalCount(rs: seq<Report>): nat {
    if rs == [] then 0 else TerminalCount(rs[..|rs| - 1]) + (if Terminal(rs[|rs| - 1]) then 1 else 0)
  }

  /** How many of `rs` a processor's handler counts as finished links. */
  function Counted(rs: seq<Report>, hasCallback: bool): nat {
    if rs == [] then 0
    else Counted(rs[..|rs| - 1], hasCallback) + (if ParallelHandling(rs[|rs| - 1], hasCallback) == CountLink then 1 else 0)
  }

  function CountedAsWritten(rs: seq<Report>, hasCallback: bool): nat {
    if rs == [] then 0
    else CountedAsWritten(rs[..|rs| - 1], hasCallback) + (if ParallelHandlingAsWritten(rs[|rs| - 1], hasCallback) == CountLink then 1 else 0)
  }

  /** As intended, a processor counts exactly its links' terminal reports. */
  lemma {:induction false} CountedIsTerminal(rs: seq<Report>, hasCallback: bool)
    ensures Counted(rs, hasCallback) == TerminalCount(rs)
  {
    if rs != [] {
      CountedIsTerminal(rs[..|rs| - 1], hasCallback);
    }
  }

  /** With a callback the handler as written behaves as intended. */
  lemma {:induction false} AsWrittenAgreesWithCallback(rs: seq<Report>)
    ensures CountedAsWritten(rs, true) == Counted(rs, true)
  {
    if rs != [] {
      AsWrittenAgreesWithCallback(rs[..|rs| - 1]);
    }
  }

  /**
   * Without a callback (a pool width of 0 or less) the handshake counts as a link: a
   * two-link batch reaches its size, and its processor is killed, after one link reported.
   */
  lemma HandshakeCountsAsLink(l: Url)
    ensures CountedAsWritten([BatchConnected, Failed(l)], false) == 2
    ensures TerminalCount([BatchConnected, Failed(l)]) == 1
    ensures Counted([BatchConnected, Failed(l)], false) == 1
  {
    assert [BatchConnected, Failed(l)][..1] == [BatchConnected];
    assert [BatchConnected][..0] == [];
  }

  // ------------------------------------------------------ sequential batches

  /** The arguments of one `_getBatch` call. */
  datatype BatchCall = BatchCall(batchNumber: nat, batchList: seq<SourceMap>, lane: Lane)

  /** What one `_getBatch` call's callback closes over; `completed` is its `completedLinks`. */
  datatype Session = Session(batchList: seq<SourceMap>, lane: Lane, batchNumber: nat, size: nat, completed: nat)

  /**
   * `_getBatch` can run: an empty list is redirected to the modded lane, which must then
   * have batches (otherwise the redirect recurses without end); a non-empty list must
   * hold the batch asked for.
   */
  predicate CallOk(c: BatchCall, modBatchList: seq<SourceMap>) {
    if |c.batchList| == 0 then |modBatchList| > 0 else c.batchNumber < |c.batchList|
  }

  /** The call `_getBatch` actually serves: an empty list is replaced by the first modded batch. */
  function Redirect(c: BatchCall, modBatchList: seq<SourceMap>): (d: BatchCall)
    requires CallOk(c, modBatchList)
    ensures d.batchNumber < |d.batchList|
    ensures |c.batchList| == 0 ==> d == BatchCall(0, modBatchList, Modded)
    ensures |c.batchList| > 0 ==> d == c
  {
    if |c.batchList| == 0 then BatchCall(0, modBatchList, Modded) else c
  }

  /** The session a `_getBatch` call opens. */
  function Open(c: BatchCall, modBatchList: seq<SourceMap>): (s: Session)
    requires CallOk(c, modBatchList)
    ensures SessionOk(s) && s.completed == 0
  {
    var d := Redirect(c, modBatchList);
    Session(d.batchList, d.lane, d.batchNumber, |d.batchList[d.batchNumber].keys|, 0)
  }

  predicate SessionOk(s: Session) {
    s.batchNumber < |s.batchList| && s.size == |s.batchList[s.batchNumber].keys|
  }

  type OpenSession = s: Session | SessionOk(s) witness Session([OMap([], map[])], Regular, 0, 0, 0)

  type PendingCall = c: BatchCall | 0 < |c.batchList| && c.batchNumber < |c.batchList|
    witness BatchCall(0, [OMap([], map[])], Regular)


  /** What a callback does after counting a link. */
  datatype Next = Wait | Timer(call: BatchCall) | EndCycle

  /** The hand-over after a counted link, from the session with its count already raised. */
  function AfterLink(s: Session, modBatchList: seq<SourceMap>): (n: Next)
    requires SessionOk(s)
    ensures n.Timer? ==> CallOk(n.call, modBatchList) && |n.call.batchList| > 0
  {
    if s.completed != s.size then Wait
    else if s.batchNumber != |s.batchList| - 1 then Timer(BatchCall(s.batchNumber + 1, s.batchList, s.lane))
    else if s.lane == Regular && |modBatchList| > 0 then Timer(BatchCall(0, modBatchList, Modded))
    else EndCycle
  }

  /**
   * The hand-over moves only once the whole batch has reported, and then to the next
   * batch of the lane, from the last regular batch to the first modded one, or to the
   * end of the cycle, in that order of preference.
   */
  lemma HandOver(s: Session, modBatchList: seq<SourceMap>)
    requires SessionOk(s)
    ensures AfterLink(s, modBatchList) == Wait <==> s.completed != s.size
    ensures s.completed == s.size && s.batchNumber + 1 < |s.batchList| ==>
      AfterLink(s, modBatchList) == Timer(BatchCall(s.batchNumber + 1, s.batchList, s.lane))
    ensures AfterLink(s, modBatchList).Timer? && AfterLink(s, modBatchList).call.lane != s.lane ==>
      s.lane == Regular && s.batchNumber == |s.batchList| - 1 && AfterLink(s, modBatchList).call == BatchCall(0, modBatchList, Modded)
    ensures AfterLink(s, modBatchList) == EndCycle <==>
      s.completed == s.size && s.batchNumber == |s.batchList| - 1 && (s.lane == Modded || |modBatchList| == 0)
  {
  }

  /** The live batch of a sequential cycle, with timers taken to fire at once. */
  datatype Cursor = Live(session: Session) | Finished

  predicate CursorOk(c: Cursor) {
    c.Live? ==> SessionOk(c.session) && c.session.completed < c.session.size
  }

  function Begin(reg: seq<SourceMap>, mod: seq<SourceMap>): Cursor
    requires |reg| > 0 || |mod| > 0
  {
    Live(Open(BatchCall(0, reg, Regular), mod))
  }

  /** One report fed to the live batch's callback. */
  function Step(c: Cursor, r: Report, mod: seq<SourceMap>): Cursor
    requires c.Live? ==> SessionOk(c.session)
  {
    match c
    case Finished => Finished
    case Live(s) =>
      if SequentialHandling(r) == Emit then c
      else
        var t := s.(completed := s.completed + 1);
        match AfterLink(t, mod)
        case Wait => Live(t)
        case Timer(call) => Live(Open(call, mod))
        case EndCycle => Finished
  }

  predicate NonEmptyBatches(bs: seq<SourceMap>) {
    forall i :: 0 <= i < |bs| ==> |bs[i].keys| >= 1
  }

  /** The reports left before the cycle ends: the rest of this batch, the later batches and, from the regular lane, the modded lane. */
  function Remaining(c: Cursor, mod: seq<SourceMap>): nat
    requires c.Live? ==> SessionOk(c.session) && c.session.completed <= c.session.size
  {
    match c
    case Finished => 0
    case Live(s) =>
      (s.size - s.completed) + |LinksOf(s.batchList[s.batchNumber + 1..])| + (if s.lane == Regular then |LinksOf(mod)| else 0)
  }

  lemma {:induction false} LinksOfConcat(a: seq<SourceMap>, b: seq<SourceMap>)
    ensures LinksOf(a + b) == LinksOf(a) + LinksOf(b)
  {
    if b != [] {
      var n := |b| - 1;
      LinksOfConcat(a, b[..n]);
      assert (a + b)[..|a + b| - 1] == a + b[..n];
    } else {
      assert a + b == a;
    }
  }

  lemma LinksOfCons(bs: seq<SourceMap>)
    requires bs != []
    ensures |LinksOf(bs)| == |bs[0].keys| + |LinksOf(bs[1..])|
  {
    LinksOfConcat([bs[0]], bs[1..]);
    assert [bs[0]] + bs[1..] == bs;
    assert [bs[0]][..0] == [];
  }

  /** The links of the batches after index `b`: the next batch's links, then those after it. */
  lemma LaterLinks(bs: seq<SourceMap>, b: nat)
    requires b + 1 < |bs|
    ensures |LinksOf(bs[b + 1..])| == |bs[b + 1].keys| + |LinksOf(bs[b + 2..])|
  {
    LinksOfCons(bs[b + 1..]);
    assert bs[b + 1..][1..] == bs[b + 2..];
  }

  /** The ending of `StepRemaining` for a report that is counted. */
  predicate CountedStepOk(c: Cursor, r: Report, mod: seq<SourceMap>)
    requires CursorOk(c) && c.Live?
  {
    var d := Step(c, r, mod);
    && CursorOk(d)
    && (d.Live? ==> NonEmptyBatches(d.session.batchList) && (d.session.lane == Modded ==> d.session.batchList == mod))
    && Remaining(d, mod) == Remaining(c, mod) - 1
  }

  lemma StepWithinBatch(c: Cursor, r: Report, mod: seq<SourceMap>)
    requires CursorOk(c) && c.Live? && !r.ArticleFound?
    requires NonEmptyBatches(c.session.batchList) && (c.session.lane == Modded ==> c.session.batchList == mod)
    requires c.session.completed + 1 != c.session.size
    ensures CountedStepOk(c, r, mod)
  {
    assert Step(c, r, mod) == Live(c.session.(completed := c.session.completed + 1));
  }

  lemma StepToNextBatch(c: Cursor, r: Report, mod: seq<SourceMap>)
    requires CursorOk(c) && c.Live? && !r.ArticleFound?
    requires NonEmptyBatches(c.session.batchList) && (c.session.lane == Modded ==> c.session.batchList == mod)
    requires c.session.completed + 1 == c.session.size && c.session.batchNumber != |c.session.batchList| - 1
    ensures CountedStepOk(c, r, mod)
  {
    var s := c.session;
    var bs := s.batchList;
    var b := s.batchNumber;
    assert Step(c, r, mod) == Live(Session(bs, s.lane, b + 1, |bs[b + 1].keys|, 0));
    LaterLinks(bs, b);
  }

  lemma StepToModdedLane(c: Cursor, r: Report, mod: seq<SourceMap>)
    requires CursorOk(c) && c.Live? && !r.ArticleFound?
    requires NonEmptyBatches(c.session.batchList) && NonEmptyBatches(mod)
    requires c.session.completed + 1 == c.session.size && c.session.batchNumber == |c.session.batchList| - 1
    requires c.session.lane == Regular && |mod| > 0
    ensures CountedStepOk(c, r, mod)
  {
    assert Step(c, r, mod) == Live(Session(mod, Modded, 0, |mod[0].keys|, 0));
    LinksOfCons(mod);
    assert c.session.batchList[c.session.batchNumber + 1..] == [];
  }

  lemma StepToEnd(c: Cursor, r: Report, mod: seq<SourceMap>)
    requires CursorOk(c) && c.Live? && !r.ArticleFound?
    requires c.session.completed + 1 == c.session.size && c.session.batchNumber == |c.session.batchList| - 1
    requires c.session.lane == Modded || |mod| == 0
    ensures CountedStepOk(c, r, mod)
  {
    assert Step(c, r, mod) == Finished;
    assert c.session.batchList[c.session.batchNumber + 1..] == [];
    if c.session.lane == Regular {
      assert mod == [];
    }
  }

  /** Every counted report brings the end of the cycle one report closer; an article changes nothing. */
  lemma StepRemaining(c: Cursor, r: Report, mod: seq<SourceMap>)
    requires CursorOk(c) && c.Live?
    requires NonEmptyBatches(c.session.batchList) && NonEmptyBatches(mod)
    requires c.session.lane == Modded ==> c.session.batchList == mod
    ensures r.ArticleFound? ==> Step(c, r, mod) == c
    ensures !r.ArticleFound? ==> CountedStepOk(c, r, mod)
  {
    if !r.ArticleFound? {
      var s := c.session;
      if s.completed + 1 != s.size {
        StepWithinBatch(c, r, mod);
      } else if s.batchNumber != |s.batchList| - 1 {
        StepToNextBatch(c, r, mod);
      } else if s.lane == Regular && |mod| > 0 {
        StepToModdedLane(c, r, mod);
      } else {
        StepToEnd(c, r, mod);
      }
    }
  }

  /** Reports that the callback counts as links. */
  function NonArticles(rs: seq<Report>): nat {
    if rs == [] then 0 else NonArticles(rs[..|rs| - 1]) + (if rs[|rs| - 1].ArticleFound? then 0 else 1)
  }

  /** The cursor after feeding `rs` in order. */
  function Drive(c: Cursor, rs: seq<Report>, mod: seq<SourceMap>): (d: Cursor)
    requires CursorOk(c)
    requires c.Live? ==> NonEmptyBatches(c.session.batchList) && (c.session.lane == Modded ==> c.session.batchList == mod)
    requires NonEmptyBatches(mod)
    ensures CursorOk(d)
    ensures d.Live? ==> NonEmptyBatches(d.session.batchList) && (d.session.lane == Modded ==> d.session.batchList == mod)
    ensures c.Live? && d.Live? ==> Remaining(d, mod) == Remaining(c, mod) - NonArticles(rs)
    ensures c.Live? && d.Finished? ==> NonArticles(rs) >= Remaining(c, mod)
  {
    if rs == [] then c
    else
      var n := |rs| - 1;
      var e := Drive(c, rs[..n], mod);
      if e.Finished? then Finished
      else
        StepRemaining(e, rs[n], mod);
        Step(e, rs[n], mod)
  }

  lemma BeginConsistent(reg: seq<SourceMap>, mod: seq<SourceMap>)
    requires |reg| > 0 || |mod| > 0
    requires NonEmptyBatches(reg) && NonEmptyBatches(mod)
    ensures BeginOk(reg, mod)
  {
  }

  lemma BeginRegular(reg: seq<SourceMap>, mod: seq<SourceMap>)
    requires |reg| > 0
    ensures Remaining(Begin(reg, mod), mod) == |LinksOf(reg)| + |LinksOf(mod)|
  {
    var s := Session(reg, Regular, 0, |reg[0].keys|, 0);
    assert Begin(reg, mod) == Live(s);
    assert s.batchList[s.batchNumber + 1..] == reg[1..];
    assert Remaining(Live(s), mod) == |reg[0].keys| + |LinksOf(reg[1..])| + |LinksOf(mod)|;
    LinksOfCons(reg);
  }

  lemma BeginModded(reg: seq<SourceMap>, mod: seq<SourceMap>)
    requires |reg| == 0 && |mod| > 0
    ensures Remaining(Begin(reg, mod), mod) == |LinksOf(reg)| + |LinksOf(mod)|
  {
    assert Begin(reg, mod).session == Session(mod, Modded, 0, |mod[0].keys|, 0);
    LinksOfCons(mod);
    assert LinksOf(reg) == [];
  }

  /**
   * A sequential cycle whose batches all hold links ends after exactly as many counted
   * reports as there are links in both lanes: not one report sooner, and at the latest then.
   */
  lemma SequentialCycleEnds(reg: seq<SourceMap>, mod: seq<SourceMap>, rs: seq<Report>)
    requires |reg| > 0 || |mod| > 0
    requires NonEmptyBatches(reg) && NonEmptyBatches(mod)
    ensures BeginOk(reg, mod)
    ensures Drive(Begin(reg, mod), rs, mod).Finished? <==> NonArticles(rs) >= |LinksOf(reg)| + |LinksOf(mod)|
  {
    BeginConsistent(reg, mod);
    var total := |LinksOf(reg)| + |LinksOf(mod)|;
    if |reg| > 0 {
      BeginRegular(reg, mod);
    } else {
      BeginModded(reg, mod);
    }
    DriveEnds(Begin(reg, mod), rs, mod, total);
  }

  lemma DriveEnds(c: Cursor, rs: seq<Report>, mod: seq<SourceMap>, total: nat)
    requires CursorOk(c) && c.Live?
    requires NonEmptyBatches(c.session.batchList) && (c.session.lane == Modded ==> c.session.batchList == mod)
    requires NonEmptyBatches(mod)
    requires Remaining(c, mod) == total
    ensures Drive(c, rs, mod).Finished? <==> NonArticles(rs) >= total
  {
    var d := Drive(c, rs, mod);
    if d.Live? {
      assert Remaining(d, mod) >= 1;
    }
  }

  predicate BeginOk(reg: seq<SourceMap>, mod: seq<SourceMap>)
    requires |reg| > 0 || |mod| > 0
  {
    && CursorOk(Begin(reg, mod))
    && NonEmptyBatches(Begin(reg, mod).session.batchList)
    && (Begin(reg, mod).session.lane == Modded ==> Begin(reg, mod).session.batchList == mod)
    && NonEmptyBatches(mod)
  }

  // ----------------------------------------------------------- bounded pool

  /** A batch, named by its lane and its index in that lane's list. */
  datatype BatchRef = BatchRef(lane: Lane, index: nat)

  /**
   * What one `_getBatchParallel` call closes over: the lists it deploys from, the
   * `totalBatchLengths`, `completedBatches` and `willCompleteBatch` counters, and the
   * queues of indices not yet deployed.
   */
  datatype Pool = Pool(
    regList: seq<SourceMap>,
    modList: seq<SourceMap>,
    total: nat,
    completedBatches: nat,
    willComplete: nat,
    regIndices: seq<nat>,
    modIndices: seq<nat>)

  function Range(lo: nat, hi: nat): (r: seq<nat>)
    ensures |r| == if lo <= hi then hi - lo else 0
    ensures forall i :: 0 <= i < |r| ==> r[i] == lo + i
  {
    seq(if lo <= hi then hi - lo else 0, i requires 0 <= i => lo + i)
  }

  /** Consecutive ranges join. */
  lemma RangeAppend(lo: nat, mid: nat, hi: nat)
    requires lo <= mid <= hi
    ensures Range(lo, hi) == Range(lo, mid) + Range(mid, hi)
  {
    assert forall i :: 0 <= i < hi - lo ==> Range(lo, hi)[i] == (Range(lo, mid) + Range(mid, hi))[i];
  }

  function Refs(lane: Lane, indices: seq<nat>): (r: seq<BatchRef>)
    ensures |r| == |indices| && forall i :: 0 <= i < |r| ==> r[i] == BatchRef(lane, indices[i])
  {
    seq(|indices|, i requires 0 <= i < |indices| => BatchRef(lane, indices[i]))
  }

  /** The batches still to be deployed, in the order they will be. */
  function Queue(p: Pool): seq<BatchRef> {
    Refs(Regular, p.regIndices) + Refs(Modded, p.modIndices)
  }

  /** Every regular batch in order, then every modded batch in order. */
  function Order(regCount: nat, modCount: nat): seq<BatchRef> {
    Refs(Regular, Range(0, regCount)) + Refs(Modded, Range(0, modCount))
  }

  /** The list a pool deploys a lane's batches from. */
  function ListOf(p: Pool, lane: Lane): seq<SourceMap> {
    if lane == Regular then p.regList else p.modList
  }

  predicate RefOk(p: Pool, r: BatchRef) {
    r.index < |ListOf(p, r.lane)|
  }

  function Min(a: nat, b: nat): nat {
    if a <= b then a else b
  }

  /** A pool's queue holds in-range indices, and exactly the batches not yet counted as started. */
  predicate PoolOk(p: Pool) {
    && p.total == |p.regList| + |p.modList|
    && (forall i :: 0 <= i < |p.regIndices| ==> p.regIndices[i] < |p.regList|)
    && (forall i :: 0 <= i < |p.modIndices| ==> p.modIndices[i] < |p.modList|)
    && |Queue(p)| + Min(p.willComplete, p.total) == p.total
  }

  type LivePool = p: Pool | PoolOk(p) witness Pool([], [], 0, 0, 0, [], [])

  function NewPool(reg: seq<SourceMap>, mod: seq<SourceMap>): Pool {
    Pool(reg, mod, |reg| + |mod|, 0, 0, Range(0, |reg|), Range(0, |mod|))
  }

  /** A new pool is consistent and queues every batch, regular ones first. */
  lemma NewPoolQueue(reg: seq<SourceMap>, mod: seq<SourceMap>)
    ensures PoolOk(NewPool(reg, mod))
    ensures Queue(NewPool(reg, mod)) == Order(|reg|, |mod|)
  {
  }

  /** One turn of `spawn`'s loop: count a batch as started and take the next index, regular first. */
  function SpawnOne(p: Pool): (Pool, Option<BatchRef>) {
    var q := p.(willComplete := p.willComplete + 1);
    if |p.regIndices| > 0 then (q.(regIndices := p.regIndices[1..]), Some(BatchRef(Regular, p.regIndices[0])))
    else if |p.modIndices| > 0 then (q.(modIndices := p.modIndices[1..]), Some(BatchRef(Modded, p.modIndices[0])))
    else (q, None)
  }

  function RefList(r: Option<BatchRef>): seq<BatchRef> {
    if r.Some? then [r.value] else []
  }

  /**
   * `spawn(count)` in closed form: `count` turns (none if `count` is not positive), which
   * take the first regular indices and then the first modded ones, as many as remain.
   */
  function Spawned(p: Pool, count: int): (Pool, seq<BatchRef>) {
    var c := if count <= 0 then 0 else count;
    var nr := Min(c, |p.regIndices|);
    var nm := Min(c - nr, |p.modIndices|);
    (p.(willComplete := p.willComplete + c, regIndices := Skip(p.regIndices, nr), modIndices := Skip(p.modIndices, nm)),
     Refs(Regular, p.regIndices[..nr]) + Refs(Modded, p.modIndices[..nm]))
  }

  /**
   * `s` without its first `n` elements (`s[n..]`, see `SpawnedLeaves`), written element
   * by element and with skipping nothing kept apart: in that form the solver cannot
   * shift indices by zero over and over as it can with slices.
   */
  function Skip<T>(s: seq<T>, n: nat): seq<T>
    requires n <= |s|
  {
    if n == 0 then s else seq(|s| - n, i requires 0 <= i < |s| - n => s[n + i])
  }

  /** The index lists `spawn(count)` leaves behind, as slices. */
  lemma SpawnedLeaves(p: Pool, count: int)
    ensures var c := if count <= 0 then 0 else count;
      var nr := Min(c, |p.regIndices|);
      && Spawned(p, count).0.regIndices == p.regIndices[nr..]
      && Spawned(p, count).0.modIndices == p.modIndices[Min(c - nr, |p.modIndices|)..]
  {
  }

  lemma RefsAppend(lane: Lane, a: seq<nat>, b: seq<nat>)
    ensures Refs(lane, a + b) == Refs(lane, a) + Refs(lane, b)
  {
    assert forall i :: 0 <= i < |a + b| ==> Refs(lane, a + b)[i] == (Refs(lane, a) + Refs(lane, b))[i];
  }

  /**
   * `spawn(count)` deploys the first `count` queued batches (all of them if fewer) in
   * queue order, counts `count` batches as started, and keeps the pool consistent.
   */
  lemma SpawnedTakesPrefix(p: Pool, count: int)
    requires PoolOk(p)
    ensures var (q, r) := Spawned(p, count);
      && PoolOk(q)
      && r + Queue(q) == Queue(p)
      && |r| == Min(if count <= 0 then 0 else count, |Queue(p)|)
      && q.willComplete == p.willComplete + (if count <= 0 then 0 else count)
      && q.completedBatches == p.completedBatches && q.regList == p.regList && q.modList == p.modList
      && (forall k :: 0 <= k < |r| ==> RefOk(p, r[k]))
  {
    var c := if count <= 0 then 0 else count;
    var (q, r) := Spawned(p, count);
    SpawnedSplitsQueue(p, count);
    SpawnedLeaves(p, count);
    assert |Queue(p)| == |r| + |Queue(q)|;
    assert |r| == Min(c, |Queue(p)|);
    assert q.total == p.total && q.willComplete == p.willComplete + c;
    if p.willComplete >= p.total {
      assert |Queue(p)| == 0;
    }
    assert |Queue(q)| + Min(q.willComplete, q.total) == q.total;
    forall k | 0 <= k < |r|
      ensures RefOk(p, r[k])
    {
      assert r[k] == Queue(p)[k];
    }
  }

  /** The batches `spawn(count)` takes are the head of the queue, and the pool keeps the rest. */
  lemma SpawnedSplitsQueue(p: Pool, count: int)
    ensures var (q, r) := Spawned(p, count);
      && r + Queue(q) == Queue(p)
      && |r| == Min(if count <= 0 then 0 else count, |Queue(p)|)
  {
    var c := if count <= 0 then 0 else count;
    var reg, mod := p.regIndices, p.modIndices;
    var nr := Min(c, |reg|);
    var nm := Min(c - nr, |mod|);
    var (q, r) := Spawned(p, count);
    SpawnedLeaves(p, count);
    if nr < |reg| {
      assert mod[..0] == [] && mod[0..] == mod;
      assert r == Refs(Regular, reg[..nr]) + [];
      assert reg == reg[..nr] + reg[nr..];
      RefsAppend(Regular, reg[..nr], reg[nr..]);
      Regroup(Refs(Regular, reg[..nr]), Refs(Regular, reg[nr..]), Refs(Modded, mod));
      assert r == Refs(Regular, reg[..nr]);
      assert Queue(q) == Refs(Regular, reg[nr..]) + Refs(Modded, mod);
      assert r + Queue(q) == Refs(Regular, reg[..nr]) + (Refs(Regular, reg[nr..]) + Refs(Modded, mod));
      assert Refs(Regular, reg[..nr]) + Refs(Regular, reg[nr..]) == Refs(Regular, reg);
    } else {
      assert reg[..nr] == reg && reg[nr..] == [];
      assert Queue(q) == [] + Refs(Modded, mod[nm..]);
      assert mod == mod[..nm] + mod[nm..];
      RefsAppend(Modded, mod[..nm], mod[nm..]);
      Regroup(Refs(Regular, reg), Refs(Modded, mod[..nm]), Refs(Modded, mod[nm..]));
      assert r == Refs(Regular, reg) + Refs(Modded, mod[..nm]);
      assert Queue(q) == Refs(Modded, mod[nm..]);
      assert Refs(Modded, mod[..nm]) + Refs(Modded, mod[nm..]) == Refs(Modded, mod);
    }
  }

  /** Writing back the element already there changes nothing. */
  lemma UpdateSame<T>(s: seq<T>, i: nat)
    requires i < |s|
    ensures s[i := s[i]] == s
  {
  }

  /** Concatenation regroups; stated once so that the proofs that use it need no element-wise reasoning. */
  lemma Regroup<T>(a: seq<T>, b: seq<T>, c: seq<T>)
    ensures a + b + c == a + (b + c)
  {
  }

  /** No turns change nothing. */
  lemma SpawnedNone(p: Pool, count: int)
    requires count <= 0
    ensures Spawned(p, count) == (p, [])
  {
    var (q, r) := Spawned(p, count);
    SkipNone(p.regIndices);
    SkipNone(p.modIndices);
    assert q.regIndices == p.regIndices && q.modIndices == p.modIndices && q.willComplete == p.willComplete;
    assert q == p;
    assert Refs(Regular, p.regIndices[..0]) == [] && Refs(Modded, p.modIndices[..0]) == [];
    assert r == [] + [];
  }

  /** One turn of the loop is the closed form with `count` 1. */
  lemma SpawnOneIsFirstTurn(p: Pool)
    ensures SpawnOne(p).0 == Spawned(p, 1).0 && RefList(SpawnOne(p).1) == Spawned(p, 1).1
  {
    SpawnedLeaves(p, 1);
    if |p.regIndices| > 0 {
      assert p.regIndices[..1] == [p.regIndices[0]];
      assert p.modIndices[..0] == [] && p.modIndices[0..] == p.modIndices;
    } else if |p.modIndices| > 0 {
      assert p.modIndices[..1] == [p.modIndices[0]];
      assert p.regIndices[..0] == [] && p.regIndices[0..] == p.regIndices;
    } else {
      assert p.regIndices[0..] == p.regIndices && p.modIndices[0..] == p.modIndices;
    }
  }

  /** `count + 1` turns are `count` turns followed by one more. */
  lemma SpawnedSucc(p: Pool, count: nat)
    ensures var (cur, refs) := Spawned(p, count);
      Spawned(p, count + 1) == (Spawned(cur, 1).0, refs + Spawned(cur, 1).1)
  {
    if count < |p.regIndices| {
      SpawnedSuccRegular(p, count);
    } else if count - |p.regIndices| < |p.modIndices| {
      SpawnedSuccModded(p, count);
    } else {
      SpawnedSuccDrained(p, count);
    }
  }

  /** `SpawnedSucc` while regular indices remain: the next turn takes `regIndices[count]`. */
  lemma SpawnedSuccRegular(p: Pool, count: nat)
    requires count < |p.regIndices|
    ensures var (cur, refs) := Spawned(p, count);
      Spawned(p, count + 1) == (Spawned(cur, 1).0, refs + Spawned(cur, 1).1)
  {
    var reg, mod := p.regIndices, p.modIndices;
    var (cur, refs) := Spawned(p, count);
    var (next, more) := Spawned(cur, 1);
    var (q, r) := Spawned(p, count + 1);
    SkipNone(mod);
    SkipSkip(reg, count, 1);
    assert cur.regIndices == Skip(reg, count) && cur.modIndices == mod;
    assert next.regIndices == q.regIndices && next.modIndices == q.modIndices;
    assert more == Refs(Regular, [reg[count]]) by {
      assert Skip(reg, count)[..1] == [reg[count]] && mod[..0] == [];
    }
    assert refs == Refs(Regular, reg[..count]) by {
      assert mod[..0] == [];
    }
    assert r == Refs(Regular, reg[..count + 1]) by {
      assert mod[..0] == [];
    }
    assert reg[..count + 1] == reg[..count] + [reg[count]];
    RefsAppend(Regular, reg[..count], [reg[count]]);
  }

  /** `SpawnedSucc` once the regular indices are used up: the next turn takes a modded one. */
  lemma SpawnedSuccModded(p: Pool, count: nat)
    requires |p.regIndices| <= count < |p.regIndices| + |p.modIndices|
    ensures var (cur, refs) := Spawned(p, count);
      Spawned(p, count + 1) == (Spawned(cur, 1).0, refs + Spawned(cur, 1).1)
  {
    var reg, mod := p.regIndices, p.modIndices;
    var nm := count - |reg|;
    var (cur, refs) := Spawned(p, count);
    var (next, more) := Spawned(cur, 1);
    var (q, r) := Spawned(p, count + 1);
    assert |cur.regIndices| == 0 && cur.modIndices == Skip(mod, nm);
    assert next.regIndices == cur.regIndices == q.regIndices;
    assert next.modIndices == q.modIndices by {
      SkipSkip(mod, nm, 1);
    }
    assert more == Refs(Modded, [mod[nm]]) by {
      assert cur.regIndices[..0] == [] && Skip(mod, nm)[..1] == [mod[nm]];
    }
    assert refs == Refs(Regular, reg) + Refs(Modded, mod[..nm]);
    assert r == Refs(Regular, reg) + Refs(Modded, mod[..nm + 1]);
    assert mod[..nm + 1] == mod[..nm] + [mod[nm]];
    RefsAppend(Modded, mod[..nm], [mod[nm]]);
    Regroup(Refs(Regular, reg), Refs(Modded, mod[..nm]), Refs(Modded, [mod[nm]]));
  }

  /** `SpawnedSucc` with the queue drained: the next turn only counts. */
  lemma SpawnedSuccDrained(p: Pool, count: nat)
    requires |p.regIndices| + |p.modIndices| <= count
    ensures var (cur, refs) := Spawned(p, count);
      Spawned(p, count + 1) == (Spawned(cur, 1).0, refs + Spawned(cur, 1).1)
  {
    var (cur, refs) := Spawned(p, count);
    var (next, more) := Spawned(cur, 1);
    var (q, r) := Spawned(p, count + 1);
    SkipNone<nat>([]);
    assert cur.regIndices == [] && cur.modIndices == [];
    assert next.regIndices == [] && next.modIndices == [];
    assert q.regIndices == [] && q.modIndices == [];
    assert more == [];
    assert r == refs && refs + more == refs && next == q;
  }

  /** Skipping nothing keeps the sequence. */
  lemma SkipNone<T>(s: seq<T>)
    ensures Skip(s, 0) == s
  {
  }

  /** Skipping twice is skipping both counts at once. */
  lemma SkipSkip<T>(s: seq<T>, a: nat, b: nat)
    requires a + b <= |s|
    ensures Skip(Skip(s, a), b) == Skip(s, a + b)
  {
  }

  /** The opening `spawn(parallelBatches)`: at most that many batches, regular before modded, in order. */
  lemma InitialSpawn(reg: seq<SourceMap>, mod: seq<SourceMap>, width: int)
    requires width > 0
    ensures var (q, r) := Spawned(NewPool(reg, mod), width);
      && r == Order(|reg|, |mod|)[..Min(width, |reg| + |mod|)]
      && q.willComplete == width
  {
    NewPoolQueue(reg, mod);
    SpawnedTakesPrefix(NewPool(reg, mod), width);
    var (q, r) := Spawned(NewPool(reg, mod), width);
    assert Order(|reg|, |mod|) == r + Queue(q);
  }

  /** Every batch of the order exists in a new pool's lists. */
  lemma OrderRefsOk(reg: seq<SourceMap>, mod: seq<SourceMap>)
    ensures forall k :: 0 <= k < |Order(|reg|, |mod|)| ==> RefOk(NewPool(reg, mod), Order(|reg|, |mod|)[k])
  {
    OrderRegularFirst(|reg|, |mod|);
  }

  /** In the deployment order no modded batch comes before a regular one. */
  lemma OrderRegularFirst(regCount: nat, modCount: nat)
    ensures forall i, j :: 0 <= i < j < |Order(regCount, modCount)| && Order(regCount, modCount)[j].lane == Regular ==>
      Order(regCount, modCount)[i].lane == Regular && Order(regCount, modCount)[i].index < Order(regCount, modCount)[j].index
    ensures forall k :: 0 <= k < |Order(regCount, modCount)| ==>
      Order(regCount, modCount)[k] == (if k < regCount then BatchRef(Regular, k) else BatchRef(Modded, k - regCount))
  {
  }
}
