/** The collector as a protocol: the kernel adds to its counters at any moment,
    between any two steps of the daemon's read, remove, resolve, accumulate,
    publish and flush loops. */
module Collector {
  import opened Counters
  import opened MapSum
  import opened Rollup

  datatype Direction = Ingress | Egress

  datatype TrafficKey = TrafficKey(tgid: int, dir: Direction, scope: Scope)

  /** What stays fixed of a byte from the kernel to the store. */
  datatype Lane = Lane(dir: Direction, scope: Scope)

  datatype Delta = Delta(flow: Flow, bytes: Bytes)

  datatype Account = KernelCounted | Orphaned | Raced | Unresolved

  /** A line of the books: bytes entered under an account. */
  datatype Posting = Posting(account: Account, lane: Lane, amount: nat)

  /** What a CPU's lookup of a counter came to: the counter's slot, which a
      removal detaches from the map, or nothing. */
  datatype Held = Found(key: TrafficKey, attached: bool) | Missing(key: TrafficKey)

  /** Where the drain thread stands, with what its loop has still to visit. */
  datatype Pc =
    | Idle
    | Draining(bucket: int, keys: seq<TrafficKey>)
    | Got(bucket: int, keys: seq<TrafficKey>, read: nat)
    | Removed(bucket: int, keys: seq<TrafficKey>, read: nat)
    | Folding(bucket: int, flows: seq<Flow>, deltas: seq<Delta>)
    | Published
    | Flushing(open: int, closed: seq<Key>, now: int)

  datatype Pipe = Pipe(
    traffic: map<TrafficKey, nat>,
    // The kernel's unfinished additions, one to a CPU.
    held: map<int, Held>,
    cache: map<int, int>,
    polled: map<Flow, Bytes>,
    acc: Table,
    pc: Pc,
    clock: int,
    // When everything older was last flushed.
    swept: int,
    // What the store took, what it failed to take, and what was published.
    stored: Table,
    unstored: Table,
    published: seq<Delta>,
    journal: seq<Posting>)

  function Start(clock: int): Pipe {
    Pipe(map[], map[], map[], map[], map[], Idle, clock, clock, map[], map[], [], [])
  }

  /** The minute `now` falls in, by its first second. */
  function CurrentMinute(now: int): int {
    now - now % 60
  }

  datatype Action =
    | KernelLookup(cpu: int, key: TrafficKey)
    | KernelAdd(cpu: int, bytes: nat, room: bool)
    | Enrich(tgid: int, identity: Option<int>)
    | BeginDrain(now: int, keys: seq<TrafficKey>)
    | Get(readable: bool)
    | Remove(removed: bool)
    | Resolve(identity: Option<int>)
    | EndDrain(order: seq<Flow>)
    | Fold
    | Publish
    | BeginFlush(now: int, closed: seq<Key>)
    | Flush(written: bool)
    | EndTick(dead: set<int>)

  function AddTo(b: Bytes, dir: Direction, amount: nat): Bytes {
    if dir == Ingress then b.(ingress := b.ingress + amount) else b.(egress := b.egress + amount)
  }

  function Of(b: Bytes, dir: Direction): nat {
    if dir == Ingress then b.ingress else b.egress
  }

  function LaneOf(key: TrafficKey): Lane {
    Lane(key.dir, key.scope)
  }

  /** `cache`, else what enrichment yields. */
  function Resolved(p: Pipe, tgid: int, identity: Option<int>): Option<int> {
    if tgid in p.cache then Some(p.cache[tgid]) else identity
  }

  function Caching(p: Pipe, tgid: int, identity: Option<int>): map<int, int> {
    if Resolved(p, tgid, identity).Some? then p.cache[tgid := Resolved(p, tgid, identity).value] else p.cache
  }

  /** When an action may happen. The kernel's may happen whenever. */
  predicate Enabled(p: Pipe, a: Action) {
    match a
    case KernelLookup(cpu, _) => cpu !in p.held
    case KernelAdd(cpu, bytes, _) => cpu in p.held && 0 < bytes
    case Enrich(_, _) => p.pc.Idle?
    case BeginDrain(now, _) => p.pc.Idle? && p.clock <= now
    case Get(_) => p.pc.Draining? && p.pc.keys != []
    case Remove(_) => p.pc.Got?
    case Resolve(_) => p.pc.Removed?
    case EndDrain(order) => p.pc.Draining? && p.pc.keys == [] && Lists(order, p.polled.Keys)
    case Fold => p.pc.Folding? && p.pc.flows != [] && p.pc.flows[0] in p.polled
    case Publish => p.pc.Folding? && p.pc.flows == []
    case BeginFlush(now, order) =>
      p.pc.Published? && p.clock <= now
      && Lists(order, set k | k in p.acc && k.bucket < CurrentMinute(now))
    case Flush(_) => p.pc.Flushing? && p.pc.closed != [] && p.pc.closed[0] in p.acc
    case EndTick(_) => p.pc.Flushing? && p.pc.closed == []
  }

  /** Each element once, in some order. */
  predicate Lists<T(==)>(order: seq<T>, all: set<T>) {
    && (forall x :: x in order ==> x in all)
    && (forall x :: x in all ==> x in order)
    && (forall i, j :: 0 <= i < j < |order| ==> order[i] != order[j])
  }

  function NextKey(pc: Pc): Pc
    requires (pc.Draining? || pc.Got? || pc.Removed?) && pc.keys != []
  {
    Draining(pc.bucket, pc.keys[1..])
  }

  predicate KeysLeft(pc: Pc) {
    pc.Got? || pc.Removed? ==> pc.keys != []
  }

  function LookedUp(traffic: map<TrafficKey, nat>, key: TrafficKey): Held {
    if key in traffic then Found(key, true) else Missing(key)
  }

  /** Removing a counter leaves the slots looked up before detached from the map. */
  function Detached(held: map<int, Held>, key: TrafficKey): map<int, Held> {
    map cpu | cpu in held :: if held[cpu].Found? && held[cpu].key == key then Found(key, false) else held[cpu]
  }

  /** `key`'s counter with `bytes` more. */
  function Counted(traffic: map<TrafficKey, nat>, key: TrafficKey, bytes: nat): map<TrafficKey, nat> {
    traffic[key := (if key in traffic then traffic[key] else 0) + bytes]
  }

  /** A full map refuses a new key, and those bytes are never counted; a detached
      slot takes them where nobody will read them. */
  function Added(p: Pipe, h: Held, bytes: nat, room: bool): Pipe {
    var counted := Posting(KernelCounted, LaneOf(h.key), bytes);
    if h.Found? && !h.attached then
      p.(journal := p.journal + [counted] + [Posting(Orphaned, LaneOf(h.key), bytes)])
    else if h.Found? || h.key in p.traffic || room then
      p.(traffic := Counted(p.traffic, h.key, bytes), journal := p.journal + [counted])
    else p
  }

  /** A flow's sum with `bytes` more in one direction. */
  function Tallied(polled: map<Flow, Bytes>, flow: Flow, dir: Direction, bytes: nat): map<Flow, Bytes> {
    polled[flow := AddTo(if flow in polled then polled[flow] else Bytes(0, 0), dir, bytes)]
  }

  function AfterGet(p: Pipe, readable: bool): Pipe
    requires p.pc.Draining? && p.pc.keys != []
  {
    var key := p.pc.keys[0];
    if readable && key in p.traffic then p.(pc := Got(p.pc.bucket, p.pc.keys, p.traffic[key]))
    else p.(pc := NextKey(p.pc))
  }

  function AfterRemove(p: Pipe, removed: bool): Pipe
    requires p.pc.Got? && p.pc.keys != []
  {
    var key := p.pc.keys[0];
    if !removed || key !in p.traffic then p.(pc := NextKey(p.pc))
    else
      // Removing takes along whatever was added since the read.
      var missed := if p.traffic[key] >= p.pc.read then p.traffic[key] - p.pc.read else 0;
      p.(traffic := p.traffic - {key}, held := Detached(p.held, key),
         journal := p.journal + [Posting(Raced, LaneOf(key), missed)],
         pc := if p.pc.read == 0 then NextKey(p.pc) else Removed(p.pc.bucket, p.pc.keys, p.pc.read))
  }

  function AfterResolve(p: Pipe, identity: Option<int>): Pipe
    requires p.pc.Removed? && p.pc.keys != []
  {
    var key := p.pc.keys[0];
    var id := Resolved(p, key.tgid, identity);
    if id.None? then
      p.(journal := p.journal + [Posting(Unresolved, LaneOf(key), p.pc.read)], pc := NextKey(p.pc))
    else
      p.(cache := Caching(p, key.tgid, identity),
         polled := Tallied(p.polled, Flow(id.value, key.scope), key.dir, p.pc.read), pc := NextKey(p.pc))
  }

  function AfterFold(p: Pipe): Pipe
    requires p.pc.Folding? && p.pc.flows != [] && p.pc.flows[0] in p.polled
  {
    var flow := p.pc.flows[0];
    var bytes := p.polled[flow];
    p.(acc := Accumulate(p.acc, Key(p.pc.bucket, flow), bytes), polled := p.polled - {flow},
       pc := Folding(p.pc.bucket, p.pc.flows[1..], p.pc.deltas + [Delta(flow, bytes)]))
  }

  /** An entry leaves the accumulator before it is written, so it can be written
      at most once; a failed write ends the tick. */
  function AfterFlush(p: Pipe, written: bool): Pipe
    requires p.pc.Flushing? && p.pc.closed != [] && p.pc.closed[0] in p.acc
  {
    var key := p.pc.closed[0];
    var taken := p.(acc := p.acc - {key});
    if written then
      taken.(stored := Accumulate(p.stored, key, p.acc[key]),
             pc := Flushing(p.pc.open, p.pc.closed[1..], p.pc.now))
    else taken.(unstored := Accumulate(p.unstored, key, p.acc[key]), pc := Idle)
  }

  function Next(p: Pipe, a: Action): Pipe
    requires Enabled(p, a) && KeysLeft(p.pc)
  {
    match a
    case KernelLookup(cpu, key) => p.(held := p.held[cpu := LookedUp(p.traffic, key)])
    case KernelAdd(cpu, bytes, room) => Added(p.(held := p.held - {cpu}), p.held[cpu], bytes, room)
    case Enrich(tgid, identity) => p.(cache := Caching(p, tgid, identity))
    case BeginDrain(now, keys) => p.(pc := Draining(CurrentMinute(now), keys), clock := now)
    case Get(readable) => AfterGet(p, readable)
    case Remove(removed) => AfterRemove(p, removed)
    case Resolve(identity) => AfterResolve(p, identity)
    case EndDrain(order) => p.(pc := Folding(p.pc.bucket, order, []))
    case Fold => AfterFold(p)
    case Publish => p.(published := p.published + p.pc.deltas, pc := Published)
    case BeginFlush(now, order) => p.(pc := Flushing(CurrentMinute(now), order, now), clock := now)
    case Flush(written) => AfterFlush(p, written)
    case EndTick(dead) => p.(cache := p.cache - dead, swept := p.pc.now, pc := Idle)
  }

  /** `Next` action by action, for the actions that do much. */
  lemma NextOf(p: Pipe, a: Action)
    requires Enabled(p, a) && KeysLeft(p.pc)
    ensures a.KernelAdd? ==> Next(p, a) == Added(p.(held := p.held - {a.cpu}), p.held[a.cpu], a.bytes, a.room)
    ensures a.Get? ==> Next(p, a) == AfterGet(p, a.readable)
    ensures a.Remove? ==> Next(p, a) == AfterRemove(p, a.removed)
    ensures a.Resolve? ==> Next(p, a) == AfterResolve(p, a.identity)
    ensures a.Fold? ==> Next(p, a) == AfterFold(p)
    ensures a.Flush? ==> Next(p, a) == AfterFlush(p, a.written)
  {
    hide Added, AfterGet, AfterRemove, AfterResolve, AfterFold, AfterFlush, Lists, CurrentMinute, Caching, LookedUp;
  }

  // ---- The books

  function Posted(journal: seq<Posting>, account: Account, lane: Lane): nat {
    if journal == [] then 0
    else
      var last := journal[|journal| - 1];
      Posted(journal[..|journal| - 1], account, lane)
      + if last.account == account && last.lane == lane then last.amount else 0
  }

  function CountIn(lane: Lane, k: TrafficKey, n: nat): int {
    if LaneOf(k) == lane then n else 0
  }

  function BytesIn(lane: Lane, scope: Scope, b: Bytes): int {
    if scope == lane.scope then Of(b, lane.dir) else 0
  }

  function BytesFor(flow: Flow, dir: Direction, k: Key, b: Bytes): int {
    if k.flow == flow then Of(b, dir) else 0
  }

  function InLane(lane: Lane): (w: (TrafficKey, nat) -> int)
    ensures forall k, n: nat :: w(k, n) == CountIn(lane, k, n)
  {
    (k: TrafficKey, n: nat) => CountIn(lane, k, n)
  }

  function FlowInLane(lane: Lane): (w: (Flow, Bytes) -> int)
    ensures forall f: Flow, b :: w(f, b) == BytesIn(lane, f.scope, b)
  {
    (f: Flow, b) => BytesIn(lane, f.scope, b)
  }

  function RowInLane(lane: Lane): (w: (Key, Bytes) -> int)
    ensures forall k: Key, b :: w(k, b) == BytesIn(lane, k.flow.scope, b)
  {
    (k: Key, b) => BytesIn(lane, k.flow.scope, b)
  }

  function RowOfFlow(flow: Flow, dir: Direction): (w: (Key, Bytes) -> int)
    ensures forall k, b :: w(k, b) == BytesFor(flow, dir, k, b)
  {
    (k, b) => BytesFor(flow, dir, k, b)
  }

  /** Bytes read and removed from the kernel, not yet under an identity. */
  function InHand(p: Pipe, lane: Lane): nat {
    if p.pc.Removed? && p.pc.keys != [] && LaneOf(p.pc.keys[0]) == lane then p.pc.read else 0
  }

  /** Everything a counted byte can have become. */
  ghost function Accounted(p: Pipe, lane: Lane): int {
    Sum(p.traffic, InLane(lane))
    + Posted(p.journal, Orphaned, lane) + Posted(p.journal, Raced, lane) + Posted(p.journal, Unresolved, lane)
    + InHand(p, lane)
    + Sum(p.polled, FlowInLane(lane))
    + Sum(p.acc, RowInLane(lane))
    + Sum(p.stored, RowInLane(lane))
    + Sum(p.unstored, RowInLane(lane))
  }

  function DeltaSum(ds: seq<Delta>, flow: Flow, dir: Direction): nat {
    if ds == [] then 0
    else DeltaSum(ds[..|ds| - 1], flow, dir) + if ds[|ds| - 1].flow == flow then Of(ds[|ds| - 1].bytes, dir) else 0
  }

  function Unpublished(p: Pipe): seq<Delta> {
    if p.pc.Folding? then p.pc.deltas else []
  }

  ghost function Recorded(p: Pipe, flow: Flow, dir: Direction): int {
    Sum(p.acc, RowOfFlow(flow, dir)) + Sum(p.stored, RowOfFlow(flow, dir)) + Sum(p.unstored, RowOfFlow(flow, dir))
  }

  ghost predicate Balanced(p: Pipe) {
    && (forall lane :: Posted(p.journal, KernelCounted, lane) == Accounted(p, lane))
    && (forall flow, dir ::
          DeltaSum(p.published, flow, dir) + DeltaSum(Unpublished(p), flow, dir) == Recorded(p, flow, dir))
  }

  /** A whole minute, not before the one holding `since`. */
  predicate Minute(bucket: int, since: int) {
    bucket % 60 == 0 && CurrentMinute(since) <= bucket
  }

  ghost predicate Shaped(p: Pipe) {
    && KeysLeft(p.pc)
    && (forall cpu :: cpu in p.held && p.held[cpu].Found? && p.held[cpu].attached ==> p.held[cpu].key in p.traffic)
    && (p.pc.Got? ==> p.pc.keys[0] in p.traffic && p.pc.read <= p.traffic[p.pc.keys[0]])
    && (p.pc.Folding? ==> Lists(p.pc.flows, p.polled.Keys))
    && (p.pc.Idle? || p.pc.Published? || p.pc.Flushing? ==> p.polled == map[])
    && (p.pc.Flushing? ==> Lists(p.pc.closed, set k | k in p.acc && k.bucket < p.pc.open))
    && (p.pc.Flushing? ==> p.pc.open == CurrentMinute(p.pc.now) && p.pc.now == p.clock)
    && p.swept <= p.clock
    && (p.pc.Draining? || p.pc.Got? || p.pc.Removed? || p.pc.Folding? ==> Minute(p.pc.bucket, p.swept))
    && (forall k :: k in p.acc ==> Minute(k.bucket, p.swept))
  }

  lemma MinutesIncrease(a: int, b: int)
    requires a <= b
    ensures CurrentMinute(a) <= CurrentMinute(b)
  {
    assert CurrentMinute(a) == a / 60 * 60 && CurrentMinute(b) == b / 60 * 60;
  }

  lemma CurrentIsMinute(now: int, since: int)
    requires since <= now
    ensures Minute(CurrentMinute(now), since)
  {
    MinutesIncrease(since, now);
  }

  lemma PostedStep(journal: seq<Posting>, p: Posting, account: Account, lane: Lane)
    ensures Posted(journal + [p], account, lane)
         == Posted(journal, account, lane) + if p.account == account && p.lane == lane then p.amount else 0
  {
    assert (journal + [p])[..|journal|] == journal;
  }

  lemma {:induction false} DeltaSumConcat(a: seq<Delta>, b: seq<Delta>, flow: Flow, dir: Direction)
    ensures DeltaSum(a + b, flow, dir) == DeltaSum(a, flow, dir) + DeltaSum(b, flow, dir)
    decreases |b|
  {
    if b == [] {
      assert a + b == a;
    } else {
      assert (a + b)[..|a + b| - 1] == a + b[..|b| - 1];
      DeltaSumConcat(a, b[..|b| - 1], flow, dir);
    }
  }

  lemma ListsTail<T(!new)>(order: seq<T>, all: set<T>)
    requires Lists(order, all) && order != []
    ensures order[0] in all && Lists(order[1..], all - {order[0]})
  {
    forall x
      ensures x in order[1..] <==> x in all - {order[0]}
    {
      if x in all - {order[0]} {
        assert x in order;
        var i :| 0 <= i < |order| && order[i] == x;
        assert order[1..][i - 1] == x;
      }
      if x in order[1..] {
        var i :| 0 <= i < |order[1..]| && order[1..][i] == x;
        assert order[i + 1] == x && order[0] != order[i + 1];
        assert x in order;
      }
    }
  }

  // ---- Each action keeps the books

  lemma RowAccumulate(t: Table, weight: (Key, Bytes) -> int, key: Key, add: Bytes)
    requires forall a, b :: weight(key, AddBytes(a, b)) == weight(key, a) + weight(key, b)
    ensures Sum(Accumulate(t, key, add), weight) == Sum(t, weight) + weight(key, add)
  {
    SumSet(t, weight, key, if key in t then AddBytes(t[key], add) else add);
  }

  lemma AddingRows(t: Table, key: Key, add: Bytes)
    ensures forall lane ::
      Sum(Accumulate(t, key, add), RowInLane(lane)) == Sum(t, RowInLane(lane)) + RowInLane(lane)(key, add)
    ensures forall flow, dir ::
      Sum(Accumulate(t, key, add), RowOfFlow(flow, dir))
      == Sum(t, RowOfFlow(flow, dir)) + RowOfFlow(flow, dir)(key, add)
  {
    forall lane
      ensures Sum(Accumulate(t, key, add), RowInLane(lane)) == Sum(t, RowInLane(lane)) + RowInLane(lane)(key, add)
    {
      RowAccumulate(t, RowInLane(lane), key, add);
    }
    forall flow, dir
      ensures Sum(Accumulate(t, key, add), RowOfFlow(flow, dir))
             == Sum(t, RowOfFlow(flow, dir)) + RowOfFlow(flow, dir)(key, add)
    {
      RowAccumulate(t, RowOfFlow(flow, dir), key, add);
    }
  }

  lemma RemovingRow(t: Table, key: Key)
    requires key in t
    ensures forall lane :: Sum(t, RowInLane(lane)) == Sum(t - {key}, RowInLane(lane)) + RowInLane(lane)(key, t[key])
    ensures forall flow, dir ::
      Sum(t, RowOfFlow(flow, dir)) == Sum(t - {key}, RowOfFlow(flow, dir)) + RowOfFlow(flow, dir)(key, t[key])
  {
    forall lane
      ensures Sum(t, RowInLane(lane)) == Sum(t - {key}, RowInLane(lane)) + RowInLane(lane)(key, t[key])
    {
      SumRemove(t, RowInLane(lane), key);
    }
    forall flow, dir
      ensures Sum(t, RowOfFlow(flow, dir)) == Sum(t - {key}, RowOfFlow(flow, dir)) + RowOfFlow(flow, dir)(key, t[key])
    {
      SumRemove(t, RowOfFlow(flow, dir), key);
    }
  }

  /** What an action leaves as it was can be left out of the account. */
  ghost predicate SameLive(p: Pipe, p': Pipe) {
    && p'.acc == p.acc && p'.stored == p.stored && p'.unstored == p.unstored
    && p'.published == p.published && Unpublished(p') == Unpublished(p)
  }

  ghost predicate LanesBalance(p: Pipe) {
    forall lane :: Posted(p.journal, KernelCounted, lane) == Accounted(p, lane)
  }

  ghost predicate FlowsBalance(p: Pipe) {
    forall flow, dir ::
      DeltaSum(p.published, flow, dir) + DeltaSum(Unpublished(p), flow, dir) == Recorded(p, flow, dir)
  }

  lemma SameLiveBalances(p: Pipe, p': Pipe)
    requires FlowsBalance(p) && SameLive(p, p')
    ensures FlowsBalance(p')
  {
    forall flow, dir
      ensures DeltaSum(p'.published, flow, dir) + DeltaSum(Unpublished(p'), flow, dir) == Recorded(p', flow, dir)
    {
      assert DeltaSum(p.published, flow, dir) + DeltaSum(Unpublished(p), flow, dir) == Recorded(p, flow, dir);
    }
  }

  lemma PostingStep(journal: seq<Posting>, p: Posting)
    ensures forall account, lane ::
      Posted(journal + [p], account, lane)
      == Posted(journal, account, lane) + if p.account == account && p.lane == lane then p.amount else 0
  {
    forall account, lane
      ensures Posted(journal + [p], account, lane)
           == Posted(journal, account, lane) + if p.account == account && p.lane == lane then p.amount else 0
    {
      PostedStep(journal, p, account, lane);
    }
  }

  /** An addition touches its own slot, the counters, which only grow, and the journal. */
  lemma AddedEffect(p: Pipe, h: Held, bytes: nat, room: bool)
    ensures var q := Added(p, h, bytes, room);
      && q == p.(traffic := q.traffic, journal := q.journal)
      && (forall k :: k in p.traffic ==> k in q.traffic && p.traffic[k] <= q.traffic[k])
  {
  }

  lemma KernelShapes(p: Pipe, a: Action)
    requires Shaped(p) && Enabled(p, a) && a.KernelAdd?
    ensures Shaped(Next(p, a)) && SameLive(p, Next(p, a))
  {
    var h := p.held[a.cpu];
    AddedEffect(p.(held := p.held - {a.cpu}), h, a.bytes, a.room);
    assert Next(p, a) == Added(p.(held := p.held - {a.cpu}), h, a.bytes, a.room);
    hide Added, Next, Minute, CurrentMinute, Lists, Enabled;
  }

  lemma KernelLanes(p: Pipe, cpu: int, bytes: nat, room: bool)
    requires LanesBalance(p) && KeysLeft(p.pc) && Enabled(p, KernelAdd(cpu, bytes, room))
    ensures LanesBalance(Next(p, KernelAdd(cpu, bytes, room)))
  {
    AddedLanes(p.(held := p.held - {cpu}), p.held[cpu], bytes, room);
  }

  lemma AddedLanes(p: Pipe, h: Held, bytes: nat, room: bool)
    requires LanesBalance(p)
    ensures LanesBalance(Added(p, h, bytes, room))
  {
    CountedLanes(p, h.key, bytes);
    OrphanedLanes(p, h.key, bytes);
    hide LanesBalance;
  }

  lemma CountedLanes(p: Pipe, key: TrafficKey, bytes: nat)
    requires LanesBalance(p)
    ensures LanesBalance(p.(traffic := Counted(p.traffic, key, bytes),
                            journal := p.journal + [Posting(KernelCounted, LaneOf(key), bytes)]))
  {
    var q := p.(traffic := Counted(p.traffic, key, bytes),
                journal := p.journal + [Posting(KernelCounted, LaneOf(key), bytes)]);
    PostingStep(p.journal, Posting(KernelCounted, LaneOf(key), bytes));
    assert forall lane :: InHand(q, lane) == InHand(p, lane);
    hide Posted, InHand;
    forall lane
      ensures Posted(q.journal, KernelCounted, lane) == Accounted(q, lane)
    {
      SumSet<TrafficKey, nat>(p.traffic, InLane(lane), key, (if key in p.traffic then p.traffic[key] else 0) + bytes);
      assert Posted(p.journal, KernelCounted, lane) == Accounted(p, lane);
    }
  }

  lemma OrphanedLanes(p: Pipe, key: TrafficKey, bytes: nat)
    requires LanesBalance(p)
    ensures LanesBalance(p.(journal := p.journal + [Posting(KernelCounted, LaneOf(key), bytes)]
                                                 + [Posting(Orphaned, LaneOf(key), bytes)]))
  {
    var counted := p.journal + [Posting(KernelCounted, LaneOf(key), bytes)];
    var q := p.(journal := counted + [Posting(Orphaned, LaneOf(key), bytes)]);
    PostingStep(p.journal, Posting(KernelCounted, LaneOf(key), bytes));
    PostingStep(counted, Posting(Orphaned, LaneOf(key), bytes));
    assert forall lane :: InHand(q, lane) == InHand(p, lane);
    hide Posted, InHand, Sum;
    forall lane
      ensures Posted(q.journal, KernelCounted, lane) == Accounted(q, lane)
    {
      assert Posted(p.journal, KernelCounted, lane) == Accounted(p, lane);
    }
  }

  lemma RemoveShapes(p: Pipe, a: Action)
    requires Shaped(p) && Enabled(p, a) && a.Remove?
    ensures Shaped(Next(p, a)) && SameLive(p, Next(p, a))
  {
    NextOf(p, a);
    assert p.pc.Got?;
    GotKnown(p);
    hide *;
    AfterRemoveShapes(p, a.removed);
  }

  lemma AfterRemoveShapes(p: Pipe, removed: bool)
    requires Shaped(p) && p.pc.Got? && p.pc.keys != []
    ensures Shaped(AfterRemove(p, removed)) && SameLive(p, AfterRemove(p, removed))
  {
    hide Minute, CurrentMinute, Lists, LaneOf;
  }

  lemma RemoveLanes(p: Pipe, removed: bool)
    requires LanesBalance(p) && p.pc.Got? && p.pc.keys != []
    requires p.pc.keys[0] in p.traffic && p.pc.read <= p.traffic[p.pc.keys[0]]
    ensures LanesBalance(Next(p, Remove(removed)))
  {
    var p' := Next(p, Remove(removed));
    var key := p.pc.keys[0];
    if removed {
      var raced := Posting(Raced, LaneOf(key), p.traffic[key] - p.pc.read);
      PostingStep(p.journal, raced);
      assert p'.journal == p.journal + [raced] && p'.traffic == p.traffic - {key};
      assert forall lane :: InHand(p', lane) == if lane == LaneOf(key) then p.pc.read else 0;
      assert p'.polled == p.polled && p'.acc == p.acc && p'.stored == p.stored && p'.unstored == p.unstored;
      hide Posted, Next, InHand;
      forall lane
        ensures Posted(p'.journal, KernelCounted, lane) == Accounted(p', lane)
      {
        SumRemove<TrafficKey, nat>(p.traffic, InLane(lane), key);
        assert Posted(p.journal, KernelCounted, lane) == Accounted(p, lane);
        assert InHand(p, lane) == 0 by { NothingInHand(p, lane); }
      }
    } else {
      forall lane
        ensures Posted(p'.journal, KernelCounted, lane) == Accounted(p', lane)
      {
        assert Posted(p.journal, KernelCounted, lane) == Accounted(p, lane);
      }
    }
  }

  lemma NothingInHand(p: Pipe, lane: Lane)
    requires !p.pc.Removed?
    ensures InHand(p, lane) == 0
  {
  }

  /** Resolving touches the cache, the poll and the journal only. */
  predicate SameElsewhere(p: Pipe, q: Pipe) {
    && q.traffic == p.traffic && q.held == p.held && q.acc == p.acc && q.clock == p.clock && q.swept == p.swept
    && q.stored == p.stored && q.unstored == p.unstored && q.published == p.published
  }

  lemma ResolveFrame(p: Pipe, identity: Option<int>)
    requires p.pc.Removed? && p.pc.keys != []
    ensures SameElsewhere(p, Next(p, Resolve(identity))) && Next(p, Resolve(identity)).pc == NextKey(p.pc)
  {
    NextOf(p, Resolve(identity));
    hide *;
    AfterResolveFrame(p, identity);
  }

  lemma AfterResolveFrame(p: Pipe, identity: Option<int>)
    requires p.pc.Removed? && p.pc.keys != []
    ensures SameElsewhere(p, AfterResolve(p, identity)) && AfterResolve(p, identity).pc == NextKey(p.pc)
  {
    hide Tallied, Resolved, Caching, LaneOf, NextKey;
  }

  lemma ResolveShapes(p: Pipe, a: Action)
    requires Shaped(p) && Enabled(p, a) && a.Resolve?
    ensures Shaped(Next(p, a)) && SameLive(p, Next(p, a))
  {
    ResolveFrame(p, a.identity);
    hide Next, Minute, CurrentMinute, Lists, Enabled;
  }

  lemma ResolveLanes(p: Pipe, identity: Option<int>)
    requires LanesBalance(p) && p.pc.Removed? && p.pc.keys != []
    ensures LanesBalance(Next(p, Resolve(identity)))
  {
    if Resolved(p, p.pc.keys[0].tgid, identity).None? {
      UnresolvedLanes(p, identity);
    } else {
      PolledLanes(p, identity);
    }
  }

  lemma UnresolvedLanes(p: Pipe, identity: Option<int>)
    requires LanesBalance(p) && p.pc.Removed? && p.pc.keys != []
    requires Resolved(p, p.pc.keys[0].tgid, identity).None?
    ensures LanesBalance(Next(p, Resolve(identity)))
  {
    NextOf(p, Resolve(identity));
    hide Next, Enabled, Resolved, Caching;
    var p' := Next(p, Resolve(identity));
    var key := p.pc.keys[0];
    PostingStep(p.journal, Posting(Unresolved, LaneOf(key), p.pc.read));
    hide Posted;
    forall lane
      ensures Posted(p'.journal, KernelCounted, lane) == Accounted(p', lane)
    {
      assert Posted(p.journal, KernelCounted, lane) == Accounted(p, lane);
      assert InHand(p, lane) == (if lane == LaneOf(key) then p.pc.read else 0) && InHand(p', lane) == 0;
    }
  }

  lemma AddedWeight(lane: Lane, id: int, sum: Bytes, key: TrafficKey, amount: nat)
    ensures var flow := Flow(id, key.scope);
      FlowInLane(lane)(flow, AddTo(sum, key.dir, amount))
      == FlowInLane(lane)(flow, sum) + if LaneOf(key) == lane then amount else 0
    ensures FlowInLane(lane)(Flow(id, key.scope), Bytes(0, 0)) == 0
  {
  }

  lemma PolledLanes(p: Pipe, identity: Option<int>)
    requires LanesBalance(p) && p.pc.Removed? && p.pc.keys != []
    requires Resolved(p, p.pc.keys[0].tgid, identity).Some?
    ensures LanesBalance(Next(p, Resolve(identity)))
  {
    var p' := Next(p, Resolve(identity));
    var key := p.pc.keys[0];
    var flow := Flow(Resolved(p, key.tgid, identity).value, key.scope);
    var sum := if flow in p.polled then p.polled[flow] else Bytes(0, 0);
    assert p'.polled == p.polled[flow := AddTo(sum, key.dir, p.pc.read)];
    assert p'.traffic == p.traffic && p'.acc == p.acc && p'.stored == p.stored && p'.unstored == p.unstored;
    assert p'.journal == p.journal;
    assert forall lane :: InHand(p, lane) == if lane == LaneOf(key) then p.pc.read else 0;
    assert forall lane :: InHand(p', lane) == 0;
    hide Posted, InHand, Next, Resolved, FlowInLane, AddTo;
    forall lane
      ensures Posted(p'.journal, KernelCounted, lane) == Accounted(p', lane)
    {
      SumSet(p.polled, FlowInLane(lane), flow, AddTo(sum, key.dir, p.pc.read));
      AddedWeight(lane, flow.identity, sum, key, p.pc.read);
      assert Posted(p.journal, KernelCounted, lane) == Accounted(p, lane);
    }
  }

  lemma FoldShapes(p: Pipe)
    requires Shaped(p) && Enabled(p, Fold)
    ensures Shaped(Next(p, Fold))
  {
    NextOf(p, Fold);
    assert p.pc.Folding? && p.pc.flows != [] && p.pc.flows[0] in p.polled;
    hide Next, Enabled, Minute, CurrentMinute;
    var p' := Next(p, Fold);
    var flow := p.pc.flows[0];
    ListsTail(p.pc.flows, p.polled.Keys);
    assert p'.polled.Keys == p.polled.Keys - {flow};
    assert forall k :: k in p'.acc ==> k in p.acc || k == Key(p.pc.bucket, flow);
  }

  lemma FoldBalances(p: Pipe)
    requires Balanced(p) && Enabled(p, Fold)
    ensures Balanced(Next(p, Fold))
  {
    NextOf(p, Fold);
    assert p.pc.Folding? && p.pc.flows != [] && p.pc.flows[0] in p.polled;
    hide Next, Enabled;
    var p' := Next(p, Fold);
    var flow := p.pc.flows[0];
    var bytes := p.polled[flow];
    AddingRows(p.acc, Key(p.pc.bucket, flow), bytes);
    forall lane
      ensures Posted(p'.journal, KernelCounted, lane) == Accounted(p', lane)
    {
      SumRemove(p.polled, FlowInLane(lane), flow);
      assert Posted(p.journal, KernelCounted, lane) == Accounted(p, lane);
    }
    forall other, dir
      ensures DeltaSum(p'.published, other, dir) + DeltaSum(Unpublished(p'), other, dir) == Recorded(p', other, dir)
    {
      assert DeltaSum(p.published, other, dir) + DeltaSum(Unpublished(p), other, dir) == Recorded(p, other, dir);
      assert (p.pc.deltas + [Delta(flow, bytes)])[..|p.pc.deltas|] == p.pc.deltas;
    }
  }

  lemma PublishKeeps(p: Pipe)
    requires Shaped(p) && Balanced(p) && Enabled(p, Publish)
    ensures Balanced(Next(p, Publish)) && Shaped(Next(p, Publish))
  {
    var p' := Next(p, Publish);
    var flows := p.pc.flows;
    assert forall x :: x in p.polled.Keys ==> x in flows;
    assert forall lane :: Accounted(p', lane) == Accounted(p, lane);
    forall flow, dir
      ensures DeltaSum(p'.published, flow, dir) + DeltaSum(Unpublished(p'), flow, dir) == Recorded(p', flow, dir)
    {
      DeltaSumConcat(p.published, p.pc.deltas, flow, dir);
      assert DeltaSum(p.published, flow, dir) + DeltaSum(Unpublished(p), flow, dir) == Recorded(p, flow, dir);
    }
  }

  lemma FlushShapes(p: Pipe, written: bool)
    requires Shaped(p) && Enabled(p, Flush(written))
    ensures Shaped(Next(p, Flush(written)))
  {
    NextOf(p, Flush(written));
    assert p.pc.Flushing? && p.pc.closed != [] && p.pc.closed[0] in p.acc;
    hide *;
    AfterFlushShapes(p, written);
  }

  lemma AfterFlushShapes(p: Pipe, written: bool)
    requires Shaped(p) && p.pc.Flushing? && p.pc.closed != [] && p.pc.closed[0] in p.acc
    ensures Shaped(AfterFlush(p, written))
  {
    var p' := AfterFlush(p, written);
    var key := p.pc.closed[0];
    var open := p.pc.open;
    ListsTail(p.pc.closed, set k | k in p.acc && k.bucket < open);
    assert (set k | k in p'.acc && k.bucket < open) == (set k | k in p.acc && k.bucket < open) - {key};
    assert forall k :: k in p'.acc ==> k in p.acc;
    hide Minute, CurrentMinute, Lists, Accumulate;
  }

  lemma FlushBalances(p: Pipe, written: bool)
    requires Balanced(p) && Enabled(p, Flush(written))
    ensures Balanced(Next(p, Flush(written)))
  {
    NextOf(p, Flush(written));
    assert p.pc.Flushing? && p.pc.closed != [] && p.pc.closed[0] in p.acc;
    hide Next, Enabled;
    var p' := Next(p, Flush(written));
    var key := p.pc.closed[0];
    RemovingRow(p.acc, key);
    AddingRows(p.stored, key, p.acc[key]);
    AddingRows(p.unstored, key, p.acc[key]);
    forall lane
      ensures Posted(p'.journal, KernelCounted, lane) == Accounted(p', lane)
    {
      assert Posted(p.journal, KernelCounted, lane) == Accounted(p, lane);
    }
    forall flow, dir
      ensures DeltaSum(p'.published, flow, dir) + DeltaSum(Unpublished(p'), flow, dir) == Recorded(p', flow, dir)
    {
      assert DeltaSum(p.published, flow, dir) + DeltaSum(Unpublished(p), flow, dir) == Recorded(p, flow, dir);
    }
  }

  predicate Control(a: Action) {
    a.KernelLookup? || a.Enrich? || a.BeginDrain? || a.Get? || a.EndDrain? || a.BeginFlush? || a.EndTick?
  }

  ghost predicate SameBooks(p: Pipe, p': Pipe) {
    && p'.traffic == p.traffic && p'.polled == p.polled && p'.journal == p.journal
    && (forall lane :: InHand(p', lane) == InHand(p, lane))
    && SameLive(p, p')
  }

  predicate SameBytes(p: Pipe, q: Pipe) {
    && q.traffic == p.traffic && q.polled == p.polled && q.acc == p.acc && q.journal == p.journal
    && q.stored == p.stored && q.unstored == p.unstored && q.published == p.published
  }

  lemma ControlEffect(p: Pipe, a: Action)
    requires KeysLeft(p.pc) && Enabled(p, a) && Control(a)
    ensures SameBytes(p, Next(p, a))
  {
    hide Lists, CurrentMinute, Caching, LookedUp;
    if a.Get? {
      NextOf(p, a);
      hide Next;
    }
  }

  lemma ControlPhase(p: Pipe, a: Action)
    requires KeysLeft(p.pc) && Enabled(p, a) && Control(a)
    ensures var pc, pc' := p.pc, Next(p, a).pc;
      pc' == pc || (!pc.Removed? && !pc'.Removed? && !pc.Folding? && (pc'.Folding? ==> pc'.deltas == []))
  {
    hide Lists, CurrentMinute, Caching, LookedUp, Detached, Added, Resolved, AddTo, Accumulate;
    match a
    case KernelLookup(_, _) => assert Next(p, a).pc == p.pc;
    case Enrich(_, _) => assert Next(p, a).pc == p.pc;
    case Get(_) => assert Next(p, a).pc.Got? || Next(p, a).pc.Draining?;
    case BeginDrain(_, _) => assert Next(p, a).pc.Draining?;
    case EndDrain(_) => assert Next(p, a).pc.Folding?;
    case BeginFlush(_, _) => assert Next(p, a).pc.Flushing?;
    case EndTick(_) => assert Next(p, a).pc.Idle?;
  }

  /** The steps that move no bytes. */
  lemma ControlSame(p: Pipe, a: Action)
    requires KeysLeft(p.pc) && Enabled(p, a) && Control(a)
    ensures SameBooks(p, Next(p, a))
  {
    ControlEffect(p, a);
    ControlPhase(p, a);
    hide Next, Enabled;
  }

  lemma SameBooksBalance(p: Pipe, p': Pipe)
    requires Balanced(p) && SameBooks(p, p')
    ensures Balanced(p')
  {
    SameLiveBalances(p, p');
    hide Posted, InHand, Sum;
    forall lane
      ensures Posted(p'.journal, KernelCounted, lane) == Accounted(p', lane)
    {
      assert Posted(p.journal, KernelCounted, lane) == Accounted(p, lane);
    }
  }

  lemma ControlShapes(p: Pipe, a: Action)
    requires Shaped(p) && Enabled(p, a) && Control(a)
    ensures Shaped(Next(p, a))
  {
    hide Shaped, Enabled, Next;
    if a.KernelLookup? || a.Enrich? {
      AsideShapes(p, a);
    } else if a.Get? {
      GetShapes(p, a);
    } else if a.EndDrain? {
      EndDrainShapes(p, a);
    } else {
      ClockShapes(p, a);
    }
  }

  /** The steps beside the drain loop. */
  lemma AsideShapes(p: Pipe, a: Action)
    requires Shaped(p) && Enabled(p, a) && (a.KernelLookup? || a.Enrich?)
    ensures Shaped(Next(p, a))
  {
    hide Minute, CurrentMinute, Lists, Caching;
  }

  lemma GetShapes(p: Pipe, a: Action)
    requires Shaped(p) && Enabled(p, a) && a.Get?
    ensures Shaped(Next(p, a))
  {
    NextOf(p, a);
    assert p.pc.Draining? && p.pc.keys != [];
    hide Next, Enabled, Minute, CurrentMinute, Lists;
  }

  lemma EndDrainShapes(p: Pipe, a: Action)
    requires Shaped(p) && Enabled(p, a) && a.EndDrain?
    ensures Shaped(Next(p, a))
  {
    hide Minute, CurrentMinute, Lists;
  }

  /** The steps that read the clock or finish a sweep. */
  lemma ClockShapes(p: Pipe, a: Action)
    requires Shaped(p) && Enabled(p, a) && (a.BeginDrain? || a.BeginFlush? || a.EndTick?)
    ensures Shaped(Next(p, a))
  {
    if a.EndTick? {
      NothingClosed(p);
    } else {
      CurrentIsMinute(a.now, p.swept);
    }
    hide CurrentMinute;
  }

  /** When the flush loop is through, only open minutes are left. */
  lemma NothingClosed(p: Pipe)
    requires Shaped(p) && p.pc.Flushing? && p.pc.closed == []
    ensures forall k :: k in p.acc ==> p.pc.open <= k.bucket
  {
    var closed, open := p.pc.closed, p.pc.open;
    forall k | k in p.acc
      ensures open <= k.bucket
    {
      assert k in (set k | k in p.acc && k.bucket < open) ==> k in closed;
    }
  }

  lemma BalancedParts(p: Pipe)
    ensures Balanced(p) <==> LanesBalance(p) && FlowsBalance(p)
  {
  }

  lemma KeysAreLeft(p: Pipe)
    requires Shaped(p)
    ensures KeysLeft(p.pc)
  {
  }

  lemma GotKnown(p: Pipe)
    requires Shaped(p) && p.pc.Got?
    ensures p.pc.keys != [] && p.pc.keys[0] in p.traffic && p.pc.read <= p.traffic[p.pc.keys[0]]
  {
  }

  lemma NextKeeps(p: Pipe, a: Action)
    requires Shaped(p) && Balanced(p) && Enabled(p, a)
    ensures Balanced(Next(p, a)) && Shaped(Next(p, a))
  {
    BalancedParts(p);
    BalancedParts(Next(p, a));
    match a
    case KernelAdd(cpu, bytes, room) =>
      KernelShapes(p, a);
      hide Shaped, Balanced, LanesBalance, FlowsBalance, SameLive, Next;
      KernelLanes(p, cpu, bytes, room);
      SameLiveBalances(p, Next(p, a));
    case Remove(removed) =>
      GotKnown(p);
      RemoveLanes(p, removed);
      RemoveShapes(p, a);
      hide Shaped, Balanced, LanesBalance, FlowsBalance, SameLive, Next;
      SameLiveBalances(p, Next(p, a));
    case Resolve(identity) =>
      ResolveShapes(p, a);
      hide Shaped, Balanced, LanesBalance, FlowsBalance, SameLive, Next;
      ResolveLanes(p, identity);
      SameLiveBalances(p, Next(p, a));
    case Fold =>
      hide Shaped, Balanced, LanesBalance, FlowsBalance, SameLive, Next;
      FoldShapes(p);
      FoldBalances(p);
    case Publish => PublishKeeps(p);
    case Flush(written) =>
      hide Shaped, Balanced, LanesBalance, FlowsBalance, SameLive, Next;
      FlushShapes(p, written);
      FlushBalances(p, written);
    case _ =>
      KeysAreLeft(p);
      hide Shaped, Balanced, LanesBalance, FlowsBalance, SameLive, SameBooks, Next;
      ControlShapes(p, a);
      ControlSame(p, a);
      SameBooksBalance(p, Next(p, a));
  }

  // ---- Every interleaving

  /** `actions`, each enabled when its turn comes, take `p` to `q`. */
  ghost predicate Leads(p: Pipe, actions: seq<Action>, q: Pipe)
    decreases |actions|
  {
    if actions == [] then p == q
    else KeysLeft(p.pc) && Enabled(p, actions[0]) && Leads(Next(p, actions[0]), actions[1..], q)
  }

  lemma {:induction false} RunKeeps(p: Pipe, actions: seq<Action>, q: Pipe)
    requires Shaped(p) && Balanced(p) && Leads(p, actions, q)
    ensures Shaped(q) && Balanced(q)
    decreases |actions|
  {
    if actions != [] {
      NextKeeps(p, actions[0]);
      RunKeeps(Next(p, actions[0]), actions[1..], q);
    }
  }

  lemma StartBalanced(clock: int)
    ensures Shaped(Start(clock)) && Balanced(Start(clock))
  {
    forall lane
      ensures Accounted(Start(clock), lane) == 0
    {
      SumEmpty<TrafficKey, nat>(InLane(lane));
      SumEmpty<Flow, Bytes>(FlowInLane(lane));
      SumEmpty<Key, Bytes>(RowInLane(lane));
    }
    forall flow, dir
      ensures Recorded(Start(clock), flow, dir) == 0
    {
      SumEmpty<Key, Bytes>(RowOfFlow(flow, dir));
    }
  }

  /** Byte accounting over every interleaving: each byte the kernel counted, by
      direction and scope, is in the kernel's map, or went to a slot already
      detached from it, or was added between a read and its removal, or had no
      identity, or is in hand, or in the poll, or in the accumulator, or was
      stored, or was lost to a failed write; and it is exactly one of these. */
  lemma EveryByteAccounted(clock: int, actions: seq<Action>, q: Pipe, lane: Lane)
    requires Leads(Start(clock), actions, q)
    ensures Posted(q.journal, KernelCounted, lane)
         == Sum(q.traffic, InLane(lane)) + Posted(q.journal, Orphaned, lane) + Posted(q.journal, Raced, lane)
            + Posted(q.journal, Unresolved, lane)
            + InHand(q, lane) + Sum(q.polled, FlowInLane(lane)) + Sum(q.acc, RowInLane(lane))
            + Sum(q.stored, RowInLane(lane)) + Sum(q.unstored, RowInLane(lane))
  {
    StartBalanced(clock);
    RunKeeps(Start(clock), actions, q);
  }

  lemma NothingNegative(q: Pipe, lane: Lane)
    ensures 0 <= Sum(q.traffic, InLane(lane)) && 0 <= Sum(q.polled, FlowInLane(lane))
    ensures 0 <= Sum(q.acc, RowInLane(lane)) && 0 <= Sum(q.unstored, RowInLane(lane))
  {
    forall k, b
      ensures 0 <= RowInLane(lane)(k, b)
    {
      assert 0 <= Of(b, lane.dir);
    }
    forall f, b
      ensures 0 <= FlowInLane(lane)(f, b)
    {
      assert 0 <= Of(b, lane.dir);
    }
    SumNotNegative<TrafficKey, nat>(q.traffic, InLane(lane));
    SumNotNegative(q.polled, FlowInLane(lane));
    SumNotNegative(q.acc, RowInLane(lane));
    SumNotNegative(q.unstored, RowInLane(lane));
  }

  /** So what the daemon stored never exceeds what the kernel counted, and
      between ticks equals it, less what the kernel and the accumulator still
      hold, exactly when nothing was orphaned, raced, unresolved or failed to be
      written. */
  lemma StoredAgainstCounted(clock: int, actions: seq<Action>, q: Pipe, lane: Lane)
    requires Leads(Start(clock), actions, q)
    ensures Sum(q.stored, RowInLane(lane)) <= Posted(q.journal, KernelCounted, lane)
    ensures q.pc.Idle? ==>
      (Sum(q.stored, RowInLane(lane)) + Sum(q.acc, RowInLane(lane)) + Sum(q.traffic, InLane(lane))
       == Posted(q.journal, KernelCounted, lane)
       <==> Posted(q.journal, Orphaned, lane) == 0 && Posted(q.journal, Raced, lane) == 0
            && Posted(q.journal, Unresolved, lane) == 0 && Sum(q.unstored, RowInLane(lane)) == 0)
  {
    StartBalanced(clock);
    RunKeeps(Start(clock), actions, q);
    assert Posted(q.journal, KernelCounted, lane) == Accounted(q, lane);
    SumEmpty<Flow, Bytes>(FlowInLane(lane));
    NothingNegative(q, lane);
  }

  /** The live feed and the store agree: for each identity, scope and direction,
      what was published is what was recorded, what is still pending in the
      accumulator and what failed to be written. */
  lemma FeedMatchesStore(clock: int, actions: seq<Action>, q: Pipe, flow: Flow, dir: Direction)
    requires Leads(Start(clock), actions, q) && !q.pc.Folding?
    ensures DeltaSum(q.published, flow, dir)
         == Sum(q.acc, RowOfFlow(flow, dir)) + Sum(q.stored, RowOfFlow(flow, dir)) + Sum(q.unstored,
                                                                                         RowOfFlow(flow, dir))
  {
    StartBalanced(clock);
    RunKeeps(Start(clock), actions, q);
    assert DeltaSum(q.published, flow, dir) + DeltaSum(Unpublished(q), flow, dir) == Recorded(q, flow, dir);
  }

  /** After a tick that ends well, nothing older than its open minute is left. */
  lemma TickLeavesOpenMinutes(clock: int, actions: seq<Action>, q: Pipe, dead: set<int>)
    requires Leads(Start(clock), actions, q) && Enabled(q, EndTick(dead))
    ensures forall k :: k in Next(q, EndTick(dead)).acc ==> CurrentMinute(q.pc.now) <= k.bucket
  {
    StartBalanced(clock);
    RunKeeps(Start(clock), actions, q);
    NothingClosed(q);
  }

  /** Polling often enough meets the store's grace period: if at most two minutes
      have passed since the last sweep that finished, every minute written now
      closed less than two minutes ago. */
  lemma FlushesInTime(clock: int, actions: seq<Action>, q: Pipe, written: bool)
    requires Leads(Start(clock), actions, q) && Enabled(q, Flush(written))
    requires q.pc.now <= q.swept + 120
    ensures var bucket := q.pc.closed[0].bucket;
      bucket + 60 <= q.pc.now < bucket + 60 + 120
  {
    StartBalanced(clock);
    RunKeeps(Start(clock), actions, q);
    ClosedMinute(q);
    hide *;
    InTime(q.pc.closed[0].bucket, q.pc.now, q.swept);
  }

  lemma ClosedMinute(q: Pipe)
    requires Shaped(q) && q.pc.Flushing? && q.pc.closed != []
    ensures Minute(q.pc.closed[0].bucket, q.swept) && q.pc.closed[0].bucket < CurrentMinute(q.pc.now)
  {
    assert q.pc.closed[0] in q.pc.closed;
  }

  lemma InTime(bucket: int, now: int, swept: int)
    requires Minute(bucket, swept) && bucket < CurrentMinute(now) && now <= swept + 120
    ensures bucket + 60 <= now < bucket + 60 + 120
  {
  }
}
