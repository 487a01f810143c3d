/** From the kernel's counters to a reader of months: collector steps, the
    kernel's, and rollup runs, in any interleaving, over one store. */
module EndToEnd {
  import opened Counters
  import opened MapSum
  import opened Zones
  import opened Rollup
  import opened Invariant
  import opened History
  import opened Stitch
  import Query
  import C = Collector
  import R = Reckoning

  /** A step of the collector or the kernel, or a rollup run that got through
      `steps` transactions. */
  datatype Happening = Acted(time: int, action: C.Action) | Rolled(time: int, steps: nat)

  /** The collector, and the history of the store it writes to. */
  datatype World = World(pipe: C.Pipe, es: seq<Event>, clock: int)

  function Opening(began: int): World {
    World(C.Start(began), [], began)
  }

  /** A write that succeeds is a minute recorded in the store. */
  function Writes(p: C.Pipe, time: int, a: C.Action): seq<Event>
    requires C.Enabled(p, a)
  {
    if a == C.Flush(true) then [Recorded(time, p.pc.closed[0], p.acc[p.pc.closed[0]])] else []
  }

  predicate Possible(w: World, h: Happening) {
    && w.clock <= h.time
    && (h.Acted? ==> C.KeysLeft(w.pipe.pc) && C.Enabled(w.pipe, h.action))
  }

  function Happen(w: World, h: Happening): World
    requires Possible(w, h)
  {
    match h
    case Acted(time, a) => World(C.Next(w.pipe, a), w.es + Writes(w.pipe, time, a), time)
    case Rolled(time, steps) => World(w.pipe, w.es + [Ran(time, steps)], time)
  }

  /** The clock is the wall's, and no write comes later than the grace period
      after the last sweep that finished. */
  predicate Prompt(w: World, h: Happening) {
    h.Acted? ==>
      && (h.action.BeginDrain? || h.action.BeginFlush? ==> h.action.now == h.time)
      && (h.action.Flush? ==> h.time <= w.pipe.swept + GRACE)
  }

  ghost predicate Unfolds(w: World, hs: seq<Happening>, v: World)
    decreases |hs|
  {
    if hs == [] then v == w
    else Possible(w, hs[0]) && Prompt(w, hs[0]) && Unfolds(Happen(w, hs[0]), hs[1..], v)
  }

  // ---- The store's history is timely

  ghost predicate Sound(g: Grid, began: int, w: World) {
    && C.Shaped(w.pipe) && C.Balanced(w.pipe)
    && began <= w.pipe.swept && w.pipe.clock <= w.clock
    && Timely(g, w.es) && By(w.es, w.clock)
    && Log(w.es) == w.pipe.stored
  }

  lemma AppendTimely(g: Grid, es: seq<Event>, clock: int, e: Event)
    requires Timely(g, es) && By(es, clock) && clock <= e.time
    requires e.Recorded? ==> InTime(g, e.time, e.key.bucket)
    ensures Timely(g, es + [e]) && By(es + [e], e.time)
    ensures Log(es + [e]) == if e.Recorded? then Accumulate(Log(es), e.key, e.bytes) else Log(es)
  {
    assert (es + [e])[..|es|] == es;
    hide InTime, Accumulate;
  }

  lemma LaterMinuteDatable(g: Grid, began: int, swept: int, bucket: int)
    requires Lawful(g) && Datable(g, C.CurrentMinute(began)) && began <= swept && C.Minute(bucket, swept)
    ensures Datable(g, bucket)
  {
    C.MinutesIncrease(began, swept);
    assert Partitions(g, Month);
    BoundsMonotone(g, Month, C.CurrentMinute(began), bucket);
  }

  /** A prompt write is in time. */
  lemma WriteInTime(g: Grid, began: int, w: World, h: Happening)
    requires Lawful(g) && Datable(g, C.CurrentMinute(began))
    requires Sound(g, began, w) && Possible(w, h) && Prompt(w, h) && h.Acted? && h.action.Flush?
    ensures InTime(g, h.time, w.pipe.pc.closed[0].bucket)
  {
    var bucket := w.pipe.pc.closed[0].bucket;
    assert C.Minute(bucket, w.pipe.swept);
    hide Lawful;
    LaterMinuteDatable(g, began, w.pipe.swept, bucket);
  }

  predicate Much(a: C.Action) {
    a.KernelAdd? || a.Get? || a.Remove? || a.Resolve? || a.Fold? || a.Flush?
  }

  /** The collector writes to the store in one kind of step, and its clock and
      its last sweep move in three others. */
  lemma StepStores(p: C.Pipe, a: C.Action)
    requires C.KeysLeft(p.pc) && C.Enabled(p, a)
    ensures var q := C.Next(p, a);
      && q.stored
         == (if a == C.Flush(true) then Accumulate(p.stored, p.pc.closed[0], p.acc[p.pc.closed[0]]) else p.stored)
      && q.clock == (if a.BeginDrain? || a.BeginFlush? then a.now else p.clock)
      && q.swept == (if a.EndTick? then p.pc.now else p.swept)
  {
    if Much(a) {
      MuchStores(p, a);
    } else {
      hide C.Lists, C.CurrentMinute, C.Caching, C.LookedUp, C.Added, C.AfterGet, C.AfterRemove, C.AfterResolve,
           C.AfterFold, C.AfterFlush;
    }
  }

  lemma MuchStores(p: C.Pipe, a: C.Action)
    requires C.KeysLeft(p.pc) && C.Enabled(p, a) && Much(a)
    ensures var q := C.Next(p, a);
      && q.stored
         == (if a == C.Flush(true) then Accumulate(p.stored, p.pc.closed[0], p.acc[p.pc.closed[0]]) else p.stored)
      && q.clock == p.clock && q.swept == p.swept
  {
    C.NextOf(p, a);
    if a.KernelAdd? {
      C.AddedEffect(p.(held := p.held - {a.cpu}), p.held[a.cpu], a.bytes, a.room);
      hide *;
    } else if a.Flush? {
      FlushStores(p, a.written);
      hide *;
    } else if a.Resolve? {
      C.AfterResolveFrame(p, a.identity);
      hide C.Next, C.AfterResolve;
    } else if a.Fold? {
      FoldStores(p);
      hide *;
    } else if a.Get? {
      GetStores(p, a.readable);
      hide *;
    } else {
      RemoveStores(p, a.removed);
      hide *;
    }
  }

  lemma FlushStores(p: C.Pipe, written: bool)
    requires p.pc.Flushing? && p.pc.closed != [] && p.pc.closed[0] in p.acc
    ensures var q, key := C.AfterFlush(p, written), p.pc.closed[0];
      && q.stored == (if written then Accumulate(p.stored, key, p.acc[key]) else p.stored)
      && q.clock == p.clock && q.swept == p.swept
  {
    hide Accumulate;
  }

  lemma FoldStores(p: C.Pipe)
    requires p.pc.Folding? && p.pc.flows != [] && p.pc.flows[0] in p.polled
    ensures var q := C.AfterFold(p); q.stored == p.stored && q.clock == p.clock && q.swept == p.swept
  {
    hide Accumulate;
  }

  lemma GetStores(p: C.Pipe, readable: bool)
    requires p.pc.Draining? && p.pc.keys != []
    ensures var q := C.AfterGet(p, readable); q.stored == p.stored && q.clock == p.clock && q.swept == p.swept
  {
  }

  lemma RemoveStores(p: C.Pipe, removed: bool)
    requires p.pc.Got? && p.pc.keys != []
    ensures var q := C.AfterRemove(p, removed); q.stored == p.stored && q.clock == p.clock && q.swept == p.swept
  {
    hide C.Detached, C.LaneOf;
  }

  lemma HappenKeeps(g: Grid, began: int, w: World, h: Happening)
    requires Lawful(g) && Datable(g, C.CurrentMinute(began))
    requires Sound(g, began, w) && Possible(w, h) && Prompt(w, h)
    ensures Sound(g, began, Happen(w, h))
  {
    match h
    case Rolled(time, steps) =>
      AppendTimely(g, w.es, w.clock, Ran(time, steps));
    case Acted(time, a) =>
      C.NextKeeps(w.pipe, a);
      StepStores(w.pipe, a);
      if a == C.Flush(true) {
        WriteInTime(g, began, w, h);
        AppendTimely(g, w.es, w.clock, Recorded(time, w.pipe.pc.closed[0], w.pipe.acc[w.pipe.pc.closed[0]]));
      } else {
        assert w.es + [] == w.es;
      }
  }

  lemma {:induction false} UnfoldKeeps(g: Grid, began: int, w: World, hs: seq<Happening>, v: World)
    requires Lawful(g) && Datable(g, C.CurrentMinute(began))
    requires Sound(g, began, w) && Unfolds(w, hs, v)
    ensures Sound(g, began, v)
    decreases |hs|
  {
    if hs != [] {
      hide Sound, Possible, Prompt, Happen;
      HappenKeeps(g, began, w, hs[0]);
      UnfoldKeeps(g, began, Happen(w, hs[0]), hs[1..], v);
    }
  }

  lemma OpeningSound(g: Grid, began: int)
    ensures Sound(g, began, Opening(began))
  {
    C.StartBalanced(began);
  }

  // ---- Sums of reads

  function Part(c: Cell, dir: C.Direction): nat {
    match c case Row(bytes) => C.Of(bytes, dir) case Absent => 0
  }

  /** One direction of a flow's sum is what its rows add up to. */
  lemma {:induction false} TotalIsSum(t: Table, flow: Flow, dir: C.Direction, to: int)
    requires forall k :: k in t ==> 0 <= k.bucket < to
    ensures Part(Total(t, flow, 0, to), dir) == Sum(t, C.RowOfFlow(flow, dir))
    decreases t.Keys
  {
    if t.Keys == {} {
      TotalNone(t, flow, 0, to);
    } else {
      var k := Pick(t.Keys);
      TotalIsSum(t - {k}, flow, dir, to);
      SumRemove(t, C.RowOfFlow(flow, dir), k);
      Query.TotalRemove(t, k, flow, 0, to);
    }
  }

  /** The rows of the identities `ids` in a lane. */
  ghost function SumOverIds(t: Table, ids: set<int>, lane: C.Lane): int {
    if ids == {} then 0
    else
      var id := Pick(ids);
      Sum(t, C.RowOfFlow(Flow(id, lane.scope), lane.dir)) + SumOverIds(t, ids - {id}, lane)
  }

  lemma {:induction false} SumOverIdsRemove(t: Table, ids: set<int>, lane: C.Lane, k: Key)
    requires k in t
    ensures SumOverIds(t, ids, lane)
         == SumOverIds(t - {k}, ids, lane)
            + if k.flow.identity in ids && k.flow.scope == lane.scope then C.Of(t[k], lane.dir) else 0
    decreases ids
  {
    if ids != {} {
      var id := Pick(ids);
      SumRemove(t, C.RowOfFlow(Flow(id, lane.scope), lane.dir), k);
      SumOverIdsRemove(t, ids - {id}, lane, k);
    }
  }

  lemma {:induction false} SumOverIdsNone(t: Table, ids: set<int>, lane: C.Lane)
    requires t.Keys == {}
    ensures SumOverIds(t, ids, lane) == 0
    decreases ids
  {
    if ids != {} {
      SumOverIdsNone(t, ids - {Pick(ids)}, lane);
    }
  }

  lemma {:induction false} IdsCoverLane(t: Table, ids: set<int>, lane: C.Lane)
    requires forall k :: k in t ==> k.flow.identity in ids
    ensures SumOverIds(t, ids, lane) == Sum(t, C.RowInLane(lane))
    decreases t.Keys
  {
    if t.Keys == {} {
      SumOverIdsNone(t, ids, lane);
    } else {
      var k := Pick(t.Keys);
      SumOverIdsRemove(t, ids, lane, k);
      SumRemove(t, C.RowInLane(lane), k);
      IdsCoverLane(t - {k}, ids, lane);
    }
  }

  /** What reading months over all time shows of `ids`, in one direction and scope. */
  ghost function MonthsOver(db: Db, ids: set<int>, lane: C.Lane, to: int): int {
    if ids == {} then 0
    else
      var id := Pick(ids);
      Part(Stitched(db, Month, Flow(id, lane.scope), 0, to), lane.dir) + MonthsOver(db, ids - {id}, lane, to)
  }

  // ---- From end to end

  /** One flow's all-time month read is what was stored of it. */
  lemma MonthIsStored(g: Grid, r: Retention, began: int, w: World, flow: Flow, dir: C.Direction, to: int)
    requires Lawful(g) && Sound(g, began, w)
    requires forall k :: k in w.pipe.stored ==> k.bucket < to
    ensures Part(Stitched(After(g, r, w.es), Month, flow, 0, to), dir) == Sum(w.pipe.stored, C.RowOfFlow(flow, dir))
  {
    var c := Reachable(g, r, w.es, w.clock);
    assert RecordedOk(g, Log(w.es));
    assert forall k :: k in w.pipe.stored ==> Datable(g, k.bucket);
    AllTimeIsEverything(g, r, w.es, flow, to);
    TotalIsSum(w.pipe.stored, flow, dir, to);
  }

  lemma {:induction false} MonthsAreStored(g: Grid, r: Retention, began: int, w: World, ids: set<int>, lane: C.Lane,
                                           to: int)
    requires Lawful(g) && Sound(g, began, w)
    requires forall k :: k in w.pipe.stored ==> k.bucket < to
    ensures MonthsOver(After(g, r, w.es), ids, lane, to) == SumOverIds(w.pipe.stored, ids, lane)
    decreases ids
  {
    hide Lawful, Sound, Stitched;
    if ids != {} {
      var id := Pick(ids);
      MonthIsStored(g, r, began, w, Flow(id, lane.scope), lane.dir, to);
      MonthsAreStored(g, r, began, w, ids - {id}, lane, to);
    }
  }

  /** From end to end: however the kernel, the collector and the rollup job
      interleave, and wherever runs are cut short, reading months over all time
      and all identities gives every byte the kernel counted, but for what is
      still on its way (in the kernel's map, in hand, in the poll, in the
      accumulator) and the four losses. */
  lemma MonthReadsAccount(g: Grid, r: Retention, began: int, hs: seq<Happening>, w: World, lane: C.Lane, ids: set<int>,
                          to: int)
    requires Lawful(g) && Datable(g, C.CurrentMinute(began)) && Unfolds(Opening(began), hs, w)
    requires forall k :: k in w.pipe.stored ==> k.bucket < to && k.flow.identity in ids
    ensures C.Posted(w.pipe.journal, C.KernelCounted, lane)
         == MonthsOver(After(g, r, w.es), ids, lane, to)
            + Sum(w.pipe.traffic, C.InLane(lane)) + C.InHand(w.pipe, lane)
            + Sum(w.pipe.polled, C.FlowInLane(lane)) + Sum(w.pipe.acc, C.RowInLane(lane))
            + C.Posted(w.pipe.journal, C.Orphaned, lane) + C.Posted(w.pipe.journal, C.Raced, lane)
            + C.Posted(w.pipe.journal, C.Unresolved, lane) + Sum(w.pipe.unstored, C.RowInLane(lane))
  {
    OpeningSound(g, began);
    UnfoldKeeps(g, began, Opening(began), hs, w);
    MonthsAreStored(g, r, began, w, ids, lane, to);
    IdsCoverLane(w.pipe.stored, ids, lane);
    assert C.Posted(w.pipe.journal, C.KernelCounted, lane) == C.Accounted(w.pipe, lane);
  }

  /** And what a live watcher has been sent of an identity is what its all-time
      month read shows, what the accumulator still holds, and what failed to be
      written. */
  lemma MonthReadsMatchFeed(g: Grid, r: Retention, began: int, hs: seq<Happening>, w: World, flow: Flow,
                            dir: C.Direction, to: int)
    requires Lawful(g) && Datable(g, C.CurrentMinute(began)) && Unfolds(Opening(began), hs, w)
    requires forall k :: k in w.pipe.stored ==> k.bucket < to
    requires !w.pipe.pc.Folding?
    ensures C.DeltaSum(w.pipe.published, flow, dir)
         == Part(Stitched(After(g, r, w.es), Month, flow, 0, to), dir)
            + Sum(w.pipe.acc, C.RowOfFlow(flow, dir)) + Sum(w.pipe.unstored, C.RowOfFlow(flow, dir))
  {
    OpeningSound(g, began);
    UnfoldKeeps(g, began, Opening(began), hs, w);
    MonthIsStored(g, r, began, w, flow, dir, to);
    assert C.DeltaSum(w.pipe.published, flow, dir) + C.DeltaSum(C.Unpublished(w.pipe), flow, dir)
        == C.Recorded(w.pipe, flow, dir);
  }

  // ---- From what happened alone

  /** What the collector and the kernel did. */
  function ActionsOf(hs: seq<Happening>): seq<C.Action> {
    if hs == [] then []
    else (match hs[0] case Acted(_, a) => [a] case Rolled(_, _) => []) + ActionsOf(hs[1..])
  }

  lemma {:induction false} UnfoldLeads(w: World, hs: seq<Happening>, v: World)
    requires Unfolds(w, hs, v)
    ensures C.Leads(w.pipe, ActionsOf(hs), v.pipe)
    decreases |hs|
  {
    if hs != [] {
      UnfoldLeads(Happen(w, hs[0]), hs[1..], v);
      if hs[0].Acted? {
        assert ActionsOf(hs)[0] == hs[0].action && ActionsOf(hs)[1..] == ActionsOf(hs[1..]);
      } else {
        assert ActionsOf(hs) == ActionsOf(hs[1..]);
      }
    }
  }

  /** All the kernel set out to add, in one direction and scope, is in the all-time
      month reads of the identities, or on its way, or met one of the fates that
      keep it from them: refused, stray, late, ownerless, or not written. */
  lemma MonthReadsAccountForSent(g: Grid, r: Retention, began: int, hs: seq<Happening>, w: World, dir: C.Direction,
                                 scope: Scope, ids: set<int>, to: int)
    requires Lawful(g) && Datable(g, C.CurrentMinute(began)) && Unfolds(Opening(began), hs, w)
    requires forall k :: k in w.pipe.stored ==> k.bucket < to && k.flow.identity in ids
    ensures var s, did, aim, lane := C.Start(began), ActionsOf(hs), R.Across(dir, scope), C.Lane(dir, scope);
      R.Sent(did, aim, map[])
      == MonthsOver(After(g, r, w.es), ids, lane, to)
         + Sum(w.pipe.traffic, C.InLane(lane)) + C.InHand(w.pipe, lane)
         + Sum(w.pipe.polled, C.FlowInLane(lane)) + Sum(w.pipe.acc, C.RowInLane(lane))
         + R.Tally(s, R.Untold, did, R.Met(R.Refused, aim)) + R.Tally(s, R.Untold, did, R.Met(R.Stray, aim))
         + R.Tally(s, R.Untold, did, R.Met(R.Late, aim)) + R.Tally(s, R.Untold, did, R.Met(R.Ownerless, aim))
         + Sum(w.pipe.unstored, C.RowInLane(lane))
  {
    MonthReadsAccount(g, r, began, hs, w, C.Lane(dir, scope), ids, to);
    UnfoldLeads(Opening(began), hs, w);
    hide *;
    R.BooksAreTold(began, ActionsOf(hs), w.pipe, dir, scope);
  }

  /** And what the reads credited to a flow is what its all-time month read shows,
      but for what is still in the poll or the accumulator, or failed to be written. */
  lemma MonthReadIsCredited(g: Grid, r: Retention, began: int, hs: seq<Happening>, w: World, flow: Flow,
                            dir: C.Direction, to: int)
    requires Lawful(g) && Datable(g, C.CurrentMinute(began)) && Unfolds(Opening(began), hs, w)
    requires forall k :: k in w.pipe.stored ==> k.bucket < to
    ensures R.Tally(C.Start(began), R.Untold, ActionsOf(hs), R.CreditedTo(flow, dir))
         == Part(Stitched(After(g, r, w.es), Month, flow, 0, to), dir)
            + C.Of(R.Polled(w.pipe, flow), dir) + Sum(w.pipe.acc, C.RowOfFlow(flow, dir))
            + Sum(w.pipe.unstored, C.RowOfFlow(flow, dir))
  {
    OpeningSound(g, began);
    UnfoldKeeps(g, began, Opening(began), hs, w);
    MonthIsStored(g, r, began, w, flow, dir, to);
    UnfoldLeads(Opening(began), hs, w);
    R.CreditsAreRecorded(began, ActionsOf(hs), w.pipe, flow, dir);
    hide Lawful, Unfolds, Stitched, Sound;
  }
}
