/** The client's live state: for every flow a ring of recent samples, for the
    view a ring of the intervals they cover, and the rates shown from them. */
module Trends {
  import opened Counters
  import opened Identities
  import opened Query
  import Watch

  /** The length of a full ring. */
  const TREND_TICKS := 60
  /** How many of a ring's newest samples make up a rate. */
  const RATE_TICKS := 3

  datatype Counter = Counter(flow: Flow, bytes: Bytes)

  datatype Chunk = Chunk(counters: seq<Counter>, identities: seq<(int, Identity)>, intervalMs: nat)

  datatype Trend = Trend(samples: seq<Bytes>, session: Bytes)

  const ZERO := Bytes(0, 0)

  function PushCapped<T>(samples: seq<T>, sample: T): seq<T> {
    if |samples| == TREND_TICKS then samples[1..] + [sample] else samples + [sample]
  }

  /** A flow's bytes in one chunk; zero where the chunk does not mention it. */
  function DeltaOf(counters: seq<Counter>, f: Flow): Bytes {
    if counters == [] then ZERO
    else
      var last := counters[|counters| - 1];
      var rest := DeltaOf(counters[..|counters| - 1], f);
      if last.flow == f then AddBytes(rest, last.bytes) else rest
  }

  function FlowsOf(counters: seq<Counter>): set<Flow> {
    set i | 0 <= i < |counters| :: counters[i].flow
  }

  function Advance(trend: Trend, delta: Bytes): Trend {
    Trend(PushCapped(trend.samples, delta), AddBytes(trend.session, delta))
  }

  function TrendIn(flows: map<Flow, Trend>, f: Flow): Trend {
    if f in flows then flows[f] else Trend([], ZERO)
  }

  function Interval(ms: nat): nat {
    if ms < 1 then 1 else ms
  }

  /** Every known flow gets one sample per interval, and so do those the chunk
      brings. */
  function Advanced(flows: map<Flow, Trend>, counters: seq<Counter>): map<Flow, Trend> {
    map f | f in flows.Keys + FlowsOf(counters) :: Advance(TrendIn(flows, f), DeltaOf(counters, f))
  }

  class Feed {
    var identities: map<int, Identity>
    var flows: map<Flow, Trend>
    var intervals: seq<nat>

    constructor ()
      ensures identities == map[] && flows == map[] && intervals == []
    {
      identities, flows, intervals := map[], map[], [];
    }

    /** Take in one chunk of the live stream. */
    method OnChunk(chunk: Chunk)
      modifies this
      ensures flows == Advanced(old(flows), chunk.counters)
      ensures intervals == PushCapped(old(intervals), Interval(chunk.intervalMs))
      ensures identities == Watch.Merge(old(identities), chunk.identities)
    {
      var i := 0;
      while i < |chunk.identities|
        invariant 0 <= i <= |chunk.identities|
        invariant flows == old(flows) && intervals == old(intervals)
        invariant identities == Watch.Merge(old(identities), chunk.identities[..i])
      {
        assert chunk.identities[..i + 1][..i] == chunk.identities[..i];
        identities := identities[chunk.identities[i].0 := chunk.identities[i].1];
        i := i + 1;
      }
      assert chunk.identities[..i] == chunk.identities;
      var deltas := CollectDeltas(chunk.counters);
      AdvanceAll(deltas, chunk.counters);
      intervals := PushCapped(intervals, Interval(chunk.intervalMs));
    }

    /** Give every flow, old and new, its sample. */
    method AdvanceAll(deltas: map<Flow, Bytes>, counters: seq<Counter>)
      requires deltas.Keys == FlowsOf(counters)
      requires forall f :: f in deltas ==> deltas[f] == DeltaOf(counters, f)
      modifies this`flows
      ensures flows == Advanced(old(flows), counters)
    {
      var todo := flows.Keys + deltas.Keys;
      var done: set<Flow> := {};
      var start := flows;
      while todo != {}
        invariant todo + done == start.Keys + deltas.Keys && todo !! done
        invariant flows.Keys == start.Keys + done
        invariant forall f :: f in done ==> flows[f] == Advance(TrendIn(start, f), DeltaOf(counters, f))
        invariant forall f :: f in start && f !in done ==> flows[f] == start[f]
        decreases todo
      {
        var f :| f in todo;
        var trend := if f in flows then flows[f] else Trend([], ZERO);
        var delta := if f in deltas then deltas[f] else ZERO;
        if f !in deltas {
          Unmentioned(counters, f);
        }
        flows := flows[f := Advance(trend, delta)];
        todo, done := todo - {f}, done + {f};
      }
      assert done == start.Keys + deltas.Keys;
    }
  }

  lemma {:induction false} Unmentioned(counters: seq<Counter>, f: Flow)
    requires f !in FlowsOf(counters)
    ensures DeltaOf(counters, f) == ZERO
    decreases |counters|
  {
    if counters != [] {
      assert counters[|counters| - 1].flow in FlowsOf(counters);
      var rest := counters[..|counters| - 1];
      assert forall i :: 0 <= i < |rest| ==> rest[i] == counters[i];
      assert FlowsOf(rest) <= FlowsOf(counters);
      Unmentioned(rest, f);
    }
  }

  /** The chunk's bytes per flow. */
  method CollectDeltas(counters: seq<Counter>) returns (deltas: map<Flow, Bytes>)
    ensures deltas.Keys == FlowsOf(counters)
    ensures forall f :: f in deltas ==> deltas[f] == DeltaOf(counters, f)
  {
    deltas := map[];
    var i := 0;
    while i < |counters|
      invariant 0 <= i <= |counters|
      invariant deltas.Keys == FlowsOf(counters[..i])
      invariant forall f :: f in deltas ==> deltas[f] == DeltaOf(counters[..i], f)
    {
      var c := counters[i];
      assert counters[..i + 1][..i] == counters[..i];
      assert FlowsOf(counters[..i + 1]) == FlowsOf(counters[..i]) + {c.flow} by {
        FlowsStep(counters[..i], c);
        assert counters[..i + 1] == counters[..i] + [c];
      }
      if c.flow !in deltas {
        Unmentioned(counters[..i], c.flow);
      }
      deltas := deltas[c.flow := AddBytes(if c.flow in deltas then deltas[c.flow] else ZERO, c.bytes)];
      i := i + 1;
    }
    assert counters[..i] == counters;
  }

  lemma FlowsStep(rest: seq<Counter>, c: Counter)
    ensures FlowsOf(rest + [c]) == FlowsOf(rest) + {c.flow}
  {
    var all := rest + [c];
    forall f
      ensures f in FlowsOf(all) <==> f in FlowsOf(rest) + {c.flow}
    {
      if f in FlowsOf(rest) {
        var i :| 0 <= i < |rest| && rest[i].flow == f;
        assert all[i].flow == f;
      }
      if f == c.flow {
        assert all[|rest|].flow == f;
      }
    }
  }

  // ---- Whole streams

  function FlowsAfter(chunks: seq<Chunk>): map<Flow, Trend> {
    if chunks == [] then map[]
    else Advanced(FlowsAfter(chunks[..|chunks| - 1]), chunks[|chunks| - 1].counters)
  }

  function IntervalsAfter(chunks: seq<Chunk>): seq<nat> {
    if chunks == [] then []
    else PushCapped(IntervalsAfter(chunks[..|chunks| - 1]), Interval(chunks[|chunks| - 1].intervalMs))
  }

  /** A flow's deltas since the chunk that first mentioned it. */
  function Since(chunks: seq<Chunk>, f: Flow): seq<Bytes> {
    if chunks == [] then []
    else
      var rest := Since(chunks[..|chunks| - 1], f);
      var last := chunks[|chunks| - 1].counters;
      if rest == [] && f !in FlowsOf(last) then [] else rest + [DeltaOf(last, f)]
  }

  /** The sum of a flow's deltas over the whole stream. */
  function SessionOf(chunks: seq<Chunk>, f: Flow): Bytes {
    if chunks == [] then ZERO
    else AddBytes(SessionOf(chunks[..|chunks| - 1], f), DeltaOf(chunks[|chunks| - 1].counters, f))
  }

  function AllIntervals(chunks: seq<Chunk>): seq<nat> {
    if chunks == [] then []
    else AllIntervals(chunks[..|chunks| - 1]) + [Interval(chunks[|chunks| - 1].intervalMs)]
  }

  function Newest<T>(s: seq<T>): seq<T> {
    if |s| <= TREND_TICKS then s else s[|s| - TREND_TICKS..]
  }

  lemma PushNewest<T>(s: seq<T>, x: T)
    ensures PushCapped(Newest(s), x) == Newest(s + [x])
  {
  }

  lemma {:induction false} SilentSession(chunks: seq<Chunk>, f: Flow)
    requires Since(chunks, f) == []
    ensures SessionOf(chunks, f) == ZERO
    decreases |chunks|
  {
    if chunks != [] {
      SilentSession(chunks[..|chunks| - 1], f);
      Unmentioned(chunks[|chunks| - 1].counters, f);
    }
  }

  /** After any stream, every flow's samples are its last deltas, at most sixty
      of them and none from before it was first seen, and its session is the sum
      of all of them. */
  lemma {:induction false} RingsHoldNewest(chunks: seq<Chunk>, f: Flow)
    ensures f in FlowsAfter(chunks) <==> Since(chunks, f) != []
    ensures f in FlowsAfter(chunks) ==>
      FlowsAfter(chunks)[f] == Trend(Newest(Since(chunks, f)), SessionOf(chunks, f))
    ensures IntervalsAfter(chunks) == Newest(AllIntervals(chunks))
    decreases |chunks|
  {
    if chunks != [] {
      var rest, last := chunks[..|chunks| - 1], chunks[|chunks| - 1];
      RingsHoldNewest(rest, f);
      PushNewest(Since(rest, f), DeltaOf(last.counters, f));
      PushNewest(AllIntervals(rest), Interval(last.intervalMs));
      if f !in FlowsAfter(rest) {
        SilentSession(rest, f);
      }
    }
  }

  lemma {:induction false} SinceLength(chunks: seq<Chunk>, f: Flow)
    ensures |Since(chunks, f)| <= |chunks| == |AllIntervals(chunks)|
    decreases |chunks|
  {
    if chunks != [] {
      SinceLength(chunks[..|chunks| - 1], f);
    }
  }

  lemma {:induction false} IntervalsPositive(chunks: seq<Chunk>)
    ensures forall i :: 0 <= i < |AllIntervals(chunks)| ==> 1 <= AllIntervals(chunks)[i]
    decreases |chunks|
  {
    if chunks != [] {
      IntervalsPositive(chunks[..|chunks| - 1]);
    }
  }

  /** No ring is longer than the intervals', so the padding never underflows and
      no sample is divided by another's interval, or by zero. */
  predicate RingsAligned(flows: map<Flow, Trend>, intervals: seq<nat>) {
    && (forall f :: f in flows ==> |flows[f].samples| <= |intervals|)
    && (forall i :: 0 <= i < |intervals| ==> 1 <= intervals[i])
  }

  lemma AlwaysAligned(chunks: seq<Chunk>)
    ensures RingsAligned(FlowsAfter(chunks), IntervalsAfter(chunks))
    ensures |IntervalsAfter(chunks)| == if |chunks| < 60 then |chunks| else 60
  {
    SinceLength(chunks, Flow(0, External));
    forall f | f in FlowsAfter(chunks)
      ensures |FlowsAfter(chunks)[f].samples| <= |IntervalsAfter(chunks)|
    {
      RingsHoldNewest(chunks, f);
      SinceLength(chunks, f);
    }
    IntervalsPositive(chunks);
    RingsHoldNewest(chunks, Flow(0, External));
  }

  // ---- Rates

  /** What a row measures, for one identity or for several added up. In a live
      view `rate` and `samples` are per second; a history window has a total as
      its `rate` and nothing else. */
  datatype Measure = Measure(rate: Bytes, session: Bytes, samples: seq<Bytes>)

  const NOTHING := Measure(ZERO, ZERO, [])

  function SampleAt(s: seq<Bytes>, j: nat): Bytes {
    if j < |s| then s[j] else ZERO
  }

  /** `Measure::add`: the shorter trend is extended with zeros. */
  function AddMeasure(a: Measure, b: Measure): Measure {
    Measure(AddBytes(a.rate, b.rate), AddBytes(a.session, b.session),
            seq(if |a.samples| < |b.samples| then |b.samples| else |a.samples|,
                j requires 0 <= j => AddBytes(SampleAt(a.samples, j), SampleAt(b.samples, j))))
  }

  function PerSecond(b: Bytes, ms: nat): Bytes
    requires 1 <= ms
  {
    Bytes(b.ingress * 1000 / ms, b.egress * 1000 / ms)
  }

  /** The sum of the newest `RATE_TICKS`. */
  function Recent(samples: seq<Bytes>): Bytes {
    var n := |samples|;
    AddBytes(AddBytes(if n >= 3 then samples[n - 3] else ZERO, if n >= 2 then samples[n - 2] else ZERO),
             if n >= 1 then samples[n - 1] else ZERO)
  }

  function RecentMs(intervals: seq<nat>): nat {
    var n := |intervals|;
    (if n >= 3 then intervals[n - 3] else 0) + (if n >= 2 then intervals[n - 2] else 0)
    + (if n >= 1 then intervals[n - 1] else 0)
  }

  /** One flow's live measure: a ring shorter than the intervals' is padded with
      zeros at the old end. */
  function MeasureOf(trend: Trend, intervals: seq<nat>): (m: Measure)
    requires |trend.samples| <= |intervals|
    requires forall i :: 0 <= i < |intervals| ==> 1 <= intervals[i]
    ensures |m.samples| == |intervals|
  {
    var ticks := |intervals|;
    var skip := ticks - |trend.samples|;
    Measure(PerSecond(Recent(trend.samples), Interval(RecentMs(intervals))), trend.session,
            seq(ticks, j requires 0 <= j < ticks =>
              if j < skip then ZERO else PerSecond(trend.samples[j - skip], intervals[j])))
  }

  /** Every flow's own measure. */
  function Parts(flows: map<Flow, Trend>, intervals: seq<nat>): map<Flow, Measure>
    requires RingsAligned(flows, intervals)
  {
    map f | f in flows :: MeasureOf(flows[f], intervals)
  }

  function PartOf(parts: map<Flow, Measure>, want: ScopeFilter, f: Flow): Measure {
    if f in parts && Wanted(want, f.scope) then parts[f] else NOTHING
  }

  /** The sum over an identity's flows, of those the scope filter wants. */
  function MeasureIn(parts: map<Flow, Measure>, want: ScopeFilter, id: int): Measure {
    AddMeasure(PartOf(parts, want, Flow(id, External)), PartOf(parts, want, Flow(id, Loopback)))
  }

  function IdsIn(parts: map<Flow, Measure>, want: ScopeFilter): set<int> {
    set f | f in parts && Wanted(want, f.scope) :: f.identity
  }

  lemma AddNothing(m: Measure)
    ensures AddMeasure(NOTHING, m) == m && AddMeasure(m, NOTHING) == m
  {
    assert AddMeasure(NOTHING, m).samples == m.samples;
    assert AddMeasure(m, NOTHING).samples == m.samples;
  }

  lemma AddCommutes(a: Measure, b: Measure)
    ensures AddMeasure(a, b) == AddMeasure(b, a)
  {
    assert AddMeasure(a, b).samples == AddMeasure(b, a).samples;
  }

  lemma AddAssociates(a: Measure, b: Measure, c: Measure)
    ensures AddMeasure(AddMeasure(a, b), c) == AddMeasure(a, AddMeasure(b, c))
  {
    assert AddMeasure(AddMeasure(a, b), c).samples == AddMeasure(a, AddMeasure(b, c)).samples;
  }

  /** The measure of every identity with a flow in scope. */
  function MeasuresIn(parts: map<Flow, Measure>, want: ScopeFilter): map<int, Measure> {
    map id | id in IdsIn(parts, want) :: MeasureIn(parts, want, id)
  }

  /** Live measures by identity, whatever order the flows are visited in. */
  method LiveMeasures(flows: map<Flow, Trend>, intervals: seq<nat>, want: ScopeFilter)
    returns (measures: map<int, Measure>)
    requires RingsAligned(flows, intervals)
    ensures measures == MeasuresIn(Parts(flows, intervals), want)
  {
    measures := map[];
    var todo := flows.Keys;
    ghost var parts := Parts(flows, intervals);
    ghost var done: map<Flow, Measure> := map[];
    while todo != {}
      invariant todo <= flows.Keys && done == parts - todo
      invariant measures == MeasuresIn(done, want)
      decreases todo
    {
      hide MeasuresIn, MeasureOf, AddMeasure, Wanted;
      var f :| f in todo;
      var own := MeasureOf(flows[f], intervals);
      assert parts - (todo - {f}) == done[f := own];
      AddNothing(own);
      Visit(done, want, f, own);
      if Wanted(want, f.scope) {
        measures := AddInto(measures, f.identity, own);
      }
      todo := todo - {f};
      done := done[f := own];
    }
    assert done == parts;
  }

  function OfTotal(bytes: Bytes): Measure {
    Measure(bytes, ZERO, [])
  }

  /** The stored rows of a history window as measures: no session, no trend. */
  function StoredParts(counters: seq<Counter>): map<Flow, Measure> {
    map f | f in FlowsOf(counters) :: OfTotal(DeltaOf(counters, f))
  }

  /** Stored measures by identity, whatever order the rows come in. */
  method StoredMeasures(stored: seq<Counter>, want: ScopeFilter) returns (measures: map<int, Measure>)
    ensures measures == MeasuresIn(StoredParts(stored), want)
  {
    measures := map[];
    var i := 0;
    hide *;
    NoneStored(want);
    assert stored[..0] == [];
    while i < |stored|
      invariant 0 <= i <= |stored|
      invariant measures == MeasuresIn(StoredParts(stored[..i]), want)
    {
      var c := stored[i];
      var m := OfTotal(c.bytes);
      assert stored[..i + 1] == stored[..i] + [c];
      StoredStep(stored[..i], c);
      Visit(StoredParts(stored[..i]), want, c.flow, m);
      if Wanted(want, c.flow.scope) {
        measures := AddInto(measures, c.flow.identity, m);
      }
      i := i + 1;
    }
    assert stored[..i] == stored;
  }

  lemma NoneStored(want: ScopeFilter)
    ensures MeasuresIn(StoredParts([]), want) == map[]
  {
    hide AddMeasure, OfTotal;
  }

  lemma StoredStep(rest: seq<Counter>, c: Counter)
    ensures StoredParts(rest + [c]) == AddPart(StoredParts(rest), c.flow, OfTotal(c.bytes))
  {
    hide AddMeasure, Total, DeltaOf, FlowsOf;
    var more := StoredParts(rest + [c]);
    var added := AddPart(StoredParts(rest), c.flow, OfTotal(c.bytes));
    FlowsStep(rest, c);
    assert more.Keys == added.Keys;
    forall f | f in more
      ensures more[f] == added[f]
    {
      DeltaStep(rest, c, f);
      AddStored(DeltaOf(rest, f), c.bytes);
    }
  }

  lemma DeltaStep(rest: seq<Counter>, c: Counter, f: Flow)
    ensures DeltaOf(rest + [c], f) == if c.flow == f then AddBytes(DeltaOf(rest, f), c.bytes) else DeltaOf(rest, f)
    ensures f !in FlowsOf(rest) ==> DeltaOf(rest, f) == ZERO
  {
    assert (rest + [c])[..|rest|] == rest;
    if f !in FlowsOf(rest) {
      Unmentioned(rest, f);
    }
  }

  lemma AddTrendless(x: Measure, y: Measure)
    requires |x.samples| == 0 && |y.samples| == 0
    ensures AddMeasure(x, y).rate == AddBytes(x.rate, y.rate)
    ensures AddMeasure(x, y).session == AddBytes(x.session, y.session)
    ensures |AddMeasure(x, y).samples| == 0
  {
  }

  lemma AddStored(a: Bytes, b: Bytes)
    ensures AddMeasure(OfTotal(a), OfTotal(b)) == OfTotal(AddBytes(a, b))
    ensures AddMeasure(NOTHING, OfTotal(b)) == OfTotal(b)
  {
    AddNothing(OfTotal(b));
    AddTrendless(OfTotal(a), OfTotal(b));
    hide AddMeasure;
  }

  /** `measures.entry(id).or_default().add(m)`. */
  function AddInto(measures: map<int, Measure>, id: int, m: Measure): map<int, Measure> {
    measures[id := AddMeasure(if id in measures then measures[id] else NOTHING, m)]
  }

  function AddPart(parts: map<Flow, Measure>, f: Flow, m: Measure): map<Flow, Measure> {
    parts[f := AddMeasure(if f in parts then parts[f] else NOTHING, m)]
  }

  /** Adding to a flow adds to its identity, if the flow is in scope. */
  lemma Visit(parts: map<Flow, Measure>, want: ScopeFilter, f: Flow, m: Measure)
    ensures MeasuresIn(AddPart(parts, f, m), want)
         == if Wanted(want, f.scope) then AddInto(MeasuresIn(parts, want), f.identity, m) else MeasuresIn(parts, want)
  {
    hide AddMeasure;
    var after := AddPart(parts, f, m);
    VisitIds(parts, after[f], want, f);
    forall id | id != f.identity || !Wanted(want, f.scope)
      ensures MeasureIn(after, want, id) == MeasureIn(parts, want, id)
    {
    }
    if Wanted(want, f.scope) {
      VisitOwn(parts, want, f, m);
    }
    hide AddPart, MeasureIn, IdsIn;
  }

  lemma VisitOwn(parts: map<Flow, Measure>, want: ScopeFilter, f: Flow, m: Measure)
    requires Wanted(want, f.scope)
    ensures MeasureIn(AddPart(parts, f, m), want, f.identity)
         == AddMeasure(if f.identity in IdsIn(parts, want) then MeasureIn(parts, want, f.identity) else NOTHING, m)
  {
    var other := Flow(f.identity, if f.scope == External then Loopback else External);
    PartsAfterVisit(parts, want, f, m, other);
    UnseenIsNothing(parts, want, f.identity);
    var own, rest := PartOf(parts, want, f), PartOf(parts, want, other);
    hide AddMeasure, IdsIn, PartOf, Wanted, AddPart;
    AddAssociates(own, m, rest);
    AddCommutes(m, rest);
    AddAssociates(own, rest, m);
    AddAssociates(rest, own, m);
  }

  lemma UnseenIsNothing(parts: map<Flow, Measure>, want: ScopeFilter, id: int)
    ensures id !in IdsIn(parts, want) ==> MeasureIn(parts, want, id) == NOTHING
  {
    AddNothing(NOTHING);
    hide AddMeasure;
    if id !in IdsIn(parts, want) {
      assert forall f :: f in parts && Wanted(want, f.scope) ==> f.identity in IdsIn(parts, want);
    }
  }

  lemma PartsAfterVisit(parts: map<Flow, Measure>, want: ScopeFilter, f: Flow, m: Measure, other: Flow)
    requires other != f && Wanted(want, f.scope)
    ensures PartOf(AddPart(parts, f, m), want, f) == AddMeasure(PartOf(parts, want, f), m)
    ensures PartOf(AddPart(parts, f, m), want, other) == PartOf(parts, want, other)
  {
    hide AddMeasure;
  }

  lemma VisitIds(parts: map<Flow, Measure>, own: Measure, want: ScopeFilter, f: Flow)
    ensures IdsIn(parts[f := own], want) == IdsIn(parts, want) + (if Wanted(want, f.scope) then {f.identity} else {})
  {
    forall id | id in IdsIn(parts, want)
      ensures id in IdsIn(parts[f := own], want)
    {
      var g :| g in parts && Wanted(want, g.scope) && g.identity == id;
      assert g in parts[f := own];
    }
    assert f in parts[f := own];
  }

  /** So many bytes a second, in each direction, rounded down. */
  predicate IsRate(rate: Bytes, bytes: Bytes, ms: nat) {
    && ms > 0
    && rate.ingress * ms <= bytes.ingress * 1000 < (rate.ingress + 1) * ms
    && rate.egress * ms <= bytes.egress * 1000 < (rate.egress + 1) * ms
  }

  lemma Quotient(a: nat, ms: nat)
    requires ms > 0
    ensures a / ms * ms <= a < (a / ms + 1) * ms
  {
  }

  lemma PerSecondIs(bytes: Bytes, ms: nat)
    ensures Interval(ms) == if ms == 0 then 1 else ms
    ensures IsRate(PerSecond(bytes, Interval(ms)), bytes, Interval(ms))
  {
    Quotient(bytes.ingress * 1000, Interval(ms));
    Quotient(bytes.egress * 1000, Interval(ms));
  }

  /** What the live view shows for a flow's sample: its own delta of that
      interval over that interval's own length. */
  lemma SampleIsItsOwn(chunks: seq<Chunk>, f: Flow, back: nat, chunk: Chunk, m: Measure)
    requires f in FlowsAfter(chunks) && back < |FlowsAfter(chunks)[f].samples|
    requires back < |chunks| && chunk == chunks[|chunks| - 1 - back]
    requires RingsAligned(FlowsAfter(chunks), IntervalsAfter(chunks))
    requires m == MeasureOf(FlowsAfter(chunks)[f], IntervalsAfter(chunks))
    ensures back < |m.samples|
    ensures IsRate(m.samples[|m.samples| - 1 - back], DeltaOf(chunk.counters, f),
                   if chunk.intervalMs == 0 then 1 else chunk.intervalMs)
  {
    PerSecondIs(DeltaOf(chunk.counters, f), chunk.intervalMs);
    hide *;
    AlignedMeans(FlowsAfter(chunks), IntervalsAfter(chunks), f);
    RingsHoldNewest(chunks, f);
    SinceLength(chunks, f);
    var since, all := Since(chunks, f), AllIntervals(chunks);
    SampleOfNewest(FlowsAfter(chunks)[f], IntervalsAfter(chunks), since, all, back);
    SinceAt(chunks, f, back);
    IntervalAt(chunks, back);
  }

  lemma AlignedMeans(flows: map<Flow, Trend>, intervals: seq<nat>, f: Flow)
    requires RingsAligned(flows, intervals) && f in flows
    ensures |flows[f].samples| <= |intervals|
    ensures forall i :: 0 <= i < |intervals| ==> 1 <= intervals[i]
  {
  }

  lemma SampleOfNewest(trend: Trend, intervals: seq<nat>, since: seq<Bytes>, all: seq<nat>, back: nat)
    requires trend.samples == Newest(since) && intervals == Newest(all)
    requires back < |trend.samples| <= |intervals|
    requires forall i :: 0 <= i < |intervals| ==> 1 <= intervals[i]
    ensures var m := MeasureOf(trend, intervals);
      && back < |since| && back < |all| && 1 <= all[|all| - 1 - back]
      && m.samples[|m.samples| - 1 - back] == PerSecond(since[|since| - 1 - back], all[|all| - 1 - back])
  {
    hide PerSecond, Recent, RecentMs;
    NewestAt(since, back);
    NewestAt(all, back);
    MeasureSample(trend, intervals, back);
  }

  lemma NewestAt<T>(s: seq<T>, back: nat)
    requires back < |Newest(s)|
    ensures back < |s| && Newest(s)[|Newest(s)| - 1 - back] == s[|s| - 1 - back]
  {
  }

  lemma MeasureSample(trend: Trend, intervals: seq<nat>, back: nat)
    requires back < |trend.samples| <= |intervals|
    requires forall i :: 0 <= i < |intervals| ==> 1 <= intervals[i]
    ensures var m := MeasureOf(trend, intervals);
      m.samples[|m.samples| - 1 - back]
      == PerSecond(trend.samples[|trend.samples| - 1 - back], intervals[|intervals| - 1 - back])
  {
    hide PerSecond, Recent, RecentMs;
  }

  lemma {:induction false} SinceAt(chunks: seq<Chunk>, f: Flow, back: nat)
    requires back < |Since(chunks, f)| <= |chunks|
    ensures Since(chunks, f)[|Since(chunks, f)| - 1 - back] == DeltaOf(chunks[|chunks| - 1 - back].counters, f)
    decreases |chunks|
  {
    if back > 0 {
      SinceLength(chunks[..|chunks| - 1], f);
      SinceAt(chunks[..|chunks| - 1], f, back - 1);
    }
  }

  lemma {:induction false} IntervalAt(chunks: seq<Chunk>, back: nat)
    requires back < |chunks| == |AllIntervals(chunks)|
    ensures AllIntervals(chunks)[|chunks| - 1 - back] == Interval(chunks[|chunks| - 1 - back].intervalMs)
    decreases |chunks|
  {
    if back > 0 {
      SinceLength(chunks[..|chunks| - 1], Flow(0, External));
      IntervalAt(chunks[..|chunks| - 1], back - 1);
    }
  }

  /** A flow's bytes in the last `n` chunks. */
  function LastBytes(chunks: seq<Chunk>, f: Flow, n: nat): Bytes {
    if n == 0 || chunks == [] then ZERO
    else AddBytes(LastBytes(chunks[..|chunks| - 1], f, n - 1), DeltaOf(chunks[|chunks| - 1].counters, f))
  }

  /** How long the last `n` intervals were. */
  function LastMs(chunks: seq<Chunk>, n: nat): nat {
    if n == 0 || chunks == [] then 0
    else LastMs(chunks[..|chunks| - 1], n - 1) + Interval(chunks[|chunks| - 1].intervalMs)
  }

  /** The last `n` samples added up; before the first there was nothing. */
  function SumBack(s: seq<Bytes>, n: nat): Bytes {
    if n == 0 || s == [] then ZERO else AddBytes(SumBack(s[..|s| - 1], n - 1), s[|s| - 1])
  }

  function MsBack(s: seq<nat>, n: nat): nat {
    if n == 0 || s == [] then 0 else MsBack(s[..|s| - 1], n - 1) + s[|s| - 1]
  }

  lemma {:induction false} SinceSum(chunks: seq<Chunk>, f: Flow, n: nat)
    ensures SumBack(Since(chunks, f), n) == LastBytes(chunks, f, n)
    decreases |chunks|
  {
    if chunks != [] && n > 0 {
      var rest, last := chunks[..|chunks| - 1], chunks[|chunks| - 1];
      SinceSum(rest, f, n - 1);
      if Since(chunks, f) == [] {
        Unmentioned(last.counters, f);
      } else {
        var before := Since(rest, f);
        assert Since(chunks, f) == before + [DeltaOf(last.counters, f)];
        assert (before + [DeltaOf(last.counters, f)])[..|before|] == before;
      }
    }
  }

  lemma {:induction false} IntervalsSum(chunks: seq<Chunk>, n: nat)
    ensures MsBack(AllIntervals(chunks), n) == LastMs(chunks, n)
    decreases |chunks|
  {
    if chunks != [] && n > 0 {
      IntervalsSum(chunks[..|chunks| - 1], n - 1);
      hide Interval;
      MsBackAdd(AllIntervals(chunks[..|chunks| - 1]), Interval(chunks[|chunks| - 1].intervalMs), n);
    }
  }

  lemma MsBackAdd(s: seq<nat>, x: nat, n: nat)
    requires 0 < n
    ensures MsBack(s + [x], n) == MsBack(s, n - 1) + x
  {
    assert (s + [x])[..|s|] == s;
  }

  /** The ring holds enough for the rate. */
  lemma RecentIsBack(s: seq<Bytes>, i: seq<nat>)
    ensures Recent(Newest(s)) == SumBack(s, RATE_TICKS) && RecentMs(Newest(i)) == MsBack(i, RATE_TICKS)
  {
    assert Recent(Newest(s)) == Recent(s) && RecentMs(Newest(i)) == RecentMs(i);
    hide Newest;
    BackThree(s);
    MsBackThree(i);
  }

  lemma BackThree(s: seq<Bytes>)
    ensures Recent(s) == SumBack(s, RATE_TICKS)
  {
    var n := |s|;
    if n >= 2 {
      assert s[..n - 1][..n - 2] == s[..n - 2] && s[..n - 1][n - 2] == s[n - 2];
    }
    if n >= 3 {
      assert s[..n - 2][n - 3] == s[n - 3];
      assert SumBack(s[..n - 2], 1) == s[n - 3];
    }
    if n >= 2 {
      assert SumBack(s[..n - 1], 2) == AddBytes(SumBack(s[..n - 2], 1), s[n - 2]);
    }
  }

  lemma MsBackThree(s: seq<nat>)
    ensures RecentMs(s) == MsBack(s, RATE_TICKS)
  {
    var n := |s|;
    if n >= 2 {
      assert s[..n - 1][..n - 2] == s[..n - 2] && s[..n - 1][n - 2] == s[n - 2];
    }
    if n >= 3 {
      assert s[..n - 2][n - 3] == s[n - 3];
      assert MsBack(s[..n - 2], 1) == s[n - 3];
    }
    if n >= 2 {
      assert MsBack(s[..n - 1], 2) == MsBack(s[..n - 2], 1) + s[n - 2];
    }
  }

  lemma SomeTime(chunks: seq<Chunk>, f: Flow)
    requires f in FlowsAfter(chunks)
    ensures 1 <= LastMs(chunks, 3)
  {
  }

  /** The rate shown for a flow is its bytes in the last three intervals over
      those intervals' length, however long ago it was first seen, and its
      session is everything since the view opened. */
  lemma RateIsRecent(chunks: seq<Chunk>, f: Flow, m: Measure)
    requires f in FlowsAfter(chunks)
    requires RingsAligned(FlowsAfter(chunks), IntervalsAfter(chunks))
    requires m == MeasureOf(FlowsAfter(chunks)[f], IntervalsAfter(chunks))
    ensures IsRate(m.rate, LastBytes(chunks, f, 3), LastMs(chunks, 3))
    ensures m.session == SessionOf(chunks, f)
  {
    SomeTime(chunks, f);
    PerSecondIs(LastBytes(chunks, f, 3), LastMs(chunks, 3));
    RingsHoldNewest(chunks, f);
    SinceSum(chunks, f, RATE_TICKS);
    IntervalsSum(chunks, RATE_TICKS);
    RecentIsBack(Since(chunks, f), AllIntervals(chunks));
    hide PerSecond, Recent, RecentMs, Interval, Newest, Since, AllIntervals, SumBack, MsBack, LastBytes, LastMs,
         FlowsAfter, SessionOf, IntervalsAfter;
  }

  /** `from` is the first chunk to mention `f`, or the stream's length. */
  predicate FirstMention(chunks: seq<Chunk>, f: Flow, from: nat) {
    && from <= |chunks|
    && (forall i :: 0 <= i < from ==> f !in FlowsOf(chunks[i].counters))
    && (from < |chunks| ==> f in FlowsOf(chunks[from].counters))
  }

  lemma {:induction false} SinceFirst(chunks: seq<Chunk>, f: Flow, from: nat)
    requires FirstMention(chunks, f, from)
    ensures |Since(chunks, f)| == |chunks| - from
    decreases |chunks|
  {
    if chunks != [] {
      var rest := chunks[..|chunks| - 1];
      hide FlowsOf;
      SinceFirst(rest, f, if from == |chunks| then from - 1 else from);
    }
  }

  /** A flow is followed from the chunk that first mentions it, for sixty samples at
      most; what is shown of before then is zero, and is shown as far back as there
      are intervals. */
  lemma RingReaches(chunks: seq<Chunk>, f: Flow, from: nat, back: nat)
    requires FirstMention(chunks, f, from)
    ensures f in FlowsAfter(chunks) <==> from < |chunks|
    ensures from < |chunks| ==>
      && |FlowsAfter(chunks)[f].samples| == (if |chunks| - from < 60 then |chunks| - from else 60)
      && RingsAligned(FlowsAfter(chunks), IntervalsAfter(chunks))
      && var m := MeasureOf(FlowsAfter(chunks)[f], IntervalsAfter(chunks));
         |m.samples| == |IntervalsAfter(chunks)|
         && (|chunks| - from <= back < |m.samples| ==> m.samples[|m.samples| - 1 - back] == Bytes(0, 0))
  {
    SinceFirst(chunks, f, from);
    RingsHoldNewest(chunks, f);
    AlwaysAligned(chunks);
    if from < |chunks| {
      AlignedMeans(FlowsAfter(chunks), IntervalsAfter(chunks), f);
      Padding(FlowsAfter(chunks)[f], IntervalsAfter(chunks), back);
    }
    hide RingsAligned, MeasureOf, FlowsAfter, IntervalsAfter, FirstMention, Since, SessionOf, AllIntervals;
  }

  lemma Padding(trend: Trend, intervals: seq<nat>, back: nat)
    requires |trend.samples| <= |intervals| && forall i :: 0 <= i < |intervals| ==> 1 <= intervals[i]
    ensures var m := MeasureOf(trend, intervals);
      |trend.samples| <= back < |m.samples| ==> m.samples[|m.samples| - 1 - back] == Bytes(0, 0)
  {
    hide PerSecond, Recent, RecentMs;
  }

  /** A chunk's bytes for a flow: nothing, one counter's own, and those of two lists
      together, in each direction. */
  lemma {:induction false} DeltaAddsUp(a: seq<Counter>, b: seq<Counter>, c: Counter, f: Flow)
    ensures DeltaOf([], f) == Bytes(0, 0) && DeltaOf([c], f) == if c.flow == f then c.bytes else Bytes(0, 0)
    ensures DeltaOf(a + b, f).ingress == DeltaOf(a, f).ingress + DeltaOf(b, f).ingress
    ensures DeltaOf(a + b, f).egress == DeltaOf(a, f).egress + DeltaOf(b, f).egress
    decreases |b|
  {
    assert [c][..0] == [];
    if b == [] {
      assert a + b == a;
    } else {
      assert (a + b)[..|a + b| - 1] == a + b[..|b| - 1];
      DeltaAddsUp(a, b[..|b| - 1], c, f);
    }
  }
}
