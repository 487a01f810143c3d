/** `top`: everyone's totals over a window, grouped and ranked, under the
    caller's visibility. */
module Top {
  import opened Counters
  import opened Zones
  import opened Rollup
  import opened Invariant
  import opened History
  import opened Stitch
  import opened Ranking
  import opened Identities
  import opened Query

  /** A request's selection. The dimension filters are substring and equality
      tests on the identity, so they are one predicate here. */
  datatype Selection = Selection(vis: Visibility, grouping: GroupBy, want: ScopeFilter, matches: Identity -> bool)

  /** The key a flow is counted under, if the caller may see it and asked for it. */
  function Label(ids: Registry, s: Selection, f: Flow): Option<SumKey> {
    if f.identity in ids && Sees(s.vis, ids[f.identity]) && s.matches(ids[f.identity]) && Wanted(s.want, f.scope)
    then Some(SumKey(if Grouped(s.grouping) then 0 else f.identity, StoredGroup(ids[f.identity], s.grouping), f.scope))
    else None
  }

  /** The joined and filtered rows, as counters. */
  function TopEntries(ids: Registry, s: Selection, rows: seq<FactRow>): seq<Entry> {
    if rows == [] then []
    else
      var row := rows[|rows| - 1];
      TopEntries(ids, s, rows[..|rows| - 1])
      + match Label(ids, s, row.key.flow) case Some(k) => [Entry(k, row.bytes)] case None => []
  }

  function Answer(ids: Registry, s: Selection, dir: Direction, limit: nat, rows: seq<FactRow>): seq<Entry> {
    Leaders(dir, TopEntries(ids, s, rows), limit)
  }

  /** However the database groups and sorts, a list in the order the query names,
      with each group's sum and nothing else, is the answer. */
  lemma AnyOrderedAnswer(ids: Registry, s: Selection, dir: Direction, rows: seq<FactRow>, answer: seq<Entry>)
    requires Ranked(dir, answer)
    requires forall k, b :: Entry(k, b) in answer <==> SumOf(TopEntries(ids, s, rows), k) == Row(b)
    ensures answer == Answer(ids, s, dir, 0, rows)
  {
    LeadersUnique(dir, TopEntries(ids, s, rows), answer);
  }

  lemma TopStep(ids: Registry, s: Selection, rest: seq<FactRow>, row: FactRow, k: SumKey)
    ensures SumOf(TopEntries(ids, s, rest + [row]), k)
         == Plus(SumOf(TopEntries(ids, s, rest), k),
                 if Label(ids, s, row.key.flow) == Some(k) then Row(row.bytes) else Absent)
  {
    assert (rest + [row])[..|rest|] == rest;
    var before := TopEntries(ids, s, rest);
    match Label(ids, s, row.key.flow)
    case Some(under) => assert (before + [Entry(under, row.bytes)])[..|before|] == before;
    case None => assert before + [] == before;
  }

  function Without(rows: seq<FactRow>, f: Flow): seq<FactRow> {
    if rows == [] then []
    else Without(rows[..|rows| - 1], f) + if rows[|rows| - 1].key.flow == f then [] else [rows[|rows| - 1]]
  }

  /** The sum of all of a flow's rows. */
  function FlowSum(rows: seq<FactRow>, f: Flow): Cell {
    if rows == [] then Absent
    else Plus(FlowSum(rows[..|rows| - 1], f),
              if rows[|rows| - 1].key.flow == f then Row(rows[|rows| - 1].bytes) else Absent)
  }

  /** A key's sum is its flows' sums: set one flow's rows aside. */
  lemma {:induction false} SetAside(ids: Registry, s: Selection, rows: seq<FactRow>, f: Flow, k: SumKey)
    ensures SumOf(TopEntries(ids, s, rows), k)
         == Plus(SumOf(TopEntries(ids, s, Without(rows, f)), k),
                 if Label(ids, s, f) == Some(k) then FlowSum(rows, f) else Absent)
    decreases |rows|
  {
    if rows != [] {
      var rest, row := rows[..|rows| - 1], rows[|rows| - 1];
      assert rows == rest + [row];
      SetAside(ids, s, rest, f, k);
      var without := SumOf(TopEntries(ids, s, Without(rest, f)), k);
      var apart := if Label(ids, s, f) == Some(k) then FlowSum(rest, f) else Absent;
      var own := if Label(ids, s, row.key.flow) == Some(k) then Row(row.bytes) else Absent;
      TopStep(ids, s, rest, row, k);
      if row.key.flow != f {
        TopStep(ids, s, Without(rest, f), row, k);
        assert Without(rows, f) == Without(rest, f) + [row];
        hide TopEntries, SumOf, Label, Plus;
        assert FlowSum(rows, f) == Plus(FlowSum(rest, f), Absent);
        PlusShift(without, apart, own);
        PlusZero(FlowSum(rest, f));
      } else {
        assert Without(rows, f) == Without(rest, f) + [] == Without(rest, f);
        assert FlowSum(rows, f) == Plus(FlowSum(rest, f), Row(row.bytes));
        hide TopEntries, SumOf, Label, Plus;
        PlusAssociates(without, apart, own);
        PlusZero(apart);
      }
    }
  }

  lemma PlusZero(a: Cell)
    ensures Plus(a, Absent) == a
  {
  }

  lemma {:induction false} WithoutSum(rows: seq<FactRow>, f: Flow, other: Flow)
    ensures FlowSum(Without(rows, f), other) == if other == f then Absent else FlowSum(rows, other)
    ensures forall i :: 0 <= i < |Without(rows, f)| ==>
      Without(rows, f)[i].key.flow != f && Without(rows, f)[i] in rows
    decreases |rows|
  {
    if rows != [] {
      var rest, row := rows[..|rows| - 1], rows[|rows| - 1];
      WithoutSum(rest, f, other);
      var before := Without(rest, f);
      assert (before + [row])[..|before|] == before;
      assert before + [] == before;
    }
  }

  ghost predicate FlowsIn(rows: seq<FactRow>, flows: set<Flow>) {
    forall i :: 0 <= i < |rows| ==> rows[i].key.flow in flows
  }

  lemma WithoutFlow(rows: seq<FactRow>, flows: set<Flow>, f: Flow)
    requires FlowsIn(rows, flows)
    ensures FlowsIn(Without(rows, f), flows - {f})
  {
    WithoutSum(rows, f, f);
    hide Without;
    forall i | 0 <= i < |Without(rows, f)|
      ensures Without(rows, f)[i].key.flow in flows - {f}
    {
      var j :| 0 <= j < |rows| && rows[j] == Without(rows, f)[i];
    }
  }

  lemma SomeFlow(rows: seq<FactRow>, flows: set<Flow>)
    requires FlowsIn(rows, flows) && rows != []
    ensures flows != {}
  {
    assert rows[0].key.flow in flows;
  }

  /** The answer depends on the rows only through the sums of the flows the
      caller is shown. */
  lemma {:induction false} FlowSumsDetermine(ids: Registry, ids': Registry, s: Selection, rows: seq<FactRow>,
                                             rows': seq<FactRow>,
                                             flows: set<Flow>, k: SumKey)
    requires FlowsIn(rows, flows) && FlowsIn(rows', flows)
    requires forall f :: Label(ids, s, f) == Label(ids', s, f)
    requires forall f :: Label(ids, s, f).Some? ==> FlowSum(rows, f) == FlowSum(rows', f)
    ensures SumOf(TopEntries(ids, s, rows), k) == SumOf(TopEntries(ids', s, rows'), k)
    decreases flows
  {
    if flows == {} {
      if rows != [] {
        SomeFlow(rows, flows);
      }
      if rows' != [] {
        SomeFlow(rows', flows);
      }
    } else {
      var f := Pick(flows);
      SetAside(ids, s, rows, f, k);
      SetAside(ids', s, rows', f, k);
      WithoutSum(rows, f, f);
      WithoutSum(rows', f, f);
      WithoutFlow(rows, flows, f);
      WithoutFlow(rows', flows, f);
      hide TopEntries, SumOf, Label, Without, FlowSum, FlowsIn;
      forall other | Label(ids, s, other).Some?
        ensures FlowSum(Without(rows, f), other) == FlowSum(Without(rows', f), other)
      {
        WithoutSum(rows, f, other);
        WithoutSum(rows', f, other);
      }
      FlowSumsDetermine(ids, ids', s, Without(rows, f), Without(rows', f), flows - {f}, k);
    }
  }

  lemma AnswersAgree(ids: Registry, ids': Registry, s: Selection, dir: Direction, limit: nat,
                     rows: seq<FactRow>, rows': seq<FactRow>)
    requires forall f :: Label(ids, s, f) == Label(ids', s, f)
    requires forall f :: Label(ids, s, f).Some? ==> FlowSum(rows, f) == FlowSum(rows', f)
    ensures Answer(ids, s, dir, limit, rows) == Answer(ids', s, dir, limit, rows')
  {
    var flows := (set i | 0 <= i < |rows| :: rows[i].key.flow) + (set i | 0 <= i < |rows'| :: rows'[i].key.flow);
    assert FlowsIn(rows, flows) && FlowsIn(rows', flows);
    forall k
      ensures SumOf(TopEntries(ids, s, rows), k) == SumOf(TopEntries(ids', s, rows'), k)
    {
      FlowSumsDetermine(ids, ids', s, rows, rows', flows, k);
    }
    LeadersDetermined(dir, TopEntries(ids, s, rows), TopEntries(ids', s, rows'), limit);
  }

  lemma {:induction false} FlowSumInWindow(rows: seq<FactRow>, f: Flow, lo: int, hi: int)
    requires forall i :: 0 <= i < |rows| ==> lo <= rows[i].key.bucket < hi
    ensures FlowSum(rows, f) == RowSum(rows, f, lo, hi)
    decreases |rows|
  {
    if rows != [] {
      FlowSumInWindow(rows[..|rows| - 1], f, lo, hi);
    }
  }

  lemma {:induction false} FlattenInWindow(parts: seq<seq<FactRow>>, lo: int, hi: int)
    requires forall i, j :: 0 <= i < |parts| && 0 <= j < |parts[i]| ==> lo <= parts[i][j].key.bucket < hi
    ensures forall j :: 0 <= j < |Flatten(parts)| ==> lo <= Flatten(parts)[j].key.bucket < hi
    decreases |parts|
  {
    if parts != [] {
      FlattenInWindow(parts[..|parts| - 1], lo, hi);
    }
  }

  lemma DeliveredFlowSum(rows: seq<FactRow>, db: Db, tier: Tier, from: int, to: int, f: Flow)
    requires Delivered(rows, db, tier, from, to)
    ensures FlowSum(rows, f) == Stitched(db, tier, f, from, to)
  {
    DeliveredInWindow(rows, db, tier, from, to);
    hide Delivered;
    FlowSumInWindow(rows, f, from, to);
    DeliveredSum(rows, db, tier, from, to, f, from, to);
  }

  lemma DeliveredInWindow(rows: seq<FactRow>, db: Db, tier: Tier, from: int, to: int)
    requires Delivered(rows, db, tier, from, to)
    ensures forall i :: 0 <= i < |rows| ==> from <= rows[i].key.bucket < to
  {
    var parts :| UnionOf(rows, parts, db, Pieces(db, tier), from, to);
    hide Enumerates, Flatten, Pieces;
    UnionInWindow(parts, db, Pieces(db, tier), from, to);
    SameInWindow(rows, Flatten(parts), from, to);
  }

  lemma UnionInWindow(parts: seq<seq<FactRow>>, db: Db, ps: seq<Piece>, from: int, to: int)
    requires |parts| == |ps|
    requires forall i :: 0 <= i < |ps| ==>
      Enumerates(parts[i], Rows(db, ps[i].source), Greater(from, ps[i].lower), to)
    ensures forall j :: 0 <= j < |Flatten(parts)| ==> from <= Flatten(parts)[j].key.bucket < to
  {
    forall i, j | 0 <= i < |parts| && 0 <= j < |parts[i]|
      ensures from <= parts[i][j].key.bucket < to
    {
      assert Enumerates(parts[i], Rows(db, ps[i].source), Greater(from, ps[i].lower), to);
    }
    FlattenInWindow(parts, from, to);
  }

  lemma SameInWindow(rows: seq<FactRow>, flat: seq<FactRow>, from: int, to: int)
    requires multiset(rows) == multiset(flat) && forall j :: 0 <= j < |flat| ==> from <= flat[j].key.bucket < to
    ensures forall i :: 0 <= i < |rows| ==> from <= rows[i].key.bucket < to
  {
    forall i | 0 <= i < |rows|
      ensures from <= rows[i].key.bucket < to
    {
      assert rows[i] in multiset(flat);
      var j :| 0 <= j < |flat| && flat[j] == rows[i];
    }
  }

  lemma EnumeratedFlowSum(rows: seq<FactRow>, t: Table, from: int, to: int, f: Flow)
    requires Enumerates(rows, t, from, to)
    ensures FlowSum(rows, f) == Total(t, f, from, to)
  {
    FlowSumInWindow(rows, f, from, to);
    EnumeratedSum(rows, t, from, to, f, from, to);
  }

  /** `top` over a window on its tier's bounds and within retention answers as if
      it had read every recorded minute of the window, whatever has been rolled
      up or pruned and in whatever order the rows arrive: the same rows, in the
      same order, under any grouping, ranking and limit. */
  lemma TopIsDirect(g: Grid, r: Retention, es: seq<Event>, now: int, tier: Tier, from: int, to: int,
                    rows: seq<FactRow>, minutes: seq<FactRow>,
                    ids: Registry, s: Selection, dir: Direction, limit: nat)
    requires Lawful(g) && Timely(g, es) && By(es, now)
    requires Aligned(g, tier, from) && Aligned(g, tier, to) && from <= to
    requires Retained(r, tier, from, now)
    requires Delivered(rows, After(g, r, es), tier, from, to)
    requires Enumerates(minutes, Log(es), from, to)
    ensures Answer(ids, s, dir, limit, rows) == Answer(ids, s, dir, limit, minutes)
  {
    forall f
      ensures FlowSum(rows, f) == FlowSum(minutes, f)
    {
      DeliveredFlowSum(rows, After(g, r, es), tier, from, to, f);
      EnumeratedFlowSum(minutes, Log(es), from, to, f);
      ReadsAreExact(g, r, es, now, tier, f, from, to);
    }
    AnswersAgree(ids, ids, s, dir, limit, rows, minutes);
  }

  /** The answer is the same before and after any rollup run. */
  lemma TopInvisible(g: Grid, r: Retention, es: seq<Event>, now: int, steps: nat, tier: Tier, from: int, to: int,
                     rows: seq<FactRow>, rows': seq<FactRow>, ids: Registry, s: Selection, dir: Direction, limit: nat)
    requires Lawful(g) && Timely(g, es) && By(es, now)
    requires Aligned(g, tier, from) && Aligned(g, tier, to) && from <= to
    requires Retained(r, tier, from, now)
    requires Delivered(rows, After(g, r, es), tier, from, to)
    requires Delivered(rows', After(g, r, es + [Ran(now, steps)]), tier, from, to)
    ensures Answer(ids, s, dir, limit, rows) == Answer(ids, s, dir, limit, rows')
  {
    forall f
      ensures FlowSum(rows, f) == FlowSum(rows', f)
    {
      DeliveredFlowSum(rows, After(g, r, es), tier, from, to, f);
      DeliveredFlowSum(rows', After(g, r, es + [Ran(now, steps)]), tier, from, to, f);
      RollupIsInvisible(g, r, es, now, steps, tier, f, from, to);
    }
    AnswersAgree(ids, ids, s, dir, limit, rows, rows');
  }

  // ---- Visibility

  /** The same identities with this uid, and the same minutes recorded for them. */
  ghost predicate SameTo(u: nat, ids: Registry, ids': Registry, log: Table, log': Table) {
    && (forall id :: (id in ids && ids[id].record.key.uid == u) || (id in ids' && ids'[id].record.key.uid == u) ==>
          id in ids && id in ids' && ids[id] == ids'[id])
    && (forall b, f: Flow :: f.identity in ids && ids[f.identity].record.key.uid == u ==>
          At(log, b, f) == At(log', b, f))
  }

  lemma SameLabels(u: nat, ids: Registry, ids': Registry, log: Table, log': Table, s: Selection)
    requires s.vis == Uid(u) && SameTo(u, ids, ids', log, log')
    ensures forall f :: Label(ids, s, f) == Label(ids', s, f)
  {
    forall f
      ensures Label(ids, s, f) == Label(ids', s, f)
    {
      var id := f.identity;
      assert (id in ids && ids[id].record.key.uid == u) || (id in ids' && ids'[id].record.key.uid == u) ==>
          id in ids && id in ids' && ids[id] == ids'[id];
    }
  }

  lemma OwnTotals(u: nat, ids: Registry, ids': Registry, log: Table, log': Table, s: Selection, f: Flow, from: int,
                  to: int)
    requires s.vis == Uid(u) && SameTo(u, ids, ids', log, log') && Label(ids, s, f).Some?
    ensures Total(log, f, from, to) == Total(log', f, from, to)
  {
    TotalSame(log, log', f, from, to);
  }

  /** A uid's answer is a function of its own recorded minutes: two histories
      that agree on them, and otherwise differ in any way at all, in traffic,
      in what has been rolled up and in the watermarks everyone shares, give
      that uid the same `top`. */
  lemma OwnTrafficOnly(g: Grid, r: Retention, es: seq<Event>, es': seq<Event>, now: int, tier: Tier, from: int, to: int,
                       rows: seq<FactRow>, rows': seq<FactRow>, u: nat, ids: Registry, ids': Registry, s: Selection,
                       dir: Direction, limit: nat)
    requires Lawful(g) && Timely(g, es) && By(es, now) && Timely(g, es') && By(es', now)
    requires Aligned(g, tier, from) && Aligned(g, tier, to) && from <= to
    requires Retained(r, tier, from, now)
    requires Delivered(rows, After(g, r, es), tier, from, to)
    requires Delivered(rows', After(g, r, es'), tier, from, to)
    requires s.vis == Uid(u) && SameTo(u, ids, ids', Log(es), Log(es'))
    ensures Answer(ids, s, dir, limit, rows) == Answer(ids', s, dir, limit, rows')
  {
    SameLabels(u, ids, ids', Log(es), Log(es'), s);
    forall f | Label(ids, s, f).Some?
      ensures FlowSum(rows, f) == FlowSum(rows', f)
    {
      OwnTotals(u, ids, ids', Log(es), Log(es'), s, f, from, to);
      hide *;
      DeliveredFlowSum(rows, After(g, r, es), tier, from, to, f);
      DeliveredFlowSum(rows', After(g, r, es'), tier, from, to, f);
      ReadsAreExact(g, r, es, now, tier, f, from, to);
      ReadsAreExact(g, r, es', now, tier, f, from, to);
    }
    hide *;
    AnswersAgree(ids, ids', s, dir, limit, rows, rows');
  }

  /** The sum under `k` over the visibility of each uid below `n`. */
  function SumOverUids(ids: Registry, s: Selection, rows: seq<FactRow>, k: SumKey, n: nat): Cell {
    if n == 0 then Absent
    else Plus(SumOverUids(ids, s, rows, k, n - 1), SumOf(TopEntries(ids, s.(vis := Uid(n - 1)), rows), k))
  }

  /** A row's share of the sum under `k` that uids below `n` see. */
  function ShareBelow(ids: Registry, s: Selection, row: FactRow, k: SumKey, n: nat): Cell {
    if Label(ids, s, row.key.flow) == Some(k) && ids[row.key.flow.identity].record.key.uid < n
    then Row(row.bytes) else Absent
  }

  lemma OneUidMore(ids: Registry, s: Selection, row: FactRow, k: SumKey, n: nat)
    requires s.vis == All && 0 < n
    ensures Plus(ShareBelow(ids, s, row, k, n - 1),
                 if Label(ids, s.(vis := Uid(n - 1)), row.key.flow) == Some(k) then Row(row.bytes) else Absent)
         == ShareBelow(ids, s, row, k, n)
  {
  }

  lemma {:induction false} SumOverUidsStep(ids: Registry, s: Selection, rest: seq<FactRow>, row: FactRow, k: SumKey,
                                           n: nat)
    requires s.vis == All
    ensures SumOverUids(ids, s, rest + [row], k, n)
           == Plus(SumOverUids(ids, s, rest, k, n), ShareBelow(ids, s, row, k, n))
    decreases n
  {
    if n > 0 {
      var mine := s.(vis := Uid(n - 1));
      hide TopEntries, SumOf, Label, Sees;
      assert SumOverUids(ids, s, rest + [row], k, n)
          == Plus(SumOverUids(ids, s, rest + [row], k, n - 1), SumOf(TopEntries(ids, mine, rest + [row]), k));
      var here := if Label(ids, mine, row.key.flow) == Some(k) then Row(row.bytes) else Absent;
      hide Plus, ShareBelow;
      OneUidMore(ids, s, row, k, n);
      SumOverUidsStep(ids, s, rest, row, k, n - 1);
      TopStep(ids, mine, rest, row, k);
      PlusExchange(SumOverUids(ids, s, rest, k, n - 1), ShareBelow(ids, s, row, k, n - 1),
                   SumOf(TopEntries(ids, mine, rest), k), here);
    }
  }

  lemma {:induction false} SumOverUidsNone(ids: Registry, s: Selection, k: SumKey, n: nat)
    ensures SumOverUids(ids, s, [], k, n) == Absent
    decreases n
  {
    if n > 0 {
      SumOverUidsNone(ids, s, k, n - 1);
    }
  }

  /** Each identity is seen by exactly one uid, so what the uids see adds up to
      what root sees. */
  lemma {:induction false} UidsPartition(ids: Registry, s: Selection, rows: seq<FactRow>, k: SumKey, n: nat)
    requires s.vis == All && forall id :: id in ids ==> ids[id].record.key.uid < n
    ensures SumOverUids(ids, s, rows, k, n) == SumOf(TopEntries(ids, s, rows), k)
    decreases |rows|
  {
    if rows == [] {
      SumOverUidsNone(ids, s, k, n);
    } else {
      var rest, row := rows[..|rows| - 1], rows[|rows| - 1];
      assert rows == rest + [row];
      UidsPartition(ids, s, rest, k, n);
      SumOverUidsStep(ids, s, rest, row, k, n);
      TopStep(ids, s, rest, row, k);
    }
  }
}
