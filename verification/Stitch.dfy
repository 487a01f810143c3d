/** Reading a tier pieces together several tables. In every reachable state the
    pieces add up to what was recorded. */
module Stitch {
  import opened Counters
  import opened Zones
  import opened Rollup
  import opened Invariant
  import opened History

  /** One `SELECT ... FROM table WHERE bucket >= lower` of the union. */
  datatype Piece = Piece(source: Tier, lower: int)

  function Pieces(db: Db, tier: Tier): seq<Piece> {
    match tier
    case Minute => [Piece(Minute, 0)]
    case Hour => [Piece(Hour, 0), Piece(Minute, Through(db, Hour))]
    case Day => [Piece(Day, 0), Piece(Minute, Through(db, Day))]
    case Month => [Piece(Month, 0), Piece(Day, Through(db, Month)), Piece(Minute, Through(db, Day))]
  }

  function PieceTotal(db: Db, p: Piece, f: Flow, from: int, to: int): Cell {
    Total(Rows(db, p.source), f, Greater(from, p.lower), to)
  }

  function PiecesTotal(db: Db, ps: seq<Piece>, f: Flow, from: int, to: int): Cell {
    if ps == [] then Absent
    else Plus(PiecesTotal(db, ps[..|ps| - 1], f, from, to), PieceTotal(db, ps[|ps| - 1], f, from, to))
  }

  /** The sum of `f`'s rows in the `UNION ALL` over `[from, to)`. */
  function Stitched(db: Db, tier: Tier, f: Flow, from: int, to: int): Cell {
    PiecesTotal(db, Pieces(db, tier), f, from, to)
  }

  function RetentionOf(r: Retention, tier: Tier): Option<int> {
    match tier
    case Minute => Some(r.minute)
    case Hour => Some(r.hour)
    case Day => Some(r.day)
    case Month => None
  }

  /** No row of `tier` at or after `from` is old enough to prune. */
  predicate Retained(r: Retention, tier: Tier, from: int, now: int) {
    match RetentionOf(r, tier) case Some(length) => now - from <= length case None => true
  }

  predicate Aligned(g: Grid, tier: Tier, t: int) {
    tier == Minute || Edge(g, tier, t)
  }

  function CutOf(c: Cuts, tier: Tier): int {
    match tier
    case Minute => c.minute
    case Hour => c.hour
    case Day => c.day
    case Month => 0
  }

  lemma StitchedPieces(db: Db, tier: Tier, f: Flow, from: int, to: int)
    ensures Stitched(db, Minute, f, from, to) == PieceTotal(db, Piece(Minute, 0), f, from, to)
    ensures tier == Hour || tier == Day ==>
      Stitched(db, tier, f, from, to)
      == Plus(PieceTotal(db, Piece(tier, 0), f, from, to),
              PieceTotal(db, Piece(Minute, Through(db, tier)), f, from, to))
    ensures Stitched(db, Month, f, from, to)
      == Plus(Plus(PieceTotal(db, Piece(Month, 0), f, from, to),
                   PieceTotal(db, Piece(Day, Through(db, Month)), f, from, to)),
              PieceTotal(db, Piece(Minute, Through(db, Day)), f, from, to))
  {
    hide PieceTotal;
    var month := Pieces(db, Month);
    OnePiece(db, month[0], f, from, to);
    assert month[..2][..1] == [month[0]] && month[..2][1] == month[1];
    assert PiecesTotal(db, month[..2], f, from, to)
        == Plus(PieceTotal(db, month[0], f, from, to), PieceTotal(db, month[1], f, from, to));
    OnePiece(db, Piece(Minute, 0), f, from, to);
    assert Pieces(db, Minute) == [Piece(Minute, 0)];
    if tier == Hour || tier == Day {
      OnePiece(db, Piece(tier, 0), f, from, to);
      assert Pieces(db, tier)[..1] == [Piece(tier, 0)];
    }
  }

  lemma OnePiece(db: Db, p: Piece, f: Flow, from: int, to: int)
    ensures PiecesTotal(db, [p], f, from, to) == PieceTotal(db, p, f, from, to)
  {
    assert [p][..0] == [];
    assert PiecesTotal(db, [], f, from, to) == Absent;
  }

  // ---- Windows that fall on bucket bounds

  /** A folded table over whole buckets, `through` wherever it may lie. */
  lemma FoldedPart(g: Grid, recorded: Table, t: Table, tier: Tier, cut: int, through: int, f: Flow, lo: int, hi: int)
    requires Partitions(g, tier) && Folded(g, recorded, t, tier, cut, through)
    requires Edge(g, tier, lo) && Edge(g, tier, hi) && cut <= lo <= hi
    requires lo < through ==> Edge(g, tier, through)
    ensures Total(t, f, lo, hi) == Total(recorded, f, lo, Lesser(Greater(lo, through), hi))
  {
    if through <= lo {
      FoldedNone(g, recorded, t, tier, cut, through, f, lo, hi);
    } else if hi <= through {
      FoldedTotal(g, recorded, t, tier, cut, through, f, lo, hi);
    } else {
      FoldedTotal(g, recorded, t, tier, cut, through, f, lo, through);
      FoldedNone(g, recorded, t, tier, cut, through, f, through, hi);
      TotalSplit(t, f, lo, through, hi);
    }
  }

  lemma ThroughIsEdge(g: Grid, recorded: Table, db: Db, tier: Tier, clock: int)
    requires Lawful(g) && MarkOk(g, recorded, tier, Mark(db, tier), clock)
    ensures 0 < Through(db, tier) ==> Edge(g, tier, Through(db, tier))
  {
    assert Partitions(g, tier);
    if Mark(db, tier).Some? {
      MarkIsEdge(g, recorded, tier, Mark(db, tier), clock);
    }
  }

  lemma MinuteTierExact(g: Grid, r: Retention, db: Db, recorded: Table, clock: int, c: Cuts, tier: Tier,
                        f: Flow, from: int, to: int)
    requires Lawful(g) && Inv(g, r, db, recorded, clock, c)
    requires tier == Hour || tier == Day
    requires Edge(g, tier, from) && Edge(g, tier, to) && 0 <= from <= to && CutOf(c, tier) <= from
    ensures Stitched(db, tier, f, from, to) == Total(recorded, f, from, to)
  {
    var mark := Through(db, tier);
    var split := Lesser(Greater(from, mark), to);
    assert MarkOk(g, recorded, tier, Mark(db, tier), clock) && Partitions(g, tier);
    ThroughIsEdge(g, recorded, db, tier, clock);
    StitchedPieces(db, tier, f, from, to);
    FoldedPart(g, recorded, Rows(db, tier), tier, CutOf(c, tier), mark, f, from, to);
    KeptTotal(db.minute, recorded, c.minute, f, Greater(from, mark), to);
    TotalSplit(recorded, f, from, split, to);
  }

  /** The day rows a month read uses: from the month watermark on. */
  lemma DayPart(g: Grid, r: Retention, db: Db, recorded: Table, clock: int, c: Cuts, f: Flow, from: int, to: int)
    requires Lawful(g) && Inv(g, r, db, recorded, clock, c)
    requires Edge(g, Month, from) && Edge(g, Month, to) && 0 <= from <= to
    ensures var a := Lesser(Greater(from, Through(db, Month)), to);
            var d := Lesser(Greater(from, Through(db, Day)), to);
      PieceTotal(db, Piece(Day, Through(db, Month)), f, from, to)
      == if a <= d then Total(recorded, f, a, d) else Absent
  {
    var lo := Greater(from, Through(db, Month));
    assert MarkOk(g, recorded, Month, Mark(db, Month), clock) && Partitions(g, Day);
    assert MarkOk(g, recorded, Day, Mark(db, Day), clock);
    ThroughIsEdge(g, recorded, db, Month, clock);
    ThroughIsEdge(g, recorded, db, Day, clock);
    if lo < to {
      MonthEdgeIsDayEdge(g, lo);
      MonthEdgeIsDayEdge(g, to);
      FoldedPart(g, recorded, db.day, Day, c.day, Through(db, Day), f, lo, to);
    }
  }

  /** Where the month watermark is past the day watermark the pieces overlap,
      but only where nothing was recorded. */
  lemma OverlapIsEmpty(recorded: Table, db: Db, f: Flow, from: int, to: int)
    requires NoGap(recorded, db) && from <= to
    ensures var a := Lesser(Greater(from, Through(db, Month)), to);
            var d := Lesser(Greater(from, Through(db, Day)), to);
      Total(recorded, f, from, to)
      == Plus(Plus(Total(recorded, f, from, a), if a <= d then Total(recorded, f, a, d) else Absent),
              Total(recorded, f, d, to))
  {
    var a := Lesser(Greater(from, Through(db, Month)), to);
    var d := Lesser(Greater(from, Through(db, Day)), to);
    TotalSplit(recorded, f, from, a, to);
    if a <= d {
      TotalSplit(recorded, f, a, d, to);
    } else {
      NothingRecorded(recorded, f, d, a);
      TotalSplit(recorded, f, d, a, to);
    }
  }

  lemma MonthExact(g: Grid, r: Retention, db: Db, recorded: Table, clock: int, c: Cuts, f: Flow, from: int, to: int)
    requires Lawful(g) && Inv(g, r, db, recorded, clock, c)
    requires Edge(g, Month, from) && Edge(g, Month, to) && 0 <= from <= to
    ensures Stitched(db, Month, f, from, to) == Total(recorded, f, from, to)
  {
    StitchedPieces(db, Month, f, from, to);
    assert MarkOk(g, recorded, Month, Mark(db, Month), clock) && Partitions(g, Month);
    ThroughIsEdge(g, recorded, db, Month, clock);
    FoldedPart(g, recorded, db.month, Month, 0, Through(db, Month), f, from, to);
    DayPart(g, r, db, recorded, clock, c, f, from, to);
    KeptTotal(db.minute, recorded, c.minute, f, Greater(from, Through(db, Day)), to);
    hide Inv;
    OverlapIsEmpty(recorded, db, f, from, to) by { NoGapKnown(g, r, db, recorded, clock, c); }
  }

  lemma NoGapKnown(g: Grid, r: Retention, db: Db, recorded: Table, clock: int, c: Cuts)
    requires Inv(g, r, db, recorded, clock, c)
    ensures NoGap(recorded, db)
  {
  }

  lemma WindowExact(g: Grid, r: Retention, db: Db, recorded: Table, clock: int, c: Cuts, tier: Tier,
                    f: Flow, from: int, to: int)
    requires Lawful(g) && Inv(g, r, db, recorded, clock, c)
    requires Aligned(g, tier, from) && Aligned(g, tier, to) && 0 <= from <= to && CutOf(c, tier) <= from
    ensures Stitched(db, tier, f, from, to) == Total(recorded, f, from, to)
  {
    match tier
    case Minute =>
      StitchedPieces(db, Minute, f, from, to);
      KeptTotal(db.minute, recorded, c.minute, f, from, to);
    case Month => MonthExact(g, r, db, recorded, clock, c, f, from, to);
    case _ => MinuteTierExact(g, r, db, recorded, clock, c, tier, f, from, to);
  }

  /** The first bound of `tier` from the epoch on: nothing is recorded before it. */
  function Opens(g: Grid, tier: Tier): int {
    if tier == Minute then 0 else NextEdge(g, tier, 0)
  }

  lemma NotBeforeOpening(g: Grid, tier: Tier, m: int)
    requires Lawful(g) && Datable(g, m)
    ensures Opens(g, tier) <= (if tier == Minute then m else Start(g, tier, m)) <= m
  {
    if tier != Minute {
      assert Partitions(g, tier) && Partitions(g, Month);
      StartIsEdge(g, tier, m);
      if tier == Hour {
        EdgeSeparates(g, Hour, 0, m);
      }
      assert 0 <= Start(g, tier, m);
      NextEdgeLaw(g, tier, 0, Start(g, tier, m));
    }
  }

  predicate Feeds(source: Tier, tier: Tier) {
    source == tier || source == Minute || (source == Day && tier == Month)
  }

  lemma NoEarlyRow(g: Grid, r: Retention, db: Db, recorded: Table, clock: int, c: Cuts, tier: Tier, source: Tier,
                   b: int, f: Flow)
    requires Lawful(g) && Inv(g, r, db, recorded, clock, c) && Feeds(source, tier)
    requires At(Rows(db, source), b, f) != Absent
    ensures Opens(g, tier) <= b
  {
    var m := RowsAreRecorded(g, r, db, recorded, clock, c, source, b, f);
    NotBeforeOpening(g, tier, m);
    if source == Day && tier == Month {
      assert Start(g, Month, m) <= Start(g, Day, m);
    }
  }

  /** Before the epoch there is nothing to read, and nothing was recorded. */
  lemma EarlyNone(g: Grid, r: Retention, db: Db, recorded: Table, clock: int, c: Cuts, tier: Tier, f: Flow, from: int,
                  to: int)
    requires Lawful(g) && Inv(g, r, db, recorded, clock, c) && to <= Opens(g, tier)
    ensures Stitched(db, tier, f, from, to) == Absent && Total(recorded, f, from, to) == Absent
  {
    var ps := Pieces(db, tier);
    forall i, b | 0 <= i < |ps| && from <= b < to
      ensures At(Rows(db, ps[i].source), b, f) == Absent
    {
      if At(Rows(db, ps[i].source), b, f) != Absent {
        NoEarlyRow(g, r, db, recorded, clock, c, tier, ps[i].source, b, f);
      }
    }
    PiecesNone(db, ps, f, from, to);
    assert RecordedOk(g, recorded);
    hide Inv, Lawful;
    forall k | k in recorded
      ensures !(from <= k.bucket < to)
    {
      NotBeforeOpening(g, tier, k.bucket);
    }
    NothingRecorded(recorded, f, from, to);
  }

  lemma OpensLaw(g: Grid, tier: Tier)
    requires Lawful(g)
    ensures 0 <= Opens(g, tier) && Aligned(g, tier, Opens(g, tier))
  {
    assert Partitions(g, tier);
    if tier != Minute {
      NextEdgeLaw(g, tier, 0, 0);
    }
  }

  /** A window may begin before the epoch. */
  lemma AnyWindowExact(g: Grid, r: Retention, db: Db, recorded: Table, clock: int, c: Cuts, tier: Tier,
                       f: Flow, from: int, to: int)
    requires Lawful(g) && Inv(g, r, db, recorded, clock, c)
    requires Aligned(g, tier, from) && Aligned(g, tier, to) && from <= to && CutOf(c, tier) <= Greater(0, from)
    ensures Stitched(db, tier, f, from, to) == Total(recorded, f, from, to)
  {
    var open := Opens(g, tier);
    OpensLaw(g, tier);
    hide Lawful, Inv, Stitched, Total, Opens, Aligned;
    if 0 <= from {
      WindowExact(g, r, db, recorded, clock, c, tier, f, from, to);
    } else if to <= open {
      EarlyNone(g, r, db, recorded, clock, c, tier, f, from, to);
    } else {
      EarlyNone(g, r, db, recorded, clock, c, tier, f, from, open);
      WindowExact(g, r, db, recorded, clock, c, tier, f, open, to);
      StitchedSplit(db, tier, f, from, open, to);
      TotalSplit(recorded, f, from, open, to);
    }
  }

  lemma RetainedIsUncut(g: Grid, r: Retention, db: Db, recorded: Table, clock: int, c: Cuts, tier: Tier, from: int,
                        now: int)
    requires Inv(g, r, db, recorded, clock, c) && clock <= now
    requires Retained(r, tier, from, now)
    ensures CutOf(c, tier) <= Greater(0, from)
  {
  }

  /** A read at any tier, over a window on its bucket bounds and within its
      retention, is exactly what was recorded in the window: after every
      history, whatever has been rolled up or pruned. */
  lemma ReadsAreExact(g: Grid, r: Retention, es: seq<Event>, now: int, tier: Tier, f: Flow, from: int, to: int)
    requires Lawful(g) && Timely(g, es) && By(es, now)
    requires Aligned(g, tier, from) && Aligned(g, tier, to) && from <= to
    requires Retained(r, tier, from, now)
    ensures Stitched(After(g, r, es), tier, f, from, to) == Total(Log(es), f, from, to)
  {
    var c := Reachable(g, r, es, now);
    RetainedIsUncut(g, r, After(g, r, es), Log(es), now, c, tier, from, now);
    AnyWindowExact(g, r, After(g, r, es), Log(es), now, c, tier, f, from, to);
  }

  /** Rollup is invisible: such a read is the same before and after any run,
      complete or cut short. */
  lemma RollupIsInvisible(g: Grid, r: Retention, es: seq<Event>, now: int, steps: nat, tier: Tier, f: Flow, from: int,
                          to: int)
    requires Lawful(g) && Timely(g, es) && By(es, now)
    requires Aligned(g, tier, from) && Aligned(g, tier, to) && from <= to
    requires Retained(r, tier, from, now)
    ensures Stitched(After(g, r, es + [Ran(now, steps)]), tier, f, from, to)
         == Stitched(After(g, r, es), tier, f, from, to)
  {
    var es' := es + [Ran(now, steps)];
    assert es'[..|es'| - 1] == es;
    ReadsAreExact(g, r, es, now, tier, f, from, to);
    ReadsAreExact(g, r, es', now, tier, f, from, to);
  }

  // ---- The whole of time

  lemma StitchedSplit(db: Db, tier: Tier, f: Flow, from: int, mid: int, to: int)
    requires from <= mid <= to
    ensures Stitched(db, tier, f, from, to) == Plus(Stitched(db, tier, f, from, mid), Stitched(db, tier, f, mid, to))
  {
    PiecesSplit(db, Pieces(db, tier), f, from, mid, to);
  }

  lemma {:induction false} PiecesSplit(db: Db, ps: seq<Piece>, f: Flow, from: int, mid: int, to: int)
    requires from <= mid <= to
    ensures PiecesTotal(db, ps, f, from, to) == Plus(PiecesTotal(db, ps, f, from, mid), PiecesTotal(db, ps, f, mid, to))
    decreases |ps|
  {
    if ps != [] {
      var p := ps[|ps| - 1];
      PiecesSplit(db, ps[..|ps| - 1], f, from, mid, to);
      if Greater(from, p.lower) <= mid {
        TotalSplit(Rows(db, p.source), f, Greater(from, p.lower), mid, to);
      }
    }
  }

  lemma {:induction false} PiecesNone(db: Db, ps: seq<Piece>, f: Flow, from: int, to: int)
    requires forall i, b :: 0 <= i < |ps| && from <= b < to ==> At(Rows(db, ps[i].source), b, f) == Absent
    ensures PiecesTotal(db, ps, f, from, to) == Absent
    decreases |ps|
  {
    if ps != [] {
      var p := ps[|ps| - 1];
      PiecesNone(db, ps[..|ps| - 1], f, from, to);
      TotalNone(Rows(db, p.source), f, Greater(from, p.lower), to);
    }
  }

  /** Every row of every table stands for a recorded minute of its bucket. */
  lemma RowsAreRecorded(g: Grid, r: Retention, db: Db, recorded: Table, clock: int, c: Cuts, tier: Tier, b: int,
                        f: Flow)
    returns (m: int)
    requires Lawful(g) && Inv(g, r, db, recorded, clock, c)
    requires At(Rows(db, tier), b, f) != Absent
    ensures Key(m, f) in recorded && Datable(g, m) && b <= m
    ensures tier != Minute ==> Start(g, tier, m) == b
    ensures tier == Minute ==> m == b
  {
    assert Partitions(g, tier);
    if tier == Minute {
      m := b;
    } else {
      m := TotalWitness(recorded, f, b, End(g, tier, b));
      assert g(tier, m) == g(tier, b);
    }
    assert Datable(g, Key(m, f).bucket);
  }

  /** The first month start at or after the epoch. */
  function FirstMonth(g: Grid): int {
    if Edge(g, Month, 0) then 0 else End(g, Month, 0)
  }

  lemma FirstMonthLaw(g: Grid)
    requires Lawful(g)
    ensures 0 <= FirstMonth(g) && Edge(g, Month, FirstMonth(g))
    ensures forall m :: Datable(g, m) ==> FirstMonth(g) <= Start(g, Month, m)
  {
    assert Partitions(g, Month);
    EndIsEdge(g, Month, 0);
    forall m | Datable(g, m)
      ensures FirstMonth(g) <= Start(g, Month, m)
    {
      EdgeSeparates(g, Month, FirstMonth(g), m);
    }
  }

  lemma NothingBeforeFirstMonth(g: Grid, r: Retention, db: Db, recorded: Table, clock: int, c: Cuts, tier: Tier, b: int,
                                f: Flow)
    requires Lawful(g) && Inv(g, r, db, recorded, clock, c) && tier != Hour
    requires At(Rows(db, tier), b, f) != Absent
    ensures FirstMonth(g) <= b
  {
    var m := RowsAreRecorded(g, r, db, recorded, clock, c, tier, b, f);
    FirstMonthLaw(g);
    assert Start(g, Month, m) <= Start(g, Day, m) && Start(g, Month, m) <= m by { assert Partitions(g, Month); }
  }

  /** Where nothing was recorded before the first month or from `to` on, a month
      read finds nothing there either. */
  lemma MonthReadNone(g: Grid, r: Retention, db: Db, recorded: Table, clock: int, c: Cuts, f: Flow, from: int, to: int)
    requires Lawful(g) && Inv(g, r, db, recorded, clock, c)
    requires to <= FirstMonth(g) || (forall k :: k in recorded ==> k.bucket < from)
    ensures Stitched(db, Month, f, from, to) == Absent
  {
    var ps := Pieces(db, Month);
    forall i, b | 0 <= i < |ps| && from <= b < to
      ensures At(Rows(db, ps[i].source), b, f) == Absent
    {
      if At(Rows(db, ps[i].source), b, f) != Absent {
        NothingBeforeFirstMonth(g, r, db, recorded, clock, c, ps[i].source, b, f);
        var m := RowsAreRecorded(g, r, db, recorded, clock, c, ps[i].source, b, f);
      }
    }
    PiecesNone(db, ps, f, from, to);
  }

  lemma RecordedNone(g: Grid, recorded: Table, f: Flow, from: int, to: int)
    requires Lawful(g) && RecordedOk(g, recorded)
    requires to <= FirstMonth(g) || (forall k :: k in recorded ==> k.bucket < from)
    ensures Total(recorded, f, from, to) == Absent
  {
    FirstMonthLaw(g);
    assert Partitions(g, Month);
    forall k | k in recorded
      ensures !(from <= k.bucket < to)
    {
      assert Datable(g, k.bucket);
    }
    NothingRecorded(recorded, f, from, to);
  }

  /** Nothing is lost and nothing is counted twice: in every reachable state,
      mid-run and after any pruning, reading the month tier over all time gives
      every byte ever recorded, even while the month watermark is past the
      day watermark. */
  lemma AllTimeIsEverything(g: Grid, r: Retention, es: seq<Event>, f: Flow, to: int)
    requires Lawful(g) && Timely(g, es)
    requires forall k :: k in Log(es) ==> k.bucket < to
    ensures Stitched(After(g, r, es), Month, f, 0, to) == Total(Log(es), f, 0, to)
  {
    var db, recorded := After(g, r, es), Log(es);
    var clock := if es == [] then 0 else es[|es| - 1].time;
    var c := Reachable(g, r, es, clock);
    var first, end := FirstMonth(g), End(g, Month, to);
    FirstMonthLaw(g);
    assert Partitions(g, Month) && RecordedOk(g, recorded);
    EndIsEdge(g, Month, to);
    if to < first {
      MonthReadNone(g, r, db, recorded, clock, c, f, 0, to);
      RecordedNone(g, recorded, f, 0, to);
    } else {
      hide Inv, Lawful, Stitched;
      StitchedSplit(db, Month, f, 0, first, to);
      StitchedSplit(db, Month, f, first, to, end);
      TotalSplit(recorded, f, 0, first, to);
      TotalSplit(recorded, f, first, to, end);
      MonthReadNone(g, r, db, recorded, clock, c, f, 0, first);
      MonthReadNone(g, r, db, recorded, clock, c, f, to, end);
      RecordedNone(g, recorded, f, 0, first);
      RecordedNone(g, recorded, f, to, end);
      MonthExact(g, r, db, recorded, clock, c, f, first, end);
    }
  }

  // ---- Windows that do not fall on bucket bounds

  /** The first bound of `tier` at or after `from`. */
  function NextEdge(g: Grid, tier: Tier, from: int): int {
    if Edge(g, tier, from) then from else End(g, tier, from)
  }

  lemma NextEdgeLaw(g: Grid, tier: Tier, from: int, b: int)
    requires Partitions(g, tier)
    ensures from <= NextEdge(g, tier, from) && Edge(g, tier, NextEdge(g, tier, from))
    ensures from <= b && Edge(g, tier, b) ==> NextEdge(g, tier, from) <= b
    ensures from <= b ==> NextEdge(g, tier, from) <= End(g, tier, b)
  {
    EndIsEdge(g, tier, from);
    EdgeSeparates(g, tier, NextEdge(g, tier, from), b);
    if from <= b {
      BoundsMonotone(g, tier, from, b);
    }
  }

  lemma StitchedNarrow(db: Db, tier: Tier, f: Flow, from: int, to: int, from': int, to': int)
    requires from <= from' && to' <= to
    ensures Within(Stitched(db, tier, f, from', to'), Stitched(db, tier, f, from, to))
  {
    if from' <= to' {
      StitchedSplit(db, tier, f, from, from', to);
      StitchedSplit(db, tier, f, from', to', to);
    } else {
      PiecesNone(db, Pieces(db, tier), f, from', to');
    }
  }

  /** Up to the first bound only finer rows can be read, each at most once. */
  lemma HeadWithin(g: Grid, r: Retention, db: Db, recorded: Table, clock: int, c: Cuts, tier: Tier, f: Flow, from: int)
    requires Lawful(g) && Inv(g, r, db, recorded, clock, c) && tier != Minute && 0 <= from
    ensures Within(Stitched(db, tier, f, from, NextEdge(g, tier, from)),
                   Total(recorded, f, from, NextEdge(g, tier, from)))
  {
    var to := NextEdge(g, tier, from);
    OwnRowsStart(g, r, db, recorded, clock, c, tier, f, from);
    StitchedPieces(db, tier, f, from, to);
    if tier == Month {
      hide Inv, Lawful;
      MonthHead(g, r, db, recorded, clock, c, f, from);
    } else {
      MinuteHead(g, r, db, recorded, clock, c, tier, f, from);
      hide Inv, Lawful;
    }
  }

  /** A tier's own rows sit on its bounds, so none comes before the first. */
  lemma OwnRowsStart(g: Grid, r: Retention, db: Db, recorded: Table, clock: int, c: Cuts, tier: Tier, f: Flow,
                     from: int)
    requires Lawful(g) && Inv(g, r, db, recorded, clock, c) && tier != Minute && 0 <= from
    ensures PieceTotal(db, Piece(tier, 0), f, from, NextEdge(g, tier, from)) == Absent
  {
    var to := NextEdge(g, tier, from);
    assert Partitions(g, tier);
    forall b | from <= b < to
      ensures At(Rows(db, tier), b, f) == Absent
    {
      NextEdgeLaw(g, tier, from, b);
    }
    TotalNone(Rows(db, tier), f, from, to);
  }

  lemma MinuteHead(g: Grid, r: Retention, db: Db, recorded: Table, clock: int, c: Cuts, tier: Tier, f: Flow, from: int)
    requires Inv(g, r, db, recorded, clock, c) && (tier == Hour || tier == Day)
    ensures var to := NextEdge(g, tier, from);
      Within(PieceTotal(db, Piece(Minute, Through(db, tier)), f, from, to), Total(recorded, f, from, to))
  {
    var to := NextEdge(g, tier, from);
    KeptTotal(db.minute, recorded, c.minute, f, Greater(from, Through(db, tier)), to);
    TotalNarrow(recorded, f, from, to, Greater(from, Through(db, tier)), to);
  }

  lemma MonthHead(g: Grid, r: Retention, db: Db, recorded: Table, clock: int, c: Cuts, f: Flow, from: int)
    requires Lawful(g) && Inv(g, r, db, recorded, clock, c) && 0 <= from
    ensures var to := NextEdge(g, Month, from);
      Within(Plus(PieceTotal(db, Piece(Day, Through(db, Month)), f, from, to),
                  PieceTotal(db, Piece(Minute, Through(db, Day)), f, from, to)),
             Total(recorded, f, from, to))
  {
    var to := NextEdge(g, Month, from);
    var mark := Greater(from, Through(db, Day));
    KeptTotal(db.minute, recorded, c.minute, f, mark, to);
    DayHead(g, r, db, recorded, clock, c, f, from);
    TotalNarrow(recorded, f, from, to, mark, to);
    if mark <= to {
      TotalSplit(recorded, f, from, mark, to);
    }
  }

  /** The day rows of a month cut short are whole days below the day watermark. */
  lemma DayHead(g: Grid, r: Retention, db: Db, recorded: Table, clock: int, c: Cuts, f: Flow, from: int)
    requires Lawful(g) && Inv(g, r, db, recorded, clock, c) && 0 <= from
    ensures var to := NextEdge(g, Month, from);
      Within(PieceTotal(db, Piece(Day, Through(db, Month)), f, from, to),
             Total(recorded, f, from, Lesser(Greater(from, Through(db, Day)), to)))
  {
    var to := NextEdge(g, Month, from);
    var lo := Greater(from, Through(db, Month));
    assert Partitions(g, Day) && Partitions(g, Month);
    NextEdgeLaw(g, Month, from, lo);
    if lo < to {
      var day := NextEdge(g, Day, lo);
      MonthEdgeIsDayEdge(g, to);
      NextEdgeLaw(g, Day, lo, to);
      forall b | lo <= b < day
        ensures At(db.day, b, f) == Absent
      {
        NextEdgeLaw(g, Day, lo, b);
      }
      TotalNone(db.day, f, lo, day);
      TotalSplit(db.day, f, lo, day, to);
      assert MarkOk(g, recorded, Day, Mark(db, Day), clock);
      ThroughIsEdge(g, recorded, db, Day, clock);
      FoldedPart(g, recorded, db.day, Day, c.day, Through(db, Day), f, day, to);
      var stop := Lesser(Greater(day, Through(db, Day)), to);
      if day < Through(db, Day) {
        TotalNarrow(recorded, f, from, Lesser(Greater(from, Through(db, Day)), to), day, stop);
      }
    }
  }

  lemma WindowLower(g: Grid, r: Retention, db: Db, recorded: Table, clock: int, c: Cuts, tier: Tier,
                    f: Flow, from: int, to: int)
    requires Lawful(g) && Inv(g, r, db, recorded, clock, c)
    requires from < to && CutOf(c, tier) <= Greater(0, from) && tier != Minute
    ensures Within(Total(recorded, f, NextEdge(g, tier, from), Start(g, tier, to)), Stitched(db, tier, f, from, to))
  {
    var lo, hi := NextEdge(g, tier, from), Start(g, tier, to);
    assert Partitions(g, tier);
    NextEdgeLaw(g, tier, from, to);
    StartIsEdge(g, tier, to);
    hide Inv, Lawful, Partitions, Stitched, NextEdge, Start;
    if lo <= hi {
      AnyWindowExact(g, r, db, recorded, clock, c, tier, f, lo, hi);
      StitchedNarrow(db, tier, f, from, to, lo, hi);
    }
  }

  lemma WindowUpper(g: Grid, r: Retention, db: Db, recorded: Table, clock: int, c: Cuts, tier: Tier,
                    f: Flow, from: int, to: int)
    requires Lawful(g) && Inv(g, r, db, recorded, clock, c)
    requires 0 <= from < to && CutOf(c, tier) <= from && tier != Minute
    ensures Within(Stitched(db, tier, f, from, to), Total(recorded, f, from, End(g, tier, to - 1)))
  {
    var lo, out := NextEdge(g, tier, from), End(g, tier, to - 1);
    assert Partitions(g, tier);
    assert to <= out;
    hide Inv, Lawful, Partitions, Stitched, NextEdge, End, Within, Plus, Total;
    NextEdgeLaw(g, tier, from, to - 1);
    EndIsEdge(g, tier, to - 1);
    HeadWithin(g, r, db, recorded, clock, c, tier, f, from);
    WindowExact(g, r, db, recorded, clock, c, tier, f, lo, out);
    StitchedSplit(db, tier, f, from, lo, out);
    TotalSplit(recorded, f, from, lo, out);
    StitchedNarrow(db, tier, f, from, out, from, to);
    WithinPlus(Stitched(db, tier, f, from, lo), Total(recorded, f, from, lo), Stitched(db, tier, f, lo, out));
    WithinTransitive(Stitched(db, tier, f, from, to), Stitched(db, tier, f, from, out), Total(recorded, f, from, out));
  }

  lemma AnyWindowUpper(g: Grid, r: Retention, db: Db, recorded: Table, clock: int, c: Cuts, tier: Tier,
                       f: Flow, from: int, to: int)
    requires Lawful(g) && Inv(g, r, db, recorded, clock, c)
    requires from < to && CutOf(c, tier) <= Greater(0, from) && tier != Minute
    ensures Within(Stitched(db, tier, f, from, to), Total(recorded, f, from, End(g, tier, to - 1)))
  {
    var start := Lesser(0, to);
    OpensLaw(g, tier);
    assert Partitions(g, tier);
    assert to <= End(g, tier, to - 1);
    hide Lawful, Inv, Stitched, Total, Opens, End, Partitions;
    if 0 <= from {
      WindowUpper(g, r, db, recorded, clock, c, tier, f, from, to);
    } else {
      EarlyNone(g, r, db, recorded, clock, c, tier, f, from, start);
      if 0 < to {
        WindowUpper(g, r, db, recorded, clock, c, tier, f, 0, to);
        StitchedSplit(db, tier, f, from, 0, to);
        TotalSplit(recorded, f, from, 0, End(g, tier, to - 1));
      }
    }
  }

  lemma WithinPlus(a: Cell, b: Cell, c: Cell)
    requires Within(a, b)
    ensures Within(Plus(a, c), Plus(b, c))
  {
  }

  lemma WithinTransitive(a: Cell, b: Cell, c: Cell)
    requires Within(a, b) && Within(b, c)
    ensures Within(a, c)
  {
  }

  /** Any window within retention: the total lies between what was recorded in
      the buckets wholly inside it and what was recorded from its start to the
      end of the bucket holding its last instant. */
  lemma ReadsAreBracketed(g: Grid, r: Retention, es: seq<Event>, now: int, tier: Tier, f: Flow, from: int, to: int)
    requires Lawful(g) && Timely(g, es) && By(es, now)
    requires from < to && Retained(r, tier, from, now) && tier != Minute
    ensures Within(Total(Log(es), f, NextEdge(g, tier, from), Start(g, tier, to)),
                   Stitched(After(g, r, es), tier, f, from, to))
    ensures Within(Stitched(After(g, r, es), tier, f, from, to), Total(Log(es), f, from, End(g, tier, to - 1)))
  {
    var c := Reachable(g, r, es, now);
    RetainedIsUncut(g, r, After(g, r, es), Log(es), now, c, tier, from, now);
    WindowLower(g, r, After(g, r, es), Log(es), now, c, tier, f, from, to);
    AnyWindowUpper(g, r, After(g, r, es), Log(es), now, c, tier, f, from, to);
  }

  // ---- Choosing a tier

  /** `Retention::finest_covering`: tiers in turn, by the age of the window's start. */
  function FinestCovering(r: Retention, from: int, now: int): Tier {
    var age := now - from;
    if age <= r.minute then Minute else if age <= r.hour then Hour else if age <= r.day then Day else Month
  }

  function TierForSpan(span: int): Tier {
    if span <= 3 * 3600 then Minute
    else if span <= 48 * 3600 then Hour
    else if span <= 92 * 24 * 3600 then Day
    else Month
  }

  function Order(tier: Tier): int {
    match tier case Minute => 1 case Hour => 2 case Day => 3 case Month => 4
  }

  function Coarser(a: Tier, b: Tier): Tier {
    if Order(a) <= Order(b) then b else a
  }

  /** `top`'s automatic tier, and `series`'s, which also weighs the span. */
  function TopTier(r: Retention, from: int, now: int): Tier {
    FinestCovering(r, from, now)
  }

  function SeriesTier(r: Retention, from: int, to: int, now: int): Tier {
    Coarser(FinestCovering(r, from, now), TierForSpan(to - from))
  }

  /** It still has the rows, and no finer tier does. */
  lemma TopTierRetains(r: Retention, from: int, now: int)
    ensures Retained(r, TopTier(r, from, now), from, now)
    ensures forall t :: Order(t) < Order(TopTier(r, from, now)) ==> !Retained(r, t, from, now)
  {
  }

  function LongestBucket(tier: Tier): int {
    match tier case Minute => 60 case Hour => 3600 case Day => 86_400 case Month => 31 * 86_400
  }

  /** How many points a series may have at a tier before the next is chosen. */
  function MostPoints(tier: Tier): Option<int> {
    match tier case Minute => Some(180) case Hour => Some(48) case Day => Some(92) case Month => None
  }

  predicate Readable(tier: Tier, span: int) {
    match MostPoints(tier) case Some(most) => span <= most * LongestBucket(tier) case None => true
  }

  /** The tier of a `series` is bounded below twice: by what is readable over the
      span and by what is still held; and it is the finest within both bounds. */
  lemma SeriesTierIsFinest(r: Retention, from: int, to: int, now: int)
    ensures var tier := SeriesTier(r, from, to, now);
      && Readable(TierForSpan(to - from), to - from)
      && (forall t :: Order(t) < Order(TierForSpan(to - from)) ==> !Readable(t, to - from))
      && (forall t :: Order(tier) <= Order(t) <==>
            Order(TopTier(r, from, now)) <= Order(t) && Order(TierForSpan(to - from)) <= Order(t))
  {
  }

  /** `series` may step to a coarser tier than its window's age calls for. That
      is safe for every window exactly when no tier is kept longer than a
      coarser one. */
  lemma SeriesTierRetains(r: Retention)
    ensures (forall from, to, now :: from < to ==> Retained(r, SeriesTier(r, from, to, now), from, now))
       <==> r.minute <= r.hour <= r.day
  {
    if r.hour < r.minute {
      // A window as old as the minute tier reaches, long enough for hours.
      assert SeriesTier(r, -r.minute, -r.minute + 48 * 3600, 0) == Hour;
    } else if r.day < r.hour {
      assert SeriesTier(r, -r.hour, -r.hour + 92 * 24 * 3600, 0) == Day;
    }
  }

  /** Automatic choice never reads a pruned range: every bucket of the chosen
      tier from the window's start on that has been rolled up still has its row. */
  lemma AutoTierIsUnpruned(g: Grid, r: Retention, es: seq<Event>, now: int, from: int, to: int, tier: Tier, b: int,
                           f: Flow)
    requires Lawful(g) && Timely(g, es) && By(es, now) && r.minute <= r.hour <= r.day && from < to
    requires tier == TopTier(r, from, now) || tier == SeriesTier(r, from, to, now)
    requires Greater(0, from) <= b
    ensures At(Rows(After(g, r, es), tier), b, f)
         == if tier == Minute then At(Log(es), b, f)
            else if b < Through(After(g, r, es), tier) && Edge(g, tier, b)
            then Total(Log(es), f, b, End(g, tier, b)) else Absent
  {
    var c := Reachable(g, r, es, now);
    TopTierRetains(r, from, now);
    SeriesTierRetains(r);
    assert Retained(r, SeriesTier(r, from, to, now), from, now);
    RetainedIsUncut(g, r, After(g, r, es), Log(es), now, c, tier, from, now);
  }
}
