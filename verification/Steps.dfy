/** Each step of the rollup job keeps the invariant. */
module Steps {
  import opened Counters
  import opened Zones
  import opened Rollup
  import opened Invariant

  /** Rolling the next non-empty bucket extends a folded table up to its end. */
  lemma FoldNext(g: Grid, recorded: Table, dst: Table, src: Table, tier: Tier, cut: int, through: int, start: int)
    requires Partitions(g, tier) && Folded(g, recorded, dst, tier, cut, through)
    requires Edge(g, tier, start) && through <= start
    requires forall k :: k in recorded && through <= k.bucket ==> start <= k.bucket
    requires forall f :: Total(src, f, start, End(g, tier, start)) == Total(recorded, f, start, End(g, tier, start))
    ensures var end := End(g, tier, start);
      Folded(g, recorded, RollInto(dst, src, start, start, end), tier, Lesser(cut, start), end)
  {
    var end := End(g, tier, start);
    var t := RollInto(dst, src, start, start, end);
    var cut' := Lesser(cut, start);
    forall b, f
      ensures At(t, b, f)
           == if cut' <= b < end && Edge(g, tier, b) then Total(recorded, f, b, End(g, tier, b)) else Absent
    {
      if b != start && cut' <= b < end && Edge(g, tier, b) {
        EdgeSeparates(g, tier, b, start);
        EdgeSeparates(g, tier, start, b);
        if through <= b {
          NothingRecorded(recorded, f, b, End(g, tier, b));
        }
      }
    }
  }

  lemma MinutesPresent(db: Db, recorded: Table, tier: Tier, cut: int, b: int)
    requires tier == Hour || tier == Day
    requires Kept(db.minute, recorded, cut) && cut <= Through(db, tier) <= b
    ensures b in Unrolled(db, tier) <==> exists k :: k in recorded && k.bucket == b
  {
    if b in Unrolled(db, tier) {
      var k :| k in db.minute && k.bucket == b;
      assert k == Key(b, k.flow) && At(recorded, b, k.flow) == At(db.minute, b, k.flow);
      assert k in recorded;
    }
    if k :| k in recorded && k.bucket == b {
      assert k == Key(b, k.flow) && At(recorded, b, k.flow) == At(db.minute, b, k.flow);
      assert k in Rows(db, Minute) && Through(db, tier) <= k.bucket;
    }
  }

  /** Hours and days: the oldest unrolled minute opens the next bucket. */
  lemma MinuteTierMoves(g: Grid, r: Retention, db: Db, recorded: Table, now: int, c: Cuts, tier: Tier)
    requires Lawful(g) && Inv(g, r, db, recorded, now, c)
    requires tier == Hour || tier == Day
    requires RollupNext(g, db, tier, now).Some?
    ensures var db' := RollupNext(g, db, tier, now).value;
            var oldest := Min(Unrolled(db, tier));
            var cut := if tier == Hour then c.hour else c.day;
      && Through(db, tier) <= Start(g, tier, oldest)
      && Folded(g, recorded, Rows(db', tier), tier, Lesser(cut, Start(g, tier, oldest)), Through(db', tier))
      && MarkOk(g, recorded, tier, Mark(db', tier), now)
  {
    var db' := RollupNext(g, db, tier, now).value;
    var oldest := Min(Unrolled(db, tier));
    var cut := if tier == Hour then c.hour else c.day;
    var start, end := Start(g, tier, oldest), End(g, tier, oldest);
    assert Partitions(g, tier);
    StartIsEdge(g, tier, oldest);
    MinutesPresent(db, recorded, tier, c.minute, oldest);
    var first :| first in recorded && first.bucket == oldest;
    assert MarkOk(g, recorded, tier, Mark(db, tier), now);
    BucketsPastMark(g, recorded, db, tier, now, oldest);
    forall k | k in recorded && Through(db, tier) <= k.bucket
      ensures start <= k.bucket
    {
      MinutesPresent(db, recorded, tier, c.minute, k.bucket);
    }
    forall f
      ensures Total(db.minute, f, start, end) == Total(recorded, f, start, end)
    {
      KeptTotal(db.minute, recorded, c.minute, f, start, end);
    }
    FoldNext(g, recorded, Rows(db, tier), db.minute, tier, cut, Through(db, tier), start);
    assert End(g, tier, first.bucket) == end;
  }

  lemma MarksNotNegative(g: Grid, r: Retention, db: Db, recorded: Table, now: int, c: Cuts)
    requires Lawful(g) && Inv(g, r, db, recorded, now, c)
    ensures forall tier :: 0 <= Through(db, tier)
  {
    forall tier
      ensures 0 <= Through(db, tier)
    {
      assert MarkOk(g, recorded, tier, Mark(db, tier), now) && Partitions(g, tier);
      if Mark(db, tier).Some? {
        var k :| k in recorded && End(g, tier, k.bucket) == Mark(db, tier).value;
        assert Datable(g, k.bucket) && k.bucket < End(g, tier, k.bucket);
      }
    }
  }

  /** A bucket rolled below what had been pruned puts rows back there. */
  function Reopened(c: Cuts, tier: Tier, start: int): Cuts {
    match tier
    case Hour => c.(hour := Lesser(c.hour, start))
    case Day => c.(day := Lesser(c.day, start))
    case _ => c
  }

  lemma MoveMarks(g: Grid, db: Db, recorded: Table, now: int, tier: Tier)
    requires tier != Minute && Contains(g, tier) && RollupNext(g, db, tier, now).Some?
    requires forall t :: MarkOk(g, recorded, t, Mark(db, t), now)
    requires MarkOk(g, recorded, tier, Mark(RollupNext(g, db, tier, now).value, tier), now)
    ensures var db' := RollupNext(g, db, tier, now).value;
      && (forall t :: MarkOk(g, recorded, t, Mark(db', t), now))
      && (forall t :: Through(db, t) <= Through(db', t))
      && (forall t :: t != tier ==> Through(db', t) == Through(db, t))
      && (tier != Month && NoGap(recorded, db) ==> NoGap(recorded, db'))
  {
    RollupEffect(g, db, tier, now);
    RollupProgress(g, db, tier, now);
    hide RollupNext, MarkOk;
    var db' := RollupNext(g, db, tier, now).value;
    forall t
      ensures MarkOk(g, recorded, t, Mark(db', t), now)
      ensures Through(db, t) <= Through(db', t)
    {
      assert t != tier ==> Mark(db', t) == Mark(db, t);
    }
  }

  lemma MoveCuts(r: Retention, db: Db, db': Db, now: int, c: Cuts, tier: Tier, start: int)
    requires CutsOk(r, db, now, c) && 0 <= start
    requires forall t :: Through(db, t) <= Through(db', t)
    ensures CutsOk(r, db', now, Reopened(c, tier, start))
  {
    hide Through;
    assert Through(db, Hour) <= Through(db', Hour);
    assert Through(db, Day) <= Through(db', Day);
    assert Through(db, Month) <= Through(db', Month);
  }

  ghost predicate TablesOk(g: Grid, db: Db, recorded: Table, c: Cuts) {
    && Kept(db.minute, recorded, c.minute)
    && Folded(g, recorded, db.hour, Hour, c.hour, Through(db, Hour))
    && Folded(g, recorded, db.day, Day, c.day, Through(db, Day))
    && Folded(g, recorded, db.month, Month, 0, Through(db, Month))
  }

  lemma MoveTables(g: Grid, db: Db, recorded: Table, now: int, c: Cuts, tier: Tier)
    requires tier != Minute && RollupNext(g, db, tier, now).Some?
    requires TablesOk(g, db, recorded, c)
    requires var db' := RollupNext(g, db, tier, now).value;
             var c' := Reopened(c, tier, Start(g, tier, Min(Unrolled(db, tier))));
             Folded(g, recorded, Rows(db', tier), tier,
                    match tier case Hour => c'.hour case Day => c'.day case _ => 0, Through(db', tier))
    ensures TablesOk(g, RollupNext(g, db, tier, now).value, recorded,
                     Reopened(c, tier, Start(g, tier, Min(Unrolled(db, tier)))))
  {
    RollupEffect(g, db, tier, now);
    hide RollupNext, Folded, Kept, Unrolled, Start;
    var db' := RollupNext(g, db, tier, now).value;
    assert forall t :: t != tier ==> Rows(db', t) == Rows(db, t) && Through(db', t) == Through(db, t);
    assert Rows(db', Minute) == db'.minute && Rows(db', Hour) == db'.hour;
    assert Rows(db', Day) == db'.day && Rows(db', Month) == db'.month;
  }

  lemma MinuteTierKeeps(g: Grid, r: Retention, db: Db, recorded: Table, now: int, c: Cuts, tier: Tier)
    returns (c': Cuts)
    requires Lawful(g) && Inv(g, r, db, recorded, now, c)
    requires tier == Hour || tier == Day
    requires RollupNext(g, db, tier, now).Some?
    ensures Inv(g, r, RollupNext(g, db, tier, now).value, recorded, now, c')
    ensures forall t :: t != tier ==> Through(RollupNext(g, db, tier, now).value, t) == Through(db, t)
  {
    MinuteTierMoves(g, r, db, recorded, now, c, tier);
    assert Contains(g, tier) by { assert Partitions(g, tier); }
    MarksNotNegative(g, r, db, recorded, now, c);
    hide RollupNext, Unrolled, Folded, Kept, MarkOk, NoGap, RecordedOk, CutsOk, Start, Through, Lawful, Contains;
    MoveMarks(g, db, recorded, now, tier);
    var start := Start(g, tier, Min(Unrolled(db, tier)));
    c' := Reopened(c, tier, start);
    MoveCuts(r, db, RollupNext(g, db, tier, now).value, now, c, tier, start);
    MoveTables(g, db, recorded, now, c, tier);
  }

  /** A day is wholly below the day watermark or wholly past it; what is past
      it and recorded cannot be in a month that may already close. */
  lemma ClosedMonthIsRolled(g: Grid, r: Retention, db: Db, recorded: Table, now: int, c: Cuts, k: Key)
    requires Lawful(g) && Inv(g, r, db, recorded, now, c)
    requires Settled(g, recorded, db, Day, now)
    requires k in recorded && End(g, Month, k.bucket) + GRACE <= now
    ensures k.bucket < Through(db, Day)
  {
    assert End(g, Day, k.bucket) <= End(g, Month, k.bucket);
  }

  /** Every minute below the day watermark and not pruned away has its day row. */
  lemma DayRowPresent(g: Grid, r: Retention, db: Db, recorded: Table, now: int, c: Cuts, k: Key)
    requires Lawful(g) && Inv(g, r, db, recorded, now, c)
    requires k in recorded && Through(db, Month) <= k.bucket < Through(db, Day)
    ensures Start(g, Day, k.bucket) in Unrolled(db, Month)
  {
    var s := Start(g, Day, k.bucket);
    assert Partitions(g, Day) && Partitions(g, Month);
    assert MarkOk(g, recorded, Month, Mark(db, Month), now);
    assert Datable(g, k.bucket);
    BucketsPastMark(g, recorded, db, Month, now, k.bucket);
    assert Start(g, Month, k.bucket) <= s;
    StartIsEdge(g, Day, k.bucket);
    assert k == Key(k.bucket, k.flow);
    TotalPresent(recorded, k.flow, s, End(g, Day, s), k.bucket);
    assert At(db.day, s, k.flow) != Absent;
    assert Key(s, k.flow) in Rows(db, Day);
  }

  /** A day row stands for something recorded on that day. */
  lemma DayRowRecorded(g: Grid, r: Retention, db: Db, recorded: Table, now: int, c: Cuts, b: int) returns (k: Key)
    requires Inv(g, r, db, recorded, now, c) && b in Unrolled(db, Month)
    ensures Edge(g, Day, b) && c.day <= b < Through(db, Day)
    ensures k in recorded && b <= k.bucket < End(g, Day, b)
  {
    var row :| row in db.day && row.bucket == b;
    assert row == Key(b, row.flow) && At(db.day, b, row.flow) != Absent;
    var m := TotalWitness(recorded, row.flow, b, End(g, Day, b));
    k := Key(m, row.flow);
  }

  /** The days of a month that closes now are all in the day table. */
  lemma MonthFromDays(g: Grid, r: Retention, db: Db, recorded: Table, now: int, c: Cuts, start: int, f: Flow)
    requires Lawful(g) && Inv(g, r, db, recorded, now, c)
    requires Settled(g, recorded, db, Day, now)
    requires Edge(g, Month, start) && Through(db, Month) <= start < Through(db, Day)
    requires Mark(db, Day).Some?
    requires End(g, Month, start) + GRACE <= now
    ensures Total(db.day, f, start, End(g, Month, start)) == Total(recorded, f, start, End(g, Month, start))
  {
    var end, mark := End(g, Month, start), Through(db, Day);
    assert Partitions(g, Day) && Partitions(g, Month);
    MonthEdgeIsDayEdge(g, start);
    EndIsEdge(g, Month, start);
    MonthEdgeIsDayEdge(g, end);
    if end <= mark {
      FoldedTotal(g, recorded, db.day, Day, c.day, mark, f, start, end);
    } else {
      assert MarkOk(g, recorded, Day, Mark(db, Day), now);
      MarkIsEdge(g, recorded, Day, Mark(db, Day), now);
      FoldedTotal(g, recorded, db.day, Day, c.day, mark, f, start, mark);
      FoldedNone(g, recorded, db.day, Day, c.day, mark, f, mark, end);
      forall k | k in recorded
        ensures !(mark <= k.bucket < end)
      {
        if start <= k.bucket < end {
          assert g(Month, k.bucket) == g(Month, start);
          ClosedMonthIsRolled(g, r, db, recorded, now, c, k);
        }
      }
      NothingRecorded(recorded, f, mark, end);
      TotalSplit(db.day, f, start, mark, end);
      TotalSplit(recorded, f, start, mark, end);
    }
  }

  /** The oldest unrolled day row is in a month something was recorded in. */
  lemma MonthOfOldest(g: Grid, r: Retention, db: Db, recorded: Table, now: int, c: Cuts, oldest: int)
    returns (first: Key)
    requires Lawful(g) && Inv(g, r, db, recorded, now, c)
    requires oldest in Unrolled(db, Month)
    ensures first in recorded && g(Month, first.bucket) == g(Month, oldest) && 0 <= Start(g, Month, oldest)
    ensures oldest <= first.bucket
    ensures Start(g, Month, oldest) <= oldest < Through(db, Day)
  {
    first := DayRowRecorded(g, r, db, recorded, now, c, oldest);
    hide Inv;
    assert Partitions(g, Day) && Partitions(g, Month);
    assert g(Day, first.bucket) == g(Day, oldest);
    assert Start(g, Month, oldest) <= oldest && End(g, Day, oldest) <= End(g, Month, oldest);
    assert g(Month, first.bucket) == g(Month, oldest);
    assert Datable(g, first.bucket) by { RecordedDatable(g, r, db, recorded, now, c, first); }
  }

  lemma RecordedDatable(g: Grid, r: Retention, db: Db, recorded: Table, now: int, c: Cuts, k: Key)
    requires Inv(g, r, db, recorded, now, c) && k in recorded
    ensures Datable(g, k.bucket)
  {
  }

  /** A month that may close holds nothing recorded before the oldest day row. */
  lemma NothingBeforeOldest(g: Grid, r: Retention, db: Db, recorded: Table, now: int, c: Cuts, k: Key)
    requires Lawful(g) && Inv(g, r, db, recorded, now, c)
    requires Settled(g, recorded, db, Day, now)
    requires RollupNext(g, db, Month, now).Some?
    requires k in recorded && Through(db, Month) <= k.bucket
    ensures Start(g, Month, Min(Unrolled(db, Month))) <= k.bucket
  {
    var oldest := Min(Unrolled(db, Month));
    var start := Start(g, Month, oldest);
    assert Partitions(g, Day) && Partitions(g, Month);
    RollupEffect(g, db, Month, now);
    hide RollupNext;
    if End(g, Month, k.bucket) + GRACE <= now {
      ClosedMonthIsRolled(g, r, db, recorded, now, c, k);
      DayRowPresent(g, r, db, recorded, now, c, k);
      assert start <= oldest <= Start(g, Day, k.bucket) <= k.bucket;
    } else {
      StartIsEdge(g, Month, oldest);
      EdgeSeparates(g, Month, start, k.bucket);
    }
  }

  /** The next month to roll starts at or past the month watermark, and nothing
      recorded lies between the two. */
  lemma MonthOpens(g: Grid, r: Retention, db: Db, recorded: Table, now: int, c: Cuts) returns (start: int)
    requires Lawful(g) && Inv(g, r, db, recorded, now, c)
    requires Settled(g, recorded, db, Day, now)
    requires RollupNext(g, db, Month, now).Some?
    ensures start == Start(g, Month, Min(Unrolled(db, Month)))
    ensures Edge(g, Month, start) && End(g, Month, start) == End(g, Month, Min(Unrolled(db, Month)))
    ensures Through(db, Month) <= start < Through(db, Day) && Mark(db, Day).Some?
    ensures forall k :: k in recorded && Through(db, Month) <= k.bucket ==> start <= k.bucket
    ensures exists k :: k in recorded && End(g, Month, k.bucket) == End(g, Month, start)
  {
    RollupEffect(g, db, Month, now);
    var oldest := Min(Unrolled(db, Month));
    start := Start(g, Month, oldest);
    assert Partitions(g, Month) && MarkOk(g, recorded, Month, Mark(db, Month), now);
    MarksNotNegative(g, r, db, recorded, now, c);
    assert Through(db, Month) <= oldest;
    hide RollupNext, Inv, Unrolled;
    var first := MonthOfOldest(g, r, db, recorded, now, c, oldest);
    StartIsEdge(g, Month, oldest);
    BucketsPastMark(g, recorded, db, Month, now, oldest);
    forall k | k in recorded && Through(db, Month) <= k.bucket
      ensures start <= k.bucket
    {
      NothingBeforeOldest(g, r, db, recorded, now, c, k);
    }
    assert End(g, Month, first.bucket) == End(g, Month, start);
  }

  lemma MonthFolds(g: Grid, r: Retention, db: Db, recorded: Table, now: int, c: Cuts)
    requires Lawful(g) && Inv(g, r, db, recorded, now, c)
    requires Settled(g, recorded, db, Day, now)
    requires RollupNext(g, db, Month, now).Some?
    ensures var db' := RollupNext(g, db, Month, now).value;
      && Folded(g, recorded, Rows(db', Month), Month, 0, Through(db', Month))
      && MarkOk(g, recorded, Month, Mark(db', Month), now)
      && (forall k :: k in recorded && k.bucket < Through(db', Month) ==> k.bucket < Through(db, Day))
  {
    var start := MonthOpens(g, r, db, recorded, now, c);
    var end := End(g, Month, start);
    assert Partitions(g, Month);
    MarksNotNegative(g, r, db, recorded, now, c);
    RollupEffect(g, db, Month, now);
    hide RollupNext, Unrolled, Kept, CutsOk, Settled, Edge;
    forall f
      ensures Total(db.day, f, start, end) == Total(recorded, f, start, end)
    {
      MonthFromDays(g, r, db, recorded, now, c, start, f);
    }
    FoldNext(g, recorded, db.month, db.day, Month, 0, Through(db, Month), start);
    BelowMonthIsRolled(g, r, db, recorded, now, c, start);
  }

  /** Nothing recorded below the end of the month being moved lies past the day watermark. */
  lemma BelowMonthIsRolled(g: Grid, r: Retention, db: Db, recorded: Table, now: int, c: Cuts, start: int)
    requires Lawful(g) && Inv(g, r, db, recorded, now, c)
    requires Settled(g, recorded, db, Day, now)
    requires End(g, Month, start) + GRACE <= now
    requires forall k :: k in recorded && Through(db, Month) <= k.bucket ==> start <= k.bucket
    ensures forall k :: k in recorded && k.bucket < End(g, Month, start) ==> k.bucket < Through(db, Day)
  {
    assert Partitions(g, Month);
    hide Lawful, Folded, Kept, Settled;
    forall k | k in recorded && k.bucket < End(g, Month, start)
      ensures k.bucket < Through(db, Day)
    {
      if Through(db, Month) <= k.bucket {
        assert g(Month, k.bucket) == g(Month, start);
        ClosedMonthIsRolled(g, r, db, recorded, now, c, k);
      }
    }
  }

  lemma MonthMoves(g: Grid, r: Retention, db: Db, recorded: Table, now: int, c: Cuts)
    requires Lawful(g) && Inv(g, r, db, recorded, now, c)
    requires Settled(g, recorded, db, Day, now)
    requires RollupNext(g, db, Month, now).Some?
    ensures var db' := RollupNext(g, db, Month, now).value;
      && Inv(g, r, db', recorded, now, c)
      && (forall t :: t != Month ==> Through(db', t) == Through(db, t))
  {
    MonthFolds(g, r, db, recorded, now, c);
    assert Contains(g, Month) by { assert Partitions(g, Month); }
    hide RollupNext, Unrolled, Folded, Kept, MarkOk, RecordedOk, CutsOk, Start, Through, Lawful, Contains;
    MoveMarks(g, db, recorded, now, Month);
    MoveCuts(r, db, RollupNext(g, db, Month, now).value, now, c, Month, 0);
    MoveTables(g, db, recorded, now, c, Month);
  }

  /** When a tier has nothing more to move, it is settled. */
  lemma MinuteTierStops(g: Grid, r: Retention, db: Db, recorded: Table, now: int, c: Cuts, tier: Tier)
    requires Lawful(g) && Inv(g, r, db, recorded, now, c)
    requires tier == Hour || tier == Day
    requires RollupNext(g, db, tier, now).None?
    ensures Settled(g, recorded, db, tier, now)
  {
    assert Partitions(g, tier);
    forall k | k in recorded && Through(db, tier) <= k.bucket
      ensures now < End(g, tier, k.bucket) + GRACE
    {
      MinutesPresent(db, recorded, tier, c.minute, k.bucket);
      BoundsMonotone(g, tier, Min(Unrolled(db, tier)), k.bucket);
    }
  }

  lemma MonthStops(g: Grid, r: Retention, db: Db, recorded: Table, now: int, c: Cuts)
    requires Lawful(g) && Inv(g, r, db, recorded, now, c)
    requires Settled(g, recorded, db, Day, now)
    requires RollupNext(g, db, Month, now).None?
    ensures Settled(g, recorded, db, Month, now)
  {
    assert Partitions(g, Month);
    forall k | k in recorded && Through(db, Month) <= k.bucket
      ensures now < End(g, Month, k.bucket) + GRACE
    {
      if End(g, Month, k.bucket) + GRACE <= now {
        ClosedMonthIsRolled(g, r, db, recorded, now, c, k);
        DayRowPresent(g, r, db, recorded, now, c, k);
        assert Start(g, Day, k.bucket) <= k.bucket by { assert Partitions(g, Day); }
        BoundsMonotone(g, Month, Min(Unrolled(db, Month)), k.bucket);
      }
    }
  }

  /** Dropping rows below a cut. */
  lemma DropFolded(g: Grid, recorded: Table, t: Table, tier: Tier, cut: int, through: int, before: int)
    requires Folded(g, recorded, t, tier, cut, through) && 0 <= cut
    requires cut <= Greater(0, before)
    ensures Folded(g, recorded, DropBefore(t, before), tier, Greater(0, before), through)
  {
  }

  lemma DropKept(t: Table, recorded: Table, cut: int, before: int)
    requires Kept(t, recorded, cut) && 0 <= cut <= Greater(0, before)
    requires forall k :: k in recorded ==> 0 <= k.bucket
    ensures Kept(DropBefore(t, before), recorded, Greater(0, before))
  {
    assert forall b, f :: Key(b, f) in recorded ==> 0 <= Key(b, f).bucket;
  }

  lemma MinutesFromEpoch(g: Grid, recorded: Table)
    requires RecordedOk(g, recorded)
    ensures forall k :: k in recorded ==> 0 <= k.bucket
  {
  }

  /** What pruning leaves of the invariant as it was. */
  lemma SameMarksKeep(g: Grid, recorded: Table, db: Db, db': Db, clock: int)
    requires SameMarks(db, db')
    ensures forall t :: Mark(db', t) == Mark(db, t) && Through(db', t) == Through(db, t)
    ensures NoGap(recorded, db) ==> NoGap(recorded, db')
  {
  }

  lemma PruneMinuteKeeps(g: Grid, r: Retention, db: Db, recorded: Table, now: int, c: Cuts) returns (c': Cuts)
    requires Inv(g, r, db, recorded, now, c)
    ensures Inv(g, r, PruneMinute(r, db, now), recorded, now, c')
    ensures c' == c.(minute := MinuteCut(r, db, now))
  {
    c' := c.(minute := MinuteCut(r, db, now));
    hide Folded, MarkOk, NoGap, Kept, RecordedOk;
    SameMarksKeep(g, recorded, db, PruneMinute(r, db, now), now);
    MinutesFromEpoch(g, recorded);
    if db.hourMark.Some? && db.dayMark.Some? {
      DropKept(db.minute, recorded, c.minute, Lesser(Lesser(now - r.minute, db.hourMark.value), db.dayMark.value));
    }
  }

  lemma PruneHourKeeps(g: Grid, r: Retention, db: Db, recorded: Table, now: int, c: Cuts) returns (c': Cuts)
    requires Inv(g, r, db, recorded, now, c)
    ensures Inv(g, r, PruneHour(r, db, now), recorded, now, c')
    ensures c' == c.(hour := HourCut(r, now))
  {
    c' := c.(hour := HourCut(r, now));
    hide Folded, MarkOk, NoGap, Kept, RecordedOk;
    SameMarksKeep(g, recorded, db, PruneHour(r, db, now), now);
    DropFolded(g, recorded, db.hour, Hour, c.hour, Through(db, Hour), now - r.hour);
  }

  lemma PruneDayKeeps(g: Grid, r: Retention, db: Db, recorded: Table, now: int, c: Cuts) returns (c': Cuts)
    requires Inv(g, r, db, recorded, now, c)
    ensures Inv(g, r, PruneDay(r, db, now), recorded, now, c')
    ensures c' == c.(day := DayCut(r, db, now))
  {
    c' := c.(day := DayCut(r, db, now));
    hide Folded, MarkOk, NoGap, Kept, RecordedOk;
    SameMarksKeep(g, recorded, db, PruneDay(r, db, now), now);
    if db.monthMark.Some? {
      DropFolded(g, recorded, db.day, Day, c.day, Through(db, Day), Lesser(now - r.day, db.monthMark.value));
    }
  }

  /** A rolling step. */
  lemma RollingKeeps(g: Grid, r: Retention, db: Db, recorded: Table, now: int, c: Cuts, phase: Phase) returns (c': Cuts)
    requires Lawful(g) && Inv(g, r, db, recorded, now, c) && Reached(g, r, db, recorded, now, c, phase)
    requires phase.Rolling?
    ensures var next := Step(g, r, now, db, phase);
      Inv(g, r, next.0, recorded, now, c') && Reached(g, r, next.0, recorded, now, c', next.1)
  {
    hide Inv, RollupNext, Lawful;
    c' := c;
    match phase.tier
    case Hour =>
      if RollupNext(g, db, Hour, now).Some? {
        c' := MinuteTierKeeps(g, r, db, recorded, now, c, Hour);
      } else {
        MinuteTierStops(g, r, db, recorded, now, c, Hour);
      }
    case Day =>
      if RollupNext(g, db, Day, now).Some? {
        c' := MinuteTierKeeps(g, r, db, recorded, now, c, Day);
      } else {
        MinuteTierStops(g, r, db, recorded, now, c, Day);
      }
    case Month =>
      if RollupNext(g, db, Month, now).Some? {
        MonthMoves(g, r, db, recorded, now, c);
      } else {
        MonthStops(g, r, db, recorded, now, c);
      }
  }

  lemma SettledByMarks(g: Grid, recorded: Table, db: Db, db': Db, now: int)
    requires SameMarks(db, db')
    ensures forall t :: Settled(g, recorded, db, t, now) ==> Settled(g, recorded, db', t, now)
  {
    assert forall t :: Through(db', t) == Through(db, t);
  }

  /** A pruning step. */
  lemma PruningKeeps(g: Grid, r: Retention, db: Db, recorded: Table, now: int, c: Cuts, phase: Phase) returns (c': Cuts)
    requires Lawful(g) && Inv(g, r, db, recorded, now, c) && Reached(g, r, db, recorded, now, c, phase)
    requires phase.Pruning?
    ensures var next := Step(g, r, now, db, phase);
      Inv(g, r, next.0, recorded, now, c') && Reached(g, r, next.0, recorded, now, c', next.1)
  {
    hide Inv, PruneMinute, PruneHour, PruneDay, Lawful, Settled;
    PruneKeepsMarks(r, db, now);
    SettledByMarks(g, recorded, db, Step(g, r, now, db, phase).0, now);
    match phase.tier
    case Minute => c' := PruneMinuteKeeps(g, r, db, recorded, now, c);
    case Hour => c' := PruneHourKeeps(g, r, db, recorded, now, c);
    case Day => c' := PruneDayKeeps(g, r, db, recorded, now, c);
  }

  /** One step, whatever the phase. */
  lemma StepKeeps(g: Grid, r: Retention, db: Db, recorded: Table, now: int, c: Cuts, phase: Phase) returns (c': Cuts)
    requires Lawful(g) && Inv(g, r, db, recorded, now, c) && Reached(g, r, db, recorded, now, c, phase)
    ensures var next := Step(g, r, now, db, phase);
      Inv(g, r, next.0, recorded, now, c') && Reached(g, r, next.0, recorded, now, c', next.1)
  {
    hide Inv, Lawful, Reached;
    match phase
    case Rolling(_) => c' := RollingKeeps(g, r, db, recorded, now, c, phase);
    case Pruning(_) => c' := PruningKeeps(g, r, db, recorded, now, c, phase);
    case Done => c' := c;
  }

  predicate SameMarks(db: Db, db': Db) {
    db'.hourMark == db.hourMark && db'.dayMark == db.dayMark && db'.monthMark == db.monthMark
  }

  lemma PruneKeepsMarks(r: Retention, db: Db, now: int)
    ensures SameMarks(db, PruneMinute(r, db, now))
    ensures SameMarks(db, PruneHour(r, db, now))
    ensures SameMarks(db, PruneDay(r, db, now))
  {
  }

  /** Any number of steps, so a run aborted anywhere as much as a whole one. */
  lemma {:induction false} RunKeeps(g: Grid, r: Retention, db: Db, recorded: Table, now: int, c: Cuts, phase: Phase,
                                    steps: nat)
    returns (c': Cuts)
    requires Lawful(g) && Inv(g, r, db, recorded, now, c) && Reached(g, r, db, recorded, now, c, phase)
    ensures var end := Run(g, r, now, db, phase, steps);
      Inv(g, r, end.0, recorded, now, c') && Reached(g, r, end.0, recorded, now, c', end.1)
    decreases steps
  {
    c' := c;
    if steps > 0 {
      var next := Step(g, r, now, db, phase);
      var mid := StepKeeps(g, r, db, recorded, now, c, phase);
      c' := RunKeeps(g, r, next.0, recorded, now, mid, next.1, steps - 1);
    }
  }
}
