/** What every step of the rollup job keeps: each table in terms of the minutes
    ever recorded, `recorded`, which the tables together must never lose. */
module Invariant {
  import opened Counters
  import opened Zones
  import opened Rollup

  /** Rows below these have been pruned from the minute, hour and day tables. */
  datatype Cuts = Cuts(minute: int, hour: int, day: int)

  /** Whole minutes since the epoch, in months that began since the epoch. */
  predicate Datable(g: Grid, bucket: int) {
    bucket % 60 == 0 && 0 <= bucket && 0 <= Start(g, Month, bucket)
  }

  ghost predicate RecordedOk(g: Grid, recorded: Table) {
    forall k :: k in recorded ==> Datable(g, k.bucket)
  }

  /** A watermark is the end of a bucket something was recorded in, and at
      least the grace period in the past. */
  ghost predicate MarkOk(g: Grid, recorded: Table, tier: Tier, mark: Option<int>, clock: int) {
    mark.Some? ==>
      && mark.value <= clock - GRACE
      && (exists k :: k in recorded && End(g, tier, k.bucket) == mark.value)
  }

  ghost predicate Kept(t: Table, recorded: Table, cut: int) {
    forall b, f :: At(t, b, f) == if b < cut then Absent else At(recorded, b, f)
  }

  /** `t` holds, for each `tier` bucket in `[cut, through)`, what was recorded in it. */
  ghost predicate Folded(g: Grid, recorded: Table, t: Table, tier: Tier, cut: int, through: int) {
    forall b, f :: At(t, b, f)
      == if cut <= b < through && Edge(g, tier, b) then Total(recorded, f, b, End(g, tier, b)) else Absent
  }

  /** Where the month watermark is past the day watermark, nothing was recorded between. */
  ghost predicate NoGap(recorded: Table, db: Db) {
    forall k :: k in recorded && k.bucket < Through(db, Month) ==> k.bucket < Through(db, Day)
  }

  function Greater(a: int, b: int): int {
    if a <= b then b else a
  }

  /** Pruning never reaches past retention, nor past a watermark still to be built on. */
  ghost predicate CutsOk(r: Retention, db: Db, clock: int, c: Cuts) {
    && 0 <= c.minute <= Greater(0, clock - r.minute)
    && c.minute <= Through(db, Hour) && c.minute <= Through(db, Day)
    && 0 <= c.hour <= Greater(0, clock - r.hour)
    && 0 <= c.day <= Greater(0, clock - r.day)
    && c.day <= Through(db, Month)
  }

  ghost predicate Inv(g: Grid, r: Retention, db: Db, recorded: Table, clock: int, c: Cuts) {
    && RecordedOk(g, recorded)
    && (forall tier :: MarkOk(g, recorded, tier, Mark(db, tier), clock))
    && Kept(db.minute, recorded, c.minute)
    && Folded(g, recorded, db.hour, Hour, c.hour, Through(db, Hour))
    && Folded(g, recorded, db.day, Day, c.day, Through(db, Day))
    && Folded(g, recorded, db.month, Month, 0, Through(db, Month))
    && NoGap(recorded, db)
    && CutsOk(r, db, clock, c)
  }

  /** Everything recorded at or past the watermark is in a bucket that must wait. */
  ghost predicate Settled(g: Grid, recorded: Table, db: Db, tier: Tier, now: int) {
    forall k :: k in recorded && Through(db, tier) <= k.bucket ==> now < End(g, tier, k.bucket) + GRACE
  }

  function MinuteCut(r: Retention, db: Db, now: int): int {
    if db.hourMark.Some? && db.dayMark.Some?
    then Greater(0, Lesser(Lesser(now - r.minute, db.hourMark.value), db.dayMark.value)) else 0
  }

  function HourCut(r: Retention, now: int): int {
    Greater(0, now - r.hour)
  }

  function DayCut(r: Retention, db: Db, now: int): int {
    if db.monthMark.Some? then Greater(0, Lesser(now - r.day, db.monthMark.value)) else 0
  }

  /** What a run has established by the time it reaches `phase`. */
  ghost predicate Reached(g: Grid, r: Retention, db: Db, recorded: Table, now: int, c: Cuts, phase: Phase) {
    && (Rank(phase) < 6 ==> Settled(g, recorded, db, Hour, now))
    && (Rank(phase) < 5 ==> Settled(g, recorded, db, Day, now))
    && (Rank(phase) < 4 ==> Settled(g, recorded, db, Month, now))
    && (Rank(phase) < 3 ==> c.minute == MinuteCut(r, db, now))
    && (Rank(phase) < 2 ==> c.hour == HourCut(r, now))
    && (Rank(phase) < 1 ==> c.day == DayCut(r, db, now))
    && phase !in {Rolling(Minute), Pruning(Month)}
  }

  // ---- Reading the tables through the invariant

  lemma MarkIsEdge(g: Grid, recorded: Table, tier: Tier, mark: Option<int>, clock: int)
    requires Partitions(g, tier) && MarkOk(g, recorded, tier, mark, clock) && mark.Some?
    ensures Edge(g, tier, mark.value)
  {
    var k :| k in recorded && End(g, tier, k.bucket) == mark.value;
    EndIsEdge(g, tier, k.bucket);
  }

  /** The bucket of a minute at or past the watermark lies wholly past it. */
  lemma BucketsPastMark(g: Grid, recorded: Table, db: Db, tier: Tier, clock: int, b: int)
    requires Lawful(g) && tier != Minute
    requires MarkOk(g, recorded, tier, Mark(db, tier), clock)
    requires Through(db, tier) <= b && (Mark(db, tier).None? ==> 0 <= Start(g, Month, b))
    ensures Through(db, tier) <= Start(g, tier, b)
  {
    assert Partitions(g, tier);
    if Mark(db, tier).Some? {
      MarkIsEdge(g, recorded, tier, Mark(db, tier), clock);
      EdgeSeparates(g, tier, Mark(db, tier).value, b);
    } else if tier == Hour {
      EdgeSeparates(g, Hour, 0, b);
    } else {
      assert Start(g, Month, b) <= Start(g, Day, b);
    }
  }

  /** A folded table and the minutes it was folded from have the same sums over
      any run of whole buckets. */
  lemma {:induction false} FoldedTotal(g: Grid, recorded: Table, t: Table, tier: Tier, cut: int, through: int,
                                       f: Flow, lo: int, hi: int)
    requires Partitions(g, tier) && Folded(g, recorded, t, tier, cut, through)
    requires Edge(g, tier, lo) && Edge(g, tier, hi) && cut <= lo <= hi <= through
    ensures Total(t, f, lo, hi) == Total(recorded, f, lo, hi)
    decreases hi - lo
  {
    if lo < hi {
      var s := Start(g, tier, hi - 1);
      StartIsEdge(g, tier, hi - 1);
      EdgeSeparates(g, tier, lo, hi - 1);
      EdgeSeparates(g, tier, hi, hi - 1);
      FoldedTotal(g, recorded, t, tier, cut, through, f, lo, s);
      forall b | s < b < hi
        ensures At(t, b, f) == Absent
      {
        assert g(tier, b) == g(tier, s);
      }
      TotalFirst(t, f, s, hi);
      TotalSplit(t, f, lo, s, hi);
      TotalSplit(recorded, f, lo, s, hi);
    }
  }

  /** Only bucket starts carry rows. */
  lemma FoldedNone(g: Grid, recorded: Table, t: Table, tier: Tier, cut: int, through: int, f: Flow, lo: int, hi: int)
    requires Folded(g, recorded, t, tier, cut, through) && through <= lo
    ensures Total(t, f, lo, hi) == Absent
  {
    TotalNone(t, f, lo, hi);
  }

  lemma NothingRecorded(recorded: Table, f: Flow, lo: int, hi: int)
    requires forall k :: k in recorded ==> !(lo <= k.bucket < hi)
    ensures Total(recorded, f, lo, hi) == Absent
  {
    forall b | lo <= b < hi
      ensures At(recorded, b, f) == Absent
    {
      assert Key(b, f).bucket == b;
    }
    TotalNone(recorded, f, lo, hi);
  }

  lemma KeptTotal(t: Table, recorded: Table, cut: int, f: Flow, lo: int, hi: int)
    requires Kept(t, recorded, cut) && cut <= lo
    ensures Total(t, f, lo, hi) == Total(recorded, f, lo, hi)
  {
    TotalSame(t, recorded, f, lo, hi);
  }
}
