/** The tiered tables and the job that moves closed buckets up the tiers. A
    rollup run is a sequence of steps, each one transaction or one delete, so a
    run that fails part way is simply a run of fewer steps. */
module Rollup {
  import opened Counters
  import opened Zones

  /** Seconds between a bucket's end and the first moment it may be moved. */
  const GRACE := 120

  datatype Retention = Retention(minute: int, hour: int, day: int)

  /** The four tables and the three rows of `rollup_watermark`. */
  datatype Db = Db(
    minute: Table, hour: Table, day: Table, month: Table,
    hourMark: Option<int>, dayMark: Option<int>, monthMark: Option<int>)

  const EMPTY := Db(map[], map[], map[], map[], None, None, None)

  function Rows(db: Db, tier: Tier): Table {
    match tier
    case Minute => db.minute
    case Hour => db.hour
    case Day => db.day
    case Month => db.month
  }

  /** Where a tier's rows come from. Days skip the hour table: an hour in UTC can
      lie across two local days. */
  function Source(tier: Tier): Tier {
    if tier == Month then Day else Minute
  }

  function Mark(db: Db, tier: Tier): Option<int> {
    match tier
    case Minute => None
    case Hour => db.hourMark
    case Day => db.dayMark
    case Month => db.monthMark
  }

  /** `watermark.unwrap_or(0)`: every source row below it has been rolled up. */
  function Through(db: Db, tier: Tier): int {
    if Mark(db, tier).Some? then Mark(db, tier).value else 0
  }

  function Moved(db: Db, tier: Tier, rows: Table, mark: int): Db
    requires tier != Minute
  {
    match tier
    case Hour => db.(hour := rows, hourMark := Some(mark))
    case Day => db.(day := rows, dayMark := Some(mark))
    case Month => db.(month := rows, monthMark := Some(mark))
  }

  /** `INSERT INTO dst SELECT start, flow, sum(..) FROM src WHERE lower <= bucket
      < end GROUP BY flow ON CONFLICT DO UPDATE SET` the sums added up. */
  function RollInto(dst: Table, src: Table, start: int, lower: int, end: int): (r: Table)
    ensures forall b, f ::
      At(r, b, f) == if b == start then Plus(At(dst, b, f), Total(src, f, lower, end)) else At(dst, b, f)
  {
    var grouped := set k | k in src && lower <= k.bucket < end :: Key(start, k.flow);
    var r := map k | k in dst.Keys + grouped ::
      var sum := if k.bucket == start then Total(src, k.flow, lower, end) else Absent;
      match Plus(At(dst, k.bucket, k.flow), sum) case Row(bytes) => bytes case Absent => Bytes(0, 0);
    RollIntoAt(r, dst, src, start, lower, end);
    r
  }

  lemma RollIntoAt(r: Table, dst: Table, src: Table, start: int, lower: int, end: int)
    requires r.Keys == dst.Keys + set k | k in src && lower <= k.bucket < end :: Key(start, k.flow)
    requires forall k :: k in r ==>
      r[k] == match Plus(At(dst, k.bucket, k.flow),
                         if k.bucket == start then Total(src, k.flow, lower, end) else Absent)
              case Row(bytes) => bytes case Absent => Bytes(0, 0)
    ensures forall b, f ::
      At(r, b, f) == if b == start then Plus(At(dst, b, f), Total(src, f, lower, end)) else At(dst, b, f)
  {
    forall b, f
      ensures At(r, b, f)
           == if b == start then Plus(At(dst, b, f), Total(src, f, lower, end)) else At(dst, b, f)
    {
      if b == start {
        GroupsAreTotals(src, f, start, lower, end);
      }
      assert Key(b, f) in r <==>
        Key(b, f) in dst || Key(b, f) in set k | k in src && lower <= k.bucket < end :: Key(start, k.flow);
    }
  }

  /** `GROUP BY` yields a group for a flow exactly when it has a row in range. */
  lemma GroupsAreTotals(src: Table, f: Flow, start: int, lower: int, end: int)
    ensures Total(src, f, lower, end) != Absent
       <==> Key(start, f) in set k | k in src && lower <= k.bucket < end :: Key(start, k.flow)
  {
    if Total(src, f, lower, end) != Absent {
      var b := TotalWitness(src, f, lower, end);
      assert Key(b, f) in src;
    }
    if Key(start, f) in set k | k in src && lower <= k.bucket < end :: Key(start, k.flow) {
      var k :| k in src && lower <= k.bucket < end && Key(start, k.flow) == Key(start, f);
      assert k == Key(k.bucket, f);
      TotalPresent(src, f, lower, end, k.bucket);
    }
  }

  /** Source buckets not yet rolled into `tier`. */
  function Unrolled(db: Db, tier: Tier): set<int> {
    set k | k in Rows(db, Source(tier)) && Through(db, tier) <= k.bucket :: k.bucket
  }

  /** The database after one transaction of the job, or `None` where it has
      nothing to move: no source row past the watermark, or the first such row's
      bucket ended less than `GRACE` ago, if at all. */
  function RollupNext(g: Grid, db: Db, tier: Tier, now: int): Option<Db>
    requires tier != Minute
  {
    if Unrolled(db, tier) == {} then None
    else
      var bucket := g(tier, Min(Unrolled(db, tier)));
      if now < bucket.end + GRACE then None
      else
        var mark := Mark(db, tier);
        var lower := if mark.Some? && bucket.start < mark.value then mark.value else bucket.start;
        Some(Moved(db, tier,
                   RollInto(Rows(db, tier), Rows(db, Source(tier)), bucket.start, lower, bucket.end),
                   bucket.end))
  }

  function Lesser(a: int, b: int): int {
    if a <= b then a else b
  }

  function PruneMinute(r: Retention, db: Db, now: int): Db {
    if db.hourMark.Some? && db.dayMark.Some? then
      db.(minute := DropBefore(db.minute, Lesser(Lesser(now - r.minute, db.hourMark.value), db.dayMark.value)))
    else db
  }

  function PruneHour(r: Retention, db: Db, now: int): Db {
    db.(hour := DropBefore(db.hour, now - r.hour))
  }

  function PruneDay(r: Retention, db: Db, now: int): Db {
    if db.monthMark.Some? then
      db.(day := DropBefore(db.day, Lesser(now - r.day, db.monthMark.value)))
    else db
  }

  /** Where a run has got to. */
  datatype Phase = Rolling(tier: Tier) | Pruning(tier: Tier) | Done

  const FIRST := Rolling(Hour)

  function Step(g: Grid, r: Retention, now: int, db: Db, phase: Phase): (Db, Phase) {
    match phase
    case Rolling(Minute) => (db, Done)
    case Rolling(tier) =>
      var next := RollupNext(g, db, tier, now);
      if next.Some? then (next.value, phase)
      else (db, if tier == Hour then Rolling(Day) else if tier == Day then Rolling(Month) else Pruning(Minute))
    case Pruning(Minute) => (PruneMinute(r, db, now), Pruning(Hour))
    case Pruning(Hour) => (PruneHour(r, db, now), Pruning(Day))
    case Pruning(Day) => (PruneDay(r, db, now), Done)
    case _ => (db, Done)
  }

  /** The first `steps` steps of a run that has got to `phase`. */
  function Run(g: Grid, r: Retention, now: int, db: Db, phase: Phase, steps: nat): (Db, Phase)
    decreases steps
  {
    if steps == 0 then (db, phase)
    else
      var (db', phase') := Step(g, r, now, db, phase);
      Run(g, r, now, db', phase', steps - 1)
  }

  /** What moving a bucket does to the database, and all it does. */
  lemma RollupEffect(g: Grid, db: Db, tier: Tier, now: int)
    requires tier != Minute && RollupNext(g, db, tier, now).Some?
    ensures var db' := RollupNext(g, db, tier, now).value;
            var bucket := g(tier, Min(Unrolled(db, tier)));
      && Unrolled(db, tier) != {}
      && (Through(db, tier) <= bucket.start ==>
            Rows(db', tier) == RollInto(Rows(db, tier), Rows(db, Source(tier)), bucket.start, bucket.start, bucket.end))
      && Mark(db', tier) == Some(bucket.end)
      && bucket.end + GRACE <= now
      && (forall other :: other != tier ==> Rows(db', other) == Rows(db, other) && Mark(db', other) == Mark(db, other))
  {
    hide RollInto, Unrolled;
  }

  /** Each bucket moved leaves strictly fewer source rows above the watermark,
      because a bucket ends after the row that opened it, and the watermark
      only ever rises. */
  lemma RollupProgress(g: Grid, db: Db, tier: Tier, now: int)
    requires tier != Minute && Ends(g, tier)
    requires RollupNext(g, db, tier, now).Some?
    ensures var db' := RollupNext(g, db, tier, now).value;
      && Unrolled(db', tier) < Unrolled(db, tier)
      && Through(db, tier) < Through(db', tier) <= now - GRACE
      && Mark(db', tier).Some?
  {
    var db' := RollupNext(g, db, tier, now).value;
    var oldest := Min(Unrolled(db, tier));
    assert oldest < End(g, tier, oldest);
    assert Rows(db', Source(tier)) == Rows(db, Source(tier));
    assert oldest !in Unrolled(db', tier);
    forall b | b in Unrolled(db', tier)
      ensures b in Unrolled(db, tier)
    {
      var k :| k in Rows(db', Source(tier)) && Through(db', tier) <= k.bucket && k.bucket == b;
      assert k in Rows(db, Source(tier)) && Through(db, tier) <= k.bucket;
    }
  }

  /** When the job stops moving `tier` buckets, what is left is still open or
      within its grace period. */
  lemma RollupStops(g: Grid, db: Db, tier: Tier, now: int)
    requires tier != Minute
    ensures RollupNext(g, db, tier, now).None?
       <==> Unrolled(db, tier) == {} || now < End(g, tier, Min(Unrolled(db, tier))) + GRACE
  {
  }

  lemma {:induction false} RunJoin(g: Grid, r: Retention, now: int, db: Db, phase: Phase, a: nat, b: nat)
    ensures Run(g, r, now, db, phase, a + b)
         == var mid := Run(g, r, now, db, phase, a); Run(g, r, now, mid.0, mid.1, b)
    decreases a
  {
    if a > 0 {
      var next := Step(g, r, now, db, phase);
      RunJoin(g, r, now, next.0, next.1, a - 1, b);
    }
  }

  lemma {:induction false} DoneStays(g: Grid, r: Retention, now: int, db: Db, steps: nat)
    ensures Run(g, r, now, db, Done, steps) == (db, Done)
    decreases steps
  {
    if steps > 0 {
      DoneStays(g, r, now, db, steps - 1);
    }
  }

  function Rank(phase: Phase): nat {
    match phase
    case Rolling(Hour) => 6
    case Rolling(Day) => 5
    case Rolling(Month) => 4
    case Pruning(Minute) => 3
    case Pruning(Hour) => 2
    case Pruning(Day) => 1
    case Pruning(Month) => 1
    case Rolling(Minute) => 1
    case Done => 0
  }

  /** Every run finishes, from any database and phase, if no bucket ends before
      an instant it is the bucket of. */
  lemma {:induction false} RunFinishes(g: Grid, r: Retention, now: int, db: Db, phase: Phase) returns (steps: nat)
    requires forall tier :: tier != Minute ==> Ends(g, tier)
    ensures Run(g, r, now, db, phase, steps).1 == Done
    decreases Rank(phase), if phase.Rolling? then Unrolled(db, phase.tier) else {}
  {
    if phase == Done {
      steps := 0;
    } else {
      var next := Step(g, r, now, db, phase);
      if phase.Rolling? && phase.tier != Minute && RollupNext(g, db, phase.tier, now).Some? {
        RollupProgress(g, db, phase.tier, now);
      }
      var rest := RunFinishes(g, r, now, next.0, next.1);
      steps := rest + 1;
    }
  }

  ghost predicate Finishes(g: Grid, r: Retention, now: int, db: Db, phase: Phase) {
    exists steps: nat :: Run(g, r, now, db, phase, steps).1 == Done
  }

  /** A single source bucket whose target ends no later than it begins is moved
      again and again: the watermark never gets past it. */
  lemma {:induction false} KeepsMoving(g: Grid, r: Retention, now: int, db: Db, tier: Tier, t: int, steps: nat)
    requires tier != Minute && Unrolled(db, tier) == {t}
    requires forall k :: k in Rows(db, Source(tier)) ==> k.bucket == t
    requires End(g, tier, t) <= t && End(g, tier, t) + GRACE <= now
    ensures Run(g, r, now, db, Rolling(tier), steps).1 == Rolling(tier)
    decreases steps
  {
    if steps > 0 {
      RollupStops(g, db, tier, now);
      RollupEffect(g, db, tier, now);
      var db' := RollupNext(g, db, tier, now).value;
      var k :| k in Rows(db, Source(tier)) && k.bucket == t;
      assert Source(tier) != tier && Rows(db', Source(tier)) == Rows(db, Source(tier));
      hide RollupNext;
      assert k in Rows(db', Source(tier)) && Through(db', tier) <= k.bucket;
      assert Unrolled(db', tier) == {t};
      KeepsMoving(g, r, now, db', tier, t, steps - 1);
    }
  }

  /** Tiers with nothing to move are passed over. */
  lemma PassesOver(g: Grid, r: Retention, now: int, db: Db, phase: Phase)
    requires phase != Done && Step(g, r, now, db, phase).0 == db
    ensures Finishes(g, r, now, db, phase) ==> Finishes(g, r, now, db, Step(g, r, now, db, phase).1)
  {
    if steps: nat :| Run(g, r, now, db, phase, steps).1 == Done {
      assert steps > 0;
      assert Run(g, r, now, db, Step(g, r, now, db, phase).1, steps - 1).1 == Done;
    }
  }

  /** A database with one source row for `tier`, at `t`, and nothing else to move. */
  function OneRow(tier: Tier, t: int, f: Flow): Db {
    var row := map[Key(t, f) := Bytes(0, 0)];
    match tier
    case Month => Db(map[], map[], row, map[], None, None, Some(t))
    case Day => Db(row, map[], map[], map[], Some(t + 1), Some(t), None)
    case _ => Db(row, map[], map[], map[], Some(t), None, None)
  }

  lemma OneRowUnrolled(tier: Tier, t: int, f: Flow)
    requires tier != Minute
    ensures Unrolled(OneRow(tier, t, f), tier) == {t}
    ensures forall k :: k in Rows(OneRow(tier, t, f), Source(tier)) ==> k.bucket == t
    ensures tier != Hour ==> Unrolled(OneRow(tier, t, f), Hour) == {}
    ensures tier == Month ==> Unrolled(OneRow(tier, t, f), Day) == {}
  {
    var db := OneRow(tier, t, f);
    assert Key(t, f) in Rows(db, Source(tier)) && Key(t, f).bucket == t;
  }

  /** Where a bucket ends too early, some run never finishes. */
  lemma NeverFinishes(g: Grid, r: Retention, tier: Tier, t: int, f: Flow)
    requires tier != Minute && End(g, tier, t) <= t
    ensures !Finishes(g, r, End(g, tier, t) + GRACE, OneRow(tier, t, f), FIRST)
  {
    var db, now := OneRow(tier, t, f), End(g, tier, t) + GRACE;
    OneRowUnrolled(tier, t, f);
    RollupStops(g, db, Hour, now);
    RollupStops(g, db, Day, now);
    hide RollupNext, OneRow, Unrolled;
    if tier != Hour {
      PassesOver(g, r, now, db, FIRST);
    }
    if tier == Month {
      PassesOver(g, r, now, db, Rolling(Day));
    }
    forall steps: nat
      ensures Run(g, r, now, db, Rolling(tier), steps).1 != Done
    {
      KeepsMoving(g, r, now, db, tier, t, steps);
    }
  }

  /** So the loops finish on every database and at every time if and only if
      every hour, day and month ends after each instant in it. */
  lemma FinishesExactly(g: Grid, r: Retention)
    ensures (forall db, now :: Finishes(g, r, now, db, FIRST)) <==> (forall tier :: tier != Minute ==> Ends(g, tier))
  {
    if forall tier :: tier != Minute ==> Ends(g, tier) {
      forall db, now
        ensures Finishes(g, r, now, db, FIRST)
      {
        var steps := RunFinishes(g, r, now, db, FIRST);
      }
    } else {
      var tier :| tier != Minute && !Ends(g, tier);
      var t :| !(t < End(g, tier, t));
      NeverFinishes(g, r, tier, t, Flow(0, External));
    }
  }
}
