/** Exactly where the guarantees end. None of these lemmas asks for a lawful or
    a fixed zone, or for minutes to be recorded in time: they say, for any
    database, what one step does to what readers see. */
module Limits {
  import opened Counters
  import opened Zones
  import opened Rollup
  import opened Invariant
  import opened Stitch
  import opened Calendar
  import opened History
  import opened ClosedForm

  /** The watermark past which `tier` is read from minutes. */
  function MinutesFrom(db: Db, tier: Tier): int {
    match tier
    case Minute => 0
    case Hour => Through(db, Hour)
    case _ => Through(db, Day)
  }

  /** A minute reaches the readers of a tier if and only if it is recorded at or
      past the watermark its minutes are read from: late ones are stored, but
      never seen there. */
  lemma RecordIsSeen(db: Db, tier: Tier, key: Key, bytes: Bytes, f: Flow, from: int, to: int)
    ensures Stitched(db.(minute := Accumulate(db.minute, key, bytes)), tier, f, from, to)
         == if key.flow == f && Greater(from, MinutesFrom(db, tier)) <= key.bucket < to
            then Plus(Stitched(db, tier, f, from, to), Row(bytes))
            else Stitched(db, tier, f, from, to)
  {
    var db' := db.(minute := Accumulate(db.minute, key, bytes));
    StitchedPieces(db, tier, f, from, to);
    StitchedPieces(db', tier, f, from, to);
    RecordPiece(db, Piece(Minute, MinutesFrom(db, tier)), key, bytes, f, from, to);
    RecordPiece(db, Piece(tier, 0), key, bytes, f, from, to);
    RecordPiece(db, Piece(Day, Through(db, Month)), key, bytes, f, from, to);
    hide Stitched, PieceTotal, Accumulate;
    assert forall t :: Through(db', t) == Through(db, t);
  }

  lemma RecordPiece(db: Db, p: Piece, key: Key, bytes: Bytes, f: Flow, from: int, to: int)
    ensures PieceTotal(db.(minute := Accumulate(db.minute, key, bytes)), p, f, from, to)
         == if p.source == Minute && key.flow == f && Greater(from, p.lower) <= key.bucket < to
            then Plus(PieceTotal(db, p, f, from, to), Row(bytes))
            else PieceTotal(db, p, f, from, to)
  {
    var db' := db.(minute := Accumulate(db.minute, key, bytes));
    assert p.source != Minute ==> Rows(db', p.source) == Rows(db, p.source);
    TotalAccumulate(db.minute, key, bytes, f, Greater(from, p.lower), to);
  }

  /** Where the bucket about to be rolled into `tier` begins and ends. */
  function Next(g: Grid, db: Db, tier: Tier): Bucket
    requires Unrolled(db, tier) != {}
  {
    g(tier, Min(Unrolled(db, tier)))
  }

  /** Rows below this are not read by an all-time month read, once in `tier`. */
  function Floor(db: Db, tier: Tier): int {
    if tier == Day then Through(db, Month) else 0
  }

  /** What rolling the next bucket takes out of the rows a month read uses. */
  function Taken(g: Grid, db: Db, tier: Tier, f: Flow): Cell
    requires Unrolled(db, tier) != {}
  {
    Total(Rows(db, Source(tier)), f, Through(db, tier), Next(g, db, tier).end)
  }

  predicate FromEpoch(db: Db) {
    && 0 <= Through(db, Day) && 0 <= Through(db, Month)
    && (forall k :: k in db.minute ==> 0 <= k.bucket)
  }

  /** What is taken is what is added, unless the bucket begins before the epoch. */
  lemma TakenIsAdded(g: Grid, db: Db, tier: Tier, f: Flow, lower: int)
    requires tier == Day || tier == Month
    requires Contains(g, tier) && FromEpoch(db) && Unrolled(db, tier) != {}
    requires var start := Next(g, db, tier).start;
      && 0 <= start
      && lower == if Mark(db, tier).Some? && start < Mark(db, tier).value then Mark(db, tier).value else start
    ensures Taken(g, db, tier, f) == Total(Rows(db, Source(tier)), f, lower, Next(g, db, tier).end)
  {
    var rows, through, next := Rows(db, Source(tier)), Through(db, tier), Next(g, db, tier);
    var oldest := Min(Unrolled(db, tier));
    assert Start(g, tier, oldest) <= oldest < End(g, tier, oldest);
    assert through <= lower <= oldest;
    forall b | through <= b < lower
      ensures At(rows, b, f) == Absent
    {
      assert Key(b, f).bucket !in Unrolled(db, tier);
    }
    TotalNone(rows, f, through, lower);
    TotalSplit(rows, f, through, lower, next.end);
  }

  /** A row added to a table adds to every sum that reaches it. */
  lemma {:induction false} TotalWithRow(t: Table, u: Table, f: Flow, at: int, add: Cell, lo: int, hi: int)
    requires forall b :: At(u, b, f) == if b == at then Plus(At(t, b, f), add) else At(t, b, f)
    ensures Total(u, f, lo, hi) == if lo <= at < hi then Plus(Total(t, f, lo, hi), add) else Total(t, f, lo, hi)
    decreases hi - lo
  {
    if lo < hi {
      TotalWithRow(t, u, f, at, add, lo, hi - 1);
    }
  }

  /** What one step adds to its own tier's part of a read. */
  lemma AddedTo(g: Grid, db: Db, tier: Tier, now: int, f: Flow, lo: int, to: int)
    requires tier == Day || tier == Month
    requires Contains(g, tier) && FromEpoch(db) && RollupNext(g, db, tier, now).Some?
    requires 0 <= lo && Next(g, db, tier).end <= to
    ensures var before := Total(Rows(db, tier), f, lo, to);
            var after := Total(Rows(RollupNext(g, db, tier, now).value, tier), f, lo, to);
      after == if lo <= Next(g, db, tier).start then Plus(before, Taken(g, db, tier, f)) else before
  {
    var db' := RollupNext(g, db, tier, now).value;
    var next, mark := Next(g, db, tier), Mark(db, tier);
    var oldest := Min(Unrolled(db, tier));
    assert Start(g, tier, oldest) <= oldest < End(g, tier, oldest);
    var lower := if mark.Some? && next.start < mark.value then mark.value else next.start;
    var added := Total(Rows(db, Source(tier)), f, lower, next.end);
    TotalWithRow(Rows(db, tier), Rows(db', tier), f, next.start, added, lo, to);
    if lo <= next.start {
      TakenIsAdded(g, db, tier, f, lower);
    }
  }

  /** What one step leaves of the part of a read that it takes from. */
  lemma LeftIn(g: Grid, db: Db, tier: Tier, f: Flow, to: int)
    requires tier == Day || tier == Month
    requires Contains(g, tier) && FromEpoch(db) && Unrolled(db, tier) != {}
    requires Next(g, db, tier).end <= to
    ensures Total(Rows(db, Source(tier)), f, Through(db, tier), to)
         == Plus(Taken(g, db, tier, f), Total(Rows(db, Source(tier)), f, Next(g, db, tier).end, to))
  {
    var oldest := Min(Unrolled(db, tier));
    assert Start(g, tier, oldest) <= oldest < End(g, tier, oldest);
    TotalSplit(Rows(db, Source(tier)), f, Through(db, tier), Next(g, db, tier).end, to);
  }

  /** Moving a bucket keeps the all-time month read, to the byte, if the bucket
      begins at or past the floor; otherwise the read loses exactly what was
      moved. The floor is the month watermark for a day and the epoch for a
      month, so the only losses are of days that begin below a month watermark
      set in another zone, and of months that began before 1970. */
  lemma MonthReadAcrossRoll(g: Grid, db: Db, tier: Tier, now: int, f: Flow, to: int)
    requires tier == Day || tier == Month
    requires Contains(g, tier) && FromEpoch(db) && RollupNext(g, db, tier, now).Some?
    requires Next(g, db, tier).end <= to
    ensures var after := Stitched(RollupNext(g, db, tier, now).value, Month, f, 0, to);
      Stitched(db, Month, f, 0, to)
      == if Floor(db, tier) <= Next(g, db, tier).start then after else Plus(after, Taken(g, db, tier, f))
  {
    var db' := RollupNext(g, db, tier, now).value;
    MarkRises(g, db, tier, now);
    AllTimeParts(db, f, to);
    AllTimeParts(db', f, to);
    AddedTo(g, db, tier, now, f, Floor(db, tier), to);
    LeftIn(g, db, tier, f, to);
    assert Source(Day) == Minute && Source(Month) == Day;
    var month, day, minute := Total(Rows(db, Month), f, 0, to), Total(Rows(db, Day), f, Through(db, Month), to),
                              Total(Rows(db', Minute), f, Through(db', Day), to);
    var left := Total(Rows(db', Day), f, Through(db', Month), to);
    hide *;
    MoveCells(month, day, minute, left, Taken(g, db, tier, f));
  }

  /** Moving `moved` between the parts of a read, or out of them. */
  lemma MoveCells(month: Cell, day: Cell, minute: Cell, left: Cell, moved: Cell)
    ensures Plus(Plus(month, day), Plus(moved, minute)) == Plus(Plus(month, Plus(day, moved)), minute)
    ensures Plus(Plus(month, day), Plus(moved, minute)) == Plus(Plus(Plus(month, day), minute), moved)
    ensures Plus(Plus(month, Plus(moved, left)), minute) == Plus(Plus(Plus(month, moved), left), minute)
    ensures Plus(Plus(month, Plus(moved, left)), minute) == Plus(Plus(Plus(month, left), minute), moved)
  {
    hide Plus;
    PlusAssociates(month, day, moved);
    PlusAssociates(Plus(month, day), moved, minute);
    PlusShift(Plus(month, day), moved, minute);
    PlusAssociates(month, moved, left);
    PlusShift(month, moved, left);
    PlusShift(Plus(month, left), moved, minute);
  }

  lemma AllTimeParts(db: Db, f: Flow, to: int)
    requires 0 <= Through(db, Day) && 0 <= Through(db, Month)
    ensures Stitched(db, Month, f, 0, to)
         == Plus(Plus(Total(Rows(db, Month), f, 0, to), Total(Rows(db, Day), f, Through(db, Month), to)),
                 Total(Rows(db, Minute), f, Through(db, Day), to))
  {
    StitchedPieces(db, Month, f, 0, to);
  }

  lemma MarkRises(g: Grid, db: Db, tier: Tier, now: int)
    requires tier == Day || tier == Month
    requires Contains(g, tier) && FromEpoch(db) && RollupNext(g, db, tier, now).Some?
    ensures var db' := RollupNext(g, db, tier, now).value;
      && Through(db', tier) == Next(g, db, tier).end
      && 0 <= Through(db', Day) && 0 <= Through(db', Month)
      && (forall other :: other != tier ==>
            Rows(db', other) == Rows(db, other) && Through(db', other) == Through(db, other))
  {
    RollupProgress(g, db, tier, now);
  }

  /** So the read survives a step if and only if the bucket begins at or past
      the floor, or nothing of the flow's was moved. */
  lemma SurvivesExactly(g: Grid, db: Db, tier: Tier, now: int, f: Flow, to: int)
    requires tier == Day || tier == Month
    requires Contains(g, tier) && FromEpoch(db) && RollupNext(g, db, tier, now).Some?
    requires Next(g, db, tier).end <= to
    requires Taken(g, db, tier, f) != Row(Bytes(0, 0))
    ensures Stitched(RollupNext(g, db, tier, now).value, Month, f, 0, to) == Stitched(db, Month, f, 0, to)
       <==> Floor(db, tier) <= Next(g, db, tier).start || Taken(g, db, tier, f) == Absent
  {
    MonthReadAcrossRoll(g, db, tier, now, f, to);
    hide *;
    PlusDiffers(Stitched(RollupNext(g, db, tier, now).value, Month, f, 0, to), Taken(g, db, tier, f));
  }

  lemma PlusDiffers(a: Cell, b: Cell)
    requires b != Row(Bytes(0, 0))
    ensures Plus(a, b) == a <==> b == Absent
  {
  }

  // ---- Changing the zone after a lawful history

  lemma HistoryFromEpoch(g: Grid, r: Retention, es: seq<Event>, clock: int)
    requires Lawful(g) && Timely(g, es) && By(es, clock)
    ensures FromEpoch(After(g, r, es))
  {
    var c := Reachable(g, r, es, clock);
    var db, recorded := After(g, r, es), Log(es);
    forall tier
      ensures 0 <= Through(db, tier)
    {
      assert MarkOk(g, recorded, tier, Mark(db, tier), clock);
      if Mark(db, tier).Some? {
        var k :| k in recorded && End(g, tier, k.bucket) == Mark(db, tier).value;
        assert Partitions(g, tier);
        assert Datable(g, k.bucket);
      }
    }
    forall k | k in db.minute
      ensures 0 <= k.bucket
    {
      assert At(db.minute, k.bucket, k.flow) != Absent && k == Key(k.bucket, k.flow);
      assert k in recorded;
      assert Datable(g, k.bucket);
    }
  }

  /** After any history in one zone, a step in another keeps every byte ever
      recorded in the month read, or loses exactly what it moved, by whether its
      bucket begins at or past the floor. */
  lemma AcrossZones(g: Grid, g': Grid, r: Retention, es: seq<Event>, clock: int, tier: Tier, now: int, f: Flow, to: int)
    requires Lawful(g) && Timely(g, es) && By(es, clock)
    requires (tier == Day || tier == Month) && Contains(g', tier)
    requires RollupNext(g', After(g, r, es), tier, now).Some?
    requires forall k :: k in Log(es) ==> k.bucket < to
    requires Next(g', After(g, r, es), tier).end <= to
    ensures var db := After(g, r, es);
            var after := Stitched(RollupNext(g', db, tier, now).value, Month, f, 0, to);
      Total(Log(es), f, 0, to)
      == if Floor(db, tier) <= Next(g', db, tier).start then after else Plus(after, Taken(g', db, tier, f))
  {
    HistoryFromEpoch(g, r, es, clock);
    AllTimeIsEverything(g, r, es, f, to);
    hide *;
    MonthReadAcrossRoll(g', After(g, r, es), tier, now, f, to);
  }

  // ---- A history that loses a day

  /** Noon on 7 July 2026 and ten past midnight on 1 August, both UTC. */
  const JULY_7 := 20641 * 86_400 + 43_200
  const AUGUST_1 := 20666 * 86_400 + 600

  lemma JulyInUtc()
    ensures Bounds(Fixed(0), Day, JULY_7) == Bucket(20641 * 86_400, 20642 * 86_400)
    ensures Bounds(Fixed(0), Month, JULY_7).end == 20666 * 86_400
    ensures 0 <= Bounds(Fixed(0), Month, JULY_7).start
    ensures 0 <= Bounds(Fixed(0), Month, AUGUST_1).start
  {
    July2026();
    hide DateOf, Number;
    assert LocalDay(0, JULY_7) == 20641;
    DayBounds(0, JULY_7);
    MonthLength(Date(2026, 7, 7));
    assert FirstOfMonth(Date(2026, 7, 7)) == Date(2026, 7, 1);
    MonthStartIsNear(0, JULY_7);
    MonthStartIsNear(0, AUGUST_1);
  }

  lemma MonthStartIsNear(offset: int, epoch: int)
    ensures (LocalDay(offset, epoch) - 30) * 86_400 - offset <= MonthBucket(offset, epoch).start
  {
    var d := DateOf(LocalDay(offset, epoch));
    hide DateOf, Number, MonthStart, FirstOfMonth, NextMonth;
    DayWithinMonth(d);
    assert d.day <= 31;
  }

  function July(f: Flow, x: Bytes): seq<Event> {
    [Recorded(JULY_7 + 60, Key(JULY_7, f), x)]
  }

  /** July in UTC, then August on Indian time, with one run before the change. */
  function TwoZones(f: Flow, x: Bytes, y: Bytes, steps: nat): (es: seq<Event>)
    ensures |es| == 3 && es[..1] == July(f, x) && es[..2] == July(f, x) + [Ran(20666 * 86_400 + 300, steps)]
  {
    [July(f, x)[0], Ran(20666 * 86_400 + 300, steps), Recorded(AUGUST_1 + 60, Key(AUGUST_1, f), y)]
  }

  lemma TwoZonesLog(f: Flow, x: Bytes, y: Bytes, steps: nat)
    ensures Log(TwoZones(f, x, y, steps)[..1]) == map[Key(JULY_7, f) := x]
    ensures Log(TwoZones(f, x, y, steps)[..2]) == map[Key(JULY_7, f) := x]
    ensures Log(TwoZones(f, x, y, steps)) == map[Key(JULY_7, f) := x, Key(AUGUST_1, f) := y]
  {
    var es := TwoZones(f, x, y, steps);
    assert es[..1][..0] == [] && es[..2][..1] == es[..1] && es[..3] == es;
    assert Log(es[..1][..0]) == map[];
  }

  lemma TwoZonesTimely(f: Flow, x: Bytes, y: Bytes, steps: nat)
    ensures Timely(GridOf(Fixed(0)), TwoZones(f, x, y, steps))
  {
    JulyInUtc();
    hide Bounds;
  }

  lemma RipeOne(g: Grid, key: Key, bytes: Bytes, tier: Tier, now: int)
    requires Ripe(g, tier, key.bucket, now)
    ensures RipeMark(g, map[key := bytes], tier, now) == Some(End(g, tier, key.bucket))
  {
    var t: Table := map[key := bytes];
    var ends := set k | k in t && Ripe(g, tier, k.bucket, now) :: End(g, tier, k.bucket);
    assert key in t && End(g, tier, key.bucket) in ends;
    assert forall e :: e in ends ==> e == End(g, tier, key.bucket);
  }

  lemma OneMinuteForm(g: Grid, r: Retention, key: Key, bytes: Bytes, now: int)
    requires Ripe(g, Day, key.bucket, now) && Ripe(g, Month, key.bucket, now)
    ensures var form := ClosedForm.ClosedForm(g, r, map[key := bytes], now);
      && form.dayMark == Some(End(g, Day, key.bucket)) && form.monthMark == Some(End(g, Month, key.bucket))
      && (forall k :: k in form.minute ==> k == key)
  {
    RipeOne(g, key, bytes, Day, now);
    RipeOne(g, key, bytes, Month, now);
    hide Ripe, RipeMark, RipeRows;
  }

  lemma JulyIsRipe(g: Grid, now: int)
    requires g == GridOf(Fixed(0)) && now == 20666 * 86_400 + 300
    ensures Ripe(g, Day, JULY_7, now) && Ripe(g, Month, JULY_7, now)
    ensures End(g, Day, JULY_7) == 20642 * 86_400 && End(g, Month, JULY_7) == 20666 * 86_400
  {
    JulyInUtc();
    hide Bounds;
  }

  lemma RunCompletes(g: Grid, r: Retention, es: seq<Event>, now: int) returns (steps: nat)
    requires Lawful(g)
    ensures Completes(g, r, es, now, steps)
  {
    forall tier
      ensures Ends(g, tier)
    {
      assert Partitions(g, tier);
    }
    steps := RunFinishes(g, r, now, After(g, r, es), FIRST);
  }

  /** The state once July has been rolled up. */
  lemma AfterJuly(g: Grid, r: Retention, f: Flow, x: Bytes, y: Bytes) returns (steps: nat)
    requires g == GridOf(Fixed(0)) && Lawful(g)
    ensures var db := After(g, r, TwoZones(f, x, y, steps)[..2]);
      && db.dayMark == Some(20642 * 86_400) && db.monthMark == Some(20666 * 86_400)
      && (forall k :: k in db.minute ==> k == Key(JULY_7, f))
  {
    hide *;
    var now := 20666 * 86_400 + 300;
    steps := RunCompletes(g, r, July(f, x), now);
    JulyAlone(g, f, x, now);
    JulyIsRipe(g, now);
    OneMinuteForm(g, r, Key(JULY_7, f), x, now);
    HistoryIndependence(g, r, July(f, x), now, steps);
  }

  lemma JulyAlone(g: Grid, f: Flow, x: Bytes, now: int)
    requires g == GridOf(Fixed(0)) && now == 20666 * 86_400 + 300
    ensures Timely(g, July(f, x)) && By(July(f, x), now) && Log(July(f, x)) == map[Key(JULY_7, f) := x]
  {
    TwoZonesLog(f, x, x, 0);
    hide *;
    JulyTimely(g, f, x, now);
  }

  lemma JulyTimely(g: Grid, f: Flow, x: Bytes, now: int)
    requires g == GridOf(Fixed(0)) && now == 20666 * 86_400 + 300
    ensures Timely(g, July(f, x)) && By(July(f, x), now)
  {
    TwoZonesTimely(f, x, x, 0);
    hide Bounds, Datable, InTime;
    var es := TwoZones(f, x, x, 0);
    assert July(f, x)[0] == es[0];
  }

  lemma AugustInIndia(g: Grid)
    requires g == GridOf(Fixed(19_800))
    ensures g(Day, AUGUST_1) == Bucket(20666 * 86_400 - 19_800, 20667 * 86_400 - 19_800)
    ensures Contains(g, Day)
  {
    FixedPartitions(19_800, Day);
    hide Partitions, Bounds;
    FixedDay(19_800, AUGUST_1, 20666);
  }

  lemma FixedDay(offset: int, epoch: int, n: int)
    requires n == (epoch + offset) / 86_400
    ensures Bounds(Fixed(offset), Day, epoch) == Bucket(n * 86_400 - offset, (n + 1) * 86_400 - offset)
  {
    DayBounds(offset, epoch);
  }

  /** What rolling August's first day on Indian time takes. */
  lemma AugustTaken(g: Grid, db: Db, rest: Table, f: Flow, y: Bytes)
    requires g == GridOf(Fixed(19_800))
    requires db.dayMark == Some(20642 * 86_400) && db.minute == Accumulate(rest, Key(AUGUST_1, f), y)
    requires forall k :: k in rest ==> k == Key(JULY_7, f)
    ensures RollupNext(g, db, Day, 20668 * 86_400).Some?
    ensures Next(g, db, Day) == Bucket(20666 * 86_400 - 19_800, 20667 * 86_400 - 19_800)
    ensures Taken(g, db, Day, f) == Row(y)
  {
    var key := Key(AUGUST_1, f);
    OnlyAugust(db, rest, key, y);
    AugustInIndia(g);
    RollupStops(g, db, Day, 20668 * 86_400);
    hide RollupNext;
    var lo, hi := 20642 * 86_400, 20667 * 86_400 - 19_800;
    hide Total, Unrolled, Accumulate, Contains;
    TotalAccumulate(rest, key, y, f, lo, hi);
    TotalNone(rest, f, lo, hi);
  }

  lemma OnlyAugust(db: Db, rest: Table, key: Key, y: Bytes)
    requires db.dayMark == Some(20642 * 86_400) && db.minute == Accumulate(rest, key, y)
    requires key.bucket == AUGUST_1 && forall k :: k in rest ==> k.bucket == JULY_7
    ensures Unrolled(db, Day) == {AUGUST_1}
  {
    assert key in db.minute && db.minute.Keys == rest.Keys + {key};
    assert key.bucket in Unrolled(db, Day);
    assert forall b :: b in Unrolled(db, Day) ==> b == AUGUST_1;
  }

  lemma TwoZonesTotal(f: Flow, x: Bytes, y: Bytes, steps: nat)
    ensures Total(Log(TwoZones(f, x, y, steps)), f, 0, 20667 * 86_400) == Row(AddBytes(x, y))
  {
    TwoZonesLog(f, x, y, steps);
    var none: Table := map[];
    var to := 20667 * 86_400;
    TotalNone(none, f, 0, to);
    TotalAccumulate(none, Key(JULY_7, f), x, f, 0, to);
    TotalAccumulate(map[Key(JULY_7, f) := x], Key(AUGUST_1, f), y, f, 0, to);
    hide Total;
    assert map[Key(JULY_7, f) := x] == Accumulate(none, Key(JULY_7, f), x);
    assert map[Key(JULY_7, f) := x, Key(AUGUST_1, f) := y] == Accumulate(map[Key(JULY_7, f) := x], Key(AUGUST_1, f), y);
  }

  /** Changing the zone can lose recorded bytes: the first August day on Indian
      time begins in UTC's July, below the month watermark, so no month read will
      see it again once it is rolled up. */
  lemma ZoneChangeLosesADay(r: Retention, f: Flow, x: Bytes, y: Bytes) returns (steps: nat)
    requires x != Bytes(0, 0)
    ensures var es := TwoZones(f, x, y, steps);
            var db := After(GridOf(Fixed(0)), r, es);
            var next := RollupNext(GridOf(Fixed(19_800)), db, Day, 20668 * 86_400);
      && Timely(GridOf(Fixed(0)), es)
      && Stitched(db, Month, f, 0, 20667 * 86_400) == Row(AddBytes(x, y))
      && next.Some?
      && Stitched(next.value, Month, f, 0, 20667 * 86_400) == Row(x)
  {
    var g, g', to := GridOf(Fixed(0)), GridOf(Fixed(19_800)), 20667 * 86_400;
    FixedIsLawful(0);
    steps := AfterJuly(g, r, f, x, y);
    var es := TwoZones(f, x, y, steps);
    TwoZonesTimely(f, x, y, steps);
    TwoZonesLog(f, x, y, steps);
    TwoZonesTotal(f, x, y, steps);
    AugustInIndia(g');
    var july, db := After(g, r, es[..2]), After(g, r, es);
    assert es[..|es| - 1] == es[..2];
    assert db == july.(minute := Accumulate(july.minute, Key(AUGUST_1, f), y));
    assert By(es, AUGUST_1 + 60);
    assert forall k :: k in Log(es) ==> k.bucket < to;
    hide *;
    AugustTaken(g', db, july.minute, f, y);
    AllTimeIsEverything(g, r, es, f, to);
    LosesTaken(g, g', r, es, f, x, y);
  }

  lemma LosesTaken(g: Grid, g': Grid, r: Retention, es: seq<Event>, f: Flow, x: Bytes, y: Bytes)
    requires Lawful(g) && Timely(g, es) && By(es, AUGUST_1 + 60) && Contains(g', Day) && x != Bytes(0, 0)
    requires RollupNext(g', After(g, r, es), Day, 20668 * 86_400).Some?
    requires Next(g', After(g, r, es), Day) == Bucket(20666 * 86_400 - 19_800, 20667 * 86_400 - 19_800)
    requires Taken(g', After(g, r, es), Day, f) == Row(y)
    requires After(g, r, es).monthMark == Some(20666 * 86_400)
    requires forall k :: k in Log(es) ==> k.bucket < 20667 * 86_400
    requires Total(Log(es), f, 0, 20667 * 86_400) == Row(AddBytes(x, y))
    ensures Stitched(RollupNext(g', After(g, r, es), Day, 20668 * 86_400).value, Month, f, 0, 20667 * 86_400) == Row(x)
  {
    hide Lawful, Timely, By, Contains, RollupNext, Next, Taken, Stitched, Total, After, Log;
    AcrossZones(g, g', r, es, AUGUST_1 + 60, Day, 20668 * 86_400, f, 20667 * 86_400);
  }
}
