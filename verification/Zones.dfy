/** Tiers, and the buckets each tier divides time into under a zone. */
module Zones {
  import opened Calendar

  datatype Tier = Minute | Hour | Day | Month

  /** Instants from `start` on and before `end`. */
  datatype Bucket = Bucket(start: int, end: int)

  /** What decides where days and months begin. A fixed offset is a number; the
      machine's own zone is known here only as a function from tier and instant
      to bucket, since its rules live in a database. */
  datatype Zone = Local(calendar: (Tier, int) -> Bucket) | Fixed(offset: int)

  function MinuteBucket(epoch: int): Bucket {
    var start := epoch - epoch % 60;
    Bucket(start, start + 60)
  }

  function HourBucket(epoch: int): Bucket {
    var start := epoch - epoch % 3600;
    Bucket(start, start + 3600)
  }

  function LocalMidnight(offset: int, d: Date): int
    requires d.Valid()
  {
    Number(d) * 86_400 - offset
  }

  function LocalDay(offset: int, epoch: int): int {
    (epoch + offset) / 86_400
  }

  function DayBucket(offset: int, epoch: int): Bucket {
    var date := DateOf(LocalDay(offset, epoch));
    Bucket(LocalMidnight(offset, date), LocalMidnight(offset, Succ(date)))
  }

  function MonthBucket(offset: int, epoch: int): Bucket {
    var first := FirstOfMonth(DateOf(LocalDay(offset, epoch)));
    Bucket(LocalMidnight(offset, first), LocalMidnight(offset, NextMonth(first)))
  }

  function CalendarBounds(offset: int, tier: Tier, epoch: int): Bucket {
    if tier == Month then MonthBucket(offset, epoch) else DayBucket(offset, epoch)
  }

  /** The bucket an instant falls in. */
  function Bounds(z: Zone, tier: Tier, epoch: int): Bucket {
    match tier
    case Minute => MinuteBucket(epoch)
    case Hour => HourBucket(epoch)
    case _ =>
      match z
      case Local(calendar) => calendar(tier, epoch)
      case Fixed(offset) => CalendarBounds(offset, tier, epoch)
  }

  /** A division of time into buckets, tier by tier. Everything below reads a
      zone through its grid only. */
  type Grid = (Tier, int) -> Bucket

  function GridOf(z: Zone): (g: Grid)
    ensures forall tier, epoch :: g(tier, epoch) == Bounds(z, tier, epoch)
  {
    (tier, epoch) => Bounds(z, tier, epoch)
  }

  function Start(g: Grid, tier: Tier, epoch: int): int {
    g(tier, epoch).start
  }

  function End(g: Grid, tier: Tier, epoch: int): int {
    g(tier, epoch).end
  }

  /** An instant at which a `tier` bucket begins. */
  predicate Edge(g: Grid, tier: Tier, epoch: int) {
    Start(g, tier, epoch) == epoch
  }

  ghost predicate Contains(g: Grid, tier: Tier) {
    forall t :: Start(g, tier, t) <= t < End(g, tier, t)
  }

  /** Every bucket ends after the instants it is the bucket of. */
  ghost predicate Ends(g: Grid, tier: Tier) {
    forall t :: t < End(g, tier, t)
  }

  ghost predicate Partitions(g: Grid, tier: Tier) {
    && Contains(g, tier)
    && (forall t, u :: Start(g, tier, t) <= u < End(g, tier, t) ==> g(tier, u) == g(tier, t))
  }

  ghost predicate WholeMinutes(g: Grid, tier: Tier) {
    forall t :: Start(g, tier, t) % 60 == 0 && End(g, tier, t) % 60 == 0
  }

  ghost predicate DaysNestInMonths(g: Grid) {
    forall t :: Start(g, Month, t) <= Start(g, Day, t) && End(g, Day, t) <= End(g, Month, t)
  }

  /** What rolling up relies on: each tier divides time into whole-minute
      buckets, no day straddles two months, and hours start at the epoch. */
  ghost predicate Lawful(g: Grid) {
    && (forall tier :: Partitions(g, tier) && WholeMinutes(g, tier))
    && DaysNestInMonths(g)
    && Edge(g, Hour, 0)
  }

  lemma DayBounds(offset: int, epoch: int)
    ensures var n := LocalDay(offset, epoch);
      DayBucket(offset, epoch) == Bucket(n * 86_400 - offset, (n + 1) * 86_400 - offset)
  {
    hide DateOf, Number;
    SuccIsNextDay(DateOf(LocalDay(offset, epoch)));
  }

  lemma DayHolds(offset: int, epoch: int)
    ensures DayBucket(offset, epoch).start <= epoch < DayBucket(offset, epoch).end
  {
    hide DayBucket;
    DayBounds(offset, epoch);
  }

  lemma DayConstant(offset: int, t: int, u: int)
    requires DayBucket(offset, t).start <= u < DayBucket(offset, t).end
    ensures DayBucket(offset, u) == DayBucket(offset, t)
  {
    hide DayBucket;
    DayBounds(offset, t);
    DayBounds(offset, u);
  }

  lemma MonthHoldsDay(offset: int, epoch: int)
    ensures MonthBucket(offset, epoch).start <= DayBucket(offset, epoch).start
    ensures DayBucket(offset, epoch).end <= MonthBucket(offset, epoch).end
  {
    hide DayBucket, DateOf, Number, MonthStart, FirstOfMonth, NextMonth;
    DayBounds(offset, epoch);
    DayWithinMonth(DateOf(LocalDay(offset, epoch)));
  }

  lemma MonthConstant(offset: int, t: int, u: int)
    requires MonthBucket(offset, t).start <= u < MonthBucket(offset, t).end
    ensures MonthBucket(offset, u) == MonthBucket(offset, t)
  {
    hide DateOf, Number, MonthStart;
    SameMonth(LocalDay(offset, t), LocalDay(offset, u));
  }

  lemma WholeMinuteBuckets(offset: int, epoch: int)
    requires offset % 60 == 0
    ensures DayBucket(offset, epoch).start % 60 == 0
    ensures DayBucket(offset, epoch).end % 60 == 0
    ensures MonthBucket(offset, epoch).start % 60 == 0
    ensures MonthBucket(offset, epoch).end % 60 == 0
  {
    hide DateOf, Number;
  }

  lemma MinuteLaw(t: int, u: int)
    ensures MinuteBucket(t).start <= t < MinuteBucket(t).end
    ensures MinuteBucket(t).start % 60 == 0 && MinuteBucket(t).end % 60 == 0
    ensures MinuteBucket(t).start <= u < MinuteBucket(t).end ==> MinuteBucket(u) == MinuteBucket(t)
  {
  }

  lemma HourLaw(t: int, u: int)
    ensures HourBucket(t).start <= t < HourBucket(t).end
    ensures HourBucket(t).start % 60 == 0 && HourBucket(t).end % 60 == 0
    ensures HourBucket(t).start <= u < HourBucket(t).end ==> HourBucket(u) == HourBucket(t)
  {
    assert t - t % 3600 == (t / 3600 * 60) * 60;
  }

  lemma FixedLengthPartitions(z: Zone, tier: Tier)
    requires tier.Minute? || tier.Hour?
    ensures Partitions(GridOf(z), tier) && WholeMinutes(GridOf(z), tier)
  {
    hide MinuteBucket, HourBucket;
    var g := GridOf(z);
    forall t, u
      ensures Start(g, tier, t) <= t < End(g, tier, t)
      ensures Start(g, tier, t) % 60 == 0 && End(g, tier, t) % 60 == 0
      ensures Start(g, tier, t) <= u < End(g, tier, t) ==> g(tier, u) == g(tier, t)
    {
      MinuteLaw(t, u);
      HourLaw(t, u);
    }
  }

  lemma DayPartitions(offset: int)
    ensures Partitions(GridOf(Fixed(offset)), Day)
  {
    hide DayBucket, MonthBucket;
    forall t
      ensures Start(GridOf(Fixed(offset)), Day, t) <= t < End(GridOf(Fixed(offset)), Day, t)
    {
      DayHolds(offset, t);
    }
    forall t, u | Start(GridOf(Fixed(offset)), Day, t) <= u < End(GridOf(Fixed(offset)), Day, t)
      ensures GridOf(Fixed(offset))(Day, u) == GridOf(Fixed(offset))(Day, t)
    {
      DayConstant(offset, t, u);
    }
  }

  lemma MonthPartitions(offset: int)
    ensures Partitions(GridOf(Fixed(offset)), Month)
  {
    hide DayBucket, MonthBucket;
    forall t
      ensures Start(GridOf(Fixed(offset)), Month, t) <= t < End(GridOf(Fixed(offset)), Month, t)
    {
      DayHolds(offset, t);
      MonthHoldsDay(offset, t);
    }
    forall t, u | Start(GridOf(Fixed(offset)), Month, t) <= u < End(GridOf(Fixed(offset)), Month, t)
      ensures GridOf(Fixed(offset))(Month, u) == GridOf(Fixed(offset))(Month, t)
    {
      MonthConstant(offset, t, u);
    }
  }

  /** The partition laws hold at every fixed offset, for every instant: leap
      years and the December rollover included. */
  lemma FixedPartitions(offset: int, tier: Tier)
    ensures Partitions(GridOf(Fixed(offset)), tier)
  {
    match tier
    case Day => DayPartitions(offset);
    case Month => MonthPartitions(offset);
    case _ => FixedLengthPartitions(Fixed(offset), tier);
  }

  lemma FixedNests(offset: int)
    ensures DaysNestInMonths(GridOf(Fixed(offset)))
  {
    hide DayBucket, MonthBucket;
    forall t
      ensures Start(GridOf(Fixed(offset)), Month, t) <= Start(GridOf(Fixed(offset)), Day, t)
      ensures End(GridOf(Fixed(offset)), Day, t) <= End(GridOf(Fixed(offset)), Month, t)
    {
      MonthHoldsDay(offset, t);
    }
  }

  lemma FixedWholeMinutes(offset: int, tier: Tier)
    requires offset % 60 == 0
    ensures WholeMinutes(GridOf(Fixed(offset)), tier)
  {
    hide DayBucket, MonthBucket;
    if tier.Day? || tier.Month? {
      forall t
        ensures Start(GridOf(Fixed(offset)), tier, t) % 60 == 0
        ensures End(GridOf(Fixed(offset)), tier, t) % 60 == 0
      {
        WholeMinuteBuckets(offset, t);
      }
    } else {
      FixedLengthPartitions(Fixed(offset), tier);
    }
  }

  /** A fixed offset of whole minutes satisfies every law. */
  lemma FixedIsLawful(offset: int)
    requires offset % 60 == 0
    ensures Lawful(GridOf(Fixed(offset)))
  {
    hide Partitions, WholeMinutes, DaysNestInMonths;
    forall tier
      ensures Partitions(GridOf(Fixed(offset)), tier) && WholeMinutes(GridOf(Fixed(offset)), tier)
    {
      FixedPartitions(offset, tier);
      FixedWholeMinutes(offset, tier);
    }
    FixedNests(offset);
  }

  /** An offset that is not a whole number of minutes puts midnight inside a
      minute, so whole minutes are exactly what a fixed zone needs. */
  lemma LawfulOffsets(offset: int)
    ensures Lawful(GridOf(Fixed(offset))) <==> offset % 60 == 0
  {
    hide DayBucket, MonthBucket, Partitions, DaysNestInMonths, Lawful;
    if offset % 60 == 0 {
      FixedIsLawful(offset);
    } else {
      MidnightInsideMinute(offset);
    }
  }

  lemma DaysKeepMinutes(n: int, offset: int)
    ensures (n * 86_400 - offset) % 60 == (-offset) % 60
  {
    assert n * 86_400 - offset == (n * 1440) * 60 - offset;
  }

  lemma MidnightInsideMinute(offset: int)
    requires offset % 60 != 0
    ensures !Lawful(GridOf(Fixed(offset)))
  {
    hide DayBucket, MonthBucket, Partitions, DaysNestInMonths, LocalDay;
    DayBounds(offset, 0);
    DaysKeepMinutes(LocalDay(offset, 0), offset);
    assert Start(GridOf(Fixed(offset)), Day, 0) % 60 != 0;
    assert !WholeMinutes(GridOf(Fixed(offset)), Day);
  }

  /** Minutes and hours, in every zone: sixty seconds from a multiple of sixty, and
      three thousand six hundred from a multiple of that. */
  lemma ClockBuckets(z: Zone, t: int)
    ensures var minute, hour := Bounds(z, Minute, t), Bounds(z, Hour, t);
      && minute.start <= t < minute.end == minute.start + 60 && minute.start % 60 == 0
      && hour.start <= t < hour.end == hour.start + 3600 && hour.start % 3600 == 0
  {
    hide CalendarBounds;
    WholeMultiples(t);
  }

  lemma WholeMultiples(t: int)
    ensures (t - t % 60) % 60 == 0 && (t - t % 3600) % 3600 == 0
  {
    assert t - t % 60 == 60 * (t / 60);
    assert t - t % 3600 == 3600 * (t / 3600);
  }

  /** A day at a fixed offset is 86,400 seconds from its local midnight. */
  lemma DayLength(offset: int, t: int)
    ensures var day := Bounds(Fixed(offset), Day, t);
      && day.start <= t < day.end == day.start + 86_400 && (day.start + offset) % 86_400 == 0
  {
    DayBounds(offset, t);
    hide DayBucket;
    assert Bounds(Fixed(offset), Day, t).start + offset == 86_400 * LocalDay(offset, t);
  }

  /** Two instants share a day bucket exactly when they fall on the same local
      date, and a month bucket exactly when those dates share year and month. */
  lemma BucketsFollowTheCalendar(offset: int, t: int, u: int)
    ensures var z, d, e := Fixed(offset), DateOf(LocalDay(offset, t)), DateOf(LocalDay(offset, u));
      && (Bounds(z, Day, t).start <= u < Bounds(z, Day, t).end <==> d == e)
      && (Bounds(z, Month, t).start <= u < Bounds(z, Month, t).end <==> d.year == e.year && d.month == e.month)
  {
    DayIsDate(offset, t, u);
    MonthIsMonth(offset, t, u);
    hide DayBucket, MonthBucket, DateOf, LocalDay;
  }

  lemma DayIsDate(offset: int, t: int, u: int)
    ensures DayBucket(offset, t).start <= u < DayBucket(offset, t).end
       <==> DateOf(LocalDay(offset, t)) == DateOf(LocalDay(offset, u))
  {
    hide DayBucket, DateOf, Number;
    DayBounds(offset, t);
    var n, m := LocalDay(offset, t), LocalDay(offset, u);
    assert Number(DateOf(n)) == n && Number(DateOf(m)) == m;
    assert n * 86_400 - offset <= u < (n + 1) * 86_400 - offset <==> m == n;
  }

  lemma MonthIsMonth(offset: int, t: int, u: int)
    ensures var d, e := DateOf(LocalDay(offset, t)), DateOf(LocalDay(offset, u));
      MonthBucket(offset, t).start <= u < MonthBucket(offset, t).end <==> d.year == e.year && d.month == e.month
  {
    var n, m := LocalDay(offset, t), LocalDay(offset, u);
    var d, e := DateOf(n), DateOf(m);
    assert MonthBucket(offset, t).start <= u < MonthBucket(offset, t).end
      <==> Number(FirstOfMonth(d)) <= m < Number(NextMonth(FirstOfMonth(d)));
    hide DateOf, Number, MonthStart;
    DayWithinMonth(d);
    DayWithinMonth(e);
    if Number(FirstOfMonth(d)) <= m < Number(NextMonth(FirstOfMonth(d))) {
      SameMonth(n, m);
    }
  }

  /** Buckets abut: the instant one ends is the instant the next begins. */
  lemma EndIsEdge(g: Grid, tier: Tier, t: int)
    requires Partitions(g, tier)
    ensures Edge(g, tier, End(g, tier, t))
  {
    var e := End(g, tier, t);
    var s := Start(g, tier, e);
    assert s <= e < End(g, tier, e);
    // Were s below e, e - 1 would lie in both buckets, making them one.
    assert Start(g, tier, e - 1) <= e - 1;
  }

  lemma StartIsEdge(g: Grid, tier: Tier, t: int)
    requires Partitions(g, tier)
    ensures Edge(g, tier, Start(g, tier, t))
    ensures g(tier, Start(g, tier, t)) == g(tier, t)
  {
    assert Start(g, tier, t) <= Start(g, tier, t) < End(g, tier, t);
  }

  /** A bucket lies wholly before or wholly after any edge. */
  lemma EdgeSeparates(g: Grid, tier: Tier, edge: int, t: int)
    requires Partitions(g, tier) && Edge(g, tier, edge)
    ensures t < edge ==> End(g, tier, t) <= edge
    ensures edge <= t ==> edge <= Start(g, tier, t)
  {
    assert Start(g, tier, edge) == edge;
    assert Start(g, tier, t) <= edge < End(g, tier, t) ==> g(tier, edge) == g(tier, t);
  }

  lemma BoundsMonotone(g: Grid, tier: Tier, t: int, u: int)
    requires Partitions(g, tier) && t <= u
    ensures Start(g, tier, t) <= Start(g, tier, u) && End(g, tier, t) <= End(g, tier, u)
  {
    StartIsEdge(g, tier, u);
    EdgeSeparates(g, tier, Start(g, tier, u), t);
    EndIsEdge(g, tier, t);
    EdgeSeparates(g, tier, End(g, tier, t), u);
  }

  lemma MonthEdgeIsDayEdge(g: Grid, t: int)
    requires Lawful(g) && Edge(g, Month, t)
    ensures Edge(g, Day, t)
  {
    assert Partitions(g, Day);
    assert Start(g, Month, t) <= Start(g, Day, t) <= t;
  }

  lemma July2026()
    ensures Number(Date(2026, 7, 1)) == 20635
    ensures DateOf(20641) == Date(2026, 7, 7)
  {
    assert DaysBeforeMonth(2026, 3) == 59;
    assert DaysBeforeMonth(2026, 5) == 120;
    assert DaysBeforeMonth(2026, 7) == 181;
    assert Number(Date(2026, 7, 7)) == 20641;
    hide DateOf;
    DateRoundTrip(Date(2026, 7, 7));
  }

  /** A fixed point: at an offset of five and a half hours, 8 pm UTC on 6 July
      2026 lies in the local 7th, a day that begins at 18:30 UTC on the 6th, and
      in a month that begins at 18:30 UTC on 30 June and ends on 31 July. */
  lemma IndiaExample()
    ensures var july6 := 20640 * 86_400;
      var t := july6 + 20 * 3600;
      var z := Fixed(330 * 60);
      && Bounds(z, Day, t) == Bucket(july6 + 66_600, july6 + 153_000)
      && Bounds(z, Month, t) == Bucket(july6 - 6 * 86_400 + 66_600, july6 + 25 * 86_400 + 66_600)
  {
    var t := 20640 * 86_400 + 20 * 3600;
    July2026();
    hide DateOf, Number;
    assert LocalDay(330 * 60, t) == 20641;
    DayBounds(330 * 60, t);
    MonthLength(Date(2026, 7, 7));
    assert FirstOfMonth(Date(2026, 7, 7)) == Date(2026, 7, 1);
  }
}
