/** Whole histories: any interleaving of recorded minutes and rollup runs, each
    run whole or cut short anywhere, and the state they must end in. */
module History {
  import opened Counters
  import opened Zones
  import opened Rollup
  import opened Invariant
  import opened Steps

  /** A minute written at `time`, or a run begun at `time` that got through
      `steps` steps before it finished or failed. */
  datatype Event =
    | Recorded(time: int, key: Key, bytes: Bytes)
    | Ran(time: int, steps: nat)

  function Apply(g: Grid, r: Retention, db: Db, e: Event): Db {
    match e
    case Recorded(_, key, bytes) => db.(minute := Accumulate(db.minute, key, bytes))
    case Ran(time, steps) => Run(g, r, time, db, FIRST, steps).0
  }

  /** The database after a history. */
  function After(g: Grid, r: Retention, es: seq<Event>): Db {
    if es == [] then EMPTY else Apply(g, r, After(g, r, es[..|es| - 1]), es[|es| - 1])
  }

  /** Every minute a history recorded, kept for ever. */
  function Log(es: seq<Event>): Table {
    if es == [] then map[]
    else
      var log := Log(es[..|es| - 1]);
      match es[|es| - 1]
      case Recorded(_, key, bytes) => Accumulate(log, key, bytes)
      case Ran(_, _) => log
  }

  /** The clock does not run backwards, and each minute is written less than
      the grace period after it closed. */
  predicate Timely(g: Grid, es: seq<Event>) {
    && (forall i, j :: 0 <= i < j < |es| ==> es[i].time <= es[j].time)
    && (forall i :: 0 <= i < |es| && es[i].Recorded? ==> InTime(g, es[i].time, es[i].key.bucket))
  }

  predicate InTime(g: Grid, time: int, bucket: int) {
    Datable(g, bucket) && time < bucket + 60 + GRACE
  }

  predicate By(es: seq<Event>, clock: int) {
    forall i :: 0 <= i < |es| ==> es[i].time <= clock
  }

  // ---- Recording a minute

  lemma WholeMinuteGap(mark: int, clock: int, bucket: int)
    requires mark % 60 == 0 && bucket % 60 == 0 && mark + GRACE <= clock < bucket + 60 + GRACE
    ensures mark <= bucket
  {
  }

  /** A minute written in time is at or past every watermark: with watermarks on
      whole minutes and at least the grace period old, the grace is sufficient. */
  lemma GraceSuffices(g: Grid, recorded: Table, db: Db, clock: int, time: int, bucket: int, tier: Tier)
    requires Lawful(g) && MarkOk(g, recorded, tier, Mark(db, tier), clock)
    requires clock <= time && InTime(g, time, bucket)
    ensures Through(db, tier) <= bucket
  {
    assert WholeMinutes(g, tier);
    hide Lawful, Partitions;
    if Mark(db, tier).Some? {
      var k :| k in recorded && End(g, tier, k.bucket) == Mark(db, tier).value;
      WholeMinuteGap(End(g, tier, k.bucket), time, bucket);
    }
  }

  /** A minute past the watermark leaves what has been folded as it was. */
  lemma RecordFolded(g: Grid, recorded: Table, t: Table, tier: Tier, cut: int, through: int, key: Key, bytes: Bytes)
    requires Partitions(g, tier) && Folded(g, recorded, t, tier, cut, through)
    requires through <= key.bucket && 0 <= cut && (through == 0 || Edge(g, tier, through))
    ensures Folded(g, Accumulate(recorded, key, bytes), t, tier, cut, through)
  {
    forall b, f
      ensures At(t, b, f) == if cut <= b < through && Edge(g, tier, b)
                             then Total(Accumulate(recorded, key, bytes), f, b, End(g, tier, b)) else Absent
    {
      if cut <= b < through && Edge(g, tier, b) {
        EdgeSeparates(g, tier, through, b);
        TotalAccumulate(recorded, key, bytes, f, b, End(g, tier, b));
      }
    }
  }

  lemma RecordTier(g: Grid, recorded: Table, db: Db, t: Table, tier: Tier, cut: int, clock: int, time: int, key: Key,
                   bytes: Bytes)
    requires Lawful(g) && MarkOk(g, recorded, tier, Mark(db, tier), clock)
    requires Folded(g, recorded, t, tier, cut, Through(db, tier)) && 0 <= cut
    requires clock <= time && InTime(g, time, key.bucket)
    ensures Folded(g, Accumulate(recorded, key, bytes), t, tier, cut, Through(db, tier))
    ensures MarkOk(g, Accumulate(recorded, key, bytes), tier, Mark(db, tier), time)
  {
    assert Partitions(g, tier);
    GraceSuffices(g, recorded, db, clock, time, key.bucket, tier);
    if Mark(db, tier).Some? {
      MarkIsEdge(g, recorded, tier, Mark(db, tier), clock);
      var k :| k in recorded && End(g, tier, k.bucket) == Mark(db, tier).value;
      assert k in Accumulate(recorded, key, bytes);
    }
    RecordFolded(g, recorded, t, tier, cut, Through(db, tier), key, bytes);
  }

  lemma RecordKeeps(g: Grid, r: Retention, db: Db, recorded: Table, clock: int, c: Cuts, time: int, key: Key,
                    bytes: Bytes)
    requires Lawful(g) && Inv(g, r, db, recorded, clock, c)
    requires clock <= time && InTime(g, time, key.bucket)
    ensures Inv(g, r, db.(minute := Accumulate(db.minute, key, bytes)), Accumulate(recorded, key, bytes), time, c)
  {
    assert 0 <= c.hour && 0 <= c.day;
    hide Folded, MarkOk, Lawful, Accumulate, Kept, NoGap, RecordedOk, CutsOk, InTime, Through, Mark;
    assert forall t :: MarkOk(g, recorded, t, Mark(db, t), clock);
    RecordTier(g, recorded, db, db.hour, Hour, c.hour, clock, time, key, bytes);
    RecordTier(g, recorded, db, db.day, Day, c.day, clock, time, key, bytes);
    RecordTier(g, recorded, db, db.month, Month, 0, clock, time, key, bytes);
    GraceSuffices(g, recorded, db, clock, time, key.bucket, Hour);
    GraceSuffices(g, recorded, db, clock, time, key.bucket, Day);
    GraceSuffices(g, recorded, db, clock, time, key.bucket, Month);
    RecordMinutes(g, r, db, recorded, clock, c, time, key, bytes);
    SameMarksRead(db, db.(minute := Accumulate(db.minute, key, bytes)));
    NoMark(g, Accumulate(recorded, key, bytes), db, time);
  }

  lemma SameMarksRead(db: Db, db': Db)
    requires SameMarks(db, db')
    ensures forall t :: Mark(db', t) == Mark(db, t) && Through(db', t) == Through(db, t)
  {
  }

  /** The part of the invariant that is about the minutes themselves. */
  lemma RecordMinutes(g: Grid, r: Retention, db: Db, recorded: Table, clock: int, c: Cuts, time: int, key: Key,
                      bytes: Bytes)
    requires RecordedOk(g, recorded) && Kept(db.minute, recorded, c.minute)
    requires NoGap(recorded, db) && CutsOk(r, db, clock, c)
    requires clock <= time && InTime(g, time, key.bucket)
    requires Through(db, Hour) <= key.bucket && Through(db, Day) <= key.bucket && Through(db, Month) <= key.bucket
    ensures var db' := db.(minute := Accumulate(db.minute, key, bytes));
            var recorded' := Accumulate(recorded, key, bytes);
      && RecordedOk(g, recorded') && Kept(db'.minute, recorded', c.minute)
      && NoGap(recorded', db') && CutsOk(r, db', time, c)
  {
    assert forall k :: k in Accumulate(recorded, key, bytes) ==> k in recorded || k == key;
  }

  lemma NoMark(g: Grid, recorded: Table, db: Db, clock: int)
    ensures MarkOk(g, recorded, Minute, Mark(db, Minute), clock)
  {
  }

  // ---- Every reachable state

  lemma ClockAdvances(g: Grid, r: Retention, db: Db, recorded: Table, clock: int, clock': int, c: Cuts)
    requires Inv(g, r, db, recorded, clock, c) && clock <= clock'
    ensures Inv(g, r, db, recorded, clock', c)
  {
    hide Kept, Folded, NoGap;
    forall t
      ensures MarkOk(g, recorded, t, Mark(db, t), clock')
    {
      assert MarkOk(g, recorded, t, Mark(db, t), clock);
    }
  }

  lemma EmptyOk(g: Grid, r: Retention, clock: int)
    ensures Inv(g, r, EMPTY, map[], clock, Cuts(0, 0, 0))
  {
  }

  /** The invariant holds after every history, with runs aborted anywhere. */
  lemma {:induction false} Reachable(g: Grid, r: Retention, es: seq<Event>, clock: int) returns (c: Cuts)
    requires Lawful(g) && Timely(g, es) && By(es, clock)
    ensures Inv(g, r, After(g, r, es), Log(es), clock, c)
    decreases |es|
  {
    if es == [] {
      c := Cuts(0, 0, 0);
      EmptyOk(g, r, clock);
    } else {
      var rest, e := es[..|es| - 1], es[|es| - 1];
      c := Reachable(g, r, rest, e.time);
      hide Inv, Lawful;
      match e
      case Recorded(time, key, bytes) =>
        RecordKeeps(g, r, After(g, r, rest), Log(rest), time, c, time, key, bytes);
      case Ran(time, steps) =>
        RunStarts(g, r, After(g, r, rest), Log(rest), time, c);
        c := RunKeeps(g, r, After(g, r, rest), Log(rest), time, c, FIRST, steps);
      ClockAdvances(g, r, After(g, r, es), Log(es), e.time, clock, c);
    }
  }

  lemma RunStarts(g: Grid, r: Retention, db: Db, recorded: Table, now: int, c: Cuts)
    ensures Reached(g, r, db, recorded, now, c, FIRST)
  {
  }
}
