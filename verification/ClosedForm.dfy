/** What a completed rollup leaves, written down directly from the minutes ever
    recorded, the time and the retention: no watermark arithmetic, no order of
    runs, no history. */
module ClosedForm {
  import opened Counters
  import opened Zones
  import opened Rollup
  import opened Invariant
  import opened Steps
  import opened History

  /** Closed long enough to roll up. */
  predicate Ripe(g: Grid, tier: Tier, bucket: int, now: int) {
    End(g, tier, bucket) + 120 <= now
  }

  /** The end of the latest ripe bucket anything was recorded in. */
  function RipeMark(g: Grid, recorded: Table, tier: Tier, now: int): Option<int> {
    var ends := set k | k in recorded && Ripe(g, tier, k.bucket, now) :: End(g, tier, k.bucket);
    if ends == {} then None else Some(Max(ends))
  }

  function BytesOf(c: Cell): Bytes {
    match c case Row(bytes) => bytes case Absent => Bytes(0, 0)
  }

  function RipeKeys(g: Grid, recorded: Table, tier: Tier, now: int, cut: int): set<Key> {
    set k | k in recorded && Ripe(g, tier, k.bucket, now) && cut <= Start(g, tier, k.bucket)
      :: Key(Start(g, tier, k.bucket), k.flow)
  }

  /** One row per flow and ripe bucket from `cut` on: what was recorded in it. */
  function RipeRows(g: Grid, recorded: Table, tier: Tier, now: int, cut: int): Table {
    map key | key in RipeKeys(g, recorded, tier, now, cut)
      :: BytesOf(Total(recorded, key.flow, key.bucket, End(g, tier, key.bucket)))
  }

  function ClosedForm(g: Grid, r: Retention, recorded: Table, now: int): Db {
    var hour := RipeMark(g, recorded, Hour, now);
    var day := RipeMark(g, recorded, Day, now);
    var month := RipeMark(g, recorded, Month, now);
    Db(
      if hour.Some? && day.Some?
      then DropBefore(recorded, Lesser(Lesser(now - r.minute, hour.value), day.value)) else recorded,
      RipeRows(g, recorded, Hour, now, now - r.hour),
      if month.Some?
      then RipeRows(g, recorded, Day, now, Lesser(now - r.day, month.value))
      else RipeRows(g, recorded, Day, now, 0),
      RipeRows(g, recorded, Month, now, 0),
      hour, day, month)
  }

  lemma RipeKeyIsRow(g: Grid, recorded: Table, tier: Tier, now: int, cut: int, b: int, f: Flow)
    requires Partitions(g, tier) && Key(b, f) in RipeKeys(g, recorded, tier, now, cut)
    ensures cut <= b && Edge(g, tier, b) && Ripe(g, tier, b, now) && Total(recorded, f, b, End(g, tier, b)) != Absent
  {
    var k :| k in recorded && Ripe(g, tier, k.bucket, now) && cut <= Start(g, tier, k.bucket)
          && Key(Start(g, tier, k.bucket), k.flow) == Key(b, f);
    StartIsEdge(g, tier, k.bucket);
    assert b <= k.bucket < End(g, tier, b);
    hide *;
    assert k == Key(k.bucket, f);
    TotalPresent(recorded, f, b, End(g, tier, b), k.bucket) by { PresentAt(recorded, k); }
  }

  lemma PresentAt(t: Table, k: Key)
    requires k in t
    ensures At(t, k.bucket, k.flow) != Absent
  {
  }

  lemma RowIsRipeKey(g: Grid, recorded: Table, tier: Tier, now: int, cut: int, b: int, f: Flow)
    requires Partitions(g, tier)
    requires cut <= b && Edge(g, tier, b) && Ripe(g, tier, b, now) && Total(recorded, f, b, End(g, tier, b)) != Absent
    ensures Key(b, f) in RipeKeys(g, recorded, tier, now, cut)
  {
    var m := TotalWitness(recorded, f, b, End(g, tier, b));
    assert g(tier, m) == g(tier, b);
    hide Partitions;
    assert Key(m, f) in recorded && Start(g, tier, Key(m, f).bucket) == b;
  }

  lemma RipeRowsAt(g: Grid, recorded: Table, tier: Tier, now: int, cut: int, b: int, f: Flow)
    requires Partitions(g, tier)
    ensures At(RipeRows(g, recorded, tier, now, cut), b, f)
         == if cut <= b && Edge(g, tier, b) && Ripe(g, tier, b, now)
            then Total(recorded, f, b, End(g, tier, b)) else Absent
  {
    hide Partitions;
    if Key(b, f) in RipeKeys(g, recorded, tier, now, cut) {
      RipeKeyIsRow(g, recorded, tier, now, cut, b, f);
    } else if cut <= b && Edge(g, tier, b) && Ripe(g, tier, b, now)
        && Total(recorded, f, b, End(g, tier, b)) != Absent {
      RowIsRipeKey(g, recorded, tier, now, cut, b, f);
    }
  }

  /** A settled watermark is the end of the latest ripe bucket. */
  lemma SettledMark(g: Grid, recorded: Table, db: Db, tier: Tier, now: int)
    requires Lawful(g) && RecordedOk(g, recorded)
    requires MarkOk(g, recorded, tier, Mark(db, tier), now) && Settled(g, recorded, db, tier, now)
    ensures Mark(db, tier) == RipeMark(g, recorded, tier, now)
  {
    var ends := set k | k in recorded && Ripe(g, tier, k.bucket, now) :: End(g, tier, k.bucket);
    var mark := Mark(db, tier);
    if mark.Some? {
      var k :| k in recorded && End(g, tier, k.bucket) == mark.value;
      assert mark.value in ends;
    }
    hide MarkOk, Lawful, RecordedOk;
    forall end | end in ends
      ensures mark.Some? && end <= mark.value
    {
      var k :| k in recorded && Ripe(g, tier, k.bucket, now) && End(g, tier, k.bucket) == end;
      RipeIsRolled(g, recorded, db, tier, now, k);
    }
  }

  lemma RipeIsRolled(g: Grid, recorded: Table, db: Db, tier: Tier, now: int, k: Key)
    requires Lawful(g) && RecordedOk(g, recorded)
    requires MarkOk(g, recorded, tier, Mark(db, tier), now) && Settled(g, recorded, db, tier, now)
    requires k in recorded && Ripe(g, tier, k.bucket, now)
    ensures Mark(db, tier).Some? && End(g, tier, k.bucket) <= Mark(db, tier).value
  {
    assert Partitions(g, tier);
    assert k.bucket < Through(db, tier) && Datable(g, k.bucket);
    MarkIsEdge(g, recorded, tier, Mark(db, tier), now);
    EdgeSeparates(g, tier, Mark(db, tier).value, k.bucket);
  }

  /** A settled table is the ripe rows. */
  lemma SettledRows(g: Grid, recorded: Table, db: Db, t: Table, tier: Tier, now: int, cut: int, cut': int)
    requires Lawful(g) && RecordedOk(g, recorded)
    requires MarkOk(g, recorded, tier, Mark(db, tier), now) && Settled(g, recorded, db, tier, now)
    requires Folded(g, recorded, t, tier, cut, Through(db, tier)) && tier != Minute
    requires cut == Greater(0, cut')
    ensures t == RipeRows(g, recorded, tier, now, cut')
  {
    assert Partitions(g, tier);
    forall b, f
      ensures At(t, b, f) == At(RipeRows(g, recorded, tier, now, cut'), b, f)
    {
      RipeRowsAt(g, recorded, tier, now, cut', b, f);
      if Edge(g, tier, b) && Total(recorded, f, b, End(g, tier, b)) != Absent {
        SettledCell(g, recorded, db, tier, now, b, f);
      }
    }
    TableEq(t, RipeRows(g, recorded, tier, now, cut'));
  }

  lemma SettledCell(g: Grid, recorded: Table, db: Db, tier: Tier, now: int, b: int, f: Flow)
    requires Lawful(g) && RecordedOk(g, recorded) && tier != Minute
    requires MarkOk(g, recorded, tier, Mark(db, tier), now) && Settled(g, recorded, db, tier, now)
    requires Edge(g, tier, b) && Total(recorded, f, b, End(g, tier, b)) != Absent
    ensures 0 <= b && (b < Through(db, tier) <==> Ripe(g, tier, b, now))
  {
    assert Partitions(g, tier);
    var m := TotalWitness(recorded, f, b, End(g, tier, b));
    assert g(tier, m) == g(tier, b);
    assert Key(m, f) in recorded && Datable(g, Key(m, f).bucket);
    DatableStarts(g, tier, m);
    if Mark(db, tier).Some? {
      MarkIsEdge(g, recorded, tier, Mark(db, tier), now);
      EdgeSeparates(g, tier, Through(db, tier), b);
      EdgeSeparates(g, tier, Through(db, tier), m);
    }
  }

  lemma DatableStarts(g: Grid, tier: Tier, bucket: int)
    requires Lawful(g) && Datable(g, bucket) && tier != Minute
    ensures 0 <= Start(g, tier, bucket)
  {
    if tier == Hour {
      assert Partitions(g, Hour);
      EdgeSeparates(g, Hour, 0, bucket);
    } else {
      assert Start(g, Month, bucket) <= Start(g, Day, bucket);
    }
  }

  lemma DoneIsClosedForm(g: Grid, r: Retention, db: Db, recorded: Table, now: int, c: Cuts)
    requires Lawful(g) && Inv(g, r, db, recorded, now, c) && Reached(g, r, db, recorded, now, c, Done)
    ensures db == ClosedForm(g, r, recorded, now)
  {
    forall t | t != Minute
      ensures Mark(db, t) == RipeMark(g, recorded, t, now)
    {
      assert MarkOk(g, recorded, t, Mark(db, t), now);
      SettledMark(g, recorded, db, t, now);
    }
    assert MarkOk(g, recorded, Hour, Mark(db, Hour), now) && MarkOk(g, recorded, Day, Mark(db, Day), now)
        && MarkOk(g, recorded, Month, Mark(db, Month), now);
    hide Lawful, Settled, Folded, MarkOk, RecordedOk, RipeRows, RipeMark, Kept;
    var form := ClosedForm(g, r, recorded, now);
    assert Mark(db, Hour) == db.hourMark && Mark(db, Day) == db.dayMark && Mark(db, Month) == db.monthMark;
    SettledRows(g, recorded, db, db.hour, Hour, now, c.hour, now - r.hour);
    SettledRows(g, recorded, db, db.day, Day, now, c.day,
                if db.monthMark.Some? then Lesser(now - r.day, db.monthMark.value) else 0);
    SettledRows(g, recorded, db, db.month, Month, now, 0, 0);
    MinuteIsClosedForm(g, recorded, db.minute, form.minute, c.minute,
                       if db.hourMark.Some? && db.dayMark.Some?
                       then Some(Lesser(Lesser(now - r.minute, db.hourMark.value), db.dayMark.value)) else None);
  }

  lemma MinuteIsClosedForm(g: Grid, recorded: Table, t: Table, form: Table, cut: int, before: Option<int>)
    requires RecordedOk(g, recorded) && Kept(t, recorded, cut)
    requires cut == if before.Some? then Greater(0, before.value) else 0
    requires form == if before.Some? then DropBefore(recorded, before.value) else recorded
    ensures t == form
  {
    forall b, f
      ensures At(t, b, f) == At(form, b, f)
    {
      if Key(b, f) in recorded {
        assert Datable(g, Key(b, f).bucket);
      }
    }
    TableEq(t, form);
  }

  /** Whether this run reaches its end. */
  predicate Completes(g: Grid, r: Retention, es: seq<Event>, now: int, steps: nat) {
    Run(g, r, now, After(g, r, es), FIRST, steps).1 == Done
  }

  /** History independence: after any completed rollup, the four tables and
      three watermarks are a function of the minutes ever recorded, the time and
      the retention. */
  lemma HistoryIndependence(g: Grid, r: Retention, es: seq<Event>, now: int, steps: nat)
    requires Lawful(g) && Timely(g, es) && By(es, now)
    requires Completes(g, r, es, now, steps)
    ensures After(g, r, es + [Ran(now, steps)]) == ClosedForm(g, r, Log(es), now)
  {
    var es' := es + [Ran(now, steps)];
    assert es'[..|es'| - 1] == es;
    var c := Reachable(g, r, es, now);
    RunStarts(g, r, After(g, r, es), Log(es), now, c);
    c := RunKeeps(g, r, After(g, r, es), Log(es), now, c, FIRST, steps);
    DoneIsClosedForm(g, r, Run(g, r, now, After(g, r, es), FIRST, steps).0, Log(es), now, c);
  }

  /** One catch-up run reaches the state that any other history of the same
      minutes reaches, however often and however far its runs got. */
  lemma CatchUp(g: Grid, r: Retention, es: seq<Event>, es': seq<Event>, now: int, steps: nat, steps': nat)
    requires Lawful(g) && Timely(g, es) && By(es, now) && Timely(g, es') && By(es', now)
    requires Log(es) == Log(es')
    requires Completes(g, r, es, now, steps) && Completes(g, r, es', now, steps')
    ensures After(g, r, es + [Ran(now, steps)]) == After(g, r, es' + [Ran(now, steps')])
  {
    HistoryIndependence(g, r, es, now, steps);
    HistoryIndependence(g, r, es', now, steps');
  }

  /** Once a run is done, no step of another at the same time finds anything to do. */
  lemma NothingLeft(g: Grid, r: Retention, db: Db, recorded: Table, now: int, c: Cuts, tier: Tier)
    requires Lawful(g) && Inv(g, r, db, recorded, now, c) && Reached(g, r, db, recorded, now, c, Done)
    requires tier != Minute
    ensures RollupNext(g, db, tier, now).None?
  {
    assert Settled(g, recorded, db, tier, now);
    if Unrolled(db, tier) != {} {
      var oldest := Min(Unrolled(db, tier));
      if tier == Month {
        var k := MonthOfOldest(g, r, db, recorded, now, c, oldest);
      } else {
        MinutesPresent(db, recorded, tier, c.minute, oldest);
      }
    }
  }

  lemma NothingToPrune(g: Grid, r: Retention, db: Db, recorded: Table, now: int, c: Cuts)
    requires Lawful(g) && Inv(g, r, db, recorded, now, c) && Reached(g, r, db, recorded, now, c, Done)
    ensures PruneMinute(r, db, now) == db && PruneHour(r, db, now) == db && PruneDay(r, db, now) == db
  {
    forall b, f
      ensures At(PruneMinute(r, db, now).minute, b, f) == At(db.minute, b, f)
      ensures At(PruneHour(r, db, now).hour, b, f) == At(db.hour, b, f)
      ensures At(PruneDay(r, db, now).day, b, f) == At(db.day, b, f)
    {
      if Key(b, f) in recorded {
        assert Datable(g, Key(b, f).bucket);
      }
    }
    TableEq(PruneMinute(r, db, now).minute, db.minute);
    TableEq(PruneHour(r, db, now).hour, db.hour);
    TableEq(PruneDay(r, db, now).day, db.day);
  }

  lemma {:induction false} RerunStays(g: Grid, r: Retention, db: Db, recorded: Table, now: int, c: Cuts, phase: Phase,
                                      steps: nat)
    requires Lawful(g) && Inv(g, r, db, recorded, now, c) && Reached(g, r, db, recorded, now, c, Done)
    ensures Run(g, r, now, db, phase, steps).0 == db
    decreases steps
  {
    hide Lawful, Inv, Reached, RollupNext, PruneMinute, PruneHour, PruneDay;
    if steps > 0 {
      if phase.Rolling? && phase.tier != Minute {
        NothingLeft(g, r, db, recorded, now, c, phase.tier);
      }
      NothingToPrune(g, r, db, recorded, now, c);
      RerunStays(g, r, db, recorded, now, c, Step(g, r, now, db, phase).1, steps - 1);
    }
  }

  /** A rerun at the same time changes nothing, however far it gets. */
  lemma RerunChangesNothing(g: Grid, r: Retention, es: seq<Event>, now: int, steps: nat, again: nat)
    requires Lawful(g) && Timely(g, es) && By(es, now)
    requires Completes(g, r, es, now, steps)
    ensures After(g, r, es + [Ran(now, steps)] + [Ran(now, again)]) == After(g, r, es + [Ran(now, steps)])
  {
    var once := es + [Ran(now, steps)];
    var twice := once + [Ran(now, again)];
    assert once[..|once| - 1] == es && twice[..|twice| - 1] == once;
    var c := Reachable(g, r, es, now);
    RunStarts(g, r, After(g, r, es), Log(es), now, c);
    c := RunKeeps(g, r, After(g, r, es), Log(es), now, c, FIRST, steps);
    RerunStays(g, r, After(g, r, once), Log(es), now, c, FIRST, again);
  }
}
