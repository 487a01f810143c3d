/** The zone may change between any two steps. Day buckets then overlap and are
    rolled up in pieces, yet the hour and day tables, with the rows pruned from
    them, still add up to what was recorded below their watermarks. */
module ZoneChange {
  import opened Counters
  import opened Zones
  import opened Rollup
  import opened History

  /** A minute recorded, or one step of the job, in any phase and any zone. */
  datatype Move =
    | Wrote(time: int, key: Key, bytes: Bytes)
    | Stepped(time: int, grid: Grid, phase: Phase)

  /** The database, every minute ever recorded, and the rows pruning deleted. */
  datatype Books = Books(db: Db, recorded: Table, goneHour: Table, goneDay: Table)

  /** `gone`, and what deleting `t`'s rows before `bucket` adds to it. */
  function Archive(gone: Table, t: Table, bucket: int): (r: Table)
    ensures forall b, f :: At(r, b, f) == if b < bucket then Plus(At(gone, b, f), At(t, b, f)) else At(gone, b, f)
  {
    map k | k in gone.Keys + (set k | k in t && k.bucket < bucket) ::
      if k in gone && k in t && k.bucket < bucket then AddBytes(gone[k], t[k]) else if k in gone then gone[k] else t[k]
  }

  function Play(r: Retention, books: Books, move: Move): Books {
    match move
    case Wrote(_, key, bytes) =>
      books.(db := books.db.(minute := Accumulate(books.db.minute, key, bytes)),
             recorded := Accumulate(books.recorded, key, bytes))
    case Stepped(time, grid, phase) =>
      var db' := Step(grid, r, time, books.db, phase).0;
      var kept := books.(db := db');
      if phase == Pruning(Hour) then
        kept.(goneHour := Archive(books.goneHour, books.db.hour, time - r.hour))
      else if phase == Pruning(Day) && books.db.monthMark.Some? then
        kept.(goneDay := Archive(books.goneDay, books.db.day, Lesser(time - r.day, books.db.monthMark.value)))
      else kept
  }

  function PlayAll(r: Retention, moves: seq<Move>): Books {
    if moves == [] then Books(EMPTY, map[], map[], map[])
    else Play(r, PlayAll(r, moves[..|moves| - 1]), moves[|moves| - 1])
  }

  /** The clock does not run backwards, minutes are written in time, and each
      step's zone has whole-minute buckets that contain their instants. */
  ghost predicate Orderly(moves: seq<Move>) {
    && (forall i, j :: 0 <= i < j < |moves| ==> moves[i].time <= moves[j].time)
    && (forall i :: 0 <= i < |moves| ==> OrderlyMove(moves[i]))
  }

  ghost predicate OrderlyMove(move: Move) {
    match move
    case Wrote(time, key, _) => 0 <= key.bucket && key.bucket % 60 == 0 && time < key.bucket + 60 + GRACE
    case Stepped(_, grid, _) => forall tier :: Contains(grid, tier) && WholeMinutes(grid, tier)
  }

  ghost predicate MarkFair(mark: Option<int>, clock: int) {
    mark.Some? ==> 0 <= mark.value <= clock - GRACE && mark.value % 60 == 0
  }

  ghost predicate SourceFair(db: Db, recorded: Table, tier: Tier) {
    forall b, f :: Through(db, tier) <= b ==> At(db.minute, b, f) == At(recorded, b, f)
  }

  ghost predicate Encloses(lo: int, hi: int, t: Table) {
    forall b, f :: At(t, b, f) != Absent ==> lo <= b < hi
  }

  /** Retained rows plus pruned rows make up what was recorded below the mark. */
  ghost predicate Balanced(t: Table, gone: Table, recorded: Table, through: int) {
    forall f, lo, hi :: Encloses(lo, hi, t) && Encloses(lo, hi, gone) ==>
      Plus(Total(t, f, lo, hi), Total(gone, f, lo, hi)) == Total(recorded, f, 0, through)
  }

  ghost predicate Fair(books: Books, clock: int) {
    && (forall k :: k in books.recorded ==> 0 <= k.bucket)
    && (forall k :: k in books.db.minute ==> k in books.recorded)
    && (forall tier :: MarkFair(Mark(books.db, tier), clock))
    && SourceFair(books.db, books.recorded, Hour) && SourceFair(books.db, books.recorded, Day)
    && Balanced(books.db.hour, books.goneHour, books.recorded, Through(books.db, Hour))
    && Balanced(books.db.day, books.goneDay, books.recorded, Through(books.db, Day))
  }

  lemma {:induction false} TotalRollInto(dst: Table, src: Table, start: int, lower: int, end: int, f: Flow, lo: int,
                                         hi: int)
    ensures Total(RollInto(dst, src, start, lower, end), f, lo, hi)
         == if lo <= start < hi then Plus(Total(dst, f, lo, hi), Total(src, f, lower, end)) else Total(dst, f, lo, hi)
    decreases hi - lo
  {
    if lo < hi {
      TotalRollInto(dst, src, start, lower, end, f, lo, hi - 1);
    }
  }

  lemma {:induction false} TotalArchive(gone: Table, t: Table, bucket: int, f: Flow, lo: int, hi: int)
    ensures Plus(Total(t, f, lo, hi), Total(gone, f, lo, hi))
         == Plus(Total(DropBefore(t, bucket), f, lo, hi), Total(Archive(gone, t, bucket), f, lo, hi))
    decreases hi - lo
  {
    if lo < hi {
      TotalArchive(gone, t, bucket, f, lo, hi - 1);
      var t', gone', b := DropBefore(t, bucket), Archive(gone, t, bucket), hi - 1;
      assert Plus(At(t, b, f), At(gone, b, f)) == Plus(At(t', b, f), At(gone', b, f));
      hide Plus, At, DropBefore, Archive;
      PlusExchange(Total(t, f, lo, b), At(t, b, f), Total(gone, f, lo, b), At(gone, b, f));
      PlusExchange(Total(t', f, lo, b), At(t', b, f), Total(gone', f, lo, b), At(gone', b, f));
    }
  }

  /** The rows a bucket takes in, `lower` on, are exactly those between the
      watermark and the bucket's end, wherever the bucket starts. */
  lemma TakesWhatIsNext(books: Books, clock: int, tier: Tier, start: int, oldest: int, end: int, f: Flow)
    requires Fair(books, clock) && (tier == Hour || tier == Day)
    requires Through(books.db, tier) <= oldest && start <= oldest < end
    requires forall b :: b in Unrolled(books.db, tier) ==> oldest <= b
    ensures var mark := Mark(books.db, tier);
            var lower := if mark.Some? && start < mark.value then mark.value else start;
      Total(books.db.minute, f, lower, end) == Total(books.recorded, f, Through(books.db, tier), end)
  {
    var db, recorded, through := books.db, books.recorded, Through(books.db, tier);
    forall b | through <= b < oldest
      ensures At(recorded, b, f) == Absent
    {
      assert Key(b, f) in db.minute ==> Key(b, f).bucket in Unrolled(db, tier);
    }
    if through <= start {
      TotalSame(db.minute, recorded, f, start, end);
      TotalNone(recorded, f, through, start);
      TotalSplit(recorded, f, through, start, end);
    } else {
      TotalSame(db.minute, recorded, f, through, end);
      if Mark(db, tier).None? {
        forall b | start <= b < 0
          ensures At(db.minute, b, f) == Absent
        {
          assert Key(b, f) in db.minute ==> 0 <= Key(b, f).bucket;
        }
        TotalNone(db.minute, f, start, 0);
        TotalSplit(db.minute, f, start, 0, end);
      }
    }
  }

  lemma RollIntoKeepsRows(t: Table, src: Table, start: int, lower: int, end: int, lo: int, hi: int)
    requires Encloses(lo, hi, RollInto(t, src, start, lower, end))
    ensures Encloses(lo, hi, t)
    ensures forall f :: !(lo <= start < hi) ==> Total(src, f, lower, end) == Absent
  {
    var t' := RollInto(t, src, start, lower, end);
    hide RollInto, Total;
    assert forall b, f :: At(t, b, f) != Absent ==> At(t', b, f) != Absent;
    assert forall f :: At(t', start, f) == Plus(At(t, start, f), Total(src, f, lower, end));
  }

  lemma BalancedMoves(t: Table, gone: Table, books: Books, clock: int, tier: Tier, start: int, oldest: int, end: int)
    requires Fair(books, clock) && (tier == Hour || tier == Day)
    requires Balanced(t, gone, books.recorded, Through(books.db, tier))
    requires 0 <= Through(books.db, tier) <= oldest && start <= oldest < end
    requires forall b :: b in Unrolled(books.db, tier) ==> oldest <= b
    ensures var mark := Mark(books.db, tier);
            var lower := if mark.Some? && start < mark.value then mark.value else start;
      Balanced(RollInto(t, books.db.minute, start, lower, end), gone, books.recorded, end)
  {
    var mark, through := Mark(books.db, tier), Through(books.db, tier);
    var lower := if mark.Some? && start < mark.value then mark.value else start;
    var t' := RollInto(t, books.db.minute, start, lower, end);
    forall f, lo, hi | Encloses(lo, hi, t') && Encloses(lo, hi, gone)
      ensures Plus(Total(t', f, lo, hi), Total(gone, f, lo, hi)) == Total(books.recorded, f, 0, end)
    {
      TakesWhatIsNext(books, clock, tier, start, oldest, end, f);
      hide Fair, RollInto, Encloses, Total, Through, Mark, Unrolled;
      RollIntoKeepsRows(t, books.db.minute, start, lower, end, lo, hi);
      TotalRollInto(t, books.db.minute, start, lower, end, f, lo, hi);
      TotalSplit(books.recorded, f, 0, through, end);
      PlusShift(Total(t, f, lo, hi), Total(books.db.minute, f, lower, end), Total(gone, f, lo, hi));
    }
  }

  lemma RolledBalances(books: Books, clock: int, time: int, grid: Grid, tier: Tier)
    requires Fair(books, clock) && tier != Minute && Contains(grid, tier)
    requires RollupNext(grid, books.db, tier, time).Some?
    ensures var db' := RollupNext(grid, books.db, tier, time).value;
      && Balanced(db'.hour, books.goneHour, books.recorded, Through(db', Hour))
      && Balanced(db'.day, books.goneDay, books.recorded, Through(db', Day))
  {
    var oldest := Min(Unrolled(books.db, tier));
    var start, end := Start(grid, tier, oldest), End(grid, tier, oldest);
    assert start <= oldest < end;
    assert MarkFair(Mark(books.db, tier), clock);
    assert 0 <= Through(books.db, tier) <= oldest;
    if tier == Hour {
      BalancedMoves(books.db.hour, books.goneHour, books, clock, Hour, start, oldest, end);
    } else if tier == Day {
      BalancedMoves(books.db.day, books.goneDay, books, clock, Day, start, oldest, end);
    }
    hide Balanced, RollInto, Fair;
  }

  lemma RolledMarks(books: Books, clock: int, time: int, grid: Grid, tier: Tier)
    requires Fair(books, clock) && clock <= time && tier != Minute
    requires Contains(grid, tier) && WholeMinutes(grid, tier)
    requires RollupNext(grid, books.db, tier, time).Some?
    ensures var db' := RollupNext(grid, books.db, tier, time).value;
      && db'.minute == books.db.minute
      && (forall t :: MarkFair(Mark(db', t), time) && Through(books.db, t) <= Through(db', t))
  {
    var db, db' := books.db, RollupNext(grid, books.db, tier, time).value;
    RollupEffect(grid, db, tier, time);
    RollupProgress(grid, db, tier, time);
    var oldest := Min(Unrolled(db, tier));
    assert End(grid, tier, oldest) % 60 == 0;
    assert Rows(db', Minute) == Rows(db, Minute);
    hide RollupNext;
    forall t
      ensures MarkFair(Mark(db', t), time) && Through(db, t) <= Through(db', t)
    {
      assert MarkFair(Mark(db, t), clock);
      assert t != tier ==> Mark(db', t) == Mark(db, t);
    }
  }

  lemma RolledFair(books: Books, clock: int, time: int, grid: Grid, tier: Tier)
    requires Fair(books, clock) && clock <= time && tier != Minute
    requires Contains(grid, tier) && WholeMinutes(grid, tier)
    requires RollupNext(grid, books.db, tier, time).Some?
    ensures Fair(books.(db := RollupNext(grid, books.db, tier, time).value), time)
  {
    RolledBalances(books, clock, time, grid, tier);
    RolledMarks(books, clock, time, grid, tier);
    hide RollupNext, Balanced, MarkFair, Through;
    var db, db' := books.db, RollupNext(grid, books.db, tier, time).value;
    assert Through(db, Hour) <= Through(db', Hour) && Through(db, Day) <= Through(db', Day);
  }

  lemma BalancedArchives(t: Table, gone: Table, recorded: Table, through: int, bucket: int)
    requires Balanced(t, gone, recorded, through)
    ensures Balanced(DropBefore(t, bucket), Archive(gone, t, bucket), recorded, through)
  {
    var t', gone' := DropBefore(t, bucket), Archive(gone, t, bucket);
    forall f, lo, hi | Encloses(lo, hi, t') && Encloses(lo, hi, gone')
      ensures Plus(Total(t', f, lo, hi), Total(gone', f, lo, hi)) == Total(recorded, f, 0, through)
    {
      forall b, f
        ensures At(t, b, f) != Absent ==> lo <= b < hi
        ensures At(gone, b, f) != Absent ==> lo <= b < hi
      {
        assert At(t, b, f) != Absent ==> At(t', b, f) != Absent || At(gone', b, f) != Absent;
        assert At(gone, b, f) != Absent ==> At(gone', b, f) != Absent;
      }
      TotalArchive(gone, t, bucket, f, lo, hi);
    }
  }

  lemma PrunedMinuteFair(r: Retention, books: Books, clock: int, time: int)
    requires Fair(books, clock) && clock <= time
    ensures Fair(books.(db := PruneMinute(r, books.db, time)), time)
  {
    var db' := PruneMinute(r, books.db, time);
    LaterFair(books, clock, time);
    hide Balanced, MarkFair;
    assert forall t :: Mark(db', t) == Mark(books.db, t);
    forall k | k in db'.minute
      ensures k in books.recorded
    {
      assert At(db'.minute, k.bucket, k.flow) != Absent && k == Key(k.bucket, k.flow);
    }
  }

  lemma PrunedHourFair(books: Books, clock: int, time: int, bucket: int)
    requires Fair(books, clock) && clock <= time
    ensures Fair(books.(db := books.db.(hour := DropBefore(books.db.hour, bucket)),
                        goneHour := Archive(books.goneHour, books.db.hour, bucket)), time)
  {
    var db' := books.db.(hour := DropBefore(books.db.hour, bucket));
    LaterFair(books, clock, time);
    BalancedArchives(books.db.hour, books.goneHour, books.recorded, Through(books.db, Hour), bucket);
    hide Balanced, MarkFair, Archive, DropBefore;
    assert forall t :: Mark(db', t) == Mark(books.db, t);
  }

  lemma PrunedDayFair(books: Books, clock: int, time: int, bucket: int)
    requires Fair(books, clock) && clock <= time
    ensures Fair(books.(db := books.db.(day := DropBefore(books.db.day, bucket)),
                        goneDay := Archive(books.goneDay, books.db.day, bucket)), time)
  {
    var db' := books.db.(day := DropBefore(books.db.day, bucket));
    LaterFair(books, clock, time);
    BalancedArchives(books.db.day, books.goneDay, books.recorded, Through(books.db, Day), bucket);
    hide Balanced, MarkFair, Archive, DropBefore;
    assert forall t :: Mark(db', t) == Mark(books.db, t);
  }

  lemma PrunedFair(r: Retention, books: Books, clock: int, time: int, grid: Grid, phase: Phase)
    requires Fair(books, clock) && clock <= time && phase.Pruning?
    ensures Fair(Play(r, books, Stepped(time, grid, phase)), time)
  {
    hide Fair, Archive, DropBefore;
    LaterFair(books, clock, time);
    match phase.tier
    case Minute => PrunedMinuteFair(r, books, clock, time);
    case Hour => PrunedHourFair(books, clock, time, time - r.hour);
    case Day =>
      if books.db.monthMark.Some? {
        PrunedDayFair(books, clock, time, Lesser(time - r.day, books.db.monthMark.value));
      }
    case Month =>
  }

  lemma WroteFair(books: Books, clock: int, time: int, key: Key, bytes: Bytes)
    requires Fair(books, clock) && clock <= time && OrderlyMove(Wrote(time, key, bytes))
    ensures Fair(books.(db := books.db.(minute := Accumulate(books.db.minute, key, bytes)),
                        recorded := Accumulate(books.recorded, key, bytes)), time)
  {
    var db := books.db;
    var db' := db.(minute := Accumulate(db.minute, key, bytes));
    var recorded' := Accumulate(books.recorded, key, bytes);
    forall t
      ensures Mark(db', t) == Mark(db, t) && MarkFair(Mark(db', t), time) && Through(db, t) <= key.bucket
    {
      assert MarkFair(Mark(db, t), clock);
      if Mark(db, t).Some? {
        WholeMinuteGap(Mark(db, t).value, time, key.bucket);
      }
    }
    forall f, t
      ensures Total(recorded', f, 0, Through(db, t)) == Total(books.recorded, f, 0, Through(db, t))
    {
      TotalAccumulate(books.recorded, key, bytes, f, 0, Through(db, t));
    }
  }

  lemma MoveFair(r: Retention, books: Books, clock: int, move: Move)
    requires Fair(books, clock) && clock <= move.time && OrderlyMove(move)
    ensures Fair(Play(r, books, move), move.time)
  {
    match move
    case Wrote(time, key, bytes) => WroteFair(books, clock, time, key, bytes);
    case Stepped(time, grid, phase) =>
      if phase.Pruning? {
        PrunedFair(r, books, clock, time, grid, phase);
      } else if phase.Rolling? && phase.tier != Minute && RollupNext(grid, books.db, phase.tier, time).Some? {
        hide Fair;
        RolledFair(books, clock, time, grid, phase.tier);
      } else {
        LaterFair(books, clock, time);
      }
  }

  lemma LaterFair(books: Books, clock: int, time: int)
    requires Fair(books, clock) && clock <= time
    ensures Fair(books, time)
  {
    forall t
      ensures MarkFair(Mark(books.db, t), time)
    {
      assert MarkFair(Mark(books.db, t), clock);
    }
  }

  lemma {:induction false} AlwaysFair(r: Retention, moves: seq<Move>) returns (clock: int)
    requires Orderly(moves)
    ensures Fair(PlayAll(r, moves), clock)
    ensures moves != [] ==> clock == moves[|moves| - 1].time
    decreases |moves|
  {
    if moves == [] {
      clock := 0;
      forall f, lo, hi
        ensures Total(map[], f, lo, hi) == Absent
      {
        TotalNone(map[], f, lo, hi);
      }
    } else {
      var rest, move := moves[..|moves| - 1], moves[|moves| - 1];
      var before := AlwaysFair(r, rest);
      if rest == [] {
        before := move.time;
      }
      clock := move.time;
      hide Fair;
      MoveFair(r, PlayAll(r, rest), before, move);
    }
  }

  /** Conservation with a different zone at every step: whatever the phases and
      zones, no hour or day byte is lost or counted twice. */
  lemma ZoneChangesConserve(r: Retention, moves: seq<Move>, f: Flow, lo: int, hi: int)
    requires Orderly(moves)
    ensures var books := PlayAll(r, moves);
      && (Encloses(lo, hi, books.db.hour) && Encloses(lo, hi, books.goneHour) ==>
            Plus(Total(books.db.hour, f, lo, hi), Total(books.goneHour, f, lo, hi))
            == Total(books.recorded, f, 0, Through(books.db, Hour)))
      && (Encloses(lo, hi, books.db.day) && Encloses(lo, hi, books.goneDay) ==>
            Plus(Total(books.db.day, f, lo, hi), Total(books.goneDay, f, lo, hi))
            == Total(books.recorded, f, 0, Through(books.db, Day)))
  {
    var clock := AlwaysFair(r, moves);
  }
}
