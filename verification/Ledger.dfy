/** The whole of the all-time month read over any history, in any zones: what was
    recorded is what it shows and what the moves below the floor took from it. */
module Ledger {
  import opened Counters
  import opened Zones
  import opened Rollup
  import opened Invariant
  import opened History
  import opened Stitch
  import opened ZoneChange
  import opened Limits

  /** What a move takes from the month read for good: the rows of a day that
      begins below the month watermark, or of a month from before the epoch. */
  function LostIn(db: Db, move: Move, f: Flow): Cell {
    if move.Stepped? && move.phase.Rolling? && (move.phase.tier == Day || move.phase.tier == Month)
       && RollupNext(move.grid, db, move.phase.tier, move.time).Some?
       && Next(move.grid, db, move.phase.tier).start < Floor(db, move.phase.tier)
    then Taken(move.grid, db, move.phase.tier, f) else Absent
  }

  function Losses(r: Retention, moves: seq<Move>, f: Flow): Cell {
    if moves == [] then Absent
    else
      var rest := moves[..|moves| - 1];
      Plus(Losses(r, rest, f), LostIn(PlayAll(r, rest).db, moves[|moves| - 1], f))
  }

  predicate Before(moves: seq<Move>, to: int) {
    forall i :: 0 <= i < |moves| ==> moves[i].time <= to && (moves[i].Wrote? ==> moves[i].key.bucket < to)
  }

  lemma FairFromEpoch(books: Books, clock: int)
    requires Fair(books, clock)
    ensures FromEpoch(books.db)
  {
    assert MarkFair(Mark(books.db, Day), clock) && MarkFair(Mark(books.db, Month), clock);
  }

  /** Deleting rows never touches what a month read uses, in any state. */
  lemma PruningIsUnseen(r: Retention, db: Db, now: int, f: Flow, to: int)
    requires FromEpoch(db)
    ensures Stitched(PruneMinute(r, db, now), Month, f, 0, to) == Stitched(db, Month, f, 0, to)
    ensures Stitched(PruneHour(r, db, now), Month, f, 0, to) == Stitched(db, Month, f, 0, to)
    ensures Stitched(PruneDay(r, db, now), Month, f, 0, to) == Stitched(db, Month, f, 0, to)
  {
    AllTimeParts(db, f, to);
    AllTimeParts(PruneMinute(r, db, now), f, to);
    AllTimeParts(PruneHour(r, db, now), f, to);
    AllTimeParts(PruneDay(r, db, now), f, to);
    hide Stitched;
    TotalSame(db.minute, PruneMinute(r, db, now).minute, f, Through(db, Day), to);
    TotalSame(db.day, PruneDay(r, db, now).day, f, Through(db, Month), to);
  }

  /** Nor does moving hours. */
  lemma HoursAreUnseen(g: Grid, db: Db, now: int, f: Flow, to: int)
    requires FromEpoch(db) && RollupNext(g, db, Hour, now).Some?
    ensures Stitched(RollupNext(g, db, Hour, now).value, Month, f, 0, to) == Stitched(db, Month, f, 0, to)
  {
    RollupEffect(g, db, Hour, now);
    var db' := RollupNext(g, db, Hour, now).value;
    hide RollupNext, RollInto;
    assert Mark(db', Day) == Mark(db, Day) && Mark(db', Month) == Mark(db, Month);
    AllTimeParts(db, f, to);
    AllTimeParts(db', f, to);
    hide Stitched;
  }

  // ---- One move

  /** A minute written in time goes into both sides. */
  lemma WroteEntry(r: Retention, books: Books, clock: int, move: Move, f: Flow, to: int, lost: Cell)
    requires Fair(books, clock) && clock <= move.time && OrderlyMove(move) && move.Wrote? && move.key.bucket < to
    requires Total(books.recorded, f, 0, to) == Plus(Stitched(books.db, Month, f, 0, to), lost)
    ensures var after := Play(r, books, move);
      Total(after.recorded, f, 0, to) == Plus(Stitched(after.db, Month, f, 0, to), lost)
  {
    assert MarkFair(Mark(books.db, Day), clock);
    if Mark(books.db, Day).Some? {
      WholeMinuteGap(Mark(books.db, Day).value, move.time, move.key.bucket);
    }
    assert Greater(0, MinutesFrom(books.db, Month)) <= move.key.bucket;
    hide Fair, Stitched, Total;
    RecordIsSeen(books.db, Month, move.key, move.bytes, f, 0, to);
    TotalAccumulate(books.recorded, move.key, move.bytes, f, 0, to);
    PlusShift(Stitched(books.db, Month, f, 0, to), Row(move.bytes), lost);
  }

  /** A bucket moved goes from the read into the read, or into the losses. */
  lemma RolledEntry(books: Books, clock: int, move: Move, f: Flow, to: int, lost: Cell)
    requires Fair(books, clock) && OrderlyMove(move) && move.Stepped? && move.time <= to
    requires move.phase.Rolling? && move.phase.tier != Minute
    requires RollupNext(move.grid, books.db, move.phase.tier, move.time).Some?
    ensures var after := RollupNext(move.grid, books.db, move.phase.tier, move.time).value;
      Plus(Stitched(books.db, Month, f, 0, to), lost)
      == Plus(Stitched(after, Month, f, 0, to), Plus(lost, LostIn(books.db, move, f)))
  {
    var db, g, tier, now := books.db, move.grid, move.phase.tier, move.time;
    FairFromEpoch(books, clock);
    assert Contains(g, tier);
    hide Fair, OrderlyMove, Stitched, FromEpoch, Contains;
    if tier == Hour {
      HoursAreUnseen(g, db, now, f, to);
    } else {
      RollupEffect(g, db, tier, now);
      MonthReadAcrossRoll(g, db, tier, now, f, to);
      var after := RollupNext(g, db, tier, now).value;
      PlusShift(Stitched(after, Month, f, 0, to), Taken(g, db, tier, f), lost);
      PlusAssociates(Stitched(after, Month, f, 0, to), lost, Taken(g, db, tier, f));
      hide RollupNext, Taken;
    }
  }

  lemma PrunedEntry(r: Retention, books: Books, clock: int, move: Move, f: Flow, to: int)
    requires Fair(books, clock) && move.Stepped? && move.phase.Pruning?
    ensures var after := Play(r, books, move);
      after.recorded == books.recorded && Stitched(after.db, Month, f, 0, to) == Stitched(books.db, Month, f, 0, to)
  {
    FairFromEpoch(books, clock);
    PruningIsUnseen(r, books.db, move.time, f, to);
    hide Stitched, PruneMinute, PruneHour, PruneDay, Fair, FromEpoch, Archive;
  }

  lemma StepEntry(r: Retention, books: Books, move: Move)
    requires move.Stepped? && !move.phase.Pruning?
    ensures var after := Play(r, books, move);
            var moves := move.phase.Rolling? && move.phase.tier != Minute
                         && RollupNext(move.grid, books.db, move.phase.tier, move.time).Some?;
      && after.recorded == books.recorded
      && after.db == if moves then RollupNext(move.grid, books.db, move.phase.tier, move.time).value else books.db
  {
    hide RollupNext, Archive;
  }

  lemma MoveEntry(r: Retention, books: Books, clock: int, move: Move, f: Flow, to: int, lost: Cell)
    requires Fair(books, clock) && clock <= move.time && OrderlyMove(move)
    requires move.time <= to && (move.Wrote? ==> move.key.bucket < to)
    requires Total(books.recorded, f, 0, to) == Plus(Stitched(books.db, Month, f, 0, to), lost)
    ensures var after := Play(r, books, move);
      Total(after.recorded, f, 0, to)
      == Plus(Stitched(after.db, Month, f, 0, to), Plus(lost, LostIn(books.db, move, f)))
  {
    hide Stitched, Total, RollupNext, Fair, OrderlyMove, Play;
    if move.Wrote? {
      WroteEntry(r, books, clock, move, f, to, lost);
    } else if move.phase.Pruning? {
      PrunedEntry(r, books, clock, move, f, to);
    } else {
      StepEntry(r, books, move);
      if move.phase.Rolling? && move.phase.tier != Minute
         && RollupNext(move.grid, books.db, move.phase.tier, move.time).Some? {
        hide LostIn;
        RolledEntry(books, clock, move, f, to, lost);
      }
    }
  }

  // ---- The ledger

  /** After any orderly history, each step in whatever phase and zone it likes:
      every byte recorded is in the all-time month read, or was in a bucket moved
      from below the floor, and no byte is in two of these. */
  lemma {:induction false} MonthLedger(r: Retention, moves: seq<Move>, f: Flow, to: int)
    requires Orderly(moves) && Before(moves, to)
    ensures Total(PlayAll(r, moves).recorded, f, 0, to)
         == Plus(Stitched(PlayAll(r, moves).db, Month, f, 0, to), Losses(r, moves, f))
    decreases |moves|
  {
    if moves == [] {
      TotalNone(map[], f, 0, to);
      AllTimeParts(EMPTY, f, to);
    } else {
      var rest, move := moves[..|moves| - 1], moves[|moves| - 1];
      MonthLedger(r, rest, f, to);
      var clock := AlwaysFair(r, rest);
      if rest == [] {
        clock := move.time;
      }
      hide Fair, Stitched, Total, OrderlyMove;
      MoveEntry(r, PlayAll(r, rest), clock, move, f, to, Losses(r, rest, f));
    }
  }

  /** So the read is complete if and only if nothing was lost. */
  lemma CompleteExactly(r: Retention, moves: seq<Move>, f: Flow, to: int)
    requires Orderly(moves) && Before(moves, to) && Losses(r, moves, f) != Row(Bytes(0, 0))
    ensures Total(PlayAll(r, moves).recorded, f, 0, to) == Stitched(PlayAll(r, moves).db, Month, f, 0, to)
       <==> Losses(r, moves, f) == Absent
  {
    MonthLedger(r, moves, f, to);
    hide *;
    PlusDiffers(Stitched(PlayAll(r, moves).db, Month, f, 0, to), Losses(r, moves, f));
  }
}
