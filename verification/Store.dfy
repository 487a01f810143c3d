/** The store: the tables as fields, changed in place one statement at a time. */
module Store {
  import opened Counters
  import opened Zones
  import opened Rollup
  import opened Identities

  class Database {
    var minute: Table
    var hour: Table
    var day: Table
    var month: Table
    var hourMark: Option<int>
    var dayMark: Option<int>
    var monthMark: Option<int>
    var identities: Registry
    var nextId: int
    const zone: Zone
    const retention: Retention

    ghost function View(): Db
      reads this
    {
      Db(minute, hour, day, month, hourMark, dayMark, monthMark)
    }

    ghost function Grid(): Grid {
      GridOf(zone)
    }

    /** Natural keys are unique, and every counter row's identity exists. */
    ghost predicate Valid()
      reads this
    {
      && RegistryOk(identities, nextId)
      && Owned(View(), identities)
    }

    constructor (zone: Zone, retention: Retention)
      ensures Valid() && View() == EMPTY && identities == map[]
      ensures this.zone == zone && this.retention == retention
    {
      minute, hour, day, month := map[], map[], map[], map[];
      hourMark, dayMark, monthMark := None, None, None;
      identities, nextId := map[], 1;
      this.zone, this.retention := zone, retention;
    }

    /** Enter or refresh the identity with this natural key. */
    method UpsertIdentity(rec: Record, seen: int) returns (id: int)
      requires Valid()
      modifies this`identities, this`nextId
      ensures Valid()
      ensures id == IdOf(old(identities), old(nextId), rec.key)
      ensures identities == Upserted(old(identities), old(nextId), rec, seen)
      ensures nextId == if Known(old(identities), rec.key) then old(nextId) else old(nextId) + 1
    {
      UpsertKeepsRegistry(identities, nextId, rec, seen);
      OwnedLater(View(), identities, Upserted(identities, nextId, rec, seen));
      if existing :| existing in identities && identities[existing].record.key == rec.key {
        id := existing;
        assert id == IdOf(identities, nextId, rec.key);
        identities := identities[id := Identity(rec, identities[id].firstSeen, seen)];
      } else {
        id := nextId;
        identities := identities[id := Identity(rec, seen, seen)];
        nextId := nextId + 1;
      }
    }

    /** Add to a row of the minute table, or start it. The foreign key refuses a
        row for an identity that does not exist, and then nothing changes. */
    method RecordMinute(bucket: int, flow: Flow, bytes: Bytes) returns (ok: bool)
      requires Valid()
      modifies this`minute
      ensures Valid()
      ensures ok == (flow.identity in identities)
      ensures minute == if ok then Accumulate(old(minute), Key(bucket, flow), bytes) else old(minute)
    {
      ok := flow.identity in identities;
      if ok {
        var key := Key(bucket, flow);
        RecordedOwned(View(), identities, key, bytes);
        if key in minute {
          minute := minute[key := AddBytes(minute[key], bytes)];
        } else {
          minute := minute[key := bytes];
        }
      }
    }

    /** One transaction of the job, if there is one to make. */
    method RollNextBucket(tier: Tier, now: int) returns (moved: bool)
      requires Valid() && tier != Minute
      modifies this`hour, this`day, this`month, this`hourMark, this`dayMark, this`monthMark
      ensures Valid()
      ensures moved == RollupNext(Grid(), old(View()), tier, now).Some?
      ensures View() == if moved then RollupNext(Grid(), old(View()), tier, now).value else old(View())
    {
      ghost var db := View();
      NextDefined(Grid(), db, tier, now);
      hide RollupNext, RollInto, Owned, RegistryOk, Moved, NextBucket, LowerBound;
      var watermark := Watermark(tier);
      var next := ClosedBucket(tier, watermark, now);
      if next.None? {
        return false;
      }
      RolledOwned(Grid(), db, tier, now, identities);
      Commit(tier, next.value.start, LowerBound(watermark, next.value.start), next.value.end);
      moved := true;
    }

    /** The bucket that is next to move, if its time has come. */
    method ClosedBucket(tier: Tier, watermark: Option<int>, now: int) returns (next: Option<Bucket>)
      requires tier != Minute && watermark == Mark(View(), tier)
      ensures next == NextBucket(Grid(), View(), tier, now)
    {
      UnrolledFrom(View(), tier);
      hide OldestIn, Bounds, Unrolled;
      var oldest := OldestFrom(Source(tier), if watermark.Some? then watermark.value else 0);
      if oldest.None? {
        return None;
      }
      var bucket := Bounds(zone, tier, oldest.value);
      next := if bucket.end + GRACE > now then None else Some(bucket);
    }

    method Watermark(tier: Tier) returns (mark: Option<int>)
      ensures mark == Mark(View(), tier)
    {
      mark := match tier case Minute => None case Hour => hourMark case Day => dayMark case Month => monthMark;
    }

    /** `SELECT min(bucket) FROM tier WHERE bucket >= from`. */
    method OldestFrom(tier: Tier, from: int) returns (oldest: Option<int>)
      ensures oldest == OldestIn(Rows(View(), tier), from)
    {
      var rows := match tier case Minute => minute case Hour => hour case Day => day case Month => month;
      oldest := OldestIn(rows, from);
    }

    /** `BEGIN; INSERT INTO tier ..; INSERT INTO rollup_watermark ..; COMMIT`. */
    method Commit(tier: Tier, start: int, lower: int, end: int)
      requires tier != Minute
      modifies this`hour, this`day, this`month, this`hourMark, this`dayMark, this`monthMark
      ensures View() == Moved(old(View()), tier,
                              RollInto(Rows(old(View()), tier), Rows(old(View()), Source(tier)), start, lower, end),
                              end)
    {
      hide RollInto;
      if tier == Hour {
        hour, hourMark := RollInto(hour, minute, start, lower, end), Some(end);
      } else if tier == Day {
        day, dayMark := RollInto(day, minute, start, lower, end), Some(end);
      } else {
        month, monthMark := RollInto(month, day, start, lower, end), Some(end);
      }
    }

    /** `while rollup_next {}`, one statement of `budget` a call: a statement
        past it fails, and the run with it. */
    method RollTier(tier: Tier, now: int, budget: nat) returns (left: nat, ok: bool)
      requires Valid() && tier != Minute && Ends(Grid(), tier)
      modifies this`hour, this`day, this`month, this`hourMark, this`dayMark, this`monthMark
      ensures Valid() && left <= budget && (!ok ==> left == 0)
      ensures Run(Grid(), retention, now, old(View()), Rolling(tier), budget - left)
           == (View(), if ok then AfterTier(tier) else Rolling(tier))
    {
      hide RollupNext, Owned, Contains, RegistryOk, Unrolled;
      left, ok := budget, false;
      var moved := true;
      while moved && left > 0
        invariant Valid() && left <= budget
        invariant Run(Grid(), retention, now, old(View()), Rolling(tier), budget - left)
               == (View(), if moved then Rolling(tier) else AfterTier(tier))
        decreases moved, Unrolled(View(), tier)
      {
        ghost var before := View();
        RunJoin(Grid(), retention, now, old(View()), Rolling(tier), budget - left, 1);
        moved := RollNextBucket(tier, now);
        if moved {
          RollupProgress(Grid(), before, tier, now);
        }
        OneStep(Grid(), retention, now, before, Rolling(tier));
        left := left - 1;
      }
      ok := !moved;
      if !ok {
        left := 0;
      }
    }

    /** One of the three deletes, unless `budget` has run out. */
    method PruneTier(tier: Tier, now: int, budget: nat) returns (left: nat, ok: bool)
      requires Valid() && tier != Month
      modifies this`minute, this`hour, this`day
      ensures Valid() && left <= budget && (!ok ==> left == 0)
      ensures Run(Grid(), retention, now, old(View()), Pruning(tier), budget - left)
           == (View(), if !ok then Pruning(tier) else if tier == Minute then Pruning(Hour)
                       else if tier == Hour then Pruning(Day) else Done)
    {
      if budget == 0 {
        return 0, false;
      }
      OneStep(Grid(), retention, now, View(), Pruning(tier));
      if tier == Minute {
        if hourMark.Some? && dayMark.Some? {
          minute := DropBefore(minute, Lesser(Lesser(now - retention.minute, hourMark.value), dayMark.value));
        }
      } else if tier == Hour {
        hour := DropBefore(hour, now - retention.hour);
      } else if monthMark.Some? {
        day := DropBefore(day, Lesser(now - retention.day, monthMark.value));
      }
      assert Owned(View(), identities) by { PrunedOwned(retention, old(View()), now, identities); }
      left, ok := budget - 1, true;
    }

    /** A run of the job: tier by tier, then pruning. It ends early when a
        statement fails, here the one after `budget` others, and leaves exactly
        what the statements before it did. */
    method RollUp(now: int, budget: nat) returns (done: bool)
      requires Valid() && forall tier :: tier != Minute ==> Ends(Grid(), tier)
      modifies this`minute, this`hour, this`day, this`month, this`hourMark, this`dayMark, this`monthMark
      ensures Valid()
      ensures View() == Run(Grid(), retention, now, old(View()), FIRST, budget).0
      ensures done == (Run(Grid(), retention, now, old(View()), FIRST, budget).1 == Done)
    {
      hide Run, Owned, Contains, RegistryOk;
      assert Run(Grid(), retention, now, View(), FIRST, 0)
          == (View(), FIRST) by { NoStep(Grid(), retention, now, View(), FIRST); }
      ghost var phase := FIRST;
      var left: nat := budget;
      var ok := true;
      var tier := Hour;
      while true
        invariant Valid() && left <= budget && tier != Minute && phase == Rolling(tier)
        invariant Run(Grid(), retention, now, old(View()), FIRST, budget - left) == (View(), phase)
        decreases match tier case Hour => 2 case Day => 1 case _ => 0
      {
        ghost var spent := budget - left;
        ghost var before := View();
        left, ok := RollTier(tier, now, left);
        RunJoin(Grid(), retention, now, old(View()), FIRST, spent, budget - left - spent);
        if !ok {
          return false;
        }
        phase := AfterTier(tier);
        if tier == Month {
          break;
        }
        tier := if tier == Hour then Day else Month;
      }
      tier := Minute;
      while true
        invariant Valid() && left <= budget && tier != Month && phase == Pruning(tier)
        invariant Run(Grid(), retention, now, old(View()), FIRST, budget - left) == (View(), phase)
        decreases match tier case Minute => 2 case Hour => 1 case _ => 0
      {
        ghost var spent := budget - left;
        left, ok := PruneTier(tier, now, left);
        RunJoin(Grid(), retention, now, old(View()), FIRST, spent, budget - left - spent);
        if !ok {
          return false;
        }
        if tier == Day {
          break;
        }
        tier := if tier == Minute then Hour else Day;
        phase := Pruning(tier);
      }
      RunJoin(Grid(), retention, now, old(View()), FIRST, budget - left, left);
      DoneStays(Grid(), retention, now, View(), left);
      done := true;
    }
  }

  function AfterTier(tier: Tier): Phase
    requires tier != Minute
  {
    match tier case Hour => Rolling(Day) case Day => Rolling(Month) case _ => Pruning(Minute)
  }

  function OldestIn(rows: Table, from: int): Option<int> {
    var buckets := set k | k in rows && from <= k.bucket :: k.bucket;
    if buckets == {} then None else Some(Min(buckets))
  }

  lemma UnrolledFrom(db: Db, tier: Tier)
    ensures OldestIn(Rows(db, Source(tier)), Through(db, tier))
         == if Unrolled(db, tier) == {} then None else Some(Min(Unrolled(db, tier)))
  {
    assert Unrolled(db, tier)
        == set k | k in Rows(db, Source(tier)) && Through(db, tier) <= k.bucket :: k.bucket;
  }

  lemma NoStep(g: Grid, r: Retention, now: int, db: Db, phase: Phase)
    ensures Run(g, r, now, db, phase, 0) == (db, phase)
  {
  }

  function NextBucket(g: Grid, db: Db, tier: Tier, now: int): Option<Bucket>
    requires tier != Minute
  {
    if Unrolled(db, tier) == {} then None
    else
      var bucket := g(tier, Min(Unrolled(db, tier)));
      if bucket.end + GRACE > now then None else Some(bucket)
  }

  /** Where a move starts reading: never below the watermark, so that no source
      row is moved a second time. */
  function LowerBound(watermark: Option<int>, start: int): int {
    if watermark.Some? && start < watermark.value then watermark.value else start
  }

  lemma NextDefined(g: Grid, db: Db, tier: Tier, now: int)
    requires tier != Minute
    ensures RollupNext(g, db, tier, now)
         == match NextBucket(g, db, tier, now)
            case None => None
            case Some(bucket) =>
              Some(Moved(db, tier,
                         RollInto(Rows(db, tier), Rows(db, Source(tier)), bucket.start,
                                  LowerBound(Mark(db, tier), bucket.start), bucket.end),
                         bucket.end))
  {
  }

  lemma OneStep(g: Grid, r: Retention, now: int, db: Db, phase: Phase)
    ensures Run(g, r, now, db, phase, 1) == Step(g, r, now, db, phase)
  {
    var next := Step(g, r, now, db, phase);
    assert Run(g, r, now, next.0, next.1, 0) == next;
  }

  /** Every counter row's identity exists. */
  ghost predicate Owned(db: Db, ids: Registry) {
    forall tier, k :: k in Rows(db, tier) ==> k.flow.identity in ids
  }

  lemma OwnedLater(db: Db, ids: Registry, ids': Registry)
    requires Owned(db, ids) && ids.Keys <= ids'.Keys
    ensures Owned(db, ids')
  {
  }

  lemma RecordedOwned(db: Db, ids: Registry, key: Key, bytes: Bytes)
    requires Owned(db, ids) && key.flow.identity in ids
    ensures Owned(db.(minute := Accumulate(db.minute, key, bytes)), ids)
  {
    var db' := db.(minute := Accumulate(db.minute, key, bytes));
    assert forall tier :: tier != Minute ==> Rows(db', tier) == Rows(db, tier);
    assert Rows(db', Minute).Keys == Rows(db, Minute).Keys + {key};
  }

  /** Rolling up invents no identity. */
  lemma RolledOwned(g: Grid, db: Db, tier: Tier, now: int, ids: Registry)
    requires Owned(db, ids) && tier != Minute && RollupNext(g, db, tier, now).Some?
    ensures Owned(RollupNext(g, db, tier, now).value, ids)
  {
    var db' := RollupNext(g, db, tier, now).value;
    var bucket := g(tier, Min(Unrolled(db, tier)));
    var mark := Mark(db, tier);
    var lower := if mark.Some? && bucket.start < mark.value then mark.value else bucket.start;
    var src := Rows(db, Source(tier));
    var rolled := RollInto(Rows(db, tier), src, bucket.start, lower, bucket.end);
    assert db' == Moved(db, tier, rolled, bucket.end);
    hide RollupNext;
    forall k | k in rolled
      ensures k.flow.identity in ids
    {
      assert k == Key(k.bucket, k.flow) && At(rolled, k.bucket, k.flow) != Absent;
      if k !in Rows(db, tier) {
        var b := TotalWitness(src, k.flow, lower, bucket.end);
        assert Key(b, k.flow) in src;
      }
    }
    forall other
      ensures Rows(db', other) == if other == tier then rolled else Rows(db, other)
    {
    }
  }

  lemma DropBeforeKeys(t: Table, b: int)
    ensures DropBefore(t, b).Keys <= t.Keys
  {
    forall k | k in DropBefore(t, b)
      ensures k in t
    {
      assert k == Key(k.bucket, k.flow) && At(DropBefore(t, b), k.bucket, k.flow) != Absent;
    }
  }

  lemma PrunedOwned(r: Retention, db: Db, now: int, ids: Registry)
    requires Owned(db, ids)
    ensures Owned(PruneMinute(r, db, now), ids) && Owned(PruneHour(r, db, now), ids) && Owned(PruneDay(r, db, now), ids)
  {
    DropBeforeKeys(db.hour, now - r.hour);
    if db.hourMark.Some? && db.dayMark.Some? {
      DropBeforeKeys(db.minute, Lesser(Lesser(now - r.minute, db.hourMark.value), db.dayMark.value));
    }
    if db.monthMark.Some? {
      DropBeforeKeys(db.day, Lesser(now - r.day, db.monthMark.value));
    }
    hide DropBefore;
    var m, h, d := PruneMinute(r, db, now), PruneHour(r, db, now), PruneDay(r, db, now);
    SubsetOwned(db, m, ids);
    SubsetOwned(db, h, ids);
    SubsetOwned(db, d, ids);
  }

  lemma SubsetOwned(db: Db, db': Db, ids: Registry)
    requires Owned(db, ids)
    requires db'.minute.Keys <= db.minute.Keys && db'.hour.Keys <= db.hour.Keys
    requires db'.day.Keys <= db.day.Keys && db'.month.Keys <= db.month.Keys
    ensures Owned(db', ids)
  {
    forall tier, k | k in Rows(db', tier)
      ensures k.flow.identity in ids
    {
      assert k in Rows(db, tier);
    }
  }
}
