/** The read verbs over the store: `series` folds one identity's rows into
    buckets, `top` groups and ranks everyone's, each under its caller's
    visibility. */
module Query {
  import opened Counters
  import opened Zones
  import opened Rollup
  import opened Invariant
  import opened History
  import opened Stitch
  import opened Ranking

  datatype FactRow = FactRow(key: Key, bytes: Bytes)

  // ---- What a SELECT may return

  /** The rows of `t` with buckets in `[lo, hi)`, once each, in some order. */
  ghost predicate Enumerates(rows: seq<FactRow>, t: Table, lo: int, hi: int) {
    && (forall i :: 0 <= i < |rows| ==>
          rows[i].key in t && lo <= rows[i].key.bucket < hi && rows[i].bytes == t[rows[i].key])
    && (forall i, j :: 0 <= i < j < |rows| ==> rows[i].key != rows[j].key)
    && (forall k :: k in t && lo <= k.bucket < hi ==> exists i :: 0 <= i < |rows| && rows[i].key == k)
  }

  function Flatten(parts: seq<seq<FactRow>>): seq<FactRow> {
    if parts == [] then [] else Flatten(parts[..|parts| - 1]) + parts[|parts| - 1]
  }

  /** A `UNION ALL` of the pieces, in whatever order the database returns it. */
  ghost predicate UnionOf(rows: seq<FactRow>, parts: seq<seq<FactRow>>, db: Db, ps: seq<Piece>, from: int, to: int) {
    && |parts| == |ps|
    && (forall i :: 0 <= i < |ps| ==>
          Enumerates(parts[i], Rows(db, ps[i].source), Greater(from, ps[i].lower), to))
    && multiset(rows) == multiset(Flatten(parts))
  }

  ghost predicate Delivered(rows: seq<FactRow>, db: Db, tier: Tier, from: int, to: int) {
    exists parts :: UnionOf(rows, parts, db, Pieces(db, tier), from, to)
  }

  /** The sum of a flow's rows with buckets in `[lo, hi)`. */
  function RowSum(rows: seq<FactRow>, f: Flow, lo: int, hi: int): Cell {
    if rows == [] then Absent
    else Plus(RowSum(rows[..|rows| - 1], f, lo, hi), Counted(rows[|rows| - 1], f, lo, hi))
  }

  function Counted(row: FactRow, f: Flow, lo: int, hi: int): Cell {
    if row.key.flow == f && lo <= row.key.bucket < hi then Row(row.bytes) else Absent
  }

  lemma {:induction false} RowSumConcat(a: seq<FactRow>, b: seq<FactRow>, f: Flow, lo: int, hi: int)
    ensures RowSum(a + b, f, lo, hi) == Plus(RowSum(a, f, lo, hi), RowSum(b, f, lo, hi))
    decreases |b|
  {
    if b == [] {
      assert a + b == a;
    } else {
      assert (a + b)[..|a + b| - 1] == a + b[..|b| - 1];
      RowSumConcat(a, b[..|b| - 1], f, lo, hi);
    }
  }

  lemma RowSumRemove(rows: seq<FactRow>, i: nat, f: Flow, lo: int, hi: int)
    requires i < |rows|
    ensures RowSum(rows, f, lo, hi)
         == Plus(RowSum(rows[..i] + rows[i + 1..], f, lo, hi), Counted(rows[i], f, lo, hi))
  {
    assert rows == rows[..i] + ([rows[i]] + rows[i + 1..]);
    RowSumConcat(rows[..i], [rows[i]] + rows[i + 1..], f, lo, hi);
    RowSumConcat([rows[i]], rows[i + 1..], f, lo, hi);
    RowSumConcat(rows[..i], rows[i + 1..], f, lo, hi);
    assert [rows[i]][..0] == [];
    assert RowSum([], f, lo, hi) == Absent;
  }

  /** Sums do not depend on the order rows arrive in. */
  lemma {:induction false} RowSumOrder(a: seq<FactRow>, b: seq<FactRow>, f: Flow, lo: int, hi: int)
    requires multiset(a) == multiset(b)
    ensures RowSum(a, f, lo, hi) == RowSum(b, f, lo, hi)
    decreases |a|
  {
    assert |a| == |multiset(a)| == |multiset(b)| == |b|;
    if a != [] {
      var rest, last := a[..|a| - 1], a[|a| - 1];
      assert a == rest + [last];
      assert last in multiset(b);
      var i :| 0 <= i < |b| && b[i] == last;
      var b' := b[..i] + b[i + 1..];
      assert b == b[..i] + [b[i]] + b[i + 1..];
      assert multiset(b') == multiset(b) - multiset{last};
      RowSumOrder(rest, b', f, lo, hi);
      RowSumRemove(b, i, f, lo, hi);
    }
  }

  lemma {:induction false} TotalRemove(t: Table, k: Key, f: Flow, lo: int, hi: int)
    requires k in t
    ensures Total(t, f, lo, hi)
         == if f == k.flow && lo <= k.bucket < hi then Plus(Total(t - {k}, f, lo, hi), Row(t[k]))
            else Total(t - {k}, f, lo, hi)
    decreases hi - lo
  {
    if lo < hi {
      TotalRemove(t, k, f, lo, hi - 1);
    }
  }

  lemma {:induction false} EnumeratedSum(rows: seq<FactRow>, t: Table, from: int, to: int, f: Flow, lo: int, hi: int)
    requires Enumerates(rows, t, from, to)
    ensures RowSum(rows, f, lo, hi) == Total(t, f, Greater(from, lo), Lesser(to, hi))
    decreases |rows|
  {
    if rows == [] {
      forall b | Greater(from, lo) <= b < Lesser(to, hi)
        ensures At(t, b, f) == Absent
      {
        assert Key(b, f) in t ==> Key(b, f).bucket == b;
      }
      TotalNone(t, f, Greater(from, lo), Lesser(to, hi));
    } else {
      var rest, last := rows[..|rows| - 1], rows[|rows| - 1];
      EnumeratesRest(rows, t, from, to);
      EnumeratedSum(rest, t - {last.key}, from, to, f, lo, hi);
      TotalRemove(t, last.key, f, Greater(from, lo), Lesser(to, hi));
    }
  }

  lemma EnumeratesRest(rows: seq<FactRow>, t: Table, from: int, to: int)
    requires Enumerates(rows, t, from, to) && rows != []
    ensures Enumerates(rows[..|rows| - 1], t - {rows[|rows| - 1].key}, from, to)
  {
    var rest, last := rows[..|rows| - 1], rows[|rows| - 1];
    forall k | k in t - {last.key} && from <= k.bucket < to
      ensures exists i :: 0 <= i < |rest| && rest[i].key == k
    {
      var i :| 0 <= i < |rows| && rows[i].key == k;
      assert rest[i].key == k;
    }
  }

  lemma {:induction false} UnionSum(parts: seq<seq<FactRow>>, db: Db, ps: seq<Piece>, from: int, to: int, f: Flow,
                                    lo: int, hi: int)
    requires |parts| == |ps|
    requires forall i :: 0 <= i < |ps| ==>
      Enumerates(parts[i], Rows(db, ps[i].source), Greater(from, ps[i].lower), to)
    ensures RowSum(Flatten(parts), f, lo, hi) == PiecesTotal(db, ps, f, Greater(from, lo), Lesser(to, hi))
    decreases |ps|
  {
    if ps != [] {
      var p := ps[|ps| - 1];
      UnionSum(parts[..|ps| - 1], db, ps[..|ps| - 1], from, to, f, lo, hi);
      EnumeratedSum(parts[|ps| - 1], Rows(db, p.source), Greater(from, p.lower), to, f, lo, hi);
      RowSumConcat(Flatten(parts[..|ps| - 1]), parts[|ps| - 1], f, lo, hi);
    }
  }

  /** Whatever order the rows arrive in, they add up to the stitched read. */
  lemma DeliveredSum(rows: seq<FactRow>, db: Db, tier: Tier, from: int, to: int, f: Flow, lo: int, hi: int)
    requires Delivered(rows, db, tier, from, to)
    ensures RowSum(rows, f, lo, hi) == Stitched(db, tier, f, Greater(from, lo), Lesser(to, hi))
  {
    var parts :| UnionOf(rows, parts, db, Pieces(db, tier), from, to);
    UnionSum(parts, db, Pieces(db, tier), from, to, f, lo, hi);
    RowSumOrder(rows, Flatten(parts), f, lo, hi);
  }

  // ---- Scope and identity

  /** The scope a request names; an unspecified one means external. */
  datatype ScopeFilter = AnyScope | Only(scope: Scope)

  predicate Wanted(want: ScopeFilter, have: Scope) {
    want == AnyScope || want == Only(have)
  }

  // ---- series

  /** The counter a row adds to: its bucket's start takes the place of an id. */
  function BucketKey(g: Grid, tier: Tier, row: FactRow): SumKey {
    SumKey(Start(g, tier, row.key.bucket), "", row.key.flow.scope)
  }

  /** One identity's rows as counters, in the order they came. */
  function SeriesEntries(g: Grid, tier: Tier, id: int, want: ScopeFilter, rows: seq<FactRow>): seq<Entry> {
    if rows == [] then []
    else
      var row := rows[|rows| - 1];
      SeriesEntries(g, tier, id, want, rows[..|rows| - 1])
      + if row.key.flow.identity == id && Wanted(want, row.key.flow.scope)
        then [Entry(BucketKey(g, tier, row), row.bytes)] else []
  }

  /** What one row contributes to the sum under `k`. */
  function RowUnder(g: Grid, tier: Tier, id: int, want: ScopeFilter, row: FactRow, k: SumKey): Cell {
    if row.key.flow.identity == id && Wanted(want, row.key.flow.scope) && BucketKey(g, tier, row) == k
    then Row(row.bytes) else Absent
  }

  lemma SeriesStep(g: Grid, tier: Tier, id: int, want: ScopeFilter, rest: seq<FactRow>, row: FactRow, k: SumKey)
    ensures var before := SeriesEntries(g, tier, id, want, rest);
            var after := SeriesEntries(g, tier, id, want, rest + [row]);
      && SumOf(after, k) == Plus(SumOf(before, k), RowUnder(g, tier, id, want, row, k))
      && Aggregate(after)
         == if row.key.flow.identity == id && Wanted(want, row.key.flow.scope)
            then Upsert(Aggregate(before), BucketKey(g, tier, row), row.bytes) else Aggregate(before)
  {
    assert (rest + [row])[..|rest|] == rest;
    var before := SeriesEntries(g, tier, id, want, rest);
    var e := Entry(BucketKey(g, tier, row), row.bytes);
    assert (before + [e])[..|before|] == before;
    assert before + [] == before;
  }

  /** Fold rows from whatever tier into `tier` buckets: in bucket order, each
      bucket and scope once, holding the sum of the rows that lie in it. */
  method Series(z: Zone, tier: Tier, id: int, want: ScopeFilter, rows: seq<FactRow>) returns (buckets: seq<Entry>)
    ensures buckets == Aggregate(SeriesEntries(GridOf(z), tier, id, want, rows))
    ensures KeySorted(buckets)
    ensures Partitions(GridOf(z), tier) ==> forall k ::
      SumOf(buckets, k)
      == if k.group == "" && Edge(GridOf(z), tier, k.id) && Wanted(want, k.scope)
         then RowSum(rows, Flow(id, k.scope), k.id, End(GridOf(z), tier, k.id)) else Absent
  {
    hide *;
    buckets := FoldRows(z, tier, id, want, rows);
    SeriesBuckets(GridOf(z), tier, id, want, rows);
  }

  method FoldRows(z: Zone, tier: Tier, id: int, want: ScopeFilter, rows: seq<FactRow>) returns (buckets: seq<Entry>)
    ensures buckets == Aggregate(SeriesEntries(GridOf(z), tier, id, want, rows))
  {
    buckets := [];
    var i := 0;
    NoSeries(GridOf(z), tier, id, want);
    assert rows[..0] == [];
    hide *;
    while i < |rows|
      invariant 0 <= i <= |rows|
      invariant buckets == Aggregate(SeriesEntries(GridOf(z), tier, id, want, rows[..i]))
    {
      var row := rows[i];
      FoldStep(z, tier, id, want, rows, i);
      if row.key.flow.identity == id && Wanted(want, row.key.flow.scope) {
        var start := Bounds(z, tier, row.key.bucket).start;
        buckets := Upsert(buckets, SumKey(start, "", row.key.flow.scope), row.bytes);
      }
      i := i + 1;
    }
    assert rows[..i] == rows;
  }

  lemma FoldStep(z: Zone, tier: Tier, id: int, want: ScopeFilter, rows: seq<FactRow>, i: nat)
    requires i < |rows|
    ensures var row := rows[i];
            var before := Aggregate(SeriesEntries(GridOf(z), tier, id, want, rows[..i]));
      Aggregate(SeriesEntries(GridOf(z), tier, id, want, rows[..i + 1]))
      == if row.key.flow.identity == id && Wanted(want, row.key.flow.scope)
         then Upsert(before, SumKey(Bounds(z, tier, row.key.bucket).start, "", row.key.flow.scope), row.bytes)
         else before
  {
    hide *;
    BucketKeyIs(z, tier, rows[i]);
    SeriesStep(GridOf(z), tier, id, want, rows[..i], rows[i], SumKey(0, "", External));
    assert rows[..i + 1] == rows[..i] + [rows[i]];
  }

  lemma NoSeries(g: Grid, tier: Tier, id: int, want: ScopeFilter)
    ensures Aggregate(SeriesEntries(g, tier, id, want, [])) == []
  {
  }

  lemma BucketKeyIs(z: Zone, tier: Tier, row: FactRow)
    ensures BucketKey(GridOf(z), tier, row) == SumKey(Bounds(z, tier, row.key.bucket).start, "", row.key.flow.scope)
  {
  }

  lemma SeriesBuckets(g: Grid, tier: Tier, id: int, want: ScopeFilter, rows: seq<FactRow>)
    ensures KeySorted(Aggregate(SeriesEntries(g, tier, id, want, rows)))
    ensures Partitions(g, tier) ==> forall k ::
      SumOf(Aggregate(SeriesEntries(g, tier, id, want, rows)), k)
      == if k.group == "" && Edge(g, tier, k.id) && Wanted(want, k.scope)
         then RowSum(rows, Flow(id, k.scope), k.id, End(g, tier, k.id)) else Absent
  {
    var entries := SeriesEntries(g, tier, id, want, rows);
    hide *;
    AggregateSums(entries, SumKey(0, "", External));
    if Partitions(g, tier) {
      forall k
        ensures SumOf(Aggregate(entries), k)
             == if k.group == "" && Edge(g, tier, k.id) && Wanted(want, k.scope)
                then RowSum(rows, Flow(id, k.scope), k.id, End(g, tier, k.id)) else Absent
      {
        AggregateSums(entries, k);
        SeriesSum(g, tier, id, want, rows, k);
      }
    }
  }

  lemma {:induction false} SeriesSum(g: Grid, tier: Tier, id: int, want: ScopeFilter, rows: seq<FactRow>, k: SumKey)
    requires Partitions(g, tier)
    ensures SumOf(SeriesEntries(g, tier, id, want, rows), k)
         == if k.group == "" && Edge(g, tier, k.id) && Wanted(want, k.scope)
            then RowSum(rows, Flow(id, k.scope), k.id, End(g, tier, k.id)) else Absent
    decreases |rows|
  {
    if rows != [] {
      var rest, row := rows[..|rows| - 1], rows[|rows| - 1];
      SeriesSum(g, tier, id, want, rest, k);
      assert rows == rest + [row];
      SeriesStep(g, tier, id, want, rest, row, k);
      hide SeriesEntries, SumOf;
      RowUnderCounted(g, tier, id, want, row, k);
    }
  }

  lemma RowUnderCounted(g: Grid, tier: Tier, id: int, want: ScopeFilter, row: FactRow, k: SumKey)
    requires Partitions(g, tier)
    ensures RowUnder(g, tier, id, want, row, k)
         == if k.group == "" && Edge(g, tier, k.id) && Wanted(want, k.scope)
            then Counted(row, Flow(id, k.scope), k.id, End(g, tier, k.id)) else Absent
  {
    StartIsEdge(g, tier, row.key.bucket);
    if Edge(g, tier, k.id) {
      InBucket(g, tier, k.id, row.key.bucket);
    }
  }

  /** A row falls into the bucket starting at `s` exactly when it lies in it. */
  lemma InBucket(g: Grid, tier: Tier, s: int, b: int)
    requires Partitions(g, tier) && Edge(g, tier, s)
    ensures Start(g, tier, b) == s <==> s <= b < End(g, tier, s)
  {
    StartIsEdge(g, tier, b);
    assert Start(g, tier, s) <= b < End(g, tier, s) ==> g(tier, b) == g(tier, s);
  }

  /** `series` is the direct fold of the recorded minutes into calendar buckets:
      one row per scope and bucket of the window in which anything was recorded,
      holding exactly that, in bucket order. */
  lemma SeriesIsDirectFold(g: Grid, r: Retention, es: seq<Event>, now: int, tier: Tier, id: int, want: ScopeFilter,
                           from: int, to: int, rows: seq<FactRow>, k: SumKey)
    requires Lawful(g) && Timely(g, es) && By(es, now)
    requires Edge(g, tier, from) && Edge(g, tier, to) && from <= to
    requires Retained(r, tier, from, now)
    requires Delivered(rows, After(g, r, es), tier, from, to)
    ensures KeySorted(Aggregate(SeriesEntries(g, tier, id, want, rows)))
    ensures SumOf(Aggregate(SeriesEntries(g, tier, id, want, rows)), k)
         == if k.group == "" && Edge(g, tier, k.id) && from <= k.id < to && Wanted(want, k.scope)
            then Total(Log(es), Flow(id, k.scope), k.id, End(g, tier, k.id)) else Absent
  {
    var db := After(g, r, es);
    var f := Flow(id, k.scope);
    assert Partitions(g, tier);
    AggregateSums(SeriesEntries(g, tier, id, want, rows), k);
    SeriesSum(g, tier, id, want, rows, k);
    if k.group == "" && Edge(g, tier, k.id) && Wanted(want, k.scope) {
      var end := End(g, tier, k.id);
      DeliveredSum(rows, db, tier, from, to, f, k.id, end);
      EdgeSeparates(g, tier, to, k.id);
      EdgeSeparates(g, tier, from, k.id);
      EndIsEdge(g, tier, k.id);
      if from <= k.id < to {
        RetainedLater(r, tier, from, k.id, now);
        ReadsAreExact(g, r, es, now, tier, f, k.id, end);
      } else {
        StitchedEmpty(db, tier, f, Greater(from, k.id), Lesser(to, end));
      }
    }
  }

  lemma RetainedLater(r: Retention, tier: Tier, from: int, later: int, now: int)
    requires Retained(r, tier, from, now) && from <= later
    ensures Retained(r, tier, later, now)
  {
  }

  lemma StitchedEmpty(db: Db, tier: Tier, f: Flow, lo: int, hi: int)
    requires hi <= lo
    ensures Stitched(db, tier, f, lo, hi) == Absent
  {
    PiecesNone(db, Pieces(db, tier), f, lo, hi);
  }

  /** So `series` answers the same before and after any rollup run. */
  lemma SeriesInvisible(g: Grid, r: Retention, es: seq<Event>, now: int, steps: nat, tier: Tier, id: int,
                        want: ScopeFilter,
                        from: int, to: int, rows: seq<FactRow>, rows': seq<FactRow>)
    requires Lawful(g) && Timely(g, es) && By(es, now)
    requires Edge(g, tier, from) && Edge(g, tier, to) && from <= to
    requires Retained(r, tier, from, now)
    requires Delivered(rows, After(g, r, es), tier, from, to)
    requires Delivered(rows', After(g, r, es + [Ran(now, steps)]), tier, from, to)
    ensures Aggregate(SeriesEntries(g, tier, id, want, rows)) == Aggregate(SeriesEntries(g, tier, id, want, rows'))
  {
    var es' := es + [Ran(now, steps)];
    assert es'[..|es'| - 1] == es;
    forall k
      ensures SumOf(Aggregate(SeriesEntries(g, tier, id, want, rows)), k)
           == SumOf(Aggregate(SeriesEntries(g, tier, id, want, rows')), k)
    {
      SeriesIsDirectFold(g, r, es, now, tier, id, want, from, to, rows, k);
      SeriesIsDirectFold(g, r, es', now, tier, id, want, from, to, rows', k);
    }
    AggregateSums(SeriesEntries(g, tier, id, want, rows), SumKey(0, "", External));
    AggregateSums(SeriesEntries(g, tier, id, want, rows'), SumKey(0, "", External));
    SumsDetermine(Aggregate(SeriesEntries(g, tier, id, want, rows)),
                  Aggregate(SeriesEntries(g, tier, id, want, rows')));
  }
}
