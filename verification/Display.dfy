/** What the client's table shows: which rows, in which order, adding up to what,
    and how far that is determined. */
module Display {
  import opened Counters
  import opened Identities
  import opened Ranking
  import opened Trends
  import opened Screen
  import opened Roster

  /** Whether the text filter lets a row through, by its key and whom it holds. */
  type Filter = (string, set<int>) -> bool

  /** Once a group's members are all in, they are counted and their list is sorted. */
  function Finished(grouping: GroupBy, sort: Direction, row: TableRow): TableRow {
    if Grouped(grouping) then row.(third := CountText(|row.members|), listed := Sorted(sort, row.listed)) else row
  }

  ghost predicate RowShown(identities: map<int, Identity>, measures: map<int, Measure>, grouping: GroupBy, look: Look,
                           sort: Direction, row: TableRow) {
    && RowOver(identities, measures, grouping, look, Identified(identities, measures), row)
    && (Grouped(grouping) ==> row.third == CountText(|row.members|) && InOrder(sort, row.listed))
  }

  lemma FinishedIsShown(identities: map<int, Identity>, measures: map<int, Measure>, grouping: GroupBy, look: Look,
                        sort: Direction, row: TableRow)
    requires RowOver(identities, measures, grouping, look, Identified(identities, measures), row)
    ensures RowShown(identities, measures, grouping, look, sort, Finished(grouping, sort, row))
    ensures Finished(grouping, sort, row).key == row.key && Finished(grouping, sort, row).members == row.members
  {
    hide GroupKey, GroupName, GroupSecond, UserText, ShortName, InOrder, Sorted;
    var row' := Finished(grouping, sort, row);
    SortedInOrder(sort, row.listed);
    assert forall id :: id in row.members ==> Describes(id, identities[id], grouping, row');
  }

  /** The keys whose rows the filter lets through. */
  function KeysThrough(identities: map<int, Identity>, measures: map<int, Measure>, grouping: GroupBy,
                       hit: Filter): set<string> {
    var ids := Identified(identities, measures);
    set k | k in KeysOf(identities, grouping, ids) && hit(k, Members(identities, grouping, ids, k))
  }

  /** Ranked, with one row for each key the filter lets through. */
  ghost predicate Shows(identities: map<int, Identity>, measures: map<int, Measure>, grouping: GroupBy, look: Look,
                        sort: Direction, hit: Filter, rows: seq<TableRow>) {
    && RowsSorted(sort, rows) && KeysDiffer(rows)
    && (forall r :: r in rows ==> RowShown(identities, measures, grouping, look, sort, r))
    && KeysIn(rows) == KeysThrough(identities, measures, grouping, hit)
  }

  function SumOfRows(rows: seq<TableRow>): Measure {
    if rows == [] then NOTHING else AddMeasure(SumOfRows(rows[..|rows| - 1]), rows[|rows| - 1].measure)
  }

  function MembersOf(rows: seq<TableRow>): set<int> {
    if rows == [] then {} else MembersOf(rows[..|rows| - 1]) + rows[|rows| - 1].members
  }

  function KeysIn(rows: seq<TableRow>): set<string> {
    set r | r in rows :: r.key
  }

  lemma {:induction false} MembersByKey(identities: map<int, Identity>, measures: map<int, Measure>, grouping: GroupBy,
                                        look: Look, ids: set<int>, rows: seq<TableRow>)
    requires ids <= Identified(identities, measures)
    requires forall r :: r in rows ==> RowOver(identities, measures, grouping, look, ids, r)
    ensures MembersOf(rows) == set id | id in ids && GroupKey(id, identities[id], grouping) in KeysIn(rows)
    decreases |rows|
  {
    if rows != [] {
      var rest, last := rows[..|rows| - 1], rows[|rows| - 1];
      assert rows == rest + [last];
      MembersByKey(identities, measures, grouping, look, ids, rest);
      assert last in rows && last.members == Members(identities, grouping, ids, last.key);
      hide RowOver, GroupKey;
      assert KeysIn(rows) == KeysIn(rest) + {last.key};
    }
  }

  /** The rows add up to the measures of the identities they hold. */
  lemma {:induction false} RowsAddUp(identities: map<int, Identity>, measures: map<int, Measure>, grouping: GroupBy,
                                     look: Look, ids: set<int>, rows: seq<TableRow>)
    requires ids <= Identified(identities, measures)
    requires forall r :: r in rows ==> RowOver(identities, measures, grouping, look, ids, r)
    requires KeysDiffer(rows)
    ensures MembersOf(rows) <= ids
    ensures SumOfRows(rows) == SumOver(MembersOf(rows), measures)
    decreases |rows|
  {
    hide AddMeasure, GroupKey;
    MembersByKey(identities, measures, grouping, look, ids, rows);
    if rows != [] {
      var rest, last := rows[..|rows| - 1], rows[|rows| - 1];
      assert rows == rest + [last];
      RowsAddUp(identities, measures, grouping, look, ids, rest);
      MembersByKey(identities, measures, grouping, look, ids, rest);
      assert last in rows && RowOver(identities, measures, grouping, look, ids, last);
      LastKeyIsNew(rest, last);
      assert MembersOf(rest) !! last.members;
      SumUnion(MembersOf(rest), last.members, measures);
    }
  }

  lemma LastKeyIsNew(rest: seq<TableRow>, last: TableRow)
    requires KeysDiffer(rest + [last])
    ensures KeysDiffer(rest) && last.key !in KeysIn(rest)
  {
    var rows := rest + [last];
    assert forall i :: 0 <= i < |rest| ==> rest[i] == rows[i];
    forall r | r in rest
      ensures r.key != last.key
    {
      var i :| 0 <= i < |rest| && rest[i] == r;
      assert rows[i].key != rows[|rest|].key;
    }
  }

  // ---- There is always a list to show

  lemma {:induction false} SomeListing(lines: map<int, Member>, ids: set<int>) returns (listed: seq<Member>)
    requires ids <= lines.Keys
    ensures multiset(listed) == Bag(lines, ids)
    decreases ids
  {
    listed := [];
    if ids != {} {
      var id := Pick(ids);
      var rest := SomeListing(lines, ids - {id});
      listed := rest + [lines[id]];
    }
  }

  /** The row `key` gets when `first` is the first of its members met. */
  lemma SomeRow(identities: map<int, Identity>, measures: map<int, Measure>, grouping: GroupBy, look: Look,
                sort: Direction, key: string, first: int) returns (row: TableRow)
    requires first in Members(identities, grouping, Identified(identities, measures), key)
    ensures RowShown(identities, measures, grouping, look, sort, row) && row.key == key
  {
    var members := Members(identities, grouping, Identified(identities, measures), key);
    var lines := Lines(identities, measures);
    hide GroupName, GroupSecond, SumOver, UserText, ShortName;
    var listed := [];
    if Grouped(grouping) {
      listed := SomeListing(lines, members);
    }
    var raw := NewRow(first, identities[first], grouping, look)
      .(measure := SumOver(members, measures), members := members, listed := listed);
    assert Describes(first, identities[first], grouping, raw);
    forall other | other in members
      ensures Describes(other, identities[other], grouping, raw)
    {
      KeysDistinguish(first, identities[first], other, identities[other], grouping, look);
    }
    assert Labelled(identities, grouping, look, raw);
    assert RowOver(identities, measures, grouping, look, Identified(identities, measures), raw);
    FinishedIsShown(identities, measures, grouping, look, sort, raw);
    row := Finished(grouping, sort, raw);
  }

  lemma AppendRow(rows: seq<TableRow>, row: TableRow)
    requires KeysDiffer(rows) && row.key !in KeysIn(rows)
    ensures KeysDiffer(rows + [row]) && KeysIn(rows + [row]) == KeysIn(rows) + {row.key}
  {
    forall r | r in rows
      ensures r.key != row.key
    {
      assert r.key in KeysIn(rows);
    }
  }

  lemma {:induction false} SomeRows(identities: map<int, Identity>, measures: map<int, Measure>, grouping: GroupBy,
                                    look: Look, sort: Direction, keys: set<string>) returns (rows: seq<TableRow>)
    requires keys <= KeysOf(identities, grouping, Identified(identities, measures))
    ensures KeysDiffer(rows) && KeysIn(rows) == keys
    ensures forall r :: r in rows ==> RowShown(identities, measures, grouping, look, sort, r)
    decreases keys
  {
    rows := [];
    if keys != {} {
      var ids := Identified(identities, measures);
      var key := Pick(keys);
      var first :| first in ids && GroupKey(first, identities[first], grouping) == key;
      hide RowShown, KeysOf, KeysDiffer, KeysIn, GroupKey;
      var rest := SomeRows(identities, measures, grouping, look, sort, keys - {key});
      var row := SomeRow(identities, measures, grouping, look, sort, key, first);
      AppendRow(rest, row);
      rows := rest + [row];
    }
  }

  lemma SomethingToShow(identities: map<int, Identity>, measures: map<int, Measure>, grouping: GroupBy, look: Look,
                        sort: Direction, hit: Filter) returns (rows: seq<TableRow>)
    ensures Shows(identities, measures, grouping, look, sort, hit, rows)
  {
    var taken := SomeRows(identities, measures, grouping, look, sort, KeysThrough(identities, measures, grouping, hit));
    hide RowShown, RowsSorted, KeysDiffer, KeysThrough;
    SortsRows(sort, taken);
    rows := SortRows(sort, taken);
    hide SortRows;
    assert KeysIn(rows) == KeysIn(taken);
  }

  // ---- How far the list is determined

  /** Known identities that share a user's row the filter lets through share its uid. */
  predicate OneUidEach(identities: map<int, Identity>, measures: map<int, Measure>, hit: Filter) {
    var ids := Identified(identities, measures);
    forall a, b :: a in ids && b in ids && UserText(identities[a]) == UserText(identities[b])
                   && hit(UserText(identities[a]), Members(identities, ByUser, ids, UserText(identities[a]))) ==>
      identities[a].record.key.uid == identities[b].record.key.uid
  }

  /** Members of a group the filter lets through that the ranking of its list
      cannot tell apart have the same line. */
  predicate LinesApart(identities: map<int, Identity>, measures: map<int, Measure>, grouping: GroupBy, sort: Direction,
                       hit: Filter) {
    var ids, lines := Identified(identities, measures), Lines(identities, measures);
    forall a, b :: a in ids && b in ids
                   && GroupKey(a, identities[a], grouping) == GroupKey(b, identities[b], grouping)
                   && hit(GroupKey(a, identities[a], grouping),
                          Members(identities, grouping, ids, GroupKey(a, identities[a], grouping)))
                   && Tied(sort, lines[a], lines[b]) ==>
      lines[a] == lines[b]
  }

  /** When the order a hash map hands identities over in cannot show. */
  predicate Settled(identities: map<int, Identity>, measures: map<int, Measure>, grouping: GroupBy, sort: Direction,
                    hit: Filter) {
    && (grouping == ByUser ==> OneUidEach(identities, measures, hit))
    && (Grouped(grouping) ==> LinesApart(identities, measures, grouping, sort, hit))
  }

  lemma SharedSecond(identities: map<int, Identity>, measures: map<int, Measure>, grouping: GroupBy, look: Look,
                     sort: Direction, hit: Filter, a: TableRow, b: TableRow)
    requires RowShown(identities, measures, grouping, look, sort, a)
    requires RowShown(identities, measures, grouping, look, sort, b) && a.key == b.key && hit(a.key, a.members)
    requires grouping == ByUser ==> OneUidEach(identities, measures, hit)
    ensures a.second == b.second && a.name == b.name && a.third == b.third
    ensures a.identity == b.identity && a.unresolved == b.unresolved
  {
    var x :| x in a.members && a.second == GroupSecond(identities[x], grouping, look);
    var y :| y in b.members && b.second == GroupSecond(identities[y], grouping, look);
    assert a.members == b.members && x in b.members && y in a.members;
    assert Describes(x, identities[x], grouping, a) && Describes(x, identities[x], grouping, b);
    assert GroupKey(x, identities[x], grouping) == a.key == GroupKey(y, identities[y], grouping);
    KeysDistinguish(x, identities[x], y, identities[y], grouping, look);
    hide GroupName, GroupSecond, UserText, SumOver, Lists, InOrder;
    if grouping == ByUser {
      assert identities[x].record.key.uid == identities[y].record.key.uid;
    }
  }

  lemma SharedListing(identities: map<int, Identity>, measures: map<int, Measure>, grouping: GroupBy, look: Look,
                      sort: Direction, hit: Filter, a: TableRow, b: TableRow)
    requires RowShown(identities, measures, grouping, look, sort, a)
    requires RowShown(identities, measures, grouping, look, sort, b) && a.key == b.key && hit(a.key, a.members)
    requires Grouped(grouping) && LinesApart(identities, measures, grouping, sort, hit)
    ensures a.listed == b.listed
  {
    var lines := Lines(identities, measures);
    forall x, y | x in a.listed && y in a.listed && Tied(sort, x, y)
      ensures x == y
    {
      assert x in multiset(a.listed) && y in multiset(a.listed);
      InBag(lines, a.members, x);
      InBag(lines, a.members, y);
      var p :| p in a.members && lines[p] == x;
      var q :| q in a.members && lines[q] == y;
      hide GroupKey, Tied, Labelled, SumOver;
      assert GroupKey(p, identities[p], grouping) == a.key == GroupKey(q, identities[q], grouping);
    }
    hide Tied, Labelled, SumOver, LinesApart, GroupKey;
    OneOrder(sort, a.listed, b.listed);
  }

  lemma SharedRow(identities: map<int, Identity>, measures: map<int, Measure>, grouping: GroupBy, look: Look,
                  sort: Direction, hit: Filter, a: TableRow, b: TableRow)
    requires RowShown(identities, measures, grouping, look, sort, a)
    requires RowShown(identities, measures, grouping, look, sort, b) && a.key == b.key && hit(a.key, a.members)
    requires Settled(identities, measures, grouping, sort, hit)
    ensures a == b
  {
    SharedSecond(identities, measures, grouping, look, sort, hit, a, b);
    if Grouped(grouping) {
      SharedListing(identities, measures, grouping, look, sort, hit, a, b);
    }
    hide Labelled, InOrder, LinesApart, OneUidEach, SumOver;
  }

  /** Then nothing is left to that order. */
  lemma ShownDetermined(identities: map<int, Identity>, measures: map<int, Measure>, grouping: GroupBy, look: Look,
                        sort: Direction, hit: Filter, a: seq<TableRow>, b: seq<TableRow>)
    requires Shows(identities, measures, grouping, look, sort, hit, a)
    requires Shows(identities, measures, grouping, look, sort, hit, b)
    requires Settled(identities, measures, grouping, sort, hit)
    ensures a == b
  {
    SameRows(identities, measures, grouping, look, sort, hit, a, b);
    SameRows(identities, measures, grouping, look, sort, hit, b, a);
    hide RowShown, RowsSorted;
    RankingIsUnique(sort, a, b);
  }

  lemma SameRows(identities: map<int, Identity>, measures: map<int, Measure>, grouping: GroupBy, look: Look,
                 sort: Direction, hit: Filter, a: seq<TableRow>, b: seq<TableRow>)
    requires Shows(identities, measures, grouping, look, sort, hit, a)
    requires Shows(identities, measures, grouping, look, sort, hit, b)
    requires Settled(identities, measures, grouping, sort, hit)
    ensures forall x :: x in a ==> x in b
  {
    forall x | x in a
      ensures x in b
    {
      assert x.key in KeysIn(b);
      var y :| y in b && y.key == x.key;
      ThroughMembers(identities, measures, grouping, look, sort, hit, x);
      hide RowShown, Settled;
      SharedRow(identities, measures, grouping, look, sort, hit, x, y);
    }
  }

  lemma ThroughMembers(identities: map<int, Identity>, measures: map<int, Measure>, grouping: GroupBy, look: Look,
                       sort: Direction, hit: Filter, row: TableRow)
    requires RowShown(identities, measures, grouping, look, sort, row)
    requires row.key in KeysThrough(identities, measures, grouping, hit)
    ensures hit(row.key, row.members)
  {
  }

  /** A row put in another's place, if it is as good and ranks the same. */
  lemma ReplaceRow(identities: map<int, Identity>, measures: map<int, Measure>, grouping: GroupBy, look: Look,
                   sort: Direction, hit: Filter, rows: seq<TableRow>, i: nat, row: TableRow)
    requires Shows(identities, measures, grouping, look, sort, hit, rows) && i < |rows|
    requires RowShown(identities, measures, grouping, look, sort, row)
    requires row.key == rows[i].key && row.name == rows[i].name && row.measure == rows[i].measure
    ensures Shows(identities, measures, grouping, look, sort, hit, rows[i := row])
  {
    var others := rows[i := row];
    hide RowShown, KeysThrough;
    ReplaceSorted(sort, rows, i, row);
    SameKeys(rows, others);
    forall r | r in others
      ensures RowShown(identities, measures, grouping, look, sort, r)
    {
      if r != row {
        var j :| 0 <= j < |others| && others[j] == r;
        assert rows[j] == r;
      }
    }
  }

  lemma ReplaceSorted(sort: Direction, rows: seq<TableRow>, i: nat, row: TableRow)
    requires RowsSorted(sort, rows) && i < |rows|
    requires row.key == rows[i].key && row.name == rows[i].name && row.measure == rows[i].measure
    ensures RowsSorted(sort, rows[i := row])
  {
    hide Rank, TextsBefore;
    var others := rows[i := row];
    forall j, k | 0 <= j < k < |rows|
      ensures Above(sort, others[j], others[k])
    {
      assert Above(sort, rows[j], rows[k]);
    }
  }

  lemma RowOfKey(identities: map<int, Identity>, measures: map<int, Measure>, grouping: GroupBy, look: Look,
                 sort: Direction, hit: Filter, rows: seq<TableRow>, id: int) returns (i: nat)
    requires Shows(identities, measures, grouping, look, sort, hit, rows) && id in Identified(identities, measures)
    requires hit(GroupKey(id, identities[id], grouping),
                 Members(identities, grouping, Identified(identities, measures),
                         GroupKey(id, identities[id], grouping)))
    ensures i < |rows| && rows[i].key == GroupKey(id, identities[id], grouping)
    ensures RowShown(identities, measures, grouping, look, sort, rows[i])
    ensures rows[i].members == Members(identities, grouping, Identified(identities, measures), rows[i].key)
  {
    var key := GroupKey(id, identities[id], grouping);
    assert key in KeysThrough(identities, measures, grouping, hit);
    var r :| r in rows && r.key == key;
    i :| 0 <= i < |rows| && rows[i] == r;
  }

  /** Where a user shown has two uids, another list is as good. */
  lemma EitherUid(identities: map<int, Identity>, measures: map<int, Measure>, grouping: GroupBy, look: Look,
                  sort: Direction, hit: Filter, rows: seq<TableRow>) returns (others: seq<TableRow>)
    requires Shows(identities, measures, grouping, look, sort, hit, rows)
    requires grouping == ByUser && !OneUidEach(identities, measures, hit)
    ensures Shows(identities, measures, grouping, look, sort, hit, others) && others != rows
  {
    var ids := Identified(identities, measures);
    var a, b :| a in ids && b in ids && UserText(identities[a]) == UserText(identities[b])
      && hit(UserText(identities[a]), Members(identities, ByUser, ids, UserText(identities[a])))
      && identities[a].record.key.uid != identities[b].record.key.uid;
    var i := RowOfKey(identities, measures, grouping, look, sort, hit, rows, a);
    var r := rows[i];
    assert a in r.members && b in r.members;
    UidsDistinguish(identities[a].record.key.uid, identities[b].record.key.uid);
    var other := if r.second == GroupSecond(identities[a], grouping, look) then b else a;
    var row := r.(second := GroupSecond(identities[other], grouping, look));
    assert row != r;
    hide Shows, UserText, GroupSecond, UidText;
    OtherSecondShown(identities, measures, grouping, look, sort, r, other);
    ReplaceRow(identities, measures, grouping, look, sort, hit, rows, i, row);
    others := rows[i := row];
    assert others[i] != rows[i];
  }

  lemma OtherSecondShown(identities: map<int, Identity>, measures: map<int, Measure>, grouping: GroupBy, look: Look,
                         sort: Direction, row: TableRow, other: int)
    requires RowShown(identities, measures, grouping, look, sort, row) && other in row.members && other in identities
    ensures RowShown(identities, measures, grouping, look, sort,
                     row.(second := GroupSecond(identities[other], grouping, look)))
  {
    hide GroupName, GroupKey, GroupSecond, UserText, SumOver, ShortName;
    var row' := row.(second := GroupSecond(identities[other], grouping, look));
    assert forall id :: id in row.members ==> Describes(id, identities[id], grouping, row');
  }

  /** Where two members shown tie without being alike, another list is as good. */
  lemma EitherLine(identities: map<int, Identity>, measures: map<int, Measure>, grouping: GroupBy, look: Look,
                   sort: Direction, hit: Filter, rows: seq<TableRow>) returns (others: seq<TableRow>)
    requires Shows(identities, measures, grouping, look, sort, hit, rows)
    requires Grouped(grouping) && !LinesApart(identities, measures, grouping, sort, hit)
    ensures Shows(identities, measures, grouping, look, sort, hit, others) && others != rows
  {
    var ids, lines := Identified(identities, measures), Lines(identities, measures);
    var a, b :| a in ids && b in ids
      && GroupKey(a, identities[a], grouping) == GroupKey(b, identities[b], grouping)
      && hit(GroupKey(a, identities[a], grouping),
             Members(identities, grouping, ids, GroupKey(a, identities[a], grouping)))
      && Tied(sort, lines[a], lines[b]) && lines[a] != lines[b];
    var i := RowOfKey(identities, measures, grouping, look, sort, hit, rows, a);
    var r := rows[i];
    assert a in r.members && b in r.members;
    hide Shows, GroupKey, Members, LinesApart, Tied;
    var listed := OtherListing(identities, measures, grouping, look, sort, r, a, b);
    ReplaceRow(identities, measures, grouping, look, sort, hit, rows, i, r.(listed := listed));
    others := rows[i := r.(listed := listed)];
    assert others[i] != rows[i];
  }

  lemma OtherListing(identities: map<int, Identity>, measures: map<int, Measure>, grouping: GroupBy, look: Look,
                     sort: Direction, row: TableRow, a: int, b: int) returns (listed: seq<Member>)
    requires RowShown(identities, measures, grouping, look, sort, row) && Grouped(grouping)
    requires row.members <= Identified(identities, measures) && a in row.members && b in row.members
    requires Tied(sort, Lines(identities, measures)[a], Lines(identities, measures)[b])
    requires Lines(identities, measures)[a] != Lines(identities, measures)[b]
    ensures listed != row.listed && RowShown(identities, measures, grouping, look, sort, row.(listed := listed))
  {
    hide InOrder, Tied, ShortName, Labelled, SumOver, GroupKey;
    listed := OtherOrder(sort, row.listed, Lines(identities, measures), row.members, a, b);
    RelistedShown(identities, measures, grouping, look, sort, row, listed);
  }

  lemma RelistedShown(identities: map<int, Identity>, measures: map<int, Measure>, grouping: GroupBy, look: Look,
                      sort: Direction, row: TableRow, listed: seq<Member>)
    requires RowShown(identities, measures, grouping, look, sort, row)
    requires InOrder(sort, listed) && multiset(listed) == multiset(row.listed)
    requires Grouped(grouping)
    ensures RowShown(identities, measures, grouping, look, sort, row.(listed := listed))
  {
    hide GroupName, GroupKey, GroupSecond, UserText, SumOver, InOrder;
    var row' := row.(listed := listed);
    assert forall id :: id in row.members ==> Describes(id, identities[id], grouping, row');
  }

  lemma SameKeys(rows: seq<TableRow>, others: seq<TableRow>)
    requires KeysDiffer(rows) && |others| == |rows|
    requires forall j :: 0 <= j < |rows| ==> others[j].key == rows[j].key
    ensures KeysDiffer(others) && KeysIn(others) == KeysIn(rows)
  {
    forall k
      ensures k in KeysIn(others) <==> k in KeysIn(rows)
    {
      if k in KeysIn(others) {
        var r :| r in others && r.key == k;
        var j :| 0 <= j < |others| && others[j] == r;
        assert rows[j] in rows && rows[j].key == k;
      }
      if k in KeysIn(rows) {
        var r :| r in rows && r.key == k;
        var j :| 0 <= j < |rows| && rows[j] == r;
        assert others[j] in others && others[j].key == k;
      }
    }
  }

  /** The rows, every column and every group's list included, are a function of
      the identities, the measures and the settings if and only if no user shown
      has two uids (where the rows are users') and no two members listed tie
      without being alike (where they are groups). */
  lemma DeterminedExactly(identities: map<int, Identity>, measures: map<int, Measure>, grouping: GroupBy, look: Look,
                          sort: Direction, hit: Filter)
    ensures (forall a, b ::
              (Shows(identities, measures, grouping, look, sort, hit, a)
               && Shows(identities, measures, grouping, look, sort, hit, b)) ==> a == b)
       <==> Settled(identities, measures, grouping, sort, hit)
  {
    if Settled(identities, measures, grouping, sort, hit) {
      forall a, b | Shows(identities, measures, grouping, look, sort, hit, a)
          && Shows(identities, measures, grouping, look, sort, hit, b)
        ensures a == b
      {
        ShownDetermined(identities, measures, grouping, look, sort, hit, a, b);
      }
    } else {
      hide Shows, OneUidEach, LinesApart;
      var rows := SomethingToShow(identities, measures, grouping, look, sort, hit);
      if grouping == ByUser && !OneUidEach(identities, measures, hit) {
        var others := EitherUid(identities, measures, grouping, look, sort, hit, rows);
      } else {
        var others := EitherLine(identities, measures, grouping, look, sort, hit, rows);
      }
    }
  }

  /** A user of this name and uid. */
  function Named(uid: nat, name: string): Identity {
    Identity(Record(NaturalKey(uid, "", "/bin/sh", "<none>", "sh"), "sh", "sh", Some(name)), 0, 0)
  }

  /** A name that has passed from uid 1000 to uid 1001: the same identities,
      measures and settings may show either. */
  lemma RenamedUserShowsEither(look: Look, sort: Direction) returns (a: seq<TableRow>, b: seq<TableRow>)
    ensures var identities := map[1 := Named(1000, "sam"), 2 := Named(1001, "sam")];
            var measures := map[1 := NOTHING, 2 := NOTHING];
      Shows(identities, measures, ByUser, look, sort, (k, members) => true, a)
      && Shows(identities, measures, ByUser, look, sort, (k, members) => true, b)
      && a != b
  {
    var identities := map[1 := Named(1000, "sam"), 2 := Named(1001, "sam")];
    var measures := map[1 := NOTHING, 2 := NOTHING];
    var hit: Filter := (k, members) => true;
    a := SomethingToShow(identities, measures, ByUser, look, sort, hit);
    assert identities[1].record.key.uid != identities[2].record.key.uid;
    assert 1 in Identified(identities, measures) && 2 in Identified(identities, measures);
    assert UserText(identities[1]) == UserText(identities[2]);
    b := EitherUid(identities, measures, ByUser, look, sort, hit, a);
  }

  // ---- What the rows add up to

  /** Under any filter the rows' rates, sessions and trends add up to those of
      the identities they hold; with none, to those of every known identity, and
      there are as many rows as the grouping's size. */
  lemma RowsConserve(identities: map<int, Identity>, measures: map<int, Measure>, grouping: GroupBy, look: Look,
                     sort: Direction, hit: Filter, rows: seq<TableRow>)
    requires Shows(identities, measures, grouping, look, sort, hit, rows)
    ensures MembersOf(rows) <= Identified(identities, measures)
    ensures SumOfRows(rows) == SumOver(MembersOf(rows), measures)
    ensures (forall k, members :: hit(k, members)) ==>
      MembersOf(rows) == Identified(identities, measures)
      && |rows| == |KeysOf(identities, grouping, Identified(identities, measures))|
  {
    var ids := Identified(identities, measures);
    hide RowOver, AddMeasure, GroupKey;
    RowsAddUp(identities, measures, grouping, look, ids, rows);
    MembersByKey(identities, measures, grouping, look, ids, rows);
    CountKeys(rows);
    if forall k, members :: hit(k, members) {
      assert KeysThrough(identities, measures, grouping, hit) == KeysOf(identities, grouping, ids);
    }
  }

  lemma {:induction false} CountKeys(rows: seq<TableRow>)
    requires KeysDiffer(rows)
    ensures |KeysIn(rows)| == |rows|
    decreases |rows|
  {
    if rows != [] {
      var rest, last := rows[..|rows| - 1], rows[|rows| - 1];
      assert rows == rest + [last];
      LastKeyIsNew(rest, last);
      CountKeys(rest);
      assert KeysIn(rows) == KeysIn(rest) + {last.key};
    }
  }

  /** Ungrouped, a row is one identity, so there are as many as are known. */
  lemma {:induction false} UngroupedCount(identities: map<int, Identity>, ids: set<int>)
    requires ids <= identities.Keys
    ensures |KeysOf(identities, ByIdentity, ids)| == |ids|
    ensures forall id :: id in ids ==> Members(identities, ByIdentity, ids, IdText(id)) == {id}
    decreases ids
  {
    hide IdText;
    forall id, other | id in ids && other in ids && IdText(id) == IdText(other)
      ensures id == other
    {
      IdsDistinguish(id, other);
    }
    if ids != {} {
      var id := Pick(ids);
      var rest := ids - {id};
      UngroupedCount(identities, rest);
      VisitKeys(identities, ByIdentity, rest, id);
      assert ids == rest + {id};
    }
  }
}
