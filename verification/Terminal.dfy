/** The client's view: the header total, the rows, the sizes the groupings would
    have, and the cursor. */
module Terminal {
  import opened Counters
  import opened Identities
  import opened Ranking
  import opened Query
  import opened Trends
  import opened Screen
  import opened Display
  import opened Haystack
  import opened Search

  ghost function SizesOf(identities: map<int, Identity>, measures: map<int, Measure>): map<GroupBy, nat> {
    var known := Identified(identities, measures);
    map[ByIdentity := |KeysOf(identities, ByIdentity, known)|, ByProject := |KeysOf(identities, ByProject, known)|,
        ByExe := |KeysOf(identities, ByExe, known)|, ByUser := |KeysOf(identities, ByUser, known)|]
  }

  /** Where `key` is listed, or the length of the list. */
  function PositionOf(rows: seq<TableRow>, key: string): (n: nat)
    ensures n <= |rows|
    ensures forall i :: 0 <= i < n ==> rows[i].key != key
    ensures n < |rows| ==> rows[n].key == key
  {
    if rows == [] || rows[0].key == key then 0 else 1 + PositionOf(rows[1..], key)
  }

  class App {
    var rows: seq<TableRow>
    var groupSizes: map<GroupBy, nat>
    var total: Measure
    var index: Option<nat>
    var selectedKey: Option<string>

    /** The cursor is on a row, under that row's key, unless there is none. */
    ghost predicate CursorOk()
      reads this
    {
      if rows == [] then index == None && selectedKey == None
      else index.Some? && index.value < |rows| && selectedKey == Some(rows[index.value].key)
    }

    constructor ()
      ensures CursorOk() && rows == []
    {
      rows, groupSizes, total := [], map[], NOTHING;
      index, selectedKey := None, None;
    }

    /** Derive everything shown: the header from the live measures, the rows from
        those of the window on screen. */
    method Recompute(identities: map<int, Identity>, flows: map<Flow, Trend>, intervals: seq<nat>, stored: seq<Counter>,
                     want: ScopeFilter, isLive: bool, grouping: GroupBy, look: Look, sort: Direction, filter: string)
      requires RingsAligned(flows, intervals) && '\n' !in look.lower(filter)
      modifies this
      ensures var live := MeasuresIn(Parts(flows, intervals), want);
              var measures := if isLive then live else MeasuresIn(StoredParts(stored), want);
        && total == SumOver(live.Keys, live)
        && Shows(identities, measures, grouping, look, sort, TextFilter(identities, grouping, look, filter), rows)
        && groupSizes == SizesOf(identities, measures)
      ensures CursorOk()
      ensures forall k, i :: old(selectedKey) == Some(k) && 0 <= i < |rows| && rows[i].key == k ==>
        selectedKey == Some(k) && index == Some(i)
      ensures rows != [] && !(old(selectedKey).Some? && old(selectedKey).value in KeysIn(rows)) ==>
        index == Some(Least(if old(index).Some? then old(index).value else 0, |rows| - 1))
    {
      hide *;
      var live := LiveMeasures(flows, intervals, want);
      total := TotalOf(live);
      var measures := live;
      if !isLive {
        measures := StoredMeasures(stored, want);
      }
      var table, haystacks;
      table, haystacks, groupSizes := GroupRows(identities, measures, grouping, look);
      rows := RankTable(identities, measures, grouping, look, sort, filter, table, haystacks);
      FollowsKey(rows, selectedKey, index) by {
        RowsDiffer(identities, measures, grouping, look, sort, TextFilter(identities, grouping, look, filter), rows);
      }
      Select(Follow(rows, selectedKey, index));
    }

    method Select(at: nat)
      requires rows == [] || at < |rows|
      modifies this`index, this`selectedKey
      ensures CursorOk()
      ensures rows != [] ==> index == Some(at)
    {
      index := if rows == [] then None else Some(at);
      selectedKey := if at < |rows| then Some(rows[at].key) else None;
    }
  }

  lemma RowsDiffer(identities: map<int, Identity>, measures: map<int, Measure>, grouping: GroupBy, look: Look,
                   sort: Direction,
                   hit: Filter, rows: seq<TableRow>)
    requires Shows(identities, measures, grouping, look, sort, hit, rows)
    ensures KeysDiffer(rows)
  {
  }

  /** Where the cursor goes: to its row's new place, else as near as can be to
      where it was. */
  function Follow(rows: seq<TableRow>, selectedKey: Option<string>, index: Option<nat>): (at: nat)
    ensures rows == [] || at < |rows|
  {
    var position := if selectedKey.Some? then PositionOf(rows, selectedKey.value) else |rows|;
    Least(if position < |rows| then position else if index.Some? then index.value else 0,
          if rows == [] then 0 else |rows| - 1)
  }

  lemma FollowsKey(rows: seq<TableRow>, selectedKey: Option<string>, index: Option<nat>)
    requires KeysDiffer(rows)
    ensures forall k, i :: selectedKey == Some(k) && 0 <= i < |rows| && rows[i].key == k ==>
      Follow(rows, selectedKey, index) == i
    ensures rows != [] && !(selectedKey.Some? && selectedKey.value in KeysIn(rows)) ==>
      Follow(rows, selectedKey, index) == Least(if index.Some? then index.value else 0, |rows| - 1)
  {
  }

  function Least(a: nat, b: nat): nat {
    if a < b then a else b
  }

  /** Everything live in scope, whether or not it is known by name yet. */
  method TotalOf(live: map<int, Measure>) returns (total: Measure)
    ensures total == SumOver(live.Keys, live)
  {
    total := NOTHING;
    var todo := live.Keys;
    ghost var seen: set<int> := {};
    while todo != {}
      invariant todo + seen == live.Keys && todo !! seen
      invariant total == SumOver(seen, live)
      decreases todo
    {
      hide AddMeasure;
      ghost var some: int := Pick(todo);
      assert some in todo;
      var id :| id in todo;
      SumAdd(seen, live, id);
      total := AddMeasure(total, live[id]);
      todo, seen := todo - {id}, seen + {id};
    }
    assert seen == live.Keys;
  }

  /** The rows so far, and the keys every grouping has. */
  datatype Groups = Groups(table: map<string, TableRow>, haystacks: map<string, string>, byIdentity: set<string>,
                           byProject: set<string>,
                           byExe: set<string>, byUser: set<string>)

  ghost predicate GroupsOver(identities: map<int, Identity>, measures: map<int, Measure>, grouping: GroupBy, look: Look,
                             ids: set<int>, g: Groups)
    requires ids <= Identified(identities, measures)
  {
    && TableOver(identities, measures, grouping, look, ids, g.table)
    && HaystacksOver(identities, grouping, look, ids, g.haystacks)
    && g.byIdentity == KeysOf(identities, ByIdentity, ids) && g.byProject == KeysOf(identities, ByProject, ids)
    && g.byExe == KeysOf(identities, ByExe, ids) && g.byUser == KeysOf(identities, ByUser, ids)
  }

  function AddToGroups(g: Groups, id: int, i: Identity, m: Measure, grouping: GroupBy, look: Look): Groups {
    Groups(AddToTable(g.table, id, i, m, grouping, look),
           AddText(g.haystacks, GroupKey(id, i, grouping), MemberText(id, i, grouping, look)),
           g.byIdentity + {GroupKey(id, i, ByIdentity)}, g.byProject + {GroupKey(id, i, ByProject)},
           g.byExe + {GroupKey(id, i, ByExe)}, g.byUser + {GroupKey(id, i, ByUser)})
  }

  lemma VisitGroups(identities: map<int, Identity>, measures: map<int, Measure>, grouping: GroupBy, look: Look,
                    ids: set<int>, id: int, g: Groups)
    requires ids + {id} <= Identified(identities, measures) && id !in ids
    requires GroupsOver(identities, measures, grouping, look, ids, g)
    ensures GroupsOver(identities, measures, grouping, look, ids + {id},
      AddToGroups(g, id, identities[id], measures[id], grouping, look))
  {
    hide TableOver, HaystacksOver, KeysOf, Members, GroupKey, MemberText, AddToTable, AddText;
    VisitHaystacks(identities, grouping, look, ids, id, g.haystacks);
    VisitTable(identities, measures, grouping, look, ids, id, g.table);
    VisitKeys(identities, ByIdentity, ids, id);
    VisitKeys(identities, ByProject, ids, id);
    VisitKeys(identities, ByExe, ids, id);
    VisitKeys(identities, ByUser, ids, id);
  }

  lemma StillToSee(identities: map<int, Identity>, measures: map<int, Measure>, todo: set<int>, id: int)
    requires id in todo && todo <= measures.Keys
    ensures var known := Identified(identities, measures);
      && id !in known - todo
      && known - (todo - {id}) == (known - todo) + (if id in identities then {id} else {})
      && (id in identities ==> known - todo + {id} <= known)
  {
  }

  /** One row per key, and every grouping's keys counted on the way. */
  method GroupRows(identities: map<int, Identity>, measures: map<int, Measure>, grouping: GroupBy, look: Look)
    returns (table: map<string, TableRow>, haystacks: map<string, string>, sizes: map<GroupBy, nat>)
    ensures TableOver(identities, measures, grouping, look, Identified(identities, measures), table)
    ensures HaystacksOver(identities, grouping, look, Identified(identities, measures), haystacks)
    ensures sizes == SizesOf(identities, measures)
  {
    var groups := Groups(map[], map[], {}, {}, {}, {});
    var todo := measures.Keys;
    ghost var known := Identified(identities, measures);
    ghost var seen: set<int> := {};
    NoGroups(identities, measures, grouping, look);
    assert known - todo == {};
    hide GroupsOver, AddToGroups, SizesFrom, SizesOf, TableOver, HaystacksOver;
    while todo != {}
      invariant todo <= measures.Keys && seen == known - todo
      invariant GroupsOver(identities, measures, grouping, look, seen, groups)
      decreases todo
    {
      ghost var some: int := Pick(todo);
      assert some in todo;
      var id :| id in todo;
      StillToSee(identities, measures, todo, id);
      hide Identified;
      if id in identities {
        VisitGroups(identities, measures, grouping, look, seen, id, groups);
        groups := AddToGroups(groups, id, identities[id], measures[id], grouping, look);
        seen := seen + {id};
      }
      todo := todo - {id};
    }
    assert seen == known;
    GroupsCounted(identities, measures, grouping, look, groups);
    table, haystacks := groups.table, groups.haystacks;
    sizes := SizesFrom(groups);
  }

  function SizesFrom(g: Groups): map<GroupBy, nat> {
    map[ByIdentity := |g.byIdentity|, ByProject := |g.byProject|, ByExe := |g.byExe|, ByUser := |g.byUser|]
  }

  lemma GroupsCounted(identities: map<int, Identity>, measures: map<int, Measure>, grouping: GroupBy, look: Look,
                      g: Groups)
    requires GroupsOver(identities, measures, grouping, look, Identified(identities, measures), g)
    ensures TableOver(identities, measures, grouping, look, Identified(identities, measures), g.table)
    ensures HaystacksOver(identities, grouping, look, Identified(identities, measures), g.haystacks)
    ensures SizesFrom(g) == SizesOf(identities, measures)
  {
    hide TableOver, HaystacksOver, KeysOf;
  }

  lemma NoGroups(identities: map<int, Identity>, measures: map<int, Measure>, grouping: GroupBy, look: Look)
    ensures GroupsOver(identities, measures, grouping, look, {}, Groups(map[], map[], {}, {}, {}, {}))
  {
    NoText(identities, grouping, look);
    hide HaystacksOver;
  }

  /** The rows taken from the table so far: those under `keys` that the filter
      lets through, each once, counted and with its list in order. */
  ghost predicate Taken(grouping: GroupBy, sort: Direction, table: map<string, TableRow>, keys: set<string>,
                        hit: Filter,
                        rows: seq<TableRow>)
  {
    && KeysDiffer(rows)
    && (forall r :: r in rows <==>
          r.key in table && r.key in keys && r == Finished(grouping, sort, table[r.key]) && hit(r.key, r.members))
  }

  lemma NoneTaken(grouping: GroupBy, sort: Direction, table: map<string, TableRow>, hit: Filter)
    ensures Taken(grouping, sort, table, {}, hit, [])
  {
  }

  lemma TakeRow(grouping: GroupBy, sort: Direction, table: map<string, TableRow>, keys: set<string>, hit: Filter,
                rows: seq<TableRow>, k: string)
    requires Taken(grouping, sort, table, keys, hit, rows) && k in table && table[k].key == k && k !in keys
    ensures Taken(grouping, sort, table, keys + {k}, hit,
      if hit(k, table[k].members) then rows + [Finished(grouping, sort, table[k])] else rows)
  {
    hide Roster.Sorted, CountText;
    if hit(k, table[k].members) {
      forall i | 0 <= i < |rows|
        ensures rows[i].key != k
      {
        assert rows[i] in rows;
      }
    }
  }

  /** The rows the filter lets through, ranked. */
  method RankTable(identities: map<int, Identity>, measures: map<int, Measure>, grouping: GroupBy, look: Look,
                   sort: Direction, filter: string, table: map<string, TableRow>, haystacks: map<string, string>)
    returns (rows: seq<TableRow>)
    requires TableOver(identities, measures, grouping, look, Identified(identities, measures), table)
    requires HaystacksOver(identities, grouping, look, Identified(identities, measures), haystacks)
    requires '\n' !in look.lower(filter)
    ensures Shows(identities, measures, grouping, look, sort, TextFilter(identities, grouping, look, filter), rows)
  {
    hide *;
    ghost var hit := TextFilter(identities, grouping, look, filter);
    FoundIsHit(identities, measures, grouping, look, filter, table, haystacks);
    var taken := TakeRows(grouping, sort, look.lower(filter), table, haystacks, hit);
    rows := SortRows(sort, taken);
    TakenIsShown(identities, measures, grouping, look, sort, hit, table, taken);
  }

  /** Searching a row's haystack tells whether the filter lets it through. */
  lemma FoundIsHit(identities: map<int, Identity>, measures: map<int, Measure>, grouping: GroupBy, look: Look,
                   filter: string, table: map<string, TableRow>, haystacks: map<string, string>)
    requires TableOver(identities, measures, grouping, look, Identified(identities, measures), table)
    requires HaystacksOver(identities, grouping, look, Identified(identities, measures), haystacks)
    requires '\n' !in look.lower(filter)
    ensures haystacks.Keys == table.Keys
    ensures forall k :: k in table ==>
      table[k].key == k
      && (Contains(haystacks[k], look.lower(filter))
          <==> TextFilter(identities, grouping, look, filter)(k, table[k].members))
  {
    var ids := Identified(identities, measures);
    forall k | k in table
      ensures Contains(haystacks[k], look.lower(filter))
           <==> TextFilter(identities, grouping, look, filter)(k, table[k].members)
    {
      RowNotEmpty(identities, measures, grouping, look, ids, table[k]);
      assert HaystackOf(identities, grouping, look, Members(identities, grouping, ids, k), haystacks[k]);
      hide Members, KeysOf, Labelled, SumOver, Lists, Searched, Contains;
    }
  }

  method TakeRows(grouping: GroupBy, sort: Direction, needle: string, table: map<string, TableRow>,
                  haystacks: map<string, string>, ghost hit: Filter) returns (taken: seq<TableRow>)
    requires haystacks.Keys == table.Keys
    requires forall k :: k in table ==>
      table[k].key == k && (Contains(haystacks[k], needle) <==> hit(k, table[k].members))
    ensures Taken(grouping, sort, table, table.Keys, hit, taken)
  {
    taken := [];
    var todo := table.Keys;
    NoneTaken(grouping, sort, table, hit);
    assert table.Keys - todo == {};
    hide *;
    while todo != {}
      invariant todo <= table.Keys
      invariant Taken(grouping, sort, table, table.Keys - todo, hit, taken)
      decreases todo
    {
      var k :| k in todo;
      TakeRow(grouping, sort, table, table.Keys - todo, hit, taken, k);
      assert table.Keys - (todo - {k}) == table.Keys - todo + {k};
      if Contains(haystacks[k], needle) {
        taken := taken + [Finished(grouping, sort, table[k])];
      }
      todo := todo - {k};
    }
    assert table.Keys - todo == table.Keys;
  }

  lemma TakenIsShown(identities: map<int, Identity>, measures: map<int, Measure>, grouping: GroupBy, look: Look,
                     sort: Direction, hit: Filter, table: map<string, TableRow>, taken: seq<TableRow>)
    requires TableOver(identities, measures, grouping, look, Identified(identities, measures), table)
    requires Taken(grouping, sort, table, table.Keys, hit, taken)
    ensures Shows(identities, measures, grouping, look, sort, hit, SortRows(sort, taken))
  {
    TakenRows(identities, measures, grouping, look, sort, hit, table, taken);
    SortsRows(sort, taken);
    hide TableOver, RowShown, RowsSorted, KeysDiffer, SortRows, KeysThrough, Taken;
    assert KeysIn(SortRows(sort, taken)) == KeysIn(taken);
  }

  lemma TakenRows(identities: map<int, Identity>, measures: map<int, Measure>, grouping: GroupBy, look: Look,
                  sort: Direction, hit: Filter, table: map<string, TableRow>, taken: seq<TableRow>)
    requires TableOver(identities, measures, grouping, look, Identified(identities, measures), table)
    requires Taken(grouping, sort, table, table.Keys, hit, taken)
    ensures forall r :: r in taken ==> RowShown(identities, measures, grouping, look, sort, r)
    ensures KeysIn(taken) == KeysThrough(identities, measures, grouping, hit) && KeysDiffer(taken)
  {
    FinishedRows(identities, measures, grouping, look, sort, table);
    assert table.Keys == KeysOf(identities, grouping, Identified(identities, measures));
    hide TableOver, RowShown, Finished, KeysDiffer, Members, KeysOf;
    forall k | k in KeysThrough(identities, measures, grouping, hit)
      ensures k in KeysIn(taken)
    {
      assert Finished(grouping, sort, table[k]) in taken;
    }
    forall r | r in taken
      ensures RowShown(identities, measures, grouping, look, sort, r)
      ensures r.key in KeysThrough(identities, measures, grouping, hit)
    {
      assert r == Finished(grouping, sort, table[r.key]);
    }
  }

  lemma FinishedRows(identities: map<int, Identity>, measures: map<int, Measure>, grouping: GroupBy, look: Look,
                     sort: Direction, table: map<string, TableRow>)
    requires TableOver(identities, measures, grouping, look, Identified(identities, measures), table)
    ensures forall k :: k in table ==>
      var row := Finished(grouping, sort, table[k]);
      RowShown(identities, measures, grouping, look, sort, row) && row.key == k
      && row.members == Members(identities, grouping, Identified(identities, measures), k)
  {
    forall k | k in table
      ensures RowShown(identities, measures, grouping, look, sort, Finished(grouping, sort, table[k]))
      ensures Finished(grouping, sort, table[k]).key == k
      ensures Finished(grouping, sort, table[k]).members
           == Members(identities, grouping, Identified(identities, measures), k)
    {
      FinishedIsShown(identities, measures, grouping, look, sort, table[k]);
      hide RowShown, Labelled, Lists, SumOver, Finished, Members;
    }
  }

  /** In the live view, unfiltered and under any grouping, the header's total is
      the rows' plus what flows not yet named have moved. */
  lemma HeaderIsRowsAndUnnamed(identities: map<int, Identity>, live: map<int, Measure>, grouping: GroupBy, look: Look,
                               sort: Direction,
                               hit: Filter, rows: seq<TableRow>)
    requires Shows(identities, live, grouping, look, sort, hit, rows) && forall k, members :: hit(k, members)
    ensures SumOver(live.Keys, live) == AddMeasure(SumOfRows(rows), SumOver(live.Keys - identities.Keys, live))
  {
    hide Shows, AddMeasure;
    RowsConserve(identities, live, grouping, look, sort, hit, rows);
    var known := Identified(identities, live);
    SumUnion(known, live.Keys - identities.Keys, live);
    assert known + (live.Keys - identities.Keys) == live.Keys;
  }

  lemma SizeOf(identities: map<int, Identity>, measures: map<int, Measure>, grouping: GroupBy)
    ensures grouping in SizesOf(identities, measures)
    ensures SizesOf(identities, measures)[grouping] == |KeysOf(identities, grouping, Identified(identities, measures))|
  {
    hide KeysOf, Identified;
  }

  /** A grouping's size is how many rows it shows unfiltered. */
  lemma SizesAreRows(identities: map<int, Identity>, measures: map<int, Measure>, grouping: GroupBy, look: Look,
                     sort: Direction, hit: Filter, rows: seq<TableRow>)
    requires Shows(identities, measures, grouping, look, sort, hit, rows) && forall k, members :: hit(k, members)
    ensures grouping in SizesOf(identities, measures) && SizesOf(identities, measures)[grouping] == |rows|
  {
    RowsConserve(identities, measures, grouping, look, sort, hit, rows);
    hide *;
    SizeOf(identities, measures, grouping);
  }
}
