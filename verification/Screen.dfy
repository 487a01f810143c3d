/** The client's table: measures of known identities grouped into rows, ranked,
    with the cursor kept on the row it was on. */
module Screen {
  import opened Counters
  import opened Identities
  import opened Ranking
  import opened Trends
  import opened Roster

  /** A row of the table: its key, the columns that say who it is, what it
      measures, whom it holds, and for a group the list of its members. */
  datatype TableRow = TableRow(key: string, name: string, second: string, third: string, identity: Option<int>,
                               unresolved: bool, measure: Measure, members: set<int>, listed: seq<Member>)

  /** The user's home directory, and how text is put in lower case. */
  datatype Look = Look(home: string, lower: string -> string)

  // ---- Row keys and column texts

  function IdText(id: int): string {
    if id < 0 then "-" + Decimal(-id) else Decimal(id)
  }

  /** The owner's name, the uid in digits without one, `?` for nobody's. */
  function UserText(i: Identity): string {
    if ShownUser(i) != "" then ShownUser(i)
    else if i.record.key.uid == 0xFFFF_FFFF then "?"
    else Decimal(i.record.key.uid)
  }

  function TrimSlashes(path: string): string {
    if path != "" && path[|path| - 1] == '/' then TrimSlashes(path[..|path| - 1]) else path
  }

  function AfterSlash(path: string): string {
    if path == "" || path[|path| - 1] == '/' then "" else AfterSlash(path[..|path| - 1]) + [path[|path| - 1]]
  }

  function Basename(path: string): string {
    var last := AfterSlash(TrimSlashes(path));
    if last == "" then path else last
  }

  function ShortName(i: Identity): string {
    if i.record.comm == "" then Basename(i.record.key.exe) else i.record.comm
  }

  function GroupKey(id: int, i: Identity, grouping: GroupBy): string {
    match grouping
    case ByProject => i.record.key.projectRoot
    case ByExe => i.record.key.exe
    case ByUser => UserText(i)
    case ByIdentity => IdText(id)
  }

  function GroupName(i: Identity, grouping: GroupBy): string {
    match grouping
    case ByProject => ProjectName(i)
    case ByExe => Basename(i.record.key.exe)
    case ByUser => UserText(i)
    case ByIdentity => ShortName(i)
  }

  /** A path shortened by its home prefix, where that ends at a separator. */
  function Tilde(home: string, path: string): string {
    if home != "" && home <= path && (path == home || path[|home|] == '/') then "~" + path[|home|..] else path
  }

  function ProjectName(i: Identity): string {
    if i.record.key.projectRoot == "<none>" then "-" else Basename(i.record.key.projectRoot)
  }

  function UidText(uid: nat): string {
    "uid " + Decimal(uid)
  }

  function GroupSecond(i: Identity, grouping: GroupBy, look: Look): string {
    match grouping
    case ByProject => Tilde(look.home, i.record.key.projectRoot)
    case ByExe => Tilde(look.home, i.record.key.exe)
    case ByUser => UidText(i.record.key.uid)
    case ByIdentity => ProjectName(i)
  }

  /** The text one member brings to its row's haystack. */
  function MemberText(id: int, i: Identity, grouping: GroupBy, look: Look): string {
    var key := i.record.key;
    look.lower(if Grouped(grouping) then GroupKey(id, i, grouping) + "\n" + ShortName(i)
               else ShortName(i) + "\n" + key.projectRoot + "\n" + key.exe + "\n" + key.cmdline + "\n" + UserText(i))
  }

  function CountText(n: nat): string {
    if n == 1 then "1 identity" else Decimal(n) + " identities"
  }

  lemma {:induction false} DecimalDigits(n: nat)
    ensures Decimal(n) != "" && Decimal(n)[0] != '-'
    decreases n
  {
    if n >= 10 {
      DecimalDigits(n / 10);
    }
  }

  lemma {:induction false} DecimalInjective(m: nat, n: nat)
    requires Decimal(m) == Decimal(n)
    ensures m == n
    decreases m
  {
    var a, b := Decimal(m), Decimal(n);
    assert a[|a| - 1] == "0123456789"[m % 10] && b[|b| - 1] == "0123456789"[n % 10];
    DecimalNotEmpty(m / 10);
    DecimalNotEmpty(n / 10);
    if m >= 10 {
      assert n >= 10 && a[..|a| - 1] == Decimal(m / 10) && b[..|b| - 1] == Decimal(n / 10);
      DecimalInjective(m / 10, n / 10);
    }
  }

  /** Ids never share a row. Identities that share one share its name, so that
      does not depend on which was met first; and its second column too, but for
      a user's row, where that is the uid. */
  lemma KeysDistinguish(a: int, i: Identity, b: int, j: Identity, grouping: GroupBy, look: Look)
    requires a == b ==> i == j
    requires GroupKey(a, i, grouping) == GroupKey(b, j, grouping)
    ensures GroupName(i, grouping) == GroupName(j, grouping)
    ensures grouping == ByIdentity ==> a == b
    ensures GroupSecond(i, grouping, look) == GroupSecond(j, grouping, look)
       <==> !(grouping == ByUser && i.record.key.uid != j.record.key.uid)
  {
    if grouping == ByIdentity {
      IdsDistinguish(a, b);
    }
    if grouping == ByUser {
      UidsDistinguish(i.record.key.uid, j.record.key.uid);
    }
  }

  lemma IdsDistinguish(a: int, b: int)
    requires IdText(a) == IdText(b)
    ensures a == b
  {
    DecimalDigits(if a < 0 then -a else a);
    DecimalDigits(if b < 0 then -b else b);
    if a < 0 && b < 0 {
      assert IdText(a)[1..] == Decimal(-a) && IdText(b)[1..] == Decimal(-b);
      DecimalInjective(-a, -b);
    } else if a >= 0 && b >= 0 {
      DecimalInjective(a, b);
    }
  }

  lemma UidsDistinguish(u: nat, v: nat)
    ensures UidText(u) == UidText(v) <==> u == v
  {
    if UidText(u) == UidText(v) {
      assert UidText(u)[4..] == Decimal(u) && UidText(v)[4..] == Decimal(v);
      DecimalInjective(u, v);
    }
  }

  // ---- Adding measures up

  ghost function SumOver(ids: set<int>, measures: map<int, Measure>): Measure
    requires ids <= measures.Keys
  {
    if ids == {} then NOTHING
    else
      var id := Pick(ids);
      AddMeasure(measures[id], SumOver(ids - {id}, measures))
  }

  /** The order of addition does not matter. */
  lemma {:induction false} SumTake(ids: set<int>, measures: map<int, Measure>, id: int)
    requires ids <= measures.Keys && id in ids
    ensures SumOver(ids, measures) == AddMeasure(measures[id], SumOver(ids - {id}, measures))
    decreases ids
  {
    hide AddMeasure;
    var p := Pick(ids);
    if p != id {
      var rest := SumOver(ids - {p} - {id}, measures);
      assert ids - {p} - {id} == ids - {id} - {p};
      SumTake(ids - {p}, measures, id);
      SumTake(ids - {id}, measures, p);
      AddAssociates(measures[p], measures[id], rest);
      AddAssociates(measures[id], measures[p], rest);
      AddCommutes(measures[p], measures[id]);
    }
  }

  lemma SumAdd(ids: set<int>, measures: map<int, Measure>, id: int)
    requires ids <= measures.Keys && id in measures && id !in ids
    ensures SumOver(ids + {id}, measures) == AddMeasure(SumOver(ids, measures), measures[id])
  {
    hide AddMeasure;
    SumTake(ids + {id}, measures, id);
    assert ids + {id} - {id} == ids;
    AddCommutes(measures[id], SumOver(ids, measures));
  }

  lemma {:induction false} SumUnion(a: set<int>, b: set<int>, measures: map<int, Measure>)
    requires a <= measures.Keys && b <= measures.Keys && a !! b
    ensures SumOver(a + b, measures) == AddMeasure(SumOver(a, measures), SumOver(b, measures))
    decreases b
  {
    hide AddMeasure;
    if b == {} {
      assert a + b == a;
      AddNothing(SumOver(a, measures));
    } else {
      var id := Pick(b);
      var rest := b - {id};
      SumUnion(a, rest, measures);
      assert a + b == (a + rest) + {id} && b == rest + {id};
      SumAdd(a + rest, measures, id);
      SumAdd(rest, measures, id);
      AddAssociates(SumOver(a, measures), SumOver(rest, measures), measures[id]);
    }
  }

  // ---- The rows

  /** Those of `ids` that belong in the row `key`. */
  function Members(identities: map<int, Identity>, grouping: GroupBy, ids: set<int>, key: string): set<int>
    requires ids <= identities.Keys
  {
    set id | id in ids && GroupKey(id, identities[id], grouping) == key
  }

  function KeysOf(identities: map<int, Identity>, grouping: GroupBy, ids: set<int>): set<string>
    requires ids <= identities.Keys
  {
    set id | id in ids :: GroupKey(id, identities[id], grouping)
  }

  function Identified(identities: map<int, Identity>, measures: map<int, Measure>): set<int> {
    measures.Keys * identities.Keys
  }

  /** The columns that every member of a row gives it alike. */
  predicate Describes(id: int, i: Identity, grouping: GroupBy, row: TableRow) {
    && row.name == GroupName(i, grouping)
    && row.identity == (if Grouped(grouping) then None else Some(id))
    && row.unresolved == (!Grouped(grouping) && i.record.key.exe == "<unresolved>")
    && (!Grouped(grouping) ==> row.third == UserText(i))
  }

  /** The second column is that of some member, the first the map yielded; the
      others are those of all. */
  predicate Labelled(identities: map<int, Identity>, grouping: GroupBy, look: Look, row: TableRow)
    requires row.members <= identities.Keys
  {
    && (forall id :: id in row.members ==> Describes(id, identities[id], grouping, row))
    && (exists id :: id in row.members && row.second == GroupSecond(identities[id], grouping, look))
  }

  /** What the row under its key must hold. */
  ghost predicate RowOver(identities: map<int, Identity>, measures: map<int, Measure>, grouping: GroupBy, look: Look,
                          ids: set<int>, row: TableRow)
    requires ids <= Identified(identities, measures)
  {
    && row.members == Members(identities, grouping, ids, row.key)
    && row.measure == SumOver(row.members, measures)
    && Labelled(identities, grouping, look, row)
    && Lists(identities, measures, grouping, row)
  }

  /** Every identity's line in a group's list. */
  function Lines(identities: map<int, Identity>, measures: map<int, Measure>): map<int, Member> {
    map id | id in Identified(identities, measures) :: Member(ShortName(identities[id]), measures[id].rate)
  }

  /** A group lists each of its members once, in some order. */
  ghost predicate Lists(identities: map<int, Identity>, measures: map<int, Measure>, grouping: GroupBy, row: TableRow)
    requires row.members <= Identified(identities, measures)
  {
    if Grouped(grouping) then multiset(row.listed) == Bag(Lines(identities, measures), row.members)
    else row.listed == []
  }

  ghost predicate TableOver(identities: map<int, Identity>, measures: map<int, Measure>, grouping: GroupBy, look: Look,
                            ids: set<int>, table: map<string, TableRow>)
    requires ids <= Identified(identities, measures)
  {
    && table.Keys == KeysOf(identities, grouping, ids)
    && (forall k :: k in table ==> table[k].key == k && RowOver(identities, measures, grouping, look, ids, table[k]))
  }

  /** The row the first member met makes. */
  function NewRow(id: int, i: Identity, grouping: GroupBy, look: Look): TableRow {
    TableRow(GroupKey(id, i, grouping), GroupName(i, grouping), GroupSecond(i, grouping, look),
             if Grouped(grouping) then "" else UserText(i), if Grouped(grouping) then None else Some(id),
             !Grouped(grouping) && i.record.key.exe == "<unresolved>", NOTHING, {}, [])
  }

  function WithMember(row: TableRow, id: int, i: Identity, m: Measure, grouping: GroupBy): TableRow {
    row.(measure := AddMeasure(row.measure, m), members := row.members + {id},
         listed := if Grouped(grouping) then row.listed + [Member(ShortName(i), m.rate)] else row.listed)
  }

  /** `rows.entry(key).or_insert_with(..)`, then the measure added in. */
  function AddToTable(table: map<string, TableRow>, id: int, i: Identity, m: Measure, grouping: GroupBy,
                      look: Look): map<string, TableRow> {
    var key := GroupKey(id, i, grouping);
    var row := if key in table then table[key] else NewRow(id, i, grouping, look);
    table[key := WithMember(row, id, i, m, grouping)]
  }

  lemma VisitKeys(identities: map<int, Identity>, grouping: GroupBy, ids: set<int>, id: int)
    requires ids + {id} <= identities.Keys
    ensures KeysOf(identities, grouping, ids + {id})
           == KeysOf(identities, grouping, ids) + {GroupKey(id, identities[id], grouping)}
    ensures forall k ::
      Members(identities, grouping, ids + {id}, k)
      == Members(identities, grouping, ids, k) + (if k == GroupKey(id, identities[id], grouping) then {id} else {})
    ensures forall k :: k in KeysOf(identities, grouping, ids) <==> Members(identities, grouping, ids, k) != {}
  {
    forall k | k in KeysOf(identities, grouping, ids)
      ensures Members(identities, grouping, ids, k) != {}
    {
      var j :| j in ids && GroupKey(j, identities[j], grouping) == k;
      assert j in Members(identities, grouping, ids, k);
    }
  }

  lemma VisitRow(identities: map<int, Identity>, measures: map<int, Measure>, grouping: GroupBy, look: Look,
                 ids: set<int>, id: int, row: TableRow)
    requires ids + {id} <= Identified(identities, measures) && id !in ids
    requires row.key == GroupKey(id, identities[id], grouping)
    requires if Members(identities, grouping, ids, row.key) == {} then row == NewRow(id, identities[id], grouping, look)
             else RowOver(identities, measures, grouping, look, ids, row)
    ensures RowOver(identities, measures, grouping, look, ids + {id},
      WithMember(row, id, identities[id], measures[id], grouping))
  {
    VisitLists(identities, measures, grouping, id, row);
    VisitKeys(identities, grouping, ids, id);
    SumAdd(row.members, measures, id);
    VisitLabels(identities, measures, grouping, look, id, row);
    hide AddMeasure, GroupKey, Lists, Labelled;
  }

  lemma VisitLabels(identities: map<int, Identity>, measures: map<int, Measure>, grouping: GroupBy, look: Look,
                    id: int, row: TableRow)
    requires row.members + {id} <= identities.Keys && id in measures
    requires forall j :: j in row.members ==>
      GroupKey(j, identities[j], grouping) == row.key == GroupKey(id, identities[id], grouping)
    requires row == NewRow(id, identities[id], grouping, look) || Labelled(identities, grouping, look, row)
    ensures Labelled(identities, grouping, look, WithMember(row, id, identities[id], measures[id], grouping))
  {
    hide AddMeasure, GroupKey, GroupName, GroupSecond, UserText, ShortName;
    var row' := WithMember(row, id, identities[id], measures[id], grouping);
    if j :| j in row.members && row.second == GroupSecond(identities[j], grouping, look) {
      assert Describes(j, identities[j], grouping, row);
      KeysDistinguish(j, identities[j], id, identities[id], grouping, look);
      assert j in row'.members;
    } else {
      assert id in row'.members && row'.second == GroupSecond(identities[id], grouping, look);
    }
    assert Describes(id, identities[id], grouping, row');
    assert forall j :: j in row'.members ==> Describes(j, identities[j], grouping, row');
  }

  lemma VisitLists(identities: map<int, Identity>, measures: map<int, Measure>, grouping: GroupBy, id: int,
                   row: TableRow)
    requires row.members + {id} <= Identified(identities, measures)
    requires id !in row.members
    requires Lists(identities, measures, grouping, row) || (row.members == {} && row.listed == [])
    ensures Lists(identities, measures, grouping, WithMember(row, id, identities[id], measures[id], grouping))
  {
    hide AddMeasure, ShortName;
    BagAdd(Lines(identities, measures), row.members, id);
  }

  lemma OtherRow(identities: map<int, Identity>, measures: map<int, Measure>, grouping: GroupBy, look: Look,
                 ids: set<int>, id: int, row: TableRow)
    requires ids + {id} <= Identified(identities, measures)
    requires row.key != GroupKey(id, identities[id], grouping)
    requires RowOver(identities, measures, grouping, look, ids, row)
    ensures RowOver(identities, measures, grouping, look, ids + {id}, row)
  {
    hide GroupKey, Describes, GroupSecond;
    VisitKeys(identities, grouping, ids, id);
  }

  lemma VisitTable(identities: map<int, Identity>, measures: map<int, Measure>, grouping: GroupBy, look: Look,
                   ids: set<int>, id: int, table: map<string, TableRow>)
    requires ids + {id} <= Identified(identities, measures) && id !in ids
    requires TableOver(identities, measures, grouping, look, ids, table)
    ensures TableOver(identities, measures, grouping, look, ids + {id},
      AddToTable(table, id, identities[id], measures[id], grouping, look))
  {
    hide AddMeasure, GroupKey, RowOver, Members, KeysOf;
    var key := GroupKey(id, identities[id], grouping);
    var row := if key in table then table[key] else NewRow(id, identities[id], grouping, look);
    hide NewRow;
    assert row.key == key by { NewKey(id, identities[id], grouping, look); }
    VisitKeys(identities, grouping, ids, id);
    if key in table {
      RowNotEmpty(identities, measures, grouping, look, ids, row);
    }
    VisitRow(identities, measures, grouping, look, ids, id, row);
    forall k | k in table && k != key
      ensures RowOver(identities, measures, grouping, look, ids + {id}, table[k])
    {
      OtherRow(identities, measures, grouping, look, ids, id, table[k]);
    }
  }

  lemma NewKey(id: int, i: Identity, grouping: GroupBy, look: Look)
    ensures NewRow(id, i, grouping, look).key == GroupKey(id, i, grouping)
  {
  }

  lemma RowNotEmpty(identities: map<int, Identity>, measures: map<int, Measure>, grouping: GroupBy, look: Look,
                    ids: set<int>, row: TableRow)
    requires ids <= Identified(identities, measures) && RowOver(identities, measures, grouping, look, ids, row)
    ensures Members(identities, grouping, ids, row.key) != {}
  {
  }

  // ---- The order of the rows

  /** Biggest first by rate, then by session, then by name and by key. */
  predicate Above(sort: Direction, a: TableRow, b: TableRow) {
    var ra, rb := Rank(sort, a.measure.rate), Rank(sort, b.measure.rate);
    var sa, sb := Rank(sort, a.measure.session), Rank(sort, b.measure.session);
    ra > rb || (ra == rb && (sa > sb || (sa == sb && TextsBefore(a.name, a.key, b.name, b.key))))
  }

  predicate TextsBefore(name1: string, key1: string, name2: string, key2: string) {
    TextLess(name1, name2) || (name1 == name2 && TextLess(key1, key2))
  }

  lemma AboveOrder(sort: Direction, a: TableRow, b: TableRow)
    ensures Above(sort, a, b) || Above(sort, b, a) || (a.name == b.name && a.key == b.key)
    ensures !(Above(sort, a, b) && Above(sort, b, a)) && !Above(sort, a, a)
  {
    TextOrder(a.name, b.name);
    TextOrder(a.key, b.key);
  }

  lemma TextsTransitive(n1: string, k1: string, n2: string, k2: string, n3: string, k3: string)
    requires TextsBefore(n1, k1, n2, k2) && TextsBefore(n2, k2, n3, k3)
    ensures TextsBefore(n1, k1, n3, k3)
  {
    if TextLess(n1, n2) && TextLess(n2, n3) {
      TextTransitive(n1, n2, n3);
    } else if n1 == n2 == n3 {
      TextOrder(n1, n2);
      TextTransitive(k1, k2, k3);
    }
  }

  lemma AboveTransitive(sort: Direction, a: TableRow, b: TableRow, c: TableRow)
    requires Above(sort, a, b) && Above(sort, b, c)
    ensures Above(sort, a, c)
  {
    hide TextsBefore, Rank;
    if TextsBefore(a.name, a.key, b.name, b.key) && TextsBefore(b.name, b.key, c.name, c.key) {
      TextsTransitive(a.name, a.key, b.name, b.key, c.name, c.key);
    }
  }

  predicate RowsSorted(sort: Direction, s: seq<TableRow>) {
    forall i, j :: 0 <= i < j < |s| ==> Above(sort, s[i], s[j])
  }

  predicate KeysDiffer(s: seq<TableRow>) {
    forall i, j :: 0 <= i < j < |s| ==> s[i].key != s[j].key
  }

  function Insert(sort: Direction, s: seq<TableRow>, r: TableRow): seq<TableRow> {
    if s == [] || Above(sort, s[|s| - 1], r) then s + [r]
    else Insert(sort, s[..|s| - 1], r) + [s[|s| - 1]]
  }

  function SortRows(sort: Direction, s: seq<TableRow>): seq<TableRow> {
    if s == [] then [] else Insert(sort, SortRows(sort, s[..|s| - 1]), s[|s| - 1])
  }

  lemma {:induction false} InsertElements(sort: Direction, s: seq<TableRow>, r: TableRow)
    ensures forall x :: x in Insert(sort, s, r) <==> x in s || x == r
    decreases |s|
  {
    if s != [] && !Above(sort, s[|s| - 1], r) {
      assert s == s[..|s| - 1] + [s[|s| - 1]];
      InsertElements(sort, s[..|s| - 1], r);
    }
  }

  lemma AppendSorted(sort: Direction, s: seq<TableRow>, r: TableRow)
    requires RowsSorted(sort, s) && forall x :: x in s ==> Above(sort, x, r)
    ensures RowsSorted(sort, s + [r])
  {
    hide Above;
  }

  lemma LastIsBelow(sort: Direction, s: seq<TableRow>, x: TableRow)
    requires RowsSorted(sort, s) && s != [] && x in s[..|s| - 1]
    ensures Above(sort, x, s[|s| - 1])
  {
    hide Above;
    var i :| 0 <= i < |s| - 1 && s[i] == x;
  }

  lemma {:induction false} InsertSorted(sort: Direction, s: seq<TableRow>, r: TableRow)
    requires RowsSorted(sort, s) && forall x :: x in s ==> x.key != r.key
    ensures RowsSorted(sort, Insert(sort, s, r))
    decreases |s|
  {
    hide Above;
    if s != [] {
      var rest, last := s[..|s| - 1], s[|s| - 1];
      assert s == rest + [last] && last in s;
      if Above(sort, last, r) {
        forall x | x in s
          ensures Above(sort, x, r)
        {
          if x in rest {
            LastIsBelow(sort, s, x);
            AboveTransitive(sort, x, last, r);
          }
        }
        AppendSorted(sort, s, r);
      } else {
        AboveOrder(sort, last, r);
        InsertSorted(sort, rest, r);
        InsertElements(sort, rest, r);
        forall x | x in Insert(sort, rest, r)
          ensures Above(sort, x, last)
        {
          if x in rest {
            LastIsBelow(sort, s, x);
          }
        }
        AppendSorted(sort, Insert(sort, rest, r), last);
      }
    }
  }

  lemma {:induction false} SortsRows(sort: Direction, s: seq<TableRow>)
    requires KeysDiffer(s)
    ensures RowsSorted(sort, SortRows(sort, s)) && KeysDiffer(SortRows(sort, s))
    ensures forall x :: x in SortRows(sort, s) <==> x in s
    decreases |s|
  {
    if s != [] {
      var rest, last := s[..|s| - 1], s[|s| - 1];
      assert s == rest + [last];
      SortsRows(sort, rest);
      forall x | x in SortRows(sort, rest)
        ensures x.key != last.key
      {
        assert x in rest;
      }
      InsertElements(sort, SortRows(sort, rest), last);
      InsertSorted(sort, SortRows(sort, rest), last);
      InsertDiffers(sort, SortRows(sort, rest), last);
    }
  }

  lemma {:induction false} InsertDiffers(sort: Direction, s: seq<TableRow>, r: TableRow)
    requires KeysDiffer(s) && forall x :: x in s ==> x.key != r.key
    ensures KeysDiffer(Insert(sort, s, r))
    decreases |s|
  {
    hide Above;
    if s != [] && !Above(sort, s[|s| - 1], r) {
      var rest, last := s[..|s| - 1], s[|s| - 1];
      assert s == rest + [last] && last in s;
      InsertDiffers(sort, rest, r);
      InsertElements(sort, rest, r);
      forall x | x in Insert(sort, rest, r)
        ensures x.key != last.key
      {
        if x in rest {
          var i :| 0 <= i < |rest| && rest[i] == x;
          assert s[i].key != s[|rest|].key;
        }
      }
    }
  }

  /** A set of rows has one ranking, whatever order a hash map hands them over in. */
  lemma {:induction false} RankingIsUnique(sort: Direction, a: seq<TableRow>, b: seq<TableRow>)
    requires RowsSorted(sort, a) && RowsSorted(sort, b)
    requires forall x :: x in a <==> x in b
    ensures a == b
    decreases |a|
  {
    hide Above;
    assert a != [] ==> a[0] in b;
    assert b != [] ==> b[0] in a;
    if a != [] {
      TopRowsAgree(sort, a, b);
      forall x
        ensures x in a[1..] <==> x in b[1..]
      {
        InTail(sort, a, x);
        InTail(sort, b, x);
      }
      assert RowsSorted(sort, a[1..]) && RowsSorted(sort, b[1..]);
      RankingIsUnique(sort, a[1..], b[1..]);
      assert a == [a[0]] + a[1..] && b == [b[0]] + b[1..];
    }
  }

  lemma InTail(sort: Direction, s: seq<TableRow>, x: TableRow)
    requires RowsSorted(sort, s) && s != []
    ensures x in s[1..] <==> x in s && x != s[0]
  {
    AboveOrder(sort, s[0], s[0]);
    hide Above;
    if x in s[1..] {
      var i :| 0 <= i < |s[1..]| && s[1..][i] == x;
      assert Above(sort, s[0], s[i + 1]);
    }
  }

  lemma TopRowsAgree(sort: Direction, a: seq<TableRow>, b: seq<TableRow>)
    requires RowsSorted(sort, a) && RowsSorted(sort, b) && a != [] && b != []
    requires forall x :: x in a <==> x in b
    ensures a[0] == b[0]
  {
    FirstIsTop(sort, a, b[0]);
    FirstIsTop(sort, b, a[0]);
    AboveOrder(sort, a[0], b[0]);
  }

  lemma FirstIsTop(sort: Direction, s: seq<TableRow>, x: TableRow)
    requires RowsSorted(sort, s) && x in s
    ensures x == s[0] || Above(sort, s[0], x)
  {
    hide Above;
    var i :| 0 <= i < |s| && s[i] == x;
    if i > 0 {
      assert Above(sort, s[0], s[i]);
    }
  }
}
