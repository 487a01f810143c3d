/** What the rows on screen say and in which order, told from the records and from
    plain facts about texts and numbers. */
module Columns {
  import opened Counters
  import opened Identities
  import opened Ranking
  import opened Trends
  import opened Screen
  import opened Display
  import opened Search
  import opened Roster
  import opened Haystack
  import opened Answers

  // ---- Texts

  /** A path's last name, between what comes before it and slashes that end it. */
  predicate LastName(path: string, before: string, name: string, slashes: string) {
    && path == before + name + slashes
    && (before == "" || before[|before| - 1] == '/')
    && name != "" && (forall i :: 0 <= i < |name| ==> name[i] != '/')
    && (forall i :: 0 <= i < |slashes| ==> slashes[i] == '/')
  }

  lemma {:induction false} TrimsSlashes(text: string, slashes: string)
    requires text != "" ==> text[|text| - 1] != '/'
    requires forall i :: 0 <= i < |slashes| ==> slashes[i] == '/'
    ensures TrimSlashes(text + slashes) == text
    decreases |slashes|
  {
    if slashes == "" {
      assert text + slashes == text;
    } else {
      var rest := slashes[..|slashes| - 1];
      assert (text + slashes)[..|text + slashes| - 1] == text + rest;
      TrimsSlashes(text, rest);
    }
  }

  lemma {:induction false} TakesLast(before: string, name: string)
    requires before == "" || before[|before| - 1] == '/'
    requires forall i :: 0 <= i < |name| ==> name[i] != '/'
    ensures AfterSlash(before + name) == name
    decreases |name|
  {
    if name == "" {
      assert before + name == before;
    } else {
      var rest := name[..|name| - 1];
      assert (before + name)[..|before + name| - 1] == before + rest;
      TakesLast(before, rest);
      assert name == rest + [name[|name| - 1]];
    }
  }

  /** Slashes at the end aside, a path goes by its last name; one of slashes alone
      by itself. */
  lemma BasenameIs(path: string, before: string, name: string, slashes: string)
    ensures LastName(path, before, name, slashes) ==> Basename(path) == name
    ensures (forall i :: 0 <= i < |path| ==> path[i] == '/') ==> Basename(path) == path
  {
    if LastName(path, before, name, slashes) {
      TrimsSlashes(before + name, slashes);
      TakesLast(before, name);
    }
    if forall i :: 0 <= i < |path| ==> path[i] == '/' {
      TrimsSlashes("", path);
      assert "" + path == path;
    }
  }

  /** A path is shown as it is, but for one at or under the home directory, where a
      tilde takes the home's place. */
  lemma TildeIs(home: string, path: string, rest: string)
    ensures home != "" && path == home + rest && (rest == "" || rest[0] == '/') ==> Tilde(home, path) == "~" + rest
    ensures !(home != "" && home <= path && (path[|home|..] == "" || path[|home|..][0] == '/')) ==>
      Tilde(home, path) == path
  {
  }

  /** The text a row's key is, for the identity `id`. */
  predicate KeyStands(id: int, i: Identity, grouping: GroupBy, key: string) {
    match grouping
    case ByIdentity => if id < 0 then key != "" && key[0] == '-' && Numeral(key[1..], -id) else Numeral(key, id)
    case ByProject => key == i.record.key.projectRoot
    case ByExe => key == i.record.key.exe
    case ByUser =>
      if i.record.username == None || i.record.username == Some("") then
        if i.record.key.uid == 4_294_967_295 then key == "?" else Numeral(key, i.record.key.uid)
      else i.record.username == Some(key)
  }

  /** An identity is in the row of its number, its project, its program or its user. */
  lemma GroupKeyIs(id: int, i: Identity, grouping: GroupBy, key: string)
    ensures GroupKey(id, i, grouping) == key <==> KeyStands(id, i, grouping, key)
  {
    if grouping == ByUser {
      NumeralIsDecimal(key, i.record.key.uid);
    }
    if grouping == ByIdentity {
      if id >= 0 {
        NumeralIsDecimal(key, id);
      } else if key != "" && key[0] == '-' {
        NumeralIsDecimal(key[1..], -id);
        assert key == "-" + key[1..];
      }
    }
    hide Numeral, Decimal;
  }

  function Short(i: Identity): string {
    if i.record.comm == "" then Basename(i.record.key.exe) else i.record.comm
  }

  function Project(i: Identity): string {
    if i.record.key.projectRoot == "<none>" then "-" else Basename(i.record.key.projectRoot)
  }

  // ---- Order

  /** One text comes before another in the dictionary. */
  ghost predicate Before(a: string, b: string) {
    exists n: nat :: PartAt(a, b, n)
  }

  function Weight(sort: Direction, b: Bytes): nat {
    if sort == Both then b.ingress + b.egress else if sort == Ingress then b.ingress else b.egress
  }

  /** A row above another is shown the higher rate, or as high and the bigger
      session, or that too and the earlier name, or the same name and the earlier key. */
  lemma RowsInOrder(sort: Direction, rows: seq<TableRow>, i: nat, j: nat)
    requires RowsSorted(sort, rows) && i < j < |rows|
    ensures var a, b := rows[i], rows[j];
            var faster := Weight(sort, a.measure.rate) - Weight(sort, b.measure.rate);
            var bigger := Weight(sort, a.measure.session) - Weight(sort, b.measure.session);
      && faster >= 0
      && (faster == 0 ==> bigger >= 0)
      && (faster == 0 && bigger == 0 ==> a.name == b.name || Before(a.name, b.name))
      && (faster == 0 && bigger == 0 && a.name == b.name ==> Before(a.key, b.key))
  {
    var a, b := rows[i], rows[j];
    assert Above(sort, a, b);
    TextLessParts(a.name, b.name);
    TextLessParts(a.key, b.key);
    TextOrder(a.name, b.name);
    hide TextLess, PartAt;
  }

  /** A line in a group's list has moved no less than the lines below it, and of two
      that moved alike neither stands below a later name. */
  lemma LinesInOrder(sort: Direction, listed: seq<Member>, i: nat, j: nat)
    requires InOrder(sort, listed) && i < j < |listed|
    ensures var a, b := listed[i], listed[j];
      && Weight(sort, a.bytes) >= Weight(sort, b.bytes)
      && (Weight(sort, a.bytes) == Weight(sort, b.bytes) ==> a.name == b.name || Before(a.name, b.name))
  {
    var a, b := listed[i], listed[j];
    assert !Outranks(sort, b, a);
    TextLessParts(a.name, b.name);
    TextOrder(a.name, b.name);
    hide TextLess, PartAt;
  }

  // ---- The filter's text

  lemma EitherLine(a: string, b: string, needle: string)
    requires '\n' !in needle
    ensures Contains(a + "\n" + b, needle) <==> Contains(a, needle) || Contains(b, needle)
  {
    if needle == "" {
      assert FoundAt(a, needle, 0) && FoundAt(a + "\n" + b, needle, 0);
    } else {
      GatheredContains("", a, needle);
      assert "" + a + "\n" == a + "\n";
      GatheredContains(a + "\n", b, needle);
      GatheredContains("", a + "\n" + b, needle);
      assert "" + (a + "\n" + b) + "\n" == a + "\n" + b + "\n";
      EmptyText(needle);
    }
  }

  lemma EmptyText(needle: string)
    requires needle != ""
    ensures !Contains("", needle)
  {
  }

  /** Lower case is put line by line. */
  ghost predicate LineByLine(lower: string -> string) {
    forall a, b :: lower(a + "\n" + b) == lower(a) + "\n" + lower(b)
  }

  /** What the filter looks at, each text by itself: a member's key and short name
      where rows are groups, and its name, project, program, command line and user
      where not. */
  ghost predicate Findable(id: int, i: Identity, grouping: GroupBy, look: Look, needle: string) {
    || Contains(look.lower(Short(i)), needle)
    || if grouping != ByIdentity then exists key :: KeyStands(id, i, grouping, key) && Contains(look.lower(key), needle)
       else Contains(look.lower(i.record.key.projectRoot), needle)
            || Contains(look.lower(i.record.key.exe), needle)
            || Contains(look.lower(i.record.key.cmdline), needle)
            || exists user :: KeyStands(id, i, ByUser, user) && Contains(look.lower(user), needle)
  }

  lemma FieldsSearched(id: int, i: Identity, grouping: GroupBy, look: Look, needle: string)
    requires LineByLine(look.lower) && '\n' !in needle
    ensures Contains(MemberText(id, i, grouping, look), needle) <==> Findable(id, i, grouping, look, needle)
  {
    var key := i.record.key;
    var lower, short, user := look.lower, ShortName(i), UserText(i);
    OneKey(id, i, ByUser);
    assert GroupKey(id, i, ByUser) == user;
    OneKey(id, i, grouping);
    hide Contains, KeyStands, GroupKey, UserText, Basename;
    if grouping != ByIdentity {
      EitherLine(lower(GroupKey(id, i, grouping)), lower(short), needle);
    } else {
      var a := short + "\n" + key.projectRoot;
      var b := a + "\n" + key.exe;
      var c := b + "\n" + key.cmdline;
      EitherLine(lower(c), lower(user), needle);
      EitherLine(lower(b), lower(key.cmdline), needle);
      EitherLine(lower(a), lower(key.exe), needle);
      EitherLine(lower(short), lower(key.projectRoot), needle);
    }
  }

  lemma OneKey(id: int, i: Identity, grouping: GroupBy)
    ensures forall key :: KeyStands(id, i, grouping, key) <==> key == GroupKey(id, i, grouping)
  {
    forall key
      ensures KeyStands(id, i, grouping, key) <==> key == GroupKey(id, i, grouping)
    {
      GroupKeyIs(id, i, grouping, key);
    }
  }

  /** A row is let through if and only if the filter, in lower case, is found in one
      of its members' texts. */
  lemma FilterFinds(identities: map<int, Identity>, grouping: GroupBy, look: Look, filter: string, key: string,
                    members: set<int>)
    requires LineByLine(look.lower) && '\n' !in look.lower(filter)
    ensures TextFilter(identities, grouping, look, filter)(key, members)
       <==> exists id ::
              id in members && id in identities && Findable(id, identities[id], grouping, look, look.lower(filter))
  {
    hide MemberText, Findable, Contains;
    forall id | id in members && id in identities
      ensures Contains(MemberText(id, identities[id], grouping, look), look.lower(filter))
         <==> Findable(id, identities[id], grouping, look, look.lower(filter))
    {
      FieldsSearched(id, identities[id], grouping, look, look.lower(filter));
    }
  }

  // ---- The columns

  /** A count of identities, in words. */
  predicate Counts(text: string, n: nat) {
    if n == 1 then text == "1 identity"
    else |text| > 11 && text[|text| - 11..] == " identities" && Numeral(text[..|text| - 11], n)
  }

  lemma CountTextCounts(n: nat)
    ensures Counts(CountText(n), n)
  {
    DecimalPrints(n);
    assert (Decimal(n) + " identities")[|Decimal(n)|..] == " identities";
    assert (Decimal(n) + " identities")[..|Decimal(n)|] == Decimal(n);
    hide Numeral;
  }

  /** An ungrouped row is its one identity's: its short name, project and user, and
      whether its program was found out. */
  predicate SaysIdentity(row: TableRow, id: int, i: Identity) {
    && row.name == Short(i) && row.second == Project(i) && KeyStands(id, i, ByUser, row.third)
    && row.identity == Some(id) && (row.unresolved <==> i.record.key.exe == "<unresolved>") && row.listed == []
  }

  /** A group's row goes by its project's or program's last name or its user, shows
      the path or some member's uid, and counts its members. */
  predicate SaysGroup(row: TableRow, i: Identity, grouping: GroupBy, home: string) {
    && row.identity == None && !row.unresolved && Counts(row.third, |row.members|)
    && match grouping
       case ByIdentity => false
       case ByProject => row.name == Project(i) && row.second == Tilde(home, i.record.key.projectRoot)
       case ByExe => row.name == Basename(i.record.key.exe) && row.second == Tilde(home, i.record.key.exe)
       case ByUser => row.name == row.key
  }

  predicate ShowsUid(text: string, uid: nat) {
    |text| > 4 && text[..4] == "uid " && Numeral(text[4..], uid)
  }

  /** What each row says of each identity in it. */
  lemma RowSays(identities: map<int, Identity>, measures: map<int, Measure>, grouping: GroupBy, look: Look,
                sort: Direction, hit: Filter, rows: seq<TableRow>, row: TableRow, id: int)
    requires Shows(identities, measures, grouping, look, sort, hit, rows) && row in rows && id in row.members
    ensures id in identities && KeyStands(id, identities[id], grouping, row.key)
    ensures grouping == ByIdentity ==> SaysIdentity(row, id, identities[id])
    ensures grouping != ByIdentity ==> SaysGroup(row, identities[id], grouping, look.home)
    ensures grouping == ByUser ==>
      exists other :: other in row.members && ShowsUid(row.second, identities[other].record.key.uid)
  {
    assert RowShown(identities, measures, grouping, look, sort, row);
    hide Shows, Lists, SumOver, InOrder;
    GroupKeyIs(id, identities[id], grouping, row.key);
    GroupKeyIs(id, identities[id], ByUser, row.third);
    CountTextCounts(|row.members|);
    assert Describes(id, identities[id], grouping, row);
    var other :| other in row.members && row.second == GroupSecond(identities[other], grouping, look);
    GroupKeyIs(other, identities[other], grouping, row.key);
    UidShown(identities[other].record.key.uid);
    hide KeyStands, Counts, Basename, Tilde, Decimal, CountText, ShowsUid;
  }

  lemma UidShown(uid: nat)
    ensures ShowsUid(UidText(uid), uid)
  {
    DecimalPrints(uid);
    assert UidText(uid)[4..] == Decimal(uid);
    hide Numeral, Decimal;
  }

  ghost function Having(lines: map<int, Member>, ids: set<int>, line: Member): set<int>
    requires ids <= lines.Keys
  {
    set id | id in ids && lines[id] == line
  }

  lemma {:induction false} BagCounts(lines: map<int, Member>, ids: set<int>, line: Member)
    requires ids <= lines.Keys
    ensures Bag(lines, ids)[line] == |Having(lines, ids, line)|
    decreases ids
  {
    if ids == {} {
      assert Having(lines, ids, line) == {};
    } else {
      var id := Pick(ids);
      BagCounts(lines, ids - {id}, line);
      assert Having(lines, ids, line)
          == Having(lines, ids - {id}, line) + if lines[id] == line then {id} else {};
    }
  }

  /** A group lists each line as often as it has members of that short name and rate. */
  lemma GroupLists(identities: map<int, Identity>, measures: map<int, Measure>, grouping: GroupBy, look: Look,
                   sort: Direction, hit: Filter, rows: seq<TableRow>, row: TableRow, line: Member)
    requires Shows(identities, measures, grouping, look, sort, hit, rows) && row in rows && grouping != ByIdentity
    ensures forall id :: id in row.members ==> id in identities && id in measures
    ensures multiset(row.listed)[line]
         == |set id | id in row.members && Short(identities[id]) == line.name && measures[id].rate == line.bytes|
  {
    assert RowShown(identities, measures, grouping, look, sort, row);
    hide Shows, Labelled, SumOver, InOrder, Bag;
    var lines := Lines(identities, measures);
    BagCounts(lines, row.members, line);
    assert Having(lines, row.members, line)
        == set id | id in row.members && Short(identities[id]) == line.name && measures[id].rate == line.bytes;
  }
}
