/** What the two ranked answers hold, row by row: told from the tick or from the
    recorded minutes, and from what is on record of each identity. */
module Answers {
  import opened Counters
  import opened Zones
  import opened Rollup
  import opened History
  import opened Stitch
  import opened Ranking
  import opened Identities
  import opened Query
  import W = Watch
  import T = Top

  predicate Visible(vis: Visibility, i: Identity) {
    vis == All || vis == Uid(i.record.key.uid)
  }

  predicate Asked(want: ScopeFilter, scope: Scope) {
    want == AnyScope || want == Only(scope)
  }

  /** A number as it is printed. */
  predicate Numeral(text: string, n: nat) {
    && text != ""
    && (forall i :: 0 <= i < |text| ==> '0' <= text[i] <= '9')
    && (|text| > 1 ==> text[0] != '0')
    && ValueOf(text) == n
  }

  function ValueOf(text: string): int {
    if text == "" then 0 else 10 * ValueOf(text[..|text| - 1]) + (text[|text| - 1] as int - '0' as int)
  }

  /** Whom a group stands for. A live group by user goes by the uid where the name
      is missing or empty, a stored one only where it is missing. */
  predicate Stands(i: Identity, grouping: GroupBy, group: string, live: bool) {
    match grouping
    case ByIdentity => false
    case ByProject => i.record.key.projectRoot == group
    case ByExe => i.record.key.exe == group
    case ByUser =>
      if i.record.username == None || (live && i.record.username == Some("")) then Numeral(group, i.record.key.uid)
      else i.record.username == Some(group)
  }

  // ---- Numbers as text

  lemma {:induction false} DecimalPrints(n: nat)
    ensures Numeral(Decimal(n), n)
    ensures n > 0 ==> Decimal(n)[0] != '0'
    decreases n
  {
    if n >= 10 {
      DecimalPrints(n / 10);
      var rest := Decimal(n / 10);
      assert Decimal(n)[..|rest|] == rest;
    } else {
      assert Decimal(n)[..0] == "";
    }
  }

  lemma {:induction false} NumeralPositive(text: string)
    requires text != "" && (forall i :: 0 <= i < |text| ==> '0' <= text[i] <= '9')
    ensures 0 <= ValueOf(text) && (text[0] != '0' ==> 0 < ValueOf(text))
    decreases |text|
  {
    if |text| > 1 {
      NumeralPositive(text[..|text| - 1]);
    } else {
      assert text[..0] == "";
    }
  }

  lemma NumeralTail(text: string, n: nat)
    requires Numeral(text, n) && |text| > 1
    ensures n >= 10 && Numeral(text[..|text| - 1], n / 10) && text[|text| - 1] == "0123456789"[n % 10]
  {
    var rest, last := text[..|text| - 1], text[|text| - 1];
    NumeralPositive(rest);
    assert n == 10 * ValueOf(rest) + (last as int - '0' as int);
  }

  lemma NumeralDigit(text: string, n: nat)
    requires Numeral(text, n) && |text| == 1
    ensures n < 10 && text == ["0123456789"[n]]
  {
    assert text[..|text| - 1] == "" && text == [text[0]];
    assert ValueOf("") == 0;
    assert n == text[0] as int - '0' as int;
    DigitShows(n);
  }

  lemma DigitShows(n: nat)
    requires n < 10
    ensures "0123456789"[n] as int == '0' as int + n
  {
  }

  /** And a number is printed in just one way. */
  lemma {:induction false} NumeralIsDecimal(text: string, n: nat)
    ensures Numeral(text, n) <==> text == Decimal(n)
    decreases n
  {
    DecimalPrints(n);
    if Numeral(text, n) {
      if |text| > 1 {
        NumeralTail(text, n);
        hide Numeral;
        NumeralIsDecimal(text[..|text| - 1], n / 10);
        assert text == text[..|text| - 1] + [text[|text| - 1]];
      } else {
        NumeralDigit(text, n);
      }
    }
  }

  /** Whose counters are summed under a key: one identity's, or those of everyone a
      group stands for; nobody's who may not be seen. */
  ghost function Members(ids: Registry, vis: Visibility, grouping: GroupBy, live: bool, k: SumKey): set<int> {
    set id |
      && id in ids && Visible(vis, ids[id])
      && if grouping == ByIdentity then id == k.id && k.group == ""
         else k.id == 0 && Stands(ids[id], grouping, k.group, live)
  }

  lemma LabelStands(i: Identity, grouping: GroupBy, group: string)
    requires grouping != ByIdentity
    ensures Stands(i, grouping, group, true) <==> LiveGroup(i, grouping) == group
    ensures Stands(i, grouping, group, false) <==> StoredGroup(i, grouping) == group
  {
    NumeralIsDecimal(group, i.record.key.uid);
    hide Numeral, Decimal;
  }

  // ---- The order of an answer

  /** `a` and `b` part after `n` characters, where `a` ends or has the smaller one. */
  predicate PartAt(a: string, b: string, n: nat) {
    n <= |a| && n < |b| && a[..n] == b[..n] && (n == |a| || a[n] < b[n])
  }

  lemma PartLater(a: string, b: string, n: nat)
    requires a != "" && b != "" && a[0] == b[0]
    ensures PartAt(a, b, n + 1) <==> PartAt(a[1..], b[1..], n)
    ensures !PartAt(a, b, 0)
  {
    if n < |a| && n < |b| {
      assert a[..n + 1] == [a[0]] + a[1..][..n] && b[..n + 1] == [b[0]] + b[1..][..n];
    }
  }

  lemma PartHere(a: string, b: string, n: nat)
    requires a != "" && b != "" && a[0] != b[0]
    ensures PartAt(a, b, n) <==> n == 0 && a[0] < b[0]
  {
    if 0 < n <= |a| && n < |b| {
      assert a[..n][0] == a[0] && b[..n][0] == b[0];
    }
  }

  /** Texts compare as in a dictionary. */
  lemma {:induction false} TextLessParts(a: string, b: string)
    ensures TextLess(a, b) <==> exists n: nat :: PartAt(a, b, n)
    decreases |a|
  {
    if a == "" {
      assert b != "" ==> PartAt(a, b, 0);
    } else if b != "" {
      hide PartAt;
      if a[0] == b[0] {
        TextLessParts(a[1..], b[1..]);
        PartLater(a, b, 0);
        if n: nat :| PartAt(a[1..], b[1..], n) {
          PartLater(a, b, n);
        }
        if n: nat :| PartAt(a, b, n) {
          PartLater(a, b, if n == 0 then 0 else n - 1);
        }
      } else {
        PartHere(a, b, 0);
        if n: nat :| PartAt(a, b, n) {
          PartHere(a, b, n);
        }
      }
    }
  }

  /** An entry before another moved more bytes in the direction asked for, or as
      many and has the smaller id, or that and the label first in the dictionary,
      or all that and is the external one. */
  lemma AnswerInOrder(dir: Direction, ds: seq<Entry>, i: nat, j: nat)
    requires i < j < |Leaders(dir, ds, 0)|
    ensures var x, y := Leaders(dir, ds, 0)[i], Leaders(dir, ds, 0)[j];
            var more := (match dir
                         case Both => x.bytes.ingress + x.bytes.egress - y.bytes.ingress - y.bytes.egress
                         case Ingress => x.bytes.ingress - y.bytes.ingress
                         case Egress => x.bytes.egress - y.bytes.egress);
      && more >= 0
      && (more == 0 ==> x.key.id <= y.key.id)
      && (more == 0 && x.key.id == y.key.id ==>
            x.key.group == y.key.group || exists n: nat :: PartAt(x.key.group, y.key.group, n))
      && (more == 0 && x.key.id == y.key.id && x.key.group == y.key.group ==>
            x.key.scope == External && y.key.scope == Loopback)
  {
    LeadersSpec(dir, ds, 0);
    var x, y := Leaders(dir, ds, 0)[i], Leaders(dir, ds, 0)[j];
    assert Ahead(dir, x, y);
    TextLessParts(x.key.group, y.key.group);
    TextOrder(x.key.group, y.key.group);
    hide Leaders, Ranked, TextLess, PartAt;
  }

  // ---- A chunk of the live stream

  /** The sum of a tick's deltas from `members` in one scope. */
  ghost function DeltasFrom(deltas: seq<W.Delta>, members: set<int>, scope: Scope): Cell {
    if deltas == [] then Absent
    else
      var d := deltas[|deltas| - 1];
      Plus(DeltasFrom(deltas[..|deltas| - 1], members, scope),
           if d.flow.identity in members && d.flow.scope == scope then Row(d.bytes) else Absent)
  }

  lemma LiveKey(req: W.Request, ids: Registry, f: Flow, k: SumKey)
    ensures W.KeyOf(req, W.Lookup(ids, req.vis, f.identity), f) == Some(k)
         <==> Asked(req.want, k.scope) && f.scope == k.scope
              && f.identity in Members(ids, req.vis, req.grouping, true, k)
  {
    if f.identity in ids && req.grouping != ByIdentity {
      LabelStands(ids[f.identity], req.grouping, k.group);
    }
    hide Stands;
  }

  lemma {:induction false} ShownFrom(req: W.Request, ids: Registry, deltas: seq<W.Delta>, k: SumKey)
    ensures SumOf(W.Shown(req, W.Fresh(ids, req.vis), deltas), k)
         == if Asked(req.want, k.scope)
            then DeltasFrom(deltas, Members(ids, req.vis, req.grouping, true, k), k.scope) else Absent
    decreases |deltas|
  {
    if deltas != [] {
      var rest, d := deltas[..|deltas| - 1], deltas[|deltas| - 1];
      ShownFrom(req, ids, rest, k);
      LiveKey(req, ids, d.flow, k);
      var before := W.Shown(req, W.Fresh(ids, req.vis), rest);
      var under := W.KeyOf(req, W.Lookup(ids, req.vis, d.flow.identity), d.flow);
      hide Members, Asked, W.KeyOf, W.Lookup;
      if under.Some? {
        assert (before + [Entry(under.value, d.bytes)])[..|before|] == before;
      } else {
        assert before + [] == before;
      }
    }
  }

  /** An unlimited chunk has a counter exactly for each key under which somebody
      visible is heard from in a scope asked for, and it is the sum of just their
      deltas. */
  lemma ChunkHolds(req: W.Request, ids: Registry, deltas: seq<W.Delta>, k: SumKey, b: Bytes)
    requires req.limit == 0
    ensures Entry(k, b) in W.ChunkRows(req, W.Fresh(ids, req.vis), deltas)
       <==> Asked(req.want, k.scope)
            && DeltasFrom(deltas, Members(ids, req.vis, req.grouping, true, k), k.scope) == Row(b)
  {
    LeadersSpec(Both, W.Shown(req, W.Fresh(ids, req.vis), deltas), 0);
    ShownFrom(req, ids, deltas, k);
    hide Members, Asked, SumOf, DeltasFrom;
  }

  /** Ungrouped: a counter for an identity exactly where that identity is known and
      visible, its scope was asked for, and the tick has it; no counter for anybody
      else, or under any label. */
  lemma ChunkByIdentity(req: W.Request, ids: Registry, deltas: seq<W.Delta>, k: SumKey, b: Bytes)
    requires req.limit == 0 && req.grouping == ByIdentity
    ensures Entry(k, b) in W.ChunkRows(req, W.Fresh(ids, req.vis), deltas)
       <==> k.group == "" && k.id in ids && Visible(req.vis, ids[k.id]) && Asked(req.want, k.scope)
            && DeltasFrom(deltas, {k.id}, k.scope) == Row(b)
  {
    ChunkHolds(req, ids, deltas, k, b);
    OneMember(ids, req.vis, true, k);
    NobodysDeltas(deltas, k.scope);
    hide Members, Visible, Asked, DeltasFrom, W.ChunkRows;
  }

  /** So does a stream's next chunk, under labels that are current. */
  lemma StreamHolds(req: W.Request, inputs: seq<W.Input>, k: SumKey, b: Bytes)
    requires req.limit == 0 && inputs != [] && W.NamedCurrent(req, inputs[..|inputs| - 1], inputs[|inputs| - 1])
    ensures var last := inputs[|inputs| - 1];
      Entry(k, b) in W.LastChunk(req, inputs).counters
      <==> Asked(req.want, k.scope)
           && DeltasFrom(last.deltas, Members(last.ids, req.vis, req.grouping, true, k), k.scope) == Row(b)
  {
    W.ChunksAreFresh(req, inputs);
    hide *;
    ChunkHolds(req, inputs[|inputs| - 1].ids, inputs[|inputs| - 1].deltas, k, b);
  }

  lemma OneMember(ids: Registry, vis: Visibility, live: bool, k: SumKey)
    ensures Members(ids, vis, ByIdentity, live, k)
         == if k.group == "" && k.id in ids && Visible(vis, ids[k.id]) then {k.id} else {}
  {
  }

  lemma {:induction false} NobodysDeltas(deltas: seq<W.Delta>, scope: Scope)
    ensures DeltasFrom(deltas, {}, scope) == Absent
    decreases |deltas|
  {
    if deltas != [] {
      NobodysDeltas(deltas[..|deltas| - 1], scope);
    }
  }

  // ---- `top`

  /** The recorded totals of `members` in one scope over a window. */
  ghost function TotalFrom(log: Table, members: set<int>, scope: Scope, from: int, to: int): Cell {
    if members == {} then Absent
    else
      var id := Pick(members);
      Plus(TotalFrom(log, members - {id}, scope, from, to), Total(log, Flow(id, scope), from, to))
  }

  ghost function Matching(ids: Registry, s: T.Selection, k: SumKey): set<int> {
    set id | id in Members(ids, s.vis, s.grouping, false, k) && s.matches(ids[id])
  }

  lemma StoredKey(ids: Registry, s: T.Selection, f: Flow, k: SumKey)
    ensures T.Label(ids, s, f) == Some(k)
         <==> Asked(s.want, k.scope) && f.scope == k.scope && f.identity in Matching(ids, s, k)
  {
    if f.identity in ids && s.grouping != ByIdentity {
      LabelStands(ids[f.identity], s.grouping, k.group);
    }
    hide Stands;
  }

  /** The rows of `members` in one scope. */
  ghost function RowsFrom(rows: seq<FactRow>, members: set<int>, scope: Scope): Cell {
    if rows == [] then Absent
    else
      var row := rows[|rows| - 1];
      Plus(RowsFrom(rows[..|rows| - 1], members, scope),
           if row.key.flow.identity in members && row.key.flow.scope == scope then Row(row.bytes) else Absent)
  }

  lemma {:induction false} TopFrom(ids: Registry, s: T.Selection, rows: seq<FactRow>, k: SumKey)
    ensures SumOf(T.TopEntries(ids, s, rows), k)
         == if Asked(s.want, k.scope) then RowsFrom(rows, Matching(ids, s, k), k.scope) else Absent
    decreases |rows|
  {
    if rows != [] {
      var rest, row := rows[..|rows| - 1], rows[|rows| - 1];
      assert rows == rest + [row];
      TopFrom(ids, s, rest, k);
      StoredKey(ids, s, row.key.flow, k);
      T.TopStep(ids, s, rest, row, k);
      hide Matching, Asked, SumOf, T.TopEntries, T.Label;
    }
  }

  lemma {:induction false} RowsFromRemove(rows: seq<FactRow>, members: set<int>, scope: Scope, id: int)
    requires id in members
    ensures RowsFrom(rows, members, scope)
         == Plus(RowsFrom(rows, members - {id}, scope), T.FlowSum(rows, Flow(id, scope)))
    decreases |rows|
  {
    if rows != [] {
      RowsFromRemove(rows[..|rows| - 1], members, scope, id);
    }
  }

  lemma {:induction false} RowsFromNobody(rows: seq<FactRow>, scope: Scope)
    ensures RowsFrom(rows, {}, scope) == Absent
    decreases |rows|
  {
    if rows != [] {
      RowsFromNobody(rows[..|rows| - 1], scope);
    }
  }

  lemma {:induction false} RowsAreTotals(rows: seq<FactRow>, log: Table, members: set<int>, scope: Scope, from: int,
                                         to: int)
    requires forall id :: T.FlowSum(rows, Flow(id, scope)) == Total(log, Flow(id, scope), from, to)
    ensures RowsFrom(rows, members, scope) == TotalFrom(log, members, scope, from, to)
    decreases members
  {
    hide RowsFrom, T.FlowSum;
    if members == {} {
      RowsFromNobody(rows, scope);
    } else {
      var id := Pick(members);
      RowsFromRemove(rows, members, scope, id);
      RowsAreTotals(rows, log, members - {id}, scope, from, to);
    }
  }

  /** An unlimited `top`, over a window on its tier's bounds and within retention,
      has a row exactly for each key under which somebody visible, picked by the
      filters, was recorded in a scope asked for; and it is the sum of just their
      recorded totals. */
  lemma TopHolds(g: Grid, r: Retention, es: seq<Event>, now: int, tier: Tier, from: int, to: int, rows: seq<FactRow>,
                 ids: Registry, s: T.Selection, dir: Direction, k: SumKey, b: Bytes)
    requires Lawful(g) && Timely(g, es) && By(es, now)
    requires Aligned(g, tier, from) && Aligned(g, tier, to) && from <= to
    requires Retained(r, tier, from, now)
    requires Delivered(rows, After(g, r, es), tier, from, to)
    ensures Entry(k, b) in T.Answer(ids, s, dir, 0, rows)
       <==> Asked(s.want, k.scope) && TotalFrom(Log(es), Matching(ids, s, k), k.scope, from, to) == Row(b)
  {
    forall id
      ensures T.FlowSum(rows, Flow(id, k.scope)) == Total(Log(es), Flow(id, k.scope), from, to)
    {
      T.DeliveredFlowSum(rows, After(g, r, es), tier, from, to, Flow(id, k.scope));
      ReadsAreExact(g, r, es, now, tier, Flow(id, k.scope), from, to);
    }
    hide Lawful, Timely, By, Delivered, Matching, Asked;
    RowsAreTotals(rows, Log(es), Matching(ids, s, k), k.scope, from, to);
    TopFrom(ids, s, rows, k);
    LeadersSpec(dir, T.TopEntries(ids, s, rows), 0);
  }

  /** Ungrouped: a row for an identity exactly where it is on record and visible,
      the filters pick it, its scope was asked for, and it was recorded in the
      window; the row is its recorded total. */
  lemma TopByIdentity(g: Grid, r: Retention, es: seq<Event>, now: int, tier: Tier, from: int, to: int,
                      rows: seq<FactRow>, ids: Registry, s: T.Selection, dir: Direction, k: SumKey, b: Bytes)
    requires Lawful(g) && Timely(g, es) && By(es, now)
    requires Aligned(g, tier, from) && Aligned(g, tier, to) && from <= to
    requires Retained(r, tier, from, now)
    requires Delivered(rows, After(g, r, es), tier, from, to)
    requires s.grouping == ByIdentity
    ensures Entry(k, b) in T.Answer(ids, s, dir, 0, rows)
       <==> k.group == "" && k.id in ids && Visible(s.vis, ids[k.id]) && s.matches(ids[k.id]) && Asked(s.want, k.scope)
            && Total(Log(es), Flow(k.id, k.scope), from, to) == Row(b)
  {
    TopHolds(g, r, es, now, tier, from, to, rows, ids, s, dir, k, b);
    OneMatching(ids, s, k);
    hide Lawful, Timely, By, Delivered, Matching, Asked, Visible, T.Answer, Total;
    assert Pick({k.id}) == k.id && {k.id} - {k.id} == {};
  }

  lemma OneMatching(ids: Registry, s: T.Selection, k: SumKey)
    requires s.grouping == ByIdentity
    ensures Matching(ids, s, k)
         == if k.group == "" && k.id in ids && Visible(s.vis, ids[k.id]) && s.matches(ids[k.id]) then {k.id} else {}
  {
    OneMember(ids, s.vis, false, k);
    hide Members, Visible;
  }
}
