/** Grouping counters by key and ranking the groups, as `top` does in SQL and
    the live stream does in memory: one sum per key in key order, then a stable
    sort by the ranking column, then a limit. */
module Ranking {
  import opened Counters

  datatype SumKey = SumKey(id: int, group: string, scope: Scope)

  datatype Entry = Entry(key: SumKey, bytes: Bytes)

  datatype Direction = Both | Ingress | Egress

  predicate TextLess(a: string, b: string) {
    if b == "" then false
    else if a == "" then true
    else a[0] < b[0] || (a[0] == b[0] && TextLess(a[1..], b[1..]))
  }

  predicate KeyLess(a: SumKey, b: SumKey) {
    || a.id < b.id
    || (a.id == b.id && TextLess(a.group, b.group))
    || (a.id == b.id && a.group == b.group && a.scope == External && b.scope == Loopback)
  }

  lemma {:induction false} TextOrder(a: string, b: string)
    ensures TextLess(a, b) || TextLess(b, a) || a == b
    ensures !(TextLess(a, b) && TextLess(b, a)) && !TextLess(a, a)
    decreases |a|
  {
    if a != "" && b != "" {
      TextOrder(a[1..], b[1..]);
      assert a == [a[0]] + a[1..] && b == [b[0]] + b[1..];
    }
    if a != "" {
      TextOrder(a[1..], a[1..]);
    }
  }

  lemma {:induction false} TextTransitive(a: string, b: string, c: string)
    requires TextLess(a, b) && TextLess(b, c)
    ensures TextLess(a, c)
    decreases |a|
  {
    if a != "" && a[0] == b[0] == c[0] {
      TextTransitive(a[1..], b[1..], c[1..]);
    }
  }

  lemma KeyOrder(a: SumKey, b: SumKey)
    ensures KeyLess(a, b) || KeyLess(b, a) || a == b
    ensures !(KeyLess(a, b) && KeyLess(b, a)) && !KeyLess(a, a)
  {
    TextOrder(a.group, b.group);
  }

  lemma KeyTransitive(a: SumKey, b: SumKey, c: SumKey)
    requires KeyLess(a, b) && KeyLess(b, c)
    ensures KeyLess(a, c)
  {
    TextOrder(a.group, b.group);
    TextOrder(b.group, c.group);
    if TextLess(a.group, b.group) && TextLess(b.group, c.group) {
      TextTransitive(a.group, b.group, c.group);
    }
  }

  // ---- One sum per key, in key order

  /** The order a `BTreeMap` keeps its entries in. */
  predicate KeySorted(s: seq<Entry>) {
    forall i, j :: 0 <= i < j < |s| ==> KeyLess(s[i].key, s[j].key)
  }

  /** `*map.entry(k).or_default() += add`. */
  function Upsert(s: seq<Entry>, k: SumKey, add: Bytes): seq<Entry> {
    if s == [] || KeyLess(k, s[0].key) then [Entry(k, add)] + s
    else if s[0].key == k then [Entry(k, AddBytes(s[0].bytes, add))] + s[1..]
    else [s[0]] + Upsert(s[1..], k, add)
  }

  /** Adding up a list of counters in the order it comes. */
  function Aggregate(ds: seq<Entry>): seq<Entry> {
    if ds == [] then []
    else Upsert(Aggregate(ds[..|ds| - 1]), ds[|ds| - 1].key, ds[|ds| - 1].bytes)
  }

  /** The sum of the counters listed under `k`; for a list with one entry per
      key, that entry. */
  function SumOf(ds: seq<Entry>, k: SumKey): Cell {
    if ds == [] then Absent
    else Plus(SumOf(ds[..|ds| - 1], k), if ds[|ds| - 1].key == k then Row(ds[|ds| - 1].bytes) else Absent)
  }

  lemma {:induction false} SumOfConcat(a: seq<Entry>, b: seq<Entry>, k: SumKey)
    ensures SumOf(a + b, k) == Plus(SumOf(a, k), SumOf(b, k))
    decreases |b|
  {
    if b == [] {
      assert a + b == a;
    } else {
      assert (a + b)[..|a + b| - 1] == a + b[..|b| - 1];
      SumOfConcat(a, b[..|b| - 1], k);
    }
  }

  lemma SumOfHead(s: seq<Entry>, k: SumKey)
    requires s != []
    ensures SumOf(s, k) == Plus(if s[0].key == k then Row(s[0].bytes) else Absent, SumOf(s[1..], k))
  {
    assert s == [s[0]] + s[1..];
    assert [s[0]][..0] == [];
    SumOfConcat([s[0]], s[1..], k);
  }

  lemma {:induction false} UpsertSum(s: seq<Entry>, k: SumKey, add: Bytes, q: SumKey)
    ensures SumOf(Upsert(s, k, add), q) == Plus(SumOf(s, q), if q == k then Row(add) else Absent)
    decreases |s|
  {
    var u := Upsert(s, k, add);
    SumOfHead(u, q);
    if s == [] || KeyLess(k, s[0].key) {
      assert u[1..] == s;
    } else {
      SumOfHead(s, q);
      if s[0].key == k {
        assert u[1..] == s[1..];
      } else {
        assert u[1..] == Upsert(s[1..], k, add);
        UpsertSum(s[1..], k, add, q);
      }
    }
  }

  lemma {:induction false} UpsertSorted(s: seq<Entry>, k: SumKey, add: Bytes)
    requires KeySorted(s)
    ensures KeySorted(Upsert(s, k, add))
    ensures forall e :: e in Upsert(s, k, add) ==> e.key == k || exists i :: 0 <= i < |s| && s[i].key == e.key
    decreases |s|
  {
    if s == [] {
    } else if KeyLess(k, s[0].key) {
      forall i | 0 < i < |s|
        ensures KeyLess(k, s[i].key)
      {
        KeyTransitive(k, s[0].key, s[i].key);
      }
    } else if s[0].key != k {
      KeyOrder(k, s[0].key);
      UpsertSorted(s[1..], k, add);
    }
  }

  /** Grouping sums each key's counters, and nothing else, in key order. */
  lemma {:induction false} AggregateSums(ds: seq<Entry>, k: SumKey)
    ensures KeySorted(Aggregate(ds))
    ensures SumOf(Aggregate(ds), k) == SumOf(ds, k)
    decreases |ds|
  {
    if ds != [] {
      var rest, last := ds[..|ds| - 1], ds[|ds| - 1];
      AggregateSums(rest, k);
      UpsertSorted(Aggregate(rest), last.key, last.bytes);
      UpsertSum(Aggregate(rest), last.key, last.bytes, k);
    }
  }

  lemma {:induction false} SumOfMissing(s: seq<Entry>, k: SumKey)
    requires forall i :: 0 <= i < |s| ==> s[i].key != k
    ensures SumOf(s, k) == Absent
    decreases |s|
  {
    if s != [] {
      SumOfMissing(s[..|s| - 1], k);
    }
  }

  lemma {:induction false} SumOfPresent(s: seq<Entry>, i: nat)
    requires KeySorted(s) && i < |s|
    ensures SumOf(s, s[i].key) == Row(s[i].bytes)
    decreases |s|
  {
    SumOfHead(s, s[i].key);
    forall j | 0 < j < |s|
      ensures s[j].key != s[0].key
    {
      KeyOrder(s[0].key, s[j].key);
    }
    if i == 0 {
      SumOfMissing(s[1..], s[0].key);
    } else {
      SumOfPresent(s[1..], i - 1);
    }
  }

  /** The sums determine a key-ordered list entirely. */
  lemma {:induction false} SumsDetermine(a: seq<Entry>, b: seq<Entry>)
    requires KeySorted(a) && KeySorted(b)
    requires forall k :: SumOf(a, k) == SumOf(b, k)
    ensures a == b
    decreases |a|
  {
    if a == [] || b == [] {
      forall k
        ensures SumOf(a, k) == Absent && SumOf(b, k) == Absent
      {
        assert SumOf(a, k) == SumOf(b, k);
      }
      EmptyBySums(a);
      EmptyBySums(b);
    } else {
      HeadsAgree(a, b);
      forall k
        ensures SumOf(a[1..], k) == SumOf(b[1..], k)
      {
        SumOfHead(a, k);
        SumOfHead(b, k);
        if k == a[0].key {
          TailMisses(a);
          TailMisses(b);
        }
      }
      SumsDetermine(a[1..], b[1..]);
      assert a == [a[0]] + a[1..] && b == [b[0]] + b[1..];
    }
  }

  lemma EmptyBySums(a: seq<Entry>)
    requires KeySorted(a) && forall k :: SumOf(a, k) == Absent
    ensures a == []
  {
    if a != [] {
      SumOfPresent(a, 0);
    }
  }

  lemma TailMisses(a: seq<Entry>)
    requires KeySorted(a) && a != []
    ensures SumOf(a[1..], a[0].key) == Absent
  {
    forall i | 0 <= i < |a[1..]|
      ensures a[1..][i].key != a[0].key
    {
      KeyOrder(a[0].key, a[i + 1].key);
    }
    SumOfMissing(a[1..], a[0].key);
  }

  lemma HeadsAgree(a: seq<Entry>, b: seq<Entry>)
    requires KeySorted(a) && KeySorted(b) && a != [] && b != []
    requires forall k :: SumOf(a, k) == SumOf(b, k)
    ensures a[0] == b[0]
  {
    SumOfPresent(a, 0);
    SumOfPresent(b, 0);
    KeyOrder(a[0].key, b[0].key);
    if KeyLess(a[0].key, b[0].key) {
      FirstMisses(b, a[0].key);
    } else if KeyLess(b[0].key, a[0].key) {
      FirstMisses(a, b[0].key);
    }
  }

  lemma FirstMisses(s: seq<Entry>, k: SumKey)
    requires KeySorted(s) && s != [] && KeyLess(k, s[0].key)
    ensures SumOf(s, k) == Absent
  {
    forall i | 0 <= i < |s|
      ensures s[i].key != k
    {
      KeyOrder(k, k);
      if i > 0 {
        KeyTransitive(k, s[0].key, s[i].key);
      }
    }
    SumOfMissing(s, k);
  }

  // ---- Ranking

  function Rank(dir: Direction, b: Bytes): nat {
    match dir
    case Both => b.ingress + b.egress
    case Ingress => b.ingress
    case Egress => b.egress
  }

  /** `ORDER BY rank DESC, 1, 2, 3`. */
  predicate Ahead(dir: Direction, a: Entry, b: Entry) {
    || Rank(dir, a.bytes) > Rank(dir, b.bytes)
    || (Rank(dir, a.bytes) == Rank(dir, b.bytes) && KeyLess(a.key, b.key))
  }

  predicate Ranked(dir: Direction, s: seq<Entry>) {
    forall i, j :: 0 <= i < j < |s| ==> Ahead(dir, s[i], s[j])
  }

  /** Put `e` behind everything that ranks as high. */
  function PutBehind(dir: Direction, s: seq<Entry>, e: Entry): seq<Entry> {
    if s == [] || Rank(dir, s[|s| - 1].bytes) >= Rank(dir, e.bytes) then s + [e]
    else PutBehind(dir, s[..|s| - 1], e) + [s[|s| - 1]]
  }

  /** `sort_by_key(Reverse(rank))`: a stable sort, biggest first. */
  function StableSort(dir: Direction, s: seq<Entry>): seq<Entry> {
    if s == [] then [] else PutBehind(dir, StableSort(dir, s[..|s| - 1]), s[|s| - 1])
  }

  lemma AppendRanked(dir: Direction, s: seq<Entry>, e: Entry)
    requires Ranked(dir, s) && forall x :: x in s ==> Ahead(dir, x, e)
    ensures Ranked(dir, s + [e])
  {
  }

  lemma {:induction false} PutBehindElements(dir: Direction, s: seq<Entry>, e: Entry)
    ensures multiset(PutBehind(dir, s, e)) == multiset(s) + multiset{e}
    decreases |s|
  {
    if s != [] && Rank(dir, s[|s| - 1].bytes) < Rank(dir, e.bytes) {
      assert s == s[..|s| - 1] + [s[|s| - 1]];
      PutBehindElements(dir, s[..|s| - 1], e);
    }
  }

  lemma AllAheadOfLast(dir: Direction, rest: seq<Entry>, last: Entry)
    requires Ranked(dir, rest + [last])
    ensures Ranked(dir, rest) && forall x :: x in rest ==> Ahead(dir, x, last)
  {
    var s := rest + [last];
    forall x | x in rest
      ensures Ahead(dir, x, last)
    {
      var i :| 0 <= i < |rest| && rest[i] == x;
      assert Ahead(dir, s[i], s[|rest|]);
    }
    assert forall i :: 0 <= i < |rest| ==> rest[i] == s[i];
  }

  lemma {:induction false} PutBehindRanked(dir: Direction, s: seq<Entry>, e: Entry)
    requires Ranked(dir, s)
    requires forall x :: x in s ==> KeyLess(x.key, e.key)
    ensures Ranked(dir, PutBehind(dir, s, e))
    decreases |s|
  {
    hide KeyLess;
    if s == [] {
    } else if Rank(dir, s[|s| - 1].bytes) >= Rank(dir, e.bytes) {
      assert s == s[..|s| - 1] + [s[|s| - 1]];
      AllAheadOfLast(dir, s[..|s| - 1], s[|s| - 1]);
      AppendRanked(dir, s, e);
    } else {
      var rest, last := s[..|s| - 1], s[|s| - 1];
      assert s == rest + [last];
      AllAheadOfLast(dir, rest, last);
      PutBehindRanked(dir, rest, e);
      PutBehindElements(dir, rest, e);
      forall x | x in PutBehind(dir, rest, e)
        ensures Ahead(dir, x, last)
      {
        assert x in multiset(PutBehind(dir, rest, e));
      }
      AppendRanked(dir, PutBehind(dir, rest, e), last);
    }
  }

  /** A stable sort of a key-ordered list yields the total order: rank first,
      then key. So the live ranking is the stored one's. */
  lemma {:induction false} StableSortRanks(dir: Direction, s: seq<Entry>)
    requires KeySorted(s)
    ensures Ranked(dir, StableSort(dir, s))
    ensures multiset(StableSort(dir, s)) == multiset(s)
    decreases |s|
  {
    if s != [] {
      var rest, last := s[..|s| - 1], s[|s| - 1];
      assert s == rest + [last];
      StableSortRanks(dir, rest);
      var sorted := StableSort(dir, rest);
      forall x | x in sorted
        ensures KeyLess(x.key, last.key)
      {
        assert x in multiset(rest);
        var i :| 0 <= i < |rest| && s[i] == x;
      }
      PutBehindElements(dir, sorted, last);
      PutBehindRanked(dir, sorted, last);
    }
  }

  /** Only one arrangement of the same entries is ranked. */
  lemma {:induction false} RankedUnique(dir: Direction, a: seq<Entry>, b: seq<Entry>)
    requires Ranked(dir, a) && Ranked(dir, b) && multiset(a) == multiset(b)
    ensures a == b
    decreases |a|
  {
    assert |a| == |multiset(a)| == |multiset(b)| == |b|;
    if a != [] {
      FirstRanked(dir, a, b);
      assert a == [a[0]] + a[1..] && b == [b[0]] + b[1..];
      assert multiset(a[1..]) == multiset(a) - multiset{a[0]};
      assert multiset(b[1..]) == multiset(b) - multiset{b[0]};
      RankedUnique(dir, a[1..], b[1..]);
    }
  }

  lemma FirstRanked(dir: Direction, a: seq<Entry>, b: seq<Entry>)
    requires Ranked(dir, a) && Ranked(dir, b) && multiset(a) == multiset(b)
    requires a != [] && b != []
    ensures a[0] == b[0]
  {
    assert a[0] in multiset(b) && b[0] in multiset(a);
    var i :| 0 <= i < |b| && b[i] == a[0];
    var j :| 0 <= j < |a| && a[j] == b[0];
    KeyOrder(a[0].key, b[0].key);
    hide KeyLess;
    assert 0 < i ==> Ahead(dir, b[0], b[i]);
    assert 0 < j ==> Ahead(dir, a[0], a[j]);
  }

  /** `LIMIT n`, where 0 means no limit. */
  function Limit(s: seq<Entry>, n: nat): seq<Entry> {
    if 0 < n < |s| then s[..n] else s
  }

  /** The whole of what grouping, ranking and limiting answer. */
  function Leaders(dir: Direction, ds: seq<Entry>, limit: nat): seq<Entry> {
    Limit(StableSort(dir, Aggregate(ds)), limit)
  }

  /** What a caller may rely on: a limited answer is a prefix of the unlimited
      one, which is ranked and has each key's sum exactly once. */
  lemma LeadersSpec(dir: Direction, ds: seq<Entry>, limit: nat)
    ensures Leaders(dir, ds, limit) <= Leaders(dir, ds, 0)
    ensures |Leaders(dir, ds, limit)| == if 0 < limit < |Leaders(dir, ds, 0)| then limit else |Leaders(dir, ds, 0)|
    ensures Ranked(dir, Leaders(dir, ds, 0))
    ensures forall k, b :: Entry(k, b) in Leaders(dir, ds, 0) <==> SumOf(ds, k) == Row(b)
  {
    var groups := Aggregate(ds);
    AggregateSums(ds, SumKey(0, "", External));
    StableSortRanks(dir, groups);
    var all := Leaders(dir, ds, 0);
    forall k, b
      ensures Entry(k, b) in all <==> SumOf(ds, k) == Row(b)
    {
      AggregateSums(ds, k);
      assert Entry(k, b) in all <==> Entry(k, b) in multiset(all);
      assert Entry(k, b) in groups <==> Entry(k, b) in multiset(groups);
      if i :| 0 <= i < |groups| && groups[i].key == k {
        SumOfPresent(groups, i);
        forall j | 0 <= j < |groups| && groups[j].key == k
          ensures j == i
        {
          KeyOrder(k, k);
        }
      } else {
        SumOfMissing(groups, k);
      }
    }
  }

  lemma {:induction false} DistinctOnce(s: seq<Entry>, x: Entry)
    requires forall i, j :: 0 <= i < j < |s| ==> s[i] != s[j]
    ensures multiset(s)[x] == if x in s then 1 else 0
    decreases |s|
  {
    if s != [] {
      var rest, last := s[..|s| - 1], s[|s| - 1];
      assert s == rest + [last];
      assert forall i :: 0 <= i < |rest| ==> rest[i] == s[i];
      DistinctOnce(rest, x);
    }
  }

  /** No entry is ranked twice. */
  lemma RankedOnce(dir: Direction, s: seq<Entry>, x: Entry)
    requires Ranked(dir, s)
    ensures multiset(s)[x] == if x in s then 1 else 0
  {
    forall i, j | 0 <= i < j < |s|
      ensures s[i] != s[j]
    {
      KeyOrder(s[i].key, s[i].key);
      assert Ahead(dir, s[i], s[j]);
    }
    DistinctOnce(s, x);
  }

  /** Any answer in the order the query names, with each group's sum and nothing
      else, is this one. */
  lemma LeadersUnique(dir: Direction, ds: seq<Entry>, answer: seq<Entry>)
    requires Ranked(dir, answer)
    requires forall k, b :: Entry(k, b) in answer <==> SumOf(ds, k) == Row(b)
    ensures answer == Leaders(dir, ds, 0)
  {
    var all := Leaders(dir, ds, 0);
    LeadersSpec(dir, ds, 0);
    forall x
      ensures multiset(answer)[x] == multiset(all)[x]
    {
      RankedOnce(dir, answer, x);
      RankedOnce(dir, all, x);
      assert x == Entry(x.key, x.bytes);
    }
    assert multiset(answer) == multiset(all);
    RankedUnique(dir, answer, all);
  }

  /** Equal sums give equal answers. */
  lemma LeadersDetermined(dir: Direction, ds: seq<Entry>, es: seq<Entry>, limit: nat)
    requires forall k :: SumOf(ds, k) == SumOf(es, k)
    ensures Leaders(dir, ds, limit) == Leaders(dir, es, limit)
  {
    forall k
      ensures SumOf(Aggregate(ds), k) == SumOf(Aggregate(es), k)
      ensures KeySorted(Aggregate(ds)) && KeySorted(Aggregate(es))
    {
      AggregateSums(ds, k);
      AggregateSums(es, k);
    }
    AggregateSums(ds, SumKey(0, "", External));
    AggregateSums(es, SumKey(0, "", External));
    SumsDetermine(Aggregate(ds), Aggregate(es));
  }

  /** Everything listed in one scope, whatever its key. */
  function ScopeTotal(s: seq<Entry>, scope: Scope): Cell {
    if s == [] then Absent
    else Plus(ScopeTotal(s[..|s| - 1], scope), if s[|s| - 1].key.scope == scope then Row(s[|s| - 1].bytes) else Absent)
  }

  lemma {:induction false} ScopeTotalHead(s: seq<Entry>, scope: Scope)
    requires s != []
    ensures ScopeTotal(s, scope)
         == Plus(if s[0].key.scope == scope then Row(s[0].bytes) else Absent, ScopeTotal(s[1..], scope))
    decreases |s|
  {
    if |s| > 1 {
      ScopeTotalHead(s[..|s| - 1], scope);
      assert s[1..][..|s| - 2] == s[..|s| - 1][1..];
    }
  }

  lemma {:induction false} UpsertScopeTotal(s: seq<Entry>, k: SumKey, add: Bytes, scope: Scope)
    ensures ScopeTotal(Upsert(s, k, add), scope)
         == Plus(ScopeTotal(s, scope), if k.scope == scope then Row(add) else Absent)
    decreases |s|
  {
    var u := Upsert(s, k, add);
    ScopeTotalHead(u, scope);
    if s == [] || KeyLess(k, s[0].key) {
      assert u[1..] == s;
    } else {
      ScopeTotalHead(s, scope);
      if s[0].key == k {
        assert u[1..] == s[1..];
      } else {
        assert u[1..] == Upsert(s[1..], k, add);
        UpsertScopeTotal(s[1..], k, add, scope);
      }
    }
  }

  /** Grouping, under any labels, keeps each scope's total. */
  lemma {:induction false} GroupingConserves(ds: seq<Entry>, scope: Scope)
    ensures ScopeTotal(Aggregate(ds), scope) == ScopeTotal(ds, scope)
    decreases |ds|
  {
    if ds != [] {
      GroupingConserves(ds[..|ds| - 1], scope);
      UpsertScopeTotal(Aggregate(ds[..|ds| - 1]), ds[|ds| - 1].key, ds[|ds| - 1].bytes, scope);
    }
  }

  lemma {:induction false} ScopeTotalConcat(a: seq<Entry>, b: seq<Entry>, scope: Scope)
    ensures ScopeTotal(a + b, scope) == Plus(ScopeTotal(a, scope), ScopeTotal(b, scope))
    decreases |b|
  {
    if b == [] {
      assert a + b == a;
    } else {
      assert (a + b)[..|a + b| - 1] == a + b[..|b| - 1];
      ScopeTotalConcat(a, b[..|b| - 1], scope);
    }
  }

  lemma {:induction false} ScopeTotalOrder(a: seq<Entry>, b: seq<Entry>, scope: Scope)
    requires multiset(a) == multiset(b)
    ensures ScopeTotal(a, scope) == ScopeTotal(b, scope)
    decreases |a|
  {
    assert |a| == |multiset(a)| == |multiset(b)| == |b|;
    if a != [] {
      var rest, last := a[..|a| - 1], a[|a| - 1];
      assert a == rest + [last];
      assert last in multiset(b);
      var i :| 0 <= i < |b| && b[i] == last;
      var left, right := b[..i], b[i + 1..];
      assert b == left + ([last] + right);
      assert multiset(left + right) == multiset(b) - multiset{last};
      ScopeTotalOrder(rest, left + right, scope);
      ScopeTotalConcat(left, [last] + right, scope);
      ScopeTotalConcat([last], right, scope);
      ScopeTotalConcat(left, right, scope);
      ScopeTotalConcat(rest, [last], scope);
      hide ScopeTotal;
      PlusSwap(ScopeTotal(left, scope), ScopeTotal([last], scope), ScopeTotal(right, scope));
    }
  }

  lemma PlusSwap(a: Cell, b: Cell, c: Cell)
    ensures Plus(a, Plus(b, c)) == Plus(Plus(a, c), b)
  {
  }

  /** Ranked and unlimited, nothing is lost either: each scope's total is that of
      the counters that went in. */
  lemma LeadersConserve(dir: Direction, ds: seq<Entry>, scope: Scope)
    ensures ScopeTotal(Leaders(dir, ds, 0), scope) == ScopeTotal(ds, scope)
  {
    AggregateSums(ds, SumKey(0, "", scope));
    StableSortRanks(dir, Aggregate(ds));
    ScopeTotalOrder(StableSort(dir, Aggregate(ds)), Aggregate(ds), scope);
    GroupingConserves(ds, scope);
  }
}
