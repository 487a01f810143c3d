/** The members a group's row lists: who they are, in which order, and how far
    that order is determined. */
module Roster {
  import opened Counters
  import opened Ranking

  /** One line of a group's list. */
  datatype Member = Member(name: string, bytes: Bytes)

  /** What comes first: the bigger, and of two alike the one earlier by name. */
  predicate Outranks(sort: Direction, a: Member, b: Member) {
    var ra, rb := Rank(sort, a.bytes), Rank(sort, b.bytes);
    ra > rb || (ra == rb && TextLess(a.name, b.name))
  }

  /** Alike to the ranking, though perhaps not to the eye. */
  predicate Tied(sort: Direction, a: Member, b: Member) {
    Rank(sort, a.bytes) == Rank(sort, b.bytes) && a.name == b.name
  }

  lemma OutranksOrder(sort: Direction, a: Member, b: Member)
    ensures Outranks(sort, a, b) || Outranks(sort, b, a) || Tied(sort, a, b)
    ensures !(Outranks(sort, a, b) && Outranks(sort, b, a))
    ensures Tied(sort, a, b) ==> !Outranks(sort, a, b) && !Outranks(sort, b, a)
  {
    TextOrder(a.name, b.name);
  }

  lemma OutranksTransitive(sort: Direction, a: Member, b: Member, c: Member)
    requires Outranks(sort, a, b) && Outranks(sort, b, c)
    ensures Outranks(sort, a, c)
  {
    if TextLess(a.name, b.name) && TextLess(b.name, c.name) {
      TextTransitive(a.name, b.name, c.name);
    }
  }

  /** Nobody is listed behind someone they outrank. */
  predicate InOrder(sort: Direction, s: seq<Member>) {
    forall i, j :: 0 <= i < j < |s| ==> !Outranks(sort, s[j], s[i])
  }

  // ---- Sorting

  function Enlist(sort: Direction, s: seq<Member>, m: Member): seq<Member> {
    if s == [] || !Outranks(sort, m, s[|s| - 1]) then s + [m]
    else Enlist(sort, s[..|s| - 1], m) + [s[|s| - 1]]
  }

  /** A stable sort. */
  function Sorted(sort: Direction, s: seq<Member>): seq<Member> {
    if s == [] then [] else Enlist(sort, Sorted(sort, s[..|s| - 1]), s[|s| - 1])
  }

  lemma {:induction false} EnlistKeeps(sort: Direction, s: seq<Member>, m: Member)
    ensures multiset(Enlist(sort, s, m)) == multiset(s) + multiset{m}
    decreases |s|
  {
    if s != [] && Outranks(sort, m, s[|s| - 1]) {
      assert s == s[..|s| - 1] + [s[|s| - 1]];
      EnlistKeeps(sort, s[..|s| - 1], m);
    }
  }

  lemma AppendInOrder(sort: Direction, s: seq<Member>, m: Member)
    requires InOrder(sort, s) && forall x :: x in s ==> !Outranks(sort, m, x)
    ensures InOrder(sort, s + [m])
  {
    hide Outranks;
  }

  lemma {:induction false} EnlistInOrder(sort: Direction, s: seq<Member>, m: Member)
    requires InOrder(sort, s)
    ensures InOrder(sort, Enlist(sort, s, m))
    decreases |s|
  {
    hide Outranks;
    if s == [] {
      AppendInOrder(sort, s, m);
    } else {
      var rest, last := s[..|s| - 1], s[|s| - 1];
      assert s == rest + [last];
      assert InOrder(sort, rest);
      forall x | x in rest
        ensures !Outranks(sort, last, x)
      {
        var i :| 0 <= i < |rest| && s[i] == x;
      }
      if !Outranks(sort, m, last) {
        forall x | x in s
          ensures !Outranks(sort, m, x)
        {
          NotPast(sort, m, last, x);
        }
        AppendInOrder(sort, s, m);
      } else {
        EnlistInOrder(sort, rest, m);
        EnlistKeeps(sort, rest, m);
        OutranksOrder(sort, m, last);
        forall x | x in Enlist(sort, rest, m)
          ensures !Outranks(sort, last, x)
        {
          assert x in multiset(Enlist(sort, rest, m));
        }
        AppendInOrder(sort, Enlist(sort, rest, m), last);
      }
    }
  }

  /** Who does not outrank the last does not outrank those before it. */
  lemma NotPast(sort: Direction, m: Member, last: Member, x: Member)
    requires !Outranks(sort, m, last) && (x == last || !Outranks(sort, last, x))
    ensures !Outranks(sort, m, x)
  {
    OutranksOrder(sort, m, last);
    OutranksOrder(sort, last, x);
    if Outranks(sort, x, last) && Outranks(sort, last, m) {
      OutranksTransitive(sort, x, last, m);
    }
    OutranksOrder(sort, m, x);
  }

  lemma {:induction false} SortedInOrder(sort: Direction, s: seq<Member>)
    ensures InOrder(sort, Sorted(sort, s)) && multiset(Sorted(sort, s)) == multiset(s)
    decreases |s|
  {
    if s != [] {
      assert s == s[..|s| - 1] + [s[|s| - 1]];
      SortedInOrder(sort, s[..|s| - 1]);
      EnlistInOrder(sort, Sorted(sort, s[..|s| - 1]), s[|s| - 1]);
      EnlistKeeps(sort, Sorted(sort, s[..|s| - 1]), s[|s| - 1]);
    }
  }

  // ---- Uniqueness

  predicate NoTies(sort: Direction, s: seq<Member>) {
    forall x, y :: x in s && y in s && Tied(sort, x, y) ==> x == y
  }

  lemma FirstOutranks(sort: Direction, s: seq<Member>, x: Member)
    requires InOrder(sort, s) && x in s
    ensures !Outranks(sort, x, s[0])
  {
    OutranksOrder(sort, x, x);
    var i :| 0 <= i < |s| && s[i] == x;
    assert 0 < i ==> !Outranks(sort, s[i], s[0]);
  }

  lemma FirstsAgree(sort: Direction, a: seq<Member>, b: seq<Member>)
    requires InOrder(sort, a) && InOrder(sort, b) && multiset(a) == multiset(b) && NoTies(sort, a)
    requires a != [] && b != []
    ensures a[0] == b[0]
  {
    assert b[0] in multiset(b) && a[0] in multiset(a);
    assert b[0] in a && a[0] in b;
    FirstOutranks(sort, a, b[0]);
    FirstOutranks(sort, b, a[0]);
    OutranksOrder(sort, a[0], b[0]);
  }

  lemma TailOf(sort: Direction, s: seq<Member>)
    requires s != [] && InOrder(sort, s)
    ensures s == [s[0]] + s[1..] && multiset(s[1..]) == multiset(s) - multiset{s[0]}
    ensures InOrder(sort, s[1..]) && (NoTies(sort, s) ==> NoTies(sort, s[1..]))
  {
    hide Outranks, Tied;
    assert s == [s[0]] + s[1..];
  }

  /** Without ties between different lines, the same lines have one order. */
  lemma {:induction false} OneOrder(sort: Direction, a: seq<Member>, b: seq<Member>)
    requires InOrder(sort, a) && InOrder(sort, b) && multiset(a) == multiset(b) && NoTies(sort, a)
    ensures a == b
    decreases |a|
  {
    assert |a| == |multiset(a)| == |multiset(b)| == |b|;
    hide *;
    if a != [] {
      FirstsAgree(sort, a, b);
      TailOf(sort, a);
      TailOf(sort, b);
      OneOrder(sort, a[1..], b[1..]);
    }
  }

  /** Two tied lines may stand either way round. */
  lemma SwapTied(sort: Direction, s: seq<Member>, i: nat, j: nat)
    requires InOrder(sort, s) && i < |s| && j < |s| && Tied(sort, s[i], s[j])
    ensures InOrder(sort, s[i := s[j]][j := s[i]]) && multiset(s[i := s[j]][j := s[i]]) == multiset(s)
  {
    var t := s[i := s[j]][j := s[i]];
    assert forall k :: 0 <= k < |s| ==> Rank(sort, t[k].bytes) == Rank(sort, s[k].bytes) && t[k].name == s[k].name;
    forall k, l | 0 <= k < l < |t|
      ensures !Outranks(sort, t[l], t[k])
    {
      assert !Outranks(sort, s[l], s[k]);
    }
  }

  // ---- Whom a group lists

  /** The lines of `ids`, each once. */
  ghost function Bag(lines: map<int, Member>, ids: set<int>): multiset<Member>
    requires ids <= lines.Keys
  {
    if ids == {} then multiset{}
    else
      var id := Pick(ids);
      Bag(lines, ids - {id}) + multiset{lines[id]}
  }

  lemma {:induction false} BagTake(lines: map<int, Member>, ids: set<int>, id: int)
    requires ids <= lines.Keys && id in ids
    ensures Bag(lines, ids) == Bag(lines, ids - {id}) + multiset{lines[id]}
    decreases ids
  {
    var p := Pick(ids);
    if p != id {
      BagTake(lines, ids - {p}, id);
      BagTake(lines, ids - {id}, p);
      assert ids - {p} - {id} == ids - {id} - {p};
    }
  }

  lemma BagAdd(lines: map<int, Member>, ids: set<int>, id: int)
    requires ids <= lines.Keys && id in lines && id !in ids
    ensures Bag(lines, ids + {id}) == Bag(lines, ids) + multiset{lines[id]}
  {
    BagTake(lines, ids + {id}, id);
    assert ids + {id} - {id} == ids;
  }

  lemma {:induction false} InBag(lines: map<int, Member>, ids: set<int>, x: Member)
    requires ids <= lines.Keys
    ensures x in Bag(lines, ids) <==> exists id :: id in ids && lines[id] == x
    decreases ids
  {
    if ids != {} {
      var p := Pick(ids);
      InBag(lines, ids - {p}, x);
    }
  }

  /** A list with two tied lines in it, the other way round. */
  lemma OtherOrder(sort: Direction, s: seq<Member>, lines: map<int, Member>, ids: set<int>, a: int, b: int)
    returns (t: seq<Member>)
    requires InOrder(sort, s) && ids <= lines.Keys && multiset(s) == Bag(lines, ids)
    requires a in ids && b in ids && Tied(sort, lines[a], lines[b]) && lines[a] != lines[b]
    ensures InOrder(sort, t) && multiset(t) == multiset(s) && t != s
  {
    InBag(lines, ids, lines[a]);
    InBag(lines, ids, lines[b]);
    assert lines[a] in multiset(s) && lines[b] in multiset(s);
    var i :| 0 <= i < |s| && s[i] == lines[a];
    var j :| 0 <= j < |s| && s[j] == lines[b];
    hide InOrder, Tied;
    SwapTied(sort, s, i, j);
    t := s[i := s[j]][j := s[i]];
    assert t[j] != s[j];
  }
}
