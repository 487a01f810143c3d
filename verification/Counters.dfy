/** Counter tables: one row per (bucket, flow), and the sums the rest of the
    model reasons with. A missing row and a row of zero bytes are different
    things to a reader, so sums are taken over `Cell`s, where `Absent` is the
    neutral element, rather than over plain numbers. */
module Counters {

  datatype Option<+T> = None | Some(value: T)

  datatype Scope = External | Loopback

  /** Who and in which scope: the part of a table's primary key besides the bucket. */
  datatype Flow = Flow(identity: int, scope: Scope)

  datatype Key = Key(bucket: int, flow: Flow)

  datatype Bytes = Bytes(ingress: nat, egress: nat)

  type Table = map<Key, Bytes>

  datatype Cell = Absent | Row(bytes: Bytes)

  function AddBytes(a: Bytes, b: Bytes): Bytes {
    Bytes(a.ingress + b.ingress, a.egress + b.egress)
  }

  function Plus(a: Cell, b: Cell): Cell {
    match (a, b)
    case (Absent, _) => b
    case (_, Absent) => a
    case (Row(x), Row(y)) => Row(AddBytes(x, y))
  }

  /** `a` accounts for no more than `b`, in either direction. */
  predicate Within(a: Cell, b: Cell) {
    a.Row? ==> b.Row? && a.bytes.ingress <= b.bytes.ingress && a.bytes.egress <= b.bytes.egress
  }

  function At(t: Table, bucket: int, f: Flow): Cell {
    if Key(bucket, f) in t then Row(t[Key(bucket, f)]) else Absent
  }

  /** The sum of `f`'s rows in buckets `[lo, hi)`. */
  function Total(t: Table, f: Flow, lo: int, hi: int): Cell
    decreases hi - lo
  {
    if hi <= lo then Absent else Plus(Total(t, f, lo, hi - 1), At(t, hi - 1, f))
  }

  /** `INSERT ... ON CONFLICT DO UPDATE SET x = table.x + excluded.x`. */
  function Accumulate(t: Table, k: Key, add: Bytes): (r: Table)
    ensures forall b, f :: At(r, b, f) == if Key(b, f) == k then Plus(At(t, b, f), Row(add)) else At(t, b, f)
  {
    t[k := if k in t then AddBytes(t[k], add) else add]
  }

  /** The rows of `t` at or after `bucket`. */
  function DropBefore(t: Table, bucket: int): (r: Table)
    ensures forall b, f :: At(r, b, f) == if b < bucket then Absent else At(t, b, f)
  {
    map k | k in t && bucket <= k.bucket :: t[k]
  }

  lemma TableEq(t: Table, u: Table)
    requires forall b, f :: At(t, b, f) == At(u, b, f)
    ensures t == u
  {
    forall k | k in t || k in u
      ensures k in t && k in u && t[k] == u[k]
    {
      assert k == Key(k.bucket, k.flow);
      assert At(t, k.bucket, k.flow) == At(u, k.bucket, k.flow);
    }
  }

  lemma {:induction false} TotalSplit(t: Table, f: Flow, lo: int, mid: int, hi: int)
    requires lo <= mid <= hi
    ensures Total(t, f, lo, hi) == Plus(Total(t, f, lo, mid), Total(t, f, mid, hi))
    decreases hi - mid
  {
    if mid < hi {
      TotalSplit(t, f, lo, mid, hi - 1);
    }
  }

  lemma {:induction false} TotalSame(t: Table, u: Table, f: Flow, lo: int, hi: int)
    requires forall b :: lo <= b < hi ==> At(t, b, f) == At(u, b, f)
    ensures Total(t, f, lo, hi) == Total(u, f, lo, hi)
    decreases hi - lo
  {
    if lo < hi {
      TotalSame(t, u, f, lo, hi - 1);
    }
  }

  lemma {:induction false} TotalNone(t: Table, f: Flow, lo: int, hi: int)
    requires forall b :: lo <= b < hi ==> At(t, b, f) == Absent
    ensures Total(t, f, lo, hi) == Absent
    decreases hi - lo
  {
    if lo < hi {
      TotalNone(t, f, lo, hi - 1);
    }
  }

  /** A sum is a row exactly when some summand is. */
  lemma {:induction false} TotalWitness(t: Table, f: Flow, lo: int, hi: int) returns (b: int)
    requires Total(t, f, lo, hi) != Absent
    ensures lo <= b < hi && At(t, b, f) != Absent
    decreases hi - lo
  {
    if At(t, hi - 1, f) != Absent {
      b := hi - 1;
    } else {
      b := TotalWitness(t, f, lo, hi - 1);
    }
  }

  lemma TotalPresent(t: Table, f: Flow, lo: int, hi: int, b: int)
    requires lo <= b < hi && At(t, b, f) != Absent
    ensures Total(t, f, lo, hi) != Absent
  {
    TotalSplit(t, f, lo, b + 1, hi);
  }

  lemma PlusExchange(a: Cell, b: Cell, c: Cell, d: Cell)
    ensures Plus(Plus(a, b), Plus(c, d)) == Plus(Plus(a, c), Plus(b, d))
  {
  }

  lemma PlusAssociates(a: Cell, b: Cell, c: Cell)
    ensures Plus(Plus(a, b), c) == Plus(a, Plus(b, c))
  {
  }

  lemma PlusShift(a: Cell, b: Cell, c: Cell)
    ensures Plus(Plus(a, b), c) == Plus(Plus(a, c), b)
  {
  }

  /** The sum over a range whose only row sits at its start. */
  lemma TotalFirst(t: Table, f: Flow, lo: int, hi: int)
    requires lo < hi
    requires forall b :: lo < b < hi ==> At(t, b, f) == Absent
    ensures Total(t, f, lo, hi) == At(t, lo, f)
  {
    TotalSplit(t, f, lo, lo + 1, hi);
    TotalNone(t, f, lo + 1, hi);
    assert Total(t, f, lo, lo) == Absent;
  }

  lemma {:induction false} TotalWithin(t: Table, u: Table, f: Flow, lo: int, hi: int)
    requires forall b :: lo <= b < hi ==> Within(At(t, b, f), At(u, b, f))
    ensures Within(Total(t, f, lo, hi), Total(u, f, lo, hi))
    decreases hi - lo
  {
    if lo < hi {
      TotalWithin(t, u, f, lo, hi - 1);
    }
  }

  /** Adding one row to a table adds it to every sum whose range covers it. */
  lemma {:induction false} TotalAccumulate(t: Table, k: Key, add: Bytes, f: Flow, lo: int, hi: int)
    ensures Total(Accumulate(t, k, add), f, lo, hi)
         == if f == k.flow && lo <= k.bucket < hi then Plus(Total(t, f, lo, hi), Row(add)) else Total(t, f, lo, hi)
    decreases hi - lo
  {
    if lo < hi {
      TotalAccumulate(t, k, add, f, lo, hi - 1);
    }
  }

  lemma TotalNarrow(t: Table, f: Flow, lo: int, hi: int, lo': int, hi': int)
    requires lo <= lo' && hi' <= hi
    ensures Within(Total(t, f, lo', hi'), Total(t, f, lo, hi))
  {
    if lo' < hi' {
      TotalSplit(t, f, lo, lo', hi);
      TotalSplit(t, f, lo', hi', hi);
    }
  }

  /** Some element; which one never matters. */
  ghost function Pick<T>(s: set<T>): (e: T)
    requires s != {}
    ensures e in s
  {
    var e :| e in s; e
  }

  lemma {:induction false} MinExists(s: set<int>)
    requires s != {}
    ensures exists m :: m in s && (forall x :: x in s ==> m <= x)
    decreases s
  {
    var e := Pick(s);
    if s != {e} {
      MinExists(s - {e});
      var m :| m in s - {e} && forall x :: x in s - {e} ==> m <= x;
      var least := if e < m then e else m;
      assert forall x :: x in s ==> x == e || x in s - {e};
      assert least in s && forall x :: x in s ==> least <= x;
    }
  }

  /** The smallest element: SQL's `min`. */
  function Min(s: set<int>): (m: int)
    requires s != {}
    ensures m in s && forall x :: x in s ==> m <= x
  {
    MinExists(s);
    var m :| m in s && forall x :: x in s ==> m <= x;
    m
  }

  lemma {:induction false} MaxExists(s: set<int>)
    requires s != {}
    ensures exists m :: m in s && (forall x :: x in s ==> x <= m)
    decreases s
  {
    var e := Pick(s);
    if s != {e} {
      MaxExists(s - {e});
      var m :| m in s - {e} && forall x :: x in s - {e} ==> x <= m;
      var greatest := if m < e then e else m;
      assert forall x :: x in s ==> x == e || x in s - {e};
      assert greatest in s && forall x :: x in s ==> x <= greatest;
    }
  }

  function Max(s: set<int>): (m: int)
    requires s != {}
    ensures m in s && forall x :: x in s ==> x <= m
  {
    MaxExists(s);
    var m :| m in s && forall x :: x in s ==> x <= m;
    m
  }
}
