/** One `Watch` stream: a cache of identities already looked up and a set of
    those already sent, refining an answer that would look everything up anew. */
module Watch {
  import opened Counters
  import opened Ranking
  import opened Identities
  import opened Query

  datatype Delta = Delta(flow: Flow, bytes: Bytes)

  datatype Request = Request(vis: Visibility, want: ScopeFilter, grouping: GroupBy, limit: nat)

  /** The counters of one tick, and the identities they are the first to mention. */
  datatype Chunk = Chunk(counters: seq<Entry>, identities: seq<(int, Identity)>)

  datatype Outcome = Sent(chunk: Chunk) | Failed

  type Cache = map<int, Option<Identity>>

  /** What a lookup under `vis` yields; `None` for an identity that does not
      exist or may not be seen. */
  function Lookup(ids: Registry, vis: Visibility, id: int): Option<Identity> {
    if id in ids && Sees(vis, ids[id]) then Some(ids[id]) else None
  }

  function Unknown(known: Cache, deltas: seq<Delta>): set<int> {
    set i | 0 <= i < |deltas| && deltas[i].flow.identity !in known :: deltas[i].flow.identity
  }

  function Learn(known: Cache, ids: Registry, vis: Visibility, deltas: seq<Delta>): Cache {
    known + map id | id in Unknown(known, deltas) :: Lookup(ids, vis, id)
  }

  /** The key a delta counts under, given who its identity is taken to be. */
  function KeyOf(req: Request, who: Option<Identity>, f: Flow): Option<SumKey> {
    if who.Some? && Wanted(req.want, f.scope)
    then Some(SumKey(if Grouped(req.grouping) then 0 else f.identity, LiveGroup(who.value, req.grouping), f.scope))
    else None
  }

  /** The deltas the caller is shown, as counters; `who` says who each identity is. */
  function Shown(req: Request, who: int -> Option<Identity>, deltas: seq<Delta>): seq<Entry> {
    if deltas == [] then []
    else
      var d := deltas[|deltas| - 1];
      Shown(req, who, deltas[..|deltas| - 1])
      + match KeyOf(req, who(d.flow.identity), d.flow) case Some(k) => [Entry(k, d.bytes)] case None => []
  }

  function FromCache(known: Cache, id: int): Option<Identity> {
    if id in known then known[id] else None
  }

  function Cached(known: Cache): (who: int -> Option<Identity>)
    ensures forall id :: who(id) == FromCache(known, id)
  {
    id => FromCache(known, id)
  }

  function Fresh(ids: Registry, vis: Visibility): (who: int -> Option<Identity>)
    ensures forall id :: who(id) == Lookup(ids, vis, id)
  {
    id => Lookup(ids, vis, id)
  }

  function ChunkRows(req: Request, who: int -> Option<Identity>, deltas: seq<Delta>): seq<Entry> {
    Leaders(Both, Shown(req, who, deltas), req.limit)
  }

  /** The ids `counters` mention for the first time, in order. */
  function FirstMentions(counters: seq<Entry>, sent: set<int>): seq<int> {
    if counters == [] then []
    else
      var rest := FirstMentions(counters[..|counters| - 1], sent);
      var id := counters[|counters| - 1].key.id;
      if id == 0 || id in sent || id in rest then rest else rest + [id]
  }

  function Introduce(known: Cache, ids: seq<int>): seq<(int, Identity)> {
    if ids == [] then []
    else
      var last := ids[|ids| - 1];
      Introduce(known, ids[..|ids| - 1])
      + if last in known && known[last].Some? then [(last, known[last].value)] else []
  }

  datatype State = State(known: Cache, sent: set<int>)

  /** One tick against the identity table as it stands. */
  function Step(req: Request, s: State, ids: Registry, deltas: seq<Delta>): (State, Chunk) {
    var known := Learn(s.known, ids, req.vis, deltas);
    var counters := ChunkRows(req, Cached(known), deltas);
    var firsts := FirstMentions(counters, s.sent);
    (State(known, s.sent + set id | id in firsts), Chunk(counters, Introduce(known, firsts)))
  }

  class WatchView {
    const req: Request
    var known: Cache
    var sent: set<int>

    ghost function View(): State
      reads this
    {
      State(known, sent)
    }

    constructor (req: Request)
      ensures this.req == req && View() == State(map[], {})
    {
      this.req := req;
      known, sent := map[], {};
    }

    /** Look up the identities this tick names for the first time. The table is
        read only if there are any; `lookup` is `None` where that read fails. */
    method LearnNames(lookup: Option<Registry>, deltas: seq<Delta>) returns (ok: bool)
      modifies this`known
      ensures ok == (lookup.Some? || Unknown(old(known), deltas) == {})
      ensures known == if ok then Learn(old(known), if lookup.Some? then lookup.value else map[], req.vis, deltas)
                       else old(known)
    {
      var unknown := Unknown(known, deltas);
      ok := true;
      if unknown != {} {
        if lookup.None? {
          return false;
        }
        known := known + map id | id in unknown :: Lookup(lookup.value, req.vis, id);
      }
    }

    /** One sum per key over the deltas that pass visibility and scope. */
    method SumUp(deltas: seq<Delta>) returns (sums: seq<Entry>)
      ensures sums == Aggregate(Shown(req, Cached(known), deltas))
    {
      hide Upsert, Shown, Aggregate;
      sums := [];
      assert Aggregate(Shown(req, Cached(known), [])) == [] by { NothingShown(req, Cached(known)); }
      var i := 0;
      while i < |deltas|
        invariant 0 <= i <= |deltas|
        invariant sums == Aggregate(Shown(req, Cached(known), deltas[..i]))
      {
        var d := deltas[i];
        var who := if d.flow.identity in known then known[d.flow.identity] else None;
        var under := KeyOf(req, who, d.flow);
        if under.Some? {
          sums := Upsert(sums, under.value, d.bytes);
        }
        ShownStep(req, Cached(known), deltas[..i], d);
        assert deltas[..i + 1] == deltas[..i] + [d];
        i := i + 1;
      }
      assert deltas[..i] == deltas;
    }

    /** The identities `counters` are the first to mention, marked as sent. */
    method IntroduceNew(counters: seq<Entry>) returns (identities: seq<(int, Identity)>)
      modifies this`sent
      ensures identities == Introduce(known, FirstMentions(counters, old(sent)))
      ensures sent == old(sent) + set id | id in FirstMentions(counters, old(sent))
    {
      identities := [];
      ghost var firsts: seq<int> := [];
      var i := 0;
      while i < |counters|
        invariant 0 <= i <= |counters|
        invariant firsts == FirstMentions(counters[..i], old(sent))
        invariant sent == old(sent) + set id | id in firsts
        invariant identities == Introduce(known, firsts)
      {
        var id := counters[i].key.id;
        assert counters[..i + 1][..i] == counters[..i];
        if id != 0 && id !in sent {
          sent := sent + {id};
          if id in known && known[id].Some? {
            identities := identities + [(id, known[id].value)];
          }
          assert (firsts + [id])[..|firsts|] == firsts;
          firsts := firsts + [id];
        }
        i := i + 1;
      }
      assert counters[..i] == counters;
    }

    /** Turn one tick into one chunk, or fail and change nothing. */
    method MakeChunk(lookup: Option<Registry>, deltas: seq<Delta>) returns (out: Outcome)
      modifies this
      ensures var failed := lookup.None? && Unknown(old(known), deltas) != {};
              var ids := if lookup.Some? then lookup.value else map[];
        (View(), out) == if failed then (old(View()), Failed)
                         else (Step(req, old(View()), ids, deltas).0, Sent(Step(req, old(View()), ids, deltas).1))
    {
      hide Learn, Unknown, Shown, FirstMentions, Introduce, Aggregate;
      var ok := LearnNames(lookup, deltas);
      if !ok {
        return Failed;
      }
      var counters := SumUp(deltas);
      counters := Limit(StableSort(Both, counters), req.limit);
      var identities := IntroduceNew(counters);
      out := Sent(Chunk(counters, identities));
    }
  }

  lemma NothingShown(req: Request, who: int -> Option<Identity>)
    ensures Aggregate(Shown(req, who, [])) == []
  {
  }

  lemma ShownStep(req: Request, who: int -> Option<Identity>, rest: seq<Delta>, d: Delta)
    ensures Aggregate(Shown(req, who, rest + [d]))
         == match KeyOf(req, who(d.flow.identity), d.flow)
            case Some(k) => Upsert(Aggregate(Shown(req, who, rest)), k, d.bytes)
            case None => Aggregate(Shown(req, who, rest))
  {
    assert (rest + [d])[..|rest|] == rest;
    var before := Shown(req, who, rest);
    var k := KeyOf(req, who(d.flow.identity), d.flow);
    if k.Some? {
      assert (before + [Entry(k.value, d.bytes)])[..|before|] == before;
    } else {
      assert before + [] == before;
    }
  }

  /** The sum of the deltas in `scope` that visibility and the request let through. */
  function SeenTotal(req: Request, who: int -> Option<Identity>, deltas: seq<Delta>, scope: Scope): Cell {
    if deltas == [] then Absent
    else
      var d := deltas[|deltas| - 1];
      Plus(SeenTotal(req, who, deltas[..|deltas| - 1], scope),
           if d.flow.scope == scope && Wanted(req.want, scope) && who(d.flow.identity).Some? then Row(d.bytes)
           else Absent)
  }

  lemma {:induction false} ShownTotal(req: Request, who: int -> Option<Identity>, deltas: seq<Delta>, scope: Scope)
    ensures ScopeTotal(Shown(req, who, deltas), scope) == SeenTotal(req, who, deltas, scope)
    decreases |deltas|
  {
    if deltas != [] {
      var rest, d := deltas[..|deltas| - 1], deltas[|deltas| - 1];
      var before := Shown(req, who, rest);
      ShownTotal(req, who, rest, scope);
      var k := KeyOf(req, who(d.flow.identity), d.flow);
      if k.Some? {
        assert (before + [Entry(k.value, d.bytes)])[..|before|] == before;
      } else {
        assert before + [] == before;
      }
    }
  }

  /** An unlimited chunk carries, scope by scope, exactly the bytes of the tick
      that the caller may see and asked for, under any grouping. */
  lemma ChunksConserve(req: Request, who: int -> Option<Identity>, deltas: seq<Delta>, scope: Scope)
    requires req.limit == 0
    ensures ScopeTotal(ChunkRows(req, who, deltas), scope) == SeenTotal(req, who, deltas, scope)
  {
    LeadersConserve(Both, Shown(req, who, deltas), scope);
    ShownTotal(req, who, deltas, scope);
  }

  // ---- Whole streams

  /** A tick, and the identity table when it was handled. */
  datatype Input = Input(ids: Registry, deltas: seq<Delta>)

  function StateAfter(req: Request, inputs: seq<Input>): State {
    if inputs == [] then State(map[], {})
    else Step(req, StateAfter(req, inputs[..|inputs| - 1]), inputs[|inputs| - 1].ids, inputs[|inputs| - 1].deltas).0
  }

  /** The chunk sent for the last tick. */
  function LastChunk(req: Request, inputs: seq<Input>): Chunk
    requires inputs != []
  {
    Step(req, StateAfter(req, inputs[..|inputs| - 1]), inputs[|inputs| - 1].ids, inputs[|inputs| - 1].deltas).1
  }

  predicate Mentions(deltas: seq<Delta>, id: int) {
    exists i :: 0 <= i < |deltas| && deltas[i].flow.identity == id
  }

  /** What the stream takes an identity to be: how it looked when first mentioned. */
  function FirstSight(req: Request, inputs: seq<Input>, id: int): Option<Option<Identity>> {
    if inputs == [] then None
    else
      var rest := FirstSight(req, inputs[..|inputs| - 1], id);
      if rest.Some? then rest
      else if Mentions(inputs[|inputs| - 1].deltas, id) then Some(Lookup(inputs[|inputs| - 1].ids, req.vis, id))
      else None
  }

  /** The cache is that and nothing else. */
  lemma {:induction false} CacheIsFirstSight(req: Request, inputs: seq<Input>, id: int)
    ensures var known := StateAfter(req, inputs).known;
      (if id in known then Some(known[id]) else None) == FirstSight(req, inputs, id)
    decreases |inputs|
  {
    if inputs != [] {
      var last := inputs[|inputs| - 1];
      CacheIsFirstSight(req, inputs[..|inputs| - 1], id);
      var before := StateAfter(req, inputs[..|inputs| - 1]).known;
      assert StateAfter(req, inputs).known == Learn(before, last.ids, req.vis, last.deltas);
      assert id !in before ==> (id in Unknown(before, last.deltas) <==> Mentions(last.deltas, id));
    }
  }

  lemma {:induction false} ShownSame(req: Request, a: int -> Option<Identity>, b: int -> Option<Identity>,
                                     deltas: seq<Delta>)
    requires forall i :: 0 <= i < |deltas| ==>
      KeyOf(req, a(deltas[i].flow.identity), deltas[i].flow) == KeyOf(req, b(deltas[i].flow.identity), deltas[i].flow)
    ensures Shown(req, a, deltas) == Shown(req, b, deltas)
    decreases |deltas|
  {
    if deltas != [] {
      ShownSame(req, a, b, deltas[..|deltas| - 1]);
    }
  }

  /** The labels this request shows for an identity have not changed. */
  predicate SameLabel(req: Request, a: Option<Identity>, b: Option<Identity>) {
    a.Some? == b.Some? && (a.Some? ==> LiveGroup(a.value, req.grouping) == LiveGroup(b.value, req.grouping))
  }

  ghost predicate LabelsHold(req: Request, inputs: seq<Input>) {
    forall i, j, id :: 0 <= i <= j < |inputs| && Mentions(inputs[i].deltas, id) && Mentions(inputs[j].deltas, id) ==>
      SameLabel(req, Lookup(inputs[i].ids, req.vis, id), Lookup(inputs[j].ids, req.vis, id))
  }

  lemma {:induction false} EarlierSight(req: Request, inputs: seq<Input>, id: int) returns (i: nat)
    requires FirstSight(req, inputs, id).Some?
    ensures i < |inputs| && Mentions(inputs[i].deltas, id)
    ensures FirstSight(req, inputs, id) == Some(Lookup(inputs[i].ids, req.vis, id))
    decreases |inputs|
  {
    var rest := inputs[..|inputs| - 1];
    if FirstSight(req, rest, id).Some? {
      i := EarlierSight(req, rest, id);
    } else {
      i := |inputs| - 1;
    }
  }

  /** No identity the stream has cached is shown under an outdated label. */
  ghost predicate Current(req: Request, seen: seq<Input>, ids: Registry) {
    forall id :: FirstSight(req, seen, id).Some? ==>
      SameLabel(req, FirstSight(req, seen, id).value, Lookup(ids, req.vis, id))
  }

  /** The same of the identities that a tick's deltas name in scope. */
  predicate NamedCurrent(req: Request, seen: seq<Input>, last: Input) {
    forall i :: 0 <= i < |last.deltas| && Wanted(req.want, last.deltas[i].flow.scope) ==>
      var first := FirstSight(req, seen, last.deltas[i].flow.identity);
      first.Some? ==> SameLabel(req, first.value, Lookup(last.ids, req.vis, last.deltas[i].flow.identity))
  }

  /** Refinement: if the labels cached for the identities a tick names in scope
      are current, its chunk's counters are what a cache-free look at the table
      of the moment gives: visible, in-scope deltas, grouped, summed, ranked and
      limited. */
  lemma ChunksAreFresh(req: Request, inputs: seq<Input>)
    requires inputs != [] && NamedCurrent(req, inputs[..|inputs| - 1], inputs[|inputs| - 1])
    ensures var last := inputs[|inputs| - 1];
      LastChunk(req, inputs).counters == ChunkRows(req, Fresh(last.ids, req.vis), last.deltas)
  {
    var last := inputs[|inputs| - 1];
    var known := StateAfter(req, inputs).known;
    forall i | 0 <= i < |last.deltas|
      ensures KeyOf(req, Cached(known)(last.deltas[i].flow.identity), last.deltas[i].flow)
           == KeyOf(req, Fresh(last.ids, req.vis)(last.deltas[i].flow.identity), last.deltas[i].flow)
    {
      var id := last.deltas[i].flow.identity;
      assert Mentions(last.deltas, id);
      CacheIsFirstSight(req, inputs, id);
    }
    ShownSame(req, Cached(known), Fresh(last.ids, req.vis), last.deltas);
  }

  /** Exactly: after any stream, under any request, the next chunk is the
      cache-free one whatever the next tick holds if and only if no cached label
      is outdated at that moment. */
  lemma FreshExactly(req: Request, seen: seq<Input>, ids: Registry)
    ensures (forall deltas ::
              LastChunk(req, seen + [Input(ids, deltas)]).counters == ChunkRows(req, Fresh(ids, req.vis), deltas))
       <==> Current(req, seen, ids)
  {
    if Current(req, seen, ids) {
      forall deltas
        ensures LastChunk(req, seen + [Input(ids, deltas)]).counters == ChunkRows(req, Fresh(ids, req.vis), deltas)
      {
        var inputs := seen + [Input(ids, deltas)];
        assert inputs[..|inputs| - 1] == seen && inputs[|inputs| - 1] == Input(ids, deltas);
        hide LastChunk, FirstSight, SameLabel, ChunkRows;
        ChunksAreFresh(req, inputs);
      }
    } else {
      var id :| FirstSight(req, seen, id).Some?
          && !SameLabel(req, FirstSight(req, seen, id).value, Lookup(ids, req.vis, id));
      OutdatedShows(req, seen, ids, id);
    }
  }

  lemma NextTick(req: Request, seen: seq<Input>, next: Input, id: int)
    ensures var inputs := seen + [next];
      && LastChunk(req, inputs).counters == ChunkRows(req, Cached(StateAfter(req, inputs).known), next.deltas)
      && (FirstSight(req, seen, id).Some? ==> FirstSight(req, inputs, id) == FirstSight(req, seen, id))
  {
    var inputs := seen + [next];
    assert inputs[..|inputs| - 1] == seen && inputs[|inputs| - 1] == next;
    hide ChunkRows;
  }

  /** A tick of one delta gives away an outdated label. */
  lemma OutdatedShows(req: Request, seen: seq<Input>, ids: Registry, id: int)
    requires FirstSight(req, seen, id).Some?
    requires !SameLabel(req, FirstSight(req, seen, id).value, Lookup(ids, req.vis, id))
    ensures exists deltas ::
      LastChunk(req, seen + [Input(ids, deltas)]).counters != ChunkRows(req, Fresh(ids, req.vis), deltas)
  {
    var f := Flow(id, match req.want case AnyScope => External case Only(scope) => scope);
    var deltas := [Delta(f, Bytes(0, 0))];
    var inputs := seen + [Input(ids, deltas)];
    var known := StateAfter(req, inputs).known;
    hide LastChunk, StateAfter, ChunkRows, FirstSight, LiveGroup, Lookup;
    NextTick(req, seen, Input(ids, deltas), id);
    CacheIsFirstSight(req, inputs, id);
    assert Wanted(req.want, f.scope);
    hide *;
    OneDeltaShows(req, Cached(known), Fresh(ids, req.vis), f);
    assert LastChunk(req, seen + [Input(ids, deltas)]).counters != ChunkRows(req, Fresh(ids, req.vis), deltas);
  }

  lemma OneDeltaShows(req: Request, a: int -> Option<Identity>, b: int -> Option<Identity>, f: Flow)
    requires Wanted(req.want, f.scope) && !SameLabel(req, a(f.identity), b(f.identity))
    ensures ChunkRows(req, a, [Delta(f, Bytes(0, 0))]) != ChunkRows(req, b, [Delta(f, Bytes(0, 0))])
  {
    OneShown(req, a, f, Bytes(0, 0));
    OneShown(req, b, f, Bytes(0, 0));
    LabelsShow(req, a(f.identity), b(f.identity), f);
    hide *;
  }

  /** Labels that hold over a stream, wherever an identity is named, are current. */
  lemma LabelsHoldIsCurrent(req: Request, inputs: seq<Input>)
    requires inputs != [] && LabelsHold(req, inputs)
    ensures NamedCurrent(req, inputs[..|inputs| - 1], inputs[|inputs| - 1])
  {
    var rest, last := inputs[..|inputs| - 1], inputs[|inputs| - 1];
    forall i | 0 <= i < |last.deltas| && FirstSight(req, rest, last.deltas[i].flow.identity).Some?
      ensures SameLabel(req, FirstSight(req, rest, last.deltas[i].flow.identity).value,
                        Lookup(last.ids, req.vis, last.deltas[i].flow.identity))
    {
      var id := last.deltas[i].flow.identity;
      assert Mentions(last.deltas, id);
      var first := EarlierSight(req, rest, id);
      assert Mentions(inputs[first].deltas, id);
      assert SameLabel(req, Lookup(inputs[first].ids, req.vis, id), Lookup(last.ids, req.vis, id));
    }
  }

  /** Identities keep their natural keys, and those a tick names are in the table. */
  ghost predicate Registered(inputs: seq<Input>) {
    && (forall i, id :: 0 <= i < |inputs| && Mentions(inputs[i].deltas, id) ==> id in inputs[i].ids)
    && (forall i, j, id :: 0 <= i <= j < |inputs| && id in inputs[i].ids ==>
          id in inputs[j].ids && inputs[j].ids[id].record.key == inputs[i].ids[id].record.key)
  }

  ghost predicate UsersHold(inputs: seq<Input>) {
    forall i, j, id :: 0 <= i <= j < |inputs| && id in inputs[i].ids && id in inputs[j].ids ==>
      ShownUser(inputs[i].ids[id]) == ShownUser(inputs[j].ids[id])
  }

  /** Labels other than the user's come from the natural key, so they hold by
      themselves; a user's hold while users keep their names. So then every
      cached label is current. */
  lemma LabelsHoldByKey(req: Request, inputs: seq<Input>)
    requires Registered(inputs) && (req.grouping == ByUser ==> UsersHold(inputs))
    ensures LabelsHold(req, inputs)
    ensures inputs != [] ==> Current(req, inputs[..|inputs| - 1], inputs[|inputs| - 1].ids)
  {
    if inputs != [] {
      var rest, last := inputs[..|inputs| - 1], inputs[|inputs| - 1];
      forall id | FirstSight(req, rest, id).Some?
        ensures SameLabel(req, FirstSight(req, rest, id).value, Lookup(last.ids, req.vis, id))
      {
        var first := EarlierSight(req, rest, id);
        assert inputs[first] == rest[first] && id in inputs[first].ids;
      }
    }
  }

  /** One identity, seen as `a` at the first tick and stored as `b` at the second. */
  function TwoTicks(a: Identity, b: Identity, f: Flow, bytes: Bytes): seq<Input> {
    [Input(map[f.identity := a], [Delta(f, bytes)]), Input(map[f.identity := b], [Delta(f, bytes)])]
  }

  lemma TwoTicksCache(req: Request, a: Identity, b: Identity, f: Flow, bytes: Bytes)
    requires req.vis == All
    ensures FromCache(StateAfter(req, TwoTicks(a, b, f, bytes)).known, f.identity) == Some(a)
  {
    var inputs := TwoTicks(a, b, f, bytes);
    var deltas := [Delta(f, bytes)];
    assert inputs[..1] == [inputs[0]] && [inputs[0]][..0] == [];
    assert deltas[0].flow.identity == f.identity && Mentions(deltas, f.identity);
    CacheIsFirstSight(req, inputs, f.identity);
    hide StateAfter;
    assert FirstSight(req, [], f.identity) == None;
    assert FirstSight(req, [inputs[0]], f.identity) == Some(Some(a));
    assert FirstSight(req, inputs, f.identity) == Some(Some(a));
  }

  /** An instance: a user renamed mid-stream keeps the old label in the stream, so
      grouped by user the cached answer is the fresh one exactly when the label
      did not change. */
  lemma RenamedUserIsStale(a: Identity, b: Identity, f: Flow, bytes: Bytes)
    ensures var req := Request(All, AnyScope, ByUser, 0);
            var inputs := TwoTicks(a, b, f, bytes);
      LastChunk(req, inputs).counters == ChunkRows(req, Fresh(inputs[1].ids, All), inputs[1].deltas)
      <==> LiveGroup(a, ByUser) == LiveGroup(b, ByUser)
  {
    var req := Request(All, AnyScope, ByUser, 0);
    var inputs := TwoTicks(a, b, f, bytes);
    TwoTicksCache(req, a, b, f, bytes);
    var known := StateAfter(req, inputs).known;
    assert LastChunk(req, inputs).counters == ChunkRows(req, Cached(known), [Delta(f, bytes)]);
    hide LastChunk, StateAfter, ChunkRows, FromCache, LiveGroup;
    OneShown(req, Cached(known), f, bytes);
    OneShown(req, Fresh(inputs[1].ids, All), f, bytes);
  }

  /** In a scope asked for, labels that differ are keys that differ. */
  lemma LabelsShow(req: Request, a: Option<Identity>, b: Option<Identity>, f: Flow)
    requires Wanted(req.want, f.scope)
    ensures KeyOf(req, a, f) == KeyOf(req, b, f) <==> SameLabel(req, a, b)
  {
    hide LiveGroup;
  }

  lemma OneShown(req: Request, who: int -> Option<Identity>, f: Flow, b: Bytes)
    ensures ChunkRows(req, who, [Delta(f, b)])
         == match KeyOf(req, who(f.identity), f) case Some(k) => [Entry(k, b)] case None => []
  {
    assert [Delta(f, b)][..0] == [];
    assert Shown(req, who, []) == [];
    var k := KeyOf(req, who(f.identity), f);
    assert Shown(req, who, [Delta(f, b)]) == if k.Some? then [Entry(k.value, b)] else [];
    hide Shown;
    if k.Some? {
      OneLeader(Entry(k.value, b), req.limit);
    }
  }

  lemma OneLeader(e: Entry, limit: nat)
    ensures Leaders(Both, [e], limit) == [e]
  {
    assert [e][..0] == [];
    assert Aggregate([]) == [];
    assert Aggregate([e]) == Upsert([], e.key, e.bytes) == [e];
    hide Aggregate, Upsert;
    assert StableSort(Both, []) == [];
    assert StableSort(Both, [e]) == PutBehind(Both, [], e) == [e];
  }

  // ---- Each identity once

  predicate HasId(counters: seq<Entry>, id: int) {
    exists i :: 0 <= i < |counters| && counters[i].key.id == id
  }

  lemma {:induction false} MentionsFirst(counters: seq<Entry>, sent: set<int>)
    ensures var ids := FirstMentions(counters, sent);
      && (forall id :: id in ids <==> id != 0 && id !in sent && HasId(counters, id))
      && (forall i, j :: 0 <= i < j < |ids| ==> ids[i] != ids[j])
    decreases |counters|
  {
    if counters != [] {
      var rest := counters[..|counters| - 1];
      MentionsFirst(rest, sent);
      var before := FirstMentions(rest, sent);
      forall id
        ensures HasId(counters, id) <==> HasId(rest, id) || counters[|counters| - 1].key.id == id
      {
        if i :| 0 <= i < |rest| && rest[i].key.id == id {
          assert counters[i].key.id == id;
        }
      }
    }
  }

  /** The ids a tick's chunk introduces. */
  function SentAt(req: Request, inputs: seq<Input>): seq<int>
    requires inputs != []
  {
    FirstMentions(LastChunk(req, inputs).counters, StateAfter(req, inputs[..|inputs| - 1]).sent)
  }

  /** Every id the stream has introduced, in order. */
  function SentIds(req: Request, inputs: seq<Input>): seq<int> {
    if inputs == [] then [] else SentIds(req, inputs[..|inputs| - 1]) + SentAt(req, inputs)
  }

  lemma {:induction false} SentIsSet(req: Request, inputs: seq<Input>)
    ensures StateAfter(req, inputs).sent == set id | id in SentIds(req, inputs)
    decreases |inputs|
  {
    if inputs != [] {
      SentIsSet(req, inputs[..|inputs| - 1]);
    }
  }

  /** No id is ever introduced twice, and after any tick the ids introduced are
      exactly those that some counter, limits applied, has mentioned. */
  lemma {:induction false} SentExactlyOnce(req: Request, inputs: seq<Input>)
    ensures var ids := SentIds(req, inputs);
      && (forall i, j :: 0 <= i < j < |ids| ==> ids[i] != ids[j])
      && (forall id :: id in ids <==> id != 0 && Mentioned(req, inputs, id))
    decreases |inputs|
  {
    if inputs != [] {
      var rest := inputs[..|inputs| - 1];
      SentExactlyOnce(req, rest);
      SentIsSet(req, rest);
      MentionsFirst(LastChunk(req, inputs).counters, StateAfter(req, rest).sent);
      var before, now := SentIds(req, rest), SentAt(req, inputs);
      forall i, j | 0 <= i < j < |before + now|
        ensures (before + now)[i] != (before + now)[j]
      {
        if i < |before| <= j {
          assert (before + now)[i] in before && (before + now)[j] in now;
        }
      }
    }
  }

  /** Some chunk so far had a counter for `id`. */
  predicate Mentioned(req: Request, inputs: seq<Input>, id: int) {
    inputs != []
    && (Mentioned(req, inputs[..|inputs| - 1], id) || HasId(LastChunk(req, inputs).counters, id))
  }

  // ---- What the client can resolve

  function Merge(have: map<int, Identity>, firsts: seq<(int, Identity)>): map<int, Identity> {
    if firsts == [] then have
    else Merge(have, firsts[..|firsts| - 1])[firsts[|firsts| - 1].0 := firsts[|firsts| - 1].1]
  }

  /** A client that merges what each chunk brings. */
  function ClientAfter(req: Request, inputs: seq<Input>): map<int, Identity> {
    if inputs == [] then map[]
    else Merge(ClientAfter(req, inputs[..|inputs| - 1]), LastChunk(req, inputs).identities)
  }

  lemma {:induction false} IntroducedMerge(known: Cache, ids: seq<int>, have: map<int, Identity>, id: int)
    ensures var got := Merge(have, Introduce(known, ids));
      && (id in ids && id in known && known[id].Some? ==> id in got && got[id] == known[id].value)
      && (id !in ids ==> (id in got <==> id in have) && (id in have ==> got[id] == have[id]))
    decreases |ids|
  {
    if ids != [] {
      var rest, last := ids[..|ids| - 1], ids[|ids| - 1];
      IntroducedMerge(known, rest, have, id);
      var before := Introduce(known, rest);
      assert ids == rest + [last];
      if last in known && known[last].Some? {
        assert (before + [(last, known[last].value)])[..|before|] == before;
      } else {
        assert before + [] == before;
      }
    }
  }

  /** Every counter that is not of a group is of an identity the stream knows. */
  lemma CountersAreKnown(req: Request, who: int -> Option<Identity>, deltas: seq<Delta>, e: Entry)
    requires e in ChunkRows(req, who, deltas) && e.key.id != 0
    ensures who(e.key.id).Some?
  {
    LeadersSpec(Both, Shown(req, who, deltas), req.limit);
    var all := Leaders(Both, Shown(req, who, deltas), 0);
    assert e in all && e == Entry(e.key, e.bytes);
    assert SumOf(Shown(req, who, deltas), e.key) == Row(e.bytes);
    ShownAreKnown(req, who, deltas, e.key);
  }

  lemma {:induction false} ShownAreKnown(req: Request, who: int -> Option<Identity>, deltas: seq<Delta>, k: SumKey)
    requires SumOf(Shown(req, who, deltas), k) != Absent && k.id != 0
    ensures who(k.id).Some?
    decreases |deltas|
  {
    var rest, d := deltas[..|deltas| - 1], deltas[|deltas| - 1];
    var before := Shown(req, who, rest);
    var under := KeyOf(req, who(d.flow.identity), d.flow);
    if under.Some? {
      assert (before + [Entry(under.value, d.bytes)])[..|before|] == before;
      if under.value != k {
        ShownAreKnown(req, who, rest, k);
      }
    } else {
      assert before + [] == before;
      ShownAreKnown(req, who, rest, k);
    }
  }

  /** A client merging identities can resolve every non-grouped counter of every
      chunk as it arrives. */
  lemma {:induction false} ClientResolves(req: Request, inputs: seq<Input>, id: int)
    requires id != 0 && Mentioned(req, inputs, id)
    ensures id in ClientAfter(req, inputs)
    ensures FirstSight(req, inputs, id) == Some(Some(ClientAfter(req, inputs)[id]))
    decreases |inputs|
  {
    var rest, last := inputs[..|inputs| - 1], inputs[|inputs| - 1];
    var known := StateAfter(req, inputs).known;
    var firsts := SentAt(req, inputs);
    var counters := LastChunk(req, inputs).counters;
    IntroducedMerge(known, firsts, ClientAfter(req, rest), id);
    CacheIsFirstSight(req, inputs, id);
    MentionsFirst(counters, StateAfter(req, rest).sent);
    SentIsSet(req, rest);
    SentExactlyOnce(req, rest);
    if Mentioned(req, rest, id) {
      ClientResolves(req, rest, id);
    } else {
      var i :| 0 <= i < |counters| && counters[i].key.id == id;
      CountersAreKnown(req, Cached(known), last.deltas, counters[i]);
    }
  }
}
