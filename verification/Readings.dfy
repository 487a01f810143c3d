/** The numbers on screen, one by one: a rate, a session and each sample of a
    trend, in each direction, as plain sums over the flows they stand for. */
module Readings {
  import opened Counters
  import opened Identities
  import opened Ranking
  import opened Query
  import opened Trends
  import opened Screen
  import opened Display
  import opened Terminal

  /** One number of a measure. */
  datatype Dial = Rate | Session | Sample(index: nat)

  function Reading(m: Measure, dial: Dial, incoming: bool): nat {
    match dial
    case Rate => if incoming then m.rate.ingress else m.rate.egress
    case Session => if incoming then m.session.ingress else m.session.egress
    case Sample(j) =>
      if j >= |m.samples| then 0 else if incoming then m.samples[j].ingress else m.samples[j].egress
  }

  /** The members' own numbers, added up. */
  ghost function SumOfReadings(ids: set<int>, measures: map<int, Measure>, dial: Dial, incoming: bool): nat
    requires ids <= measures.Keys
  {
    if ids == {} then 0
    else
      var id := Pick(ids);
      Reading(measures[id], dial, incoming) + SumOfReadings(ids - {id}, measures, dial, incoming)
  }

  lemma AddReads(a: Measure, b: Measure, dial: Dial, incoming: bool)
    ensures Reading(AddMeasure(a, b), dial, incoming) == Reading(a, dial, incoming) + Reading(b, dial, incoming)
  {
  }

  /** A sum of measures reads, dial by dial, as the sum of its members' readings, a
      missing sample counting nothing. */
  lemma {:induction false} SumReads(ids: set<int>, measures: map<int, Measure>, dial: Dial, incoming: bool)
    requires ids <= measures.Keys
    ensures Reading(SumOver(ids, measures), dial, incoming) == SumOfReadings(ids, measures, dial, incoming)
    decreases ids
  {
    if ids != {} {
      var id := Pick(ids);
      SumReads(ids - {id}, measures, dial, incoming);
      AddReads(measures[id], SumOver(ids - {id}, measures), dial, incoming);
      hide AddMeasure, Reading;
    }
  }

  /** And its trend is just as long as its longest member's. */
  lemma {:induction false} SumLength(ids: set<int>, measures: map<int, Measure>, n: nat)
    requires ids <= measures.Keys
    ensures |SumOver(ids, measures).samples| <= n <==> forall id :: id in ids ==> |measures[id].samples| <= n
    decreases ids
  {
    if ids != {} {
      SumLength(ids - {Pick(ids)}, measures, n);
    }
  }

  /** A flow's number, where the flow is there and its scope was asked for. */
  function FlowReading(parts: map<Flow, Measure>, want: ScopeFilter, f: Flow, dial: Dial, incoming: bool): nat {
    if f in parts && (want == AnyScope || want == Only(f.scope)) then Reading(parts[f], dial, incoming) else 0
  }

  /** An identity is measured exactly where one of its flows is there in a scope
      asked for, and reads as its external and its loopback flow together. */
  lemma IdentityReads(parts: map<Flow, Measure>, want: ScopeFilter, id: int, dial: Dial, incoming: bool)
    ensures id in MeasuresIn(parts, want)
       <==> (Flow(id, External) in parts && want != Only(Loopback))
            || (Flow(id, Loopback) in parts && want != Only(External))
    ensures id in MeasuresIn(parts, want) ==>
      Reading(MeasuresIn(parts, want)[id], dial, incoming)
      == FlowReading(parts, want, Flow(id, External), dial, incoming)
         + FlowReading(parts, want, Flow(id, Loopback), dial, incoming)
  {
    AddReads(PartOf(parts, want, Flow(id, External)), PartOf(parts, want, Flow(id, Loopback)), dial, incoming);
    ListedIds(parts, want, id);
    hide AddMeasure, IdsIn;
  }

  lemma ListedIds(parts: map<Flow, Measure>, want: ScopeFilter, id: int)
    ensures id in IdsIn(parts, want)
       <==> (Flow(id, External) in parts && want != Only(Loopback))
            || (Flow(id, Loopback) in parts && want != Only(External))
  {
    assert want.AnyScope? || want.scope == External || want.scope == Loopback;
    if id in IdsIn(parts, want) {
      var f :| f in parts && Wanted(want, f.scope) && f.identity == id;
      assert f.scope == External || f.scope == Loopback;
      assert f == Flow(id, f.scope);
    }
    if Flow(id, External) in parts && want != Only(Loopback) {
      assert Wanted(want, Flow(id, External).scope);
      assert Flow(id, External).identity in IdsIn(parts, want);
    }
    if Flow(id, Loopback) in parts && want != Only(External) {
      assert Wanted(want, Flow(id, Loopback).scope);
      assert Flow(id, Loopback).identity in IdsIn(parts, want);
    }
  }

  lemma StoredFlow(stored: seq<Counter>, want: ScopeFilter, f: Flow, dial: Dial, incoming: bool)
    ensures FlowReading(StoredParts(stored), want, f, dial, incoming)
         == if dial == Rate && (want == AnyScope || want == Only(f.scope))
            then if incoming then DeltaOf(stored, f).ingress else DeltaOf(stored, f).egress
            else 0
  {
    if f !in FlowsOf(stored) {
      Unmentioned(stored, f);
    }
    hide DeltaOf, FlowsOf;
  }

  /** In a history window an identity reads as its stored rows in the scopes asked
      for, and shows no session and no trend. */
  lemma StoredReads(stored: seq<Counter>, want: ScopeFilter, id: int, dial: Dial, incoming: bool)
    requires id in MeasuresIn(StoredParts(stored), want)
    ensures var external := if want == Only(Loopback) then Bytes(0, 0) else DeltaOf(stored, Flow(id, External));
            var loopback := if want == Only(External) then Bytes(0, 0) else DeltaOf(stored, Flow(id, Loopback));
      Reading(MeasuresIn(StoredParts(stored), want)[id], dial, incoming)
      == if dial != Rate then 0
         else if incoming then external.ingress + loopback.ingress
         else external.egress + loopback.egress
  {
    IdentityReads(StoredParts(stored), want, id, dial, incoming);
    StoredFlow(stored, want, Flow(id, External), dial, incoming);
    StoredFlow(stored, want, Flow(id, Loopback), dial, incoming);
    hide *;
    assert want.AnyScope? || want == Only(External) || want == Only(Loopback) by {
      assert want.AnyScope? || want.scope == External || want.scope == Loopback;
    }
  }

  // ---- Rows and header

  /** A row reads as just the identities under its key, added up. */
  lemma RowReads(identities: map<int, Identity>, measures: map<int, Measure>, grouping: GroupBy, look: Look,
                 sort: Direction, hit: Filter, rows: seq<TableRow>, row: TableRow, dial: Dial, incoming: bool)
    requires Shows(identities, measures, grouping, look, sort, hit, rows) && row in rows
    ensures row.members
         == set id | id in measures && id in identities && GroupKey(id, identities[id], grouping) == row.key
    ensures Reading(row.measure, dial, incoming) == SumOfReadings(row.members, measures, dial, incoming)
  {
    assert RowShown(identities, measures, grouping, look, sort, row);
    hide Shows, GroupKey, Labelled, Lists, Reading, SumOfReadings;
    SumReads(row.members, measures, dial, incoming);
  }

  function RowReadings(rows: seq<TableRow>, dial: Dial, incoming: bool): nat {
    if rows == [] then 0
    else RowReadings(rows[..|rows| - 1], dial, incoming) + Reading(rows[|rows| - 1].measure, dial, incoming)
  }

  lemma {:induction false} RowsRead(rows: seq<TableRow>, dial: Dial, incoming: bool)
    ensures Reading(SumOfRows(rows), dial, incoming) == RowReadings(rows, dial, incoming)
    decreases |rows|
  {
    if rows != [] {
      RowsRead(rows[..|rows| - 1], dial, incoming);
      AddReads(SumOfRows(rows[..|rows| - 1]), rows[|rows| - 1].measure, dial, incoming);
      hide AddMeasure, Reading;
    }
  }

  /** In the live view, unfiltered, the header reads as the rows on screen plus the
      identities not yet named. */
  lemma HeaderReads(identities: map<int, Identity>, live: map<int, Measure>, grouping: GroupBy, look: Look,
                    sort: Direction, hit: Filter, rows: seq<TableRow>, dial: Dial, incoming: bool)
    requires Shows(identities, live, grouping, look, sort, hit, rows) && forall k, members :: hit(k, members)
    ensures Reading(SumOver(live.Keys, live), dial, incoming)
         == RowReadings(rows, dial, incoming) + SumOfReadings(live.Keys - identities.Keys, live, dial, incoming)
  {
    HeaderIsRowsAndUnnamed(identities, live, grouping, look, sort, hit, rows);
    hide *;
    RowsRead(rows, dial, incoming);
    SumReads(live.Keys - identities.Keys, live, dial, incoming);
    AddReads(SumOfRows(rows), SumOver(live.Keys - identities.Keys, live), dial, incoming);
  }

  // ---- From the flows

  /** The flows' own numbers, added up. */
  ghost function SumOfFlows(flows: set<Flow>, parts: map<Flow, Measure>, want: ScopeFilter, dial: Dial,
                            incoming: bool): nat {
    if flows == {} then 0
    else
      var f := Pick(flows);
      FlowReading(parts, want, f, dial, incoming) + SumOfFlows(flows - {f}, parts, want, dial, incoming)
  }

  lemma {:induction false} FlowsTake(flows: set<Flow>, parts: map<Flow, Measure>, want: ScopeFilter, dial: Dial,
                                     incoming: bool, f: Flow)
    ensures SumOfFlows(flows, parts, want, dial, incoming)
         == SumOfFlows(flows - {f}, parts, want, dial, incoming)
            + if f in flows then FlowReading(parts, want, f, dial, incoming) else 0
    decreases flows
  {
    hide FlowReading;
    if f !in flows {
      assert flows - {f} == flows;
    } else {
      var first := Pick(flows);
      if first != f {
        FlowsTake(flows - {first}, parts, want, dial, incoming, f);
        FlowsTake(flows - {f}, parts, want, dial, incoming, first);
        assert flows - {first} - {f} == flows - {f} - {first};
      }
    }
  }

  lemma {:induction false} IdentitiesAreFlows(parts: map<Flow, Measure>, want: ScopeFilter, ids: set<int>,
                                              flows: set<Flow>, dial: Dial, incoming: bool)
    requires ids <= MeasuresIn(parts, want).Keys && flows == set f | f in parts && f.identity in ids
    ensures SumOfReadings(ids, MeasuresIn(parts, want), dial, incoming)
         == SumOfFlows(flows, parts, want, dial, incoming)
    decreases ids
  {
    hide MeasuresIn;
    if ids != {} {
      var id := Pick(ids);
      var external, loopback := Flow(id, External), Flow(id, Loopback);
      IdentityReads(parts, want, id, dial, incoming);
      FlowsTake(flows, parts, want, dial, incoming, external);
      FlowsTake(flows - {external}, parts, want, dial, incoming, loopback);
      WithoutIdentity(parts, ids, id);
      hide Reading;
      IdentitiesAreFlows(parts, want, ids - {id}, flows - {external} - {loopback}, dial, incoming);
    } else {
      assert flows == {};
    }
  }

  lemma WithoutIdentity(parts: map<Flow, Measure>, ids: set<int>, id: int)
    ensures (set f | f in parts && f.identity in ids) - {Flow(id, External)} - {Flow(id, Loopback)}
         == set f | f in parts && f.identity in ids - {id}
  {
    forall f: Flow
      ensures f == Flow(id, External) || f == Flow(id, Loopback) <==> f.identity == id
    {
      assert f.scope == External || f.scope == Loopback;
    }
  }

  /** The live header reads as every flow of the client's, each counted once, in the
      scopes asked for. */
  lemma HeaderIsFlows(parts: map<Flow, Measure>, want: ScopeFilter, dial: Dial, incoming: bool)
    ensures var live := MeasuresIn(parts, want);
      Reading(SumOver(live.Keys, live), dial, incoming) == SumOfFlows(parts.Keys, parts, want, dial, incoming)
  {
    var live := MeasuresIn(parts, want);
    var flows := set f | f in parts && f.identity in live;
    SumReads(live.Keys, live, dial, incoming);
    IdentitiesAreFlows(parts, want, live.Keys, flows, dial, incoming);
    forall f | f in parts.Keys - flows
      ensures FlowReading(parts, want, f, dial, incoming) == 0
    {
      ListedIds(parts, want, f.identity);
      assert f.scope == External || f.scope == Loopback;
      assert f == Flow(f.identity, f.scope);
    }
    SilentFlows(parts.Keys, flows, parts, want, dial, incoming);
  }

  lemma {:induction false} SilentFlows(all: set<Flow>, flows: set<Flow>, parts: map<Flow, Measure>, want: ScopeFilter,
                                       dial: Dial, incoming: bool)
    requires flows <= all && forall f :: f in all - flows ==> FlowReading(parts, want, f, dial, incoming) == 0
    ensures SumOfFlows(all, parts, want, dial, incoming) == SumOfFlows(flows, parts, want, dial, incoming)
    decreases all
  {
    hide FlowReading;
    if f :| f in all && f !in flows {
      FlowsTake(all, parts, want, dial, incoming, f);
      SilentFlows(all - {f}, flows, parts, want, dial, incoming);
    } else {
      assert all == flows;
    }
  }
}
