/** From a request to the read it plans: the window in whole seconds, the
    identity the caller may see, and the tier. */
module Requests {
  import opened Counters
  import opened Zones
  import opened Rollup
  import opened History
  import opened Stitch
  import opened Ranking
  import opened Identities
  import opened Query
  import opened Top

  datatype TimeRange = TimeRange(fromMs: int, toMs: int)

  datatype Refusal = NoRange | EmptyRange | NoIdentity(id: int)

  datatype Result<T> = Ok(value: T) | Err(error: Refusal)

  /** The whole seconds a request is about, the last one excluded. */
  datatype Window = Window(from: int, to: int)

  function WindowOf(range: Option<TimeRange>): Result<Window> {
    match range
    case None => Err(NoRange)
    case Some(TimeRange(fromMs, toMs)) =>
      var from, to := fromMs / 1000, toMs / 1000;
      if from >= to then Err(EmptyRange) else Ok(Window(from, to))
  }

  /** The start of a second, after `fromMs` and no later than `toMs`. */
  predicate SecondBetween(s: int, fromMs: int, toMs: int) {
    fromMs < s * 1000 <= toMs
  }

  /** A range is refused, even one that is not empty in milliseconds, unless a
      second starts within it; before the epoch as much as after. The window
      then begins with the second `fromMs` is in, and ends with the last second
      to start by `toMs`. */
  lemma WindowAccepted(fromMs: int, toMs: int)
    ensures var w := WindowOf(Some(TimeRange(fromMs, toMs)));
      && (w.Ok? <==> exists s :: SecondBetween(s, fromMs, toMs))
      && (w.Ok? ==>
            && w.value.from < w.value.to
            && w.value.from * 1000 <= fromMs < (w.value.from + 1) * 1000
            && w.value.to * 1000 <= toMs < (w.value.to + 1) * 1000)
      && (w.Err? ==> w.error == EmptyRange)
  {
    var w := WindowOf(Some(TimeRange(fromMs, toMs)));
    if w.Ok? {
      assert SecondBetween(w.value.to, fromMs, toMs);
    }
    if s :| SecondBetween(s, fromMs, toMs) {
      assert fromMs / 1000 < s <= toMs / 1000;
    }
  }

  /** One refusal serves for both an unknown id and a hidden one. */
  function Resolve(ids: Registry, vis: Visibility, id: int): Result<Identity> {
    if id in ids && Sees(vis, ids[id]) then Ok(ids[id]) else Err(NoIdentity(id))
  }

  /** The part of the registry that `vis` lets through. */
  function SeenBy(ids: Registry, vis: Visibility): Registry {
    map id | id in ids && Sees(vis, ids[id]) :: ids[id]
  }

  datatype SeriesRequest = SeriesRequest(id: int, range: Option<TimeRange>, tier: Option<Tier>, want: ScopeFilter)

  datatype Plan = Plan(tier: Tier, window: Window)

  /** What `series` decides before it reads: the range is judged first, then the id. */
  function PlanSeries(ids: Registry, vis: Visibility, r: Retention, now: int, q: SeriesRequest): Result<Plan> {
    match WindowOf(q.range)
    case Err(e) => Err(e)
    case Ok(w) =>
      match Resolve(ids, vis, q.id)
      case Err(e) => Err(e)
      case Ok(_) =>
        Ok(Plan(match q.tier case Some(tier) => tier case None => SeriesTier(r, w.from, w.to, now), w))
  }

  /** Some second starts within the range. */
  ghost predicate HasSeconds(range: Option<TimeRange>) {
    range.Some? && exists s :: SecondBetween(s, range.value.fromMs, range.value.toMs)
  }

  /** The plan is to read the whole seconds of the range, at the tier named or the
      one chosen; and each refusal has its own reason: no range, no second in it, or
      an identity that is unknown or someone else's. */
  lemma PlansExactly(ids: Registry, vis: Visibility, r: Retention, now: int, q: SeriesRequest)
    ensures var plan := PlanSeries(ids, vis, r, now, q);
            var shown := q.id in ids && (vis == All || vis == Uid(ids[q.id].record.key.uid));
      && (plan.Ok? <==> HasSeconds(q.range) && shown)
      && (plan == Err(NoRange) <==> q.range == None)
      && (plan == Err(EmptyRange) <==> q.range != None && !HasSeconds(q.range))
      && (plan == Err(NoIdentity(q.id)) <==> HasSeconds(q.range) && !shown)
      && (plan.Ok? ==>
            var window := plan.value.window;
            && window.from * 1000 <= q.range.value.fromMs < (window.from + 1) * 1000
            && window.to * 1000 <= q.range.value.toMs < (window.to + 1) * 1000
            && plan.value.tier == if q.tier.Some? then q.tier.value else SeriesTier(r, window.from, window.to, now))
  {
    if q.range.Some? {
      WindowAccepted(q.range.value.fromMs, q.range.value.toMs);
    }
    hide SeriesTier, SecondBetween;
  }

  /** Two registries a caller sees the same part of are the same to it. */
  lemma PlansAgree(ids: Registry, ids': Registry, vis: Visibility, r: Retention, now: int, q: SeriesRequest)
    requires SeenBy(ids, vis) == SeenBy(ids', vis)
    ensures Resolve(ids, vis, q.id) == Resolve(ids', vis, q.id)
    ensures PlanSeries(ids, vis, r, now, q) == PlanSeries(ids', vis, r, now, q)
  {
    assert q.id in SeenBy(ids, vis) <==> q.id in SeenBy(ids', vis);
    assert q.id in SeenBy(ids, vis) ==> SeenBy(ids, vis)[q.id] == SeenBy(ids', vis)[q.id];
  }

  lemma SameSeen(u: nat, ids: Registry, ids': Registry, log: Table, log': Table)
    requires SameTo(u, ids, ids', log, log')
    ensures SeenBy(ids, Uid(u)) == SeenBy(ids', Uid(u))
  {
    forall id
      ensures id in SeenBy(ids, Uid(u)) <==> id in SeenBy(ids', Uid(u))
      ensures id in SeenBy(ids, Uid(u)) ==> ids[id] == ids'[id]
    {
      assert (id in ids && ids[id].record.key.uid == u) || (id in ids' && ids'[id].record.key.uid == u) ==>
          id in ids && id in ids' && ids[id] == ids'[id];
    }
  }

  predicate InTierAndRetention(g: Grid, r: Retention, now: int, p: Plan) {
    && Edge(g, p.tier, p.window.from) && Edge(g, p.tier, p.window.to)
    && p.window.from <= p.window.to
    && Retained(r, p.tier, p.window.from, now)
  }

  /** Whatever a uid asks of `series`, about anyone, its answer is a function of
      its own identities and their minutes: it is refused alike, or reads the
      same window at the same tier and gets the same rows. */
  lemma SeriesOwnTrafficOnly(g: Grid, r: Retention, es: seq<Event>, es': seq<Event>, now: int, u: nat,
                             ids: Registry, ids': Registry, q: SeriesRequest, rows: seq<FactRow>, rows': seq<FactRow>)
    requires Lawful(g) && Timely(g, es) && By(es, now) && Timely(g, es') && By(es', now)
    requires SameTo(u, ids, ids', Log(es), Log(es'))
    ensures PlanSeries(ids, Uid(u), r, now, q) == PlanSeries(ids', Uid(u), r, now, q)
    ensures (AnswersPlan(g, r, es, now, PlanSeries(ids, Uid(u), r, now, q), rows)
             && AnswersPlan(g, r, es', now, PlanSeries(ids', Uid(u), r, now, q), rows')) ==>
      var tier := PlanSeries(ids, Uid(u), r, now, q).value.tier;
      Aggregate(SeriesEntries(g, tier, q.id, q.want, rows)) == Aggregate(SeriesEntries(g, tier, q.id, q.want, rows'))
  {
    SameSeen(u, ids, ids', Log(es), Log(es'));
    PlansAgree(ids, ids', Uid(u), r, now, q);
    var plan := PlanSeries(ids, Uid(u), r, now, q);
    if AnswersPlan(g, r, es, now, plan, rows) && AnswersPlan(g, r, es', now, plan, rows') {
      assert q.id in ids && ids[q.id].record.key.uid == u;
      SeriesAgree(g, r, es, es', now, u, ids, ids', q, plan.value, rows, rows');
    }
  }

  /** The rows a planned read may deliver, for a window on its tier's bounds and
      within its retention. */
  ghost predicate AnswersPlan(g: Grid, r: Retention, es: seq<Event>, now: int, plan: Result<Plan>, rows: seq<FactRow>) {
    && plan.Ok?
    && InTierAndRetention(g, r, now, plan.value)
    && Delivered(rows, After(g, r, es), plan.value.tier, plan.value.window.from, plan.value.window.to)
  }

  lemma SeriesAgree(g: Grid, r: Retention, es: seq<Event>, es': seq<Event>, now: int, u: nat, ids: Registry,
                    ids': Registry,
                    q: SeriesRequest, p: Plan, rows: seq<FactRow>, rows': seq<FactRow>)
    requires Lawful(g) && Timely(g, es) && By(es, now) && Timely(g, es') && By(es', now)
    requires SameTo(u, ids, ids', Log(es), Log(es')) && q.id in ids && ids[q.id].record.key.uid == u
    requires InTierAndRetention(g, r, now, p)
    requires Delivered(rows, After(g, r, es), p.tier, p.window.from, p.window.to)
    requires Delivered(rows', After(g, r, es'), p.tier, p.window.from, p.window.to)
    ensures Aggregate(SeriesEntries(g, p.tier, q.id, q.want, rows))
           == Aggregate(SeriesEntries(g, p.tier, q.id, q.want, rows'))
  {
    var a, b := Aggregate(SeriesEntries(g, p.tier, q.id, q.want, rows)),
              Aggregate(SeriesEntries(g, p.tier, q.id, q.want, rows'));
    var from, to := p.window.from, p.window.to;
    hide Lawful, Timely, By, Delivered, SeriesEntries, Aggregate, SumOf, KeySorted, Retained;
    forall k
      ensures SumOf(a, k) == SumOf(b, k)
    {
      SeriesIsDirectFold(g, r, es, now, p.tier, q.id, q.want, from, to, rows, k);
      SeriesIsDirectFold(g, r, es', now, p.tier, q.id, q.want, from, to, rows', k);
      TotalSame(Log(es), Log(es'), Flow(q.id, k.scope), k.id, End(g, p.tier, k.id));
    }
    SeriesIsDirectFold(g, r, es, now, p.tier, q.id, q.want, from, to, rows, SumKey(0, "", External));
    SeriesIsDirectFold(g, r, es', now, p.tier, q.id, q.want, from, to, rows', SumKey(0, "", External));
    SumsDetermine(a, b);
  }
}
