/** Fan-out of ticks to the live streams: each subscriber's queue, whatever else
    is put in it and whoever else hangs up, holds exactly the ticks published
    since it subscribed, in order. */
module Fanout {
  import Watch

  datatype Tick = Tick(at: int, intervalMs: nat, deltas: seq<Watch.Delta>)

  datatype Event = Ticked(tick: Tick) | Stop

  /** A subscriber's queue: all it was ever sent, and whether its reader is still there. */
  datatype Channel = Channel(open: bool, sent: seq<Event>)

  function Ticks(events: seq<Event>): seq<Tick> {
    if events == [] then []
    else
      var last := events[|events| - 1];
      Ticks(events[..|events| - 1]) + if last.Ticked? then [last.tick] else []
  }

  lemma TicksOfSent(events: seq<Event>, e: Event)
    ensures Ticks(events + [e]) == Ticks(events) + if e.Ticked? then [e.tick] else []
  {
    assert (events + [e])[..|events|] == events;
  }

  /** `tx.send(e)`: fails once the reader is gone. */
  function Send(c: Channel, e: Event): Channel {
    if c.open then c.(sent := c.sent + [e]) else c
  }

  function SendAll(channels: map<nat, Channel>, to: seq<nat>, e: Event): map<nat, Channel> {
    map id | id in channels :: if id in to then Send(channels[id], e) else channels[id]
  }

  function StillOpen(channels: map<nat, Channel>, ids: seq<nat>): (r: seq<nat>)
    requires forall id :: id in ids ==> id in channels
    ensures forall id :: id in r <==> id in ids && channels[id].open
  {
    if ids == [] then []
    else
      var last := ids[|ids| - 1];
      StillOpen(channels, ids[..|ids| - 1]) + if channels[last].open then [last] else []
  }

  class Hub {
    var subscribers: seq<nat>
    var channels: map<nat, Channel>
    /** The next queue made. */
    var next: nat
    ghost var published: seq<Tick>
    /** How many ticks had been published when each subscriber came. */
    ghost var joined: map<nat, nat>

    /** A reader still there has had, or has queued, every tick since it joined;
        one that left had every tick up to some moment. */
    ghost predicate Valid()
      reads this
    {
      && channels.Keys == joined.Keys
      && (forall id :: id in subscribers ==> id in channels)
      && (forall i, j :: 0 <= i < j < |subscribers| ==> subscribers[i] != subscribers[j])
      && (forall id :: id in channels && channels[id].open ==> id in subscribers)
      && (forall id :: id in channels ==> id < next)
      && AllHeard(channels, joined, published)
    }

    constructor ()
      ensures Valid() && published == []
    {
      subscribers, channels, next := [], map[], 0;
      published, joined := [], map[];
    }

    method Subscribe() returns (id: nat)
      requires Valid()
      modifies this
      ensures Valid() && id !in old(channels) && published == old(published)
      ensures channels == old(channels)[id := Channel(true, [])] && subscribers == old(subscribers) + [id]
      ensures joined == old(joined)[id := |published|]
    {
      id := next;
      next := next + 1;
      subscribers := subscribers + [id];
      channels := channels[id := Channel(true, [])];
      joined := joined[id := |published|];
    }

    /** Put the tick in each queue; those whose reader is gone leave the list. */
    method Publish(tick: Tick)
      requires Valid()
      modifies this
      ensures Valid() && published == old(published) + [tick] && joined == old(joined)
      ensures channels == SendAll(old(channels), old(subscribers), Ticked(tick))
      ensures subscribers == StillOpen(old(channels), old(subscribers))
    {
      var kept;
      channels, kept := SendEach(channels, subscribers, Ticked(tick));
      subscribers, published := kept, published + [tick];
      KeptDiffer(old(channels), old(subscribers));
      AllHearTick(old(channels), old(subscribers), joined, old(published), tick);
    }

    /** A stop request lands among the ticks of one queue. */
    method AskToStop(id: nat)
      requires Valid() && id in channels
      modifies this`channels
      ensures Valid() && channels == old(channels)[id := Send(old(channels)[id], Stop)]
    {
      TicksOfSent(channels[id].sent, Stop);
      channels := channels[id := Send(channels[id], Stop)];
    }

    /** A stream ends and drops its queue. */
    method HangUp(id: nat)
      requires Valid() && id in channels
      modifies this`channels
      ensures Valid() && channels == old(channels)[id := old(channels)[id].(open := false)]
    {
      channels := channels[id := channels[id].(open := false)];
    }
  }

  /** What a subscriber has heard of the ticks published since it came: all of
      them while its reader is there, and a beginning of them afterwards. */
  ghost predicate Heard(c: Channel, since: seq<Tick>) {
    if c.open then Ticks(c.sent) == since else Ticks(c.sent) <= since
  }

  ghost predicate AllHeard(channels: map<nat, Channel>, joined: map<nat, nat>, published: seq<Tick>)
    requires channels.Keys == joined.Keys
  {
    forall id :: id in channels ==> joined[id] <= |published| && Heard(channels[id], published[joined[id]..])
  }

  lemma AllHearTick(channels: map<nat, Channel>, subscribers: seq<nat>, joined: map<nat, nat>, published: seq<Tick>,
                    tick: Tick)
    requires channels.Keys == joined.Keys && AllHeard(channels, joined, published)
    requires forall id :: id in channels && channels[id].open ==> id in subscribers
    ensures AllHeard(SendAll(channels, subscribers, Ticked(tick)), joined, published + [tick])
  {
    hide Heard;
    forall id | id in channels
      ensures Heard(SendAll(channels, subscribers, Ticked(tick))[id], (published + [tick])[joined[id]..])
    {
      HearsTick(channels[id], published[joined[id]..], tick);
      assert (published + [tick])[joined[id]..] == published[joined[id]..] + [tick];
    }
  }

  /** Send `e` down each queue, and note which ones took it. */
  method SendEach(start: map<nat, Channel>, to: seq<nat>, e: Event)
    returns (channels: map<nat, Channel>, kept: seq<nat>)
    requires forall id :: id in to ==> id in start
    requires forall i, j :: 0 <= i < j < |to| ==> to[i] != to[j]
    ensures channels == SendAll(start, to, e) && kept == StillOpen(start, to)
  {
    channels, kept := start, [];
    var i := 0;
    assert SendAll(start, to[..0], e) == start && StillOpen(start, to[..0]) == [];
    hide *;
    while i < |to|
      invariant 0 <= i <= |to|
      invariant channels == SendAll(start, to[..i], e)
      invariant kept == StillOpen(start, to[..i])
    {
      var id := to[i];
      NextIsNew(to, i);
      SendStep(start, to[..i], id, e);
      if channels[id].open {
        channels := channels[id := Send(channels[id], e)];
        kept := kept + [id];
      }
      i := i + 1;
    }
    assert to[..i] == to;
  }

  lemma NextIsNew(to: seq<nat>, i: nat)
    requires i < |to| && forall j, k :: 0 <= j < k < |to| ==> to[j] != to[k]
    ensures to[..i + 1] == to[..i] + [to[i]] && to[i] !in to[..i]
    ensures forall x :: x in to[..i] ==> x in to
  {
  }

  lemma SendStep(start: map<nat, Channel>, before: seq<nat>, id: nat, e: Event)
    requires id !in before && id in start && forall x :: x in before ==> x in start
    ensures id in SendAll(start, before, e) && SendAll(start, before, e)[id] == start[id]
    ensures SendAll(start, before + [id], e)
         == if start[id].open then SendAll(start, before, e)[id := Send(start[id], e)] else SendAll(start, before, e)
    ensures StillOpen(start, before + [id]) == StillOpen(start, before) + if start[id].open then [id] else []
  {
    assert (before + [id])[..|before|] == before;
    var one, two := SendAll(start, before + [id], e), SendAll(start, before, e);
    hide StillOpen;
    assert one == if start[id].open then two[id := Send(start[id], e)] else two;
  }

  lemma HearsTick(c: Channel, since: seq<Tick>, tick: Tick)
    requires Heard(c, since)
    ensures Heard(Send(c, Ticked(tick)), since + [tick])
  {
    TicksOfSent(c.sent, Ticked(tick));
  }

  lemma {:induction false} KeptDiffer(channels: map<nat, Channel>, ids: seq<nat>)
    requires forall id :: id in ids ==> id in channels
    requires forall i, j :: 0 <= i < j < |ids| ==> ids[i] != ids[j]
    ensures var kept := StillOpen(channels, ids); forall i, j :: 0 <= i < j < |kept| ==> kept[i] != kept[j]
    decreases |ids|
  {
    if ids != [] {
      var rest := ids[..|ids| - 1];
      KeptDiffer(channels, rest);
      assert ids[|ids| - 1] !in rest;
      assert ids[|ids| - 1] !in StillOpen(channels, rest);
    }
  }
}
