/** The collector's drain thread as it is written, loop by loop, with the kernel
    adding to the counters between its steps. Every tick is a run of the
    protocol, so what holds over all the protocol's runs holds of its fields. */
module Drain {
  import opened Counters
  import opened MapSum
  import opened Collector
  import R = Reckoning

  /** Half of an addition by the kernel, on some CPU; `room` says whether a full
      map takes a new key. */
  datatype Half = LookUp(cpu: int, key: TrafficKey) | Add(cpu: int, bytes: nat, room: bool)

  /** What the world does around one key: kernel steps before the read,
      between it and the removal, and after; whether the map calls succeed; and
      what an identity upsert, if one is needed, yields. */
  datatype Weather = Weather(before: seq<Half>, between: seq<Half>, beyond: seq<Half>, readable: bool, removable: bool,
                             upsert: Option<int>)

  /** What has left the thread, and when. */
  datatype Output = Output(published: seq<Delta>, stored: Table, unstored: Table, clock: int, swept: int)

  function Outputs(p: Pipe): Output {
    Output(p.published, p.stored, p.unstored, p.clock, p.swept)
  }

  class DrainThread {
    /** The kernel's `TRAFFIC` map, which it and the thread share. */
    var traffic: map<TrafficKey, nat>
    /** The slots the kernel's CPUs have looked up and not yet added to. */
    var held: map<int, Held>
    var cache: map<int, int>
    var acc: Table
    ghost var began: int
    ghost var history: seq<Action>
    ghost var pipe: Pipe

    /** The fields are those of a state the protocol can reach. */
    ghost predicate Follows()
      reads this
    {
      && Leads(Start(began), history, pipe)
      && traffic == pipe.traffic && held == pipe.held && cache == pipe.cache && acc == pipe.acc
      && KeysLeft(pipe.pc)
    }

    constructor (now: int)
      ensures AtRest() && pipe == Start(now) && began == now
    {
      traffic, held, cache, acc := map[], map[], map[], map[];
      began, history, pipe := now, [], Start(now);
    }

    ghost method Take(a: Action)
      requires Leads(Start(began), history, pipe) && KeysLeft(pipe.pc) && Enabled(pipe, a)
      modifies this`history, this`pipe
      ensures Leads(Start(began), history, pipe) && pipe == Next(old(pipe), a)
    {
      LeadsOn(Start(began), history, pipe, a);
      history := history + [a];
      pipe := Next(pipe, a);
    }

    /** The kernel finds a counter's slot, or that there is none. */
    method LookUpCounter(cpu: int, key: TrafficKey)
      requires Follows() && cpu !in held
      modifies this`held, this`history, this`pipe
      ensures Follows() && pipe == Next(old(pipe), KernelLookup(cpu, key))
      ensures held == old(held)[cpu := if key in traffic then Found(key, true) else Missing(key)]
      ensures pipe.pc == old(pipe).pc && pipe.polled == old(pipe).polled && Outputs(pipe) == Outputs(old(pipe))
    {
      held := held[cpu := if key in traffic then Found(key, true) else Missing(key)];
      Take(KernelLookup(cpu, key));
    }

    /** It adds to the slot it found, on or off the map, or inserts the counter. */
    method AddToCounter(cpu: int, bytes: nat, room: bool)
      requires Follows() && cpu in held && 0 < bytes
      modifies this`traffic, this`held, this`history, this`pipe
      ensures Follows() && pipe == Next(old(pipe), KernelAdd(cpu, bytes, room))
      ensures var h := old(held)[cpu];
              var kept := if h.Found? then h.attached else h.key in old(traffic) || room;
              var count := if h.key in old(traffic) then old(traffic)[h.key] else 0;
        held == old(held) - {cpu} && traffic == if kept then old(traffic)[h.key := count + bytes] else old(traffic)
      ensures pipe.pc == old(pipe).pc && pipe.polled == old(pipe).polled && Outputs(pipe) == Outputs(old(pipe))
    {
      var h := held[cpu];
      AddedEffect(pipe.(held := pipe.held - {cpu}), h, bytes, room);
      held := held - {cpu};
      if (h.Found? && h.attached) || (h.Missing? && (h.key in traffic || room)) {
        traffic := traffic[h.key := (if h.key in traffic then traffic[h.key] else 0) + bytes];
      }
      Take(KernelAdd(cpu, bytes, room));
    }

    /** The kernel moves nothing but its counters. */
    method Kernel(steps: seq<Half>)
      requires Follows()
      modifies this`traffic, this`held, this`history, this`pipe
      ensures Follows() && pipe.pc == old(pipe).pc && pipe.polled == old(pipe).polled
      ensures Outputs(pipe) == Outputs(old(pipe))
    {
      hide Next, Leads, Start, KeysLeft;
      for i := 0 to |steps|
        invariant Follows() && pipe.pc == old(pipe).pc && pipe.polled == old(pipe).polled
        invariant Outputs(pipe) == Outputs(old(pipe))
      {
        var step := steps[i];
        if step.LookUp? && step.cpu !in held {
          LookUpCounter(step.cpu, step.key);
        } else if step.Add? && step.cpu in held && 0 < step.bytes {
          AddToCounter(step.cpu, step.bytes, step.room);
        }
      }
    }

    /** The cache, else the store; a failed upsert is not cached. */
    method Resolve(tgid: int, upsert: Option<int>) returns (id: Option<int>)
      requires cache == pipe.cache
      modifies this`cache
      ensures id == if tgid in old(cache) then Some(old(cache)[tgid]) else upsert
      ensures cache == if tgid !in old(cache) && upsert.Some? then old(cache)[tgid := upsert.value] else old(cache)
      ensures id == Resolved(pipe, tgid, upsert)
      ensures cache == if id.Some? then Caching(pipe, tgid, upsert) else old(cache)
    {
      if tgid in cache {
        id := Some(cache[tgid]);
        assert cache[tgid := cache[tgid]] == cache;
      } else {
        id := upsert;
        if upsert.Some? {
          cache := cache[tgid := upsert.value];
        }
      }
    }

    /** What the counter holds now, over all CPUs; nothing if it has gone. */
    method ReadCounter(key: TrafficKey, readable: bool) returns (bytes: Option<nat>)
      requires Follows() && pipe.pc.Draining? && pipe.pc.keys != [] && pipe.pc.keys[0] == key
      modifies this`history, this`pipe
      ensures Follows() && pipe.polled == old(pipe).polled && Outputs(pipe) == Outputs(old(pipe))
      ensures pipe.pc
             == if bytes.Some? then Got(old(pipe).pc.bucket, old(pipe).pc.keys, bytes.value) else NextKey(old(pipe).pc)
    {
      GetEffect(pipe, readable);
      hide Next, Leads;
      bytes := if readable && key in traffic then Some(traffic[key]) else None;
      Take(Get(readable));
    }

    /** Remove it, with whatever the kernel has added to it since. */
    method RemoveCounter(key: TrafficKey, removable: bool, bytes: nat) returns (counted: bool)
      requires Follows() && pipe.pc.Got? && pipe.pc.keys[0] == key && pipe.pc.read == bytes
      modifies this`traffic, this`held, this`history, this`pipe
      ensures Follows() && pipe.polled == old(pipe).polled && Outputs(pipe) == Outputs(old(pipe))
      ensures pipe.pc == if counted then Removed(old(pipe).pc.bucket, old(pipe).pc.keys, bytes)
                         else Draining(old(pipe).pc.bucket, old(pipe).pc.keys[1..])
    {
      var removed := removable && key in traffic;
      if removed {
        traffic, held := traffic - {key}, Detached(held, key);
      }
      counted := removed && bytes != 0;
      Take(Remove(removable));
    }

    /** Add what was read to the identity's poll; unattributed if it has none. */
    method AddCounted(key: TrafficKey, bytes: nat, upsert: Option<int>, polled: map<Flow, Bytes>)
      returns (polled': map<Flow, Bytes>)
      requires Follows() && pipe.pc.Removed? && pipe.pc.keys[0] == key && pipe.pc.read == bytes && polled == pipe.polled
      modifies this`cache, this`history, this`pipe
      ensures Follows() && polled' == pipe.polled && Outputs(pipe) == Outputs(old(pipe))
      ensures pipe.pc == Draining(old(pipe).pc.bucket, old(pipe).pc.keys[1..])
    {
      ResolveEffect(pipe, upsert);
      hide Next, Leads, Tallied, Resolved, Caching;
      polled' := polled;
      var id := Resolve(key.tgid, upsert);
      if id.Some? {
        polled' := Tallied(polled, Flow(id.value, key.scope), key.dir, bytes);
      }
      Take(Collector.Resolve(upsert));
    }

    /** One turn of the drain loop; a counter that has gone is skipped. */
    method VisitKey(key: TrafficKey, w: Weather, polled: map<Flow, Bytes>) returns (polled': map<Flow, Bytes>)
      requires Follows() && pipe.pc.Draining? && pipe.pc.keys != [] && pipe.pc.keys[0] == key && polled == pipe.polled
      modifies this`traffic, this`held, this`cache, this`history, this`pipe
      ensures Follows() && polled' == pipe.polled && Outputs(pipe) == Outputs(old(pipe))
      ensures pipe.pc == Draining(old(pipe).pc.bucket, old(pipe).pc.keys[1..])
    {
      hide Next, Enabled, Leads, Resolved, Caching;
      polled' := polled;
      Kernel(w.before);
      var bytes := ReadCounter(key, w.readable);
      if bytes.Some? {
        Kernel(w.between);
        var counted := RemoveCounter(key, w.removable, bytes.value);
        if counted {
          Kernel(w.beyond);
          polled' := AddCounted(key, bytes.value, w.upsert, polled);
        }
      }
    }

    /** The whole poll: take each counter's bytes off the kernel, credit them to
        the current minute, and announce what was credited. `keys` are the
        counters listed at its start, in any order. */
    method DrainTraffic(now: int, keys: seq<TrafficKey>, weather: seq<Weather>) returns (deltas: seq<Delta>)
      requires Follows() && pipe.pc.Idle? && pipe.polled == map[] && pipe.clock <= now && |keys| <= |weather|
      modifies this
      ensures Follows() && began == old(began) && pipe.pc == Published && pipe.polled == map[]
      ensures Outputs(pipe) == Outputs(old(pipe)).(published := old(pipe).published + deltas, clock := now)
    {
      var bucket := now - now % 60;
      Take(BeginDrain(now, keys));
      hide Next, Enabled, Leads, Start, KeysLeft;
      var polled := PollEach(bucket, keys, weather);
      deltas := FoldPolled(bucket, polled);
    }

    method PollEach(bucket: int, keys: seq<TrafficKey>, weather: seq<Weather>) returns (polled: map<Flow, Bytes>)
      requires Follows() && pipe.pc == Draining(bucket, keys) && pipe.polled == map[] && |keys| <= |weather|
      modifies this`traffic, this`held, this`cache, this`history, this`pipe
      ensures Follows() && pipe.pc == Draining(bucket, []) && polled == pipe.polled
      ensures Outputs(pipe) == Outputs(old(pipe))
    {
      polled := map[];
      var i := 0;
      hide Next, Enabled, Leads, Start, Resolved, Caching, KeysLeft;
      while i < |keys|
        invariant 0 <= i <= |keys|
        invariant Follows() && polled == pipe.polled && pipe.pc == Draining(bucket, keys[i..])
        invariant Outputs(pipe) == Outputs(old(pipe))
      {
        assert keys[i..][0] == keys[i] && keys[i..][1..] == keys[i + 1..];
        polled := VisitKey(keys[i], weather[i], polled);
        i := i + 1;
      }
    }

    method FoldOne(bucket: int, flow: Flow, bytes: Bytes)
      requires Follows() && pipe.pc.Folding? && pipe.pc.bucket == bucket
      requires pipe.pc.flows != [] && pipe.pc.flows[0] == flow
      requires flow in pipe.polled && pipe.polled[flow] == bytes
      modifies this`acc, this`history, this`pipe
      ensures Follows() && Outputs(pipe) == Outputs(old(pipe))
      ensures pipe.polled == old(pipe).polled - {flow}
      ensures pipe.pc == Folding(bucket, old(pipe).pc.flows[1..], old(pipe).pc.deltas + [Delta(flow, bytes)])
      ensures acc == Accumulate(old(acc), Key(bucket, flow), bytes)
    {
      FoldEffect(pipe);
      hide Next, Leads, Accumulate;
      acc := Accumulate(acc, Key(bucket, flow), bytes);
      Take(Fold);
    }

    /** Add the poll to the accumulator, each identity and scope once, and publish. */
    method FoldPolled(bucket: int, polled: map<Flow, Bytes>) returns (deltas: seq<Delta>)
      requires Follows() && pipe.pc == Draining(bucket, []) && polled == pipe.polled
      modifies this`acc, this`history, this`pipe
      ensures Follows() && pipe.pc == Published && pipe.polled == map[]
      ensures Outputs(pipe) == Outputs(old(pipe)).(published := old(pipe).published + deltas)
    {
      hide Next, Leads, Lists, Start, KeysLeft, Enabled;
      var order := ListPolled(bucket, polled);
      deltas := FoldEach(bucket, order, polled);
      PublishPolled(deltas);
    }

    method ListPolled(bucket: int, polled: map<Flow, Bytes>) returns (order: seq<Flow>)
      requires Follows() && pipe.pc == Draining(bucket, []) && polled == pipe.polled
      modifies this`history, this`pipe
      ensures Follows() && pipe == old(pipe).(pc := Folding(bucket, order, [])) && Lists(order, polled.Keys)
    {
      order := Listed(polled.Keys);
      Take(EndDrain(order));
      hide Leads, Lists, Start;
    }

    method PublishPolled(deltas: seq<Delta>)
      requires Follows() && pipe.pc.Folding? && pipe.pc.flows == [] && pipe.pc.deltas == deltas
      modifies this`history, this`pipe
      ensures Follows() && pipe == old(pipe).(published := old(pipe).published + deltas, pc := Published)
    {
      PublishEffect(pipe);
      hide Next, Leads, Start;
      Take(Publish);
    }

    method FoldEach(bucket: int, order: seq<Flow>, polled: map<Flow, Bytes>) returns (deltas: seq<Delta>)
      requires Follows() && pipe.pc == Folding(bucket, order, []) && polled == pipe.polled && Lists(order, polled.Keys)
      modifies this`acc, this`history, this`pipe
      ensures Follows() && pipe.pc == Folding(bucket, [], deltas) && pipe.polled == map[]
      ensures Outputs(pipe) == Outputs(old(pipe))
    {
      deltas := [];
      var i := 0;
      hide Next, Leads, Lists, Accumulate, Start, KeysLeft;
      while i < |order|
        invariant 0 <= i <= |order|
        invariant Follows() && pipe.pc == Folding(bucket, order[i..], deltas)
        invariant Outputs(pipe) == Outputs(old(pipe))
        invariant Lists(order[i..], pipe.polled.Keys) && pipe.polled.Keys <= polled.Keys
        invariant forall f :: f in pipe.polled ==> pipe.polled[f] == polled[f]
      {
        var flow := order[i];
        assert order[i..][0] == flow && order[i..][1..] == order[i + 1..];
        ListsTail(order[i..], pipe.polled.Keys);
        FoldOne(bucket, flow, polled[flow]);
        deltas := deltas + [Delta(flow, polled[flow])];
        i := i + 1;
      }
      ListsNothing(pipe.polled.Keys);
    }

    /** Take one closed entry out and write it; whatever comes of the write, it
        is gone from the accumulator. */
    method FlushOne(key: Key, written: bool)
      requires Follows() && pipe.pc.Flushing? && pipe.pc.closed != [] && pipe.pc.closed[0] == key && key in acc
      modifies this`acc, this`history, this`pipe
      ensures Follows() && acc == old(acc) - {key} && pipe.polled == old(pipe).polled
      ensures pipe.pc
             == if written then Flushing(old(pipe).pc.open, old(pipe).pc.closed[1..], old(pipe).pc.now) else Idle
      ensures Outputs(pipe)
           == if written then Outputs(old(pipe)).(stored := Accumulate(old(pipe).stored, key, old(acc)[key]))
              else Outputs(old(pipe)).(unstored := Accumulate(old(pipe).unstored, key, old(acc)[key]))
    {
      FlushEffect(pipe, written);
      hide Next, Leads, Accumulate;
      acc := acc - {key};
      Take(Flush(written));
    }

    /** Move closed entries to the store one at a time, giving up at the first
        that it refuses. */
    method FlushClosedMinutes(now: int, written: Key -> bool) returns (ok: bool)
      requires Follows() && pipe.pc == Published && pipe.polled == map[] && pipe.clock <= now
      modifies this`acc, this`history, this`pipe
      ensures Follows() && pipe.polled == map[] && pipe.published == old(pipe).published && pipe.clock == now
      ensures pipe.swept == old(pipe).swept
      ensures pipe.pc == if ok then Flushing(CurrentMinute(now), [], now) else Idle
      ensures Remains(old(acc), acc, CurrentMinute(now))
      ensures Went(old(acc), acc, Outputs(old(pipe)), Outputs(pipe), ok)
      ensures ok ==> forall k :: k in acc ==> CurrentMinute(now) <= k.bucket
    {
      hide Next, Leads, Start, KeysLeft, Lists, Written, Accumulate, Enabled, ClosedIn, Remains, CurrentMinute;
      var open := CurrentMinute(now);
      var closed := ListClosed(open, now);
      ok := FlushEach(open, closed, now, written);
    }

    /** What is closed as of `now`, in any order. */
    method ListClosed(open: int, now: int) returns (closed: seq<Key>)
      requires Follows() && pipe.pc == Published && pipe.clock <= now && open == CurrentMinute(now)
      modifies this`history, this`pipe
      ensures Follows() && pipe == old(pipe).(pc := Flushing(open, closed, now), clock := now)
      ensures Lists(closed, ClosedIn(acc, open))
    {
      closed := Listed(ClosedIn(acc, open));
      Take(BeginFlush(now, closed));
      hide Leads, Start, KeysLeft, Lists;
    }

    method FlushEach(open: int, closed: seq<Key>, now: int, written: Key -> bool) returns (ok: bool)
      requires Follows() && pipe.pc == Flushing(open, closed, now) && Lists(closed, ClosedIn(acc, open))
      modifies this`acc, this`history, this`pipe
      ensures Follows() && pipe.polled == old(pipe).polled && pipe.published == old(pipe).published
      ensures pipe.clock == old(pipe).clock && pipe.swept == old(pipe).swept
      ensures pipe.pc == if ok then Flushing(open, [], now) else Idle
      ensures Remains(old(acc), acc, open)
      ensures Went(old(acc), acc, Outputs(old(pipe)), Outputs(pipe), ok)
      ensures ok ==> forall k :: k in acc ==> open <= k.bucket
    {
      var i := 0;
      ok := true;
      hide Next, Leads, Accumulate, Start, KeysLeft, Lists, ClosedIn, Remains, Went, Written;
      RemainsAll(acc, pipe.stored, open);
      while i < |closed|
        invariant 0 <= i <= |closed|
        invariant Follows() && pipe.polled == old(pipe).polled && pipe.published == old(pipe).published
        invariant pipe.clock == old(pipe).clock && pipe.swept == old(pipe).swept
        invariant pipe.pc == Flushing(open, closed[i..], now)
        invariant Lists(closed[i..], ClosedIn(acc, open)) && Remains(old(acc), acc, open)
        invariant pipe.unstored == old(pipe).unstored && Written(old(acc), acc, old(pipe).stored, pipe.stored, {})
      {
        assert closed[i..][0] == closed[i] && closed[i..][1..] == closed[i + 1..];
        TakingOut(old(acc), acc, open, closed[i..]);
        Writing(old(acc), acc, open, Outputs(old(pipe)), Outputs(pipe), closed[i]);
        FlushOne(closed[i], written(closed[i]));
        if !written(closed[i]) {
          ok := false;
          return;
        }
        i := i + 1;
      }
      NoneClosed(acc, open);
      AllWent(old(acc), acc, Outputs(old(pipe)), Outputs(pipe));
    }

    /** Drop what is cached about processes that are gone. */
    method CollectDead(dead: set<int>)
      requires Follows() && pipe.pc.Flushing? && pipe.pc.closed == []
      modifies this`cache, this`history, this`pipe
      ensures Follows() && pipe.pc == Idle && pipe.polled == old(pipe).polled && cache == old(cache) - dead
      ensures pipe.swept == old(pipe).pc.now && pipe.clock == old(pipe).clock
      ensures acc == old(acc) && pipe.published == old(pipe).published
    {
      cache := cache - dead;
      Take(EndTick(dead));
    }

    /** Find identities for the processes the kernel has just announced. */
    method DrainNewPids(newPids: seq<(int, Option<int>)>)
      requires Follows() && pipe.pc.Idle?
      modifies this`cache, this`history, this`pipe
      ensures Follows() && pipe == old(pipe).(cache := cache)
      ensures forall tgid :: tgid in old(cache) ==> tgid in cache && cache[tgid] == old(cache)[tgid]
    {
      var i := 0;
      while i < |newPids|
        invariant 0 <= i <= |newPids|
        invariant Follows() && pipe == old(pipe).(cache := cache)
        invariant forall tgid :: tgid in old(cache) ==> tgid in cache && cache[tgid] == old(cache)[tgid]
      {
        var id := Resolve(newPids[i].0, newPids[i].1);
        Take(Enrich(newPids[i].0, newPids[i].1));
        i := i + 1;
      }
    }

    /** One tick. Whatever the kernel does meanwhile and whatever fails, the
        thread ends idle in a state of the protocol; if the tick ends well, only
        minutes still open are left. */
    method Tick(newPids: seq<(int, Option<int>)>, now: int, keys: seq<TrafficKey>, weather: seq<Weather>,
                later: int, written: Key -> bool, dead: set<int>) returns (ok: bool)
      requires AtRest() && pipe.clock <= now <= later && |keys| <= |weather|
      modifies this
      ensures AtRest() && began == old(began) && pipe.clock == later
      ensures pipe.swept == if ok then later else old(pipe).swept
      ensures exists deltas :: pipe.published == old(pipe).published + deltas
      ensures ok ==> forall k :: k in acc ==> CurrentMinute(later) <= k.bucket
    {
      hide Next, Leads, Start, KeysLeft, Remains, Enabled;
      DrainNewPids(newPids);
      var deltas := DrainTraffic(now, keys, weather);
      ok := FlushClosedMinutes(later, written);
      if ok {
        CollectDead(dead);
      }
      assert pipe.published == old(pipe).published + deltas;
    }

    /** Between ticks. */
    ghost predicate AtRest()
      reads this
    {
      Follows() && pipe.pc == Idle && pipe.polled == map[]
    }
  }

  function ClosedIn(acc: Table, open: int): set<Key> {
    set k | k in acc && k.bucket < open
  }

  /** Entries only leave, and none of the open minute's do. */
  predicate Remains(before: Table, acc: Table, open: int) {
    && (forall k :: k in acc ==> k in before && acc[k] == before[k])
    && (forall k :: k in before && open <= k.bucket ==> k in acc)
  }

  /** The entries gone from the accumulator, but for `lost`, have been added to the store. */
  ghost predicate Written(before: Table, acc: Table, stored: Table, stored': Table, lost: set<Key>) {
    forall b, f :: At(stored', b, f)
      == if Key(b, f) in before && Key(b, f) !in acc && Key(b, f) !in lost then Plus(At(stored, b, f), At(before, b, f))
         else At(stored, b, f)
  }

  /** Where the entries gone went: to the store, each once, but for one where a
      write failed. */
  ghost predicate Went(before: Table, acc: Table, out: Output, out': Output, ok: bool) {
    if ok then out'.unstored == out.unstored && Written(before, acc, out.stored, out'.stored, {})
    else exists key ::
      key in before && key !in acc && out'.unstored == Accumulate(out.unstored, key, before[key])
      && Written(before, acc, out.stored, out'.stored, {key})
  }

  lemma AllWent(before: Table, acc: Table, out: Output, out': Output)
    requires out'.unstored == out.unstored && Written(before, acc, out.stored, out'.stored, {})
    ensures Went(before, acc, out, out', true)
  {
  }

  lemma Writing(before: Table, acc: Table, open: int, out: Output, out': Output, key: Key)
    requires Remains(before, acc, open) && key in acc
    requires out'.unstored == out.unstored && Written(before, acc, out.stored, out'.stored, {})
    ensures Written(before, acc - {key}, out.stored, Accumulate(out'.stored, key, acc[key]), {})
    ensures Went(before, acc - {key}, out, out'.(unstored := Accumulate(out'.unstored, key, acc[key])), false)
  {
    assert Written(before, acc - {key}, out.stored, out'.stored, {key});
  }

  lemma RemainsAll(acc: Table, stored: Table, open: int)
    ensures Remains(acc, acc, open) && Written(acc, acc, stored, stored, {})
  {
  }

  lemma TakingOut(before: Table, acc: Table, open: int, closed: seq<Key>)
    requires Remains(before, acc, open) && Lists(closed, ClosedIn(acc, open)) && closed != []
    ensures closed[0] in acc && Remains(before, acc - {closed[0]}, open)
    ensures Lists(closed[1..], ClosedIn(acc - {closed[0]}, open))
  {
    ListsTail(closed, ClosedIn(acc, open));
    assert ClosedIn(acc - {closed[0]}, open) == ClosedIn(acc, open) - {closed[0]};
    hide Lists;
  }

  lemma NoneClosed(acc: Table, open: int)
    requires Lists([], ClosedIn(acc, open))
    ensures forall k :: k in acc ==> open <= k.bucket
  {
    ListsNothing(ClosedIn(acc, open));
    hide Lists;
    forall k | k in acc
      ensures open <= k.bucket
    {
      assert k !in ClosedIn(acc, open);
    }
  }

  lemma FlushEffect(p: Pipe, written: bool)
    requires p.pc.Flushing? && p.pc.closed != [] && p.pc.closed[0] in p.acc
    ensures var q := Next(p, Flush(written));
            var key := p.pc.closed[0];
      && q.traffic == p.traffic && q.held == p.held && q.cache == p.cache
      && q.polled == p.polled && q.acc == p.acc - {key}
      && (written ==> q.pc == Flushing(p.pc.open, p.pc.closed[1..], p.pc.now)
                      && Outputs(q) == Outputs(p).(stored := Accumulate(p.stored, key, p.acc[key])))
      && (!written ==> q.pc == Idle && Outputs(q) == Outputs(p).(unstored := Accumulate(p.unstored, key, p.acc[key])))
  {
    assert Enabled(p, Flush(written)) && KeysLeft(p.pc);
    NextOf(p, Flush(written));
    hide Next, Enabled, Accumulate;
  }

  lemma FoldEffect(p: Pipe)
    requires p.pc.Folding? && p.pc.flows != [] && p.pc.flows[0] in p.polled
    ensures var q := Next(p, Fold);
            var flow := p.pc.flows[0];
      && q.traffic == p.traffic && q.held == p.held && q.cache == p.cache && Outputs(q) == Outputs(p)
      && q.acc == Accumulate(p.acc, Key(p.pc.bucket, flow), p.polled[flow]) && q.polled == p.polled - {flow}
      && q.pc == Folding(p.pc.bucket, p.pc.flows[1..], p.pc.deltas + [Delta(flow, p.polled[flow])])
  {
    assert Enabled(p, Fold) && KeysLeft(p.pc);
    NextOf(p, Fold);
    hide Next, Enabled, Accumulate;
  }

  lemma PublishEffect(p: Pipe)
    requires p.pc.Folding? && p.pc.flows == []
    ensures Next(p, Publish) == p.(published := p.published + p.pc.deltas, pc := Published)
  {
  }

  lemma ListsNothing<T>(all: set<T>)
    ensures Lists([], all) <==> all == {}
  {
    if Lists([], all) {
      assert forall x :: x in all ==> x in [];
    }
  }

  /** The elements of a set in some order. */
  method Listed<T(==)>(all: set<T>) returns (order: seq<T>)
    ensures Lists(order, all)
  {
    order := [];
    var rest := all;
    while rest != {}
      invariant rest <= all && Lists(order, all - rest)
      decreases rest
    {
      var x :| x in rest;
      order := order + [x];
      rest := rest - {x};
    }
    assert all - rest == all;
  }

  lemma GetEffect(p: Pipe, readable: bool)
    requires p.pc.Draining? && p.pc.keys != []
    ensures var q := Next(p, Get(readable));
      && q.traffic == p.traffic && q.held == p.held && q.cache == p.cache && q.acc == p.acc
      && q.polled == p.polled && Outputs(q) == Outputs(p)
      && q.pc == if readable && p.pc.keys[0] in p.traffic
                 then Got(p.pc.bucket, p.pc.keys, p.traffic[p.pc.keys[0]]) else NextKey(p.pc)
  {
    assert Enabled(p, Get(readable)) && KeysLeft(p.pc);
    NextOf(p, Get(readable));
    hide Next, Enabled, NextKey;
  }

  lemma ResolveEffect(p: Pipe, upsert: Option<int>)
    requires p.pc.Removed? && p.pc.keys != []
    ensures var q := Next(p, Collector.Resolve(upsert));
            var key := p.pc.keys[0];
            var id := Resolved(p, key.tgid, upsert);
      && q.traffic == p.traffic && q.held == p.held && q.acc == p.acc && Outputs(q) == Outputs(p)
      && q.pc == NextKey(p.pc)
      && q.cache == (if id.Some? then Caching(p, key.tgid, upsert) else p.cache)
      && q.polled == if id.Some? then Tallied(p.polled, Flow(id.value, key.scope), key.dir, p.pc.read) else p.polled
  {
    assert Enabled(p, Collector.Resolve(upsert)) && KeysLeft(p.pc);
    NextOf(p, Collector.Resolve(upsert));
    hide Next, Enabled, Tallied, Caching, Resolved, NextKey, LaneOf;
  }

  lemma {:induction false} LeadsOn(p: Pipe, actions: seq<Action>, q: Pipe, a: Action)
    requires Leads(p, actions, q) && KeysLeft(q.pc) && Enabled(q, a)
    ensures Leads(p, actions + [a], Next(q, a))
    decreases |actions|
  {
    if actions == [] {
      assert ([] + [a])[1..] == [];
    } else {
      LeadsOn(Next(p, actions[0]), actions[1..], q, a);
      assert (actions + [a])[1..] == actions[1..] + [a];
    }
  }

  /** Between ticks, every byte the kernel has counted is still in its map, or
      waits in the accumulator, or is in the store, or is in one of the four
      losses: orphaned, raced, unattributed, or failed to be written. */
  lemma ThreadAccounts(d: DrainThread, lane: Lane)
    requires d.AtRest()
    ensures Posted(d.pipe.journal, KernelCounted, lane)
         == Sum(d.traffic, InLane(lane)) + Sum(d.acc, RowInLane(lane)) + Sum(d.pipe.stored, RowInLane(lane))
            + Posted(d.pipe.journal, Orphaned, lane) + Posted(d.pipe.journal, Raced, lane)
            + Posted(d.pipe.journal, Unresolved, lane) + Sum(d.pipe.unstored, RowInLane(lane))
  {
    EveryByteAccounted(d.began, d.history, d.pipe, lane);
    hide Leads, Posted;
    SumEmpty<Flow, Bytes>(FlowInLane(lane));
  }

  /** And per identity, what was published is in the accumulator or went to the store. */
  lemma ThreadFeedMatchesStore(d: DrainThread, flow: Flow, dir: Direction)
    requires d.AtRest()
    ensures DeltaSum(d.pipe.published, flow, dir)
         == Sum(d.acc, RowOfFlow(flow, dir)) + Sum(d.pipe.stored, RowOfFlow(flow, dir))
            + Sum(d.pipe.unstored, RowOfFlow(flow, dir))
  {
    FeedMatchesStore(d.began, d.history, d.pipe, flow, dir);
  }

  /** Told from the kernel's and the thread's actions: all that was sent, between
      ticks, is in the map, in the accumulator or in the store, or met one of the
      fates that keep it from there. */
  lemma ThreadTakesWhatIsSent(d: DrainThread, dir: Direction, scope: Scope)
    requires d.AtRest()
    ensures var s, aim, lane := Start(d.began), R.Across(dir, scope), Lane(dir, scope);
      R.Sent(d.history, aim, map[])
      == Sum(d.traffic, InLane(lane)) + Sum(d.acc, RowInLane(lane)) + Sum(d.pipe.stored, RowInLane(lane))
         + R.Tally(s, R.Untold, d.history, R.Met(R.Refused, aim))
         + R.Tally(s, R.Untold, d.history, R.Met(R.Stray, aim))
         + R.Tally(s, R.Untold, d.history, R.Met(R.Late, aim))
         + R.Tally(s, R.Untold, d.history, R.Met(R.Ownerless, aim))
         + Sum(d.pipe.unstored, RowInLane(lane))
  {
    ThreadAccounts(d, Lane(dir, scope));
    hide Posted, Sum;
    R.BooksAreTold(d.began, d.history, d.pipe, dir, scope);
  }

  /** And minute by minute, what was credited to a flow is in the thread's
      accumulator, or in the store, or failed to be written. */
  lemma ThreadCredits(d: DrainThread, minute: int, flow: Flow)
    requires d.AtRest()
    ensures var acc, stored, unstored := R.BytesAt(d.acc, minute, flow), R.BytesAt(d.pipe.stored, minute, flow),
                                         R.BytesAt(d.pipe.unstored, minute, flow);
      && R.Tally(Start(d.began), R.Untold, d.history, R.CreditedIn(minute, flow, Ingress))
         == acc.ingress + stored.ingress + unstored.ingress
      && R.Tally(Start(d.began), R.Untold, d.history, R.CreditedIn(minute, flow, Egress))
         == acc.egress + stored.egress + unstored.egress
  {
    R.CreditsAreKept(d.began, d.history, d.pipe, minute, flow);
  }
}
