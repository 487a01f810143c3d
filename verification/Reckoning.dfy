/** What became of every byte, told from a run's own actions: who looked up what,
    who was upserted for which process, and when. The protocol's books are then
    proved to say the same. */
module Reckoning {
  import opened Counters
  import opened MapSum
  import opened Collector

  /** Some of the counters: one of them, or those of a direction and scope. */
  datatype Aim = Counter(key: TrafficKey) | Across(dir: Direction, scope: Scope)

  predicate Hits(aim: Aim, key: TrafficKey) {
    match aim
    case Counter(one) => key == one
    case Across(dir, scope) => key.dir == dir && key.scope == scope
  }

  /** What the kernel set out to add, by what each of its CPUs last looked up. */
  function Sent(actions: seq<Action>, aim: Aim, looked: map<int, TrafficKey>): nat {
    if actions == [] then 0
    else
      match actions[0]
      case KernelLookup(cpu, key) => Sent(actions[1..], aim, looked[cpu := key])
      case KernelAdd(cpu, bytes, _) =>
        (if cpu in looked && Hits(aim, looked[cpu]) then bytes else 0) + Sent(actions[1..], aim, looked)
      case _ => Sent(actions[1..], aim, looked)
  }

  /** Kept: added to a counter in the map. Refused: no counter was found, there is
      still none, and the map is full. Stray: added to a counter already removed.
      Late: added to a counter after it was read, and removed with it. Ownerless:
      read for a process nobody could identify. Credited: read for one somebody did. */
  datatype Fate = Kept | Refused | Stray | Late | Ownerless | Credited(bucket: int, identity: int)

  datatype Fact = Silent | Fact(key: TrafficKey, bytes: nat, fate: Fate)

  /** What has to be remembered of the actions so far. */
  datatype Story = Story(
    // Each CPU's last lookup, whether it found a counter, and whether that has been removed since.
    looked: map<int, TrafficKey>,
    found: set<int>,
    gone: set<int>,
    // Whom each process was first found to be, since it last died.
    owners: map<int, int>,
    // What was added to the counter being drained since it was read.
    late: nat,
    // The minute the drain credits.
    minute: int)

  const Untold := Story(map[], {}, {}, map[], 0, 0)

  function FactOfAdd(p: Pipe, s: Story, cpu: int, bytes: nat, room: bool): Fact {
    if cpu !in s.looked then Silent
    else if cpu in s.found && cpu in s.gone then Fact(s.looked[cpu], bytes, Stray)
    else if cpu !in s.found && s.looked[cpu] !in p.traffic && !room then Fact(s.looked[cpu], bytes, Refused)
    else Fact(s.looked[cpu], bytes, Kept)
  }

  function FactOfResolve(s: Story, key: TrafficKey, bytes: nat, identity: Option<int>): Fact {
    if key.tgid in s.owners then Fact(key, bytes, Credited(s.minute, s.owners[key.tgid]))
    else if identity.Some? then Fact(key, bytes, Credited(s.minute, identity.value))
    else Fact(key, bytes, Ownerless)
  }

  /** What one action makes of the bytes it moves. */
  function FactOf(p: Pipe, s: Story, a: Action): Fact
    requires Enabled(p, a) && KeysLeft(p.pc)
  {
    match a
    case KernelAdd(cpu, bytes, room) => FactOfAdd(p, s, cpu, bytes, room)
    case Remove(removed) => if removed then Fact(p.pc.keys[0], s.late, Late) else Silent
    case Resolve(identity) => FactOfResolve(s, p.pc.keys[0], p.pc.read, identity)
    case _ => Silent
  }

  function Owning(owners: map<int, int>, tgid: int, identity: Option<int>): map<int, int> {
    if tgid !in owners && identity.Some? then owners[tgid := identity.value] else owners
  }

  function ToldLookup(p: Pipe, s: Story, cpu: int, key: TrafficKey): Story {
    s.(looked := s.looked[cpu := key], gone := s.gone - {cpu},
       found := if key in p.traffic then s.found + {cpu} else s.found - {cpu})
  }

  function ToldAdd(p: Pipe, s: Story, cpu: int, bytes: nat, room: bool): Story
    requires KeysLeft(p.pc)
  {
    if p.pc.Got? && FactOfAdd(p, s, cpu, bytes, room) == Fact(p.pc.keys[0], bytes, Kept)
    then s.(late := s.late + bytes) else s
  }

  function ToldRemove(s: Story, key: TrafficKey, removed: bool): Story {
    if removed then s.(gone := s.gone + set cpu | cpu in s.looked && s.looked[cpu] == key) else s
  }

  /** The story one action on. */
  function Told(p: Pipe, s: Story, a: Action): Story
    requires Enabled(p, a) && KeysLeft(p.pc)
  {
    match a
    case KernelLookup(cpu, key) => ToldLookup(p, s, cpu, key)
    case KernelAdd(cpu, bytes, room) => ToldAdd(p, s, cpu, bytes, room)
    case Enrich(tgid, identity) => s.(owners := Owning(s.owners, tgid, identity))
    case BeginDrain(now, _) => s.(minute := now - now % 60)
    case Get(_) => s.(late := 0)
    case Remove(removed) => ToldRemove(s, p.pc.keys[0], removed)
    case Resolve(identity) => s.(owners := Owning(s.owners, p.pc.keys[0].tgid, identity))
    case EndTick(dead) => s.(owners := s.owners - dead)
    case _ => s
  }

  /** What is asked of a story: the bytes that met a fate, or were credited, to
      anybody or in one direction to one flow, in all minutes or in one. */
  datatype Question =
    | Met(fate: Fate, aim: Aim)
    | Owned(aim: Aim)
    | CreditedTo(flow: Flow, dir: Direction)
    | CreditedIn(minute: int, flow: Flow, dir: Direction)

  predicate Concerns(q: Question, f: Fact)
    requires f.Fact?
  {
    match q
    case Met(fate, aim) => f.fate == fate && Hits(aim, f.key)
    case Owned(aim) => f.fate.Credited? && Hits(aim, f.key)
    case CreditedTo(flow, dir) =>
      f.fate.Credited? && f.fate.identity == flow.identity && f.key.scope == flow.scope && f.key.dir == dir
    case CreditedIn(minute, flow, dir) =>
      f.fate == Credited(minute, flow.identity) && f.key.scope == flow.scope && f.key.dir == dir
  }

  function Part(q: Question, f: Fact): nat {
    if f.Fact? && Concerns(q, f) then f.bytes else 0
  }

  /** The answer, over a run. */
  function Tally(p: Pipe, s: Story, actions: seq<Action>, q: Question): nat
    decreases |actions|
  {
    if actions == [] || !KeysLeft(p.pc) || !Enabled(p, actions[0]) then 0
    else
      Part(q, FactOf(p, s, actions[0]))
      + Tally(Next(p, actions[0]), Told(p, s, actions[0]), actions[1..], q)
  }

  // ---- The story fits the protocol's state

  predicate SlotFits(h: Held, s: Story, cpu: int) {
    && cpu in s.looked && h.key == s.looked[cpu] && (h.Found? <==> cpu in s.found)
    && (h.Found? ==> (h.attached <==> cpu !in s.gone))
  }

  predicate Polling(pc: Pc) {
    pc.Draining? || pc.Got? || pc.Removed? || pc.Folding?
  }

  predicate SlotsFit(p: Pipe, s: Story) {
    && (forall cpu :: cpu in p.held ==> SlotFits(p.held[cpu], s, cpu))
    && (forall cpu :: cpu in p.held && p.held[cpu].Found? && p.held[cpu].attached ==> p.held[cpu].key in p.traffic)
  }

  predicate ReadFits(p: Pipe, s: Story)
    requires KeysLeft(p.pc)
  {
    p.pc.Got? ==> p.pc.keys[0] in p.traffic && p.traffic[p.pc.keys[0]] == p.pc.read + s.late
  }

  predicate Fits(p: Pipe, s: Story) {
    && KeysLeft(p.pc)
    && SlotsFit(p, s)
    && ReadFits(p, s)
    && s.owners == p.cache
    && (Polling(p.pc) ==> s.minute == p.pc.bucket)
  }

  lemma LookupFits(p: Pipe, s: Story, cpu: int, key: TrafficKey)
    requires Fits(p, s)
    ensures Fits(p.(held := p.held[cpu := LookedUp(p.traffic, key)]), ToldLookup(p, s, cpu, key))
  {
    hide Polling;
  }

  lemma AddFits(p: Pipe, s: Story, cpu: int, bytes: nat, room: bool)
    requires Fits(p, s) && cpu in p.held
    ensures Fits(Added(p.(held := p.held - {cpu}), p.held[cpu], bytes, room), ToldAdd(p, s, cpu, bytes, room))
  {
    var q := Added(p.(held := p.held - {cpu}), p.held[cpu], bytes, room);
    var t := ToldAdd(p, s, cpu, bytes, room);
    AddedEffect(p.(held := p.held - {cpu}), p.held[cpu], bytes, room);
    assert SlotFits(p.held[cpu], s, cpu);
    assert ReadFits(q, t) by { hide SlotsFit, Polling, LaneOf; }
    hide Added, ToldAdd, ReadFits;
    assert t == s.(late := t.late);
  }

  lemma GetFits(p: Pipe, s: Story, readable: bool)
    requires Fits(p, s) && p.pc.Draining? && p.pc.keys != []
    ensures Fits(AfterGet(p, readable), s.(late := 0))
  {
  }

  lemma RemoveFits(p: Pipe, s: Story, removed: bool)
    requires Fits(p, s) && p.pc.Got?
    ensures Fits(AfterRemove(p, removed), ToldRemove(s, p.pc.keys[0], removed))
  {
  }

  lemma ResolveFits(p: Pipe, s: Story, identity: Option<int>)
    requires Fits(p, s) && p.pc.Removed?
    ensures Fits(AfterResolve(p, identity), s.(owners := Owning(s.owners, p.pc.keys[0].tgid, identity)))
  {
    hide Tallied, LaneOf;
  }

  /** `FactOf` and `Told`, action by action. */
  lemma FactsOf(p: Pipe, s: Story, a: Action)
    requires Enabled(p, a) && KeysLeft(p.pc)
    ensures a.KernelAdd? ==> FactOf(p, s, a) == FactOfAdd(p, s, a.cpu, a.bytes, a.room)
    ensures a.Remove? ==> FactOf(p, s, a) == if a.removed then Fact(p.pc.keys[0], s.late, Late) else Silent
    ensures a.Resolve? ==> FactOf(p, s, a) == FactOfResolve(s, p.pc.keys[0], p.pc.read, a.identity)
    ensures !a.KernelAdd? && !a.Remove? && !a.Resolve? ==> FactOf(p, s, a) == Silent
  {
    hide FactOfAdd, FactOfResolve, Lists, CurrentMinute;
  }

  lemma ToldOf(p: Pipe, s: Story, a: Action)
    requires Enabled(p, a) && KeysLeft(p.pc)
    ensures a.KernelAdd? ==> Told(p, s, a) == ToldAdd(p, s, a.cpu, a.bytes, a.room)
    ensures a.Get? ==> Told(p, s, a) == s.(late := 0)
    ensures a.Remove? ==> Told(p, s, a) == ToldRemove(s, p.pc.keys[0], a.removed)
    ensures a.Resolve? ==> Told(p, s, a) == s.(owners := Owning(s.owners, p.pc.keys[0].tgid, a.identity))
    ensures a.Fold? || a.Flush? ==> Told(p, s, a) == s
  {
    hide ToldAdd, ToldLookup, ToldRemove, Owning, Lists, CurrentMinute;
  }

  lemma FoldFits(p: Pipe, s: Story)
    requires Fits(p, s) && p.pc.Folding? && p.pc.flows != [] && p.pc.flows[0] in p.polled
    ensures Fits(AfterFold(p), s)
  {
    hide Accumulate;
  }

  lemma FlushFits(p: Pipe, s: Story, written: bool)
    requires Fits(p, s) && p.pc.Flushing? && p.pc.closed != [] && p.pc.closed[0] in p.acc
    ensures Fits(AfterFlush(p, written), s)
  {
    hide Accumulate;
  }

  lemma StepFits(p: Pipe, s: Story, a: Action)
    requires Fits(p, s) && Enabled(p, a)
    ensures Fits(Next(p, a), Told(p, s, a))
  {
    NextOf(p, a);
    ToldOf(p, s, a);
    if a.KernelAdd? {
      AddFits(p, s, a.cpu, a.bytes, a.room);
      hide *;
    } else if a.Get? {
      GetFits(p, s, a.readable);
      hide *;
    } else if a.Remove? {
      RemoveFits(p, s, a.removed);
      hide *;
    } else if a.Resolve? {
      ResolveFits(p, s, a.identity);
      hide *;
    } else if a.Fold? {
      FoldFits(p, s);
      hide *;
    } else if a.Flush? {
      FlushFits(p, s, a.written);
      hide *;
    } else {
      hide *;
      LightFits(p, s, a);
    }
  }

  predicate Heavy(a: Action) {
    a.KernelAdd? || a.Get? || a.Remove? || a.Resolve? || a.Fold? || a.Flush?
  }

  lemma LightFits(p: Pipe, s: Story, a: Action)
    requires Fits(p, s) && Enabled(p, a) && !Heavy(a)
    ensures Fits(Next(p, a), Told(p, s, a))
  {
    if a.KernelLookup? {
      LookupFits(p, s, a.cpu, a.key);
      hide Fits;
    } else {
      hide SlotFits, Lists, Tallied, Accumulate, LookedUp;
    }
  }

  // ---- Counter by counter

  /** What a counter holds, in the map or just taken from it. */
  function Holding(p: Pipe, key: TrafficKey): nat {
    (if key in p.traffic then p.traffic[key] else 0)
    + if p.pc.Removed? && p.pc.keys != [] && p.pc.keys[0] == key then p.pc.read else 0
  }

  /** What leaves the counters with a fact. */
  function Leaves(f: Fact, aim: Aim): nat {
    Part(Met(Refused, aim), f) + Part(Met(Stray, aim), f) + Part(Met(Late, aim), f) + Part(Met(Ownerless, aim), f)
    + Part(Owned(aim), f)
  }

  function SentNow(a: Action, aim: Aim, looked: map<int, TrafficKey>): nat {
    if a.KernelAdd? && a.cpu in looked && Hits(aim, looked[a.cpu]) then a.bytes else 0
  }

  /** An addition by its fate. */
  lemma AddedByFate(p: Pipe, s: Story, cpu: int, bytes: nat, room: bool)
    requires Fits(p, s) && cpu in p.held
    ensures cpu in s.looked
    ensures var q, f := Added(p.(held := p.held - {cpu}), p.held[cpu], bytes, room), FactOfAdd(p, s, cpu, bytes, room);
            var counted := p.journal + [Posting(KernelCounted, LaneOf(s.looked[cpu]), bytes)];
      && f.Fact? && f.key == s.looked[cpu] && f.bytes == bytes
      && (f.fate.Kept? || f.fate.Stray? || f.fate.Refused?)
      && q.pc == p.pc
      && q.traffic == (if f.fate.Kept? then Counted(p.traffic, s.looked[cpu], bytes) else p.traffic)
      && q.journal
         == if f.fate.Kept? then counted
            else if f.fate.Stray? then counted + [Posting(Orphaned, LaneOf(s.looked[cpu]), bytes)]
            else p.journal
  {
    assert SlotFits(p.held[cpu], s, cpu);
    assert p.held[cpu].Found? && p.held[cpu].attached ==> p.held[cpu].key in p.traffic;
    hide Fits, SlotsFit, LaneOf, Counted;
  }

  lemma AddHolds(p: Pipe, s: Story, cpu: int, bytes: nat, room: bool, key: TrafficKey)
    requires Fits(p, s) && cpu in p.held
    ensures Holding(Added(p.(held := p.held - {cpu}), p.held[cpu], bytes, room), key)
            + Leaves(FactOfAdd(p, s, cpu, bytes, room), Counter(key))
         == Holding(p, key) + if s.looked[cpu] == key then bytes else 0
  {
    AddedByFate(p, s, cpu, bytes, room);
    hide Fits, SlotsFit, LaneOf, Added, FactOfAdd;
  }

  lemma RemoveHolds(p: Pipe, s: Story, removed: bool, key: TrafficKey)
    requires Fits(p, s) && p.pc.Got?
    ensures Holding(AfterRemove(p, removed), key)
            + Leaves(if removed then Fact(p.pc.keys[0], s.late, Late) else Silent, Counter(key))
         == Holding(p, key)
  {
    hide SlotsFit, LaneOf, Detached;
  }

  lemma ResolveHolds(p: Pipe, s: Story, identity: Option<int>, key: TrafficKey)
    requires Fits(p, s) && p.pc.Removed?
    ensures Holding(AfterResolve(p, identity), key)
            + Leaves(FactOfResolve(s, p.pc.keys[0], p.pc.read, identity), Counter(key))
         == Holding(p, key)
  {
    AfterResolveFrame(p, identity);
    hide SlotsFit, AfterResolve;
  }

  lemma LookedSame(p: Pipe, s: Story, a: Action, aim: Aim)
    requires Fits(p, s) && Enabled(p, a)
    ensures a.KernelAdd? ==>
      && a.cpu in p.held && a.cpu in s.looked
      && SentNow(a, aim, s.looked) == if Hits(aim, s.looked[a.cpu]) then a.bytes else 0
    ensures !a.KernelAdd? ==> SentNow(a, aim, s.looked) == 0
  {
    if a.KernelAdd? {
      assert SlotFits(p.held[a.cpu], s, a.cpu);
    }
    hide Fits, Lists, Hits;
  }

  lemma QuietHolds(p: Pipe, a: Action, key: TrafficKey)
    requires KeysLeft(p.pc) && Enabled(p, a) && !a.KernelAdd? && !a.Remove? && !a.Resolve?
    ensures Holding(Next(p, a), key) == Holding(p, key)
  {
    if Control(a) {
      ControlEffect(p, a);
      ControlPhase(p, a);
      hide Next, Enabled;
    } else {
      NextOf(p, a);
      hide Accumulate;
    }
  }

  lemma StepHolds(p: Pipe, s: Story, a: Action, key: TrafficKey)
    requires Fits(p, s) && Enabled(p, a)
    ensures Holding(Next(p, a), key) + Leaves(FactOf(p, s, a), Counter(key))
         == Holding(p, key) + SentNow(a, Counter(key), s.looked)
  {
    NextOf(p, a);
    FactsOf(p, s, a);
    LookedSame(p, s, a, Counter(key));
    if a.KernelAdd? {
      AddHolds(p, s, a.cpu, a.bytes, a.room, key);
      assert Hits(Counter(key), s.looked[a.cpu]) <==> key == s.looked[a.cpu];
      hide *;
    } else if a.Remove? {
      RemoveHolds(p, s, a.removed, key);
      hide *;
    } else if a.Resolve? {
      ResolveHolds(p, s, a.identity, key);
      hide *;
    } else {
      QuietHolds(p, a, key);
      hide Fits, Next, Enabled, Holding;
    }
  }

  // ---- Account by account

  /** What the books have under an account, in one direction and scope. */
  function Booked(p: Pipe, account: Account, aim: Aim): nat
    requires aim.Across?
  {
    Posted(p.journal, account, Lane(aim.dir, aim.scope))
  }

  /** The books have moved by just this fact. */
  predicate BookedBy(p: Pipe, q: Pipe, f: Fact, sent: nat, aim: Aim)
    requires aim.Across?
  {
    && Booked(q, KernelCounted, aim) + Part(Met(Refused, aim), f) == Booked(p, KernelCounted, aim) + sent
    && Booked(q, Orphaned, aim) == Booked(p, Orphaned, aim) + Part(Met(Stray, aim), f)
    && Booked(q, Raced, aim) == Booked(p, Raced, aim) + Part(Met(Late, aim), f)
    && Booked(q, Unresolved, aim) == Booked(p, Unresolved, aim) + Part(Met(Ownerless, aim), f)
  }

  lemma HitsAcross(key: TrafficKey, aim: Aim)
    requires aim.Across?
    ensures Hits(aim, key) <==> LaneOf(key) == Lane(aim.dir, aim.scope)
  {
  }

  lemma PartMet(f: Fact, aim: Aim)
    ensures forall fate ::
      Part(Met(fate, aim), f) == if f.Fact? && f.fate == fate && Hits(aim, f.key) then f.bytes else 0
  {
  }

  lemma AddBooked(p: Pipe, s: Story, cpu: int, bytes: nat, room: bool, aim: Aim)
    requires Fits(p, s) && cpu in p.held && cpu in s.looked && aim.Across?
    ensures BookedBy(p, Added(p.(held := p.held - {cpu}), p.held[cpu], bytes, room),
                     FactOfAdd(p, s, cpu, bytes, room), if Hits(aim, s.looked[cpu]) then bytes else 0, aim)
  {
    AddedByFate(p, s, cpu, bytes, room);
    HitsAcross(s.looked[cpu], aim);
    var counted := Posting(KernelCounted, LaneOf(s.looked[cpu]), bytes);
    PartMet(FactOfAdd(p, s, cpu, bytes, room), aim);
    PostingStep(p.journal, counted);
    PostingStep(p.journal + [counted], Posting(Orphaned, LaneOf(s.looked[cpu]), bytes));
    hide Fits, Added, FactOfAdd, Posted, LaneOf, Counted, Hits, Part;
  }

  lemma RemoveBooked(p: Pipe, s: Story, removed: bool, aim: Aim)
    requires Fits(p, s) && p.pc.Got? && aim.Across?
    ensures BookedBy(p, AfterRemove(p, removed), if removed then Fact(p.pc.keys[0], s.late, Late) else Silent, 0, aim)
  {
    HitsAcross(p.pc.keys[0], aim);
    PartMet(if removed then Fact(p.pc.keys[0], s.late, Late) else Silent, aim);
    PostingStep(p.journal, Posting(Raced, LaneOf(p.pc.keys[0]), s.late));
    hide SlotsFit, Detached, Posted, LaneOf, Hits, Part;
  }

  /** A resolved read by its fate. */
  lemma ResolvedByFate(p: Pipe, s: Story, identity: Option<int>)
    requires Fits(p, s) && p.pc.Removed?
    ensures var q, key, f := AfterResolve(p, identity), p.pc.keys[0],
                             FactOfResolve(s, p.pc.keys[0], p.pc.read, identity);
      && f.Fact? && f.key == key && f.bytes == p.pc.read
      && (f.fate.Ownerless? || (f.fate.Credited? && f.fate.bucket == p.pc.bucket))
      && q.polled
         == (if f.fate.Credited? then Tallied(p.polled, Flow(f.fate.identity, key.scope), key.dir, p.pc.read)
             else p.polled)
      && q.journal
         == if f.fate.Credited? then p.journal else p.journal + [Posting(Unresolved, LaneOf(key), p.pc.read)]
  {
    hide SlotsFit, Caching, LaneOf, Tallied, NextKey;
  }

  lemma ReadBooked(p: Pipe, q: Pipe, f: Fact, aim: Aim)
    requires aim.Across? && f.Fact? && (f.fate.Ownerless? || f.fate.Credited?)
    requires q.journal
          == if f.fate.Credited? then p.journal else p.journal + [Posting(Unresolved, LaneOf(f.key), f.bytes)]
    ensures BookedBy(p, q, f, 0, aim)
  {
    HitsAcross(f.key, aim);
    PartMet(f, aim);
    PostingStep(p.journal, Posting(Unresolved, LaneOf(f.key), f.bytes));
    hide Posted, LaneOf, Hits, Part;
  }

  lemma ResolveBooked(p: Pipe, s: Story, identity: Option<int>, aim: Aim)
    requires Fits(p, s) && p.pc.Removed? && aim.Across?
    ensures BookedBy(p, AfterResolve(p, identity), FactOfResolve(s, p.pc.keys[0], p.pc.read, identity), 0, aim)
  {
    ResolvedByFate(p, s, identity);
    hide *;
    ReadBooked(p, AfterResolve(p, identity), FactOfResolve(s, p.pc.keys[0], p.pc.read, identity), aim);
  }

  lemma QuietBooked(p: Pipe, a: Action)
    requires KeysLeft(p.pc) && Enabled(p, a) && !a.KernelAdd? && !a.Remove? && !a.Resolve?
    ensures Next(p, a).journal == p.journal
  {
    if Control(a) {
      ControlEffect(p, a);
      hide Next, Enabled;
    } else {
      NextOf(p, a);
      hide Accumulate;
    }
  }

  lemma StepBooked(p: Pipe, s: Story, a: Action, aim: Aim)
    requires Fits(p, s) && Enabled(p, a) && aim.Across?
    ensures BookedBy(p, Next(p, a), FactOf(p, s, a), SentNow(a, aim, s.looked), aim)
  {
    NextOf(p, a);
    FactsOf(p, s, a);
    LookedSame(p, s, a, aim);
    if a.KernelAdd? {
      AddBooked(p, s, a.cpu, a.bytes, a.room, aim);
      hide *;
    } else if a.Remove? {
      RemoveBooked(p, s, a.removed, aim);
      hide *;
    } else if a.Resolve? {
      ResolveBooked(p, s, a.identity, aim);
      hide *;
    } else {
      QuietBooked(p, a);
      hide Fits, Next, Enabled;
    }
  }

  // ---- Credit by credit

  function Polled(p: Pipe, flow: Flow): Bytes {
    if flow in p.polled then p.polled[flow] else Bytes(0, 0)
  }

  function BytesAt(t: Table, minute: int, flow: Flow): Bytes {
    if Key(minute, flow) in t then t[Key(minute, flow)] else Bytes(0, 0)
  }

  /** What is credited to a flow, in one direction, over all minutes. */
  ghost function Credit(p: Pipe, flow: Flow, dir: Direction): int {
    Of(Polled(p, flow), dir) + Collector.Recorded(p, flow, dir)
  }

  function PolledIn(p: Pipe, minute: int, flow: Flow): Bytes {
    if Polling(p.pc) && p.pc.bucket == minute then Polled(p, flow) else Bytes(0, 0)
  }

  /** And in one minute. */
  function CreditIn(p: Pipe, minute: int, flow: Flow, dir: Direction): nat {
    Of(PolledIn(p, minute, flow), dir) + Of(BytesAt(p.acc, minute, flow), dir)
    + Of(BytesAt(p.stored, minute, flow), dir) + Of(BytesAt(p.unstored, minute, flow), dir)
  }

  ghost predicate CreditedBy(p: Pipe, q: Pipe, f: Fact, flow: Flow, dir: Direction, minute: int) {
    && Credit(q, flow, dir) == Credit(p, flow, dir) + Part(CreditedTo(flow, dir), f)
    && CreditIn(q, minute, flow, dir) == CreditIn(p, minute, flow, dir) + Part(CreditedIn(minute, flow, dir), f)
  }

  /** What a resolved read adds to the poll. */
  lemma ResolvePolls(p: Pipe, s: Story, identity: Option<int>, flow: Flow, dir: Direction)
    requires Fits(p, s) && p.pc.Removed?
    ensures var f := FactOfResolve(s, p.pc.keys[0], p.pc.read, identity);
      && Of(Polled(AfterResolve(p, identity), flow), dir) == Of(Polled(p, flow), dir) + Part(CreditedTo(flow, dir), f)
      && (f.Fact? && f.fate.Credited? ==> f.fate.bucket == p.pc.bucket)
  {
    ResolvedByFate(p, s, identity);
    hide Fits, AfterResolve, FactOfResolve, LaneOf;
  }

  /** Where only the poll changes, it tells. */
  lemma PollCredits(p: Pipe, q: Pipe, f: Fact, flow: Flow, dir: Direction, minute: int)
    requires q.acc == p.acc && q.stored == p.stored && q.unstored == p.unstored
    requires Of(Polled(q, flow), dir) == Of(Polled(p, flow), dir) + Part(CreditedTo(flow, dir), f)
    requires Polling(p.pc) && Polling(q.pc) && q.pc.bucket == p.pc.bucket
    requires f.Fact? && f.fate.Credited? ==> f.fate.bucket == p.pc.bucket
    ensures CreditedBy(p, q, f, flow, dir, minute)
  {
    hide Polled, BytesAt, Of;
  }

  lemma ResolveCredits(p: Pipe, s: Story, identity: Option<int>, flow: Flow, dir: Direction, minute: int)
    requires Fits(p, s) && p.pc.Removed?
    ensures CreditedBy(p, AfterResolve(p, identity), FactOfResolve(s, p.pc.keys[0], p.pc.read, identity), flow, dir,
                       minute)
  {
    AfterResolveFrame(p, identity);
    ResolvePolls(p, s, identity, flow, dir);
    hide AfterResolve, FactOfResolve, Fits, CreditedBy, Polled, Part, Of;
    PollCredits(p, AfterResolve(p, identity), FactOfResolve(s, p.pc.keys[0], p.pc.read, identity), flow, dir, minute);
  }

  lemma FoldCredits(p: Pipe, flow: Flow, dir: Direction)
    requires p.pc.Folding? && p.pc.flows != [] && p.pc.flows[0] in p.polled
    ensures Credit(AfterFold(p), flow, dir) == Credit(p, flow, dir)
  {
    AddingRows(p.acc, Key(p.pc.bucket, p.pc.flows[0]), p.polled[p.pc.flows[0]]);
    hide Accumulate, Sum;
  }

  lemma FoldCreditsIn(p: Pipe, flow: Flow, dir: Direction, minute: int)
    requires p.pc.Folding? && p.pc.flows != [] && p.pc.flows[0] in p.polled
    ensures CreditIn(AfterFold(p), minute, flow, dir) == CreditIn(p, minute, flow, dir)
  {
  }

  lemma FlushCredits(p: Pipe, written: bool, flow: Flow, dir: Direction)
    requires p.pc.Flushing? && p.pc.closed != [] && p.pc.closed[0] in p.acc
    ensures Credit(AfterFlush(p, written), flow, dir) == Credit(p, flow, dir)
  {
    RemovingRow(p.acc, p.pc.closed[0]);
    AddingRows(p.stored, p.pc.closed[0], p.acc[p.pc.closed[0]]);
    AddingRows(p.unstored, p.pc.closed[0], p.acc[p.pc.closed[0]]);
    hide Accumulate, Sum;
  }

  lemma FlushCreditsIn(p: Pipe, written: bool, flow: Flow, dir: Direction, minute: int)
    requires p.pc.Flushing? && p.pc.closed != [] && p.pc.closed[0] in p.acc
    ensures CreditIn(AfterFlush(p, written), minute, flow, dir) == CreditIn(p, minute, flow, dir)
  {
  }

  /** What moves no credit: the poll is empty wherever its minute changes. */
  predicate SameCredit(p: Pipe, q: Pipe) {
    && q.polled == p.polled && q.acc == p.acc && q.stored == p.stored && q.unstored == p.unstored
    && (p.polled == map[]
        || (Polling(p.pc) && Polling(q.pc) && q.pc.bucket == p.pc.bucket)
        || (!Polling(p.pc) && !Polling(q.pc)))
  }

  lemma SameCredits(p: Pipe, q: Pipe, f: Fact, flow: Flow, dir: Direction, minute: int)
    requires SameCredit(p, q) && !(f.Fact? && f.fate.Credited?)
    ensures CreditedBy(p, q, f, flow, dir, minute)
  {
    hide BytesAt, Of, Sum;
  }

  lemma AddCredit(p: Pipe, cpu: int, bytes: nat, room: bool)
    requires cpu in p.held
    ensures SameCredit(p, Added(p.(held := p.held - {cpu}), p.held[cpu], bytes, room))
  {
    AddedEffect(p.(held := p.held - {cpu}), p.held[cpu], bytes, room);
    hide Added;
  }

  lemma RemoveCredit(p: Pipe, removed: bool)
    requires p.pc.Got? && p.pc.keys != []
    ensures SameCredit(p, AfterRemove(p, removed))
  {
    hide Detached, LaneOf;
  }

  lemma NothingListed<T>(order: seq<T>, all: set<T>)
    requires Lists(order, all) && order == []
    ensures all == {}
  {
    assert forall x :: x in all ==> x in order;
  }

  /** Between polls the poll is empty. */
  lemma PolledEmpty(p: Pipe)
    requires Shaped(p)
    ensures KeysLeft(p.pc) && (!Polling(p.pc) || (p.pc.Folding? && p.pc.flows == []) ==> p.polled == map[])
  {
    if p.pc.Folding? && p.pc.flows == [] {
      NothingListed(p.pc.flows, p.polled.Keys);
    }
    hide Lists, Minute, CurrentMinute;
  }

  lemma ControlStays(p: Pipe, a: Action)
    requires KeysLeft(p.pc) && Enabled(p, a) && Control(a)
    ensures var q := Next(p, a);
      !Polling(p.pc) || (Polling(q.pc) && q.pc.bucket == p.pc.bucket)
  {
    hide Lists, CurrentMinute, Caching, LookedUp;
    if a.Get? {
      NextOf(p, a);
      hide Next;
    }
  }

  lemma QuietCredit(p: Pipe, a: Action)
    requires Shaped(p) && Enabled(p, a) && (Control(a) || a.Publish?)
    ensures SameCredit(p, Next(p, a))
  {
    PolledEmpty(p);
    hide Shaped;
    if a.Publish? {
      assert p.pc.Folding? && p.pc.flows == [];
    } else {
      ControlEffect(p, a);
      ControlStays(p, a);
      hide Next, Enabled;
    }
  }

  lemma StepCredits(p: Pipe, s: Story, a: Action, flow: Flow, dir: Direction, minute: int)
    requires Shaped(p) && Fits(p, s) && Enabled(p, a)
    ensures CreditedBy(p, Next(p, a), FactOf(p, s, a), flow, dir, minute)
  {
    NextOf(p, a);
    FactsOf(p, s, a);
    if a.Resolve? {
      ResolveCredits(p, s, a.identity, flow, dir, minute);
      hide *;
    } else if a.Fold? {
      FoldCredits(p, flow, dir);
      FoldCreditsIn(p, flow, dir, minute);
      hide Next, AfterFold, Credit, CreditIn;
    } else if a.Flush? {
      FlushCredits(p, a.written, flow, dir);
      FlushCreditsIn(p, a.written, flow, dir, minute);
      hide Next, AfterFlush, Credit, CreditIn;
    } else {
      NotCredited(p, s, a);
      SameStep(p, a);
      hide *;
      SameCredits(p, Next(p, a), FactOf(p, s, a), flow, dir, minute);
    }
  }

  lemma NotCredited(p: Pipe, s: Story, a: Action)
    requires KeysLeft(p.pc) && Enabled(p, a) && !a.Resolve?
    ensures !(FactOf(p, s, a).Fact? && FactOf(p, s, a).fate.Credited?)
  {
    hide Lists, CurrentMinute;
  }

  lemma SameStep(p: Pipe, a: Action)
    requires Shaped(p) && KeysLeft(p.pc) && Enabled(p, a) && !a.Resolve? && !a.Fold? && !a.Flush?
    ensures SameCredit(p, Next(p, a))
  {
    NextOf(p, a);
    if a.KernelAdd? {
      AddCredit(p, a.cpu, a.bytes, a.room);
      hide Next, Added, SameCredit, Shaped;
    } else if a.Remove? {
      RemoveCredit(p, a.removed);
      hide Next, AfterRemove, SameCredit, Shaped;
    } else {
      hide *;
      QuietCredit(p, a);
    }
  }

  // ---- Every run

  /** A run's story ends fitting the state the run ends in, and every byte sent to
      a counter met one of the fates, or is held. */
  lemma {:induction false} RunHolds(p: Pipe, s: Story, actions: seq<Action>, q: Pipe, key: TrafficKey)
    requires Leads(p, actions, q) && Fits(p, s)
    ensures var aim := Counter(key);
      Sent(actions, aim, s.looked) + Holding(p, key)
      == Holding(q, key) + Tally(p, s, actions, Met(Refused, aim)) + Tally(p, s, actions, Met(Stray, aim))
         + Tally(p, s, actions, Met(Late, aim)) + Tally(p, s, actions, Met(Ownerless, aim))
         + Tally(p, s, actions, Owned(aim))
    decreases |actions|
  {
    if actions != [] {
      var a := actions[0];
      SentSplits(p, s, actions, Counter(key));
      StepHolds(p, s, a, key);
      StepFits(p, s, a);
      hide Next, Fits, Told, FactOf, Enabled, Holding, KeysLeft, Part, Sent, SentNow;
      RunHolds(Next(p, a), Told(p, s, a), actions[1..], q, key);
    }
  }

  lemma SentSplits(p: Pipe, s: Story, actions: seq<Action>, aim: Aim)
    requires actions != [] && KeysLeft(p.pc) && Enabled(p, actions[0])
    ensures Sent(actions, aim, s.looked)
         == SentNow(actions[0], aim, s.looked) + Sent(actions[1..], aim, Told(p, s, actions[0]).looked)
  {
    hide Lists, CurrentMinute, Hits, FactOfAdd, Owning;
  }

  lemma {:induction false} RunBooked(p: Pipe, s: Story, actions: seq<Action>, q: Pipe, aim: Aim)
    requires Leads(p, actions, q) && Fits(p, s) && aim.Across?
    ensures Booked(q, KernelCounted, aim) + Tally(p, s, actions, Met(Refused, aim))
         == Booked(p, KernelCounted, aim) + Sent(actions, aim, s.looked)
    ensures Booked(q, Orphaned, aim) == Booked(p, Orphaned, aim) + Tally(p, s, actions, Met(Stray, aim))
    ensures Booked(q, Raced, aim) == Booked(p, Raced, aim) + Tally(p, s, actions, Met(Late, aim))
    ensures Booked(q, Unresolved, aim) == Booked(p, Unresolved, aim) + Tally(p, s, actions, Met(Ownerless, aim))
    decreases |actions|
  {
    if actions != [] {
      var a := actions[0];
      SentSplits(p, s, actions, aim);
      StepBooked(p, s, a, aim);
      StepFits(p, s, a);
      hide Next, Fits, Told, FactOf, Enabled, Booked, KeysLeft, Part, Sent, SentNow;
      RunBooked(Next(p, a), Told(p, s, a), actions[1..], q, aim);
    }
  }

  lemma {:induction false} RunCredits(p: Pipe, s: Story, actions: seq<Action>, q: Pipe, flow: Flow, dir: Direction,
                                      minute: int)
    requires Leads(p, actions, q) && Shaped(p) && Balanced(p) && Fits(p, s)
    ensures Credit(q, flow, dir) == Credit(p, flow, dir) + Tally(p, s, actions, CreditedTo(flow, dir))
    ensures CreditIn(q, minute, flow, dir)
         == CreditIn(p, minute, flow, dir) + Tally(p, s, actions, CreditedIn(minute, flow, dir))
    decreases |actions|
  {
    if actions != [] {
      var a := actions[0];
      StepCredits(p, s, a, flow, dir, minute);
      StepFits(p, s, a);
      NextKeeps(p, a);
      hide Next, Fits, Told, FactOf, Enabled, Credit, CreditIn, KeysLeft, Part, Shaped, Balanced;
      RunCredits(Next(p, a), Told(p, s, a), actions[1..], q, flow, dir, minute);
    }
  }

  lemma StartFits(clock: int)
    ensures Fits(Start(clock), Untold)
  {
  }

  /** Counter by counter, whatever the interleaving: all that was sent to a counter
      is in it now or just taken from it, or was refused, stray, late, ownerless
      or credited, by what the run's own actions tell. */
  lemma SentIsAccounted(clock: int, actions: seq<Action>, q: Pipe, key: TrafficKey)
    requires Leads(Start(clock), actions, q)
    ensures var s, aim := Start(clock), Counter(key);
      Sent(actions, aim, map[])
      == (if key in q.traffic then q.traffic[key] else 0)
         + (if q.pc.Removed? && q.pc.keys != [] && q.pc.keys[0] == key then q.pc.read else 0)
         + Tally(s, Untold, actions, Met(Refused, aim)) + Tally(s, Untold, actions, Met(Stray, aim))
         + Tally(s, Untold, actions, Met(Late, aim)) + Tally(s, Untold, actions, Met(Ownerless, aim))
         + Tally(s, Untold, actions, Owned(aim))
  {
    StartFits(clock);
    RunHolds(Start(clock), Untold, actions, q, key);
    hide Sent, Tally, Leads, Fits;
  }

  /** The books are what the actions tell: all that was sent but refused, and each
      loss by its fate. */
  lemma BooksAreTold(clock: int, actions: seq<Action>, q: Pipe, dir: Direction, scope: Scope)
    requires Leads(Start(clock), actions, q)
    ensures var s, aim, lane := Start(clock), Across(dir, scope), Lane(dir, scope);
      && Posted(q.journal, KernelCounted, lane) + Tally(s, Untold, actions, Met(Refused, aim))
         == Sent(actions, aim, map[])
      && Posted(q.journal, Orphaned, lane) == Tally(s, Untold, actions, Met(Stray, aim))
      && Posted(q.journal, Raced, lane) == Tally(s, Untold, actions, Met(Late, aim))
      && Posted(q.journal, Unresolved, lane) == Tally(s, Untold, actions, Met(Ownerless, aim))
  {
    StartFits(clock);
    RunBooked(Start(clock), Untold, actions, q, Across(dir, scope));
    hide Sent, Tally, Leads, Fits;
  }

  lemma {:induction false} NoneRefused(p: Pipe, s: Story, actions: seq<Action>, aim: Aim)
    requires forall a :: a in actions && a.KernelAdd? ==> a.room
    ensures Tally(p, s, actions, Met(Refused, aim)) == 0
    decreases |actions|
  {
    if actions != [] && KeysLeft(p.pc) && Enabled(p, actions[0]) {
      FactsOf(p, s, actions[0]);
      NoneRefused(Next(p, actions[0]), Told(p, s, actions[0]), actions[1..], aim);
      hide Next, Told, FactOf, Enabled;
    }
  }

  lemma {:induction false} NoneOwnerless(p: Pipe, s: Story, actions: seq<Action>, aim: Aim)
    requires forall a :: a in actions && a.Resolve? ==> a.identity.Some?
    ensures Tally(p, s, actions, Met(Ownerless, aim)) == 0
    decreases |actions|
  {
    if actions != [] && KeysLeft(p.pc) && Enabled(p, actions[0]) {
      FactsOf(p, s, actions[0]);
      NoneOwnerless(Next(p, actions[0]), Told(p, s, actions[0]), actions[1..], aim);
      hide Next, Told, FactOf, Enabled;
    }
  }

  /** While the map has room, everything sent is counted. */
  lemma RoomCountsAll(clock: int, actions: seq<Action>, q: Pipe, dir: Direction, scope: Scope)
    requires Leads(Start(clock), actions, q)
    requires forall a :: a in actions && a.KernelAdd? ==> a.room
    ensures Posted(q.journal, KernelCounted, Lane(dir, scope)) == Sent(actions, Across(dir, scope), map[])
  {
    BooksAreTold(clock, actions, q, dir, scope);
    NoneRefused(Start(clock), Untold, actions, Across(dir, scope));
  }

  /** While every process that is asked for is identified, nothing goes unresolved. */
  lemma IdentifiedResolvesAll(clock: int, actions: seq<Action>, q: Pipe, dir: Direction, scope: Scope)
    requires Leads(Start(clock), actions, q)
    requires forall a :: a in actions && a.Resolve? ==> a.identity.Some?
    ensures Posted(q.journal, Unresolved, Lane(dir, scope)) == 0
  {
    BooksAreTold(clock, actions, q, dir, scope);
    NoneOwnerless(Start(clock), Untold, actions, Across(dir, scope));
  }

  lemma StartCredits(clock: int, flow: Flow, dir: Direction, minute: int)
    ensures Credit(Start(clock), flow, dir) == 0 && CreditIn(Start(clock), minute, flow, dir) == 0
  {
    SumEmpty<Key, Bytes>(RowOfFlow(flow, dir));
  }

  /** Minute by minute and flow by flow, in each direction: what the run's reads
      credited to an identity is in this minute's poll, in the accumulator, in the
      store, or failed to be written, under that minute and that identity. */
  lemma CreditsAreKept(clock: int, actions: seq<Action>, q: Pipe, minute: int, flow: Flow)
    requires Leads(Start(clock), actions, q)
    ensures var polled, acc := PolledIn(q, minute, flow), BytesAt(q.acc, minute, flow);
            var stored, unstored := BytesAt(q.stored, minute, flow), BytesAt(q.unstored, minute, flow);
      && Tally(Start(clock), Untold, actions, CreditedIn(minute, flow, Ingress))
         == polled.ingress + acc.ingress + stored.ingress + unstored.ingress
      && Tally(Start(clock), Untold, actions, CreditedIn(minute, flow, Egress))
         == polled.egress + acc.egress + stored.egress + unstored.egress
  {
    StartFits(clock);
    StartBalanced(clock);
    StartCredits(clock, flow, Ingress, minute);
    StartCredits(clock, flow, Egress, minute);
    RunCredits(Start(clock), Untold, actions, q, flow, Ingress, minute);
    RunCredits(Start(clock), Untold, actions, q, flow, Egress, minute);
    hide Tally, Leads, Fits, Shaped, Balanced, PolledIn, BytesAt;
  }

  /** Over all minutes. */
  lemma CreditsAreRecorded(clock: int, actions: seq<Action>, q: Pipe, flow: Flow, dir: Direction)
    requires Leads(Start(clock), actions, q)
    ensures Tally(Start(clock), Untold, actions, CreditedTo(flow, dir))
         == Of(Polled(q, flow), dir) + Sum(q.acc, RowOfFlow(flow, dir)) + Sum(q.stored, RowOfFlow(flow, dir))
            + Sum(q.unstored, RowOfFlow(flow, dir))
  {
    StartFits(clock);
    StartBalanced(clock);
    StartCredits(clock, flow, dir, 0);
    RunCredits(Start(clock), Untold, actions, q, flow, dir, 0);
    hide Tally, Leads, Fits, Shaped, Balanced, Sum, Polled;
  }

  /** And between polls, what was credited to a flow has been published. */
  lemma CreditsArePublished(clock: int, actions: seq<Action>, q: Pipe, flow: Flow, dir: Direction)
    requires Leads(Start(clock), actions, q) && (q.pc.Idle? || q.pc.Published? || q.pc.Flushing?)
    ensures Tally(Start(clock), Untold, actions, CreditedTo(flow, dir)) == DeltaSum(q.published, flow, dir)
  {
    StartBalanced(clock);
    RunKeeps(Start(clock), actions, q);
    CreditsAreRecorded(clock, actions, q, flow, dir);
    FeedMatchesStore(clock, actions, q, flow, dir);
    PolledEmpty(q);
    hide Tally, Leads, Shaped, Balanced, Sum, DeltaSum;
  }

  // ---- A drain that nothing disturbs

  /** A successful step of the drain loop. */
  predicate Undisturbed(a: Action) {
    (a.Get? && a.readable) || (a.Remove? && a.removed) || a.Resolve?
  }

  /** The counters a drain has still to take, but for the one in hand. */
  function Ahead(pc: Pc): seq<TrafficKey> {
    if pc.Draining? || pc.Got? then pc.keys else if pc.Removed? && pc.keys != [] then pc.keys[1..] else []
  }

  /** Where the map calls succeed, a drain leaves none of its counters in the map
      and the rest as they were. */
  lemma {:induction false} DrainEmpties(p: Pipe, actions: seq<Action>, q: Pipe)
    requires Leads(p, actions, q) && (forall a :: a in actions ==> Undisturbed(a))
    requires Taking(p) && q.pc.Draining? && q.pc.keys == []
    ensures q.traffic == Beside(p)
    decreases |actions|
  {
    if actions != [] {
      var a := actions[0];
      DrainStep(p, a);
      hide Next, Enabled, Taking, Beside;
      DrainEmpties(Next(p, a), actions[1..], q);
    }
  }

  /** What is in the map beside the counters a drain has still to take. */
  function Beside(p: Pipe): map<TrafficKey, nat> {
    p.traffic - (set key | key in Ahead(p.pc))
  }

  predicate Taking(p: Pipe) {
    && (p.pc.Draining? || p.pc.Got? || p.pc.Removed?)
    && KeysLeft(p.pc) && (p.pc.Got? ==> p.pc.keys[0] in p.traffic)
  }

  lemma GetDrains(p: Pipe)
    requires Taking(p) && p.pc.Draining? && p.pc.keys != []
    ensures Taking(AfterGet(p, true)) && Beside(AfterGet(p, true)) == Beside(p)
  {
    if p.pc.keys[0] !in p.traffic {
      AbsentHead(p.traffic, p.pc.keys);
    }
    var q := AfterGet(p, true);
    assert q.traffic == p.traffic;
    hide AfterGet;
  }

  lemma AbsentHead(traffic: map<TrafficKey, nat>, keys: seq<TrafficKey>)
    requires keys != [] && keys[0] !in traffic
    ensures traffic - (set key | key in keys) == traffic - (set key | key in keys[1..])
  {
    HeadAndTail(keys);
  }

  lemma RemoveDrains(p: Pipe)
    requires Taking(p) && p.pc.Got?
    ensures Taking(AfterRemove(p, true)) && Beside(AfterRemove(p, true)) == Beside(p)
  {
    HeadAndTail(p.pc.keys);
    hide Detached, LaneOf;
  }

  lemma ResolveDrains(p: Pipe, identity: Option<int>)
    requires Taking(p) && p.pc.Removed?
    ensures Taking(AfterResolve(p, identity)) && Beside(AfterResolve(p, identity)) == Beside(p)
  {
    AfterResolveFrame(p, identity);
    hide AfterResolve;
  }

  lemma DrainStep(p: Pipe, a: Action)
    requires Taking(p) && Enabled(p, a) && Undisturbed(a)
    ensures Taking(Next(p, a)) && Beside(Next(p, a)) == Beside(p)
  {
    NextOf(p, a);
    if a.Get? {
      GetDrains(p);
      hide *;
    } else if a.Remove? {
      RemoveDrains(p);
      hide *;
    } else {
      ResolveDrains(p, a.identity);
      hide *;
    }
  }

  lemma HeadAndTail(keys: seq<TrafficKey>)
    requires keys != []
    ensures (set key | key in keys) == {keys[0]} + (set key | key in keys[1..])
  {
    assert keys == [keys[0]] + keys[1..];
  }
}
