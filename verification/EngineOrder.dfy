// The order of one slot's agenda, stated of the engine: tasks and replayers of different
// participants may run in any order, and so under any assignment of priorities.

module EngineOrder {
  import opened VirtualTime
  import opened DataPlane
  import opened Activation
  import opened Schedule
  import opened ScheduleProofs
  import opened SlotProofs
  import opened Engine
  import opened EngineProofs
  import opened Sight
  import opened Moves
  import opened SlotOrder
  import opened Crowding

  // ----- A replayer's turn is an activation ------------------------------------------------------------

  /** The program that publishes these messages one after the other. */
  function Reciter(due: seq<Stored>): Program {
    (now: u64, memory: Memory, replies: seq<Reply>) =>
      if |replies| < |due| then CallPublish(due[|replies|].channel, due[|replies|].bytes) else CallReturn(memory)
  }

  ghost predicate SameResult(x: ReplayResult, y: Outcome, memory: Memory) {
    x.bus == y.bus && x.ok == y.Finished? && (y.Finished? ==> y.memory == memory)
  }

  /** One turn of the replayer's loop, and of the program. */
  lemma ReciteTurn(b: Bus, r: Replayer, now: u64, duration: u64, due: seq<Stored>, memory: Memory, replies: seq<Reply>)
    requires Rested(r, duration) && r.cursor < |r.stored| && r.stored[r.cursor].time == now
    requires |replies| < |due| && due[|replies|] == r.stored[r.cursor]
    ensures var m := r.stored[r.cursor];
      var (b', ok) := Publish(b, duration, now, m.channel, m.bytes);
      var who, next := Caller(r.owner, r.channels), Skip(r.(cursor := r.cursor + 1), duration);
      && PublishDue(b, r, now, duration)
         == (if ok then PublishDue(b', next, now, duration) else ReplayResult(b', r, false))
      && Activate(b, duration, now, who, Reciter(due), memory, replies, |due| - |replies|)
         == if ok then Activate(b', duration, now, who, Reciter(due), memory, replies + [Published],
                                |due| - |replies| - 1)
            else Failed(b')
  {
    hide Publish, Skip;
  }

  lemma ReciteEnds(b: Bus, r: Replayer, now: u64, duration: u64, due: seq<Stored>, memory: Memory, replies: seq<Reply>)
    requires r.cursor <= |r.stored| && |replies| == |due| && (r.cursor == |r.stored| || r.stored[r.cursor].time != now)
    ensures SameResult(PublishDue(b, r, now, duration),
      Activate(b, duration, now, Caller(r.owner, r.channels), Reciter(due), memory, replies, 0), memory)
  {
  }

  lemma {:induction false} ReplayRecites(b: Bus, r: Replayer, now: u64, duration: u64, due: seq<Stored>,
                                         memory: Memory, replies: seq<Reply>)
    requires Rested(r, duration) && |replies| <= |due| && DueRun(r, now, duration) == due[|replies|..]
    ensures SameResult(PublishDue(b, r, now, duration),
      Activate(b, duration, now, Caller(r.owner, r.channels), Reciter(due), memory, replies, |due| - |replies|), memory)
    decreases |r.stored| - r.cursor
  {
    hide Publish, PublishDue, Activate, Reciter;
    if r.cursor == |r.stored| || r.stored[r.cursor].time != now {
      assert |due[|replies|..]| == 0;
      ReciteEnds(b, r, now, duration, due, memory, replies);
    } else {
      var m := r.stored[r.cursor];
      var next := Skip(r.(cursor := r.cursor + 1), duration);
      assert due[|replies|] == due[|replies|..][0] == m;
      ReciteTurn(b, r, now, duration, due, memory, replies);
      var (b', ok) := Publish(b, duration, now, m.channel, m.bytes);
      if ok {
        var more := replies + [Published];
        assert due[|more|..] == due[|replies|..][1..] == DueRun(next, now, duration);
        ReplayRecites(b', next, now, duration, due, memory, more);
      }
    }
  }

  // ----- The agenda as activations -------------------------------------------------------------------------

  function ActOf(cfg: Config, c: Control, now: u64, item: Item): Act
    requires |cfg.jobs| == |c.tasks| && Known(c, item) && Cursors(c)
  {
    match item
    case RunTask(i) => Act(cfg.jobs[i].who, cfg.jobs[i].program, cfg.patience, true)
    case RunReplay(j) =>
      var r := c.replayers[j];
      var due := DueRun(r, now, cfg.duration);
      Act(Caller(r.owner, r.channels), Reciter(due), |due|, false)
  }

  function ActsOf(cfg: Config, c: Control, now: u64, items: seq<Item>): (acts: seq<Act>)
    requires |cfg.jobs| == |c.tasks| && AllKnown(c, items) && Cursors(c)
    ensures |acts| == |items| && forall i :: 0 <= i < |items| ==> acts[i] == ActOf(cfg, c, now, items[i])
  {
    seq(|items|, i requires 0 <= i < |items| => ActOf(cfg, c, now, items[i]))
  }

  function StageOf(w: World): Stage {
    Stage(w.bus, w.memories, w.failed)
  }

  /** The slot these items make up. */
  ghost function SlotOf(cfg: Config, now: u64, acts: seq<Act>): Slot {
    Slot(cfg.duration, now, set a | a in acts :: a.who.owner, set a, ch | a in acts && ch in a.who.outputs :: ch)
  }

  lemma PerformIsAct(cfg: Config, w: World, now: u64, item: Item, s: Slot)
    requires Wired(cfg, w) && Known(w.control, item) && AllRested(w.control, cfg.duration) && !w.failed
    requires s.duration == cfg.duration && s.now == now
    ensures StageOf(Perform(cfg, w, now, item)) == RunAct(StageOf(w), ActOf(cfg, w.control, now, item), s)
  {
    hide Activate;
    match item
    case RunTask(i) =>
    case RunReplay(j) =>
      var r := w.control.replayers[j];
      var due := DueRun(r, now, cfg.duration);
      assert due[0..] == due;
      ReplayRecites(w.bus, r, now, cfg.duration, due, MemoryOf(w.memories, r.owner), []);
  }

  lemma {:induction false} RunActsSplit(st: Stage, a: seq<Act>, b: seq<Act>, s: Slot)
    ensures RunActs(st, a + b, s) == RunActs(RunActs(st, a, s), b, s)
    decreases |b|
  {
    if b == [] {
      assert a + b == a;
    } else {
      var n := |b| - 1;
      assert (a + b)[..|a + b| - 1] == a + b[..n] && (a + b)[|a + b| - 1] == b[n];
      RunActsSplit(st, a, b[..n], s);
    }
  }

  lemma RunActsFirst(st: Stage, acts: seq<Act>, s: Slot)
    requires acts != []
    ensures RunActs(st, acts, s) == RunActs(RunAct(st, acts[0], s), acts[1..], s)
  {
    hide RunAct;
    assert acts == [acts[0]] + acts[1..] && [acts[0]][..0] == [];
    assert RunActs(st, [acts[0]], s) == RunAct(RunActs(st, [], s), acts[0], s);
    RunActsSplit(st, [acts[0]], acts[1..], s);
  }

  lemma {:induction false} FailedStays(st: Stage, acts: seq<Act>, s: Slot)
    requires st.failed
    ensures RunActs(st, acts, s) == st
    decreases |acts|
  {
    if acts == [] {
    } else {
      FailedStays(st, acts[..|acts| - 1], s);
    }
  }

  lemma PerformRests(cfg: Config, w: World, now: u64, item: Item)
    requires Wired(cfg, w) && Known(w.control, item) && AllRested(w.control, cfg.duration)
    requires !Perform(cfg, w, now, item).failed
    ensures AllRested(Perform(cfg, w, now, item).control, cfg.duration)
    ensures forall x :: Known(w.control, x) && x != item ==>
      ActOf(cfg, Perform(cfg, w, now, item).control, now, x) == ActOf(cfg, w.control, now, x)
  {
    hide Activate, Perform;
    PerformFollowsControl(cfg, w, now, item);
    if item.RunReplay? { DrainRests(w.control.replayers[item.replayer], now, cfg.duration); }
  }

  /** Performing a list of items is running their activations. */
  lemma {:induction false} PerformAllIsActs(cfg: Config, w: World, now: u64, items: seq<Item>, s: Slot)
    requires Wired(cfg, w) && AllKnown(w.control, items) && NoRepeats(items) && AllRested(w.control, cfg.duration)
    requires s.duration == cfg.duration && s.now == now
    ensures StageOf(PerformAll(cfg, w, now, items)) == RunActs(StageOf(w), ActsOf(cfg, w.control, now, items), s)
    decreases |items|
  {
    var acts := ActsOf(cfg, w.control, now, items);
    if items == [] {
    } else if w.failed {
      FailedStays(StageOf(w), acts, s);
    } else {
      var w' := Perform(cfg, w, now, items[0]);
      assert AllKnown(w'.control, items[1..]) by {
        assert forall x :: x in items[1..] ==> x in items && (Known(w.control, x) ==> Known(w'.control, x));
      }
      hide Perform, ActOf, RunAct, RunActs;
      RunActsFirst(StageOf(w), acts, s);
      PerformIsAct(cfg, w, now, items[0], s);
      if w'.failed {
        FailedStays(StageOf(w'), acts[1..], s);
      } else {
        PerformRests(cfg, w, now, items[0]);
        assert acts[1..] == ActsOf(cfg, w'.control, now, items[1..]);
        PerformAllIsActs(cfg, w', now, items[1..], s);
      }
    }
  }

  // ----- Each participant's own items ------------------------------------------------------------------------

  function OwnerOf(cfg: Config, c: Control, item: Item): nat
    requires |cfg.jobs| == |c.tasks| && Known(c, item)
  {
    match item
    case RunTask(i) => cfg.jobs[i].who.owner
    case RunReplay(j) => c.replayers[j].owner
  }

  /** The items of one participant, in order. */
  function OwnItems(cfg: Config, c: Control, items: seq<Item>, p: nat): (own: seq<Item>)
    requires |cfg.jobs| == |c.tasks| && AllKnown(c, items)
    ensures forall x :: x in own <==> x in items && OwnerOf(cfg, c, x) == p
  {
    if items == [] then []
    else
      var n := |items| - 1;
      assert items == items[..n] + [items[n]];
      OwnItems(cfg, c, items[..n], p) + if OwnerOf(cfg, c, items[n]) == p then [items[n]] else []
  }

  lemma {:induction false} OwnItemsSplit(cfg: Config, c: Control, a: seq<Item>, b: seq<Item>, p: nat)
    requires |cfg.jobs| == |c.tasks| && AllKnown(c, a) && AllKnown(c, b) && AllKnown(c, a + b)
    ensures OwnItems(cfg, c, a + b, p) == OwnItems(cfg, c, a, p) + OwnItems(cfg, c, b, p)
    decreases |b|
  {
    if b == [] {
      assert a + b == a;
    } else {
      assert (a + b)[..|a + b| - 1] == a + b[..|b| - 1];
      OwnItemsSplit(cfg, c, a, b[..|b| - 1], p);
    }
  }

  lemma {:induction false} OwnActs(cfg: Config, c: Control, now: u64, items: seq<Item>, p: nat)
    requires |cfg.jobs| == |c.tasks| && AllKnown(c, items) && Cursors(c)
    ensures Only(ActsOf(cfg, c, now, items), p) == ActsOf(cfg, c, now, OwnItems(cfg, c, items, p))
    decreases |items|
  {
    if items == [] {
    } else {
      var n := |items| - 1;
      OwnActs(cfg, c, now, items[..n], p);
      assert ActsOf(cfg, c, now, items)[..n] == ActsOf(cfg, c, now, items[..n]);
    }
  }

  // ----- Two assignments of priorities -----------------------------------------------------------------------

  predicate SameButRank(a: Task, b: Task) {
    a.(priority := 0, index := 0) == b.(priority := 0, index := 0)
  }

  predicate SameReplayButRank(a: Replayer, b: Replayer) {
    a.(priority := None, index := 0) == b.(priority := None, index := 0)
  }

  /** The same tasks and replayers in the same state, except for priority and registration
      order; each task was activated at the same instants. */
  ghost predicate Reprioritised(c: Control, d: Control) {
    && |c.tasks| == |d.tasks| && |c.replayers| == |d.replayers| && c.slots == d.slots
    && (forall i :: 0 <= i < |c.tasks| ==> SameButRank(c.tasks[i], d.tasks[i]))
    && (forall j :: 0 <= j < |c.replayers| ==> SameReplayButRank(c.replayers[j], d.replayers[j]))
    && (forall i: nat :: Times(c.activations, i) == Times(d.activations, i))
  }

  lemma {:induction false} SkipIgnoresRank(a: Replayer, b: Replayer, duration: u64)
    requires SameReplayButRank(a, b) && a.cursor <= |a.stored|
    ensures Skip(a, duration).cursor == Skip(b, duration).cursor
    decreases |a.stored| - a.cursor
  {
    if a.cursor == |a.stored| || Selected(a, a.stored[a.cursor], duration) {
    } else {
      SkipIgnoresRank(a.(cursor := a.cursor + 1), b.(cursor := b.cursor + 1), duration);
    }
  }

  lemma {:induction false} DrainIgnoresRank(a: Replayer, b: Replayer, now: u64, duration: u64)
    requires SameReplayButRank(a, b) && a.cursor <= |a.stored|
    ensures SameReplayButRank(Drain(a, now, duration), Drain(b, now, duration))
    ensures DueRun(a, now, duration) == DueRun(b, now, duration)
    decreases |a.stored| - a.cursor
  {
    if a.cursor < |a.stored| && a.stored[a.cursor].time == now {
      SkipIgnoresRank(a.(cursor := a.cursor + 1), b.(cursor := b.cursor + 1), duration);
      DrainIgnoresRank(Skip(a.(cursor := a.cursor + 1), duration), Skip(b.(cursor := b.cursor + 1), duration), now,
                       duration);
    } else {
    }
  }

  lemma SameActs(cfg: Config, c: Control, d: Control, now: u64, items: seq<Item>)
    requires Reprioritised(c, d) && |cfg.jobs| == |c.tasks| && AllKnown(c, items) && Cursors(c) && Cursors(d)
    ensures AllKnown(d, items) && ActsOf(cfg, c, now, items) == ActsOf(cfg, d, now, items)
  {
    forall x | x in items ensures Known(d, x) && ActOf(cfg, c, now, x) == ActOf(cfg, d, now, x) {
      if x.RunReplay? {
        assert SameReplayButRank(c.replayers[x.replayer], d.replayers[x.replayer]);
        DrainIgnoresRank(c.replayers[x.replayer], d.replayers[x.replayer], now, cfg.duration);
      }
    }
  }

  lemma SameNextSlot(c: Control, d: Control)
    requires Reprioritised(c, d)
    ensures NextSlot(c) == NextSlot(d)
  {
    hide NextSlot;
    forall i | 0 <= i < |c.tasks| ensures c.tasks[i].next == d.tasks[i].next && c.tasks[i].done == d.tasks[i].done {
      assert SameButRank(c.tasks[i], d.tasks[i]);
    }
    forall j | 0 <= j < |c.replayers| ensures NextPublish(c.replayers[j]) == NextPublish(d.replayers[j]) {
      assert SameReplayButRank(c.replayers[j], d.replayers[j]);
    }
  }

  /** The control side of a slot does not depend on the order of the items. */
  lemma ItemsInAnyOrder(c: Control, d: Control, duration: u64, now: u64, items: seq<Item>, items': seq<Item>)
    requires Reprioritised(c, d) && Cursors(c) && Cursors(d)
    requires AllKnown(c, items) && AllKnown(d, items') && NoRepeats(items) && NoRepeats(items')
    requires forall x :: x in items <==> x in items'
    ensures Reprioritised(RunItems(c, duration, now, items), RunItems(d, duration, now, items'))
  {
    RunItemsEffect(c, duration, now, items);
    RunItemsEffect(d, duration, now, items');
    hide RunItems;
    var r, t := RunItems(c, duration, now, items), RunItems(d, duration, now, items');
    forall i | 0 <= i < |r.tasks| ensures SameButRank(r.tasks[i], t.tasks[i]) {
      assert SameButRank(c.tasks[i], d.tasks[i]);
    }
    forall j | 0 <= j < |r.replayers| ensures SameReplayButRank(r.replayers[j], t.replayers[j]) {
      DrainIgnoresRank(c.replayers[j], d.replayers[j], now, duration);
    }
    forall i: nat ensures Times(r.activations, i) == Times(t.activations, i) {
      TimesSplit(c.activations, FiredBy(now, items), i);
      TimesSplit(d.activations, FiredBy(now, items'), i);
      TimesOfSlot(now, items, i);
      TimesOfSlot(now, items', i);
    }
  }

  // ----- One slot of the engine, in any order -------------------------------------------------------------------

  /** One publisher per channel: `voice` names it. A replayer is a participant of its own. */
  ghost predicate Cast(cfg: Config, c: Control, voice: nat -> nat) {
    && (forall i, ch :: 0 <= i < |cfg.jobs| && ch in cfg.jobs[i].who.outputs ==> voice(ch) == cfg.jobs[i].who.owner)
    && (forall j, ch :: 0 <= j < |c.replayers| && ch in c.replayers[j].channels ==> voice(ch) == c.replayers[j].owner)
    && (forall i, j :: 0 <= i < |cfg.jobs| && 0 <= j < |c.replayers| ==> cfg.jobs[i].who.owner != c.replayers[j].owner)
    && (forall i, j :: 0 <= i < j < |c.replayers| ==> c.replayers[i].owner != c.replayers[j].owner)
  }

  /** Only the participants in `merging` ask for the merged list of their inputs. */
  ghost predicate MergersAre(cfg: Config, merging: set<nat>) {
    forall i :: 0 <= i < |cfg.jobs| ==> cfg.jobs[i].who.owner in merging || NeverMerges(cfg.jobs[i].program)
  }

  /** Worlds that differ in priorities and in how publishers interleave, nothing else. */
  ghost predicate WorldLike(w: World, u: World, voice: nat -> nat) {
    Like(w.bus, u.bus, voice) && SameMemories(w.memories, u.memories) && Reprioritised(w.control, u.control)
  }

  ghost predicate OwnOrder(cfg: Config, c: Control, items: seq<Item>, items': seq<Item>)
    requires |cfg.jobs| == |c.tasks| && AllKnown(c, items) && AllKnown(c, items')
  {
    forall p: nat :: OwnItems(cfg, c, items, p) == OwnItems(cfg, c, items', p)
  }

  ghost predicate Lists(cfg: Config, w: World, items: seq<Item>) {
    Wired(cfg, w) && AllKnown(w.control, items) && NoRepeats(items) && AllRested(w.control, cfg.duration) && !w.failed
  }

  /** Some publish of these items meets a full queue. */
  ghost predicate CrowdedItems(cfg: Config, w: World, now: u64, items: seq<Item>)
    requires Wired(cfg, w) && AllKnown(w.control, items)
  {
    var acts := ActsOf(cfg, w.control, now, items);
    CrowdedActs(StageOf(w), acts, SlotOf(cfg, now, acts))
  }

  /** Nobody who acts in this slot hears in it what is published in it. */
  ghost predicate HushedItems(cfg: Config, w: World, now: u64, items: seq<Item>)
    requires Wired(cfg, w) && AllKnown(w.control, items)
  {
    Hushed(w.bus, SlotOf(cfg, now, ActsOf(cfg, w.control, now, items)))
  }

  lemma ReciterNeverMerges(due: seq<Stored>)
    ensures NeverMerges(Reciter(due))
  {
  }

  lemma CastActs(cfg: Config, c: Control, now: u64, items: seq<Item>, merging: set<nat>, voice: nat -> nat, s: Slot)
    requires |cfg.jobs| == |c.tasks| && AllKnown(c, items) && Cursors(c) && Cast(cfg, c, voice)
    requires MergersAre(cfg, merging)
    requires var all := SlotOf(cfg, now, ActsOf(cfg, c, now, items)); all.parties <= s.parties && all.outs <= s.outs
    ensures Voiced(ActsOf(cfg, c, now, items), voice, s) && Mergers(ActsOf(cfg, c, now, items), merging)
  {
    var acts := ActsOf(cfg, c, now, items);
    hide Reciter, NeverMerges;
    forall a | a in acts ensures VoicedAct(a, voice, s) && MayMerge(a, a.who.owner in merging) {
      var all := SlotOf(cfg, now, acts);
      assert a.who.owner in all.parties && a.who.outputs <= all.outs;
      var i :| 0 <= i < |acts| && acts[i] == a;
      assert items[i] in items && a == ActOf(cfg, c, now, items[i]);
      match items[i]
      case RunTask(k) =>
      case RunReplay(j) => ReciterNeverMerges(DueRun(c.replayers[j], now, cfg.duration));
    }
  }

  lemma OwnOrderRearranges(cfg: Config, c: Control, now: u64, items: seq<Item>, items': seq<Item>)
    requires |cfg.jobs| == |c.tasks| && AllKnown(c, items) && AllKnown(c, items') && Cursors(c)
    requires OwnOrder(cfg, c, items, items')
    ensures Rearranged(ActsOf(cfg, c, now, items), ActsOf(cfg, c, now, items'))
    ensures forall x :: x in items <==> x in items'
    ensures SlotOf(cfg, now, ActsOf(cfg, c, now, items)) == SlotOf(cfg, now, ActsOf(cfg, c, now, items'))
  {
    hide ActOf;
    forall p: nat ensures Only(ActsOf(cfg, c, now, items), p) == Only(ActsOf(cfg, c, now, items'), p) {
      OwnActs(cfg, c, now, items, p);
      OwnActs(cfg, c, now, items', p);
    }
    forall x ensures x in items <==> x in items' {
      if x in items { assert x in OwnItems(cfg, c, items, OwnerOf(cfg, c, x)); }
      if x in items' { assert x in OwnItems(cfg, c, items', OwnerOf(cfg, c, x)); }
    }
    var acts, acts' := ActsOf(cfg, c, now, items), ActsOf(cfg, c, now, items');
    forall a ensures a in acts <==> a in acts' {
      if a in acts { assert a in Only(acts, a.who.owner); }
      if a in acts' { assert a in Only(acts', a.who.owner); }
    }
    SameSlot(cfg, now, acts, acts');
  }

  lemma SameSlot(cfg: Config, now: u64, acts: seq<Act>, acts': seq<Act>)
    requires forall a :: a in acts <==> a in acts'
    ensures SlotOf(cfg, now, acts) == SlotOf(cfg, now, acts')
  {
    var s, t := SlotOf(cfg, now, acts), SlotOf(cfg, now, acts');
    assert s.parties == t.parties && s.outs == t.outs;
  }

  /** Two worlds alike up to priorities at the opening of a slot, and the same items in two
      orders that agree on every participant's own. */
  ghost predicate TwoOrders(cfg: Config, w: World, u: World, now: u64, items: seq<Item>, items': seq<Item>,
                            merging: set<nat>, voice: nat -> nat) {
    && Lists(cfg, w, items) && Lists(cfg, u, items') && WorldLike(w, u, voice)
    && AllKnown(w.control, items') && OwnOrder(cfg, w.control, items, items')
    && Cast(cfg, w.control, voice) && MergersAre(cfg, merging)
    && Ordered(w.bus, u.bus, merging, now) && HushedItems(cfg, w, now, items)
  }

  lemma OrdersAreReordered(cfg: Config, w: World, u: World, now: u64, items: seq<Item>, items': seq<Item>,
                           merging: set<nat>, voice: nat -> nat)
    requires TwoOrders(cfg, w, u, now, items, items', merging, voice)
    ensures var acts, acts' := ActsOf(cfg, w.control, now, items), ActsOf(cfg, u.control, now, items');
      && SlotOf(cfg, now, acts) == SlotOf(cfg, now, acts')
      && Reordered(StageOf(w), StageOf(u), acts, acts', merging, voice, SlotOf(cfg, now, acts))
      && forall x :: x in items <==> x in items'
  {
    hide Hushed, Like, Ordered, SameMemories, Cast, MergersAre, Reprioritised, Rearranged, Voiced, Mergers;
    hide ActsOf, OwnOrder, SlotOf;
    SameActs(cfg, w.control, u.control, now, items');
    OwnOrderRearranges(cfg, w.control, now, items, items');
    var s := SlotOf(cfg, now, ActsOf(cfg, w.control, now, items));
    CastActs(cfg, w.control, now, items, merging, voice, s);
    CastActs(cfg, w.control, now, items', merging, voice, s);
    SlotInstant(cfg, now, ActsOf(cfg, w.control, now, items));
  }

  /** One slot of the engine in two orders, tasks and replayers alike. If the first order
      neither fails nor crowds a queue, the second ends unfailed with the same participants'
      memories, the same state of every task and replayer, the same messages on every route
      and the same Recording publisher by publisher, exactly when it crowds no queue either. */
  lemma EngineOrderIndependence(cfg: Config, w: World, u: World, now: u64, items: seq<Item>, items': seq<Item>,
                                merging: set<nat>, voice: nat -> nat)
    requires TwoOrders(cfg, w, u, now, items, items', merging, voice)
    requires !PerformAll(cfg, w, now, items).failed && !CrowdedItems(cfg, w, now, items)
    ensures var w', u' := PerformAll(cfg, w, now, items), PerformAll(cfg, u, now, items');
      !CrowdedItems(cfg, u, now, items') <==> !u'.failed && WorldLike(w', u', voice)
  {
    var acts, acts' := ActsOf(cfg, w.control, now, items), ActsOf(cfg, u.control, now, items');
    var s := SlotOf(cfg, now, acts);
    OrdersAreReordered(cfg, w, u, now, items, items', merging, voice);
    hide Hushed, Like, Ordered, SameMemories, Cast, MergersAre, Reprioritised, Reordered, ActsOf, OwnOrder;
    hide SlotOf, RunActs, CrowdedActs, PerformAll, RunItems;
    SlotInstant(cfg, now, acts);
    PerformAllIsActs(cfg, w, now, items, s);
    PerformAllIsActs(cfg, u, now, items', s);
    RoomyOrder(StageOf(w), StageOf(u), acts, acts', merging, voice, s);
    if !PerformAll(cfg, u, now, items').failed {
      PerformAllFollowsControl(cfg, w, now, items);
      PerformAllFollowsControl(cfg, u, now, items');
      ItemsInAnyOrder(w.control, u.control, cfg.duration, now, items, items');
    }
  }

  lemma SlotInstant(cfg: Config, now: u64, acts: seq<Act>)
    ensures SlotOf(cfg, now, acts).duration == cfg.duration && SlotOf(cfg, now, acts).now == now
  {
  }

  // ----- The agenda under two assignments of priorities ------------------------------------------------------------

  /** Both assignments put the tasks of one participant in the same order. */
  ghost predicate KeepsOwnOrder(cfg: Config, c: Control, d: Control)
    requires |cfg.jobs| == |c.tasks| == |d.tasks|
  {
    forall i, j :: 0 <= i < |c.tasks| && 0 <= j < |c.tasks| && cfg.jobs[i].who.owner == cfg.jobs[j].who.owner ==>
      (Before(c, RunTask(i), RunTask(j)) <==> Before(d, RunTask(i), RunTask(j)))
  }

  lemma {:induction false} OwnItemsSorted(cfg: Config, c: Control, items: seq<Item>, p: nat)
    requires |cfg.jobs| == |c.tasks| && AllKnown(c, items) && Sorted(c, items)
    ensures Sorted(c, OwnItems(cfg, c, items, p))
    decreases |items|
  {
    hide Before;
    if items == [] {
    } else {
      var n := |items| - 1;
      OwnItemsSorted(cfg, c, items[..n], p);
      forall x | x in OwnItems(cfg, c, items[..n], p) ensures Before(c, x, items[n]) {
        var k :| 0 <= k < n && items[k] == x;
      }
    }
  }

  lemma {:induction false} OwnItemsNoRepeats(cfg: Config, c: Control, items: seq<Item>, p: nat)
    requires |cfg.jobs| == |c.tasks| && AllKnown(c, items) && NoRepeats(items)
    ensures NoRepeats(OwnItems(cfg, c, items, p))
    decreases |items|
  {
    if items == [] {
    } else {
      var n := |items| - 1;
      OwnItemsNoRepeats(cfg, c, items[..n], p);
      assert items[n] !in items[..n];
    }
  }

  lemma BeforeOneWay(c: Control, x: Item, y: Item)
    requires Known(c, x) && Known(c, y) && Before(c, x, y)
    ensures !Before(c, y, x)
  {
  }

  lemma FirstIsMember(items: seq<Item>)
    requires items != []
    ensures items[0] in items
  {
  }

  lemma AfterFirst(c: Control, items: seq<Item>, x: Item)
    requires AllKnown(c, items) && Sorted(c, items) && x in items && x != items[0]
    ensures Known(c, x) && Known(c, items[0]) && Before(c, items[0], x)
  {
    hide Before;
    var k :| 0 <= k < |items| && items[k] == x;
  }

  lemma SameFirst(c: Control, xs: seq<Item>, ys: seq<Item>)
    requires AllKnown(c, xs) && AllKnown(c, ys) && Sorted(c, xs) && Sorted(c, ys) && xs != [] && ys != []
    requires forall x :: x in xs <==> x in ys
    ensures xs[0] == ys[0]
  {
    hide Sorted, Before;
    FirstIsMember(xs);
    FirstIsMember(ys);
    if xs[0] != ys[0] {
      AfterFirst(c, xs, ys[0]);
      AfterFirst(c, ys, xs[0]);
      BeforeOneWay(c, xs[0], ys[0]);
      assert false;
    }
  }

  lemma SortedTail(c: Control, items: seq<Item>)
    requires AllKnown(c, items) && Sorted(c, items) && items != []
    ensures AllKnown(c, items[1..]) && Sorted(c, items[1..])
    ensures forall x :: x in items[1..] <==> x in items && x != items[0]
  {
    assert items == [items[0]] + items[1..];
    forall x | x in items[1..] ensures x != items[0] {
      var k :| 0 <= k < |items[1..]| && items[1..][k] == x;
      SortedDiffer(c, items, 0, k + 1);
    }
  }

  lemma SortedDiffer(c: Control, items: seq<Item>, a: nat, b: nat)
    requires AllKnown(c, items) && Sorted(c, items) && a < b < |items|
    ensures items[a] != items[b]
  {
    assert Before(c, items[a], items[b]);
  }

  /** A sorted list is determined by its members. */
  lemma {:induction false} SortedOnce(c: Control, xs: seq<Item>, ys: seq<Item>)
    requires AllKnown(c, xs) && AllKnown(c, ys) && Sorted(c, xs) && Sorted(c, ys)
    requires forall x :: x in xs <==> x in ys
    ensures xs == ys
    decreases |xs|
  {
    hide Sorted, Before, AllKnown;
    if xs == [] {
      if ys != [] {
        FirstIsMember(ys);
        assert false;
      }
    } else {
      FirstIsMember(xs);
      SameFirst(c, xs, ys);
      SortedTail(c, xs);
      SortedTail(c, ys);
      SortedOnce(c, xs[1..], ys[1..]);
      assert xs == [xs[0]] + xs[1..] && ys == [ys[0]] + ys[1..];
    }
  }

  lemma AtMostOne(items: seq<Item>, x: Item)
    requires NoRepeats(items) && forall y :: y in items ==> y == x
    ensures |items| <= 1
  {
    hide NoRepeats;
    if |items| > 1 {
      FirstTwo(items);
      assert false;
    }
  }

  lemma FirstTwo(items: seq<Item>)
    requires NoRepeats(items) && |items| > 1
    ensures items[0] in items && items[1] in items && items[0] != items[1]
  {
  }

  lemma OneReplay(cfg: Config, c: Control, voice: nat -> nat, items: seq<Item>, p: nat, x: Item)
    requires |cfg.jobs| == |c.tasks| && AllKnown(c, items) && Cast(cfg, c, voice) && NoRepeats(items)
    requires x.RunReplay? && x in OwnItems(cfg, c, items, p)
    ensures |OwnItems(cfg, c, items, p)| <= 1
  {
    var own := OwnItems(cfg, c, items, p);
    OwnItemsNoRepeats(cfg, c, items, p);
    hide Cast, OwnItems;
    forall y | y in own ensures y == x {
      if y != x { BothTasks(cfg, c, voice, x, y); }
    }
    AtMostOne(own, x);
  }

  lemma ShortIsSorted(c: Control, items: seq<Item>)
    requires AllKnown(c, items) && |items| <= 1
    ensures Sorted(c, items)
  {
  }

  lemma OwnKnown(cfg: Config, c: Control, items: seq<Item>, p: nat)
    requires |cfg.jobs| == |c.tasks| && AllKnown(c, items)
    ensures AllKnown(c, OwnItems(cfg, c, items, p))
  {
  }

  /** In a list of replayers followed by a sorted part, each participant's own items are sorted:
      a replayer has but one. */
  lemma OwnSorted(cfg: Config, c: Control, voice: nat -> nat, early: seq<Item>, due: seq<Item>, p: nat)
    requires |cfg.jobs| == |c.tasks| && AllKnown(c, early) && AllKnown(c, due) && AllKnown(c, early + due)
    requires Cast(cfg, c, voice) && NoRepeats(early + due) && Sorted(c, due) && forall x :: x in early ==> x.RunReplay?
    ensures AllKnown(c, OwnItems(cfg, c, early + due, p)) && Sorted(c, OwnItems(cfg, c, early + due, p))
  {
    hide Cast, OwnItems, Sorted, NoRepeats;
    OwnItemsSplit(cfg, c, early, due, p);
    OwnKnown(cfg, c, early + due, p);
    var first := OwnItems(cfg, c, early, p);
    if first == [] {
      assert [] + OwnItems(cfg, c, due, p) == OwnItems(cfg, c, due, p);
      OwnItemsSorted(cfg, c, due, p);
    } else {
      assert first[0] in first;
      OneReplay(cfg, c, voice, early + due, p, first[0]);
      ShortIsSorted(c, OwnItems(cfg, c, early + due, p));
    }
  }

  lemma OwnAgendaSorted(cfg: Config, c: Control, voice: nat -> nat, slot: u64, p: nat)
    requires |cfg.jobs| == |c.tasks| && UniqueIndices(c) && Cast(cfg, c, voice)
    ensures AllKnown(c, OwnItems(cfg, c, Agenda(c, slot), p)) && Sorted(c, OwnItems(cfg, c, Agenda(c, slot), p))
  {
    hide Cast, OwnItems, Sorted, NoRepeats, Agenda, DuePart, UniqueIndices;
    AgendaMeaning(c, slot);
    var early, due := Replays(c, false, |c.replayers|), DuePart(c, slot);
    assert AllKnown(c, early + due);
    assert AllKnown(c, early) by { assert forall x :: x in early ==> x in early + due; }
    OwnSorted(cfg, c, voice, early, due, p);
  }

  lemma SortedEither(cfg: Config, c: Control, d: Control, voice: nat -> nat, items: seq<Item>, p: nat)
    requires |cfg.jobs| == |c.tasks| == |d.tasks| && Cast(cfg, c, voice) && KeepsOwnOrder(cfg, c, d)
    requires AllKnown(c, items) && AllKnown(d, items) && Sorted(d, items)
    requires forall x :: x in items ==> OwnerOf(cfg, c, x) == p
    ensures Sorted(c, items)
  {
    hide Cast, Before;
    forall a, b | 0 <= a < b < |items| ensures Before(c, items[a], items[b]) {
      var x, y := items[a], items[b];
      assert x in items && y in items && Before(d, x, y);
      SortedDiffer(d, items, a, b);
      BothTasks(cfg, c, voice, x, y);
      assert x == RunTask(x.task) && y == RunTask(y.task);
    }
  }

  /** Each participant's items come in the same order in both agendas. */
  lemma OwnAgendas(cfg: Config, c: Control, d: Control, voice: nat -> nat, slot: u64, p: nat)
    requires |cfg.jobs| == |c.tasks| && Reprioritised(c, d) && UniqueIndices(c) && UniqueIndices(d)
    requires Cast(cfg, c, voice)
    requires KeepsOwnOrder(cfg, c, d)
    ensures AllKnown(c, Agenda(d, slot)) && OwnItems(cfg, c, Agenda(c, slot), p) == OwnItems(cfg, c, Agenda(d, slot), p)
  {
    assert |c.tasks| == |d.tasks|;
    hide Agenda, Reprioritised, UniqueIndices, Cast, KeepsOwnOrder, Sorted, OwnItems;
    SameItems(c, d, slot);
    SameCast(cfg, c, d, voice);
    SameOwnItems(cfg, c, d, Agenda(d, slot), p);
    OwnAgendaSorted(cfg, c, voice, slot, p);
    OwnAgendaSorted(cfg, d, voice, slot, p);
    var xs, ys := OwnItems(cfg, c, Agenda(c, slot), p), OwnItems(cfg, c, Agenda(d, slot), p);
    OwnKnown(cfg, c, Agenda(d, slot), p);
    SortedEither(cfg, c, d, voice, ys, p);
    SortedOnce(c, xs, ys);
  }

  lemma BothTasks(cfg: Config, c: Control, voice: nat -> nat, x: Item, y: Item)
    requires |cfg.jobs| == |c.tasks| && Cast(cfg, c, voice) && Known(c, x) && Known(c, y) && x != y
    requires OwnerOf(cfg, c, x) == OwnerOf(cfg, c, y)
    ensures x.RunTask? && y.RunTask?
  {
  }

  lemma SameCast(cfg: Config, c: Control, d: Control, voice: nat -> nat)
    requires Reprioritised(c, d) && Cast(cfg, c, voice)
    ensures Cast(cfg, d, voice)
  {
    forall j | 0 <= j < |c.replayers|
      ensures d.replayers[j].owner == c.replayers[j].owner && d.replayers[j].channels == c.replayers[j].channels
    {
      assert SameReplayButRank(c.replayers[j], d.replayers[j]);
    }
  }

  lemma SameItems(c: Control, d: Control, slot: u64)
    requires Reprioritised(c, d) && UniqueIndices(c) && UniqueIndices(d)
    ensures AllKnown(c, Agenda(d, slot)) && forall x :: x in Agenda(c, slot) <==> x in Agenda(d, slot)
  {
    hide Agenda, DuePart, UniqueIndices, Sorted, NoRepeats;
    AgendaMeaning(c, slot);
    AgendaMeaning(d, slot);
    forall x ensures x in Agenda(c, slot) <==> x in Agenda(d, slot) {
      match x
      case RunTask(i) => assert i < |c.tasks| ==> SameButRank(c.tasks[i], d.tasks[i]);
      case RunReplay(j) =>
    }
    assert forall x :: Known(d, x) ==> Known(c, x);
  }

  lemma {:induction false} SameOwnItems(cfg: Config, c: Control, d: Control, items: seq<Item>, p: nat)
    requires |cfg.jobs| == |c.tasks| && Reprioritised(c, d) && AllKnown(c, items) && AllKnown(d, items)
    ensures OwnItems(cfg, c, items, p) == OwnItems(cfg, d, items, p)
    decreases |items|
  {
    if items == [] {
    } else {
      var x := items[|items| - 1];
      SameOwnItems(cfg, c, d, items[..|items| - 1], p);
      assert x in items && Known(c, x);
      if x.RunReplay? { assert SameReplayButRank(c.replayers[x.replayer], d.replayers[x.replayer]); }
    }
  }

  // ----- One slot of the loop under two assignments of priorities ---------------------------------------------------

  /** The world as a slot opens. */
  function Started(w: World, slot: u64): World {
    w.(control := w.control.(slots := w.control.slots + [slot]))
  }

  lemma StartedKnows(c: Control, slots: seq<u64>, items: seq<Item>)
    requires AllKnown(c, items)
    ensures AllKnown(c.(slots := slots), items)
  {
    assert forall x :: Known(c, x) ==> Known(c.(slots := slots), x);
  }

  function SlotAgenda(cfg: Config, w: World): (items: seq<Item>)
    requires Wired(cfg, w)
    ensures AllKnown(w.control, items) && AllKnown(Started(w, NextSlot(w.control)).control, items)
  {
    var items := Agenda(w.control, NextSlot(w.control));
    StartedKnows(w.control, w.control.slots + [NextSlot(w.control)], items);
    items
  }

  /** Some publish of the next slot meets a full queue. */
  ghost predicate CrowdedSlot(cfg: Config, w: World)
    requires Wired(cfg, w)
  {
    CrowdedItems(cfg, Started(w, NextSlot(w.control)), NextSlot(w.control), SlotAgenda(cfg, w))
  }

  ghost predicate HushedSlot(cfg: Config, w: World)
    requires Wired(cfg, w)
  {
    HushedItems(cfg, Started(w, NextSlot(w.control)), NextSlot(w.control), SlotAgenda(cfg, w))
  }

  lemma StartedReprioritised(c: Control, d: Control, slot: u64)
    requires Reprioritised(c, d)
    ensures Reprioritised(c.(slots := c.slots + [slot]), d.(slots := d.slots + [slot]))
  {
  }

  lemma StartedOwnItems(cfg: Config, c: Control, slots: seq<u64>, items: seq<Item>, p: nat)
    requires |cfg.jobs| == |c.tasks| && AllKnown(c, items) && AllKnown(c.(slots := slots), items)
    ensures OwnItems(cfg, c.(slots := slots), items, p) == OwnItems(cfg, c, items, p)
    decreases |items|
  {
    if items == [] {
    } else {
      StartedOwnItems(cfg, c, slots, items[..|items| - 1], p);
    }
  }

  lemma AgendaLists(cfg: Config, w: World)
    requires Wired(cfg, w) && !w.failed && InLoop(w.control, cfg.duration)
    ensures Lists(cfg, Started(w, NextSlot(w.control)), SlotAgenda(cfg, w)) && UniqueIndices(w.control)
  {
    hide Agenda, NextSlot, ScheduleOk, Sorted, DuePart, Rested, UniqueIndices, NoRepeats;
    AgendaMeaning(w.control, NextSlot(w.control));
  }

  lemma AgendaOwnOrder(cfg: Config, w: World, u: World, voice: nat -> nat)
    requires Wired(cfg, w) && Wired(cfg, u) && Reprioritised(w.control, u.control) && Cast(cfg, w.control, voice)
    requires UniqueIndices(w.control) && UniqueIndices(u.control) && KeepsOwnOrder(cfg, w.control, u.control)
    ensures var c := Started(w, NextSlot(w.control)).control;
      AllKnown(c, SlotAgenda(cfg, u)) && OwnOrder(cfg, c, SlotAgenda(cfg, w), SlotAgenda(cfg, u))
  {
    hide Agenda, NextSlot, Reprioritised, OwnItems, UniqueIndices, Cast, AllKnown;
    var slot := NextSlot(w.control);
    SameNextSlot(w.control, u.control);
    SameItems(w.control, u.control, slot);
    var items, items' := SlotAgenda(cfg, w), SlotAgenda(cfg, u);
    var c := Started(w, slot).control;
    StartedKnows(w.control, c.slots, items');
    forall p: nat ensures OwnItems(cfg, c, items, p) == OwnItems(cfg, c, items', p) {
      OwnAgendas(cfg, w.control, u.control, voice, slot, p);
      StartedOwnItems(cfg, w.control, c.slots, items, p);
      StartedOwnItems(cfg, w.control, c.slots, items', p);
    }
  }

  lemma StartedCast(cfg: Config, c: Control, slots: seq<u64>, voice: nat -> nat)
    requires Cast(cfg, c, voice)
    ensures Cast(cfg, c.(slots := slots), voice)
  {
  }

  lemma StartedLike(w: World, u: World, slot: u64, voice: nat -> nat)
    requires WorldLike(w, u, voice)
    ensures WorldLike(Started(w, slot), Started(u, slot), voice)
  {
    hide Like, SameMemories, Reprioritised;
    StartedReprioritised(w.control, u.control, slot);
  }

  lemma AgendasAreTwoOrders(cfg: Config, w: World, u: World, merging: set<nat>, voice: nat -> nat)
    requires Wired(cfg, w) && Wired(cfg, u) && !w.failed && !u.failed && WorldLike(w, u, voice)
    requires InLoop(w.control, cfg.duration) && InLoop(u.control, cfg.duration)
    requires KeepsOwnOrder(cfg, w.control, u.control) && Cast(cfg, w.control, voice) && MergersAre(cfg, merging)
    requires Ordered(w.bus, u.bus, merging, NextSlot(w.control)) && HushedSlot(cfg, w)
    ensures var slot := NextSlot(w.control);
      NextSlot(u.control) == slot
      && TwoOrders(cfg, Started(w, slot), Started(u, slot), slot, SlotAgenda(cfg, w), SlotAgenda(cfg, u), merging,
                   voice)
  {
    assert Reprioritised(w.control, u.control);
    hide NextSlot, Reprioritised, Ordered, HushedItems, OwnOrder, MergersAre, UniqueIndices, Lists, Cast;
    hide SlotAgenda, InLoop, WorldLike, KeepsOwnOrder;
    var slot := NextSlot(w.control);
    SameNextSlot(w.control, u.control);
    AgendaLists(cfg, w);
    AgendaLists(cfg, u);
    AgendaOwnOrder(cfg, w, u, voice);
    StartedCast(cfg, w.control, w.control.slots + [slot], voice);
    StartedLike(w, u, slot, voice);
  }

  /** One slot of the loop under two assignments of priorities that agree on the order of each
      participant's own tasks: it ends alike exactly when the second crowds no queue either. */
  lemma SlotUnderTwoPriorities(cfg: Config, w: World, u: World, merging: set<nat>, voice: nat -> nat)
    requires Wired(cfg, w) && Wired(cfg, u) && !w.failed && !u.failed && WorldLike(w, u, voice)
    requires InLoop(w.control, cfg.duration) && InLoop(u.control, cfg.duration)
    requires KeepsOwnOrder(cfg, w.control, u.control) && Cast(cfg, w.control, voice) && MergersAre(cfg, merging)
    requires Ordered(w.bus, u.bus, merging, NextSlot(w.control)) && HushedSlot(cfg, w)
    requires !PerformSlot(cfg, w).failed && !CrowdedSlot(cfg, w)
    ensures !CrowdedSlot(cfg, u)
            <==> !PerformSlot(cfg, u).failed && WorldLike(PerformSlot(cfg, w), PerformSlot(cfg, u), voice)
  {
    hide Agenda, NextSlot, WorldLike, Ordered, HushedSlot, CrowdedItems, InLoop, Cast, MergersAre;
    hide KeepsOwnOrder, PerformAll, TwoOrders;
    AgendasAreTwoOrders(cfg, w, u, merging, voice);
    var slot := NextSlot(w.control);
    EngineOrderIndependence(cfg, Started(w, slot), Started(u, slot), slot, SlotAgenda(cfg, w), SlotAgenda(cfg, u),
                            merging, voice);
  }
}
