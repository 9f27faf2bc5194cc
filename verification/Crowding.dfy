// Queue bounds. A publish is crowded when a route it delivers to is full; as long as none is,
// a slot runs as if every queue were unbounded.

module Crowding {
  import opened VirtualTime
  import opened Interceptor
  import opened DataPlane
  import opened Merge
  import opened Activation
  import opened Sight
  import opened SlotOrder

  function Unbounded(routes: seq<Route>): (r: seq<Route>)
    ensures |r| == |routes| && forall k :: 0 <= k < |r| ==> r[k] == routes[k].(capacity := None)
  {
    seq(|routes|, k requires 0 <= k < |routes| => routes[k].(capacity := None))
  }

  /** The bus with every queue unbounded. */
  function Opened(b: Bus): Bus {
    b.(routes := Unbounded(b.routes))
  }

  function OpenedStage(st: Stage): Stage {
    st.(bus := Opened(st.bus))
  }

  /** Some route of the channel has no room. */
  predicate Crowded(b: Bus, ch: nat) {
    exists k :: 0 <= k < |b.routes| && b.routes[k].channel == ch && Full(b.routes[k])
  }

  /** The call publishes a message that gets through its plan and meets a full route. */
  predicate CrowdedAnswer(b: Bus, s: Slot, who: Caller, call: Call) {
    && call.CallPublish? && call.channel in who.outputs
    && call.channel < |b.channels| && |call.bytes| == b.channels[call.channel].size
    && Apply(b.channels[call.channel].steps, s.duration, s.now, call.bytes).1.Visible?
    && Crowded(b, call.channel)
  }

  predicate CrowdedCallback(b: Bus, s: Slot, who: Caller, program: Program, memory: Memory, replies: seq<Reply>,
                            patience: nat)
    decreases patience
  {
    var call := program(s.now, memory, replies);
    if call.CallReturn? then false
    else
      var (b', reply) := Answer(b, s.duration, s.now, who, call);
      CrowdedAnswer(b, s, who, call)
      || (reply.Some? && patience > 0
          && CrowdedCallback(b', s, who, program, memory, replies + [reply.value], patience - 1))
  }

  predicate CrowdedAct(st: Stage, a: Act, s: Slot) {
    !st.failed && CrowdedCallback(st.bus, s, a.who, a.program, MemoryOf(st.memories, a.who.owner), [], a.patience)
  }

  /** Some publish of these activations meets a full route. */
  predicate CrowdedActs(st: Stage, acts: seq<Act>, s: Slot) {
    if acts == [] then false
    else
      var n := |acts| - 1;
      CrowdedActs(st, acts[..n], s) || CrowdedAct(RunActs(st, acts[..n], s), acts[n], s)
  }

  // ----- Without crowding, bounds do not matter ------------------------------------------------------------

  lemma {:induction false} OpenedBest(routes: seq<Route>, owner: nat, now: u64, n: nat)
    requires n <= |routes|
    ensures Best(Unbounded(routes), owner, now, n) == Best(routes, owner, now, n)
    decreases n
  {
    if n == 0 {
    } else {
      OpenedBest(routes, owner, now, n - 1);
    }
  }

  lemma {:induction false} OpenedMerge(routes: seq<Route>, owner: nat, now: u64)
    ensures MergeVisible(Unbounded(routes), owner, now)
         == (Unbounded(MergeVisible(routes, owner, now).0), MergeVisible(routes, owner, now).1)
    decreases Backlog(routes)
  {
    OpenedBest(routes, owner, now, |routes|);
    match Best(routes, owner, now, |routes|)
    case None =>
    case Some(k) =>
      PopShrinksBacklog(routes, k);
      var popped := routes[k := Popped(routes[k])];
      assert Unbounded(popped) == Unbounded(routes)[k := Popped(Unbounded(routes)[k])];
      OpenedMerge(popped, owner, now);
  }

  lemma {:induction false} OpenedDescribed(routes: seq<Route>, inputs: seq<Input>)
    ensures Described(Unbounded(routes), inputs) == Described(routes, inputs)
    decreases |inputs|
  {
    if inputs == [] {
    } else {
      OpenedDescribed(routes, inputs[1..]);
    }
  }

  lemma {:induction false} OpenedDeliver(routes: seq<Route>, ch: nat, m: Msg)
    requires forall k :: 0 <= k < |routes| && routes[k].channel == ch ==> !Full(routes[k])
    ensures Deliver(Unbounded(routes), ch, m) == (Unbounded(Deliver(routes, ch, m).0), Deliver(routes, ch, m).1)
    decreases |routes|
  {
    if routes == [] {
    } else {
      assert Unbounded(routes)[1..] == Unbounded(routes[1..]);
      OpenedDeliver(routes[1..], ch, m);
      var r, rest := routes[0], Deliver(routes[1..], ch, m).0;
      var r' := if r.channel == ch then Pushed(r, m) else r;
      assert Unbounded([r'] + rest) == [r'.(capacity := None)] + Unbounded(rest);
    }
  }

  lemma OpenedPublish(b: Bus, s: Slot, who: Caller, ch: nat, bytes: seq<byte>)
    requires ch in who.outputs && !CrowdedAnswer(b, s, who, CallPublish(ch, bytes))
    ensures var (b', ok) := Publish(b, s.duration, s.now, ch, bytes);
      Publish(Opened(b), s.duration, s.now, ch, bytes) == (Opened(b'), ok)
  {
    hide Apply, Deliver, Unbounded;
    if ch < |b.channels| && |bytes| == b.channels[ch].size {
      var v := Apply(b.channels[ch].steps, s.duration, s.now, bytes).1;
      if v.Visible? { OpenedDeliver(b.routes, ch, Msg(v.time, b.published % TWO64, v.bytes)); }
    }
  }

  lemma OpenedAnswer(b: Bus, s: Slot, who: Caller, call: Call)
    requires !CrowdedAnswer(b, s, who, call)
    ensures var (b', reply) := Answer(b, s.duration, s.now, who, call);
      Answer(Opened(b), s.duration, s.now, who, call) == (Opened(b'), reply)
  {
    match call
    case CallTake(k) =>
      if k < |b.routes| && VisibleAt(b.routes[k], s.now) {
        assert Unbounded(b.routes[k := Popped(b.routes[k])])
               == Unbounded(b.routes)[k := Popped(Unbounded(b.routes)[k])];
      }
    case CallTakeAll =>
      OpenedMerge(b.routes, who.owner, s.now);
      OpenedDescribed(b.routes, MergeVisible(b.routes, who.owner, s.now).1);
    case CallPublish(ch, bytes) =>
      hide Publish, CrowdedAnswer, Opened;
      if ch in who.outputs { OpenedPublish(b, s, who, ch, bytes); }
    case CallReturn(_) =>
    case CallAbort =>
  }

  function OpenedOutcome(x: Outcome): Outcome {
    match x
    case Finished(b, memory) => Finished(Opened(b), memory)
    case Failed(b) => Failed(Opened(b))
  }

  lemma {:induction false} OpenedCallback(b: Bus, s: Slot, who: Caller, program: Program, memory: Memory,
                                          replies: seq<Reply>, patience: nat)
    requires !CrowdedCallback(b, s, who, program, memory, replies, patience)
    ensures Activate(Opened(b), s.duration, s.now, who, program, memory, replies, patience)
         == OpenedOutcome(Activate(b, s.duration, s.now, who, program, memory, replies, patience))
    decreases patience
  {
    hide Answer, CrowdedAnswer, Opened;
    var call := program(s.now, memory, replies);
    if call.CallReturn? {
    } else {
      var (b', reply) := Answer(b, s.duration, s.now, who, call);
      OpenedAnswer(b, s, who, call);
      if reply.Some? && patience > 0 {
        OpenedCallback(b', s, who, program, memory, replies + [reply.value], patience - 1);
      }
    }
  }

  lemma {:induction false} OpenedActs(st: Stage, acts: seq<Act>, s: Slot)
    requires !CrowdedActs(st, acts, s)
    ensures RunActs(OpenedStage(st), acts, s) == OpenedStage(RunActs(st, acts, s))
    decreases |acts|
  {
    hide Activate, CrowdedCallback, Opened;
    if acts == [] {
    } else {
      var n := |acts| - 1;
      var w := RunActs(st, acts[..n], s);
      OpenedActs(st, acts[..n], s);
      if !w.failed {
        var a := acts[n];
        OpenedCallback(w.bus, s, a.who, a.program, MemoryOf(w.memories, a.who.owner), [], a.patience);
      }
    }
  }

  lemma OpenedSight(r: Route, now: u64)
    ensures InSight(r.(capacity := None), now) == InSight(r, now)
  {
  }

  lemma OpenedOpening(st: Stage, s: Slot)
    requires !st.failed && Hushed(st.bus, s)
    ensures Opening(OpenedStage(st), s)
  {
    hide InSight, Silent;
    forall k | 0 <= k < |st.bus.routes|
      ensures InSight(Unbounded(st.bus.routes)[k], s.now) == InSight(st.bus.routes[k], s.now)
    {
      OpenedSight(st.bus.routes[k], s.now);
    }
  }

  lemma OpenedLike(b: Bus, c: Bus, voice: nat -> nat)
    ensures Like(Opened(b), Opened(c), voice) <==> Like(b, c, voice)
  {
    hide BareMsgs, SaidLike;
    if Like(b, c, voice) {
      forall k | 0 <= k < |b.routes| ensures RouteLike(Unbounded(b.routes)[k], Unbounded(c.routes)[k]) {
        assert RouteLike(b.routes[k], c.routes[k]);
      }
    }
    if Like(Opened(b), Opened(c), voice) {
      forall k | 0 <= k < |b.routes| ensures RouteLike(b.routes[k], c.routes[k]) {
        assert RouteLike(Unbounded(b.routes)[k], Unbounded(c.routes)[k]);
      }
    }
  }

  lemma OpenedOrdered(b: Bus, c: Bus, merging: set<nat>, now: u64)
    requires Ordered(b, c, merging, now)
    ensures Ordered(Opened(b), Opened(c), merging, now)
  {
    hide InSight, SamePair;
    forall k | 0 <= k < |b.routes|
      ensures InSight(Unbounded(b.routes)[k], now) == InSight(b.routes[k], now)
      ensures InSight(Unbounded(c.routes)[k], now) == InSight(c.routes[k], now)
    {
      OpenedSight(b.routes[k], now);
      OpenedSight(c.routes[k], now);
    }
  }

  // ----- Crowding costs messages or the run ------------------------------------------------------------------

  ghost predicate DropsGrow(a: seq<Route>, b: seq<Route>) {
    |a| == |b| && forall k :: 0 <= k < |a| ==> a[k].dropped <= b[k].dropped
  }

  ghost predicate LosesSome(a: seq<Route>, b: seq<Route>) {
    |a| == |b| && exists k :: 0 <= k < |a| && a[k].dropped < b[k].dropped
  }

  /** Drops only grow, and where `crowded` some message was lost. */
  ghost predicate Loses(a: seq<Route>, b: seq<Route>, crowded: bool) {
    DropsGrow(a, b) && (crowded ==> LosesSome(a, b))
    && (!crowded ==> forall k :: 0 <= k < |a| ==> a[k].dropped == b[k].dropped)
  }

  lemma LosesOn(a: seq<Route>, b: seq<Route>, c: seq<Route>, x: bool, y: bool)
    requires Loses(a, b, x) && Loses(b, c, y)
    ensures Loses(a, c, x || y)
  {
    if x {
      var k :| 0 <= k < |a| && a[k].dropped < b[k].dropped;
      assert a[k].dropped < c[k].dropped;
    } else if y {
      var k :| 0 <= k < |b| && b[k].dropped < c[k].dropped;
      assert a[k].dropped < c[k].dropped;
    }
  }

  lemma DeliverLoses(b: Bus, ch: nat, m: Msg)
    requires Deliver(b.routes, ch, m).1
    ensures Loses(b.routes, Deliver(b.routes, ch, m).0, Crowded(b, ch))
  {
    hide Deliver;
    forall k | 0 <= k < |b.routes|
      ensures Deliver(b.routes, ch, m).0[k].dropped
           == b.routes[k].dropped + if b.routes[k].channel == ch && Full(b.routes[k]) then 1 else 0
    {
      DeliverPushesEach(b.routes, ch, m, k);
    }
  }

  lemma KeepsDrops(a: seq<Route>, b: seq<Route>)
    requires |a| == |b| && forall k :: 0 <= k < |a| ==> a[k].dropped == b[k].dropped
    ensures Loses(a, b, false)
  {
  }

  lemma AnswerLoses(b: Bus, s: Slot, who: Caller, call: Call)
    requires Answer(b, s.duration, s.now, who, call).1.Some?
    ensures Loses(b.routes, Answer(b, s.duration, s.now, who, call).0.routes, CrowdedAnswer(b, s, who, call))
  {
    var b' := Answer(b, s.duration, s.now, who, call).0;
    match call
    case CallTake(k) => KeepsDrops(b.routes, b'.routes);
    case CallTakeAll =>
      hide MergeVisible;
      forall k | 0 <= k < |b.routes| ensures b'.routes[k].dropped == b.routes[k].dropped {
        MergeTakesReleasedPrefixes(b.routes, who.owner, s.now, k);
      }
      KeepsDrops(b.routes, b'.routes);
    case CallPublish(ch, bytes) =>
      hide Apply, Deliver, Loses;
      var v := Apply(b.channels[ch].steps, s.duration, s.now, bytes).1;
      if v.Visible? {
        DeliverLoses(b, ch, Msg(v.time, b.published % TWO64, v.bytes));
      } else {
        KeepsDrops(b.routes, b'.routes);
      }
  }

  lemma {:induction false} CallbackLoses(b: Bus, s: Slot, who: Caller, program: Program, memory: Memory,
                                         replies: seq<Reply>, patience: nat)
    requires Activate(b, s.duration, s.now, who, program, memory, replies, patience).Finished?
    ensures Loses(b.routes, Activate(b, s.duration, s.now, who, program, memory, replies, patience).bus.routes,
                  CrowdedCallback(b, s, who, program, memory, replies, patience))
    decreases patience
  {
    hide Answer, CrowdedAnswer, Loses;
    var call := program(s.now, memory, replies);
    if call.CallReturn? {
      KeepsDrops(b.routes, b.routes);
    } else {
      var (b', reply) := Answer(b, s.duration, s.now, who, call);
      AnswerLoses(b, s, who, call);
      var more := replies + [reply.value];
      CallbackLoses(b', s, who, program, memory, more, patience - 1);
      LosesOn(b.routes, b'.routes, Activate(b', s.duration, s.now, who, program, memory, more, patience - 1).bus.routes,
              CrowdedAnswer(b, s, who, call), CrowdedCallback(b', s, who, program, memory, more, patience - 1));
    }
  }

  lemma {:induction false} ActsLose(st: Stage, acts: seq<Act>, s: Slot)
    requires !RunActs(st, acts, s).failed
    ensures Loses(st.bus.routes, RunActs(st, acts, s).bus.routes, CrowdedActs(st, acts, s))
    decreases |acts|
  {
    hide Activate, CrowdedCallback, Loses;
    if acts == [] {
      KeepsDrops(st.bus.routes, st.bus.routes);
    } else {
      var n := |acts| - 1;
      var a := acts[n];
      var w := RunActs(st, acts[..n], s);
      FailureSticks(w, a, s);
      ActsLose(st, acts[..n], s);
      CallbackLoses(w.bus, s, a.who, a.program, MemoryOf(w.memories, a.who.owner), [], a.patience);
      LosesOn(st.bus.routes, w.bus.routes, RunActs(st, acts, s).bus.routes, CrowdedActs(st, acts[..n], s),
              CrowdedAct(w, a, s));
    }
  }

  // ----- Any two orders of one slot --------------------------------------------------------------------------

  /** Two openings of the same slot and two orders of its activations, each participant's in
      the same order. */
  ghost predicate Reordered(st: Stage, tt: Stage, acts: seq<Act>, acts': seq<Act>, merging: set<nat>, voice: nat -> nat,
                            s: Slot) {
    && !st.failed && !tt.failed && Hushed(st.bus, s) && Voiced(acts, voice, s) && Voiced(acts', voice, s)
    && Rearranged(acts, acts') && Mergers(acts, merging)
    && Like(st.bus, tt.bus, voice) && SameMemories(st.memories, tt.memories) && Ordered(st.bus, tt.bus, merging, s.now)
  }

  lemma LikeHushed(b: Bus, c: Bus, voice: nat -> nat, s: Slot)
    requires Like(b, c, voice) && Hushed(b, s)
    ensures Hushed(c, s)
  {
    hide InSight, SaidLike, Silent;
    forall k | 0 <= k < |c.routes| && c.routes[k].owner in s.parties && c.routes[k].channel in s.outs
           && c.routes[k].channel < |c.channels|
      ensures Muted(c.routes[k], c.channels[c.routes[k].channel], s)
    {
      assert RouteLike(b.routes[k], c.routes[k]);
      SightIsBare(b.routes[k], c.routes[k], s.now);
      assert |BareMsgs(InSight(b.routes[k], s.now))| == |BareMsgs(InSight(c.routes[k], s.now))|;
      assert |BareMsgs(b.routes[k].pending)| == |BareMsgs(c.routes[k].pending)|;
      assert Muted(b.routes[k], b.channels[b.routes[k].channel], s);
    }
  }

  lemma OpenedComparable(st: Stage, tt: Stage, acts: seq<Act>, acts': seq<Act>, merging: set<nat>, voice: nat -> nat,
                         s: Slot)
    requires Reordered(st, tt, acts, acts', merging, voice, s)
    ensures Comparable(OpenedStage(st), OpenedStage(tt), acts, acts', merging, voice, s)
  {
    hide Hushed, Voiced, Rearranged, Mergers, Like, SameMemories, Ordered, Opening, Opened;
    LikeHushed(st.bus, tt.bus, voice, s);
    OpenedOpening(st, s);
    OpenedOpening(tt, s);
    OpenedLike(st.bus, tt.bus, voice);
    OpenedOrdered(st.bus, tt.bus, merging, s.now);
  }

  lemma LostIsUnlike(b0: Bus, b: Bus, c0: Bus, c: Bus, voice: nat -> nat)
    requires Like(b0, c0, voice) && Loses(b0.routes, b.routes, false) && Loses(c0.routes, c.routes, true)
    ensures !Like(b, c, voice)
  {
    hide BareMsgs, SaidLike;
    var k :| 0 <= k < |c0.routes| && c0.routes[k].dropped < c.routes[k].dropped;
    assert RouteLike(b0.routes[k], c0.routes[k]);
    assert b.routes[k].dropped == b0.routes[k].dropped;
  }

  /** If one order neither fails nor crowds a queue, then any other order that keeps each
      participant's own ends alike, unfailed, exactly when it does not crowd a queue either. */
  lemma RoomyOrder(st: Stage, tt: Stage, acts: seq<Act>, acts': seq<Act>, merging: set<nat>, voice: nat -> nat, s: Slot)
    requires Reordered(st, tt, acts, acts', merging, voice, s)
    requires !RunActs(st, acts, s).failed && !CrowdedActs(st, acts, s)
    ensures var w, u := RunActs(st, acts, s), RunActs(tt, acts', s);
      !CrowdedActs(tt, acts', s) <==> !u.failed && Like(w.bus, u.bus, voice)
    ensures !CrowdedActs(tt, acts', s) ==> SameMemories(RunActs(st, acts, s).memories, RunActs(tt, acts', s).memories)
  {
    var w, u := RunActs(st, acts, s), RunActs(tt, acts', s);
    OpenedComparable(st, tt, acts, acts', merging, voice, s);
    OpenedActs(st, acts, s);
    hide RunActs, CrowdedActs, Like, Comparable, Opened, Loses, SameMemories;
    if !CrowdedActs(tt, acts', s) {
      OpenedActs(tt, acts', s);
      AnyOrder(OpenedStage(st), OpenedStage(tt), acts, acts', merging, voice, s);
      OpenedLike(w.bus, u.bus, voice);
    } else if !u.failed {
      ActsLose(st, acts, s);
      ActsLose(tt, acts', s);
      LostIsUnlike(st.bus, w.bus, tt.bus, u.bus, voice);
    }
  }
}
