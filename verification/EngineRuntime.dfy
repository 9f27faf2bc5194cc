// The engine as the object it is: vectors of channels, routes, tasks and replayers,
// updated step by step. Every method is proved against the functions of the model.

module EngineRuntime {
  import opened VirtualTime
  import opened Interceptor
  import opened DataPlane
  import opened Merge
  import opened Activation
  import opened Schedule
  import opened Engine
  import opened PlanRuntime
  import opened Setup

  /** What the engine keeps per channel beside its plan: what the manifest declares of it, its
      next sequence number and the positions of its routes, in subscription order. */
  datatype ChannelState = ChannelState(spec: ChannelSpec, nextSeq: nat, subscribers: seq<nat>)

  function SpecsOf(channels: seq<ChannelState>): (s: seq<ChannelSpec>)
    ensures |s| == |channels| && forall i :: 0 <= i < |s| ==> s[i] == channels[i].spec
  {
    seq(|channels|, i requires 0 <= i < |channels| => channels[i].spec)
  }

  /** Positions below `k` of the routes of a channel. */
  function Subscribed(routes: seq<SubscriberRoute>, ch: nat, k: nat): seq<nat>
    requires k <= |routes|
  {
    if k == 0 then [] else Subscribed(routes, ch, k - 1) + if routes[k - 1].channel == ch then [k - 1] else []
  }

  /** Exactly the positions below `k` of the routes of a channel. */
  ghost predicate Positions(s: seq<nat>, routes: seq<SubscriberRoute>, ch: nat, k: nat) {
    k <= |routes| && forall i :: i in s <==> 0 <= i < k && routes[i].channel == ch
  }

  ghost predicate Ascending(s: seq<nat>) {
    forall a, b :: 0 <= a < b < |s| ==> s[a] < s[b]
  }

  lemma NextPosition(s: seq<nat>, routes: seq<SubscriberRoute>, ch: nat, k: nat)
    requires Positions(s, routes, ch, k) && Ascending(s) && k < |routes| && routes[k].channel == ch
    ensures Positions(s + [k], routes, ch, k + 1) && Ascending(s + [k])
  {
    assert forall a :: 0 <= a < |s| ==> s[a] in s;
  }

  lemma NoNextPosition(s: seq<nat>, routes: seq<SubscriberRoute>, ch: nat, k: nat)
    requires Positions(s, routes, ch, k) && k < |routes| && routes[k].channel != ch
    ensures Positions(s, routes, ch, k + 1)
  {
  }

  lemma {:induction false} SubscribedInOrder(routes: seq<SubscriberRoute>, ch: nat, k: nat)
    requires k <= |routes|
    ensures Positions(Subscribed(routes, ch, k), routes, ch, k) && Ascending(Subscribed(routes, ch, k))
    decreases k
  {
    if k == 0 {
    } else {
      hide Positions, Ascending;
      SubscribedInOrder(routes, ch, k - 1);
      var s := Subscribed(routes, ch, k - 1);
      if routes[k - 1].channel == ch {
        NextPosition(s, routes, ch, k - 1);
      } else {
        assert s + [] == s;
        NoNextPosition(s, routes, ch, k - 1);
      }
    }
  }

  lemma {:induction false} SubscribedPrefix(routes: seq<SubscriberRoute>, more: seq<SubscriberRoute>, ch: nat, k: nat)
    requires k <= |routes|
    ensures Subscribed(routes + more, ch, k) == Subscribed(routes, ch, k)
    decreases k
  {
    if k == 0 {
    } else {
      SubscribedPrefix(routes, more, ch, k - 1);
    }
  }

  /** Every channel lists its own routes. */
  ghost predicate Indexed(channels: seq<ChannelState>, routes: seq<SubscriberRoute>) {
    forall c :: 0 <= c < |channels| ==> channels[c].subscribers == Subscribed(routes, c, |routes|)
  }

  lemma IndexedNext(channels: seq<ChannelState>, routes: seq<SubscriberRoute>, route: SubscriberRoute)
    requires Indexed(channels, routes) && route.channel < |channels|
    ensures var c := channels[route.channel];
      Indexed(channels[route.channel := c.(subscribers := c.subscribers + [|routes|])], routes + [route])
  {
    forall c | 0 <= c < |channels|
      ensures Subscribed(routes + [route], c, |routes|) == Subscribed(routes, c, |routes|)
    {
      SubscribedPrefix(routes, [route], c, |routes|);
    }
  }

  // ----- Delivery, in any route list -----------------------------------------------------------------

  /** The routes of the channel below `k` have the message; the others are as they were. */
  ghost predicate GivenBelow(before: seq<Route>, after: seq<Route>, ch: nat, m: Msg, k: nat) {
    && |after| == |before|
    && forall i :: 0 <= i < |before| ==>
         after[i] == if i < k && before[i].channel == ch then Pushed(before[i], m) else before[i]
  }

  ghost predicate RoomBelow(routes: seq<Route>, ch: nat, k: nat) {
    forall i :: 0 <= i < |routes| && i < k && routes[i].channel == ch ==> !Overflows(routes[i])
  }

  lemma {:induction false} DeliverGives(before: seq<Route>, after: seq<Route>, ch: nat, m: Msg, k: nat)
    requires GivenBelow(before, after, ch, m, k) && RoomBelow(before, ch, k) && k <= |before|
    requires k < |before| ==> before[k].channel == ch && Overflows(before[k])
    ensures Deliver(before, ch, m) == (after, k == |before|)
    decreases |before|
  {
    if before == [] || k == 0 {
      assert after == before;
    } else {
      assert !(before[0].channel == ch && Overflows(before[0]));
      DeliverGives(before[1..], after[1..], ch, m, k - 1);
      assert after == [after[0]] + after[1..];
    }
  }

  /** The positions of a channel's routes, in order. */
  ghost predicate Covers(routes: seq<Route>, ch: nat, s: seq<nat>) {
    && (forall i :: i in s <==> 0 <= i < |routes| && routes[i].channel == ch)
    && (forall a, b :: 0 <= a < b < |s| ==> s[a] < s[b])
  }

  /** How far delivery has got after `n` subscribers. */
  function Reached(s: seq<nat>, n: nat, total: nat): nat {
    if n < |s| then s[n] else total
  }

  lemma NoneGiven(before: seq<Route>, ch: nat, m: Msg, s: seq<nat>)
    requires Covers(before, ch, s)
    ensures GivenBelow(before, before, ch, m, Reached(s, 0, |before|)) && RoomBelow(before, ch, Reached(s, 0, |before|))
  {
    forall i | 0 <= i < |before| && i < Reached(s, 0, |before|) ensures before[i].channel != ch {
      if before[i].channel == ch { NotSkipped(before, ch, s, 0, i); }
    }
  }

  /** A route of the channel before the n-th subscriber is an earlier subscriber. */
  lemma NotSkipped(before: seq<Route>, ch: nat, s: seq<nat>, n: nat, i: nat)
    requires Covers(before, ch, s) && n <= |s| && i < |before| && before[i].channel == ch
    requires i < Reached(s, n, |before|)
    ensures n > 0 && i <= s[n - 1]
  {
    var a :| 0 <= a < |s| && s[a] == i;
    assert a < n;
    if a < n - 1 { assert s[a] < s[n - 1]; }
  }

  lemma Unmoved(before: seq<Route>, states: seq<Route>, ch: nat, m: Msg, k: nat)
    requires GivenBelow(before, states, ch, m, k) && k < |before|
    ensures |states| == |before| && states[k] == before[k]
  {
  }

  lemma OneGiven(before: seq<Route>, states: seq<Route>, ch: nat, m: Msg, s: seq<nat>, n: nat)
    requires Covers(before, ch, s) && n < |s| && s[n] < |before|
    requires GivenBelow(before, states, ch, m, s[n]) && RoomBelow(before, ch, s[n]) && !Overflows(before[s[n]])
    ensures states[s[n]] == before[s[n]]
    ensures var next := Reached(s, n + 1, |before|);
      && GivenBelow(before, states[s[n] := Pushed(states[s[n]], m)], ch, m, next)
      && RoomBelow(before, ch, next)
  {
    hide Pushed, Overflows;
    assert s[n] in s;
    var next := Reached(s, n + 1, |before|);
    assert s[n] < next by { if n + 1 < |s| { assert s[n] < s[n + 1]; } }
    forall i | 0 <= i < |before| && i < next && before[i].channel == ch ensures i <= s[n] {
      NotSkipped(before, ch, s, n + 1, i);
    }
  }

  // ----- The replayer's cursor --------------------------------------------------------------------------

  lemma PublishDueTurns(b: Bus, r: Replayer, now: u64, duration: u64)
    requires r.cursor <= |r.stored|
    ensures var x := Engine.PublishDue(b, r, now, duration);
      if r.cursor == |r.stored| || r.stored[r.cursor].time != now then x == ReplayResult(b, r, true)
      else
        var (after, ok) := DataPlane.Publish(b, duration, now, r.stored[r.cursor].channel, r.stored[r.cursor].bytes);
        x == if ok then Engine.PublishDue(after, Skip(r.(cursor := r.cursor + 1), duration), now, duration)
             else ReplayResult(after, r, false)
  {
    hide DataPlane.Publish;
  }

  class RecordedSource {
    const owner: nat
    const channels: set<nat>
    const stored: seq<Stored>
    const priority: Option<int>
    const index: nat
    var cursor: nat

    ghost predicate Valid()
      reads this
      ensures Valid() <==> cursor <= |stored|
    {
      cursor <= |stored|
    }

    function State(): (r: Replayer)
      reads this
      ensures r.cursor == cursor && r.stored == stored
    {
      Replayer(owner, channels, stored, priority, index, cursor)
    }

    /** Opening a Recording moves to the first message to replay. */
    constructor (owner: nat, channels: set<nat>, stored: seq<Stored>, priority: Option<int>, index: nat, duration: u64)
      ensures Valid()
      ensures State() == Skip(Replayer(owner, channels, stored, priority, index, 0), duration)
    {
      this.owner, this.channels, this.stored, this.priority, this.index := owner, channels, stored, priority, index;
      cursor := 0;
      new;
      SkipUnreplayed(duration);
    }

    method SkipUnreplayed(duration: u64)
      requires Valid()
      modifies this
      ensures Valid() && State() == Skip(old(State()), duration)
    {
      while cursor < |stored|
        invariant cursor <= |stored|
        invariant Skip(State(), duration) == Skip(old(State()), duration)
        decreases |stored| - cursor
      {
        if stored[cursor].channel in channels && stored[cursor].time < duration { return; }
        cursor := cursor + 1;
      }
    }

    method NextPublishNs() returns (t: u64)
      ensures t == NextPublish(State())
    {
      if cursor < |stored| { return stored[cursor].time; }
      return MAX64;
    }

    /** `publish_due`: publish the run of messages stamped now, one at a time. */
    method PublishDue(bus: MessageBus) returns (ok: bool)
      requires Valid() && bus.Valid()
      modifies this, bus, bus.plans, bus.routes
      ensures Valid() && bus.Valid() && unchanged(bus`plans, bus`routes, bus`now)
      ensures Engine.PublishDue(old(bus.TheBus()), old(State()), bus.now, bus.duration)
           == ReplayResult(bus.TheBus(), State(), ok)
    {
      hide MessageBus.Valid, MessageBus.TheBus, DataPlane.Publish, Engine.PublishDue, Skip;
      PublishDueTurns(bus.TheBus(), State(), bus.now, bus.duration);
      while cursor < |stored| && stored[cursor].time == bus.now
        invariant Valid() && bus.Valid() && unchanged(bus`plans, bus`routes, bus`now)
        invariant Engine.PublishDue(old(bus.TheBus()), old(State()), bus.now, bus.duration)
               == Engine.PublishDue(bus.TheBus(), State(), bus.now, bus.duration)
        decreases |stored| - cursor
      {
        var m := stored[cursor];
        PublishDueTurns(bus.TheBus(), State(), bus.now, bus.duration);
        ok := bus.Publish(m.channel, m.bytes);
        if !ok { return; }
        cursor := cursor + 1;
        SkipUnreplayed(bus.duration);
      }
      PublishDueTurns(bus.TheBus(), State(), bus.now, bus.duration);
      return true;
    }
  }

  // ----- The data plane ------------------------------------------------------------------------------------------

  ghost function StatesOf(routes: seq<SubscriberRoute>): (s: seq<Route>)
    reads routes
    ensures |s| == |routes| && forall i :: 0 <= i < |s| ==> s[i] == routes[i].State()
  {
    seq(|routes|, i requires 0 <= i < |routes| reads routes => routes[i].State())
  }

  ghost function ChannelsOf(channels: seq<ChannelState>, plans: seq<InterceptorPlan>): (s: seq<Channel>)
    reads plans
    requires |plans| == |channels|
    ensures |s| == |channels|
    ensures forall i :: 0 <= i < |s| ==> s[i] == Channel(channels[i].spec.size, plans[i].steps, channels[i].nextSeq)
  {
    seq(|channels|, i requires 0 <= i < |channels| == |plans| reads plans =>
      Channel(channels[i].spec.size, plans[i].steps, channels[i].nextSeq))
  }

  lemma PublishRefused(b: Bus, duration: u64, now: u64, ch: nat, bytes: seq<byte>)
    requires ch >= |b.channels| || |bytes| != b.channels[ch].size
    ensures DataPlane.Publish(b, duration, now, ch, bytes) == (b, false)
  {
  }

  /** The bus after a plan has seen a message. */
  ghost function Filtered(b: Bus, duration: u64, now: u64, ch: nat, bytes: seq<byte>): Bus
    requires ch < |b.channels|
  {
    var c := b.channels[ch];
    b.(channels := b.channels[ch := c.(steps := Interceptor.Apply(c.steps, duration, now, bytes).0)])
  }

  /** The bus after a message was numbered, recorded and delivered. */
  ghost function Delivery(b: Bus, ch: nat, m: Msg): Bus
    requires ch < |b.channels|
  {
    var c := b.channels[ch];
    Bus(b.channels[ch := c.(nextSeq := (c.nextSeq + 1) % TWO32)], Deliver(b.routes, ch, m).0,
        b.recording + [Record(ch, c.nextSeq, m)], b.published)
  }

  /** `Publish` in the steps the engine takes. */
  lemma PublishIntercepted(b: Bus, duration: u64, now: u64, ch: nat, bytes: seq<byte>, answer: PlanAnswer,
                           payload: seq<byte>)
    requires ch < |b.channels| && |bytes| == b.channels[ch].size
    requires var verdict := Interceptor.Apply(b.channels[ch].steps, duration, now, bytes).1;
      Means(answer, verdict) && (verdict.Visible? ==> payload == verdict.bytes)
    ensures var r, seen := DataPlane.Publish(b, duration, now, ch, bytes), Filtered(b, duration, now, ch, bytes);
      && |seen.channels| == |b.channels|
      && (answer.Threw? ==> r == (seen, false))
      && (answer.Answered? && answer.suppressed ==> r == (seen.(published := b.published + 1), true))
      && (answer.Answered? && !answer.suppressed ==>
            var m, next := Msg(answer.visibleNs, b.published % TWO64, payload), seen.(published := b.published + 1);
            r == (Delivery(next, ch, m), Deliver(next.routes, ch, m).1))
  {
    hide Interceptor.Apply, Deliver;
    var c := b.channels[ch];
    var steps := Interceptor.Apply(c.steps, duration, now, bytes).0;
    assert b.channels[ch := c.(steps := steps)][ch := c.(steps := steps, nextSeq := (c.nextSeq + 1) % TWO32)]
        == b.channels[ch := c.(steps := steps, nextSeq := (c.nextSeq + 1) % TWO32)];
  }

  class MessageBus {
    const duration: u64
    var channels: seq<ChannelState>
    var plans: seq<InterceptorPlan>
    var routes: seq<SubscriberRoute>
    var now: u64
    var globalSeq: u64
    var recording: seq<Record>
    ghost var published: nat

    ghost function RouteStates(): (s: seq<Route>)
      reads this`routes, routes
      ensures |s| == |routes| && forall i :: 0 <= i < |s| ==> s[i] == routes[i].State()
    {
      StatesOf(routes)
    }

    ghost function ChannelStates(): (s: seq<Channel>)
      reads this`channels, this`plans, plans
      requires |plans| == |channels|
      ensures |s| == |channels|
      ensures forall i :: 0 <= i < |s| ==> s[i] == Channel(channels[i].spec.size, plans[i].steps, channels[i].nextSeq)
    {
      ChannelsOf(channels, plans)
    }

    /** What the manifest declares of the channels. */
    ghost function Specs(): (s: seq<ChannelSpec>)
      reads this`channels
      ensures |s| == |channels| && forall i :: 0 <= i < |s| ==> s[i] == channels[i].spec
    {
      SpecsOf(channels)
    }

    ghost predicate Valid()
      reads this
      ensures Valid() ==> |plans| == |channels| && globalSeq == published % TWO64
    {
      && |plans| == |channels|
      && (forall i, j :: 0 <= i < j < |plans| ==> plans[i] != plans[j])
      && (forall i :: 0 <= i < |plans| ==> plans[i].duration == duration)
      && (forall i, j :: 0 <= i < j < |routes| ==> routes[i] != routes[j])
      && Indexed(channels, routes)
      && globalSeq == published % TWO64
    }

    ghost function TheBus(): (b: Bus)
      reads this, plans, routes
      requires |plans| == |channels|
      ensures |b.channels| == |channels| && b.routes == RouteStates() && b.published == published
      ensures forall c :: 0 <= c < |channels| ==> b.channels[c].size == channels[c].spec.size
    {
      Bus(ChannelStates(), RouteStates(), recording, published)
    }

    // ----- Setup -------------------------------------------------------------------------------------

    /** Every Run works on its own copy of the compiled plans, counting from zero. */
    constructor (duration: u64, specs: seq<ChannelSpec>, compiled: seq<InterceptorPlan>)
      requires |specs| == |compiled| && forall c :: 0 <= c < |compiled| ==> compiled[c].duration == duration
      ensures Valid() && this.duration == duration && fresh(plans)
      ensures routes == [] && recording == [] && published == 0 && now == 0
      ensures |channels| == |specs|
      ensures forall c :: 0 <= c < |specs| ==>
        channels[c] == ChannelState(specs[c], 0, []) && plans[c].steps == Reset(compiled[c].steps)
    {
      this.duration := duration;
      channels, plans, routes, now, globalSeq, recording, published := [], [], [], 0, 0, [], 0;
      new;
      for c := 0 to |specs|
        invariant |channels| == |plans| == c && fresh(plans)
        invariant forall i, j :: 0 <= i < j < |plans| ==> plans[i] != plans[j]
        invariant forall i :: 0 <= i < c ==> plans[i].duration == duration
        invariant forall i :: 0 <= i < c ==>
          channels[i] == ChannelState(specs[i], 0, []) && plans[i].steps == Reset(compiled[i].steps)
        invariant routes == [] && recording == [] && published == 0 && globalSeq == 0 && now == 0
      {
        var plan := new InterceptorPlan.Copy(compiled[c]);
        plans := plans + [plan];
        channels := channels + [ChannelState(specs[c], 0, [])];
      }
    }

    /** `subscribe`: false where the source refuses an unknown channel. The route takes the
        latency its channel declares. */
    method Subscribe(owner: nat, route: RouteSpec) returns (ok: bool)
      requires Valid()
      modifies this`routes, this`channels
      ensures Valid() && (ok <==> route.channel < |channels|) && Specs() == old(Specs())
      ensures forall c :: 0 <= c < |channels| ==> channels[c].nextSeq == old(channels)[c].nextSeq
      ensures forall x :: x in routes ==> x in old(routes) || fresh(x)
      ensures !ok ==> TheBus() == old(TheBus())
      ensures ok ==> TheBus() == old(TheBus()).(routes := old(RouteStates()) + [EmptyRoute(route, owner, Specs())])
    {
      var ch := route.channel;
      if ch >= |channels| { return false; }
      var added := new SubscriberRoute(owner, ch, channels[ch].spec.latency, route.capacity, route.overflow);
      Enlist(added);
      return true;
    }

    /** The new route is the last of all and the last of its channel. */
    method Enlist(route: SubscriberRoute)
      requires Valid() && route !in routes && route.channel < |channels|
      modifies this`routes, this`channels
      ensures Valid() && routes == old(routes) + [route] && Specs() == old(Specs())
      ensures forall c :: 0 <= c < |channels| ==> channels[c].nextSeq == old(channels)[c].nextSeq
      ensures TheBus() == old(TheBus()).(routes := old(RouteStates()) + [route.State()])
    {
      hide Indexed;
      ghost var before := ChannelStates();
      IndexedNext(channels, routes, route);
      var ch := route.channel;
      channels := channels[ch := channels[ch].(subscribers := channels[ch].subscribers + [|routes|])];
      routes := routes + [route];
      assert ChannelStates() == before;
    }

    // ----- One message -----------------------------------------------------------------------------

    method SetNow(t: u64)
      requires Valid()
      modifies this`now
      ensures now == t && Valid() && TheBus() == old(TheBus())
    {
      now := t;
    }

    /** `take`. */
    method Take(k: nat) returns (m: Option<Msg>)
      requires Valid() && k < |routes|
      modifies routes
      ensures Valid() && (TheBus(), m) == DataPlane.Take(old(TheBus()), now, k)
    {
      ghost var before := RouteStates();
      var visible := routes[k].VisibleAt(now);
      if !visible { return None; }
      var front := routes[k].Pop();
      assert RouteStates() == before[k := Popped(before[k])];
      assert ChannelStates() == old(ChannelStates());
      return Some(front);
    }

    lemma RoutesAreCovered(ch: nat)
      requires Valid() && ch < |channels|
      ensures Covers(RouteStates(), ch, channels[ch].subscribers)
      ensures forall i :: i in channels[ch].subscribers ==> i < |routes|
      ensures forall i, j :: 0 <= i < j < |routes| ==> routes[i] != routes[j]
    {
      SubscribedInOrder(routes, ch, |routes|);
    }

    lemma PlansAreDistinct()
      requires Valid()
      ensures forall i, j :: 0 <= i < j < |plans| ==> plans[i] != plans[j]
      ensures forall i :: 0 <= i < |plans| ==> plans[i].duration == duration
    {
    }

    /** The last part of `publish`: one push per subscriber, in order. */
    method DeliverTo(ch: nat, m: Msg) returns (ok: bool)
      requires Valid() && ch < |channels|
      modifies routes
      ensures Valid()
      ensures TheBus() == old(TheBus()).(routes := Deliver(old(RouteStates()), ch, m).0)
      ensures ok == Deliver(old(RouteStates()), ch, m).1
    {
      hide Valid, GivenBelow, RoomBelow, Overflows, Pushed, Covers, Deliver;
      var subscribers := channels[ch].subscribers;
      ghost var before := RouteStates();
      RoutesAreCovered(ch);
      NoneGiven(before, ch, m, subscribers);
      for n := 0 to |subscribers|
        invariant Valid() && routes == old(routes)
        invariant GivenBelow(before, RouteStates(), ch, m, Reached(subscribers, n, |before|))
        invariant RoomBelow(before, ch, Reached(subscribers, n, |before|))
      {
        var k := subscribers[n];
        assert k in subscribers;
        ghost var states := RouteStates();
        var result := routes[k].Push(m);
        Unmoved(before, states, ch, m, k);
        if result.OverflowFailure? {
          assert RouteStates() == states;
          DeliverGives(before, RouteStates(), ch, m, k);
          return false;
        }
        OneGiven(before, states, ch, m, subscribers, n);
        assert RouteStates() == states[k := Pushed(states[k], m)];
      }
      DeliverGives(before, RouteStates(), ch, m, |routes|);
      return true;
    }

    /** The copy `publish` makes of the message goes through the channel's plan. */
    method Intercept(ch: nat, bytes: seq<byte>) returns (answer: PlanAnswer, payload: seq<byte>)
      requires Valid() && ch < |channels|
      modifies plans
      ensures Valid()
      ensures TheBus() == Filtered(old(TheBus()), duration, now, ch, bytes)
      ensures var verdict := Interceptor.Apply(old(TheBus()).channels[ch].steps, duration, now, bytes).1;
        Means(answer, verdict) && (verdict.Visible? ==> payload == verdict.bytes)
      ensures unchanged(`plans, `routes, `now) && |channels| == |old(channels)|
    {
      hide Interceptor.Apply, Valid, RouteStates;
      PlansAreDistinct();
      ghost var before := ChannelStates();
      var copy := new byte[|bytes|](i requires 0 <= i < |bytes| => bytes[i]);
      assert copy[..] == bytes;
      answer := plans[ch].Apply(now, copy);
      payload := copy[..];
      assert ChannelStates() == before[ch := before[ch].(steps := plans[ch].steps)];
    }

    /** Write a message to the Recording and count it. */
    method RecordMessage(ch: nat, m: Msg)
      requires Valid() && ch < |channels|
      modifies this`recording, this`channels
      ensures Valid() && |channels| == |old(channels)|
      ensures var b := old(TheBus());
        var c := b.channels[ch];
        TheBus() == b.(channels := b.channels[ch := c.(nextSeq := (c.nextSeq + 1) % TWO32)],
                       recording := b.recording + [Record(ch, c.nextSeq, m)])
    {
      hide Subscribed, RouteStates;
      ghost var before := ChannelStates();
      recording := recording + [Record(ch, channels[ch].nextSeq, m)];
      channels := channels[ch := channels[ch].(nextSeq := (channels[ch].nextSeq + 1) % TWO32)];
      assert ChannelStates() == before[ch := before[ch].(nextSeq := (before[ch].nextSeq + 1) % TWO32)];
    }

    /** A message that survived: recorded, numbered and delivered. */
    method AcceptMessage(ch: nat, m: Msg) returns (ok: bool)
      requires Valid() && ch < |channels|
      modifies this`recording, this`channels, routes
      ensures Valid()
      ensures TheBus() == Delivery(old(TheBus()), ch, m)
      ensures ok == Deliver(old(TheBus()).routes, ch, m).1
      ensures unchanged(`plans, `routes, `now)
    {
      hide Valid, TheBus, Deliver;
      RecordMessage(ch, m);
      ok := DeliverTo(ch, m);
    }

    method NextSeq() returns (seqNo: u64)
      requires Valid()
      modifies this`globalSeq, this`published
      ensures Valid() && seqNo == old(published) % TWO64
      ensures TheBus() == old(TheBus()).(published := old(published) + 1)
      ensures unchanged(`plans, `routes, `now) && |channels| == |old(channels)|
    {
      seqNo := globalSeq;
      globalSeq, published := (globalSeq + 1) % TWO64, published + 1;
    }

    /** `publish`: the choke point every message goes through. */
    method Publish(ch: nat, bytes: seq<byte>) returns (ok: bool)
      requires Valid()
      modifies this, plans, routes
      ensures Valid() && unchanged(`plans, `routes, `now)
      ensures (TheBus(), ok) == DataPlane.Publish(old(TheBus()), duration, now, ch, bytes)
    {
      hide *;
      ghost var b := TheBus();
      if ch >= |channels| || |bytes| != channels[ch].spec.size {
        PublishRefused(b, duration, now, ch, bytes);
        return false;
      }
      var answer, payload := Intercept(ch, bytes);
      PublishIntercepted(b, duration, now, ch, bytes, answer, payload);
      if answer.Threw? { return false; }
      var seqNo := NextSeq();
      if answer.suppressed { return true; }
      ok := AcceptMessage(ch, Msg(answer.visibleNs, seqNo, payload));
    }

    // ----- A Step's inputs ------------------------------------------------------------------------

    /** The scan for the visible front with the smallest sequence number. */
    method FindBest(owner: nat) returns (best: Option<nat>)
      requires Valid()
      ensures best == Best(RouteStates(), owner, now, |routes|)
    {
      hide Valid, Best, DataPlane.VisibleAt;
      best := None;
      ghost var states := RouteStates();
      BestStarts(states, owner, now);
      for k := 0 to |routes|
        invariant best == Best(states, owner, now, k)
      {
        BestTurns(states, owner, now, k);
        if routes[k].owner == owner {
          var visible := routes[k].VisibleAt(now);
          if visible && (best.None? || routes[k].pending[0].globalSeq < routes[best.value].pending[0].globalSeq) {
            best := Some(k);
          }
        }
      }
    }

    /** The merge a Process participant's Step opens with. */
    method MergeInputs(owner: nat) returns (inputs: seq<Input>)
      requires Valid()
      modifies routes
      ensures Valid()
      ensures TheBus() == old(TheBus()).(routes := MergeVisible(old(RouteStates()), owner, now).0)
      ensures inputs == MergeVisible(old(RouteStates()), owner, now).1
    {
      hide Best, VisibleAt, MergeVisible;
      inputs := [];
      MergeStarts(RouteStates(), owner, now);
      while true
        invariant Valid()
        invariant Merging(old(RouteStates()), inputs, RouteStates(), owner, now)
        decreases Backlog(RouteStates())
      {
        var best := FindBest(owner);
        ghost var states := RouteStates();
        MergeTurns(old(RouteStates()), inputs, states, owner, now);
        if best.None? { break; }
        var m := routes[best.value].Pop();
        assert RouteStates() == states[best.value := Popped(states[best.value])];
        inputs := inputs + [Input(best.value, m)];
      }
    }

    method Describe(inputs: seq<Input>, ghost states: seq<Route>) returns (r: seq<StepInput>)
      requires |states| == |routes| && forall i :: 0 <= i < |routes| ==> states[i].channel == routes[i].channel
      ensures r == Described(states, inputs)
    {
      r := [];
      var i := |inputs|;
      while i > 0
        invariant 0 <= i <= |inputs|
        invariant r == Described(states, inputs[i..])
      {
        i := i - 1;
        var x := inputs[i];
        assert inputs[i..] == [x] + inputs[i + 1..] && inputs[i..][1..] == inputs[i + 1..];
        r := [StepInput(if x.route < |routes| then routes[x.route].channel else 0, x.msg.time, x.msg.bytes)] + r;
      }
    }

    // ----- Callbacks ----------------------------------------------------------------------------------

    /** What the engine answers to one call of a participant. */
    method AnswerCall(who: Caller, call: Call) returns (reply: Option<Reply>)
      requires Valid()
      modifies this, plans, routes
      ensures Valid() && unchanged(`plans, `routes, `now)
      ensures (TheBus(), reply) == Answer(old(TheBus()), duration, now, who, call)
    {
      hide Valid, TheBus, DataPlane.Publish, DataPlane.Take, MergeVisible, Described;
      match call
      case CallTake(k) =>
        if k >= |routes| || routes[k].owner != who.owner { return None; }
        var m := Take(k);
        reply := Some(if m.Some? then Taken(m.value.time, m.value.bytes) else NothingVisible);
      case CallTakeAll =>
        ghost var states := RouteStates();
        var inputs := MergeInputs(who.owner);
        var described := Describe(inputs, states);
        reply := Some(Inputs(described));
      case CallPublish(ch, bytes) =>
        if ch !in who.outputs { return None; }
        var ok := Publish(ch, bytes);
        reply := if ok then Some(Published) else None;
      case CallReturn(_) => reply := None;
      case CallAbort => reply := None;
    }

    /** One callback: the participant calls, the engine answers, until it returns. */
    method Callback(who: Caller, program: Program, memory: Memory, patience: nat) returns (after: Option<Memory>)
      requires Valid()
      modifies this, plans, routes
      ensures Valid() && unchanged(`plans, `routes, `now)
      ensures var out := Activate(old(TheBus()), duration, now, who, program, memory, [], patience);
        TheBus() == out.bus && after == if out.Finished? then Some(out.memory) else None
    {
      hide Valid, TheBus, Answer;
      var replies, left := [], patience;
      while true
        invariant Valid() && unchanged(`plans, `routes, `now)
        invariant Activate(old(TheBus()), duration, now, who, program, memory, [], patience)
               == Activate(TheBus(), duration, now, who, program, memory, replies, left)
        decreases left
      {
        var call := program(now, memory, replies);
        if call.CallReturn? { return Some(call.memory); }
        var reply := AnswerCall(who, call);
        if reply.None? || left == 0 { return None; }
        replies, left := replies + [reply.value], left - 1;
      }
    }
  }

  lemma BestStarts(states: seq<Route>, owner: nat, now: u64)
    ensures Best(states, owner, now, 0) == None
  {
  }

  lemma BestTurns(states: seq<Route>, owner: nat, now: u64, k: nat)
    requires k < |states|
    ensures var best := Best(states, owner, now, k);
      && (best.Some? ==> best.value < |states| && states[best.value].pending != [])
      && (DataPlane.VisibleAt(states[k], now) ==> states[k].pending != [])
      && Best(states, owner, now, k + 1)
         == if states[k].owner == owner && DataPlane.VisibleAt(states[k], now)
               && (best.None? || states[k].pending[0].globalSeq < states[best.value].pending[0].globalSeq)
            then Some(k) else best
  {
  }

  /** The merge with some inputs already taken. */
  ghost predicate Merging(before: seq<Route>, inputs: seq<Input>, states: seq<Route>, owner: nat, now: u64) {
    var (routes, rest) := MergeVisible(states, owner, now);
    MergeVisible(before, owner, now) == (routes, inputs + rest)
  }

  lemma MergeStarts(states: seq<Route>, owner: nat, now: u64)
    ensures Merging(states, [], states, owner, now)
  {
    assert [] + MergeVisible(states, owner, now).1 == MergeVisible(states, owner, now).1;
  }

  lemma MergeTurns(before: seq<Route>, inputs: seq<Input>, states: seq<Route>, owner: nat, now: u64)
    requires Merging(before, inputs, states, owner, now)
    ensures var best := Best(states, owner, now, |states|);
      match best
      case None => MergeVisible(before, owner, now) == (states, inputs)
      case Some(k) =>
        && states[k].pending != []
        && Backlog(states[k := Popped(states[k])]) < Backlog(states)
        && Merging(before, inputs + [Input(k, states[k].pending[0])], states[k := Popped(states[k])], owner, now)
  {
    match Best(states, owner, now, |states|)
    case None => assert inputs + [] == inputs;
    case Some(k) =>
      PopShrinksBacklog(states, k);
      var first := Input(k, states[k].pending[0]);
      var rest := MergeVisible(states[k := Popped(states[k])], owner, now).1;
      assert inputs + ([first] + rest) == inputs + [first] + rest;
  }
}
