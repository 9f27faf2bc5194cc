// Why the condition on latencies is needed: over a latency-zero route that carries messages at
// once two participants can tell in which order they ran.

module Feedthrough {
  import opened VirtualTime
  import opened Interceptor
  import opened DataPlane
  import opened Activation
  import opened Sight
  import opened Moves
  import opened SlotOrder

  // ----- A speaker -------------------------------------------------------------------------------------

  /** Publishes the same message `total` times. */
  function Speaker(ch: nat, bytes: seq<byte>, total: nat): Program {
    (now: u64, memory: Memory, replies: seq<Reply>) =>
      if |replies| < total then CallPublish(ch, bytes) else CallReturn(memory)
  }

  /** A message that is not dropped is visible at once. */
  predicate Prompt(steps: seq<Step>, bytes: seq<byte>, s: Slot) {
    TotalDelay(steps, s.now) == 0 && s.now < s.duration && OverridePass(steps, s.now, bytes).Some?
  }

  /** Everything waiting on the route can be taken now. */
  predicate Ripe(r: Route, now: u64) {
    r.latency == Some(0) && forall i :: 0 <= i < |r.pending| ==> r.pending[i].time <= now
  }

  lemma PromptStays(steps: seq<Step>, bytes: seq<byte>, s: Slot)
    requires Prompt(steps, bytes, s)
    ensures Prompt(DropPass(steps, s.now).0, bytes, s)
    ensures var (after, v) := Apply(steps, s.duration, s.now, bytes);
      && after == DropPass(steps, s.now).0
      && if DropPass(steps, s.now).1 then v.Suppressed? else v.Visible? && v.time == s.now
  {
    ApplyMeaning(steps, s.duration, s.now, bytes);
    DropPassKeepsShape(steps, s.now);
    ShapeDecides(steps, DropPass(steps, s.now).0, s.now, bytes);
  }

  /** The bus after one message: the plan moves on, and the route got it unless it was dropped. */
  lemma SpeakOnce(b: Bus, ch: nat, bytes: seq<byte>, s: Slot, k: nat)
    requires Open(b) && ch < |b.channels| && |bytes| == b.channels[ch].size && Prompt(b.channels[ch].steps, bytes, s)
    requires k < |b.routes| && b.routes[k].channel == ch && Ripe(b.routes[k], s.now)
    ensures var (b', ok) := Publish(b, s.duration, s.now, ch, bytes);
      && ok && Open(b') && |b'.channels| == |b.channels| && |b'.routes| == |b.routes|
      && b'.channels[ch].size == b.channels[ch].size && b'.channels[ch].steps == DropPass(b.channels[ch].steps, s.now).0
      && b'.routes[k].channel == ch && b'.routes[k].owner == b.routes[k].owner && Ripe(b'.routes[k], s.now)
      && |b'.routes[k].pending| == |b.routes[k].pending| + if DropPass(b.channels[ch].steps, s.now).1 then 0 else 1
  {
    hide Apply, Deliver, Prompt;
    var c := b.channels[ch];
    PromptStays(c.steps, bytes, s);
    var v := Apply(c.steps, s.duration, s.now, bytes).1;
    if v.Visible? { OpenDelivers(b, ch, Msg(v.time, b.published % TWO64, v.bytes)); }
  }

  lemma {:induction false} Speaks(b: Bus, who: Caller, ch: nat, bytes: seq<byte>, total: nat, memory: Memory,
                                  replies: seq<Reply>, s: Slot, k: nat)
    requires Open(b) && ch in who.outputs && ch < |b.channels| && |bytes| == b.channels[ch].size
    requires Prompt(b.channels[ch].steps, bytes, s) && |replies| <= total
    requires k < |b.routes| && b.routes[k].channel == ch && Ripe(b.routes[k], s.now)
    ensures var out := Activate(b, s.duration, s.now, who, Speaker(ch, bytes, total), memory, replies,
                                total - |replies|);
      && out.Finished? && out.memory == memory && Open(out.bus) && |out.bus.routes| == |b.routes|
      && Ripe(out.bus.routes[k], s.now) && out.bus.routes[k].owner == b.routes[k].owner
      && |b.routes[k].pending| <= |out.bus.routes[k].pending|
      && (|replies| < total && !DropPass(Later(b.channels[ch].steps, s.now, total - |replies| - 1), s.now).1 ==>
            |b.routes[k].pending| < |out.bus.routes[k].pending|)
    decreases total - |replies|
  {
    hide Publish, DropPass, Prompt, Ripe;
    if |replies| == total {
    } else {
      SpeakOnce(b, ch, bytes, s, k);
      PromptStays(b.channels[ch].steps, bytes, s);
      var b' := Publish(b, s.duration, s.now, ch, bytes).0;
      Speaks(b', who, ch, bytes, total, memory, replies + [Published], s, k);
      var left := total - |replies| - 1;
      if left > 0 {
        assert Later(b.channels[ch].steps, s.now, left) == Later(b'.channels[ch].steps, s.now, left - 1);
      }
    }
  }

  // ----- A listener ------------------------------------------------------------------------------------------

  /** Takes `total` times and remembers whether the last take got a message. */
  function Listener(k: nat, total: nat): Program {
    (now: u64, memory: Memory, replies: seq<Reply>) =>
      if |replies| < total then CallTake(k)
      else CallReturn(if replies != [] && replies[|replies| - 1].Taken? then [1] else [0])
  }

  lemma {:induction false} Listens(b: Bus, who: Caller, k: nat, total: nat, memory: Memory, replies: seq<Reply>,
                                   s: Slot)
    requires Open(b) && k < |b.routes| && b.routes[k].owner == who.owner && Ripe(b.routes[k], s.now)
    requires |replies| <= total
    ensures var out := Activate(b, s.duration, s.now, who, Listener(k, total), memory, replies, total - |replies|);
      && out.Finished? && Open(out.bus) && out.bus.channels == b.channels && |out.bus.routes| == |b.routes|
      && Ripe(out.bus.routes[k], s.now) && out.bus.routes[k].channel == b.routes[k].channel
      && (|replies| < total ==> out.memory == if total - |replies| <= |b.routes[k].pending| then [1] else [0])
    decreases total - |replies|
  {
    if |replies| == total {
    } else {
      var (b', m) := Take(b, s.now, k);
      var more := replies + [if m.Some? then Taken(m.value.time, m.value.bytes) else NothingVisible];
      assert m.Some? <==> b.routes[k].pending != [];
      assert Answer(b, s.duration, s.now, who, CallTake(k)) == (b', Some(more[|replies|]));
      Listens(b', who, k, total, memory, more, s);
      if |more| == total {
        assert Activate(b', s.duration, s.now, who, Listener(k, total), memory, more, 0)
            == Finished(b', if more[|more| - 1].Taken? then [1] else [0]);
      }
    }
  }

  // ----- Two participants can tell the order exactly when one hears the other ------------------------------------

  ghost predicate SwapAlike(b: Bus, p: Caller, q: Caller, f: Program, g: Program, patience: nat,
                            memories: map<nat, Memory>,
                            voice: nat -> nat, s: Slot) {
    var st := Stage(b, memories, false);
    var x, y := Act(p, f, patience, true), Act(q, g, patience, true);
    var w, u := RunActs(st, [x, y], s), RunActs(st, [y, x], s);
    !w.failed ==> !u.failed && Like(w.bus, u.bus, voice) && SameMemories(w.memories, u.memories)
  }

  /** Whatever the two run, the order makes no difference. */
  ghost predicate Interchangeable(b: Bus, p: Caller, q: Caller, voice: nat -> nat, s: Slot) {
    forall f: Program, g: Program, patience: nat, memories: map<nat, Memory> ::
      SwapAlike(b, p, q, f, g, patience, memories, voice, s)
  }

  ghost predicate MutedFor(b: Bus, owner: nat, outs: set<nat>, s: Slot) {
    forall k :: 0 <= k < |b.routes| && b.routes[k].owner == owner && b.routes[k].channel in outs
                && b.routes[k].channel < |b.channels| ==>
      Muted(b.routes[k], b.channels[b.routes[k].channel], s)
  }

  /** The pair as a slot. */
  predicate IsPair(p: Caller, q: Caller, s: Slot) {
    p.owner != q.owner && s.parties == {p.owner, q.owner} && s.outs == p.outputs + q.outputs
  }

  ghost predicate TwoVoices(p: Caller, q: Caller, voice: nat -> nat) {
    (forall ch :: ch in p.outputs ==> voice(ch) == p.owner) && (forall ch :: ch in q.outputs ==> voice(ch) == q.owner)
  }

  lemma TwoActs(st: Stage, x: Act, y: Act, s: Slot)
    ensures RunActs(st, [x, y], s) == RunAct(RunAct(st, x, s), y, s)
  {
    hide RunAct;
    assert [x, y][..1] == [x] && [x][..0] == [];
    assert RunActs(st, [x], s) == RunAct(RunActs(st, [], s), x, s);
  }

  lemma OnlyOfTwo(x: Act, y: Act, p: nat)
    requires x.who.owner != y.who.owner
    ensures Only([x, y], p) == Only([y, x], p)
  {
    assert [x, y][..1] == [x] && [y, x][..1] == [y];
    OnlyOne(x, p);
    OnlyOne(y, p);
  }

  lemma OnlyOne(x: Act, p: nat)
    ensures Only([x], p) == if x.who.owner == p then [x] else []
  {
    assert [x][..0] == [];
  }

  lemma HushedSwaps(b: Bus, p: Caller, q: Caller, f: Program, g: Program, patience: nat, memories: map<nat, Memory>,
                    voice: nat -> nat, s: Slot)
    requires Open(b) && Hushed(b, s) && IsPair(p, q, s) && TwoVoices(p, q, voice)
    ensures SwapAlike(b, p, q, f, g, patience, memories, voice, s)
  {
    var st := Stage(b, memories, false);
    var x, y := Act(p, f, patience, true), Act(q, g, patience, true);
    forall r: nat ensures Only([x, y], r) == Only([y, x], r) { OnlyOfTwo(x, y, r); }
    hide RunActs, Only, Hushed, Like, InSight;
    assert forall a :: a in [x, y] <==> a == x || a == y;
    assert forall a :: a in [y, x] <==> a == x || a == y;
    assert Voiced([x, y], voice, s) && Voiced([y, x], voice, s);
    AlwaysLike(b, voice, s);
    if !RunActs(st, [x, y], s).failed {
      assert Mergers([x, y], s.parties);
      AnyOrder(st, st, [x, y], [y, x], s.parties, voice, s);
    }
  }

  lemma AlwaysLike(b: Bus, voice: nat -> nat, s: Slot)
    ensures Like(b, b, voice) && Ordered(b, b, s.parties, s.now)
  {
  }

  lemma AudibleIsPrompt(c: Channel, s: Slot, n: nat, bytes: seq<byte>)
    requires HeardAt(Apply(Later(c.steps, s.now, n), s.duration, s.now, bytes).1, s.now)
    ensures Prompt(c.steps, bytes, s) && !DropPass(Later(c.steps, s.now, n), s.now).1
  {
    hide Apply;
    LaterShape(c.steps, s.now, n);
    ShapeDecides(c.steps, Later(c.steps, s.now, n), s.now, bytes);
    ApplyMeaning(Later(c.steps, s.now, n), s.duration, s.now, bytes);
  }

  lemma {:induction false} LaterShape(steps: seq<Step>, now: u64, n: nat)
    ensures SameShape(steps, Later(steps, now, n))
    decreases n
  {
    hide DropPass;
    if n == 0 {
    } else {
      DropPassKeepsShape(steps, now);
      LaterShape(DropPass(steps, now).0, now, n - 1);
      ShapeTransitive(steps, DropPass(steps, now).0, Later(steps, now, n));
    }
  }

  lemma ShapeTransitive(a: seq<Step>, b: seq<Step>, c: seq<Step>)
    requires SameShape(a, b) && SameShape(b, c)
    ensures SameShape(a, c)
  {
    forall i | 0 <= i < |a| ensures a[i].(windowCount := 0) == c[i].(windowCount := 0) {
      assert a[i].(windowCount := 0) == b[i].(windowCount := 0);
    }
  }

  lemma UnmutedIsRipe(r: Route, c: Channel, s: Slot)
    requires !Muted(r, c, s)
    ensures Ripe(r, s.now)
  {
    hide Silent;
    assert InSight(r, s.now) == r.pending;
    forall i | 0 <= i < |r.pending| ensures r.pending[i].time <= s.now {
      assert Released(r.latency, r.pending[i], s.now);
    }
  }

  /** A callback that finishes in time finishes the same way with more time. */
  lemma {:induction false} MorePatience(b: Bus, who: Caller, program: Program, memory: Memory, replies: seq<Reply>,
                                        little: nat, much: nat, s: Slot)
    requires little <= much && Activate(b, s.duration, s.now, who, program, memory, replies, little).Finished?
    ensures Activate(b, s.duration, s.now, who, program, memory, replies, much)
         == Activate(b, s.duration, s.now, who, program, memory, replies, little)
    decreases little
  {
    hide Answer;
    var call := program(s.now, memory, replies);
    if call.CallReturn? {
    } else {
      var (b', reply) := Answer(b, s.duration, s.now, who, call);
      MorePatience(b', who, program, memory, replies + [reply.value], little - 1, much - 1, s);
    }
  }

  lemma Audible(r: Route, c: Channel, s: Slot) returns (n: nat, bytes: seq<byte>)
    requires !Muted(r, c, s)
    ensures Ripe(r, s.now) && |bytes| == c.size && Prompt(c.steps, bytes, s)
    ensures !DropPass(Later(c.steps, s.now, n), s.now).1
  {
    hide Apply, InSight, Prompt, Ripe, DropPass, Later, HeardAt;
    UnmutedIsRipe(r, c, s);
    n, bytes :| |bytes| == c.size && HeardAt(Apply(Later(c.steps, s.now, n), s.duration, s.now, bytes).1, s.now);
    AudibleIsPrompt(c, s, n, bytes);
  }

  lemma ActFinishes(st: Stage, a: Act, s: Slot, patience: nat)
    requires !st.failed && patience <= a.patience
    requires Activate(st.bus, s.duration, s.now, a.who, a.program, MemoryOf(st.memories, a.who.owner), [],
                      patience).Finished?
    ensures var out := Activate(st.bus, s.duration, s.now, a.who, a.program, MemoryOf(st.memories, a.who.owner), [],
                                patience);
      RunAct(st, a, s) == Stage(out.bus, if a.keeps then st.memories[a.who.owner := out.memory] else st.memories, false)
  {
    hide Activate;
    MorePatience(st.bus, a.who, a.program, MemoryOf(st.memories, a.who.owner), [], patience, a.patience, s);
  }

  /** A route of the listener on an audible channel of the speaker. */
  ghost predicate Hears(b: Bus, p: Caller, q: Caller, k: nat, bytes: seq<byte>, s: Slot) {
    && Open(b) && p.owner != q.owner && k < |b.routes| && b.routes[k].owner == q.owner && Ripe(b.routes[k], s.now)
    && b.routes[k].channel in p.outputs && b.routes[k].channel < |b.channels|
    && |bytes| == b.channels[b.routes[k].channel].size && Prompt(b.channels[b.routes[k].channel].steps, bytes, s)
  }

  lemma SpeakThenListen(b: Bus, p: Caller, q: Caller, k: nat, bytes: seq<byte>, n: nat, s: Slot)
    requires Hears(b, p, q, k, bytes, s) && !DropPass(Later(b.channels[b.routes[k].channel].steps, s.now, n), s.now).1
    ensures var total := |b.routes[k].pending| + 1;
      var x := Act(p, Speaker(b.routes[k].channel, bytes, n + 1), n + 1 + total, true);
      var y := Act(q, Listener(k, total), n + 1 + total, true);
      var w := RunActs(Stage(b, map[], false), [x, y], s);
      !w.failed && MemoryOf(w.memories, q.owner) == [1]
  {
    hide Prompt, Ripe, DropPass, Later, Activate, RunAct, Speaker, Listener;
    var ch, total := b.routes[k].channel, |b.routes[k].pending| + 1;
    var x, y := Act(p, Speaker(ch, bytes, n + 1), n + 1 + total, true), Act(q, Listener(k, total), n + 1 + total, true);
    var st := Stage(b, map[], false);
    TwoActs(st, x, y, s);
    Speaks(b, p, ch, bytes, n + 1, [], [], s, k);
    ActFinishes(st, x, s, n + 1);
    var spoken := RunAct(st, x, s);
    Listens(spoken.bus, q, k, total, [], [], s);
    assert MemoryOf(spoken.memories, q.owner) == [];
    ActFinishes(spoken, y, s, total);
  }

  lemma ListenThenSpeak(b: Bus, p: Caller, q: Caller, k: nat, bytes: seq<byte>, n: nat, s: Slot)
    requires Hears(b, p, q, k, bytes, s)
    ensures var total := |b.routes[k].pending| + 1;
      var x := Act(p, Speaker(b.routes[k].channel, bytes, n + 1), n + 1 + total, true);
      var y := Act(q, Listener(k, total), n + 1 + total, true);
      var w := RunActs(Stage(b, map[], false), [y, x], s);
      !w.failed && MemoryOf(w.memories, q.owner) == [0]
  {
    hide Prompt, Ripe, Activate, RunAct, Speaker, Listener;
    var ch, total := b.routes[k].channel, |b.routes[k].pending| + 1;
    var x, y := Act(p, Speaker(ch, bytes, n + 1), n + 1 + total, true), Act(q, Listener(k, total), n + 1 + total, true);
    var st := Stage(b, map[], false);
    TwoActs(st, y, x, s);
    Listens(b, q, k, total, [], [], s);
    ActFinishes(st, y, s, total);
    var heard := RunAct(st, y, s);
    Speaks(heard.bus, p, ch, bytes, n + 1, [], [], s, k);
    assert MemoryOf(heard.memories, p.owner) == [];
    ActFinishes(heard, x, s, n + 1);
  }

  /** A listener on an audible route remembers whether the speaker ran before it. */
  lemma HeardOrder(b: Bus, p: Caller, q: Caller, k: nat, s: Slot) returns (f: Program, g: Program, patience: nat)
    requires Open(b) && p.owner != q.owner && k < |b.routes| && b.routes[k].owner == q.owner
    requires b.routes[k].channel in p.outputs && b.routes[k].channel < |b.channels|
    requires !Muted(b.routes[k], b.channels[b.routes[k].channel], s)
    ensures var st := Stage(b, map[], false);
      var x, y := Act(p, f, patience, true), Act(q, g, patience, true);
      && !RunActs(st, [x, y], s).failed && MemoryOf(RunActs(st, [x, y], s).memories, q.owner) == [1]
      && !RunActs(st, [y, x], s).failed && MemoryOf(RunActs(st, [y, x], s).memories, q.owner) == [0]
  {
    hide Muted, Prompt, Ripe, DropPass, Later, RunActs, MemoryOf, Speaker, Listener, Open;
    var n, bytes := Audible(b.routes[k], b.channels[b.routes[k].channel], s);
    var total := |b.routes[k].pending| + 1;
    f, g, patience := Speaker(b.routes[k].channel, bytes, n + 1), Listener(k, total), n + 1 + total;
    SpeakThenListen(b, p, q, k, bytes, n, s);
    ListenThenSpeak(b, p, q, k, bytes, n, s);
  }

  lemma Tells(b: Bus, p: Caller, q: Caller, f: Program, g: Program, patience: nat, voice: nat -> nat, s: Slot, r: nat)
    requires Interchangeable(b, p, q, voice, s)
    requires var st := Stage(b, map[], false);
      var x, y := Act(p, f, patience, true), Act(q, g, patience, true);
      !RunActs(st, [x, y], s).failed
    ensures var st := Stage(b, map[], false);
      var x, y := Act(p, f, patience, true), Act(q, g, patience, true);
      MemoryOf(RunActs(st, [x, y], s).memories, r) == MemoryOf(RunActs(st, [y, x], s).memories, r)
  {
    hide RunActs, MemoryOf, Like;
    assert SwapAlike(b, p, q, f, g, patience, map[], voice, s);
  }

  /** Two participants that do not hear themselves, on unbounded queues: nothing they could run
      tells them in which order they ran in this slot, exactly when neither has a latency-zero
      route that could carry a message of the other at once. */
  lemma InterchangeableIff(b: Bus, p: Caller, q: Caller, voice: nat -> nat, s: Slot)
    requires Open(b) && IsPair(p, q, s) && TwoVoices(p, q, voice)
    requires MutedFor(b, p.owner, p.outputs, s) && MutedFor(b, q.owner, q.outputs, s)
    ensures Interchangeable(b, p, q, voice, s)
            <==> MutedFor(b, q.owner, p.outputs, s) && MutedFor(b, p.owner, q.outputs, s)
  {
    hide Muted, RunActs, MemoryOf, SwapAlike;
    if MutedFor(b, q.owner, p.outputs, s) && MutedFor(b, p.owner, q.outputs, s) {
      assert Hushed(b, s);
      forall f: Program, g: Program, patience: nat, memories: map<nat, Memory>
        ensures SwapAlike(b, p, q, f, g, patience, memories, voice, s)
      {
        HushedSwaps(b, p, q, f, g, patience, memories, voice, s);
      }
    } else if Interchangeable(b, p, q, voice, s) {
      if !MutedFor(b, q.owner, p.outputs, s) {
        var k :| 0 <= k < |b.routes| && b.routes[k].owner == q.owner && b.routes[k].channel in p.outputs
                 && b.routes[k].channel < |b.channels| && !Muted(b.routes[k], b.channels[b.routes[k].channel], s);
        var f, g, patience := HeardOrder(b, p, q, k, s);
        Tells(b, p, q, f, g, patience, voice, s, q.owner);
        assert false;
      } else {
        var k :| 0 <= k < |b.routes| && b.routes[k].owner == p.owner && b.routes[k].channel in q.outputs
                 && b.routes[k].channel < |b.channels| && !Muted(b.routes[k], b.channels[b.routes[k].channel], s);
        var f, g, patience := HeardOrder(b, q, p, k, s);
        Tells(b, p, q, g, f, patience, voice, s, p.owner);
        assert false;
      }
    }
  }
}
