// The objects on a message's way: a channel's fault plan, which counts and rewrites in
// place, and a subscriber's queue.

module PlanRuntime {
  import opened VirtualTime
  import opened Bytes
  import opened Interceptor
  import opened DataPlane

  // ----- InterceptorPlan -------------------------------------------------------------------------

  datatype PlanAnswer = Answered(suppressed: bool, visibleNs: u64) | Threw

  function Reset(steps: seq<Step>): (r: seq<Step>)
    ensures |r| == |steps|
    ensures forall i :: 0 <= i < |r| ==> r[i] == steps[i].(windowCount := 0)
  {
    seq(|steps|, i requires 0 <= i < |steps| => steps[i].(windowCount := 0))
  }

  /** The answer that a verdict of the model stands for. */
  predicate Means(answer: PlanAnswer, v: Verdict) {
    match v
    case OutOfRange => answer == Threw
    case Suppressed => answer.Answered? && answer.suppressed
    case Visible(time, _) => answer == Answered(false, time)
  }

  class InterceptorPlan {
    const duration: u64
    var steps: seq<Step>

    constructor (duration: u64, steps: seq<Step>)
      ensures this.duration == duration && this.steps == steps
    {
      this.duration, this.steps := duration, steps;
    }

    /** The copy a Run makes of a compiled plan starts counting afresh and shares nothing:
        the compiled plan stays as it was. */
    constructor Copy(other: InterceptorPlan)
      ensures duration == other.duration && steps == Reset(other.steps)
    {
      duration := other.duration;
      steps := Reset(other.steps);
    }

    /** The drop loop: true when some step drops the message. */
    method DropLoop(now: u64) returns (dropped: bool)
      modifies this
      ensures (steps, dropped) == DropPass(old(steps), now)
    {
      hide DropPass, Resumed, InWindow, Counted;
      var i := 0;
      assert steps[0..] == steps && steps[..0] == [];
      NothingDone(steps, now);
      while i < |steps|
        invariant 0 <= i <= |steps| == |old(steps)|
        invariant DropPass(old(steps), now) == Resumed(steps[..i], steps[i..], now)
      {
        var step := steps[i];
        Turn(steps, i, now);
        if InWindow(step, now) {
          if step.kind.Drop? { return true; }
          if step.kind.DropNth? {
            steps := steps[i := Counted(step)];
            if steps[i].windowCount % step.kind.n == 0 { return true; }
          }
        }
        i := i + 1;
      }
      AllDone(steps, now);
      return false;
    }

    /** The delay loop. */
    method DelayLoop(now: u64) returns (visible: u64)
      ensures visible == DelayPass(steps, now, now)
    {
      visible := now;
      var i := 0;
      assert steps[0..] == steps;
      while i < |steps|
        invariant 0 <= i <= |steps|
        invariant DelayPass(steps, now, now) == DelayPass(steps[i..], now, visible)
      {
        var step := steps[i];
        assert steps[i..][1..] == steps[i + 1..];
        if step.kind.Delay? && InWindow(step, now) {
          visible := SaturatingAfter(visible, step.kind.delayNs);
        }
        i := i + 1;
      }
    }

    /** The override loop, in place; false where the source throws. */
    method OverrideLoop(now: u64, bytes: array<byte>) returns (ok: bool)
      modifies bytes
      ensures ok <==> OverridePass(steps, now, old(bytes[..])).Some?
      ensures ok ==> bytes[..] == OverridePass(steps, now, old(bytes[..])).value
    {
      var i := 0;
      assert steps[0..] == steps;
      while i < |steps|
        invariant 0 <= i <= |steps|
        invariant OverridePass(steps, now, old(bytes[..])) == OverridePass(steps[i..], now, bytes[..])
      {
        var step := steps[i];
        assert steps[i..][1..] == steps[i + 1..];
        if step.kind.Override? && InWindow(step, now) {
          if step.kind.offset > bytes.Length || |step.kind.patch| > bytes.Length - step.kind.offset { return false; }
          CopyInto(bytes, step.kind.offset, step.kind.patch);
        }
        i := i + 1;
      }
      return true;
    }

    /** `apply`: drops, then delays, then the cut at the duration, then overrides. */
    method Apply(now: u64, bytes: array<byte>) returns (answer: PlanAnswer)
      modifies this, bytes
      ensures var (after, verdict) := Interceptor.Apply(old(steps), duration, now, old(bytes[..]));
        && steps == after
        && Means(answer, verdict)
        && (verdict.Visible? ==> bytes[..] == verdict.bytes)
        && (verdict.Suppressed? ==> bytes[..] == old(bytes[..]))
    {
      hide DropPass, DelayPass, OverridePass;
      var dropped := DropLoop(now);
      if dropped { return Answered(true, now); }
      var visible := DelayLoop(now);
      if visible >= duration { return Answered(true, visible); }
      var ok := OverrideLoop(now, bytes);
      if !ok { return Threw; }
      return Answered(false, visible);
    }
  }

  /** The drop loop with some steps behind it. */
  ghost function Resumed(done: seq<Step>, rest: seq<Step>, now: u64): (seq<Step>, bool) {
    (done + DropPass(rest, now).0, DropPass(rest, now).1)
  }

  lemma NothingDone(steps: seq<Step>, now: u64)
    ensures Resumed([], steps, now) == DropPass(steps, now)
  {
    assert [] + DropPass(steps, now).0 == DropPass(steps, now).0;
  }

  lemma AllDone(steps: seq<Step>, now: u64)
    ensures Resumed(steps[..|steps|], steps[|steps|..], now) == (steps, false)
  {
    assert steps[..|steps|] + [] == steps;
  }

  /** One turn of the drop loop: it stops here, or goes on behind this step. */
  lemma Turn(steps: seq<Step>, i: nat, now: u64)
    requires i < |steps|
    ensures var s := steps[i];
      Resumed(steps[..i], steps[i..], now)
      == if !InWindow(s, now) || !(s.kind.Drop? || s.kind.DropNth?) then Resumed(steps[..i + 1], steps[i + 1..], now)
         else if s.kind.Drop? then (steps, true)
         else
           var after := steps[i := Counted(s)];
           if Counted(s).windowCount % s.kind.n == 0 then (after, true)
           else Resumed(after[..i + 1], after[i + 1..], now)
  {
    var s, tail := steps[i], steps[i + 1..];
    var rest := DropPass(tail, now).0;
    var after := steps[i := Counted(s)];
    assert steps[i..][1..] == tail && after[i + 1..] == tail;
    assert steps[..i + 1] == steps[..i] + [s] && after[..i + 1] == steps[..i] + [Counted(s)];
    Assoc(steps[..i], s, rest);
    Assoc(steps[..i], Counted(s), rest);
    assert steps[..i] + steps[i..] == steps;
    assert steps[..i] + ([Counted(s)] + tail) == after;
  }

  lemma Assoc(a: seq<Step>, x: Step, b: seq<Step>)
    ensures a + ([x] + b) == a + [x] + b
  {
  }

  // ----- SubscriberRoute ----------------------------------------------------------------------------

  datatype PushResult = Enqueued | DroppedNewest | OverflowFailure

  class SubscriberRoute {
    const owner: nat
    const channel: nat
    const latency: Option<u64>
    const capacity: Option<nat>
    const overflow: Overflow
    var pending: seq<Msg>
    ghost var taken: seq<Msg>
    ghost var dropped: nat

    ghost function State(): Route
      reads this
    {
      Route(owner, channel, latency, capacity, overflow, pending, taken, dropped)
    }

    constructor (owner: nat, channel: nat, latency: Option<u64>, capacity: Option<nat>, overflow: Overflow)
      ensures State() == Route(owner, channel, latency, capacity, overflow, [], [], 0)
    {
      this.owner, this.channel, this.latency := owner, channel, latency;
      this.capacity, this.overflow := capacity, overflow;
      pending, taken, dropped := [], [], 0;
    }

    /** Only the front is ever looked at. */
    method VisibleAt(now: u64) returns (visible: bool)
      ensures visible <==> DataPlane.VisibleAt(State(), now)
      ensures visible ==> pending != []
    {
      if pending == [] { return false; }
      var m := pending[0];
      if latency.None? { return m.time < now; }
      var at := VirtualTimeAfter(m.time, latency.value);
      return at.Some? && at.value <= now;
    }

    method Pop() returns (m: Msg)
      requires pending != []
      modifies this
      ensures State() == Popped(old(State())) && m == old(pending)[0]
    {
      m := pending[0];
      pending := pending[1..];
      taken := taken + [m];
    }

    method Push(m: Msg) returns (r: PushResult)
      modifies this
      ensures r.OverflowFailure? <==> Overflows(old(State()))
      ensures State() == if r.OverflowFailure? then old(State()) else Pushed(old(State()), m)
      ensures r.DroppedNewest? <==> Full(old(State())) && overflow.DropNewest?
    {
      if capacity.Some? && |pending| >= capacity.value {
        if overflow.DropNewest? {
          dropped := dropped + 1;
          return DroppedNewest;
        }
        return OverflowFailure;
      }
      pending := pending + [m];
      return Enqueued;
    }
  }
}
