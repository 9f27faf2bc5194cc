// The compiled fault plan of one channel: what `InterceptorPlan::apply` does to
// one message, and what that amounts to over a whole stream of messages.

module Interceptor {
  import opened VirtualTime
  import opened Bytes

  datatype Kind =
    | Drop
    | DropNth(n: pos64)
    | Delay(delayNs: u64)
    | Override(offset: nat, patch: seq<byte>)

  // `windowCount` is the only part a running plan changes.
  datatype Step = Step(kind: Kind, startNs: u64, endNs: Option<u64>, windowCount: u64)

  datatype Sent = Sent(now: u64, bytes: seq<byte>)

  datatype Verdict =
    | Suppressed
    | Visible(time: u64, bytes: seq<byte>)
    | OutOfRange // the source's std::out_of_range

  predicate InWindow(s: Step, now: u64) {
    s.startNs <= now && (s.endNs.Some? ==> now < s.endNs.value)
  }

  function Counted(s: Step): Step {
    s.(windowCount := (s.windowCount + 1) % TWO64)
  }

  // ----- One message ------------------------------------------------------

  /** What the drop loop does to the counters, and whether it drops the message. */
  function DropPass(steps: seq<Step>, now: u64): (r: (seq<Step>, bool))
    ensures |r.0| == |steps|
  {
    if steps == [] then ([], false)
    else
      var s := steps[0];
      if !InWindow(s, now) then
        var (rest, dropped) := DropPass(steps[1..], now);
        ([s] + rest, dropped)
      else if s.kind.Drop? then (steps, true)
      else if s.kind.DropNth? then
        if Counted(s).windowCount % s.kind.n == 0 then ([Counted(s)] + steps[1..], true)
        else
          var (rest, dropped) := DropPass(steps[1..], now);
          ([Counted(s)] + rest, dropped)
      else
        var (rest, dropped) := DropPass(steps[1..], now);
        ([s] + rest, dropped)
  }

  /** The delay loop: saturating additions in declared order. */
  function DelayPass(steps: seq<Step>, now: u64, visible: u64): u64 {
    if steps == [] then visible
    else
      var s := steps[0];
      DelayPass(steps[1..], now,
                if s.kind.Delay? && InWindow(s, now) then SaturatingAfter(visible, s.kind.delayNs) else visible)
  }

  predicate PatchFits(s: Step, size: nat) {
    s.kind.Override? ==> s.kind.offset + |s.kind.patch| <= size
  }

  /** The override loop; `None` where a patch does not fit. */
  function OverridePass(steps: seq<Step>, now: u64, bytes: seq<byte>): (r: Option<seq<byte>>)
    ensures r.Some? ==> |r.value| == |bytes|
  {
    if steps == [] then Some(bytes)
    else
      var s := steps[0];
      if !s.kind.Override? || !InWindow(s, now) then OverridePass(steps[1..], now, bytes)
      else if !PatchFits(s, |bytes|) then None
      else OverridePass(steps[1..], now, Patched(bytes, s.kind.offset, s.kind.patch))
  }

  /** `apply`: the plan after the message, and the message's verdict. */
  function Apply(steps: seq<Step>, duration: u64, now: u64, bytes: seq<byte>): (r: (seq<Step>, Verdict))
    ensures |r.0| == |steps|
    ensures r.1.Visible? ==> now <= r.1.time < duration && |r.1.bytes| == |bytes|
  {
    var (steps', dropped) := DropPass(steps, now);
    if dropped then (steps', Suppressed)
    else
      var visible := DelayPass(steps', now, now);
      DelayPassIsMin(steps', now, now);
      if visible >= duration then (steps', Suppressed)
      else
        match OverridePass(steps', now, bytes)
        case None => (steps', OutOfRange)
        case Some(b) => (steps', Visible(visible, b))
  }

  /** The exact, unbounded sum of the delays whose window holds `now`. */
  function TotalDelay(steps: seq<Step>, now: u64): nat {
    if steps == [] then 0
    else (if steps[0].kind.Delay? && InWindow(steps[0], now) then steps[0].kind.delayNs else 0)
         + TotalDelay(steps[1..], now)
  }

  /** Saturating one delay at a time is saturating their sum once. */
  lemma {:induction false} DelayPassIsMin(steps: seq<Step>, now: u64, visible: u64)
    ensures DelayPass(steps, now, visible)
         == (if visible + TotalDelay(steps, now) < TWO64 then visible + TotalDelay(steps, now) else MAX64)
    decreases |steps|
  {
    if steps == [] {
    } else {
      var s := steps[0];
      DelayPassIsMin(steps[1..], now,
                     if s.kind.Delay? && InWindow(s, now) then SaturatingAfter(visible, s.kind.delayNs) else visible);
    }
  }

  // ----- Whole streams, one message at a time (what the code does) ---------

  function Feed(steps: seq<Step>, duration: u64, msgs: seq<Sent>): seq<Verdict>
    decreases |msgs|
  {
    if msgs == [] then []
    else
      var (steps', v) := Apply(steps, duration, msgs[0].now, msgs[0].bytes);
      [v] + Feed(steps', duration, msgs[1..])
  }

  /** Visible messages as (time, bytes), in order. */
  function Delivered(vs: seq<Verdict>): seq<(u64, seq<byte>)> {
    if vs == [] then []
    else (if vs[0].Visible? then [(vs[0].time, vs[0].bytes)] else []) + Delivered(vs[1..])
  }

  // ----- Whole streams, one stage at a time (what it means) ----------------

  function CountInWindow(s: Step, msgs: seq<Sent>): nat {
    if msgs == [] then 0
    else CountInWindow(s, msgs[..|msgs| - 1]) + if InWindow(s, msgs[|msgs| - 1].now) then 1 else 0
  }

  /** Whether a stage lets the last of the messages that reached it pass. */
  predicate KeepsLast(s: Step, msgs: seq<Sent>)
    requires msgs != []
  {
    InWindow(s, msgs[|msgs| - 1].now) ==>
      && !s.kind.Drop?
      && (s.kind.DropNth? ==> (s.windowCount + CountInWindow(s, msgs)) % TWO64 % s.kind.n != 0)
  }

  /** One drop or drop_nth stage over a stream: it counts only what reaches it. */
  function Stage(s: Step, msgs: seq<Sent>): seq<Sent> {
    if msgs == [] then []
    else
      var i := |msgs| - 1;
      Stage(s, msgs[..i]) + if KeepsLast(s, msgs) then [msgs[i]] else []
  }

  function Stages(steps: seq<Step>, msgs: seq<Sent>): seq<Sent>
    decreases |steps|
  {
    if steps == [] then msgs else Stages(steps[1..], Stage(steps[0], msgs))
  }

  /** What becomes of one message that no stage dropped. */
  function Shifted(steps: seq<Step>, duration: u64, m: Sent): seq<(u64, seq<byte>)> {
    var time := m.now + TotalDelay(steps, m.now);
    var patched := OverridePass(steps, m.now, m.bytes);
    if time < duration && patched.Some? then [(time, patched.value)] else []
  }

  /** Shift every survivor by its exact delay, cut at the duration, then patch. */
  function ShiftAndPatch(steps: seq<Step>, duration: u64, msgs: seq<Sent>): seq<(u64, seq<byte>)> {
    if msgs == [] then []
    else Shifted(steps, duration, msgs[0]) + ShiftAndPatch(steps, duration, msgs[1..])
  }

  // ----- The two views agree -------------------------------------------------

  /** A stage after it has seen `m`. */
  function Seen(s: Step, m: Sent): Step {
    if s.kind.DropNth? && InWindow(s, m.now) then Counted(s) else s
  }

  predicate KeepsFirst(s: Step, m: Sent) {
    InWindow(s, m.now) ==> !s.kind.Drop? && (s.kind.DropNth? ==> Counted(s).windowCount % s.kind.n != 0)
  }

  lemma {:induction false} CountCons(s: Step, m: Sent, rest: seq<Sent>)
    ensures CountInWindow(s, [m] + rest) == (if InWindow(s, m.now) then 1 else 0) + CountInWindow(s, rest)
    ensures CountInWindow(Seen(s, m), rest) == CountInWindow(s, rest)
    decreases |rest|
  {
    if rest == [] {
      assert ([m] + rest)[..0] == [];
    } else {
      assert ([m] + rest)[..|rest|] == [m] + rest[..|rest| - 1];
      CountCons(s, m, rest[..|rest| - 1]);
    }
  }

  lemma WrapAdd(a: nat, b: nat)
    ensures ((a + 1) % TWO64 + b) % TWO64 == (a + (1 + b)) % TWO64
  {
  }

  lemma KeepsOnly(s: Step, m: Sent)
    ensures KeepsLast(s, [m]) == KeepsFirst(s, m)
  {
    CountCons(s, m, []);
    assert [m] + [] == [m];
  }

  /** A stage that has seen the first message decides the last as one that is shown both. */
  lemma KeepsLastShifts(s: Step, m: Sent, rest: seq<Sent>)
    requires rest != []
    ensures KeepsLast(s, [m] + rest) == KeepsLast(Seen(s, m), rest)
  {
    hide CountInWindow;
    CountCons(s, m, rest);
    WrapAdd(s.windowCount, CountInWindow(s, rest));
  }

  lemma {:induction false} StageCons(s: Step, m: Sent, rest: seq<Sent>)
    ensures Stage(s, [m] + rest) == (if KeepsFirst(s, m) then [m] else []) + Stage(Seen(s, m), rest)
    decreases |rest|
  {
    hide KeepsLast, KeepsFirst, Seen;
    var all := [m] + rest;
    if rest == [] {
      assert all == [m] && all[..0] == [];
      KeepsOnly(s, m);
    } else {
      var n := |rest| - 1;
      assert all[..|rest|] == [m] + rest[..n] && all[|rest|] == rest[n];
      StageCons(s, m, rest[..n]);
      KeepsLastShifts(s, m, rest);
    }
  }

  /** One turn of the drop loop. */
  lemma DropPassStep(steps: seq<Step>, m: Sent)
    requires steps != []
    ensures var (rest, dropped) := DropPass(steps[1..], m.now);
      DropPass(steps, m.now)
      == if KeepsFirst(steps[0], m) then ([Seen(steps[0], m)] + rest, dropped)
         else ([Seen(steps[0], m)] + steps[1..], true)
  {
    var s := steps[0];
    assert steps == [s] + steps[1..];
  }

  lemma StagesOfCons(s: Step, steps: seq<Step>, msgs: seq<Sent>)
    ensures Stages([s] + steps, msgs) == Stages(steps, Stage(s, msgs))
  {
    assert ([s] + steps)[1..] == steps;
  }

  /** Loop interchange: the drop loop on the head, then the stages on the rest. */
  lemma {:induction false} StagesCons(steps: seq<Step>, m: Sent, rest: seq<Sent>)
    ensures Stages(steps, [m] + rest)
         == (if DropPass(steps, m.now).1 then [] else [m]) + Stages(DropPass(steps, m.now).0, rest)
    decreases |steps|
  {
    if steps == [] {
    } else {
      var s, tail := steps[0], steps[1..];
      var next := Stage(Seen(s, m), rest);
      DropPassStep(steps, m);
      assert steps == [s] + tail;
      hide *;
      StageCons(s, m, rest);
      StagesOfCons(s, tail, [m] + rest);
      if KeepsFirst(s, m) {
        StagesCons(tail, m, next);
        StagesOfCons(Seen(s, m), DropPass(tail, m.now).0, rest);
      } else {
        StagesOfCons(Seen(s, m), tail, rest);
        assert [] + next == next;
      }
    }
  }

  /** Steps that differ in their counters only. */
  predicate SameShape(a: seq<Step>, b: seq<Step>) {
    |a| == |b| && forall i :: 0 <= i < |a| ==> a[i].(windowCount := 0) == b[i].(windowCount := 0)
  }

  lemma {:induction false} DropPassKeepsShape(steps: seq<Step>, now: u64)
    ensures SameShape(steps, DropPass(steps, now).0)
    decreases |steps|
  {
    if steps == [] {
    } else {
      DropPassKeepsShape(steps[1..], now);
      var rest := DropPass(steps[1..], now).0;
      forall i | 0 <= i < |steps|
        ensures steps[i].(windowCount := 0) == DropPass(steps, now).0[i].(windowCount := 0)
      {
        if i > 0 { assert steps[i] == steps[1..][i - 1]; }
      }
    }
  }

  lemma {:induction false} ShapeDecides(a: seq<Step>, b: seq<Step>, now: u64, bytes: seq<byte>)
    requires SameShape(a, b)
    ensures TotalDelay(a, now) == TotalDelay(b, now)
    ensures OverridePass(a, now, bytes) == OverridePass(b, now, bytes)
    decreases |a|
  {
    if a == [] {
    } else {
      assert a[0].(windowCount := 0) == b[0].(windowCount := 0);
      var next := if a[0].kind.Override? && InWindow(a[0], now) && PatchFits(a[0], |bytes|)
        then Patched(bytes, a[0].kind.offset, a[0].kind.patch) else bytes;
      forall i | 0 <= i < |a[1..]| ensures a[1..][i].(windowCount := 0) == b[1..][i].(windowCount := 0) {
        assert a[1..][i] == a[i + 1] && b[1..][i] == b[i + 1];
      }
      ShapeDecides(a[1..], b[1..], now, next);
    }
  }

  lemma {:induction false} ShapeDecidesStream(a: seq<Step>, b: seq<Step>, duration: u64, msgs: seq<Sent>)
    requires SameShape(a, b)
    ensures ShiftAndPatch(a, duration, msgs) == ShiftAndPatch(b, duration, msgs)
    decreases |msgs|
  {
    if msgs == [] {
    } else {
      ShapeDecides(a, b, msgs[0].now, msgs[0].bytes);
      ShapeDecidesStream(a, b, duration, msgs[1..]);
    }
  }

  /** One message through `Apply`, in terms of the exact sum. */
  lemma ApplyMeaning(steps: seq<Step>, duration: u64, now: u64, bytes: seq<byte>)
    ensures var (steps', v) := Apply(steps, duration, now, bytes);
      && SameShape(steps, steps')
      && steps' == DropPass(steps, now).0
      && (v.Visible? <==> !DropPass(steps, now).1 && now + TotalDelay(steps, now) < duration
                          && OverridePass(steps, now, bytes).Some?)
      && (v.Visible? ==> v.time == now + TotalDelay(steps, now)
                         && Some(v.bytes) == OverridePass(steps, now, bytes))
  {
    var steps' := DropPass(steps, now).0;
    DropPassKeepsShape(steps, now);
    ShapeDecides(steps, steps', now, bytes);
    DelayPassIsMin(steps', now, now);
  }

  /** What a verdict lets through. */
  function Shown(v: Verdict): seq<(u64, seq<byte>)> {
    if v.Visible? then [(v.time, v.bytes)] else []
  }

  lemma FeedCons(steps: seq<Step>, duration: u64, msgs: seq<Sent>)
    requires msgs != []
    ensures var (after, v) := Apply(steps, duration, msgs[0].now, msgs[0].bytes);
      Delivered(Feed(steps, duration, msgs)) == Shown(v) + Delivered(Feed(after, duration, msgs[1..]))
  {
    hide Apply;
    var (after, v) := Apply(steps, duration, msgs[0].now, msgs[0].bytes);
    assert ([v] + Feed(after, duration, msgs[1..]))[1..] == Feed(after, duration, msgs[1..]);
  }

  lemma ShownIsShifted(steps: seq<Step>, duration: u64, m: Sent)
    ensures Shown(Apply(steps, duration, m.now, m.bytes).1)
         == if DropPass(steps, m.now).1 then [] else Shifted(steps, duration, m)
  {
    ApplyMeaning(steps, duration, m.now, m.bytes);
    hide Apply, DropPass, TotalDelay, OverridePass;
  }

  lemma ShiftCons(steps: seq<Step>, duration: u64, m: Sent, rest: seq<Sent>)
    ensures ShiftAndPatch(steps, duration, [m] + rest)
            == Shifted(steps, duration, m) + ShiftAndPatch(steps, duration, rest)
  {
    hide Shifted;
    assert ([m] + rest)[1..] == rest;
  }

  /** Over any stream, the survivors are those of the drop stages composed in
      declared order, shifted by the exact sum of the matching delays, cut at the
      duration and then patched. */
  lemma {:induction false} StreamSemantics(steps: seq<Step>, duration: u64, msgs: seq<Sent>)
    ensures Delivered(Feed(steps, duration, msgs)) == ShiftAndPatch(steps, duration, Stages(steps, msgs))
    decreases |msgs|
  {
    if msgs == [] {
      StagesEmpty(steps);
    } else {
      hide *;
      var m, rest := msgs[0], msgs[1..];
      var after := Apply(steps, duration, m.now, m.bytes).0;
      ApplyMeaning(steps, duration, m.now, m.bytes);
      assert msgs == [m] + rest;
      StagesCons(steps, m, rest);
      FeedCons(steps, duration, msgs);
      ShownIsShifted(steps, duration, m);
      StreamSemantics(after, duration, rest);
      ShapeDecidesStream(steps, after, duration, Stages(after, rest));
      ShiftCons(steps, duration, m, Stages(after, rest));
      assert [] + Stages(after, rest) == Stages(after, rest);
      assert [] + ShiftAndPatch(steps, duration, Stages(after, rest))
             == ShiftAndPatch(steps, duration, Stages(after, rest));
    }
  }

  lemma {:induction false} StagesEmpty(steps: seq<Step>)
    ensures Stages(steps, []) == []
    decreases |steps|
  {
    if steps == [] {
    } else {
      StagesEmpty(steps[1..]);
    }
  }

  // ----- Delays may be declared in any order -------------------------------

  function Delays(steps: seq<Step>): seq<Step> {
    if steps == [] then [] else (if steps[0].kind.Delay? then [steps[0]] else []) + Delays(steps[1..])
  }

  function NonDelays(steps: seq<Step>): seq<Step> {
    if steps == [] then [] else (if steps[0].kind.Delay? then [] else [steps[0]]) + NonDelays(steps[1..])
  }

  lemma {:induction false} StageOfDelay(s: Step, msgs: seq<Sent>)
    requires s.kind.Delay?
    ensures Stage(s, msgs) == msgs
    decreases |msgs|
  {
    if msgs == [] {
    } else {
      StageOfDelay(s, msgs[..|msgs| - 1]);
    }
  }

  lemma {:induction false} DelaysDoNotDrop(steps: seq<Step>, msgs: seq<Sent>)
    ensures Stages(steps, msgs) == Stages(NonDelays(steps), msgs)
    decreases |steps|
  {
    if steps == [] {
    } else {
      var s := steps[0];
      DelaysDoNotDrop(steps[1..], Stage(s, msgs));
      if s.kind.Delay? {
        StageOfDelay(s, msgs);
        assert [] + NonDelays(steps[1..]) == NonDelays(steps[1..]);
      } else {
        assert NonDelays(steps)[1..] == NonDelays(steps[1..]);
      }
    }
  }

  /** The bytes after one step of the override loop, where it does not fail. */
  function AfterStep(s: Step, now: u64, bytes: seq<byte>): seq<byte> {
    if s.kind.Override? && InWindow(s, now) && PatchFits(s, |bytes|)
    then Patched(bytes, s.kind.offset, s.kind.patch) else bytes
  }

  lemma OverrideCons(s: Step, steps: seq<Step>, now: u64, bytes: seq<byte>)
    ensures OverridePass([s] + steps, now, bytes)
         == if s.kind.Override? && InWindow(s, now) && !PatchFits(s, |bytes|) then None
            else OverridePass(steps, now, AfterStep(s, now, bytes))
    ensures TotalDelay([s] + steps, now)
         == (if s.kind.Delay? && InWindow(s, now) then s.kind.delayNs else 0) + TotalDelay(steps, now)
  {
    assert ([s] + steps)[1..] == steps;
  }

  lemma SplitCons(s: Step, steps: seq<Step>)
    ensures Delays([s] + steps) == (if s.kind.Delay? then [s] else []) + Delays(steps)
    ensures NonDelays([s] + steps) == (if s.kind.Delay? then [] else [s]) + NonDelays(steps)
  {
    assert ([s] + steps)[1..] == steps;
  }

  lemma {:induction false} DelaysDoNotPatch(steps: seq<Step>, now: u64, bytes: seq<byte>)
    ensures OverridePass(steps, now, bytes) == OverridePass(NonDelays(steps), now, bytes)
    ensures TotalDelay(steps, now) == TotalDelay(Delays(steps), now)
    decreases |steps|
  {
    if steps == [] {
    } else {
      hide OverridePass, TotalDelay, Delays, NonDelays, InWindow, PatchFits;
      var s, rest := steps[0], steps[1..];
      assert steps == [s] + rest;
      var next := AfterStep(s, now, bytes);
      DelaysDoNotPatch(rest, now, next);
      OverrideCons(s, rest, now, bytes);
      SplitCons(s, rest);
      if s.kind.Delay? {
        assert [] + NonDelays(rest) == NonDelays(rest);
        OverrideCons(s, Delays(rest), now, bytes);
      } else {
        assert [] + Delays(rest) == Delays(rest);
        OverrideCons(s, NonDelays(rest), now, bytes);
      }
    }
  }

  lemma {:induction false} TotalDelaySplit(a: seq<Step>, b: seq<Step>, now: u64)
    ensures TotalDelay(a + b, now) == TotalDelay(a, now) + TotalDelay(b, now)
    decreases |a|
  {
    if a == [] {
      assert a + b == b;
    } else {
      assert (a + b)[1..] == a[1..] + b;
      TotalDelaySplit(a[1..], b, now);
    }
  }

  lemma RemoveOne<T>(s: seq<T>, i: nat)
    requires i < |s|
    ensures multiset(s[..i] + s[i + 1..]) == multiset(s) - multiset{s[i]}
  {
    assert s == s[..i] + ([s[i]] + s[i + 1..]);
    assert multiset(s) == multiset(s[..i]) + (multiset{s[i]} + multiset(s[i + 1..]));
  }

  lemma TotalDelayRemove(b: seq<Step>, i: nat, now: u64)
    requires i < |b|
    ensures TotalDelay(b, now) == TotalDelay([b[i]], now) + TotalDelay(b[..i] + b[i + 1..], now)
  {
    assert b == b[..i] + b[i..] && b[i..] == [b[i]] + b[i + 1..];
    TotalDelaySplit(b[..i], b[i..], now);
    TotalDelaySplit([b[i]], b[i + 1..], now);
    TotalDelaySplit(b[..i], b[i + 1..], now);
  }

  lemma {:induction false} TotalDelayPermutes(a: seq<Step>, b: seq<Step>, now: u64)
    requires multiset(a) == multiset(b)
    ensures TotalDelay(a, now) == TotalDelay(b, now)
    decreases |a|
  {
    if a == [] {
      assert |multiset(b)| == 0;
    } else {
      hide TotalDelay;
      assert a[0] in multiset(b);
      var i :| 0 <= i < |b| && b[i] == a[0];
      RemoveOne(a, 0);
      RemoveOne(b, i);
      TotalDelayRemove(a, 0, now);
      TotalDelayRemove(b, i, now);
      TotalDelayPermutes(a[..0] + a[1..], b[..i] + b[i + 1..], now);
    }
  }

  /** Two plans that differ in where and in which order they declare their delays
      deliver the same messages at the same times. */
  lemma {:induction false} DelayOrderIsIrrelevant(a: seq<Step>, b: seq<Step>, duration: u64, msgs: seq<Sent>)
    requires multiset(Delays(a)) == multiset(Delays(b))
    requires NonDelays(a) == NonDelays(b)
    ensures Delivered(Feed(a, duration, msgs)) == Delivered(Feed(b, duration, msgs))
  {
    StreamSemantics(a, duration, msgs);
    StreamSemantics(b, duration, msgs);
    DelaysDoNotDrop(a, msgs);
    DelaysDoNotDrop(b, msgs);
    SamePatchAndShift(a, b, duration, Stages(a, msgs));
  }

  lemma SameTotals(a: seq<Step>, b: seq<Step>, now: u64, bytes: seq<byte>)
    requires multiset(Delays(a)) == multiset(Delays(b))
    requires NonDelays(a) == NonDelays(b)
    ensures TotalDelay(a, now) == TotalDelay(b, now)
    ensures OverridePass(a, now, bytes) == OverridePass(b, now, bytes)
  {
    hide *;
    DelaysDoNotPatch(a, now, bytes);
    DelaysDoNotPatch(b, now, bytes);
    TotalDelayPermutes(Delays(a), Delays(b), now);
  }

  lemma SameForOne(a: seq<Step>, b: seq<Step>, duration: u64, m: Sent)
    requires TotalDelay(a, m.now) == TotalDelay(b, m.now)
    requires OverridePass(a, m.now, m.bytes) == OverridePass(b, m.now, m.bytes)
    ensures Shifted(a, duration, m) == Shifted(b, duration, m)
  {
    hide TotalDelay, OverridePass;
  }

  lemma {:induction false} SamePatchAndShift(a: seq<Step>, b: seq<Step>, duration: u64, msgs: seq<Sent>)
    requires multiset(Delays(a)) == multiset(Delays(b))
    requires NonDelays(a) == NonDelays(b)
    ensures ShiftAndPatch(a, duration, msgs) == ShiftAndPatch(b, duration, msgs)
    decreases |msgs|
  {
    hide Shifted, Delays, NonDelays;
    if msgs == [] {
    } else {
      SameTotals(a, b, msgs[0].now, msgs[0].bytes);
      SameForOne(a, b, duration, msgs[0]);
      SamePatchAndShift(a, b, duration, msgs[1..]);
    }
  }
}
