// The slot loop ends, after no more slots than there are activations and replayed
// messages left; and its slot times only move forward exactly when the replayed
// streams do.

module SlotProofs {
  import opened VirtualTime
  import opened Schedule
  import opened ScheduleProofs

  // ----- Replayed messages ------------------------------------------------------

  /** The messages a replayer selects among the first `k` stored ones. */
  function Picked(r: Replayer, duration: u64, k: nat): seq<Stored>
    requires k <= |r.stored|
  {
    if k == 0 then []
    else Picked(r, duration, k - 1) + if Selected(r, r.stored[k - 1], duration) then [r.stored[k - 1]] else []
  }

  /** A replayer between two slots: its cursor rests on a selected message or at the end. */
  ghost predicate Rested(r: Replayer, duration: u64) {
    && r.cursor <= |r.stored|
    && (r.cursor < |r.stored| ==> Selected(r, r.stored[r.cursor], duration))
  }

  ghost predicate AllRested(c: Control, duration: u64) {
    forall j :: 0 <= j < |c.replayers| ==> Rested(c.replayers[j], duration)
  }

  lemma {:induction false} PickedIgnoresCursor(r: Replayer, s: Replayer, duration: u64, k: nat)
    requires r.(cursor := 0) == s.(cursor := 0) && k <= |r.stored|
    ensures Picked(r, duration, k) == Picked(s, duration, k)
    decreases k
  {
    if k == 0 {
    } else {
      PickedIgnoresCursor(r, s, duration, k - 1);
    }
  }

  lemma {:induction false} NothingPicked(r: Replayer, duration: u64, lo: nat, hi: nat)
    requires lo <= hi <= |r.stored|
    requires forall i :: lo <= i < hi ==> !Selected(r, r.stored[i], duration)
    ensures Picked(r, duration, hi) == Picked(r, duration, lo)
    decreases hi
  {
    if lo == hi {
    } else {
      NothingPicked(r, duration, lo, hi - 1);
    }
  }

  lemma {:induction false} DrainRests(r: Replayer, now: u64, duration: u64)
    requires Rested(r, duration)
    ensures Rested(Drain(r, now, duration), duration)
    ensures NextPublish(Drain(r, now, duration)) == now ==> Drain(r, now, duration).cursor == |r.stored|
    decreases |r.stored| - r.cursor
  {
    if r.cursor == |r.stored| || r.stored[r.cursor].time != now {
    } else {
      DrainRests(Skip(r.(cursor := r.cursor + 1), duration), now, duration);
    }
  }

  /** The run of messages stamped `now` that `publish_due` publishes. */
  function DueRun(r: Replayer, now: u64, duration: u64): (ms: seq<Stored>)
    requires r.cursor <= |r.stored|
    ensures forall i :: 0 <= i < |ms| ==> ms[i].time == now
    ensures ms == [] <==> r.cursor == |r.stored| || r.stored[r.cursor].time != now
    decreases |r.stored| - r.cursor
  {
    if r.cursor < |r.stored| && r.stored[r.cursor].time == now
    then [r.stored[r.cursor]] + DueRun(Skip(r.(cursor := r.cursor + 1), duration), now, duration)
    else []
  }

  lemma StepPast(r: Replayer, duration: u64)
    requires Rested(r, duration) && r.cursor < |r.stored|
    ensures var next := Skip(r.(cursor := r.cursor + 1), duration);
      && Rested(next, duration)
      && Picked(r, duration, next.cursor) == Picked(r, duration, r.cursor) + [r.stored[r.cursor]]
  {
    var next := Skip(r.(cursor := r.cursor + 1), duration);
    NothingPicked(r, duration, r.cursor + 1, next.cursor);
  }

  /** `publish_due` moves past exactly that run. */
  lemma {:induction false} DrainPicks(r: Replayer, now: u64, duration: u64)
    requires Rested(r, duration)
    ensures Picked(r, duration, Drain(r, now, duration).cursor)
         == Picked(r, duration, r.cursor) + DueRun(r, now, duration)
    decreases |r.stored| - r.cursor
  {
    hide Picked;
    if r.cursor < |r.stored| && r.stored[r.cursor].time == now {
      var next := Skip(r.(cursor := r.cursor + 1), duration);
      var s := Drain(next, now, duration);
      StepPast(r, duration);
      DrainPicks(next, now, duration);
      PickedIgnoresCursor(r, next, duration, next.cursor);
      PickedIgnoresCursor(r, next, duration, s.cursor);
      var head, rest := [r.stored[r.cursor]], DueRun(next, now, duration);
      assert DueRun(r, now, duration) == head + rest;
      assert Picked(r, duration, r.cursor) + head + rest == Picked(r, duration, r.cursor) + (head + rest);
    } else {
      assert Picked(r, duration, r.cursor) + [] == Picked(r, duration, r.cursor);
    }
  }

  lemma {:induction false} PickedGrows(r: Replayer, duration: u64, k: nat)
    requires k <= |r.stored|
    ensures |Picked(r, duration, k)| <= |Picked(r, duration, |r.stored|)|
    ensures Picked(r, duration, k) <= Picked(r, duration, |r.stored|)
    decreases |r.stored| - k
  {
    if k == |r.stored| {
    } else {
      PickedGrows(r, duration, k + 1);
    }
  }

  // ----- Remaining work ------------------------------------------------------------

  /** How many of next, next + period, ... lie inside the run. */
  function InstantsFrom(next: nat, period: pos64, duration: u64): nat
    decreases duration - next
  {
    if next >= duration then 0 else 1 + InstantsFrom(next + period, period, duration)
  }

  function TaskWork(t: Task, duration: u64): nat {
    if t.done then 0 else InstantsFrom(t.next, t.period, duration)
  }

  function ReplayWork(r: Replayer, duration: u64): nat {
    if r.cursor > |r.stored| then 0
    else |Picked(r, duration, |r.stored|)| - (PickedGrows(r, duration, r.cursor); |Picked(r, duration, r.cursor)|)
  }

  function Total(xs: seq<nat>): nat {
    if xs == [] then 0 else xs[0] + Total(xs[1..])
  }

  function TaskWorks(c: Control, duration: u64): seq<nat> {
    seq(|c.tasks|, i requires 0 <= i < |c.tasks| => TaskWork(c.tasks[i], duration))
  }

  function ReplayWorks(c: Control, duration: u64): seq<nat> {
    seq(|c.replayers|, j requires 0 <= j < |c.replayers| => ReplayWork(c.replayers[j], duration))
  }

  /** Activations still to run plus selected messages still to replay. */
  function Work(c: Control, duration: u64): nat {
    Total(TaskWorks(c, duration)) + Total(ReplayWorks(c, duration))
  }

  lemma {:induction false} TotalAtMost(xs: seq<nat>, ys: seq<nat>)
    requires |xs| == |ys| && forall i :: 0 <= i < |xs| ==> xs[i] <= ys[i]
    ensures Total(xs) <= Total(ys)
    ensures (exists i :: 0 <= i < |xs| && xs[i] < ys[i]) ==> Total(xs) < Total(ys)
    decreases |xs|
  {
    if xs == [] {
    } else {
      TotalAtMost(xs[1..], ys[1..]);
      if i :| 0 <= i < |xs| && xs[i] < ys[i] {
        if i > 0 { assert xs[1..][i - 1] < ys[1..][i - 1]; }
      }
    }
  }

  /** One activation is one unit of work. */
  lemma AdvanceWork(t: Task, duration: u64)
    requires TaskOk(t, duration) && !t.done
    ensures TaskWork(Advance(t, duration), duration) == TaskWork(t, duration) - 1
  {
    assert t.next == Instant(t, t.fired) < duration;
    assert InstantsFrom(t.next, t.period, duration) == 1 + InstantsFrom(t.next + t.period, t.period, duration);
  }

  lemma DrainWork(r: Replayer, now: u64, duration: u64)
    requires Rested(r, duration)
    ensures Rested(Drain(r, now, duration), duration)
    ensures ReplayWork(Drain(r, now, duration), duration) <= ReplayWork(r, duration)
    ensures r.cursor < |r.stored| && NextPublish(r) == now ==>
      ReplayWork(Drain(r, now, duration), duration) < ReplayWork(r, duration)
  {
    var ms := DueRun(r, now, duration);
    DrainRests(r, now, duration);
    DrainPicks(r, now, duration);
    var s := Drain(r, now, duration);
    PickedIgnoresCursor(r, s, duration, s.cursor);
    PickedIgnoresCursor(r, s, duration, |r.stored|);
    PickedGrows(r, duration, r.cursor);
    PickedGrows(r, duration, s.cursor);
  }

  lemma StepShrinksWork(c: Control, duration: u64, slot: u64, items: seq<Item>, r: Control)
    requires SlotStep(c, duration, slot, items, r) && ScheduleOk(c, duration) && AllRested(c, duration)
    requires (exists i :: 0 <= i < |c.tasks| && !c.tasks[i].done && c.tasks[i].next == slot)
          || (exists j :: 0 <= j < |c.replayers| && c.replayers[j].cursor < |c.replayers[j].stored|
                          && NextPublish(c.replayers[j]) == slot)
    ensures AllRested(r, duration)
    ensures Work(r, duration) < Work(c, duration)
  {
    forall i | 0 <= i < |c.tasks|
      ensures TaskWorks(r, duration)[i] <= TaskWorks(c, duration)[i]
      ensures !c.tasks[i].done && c.tasks[i].next == slot ==> TaskWorks(r, duration)[i] < TaskWorks(c, duration)[i]
    {
      if RunTask(i) in items { AdvanceWork(c.tasks[i], duration); }
    }
    forall j | 0 <= j < |c.replayers|
      ensures Rested(r.replayers[j], duration)
      ensures ReplayWorks(r, duration)[j] <= ReplayWorks(c, duration)[j]
      ensures c.replayers[j].cursor < |c.replayers[j].stored| && NextPublish(c.replayers[j]) == slot ==>
        ReplayWorks(r, duration)[j] < ReplayWorks(c, duration)[j]
    {
      DrainWork(c.replayers[j], slot, duration);
    }
    TotalAtMost(TaskWorks(r, duration), TaskWorks(c, duration));
    TotalAtMost(ReplayWorks(r, duration), ReplayWorks(c, duration));
  }

  // ----- The loop ends ----------------------------------------------------------------

  ghost predicate InLoop(c: Control, duration: u64) {
    Going(c, duration) && AllRested(c, duration)
  }

  lemma InitialInLoop(c: Control, duration: u64)
    requires Initial(c, duration)
    ensures InLoop(c, duration)
  {
    InitialIsOk(c, duration);
  }

  /** The loop stops exactly when nothing is left. */
  lemma StopsWhenCompleted(c: Control, duration: u64)
    requires InLoop(c, duration)
    ensures NextSlot(c) == MAX64 <==> Completed(c)
    ensures NextSlot(c) != MAX64 ==>
      || (exists i :: 0 <= i < |c.tasks| && !c.tasks[i].done && c.tasks[i].next == NextSlot(c))
      || (exists j :: 0 <= j < |c.replayers| && c.replayers[j].cursor < |c.replayers[j].stored|
                      && NextPublish(c.replayers[j]) == NextSlot(c))
  {
    if NextSlot(c) == MAX64 {
      forall i | 0 <= i < |c.tasks| ensures c.tasks[i].done { assert TaskOk(c.tasks[i], duration); }
      forall j | 0 <= j < |c.replayers| ensures c.replayers[j].cursor == |c.replayers[j].stored| {
        assert Rested(c.replayers[j], duration);
      }
    } else if exists j :: 0 <= j < |c.replayers| && NextPublish(c.replayers[j]) == NextSlot(c) {
      var j :| 0 <= j < |c.replayers| && NextPublish(c.replayers[j]) == NextSlot(c);
      assert Rested(c.replayers[j], duration);
    }
  }

  /** Every iteration of the slot loop strictly reduces the remaining work, for any
      tasks and any recordings. */
  lemma SlotShrinksWork(c: Control, duration: u64)
    requires InLoop(c, duration) && NextSlot(c) != MAX64
    ensures InLoop(RunSlot(c, duration), duration)
    ensures Work(RunSlot(c, duration), duration) < Work(c, duration)
    ensures RunSlot(c, duration).slots == c.slots + [NextSlot(c)]
  {
    SlotKeepsGoing(c, duration);
    RunSlotIsStep(c, duration);
    StopsWhenCompleted(c, duration);
    StepShrinksWork(c, duration, NextSlot(c), Agenda(c, NextSlot(c)), RunSlot(c, duration));
  }

  /** A run is over after at most as many slots as there is work at its start. */
  lemma {:induction false} RunEnds(c: Control, duration: u64, n: nat)
    requires Cursors(c) && InLoop(c, duration) && n >= Work(c, duration)
    ensures InLoop(RunSlots(c, duration, n), duration) && Completed(RunSlots(c, duration, n))
    ensures |RunSlots(c, duration, n).slots| <= |c.slots| + Work(c, duration)
    decreases n
  {
    hide RunSlot, Work, InLoop, NextSlot, Completed;
    StopsWhenCompleted(c, duration);
    if NextSlot(c) == MAX64 {
    } else {
      SlotShrinksWork(c, duration);
      RunEnds(RunSlot(c, duration), duration, n - 1);
    }
  }

  // ----- When slot times only move forward -----------------------------------------------

  ghost predicate StrictlyIncreasing(ts: seq<u64>) {
    forall a, b :: 0 <= a < b < |ts| ==> ts[a] < ts[b]
  }

  ghost predicate NonDecreasing(ms: seq<Stored>) {
    forall a, b :: 0 <= a < b < |ms| ==> ms[a].time <= ms[b].time
  }

  /** The selected stream of a replayer, from first to last. */
  function SelectedStream(r: Replayer, duration: u64): seq<Stored> {
    Picked(r, duration, |r.stored|)
  }

  ghost predicate StreamsAscend(c: Control, duration: u64) {
    forall j :: 0 <= j < |c.replayers| ==> NonDecreasing(SelectedStream(c.replayers[j], duration))
  }

  function LastSlot(c: Control): int {
    if c.slots == [] then -1 else c.slots[|c.slots| - 1]
  }

  /** Everything still to come lies after the last slot. */
  ghost predicate Ahead(c: Control) {
    && (forall i :: 0 <= i < |c.tasks| && !c.tasks[i].done ==> LastSlot(c) < c.tasks[i].next)
    && (forall j :: 0 <= j < |c.replayers| ==> LastSlot(c) < NextPublish(c.replayers[j]))
  }

  /** What a replayer has published, in time order and none after the last slot. */
  ghost predicate Behind(c: Control, duration: u64, j: nat)
    requires j < |c.replayers| && c.replayers[j].cursor <= |c.replayers[j].stored|
  {
    var ms := Picked(c.replayers[j], duration, c.replayers[j].cursor);
    NonDecreasing(ms) && forall a :: 0 <= a < |ms| ==> ms[a].time <= LastSlot(c)
  }

  ghost predicate AllBehind(c: Control, duration: u64) {
    forall j :: 0 <= j < |c.replayers| && c.replayers[j].cursor <= |c.replayers[j].stored| ==> Behind(c, duration, j)
  }

  lemma IncreasingAppend(ts: seq<u64>, t: u64)
    ensures StrictlyIncreasing(ts + [t]) <==> StrictlyIncreasing(ts) && (ts != [] ==> ts[|ts| - 1] < t)
  {
    if StrictlyIncreasing(ts + [t]) {
      forall a, b | 0 <= a < b < |ts| ensures ts[a] < ts[b] { assert (ts + [t])[a] < (ts + [t])[b]; }
      if ts != [] { assert (ts + [t])[|ts| - 1] < (ts + [t])[|ts|]; }
    }
  }

  lemma StepKeepsBehind(c: Control, duration: u64, slot: u64, items: seq<Item>, r: Control, j: nat)
    requires SlotStep(c, duration, slot, items, r) && AllRested(c, duration) && j < |c.replayers|
    requires Behind(c, duration, j) && LastSlot(c) < slot
    ensures r.replayers[j].cursor <= |r.replayers[j].stored| && Behind(r, duration, j)
  {
    var p, q := c.replayers[j], r.replayers[j];
    assert q == Drain(p, slot, duration);
    var ms := DueRun(p, slot, duration);
    DrainRests(p, slot, duration);
    DrainPicks(p, slot, duration);
    PickedIgnoresCursor(p, q, duration, q.cursor);
  }

  /** A replayer whose selected stream ascends is past `slot` once the slot is over. */
  lemma DrainAhead(r: Replayer, slot: u64, duration: u64)
    requires Rested(r, duration) && NonDecreasing(SelectedStream(r, duration)) && slot <= NextPublish(r) && slot < MAX64
    ensures slot < NextPublish(Drain(r, slot, duration))
  {
    var s := Drain(r, slot, duration);
    var ms := DueRun(r, slot, duration);
    DrainRests(r, slot, duration);
    DrainPicks(r, slot, duration);
    if s.cursor < |r.stored| && s.cursor != r.cursor {
      var n := |Picked(r, duration, s.cursor)|;
      PickedGrows(r, duration, s.cursor);
      PickedGrows(r, duration, s.cursor + 1);
      var all := SelectedStream(r, duration);
      assert all[n] == r.stored[s.cursor] by {
        assert Picked(r, duration, s.cursor + 1) == Picked(r, duration, s.cursor) + [r.stored[s.cursor]];
      }
      if ms != [] {
        assert all[n - 1] == Picked(r, duration, s.cursor)[n - 1] == ms[|ms| - 1];
      } else {
        DrainIdle(r, slot, duration);
      }
    }
  }

  lemma DrainIdle(r: Replayer, now: u64, duration: u64)
    requires r.cursor <= |r.stored| && (NextPublish(r) != now || r.cursor == |r.stored|)
    ensures Drain(r, now, duration) == r
  {
  }

  lemma StepKeepsAhead(c: Control, duration: u64, slot: u64, items: seq<Item>, r: Control)
    requires SlotStep(c, duration, slot, items, r) && ScheduleOk(c, duration) && AllRested(c, duration)
    requires StreamsAscend(c, duration) && slot < MAX64
    ensures Ahead(r)
  {
    forall i | 0 <= i < |r.tasks| && !r.tasks[i].done ensures slot < r.tasks[i].next {
      StepAdvances(c, duration, slot, items, r, i);
    }
    forall j | 0 <= j < |r.replayers| ensures slot < NextPublish(r.replayers[j]) {
      DrainAhead(c.replayers[j], slot, duration);
    }
  }

  lemma StreamsAreStatic(c: Control, r: Control, duration: u64)
    requires SameDeclarations(c, r)
    ensures StreamsAscend(c, duration) <==> StreamsAscend(r, duration)
    ensures forall j :: 0 <= j < |c.replayers| ==>
      SelectedStream(c.replayers[j], duration) == SelectedStream(r.replayers[j], duration)
  {
    forall j | 0 <= j < |c.replayers|
      ensures SelectedStream(c.replayers[j], duration) == SelectedStream(r.replayers[j], duration)
    {
      assert r.replayers[j].(cursor := 0) == c.replayers[j].(cursor := 0);
      PickedIgnoresCursor(c.replayers[j], r.replayers[j], duration, |c.replayers[j].stored|);
    }
  }

  /** Both halves of the characterisation, between slots. */
  ghost predicate TimeOk(c: Control, duration: u64) {
    && (StreamsAscend(c, duration) ==> StrictlyIncreasing(c.slots) && Ahead(c))
    && (StrictlyIncreasing(c.slots) ==> AllBehind(c, duration))
  }

  lemma StepKeepsTime(c: Control, duration: u64, slot: u64, items: seq<Item>, r: Control)
    requires SlotStep(c, duration, slot, items, r) && InLoop(c, duration) && TimeOk(c, duration)
    requires (exists i :: 0 <= i < |c.tasks| && !c.tasks[i].done && c.tasks[i].next == slot)
          || (exists j :: 0 <= j < |c.replayers| && NextPublish(c.replayers[j]) == slot)
    requires slot < MAX64
    ensures TimeOk(r, duration)
  {
    StepKeepsDeclarations(c, duration, slot, items, r);
    StreamsAreStatic(c, r, duration);
    IncreasingAppend(c.slots, slot);
    if StreamsAscend(c, duration) {
      StepKeepsAhead(c, duration, slot, items, r);
    }
    if StrictlyIncreasing(r.slots) {
      forall j | 0 <= j < |r.replayers| && r.replayers[j].cursor <= |r.replayers[j].stored|
        ensures Behind(r, duration, j)
      {
        assert Rested(c.replayers[j], duration);
        StepKeepsBehind(c, duration, slot, items, r, j);
      }
    }
  }

  lemma SlotKeepsTime(c: Control, duration: u64)
    requires InLoop(c, duration) && NextSlot(c) != MAX64 && TimeOk(c, duration)
    ensures InLoop(RunSlot(c, duration), duration) && TimeOk(RunSlot(c, duration), duration)
  {
    SlotShrinksWork(c, duration);
    RunSlotIsStep(c, duration);
    StopsWhenCompleted(c, duration);
    StepKeepsTime(c, duration, NextSlot(c), Agenda(c, NextSlot(c)), RunSlot(c, duration));
  }

  lemma {:induction false} RunKeepsTime(c: Control, duration: u64, n: nat)
    requires Cursors(c) && InLoop(c, duration) && TimeOk(c, duration)
    ensures InLoop(RunSlots(c, duration, n), duration) && TimeOk(RunSlots(c, duration, n), duration)
    decreases n
  {
    hide RunSlot, InLoop, TimeOk, NextSlot;
    if n == 0 || NextSlot(c) == MAX64 {
    } else {
      SlotKeepsTime(c, duration);
      RunKeepsTime(RunSlot(c, duration), duration, n - 1);
    }
  }

  lemma InitialTime(c: Control, duration: u64)
    requires Initial(c, duration)
    ensures TimeOk(c, duration)
  {
    forall j | 0 <= j < |c.replayers| && c.replayers[j].cursor <= |c.replayers[j].stored|
      ensures Behind(c, duration, j)
    {
      NothingPicked(c.replayers[j], duration, 0, c.replayers[j].cursor);
    }
  }

  /** In a completed run the slot times strictly increase if and only if every
      replayer's selected stream is non-decreasing in time. */
  lemma SlotTimesIncreaseIff(c: Control, duration: u64, n: nat)
    requires Initial(c, duration) && Completed(RunSlots(c, duration, n))
    ensures StrictlyIncreasing(RunSlots(c, duration, n).slots) <==> StreamsAscend(c, duration)
  {
    hide RunSlots;
    InitialInLoop(c, duration);
    InitialTime(c, duration);
    RunKeepsTime(c, duration, n);
    RunKeepsDeclarations(c, duration, n);
    var r := RunSlots(c, duration, n);
    StreamsAreStatic(c, r, duration);
    if StrictlyIncreasing(r.slots) {
      forall j | 0 <= j < |r.replayers| ensures NonDecreasing(SelectedStream(r.replayers[j], duration)) {
        assert Behind(r, duration, j);
      }
    }
  }
}
