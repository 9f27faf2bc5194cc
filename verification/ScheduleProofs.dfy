// What the slot loop guarantees: the activation log is exactly the declared
// instants in order, the loop ends, and when slot times only move forward.

module ScheduleProofs {
  import opened VirtualTime
  import opened Schedule

  // ----- The agenda of one slot ----------------------------------------------

  ghost predicate NoRepeats(items: seq<Item>) {
    forall a, b :: 0 <= a < b < |items| ==> items[a] != items[b]
  }

  /** Registration indices are handed out once, across tasks and replayers. */
  ghost predicate UniqueIndices(c: Control) {
    && (forall i, j :: 0 <= i < j < |c.tasks| ==> c.tasks[i].index != c.tasks[j].index)
    && (forall i, j :: 0 <= i < j < |c.replayers| ==> c.replayers[i].index != c.replayers[j].index)
    && (forall i, j :: 0 <= i < |c.tasks| && 0 <= j < |c.replayers| ==> c.tasks[i].index != c.replayers[j].index)
  }

  ghost predicate Sorted(c: Control, items: seq<Item>)
    requires AllKnown(c, items)
  {
    forall a, b :: 0 <= a < b < |items| ==> Before(c, items[a], items[b])
  }

  /** Distinct items are ordered one way or the other. */
  lemma BeforeIsTotal(c: Control, x: Item, y: Item)
    requires UniqueIndices(c) && Known(c, x) && Known(c, y) && x != y
    ensures Before(c, x, y) || Before(c, y, x)
  {
  }

  lemma BeforeTransitive(c: Control, x: Item, y: Item, z: Item)
    requires Known(c, x) && Known(c, y) && Known(c, z) && Before(c, x, y) && Before(c, y, z)
    ensures Before(c, x, z)
  {
  }

  lemma SortedCons(c: Control, x: Item, items: seq<Item>)
    requires Known(c, x) && AllKnown(c, items) && Sorted(c, items) && forall y :: y in items ==> Before(c, x, y)
    ensures AllKnown(c, [x] + items) && Sorted(c, [x] + items)
  {
    hide Before;
    var all := [x] + items;
    forall a, b | 0 <= a < b < |all| ensures Before(c, all[a], all[b]) {
      assert all[b] == items[b - 1] && items[b - 1] in items;
      if a > 0 { assert all[a] == items[a - 1]; }
    }
  }

  lemma SortedRest(c: Control, items: seq<Item>)
    requires AllKnown(c, items) && Sorted(c, items) && items != []
    ensures Known(c, items[0]) && AllKnown(c, items[1..]) && Sorted(c, items[1..])
    ensures forall y :: y in items[1..] ==> Before(c, items[0], y)
  {
    hide Before;
    forall y | y in items[1..] ensures Before(c, items[0], y) {
      var k :| 0 <= k < |items[1..]| && items[1..][k] == y;
      assert items[k + 1] == y;
    }
  }

  lemma {:induction false} InsertIsSorted(c: Control, x: Item, items: seq<Item>)
    requires UniqueIndices(c) && Known(c, x) && AllKnown(c, items) && Sorted(c, items) && x !in items
    ensures Sorted(c, Insert(c, x, items))
    decreases |items|
  {
    hide UniqueIndices, Before, Sorted;
    if items == [] {
      NoneSorted(c);
      SortedCons(c, x, []);
      assert [x] + [] == [x] + items;
    } else {
      SortedRest(c, items);
      var first, rest := items[0], items[1..];
      if Before(c, x, first) {
        forall y | y in items ensures Before(c, x, y) {
          if y != first { BeforeTransitive(c, x, first, y); }
        }
        SortedCons(c, x, items);
      } else {
        InsertIsSorted(c, x, rest);
        BeforeIsTotal(c, first, x);
        SortedCons(c, first, Insert(c, x, rest));
      }
    }
  }

  lemma NoneSorted(c: Control)
    ensures Sorted(c, [])
  {
  }

  lemma {:induction false} SortIsSorted(c: Control, items: seq<Item>)
    requires UniqueIndices(c) && AllKnown(c, items) && NoRepeats(items)
    ensures Sorted(c, Sort(c, items))
    decreases |items|
  {
    if items == [] {
    } else {
      assert forall y :: y in items[1..] ==> y in items;
      SortIsSorted(c, items[1..]);
      assert items[0] !in items[1..];
      InsertIsSorted(c, items[0], Sort(c, items[1..]));
    }
  }

  lemma {:induction false} DueTasksNoRepeats(c: Control, slot: u64, k: nat)
    requires k <= |c.tasks|
    ensures NoRepeats(DueTasks(c, slot, k))
    decreases k
  {
    if k == 0 {
    } else {
      DueTasksNoRepeats(c, slot, k - 1);
      assert RunTask(k - 1) !in DueTasks(c, slot, k - 1);
    }
  }

  lemma {:induction false} ReplaysNoRepeats(c: Control, prioritised: bool, k: nat)
    requires k <= |c.replayers|
    ensures NoRepeats(Replays(c, prioritised, k))
    decreases k
  {
    if k == 0 {
    } else {
      ReplaysNoRepeats(c, prioritised, k - 1);
      assert RunReplay(k - 1) !in Replays(c, prioritised, k - 1);
    }
  }

  lemma ConcatNoRepeats(a: seq<Item>, b: seq<Item>)
    requires NoRepeats(a) && NoRepeats(b)
    requires forall x :: x in a ==> x !in b
    ensures NoRepeats(a + b)
  {
    forall i, j | 0 <= i < j < |a + b| ensures (a + b)[i] != (a + b)[j] {
      if i < |a| <= j { assert a[i] in a && b[j - |a|] in b; }
    }
  }

  /** The due part of the agenda, sorted by priority and registration index. */
  function DuePart(c: Control, slot: u64): (items: seq<Item>)
    ensures AllKnown(c, items)
  {
    Sort(c, DueTasks(c, slot, |c.tasks|) + Replays(c, true, |c.replayers|))
  }

  lemma SortedHasNoRepeats(c: Control, items: seq<Item>)
    requires AllKnown(c, items) && Sorted(c, items)
    ensures NoRepeats(items)
  {
    forall a, b | 0 <= a < b < |items| ensures items[a] != items[b] {
      assert Before(c, items[a], items[b]);
    }
  }

  /** A slot runs exactly its due tasks and every replayer, each once, the due
      part in (priority, registration index) order. */
  lemma AgendaMeaning(c: Control, slot: u64)
    requires UniqueIndices(c)
    ensures Agenda(c, slot) == Replays(c, false, |c.replayers|) + DuePart(c, slot)
    ensures NoRepeats(Agenda(c, slot))
    ensures Sorted(c, DuePart(c, slot))
    ensures forall i: nat :: RunTask(i) in Agenda(c, slot)
                             <==> i < |c.tasks| && !c.tasks[i].done && c.tasks[i].next == slot
    ensures forall j: nat :: RunReplay(j) in Agenda(c, slot) <==> j < |c.replayers|
  {
    var tasks, late := DueTasks(c, slot, |c.tasks|), Replays(c, true, |c.replayers|);
    var early := Replays(c, false, |c.replayers|);
    DueTasksNoRepeats(c, slot, |c.tasks|);
    ReplaysNoRepeats(c, true, |c.replayers|);
    ReplaysNoRepeats(c, false, |c.replayers|);
    ConcatNoRepeats(tasks, late);
    SortIsSorted(c, tasks + late);
    SortedHasNoRepeats(c, DuePart(c, slot));
    forall x | x in early ensures x !in DuePart(c, slot) {
      assert x !in tasks && x !in late;
    }
    ConcatNoRepeats(early, DuePart(c, slot));
  }

  // ----- The effect of one slot ----------------------------------------------

  function FiredBy(now: u64, items: seq<Item>): seq<Fired> {
    if items == [] then []
    else (if items[0].RunTask? then [Fired(now, items[0].task)] else []) + FiredBy(now, items[1..])
  }

  ghost predicate Effect(c: Control, duration: u64, now: u64, items: seq<Item>, r: Control)
    requires Cursors(c)
  {
    && |r.tasks| == |c.tasks| && |r.replayers| == |c.replayers| && r.slots == c.slots
    && r.activations == c.activations + FiredBy(now, items)
    && (forall i :: 0 <= i < |c.tasks| ==>
          r.tasks[i] == if RunTask(i) in items then Advance(c.tasks[i], duration) else c.tasks[i])
    && (forall j :: 0 <= j < |c.replayers| ==>
          r.replayers[j] == if RunReplay(j) in items then Drain(c.replayers[j], now, duration) else c.replayers[j])
  }

  /** One item, then the rest of the list. */
  lemma EffectCons(c: Control, duration: u64, now: u64, first: Item, rest: seq<Item>, r: Control)
    requires Cursors(c) && Known(c, first) && first !in rest
    requires Effect(RunItem(c, duration, now, first), duration, now, rest, r)
    ensures Effect(c, duration, now, [first] + rest, r)
  {
    var items := [first] + rest;
    assert items[1..] == rest;
    assert forall x :: x in items <==> x == first || x in rest;
    assert r.activations == c.activations + FiredBy(now, items) by {
      hide Advance, Drain;
      if first.RunTask? {
        assert c.activations + [Fired(now, first.task)] + FiredBy(now, rest)
            == c.activations + ([Fired(now, first.task)] + FiredBy(now, rest));
      } else {
        assert [] + FiredBy(now, rest) == FiredBy(now, rest);
      }
    }
    hide Advance, Drain, FiredBy;
  }

  lemma {:induction false} RunItemsEffect(c: Control, duration: u64, now: u64, items: seq<Item>)
    requires AllKnown(c, items) && Cursors(c) && NoRepeats(items)
    ensures Effect(c, duration, now, items, RunItems(c, duration, now, items))
    decreases |items|
  {
    if items == [] {
      assert c.activations + [] == c.activations;
    } else {
      hide Effect, RunItem;
      var c', rest := RunItem(c, duration, now, items[0]), items[1..];
      assert AllKnown(c', rest) by {
        assert forall x :: x in rest ==> x in items && (Known(c, x) ==> Known(c', x));
      }
      RunItemsEffect(c', duration, now, rest);
      assert items[0] in items && items == [items[0]] + rest;
      EffectCons(c, duration, now, items[0], rest, RunItems(c', duration, now, rest));
    }
  }

  // ----- The activation log ---------------------------------------------------

  function Instant(t: Task, k: nat): int {
    t.offset + k * t.period
  }

  /** Where a task stands: it has fired `fired` times, all inside the run; its next
      instant is inside the run exactly when it is not done. */
  ghost predicate TaskOk(t: Task, duration: u64) {
    && (t.done <==> Instant(t, t.fired) >= duration)
    && (!t.done ==> t.next == Instant(t, t.fired))
    && (t.fired > 0 ==> Instant(t, t.fired - 1) < duration)
  }

  lemma AdvanceOk(t: Task, duration: u64)
    requires TaskOk(t, duration) && !t.done
    ensures TaskOk(Advance(t, duration), duration)
    ensures !Advance(t, duration).done ==> Advance(t, duration).next > t.next
  {
    assert Instant(t, t.fired + 1) == Instant(t, t.fired) + t.period;
  }

  /** The instants one task was activated at, in log order. */
  function Times(log: seq<Fired>, i: nat): seq<u64> {
    if log == [] then [] else (if log[0].task == i then [log[0].time] else []) + Times(log[1..], i)
  }

  lemma {:induction false} TimesSplit(a: seq<Fired>, b: seq<Fired>, i: nat)
    ensures Times(a + b, i) == Times(a, i) + Times(b, i)
    decreases |a|
  {
    if a == [] {
      assert a + b == b && [] + Times(b, i) == Times(b, i);
    } else {
      assert (a + b)[1..] == a[1..] + b;
      TimesSplit(a[1..], b, i);
      var head := if a[0].task == i then [a[0].time] else [];
      assert head + (Times(a[1..], i) + Times(b, i)) == head + Times(a[1..], i) + Times(b, i);
    }
  }

  lemma {:induction false} TimesOfSlot(now: u64, items: seq<Item>, i: nat)
    requires NoRepeats(items)
    ensures Times(FiredBy(now, items), i) == if RunTask(i) in items then [now] else []
    decreases |items|
  {
    if items == [] {
    } else {
      var rest := items[1..];
      TimesOfSlot(now, rest, i);
      assert items[0] !in rest;
      assert forall x :: x in items <==> x == items[0] || x in rest;
      if items[0].RunTask? {
        assert ([Fired(now, items[0].task)] + FiredBy(now, rest))[1..] == FiredBy(now, rest);
      } else {
        assert [] + FiredBy(now, rest) == FiredBy(now, rest);
      }
    }
  }

  ghost predicate LogOk(c: Control) {
    && (forall a :: 0 <= a < |c.activations| ==> c.activations[a].task < |c.tasks|)
    && (forall i :: 0 <= i < |c.tasks| ==>
          && |Times(c.activations, i)| == c.tasks[i].fired
          && forall k :: 0 <= k < c.tasks[i].fired ==> Times(c.activations, i)[k] == Instant(c.tasks[i], k))
  }

  /** (time, priority, registration index), compared in that order. */
  predicate Earlier(c: Control, a: Fired, b: Fired)
    requires a.task < |c.tasks| && b.task < |c.tasks|
  {
    a.time < b.time || (a.time == b.time && Before(c, RunTask(a.task), RunTask(b.task)))
  }

  ghost predicate LogSorted(c: Control)
    requires forall a :: 0 <= a < |c.activations| ==> c.activations[a].task < |c.tasks|
  {
    forall a, b :: 0 <= a < b < |c.activations| ==> Earlier(c, c.activations[a], c.activations[b])
  }

  /** Everything logged lies strictly before everything still to come. */
  ghost predicate Frontier(c: Control) {
    forall a, i :: 0 <= a < |c.activations| && 0 <= i < |c.tasks| && !c.tasks[i].done ==>
      c.activations[a].time < c.tasks[i].next
  }

  ghost predicate ScheduleOk(c: Control, duration: u64) {
    && (forall i :: 0 <= i < |c.tasks| ==> TaskOk(c.tasks[i], duration))
    && LogOk(c) && LogSorted(c) && Frontier(c)
  }

  /** A run as `setup` leaves it. */
  ghost predicate Initial(c: Control, duration: u64) {
    && c.activations == [] && c.slots == [] && UniqueIndices(c)
    && (forall i :: 0 <= i < |c.tasks| ==>
          c.tasks[i] == NewTask(c.tasks[i].offset, c.tasks[i].period, c.tasks[i].priority, c.tasks[i].index, duration))
    && (forall j :: 0 <= j < |c.replayers| ==> c.replayers[j] == Skip(c.replayers[j].(cursor := 0), duration))
  }

  lemma InitialIsOk(c: Control, duration: u64)
    requires Initial(c, duration)
    ensures ScheduleOk(c, duration) && Cursors(c)
  {
  }

  // Fired entries of one slot, in agenda order.
  lemma {:induction false} FiredByMembers(now: u64, items: seq<Item>, a: nat)
    requires a < |FiredBy(now, items)|
    ensures FiredBy(now, items)[a].time == now && RunTask(FiredBy(now, items)[a].task) in items
    decreases |items|
  {
    if items[0].RunTask? {
      if a > 0 { FiredByMembers(now, items[1..], a - 1); }
    } else {
      FiredByMembers(now, items[1..], a);
    }
  }

  lemma {:induction false} FiredBySorted(c: Control, now: u64, items: seq<Item>, a: nat, b: nat)
    requires AllKnown(c, items) && Sorted(c, items)
    requires a < b < |FiredBy(now, items)|
    ensures var f := FiredBy(now, items);
      f[a].task < |c.tasks| && f[b].task < |c.tasks| && Before(c, RunTask(f[a].task), RunTask(f[b].task))
    decreases |items|
  {
    var rest := items[1..];
    assert forall y :: y in rest ==> y in items;
    FiredByMembers(now, items, a);
    FiredByMembers(now, items, b);
    if items[0].RunTask? {
      if a == 0 {
        FiredByMembers(now, rest, b - 1);
        var k :| 0 <= k < |rest| && rest[k] == RunTask(FiredBy(now, items)[b].task);
        assert items[k + 1] == rest[k];
      } else {
        FiredBySorted(c, now, rest, a - 1, b - 1);
      }
    } else {
      FiredBySorted(c, now, rest, a, b);
    }
  }

  lemma {:induction false} FiredByReplays(now: u64, early: seq<Item>, due: seq<Item>)
    requires forall x :: x in early ==> x.RunReplay?
    ensures FiredBy(now, early + due) == FiredBy(now, due)
    decreases |early|
  {
    if early == [] {
      assert early + due == due;
    } else {
      assert (early + due)[1..] == early[1..] + due;
      assert (early + due)[0] in early;
      FiredByReplays(now, early[1..], due);
    }
  }

  // ----- One slot keeps the schedule ------------------------------------------

  predicate SameTask(a: Task, b: Task) {
    a.(next := 0, done := true, fired := 0) == b.(next := 0, done := true, fired := 0)
  }

  ghost predicate SameDeclarations(c: Control, r: Control) {
    && |r.tasks| == |c.tasks| && |r.replayers| == |c.replayers|
    && (forall i :: 0 <= i < |c.tasks| ==> SameTask(r.tasks[i], c.tasks[i]))
    && (forall j :: 0 <= j < |c.replayers| ==> r.replayers[j].(cursor := 0) == c.replayers[j].(cursor := 0))
  }

  /** What the rest of the proof needs to know of the items of a slot. */
  ghost predicate SlotItems(c: Control, slot: u64, items: seq<Item>) {
    && NoRepeats(items)
    && (forall i: nat :: RunTask(i) in items <==> i < |c.tasks| && !c.tasks[i].done && c.tasks[i].next == slot)
    && (forall j: nat :: RunReplay(j) in items <==> j < |c.replayers|)
    && (forall a, b :: 0 <= a < b < |FiredBy(slot, items)| ==>
          FiredBefore(c, FiredBy(slot, items)[a], FiredBy(slot, items)[b]))
  }

  predicate FiredBefore(c: Control, a: Fired, b: Fired) {
    a.task < |c.tasks| && b.task < |c.tasks| && Before(c, RunTask(a.task), RunTask(b.task))
  }

  /** `slot` opens next: nothing is due before it. */
  ghost predicate OpensNext(c: Control, slot: u64) {
    && (forall i :: 0 <= i < |c.tasks| && !c.tasks[i].done ==> slot <= c.tasks[i].next)
    && (forall j :: 0 <= j < |c.replayers| ==> slot <= NextPublish(c.replayers[j]))
  }

  ghost predicate SlotStep(c: Control, duration: u64, slot: u64, items: seq<Item>, r: Control) {
    && Cursors(c)
    && OpensNext(c, slot) && SlotItems(c, slot, items)
    && Effect(c.(slots := c.slots + [slot]), duration, slot, items, r)
  }

  lemma AgendaIsSlotItems(c: Control, slot: u64)
    requires UniqueIndices(c)
    ensures SlotItems(c, slot, Agenda(c, slot))
  {
    AgendaMeaning(c, slot);
    var items, due := Agenda(c, slot), DuePart(c, slot);
    FiredByReplays(slot, Replays(c, false, |c.replayers|), due);
    forall a, b | 0 <= a < b < |FiredBy(slot, items)|
      ensures FiredBefore(c, FiredBy(slot, items)[a], FiredBy(slot, items)[b])
    {
      FiredBySorted(c, slot, due, a, b);
    }
  }

  /** The slot loop's body is a slot step. */
  lemma RunSlotIsStep(c: Control, duration: u64)
    requires Cursors(c) && UniqueIndices(c)
    ensures SlotStep(c, duration, NextSlot(c), Agenda(c, NextSlot(c)), RunSlot(c, duration))
  {
    var slot := NextSlot(c);
    var items := Agenda(c, slot);
    AgendaIsSlotItems(c, slot);
    var start := c.(slots := c.slots + [slot]);
    assert AllKnown(start, items) by {
      assert forall x :: Known(c, x) ==> Known(start, x);
    }
    RunItemsEffect(start, duration, slot, items);
  }

  lemma StepKeepsDeclarations(c: Control, duration: u64, slot: u64, items: seq<Item>, r: Control)
    requires SlotStep(c, duration, slot, items, r)
    ensures SameDeclarations(c, r) && Cursors(r)
    ensures UniqueIndices(c) ==> UniqueIndices(r)
  {
    forall i | 0 <= i < |c.tasks| ensures SameTask(r.tasks[i], c.tasks[i]) && r.tasks[i].index == c.tasks[i].index {
    }
  }

  lemma StepAdvances(c: Control, duration: u64, slot: u64, items: seq<Item>, r: Control, i: nat)
    requires SlotStep(c, duration, slot, items, r) && ScheduleOk(c, duration) && i < |c.tasks|
    ensures TaskOk(r.tasks[i], duration)
    ensures !r.tasks[i].done ==> r.tasks[i].next > slot && !c.tasks[i].done && r.tasks[i].next >= c.tasks[i].next
  {
    if RunTask(i) in items { AdvanceOk(c.tasks[i], duration); }
  }

  /** The times of one task are its first instants. */
  ghost predicate FirstInstants(times: seq<u64>, t: Task) {
    |times| == t.fired && forall k :: 0 <= k < t.fired ==> times[k] == Instant(t, k)
  }

  lemma OneMoreInstant(times: seq<u64>, t: Task, duration: u64)
    requires FirstInstants(times, t) && TaskOk(t, duration) && !t.done
    ensures FirstInstants(times + [t.next], Advance(t, duration))
  {
    var t' := Advance(t, duration);
    assert forall k: nat :: Instant(t', k) == Instant(t, k);
  }

  lemma StepLogsTimes(c: Control, duration: u64, slot: u64, items: seq<Item>, r: Control, i: nat)
    requires SlotStep(c, duration, slot, items, r) && ScheduleOk(c, duration) && i < |c.tasks|
    ensures FirstInstants(Times(r.activations, i), r.tasks[i])
  {
    assert FirstInstants(Times(c.activations, i), c.tasks[i]) && TaskOk(c.tasks[i], duration);
    hide Times, TaskOk, FirstInstants, FiredBy, ScheduleOk, Advance, Drain, FiredBefore;
    TimesSplit(c.activations, FiredBy(slot, items), i);
    TimesOfSlot(slot, items, i);
    if RunTask(i) in items {
      OneMoreInstant(Times(c.activations, i), c.tasks[i], duration);
    } else {
      assert Times(c.activations, i) + [] == Times(c.activations, i);
    }
  }

  lemma StepEntry(c: Control, duration: u64, slot: u64, items: seq<Item>, r: Control, a: nat)
    requires SlotStep(c, duration, slot, items, r) && ScheduleOk(c, duration) && a < |r.activations|
    ensures r.activations[a].task < |c.tasks|
    ensures a < |c.activations| ==> r.activations[a] == c.activations[a]
    ensures a >= |c.activations| ==>
      var f := r.activations[a]; f.time == slot && !c.tasks[f.task].done && c.tasks[f.task].next == slot
  {
    if a >= |c.activations| {
      FiredByMembers(slot, items, a - |c.activations|);
      assert r.activations[a] == FiredBy(slot, items)[a - |c.activations|];
    }
  }

  lemma StepKeepsOrder(c: Control, duration: u64, slot: u64, items: seq<Item>, r: Control, a: nat, b: nat)
    requires SlotStep(c, duration, slot, items, r) && ScheduleOk(c, duration)
    requires a < b < |r.activations|
    ensures r.activations[a].task < |c.tasks| && r.activations[b].task < |c.tasks|
    ensures Earlier(c, r.activations[a], r.activations[b])
  {
    StepEntry(c, duration, slot, items, r, a);
    StepEntry(c, duration, slot, items, r, b);
    var n := |c.activations|;
    if a >= n {
      assert FiredBefore(c, FiredBy(slot, items)[a - n], FiredBy(slot, items)[b - n]);
    }
  }

  lemma StaticOrder(c: Control, r: Control, a: Fired, b: Fired)
    requires SameDeclarations(c, r) && a.task < |c.tasks| && b.task < |c.tasks|
    ensures Earlier(c, a, b) <==> Earlier(r, a, b)
  {
    assert SameTask(r.tasks[a.task], c.tasks[a.task]) && SameTask(r.tasks[b.task], c.tasks[b.task]);
  }

  lemma StepKeepsLog(c: Control, duration: u64, slot: u64, items: seq<Item>, r: Control)
    requires SlotStep(c, duration, slot, items, r) && ScheduleOk(c, duration)
    ensures LogOk(r)
  {
    forall a | 0 <= a < |r.activations| ensures r.activations[a].task < |r.tasks| {
      StepEntry(c, duration, slot, items, r, a);
    }
    forall i | 0 <= i < |r.tasks|
      ensures |Times(r.activations, i)| == r.tasks[i].fired
      ensures forall k :: 0 <= k < r.tasks[i].fired ==> Times(r.activations, i)[k] == Instant(r.tasks[i], k)
    {
      StepLogsTimes(c, duration, slot, items, r, i);
    }
  }

  lemma StepKeepsLogSorted(c: Control, duration: u64, slot: u64, items: seq<Item>, r: Control)
    requires SlotStep(c, duration, slot, items, r) && ScheduleOk(c, duration) && LogOk(r)
    ensures LogSorted(r)
  {
    StepKeepsDeclarations(c, duration, slot, items, r);
    forall a, b | 0 <= a < b < |r.activations| ensures Earlier(r, r.activations[a], r.activations[b]) {
      StepKeepsOrder(c, duration, slot, items, r, a, b);
      StaticOrder(c, r, r.activations[a], r.activations[b]);
    }
  }

  lemma StepKeepsFrontier(c: Control, duration: u64, slot: u64, items: seq<Item>, r: Control)
    requires SlotStep(c, duration, slot, items, r) && ScheduleOk(c, duration)
    ensures Frontier(r)
  {
    forall a, i | 0 <= a < |r.activations| && 0 <= i < |r.tasks| && !r.tasks[i].done
      ensures r.activations[a].time < r.tasks[i].next
    {
      StepAdvances(c, duration, slot, items, r, i);
      StepEntry(c, duration, slot, items, r, a);
    }
  }

  /** Every slot keeps the schedule. */
  lemma StepKeepsSchedule(c: Control, duration: u64, slot: u64, items: seq<Item>, r: Control)
    requires SlotStep(c, duration, slot, items, r) && ScheduleOk(c, duration)
    ensures ScheduleOk(r, duration)
  {
    forall i | 0 <= i < |r.tasks| ensures TaskOk(r.tasks[i], duration) {
      StepAdvances(c, duration, slot, items, r, i);
    }
    StepKeepsLog(c, duration, slot, items, r);
    StepKeepsLogSorted(c, duration, slot, items, r);
    StepKeepsFrontier(c, duration, slot, items, r);
  }

  /** The state of the slot loop between two slots. */
  ghost predicate Going(c: Control, duration: u64) {
    Cursors(c) && UniqueIndices(c) && ScheduleOk(c, duration)
  }

  lemma SlotKeepsGoing(c: Control, duration: u64)
    requires Going(c, duration)
    ensures Going(RunSlot(c, duration), duration) && SameDeclarations(c, RunSlot(c, duration))
  {
    RunSlotIsStep(c, duration);
    StepKeepsDeclarations(c, duration, NextSlot(c), Agenda(c, NextSlot(c)), RunSlot(c, duration));
    StepKeepsSchedule(c, duration, NextSlot(c), Agenda(c, NextSlot(c)), RunSlot(c, duration));
  }

  // ----- Whole runs -------------------------------------------------------------

  lemma SameDeclarationsTransitive(a: Control, b: Control, c: Control)
    requires SameDeclarations(a, b) && SameDeclarations(b, c)
    ensures SameDeclarations(a, c)
  {
    forall i | 0 <= i < |a.tasks| ensures SameTask(c.tasks[i], a.tasks[i]) {
      assert SameTask(c.tasks[i], b.tasks[i]) && SameTask(b.tasks[i], a.tasks[i]);
    }
  }

  lemma {:induction false} RunKeepsGoing(c: Control, duration: u64, n: nat)
    requires Cursors(c) && Going(c, duration)
    ensures Going(RunSlots(c, duration, n), duration)
    decreases n
  {
    hide RunSlot, Going, NextSlot;
    if n == 0 || NextSlot(c) == MAX64 {
    } else {
      SlotKeepsGoing(c, duration);
      RunKeepsGoing(RunSlot(c, duration), duration, n - 1);
    }
  }

  lemma {:induction false} RunKeepsDeclarations(c: Control, duration: u64, n: nat)
    requires Cursors(c) && Going(c, duration)
    ensures SameDeclarations(c, RunSlots(c, duration, n))
    decreases n
  {
    hide RunSlot, Going, NextSlot;
    if n == 0 || NextSlot(c) == MAX64 {
    } else {
      var r := RunSlot(c, duration);
      SlotKeepsGoing(c, duration);
      RunKeepsDeclarations(r, duration, n - 1);
      SameDeclarationsTransitive(c, r, RunSlots(r, duration, n - 1));
    }
  }

  lemma {:induction false} TimesIndex(log: seq<Fired>, f: Fired) returns (k: nat)
    requires f in log
    ensures k < |Times(log, f.task)| && Times(log, f.task)[k] == f.time
    decreases |log|
  {
    if log[0] == f {
      k := 0;
    } else {
      k := TimesIndex(log[1..], f);
      if log[0].task == f.task { k := k + 1; }
    }
  }

  lemma {:induction false} TimesMember(log: seq<Fired>, i: nat, k: nat)
    requires k < |Times(log, i)|
    ensures Fired(Times(log, i)[k], i) in log
    decreases |log|
  {
    if log[0].task == i {
      if k > 0 { TimesMember(log[1..], i, k - 1); } else { assert log[0] == Fired(Times(log, i)[0], i); }
    } else {
      TimesMember(log[1..], i, k);
    }
  }

  lemma {:induction false} InstantsIncrease(t: Task, j: nat, k: nat)
    requires j <= k
    ensures Instant(t, j) <= Instant(t, k)
    decreases k
  {
    if j >= k {
    } else {
      InstantsIncrease(t, j, k - 1);
      assert Instant(t, k) == Instant(t, k - 1) + t.period;
    }
  }

  /** A declared instant of a task, inside the run. */
  ghost predicate Declared(t: Task, duration: u64, time: u64) {
    exists k: nat :: time == Instant(t, k) < duration
  }

  /** Nothing is left to run. */
  ghost predicate Completed(c: Control) {
    && (forall i :: 0 <= i < |c.tasks| ==> c.tasks[i].done)
    && (forall j :: 0 <= j < |c.replayers| ==> c.replayers[j].cursor == |c.replayers[j].stored|)
  }

  lemma LoggedIsDeclared(c: Control, duration: u64, f: Fired)
    requires ScheduleOk(c, duration) && f in c.activations
    ensures f.task < |c.tasks| && Declared(c.tasks[f.task], duration, f.time)
  {
    var k := TimesIndex(c.activations, f);
    var t := c.tasks[f.task];
    assert TaskOk(t, duration);
    InstantsIncrease(t, k, t.fired - 1);
    assert f.time == Instant(t, k) < duration;
  }

  lemma DeclaredIsLogged(c: Control, duration: u64, i: nat, time: u64)
    requires ScheduleOk(c, duration) && i < |c.tasks| && c.tasks[i].done && Declared(c.tasks[i], duration, time)
    ensures Fired(time, i) in c.activations
  {
    var t := c.tasks[i];
    var k: nat :| time == Instant(t, k) < duration;
    assert TaskOk(t, duration);
    if k >= t.fired { InstantsIncrease(t, t.fired, k); }
    TimesMember(c.activations, i, k);
  }

  /** The activation log of a completed run: strictly sorted by (time, priority,
      registration index), and an entry stands in it exactly when it is a declared
      instant of its task inside the run. */
  lemma CompletedSchedule(c: Control, duration: u64, n: nat)
    requires Initial(c, duration)
    requires Completed(RunSlots(c, duration, n))
    ensures var r := RunSlots(c, duration, n);
      && SameDeclarations(c, r) && LogOk(r) && LogSorted(r)
      && forall f: Fired :: f in r.activations <==> f.task < |c.tasks| && Declared(c.tasks[f.task], duration, f.time)
  {
    InitialIsOk(c, duration);
    RunKeepsGoing(c, duration, n);
    RunKeepsDeclarations(c, duration, n);
    ExactLog(c, RunSlots(c, duration, n), duration);
  }

  lemma ExactLog(c: Control, r: Control, duration: u64)
    requires ScheduleOk(r, duration) && SameDeclarations(c, r) && Completed(r)
    ensures forall f: Fired :: f in r.activations <==> f.task < |c.tasks| && Declared(c.tasks[f.task], duration, f.time)
  {
    forall f: Fired
      ensures f in r.activations <==> f.task < |c.tasks| && Declared(c.tasks[f.task], duration, f.time)
    {
      if f.task < |c.tasks| {
        SameDeclared(c.tasks[f.task], r.tasks[f.task], duration, f.time);
        if Declared(r.tasks[f.task], duration, f.time) { DeclaredIsLogged(r, duration, f.task, f.time); }
      }
      if f in r.activations { LoggedIsDeclared(r, duration, f); }
    }
  }

  lemma SameDeclared(a: Task, b: Task, duration: u64, time: u64)
    requires SameTask(b, a)
    ensures Declared(a, duration, time) <==> Declared(b, duration, time)
  {
    if Declared(a, duration, time) {
      var k: nat :| time == Instant(a, k) < duration;
      assert Instant(b, k) == Instant(a, k);
    }
    if Declared(b, duration, time) {
      var k: nat :| time == Instant(b, k) < duration;
      assert Instant(a, k) == Instant(b, k);
    }
  }
}
