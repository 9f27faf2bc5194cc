// The slot loop without its payload: which instant opens next, which tasks and
// replayers run in it and in which order, and how each advances.

module Schedule {
  import opened VirtualTime

  // `offset` and `fired` are bookkeeping: the first activation and how many have run.
  datatype Task = Task(
    offset: u64, period: pos64, priority: int, index: nat,
    next: u64, done: bool, fired: nat)

  datatype Stored = Stored(time: u64, channel: nat, bytes: seq<byte>)

  datatype Replayer = Replayer(
    owner: nat, channels: set<nat>, stored: seq<Stored>, priority: Option<int>, index: nat, cursor: nat)

  datatype Fired = Fired(time: u64, task: nat)

  datatype Control = Control(tasks: seq<Task>, replayers: seq<Replayer>, activations: seq<Fired>, slots: seq<u64>)

  // ----- Tasks ----------------------------------------------------------------

  /** `add_task`: a task is over before it starts when its offset is past the run. */
  function NewTask(offset: u64, period: pos64, priority: int, index: nat, duration: u64): Task {
    Task(offset, period, priority, index, offset, offset >= duration, 0)
  }

  /** After an activation: the next instant, or done when it is past the duration
      or past what the clock can represent. */
  function Advance(t: Task, duration: u64): Task {
    var next := VirtualTimeAfter(t.next, t.period);
    if next.None? || next.value >= duration then t.(done := true, fired := t.fired + 1)
    else t.(next := next.value, fired := t.fired + 1)
  }

  // ----- Replayers --------------------------------------------------------------

  predicate Selected(r: Replayer, m: Stored, duration: u64) {
    m.channel in r.channels && m.time < duration
  }

  /** `skip_unreplayed`. */
  function Skip(r: Replayer, duration: u64): (s: Replayer)
    requires r.cursor <= |r.stored|
    ensures s == r.(cursor := s.cursor) && r.cursor <= s.cursor <= |r.stored|
    ensures forall i :: r.cursor <= i < s.cursor ==> !Selected(r, r.stored[i], duration)
    ensures s.cursor < |r.stored| ==> Selected(r, r.stored[s.cursor], duration)
    decreases |r.stored| - r.cursor
  {
    if r.cursor == |r.stored| || Selected(r, r.stored[r.cursor], duration) then r
    else Skip(r.(cursor := r.cursor + 1), duration)
  }

  function NextPublish(r: Replayer): u64 {
    if r.cursor < |r.stored| then r.stored[r.cursor].time else MAX64
  }

  /** `publish_due`, as far as the cursor goes. */
  function Drain(r: Replayer, now: u64, duration: u64): (s: Replayer)
    requires r.cursor <= |r.stored|
    ensures s == r.(cursor := s.cursor) && r.cursor <= s.cursor <= |r.stored|
    decreases |r.stored| - r.cursor
  {
    if r.cursor < |r.stored| && r.stored[r.cursor].time == now
    then Drain(Skip(r.(cursor := r.cursor + 1), duration), now, duration)
    else r
  }

  // ----- One slot -----------------------------------------------------------------

  function MinTask(tasks: seq<Task>, k: nat): (m: u64)
    requires k <= |tasks|
    ensures forall i :: 0 <= i < k && !tasks[i].done ==> m <= tasks[i].next
    ensures m == MAX64 || exists i :: 0 <= i < k && !tasks[i].done && tasks[i].next == m
  {
    if k == 0 then MAX64
    else
      var m := MinTask(tasks, k - 1);
      if !tasks[k - 1].done && tasks[k - 1].next < m then tasks[k - 1].next else m
  }

  function MinReplay(replayers: seq<Replayer>, k: nat): (m: u64)
    requires k <= |replayers|
    ensures forall j :: 0 <= j < k ==> m <= NextPublish(replayers[j])
    ensures m == MAX64 || exists j :: 0 <= j < k && NextPublish(replayers[j]) == m
  {
    if k == 0 then MAX64
    else
      var m := MinReplay(replayers, k - 1);
      if NextPublish(replayers[k - 1]) < m then NextPublish(replayers[k - 1]) else m
  }

  /** The instant the next slot opens at; UINT64_MAX ends the run. */
  function NextSlot(c: Control): (slot: u64)
    ensures forall i :: 0 <= i < |c.tasks| && !c.tasks[i].done ==> slot <= c.tasks[i].next
    ensures forall j :: 0 <= j < |c.replayers| ==> slot <= NextPublish(c.replayers[j])
    ensures slot == MAX64
         || (exists i :: 0 <= i < |c.tasks| && !c.tasks[i].done && c.tasks[i].next == slot)
         || (exists j :: 0 <= j < |c.replayers| && NextPublish(c.replayers[j]) == slot)
  {
    var a, b := MinTask(c.tasks, |c.tasks|), MinReplay(c.replayers, |c.replayers|);
    if b < a then b else a
  }

  datatype Item = RunTask(task: nat) | RunReplay(replayer: nat)

  predicate Known(c: Control, item: Item) {
    match item
    case RunTask(i) => i < |c.tasks|
    case RunReplay(j) => j < |c.replayers|
  }

  function Index(c: Control, item: Item): nat
    requires Known(c, item)
  {
    match item
    case RunTask(i) => c.tasks[i].index
    case RunReplay(j) => c.replayers[j].index
  }

  function Priority(c: Control, item: Item): int
    requires Known(c, item)
  {
    match item
    case RunTask(i) => c.tasks[i].priority
    case RunReplay(j) => if c.replayers[j].priority.Some? then c.replayers[j].priority.value else 0
  }

  /** Priority first, then registration order. */
  predicate Before(c: Control, a: Item, b: Item)
    requires Known(c, a) && Known(c, b)
  {
    Priority(c, a) < Priority(c, b) || (Priority(c, a) == Priority(c, b) && Index(c, a) < Index(c, b))
  }

  function DueTasks(c: Control, slot: u64, k: nat): (items: seq<Item>)
    requires k <= |c.tasks|
    ensures forall x :: x in items
                        <==> x.RunTask? && x.task < k && !c.tasks[x.task].done && c.tasks[x.task].next == slot
  {
    if k == 0 then []
    else
      DueTasks(c, slot, k - 1)
      + if !c.tasks[k - 1].done && c.tasks[k - 1].next == slot then [RunTask(k - 1)] else []
  }

  /** The replayers that have a priority, or those that have none, in order. */
  function Replays(c: Control, prioritised: bool, k: nat): (items: seq<Item>)
    requires k <= |c.replayers|
    ensures forall x :: x in items <==>
      x.RunReplay? && x.replayer < k && c.replayers[x.replayer].priority.Some? == prioritised
  {
    if k == 0 then []
    else
      Replays(c, prioritised, k - 1)
      + if c.replayers[k - 1].priority.Some? == prioritised then [RunReplay(k - 1)] else []
  }

  ghost predicate AllKnown(c: Control, items: seq<Item>) {
    forall x :: x in items ==> Known(c, x)
  }

  function Insert(c: Control, x: Item, items: seq<Item>): (r: seq<Item>)
    requires Known(c, x) && AllKnown(c, items)
    ensures multiset(r) == multiset(items) + multiset{x}
    ensures forall y :: y in r <==> y == x || y in items
  {
    if items == [] || Before(c, x, items[0]) then [x] + items
    else
      assert items == [items[0]] + items[1..];
      [items[0]] + Insert(c, x, items[1..])
  }

  /** The due list sorted by (priority, registration index). */
  function Sort(c: Control, items: seq<Item>): (r: seq<Item>)
    requires AllKnown(c, items)
    ensures multiset(r) == multiset(items)
    ensures forall y :: y in r <==> y in items
  {
    if items == [] then []
    else
      assert items == [items[0]] + items[1..];
      Insert(c, items[0], Sort(c, items[1..]))
  }

  /** Everything a slot runs, in order: replayers without a priority, then the due
      tasks and the replayers with one. */
  function Agenda(c: Control, slot: u64): (items: seq<Item>)
    ensures AllKnown(c, items)
  {
    Replays(c, false, |c.replayers|)
    + Sort(c, DueTasks(c, slot, |c.tasks|) + Replays(c, true, |c.replayers|))
  }

  ghost predicate Cursors(c: Control) {
    forall j :: 0 <= j < |c.replayers| ==> c.replayers[j].cursor <= |c.replayers[j].stored|
  }

  function RunItem(c: Control, duration: u64, now: u64, item: Item): (r: Control)
    requires Known(c, item) && Cursors(c)
    ensures Cursors(r) && |r.tasks| == |c.tasks| && |r.replayers| == |c.replayers| && r.slots == c.slots
  {
    match item
    case RunTask(i) =>
      c.(tasks := c.tasks[i := Advance(c.tasks[i], duration)], activations := c.activations + [Fired(now, i)])
    case RunReplay(j) =>
      c.(replayers := c.replayers[j := Drain(c.replayers[j], now, duration)])
  }

  function RunItems(c: Control, duration: u64, now: u64, items: seq<Item>): (r: Control)
    requires AllKnown(c, items) && Cursors(c)
    ensures Cursors(r) && |r.tasks| == |c.tasks| && |r.replayers| == |c.replayers| && r.slots == c.slots
    decreases |items|
  {
    if items == [] then c
    else
      var c' := RunItem(c, duration, now, items[0]);
      assert AllKnown(c', items[1..]) by {
        assert forall x :: x in items[1..] ==> x in items && (Known(c, x) ==> Known(c', x));
      }
      RunItems(c', duration, now, items[1..])
  }

  function RunSlot(c: Control, duration: u64): (r: Control)
    requires Cursors(c)
    ensures Cursors(r)
  {
    var slot := NextSlot(c);
    RunItems(c.(slots := c.slots + [slot]), duration, slot, Agenda(c, slot))
  }

  /** At most `n` iterations of the slot loop. */
  function RunSlots(c: Control, duration: u64, n: nat): Control
    requires Cursors(c)
    decreases n
  {
    if n == 0 || NextSlot(c) == MAX64 then c else RunSlots(RunSlot(c, duration), duration, n - 1)
  }
}
