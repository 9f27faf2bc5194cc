// Why the condition on merging participants is needed for whole runs: a participant that merges two
// publishers can tell from its memory which of them has the smaller priority.

module Hearing {
  import opened VirtualTime
  import opened Interceptor
  import opened DataPlane
  import opened Activation
  import opened Schedule
  import opened ScheduleProofs
  import opened SlotProofs
  import opened Engine
  import opened EngineProofs
  import opened Moves
  import opened SlotOrder
  import opened EngineOrder
  import opened Setup
  import opened SetupProofs
  import opened RunOrder
  import opened ManifestOrder
  import opened Interleaving
  import opened RunLog
  import Manifest
  import Merge

  // ----- Three programs ----------------------------------------------------------------------------------

  function Idle(): Program {
    (now: u64, memory: Memory, replies: seq<Reply>) => CallReturn(memory)
  }

  /** Publishes once, at one instant. */
  function SpeakAt(t: u64, ch: nat, bytes: seq<byte>): Program {
    (now: u64, memory: Memory, replies: seq<Reply>) =>
      if now == t && replies == [] then CallPublish(ch, bytes) else CallReturn(memory)
  }

  function Ints(chs: seq<nat>): (r: seq<int>)
    ensures |r| == |chs| && forall i :: 0 <= i < |r| ==> r[i] == chs[i]
  {
    seq(|chs|, i requires 0 <= i < |chs| => chs[i])
  }

  /** Merges its inputs at one instant and remembers their channels, in order. */
  function MergeAt(later: u64): Program {
    (now: u64, memory: Memory, replies: seq<Reply>) =>
      if now != later then CallReturn(memory)
      else if replies == [] then CallTakeAll
      else CallReturn(if replies[0].Inputs? then Ints(ChannelsOf(replies[0].inputs)) else memory)
  }

  // ----- The scene ------------------------------------------------------------------------------------------

  /** Task `i` says `x` on channel `c` at `t`, task `j` says `y` on `d`, and task `l` merges at `later`. */
  datatype Scene = Scene(i: nat, j: nat, l: nat, t: u64, later: u64, c: nat, x: seq<byte>, d: nat, y: seq<byte>)

  ghost predicate Staged(cfg: Config, sc: Scene) {
    && sc.i < |cfg.jobs| && sc.j < |cfg.jobs| && sc.l < |cfg.jobs| && sc.i != sc.j && sc.i != sc.l && sc.j != sc.l
    && cfg.jobs[sc.i].program == SpeakAt(sc.t, sc.c, sc.x) && sc.c in cfg.jobs[sc.i].who.outputs
    && cfg.jobs[sc.j].program == SpeakAt(sc.t, sc.d, sc.y) && sc.d in cfg.jobs[sc.j].who.outputs
    && cfg.jobs[sc.l].program == MergeAt(sc.later)
    && (forall k :: 0 <= k < |cfg.jobs| && k != sc.i && k != sc.j && k != sc.l ==> cfg.jobs[k].program == Idle())
    && cfg.patience >= 1 && sc.c != sc.d && sc.t < sc.later && sc.t < cfg.duration
  }

  /** A bus on which both messages get through, whenever they are published. */
  ghost predicate Clear(b: Bus, sc: Scene) {
    && Open(b) && sc.c < |b.channels| && sc.d < |b.channels|
    && b.channels[sc.c].size == |sc.x| && b.channels[sc.c].steps == []
    && b.channels[sc.d].size == |sc.y| && b.channels[sc.d].steps == []
  }

  /** Everyone remembers nothing, except the merging participant. */
  ghost predicate Remembers(memories: map<nat, Memory>, m: nat, memory: Memory) {
    forall p: nat :: MemoryOf(memories, p) == if p == m then memory else []
  }

  ghost predicate At(st: Stage, b: Bus, m: nat, memory: Memory) {
    st.bus == b && !st.failed && Remembers(st.memories, m, memory)
  }

  ghost predicate Special(sc: Scene, f: Fired) {
    f == Fired(sc.t, sc.i) || f == Fired(sc.t, sc.j) || f == Fired(sc.later, sc.l)
  }

  /** The two messages, in one order or the other. */
  ghost predicate Pair(sc: Scene, first: Fired, second: Fired) {
    || (first == Fired(sc.t, sc.i) && second == Fired(sc.t, sc.j))
    || (first == Fired(sc.t, sc.j) && second == Fired(sc.t, sc.i))
  }

  /** The bus once both have spoken. */
  function AfterPair(b: Bus, duration: u64, sc: Scene, first: Fired): Bus {
    if first.task == sc.i then Both(b, duration, sc.t, sc.c, sc.x, sc.d, sc.y)
    else Both(b, duration, sc.t, sc.d, sc.y, sc.c, sc.x)
  }

  function Merged(b: Bus, m: nat, later: u64): Bus {
    b.(routes := Merge.MergeVisible(b.routes, m, later).0)
  }

  function Heard(b: Bus, m: nat, later: u64): Memory {
    Ints(ChannelsOf(Told(b.routes, m, later)))
  }

  /** The scene is over: `m` took its inputs off the bus `b` and remembers their channels. */
  ghost predicate Over(st: Stage, b: Bus, m: nat, later: u64) {
    At(st, Merged(b, m, later), m, Heard(b, m, later))
  }

  /** What everyone remembers once `o` remembers `v`. */
  lemma Recalls(memories: map<nat, Memory>, o: nat, v: Memory, p: nat)
    ensures MemoryOf(memories[o := v], p) == if p == o then v else MemoryOf(memories, p)
  {
  }

  /** A callback that finished, as a stage. */
  lemma PlayedIs(cfg: Config, st: Stage, f: Fired, b: Bus, v: Memory, m: nat, memory: Memory)
    requires f.task < |cfg.jobs| && !st.failed
    requires var job := cfg.jobs[f.task];
      Activate(st.bus, cfg.duration, f.time, job.who, job.program, MemoryOf(st.memories, job.who.owner), [],
               cfg.patience) == Finished(b, v)
    requires forall p: nat ::
      (if p == cfg.jobs[f.task].who.owner then v else MemoryOf(st.memories, p)) == if p == m then memory else []
    ensures At(Played(cfg, st, f), b, m, memory)
  {
    hide Activate, MemoryOf;
    var o := cfg.jobs[f.task].who.owner;
    forall p: nat ensures MemoryOf(Played(cfg, st, f).memories, p) == if p == m then memory else [] {
      Recalls(st.memories, o, v, p);
    }
  }

  lemma IdlePlay(cfg: Config, sc: Scene, st: Stage, f: Fired, b: Bus, m: nat, memory: Memory)
    requires Staged(cfg, sc) && f.task < |cfg.jobs| && !Special(sc, f) && At(st, b, m, memory)
    ensures At(Played(cfg, st, f), b, m, memory)
  {
    var job := cfg.jobs[f.task];
    var own := MemoryOf(st.memories, job.who.owner);
    assert job.program(f.time, own, []) == CallReturn(own);
    PlayedIs(cfg, st, f, b, own, m, memory);
  }

  lemma SpeakPlay(cfg: Config, sc: Scene, st: Stage, f: Fired, b: Bus, m: nat, memory: Memory)
    requires Staged(cfg, sc) && (f == Fired(sc.t, sc.i) || f == Fired(sc.t, sc.j)) && At(st, b, m, memory)
             && Clear(b, sc)
    ensures var b' := if f.task == sc.i then Publish(b, cfg.duration, sc.t, sc.c, sc.x).0
                      else Publish(b, cfg.duration, sc.t, sc.d, sc.y).0;
      At(Played(cfg, st, f), b', m, memory) && Clear(b', sc)
  {
    var job := cfg.jobs[f.task];
    var own := MemoryOf(st.memories, job.who.owner);
    var ch, bytes := if f.task == sc.i then sc.c else sc.d, if f.task == sc.i then sc.x else sc.y;
    assert job.program(f.time, own, []) == CallPublish(ch, bytes);
    assert job.program(f.time, own, [Published]) == CallReturn(own);
    ClearPublish(b, sc, cfg.duration, ch, bytes);
    hide Publish, Clear;
    var b' := Publish(b, cfg.duration, sc.t, ch, bytes).0;
    SpeakOutcome(b, cfg.duration, sc.t, job.who, job.program, own, cfg.patience, ch, bytes);
    PlayedIs(cfg, st, f, b', own, m, memory);
  }

  lemma SpeakOutcome(b: Bus, duration: u64, now: u64, who: Caller, program: Program, own: Memory, patience: nat,
                     ch: nat, bytes: seq<byte>)
    requires patience >= 1 && ch in who.outputs && Publish(b, duration, now, ch, bytes).1
    requires program(now, own, []) == CallPublish(ch, bytes) && program(now, own, [Published]) == CallReturn(own)
    ensures Activate(b, duration, now, who, program, own, [], patience)
            == Finished(Publish(b, duration, now, ch, bytes).0, own)
  {
    hide Publish;
    assert [] + [Published] == [Published];
  }

  lemma ClearPublish(b: Bus, sc: Scene, duration: u64, ch: nat, bytes: seq<byte>)
    requires Clear(b, sc) && sc.t < duration && sc.c != sc.d
             && ((ch == sc.c && bytes == sc.x) || (ch == sc.d && bytes == sc.y))
    ensures Passes(b, duration, sc.t, ch, bytes) && Publish(b, duration, sc.t, ch, bytes).1
    ensures Clear(Publish(b, duration, sc.t, ch, bytes).0, sc)
  {
    assert Apply([], duration, sc.t, bytes) == ([], Visible(sc.t, bytes));
    PassingPublish(b, duration, sc.t, ch, bytes);
    hide Deliver;
  }

  lemma MergePlay(cfg: Config, sc: Scene, st: Stage, b: Bus, memory: Memory)
    requires Staged(cfg, sc) && At(st, b, cfg.jobs[sc.l].who.owner, memory)
    ensures Over(Played(cfg, st, Fired(sc.later, sc.l)), b, cfg.jobs[sc.l].who.owner, sc.later)
  {
    var job := cfg.jobs[sc.l];
    var m := job.who.owner;
    var own := MemoryOf(st.memories, m);
    var told := Told(b.routes, m, sc.later);
    assert job.program(sc.later, own, []) == CallTakeAll;
    assert [] + [Inputs(told)] == [Inputs(told)];
    assert job.program(sc.later, own, [Inputs(told)]) == CallReturn(Ints(ChannelsOf(told)));
    hide Merge.MergeVisible, Described;
    var b' := Merged(b, m, sc.later);
    assert Answer(b, cfg.duration, sc.later, job.who, CallTakeAll) == (b', Some(Inputs(told)));
    MergeOutcome(b, cfg.duration, sc.later, job.who, job.program, own, cfg.patience, b', Inputs(told),
                 Ints(ChannelsOf(told)));
    PlayedIs(cfg, st, Fired(sc.later, sc.l), b', Ints(ChannelsOf(told)), m, Ints(ChannelsOf(told)));
  }

  lemma MergeOutcome(b: Bus, duration: u64, now: u64, who: Caller, program: Program, own: Memory, patience: nat,
                     after: Bus, reply: Reply, memory: Memory)
    requires patience >= 1 && Answer(b, duration, now, who, CallTakeAll) == (after, Some(reply))
    requires program(now, own, []) == CallTakeAll && program(now, own, [reply]) == CallReturn(memory)
    ensures Activate(b, duration, now, who, program, own, [], patience) == Finished(after, memory)
  {
    hide Answer;
    assert [] + [reply] == [reply];
  }

  // ----- The story of a log ------------------------------------------------------------------------------------

  ghost predicate Plain(sc: Scene, log: seq<Fired>) {
    forall a :: 0 <= a < |log| ==> !Special(sc, log[a])
  }

  lemma {:induction false} PlainStory(cfg: Config, sc: Scene, st: Stage, log: seq<Fired>, b: Bus, m: nat,
                                      memory: Memory)
    requires Staged(cfg, sc) && Playable(cfg, log) && Plain(sc, log) && At(st, b, m, memory)
    ensures At(Story(cfg, st, log), b, m, memory)
    decreases |log|
  {
    hide Staged, Played, At, Special;
    if log == [] {
    } else {
      IdlePlay(cfg, sc, st, log[0], b, m, memory);
      PlainStory(cfg, sc, Played(cfg, st, log[0]), log[1..], b, m, memory);
    }
  }

  lemma OneMore(cfg: Config, st: Stage, log: seq<Fired>, f: Fired)
    requires Playable(cfg, log) && f.task < |cfg.jobs|
    ensures Playable(cfg, log + [f]) && Story(cfg, st, log + [f]) == Played(cfg, Story(cfg, st, log), f)
  {
    hide Played;
    StoryContinues(cfg, st, log, [f]);
    assert [f][1..] == [];
  }

  /** Up to the merge: two messages in the order of the log. */
  lemma TwoSpeak(cfg: Config, sc: Scene, st: Stage, a: seq<Fired>, first: Fired, b: seq<Fired>, second: Fired, bus: Bus,
                 m: nat)
    requires Staged(cfg, sc) && Clear(bus, sc) && At(st, bus, m, [])
    requires Playable(cfg, a) && Playable(cfg, b) && Plain(sc, a) && Plain(sc, b)
    requires Pair(sc, first, second)
    ensures Playable(cfg, a + [first] + b + [second])
    ensures At(Story(cfg, st, a + [first] + b + [second]), AfterPair(bus, cfg.duration, sc, first), m, [])
  {
    assert first.task < |cfg.jobs| && second.task < |cfg.jobs| && sc.i != sc.j;
    hide Staged, Clear, At, Story, Publish, Special;
    PlainStory(cfg, sc, st, a, bus, m, []);
    var st1 := Story(cfg, st, a);
    SpeakPlay(cfg, sc, st1, first, bus, m, []);
    OneMore(cfg, st, a, first);
    var st2 := Story(cfg, st, a + [first]);
    var mid := if first.task == sc.i then Publish(bus, cfg.duration, sc.t, sc.c, sc.x).0
               else Publish(bus, cfg.duration, sc.t, sc.d, sc.y).0;
    PlainStory(cfg, sc, st2, b, mid, m, []);
    StoryContinues(cfg, st, a + [first], b);
    OneMore(cfg, st, a + [first] + b, second);
    SpeakPlay(cfg, sc, Story(cfg, st, a + [first] + b), second, mid, m, []);
  }

  /** The whole log: the merging participant ends up remembering the channels it was told. */
  lemma SceneStory(cfg: Config, sc: Scene, st: Stage, a: seq<Fired>, first: Fired, b: seq<Fired>, second: Fired,
                   c: seq<Fired>, d: seq<Fired>, bus: Bus)
    requires Staged(cfg, sc) && Clear(bus, sc) && At(st, bus, cfg.jobs[sc.l].who.owner, [])
    requires Playable(cfg, a) && Playable(cfg, b) && Playable(cfg, c) && Playable(cfg, d)
    requires Plain(sc, a) && Plain(sc, b) && Plain(sc, c) && Plain(sc, d)
    requires Pair(sc, first, second)
    ensures var log := a + [first] + b + [second] + c + [Fired(sc.later, sc.l)] + d;
      && Playable(cfg, log)
      && Over(Story(cfg, st, log), AfterPair(bus, cfg.duration, sc, first), cfg.jobs[sc.l].who.owner, sc.later)
  {
    var m := cfg.jobs[sc.l].who.owner;
    assert sc.l < |cfg.jobs|;
    var after := AfterPair(bus, cfg.duration, sc, first);
    TwoSpeak(cfg, sc, st, a, first, b, second, bus, m);
    hide Staged, Clear, Story, Both, Special, At, AfterPair, Merged, Heard;
    var l1 := a + [first] + b + [second];
    PlainStory(cfg, sc, Story(cfg, st, l1), c, after, m, []);
    StoryContinues(cfg, st, l1, c);
    OneMore(cfg, st, l1 + c, Fired(sc.later, sc.l));
    MergePlay(cfg, sc, Story(cfg, st, l1 + c), after, []);
    var l2 := l1 + c + [Fired(sc.later, sc.l)];
    PlainStory(cfg, sc, Story(cfg, st, l2), d, Merged(after, m, sc.later), m, Heard(after, m, sc.later));
    StoryContinues(cfg, st, l2, d);
  }

  // ----- Nothing fails ---------------------------------------------------------------------------------------------

  ghost predicate Calm(st: Stage, sc: Scene) {
    !st.failed && Clear(st.bus, sc)
  }

  lemma SpeakerCalm(cfg: Config, sc: Scene, st: Stage, f: Fired)
    requires Staged(cfg, sc) && Calm(st, sc) && (f == Fired(sc.t, sc.i) || f == Fired(sc.t, sc.j))
    ensures Calm(Played(cfg, st, f), sc)
  {
    var job := cfg.jobs[f.task];
    var own := MemoryOf(st.memories, job.who.owner);
    var ch, bytes := if f.task == sc.i then sc.c else sc.d, if f.task == sc.i then sc.x else sc.y;
    assert job.program(f.time, own, []) == CallPublish(ch, bytes);
    assert job.program(f.time, own, [Published]) == CallReturn(own);
    ClearPublish(st.bus, sc, cfg.duration, ch, bytes);
    hide Publish, Clear, Activate;
    SpeakOutcome(st.bus, cfg.duration, sc.t, job.who, job.program, own, cfg.patience, ch, bytes);
  }

  lemma MergedStaysClear(b: Bus, sc: Scene, m: nat)
    requires Clear(b, sc)
    ensures Clear(Merged(b, m, sc.later), sc)
  {
    hide Merge.MergeVisible;
    forall k | 0 <= k < |b.routes| ensures Merge.MergeVisible(b.routes, m, sc.later).0[k].capacity.None? {
      Merge.MergeTakesReleasedPrefixes(b.routes, m, sc.later, k);
    }
  }

  lemma MergerCalm(cfg: Config, sc: Scene, st: Stage)
    requires Staged(cfg, sc) && Calm(st, sc)
    ensures Calm(Played(cfg, st, Fired(sc.later, sc.l)), sc)
  {
    var job := cfg.jobs[sc.l];
    var m := job.who.owner;
    var own, told := MemoryOf(st.memories, m), Told(st.bus.routes, m, sc.later);
    assert job.program(sc.later, own, []) == CallTakeAll;
    assert job.program(sc.later, own, [Inputs(told)]) == CallReturn(Ints(ChannelsOf(told)));
    MergedStaysClear(st.bus, sc, m);
    hide Merge.MergeVisible, Described, Activate, Clear;
    var b' := Merged(st.bus, m, sc.later);
    MergeOutcome(st.bus, cfg.duration, sc.later, job.who, job.program, own, cfg.patience, b', Inputs(told),
                 Ints(ChannelsOf(told)));
  }

  lemma PlayedCalm(cfg: Config, sc: Scene, st: Stage, f: Fired)
    requires Staged(cfg, sc) && Calm(st, sc) && f.task < |cfg.jobs|
    ensures Calm(Played(cfg, st, f), sc)
  {
    if f == Fired(sc.later, sc.l) {
      MergerCalm(cfg, sc, st);
    } else if Special(sc, f) {
      SpeakerCalm(cfg, sc, st, f);
    } else {
      var own := MemoryOf(st.memories, cfg.jobs[f.task].who.owner);
      assert cfg.jobs[f.task].program(f.time, own, []) == CallReturn(own);
    }
  }

  lemma {:induction false} ItemsCalm(cfg: Config, sc: Scene, w: World, now: u64, items: seq<Item>)
    requires Wired(cfg, w) && TasksOnly(w.control) && AllKnown(w.control, items) && Staged(cfg, sc)
    requires Calm(StageOf(w), sc)
    ensures Calm(StageOf(PerformAll(cfg, w, now, items)), sc) && TasksOnly(PerformAll(cfg, w, now, items).control)
    decreases |items|
  {
    hide Perform, Played, Staged, Clear;
    if items == [] {
    } else {
      var w' := Perform(cfg, w, now, items[0]);
      assert items[0] in items && Known(w.control, items[0]) && items[0].RunTask?;
      assert AllKnown(w'.control, items[1..]) by {
        assert forall x :: x in items[1..] ==> x in items && (Known(w.control, x) ==> Known(w'.control, x));
      }
      TaskIsPlayed(cfg, w, now, items[0].task);
      PlayedCalm(cfg, sc, StageOf(w), Fired(now, items[0].task));
      ItemsCalm(cfg, sc, w', now, items[1..]);
    }
  }

  lemma SlotCalm(cfg: Config, sc: Scene, w: World)
    requires Wired(cfg, w) && TasksOnly(w.control) && Staged(cfg, sc) && Calm(StageOf(w), sc)
    ensures Calm(StageOf(PerformSlot(cfg, w)), sc) && TasksOnly(PerformSlot(cfg, w).control)
  {
    hide PerformAll, Agenda, NextSlot, Staged, Clear;
    var slot := NextSlot(w.control);
    var start := w.(control := w.control.(slots := w.control.slots + [slot]));
    assert AllKnown(start.control, Agenda(w.control, slot)) by {
      assert forall x :: Known(w.control, x) ==> Known(start.control, x);
    }
    ItemsCalm(cfg, sc, start, slot, Agenda(w.control, slot));
  }

  lemma {:induction false} RunCalm(cfg: Config, sc: Scene, w: World, n: nat)
    requires Wired(cfg, w) && TasksOnly(w.control) && Staged(cfg, sc) && Calm(StageOf(w), sc)
    ensures !Run(cfg, w, n).failed
    decreases n
  {
    hide PerformSlot, NextSlot, Staged, Clear;
    if n == 0 || NextSlot(w.control) == MAX64 {
    } else {
      SlotCalm(cfg, sc, w);
      RunCalm(cfg, sc, PerformSlot(cfg, w), n - 1);
    }
  }

  // ----- Where the three events stand in the log --------------------------------------------------------------------

  ghost predicate Precedes(list: seq<(nat, TaskSpec)>, f: Fired, g: Fired)
    requires f.task < |list| && g.task < |list|
  {
    f.time < g.time || (f.time == g.time && RunsFirst(list, f.task, g.task))
  }

  /** A log in declared order has everything once, and in that order. */
  lemma LogPlaces(log: seq<Fired>, list: seq<(nat, TaskSpec)>, a: nat, b: nat)
    requires InDeclaredOrder(log, list) && a < |log| && b < |log|
    ensures a != b ==> log[a] != log[b]
    ensures Precedes(list, log[a], log[b]) ==> a < b
  {
    assert a < b ==> Precedes(list, log[a], log[b]);
    assert b < a ==> Precedes(list, log[b], log[a]);
  }

  lemma PlainBetween(sc: Scene, log: seq<Fired>, list: seq<(nat, TaskSpec)>, x: nat, y: nat, z: nat, lo: nat, hi: nat)
    requires InDeclaredOrder(log, list) && x < |log| && y < |log| && z < |log| && lo <= hi <= |log|
    requires Special(sc, log[x]) && Special(sc, log[y]) && Special(sc, log[z])
    requires log[x] != log[y] && log[x] != log[z] && log[y] != log[z]
    requires (x < lo || hi <= x) && (y < lo || hi <= y) && (z < lo || hi <= z)
    ensures Plain(sc, log[lo..hi])
  {
    hide InDeclaredOrder;
    forall k | 0 <= k < hi - lo ensures !Special(sc, log[lo..hi][k]) {
      LogPlaces(log, list, lo + k, x);
      LogPlaces(log, list, lo + k, y);
      LogPlaces(log, list, lo + k, z);
    }
  }

  /** The three events, in order, and nothing else of the scene around them. */
  lemma FindScene(sc: Scene, log: seq<Fired>, list: seq<(nat, TaskSpec)>, first: Fired, second: Fired)
    returns (x: nat, y: nat, z: nat)
    requires InDeclaredOrder(log, list) && Pair(sc, first, second) && sc.t < sc.later && sc.i != sc.j
    requires first in log && second in log && Fired(sc.later, sc.l) in log
    requires first.task < |list| && second.task < |list| && RunsFirst(list, first.task, second.task)
    ensures x < y < z < |log| && log[x] == first && log[y] == second && log[z] == Fired(sc.later, sc.l)
    ensures Plain(sc, log[..x]) && Plain(sc, log[x + 1..y]) && Plain(sc, log[y + 1..z]) && Plain(sc, log[z + 1..])
  {
    hide RunsFirst, Plain;
    x :| x < |log| && log[x] == first;
    y :| y < |log| && log[y] == second;
    z :| z < |log| && log[z] == Fired(sc.later, sc.l);
    LogPlaces(log, list, x, y);
    LogPlaces(log, list, y, z);
    PlainBetween(sc, log, list, x, y, z, 0, x);
    PlainBetween(sc, log, list, x, y, z, x + 1, y);
    PlainBetween(sc, log, list, x, y, z, y + 1, z);
    PlainBetween(sc, log, list, x, y, z, z + 1, |log|);
    assert log[0..x] == log[..x] && log[z + 1..|log|] == log[z + 1..];
  }

  // ----- The scene in a manifest ------------------------------------------------------------------------------------

  /** A manifest of actors with unbounded queues that plays the scene. */
  ghost predicate Written(members: seq<Member>, duration: u64, specs: seq<ChannelSpec>, plans: seq<seq<Step>>,
                          sc: Scene) {
    var list := TaskList(members);
    && sc.c < |specs| == |plans| && sc.d < |specs| && sc.c != sc.d && sc.t < sc.later
    && specs[sc.c].size == |sc.x| && plans[sc.c] == [] && specs[sc.d].size == |sc.y| && plans[sc.d] == []
    && sc.i < |list| && sc.j < |list| && sc.l < |list| && sc.i != sc.j && sc.i != sc.l && sc.j != sc.l
    && Speaks(members, list[sc.i], sc.t, sc.c, sc.x, duration)
    && Speaks(members, list[sc.j], sc.t, sc.d, sc.y, duration)
    && list[sc.l].1.program == MergeAt(sc.later) && DeclaredAt(list[sc.l].1, duration, sc.later)
    && (forall k :: 0 <= k < |list| && k != sc.i && k != sc.j && k != sc.l ==> list[k].1.program == Idle())
    && OpenActors(members)
  }

  ghost predicate Unbounded(routes: seq<RouteSpec>) {
    forall i :: 0 <= i < |routes| ==> routes[i].capacity.None?
  }

  ghost predicate OpenActors(members: seq<Member>) {
    forall p :: 0 <= p < |members| ==> members[p].role.Actor? && Unbounded(members[p].role.routes)
  }

  /** A task that publishes at `t`, on a channel of its participant. */
  ghost predicate Speaks(members: seq<Member>, task: (nat, TaskSpec), t: u64, ch: nat, bytes: seq<byte>,
                         duration: u64) {
    && task.0 < |members| && ch in Outputs(members[task.0].role)
    && task.1.program == SpeakAt(t, ch, bytes) && DeclaredAt(task.1, duration, t)
  }

  ghost predicate SameTaskLists(a: seq<(nat, TaskSpec)>, b: seq<(nat, TaskSpec)>) {
    |a| == |b| && forall i :: 0 <= i < |a| ==> a[i].0 == b[i].0 && SameTaskSpec(a[i].1, b[i].1)
  }

  lemma {:induction false} PrioritiesKeepTasks(members: seq<Member>, others: seq<Member>)
    requires SameButPriorities(members, others)
    ensures SameTaskLists(TaskList(members), TaskList(others))
    decreases |members|
  {
    if members == [] {
    } else {
      var n := |members| - 1;
      PrioritiesKeepTasks(members[..n], others[..n]);
      assert SameRole(members[n].role, others[n].role);
      SameRoleTasks(n, members[n].role, others[n].role);
      hide SameTaskLists, SameRole, Tagged;
      TasksTogether(TaskList(members[..n]), TaskList(others[..n]), RoleTasks(n, members[n].role),
                    RoleTasks(n, others[n].role));
    }
  }

  function RoleTasks(p: nat, role: Role): seq<(nat, TaskSpec)> {
    if role.Actor? then Tagged(p, role.tasks) else []
  }

  lemma SameRoleTasks(p: nat, a: Role, b: Role)
    requires SameRole(a, b)
    ensures SameTaskLists(RoleTasks(p, a), RoleTasks(p, b))
  {
  }

  lemma TasksTogether(a: seq<(nat, TaskSpec)>, b: seq<(nat, TaskSpec)>, c: seq<(nat, TaskSpec)>,
                      d: seq<(nat, TaskSpec)>)
    requires SameTaskLists(a, b) && SameTaskLists(c, d)
    ensures SameTaskLists(a + c, b + d)
  {
  }

  lemma {:induction false} PrioritiesKeepPublishers(members: seq<Member>, others: seq<Member>)
    requires SameButPriorities(members, others)
    ensures Manifest.Declared(Publishers(members)) == Manifest.Declared(Publishers(others))
    decreases |members|
  {
    if members == [] {
    } else {
      var n := |members| - 1;
      PrioritiesKeepPublishers(members[..n], others[..n]);
      assert Publishers(members)[..n] == Publishers(members[..n]) && Publishers(others)[..n] == Publishers(others[..n]);
      assert SameRole(members[n].role, others[n].role);
    }
  }

  lemma PrioritiesKeepSpeaker(members: seq<Member>, others: seq<Member>, a: (nat, TaskSpec), b: (nat, TaskSpec), t: u64,
                              ch: nat, bytes: seq<byte>, duration: u64)
    requires SameButPriorities(members, others) && Speaks(members, a, t, ch, bytes, duration)
    requires a.0 == b.0 && SameTaskSpec(a.1, b.1)
    ensures Speaks(others, b, t, ch, bytes, duration)
  {
    hide SameTaskSpecs, SpeakAt;
    assert SameRole(members[a.0].role, others[a.0].role);
    PrioritiesKeepInstants(a.1, b.1, duration, t);
  }

  lemma PrioritiesKeepInstants(a: TaskSpec, b: TaskSpec, duration: u64, t: u64)
    requires SameTaskSpec(a, b) && DeclaredAt(a, duration, t)
    ensures DeclaredAt(b, duration, t)
  {
    var n: nat :| t == a.offset + n * a.period < duration;
    assert t == b.offset + n * b.period;
  }

  lemma PrioritiesKeepActors(members: seq<Member>, others: seq<Member>, channels: nat)
    requires SameButPriorities(members, others) && OpenActors(members) && Accepted(members, channels)
    ensures OpenActors(others) && Accepted(others, channels)
  {
    PrioritiesKeepPublishers(members, others);
    SameSound(members, others, channels);
    hide SameTaskSpecs, AllSound, Manifest.Declared;
    forall p | 0 <= p < |members| ensures others[p].role.Actor? && Unbounded(others[p].role.routes) {
      assert SameRole(members[p].role, others[p].role);
    }
  }

  lemma PrioritiesKeepScene(members: seq<Member>, others: seq<Member>, duration: u64, specs: seq<ChannelSpec>,
                            plans: seq<seq<Step>>, sc: Scene)
    requires SameButPriorities(members, others) && Written(members, duration, specs, plans, sc)
    requires Accepted(members, |specs|)
    ensures Written(others, duration, specs, plans, sc) && Accepted(others, |specs|)
    ensures |TaskList(others)| == |TaskList(members)| && TaskList(others)[sc.l].0 == TaskList(members)[sc.l].0
  {
    PrioritiesKeepTasks(members, others);
    PrioritiesKeepActors(members, others, |specs|);
    hide TaskList, SameButPriorities, Speaks, DeclaredAt, Accepted, OpenActors, MergeAt, Idle;
    var a, b := TaskList(members), TaskList(others);
    PrioritiesKeepSpeaker(members, others, a[sc.i], b[sc.i], sc.t, sc.c, sc.x, duration);
    PrioritiesKeepSpeaker(members, others, a[sc.j], b[sc.j], sc.t, sc.d, sc.y, duration);
    PrioritiesKeepInstants(a[sc.l].1, b[sc.l].1, duration, sc.later);
  }

  lemma WrittenStages(members: seq<Member>, duration: u64, specs: seq<ChannelSpec>, plans: seq<seq<Step>>,
                      patience: nat, sc: Scene)
    requires Accepted(members, |specs|) && Written(members, duration, specs, plans, sc) && patience >= 1
    ensures var cfg, w := FirstConfig(members, duration, specs, patience), FirstWorld(members, duration, specs, plans);
      && Staged(cfg, sc) && Clear(w.bus, sc) && TasksOnly(w.control) && w.control.activations == [] && !w.failed
      && cfg.jobs[sc.l].who.owner == TaskList(members)[sc.l].0 && Remembers(w.memories, cfg.jobs[sc.l].who.owner, [])
  {
    var r := Roll(members, duration, specs);
    assert members[..|members|] == members && OpenActors(members);
    RollListed(members, duration, specs, |members|);
    RollManned(members, duration, specs, |members|);
    RollRoutes(members, duration, specs, |members|);
    hide Roll, TaskList, Listed, Manned, AllRoutes, Staged, OpenActors, Speaks, DeclaredAt;
    WrittenIsStaged(members, duration, specs, plans, FirstConfig(members, duration, specs, patience), r, sc);
    WrittenIsOpen(members, specs, r.routes);
    NobodyReplays(r, members, duration);
  }

  lemma NobodyReplays(r: Roster, members: seq<Member>, duration: u64)
    requires Manned(r, members, |members|, duration) && OpenActors(members)
    ensures r.replayers == []
  {
    assert |r.replayers| > 0 ==> IsReplay(r.replayers[0], members, duration);
  }

  lemma WrittenIsStaged(members: seq<Member>, duration: u64, specs: seq<ChannelSpec>, plans: seq<seq<Step>>,
                        cfg: Config, r: Roster, sc: Scene)
    requires Written(members, duration, specs, plans, sc) && Listed(r, TaskList(members), members, duration)
    requires cfg.jobs == r.jobs && cfg.duration == duration && cfg.patience >= 1
    ensures Staged(cfg, sc) && cfg.jobs[sc.l].who.owner == TaskList(members)[sc.l].0
  {
    hide TaskList;
    var list := TaskList(members);
    forall k | 0 <= k < |list|
      ensures cfg.jobs[k].program == list[k].1.program && cfg.jobs[k].who == CallerOf(members[list[k].0], list[k].0)
    {
      assert IsTask(r.tasks[k], r.jobs[k], list[k].1, CallerOf(members[list[k].0], list[k].0), duration);
    }
    assert sc.t < duration;
  }

  lemma WrittenIsOpen(members: seq<Member>, specs: seq<ChannelSpec>, routes: seq<Route>)
    requires AllRoutes(routes, members, specs)
    requires OpenActors(members)
    ensures forall k :: 0 <= k < |routes| ==> routes[k].capacity.None?
  {
    forall k | 0 <= k < |routes| ensures routes[k].capacity.None? {
      assert IsRoute(routes[k], members, specs);
    }
  }

  // ----- What the merging participant ends up with ------------------------------------------------------------------

  lemma LogOfScene(cfg: Config, sc: Scene, st: Stage, log: seq<Fired>, list: seq<(nat, TaskSpec)>, first: Fired,
                   second: Fired)
    requires Staged(cfg, sc) && Clear(st.bus, sc) && !st.failed && Remembers(st.memories, cfg.jobs[sc.l].who.owner, [])
    requires InDeclaredOrder(log, list) && Pair(sc, first, second) && Playable(cfg, log)
    requires first in log && second in log && Fired(sc.later, sc.l) in log
    requires first.task < |list| && second.task < |list| && RunsFirst(list, first.task, second.task)
    ensures Over(Story(cfg, st, log), AfterPair(st.bus, cfg.duration, sc, first), cfg.jobs[sc.l].who.owner, sc.later)
  {
    assert sc.t < sc.later && sc.i != sc.j;
    hide Staged, Clear, Remembers, Story, Both, Special, Told, RunsFirst, InDeclaredOrder, Plain, Pair;
    hide Playable, ChannelsOf;
    var x, y, z := FindScene(sc, log, list, first, second);
    var (a, b, c, d) := (log[..x], log[x + 1..y], log[y + 1..z], log[z + 1..]);
    PartsPlay(cfg, log, 0, x);
    PartsPlay(cfg, log, x + 1, y);
    PartsPlay(cfg, log, y + 1, z);
    PartsPlay(cfg, log, z + 1, |log|);
    assert log[0..x] == a && log[z + 1..|log|] == d;
    SceneStory(cfg, sc, st, a, first, b, second, c, d, st.bus);
    InFour(log, x, y, z);
  }

  lemma InFour(log: seq<Fired>, x: nat, y: nat, z: nat)
    requires x < y < z < |log|
    ensures log == log[..x] + [log[x]] + log[x + 1..y] + [log[y]] + log[y + 1..z] + [log[z]] + log[z + 1..]
  {
    assert log[x..] == [log[x]] + log[x + 1..y] + log[y..];
    assert log[y..] == [log[y]] + log[y + 1..z] + log[z..];
    assert log[z..] == [log[z]] + log[z + 1..];
  }

  lemma PartsPlay(cfg: Config, log: seq<Fired>, lo: nat, hi: nat)
    requires Playable(cfg, log) && lo <= hi <= |log|
    ensures Playable(cfg, log[lo..hi])
  {
  }

  lemma DeclaredEvents(members: seq<Member>, duration: u64, specs: seq<ChannelSpec>, plans: seq<seq<Step>>, sc: Scene,
                       log: seq<Fired>)
    requires Written(members, duration, specs, plans, sc) && ExactlyDeclared(log, TaskList(members), duration)
    ensures Fired(sc.t, sc.i) in log && Fired(sc.t, sc.j) in log && Fired(sc.later, sc.l) in log
  {
    hide TaskList, DeclaredAt;
  }

  /** Unbounded queues lose nothing, and the scene publishes twice. */
  lemma OverLosesNothing(b: Bus, duration: u64, sc: Scene, first: Fired, m: nat)
    requires Clear(b, sc) && sc.t < duration && sc.c != sc.d && NoDrops(b)
    ensures var after := Merged(AfterPair(b, duration, sc, first), m, sc.later);
      NoDrops(after) && after.published == b.published + 2 && |after.routes| == |b.routes|
  {
    ClearPublish(b, sc, duration, sc.c, sc.x);
    ClearPublish(b, sc, duration, sc.d, sc.y);
    var mid := AfterPair(b, duration, sc, first);
    hide Clear, Passes, Both, Merge.MergeVisible, Publish;
    BothLoseNothing(b, duration, sc, first);
    forall k | 0 <= k < |mid.routes| ensures Merge.MergeVisible(mid.routes, m, sc.later).0[k].dropped == 0 {
      Merge.MergeTakesReleasedPrefixes(mid.routes, m, sc.later, k);
    }
  }

  lemma BothLoseNothing(b: Bus, duration: u64, sc: Scene, first: Fired)
    requires Open(b) && sc.c != sc.d && NoDrops(b)
    requires Passes(b, duration, sc.t, sc.c, sc.x) && Passes(b, duration, sc.t, sc.d, sc.y)
    ensures var after := AfterPair(b, duration, sc, first);
      NoDrops(after) && after.published == b.published + 2 && |after.routes| == |b.routes|
  {
    hide Both, Passes;
    SameLengthAfter(b, duration, sc.t, sc.c, sc.x, sc.d, sc.y);
    SameLengthAfter(b, duration, sc.t, sc.d, sc.y, sc.c, sc.x);
    forall k | 0 <= k < |b.routes| ensures AfterPair(b, duration, sc, first).routes[k].dropped == 0 {
      AfterBoth(b, duration, sc.t, sc.c, sc.x, sc.d, sc.y, k);
      AfterBoth(b, duration, sc.t, sc.d, sc.y, sc.c, sc.x, k);
    }
  }

  lemma NothingCrowds(cfg: Config, w: World, n: nat)
    requires Wired(cfg, w) && InLoop(w.control, cfg.duration) && !Run(cfg, w, n).failed
    requires NoDrops(w.bus) && NoDrops(Run(cfg, w, n).bus)
    ensures !CrowdedRun(cfg, w, n)
  {
    hide Run, CrowdedRun, InLoop;
    RunLoses(cfg, w, n);
  }

  ghost predicate Begins(cfg: Config, w: World, sc: Scene) {
    && Staged(cfg, sc) && Clear(w.bus, sc) && TasksOnly(w.control) && w.control.activations == [] && !w.failed
    && Remembers(w.memories, cfg.jobs[sc.l].who.owner, []) && w.bus.published == 0 && NoDrops(w.bus)
    && InLoop(w.control, cfg.duration)
  }

  lemma SceneEnds(cfg: Config, w: World, n: nat, list: seq<(nat, TaskSpec)>, sc: Scene, first: Fired, second: Fired)
    requires Begins(cfg, w, sc) && Wired(cfg, w) && !Run(cfg, w, n).failed && Pair(sc, first, second)
    requires InDeclaredOrder(Run(cfg, w, n).control.activations, list)
    requires var log := Run(cfg, w, n).control.activations;
      Fired(sc.t, sc.i) in log && Fired(sc.t, sc.j) in log && Fired(sc.later, sc.l) in log
    requires first.task < |list| && second.task < |list| && RunsFirst(list, first.task, second.task)
    ensures var r := Run(cfg, w, n);
      && !CrowdedRun(cfg, w, n) && r.bus.published == 2
      && Over(StageOf(r), AfterPair(w.bus, cfg.duration, sc, first), cfg.jobs[sc.l].who.owner, sc.later)
  {
    assert sc.t < cfg.duration && sc.c != sc.d;
    hide Staged, Clear, Run, Story, AfterPair, Remembers, Merged, CrowdedRun, NoDrops, InLoop, Heard;
    hide RunsFirst, InDeclaredOrder;
    hide Pair, Playable;
    WholeLogTells(cfg, w, n);
    LogOfScene(cfg, sc, StageOf(w), Run(cfg, w, n).control.activations, list, first, second);
    OverLosesNothing(w.bus, cfg.duration, sc, first, cfg.jobs[sc.l].who.owner);
    NothingCrowds(cfg, w, n);
  }

  lemma WholeLogTells(cfg: Config, w: World, n: nat)
    requires Wired(cfg, w) && TasksOnly(w.control) && !Run(cfg, w, n).failed && w.control.activations == []
    ensures var r := Run(cfg, w, n);
      Playable(cfg, r.control.activations) && StageOf(r) == Story(cfg, StageOf(w), r.control.activations)
  {
    hide Run, Story;
    RunTells(cfg, w, n);
    var log := Run(cfg, w, n).control.activations;
    assert log[|w.control.activations|..] == log;
  }

  /** The whole run. */
  function Finish(cfg: Config, w: World): World
    requires Wired(cfg, w)
  {
    Run(cfg, w, Work(w.control, cfg.duration))
  }

  /** Completed and unfailed, no queue crowded, two messages published. */
  ghost predicate Clean(cfg: Config, w: World)
    requires Wired(cfg, w)
  {
    var r := Finish(cfg, w);
    !r.failed && Completed(r.control) && !CrowdedRun(cfg, w, Work(w.control, cfg.duration)) && r.bus.published == 2
  }

  /** The run of a manifest that plays the scene: it completes unfailed, crowds no queue and publishes the two
      messages; the merging participant has taken its inputs and remembers their channels in the order it
      was told them, and everyone else remembers nothing. */
  lemma SceneRun(members: seq<Member>, duration: u64, specs: seq<ChannelSpec>, plans: seq<seq<Step>>, patience: nat,
                 sc: Scene, first: Fired, second: Fired)
    requires Accepted(members, |specs|) && Written(members, duration, specs, plans, sc) && patience >= 1
    requires Pair(sc, first, second) && RunsFirst(TaskList(members), first.task, second.task)
    ensures var cfg, w := FirstConfig(members, duration, specs, patience), FirstWorld(members, duration, specs, plans);
      && Wired(cfg, w) && Clean(cfg, w)
      && Over(StageOf(Finish(cfg, w)), AfterPair(w.bus, duration, sc, first), TaskList(members)[sc.l].0, sc.later)
  {
    var cfg, w := FirstConfig(members, duration, specs, patience), FirstWorld(members, duration, specs, plans);
    var n := Work(w.control, duration);
    AcceptedRun(members, duration, specs, plans, patience);
    SceneBegins(members, duration, specs, plans, patience, sc);
    hide FirstConfig, FirstWorld, Roll, Run, Work, AfterPair, TaskList, Accepted, CrowdedRun, Completed;
    hide Written, RunsFirst;
    hide Over, Begins, InDeclaredOrder, ExactlyDeclared, Agreement, AllAgain;
    BeginsCalm(cfg, w, n, sc);
    DeclaredEvents(members, duration, specs, plans, sc, Run(cfg, w, n).control.activations);
    SceneEnds(cfg, w, n, TaskList(members), sc, first, second);
  }

  lemma BeginsCalm(cfg: Config, w: World, n: nat, sc: Scene)
    requires Begins(cfg, w, sc) && Wired(cfg, w)
    ensures !Run(cfg, w, n).failed && sc.i != sc.j
  {
    assert sc.i != sc.j;
    hide Run, Staged, Clear, Remembers, NoDrops, InLoop;
    RunCalm(cfg, sc, w, n);
  }

  lemma SceneBegins(members: seq<Member>, duration: u64, specs: seq<ChannelSpec>, plans: seq<seq<Step>>, patience: nat,
                    sc: Scene)
    requires Accepted(members, |specs|) && Written(members, duration, specs, plans, sc) && patience >= 1
    ensures var cfg, w := FirstConfig(members, duration, specs, patience), FirstWorld(members, duration, specs, plans);
      Begins(cfg, w, sc) && cfg.jobs[sc.l].who.owner == TaskList(members)[sc.l].0 && cfg.duration == duration
  {
    WrittenStages(members, duration, specs, plans, patience, sc);
    FirstFacts(members, duration, specs, plans, patience);
    hide FirstConfig, Roll, Written, TaskList, InLoop, Agreement, Listed, Clear, Remembers;
  }

  lemma IntsDiffer(a: seq<nat>, b: seq<nat>)
    ensures Ints(a) == Ints(b) <==> a == b
  {
    if Ints(a) == Ints(b) {
      assert |a| == |b|;
      forall i | 0 <= i < |a| ensures a[i] == b[i] {
        assert Ints(a)[i] == Ints(b)[i];
      }
    }
  }

  lemma MemoriesTell(st: Stage, tt: Stage, b: Bus, c: Bus, m: nat, later: u64)
    requires Over(st, b, m, later) && Over(tt, c, m, later)
    ensures SameMemories(st.memories, tt.memories)
            <==> ChannelsOf(Told(b.routes, m, later)) == ChannelsOf(Told(c.routes, m, later))
  {
    IntsDiffer(ChannelsOf(Told(b.routes, m, later)), ChannelsOf(Told(c.routes, m, later)));
    hide Told, ChannelsOf, Ints, Merged;
    if SameMemories(st.memories, tt.memories) {
      assert MemoryOf(st.memories, m) == MemoryOf(tt.memories, m);
    }
  }

  lemma FirstBusHears(members: seq<Member>, others: seq<Member>, duration: u64, specs: seq<ChannelSpec>,
                      plans: seq<seq<Step>>, patience: nat, sc: Scene)
    requires Accepted(members, |specs|) && Accepted(others, |specs|) && SameButPriorities(members, others)
    requires patience >= 1
    requires Written(members, duration, specs, plans, sc)
    requires OwnChannelsDiffer(FirstWorld(members, duration, specs, plans).bus.routes, TaskList(members)[sc.l].0)
    ensures var b := FirstWorld(members, duration, specs, plans).bus;
      && FirstWorld(others, duration, specs, plans).bus == b && sc.i != sc.j
      && TwoMessages(b, duration, sc.t, sc.c, sc.x, sc.d, sc.y, TaskList(members)[sc.l].0)
  {
    WrittenStages(members, duration, specs, plans, patience, sc);
    SameRolls(members, others, duration, specs);
    FirstFacts(members, duration, specs, plans, 0);
    hide Roll, Agreement, SameButPriorities, AllSound, Ready, Listed, InLoop, Publish, Written, Remembers, TaskList;
    hide OwnChannelsDiffer;
    var b := FirstWorld(members, duration, specs, plans).bus;
    assert sc.c != sc.d && sc.i != sc.j && sc.t < duration && Clear(b, sc);
    hide Staged;
    ClearPublish(b, sc, duration, sc.c, sc.x);
    ClearPublish(b, sc, duration, sc.d, sc.y);
  }

  /** Two orders of the same two messages, heard or not. */
  lemma TwoEndings(st: Stage, tt: Stage, b: Bus, duration: u64, sc: Scene, m: nat)
    requires TwoMessages(b, duration, sc.t, sc.c, sc.x, sc.d, sc.y, m) && sc.i != sc.j
    requires Over(st, AfterPair(b, duration, sc, Fired(sc.t, sc.i)), m, sc.later)
    requires Over(tt, AfterPair(b, duration, sc, Fired(sc.t, sc.j)), m, sc.later)
    ensures SameMemories(st.memories, tt.memories)
            <==> !HearsBoth(b, duration, sc.t, sc.c, sc.x, sc.d, sc.y, m, sc.later)
  {
    hide Over, TwoMessages, Both, HearsBoth, SameMemories, Told, ChannelsOf;
    InterleavingIsTold(b, duration, sc.t, sc.c, sc.x, sc.d, sc.y, m, sc.later);
    MemoriesTell(st, tt, AfterPair(b, duration, sc, Fired(sc.t, sc.i)), AfterPair(b, duration, sc, Fired(sc.t, sc.j)),
                 m, sc.later);
  }

  /** Two manifests that differ in priorities only and play the scene: two participants publish at one instant, in
      one order under the first and in the other under the second, and a third merges its inputs later. Both runs
      complete unfailed and crowd no queue, and they end with the same memories exactly when the merging
      participant cannot take both messages at its instant. */
  lemma PrioritiesAreHeard(members: seq<Member>, others: seq<Member>, duration: u64, specs: seq<ChannelSpec>,
                           plans: seq<seq<Step>>, patience: nat, sc: Scene)
    requires Accepted(members, |specs|) && Written(members, duration, specs, plans, sc) && patience >= 1
    requires SameButPriorities(members, others) && |TaskList(others)| == |TaskList(members)|
    requires RunsFirst(TaskList(members), sc.i, sc.j) && RunsFirst(TaskList(others), sc.j, sc.i)
    requires OwnChannelsDiffer(FirstWorld(members, duration, specs, plans).bus.routes, TaskList(members)[sc.l].0)
    ensures Accepted(others, |specs|)
    ensures var cfg, w := FirstConfig(members, duration, specs, patience), FirstWorld(members, duration, specs, plans);
      var cfg', u := FirstConfig(others, duration, specs, patience), FirstWorld(others, duration, specs, plans);
      && Wired(cfg, w) && Clean(cfg, w) && Wired(cfg', u) && Clean(cfg', u)
      && Passes(w.bus, duration, sc.t, sc.c, sc.x) && Passes(w.bus, duration, sc.t, sc.d, sc.y)
      && (SameMemories(Finish(cfg, w).memories, Finish(cfg', u).memories)
          <==> !HearsBoth(w.bus, duration, sc.t, sc.c, sc.x, sc.d, sc.y, TaskList(members)[sc.l].0, sc.later))
  {
    assert AllSound(members, |specs|) && |plans| == |specs|;
    PrioritiesKeepScene(members, others, duration, specs, plans, sc);
    hide *;
    SceneRun(members, duration, specs, plans, patience, sc, Fired(sc.t, sc.i), Fired(sc.t, sc.j));
    SceneRun(others, duration, specs, plans, patience, sc, Fired(sc.t, sc.j), Fired(sc.t, sc.i));
    FirstBusHears(members, others, duration, specs, plans, patience, sc);
    var cfg, w := FirstConfig(members, duration, specs, patience), FirstWorld(members, duration, specs, plans);
    var cfg', u := FirstConfig(others, duration, specs, patience), FirstWorld(others, duration, specs, plans);
    TwoEndings(StageOf(Finish(cfg, w)), StageOf(Finish(cfg', u)), w.bus, duration, sc, TaskList(members)[sc.l].0);
  }

  // ----- Two priorities, two runs -----------------------------------------------------------------------------------

  const TRIO_SCENE: Scene := Scene(0, 1, 2, 5, 6, 0, [7], 1, [8])

  const TRIO_CHANNELS: seq<ChannelSpec> := [ChannelSpec(1, None), ChannelSpec(1, None)]

  function Speaker(name: string, ch: nat, bytes: seq<byte>, priority: int): Member {
    Member(name, Actor([ch], [], [TaskSpec(10, 5, priority, SpeakAt(5, ch, bytes))]))
  }

  function Listener(): Member {
    Member("c", Actor([], [RouteSpec(0, None, FailRun), RouteSpec(1, None, FailRun)], [TaskSpec(10, 6, 0, MergeAt(6))]))
  }

  /** Two publishers and one participant that merges both, in a run of length 10. */
  function Trio(p: int, q: int): seq<Member> {
    [Speaker("a", 0, [7], p), Speaker("b", 1, [8], q), Listener()]
  }

  lemma OneMoreTasks(members: seq<Member>, m: Member)
    ensures TaskList(members + [m]) == TaskList(members) + RoleTasks(|members|, m.role)
  {
    assert (members + [m])[..|members|] == members;
  }

  lemma ThreeTasks(a: Member, b: Member, c: Member)
    requires a.role.Actor? && b.role.Actor? && c.role.Actor?
    requires |a.role.tasks| == |b.role.tasks| == |c.role.tasks| == 1
    ensures TaskList([a, b, c]) == [(0, a.role.tasks[0]), (1, b.role.tasks[0]), (2, c.role.tasks[0])]
  {
    assert TaskList([]) == [];
    hide TaskList;
    OneMoreTasks([], a);
    OneMoreTasks([a], b);
    OneMoreTasks([a, b], c);
    assert [] + [a] == [a] && [a] + [b] == [a, b] && [a, b] + [c] == [a, b, c];
  }

  lemma OneMorePublisher(members: seq<Member>, m: Member)
    ensures Manifest.Declared(Publishers(members + [m])) == Manifest.Declared(Publishers(members)) + Outputs(m.role)
  {
    assert Publishers(members + [m])[..|members|] == Publishers(members);
  }

  lemma ThreePublishers(a: Member, b: Member, c: Member)
    ensures Manifest.Declared(Publishers([a, b, c])) == Outputs(a.role) + Outputs(b.role) + Outputs(c.role)
  {
    assert Manifest.Declared(Publishers([])) == [];
    assert [] + [a] == [a] && [a] + [b] == [a, b] && [a, b] + [c] == [a, b, c];
    hide Manifest.Declared, Publishers, Outputs;
    OneMorePublisher([], a);
    OneMorePublisher([a], b);
    OneMorePublisher([a, b], c);
  }

  lemma OneMoreRoster(members: seq<Member>, m: Member, duration: u64, specs: seq<ChannelSpec>)
    requires AllSound(members, |specs|) && Sound(m, |specs|) && m.role.Actor?
    ensures AllSound(members + [m], |specs|)
    ensures Roll(members + [m], duration, specs).routes
            == Roll(members, duration, specs).routes + EmptyRoutes(m.role.routes, |members|, specs)
  {
    assert (members + [m])[..|members|] == members;
    var r := Roll(members, duration, specs);
    EnrolTasksManned(r.(routes := r.routes + EmptyRoutes(m.role.routes, |members|, specs)), m.role.tasks,
                     CallerOf(m, |members|), duration);
  }

  /** Only the third subscribes. */
  lemma ThreeRoutes(a: Member, b: Member, c: Member, duration: u64, specs: seq<ChannelSpec>)
    requires Sound(a, |specs|) && Sound(b, |specs|) && Sound(c, |specs|)
    requires a.role.Actor? && b.role.Actor? && c.role.Actor? && a.role.routes == b.role.routes == []
    ensures AllSound([a, b, c], |specs|)
    ensures Roll([a, b, c], duration, specs).routes == EmptyRoutes(c.role.routes, 2, specs)
  {
    assert Roll([], duration, specs) == EMPTY_ROSTER;
    hide Roll;
    OneMoreRoster([], a, duration, specs);
    assert [] + [a] == [a] && [a] + [b] == [a, b] && [a, b] + [c] == [a, b, c];
    OneMoreRoster([a], b, duration, specs);
    OneMoreRoster([a, b], c, duration, specs);
  }

  lemma TrioTasks(p: int, q: int)
    ensures TaskList(Trio(p, q))
            == [(0, TaskSpec(10, 5, p, SpeakAt(5, 0, [7]))), (1, TaskSpec(10, 5, q, SpeakAt(5, 1, [8]))),
                                     (2, TaskSpec(10, 6, 0, MergeAt(6)))]
  {
    hide TaskList, SpeakAt, MergeAt;
    ThreeTasks(Speaker("a", 0, [7], p), Speaker("b", 1, [8], q), Listener());
  }

  lemma TrioIsAccepted(p: int, q: int)
    ensures Accepted(Trio(p, q), |TRIO_CHANNELS|)
  {
    hide Manifest.Declared, SpeakAt, MergeAt;
    ThreePublishers(Speaker("a", 0, [7], p), Speaker("b", 1, [8], q), Listener());
  }

  lemma TrioBus(p: int, q: int)
    ensures AllSound(Trio(p, q), |TRIO_CHANNELS|)
    ensures FirstWorld(Trio(p, q), 10, TRIO_CHANNELS, [[], []]).bus == TWO_PUBLISHERS
  {
    hide Roll, SpeakAt, MergeAt;
    ThreeRoutes(Speaker("a", 0, [7], p), Speaker("b", 1, [8], q), Listener(), 10, TRIO_CHANNELS);
    assert NewChannels(TRIO_CHANNELS, [[], []]) == TWO_PUBLISHERS.channels;
  }

  lemma TrioIsWritten(p: int, q: int)
    ensures Written(Trio(p, q), 10, TRIO_CHANNELS, [[], []], TRIO_SCENE)
  {
    TrioTasks(p, q);
    hide TaskList;
    var list := TaskList(Trio(p, q));
    assert 5 == 5 + 0 * 10 && 6 == 6 + 0 * 10;
    assert DeclaredAt(list[0].1, 10, 5) && DeclaredAt(list[1].1, 10, 5) && DeclaredAt(list[2].1, 10, 6);
  }

  lemma TrioIsAlike(p: int, q: int, p': int, q': int)
    ensures SameButPriorities(Trio(p, q), Trio(p', q')) && SameOwnOrder(TaskList(Trio(p, q)), TaskList(Trio(p', q')))
    ensures NoFeedthrough(Trio(p, q), TRIO_CHANNELS) && OthersNeverMerge(Trio(p, q), {2})
  {
    TrioTasks(p, q);
    TrioTasks(p', q');
    hide TaskList;
  }

  lemma TrioRunsFirst(p: int, q: int, p': int, q': int)
    requires p < q && q' < p'
    ensures |TaskList(Trio(p, q))| == |TaskList(Trio(p', q'))| == 3 && TaskList(Trio(p, q))[2].0 == 2
    ensures RunsFirst(TaskList(Trio(p, q)), 0, 1) && RunsFirst(TaskList(Trio(p', q')), 1, 0)
  {
    TrioTasks(p, q);
    TrioTasks(p', q');
    hide TaskList, Trio;
  }

  lemma TrioHearsBoth(p: int, q: int)
    ensures AllSound(Trio(p, q), |TRIO_CHANNELS|)
    ensures var b := FirstWorld(Trio(p, q), 10, TRIO_CHANNELS, [[], []]).bus;
      && OwnChannelsDiffer(b.routes, 2) && Passes(b, 10, 5, 0, [7]) && Passes(b, 10, 5, 1, [8])
      && HearsBoth(b, 10, 5, 0, [7], 1, [8], 2, 6)
  {
    TrioBus(p, q);
    hide FirstWorld, Trio, HearsBoth, Passes;
    BothWaitAtSix();
  }

  /** Under the first priorities `a` speaks before `b`, under the second after it. Every condition of
      `PrioritiesAreFree` holds but one, that the merging participant hears one publisher only; and the two
      runs end in different memories. */
  lemma PrioritiesAreNotFree(p: int, q: int, p': int, q': int, patience: nat, voice: nat -> nat)
    requires p < q && q' < p' && patience >= 1
    ensures var (members, others, specs, plans) := (Trio(p, q), Trio(p', q'), TRIO_CHANNELS, [[], []]);
      && Accepted(members, |specs|) && NoFeedthrough(members, specs) && OthersNeverMerge(members, {2})
      && SameButPriorities(members, others) && SameOwnOrder(TaskList(members), TaskList(others))
      && Accepted(others, |specs|)
      && var cfg, w := FirstConfig(members, 10, specs, patience), FirstWorld(members, 10, specs, plans);
         var cfg', u := FirstConfig(others, 10, specs, patience), FirstWorld(others, 10, specs, plans);
         && Wired(cfg, w) && Clean(cfg, w) && Wired(cfg', u) && Clean(cfg', u)
         && !WorldLike(Finish(cfg, w), Finish(cfg', u), voice)
  {
    TrioIsAccepted(p, q);
    TrioIsAlike(p, q, p', q');
    TrioIsWritten(p, q);
    TrioRunsFirst(p, q, p', q');
    TrioHearsBoth(p, q);
    hide *;
    var (members, others, specs, plans) := (Trio(p, q), Trio(p', q'), TRIO_CHANNELS, [[], []]);
    PrioritiesAreHeard(members, others, 10, specs, plans, patience, TRIO_SCENE);
    var cfg, w := FirstConfig(members, 10, specs, patience), FirstWorld(members, 10, specs, plans);
    var cfg', u := FirstConfig(others, 10, specs, patience), FirstWorld(others, 10, specs, plans);
    OtherMemories(Finish(cfg, w), Finish(cfg', u), voice);
  }

  lemma OtherMemories(r: World, v: World, voice: nat -> nat)
    requires !SameMemories(r.memories, v.memories)
    ensures !WorldLike(r, v, voice)
  {
  }
}
