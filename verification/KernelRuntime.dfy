// The slot loop as the engine runs it: tasks, replayers and the due list, step by step.

module KernelRuntime {
  import opened VirtualTime
  import opened Interceptor
  import opened DataPlane
  import opened Activation
  import opened Schedule
  import opened ScheduleProofs
  import opened SlotProofs
  import opened Engine
  import opened EngineProofs
  import opened EngineRuntime
  import opened PlanRuntime
  import opened Setup
  import opened SetupProofs
  import Manifest

  function ReplayersOf(sources: seq<RecordedSource>): (s: seq<Replayer>)
    reads sources
    ensures |s| == |sources| && forall i :: 0 <= i < |s| ==> s[i] == sources[i].State()
  {
    seq(|sources|, i requires 0 <= i < |sources| reads sources => sources[i].State())
  }

  class Kernel {
    const bus: MessageBus
    const patience: nat
    var tasks: seq<Task>
    var jobs: seq<Job>
    var sources: seq<RecordedSource>
    var nextIndex: nat
    var memories: map<nat, Memory>
    var activations: seq<Fired>
    var slots: seq<u64>
    var failed: bool

    ghost predicate Valid()
      reads this, bus, sources
      ensures Valid() ==> bus.Valid() && |jobs| == |tasks|
    {
      && bus.Valid()
      && |jobs| == |tasks|
      && (forall i :: 0 <= i < |sources| ==> sources[i].Valid())
      && (forall i, j :: 0 <= i < j < |sources| ==> sources[i] != sources[j])
    }

    function TheControl(): (c: Control)
      reads this`tasks, this`sources, this`activations, this`slots, sources
      ensures c.tasks == tasks && c.activations == activations && c.slots == slots
      ensures |c.replayers| == |sources| && forall i :: 0 <= i < |sources| ==> c.replayers[i] == sources[i].State()
    {
      Control(tasks, ReplayersOf(sources), activations, slots)
    }

    ghost function TheConfig(): (c: Config)
      reads this`jobs
      ensures c.duration == bus.duration && c.jobs == jobs && c.patience == patience
    {
      Config(bus.duration, jobs, patience)
    }

    ghost function TheWorld(): (w: World)
      reads this, sources, bus, bus.plans, bus.routes
      requires Valid()
      ensures w.control == TheControl() && w.bus == bus.TheBus() && w.memories == memories && w.failed == failed
      ensures Wired(TheConfig(), w)
    {
      World(TheControl(), bus.TheBus(), memories, failed)
    }

    // ----- Setup ------------------------------------------------------------------------------------

    /** Everything registered so far. */
    ghost function TheRoster(): (r: Roster)
      reads this`tasks, this`jobs, this`sources, this`nextIndex, sources, bus`routes, bus.routes
      ensures r.tasks == tasks && r.jobs == jobs && r.next == nextIndex
      ensures r.replayers == ReplayersOf(sources) && r.routes == bus.RouteStates()
    {
      Roster(tasks, jobs, ReplayersOf(sources), bus.RouteStates(), nextIndex)
    }

    /** Nothing has run yet. */
    ghost predicate InSetup()
      reads this, bus, sources, bus.routes
      ensures InSetup() ==> Valid()
    {
      && Valid() && !failed && memories == map[] && activations == [] && slots == []
      && bus.recording == [] && bus.published == 0
      && (forall c :: 0 <= c < |bus.channels| ==> bus.channels[c].nextSeq == 0)
      && Orderly(TheRoster(), bus.duration)
    }

    lemma SetupIsReady()
      requires InSetup()
      ensures Ready(TheConfig(), TheWorld())
    {
      hide Initial, MessageBus.Valid;
      assert TheControl() == ControlOf(TheRoster());
    }

    /** The engine is what its roster and its channels make of it. */
    lemma SetupWorld(members: seq<Member>, specs: seq<ChannelSpec>, plans: seq<seq<Step>>)
      requires InSetup() && AllSound(members, |specs|) && TheRoster() == Roll(members, bus.duration, specs)
      requires |plans| == |specs| && bus.Specs() == specs && Planned(bus.plans, plans)
      ensures TheConfig() == FirstConfig(members, bus.duration, specs, patience)
      ensures TheWorld() == FirstWorld(members, bus.duration, specs, plans)
    {
      hide Roll, Orderly, MessageBus.Valid;
      assert bus.ChannelStates() == NewChannels(specs, plans);
    }

    constructor (bus: MessageBus, patience: nat)
      requires bus.Valid() && bus.routes == [] && bus.recording == [] && bus.published == 0
      requires forall c :: 0 <= c < |bus.channels| ==> bus.channels[c].nextSeq == 0
      ensures InSetup() && this.bus == bus && this.patience == patience && sources == [] && TheRoster() == EMPTY_ROSTER
    {
      this.bus, this.patience := bus, patience;
      tasks, jobs, sources, nextIndex := [], [], [], 0;
      memories, activations, slots, failed := map[], [], [], false;
    }

    /** `add_task`: false where the source refuses a period of zero. */
    method AddTask(task: TaskSpec, who: Caller) returns (ok: bool)
      requires InSetup()
      modifies this
      ensures ok <==> task.period > 0
      ensures InSetup() && sources == old(sources)
      ensures TheRoster() == if ok then EnrolTask(old(TheRoster()), task, who, bus.duration) else old(TheRoster())
    {
      if task.period == 0 { return false; }
      ghost var before := TheRoster();
      EnrolTaskOrderly(before, task, who, bus.duration);
      hide Orderly, MessageBus.Valid;
      tasks := tasks + [NewTask(task.offset, task.period, task.priority, nextIndex, bus.duration)];
      jobs := jobs + [Job(who, task.program)];
      nextIndex := nextIndex + 1;
      assert TheRoster() == EnrolTask(before, task, who, bus.duration);
      return true;
    }

    /** A Replay participant takes the next registration index and skips to its first message. */
    method AddReplayer(owner: nat, role: Role)
      requires InSetup() && role.Replay?
      modifies this
      ensures InSetup()
      ensures forall x :: x in sources ==> x in old(sources) || fresh(x)
      ensures TheRoster() == EnrolReplay(old(TheRoster()), role, owner, bus.duration)
    {
      ghost var before := TheRoster();
      EnrolReplayOrderly(before, role, owner, bus.duration);
      hide Orderly, MessageBus.Valid, MessageBus.Specs, Skip, ChannelSet;
      var source := new RecordedSource(owner, ChannelSet(role.channels), role.stored, role.placed, nextIndex,
                                       bus.duration);
      sources := sources + [source];
      nextIndex := nextIndex + 1;
      assert ReplayersOf(sources) == before.replayers + [source.State()];
      assert TheRoster() == EnrolReplay(before, role, owner, bus.duration);
    }

    /** `subscribe`, as participants do it while they are set up. */
    method Subscribe(owner: nat, route: RouteSpec) returns (ok: bool)
      requires InSetup()
      modifies bus`routes, bus`channels
      ensures InSetup() && (ok <==> route.channel < |bus.channels|) && bus.Specs() == old(bus.Specs())
              && bus.plans == old(bus.plans)
      ensures forall x :: x in bus.routes ==> x in old(bus.routes) || fresh(x)
      ensures var r := old(TheRoster());
        TheRoster() == if ok then r.(routes := r.routes + [EmptyRoute(route, owner, bus.Specs())]) else r
    {
      hide Initial, MessageBus.Valid;
      ghost var before := TheRoster();
      ok := bus.Subscribe(owner, route);
      assert TheRoster().replayers == before.replayers;
      assert ControlOf(TheRoster()) == ControlOf(before);
    }

    // ----- The slot loop ------------------------------------------------------------------------------

    /** The earliest instant anything is due at. */
    method SelectSlot() returns (slot: u64)
      ensures slot == NextSlot(TheControl())
    {
      hide MinTask, MinReplay, NextPublish;
      ghost var c := TheControl();
      slot := MAX64;
      MinStarts(c);
      for i := 0 to |tasks|
        invariant slot == MinTask(c.tasks, i)
      {
        MinTaskTurns(c.tasks, i);
        if !tasks[i].done && tasks[i].next < slot { slot := tasks[i].next; }
      }
      ghost var first := slot;
      for j := 0 to |sources|
        invariant slot == if MinReplay(c.replayers, j) < first then MinReplay(c.replayers, j) else first
      {
        MinReplayTurns(c.replayers, j);
        var t := sources[j].NextPublishNs();
        if t < slot { slot := t; }
      }
    }

    /** What the slot runs: replayers without a priority, then the sorted due list. */
    method DueItems(slot: u64) returns (items: seq<Item>)
      ensures items == Agenda(TheControl(), slot)
    {
      hide DueTasks, Replays;
      var c := TheControl();
      DueStarts(c, slot);
      var due: seq<Item>, first: seq<Item>, placed: seq<Item> := [], [], [];
      for i := 0 to |tasks|
        invariant due == DueTasks(c, slot, i)
      {
        DueTurns(c, slot, i);
        if !tasks[i].done && tasks[i].next == slot { due := due + [RunTask(i)]; }
      }
      for j := 0 to |sources|
        invariant first == Replays(c, false, j) && placed == Replays(c, true, j)
      {
        ReplayTurns(c, j);
        if sources[j].priority.Some? { placed := placed + [RunReplay(j)]; } else { first := first + [RunReplay(j)]; }
      }
      hide Sort;
      items := first + Sort(c, due + placed);
    }

    /** A task's activation, and its next instant. */
    method RunOneTask(i: nat)
      requires Valid() && i < |tasks|
      modifies this, bus, bus.plans, bus.routes
      ensures Valid() && unchanged(`jobs, `sources) && unchanged(bus`plans, bus`routes, bus`now)
      ensures TheWorld() == Perform(old(TheConfig()), old(TheWorld()), bus.now, RunTask(i))
    {
      hide Activate, Valid, TheWorld, TheConfig, Perform, MessageBus.Valid, MessageBus.TheBus, Advance;
      ghost var w := TheWorld();
      var job := jobs[i];
      var owner := job.who.owner;
      var memory := if owner in memories then memories[owner] else [];
      var after := CallBack(job, memory);
      PerformTaskIs(TheConfig(), w, bus.now, i, after, bus.TheBus());
      if after.None? {
        Fail();
        return;
      }
      FinishTask(i, owner, after.value);
    }

    method CallBack(job: Job, memory: Memory) returns (after: Option<Memory>)
      requires Valid()
      modifies bus, bus.plans, bus.routes
      ensures Valid() && unchanged(bus`plans, bus`routes, bus`now)
      ensures var out := Activate(old(TheWorld()).bus, bus.duration, bus.now, job.who, job.program, memory, [],
                                  patience);
        && TheWorld() == old(TheWorld()).(bus := out.bus)
        && after == if out.Finished? then Some(out.memory) else None
    {
      hide Activate, MessageBus.Valid, MessageBus.TheBus;
      after := bus.Callback(job.who, job.program, memory, patience);
    }

    method Fail()
      requires Valid()
      modifies this`failed
      ensures Valid() && TheWorld() == old(TheWorld()).(failed := true)
    {
      failed := true;
    }

    method FinishTask(i: nat, owner: nat, memory: Memory)
      requires Valid() && i < |tasks|
      modifies this`memories, this`tasks, this`activations
      ensures Valid()
      ensures var w := old(TheWorld());
        TheWorld() == World(w.control.(tasks := w.control.tasks[i := Advance(w.control.tasks[i], bus.duration)],
                                       activations := w.control.activations + [Fired(bus.now, i)]),
                            w.bus, w.memories[owner := memory], w.failed)
    {
      hide MessageBus.Valid, MessageBus.TheBus, Advance;
      ghost var before := TheControl();
      memories := memories[owner := memory];
      tasks := tasks[i := Advance(tasks[i], bus.duration)];
      activations := activations + [Fired(bus.now, i)];
      assert TheControl().replayers == before.replayers;
    }

    method RunOneReplay(j: nat)
      requires Valid() && j < |sources|
      modifies this, sources, bus, bus.plans, bus.routes
      ensures Valid() && unchanged(`jobs, `sources) && unchanged(bus`plans, bus`routes, bus`now)
      ensures TheWorld() == Perform(old(TheConfig()), old(TheWorld()), bus.now, RunReplay(j))
    {
      hide Engine.PublishDue, MessageBus.Valid, MessageBus.TheBus, TheWorld, Perform;
      ghost var w := TheWorld();
      var ok := sources[j].PublishDue(bus);
      PerformReplayIs(TheConfig(), w, bus.now, j, bus.TheBus(), sources[j].State(), ok);
      assert TheControl().replayers == w.control.replayers[j := sources[j].State()];
      failed := !ok;
    }

    /** One entry of the due list. */
    method PerformItem(item: Item)
      requires Valid() && Known(TheControl(), item)
      modifies this, sources, bus, bus.plans, bus.routes
      ensures Valid() && unchanged(`jobs, `sources) && unchanged(bus`plans, bus`routes, bus`now)
      ensures TheWorld() == Perform(old(TheConfig()), old(TheWorld()), bus.now, item)
    {
      hide Valid, TheWorld, Perform;
      match item
      case RunTask(i) => RunOneTask(i);
      case RunReplay(j) => RunOneReplay(j);
    }

    method PerformItems(items: seq<Item>)
      requires Valid() && AllKnown(TheControl(), items)
      modifies this, sources, bus, bus.plans, bus.routes
      ensures Valid() && unchanged(`jobs, `sources) && unchanged(bus`plans, bus`routes, bus`now)
      ensures TheWorld() == PerformAll(old(TheConfig()), old(TheWorld()), bus.now, items)
    {
      hide Valid, TheWorld, Perform, PerformAll;
      var k := 0;
      assert items[0..] == items;
      while k < |items| && !failed
        invariant 0 <= k <= |items|
        invariant Valid() && unchanged(`jobs, `sources) && unchanged(bus`plans, bus`routes, bus`now)
        invariant AllKnown(TheControl(), items[k..])
        invariant PerformAll(old(TheConfig()), old(TheWorld()), bus.now, items)
               == PerformAll(old(TheConfig()), TheWorld(), bus.now, items[k..])
        decreases |items| - k
      {
        PerformAllTurns(TheConfig(), TheWorld(), bus.now, items[k..]);
        assert items[k..][0] == items[k] && items[k..][1..] == items[k + 1..];
        PerformItem(items[k]);
        k := k + 1;
      }
      PerformAllStops(TheConfig(), TheWorld(), bus.now, items[k..]);
    }

    /** `run`: slots until nothing is due or the run has failed. It ends, and the engine is
        then where the model's run is. */
    method Run()
      requires Valid() && !failed && InLoop(TheControl(), bus.duration)
      modifies this, sources, bus, bus.plans, bus.routes
      ensures Valid() && TheConfig() == old(TheConfig())
      ensures TheWorld() == Engine.Run(old(TheConfig()), old(TheWorld()), Work(old(TheControl()), bus.duration))
      ensures SameDeclarations(old(TheControl()), TheControl())
      ensures failed || Completed(TheControl())
    {
      hide *;
      ghost var cfg, w, left := TheConfig(), TheWorld(), Work(TheControl(), bus.duration);
      ghost var all := left;
      while !failed
        invariant Valid() && unchanged(`jobs, `sources) && unchanged(bus`plans, bus`routes)
        invariant !failed ==> InLoop(TheControl(), bus.duration) && Work(TheControl(), bus.duration) <= left
        invariant Engine.Run(cfg, w, all) == Engine.Run(cfg, TheWorld(), left)
        decreases !failed, left
      {
        var slot := SelectSlot();
        RunTurns(cfg, TheWorld(), left);
        if slot == MAX64 {
          StopsWhenCompleted(TheControl(), bus.duration);
          EveryRunKeepsDeclarations(cfg, w, all);
          return;
        }
        RunOneSlot(slot);
        left := left - 1;
      }
      RunTurns(cfg, TheWorld(), left);
      EveryRunKeepsDeclarations(cfg, w, all);
    }

    /** A whole Run from setup: it ends, and if it did not fail, every declared activation
        and no other happened, in order of time, declared priority and registration, and the
        Recording agrees with every subscriber. */
    method Execute()
      requires InSetup()
      modifies this, sources, bus, bus.plans, bus.routes
      ensures Valid() && TheConfig() == old(TheConfig())
      ensures TheWorld() == Engine.Run(old(TheConfig()), old(TheWorld()), Work(old(TheControl()), bus.duration))
      ensures SameDeclarations(old(TheControl()), TheControl())
      ensures failed || Completed(TheControl())
      ensures !failed ==> LogOk(TheControl()) && LogSorted(TheControl()) && Agreement(TheWorld().bus)
      ensures !failed ==> forall f: Fired :: f in activations <==>
        f.task < |old(tasks)| && Declared(old(tasks)[f.task], bus.duration, f.time)
    {
      ghost var cfg, w := TheConfig(), TheWorld();
      ghost var n := Work(w.control, bus.duration);
      SetupIsReady();
      ReadyAgrees(cfg, w);
      assert !failed;
      hide *;
      Run();
      if !failed {
        RunRefinesSchedule(cfg, w, n);
        RunKeepsAgreement(cfg, w, n);
      }
    }

    method RunOneSlot(slot: u64)
      requires Valid() && slot == NextSlot(TheControl())
      modifies this, sources, bus, bus.plans, bus.routes
      ensures Valid() && unchanged(`jobs, `sources) && unchanged(bus`plans, bus`routes)
      ensures TheWorld() == PerformSlot(old(TheConfig()), old(TheWorld()))
    {
      hide Valid, TheWorld, PerformAll, Agenda, NextSlot;
      ghost var w := TheWorld();
      var items := DueItems(slot);
      OpenSlot(slot);
      PerformItems(items);
    }

    method OpenSlot(slot: u64)
      requires Valid()
      modifies this`slots, bus`now
      ensures Valid() && bus.now == slot && unchanged(`jobs, `sources) && unchanged(bus`plans, bus`routes)
      ensures TheWorld() == old(TheWorld()).(control := old(TheControl()).(slots := old(slots) + [slot]))
      ensures forall x :: Known(old(TheControl()), x) ==> Known(TheControl(), x)
    {
      hide MessageBus.Valid, MessageBus.TheBus;
      ghost var before := TheControl();
      bus.SetNow(slot);
      slots := slots + [slot];
      assert TheControl() == before.(slots := before.slots + [slot]);
    }
  }

  // ----- The model's functions, one turn at a time -------------------------------------------------------

  lemma MinStarts(c: Control)
    ensures MinTask(c.tasks, 0) == MAX64 && MinReplay(c.replayers, 0) == MAX64
  {
  }

  lemma MinTaskTurns(tasks: seq<Task>, i: nat)
    requires i < |tasks|
    ensures MinTask(tasks, i + 1)
         == if !tasks[i].done && tasks[i].next < MinTask(tasks, i) then tasks[i].next else MinTask(tasks, i)
  {
  }

  lemma MinReplayTurns(replayers: seq<Replayer>, j: nat)
    requires j < |replayers|
    ensures MinReplay(replayers, j + 1)
         == if NextPublish(replayers[j]) < MinReplay(replayers, j) then NextPublish(replayers[j])
            else MinReplay(replayers, j)
  {
  }

  lemma DueStarts(c: Control, slot: u64)
    ensures DueTasks(c, slot, 0) == [] && Replays(c, false, 0) == [] && Replays(c, true, 0) == []
  {
  }

  lemma DueTurns(c: Control, slot: u64, i: nat)
    requires i < |c.tasks|
    ensures DueTasks(c, slot, i + 1)
         == if !c.tasks[i].done && c.tasks[i].next == slot then DueTasks(c, slot, i) + [RunTask(i)]
            else DueTasks(c, slot, i)
  {
    assert DueTasks(c, slot, i) + [] == DueTasks(c, slot, i);
  }

  lemma ReplayTurns(c: Control, j: nat)
    requires j < |c.replayers|
    ensures var placed := c.replayers[j].priority.Some?;
      && Replays(c, placed, j + 1) == Replays(c, placed, j) + [RunReplay(j)]
      && Replays(c, !placed, j + 1) == Replays(c, !placed, j)
  {
    assert forall p :: Replays(c, p, j) + [] == Replays(c, p, j);
  }

  lemma PerformTaskIs(cfg: Config, w: World, now: u64, i: nat, after: Option<Memory>, bus: Bus)
    requires Wired(cfg, w) && i < |w.control.tasks|
    requires var job := cfg.jobs[i];
      var out := Activate(w.bus, cfg.duration, now, job.who, job.program, MemoryOf(w.memories, job.who.owner), [],
                          cfg.patience);
      bus == out.bus && after == if out.Finished? then Some(out.memory) else None
    ensures Perform(cfg, w, now, RunTask(i))
         == if after.None? then w.(bus := bus, failed := true)
            else World(w.control.(tasks := w.control.tasks[i := Advance(w.control.tasks[i], cfg.duration)],
                                  activations := w.control.activations + [Fired(now, i)]),
                       bus, w.memories[cfg.jobs[i].who.owner := after.value], w.failed)
  {
    hide Activate, Advance;
  }

  lemma PerformReplayIs(cfg: Config, w: World, now: u64, j: nat, bus: Bus, replayer: Replayer, ok: bool)
    requires Wired(cfg, w) && j < |w.control.replayers|
    requires Engine.PublishDue(w.bus, w.control.replayers[j], now, cfg.duration) == ReplayResult(bus, replayer, ok)
    ensures Perform(cfg, w, now, RunReplay(j))
         == World(w.control.(replayers := w.control.replayers[j := replayer]), bus, w.memories, !ok)
  {
  }

  lemma PerformAllTurns(cfg: Config, w: World, now: u64, items: seq<Item>)
    requires Wired(cfg, w) && AllKnown(w.control, items) && items != [] && !w.failed
    ensures Known(w.control, items[0])
    ensures var next := Perform(cfg, w, now, items[0]);
      AllKnown(next.control, items[1..]) && PerformAll(cfg, w, now, items) == PerformAll(cfg, next, now, items[1..])
  {
    hide Perform;
    assert items[0] in items;
    var next := Perform(cfg, w, now, items[0]);
    assert forall x :: x in items[1..] ==> x in items && (Known(w.control, x) ==> Known(next.control, x));
  }

  lemma PerformAllStops(cfg: Config, w: World, now: u64, items: seq<Item>)
    requires Wired(cfg, w) && AllKnown(w.control, items) && (items == [] || w.failed)
    ensures PerformAll(cfg, w, now, items) == w
  {
  }

  /** One turn of the slot loop: it stops here, or the work left shrinks. */
  lemma RunTurns(cfg: Config, w: World, left: nat)
    requires Wired(cfg, w)
    requires !w.failed ==> InLoop(w.control, cfg.duration) && Work(w.control, cfg.duration) <= left
    ensures w.failed || NextSlot(w.control) == MAX64 ==> Engine.Run(cfg, w, left) == w
    ensures !w.failed && NextSlot(w.control) != MAX64 ==>
      var next := PerformSlot(cfg, w);
      && left > 0
      && Engine.Run(cfg, w, left) == Engine.Run(cfg, next, left - 1)
      && (!next.failed ==> InLoop(next.control, cfg.duration) && Work(next.control, cfg.duration) <= left - 1)
  {
    hide PerformSlot, InLoop, Work, NextSlot;
    if !w.failed && NextSlot(w.control) != MAX64 {
      SlotShrinksWork(w.control, cfg.duration);
      var next := PerformSlot(cfg, w);
      if !next.failed { PerformSlotFollowsControl(cfg, w); }
    }
  }

  // ----- A whole Run ---------------------------------------------------------------------------------------

  /** The plans as a Run starts them: counting from zero. */
  ghost function FreshPlans(compiled: seq<InterceptorPlan>): (s: seq<seq<Step>>)
    reads compiled
    ensures |s| == |compiled| && forall c :: 0 <= c < |s| ==> s[c] == Reset(compiled[c].steps)
  {
    seq(|compiled|, c requires 0 <= c < |compiled| reads compiled => Reset(compiled[c].steps))
  }

  ghost predicate Planned(plans: seq<InterceptorPlan>, steps: seq<seq<Step>>)
    reads plans
  {
    |plans| == |steps| && forall c :: 0 <= c < |plans| ==> plans[c].steps == steps[c]
  }

  twostate lemma AllFresh(new objects: seq<object>)
    requires forall x :: x in objects ==> fresh(x)
    ensures fresh(objects)
  {
    forall i | 0 <= i < |objects| ensures fresh(objects[i]) {
      assert objects[i] in objects;
    }
  }

  method NewKernel(duration: u64, specs: seq<ChannelSpec>, compiled: seq<InterceptorPlan>, patience: nat)
    returns (k: Kernel)
    requires |specs| == |compiled| && forall c :: 0 <= c < |compiled| ==> compiled[c].duration == duration
    ensures fresh(k) && fresh(k.bus) && (forall x :: x in k.bus.plans ==> fresh(x))
    ensures (forall x :: x in k.bus.routes ==> fresh(x)) && (forall x :: x in k.sources ==> fresh(x))
    ensures k.InSetup() && k.bus.Specs() == specs && k.TheRoster() == EMPTY_ROSTER && k.patience == patience
    ensures k.bus.duration == duration && Planned(k.bus.plans, FreshPlans(compiled))
  {
    var bus := new MessageBus(duration, specs, compiled);
    assert bus.Specs() == specs;
    k := new Kernel(bus, patience);
  }

  /** A participant's routes, up to the first on an unknown channel. */
  method AddRoutes(k: Kernel, specs: seq<ChannelSpec>, routes: seq<RouteSpec>, owner: nat) returns (ok: bool)
    requires k.InSetup() && k.bus.Specs() == specs
    modifies k.bus`routes, k.bus`channels
    ensures ok <==> RoutesKnown(routes, |specs|)
    ensures var r := old(k.TheRoster());
      ok ==> k.TheRoster() == r.(routes := r.routes + EmptyRoutes(routes, owner, specs))
    ensures k.InSetup() && k.bus.Specs() == specs && k.bus.plans == old(k.bus.plans)
    ensures forall x :: x in k.bus.routes ==> x in old(k.bus.routes) || fresh(x)
  {
    hide Kernel.InSetup;
    ghost var r := k.TheRoster();
    assert r == r.(routes := r.routes + EmptyRoutes(routes[..0], owner, specs));
    for i := 0 to |routes|
      invariant k.InSetup() && k.bus.Specs() == specs && k.bus.plans == old(k.bus.plans)
      invariant forall x :: x in k.bus.routes ==> x in old(k.bus.routes) || fresh(x)
      invariant RoutesKnown(routes[..i], |specs|)
                && k.TheRoster() == r.(routes := r.routes + EmptyRoutes(routes[..i], owner, specs))
    {
      ok := k.Subscribe(owner, routes[i]);
      if !ok { return; }
      OneMoreRoute(r.routes, routes, owner, specs, i);
    }
    assert routes[..|routes|] == routes;
    ok := true;
  }

  lemma OneMoreRoute(before: seq<Route>, routes: seq<RouteSpec>, owner: nat, specs: seq<ChannelSpec>, i: nat)
    requires i < |routes| && RoutesKnown(routes[..i], |specs|) && routes[i].channel < |specs|
    ensures RoutesKnown(routes[..i + 1], |specs|)
    ensures before + EmptyRoutes(routes[..i], owner, specs) + [EmptyRoute(routes[i], owner, specs)]
            == before + EmptyRoutes(routes[..i + 1], owner, specs)
  {
    assert routes[..i + 1] == routes[..i] + [routes[i]];
  }

  /** A participant's tasks, up to the first with a period of zero. */
  method AddTasks(k: Kernel, tasks: seq<TaskSpec>, who: Caller) returns (ok: bool)
    requires k.InSetup()
    modifies k
    ensures ok <==> Periodic(tasks)
    ensures ok ==> k.TheRoster() == EnrolTasks(old(k.TheRoster()), tasks, who, k.bus.duration)
    ensures k.InSetup() && k.sources == old(k.sources)
  {
    hide Kernel.InSetup, EnrolTask;
    ghost var r := k.TheRoster();
    assert tasks[..0] == [];
    for i := 0 to |tasks|
      invariant k.InSetup() && k.sources == old(k.sources)
      invariant Periodic(tasks[..i]) && k.TheRoster() == EnrolTasks(r, tasks[..i], who, k.bus.duration)
    {
      ok := k.AddTask(tasks[i], who);
      if !ok { return; }
      assert tasks[..i + 1][..i] == tasks[..i];
    }
    assert tasks[..|tasks|] == tasks;
    ok := true;
  }

  /** One participant of the manifest. */
  method AddMember(k: Kernel, specs: seq<ChannelSpec>, m: Member, owner: nat) returns (ok: bool)
    requires k.InSetup() && k.bus.Specs() == specs
    modifies k, k.bus`routes, k.bus`channels
    ensures ok <==> Sound(m, |specs|)
    ensures ok ==> k.TheRoster() == Enrol(old(k.TheRoster()), m, owner, k.bus.duration, specs)
    ensures k.InSetup() && k.bus.Specs() == specs && k.bus.plans == old(k.bus.plans)
    ensures forall x :: x in k.bus.routes ==> x in old(k.bus.routes) || fresh(x)
    ensures forall x :: x in k.sources ==> x in old(k.sources) || fresh(x)
  {
    hide Kernel.InSetup, EnrolTasks, EnrolReplay, RoutesKnown, Periodic;
    match m.role
    case Actor(_, routes, tasks) =>
      ok := AddRoutes(k, specs, routes, owner);
      if !ok { return; }
      ok := AddTasks(k, tasks, CallerOf(m, owner));
    case Replay(_, _, _) =>
      k.AddReplayer(owner, m.role);
      ok := true;
  }

  lemma SoundSoFar(members: seq<Member>, channels: nat, i: nat)
    requires i < |members|
    ensures AllSound(members[..i + 1], channels) <==> AllSound(members[..i], channels) && Sound(members[i], channels)
    ensures AllSound(members, channels) ==> Sound(members[i], channels)
  {
    hide Sound;
    var front, before := members[..i + 1], members[..i];
    assert front == before + [members[i]];
    if AllSound(front, channels) {
      assert Sound(front[i], channels);
      forall j | 0 <= j < i ensures Sound(before[j], channels) { assert Sound(front[j], channels); }
    }
  }

  lemma RollNext(members: seq<Member>, duration: u64, specs: seq<ChannelSpec>, i: nat)
    requires i < |members| && AllSound(members[..i], |specs|) && AllSound(members[..i + 1], |specs|)
    requires Sound(members[i], |specs|)
    ensures Roll(members[..i + 1], duration, specs)
            == Enrol(Roll(members[..i], duration, specs), members[i], i, duration, specs)
  {
    assert members[..i + 1][..i] == members[..i];
  }

  /** The participants in turn, up to the first that is refused. */
  method EnrolAll(k: Kernel, specs: seq<ChannelSpec>, members: seq<Member>) returns (ok: bool)
    requires k.InSetup() && k.bus.Specs() == specs && k.TheRoster() == EMPTY_ROSTER
    modifies k, k.bus`routes, k.bus`channels
    ensures ok <==> AllSound(members, |specs|)
    ensures ok ==> k.TheRoster() == Roll(members, k.bus.duration, specs)
    ensures k.InSetup() && k.bus.Specs() == specs && k.bus.plans == old(k.bus.plans)
    ensures forall x :: x in k.bus.routes ==> x in old(k.bus.routes) || fresh(x)
    ensures forall x :: x in k.sources ==> x in old(k.sources) || fresh(x)
  {
    hide *;
    NoneEnrolled(k.bus.duration, specs);
    assert members[..0] == [];
    for i := 0 to |members|
      invariant k.InSetup() && k.bus.Specs() == specs && k.bus.plans == old(k.bus.plans)
      invariant forall x :: x in k.bus.routes ==> x in old(k.bus.routes) || fresh(x)
      invariant forall x :: x in k.sources ==> x in old(k.sources) || fresh(x)
      invariant AllSound(members[..i], |specs|) && k.TheRoster() == Roll(members[..i], k.bus.duration, specs)
    {
      SoundSoFar(members, |specs|, i);
      ok := AddMember(k, specs, members[i], i);
      if !ok { return; }
      RollNext(members, k.bus.duration, specs, i);
    }
    assert members[..|members|] == members;
    ok := true;
  }

  /** `setup`: the one-publisher check, then the participants in turn; it stops at the first that
      is refused. What it leaves is the engine the manifest declares. */
  method SetUp(duration: u64, specs: seq<ChannelSpec>, compiled: seq<InterceptorPlan>, members: seq<Member>,
               patience: nat)
    returns (k: Kernel, ok: bool)
    requires |specs| == |compiled| && forall c :: 0 <= c < |compiled| ==> compiled[c].duration == duration
    ensures ok <==> Accepted(members, |specs|)
    ensures k.InSetup() && k.bus.duration == duration
    ensures ok ==> k.TheConfig() == FirstConfig(members, duration, specs, patience)
    ensures ok ==> k.TheWorld() == FirstWorld(members, duration, specs, FreshPlans(compiled))
    ensures fresh(k) && fresh(k.bus) && (forall x :: x in k.bus.plans ==> fresh(x))
    ensures (forall x :: x in k.bus.routes ==> fresh(x)) && (forall x :: x in k.sources ==> fresh(x))
  {
    hide Kernel.InSetup, AllSound, Roll, Kernel.TheConfig, Kernel.TheWorld;
    k := NewKernel(duration, specs, compiled, patience);
    var repeated := Manifest.ValidateOnePublisher(Publishers(members));
    if repeated.Some? { return k, false; }
    ok := EnrolAll(k, specs, members);
    if ok { k.SetupWorld(members, specs, FreshPlans(compiled)); }
  }

  lemma NoneEnrolled(duration: u64, specs: seq<ChannelSpec>)
    ensures AllSound([], |specs|) && Roll([], duration, specs) == EMPTY_ROSTER
  {
  }

  /** `setup`, then `run`. A manifest in which every channel has one publisher, every period is
      positive and every route names a known channel gives a Run that ends; unless it failed it
      kept the manifest: the declared activations in declared order, Recording and subscribers in
      agreement, and every replayed Recording again. Any other manifest is refused before
      anything runs. */
  method SetUpAndRun(duration: u64, specs: seq<ChannelSpec>, compiled: seq<InterceptorPlan>, members: seq<Member>,
                     patience: nat)
    returns (k: Kernel, ran: bool)
    requires |specs| == |compiled| && forall c :: 0 <= c < |compiled| ==> compiled[c].duration == duration
    ensures ran <==> Accepted(members, |specs|)
    ensures k.Valid()
    ensures ran ==>
      var cfg := FirstConfig(members, duration, specs, patience);
      var w := FirstWorld(members, duration, specs, FreshPlans(compiled));
      k.TheConfig() == cfg && Wired(cfg, w) && k.TheWorld() == Engine.Run(cfg, w, Work(w.control, duration))
    ensures ran ==> k.failed || Completed(k.TheControl())
    ensures ran && !k.failed ==> KeepsManifest(members, duration, FreshPlans(compiled), k.activations, k.TheWorld().bus)
  {
    hide *;
    k, ran := SetUp(duration, specs, compiled, members, patience);
    if ran {
      AcceptedRun(members, duration, specs, FreshPlans(compiled), patience);
      AllFresh(k.sources);
      AllFresh(k.bus.routes);
      AllFresh(k.bus.plans);
      k.Execute();
    }
  }
}
