// The whole engine: the slot loop running participant callbacks and replayers on
// the data plane, and what holds of every run.

module Engine {
  import opened VirtualTime
  import opened DataPlane
  import opened Activation
  import opened Schedule

  datatype Job = Job(who: Caller, program: Program)

  // One job per task. `patience` bounds the calls one callback may make.
  datatype Config = Config(duration: u64, jobs: seq<Job>, patience: nat)

  datatype World = World(control: Control, bus: Bus, memories: map<nat, Memory>, failed: bool)

  datatype ReplayResult = ReplayResult(bus: Bus, replayer: Replayer, ok: bool)

  /** `publish_due`: publish the run of messages stamped `now`, one at a time. */
  function PublishDue(b: Bus, r: Replayer, now: u64, duration: u64): (x: ReplayResult)
    requires r.cursor <= |r.stored|
    ensures x.replayer == r.(cursor := x.replayer.cursor) && r.cursor <= x.replayer.cursor <= |r.stored|
    decreases |r.stored| - r.cursor
  {
    if r.cursor == |r.stored| || r.stored[r.cursor].time != now then ReplayResult(b, r, true)
    else
      var (b', ok) := Publish(b, duration, now, r.stored[r.cursor].channel, r.stored[r.cursor].bytes);
      if !ok then ReplayResult(b', r, false)
      else PublishDue(b', Skip(r.(cursor := r.cursor + 1), duration), now, duration)
  }

  ghost predicate Wired(cfg: Config, w: World) {
    |cfg.jobs| == |w.control.tasks| && Cursors(w.control)
  }

  /** One entry of a slot's agenda. A failure leaves the schedule where it was. */
  function Perform(cfg: Config, w: World, now: u64, item: Item): (r: World)
    requires Wired(cfg, w) && Known(w.control, item)
    ensures Wired(cfg, r)
    ensures |r.control.tasks| == |w.control.tasks| && |r.control.replayers| == |w.control.replayers|
  {
    match item
    case RunTask(i) =>
      var job := cfg.jobs[i];
      var out := Activate(w.bus, cfg.duration, now, job.who, job.program, MemoryOf(w.memories, job.who.owner), [],
                          cfg.patience);
      if out.Failed? then w.(bus := out.bus, failed := true)
      else w.(control := RunItem(w.control, cfg.duration, now, item), bus := out.bus,
              memories := w.memories[job.who.owner := out.memory])
    case RunReplay(j) =>
      var out := PublishDue(w.bus, w.control.replayers[j], now, cfg.duration);
      w.(control := w.control.(replayers := w.control.replayers[j := out.replayer]),
         bus := out.bus, failed := !out.ok)
  }

  function PerformAll(cfg: Config, w: World, now: u64, items: seq<Item>): (r: World)
    requires Wired(cfg, w) && AllKnown(w.control, items)
    ensures Wired(cfg, r)
    ensures |r.control.tasks| == |w.control.tasks| && |r.control.replayers| == |w.control.replayers|
    decreases |items|
  {
    if items == [] || w.failed then w
    else
      var w' := Perform(cfg, w, now, items[0]);
      assert AllKnown(w'.control, items[1..]) by {
        assert forall x :: x in items[1..] ==> x in items && (Known(w.control, x) ==> Known(w'.control, x));
      }
      PerformAll(cfg, w', now, items[1..])
  }

  /** One iteration of the slot loop. */
  function PerformSlot(cfg: Config, w: World): (r: World)
    requires Wired(cfg, w)
    ensures Wired(cfg, r)
  {
    var slot := NextSlot(w.control);
    PerformAll(cfg, w.(control := w.control.(slots := w.control.slots + [slot])), slot, Agenda(w.control, slot))
  }

  /** `Engine::run`, for at most `n` slots. */
  function Run(cfg: Config, w: World, n: nat): World
    requires Wired(cfg, w)
    decreases n
  {
    if n == 0 || w.failed || NextSlot(w.control) == MAX64 then w
    else Run(cfg, PerformSlot(cfg, w), n - 1)
  }
}
