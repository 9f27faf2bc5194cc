// A run without replayers is its activation log: the callbacks of the log, one after the other.

module RunLog {
  import opened VirtualTime
  import opened Activation
  import opened Schedule
  import opened ScheduleProofs
  import opened Engine
  import opened EngineProofs
  import opened Sight
  import opened SlotOrder
  import opened EngineOrder

  /** One logged activation. */
  function Played(cfg: Config, st: Stage, f: Fired): Stage
    requires f.task < |cfg.jobs|
  {
    var job := cfg.jobs[f.task];
    RunAct(st, Act(job.who, job.program, cfg.patience, true), Slot(cfg.duration, f.time, {}, {}))
  }

  ghost predicate Playable(cfg: Config, log: seq<Fired>) {
    forall a :: 0 <= a < |log| ==> log[a].task < |cfg.jobs|
  }

  /** The callbacks of a log, in order. */
  function Story(cfg: Config, st: Stage, log: seq<Fired>): Stage
    requires Playable(cfg, log)
    decreases |log|
  {
    if log == [] then st else Story(cfg, Played(cfg, st, log[0]), log[1..])
  }

  lemma {:induction false} StoryContinues(cfg: Config, st: Stage, a: seq<Fired>, b: seq<Fired>)
    requires Playable(cfg, a) && Playable(cfg, b) && Playable(cfg, a + b)
    ensures Story(cfg, st, a + b) == Story(cfg, Story(cfg, st, a), b)
    decreases |a|
  {
    if a == [] {
      assert a + b == b;
    } else {
      assert (a + b)[1..] == a[1..] + b;
      StoryContinues(cfg, Played(cfg, st, a[0]), a[1..], b);
    }
  }

  ghost predicate TasksOnly(c: Control) {
    c.replayers == []
  }

  lemma TaskIsPlayed(cfg: Config, w: World, now: u64, i: nat)
    requires Wired(cfg, w) && i < |w.control.tasks| && !w.failed
    ensures StageOf(Perform(cfg, w, now, RunTask(i))) == Played(cfg, StageOf(w), Fired(now, i))
    ensures Perform(cfg, w, now, RunTask(i)).control.replayers == w.control.replayers
  {
    hide Activate;
  }

  lemma {:induction false} ItemsAreStory(cfg: Config, w: World, now: u64, items: seq<Item>)
    requires Wired(cfg, w) && TasksOnly(w.control) && AllKnown(w.control, items)
    requires !PerformAll(cfg, w, now, items).failed
    ensures TasksOnly(PerformAll(cfg, w, now, items).control) && Playable(cfg, FiredBy(now, items))
    ensures StageOf(PerformAll(cfg, w, now, items)) == Story(cfg, StageOf(w), FiredBy(now, items))
    decreases |items|
  {
    hide Perform, Played;
    if items == [] || w.failed {
    } else {
      var w' := Perform(cfg, w, now, items[0]);
      assert items[0] in items && Known(w.control, items[0]) && items[0].RunTask?;
      assert AllKnown(w'.control, items[1..]) by {
        assert forall x :: x in items[1..] ==> x in items && (Known(w.control, x) ==> Known(w'.control, x));
      }
      TaskIsPlayed(cfg, w, now, items[0].task);
      ItemsAreStory(cfg, w', now, items[1..]);
      var rest := FiredBy(now, items[1..]);
      assert FiredBy(now, items) == [Fired(now, items[0].task)] + rest
             && ([Fired(now, items[0].task)] + rest)[1..] == rest;
    }
  }

  lemma {:induction false} ItemsAreLogged(c: Control, duration: u64, now: u64, items: seq<Item>)
    requires AllKnown(c, items) && Cursors(c)
    ensures RunItems(c, duration, now, items).activations == c.activations + FiredBy(now, items)
    decreases |items|
  {
    if items == [] {
      assert c.activations + [] == c.activations;
    } else {
      var c', rest := RunItem(c, duration, now, items[0]), items[1..];
      assert items[0] in items;
      assert AllKnown(c', rest) by {
        assert forall x :: x in rest ==> x in items && (Known(c, x) ==> Known(c', x));
      }
      hide Advance, Drain;
      ItemsAreLogged(c', duration, now, rest);
      if items[0].RunTask? {
        assert c.activations + [Fired(now, items[0].task)] + FiredBy(now, rest)
            == c.activations + ([Fired(now, items[0].task)] + FiredBy(now, rest));
      } else {
        assert [] + FiredBy(now, rest) == FiredBy(now, rest);
      }
    }
  }

  /** From `w` to `r` the log grew, and what happened is what the new entries did. */
  ghost predicate Tells(cfg: Config, w: World, r: World) {
    && w.control.activations <= r.control.activations && TasksOnly(r.control)
    && Playable(cfg, r.control.activations[|w.control.activations|..])
    && StageOf(r) == Story(cfg, StageOf(w), r.control.activations[|w.control.activations|..])
  }

  lemma TellsNothing(cfg: Config, w: World)
    requires TasksOnly(w.control)
    ensures Tells(cfg, w, w)
  {
    assert w.control.activations[|w.control.activations|..] == [];
  }

  lemma TellsOn(cfg: Config, w: World, v: World, r: World)
    requires Tells(cfg, w, v) && Tells(cfg, v, r)
    ensures Tells(cfg, w, r)
  {
    hide Story;
    var (l, m, n) := (w.control.activations, v.control.activations, r.control.activations);
    assert n[|l|..] == m[|l|..] + n[|m|..];
    StoryContinues(cfg, StageOf(w), m[|l|..], n[|m|..]);
  }

  lemma SlotTells(cfg: Config, w: World)
    requires Wired(cfg, w) && TasksOnly(w.control) && !PerformSlot(cfg, w).failed
    ensures Tells(cfg, w, PerformSlot(cfg, w))
  {
    hide PerformAll, RunItems, Agenda, NextSlot, Story;
    var slot := NextSlot(w.control);
    var start := w.(control := w.control.(slots := w.control.slots + [slot]));
    var items := Agenda(w.control, slot);
    assert AllKnown(start.control, items) by {
      assert forall x :: Known(w.control, x) ==> Known(start.control, x);
    }
    ItemsAreStory(cfg, start, slot, items);
    PerformAllFollowsControl(cfg, start, slot, items);
    ItemsAreLogged(start.control, cfg.duration, slot, items);
    var log := w.control.activations;
    assert (log + FiredBy(slot, items))[|log|..] == FiredBy(slot, items);
  }

  /** An unfailed run without replayers did what its log says, callback by callback. */
  lemma {:induction false} RunTells(cfg: Config, w: World, n: nat)
    requires Wired(cfg, w) && TasksOnly(w.control) && !Run(cfg, w, n).failed
    ensures Tells(cfg, w, Run(cfg, w, n))
    decreases n
  {
    hide PerformSlot, NextSlot, Tells, RunSlots;
    if n == 0 || w.failed || NextSlot(w.control) == MAX64 {
      TellsNothing(cfg, w);
    } else {
      var w' := PerformSlot(cfg, w);
      RunFollowsControl(cfg, w', n - 1);
      SlotTells(cfg, w);
      TellsTasks(cfg, w, w');
      RunTells(cfg, w', n - 1);
      TellsOn(cfg, w, w', Run(cfg, w', n - 1));
    }
  }

  lemma TellsTasks(cfg: Config, w: World, r: World)
    requires Tells(cfg, w, r)
    ensures TasksOnly(r.control)
  {
    hide Story;
  }
}
