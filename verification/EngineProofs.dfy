// What holds of every run of the engine, whatever the participants do.

module EngineProofs {
  import opened VirtualTime
  import opened Interceptor
  import opened DataPlane
  import opened Activation
  import opened Schedule
  import opened ScheduleProofs
  import opened SlotProofs
  import opened Engine

  // ----- Participants cannot bend the schedule ----------------------------------

  lemma {:induction false} PublishDueDrains(b: Bus, r: Replayer, now: u64, duration: u64)
    requires r.cursor <= |r.stored| && PublishDue(b, r, now, duration).ok
    ensures PublishDue(b, r, now, duration).replayer == Drain(r, now, duration)
    decreases |r.stored| - r.cursor
  {
    if r.cursor == |r.stored| || r.stored[r.cursor].time != now {
    } else {
      var b' := Publish(b, duration, now, r.stored[r.cursor].channel, r.stored[r.cursor].bytes).0;
      PublishDueDrains(b', Skip(r.(cursor := r.cursor + 1), duration), now, duration);
    }
  }

  lemma PerformFollowsControl(cfg: Config, w: World, now: u64, item: Item)
    requires Wired(cfg, w) && Known(w.control, item) && !Perform(cfg, w, now, item).failed
    ensures Perform(cfg, w, now, item).control == RunItem(w.control, cfg.duration, now, item)
  {
    match item
    case RunTask(i) =>
    case RunReplay(j) => PublishDueDrains(w.bus, w.control.replayers[j], now, cfg.duration);
  }

  lemma {:induction false} PerformAllFollowsControl(cfg: Config, w: World, now: u64, items: seq<Item>)
    requires Wired(cfg, w) && AllKnown(w.control, items) && !PerformAll(cfg, w, now, items).failed
    ensures !w.failed
    ensures PerformAll(cfg, w, now, items).control == RunItems(w.control, cfg.duration, now, items)
    decreases |items|
  {
    hide Perform, RunItem;
    if items == [] || w.failed {
    } else {
      var w' := Perform(cfg, w, now, items[0]);
      assert AllKnown(w'.control, items[1..]) by {
        assert forall x :: x in items[1..] ==> x in items && (Known(w.control, x) ==> Known(w'.control, x));
      }
      PerformAllFollowsControl(cfg, w', now, items[1..]);
      PerformFollowsControl(cfg, w, now, items[0]);
    }
  }

  lemma PerformSlotFollowsControl(cfg: Config, w: World)
    requires Wired(cfg, w) && !PerformSlot(cfg, w).failed
    ensures !w.failed
    ensures PerformSlot(cfg, w).control == RunSlot(w.control, cfg.duration)
  {
    hide PerformAll, RunItems, Agenda, NextSlot;
    var slot := NextSlot(w.control);
    var start := w.(control := w.control.(slots := w.control.slots + [slot]));
    assert AllKnown(start.control, Agenda(w.control, slot)) by {
      assert forall x :: Known(w.control, x) ==> Known(start.control, x);
    }
    PerformAllFollowsControl(cfg, start, slot, Agenda(w.control, slot));
  }

  /** As long as a run has not failed, its schedule is the one the Manifest
      declares: no participant program can change it. */
  lemma {:induction false} RunFollowsControl(cfg: Config, w: World, n: nat)
    requires Wired(cfg, w) && !Run(cfg, w, n).failed
    ensures !w.failed
    ensures Run(cfg, w, n).control == RunSlots(w.control, cfg.duration, n)
    decreases n
  {
    hide PerformSlot, RunSlot, NextSlot;
    if n == 0 || w.failed || NextSlot(w.control) == MAX64 {
    } else {
      RunFollowsControl(cfg, PerformSlot(cfg, w), n - 1);
      PerformSlotFollowsControl(cfg, w);
    }
  }

  lemma DeclaresItself(c: Control)
    ensures SameDeclarations(c, c)
  {
  }

  lemma PerformKeepsDeclarations(cfg: Config, w: World, now: u64, item: Item)
    requires Wired(cfg, w) && Known(w.control, item)
    ensures SameDeclarations(w.control, Perform(cfg, w, now, item).control)
  {
    hide Activate, PublishDue;
  }

  lemma {:induction false} PerformAllKeepsDeclarations(cfg: Config, w: World, now: u64, items: seq<Item>)
    requires Wired(cfg, w) && AllKnown(w.control, items)
    ensures SameDeclarations(w.control, PerformAll(cfg, w, now, items).control)
    decreases |items|
  {
    hide Perform, SameDeclarations;
    if items == [] || w.failed {
      DeclaresItself(w.control);
    } else {
      var w' := Perform(cfg, w, now, items[0]);
      assert AllKnown(w'.control, items[1..]) by {
        assert forall x :: x in items[1..] ==> x in items && (Known(w.control, x) ==> Known(w'.control, x));
      }
      PerformKeepsDeclarations(cfg, w, now, items[0]);
      PerformAllKeepsDeclarations(cfg, w', now, items[1..]);
      SameDeclarationsTransitive(w.control, w'.control, PerformAll(cfg, w', now, items[1..]).control);
    }
  }

  lemma PerformSlotKeepsDeclarations(cfg: Config, w: World)
    requires Wired(cfg, w)
    ensures SameDeclarations(w.control, PerformSlot(cfg, w).control)
  {
    hide PerformAll, Agenda, NextSlot;
    var slot := NextSlot(w.control);
    var start := w.(control := w.control.(slots := w.control.slots + [slot]));
    assert AllKnown(start.control, Agenda(w.control, slot)) by {
      assert forall x :: Known(w.control, x) ==> Known(start.control, x);
    }
    PerformAllKeepsDeclarations(cfg, start, slot, Agenda(w.control, slot));
    assert SameDeclarations(w.control, start.control);
    SameDeclarationsTransitive(w.control, start.control, PerformSlot(cfg, w).control);
  }

  /** Failed or not, a run leaves every task's offset, period, priority and index and every
      replayer's channels, Recording and place as they were declared. */
  lemma {:induction false} EveryRunKeepsDeclarations(cfg: Config, w: World, n: nat)
    requires Wired(cfg, w)
    ensures SameDeclarations(w.control, Run(cfg, w, n).control)
    decreases n
  {
    hide PerformSlot, NextSlot, SameDeclarations;
    if n == 0 || w.failed || NextSlot(w.control) == MAX64 {
      DeclaresItself(w.control);
    } else {
      PerformSlotKeepsDeclarations(cfg, w);
      EveryRunKeepsDeclarations(cfg, PerformSlot(cfg, w), n - 1);
      SameDeclarationsTransitive(w.control, PerformSlot(cfg, w).control, Run(cfg, PerformSlot(cfg, w), n - 1).control);
    }
  }

  // ----- Recording and subscribers agree in every run ------------------------------

  lemma {:induction false} PublishDueKeepsAgreement(b: Bus, r: Replayer, now: u64, duration: u64)
    requires r.cursor <= |r.stored| && Agreement(b) && PublishDue(b, r, now, duration).ok
    ensures Agreement(PublishDue(b, r, now, duration).bus)
    decreases |r.stored| - r.cursor
  {
    hide Publish, Agreement;
    if r.cursor == |r.stored| || r.stored[r.cursor].time != now {
    } else {
      var m := r.stored[r.cursor];
      PublishKeepsAgreement(b, duration, now, m.channel, m.bytes);
      PublishDueKeepsAgreement(Publish(b, duration, now, m.channel, m.bytes).0,
                               Skip(r.(cursor := r.cursor + 1), duration), now, duration);
    }
  }

  lemma PerformKeepsAgreement(cfg: Config, w: World, now: u64, item: Item)
    requires Wired(cfg, w) && Known(w.control, item) && Agreement(w.bus) && !Perform(cfg, w, now, item).failed
    ensures Agreement(Perform(cfg, w, now, item).bus)
  {
    hide Agreement;
    match item
    case RunTask(i) =>
      var job := cfg.jobs[i];
      ActivateKeepsAgreement(w.bus, cfg.duration, now, job.who, job.program,
                             MemoryOf(w.memories, job.who.owner), [], cfg.patience);
    case RunReplay(j) => PublishDueKeepsAgreement(w.bus, w.control.replayers[j], now, cfg.duration);
  }

  lemma {:induction false} PerformAllKeepsAgreement(cfg: Config, w: World, now: u64, items: seq<Item>)
    requires Wired(cfg, w) && AllKnown(w.control, items) && Agreement(w.bus) && !PerformAll(cfg, w, now, items).failed
    ensures Agreement(PerformAll(cfg, w, now, items).bus)
    decreases |items|
  {
    hide Perform, Agreement;
    if items == [] || w.failed {
    } else {
      var w' := Perform(cfg, w, now, items[0]);
      assert AllKnown(w'.control, items[1..]) by {
        assert forall x :: x in items[1..] ==> x in items && (Known(w.control, x) ==> Known(w'.control, x));
      }
      if !w'.failed { PerformKeepsAgreement(cfg, w, now, items[0]); }
      PerformAllFollowsControl(cfg, w', now, items[1..]);
      PerformAllKeepsAgreement(cfg, w', now, items[1..]);
    }
  }

  /** In every unfailed state between slots, for any participants, each route holds
      its channel's recorded stream up to what drop_newest refused, and channels and
      publishes are numbered in order. */
  lemma {:induction false} RunKeepsAgreement(cfg: Config, w: World, n: nat)
    requires Wired(cfg, w) && Agreement(w.bus) && !Run(cfg, w, n).failed
    ensures Agreement(Run(cfg, w, n).bus)
    decreases n
  {
    hide PerformSlot, NextSlot, Agreement, RunSlots;
    if n == 0 || w.failed || NextSlot(w.control) == MAX64 {
    } else {
      RunFollowsControl(cfg, PerformSlot(cfg, w), n - 1);
      PerformSlotKeepsAgreement(cfg, w);
      RunKeepsAgreement(cfg, PerformSlot(cfg, w), n - 1);
    }
  }

  lemma PerformSlotKeepsAgreement(cfg: Config, w: World)
    requires Wired(cfg, w) && Agreement(w.bus) && !PerformSlot(cfg, w).failed
    ensures Agreement(PerformSlot(cfg, w).bus)
  {
    hide PerformAll, Agenda, NextSlot, Agreement;
    var slot := NextSlot(w.control);
    var start := w.(control := w.control.(slots := w.control.slots + [slot]));
    assert AllKnown(start.control, Agenda(w.control, slot)) by {
      assert forall x :: Known(w.control, x) ==> Known(start.control, x);
    }
    PerformAllKeepsAgreement(cfg, start, slot, Agenda(w.control, slot));
  }

  /** Nothing published, recorded, pending or taken. */
  ghost predicate Quiet(b: Bus) {
    && b.recording == [] && b.published == 0
    && (forall c :: 0 <= c < |b.channels| ==> b.channels[c].nextSeq == 0)
    && (forall k :: 0 <= k < |b.routes| ==>
          b.routes[k].pending == [] && b.routes[k].taken == [] && b.routes[k].dropped == 0)
  }

  /** An engine after `setup`. */
  ghost predicate Ready(cfg: Config, w: World) {
    !w.failed && |cfg.jobs| == |w.control.tasks| && Initial(w.control, cfg.duration) && Quiet(w.bus)
  }

  lemma ReadyAgrees(cfg: Config, w: World)
    requires Ready(cfg, w)
    ensures Wired(cfg, w) && Agreement(w.bus) && InLoop(w.control, cfg.duration)
  {
    InitialInLoop(w.control, cfg.duration);
  }

  // ----- Every run ends ---------------------------------------------------------------

  /** Any run, with any participants and any recordings, fails or completes within
      as many slots as there are activations and selected messages. */
  lemma {:induction false} EveryRunEnds(cfg: Config, w: World, n: nat)
    requires Wired(cfg, w) && InLoop(w.control, cfg.duration) && n >= Work(w.control, cfg.duration)
    ensures Run(cfg, w, n).failed || Completed(Run(cfg, w, n).control)
  {
    if !Run(cfg, w, n).failed {
      RunFollowsControl(cfg, w, n);
      RunEnds(w.control, cfg.duration, n);
    }
  }

  /** The activation log of a completed run is the declared schedule. */
  lemma RunRefinesSchedule(cfg: Config, w: World, n: nat)
    requires Ready(cfg, w) && n >= Work(w.control, cfg.duration)
    requires Wired(cfg, w) && !Run(cfg, w, n).failed
    ensures var r := Run(cfg, w, n).control;
      && SameDeclarations(w.control, r) && LogOk(r) && LogSorted(r)
      && forall f: Fired :: f in r.activations <==>
           f.task < |w.control.tasks| && Declared(w.control.tasks[f.task], cfg.duration, f.time)
  {
    hide Run, RunSlots;
    InitialInLoop(w.control, cfg.duration);
    RunFollowsControl(cfg, w, n);
    RunEnds(w.control, cfg.duration, n);
    CompletedSchedule(w.control, cfg.duration, n);
  }

  // ----- Replay fidelity ------------------------------------------------------------------

  /** The recorded messages on some channels, as a Recording stores them. */
  function OnChannels(recording: seq<Record>, chans: set<nat>): seq<Stored> {
    if recording == [] then []
    else
      var e := recording[|recording| - 1];
      OnChannels(recording[..|recording| - 1], chans)
      + if e.channel in chans then [Stored(e.msg.time, e.channel, e.msg.bytes)] else []
  }

  lemma OnChannelsAppend(recording: seq<Record>, e: Record, chans: set<nat>)
    ensures OnChannels(recording + [e], chans)
         == OnChannels(recording, chans)
            + if e.channel in chans then [Stored(e.msg.time, e.channel, e.msg.bytes)] else []
  {
    assert (recording + [e])[..|recording|] == recording;
  }

  /** No interceptors on these channels. */
  ghost predicate Unfaulted(b: Bus, chans: set<nat>) {
    forall ch :: ch in chans && ch < |b.channels| ==> b.channels[ch].steps == []
  }

  lemma PublishElsewhere(b: Bus, duration: u64, now: u64, ch: nat, bytes: seq<byte>, chans: set<nat>)
    requires Unfaulted(b, chans)
    ensures Unfaulted(Publish(b, duration, now, ch, bytes).0, chans)
    ensures ch !in chans ==>
              OnChannels(Publish(b, duration, now, ch, bytes).0.recording, chans) == OnChannels(b.recording, chans)
  {
    hide Deliver;
    if ch < |b.channels| && |bytes| == b.channels[ch].size {
      var verdict := Apply(b.channels[ch].steps, duration, now, bytes).1;
      if verdict.Visible? {
        OnChannelsAppend(b.recording,
                         Record(ch, b.channels[ch].nextSeq, Msg(verdict.time, b.published % TWO64, verdict.bytes)),
                         chans);
      }
    }
  }

  lemma {:induction false} ActivateElsewhere(b: Bus, duration: u64, now: u64, who: Caller, program: Program,
                                             memory: Memory, replies: seq<Reply>, patience: nat, chans: set<nat>)
    requires Unfaulted(b, chans) && who.outputs !! chans
    ensures var out := Activate(b, duration, now, who, program, memory, replies, patience);
      Unfaulted(out.bus, chans) && OnChannels(out.bus.recording, chans) == OnChannels(b.recording, chans)
    decreases patience
  {
    hide Publish, Unfaulted;
    var call := program(now, memory, replies);
    if call.CallReturn? {
    } else {
      var (b', reply) := Answer(b, duration, now, who, call);
      AnswerElsewhere(b, duration, now, who, call, chans);
      if reply.Some? && patience > 0 {
        ActivateElsewhere(b', duration, now, who, program, memory, replies + [reply.value], patience - 1, chans);
      }
    }
  }

  lemma AnswerElsewhere(b: Bus, duration: u64, now: u64, who: Caller, call: Call, chans: set<nat>)
    requires Unfaulted(b, chans) && who.outputs !! chans
    ensures var b' := Answer(b, duration, now, who, call).0;
      Unfaulted(b', chans) && OnChannels(b'.recording, chans) == OnChannels(b.recording, chans)
  {
    hide Publish;
    if call.CallPublish? { PublishElsewhere(b, duration, now, call.channel, call.bytes, chans); }
  }

  /** A replayed message is recorded again as it was stored. */
  lemma PublishStored(b: Bus, duration: u64, now: u64, ch: nat, bytes: seq<byte>, chans: set<nat>)
    requires Unfaulted(b, chans) && ch in chans && now < duration && Publish(b, duration, now, ch, bytes).1
    ensures OnChannels(Publish(b, duration, now, ch, bytes).0.recording, chans)
         == OnChannels(b.recording, chans) + [Stored(now, ch, bytes)]
  {
    hide Deliver;
    assert Apply(b.channels[ch].steps, duration, now, bytes).1 == Visible(now, bytes);
    OnChannelsAppend(b.recording, Record(ch, b.channels[ch].nextSeq, Msg(now, b.published % TWO64, bytes)), chans);
  }

  lemma {:induction false} PublishDueRecords(b: Bus, r: Replayer, now: u64, duration: u64)
    requires Rested(r, duration) && Unfaulted(b, r.channels) && PublishDue(b, r, now, duration).ok
    ensures var x := PublishDue(b, r, now, duration);
      && Unfaulted(x.bus, r.channels)
      && OnChannels(x.bus.recording, r.channels) == OnChannels(b.recording, r.channels) + DueRun(r, now, duration)
    decreases |r.stored| - r.cursor
  {
    hide Publish, Unfaulted, OnChannels;
    if r.cursor < |r.stored| && r.stored[r.cursor].time == now {
      var m := r.stored[r.cursor];
      var b' := Publish(b, duration, now, m.channel, m.bytes).0;
      var next := Skip(r.(cursor := r.cursor + 1), duration);
      PublishElsewhere(b, duration, now, m.channel, m.bytes, r.channels);
      PublishStored(b, duration, now, m.channel, m.bytes, r.channels);
      PublishDueRecords(b', next, now, duration);
      assert Stored(now, m.channel, m.bytes) == m;
      assert OnChannels(b.recording, r.channels) + [m] + DueRun(next, now, duration)
          == OnChannels(b.recording, r.channels) + ([m] + DueRun(next, now, duration));
    } else {
      assert OnChannels(b.recording, r.channels) + [] == OnChannels(b.recording, r.channels);
    }
  }

  lemma {:induction false} PublishDueElsewhere(b: Bus, r: Replayer, now: u64, duration: u64, chans: set<nat>)
    requires Rested(r, duration) && Unfaulted(b, chans) && r.channels !! chans
    ensures var x := PublishDue(b, r, now, duration);
      Unfaulted(x.bus, chans) && OnChannels(x.bus.recording, chans) == OnChannels(b.recording, chans)
    decreases |r.stored| - r.cursor
  {
    hide Publish, Unfaulted, OnChannels;
    if r.cursor == |r.stored| || r.stored[r.cursor].time != now {
    } else {
      var m := r.stored[r.cursor];
      assert m.channel !in chans;
      PublishElsewhere(b, duration, now, m.channel, m.bytes, chans);
      if Publish(b, duration, now, m.channel, m.bytes).1 {
        PublishDueElsewhere(Publish(b, duration, now, m.channel, m.bytes).0,
                            Skip(r.(cursor := r.cursor + 1), duration), now, duration, chans);
      }
    }
  }

  /** One publisher per channel, as far as replayer `j` is concerned. */
  ghost predicate SolePublisher(cfg: Config, c: Control, j: nat)
    requires j < |c.replayers|
  {
    && (forall i :: 0 <= i < |cfg.jobs| ==> cfg.jobs[i].who.outputs !! c.replayers[j].channels)
    && (forall k :: 0 <= k < |c.replayers| && k != j ==> c.replayers[k].channels !! c.replayers[j].channels)
  }

  /** What replayer `j` has passed is what was recorded on its channels. */
  ghost predicate Faithful(cfg: Config, w: World, j: nat) {
    && j < |w.control.replayers| && AllRested(w.control, cfg.duration)
    && SolePublisher(cfg, w.control, j)
    && Unfaulted(w.bus, w.control.replayers[j].channels)
    && OnChannels(w.bus.recording, w.control.replayers[j].channels)
       == Picked(w.control.replayers[j], cfg.duration, w.control.replayers[j].cursor)
  }

  lemma PerformReplayKeepsFaith(cfg: Config, w: World, now: u64, k: nat, j: nat)
    requires Wired(cfg, w) && k < |w.control.replayers| && Faithful(cfg, w, j)
    requires PublishDue(w.bus, w.control.replayers[k], now, cfg.duration).ok
    ensures Faithful(cfg, Perform(cfg, w, now, RunReplay(k)), j)
  {
    hide Unfaulted, OnChannels, PublishDue;
    var r := w.control.replayers[k];
    assert Rested(r, cfg.duration);
    PublishDueDrains(w.bus, r, now, cfg.duration);
    DrainRests(r, now, cfg.duration);
    if k == j {
      PublishDueRecords(w.bus, r, now, cfg.duration);
      DrainPicks(r, now, cfg.duration);
      PickedIgnoresCursor(r, Drain(r, now, cfg.duration), cfg.duration, Drain(r, now, cfg.duration).cursor);
    } else {
      PublishDueElsewhere(w.bus, r, now, cfg.duration, w.control.replayers[j].channels);
    }
  }

  lemma PerformKeepsFaith(cfg: Config, w: World, now: u64, item: Item, j: nat)
    requires Wired(cfg, w) && Known(w.control, item) && Faithful(cfg, w, j) && !Perform(cfg, w, now, item).failed
    ensures Faithful(cfg, Perform(cfg, w, now, item), j)
  {
    hide Unfaulted, OnChannels, PublishDue, Activate;
    match item
    case RunTask(i) =>
      var job := cfg.jobs[i];
      ActivateElsewhere(w.bus, cfg.duration, now, job.who, job.program, MemoryOf(w.memories, job.who.owner), [],
                        cfg.patience, w.control.replayers[j].channels);
    case RunReplay(k) => PerformReplayKeepsFaith(cfg, w, now, k, j);
  }

  lemma {:induction false} PerformAllKeepsFaith(cfg: Config, w: World, now: u64, items: seq<Item>, j: nat)
    requires Wired(cfg, w) && AllKnown(w.control, items) && Faithful(cfg, w, j)
    requires !PerformAll(cfg, w, now, items).failed
    ensures Faithful(cfg, PerformAll(cfg, w, now, items), j)
    decreases |items|
  {
    hide Perform, Faithful;
    if items == [] || w.failed {
    } else {
      var w' := Perform(cfg, w, now, items[0]);
      assert AllKnown(w'.control, items[1..]) by {
        assert forall x :: x in items[1..] ==> x in items && (Known(w.control, x) ==> Known(w'.control, x));
      }
      if !w'.failed { PerformKeepsFaith(cfg, w, now, items[0], j); }
      PerformAllKeepsFaith(cfg, w', now, items[1..], j);
    }
  }

  lemma PerformSlotKeepsFaith(cfg: Config, w: World, j: nat)
    requires Wired(cfg, w) && Faithful(cfg, w, j) && !PerformSlot(cfg, w).failed
    ensures Faithful(cfg, PerformSlot(cfg, w), j)
  {
    hide PerformAll, Agenda, NextSlot;
    var slot := NextSlot(w.control);
    var start := w.(control := w.control.(slots := w.control.slots + [slot]));
    assert AllKnown(start.control, Agenda(w.control, slot)) by {
      assert forall x :: Known(w.control, x) ==> Known(start.control, x);
    }
    assert Faithful(cfg, start, j);
    PerformAllKeepsFaith(cfg, start, slot, Agenda(w.control, slot), j);
  }

  lemma {:induction false} RunKeepsFaith(cfg: Config, w: World, n: nat, j: nat)
    requires Wired(cfg, w) && Faithful(cfg, w, j) && !Run(cfg, w, n).failed
    ensures Faithful(cfg, Run(cfg, w, n), j)
    decreases n
  {
    hide PerformSlot, NextSlot, Faithful, RunSlots;
    if n == 0 || w.failed || NextSlot(w.control) == MAX64 {
    } else {
      RunFollowsControl(cfg, PerformSlot(cfg, w), n - 1);
      PerformSlotKeepsFaith(cfg, w, j);
      RunKeepsFaith(cfg, PerformSlot(cfg, w), n - 1, j);
    }
  }

  /** In a completed run, the new Recording on a replayer's channels is the stored
      Recording filtered to those channels and to times inside the run: same
      timestamps, bytes and order, even where the stored timestamps descend. */
  lemma ReplayFidelity(cfg: Config, w: World, n: nat, j: nat)
    requires Ready(cfg, w) && Wired(cfg, w) && j < |w.control.replayers|
    requires SolePublisher(cfg, w.control, j) && Unfaulted(w.bus, w.control.replayers[j].channels)
    requires n >= Work(w.control, cfg.duration) && !Run(cfg, w, n).failed
    ensures OnChannels(Run(cfg, w, n).bus.recording, w.control.replayers[j].channels)
         == SelectedStream(w.control.replayers[j], cfg.duration)
  {
    hide Run, RunSlots;
    var rep := w.control.replayers[j];
    ReadyAgrees(cfg, w);
    NothingPicked(rep, cfg.duration, 0, rep.cursor);
    RunKeepsFaith(cfg, w, n, j);
    RunFollowsControl(cfg, w, n);
    RunEnds(w.control, cfg.duration, n);
    RunKeepsDeclarations(w.control, cfg.duration, n);
    var r := Run(cfg, w, n).control;
    StreamsAreStatic(w.control, r, cfg.duration);
    assert r.replayers[j].(cursor := 0) == rep.(cursor := 0);
  }
}
