// What a manifest that setup accepts guarantees of every run of it.

module SetupProofs {
  import opened VirtualTime
  import opened Interceptor
  import opened DataPlane
  import opened Activation
  import opened Schedule
  import opened ScheduleProofs
  import opened SlotProofs
  import opened Engine
  import opened EngineProofs
  import opened EngineOrder
  import opened Setup
  import Manifest

  // ----- The engine is ready --------------------------------------------------------------------------------

  function ControlOf(r: Roster): Control {
    Control(r.tasks, r.replayers, [], [])
  }

  ghost predicate IndicesBelow(c: Control, n: nat) {
    && (forall i :: 0 <= i < |c.tasks| ==> c.tasks[i].index < n)
    && (forall j :: 0 <= j < |c.replayers| ==> c.replayers[j].index < n)
  }

  /** A roster setup can have reached. */
  ghost predicate Orderly(r: Roster, duration: u64) {
    && |r.jobs| == |r.tasks| && Initial(ControlOf(r), duration) && IndicesBelow(ControlOf(r), r.next)
    && forall k :: 0 <= k < |r.routes| ==>
         r.routes[k].pending == [] && r.routes[k].taken == [] && r.routes[k].dropped == 0
  }

  lemma EnrolTaskOrderly(r: Roster, t: TaskSpec, who: Caller, duration: u64)
    requires Orderly(r, duration) && t.period > 0
    ensures Orderly(EnrolTask(r, t, who, duration), duration)
  {
  }

  lemma {:induction false} EnrolTasksOrderly(r: Roster, ts: seq<TaskSpec>, who: Caller, duration: u64)
    requires Orderly(r, duration) && Periodic(ts)
    ensures Orderly(EnrolTasks(r, ts, who, duration), duration)
    decreases |ts|
  {
    hide Orderly, EnrolTask;
    if ts == [] {
    } else {
      EnrolTasksOrderly(r, ts[..|ts| - 1], who, duration);
      EnrolTaskOrderly(EnrolTasks(r, ts[..|ts| - 1], who, duration), ts[|ts| - 1], who, duration);
    }
  }

  lemma EnrolReplayOrderly(r: Roster, role: Role, owner: nat, duration: u64)
    requires Orderly(r, duration) && role.Replay?
    ensures Orderly(EnrolReplay(r, role, owner, duration), duration)
  {
    hide Skip;
    var first := Replayer(owner, ChannelSet(role.channels), role.stored, role.placed, r.next, 0);
    assert Skip(first, duration).(cursor := 0) == first;
  }

  lemma EnrolOrderly(r: Roster, m: Member, owner: nat, duration: u64, specs: seq<ChannelSpec>)
    requires Orderly(r, duration) && Sound(m, |specs|)
    ensures Orderly(Enrol(r, m, owner, duration, specs), duration)
  {
    match m.role
    case Actor(_, routes, tasks) =>
      var r' := r.(routes := r.routes + EmptyRoutes(routes, owner, specs));
      assert ControlOf(r') == ControlOf(r);
      assert Orderly(r', duration);
      EnrolTasksOrderly(r', tasks, CallerOf(m, owner), duration);
    case Replay(_, _, _) => EnrolReplayOrderly(r, m.role, owner, duration);
  }

  lemma {:induction false} RollOrderly(members: seq<Member>, duration: u64, specs: seq<ChannelSpec>)
    requires AllSound(members, |specs|)
    ensures Orderly(Roll(members, duration, specs), duration)
    decreases |members|
  {
    hide Enrol;
    if members == [] {
    } else {
      hide Orderly;
      var n := |members| - 1;
      RollOrderly(members[..n], duration, specs);
      EnrolOrderly(Roll(members[..n], duration, specs), members[n], n, duration, specs);
    }
  }

  /** Setup leaves the engine ready to run. */
  lemma FirstWorldIsReady(members: seq<Member>, duration: u64, specs: seq<ChannelSpec>, plans: seq<seq<Step>>,
                          patience: nat)
    requires AllSound(members, |specs|) && |plans| == |specs|
    ensures Ready(FirstConfig(members, duration, specs, patience), FirstWorld(members, duration, specs, plans))
  {
    hide Roll, Initial;
    RollOrderly(members, duration, specs);
  }

  // ----- Tasks, in manifest order ------------------------------------------------------------------------------

  function Tagged(owner: nat, ts: seq<TaskSpec>): (r: seq<(nat, TaskSpec)>)
    ensures |r| == |ts| && forall i :: 0 <= i < |r| ==> r[i] == (owner, ts[i])
  {
    seq(|ts|, i requires 0 <= i < |ts| => (owner, ts[i]))
  }

  /** Every task the manifest declares, with its participant. */
  function TaskList(members: seq<Member>): seq<(nat, TaskSpec)> {
    if members == [] then []
    else
      var n := |members| - 1;
      TaskList(members[..n]) + if members[n].role.Actor? then Tagged(n, members[n].role.tasks) else []
  }

  ghost predicate IsTask(t: Task, job: Job, spec: TaskSpec, who: Caller, duration: u64) {
    && spec.period > 0 && t == NewTask(spec.offset, spec.period, spec.priority, t.index, duration)
    && job == Job(who, spec.program)
  }

  /** The tasks are those of the list, and were registered in its order. */
  ghost predicate Listed(r: Roster, list: seq<(nat, TaskSpec)>, members: seq<Member>, duration: u64) {
    && |r.tasks| == |r.jobs| == |list|
    && (forall i :: 0 <= i < |list| ==> list[i].0 < |members|)
    && (forall i :: 0 <= i < |list| ==>
          IsTask(r.tasks[i], r.jobs[i], list[i].1, CallerOf(members[list[i].0], list[i].0), duration))
    && (forall i :: 0 <= i < |list| ==> r.tasks[i].index < r.next)
    && (forall i, j :: 0 <= i < j < |list| ==> r.tasks[i].index < r.tasks[j].index)
  }

  lemma {:induction false} EnrolTasksListed(r: Roster, ts: seq<TaskSpec>, list: seq<(nat, TaskSpec)>,
                                            members: seq<Member>, p: nat, duration: u64)
    requires Listed(r, list, members, duration) && Periodic(ts) && p < |members|
    ensures Listed(EnrolTasks(r, ts, CallerOf(members[p], p), duration), list + Tagged(p, ts), members, duration)
    decreases |ts|
  {
    if ts == [] {
      assert list + Tagged(p, ts) == list;
    } else {
      var n := |ts| - 1;
      EnrolTasksListed(r, ts[..n], list, members, p, duration);
      assert list + Tagged(p, ts) == list + Tagged(p, ts[..n]) + [(p, ts[n])];
      EnrolTaskListed(EnrolTasks(r, ts[..n], CallerOf(members[p], p), duration), ts[n], list + Tagged(p, ts[..n]),
                      members, p, duration);
    }
  }

  lemma EnrolTaskListed(r: Roster, t: TaskSpec, list: seq<(nat, TaskSpec)>, members: seq<Member>, p: nat, duration: u64)
    requires Listed(r, list, members, duration) && t.period > 0 && p < |members|
    ensures Listed(EnrolTask(r, t, CallerOf(members[p], p), duration), list + [(p, t)], members, duration)
  {
  }

  lemma ReplayKeepsListed(r: Roster, role: Role, owner: nat, list: seq<(nat, TaskSpec)>, members: seq<Member>,
                          duration: u64)
    requires Listed(r, list, members, duration) && role.Replay?
    ensures Listed(EnrolReplay(r, role, owner, duration), list, members, duration)
  {
  }

  lemma {:induction false} RollListed(members: seq<Member>, duration: u64, specs: seq<ChannelSpec>, n: nat)
    requires AllSound(members, |specs|) && n <= |members|
    ensures Listed(Roll(members[..n], duration, specs), TaskList(members[..n]), members, duration)
    decreases n
  {
    if n == 0 {
    } else {
      var front := members[..n];
      assert front[..n - 1] == members[..n - 1] && front[n - 1] == members[n - 1];
      RollListed(members, duration, specs, n - 1);
      var r := Roll(members[..n - 1], duration, specs);
      hide Listed, EnrolTasks, EnrolReplay;
      match members[n - 1].role
      case Actor(_, routes, tasks) =>
        var r' := r.(routes := r.routes + EmptyRoutes(routes, n - 1, specs));
        RoutesKeepListed(r, r', TaskList(members[..n - 1]), members, duration);
        EnrolTasksListed(r', tasks, TaskList(members[..n - 1]), members, n - 1, duration);
      case Replay(_, _, _) =>
        assert TaskList(members[..n - 1]) + [] == TaskList(members[..n - 1]);
        ReplayKeepsListed(r, members[n - 1].role, n - 1, TaskList(members[..n - 1]), members, duration);
    }
  }

  lemma RoutesKeepListed(r: Roster, r': Roster, list: seq<(nat, TaskSpec)>, members: seq<Member>, duration: u64)
    requires Listed(r, list, members, duration) && r' == r.(routes := r'.routes)
    ensures Listed(r', list, members, duration)
  {
  }

  // ----- Replayers and routes ---------------------------------------------------------------------------------------

  predicate IsReplay(r: Replayer, members: seq<Member>, duration: u64) {
    && r.owner < |members| && members[r.owner].role.Replay?
    && var role := members[r.owner].role;
       r == Skip(Replayer(r.owner, ChannelSet(role.channels), role.stored, role.placed, r.index, 0), duration)
  }

  predicate IsRoute(r: Route, members: seq<Member>, specs: seq<ChannelSpec>) {
    && r.owner < |members| && members[r.owner].role.Actor?
    && exists i :: 0 <= i < |members[r.owner].role.routes| && members[r.owner].role.routes[i].channel < |specs|
                   && r == EmptyRoute(members[r.owner].role.routes[i], r.owner, specs)
  }

  /** Each Replay participant among the first `n` has one replayer, in manifest order. */
  ghost predicate Manned(r: Roster, members: seq<Member>, n: nat, duration: u64) {
    && n <= |members|
    && (forall j :: 0 <= j < |r.replayers| ==> IsReplay(r.replayers[j], members, duration) && r.replayers[j].owner < n)
    && (forall i, j :: 0 <= i < j < |r.replayers| ==> r.replayers[i].owner < r.replayers[j].owner)
    && (forall p :: 0 <= p < n && members[p].role.Replay? ==>
          exists j :: 0 <= j < |r.replayers| && r.replayers[j].owner == p)
  }

  lemma {:induction false} EnrolTasksManned(r: Roster, ts: seq<TaskSpec>, who: Caller, duration: u64)
    requires Periodic(ts)
    ensures EnrolTasks(r, ts, who, duration).replayers == r.replayers
    ensures EnrolTasks(r, ts, who, duration).routes == r.routes
    decreases |ts|
  {
    if ts == [] {
    } else {
      EnrolTasksManned(r, ts[..|ts| - 1], who, duration);
    }
  }

  lemma EnrolReplayManned(r: Roster, members: seq<Member>, n: nat, duration: u64)
    requires Manned(r, members, n, duration) && n < |members| && members[n].role.Replay?
    ensures Manned(EnrolReplay(r, members[n].role, n, duration), members, n + 1, duration)
  {
    hide Skip;
    var r' := EnrolReplay(r, members[n].role, n, duration);
    assert r'.replayers[|r.replayers|].owner == n;
    forall p | 0 <= p < n + 1 && members[p].role.Replay?
      ensures exists j :: 0 <= j < |r'.replayers| && r'.replayers[j].owner == p
    {
      if p < n {
        var j :| 0 <= j < |r.replayers| && r.replayers[j].owner == p;
        assert r'.replayers[j].owner == p;
      }
    }
  }

  lemma NoReplayManned(r: Roster, r': Roster, members: seq<Member>, n: nat, duration: u64)
    requires Manned(r, members, n, duration) && n < |members| && members[n].role.Actor? && r'.replayers == r.replayers
    ensures Manned(r', members, n + 1, duration)
  {
    hide IsReplay;
    forall p | 0 <= p < n + 1 && members[p].role.Replay?
      ensures exists j :: 0 <= j < |r'.replayers| && r'.replayers[j].owner == p
    {
      var j :| 0 <= j < |r.replayers| && r.replayers[j].owner == p;
    }
  }

  lemma {:induction false} RollManned(members: seq<Member>, duration: u64, specs: seq<ChannelSpec>, n: nat)
    requires AllSound(members, |specs|) && n <= |members|
    ensures Manned(Roll(members[..n], duration, specs), members, n, duration)
    decreases n
  {
    if n == 0 {
    } else {
      var front := members[..n];
      assert front[..n - 1] == members[..n - 1] && front[n - 1] == members[n - 1];
      RollManned(members, duration, specs, n - 1);
      var r := Roll(members[..n - 1], duration, specs);
      hide Manned, EnrolTasks, EnrolReplay;
      match members[n - 1].role
      case Actor(_, routes, tasks) =>
        var r' := r.(routes := r.routes + EmptyRoutes(routes, n - 1, specs));
        EnrolTasksManned(r', tasks, CallerOf(members[n - 1], n - 1), duration);
        NoReplayManned(r, EnrolTasks(r', tasks, CallerOf(members[n - 1], n - 1), duration), members, n - 1, duration);
      case Replay(_, _, _) => EnrolReplayManned(r, members, n - 1, duration);
    }
  }

  // ----- One publisher per channel ----------------------------------------------------------------------------------

  /** The participant that publishes a channel. */
  function VoiceOf(members: seq<Member>, ch: nat): (p: nat)
    ensures p < |members| ==> ch in Outputs(members[p].role)
    ensures forall i :: 0 <= i < |members| && i < p ==> ch !in Outputs(members[i].role)
  {
    if members == [] then 0
    else if ch in Outputs(members[0].role) then 0
    else 1 + VoiceOf(members[1..], ch)
  }

  /** With one publisher per channel, whoever publishes a channel is its voice. */
  lemma VoiceIsUnique(members: seq<Member>, p: nat, ch: nat)
    requires OnePublisher(members) && p < |members| && ch in Outputs(members[p].role)
    ensures VoiceOf(members, ch) == p
  {
    hide VoiceOf;
    var v := VoiceOf(members, ch);
    if v < p {
      Manifest.PublishersAreSeparate(Publishers(members), v, p, ch);
      assert false;
    }
  }

  /** The check setup opens with gives every channel one voice. */
  lemma AcceptedCast(members: seq<Member>, duration: u64, specs: seq<ChannelSpec>, plans: seq<seq<Step>>, patience: nat)
    requires Accepted(members, |specs|) && |plans| == |specs|
    ensures Cast(FirstConfig(members, duration, specs, patience),
                 FirstWorld(members, duration, specs, plans).control, ch => VoiceOf(members, ch))
  {
    assert members[..|members|] == members;
    RollListed(members, duration, specs, |members|);
    RollManned(members, duration, specs, |members|);
    var r := Roll(members, duration, specs);
    hide Roll, VoiceOf, OnePublisher, Skip;
    forall i | 0 <= i < |r.jobs|
      ensures r.jobs[i].who.owner < |members| && members[r.jobs[i].who.owner].role.Actor?
      ensures forall ch :: ch in r.jobs[i].who.outputs ==> VoiceOf(members, ch) == r.jobs[i].who.owner
    {
      var p := TaskList(members)[i].0;
      TaskListActors(members, i);
      forall ch | ch in r.jobs[i].who.outputs ensures VoiceOf(members, ch) == p { VoiceIsUnique(members, p, ch); }
    }
    forall j | 0 <= j < |r.replayers|
      ensures r.replayers[j].owner < |members| && members[r.replayers[j].owner].role.Replay?
      ensures forall ch :: ch in r.replayers[j].channels ==> VoiceOf(members, ch) == r.replayers[j].owner
    {
      var p := r.replayers[j].owner;
      assert IsReplay(r.replayers[j], members, duration);
      forall ch | ch in r.replayers[j].channels ensures VoiceOf(members, ch) == p { VoiceIsUnique(members, p, ch); }
    }
  }

  lemma {:induction false} TaskListActors(members: seq<Member>, i: nat)
    requires i < |TaskList(members)|
    ensures TaskList(members)[i].0 < |members| && members[TaskList(members)[i].0].role.Actor?
    ensures TaskList(members)[i].1 in members[TaskList(members)[i].0].role.tasks
    decreases |members|
  {
    var n := |members| - 1;
    if i >= |TaskList(members[..n])| {
    } else {
      TaskListActors(members[..n], i);
    }
  }

  /** One voice per channel: a replayer is the only publisher of what it replays. */
  lemma CastSole(cfg: Config, c: Control, voice: nat -> nat, j: nat)
    requires Cast(cfg, c, voice) && j < |c.replayers|
    ensures SolePublisher(cfg, c, j)
  {
    forall i | 0 <= i < |cfg.jobs| ensures cfg.jobs[i].who.outputs !! c.replayers[j].channels {
      forall ch | ch in cfg.jobs[i].who.outputs ensures ch !in c.replayers[j].channels {
        assert voice(ch) == cfg.jobs[i].who.owner;
      }
    }
    forall k | 0 <= k < |c.replayers| && k != j ensures c.replayers[k].channels !! c.replayers[j].channels {
      forall ch | ch in c.replayers[k].channels ensures ch !in c.replayers[j].channels {
        assert voice(ch) == c.replayers[k].owner && (k < j || j < k);
      }
    }
  }

  /** Two tasks of different participants have no output channel in common. */
  lemma CastSeparates(cfg: Config, c: Control, voice: nat -> nat, i: nat, j: nat)
    requires Cast(cfg, c, voice) && i < |cfg.jobs| && j < |cfg.jobs| && cfg.jobs[i].who.owner != cfg.jobs[j].who.owner
    ensures cfg.jobs[i].who.outputs !! cfg.jobs[j].who.outputs
  {
    forall ch | ch in cfg.jobs[i].who.outputs ensures ch !in cfg.jobs[j].who.outputs {
      assert voice(ch) == cfg.jobs[i].who.owner;
    }
  }

  // ----- Every run of an accepted manifest --------------------------------------------------------------------------

  /** `time` is an instant this task is declared for, inside the run. */
  ghost predicate DeclaredAt(spec: TaskSpec, duration: u64, time: u64) {
    exists n: nat :: time == spec.offset + n * spec.period < duration
  }

  /** Declared priority first, then manifest order. */
  predicate RunsFirst(list: seq<(nat, TaskSpec)>, i: nat, j: nat)
    requires i < |list| && j < |list|
  {
    list[i].1.priority < list[j].1.priority || (list[i].1.priority == list[j].1.priority && i < j)
  }

  /** Ordered by time, then by declared priority, then by manifest order. */
  ghost predicate InDeclaredOrder(log: seq<Fired>, list: seq<(nat, TaskSpec)>) {
    && (forall a :: 0 <= a < |log| ==> log[a].task < |list|)
    && forall a, b :: 0 <= a < b < |log| ==>
         log[a].time < log[b].time || (log[a].time == log[b].time && RunsFirst(list, log[a].task, log[b].task))
  }

  /** The stored messages on some channels and inside the run. */
  function Replayed(stored: seq<Stored>, channels: set<nat>, duration: u64): seq<Stored> {
    if stored == [] then []
    else
      var m := stored[|stored| - 1];
      Replayed(stored[..|stored| - 1], channels, duration)
      + if m.channel in channels && m.time < duration then [m] else []
  }

  lemma {:induction false} PickedIsReplayed(r: Replayer, duration: u64, k: nat)
    requires k <= |r.stored|
    ensures Picked(r, duration, k) == Replayed(r.stored[..k], r.channels, duration)
    decreases k
  {
    if k == 0 {
    } else {
      assert r.stored[..k][..k - 1] == r.stored[..k - 1];
      PickedIsReplayed(r, duration, k - 1);
    }
  }

  predicate NoFaults(plans: seq<seq<Step>>, channels: seq<nat>) {
    forall i :: 0 <= i < |channels| && channels[i] < |plans| ==> plans[channels[i]] == []
  }

  /** What the manifest promises of an unfailed run: exactly the declared activations, in
      declared order; Recording and subscribers in agreement; and on the channels of every
      replayed Recording without interceptors, the stored messages of the run's time again. */
  ghost predicate KeepsManifest(members: seq<Member>, duration: u64, plans: seq<seq<Step>>, log: seq<Fired>, bus: Bus) {
    && ExactlyDeclared(log, TaskList(members), duration) && InDeclaredOrder(log, TaskList(members))
    && Agreement(bus) && AllAgain(members, duration, plans, bus.recording)
  }

  /** Every declared activation happened, and no other. */
  ghost predicate ExactlyDeclared(log: seq<Fired>, list: seq<(nat, TaskSpec)>, duration: u64) {
    forall f: Fired :: f in log <==> f.task < |list| && DeclaredAt(list[f.task].1, duration, f.time)
  }

  ghost predicate AllAgain(members: seq<Member>, duration: u64, plans: seq<seq<Step>>, recording: seq<Record>) {
    forall p :: 0 <= p < |members| && members[p].role.Replay? && NoFaults(plans, members[p].role.channels) ==>
      Again(members[p].role, duration, recording)
  }

  ghost predicate Again(role: Role, duration: u64, recording: seq<Record>)
    requires role.Replay?
  {
    OnChannels(recording, ChannelSet(role.channels)) == Replayed(role.stored, ChannelSet(role.channels), duration)
  }

  lemma ListedDeclares(r: Roster, list: seq<(nat, TaskSpec)>, members: seq<Member>, duration: u64, f: Fired)
    requires Listed(r, list, members, duration)
    ensures (f.task < |r.tasks| && Declared(r.tasks[f.task], duration, f.time))
       <==> (f.task < |list| && DeclaredAt(list[f.task].1, duration, f.time))
  {
    if f.task < |list| {
      var t, spec := r.tasks[f.task], list[f.task].1;
      assert IsTask(t, r.jobs[f.task], spec, CallerOf(members[list[f.task].0], list[f.task].0), duration);
      if Declared(t, duration, f.time) {
        var n: nat :| f.time == Instant(t, n) < duration;
        assert f.time == spec.offset + n * spec.period;
      }
      if DeclaredAt(spec, duration, f.time) {
        var n: nat :| f.time == spec.offset + n * spec.period < duration;
        assert f.time == Instant(t, n);
      }
    }
  }

  lemma ListedAhead(r: Roster, list: seq<(nat, TaskSpec)>, members: seq<Member>, duration: u64, c: Control, i: nat,
                    j: nat)
    requires Listed(r, list, members, duration) && SameDeclarations(ControlOf(r), c) && i < |list| && j < |list|
    ensures |c.tasks| == |list|
    ensures Before(c, RunTask(i), RunTask(j)) <==> RunsFirst(list, i, j)
  {
    assert SameTask(c.tasks[i], r.tasks[i]) && SameTask(c.tasks[j], r.tasks[j]);
    assert IsTask(r.tasks[i], r.jobs[i], list[i].1, CallerOf(members[list[i].0], list[i].0), duration);
    assert IsTask(r.tasks[j], r.jobs[j], list[j].1, CallerOf(members[list[j].0], list[j].0), duration);
    assert i < j ==> r.tasks[i].index < r.tasks[j].index;
    assert j < i ==> r.tasks[j].index < r.tasks[i].index;
  }

  lemma LogInDeclaredOrder(r: Roster, list: seq<(nat, TaskSpec)>, members: seq<Member>, duration: u64, c: Control)
    requires Listed(r, list, members, duration) && SameDeclarations(ControlOf(r), c) && LogOk(c) && LogSorted(c)
    ensures InDeclaredOrder(c.activations, list)
  {
    hide Listed, SameDeclarations, Before, RunsFirst, Times, Instant;
    forall a | 0 <= a < |c.activations| ensures c.activations[a].task < |list| {
      ListedLength(r, list, members, duration, c);
    }
    forall a, b | 0 <= a < b < |c.activations|
      ensures c.activations[a].time < c.activations[b].time
           || (c.activations[a].time == c.activations[b].time
               && RunsFirst(list, c.activations[a].task, c.activations[b].task))
    {
      assert Earlier(c, c.activations[a], c.activations[b]);
      ListedAhead(r, list, members, duration, c, c.activations[a].task, c.activations[b].task);
    }
  }

  lemma ListedLength(r: Roster, list: seq<(nat, TaskSpec)>, members: seq<Member>, duration: u64, c: Control)
    requires Listed(r, list, members, duration) && SameDeclarations(ControlOf(r), c)
    ensures |c.tasks| == |list|
  {
  }

  /** The replayer of a Replay participant. */
  lemma FindReplayer(members: seq<Member>, duration: u64, specs: seq<ChannelSpec>, plans: seq<seq<Step>>, patience: nat,
                     p: nat) returns (j: nat)
    requires Accepted(members, |specs|) && |plans| == |specs| && p < |members| && members[p].role.Replay?
    ensures var c, role := FirstWorld(members, duration, specs, plans).control, members[p].role;
      && j < |c.replayers| && c.replayers[j].channels == ChannelSet(role.channels)
      && c.replayers[j].stored == role.stored
      && SolePublisher(FirstConfig(members, duration, specs, patience), c, j)
  {
    var c := FirstWorld(members, duration, specs, plans).control;
    assert members[..|members|] == members;
    RollManned(members, duration, specs, |members|);
    j :| 0 <= j < |c.replayers| && c.replayers[j].owner == p;
    assert IsReplay(c.replayers[j], members, duration);
    AcceptedCast(members, duration, specs, plans, patience);
    hide Roll, Cast, SolePublisher;
    CastSole(FirstConfig(members, duration, specs, patience), c, ch => VoiceOf(members, ch), j);
  }

  lemma FirstUnfaulted(members: seq<Member>, duration: u64, specs: seq<ChannelSpec>, plans: seq<seq<Step>>,
                       channels: seq<nat>)
    requires AllSound(members, |specs|) && |plans| == |specs| && NoFaults(plans, channels)
    ensures Unfaulted(FirstWorld(members, duration, specs, plans).bus, ChannelSet(channels))
  {
    hide Roll;
    var b := FirstWorld(members, duration, specs, plans).bus;
    forall ch | ch in ChannelSet(channels) && ch < |b.channels| ensures b.channels[ch].steps == [] {
      var i :| 0 <= i < |channels| && channels[i] == ch;
      assert channels[i] < |plans|;
    }
  }

  lemma SelectedIsReplayed(r: Replayer, duration: u64)
    ensures SelectedStream(r, duration) == Replayed(r.stored, r.channels, duration)
  {
    PickedIsReplayed(r, duration, |r.stored|);
    assert r.stored[..|r.stored|] == r.stored;
  }

  lemma ReplaysAgain(members: seq<Member>, duration: u64, specs: seq<ChannelSpec>, plans: seq<seq<Step>>, patience: nat,
                     n: nat, p: nat)
    requires Accepted(members, |specs|) && |plans| == |specs| && p < |members| && members[p].role.Replay?
    requires NoFaults(plans, members[p].role.channels)
    requires var cfg, w := FirstConfig(members, duration, specs, patience), FirstWorld(members, duration, specs, plans);
      Wired(cfg, w) && n >= Work(w.control, duration) && !Run(cfg, w, n).failed
    ensures Again(members[p].role, duration,
                  Run(FirstConfig(members, duration, specs, patience), FirstWorld(members, duration, specs, plans),
                      n).bus.recording)
  {
    hide AllSound, OnePublisher, Roll, Run, Ready, Work, SolePublisher, Unfaulted, Replayed, OnChannels;
    hide ChannelSet, SelectedStream;
    var cfg, w := FirstConfig(members, duration, specs, patience), FirstWorld(members, duration, specs, plans);
    FirstWorldIsReady(members, duration, specs, plans, patience);
    var j := FindReplayer(members, duration, specs, plans, patience, p);
    FirstUnfaulted(members, duration, specs, plans, members[p].role.channels);
    ReplayFidelity(cfg, w, n, j);
    SelectedIsReplayed(w.control.replayers[j], duration);
  }

  lemma FirstFacts(members: seq<Member>, duration: u64, specs: seq<ChannelSpec>, plans: seq<seq<Step>>, patience: nat)
    requires AllSound(members, |specs|) && |plans| == |specs|
    ensures var cfg, w := FirstConfig(members, duration, specs, patience), FirstWorld(members, duration, specs, plans);
      && cfg.duration == duration && w.control == ControlOf(Roll(members, duration, specs))
      && Ready(cfg, w) && Wired(cfg, w) && Agreement(w.bus) && InLoop(w.control, duration)
      && Listed(Roll(members, duration, specs), TaskList(members), members, duration)
  {
    hide Roll, TaskList, Listed, Ready, Agreement, InLoop;
    assert members[..|members|] == members;
    RollListed(members, duration, specs, |members|);
    FirstWorldIsReady(members, duration, specs, plans, patience);
    ReadyAgrees(FirstConfig(members, duration, specs, patience), FirstWorld(members, duration, specs, plans));
  }

  lemma UnfailedKeeps(members: seq<Member>, duration: u64, specs: seq<ChannelSpec>, plans: seq<seq<Step>>,
                      patience: nat, n: nat)
    requires Accepted(members, |specs|) && |plans| == |specs|
    requires var cfg, w := FirstConfig(members, duration, specs, patience), FirstWorld(members, duration, specs, plans);
      Wired(cfg, w) && n >= Work(w.control, duration) && !Run(cfg, w, n).failed
    ensures var r := Run(FirstConfig(members, duration, specs, patience),
                         FirstWorld(members, duration, specs, plans), n);
      KeepsManifest(members, duration, plans, r.control.activations, r.bus)
  {
    assert AllSound(members, |specs|);
    hide Accepted, AllSound, FirstConfig, FirstWorld, Roll, TaskList, Run, Listed, Ready, Work, InLoop;
    hide Agreement, LogOk, LogSorted, SameDeclarations, Declared, ExactlyDeclared, InDeclaredOrder, AllAgain;
    hide ControlOf;
    var cfg, w := FirstConfig(members, duration, specs, patience), FirstWorld(members, duration, specs, plans);
    var roster, list, r := Roll(members, duration, specs), TaskList(members), Run(cfg, w, n);
    FirstFacts(members, duration, specs, plans, patience);
    RunRefinesSchedule(cfg, w, n);
    RunKeepsAgreement(cfg, w, n);
    LogInDeclaredOrder(roster, list, members, duration, r.control);
    ExactLogOf(roster, list, members, duration, r.control.activations);
    AllReplayAgain(members, duration, specs, plans, patience, n);
  }

  lemma ExactLogOf(roster: Roster, list: seq<(nat, TaskSpec)>, members: seq<Member>, duration: u64, log: seq<Fired>)
    requires Listed(roster, list, members, duration)
    requires forall f: Fired ::
               f in log <==>
               f.task < |ControlOf(roster).tasks| && Declared(ControlOf(roster).tasks[f.task], duration, f.time)
    ensures ExactlyDeclared(log, list, duration)
  {
    hide Listed, Declared, DeclaredAt;
    forall f: Fired ensures f in log <==> f.task < |list| && DeclaredAt(list[f.task].1, duration, f.time) {
      ListedDeclares(roster, list, members, duration, f);
    }
  }

  lemma AllReplayAgain(members: seq<Member>, duration: u64, specs: seq<ChannelSpec>, plans: seq<seq<Step>>,
                       patience: nat, n: nat)
    requires Accepted(members, |specs|) && |plans| == |specs|
    requires var cfg, w := FirstConfig(members, duration, specs, patience), FirstWorld(members, duration, specs, plans);
      Wired(cfg, w) && n >= Work(w.control, duration) && !Run(cfg, w, n).failed
    ensures AllAgain(members, duration, plans,
                     Run(FirstConfig(members, duration, specs, patience),
                         FirstWorld(members, duration, specs, plans), n).bus.recording)
  {
    assert AllSound(members, |specs|);
    hide Accepted, AllSound, FirstConfig, FirstWorld, Run, Work, Again, NoFaults, Wired;
    var cfg, w := FirstConfig(members, duration, specs, patience), FirstWorld(members, duration, specs, plans);
    forall p | 0 <= p < |members| && members[p].role.Replay? && NoFaults(plans, members[p].role.channels)
      ensures Again(members[p].role, duration, Run(cfg, w, n).bus.recording)
    {
      ReplaysAgain(members, duration, specs, plans, patience, n, p);
    }
  }

  /** Every run of an accepted manifest ends, and unless it failed it keeps the manifest. */
  lemma AcceptedRun(members: seq<Member>, duration: u64, specs: seq<ChannelSpec>, plans: seq<seq<Step>>, patience: nat)
    requires Accepted(members, |specs|) && |plans| == |specs|
    ensures var cfg, w := FirstConfig(members, duration, specs, patience), FirstWorld(members, duration, specs, plans);
      && Wired(cfg, w)
      && var r := Run(cfg, w, Work(w.control, duration));
         && (r.failed || Completed(r.control))
         && (!r.failed ==> KeepsManifest(members, duration, plans, r.control.activations, r.bus))
  {
    assert AllSound(members, |specs|);
    hide Accepted, AllSound, FirstConfig, FirstWorld, Roll, TaskList, Run, Listed, Ready, Work, InLoop;
    hide Agreement, Completed, KeepsManifest, ControlOf;
    var cfg, w := FirstConfig(members, duration, specs, patience), FirstWorld(members, duration, specs, plans);
    var n := Work(w.control, duration);
    FirstFacts(members, duration, specs, plans, patience);
    EveryRunEnds(cfg, w, n);
    if !Run(cfg, w, n).failed { UnfailedKeeps(members, duration, specs, plans, patience, n); }
  }
}
