// Priorities in a manifest: when two manifests that differ in priorities only give the same run.

module ManifestOrder {
  import opened VirtualTime
  import opened Interceptor
  import opened DataPlane
  import opened Activation
  import opened Schedule
  import opened SlotProofs
  import opened Engine
  import opened EngineProofs
  import opened Moves
  import opened SlotOrder
  import opened EngineOrder
  import opened RunOrder
  import opened Setup
  import opened SetupProofs

  // ----- Manifests that differ in priorities -----------------------------------------------------------

  ghost predicate SameTaskSpec(a: TaskSpec, b: TaskSpec) {
    a.period == b.period && a.offset == b.offset && a.program == b.program
  }

  ghost predicate SameTaskSpecs(ts: seq<TaskSpec>, us: seq<TaskSpec>) {
    |ts| == |us| && forall i :: 0 <= i < |ts| ==> SameTaskSpec(ts[i], us[i])
  }

  ghost predicate SameRole(a: Role, b: Role) {
    match a
    case Actor(publishes, routes, tasks) =>
      b.Actor? && b.publishes == publishes && b.routes == routes && SameTaskSpecs(tasks, b.tasks)
    case Replay(channels, stored, _) => b.Replay? && b.channels == channels && b.stored == stored
  }

  /** The same participants, but for the priorities of tasks and replays. */
  ghost predicate SameButPriorities(members: seq<Member>, others: seq<Member>) {
    |members| == |others| && forall p :: 0 <= p < |members| ==> SameRole(members[p].role, others[p].role)
  }

  ghost predicate SameRosters(r: Roster, u: Roster) {
    && r.jobs == u.jobs && r.routes == u.routes && r.next == u.next
    && |r.tasks| == |u.tasks| && (forall i :: 0 <= i < |r.tasks| ==> SameButRank(r.tasks[i], u.tasks[i]))
    && |r.replayers| == |u.replayers|
    && (forall j :: 0 <= j < |r.replayers| ==> SameReplayButRank(r.replayers[j], u.replayers[j]))
  }

  lemma {:induction false} SameEnrolTasks(r: Roster, u: Roster, ts: seq<TaskSpec>, us: seq<TaskSpec>, who: Caller,
                                          duration: u64)
    requires SameRosters(r, u) && SameTaskSpecs(ts, us) && Periodic(ts) && Periodic(us)
    ensures SameRosters(EnrolTasks(r, ts, who, duration), EnrolTasks(u, us, who, duration))
    decreases |ts|
  {
    if ts == [] {
    } else {
      var n := |ts| - 1;
      SameEnrolTasks(r, u, ts[..n], us[..n], who, duration);
      SameEnrolTask(EnrolTasks(r, ts[..n], who, duration), EnrolTasks(u, us[..n], who, duration), ts[n], us[n], who,
                    duration);
    }
  }

  lemma SameEnrolTask(r: Roster, u: Roster, t: TaskSpec, v: TaskSpec, who: Caller, duration: u64)
    requires SameRosters(r, u) && SameTaskSpec(t, v) && t.period > 0
    ensures SameRosters(EnrolTask(r, t, who, duration), EnrolTask(u, v, who, duration))
  {
  }

  lemma SameEnrolReplay(r: Roster, u: Roster, a: Role, b: Role, owner: nat, duration: u64)
    requires SameRosters(r, u) && SameRole(a, b) && a.Replay?
    ensures SameRosters(EnrolReplay(r, a, owner, duration), EnrolReplay(u, b, owner, duration))
  {
    hide Skip;
    SkipIgnoresRank(Replayer(owner, ChannelSet(a.channels), a.stored, a.placed, r.next, 0),
                    Replayer(owner, ChannelSet(b.channels), b.stored, b.placed, u.next, 0), duration);
  }

  lemma {:induction false} SameRolls(members: seq<Member>, others: seq<Member>, duration: u64, specs: seq<ChannelSpec>)
    requires AllSound(members, |specs|) && AllSound(others, |specs|) && SameButPriorities(members, others)
    ensures SameRosters(Roll(members, duration, specs), Roll(others, duration, specs))
    decreases |members|
  {
    if members == [] {
    } else {
      var n := |members| - 1;
      var m, o := members[n], others[n];
      SameRolls(members[..n], others[..n], duration, specs);
      assert SameRole(m.role, o.role) && Sound(m, |specs|) && Sound(o, |specs|);
      var r, u := Roll(members[..n], duration, specs), Roll(others[..n], duration, specs);
      hide EnrolTasks, EnrolReplay, SameTaskSpecs;
      if m.role.Actor? {
        var r' := r.(routes := r.routes + EmptyRoutes(m.role.routes, n, specs));
        var u' := u.(routes := u.routes + EmptyRoutes(o.role.routes, n, specs));
        SameEnrolTasks(r', u', m.role.tasks, o.role.tasks, CallerOf(m, n), duration);
      } else {
        SameEnrolReplay(r, u, m.role, o.role, n, duration);
      }
    }
  }

  lemma SameSound(members: seq<Member>, others: seq<Member>, channels: nat)
    requires AllSound(members, channels) && SameButPriorities(members, others)
    ensures AllSound(others, channels)
  {
    forall p | 0 <= p < |others| ensures Sound(others[p], channels) {
      assert SameRole(members[p].role, others[p].role) && Sound(members[p], channels);
      if others[p].role.Actor? {
        forall i | 0 <= i < |others[p].role.tasks| ensures others[p].role.tasks[i].period > 0 {
          assert SameTaskSpec(members[p].role.tasks[i], others[p].role.tasks[i]);
        }
      }
    }
  }

  // ----- The conditions, in the manifest's terms ------------------------------------------------------------

  /** Both manifests put the tasks of one participant in the same order. */
  ghost predicate SameOwnOrder(list: seq<(nat, TaskSpec)>, others: seq<(nat, TaskSpec)>) {
    |list| == |others| && forall i, j :: 0 <= i < |list| && 0 <= j < |list| && list[i].0 == list[j].0 ==>
      (RunsFirst(list, i, j) <==> RunsFirst(others, i, j))
  }

  predicate Spoken(members: seq<Member>, ch: nat) {
    exists p :: 0 <= p < |members| && ch in Outputs(members[p].role)
  }

  /** No subscription to a published channel of latency zero. */
  ghost predicate NoFeedthrough(members: seq<Member>, specs: seq<ChannelSpec>) {
    forall p, i :: 0 <= p < |members| && members[p].role.Actor? && 0 <= i < |members[p].role.routes| ==>
      var ch := members[p].role.routes[i].channel;
      ch < |specs| && Spoken(members, ch) ==> specs[ch].latency != Some(0)
  }

  /** Every participant in `merging` subscribes to channels of one publisher only. */
  ghost predicate HearsOne(members: seq<Member>, merging: set<nat>) {
    forall p, i, j :: p in merging && p < |members| && members[p].role.Actor?
                      && 0 <= i < |members[p].role.routes| && 0 <= j < |members[p].role.routes| ==>
      VoiceOf(members, members[p].role.routes[i].channel) == VoiceOf(members, members[p].role.routes[j].channel)
  }

  /** The others never ask for the merged list of their inputs. */
  ghost predicate OthersNeverMerge(members: seq<Member>, merging: set<nat>) {
    forall p, i :: 0 <= p < |members| && p !in merging && members[p].role.Actor? && 0 <= i < |members[p].role.tasks| ==>
      NeverMerges(members[p].role.tasks[i].program)
  }

  ghost predicate AllRoutes(routes: seq<Route>, members: seq<Member>, specs: seq<ChannelSpec>) {
    forall k :: 0 <= k < |routes| ==> IsRoute(routes[k], members, specs)
  }

  lemma {:induction false} RollRoutes(members: seq<Member>, duration: u64, specs: seq<ChannelSpec>, n: nat)
    requires AllSound(members, |specs|) && n <= |members|
    ensures AllRoutes(Roll(members[..n], duration, specs).routes, members, specs)
    decreases n
  {
    if n == 0 {
    } else {
      var front := members[..n];
      assert front[..n - 1] == members[..n - 1] && front[n - 1] == members[n - 1];
      RollRoutes(members, duration, specs, n - 1);
      var r := Roll(members[..n - 1], duration, specs);
      hide EnrolTasks, EnrolReplay, IsRoute;
      match members[n - 1].role
      case Actor(_, routes, tasks) =>
        var more := EmptyRoutes(routes, n - 1, specs);
        EnrolTasksManned(r.(routes := r.routes + more), tasks, CallerOf(members[n - 1], n - 1), duration);
        MemberRoutes(members, specs, n - 1);
      case Replay(_, _, _) => ReplayKeepsRoutes(r, members[n - 1].role, n - 1, duration);
    }
  }

  lemma MemberRoutes(members: seq<Member>, specs: seq<ChannelSpec>, p: nat)
    requires p < |members| && members[p].role.Actor? && RoutesKnown(members[p].role.routes, |specs|)
    ensures AllRoutes(EmptyRoutes(members[p].role.routes, p, specs), members, specs)
  {
    var rs := EmptyRoutes(members[p].role.routes, p, specs);
    forall k | 0 <= k < |rs| ensures IsRoute(rs[k], members, specs) {
      assert rs[k] == EmptyRoute(members[p].role.routes[k], p, specs);
    }
  }

  lemma ReplayKeepsRoutes(r: Roster, role: Role, owner: nat, duration: u64)
    requires role.Replay?
    ensures EnrolReplay(r, role, owner, duration).routes == r.routes
  {
  }

  lemma SpokenIsPublished(r: Roster, cfg: Config, members: seq<Member>, duration: u64, ch: nat)
    requires Listed(r, TaskList(members), members, duration) && Manned(r, members, |members|, duration)
    requires cfg.jobs == r.jobs && SpokenEver(cfg, ControlOf(r), ch)
    ensures Spoken(members, ch)
  {
    hide TaskList, Skip;
    if i :| 0 <= i < |cfg.jobs| && ch in cfg.jobs[i].who.outputs {
      var p := TaskList(members)[i].0;
      assert ch in Outputs(members[p].role);
    } else {
      var j :| 0 <= j < |r.replayers| && ch in r.replayers[j].channels;
      assert IsReplay(r.replayers[j], members, duration);
      assert ch in Outputs(members[r.replayers[j].owner].role);
    }
  }

  lemma RouteLatency(r: Route, members: seq<Member>, specs: seq<ChannelSpec>)
    requires IsRoute(r, members, specs) && NoFeedthrough(members, specs) && Spoken(members, r.channel)
    ensures r.latency != Some(0)
  {
    hide Spoken;
    var i :| 0 <= i < |members[r.owner].role.routes| && members[r.owner].role.routes[i].channel < |specs|
             && r == EmptyRoute(members[r.owner].role.routes[i], r.owner, specs);
    assert members[r.owner].role.routes[i].channel == r.channel;
  }

  lemma RosterDelayed(r: Roster, cfg: Config, members: seq<Member>, duration: u64, specs: seq<ChannelSpec>, b: Bus)
    requires Listed(r, TaskList(members), members, duration) && Manned(r, members, |members|, duration)
    requires AllRoutes(r.routes, members, specs)
    requires cfg.jobs == r.jobs && b.routes == r.routes && NoFeedthrough(members, specs)
    ensures Delayed(cfg, ControlOf(r), b)
  {
    hide Listed, Manned, TaskList, NoFeedthrough, IsRoute, ActsEver, SpokenEver, Spoken;
    forall k | 0 <= k < |b.routes| && ActsEver(cfg, ControlOf(r), b.routes[k].owner)
           && SpokenEver(cfg, ControlOf(r), b.routes[k].channel)
      ensures b.routes[k].latency != Some(0)
    {
      SpokenIsPublished(r, cfg, members, duration, b.routes[k].channel);
      RouteLatency(b.routes[k], members, specs);
    }
  }

  lemma RosterOneVoice(r: Roster, members: seq<Member>, specs: seq<ChannelSpec>, b: Bus, merging: set<nat>)
    requires AllRoutes(r.routes, members, specs) && b.routes == r.routes && HearsOne(members, merging)
    ensures OneVoice(b, merging, ch => VoiceOf(members, ch))
  {
    hide VoiceOf;
    forall j, k | 0 <= j < |b.routes| && 0 <= k < |b.routes| && b.routes[j].owner == b.routes[k].owner
           && b.routes[j].owner in merging
      ensures VoiceOf(members, b.routes[j].channel) == VoiceOf(members, b.routes[k].channel)
    {
      var x, y := b.routes[j], b.routes[k];
      assert IsRoute(x, members, specs) && IsRoute(y, members, specs);
      var i :| 0 <= i < |members[x.owner].role.routes| && members[x.owner].role.routes[i].channel < |specs|
               && x == EmptyRoute(members[x.owner].role.routes[i], x.owner, specs);
      var l :| 0 <= l < |members[y.owner].role.routes| && members[y.owner].role.routes[l].channel < |specs|
               && y == EmptyRoute(members[y.owner].role.routes[l], y.owner, specs);
    }
  }

  lemma RosterMergers(r: Roster, cfg: Config, members: seq<Member>, duration: u64, merging: set<nat>)
    requires Listed(r, TaskList(members), members, duration) && cfg.jobs == r.jobs && OthersNeverMerge(members, merging)
    ensures MergersAre(cfg, merging)
  {
    hide TaskList, NeverMerges;
    forall i | 0 <= i < |cfg.jobs| ensures cfg.jobs[i].who.owner in merging || NeverMerges(cfg.jobs[i].program) {
      TaskListActors(members, i);
      var p, spec := TaskList(members)[i].0, TaskList(members)[i].1;
      var k :| 0 <= k < |members[p].role.tasks| && members[p].role.tasks[k] == spec;
      assert IsTask(r.tasks[i], r.jobs[i], spec, CallerOf(members[p], p), duration);
    }
  }

  lemma RosterOwnOrder(r: Roster, u: Roster, cfg: Config, members: seq<Member>, others: seq<Member>, duration: u64)
    requires Listed(r, TaskList(members), members, duration) && Listed(u, TaskList(others), others, duration)
    requires cfg.jobs == r.jobs && SameOwnOrder(TaskList(members), TaskList(others))
    ensures |cfg.jobs| == |ControlOf(r).tasks| == |ControlOf(u).tasks| && KeepsOwnOrder(cfg, ControlOf(r), ControlOf(u))
  {
    var list, list' := TaskList(members), TaskList(others);
    hide TaskList, RunsFirst, Before;
    forall i, j | 0 <= i < |r.tasks| && 0 <= j < |r.tasks| && cfg.jobs[i].who.owner == cfg.jobs[j].who.owner
      ensures Before(ControlOf(r), RunTask(i), RunTask(j)) <==> Before(ControlOf(u), RunTask(i), RunTask(j))
    {
      assert list[i].0 == list[j].0;
      DeclaresItself(ControlOf(r));
      DeclaresItself(ControlOf(u));
      ListedAhead(r, list, members, duration, ControlOf(r), i, j);
      ListedAhead(u, list', others, duration, ControlOf(u), i, j);
    }
  }

  lemma RostersReprioritised(r: Roster, u: Roster)
    requires SameRosters(r, u)
    ensures Reprioritised(ControlOf(r), ControlOf(u))
  {
  }

  // ----- The theorem ----------------------------------------------------------------------------------------------

  /** What a manifest has to promise for its priorities not to matter. */
  ghost predicate OrderFree(members: seq<Member>, specs: seq<ChannelSpec>, merging: set<nat>) {
    Accepted(members, |specs|) && NoFeedthrough(members, specs) && HearsOne(members, merging)
    && OthersNeverMerge(members, merging)
  }

  lemma FirstSetting(members: seq<Member>, duration: u64, specs: seq<ChannelSpec>, plans: seq<seq<Step>>, patience: nat,
                     merging: set<nat>)
    requires OrderFree(members, specs, merging) && |plans| == |specs|
    ensures var cfg, w := FirstConfig(members, duration, specs, patience), FirstWorld(members, duration, specs, plans);
      var voice := ch => VoiceOf(members, ch);
      && Cast(cfg, w.control, voice) && Delayed(cfg, w.control, w.bus) && OneVoice(w.bus, merging, voice)
      && MergersAre(cfg, merging)
  {
    var cfg, w := FirstConfig(members, duration, specs, patience), FirstWorld(members, duration, specs, plans);
    var r := Roll(members, duration, specs);
    assert members[..|members|] == members;
    RollListed(members, duration, specs, |members|);
    RollManned(members, duration, specs, |members|);
    RollRoutes(members, duration, specs, |members|);
    AcceptedCast(members, duration, specs, plans, patience);
    hide Roll, Listed, Manned, AllRoutes, NoFeedthrough, HearsOne, OthersNeverMerge, Cast, Delayed, OneVoice;
    hide MergersAre, Accepted;
    RosterDelayed(r, cfg, members, duration, specs, w.bus);
    RosterOneVoice(r, members, specs, w.bus, merging);
    RosterMergers(r, cfg, members, duration, merging);
  }

  lemma FirstTwins(members: seq<Member>, others: seq<Member>, duration: u64, specs: seq<ChannelSpec>,
                   plans: seq<seq<Step>>, patience: nat)
    requires AllSound(members, |specs|) && AllSound(others, |specs|) && |plans| == |specs|
    requires SameButPriorities(members, others) && SameOwnOrder(TaskList(members), TaskList(others))
    ensures var cfg, w := FirstConfig(members, duration, specs, patience), FirstWorld(members, duration, specs, plans);
      var u := FirstWorld(others, duration, specs, plans);
      && FirstConfig(others, duration, specs, patience) == cfg
      && Ready(cfg, w) && Ready(cfg, u) && Wired(cfg, w) && Wired(cfg, u) && w.bus == u.bus && w.memories == u.memories
      && Reprioritised(w.control, u.control) && KeepsOwnOrder(cfg, w.control, u.control)
  {
    var r, u := Roll(members, duration, specs), Roll(others, duration, specs);
    SameRolls(members, others, duration, specs);
    FirstFacts(members, duration, specs, plans, patience);
    FirstFacts(others, duration, specs, plans, patience);
    hide Roll, Listed, Ready, SameButPriorities, SameOwnOrder, TaskList, Reprioritised, KeepsOwnOrder;
    hide Agreement, InLoop;
    RostersReprioritised(r, u);
    RosterOwnOrder(r, u, FirstConfig(members, duration, specs, patience), members, others, duration);
  }

  /** Two manifests that differ in priorities only. The first is accepted, has no latency-zero
      subscription to a published channel, and its merging participants each subscribe to one
      publisher's channels. If its run neither fails nor crowds a queue, then the run of the
      other ends unfailed with the same memories, task and replayer states, messages on every
      route and Recording publisher by publisher, exactly when it crowds no queue either. */
  lemma PrioritiesAreFree(members: seq<Member>, others: seq<Member>, duration: u64, specs: seq<ChannelSpec>,
                          plans: seq<seq<Step>>,
                          patience: nat, merging: set<nat>, n: nat)
    requires OrderFree(members, specs, merging) && |plans| == |specs|
    requires SameButPriorities(members, others) && SameOwnOrder(TaskList(members), TaskList(others))
    requires var cfg, w := FirstConfig(members, duration, specs, patience), FirstWorld(members, duration, specs, plans);
      Wired(cfg, w) && !Run(cfg, w, n).failed && !CrowdedRun(cfg, w, n) && Run(cfg, w, n).bus.published <= TWO64
    ensures AllSound(others, |specs|)
    ensures var cfg, w := FirstConfig(members, duration, specs, patience), FirstWorld(members, duration, specs, plans);
      var u := FirstWorld(others, duration, specs, plans);
      && Wired(cfg, u)
      && (!CrowdedRun(cfg, u, n)
          <==> !Run(cfg, u, n).failed && WorldLike(Run(cfg, w, n), Run(cfg, u, n), ch => VoiceOf(members, ch)))
  {
    assert AllSound(members, |specs|);
    SameSound(members, others, |specs|);
    hide *;
    var cfg, w := FirstConfig(members, duration, specs, patience), FirstWorld(members, duration, specs, plans);
    var u := FirstWorld(others, duration, specs, plans);
    FirstSetting(members, duration, specs, plans, patience, merging);
    FirstTwins(members, others, duration, specs, plans, patience);
    SameIsSame(w.memories, u.memories);
    RunUnderTwoPriorities(cfg, w, u, n, merging, ch => VoiceOf(members, ch));
  }

  lemma SameIsSame(a: map<nat, Memory>, b: map<nat, Memory>)
    requires a == b
    ensures SameMemories(a, b)
  {
  }
}
