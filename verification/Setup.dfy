// What `Engine::setup` makes of a manifest: its participants, in name order, register their
// routes, tasks and recordings. A participant is known by its place in the manifest.

module Setup {
  import opened VirtualTime
  import opened Interceptor
  import opened DataPlane
  import opened Activation
  import opened Schedule
  import opened Engine
  import Manifest

  datatype ChannelSpec = ChannelSpec(size: nat, latency: Option<u64>)

  datatype TaskSpec = TaskSpec(period: u64, offset: u64, priority: int, program: Program)

  datatype RouteSpec = RouteSpec(channel: nat, capacity: Option<nat>, overflow: Overflow)

  // A Process participant has one task, its Step, at offset 0; a native one registers its own.
  datatype Role =
    | Actor(publishes: seq<nat>, routes: seq<RouteSpec>, tasks: seq<TaskSpec>)
    | Replay(channels: seq<nat>, stored: seq<Stored>, placed: Option<int>)

  datatype Member = Member(name: string, role: Role)

  // ----- What is refused --------------------------------------------------------------------------------

  function Outputs(role: Role): seq<nat> {
    match role
    case Actor(publishes, _, _) => publishes
    case Replay(channels, _, _) => channels
  }

  /** The manifest as the one-publisher check reads it. */
  function Publishers(members: seq<Member>): (ps: seq<Manifest.Participant<nat>>)
    ensures |ps| == |members|
    ensures forall i :: 0 <= i < |ps| ==> ps[i] == Manifest.Participant(members[i].name, Outputs(members[i].role))
  {
    seq(|members|, i requires 0 <= i < |members| => Manifest.Participant(members[i].name, Outputs(members[i].role)))
  }

  predicate OnePublisher(members: seq<Member>) {
    Manifest.NoRepeats(Manifest.Declared(Publishers(members)))
  }

  predicate RoutesKnown(routes: seq<RouteSpec>, channels: nat) {
    forall i :: 0 <= i < |routes| ==> routes[i].channel < channels
  }

  predicate Periodic(tasks: seq<TaskSpec>) {
    forall i :: 0 <= i < |tasks| ==> tasks[i].period > 0
  }

  /** A participant setup does not refuse. */
  predicate Sound(m: Member, channels: nat) {
    m.role.Actor? ==> RoutesKnown(m.role.routes, channels) && Periodic(m.role.tasks)
  }

  predicate AllSound(members: seq<Member>, channels: nat) {
    forall i :: 0 <= i < |members| ==> Sound(members[i], channels)
  }

  predicate Accepted(members: seq<Member>, channels: nat) {
    OnePublisher(members) && AllSound(members, channels)
  }

  // ----- What is registered --------------------------------------------------------------------------------

  function ChannelSet(channels: seq<nat>): set<nat> {
    set ch | ch in channels
  }

  /** Everything registered so far, and the next registration index. */
  datatype Roster = Roster(tasks: seq<Task>, jobs: seq<Job>, replayers: seq<Replayer>, routes: seq<Route>, next: nat)

  const EMPTY_ROSTER: Roster := Roster([], [], [], [], 0)

  function EnrolTask(r: Roster, t: TaskSpec, who: Caller, duration: u64): Roster
    requires t.period > 0
  {
    r.(tasks := r.tasks + [NewTask(t.offset, t.period, t.priority, r.next, duration)],
       jobs := r.jobs + [Job(who, t.program)], next := r.next + 1)
  }

  function EnrolTasks(r: Roster, ts: seq<TaskSpec>, who: Caller, duration: u64): Roster
    requires Periodic(ts)
  {
    if ts == [] then r
    else EnrolTask(EnrolTasks(r, ts[..|ts| - 1], who, duration), ts[|ts| - 1], who, duration)
  }

  function EmptyRoute(rt: RouteSpec, owner: nat, specs: seq<ChannelSpec>): Route
    requires rt.channel < |specs|
  {
    Route(owner, rt.channel, specs[rt.channel].latency, rt.capacity, rt.overflow, [], [], 0)
  }

  function EmptyRoutes(routes: seq<RouteSpec>, owner: nat, specs: seq<ChannelSpec>): (rs: seq<Route>)
    requires RoutesKnown(routes, |specs|)
    ensures |rs| == |routes| && forall i :: 0 <= i < |rs| ==> rs[i] == EmptyRoute(routes[i], owner, specs)
  {
    seq(|routes|, i requires 0 <= i < |routes| => EmptyRoute(routes[i], owner, specs))
  }

  function CallerOf(m: Member, owner: nat): Caller {
    Caller(owner, ChannelSet(Outputs(m.role)))
  }

  function EnrolReplay(r: Roster, role: Role, owner: nat, duration: u64): Roster
    requires role.Replay?
  {
    var replayer := Replayer(owner, ChannelSet(role.channels), role.stored, role.placed, r.next, 0);
    r.(replayers := r.replayers + [Skip(replayer, duration)], next := r.next + 1)
  }

  /** One participant, the `owner`-th of the manifest. */
  function Enrol(r: Roster, m: Member, owner: nat, duration: u64, specs: seq<ChannelSpec>): Roster
    requires Sound(m, |specs|)
  {
    match m.role
    case Actor(_, routes, tasks) =>
      EnrolTasks(r.(routes := r.routes + EmptyRoutes(routes, owner, specs)), tasks, CallerOf(m, owner), duration)
    case Replay(_, _, _) => EnrolReplay(r, m.role, owner, duration)
  }

  /** All participants, in manifest order. */
  function Roll(members: seq<Member>, duration: u64, specs: seq<ChannelSpec>): Roster
    requires AllSound(members, |specs|)
  {
    if members == [] then EMPTY_ROSTER
    else
      var n := |members| - 1;
      Enrol(Roll(members[..n], duration, specs), members[n], n, duration, specs)
  }

  // ----- The engine before its first slot ----------------------------------------------------------------------

  function NewChannels(specs: seq<ChannelSpec>, plans: seq<seq<Step>>): (cs: seq<Channel>)
    requires |plans| == |specs|
    ensures |cs| == |specs| && forall i :: 0 <= i < |cs| ==> cs[i] == Channel(specs[i].size, plans[i], 0)
  {
    seq(|specs|, i requires 0 <= i < |specs| == |plans| => Channel(specs[i].size, plans[i], 0))
  }

  function WorldOf(r: Roster, channels: seq<Channel>): World {
    World(Control(r.tasks, r.replayers, [], []), Bus(channels, r.routes, [], 0), map[], false)
  }

  /** The engine `setup` leaves: nothing has happened. */
  function FirstWorld(members: seq<Member>, duration: u64, specs: seq<ChannelSpec>, plans: seq<seq<Step>>): World
    requires AllSound(members, |specs|) && |plans| == |specs|
  {
    WorldOf(Roll(members, duration, specs), NewChannels(specs, plans))
  }

  function FirstConfig(members: seq<Member>, duration: u64, specs: seq<ChannelSpec>, patience: nat): Config
    requires AllSound(members, |specs|)
  {
    Config(duration, Roll(members, duration, specs).jobs, patience)
  }
}
