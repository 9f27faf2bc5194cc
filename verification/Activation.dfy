// One participant callback. A participant is any deterministic program: given the
// time, its memory at the start of the callback and the replies so far, it says
// what it calls next.

module Activation {
  import opened VirtualTime
  import opened DataPlane
  import opened Merge

  type Memory = seq<int>

  function MemoryOf(memories: map<nat, Memory>, owner: nat): Memory {
    if owner in memories then memories[owner] else []
  }

  datatype StepInput = StepInput(channel: nat, time: u64, bytes: seq<byte>)

  datatype Reply =
    | Published
    | NothingVisible
    | Taken(time: u64, bytes: seq<byte>)
    | Inputs(inputs: seq<StepInput>)

  datatype Call =
    | CallTake(route: nat)
    | CallTakeAll // the merge a Process participant opens its Step with
    | CallPublish(channel: nat, bytes: seq<byte>)
    | CallReturn(memory: Memory)
    | CallAbort // Engine::fail

  type Program = (u64, Memory, seq<Reply>) -> Call

  // A participant as the Manifest declares it: the channels it may publish.
  datatype Caller = Caller(owner: nat, outputs: set<nat>)

  datatype Outcome = Finished(bus: Bus, memory: Memory) | Failed(bus: Bus)

  function Described(routes: seq<Route>, inputs: seq<Input>): seq<StepInput> {
    if inputs == [] then []
    else
      var i := inputs[0];
      [StepInput(if i.route < |routes| then routes[i.route].channel else 0, i.msg.time, i.msg.bytes)]
      + Described(routes, inputs[1..])
  }

  /** One call of the callback: the bus after it and the reply, or a failure. */
  function Answer(b: Bus, duration: u64, now: u64, who: Caller, call: Call): (Bus, Option<Reply>) {
    match call
    case CallTake(k) =>
      if k >= |b.routes| || b.routes[k].owner != who.owner then (b, None)
      else
        var (b', m) := Take(b, now, k);
        (b', Some(if m.Some? then Taken(m.value.time, m.value.bytes) else NothingVisible))
    case CallTakeAll =>
      var (routes, inputs) := MergeVisible(b.routes, who.owner, now);
      (b.(routes := routes), Some(Inputs(Described(b.routes, inputs))))
    case CallPublish(ch, bytes) =>
      if ch !in who.outputs then (b, None)
      else
        var (b', ok) := Publish(b, duration, now, ch, bytes);
        (b', if ok then Some(Published) else None)
    case CallReturn(_) => (b, None)
    case CallAbort => (b, None)
  }

  /** The callback, call by call. A callback that has not returned after
      `patience` calls counts as failed: it is one the source never returns from. */
  function Activate(b: Bus, duration: u64, now: u64, who: Caller, program: Program,
                    memory: Memory, replies: seq<Reply>, patience: nat): Outcome
    decreases patience
  {
    var call := program(now, memory, replies);
    if call.CallReturn? then Finished(b, call.memory)
    else
      var (b', reply) := Answer(b, duration, now, who, call);
      if reply.None? || patience == 0 then Failed(b')
      else Activate(b', duration, now, who, program, memory, replies + [reply.value], patience - 1)
  }

  // ----- What a callback keeps ------------------------------------------------

  lemma {:induction false} MergeKeepsAgreement(b: Bus, owner: nat, now: u64)
    requires Agreement(b)
    ensures Agreement(b.(routes := MergeVisible(b.routes, owner, now).0))
  {
    var b' := b.(routes := MergeVisible(b.routes, owner, now).0);
    forall k | 0 <= k < |b'.routes|
      ensures RouteAgrees(b'.routes[k], Stream(b'.recording, b'.routes[k].channel))
    {
      MergeTakesReleasedPrefixes(b.routes, owner, now, k);
      var r := b.routes[k];
      var n := Share(r, owner, now);
      assert r.taken + r.pending[..n] + r.pending[n..] == r.taken + r.pending;
      assert RouteAgrees(r, Stream(b.recording, r.channel));
    }
  }

  lemma AnswerKeepsAgreement(b: Bus, duration: u64, now: u64, who: Caller, call: Call)
    requires Agreement(b) && Answer(b, duration, now, who, call).1.Some?
    ensures Agreement(Answer(b, duration, now, who, call).0)
  {
    match call
    case CallTake(k) => TakeKeepsAgreement(b, now, k);
    case CallTakeAll => MergeKeepsAgreement(b, who.owner, now);
    case CallPublish(ch, bytes) => PublishKeepsAgreement(b, duration, now, ch, bytes);
  }

  /** Whatever the program, a finished callback leaves Recording and subscribers in agreement. */
  lemma {:induction false} ActivateKeepsAgreement(b: Bus, duration: u64, now: u64, who: Caller, program: Program,
                                                  memory: Memory, replies: seq<Reply>, patience: nat)
    requires Agreement(b)
    requires Activate(b, duration, now, who, program, memory, replies, patience).Finished?
    ensures Agreement(Activate(b, duration, now, who, program, memory, replies, patience).bus)
    decreases patience
  {
    var call := program(now, memory, replies);
    if call.CallReturn? {
    } else {
      var (b', reply) := Answer(b, duration, now, who, call);
      AnswerKeepsAgreement(b, duration, now, who, call);
      ActivateKeepsAgreement(b', duration, now, who, program, memory, replies + [reply.value], patience - 1);
    }
  }
}
