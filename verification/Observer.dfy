// The source-scope observer: any number of threads running `observe` concurrently,
// one atomic access to shared memory at a time, under sequential consistency.

module Observer {
  import opened VirtualTime

  datatype Mode = Dormant | Pending | Activating | Recording | Stopped

  datatype Op = Op(id: nat, edge: nat)

  // `number` is bookkeeping: which of its thread's observations made the record.
  datatype Record = Record(ns: u64, thread: nat, op: Op, number: nat)

  // Where a thread stands in `observe`: each name is the access it makes next.
  datatype Pc =
    | Outside
    | LoadMode
    | ClaimActivation // compare-exchange pending -> activating
    | CheckSession // the checks and the mapping of `activate`
    | MoveEarlyDrops // h->dropped_contended = exchange(early_drops, 0)
    | StartRecording // store mode := recording
    | ReloadMode
    | CountEarly
    | CountStopped
    | ReadClock
    | CountClockError
    | TryLock(ns: u64)
    | CountContended
    | LoadUsed(ns: u64)
    | WriteRecord(ns: u64, used: nat)
    | PublishRecord(ns: u64, used: nat)
    | CountFull
    | StopRecording
    | Unlock

  // One call of `observe`: what it was called with, and what the clock said in it.
  datatype Visit = Visit(op: Op, clock: Option<u64>)

  // `finished` counts completed observations, `ignored` those that met a dormant observer;
  // `calls` is bookkeeping: every call the thread made, in order.
  datatype Thread = Thread(pc: Pc, op: Op, started: nat, finished: nat, ignored: nat, calls: seq<Visit>)

  // `holder` and `starter` are bookkeeping: which thread took the lock, which one
  // won the activation.
  datatype Shared = Shared(
    mode: Mode, busy: bool, earlyDrops: nat, mapped: bool,
    slots: seq<Option<Record>>, records: nat,
    droppedFull: nat, droppedContended: nat, clockErrors: nat,
    holder: Option<nat>, starter: Option<nat>)

  datatype State = State(shared: Shared, threads: seq<Thread>)

  // What a step may meet: the next call, the clock's answer, the session's validity.
  datatype Choice = Choice(op: Op, clock: Option<u64>, accept: bool)

  /** The call returns; `ignored` when no session was there to observe it. */
  function Returned(th: Thread, ignored: bool): Thread {
    th.(pc := Outside, finished := th.finished + 1, ignored := th.ignored + if ignored then 1 else 0)
  }

  /** Where the mode just read sends the thread. */
  function Dispatch(mode: Mode, th: Thread, first: bool): Thread {
    match mode
    case Dormant => Returned(th, true)
    case Pending => if first then th.(pc := ClaimActivation) else Returned(th, true)
    case Activating => th.(pc := CountEarly)
    case Recording => th.(pc := ReadClock)
    case Stopped => th.(pc := CountStopped)
  }

  /** The clock's answer belongs to the latest call. */
  function Noted(calls: seq<Visit>, clock: Option<u64>): seq<Visit> {
    if calls == [] then [] else calls[|calls| - 1 := calls[|calls| - 1].(clock := clock)]
  }

  /** One atomic access by thread `t`. */
  function Move(s: Shared, th: Thread, t: nat, c: Choice): (Shared, Thread) {
    match th.pc
    case Outside =>
      (s, th.(pc := LoadMode, op := c.op, started := th.started + 1, calls := th.calls + [Visit(c.op, None)]))
    case LoadMode => (s, Dispatch(s.mode, th, true))
    case ClaimActivation =>
      if s.mode.Pending? then (s.(mode := Activating, starter := Some(t)), th.(pc := CheckSession))
      else (s, th.(pc := ReloadMode))
    case CheckSession =>
      if c.accept then (s, th.(pc := MoveEarlyDrops))
      else (s.(mode := Dormant, starter := None), th.(pc := ReloadMode))
    case MoveEarlyDrops =>
      (s.(droppedContended := s.earlyDrops, earlyDrops := 0, mapped := true), th.(pc := StartRecording))
    case StartRecording => (s.(mode := Recording, starter := None), th.(pc := ReloadMode))
    case ReloadMode => (s, Dispatch(s.mode, th, false))
    case CountEarly => (s.(earlyDrops := s.earlyDrops + 1), Returned(th, false))
    case CountStopped => (s.(droppedFull := s.droppedFull + 1), Returned(th, false))
    case ReadClock =>
      (s, th.(pc := if c.clock.Some? then TryLock(c.clock.value) else CountClockError,
              calls := Noted(th.calls, c.clock)))
    case CountClockError => (s.(clockErrors := s.clockErrors + 1), Returned(th, false))
    case TryLock(ns) =>
      if s.busy then (s, th.(pc := CountContended)) else (s.(busy := true, holder := Some(t)), th.(pc := LoadUsed(ns)))
    case CountContended => (s.(droppedContended := s.droppedContended + 1), Returned(th, false))
    case LoadUsed(ns) => (s, th.(pc := if s.records < |s.slots| then WriteRecord(ns, s.records) else CountFull))
    case WriteRecord(ns, used) =>
      (if used < |s.slots| then s.(slots := s.slots[used := Some(Record(ns, t, th.op, th.started))]) else s,
       th.(pc := PublishRecord(ns, used)))
    case PublishRecord(ns, used) => (s.(records := used + 1), th.(pc := Unlock))
    case CountFull => (s.(droppedFull := s.droppedFull + 1), th.(pc := StopRecording))
    case StopRecording => (s.(mode := Stopped), th.(pc := Unlock))
    case Unlock => (s.(busy := false, holder := None), Returned(th, false))
  }

  function Step(s: State, t: nat, c: Choice): State {
    if t >= |s.threads| then s
    else
      var (shared, th) := Move(s.shared, s.threads[t], t, c);
      State(shared, s.threads[t := th])
  }

  /** Any interleaving: which thread moves next, and what it meets. */
  function Execute(s: State, schedule: seq<(nat, Choice)>): State
    decreases |schedule|
  {
    if schedule == [] then s else Execute(Step(s, schedule[0].0, schedule[0].1), schedule[1..])
  }

  /** Loaded, before any call. */
  ghost predicate Loaded(s: State) {
    && (s.shared.mode.Pending? || s.shared.mode.Dormant?)
    && s.shared == Shared(s.shared.mode, false, 0, false, s.shared.slots, 0, 0, 0, 0, None, None)
    && (forall t :: 0 <= t < |s.threads| ==> s.threads[t] == Thread(Outside, s.threads[t].op, 0, 0, 0, []))
  }

  // ----- The invariant ---------------------------------------------------------------

  /** In the section guarded by the try-lock. */
  predicate Holding(pc: Pc) {
    pc.LoadUsed? || pc.WriteRecord? || pc.PublishRecord? || pc.CountFull? || pc.StopRecording? || pc.Unlock?
  }

  /** In `activate`. */
  predicate Starting(pc: Pc) {
    pc.CheckSession? || pc.MoveEarlyDrops? || pc.StartRecording?
  }

  /** About to go through the mapping, or on the way to it. */
  predicate NeedsMapping(pc: Pc) {
    Holding(pc) || pc.CountStopped? || pc.ReadClock? || pc.CountClockError? || pc.TryLock? || pc.CountContended?
  }

  function Counters(s: Shared): nat {
    s.records + s.droppedFull + s.droppedContended + s.clockErrors + s.earlyDrops
  }

  ghost predicate BufferOk(s: Shared) {
    && s.records <= |s.slots|
    && (forall i :: 0 <= i < s.records ==> s.slots[i].Some?)
    && (forall i, j :: 0 <= i < j < s.records && s.slots[i].value.thread == s.slots[j].value.thread ==>
          s.slots[i].value.number < s.slots[j].value.number)
  }

  ghost predicate SharedOk(s: Shared) {
    && (s.busy <==> s.holder.Some?)
    && (s.starter.Some? ==> s.mode.Activating?)
    && (s.mode.Pending? ==> !s.mapped)
    && (s.mode.Recording? || s.mode.Stopped? ==> s.mapped && s.starter.None?)
    && (!s.mapped ==> s.droppedFull == 0 && s.droppedContended == 0 && s.clockErrors == 0 && s.records == 0)
    && BufferOk(s)
  }

  /** A number this thread may already have published. */
  predicate Past(th: Thread, number: nat) {
    number < th.started || (number == th.started && (th.pc.Outside? || th.pc.Unlock?))
  }

  ghost predicate OwnRecordsPast(s: Shared, th: Thread, t: nat) {
    forall i :: 0 <= i < s.records && i < |s.slots| && s.slots[i].Some? && s.slots[i].value.thread == t ==>
      Past(th, s.slots[i].value.number)
  }

  ghost predicate LocalOk(s: Shared, th: Thread, t: nat) {
    && (Holding(th.pc) <==> s.holder == Some(t))
    && (Starting(th.pc) <==> s.starter == Some(t))
    && (th.pc.CheckSession? || th.pc.MoveEarlyDrops? ==> !s.mapped)
    && (th.pc.StartRecording? ==> s.mapped)
    && (NeedsMapping(th.pc) ==> s.mapped && s.starter.None?)
    && (th.pc.WriteRecord? ==> th.pc.used == s.records < |s.slots|)
    && (th.pc.PublishRecord? ==>
          th.pc.used == s.records < |s.slots| && s.slots[s.records] == Some(Record(th.pc.ns, t, th.op, th.started)))
    && (th.pc.CountFull? || th.pc.StopRecording? ==> s.records == |s.slots|)
    && th.ignored <= th.finished <= th.started
    && (!th.pc.Outside? ==> th.finished < th.started)
  }

  lemma MoveKeepsShared(s: Shared, th: Thread, t: nat, c: Choice)
    requires SharedOk(s) && LocalOk(s, th, t) && OwnRecordsPast(s, th, t)
    ensures SharedOk(Move(s, th, t, c).0)
  {
  }

  lemma LockedMoveKeepsOwn(s: Shared, th: Thread, t: nat, c: Choice)
    requires SharedOk(s) && LocalOk(s, th, t) && Holding(th.pc)
    ensures LocalOk(Move(s, th, t, c).0, Move(s, th, t, c).1, t)
  {
  }

  lemma StartingMoveKeepsOwn(s: Shared, th: Thread, t: nat, c: Choice)
    requires SharedOk(s) && LocalOk(s, th, t) && Starting(th.pc)
    ensures LocalOk(Move(s, th, t, c).0, Move(s, th, t, c).1, t)
  {
  }

  lemma FreeMoveKeepsOwn(s: Shared, th: Thread, t: nat, c: Choice)
    requires SharedOk(s) && LocalOk(s, th, t) && !Holding(th.pc) && !Starting(th.pc)
    ensures LocalOk(Move(s, th, t, c).0, Move(s, th, t, c).1, t)
  {
    hide BufferOk;
  }

  /** The thread that moved. */
  lemma MoveKeepsOwn(s: Shared, th: Thread, t: nat, c: Choice)
    requires SharedOk(s) && LocalOk(s, th, t)
    ensures LocalOk(Move(s, th, t, c).0, Move(s, th, t, c).1, t)
  {
    hide *;
    if Holding(th.pc) {
      LockedMoveKeepsOwn(s, th, t, c);
    } else if Starting(th.pc) {
      StartingMoveKeepsOwn(s, th, t, c);
    } else {
      FreeMoveKeepsOwn(s, th, t, c);
    }
  }

  lemma MoveKeepsOwnPast(s: Shared, th: Thread, t: nat, c: Choice)
    requires SharedOk(s) && LocalOk(s, th, t) && OwnRecordsPast(s, th, t)
    ensures OwnRecordsPast(Move(s, th, t, c).0, Move(s, th, t, c).1, t)
  {
  }

  /** A thread that stood still. */
  lemma MoveKeepsOther(s: Shared, th: Thread, t: nat, c: Choice, other: Thread, u: nat)
    requires SharedOk(s) && LocalOk(s, th, t) && LocalOk(s, other, u) && t != u
    ensures LocalOk(Move(s, th, t, c).0, other, u)
    ensures OwnRecordsPast(s, other, u) ==> OwnRecordsPast(Move(s, th, t, c).0, other, u)
  {
  }

  /** A published record never changes and is never withdrawn. */
  lemma MoveKeepsRecords(s: Shared, th: Thread, t: nat, c: Choice)
    requires SharedOk(s) && LocalOk(s, th, t)
    ensures s.records <= Move(s, th, t, c).0.records
    ensures |Move(s, th, t, c).0.slots| == |s.slots|
    ensures Move(s, th, t, c).0.slots[..s.records] == s.slots[..s.records]
  {
  }

  /** An observation adds to one counter, and does so once. */
  function Settled(th: Thread): int {
    th.finished - th.ignored + if th.pc.StopRecording? || th.pc.Unlock? then 1 else 0
  }

  ghost predicate CountsOnce(s: Shared, th: Thread, t: nat, c: Choice) {
    Counters(Move(s, th, t, c).0) - Counters(s) == Settled(Move(s, th, t, c).1) - Settled(th)
  }

  lemma LockedMoveCountsOnce(s: Shared, th: Thread, t: nat, c: Choice)
    requires SharedOk(s) && LocalOk(s, th, t) && Holding(th.pc)
    ensures CountsOnce(s, th, t, c)
  {
    hide BufferOk;
  }

  lemma FreeMoveCountsOnce(s: Shared, th: Thread, t: nat, c: Choice)
    requires SharedOk(s) && LocalOk(s, th, t) && !Holding(th.pc)
    ensures CountsOnce(s, th, t, c)
  {
    hide BufferOk;
  }

  lemma MoveCountsOnce(s: Shared, th: Thread, t: nat, c: Choice)
    requires SharedOk(s) && LocalOk(s, th, t)
    ensures CountsOnce(s, th, t, c)
  {
    hide *;
    if Holding(th.pc) { LockedMoveCountsOnce(s, th, t, c); } else { FreeMoveCountsOnce(s, th, t, c); }
  }

  // ----- What a record says -------------------------------------------------------------

  /** The clock value a thread carries. */
  function Carried(pc: Pc): Option<u64> {
    match pc
    case TryLock(ns) => Some(ns)
    case LoadUsed(ns) => Some(ns)
    case WriteRecord(ns, _) => Some(ns)
    case PublishRecord(ns, _) => Some(ns)
    case _ => None
  }

  /** A thread works on its latest call, with the clock value it read in it. */
  ghost predicate OnLatestCall(th: Thread) {
    && |th.calls| == th.started
    && (!th.pc.Outside? ==> th.started > 0 && th.calls[th.started - 1].op == th.op)
    && (Carried(th.pc).Some? ==> th.started > 0 && th.calls[th.started - 1].clock == Carried(th.pc))
  }

  lemma MoveKeepsLatest(s: Shared, th: Thread, t: nat, c: Choice)
    requires OnLatestCall(th)
    ensures OnLatestCall(Move(s, th, t, c).1)
  {
  }

  /** The record is the `number`-th call of its thread, with a clock value read in that call. */
  ghost predicate TellsCall(r: Record, calls: seq<Visit>) {
    1 <= r.number <= |calls| && calls[r.number - 1] == Visit(r.op, Some(r.ns))
  }

  lemma MoveKeepsCalls(s: Shared, th: Thread, t: nat, c: Choice, r: Record)
    requires OnLatestCall(th) && Past(th, r.number) && TellsCall(r, th.calls)
    ensures TellsCall(r, Move(s, th, t, c).1.calls)
  {
  }

  ghost predicate OwnRecordsTell(s: Shared, th: Thread, t: nat) {
    forall i :: 0 <= i < s.records && i < |s.slots| && s.slots[i].Some? && s.slots[i].value.thread == t ==>
      TellsCall(s.slots[i].value, th.calls)
  }

  lemma PublishTells(s: Shared, th: Thread, t: nat, c: Choice)
    requires SharedOk(s) && LocalOk(s, th, t) && OnLatestCall(th) && OwnRecordsTell(s, th, t) && th.pc.PublishRecord?
    ensures OwnRecordsTell(Move(s, th, t, c).0, Move(s, th, t, c).1, t)
  {
    assert TellsCall(Record(th.pc.ns, t, th.op, th.started), th.calls);
  }

  lemma QuietMoveTells(s: Shared, th: Thread, t: nat, c: Choice)
    requires SharedOk(s) && LocalOk(s, th, t) && OnLatestCall(th) && OwnRecordsPast(s, th, t)
    requires OwnRecordsTell(s, th, t)
    requires !th.pc.PublishRecord?
    ensures OwnRecordsTell(Move(s, th, t, c).0, Move(s, th, t, c).1, t)
  {
    var (s', th') := Move(s, th, t, c);
    assert s'.records == s.records && |s'.slots| == |s.slots|;
    forall i | 0 <= i < s'.records && i < |s'.slots| && s'.slots[i].Some? && s'.slots[i].value.thread == t
      ensures TellsCall(s'.slots[i].value, th'.calls)
    {
      assert s'.slots[i] == s.slots[i];
      hide Move;
      MoveKeepsCalls(s, th, t, c, s.slots[i].value);
    }
  }

  lemma MoveTells(s: Shared, th: Thread, t: nat, c: Choice)
    requires SharedOk(s) && LocalOk(s, th, t) && OnLatestCall(th) && OwnRecordsPast(s, th, t)
    requires OwnRecordsTell(s, th, t)
    ensures OwnRecordsTell(Move(s, th, t, c).0, Move(s, th, t, c).1, t)
  {
    hide *;
    if th.pc.PublishRecord? { PublishTells(s, th, t, c); } else { QuietMoveTells(s, th, t, c); }
  }

  lemma OtherMoveTells(s: Shared, th: Thread, t: nat, c: Choice, other: Thread, u: nat)
    requires SharedOk(s) && LocalOk(s, th, t) && t != u && OwnRecordsTell(s, other, u)
    ensures OwnRecordsTell(Move(s, th, t, c).0, other, u)
  {
  }

  /** Every record was made by one of the threads. */
  ghost predicate RecordsOwned(s: Shared, threads: nat) {
    forall i :: 0 <= i < s.records && i < |s.slots| && s.slots[i].Some? ==> s.slots[i].value.thread < threads
  }

  lemma MoveKeepsOwned(s: Shared, th: Thread, t: nat, c: Choice, threads: nat)
    requires SharedOk(s) && LocalOk(s, th, t) && RecordsOwned(s, threads) && t < threads
    ensures RecordsOwned(Move(s, th, t, c).0, threads)
  {
  }

  ghost predicate Truthful(s: State) {
    && RecordsOwned(s.shared, |s.threads|)
    && (forall t :: 0 <= t < |s.threads| ==> OnLatestCall(s.threads[t]))
    && (forall t :: 0 <= t < |s.threads| ==> OwnRecordsTell(s.shared, s.threads[t], t))
  }

  lemma StepKeepsTruth(s: State, t: nat, c: Choice)
    requires Inv(s) && Truthful(s)
    ensures Truthful(Step(s, t, c))
  {
    hide Move, SharedOk, LocalOk, OwnRecordsPast, OnLatestCall, OwnRecordsTell, RecordsOwned;
    if t < |s.threads| {
      var (shared, th) := Move(s.shared, s.threads[t], t, c);
      MoveKeepsLatest(s.shared, s.threads[t], t, c);
      MoveTells(s.shared, s.threads[t], t, c);
      MoveKeepsOwned(s.shared, s.threads[t], t, c, |s.threads|);
      forall u | 0 <= u < |s.threads| && u != t ensures OwnRecordsTell(shared, s.threads[u], u) {
        OtherMoveTells(s.shared, s.threads[t], t, c, s.threads[u], u);
      }
    }
  }

  lemma {:induction false} ExecuteKeepsTruth(s: State, schedule: seq<(nat, Choice)>)
    requires Inv(s) && Truthful(s)
    ensures Truthful(Execute(s, schedule))
    decreases |schedule|
  {
    hide Step, Inv, Truthful;
    if schedule == [] {
    } else {
      StepKeepsInv(s, schedule[0].0, schedule[0].1);
      StepKeepsTruth(s, schedule[0].0, schedule[0].1);
      ExecuteKeepsTruth(Step(s, schedule[0].0, schedule[0].1), schedule[1..]);
    }
  }

  // ----- Every interleaving -------------------------------------------------------------

  ghost predicate Inv(s: State) {
    && SharedOk(s.shared)
    && (forall t :: 0 <= t < |s.threads| ==> LocalOk(s.shared, s.threads[t], t))
    && (forall t :: 0 <= t < |s.threads| ==> OwnRecordsPast(s.shared, s.threads[t], t))
  }

  lemma StepKeepsInv(s: State, t: nat, c: Choice)
    requires Inv(s)
    ensures Inv(Step(s, t, c))
  {
    hide Move, SharedOk, LocalOk, OwnRecordsPast;
    if t < |s.threads| {
      var (shared, th) := Move(s.shared, s.threads[t], t, c);
      MoveKeepsShared(s.shared, s.threads[t], t, c);
      MoveKeepsOwn(s.shared, s.threads[t], t, c);
      MoveKeepsOwnPast(s.shared, s.threads[t], t, c);
      forall u | 0 <= u < |s.threads| && u != t
        ensures LocalOk(shared, s.threads[u], u) && OwnRecordsPast(shared, s.threads[u], u)
      {
        MoveKeepsOther(s.shared, s.threads[t], t, c, s.threads[u], u);
      }
    }
  }

  lemma {:induction false} ExecuteKeepsInv(s: State, schedule: seq<(nat, Choice)>)
    requires Inv(s)
    ensures Inv(Execute(s, schedule))
    decreases |schedule|
  {
    hide Step, Inv;
    if schedule == [] {
    } else {
      StepKeepsInv(s, schedule[0].0, schedule[0].1);
      ExecuteKeepsInv(Step(s, schedule[0].0, schedule[0].1), schedule[1..]);
    }
  }

  lemma LoadedInv(s: State)
    requires Loaded(s)
    ensures Inv(s)
  {
  }

  /** In every reachable state at most one thread is in the locked section, the
      buffer is never overrun, nothing goes through the mapping before it exists,
      each thread's records stand in the order of its calls, and every record tells the call
      it was made in and a clock value read in that call. */
  lemma Safety(s: State, schedule: seq<(nat, Choice)>)
    requires Loaded(s)
    ensures var r := Execute(s, schedule);
      && (forall t, u ::
            (0 <= t < |r.threads| && 0 <= u < |r.threads| && Holding(r.threads[t].pc) && Holding(r.threads[u].pc))
            ==> t == u)
      && (forall t :: 0 <= t < |r.threads| && NeedsMapping(r.threads[t].pc) ==> r.shared.mapped)
      && BufferOk(r.shared)
      && forall i :: 0 <= i < r.shared.records ==> TellsOf(r.shared.slots[i].value, r.threads)
  {
    hide Execute;
    LoadedInv(s);
    ExecuteKeepsInv(s, schedule);
    ExecuteKeepsTruth(s, schedule);
    var r := Execute(s, schedule);
    forall i | 0 <= i < r.shared.records ensures TellsOf(r.shared.slots[i].value, r.threads) {
      assert r.shared.slots[i].Some?
             && OwnRecordsTell(r.shared, r.threads[r.shared.slots[i].value.thread], r.shared.slots[i].value.thread);
    }
    forall t | 0 <= t < |r.threads|
      ensures Holding(r.threads[t].pc) ==> r.shared.holder == Some(t)
      ensures NeedsMapping(r.threads[t].pc) ==> r.shared.mapped
    {
      assert LocalOk(r.shared, r.threads[t], t);
    }
  }

  /** A record tells a call of the thread it names. */
  ghost predicate TellsOf(r: Record, threads: seq<Thread>) {
    r.thread < |threads| && TellsCall(r, threads[r.thread].calls)
  }

  lemma StepKeepsRecords(s: State, t: nat, c: Choice)
    requires Inv(s)
    ensures var r := Step(s, t, c).shared;
      s.shared.records <= r.records && |r.slots| == |s.shared.slots|
      && s.shared.records <= |r.slots| && r.slots[..s.shared.records] == s.shared.slots[..s.shared.records]
  {
    hide Move;
    if t < |s.threads| { MoveKeepsRecords(s.shared, s.threads[t], t, c); }
  }

  /** What is published stays: no later step rewrites or withdraws a record. */
  lemma {:induction false} RecordsArePermanent(s: State, schedule: seq<(nat, Choice)>)
    requires Inv(s)
    ensures var r := Execute(s, schedule).shared;
      s.shared.records <= r.records && |r.slots| == |s.shared.slots|
      && s.shared.records <= |r.slots| && r.slots[..s.shared.records] == s.shared.slots[..s.shared.records]
    decreases |schedule|
  {
    hide Step, Inv;
    if schedule != [] {
      var next := Step(s, schedule[0].0, schedule[0].1);
      StepKeepsInv(s, schedule[0].0, schedule[0].1);
      StepKeepsRecords(s, schedule[0].0, schedule[0].1);
      RecordsArePermanent(next, schedule[1..]);
      var r := Execute(next, schedule[1..]).shared;
      assert r.slots[..s.shared.records] == r.slots[..next.shared.records][..s.shared.records];
      assert next.shared.slots[..s.shared.records] == next.shared.slots[..next.shared.records][..s.shared.records];
    } else {
      assert s.shared.records <= |s.shared.slots| by { BufferBound(s); }
    }
  }

  lemma BufferBound(s: State)
    requires Inv(s)
    ensures s.shared.records <= |s.shared.slots|
  {
  }

  // ----- Accounting -----------------------------------------------------------------------

  function TotalSettled(threads: seq<Thread>): int {
    if threads == [] then 0 else Settled(threads[0]) + TotalSettled(threads[1..])
  }

  lemma {:induction false} TotalUpdate(threads: seq<Thread>, t: nat, th: Thread)
    requires t < |threads|
    ensures TotalSettled(threads[t := th]) == TotalSettled(threads) + Settled(th) - Settled(threads[t])
    decreases |threads|
  {
    if t == 0 {
      assert threads[t := th][1..] == threads[1..];
    } else {
      assert threads[t := th][1..] == threads[1..][t - 1 := th];
      TotalUpdate(threads[1..], t - 1, th);
    }
  }

  ghost predicate Balanced(s: State) {
    TotalSettled(s.threads) == Counters(s.shared)
  }

  lemma StepKeepsBalance(s: State, t: nat, c: Choice)
    requires Inv(s) && Balanced(s)
    ensures Balanced(Step(s, t, c))
  {
    hide Move, Counters, Settled;
    if t < |s.threads| {
      var (shared, th) := Move(s.shared, s.threads[t], t, c);
      MoveCountsOnce(s.shared, s.threads[t], t, c);
      TotalUpdate(s.threads, t, th);
    }
  }

  lemma {:induction false} ExecuteKeepsBalance(s: State, schedule: seq<(nat, Choice)>)
    requires Inv(s) && Balanced(s)
    ensures Balanced(Execute(s, schedule))
    decreases |schedule|
  {
    hide Step, Inv, Balanced;
    if schedule == [] {
    } else {
      StepKeepsInv(s, schedule[0].0, schedule[0].1);
      StepKeepsBalance(s, schedule[0].0, schedule[0].1);
      ExecuteKeepsBalance(Step(s, schedule[0].0, schedule[0].1), schedule[1..]);
    }
  }

  /** Observations that met a live session. */
  function TotalObserved(threads: seq<Thread>): int {
    if threads == [] then 0 else threads[0].finished - threads[0].ignored + TotalObserved(threads[1..])
  }

  lemma {:induction false} SettledWhenOutside(threads: seq<Thread>)
    requires forall t :: 0 <= t < |threads| ==> threads[t].pc.Outside?
    ensures TotalSettled(threads) == TotalObserved(threads)
    decreases |threads|
  {
    if threads == [] {
    } else {
      SettledWhenOutside(threads[1..]);
    }
  }

  lemma {:induction false} LoadedTotal(threads: seq<Thread>)
    requires forall t :: 0 <= t < |threads| ==> threads[t].pc.Outside? && threads[t].finished == threads[t].ignored
    ensures TotalSettled(threads) == 0
    decreases |threads|
  {
    if threads == [] {
    } else {
      LoadedTotal(threads[1..]);
    }
  }

  /** Whenever no call is under way, every observation that met a session is counted
      exactly once: as a record, a loss, a clock error, or an early drop that came too
      late to be moved into the header. */
  lemma EveryObservationIsCounted(s: State, schedule: seq<(nat, Choice)>)
    requires Loaded(s)
    requires forall t :: 0 <= t < |Execute(s, schedule).threads| ==> Execute(s, schedule).threads[t].pc.Outside?
    ensures TotalObserved(Execute(s, schedule).threads) == Counters(Execute(s, schedule).shared)
  {
    hide Execute;
    LoadedInv(s);
    LoadedTotal(s.threads);
    ExecuteKeepsBalance(s, schedule);
    SettledWhenOutside(Execute(s, schedule).threads);
  }
}
