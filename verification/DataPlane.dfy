// Channels, subscriber routes and the Recording: what one publish and one take do to them, and
// how they stay in agreement.

module DataPlane {
  import opened VirtualTime
  import opened Interceptor

  datatype Overflow = FailRun | DropNewest

  datatype Msg = Msg(time: u64, globalSeq: u64, bytes: seq<byte>)

  // `taken` and `dropped` are bookkeeping: what the subscriber has been given and
  // how many messages the drop_newest policy refused.
  datatype Route = Route(
    owner: nat, channel: nat, latency: Option<u64>, capacity: Option<nat>, overflow: Overflow,
    pending: seq<Msg>, taken: seq<Msg>, dropped: nat)

  datatype Channel = Channel(size: nat, steps: seq<Step>, nextSeq: nat)

  datatype Record = Record(channel: nat, seqNo: nat, msg: Msg)

  // `published` counts publish calls without wrapping; the source's 64-bit
  // global_seq is its value modulo 2^64.
  datatype Bus = Bus(channels: seq<Channel>, routes: seq<Route>, recording: seq<Record>, published: nat)

  // ----- One route ----------------------------------------------------------

  /** A message has reached its visible instant. */
  predicate Released(latency: Option<u64>, m: Msg, now: u64) {
    match latency
    case None => m.time < now
    case Some(l) =>
      var visible := VirtualTimeAfter(m.time, l);
      visible.Some? && visible.value <= now
  }

  predicate VisibleAt(r: Route, now: u64) {
    r.pending != [] && Released(r.latency, r.pending[0], now)
  }

  function Popped(r: Route): Route
    requires r.pending != []
  {
    r.(pending := r.pending[1..], taken := r.taken + [r.pending[0]])
  }

  predicate Full(r: Route) {
    r.capacity.Some? && |r.pending| >= r.capacity.value
  }

  /** `push`, except that an overflow under the fail policy is left to Deliver. */
  function Pushed(r: Route, m: Msg): Route {
    if Full(r) then r.(dropped := r.dropped + 1) else r.(pending := r.pending + [m])
  }

  predicate Overflows(r: Route) {
    Full(r) && r.overflow.FailRun?
  }

  // ----- Publish and take ---------------------------------------------------

  /** Push to every route of the channel in subscription order, stopping at the
      first that overflows under the fail policy. */
  function Deliver(routes: seq<Route>, ch: nat, m: Msg): (r: (seq<Route>, bool))
    ensures |r.0| == |routes|
  {
    if routes == [] then ([], true)
    else if routes[0].channel == ch && Overflows(routes[0]) then (routes, false)
    else
      var (rest, ok) := Deliver(routes[1..], ch, m);
      ([if routes[0].channel == ch then Pushed(routes[0], m) else routes[0]] + rest, ok)
  }

  /** A message that survived its plan: number it, record it, deliver it. */
  function Accept(b: Bus, ch: nat, steps: seq<Step>, time: u64, bytes: seq<byte>): (Bus, bool)
    requires ch < |b.channels|
  {
    var c := b.channels[ch];
    var m := Msg(time, b.published % TWO64, bytes);
    var (routes, ok) := Deliver(b.routes, ch, m);
    (Bus(b.channels[ch := c.(steps := steps, nextSeq := (c.nextSeq + 1) % TWO32)],
         routes,
         b.recording + [Record(ch, c.nextSeq, m)],
         b.published + 1),
     ok)
  }

  /** `Engine::publish`; the flag is false where the source throws. */
  function Publish(b: Bus, duration: u64, now: u64, ch: nat, bytes: seq<byte>): (r: (Bus, bool)) {
    if ch >= |b.channels| || |bytes| != b.channels[ch].size then (b, false)
    else
      var c := b.channels[ch];
      var (steps, verdict) := Apply(c.steps, duration, now, bytes);
      if verdict.OutOfRange? then (b.(channels := b.channels[ch := c.(steps := steps)]), false)
      else if verdict.Suppressed? then
        (b.(channels := b.channels[ch := c.(steps := steps)], published := b.published + 1), true)
      else Accept(b, ch, steps, verdict.time, verdict.bytes)
  }

  /** `Engine::take`: the front of one route, when it is visible. */
  function Take(b: Bus, now: u64, k: nat): (r: (Bus, Option<Msg>))
    requires k < |b.routes|
  {
    if VisibleAt(b.routes[k], now)
    then (b.(routes := b.routes[k := Popped(b.routes[k])]), Some(b.routes[k].pending[0]))
    else (b, None)
  }

  // ----- Streams ------------------------------------------------------------

  /** What was recorded on one channel, in order. */
  function Stream(recording: seq<Record>, ch: nat): seq<Msg> {
    if recording == [] then []
    else
      var i := |recording| - 1;
      Stream(recording[..i], ch) + if recording[i].channel == ch then [recording[i].msg] else []
  }

  function SeqNos(recording: seq<Record>, ch: nat): seq<nat> {
    if recording == [] then []
    else
      var i := |recording| - 1;
      SeqNos(recording[..i], ch) + if recording[i].channel == ch then [recording[i].seqNo] else []
  }

  predicate Subsequence<T(==)>(a: seq<T>, b: seq<T>)
    decreases |b|
  {
    if a == [] then true
    else
      && b != []
      && ((a[|a| - 1] == b[|b| - 1] && Subsequence(a[..|a| - 1], b[..|b| - 1])) || Subsequence(a, b[..|b| - 1]))
  }

  lemma SubsequenceBoth<T>(a: seq<T>, b: seq<T>, x: T)
    requires Subsequence(a, b)
    ensures Subsequence(a + [x], b + [x])
  {
    assert (a + [x])[..|a|] == a && (b + [x])[..|b|] == b;
  }

  lemma SubsequenceRight<T>(a: seq<T>, b: seq<T>, x: T)
    requires Subsequence(a, b)
    ensures Subsequence(a, b + [x])
  {
    assert (b + [x])[..|b|] == b;
  }

  lemma {:induction false} SubsequenceLength<T>(a: seq<T>, b: seq<T>)
    requires Subsequence(a, b)
    ensures |a| <= |b|
    ensures |a| == |b| ==> a == b
    decreases |b|
  {
    if a == [] {
    } else {
      if a[|a| - 1] == b[|b| - 1] && Subsequence(a[..|a| - 1], b[..|b| - 1]) {
        SubsequenceLength(a[..|a| - 1], b[..|b| - 1]);
        assert a == a[..|a| - 1] + [a[|a| - 1]] && b == b[..|b| - 1] + [b[|b| - 1]];
      } else {
        SubsequenceLength(a, b[..|b| - 1]);
      }
    }
  }

  lemma {:induction false} SubsequenceMembers<T>(a: seq<T>, b: seq<T>)
    requires Subsequence(a, b)
    ensures forall x :: x in a ==> x in b
    decreases |b|
  {
    if a == [] {
    } else {
      if a[|a| - 1] == b[|b| - 1] && Subsequence(a[..|a| - 1], b[..|b| - 1]) {
        SubsequenceMembers(a[..|a| - 1], b[..|b| - 1]);
        assert a == a[..|a| - 1] + [a[|a| - 1]];
      } else {
        SubsequenceMembers(a, b[..|b| - 1]);
      }
    }
  }

  // ----- Recording and subscribers agree -------------------------------------

  /** One route against its channel's recorded stream. */
  ghost predicate RouteAgrees(r: Route, recorded: seq<Msg>) {
    && Subsequence(r.taken + r.pending, recorded)
    && |recorded| == |r.taken| + |r.pending| + r.dropped
    && (r.dropped > 0 ==> r.capacity.Some? && r.overflow.DropNewest?)
    && (r.capacity.Some? ==> |r.pending| <= r.capacity.value)
  }

  ghost predicate RoutesAgree(b: Bus) {
    forall k :: 0 <= k < |b.routes| ==> RouteAgrees(b.routes[k], Stream(b.recording, b.routes[k].channel))
  }

  /** Channel sequence numbers count 0, 1, 2, ... modulo 2^32. */
  ghost predicate Numbered(nos: seq<nat>) {
    forall i :: 0 <= i < |nos| ==> nos[i] == i % TWO32
  }

  ghost predicate ChannelsNumbered(b: Bus) {
    forall c :: 0 <= c < |b.channels| ==>
      && Numbered(SeqNos(b.recording, c))
      && b.channels[c].nextSeq == |SeqNos(b.recording, c)| % TWO32
  }

  /** Until global_seq wraps, the Recording is strictly increasing in it. */
  ghost predicate PublishOrder(b: Bus) {
    b.published <= TWO64 ==>
      && (forall i :: 0 <= i < |b.recording| ==> b.recording[i].msg.globalSeq < b.published)
      && (forall i, j :: 0 <= i < j < |b.recording| ==> b.recording[i].msg.globalSeq < b.recording[j].msg.globalSeq)
  }

  ghost predicate Agreement(b: Bus) {
    RoutesAgree(b) && ChannelsNumbered(b) && PublishOrder(b)
  }

  /** A route that dropped nothing holds its channel's recorded stream exactly,
      split at what the subscriber has taken. */
  lemma LosslessRoute(b: Bus, k: nat)
    requires Agreement(b) && k < |b.routes| && b.routes[k].dropped == 0
    ensures b.routes[k].taken + b.routes[k].pending == Stream(b.recording, b.routes[k].channel)
  {
    var r := b.routes[k];
    SubsequenceLength(r.taken + r.pending, Stream(b.recording, r.channel));
  }

  lemma StreamAppend(recording: seq<Record>, e: Record, ch: nat)
    ensures Stream(recording + [e], ch) == Stream(recording, ch) + if e.channel == ch then [e.msg] else []
    ensures SeqNos(recording + [e], ch) == SeqNos(recording, ch) + if e.channel == ch then [e.seqNo] else []
  {
    assert (recording + [e])[..|recording|] == recording;
  }

  lemma PushAgrees(r: Route, m: Msg, recorded: seq<Msg>)
    requires RouteAgrees(r, recorded) && !Overflows(r)
    ensures RouteAgrees(Pushed(r, m), recorded + [m])
  {
    if Full(r) {
      SubsequenceRight(r.taken + r.pending, recorded, m);
    } else {
      SubsequenceBoth(r.taken + r.pending, recorded, m);
      assert r.taken + (r.pending + [m]) == r.taken + r.pending + [m];
    }
  }

  lemma {:induction false} DeliverPushesEach(routes: seq<Route>, ch: nat, m: Msg, k: nat)
    requires k < |routes| && Deliver(routes, ch, m).1
    ensures routes[k].channel == ch ==> !Overflows(routes[k])
    ensures Deliver(routes, ch, m).0[k] == if routes[k].channel == ch then Pushed(routes[k], m) else routes[k]
    decreases |routes|
  {
    if k == 0 {
    } else {
      DeliverPushesEach(routes[1..], ch, m, k - 1);
    }
  }

  lemma AcceptKeepsRoutes(b: Bus, ch: nat, steps: seq<Step>, time: u64, bytes: seq<byte>)
    requires RoutesAgree(b) && ch < |b.channels| && Accept(b, ch, steps, time, bytes).1
    ensures RoutesAgree(Accept(b, ch, steps, time, bytes).0)
  {
    var b' := Accept(b, ch, steps, time, bytes).0;
    var m := Msg(time, b.published % TWO64, bytes);
    forall k | 0 <= k < |b'.routes|
      ensures RouteAgrees(b'.routes[k], Stream(b'.recording, b'.routes[k].channel))
    {
      var r := b.routes[k];
      DeliverPushesEach(b.routes, ch, m, k);
      StreamAppend(b.recording, Record(ch, b.channels[ch].nextSeq, m), r.channel);
      if r.channel == ch {
        PushAgrees(r, m, Stream(b.recording, ch));
      } else {
        assert Stream(b.recording, r.channel) + [] == Stream(b.recording, r.channel);
      }
    }
  }

  lemma AcceptKeepsNumbers(b: Bus, ch: nat, steps: seq<Step>, time: u64, bytes: seq<byte>)
    requires ChannelsNumbered(b) && ch < |b.channels|
    ensures ChannelsNumbered(Accept(b, ch, steps, time, bytes).0)
  {
    var b' := Accept(b, ch, steps, time, bytes).0;
    forall c | 0 <= c < |b'.channels|
      ensures Numbered(SeqNos(b'.recording, c)) && b'.channels[c].nextSeq == |SeqNos(b'.recording, c)| % TWO32
    {
      StreamAppend(b.recording, b'.recording[|b.recording|], c);
    }
  }

  /** Every publish that does not fail the run keeps the agreement. */
  lemma PublishKeepsAgreement(b: Bus, duration: u64, now: u64, ch: nat, bytes: seq<byte>)
    requires Agreement(b) && Publish(b, duration, now, ch, bytes).1
    ensures Agreement(Publish(b, duration, now, ch, bytes).0)
  {
    var (steps, verdict) := Apply(b.channels[ch].steps, duration, now, bytes);
    if verdict.Visible? {
      AcceptKeepsRoutes(b, ch, steps, verdict.time, verdict.bytes);
      AcceptKeepsNumbers(b, ch, steps, verdict.time, verdict.bytes);
    }
  }

  lemma TakeKeepsAgreement(b: Bus, now: u64, k: nat)
    requires Agreement(b) && k < |b.routes|
    ensures Agreement(Take(b, now, k).0)
  {
    var b' := Take(b, now, k).0;
    if VisibleAt(b.routes[k], now) {
      var r := b.routes[k];
      assert r.taken + [r.pending[0]] + r.pending[1..] == r.taken + r.pending;
      forall j | 0 <= j < |b'.routes|
        ensures RouteAgrees(b'.routes[j], Stream(b'.recording, b'.routes[j].channel))
      {
        assert RouteAgrees(b.routes[j], Stream(b.recording, b.routes[j].channel));
      }
    }
  }
}
