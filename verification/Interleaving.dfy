// How publishers interleave can be heard in a later slot, by a participant that merges them:
// it is told the same list exactly when its messages stand in the same global order.

module Interleaving {
  import opened VirtualTime
  import opened Interceptor
  import opened DataPlane
  import opened Merge
  import opened Activation
  import opened Sight
  import opened Moves
  import opened SlotOrder

  // ----- The merged list tells the order -----------------------------------------------------------------

  /** Where the `x`-th input of a route stands in the list. */
  function Nth(inputs: seq<Input>, k: nat, x: nat): nat {
    if inputs == [] then 0
    else if inputs[0].route == k && x == 0 then 0
    else 1 + Nth(inputs[1..], k, if inputs[0].route == k then x - 1 else x)
  }

  lemma {:induction false} NthInput(inputs: seq<Input>, k: nat, x: nat)
    requires x < |FromRoute(inputs, k)|
    ensures Nth(inputs, k, x) < |inputs| && inputs[Nth(inputs, k, x)] == Input(k, FromRoute(inputs, k)[x])
    decreases |inputs|
  {
    if inputs[0].route == k && x == 0 {
    } else {
      NthInput(inputs[1..], k, if inputs[0].route == k then x - 1 else x);
    }
  }

  ghost predicate SameRouteSequence(a: seq<Input>, b: seq<Input>) {
    |a| == |b| && forall i :: 0 <= i < |a| ==> a[i].route == b[i].route
  }

  lemma {:induction false} SameNth(a: seq<Input>, b: seq<Input>, k: nat, x: nat)
    requires SameRouteSequence(a, b)
    ensures Nth(a, k, x) == Nth(b, k, x)
    decreases |a|
  {
    if a == [] || (a[0].route == k && x == 0) {
    } else {
      SameNth(a[1..], b[1..], k, if a[0].route == k then x - 1 else x);
    }
  }

  /** The channels of a merged list, in order. */
  function ChannelsOf(inputs: seq<StepInput>): (chs: seq<nat>)
    ensures |chs| == |inputs| && forall i :: 0 <= i < |chs| ==> chs[i] == inputs[i].channel
  {
    seq(|inputs|, i requires 0 <= i < |inputs| => inputs[i].channel)
  }

  lemma {:induction false} DescribedEach(routes: seq<Route>, inputs: seq<Input>, i: nat)
    requires i < |inputs|
    ensures |Described(routes, inputs)| == |inputs|
    ensures Described(routes, inputs)[i].channel
            == if inputs[i].route < |routes| then routes[inputs[i].route].channel else 0
    decreases |inputs|
  {
    DescribedLength(routes, inputs);
    if i == 0 {
    } else {
      DescribedEach(routes, inputs[1..], i - 1);
    }
  }

  lemma {:induction false} DescribedLength(routes: seq<Route>, inputs: seq<Input>)
    ensures |Described(routes, inputs)| == |inputs|
    decreases |inputs|
  {
    if inputs == [] {
    } else {
      DescribedLength(routes, inputs[1..]);
    }
  }

  /** No two routes of the owner carry the same channel. */
  ghost predicate OwnChannelsDiffer(routes: seq<Route>, owner: nat) {
    forall j, k :: 0 <= j < k < |routes| && routes[j].owner == owner && routes[k].owner == owner ==>
      routes[j].channel != routes[k].channel
  }

  /** The list a participant's Step opens with. */
  function Told(routes: seq<Route>, owner: nat, now: u64): seq<StepInput> {
    Described(routes, MergeVisible(routes, owner, now).1)
  }

  lemma ToldRoutes(a: seq<Route>, b: seq<Route>, owner: nat, now: u64)
    requires RoutesAlike(a, b, owner, false, now) && OwnChannelsDiffer(a, owner)
    requires ChannelsOf(Told(a, owner, now)) == ChannelsOf(Told(b, owner, now))
    ensures SameRouteSequence(MergeVisible(a, owner, now).1, MergeVisible(b, owner, now).1)
  {
    hide MergeVisible, InSight, Described;
    var x, y := MergeVisible(a, owner, now).1, MergeVisible(b, owner, now).1;
    DescribedLength(a, x);
    DescribedLength(b, y);
    assert |x| == |ChannelsOf(Told(a, owner, now))| && |y| == |ChannelsOf(Told(b, owner, now))|;
    forall i | 0 <= i < |x| ensures x[i].route == y[i].route {
      MergeInputsBelong(a, owner, now, i);
      MergeInputsBelong(b, owner, now, i);
      DescribedEach(a, x, i);
      DescribedEach(b, y, i);
      assert ChannelsOf(Told(a, owner, now))[i] == ChannelsOf(Told(b, owner, now))[i];
      assert SameDeclaration(a[x[i].route], b[x[i].route]) && SameDeclaration(a[y[i].route], b[y[i].route]);
    }
  }

  /** The order of two messages in sight is the order of their places in the list. */
  lemma PlacesDecide(routes: seq<Route>, owner: nat, now: u64, j: nat, k: nat, x: nat, y: nat)
    requires InPublishOrder(routes, owner) && j < |routes| && k < |routes| && routes[j].owner == owner
    requires routes[k].owner == owner
    requires x < |InSight(routes[j], now)| && y < |InSight(routes[k], now)|
    ensures var inputs := MergeVisible(routes, owner, now).1;
      InSight(routes[j], now)[x].globalSeq < InSight(routes[k], now)[y].globalSeq
      <==> Nth(inputs, j, x) < Nth(inputs, k, y)
  {
    hide MergeVisible, InSight, InPublishOrder;
    var inputs := MergeVisible(routes, owner, now).1;
    MergeIsOrdered(routes, owner, now);
    SightIsContributed(routes, owner, now, j);
    SightIsContributed(routes, owner, now, k);
    NthInput(inputs, j, x);
    NthInput(inputs, k, y);
  }

  lemma SightIsContributed(routes: seq<Route>, owner: nat, now: u64, k: nat)
    requires k < |routes| && routes[k].owner == owner
    ensures FromRoute(MergeVisible(routes, owner, now).1, k) == InSight(routes[k], now)
  {
    hide MergeVisible, VisiblePrefix;
    MergeTakesReleasedPrefixes(routes, owner, now, k);
  }

  /** Two states in which a participant can take the same messages: the merge tells it the same
      list exactly when its messages stand in the same global order, and already the channels
      in the list show where they do not. */
  lemma ToldTheOrder(a: seq<Route>, b: seq<Route>, owner: nat, now: u64)
    requires RoutesAlike(a, b, owner, false, now) && OwnChannelsDiffer(a, owner)
    requires InPublishOrder(a, owner) && InPublishOrder(b, owner)
    ensures Told(a, owner, now) == Told(b, owner, now) <==> SameOrder(a, b, owner, now)
    ensures ChannelsOf(Told(a, owner, now)) == ChannelsOf(Told(b, owner, now)) <==> SameOrder(a, b, owner, now)
  {
    hide MergeVisible, InSight, Described, InPublishOrder;
    if SameOrder(a, b, owner, now) {
      assert RoutesAlike(a, b, owner, true, now);
      AlikeMerge(a, b, owner, now);
      DescribedIsBare(a, b, MergeVisible(a, owner, now).1, MergeVisible(b, owner, now).1);
    }
    if ChannelsOf(Told(a, owner, now)) == ChannelsOf(Told(b, owner, now)) {
      ToldRoutes(a, b, owner, now);
      forall j, k | 0 <= j < |a| && 0 <= k < |a| && a[j].owner == owner && a[k].owner == owner
        ensures SamePair(InSight(a[j], now), InSight(a[k], now), InSight(b[j], now), InSight(b[k], now))
      {
        ToldPair(a, b, owner, now, j, k);
      }
    }
  }

  lemma ToldPair(a: seq<Route>, b: seq<Route>, owner: nat, now: u64, j: nat, k: nat)
    requires RoutesAlike(a, b, owner, false, now) && InPublishOrder(a, owner) && InPublishOrder(b, owner)
    requires SameRouteSequence(MergeVisible(a, owner, now).1, MergeVisible(b, owner, now).1)
    requires j < |a| && k < |a| && a[j].owner == owner && a[k].owner == owner
    ensures SamePair(InSight(a[j], now), InSight(a[k], now), InSight(b[j], now), InSight(b[k], now))
  {
    hide MergeVisible, InSight, InPublishOrder, SameRouteSequence;
    assert SameDeclaration(a[j], b[j]) && SameDeclaration(a[k], b[k]);
    assert |BareMsgs(InSight(a[j], now))| == |BareMsgs(InSight(b[j], now))|
           && |BareMsgs(InSight(a[k], now))| == |BareMsgs(InSight(b[k], now))|;
    var u, v := MergeVisible(a, owner, now).1, MergeVisible(b, owner, now).1;
    forall x, y | 0 <= x < |InSight(a[j], now)| && 0 <= y < |InSight(a[k], now)|
      ensures InSight(a[j], now)[x].globalSeq < InSight(a[k], now)[y].globalSeq
         <==> InSight(b[j], now)[x].globalSeq < InSight(b[k], now)[y].globalSeq
    {
      PlacesDecide(a, owner, now, j, k, x, y);
      PlacesDecide(b, owner, now, j, k, x, y);
      SameNth(u, v, j, x);
      SameNth(u, v, k, y);
    }
  }

  // ----- Two publishers are told apart in a later slot ---------------------------------------------------------

  /** The plan lets this message through. */
  predicate Passes(b: Bus, duration: u64, now: u64, ch: nat, bytes: seq<byte>) {
    ch < |b.channels| && |bytes| == b.channels[ch].size && Apply(b.channels[ch].steps, duration, now, bytes).1.Visible?
  }

  /** The message as the bus stamps it. */
  function Stamped(b: Bus, duration: u64, now: u64, ch: nat, bytes: seq<byte>): Msg
    requires Passes(b, duration, now, ch, bytes)
  {
    var v := Apply(b.channels[ch].steps, duration, now, bytes).1;
    Msg(v.time, b.published % TWO64, v.bytes)
  }

  function Appended(r: Route, m: Msg): Route {
    r.(pending := r.pending + [m])
  }

  lemma PassingPublish(b: Bus, duration: u64, now: u64, ch: nat, bytes: seq<byte>)
    requires Open(b) && Passes(b, duration, now, ch, bytes)
    ensures var (b', ok) := Publish(b, duration, now, ch, bytes);
      && ok && Open(b') && |b'.routes| == |b.routes| && b'.published == b.published + 1 && |b'.channels| == |b.channels|
      && (forall i :: 0 <= i < |b.channels| && i != ch ==> b'.channels[i] == b.channels[i])
      && forall k :: 0 <= k < |b.routes| ==>
           b'.routes[k]
           == if b.routes[k].channel == ch then Appended(b.routes[k], Stamped(b, duration, now, ch, bytes))
              else b.routes[k]
  {
    hide Apply, Deliver;
    OpenDelivers(b, ch, Stamped(b, duration, now, ch, bytes));
  }

  /** The bus after two messages. */
  function Both(b: Bus, duration: u64, now: u64, c: nat, x: seq<byte>, d: nat, y: seq<byte>): Bus {
    Publish(Publish(b, duration, now, c, x).0, duration, now, d, y).0
  }

  lemma AfterBoth(b: Bus, duration: u64, now: u64, c: nat, x: seq<byte>, d: nat, y: seq<byte>, k: nat)
    requires Open(b) && Passes(b, duration, now, c, x) && Passes(b, duration, now, d, y) && c != d && k < |b.routes|
    ensures var b' := Both(b, duration, now, c, x, d, y);
      var (r, m, n) := (b.routes[k], Stamped(b, duration, now, c, x), Stamped(b, duration, now, d, y));
      && |b'.routes| == |b.routes| && b'.published == b.published + 2
      && b'.routes[k] == if r.channel == c then Appended(r, m)
                         else if r.channel == d then Appended(r, n.(globalSeq := (b.published + 1) % TWO64))
                         else r
  {
    PassingPublish(b, duration, now, c, x);
    var b' := Publish(b, duration, now, c, x).0;
    PassingPublish(b', duration, now, d, y);
    hide Apply, Publish;
  }

  lemma BothAgree(b: Bus, duration: u64, now: u64, c: nat, x: seq<byte>, d: nat, y: seq<byte>)
    requires Open(b) && Agreement(b) && Passes(b, duration, now, c, x) && Passes(b, duration, now, d, y) && c != d
    ensures Agreement(Both(b, duration, now, c, x, d, y))
  {
    PassingPublish(b, duration, now, c, x);
    var b' := Publish(b, duration, now, c, x).0;
    assert Passes(b', duration, now, d, y);
    PassingPublish(b', duration, now, d, y);
    hide Apply, Publish, Agreement;
    PublishKeepsAgreement(b, duration, now, c, x);
    PublishKeepsAgreement(b', duration, now, d, y);
  }

  ghost predicate AllInSight(r: Route, now: u64) {
    |InSight(r, now)| == |r.pending|
  }

  lemma BothOrdered(b: Bus, duration: u64, now: u64, c: nat, x: seq<byte>, d: nat, y: seq<byte>, owner: nat)
    requires Open(b) && Agreement(b) && b.published + 2 <= TWO64 && OwnChannelsDiffer(b.routes, owner)
    requires Passes(b, duration, now, c, x) && Passes(b, duration, now, d, y) && c != d
    ensures var b' := Both(b, duration, now, c, x, d, y);
      OwnChannelsDiffer(b'.routes, owner) && InPublishOrder(b'.routes, owner)
  {
    hide Both, Agreement, InPublishOrder, Passes, Stamped;
    var b' := Both(b, duration, now, c, x, d, y);
    BothAgree(b, duration, now, c, x, d, y);
    if |b.routes| > 0 { AfterBoth(b, duration, now, c, x, d, y, 0); }
    SameLengthAfter(b, duration, now, c, x, d, y);
    forall k | 0 <= k < |b.routes|
      ensures b'.routes[k].owner == b.routes[k].owner && b'.routes[k].channel == b.routes[k].channel
    {
      AfterBoth(b, duration, now, c, x, d, y, k);
    }
    AgreementOrdersRoutes(b', owner);
  }

  lemma SameLengthAfter(b: Bus, duration: u64, now: u64, c: nat, x: seq<byte>, d: nat, y: seq<byte>)
    requires Open(b) && Passes(b, duration, now, c, x) && Passes(b, duration, now, d, y) && c != d
    ensures var b' := Both(b, duration, now, c, x, d, y); |b'.routes| == |b.routes| && b'.published == b.published + 2
  {
    PassingPublish(b, duration, now, c, x);
    var b' := Publish(b, duration, now, c, x).0;
    assert Passes(b', duration, now, d, y);
    PassingPublish(b', duration, now, d, y);
    hide Apply, Publish;
  }

  lemma BothAlike(b: Bus, duration: u64, now: u64, c: nat, x: seq<byte>, d: nat, y: seq<byte>, owner: nat, later: u64)
    requires Open(b) && Passes(b, duration, now, c, x) && Passes(b, duration, now, d, y) && c != d
    ensures RoutesAlike(Both(b, duration, now, c, x, d, y).routes, Both(b, duration, now, d, y, c, x).routes, owner,
                        false, later)
  {
    hide Both, Passes, Stamped, InSight;
    var e, f := Both(b, duration, now, c, x, d, y), Both(b, duration, now, d, y, c, x);
    SameLengthAfter(b, duration, now, c, x, d, y);
    SameLengthAfter(b, duration, now, d, y, c, x);
    forall k | 0 <= k < |b.routes|
      ensures SameDeclaration(e.routes[k], f.routes[k])
      ensures BareMsgs(InSight(e.routes[k], later)) == BareMsgs(InSight(f.routes[k], later))
    {
      AfterBoth(b, duration, now, c, x, d, y, k);
      AfterBoth(b, duration, now, d, y, c, x, k);
      assert BareMsgs(e.routes[k].pending) == BareMsgs(f.routes[k].pending);
      SightIsBare(e.routes[k], f.routes[k], later);
    }
  }

  // ----- When a later slot shows the order -------------------------------------------------------------------

  /** The participant's route `k` will hold the message, and at `later` everything on it can be taken. */
  ghost predicate TakesLater(b: Bus, duration: u64, now: u64, ch: nat, bytes: seq<byte>, owner: nat, k: nat, later: u64)
    requires Passes(b, duration, now, ch, bytes)
  {
    && k < |b.routes| && b.routes[k].owner == owner && b.routes[k].channel == ch
    && AllInSight(b.routes[k], later) && Released(b.routes[k].latency, Stamped(b, duration, now, ch, bytes), later)
  }

  lemma {:induction false} PrefixGrows(latency: Option<u64>, pending: seq<Msg>, m: Msg, now: u64)
    ensures var n := VisiblePrefix(latency, pending, now);
      VisiblePrefix(latency, pending + [m], now) == if n == |pending| && Released(latency, m, now) then n + 1 else n
    decreases |pending|
  {
    if pending == [] {
    } else {
      assert (pending + [m])[1..] == pending[1..] + [m];
      PrefixGrows(latency, pending[1..], m, now);
    }
  }

  lemma SightGrows(r: Route, m: Msg, now: u64)
    ensures AllInSight(Appended(r, m), now) <==> AllInSight(r, now) && Released(r.latency, m, now)
    ensures !AllInSight(Appended(r, m), now) ==> |InSight(Appended(r, m), now)| <= |r.pending|
  {
    hide VisiblePrefix, Released;
    PrefixGrows(r.latency, r.pending, m, now);
  }

  lemma ReleasedIgnoresSeq(latency: Option<u64>, m: Msg, seqNo: u64, now: u64)
    ensures Released(latency, m.(globalSeq := seqNo), now) == Released(latency, m, now)
  {
  }

  /** The condition on the bus before the publishes is the one after them. */
  lemma SightAfterBoth(b: Bus, duration: u64, now: u64, c: nat, x: seq<byte>, d: nat, y: seq<byte>,
                       owner: nat, k: nat, later: u64)
    requires Open(b) && Passes(b, duration, now, c, x) && Passes(b, duration, now, d, y) && c != d
    requires k < |b.routes| && b.routes[k].owner == owner
    ensures var e := Both(b, duration, now, c, x, d, y);
      && |e.routes| == |b.routes|
      && (b.routes[k].channel == c ==>
            (AllInSight(e.routes[k], later) <==> TakesLater(b, duration, now, c, x, owner, k, later)))
      && (b.routes[k].channel == d ==>
            (AllInSight(e.routes[k], later) <==> TakesLater(b, duration, now, d, y, owner, k, later)))
  {
    hide Both, Passes, Released, AllInSight, Stamped;
    var r, m, n := b.routes[k], Stamped(b, duration, now, c, x), Stamped(b, duration, now, d, y);
    AfterBoth(b, duration, now, c, x, d, y, k);
    SightGrows(r, m, later);
    SightGrows(r, n.(globalSeq := (b.published + 1) % TWO64), later);
    ReleasedIgnoresSeq(r.latency, n, (b.published + 1) % TWO64, later);
  }

  /** What waits on a route was published before now. */
  ghost predicate Older(r: Route, published: nat) {
    forall i :: 0 <= i < |r.pending| ==> r.pending[i].globalSeq < published
  }

  lemma PendingIsOlder(b: Bus, k: nat)
    requires Agreement(b) && b.published <= TWO64 && k < |b.routes|
    ensures Older(b.routes[k], b.published)
  {
    hide Numbered;
    forall i | 0 <= i < |b.routes[k].pending| ensures b.routes[k].pending[i].globalSeq < b.published {
      PendingIsRecorded(b, k, b.routes[k].pending[i]);
    }
  }

  /** The same old messages, and at the end perhaps a new one. */
  ghost predicate Grown(r: Route, e: Route, f: Route, first: nat) {
    || (e == r && f == r)
    || (exists m: Msg, n: Msg :: e == Appended(r, m) && f == Appended(r, n) && m.globalSeq >= first
                                 && n.globalSeq >= first)
  }

  lemma GrownByBoth(b: Bus, duration: u64, now: u64, c: nat, x: seq<byte>, d: nat, y: seq<byte>, k: nat)
    requires Open(b) && Passes(b, duration, now, c, x) && Passes(b, duration, now, d, y) && c != d && k < |b.routes|
    requires b.published + 2 <= TWO64
    ensures var (e, f) := (Both(b, duration, now, c, x, d, y), Both(b, duration, now, d, y, c, x));
      && |e.routes| == |b.routes| && |f.routes| == |b.routes|
      && Grown(b.routes[k], e.routes[k], f.routes[k], b.published)
      && (e.routes[k] != b.routes[k] ==> b.routes[k].channel == c || b.routes[k].channel == d)
  {
    hide Both, Passes;
    AfterBoth(b, duration, now, c, x, d, y, k);
    AfterBoth(b, duration, now, d, y, c, x, k);
  }

  /** Old messages stand as they did and before any new one. */
  lemma GrownPair(r: Route, e: Route, f: Route, t: Route, g: Route, h: Route, first: nat, now: u64)
    requires Grown(r, e, f, first) && Grown(t, g, h, first) && Older(r, first) && Older(t, first)
    requires |InSight(f, now)| == |InSight(e, now)| && |InSight(h, now)| == |InSight(g, now)|
    requires |InSight(e, now)| <= |r.pending| || |InSight(g, now)| <= |t.pending|
    ensures SamePair(InSight(e, now), InSight(g, now), InSight(f, now), InSight(h, now))
  {
    hide InSight;
    var (a, b, c, d) := (InSight(e, now), InSight(g, now), InSight(f, now), InSight(h, now));
    forall p, q | 0 <= p < |a| && 0 <= q < |b|
      ensures a[p].globalSeq < b[q].globalSeq <==> c[p].globalSeq < d[q].globalSeq
    {
      assert a[p] == e.pending[p] && b[q] == g.pending[q] && c[p] == f.pending[p] && d[q] == h.pending[q];
    }
  }

  /** A route with itself. */
  lemma SelfPair(a: Route, b: Route, now: u64)
    requires Increasing(a.pending) && Increasing(b.pending) && |InSight(a, now)| == |InSight(b, now)|
    ensures SamePair(InSight(a, now), InSight(a, now), InSight(b, now), InSight(b, now))
  {
    hide InSight;
    var s, t := InSight(a, now), InSight(b, now);
    forall p, q | 0 <= p < |s| && 0 <= q < |s|
      ensures s[p].globalSeq < s[q].globalSeq <==> t[p].globalSeq < t[q].globalSeq
    {
      assert s[p] == a.pending[p] && s[q] == a.pending[q] && t[p] == b.pending[p] && t[q] == b.pending[q];
    }
  }

  lemma AlikeSights(a: seq<Route>, b: seq<Route>, owner: nat, now: u64, k: nat)
    requires RoutesAlike(a, b, owner, false, now) && k < |a| && a[k].owner == owner
    ensures |a| == |b| && |InSight(a[k], now)| == |InSight(b[k], now)|
  {
    hide InSight;
    assert |BareMsgs(InSight(a[k], now))| == |BareMsgs(InSight(b[k], now))|;
  }

  /** At `later` the participant can take both messages; said of the bus before they are published. */
  ghost predicate HearsBoth(b: Bus, duration: u64, now: u64, c: nat, x: seq<byte>, d: nat, y: seq<byte>, owner: nat,
                            later: u64)
    requires Passes(b, duration, now, c, x) && Passes(b, duration, now, d, y)
  {
    exists j, k ::
      TakesLater(b, duration, now, c, x, owner, j, later) && TakesLater(b, duration, now, d, y, owner, k, later)
  }

  /** What `InterleavingIsTold` asks of the bus: unbounded queues in agreement, room below the wrap, one
      route per channel and participant, and two messages that get through their plans. */
  ghost predicate TwoMessages(b: Bus, duration: u64, now: u64, c: nat, x: seq<byte>, d: nat, y: seq<byte>, owner: nat) {
    && Open(b) && Agreement(b) && b.published + 2 <= TWO64 && OwnChannelsDiffer(b.routes, owner)
    && Passes(b, duration, now, c, x) && Passes(b, duration, now, d, y) && c != d
  }

  lemma ShortSight(r: Route, e: Route, now: u64, m: Msg)
    requires e == r || e == Appended(r, m)
    ensures |InSight(e, now)| <= |r.pending| || (e != r && AllInSight(e, now))
  {
    if e == r {
    } else {
      hide InSight;
      SightGrows(r, m, now);
    }
  }

  /** Unless both messages can be taken, no two routes show the order. */
  lemma PairStays(b: Bus, duration: u64, now: u64, c: nat, x: seq<byte>, d: nat, y: seq<byte>,
                  owner: nat, later: u64, j: nat, k: nat)
    requires TwoMessages(b, duration, now, c, x, d, y, owner) && !HearsBoth(b, duration, now, c, x, d, y, owner, later)
    requires j < |b.routes| && k < |b.routes| && j != k && b.routes[j].owner == owner && b.routes[k].owner == owner
    ensures var (e, f) := (Both(b, duration, now, c, x, d, y).routes, Both(b, duration, now, d, y, c, x).routes);
      && |e| == |b.routes| && |f| == |b.routes|
      && SamePair(InSight(e[j], later), InSight(e[k], later), InSight(f[j], later), InSight(f[k], later))
  {
    assert b.routes[j].channel != b.routes[k].channel;
    hide Both, Passes, Agreement, InSight, TakesLater, Older, SamePair, Stamped;
    var e, f := Both(b, duration, now, c, x, d, y).routes, Both(b, duration, now, d, y, c, x).routes;
    GrownByBoth(b, duration, now, c, x, d, y, j);
    GrownByBoth(b, duration, now, c, x, d, y, k);
    BothAlike(b, duration, now, c, x, d, y, owner, later);
    GrownKeeps(b.routes[j], e[j], f[j], b.published, later);
    GrownKeeps(b.routes[k], e[k], f[k], b.published, later);
    AlikeSights(e, f, owner, later, j);
    AlikeSights(e, f, owner, later, k);
    PendingIsOlder(b, j);
    PendingIsOlder(b, k);
    SightAfterBoth(b, duration, now, c, x, d, y, owner, j, later);
    SightAfterBoth(b, duration, now, c, x, d, y, owner, k, later);
    GrownPair(b.routes[j], e[j], f[j], b.routes[k], e[k], f[k], b.published, later);
  }

  lemma GrownKeeps(r: Route, e: Route, f: Route, first: nat, now: u64)
    requires Grown(r, e, f, first)
    ensures e.owner == r.owner && (|InSight(e, now)| <= |r.pending| || (e != r && AllInSight(e, now)))
  {
    hide InSight, AllInSight;
    if e == r {
      ShortSight(r, e, now, Msg(0, 0, []));
    } else {
      var m: Msg, n: Msg :| e == Appended(r, m) && f == Appended(r, n) && m.globalSeq >= first && n.globalSeq >= first;
      ShortSight(r, e, now, m);
    }
  }

  lemma OrderStays(b: Bus, duration: u64, now: u64, c: nat, x: seq<byte>, d: nat, y: seq<byte>, owner: nat, later: u64)
    requires TwoMessages(b, duration, now, c, x, d, y, owner) && !HearsBoth(b, duration, now, c, x, d, y, owner, later)
    ensures var (e, f) := (Both(b, duration, now, c, x, d, y).routes, Both(b, duration, now, d, y, c, x).routes);
      |e| == |f| && SameOrder(e, f, owner, later)
  {
    hide Both, Passes, Agreement, InSight, HearsBoth, SamePair, OwnChannelsDiffer, Increasing, Distinct;
    var e, f := Both(b, duration, now, c, x, d, y).routes, Both(b, duration, now, d, y, c, x).routes;
    SameLengthAfter(b, duration, now, c, x, d, y);
    SameLengthAfter(b, duration, now, d, y, c, x);
    BothOrdered(b, duration, now, c, x, d, y, owner);
    BothOrdered(b, duration, now, d, y, c, x, owner);
    BothAlike(b, duration, now, c, x, d, y, owner, later);
    forall j, k | 0 <= j < |e| && 0 <= k < |e| && e[j].owner == owner && e[k].owner == owner
      ensures SamePair(InSight(e[j], later), InSight(e[k], later), InSight(f[j], later), InSight(f[k], later))
    {
      SameOwnerAfter(b, duration, now, c, x, d, y, j);
      SameOwnerAfter(b, duration, now, c, x, d, y, k);
      SameOwnerAfter(b, duration, now, d, y, c, x, j);
      if j == k {
        AlikeSights(e, f, owner, later, j);
        SelfPair(e[j], f[j], later);
      } else {
        PairStays(b, duration, now, c, x, d, y, owner, later, j, k);
      }
    }
  }

  lemma SameOwnerAfter(b: Bus, duration: u64, now: u64, c: nat, x: seq<byte>, d: nat, y: seq<byte>, k: nat)
    requires Open(b) && Passes(b, duration, now, c, x) && Passes(b, duration, now, d, y) && c != d && k < |b.routes|
    ensures var e := Both(b, duration, now, c, x, d, y);
      |e.routes| == |b.routes| && e.routes[k].owner == b.routes[k].owner
  {
    hide Both, Passes, Stamped;
    AfterBoth(b, duration, now, c, x, d, y, k);
  }

  /** The number the last message of a route got. */
  function LastSeq(r: Route): int {
    if r.pending == [] then -1 else r.pending[|r.pending| - 1].globalSeq
  }

  lemma LastAfterBoth(b: Bus, duration: u64, now: u64, c: nat, x: seq<byte>, d: nat, y: seq<byte>, k: nat)
    requires Open(b) && Passes(b, duration, now, c, x) && Passes(b, duration, now, d, y) && c != d && k < |b.routes|
    requires b.published + 2 <= TWO64 && (b.routes[k].channel == c || b.routes[k].channel == d)
    ensures var e := Both(b, duration, now, c, x, d, y).routes;
      && |e| == |b.routes| && e[k].owner == b.routes[k].owner && |e[k].pending| == |b.routes[k].pending| + 1
      && LastSeq(e[k]) == b.published + if b.routes[k].channel == c then 0 else 1
  {
    hide Both, Passes;
    AfterBoth(b, duration, now, c, x, d, y, k);
  }

  lemma OrderShows(b: Bus, duration: u64, now: u64, c: nat, x: seq<byte>, d: nat, y: seq<byte>,
                   owner: nat, later: u64, j: nat, k: nat)
    requires TwoMessages(b, duration, now, c, x, d, y, owner)
    requires TakesLater(b, duration, now, c, x, owner, j, later) && TakesLater(b, duration, now, d, y, owner, k, later)
    ensures var (e, f) := (Both(b, duration, now, c, x, d, y).routes, Both(b, duration, now, d, y, c, x).routes);
      |e| == |f| && !SameOrder(e, f, owner, later)
  {
    hide Both, Passes, Agreement, AllInSight, OwnChannelsDiffer, SameOrder, Released, Stamped, Open;
    SightAfterBoth(b, duration, now, c, x, d, y, owner, j, later);
    SightAfterBoth(b, duration, now, c, x, d, y, owner, k, later);
    LastAfterBoth(b, duration, now, c, x, d, y, j);
    LastAfterBoth(b, duration, now, c, x, d, y, k);
    LastAfterBoth(b, duration, now, d, y, c, x, j);
    LastAfterBoth(b, duration, now, d, y, c, x, k);
    var e, f := Both(b, duration, now, c, x, d, y).routes, Both(b, duration, now, d, y, c, x).routes;
    if SameOrder(e, f, owner, later) {
      LastPair(e, f, owner, later, j, k);
      assert false;
    }
  }

  lemma LastPair(e: seq<Route>, f: seq<Route>, owner: nat, now: u64, j: nat, k: nat)
    requires |e| == |f| && j < |e| && k < |e| && e[j].owner == owner && e[k].owner == owner
    requires AllInSight(e[j], now) && AllInSight(e[k], now) && e[j].pending != [] && e[k].pending != []
    requires |f[j].pending| == |e[j].pending| && |f[k].pending| == |e[k].pending| && SameOrder(e, f, owner, now)
    ensures LastSeq(e[j]) < LastSeq(e[k]) <==> LastSeq(f[j]) < LastSeq(f[k])
  {
    hide InSight;
    assert SamePair(InSight(e[j], now), InSight(e[k], now), InSight(f[j], now), InSight(f[k], now));
    var (p, q) := (|e[j].pending| - 1, |e[k].pending| - 1);
    assert InSight(e[j], now)[p] == e[j].pending[p] && InSight(e[k], now)[q] == e[k].pending[q];
    assert InSight(f[j], now)[p] == f[j].pending[p] && InSight(f[k], now)[q] == f[k].pending[q];
  }

  /** Two messages are published in one order or the other. At any later instant a participant is told
      different lists, and different channels in them, if and only if it then can take both messages. */
  lemma InterleavingIsTold(b: Bus, duration: u64, now: u64, c: nat, x: seq<byte>, d: nat, y: seq<byte>, owner: nat,
                           later: u64)
    requires TwoMessages(b, duration, now, c, x, d, y, owner)
    ensures var (e, f) := (Both(b, duration, now, c, x, d, y).routes, Both(b, duration, now, d, y, c, x).routes);
      && (Told(e, owner, later) != Told(f, owner, later) <==> HearsBoth(b, duration, now, c, x, d, y, owner, later))
      && (ChannelsOf(Told(e, owner, later)) != ChannelsOf(Told(f, owner, later))
          <==> HearsBoth(b, duration, now, c, x, d, y, owner, later))
  {
    hide Both, Passes, Agreement, InPublishOrder, OwnChannelsDiffer, Told, RoutesAlike, TakesLater, SameOrder;
    var e, f := Both(b, duration, now, c, x, d, y).routes, Both(b, duration, now, d, y, c, x).routes;
    BothOrdered(b, duration, now, c, x, d, y, owner);
    BothOrdered(b, duration, now, d, y, c, x, owner);
    BothAlike(b, duration, now, c, x, d, y, owner, later);
    SameLengthAfter(b, duration, now, c, x, d, y);
    SameLengthAfter(b, duration, now, d, y, c, x);
    ToldTheOrder(e, f, owner, later);
    if HearsBoth(b, duration, now, c, x, d, y, owner, later) {
      var j, k :| TakesLater(b, duration, now, c, x, owner, j, later)
                  && TakesLater(b, duration, now, d, y, owner, k, later);
      OrderShows(b, duration, now, c, x, d, y, owner, later, j, k);
    } else {
      OrderStays(b, duration, now, c, x, d, y, owner, later);
    }
  }

  // ----- In the slot itself nothing shows ----------------------------------------------------------------------------

  lemma BothRecorded(b: Bus, duration: u64, now: u64, c: nat, x: seq<byte>, d: nat, y: seq<byte>)
    requires Open(b) && Passes(b, duration, now, c, x) && Passes(b, duration, now, d, y) && c != d
    ensures var (e, m, n) :=
              (Both(b, duration, now, c, x, d, y), Stamped(b, duration, now, c, x), Stamped(b, duration, now, d, y));
      && Bare(e.recording) == Bare(b.recording)
           + [Entry(c, b.channels[c].nextSeq, m.time, m.bytes)] + [Entry(d, b.channels[d].nextSeq, n.time, n.bytes)]
      && |e.channels| == |b.channels|
      && forall i :: 0 <= i < |b.channels| ==> e.channels[i] == Spoken(b, duration, now, c, x, d, y, i)
  {
    hide Apply, Deliver;
    var b' := Publish(b, duration, now, c, x).0;
    PassingPublish(b, duration, now, c, x);
    assert Passes(b', duration, now, d, y);
    BareConcat(b.recording, [b'.recording[|b.recording|]]);
    var e := Both(b, duration, now, c, x, d, y);
    assert e.recording == b'.recording + [e.recording[|b'.recording|]];
    BareConcat(b'.recording, [e.recording[|b'.recording|]]);
  }

  /** A channel after the two messages. */
  function Spoken(b: Bus, duration: u64, now: u64, c: nat, x: seq<byte>, d: nat, y: seq<byte>, i: nat): Channel
    requires i < |b.channels|
  {
    var ch := b.channels[i];
    if i == c then ch.(steps := Apply(ch.steps, duration, now, x).0, nextSeq := (ch.nextSeq + 1) % TWO32)
    else if i == d then ch.(steps := Apply(ch.steps, duration, now, y).0, nextSeq := (ch.nextSeq + 1) % TWO32)
    else ch
  }

  lemma SaidOne(e: Entry, voice: nat -> nat, p: nat)
    ensures Said([e], voice, p) == if voice(e.channel) == p then [e] else []
  {
    assert [e][..0] == [];
  }

  lemma SaidSwapped(recorded: seq<Entry>, e: Entry, f: Entry, voice: nat -> nat, p: nat)
    requires voice(e.channel) != voice(f.channel)
    ensures Said(recorded + [e] + [f], voice, p) == Said(recorded + [f] + [e], voice, p)
  {
    hide Said;
    SaidConcat(recorded + [e], [f], voice, p);
    SaidConcat(recorded, [e], voice, p);
    SaidConcat(recorded + [f], [e], voice, p);
    SaidConcat(recorded, [f], voice, p);
    SaidOne(e, voice, p);
    SaidOne(f, voice, p);
  }

  /** The two orders end alike: only the global numbers and the interleaving differ. */
  lemma BothLike(b: Bus, duration: u64, now: u64, c: nat, x: seq<byte>, d: nat, y: seq<byte>, voice: nat -> nat)
    requires Open(b) && Passes(b, duration, now, c, x) && Passes(b, duration, now, d, y) && c != d
    requires voice(c) != voice(d)
    ensures Like(Both(b, duration, now, c, x, d, y), Both(b, duration, now, d, y, c, x), voice)
  {
    assert c < |b.channels| && d < |b.channels|;
    hide Both, Passes, Stamped, Said, Bare, BareMsgs;
    var e, f := Both(b, duration, now, c, x, d, y), Both(b, duration, now, d, y, c, x);
    SameLengthAfter(b, duration, now, c, x, d, y);
    SameLengthAfter(b, duration, now, d, y, c, x);
    BothRecorded(b, duration, now, c, x, d, y);
    BothRecorded(b, duration, now, d, y, c, x);
    assert e.channels == f.channels;
    forall k | 0 <= k < |b.routes| ensures RouteLike(e.routes[k], f.routes[k]) {
      AfterBoth(b, duration, now, c, x, d, y, k);
      AfterBoth(b, duration, now, d, y, c, x, k);
      assert BareMsgs(e.routes[k].pending) == BareMsgs(f.routes[k].pending);
    }
    var m, n := Stamped(b, duration, now, c, x), Stamped(b, duration, now, d, y);
    forall p: nat ensures Said(Bare(e.recording), voice, p) == Said(Bare(f.recording), voice, p) {
      SaidSwapped(Bare(b.recording), Entry(c, b.channels[c].nextSeq, m.time, m.bytes),
                  Entry(d, b.channels[d].nextSeq, n.time, n.bytes), voice, p);
    }
  }

  // ----- The smallest such input ------------------------------------------------------------------------------------

  /** Two one-byte channels without interceptors and one participant subscribed to both with the
      default latency. */
  const TWO_PUBLISHERS: Bus := Bus(
    [Channel(1, [], 0), Channel(1, [], 0)],
    [Route(2, 0, None, None, FailRun, [], [], 0), Route(2, 1, None, None, FailRun, [], [], 0)], [], 0)

  /** Two publishers speak in the slot at 5. Their order leaves the bus alike and shows the subscriber
      nothing in that slot; in the slot at 6 its merged list tells which came first. */
  lemma NextSlotHearsTheOrder()
    ensures var (e, f) := (Both(TWO_PUBLISHERS, 10, 5, 0, [7], 1, [8]), Both(TWO_PUBLISHERS, 10, 5, 1, [8], 0, [7]));
      && Like(e, f, ch => ch) && Told(e.routes, 2, 5) == Told(f.routes, 2, 5) == []
      && ChannelsOf(Told(e.routes, 2, 6)) != ChannelsOf(Told(f.routes, 2, 6))
  {
    hide Both, Told, Like, TwoMessages, HearsBoth, Passes;
    var b := TWO_PUBLISHERS;
    var e, f := Both(b, 10, 5, 0, [7], 1, [8]), Both(b, 10, 5, 1, [8], 0, [7]);
    BothPass();
    BothLike(b, 10, 5, 0, [7], 1, [8], ch => ch);
    FiveOnEach(0, [7], 1, [8]);
    FiveOnEach(1, [8], 0, [7]);
    QuietAtFive(e.routes);
    QuietAtFive(f.routes);
    BothWaitAtSix();
    InterleavingIsTold(b, 10, 5, 0, [7], 1, [8], 2, 6);
  }

  /** Nothing recorded, nothing waiting. */
  lemma FreshAgrees(b: Bus)
    requires b.recording == [] && b.published == 0 && forall c :: 0 <= c < |b.channels| ==> b.channels[c].nextSeq == 0
    requires forall k :: 0 <= k < |b.routes| ==>
      b.routes[k].pending == [] && b.routes[k].taken == [] && b.routes[k].dropped == 0
    ensures Agreement(b)
  {
  }

  lemma BothPass()
    ensures var b := TWO_PUBLISHERS;
      && Open(b) && TwoMessages(b, 10, 5, 0, [7], 1, [8], 2)
      && Passes(b, 10, 5, 0, [7]) && Passes(b, 10, 5, 1, [8])
  {
    var b := TWO_PUBLISHERS;
    FreshAgrees(b);
    hide Agreement;
  }

  lemma BothWaitAtSix()
    ensures var b := TWO_PUBLISHERS;
      Passes(b, 10, 5, 0, [7]) && Passes(b, 10, 5, 1, [8]) && HearsBoth(b, 10, 5, 0, [7], 1, [8], 2, 6)
  {
    var b := TWO_PUBLISHERS;
    assert TakesLater(b, 10, 5, 0, [7], 2, 0, 6) && TakesLater(b, 10, 5, 1, [8], 2, 1, 6);
  }

  lemma FiveOnEach(c: nat, x: seq<byte>, d: nat, y: seq<byte>)
    requires c < 2 && d < 2 && c != d && |x| == 1 && |y| == 1
    ensures var e := Both(TWO_PUBLISHERS, 10, 5, c, x, d, y);
      |e.routes| == 2 && forall k :: 0 <= k < 2 ==>
        e.routes[k].latency == None && |e.routes[k].pending| == 1 && e.routes[k].pending[0].time == 5
  {
    var b := TWO_PUBLISHERS;
    assert Passes(b, 10, 5, c, x) && Passes(b, 10, 5, d, y);
    assert Stamped(b, 10, 5, c, x).time == 5 && Stamped(b, 10, 5, d, y).time == 5;
    hide Both, Passes, Stamped;
    AfterBoth(b, 10, 5, c, x, d, y, 0);
    AfterBoth(b, 10, 5, c, x, d, y, 1);
  }

  lemma QuietAtFive(routes: seq<Route>)
    requires forall k :: 0 <= k < |routes| ==>
               routes[k].latency == None && |routes[k].pending| == 1 && routes[k].pending[0].time == 5
    ensures Told(routes, 2, 5) == []
  {
  }
}
