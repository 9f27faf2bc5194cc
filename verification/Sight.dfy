// What one callback can see and do inside a slot: it takes what was visible when the slot
// opened and appends messages that stay hidden, so others cannot tell that it ran.

module Sight {
  import opened VirtualTime
  import opened Interceptor
  import opened DataPlane
  import opened Merge
  import opened Activation

  // ----- What can be taken now ------------------------------------------------------------------

  /** The messages of a route that can be taken at `now`: those before the first hidden one. */
  function InSight(r: Route, now: u64): (s: seq<Msg>)
    ensures s <= r.pending
  {
    r.pending[..VisiblePrefix(r.latency, r.pending, now)]
  }

  lemma {:induction false} PrefixIgnores(latency: Option<u64>, pending: seq<Msg>, m: Msg, now: u64)
    requires !Released(latency, m, now) || VisiblePrefix(latency, pending, now) < |pending|
    ensures VisiblePrefix(latency, pending + [m], now) == VisiblePrefix(latency, pending, now)
    decreases |pending|
  {
    if pending == [] {
    } else if Released(latency, pending[0], now) {
      assert (pending + [m])[1..] == pending[1..] + [m];
      PrefixIgnores(latency, pending[1..], m, now);
    }
  }

  lemma {:induction false} PrefixDrops(latency: Option<u64>, pending: seq<Msg>, now: u64, n: nat)
    requires n <= VisiblePrefix(latency, pending, now)
    ensures VisiblePrefix(latency, pending[n..], now) == VisiblePrefix(latency, pending, now) - n
    decreases n
  {
    if n == 0 {
      assert pending[0..] == pending;
    } else {
      PrefixDrops(latency, pending[1..], now, n - 1);
      assert pending[1..][n - 1..] == pending[n..];
    }
  }

  /** A message that is hidden, or behind a hidden one, changes nothing. */
  lemma SightIgnores(r: Route, m: Msg, now: u64)
    requires !Released(r.latency, m, now) || |InSight(r, now)| < |r.pending|
    ensures InSight(r.(pending := r.pending + [m]), now) == InSight(r, now)
  {
    hide VisiblePrefix;
    PrefixIgnores(r.latency, r.pending, m, now);
  }

  lemma SightDrops(r: Route, now: u64, n: nat)
    requires n <= |InSight(r, now)|
    ensures InSight(Drained(r, n), now) == InSight(r, now)[n..]
  {
    hide VisiblePrefix;
    PrefixDrops(r.latency, r.pending, now, n);
  }

  lemma SightIsFront(r: Route, now: u64)
    ensures VisibleAt(r, now) <==> InSight(r, now) != []
    ensures InSight(r, now) != [] ==> r.pending != [] && InSight(r, now)[0] == r.pending[0]
  {
  }

  lemma ShareIsSight(r: Route, owner: nat, now: u64)
    ensures Share(r, owner, now) == if r.owner == owner then |InSight(r, now)| else 0
  {
    hide VisiblePrefix;
  }

  // ----- Messages without their global sequence numbers --------------------------------------------

  function BareMsgs(ms: seq<Msg>): (r: seq<(u64, seq<byte>)>)
    ensures |r| == |ms| && forall i :: 0 <= i < |r| ==> r[i] == (ms[i].time, ms[i].bytes)
  {
    seq(|ms|, i requires 0 <= i < |ms| => (ms[i].time, ms[i].bytes))
  }

  lemma {:induction false} PrefixIsBare(latency: Option<u64>, a: seq<Msg>, b: seq<Msg>, now: u64)
    requires BareMsgs(a) == BareMsgs(b)
    ensures VisiblePrefix(latency, a, now) == VisiblePrefix(latency, b, now)
    decreases |a|
  {
    assert |a| == |BareMsgs(a)| && |b| == |BareMsgs(b)|;
    if a == [] {
    } else {
      assert BareMsgs(a)[0] == BareMsgs(b)[0];
      assert BareMsgs(a[1..]) == BareMsgs(a)[1..] && BareMsgs(b[1..]) == BareMsgs(b)[1..];
      PrefixIsBare(latency, a[1..], b[1..], now);
    }
  }

  lemma SightIsBare(a: Route, b: Route, now: u64)
    requires a.latency == b.latency && BareMsgs(a.pending) == BareMsgs(b.pending)
    ensures BareMsgs(InSight(a, now)) == BareMsgs(InSight(b, now))
  {
    hide VisiblePrefix;
    PrefixIsBare(a.latency, a.pending, b.pending, now);
    var n := |InSight(a, now)|;
    assert BareMsgs(a.pending[..n]) == BareMsgs(a.pending)[..n];
    assert BareMsgs(b.pending[..n]) == BareMsgs(b.pending)[..n];
  }

  lemma BareAppend(a: seq<Msg>, b: seq<Msg>)
    ensures BareMsgs(a + b) == BareMsgs(a) + BareMsgs(b)
  {
  }

  lemma BareDrop(p: seq<Msg>, n: nat)
    requires n <= |p|
    ensures BareMsgs(p[n..]) == BareMsgs(p)[n..] && BareMsgs(p[..n]) == BareMsgs(p)[..n]
  {
  }

  // ----- The order of messages on two routes ------------------------------------------------------------

  /** The messages of `a` and `b` stand to each other as those of `c` and `d`. */
  ghost predicate SamePair(a: seq<Msg>, b: seq<Msg>, c: seq<Msg>, d: seq<Msg>) {
    && |a| == |c| && |b| == |d|
    && forall p, q :: 0 <= p < |a| && 0 <= q < |b| ==>
         (a[p].globalSeq < b[q].globalSeq <==> c[p].globalSeq < d[q].globalSeq)
  }

  lemma SamePairDrops(a: seq<Msg>, b: seq<Msg>, c: seq<Msg>, d: seq<Msg>, m: nat, n: nat)
    requires SamePair(a, b, c, d) && m <= |a| && n <= |b|
    ensures SamePair(a[m..], b[n..], c[m..], d[n..])
  {
    forall p, q | 0 <= p < |a[m..]| && 0 <= q < |b[n..]|
      ensures a[m..][p].globalSeq < b[n..][q].globalSeq <==> c[m..][p].globalSeq < d[n..][q].globalSeq
    {
      assert a[m + p].globalSeq < b[n + q].globalSeq <==> c[m + p].globalSeq < d[n + q].globalSeq;
    }
  }

  /** The same subscription; the capacity only decides what overflows. */
  predicate SameDeclaration(a: Route, b: Route) {
    a.owner == b.owner && a.channel == b.channel && a.latency == b.latency
  }

  /** Routes one owner cannot tell apart at `now`: the same messages in sight, and in the
      same order across routes if the owner merges them. */
  ghost predicate RoutesAlike(a: seq<Route>, b: seq<Route>, owner: nat, merges: bool, now: u64) {
    && |a| == |b|
    && (forall k :: 0 <= k < |a| ==> SameDeclaration(a[k], b[k]))
    && (forall k :: 0 <= k < |a| && a[k].owner == owner ==>
          BareMsgs(InSight(a[k], now)) == BareMsgs(InSight(b[k], now)))
    && (merges ==> SameOrder(a, b, owner, now))
  }

  ghost predicate SameOrder(a: seq<Route>, b: seq<Route>, owner: nat, now: u64)
    requires |a| == |b|
  {
    forall j, k :: 0 <= j < |a| && 0 <= k < |a| && a[j].owner == owner && a[k].owner == owner ==>
      SamePair(InSight(a[j], now), InSight(a[k], now), InSight(b[j], now), InSight(b[k], now))
  }

  lemma AlikeFront(a: seq<Route>, b: seq<Route>, owner: nat, merges: bool, now: u64, k: nat)
    requires RoutesAlike(a, b, owner, merges, now) && k < |a|
    ensures |a| == |b| && a[k].owner == b[k].owner
    ensures Candidate(a, owner, now, k) <==> Candidate(b, owner, now, k)
    ensures Candidate(a, owner, now, k) ==>
              a[k].pending[0].time == b[k].pending[0].time && a[k].pending[0].bytes == b[k].pending[0].bytes
  {
    hide InSight, SameOrder, VisibleAt;
    assert SameDeclaration(a[k], b[k]);
    SightIsFront(a[k], now);
    SightIsFront(b[k], now);
    if a[k].owner == owner {
      var s, t := InSight(a[k], now), InSight(b[k], now);
      assert |BareMsgs(s)| == |s| && |BareMsgs(t)| == |t|;
      if s != [] { assert BareMsgs(s)[0] == BareMsgs(t)[0]; }
    }
  }

  lemma AlikeFronts(a: seq<Route>, b: seq<Route>, owner: nat, now: u64, j: nat, k: nat)
    requires RoutesAlike(a, b, owner, true, now) && j < |a| && k < |a|
    requires Candidate(a, owner, now, j) && Candidate(a, owner, now, k) && Candidate(b, owner, now, j)
    requires Candidate(b, owner, now, k)
    ensures a[j].pending[0].globalSeq < a[k].pending[0].globalSeq
            <==> b[j].pending[0].globalSeq < b[k].pending[0].globalSeq
  {
    hide InSight, VisibleAt;
    SightIsFront(a[j], now);
    SightIsFront(a[k], now);
    SightIsFront(b[j], now);
    SightIsFront(b[k], now);
    assert SamePair(InSight(a[j], now), InSight(a[k], now), InSight(b[j], now), InSight(b[k], now));
  }

  lemma BestStep(routes: seq<Route>, owner: nat, now: u64, n: nat)
    requires n < |routes|
    ensures var best := Best(routes, owner, now, n);
      Best(routes, owner, now, n + 1)
      == if Candidate(routes, owner, now, n)
            && (best.None? || routes[n].pending[0].globalSeq < routes[best.value].pending[0].globalSeq)
         then Some(n) else best
  {
  }

  lemma SameLength(a: seq<Route>, b: seq<Route>, owner: nat, merges: bool, now: u64)
    requires RoutesAlike(a, b, owner, merges, now)
    ensures |a| == |b|
  {
  }

  lemma {:induction false} AlikeBest(a: seq<Route>, b: seq<Route>, owner: nat, now: u64, n: nat)
    requires RoutesAlike(a, b, owner, true, now) && n <= |a|
    ensures n <= |b| && Best(a, owner, now, n) == Best(b, owner, now, n)
    decreases n
  {
    hide *;
    SameLength(a, b, owner, true, now);
    if n == 0 {
      NoBest(a, owner, now);
      NoBest(b, owner, now);
    } else {
      AlikeBest(a, b, owner, now, n - 1);
      AlikeFront(a, b, owner, true, now, n - 1);
      BestStep(a, owner, now, n - 1);
      BestStep(b, owner, now, n - 1);
      var best := Best(a, owner, now, n - 1);
      if best.Some? && Candidate(a, owner, now, n - 1) {
        AlikeFront(a, b, owner, true, now, best.value);
        AlikeFronts(a, b, owner, now, n - 1, best.value);
      }
    }
  }

  lemma NoBest(routes: seq<Route>, owner: nat, now: u64)
    ensures Best(routes, owner, now, 0) == None
  {
  }

  /** Popping the same number of visible messages from one route keeps two states alike. */
  lemma AlikeDrain(a: seq<Route>, b: seq<Route>, owner: nat, merges: bool, now: u64, k: nat, n: nat)
    requires RoutesAlike(a, b, owner, merges, now) && k < |a| && a[k].owner == owner && n <= |InSight(a[k], now)|
    ensures n <= |InSight(b[k], now)| && n <= |a[k].pending| && n <= |b[k].pending|
    ensures RoutesAlike(a[k := Drained(a[k], n)], b[k := Drained(b[k], n)], owner, merges, now)
  {
    hide InSight, SamePair, SameDeclaration;
    var s, t := InSight(a[k], now), InSight(b[k], now);
    assert |BareMsgs(s)| == |s| && |BareMsgs(t)| == |t|;
    SightDrops(a[k], now, n);
    SightDrops(b[k], now, n);
    BareDrop(s, n);
    BareDrop(t, n);
    var a', b' := a[k := Drained(a[k], n)], b[k := Drained(b[k], n)];
    assert forall i :: 0 <= i < |a| ==> SameDeclaration(a'[i], b'[i]) by { KeepsDeclarations(a, b, k, n, a', b'); }
    if merges { OrderDrain(a, b, owner, now, k, n); }
  }

  lemma KeepsDeclarations(a: seq<Route>, b: seq<Route>, k: nat, n: nat, a': seq<Route>, b': seq<Route>)
    requires |a| == |b| && k < |a| && n <= |a[k].pending| && n <= |b[k].pending|
    requires a' == a[k := Drained(a[k], n)] && b' == b[k := Drained(b[k], n)]
    requires forall i :: 0 <= i < |a| ==> SameDeclaration(a[i], b[i])
    ensures forall i :: 0 <= i < |a| ==> SameDeclaration(a'[i], b'[i])
  {
  }

  lemma OrderDrain(a: seq<Route>, b: seq<Route>, owner: nat, now: u64, k: nat, n: nat)
    requires |a| == |b| && SameOrder(a, b, owner, now) && k < |a| && a[k].owner == owner
    requires n <= |InSight(a[k], now)| && n <= |InSight(b[k], now)|
    ensures SameOrder(a[k := Drained(a[k], n)], b[k := Drained(b[k], n)], owner, now)
  {
    hide InSight, SamePair;
    var a', b' := a[k := Drained(a[k], n)], b[k := Drained(b[k], n)];
    SightDrops(a[k], now, n);
    SightDrops(b[k], now, n);
    forall i, j | 0 <= i < |a| && 0 <= j < |a| && a[i].owner == owner && a[j].owner == owner
      ensures SamePair(InSight(a'[i], now), InSight(a'[j], now), InSight(b'[i], now), InSight(b'[j], now))
    {
      var si, sj, ti, tj := InSight(a[i], now), InSight(a[j], now), InSight(b[i], now), InSight(b[j], now);
      var m, l := if i == k then n else 0, if j == k then n else 0;
      assert SamePair(si, sj, ti, tj);
      SamePairDrops(si, sj, ti, tj, m, l);
      assert si[0..] == si && sj[0..] == sj && ti[0..] == ti && tj[0..] == tj;
    }
  }

  // ----- The same inputs ------------------------------------------------------------------------------------

  /** Inputs without global sequence numbers. */
  function BareInputs(inputs: seq<Input>): (r: seq<(nat, u64, seq<byte>)>)
    ensures |r| == |inputs|
  {
    if inputs == [] then []
    else [(inputs[0].route, inputs[0].msg.time, inputs[0].msg.bytes)] + BareInputs(inputs[1..])
  }

  lemma {:induction false} DescribedIsBare(a: seq<Route>, b: seq<Route>, x: seq<Input>, y: seq<Input>)
    requires |a| == |b| && (forall k :: 0 <= k < |a| ==> SameDeclaration(a[k], b[k]))
    requires BareInputs(x) == BareInputs(y)
    ensures Described(a, x) == Described(b, y)
    decreases |x|
  {
    if x == [] {
      assert |y| == |BareInputs(x)|;
    } else {
      assert |y| == |BareInputs(x)|;
      assert BareInputs(x)[0] == BareInputs(y)[0] && BareInputs(x)[1..] == BareInputs(x[1..])
             && BareInputs(y)[1..] == BareInputs(y[1..]);
      DescribedIsBare(a, b, x[1..], y[1..]);
    }
  }

  lemma PoppedIsDrained(r: Route)
    requires r.pending != []
    ensures Popped(r) == Drained(r, 1)
  {
    assert r.pending[..1] == [r.pending[0]];
  }

  lemma BareInputsCons(x: Input, rest: seq<Input>)
    ensures BareInputs([x] + rest) == [(x.route, x.msg.time, x.msg.bytes)] + BareInputs(rest)
  {
    assert ([x] + rest)[1..] == rest;
  }

  /** States a merging participant cannot tell apart give it the same inputs. */
  lemma {:induction false} AlikeMerge(a: seq<Route>, b: seq<Route>, owner: nat, now: u64)
    requires RoutesAlike(a, b, owner, true, now)
    ensures BareInputs(MergeVisible(a, owner, now).1) == BareInputs(MergeVisible(b, owner, now).1)
    decreases Backlog(a)
  {
    assert |a| == |b|;
    hide RoutesAlike, BareInputs, InSight;
    AlikeBest(a, b, owner, now, |a|);
    match Best(a, owner, now, |a|)
    case None =>
    case Some(k) =>
      AlikeFront(a, b, owner, true, now, k);
      SightIsFront(a[k], now);
      PoppedIsDrained(a[k]);
      PoppedIsDrained(b[k]);
      AlikeDrain(a, b, owner, true, now, k, 1);
      PopShrinksBacklog(a, k);
      var a', b' := a[k := Popped(a[k])], b[k := Popped(b[k])];
      AlikeMerge(a', b', owner, now);
      BareInputsCons(Input(k, a[k].pending[0]), MergeVisible(a', owner, now).1);
      BareInputsCons(Input(k, b[k].pending[0]), MergeVisible(b', owner, now).1);
  }

  /** After the merge nothing of the owner's is in sight. */
  lemma AlikeMerged(a: seq<Route>, b: seq<Route>, owner: nat, now: u64)
    requires RoutesAlike(a, b, owner, true, now)
    ensures RoutesAlike(MergeVisible(a, owner, now).0, MergeVisible(b, owner, now).0, owner, true, now)
  {
    var a', b' := MergeVisible(a, owner, now).0, MergeVisible(b, owner, now).0;
    hide InSight, MergeVisible, SamePair;
    forall k | 0 <= k < |a|
      ensures SameDeclaration(a'[k], b'[k]) && a'[k].owner == a[k].owner
      ensures a[k].owner == owner ==> InSight(a'[k], now) == [] && InSight(b'[k], now) == []
    {
      assert SameDeclaration(a[k], b[k]);
      MergedRoute(a, owner, now, k);
      MergedRoute(b, owner, now, k);
    }
    forall j, k | 0 <= j < |a'| && 0 <= k < |a'| && a'[j].owner == owner && a'[k].owner == owner
      ensures SamePair(InSight(a'[j], now), InSight(a'[k], now), InSight(b'[j], now), InSight(b'[k], now))
    {
      NothingToOrder();
    }
  }

  lemma NothingToOrder()
    ensures SamePair([], [], [], [])
  {
  }

  lemma MergedRoute(a: seq<Route>, owner: nat, now: u64, k: nat)
    requires k < |a|
    ensures var n := if a[k].owner == owner then |InSight(a[k], now)| else 0;
      && n <= |a[k].pending| && MergeVisible(a, owner, now).0[k] == Drained(a[k], n)
      && (a[k].owner == owner ==> InSight(MergeVisible(a, owner, now).0[k], now) == [])
      && (a[k].owner != owner ==> MergeVisible(a, owner, now).0[k] == a[k])
  {
    hide InSight, MergeVisible;
    MergeTakesReleasedPrefixes(a, owner, now, k);
    ShareIsSight(a[k], owner, now);
    if a[k].owner == owner {
      SightDrops(a[k], now, |InSight(a[k], now)|);
    } else {
      assert a[k].pending[0..] == a[k].pending && a[k].taken + a[k].pending[..0] == a[k].taken;
    }
  }

  // ----- Channels nobody hears at once -------------------------------------------------------------------------

  /** A slot: its instant, the run's duration, the owners that act in it and the channels
      they may publish. */
  datatype Slot = Slot(duration: u64, now: u64, parties: set<nat>, outs: set<nat>)

  /** The plan after `n` more messages published at `now`. */
  function Later(steps: seq<Step>, now: u64, n: nat): seq<Step>
    decreases n
  {
    if n == 0 then steps else Later(DropPass(steps, now).0, now, n - 1)
  }

  predicate HeardAt(v: Verdict, now: u64) {
    v.Visible? && v.time == now
  }

  /** However many messages are published at `now`, the channel's plan lets none through undelayed. */
  ghost predicate Silent(c: Channel, s: Slot) {
    forall n: nat, bytes: seq<byte> :: |bytes| == c.size ==>
      !HeardAt(Apply(Later(c.steps, s.now, n), s.duration, s.now, bytes).1, s.now)
  }

  lemma SilentStays(c: Channel, s: Slot, bytes: seq<byte>)
    requires Silent(c, s) && |bytes| == c.size
    ensures !HeardAt(Apply(c.steps, s.duration, s.now, bytes).1, s.now)
    ensures forall next: Channel :: next.size == c.size && next.steps == Apply(c.steps, s.duration, s.now, bytes).0 ==>
              Silent(next, s)
  {
    hide Apply, HeardAt;
    assert Later(c.steps, s.now, 0) == c.steps;
    ApplyMeaning(c.steps, s.duration, s.now, bytes);
    var after := Apply(c.steps, s.duration, s.now, bytes).0;
    forall n: nat, more: seq<byte> | |more| == c.size
      ensures !HeardAt(Apply(Later(after, s.now, n), s.duration, s.now, more).1, s.now)
    {
      assert Later(c.steps, s.now, n + 1) == Later(after, s.now, n);
    }
  }

  /** A message published on the route's channel now cannot be taken from it now. */
  ghost predicate Muted(r: Route, c: Channel, s: Slot) {
    r.latency != Some(0) || |InSight(r, s.now)| < |r.pending| || Silent(c, s)
  }

  /** No acting participant hears at once what another, or itself, publishes in this slot. */
  ghost predicate Hushed(b: Bus, s: Slot) {
    forall k :: 0 <= k < |b.routes| && b.routes[k].owner in s.parties && b.routes[k].channel in s.outs
                && b.routes[k].channel < |b.channels| ==>
      Muted(b.routes[k], b.channels[b.routes[k].channel], s)
  }

  lemma MutedIgnores(r: Route, c: Channel, s: Slot, bytes: seq<byte>, seqNo: u64)
    requires Muted(r, c, s) && |bytes| == c.size
    ensures var v := Apply(c.steps, s.duration, s.now, bytes).1;
      v.Visible? ==> var m := Msg(v.time, seqNo, v.bytes);
        InSight(r.(pending := r.pending + [m]), s.now) == InSight(r, s.now)
  {
    hide Apply, InSight, Silent;
    var v := Apply(c.steps, s.duration, s.now, bytes).1;
    if v.Visible? {
      var m := Msg(v.time, seqNo, v.bytes);
      if Silent(c, s) { SilentStays(c, s, bytes); }
      SightIgnores(r, m, s.now);
    }
  }
}
