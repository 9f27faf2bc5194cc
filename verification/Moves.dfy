// How a callback moves the bus: it pops what was in sight from its own routes and appends
// messages nobody in the slot can see yet. Two callbacks that see the same do the same.

module Moves {
  import opened VirtualTime
  import opened Interceptor
  import opened DataPlane
  import opened Merge
  import opened Activation
  import opened Sight

  // ----- The Recording without global sequence numbers ---------------------------------------------

  datatype Entry = Entry(channel: nat, seqNo: nat, time: u64, bytes: seq<byte>)

  function Bare(recording: seq<Record>): (r: seq<Entry>)
    ensures |r| == |recording|
    ensures forall i :: 0 <= i < |r| ==>
      r[i] == Entry(recording[i].channel, recording[i].seqNo, recording[i].msg.time, recording[i].msg.bytes)
  {
    seq(|recording|, i requires 0 <= i < |recording| =>
      Entry(recording[i].channel, recording[i].seqNo, recording[i].msg.time, recording[i].msg.bytes))
  }

  /** The entries on one channel, in order, as messages. */
  function OnChannel(entries: seq<Entry>, ch: nat): seq<(u64, seq<byte>)> {
    if entries == [] then []
    else
      var e := entries[|entries| - 1];
      OnChannel(entries[..|entries| - 1], ch) + if e.channel == ch then [(e.time, e.bytes)] else []
  }

  lemma {:induction false} OnChannelConcat(a: seq<Entry>, b: seq<Entry>, ch: nat)
    ensures OnChannel(a + b, ch) == OnChannel(a, ch) + OnChannel(b, ch)
    decreases |b|
  {
    if b == [] {
      assert a + b == a;
    } else {
      assert (a + b)[..|a + b| - 1] == a + b[..|b| - 1];
      OnChannelConcat(a, b[..|b| - 1], ch);
    }
  }

  /** What was recorded since `b0`. */
  function Since(b0: Bus, b: Bus): seq<Entry> {
    if |b0.recording| <= |b.recording| then Bare(b.recording[|b0.recording|..]) else []
  }

  lemma SinceTwice(b0: Bus, b1: Bus, b2: Bus)
    requires b0.recording <= b1.recording <= b2.recording
    ensures Since(b0, b2) == Since(b0, b1) + Since(b1, b2)
  {
    assert b1.recording[|b0.recording|..] == b2.recording[|b0.recording|..|b1.recording|];
  }

  // ----- One route moves --------------------------------------------------------------------------------

  /** The queue lost its first `n` messages and gained `added`. */
  ghost predicate QueueMoved(p0: seq<Msg>, p: seq<Msg>, n: nat, added: seq<(u64, seq<byte>)>) {
    n <= |p0| && |p0| - n <= |p| && p[..|p0| - n] == p0[n..] && BareMsgs(p[|p0| - n..]) == added
  }

  lemma QueueMovesOn(p0: seq<Msg>, p1: seq<Msg>, p2: seq<Msg>, n1: nat, n2: nat,
                     a1: seq<(u64, seq<byte>)>, a2: seq<(u64, seq<byte>)>)
    requires QueueMoved(p0, p1, n1, a1) && QueueMoved(p1, p2, n2, a2) && n1 + n2 <= |p0|
    ensures QueueMoved(p0, p2, n1 + n2, a1 + a2) && p0[..n1] + p1[..n2] == p0[..n1 + n2]
  {
    hide BareMsgs;
    var kept := p1[..|p0| - n1];
    assert p1[..n2] == kept[..n2];
    assert p0[..n1] + kept[..n2] == p0[..n1 + n2];
    var head := p2[..|p1| - n2];
    var l := |p0| - n1 - n2;
    assert head[..l] == p1[n2..][..l] == kept[n2..];
    assert p2[..l] == head[..l];
    assert head[l..] == p1[n2..][l..] == p1[|p0| - n1..];
    assert p2[l..] == head[l..] + p2[|p1| - n2..];
    BareAppend(p1[|p0| - n1..], p2[|p1| - n2..]);
  }

  /** How many messages were popped. */
  function Pops(r0: Route, r: Route): int {
    |r.taken| - |r0.taken|
  }

  ghost predicate SightMoved(s0: seq<Msg>, s: seq<Msg>, n: int) {
    0 <= n <= |s0| && s == s0[n..]
  }

  /** How one route moved: only its owner pops, and only what was in sight; `added` came at the
      end and, where a participant of this slot could look, stays out of sight. */
  ghost predicate RouteMoved(r0: Route, r: Route, mine: bool, watched: bool, added: seq<(u64, seq<byte>)>, now: u64) {
    var n := Pops(r0, r);
    && SameDeclaration(r0, r) && r.capacity == r0.capacity && r.dropped == r0.dropped
    && 0 <= n && (!mine ==> n == 0)
    && QueueMoved(r0.pending, r.pending, n, added)
    && r.taken == r0.taken + r0.pending[..n]
    && (mine ==> n <= |InSight(r0, now)|)
    && (watched ==> SightMoved(InSight(r0, now), InSight(r, now), n))
  }

  lemma RouteStays(r: Route, mine: bool, watched: bool, now: u64)
    ensures RouteMoved(r, r, mine, watched, [], now)
  {
    hide InSight;
    assert r.taken + r.pending[..0] == r.taken && r.pending[0..] == r.pending;
    assert r.pending[..|r.pending|] == r.pending && BareMsgs(r.pending[|r.pending|..]) == [];
    assert InSight(r, now)[0..] == InSight(r, now);
  }

  lemma RouteDrains(r: Route, now: u64, n: nat, watched: bool)
    requires n <= |InSight(r, now)|
    ensures n <= |r.pending| && RouteMoved(r, Drained(r, n), true, watched, [], now)
  {
    hide InSight;
    SightDrops(r, now, n);
    var d := Drained(r, n);
    assert d.pending[..|d.pending|] == d.pending && BareMsgs(d.pending[|d.pending|..]) == [];
  }

  lemma RoutePushed(r: Route, m: Msg, mine: bool, watched: bool, now: u64)
    requires watched ==> InSight(r.(pending := r.pending + [m]), now) == InSight(r, now)
    ensures RouteMoved(r, r.(pending := r.pending + [m]), mine, watched, [(m.time, m.bytes)], now)
  {
    hide InSight;
    var p := r.pending + [m];
    assert r.taken + r.pending[..0] == r.taken && r.pending[0..] == r.pending;
    assert p[..|r.pending|] == r.pending && p[|r.pending|..] == [m];
    assert BareMsgs([m]) == [(m.time, m.bytes)];
    assert InSight(r, now)[0..] == InSight(r, now);
  }

  lemma RouteMovesOn(r0: Route, r1: Route, r2: Route, mine: bool, watched: bool,
                     a1: seq<(u64, seq<byte>)>, a2: seq<(u64, seq<byte>)>, now: u64)
    requires RouteMoved(r0, r1, mine, watched, a1, now) && RouteMoved(r1, r2, mine, watched, a2, now)
    requires mine ==> watched
    ensures RouteMoved(r0, r2, mine, watched, a1 + a2, now)
  {
    hide InSight, QueueMoved, BareMsgs;
    var n1, n2 := Pops(r0, r1), Pops(r1, r2);
    assert n1 + n2 <= |r0.pending| by {
      if mine {
        SightWithin(r0, now);
      } else {
        QueueHolds(r0.pending, r1.pending, n1, a1);
      }
    }
    QueueMovesOn(r0.pending, r1.pending, r2.pending, n1, n2, a1, a2);
    assert r0.taken + r0.pending[..n1] + r1.pending[..n2] == r0.taken + (r0.pending[..n1] + r1.pending[..n2]);
    if watched {
      var s := InSight(r0, now);
      assert s[n1..][n2..] == s[n1 + n2..];
    }
  }

  lemma QueueHolds(p0: seq<Msg>, p: seq<Msg>, n: nat, added: seq<(u64, seq<byte>)>)
    requires QueueMoved(p0, p, n, added)
    ensures n <= |p0|
  {
  }

  lemma SightWithin(r: Route, now: u64)
    ensures |InSight(r, now)| <= |r.pending|
  {
  }

  // ----- The bus moves --------------------------------------------------------------------------------------

  /** Every route is unbounded. */
  ghost predicate Open(b: Bus) {
    forall k :: 0 <= k < |b.routes| ==> b.routes[k].capacity.None?
  }

  ghost predicate ChannelMoved(c0: Channel, c: Channel, spoken: bool, s: Slot) {
    c.size == c0.size && (!spoken ==> c == c0) && (Silent(c0, s) ==> Silent(c, s))
  }

  ghost predicate ChannelsMoved(a: seq<Channel>, b: seq<Channel>, outs: set<nat>, s: Slot) {
    |a| == |b| && forall ch :: 0 <= ch < |a| ==> ChannelMoved(a[ch], b[ch], ch in outs, s)
  }

  ghost predicate RoutesMoved(a: seq<Route>, b: seq<Route>, entries: seq<Entry>, owners: set<nat>, s: Slot) {
    |a| == |b| && forall k :: 0 <= k < |a| ==>
      RouteMoved(a[k], b[k], a[k].owner in owners, a[k].owner in s.parties, OnChannel(entries, a[k].channel), s.now)
  }

  ghost predicate AllOn(entries: seq<Entry>, outs: set<nat>) {
    forall e :: e in entries ==> e.channel in outs
  }

  /** What `owners` can do to the bus in a slot by publishing on `outs`. */
  ghost predicate Moved(b0: Bus, b: Bus, owners: set<nat>, outs: set<nat>, s: Slot) {
    && ChannelsMoved(b0.channels, b.channels, outs, s)
    && b0.recording <= b.recording && b0.published <= b.published && AllOn(Since(b0, b), outs)
    && RoutesMoved(b0.routes, b.routes, Since(b0, b), owners, s)
  }

  lemma Unmoved(b: Bus, owners: set<nat>, outs: set<nat>, s: Slot)
    ensures Moved(b, b, owners, outs, s)
  {
    hide RouteMoved;
    assert Since(b, b) == [];
    forall k | 0 <= k < |b.routes|
      ensures RouteMoved(b.routes[k], b.routes[k], b.routes[k].owner in owners, b.routes[k].owner in s.parties,
                         OnChannel([], b.routes[k].channel), s.now)
    {
      RouteStays(b.routes[k], b.routes[k].owner in owners, b.routes[k].owner in s.parties, s.now);
    }
  }

  lemma RouteMovedDeclares(r0: Route, r: Route, mine: bool, watched: bool, added: seq<(u64, seq<byte>)>, now: u64)
    requires RouteMoved(r0, r, mine, watched, added, now)
    ensures SameDeclaration(r0, r) && r.capacity == r0.capacity
  {
  }

  lemma RoutesMoveOn(a: seq<Route>, b: seq<Route>, c: seq<Route>, e1: seq<Entry>, e2: seq<Entry>, owners: set<nat>,
                     s: Slot)
    requires RoutesMoved(a, b, e1, owners, s) && RoutesMoved(b, c, e2, owners, s) && owners <= s.parties
    ensures RoutesMoved(a, c, e1 + e2, owners, s)
  {
    hide RouteMoved, OnChannel;
    forall k | 0 <= k < |a|
      ensures RouteMoved(a[k], c[k], a[k].owner in owners, a[k].owner in s.parties, OnChannel(e1 + e2, a[k].channel),
                         s.now)
    {
      var mine, watched, ch := a[k].owner in owners, a[k].owner in s.parties, a[k].channel;
      RouteMovedDeclares(a[k], b[k], mine, watched, OnChannel(e1, ch), s.now);
      OnChannelConcat(e1, e2, ch);
      RouteMovesOn(a[k], b[k], c[k], mine, watched, OnChannel(e1, ch), OnChannel(e2, ch), s.now);
    }
  }

  lemma MovesOn(b0: Bus, b1: Bus, b2: Bus, owners: set<nat>, outs: set<nat>, s: Slot)
    requires Moved(b0, b1, owners, outs, s) && Moved(b1, b2, owners, outs, s) && owners <= s.parties
    ensures Moved(b0, b2, owners, outs, s)
    ensures Since(b0, b2) == Since(b0, b1) + Since(b1, b2)
  {
    hide RoutesMoved, Since;
    SinceTwice(b0, b1, b2);
    RoutesMoveOn(b0.routes, b1.routes, b2.routes, Since(b0, b1), Since(b1, b2), owners, s);
  }

  lemma RouteMovedWiden(r0: Route, r: Route, mine: bool, wide: bool, watched: bool, added: seq<(u64, seq<byte>)>,
                        now: u64)
    requires RouteMoved(r0, r, mine, watched, added, now) && (mine ==> wide)
    ensures RouteMoved(r0, r, wide, watched, added, now)
  {
  }

  lemma MovesWiden(b0: Bus, b: Bus, owners: set<nat>, outs: set<nat>, owners': set<nat>, outs': set<nat>, s: Slot)
    requires Moved(b0, b, owners, outs, s) && owners <= owners' && outs <= outs'
    ensures Moved(b0, b, owners', outs', s)
  {
    hide RouteMoved, OnChannel, Since;
    forall k | 0 <= k < |b0.routes|
      ensures RouteMoved(b0.routes[k], b.routes[k], b0.routes[k].owner in owners', b0.routes[k].owner in s.parties,
                         OnChannel(Since(b0, b), b0.routes[k].channel), s.now)
    {
      var r := b0.routes[k];
      RouteMovedWiden(r, b.routes[k], r.owner in owners, r.owner in owners', r.owner in s.parties,
                      OnChannel(Since(b0, b), r.channel), s.now);
    }
  }

  /** A watched route that a later message cannot surface on stays that way. */
  lemma RouteStaysMuted(r0: Route, r: Route, mine: bool, added: seq<(u64, seq<byte>)>, before: Channel, after: Channel,
                        s: Slot)
    requires RouteMoved(r0, r, mine, true, added, s.now) && Muted(r0, before, s)
    requires Silent(before, s) ==> Silent(after, s)
    ensures Muted(r, after, s)
  {
    hide InSight, Silent;
  }

  lemma MovedStaysHushed(b0: Bus, b: Bus, owners: set<nat>, outs: set<nat>, s: Slot)
    requires Moved(b0, b, owners, outs, s) && Hushed(b0, s) && Open(b0)
    ensures Hushed(b, s) && Open(b)
  {
    hide RouteMoved, Muted, Since, OnChannel;
    forall k | 0 <= k < |b.routes|
      ensures b.routes[k].capacity.None?
      ensures b.routes[k].owner in s.parties && b.routes[k].channel in s.outs && b.routes[k].channel < |b.channels| ==>
        Muted(b.routes[k], b.channels[b.routes[k].channel], s)
    {
      var r0, r := b0.routes[k], b.routes[k];
      var mine, added := r0.owner in owners, OnChannel(Since(b0, b), r0.channel);
      RouteMovedDeclares(r0, r, mine, r0.owner in s.parties, added, s.now);
      if r.owner in s.parties && r.channel in s.outs && r.channel < |b.channels| {
        assert ChannelMoved(b0.channels[r.channel], b.channels[r.channel], r.channel in outs, s);
        RouteStaysMuted(r0, r, mine, added, b0.channels[r.channel], b.channels[r.channel], s);
      }
    }
  }

  // ----- What one callback does -----------------------------------------------------------------------------

  /** The caller acts in this slot and publishes what the slot allows. */
  predicate Acts(who: Caller, s: Slot) {
    who.owner in s.parties && who.outputs <= s.outs
  }

  lemma TakeMoves(b: Bus, who: Caller, k: nat, s: Slot)
    requires k < |b.routes| && b.routes[k].owner == who.owner
    ensures Moved(b, Take(b, s.now, k).0, {who.owner}, who.outputs, s)
  {
    Unmoved(b, {who.owner}, who.outputs, s);
    var b' := Take(b, s.now, k).0;
    SightIsFront(b.routes[k], s.now);
    if VisibleAt(b.routes[k], s.now) {
      PoppedIsDrained(b.routes[k]);
      RouteDrains(b.routes[k], s.now, 1, b.routes[k].owner in s.parties);
      hide RouteMoved, InSight, Drained, Popped;
      assert Since(b, b') == [];
    }
  }

  lemma MergeMoves(b: Bus, who: Caller, s: Slot)
    ensures Moved(b, b.(routes := MergeVisible(b.routes, who.owner, s.now).0), {who.owner}, who.outputs, s)
  {
    hide MergeVisible, RouteMoved, InSight, Drained, Silent;
    var b' := b.(routes := MergeVisible(b.routes, who.owner, s.now).0);
    assert Since(b, b') == [];
    forall k | 0 <= k < |b.routes|
      ensures RouteMoved(b.routes[k], b'.routes[k], b.routes[k].owner in {who.owner}, b.routes[k].owner in s.parties,
                         OnChannel([], b.routes[k].channel), s.now)
    {
      var r := b.routes[k];
      MergedRoute(b.routes, who.owner, s.now, k);
      if r.owner == who.owner {
        RouteDrains(r, s.now, |InSight(r, s.now)|, r.owner in s.parties);
      } else {
        RouteStays(r, false, r.owner in s.parties, s.now);
      }
    }
  }

  /** On an open bus a delivered message is appended to every route of its channel. */
  lemma OpenDelivers(b: Bus, ch: nat, m: Msg)
    requires Open(b)
    ensures var (routes, ok) := Deliver(b.routes, ch, m);
      ok && |routes| == |b.routes| && forall k :: 0 <= k < |routes| ==>
        routes[k] == if b.routes[k].channel == ch then b.routes[k].(pending := b.routes[k].pending + [m])
                     else b.routes[k]
  {
    OpenDeliversAll(b.routes, ch, m);
    hide Deliver;
    forall k | 0 <= k < |b.routes|
      ensures Deliver(b.routes, ch, m).0[k]
           == if b.routes[k].channel == ch then b.routes[k].(pending := b.routes[k].pending + [m]) else b.routes[k]
    {
      DeliverPushesEach(b.routes, ch, m, k);
    }
  }

  lemma {:induction false} OpenDeliversAll(routes: seq<Route>, ch: nat, m: Msg)
    requires forall k :: 0 <= k < |routes| ==> routes[k].capacity.None?
    ensures Deliver(routes, ch, m).1
    decreases |routes|
  {
    if routes == [] {
    } else {
      OpenDeliversAll(routes[1..], ch, m);
    }
  }

  lemma AcceptIs(b: Bus, ch: nat, steps: seq<Step>, time: u64, bytes: seq<byte>)
    requires Open(b) && ch < |b.channels|
    ensures var (b', ok) := Accept(b, ch, steps, time, bytes);
      var c := b.channels[ch];
      && ok && b'.channels == b.channels[ch := c.(steps := steps, nextSeq := (c.nextSeq + 1) % TWO32)]
      && b.recording <= b'.recording && b'.published == b.published + 1
      && Since(b, b') == [Entry(ch, c.nextSeq, time, bytes)]
      && b'.routes == Deliver(b.routes, ch, Msg(time, b.published % TWO64, bytes)).0
  {
    hide Deliver;
    var m := Msg(time, b.published % TWO64, bytes);
    OpenDelivers(b, ch, m);
    var b' := Accept(b, ch, steps, time, bytes).0;
    assert b'.recording[|b.recording|..] == [Record(ch, b.channels[ch].nextSeq, m)];
  }

  lemma AcceptMovesChannels(b: Bus, ch: nat, bytes: seq<byte>, nextSeq: nat, outs: set<nat>, s: Slot)
    requires ch < |b.channels| && ch in outs && |bytes| == b.channels[ch].size
    ensures var steps := Apply(b.channels[ch].steps, s.duration, s.now, bytes).0;
      ChannelsMoved(b.channels, b.channels[ch := b.channels[ch].(steps := steps, nextSeq := nextSeq)], outs, s)
  {
    if Silent(b.channels[ch], s) { SilentStays(b.channels[ch], s, bytes); }
    hide Silent, Apply;
  }

  lemma AcceptMovesRoute(b: Bus, who: Caller, ch: nat, bytes: seq<byte>, s: Slot, k: nat)
    requires Open(b) && Hushed(b, s) && Acts(who, s) && ch in who.outputs && ch < |b.channels|
    requires |bytes| == b.channels[ch].size && Apply(b.channels[ch].steps, s.duration, s.now, bytes).1.Visible?
    requires k < |b.routes|
    ensures var v := Apply(b.channels[ch].steps, s.duration, s.now, bytes).1;
      var (r, e) := (b.routes[k], Entry(ch, b.channels[ch].nextSeq, v.time, v.bytes));
      RouteMoved(r, Deliver(b.routes, ch, Msg(v.time, b.published % TWO64, v.bytes)).0[k],
                 r.owner in {who.owner}, r.owner in s.parties, OnChannel([e], r.channel), s.now)
  {
    hide Apply, Deliver, RouteMoved, InSight, Muted;
    var v, r := Apply(b.channels[ch].steps, s.duration, s.now, bytes).1, b.routes[k];
    var m := Msg(v.time, b.published % TWO64, v.bytes);
    OpenDelivers(b, ch, m);
    OneEntry(Entry(ch, b.channels[ch].nextSeq, v.time, v.bytes), r.channel);
    if r.channel == ch {
      if r.owner in s.parties { MutedIgnores(r, b.channels[ch], s, bytes, b.published % TWO64); }
      RoutePushed(r, m, r.owner == who.owner, r.owner in s.parties, s.now);
    } else {
      RouteStays(r, r.owner == who.owner, r.owner in s.parties, s.now);
    }
  }

  lemma AcceptMoves(b: Bus, who: Caller, ch: nat, bytes: seq<byte>, s: Slot)
    requires Open(b) && Hushed(b, s) && Acts(who, s) && ch in who.outputs && ch < |b.channels|
    requires |bytes| == b.channels[ch].size && Apply(b.channels[ch].steps, s.duration, s.now, bytes).1.Visible?
    ensures var (steps, v) := Apply(b.channels[ch].steps, s.duration, s.now, bytes);
      Moved(b, Accept(b, ch, steps, v.time, v.bytes).0, {who.owner}, who.outputs, s)
  {
    hide Apply, Accept, Deliver, RouteMoved, Hushed, Open, Acts, ChannelsMoved, Since, OnChannel;
    var (steps, v) := Apply(b.channels[ch].steps, s.duration, s.now, bytes);
    AcceptIs(b, ch, steps, v.time, v.bytes);
    AcceptMovesChannels(b, ch, bytes, (b.channels[ch].nextSeq + 1) % TWO32, who.outputs, s);
    forall k | 0 <= k < |b.routes|
      ensures RouteMoved(b.routes[k], Deliver(b.routes, ch, Msg(v.time, b.published % TWO64, v.bytes)).0[k],
                         b.routes[k].owner in {who.owner}, b.routes[k].owner in s.parties,
                         OnChannel([Entry(ch, b.channels[ch].nextSeq, v.time, v.bytes)], b.routes[k].channel), s.now)
    {
      AcceptMovesRoute(b, who, ch, bytes, s, k);
    }
  }

  lemma OneEntry(e: Entry, ch: nat)
    ensures OnChannel([e], ch) == if e.channel == ch then [(e.time, e.bytes)] else []
  {
    assert [e][..0] == [];
  }

  lemma SuppressMoves(b: Bus, who: Caller, ch: nat, bytes: seq<byte>, s: Slot)
    requires ch in who.outputs && ch < |b.channels| && |bytes| == b.channels[ch].size
    ensures var steps := Apply(b.channels[ch].steps, s.duration, s.now, bytes).0;
      Moved(b, b.(channels := b.channels[ch := b.channels[ch].(steps := steps)], published := b.published + 1),
            {who.owner}, who.outputs, s)
  {
    Unmoved(b, {who.owner}, who.outputs, s);
    var steps := Apply(b.channels[ch].steps, s.duration, s.now, bytes).0;
    if Silent(b.channels[ch], s) { SilentStays(b.channels[ch], s, bytes); }
    hide RouteMoved, Silent, Apply;
    var b' := b.(channels := b.channels[ch := b.channels[ch].(steps := steps)], published := b.published + 1);
    assert Since(b, b') == Since(b, b);
  }

  lemma PublishMoves(b: Bus, who: Caller, ch: nat, bytes: seq<byte>, s: Slot)
    requires Open(b) && Hushed(b, s) && Acts(who, s) && ch in who.outputs
    requires Publish(b, s.duration, s.now, ch, bytes).1
    ensures Moved(b, Publish(b, s.duration, s.now, ch, bytes).0, {who.owner}, who.outputs, s)
  {
    hide Moved, Apply, Accept, Hushed, Open;
    if Apply(b.channels[ch].steps, s.duration, s.now, bytes).1.Visible? {
      AcceptMoves(b, who, ch, bytes, s);
    } else {
      SuppressMoves(b, who, ch, bytes, s);
    }
  }

  lemma AnswerMoves(b: Bus, who: Caller, call: Call, s: Slot)
    requires Open(b) && Hushed(b, s) && Acts(who, s) && Answer(b, s.duration, s.now, who, call).1.Some?
    ensures Moved(b, Answer(b, s.duration, s.now, who, call).0, {who.owner}, who.outputs, s)
  {
    hide Moved, Take, Publish, MergeVisible, Hushed, Open, Acts;
    match call
    case CallTake(k) => TakeMoves(b, who, k, s);
    case CallTakeAll => MergeMoves(b, who, s);
    case CallPublish(ch, bytes) => PublishMoves(b, who, ch, bytes, s);
  }

  // ----- Who sees the same does the same ------------------------------------------------------------------------

  /** Two buses one caller cannot tell apart in this slot. */
  ghost predicate Alike(b: Bus, c: Bus, who: Caller, merges: bool, s: Slot) {
    && RoutesAlike(b.routes, c.routes, who.owner, merges, s.now)
    && |b.channels| == |c.channels|
    && forall ch :: ch in who.outputs && ch < |b.channels| ==> b.channels[ch] == c.channels[ch]
  }

  ghost predicate SamePops(a: seq<Route>, a': seq<Route>, b: seq<Route>, b': seq<Route>, owner: nat) {
    && |a| == |a'| == |b| == |b'|
    && forall k :: 0 <= k < |a| && a[k].owner == owner ==> Pops(a[k], a'[k]) == Pops(b[k], b'[k])
  }

  /** From `b` to `b'` the owner published, recorded and popped what it did from `c` to `c'`. */
  ghost predicate SameDeeds(b: Bus, b': Bus, c: Bus, c': Bus, owner: nat) {
    && b'.published - b.published == c'.published - c.published
    && Since(b, b') == Since(c, c') && SamePops(b.routes, b'.routes, c.routes, c'.routes, owner)
  }

  lemma TakeAlike(b: Bus, c: Bus, who: Caller, merges: bool, k: nat, s: Slot)
    requires Alike(b, c, who, merges, s) && k < |b.routes| && b.routes[k].owner == who.owner
    ensures k < |c.routes| && c.routes[k].owner == who.owner
    ensures var (b', m) := Take(b, s.now, k);
      var (c', n) := Take(c, s.now, k);
      && m.Some? == n.Some? && (m.Some? ==> m.value.time == n.value.time && m.value.bytes == n.value.bytes)
      && Alike(b', c', who, merges, s) && SameDeeds(b, b', c, c', who.owner)
  {
    hide InSight, RoutesAlike;
    SameLength(b.routes, c.routes, who.owner, merges, s.now);
    AlikeFront(b.routes, c.routes, who.owner, merges, s.now, k);
    var b', c' := Take(b, s.now, k).0, Take(c, s.now, k).0;
    assert Since(b, b') == [] == Since(c, c');
    if VisibleAt(b.routes[k], s.now) {
      SightIsFront(b.routes[k], s.now);
      PoppedIsDrained(b.routes[k]);
      PoppedIsDrained(c.routes[k]);
      AlikeDrain(b.routes, c.routes, who.owner, merges, s.now, k, 1);
    }
  }

  lemma MergeAlike(b: Bus, c: Bus, who: Caller, s: Slot)
    requires Alike(b, c, who, true, s)
    ensures var (rb, ib) := MergeVisible(b.routes, who.owner, s.now);
      var (rc, ic) := MergeVisible(c.routes, who.owner, s.now);
      && Described(b.routes, ib) == Described(c.routes, ic)
      && Alike(b.(routes := rb), c.(routes := rc), who, true, s)
      && SameDeeds(b, b.(routes := rb), c, c.(routes := rc), who.owner)
  {
    var (rb, ib) := MergeVisible(b.routes, who.owner, s.now);
    var (rc, ic) := MergeVisible(c.routes, who.owner, s.now);
    AlikeMerge(b.routes, c.routes, who.owner, s.now);
    AlikeMerged(b.routes, c.routes, who.owner, s.now);
    hide MergeVisible, InSight, SameOrder, Described, Drained;
    DescribedIsBare(b.routes, c.routes, ib, ic);
    assert Since(b, b.(routes := rb)) == [] == Since(c, c.(routes := rc));
    forall k | 0 <= k < |b.routes| && b.routes[k].owner == who.owner
      ensures Pops(b.routes[k], rb[k]) == Pops(c.routes[k], rc[k])
    {
      assert SameDeclaration(b.routes[k], c.routes[k]);
      MergedPops(b.routes, who.owner, s.now, k);
      MergedPops(c.routes, who.owner, s.now, k);
      assert |BareMsgs(InSight(b.routes[k], s.now))| == |BareMsgs(InSight(c.routes[k], s.now))|;
    }
  }

  lemma MergedPops(routes: seq<Route>, owner: nat, now: u64, k: nat)
    requires k < |routes| && routes[k].owner == owner
    ensures Pops(routes[k], MergeVisible(routes, owner, now).0[k]) == |InSight(routes[k], now)|
  {
    hide MergeVisible;
    MergedRoute(routes, owner, now, k);
  }

  /** Routes whose sight did not change. */
  ghost predicate Unseen(a: seq<Route>, a': seq<Route>, owner: nat, now: u64) {
    |a| == |a'| && forall k :: 0 <= k < |a| ==>
      SameDeclaration(a[k], a'[k])
      && (a[k].owner == owner ==> Pops(a[k], a'[k]) == 0 && InSight(a'[k], now) == InSight(a[k], now))
  }

  lemma UnseenAlike(a: seq<Route>, a': seq<Route>, b: seq<Route>, b': seq<Route>, owner: nat, merges: bool, now: u64)
    requires RoutesAlike(a, b, owner, merges, now) && Unseen(a, a', owner, now) && Unseen(b, b', owner, now)
    ensures RoutesAlike(a', b', owner, merges, now) && SamePops(a, a', b, b', owner)
  {
    hide InSight, SamePair;
    forall k | 0 <= k < |a|
      ensures SameDeclaration(a'[k], b'[k])
      ensures a[k].owner == owner ==>
                InSight(a'[k], now) == InSight(a[k], now) && InSight(b'[k], now) == InSight(b[k], now)
    {
      assert SameDeclaration(a[k], b[k]) && SameDeclaration(a[k], a'[k]) && SameDeclaration(b[k], b'[k]);
    }
    if merges { UnseenOrder(a, a', b, b', owner, now); }
  }

  lemma UnseenOrder(a: seq<Route>, a': seq<Route>, b: seq<Route>, b': seq<Route>, owner: nat, now: u64)
    requires |a| == |b| == |a'| == |b'| && SameOrder(a, b, owner, now)
    requires forall k :: 0 <= k < |a| ==> a'[k].owner == a[k].owner
    requires forall k :: 0 <= k < |a| && a[k].owner == owner ==>
               InSight(a'[k], now) == InSight(a[k], now) && InSight(b'[k], now) == InSight(b[k], now)
    ensures SameOrder(a', b', owner, now)
  {
    hide InSight, SamePair;
  }

  lemma RouteUnseen(r: Route, m: Msg, s: Slot)
    requires InSight(r.(pending := r.pending + [m]), s.now) == InSight(r, s.now)
    ensures var r' := r.(pending := r.pending + [m]);
      SameDeclaration(r, r') && Pops(r, r') == 0 && InSight(r', s.now) == InSight(r, s.now)
  {
  }

  lemma AcceptUnseen(b: Bus, who: Caller, ch: nat, bytes: seq<byte>, s: Slot)
    requires Open(b) && Hushed(b, s) && Acts(who, s) && ch in who.outputs && ch < |b.channels|
    requires |bytes| == b.channels[ch].size
    requires Apply(b.channels[ch].steps, s.duration, s.now, bytes).1.Visible?
    ensures var (steps, v) := Apply(b.channels[ch].steps, s.duration, s.now, bytes);
      var (b', ok) := Accept(b, ch, steps, v.time, v.bytes);
      && ok && Unseen(b.routes, b'.routes, who.owner, s.now)
      && Since(b, b') == [Entry(ch, b.channels[ch].nextSeq, v.time, v.bytes)]
  {
    var (steps, v) := Apply(b.channels[ch].steps, s.duration, s.now, bytes);
    var b' := Accept(b, ch, steps, v.time, v.bytes).0;
    var m := Msg(v.time, b.published % TWO64, v.bytes);
    OpenDelivers(b, ch, m);
    assert b'.recording[|b.recording|..] == [Record(ch, b.channels[ch].nextSeq, m)];
    hide InSight, Muted, Deliver, Apply;
    forall k | 0 <= k < |b.routes|
      ensures SameDeclaration(b.routes[k], b'.routes[k])
      ensures b.routes[k].owner == who.owner ==>
        Pops(b.routes[k], b'.routes[k]) == 0 && InSight(b'.routes[k], s.now) == InSight(b.routes[k], s.now)
    {
      var r := b.routes[k];
      if r.channel == ch && r.owner == who.owner {
        MutedIgnores(r, b.channels[ch], s, bytes, b.published % TWO64);
        RouteUnseen(r, m, s);
      }
    }
  }

  lemma PublishAlike(b: Bus, c: Bus, who: Caller, merges: bool, ch: nat, bytes: seq<byte>, s: Slot)
    requires Open(b) && Open(c) && Hushed(b, s) && Hushed(c, s) && Acts(who, s) && Alike(b, c, who, merges, s)
    requires ch in who.outputs
    ensures var (b', ok) := Publish(b, s.duration, s.now, ch, bytes);
      var (c', ok') := Publish(c, s.duration, s.now, ch, bytes);
      && ok == ok' && (ok ==> Alike(b', c', who, merges, s) && SameDeeds(b, b', c, c', who.owner))
  {
    hide RoutesAlike, Deliver, Apply, Hushed, Open, Unseen, Acts;
    if ch < |b.channels| && |bytes| == b.channels[ch].size {
      var (steps, v) := Apply(b.channels[ch].steps, s.duration, s.now, bytes);
      var b', c' := Publish(b, s.duration, s.now, ch, bytes).0, Publish(c, s.duration, s.now, ch, bytes).0;
      if v.Visible? {
        AcceptUnseen(b, who, ch, bytes, s);
        AcceptUnseen(c, who, ch, bytes, s);
      } else {
        StayUnseen(b.routes, who.owner, s.now);
        StayUnseen(c.routes, who.owner, s.now);
        assert Since(b, b') == [] == Since(c, c');
      }
      UnseenAlike(b.routes, b'.routes, c.routes, c'.routes, who.owner, merges, s.now);
    }
  }

  lemma StayUnseen(routes: seq<Route>, owner: nat, now: u64)
    ensures Unseen(routes, routes, owner, now)
  {
  }

  lemma AnswerAlike(b: Bus, c: Bus, who: Caller, merges: bool, call: Call, s: Slot)
    requires Open(b) && Open(c) && Hushed(b, s) && Hushed(c, s) && Acts(who, s) && Alike(b, c, who, merges, s)
    requires merges || !call.CallTakeAll?
    ensures var (b', reply) := Answer(b, s.duration, s.now, who, call);
      var (c', reply') := Answer(c, s.duration, s.now, who, call);
      && reply == reply' && (reply.Some? ==> Alike(b', c', who, merges, s) && SameDeeds(b, b', c, c', who.owner))
  {
    hide Take, Publish, MergeVisible, Hushed, Open, SameDeeds, Described, RoutesAlike;
    SameLength(b.routes, c.routes, who.owner, merges, s.now);
    match call
    case CallTake(k) =>
      if k < |b.routes| {
        AlikeFront(b.routes, c.routes, who.owner, merges, s.now, k);
        if b.routes[k].owner == who.owner { TakeAlike(b, c, who, merges, k, s); }
      }
    case CallTakeAll => MergeAlike(b, c, who, s);
    case CallPublish(ch, bytes) => if ch in who.outputs { PublishAlike(b, c, who, merges, ch, bytes, s); }
    case CallReturn(_) =>
    case CallAbort =>
  }

  // ----- Whole callbacks ------------------------------------------------------------------------------------------

  /** A finished callback moves the bus as its caller may. */
  lemma {:induction false} ActivateMoves(b: Bus, who: Caller, program: Program, memory: Memory,
                                         replies: seq<Reply>, patience: nat, s: Slot)
    requires Open(b) && Hushed(b, s) && Acts(who, s)
    requires Activate(b, s.duration, s.now, who, program, memory, replies, patience).Finished?
    ensures Moved(b, Activate(b, s.duration, s.now, who, program, memory, replies, patience).bus, {who.owner},
                  who.outputs, s)
    decreases patience
  {
    hide Answer, Hushed, Open, Moved;
    var call := program(s.now, memory, replies);
    if call.CallReturn? {
      Unmoved(b, {who.owner}, who.outputs, s);
    } else {
      var (b', reply) := Answer(b, s.duration, s.now, who, call);
      AnswerMoves(b, who, call, s);
      MovedStaysHushed(b, b', {who.owner}, who.outputs, s);
      ActivateMoves(b', who, program, memory, replies + [reply.value], patience - 1, s);
      MovesOn(b, b', Activate(b', s.duration, s.now, who, program, memory, replies + [reply.value], patience - 1).bus,
              {who.owner}, who.outputs, s);
    }
  }

  /** A program that never asks for the merged list of its inputs. */
  ghost predicate NeverMerges(program: Program) {
    forall now: u64, memory: Memory, replies: seq<Reply> :: !program(now, memory, replies).CallTakeAll?
  }

  lemma NoDeeds(b: Bus, c: Bus, owner: nat)
    requires |b.routes| == |c.routes|
    ensures SameDeeds(b, b, c, c, owner)
  {
  }

  lemma DeedsAddUp(b: Bus, b1: Bus, b2: Bus, c: Bus, c1: Bus, c2: Bus, owners: set<nat>, outs: set<nat>, owner: nat,
                   s: Slot)
    requires SameDeeds(b, b1, c, c1, owner) && SameDeeds(b1, b2, c1, c2, owner) && owners <= s.parties
    requires Moved(b, b1, owners, outs, s) && Moved(b1, b2, owners, outs, s)
    requires Moved(c, c1, owners, outs, s) && Moved(c1, c2, owners, outs, s)
    ensures SameDeeds(b, b2, c, c2, owner)
  {
    MovesOn(b, b1, b2, owners, outs, s);
    MovesOn(c, c1, c2, owners, outs, s);
    KeepOwners(b, b1, owners, outs, s);
    hide Moved, Since;
  }

  lemma KeepOwners(b: Bus, b1: Bus, owners: set<nat>, outs: set<nat>, s: Slot)
    requires Moved(b, b1, owners, outs, s)
    ensures |b.routes| == |b1.routes| && forall k :: 0 <= k < |b.routes| ==> SameDeclaration(b.routes[k], b1.routes[k])
  {
    hide Since, OnChannel, QueueMoved, InSight;
  }

  ghost predicate SameOutcome(x: Outcome, y: Outcome) {
    x.Finished? == y.Finished? && (x.Finished? ==> x.memory == y.memory)
  }

  /** From buses it cannot tell apart, a callback ends the same way and does the same. */
  lemma {:induction false} ActivateAlike(b: Bus, c: Bus, who: Caller, merges: bool, program: Program, memory: Memory,
                                         replies: seq<Reply>, patience: nat, s: Slot)
    requires Open(b) && Open(c) && Hushed(b, s) && Hushed(c, s) && Acts(who, s) && Alike(b, c, who, merges, s)
    requires merges || NeverMerges(program)
    ensures var x := Activate(b, s.duration, s.now, who, program, memory, replies, patience);
      var y := Activate(c, s.duration, s.now, who, program, memory, replies, patience);
      SameOutcome(x, y)
      && (x.Finished? ==> Alike(x.bus, y.bus, who, merges, s) && SameDeeds(b, x.bus, c, y.bus, who.owner))
    decreases patience
  {
    hide Answer, Hushed, Open, Moved, SameDeeds, RoutesAlike;
    var call := program(s.now, memory, replies);
    if call.CallReturn? {
      SameLength(b.routes, c.routes, who.owner, merges, s.now);
      NoDeeds(b, c, who.owner);
    } else {
      var (b', reply) := Answer(b, s.duration, s.now, who, call);
      var (c', reply') := Answer(c, s.duration, s.now, who, call);
      AnswerAlike(b, c, who, merges, call, s);
      if reply.Some? && patience > 0 {
        AnswerMoves(b, who, call, s);
        AnswerMoves(c, who, call, s);
        MovedStaysHushed(b, b', {who.owner}, who.outputs, s);
        MovedStaysHushed(c, c', {who.owner}, who.outputs, s);
        var more := replies + [reply.value];
        ActivateAlike(b', c', who, merges, program, memory, more, patience - 1, s);
        var x := Activate(b', s.duration, s.now, who, program, memory, more, patience - 1);
        var y := Activate(c', s.duration, s.now, who, program, memory, more, patience - 1);
        if x.Finished? {
          ActivateMoves(b', who, program, memory, more, patience - 1, s);
          ActivateMoves(c', who, program, memory, more, patience - 1, s);
          DeedsAddUp(b, b', x.bus, c, c', y.bus, {who.owner}, who.outputs, who.owner, s);
        }
      }
    }
  }
}
