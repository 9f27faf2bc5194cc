// In what order the participants of one slot run makes no difference: each of them does what
// it would do alone on the bus the slot opened with.

module SlotOrder {
  import opened VirtualTime
  import opened DataPlane
  import opened Activation
  import opened Sight
  import opened Moves

  // ----- Acts ---------------------------------------------------------------------------------------

  /** One activation: a task's callback, which keeps the memory it returns, or a replayer's turn. */
  datatype Act = Act(who: Caller, program: Program, patience: nat, keeps: bool)

  datatype Stage = Stage(bus: Bus, memories: map<nat, Memory>, failed: bool)

  function Play(a: Act, st: Stage, s: Slot): Outcome {
    Activate(st.bus, s.duration, s.now, a.who, a.program, MemoryOf(st.memories, a.who.owner), [], a.patience)
  }

  function RunAct(st: Stage, a: Act, s: Slot): Stage {
    if st.failed then st
    else
      var out := Play(a, st, s);
      if out.Failed? then Stage(out.bus, st.memories, true)
      else Stage(out.bus, if a.keeps then st.memories[a.who.owner := out.memory] else st.memories, false)
  }

  function RunActs(st: Stage, acts: seq<Act>, s: Slot): Stage {
    if acts == [] then st
    else RunAct(RunActs(st, acts[..|acts| - 1], s), acts[|acts| - 1], s)
  }

  /** The acts of one participant, in order. */
  function Only(acts: seq<Act>, p: nat): (r: seq<Act>)
    ensures forall a :: a in r <==> a in acts && a.who.owner == p
  {
    if acts == [] then []
    else
      var a := acts[|acts| - 1];
      assert acts == acts[..|acts| - 1] + [a];
      Only(acts[..|acts| - 1], p) + if a.who.owner == p then [a] else []
  }

  /** Every act publishes only on channels that belong to its participant. */
  ghost predicate Voiced(acts: seq<Act>, voice: nat -> nat, s: Slot) {
    forall a :: a in acts ==> VoicedAct(a, voice, s)
  }

  ghost predicate VoicedAct(a: Act, voice: nat -> nat, s: Slot) {
    Acts(a.who, s) && forall ch :: ch in a.who.outputs ==> voice(ch) == a.who.owner
  }

  ghost predicate Opening(st: Stage, s: Slot) {
    !st.failed && Open(st.bus) && Hushed(st.bus, s)
  }

  lemma RunActsSnoc(st: Stage, acts: seq<Act>, a: Act, s: Slot)
    ensures RunActs(st, acts + [a], s) == RunAct(RunActs(st, acts, s), a, s)
  {
    assert (acts + [a])[..|acts|] == acts;
  }

  lemma OnlySnoc(acts: seq<Act>, p: nat)
    requires acts != []
    ensures var a := acts[|acts| - 1];
      Only(acts, p) == if a.who.owner == p then Only(acts[..|acts| - 1], p) + [a] else Only(acts[..|acts| - 1], p)
  {
  }

  /** One step of a run and of one participant's part of it. */
  lemma RunStep(st: Stage, acts: seq<Act>, p: nat, s: Slot)
    requires acts != []
    ensures var n := |acts| - 1;
      && RunActs(st, acts, s) == RunAct(RunActs(st, acts[..n], s), acts[n], s)
      && RunActs(st, Only(acts, p), s)
         == if acts[n].who.owner == p then RunAct(RunActs(st, Only(acts[..n], p), s), acts[n], s)
            else RunActs(st, Only(acts[..n], p), s)
  {
    OnlySnoc(acts, p);
    RunActsSnoc(st, Only(acts[..|acts| - 1], p), acts[|acts| - 1], s);
  }

  // ----- What one participant said ------------------------------------------------------------------------

  /** The entries on the channels of one publisher, in order. */
  function Said(entries: seq<Entry>, voice: nat -> nat, p: nat): seq<Entry> {
    if entries == [] then []
    else
      var e := entries[|entries| - 1];
      Said(entries[..|entries| - 1], voice, p) + if voice(e.channel) == p then [e] else []
  }

  lemma {:induction false} SaidConcat(a: seq<Entry>, b: seq<Entry>, voice: nat -> nat, p: nat)
    ensures Said(a + b, voice, p) == Said(a, voice, p) + Said(b, voice, p)
    decreases |b|
  {
    if b == [] {
      assert a + b == a;
    } else {
      assert (a + b)[..|a + b| - 1] == a + b[..|b| - 1];
      SaidConcat(a, b[..|b| - 1], voice, p);
    }
  }

  lemma {:induction false} AllSaid(entries: seq<Entry>, voice: nat -> nat, p: nat, q: nat)
    requires forall e :: e in entries ==> voice(e.channel) == p
    ensures Said(entries, voice, q) == if p == q then entries else []
    decreases |entries|
  {
    if entries == [] {
    } else {
      var n := |entries| - 1;
      assert entries[n] in entries && entries == entries[..n] + [entries[n]];
      AllSaid(entries[..n], voice, p, q);
    }
  }

  /** A channel carries what its publisher said on it. */
  lemma {:induction false} ChannelIsSaid(entries: seq<Entry>, voice: nat -> nat, ch: nat)
    ensures OnChannel(Said(entries, voice, voice(ch)), ch) == OnChannel(entries, ch)
    decreases |entries|
  {
    if entries == [] {
    } else {
      var n := |entries| - 1;
      var before := Said(entries[..n], voice, voice(ch));
      ChannelIsSaid(entries[..n], voice, ch);
      if voice(entries[n].channel) == voice(ch) {
        assert (before + [entries[n]])[..|before|] == before;
      } else {
        assert before + [] == before && OnChannel(entries[..n], ch) + [] == OnChannel(entries[..n], ch);
      }
    }
  }

  // ----- A run as one participant sees it -----------------------------------------------------------------------

  /** `v`, the bus after `p` ran alone, shows `p` the same as `b`, and `p` did the same. */
  ghost predicate Mirrors(b0: Bus, b: Bus, v: Bus, p: nat, voice: nat -> nat, s: Slot) {
    && SameChannels(b.channels, v.channels, p, voice)
    && SameRoutes(b.routes, v.routes, p, s)
    && Said(Since(b0, b), voice, p) == Since(b0, v)
  }

  ghost predicate SameChannels(b: seq<Channel>, v: seq<Channel>, p: nat, voice: nat -> nat) {
    |b| == |v| && forall ch :: 0 <= ch < |b| && voice(ch) == p ==> b[ch] == v[ch]
  }

  ghost predicate SameRoutes(b: seq<Route>, v: seq<Route>, p: nat, s: Slot) {
    |b| == |v| && forall k :: 0 <= k < |b| ==>
      SameDeclaration(b[k], v[k]) && (b[k].owner == p ==> SameView(b[k], v[k], p, s))
  }

  ghost predicate SameView(b: Route, v: Route, p: nat, s: Slot) {
    b.taken == v.taken && (p in s.parties ==> InSight(b, s.now) == InSight(v, s.now))
  }

  lemma MirrorsStart(b: Bus, p: nat, voice: nat -> nat, s: Slot)
    ensures Mirrors(b, b, b, p, voice, s)
  {
    hide InSight;
    assert Since(b, b) == [];
  }

  lemma SameSightsAlike(b: seq<Route>, v: seq<Route>, p: nat, s: Slot)
    requires SameRoutes(b, v, p, s) && p in s.parties
    ensures RoutesAlike(b, v, p, true, s.now)
  {
    hide InSight;
  }

  lemma MirrorsAlike(b0: Bus, b: Bus, v: Bus, a: Act, voice: nat -> nat, s: Slot)
    requires Mirrors(b0, b, v, a.who.owner, voice, s) && VoicedAct(a, voice, s)
    ensures Alike(b, v, a.who, true, s)
  {
    hide RoutesAlike, SameRoutes;
    SameSightsAlike(b.routes, v.routes, a.who.owner, s);
  }

  /** Popping the same number of messages in sight. */
  lemma SameViewMoves(b: Route, b': Route, v: Route, v': Route, e: seq<(u64, seq<byte>)>, f: seq<(u64, seq<byte>)>,
                      p: nat, s: Slot)
    requires SameView(b, v, p, s) && p in s.parties
    requires RouteMoved(b, b', true, true, e, s.now) && RouteMoved(v, v', true, true, f, s.now)
    requires Pops(b, b') == Pops(v, v')
    ensures SameView(b', v', p, s)
  {
    hide QueueMoved;
    var n := Pops(b, b');
    SightFront(b, s.now, n);
    SightFront(v, s.now, n);
  }

  lemma SightFront(r: Route, now: u64, n: int)
    requires 0 <= n <= |InSight(r, now)|
    ensures n <= |r.pending| && r.pending[..n] == InSight(r, now)[..n]
  {
  }

  lemma OwnRoutesMove(b: Bus, b': Bus, v: Bus, v': Bus, who: Caller, s: Slot)
    requires SameRoutes(b.routes, v.routes, who.owner, s) && who.owner in s.parties
    requires Moved(b, b', {who.owner}, who.outputs, s) && Moved(v, v', {who.owner}, who.outputs, s)
    requires SamePops(b.routes, b'.routes, v.routes, v'.routes, who.owner)
    ensures SameRoutes(b'.routes, v'.routes, who.owner, s)
  {
    KeepOwners(b, b', {who.owner}, who.outputs, s);
    KeepOwners(v, v', {who.owner}, who.outputs, s);
    hide RouteMoved, SameView, OnChannel, Since, Pops;
    forall k | 0 <= k < |b'.routes|
      ensures SameDeclaration(b'.routes[k], v'.routes[k])
      ensures b'.routes[k].owner == who.owner ==> SameView(b'.routes[k], v'.routes[k], who.owner, s)
    {
      var r, t := b.routes[k], v.routes[k];
      assert SameDeclaration(r, t) && SameDeclaration(r, b'.routes[k]) && SameDeclaration(t, v'.routes[k]);
      if r.owner == who.owner {
        SameViewMoves(r, b'.routes[k], t, v'.routes[k], OnChannel(Since(b, b'), r.channel),
                      OnChannel(Since(v, v'), t.channel), who.owner, s);
      }
    }
  }

  lemma OwnChannelsMove(b: Bus, b': Bus, v: Bus, v': Bus, who: Caller, voice: nat -> nat, s: Slot)
    requires SameChannels(b.channels, v.channels, who.owner, voice)
    requires Moved(b, b', {who.owner}, who.outputs, s) && Moved(v, v', {who.owner}, who.outputs, s)
    requires Alike(b', v', who, true, s)
    ensures SameChannels(b'.channels, v'.channels, who.owner, voice)
  {
    hide RoutesMoved, RoutesAlike, Since, Silent;
    forall ch | 0 <= ch < |b'.channels| && voice(ch) == who.owner
      ensures b'.channels[ch] == v'.channels[ch]
    {
      assert ChannelMoved(b.channels[ch], b'.channels[ch], ch in who.outputs, s);
      assert ChannelMoved(v.channels[ch], v'.channels[ch], ch in who.outputs, s);
    }
  }

  lemma EntriesAreVoiced(b: Bus, b': Bus, a: Act, voice: nat -> nat, s: Slot, q: nat)
    requires VoicedAct(a, voice, s) && Moved(b, b', {a.who.owner}, a.who.outputs, s)
    ensures Said(Since(b, b'), voice, q) == if q == a.who.owner then Since(b, b') else []
  {
    AllSaid(Since(b, b'), voice, a.who.owner, q);
  }

  /** The participant whose act it is does the same in both runs. */
  lemma OwnActMirrors(b0: Bus, b: Bus, b': Bus, v: Bus, v': Bus, a: Act, voice: nat -> nat, s: Slot)
    requires Mirrors(b0, b, v, a.who.owner, voice, s) && VoicedAct(a, voice, s)
    requires b0.recording <= b.recording && b0.recording <= v.recording
    requires Moved(b, b', {a.who.owner}, a.who.outputs, s) && Moved(v, v', {a.who.owner}, a.who.outputs, s)
    requires Alike(b', v', a.who, true, s) && SameDeeds(b, b', v, v', a.who.owner)
    ensures Mirrors(b0, b', v', a.who.owner, voice, s)
  {
    hide SameRoutes, SameChannels, Since, Said, RoutesMoved;
    OwnRoutesMove(b, b', v, v', a.who, s);
    OwnChannelsMove(b, b', v, v', a.who, voice, s);
    SinceTwice(b0, b, b');
    SinceTwice(b0, v, v');
    SaidConcat(Since(b0, b), Since(b, b'), voice, a.who.owner);
    EntriesAreVoiced(b, b', a, voice, s, a.who.owner);
  }

  lemma OtherRouteStays(r: Route, r': Route, t: Route, watched: bool, e: seq<(u64, seq<byte>)>, q: nat, s: Slot)
    requires SameView(r, t, q, s) && RouteMoved(r, r', false, watched, e, s.now) && (q in s.parties ==> watched)
    ensures SameView(r', t, q, s)
  {
    hide InSight, QueueMoved;
    assert r.taken + r.pending[..0] == r.taken;
  }

  /** Everyone else notices nothing. */
  lemma OtherActMirrors(b0: Bus, b: Bus, b': Bus, v: Bus, a: Act, q: nat, voice: nat -> nat, s: Slot)
    requires Mirrors(b0, b, v, q, voice, s) && VoicedAct(a, voice, s) && q != a.who.owner && b0.recording <= b.recording
    requires Moved(b, b', {a.who.owner}, a.who.outputs, s)
    ensures Mirrors(b0, b', v, q, voice, s)
  {
    SinceTwice(b0, b, b');
    SaidConcat(Since(b0, b), Since(b, b'), voice, q);
    EntriesAreVoiced(b, b', a, voice, s, q);
    KeepOwners(b, b', {a.who.owner}, a.who.outputs, s);
    hide RouteMoved, SameView, OnChannel, Since, Said, Silent;
    forall k | 0 <= k < |b'.routes|
      ensures SameDeclaration(b'.routes[k], v.routes[k])
      ensures b'.routes[k].owner == q ==> SameView(b'.routes[k], v.routes[k], q, s)
    {
      var r := b.routes[k];
      assert SameDeclaration(r, v.routes[k]) && SameDeclaration(r, b'.routes[k]);
      if r.owner == q {
        OtherRouteStays(r, b'.routes[k], v.routes[k], r.owner in s.parties, OnChannel(Since(b, b'), r.channel), q, s);
      }
    }
    forall ch | 0 <= ch < |b'.channels| && voice(ch) == q
      ensures b'.channels[ch] == v.channels[ch]
    {
      assert ChannelMoved(b.channels[ch], b'.channels[ch], ch in a.who.outputs, s);
    }
  }

  // ----- Every order gives each participant its solo run ------------------------------------------------------

  lemma ActMoves(st: Stage, a: Act, voice: nat -> nat, s: Slot)
    requires Opening(st, s) && VoicedAct(a, voice, s) && !RunAct(st, a, s).failed
    ensures Moved(st.bus, RunAct(st, a, s).bus, {a.who.owner}, a.who.outputs, s)
    ensures Moved(st.bus, RunAct(st, a, s).bus, s.parties, s.outs, s)
    ensures Opening(RunAct(st, a, s), s)
  {
    hide Activate, Moved, Open, Hushed;
    ActivateMoves(st.bus, a.who, a.program, MemoryOf(st.memories, a.who.owner), [], a.patience, s);
    MovesWiden(st.bus, RunAct(st, a, s).bus, {a.who.owner}, a.who.outputs, s.parties, s.outs, s);
    MovedStaysHushed(st.bus, RunAct(st, a, s).bus, {a.who.owner}, a.who.outputs, s);
  }

  lemma {:induction false} RunMoves(st: Stage, acts: seq<Act>, voice: nat -> nat, s: Slot)
    requires Opening(st, s) && Voiced(acts, voice, s) && !RunActs(st, acts, s).failed
    ensures Moved(st.bus, RunActs(st, acts, s).bus, s.parties, s.outs, s) && Opening(RunActs(st, acts, s), s)
    decreases |acts|
  {
    hide RunAct, Moved, VoicedAct, Opening;
    if acts == [] {
      Unmoved(st.bus, s.parties, s.outs, s);
    } else {
      var n := |acts| - 1;
      var w := RunActs(st, acts[..n], s);
      FailureSticks(w, acts[n], s);
      RunMoves(st, acts[..n], voice, s);
      ActMoves(w, acts[n], voice, s);
      MovesOn(st.bus, w.bus, RunActs(st, acts, s).bus, s.parties, s.outs, s);
    }
  }

  lemma FailureSticks(st: Stage, a: Act, s: Slot)
    ensures st.failed ==> RunAct(st, a, s).failed
  {
  }

  /** One act, in the run and alone. */
  lemma ActAlike(b0: Bus, st: Stage, solo: Stage, a: Act, voice: nat -> nat, s: Slot)
    requires Opening(st, s) && Opening(solo, s) && VoicedAct(a, voice, s)
    requires b0.recording <= st.bus.recording && b0.recording <= solo.bus.recording
    requires Mirrors(b0, st.bus, solo.bus, a.who.owner, voice, s)
    requires MemoryOf(st.memories, a.who.owner) == MemoryOf(solo.memories, a.who.owner)
    ensures RunAct(st, a, s).failed == RunAct(solo, a, s).failed
    ensures !RunAct(st, a, s).failed ==>
      && Mirrors(b0, RunAct(st, a, s).bus, RunAct(solo, a, s).bus, a.who.owner, voice, s)
      && MemoryOf(RunAct(st, a, s).memories, a.who.owner) == MemoryOf(RunAct(solo, a, s).memories, a.who.owner)
      && RunAct(st, a, s).bus.published - st.bus.published == RunAct(solo, a, s).bus.published - solo.bus.published
  {
    MirrorsAlike(b0, st.bus, solo.bus, a, voice, s);
    hide Activate, Moved, Open, Hushed, Alike, SameDeeds, Mirrors;
    ActivateAlike(st.bus, solo.bus, a.who, true, a.program, MemoryOf(st.memories, a.who.owner), [], a.patience, s);
    if !RunAct(st, a, s).failed {
      ActMoves(st, a, voice, s);
      ActMoves(solo, a, voice, s);
      DeedsCount(st.bus, RunAct(st, a, s).bus, solo.bus, RunAct(solo, a, s).bus, a.who.owner);
      OwnActMirrors(b0, st.bus, RunAct(st, a, s).bus, solo.bus, RunAct(solo, a, s).bus, a, voice, s);
    }
  }

  lemma DeedsCount(b: Bus, b': Bus, c: Bus, c': Bus, owner: nat)
    requires SameDeeds(b, b', c, c', owner)
    ensures b'.published - b.published == c'.published - c.published
  {
  }

  lemma OtherAct(b0: Bus, st: Stage, solo: Stage, a: Act, q: nat, voice: nat -> nat, s: Slot)
    requires Opening(st, s) && VoicedAct(a, voice, s) && q != a.who.owner && b0.recording <= st.bus.recording
    requires Mirrors(b0, st.bus, solo.bus, q, voice, s) && MemoryOf(st.memories, q) == MemoryOf(solo.memories, q)
    requires !RunAct(st, a, s).failed
    ensures Mirrors(b0, RunAct(st, a, s).bus, solo.bus, q, voice, s)
    ensures MemoryOf(RunAct(st, a, s).memories, q) == MemoryOf(solo.memories, q)
  {
    ActMoves(st, a, voice, s);
    hide Activate, Moved, Mirrors;
    OtherActMirrors(b0, st.bus, RunAct(st, a, s).bus, solo.bus, a, q, voice, s);
  }

  ghost predicate PlaysAlone(st: Stage, acts: seq<Act>, p: nat, voice: nat -> nat, s: Slot) {
    var w, solo := RunActs(st, acts, s), RunActs(st, Only(acts, p), s);
    && !solo.failed && Mirrors(st.bus, w.bus, solo.bus, p, voice, s)
    && MemoryOf(w.memories, p) == MemoryOf(solo.memories, p)
  }

  lemma OnlyVoiced(acts: seq<Act>, p: nat, voice: nat -> nat, s: Slot)
    requires Voiced(acts, voice, s)
    ensures Voiced(Only(acts, p), voice, s)
  {
  }

  /** In a run that did not fail every participant saw and did exactly what it would have seen
      and done alone. */
  lemma {:induction false} EachPlaysAlone(st: Stage, acts: seq<Act>, p: nat, voice: nat -> nat, s: Slot)
    requires Opening(st, s) && Voiced(acts, voice, s) && !RunActs(st, acts, s).failed
    ensures PlaysAlone(st, acts, p, voice, s)
    decreases |acts|
  {
    if acts == [] {
      MirrorsStart(st.bus, p, voice, s);
    } else {
      var n := |acts| - 1;
      var w, solo := RunActs(st, acts[..n], s), RunActs(st, Only(acts[..n], p), s);
      RunStep(st, acts, p, s);
      FailureSticks(w, acts[n], s);
      EachPlaysAlone(st, acts[..n], p, voice, s);
      StartsBefore(st, acts[..n], p, voice, s);
      hide RunAct, RunActs, Mirrors, VoicedAct, Opening, Only;
      if acts[n].who.owner == p {
        ActAlike(st.bus, w, solo, acts[n], voice, s);
      } else {
        OtherAct(st.bus, w, solo, acts[n], p, voice, s);
      }
    }
  }

  lemma StartsBefore(st: Stage, acts: seq<Act>, p: nat, voice: nat -> nat, s: Slot)
    requires Opening(st, s) && Voiced(acts, voice, s)
    requires !RunActs(st, acts, s).failed && !RunActs(st, Only(acts, p), s).failed
    ensures Opening(RunActs(st, acts, s), s) && Opening(RunActs(st, Only(acts, p), s), s)
    ensures st.bus.recording <= RunActs(st, acts, s).bus.recording
    ensures st.bus.recording <= RunActs(st, Only(acts, p), s).bus.recording
  {
    hide RunActs, Opening, VoicedAct, RoutesMoved, ChannelsMoved, Only;
    OnlyVoiced(acts, p, voice, s);
    RunMoves(st, acts, voice, s);
    RunMoves(st, Only(acts, p), voice, s);
  }

  /** How much the participants below `n` publish alone, together. */
  function Spent(st: Stage, acts: seq<Act>, s: Slot, n: nat): int {
    if n == 0 then 0
    else Spent(st, acts, s, n - 1) + RunActs(st, Only(acts, n - 1), s).bus.published - st.bus.published
  }

  lemma {:induction false} NothingSpent(st: Stage, s: Slot, n: nat)
    ensures Spent(st, [], s, n) == 0
    decreases n
  {
    if n == 0 {
    } else {
      NothingSpent(st, s, n - 1);
    }
  }

  lemma {:induction false} SpentGrows(st: Stage, acts: seq<Act>, s: Slot, n: nat)
    requires acts != []
    ensures var l := |acts| - 1;
      var p := acts[l].who.owner;
      Spent(st, acts, s, n) == Spent(st, acts[..l], s, n)
        + if p < n then RunActs(st, Only(acts, p), s).bus.published - RunActs(st, Only(acts[..l], p), s).bus.published
          else 0
    decreases n
  {
    hide RunAct, RunActs, Only;
    if n == 0 {
    } else {
      RunStep(st, acts, n - 1, s);
      SpentGrows(st, acts, s, n - 1);
    }
  }

  /** What a run publishes is what its participants publish alone. */
  lemma {:induction false} AllSpent(st: Stage, acts: seq<Act>, voice: nat -> nat, s: Slot, n: nat)
    requires Opening(st, s) && Voiced(acts, voice, s) && !RunActs(st, acts, s).failed
    requires forall a :: a in acts ==> a.who.owner < n
    ensures RunActs(st, acts, s).bus.published == st.bus.published + Spent(st, acts, s, n)
    decreases |acts|
  {
    hide RunAct, Mirrors, VoicedAct, Opening, Only;
    if acts == [] {
      NothingSpent(st, s, n);
    } else {
      var l := |acts| - 1;
      var p := acts[l].who.owner;
      FailureSticks(RunActs(st, acts[..l], s), acts[l], s);
      AllSpent(st, acts[..l], voice, s, n);
      SpentGrows(st, acts, s, n);
      EachPlaysAlone(st, acts[..l], p, voice, s);
      StartsBefore(st, acts[..l], p, voice, s);
      RunStep(st, acts, p, s);
      ActAlike(st.bus, RunActs(st, acts[..l], s), RunActs(st, Only(acts[..l], p), s), acts[l], voice, s);
    }
  }

  /** A run fails only if some participant would fail alone. */
  lemma {:induction false} FailsAlone(st: Stage, acts: seq<Act>, voice: nat -> nat, s: Slot)
    requires Opening(st, s) && Voiced(acts, voice, s)
    requires forall p: nat :: !RunActs(st, Only(acts, p), s).failed
    ensures !RunActs(st, acts, s).failed
    decreases |acts|
  {
    if acts == [] {
    } else {
      var n := |acts| - 1;
      var p := acts[n].who.owner;
      hide RunAct, Mirrors, VoicedAct, Opening, Only;
      forall q: nat ensures !RunActs(st, Only(acts[..n], q), s).failed {
        RunStep(st, acts, q, s);
        FailureSticks(RunActs(st, Only(acts[..n], q), s), acts[n], s);
      }
      FailsAlone(st, acts[..n], voice, s);
      EachPlaysAlone(st, acts[..n], p, voice, s);
      StartsBefore(st, acts[..n], p, voice, s);
      RunStep(st, acts, p, s);
      ActAlike(st.bus, RunActs(st, acts[..n], s), RunActs(st, Only(acts[..n], p), s), acts[n], voice, s);
    }
  }

  // ----- One participant on two buses ---------------------------------------------------------------------------

  /** A participant cannot tell the buses apart. */
  ghost predicate Sees(b: Bus, c: Bus, p: nat, merges: bool, voice: nat -> nat, s: Slot) {
    RoutesAlike(b.routes, c.routes, p, merges, s.now) && SameChannels(b.channels, c.channels, p, voice)
  }

  lemma SeesAlike(b: Bus, c: Bus, a: Act, merges: bool, voice: nat -> nat, s: Slot)
    requires Sees(b, c, a.who.owner, merges, voice, s) && VoicedAct(a, voice, s)
    ensures Alike(b, c, a.who, merges, s)
  {
    hide RoutesAlike;
  }

  lemma StillSees(b: Bus, b': Bus, c: Bus, c': Bus, a: Act, merges: bool, voice: nat -> nat, s: Slot)
    requires Sees(b, c, a.who.owner, merges, voice, s) && Alike(b', c', a.who, merges, s)
    requires Moved(b, b', {a.who.owner}, a.who.outputs, s) && Moved(c, c', {a.who.owner}, a.who.outputs, s)
    ensures Sees(b', c', a.who.owner, merges, voice, s)
  {
    hide RoutesMoved, RoutesAlike, Since, Silent;
    forall ch | 0 <= ch < |b'.channels| && voice(ch) == a.who.owner
      ensures b'.channels[ch] == c'.channels[ch]
    {
      assert ChannelMoved(b.channels[ch], b'.channels[ch], ch in a.who.outputs, s);
      assert ChannelMoved(c.channels[ch], c'.channels[ch], ch in a.who.outputs, s);
    }
  }

  ghost predicate MayMerge(a: Act, merges: bool) {
    merges || NeverMerges(a.program)
  }

  /** The stages look the same to `p`, and since `b` and `c` it did the same. */
  ghost predicate Twins(b: Bus, st: Stage, c: Bus, tt: Stage, p: nat, merges: bool, voice: nat -> nat, s: Slot) {
    && Sees(st.bus, tt.bus, p, merges, voice, s) && SameDeeds(b, st.bus, c, tt.bus, p)
    && MemoryOf(st.memories, p) == MemoryOf(tt.memories, p)
  }

  lemma TwinsAct(b: Bus, st: Stage, c: Bus, tt: Stage, a: Act, merges: bool, voice: nat -> nat, s: Slot)
    requires Opening(st, s) && Opening(tt, s) && VoicedAct(a, voice, s) && MayMerge(a, merges)
    requires Moved(b, st.bus, s.parties, s.outs, s) && Moved(c, tt.bus, s.parties, s.outs, s)
    requires Twins(b, st, c, tt, a.who.owner, merges, voice, s)
    ensures RunAct(st, a, s).failed == RunAct(tt, a, s).failed
    ensures !RunAct(st, a, s).failed ==> Twins(b, RunAct(st, a, s), c, RunAct(tt, a, s), a.who.owner, merges, voice, s)
  {
    SeesAlike(st.bus, tt.bus, a, merges, voice, s);
    hide Activate, Moved, Open, Hushed, Alike, SameDeeds, Sees, NeverMerges;
    ActivateAlike(st.bus, tt.bus, a.who, merges, a.program, MemoryOf(st.memories, a.who.owner), [], a.patience, s);
    if !RunAct(st, a, s).failed {
      ActMoves(st, a, voice, s);
      ActMoves(tt, a, voice, s);
      StillSees(st.bus, RunAct(st, a, s).bus, tt.bus, RunAct(tt, a, s).bus, a, merges, voice, s);
      DeedsAddUp(b, st.bus, RunAct(st, a, s).bus, c, tt.bus, RunAct(tt, a, s).bus, s.parties, s.outs, a.who.owner, s);
    }
  }

  ghost predicate Solo(acts: seq<Act>, p: nat, merges: bool) {
    forall a :: a in acts ==> a.who.owner == p && MayMerge(a, merges)
  }

  lemma TwinsStart(st: Stage, tt: Stage, p: nat, merges: bool, voice: nat -> nat, s: Slot)
    requires Sees(st.bus, tt.bus, p, merges, voice, s) && MemoryOf(st.memories, p) == MemoryOf(tt.memories, p)
    ensures Twins(st.bus, st, tt.bus, tt, p, merges, voice, s)
  {
    NoDeeds(st.bus, tt.bus, p);
  }

  /** A participant that cannot tell two buses apart ends the same way on both. */
  lemma {:induction false} SoloTwins(st: Stage, tt: Stage, acts: seq<Act>, p: nat, merges: bool, voice: nat -> nat,
                                     s: Slot)
    requires Opening(st, s) && Opening(tt, s) && Voiced(acts, voice, s) && Solo(acts, p, merges)
    requires Sees(st.bus, tt.bus, p, merges, voice, s) && MemoryOf(st.memories, p) == MemoryOf(tt.memories, p)
    ensures RunActs(st, acts, s).failed == RunActs(tt, acts, s).failed
    ensures !RunActs(st, acts, s).failed ==>
      Twins(st.bus, RunActs(st, acts, s), tt.bus, RunActs(tt, acts, s), p, merges, voice, s)
    decreases |acts|
  {
    assert !st.failed && !tt.failed;
    hide RunAct, Twins, VoicedAct, Opening, Sees, MayMerge, Moved;
    if acts == [] {
      TwinsStart(st, tt, p, merges, voice, s);
    } else {
      var n := |acts| - 1;
      var v, u := RunActs(st, acts[..n], s), RunActs(tt, acts[..n], s);
      SoloTwins(st, tt, acts[..n], p, merges, voice, s);
      if v.failed {
        FailureSticks(v, acts[n], s);
        FailureSticks(u, acts[n], s);
      } else {
        RunMoves(st, acts[..n], voice, s);
        RunMoves(tt, acts[..n], voice, s);
        TwinsAct(st.bus, v, tt.bus, u, acts[n], merges, voice, s);
      }
    }
  }

  // ----- Buses that differ in global sequence numbers only ----------------------------------------------------------

  predicate RouteLike(a: Route, b: Route) {
    SameDeclaration(a, b) && a.dropped == b.dropped && BareMsgs(a.taken) == BareMsgs(b.taken)
    && BareMsgs(a.pending) == BareMsgs(b.pending)
  }

  ghost predicate RoutesLike(a: seq<Route>, b: seq<Route>) {
    |a| == |b| && forall k :: 0 <= k < |a| ==> RouteLike(a[k], b[k])
  }

  ghost predicate SaidLike(a: seq<Record>, b: seq<Record>, voice: nat -> nat) {
    forall p: nat :: Said(Bare(a), voice, p) == Said(Bare(b), voice, p)
  }

  /** The same channels, the same messages delivered, waiting and dropped on every route, as many
      publishes and the same Recording publisher by publisher: only how publishers interleave
      may differ. */
  ghost predicate Like(b: Bus, c: Bus, voice: nat -> nat) {
    && b.channels == c.channels && b.published == c.published
    && RoutesLike(b.routes, c.routes) && SaidLike(b.recording, c.recording, voice)
  }

  lemma LikeSees(b: Bus, c: Bus, p: nat, merges: bool, voice: nat -> nat, s: Slot)
    requires Like(b, c, voice) && (merges ==> SameOrder(b.routes, c.routes, p, s.now))
    ensures Sees(b, c, p, merges, voice, s)
  {
    hide InSight, SaidLike, BareMsgs;
    forall k | 0 <= k < |b.routes|
      ensures SameDeclaration(b.routes[k], c.routes[k])
      ensures BareMsgs(InSight(b.routes[k], s.now)) == BareMsgs(InSight(c.routes[k], s.now))
    {
      assert RouteLike(b.routes[k], c.routes[k]);
      SightIsBare(b.routes[k], c.routes[k], s.now);
    }
  }

  /** A queue is what was left of it and what came. */
  lemma MovedQueue(r0: Route, r: Route, mine: bool, watched: bool, added: seq<(u64, seq<byte>)>, now: u64)
    requires RouteMoved(r0, r, mine, watched, added, now)
    ensures var n := Pops(r0, r);
      && 0 <= n <= |r0.pending|
      && BareMsgs(r.taken) == BareMsgs(r0.taken) + BareMsgs(r0.pending)[..n]
      && BareMsgs(r.pending) == BareMsgs(r0.pending)[n..] + added
      && r.dropped == r0.dropped && SameDeclaration(r0, r)
  {
    hide InSight;
    var n := Pops(r0, r);
    BareAppend(r0.taken, r0.pending[..n]);
    BareDrop(r0.pending, n);
    var l := |r0.pending| - n;
    BareAppend(r.pending[..l], r.pending[l..]);
    assert r.pending == r.pending[..l] + r.pending[l..];
  }

  lemma RouteEndsLike(r0: Route, r: Route, t0: Route, t: Route, mine: bool, watched: bool, added: seq<(u64, seq<byte>)>,
                      now: u64)
    requires RouteLike(r0, t0) && RouteMoved(r0, r, mine, watched, added, now)
    requires RouteMoved(t0, t, mine, watched, added, now)
    requires Pops(r0, r) == Pops(t0, t)
    ensures RouteLike(r, t)
  {
    hide RouteMoved, BareMsgs;
    MovedQueue(r0, r, mine, watched, added, now);
    MovedQueue(t0, t, mine, watched, added, now);
  }

  lemma BareConcat(a: seq<Record>, b: seq<Record>)
    ensures Bare(a + b) == Bare(a) + Bare(b)
  {
  }

  lemma SaidGrows(b0: Bus, b: Bus, voice: nat -> nat, p: nat)
    requires b0.recording <= b.recording
    ensures Said(Bare(b.recording), voice, p) == Said(Bare(b0.recording), voice, p) + Said(Since(b0, b), voice, p)
  {
    hide Said;
    var n := |b0.recording|;
    assert b.recording == b0.recording + b.recording[n..];
    BareConcat(b0.recording, b.recording[n..]);
    SaidConcat(Bare(b0.recording), Bare(b.recording[n..]), voice, p);
  }

  /** The run from `b0` to `b` went for `p` as the run from `c0` to `c` did. */
  ghost predicate Parallel(b0: Bus, b: Bus, c0: Bus, c: Bus, p: nat, voice: nat -> nat) {
    && SameChannels(b.channels, c.channels, p, voice)
    && SamePops(b0.routes, b.routes, c0.routes, c.routes, p)
    && Said(Since(b0, b), voice, p) == Said(Since(c0, c), voice, p)
  }

  lemma ParallelRoute(b0: Bus, b: Bus, c0: Bus, c: Bus, voice: nat -> nat, s: Slot, k: nat)
    requires Moved(b0, b, s.parties, s.outs, s) && Moved(c0, c, s.parties, s.outs, s)
    requires k < |b0.routes| && RoutesLike(b0.routes, c0.routes)
    requires Parallel(b0, b, c0, c, b0.routes[k].owner, voice)
    requires Parallel(b0, b, c0, c, voice(b0.routes[k].channel), voice)
    ensures RouteLike(b.routes[k], c.routes[k])
  {
    hide RouteMoved, RouteLike, Since, OnChannel, Said, Pops;
    var r, t := b0.routes[k], c0.routes[k];
    LikeDeclares(r, t);
    ChannelIsSaid(Since(b0, b), voice, r.channel);
    ChannelIsSaid(Since(c0, c), voice, r.channel);
    var added := OnChannel(Since(b0, b), r.channel);
    assert RouteMoved(r, b.routes[k], r.owner in s.parties, r.owner in s.parties, added, s.now);
    assert RouteMoved(t, c.routes[k], r.owner in s.parties, r.owner in s.parties, added, s.now);
    RouteEndsLike(r, b.routes[k], t, c.routes[k], r.owner in s.parties, r.owner in s.parties, added, s.now);
  }

  lemma LikeDeclares(a: Route, b: Route)
    requires RouteLike(a, b)
    ensures SameDeclaration(a, b)
  {
  }

  lemma ParallelEndsLike(b0: Bus, b: Bus, c0: Bus, c: Bus, voice: nat -> nat, s: Slot)
    requires Like(b0, c0, voice) && Moved(b0, b, s.parties, s.outs, s) && Moved(c0, c, s.parties, s.outs, s)
    requires forall p: nat :: Parallel(b0, b, c0, c, p, voice)
    requires b.published == c.published
    ensures Like(b, c, voice)
  {
    assert |b.channels| == |c.channels| && |b.routes| == |c.routes| && |b0.routes| == |b.routes|;
    assert b0.recording <= b.recording && c0.recording <= c.recording;
    forall k | 0 <= k < |b.routes| ensures RouteLike(b.routes[k], c.routes[k]) {
      ParallelRoute(b0, b, c0, c, voice, s, k);
    }
    hide Moved, RouteLike;
    assert b.channels == c.channels by {
      forall ch | 0 <= ch < |b.channels| ensures b.channels[ch] == c.channels[ch] {
        assert Parallel(b0, b, c0, c, voice(ch), voice);
      }
    }
    forall p: nat ensures Said(Bare(b.recording), voice, p) == Said(Bare(c.recording), voice, p) {
      assert Parallel(b0, b, c0, c, p, voice);
      SaidGrows(b0, b, voice, p);
      SaidGrows(c0, c, voice, p);
    }
  }

  // ----- Any two orders ----------------------------------------------------------------------------------------------

  /** The same activations for each participant, in the same order. */
  ghost predicate Rearranged(acts: seq<Act>, acts': seq<Act>) {
    forall p: nat :: Only(acts, p) == Only(acts', p)
  }

  ghost predicate SameMemories(a: map<nat, Memory>, b: map<nat, Memory>) {
    forall p: nat :: MemoryOf(a, p) == MemoryOf(b, p)
  }

  /** Whoever merges sees its messages in the same order on both buses. */
  ghost predicate Ordered(b: Bus, c: Bus, merging: set<nat>, now: u64) {
    |b.routes| == |c.routes| && forall p :: p in merging ==> SameOrder(b.routes, c.routes, p, now)
  }

  ghost predicate Mergers(acts: seq<Act>, merging: set<nat>) {
    forall a :: a in acts ==> MayMerge(a, a.who.owner in merging)
  }

  ghost predicate Comparable(st: Stage, tt: Stage, acts: seq<Act>, acts': seq<Act>, merging: set<nat>,
                             voice: nat -> nat, s: Slot) {
    && Opening(st, s) && Opening(tt, s) && Voiced(acts, voice, s) && Voiced(acts', voice, s)
    && Rearranged(acts, acts') && Mergers(acts, merging)
    && Like(st.bus, tt.bus, voice) && SameMemories(st.memories, tt.memories) && Ordered(st.bus, tt.bus, merging, s.now)
  }

  lemma SolosAgree(st: Stage, tt: Stage, acts: seq<Act>, acts': seq<Act>, merging: set<nat>, voice: nat -> nat, s: Slot,
                   p: nat)
    requires Comparable(st, tt, acts, acts', merging, voice, s) && !RunActs(st, acts, s).failed
    ensures PlaysAlone(st, acts, p, voice, s) && !RunActs(tt, Only(acts', p), s).failed
    ensures Twins(st.bus, RunActs(st, Only(acts, p), s), tt.bus, RunActs(tt, Only(acts', p), s), p, p in merging,
                  voice, s)
  {
    hide RunActs, Opening, VoicedAct, MayMerge, Like, SameOrder, Twins, Sees, PlaysAlone;
    EachPlaysAlone(st, acts, p, voice, s);
    AloneIsUnfailed(st, acts, p, voice, s);
    OnlyVoiced(acts, p, voice, s);
    LikeSees(st.bus, tt.bus, p, p in merging, voice, s);
    assert MemoryOf(st.memories, p) == MemoryOf(tt.memories, p);
    assert Only(acts, p) == Only(acts', p);
    assert Solo(Only(acts, p), p, p in merging);
    SoloTwins(st, tt, Only(acts, p), p, p in merging, voice, s);
  }

  lemma AloneIsUnfailed(st: Stage, acts: seq<Act>, p: nat, voice: nat -> nat, s: Slot)
    requires PlaysAlone(st, acts, p, voice, s)
    ensures !RunActs(st, Only(acts, p), s).failed
  {
    hide *;
    AloneUnfolds(st, acts, p, voice, s);
  }

  lemma AloneUnfolds(st: Stage, acts: seq<Act>, p: nat, voice: nat -> nat, s: Slot)
    requires PlaysAlone(st, acts, p, voice, s)
    ensures var w, solo := RunActs(st, acts, s), RunActs(st, Only(acts, p), s);
      && !solo.failed && Mirrors(st.bus, w.bus, solo.bus, p, voice, s)
      && MemoryOf(w.memories, p) == MemoryOf(solo.memories, p)
  {
    hide RunActs, Only, Mirrors, MemoryOf;
  }

  lemma {:induction false} SameSpent(st: Stage, tt: Stage, acts: seq<Act>, acts': seq<Act>, s: Slot, n: nat)
    requires forall p: nat :: SoloCount(st, tt, acts, acts', s, p)
    ensures Spent(st, acts, s, n) == Spent(tt, acts', s, n)
    decreases n
  {
    hide RunActs, Only;
    if n == 0 {
    } else {
      assert SoloCount(st, tt, acts, acts', s, n - 1);
      SameSpent(st, tt, acts, acts', s, n - 1);
    }
  }

  /** Alone, `p` publishes the same number of messages from both stages. */
  ghost predicate SoloCount(st: Stage, tt: Stage, acts: seq<Act>, acts': seq<Act>, s: Slot, p: nat) {
    RunActs(st, Only(acts, p), s).bus.published - st.bus.published
    == RunActs(tt, Only(acts', p), s).bus.published - tt.bus.published
  }

  lemma TwinsCount(b: Bus, st: Stage, c: Bus, tt: Stage, p: nat, merges: bool, voice: nat -> nat, s: Slot)
    requires Twins(b, st, c, tt, p, merges, voice, s)
    ensures st.bus.published - b.published == tt.bus.published - c.published
  {
    hide Sees;
  }

  lemma {:induction false} OwnersBelow(acts: seq<Act>) returns (n: nat)
    ensures forall a :: a in acts ==> a.who.owner < n
    decreases |acts|
  {
    if acts == [] {
      n := 0;
    } else {
      var l := |acts| - 1;
      n := OwnersBelow(acts[..l]);
      if n <= acts[l].who.owner { n := acts[l].who.owner + 1; }
      assert acts == acts[..l] + [acts[l]];
    }
  }

  lemma SamePublished(st: Stage, tt: Stage, acts: seq<Act>, acts': seq<Act>, merging: set<nat>, voice: nat -> nat,
                      s: Slot)
    requires Comparable(st, tt, acts, acts', merging, voice, s) && !RunActs(st, acts, s).failed
    requires !RunActs(tt, acts', s).failed
    ensures RunActs(st, acts, s).bus.published == RunActs(tt, acts', s).bus.published
  {
    assert st.bus.published == tt.bus.published;
    hide RunActs, Opening, VoicedAct, Rearranged, Mergers, Like, Ordered, Twins, PlaysAlone, Only;
    var n := OwnersBelow(acts + acts');
    assert forall a :: a in acts || a in acts' ==> a in acts + acts';
    AllSpent(st, acts, voice, s, n);
    AllSpent(tt, acts', voice, s, n);
    forall p: nat ensures SoloCount(st, tt, acts, acts', s, p) {
      SolosAgree(st, tt, acts, acts', merging, voice, s, p);
      TwinsCount(st.bus, RunActs(st, Only(acts, p), s), tt.bus, RunActs(tt, Only(acts', p), s), p, p in merging, voice,
                 s);
    }
    SameSpent(st, tt, acts, acts', s, n);
  }

  /** Two runs that both mirror solo runs doing the same are parallel. */
  lemma MirroredParallel(b0: Bus, b: Bus, v: Bus, c0: Bus, c: Bus, u: Bus, p: nat, merges: bool, voice: nat -> nat,
                         s: Slot)
    requires Mirrors(b0, b, v, p, voice, s) && Mirrors(c0, c, u, p, voice, s)
    requires Sees(v, u, p, merges, voice, s) && SameDeeds(b0, v, c0, u, p)
    requires |b0.routes| == |c0.routes| && forall k :: 0 <= k < |b0.routes| ==>
               b.routes[k].owner == b0.routes[k].owner == c.routes[k].owner
    ensures Parallel(b0, b, c0, c, p, voice)
  {
    hide RoutesAlike, InSight, Said, Since;
  }

  /** Any two orders of the activations of one slot that keep each participant's own order
      end alike. If the first does not fail, neither does the second: the participants keep the
      same memories, every route the same messages and every publisher's recording is the same. */
  lemma AnyOrder(st: Stage, tt: Stage, acts: seq<Act>, acts': seq<Act>, merging: set<nat>, voice: nat -> nat, s: Slot)
    requires Comparable(st, tt, acts, acts', merging, voice, s) && !RunActs(st, acts, s).failed
    ensures !RunActs(tt, acts', s).failed
    ensures Like(RunActs(st, acts, s).bus, RunActs(tt, acts', s).bus, voice)
    ensures SameMemories(RunActs(st, acts, s).memories, RunActs(tt, acts', s).memories)
  {
    hide RunActs, Opening, VoicedAct, Rearranged, Mergers, Like, Ordered, Twins, PlaysAlone, Moved, Parallel, MemoryOf;
    forall p: nat ensures !RunActs(tt, Only(acts', p), s).failed {
      SolosAgree(st, tt, acts, acts', merging, voice, s, p);
    }
    FailsAlone(tt, acts', voice, s);
    var w, u := RunActs(st, acts, s), RunActs(tt, acts', s);
    RunMoves(st, acts, voice, s);
    RunMoves(tt, acts', voice, s);
    forall p: nat
      ensures Parallel(st.bus, w.bus, tt.bus, u.bus, p, voice) && MemoryOf(w.memories, p) == MemoryOf(u.memories, p)
    {
      EachEndsAlike(st, tt, acts, acts', merging, voice, s, p);
    }
    SamePublished(st, tt, acts, acts', merging, voice, s);
    ParallelEndsLike(st.bus, w.bus, tt.bus, u.bus, voice, s);
  }

  lemma EachEndsAlike(st: Stage, tt: Stage, acts: seq<Act>, acts': seq<Act>, merging: set<nat>, voice: nat -> nat,
                      s: Slot, p: nat)
    requires Comparable(st, tt, acts, acts', merging, voice, s) && !RunActs(st, acts, s).failed
    requires !RunActs(tt, acts', s).failed
    ensures var w, u := RunActs(st, acts, s), RunActs(tt, acts', s);
      Parallel(st.bus, w.bus, tt.bus, u.bus, p, voice) && MemoryOf(w.memories, p) == MemoryOf(u.memories, p)
  {
    hide RunActs, Opening, VoicedAct, Rearranged, Mergers, Ordered, PlaysAlone, MemoryOf, Moved, Mirrors;
    hide Only, SaidLike, RouteLike, Sees, SameDeeds, Parallel;
    var w, u := RunActs(st, acts, s), RunActs(tt, acts', s);
    SolosAgree(st, tt, acts, acts', merging, voice, s, p);
    EachPlaysAlone(tt, acts', p, voice, s);
    AloneUnfolds(st, acts, p, voice, s);
    AloneUnfolds(tt, acts', p, voice, s);
    RunMoves(st, acts, voice, s);
    RunMoves(tt, acts', voice, s);
    KeepOwners(st.bus, w.bus, s.parties, s.outs, s);
    KeepOwners(tt.bus, u.bus, s.parties, s.outs, s);
    forall k | 0 <= k < |st.bus.routes| ensures SameDeclaration(st.bus.routes[k], tt.bus.routes[k]) {
      LikeDeclares(st.bus.routes[k], tt.bus.routes[k]);
    }
    MirroredParallel(st.bus, w.bus, RunActs(st, Only(acts, p), s).bus, tt.bus, u.bus,
                     RunActs(tt, Only(acts', p), s).bus, p, p in merging, voice, s);
  }
}
