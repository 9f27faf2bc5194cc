// Priorities over whole runs. Across slots the order in which publishers interleave can be
// heard by a participant that merges messages of two of them; where nobody does, two
// assignments of priorities give the same run.

module RunOrder {
  import opened VirtualTime
  import opened DataPlane
  import opened Merge
  import opened Schedule
  import opened ScheduleProofs
  import opened SlotProofs
  import opened Engine
  import opened EngineProofs
  import opened Sight
  import opened Moves
  import opened SlotOrder
  import opened Crowding
  import opened EngineOrder

  // ----- The order of one publisher's messages ----------------------------------------------------------

  /** The records on the channels of one publisher, in order. */
  function SaidRecords(recording: seq<Record>, voice: nat -> nat, p: nat): seq<Record> {
    if recording == [] then []
    else
      var e := recording[|recording| - 1];
      SaidRecords(recording[..|recording| - 1], voice, p) + if voice(e.channel) == p then [e] else []
  }

  lemma {:induction false} SaidRecordsBare(recording: seq<Record>, voice: nat -> nat, p: nat)
    ensures Bare(SaidRecords(recording, voice, p)) == Said(Bare(recording), voice, p)
    decreases |recording|
  {
    if recording == [] {
    } else {
      var n := |recording| - 1;
      SaidRecordsBare(recording[..n], voice, p);
      assert Bare(recording)[..n] == Bare(recording[..n]);
    }
  }

  lemma {:induction false} SaidRecordsStream(recording: seq<Record>, voice: nat -> nat, ch: nat)
    ensures Stream(SaidRecords(recording, voice, voice(ch)), ch) == Stream(recording, ch)
    decreases |recording|
  {
    if recording == [] {
    } else {
      var n := |recording| - 1;
      var said := SaidRecords(recording[..n], voice, voice(ch));
      SaidRecordsStream(recording[..n], voice, ch);
      if voice(recording[n].channel) == voice(ch) {
        StreamAppend(said, recording[n], ch);
      } else {
        assert said + [] == said && Stream(recording[..n], ch) + [] == Stream(recording[..n], ch);
      }
    }
  }

  lemma {:induction false} SaidRecordsIncrease(recording: seq<Record>, voice: nat -> nat, p: nat)
    requires RecordsIncrease(recording)
    ensures RecordsIncrease(SaidRecords(recording, voice, p))
    ensures forall e :: e in SaidRecords(recording, voice, p) ==> e in recording
    decreases |recording|
  {
    if recording == [] {
    } else {
      var n := |recording| - 1;
      var said := SaidRecords(recording[..n], voice, p);
      SaidRecordsIncrease(recording[..n], voice, p);
      forall e | e in said ensures e.msg.globalSeq < recording[n].msg.globalSeq && e in recording {
        var i :| 0 <= i < n && recording[i] == e;
      }
    }
  }

  /** Where the `n`-th entry of a channel stands. */
  function Place(entries: seq<Entry>, ch: nat, n: nat): nat {
    if entries == [] then 0
    else
      var l := |entries| - 1;
      if entries[l].channel == ch && |OnChannel(entries[..l], ch)| == n then l else Place(entries[..l], ch, n)
  }

  lemma {:induction false} PlaceInStream(recording: seq<Record>, ch: nat, n: nat)
    requires n < |Stream(recording, ch)|
    ensures Place(Bare(recording), ch, n) < |recording|
    ensures recording[Place(Bare(recording), ch, n)].msg == Stream(recording, ch)[n]
    decreases |recording|
  {
    var l := |recording| - 1;
    StreamIsOnChannel(recording[..l], ch);
    assert Bare(recording)[..l] == Bare(recording[..l]);
    if recording[l].channel == ch && |Stream(recording[..l], ch)| == n {
    } else {
      PlaceInStream(recording[..l], ch, n);
    }
  }

  lemma {:induction false} StreamIsOnChannel(recording: seq<Record>, ch: nat)
    ensures |OnChannel(Bare(recording), ch)| == |Stream(recording, ch)|
    decreases |recording|
  {
    if recording == [] {
    } else {
      var l := |recording| - 1;
      assert Bare(recording)[..l] == Bare(recording[..l]);
      StreamIsOnChannel(recording[..l], ch);
    }
  }

  /** A waiting message is the record at its place among what its publisher said. */
  lemma WaitingPlace(b: Bus, k: nat, x: nat, voice: nat -> nat)
    requires Agreement(b) && k < |b.routes| && b.routes[k].dropped == 0 && x < |b.routes[k].pending|
    ensures var r := b.routes[k];
      var said := SaidRecords(b.recording, voice, voice(r.channel));
      var place := Place(Said(Bare(b.recording), voice, voice(r.channel)), r.channel, |r.taken| + x);
      place < |said| && said[place].msg == r.pending[x]
  {
    var r := b.routes[k];
    LosslessRoute(b, k);
    hide Agreement;
    assert r.pending[x] == (r.taken + r.pending)[|r.taken| + x];
    SaidRecordsStream(b.recording, voice, r.channel);
    SaidRecordsBare(b.recording, voice, voice(r.channel));
    PlaceInStream(SaidRecords(b.recording, voice, voice(r.channel)), r.channel, |r.taken| + x);
  }

  lemma PlaceDecides(said: seq<Record>, i: nat, j: nat)
    requires RecordsIncrease(said) && i < |said| && j < |said|
    ensures said[i].msg.globalSeq < said[j].msg.globalSeq <==> i < j
  {
  }

  /** Before global_seq wraps, messages of one publisher are ordered by their places. */
  lemma WaitingOrder(b: Bus, j: nat, k: nat, x: nat, y: nat, voice: nat -> nat)
    requires Agreement(b) && b.published <= TWO64 && j < |b.routes| && k < |b.routes|
    requires b.routes[j].dropped == 0 && b.routes[k].dropped == 0
    requires voice(b.routes[j].channel) == voice(b.routes[k].channel)
    requires x < |b.routes[j].pending| && y < |b.routes[k].pending|
    ensures var (r, t) := (b.routes[j], b.routes[k]);
      var said := Said(Bare(b.recording), voice, voice(r.channel));
      r.pending[x].globalSeq < t.pending[y].globalSeq
      <==> Place(said, r.channel, |r.taken| + x) < Place(said, t.channel, |t.taken| + y)
  {
    assert RecordsIncrease(b.recording);
    hide Agreement, RecordsIncrease, Place;
    var p := voice(b.routes[j].channel);
    WaitingPlace(b, j, x, voice);
    WaitingPlace(b, k, y, voice);
    SaidRecordsIncrease(b.recording, voice, p);
    var said := Said(Bare(b.recording), voice, p);
    PlaceDecides(SaidRecords(b.recording, voice, p),
                 Place(said, b.routes[j].channel, |b.routes[j].taken| + x), Place(said, b.routes[k].channel,
                       |b.routes[k].taken| + y));
  }

  // ----- Who merges hears one publisher --------------------------------------------------------------------

  /** All routes of a merging participant are on channels of one publisher. */
  ghost predicate OneVoice(b: Bus, merging: set<nat>, voice: nat -> nat) {
    forall j, k :: 0 <= j < |b.routes| && 0 <= k < |b.routes| && b.routes[j].owner == b.routes[k].owner
                   && b.routes[j].owner in merging ==>
      voice(b.routes[j].channel) == voice(b.routes[k].channel)
  }

  ghost predicate NoDrops(b: Bus) {
    forall k :: 0 <= k < |b.routes| ==> b.routes[k].dropped == 0
  }

  lemma LikeLengths(r: Route, t: Route, now: u64)
    requires RouteLike(r, t)
    ensures |r.taken| == |t.taken| && |r.pending| == |t.pending| && |InSight(r, now)| == |InSight(t, now)|
    ensures SameDeclaration(r, t) && r.dropped == t.dropped
  {
    hide InSight;
    SightIsBare(r, t, now);
    assert |BareMsgs(r.taken)| == |BareMsgs(t.taken)| && |BareMsgs(r.pending)| == |BareMsgs(t.pending)|;
    assert |BareMsgs(InSight(r, now))| == |BareMsgs(InSight(t, now))|;
  }

  lemma OrderedPair(b: Bus, c: Bus, j: nat, k: nat, voice: nat -> nat, now: u64)
    requires Agreement(b) && Agreement(c) && b.published <= TWO64 && Like(b, c, voice) && NoDrops(b)
    requires j < |b.routes| && k < |b.routes| && voice(b.routes[j].channel) == voice(b.routes[k].channel)
    ensures |b.routes| == |c.routes|
    ensures SamePair(InSight(b.routes[j], now), InSight(b.routes[k], now), InSight(c.routes[j], now),
                     InSight(c.routes[k], now))
  {
    hide InSight, Agreement, RouteLike;
    LikeLengths(b.routes[j], c.routes[j], now);
    LikeLengths(b.routes[k], c.routes[k], now);
    var (r, t, r', t') := (b.routes[j], b.routes[k], c.routes[j], c.routes[k]);
    var sj, sk, tj, tk := InSight(r, now), InSight(t, now), InSight(r', now), InSight(t', now);
    forall x, y | 0 <= x < |sj| && 0 <= y < |sk|
      ensures sj[x].globalSeq < sk[y].globalSeq <==> tj[x].globalSeq < tk[y].globalSeq
    {
      assert sj[x] == r.pending[x] && sk[y] == t.pending[y] && tj[x] == r'.pending[x] && tk[y] == t'.pending[y];
      assert Said(Bare(b.recording), voice, voice(r.channel)) == Said(Bare(c.recording), voice, voice(r.channel));
      WaitingOrder(b, j, k, x, y, voice);
      WaitingOrder(c, j, k, x, y, voice);
    }
  }

  /** Publisher by publisher the same Recording: who hears one publisher hears the same order. */
  lemma OneVoiceOrders(b: Bus, c: Bus, merging: set<nat>, voice: nat -> nat, now: u64)
    requires Agreement(b) && Agreement(c) && b.published <= TWO64 && Like(b, c, voice) && NoDrops(b)
    requires OneVoice(b, merging, voice)
    ensures Ordered(b, c, merging, now)
  {
    assert |b.routes| == |c.routes|;
    hide InSight, Agreement, Like, SamePair, NoDrops;
    forall p | p in merging ensures SameOrder(b.routes, c.routes, p, now) {
      forall j, k | 0 <= j < |b.routes| && 0 <= k < |b.routes| && b.routes[j].owner == p && b.routes[k].owner == p
        ensures SamePair(InSight(b.routes[j], now), InSight(b.routes[k], now), InSight(c.routes[j], now),
                         InSight(c.routes[k], now))
      {
        OrderedPair(b, c, j, k, voice, now);
      }
    }
  }

  // ----- One run, slot by slot ---------------------------------------------------------------------------------

  predicate ActsEver(cfg: Config, c: Control, p: nat) {
    (exists i :: 0 <= i < |cfg.jobs| && cfg.jobs[i].who.owner == p)
    || (exists j :: 0 <= j < |c.replayers| && c.replayers[j].owner == p)
  }

  predicate SpokenEver(cfg: Config, c: Control, ch: nat) {
    (exists i :: 0 <= i < |cfg.jobs| && ch in cfg.jobs[i].who.outputs)
    || (exists j :: 0 <= j < |c.replayers| && ch in c.replayers[j].channels)
  }

  /** No participant that ever acts subscribes with latency zero to a channel anyone publishes. */
  ghost predicate Delayed(cfg: Config, c: Control, b: Bus) {
    forall k :: 0 <= k < |b.routes| && ActsEver(cfg, c, b.routes[k].owner)
                && SpokenEver(cfg, c, b.routes[k].channel) ==>
      b.routes[k].latency != Some(0)
  }

  /** A run between two slots. */
  ghost predicate Steady(cfg: Config, w: World, voice: nat -> nat) {
    Wired(cfg, w) && !w.failed && InLoop(w.control, cfg.duration) && Cast(cfg, w.control, voice)
    && Delayed(cfg, w.control, w.bus)
  }

  /** Some publish of the next `n` slots meets a full queue. */
  ghost predicate CrowdedRun(cfg: Config, w: World, n: nat)
    requires Wired(cfg, w)
    decreases n
  {
    n > 0 && !w.failed && NextSlot(w.control) != MAX64
    && (CrowdedSlot(cfg, w) || CrowdedRun(cfg, PerformSlot(cfg, w), n - 1))
  }

  lemma ActIsEver(cfg: Config, c: Control, now: u64, item: Item)
    requires |cfg.jobs| == |c.tasks| && Known(c, item) && Cursors(c)
    ensures ActsEver(cfg, c, ActOf(cfg, c, now, item).who.owner)
    ensures forall ch :: ch in ActOf(cfg, c, now, item).who.outputs ==> SpokenEver(cfg, c, ch)
  {
    hide DueRun, Reciter;
  }

  lemma MemberIsItem(cfg: Config, c: Control, now: u64, items: seq<Item>, a: Act)
    requires |cfg.jobs| == |c.tasks| && AllKnown(c, items) && Cursors(c) && a in ActsOf(cfg, c, now, items)
    ensures ActsEver(cfg, c, a.who.owner)
    ensures forall ch :: ch in a.who.outputs ==> SpokenEver(cfg, c, ch)
  {
    hide ActOf, ActsEver, SpokenEver;
    var acts := ActsOf(cfg, c, now, items);
    var i :| 0 <= i < |acts| && acts[i] == a;
    assert items[i] in items && a == ActOf(cfg, c, now, items[i]);
    ActIsEver(cfg, c, now, items[i]);
  }

  lemma ItemActs(cfg: Config, c: Control, now: u64, items: seq<Item>, p: nat, ch: nat)
    requires |cfg.jobs| == |c.tasks| && AllKnown(c, items) && Cursors(c)
    ensures p in SlotOf(cfg, now, ActsOf(cfg, c, now, items)).parties ==> ActsEver(cfg, c, p)
    ensures ch in SlotOf(cfg, now, ActsOf(cfg, c, now, items)).outs ==> SpokenEver(cfg, c, ch)
  {
    hide ActsOf, ActsEver, SpokenEver;
    var acts := ActsOf(cfg, c, now, items);
    forall a | a in acts
      ensures ActsEver(cfg, c, a.who.owner) && forall ch :: ch in a.who.outputs ==> SpokenEver(cfg, c, ch)
    {
      MemberIsItem(cfg, c, now, items, a);
    }
  }

  lemma StartedDelayed(cfg: Config, w: World, slot: u64)
    requires Delayed(cfg, w.control, w.bus)
    ensures Delayed(cfg, Started(w, slot).control, w.bus)
  {
  }

  lemma DelayedHushes(cfg: Config, w: World)
    requires Wired(cfg, w) && Delayed(cfg, w.control, w.bus)
    ensures HushedSlot(cfg, w)
  {
    var slot := NextSlot(w.control);
    var items := SlotAgenda(cfg, w);
    var w' := Started(w, slot);
    StartedDelayed(cfg, w, slot);
    hide ActsEver, SpokenEver, SlotOf, ActsOf, SlotAgenda, NextSlot, Silent, InSight;
    var s := SlotOf(cfg, slot, ActsOf(cfg, w'.control, slot, items));
    forall k | 0 <= k < |w.bus.routes| && w.bus.routes[k].owner in s.parties && w.bus.routes[k].channel in s.outs
               && w.bus.routes[k].channel < |w.bus.channels|
      ensures Muted(w.bus.routes[k], w.bus.channels[w.bus.routes[k].channel], s)
    {
      ItemActs(cfg, w'.control, slot, items, w.bus.routes[k].owner, w.bus.routes[k].channel);
    }
  }

  /** Subscriptions stay, nothing more is dropped, and publishes only count up. */
  ghost predicate Keeps(b: Bus, b': Bus) {
    && |b.routes| == |b'.routes| && b.published <= b'.published
    && forall k :: 0 <= k < |b.routes| ==>
         SameDeclaration(b.routes[k], b'.routes[k]) && b'.routes[k].dropped == b.routes[k].dropped
  }

  lemma MovedKeeps(b: Bus, b': Bus, owners: set<nat>, outs: set<nat>, s: Slot)
    requires Moved(Opened(b), Opened(b'), owners, outs, s)
    ensures Keeps(b, b')
  {
    hide QueueMoved, InSight, Since, OnChannel, Silent;
    forall k | 0 <= k < |b.routes|
      ensures SameDeclaration(b.routes[k], b'.routes[k]) && b'.routes[k].dropped == b.routes[k].dropped
    {
      var r, t := Opened(b).routes[k], Opened(b').routes[k];
      assert RouteMoved(r, t, r.owner in owners, r.owner in s.parties,
                        OnChannel(Since(Opened(b), Opened(b')), r.channel), s.now);
    }
  }

  lemma NoMergersNeeded(cfg: Config)
    ensures MergersAre(cfg, set i | 0 <= i < |cfg.jobs| :: cfg.jobs[i].who.owner)
  {
  }

  lemma ItemsKeep(cfg: Config, w: World, now: u64, items: seq<Item>, voice: nat -> nat)
    requires Lists(cfg, w, items) && Cast(cfg, w.control, voice) && HushedItems(cfg, w, now, items)
    requires !PerformAll(cfg, w, now, items).failed && !CrowdedItems(cfg, w, now, items)
    ensures Keeps(w.bus, PerformAll(cfg, w, now, items).bus)
  {
    var acts := ActsOf(cfg, w.control, now, items);
    var s := SlotOf(cfg, now, acts);
    var everyone := set i | 0 <= i < |cfg.jobs| :: cfg.jobs[i].who.owner;
    NoMergersNeeded(cfg);
    hide Hushed, Cast, MergersAre, ActsOf, SlotOf, RunActs, CrowdedActs, PerformAll, NoRepeats, AllRested;
    hide Moved, Voiced, Opening;
    SlotInstant(cfg, now, acts);
    CastActs(cfg, w.control, now, items, everyone, voice, s);
    PerformAllIsActs(cfg, w, now, items, s);
    OpenedActs(StageOf(w), acts, s);
    OpenedOpening(StageOf(w), s);
    RunMoves(OpenedStage(StageOf(w)), acts, voice, s);
    MovedKeeps(w.bus, PerformAll(cfg, w, now, items).bus, s.parties, s.outs, s);
  }

  lemma SameActors(cfg: Config, c: Control, d: Control, voice: nat -> nat, b: Bus, b': Bus)
    requires SameDeclarations(c, d) && Keeps(b, b')
    ensures Cast(cfg, c, voice) ==> Cast(cfg, d, voice)
    ensures Delayed(cfg, c, b) ==> Delayed(cfg, d, b')
  {
    forall j | 0 <= j < |c.replayers|
      ensures c.replayers[j].owner == d.replayers[j].owner && c.replayers[j].channels == d.replayers[j].channels
    {
      assert d.replayers[j].(cursor := 0) == c.replayers[j].(cursor := 0);
    }
    if Delayed(cfg, c, b) {
      forall k | 0 <= k < |b'.routes| && ActsEver(cfg, d, b'.routes[k].owner)
             && SpokenEver(cfg, d, b'.routes[k].channel)
        ensures b'.routes[k].latency != Some(0)
      {
        assert SameDeclaration(b.routes[k], b'.routes[k]);
        assert ActsEver(cfg, c, b.routes[k].owner) && SpokenEver(cfg, c, b.routes[k].channel);
      }
    }
  }

  lemma SlotKeeps(cfg: Config, w: World, voice: nat -> nat)
    requires Steady(cfg, w, voice) && NextSlot(w.control) != MAX64 && !PerformSlot(cfg, w).failed
    requires !CrowdedSlot(cfg, w)
    ensures Steady(cfg, PerformSlot(cfg, w), voice) && Keeps(w.bus, PerformSlot(cfg, w).bus)
    ensures SameDeclarations(w.control, PerformSlot(cfg, w).control)
  {
    hide NextSlot, Agenda, InLoop, Cast, Delayed, HushedItems, CrowdedItems, PerformAll, Keeps;
    hide SameDeclarations, RunSlot, Lists;
    var slot := NextSlot(w.control);
    DelayedHushes(cfg, w);
    AgendaLists(cfg, w);
    StartedCast(cfg, w.control, w.control.slots + [slot], voice);
    ItemsKeep(cfg, Started(w, slot), slot, SlotAgenda(cfg, w), voice);
    PerformSlotFollowsControl(cfg, w);
    SlotShrinksWork(w.control, cfg.duration);
    LoopKeepsDeclarations(w.control, cfg.duration);
    SameActors(cfg, w.control, PerformSlot(cfg, w).control, voice, w.bus, PerformSlot(cfg, w).bus);
  }

  lemma LoopKeepsDeclarations(c: Control, duration: u64)
    requires InLoop(c, duration)
    ensures Cursors(c) && SameDeclarations(c, RunSlot(c, duration))
  {
    hide RunSlot, ScheduleOk, SameDeclarations, UniqueIndices;
    SlotKeepsGoing(c, duration);
  }

  lemma {:induction false} RunPublishes(cfg: Config, w: World, n: nat, voice: nat -> nat)
    requires Steady(cfg, w, voice) && !Run(cfg, w, n).failed && !CrowdedRun(cfg, w, n)
    ensures w.bus.published <= Run(cfg, w, n).bus.published
    decreases n
  {
    hide PerformSlot, NextSlot, InLoop, Cast, Delayed, CrowdedSlot, RunSlots;
    if n == 0 || NextSlot(w.control) == MAX64 {
    } else {
      RunFollowsControl(cfg, PerformSlot(cfg, w), n - 1);
      SlotKeeps(cfg, w, voice);
      RunPublishes(cfg, PerformSlot(cfg, w), n - 1, voice);
    }
  }

  // ----- Two runs ------------------------------------------------------------------------------------------------

  /** Two runs between slots that differ in priorities only. */
  ghost predicate TwinRuns(cfg: Config, w: World, u: World, merging: set<nat>, voice: nat -> nat) {
    && Steady(cfg, w, voice) && Steady(cfg, u, voice) && WorldLike(w, u, voice)
    && KeepsOwnOrder(cfg, w.control, u.control)
    && Agreement(w.bus) && Agreement(u.bus) && NoDrops(w.bus) && OneVoice(w.bus, merging, voice)
  }

  lemma BeforeIsStatic(cfg: Config, c: Control, c': Control, d: Control, d': Control)
    requires |cfg.jobs| == |c.tasks| == |d.tasks| && SameDeclarations(c, c') && SameDeclarations(d, d')
    requires KeepsOwnOrder(cfg, c, d)
    ensures KeepsOwnOrder(cfg, c', d')
  {
    forall i | 0 <= i < |c.tasks|
      ensures c'.tasks[i].priority == c.tasks[i].priority && c'.tasks[i].index == c.tasks[i].index
      ensures d'.tasks[i].priority == d.tasks[i].priority && d'.tasks[i].index == d.tasks[i].index
    {
      assert SameTask(c'.tasks[i], c.tasks[i]) && SameTask(d'.tasks[i], d.tasks[i]);
    }
    forall i, j | 0 <= i < |c.tasks| && 0 <= j < |c.tasks| && cfg.jobs[i].who.owner == cfg.jobs[j].who.owner
      ensures Before(c', RunTask(i), RunTask(j)) <==> Before(d', RunTask(i), RunTask(j))
    {
      assert Before(c, RunTask(i), RunTask(j)) <==> Before(d, RunTask(i), RunTask(j));
    }
  }

  lemma RoutesAreStatic(b: Bus, b': Bus, merging: set<nat>, voice: nat -> nat)
    requires Keeps(b, b')
    ensures NoDrops(b) ==> NoDrops(b')
    ensures OneVoice(b, merging, voice) ==> OneVoice(b', merging, voice)
  {
    if OneVoice(b, merging, voice) {
      forall j, k | 0 <= j < |b'.routes| && 0 <= k < |b'.routes| && b'.routes[j].owner == b'.routes[k].owner
                    && b'.routes[j].owner in merging
        ensures voice(b'.routes[j].channel) == voice(b'.routes[k].channel)
      {
        assert SameDeclaration(b.routes[j], b'.routes[j]) && SameDeclaration(b.routes[k], b'.routes[k]);
      }
    }
  }

  lemma TwinSlot(cfg: Config, w: World, u: World, merging: set<nat>, voice: nat -> nat)
    requires TwinRuns(cfg, w, u, merging, voice) && MergersAre(cfg, merging) && w.bus.published <= TWO64
    requires NextSlot(w.control) != MAX64 && !PerformSlot(cfg, w).failed && !CrowdedSlot(cfg, w) && !CrowdedSlot(cfg, u)
    ensures NextSlot(u.control) == NextSlot(w.control)
    ensures TwinRuns(cfg, PerformSlot(cfg, w), PerformSlot(cfg, u), merging, voice)
  {
    assert Like(w.bus, u.bus, voice) && Reprioritised(w.control, u.control);
    hide NextSlot, InLoop, Cast, Delayed, CrowdedSlot, PerformSlot, Agreement, NoDrops, OneVoice, WorldLike;
    hide KeepsOwnOrder, MergersAre, Keeps, Like, Ordered, Reprioritised;
    SameNextSlot(w.control, u.control);
    OneVoiceOrders(w.bus, u.bus, merging, voice, NextSlot(w.control));
    DelayedHushes(cfg, w);
    SlotUnderTwoPriorities(cfg, w, u, merging, voice);
    SlotKeeps(cfg, w, voice);
    SlotKeeps(cfg, u, voice);
    PerformSlotKeepsAgreement(cfg, w);
    PerformSlotKeepsAgreement(cfg, u);
    BeforeIsStatic(cfg, w.control, PerformSlot(cfg, w).control, u.control, PerformSlot(cfg, u).control);
    RoutesAreStatic(w.bus, PerformSlot(cfg, w).bus, merging, voice);
  }

  lemma TwinFacts(cfg: Config, w: World, u: World, merging: set<nat>, voice: nat -> nat)
    requires TwinRuns(cfg, w, u, merging, voice)
    ensures Wired(cfg, w) && Wired(cfg, u) && !w.failed && !u.failed && Steady(cfg, w, voice)
    ensures NextSlot(u.control) == NextSlot(w.control)
  {
    assert Reprioritised(w.control, u.control);
    hide InLoop, Cast, Delayed, Agreement, NoDrops, OneVoice, WorldLike, KeepsOwnOrder, Reprioritised, NextSlot;
    SameNextSlot(w.control, u.control);
  }

  lemma OneMoreSlot(cfg: Config, w: World, n: nat)
    requires Wired(cfg, w) && n > 0 && !w.failed && NextSlot(w.control) != MAX64
    ensures Run(cfg, w, n) == Run(cfg, PerformSlot(cfg, w), n - 1)
    ensures CrowdedRun(cfg, w, n) <==> CrowdedSlot(cfg, w) || CrowdedRun(cfg, PerformSlot(cfg, w), n - 1)
  {
    hide PerformSlot, NextSlot, CrowdedSlot;
  }

  lemma NoMoreSlots(cfg: Config, w: World, n: nat)
    requires Wired(cfg, w) && (n == 0 || NextSlot(w.control) == MAX64)
    ensures Run(cfg, w, n) == w
  {
  }

  lemma {:induction false} TwinsRun(cfg: Config, w: World, u: World, n: nat, merging: set<nat>, voice: nat -> nat)
    requires TwinRuns(cfg, w, u, merging, voice) && MergersAre(cfg, merging)
    requires !Run(cfg, w, n).failed && Run(cfg, w, n).bus.published <= TWO64
    requires !CrowdedRun(cfg, w, n) && !CrowdedRun(cfg, u, n)
    ensures TwinRuns(cfg, Run(cfg, w, n), Run(cfg, u, n), merging, voice)
    decreases n
  {
    hide *;
    TwinFacts(cfg, w, u, merging, voice);
    if n == 0 || NextSlot(w.control) == MAX64 {
      NoMoreSlots(cfg, w, n);
      NoMoreSlots(cfg, u, n);
    } else {
      OneMoreSlot(cfg, w, n);
      OneMoreSlot(cfg, u, n);
      RunPublishes(cfg, w, n, voice);
      RunFollowsControl(cfg, PerformSlot(cfg, w), n - 1);
      TwinSlot(cfg, w, u, merging, voice);
      TwinFacts(cfg, PerformSlot(cfg, w), PerformSlot(cfg, u), merging, voice);
      TwinsRun(cfg, PerformSlot(cfg, w), PerformSlot(cfg, u), n - 1, merging, voice);
    }
  }

  // ----- Crowding over a run ---------------------------------------------------------------------------------------

  lemma SlotLoses(cfg: Config, w: World)
    requires Wired(cfg, w) && !w.failed && InLoop(w.control, cfg.duration) && !PerformSlot(cfg, w).failed
    ensures Loses(w.bus.routes, PerformSlot(cfg, w).bus.routes, CrowdedSlot(cfg, w))
  {
    hide NextSlot, Agenda, InLoop, PerformAll, ActsOf, SlotOf, RunActs, CrowdedActs, Loses;
    var slot := NextSlot(w.control);
    var items := SlotAgenda(cfg, w);
    var acts := ActsOf(cfg, Started(w, slot).control, slot, items);
    AgendaLists(cfg, w);
    SlotInstant(cfg, slot, acts);
    PerformAllIsActs(cfg, Started(w, slot), slot, items, SlotOf(cfg, slot, acts));
    ActsLose(StageOf(w), acts, SlotOf(cfg, slot, acts));
  }

  lemma {:induction false} RunLoses(cfg: Config, w: World, n: nat)
    requires Wired(cfg, w) && InLoop(w.control, cfg.duration) && !Run(cfg, w, n).failed
    ensures Loses(w.bus.routes, Run(cfg, w, n).bus.routes, CrowdedRun(cfg, w, n))
    decreases n
  {
    hide PerformSlot, NextSlot, InLoop, CrowdedSlot, RunSlots, RunSlot, Loses, Work;
    if n == 0 || w.failed || NextSlot(w.control) == MAX64 {
      KeepsDrops(w.bus.routes, w.bus.routes);
    } else {
      var w' := PerformSlot(cfg, w);
      RunFollowsControl(cfg, w', n - 1);
      PerformSlotFollowsControl(cfg, w);
      LoopKeepsDeclarations(w.control, cfg.duration);
      SlotShrinksWork(w.control, cfg.duration);
      SlotLoses(cfg, w);
      RunLoses(cfg, w', n - 1);
      LosesOn(w.bus.routes, w'.bus.routes, Run(cfg, w', n - 1).bus.routes, CrowdedSlot(cfg, w),
              CrowdedRun(cfg, w', n - 1));
    }
  }

  // ----- The theorem -------------------------------------------------------------------------------------------------

  lemma LikeItself(b: Bus, voice: nat -> nat)
    ensures Like(b, b, voice)
  {
  }

  lemma ReadyTwins(cfg: Config, w: World, u: World, merging: set<nat>, voice: nat -> nat)
    requires Ready(cfg, w) && Ready(cfg, u) && w.bus == u.bus && SameMemories(w.memories, u.memories)
    requires Reprioritised(w.control, u.control) && KeepsOwnOrder(cfg, w.control, u.control)
    requires Cast(cfg, w.control, voice) && Delayed(cfg, w.control, w.bus) && OneVoice(w.bus, merging, voice)
    ensures TwinRuns(cfg, w, u, merging, voice)
  {
    ReadyAgrees(cfg, w);
    ReadyAgrees(cfg, u);
    LikeItself(w.bus, voice);
    assert NoDrops(w.bus);
    SameCast(cfg, w.control, u.control, voice);
    SameDelay(cfg, w.control, u.control, w.bus);
  }

  lemma SameDelay(cfg: Config, c: Control, d: Control, b: Bus)
    requires Reprioritised(c, d) && Delayed(cfg, c, b)
    ensures Delayed(cfg, d, b)
  {
    forall j | 0 <= j < |c.replayers|
      ensures c.replayers[j].owner == d.replayers[j].owner && c.replayers[j].channels == d.replayers[j].channels
    {
      assert SameReplayButRank(c.replayers[j], d.replayers[j]);
    }
    forall k | 0 <= k < |b.routes| && ActsEver(cfg, d, b.routes[k].owner) && SpokenEver(cfg, d, b.routes[k].channel)
      ensures b.routes[k].latency != Some(0)
    {
      assert ActsEver(cfg, c, b.routes[k].owner) && SpokenEver(cfg, c, b.routes[k].channel);
    }
  }

  /** Two engines set up alike but for priorities and registration order, with one publisher
      per channel, no latency-zero subscription, every merging participant on channels of one
      publisher, and each participant's own tasks in the same order. If the first run neither
      fails nor crowds a queue and publishes at most 2^64 messages, then the second run ends
      unfailed with the same memories, the same task and replayer states and activation instants,
      the same messages on every route and the same Recording publisher by publisher,
      exactly when it crowds no queue either. */
  lemma RunUnderTwoPriorities(cfg: Config, w: World, u: World, n: nat, merging: set<nat>, voice: nat -> nat)
    requires Ready(cfg, w) && Ready(cfg, u) && w.bus == u.bus && SameMemories(w.memories, u.memories)
    requires Reprioritised(w.control, u.control) && KeepsOwnOrder(cfg, w.control, u.control)
    requires Cast(cfg, w.control, voice) && Delayed(cfg, w.control, w.bus) && OneVoice(w.bus, merging, voice)
    requires MergersAre(cfg, merging)
    requires Wired(cfg, w) && Wired(cfg, u)
    requires !Run(cfg, w, n).failed && !CrowdedRun(cfg, w, n) && Run(cfg, w, n).bus.published <= TWO64
    ensures !CrowdedRun(cfg, u, n) <==> !Run(cfg, u, n).failed && WorldLike(Run(cfg, w, n), Run(cfg, u, n), voice)
  {
    ReadyTwins(cfg, w, u, merging, voice);
    ReadyAgrees(cfg, w);
    ReadyAgrees(cfg, u);
    LikeItself(w.bus, voice);
    hide Ready, Run, CrowdedRun, Loses, Like, Steady, Reprioritised, Cast, Delayed, OneVoice, MergersAre;
    hide KeepsOwnOrder, Agreement;
    if !CrowdedRun(cfg, u, n) {
      TwinsRun(cfg, w, u, n, merging, voice);
      TwinFacts(cfg, Run(cfg, w, n), Run(cfg, u, n), merging, voice);
    } else if !Run(cfg, u, n).failed {
      RunLoses(cfg, w, n);
      RunLoses(cfg, u, n);
      LostIsUnlike(w.bus, Run(cfg, w, n).bus, u.bus, Run(cfg, u, n).bus, voice);
    }
  }
}
