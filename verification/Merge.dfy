// The k-way merge that builds one Step's input list: repeatedly take the visible
// front with the smallest global sequence number.

module Merge {
  import opened VirtualTime
  import opened DataPlane

  datatype Input = Input(route: nat, msg: Msg)

  predicate Candidate(routes: seq<Route>, owner: nat, now: u64, k: nat)
    requires k < |routes|
  {
    routes[k].owner == owner && VisibleAt(routes[k], now)
  }

  /** The scan for the best front among the first `k` routes. */
  function Best(routes: seq<Route>, owner: nat, now: u64, k: nat): (r: Option<nat>)
    requires k <= |routes|
    ensures r.Some? ==> r.value < k && Candidate(routes, owner, now, r.value)
    ensures r.None? ==> forall j :: 0 <= j < k ==> !Candidate(routes, owner, now, j)
    ensures r.Some? ==> forall j :: 0 <= j < k && Candidate(routes, owner, now, j) ==>
      routes[r.value].pending[0].globalSeq <= routes[j].pending[0].globalSeq
  {
    if k == 0 then None
    else
      var b := Best(routes, owner, now, k - 1);
      if Candidate(routes, owner, now, k - 1)
         && (b.None? || routes[k - 1].pending[0].globalSeq < routes[b.value].pending[0].globalSeq)
      then Some(k - 1) else b
  }

  /** Messages waiting on all routes together. */
  function Backlog(routes: seq<Route>): nat {
    if routes == [] then 0 else |routes[0].pending| + Backlog(routes[1..])
  }

  lemma {:induction false} PopShrinksBacklog(routes: seq<Route>, k: nat)
    requires k < |routes| && routes[k].pending != []
    ensures Backlog(routes[k := Popped(routes[k])]) == Backlog(routes) - 1
    decreases |routes|
  {
    var popped := routes[k := Popped(routes[k])];
    if k == 0 {
      assert popped[1..] == routes[1..];
    } else {
      assert popped[1..] == routes[1..][k - 1 := Popped(routes[k])];
      PopShrinksBacklog(routes[1..], k - 1);
    }
  }

  /** The merge loop of `ProcessParticipant::step`. */
  function MergeVisible(routes: seq<Route>, owner: nat, now: u64): (r: (seq<Route>, seq<Input>))
    ensures |r.0| == |routes|
    decreases Backlog(routes)
  {
    match Best(routes, owner, now, |routes|)
    case None => (routes, [])
    case Some(k) =>
      PopShrinksBacklog(routes, k);
      var (routes', rest) := MergeVisible(routes[k := Popped(routes[k])], owner, now);
      (routes', [Input(k, routes[k].pending[0])] + rest)
  }

  // ----- What the merge promises ---------------------------------------------

  /** Length of the longest prefix whose messages are all released. */
  function VisiblePrefix(latency: Option<u64>, pending: seq<Msg>, now: u64): (n: nat)
    ensures n <= |pending|
    ensures forall i :: 0 <= i < n ==> Released(latency, pending[i], now)
    ensures n < |pending| ==> !Released(latency, pending[n], now)
  {
    if pending == [] || !Released(latency, pending[0], now) then 0
    else 1 + VisiblePrefix(latency, pending[1..], now)
  }

  /** The inputs one route contributed, in list order. */
  function FromRoute(inputs: seq<Input>, k: nat): seq<Msg> {
    if inputs == [] then []
    else (if inputs[0].route == k then [inputs[0].msg] else []) + FromRoute(inputs[1..], k)
  }

  ghost predicate Increasing(ms: seq<Msg>) {
    forall i, j :: 0 <= i < j < |ms| ==> ms[i].globalSeq < ms[j].globalSeq
  }

  ghost predicate Distinct(a: seq<Msg>, b: seq<Msg>) {
    forall i, j :: 0 <= i < |a| && 0 <= j < |b| ==> a[i].globalSeq != b[j].globalSeq
  }

  /** The owner's pending messages are in publish order, and no two routes share one. */
  ghost predicate InPublishOrder(routes: seq<Route>, owner: nat) {
    && (forall k :: 0 <= k < |routes| && routes[k].owner == owner ==> Increasing(routes[k].pending))
    && (forall j, k :: 0 <= j < k < |routes| && routes[j].owner == owner && routes[k].owner == owner ==>
          Distinct(routes[j].pending, routes[k].pending))
  }

  lemma PopKeepsOrder(routes: seq<Route>, owner: nat, k: nat)
    requires k < |routes| && routes[k].pending != [] && InPublishOrder(routes, owner)
    ensures InPublishOrder(routes[k := Popped(routes[k])], owner)
  {
  }

  /** How many messages a route gives up to a Step of `owner` at `now`. */
  function Share(r: Route, owner: nat, now: u64): (n: nat)
    ensures n <= |r.pending|
  {
    if r.owner == owner then VisiblePrefix(r.latency, r.pending, now) else 0
  }

  function Drained(r: Route, n: nat): Route
    requires n <= |r.pending|
  {
    r.(pending := r.pending[n..], taken := r.taken + r.pending[..n])
  }

  lemma PopThenDrain(r: Route, owner: nat, now: u64)
    requires r.owner == owner && VisibleAt(r, now)
    ensures Share(r, owner, now) == 1 + Share(Popped(r), owner, now)
    ensures Drained(Popped(r), Share(Popped(r), owner, now)) == Drained(r, Share(r, owner, now))
    ensures [r.pending[0]] + Popped(r).pending[..Share(Popped(r), owner, now)] == r.pending[..Share(r, owner, now)]
  {
    var n := Share(Popped(r), owner, now);
    assert r.taken + [r.pending[0]] + r.pending[1..][..n] == r.taken + r.pending[..n + 1];
    assert r.pending[1..][n..] == r.pending[n + 1..];
  }

  /** The whole effect: each of the owner's routes gives up exactly its longest
      released prefix, in order; every other route is untouched. */
  lemma {:induction false} MergeTakesReleasedPrefixes(routes: seq<Route>, owner: nat, now: u64, k: nat)
    requires k < |routes|
    ensures var n := Share(routes[k], owner, now);
      && FromRoute(MergeVisible(routes, owner, now).1, k) == routes[k].pending[..n]
      && MergeVisible(routes, owner, now).0[k] == Drained(routes[k], n)
    decreases Backlog(routes)
  {
    match Best(routes, owner, now, |routes|)
    case None =>
      assert !Candidate(routes, owner, now, k);
      assert routes[k].taken + [] == routes[k].taken;
    case Some(best) =>
      var popped := routes[best := Popped(routes[best])];
      PopShrinksBacklog(routes, best);
      MergeTakesReleasedPrefixes(popped, owner, now, k);
      var head, rest := Input(best, routes[best].pending[0]), MergeVisible(popped, owner, now).1;
      FromRouteCons(head, rest, k);
      if k == best {
        PopThenDrain(routes[k], owner, now);
      } else {
        assert [] + FromRoute(rest, k) == FromRoute(rest, k);
      }
  }

  lemma FromRouteCons(head: Input, rest: seq<Input>, k: nat)
    ensures FromRoute([head] + rest, k) == (if head.route == k then [head.msg] else []) + FromRoute(rest, k)
  {
    assert ([head] + rest)[1..] == rest;
  }

  /** Every input comes from the owner's routes. */
  lemma {:induction false} MergeInputsBelong(routes: seq<Route>, owner: nat, now: u64, i: nat)
    requires i < |MergeVisible(routes, owner, now).1|
    ensures var input := MergeVisible(routes, owner, now).1[i];
      && input.route < |routes|
      && routes[input.route].owner == owner
      && input.msg in routes[input.route].pending
    decreases Backlog(routes)
  {
    var best := Best(routes, owner, now, |routes|).value;
    if i == 0 {
    } else {
      var popped := routes[best := Popped(routes[best])];
      PopShrinksBacklog(routes, best);
      MergeInputsBelong(popped, owner, now, i - 1);
      assert MergeVisible(routes, owner, now).1[i] == MergeVisible(popped, owner, now).1[i - 1];
    }
  }

  /** The input list is strictly increasing in global publish order. */
  lemma {:induction false} MergeIsOrdered(routes: seq<Route>, owner: nat, now: u64)
    requires InPublishOrder(routes, owner)
    ensures var inputs := MergeVisible(routes, owner, now).1;
      forall i, j :: 0 <= i < j < |inputs| ==> inputs[i].msg.globalSeq < inputs[j].msg.globalSeq
    decreases Backlog(routes)
  {
    match Best(routes, owner, now, |routes|)
    case None =>
    case Some(best) =>
      var popped := routes[best := Popped(routes[best])];
      var front := routes[best].pending[0];
      PopShrinksBacklog(routes, best);
      PopKeepsOrder(routes, owner, best);
      MergeIsOrdered(popped, owner, now);
      var rest := MergeVisible(popped, owner, now).1;
      forall i | 0 <= i < |rest| ensures front.globalSeq < rest[i].msg.globalSeq {
        LaterThanBest(routes, owner, now, best, i);
      }
  }

  lemma LaterThanBest(routes: seq<Route>, owner: nat, now: u64, best: nat, i: nat)
    requires InPublishOrder(routes, owner)
    requires Best(routes, owner, now, |routes|) == Some(best)
    requires var popped := routes[best := Popped(routes[best])]; i < |MergeVisible(popped, owner, now).1|
    ensures var popped := routes[best := Popped(routes[best])];
      routes[best].pending[0].globalSeq < MergeVisible(popped, owner, now).1[i].msg.globalSeq
  {
    var popped := routes[best := Popped(routes[best])];
    var input := MergeVisible(popped, owner, now).1[i];
    var k := input.route;
    MergeInputsBelong(popped, owner, now, i);
    MergedInputIsReleased(popped, owner, now, i);
    if k != best {
      assert Candidate(routes, owner, now, k);
      var p := VisibleIndex(routes[k].pending, input.msg);
      assert routes[k].pending[0].globalSeq <= input.msg.globalSeq;
    }
  }

  function VisibleIndex(ms: seq<Msg>, m: Msg): (i: nat)
    requires m in ms
    ensures i < |ms| && ms[i] == m
  {
    if ms[0] == m then 0 else 1 + VisibleIndex(ms[1..], m)
  }

  /** A route that contributes an input has a visible front. */
  lemma {:induction false} MergedInputIsReleased(routes: seq<Route>, owner: nat, now: u64, i: nat)
    requires i < |MergeVisible(routes, owner, now).1|
    ensures var k := MergeVisible(routes, owner, now).1[i].route;
      k < |routes| && Candidate(routes, owner, now, k)
    decreases Backlog(routes)
  {
    var inputs := MergeVisible(routes, owner, now).1;
    var best := Best(routes, owner, now, |routes|).value;
    if i == 0 {
    } else {
      var popped := routes[best := Popped(routes[best])];
      PopShrinksBacklog(routes, best);
      MergedInputIsReleased(popped, owner, now, i - 1);
      assert inputs[i] == MergeVisible(popped, owner, now).1[i - 1];
    }
  }

  // ----- The precondition holds in every run -----------------------------------

  /** A recorded message stands at some position of its own channel. */
  lemma {:induction false} StreamMember(recording: seq<Record>, ch: nat, m: Msg)
    requires m in Stream(recording, ch)
    ensures exists i :: 0 <= i < |recording| && recording[i].channel == ch && recording[i].msg == m
    decreases |recording|
  {
    var i := |recording| - 1;
    if m in Stream(recording[..i], ch) {
      StreamMember(recording[..i], ch, m);
      var j :| 0 <= j < i && recording[..i][j].channel == ch && recording[..i][j].msg == m;
      assert recording[j].msg == m;
    } else {
      assert recording[i].msg == m;
    }
  }

  ghost predicate RecordsIncrease(recording: seq<Record>) {
    forall i, j :: 0 <= i < j < |recording| ==> recording[i].msg.globalSeq < recording[j].msg.globalSeq
  }

  lemma {:induction false} StreamIncreases(recording: seq<Record>, ch: nat)
    requires RecordsIncrease(recording)
    ensures Increasing(Stream(recording, ch))
    decreases |recording|
  {
    if recording == [] {
    } else {
      var i := |recording| - 1;
      StreamIncreases(recording[..i], ch);
      forall m | m in Stream(recording[..i], ch) ensures m.globalSeq < recording[i].msg.globalSeq {
        StreamMember(recording[..i], ch, m);
      }
    }
  }

  lemma {:induction false} SubsequenceIncreases(a: seq<Msg>, b: seq<Msg>)
    requires Subsequence(a, b) && Increasing(b)
    ensures Increasing(a)
    decreases |b|
  {
    if a == [] {
    } else {
      var a', b' := a[..|a| - 1], b[..|b| - 1];
      if a[|a| - 1] == b[|b| - 1] && Subsequence(a', b') {
        SubsequenceIncreases(a', b');
        SubsequenceMembers(a', b');
        forall i | 0 <= i < |a'| ensures a[i].globalSeq < a[|a| - 1].globalSeq {
          assert a'[i] in b';
        }
        assert forall i, j :: 0 <= i < j < |a'| ==> a'[i].globalSeq < a'[j].globalSeq;
      } else {
        SubsequenceIncreases(a, b');
      }
    }
  }

  lemma PendingIncreases(b: Bus, k: nat)
    requires RoutesAgree(b) && RecordsIncrease(b.recording) && k < |b.routes|
    ensures Increasing(b.routes[k].pending)
  {
    var r := b.routes[k];
    StreamIncreases(b.recording, r.channel);
    assert RouteAgrees(r, Stream(b.recording, r.channel));
    hide Stream, Subsequence, RecordsIncrease;
    SubsequenceIncreases(r.taken + r.pending, Stream(b.recording, r.channel));
    assert forall i :: 0 <= i < |r.pending| ==> r.pending[i] == (r.taken + r.pending)[|r.taken| + i];
  }

  lemma PendingDiffers(b: Bus, j: nat, k: nat)
    requires RoutesAgree(b) && RecordsIncrease(b.recording) && j < |b.routes| && k < |b.routes|
    requires b.routes[j].channel != b.routes[k].channel
    ensures Distinct(b.routes[j].pending, b.routes[k].pending)
  {
    hide RoutesAgree;
    forall x, y | 0 <= x < |b.routes[j].pending| && 0 <= y < |b.routes[k].pending|
      ensures b.routes[j].pending[x].globalSeq != b.routes[k].pending[y].globalSeq
    {
      PendingIsRecorded(b, j, b.routes[j].pending[x]);
      PendingIsRecorded(b, k, b.routes[k].pending[y]);
    }
  }

  /** In agreement, and before global_seq wraps, a participant whose routes carry
      different channels has its pending messages in publish order. */
  lemma AgreementOrdersRoutes(b: Bus, owner: nat)
    requires Agreement(b) && b.published <= TWO64
    requires forall j, k :: 0 <= j < k < |b.routes| && b.routes[j].owner == owner && b.routes[k].owner == owner ==>
      b.routes[j].channel != b.routes[k].channel
    ensures InPublishOrder(b.routes, owner)
  {
    assert RecordsIncrease(b.recording);
    hide RoutesAgree, RecordsIncrease, Increasing, Distinct, ChannelsNumbered, PublishOrder;
    forall k | 0 <= k < |b.routes| ensures Increasing(b.routes[k].pending) {
      PendingIncreases(b, k);
    }
    forall j, k | 0 <= j < k < |b.routes| && b.routes[j].owner == owner && b.routes[k].owner == owner
      ensures Distinct(b.routes[j].pending, b.routes[k].pending)
    {
      PendingDiffers(b, j, k);
    }
  }

  lemma PendingIsRecorded(b: Bus, k: nat, m: Msg)
    requires RoutesAgree(b) && k < |b.routes| && m in b.routes[k].pending
    ensures exists i :: 0 <= i < |b.recording| && b.recording[i].channel == b.routes[k].channel
                        && b.recording[i].msg == m
  {
    var r := b.routes[k];
    assert m in r.taken + r.pending;
    SubsequenceMembers(r.taken + r.pending, Stream(b.recording, r.channel));
    StreamMember(b.recording, r.channel, m);
  }
}
