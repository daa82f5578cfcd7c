/** What a lost link takes with it, at the node that loses it and at the neighbours it
    tells, in any run. */
module LinkLoss {
  import opened Routes
  import opened RouteTables
  import opened RouterSpec
  import opened Network
  import opened NetworkInvariant

  /** A route beyond its first hop. */
  function Tail(r: Route): Route
    requires r.cost > 0 && r.path != []
  {
    Route(r.dest, r.cost - 1, r.path[1..])
  }

  /** Closing a connection erases what was learned on it, tells every other connection
      of the node, and changes nothing else. */
  lemma CloseTells(w: Wiring, s: State, c: ConnId, dead: seq<Route>)
    requires Structure(w, s) && Enabled(w, s, Close(c, dead))
    ensures
      var s', u := Apply(w, s, Close(c, dead)), w.owner(c);
      && TableOf(s', u) == TableOf(s, u) - LearnedOn(TableOf(s, u), c)
      && (forall n :: n != u ==> TableOf(s', n) == TableOf(s, n))
      && (forall x :: QueueOf(s'.queues, x) ==
            QueueOf(s.queues, x) + if x in ConnsOf(w, s, u) - {c} && dead != [] then [Revoke(u, dead)] else [])
  {
    var (n, out) := OnClose(NodeAt(w, s, w.owner(c)), c, dead);
    forall x ensures QueueOf(Push(s.queues, out), x) == QueueOf(s.queues, x) + if x in out then [out[x]] else [] {
      PushedQueue(s.queues, out, x);
    }
  }

  /** Of the routes a node may hold, the images of `dead` are those that lead over the sender along one of them. */
  lemma ImagesByTail(w: Wiring, s: State, v: NodeId, u: NodeId, dead: seq<Route>, r: Route)
    requires RouteOK(w, s, v, r) && forall q :: q in dead ==> q.path != []
    ensures r in Images(v, u, dead) <==> r.path[0] == u && Tail(r) in dead
  {
    if r.path[0] == u && Tail(r) in dead {
      assert r.path == [u] + r.path[1..];
      assert Acceptable(v, Tail(r)) && r == Extend(u, Tail(r));
    }
  }

  /** The step at which the revocation is processed, given when the connection was closed:
      the peer loses exactly the entries that lead over the closer along a route it had
      learned on that connection; the others stay as they are. */
  lemma RevocationTakes(w: Wiring, ss: seq<State>, steps: seq<Step>, i: nat, j: nat, c: ConnId,
                        dead: seq<Route>, x: ConnId)
    requires w.Valid() && IsRun(w, ss, steps) && i < j < |steps|
    requires steps[i] == Close(c, dead) && steps[j] == Deliver(x)
    requires w.owner(x) == w.owner(c) != w.Peer(x) && QueueOf(ss[j].queues, x)[0] == Revoke(w.owner(c), dead)
    ensures
      var t, t' := TableOf(ss[j], w.Peer(x)), TableOf(ss[j + 1], w.Peer(x));
      && (forall r :: r in t' ==> r in t && t'[r] == t[r])
      && (forall r :: r in t ==> RouteOK(w, ss[j], w.Peer(x), r))
      && (forall r :: r in t ==>
            (r !in t' <==> r.path[0] == w.owner(c) && Tail(r) in LearnedOn(TableOf(ss[i], w.owner(c)), c)))
  {
    var u, v := w.owner(c), w.Peer(x);
    var t := TableOf(ss[j], v);
    RunsAreStructured(w, ss, steps, i);
    RunsAreStructured(w, ss, steps, j);
    TableKeepsOK(w, ss[i], ss[i], u);
    TableKeepsOK(w, ss[j], ss[j], v);
    assert forall q :: q in dead <==> q in Members(dead);
    RevokeTakesImages(w, ss[j], x, dead);
    forall r | r in t ensures r in Images(v, u, dead) <==> r.path[0] == u && Tail(r) in dead {
      ImagesByTail(w, ss[j], v, u, dead, r);
    }
  }

  lemma RevokeTakesImages(w: Wiring, s: State, x: ConnId, dead: seq<Route>)
    requires Enabled(w, s, Deliver(x)) && QueueOf(s.queues, x)[0] == Revoke(w.owner(x), dead) && w.owner(x) != w.Peer(x)
    ensures
      var v := w.Peer(x);
      TableOf(Apply(w, s, Deliver(x)), v) == TableOf(s, v) - Members(Images(v, w.owner(x), dead))
  {
  }

  /** Which entries outlive the link they lead over: if it was the closer's only one to
      that node, exactly those whose rest the closer itself no longer held. */
  lemma StaleExactlyIfBumped(w: Wiring, ss: seq<State>, steps: seq<Step>, i: nat, j: nat, c: ConnId,
                             dead: seq<Route>, x: ConnId, r: Route)
    requires w.Valid() && IsRun(w, ss, steps) && i < j < |steps|
    requires steps[i] == Close(c, dead) && steps[j] == Deliver(x)
    requires w.owner(x) == w.owner(c) != w.Peer(x) && QueueOf(ss[j].queues, x)[0] == Revoke(w.owner(c), dead)
    requires forall y :: y in ss[i].conns && w.owner(y) == w.owner(c) && w.Peer(y) == w.Peer(c) ==> y == c
    requires r in TableOf(ss[j], w.Peer(x)) && r.cost > 1 && |r.path| > 1
    requires r.path[0] == w.owner(c) && r.path[1] == w.Peer(c)
    ensures r in TableOf(ss[j + 1], w.Peer(x)) <==> Tail(r) !in TableOf(ss[i], w.owner(c))
  {
    RevocationTakes(w, ss, steps, i, j, c, dead, x);
    RunsAreStructured(w, ss, steps, i);
    TableKeepsOK(w, ss[i], ss[i], w.owner(c));
    assert Tail(r).path[0] == w.Peer(c);
  }
}
