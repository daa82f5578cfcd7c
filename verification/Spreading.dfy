/** What a node tells its neighbours, step by step: what goes on which connection, and
    when nothing is said. */
module Spreading {
  import opened Routes
  import opened RouteTables
  import opened RouterSpec
  import opened Network
  import opened NetworkInvariant

  /** What waits on `y` once the head of `x` has been taken. */
  function Waiting(s: State, x: ConnId, y: ConnId): seq<Message>
    requires QueueOf(s.queues, x) != []
  {
    if y == x then QueueOf(s.queues, x)[1..] else QueueOf(s.queues, y)
  }

  /** After a delivery on `x`, all connections of the receiver but the one it came on have
      `m` to send in addition, and no other queue has grown. */
  ghost predicate Tells(w: Wiring, s: State, x: ConnId, s': State, m: Message)
    requires QueueOf(s.queues, x) != []
  {
    forall y :: QueueOf(s'.queues, y) ==
      Waiting(s, x, y) + if y in ConnsOf(w, s, w.Peer(x)) && y != w.mirror(x) then [m] else []
  }

  ghost predicate SaysNothing(s: State, x: ConnId, s': State)
    requires QueueOf(s.queues, x) != []
  {
    forall y :: QueueOf(s'.queues, y) == Waiting(s, x, y)
  }

  lemma CommitTells(w: Wiring, s: State, x: ConnId, n: Node, m: Message)
    requires QueueOf(s.queues, x) != []
    ensures
      var s0 := s.(queues := s.queues[x := QueueOf(s.queues, x)[1..]]);
      Tells(w, s, x, Commit(s0, n, ToAll(ConnsOf(w, s, w.Peer(x)) - {w.mirror(x)}, m)), m)
  {
    var s0 := s.(queues := s.queues[x := QueueOf(s.queues, x)[1..]]);
    var out := ToAll(ConnsOf(w, s, w.Peer(x)) - {w.mirror(x)}, m);
    forall y ensures QueueOf(Push(s0.queues, out), y) == Waiting(s, x, y) + if y in out then [m] else [] {
      PushedQueue(s0.queues, out, y);
    }
  }

  lemma CommitSaysNothing(s: State, x: ConnId, n: Node)
    requires QueueOf(s.queues, x) != []
    ensures SaysNothing(s, x, Commit(s.(queues := s.queues[x := QueueOf(s.queues, x)[1..]]), n, map[]))
  {
    var q := s.queues[x := QueueOf(s.queues, x)[1..]];
    forall y ensures QueueOf(Push(q, map[]), y) == Waiting(s, x, y) { PushedQueue(q, map[], y); }
  }

  // ---- A connection comes up ----

  /** A new connection gets one message, that names the node at cost 0 and exactly the
      routes it holds; no table changes, and nobody else is told anything. */
  lemma OpenTells(w: Wiring, s: State, c: ConnId, known: seq<Route>)
    requires Enabled(w, s, Open(c, known))
    ensures
      var s', u := Apply(w, s, Open(c, known)), w.owner(c);
      && (forall n :: TableOf(s', n) == TableOf(s, n))
      && (forall y :: y != c ==> QueueOf(s'.queues, y) == QueueOf(s.queues, y))
      && exists m :: QueueOf(s'.queues, c) == QueueOf(s.queues, c) + [m] && m.Advert? && m.sender == u
           && forall r :: r in m.routes <==> r == Route(u, 0, []) || r in TableOf(s, u)
  {
    var (n, out) := OnOpen(NodeAt(w, s, w.owner(c)), c, known);
    forall y ensures QueueOf(Push(s.queues, out), y) == QueueOf(s.queues, y) + if y == c then [out[c]] else [] {
      PushedQueue(s.queues, out, y);
    }
    assert forall r :: r in known <==> r in Members(known);
  }

  // ---- An advertisement is delivered ----

  /** A delivered advertisement is passed on, extended, as far as it brings news: one
      message to every other connection with exactly the new routes that were among the
      three best when they were heard.  If there are none, no queue grows. */
  lemma NewsSpreads(w: Wiring, s: State, x: ConnId) returns (news: seq<Route>)
    requires Structure(w, s) && Enabled(w, s, Deliver(x)) && QueueOf(s.queues, x)[0].Advert? && w.owner(x) != w.Peer(x)
    ensures
      var s', v, heard := Apply(w, s, Deliver(x)), w.Peer(x), QueueOf(s.queues, x)[0].routes;
      && (forall r :: r in news <==> IsNews(v, TableOf(s, v), w.owner(x), heard, r))
      && (forall i, j :: 0 <= i < j < |news| ==> news[i] != news[j])
      && (forall r :: r in TableOf(s', v) && r !in TableOf(s, v) ==> r in news)
      && if news == [] then SaysNothing(s, x, s') else Tells(w, s, x, s', Advert(v, news))
  {
    var m, v := QueueOf(s.queues, x)[0], w.Peer(x);
    var s0 := s.(queues := s.queues[x := QueueOf(s.queues, x)[1..]]);
    assert MessageOK(w, s, w.owner(x), m);
    TableKeepsOK(w, s, s, v);
    LearnedNews(v, TableOf(s, v), m.sender, w.mirror(x), m.routes);
    LearnOrigins(v, TableOf(s, v), m.sender, w.mirror(x), m.routes);
    news := Learn(v, TableOf(s, v), m.sender, w.mirror(x), m.routes).1;
    var n := OnAdvert(NodeAt(w, s0, v), m.sender, m.routes, w.mirror(x)).0;
    if news == [] { CommitSaysNothing(s, x, n); } else { CommitTells(w, s, x, n, Advert(v, news)); }
  }

  // ---- A revocation is delivered ----

  /** Entry `q` of a revocation withdraws `r` at node `v`. */
  predicate Withdraws(v: NodeId, sender: NodeId, q: Route, r: Route) {
    q.dest != v && v !in q.path && r == Route(q.dest, q.cost + 1, [sender] + q.path)
  }

  /** If the delivery of a revocation erases an entry, every other connection of the
      receiver gets one message: a revocation that names exactly the extensions of the
      revoked routes, so all that was erased.  If nothing is erased, no queue grows. */
  lemma RevocationSpreads(w: Wiring, s: State, x: ConnId) returns (images: seq<Route>)
    requires Structure(w, s) && Enabled(w, s, Deliver(x)) && QueueOf(s.queues, x)[0].Revoke? && w.owner(x) != w.Peer(x)
    ensures
      var s', v, revoked := Apply(w, s, Deliver(x)), w.Peer(x), QueueOf(s.queues, x)[0].routes;
      && (forall r :: r in images <==> exists q :: q in revoked && Withdraws(v, w.owner(x), q, r))
      && (forall r :: r in TableOf(s', v) <==> r in TableOf(s, v) && r !in images)
      && if forall r :: r in TableOf(s, v) ==> r in TableOf(s', v) then SaysNothing(s, x, s')
         else Tells(w, s, x, s', Revoke(v, images))
  {
    var m, v := QueueOf(s.queues, x)[0], w.Peer(x);
    var s0 := s.(queues := s.queues[x := QueueOf(s.queues, x)[1..]]);
    assert MessageOK(w, s, w.owner(x), m);
    images := Images(v, w.owner(x), m.routes);
    forall r ensures r in images <==> exists q :: q in m.routes && Withdraws(v, w.owner(x), q, r) {
      if q :| q in m.routes && Acceptable(v, q) && r == Extend(w.owner(x), q) { assert Withdraws(v, w.owner(x), q, r); }
      if q :| q in m.routes && Withdraws(v, w.owner(x), q, r) { assert Acceptable(v, q) && r == Extend(w.owner(x), q); }
    }
    var n := OnRevoke(NodeAt(w, s0, v), m.sender, m.routes, w.mirror(x)).0;
    if Members(images) !! TableOf(s, v).Keys {
      CommitSaysNothing(s, x, n);
    } else {
      var r :| r in Members(images) && r in TableOf(s, v);
      CommitTells(w, s, x, n, Revoke(v, images));
    }
  }

  /** A node takes no notice of control messages it sent itself. */
  lemma OwnMessagesAreIgnored(w: Wiring, s: State, x: ConnId)
    requires Structure(w, s) && Enabled(w, s, Deliver(x)) && !QueueOf(s.queues, x)[0].Data? && w.owner(x) == w.Peer(x)
    ensures forall n :: TableOf(Apply(w, s, Deliver(x)), n) == TableOf(s, n)
    ensures SaysNothing(s, x, Apply(w, s, Deliver(x)))
  {
    var m := QueueOf(s.queues, x)[0];
    assert MessageOK(w, s, w.owner(x), m);
    CommitSaysNothing(s, x, NodeAt(w, s, w.Peer(x)));
  }
}
