/** What holds in addition as long as links only come up: every route is backed by
    shorter ones along its path, every improvement is either at the neighbour or on
    its way there, and data messages get closer with every hop. */
module GrowthInvariant {
  import opened Routes
  import opened RouteTables
  import opened RouterSpec
  import opened Network
  import opened NetworkInvariant

  /** Node `n` is `d`, or knows it, at cost at most `k`. */
  ghost predicate Within(s: State, n: NodeId, d: NodeId, k: int) {
    (n == d && 0 <= k) || Has(TableOf(s, n), d, k)
  }

  /** The node at index `i` knows the destination at least as well as the rest of the path. */
  ghost predicate BackedAt(s: State, r: Route, i: nat)
    requires i < |r.path|
  {
    Within(s, r.path[i], r.dest, |r.path| - 1 - i)
  }

  ghost predicate Backed(s: State, r: Route) {
    forall i {:trigger BackedAt(s, r, i)} :: 0 <= i < |r.path| ==> BackedAt(s, r, i)
  }

  ghost predicate MessageBacked(s: State, n: NodeId, peer: NodeId, m: Message) {
    match m
    case Advert(_, routes) => forall r :: r in routes ==> Backed(s, r) && Within(s, n, r.dest, r.cost)
    case Revoke(_, _) => false
    case Data(d, _, hops, bound) => hops <= bound && Within(s, peer, d, bound - hops)
  }

  /** An advertisement on its way carries a route to `d` of cost at most `k`. */
  ghost predicate Carries(q: seq<Message>, d: NodeId, k: int) {
    exists m, r :: m in q && m.Advert? && r in m.routes && r.dest == d && r.cost <= k
  }

  /** The peer already profits from what the owner of `c` knows, or is about to be told. */
  ghost predicate Informed(w: Wiring, s: State, c: ConnId, d: NodeId, k: int) {
    Within(s, w.Peer(c), d, k + 1) || Carries(QueueOf(s.queues, c), d, k)
  }

  ghost predicate RoutesBacked(s: State) {
    forall n, r :: n in s.tables && r in s.tables[n] ==> Backed(s, r)
  }

  ghost predicate MessagesBacked(w: Wiring, s: State) {
    forall c, m :: c in s.queues && m in s.queues[c] ==> MessageBacked(s, w.owner(c), w.Peer(c), m)
  }

  ghost predicate AllInformed(w: Wiring, s: State) {
    forall c, d, k {:trigger Informed(w, s, c, d, k)} ::
      c in s.conns && Within(s, w.owner(c), d, k) ==> Informed(w, s, c, d, k)
  }

  ghost predicate Growing(w: Wiring, s: State) {
    && Structure(w, s)
    && s.ever == s.conns
    && RoutesBacked(s)
    && MessagesBacked(w, s)
    && AllInformed(w, s)
    && s.dropped == []
    && (forall a :: a in s.arrived ==> a.message.Data? && a.message.dest == a.node && a.message.hops <= a.message.bound)
  }

  // ---- Costs never rise ----

  ghost predicate NoWorse(s: State, s': State) {
    forall n, d, k :: Within(s, n, d, k) ==> Within(s', n, d, k)
  }

  lemma BackedLater(s: State, s': State, r: Route)
    requires Backed(s, r) && NoWorse(s, s')
    ensures Backed(s', r)
  {
    forall i | 0 <= i < |r.path| ensures BackedAt(s', r, i) { assert BackedAt(s, r, i); }
  }

  lemma MessageBackedLater(s: State, s': State, n: NodeId, peer: NodeId, m: Message)
    requires MessageBacked(s, n, peer, m) && NoWorse(s, s')
    ensures MessageBacked(s', n, peer, m)
  {
    if m.Advert? {
      forall r | r in m.routes ensures Backed(s', r) { BackedLater(s, s', r); }
    }
  }

  /** What a commit has to show for the invariant to survive it. */
  lemma CommitKeepsBacking(w: Wiring, s: State, s': State, n: Node, out: Outbox)
    requires RoutesBacked(s) && MessagesBacked(w, s) && NoWorse(s, s')
    requires s'.tables == s.tables[n.id := n.table] && s'.queues == Push(s.queues, out)
    requires forall r :: r in n.table ==> Backed(s', r)
    requires forall c :: c in out ==> MessageBacked(s', w.owner(c), w.Peer(c), out[c])
    ensures RoutesBacked(s') && MessagesBacked(w, s')
  {
    forall m, r | m in s'.tables && r in s'.tables[m] ensures Backed(s', r) {
      if m != n.id { BackedLater(s, s', r); }
    }
    forall c, m | c in s'.queues && m in s'.queues[c] ensures MessageBacked(s', w.owner(c), w.Peer(c), m) {
      PushedQueue(s.queues, out, c);
      if m in QueueOf(s.queues, c) { MessageBackedLater(s, s', w.owner(c), w.Peer(c), m); }
    }
  }

  lemma CarriesMore(q: seq<Message>, q': seq<Message>, d: NodeId, k: int)
    requires Carries(q, d, k) && forall m :: m in q ==> m in q'
    ensures Carries(q', d, k)
  {
    var m, r :| m in q && m.Advert? && r in m.routes && r.dest == d && r.cost <= k;
    assert m in q';
  }

  // ---- Opening a connection ----

  lemma SameTablesNoWorse(s: State, s': State)
    requires forall n :: TableOf(s', n) == TableOf(s, n)
    ensures NoWorse(s, s') && NoWorse(s', s)
  {
  }

  /** The connect advertisement tells the new peer everything the node knows. */
  lemma ConnectAdvertInforms(w: Wiring, s: State, c: ConnId, n: Node, known: seq<Route>, d: NodeId, k: int)
    requires n.table == TableOf(s, n.id) && Lists(known, n.table.Keys)
    requires Advert(n.id, [SelfRoute(n.id)] + known) in QueueOf(s.queues, c)
    requires Within(s, n.id, d, k)
    ensures Carries(QueueOf(s.queues, c), d, k)
  {
    var a := Advert(n.id, [SelfRoute(n.id)] + known);
    if n.id == d && 0 <= k {
      assert SelfRoute(d) in a.routes;
    } else {
      var r :| r in n.table && r.dest == d && r.cost <= k;
      assert r in Members(known);
      assert r in a.routes;
    }
  }

  lemma OpenInforms(w: Wiring, s: State, c: ConnId, known: seq<Route>, x: ConnId, d: NodeId, k: int)
    requires Growing(w, s) && Enabled(w, s, Open(c, known))
    requires
      var s' := Apply(w, s, Open(c, known));
      NoWorse(s, s') && NoWorse(s', s) && x in s'.conns && Within(s', w.owner(x), d, k)
    ensures Informed(w, Apply(w, s, Open(c, known)), x, d, k)
  {
    var s' := Apply(w, s, Open(c, known));
    var (n, out) := OnOpen(NodeAt(w, s, w.owner(c)), c, known);
    PushedQueue(s.queues, out, x);
    if x == c {
      assert out[c] in QueueOf(s'.queues, c);
      ConnectAdvertInforms(w, s', c, n, known, d, k);
    } else {
      assert Informed(w, s, x, d, k);
      if Carries(QueueOf(s.queues, x), d, k) { CarriesMore(QueueOf(s.queues, x), QueueOf(s'.queues, x), d, k); }
    }
  }

  /** What a node tells a new peer is backed, as what it knows is. */
  lemma KnownIsBacked(s: State, s': State, n: NodeId, known: seq<Route>)
    requires RoutesBacked(s) && NoWorse(s, s') && Lists(known, TableOf(s, n).Keys)
    ensures forall r :: r in TableOf(s, n) ==> Backed(s', r)
    ensures forall r :: r in known ==> Backed(s', r) && Within(s', n, r.dest, r.cost)
    ensures Backed(s', SelfRoute(n)) && Within(s', n, n, 0)
  {
    forall r | r in TableOf(s, n) ensures Backed(s', r) && Within(s', n, r.dest, r.cost) {
      assert r in s.tables[n];
      BackedLater(s, s', r);
      assert Within(s, n, r.dest, r.cost);
    }
    assert forall r :: r in known ==> r in Members(known);
  }

  lemma OpenKeepsGrowing(w: Wiring, s: State, c: ConnId, known: seq<Route>)
    requires w.Valid() && Growing(w, s) && Enabled(w, s, Open(c, known))
    ensures Growing(w, Apply(w, s, Open(c, known)))
  {
    var s' := Apply(w, s, Open(c, known));
    var (n, out) := OnOpen(NodeAt(w, s, w.owner(c)), c, known);
    OpenKeepsStructure(w, s, c, known);
    SameTablesNoWorse(s, s');
    KnownIsBacked(s, s', n.id, known);
    CommitKeepsBacking(w, s, s', n, out);
    forall x, d, k | x in s'.conns && Within(s', w.owner(x), d, k) ensures Informed(w, s', x, d, k) {
      OpenInforms(w, s, c, known, x, d, k);
    }
  }

  // ---- Delivering an advertisement ----

  lemma WithinMore(s: State, n: NodeId, d: NodeId, k: int, l: int)
    requires Within(s, n, d, k) && k <= l
    ensures Within(s, n, d, l)
  {
  }

  /** A route heard from the neighbour is backed, and so is its extension. */
  lemma ExtensionBacked(s: State, s': State, sender: NodeId, q: Route)
    requires Backed(s, q) && Within(s, sender, q.dest, q.cost) && q.cost == |q.path| && NoWorse(s, s')
    ensures Backed(s', Extend(sender, q))
  {
    var r := Extend(sender, q);
    forall i | 0 <= i < |r.path| ensures BackedAt(s', r, i) {
      if i > 0 { assert BackedAt(s, q, i - 1); }
    }
  }

  /** Once an advertised route has been processed, the receiver knows its
      destination at one more than its cost, however it disposed of the route. */
  lemma ProcessedRouteInforms(s: State, s': State, n: Node, sender: NodeId, c: ConnId, routes: seq<Route>, q: Route)
    requires NoWorse(s, s') && TableOf(s', n.id) == Learn(n.id, n.table, sender, c, routes).0
    requires q in routes && Backed(s, q) && q.cost == |q.path|
    ensures Within(s', n.id, q.dest, q.cost + 1)
  {
    if q.dest == n.id {
    } else if n.id in q.path {
      var i :| 0 <= i < |q.path| && q.path[i] == n.id;
      assert BackedAt(s, q, i);
      WithinMore(s, n.id, q.dest, |q.path| - 1 - i, q.cost + 1);
    } else {
      LearnCosts(n.id, n.table, sender, c, routes, q.dest, q.cost + 1);
    }
  }

  lemma LearnNoWorse(s: State, s': State, n: Node, sender: NodeId, c: ConnId, routes: seq<Route>)
    requires n.table == TableOf(s, n.id)
    requires s'.tables == s.tables[n.id := Learn(n.id, n.table, sender, c, routes).0]
    ensures NoWorse(s, s')
  {
    forall m, d, k | Within(s, m, d, k) ensures Within(s', m, d, k) {
      if m == n.id { LearnCosts(n.id, n.table, sender, c, routes, d, k); }
    }
  }

  /** The part of delivering an advertisement that concerns the queue it came from and old knowledge. */
  lemma OldKnowledgeInformed(w: Wiring, s: State, s': State, c: ConnId, x: ConnId, d: NodeId, k: int)
    requires NoWorse(s, s') && Informed(w, s, x, d, k) && QueueOf(s.queues, c) != []
    requires forall m :: m in (if x == c then QueueOf(s.queues, c)[1..] else QueueOf(s.queues, x)) ==>
      m in QueueOf(s'.queues, x)
    requires x == c ==>
      var m := QueueOf(s.queues, c)[0];
      m.Advert? ==> forall q :: q in m.routes ==> Within(s', w.Peer(c), q.dest, q.cost + 1)
    ensures Informed(w, s', x, d, k)
  {
    if !Within(s, w.Peer(x), d, k + 1) {
      var m, q :| m in QueueOf(s.queues, x) && m.Advert? && q in m.routes && q.dest == d && q.cost <= k;
      if x == c && m !in QueueOf(s.queues, c)[1..] {
        assert m == QueueOf(s.queues, c)[0];
        WithinMore(s', w.Peer(c), d, q.cost + 1, k + 1);
      } else {
        assert m in QueueOf(s'.queues, x);
      }
    }
  }

  /** New knowledge of the receiver is passed on, except to the neighbour it came from, who knows better. */
  lemma NewKnowledgeInformed(w: Wiring, s: State, s': State, c: ConnId, routes: seq<Route>, x: ConnId,
                             d: NodeId, k: int)
    requires w.Valid() && NoWorse(s, s') && w.owner(x) == w.Peer(c)
    requires
      var n := w.Peer(c);
      var (t, news) := Learn(n, TableOf(s, n), w.owner(c), w.mirror(c), routes);
      && Trimmed(TableOf(s, n)) && TableOf(s', n) == t
      && Within(s', n, d, k) && !Within(s, n, d, k)
      && (x != w.mirror(c) && news != [] ==> Advert(n, news) in QueueOf(s'.queues, x))
    requires forall q :: q in routes ==> Within(s, w.owner(c), q.dest, q.cost)
    ensures Informed(w, s', x, d, k)
  {
    var n, sender, at := w.Peer(c), w.owner(c), w.mirror(c);
    var (t, news) := Learn(n, TableOf(s, n), sender, at, routes);
    LearnCosts(n, TableOf(s, n), sender, at, routes, d, k);
    LearnOrigins(n, TableOf(s, n), sender, at, routes);
    var r :| r in news && r.dest == d && r.cost <= k;
    if x == at {
      var q :| q in routes && Acceptable(n, q) && r == Extend(sender, q);
      assert w.Peer(x) == sender;
      WithinMore(s, sender, d, q.cost, k + 1);
    } else {
      assert Advert(n, news) in QueueOf(s'.queues, x);
    }
  }

  lemma AdvertRoutesSound(w: Wiring, s: State, c: ConnId, m: Message)
    requires Growing(w, s) && m in QueueOf(s.queues, c) && m.Advert?
    ensures m.sender == w.owner(c)
    ensures forall q :: q in m.routes ==> Backed(s, q) && Within(s, w.owner(c), q.dest, q.cost) && q.cost == |q.path|
  {
    assert MessageOK(w, s, w.owner(c), m);
    assert MessageBacked(s, w.owner(c), w.Peer(c), m);
    forall q | q in m.routes ensures q.cost == |q.path| { assert SentOK(w, s, w.owner(c), q); }
  }

  /** The receiver knows all that was advertised, one link further. */
  lemma AdvertIsHeard(w: Wiring, s: State, s': State, c: ConnId)
    requires Growing(w, s) && Enabled(w, s, Deliver(c)) && s' == Apply(w, s, Deliver(c)) && NoWorse(s, s')
    requires QueueOf(s.queues, c)[0].Advert? && w.owner(c) != w.Peer(c)
    ensures forall q :: q in QueueOf(s.queues, c)[0].routes ==> Within(s', w.Peer(c), q.dest, q.cost + 1)
  {
    var m, n := QueueOf(s.queues, c)[0], NodeAt(w, s, w.Peer(c));
    AdvertRoutesSound(w, s, c, m);
    forall q | q in m.routes ensures Within(s', n.id, q.dest, q.cost + 1) {
      ProcessedRouteInforms(s, s', n, m.sender, w.mirror(c), m.routes, q);
    }
  }

  /** After delivery of an advertisement every neighbour is informed again. */
  lemma AdvertInforms(w: Wiring, s: State, s': State, c: ConnId, x: ConnId, d: NodeId, k: int)
    requires w.Valid() && Growing(w, s) && Enabled(w, s, Deliver(c)) && s' == Apply(w, s, Deliver(c)) && NoWorse(s, s')
    requires QueueOf(s.queues, c)[0].Advert? && w.owner(c) != w.Peer(c)
    requires x in s.conns && Within(s', w.owner(x), d, k)
    ensures Informed(w, s', x, d, k)
  {
    var q, n := QueueOf(s.queues, c), NodeAt(w, s, w.Peer(c));
    var m, s0 := q[0], s.(queues := s.queues[c := q[1..]]);
    AdvertRoutesSound(w, s, c, m);
    PushedQueue(s0.queues, OnAdvert(n, m.sender, m.routes, w.mirror(c)).1, x);
    if Within(s, w.owner(x), d, k) {
      assert Informed(w, s, x, d, k);
      AdvertIsHeard(w, s, s', c);
      OldKnowledgeInformed(w, s, s', c, x, d, k);
    } else {
      TableKeepsOK(w, s, s, n.id);
      NewKnowledgeInformed(w, s, s', c, m.routes, x, d, k);
    }
  }

  lemma QueueTailBacked(w: Wiring, s: State, c: ConnId)
    requires RoutesBacked(s) && MessagesBacked(w, s) && QueueOf(s.queues, c) != []
    ensures
      var s0 := s.(queues := s.queues[c := QueueOf(s.queues, c)[1..]]);
      RoutesBacked(s0) && MessagesBacked(w, s0) && NoWorse(s, s0) && NoWorse(s0, s)
  {
    var s0 := s.(queues := s.queues[c := QueueOf(s.queues, c)[1..]]);
    SameTablesNoWorse(s, s0);
    forall n, r | n in s0.tables && r in s0.tables[n] ensures Backed(s0, r) { BackedLater(s, s0, r); }
    forall x, m | x in s0.queues && m in s0.queues[x] ensures MessageBacked(s0, w.owner(x), w.Peer(x), m) {
      assert m in s.queues[x];
      MessageBackedLater(s, s0, w.owner(x), w.Peer(x), m);
    }
  }

  lemma NewsBacked(w: Wiring, s: State, s': State, c: ConnId, m: Message)
    requires Growing(w, s) && m in QueueOf(s.queues, c) && m.Advert? && NoWorse(s, s')
    requires TableOf(s', w.Peer(c)) == Learn(w.Peer(c), TableOf(s, w.Peer(c)), m.sender, w.mirror(c), m.routes).0
    ensures
      var n := w.Peer(c);
      var (t, news) := Learn(n, TableOf(s, n), m.sender, w.mirror(c), m.routes);
      && (forall r :: r in t ==> Backed(s', r))
      && (forall r :: r in news ==> Backed(s', r) && Within(s', n, r.dest, r.cost))
  {
    var n := w.Peer(c);
    var (t, news) := Learn(n, TableOf(s, n), m.sender, w.mirror(c), m.routes);
    AdvertRoutesSound(w, s, c, m);
    TableKeepsOK(w, s, s, n);
    LearnOrigins(n, TableOf(s, n), m.sender, w.mirror(c), m.routes);
    forall r | r in news ensures Backed(s', r) && Within(s', n, r.dest, r.cost) {
      var q :| q in m.routes && Acceptable(n, q) && r == Extend(m.sender, q);
      ExtensionBacked(s, s', m.sender, q);
      LearnCosts(n, TableOf(s, n), m.sender, w.mirror(c), m.routes, r.dest, r.cost);
    }
    forall r | r in t ensures Backed(s', r) {
      if r !in news { BackedLater(s, s', r); }
    }
  }

  lemma AdvertKeepsBacking(w: Wiring, s: State, c: ConnId)
    requires w.Valid() && Growing(w, s) && Enabled(w, s, Deliver(c))
    requires QueueOf(s.queues, c)[0].Advert? && w.owner(c) != w.Peer(c)
    ensures
      var s' := Apply(w, s, Deliver(c));
      NoWorse(s, s') && RoutesBacked(s') && MessagesBacked(w, s')
  {
    var s' := Apply(w, s, Deliver(c));
    var q, n, at := QueueOf(s.queues, c), NodeAt(w, s, w.Peer(c)), w.mirror(c);
    var m := q[0];
    var s0 := s.(queues := s.queues[c := q[1..]]);
    var (n', out) := OnAdvert(n, m.sender, m.routes, at);
    AdvertRoutesSound(w, s, c, m);
    LearnNoWorse(s, s', n, m.sender, at, m.routes);
    NewsBacked(w, s, s', c, m);
    QueueTailBacked(w, s, c);
    assert NoWorse(s0, s');
    forall x | x in out ensures MessageBacked(s', w.owner(x), w.Peer(x), out[x]) { assert w.owner(x) == n.id; }
    CommitKeepsBacking(w, s0, s', n', out);
  }

  lemma AdvertKeepsGrowing(w: Wiring, s: State, c: ConnId)
    requires w.Valid() && Growing(w, s) && Enabled(w, s, Deliver(c))
    requires QueueOf(s.queues, c)[0].Advert? && w.owner(c) != w.Peer(c)
    ensures Growing(w, Apply(w, s, Deliver(c)))
  {
    var s' := Apply(w, s, Deliver(c));
    DeliverKeepsStructure(w, s, c);
    AdvertKeepsBacking(w, s, c);
    forall x, d, k | x in s'.conns && Within(s', w.owner(x), d, k) ensures Informed(w, s', x, d, k) {
      AdvertInforms(w, s, s', c, x, d, k);
    }
  }

  // ---- Everything else ----

  /** Taking away a message that tells the peer no news. */
  lemma PopKeepsGrowing(w: Wiring, s: State, c: ConnId)
    requires Growing(w, s) && QueueOf(s.queues, c) != []
    requires QueueOf(s.queues, c)[0].Data? || w.owner(c) == w.Peer(c)
    ensures Growing(w, s.(queues := s.queues[c := QueueOf(s.queues, c)[1..]]))
  {
    var s0 := s.(queues := s.queues[c := QueueOf(s.queues, c)[1..]]);
    SameLinks(w, s, s0, c, QueueOf(s.queues, c)[1..]);
    QueueTailBacked(w, s, c);
    forall x, d, k | x in s0.conns && Within(s0, w.owner(x), d, k) ensures Informed(w, s0, x, d, k) {
      assert Informed(w, s, x, d, k);
      if x == c && w.owner(c) == w.Peer(c) {
        WithinMore(s0, w.Peer(c), d, k, k + 1);
      } else {
        OldKnowledgeInformed(w, s, s0, c, x, d, k);
      }
    }
  }

  /** A node that only sends data messages leaves everyone as informed as before. */
  lemma DataOutKeepsGrowing(w: Wiring, s: State, n: NodeId, out: Outbox)
    requires Growing(w, s)
    requires forall c :: c in out ==>
      c in s.conns && w.owner(c) == n && out[c].Data? && MessageBacked(s, n, w.Peer(c), out[c])
    ensures Growing(w, Commit(s, NodeAt(w, s, n), out))
  {
    var s' := Commit(s, NodeAt(w, s, n), out);
    SameTablesNoWorse(s, s');
    TableKeepsOK(w, s, s', n);
    CommitKeepsStructure(w, s, s', NodeAt(w, s, n), out);
    forall r | r in TableOf(s, n) ensures Backed(s', r) { BackedLater(s, s', r); }
    forall c | c in out ensures MessageBacked(s', n, w.Peer(c), out[c]) {
      MessageBackedLater(s, s', n, w.Peer(c), out[c]);
    }
    CommitKeepsBacking(w, s, s', NodeAt(w, s, n), out);
    forall x, d, k | x in s'.conns && Within(s', w.owner(x), d, k) ensures Informed(w, s', x, d, k) {
      assert Informed(w, s, x, d, k);
      PushedQueue(s.queues, out, x);
      if Carries(QueueOf(s.queues, x), d, k) { CarriesMore(QueueOf(s.queues, x), QueueOf(s'.queues, x), d, k); }
    }
  }

  /** The next hop of a chosen route: it is up, and strictly closer to the destination. */
  lemma NextHop(w: Wiring, s: State, n: NodeId, d: NodeId, r: Route)
    requires Growing(w, s) && Chosen(TableOf(s, n), d, r)
    ensures
      var c := TableOf(s, n)[r];
      && c in s.conns && w.owner(c) == n && w.Peer(c) == r.path[0]
      && r.cost >= 1 && Within(s, w.Peer(c), d, r.cost - 1)
  {
    assert EntryOK(w, s, n, r, s.tables[n][r]);
    assert r in s.tables[n] && Backed(s, r);
    assert BackedAt(s, r, 0);
  }

  lemma SendKeepsGrowing(w: Wiring, s: State, s': State, n: NodeId, r: Route, m: Message)
    requires Growing(w, s) && m.Data? && Chosen(TableOf(s, n), m.dest, r) && m.hops + r.cost <= m.bound + 1
    requires s' == Commit(s, NodeAt(w, s, n), map[TableOf(s, n)[r] := m])
    ensures Growing(w, s')
  {
    var c := TableOf(s, n)[r];
    NextHop(w, s, n, m.dest, r);
    WithinMore(s, w.Peer(c), m.dest, r.cost - 1, m.bound - m.hops);
    DataOutKeepsGrowing(w, s, n, map[c := m]);
  }

  lemma ArrivalKeepsGrowing(w: Wiring, s: State, m: Message)
    requires Growing(w, s) && m.Data? && m.hops <= m.bound
    ensures Growing(w, s.(arrived := s.arrived + [Arrival(m.dest, m)]))
  {
    var s' := s.(arrived := s.arrived + [Arrival(m.dest, m)]);
    SameTablesAndQueues(w, s, s');
    SameTablesNoWorse(s, s');
    forall n, r | n in s'.tables && r in s'.tables[n] ensures Backed(s', r) { BackedLater(s, s', r); }
    forall x, q | x in s'.queues && q in s'.queues[x] ensures MessageBacked(s', w.owner(x), w.Peer(x), q) {
      MessageBackedLater(s, s', w.owner(x), w.Peer(x), q);
    }
    forall x, d, k | x in s'.conns && Within(s', w.owner(x), d, k) ensures Informed(w, s', x, d, k) {
      assert Informed(w, s, x, d, k);
    }
  }

  /** Forwarding a message puts it on the connection of the chosen route, one hop further. */
  lemma RelayIs(w: Wiring, s: State, c: ConnId, m: Message)
    requires m.Data? && m.dest != w.Peer(c) && Knows(TableOf(s, w.Peer(c)), m.dest)
    ensures
      var n := w.Peer(c);
      var x := TableOf(s, n)[RouteFor(TableOf(s, n), m.dest)];
      Receive(w, s, c, m) == Commit(s, NodeAt(w, s, n), map[x := Data(m.dest, m.body, m.hops + 1, m.bound)])
  {
  }

  /** A message that has not arrived can go on, by a route no longer than it may still go. */
  lemma CanRelay(s: State, n: NodeId, peer: NodeId, m: Message)
    requires m.Data? && MessageBacked(s, n, peer, m) && m.dest != peer
    ensures Knows(TableOf(s, peer), m.dest) && m.hops + RouteFor(TableOf(s, peer), m.dest).cost <= m.bound
  {
    var t := TableOf(s, peer);
    var r :| r in t && r.dest == m.dest && r.cost <= m.bound - m.hops;
    ChosenIsCheapest(t, m.dest, RouteFor(t, m.dest), r.cost);
  }

  lemma RelayKeepsGrowing(w: Wiring, s: State, c: ConnId, m: Message)
    requires Growing(w, s) && m.Data? && MessageBacked(s, w.owner(c), w.Peer(c), m) && m.dest != w.Peer(c)
    ensures Growing(w, Receive(w, s, c, m))
  {
    CanRelay(s, w.owner(c), w.Peer(c), m);
    RelayIs(w, s, c, m);
    var r := RouteFor(TableOf(s, w.Peer(c)), m.dest);
    SendKeepsGrowing(w, s, Receive(w, s, c, m), w.Peer(c), r, Data(m.dest, m.body, m.hops + 1, m.bound));
  }

  /** Taking a data message off its queue, it stays backed. */
  lemma PoppedDataBacked(w: Wiring, s: State, c: ConnId)
    requires Growing(w, s) && QueueOf(s.queues, c) != [] && QueueOf(s.queues, c)[0].Data?
    ensures
      var m, s0 := QueueOf(s.queues, c)[0], s.(queues := s.queues[c := QueueOf(s.queues, c)[1..]]);
      Growing(w, s0) && MessageBacked(s0, w.owner(c), w.Peer(c), m) && m.hops <= m.bound
  {
    var m, s0 := QueueOf(s.queues, c)[0], s.(queues := s.queues[c := QueueOf(s.queues, c)[1..]]);
    PopKeepsGrowing(w, s, c);
    assert MessageBacked(s, w.owner(c), w.Peer(c), m);
    SameTablesNoWorse(s, s0);
    MessageBackedLater(s, s0, w.owner(c), w.Peer(c), m);
  }

  lemma DataKeepsGrowing(w: Wiring, s: State, c: ConnId)
    requires Growing(w, s) && Enabled(w, s, Deliver(c)) && QueueOf(s.queues, c)[0].Data?
    ensures Growing(w, Apply(w, s, Deliver(c)))
  {
    var m, s0 := QueueOf(s.queues, c)[0], s.(queues := s.queues[c := QueueOf(s.queues, c)[1..]]);
    PoppedDataBacked(w, s, c);
    if m.dest == w.Peer(c) {
      ArrivalKeepsGrowing(w, s0, m);
    } else {
      RelayKeepsGrowing(w, s0, c, m);
    }
  }

  /** A node's own advertisement, come back over a connection to itself, is ignored. */
  lemma LoopbackKeepsGrowing(w: Wiring, s: State, c: ConnId)
    requires Growing(w, s) && Enabled(w, s, Deliver(c)) && QueueOf(s.queues, c)[0].Advert? && w.owner(c) == w.Peer(c)
    ensures Growing(w, Apply(w, s, Deliver(c)))
  {
    AdvertRoutesSound(w, s, c, QueueOf(s.queues, c)[0]);
    PopKeepsGrowing(w, s, c);
    DataOutKeepsGrowing(w, s.(queues := s.queues[c := QueueOf(s.queues, c)[1..]]), w.Peer(c), map[]);
  }

  lemma DeliverKeepsGrowing(w: Wiring, s: State, c: ConnId)
    requires w.Valid() && Growing(w, s) && Enabled(w, s, Deliver(c))
    ensures Growing(w, Apply(w, s, Deliver(c)))
  {
    var m := QueueOf(s.queues, c)[0];
    assert MessageBacked(s, w.owner(c), w.Peer(c), m);
    if m.Data? {
      DataKeepsGrowing(w, s, c);
    } else if w.owner(c) == w.Peer(c) {
      LoopbackKeepsGrowing(w, s, c);
    } else {
      AdvertKeepsGrowing(w, s, c);
    }
  }

  lemma OriginateKeepsGrowing(w: Wiring, s: State, n: NodeId, d: NodeId, body: nat)
    requires Growing(w, s) && Enabled(w, s, Originate(n, d, body))
    ensures Growing(w, Apply(w, s, Originate(n, d, body)))
  {
    var r := RouteFor(TableOf(s, n), d);
    SendKeepsGrowing(w, s, Apply(w, s, Originate(n, d, body)), n, r, Data(d, body, 1, r.cost));
  }

  lemma StepKeepsGrowing(w: Wiring, s: State, step: Step)
    requires w.Valid() && Growing(w, s) && Enabled(w, s, step) && Additive(step)
    ensures Growing(w, Apply(w, s, step))
  {
    match step
    case Open(c, known) => OpenKeepsGrowing(w, s, c, known);
    case Originate(n, d, body) => OriginateKeepsGrowing(w, s, n, d, body);
    case Deliver(c) => DeliverKeepsGrowing(w, s, c);
  }

  lemma InitGrowing(w: Wiring)
    ensures Growing(w, INIT)
  {
  }

  ghost predicate IsGrowingRun(w: Wiring, ss: seq<State>, steps: seq<Step>) {
    IsRun(w, ss, steps) && forall i :: 0 <= i < |steps| ==> Additive(steps[i])
  }

  lemma {:induction false} GrowingRunsGrow(w: Wiring, ss: seq<State>, steps: seq<Step>, i: nat)
    requires w.Valid() && IsGrowingRun(w, ss, steps) && i < |ss|
    ensures Growing(w, ss[i])
  {
    if i == 0 {
      InitGrowing(w);
    } else {
      GrowingRunsGrow(w, ss, steps, i - 1);
      StepKeepsGrowing(w, ss[i - 1], steps[i - 1]);
    }
  }
}
