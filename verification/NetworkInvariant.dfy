/** What holds in every state of every run, whatever links come up and go down. */
module NetworkInvariant {
  import opened Routes
  import opened RouteTables
  import opened RouterSpec
  import opened RouterLemmas
  import opened Network

  /** A connection from `a` to `b` was up at some time. */
  ghost predicate Linked(w: Wiring, s: State, a: NodeId, b: NodeId) {
    exists c :: c in s.ever && w.owner(c) == a && w.Peer(c) == b
  }

  /** Where hop `i` of a path from `n` starts. */
  function From(n: NodeId, path: seq<NodeId>, i: nat): NodeId
    requires i < |path|
  {
    if i == 0 then n else path[i - 1]
  }

  ghost predicate Hops(w: Wiring, s: State, n: NodeId, path: seq<NodeId>) {
    forall i :: 0 <= i < |path| ==> Linked(w, s, From(n, path, i), path[i])
  }

  /** A route node `n` may hold: a simple path of links from `n` to the destination. */
  ghost predicate RouteOK(w: Wiring, s: State, n: NodeId, r: Route) {
    && r.cost == |r.path| >= 1
    && r.path[|r.path| - 1] == r.dest
    && n !in r.path
    && (forall i, j :: 0 <= i < j < |r.path| ==> r.path[i] != r.path[j])
    && Hops(w, s, n, r.path)
  }

  /** An entry's first hop is the peer on its connection, which is up. */
  ghost predicate EntryOK(w: Wiring, s: State, n: NodeId, r: Route, c: ConnId) {
    && RouteOK(w, s, n, r)
    && c in s.conns && w.owner(c) == n && w.Peer(c) == r.path[0]
  }

  ghost predicate SentOK(w: Wiring, s: State, n: NodeId, r: Route) {
    r == SelfRoute(n) || RouteOK(w, s, n, r)
  }

  /** A revocation, unlike an advertisement, never names the sender itself. */
  ghost predicate MessageOK(w: Wiring, s: State, n: NodeId, m: Message) {
    match m
    case Data(_, _, _, _) => true
    case Advert(sender, routes) => sender == n && forall r :: r in routes ==> SentOK(w, s, n, r)
    case Revoke(sender, routes) => sender == n && forall r :: r in routes ==> RouteOK(w, s, n, r)
  }

  ghost predicate TablesOK(w: Wiring, s: State) {
    forall n :: n in s.tables ==>
      && Trimmed(s.tables[n])
      && forall r :: r in s.tables[n] ==> EntryOK(w, s, n, r, s.tables[n][r])
  }

  ghost predicate QueuesOK(w: Wiring, s: State) {
    forall c :: c in s.queues && s.queues[c] != [] ==>
      c in s.ever && forall m :: m in s.queues[c] ==> MessageOK(w, s, w.owner(c), m)
  }

  ghost predicate Structure(w: Wiring, s: State) {
    s.conns <= s.ever && TablesOK(w, s) && QueuesOK(w, s)
  }

  // ---- Monotonicity in the links ever made ----

  lemma RouteStaysOK(w: Wiring, s: State, s': State, n: NodeId, r: Route)
    requires RouteOK(w, s, n, r) && s.ever <= s'.ever
    ensures RouteOK(w, s', n, r)
  {
    forall i | 0 <= i < |r.path| ensures Linked(w, s', From(n, r.path, i), r.path[i]) {
      assert Linked(w, s, From(n, r.path, i), r.path[i]);
    }
  }

  lemma MessageStaysOK(w: Wiring, s: State, s': State, n: NodeId, m: Message)
    requires MessageOK(w, s, n, m) && s.ever <= s'.ever
    ensures MessageOK(w, s', n, m)
  {
    if !m.Data? {
      forall r | r in m.routes && RouteOK(w, s, n, r) ensures RouteOK(w, s', n, r) { RouteStaysOK(w, s, s', n, r); }
    }
  }

  // ---- One route across one link ----

  /** A sound route of the sender becomes a sound route of the receiver. */
  lemma ExtensionIsOK(w: Wiring, s: State, c: ConnId, q: Route)
    requires w.Valid() && w.mirror(c) in s.ever && SentOK(w, s, w.owner(c), q)
    requires Acceptable(w.Peer(c), q) && w.owner(c) != w.Peer(c)
    ensures RouteOK(w, s, w.Peer(c), Extend(w.owner(c), q))
  {
    var n, sender, r := w.Peer(c), w.owner(c), Extend(w.owner(c), q);
    assert Linked(w, s, n, sender);
    forall i | 0 <= i < |r.path| ensures Linked(w, s, From(n, r.path, i), r.path[i]) {
      if i > 0 { assert Linked(w, s, From(sender, q.path, i - 1), q.path[i - 1]); }
    }
  }

  // ---- Committing one node's part ----

  /** What a node has to show of its new table and its messages. */
  lemma CommitKeepsStructure(w: Wiring, s: State, s': State, n: Node, out: Outbox)
    requires Structure(w, s)
    requires s'.tables == s.tables[n.id := n.table] && s'.queues == Push(s.queues, out)
    requires s.ever <= s'.ever && s'.conns <= s'.ever
    requires Trimmed(n.table) && forall r :: r in n.table ==> EntryOK(w, s', n.id, r, n.table[r])
    requires forall c :: c in out ==> c in s'.ever && w.owner(c) == n.id && MessageOK(w, s', n.id, out[c])
    requires forall c :: c in s.conns && w.owner(c) != n.id ==> c in s'.conns
    ensures Structure(w, s')
  {
    forall m | m in s'.tables
      ensures Trimmed(s'.tables[m]) && forall r :: r in s'.tables[m] ==> EntryOK(w, s', m, r, s'.tables[m][r])
    {
      if m != n.id {
        forall r | r in s'.tables[m] ensures EntryOK(w, s', m, r, s'.tables[m][r]) {
          assert EntryOK(w, s, m, r, s.tables[m][r]);
          RouteStaysOK(w, s, s', m, r);
        }
      }
    }
    forall c | c in s'.queues && s'.queues[c] != []
      ensures c in s'.ever && forall m :: m in s'.queues[c] ==> MessageOK(w, s', w.owner(c), m)
    {
      PushedQueue(s.queues, out, c);
      forall m | m in s'.queues[c] ensures MessageOK(w, s', w.owner(c), m) {
        if m in QueueOf(s.queues, c) { MessageStaysOK(w, s, s', w.owner(c), m); }
      }
      if QueueOf(s.queues, c) == [] { assert c in out; }
    }
  }

  // ---- The steps ----

  lemma InitStructure(w: Wiring)
    ensures Structure(w, INIT)
  {
  }

  lemma OpenKeepsStructure(w: Wiring, s: State, c: ConnId, known: seq<Route>)
    requires Structure(w, s) && Enabled(w, s, Open(c, known))
    ensures Structure(w, Apply(w, s, Open(c, known)))
  {
    var s' := Apply(w, s, Open(c, known));
    var (n, out) := OnOpen(NodeAt(w, s, w.owner(c)), c, known);
    TableKeepsOK(w, s, s', n.id);
    forall r | r in out[c].routes ensures SentOK(w, s', n.id, r) {
      if r in known { assert r in Members(known); }
    }
    CommitKeepsStructure(w, s, s', n, out);
  }

  lemma EmptyTableTrimmed()
    ensures Trimmed(map[])
  {
    var none: Table := map[];
    assert Best(none.Keys) == none.Keys;
  }

  /** A table that did not change is still sound when links are added. */
  lemma TableKeepsOK(w: Wiring, s: State, s': State, n: NodeId)
    requires Structure(w, s) && s.ever <= s'.ever
    ensures Trimmed(TableOf(s, n))
    ensures forall r :: r in TableOf(s, n) ==>
      EntryOK(w, s, n, r, TableOf(s, n)[r]) && RouteOK(w, s', n, r)
  {
    EmptyTableTrimmed();
    forall r | r in TableOf(s, n) ensures EntryOK(w, s, n, r, TableOf(s, n)[r]) && RouteOK(w, s', n, r) {
      assert EntryOK(w, s, n, r, s.tables[n][r]);
      RouteStaysOK(w, s, s', n, r);
    }
  }

  lemma ListedIsOK(w: Wiring, s: State, n: NodeId, routes: seq<Route>, S: set<Route>)
    requires Lists(routes, S) && forall r :: r in S ==> RouteOK(w, s, n, r)
    ensures MessageOK(w, s, n, Revoke(n, routes))
  {
    forall r | r in routes ensures RouteOK(w, s, n, r) { assert r in Members(routes); }
  }

  /** What is left of a table once the routes learned on `c` are gone needs no more than the other connections. */
  lemma CloseKeepsEntries(w: Wiring, s: State, s': State, n: NodeId, c: ConnId)
    requires Structure(w, s) && s'.ever == s.ever && s'.conns == s.conns - {c}
    ensures
      var t := TableOf(s, n) - LearnedOn(TableOf(s, n), c);
      Trimmed(t) && forall r :: r in t ==> EntryOK(w, s', n, r, t[r])
  {
    var t := TableOf(s, n) - LearnedOn(TableOf(s, n), c);
    TableKeepsOK(w, s, s', n);
    SubsetStaysTrimmed(TableOf(s, n), t);
    forall r | r in t ensures EntryOK(w, s', n, r, t[r]) { assert TableOf(s, n)[r] != c; }
  }

  lemma CloseKeepsStructure(w: Wiring, s: State, c: ConnId, dead: seq<Route>)
    requires Structure(w, s) && Enabled(w, s, Close(c, dead))
    ensures Structure(w, Apply(w, s, Close(c, dead)))
  {
    var s' := Apply(w, s, Close(c, dead));
    var (n, out) := OnClose(NodeAt(w, s, w.owner(c)), c, dead);
    CloseKeepsEntries(w, s, s', n.id, c);
    TableKeepsOK(w, s, s', n.id);
    ListedIsOK(w, s', n.id, dead, LearnedOn(TableOf(s, n.id), c));
    CommitKeepsStructure(w, s, s', n, out);
  }

  lemma LoseKeepsStructure(w: Wiring, s: State, c: ConnId, kept: nat)
    requires Structure(w, s) && Enabled(w, s, Lose(c, kept))
    ensures Structure(w, Apply(w, s, Lose(c, kept)))
  {
    var s' := Apply(w, s, Lose(c, kept));
    SameLinks(w, s, s', c, QueueOf(s.queues, c)[..kept]);
  }

  /** Taking messages out of a queue. */
  lemma SameLinks(w: Wiring, s: State, s': State, c: ConnId, q: seq<Message>)
    requires Structure(w, s) && s' == s.(queues := s.queues[c := q])
    requires forall m :: m in q ==> m in QueueOf(s.queues, c)
    ensures Structure(w, s')
  {
    forall n | n in s'.tables
      ensures Trimmed(s'.tables[n]) && forall r :: r in s'.tables[n] ==> EntryOK(w, s', n, r, s'.tables[n][r])
    {
      TableKeepsOK(w, s, s', n);
    }
    forall x | x in s'.queues && s'.queues[x] != []
      ensures x in s'.ever && forall m :: m in s'.queues[x] ==> MessageOK(w, s', w.owner(x), m)
    {
      assert s'.queues[x][0] in QueueOf(s.queues, x);
      forall m | m in s'.queues[x] ensures MessageOK(w, s', w.owner(x), m) {
        MessageStaysOK(w, s, s', w.owner(x), m);
      }
    }
  }

  lemma DeliverKeepsStructure(w: Wiring, s: State, c: ConnId)
    requires w.Valid() && Structure(w, s) && Enabled(w, s, Deliver(c))
    ensures Structure(w, Apply(w, s, Deliver(c)))
  {
    var q := QueueOf(s.queues, c);
    var s0 := s.(queues := s.queues[c := q[1..]]);
    assert MessageOK(w, s, w.owner(c), q[0]);
    MessageStaysOK(w, s, s0, w.owner(c), q[0]);
    SameLinks(w, s, s0, c, q[1..]);
    ReceiveKeepsStructure(w, s0, c, q[0]);
  }

  lemma ReceiveKeepsStructure(w: Wiring, s: State, c: ConnId, m: Message)
    requires w.Valid() && Structure(w, s) && w.mirror(c) in s.conns && MessageOK(w, s, w.owner(c), m)
    ensures Structure(w, Receive(w, s, c, m))
  {
    match m
    case Advert(sender, routes) => AdvertKeepsStructure(w, s, c, routes);
    case Revoke(sender, routes) => RevokeKeepsStructure(w, s, c, routes);
    case Data(_, _, _, _) => DataKeepsStructure(w, s, c, m);
  }

  lemma DataKeepsStructure(w: Wiring, s: State, c: ConnId, m: Message)
    requires Structure(w, s) && m.Data?
    ensures Structure(w, Receive(w, s, c, m))
  {
    var n, d, s' := NodeAt(w, s, w.Peer(c)), m.dest, Receive(w, s, c, m);
    if d == n.id || !Knows(n.table, d) {
      SameTablesAndQueues(w, s, s');
    } else {
      SendKeepsStructure(w, s, n.id, d, Data(d, m.body, m.hops + 1, m.bound));
    }
  }

  /** Sending one data message by the chosen route. */
  lemma SendOnKeepsStructure(w: Wiring, s: State, n: NodeId, c: ConnId, m: Message)
    requires Structure(w, s) && c in s.conns && w.owner(c) == n && m.Data?
    ensures Structure(w, Commit(s, NodeAt(w, s, n), map[c := m]))
  {
    var s' := Commit(s, NodeAt(w, s, n), map[c := m]);
    TableKeepsOK(w, s, s', n);
    CommitKeepsStructure(w, s, s', NodeAt(w, s, n), map[c := m]);
  }

  lemma SendKeepsStructure(w: Wiring, s: State, n: NodeId, d: NodeId, m: Message)
    requires Structure(w, s) && Knows(TableOf(s, n), d) && m.Data?
    ensures Structure(w, Commit(s, NodeAt(w, s, n), map[TableOf(s, n)[RouteFor(TableOf(s, n), d)] := m]))
  {
    var r := RouteFor(TableOf(s, n), d);
    TableKeepsOK(w, s, s, n);
    SendOnKeepsStructure(w, s, n, TableOf(s, n)[r], m);
  }

  lemma SameTablesAndQueues(w: Wiring, s: State, s': State)
    requires Structure(w, s) && s' == s.(arrived := s'.arrived, dropped := s'.dropped)
    ensures Structure(w, s')
  {
    forall n | n in s'.tables
      ensures Trimmed(s'.tables[n]) && forall r :: r in s'.tables[n] ==> EntryOK(w, s', n, r, s'.tables[n][r])
    {
      TableKeepsOK(w, s, s', n);
    }
    forall x, m | x in s'.queues && m in s'.queues[x] ensures MessageOK(w, s', w.owner(x), m) {
      MessageStaysOK(w, s, s', w.owner(x), m);
    }
  }

  lemma AdvertKeepsStructure(w: Wiring, s: State, c: ConnId, routes: seq<Route>)
    requires w.Valid() && Structure(w, s) && w.mirror(c) in s.conns
    requires MessageOK(w, s, w.owner(c), Advert(w.owner(c), routes))
    ensures Structure(w, Receive(w, s, c, Advert(w.owner(c), routes)))
  {
    var n, sender, at := NodeAt(w, s, w.Peer(c)), w.owner(c), w.mirror(c);
    var (n', out) := OnAdvert(n, sender, routes, at);
    var s' := Receive(w, s, c, Advert(sender, routes));
    TableKeepsOK(w, s, s', n.id);
    if sender != n.id {
      var (t, news) := Learn(n.id, n.table, sender, at, routes);
      LearnOrigins(n.id, n.table, sender, at, routes);
      forall r | r in news ensures RouteOK(w, s', n.id, r) && r.path[0] == sender {
        var q :| q in routes && Acceptable(n.id, q) && r == Extend(sender, q);
        ExtensionIsOK(w, s, c, q);
        RouteStaysOK(w, s, s', n.id, r);
      }
      forall r | r in t ensures EntryOK(w, s', n.id, r, t[r]) {
      }
      CommitKeepsStructure(w, s, s', n', out);
    } else {
      CommitKeepsStructure(w, s, s', n', out);
    }
  }

  lemma ImagesAreOK(w: Wiring, s: State, s': State, c: ConnId, routes: seq<Route>)
    requires w.Valid() && w.mirror(c) in s.ever && s'.ever == s.ever && w.owner(c) != w.Peer(c)
    requires forall q :: q in routes ==> RouteOK(w, s, w.owner(c), q)
    ensures MessageOK(w, s', w.Peer(c), Revoke(w.Peer(c), Images(w.Peer(c), w.owner(c), routes)))
  {
    forall r | r in Images(w.Peer(c), w.owner(c), routes) ensures RouteOK(w, s', w.Peer(c), r) {
      var q :| q in routes && Acceptable(w.Peer(c), q) && r == Extend(w.owner(c), q);
      ExtensionIsOK(w, s, c, q);
      RouteStaysOK(w, s, s', w.Peer(c), r);
    }
  }

  lemma RevokeKeepsStructure(w: Wiring, s: State, c: ConnId, routes: seq<Route>)
    requires w.Valid() && Structure(w, s) && w.mirror(c) in s.conns
    requires MessageOK(w, s, w.owner(c), Revoke(w.owner(c), routes))
    ensures Structure(w, Receive(w, s, c, Revoke(w.owner(c), routes)))
  {
    var n, sender, at := NodeAt(w, s, w.Peer(c)), w.owner(c), w.mirror(c);
    var (n', out) := OnRevoke(n, sender, routes, at);
    var s' := Receive(w, s, c, Revoke(sender, routes));
    TableKeepsOK(w, s, s', n.id);
    if sender != n.id {
      ImagesAreOK(w, s, s', c, routes);
      SubsetStaysTrimmed(n.table, n'.table);
    }
    CommitKeepsStructure(w, s, s', n', out);
  }

  lemma StepKeepsStructure(w: Wiring, s: State, step: Step)
    requires w.Valid() && Structure(w, s) && Enabled(w, s, step)
    ensures Structure(w, Apply(w, s, step))
  {
    match step
    case Open(c, known) => OpenKeepsStructure(w, s, c, known);
    case Close(c, dead) => CloseKeepsStructure(w, s, c, dead);
    case Deliver(c) => DeliverKeepsStructure(w, s, c);
    case Lose(c, kept) => LoseKeepsStructure(w, s, c, kept);
    case Originate(n, d, body) =>
      SendKeepsStructure(w, s, n, d, Data(d, body, 1, RouteFor(TableOf(s, n), d).cost));
  }

  /** In every state of every run the tables and the messages in flight are sound. */
  lemma {:induction false} RunsAreStructured(w: Wiring, ss: seq<State>, steps: seq<Step>, i: nat)
    requires w.Valid() && IsRun(w, ss, steps) && i < |ss|
    ensures Structure(w, ss[i])
  {
    if i == 0 {
      InitStructure(w);
    } else {
      RunsAreStructured(w, ss, steps, i - 1);
      StepKeepsStructure(w, ss[i - 1], steps[i - 1]);
    }
  }
}
