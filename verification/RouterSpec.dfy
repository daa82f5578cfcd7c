/** What a router does on each event, on values: its table, its connections and
    the messages it hands to them. */
module RouterSpec {
  import opened Routes
  import opened RouteTables

  /** Messages between routers.  Besides its body, a `Data` message carries two
      counters that are not on the wire: the links it has been sent over, and the
      cost of the route its origin chose for it. */
  datatype Message =
    | Advert(sender: NodeId, routes: seq<Route>)
    | Revoke(sender: NodeId, routes: seq<Route>)
    | Data(dest: NodeId, body: nat, hops: nat, bound: nat)

  datatype Node = Node(id: NodeId, table: Table, conns: set<ConnId>)

  /** At most one message to each connection. */
  type Outbox = map<ConnId, Message>
  type Queues = map<ConnId, seq<Message>>

  function QueueOf(q: Queues, c: ConnId): seq<Message> {
    if c in q then q[c] else []
  }

  /** The queues once the messages of `out` have been appended. */
  ghost function Push(q: Queues, out: Outbox): Queues {
    map c | c in q.Keys + out.Keys :: QueueOf(q, c) + if c in out then [out[c]] else []
  }

  lemma PushedQueue(q: Queues, out: Outbox, c: ConnId)
    ensures QueueOf(Push(q, out), c) == QueueOf(q, c) + if c in out then [out[c]] else []
  {
  }

  ghost function ConnSet(cs: seq<ConnId>): set<ConnId> {
    set c | c in cs
  }

  ghost predicate Distinct(cs: seq<ConnId>) {
    forall i, j :: 0 <= i < j < |cs| ==> cs[i] != cs[j]
  }

  lemma ConnSetGrows(cs: seq<ConnId>, i: nat)
    requires i < |cs| && Distinct(cs)
    ensures ConnSet(cs[..i + 1]) == ConnSet(cs[..i]) + {cs[i]}
    ensures cs[i] !in ConnSet(cs[..i])
    ensures cs[..|cs|] == cs
  {
    assert cs[..i + 1] == cs[..i] + [cs[i]];
  }

  ghost function ToAll(conns: set<ConnId>, m: Message): Outbox {
    map c | c in conns :: m
  }

  // ---- Events ----

  ghost function OnAdvert(n: Node, sender: NodeId, routes: seq<Route>, c: ConnId): (Node, Outbox) {
    if sender == n.id then (n, map[])
    else
      var (t, news) := Learn(n.id, n.table, sender, c, routes);
      (n.(table := t), if news == [] then map[] else ToAll(n.conns - {c}, Advert(n.id, news)))
  }

  /** Exactly the images of the revoked routes go.  If any was held, all images
      are passed on, held or not. */
  ghost function OnRevoke(n: Node, sender: NodeId, routes: seq<Route>, c: ConnId): (Node, Outbox) {
    if sender == n.id then (n, map[])
    else
      var images := Images(n.id, sender, routes);
      (n.(table := n.table - Members(images)),
       if Members(images) !! n.table.Keys then map[] else ToAll(n.conns - {c}, Revoke(n.id, images)))
  }

  ghost function LearnedOn(t: Table, c: ConnId): set<Route> {
    set r | r in t && t[r] == c
  }

  /** `routes` lists `S`, in whatever order. */
  ghost predicate Lists(routes: seq<Route>, S: set<Route>) {
    && Members(routes) == S
    && forall i, j :: 0 <= i < j < |routes| ==> routes[i] != routes[j]
  }

  /** Losing connection `c`; `dead` lists the routes learned on it. */
  ghost function OnClose(n: Node, c: ConnId, dead: seq<Route>): (Node, Outbox) {
    (n.(table := n.table - LearnedOn(n.table, c), conns := n.conns - {c}),
     if dead == [] then map[] else ToAll(n.conns - {c}, Revoke(n.id, dead)))
  }

  function SelfRoute(id: NodeId): Route {
    Route(id, 0, [])
  }

  /** Gaining connection `c`; `known` lists the table. */
  ghost function OnOpen(n: Node, c: ConnId, known: seq<Route>): (Node, Outbox) {
    (n.(conns := n.conns + {c}), map[c := Advert(n.id, [SelfRoute(n.id)] + known)])
  }

  /** The route `forward` uses: the first one for the destination. */
  ghost predicate Chosen(t: Table, d: NodeId, r: Route) {
    r in t && r.dest == d && forall s :: s in t && s.dest == d ==> s == r || Before(r, s)
  }

  ghost predicate Knows(t: Table, d: NodeId) {
    exists r :: r in t && r.dest == d
  }

  lemma {:induction false} FirstOf(K: set<Route>, d: NodeId) returns (m: Route)
    requires K != {} && forall r | r in K :: r.dest == d
    ensures m in K && forall r | r in K :: r == m || Before(m, r)
  {
    m :| m in K;
    if K != {m} {
      var n := FirstOf(K - {m}, d);
      BeforeTotal(m, n);
      if Before(n, m) {
        m := n;
      } else {
        forall r | r in K && r != m ensures Before(m, r) { if r != n { BeforeTransitive(m, n, r); } }
      }
    }
  }

  lemma ChosenExists(t: Table, d: NodeId) returns (r: Route)
    requires Knows(t, d)
    ensures Chosen(t, d, r)
  {
    var K := set s | s in t && s.dest == d;
    var s :| s in t && s.dest == d;
    assert s in K;
    r := FirstOf(K, d);
  }

  lemma ChosenIsCheapest(t: Table, d: NodeId, r: Route, k: int)
    requires Chosen(t, d, r) && Has(t, d, k)
    ensures r.cost <= k
  {
  }

  /** The chosen route is a cheapest one, and where it parts from one as cheap, it goes to
      the node with the smaller id. */
  lemma ChosenGoesToSmallerNode(t: Table, d: NodeId, r: Route, s: Route)
    requires Chosen(t, d, r) && s in t && s.dest == d
    ensures r.cost <= s.cost
    ensures r.cost == s.cost && r != s ==> exists k: nat :: LessAt(r.path, s.path, k)
    ensures forall k: nat :: r.cost == s.cost && k < |r.path| && k < |s.path| && r.path[..k] == s.path[..k] ==>
      r.path[k] <= s.path[k]
  {
    PathLessAtFirstDifference(r.path, s.path);
    forall k: nat | r.cost == s.cost && k < |r.path| && k < |s.path| && r.path[..k] == s.path[..k]
      ensures r.path[k] <= s.path[k]
    {
      if r != s {
        var j: nat :| LessAt(r.path, s.path, j);
        LessAtDecides(r.path, s.path, j, k);
      }
    }
  }

  // ---- Reachability events ----

  datatype Event = Reachable(node: NodeId) | Unreachable(node: NodeId)

  /** The events of every node alternate, starting with `Reachable`, and the nodes
      whose latest event is `Reachable` are exactly `live`. */
  ghost predicate Ledger(log: seq<Event>, live: set<NodeId>) {
    if log == [] then live == {}
    else
      var n := |log| - 1;
      match log[n]
      case Reachable(d) => d in live && Ledger(log[..n], live - {d})
      case Unreachable(d) => d !in live && Ledger(log[..n], live + {d})
  }

  ghost function Dests(t: Table): set<NodeId> {
    set r | r in t :: r.dest
  }

  /** What the ledger means for one node: its latest event tells whether it is live. */
  lemma {:induction false} LatestEventDecides(log: seq<Event>, live: set<NodeId>, d: NodeId)
    requires Ledger(log, live)
    ensures d in live <==>
      exists i :: 0 <= i < |log| && log[i] == Reachable(d) && forall j :: i < j < |log| ==> log[j].node != d
  {
    if log != [] {
      var n := |log| - 1;
      var before := if log[n].Reachable? then live - {log[n].node} else live + {log[n].node};
      LatestEventDecides(log[..n], before, d);
      assert forall i :: 0 <= i < n ==> log[..n][i] == log[i];
      if log[n].node != d && d in live {
        var i :| 0 <= i < n && log[..n][i] == Reachable(d) && forall j :: i < j < n ==> log[..n][j].node != d;
        assert log[i] == Reachable(d) && forall j :: i < j < |log| ==> log[j].node != d by {
          forall j | i < j < |log| ensures log[j].node != d { if j < n { assert log[..n][j].node != d; } }
        }
      } else if d in live {
        assert log[n] == Reachable(d);
      }
    }
  }

  /** The events of one node alternate, and the first of them is `Reachable`. */
  lemma {:induction false} EventsAlternate(log: seq<Event>, live: set<NodeId>, j: nat)
    requires Ledger(log, live) && j < |log|
    ensures log[j].Unreachable? <==>
      exists i :: 0 <= i < j && log[i] == Reachable(log[j].node) && forall k :: i < k < j ==> log[k].node != log[j].node
    decreases |log|
  {
    var n := |log| - 1;
    var before := if log[n].Reachable? then live - {log[n].node} else live + {log[n].node};
    var d := log[j].node;
    if j < n {
      EventsAlternate(log[..n], before, j);
      assert forall i :: 0 <= i < n ==> log[..n][i] == log[i];
    } else {
      LatestEventDecides(log[..n], before, d);
      assert forall i :: 0 <= i < n ==> log[..n][i] == log[i];
    }
  }

  lemma LedgerGain(log: seq<Event>, live: set<NodeId>, d: NodeId)
    requires Ledger(log, live) && d !in live
    ensures Ledger(log + [Reachable(d)], live + {d})
  {
    assert (log + [Reachable(d)])[..|log|] == log;
    assert live + {d} - {d} == live;
  }

  ghost predicate OnlyGains(was: seq<Event>, now: seq<Event>) {
    was <= now && forall i :: |was| <= i < |now| ==> now[i].Reachable?
  }

  lemma GainOneMore(was: seq<Event>, now: seq<Event>, d: NodeId)
    requires OnlyGains(was, now)
    ensures OnlyGains(was, now + []) && OnlyGains(was, now + [Reachable(d)])
  {
    assert now + [] == now;
  }

  function Losses(ds: seq<NodeId>): (log: seq<Event>)
    ensures |log| == |ds| && forall i :: 0 <= i < |ds| ==> log[i] == Unreachable(ds[i])
  {
    if ds == [] then [] else Losses(ds[..|ds| - 1]) + [Unreachable(ds[|ds| - 1])]
  }

  ghost function NodesOf(ds: seq<NodeId>): set<NodeId> {
    set d | d in ds
  }

  ghost predicate Ascending(ds: seq<NodeId>) {
    forall i, j :: 0 <= i < j < |ds| ==> ds[i] < ds[j]
  }

  lemma {:induction false} LedgerLose(log: seq<Event>, live: set<NodeId>, ds: seq<NodeId>)
    requires Ledger(log, live) && Ascending(ds) && NodesOf(ds) <= live
    ensures Ledger(log + Losses(ds), live - NodesOf(ds))
  {
    if ds == [] {
      assert log + Losses(ds) == log && live - NodesOf(ds) == live;
    } else {
      var n := |ds| - 1;
      assert forall d :: d in ds[..n] ==> d in ds && d in NodesOf(ds);
      LedgerLose(log, live, ds[..n]);
      var before := log + Losses(ds[..n]);
      assert log + Losses(ds) == before + [Unreachable(ds[n])];
      assert (log + Losses(ds))[..|before|] == before;
      assert ds[n] in NodesOf(ds);
      assert live - NodesOf(ds) + {ds[n]} == live - NodesOf(ds[..n]);
    }
  }
}
