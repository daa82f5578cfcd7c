/** Routers joined by connections, as a transition system.  Each link is a pair of
    connection objects, one at each end; what is sent on one is received, in
    order, at the other.  The two ends come up and go down one at a time. */
module Network {
  import opened Routes
  import opened RouteTables
  import opened RouterSpec

  /** Which node each connection belongs to, and the connection at the other end. */
  datatype Wiring = Wiring(owner: ConnId -> NodeId, mirror: ConnId -> ConnId)
  {
    ghost predicate Valid() {
      forall c :: mirror(mirror(c)) == c
    }

    function Peer(c: ConnId): NodeId {
      owner(mirror(c))
    }
  }

  /** `queues[c]` is in flight from the owner of `c` to its peer; `ever` holds the
      connections that were up at some time. */
  datatype State = State(
    tables: map<NodeId, Table>,
    conns: set<ConnId>,
    ever: set<ConnId>,
    queues: Queues,
    arrived: seq<Arrival>,
    dropped: seq<Message>)

  /** A data message and where it came to its end. */
  datatype Arrival = Arrival(node: NodeId, message: Message)

  ghost const INIT := State(map[], {}, {}, map[], [], [])

  function TableOf(s: State, n: NodeId): Table {
    if n in s.tables then s.tables[n] else map[]
  }

  ghost function ConnsOf(w: Wiring, s: State, n: NodeId): set<ConnId> {
    set c | c in s.conns && w.owner(c) == n
  }

  ghost function NodeAt(w: Wiring, s: State, n: NodeId): Node {
    Node(n, TableOf(s, n), ConnsOf(w, s, n))
  }

  /** The state once node `n.id` has done its part. */
  ghost function Commit(s: State, n: Node, out: Outbox): State {
    s.(tables := s.tables[n.id := n.table], queues := Push(s.queues, out))
  }

  datatype Step =
    | Open(c: ConnId, known: seq<Route>)
    | Close(c: ConnId, dead: seq<Route>)
    | Deliver(c: ConnId)
    | Lose(c: ConnId, kept: nat)
    | Originate(n: NodeId, dest: NodeId, body: nat)

  ghost predicate Enabled(w: Wiring, s: State, step: Step) {
    match step
    case Open(c, known) => c !in s.ever && Lists(known, TableOf(s, w.owner(c)).Keys)
    case Close(c, dead) => c in s.conns && Lists(dead, LearnedOn(TableOf(s, w.owner(c)), c))
    case Deliver(c) => QueueOf(s.queues, c) != [] && w.mirror(c) in s.conns
    case Lose(c, kept) => (c !in s.conns || w.mirror(c) in s.ever - s.conns) && kept <= |QueueOf(s.queues, c)|
    case Originate(n, d, _) => Knows(TableOf(s, n), d)
  }

  ghost function RouteFor(t: Table, d: NodeId): (r: Route)
    requires Knows(t, d)
    ensures Chosen(t, d, r)
  {
    assert exists r :: Chosen(t, d, r) by { var r := ChosenExists(t, d); }
    var r :| Chosen(t, d, r);
    r
  }

  /** What the peer of `c` does with message `m`. */
  ghost function Receive(w: Wiring, s: State, c: ConnId, m: Message): State {
    var n := NodeAt(w, s, w.Peer(c));
    match m
    case Advert(sender, routes) =>
      var (n', out) := OnAdvert(n, sender, routes, w.mirror(c));
      Commit(s, n', out)
    case Revoke(sender, routes) =>
      var (n', out) := OnRevoke(n, sender, routes, w.mirror(c));
      Commit(s, n', out)
    case Data(d, body, hops, bound) =>
      if d == n.id then s.(arrived := s.arrived + [Arrival(n.id, m)])
      else if !Knows(n.table, d) then s.(dropped := s.dropped + [m])
      else Commit(s, n, map[n.table[RouteFor(n.table, d)] := Data(d, body, hops + 1, bound)])
  }

  ghost function Apply(w: Wiring, s: State, step: Step): State
    requires Enabled(w, s, step)
  {
    match step
    case Open(c, known) =>
      var (n, out) := OnOpen(NodeAt(w, s, w.owner(c)), c, known);
      Commit(s, n, out).(conns := s.conns + {c}, ever := s.ever + {c})
    case Close(c, dead) =>
      var (n, out) := OnClose(NodeAt(w, s, w.owner(c)), c, dead);
      Commit(s, n, out).(conns := s.conns - {c})
    case Deliver(c) =>
      var q := QueueOf(s.queues, c);
      Receive(w, s.(queues := s.queues[c := q[1..]]), c, q[0])
    case Lose(c, kept) =>
      s.(queues := s.queues[c := QueueOf(s.queues, c)[..kept]])
    case Originate(n, d, body) =>
      var t := TableOf(s, n);
      var r := RouteFor(t, d);
      Commit(s, NodeAt(w, s, n), map[t[r] := Data(d, body, 1, r.cost)])
  }

  /** `ss` are the states of a run from the empty network. */
  ghost predicate IsRun(w: Wiring, ss: seq<State>, steps: seq<Step>) {
    && |ss| == |steps| + 1
    && ss[0] == INIT
    && forall i :: 0 <= i < |steps| ==> Enabled(w, ss[i], steps[i]) && ss[i + 1] == Apply(w, ss[i], steps[i])
  }

  /** Links come up, and nothing is lost. */
  predicate Additive(step: Step) {
    step.Open? || step.Deliver? || step.Originate?
  }
}
