/** Where data messages end up in a network whose links only come up: each arrives
    once, at its destination, over no more links than the best route of its origin had. */
module Delivery {
  import opened Routes
  import opened RouteTables
  import opened RouterSpec
  import opened Network
  import opened GrowthInvariant
  import opened Convergence
  import opened Loads
  import opened Settling

  // ---- Hop by hop ----

  /** Going from node to node by the route each would choose leads from `n` to `d` in `k` hops or less. */
  ghost predicate Leads(w: Wiring, s: State, n: NodeId, d: NodeId, k: nat)
    decreases k
  {
    || n == d
    || (k > 0 && Knows(TableOf(s, n), d) && Leads(w, s, w.Peer(TableOf(s, n)[RouteFor(TableOf(s, n), d)]), d, k - 1))
  }

  /** At every moment forwarding leads from any node that knows `d` to `d`, in as many
      hops as its chosen route costs at most. */
  lemma {:induction false} ForwardingLeads(w: Wiring, s: State, n: NodeId, d: NodeId, k: nat)
    requires Growing(w, s) && Within(s, n, d, k)
    ensures Leads(w, s, n, d, k)
    decreases k
  {
    if n != d {
      var r := RouteFor(TableOf(s, n), d);
      ChosenIsCheapest(TableOf(s, n), d, r, k);
      NextHop(w, s, n, d, r);
      var p := w.Peer(TableOf(s, n)[r]);
      WithinMore(s, p, d, r.cost - 1, k - 1);
      ForwardingLeads(w, s, p, d, k - 1);
    }
  }

  /** In every state of a run in which links only come up, whoever knows `d` can reach
      it: without a time to live, no message goes round in circles. */
  lemma ForwardingReaches(w: Wiring, ss: seq<State>, steps: seq<Step>, i: nat, n: NodeId, d: NodeId)
    requires w.Valid() && IsGrowingRun(w, ss, steps) && i < |ss| && Knows(TableOf(ss[i], n), d)
    ensures Leads(w, ss[i], n, d, RouteFor(TableOf(ss[i], n), d).cost)
  {
    GrowingRunsGrow(w, ss, steps, i);
    var r := RouteFor(TableOf(ss[i], n), d);
    assert Has(TableOf(ss[i], n), d, r.cost);
    ForwardingLeads(w, ss[i], n, d, r.cost);
  }

  // ---- Nothing is lost or repeated ----

  /** What does not change about a data message: where it goes, what it says, and the
      cost of the route its origin chose. */
  datatype Packet = Packet(dest: NodeId, body: nat, bound: nat)

  function PacketOf(m: Message): Packet
    requires m.Data?
  {
    Packet(m.dest, m.body, m.bound)
  }

  /** Counts the messages that carry `p`. */
  function Carrying(p: Packet): Measure {
    (m: Message) => if m.Data? && PacketOf(m) == p then 1 else 0
  }

  ghost function Flying(s: State, p: Packet): nat {
    Load(s.conns, s.queues, Carrying(p))
  }

  function Arrived(arrived: seq<Arrival>, p: Packet): nat {
    if arrived == [] then 0
    else
      var n := |arrived| - 1;
      Arrived(arrived[..n], p) + if arrived[n].node == p.dest then Carrying(p)(arrived[n].message) else 0
  }

  /** How often step `step` sends `p` on its way. */
  ghost function Sends(s: State, step: Step, p: Packet): nat {
    if step.Originate? && Knows(TableOf(s, step.n), step.dest)
       && p == Packet(step.dest, step.body, RouteFor(TableOf(s, step.n), step.dest).cost) then 1 else 0
  }

  ghost predicate Conserves(s: State, s': State, p: Packet, sent: nat) {
    Arrived(s'.arrived, p) + Flying(s', p) == Arrived(s.arrived, p) + Flying(s, p) + sent
  }

  lemma CommitConserves(w: Wiring, s: State, n: Node, out: Outbox, p: Packet)
    requires forall c :: c in out ==> !out[c].Data?
    ensures Conserves(s, Commit(s, n, out), p, 0)
  {
    WeightlessLoads(s.conns, s.queues, Carrying(p), out);
  }

  lemma OneMoreConserves(s: State, n: Node, c: ConnId, m: Message, p: Packet)
    requires c in s.conns
    ensures Conserves(s, Commit(s, n, map[c := m]), p, Carrying(p)(m))
  {
    SendLoads(s.conns, s.queues, Carrying(p), c, m);
  }

  lemma OpenConserves(w: Wiring, s: State, c: ConnId, known: seq<Route>, p: Packet)
    requires Growing(w, s) && Enabled(w, s, Open(c, known))
    ensures Conserves(s, Apply(w, s, Open(c, known)), p, 0)
  {
    var (n, out) := OnOpen(NodeAt(w, s, w.owner(c)), c, known);
    var f, more, q := Carrying(p), s.conns + {c}, Push(s.queues, out);
    assert QueueOf(s.queues, c) == [];
    LoadSplits(more, s.queues, f, c);
    assert more - {c} == s.conns;
    WeightlessLoads(more, s.queues, f, out);
  }

  lemma AdvertConserves(w: Wiring, s: State, c: ConnId, p: Packet)
    requires Enabled(w, s, Deliver(c)) && c in s.conns && QueueOf(s.queues, c)[0].Advert?
    ensures Conserves(s, Apply(w, s, Deliver(c)), p, 0)
  {
    var q := QueueOf(s.queues, c);
    var m, s0 := q[0], s.(queues := s.queues[c := q[1..]]);
    PopLightens(s.conns, s.queues, Carrying(p), c);
    var (n, out) := OnAdvert(NodeAt(w, s0, w.Peer(c)), m.sender, m.routes, w.mirror(c));
    CommitConserves(w, s0, n, out, p);
  }

  lemma ArrivalConserves(s: State, m: Message, p: Packet)
    requires m.Data?
    ensures Conserves(s, s.(arrived := s.arrived + [Arrival(m.dest, m)]), p, Carrying(p)(m))
  {
    assert (s.arrived + [Arrival(m.dest, m)])[..|s.arrived|] == s.arrived;
  }

  lemma RelayConserves(w: Wiring, s: State, c: ConnId, m: Message, p: Packet)
    requires Growing(w, s) && m.Data? && m.dest != w.Peer(c) && MessageBacked(s, w.owner(c), w.Peer(c), m)
    ensures Conserves(s, Receive(w, s, c, m), p, Carrying(p)(m))
  {
    var n := w.Peer(c);
    CanRelay(s, w.owner(c), n, m);
    RelayIs(w, s, c, m);
    var r, next := RouteFor(TableOf(s, n), m.dest), Data(m.dest, m.body, m.hops + 1, m.bound);
    NextHop(w, s, n, m.dest, r);
    OneMoreConserves(s, NodeAt(w, s, n), TableOf(s, n)[r], next, p);
  }

  lemma DataConserves(w: Wiring, s: State, c: ConnId, p: Packet)
    requires Growing(w, s) && Enabled(w, s, Deliver(c)) && c in s.conns && QueueOf(s.queues, c)[0].Data?
    ensures Conserves(s, Apply(w, s, Deliver(c)), p, 0)
  {
    var q := QueueOf(s.queues, c);
    var m, s0 := q[0], s.(queues := s.queues[c := q[1..]]);
    PopLightens(s.conns, s.queues, Carrying(p), c);
    if m.dest == w.Peer(c) {
      ArrivalConserves(s0, m, p);
    } else {
      PoppedDataBacked(w, s, c);
      RelayConserves(w, s0, c, m, p);
    }
  }

  lemma OriginateIs(w: Wiring, s: State, n: NodeId, d: NodeId, body: nat, r: Route)
    requires Knows(TableOf(s, n), d) && r == RouteFor(TableOf(s, n), d)
    ensures Apply(w, s, Originate(n, d, body)) ==
      Commit(s, NodeAt(w, s, n), map[TableOf(s, n)[r] := Data(d, body, 1, r.cost)])
  {
  }

  lemma OriginateConserves(w: Wiring, s: State, n: NodeId, d: NodeId, body: nat, p: Packet)
    requires Growing(w, s) && Enabled(w, s, Originate(n, d, body))
    ensures Conserves(s, Apply(w, s, Originate(n, d, body)), p, Sends(s, Originate(n, d, body), p))
  {
    var r := RouteFor(TableOf(s, n), d);
    NextHop(w, s, n, d, r);
    OriginateIs(w, s, n, d, body, r);
    OneMoreConserves(s, NodeAt(w, s, n), TableOf(s, n)[r], Data(d, body, 1, r.cost), p);
  }

  /** Every step moves messages, and only originating adds one. */
  lemma StepConserves(w: Wiring, s: State, step: Step, p: Packet)
    requires w.Valid() && Growing(w, s) && Enabled(w, s, step) && Additive(step)
    ensures Conserves(s, Apply(w, s, step), p, Sends(s, step, p))
  {
    match step
    case Open(c, known) => OpenConserves(w, s, c, known, p);
    case Originate(n, d, body) => OriginateConserves(w, s, n, d, body, p);
    case Deliver(c) =>
      var m := QueueOf(s.queues, c)[0];
      assert MessageBacked(s, w.owner(c), w.Peer(c), m);
      if m.Data? { DataConserves(w, s, c, p); } else { AdvertConserves(w, s, c, p); }
  }

  /** How often `p` was sent on its way in the first `i` steps. */
  ghost function Sent(ss: seq<State>, steps: seq<Step>, p: Packet, i: nat): nat
    requires i <= |steps| < |ss|
  {
    if i == 0 then 0 else Sent(ss, steps, p, i - 1) + Sends(ss[i - 1], steps[i - 1], p)
  }

  /** At every moment of a run, each message sent has arrived once or is in flight once. */
  lemma {:induction false} MessagesAreConserved(w: Wiring, ss: seq<State>, steps: seq<Step>, p: Packet, i: nat)
    requires w.Valid() && IsGrowingRun(w, ss, steps) && i <= |steps|
    ensures Arrived(ss[i].arrived, p) + Flying(ss[i], p) == Sent(ss, steps, p, i)
  {
    if i > 0 {
      MessagesAreConserved(w, ss, steps, p, i - 1);
      GrowingRunsGrow(w, ss, steps, i - 1);
      StepConserves(w, ss[i - 1], steps[i - 1], p);
    }
  }

  // ---- Every message arrives ----

  lemma {:induction false} DeliveriesSendNothing(ss: seq<State>, steps: seq<Step>, more: seq<State>,
                                                 all: seq<Step>, p: Packet, i: nat)
    requires |steps| < |ss| && |all| < |more| && ss <= more && steps <= all && |steps| <= i <= |all|
    requires forall j :: |steps| <= j < |all| ==> all[j].Deliver?
    ensures Sent(more, all, p, i) == Sent(ss, steps, p, |steps|)
  {
    if i > |steps| {
      DeliveriesSendNothing(ss, steps, more, all, p, i - 1);
    } else {
      SentEarlier(ss, steps, more, all, p, i);
    }
  }

  lemma {:induction false} SentEarlier(ss: seq<State>, steps: seq<Step>, more: seq<State>, all: seq<Step>,
                                       p: Packet, i: nat)
    requires i <= |steps| < |ss| && |all| < |more| && ss <= more && steps <= all
    ensures Sent(more, all, p, i) == Sent(ss, steps, p, i)
  {
    if i > 0 { SentEarlier(ss, steps, more, all, p, i - 1); }
  }

  /** Once nothing more can be delivered, every message that was ever sent has arrived
      at its destination, as often as it was sent, and crossed no more links than the
      route its origin chose cost. */
  lemma SettledMeansArrived(w: Wiring, ss: seq<State>, steps: seq<Step>, p: Packet)
    requires w.Valid() && IsGrowingRun(w, ss, steps)
    requires forall c :: !Enabled(w, ss[|steps|], Deliver(c))
    requires forall c :: c in ss[|steps|].conns ==> w.mirror(c) in ss[|steps|].conns
    ensures Arrived(ss[|steps|].arrived, p) == Sent(ss, steps, p, |steps|)
    ensures forall a :: a in ss[|steps|].arrived ==>
      a.message.Data? && a.message.dest == a.node && a.message.hops <= a.message.bound
  {
    var s := ss[|steps|];
    MessagesAreConserved(w, ss, steps, p, |steps|);
    GrowingRunsGrow(w, ss, steps, |steps|);
    forall c | c in s.conns ensures QueueOf(s.queues, c) == [] { assert !Enabled(w, s, Deliver(c)); }
    EmptyLoad(s.conns, s.queues, Carrying(p));
  }

  /** Delivery: from any state of a run in which links only come up, delivering what is
      in flight ends with every message sent so far arrived, once for each time it was
      sent, and with shortest paths in all tables. */
  lemma EveryMessageArrives(w: Wiring, ss: seq<State>, steps: seq<Step>) returns (more: seq<State>, all: seq<Step>)
    requires w.Valid() && IsGrowingRun(w, ss, steps)
    requires forall c :: c in ss[|steps|].conns ==> w.mirror(c) in ss[|steps|].conns
    ensures IsGrowingRun(w, more, all) && steps <= all && ss <= more
    ensures forall i :: |steps| <= i < |all| ==> all[i].Deliver?
    ensures forall p :: Arrived(more[|all|].arrived, p) == Sent(ss, steps, p, |steps|)
    ensures forall a :: a in more[|all|].arrived ==>
      a.message.Data? && a.message.dest == a.node && a.message.hops <= a.message.bound
    ensures ShortestPaths(w, more[|all|])
  {
    more, all := EveryNetworkConverges(w, ss, steps);
    forall p ensures Arrived(more[|all|].arrived, p) == Sent(ss, steps, p, |steps|) {
      SettledMeansArrived(w, more, all, p);
      DeliveriesSendNothing(ss, steps, more, all, p, |all|);
    }
    GrowingRunsGrow(w, more, all, |all|);
  }
}
