/** Runs in which links only come up: once no advertisement is in flight, tables
    hold shortest paths; and at all times data messages reach their destination. */
module Convergence {
  import opened Routes
  import opened RouteTables
  import opened RouterSpec
  import opened Network
  import opened NetworkInvariant
  import opened GrowthInvariant

  /** `path` leads from `n` to `d` over connections that are up. */
  ghost predicate Walk(w: Wiring, s: State, n: NodeId, path: seq<NodeId>, d: NodeId)
    decreases |path|
  {
    if path == [] then n == d
    else
      && (exists c :: c in s.conns && w.owner(c) == n && w.Peer(c) == path[0])
      && Walk(w, s, path[0], path[1..], d)
  }

  /** Both ends of every link are up and no advertisement is on its way. */
  ghost predicate Quiet(w: Wiring, s: State) {
    forall c :: c in s.conns ==> w.mirror(c) in s.conns && forall m :: m in QueueOf(s.queues, c) ==> !m.Advert?
  }

  ghost predicate IsDistance(w: Wiring, s: State, n: NodeId, d: NodeId, k: nat) {
    && (exists path :: Walk(w, s, n, path, d) && |path| == k)
    && (forall path :: Walk(w, s, n, path, d) ==> k <= |path|)
  }

  ghost predicate IsBestCost(t: Table, d: NodeId, k: nat) {
    && (exists r :: r in t && r.dest == d && r.cost == k)
    && (forall r :: r in t && r.dest == d ==> k <= r.cost)
  }

  /** In a quiet network every walk bounds the cost its start knows. */
  lemma {:induction false} WalksBoundCosts(w: Wiring, s: State, n: NodeId, path: seq<NodeId>, d: NodeId)
    requires w.Valid() && Growing(w, s) && Quiet(w, s) && Walk(w, s, n, path, d)
    ensures Within(s, n, d, |path|)
    decreases |path|
  {
    if path != [] {
      var c :| c in s.conns && w.owner(c) == n && w.Peer(c) == path[0];
      WalksBoundCosts(w, s, path[0], path[1..], d);
      var x := w.mirror(c);
      assert w.owner(x) == path[0] && w.Peer(x) == n;
      assert Informed(w, s, x, d, |path| - 1);
    }
  }

  lemma {:induction false} HopsWalk(w: Wiring, s: State, n: NodeId, path: seq<NodeId>)
    requires s.ever == s.conns && path != [] && Hops(w, s, n, path)
    ensures Walk(w, s, n, path, path[|path| - 1])
    decreases |path|
  {
    assert Linked(w, s, From(n, path, 0), path[0]);
    if |path| > 1 {
      var rest := path[1..];
      forall i | 0 <= i < |rest| ensures Linked(w, s, From(path[0], rest, i), rest[i]) {
        assert Linked(w, s, From(n, path, i + 1), path[i + 1]);
      }
      HopsWalk(w, s, path[0], rest);
    }
  }

  /** Every entry is a walk of its cost. */
  lemma EntriesAreWalks(w: Wiring, s: State, n: NodeId, r: Route)
    requires Growing(w, s) && r in TableOf(s, n)
    ensures Walk(w, s, n, r.path, r.dest) && |r.path| == r.cost
  {
    assert EntryOK(w, s, n, r, s.tables[n][r]);
    HopsWalk(w, s, n, r.path);
  }

  lemma BestIsDistance(w: Wiring, s: State, n: NodeId, d: NodeId, k: nat, r: Route)
    requires IsBestCost(TableOf(s, n), d, k) && r in TableOf(s, n) && r.dest == d && r.cost == k
    requires Walk(w, s, n, r.path, d) && |r.path| == k
    requires forall path :: Walk(w, s, n, path, d) ==> Has(TableOf(s, n), d, |path|)
    ensures IsDistance(w, s, n, d, k)
  {
  }

  lemma DistanceIsBest(w: Wiring, s: State, n: NodeId, d: NodeId, k: nat)
    requires IsDistance(w, s, n, d, k) && Has(TableOf(s, n), d, k)
    requires forall r :: r in TableOf(s, n) && r.dest == d ==> Walk(w, s, n, r.path, d) && |r.path| == r.cost
    ensures IsBestCost(TableOf(s, n), d, k)
  {
    var r :| r in TableOf(s, n) && r.dest == d && r.cost <= k;
    assert k <= |r.path|;
  }

  /** The least cost of a destination is the length of a shortest path to it. */
  lemma QuietMeansShortest(w: Wiring, s: State, n: NodeId, d: NodeId, k: nat)
    requires w.Valid() && Growing(w, s) && Quiet(w, s) && n != d
    ensures IsBestCost(TableOf(s, n), d, k) <==> IsDistance(w, s, n, d, k)
  {
    forall r | r in TableOf(s, n) && r.dest == d ensures Walk(w, s, n, r.path, d) && |r.path| == r.cost {
      EntriesAreWalks(w, s, n, r);
    }
    forall path | Walk(w, s, n, path, d) ensures Has(TableOf(s, n), d, |path|) { WalksBoundCosts(w, s, n, path, d); }
    if r :| IsBestCost(TableOf(s, n), d, k) && r in TableOf(s, n) && r.dest == d && r.cost == k {
      BestIsDistance(w, s, n, d, k, r);
    }
    if path :| IsDistance(w, s, n, d, k) && Walk(w, s, n, path, d) && |path| == k {
      DistanceIsBest(w, s, n, d, k);
    }
  }

  lemma KnowsByWalks(w: Wiring, s: State, n: NodeId, d: NodeId)
    requires forall r :: r in TableOf(s, n) && r.dest == d ==> Walk(w, s, n, r.path, d)
    requires forall path :: Walk(w, s, n, path, d) ==> Has(TableOf(s, n), d, |path|)
    ensures Knows(TableOf(s, n), d) <==> exists path :: Walk(w, s, n, path, d)
  {
    if Knows(TableOf(s, n), d) {
      var r :| r in TableOf(s, n) && r.dest == d;
      assert Walk(w, s, n, r.path, d);
    }
  }

  lemma QuietMeansReachable(w: Wiring, s: State, n: NodeId, d: NodeId)
    requires w.Valid() && Growing(w, s) && Quiet(w, s) && n != d
    ensures Knows(TableOf(s, n), d) <==> exists path :: Walk(w, s, n, path, d)
  {
    forall r | r in TableOf(s, n) && r.dest == d ensures Walk(w, s, n, r.path, d) { EntriesAreWalks(w, s, n, r); }
    forall path | Walk(w, s, n, path, d) ensures Has(TableOf(s, n), d, |path|) { WalksBoundCosts(w, s, n, path, d); }
    KnowsByWalks(w, s, n, d);
  }

  /** Best costs are shortest-path distances, and a node has a route to exactly the
      other nodes of its component. */
  ghost predicate ShortestPaths(w: Wiring, s: State) {
    && (forall n, d, k: nat :: n != d ==> (IsBestCost(TableOf(s, n), d, k) <==> IsDistance(w, s, n, d, k)))
    && (forall n, d :: n != d ==> (Knows(TableOf(s, n), d) <==> exists path :: Walk(w, s, n, path, d)))
  }

  lemma QuietMeansConverged(w: Wiring, s: State)
    requires w.Valid() && Growing(w, s) && Quiet(w, s)
    ensures ShortestPaths(w, s)
  {
    forall n, d, k: nat | n != d ensures IsBestCost(TableOf(s, n), d, k) <==> IsDistance(w, s, n, d, k) {
      QuietMeansShortest(w, s, n, d, k);
    }
    forall n, d | n != d ensures Knows(TableOf(s, n), d) <==> exists path :: Walk(w, s, n, path, d) {
      QuietMeansReachable(w, s, n, d);
    }
  }

  /** Convergence: in a run where links only come up, whenever no advertisement is
      in flight, tables hold shortest paths. */
  lemma Converged(w: Wiring, ss: seq<State>, steps: seq<Step>)
    requires w.Valid() && IsGrowingRun(w, ss, steps) && Quiet(w, ss[|steps|])
    ensures ShortestPaths(w, ss[|steps|])
  {
    GrowingRunsGrow(w, ss, steps, |steps|);
    QuietMeansConverged(w, ss[|steps|]);
  }

  // ---- Forwarding ----

  lemma ReceiveKeepsTables(w: Wiring, s: State, c: ConnId, m: Message)
    requires m.Data? || (m.Advert? && m.sender == w.Peer(c))
    ensures forall n :: TableOf(Receive(w, s, c, m), n) == TableOf(s, n)
  {
  }

  /** Only an advertisement from another node changes a table. */
  lemma OtherStepsKeepTables(w: Wiring, s: State, step: Step)
    requires Growing(w, s) && Enabled(w, s, step) && Additive(step)
    requires step.Deliver? ==> !QueueOf(s.queues, step.c)[0].Advert? || w.owner(step.c) == w.Peer(step.c)
    ensures forall n :: TableOf(Apply(w, s, step), n) == TableOf(s, n)
  {
    if step.Deliver? {
      var q := QueueOf(s.queues, step.c);
      assert MessageBacked(s, w.owner(step.c), w.Peer(step.c), q[0]);
      assert MessageOK(w, s, w.owner(step.c), q[0]);
      ReceiveKeepsTables(w, s.(queues := s.queues[step.c := q[1..]]), step.c, q[0]);
    }
  }

  lemma StepNoWorse(w: Wiring, s: State, step: Step)
    requires w.Valid() && Growing(w, s) && Enabled(w, s, step) && Additive(step)
    ensures NoWorse(s, Apply(w, s, step))
  {
    if step.Deliver? && QueueOf(s.queues, step.c)[0].Advert? && w.owner(step.c) != w.Peer(step.c) {
      AdvertKeepsBacking(w, s, step.c);
    } else {
      OtherStepsKeepTables(w, s, step);
      SameTablesNoWorse(s, Apply(w, s, step));
    }
  }

  lemma NoWorseTransitive(s0: State, s1: State, s2: State)
    requires NoWorse(s0, s1) && NoWorse(s1, s2)
    ensures NoWorse(s0, s2)
  {
  }

  lemma {:induction false} RunNoWorse(w: Wiring, ss: seq<State>, steps: seq<Step>, i: nat, j: nat)
    requires w.Valid() && IsGrowingRun(w, ss, steps) && i <= j < |ss|
    ensures NoWorse(ss[i], ss[j])
    decreases j
  {
    if i < j {
      assert NoWorse(ss[j - 1], ss[j]) by {
        GrowingRunsGrow(w, ss, steps, j - 1);
        StepNoWorse(w, ss[j - 1], steps[j - 1]);
      }
      RunNoWorse(w, ss, steps, i, j - 1);
      NoWorseTransitive(ss[i], ss[j - 1], ss[j]);
    }
  }

  /** A hop strictly lowers the best cost: if `n` forwards to `p` now, then now and
      ever after `p` is the destination or has a route that costs less. */
  lemma HopsGetCloser(w: Wiring, ss: seq<State>, steps: seq<Step>, i: nat, j: nat, n: NodeId, d: NodeId, r: Route)
    requires w.Valid() && IsGrowingRun(w, ss, steps) && i <= j < |ss|
    requires Chosen(TableOf(ss[i], n), d, r)
    ensures
      var p := w.Peer(TableOf(ss[i], n)[r]);
      p == d || (Knows(TableOf(ss[j], p), d) && RouteFor(TableOf(ss[j], p), d).cost < r.cost)
  {
    var p := w.Peer(TableOf(ss[i], n)[r]);
    GrowingRunsGrow(w, ss, steps, i);
    NextHop(w, ss[i], n, d, r);
    RunNoWorse(w, ss, steps, i, j);
    if p != d {
      var q :| q in TableOf(ss[j], p) && q.dest == d && q.cost <= r.cost - 1;
      ChosenIsCheapest(TableOf(ss[j], p), d, RouteFor(TableOf(ss[j], p), d), q.cost);
    }
  }

  /** Delivery: nothing is ever dropped, and a data message crosses at most as many
      links as its origin's chosen route had; on its way it always can go on. */
  lemma DataGetsThrough(w: Wiring, ss: seq<State>, steps: seq<Step>, i: nat)
    requires w.Valid() && IsGrowingRun(w, ss, steps) && i < |ss|
    ensures var s := ss[i];
      && s.dropped == []
      && (forall a :: a in s.arrived ==>
            a.message.Data? && a.message.dest == a.node && a.message.hops <= a.message.bound)
      && (forall c, m :: c in s.queues && m in s.queues[c] && m.Data? ==>
            m.hops <= m.bound && (w.Peer(c) == m.dest || Knows(TableOf(s, w.Peer(c)), m.dest)))
  {
    GrowingRunsGrow(w, ss, steps, i);
    var s := ss[i];
    forall c, m | c in s.queues && m in s.queues[c] && m.Data?
      ensures m.hops <= m.bound && (w.Peer(c) == m.dest || Knows(TableOf(s, w.Peer(c)), m.dest))
    {
      assert MessageBacked(s, w.owner(c), w.Peer(c), m);
    }
  }
}
