/** Message flow dies out: in a network where links only come up, no schedule of
    deliveries goes on for ever.  Each delivery either uses up a route that some
    table could still take in, or lowers the weight of what is in flight. */
module Settling {
  import opened Routes
  import opened RouteTables
  import opened RouterSpec
  import opened Loads
  import opened Network
  import opened NetworkInvariant
  import opened GrowthInvariant
  import opened Convergence

  // ---- Routes a table could still take in ----

  ghost predicate Installable(t: Table, r: Route) {
    r !in t && r in Best(t.Keys + {r})
  }

  /** Installing a route makes it, and no other route, installable never again. */
  lemma OfferUsesUp(t: Table, r: Route, c: ConnId, q: Route)
    ensures Installable(Offer(t, r, c), q) ==> Installable(t, q) && q != r
  {
    var u := Offer(t, r, c);
    OfferKeys(t, r, c);
    if Installable(u, q) {
      BestAbsorbs(t.Keys + {r}, {q});
      var all := t.Keys + {r} + {q};
      assert q in Best(all);
      assert q in t.Keys + {r} ==> all == t.Keys + {r};
      BetterMonotone(t.Keys + {q}, all, q);
    }
  }

  lemma {:induction false} LearnUsesUp(id: NodeId, t: Table, sender: NodeId, c: ConnId, routes: seq<Route>, q: Route)
    ensures var (u, news) := Learn(id, t, sender, c, routes);
      && (Installable(u, q) ==> Installable(t, q))
      && (q in news ==> Installable(t, q) && !Installable(u, q))
  {
    if routes != [] {
      var n := |routes| - 1;
      LearnUsesUp(id, t, sender, c, routes[..n], q);
      if Acceptable(id, routes[n]) {
        var (u, news) := Learn(id, t, sender, c, routes[..n]);
        var r := Extend(sender, routes[n]);
        OfferUsesUp(u, r, c, q);
        OfferKeys(u, r, c);
      }
    }
  }

  // ---- The finitely many routes there are ----

  ghost function NodesOfLinks(w: Wiring, s: State): set<NodeId> {
    (set c | c in s.ever :: w.owner(c)) + (set c | c in s.ever :: w.Peer(c))
  }

  /** All sequences of at most `k` nodes of `N`. */
  ghost function Paths(N: set<NodeId>, k: nat): set<seq<NodeId>> {
    if k == 0 then {[]}
    else Paths(N, k - 1) + set x, p | x in N && p in Paths(N, k - 1) :: [x] + p
  }

  lemma {:induction false} PathsComplete(N: set<NodeId>, k: nat, p: seq<NodeId>)
    requires |p| <= k && forall x :: x in p ==> x in N
    ensures p in Paths(N, k)
  {
    if p == [] {
      if k > 0 { PathsComplete(N, k - 1, []); }
    } else {
      PathsComplete(N, k - 1, p[1..]);
      assert p == [p[0]] + p[1..];
    }
  }

  /** A path without repetition is no longer than there are nodes. */
  lemma {:induction false} SimplePathsAreShort(N: set<NodeId>, p: seq<NodeId>)
    requires forall x :: x in p ==> x in N
    requires forall i, j :: 0 <= i < j < |p| ==> p[i] != p[j]
    ensures |p| <= |N|
  {
    if p != [] {
      var rest := p[1..];
      forall x | x in rest ensures x in N - {p[0]} {
        var i :| 0 <= i < |rest| && rest[i] == x;
        assert p[i + 1] == x;
      }
      SimplePathsAreShort(N - {p[0]}, rest);
      assert p[0] in N;
    }
  }

  ghost predicate CouldTake(t: Table, p: seq<NodeId>) {
    p != [] && Installable(t, Route(p[|p| - 1], |p|, p))
  }

  /** What the tables of the network could still take in. */
  ghost function Slack(w: Wiring, s: State): set<(NodeId, seq<NodeId>)> {
    var N := NodesOfLinks(w, s);
    set n, p | n in N && p in Paths(N, |N|) && CouldTake(TableOf(s, n), p) :: (n, p)
  }

  lemma SoundRoutesCounted(w: Wiring, s: State, n: NodeId, r: Route)
    requires RouteOK(w, s, n, r)
    ensures var N := NodesOfLinks(w, s); n in N && r.path in Paths(N, |N|)
    ensures r == Route(r.path[|r.path| - 1], |r.path|, r.path)
  {
    var N := NodesOfLinks(w, s);
    assert Linked(w, s, From(n, r.path, 0), r.path[0]);
    forall x | x in r.path ensures x in N {
      var i :| 0 <= i < |r.path| && r.path[i] == x;
      assert Linked(w, s, From(n, r.path, i), r.path[i]);
    }
    SimplePathsAreShort(N, r.path);
    PathsComplete(N, |N|, r.path);
  }

  // ---- Every delivery descends ----

  /** A data message weighs more the further it may still go. */
  function WeightOf(m: Message): nat {
    if m.Data? && m.hops <= m.bound then 1 + m.bound - m.hops else 1
  }

  ghost function Ahead(s: State): nat {
    Load(s.conns, s.queues, WeightOf)
  }

  ghost predicate Descends(w: Wiring, s: State, s': State) {
    || Slack(w, s') < Slack(w, s)
    || (Slack(w, s') == Slack(w, s) && Ahead(s') < Ahead(s))
  }

  lemma SameTablesSameSlack(w: Wiring, s: State, s': State)
    requires s'.ever == s.ever && forall n :: TableOf(s', n) == TableOf(s, n)
    ensures Slack(w, s') == Slack(w, s)
  {
  }

  /** A data message that is sent on weighs less than it did. */
  lemma RelayLoads(w: Wiring, s: State, c: ConnId, m: Message)
    requires Growing(w, s) && m.Data? && m.dest != w.Peer(c) && MessageBacked(s, w.owner(c), w.Peer(c), m)
    ensures Ahead(Receive(w, s, c, m)) < Ahead(s) + WeightOf(m)
  {
    var n := w.Peer(c);
    CanRelay(s, w.owner(c), n, m);
    RelayIs(w, s, c, m);
    var r := RouteFor(TableOf(s, n), m.dest);
    NextHop(w, s, n, m.dest, r);
    SendLoads(s.conns, s.queues, WeightOf, TableOf(s, n)[r], Data(m.dest, m.body, m.hops + 1, m.bound));
  }

  lemma DataDescends(w: Wiring, s: State, c: ConnId)
    requires Growing(w, s) && Enabled(w, s, Deliver(c)) && QueueOf(s.queues, c)[0].Data?
    ensures Descends(w, s, Apply(w, s, Deliver(c)))
  {
    var q := QueueOf(s.queues, c);
    var m, s0 := q[0], s.(queues := s.queues[c := q[1..]]);
    OtherStepsKeepTables(w, s, Deliver(c));
    SameTablesSameSlack(w, s, Apply(w, s, Deliver(c)));
    PopLightens(s.conns, s.queues, WeightOf, c);
    if m.dest != w.Peer(c) {
      PoppedDataBacked(w, s, c);
      RelayLoads(w, s0, c, m);
    }
  }

  lemma OldNewsDescends(w: Wiring, s: State, c: ConnId)
    requires Growing(w, s) && Enabled(w, s, Deliver(c)) && QueueOf(s.queues, c)[0].Advert?
    requires
      var m := QueueOf(s.queues, c)[0];
      m.sender == w.Peer(c) || Learn(w.Peer(c), TableOf(s, w.Peer(c)), m.sender, w.mirror(c), m.routes).1 == []
    ensures Descends(w, s, Apply(w, s, Deliver(c)))
  {
    var s', q, n := Apply(w, s, Deliver(c)), QueueOf(s.queues, c), w.Peer(c);
    var m, s0 := q[0], s.(queues := s.queues[c := q[1..]]);
    assert MessageOK(w, s, w.owner(c), m);
    TableKeepsOK(w, s, s, n);
    LearnOrigins(n, TableOf(s, n), m.sender, w.mirror(c), m.routes);
    SameTablesSameSlack(w, s, s');
    PopLightens(s.conns, s.queues, WeightOf, c);
    WeightlessLoads(s.conns, s0.queues, WeightOf, map[]);
  }

  lemma TakesNoMore(s: State, s': State, n: NodeId, x: NodeId, p: seq<NodeId>)
    requires forall y :: y != n ==> TableOf(s', y) == TableOf(s, y)
    requires forall q :: Installable(TableOf(s', n), q) ==> Installable(TableOf(s, n), q)
    requires CouldTake(TableOf(s', x), p)
    ensures CouldTake(TableOf(s, x), p)
  {
  }

  lemma SlackShrinks(w: Wiring, s: State, s': State, n: NodeId, p: seq<NodeId>)
    requires s'.ever == s.ever
    requires forall x, q :: CouldTake(TableOf(s', x), q) ==> CouldTake(TableOf(s, x), q)
    requires (n, p) in Slack(w, s) && !CouldTake(TableOf(s', n), p)
    ensures Slack(w, s') < Slack(w, s)
  {
    assert NodesOfLinks(w, s') == NodesOfLinks(w, s);
    assert (n, p) !in Slack(w, s');
  }

  lemma UsedUpRouteShrinksSlack(w: Wiring, s: State, s': State, n: NodeId, r: Route)
    requires s'.ever == s.ever && forall x :: x != n ==> TableOf(s', x) == TableOf(s, x)
    requires forall q :: Installable(TableOf(s', n), q) ==> Installable(TableOf(s, n), q)
    requires RouteOK(w, s, n, r) && Installable(TableOf(s, n), r) && !Installable(TableOf(s', n), r)
    ensures Slack(w, s') < Slack(w, s)
  {
    SoundRoutesCounted(w, s, n, r);
    forall x, p | CouldTake(TableOf(s', x), p) ensures CouldTake(TableOf(s, x), p) { TakesNoMore(s, s', n, x, p); }
    assert (n, r.path) in Slack(w, s) && !CouldTake(TableOf(s', n), r.path);
    SlackShrinks(w, s, s', n, r.path);
  }

  lemma NewsAreSound(w: Wiring, s: State, c: ConnId, m: Message, r: Route)
    requires w.Valid() && Growing(w, s) && w.mirror(c) in s.conns
    requires m in QueueOf(s.queues, c) && m.Advert? && m.sender != w.Peer(c)
    requires r in Learn(w.Peer(c), TableOf(s, w.Peer(c)), m.sender, w.mirror(c), m.routes).1
    ensures RouteOK(w, s, w.Peer(c), r)
  {
    var n := w.Peer(c);
    TableKeepsOK(w, s, s, n);
    LearnOrigins(n, TableOf(s, n), m.sender, w.mirror(c), m.routes);
    var q :| q in m.routes && Acceptable(n, q) && r == Extend(m.sender, q);
    assert MessageOK(w, s, w.owner(c), m);
    ExtensionIsOK(w, s, c, q);
  }

  lemma LearningTakesNoMore(id: NodeId, t: Table, sender: NodeId, c: ConnId, routes: seq<Route>)
    ensures
      var (u, news) := Learn(id, t, sender, c, routes);
      && (forall q :: Installable(u, q) ==> Installable(t, q))
      && (news != [] ==> Installable(t, news[0]) && !Installable(u, news[0]))
  {
    var (u, news) := Learn(id, t, sender, c, routes);
    forall q ensures Installable(u, q) ==> Installable(t, q) { LearnUsesUp(id, t, sender, c, routes, q); }
    if news != [] { LearnUsesUp(id, t, sender, c, routes, news[0]); }
  }

  lemma AdvertChangesOneTable(w: Wiring, s: State, c: ConnId)
    requires Enabled(w, s, Deliver(c)) && QueueOf(s.queues, c)[0].Advert? && QueueOf(s.queues, c)[0].sender != w.Peer(c)
    ensures
      var s', m, n := Apply(w, s, Deliver(c)), QueueOf(s.queues, c)[0], w.Peer(c);
      && s'.ever == s.ever
      && TableOf(s', n) == Learn(n, TableOf(s, n), m.sender, w.mirror(c), m.routes).0
      && forall x :: x != n ==> TableOf(s', x) == TableOf(s, x)
  {
  }

  lemma NewsDescends(w: Wiring, s: State, c: ConnId)
    requires w.Valid() && Growing(w, s) && Enabled(w, s, Deliver(c)) && QueueOf(s.queues, c)[0].Advert?
    requires
      var m := QueueOf(s.queues, c)[0];
      m.sender != w.Peer(c) && Learn(w.Peer(c), TableOf(s, w.Peer(c)), m.sender, w.mirror(c), m.routes).1 != []
    ensures Slack(w, Apply(w, s, Deliver(c))) < Slack(w, s)
  {
    var m, n := QueueOf(s.queues, c)[0], w.Peer(c);
    var news := Learn(n, TableOf(s, n), m.sender, w.mirror(c), m.routes).1;
    AdvertChangesOneTable(w, s, c);
    LearningTakesNoMore(n, TableOf(s, n), m.sender, w.mirror(c), m.routes);
    NewsAreSound(w, s, c, m, news[0]);
    UsedUpRouteShrinksSlack(w, s, Apply(w, s, Deliver(c)), n, news[0]);
  }

  lemma DeliveryDescends(w: Wiring, s: State, c: ConnId)
    requires w.Valid() && Growing(w, s) && Enabled(w, s, Deliver(c))
    ensures Descends(w, s, Apply(w, s, Deliver(c)))
  {
    var m, n := QueueOf(s.queues, c)[0], w.Peer(c);
    assert MessageBacked(s, w.owner(c), n, m);
    if m.Data? {
      DataDescends(w, s, c);
    } else if m.sender == n || Learn(n, TableOf(s, n), m.sender, w.mirror(c), m.routes).1 == [] {
      OldNewsDescends(w, s, c);
    } else {
      NewsDescends(w, s, c);
    }
  }

  // ---- Consequences for runs ----

  ghost predicate DeliveryStep(w: Wiring, s: State, s': State) {
    exists c :: Enabled(w, s, Deliver(c)) && s' == Apply(w, s, Deliver(c))
  }

  /** No schedule delivers for ever. */
  lemma {:induction false} DeliveriesEnd(w: Wiring, f: nat -> State, start: nat)
    requires w.Valid() && Growing(w, f(start))
    ensures exists i :: i >= start && !DeliveryStep(w, f(i), f(i + 1))
    decreases Slack(w, f(start)), Ahead(f(start))
  {
    if DeliveryStep(w, f(start), f(start + 1)) {
      var c :| Enabled(w, f(start), Deliver(c)) && f(start + 1) == Apply(w, f(start), Deliver(c));
      DeliverKeepsGrowing(w, f(start), c);
      DeliveryDescends(w, f(start), c);
      DeliveriesEnd(w, f, start + 1);
    }
  }

  lemma ExtendRun(w: Wiring, ss: seq<State>, steps: seq<Step>, step: Step)
    requires IsGrowingRun(w, ss, steps) && Enabled(w, ss[|steps|], step) && Additive(step)
    ensures IsGrowingRun(w, ss + [Apply(w, ss[|steps|], step)], steps + [step])
  {
  }

  /** From any state of such a run, deliveries alone lead to one in which nothing
      more can be delivered; if both ends of every link are up, tables are then
      shortest-path tables. */
  lemma {:induction false} Settle(w: Wiring, ss: seq<State>, steps: seq<Step>)
    returns (more: seq<State>, deliveries: seq<Step>)
    requires w.Valid() && IsGrowingRun(w, ss, steps)
    ensures IsGrowingRun(w, more, deliveries)
    ensures ss <= more && steps <= deliveries && forall i :: |steps| <= i < |deliveries| ==> deliveries[i].Deliver?
    ensures forall c :: !Enabled(w, more[|deliveries|], Deliver(c))
    ensures more[|deliveries|].conns == ss[|steps|].conns
    decreases Slack(w, ss[|steps|]), Ahead(ss[|steps|])
  {
    var s := ss[|steps|];
    if c :| Enabled(w, s, Deliver(c)) {
      var s' := Apply(w, s, Deliver(c));
      assert Growing(w, s) by { GrowingRunsGrow(w, ss, steps, |steps|); }
      DeliveryDescends(w, s, c);
      DeliveryKeepsConns(w, s, c);
      ExtendRun(w, ss, steps, Deliver(c));
      more, deliveries := Settle(w, ss + [s'], steps + [Deliver(c)]);
    } else {
      more, deliveries := ss, steps;
    }
  }

  lemma DeliveryKeepsConns(w: Wiring, s: State, c: ConnId)
    requires Enabled(w, s, Deliver(c))
    ensures Apply(w, s, Deliver(c)).conns == s.conns
  {
  }

  lemma SettledIsQuiet(w: Wiring, s: State)
    requires w.Valid() && Growing(w, s)
    requires forall c :: !Enabled(w, s, Deliver(c))
    requires forall c :: c in s.conns ==> w.mirror(c) in s.conns
    ensures Quiet(w, s)
  {
    forall c | c in s.conns ensures QueueOf(s.queues, c) == [] { assert !Enabled(w, s, Deliver(c)); }
  }

  /** Every network of links converges: whatever has happened while links came up,
      delivering what is in flight ends, and ends in shortest paths. */
  lemma EveryNetworkConverges(w: Wiring, ss: seq<State>, steps: seq<Step>)
    returns (more: seq<State>, deliveries: seq<Step>)
    requires w.Valid() && IsGrowingRun(w, ss, steps)
    requires forall c :: c in ss[|steps|].conns ==> w.mirror(c) in ss[|steps|].conns
    ensures IsGrowingRun(w, more, deliveries)
    ensures ss <= more && steps <= deliveries && forall i :: |steps| <= i < |deliveries| ==> deliveries[i].Deliver?
    ensures more[|deliveries|].conns == ss[|steps|].conns && forall c :: !Enabled(w, more[|deliveries|], Deliver(c))
    ensures ShortestPaths(w, more[|deliveries|])
  {
    more, deliveries := Settle(w, ss, steps);
    GrowingRunsGrow(w, more, deliveries, |deliveries|);
    SettledIsQuiet(w, more[|deliveries|]);
    QuietMeansConverged(w, more[|deliveries|]);
  }
}
