/** Why the rank arithmetic of the route table computes the three best routes. */
module RouterLemmas {
  import opened Routes
  import opened RouteTables
  import opened RouterSpec
  import opened RouteIndex

  lemma BlockKnows(t: seq<Entry>, d: NodeId, lo: nat, hi: nat)
    requires Sorted(t) && RankOf(t, d, lo) && RankOf(t, d + 1, hi)
    ensures lo <= hi && (lo == hi <==> !Knows(Abs(t), d))
  {
    var atHi := if hi < |t| then t[hi].route.dest else d;
    if lo < hi {
      assert t[lo] in t && t[lo].route.dest == d;
    }
  }

  lemma OfferAsInsert(t: Table, r: Route, c: ConnId)
    requires r !in t && Best(t.Keys + {r}) == t.Keys + {r}
    ensures Offer(t, r, c) == t[r := c]
  {
    assert t[r := c].Keys == t.Keys + {r};
  }

  lemma OfferAsCut(t: Table, r: Route, c: ConnId, worst: Route)
    requires r !in t && Best(t.Keys + {r}) == t.Keys + {r} - {worst}
    ensures Offer(t, r, c) == t[r := c] - {worst}
  {
    assert t[r := c].Keys == t.Keys + {r};
  }

  lemma FitsItsBlock(t: seq<Entry>, p: nat, r: Route, lo: nat, hi: nat)
    requires Fits(t, p, r) && RankOf(t, r.dest, lo) && RankOf(t, r.dest + 1, hi)
    ensures lo <= p <= hi
  {
    var atP := if p < |t| then t[p].route.dest else r.dest;
    var atHi := if hi < |t| then t[hi].route.dest else r.dest;
  }

  /** After an insertion the only entry that can be over the limit is the last of
      the new entry's block, and it is so exactly when the block was full. */
  lemma LimitAfterInsert(t: seq<Entry>, p: nat, e: Entry, lo: nat, hi: nat)
    requires lo <= p <= hi && RankOf(t, e.route.dest, lo) && RankOf(t, e.route.dest + 1, hi)
    requires forall i :: 0 <= i < |t| ==> !OverLimit(t, i)
    ensures hi <= lo + ROUTE_LIMIT
    ensures forall k :: 0 <= k <= |t| ==> (OverLimit(Insert(t, p, e), k) <==> k == hi == lo + ROUTE_LIMIT)
  {
    var u := Insert(t, p, e);
    if hi > lo + ROUTE_LIMIT { assert OverLimit(t, lo + ROUTE_LIMIT); }
    forall k | 0 <= k <= |t| ensures OverLimit(u, k) <==> k == hi == lo + ROUTE_LIMIT {
      var j := k - ROUTE_LIMIT;
      assert u[k] == if k < p then t[k] else if k == p then e else t[k - 1];
      if j >= 0 {
        assert u[j] == if j < p then t[j] else if j == p then e else t[j - 1];
        if k < lo { assert !OverLimit(t, k); }
        if hi < j { assert !OverLimit(t, k - 1); }
      }
    }
  }

  /** Offering an absent route to a destination with room. */
  lemma InsertWithRoom(t: seq<Entry>, p: nat, e: Entry, lo: nat, hi: nat)
    requires Sorted(t) && Trimmed(Abs(t)) && Fits(t, p, e.route)
    requires RankOf(t, e.route.dest, lo) && RankOf(t, e.route.dest + 1, hi) && hi - lo != ROUTE_LIMIT
    ensures Sorted(Insert(t, p, e))
    ensures Abs(Insert(t, p, e)) == Offer(Abs(t), e.route, e.conn)
    ensures e.route in Abs(Insert(t, p, e))
    ensures forall f :: f in Insert(t, p, e) ==> f == e || f in t
  {
    var u := Insert(t, p, e);
    InsertAbs(t, p, e);
    TrimmedIsWithinLimit(t);
    FitsItsBlock(t, p, e.route, lo, hi);
    LimitAfterInsert(t, p, e, lo, hi);
    WithinLimitIsTrimmed(u);
    assert Keys(u) == Abs(u).Keys == Abs(t).Keys + {e.route};
    OfferAsInsert(Abs(t), e.route, e.conn);
  }

  /** Offering an absent route to a full destination: the last of the four goes. */
  lemma InsertAndCut(t: seq<Entry>, p: nat, e: Entry, lo: nat, hi: nat)
    requires Sorted(t) && Trimmed(Abs(t)) && Fits(t, p, e.route)
    requires RankOf(t, e.route.dest, lo) && RankOf(t, e.route.dest + 1, hi) && hi - lo == ROUTE_LIMIT
    ensures p <= hi && Sorted(Erase(Insert(t, p, e), hi))
    ensures Abs(Erase(Insert(t, p, e), hi)) == Offer(Abs(t), e.route, e.conn)
    ensures e.route in Abs(Erase(Insert(t, p, e), hi)) <==> p < hi
    ensures forall f :: f in Erase(Insert(t, p, e), hi) ==> f == e || f in t
  {
    var u := Insert(t, p, e);
    InsertAbs(t, p, e);
    FitsItsBlock(t, p, e.route, lo, hi);
    assert Best(Keys(u)) == Keys(u) - {u[hi].route} by {
      TrimmedIsWithinLimit(t);
      LimitAfterInsert(t, p, e, lo, hi);
      CutOverLimit(u, hi);
    }
    assert Keys(u) == Abs(u).Keys == Abs(t).Keys + {e.route};
    OfferAsCut(Abs(t), e.route, e.conn, u[hi].route);
    EraseAbs(u, hi);
    assert u[p].route == e.route;
    if p < hi { DistinctRoutes(u, p, hi); }
  }

  lemma BumpIsOffer(t: seq<Entry>, p: nat, e: Entry, lo: nat, hi: nat, u: seq<Entry>)
    requires Sorted(t) && Trimmed(Abs(t)) && Fits(t, p, e.route)
    requires RankOf(t, e.route.dest, lo) && RankOf(t, e.route.dest + 1, hi) && hi - lo == ROUTE_LIMIT
    requires u == Erase(Insert(t, p, e), hi)
    ensures Sorted(u) && Abs(u) == Offer(Abs(t), e.route, e.conn)
    ensures e.route in Abs(u) <==> p < hi
    ensures forall f :: f in u ==> f == e || f in t
  {
    InsertAndCut(t, p, e, lo, hi);
  }

  lemma RefuseKnown(t: seq<Entry>, r: Route, c: ConnId)
    requires Sorted(t) && Trimmed(Abs(t)) && r in Abs(t)
    ensures Abs(t) == Offer(Abs(t), r, c)
    ensures Knows(Abs(t), r.dest)
  {
    RefusalChangesNothing(Abs(t), r, c);
  }

  lemma OfferKeepsLedger(log: seq<Event>, t: Table, r: Route, c: ConnId)
    requires Trimmed(t) && Ledger(log, Dests(t))
    ensures Trimmed(Offer(t, r, c))
    ensures Knows(t, r.dest) ==> Ledger(log, Dests(Offer(t, r, c)))
    ensures !Knows(t, r.dest) ==> r in Offer(t, r, c) && Ledger(log + [Reachable(r.dest)], Dests(Offer(t, r, c)))
  {
    OfferKeys(t, r, c);
    OfferDests(t, r, c);
    if Knows(t, r.dest) {
      assert Dests(t) + {r.dest} == Dests(t);
    } else {
      LedgerGain(log, Dests(t), r.dest);
      assert Better(t.Keys + {r}, r) == {} by { BeforeTotal(r, r); }
    }
  }

  lemma OfferDests(t: Table, r: Route, c: ConnId)
    requires Trimmed(t)
    ensures Dests(Offer(t, r, c)) == Dests(t) + {r.dest}
  {
    var u := Offer(t, r, c);
    OfferKeys(t, r, c);
    OfferTouchesOnlyItsDestination(t, r, c);
    forall d | d in Dests(t) + {r.dest} ensures d in Dests(u) {
      var q :| q in t.Keys + {r} && q.dest == d;
      var s := BestKeepsCost(t.Keys + {r}, q);
      assert s in u;
    }
  }

  lemma SubsetStaysTrimmed(t: Table, u: Table)
    requires Trimmed(t) && u.Keys <= t.Keys
    ensures Trimmed(u)
  {
    forall r | r in u ensures r in Best(u.Keys) {
      assert r in Best(t.Keys);
      BetterMonotone(u.Keys, t.Keys, r);
    }
  }

  /** Losing entries, with one event for each destination that had no other. */
  lemma LossKeepsLedger(log: seq<Event>, t: Table, u: Table, lost: seq<NodeId>)
    requires Ledger(log, Dests(t)) && Trimmed(t) && u.Keys <= t.Keys
    requires Ascending(lost) && NodesOf(lost) == Dests(t) - Dests(u)
    ensures Trimmed(u) && Ledger(log + Losses(lost), Dests(u))
  {
    SubsetStaysTrimmed(t, u);
    assert Dests(u) <= Dests(t) by {
      forall d | d in Dests(u) ensures d in Dests(t) { var r :| r in u && r.dest == d; assert r in t; }
    }
    LedgerLose(log, Dests(t), lost);
    assert Dests(t) - NodesOf(lost) == Dests(u);
  }

  lemma PushNothing(q: Queues)
    ensures Push(q, map[]) == q
  {
    var none: Outbox := map[];
    assert Push(q, none).Keys == q.Keys;
    forall c | c in q ensures Push(q, none)[c] == q[c] { PushedQueue(q, none, c); }
  }

  lemma PushOneMore(q: Queues, targets: set<ConnId>, m: Message, c: ConnId)
    requires c !in targets
    ensures var p := Push(q, ToAll(targets, m));
      p[c := QueueOf(p, c) + [m]] == Push(q, ToAll(targets + {c}, m))
  {
    var p := Push(q, ToAll(targets, m));
    var w := Push(q, ToAll(targets + {c}, m));
    assert p[c := QueueOf(p, c) + [m]].Keys == w.Keys;
    forall x | x in w ensures w[x] == p[c := QueueOf(p, c) + [m]][x] { PushedQueue(q, ToAll(targets, m), x); }
  }

  lemma PushToOne(q: Queues, c: ConnId, m: Message)
    ensures Push(q, map[c := m]) == q[c := QueueOf(q, c) + [m]]
  {
    var p := Push(q, map[c := m]);
    assert p.Keys == q.Keys + {c};
    forall x | x in p ensures p[x] == q[c := QueueOf(q, c) + [m]][x] { PushedQueue(q, map[c := m], x); }
  }

  lemma LearnOneMore(id: NodeId, t: Table, sender: NodeId, c: ConnId, routes: seq<Route>, i: nat)
    requires i < |routes|
    ensures Learn(id, t, sender, c, routes[..i + 1]) ==
      var (u, news) := Learn(id, t, sender, c, routes[..i]);
      if !Acceptable(id, routes[i]) then (u, news)
      else
        var r := Extend(sender, routes[i]);
        var v := Offer(u, r, c);
        (v, if r !in u && r in v then news + [r] else news)
  {
    assert routes[..i + 1][..i] == routes[..i];
  }

  lemma ImagesOneMore(id: NodeId, sender: NodeId, routes: seq<Route>, i: nat)
    requires i < |routes|
    ensures Images(id, sender, routes[..i + 1]) ==
      Images(id, sender, routes[..i]) + if Acceptable(id, routes[i]) then [Extend(sender, routes[i])] else []
  {
    assert routes[..i + 1][..i] == routes[..i];
  }

  lemma HeadIsFirst(t: seq<Entry>, d: NodeId, p: nat, r: Route)
    requires Sorted(t) && RankOf(t, d, p) && r in Abs(t) && r.dest == d
    ensures p < |t| && t[p].route.dest == d && (r == t[p].route || Before(t[p].route, r))
  {
    var i := EntryOf(t, r);
    if p < i { SortedPair(t, p, i); }
  }

  /** The head of a destination's block is the route `forward` takes. */
  lemma HeadOfBlock(t: seq<Entry>, d: NodeId, p: nat)
    requires Sorted(t) && RankOf(t, d, p)
    ensures Knows(Abs(t), d) <==> p < |t| && t[p].route.dest == d
    ensures Knows(Abs(t), d) ==> Chosen(Abs(t), d, t[p].route) && Abs(t)[t[p].route] == t[p].conn
  {
    forall r | r in Abs(t) && r.dest == d
      ensures p < |t| && t[p].route.dest == d && (r == t[p].route || Before(t[p].route, r))
    {
      HeadIsFirst(t, d, p, r);
    }
    if p < |t| && t[p].route.dest == d { assert t[p] in t; }
  }

  // ---- Erasing entries ----

  ghost function DestsOf(S: set<Route>): set<NodeId> {
    set r | r in S :: r.dest
  }

  /** `now` is `was` without the routes `gone`; `affected` names their destinations. */
  ghost predicate Erased(was: seq<Entry>, now: seq<Entry>, gone: set<Route>, affected: seq<NodeId>)
    requires Sorted(was)
  {
    && Sorted(now)
    && Abs(now) == Abs(was) - gone
    && (forall e :: e in now ==> e in was)
    && NodesOf(affected) == DestsOf(gone * Abs(was).Keys)
  }

  lemma MembersGrow(routes: seq<Route>, r: Route)
    ensures Members(routes + [r]) == Members(routes) + {r}
  {
  }

  lemma EraseNothing(was: seq<Entry>)
    requires Sorted(was)
    ensures Erased(was, was, {}, [])
  {
    assert Abs(was) - {} == Abs(was);
    assert {} * Abs(was).Keys == {};
  }

  lemma SkipAbsent(was: seq<Entry>, now: seq<Entry>, gone: set<Route>, affected: seq<NodeId>, r: Route)
    requires Sorted(was) && Erased(was, now, gone, affected) && r !in Abs(now)
    ensures Erased(was, now, gone + {r}, affected)
    ensures (gone + {r} !! Abs(was).Keys) == (gone !! Abs(was).Keys)
  {
    assert (gone + {r}) * Abs(was).Keys == gone * Abs(was).Keys;
    assert Abs(was) - (gone + {r}) == Abs(was) - gone;
  }

  lemma ErasePresent(was: seq<Entry>, now: seq<Entry>, gone: set<Route>, affected: seq<NodeId>, p: nat)
    requires Sorted(was) && Erased(was, now, gone, affected) && p < |now|
    ensures var r := now[p].route;
      r in Abs(was) && Erased(was, Erase(now, p), gone + {r}, affected + [r.dest])
  {
    var r := now[p].route;
    assert now[p] in now && now[p] in was;
    EraseAbs(now, p);
    assert (gone + {r}) * Abs(was).Keys == gone * Abs(was).Keys + {r};
    assert Abs(was) - (gone + {r}) == Abs(was) - gone - {r};
    assert NodesOf(affected + [r.dest]) == NodesOf(affected) + {r.dest};
    assert DestsOf(gone * Abs(was).Keys + {r}) == DestsOf(gone * Abs(was).Keys) + {r.dest};
  }

  /** From `was` to `now` routes only went, and all destinations lost are among the affected. */
  ghost predicate Affects(was: Table, now: Table, affected: seq<NodeId>) {
    now.Keys <= was.Keys && Dests(was) - Dests(now) <= NodesOf(affected) <= Dests(was)
  }

  /** Only the destinations of erased entries can have lost their last entry. */
  lemma AffectedCoversLosses(was: seq<Entry>, now: seq<Entry>, gone: set<Route>, affected: seq<NodeId>)
    requires Sorted(was) && Erased(was, now, gone, affected)
    ensures Affects(Abs(was), Abs(now), affected)
  {
    forall d | d in Dests(Abs(was)) - Dests(Abs(now)) ensures d in NodesOf(affected) {
      var r :| r in Abs(was) && r.dest == d;
      assert r !in Abs(now);
      assert r in gone * Abs(was).Keys;
    }
  }

  // ---- The entries of a connection ----

  function RoutesOf(t: seq<Entry>): (routes: seq<Route>)
    ensures |routes| == |t| && forall i :: 0 <= i < |t| ==> routes[i] == t[i].route
  {
    seq(|t|, i requires 0 <= i < |t| => t[i].route)
  }

  lemma RoutesOfLists(t: seq<Entry>)
    requires Sorted(t)
    ensures Lists(RoutesOf(t), Abs(t).Keys)
  {
    var routes := RoutesOf(t);
    forall i, j | 0 <= i < j < |routes| ensures routes[i] != routes[j] { DistinctRoutes(t, i, j); }
    forall r | r in Abs(t) ensures r in Members(routes) {
      var e :| e in t && e.route == r;
      var i :| 0 <= i < |t| && t[i] == e;
      assert routes[i] == r;
    }
    forall r | r in Members(routes) ensures r in Abs(t) {
      var i :| 0 <= i < |routes| && routes[i] == r;
      assert t[i] in t;
    }
  }

  function Through(t: seq<Entry>, c: ConnId): seq<Entry> {
    if t == [] then []
    else
      var n := |t| - 1;
      Through(t[..n], c) + if t[n].conn == c then [t[n]] else []
  }

  function Others(t: seq<Entry>, c: ConnId): seq<Entry> {
    if t == [] then []
    else
      var n := |t| - 1;
      Others(t[..n], c) + if t[n].conn != c then [t[n]] else []
  }

  lemma {:induction false} FilterMembers(t: seq<Entry>, c: ConnId)
    ensures forall e :: e in Through(t, c) <==> e in t && e.conn == c
    ensures forall e :: e in Others(t, c) <==> e in t && e.conn != c
  {
    if t != [] {
      var n := |t| - 1;
      FilterMembers(t[..n], c);
      assert t == t[..n] + [t[n]];
    }
  }

  lemma AppendAscends(a: seq<Entry>, x: Entry)
    requires Ascends(a) && forall e :: e in a ==> Before(e.route, x.route)
    ensures Ascends(a + [x])
  {
    assert forall i :: 0 <= i < |a| ==> a[i] in a;
  }

  lemma {:induction false} FilterAscends(t: seq<Entry>, c: ConnId)
    requires Ascends(t)
    ensures Ascends(Through(t, c)) && Ascends(Others(t, c))
  {
    if t != [] {
      var n := |t| - 1;
      FilterAscends(t[..n], c);
      FilterMembers(t[..n], c);
      forall e | e in t[..n] ensures Before(e.route, t[n].route) { var i :| 0 <= i < n && t[i] == e; }
      if t[n].conn == c {
        AppendAscends(Through(t[..n], c), t[n]);
      } else {
        AppendAscends(Others(t[..n], c), t[n]);
      }
    }
  }

  lemma ThroughLists(t: seq<Entry>, c: ConnId)
    requires Sorted(t)
    ensures Lists(RoutesOf(Through(t, c)), LearnedOn(Abs(t), c))
  {
    var a := Through(t, c);
    FilterMembers(t, c);
    assert Sorted(a) by {
      SortedIsAscending(t);
      FilterAscends(t, c);
      SortedIsAscending(a);
    }
    RoutesOfLists(a);
    forall r ensures r in Keys(a) <==> r in LearnedOn(Abs(t), c) {
      if r in Keys(a) { var e :| e in a && e.route == r; assert e in t; }
      if r in LearnedOn(Abs(t), c) { var e :| e in t && e.route == r; assert e in a; }
    }
  }

  lemma OthersAbs(t: seq<Entry>, c: ConnId)
    requires Sorted(t)
    ensures Sorted(Others(t, c)) && Abs(Others(t, c)) == Abs(t) - LearnedOn(Abs(t), c)
    ensures forall e :: e in Others(t, c) ==> e in t && e.conn != c
  {
    var b := Others(t, c);
    FilterMembers(t, c);
    assert Sorted(b) by {
      SortedIsAscending(t);
      FilterAscends(t, c);
      SortedIsAscending(b);
    }
    forall r ensures r in Keys(b) <==> r in Abs(t) && r !in LearnedOn(Abs(t), c) {
      if r in Keys(b) { var e :| e in b && e.route == r; assert e in t; }
      if r in Abs(t) && r !in LearnedOn(Abs(t), c) { var e :| e in t && e.route == r; assert e in b; }
    }
  }

  lemma LearnedCoversLosses(t: Table, c: ConnId)
    ensures Dests(t) - Dests(t - LearnedOn(t, c)) <= DestsOf(LearnedOn(t, c)) <= Dests(t)
    ensures forall ds :: NodesOf(ds) == DestsOf(LearnedOn(t, c)) ==> Affects(t, t - LearnedOn(t, c), ds)
  {
    var u := t - LearnedOn(t, c);
    forall d | d in Dests(t) - Dests(u) ensures d in DestsOf(LearnedOn(t, c)) {
      var r :| r in t && r.dest == d;
      assert r !in u;
    }
  }

  lemma EntriesNeedConnections(t: seq<Entry>, cs: seq<ConnId>)
    requires forall e :: e in t ==> e.conn in cs
    ensures t == [] || cs != []
  {
    if t != [] { assert t[0] in t; }
  }

  function DestsInOrder(routes: seq<Route>): (ds: seq<NodeId>)
    ensures |ds| == |routes| && forall i :: 0 <= i < |ds| ==> ds[i] == routes[i].dest
  {
    seq(|routes|, i requires 0 <= i < |routes| => routes[i].dest)
  }

  lemma ListedDests(routes: seq<Route>, S: set<Route>)
    requires Lists(routes, S)
    ensures NodesOf(DestsInOrder(routes)) == DestsOf(S)
  {
    var ds := DestsInOrder(routes);
    forall d | d in NodesOf(ds) ensures d in DestsOf(S) {
      var i :| 0 <= i < |ds| && ds[i] == d;
      assert routes[i] in Members(routes);
    }
    forall d | d in DestsOf(S) ensures d in NodesOf(ds) {
      var r :| r in S && r.dest == d;
      assert r in Members(routes);
      var i :| 0 <= i < |routes| && routes[i] == r;
      assert ds[i] == d;
    }
  }

  // ---- The affected destinations, as a set ----

  /** `std::sort` followed by `std::unique`. */
  method SortUnique(xs: seq<NodeId>) returns (ys: seq<NodeId>)
    ensures Ascending(ys) && NodesOf(ys) == NodesOf(xs)
  {
    ys := [];
    var i := 0;
    while i < |xs|
      invariant i <= |xs| && Ascending(ys) && NodesOf(ys) == NodesOf(xs[..i])
    {
      ghost var before := ys;
      var p := 0;
      while p < |ys| && ys[p] < xs[i]
        invariant p <= |ys| && forall k :: 0 <= k < p ==> ys[k] < xs[i]
      {
        p := p + 1;
      }
      if p == |ys| || ys[p] != xs[i] {
        ys := ys[..p] + [xs[i]] + ys[p..];
        assert before == before[..p] + before[p..];
      }
      assert NodesOf(ys) == NodesOf(before) + {xs[i]};
      assert xs[..i + 1] == xs[..i] + [xs[i]];
      i := i + 1;
    }
    assert xs[..i] == xs;
  }
}
