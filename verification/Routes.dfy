/** Routes, the order of the route table's key, and the three best routes of a
    destination.  Everything said about the table later is said with these. */
module Routes {

  type NodeId = nat
  type ConnId = nat

  /** `cost` counts the links of `path`, whose last element is `dest`. */
  datatype Route = Route(dest: NodeId, cost: nat, path: seq<NodeId>)

  /** kDestRouteLimit */
  const ROUTE_LIMIT := 3

  /** The order `std::vector` gives to two paths. */
  predicate PathLess(a: seq<NodeId>, b: seq<NodeId>) {
    if b == [] then false
    else if a == [] then true
    else a[0] < b[0] || (a[0] == b[0] && PathLess(a[1..], b[1..]))
  }

  /** `a` is less at index `k`, its end or the first place where it differs from `b`. */
  predicate LessAt(a: seq<NodeId>, b: seq<NodeId>, k: nat) {
    k <= |a| && k < |b| && a[..k] == b[..k] && (k == |a| || a[k] < b[k])
  }

  /** Paths are compared node by node from the first on, a beginning being less. */
  lemma {:induction false} PathLessAtFirstDifference(a: seq<NodeId>, b: seq<NodeId>)
    ensures PathLess(a, b) <==> exists k: nat :: LessAt(a, b, k)
  {
    if a == [] || b == [] {
      assert b != [] && a == [] ==> LessAt(a, b, 0);
    } else {
      var x, y := a[1..], b[1..];
      PathLessAtFirstDifference(x, y);
      if a[0] < b[0] { assert LessAt(a, b, 0); }
      if k: nat :| a[0] == b[0] && LessAt(x, y, k) { LessOneFurther(a, b, k); }
      if k: nat :| LessAt(a, b, k) && k > 0 {
        assert a[0] == a[..k][0] == b[..k][0] == b[0];
        LessOneFurther(a, b, k - 1);
      }
    }
  }

  lemma LessOneFurther(a: seq<NodeId>, b: seq<NodeId>, k: nat)
    requires a != [] && b != [] && a[0] == b[0]
    ensures LessAt(a[1..], b[1..], k) <==> LessAt(a, b, k + 1)
  {
    if k <= |a[1..]| && k <= |b[1..]| {
      assert a[..k + 1] == [a[0]] + a[1..][..k] && b[..k + 1] == [b[0]] + b[1..][..k];
      assert a[..k + 1][1..] == a[1..][..k] && b[..k + 1][1..] == b[1..][..k];
    }
  }

  lemma LessAtDecides(a: seq<NodeId>, b: seq<NodeId>, j: nat, k: nat)
    requires LessAt(a, b, j) && k < |a| && k < |b| && a[..k] == b[..k]
    ensures a[k] <= b[k]
  {
    assert forall i :: 0 <= i < k ==> a[i] == a[..k][i] && b[i] == b[..k][i];
    assert forall i :: 0 <= i < j ==> a[i] == a[..j][i] && b[i] == b[..j][i];
  }

  /** The composite key of the route table: destination, then cost, then path. */
  predicate Before(r: Route, s: Route) {
    || r.dest < s.dest
    || (r.dest == s.dest && (r.cost < s.cost || (r.cost == s.cost && PathLess(r.path, s.path))))
  }

  lemma {:induction false} PathLessStrict(a: seq<NodeId>, b: seq<NodeId>)
    ensures !PathLess(a, a)
    ensures a != b ==> PathLess(a, b) != PathLess(b, a)
  {
    if a != [] { PathLessStrict(a[1..], a[1..]); }
    if a != [] && b != [] {
      PathLessStrict(a[1..], b[1..]);
      assert a == [a[0]] + a[1..] && b == [b[0]] + b[1..];
    }
  }

  lemma {:induction false} PathLessTransitive(a: seq<NodeId>, b: seq<NodeId>, c: seq<NodeId>)
    requires PathLess(a, b) && PathLess(b, c)
    ensures PathLess(a, c)
  {
    if a != [] && a[0] == b[0] && b[0] == c[0] { PathLessTransitive(a[1..], b[1..], c[1..]); }
  }

  lemma BeforeTotal(r: Route, s: Route)
    ensures !Before(r, r)
    ensures r != s ==> Before(r, s) != Before(s, r)
  {
    PathLessStrict(r.path, s.path);
    PathLessStrict(r.path, r.path);
  }

  lemma BeforeTransitive(r: Route, s: Route, t: Route)
    requires Before(r, s) && Before(s, t)
    ensures Before(r, t)
  {
    if r.dest == s.dest == t.dest && r.cost == s.cost == t.cost {
      PathLessTransitive(r.path, s.path, t.path);
    }
  }

  // ---- Rank and the three best ----

  /** The routes of `S` to the same destination that come before `r`. */
  ghost function Better(S: set<Route>, r: Route): set<Route> {
    set s | s in S && s.dest == r.dest && Before(s, r)
  }

  /** At each destination, the least `ROUTE_LIMIT` routes of `S`. */
  ghost function Best(S: set<Route>): set<Route> {
    set r | r in S && |Better(S, r)| < ROUTE_LIMIT
  }

  lemma SubsetSize<T>(A: set<T>, B: set<T>)
    requires A <= B
    ensures |A| <= |B|
    ensures A != B ==> |A| < |B|
  {
    assert B == A + (B - A);
    if A != B {
      var x :| x in B - A;
      assert |B - A| > 0;
    }
  }

  lemma BetterMonotone(A: set<Route>, B: set<Route>, r: Route)
    requires A <= B
    ensures Better(A, r) <= Better(B, r)
    ensures |Better(A, r)| <= |Better(B, r)|
  {
    SubsetSize(Better(A, r), Better(B, r));
  }

  lemma BetterNested(S: set<Route>, q: Route, r: Route)
    requires q in Better(S, r)
    ensures Better(S, q) < Better(S, r)
    ensures |Better(S, q)| < |Better(S, r)|
  {
    forall s | s in Better(S, q) ensures s in Better(S, r) { BeforeTransitive(s, q, r); }
    BeforeTotal(q, q);
    assert q !in Better(S, q);
    SubsetSize(Better(S, q), Better(S, r));
  }

  /** A route outranked by three others is outranked by three that are kept. */
  lemma {:induction false} OutrankedByBest(S: set<Route>, r: Route)
    requires |Better(S, r)| >= ROUTE_LIMIT
    ensures |Better(Best(S), r)| >= ROUTE_LIMIT
    decreases |Better(S, r)|
  {
    if q :| q in Better(S, r) && q !in Best(S) {
      BetterNested(S, q, r);
      OutrankedByBest(S, q);
      forall s | s in Better(Best(S), q) ensures s in Better(Best(S), r) { BeforeTransitive(s, q, r); }
      SubsetSize(Better(Best(S), q), Better(Best(S), r));
    } else {
      assert Better(Best(S), r) == Better(S, r);
    }
  }

  /** Forgetting all but the three best early does not change the three best of
      what is seen later. */
  lemma BestAbsorbs(A: set<Route>, B: set<Route>)
    ensures Best(Best(A) + B) == Best(A + B)
  {
    var small, all := Best(A) + B, A + B;
    forall r ensures r in Best(small) <==> r in Best(all) {
      BetterMonotone(small, all, r);
      if r in Best(all) {
        if r in A { BetterMonotone(A, all, r); }
      } else if r in Best(small) {
        // some route that outranks r was forgotten, so three that outrank it were kept
        assert Better(small, r) != Better(all, r);
        var q :| q in Better(all, r) && q !in Better(small, r);
        assert q in A && q !in Best(A);
        OutrankedByBest(A, q);
        forall s | s in Better(Best(A), q) ensures s in Better(small, r) { BeforeTransitive(s, q, r); }
        SubsetSize(Better(Best(A), q), Better(small, r));
        assert false;
      }
    }
  }

  lemma BestIdempotent(S: set<Route>)
    ensures Best(Best(S)) == Best(S)
  {
    BestAbsorbs(S, {});
    assert Best(S) + {} == Best(S) && S + {} == S;
  }

  /** Nothing is lost as far as the least cost goes. */
  lemma BestKeepsCost(S: set<Route>, r: Route) returns (s: Route)
    requires r in S
    ensures s in Best(S) && s.dest == r.dest && s.cost <= r.cost
  {
    if r in Best(S) { return r; }
    OutrankedByBest(S, r);
    s :| s in Better(Best(S), r);
  }

  lemma BestIsSmall(S: set<Route>, d: NodeId)
    ensures |set r | r in Best(S) && r.dest == d| <= ROUTE_LIMIT
  {
    var K := set r | r in Best(S) && r.dest == d;
    if K != {} {
      var m := Last(K, d);
      BetterMonotone(Best(S), S, m);
      assert K == Better(K, m) + {m};
      assert Better(K, m) <= Better(Best(S), m);
      SubsetSize(Better(K, m), Better(Best(S), m));
    }
  }

  /** The last route of a non-empty set of routes to one destination. */
  lemma {:induction false} Last(K: set<Route>, d: NodeId) returns (m: Route)
    requires K != {} && forall r | r in K :: r.dest == d
    ensures m in K && forall r | r in K :: r == m || Before(r, m)
  {
    m :| m in K;
    if K != {m} {
      var n := Last(K - {m}, d);
      BeforeTotal(m, n);
      if Before(m, n) {
        m := n;
      } else {
        forall r | r in K && r != m ensures Before(r, m) { if r != n { BeforeTransitive(r, n, m); } }
      }
    }
  }
}
