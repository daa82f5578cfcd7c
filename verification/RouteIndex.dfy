/** The route table as the router stores it, entries in ascending key order, and
    why the arithmetic on ranks computes the three best routes. */
module RouteIndex {
  import opened Routes
  import opened RouteTables

  datatype Entry = Entry(route: Route, conn: ConnId)

  ghost predicate Sorted(t: seq<Entry>) {
    var n := |t|;
    n < 2 || (Before(t[n - 2].route, t[n - 1].route) && Sorted(t[..n - 1]))
  }

  ghost predicate Ascends(t: seq<Entry>) {
    forall i, j :: 0 <= i < j < |t| ==> Before(t[i].route, t[j].route)
  }

  lemma {:induction false} SortedIsAscending(t: seq<Entry>)
    ensures Sorted(t) <==> Ascends(t)
  {
    var n := |t|;
    if n >= 2 {
      SortedIsAscending(t[..n - 1]);
      if Sorted(t) {
        forall i | 0 <= i < n - 1 ensures Before(t[i].route, t[n - 1].route) {
          if i < n - 2 {
            assert Before(t[..n - 1][i].route, t[..n - 1][n - 2].route);
            BeforeTransitive(t[i].route, t[n - 2].route, t[n - 1].route);
          }
        }
      }
    }
  }

  lemma SortedPair(t: seq<Entry>, i: nat, j: nat)
    requires Sorted(t) && i < |t| && j < |t|
    ensures i < j ==> Before(t[i].route, t[j].route)
  {
    SortedIsAscending(t);
  }

  ghost function Keys(t: seq<Entry>): set<Route> {
    set e | e in t :: e.route
  }

  lemma SortedUnique(t: seq<Entry>, e: Entry, f: Entry)
    requires Sorted(t) && e in t && f in t && e.route == f.route
    ensures e == f
  {
    SortedIsAscending(t);
    BeforeTotal(e.route, e.route);
  }

  /** The abstract table a sorted sequence stands for. */
  ghost function Abs(t: seq<Entry>): Table
    requires Sorted(t)
    ensures Abs(t).Keys == Keys(t)
    ensures forall e :: e in t ==> Abs(t)[e.route] == e.conn
  {
    assert forall e, f :: e in t && f in t && e.route == f.route ==> e == f by {
      forall e, f | e in t && f in t && e.route == f.route ensures e == f { SortedUnique(t, e, f); }
    }
    map e | e in t :: e.route := e.conn
  }

  lemma EntryOf(t: seq<Entry>, r: Route) returns (i: nat)
    requires Sorted(t) && r in Abs(t)
    ensures i < |t| && t[i].route == r && t[i].conn == Abs(t)[r]
  {
    var e :| e in t && e.route == r;
    i :| i < |t| && t[i] == e;
  }

  /** `p` is the rank of the first entry to a destination of at least `d`. */
  ghost predicate RankOf(t: seq<Entry>, d: NodeId, p: nat) {
    && p <= |t|
    && (forall i :: 0 <= i < p ==> t[i].route.dest < d)
    && (forall i :: p <= i < |t| ==> d <= t[i].route.dest)
  }

  method Rank(t: seq<Entry>, d: NodeId) returns (p: nat)
    requires Sorted(t)
    ensures RankOf(t, d, p)
  {
    SortedIsAscending(t);
    p := 0;
    while p < |t| && t[p].route.dest < d
      invariant p <= |t| && forall i :: 0 <= i < p ==> t[i].route.dest < d
    {
      p := p + 1;
    }
  }

  /** Rank `p` is where the absent route `r` belongs. */
  ghost predicate Fits(t: seq<Entry>, p: nat, r: Route) {
    && p <= |t|
    && (forall i :: 0 <= i < p ==> Before(t[i].route, r))
    && (forall i :: p <= i < |t| ==> Before(r, t[i].route))
  }

  method Find(t: seq<Entry>, r: Route) returns (p: nat, found: bool)
    requires Sorted(t)
    ensures found ==> p < |t| && t[p].route == r && r in Abs(t)
    ensures !found ==> Fits(t, p, r) && r !in Abs(t)
  {
    p := 0;
    while p < |t| && Before(t[p].route, r)
      invariant p <= |t| && forall i :: 0 <= i < p ==> Before(t[i].route, r)
    {
      p := p + 1;
    }
    found := p < |t| && t[p].route == r;
    if found {
      assert t[p] in t;
    } else {
      FitsFromFirst(t, p, r);
    }
  }

  lemma FitsFromFirst(t: seq<Entry>, p: nat, r: Route)
    requires Sorted(t) && p <= |t| && forall i :: 0 <= i < p ==> Before(t[i].route, r)
    requires p < |t| ==> !Before(t[p].route, r) && t[p].route != r
    ensures Fits(t, p, r) && r !in Abs(t)
  {
    forall i | p <= i < |t| ensures Before(r, t[i].route) {
      BeforeTotal(r, t[p].route);
      SortedPair(t, p, i);
      if i > p { BeforeTransitive(r, t[p].route, t[i].route); }
    }
    BeforeTotal(r, r);
  }

  function Insert(t: seq<Entry>, p: nat, e: Entry): seq<Entry>
    requires p <= |t|
  {
    t[..p] + [e] + t[p..]
  }

  function Erase(t: seq<Entry>, p: nat): seq<Entry>
    requires p < |t|
  {
    t[..p] + t[p + 1..]
  }

  lemma InsertSorted(t: seq<Entry>, p: nat, e: Entry)
    requires Sorted(t) && Fits(t, p, e.route)
    ensures Sorted(Insert(t, p, e))
  {
    SortedIsAscending(t);
    var u := Insert(t, p, e);
    forall i, j | 0 <= i < j < |u| ensures Before(u[i].route, u[j].route) {
      assert u[i] == if i < p then t[i] else if i == p then e else t[i - 1];
      assert u[j] == if j < p then t[j] else if j == p then e else t[j - 1];
    }
    SortedIsAscending(u);
  }

  lemma InsertAbs(t: seq<Entry>, p: nat, e: Entry)
    requires Sorted(t) && Fits(t, p, e.route)
    ensures Sorted(Insert(t, p, e)) && e.route !in Abs(t)
    ensures Abs(Insert(t, p, e)) == Abs(t)[e.route := e.conn]
    ensures forall f :: f in Insert(t, p, e) <==> f == e || f in t
  {
    InsertSorted(t, p, e);
    var u := Insert(t, p, e);
    forall f ensures f in u <==> f == e || f in t {
      if f in t {
        var i :| 0 <= i < |t| && t[i] == f;
        assert f == if i < p then u[i] else u[i + 1];
      }
      assert e == u[p];
    }
    BeforeTotal(e.route, e.route);
    assert Keys(u) == Keys(t) + {e.route};
  }

  lemma DistinctRoutes(t: seq<Entry>, i: nat, j: nat)
    requires Sorted(t) && i < |t| && j < |t| && i != j
    ensures t[i].route != t[j].route
  {
    SortedIsAscending(t);
    BeforeTotal(t[i].route, t[i].route);
  }

  lemma EraseSorted(t: seq<Entry>, p: nat)
    requires Sorted(t) && p < |t|
    ensures Sorted(Erase(t, p))
  {
    SortedIsAscending(t);
    SortedIsAscending(Erase(t, p));
  }

  lemma EraseMembers(t: seq<Entry>, p: nat)
    requires p < |t| && forall i :: 0 <= i < |t| && i != p ==> t[i].route != t[p].route
    ensures forall f :: f in Erase(t, p) <==> f in t && f.route != t[p].route
  {
    var u := Erase(t, p);
    assert forall i :: 0 <= i < |u| ==> u[i] == t[if i < p then i else i + 1];
    forall f | f in t && f.route != t[p].route ensures f in u {
      var i :| 0 <= i < |t| && t[i] == f;
      assert u[if i < p then i else i - 1] == f;
    }
  }

  lemma EraseAbs(t: seq<Entry>, p: nat)
    requires Sorted(t) && p < |t|
    ensures Sorted(Erase(t, p)) && Abs(Erase(t, p)) == Abs(t) - {t[p].route}
    ensures forall f :: f in Erase(t, p) ==> f in t
  {
    EraseSorted(t, p);
    forall i | 0 <= i < |t| && i != p ensures t[i].route != t[p].route { DistinctRoutes(t, i, p); }
    EraseMembers(t, p);
    assert Keys(Erase(t, p)) == Keys(t) - {t[p].route};
  }

  // ---- Ranks and the limit ----

  /** Entry `k` has at least three better routes to its destination. */
  predicate OverLimit(t: seq<Entry>, k: nat)
    requires k < |t|
  {
    k >= ROUTE_LIMIT && t[k - ROUTE_LIMIT].route.dest == t[k].route.dest
  }

  lemma OverLimitIsNotBest(t: seq<Entry>, k: nat)
    requires Sorted(t) && k < |t| && OverLimit(t, k)
    ensures t[k].route !in Best(Keys(t))
  {
    SortedIsAscending(t);
    var r, a, b, c := t[k].route, t[k - 3], t[k - 2], t[k - 1];
    assert a in t && b in t && c in t;
    BeforeTotal(a.route, a.route);
    BeforeTotal(b.route, b.route);
    SubsetSize({a.route, b.route, c.route}, Better(Keys(t), r));
  }

  lemma WithinLimitIsBest(t: seq<Entry>, k: nat)
    requires Sorted(t) && k < |t| && !OverLimit(t, k)
    ensures t[k].route in Best(Keys(t))
  {
    SortedIsAscending(t);
    var r := t[k].route;
    var far := if k >= ROUTE_LIMIT then t[k - ROUTE_LIMIT] else t[k];
    var near := (if k >= 1 then {t[k - 1].route} else {}) + (if k >= 2 then {t[k - 2].route} else {});
    forall s | s in Better(Keys(t), r) ensures s in near {
      var e :| e in t && e.route == s;
      var i :| 0 <= i < |t| && t[i] == e;
      BeforeTotal(s, r);
    }
    SubsetSize(Better(Keys(t), r), near);
    assert t[k] in t;
  }

  lemma BestByRank(t: seq<Entry>, r: Route) returns (k: nat)
    requires Sorted(t) && r in Keys(t)
    ensures k < |t| && t[k].route == r
    ensures r in Best(Keys(t)) <==> !OverLimit(t, k)
  {
    k := EntryOf(t, r);
    if OverLimit(t, k) { OverLimitIsNotBest(t, k); } else { WithinLimitIsBest(t, k); }
  }

  lemma TrimmedIsWithinLimit(t: seq<Entry>)
    requires Sorted(t) && Trimmed(Abs(t))
    ensures forall k :: 0 <= k < |t| ==> !OverLimit(t, k)
  {
    forall k | 0 <= k < |t| ensures !OverLimit(t, k) {
      assert t[k] in t;
      if OverLimit(t, k) { OverLimitIsNotBest(t, k); }
    }
  }

  lemma WithinLimitIsTrimmed(t: seq<Entry>)
    requires Sorted(t) && forall k :: 0 <= k < |t| ==> !OverLimit(t, k)
    ensures Best(Keys(t)) == Keys(t)
  {
    forall r | r in Keys(t) ensures r in Best(Keys(t)) { var k := BestByRank(t, r); }
  }

  /** Where exactly one entry is over the limit, cutting it leaves the best. */
  lemma CutOverLimit(t: seq<Entry>, p: nat)
    requires Sorted(t) && p < |t|
    requires forall k :: 0 <= k < |t| ==> (OverLimit(t, k) <==> k == p)
    ensures Best(Keys(t)) == Keys(t) - {t[p].route}
  {
    forall r ensures r in Best(Keys(t)) <==> r in Keys(t) - {t[p].route} {
      if r in Keys(t) {
        var k := BestByRank(t, r);
        if k != p { DistinctRoutes(t, k, p); }
      }
    }
  }
}
