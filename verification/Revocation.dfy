/** A revocation against the advertisement it takes back. */
module Revocation {
  import opened Routes
  import opened RouteTables
  import opened RouterSpec

  /** What is left once the images of `routes` are taken out of what was learned from them. */
  lemma UnlearnLeaves(id: NodeId, table: Table, sender: NodeId, c: ConnId, routes: seq<Route>)
    requires Trimmed(table)
    ensures
      var t, images := Learn(id, table, sender, c, routes).0, Members(Images(id, sender, routes));
      forall r :: r in t && r !in images ==> r in table && t[r] == table[r]
  {
    var (t, news) := Learn(id, table, sender, c, routes);
    LearnOrigins(id, table, sender, c, routes);
    forall r | r in news ensures r in Members(Images(id, sender, routes)) { assert Heard(id, sender, routes, r); }
  }

  /** There is room for `news` if it pushes nothing in `table` out of the three best. */
  ghost predicate HasRoom(table: Table, news: set<Route>) {
    forall r :: r in table ==> |Better(table.Keys + news, r)| < ROUTE_LIMIT
  }

  /** Revoking an advertisement restores the table exactly when its routes were all new
      and there was room for them: a route that is bumped does not come back. */
  lemma RevocationUndoesAdvert(n: Node, sender: NodeId, routes: seq<Route>, c: ConnId)
    requires sender != n.id && Trimmed(n.table)
    ensures
      var back := OnRevoke(OnAdvert(n, sender, routes, c).0, sender, routes, c).0;
      var images := Members(Images(n.id, sender, routes));
      && back.table.Keys == Best(n.table.Keys + images) - images
      && (forall r :: r in back.table ==> r in n.table && back.table[r] == n.table[r])
      && (back == n <==> images !! n.table.Keys && HasRoom(n.table, images))
  {
    var heard := OnAdvert(n, sender, routes, c).0;
    var back := OnRevoke(heard, sender, routes, c).0;
    var images := Members(Images(n.id, sender, routes));
    UnlearnLeaves(n.id, n.table, sender, c, routes);
    assert back.table == heard.table - images;
    LearnedKeys(n.id, n.table, sender, c, routes);
    if images !! n.table.Keys && HasRoom(n.table, images) {
      assert n.table.Keys <= heard.table.Keys;
      assert back.table == n.table;
    }
  }

  const FIRST := Route(9, 3, [2, 6, 9])
  const SECOND := Route(9, 3, [3, 6, 9])
  const THIRD := Route(9, 3, [4, 6, 9])
  /** What neighbour 5 advertises, and how node 1 sees it. */
  const TOLD := Route(9, 1, [9])
  const HEARD := Route(9, 2, [5, 9])

  /** These three are all that is known to lead to node 9. */
  ghost predicate ThreeWaysToNine(K: set<Route>) {
    {FIRST, SECOND, THIRD} <= K && forall r :: r in K && r.dest == 9 ==> r in {FIRST, SECOND, THIRD}
  }

  lemma ImageOfTold()
    ensures Members(Images(1, 5, [TOLD])) == {HEARD}
  {
    assert TOLD in [TOLD] && Extend(5, TOLD) == HEARD;
  }

  lemma WaysInOrder()
    ensures Before(FIRST, THIRD) && Before(SECOND, THIRD) && Before(HEARD, THIRD)
    ensures forall r :: !Before(r, r)
    ensures !Before(THIRD, SECOND) && !Before(THIRD, FIRST) && !Before(THIRD, HEARD)
  {
    forall r ensures !Before(r, r) { BeforeTotal(r, r); }
    BeforeTotal(SECOND, THIRD);
    BeforeTotal(FIRST, THIRD);
  }

  lemma ThirdIsFourth(all: set<Route>)
    requires {FIRST, SECOND, HEARD} <= all
    ensures THIRD !in Best(all)
  {
    var ahead := {FIRST, SECOND, HEARD};
    assert |ahead| == 3;
    WaysInOrder();
    SubsetSize(ahead, Better(all, THIRD));
  }

  /** The others of the four have two before them at most. */
  lemma OthersStay(K: set<Route>, r: Route)
    requires ThreeWaysToNine(K) && r in {FIRST, SECOND, HEARD}
    ensures |Better(K + {HEARD}, r)| < ROUTE_LIMIT
  {
    WaysInOrder();
    var ahead := {FIRST, SECOND, HEARD};
    assert |ahead - {r}| == 2;
    SubsetSize(Better(K + {HEARD}, r), ahead - {r});
  }

  /** The shorter way bumps the third one, and no other route of any destination. */
  lemma ShorterWayBumpsThird(K: set<Route>)
    requires Best(K) == K && ThreeWaysToNine(K)
    ensures Best(K + {HEARD}) == K + {HEARD} - {THIRD}
  {
    var all := K + {HEARD};
    ThirdIsFourth(all);
    forall r | r in all && r != THIRD ensures |Better(all, r)| < ROUTE_LIMIT {
      if r.dest == 9 {
        OthersStay(K, r);
      } else {
        assert r in Best(K) && Better(all, r) == Better(K, r);
      }
    }
  }

  /** Where it fails: node 1 knows three ways to node 9, and whatever else, when its
      neighbour 5 advertises a link to 9.  Once 5 has lost that link and revoked it, the
      third way is gone for good, though nothing ever happened to its links. */
  lemma BumpedRouteStaysLost(n: Node, c: ConnId)
    requires n.id == 1 && Trimmed(n.table)
    requires ThreeWaysToNine(n.table.Keys)
    ensures
      var back := OnRevoke(OnAdvert(n, 5, [TOLD], c).0, 5, [TOLD], c).0;
      back.table.Keys == n.table.Keys - {THIRD} && THIRD in n.table
  {
    ImageOfTold();
    RevocationUndoesAdvert(n, 5, [TOLD], c);
    ShorterWayBumpsThird(n.table.Keys);
  }

  /** Losing a connection takes exactly the routes learned on it from the node, and,
      at a neighbour that processes the resulting revocation, exactly the entries
      that lead over one of those routes. */
  lemma CloseAndRevokeMirror(n: Node, v: Node, c: ConnId, dead: seq<Route>, back: ConnId)
    requires Lists(dead, LearnedOn(n.table, c)) && v.id != n.id
    requires forall r :: r in n.table ==> r.path != [] && r.path[|r.path| - 1] == r.dest
    ensures OnClose(n, c, dead).0.table.Keys == n.table.Keys - LearnedOn(n.table, c)
    ensures forall r :: r in OnRevoke(v, n.id, dead, back).0.table <==>
      r in v.table && !(exists q :: q in LearnedOn(n.table, c) && v.id !in q.path && r == Extend(n.id, q))
    ensures forall r :: r in OnRevoke(v, n.id, dead, back).0.table ==>
      OnRevoke(v, n.id, dead, back).0.table[r] == v.table[r]
  {
    var images := Images(v.id, n.id, dead);
    assert forall q :: q in dead <==> q in Members(dead);
    forall r
      ensures r in images <==> exists q :: q in LearnedOn(n.table, c) && v.id !in q.path && r == Extend(n.id, q)
    {
      if q :| q in LearnedOn(n.table, c) && v.id !in q.path && r == Extend(n.id, q) {
        assert q.path[|q.path| - 1] in q.path;
        assert q in dead && Acceptable(v.id, q);
      }
    }
  }
}
