/** The abstract route table: a map from routes to the connection each was
    learned on, and what offering a route to it means. */
module RouteTables {
  import opened Routes

  type Table = map<Route, ConnId>

  ghost predicate Trimmed(t: Table) {
    Best(t.Keys) == t.Keys
  }

  /** The table after route `r`, heard on connection `c`, has been offered: the
      three best of old plus new at every destination. */
  ghost function Offer(t: Table, r: Route, c: ConnId): Table {
    var u := if r in t then t else t[r := c];
    map s | s in u && s in Best(u.Keys) :: u[s]
  }

  /** Destination `d` is known at cost at most `k`. */
  ghost predicate Has(t: Table, d: NodeId, k: int) {
    exists r :: r in t && r.dest == d && r.cost <= k
  }

  lemma OfferKeys(t: Table, r: Route, c: ConnId)
    ensures Offer(t, r, c).Keys == Best(t.Keys + {r})
    ensures Trimmed(Offer(t, r, c))
  {
    var u := if r in t then t else t[r := c];
    assert u.Keys == t.Keys + {r};
    assert Offer(t, r, c).Keys == Best(u.Keys);
    BestIdempotent(u.Keys);
  }

  lemma OfferLeavesOtherDestinations(t: Table, r: Route, c: ConnId)
    requires Trimmed(t)
    ensures forall s :: s in t && s.dest != r.dest ==> s in Offer(t, r, c)
  {
    OfferKeys(t, r, c);
    forall s | s in t && s.dest != r.dest ensures s in Offer(t, r, c) {
      assert s in Best(t.Keys);
      assert Better(t.Keys + {r}, s) == Better(t.Keys, s);
    }
  }

  lemma OneMoreBetter(S: set<Route>, r: Route, s: Route)
    ensures |Better(S + {r}, s)| <= |Better(S, s)| + 1
  {
    SubsetSize(Better(S + {r}, s), Better(S, s) + {r});
  }

  /** A route that ranks fourth displaces nothing. */
  lemma FourthIsRefused(S: set<Route>, r: Route)
    requires Best(S) == S && r !in S && r !in Best(S + {r})
    ensures Best(S + {r}) == S
  {
    forall s | s in S ensures s in Best(S + {r}) {
      assert s in Best(S);
      if r in Better(S + {r}, s) {
        BetterNested(S + {r}, r, s);
        OneMoreBetter(S, r, s);
      } else {
        assert Better(S + {r}, s) == Better(S, s);
      }
    }
  }

  lemma RefusalChangesNothing(t: Table, r: Route, c: ConnId)
    requires Trimmed(t)
    requires r in t || r !in Offer(t, r, c)
    ensures Offer(t, r, c) == t
  {
    OfferKeys(t, r, c);
    if r in t {
      assert t.Keys + {r} == t.Keys;
    } else {
      assert Best(t.Keys + {r}) == t.Keys by { FourthIsRefused(t.Keys, r); }
    }
    assert Offer(t, r, c).Keys == t.Keys;
  }

  /** One call of `integrate(Route)`: no other destination is touched, entries that
      stay keep their connection, and a refused route changes nothing at all. */
  lemma OfferTouchesOnlyItsDestination(t: Table, r: Route, c: ConnId)
    requires Trimmed(t)
    ensures var u := Offer(t, r, c);
      && (forall s :: s in u ==> if s in t then u[s] == t[s] else s == r && u[s] == c)
      && (forall s :: s in t && s.dest != r.dest ==> s in u)
      && (r in t || r !in u ==> u == t)
  {
    OfferLeavesOtherDestinations(t, r, c);
    if r in t || r !in Offer(t, r, c) { RefusalChangesNothing(t, r, c); }
  }

  lemma OfferNeverWorse(t: Table, r: Route, c: ConnId, d: NodeId, k: int)
    ensures Has(t, d, k) ==> Has(Offer(t, r, c), d, k)
    ensures r.dest == d && r.cost <= k ==> Has(Offer(t, r, c), d, k)
    ensures Has(Offer(t, r, c), d, k) ==> Has(t, d, k) || (r !in t && r in Offer(t, r, c) && r.dest == d && r.cost <= k)
  {
    OfferKeys(t, r, c);
    if q :| q in t.Keys + {r} && q.dest == d && q.cost <= k {
      var s := BestKeepsCost(t.Keys + {r}, q);
    }
  }

  // ---- Any number of offers ----

  ghost function OfferAll(t: Table, offers: seq<(Route, ConnId)>): Table {
    if offers == [] then t
    else
      var (r, c) := offers[|offers| - 1];
      Offer(OfferAll(t, offers[..|offers| - 1]), r, c)
  }

  ghost function Offered(offers: seq<(Route, ConnId)>): set<Route> {
    set o | o in offers :: o.0
  }

  lemma OfferedGrows(offers: seq<(Route, ConnId)>)
    requires offers != []
    ensures Offered(offers) == Offered(offers[..|offers| - 1]) + {offers[|offers| - 1].0}
  {
    var n := |offers| - 1;
    assert offers == offers[..n] + [offers[n]];
  }

  /** After any sequence of offers the table holds the three least of everything
      ever offered. */
  lemma {:induction false} OffersKeepTheBest(t: Table, offers: seq<(Route, ConnId)>)
    requires Trimmed(t)
    ensures OfferAll(t, offers).Keys == Best(t.Keys + Offered(offers))
  {
    if offers == [] {
      assert t.Keys + Offered(offers) == t.Keys;
    } else {
      var n := |offers| - 1;
      var seen := t.Keys + Offered(offers[..n]);
      var u, r := OfferAll(t, offers[..n]), offers[n].0;
      OffersKeepTheBest(t, offers[..n]);
      OfferedGrows(offers);
      assert t.Keys + Offered(offers) == seen + {r};
      calc {
        OfferAll(t, offers).Keys;
        { OfferKeys(u, r, offers[n].1); }
        Best(u.Keys + {r});
        Best(Best(seen) + {r});
        { BestAbsorbs(seen, {r}); }
        Best(seen + {r});
      }
    }
  }

  /** The order and the repetition of offers do not matter. */
  lemma OffersCommute(xs: seq<(Route, ConnId)>, ys: seq<(Route, ConnId)>)
    requires Offered(xs) == Offered(ys)
    ensures OfferAll(map[], xs).Keys == OfferAll(map[], ys).Keys
  {
    var none: Table := map[];
    assert Best(none.Keys) == none.Keys;
    OffersKeepTheBest(none, xs);
    OffersKeepTheBest(none, ys);
  }

  // ---- Learning a whole advertisement ----

  /** A received route as the receiver sees it: one link longer, by way of the sender. */
  function Extend(sender: NodeId, r: Route): Route {
    Route(r.dest, r.cost + 1, [sender] + r.path)
  }

  /** A route that neither ends here nor passes through here. */
  predicate Acceptable(id: NodeId, r: Route) {
    r.dest != id && id !in r.path
  }

  /** Node `id` offers itself, in order, the routes of an advertisement from
      `sender` on connection `c`; the second component lists what was installed. */
  ghost function Learn(id: NodeId, t: Table, sender: NodeId, c: ConnId, routes: seq<Route>): (Table, seq<Route>) {
    if routes == [] then (t, [])
    else
      var n := |routes| - 1;
      var (u, news) := Learn(id, t, sender, c, routes[..n]);
      if !Acceptable(id, routes[n]) then (u, news)
      else
        var r := Extend(sender, routes[n]);
        var v := Offer(u, r, c);
        (v, if r !in u && r in v then news + [r] else news)
  }

  ghost predicate Heard(id: NodeId, sender: NodeId, routes: seq<Route>, r: Route) {
    exists q :: q in routes && Acceptable(id, q) && r == Extend(sender, q)
  }

  /** Everything in the new table was there before or was just installed, and
      what was installed comes from the advertisement. */
  lemma {:induction false} LearnOrigins(id: NodeId, t: Table, sender: NodeId, c: ConnId, routes: seq<Route>)
    requires Trimmed(t)
    ensures var (u, news) := Learn(id, t, sender, c, routes);
      && Trimmed(u)
      && (forall r :: r in u ==> (r in t && u[r] == t[r]) || (r in news && u[r] == c))
      && (forall r :: r in news ==> Heard(id, sender, routes, r))
      && (news == [] ==> u == t)
  {
    if routes != [] {
      var n := |routes| - 1;
      LearnOrigins(id, t, sender, c, routes[..n]);
      var (u, news) := Learn(id, t, sender, c, routes[..n]);
      forall r | r in news ensures Heard(id, sender, routes, r) {
        var q :| q in routes[..n] && Acceptable(id, q) && r == Extend(sender, q);
        assert q in routes;
      }
      if Acceptable(id, routes[n]) {
        var r := Extend(sender, routes[n]);
        OfferTouchesOnlyItsDestination(u, r, c);
        OfferKeys(u, r, c);
        assert routes[n] in routes;
      }
    }
  }

  /** The least costs after an advertisement: never worse, at most one more than
      each accepted route, and any improvement is among the installed routes. */
  lemma {:induction false} LearnCosts(id: NodeId, t: Table, sender: NodeId, c: ConnId, routes: seq<Route>,
                                      d: NodeId, k: int)
    ensures var (u, news) := Learn(id, t, sender, c, routes);
      && (Has(t, d, k) ==> Has(u, d, k))
      && (forall q :: q in routes && Acceptable(id, q) && q.dest == d && q.cost + 1 <= k ==> Has(u, d, k))
      && (forall r :: r in news && r.dest == d && r.cost <= k ==> Has(u, d, k))
      && (Has(u, d, k) && !Has(t, d, k) ==> exists r :: r in news && r.dest == d && r.cost <= k)
  {
    if routes != [] {
      var n := |routes| - 1;
      LearnCosts(id, t, sender, c, routes[..n], d, k);
      var (u, news) := Learn(id, t, sender, c, routes[..n]);
      assert routes == routes[..n] + [routes[n]];
      if Acceptable(id, routes[n]) {
        var r := Extend(sender, routes[n]);
        OfferNeverWorse(u, r, c, d, k);
        var v := Offer(u, r, c);
        var news2 := if r !in u && r in v then news + [r] else news;
        if Has(v, d, k) && !Has(t, d, k) {
          if Has(u, d, k) {
            var s :| s in news && s.dest == d && s.cost <= k;
            assert s in news2;
          } else {
            assert r in news2;
          }
        }
      }
    }
  }

  // ---- What an advertisement amounts to ----

  /** The routes of a message as this node would have stored them. */
  function Images(id: NodeId, sender: NodeId, routes: seq<Route>): (images: seq<Route>)
    ensures forall r :: r in images <==> exists q :: q in routes && Acceptable(id, q) && r == Extend(sender, q)
  {
    if routes == [] then []
    else
      var n := |routes| - 1;
      assert routes == routes[..n] + [routes[n]];
      Images(id, sender, routes[..n]) + if Acceptable(id, routes[n]) then [Extend(sender, routes[n])] else []
  }

  ghost function Members(routes: seq<Route>): set<Route> {
    set r | r in routes
  }

  lemma ImagesGrow(id: NodeId, sender: NodeId, routes: seq<Route>)
    requires routes != []
    ensures
      var n := |routes| - 1;
      Members(Images(id, sender, routes)) ==
        Members(Images(id, sender, routes[..n])) + if Acceptable(id, routes[n]) then {Extend(sender, routes[n])} else {}
  {
  }

  /** After an advertisement the table holds the three best of what it held and of the
      images of the routes: their order, and how often each is named, do not matter. */
  lemma {:induction false} LearnedKeys(id: NodeId, t: Table, sender: NodeId, c: ConnId, routes: seq<Route>)
    requires Trimmed(t)
    ensures Learn(id, t, sender, c, routes).0.Keys == Best(t.Keys + Members(Images(id, sender, routes)))
  {
    var images := Members(Images(id, sender, routes));
    if routes == [] {
      assert t.Keys + images == t.Keys;
    } else {
      var n := |routes| - 1;
      var u, seen := Learn(id, t, sender, c, routes[..n]).0, t.Keys + Members(Images(id, sender, routes[..n]));
      LearnedKeys(id, t, sender, c, routes[..n]);
      ImagesGrow(id, sender, routes);
      if Acceptable(id, routes[n]) {
        var r := Extend(sender, routes[n]);
        assert t.Keys + images == seen + {r};
        OfferKeys(u, r, c);
        BestAbsorbs(seen, {r});
      } else {
        assert images == Members(Images(id, sender, routes[..n]));
      }
    }
  }

  /** The order of the routes in an advertisement, and repetitions, do not matter to the keys held. */
  lemma AdvertOrderIsIrrelevant(id: NodeId, t: Table, sender: NodeId, c: ConnId, xs: seq<Route>, ys: seq<Route>)
    requires Trimmed(t) && Members(xs) == Members(ys)
    ensures Learn(id, t, sender, c, xs).0.Keys == Learn(id, t, sender, c, ys).0.Keys
  {
    LearnedKeys(id, t, sender, c, xs);
    LearnedKeys(id, t, sender, c, ys);
    assert forall q :: (q in xs <==> q in Members(xs)) && (q in ys <==> q in Members(ys));
    assert Members(Images(id, sender, xs)) == Members(Images(id, sender, ys));
  }

  /** Entry `i` of an advertisement brings `r`: it is accepted, and `r`, one link longer,
      is then among the three best of all known so far. */
  ghost predicate Brings(id: NodeId, t: Table, sender: NodeId, routes: seq<Route>, i: nat, r: Route) {
    && i < |routes| && routes[i].dest != id && id !in routes[i].path
    && r == Route(routes[i].dest, routes[i].cost + 1, [sender] + routes[i].path)
    && r in Best(t.Keys + Members(Images(id, sender, routes[..i + 1])))
  }

  ghost predicate IsNews(id: NodeId, t: Table, sender: NodeId, routes: seq<Route>, r: Route) {
    r !in t && exists i: nat :: Brings(id, t, sender, routes, i, r)
  }

  lemma BringsEarlier(id: NodeId, t: Table, sender: NodeId, routes: seq<Route>, n: nat, i: nat, r: Route)
    requires i < n <= |routes|
    ensures Brings(id, t, sender, routes[..n], i, r) <==> Brings(id, t, sender, routes, i, r)
  {
    assert routes[..n][..i + 1] == routes[..i + 1];
  }

  lemma ImagesOfPrefix(id: NodeId, sender: NodeId, routes: seq<Route>, i: nat)
    requires i <= |routes|
    ensures Members(Images(id, sender, routes[..i])) <= Members(Images(id, sender, routes))
  {
  }

  lemma HeardBrings(id: NodeId, t: Table, sender: NodeId, routes: seq<Route>, i: nat, r: Route)
    requires r in Best(t.Keys + Members(Images(id, sender, routes)))
    requires i < |routes| && Acceptable(id, routes[i]) && r == Extend(sender, routes[i])
    ensures Brings(id, t, sender, routes, i, r)
  {
    var some := t.Keys + Members(Images(id, sender, routes[..i + 1]));
    var all := t.Keys + Members(Images(id, sender, routes));
    ImagesOfPrefix(id, sender, routes, i + 1);
    BetterMonotone(some, all, r);
    assert routes[..i + 1][i] == routes[i];
    assert r in Images(id, sender, routes[..i + 1]);
  }

  /** What is among the best later was so as soon as it was heard. */
  lemma HeardIsNews(id: NodeId, t: Table, sender: NodeId, routes: seq<Route>, r: Route)
    requires r in Best(t.Keys + Members(Images(id, sender, routes))) && r !in t
    ensures IsNews(id, t, sender, routes, r)
  {
    var q :| q in routes && Acceptable(id, q) && r == Extend(sender, q);
    var i: nat :| i < |routes| && routes[i] == q;
    HeardBrings(id, t, sender, routes, i, r);
  }

  lemma LastBrings(id: NodeId, t: Table, sender: NodeId, c: ConnId, routes: seq<Route>, r: Route)
    requires routes != [] && Trimmed(t)
    ensures
      var n := |routes| - 1;
      var u, v := Learn(id, t, sender, c, routes[..n]).0, Learn(id, t, sender, c, routes).0;
      (r !in u && r in v && Acceptable(id, routes[n]) && r == Extend(sender, routes[n])) ==>
        r !in t && Brings(id, t, sender, routes, n, r) && r !in Images(id, sender, routes[..n])
  {
    var n := |routes| - 1;
    var seen, images := t.Keys + Members(Images(id, sender, routes[..n])), Members(Images(id, sender, routes));
    LearnedKeys(id, t, sender, c, routes);
    LearnedKeys(id, t, sender, c, routes[..n]);
    ImagesGrow(id, sender, routes);
    assert routes[..n + 1] == routes;
    if r in seen && Acceptable(id, routes[n]) && r == Extend(sender, routes[n]) {
      assert t.Keys + images == seen;
    }
  }

  lemma NewsIsNews(id: NodeId, t: Table, sender: NodeId, c: ConnId, routes: seq<Route>, r: Route)
    requires routes != [] && Trimmed(t) && r in Learn(id, t, sender, c, routes).1
    requires r in Learn(id, t, sender, c, routes[..|routes| - 1]).1 ==> IsNews(id, t, sender, routes[..|routes| - 1], r)
    ensures IsNews(id, t, sender, routes, r)
  {
    var n := |routes| - 1;
    if r in Learn(id, t, sender, c, routes[..n]).1 {
      var i: nat :| Brings(id, t, sender, routes[..n], i, r);
      BringsEarlier(id, t, sender, routes, n, i, r);
    } else {
      LastBrings(id, t, sender, c, routes, r);
    }
  }

  lemma LastNewsIsPassedOn(id: NodeId, t: Table, sender: NodeId, c: ConnId, routes: seq<Route>, r: Route)
    requires routes != [] && Trimmed(t) && r !in t && Brings(id, t, sender, routes, |routes| - 1, r)
    requires IsNews(id, t, sender, routes[..|routes| - 1], r) ==> r in Learn(id, t, sender, c, routes[..|routes| - 1]).1
    ensures r in Learn(id, t, sender, c, routes).1
  {
    var n := |routes| - 1;
    assert routes[..n + 1] == routes;
    LearnedKeys(id, t, sender, c, routes);
    LearnedKeys(id, t, sender, c, routes[..n]);
    if r in Learn(id, t, sender, c, routes[..n]).0 { HeardIsNews(id, t, sender, routes[..n], r); }
  }

  lemma NewsStays(id: NodeId, t: Table, sender: NodeId, c: ConnId, routes: seq<Route>, r: Route)
    requires routes != [] && r in Learn(id, t, sender, c, routes[..|routes| - 1]).1
    ensures r in Learn(id, t, sender, c, routes).1
  {
  }

  lemma EarlierNewsIsNews(id: NodeId, t: Table, sender: NodeId, routes: seq<Route>, i: nat, r: Route)
    requires routes != [] && i < |routes| - 1 && r !in t && Brings(id, t, sender, routes, i, r)
    ensures IsNews(id, t, sender, routes[..|routes| - 1], r)
  {
    BringsEarlier(id, t, sender, routes, |routes| - 1, i, r);
  }

  lemma NewsIsPassedOn(id: NodeId, t: Table, sender: NodeId, c: ConnId, routes: seq<Route>, i: nat, r: Route)
    requires routes != [] && Trimmed(t) && r !in t && Brings(id, t, sender, routes, i, r)
    requires IsNews(id, t, sender, routes[..|routes| - 1], r) ==> r in Learn(id, t, sender, c, routes[..|routes| - 1]).1
    ensures r in Learn(id, t, sender, c, routes).1
  {
    if i < |routes| - 1 {
      EarlierNewsIsNews(id, t, sender, routes, i, r);
      NewsStays(id, t, sender, c, routes, r);
    } else {
      LastNewsIsPassedOn(id, t, sender, c, routes, r);
    }
  }

  /** What is passed on from an advertisement, each once: the new routes that were among
      the three best when they were heard, even if others of it bumped them again. */
  lemma {:induction false} LearnedNews(id: NodeId, t: Table, sender: NodeId, c: ConnId, routes: seq<Route>)
    requires Trimmed(t)
    ensures var news := Learn(id, t, sender, c, routes).1;
      && (forall r :: r in news <==> IsNews(id, t, sender, routes, r))
      && (forall i, j :: 0 <= i < j < |news| ==> news[i] != news[j])
  {
    if routes != [] {
      var n := |routes| - 1;
      LearnedNews(id, t, sender, c, routes[..n]);
      var news := Learn(id, t, sender, c, routes).1;
      LearnedKeys(id, t, sender, c, routes[..n]);
      forall r ensures r in news <==> IsNews(id, t, sender, routes, r) {
        if r in news { NewsIsNews(id, t, sender, c, routes, r); }
        if i: nat :| r !in t && Brings(id, t, sender, routes, i, r) { NewsIsPassedOn(id, t, sender, c, routes, i, r); }
      }
      forall r ensures r in Learn(id, t, sender, c, routes[..n]).1 ==> r in Images(id, sender, routes[..n]) {
        if IsNews(id, t, sender, routes[..n], r) {
          var i: nat :| Brings(id, t, sender, routes[..n], i, r);
          assert routes[..n][i] in routes[..n] && r == Extend(sender, routes[..n][i]);
        }
      }
      LastBrings(id, t, sender, c, routes, Extend(sender, routes[n]));
    }
  }
}
