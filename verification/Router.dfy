/** The router: an ordered route table with at most three routes per destination,
    changed by advertisements, revocations and the loss of connections. */
module Router {
  import opened Routes
  import opened RouteTables
  import opened RouterSpec
  import opened RouteIndex
  import opened RouterLemmas

  class Router {
    /** Remote and local address of a connection; a second one with the same pair is refused. */
    const address: ConnId -> (nat, nat)
    var id: NodeId
    var running: bool
    var table: seq<Entry>
    var connections: seq<ConnId>
    /** What has been handed to each connection for sending. */
    var queues: Queues
    /** The on_node_reachable and on_node_unreachable signals raised so far. */
    var events: seq<Event>

    ghost predicate Valid()
      reads this
    {
      && Sorted(table)
      && Trimmed(Abs(table))
      && (forall i, j :: 0 <= i < j < |connections| ==> address(connections[i]) != address(connections[j]))
      && (forall e :: e in table ==> e.conn in connections)
      && Ledger(events, Dests(Abs(table)))
    }

    ghost function State(): Node
      requires Valid()
      reads this
    {
      Node(id, Abs(table), ConnSet(connections))
    }

    constructor (address: ConnId -> (nat, nat))
      ensures Valid() && State() == Node(0, map[], {}) && !running && queues == map[] && events == []
    {
      this.address := address;
      id, running := 0, false;
      table, connections, queues, events := [], [], map[], [];
    }

    method Start(id: NodeId)
      requires Valid()
      modifies this`id, this`running
      ensures Valid() && running
      ensures this.id == if old(running) then old(this.id) else id
    {
      if running { return; }
      this.id := id;
      running := true;
    }

    // ---- Sending ----

    method Send(c: ConnId, m: Message)
      modifies this`queues
      ensures queues == old(queues)[c := QueueOf(old(queues), c) + [m]] == Push(old(queues), map[c := m])
    {
      PushToOne(queues, c, m);
      queues := queues[c := QueueOf(queues, c) + [m]];
    }

    /** To every connection but `source`, while running. */
    method Flood(m: Message, source: ConnId)
      requires Distinct(connections)
      modifies this`queues
      ensures queues == if running then Push(old(queues), ToAll(ConnSet(connections) - {source}, m)) else old(queues)
    {
      ghost var was := queues;
      PushNothing(was);
      var i := 0;
      ghost var done: set<ConnId> := {};
      while i < |connections|
        invariant i <= |connections|
        invariant done == ConnSet(connections[..i]) - {source}
        invariant queues == if running then Push(was, ToAll(done, m)) else was
      {
        if !running { break; }
        var c := connections[i];
        ConnSetGrows(connections, i);
        if c != source {
          PushOneMore(was, done, m, c);
          Send(c, m);
          done := done + {c};
        }
        i := i + 1;
      }
      assert running ==> connections[..i] == connections;
    }

    /** To every connection, while running. */
    method Broadcast(m: Message)
      requires Distinct(connections)
      modifies this`queues
      ensures queues == if running then Push(old(queues), ToAll(ConnSet(connections), m)) else old(queues)
    {
      ghost var was := queues;
      PushNothing(was);
      var i := 0;
      while i < |connections|
        invariant i <= |connections|
        invariant queues == if running then Push(was, ToAll(ConnSet(connections[..i]), m)) else was
      {
        if !running { break; }
        ConnSetGrows(connections, i);
        PushOneMore(was, ConnSet(connections[..i]), m, connections[i]);
        Send(connections[i], m);
        i := i + 1;
      }
      assert running ==> connections[..i] == connections;
    }

    // ---- One route ----

    /** `integrate(Route)` */
    method IntegrateRoute(route: Route, source: ConnId) returns (installed: bool)
      requires Valid() && source in connections
      modifies this`table, this`events
      ensures Valid()
      ensures Abs(table) == Offer(old(Abs(table)), route, source)
      ensures installed <==> route !in old(Abs(table)) && route in Abs(table)
      ensures events == old(events) + if Knows(old(Abs(table)), route.dest) then [] else [Reachable(route.dest)]
    {
      OfferKeepsLedger(events, Abs(table), route, source);
      var newDestination;
      table, installed, newDestination := Place(table, Entry(route, source));
      if newDestination && installed {
        events := events + [Reachable(route.dest)];
      }
    }

    // ---- Advertisements and revocations ----

    /** Installs what is acceptable and good enough, in order. */
    method LearnRoutes(sender: NodeId, routes: seq<Route>, source: ConnId) returns (news: seq<Route>)
      requires Valid() && source in connections
      modifies this`table, this`events
      ensures Valid()
      ensures (Abs(table), news) == Learn(id, old(Abs(table)), sender, source, routes)
      ensures OnlyGains(old(events), events)
    {
      news := [];
      var i := 0;
      while i < |routes|
        invariant i <= |routes| && Valid()
        invariant (Abs(table), news) == Learn(id, old(Abs(table)), sender, source, routes[..i])
        invariant OnlyGains(old(events), events)
      {
        LearnOneMore(id, old(Abs(table)), sender, source, routes, i);
        if Acceptable(id, routes[i]) {
          var route := Extend(sender, routes[i]);
          GainOneMore(old(events), events, route.dest);
          var installed := IntegrateRoute(route, source);
          if installed { news := news + [route]; }
        }
        i := i + 1;
      }
      assert routes[..i] == routes;
    }

    /** `integrate(RouteAdvertisement)` */
    method IntegrateAdvert(sender: NodeId, routes: seq<Route>, source: ConnId)
      requires Valid() && source in connections
      modifies this`table, this`events, this`queues
      ensures Valid()
      ensures var (n, out) := OnAdvert(old(State()), sender, routes, source);
        State() == n && queues == if running then Push(old(queues), out) else old(queues)
      ensures OnlyGains(old(events), events)
    {
      PushNothing(queues);
      if sender == id { return; }
      var news := LearnRoutes(sender, routes, source);
      if news != [] {
        Flood(Advert(id, news), source);
      }
    }

    /** Erases the images of the revoked routes. */
    method EraseImages(sender: NodeId, routes: seq<Route>)
      returns (images: seq<Route>, affected: seq<NodeId>, updated: bool)
      requires Sorted(table)
      modifies this`table
      ensures images == Images(id, sender, routes)
      ensures Erased(old(table), table, Members(images), affected)
      ensures updated <==> !(Members(images) !! Abs(old(table)).Keys)
    {
      images, affected, updated := [], [], false;
      EraseNothing(table);
      assert Members([]) == {};
      var i := 0;
      while i < |routes|
        invariant i <= |routes| && images == Images(id, sender, routes[..i])
        invariant Erased(old(table), table, Members(images), affected)
        invariant updated <==> !(Members(images) !! Abs(old(table)).Keys)
      {
        ImagesOneMore(id, sender, routes, i);
        if Acceptable(id, routes[i]) {
          var route := Extend(sender, routes[i]);
          var at, present := Find(table, route);
          MembersGrow(images, route);
          if present {
            ErasePresent(old(table), table, Members(images), affected, at);
            affected := affected + [route.dest];
            table := Erase(table, at);
            updated := true;
          } else {
            SkipAbsent(old(table), table, Members(images), affected, route);
          }
          images := images + [route];
        }
        i := i + 1;
      }
      assert routes[..i] == routes;
    }

    /** Erases the images and passes them on if any was held. */
    method Withdraw(sender: NodeId, routes: seq<Route>, source: ConnId) returns (affected: seq<NodeId>)
      requires Sorted(table) && Distinct(connections)
      modifies this`table, this`queues
      ensures
        var images := Images(id, sender, routes);
        && Erased(old(table), table, Members(images), affected)
        && queues == if !running || Members(images) !! Abs(old(table)).Keys then old(queues)
                     else Push(old(queues), ToAll(ConnSet(connections) - {source}, Revoke(id, images)))
    {
      var images, updated;
      images, affected, updated := EraseImages(sender, routes);
      if updated {
        Flood(Revoke(id, images), source);
      }
    }

    /** `integrate(RouteRevocation)`; `lost` lists the nodes reported unreachable. */
    method IntegrateRevocation(sender: NodeId, routes: seq<Route>, source: ConnId) returns (lost: seq<NodeId>)
      requires Valid() && source in connections
      modifies this`table, this`events, this`queues
      ensures Valid()
      ensures var (n, out) := OnRevoke(old(State()), sender, routes, source);
        State() == n && queues == if running then Push(old(queues), out) else old(queues)
      ensures Ascending(lost) && NodesOf(lost) == Dests(old(Abs(table))) - Dests(Abs(table))
      ensures events == old(events) + Losses(lost)
    {
      PushNothing(queues);
      if sender == id {
        lost := [];
        assert events == events + Losses(lost);
        return;
      }
      var affected := Withdraw(sender, routes, source);
      AffectedCoversLosses(old(table), table, Members(Images(id, sender, routes)), affected);
      lost := ReportLosses(old(table), affected);
    }

    /** Raises `on_node_unreachable` for the affected destinations that no entry leads to any more. */
    method ReportLosses(ghost was: seq<Entry>, affected: seq<NodeId>) returns (lost: seq<NodeId>)
      requires Sorted(was) && Trimmed(Abs(was)) && Sorted(table) && Affects(Abs(was), Abs(table), affected)
      requires Ledger(events, Dests(Abs(was)))
      modifies this`events
      ensures Ascending(lost) && NodesOf(lost) == Dests(Abs(was)) - Dests(Abs(table))
      ensures events == old(events) + Losses(lost)
      ensures Trimmed(Abs(table)) && Ledger(events, Dests(Abs(table)))
    {
      var candidates := SortUnique(affected);
      lost := Unreached(table, candidates);
      LossKeepsLedger(events, Abs(was), Abs(table), lost);
      Signal(lost);
    }

    method Signal(lost: seq<NodeId>)
      modifies this`events
      ensures events == old(events) + Losses(lost)
    {
      var i := 0;
      assert lost[..i] == [] && events + Losses([]) == events;
      while i < |lost|
        invariant i <= |lost| && events == old(events) + Losses(lost[..i])
      {
        assert lost[..i + 1][..i] == lost[..i];
        events := events + [Unreachable(lost[i])];
        i := i + 1;
      }
      assert lost[..i] == lost;
    }

    // ---- Connections ----

    /** The connect handler: the new peer is told of this node and of every entry. */
    method Add(c: ConnId) returns (added: bool)
      requires Valid() && c !in connections
      modifies this`connections, this`queues
      ensures Valid()
      ensures added <==> forall d :: d in old(connections) ==> address(d) != address(c)
      ensures !added ==> connections == old(connections) && queues == old(queues)
      ensures added ==>
        var (n, out) := OnOpen(old(State()), c, RoutesOf(table));
        Lists(RoutesOf(table), Abs(table).Keys) && State() == n && queues == Push(old(queues), out)
    {
      var i := 0;
      while i < |connections|
        invariant i <= |connections| && forall k :: 0 <= k < i ==> address(connections[k]) != address(c)
      {
        if address(connections[i]) == address(c) { return false; }
        i := i + 1;
      }
      ghost var was := connections;
      connections := connections + [c];
      assert ConnSet(connections) == ConnSet(was) + {c};
      RoutesOfLists(table);
      Send(c, Advert(id, [SelfRoute(id)] + RoutesOf(table)));
      return true;
    }

    /** Erases what was learned on `c`; `dead` lists it. */
    method EraseLearnedOn(c: ConnId) returns (dead: seq<Route>)
      requires Sorted(table)
      modifies this`table
      ensures Lists(dead, LearnedOn(old(Abs(table)), c))
      ensures Sorted(table) && Abs(table) == old(Abs(table)) - LearnedOn(old(Abs(table)), c)
      ensures forall e :: e in table ==> e in old(table) && e.conn != c
    {
      dead := [];
      var kept: seq<Entry> := [];
      var i := 0;
      while i < |table|
        invariant i <= |table| && table == old(table)
        invariant kept == Others(table[..i], c) && dead == RoutesOf(Through(table[..i], c))
      {
        assert table[..i + 1][..i] == table[..i];
        if table[i].conn == c {
          dead := dead + [table[i].route];
        } else {
          kept := kept + [table[i]];
        }
        i := i + 1;
      }
      assert table[..i] == table;
      ThroughLists(table, c);
      OthersAbs(table, c);
      table := kept;
    }

    /** `remove`: the routes learned on a lost connection are revoked on all others. */
    method Remove(c: ConnId) returns (dead: seq<Route>, lost: seq<NodeId>)
      requires Valid()
      modifies this`table, this`events, this`connections, this`queues
      ensures Valid() && c !in connections
      ensures Lists(dead, LearnedOn(old(Abs(table)), c))
      ensures var (n, out) := OnClose(old(State()), c, dead);
        State() == n && queues == if running then Push(old(queues), out) else old(queues)
      ensures Ascending(lost) && NodesOf(lost) == Dests(old(Abs(table))) - Dests(Abs(table))
      ensures events == old(events) + Losses(lost)
    {
      PushNothing(queues);
      dead := EraseLearnedOn(c);
      Disconnect(c);
      if dead != [] {
        Broadcast(Revoke(id, dead));
      }
      ListedDests(dead, LearnedOn(old(Abs(table)), c));
      LearnedCoversLosses(old(Abs(table)), c);
      lost := ReportLosses(old(table), DestsInOrder(dead));
    }

    method Disconnect(c: ConnId)
      requires forall i, j :: 0 <= i < j < |connections| ==> address(connections[i]) != address(connections[j])
      modifies this`connections
      ensures c !in connections && ConnSet(connections) == ConnSet(old(connections)) - {c}
      ensures forall x :: x in connections <==> x in old(connections) && x != c
      ensures forall i, j :: 0 <= i < j < |connections| ==> address(connections[i]) != address(connections[j])
    {
      var i := 0;
      while i < |connections| && connections[i] != c
        invariant i <= |connections| && c !in connections[..i]
      {
        i := i + 1;
      }
      if i < |connections| {
        var was := connections;
        connections := was[..i] + was[i + 1..];
        forall x ensures x in connections <==> x in was && x != c {
          if x in was && x != c {
            var k :| 0 <= k < |was| && was[k] == x;
            assert connections[if k < i then k else k - 1] == x;
          }
        }
      }
    }

    /** Stops sending and drops every connection, after which nothing is reachable. */
    method Shutdown()
      requires Valid()
      modifies this`running, this`table, this`events, this`connections, this`queues
      ensures Valid() && !running && State() == Node(id, map[], {}) && queues == old(queues)
    {
      running := false;
      while connections != []
        invariant Valid() && !running && queues == old(queues)
        decreases |ConnSet(connections)|
      {
        ghost var was := ConnSet(connections);
        assert connections[0] in was;
        var dead, lost := Remove(connections[0]);
        assert ConnSet(connections) < was;
        SubsetSize(ConnSet(connections), was);
      }
      EntriesNeedConnections(table, connections);
    }

    // ---- Forwarding ----

    /** `forward`: by the first route to the destination, or not at all. */
    method Forward(dest: NodeId, m: Message) returns (ok: bool)
      requires Valid()
      modifies this`queues
      ensures ok <==> Knows(Abs(table), dest)
      ensures ok ==> exists r :: Chosen(Abs(table), dest, r) && queues == Push(old(queues), map[Abs(table)[r] := m])
      ensures !ok ==> queues == old(queues)
    {
      var at := Rank(table, dest);
      HeadOfBlock(table, dest, at);
      if at == |table| || table[at].route.dest != dest { return false; }
      Send(table[at].conn, m);
      return true;
    }
  }

  /** Inserts by rank unless the route is there already. */
  method Place(table: seq<Entry>, entry: Entry) returns (after: seq<Entry>, installed: bool, newDestination: bool)
    requires Sorted(table) && Trimmed(Abs(table))
    ensures Sorted(after) && Abs(after) == Offer(Abs(table), entry.route, entry.conn)
    ensures installed <==> entry.route !in Abs(table) && entry.route in Abs(after)
    ensures newDestination <==> !Knows(Abs(table), entry.route.dest)
    ensures forall e :: e in after ==> e == entry || e in table
  {
    var lower := Rank(table, entry.route.dest);
    var higher := Rank(table, entry.route.dest + 1);
    BlockKnows(table, entry.route.dest, lower, higher);
    newDestination := lower == higher;
    var limitReached := !newDestination && higher == lower + ROUTE_LIMIT;

    var at, present := Find(table, entry.route);
    if present {
      RefuseKnown(table, entry.route, entry.conn);
      after, installed := table, false;
    } else if !limitReached {
      InsertWithRoom(table, at, entry, lower, higher);
      after, installed := Insert(table, at, entry), true;
    } else {
      after, installed := Bump(table, at, entry, lower, higher);
    }
  }

  /** Inserts into a full destination; the last of its four routes gives way. */
  method Bump(table: seq<Entry>, at: nat, entry: Entry, ghost lower: nat, higher: nat)
    returns (after: seq<Entry>, installed: bool)
    requires Sorted(table) && Trimmed(Abs(table)) && Fits(table, at, entry.route)
    requires RankOf(table, entry.route.dest, lower) && RankOf(table, entry.route.dest + 1, higher)
    requires higher == lower + ROUTE_LIMIT
    ensures Sorted(after) && Abs(after) == Offer(Abs(table), entry.route, entry.conn)
    ensures installed <==> entry.route in Abs(after)
    ensures forall e :: e in after ==> e == entry || e in table
  {
    FitsItsBlock(table, at, entry.route, lower, higher);
    after := Insert(table, at, entry);
    installed := at < higher;
    if installed {
      after := Erase(after, higher);
    } else {
      assert at == higher;
      after := Erase(after, at);
    }
    BumpIsOffer(table, at, entry, lower, higher, after);
  }

  /** The candidates that no entry leads to. */
  method Unreached(table: seq<Entry>, candidates: seq<NodeId>) returns (lost: seq<NodeId>)
    requires Sorted(table) && Ascending(candidates)
    ensures Ascending(lost) && NodesOf(lost) == NodesOf(candidates) - Dests(Abs(table))
  {
    lost := [];
    var i := 0;
    while i < |candidates|
      invariant i <= |candidates| && Ascending(lost)
      invariant i < |candidates| ==> forall k :: 0 <= k < |lost| ==> lost[k] < candidates[i]
      invariant NodesOf(lost) == NodesOf(candidates[..i]) - Dests(Abs(table))
    {
      var d := candidates[i];
      var lower := Rank(table, d);
      var higher := Rank(table, d + 1);
      BlockKnows(table, d, lower, higher);
      assert candidates[..i + 1] == candidates[..i] + [d];
      assert NodesOf(candidates[..i + 1]) == NodesOf(candidates[..i]) + {d};
      assert NodesOf(lost + [d]) == NodesOf(lost) + {d};
      if lower == higher {
        lost := lost + [d];
      }
      i := i + 1;
    }
    assert candidates[..i] == candidates;
  }
}
