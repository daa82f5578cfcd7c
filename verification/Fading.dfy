/** Control messages die out in every run, whatever was lost before: as long as no link
    comes up or goes down, only so many of them can still be delivered. */
module Fading {
  import opened Routes
  import opened RouteTables
  import opened RouterSpec
  import opened Network
  import opened NetworkInvariant
  import opened Loads
  import opened Settling

  // ---- How far a message can still spread ----

  function Max(a: nat, b: nat): nat {
    if a < b then b else a
  }

  /** How many more hops the shortest of the routes could grow by among `N` nodes, and one. */
  function Reach(routes: seq<Route>, N: nat): nat {
    if routes == [] then 0
    else Max(Reach(routes[1..], N), if |routes[0].path| <= N then N + 1 - |routes[0].path| else 0)
  }

  lemma {:induction false} ReachBounds(routes: seq<Route>, N: nat)
    ensures forall r :: r in routes ==> N + 1 - |r.path| <= Reach(routes, N)
  {
    if routes != [] { ReachBounds(routes[1..], N); }
  }

  lemma {:induction false} ReachIsLeast(routes: seq<Route>, N: nat, k: nat)
    requires forall r :: r in routes ==> N + 1 - |r.path| <= k
    ensures Reach(routes, N) <= k
  {
    if routes != [] { ReachIsLeast(routes[1..], N, k); }
  }

  /** A message made of another one reaches less far: each of its routes is one hop longer. */
  lemma ReachShrinks(routes: seq<Route>, made: seq<Route>, N: nat)
    requires made != []
    requires forall r :: r in made ==> |r.path| <= N && exists q :: q in routes && |r.path| == |q.path| + 1
    ensures Reach(made, N) < Reach(routes, N)
  {
    ReachBounds(routes, N);
    forall r | r in made ensures N + 1 - |r.path| <= Reach(routes, N) - 1 && Reach(routes, N) >= 1 {
      var q :| q in routes && |r.path| == |q.path| + 1;
    }
    assert made[0] in made;
    ReachIsLeast(made, N, Reach(routes, N) - 1);
  }

  function Pow(b: nat, e: nat): (p: nat)
    ensures b > 0 ==> p > 0
  {
    if e == 0 then 1 else b * Pow(b, e - 1)
  }

  lemma {:induction false} PowGrows(b: nat, d: nat, e: nat)
    requires b > 0 && d <= e
    ensures Pow(b, d) <= Pow(b, e)
  {
    if d < e { PowGrows(b, d, e - 1); }
  }

  lemma ProductsGrow(k: nat, K: nat, p: nat, q: nat)
    requires k <= K && p <= q && 0 < q
    ensures k * p < (K + 1) * q
  {
    assert (K - k) * p >= 0 && K * (q - p) >= 0;
  }

  /** `K` messages that reach less far are less than one that reaches further. */
  lemma ManyAreLess(K: nat, k: nat, d: nat, e: nat)
    requires k <= K && d < e
    ensures k * Pow(K + 1, d) < Pow(K + 1, e)
  {
    PowGrows(K + 1, d, e - 1);
    ProductsGrow(k, K, Pow(K + 1, d), Pow(K + 1, e - 1));
  }

  /** Data messages do not count. */
  function Force(K: nat, N: nat): Measure {
    (m: Message) => if m.Data? then 0 else Pow(K + 1, Reach(m.routes, N))
  }

  ghost function ForceIn(w: Wiring, s: State): Measure {
    Force(|s.ever|, |NodesOfLinks(w, s)|)
  }

  ghost function Vigour(w: Wiring, s: State): nat {
    Load(s.ever, s.queues, ForceIn(w, s))
  }

  lemma SameForce(w: Wiring, s: State, s': State)
    requires s'.ever == s.ever
    ensures ForceIn(w, s') == ForceIn(w, s)
  {
    assert NodesOfLinks(w, s') == NodesOfLinks(w, s);
  }

  // ---- Flooding ----

  lemma OneMoreHit(S: set<ConnId>, T: set<ConnId>, c: ConnId)
    requires c in S
    ensures |S * T| == |(S - {c}) * T| + if c in T then 1 else 0
  {
    if c in T {
      assert S * T == (S - {c}) * T + {c};
    } else {
      assert S * T == (S - {c}) * T;
    }
  }

  lemma OneMoreTimes(k: nat, x: nat)
    ensures (k + 1) * x == k * x + x
  {
  }

  lemma PushedWeight(q: Queues, f: Measure, T: set<ConnId>, m: Message, c: ConnId)
    ensures Weight(QueueOf(Push(q, ToAll(T, m)), c), f) == Weight(QueueOf(q, c), f) + if c in T then f(m) else 0
  {
    PushedQueue(q, ToAll(T, m), c);
    if c in T { WeightAppend(QueueOf(q, c), f, m); } else { assert QueueOf(q, c) + [] == QueueOf(q, c); }
  }

  /** Sending one message to each of `T` makes the load heavier by as many times its weight. */
  lemma {:induction false} FloodLoads(S: set<ConnId>, q: Queues, f: Measure, T: set<ConnId>, m: Message)
    ensures Load(S, Push(q, ToAll(T, m)), f) == Load(S, q, f) + |S * T| * f(m)
  {
    var p := Push(q, ToAll(T, m));
    if S == {} {
      assert S * T == {};
    } else {
      var c :| c in S;
      FloodLoads(S - {c}, q, f, T, m);
      LoadSplits(S, q, f, c);
      LoadSplits(S, p, f, c);
      PushedWeight(q, f, T, m, c);
      OneMoreHit(S, T, c);
      OneMoreTimes(|(S - {c}) * T|, f(m));
    }
  }

  /** What a message brings about weighs less than the message. */
  lemma AnswerIsLighter(S: set<ConnId>, q: Queues, T: set<ConnId>, N: nat, m: Message, made: Message)
    requires T <= S && !m.Data? && !made.Data? && Reach(made.routes, N) < Reach(m.routes, N)
    ensures Load(S, Push(q, ToAll(T, made)), Force(|S|, N)) < Load(S, q, Force(|S|, N)) + Force(|S|, N)(m)
  {
    var f := Force(|S|, N);
    FloodLoads(S, q, f, T, made);
    assert S * T == T;
    SubsetSize(T, S);
    ManyAreLess(|S|, |T|, Reach(made.routes, N), Reach(m.routes, N));
  }

  // ---- Steps that change no link ----

  predicate Still(step: Step) {
    !step.Open? && !step.Close?
  }

  ghost predicate Controls(w: Wiring, s: State, step: Step) {
    step.Deliver? && QueueOf(s.queues, step.c) != [] && !QueueOf(s.queues, step.c)[0].Data?
  }

  /** The routes node `n` makes of those it hears from the owner of `c` are sound, so no longer than there are nodes. */
  lemma MadeRoutesReachLess(w: Wiring, s: State, c: ConnId, routes: seq<Route>, made: seq<Route>)
    requires w.Valid() && w.mirror(c) in s.ever && w.owner(c) != w.Peer(c) && made != []
    requires forall q :: q in routes ==> SentOK(w, s, w.owner(c), q)
    requires forall r :: r in made ==> Heard(w.Peer(c), w.owner(c), routes, r)
    ensures Reach(made, |NodesOfLinks(w, s)|) < Reach(routes, |NodesOfLinks(w, s)|)
  {
    var N := NodesOfLinks(w, s);
    forall r | r in made ensures |r.path| <= |N| && exists q :: q in routes && |r.path| == |q.path| + 1 {
      var q :| q in routes && Acceptable(w.Peer(c), q) && r == Extend(w.owner(c), q);
      ExtensionIsOK(w, s, c, q);
      SoundRoutesFit(w, s, w.Peer(c), r);
    }
    ReachShrinks(routes, made, |N|);
  }

  lemma SoundRoutesFit(w: Wiring, s: State, n: NodeId, r: Route)
    requires RouteOK(w, s, n, r)
    ensures |r.path| <= |NodesOfLinks(w, s)|
  {
    var N := NodesOfLinks(w, s);
    forall x | x in r.path ensures x in N {
      var i :| 0 <= i < |r.path| && r.path[i] == x;
      assert Linked(w, s, From(n, r.path, i), r.path[i]);
    }
    SimplePathsAreShort(N, r.path);
  }

  /** What the receiver makes of a control message: nothing, or one message that reaches
      less far, for some of its connections. */
  ghost predicate Answers(w: Wiring, s: State, c: ConnId, m: Message, out: Outbox)
    requires !m.Data?
  {
    || out == map[]
    || exists made: Message ::
         && !made.Data? && out == ToAll(ConnsOf(w, s, w.Peer(c)) - {w.mirror(c)}, made)
         && Reach(made.routes, |NodesOfLinks(w, s)|) < Reach(m.routes, |NodesOfLinks(w, s)|)
  }

  lemma AdvertAnswers(w: Wiring, s: State, c: ConnId, m: Message)
    requires w.Valid() && Structure(w, s) && w.mirror(c) in s.conns && m.Advert? && MessageOK(w, s, w.owner(c), m)
    ensures Answers(w, s, c, m, OnAdvert(NodeAt(w, s, w.Peer(c)), m.sender, m.routes, w.mirror(c)).1)
  {
    var n := NodeAt(w, s, w.Peer(c));
    if m.sender != n.id {
      var news := Learn(n.id, n.table, m.sender, w.mirror(c), m.routes).1;
      TableKeepsOK(w, s, s, n.id);
      LearnOrigins(n.id, n.table, m.sender, w.mirror(c), m.routes);
      if news != [] {
        MadeRoutesReachLess(w, s, c, m.routes, news);
        assert Reach(Advert(n.id, news).routes, |NodesOfLinks(w, s)|) < Reach(m.routes, |NodesOfLinks(w, s)|);
      }
    }
  }

  lemma RevokeAnswers(w: Wiring, s: State, c: ConnId, m: Message)
    requires w.Valid() && Structure(w, s) && w.mirror(c) in s.conns && m.Revoke? && MessageOK(w, s, w.owner(c), m)
    ensures Answers(w, s, c, m, OnRevoke(NodeAt(w, s, w.Peer(c)), m.sender, m.routes, w.mirror(c)).1)
  {
    var n := NodeAt(w, s, w.Peer(c));
    if m.sender != n.id {
      var images := Images(n.id, m.sender, m.routes);
      forall r | r in images ensures Heard(n.id, m.sender, m.routes, r) {}
      if !(Members(images) !! n.table.Keys) {
        MadeRoutesReachLess(w, s, c, m.routes, images);
        assert Reach(Revoke(n.id, images).routes, |NodesOfLinks(w, s)|) < Reach(m.routes, |NodesOfLinks(w, s)|);
      }
    }
  }

  lemma AnswersFade(w: Wiring, s: State, c: ConnId, m: Message, n: Node, out: Outbox)
    requires s.conns <= s.ever && !m.Data? && Answers(w, s, c, m, out)
    ensures Vigour(w, Commit(s, n, out)) < Vigour(w, s) + ForceIn(w, s)(m)
  {
    SameForce(w, s, Commit(s, n, out));
    if out == map[] {
      WeightlessLoads(s.ever, s.queues, ForceIn(w, s), out);
    } else {
      var N, targets := |NodesOfLinks(w, s)|, ConnsOf(w, s, w.Peer(c)) - {w.mirror(c)};
      var made: Message :| !made.Data? && out == ToAll(targets, made) && Reach(made.routes, N) < Reach(m.routes, N);
      AnswerIsLighter(s.ever, s.queues, targets, N, m, made);
    }
  }

  /** Each delivery of a control message takes more away than it brings about. */
  lemma ControlFades(w: Wiring, s: State, c: ConnId)
    requires w.Valid() && Structure(w, s) && Enabled(w, s, Deliver(c)) && Controls(w, s, Deliver(c))
    ensures Vigour(w, Apply(w, s, Deliver(c))) < Vigour(w, s)
  {
    var q := QueueOf(s.queues, c);
    var m, s0 := q[0], s.(queues := s.queues[c := q[1..]]);
    assert MessageOK(w, s, w.owner(c), m);
    SameLinks(w, s, s0, c, q[1..]);
    MessageStaysOK(w, s, s0, w.owner(c), m);
    SameForce(w, s, s0);
    PopLightens(s.ever, s.queues, ForceIn(w, s), c);
    if m.Advert? {
      AdvertAnswers(w, s0, c, m);
      var (n, out) := OnAdvert(NodeAt(w, s0, w.Peer(c)), m.sender, m.routes, w.mirror(c));
      AnswersFade(w, s0, c, m, n, out);
    } else {
      RevokeAnswers(w, s0, c, m);
      var (n, out) := OnRevoke(NodeAt(w, s0, w.Peer(c)), m.sender, m.routes, w.mirror(c));
      AnswersFade(w, s0, c, m, n, out);
    }
  }

  // ---- Other steps ----

  lemma {:induction false} PrefixWeighsLess(q: seq<Message>, f: Measure, k: nat)
    requires k <= |q|
    ensures Weight(q[..k], f) <= Weight(q, f)
  {
    if k > 0 {
      assert q[..k][1..] == q[1..][..k - 1];
      PrefixWeighsLess(q[1..], f, k - 1);
    }
  }

  lemma LossFades(w: Wiring, s: State, c: ConnId, kept: nat)
    requires Structure(w, s) && Enabled(w, s, Lose(c, kept))
    ensures Vigour(w, Apply(w, s, Lose(c, kept))) <= Vigour(w, s)
  {
    var s', f := Apply(w, s, Lose(c, kept)), ForceIn(w, s);
    SameForce(w, s, s');
    if c in s.ever {
      PrefixWeighsLess(QueueOf(s.queues, c), f, kept);
      LoadChange(s.ever, s.queues, s'.queues, f, c);
    } else {
      LoadLocal(s.ever, s.queues, s'.queues, f);
    }
  }

  lemma SendingDataKeepsVigour(w: Wiring, s: State, n: Node, c: ConnId, m: Message)
    requires m.Data?
    ensures Vigour(w, Commit(s, n, map[c := m])) == Vigour(w, s)
  {
    SameForce(w, s, Commit(s, n, map[c := m]));
    WeightlessLoads(s.ever, s.queues, ForceIn(w, s), map[c := m]);
  }

  /** A data message is laid down or sent on. */
  lemma ReceivedDataKeepsVigour(w: Wiring, s: State, c: ConnId, m: Message)
    requires m.Data?
    ensures Vigour(w, Receive(w, s, c, m)) == Vigour(w, s)
  {
    var n := NodeAt(w, s, w.Peer(c));
    if m.dest != n.id && Knows(n.table, m.dest) {
      SendingDataKeepsVigour(w, s, n, n.table[RouteFor(n.table, m.dest)], Data(m.dest, m.body, m.hops + 1, m.bound));
    } else {
      SameForce(w, s, Receive(w, s, c, m));
    }
  }

  lemma DataKeepsVigour(w: Wiring, s: State, c: ConnId)
    requires Structure(w, s) && Enabled(w, s, Deliver(c)) && QueueOf(s.queues, c)[0].Data?
    ensures Vigour(w, Apply(w, s, Deliver(c))) == Vigour(w, s)
  {
    var q := QueueOf(s.queues, c);
    var s0 := s.(queues := s.queues[c := q[1..]]);
    SameForce(w, s, s0);
    PopLightens(s.ever, s.queues, ForceIn(w, s), c);
    ReceivedDataKeepsVigour(w, s0, c, q[0]);
  }

  lemma StillStepsFade(w: Wiring, s: State, step: Step)
    requires w.Valid() && Structure(w, s) && Enabled(w, s, step) && Still(step)
    ensures Vigour(w, Apply(w, s, step)) + (if Controls(w, s, step) then 1 else 0) <= Vigour(w, s)
  {
    match step
    case Lose(c, kept) => LossFades(w, s, c, kept);
    case Deliver(c) => if QueueOf(s.queues, c)[0].Data? { DataKeepsVigour(w, s, c); } else { ControlFades(w, s, c); }
    case Originate(n, d, body) =>
      var r := RouteFor(TableOf(s, n), d);
      SendingDataKeepsVigour(w, s, NodeAt(w, s, n), TableOf(s, n)[r], Data(d, body, 1, r.cost));
  }

  // ---- Runs ----

  ghost predicate Follows(w: Wiring, s: State, step: Step, s': State) {
    Still(step) && Enabled(w, s, step) && s' == Apply(w, s, step)
  }

  lemma FollowsFade(w: Wiring, s: State, step: Step, s': State)
    requires w.Valid() && Structure(w, s) && Follows(w, s, step, s')
    ensures Structure(w, s') && Vigour(w, s') + (if Controls(w, s, step) then 1 else 0) <= Vigour(w, s)
  {
    StepKeepsStructure(w, s, step);
    StillStepsFade(w, s, step);
  }

  /** Whatever falls at each hit, and never rises, is hit no more often than it is high. */
  ghost predicate Falls(v: nat -> nat, hit: nat -> bool, k: nat) {
    v(k + 1) + (if hit(k) then 1 else 0) <= v(k)
  }

  ghost function Hits(hit: nat -> bool, i: nat, j: nat): nat
    requires i <= j
  {
    if i == j then 0 else Hits(hit, i, j - 1) + if hit(j - 1) then 1 else 0
  }

  lemma {:induction false} HitsAreBounded(v: nat -> nat, hit: nat -> bool, i: nat, j: nat)
    requires i <= j && forall k: nat :: i <= k < j ==> Falls(v, hit, k)
    ensures Hits(hit, i, j) + v(j) <= v(i)
  {
    if i < j {
      HitsAreBounded(v, hit, i, j - 1);
      assert Falls(v, hit, j - 1);
    }
  }

  lemma {:induction false} HitsEnd(v: nat -> nat, hit: nat -> bool, start: nat) returns (last: nat)
    requires forall k: nat :: k >= start ==> Falls(v, hit, k)
    ensures start <= last && forall k: nat :: k >= last ==> !hit(k)
    decreases v(start)
  {
    last := start;
    if k: nat :| k >= start && hit(k) {
      HitsAreBounded(v, hit, start, k);
      assert Falls(v, hit, k);
      last := HitsEnd(v, hit, k + 1);
    }
  }

  /** Whether step `k` of a run delivers a control message. */
  ghost function ControlAt(w: Wiring, ss: seq<State>, steps: seq<Step>): nat -> bool {
    (k: nat) => k < |ss| && k < |steps| && Controls(w, ss[k], steps[k])
  }

  ghost function VigourAt(w: Wiring, ss: seq<State>): nat -> nat {
    (k: nat) => if k < |ss| then Vigour(w, ss[k]) else 0
  }

  /** In every run, losses included: while no link comes up or goes down, no more control
      messages are delivered than the vigour at the beginning. */
  lemma ControlIsBounded(w: Wiring, ss: seq<State>, steps: seq<Step>, i: nat, j: nat)
    requires w.Valid() && IsRun(w, ss, steps) && i <= j <= |steps|
    requires forall k :: i <= k < j ==> Still(steps[k])
    ensures Hits(ControlAt(w, ss, steps), i, j) <= Vigour(w, ss[i])
  {
    var v, hit := VigourAt(w, ss), ControlAt(w, ss, steps);
    forall k: nat | i <= k < j ensures Falls(v, hit, k) {
      RunsAreStructured(w, ss, steps, k);
      FollowsFade(w, ss[k], steps[k], ss[k + 1]);
    }
    HitsAreBounded(v, hit, i, j);
  }

  /** States and steps without end, in which no link changes. */
  ghost predicate IsSchedule(w: Wiring, f: nat -> State, g: nat -> Step) {
    forall k: nat {:trigger g(k)} :: Follows(w, f(k), g(k), f(k + 1))
  }

  lemma {:induction false} SchedulesAreStructured(w: Wiring, f: nat -> State, g: nat -> Step, i: nat)
    requires w.Valid() && IsSchedule(w, f, g) && Structure(w, f(0))
    ensures Structure(w, f(i))
  {
    if i > 0 {
      SchedulesAreStructured(w, f, g, i - 1);
      assert Follows(w, f(i - 1), g(i - 1), f(i));
      StepKeepsStructure(w, f(i - 1), g(i - 1));
    }
  }

  ghost function ControlOf(w: Wiring, f: nat -> State, g: nat -> Step): nat -> bool {
    (k: nat) => Controls(w, f(k), g(k))
  }

  ghost function VigourOf(w: Wiring, f: nat -> State): nat -> nat {
    (k: nat) => Vigour(w, f(k))
  }

  lemma SchedulesFade(w: Wiring, f: nat -> State, g: nat -> Step, k: nat)
    requires w.Valid() && IsSchedule(w, f, g) && Structure(w, f(0))
    ensures Falls(VigourOf(w, f), ControlOf(w, f, g), k)
  {
    SchedulesAreStructured(w, f, g, k);
    assert Follows(w, f(k), g(k), f(k + 1));
    FollowsFade(w, f(k), g(k), f(k + 1));
  }

  /** On any schedule without end that changes no link, from any state of any run, there
      is a last control message. */
  lemma ControlEnds(w: Wiring, ss: seq<State>, steps: seq<Step>, f: nat -> State, g: nat -> Step) returns (last: nat)
    requires w.Valid() && IsRun(w, ss, steps) && f(0) == ss[|steps|] && IsSchedule(w, f, g)
    ensures forall k: nat :: k >= last ==> !ControlOf(w, f, g)(k)
  {
    assert Structure(w, f(0)) by { RunsAreStructured(w, ss, steps, |steps|); }
    forall k: nat ensures Falls(VigourOf(w, f), ControlOf(w, f, g), k) { SchedulesFade(w, f, g, k); }
    last := HitsEnd(VigourOf(w, f), ControlOf(w, f, g), 0);
  }
}
