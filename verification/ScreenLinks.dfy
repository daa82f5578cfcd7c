/** Which screen the cursor reaches by leaving another one across an edge: the links are
    painted from the farthest screen to the nearest, each over the ones before. */
module ScreenLinks {

  datatype Screen = Screen(id: int, x: int, y: int, width: int, height: int)

  datatype Direction = Up | Right | Down | Left

  /** An edge by its coordinates; the ones in no link are missing. */
  type Edge = map<int, int>

  function Opposite(d: Direction): Direction {
    match d
    case Up => Down
    case Down => Up
    case Left => Right
    case Right => Left
  }

  /** `t` lies wholly to that side of `s`. */
  predicate Beyond(side: Direction, s: Screen, t: Screen) {
    match side
    case Left => t.x + t.width <= s.x
    case Right => t.x >= s.x + s.width
    case Up => t.y + t.height <= s.y
    case Down => t.y >= s.y + s.height
  }

  /** The span of a screen along the edges on the sides of `d`. */
  function Low(d: Direction, s: Screen): int {
    if d == Left || d == Right then s.y else s.x
  }

  function High(d: Direction, s: Screen): int {
    if d == Left || d == Right then s.y + s.height else s.x + s.width
  }

  /** What targets are sorted by: the greater, the nearer to a source they lie beyond. */
  function Key(d: Direction, t: Screen): int {
    match d
    case Left => t.x
    case Right => -t.x
    case Up => t.y
    case Down => -t.y
  }

  // ---- The nearest screen ----

  /** `t` is a target of `s`: another screen, that lies wholly to no other side. */
  predicate Qualifies(d: Direction, ss: seq<Screen>, s: nat, t: nat)
    requires s < |ss| && t < |ss|
  {
    s != t && forall side: Direction :: side != d ==> !Beyond(side, ss[s], ss[t])
  }

  predicate Spans(d: Direction, s: Screen, c: int) {
    Low(d, s) <= c <= High(d, s)
  }

  ghost predicate Candidate(d: Direction, ss: seq<Screen>, s: nat, t: nat, c: int) {
    s < |ss| && t < |ss| && Qualifies(d, ss, s, t) && Spans(d, ss[s], c) && Spans(d, ss[t], c)
  }

  ghost predicate Nearest(d: Direction, ss: seq<Screen>, s: nat, t: nat, c: int) {
    Candidate(d, ss, s, t, c) && forall u: nat :: Candidate(d, ss, s, u, c) ==> Key(d, ss[u]) <= Key(d, ss[t])
  }

  /** `edge` holds `id` at `c`; the number 0 stands for no screen. */
  predicate Holds(edge: Edge, c: int, id: int) {
    if id == 0 then c !in edge else c in edge && edge[c] == id
  }

  /** At `c` the edge names a nearest target, if there are targets there. */
  ghost predicate NamesNearest(d: Direction, ss: seq<Screen>, s: nat, edge: Edge, c: int) {
    if exists t: nat :: Candidate(d, ss, s, t, c)
    then exists t: nat :: Nearest(d, ss, s, t, c) && Holds(edge, c, ss[t].id)
    else c !in edge
  }

  ghost predicate Linked(d: Direction, ss: seq<Screen>, s: nat, edge: Edge) {
    forall c :: NamesNearest(d, ss, s, edge, c)
  }

  // ---- Filtering and sorting ----

  ghost predicate Known(ss: seq<Screen>, ts: seq<nat>) {
    forall i :: 0 <= i < |ts| ==> ts[i] < |ss|
  }

  method RemoveSource(source: nat, targets: seq<nat>) returns (kept: seq<nat>)
    ensures forall t :: t in kept <==> t in targets && t != source
  {
    kept := [];
    for i := 0 to |targets|
      invariant forall t :: t in kept <==> t in targets[..i] && t != source
    {
      if targets[i] != source { kept := kept + [targets[i]]; }
    }
  }

  /** `removeLeft`, `removeRight`, `removeAbove` and `removeBelow` */
  method RemoveBeyond(side: Direction, ss: seq<Screen>, source: nat, targets: seq<nat>) returns (kept: seq<nat>)
    requires source < |ss| && Known(ss, targets)
    ensures Known(ss, kept) && forall t: nat :: t in kept <==> t in targets && !Beyond(side, ss[source], ss[t])
  {
    kept := [];
    for i := 0 to |targets|
      invariant Known(ss, kept) && forall t: nat :: t in kept <==> t in targets[..i] && !Beyond(side, ss[source], ss[t])
    {
      if !Beyond(side, ss[source], ss[targets[i]]) { kept := kept + [targets[i]]; }
    }
  }

  ghost predicate FarToNear(d: Direction, ss: seq<Screen>, ts: seq<nat>)
    requires Known(ss, ts)
  {
    forall i, j :: 0 <= i < j < |ts| ==> Key(d, ss[ts[i]]) <= Key(d, ss[ts[j]])
  }

  lemma InsertedInOrder(d: Direction, ss: seq<Screen>, ts: seq<nat>, at: nat, t: nat)
    requires Known(ss, ts) && FarToNear(d, ss, ts) && at <= |ts| && t < |ss|
    requires at > 0 ==> Key(d, ss[ts[at - 1]]) <= Key(d, ss[t])
    requires at < |ts| ==> Key(d, ss[t]) <= Key(d, ss[ts[at]])
    ensures Known(ss, ts[..at] + [t] + ts[at..]) && FarToNear(d, ss, ts[..at] + [t] + ts[at..])
  {
  }

  /** Puts `t` in its place in a sorted sequence, after those it ties with. */
  method Insert(d: Direction, ss: seq<Screen>, ts: seq<nat>, t: nat) returns (inserted: seq<nat>)
    requires Known(ss, ts) && FarToNear(d, ss, ts) && t < |ss|
    ensures multiset(inserted) == multiset(ts + [t])
    ensures Known(ss, inserted) && FarToNear(d, ss, inserted)
  {
    var at := |ts|;
    while at > 0 && Key(d, ss[ts[at - 1]]) > Key(d, ss[t])
      invariant 0 <= at <= |ts| && (at < |ts| ==> Key(d, ss[t]) <= Key(d, ss[ts[at]]))
    {
      at := at - 1;
    }
    InsertedInOrder(d, ss, ts, at, t);
    assert ts == ts[..at] + ts[at..];
    inserted := ts[..at] + [t] + ts[at..];
  }

  /** `std::sort`, of which no more is used than that it leaves a sorted permutation. */
  method Sort(d: Direction, ss: seq<Screen>, targets: seq<nat>) returns (sorted: seq<nat>)
    requires Known(ss, targets)
    ensures multiset(sorted) == multiset(targets)
    ensures Known(ss, sorted) && FarToNear(d, ss, sorted)
  {
    sorted := [];
    for i := 0 to |targets|
      invariant multiset(sorted) == multiset(targets[..i])
      invariant Known(ss, sorted) && FarToNear(d, ss, sorted)
    {
      assert targets[..i + 1] == targets[..i] + [targets[i]];
      sorted := Insert(d, ss, sorted, targets[i]);
    }
    assert targets[..|targets|] == targets;
  }

  // ---- Painting ----

  predicate Within(c: int, lo: int, hi: int) {
    lo <= c <= hi
  }

  /** `edge` with the closed interval from `lo` to `hi` set to `id`. */
  function Painted(edge: Edge, lo: int, hi: int, id: int): (painted: Edge)
    ensures forall c :: lo <= c <= hi ==> Holds(painted, c, id)
    ensures forall c :: !(lo <= c <= hi) ==> (c in painted <==> c in edge) && (c in edge ==> painted[c] == edge[c])
  {
    var rest := map c | c in edge && !(lo <= c <= hi) :: edge[c];
    if id == 0 then rest else rest + map c: int | lo <= c <= hi && Within(c, lo, hi) :: id
  }

  /** The last of `ts` that spans `c`, or -1. */
  function LastOver(d: Direction, ss: seq<Screen>, ts: seq<nat>, c: int): (k: int)
    requires Known(ss, ts)
    ensures -1 <= k < |ts|
    ensures k >= 0 ==> Spans(d, ss[ts[k]], c)
    ensures forall j :: k < j < |ts| ==> !Spans(d, ss[ts[j]], c)
  {
    if ts == [] then -1
    else if Spans(d, ss[ts[|ts| - 1]], c) then |ts| - 1
    else LastOver(d, ss, ts[..|ts| - 1], c)
  }

  /** At `c` the edge shows the last one painted there. */
  ghost predicate ShowsLast(d: Direction, ss: seq<Screen>, s: nat, ts: seq<nat>, edge: Edge, c: int)
    requires s < |ss| && Known(ss, ts)
  {
    var k := if Spans(d, ss[s], c) then LastOver(d, ss, ts, c) else -1;
    if k < 0 then c !in edge else Holds(edge, c, ss[ts[k]].id)
  }

  function Max(a: int, b: int): int {
    if a < b then b else a
  }

  function Min(a: int, b: int): int {
    if b < a then b else a
  }

  /** `std::max` and `std::min` of the two spans, painted with the id of `t`. */
  function Overpaint(d: Direction, ss: seq<Screen>, s: nat, t: nat, edge: Edge): Edge
    requires s < |ss| && t < |ss|
  {
    Painted(edge, Max(Low(d, ss[s]), Low(d, ss[t])), Min(High(d, ss[s]), High(d, ss[t])), ss[t].id)
  }

  lemma PaintOne(d: Direction, ss: seq<Screen>, s: nat, ts: seq<nat>, t: nat, edge: Edge, c: int)
    requires s < |ss| && t < |ss| && Known(ss, ts) && ShowsLast(d, ss, s, ts, edge, c)
    ensures Known(ss, ts + [t]) && ShowsLast(d, ss, s, ts + [t], Overpaint(d, ss, s, t, edge), c)
  {
    assert (ts + [t])[..|ts|] == ts;
  }

  function Painting(d: Direction, ss: seq<Screen>, s: nat, ts: seq<nat>): Edge
    requires s < |ss| && Known(ss, ts)
  {
    if ts == [] then map[]
    else Overpaint(d, ss, s, ts[|ts| - 1], Painting(d, ss, s, ts[..|ts| - 1]))
  }

  lemma {:induction false} PaintingShowsLast(d: Direction, ss: seq<Screen>, s: nat, ts: seq<nat>, c: int)
    requires s < |ss| && Known(ss, ts)
    ensures ShowsLast(d, ss, s, ts, Painting(d, ss, s, ts), c)
  {
    if ts != [] {
      var n := |ts| - 1;
      PaintingShowsLast(d, ss, s, ts[..n], c);
      PaintOne(d, ss, s, ts[..n], ts[n], Painting(d, ss, s, ts[..n]), c);
      assert ts[..n] + [ts[n]] == ts;
    }
  }

  /** The last one painted is a nearest one, as the farthest came first. */
  lemma LastIsNearest(d: Direction, ss: seq<Screen>, s: nat, ts: seq<nat>, edge: Edge, c: int)
    requires s < |ss| && Known(ss, ts) && FarToNear(d, ss, ts)
    requires forall t: nat :: t in ts <==> t < |ss| && Qualifies(d, ss, s, t)
    requires ShowsLast(d, ss, s, ts, edge, c)
    ensures NamesNearest(d, ss, s, edge, c)
  {
    if t: nat :| Candidate(d, ss, s, t, c) {
      var k := LastOver(d, ss, ts, c);
      var i :| 0 <= i < |ts| && ts[i] == t;
      forall u: nat | Candidate(d, ss, s, u, c) ensures Key(d, ss[u]) <= Key(d, ss[ts[k]]) {
        var j :| 0 <= j < |ts| && ts[j] == u;
      }
      assert Nearest(d, ss, s, ts[k], c);
    } else if Spans(d, ss[s], c) {
      var k := LastOver(d, ss, ts, c);
      assert k >= 0 ==> Candidate(d, ss, s, ts[k], c);
    }
  }

  /** Painting the qualifying targets from far to near links the edge to the nearest. */
  lemma PaintingLinks(d: Direction, ss: seq<Screen>, s: nat, ts: seq<nat>)
    requires s < |ss| && Known(ss, ts) && FarToNear(d, ss, ts)
    requires forall t: nat :: t in ts <==> t < |ss| && Qualifies(d, ss, s, t)
    ensures Linked(d, ss, s, Painting(d, ss, s, ts))
  {
    var edge := Painting(d, ss, s, ts);
    forall c ensures NamesNearest(d, ss, s, edge, c) {
      PaintingShowsLast(d, ss, s, ts, c);
      LastIsNearest(d, ss, s, ts, edge, c);
    }
  }

  ghost predicate Blank(links: Links)
    reads links
  {
    links.Valid() && forall d :: d in links.edges ==> links.edges[d] == map[]
  }

  /** The four edges of a screen. */
  class Links {
    var edges: map<Direction, Edge>

    ghost predicate Valid()
      reads this
    {
      edges.Keys == {Up, Right, Down, Left}
    }

    constructor ()
      ensures Blank(this)
    {
      edges := map[Up := map[], Right := map[], Down := map[], Left := map[]];
    }
  }

  method Targets(d: Direction, ss: seq<Screen>, source: nat, all: seq<nat>) returns (targets: seq<nat>)
    requires source < |ss| && forall t: nat :: t in all <==> t < |ss|
    ensures Known(ss, targets) && forall t: nat :: t in targets <==> t < |ss| && Qualifies(d, ss, source, t)
  {
    targets := RemoveSource(source, all);
    assert forall i :: 0 <= i < |targets| ==> targets[i] in targets;
    if d != Left { targets := RemoveBeyond(Left, ss, source, targets); }
    if d != Right { targets := RemoveBeyond(Right, ss, source, targets); }
    if d != Up { targets := RemoveBeyond(Up, ss, source, targets); }
    if d != Down { targets := RemoveBeyond(Down, ss, source, targets); }
  }

  method Paint(d: Direction, ss: seq<Screen>, source: nat, targets: seq<nat>, links: Links)
    requires source < |ss| && Known(ss, targets)
    requires links.Valid() && links.edges[d] == map[]
    modifies links
    ensures links.Valid() && links.edges == old(links.edges)[d := Painting(d, ss, source, targets)]
  {
    for i := 0 to |targets|
      invariant links.edges == old(links.edges)[d := Painting(d, ss, source, targets[..i])]
    {
      assert targets[..i + 1][..i] == targets[..i];
      links.edges := links.edges[d := Overpaint(d, ss, source, targets[i], links.edges[d])];
    }
    assert targets[..|targets|] == targets;
  }

  /** `linkLeft`, `linkRight`, `linkUp` and `linkDown`: all sides but the one in the
      direction are filtered out, and what is left is painted from far to near. */
  method Link(d: Direction, ss: seq<Screen>, source: nat, all: seq<nat>, links: Links)
    requires source < |ss| && forall t: nat :: t in all <==> t < |ss|
    requires links.Valid() && links.edges[d] == map[]
    modifies links
    ensures links.Valid() && links.edges == old(links.edges)[d := links.edges[d]]
    ensures Linked(d, ss, source, links.edges[d])
  {
    var targets := Targets(d, ss, source, all);
    var order := Sort(d, ss, targets);
    assert forall t :: t in order <==> t in multiset(order);
    Paint(d, ss, source, order, links);
    PaintingLinks(d, ss, source, order);
  }

  ghost predicate AllLinked(ss: seq<Screen>, s: nat, edges: map<Direction, Edge>) {
    edges.Keys == {Up, Right, Down, Left} && forall d :: d in edges ==> Linked(d, ss, s, edges[d])
  }

  method LinkAll(ss: seq<Screen>, s: nat, all: seq<nat>, links: Links)
    requires s < |ss| && forall t: nat :: t in all <==> t < |ss|
    requires Blank(links)
    modifies links
    ensures AllLinked(ss, s, links.edges)
  {
    Link(Up, ss, s, all, links);
    Link(Right, ss, s, all, links);
    Link(Down, ss, s, all, links);
    Link(Left, ss, s, all, links);
  }

  ghost predicate Separate(links: seq<Links>) {
    forall i, j :: 0 <= i < j < |links| ==> links[i] != links[j]
  }

  method NewLinks(n: nat) returns (links: seq<Links>, targets: seq<nat>)
    ensures |links| == n && Separate(links)
    ensures forall i :: 0 <= i < n ==> fresh(links[i]) && Blank(links[i])
    ensures forall t: nat :: t in targets <==> t < n
  {
    links, targets := [], [];
    for t := 0 to n
      invariant |links| == t && Separate(links)
      invariant forall i :: 0 <= i < t ==> fresh(links[i]) && Blank(links[i])
      invariant forall u: nat :: u in targets <==> u < t
    {
      var l := new Links();
      links, targets := links + [l], targets + [t];
    }
  }

  /** `linkScreens`: every edge of every screen names, at each coordinate, a nearest
      screen there. */
  method LinkScreens(ss: seq<Screen>) returns (links: seq<Links>)
    ensures |links| == |ss| && Separate(links)
    ensures forall i :: 0 <= i < |links| ==> fresh(links[i]) && AllLinked(ss, i, links[i].edges)
  {
    var targets;
    links, targets := NewLinks(|ss|);
    for s := 0 to |ss|
      invariant forall i :: 0 <= i < s ==> AllLinked(ss, i, links[i].edges)
      invariant forall i :: s <= i < |ss| ==> Blank(links[i])
    {
      assert forall i :: 0 <= i < |ss| && i != s ==> links[i] != links[s];
      LinkAll(ss, s, targets, links[s]);
    }
  }
}
