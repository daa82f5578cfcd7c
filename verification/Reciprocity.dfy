/** When leaving a screen and turning back leads where one came from. */
module Reciprocity {
  import opened ScreenLinks

  /** Each screen has an id of its own. */
  ghost predicate OwnIds(ss: seq<Screen>) {
    && (forall i :: 0 <= i < |ss| ==> ss[i].id != 0)
    && (forall i, j :: 0 <= i < j < |ss| ==> ss[i].id != ss[j].id)
  }

  /** Screens of positive size with ids of their own, no two of which overlap. */
  ghost predicate Layout(ss: seq<Screen>) {
    && OwnIds(ss)
    && (forall i :: 0 <= i < |ss| ==> ss[i].width > 0 && ss[i].height > 0)
    && (forall i, j :: 0 <= i < |ss| && 0 <= j < |ss| && i != j ==> Disjoint(ss[i], ss[j]))
  }

  predicate Disjoint(s: Screen, t: Screen) {
    exists side: Direction :: Beyond(side, s, t)
  }

  /** Neither lies wholly past an end of the other's edge. */
  predicate Faces(d: Direction, s: Screen, t: Screen) {
    Low(d, s) < High(d, t) && Low(d, t) < High(d, s)
  }

  predicate Straddles(d: Direction, s: Screen, c: int) {
    Low(d, s) < c < High(d, s)
  }

  // ---- What a link is, in coordinates ----

  /** Across its edge at `c` screen `s` has `t` before it: not wholly past the opposite
      edge, and reaching over the same stretch, to whose closed ends `c` belongs. */
  predicate Sees(d: Direction, s: Screen, t: Screen, c: int) {
    match d
    case Left => t.x < s.x + s.width && SameStretch(s.y, s.height, t.y, t.height, c)
    case Right => s.x < t.x + t.width && SameStretch(s.y, s.height, t.y, t.height, c)
    case Up => t.y < s.y + s.height && SameStretch(s.x, s.width, t.x, t.width, c)
    case Down => s.y < t.y + t.height && SameStretch(s.x, s.width, t.x, t.width, c)
  }

  predicate SameStretch(a: int, length: int, b: int, extent: int, c: int) {
    a < b + extent && b < a + length && a <= c <= a + length && b <= c <= b + extent
  }

  /** `t` starts at least as far towards a source it lies beyond as `u` does, by their
      left or upper edges. */
  predicate AsNear(d: Direction, t: Screen, u: Screen) {
    match d
    case Left => u.x <= t.x
    case Right => t.x <= u.x
    case Up => u.y <= t.y
    case Down => t.y <= u.y
  }

  ghost predicate SeesNearest(d: Direction, ss: seq<Screen>, s: nat, t: nat, c: int) {
    && s < |ss| && t < |ss| && t != s && Sees(d, ss[s], ss[t], c)
    && forall u :: 0 <= u < |ss| && u != s && Sees(d, ss[s], ss[u], c) ==> AsNear(d, ss[t], ss[u])
  }

  lemma OtherSides(d: Direction, s: Screen, t: Screen)
    ensures (forall side: Direction :: side != d ==> !Beyond(side, s, t)) <==>
      && (d != Left ==> !Beyond(Left, s, t)) && (d != Right ==> !Beyond(Right, s, t))
      && (d != Up ==> !Beyond(Up, s, t)) && (d != Down ==> !Beyond(Down, s, t))
  {
  }

  lemma CandidateSees(d: Direction, ss: seq<Screen>, s: nat, t: nat, c: int)
    ensures Candidate(d, ss, s, t, c) <==> s < |ss| && t < |ss| && t != s && Sees(d, ss[s], ss[t], c)
  {
    if s < |ss| && t < |ss| { OtherSides(d, ss[s], ss[t]); }
  }

  lemma NearestSees(d: Direction, ss: seq<Screen>, s: nat, t: nat, c: int)
    ensures Nearest(d, ss, s, t, c) <==> SeesNearest(d, ss, s, t, c)
  {
    forall u: nat ensures Candidate(d, ss, s, u, c) <==> s < |ss| && u < |ss| && u != s && Sees(d, ss[s], ss[u], c) {
      CandidateSees(d, ss, s, u, c);
    }
  }

  /** What the links of an edge are, for any screens: at each coordinate the number of a
      nearest screen in sight; nothing, if that number is 0 or there is none in sight. */
  lemma LinkedMeans(d: Direction, ss: seq<Screen>, s: nat, edge: Edge, c: int)
    requires s < |ss| && Linked(d, ss, s, edge)
    ensures c in edge ==> edge[c] != 0 && exists t: nat :: SeesNearest(d, ss, s, t, c) && edge[c] == ss[t].id
    ensures c !in edge ==>
      || (exists t: nat :: SeesNearest(d, ss, s, t, c) && ss[t].id == 0)
      || forall t :: 0 <= t < |ss| && t != s ==> !Sees(d, ss[s], ss[t], c)
  {
    assert NamesNearest(d, ss, s, edge, c);
    forall t: nat ensures Candidate(d, ss, s, t, c) <==> t < |ss| && t != s && Sees(d, ss[s], ss[t], c) {
      CandidateSees(d, ss, s, t, c);
    }
    if t: nat :| Nearest(d, ss, s, t, c) && Holds(edge, c, ss[t].id) {
      NearestSees(d, ss, s, t, c);
    }
  }

  // ---- Candidates ----

  lemma FacingApart(d: Direction, s: Screen, t: Screen)
    requires s.width > 0 && s.height > 0 && t.width > 0 && t.height > 0
    requires Disjoint(s, t) && Faces(d, s, t)
    ensures Beyond(d, s, t) || Beyond(Opposite(d), s, t)
    ensures Beyond(d, s, t) <==> Key(d, t) < Key(d, s)
    ensures Key(Opposite(d), t) == -Key(d, t)
  {
    var side: Direction :| Beyond(side, s, t);
  }

  lemma QualifiesIs(d: Direction, ss: seq<Screen>, s: nat, t: nat)
    requires Layout(ss) && s < |ss| && t < |ss|
    ensures Qualifies(d, ss, s, t) <==> s != t && Faces(d, ss[s], ss[t]) && Beyond(d, ss[s], ss[t])
  {
    if s != t {
      assert Disjoint(ss[s], ss[t]);
      if Qualifies(d, ss, s, t) {
        assert Faces(d, ss[s], ss[t]) by { FacesIs(d, ss[s], ss[t]); }
        FacingApart(d, ss[s], ss[t]);
      }
      if Faces(d, ss[s], ss[t]) && Beyond(d, ss[s], ss[t]) {
        FacesIs(d, ss[s], ss[t]);
      }
    }
  }

  lemma FacesIs(d: Direction, s: Screen, t: Screen)
    ensures Faces(d, s, t) <==> forall side: Direction :: side != d && side != Opposite(d) ==> !Beyond(side, s, t)
    ensures s.width > 0 && s.height > 0 && t.width > 0 && t.height > 0 && Beyond(d, s, t) ==> !Beyond(Opposite(d), s, t)
    ensures Opposite(d) != d
  {
    assert d == Left || d == Right ==>
      (Faces(d, s, t) <==> !Beyond(Up, s, t) && !Beyond(Down, s, t));
    assert d == Up || d == Down ==>
      (Faces(d, s, t) <==> !Beyond(Left, s, t) && !Beyond(Right, s, t));
  }

  /** Being a target of each other in opposite directions. */
  lemma Mirrored(d: Direction, ss: seq<Screen>, s: nat, t: nat, c: int)
    requires Layout(ss)
    ensures Candidate(d, ss, s, t, c) <==> Candidate(Opposite(d), ss, t, s, c)
  {
    if s < |ss| && t < |ss| {
      QualifiesIs(d, ss, s, t);
      QualifiesIs(Opposite(d), ss, t, s);
    }
  }

  /** Of two screens that face each other at `c`, the greater key is beyond the other. */
  lemma Between(d: Direction, ss: seq<Screen>, s: nat, t: nat, c: int)
    requires Layout(ss) && s < |ss| && t < |ss| && s != t
    requires Spans(d, ss[s], c) && Spans(d, ss[t], c) && Faces(d, ss[s], ss[t])
    ensures Candidate(d, ss, s, t, c) <==> Key(d, ss[t]) < Key(d, ss[s])
    ensures Key(d, ss[s]) != Key(d, ss[t])
  {
    assert Disjoint(ss[s], ss[t]) && Disjoint(ss[t], ss[s]);
    QualifiesIs(d, ss, s, t);
    FacingApart(d, ss[s], ss[t]);
    FacingApart(d, ss[t], ss[s]);
  }

  lemma CandidateFaces(d: Direction, ss: seq<Screen>, s: nat, t: nat, c: int)
    requires Layout(ss) && Candidate(d, ss, s, t, c)
    ensures s != t && Faces(d, ss[s], ss[t]) && Key(d, ss[t]) < Key(d, ss[s])
  {
    QualifiesIs(d, ss, s, t);
    Between(d, ss, s, t, c);
  }

  lemma OppositeKey(d: Direction, s: Screen)
    ensures Key(Opposite(d), s) == -Key(d, s)
    ensures Opposite(Opposite(d)) == d
    ensures Low(Opposite(d), s) == Low(d, s) && High(Opposite(d), s) == High(d, s)
  {
  }

  // ---- What the edges name ----

  /** Edges in direction `d`, one for each screen. */
  ghost predicate AllLinkedTo(d: Direction, ss: seq<Screen>, edges: seq<Edge>) {
    |edges| == |ss| && forall s :: 0 <= s < |ss| ==> Linked(d, ss, s, edges[s])
  }

  /** With ids of their own, an edge names a screen only if it is a nearest one. */
  lemma NamedIsNearest(d: Direction, ss: seq<Screen>, s: nat, t: nat, edge: Edge, c: int)
    requires OwnIds(ss) && s < |ss| && t < |ss| && Linked(d, ss, s, edge)
    requires Holds(edge, c, ss[t].id)
    ensures Nearest(d, ss, s, t, c)
  {
    assert NamesNearest(d, ss, s, edge, c);
    var u: nat :| Nearest(d, ss, s, u, c) && Holds(edge, c, ss[u].id);
    assert u == t;
  }

  lemma SomeIsNamed(d: Direction, ss: seq<Screen>, s: nat, t: nat, edge: Edge, c: int) returns (u: nat)
    requires s < |ss| && Linked(d, ss, s, edge) && Candidate(d, ss, s, t, c)
    ensures Nearest(d, ss, s, u, c) && Holds(edge, c, ss[u].id)
  {
    assert NamesNearest(d, ss, s, edge, c);
    u :| Nearest(d, ss, s, u, c) && Holds(edge, c, ss[u].id);
  }

  /** An edge is missing a coordinate exactly if no other screen qualifies there, and it
      never names the screen it belongs to. */
  lemma EdgesAreComplete(d: Direction, ss: seq<Screen>, s: nat, edge: Edge, c: int)
    requires OwnIds(ss) && s < |ss| && Linked(d, ss, s, edge)
    ensures c in edge <==> exists t: nat :: Candidate(d, ss, s, t, c)
    ensures c in edge ==> edge[c] != ss[s].id
  {
    assert NamesNearest(d, ss, s, edge, c);
    if t: nat :| Candidate(d, ss, s, t, c) {
      var u := SomeIsNamed(d, ss, s, t, edge, c);
    }
  }

  // ---- Reciprocity ----

  ghost predicate Reciprocal(ss: seq<Screen>, forth: seq<Edge>, back: seq<Edge>, c: int)
    requires |forth| == |back| == |ss|
  {
    forall s, t :: 0 <= s < |ss| && 0 <= t < |ss| ==> (Holds(forth[s], c, ss[t].id) <==> Holds(back[t], c, ss[s].id))
  }

  /** No screen that straddles `c` is nearer to `s` than `t` is, or as near. */
  ghost predicate InFront(d: Direction, ss: seq<Screen>, s: nat, t: nat, c: int) {
    && Candidate(d, ss, s, t, c)
    && forall u: nat :: Candidate(d, ss, s, u, c) && Straddles(d, ss[u], c) ==> Key(d, ss[u]) < Key(d, ss[t])
  }

  /** From `s` two screens are in sight, one that ends at `c` and one that begins there. */
  ghost predicate Split(d: Direction, ss: seq<Screen>, s: nat, e: nat, f: nat, c: int) {
    InFront(d, ss, s, e, c) && InFront(d, ss, s, f, c) && High(d, ss[e]) == c == Low(d, ss[f])
  }

  ghost predicate Unsplit(d: Direction, ss: seq<Screen>, c: int) {
    forall s, e, f :: !Split(d, ss, s, e, f, c)
  }

  /** A screen that faces `s` and from `t` looks at least as near as `s` is in between. */
  lemma InBetween(d: Direction, ss: seq<Screen>, s: nat, t: nat, u: nat, c: int)
    requires Layout(ss) && Candidate(d, ss, s, t, c) && Candidate(Opposite(d), ss, t, u, c)
    requires u != s && Faces(d, ss[s], ss[u]) && Key(Opposite(d), ss[u]) >= Key(Opposite(d), ss[s])
    ensures Candidate(d, ss, s, u, c) && Key(d, ss[u]) > Key(d, ss[t])
  {
    OppositeKey(d, ss[u]);
    OppositeKey(d, ss[s]);
    OppositeKey(d, ss[t]);
    Between(d, ss, s, u, c);
    CandidateFaces(Opposite(d), ss, t, u, c);
  }

  lemma NothingBetween(d: Direction, ss: seq<Screen>, s: nat, t: nat, u: nat, c: int)
    requires Layout(ss) && Nearest(d, ss, s, t, c) && Nearest(Opposite(d), ss, t, u, c)
    requires Candidate(Opposite(d), ss, t, s, c) && u != s
    ensures !Faces(d, ss[s], ss[u])
    ensures High(d, ss[u]) == c == Low(d, ss[s]) || High(d, ss[s]) == c == Low(d, ss[u])
  {
    OppositeKey(d, ss[u]);
    if Faces(d, ss[s], ss[u]) { InBetween(d, ss, s, t, u, c); }
  }

  /** If `s` leads to `t` but `t` leads back to some other screen, the view from `t` is split. */
  lemma SplitView(d: Direction, ss: seq<Screen>, s: nat, t: nat, u: nat, c: int)
    requires Layout(ss) && Nearest(d, ss, s, t, c) && Nearest(Opposite(d), ss, t, u, c)
    requires Candidate(Opposite(d), ss, t, s, c) && u != s
    ensures Split(Opposite(d), ss, t, u, s, c) || Split(Opposite(d), ss, t, s, u, c)
  {
    var o := Opposite(d);
    NothingBetween(d, ss, s, t, u, c);
    forall v: nat | Candidate(o, ss, t, v, c) && Straddles(o, ss[v], c)
      ensures Key(o, ss[v]) < Key(o, ss[s])
    {
      OppositeKey(d, ss[v]);
      if Key(o, ss[v]) >= Key(o, ss[s]) { InBetween(d, ss, s, t, v, c); }
    }
    OppositeKey(d, ss[u]);
    OppositeKey(d, ss[s]);
  }

  /** Without a split, who is named names back. */
  lemma NamesBack(d: Direction, ss: seq<Screen>, s: nat, t: nat, forth: Edge, back: Edge, c: int)
    requires Layout(ss) && s < |ss| && t < |ss|
    requires Linked(d, ss, s, forth) && Linked(Opposite(d), ss, t, back)
    requires Unsplit(Opposite(d), ss, c) && Holds(forth, c, ss[t].id)
    ensures Holds(back, c, ss[s].id)
  {
    NamedIsNearest(d, ss, s, t, forth, c);
    Mirrored(d, ss, s, t, c);
    var u := SomeIsNamed(Opposite(d), ss, t, s, back, c);
    if u != s { SplitView(d, ss, s, t, u, c); }
  }

  /** `t` ends at `c`, or begins there. */
  predicate Tips(d: Direction, t: Screen, ends: bool, c: int) {
    if ends then High(d, t) == c else Low(d, t) == c
  }

  /** Of the screens that end at `c` and are in sight of a straddling `s`, some one leads back to `s`. */
  lemma {:induction false} TipLeadsBack(d: Direction, ss: seq<Screen>, s: nat, e: nat, ends: bool,
                                        back: seq<Edge>, c: int)
    returns (e': nat)
    requires Layout(ss) && AllLinkedTo(Opposite(d), ss, back)
    requires InFront(d, ss, s, e, c) && Straddles(d, ss[s], c) && Tips(d, ss[e], ends, c)
    ensures e' < |ss| && Tips(d, ss[e'], ends, c) && Holds(back[e'], c, ss[s].id)
    decreases Key(d, ss[s]) - Key(d, ss[e])
  {
    var o := Opposite(d);
    Mirrored(d, ss, s, e, c);
    OppositeKey(d, ss[s]);
    CandidateFaces(d, ss, s, e, c);
    var u := SomeIsNamed(o, ss, e, s, back[e], c);
    if u == s { return e; }
    OppositeKey(d, ss[u]);
    CandidateFaces(o, ss, e, u, c);
    InBetween(d, ss, s, e, u, c);
    CandidateFaces(d, ss, s, u, c);
    e' := TipLeadsBack(d, ss, s, u, ends, back, c);
  }

  /** Where the view is split, two screens lead back to one that leads to one of them at most. */
  lemma SplitBreaks(d: Direction, ss: seq<Screen>, s: nat, e: nat, f: nat, forth: seq<Edge>, back: seq<Edge>, c: int)
    requires Layout(ss) && AllLinkedTo(d, ss, forth) && AllLinkedTo(Opposite(d), ss, back)
    requires Split(d, ss, s, e, f, c)
    ensures !Reciprocal(ss, forth, back, c)
  {
    CandidateFaces(d, ss, s, e, c);
    CandidateFaces(d, ss, s, f, c);
    var e' := TipLeadsBack(d, ss, s, e, true, back, c);
    var f' := TipLeadsBack(d, ss, s, f, false, back, c);
    assert e' != f';
    assert !(Holds(forth[s], c, ss[e'].id) && Holds(forth[s], c, ss[f'].id));
  }

  /** Turning back leads where one came from, at `c` and in both directions, exactly
      where no view is split. */
  lemma ReciprocalExactlyWhereUnsplit(d: Direction, ss: seq<Screen>, forth: seq<Edge>, back: seq<Edge>, c: int)
    requires Layout(ss) && AllLinkedTo(d, ss, forth) && AllLinkedTo(Opposite(d), ss, back)
    ensures Reciprocal(ss, forth, back, c) <==> Unsplit(d, ss, c) && Unsplit(Opposite(d), ss, c)
  {
    var o := Opposite(d);
    assert Opposite(o) == d;
    if Unsplit(d, ss, c) && Unsplit(o, ss, c) {
      forall s: nat, t: nat | s < |ss| && t < |ss| && Holds(forth[s], c, ss[t].id) ensures Holds(back[t], c, ss[s].id) {
        NamesBack(d, ss, s, t, forth[s], back[t], c);
      }
      forall s: nat, t: nat | s < |ss| && t < |ss| && Holds(back[t], c, ss[s].id) ensures Holds(forth[s], c, ss[t].id) {
        NamesBack(o, ss, t, s, back[t], forth[s], c);
      }
    }
    if s, e, f :| Split(d, ss, s, e, f, c) {
      SplitBreaks(d, ss, s, e, f, forth, back, c);
    }
    if s, e, f :| Split(o, ss, s, e, f, c) {
      SplitBreaks(o, ss, s, e, f, back, forth, c);
      assert !Reciprocal(ss, forth, back, c);
    }
  }

  /** The edges in direction `d` of linked screens. */
  function EdgesTo(d: Direction, links: seq<map<Direction, Edge>>): (edges: seq<Edge>)
    ensures |edges| == |links|
    ensures forall i :: 0 <= i < |links| && d in links[i] ==> edges[i] == links[i][d]
  {
    seq(|links|, i requires 0 <= i < |links| => if d in links[i] then links[i][d] else map[])
  }

  /** So it is of what `LinkScreens` leaves, in each direction. */
  lemma LinkedScreensReciprocate(ss: seq<Screen>, links: seq<map<Direction, Edge>>, d: Direction, c: int)
    requires Layout(ss) && |links| == |ss| && forall i :: 0 <= i < |ss| ==> AllLinked(ss, i, links[i])
    ensures Reciprocal(ss, EdgesTo(d, links), EdgesTo(Opposite(d), links), c) <==>
      Unsplit(d, ss, c) && Unsplit(Opposite(d), ss, c)
  {
    forall o: Direction ensures AllLinkedTo(o, ss, EdgesTo(o, links)) {
      forall s | 0 <= s < |ss| ensures Linked(o, ss, s, EdgesTo(o, links)[s]) { assert AllLinked(ss, s, links[s]); }
    }
    ReciprocalExactlyWhereUnsplit(d, ss, EdgesTo(d, links), EdgesTo(Opposite(d), links), c);
  }

  /** In particular at every coordinate where no screen ends as another begins. */
  lemma ReciprocalOffBoundaries(d: Direction, ss: seq<Screen>, forth: seq<Edge>, back: seq<Edge>, c: int)
    requires Layout(ss) && AllLinkedTo(d, ss, forth) && AllLinkedTo(Opposite(d), ss, back)
    requires forall i, j :: 0 <= i < |ss| && 0 <= j < |ss| ==> !(High(d, ss[i]) == c && Low(d, ss[j]) == c)
    ensures Reciprocal(ss, forth, back, c)
  {
    OppositeSpans(d, ss);
    ReciprocalExactlyWhereUnsplit(d, ss, forth, back, c);
  }

  lemma OppositeSpans(d: Direction, ss: seq<Screen>)
    ensures forall i :: 0 <= i < |ss| ==>
      Low(Opposite(d), ss[i]) == Low(d, ss[i]) && High(Opposite(d), ss[i]) == High(d, ss[i])
  {
  }

  /** A boundary where it fails: one screen with two on its right, one above the other;
      where they meet, both lead to it and it leads to one of them. */
  lemma ThreeScreensSplit(forth: seq<Edge>, back: seq<Edge>)
    requires
      var ss := [Screen(1, 0, 0, 100, 100), Screen(2, 100, 0, 100, 50), Screen(3, 100, 50, 100, 50)];
      AllLinkedTo(Right, ss, forth) && AllLinkedTo(Left, ss, back)
    ensures Holds(back[1], 50, 1) && Holds(back[2], 50, 1)
    ensures !(Holds(forth[0], 50, 2) && Holds(forth[0], 50, 3))
  {
    var ss := [Screen(1, 0, 0, 100, 100), Screen(2, 100, 0, 100, 50), Screen(3, 100, 50, 100, 50)];
    assert Candidate(Left, ss, 1, 0, 50) && Candidate(Left, ss, 2, 0, 50);
    var u := SomeIsNamed(Left, ss, 1, 0, back[1], 50);
    var v := SomeIsNamed(Left, ss, 2, 0, back[2], 50);
    assert !Qualifies(Left, ss, 1, 2) by { assert Beyond(Down, ss[1], ss[2]); }
    assert !Qualifies(Left, ss, 2, 1) by { assert Beyond(Up, ss[2], ss[1]); }
  }
}
