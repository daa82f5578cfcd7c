/** Where the icon of a screen is put so that it overlaps no other: beside the box
    around all the others. */
module Placement {

  const ICON_WIDTH: int := 86
  const ICON_HEIGHT: int := 58
  const VIEW_WIDTH: int := 600
  const VIEW_HEIGHT: int := 380
  const INT_MAX: int := 0x7fff_ffff
  const INT_MIN: int := -0x8000_0000

  datatype UIScreen = UIScreen(name: string, posX: int, posY: int)
  {
    /** A coordinate outside the visible area is refused, and the old one kept. */
    function SetPosX(x: int): UIScreen {
      if x <= -ICON_WIDTH || x >= VIEW_WIDTH then this else this.(posX := x)
    }

    function SetPosY(y: int): UIScreen {
      if y <= -ICON_HEIGHT || y >= VIEW_HEIGHT then this else this.(posY := y)
    }

    predicate Visible() {
      -ICON_WIDTH < posX < VIEW_WIDTH && -ICON_HEIGHT < posY < VIEW_HEIGHT
    }
  }

  datatype Box = Box(left: int, top: int, right: int, bottom: int)

  datatype Side = Left | Right | Top | Bottom

  // ---- Overlaps ----

  predicate Collide(srcX: int, srcY: int, srcW: int, srcH: int, desX: int, desY: int, desW: int, desH: int) {
    srcX < desX + desW && srcY < desY + desH && srcX + srcW > desX && srcY + srcH > desY
  }

  predicate Overlap(a: UIScreen, b: UIScreen) {
    Collide(a.posX, a.posY, ICON_WIDTH, ICON_HEIGHT, b.posX, b.posY, ICON_WIDTH, ICON_HEIGHT)
  }

  /** `Collide` holds exactly if some unit square is covered by both rectangles. */
  lemma CollideIsSharing(sx: int, sy: int, sw: int, sh: int, dx: int, dy: int, dw: int, dh: int)
    requires sw > 0 && sh > 0 && dw > 0 && dh > 0
    ensures Collide(sx, sy, sw, sh, dx, dy, dw, dh) <==>
      exists x, y :: Covers(sx, sy, sw, sh, x, y) && Covers(dx, dy, dw, dh, x, y)
  {
    var x, y := if sx < dx then dx else sx, if sy < dy then dy else sy;
    assert Collide(sx, sy, sw, sh, dx, dy, dw, dh) ==> Covers(sx, sy, sw, sh, x, y) && Covers(dx, dy, dw, dh, x, y);
  }

  predicate Covers(sx: int, sy: int, sw: int, sh: int, x: int, y: int) {
    sx <= x < sx + sw && sy <= y < sy + sh
  }

  /** `collideWithOthers` */
  method CollideWithOthers(screens: seq<UIScreen>, index: nat) returns (result: seq<nat>)
    requires index < |screens|
    ensures forall i: nat :: i in result <==> i < |screens| && i != index && Overlap(screens[index], screens[i])
    ensures forall i, j :: 0 <= i < j < |result| ==> result[i] < result[j]
  {
    result := [];
    for i := 0 to |screens|
      invariant forall k: nat :: k in result <==> k < i && k != index && Overlap(screens[index], screens[k])
      invariant forall k :: 0 <= k < |result| ==> result[k] < i
      invariant forall k, l :: 0 <= k < l < |result| ==> result[k] < result[l]
    {
      if i != index && Overlap(screens[index], screens[i]) { result := result + [i]; }
    }
  }

  predicate IsOther(screens: seq<UIScreen>, ignore: int, i: int) {
    0 <= i < |screens| && i != ignore
  }

  ghost predicate Clear(screens: seq<UIScreen>, index: int, s: UIScreen) {
    forall i :: IsOther(screens, index, i) ==> !Overlap(s, screens[i])
  }

  // ---- The box ----

  ghost predicate Inside(s: UIScreen, b: Box) {
    b.left <= s.posX && s.posX + ICON_WIDTH <= b.right && b.top <= s.posY && s.posY + ICON_HEIGHT <= b.bottom
  }

  ghost predicate AllInside(screens: seq<UIScreen>, ignore: int, b: Box) {
    forall i :: IsOther(screens, ignore, i) ==> Inside(screens[i], b)
  }

  /** `b` is the least box around all screens but the one to ignore. */
  ghost predicate Encloses(screens: seq<UIScreen>, ignore: int, b: Box) {
    && AllInside(screens, ignore, b)
    && (exists i :: IsOther(screens, ignore, i) && screens[i].posX == b.left)
    && (exists i :: IsOther(screens, ignore, i) && screens[i].posX + ICON_WIDTH == b.right)
    && (exists i :: IsOther(screens, ignore, i) && screens[i].posY == b.top)
    && (exists i :: IsOther(screens, ignore, i) && screens[i].posY + ICON_HEIGHT == b.bottom)
  }

  ghost predicate HasOthers(screens: seq<UIScreen>, ignore: int) {
    exists i :: IsOther(screens, ignore, i)
  }

  ghost predicate AllVisible(screens: seq<UIScreen>) {
    forall i :: 0 <= i < |screens| ==> screens[i].Visible()
  }

  /** `b` is the box of the screens, which is no more than a point if there are none. */
  ghost predicate IsBox(screens: seq<UIScreen>, ignore: int, b: Box) {
    if HasOthers(screens, ignore) then Encloses(screens, ignore, b) && b.left < b.right && b.top < b.bottom
    else b == Box(0, 0, 0, 0)
  }

  function Min(a: int, b: int): int {
    if a < b then a else b
  }

  function Max(a: int, b: int): int {
    if a > b then a else b
  }

  function Extend(b: Box, s: UIScreen): Box {
    Box(Min(b.left, s.posX), Min(b.top, s.posY), Max(b.right, s.posX + ICON_WIDTH), Max(b.bottom, s.posY + ICON_HEIGHT))
  }

  const NOWHERE := Box(INT_MAX, INT_MAX, INT_MIN, INT_MIN)

  /** What the loop has after some of the screens. */
  ghost predicate BoxSoFar(screens: seq<UIScreen>, ignore: int, b: Box) {
    if HasOthers(screens, ignore) then Encloses(screens, ignore, b) else b == NOWHERE
  }

  lemma IgnoredIsNoOther(screens: seq<UIScreen>, s: UIScreen, ignore: int, b: Box)
    requires ignore == |screens| && BoxSoFar(screens, ignore, b)
    ensures BoxSoFar(screens + [s], ignore, b)
  {
    var more := screens + [s];
    assert forall i :: IsOther(screens, ignore, i) <==> IsOther(more, ignore, i);
    if HasOthers(screens, ignore) { StillAttained(screens, s, ignore, b); }
  }

  lemma StillAttained(screens: seq<UIScreen>, s: UIScreen, ignore: int, b: Box)
    requires Encloses(screens, ignore, b) && (ignore == |screens| || Inside(s, b))
    ensures Encloses(screens + [s], ignore, b)
  {
    var more := screens + [s];
    assert forall i :: IsOther(screens, ignore, i) ==> IsOther(more, ignore, i) && more[i] == screens[i];
    var l :| IsOther(screens, ignore, l) && screens[l].posX == b.left;
    var r :| IsOther(screens, ignore, r) && screens[r].posX + ICON_WIDTH == b.right;
    var t :| IsOther(screens, ignore, t) && screens[t].posY == b.top;
    var m :| IsOther(screens, ignore, m) && screens[m].posY + ICON_HEIGHT == b.bottom;
    assert more[l].posX == b.left && more[r].posX + ICON_WIDTH == b.right;
    assert more[t].posY == b.top && more[m].posY + ICON_HEIGHT == b.bottom;
  }

  lemma ExtendEncloses(screens: seq<UIScreen>, s: UIScreen, ignore: int, b: Box)
    requires s.Visible() && ignore != |screens| && BoxSoFar(screens, ignore, b)
    ensures Encloses(screens + [s], ignore, Extend(b, s)) && HasOthers(screens + [s], ignore)
  {
    var more, n, e := screens + [s], |screens|, Extend(b, s);
    assert IsOther(more, ignore, n) && more[n] == s;
    assert forall i :: 0 <= i < n ==> more[i] == screens[i];
    forall i | IsOther(more, ignore, i) ensures Inside(more[i], e) {
      if i < n {
        assert IsOther(screens, ignore, i);
        assert Inside(screens[i], b);
      }
    }
    if HasOthers(screens, ignore) {
      var l :| IsOther(screens, ignore, l) && screens[l].posX == b.left;
      var r :| IsOther(screens, ignore, r) && screens[r].posX + ICON_WIDTH == b.right;
      var t :| IsOther(screens, ignore, t) && screens[t].posY == b.top;
      var m :| IsOther(screens, ignore, m) && screens[m].posY + ICON_HEIGHT == b.bottom;
      var l', r', t', m' := if e.left == b.left then l else n, if e.right == b.right then r else n,
                            if e.top == b.top then t else n, if e.bottom == b.bottom then m else n;
      assert IsOther(more, ignore, l') && more[l'].posX == e.left;
      assert IsOther(more, ignore, r') && more[r'].posX + ICON_WIDTH == e.right;
      assert IsOther(more, ignore, t') && more[t'].posY == e.top;
      assert IsOther(more, ignore, m') && more[m'].posY + ICON_HEIGHT == e.bottom;
    }
  }

  lemma FinishedBox(screens: seq<UIScreen>, ignore: int, b: Box)
    requires AllVisible(screens) && BoxSoFar(screens, ignore, b) && HasOthers(screens, ignore)
    ensures IsBox(screens, ignore, b) && b.left < INT_MAX && b.top < INT_MAX && b.right > INT_MIN && b.bottom > INT_MIN
  {
    var i :| IsOther(screens, ignore, i);
    assert screens[i].Visible() && Inside(screens[i], b);
  }

  // ---- Which side ----

  function Across(side: Side): Side {
    match side
    case Left => Right
    case Right => Left
    case Top => Bottom
    case Bottom => Top
  }

  predicate Horizontal(side: Side) {
    side == Left || side == Right
  }

  function Abs(x: int): nat {
    if x < 0 then -x else x
  }

  /** The distance of the middle of an icon at (x, y) from a side, in half icons of 100. */
  function Distance(side: Side, b: Box, x: int, y: int): nat {
    match side
    case Left => Abs(x + ICON_WIDTH / 2 - b.left) * 200 / ICON_WIDTH
    case Right => Abs(x + ICON_WIDTH / 2 - b.right) * 200 / ICON_WIDTH
    case Top => Abs(y + ICON_HEIGHT / 2 - b.top) * 200 / ICON_HEIGHT
    case Bottom => Abs(y + ICON_HEIGHT / 2 - b.bottom) * 200 / ICON_HEIGHT
  }

  /** The middle of an icon at (x, y) is nearer to a side than `k + 1` half percent of the
      icon's extent that way: twice the distance in points is compared, as the middle may
      fall between two. */
  predicate NearerThan(side: Side, b: Box, x: int, y: int, k: nat) {
    match side
    case Left => Abs(2 * x + ICON_WIDTH - 2 * b.left) * 100 < (k + 1) * ICON_WIDTH
    case Right => Abs(2 * x + ICON_WIDTH - 2 * b.right) * 100 < (k + 1) * ICON_WIDTH
    case Top => Abs(2 * y + ICON_HEIGHT - 2 * b.top) * 100 < (k + 1) * ICON_HEIGHT
    case Bottom => Abs(2 * y + ICON_HEIGHT - 2 * b.bottom) * 100 < (k + 1) * ICON_HEIGHT
  }

  lemma DivisionRoundsDown(a: nat, d: nat, k: nat)
    requires d > 0
    ensures a / d <= k <==> a < (k + 1) * d
  {
    var q := a / d;
    assert a == q * d + a % d;
    if q <= k {
      assert q * d <= k * d;
    } else {
      assert (k + 1) * d <= q * d;
    }
  }

  /** What `Distance` measures. */
  lemma DistanceIs(side: Side, b: Box, x: int, y: int, k: nat)
    ensures Distance(side, b, x, y) <= k <==> NearerThan(side, b, x, y, k)
  {
    match side
    case Left => DivisionRoundsDown(Abs(x + ICON_WIDTH / 2 - b.left) * 200, ICON_WIDTH, k);
    case Right => DivisionRoundsDown(Abs(x + ICON_WIDTH / 2 - b.right) * 200, ICON_WIDTH, k);
    case Top => DivisionRoundsDown(Abs(y + ICON_HEIGHT / 2 - b.top) * 200, ICON_HEIGHT, k);
    case Bottom => DivisionRoundsDown(Abs(y + ICON_HEIGHT / 2 - b.bottom) * 200, ICON_HEIGHT, k);
  }

  /** Reflecting the icon in the middle of the box exchanges opposite sides. */
  lemma ReflectionExchangesSides(side: Side, b: Box, x: int, y: int)
    ensures
      var x', y' := b.left + b.right - x - ICON_WIDTH, b.top + b.bottom - y - ICON_HEIGHT;
      Distance(side, b, x', y') == Distance(Across(side), b, x, y)
  {
  }

  /** No side is nearer, by the middle of the icon and in parts of its extent. */
  ghost predicate NearestSide(side: Side, b: Box, x: int, y: int) {
    forall other: Side, k: nat :: NearerThan(other, b, x, y, k) ==> NearerThan(side, b, x, y, k)
  }

  lemma LeastIsNearest(side: Side, b: Box, x: int, y: int)
    ensures NearestSide(side, b, x, y) <==> forall other: Side :: Distance(side, b, x, y) <= Distance(other, b, x, y)
  {
    if forall other: Side :: Distance(side, b, x, y) <= Distance(other, b, x, y) {
      forall other: Side, k: nat | NearerThan(other, b, x, y, k) ensures NearerThan(side, b, x, y, k) {
        DistanceIs(other, b, x, y, k);
        DistanceIs(side, b, x, y, k);
      }
    }
    if NearestSide(side, b, x, y) {
      forall other: Side ensures Distance(side, b, x, y) <= Distance(other, b, x, y) {
        var k := Distance(other, b, x, y);
        DistanceIs(other, b, x, y, k);
        DistanceIs(side, b, x, y, k);
      }
    }
  }

  predicate Between(p: int, low: int, high: int) {
    low <= p < high
  }

  /** A coordinate is accepted exactly if some of the icon is then within the view that way. */
  lemma AcceptedIffInSight(s: UIScreen, c: int)
    ensures (exists p: int :: c <= p < c + ICON_WIDTH && Between(p, 0, VIEW_WIDTH)) ==> s.SetPosX(c) == s.(posX := c)
    ensures (forall p: int :: c <= p < c + ICON_WIDTH ==> !Between(p, 0, VIEW_WIDTH)) ==> s.SetPosX(c) == s
    ensures (exists p: int :: c <= p < c + ICON_HEIGHT && Between(p, 0, VIEW_HEIGHT)) ==> s.SetPosY(c) == s.(posY := c)
    ensures (forall p: int :: c <= p < c + ICON_HEIGHT ==> !Between(p, 0, VIEW_HEIGHT)) ==> s.SetPosY(c) == s
  {
    var p := if c < 0 then 0 else c;
    if -ICON_WIDTH < c < VIEW_WIDTH { assert Between(p, 0, VIEW_WIDTH); }
    if -ICON_HEIGHT < c < VIEW_HEIGHT { assert Between(p, 0, VIEW_HEIGHT); }
  }

  /** Whether the guards of the screen let it be aligned to a side. */
  predicate Accepts(side: Side, b: Box) {
    match side
    case Left => 0 < b.left < VIEW_WIDTH + ICON_WIDTH
    case Right => -ICON_WIDTH < b.right < VIEW_WIDTH
    case Top => 0 < b.top < VIEW_HEIGHT + ICON_HEIGHT
    case Bottom => -ICON_HEIGHT < b.bottom < VIEW_HEIGHT
  }

  /** The icon's edge lies on that side of the box, the icon outside. */
  predicate Touches(side: Side, b: Box, s: UIScreen) {
    match side
    case Left => s.posX + ICON_WIDTH == b.left
    case Right => s.posX == b.right
    case Top => s.posY + ICON_HEIGHT == b.top
    case Bottom => s.posY == b.bottom
  }

  /** The spans from `a` and from `b` have a point in common. */
  predicate Meet(a: int, length: int, b: int, end: int) {
    a < end && b < a + length
  }

  /** An icon touches a side exactly if it is clear of the span of the box, but would not
      be one point further in that direction. */
  lemma TouchingIsTight(side: Side, b: Box, s: UIScreen)
    requires b.left < b.right && b.top < b.bottom
    ensures Touches(side, b, s) <==>
      match side
      case Left => !Meet(s.posX, ICON_WIDTH, b.left, b.right) && Meet(s.posX + 1, ICON_WIDTH, b.left, b.right)
      case Right => !Meet(s.posX, ICON_WIDTH, b.left, b.right) && Meet(s.posX - 1, ICON_WIDTH, b.left, b.right)
      case Top => !Meet(s.posY, ICON_HEIGHT, b.top, b.bottom) && Meet(s.posY + 1, ICON_HEIGHT, b.top, b.bottom)
      case Bottom => !Meet(s.posY, ICON_HEIGHT, b.top, b.bottom) && Meet(s.posY - 1, ICON_HEIGHT, b.top, b.bottom)
  {
  }

  lemma TouchingIsClear(screens: seq<UIScreen>, ignore: int, b: Box, side: Side, s: UIScreen)
    requires Encloses(screens, ignore, b) && Touches(side, b, s)
    ensures Clear(screens, ignore, s)
  {
    forall i | IsOther(screens, ignore, i) ensures !Overlap(s, screens[i]) {
      assert Inside(screens[i], b);
    }
  }

  /** Puts a screen beside a side of the box and else at (x, y), each coordinate only if it is in sight. */
  function Align(screen: UIScreen, side: Side, box: Box, x: int, y: int): (placed: UIScreen)
    ensures placed.name == screen.name && (screen.Visible() ==> placed.Visible())
    ensures if Horizontal(side) then placed.posY == screen.SetPosY(y).posY else placed.posX == screen.SetPosX(x).posX
    ensures Accepts(side, box) ==> Touches(side, box, placed)
    ensures !Accepts(side, box) ==> if Horizontal(side) then placed.posX == screen.posX else placed.posY == screen.posY
  {
    match side
    case Left => screen.SetPosX(box.left - ICON_WIDTH).SetPosY(y)
    case Right => screen.SetPosX(box.right).SetPosY(y)
    case Top => screen.SetPosX(x).SetPosY(box.top - ICON_HEIGHT)
    case Bottom => screen.SetPosX(x).SetPosY(box.bottom)
  }

  // ---- Placing ----

  /** (x', y') is where the first screen of that name is, or (x, y) if there is none. */
  ghost predicate StandsAt(screens: seq<UIScreen>, name: string, x: int, y: int, x': int, y': int) {
    if exists i :: 0 <= i < |screens| && screens[i].name == name then
      exists i :: FirstNamed(screens, name, i) && (screens[i].posX, screens[i].posY) == (x', y')
    else (x', y') == (x, y)
  }

  ghost predicate FirstNamed(screens: seq<UIScreen>, name: string, i: int) {
    0 <= i < |screens| && screens[i].name == name && forall j :: 0 <= j < i ==> screens[j].name != name
  }

  class ScreenBBArrangement {
    var scaledViewW: nat
    var scaledViewH: nat
    var box: Box

    constructor ()
      ensures scaledViewW == VIEW_WIDTH && scaledViewH == VIEW_HEIGHT && box == Box(0, 0, 0, 0)
    {
      scaledViewW, scaledViewH, box := VIEW_WIDTH, VIEW_HEIGHT, Box(0, 0, 0, 0);
    }

    /** `recalculateBoundingBox` */
    method RecalculateBoundingBox(screens: seq<UIScreen>, ignore: int)
      requires AllVisible(screens)
      modifies this`box
      ensures IsBox(screens, ignore, box)
    {
      box := NOWHERE;
      for i := 0 to |screens|
        invariant BoxSoFar(screens[..i], ignore, box)
      {
        ghost var was := box;
        assert screens[..i + 1] == screens[..i] + [screens[i]];
        if i != ignore {
          box := Extend(box, screens[i]);
          ExtendEncloses(screens[..i], screens[i], ignore, was);
        } else {
          IgnoredIsNoOther(screens[..i], screens[i], ignore, box);
        }
      }
      assert screens[..|screens|] == screens;
      if HasOthers(screens, ignore) { FinishedBox(screens, ignore, box); }
      if box.left == INT_MAX { box := box.(left := 0); }
      if box.top == INT_MAX { box := box.(top := 0); }
      if box.right == INT_MIN { box := box.(right := 0); }
      if box.bottom == INT_MIN { box := box.(bottom := 0); }
    }

    /** `getScreenPos`: where the first screen of that name is, or what was proposed. */
    method ScreenPos(screens: seq<UIScreen>, name: string, x: int, y: int) returns (x': int, y': int)
      ensures StandsAt(screens, name, x, y, x', y')
    {
      for i := 0 to |screens|
        invariant forall j :: 0 <= j < i ==> screens[j].name != name
      {
        if screens[i].name == name {
          assert FirstNamed(screens, name, i);
          return screens[i].posX, screens[i].posY;
        }
      }
      return x, y;
    }

    /** The side with the least distance; between axes that tie, the one whose other side is farther. */
    method ChooseSide(x: int, y: int) returns (side: Side)
      ensures NearestSide(side, box, x, y)
      ensures forall other: Side :: Distance(side, box, x, y) <= Distance(other, box, x, y)
      ensures side == Left || side == Top ==> Distance(side, box, x, y) < Distance(Across(side), box, x, y)
      ensures forall other: Side ::
        Horizontal(other) != Horizontal(side) && Distance(other, box, x, y) == Distance(side, box, x, y) ==>
        var mine, yours := Distance(Across(side), box, x, y), Distance(Across(other), box, x, y);
        if Horizontal(side) then yours <= mine else yours < mine
    {
      var toLeft, toRight := Distance(Left, box, x, y), Distance(Right, box, x, y);
      var toTop, toBottom := Distance(Top, box, x, y), Distance(Bottom, box, x, y);
      var minX, minY := Min(toLeft, toRight), Min(toTop, toBottom);
      var maxX, maxY := Max(toLeft, toRight), Max(toTop, toBottom);
      if minX < minY || (minX == minY && maxY <= maxX) {
        side := if toLeft < toRight then Left else Right;
      } else {
        side := if toTop < toBottom then Top else Bottom;
      }
      LeastIsNearest(side, box, x, y);
    }

    /** `calculateNewPos`: the icon goes to the nearest side of the box, unless that is
        out of sight: then it keeps that coordinate. */
    method CalculateNewPos(screens: seq<UIScreen>, screen: UIScreen, local: string)
      returns (placed: UIScreen, x: int, y: int, side: Side)
      ensures placed.name == screen.name && (screen.Visible() ==> placed.Visible())
      ensures
        if (screen.posX, screen.posY) != (-1, -1) then (x, y) == (screen.posX, screen.posY)
        else StandsAt(screens, local, scaledViewW / 2 - ICON_WIDTH / 2, scaledViewH / 2 - ICON_HEIGHT / 2, x, y)
      ensures box.left == box.right || box.top == box.bottom ==> placed == screen.SetPosX(x).SetPosY(y)
      ensures box.left != box.right && box.top != box.bottom ==>
        && NearestSide(side, box, x, y)
        && (forall other: Side :: Distance(side, box, x, y) <= Distance(other, box, x, y))
        && (if Horizontal(side) then placed.posY == screen.SetPosY(y).posY else placed.posX == screen.SetPosX(x).posX)
        && (if Accepts(side, box) then Touches(side, box, placed)
            else if Horizontal(side) then placed.posX == screen.posX
            else placed.posY == screen.posY)
    {
      x, y := scaledViewW / 2 - ICON_WIDTH / 2, scaledViewH / 2 - ICON_HEIGHT / 2;
      if screen.posX == -1 && screen.posY == -1 {
        x, y := ScreenPos(screens, local, x, y);
      } else {
        x, y := screen.posX, screen.posY;
      }
      if box.left - box.right == 0 || box.top - box.bottom == 0 {
        return screen.SetPosX(x).SetPosY(y), x, y, Left;
      }
      side := ChooseSide(x, y);
      placed := Align(screen, side, box, x, y);
    }

    /** `addScreen`, up to the scaling of the view: a new screen overlaps none of the
        others if the side of the box it is sent to is in sight. */
    method AddScreen(screens: seq<UIScreen>, screen: UIScreen, local: string) returns (added: seq<UIScreen>, side: Side)
      requires AllVisible(screens) && screen.Visible() && IsBox(screens, -1, box)
      modifies this`box
      ensures |added| == |screens| + 1 && added[..|screens|] == screens && AllVisible(added)
      ensures added[|screens|].name == screen.name
      ensures IsBox(added, -1, box)
      ensures screens != [] && Accepts(side, old(box)) ==>
        Touches(side, old(box), added[|screens|]) && Clear(screens, -1, added[|screens|])
    {
      var placed, x, y;
      placed, x, y, side := CalculateNewPos(screens, screen, local);
      if screens != [] {
        assert IsOther(screens, -1, 0);
        if Accepts(side, box) { TouchingIsClear(screens, -1, box, side, placed); }
      }
      added := screens + [placed];
      RecalculateBoundingBox(added, -1);
    }

    /** The part of `adjustModel` that goes by the box: a screen moved by hand comes to
        overlap no other exactly if the nearest side of the box is in sight, or it
        overlapped none where it was.  One at (-1, -1) counts as not placed yet. */
    method AdjustToBox(screens: seq<UIScreen>, index: nat, local: string) returns (adjusted: seq<UIScreen>, side: Side)
      requires AllVisible(screens) && index < |screens|
      modifies this`box
      ensures |adjusted| == |screens| && adjusted == screens[index := adjusted[index]] && AllVisible(adjusted)
      ensures IsBox(screens, index, box)
      ensures HasOthers(screens, index) && Accepts(side, box) ==>
        Touches(side, box, adjusted[index]) && Clear(screens, index, adjusted[index])
      ensures
        var (x, y) := (screens[index].posX, screens[index].posY);
        (x, y) != (-1, -1) ==>
          if HasOthers(screens, index) then
            && NearestSide(side, box, x, y)
            && (Clear(screens, index, adjusted[index]) <==> Accepts(side, box) || Clear(screens, index, screens[index]))
          else adjusted == screens
    {
      RecalculateBoundingBox(screens, index);
      var original := screens[index];
      var screen := UIScreen("temp", -1, -1).SetPosX(original.posX).SetPosY(original.posY);
      var x, y;
      screen, x, y, side := CalculateNewPos(screens, screen, local);
      var moved := original.SetPosX(original.posX + (screen.posX - original.posX));
      moved := moved.SetPosY(original.posY + (screen.posY - original.posY));
      adjusted := screens[index := moved];
      if HasOthers(screens, index) && Accepts(side, box) {
        TouchingIsClear(screens, index, box, side, moved);
      }
    }
  }
}
