/** What the play/pause outline looks like: the play triangle at 0, the
    pause bars at 1, a straight-line motion of every corner in between and
    beyond, the orientation and convexity of the two halves, and the path
    commands the outline turns into. */
module PlayPauseProperties {
  import opened Points
  import opened Paths
  import opened PlayPause

  // ---------------------------------------------------------------------
  // Endpoints.

  /** At 0 every corner is exactly its play point: the left half is
      (0, 0), (w/2, h/4), (w/2, 3h/4), (0, h) and the right half is
      (w/2, h/4), (w, h/2), (w, h/2), (w/2, 3h/4). */
  lemma PlayAtZero(w: real, h: real)
    ensures Outline(w, h, 0.0)[1] ==
      [Point(0.0, 0.0), Point(w / 2.0, h / 4.0), Point(w / 2.0, 3.0 * h / 4.0), Point(0.0, h)]
    ensures Outline(w, h, 0.0)[2] ==
      [Point(w / 2.0, h / 4.0), Point(w, h / 2.0), Point(w, h / 2.0), Point(w / 2.0, 3.0 * h / 4.0)]
  {
    BlendAtEnds(PlayLeft(w, h), PauseLeft(w, h));
    BlendAtEnds(PlayRight(w, h), PauseRight(w, h));
  }

  /** At 1 every corner is exactly its pause point. */
  lemma PauseAtOne(w: real, h: real)
    ensures Outline(w, h, 1.0)[1] == Bar(BarInset(w), BarWidth(w), h)
    ensures Outline(w, h, 1.0)[2] == Bar(BarInset(w) + w / 2.0, BarWidth(w), h)
  {
    BlendAtEnds(PlayLeft(w, h), PauseLeft(w, h));
    BlendAtEnds(PlayRight(w, h), PauseRight(w, h));
  }

  lemma BlendAtEnds(play: seq<Point>, pause: seq<Point>)
    requires |play| == |pause|
    ensures Blend(play, pause, 0.0) == play
    ensures Blend(play, pause, 1.0) == pause
  {
    forall i | 0 <= i < |play|
      ensures Blend(play, pause, 0.0)[i] == play[i]
      ensures Blend(play, pause, 1.0)[i] == pause[i]
    {
      LerpAffine(play[i], pause[i], 0.0, 0.0, 0.0);
    }
  }

  /** `a`, `b` and `c` lie on one line. */
  predicate Collinear(a: Point, b: Point, c: Point)
  {
    (b.x - a.x) * (c.y - a.y) == (b.y - a.y) * (c.x - a.x)
  }

  /** At 0 the two halves tile the triangle (0, 0), (w, h/2), (0, h): they
      share the edge on the centre line x = w/2, whose ends lie on the
      triangle's upper and lower sides, and both right corners of the right
      half are the apex. */
  lemma PlayHalvesSplitTriangle(w: real, h: real)
    ensures var left, right, apex := Outline(w, h, 0.0)[1], Outline(w, h, 0.0)[2], Point(w, h / 2.0);
      && left[1] == right[0] && left[2] == right[3]
      && left[1].x == w / 2.0 && left[2].x == w / 2.0
      && right[1] == apex && right[2] == apex
      && left[0] == Point(0.0, 0.0) && left[3] == Point(0.0, h)
      && Collinear(left[0], left[1], apex)
      && Collinear(left[3], left[2], apex)
  {
    PlayAtZero(w, h);
  }

  /** At 1 the halves are two bars of width w * 11/34 spanning the full
      height; the right bar is the left one moved right by w/2 and also its
      mirror image about x = w/2; the gap between them is w/2 minus a bar
      width and the two outer margins are both w/4 minus half a bar width. */
  lemma PauseBars(w: real, h: real)
    ensures var left, right, bw := Outline(w, h, 1.0)[1], Outline(w, h, 1.0)[2], w * 11.0 / 34.0;
      && left[1].x - left[0].x == bw && right[1].x - right[0].x == bw
      && left[2].x == left[1].x && left[3].x == left[0].x
      && right[2].x == right[1].x && right[3].x == right[0].x
      && left[0].y == 0.0 && left[1].y == 0.0 && left[2].y == h && left[3].y == h
      && (forall i :: 0 <= i < 4 ==> right[i] == Add(left[i], Point(w / 2.0, 0.0)))
      && right[0] == Mirror(w, left[1]) && right[1] == Mirror(w, left[0])
      && right[2] == Mirror(w, left[3]) && right[3] == Mirror(w, left[2])
      && right[0].x - left[1].x == w / 2.0 - bw
      && left[0].x == w / 4.0 - bw / 2.0
      && w - right[1].x == w / 4.0 - bw / 2.0
  {
    PauseAtOne(w, h);
  }

  /** The halves are mirror images of each other about x = w/2 at shift 1
      and at no other shift (for a non-zero height): at shift 0 the right
      half is the pointed end of the triangle, not a copy of its base. */
  lemma MirrorOnlyAtOne(w: real, h: real, s: real)
    requires h != 0.0
    ensures var l, r := LeftHalf(w, h, s), RightHalf(w, h, s);
      (r[0] == Mirror(w, l[1]) && r[1] == Mirror(w, l[0])
       && r[2] == Mirror(w, l[3]) && r[3] == Mirror(w, l[2])) <==> s == 1.0
  {
    LeftHalfAt(w, h, s);
    RightHalfAt(w, h, s);
    var l, r := LeftHalf(w, h, s), RightHalf(w, h, s);
    if r[1] == Mirror(w, l[0]) {
      assert h * (1.0 - s) / 2.0 == 0.0;
    }
  }

  /** The reflection of `p` about the vertical line x = w/2. */
  function Mirror(w: real, p: Point): Point
  {
    Point(w - p.x, p.y)
  }

  // ---------------------------------------------------------------------
  // Motion between and beyond the endpoints.

  /** Every corner, for every value of `shift`, is the straight-line blend of
      where it stands at 0 and at 1 (so no clamping, and values outside
      [0, 1] extrapolate), and more generally blending the outlines at any two
      values gives the outline at the blended value. */
  lemma CornersMoveOnLines(w: real, h: real, s0: real, s1: real, t: real, k: nat, i: nat)
    requires 1 <= k <= 2 && i < 4
    ensures Outline(w, h, t)[k][i] == Lerp(Outline(w, h, 0.0)[k][i], Outline(w, h, 1.0)[k][i], t)
    ensures Outline(w, h, s0 + (s1 - s0) * t)[k][i]
         == Lerp(Outline(w, h, s0)[k][i], Outline(w, h, s1)[k][i], t)
  {
    var play := if k == 1 then PlayLeft(w, h) else PlayRight(w, h);
    var pause := if k == 1 then PauseLeft(w, h) else PauseRight(w, h);
    assert forall s :: Outline(w, h, s)[k][i] == Lerp(play[i], pause[i], s);
    LerpAffine(play[i], pause[i], 0.0, 1.0, t);
    LerpAffine(play[i], pause[i], s0, s1, t);
  }

  // ---------------------------------------------------------------------
  // Orientation and convexity of the halves.

  /** Twice the signed area of a four-corner polygon (the shoelace sum);
      positive when the corners run clockwise on screen, as top-left,
      top-right, bottom-right, bottom-left do with y growing downwards. */
  function TwiceSignedArea(q: seq<Point>): real
    requires |q| == 4
  {
    (q[0].x * q[1].y - q[1].x * q[0].y) + (q[1].x * q[2].y - q[2].x * q[1].y)
    + (q[2].x * q[3].y - q[3].x * q[2].y) + (q[3].x * q[0].y - q[0].x * q[3].y)
  }

  /** The turn taken at `b` on the way from `a` to `c`: the cross product of
      the two edges; positive for a turn in the same sense as the corner order
      above. */
  function Turn(a: Point, b: Point, c: Point): real
  {
    (b.x - a.x) * (c.y - b.y) - (b.y - a.y) * (c.x - b.x)
  }

  /** All four turns are strictly in the same sense: a convex polygon that
      does not cross itself. */
  predicate StrictlyConvex(q: seq<Point>)
    requires |q| == 4
  {
    Turn(q[3], q[0], q[1]) > 0.0 && Turn(q[0], q[1], q[2]) > 0.0
    && Turn(q[1], q[2], q[3]) > 0.0 && Turn(q[2], q[3], q[0]) > 0.0
  }

  /** The offset by which each bar's corners move in from the play points,
      per unit of `shift`: w/2 - (BarInset + BarWidth) = BarInset = 3w/34. */
  function Inset(w: real): real
  {
    w * 3.0 / 34.0
  }

  lemma LeftHalfAt(w: real, h: real, s: real)
    ensures LeftHalf(w, h, s) ==
      [Point(Inset(w) * s, 0.0),
       Point(w / 2.0 - Inset(w) * s, h * (1.0 - s) / 4.0),
       Point(w / 2.0 - Inset(w) * s, h * (3.0 + s) / 4.0),
       Point(Inset(w) * s, h)]
  {
    BarGeometry(w);
    var play, pause, r := PlayLeft(w, h), PauseLeft(w, h), LeftHalf(w, h, s);
    assert r[0] == Lerp(play[0], pause[0], s) == Point(Inset(w) * s, 0.0);
    assert r[1] == Lerp(play[1], pause[1], s) == Point(w / 2.0 - Inset(w) * s, h * (1.0 - s) / 4.0);
    assert r[2] == Lerp(play[2], pause[2], s) == Point(w / 2.0 - Inset(w) * s, h * (3.0 + s) / 4.0);
    assert r[3] == Lerp(play[3], pause[3], s) == Point(Inset(w) * s, h);
  }

  lemma RightHalfAt(w: real, h: real, s: real)
    ensures RightHalf(w, h, s) ==
      [Point(w / 2.0 + Inset(w) * s, h * (1.0 - s) / 4.0),
       Point(w - Inset(w) * s, h * (1.0 - s) / 2.0),
       Point(w - Inset(w) * s, h * (1.0 + s) / 2.0),
       Point(w / 2.0 + Inset(w) * s, h * (3.0 + s) / 4.0)]
  {
    BarGeometry(w);
    var play, pause, r := PlayRight(w, h), PauseRight(w, h), RightHalf(w, h, s);
    assert r[0] == Lerp(play[0], pause[0], s) == Point(w / 2.0 + Inset(w) * s, h * (1.0 - s) / 4.0);
    assert r[1] == Lerp(play[1], pause[1], s) == Point(w - Inset(w) * s, h * (1.0 - s) / 2.0);
    assert r[2] == Lerp(play[2], pause[2], s) == Point(w - Inset(w) * s, h * (1.0 + s) / 2.0);
    assert r[3] == Lerp(play[3], pause[3], s) == Point(w / 2.0 + Inset(w) * s, h * (3.0 + s) / 4.0);
  }

  lemma BarGeometry(w: real)
    ensures BarInset(w) == Inset(w)
    ensures BarInset(w) + BarWidth(w) == w / 2.0 - Inset(w)
  {
  }

  lemma MulPos(a: real, b: real)
    requires a > 0.0 && b > 0.0
    ensures a * b > 0.0
  {
  }

  /** For `shift` within [-0.3, 1.3] (the overshoot range of a spring
      animation) the signed areas of both halves stay positive. On [-0.3, 0)
      the right half still crosses itself (`RightHalfCrossesBelowZero`), so a
      positive area there does not make it a simple polygon. */
  lemma HalvesKeepOrientation(w: real, h: real, s: real)
    requires w > 0.0 && h > 0.0
    requires -0.3 <= s <= 1.3
    ensures TwiceSignedArea(LeftHalf(w, h, s)) > 0.0
    ensures TwiceSignedArea(RightHalf(w, h, s)) > 0.0
  {
    var across := w / 2.0 - 2.0 * Inset(w) * s;
    assert across > 0.0;
    LeftHalfAt(w, h, s);
    RightHalfAt(w, h, s);
    assert TwiceSignedArea(LeftHalf(w, h, s)) == across * (h * (3.0 + s) / 2.0);
    assert TwiceSignedArea(RightHalf(w, h, s)) == across * (h * (1.0 + 3.0 * s) / 2.0);
    MulPos(across, h * (3.0 + s) / 2.0);
    MulPos(across, h * (1.0 + 3.0 * s) / 2.0);
  }

  /** For `shift` in (0, 1] both halves are convex quadrilaterals. */
  lemma HalvesConvex(w: real, h: real, s: real)
    requires w > 0.0 && h > 0.0
    requires 0.0 < s <= 1.0
    ensures StrictlyConvex(LeftHalf(w, h, s))
    ensures StrictlyConvex(RightHalf(w, h, s))
  {
    var across := w / 2.0 - 2.0 * Inset(w) * s;
    assert across > 0.0;
    LeftHalfAt(w, h, s);
    RightHalfAt(w, h, s);
    MulPos(across, h);
    MulPos(across, h * (1.0 + s) / 2.0);
    MulPos(across, h * s);
    var l, r := LeftHalf(w, h, s), RightHalf(w, h, s);
    assert Turn(l[3], l[0], l[1]) == across * h;
    assert Turn(l[0], l[1], l[2]) == across * (h * (1.0 + s) / 2.0);
    assert Turn(l[1], l[2], l[3]) == across * (h * (1.0 + s) / 2.0);
    assert Turn(l[2], l[3], l[0]) == across * h;
    assert Turn(r[3], r[0], r[1]) == across * (h * (1.0 + s) / 2.0);
    assert Turn(r[0], r[1], r[2]) == across * (h * s);
    assert Turn(r[1], r[2], r[3]) == across * (h * s);
    assert Turn(r[2], r[3], r[0]) == across * (h * (1.0 + s) / 2.0);
  }

  /** Between -1 and 0 the right half's right edge is upside down: the top-right
      corner lies below the bottom-right one, the turns at those two corners
      are against the corner order and the other two with it. Two adjacent
      turns of each sense mean the quadrilateral crosses itself. */
  lemma RightHalfCrossesBelowZero(w: real, h: real, s: real)
    requires w > 0.0 && h > 0.0
    requires -1.0 < s < 0.0
    ensures var r := RightHalf(w, h, s);
      && r[1].y > r[2].y
      && Turn(r[3], r[0], r[1]) > 0.0 && Turn(r[0], r[1], r[2]) < 0.0
      && Turn(r[1], r[2], r[3]) < 0.0 && Turn(r[2], r[3], r[0]) > 0.0
  {
    var across := w / 2.0 - 2.0 * Inset(w) * s;
    assert across > 0.0;
    RightHalfAt(w, h, s);
    MulPos(across, h * (1.0 + s) / 2.0);
    MulPos(across, -h * s);
    var r := RightHalf(w, h, s);
    assert Turn(r[3], r[0], r[1]) == across * (h * (1.0 + s) / 2.0);
    assert Turn(r[0], r[1], r[2]) == -(across * (-h * s));
    assert Turn(r[1], r[2], r[3]) == -(across * (-h * s));
    assert Turn(r[2], r[3], r[0]) == across * (h * (1.0 + s) / 2.0);
  }

  /** Further below, past -1, the crossing undoes itself: the right half is a
      convex quadrilateral again, but traversed the other way round, all four
      turns negative. */
  lemma RightHalfReversedBelowMinusOne(w: real, h: real, s: real)
    requires w > 0.0 && h > 0.0
    requires s < -1.0
    ensures var r := RightHalf(w, h, s);
      && Turn(r[3], r[0], r[1]) < 0.0 && Turn(r[0], r[1], r[2]) < 0.0
      && Turn(r[1], r[2], r[3]) < 0.0 && Turn(r[2], r[3], r[0]) < 0.0
  {
    var across := w / 2.0 - 2.0 * Inset(w) * s;
    assert across > 0.0;
    RightHalfAt(w, h, s);
    MulPos(across, -h * (1.0 + s) / 2.0);
    MulPos(across, -h * s);
    var r := RightHalf(w, h, s);
    assert Turn(r[3], r[0], r[1]) == -(across * (-h * (1.0 + s) / 2.0));
    assert Turn(r[0], r[1], r[2]) == -(across * (-h * s));
    assert Turn(r[1], r[2], r[3]) == -(across * (-h * s));
    assert Turn(r[2], r[3], r[0]) == -(across * (-h * (1.0 + s) / 2.0));
  }

  // ---------------------------------------------------------------------
  // The path and the settled shapes.

  /** The path of the outline is two closed subpaths of four corners each,
      left half first; reading it back gives the two halves. */
  lemma OutlinePath(w: real, h: real, s: real)
    ensures var left, right := LeftHalf(w, h, s), RightHalf(w, h, s);
      && Render(Outline(w, h, s)) ==
        [MoveTo(left[0]), AddLine(left[1]), AddLine(left[2]), AddLine(left[3]), CloseSubpath,
         MoveTo(right[0]), AddLine(right[1]), AddLine(right[2]), AddLine(right[3]), CloseSubpath]
      && Subpaths(Render(Outline(w, h, s))) == Some([left, right])
  {
    var left, right := LeftHalf(w, h, s), RightHalf(w, h, s);
    var lists := Outline(w, h, s);
    SubpathsOfRender(lists);
    assert lists[1..][1..][1..] == [];
    assert NonEmpty(lists[1..][1..][1..]) == [];
    assert NonEmpty(lists[1..][1..]) == [right];
    assert NonEmpty(lists[1..]) == [left, right];
    assert NonEmpty(lists) == [left, right];
    assert left[1..] == [left[1], left[2], left[3]];
    assert right[1..] == [right[1], right[2], right[3]];
    assert Render(lists[1..][1..][1..]) == [];
    assert Render(lists[1..][1..]) == Subpath(right);
    assert Render(lists[1..]) == Subpath(left) + Subpath(right);
    assert Render(lists) == Subpath(left) + Subpath(right);
  }

  /** A settled shape draws exactly one of the two glyphs: the pause bars
      when playing, the play triangle otherwise. */
  lemma SettledShapeDrawsGlyph(w: real, h: real, isPlaying: bool)
    ensures Outline(w, h, Init(isPlaying).shift) ==
      if isPlaying then [[], PauseLeft(w, h), PauseRight(w, h)]
      else [[], PlayLeft(w, h), PlayRight(w, h)]
  {
    BlendAtEnds(PlayLeft(w, h), PauseLeft(w, h));
    BlendAtEnds(PlayRight(w, h), PauseRight(w, h));
  }
}
