/** `PlayPauseShape`: the outline of the play/pause icon for an animation
    value `shift`, where 0 draws the play triangle and 1 the pause bars, and
    its conversion into path commands. */
module PlayPause {
  import opened Points
  import opened Paths

  /** The pause bar's width as a fraction of the shape's width. */
  const BarWidthFraction: real := 11.0 / 34.0

  /** The animatable shape: whether it stands for the playing state, and the
      animation value the outline is drawn at. */
  datatype PlayPauseShape = PlayPauseShape(isPlaying: bool, shift: real)
  {
    /** The value the animation system writes while it runs. */
    function WithAnimatableData(newValue: real): (r: PlayPauseShape)
      ensures r.shift == newValue
      ensures r.isPlaying == isPlaying
    {
      this.(shift := newValue)
    }

    /** The value the animation system reads: writing it straight back
        leaves the shape as it was. */
    function AnimatableData(): (v: real)
      ensures WithAnimatableData(v) == this
    {
      shift
    }
  }

  /** Writing back the value just read changes nothing, and reading after a
      write gives the value written. */
  lemma AnimatableDataRoundTrip(shape: PlayPauseShape, v: real)
    ensures shape.WithAnimatableData(shape.AnimatableData()) == shape
    ensures shape.WithAnimatableData(v).AnimatableData() == v
  {
  }

  /** A settled shape: the pause bars when playing, the play triangle
      otherwise. */
  function Init(isPlaying: bool): (s: PlayPauseShape)
    ensures s.isPlaying == isPlaying
    ensures isPlaying <==> s.shift == 1.0
    ensures !isPlaying <==> s.shift == 0.0
  {
    PlayPauseShape(isPlaying, if isPlaying then 1.0 else 0.0)
  }

  // ---------------------------------------------------------------------
  // Reference geometry: the eight play points and the eight pause points.

  function BarWidth(width: real): real
  {
    width * BarWidthFraction
  }

  /** The x of the left pause bar's left edge: the left half of the box
      with the bar centred in it. */
  function BarInset(width: real): real
  {
    (width * 0.5 - BarWidth(width)) * 0.5
  }

  /** A vertical bar of the full height, corners in the order top-left,
      top-right, bottom-right, bottom-left. */
  function Bar(left: real, barWidth: real, height: real): seq<Point>
  {
    [Point(left, 0.0), Point(left + barWidth, 0.0),
     Point(left + barWidth, height), Point(left, height)]
  }

  function PauseLeft(width: real, height: real): seq<Point>
  {
    Bar(BarInset(width), BarWidth(width), height)
  }

  function PauseRight(width: real, height: real): seq<Point>
  {
    Bar(BarInset(width) + width * 0.5, BarWidth(width), height)
  }

  /** The left half of the triangle (0, 0), (width, height / 2), (0, height)
      cut along x = width / 2. */
  function PlayLeft(width: real, height: real): seq<Point>
  {
    [Point(0.0, 0.0), Point(width * 0.5, height * 0.25),
     Point(width * 0.5, height * 0.75), Point(0.0, height)]
  }

  /** The right half of that triangle; its two right corners are both the
      apex. */
  function PlayRight(width: real, height: real): seq<Point>
  {
    [Point(width * 0.5, height * 0.25), Point(width, height * 0.5),
     Point(width, height * 0.5), Point(width * 0.5, height * 0.75)]
  }

  // ---------------------------------------------------------------------
  // Blending.

  /** The forward blend `play + (pause - play) * shift`: the play point at 0
      and the pause point at 1 (see `LerpAffine`). */
  function Lerp(play: Point, pause: Point, shift: real): Point
  {
    Add(play, Scale(Sub(pause, play), shift))
  }

  /** The backward blend `play - (play - pause) * shift`; the same function
      of `shift` as the forward one (see `BlendFormsAgree`). */
  function LerpBack(play: Point, pause: Point, shift: real): Point
  {
    Sub(play, Scale(Sub(play, pause), shift))
  }

  /** Both blend forms are the same function of `shift`. */
  lemma BlendFormsAgree(play: Point, pause: Point, shift: real)
    ensures LerpBack(play, pause, shift) == Lerp(play, pause, shift)
  {
    SubAntisymmetric(play, pause, shift);
  }

  /** A blend starts at the play point, ends at the pause point, and moves
      linearly with no clamping: blending two blends of the same pair gives
      the blend at the correspondingly blended value, for any reals, so values
      outside [0, 1] extrapolate along the same line. */
  lemma LerpAffine(play: Point, pause: Point, s0: real, s1: real, t: real)
    ensures Lerp(play, pause, 0.0) == play
    ensures Lerp(play, pause, 1.0) == pause
    ensures Lerp(Lerp(play, pause, s0), Lerp(play, pause, s1), t)
         == Lerp(play, pause, s0 + (s1 - s0) * t)
  {
    var a := Lerp(play, pause, s0);
    var b := Lerp(play, pause, s1);
    var s := s0 + (s1 - s0) * t;
    assert Lerp(a, b, t).x == play.x + (pause.x - play.x) * s by {
      assert b.x - a.x == (pause.x - play.x) * (s1 - s0);
    }
    assert Lerp(a, b, t).y == play.y + (pause.y - play.y) * s by {
      assert b.y - a.y == (pause.y - play.y) * (s1 - s0);
    }
  }

  /** Corner by corner blend of two outlines. */
  function Blend(play: seq<Point>, pause: seq<Point>, shift: real): seq<Point>
    requires |play| == |pause|
  {
    seq(|play|, i requires 0 <= i < |play| => Lerp(play[i], pause[i], shift))
  }

  function LeftHalf(width: real, height: real, shift: real): seq<Point>
  {
    Blend(PlayLeft(width, height), PauseLeft(width, height), shift)
  }

  function RightHalf(width: real, height: real, shift: real): seq<Point>
  {
    Blend(PlayRight(width, height), PauseRight(width, height), shift)
  }

  /** What the shape's point lists are: an empty list, then the left half and
      the right half, four corners each, in the order top-left, top-right,
      bottom-right, bottom-left. */
  function Outline(width: real, height: real, shift: real): (r: seq<seq<Point>>)
    ensures |r| == 3 && r[0] == []
    ensures |r[1]| == 4 && |r[2]| == 4
  {
    [[], LeftHalf(width, height, shift), RightHalf(width, height, shift)]
  }

  // ---------------------------------------------------------------------
  // The operations.

  /** The slope and centre-line offset the play points are written with
      reduce to a quarter of the height once the width is not zero. */
  lemma CenterYIsQuarterHeight(width: real, height: real)
    requires width != 0.0
    ensures width * 0.5 * ((height * 0.5) / width) - height * 0.5 == -(height * 0.25)
  {
    var m := (height * 0.5) / width;
    assert m * width == height * 0.5;
    assert width * 0.5 * m == (m * width) * 0.5;
  }

  /** Builds the point lists corner by corner with the formulas the shape is
      written with; every corner, forward or backward blend, lands on the
      blend of its play point and its pause point. */
  method PathPoints(shape: PlayPauseShape, width: real, height: real)
    returns (points: seq<seq<Point>>)
    requires width != 0.0
    ensures points == Outline(width, height, shape.shift)
  {
    var shift := shape.shift;
    points := [[]];
    var left: seq<Point> := [];
    var right: seq<Point> := [];
    var pauseBarWidth := width * BarWidthFraction;

    // Slope of the top play line, and y at its centre.
    var m := (height * 0.5) / width;
    var centerY := (width * 0.5 * m) - (height * 0.5);
    CenterYIsQuarterHeight(width, height);
    ghost var PlayL, PauseL := PlayLeft(width, height), PauseLeft(width, height);
    ghost var PlayR, PauseR := PlayRight(width, height), PauseRight(width, height);

    // Left side.
    var leftPauseTopLeft := Point(((width * 0.5) - pauseBarWidth) * 0.5, 0.0);
    var leftPlayTopLeft := Zero;
    var leftDeltaTopLeft := Sub(leftPauseTopLeft, leftPlayTopLeft);
    left := left + [Add(leftPlayTopLeft, Scale(leftDeltaTopLeft, shift))];
    assert left[0] == Lerp(PlayL[0], PauseL[0], shift) by {
      assert leftPlayTopLeft == PlayL[0] && leftPauseTopLeft == PauseL[0];
    }

    var leftPauseTopRight := Point(leftPauseTopLeft.x + pauseBarWidth, 0.0);
    var leftPlayTopRight := Point(width * 0.5, -centerY);
    var leftDeltaTopRight := Sub(leftPlayTopRight, leftPauseTopRight);
    left := left + [Sub(leftPlayTopRight, Scale(leftDeltaTopRight, shift))];
    assert left[1] == Lerp(PlayL[1], PauseL[1], shift) by {
      assert leftPlayTopRight == PlayL[1] && leftPauseTopRight == PauseL[1];
      BlendFormsAgree(leftPlayTopRight, leftPauseTopRight, shift);
    }

    var leftPauseBottomRight := Point(leftPauseTopRight.x, height);
    var leftPlayBottomRight := Point(width * 0.5, height + centerY);
    var leftDeltaBottomRight := Sub(leftPlayBottomRight, leftPauseBottomRight);
    left := left + [Sub(leftPlayBottomRight, Scale(leftDeltaBottomRight, shift))];
    assert left[2] == Lerp(PlayL[2], PauseL[2], shift) by {
      assert leftPlayBottomRight == PlayL[2] && leftPauseBottomRight == PauseL[2];
      BlendFormsAgree(leftPlayBottomRight, leftPauseBottomRight, shift);
    }

    var leftPauseBottomLeft := Point((width * 0.5 - pauseBarWidth) * 0.5, height);
    var leftPlayBottomLeft := Point(0.0, height);
    var leftDeltaBottomLeft := Sub(leftPlayBottomLeft, leftPauseBottomLeft);
    left := left + [Sub(leftPlayBottomLeft, Scale(leftDeltaBottomLeft, shift))];
    assert left[3] == Lerp(PlayL[3], PauseL[3], shift) by {
      assert leftPlayBottomLeft == PlayL[3] && leftPauseBottomLeft == PauseL[3];
      BlendFormsAgree(leftPlayBottomLeft, leftPauseBottomLeft, shift);
    }

    points := points + [left];

    // Right side.
    var rightPauseTopLeft := Point(leftPauseTopLeft.x + width * 0.5, leftPauseTopLeft.y);
    var rightPlayTopLeft := Point(width * 0.5, -centerY);
    var rightDeltaTopLeft := Sub(rightPlayTopLeft, rightPauseTopLeft);
    right := right + [Sub(rightPlayTopLeft, Scale(rightDeltaTopLeft, shift))];
    assert right[0] == Lerp(PlayR[0], PauseR[0], shift) by {
      assert rightPlayTopLeft == PlayR[0] && rightPauseTopLeft == PauseR[0];
      BlendFormsAgree(rightPlayTopLeft, rightPauseTopLeft, shift);
    }

    var rightPauseTopRight := Point(rightPauseTopLeft.x + pauseBarWidth, rightPauseTopLeft.y);
    var rightPlayTopRight := Point(width, height * 0.5);
    var rightDeltaTopRight := Sub(rightPlayTopRight, rightPauseTopRight);
    right := right + [Sub(rightPlayTopRight, Scale(rightDeltaTopRight, shift))];
    assert right[1] == Lerp(PlayR[1], PauseR[1], shift) by {
      assert rightPlayTopRight == PlayR[1] && rightPauseTopRight == PauseR[1];
      BlendFormsAgree(rightPlayTopRight, rightPauseTopRight, shift);
    }

    var rightPauseBottomRight := Point(rightPauseTopRight.x, height);
    var rightPlayBottomRight := rightPlayTopRight;
    var rightDeltaBottomRight := Sub(rightPlayBottomRight, rightPauseBottomRight);
    right := right + [Sub(rightPlayBottomRight, Scale(rightDeltaBottomRight, shift))];
    assert right[2] == Lerp(PlayR[2], PauseR[2], shift) by {
      assert rightPlayBottomRight == PlayR[2] && rightPauseBottomRight == PauseR[2];
      BlendFormsAgree(rightPlayBottomRight, rightPauseBottomRight, shift);
    }

    var rightPauseBottomLeft := Point(rightPauseTopLeft.x, height);
    var rightPlayBottomLeft := Point(rightPlayTopLeft.x, height + centerY);
    var rightDeltaBottomLeft := Sub(rightPlayBottomLeft, rightPauseBottomLeft);
    right := right + [Sub(rightPlayBottomLeft, Scale(rightDeltaBottomLeft, shift))];
    assert right[3] == Lerp(PlayR[3], PauseR[3], shift) by {
      assert rightPlayBottomLeft == PlayR[3] && rightPauseBottomLeft == PauseR[3];
      BlendFormsAgree(rightPlayBottomLeft, rightPauseBottomLeft, shift);
    }

    points := points + [right];
    assert left == LeftHalf(width, height, shift);
    assert right == RightHalf(width, height, shift);
  }

  datatype Size = Size(width: real, height: real)

  /** The frame the shape is drawn in; only its size is used. */
  datatype Rect = Rect(origin: Point, size: Size)

  /** Turns the point lists into path commands: an empty list is skipped,
      every other list becomes a move to its first point, a line to each later
      point and a close. */
  method PathIn(shape: PlayPauseShape, rect: Rect) returns (path: seq<PathElement>)
    requires rect.size.width != 0.0
    ensures path == Render(Outline(rect.size.width, rect.size.height, shape.shift))
  {
    path := [];
    var allPoints := PathPoints(shape, rect.size.width, rect.size.height);

    for k := 0 to |allPoints|
      invariant path == Render(allPoints[..k])
    {
      var points := allPoints[k];
      assert allPoints[..k + 1] == allPoints[..k] + [points];
      RenderSnoc(allPoints[..k], points);
      if points == [] {
        continue;
      }
      var startPoint := points[0];
      path := path + [MoveTo(startPoint)];

      for i := 1 to |points|
        invariant path == Render(allPoints[..k]) + [MoveTo(startPoint)] + Lines(points[1..i])
      {
        var point := points[i];
        assert points[1..i + 1] == points[1..i] + [point];
        LinesSnoc(points[1..i], point);
        path := path + [AddLine(point)];
      }

      assert points[1..|points|] == points[1..];
      path := path + [CloseSubpath];
    }
    assert allPoints[..|allPoints|] == allPoints;
  }
}
