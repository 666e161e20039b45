/** SwiftUI's `Path`, as far as the play/pause shape uses it: a sequence of
    drawing commands. Rendering (filling, colour) is not modelled. */
module Paths {
  import opened Points

  datatype Option<T> = None | Some(value: T)

  /** `move(to:)`, `addLine(to:)` and `closeSubpath()`. */
  datatype PathElement = MoveTo(to: Point) | AddLine(to: Point) | CloseSubpath

  /** One line command to each point, in order. */
  function Lines(ps: seq<Point>): (r: seq<PathElement>)
    ensures |r| == |ps|
    ensures forall i :: 0 <= i < |ps| ==> r[i] == AddLine(ps[i])
  {
    if ps == [] then [] else [AddLine(ps[0])] + Lines(ps[1..])
  }

  /** The commands one point list turns into: nothing for an empty list,
      otherwise a move to the first point, a line to each later point and a
      close. */
  function Subpath(ps: seq<Point>): seq<PathElement>
  {
    if ps == [] then [] else [MoveTo(ps[0])] + Lines(ps[1..]) + [CloseSubpath]
  }

  /** The commands a list of point lists turns into, list after list. */
  function Render(lists: seq<seq<Point>>): seq<PathElement>
  {
    if lists == [] then [] else Subpath(lists[0]) + Render(lists[1..])
  }

  /** The lists that are not empty, in their original order. */
  function NonEmpty(lists: seq<seq<Point>>): seq<seq<Point>>
  {
    if lists == [] then []
    else if lists[0] == [] then NonEmpty(lists[1..])
    else [lists[0]] + NonEmpty(lists[1..])
  }

  /** Reads line commands up to and including the next close; gives the
      points of those lines and the commands after the close. */
  function ReadLines(path: seq<PathElement>): (r: Option<(seq<Point>, seq<PathElement>)>)
    ensures r.Some? ==> |r.value.1| < |path|
  {
    if path == [] then None
    else match path[0]
      case CloseSubpath => Some(([], path[1..]))
      case AddLine(p) =>
        (match ReadLines(path[1..])
         case None => None
         case Some(read) => Some(([p] + read.0, read.1)))
      case MoveTo(_) => None
  }

  /** Reads a path back into its closed subpaths, each given by its vertices;
      `None` when the path is not a run of move, lines, close groups. */
  function Subpaths(path: seq<PathElement>): Option<seq<seq<Point>>>
    decreases |path|
  {
    if path == [] then Some([])
    else match path[0]
      case MoveTo(p) =>
        (match ReadLines(path[1..])
         case None => None
         case Some(read) =>
           (match Subpaths(read.1)
            case None => None
            case Some(more) => Some([[p] + read.0] + more)))
      case _ => None
  }

  /** Appending a list appends its commands. */
  lemma {:induction false} RenderSnoc(lists: seq<seq<Point>>, ps: seq<Point>)
    ensures Render(lists + [ps]) == Render(lists) + Subpath(ps)
  {
    if lists == [] {
      assert lists + [ps] == [ps];
      assert Render([ps]) == Subpath(ps) + Render([]);
    } else {
      var longer := lists + [ps];
      assert longer[0] == lists[0];
      assert longer[1..] == lists[1..] + [ps];
      calc {
        Render(longer);
        Subpath(lists[0]) + Render(lists[1..] + [ps]);
        { RenderSnoc(lists[1..], ps); }
        Subpath(lists[0]) + (Render(lists[1..]) + Subpath(ps));
        Render(lists) + Subpath(ps);
      }
    }
  }

  /** Appending a point appends one line command. */
  lemma {:induction false} LinesSnoc(ps: seq<Point>, p: Point)
    ensures Lines(ps + [p]) == Lines(ps) + [AddLine(p)]
  {
  }

  lemma {:induction false} ReadLinesOf(ps: seq<Point>, rest: seq<PathElement>)
    ensures ReadLines(Lines(ps) + [CloseSubpath] + rest) == Some((ps, rest))
  {
    var path := Lines(ps) + [CloseSubpath] + rest;
    if ps == [] {
      assert path == [CloseSubpath] + rest;
      assert path[1..] == rest;
    } else {
      assert path[1..] == Lines(ps[1..]) + [CloseSubpath] + rest;
      ReadLinesOf(ps[1..], rest);
      assert [ps[0]] + ps[1..] == ps;
    }
  }

  /** Reading one move, lines, close group off the front of a path. */
  lemma SubpathsStep(p: Point, ps: seq<Point>, rest: seq<PathElement>)
    ensures Subpaths([MoveTo(p)] + (Lines(ps) + [CloseSubpath] + rest)) ==
      match Subpaths(rest)
      case None => None
      case Some(more) => Some([[p] + ps] + more)
  {
    var path := [MoveTo(p)] + (Lines(ps) + [CloseSubpath] + rest);
    assert path[1..] == Lines(ps) + [CloseSubpath] + rest;
    ReadLinesOf(ps, rest);
  }

  lemma RenderCons(lists: seq<seq<Point>>)
    requires lists != [] && lists[0] != []
    ensures Render(lists) ==
      [MoveTo(lists[0][0])] + (Lines(lists[0][1..]) + [CloseSubpath] + Render(lists[1..]))
  {
  }

  /** Reading the rendered commands back gives exactly the non-empty point
      lists, each as one closed subpath, in order: empty lists leave no trace
      and every other list keeps all its points. */
  lemma {:induction false} SubpathsOfRender(lists: seq<seq<Point>>)
    ensures Subpaths(Render(lists)) == Some(NonEmpty(lists))
  {
    if lists != [] {
      var ps := lists[0];
      var rest := Render(lists[1..]);
      SubpathsOfRender(lists[1..]);
      if ps != [] {
        RenderCons(lists);
        SubpathsStep(ps[0], ps[1..], rest);
        assert [ps[0]] + ps[1..] == ps;
      } else {
        assert Render(lists) == rest;
      }
    }
  }
}
