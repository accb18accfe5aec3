/**
 * The path-string builders of tools/synths/svg.js: `makePathRel` and
 * `makePathAbs` turn a list of points into the `d` attribute of an SVG path.
 * The conversion of a coordinate to text is the host's and is a parameter,
 * `show`, here.
 */
module SvgPath {
  import opened JsCore

  /** A point `[x, y]`. */
  datatype Point = Point(x: JsNumber, y: JsNumber)

  /** `x + ',' + y`. */
  function Coords(p: Point, show: JsNumber -> string): string
  {
    show(p.x) + "," + show(p.y)
  }

  /** What the loop has appended once it has reached point n: the
      coordinates of points 1..n-1, each followed by a space. */
  function PointsUpTo(pts: seq<Point>, n: nat, show: JsNumber -> string): string
    requires n <= |pts|
  {
    if n <= 1 then [] else PointsUpTo(pts, n - 1, show) + Coords(pts[n - 1], show) + " "
  }

  /** `move + ' ' + x0 + ',' + y0 + ' ' + line + ' '`. */
  function Head(move: char, line: char, p: Point, show: JsNumber -> string): string
  {
    [move, ' '] + Coords(p, show) + [' ', line, ' ']
  }

  /** The path text for commands `move` and `line`: the head, the later
      points, and `' z'` when closed. An empty list has no `pts[0]`, and
      reading its coordinates throws (None). */
  function Path(move: char, line: char, pts: seq<Point>, closed: bool, show: JsNumber -> string): Option<string>
  {
    if pts == [] then None
    else
      var open := Head(move, line, pts[0], show) + PointsUpTo(pts, |pts|, show);
      Some(if closed then open + " z" else open)
  }

  /** `makePathRel(pts, closed)`. */
  method MakePathRel(pts: seq<Point>, closed: bool, show: JsNumber -> string) returns (str: Option<string>)
    ensures str == Path('m', 'l', pts, closed, show)
  {
    str := BuildPath('m', 'l', pts, closed, show);
  }

  /** `makePathAbs(pts, closed)`. */
  method MakePathAbs(pts: seq<Point>, closed: bool, show: JsNumber -> string) returns (str: Option<string>)
    ensures str == Path('M', 'L', pts, closed, show)
  {
    str := BuildPath('M', 'L', pts, closed, show);
  }

  /** The body the two builders share. */
  method BuildPath(move: char, line: char, pts: seq<Point>, closed: bool, show: JsNumber -> string) returns (str: Option<string>)
    ensures str == Path(move, line, pts, closed, show)
  {
    if |pts| == 0 {
      return None;
    }
    var s := Head(move, line, pts[0], show);
    var i := 1;
    while i < |pts|
      invariant 1 <= i <= |pts|
      invariant s == Head(move, line, pts[0], show) + PointsUpTo(pts, i, show)
    {
      assert PointsUpTo(pts, i + 1, show) == PointsUpTo(pts, i, show) + Coords(pts[i], show) + " ";
      s := s + Coords(pts[i], show) + " ";
      i := i + 1;
    }
    if closed {
      s := s + " z";
    }
    str := Some(s);
  }

  // ---------------------------------------------------------------------------
  // Properties
  // ---------------------------------------------------------------------------

  /** A path starts with its head; a single point gives the head alone,
      with `' z'` after it when closed. */
  lemma HeadFirst(move: char, line: char, pts: seq<Point>, closed: bool, show: JsNumber -> string)
    requires pts != []
    ensures StartsWith(Path(move, line, pts, closed, show).value, Head(move, line, pts[0], show))
    ensures |pts| == 1 ==> Path(move, line, pts, closed, show).value == Head(move, line, pts[0], show) + (if closed then " z" else "")
  {
    var h := Head(move, line, pts[0], show);
    var rest := PointsUpTo(pts, |pts|, show) + (if closed then " z" else "");
    assert Path(move, line, pts, closed, show).value == h + rest;
    assert (h + rest)[..|h|] == h;
  }

  /** The points before n appear, in order, ahead of the rest: the text
      for a longer list begins with the text for a shorter one. */
  lemma {:induction false} PointsPrefix(pts: seq<Point>, more: seq<Point>, n: nat, show: JsNumber -> string)
    requires n <= |pts|
    ensures PointsUpTo(pts + more, n, show) == PointsUpTo(pts, n, show)
  {
    if n > 1 {
      PointsPrefix(pts, more, n - 1, show);
      assert (pts + more)[n - 1] == pts[n - 1];
    }
  }

  /** Adding a point to an open path appends its coordinates and a space. */
  lemma AppendPoint(move: char, line: char, pts: seq<Point>, p: Point, show: JsNumber -> string)
    requires pts != []
    ensures Path(move, line, pts + [p], false, show).value == Path(move, line, pts, false, show).value + Coords(p, show) + " "
  {
    var q := pts + [p];
    var h := Head(move, line, pts[0], show);
    var a := PointsUpTo(pts, |pts|, show);
    var tail := Coords(p, show) + " ";
    PointsPrefix(pts, [p], |pts|, show);
    assert q[0] == pts[0] && q[|pts|] == p;
    assert PointsUpTo(q, |q|, show) == a + tail;
    assert Path(move, line, q, false, show).value == h + (a + tail);
    assert h + (a + tail) == h + a + tail;
  }

  /** A closed path is the open one followed by `' z'`; an open path ends
      in a space, so it carries no `z` command. */
  lemma ClosedAddsZ(move: char, line: char, pts: seq<Point>, show: JsNumber -> string)
    requires pts != []
    ensures var open := Path(move, line, pts, false, show).value;
            Path(move, line, pts, true, show).value == open + " z"
            && open != [] && open[|open| - 1] == ' '
  {
    var h := Head(move, line, pts[0], show);
    var body := PointsUpTo(pts, |pts|, show);
    assert Path(move, line, pts, false, show).value == h + body;
    if |pts| > 1 {
      var last := Coords(pts[|pts| - 1], show) + " ";
      assert body == PointsUpTo(pts, |pts| - 1, show) + last;
      assert (h + body)[|h + body| - 1] == last[|last| - 1];
    } else {
      assert h + body == h;
    }
  }

  /** `makePathAbs` gives the text of `makePathRel` with `M` and `L` in
      place of `m` and `l`, and nothing else changed. */
  lemma AbsMatchesRel(pts: seq<Point>, closed: bool, show: JsNumber -> string)
    requires pts != []
    ensures var rel := Path('m', 'l', pts, closed, show).value;
            var abs := Path('M', 'L', pts, closed, show).value;
            var j := |Coords(pts[0], show)| + 3;
            |abs| == |rel| && j < |rel|
            && rel[0] == 'm' && rel[j] == 'l' && abs[0] == 'M' && abs[j] == 'L'
            && forall i :: 0 <= i < |rel| && i != 0 && i != j ==> abs[i] == rel[i]
  {
    var c := Coords(pts[0], show);
    var tail := [' '] + PointsUpTo(pts, |pts|, show) + (if closed then " z" else "");
    var rel := Path('m', 'l', pts, closed, show).value;
    var abs := Path('M', 'L', pts, closed, show).value;
    assert rel == ['m', ' '] + c + [' ', 'l'] + tail;
    assert abs == ['M', ' '] + c + [' ', 'L'] + tail;
  }

  /** Without a point there is nothing to read, and the builders throw. */
  lemma NoPointsThrows(closed: bool, show: JsNumber -> string)
    ensures Path('m', 'l', [], closed, show) == None && Path('M', 'L', [], closed, show) == None
  {
  }
}
