/**
 * The pointer state machine of the frameless launcher window: a press, a release
 * and a move update the drag flag, the resize flag, the latched resize direction,
 * the anchor of the last global pointer position, the window geometry and the
 * cursor shape.
 *
 * The window class keeps `resizeDir` as the Python program does: absent (`None`),
 * or a string built by a tracking move ("", "left", "righttop", ...). The
 * structural `ResizeDir` below is the abstract view of that string; the lemmas of
 * the first part show that the string tests the program uses (`is not None`,
 * truthiness, `'right' in ...`, the cursor dictionary) read it faithfully.
 */
module Pointer {
  import opened Options
  import opened Geometry

  /** Width of the edge band in which a tracking move latches a direction. */
  const BorderWidth: int := 6
  /** A left press above this local height starts a drag. */
  const DragStripHeight: int := 50
  /** The window's initial size. */
  const InitialWidth: int := 1280
  const InitialHeight: int := 720

  datatype Horiz = LeftEdge | RightEdge
  datatype Vert = TopEdge | BottomEdge

  /** `NoDir` is `None`; `Latched(None, None)` is the empty string. */
  datatype ResizeDir = NoDir | Latched(h: Option<Horiz>, v: Option<Vert>)

  datatype Cursor = ArrowCursor | SizeHorCursor | SizeVerCursor | SizeFDiagCursor | SizeBDiagCursor

  datatype MouseButton = LeftButton | RightButton | MiddleButton

  /** A latched direction that names at least one edge: a non-empty string. */
  predicate Active(d: ResizeDir) {
    d.Latched? && (d.h.Some? || d.v.Some?)
  }

  // ---------------------------------------------------------------------------
  // The string form of a direction
  // ---------------------------------------------------------------------------

  function HorizWord(h: Option<Horiz>): string {
    match h
    case None => ""
    case Some(LeftEdge) => "left"
    case Some(RightEdge) => "right"
  }

  function VertWord(v: Option<Vert>): string {
    match v
    case None => ""
    case Some(TopEdge) => "top"
    case Some(BottomEdge) => "bottom"
  }

  /** The value the program stores in `resize_dir` for a direction. */
  function Spelling(d: ResizeDir): Option<string> {
    match d
    case NoDir => None
    case Latched(h, v) => Some(HorizWord(h) + VertWord(v))
  }

  /** Python's substring test `t in s`. */
  predicate Occurs(t: string, s: string)
    decreases |s|
  {
    |t| <= |s| && (s[..|t|] == t || Occurs(t, s[1..]))
  }

  /** Python's truthiness of an optional string: present and non-empty. */
  predicate Truthy(s: Option<string>) {
    s.Some? && s.value != ""
  }

  /** Reads a stored `resize_dir` back the way the resize code does, by substring tests. */
  function Parse(s: Option<string>): ResizeDir {
    match s
    case None => NoDir
    case Some(w) =>
      Latched(if Occurs("left", w) then Some(LeftEdge)
              else if Occurs("right", w) then Some(RightEdge) else None,
              if Occurs("top", w) then Some(TopEdge)
              else if Occurs("bottom", w) then Some(BottomEdge) else None)
  }

  /** A string lacking one character of `t` does not contain `t`. */
  lemma {:induction false} AbsentChar(t: string, s: string, k: nat)
    requires k < |t|
    requires forall i :: 0 <= i < |s| ==> s[i] != t[k]
    ensures !Occurs(t, s)
    decreases |s|
  {
    if |t| <= |s| {
      assert s[..|t|][k] != t[k];
      AbsentChar(t, s[1..], k);
    }
  }

  /** Every string ending in `t` contains `t`. */
  lemma {:induction false} OccursAsSuffix(t: string, u: string)
    ensures Occurs(t, u + t)
    decreases |u|
  {
    if u == [] {
      assert (u + t)[..|t|] == t;
    } else {
      assert (u + t)[1..] == u[1..] + t;
      OccursAsSuffix(t, u[1..]);
    }
  }

  /** The four substring tests of the resize code each detect exactly one edge. */
  lemma SpelledEdges(h: Option<Horiz>, v: Option<Vert>)
    ensures Occurs("left", HorizWord(h) + VertWord(v)) <==> h == Some(LeftEdge)
    ensures Occurs("right", HorizWord(h) + VertWord(v)) <==> h == Some(RightEdge)
    ensures Occurs("top", HorizWord(h) + VertWord(v)) <==> v == Some(TopEdge)
    ensures Occurs("bottom", HorizWord(h) + VertWord(v)) <==> v == Some(BottomEdge)
  {
    var s := HorizWord(h) + VertWord(v);
    if h == Some(LeftEdge) { assert s[..4] == "left"; } else { AbsentChar("left", s, 0); }
    if h == Some(RightEdge) { assert s[..5] == "right"; } else { AbsentChar("right", s, 0); }
    if v == Some(TopEdge) { OccursAsSuffix("top", HorizWord(h)); } else { AbsentChar("top", s, 2); }
    if v == Some(BottomEdge) { OccursAsSuffix("bottom", HorizWord(h)); } else { AbsentChar("bottom", s, 0); }
  }

  /**
   * Reading the stored string back recovers the direction, so no two directions
   * share a spelling: in particular `None` and "" stay apart, and the press test
   * `is not None` and the move test of truthiness see what they should.
   */
  lemma SpellingRoundTrip(d: ResizeDir)
    ensures Parse(Spelling(d)) == d
    ensures Spelling(d).Some? <==> d != NoDir
    ensures Truthy(Spelling(d)) <==> Active(d)
  {
    if d.Latched? {
      SpelledEdges(d.h, d.v);
    }
  }

  lemma SpellingInjective(d: ResizeDir, e: ResizeDir)
    ensures Spelling(d) == Spelling(e) <==> d == e
  {
    SpellingRoundTrip(d);
    SpellingRoundTrip(e);
  }

  // ---------------------------------------------------------------------------
  // Cursor shapes
  // ---------------------------------------------------------------------------

  /** The program's cursor dictionary, keyed by the stored direction string. */
  const Cursors: map<string, Cursor> := map[
    "left" := SizeHorCursor,
    "right" := SizeHorCursor,
    "top" := SizeVerCursor,
    "bottom" := SizeVerCursor,
    "lefttop" := SizeFDiagCursor,
    "rightbottom" := SizeFDiagCursor,
    "righttop" := SizeBDiagCursor,
    "leftbottom" := SizeBDiagCursor
  ]

  /** `cursors.get(s, Qt.ArrowCursor)`. */
  function LookupCursor(s: string): Cursor {
    if s in Cursors then Cursors[s] else ArrowCursor
  }

  /** The cursor shape a direction calls for, by the edges it names. */
  function CursorFor(d: ResizeDir): Cursor {
    match d
    case NoDir => ArrowCursor
    case Latched(None, None) => ArrowCursor
    case Latched(Some(_), None) => SizeHorCursor
    case Latched(None, Some(_)) => SizeVerCursor
    case Latched(Some(LeftEdge), Some(TopEdge)) => SizeFDiagCursor
    case Latched(Some(RightEdge), Some(BottomEdge)) => SizeFDiagCursor
    case Latched(Some(_), Some(_)) => SizeBDiagCursor
  }

  /** The dictionary lookup with its Arrow default agrees with `CursorFor` on every latched direction. */
  lemma CursorTableAgrees(d: ResizeDir)
    requires d.Latched?
    ensures LookupCursor(Spelling(d).value) == CursorFor(d)
  {
    var s := Spelling(d).value;
    match (d.h, d.v)
    case (None, None) => assert s == "";
    case (Some(LeftEdge), None) => assert s == "left";
    case (Some(RightEdge), None) => assert s == "right";
    case (None, Some(TopEdge)) => assert s == "top";
    case (None, Some(BottomEdge)) => assert s == "bottom";
    case (Some(LeftEdge), Some(TopEdge)) => assert s == "lefttop";
    case (Some(LeftEdge), Some(BottomEdge)) => assert s == "leftbottom";
    case (Some(RightEdge), Some(TopEdge)) => assert s == "righttop";
    case (Some(RightEdge), Some(BottomEdge)) => assert s == "rightbottom";
  }

  /**
   * Straight edges get the straight shapes, top-left and bottom-right share the
   * forward diagonal, top-right and bottom-left share the backward one, and only
   * a direction naming no edge shows the arrow.
   */
  lemma CursorShapes(d: ResizeDir)
    ensures CursorFor(d) == ArrowCursor <==> !Active(d)
    ensures CursorFor(d) == SizeHorCursor <==> d.Latched? && d.h.Some? && d.v.None?
    ensures CursorFor(d) == SizeVerCursor <==> d.Latched? && d.h.None? && d.v.Some?
    ensures CursorFor(d) == SizeFDiagCursor <==>
      d == Latched(Some(LeftEdge), Some(TopEdge)) || d == Latched(Some(RightEdge), Some(BottomEdge))
    ensures CursorFor(d) == SizeBDiagCursor <==>
      d == Latched(Some(RightEdge), Some(TopEdge)) || d == Latched(Some(LeftEdge), Some(BottomEdge))
  {
  }

  // ---------------------------------------------------------------------------
  // The abstract state machine
  // ---------------------------------------------------------------------------

  datatype PointerState = PointerState(
    dragging: bool,
    resizing: bool,
    resizeDir: ResizeDir,
    oldPos: Point,
    geom: Rect,
    cursor: Cursor)

  datatype Event =
    | PressEvent(button: MouseButton, local: Point, global: Point)
    | ReleaseEvent
    | MoveEvent(local: Point, global: Point)

  /** The freshly built window: 1280 by 720 at `(left, top)`, anchored at its own position. */
  function Initial(left: int, top: int): PointerState {
    PointerState(false, false, NoDir, Point(left, top),
                 RectOfSize(left, top, InitialWidth, InitialHeight), ArrowCursor)
  }

  predicate Idle(s: PointerState) {
    !s.dragging && !s.resizing && s.resizeDir == NoDir && s.cursor == ArrowCursor
  }

  /** A move resizes when the resize flag is set and the latched string is non-empty. */
  predicate ResizeActive(s: PointerState) {
    s.resizing && Active(s.resizeDir)
  }

  function Press(s: PointerState, button: MouseButton, local: Point, global: Point): PointerState {
    if button == LeftButton then
      s.(dragging := local.y < DragStripHeight, oldPos := global, resizing := s.resizeDir != NoDir)
    else
      s
  }

  function Release(s: PointerState): PointerState {
    s.(dragging := false, resizing := false, resizeDir := NoDir, cursor := ArrowCursor)
  }

  /** The edges a tracking move latches: left before right, top before bottom. */
  function EdgeDir(x: int, y: int, w: int, h: int): ResizeDir {
    Latched(if x < BorderWidth then Some(LeftEdge)
            else if x > w - BorderWidth then Some(RightEdge) else None,
            if y < BorderWidth then Some(TopEdge)
            else if y > h - BorderWidth then Some(BottomEdge) else None)
  }

  /** The geometry update of a resizing move, setter by setter in the program's order. */
  function Resize(g: Rect, d: ResizeDir, delta: Point): Rect
    requires d.Latched?
  {
    var g1 := if d.h == Some(RightEdge) then g.SetWidth(g.Width() + delta.x) else g;
    var g2 := if d.v == Some(BottomEdge) then g1.SetHeight(g1.Height() + delta.y) else g1;
    var g3 := if d.h == Some(LeftEdge) then g2.SetLeft(g2.Left() + delta.x) else g2;
    if d.v == Some(TopEdge) then g3.SetTop(g3.Top() + delta.y) else g3
  }

  function Move(s: PointerState, local: Point, global: Point): PointerState {
    if ResizeActive(s) then
      s.(geom := Resize(s.geom, s.resizeDir, global.Minus(s.oldPos)), oldPos := global)
    else if s.dragging then
      var delta := global.Minus(s.oldPos);
      s.(geom := s.geom.MoveTo(s.geom.Left() + delta.x, s.geom.Top() + delta.y), oldPos := global)
    else
      var d := EdgeDir(local.x, local.y, s.geom.Width(), s.geom.Height());
      s.(resizeDir := d, cursor := CursorFor(d))
  }

  function Step(s: PointerState, e: Event): PointerState {
    match e
    case PressEvent(b, l, g) => Press(s, b, l, g)
    case ReleaseEvent => Release(s)
    case MoveEvent(l, g) => Move(s, l, g)
  }

  function Run(s: PointerState, es: seq<Event>): PointerState
    decreases |es|
  {
    if es == [] then s else Run(Step(s, es[0]), es[1..])
  }

  // ---------------------------------------------------------------------------
  // Properties of single events
  // ---------------------------------------------------------------------------

  /**
   * A left press sets the drag flag from the local height and the resize flag from
   * whether any direction string is stored, independently of each other, and
   * re-anchors; any other button changes nothing.
   */
  lemma PressEffect(s: PointerState, button: MouseButton, local: Point, global: Point)
    ensures var r := Press(s, button, local, global);
      if button == LeftButton then
        && (r.dragging <==> local.y < DragStripHeight)
        && (r.resizing <==> s.resizeDir != NoDir)
        && r.oldPos == global
        && r.resizeDir == s.resizeDir && r.geom == s.geom && r.cursor == s.cursor
      else
        r == s
  {
  }

  /** A release, from any state, ends every interaction and leaves the geometry alone. */
  lemma ReleaseEffect(s: PointerState)
    ensures Idle(Release(s))
    ensures Release(s).geom == s.geom && Release(s).oldPos == s.oldPos
  {
  }

  /**
   * A resizing move changes the geometry and the anchor only (a set drag flag is
   * ignored). With `delta` the pointer's travel since the anchor: a right edge
   * moves with the pointer and the width grows by `delta.x`; a left edge moves by
   * `delta.x` while the right edge stays, so the width shrinks by `delta.x`; an
   * axis with no latched edge keeps both its edges. Likewise for top and bottom.
   */
  lemma ResizeMove(s: PointerState, local: Point, global: Point)
    requires ResizeActive(s)
    ensures var r := Move(s, local, global);
      var g, n, dx, dy := s.geom, r.geom, global.x - s.oldPos.x, global.y - s.oldPos.y;
      && r == s.(geom := n, oldPos := global)
      && (s.resizeDir.h == Some(RightEdge) ==> n.Left() == g.Left() && n.Width() == g.Width() + dx)
      && (s.resizeDir.h == Some(LeftEdge) ==>
            n.Left() == g.Left() + dx && n.Right() == g.Right() && n.Width() == g.Width() - dx)
      && (s.resizeDir.h.None? ==> n.Left() == g.Left() && n.Right() == g.Right())
      && (s.resizeDir.v == Some(BottomEdge) ==> n.Top() == g.Top() && n.Height() == g.Height() + dy)
      && (s.resizeDir.v == Some(TopEdge) ==>
            n.Top() == g.Top() + dy && n.Bottom() == g.Bottom() && n.Height() == g.Height() - dy)
      && (s.resizeDir.v.None? ==> n.Top() == g.Top() && n.Bottom() == g.Bottom())
  {
  }

  /** A dragging move translates the window by the pointer's travel since the anchor and re-anchors. */
  lemma DragMove(s: PointerState, local: Point, global: Point)
    requires !ResizeActive(s) && s.dragging
    ensures var r := Move(s, local, global);
      && r == s.(geom := r.geom, oldPos := global)
      && r.geom.Left() == s.geom.Left() + (global.x - s.oldPos.x)
      && r.geom.Top() == s.geom.Top() + (global.y - s.oldPos.y)
      && r.geom.Width() == s.geom.Width() && r.geom.Height() == s.geom.Height()
  {
  }

  /**
   * Two dragging moves translate the window by the total travel from the first
   * anchor: each move is measured from the previous one, not from the press.
   */
  lemma DragAccumulates(s: PointerState, l1: Point, g1: Point, l2: Point, g2: Point)
    requires !ResizeActive(s) && s.dragging
    ensures var r := Move(Move(s, l1, g1), l2, g2);
      && r.geom.Left() == s.geom.Left() + (g2.x - s.oldPos.x)
      && r.geom.Top() == s.geom.Top() + (g2.y - s.oldPos.y)
      && r.geom.Width() == s.geom.Width() && r.geom.Height() == s.geom.Height()
      && r.oldPos == g2 && r.dragging
  {
    DragMove(s, l1, g1);
    DragMove(Move(s, l1, g1), l2, g2);
  }

  /**
   * A move that neither resizes nor drags latches at most one horizontal edge
   * (left wins over right) and at most one vertical edge (top wins over bottom),
   * judged against the current window size, updates the cursor to match and
   * changes nothing else.
   */
  lemma TrackingMove(s: PointerState, local: Point, global: Point)
    requires !ResizeActive(s) && !s.dragging
    ensures var r := Move(s, local, global);
      var w, h := s.geom.Width(), s.geom.Height();
      && r == s.(resizeDir := r.resizeDir, cursor := r.cursor)
      && r.resizeDir.Latched?
      && (r.resizeDir.h == Some(LeftEdge) <==> local.x < BorderWidth)
      && (r.resizeDir.h == Some(RightEdge) <==> BorderWidth <= local.x && local.x > w - BorderWidth)
      && (r.resizeDir.v == Some(TopEdge) <==> local.y < BorderWidth)
      && (r.resizeDir.v == Some(BottomEdge) <==> BorderWidth <= local.y && local.y > h - BorderWidth)
      && r.cursor == CursorFor(r.resizeDir)
  {
  }

  // ---------------------------------------------------------------------------
  // Properties of event sequences
  // ---------------------------------------------------------------------------

  lemma {:induction false} RunAppend(s: PointerState, es: seq<Event>, e: Event)
    ensures Run(s, es + [e]) == Step(Run(s, es), e)
    decreases |es|
  {
    if es == [] {
      assert es + [e] == [e];
    } else {
      assert (es + [e])[1..] == es[1..] + [e];
      RunAppend(Step(s, es[0]), es[1..], e);
    }
  }

  /** Whatever happened before, a release leaves the window idle with no latched direction. */
  lemma ReleaseEndsInteraction(s: PointerState, es: seq<Event>)
    ensures Idle(Run(s, es + [ReleaseEvent]))
    ensures Run(s, es + [ReleaseEvent]).geom == Run(s, es).geom
  {
    RunAppend(s, es, ReleaseEvent);
  }

  /**
   * The state invariant: the cursor always shows the latched direction (the arrow
   * when there is none), and the resize flag is only ever set with some string stored.
   */
  predicate Consistent(s: PointerState) {
    s.cursor == CursorFor(s.resizeDir) && (s.resizing ==> s.resizeDir != NoDir)
  }

  lemma StepKeepsConsistent(s: PointerState, e: Event)
    requires Consistent(s)
    ensures Consistent(Step(s, e))
  {
  }

  lemma {:induction false} RunKeepsConsistent(s: PointerState, es: seq<Event>)
    requires Consistent(s)
    ensures Consistent(Run(s, es))
    decreases |es|
  {
    if es != [] {
      StepKeepsConsistent(s, es[0]);
      RunKeepsConsistent(Step(s, es[0]), es[1..]);
    }
  }

  /** Every reachable state of a new window is consistent. */
  lemma ReachableConsistent(left: int, top: int, es: seq<Event>)
    ensures Consistent(Run(Initial(left, top), es))
  {
    RunKeepsConsistent(Initial(left, top), es);
  }

  /**
   * The latched empty string arms a resize. A tracking move in the middle of the
   * window stores "", after which a left press anywhere sets the resize flag; the
   * next move that reaches the right edge latches "right", and the move after that
   * resizes although no press happened on an edge. Tracking moves do not move the
   * anchor, so that first resize is measured from the press point, 648 pixels away.
   * From a fresh window, where nothing is stored, the same press would not set the flag.
   */
  lemma EmptyDirectionArmsResize()
    ensures var s0 := Initial(0, 0);
      var s1 := Move(s0, Point(640, 360), Point(640, 360));
      var s2 := Press(s1, LeftButton, Point(640, 360), Point(640, 360));
      var s3 := Move(s2, Point(1278, 360), Point(1278, 360));
      var s4 := Move(s3, Point(1288, 360), Point(1288, 360));
      && s1.resizeDir == Latched(None, None) && s1.cursor == ArrowCursor
      && s2.resizing && !s2.dragging
      && s3.resizeDir == Latched(Some(RightEdge), None) && s3.cursor == SizeHorCursor
      && s3.geom == s0.geom
      && s4.geom.Width() == InitialWidth + (1288 - 640) && s4.geom.Left() == 0
      && !Press(s0, LeftButton, Point(640, 360), Point(640, 360)).resizing
  {
    var s0 := Initial(0, 0);
    assert s0.geom.Width() == InitialWidth && s0.geom.Height() == InitialHeight;
    TrackingMove(s0, Point(640, 360), Point(640, 360));
    var s1 := Move(s0, Point(640, 360), Point(640, 360));
    assert s1.resizeDir == Latched(None, None);
    var s2 := Press(s1, LeftButton, Point(640, 360), Point(640, 360));
    assert s2.resizing && !s2.dragging && !ResizeActive(s2);
    TrackingMove(s2, Point(1278, 360), Point(1278, 360));
    var s3 := Move(s2, Point(1278, 360), Point(1278, 360));
    assert s3.resizeDir == Latched(Some(RightEdge), None);
    ResizeMove(s3, Point(1288, 360), Point(1288, 360));
    assert s1.cursor == ArrowCursor;
    assert s3.cursor == SizeHorCursor;
    assert s3.geom == s0.geom;
  }

  /**
   * Pointer positions of an 800 by 600 window: (3, 300) latches the left edge only,
   * (400, 3) the top edge only, and any point in the top-left corner square both,
   * with the same forward-diagonal cursor as the bottom-right corner.
   */
  lemma EdgeExamples(x: int, y: int)
    requires 0 <= x < BorderWidth && 0 <= y < BorderWidth
    ensures EdgeDir(3, 300, 800, 600) == Latched(Some(LeftEdge), None)
    ensures CursorFor(EdgeDir(3, 300, 800, 600)) == SizeHorCursor
    ensures EdgeDir(400, 3, 800, 600) == Latched(None, Some(TopEdge))
    ensures CursorFor(EdgeDir(400, 3, 800, 600)) == SizeVerCursor
    ensures EdgeDir(x, y, 800, 600) == Latched(Some(LeftEdge), Some(TopEdge))
    ensures CursorFor(EdgeDir(x, y, 800, 600)) == SizeFDiagCursor
    ensures CursorFor(EdgeDir(797, 597, 800, 600)) == SizeFDiagCursor
  {
  }

  /**
   * Dragging from anchor (100, 100) to (150, 120) moves the window by (50, 20);
   * moving on to (160, 125) moves it by a further (10, 5).
   */
  lemma DragExample(g: Rect)
    ensures var s := PointerState(true, false, NoDir, Point(100, 100), g, ArrowCursor);
      var s1 := Move(s, Point(0, 0), Point(150, 120));
      var s2 := Move(s1, Point(0, 0), Point(160, 125));
      && s1.geom.Left() == g.Left() + 50 && s1.geom.Top() == g.Top() + 20
      && s2.geom.Left() == s1.geom.Left() + 10 && s2.geom.Top() == s1.geom.Top() + 5
  {
    var s := PointerState(true, false, NoDir, Point(100, 100), g, ArrowCursor);
    DragMove(s, Point(0, 0), Point(150, 120));
    DragMove(Move(s, Point(0, 0), Point(150, 120)), Point(0, 0), Point(160, 125));
  }

  /**
   * Resizing the right and bottom edges by (20, -10) changes only the size;
   * resizing the left edge by (20, 0) moves the left edge right by 20 and narrows
   * the window by 20.
   */
  lemma ResizeExamples(g: Rect)
    ensures var s := PointerState(false, true, Latched(Some(RightEdge), Some(BottomEdge)), Point(0, 0), g, SizeFDiagCursor);
      var r := Move(s, Point(0, 0), Point(20, -10)).geom;
      r.Left() == g.Left() && r.Top() == g.Top() && r.Width() == g.Width() + 20 && r.Height() == g.Height() - 10
    ensures var s := PointerState(false, true, Latched(Some(LeftEdge), None), Point(0, 0), g, SizeHorCursor);
      var r := Move(s, Point(0, 0), Point(20, 0)).geom;
      r.Left() == g.Left() + 20 && r.Width() == g.Width() - 20 && r.Top() == g.Top() && r.Height() == g.Height()
  {
    ResizeMove(PointerState(false, true, Latched(Some(RightEdge), Some(BottomEdge)), Point(0, 0), g, SizeFDiagCursor),
               Point(0, 0), Point(20, -10));
    ResizeMove(PointerState(false, true, Latched(Some(LeftEdge), None), Point(0, 0), g, SizeHorCursor),
               Point(0, 0), Point(20, 0));
  }

  // ---------------------------------------------------------------------------
  // The window object
  // ---------------------------------------------------------------------------

  /** The launcher window's pointer handling, on the fields the program keeps. */
  class FramelessWindow {
    var dragging: bool
    var resizing: bool
    var resizeDir: Option<string>
    var oldPos: Point
    var geom: Rect
    var cursor: Cursor

    /** The stored string is one a tracking move can build. */
    ghost predicate Valid()
      reads this
    {
      resizeDir == Spelling(Parse(resizeDir))
    }

    ghost function State(): PointerState
      reads this
    {
      PointerState(dragging, resizing, Parse(resizeDir), oldPos, geom, cursor)
    }

    constructor (left: int, top: int)
      ensures Valid() && State() == Initial(left, top)
    {
      dragging := false;
      resizing := false;
      resizeDir := None;
      oldPos := Point(left, top);
      geom := RectOfSize(left, top, InitialWidth, InitialHeight);
      cursor := ArrowCursor;
    }

    method MousePressEvent(button: MouseButton, local: Point, global: Point)
      requires Valid()
      modifies this
      ensures Valid() && State() == Press(old(State()), button, local, global)
    {
      if button == LeftButton {
        dragging := local.y < DragStripHeight;
        oldPos := global;
        resizing := resizeDir != None;
      }
    }

    method MouseReleaseEvent()
      requires Valid()
      modifies this
      ensures Valid() && State() == Release(old(State()))
    {
      dragging := false;
      resizing := false;
      resizeDir := None;
      cursor := ArrowCursor;
    }

    method MouseMoveEvent(local: Point, global: Point)
      requires Valid()
      modifies this
      ensures Valid() && State() == Move(old(State()), local, global)
    {
      var x, y, w, h := local.x, local.y, geom.Width(), geom.Height();
      SpellingRoundTrip(Parse(resizeDir));

      if resizing && Truthy(resizeDir) {
        var delta := global.Minus(oldPos);
        var dir := resizeDir.value;
        ghost var d := Parse(resizeDir);
        assert dir == HorizWord(d.h) + VertWord(d.v);
        SpelledEdges(d.h, d.v);
        var g := geom;
        if Occurs("right", dir) {
          g := g.SetWidth(g.Width() + delta.x);
        }
        if Occurs("bottom", dir) {
          g := g.SetHeight(g.Height() + delta.y);
        }
        if Occurs("left", dir) {
          g := g.SetLeft(g.Left() + delta.x);
        }
        if Occurs("top", dir) {
          g := g.SetTop(g.Top() + delta.y);
        }
        geom := g;
        oldPos := global;
        return;
      }

      if dragging {
        var delta := global.Minus(oldPos);
        geom := geom.MoveTo(geom.Left() + delta.x, geom.Top() + delta.y);
        oldPos := global;
        return;
      }

      var margin := BorderWidth;
      ghost var d := EdgeDir(x, y, w, h);
      var dir := "";
      if x < margin {
        dir := dir + "left";
      } else if x > w - margin {
        dir := dir + "right";
      }
      assert dir == HorizWord(d.h);
      if y < margin {
        dir := dir + "top";
      } else if y > h - margin {
        dir := dir + "bottom";
      }
      assert dir == HorizWord(d.h) + VertWord(d.v);
      SpellingRoundTrip(d);
      CursorTableAgrees(d);
      resizeDir := Some(dir);
      cursor := LookupCursor(dir);
    }
  }
}
