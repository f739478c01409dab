/**
 * The client-side shape list of a drawing room (`existingShapes`) and the
 * handlers that change it: the four remote events replayed from the relay
 * server, and the local mouse handlers (eraser, select-and-drag, shape
 * creation on mouse-up, clear-all) that change the list and emit the
 * change with a numeric index.
 *
 * Coordinates are JavaScript numbers, modelled as `real` (no rounding).
 * The values the source computes with `Math.sqrt`, `Math.atan2`, `Math.cos`
 * and `Math.sin` enter as parameters, and so does the hit test of every
 * shape kind but the rectangle.
 */
module Draw {
  import opened Wrappers
  import opened JsStrings
  import T = Toolbar

  datatype Point = Point(x: real, y: real)

  /** The `Shape` union; `header` is the arrow-head length. */
  datatype Shape =
    | RectShape(x: real, y: real, width: real, height: real)
    | CircleShape(x: real, y: real, radius: real)
    | LineShape(x: real, y: real, mx: real, my: real)
    | ArrowShape(x: real, y: real, mx: real, my: real,
                 l1x: real, l1y: real, l2x: real, l2y: real, header: real)
    | PencilShape(points: seq<Point>)

  /** The shape's `type` tag. */
  function Kind(s: Shape): string {
    match s
    case RectShape(_, _, _, _) => "rect"
    case CircleShape(_, _, _) => "circle"
    case LineShape(_, _, _, _) => "line"
    case ArrowShape(_, _, _, _, _, _, _, _, _) => "arrow"
    case PencilShape(_) => "pencil"
  }

  /** `shape.type.toUpperCase()`, the `type` sent with `shape:create`. */
  function TypeName(s: Shape): (r: string)
    ensures s.RectShape? <==> r == "RECT"
    ensures s.CircleShape? <==> r == "CIRCLE"
    ensures s.LineShape? <==> r == "LINE"
    ensures s.ArrowShape? <==> r == "ARROW"
    ensures s.PencilShape? <==> r == "PENCIL"
  {
    var r := ToUpper(Kind(s));
    match s
    case RectShape(_, _, _, _) => assert r == "RECT"; r
    case CircleShape(_, _, _) => assert r == "CIRCLE"; r
    case LineShape(_, _, _, _) => assert r == "LINE"; r
    case ArrowShape(_, _, _, _, _, _, _, _, _) => assert r == "ARROW"; r
    case PencilShape(_) => assert r == "PENCIL"; r
  }

  // ---------------------------------------------------------------------
  // The list operations and the events that carry them
  // ---------------------------------------------------------------------

  /**
   * The index `splice` starts at: a negative `idx` counts back from the end
   * of a list of length `len`, and is clamped at 0.
   */
  function SpliceStart(len: nat, idx: int): (start: nat)
    ensures idx >= 0 ==> start == idx
    ensures idx < 0 && len + idx >= 0 ==> start == len + idx
    ensures len + idx < 0 ==> start == 0
  {
    if idx >= 0 then idx else if len + idx < 0 then 0 else len + idx
  }

  /**
   * `s.splice(idx, 1)` with JavaScript's index rules: the entry at
   * `SpliceStart(|s|, idx)` is removed and the later entries shift down one
   * place; a start at or past the end removes nothing.
   */
  function SpliceOne(s: seq<Shape>, idx: int): (r: seq<Shape>)
    ensures var k0 := SpliceStart(|s|, idx);
      k0 < |s| ==> |r| == |s| - 1
                   && (forall k :: 0 <= k < k0 ==> r[k] == s[k])
                   && (forall k :: k0 <= k < |r| ==> r[k] == s[k + 1])
                   && multiset(r) + multiset{s[k0]} == multiset(s)
    ensures SpliceStart(|s|, idx) >= |s| ==> r == s
  {
    var start := SpliceStart(|s|, idx);
    if start < |s| then
      assert s == s[..start] + [s[start]] + s[start + 1..];
      s[..start] + s[start + 1..]
    else s
  }

  /**
   * `s[index] = shape`: an index inside the list replaces that entry, the
   * index one past the end appends, and a negative index sets a property
   * that is not an element, leaving the elements as they were.
   */
  function Store(s: seq<Shape>, index: int, shape: Shape): (r: seq<Shape>)
    ensures 0 <= index < |s| ==> |r| == |s| && r[index] == shape
    ensures 0 <= index < |s| ==> forall k :: 0 <= k < |s| && k != index ==> r[k] == s[k]
    ensures index == |s| ==> r == s + [shape]
    ensures index < 0 || index > |s| ==> r == s
  {
    if 0 <= index < |s| then s[index := shape]
    else if index == |s| then s + [shape]
    else s
  }

  /** The change a peer applies on receiving a relayed shape event. */
  datatype Op = Created(shape: Shape) | Cleared | Updated(index: int, shape: Shape) | Removed(idx: int)

  /** The remote handlers' effect on the list: push, `length = 0`, index store, splice. */
  function Apply(s: seq<Shape>, op: Op): (r: seq<Shape>)
    ensures op.Created? ==> |r| == |s| + 1 && r[..|s|] == s && r[|s|] == op.shape
    ensures op.Cleared? ==> r == []
  {
    match op
    case Created(shape) => s + [shape]
    case Cleared => []
    case Updated(index, shape) => Store(s, index, shape)
    case Removed(idx) => SpliceOne(s, idx)
  }

  /** What a client emits to the relay server, with the payload fields it sends. */
  datatype Emission =
    | ShapeCreate(roomId: int, typeName: string, data: Shape)
    | ShapeRemove(idx: int, roomId: int)
    | ShapeUpdate(roomId: int, index: int, shape: Shape)
    | ShapeClear(roomId: int)

  /**
   * The change an emission becomes at every other room member: the server
   * relays `shape:create`'s `data` as `shape:created` and the other three
   * payloads unchanged.
   */
  function Delivered(e: Emission): Op {
    match e
    case ShapeCreate(_, _, data) => Created(data)
    case ShapeRemove(idx, _) => Removed(idx)
    case ShapeUpdate(_, index, shape) => Updated(index, shape)
    case ShapeClear(_) => Cleared
  }

  /** A peer whose list equals `before` ends with `after` once it applies `e`. */
  predicate Converges(before: seq<Shape>, e: Emission, after: seq<Shape>) {
    Apply(before, Delivered(e)) == after
  }

  // ---------------------------------------------------------------------
  // Hit testing and the reverse scans
  // ---------------------------------------------------------------------

  /** The hit test of the circle, line, arrow and pencil branches (square roots, distances to segments). */
  type NearStroke = (real, real, Shape) -> bool

  /** `isPointInShape`: the rectangle branch exactly; the other kinds through `near`. */
  predicate IsPointInShape(px: real, py: real, s: Shape, near: NearStroke) {
    if s.RectShape? then
      px >= s.x && px <= s.x + s.width && py >= s.y && py <= s.y + s.height
    else near(px, py, s)
  }

  /** The highest index whose shape contains the point: the first one a scan from the end meets. */
  function TopmostHit(s: seq<Shape>, px: real, py: real, near: NearStroke): (r: Option<nat>)
    ensures r.Some? ==> r.value < |s| && IsPointInShape(px, py, s[r.value], near)
    ensures r.Some? ==> forall j :: r.value < j < |s| ==> !IsPointInShape(px, py, s[j], near)
    ensures r.None? ==> forall j :: 0 <= j < |s| ==> !IsPointInShape(px, py, s[j], near)
    decreases |s|
  {
    if s == [] then None
    else if IsPointInShape(px, py, s[|s| - 1], near) then Some(|s| - 1)
    else TopmostHit(s[..|s| - 1], px, py, near)
  }

  /** The reverse `for` loop of the eraser and select branches. */
  method ScanTopmost(s: seq<Shape>, px: real, py: real, near: NearStroke) returns (found: Option<nat>)
    ensures found == TopmostHit(s, px, py, near)
  {
    var i := |s| - 1;
    while i >= 0
      invariant -1 <= i < |s|
      invariant TopmostHit(s, px, py, near) == TopmostHit(s[..i + 1], px, py, near)
    {
      if IsPointInShape(px, py, s[i], near) {
        assert s[..i + 1][..i] == s[..i];
        return Some(i);
      }
      assert s[..i + 1][..i] == s[..i];
      i := i - 1;
    }
    return None;
  }

  /** What the eraser does to the list at a point: removes the topmost hit shape, if any. */
  function Erase(s: seq<Shape>, px: real, py: real, near: NearStroke): (r: seq<Shape>)
    ensures TopmostHit(s, px, py, near).None? ==> r == s
    ensures TopmostHit(s, px, py, near).Some? ==>
      var i := TopmostHit(s, px, py, near).value;
      r == s[..i] + s[i + 1..]
  {
    match TopmostHit(s, px, py, near)
    case Some(i) => SpliceOne(s, i)
    case None => s
  }

  /** The eraser's emission carries the removed index, so every peer removes the same entry. */
  lemma EraseConverges(s: seq<Shape>, px: real, py: real, near: NearStroke, roomId: int)
    requires TopmostHit(s, px, py, near).Some?
    ensures Converges(s, ShapeRemove(TopmostHit(s, px, py, near).value, roomId), Erase(s, px, py, near))
  {
  }

  /**
   * As written, a rectangle drawn leftwards or upwards keeps its negative
   * width or height, and the rectangle test can then never hold: the
   * rectangle drawn from (10, 10) back to (0, 0) is not hit at its centre,
   * so neither the eraser nor the select tool can reach it.
   */
  lemma RectDrawnBackwardsMissed(near: NearStroke)
    ensures var r := RectShape(10.0, 10.0, -10.0, -10.0);
            InRect(5.0, 5.0, r) && !IsPointInShape(5.0, 5.0, r, near)
  {
  }

  /** A rectangle with a negative side is never hit, wherever the mouse is. */
  lemma NegativeSideNeverHit(px: real, py: real, s: Shape, near: NearStroke)
    requires s.RectShape? && (s.width < 0.0 || s.height < 0.0)
    ensures !IsPointInShape(px, py, s, near)
  {
  }

  function Min(a: real, b: real): real { if a <= b then a else b }
  function Max(a: real, b: real): real { if a <= b then b else a }

  /** The intended rectangle test: the point lies between both pairs of edges, in either orientation. */
  predicate InRect(px: real, py: real, s: Shape)
    requires s.RectShape?
  {
    Min(s.x, s.x + s.width) <= px <= Max(s.x, s.x + s.width)
    && Min(s.y, s.y + s.height) <= py <= Max(s.y, s.y + s.height)
  }

  /** `isPointInShape` with the rectangle test normalised. */
  predicate IntendedIsPointInShape(px: real, py: real, s: Shape, near: NearStroke) {
    if s.RectShape? then InRect(px, py, s) else near(px, py, s)
  }

  /**
   * The intended test agrees with the written one on rectangles drawn
   * rightwards and downwards, does not depend on the corner the drag
   * started from, and contains both corners of the drag.
   */
  lemma IntendedRectHit(px: real, py: real, x: real, y: real, w: real, h: real, near: NearStroke)
    ensures w >= 0.0 && h >= 0.0 ==>
              (IntendedIsPointInShape(px, py, RectShape(x, y, w, h), near)
               <==> IsPointInShape(px, py, RectShape(x, y, w, h), near))
    ensures IntendedIsPointInShape(px, py, RectShape(x, y, w, h), near)
            <==> IntendedIsPointInShape(px, py, RectShape(x + w, y + h, -w, -h), near)
    ensures IntendedIsPointInShape(x, y, RectShape(x, y, w, h), near)
    ensures IntendedIsPointInShape(x + w, y + h, RectShape(x, y, w, h), near)
  {
  }

  // ---------------------------------------------------------------------
  // Dragging
  // ---------------------------------------------------------------------

  /** The point a drag moves: `(x, y)`, or a pencil stroke's first point (absent for an empty stroke). */
  function Origin(s: Shape): Option<Point> {
    match s
    case PencilShape(ps) => if ps == [] then None else Some(ps[0])
    case _ => Some(Point(s.x, s.y))
  }

  /** Moves every point of a shape by `(ox, oy)`; sizes and radii are kept. */
  function Translate(s: Shape, ox: real, oy: real): Shape {
    match s
    case RectShape(x, y, w, h) => RectShape(x + ox, y + oy, w, h)
    case CircleShape(x, y, r) => CircleShape(x + ox, y + oy, r)
    case LineShape(x, y, mx, my) => LineShape(x + ox, y + oy, mx + ox, my + oy)
    case ArrowShape(x, y, mx, my, l1x, l1y, l2x, l2y, h) =>
      ArrowShape(x + ox, y + oy, mx + ox, my + oy, l1x + ox, l1y + oy, l2x + ox, l2y + oy, h)
    case PencilShape(ps) =>
      PencilShape(seq(|ps|, i requires 0 <= i < |ps| => Point(ps[i].x + ox, ps[i].y + oy)))
  }

  /** Translating back by the opposite offset restores the shape. */
  lemma TranslateInverse(s: Shape, ox: real, oy: real)
    ensures Translate(Translate(s, ox, oy), -ox, -oy) == s
  {
    if s.PencilShape? {
      var t := Translate(Translate(s, ox, oy), -ox, -oy);
      assert t.points == s.points;
    }
  }

  /**
   * The two arrowhead points relative to the tip, which the source computes
   * from the arrow's extent `(w, h) = (mx - x, my - y)` as
   * `-15 cos(atan2(h, w) -/+ pi/6)` and `-15 sin(atan2(h, w) -/+ pi/6)`.
   */
  datatype HeadOffsets = HeadOffsets(d1x: real, d1y: real, d2x: real, d2y: real)

  /** The head computation, from the extent of an arrow to its head offsets. */
  type ArrowHead = (real, real) -> HeadOffsets

  /** An arrow's stored head is the one `head` computes from its extent; other kinds always fit. */
  predicate HeadFits(s: Shape, head: ArrowHead) {
    s.ArrowShape? ==>
      var o := head(s.mx - s.x, s.my - s.y);
      s.l1x == s.mx + o.d1x && s.l1y == s.my + o.d1y && s.l2x == s.mx + o.d2x && s.l2y == s.my + o.d2y
  }

  /** A translation keeps the extent, so a fitting head still fits. */
  lemma TranslateKeepsHeadFit(s: Shape, ox: real, oy: real, head: ArrowHead)
    requires HeadFits(s, head)
    ensures HeadFits(Translate(s, ox, oy), head)
  {
    if s.ArrowShape? {
      var t := Translate(s, ox, oy);
      assert t.mx - t.x == s.mx - s.x && t.my - t.y == s.my - s.y;
    }
  }

  /**
   * The mouse-move update of the dragged shape, branch by branch: a
   * rectangle or circle gets `x, y := dx, dy`; a line keeps its width and
   * height `mx - x`, `my - y`; an arrow does the same and its head is
   * recomputed from that extent; a pencil stroke moves every point by the
   * offset that takes its first point to `(dx, dy)`.
   */
  function MoveOrigin(s: Shape, dx: real, dy: real, head: ArrowHead): (r: Shape)
    requires Origin(s).Some?
    ensures Origin(r) == Some(Point(dx, dy))
    ensures Kind(r) == Kind(s)
    ensures s.LineShape? || s.ArrowShape? ==> r.mx - r.x == s.mx - s.x && r.my - r.y == s.my - s.y
    ensures s.ArrowShape? ==> r.header == s.header
    ensures HeadFits(r, head)
    ensures s.RectShape? ==> r.width == s.width && r.height == s.height
    ensures s.CircleShape? ==> r.radius == s.radius
    ensures s.PencilShape? ==> |r.points| == |s.points|
    ensures s.PencilShape? ==> forall i :: 0 <= i < |s.points| ==>
      r.points[i].x - s.points[i].x == dx - s.points[0].x && r.points[i].y - s.points[i].y == dy - s.points[0].y
  {
    match s
    case RectShape(x, y, w, h) => RectShape(dx, dy, w, h)
    case CircleShape(x, y, rad) => CircleShape(dx, dy, rad)
    case LineShape(x, y, mx, my) =>
      var width := mx - x;
      var height := my - y;
      LineShape(dx, dy, dx + width, dy + height)
    case ArrowShape(x, y, mx, my, l1x, l1y, l2x, l2y, h) =>
      var width := mx - x;
      var height := my - y;
      var o := head(width, height);
      var r := ArrowShape(dx, dy, dx + width, dy + height,
                          dx + width + o.d1x, dy + height + o.d1y, dx + width + o.d2x, dy + height + o.d2y, h);
      assert r.mx - r.x == width && r.my - r.y == height;
      r
    case PencilShape(ps) =>
      var offsetX := dx - ps[0].x;
      var offsetY := dy - ps[0].y;
      PencilShape(seq(|ps|, i requires 0 <= i < |ps| => Point(ps[i].x + offsetX, ps[i].y + offsetY)))
  }

  /**
   * For a shape whose head fits its extent (every arrow this client draws),
   * the drag update is the translation that takes its origin to `(dx, dy)`.
   */
  lemma MoveOriginIsTranslation(s: Shape, dx: real, dy: real, head: ArrowHead)
    requires Origin(s).Some? && HeadFits(s, head)
    ensures MoveOrigin(s, dx, dy, head) == Translate(s, dx - Origin(s).value.x, dy - Origin(s).value.y)
  {
    if s.PencilShape? {
      assert MoveOrigin(s, dx, dy, head).points == Translate(s, dx - Origin(s).value.x, dy - Origin(s).value.y).points;
    }
  }

  /**
   * An arrow whose stored head does not fit its extent (one received from a
   * peer, say) gets a new head on the first drag: the arrow from (0, 0) to
   * (10, 0) with both head points at its start is not merely translated.
   */
  lemma DragRefitsHead(head: ArrowHead)
    requires head(10.0, 0.0).d1x != -10.0
    ensures var s := ArrowShape(0.0, 0.0, 10.0, 0.0, 0.0, 0.0, 0.0, 0.0, HeadLength);
      MoveOrigin(s, 5.0, 5.0, head) != Translate(s, 5.0, 5.0)
  {
    var s := ArrowShape(0.0, 0.0, 10.0, 0.0, 0.0, 0.0, 0.0, 0.0, HeadLength);
    assert MoveOrigin(s, 5.0, 5.0, head).l1x == 15.0 + head(10.0, 0.0).d1x;
  }

  /** The list after dragging entry `i` to `(dx, dy)`: only that entry changes. */
  function Drag(s: seq<Shape>, i: nat, dx: real, dy: real, head: ArrowHead): (r: seq<Shape>)
    requires i < |s| && Origin(s[i]).Some?
    ensures |r| == |s| && r[i] == MoveOrigin(s[i], dx, dy, head)
    ensures forall k :: 0 <= k < |s| && k != i ==> r[k] == s[k]
  {
    s[i := MoveOrigin(s[i], dx, dy, head)]
  }

  /** The drag's `shape:update` carries the index and the moved shape, so every peer stores the same entry. */
  lemma DragConverges(s: seq<Shape>, i: nat, dx: real, dy: real, head: ArrowHead, roomId: int)
    requires i < |s| && Origin(s[i]).Some?
    ensures Converges(s, ShapeUpdate(roomId, i, MoveOrigin(s[i], dx, dy, head)), Drag(s, i, dx, dy, head))
  {
  }

  // ---------------------------------------------------------------------
  // Creating shapes on mouse-up
  // ---------------------------------------------------------------------

  /**
   * The values the source computes with `Math.sqrt` (the circle radius from
   * the start and end points) and `Math.atan2`/`cos`/`sin` (the arrow head
   * from the arrow's extent).
   */
  datatype Geometry = Geometry(radius: real, head: ArrowHead)

  /** The arrow-head length the source stores in `header`. */
  const HeadLength: real := 15.0

  /**
   * The shape the mouse-up handler pushes for the current tool, if any:
   * nothing for select and eraser, nothing for an arrow whose end has the
   * start's `x`, and nothing for a pencil with no recorded points.
   */
  function NewShape(tool: T.Tool, start: Point, end: Point, path: seq<Point>, g: Geometry): (r: Option<Shape>)
    ensures tool == T.Select || tool == T.Eraser ==> r.None?
    ensures tool == T.Arrow ==> (r.None? <==> end.x == start.x)
    ensures tool == T.Pencil ==> (r.None? <==> path == [])
    ensures tool == T.Rect || tool == T.Line || tool == T.Circle ==> r.Some?
    ensures r.Some? ==> HeadFits(r.value, g.head)
    ensures r.Some? ==> Kind(r.value) == match tool
      case Rect => "rect" case Line => "line" case Arrow => "arrow"
      case Circle => "circle" case Pencil => "pencil" case _ => ""
  {
    match tool
    case Rect => Some(RectShape(start.x, start.y, end.x - start.x, end.y - start.y))
    case Line => Some(LineShape(start.x, start.y, end.x, end.y))
    case Arrow =>
      if end.x != start.x then
        var o := g.head(end.x - start.x, end.y - start.y);
        Some(ArrowShape(start.x, start.y, end.x, end.y,
                        end.x + o.d1x, end.y + o.d1y, end.x + o.d2x, end.y + o.d2y, HeadLength))
      else None
    case Circle => Some(CircleShape(start.x, start.y, g.radius))
    case Pencil => if path != [] then Some(PencilShape(path)) else None
    case _ => None
  }

  /** `s` with the optional new shape pushed. */
  function PushOpt(s: seq<Shape>, o: Option<Shape>): (r: seq<Shape>)
    ensures o.None? ==> r == s
    ensures o.Some? ==> r == s + [o.value]
  {
    match o
    case Some(shape) => s + [shape]
    case None => s
  }

  /**
   * The `shape:create` emission of the mouse-up handler as written: with a
   * drawing tool and a non-empty list it sends the list's last element,
   * whether or not this mouse-up pushed it.
   */
  function CreateEmission(tool: T.Tool, after: seq<Shape>, roomId: int): (r: Option<Emission>)
    ensures r.Some? <==> tool != T.Select && tool != T.Eraser && after != []
    ensures r.Some? ==> r.value == ShapeCreate(roomId, TypeName(after[|after| - 1]), after[|after| - 1])
  {
    if tool != T.Eraser && tool != T.Select && |after| > 0 then
      var shape := after[|after| - 1];
      Some(ShapeCreate(roomId, TypeName(shape), shape))
    else None
  }

  /** When the mouse-up pushed a shape, its emission makes every peer push the same shape. */
  lemma CreateConvergesWhenPushed(s: seq<Shape>, tool: T.Tool, start: Point, end: Point,
                                  path: seq<Point>, g: Geometry, roomId: int)
    requires NewShape(tool, start, end, path, g).Some?
    ensures CreateEmission(tool, PushOpt(s, NewShape(tool, start, end, path, g)), roomId).Some?
    ensures Converges(s, CreateEmission(tool, PushOpt(s, NewShape(tool, start, end, path, g)), roomId).value,
                      PushOpt(s, NewShape(tool, start, end, path, g)))
  {
    var shape := NewShape(tool, start, end, path, g).value;
    assert tool != T.Select && tool != T.Eraser;
    assert (s + [shape])[|s + [shape]| - 1] == shape;
  }

  /**
   * As written, a mouse-up that pushes nothing still re-sends the last
   * shape: an arrow released straight above or below its start, on a list
   * holding one rectangle, leaves the sender's list as it was while every
   * peer appends a second copy of the rectangle.
   */
  lemma CreateEmissionDuplicates()
    ensures var s := [RectShape(0.0, 0.0, 1.0, 1.0)];
            var start := Point(5.0, 5.0);
            var end := Point(5.0, 9.0);
            var g := Geometry(0.0, (w, h) => HeadOffsets(0.0, 0.0, 0.0, 0.0));
            var after := PushOpt(s, NewShape(T.Arrow, start, end, [], g));
            after == s
            && CreateEmission(T.Arrow, after, 7).Some?
            && !Converges(s, CreateEmission(T.Arrow, after, 7).value, after)
  {
    var s := [RectShape(0.0, 0.0, 1.0, 1.0)];
    var e := CreateEmission(T.Arrow, s, 7).value;
    assert |Apply(s, Delivered(e))| == 2;
  }

  /** The intended emission: `shape:create` only for a shape this mouse-up pushed. */
  function IntendedCreateEmission(created: Option<Shape>, roomId: int): (r: Option<Emission>)
    ensures r.Some? <==> created.Some?
  {
    match created
    case Some(shape) => Some(ShapeCreate(roomId, TypeName(shape), shape))
    case None => None
  }

  /** With the intended emission, every mouse-up leaves peers equal to the sender. */
  lemma IntendedCreateConverges(s: seq<Shape>, tool: T.Tool, start: Point, end: Point,
                                path: seq<Point>, g: Geometry, roomId: int)
    ensures var created := NewShape(tool, start, end, path, g);
            match IntendedCreateEmission(created, roomId)
            case Some(e) => Converges(s, e, PushOpt(s, created))
            case None => PushOpt(s, created) == s
  {
  }

  // ---------------------------------------------------------------------
  // Sequences of operations
  // ---------------------------------------------------------------------

  /** Replays a sequence of relayed changes in order. */
  function ApplyAll(s: seq<Shape>, ops: seq<Op>): seq<Shape>
    decreases |ops|
  {
    if ops == [] then s else ApplyAll(Apply(s, ops[0]), ops[1..])
  }

  /**
   * Replaying, one after another, the changes of a sender whose every step
   * converges leaves a peer that started equal to the sender equal to it.
   */
  lemma {:induction false} ApplyAllConverges(states: seq<seq<Shape>>, ops: seq<Op>)
    requires |states| == |ops| + 1
    requires forall k :: 0 <= k < |ops| ==> Apply(states[k], ops[k]) == states[k + 1]
    ensures ApplyAll(states[0], ops) == states[|ops|]
    decreases |ops|
  {
    if ops != [] {
      ApplyAllConverges(states[1..], ops[1..]);
    }
  }

  /**
   * Index addressing is only correct one change at a time: two clients that
   * both erase the first of two shapes before seeing each other's removal
   * each apply the other's `shape:remove` too, and the second shape, which
   * nobody erased, is lost.
   */
  lemma ConcurrentRemovesLoseShape(a: Shape, b: Shape)
    ensures ApplyAll([a, b], [Removed(0), Removed(0)]) == []
  {
    assert SpliceOne([a, b], 0) == [b];
    assert SpliceOne([b], 0) == [];
  }

  // ---------------------------------------------------------------------
  // The drawing surface: closure state of the canvas handlers
  // ---------------------------------------------------------------------

  /**
   * The state the canvas handlers share: the shape list, the pressed flag,
   * the press position, the current tool, the pencil path being recorded and
   * the drag state. `online` stands for `socket !== null && !isDummyToken`.
   */
  class Whiteboard {
    var shapes: seq<Shape>
    var clicked: bool
    var startX: real
    var startY: real
    var currentTool: T.Tool
    var coordinates: seq<Point>
    var isDragging: bool
    var draggedShapeIndex: Option<nat>
    var dragOffsetX: real
    var dragOffsetY: real
    const roomId: int
    const online: bool

    /** `CanvasDraw`: installs the handlers over the list handed in. */
    constructor (initialTool: T.Tool, roomId: int, online: bool, existing: seq<Shape>)
      ensures shapes == existing && currentTool == initialTool
      ensures this.roomId == roomId && this.online == online
      ensures !clicked && !isDragging && draggedShapeIndex.None? && coordinates == []
      ensures startX == 0.0 && startY == 0.0 && dragOffsetX == 0.0 && dragOffsetY == 0.0
    {
      shapes := existing;
      clicked := false;
      startX, startY := 0.0, 0.0;
      currentTool := initialTool;
      coordinates := [];
      isDragging := false;
      draggedShapeIndex := None;
      dragOffsetX, dragOffsetY := 0.0, 0.0;
      this.roomId := roomId;
      this.online := online;
    }

    /** Remote `shape:created`: push the shape. */
    method OnShapeCreated(shape: Shape)
      modifies this`shapes
      ensures shapes == Apply(old(shapes), Created(shape))
    {
      shapes := shapes + [shape];
    }

    /** Remote `shape:clear`: `existingShapes.length = 0`. */
    method OnShapeClear()
      modifies this`shapes
      ensures shapes == Apply(old(shapes), Cleared)
    {
      shapes := [];
    }

    /** Remote `shape:update`: `existingShapes[index] = shape`. */
    method OnShapeUpdate(index: int, shape: Shape)
      modifies this`shapes
      ensures shapes == Apply(old(shapes), Updated(index, shape))
    {
      if 0 <= index < |shapes| {
        shapes := shapes[index := shape];
      } else if index == |shapes| {
        shapes := shapes + [shape];
      }
    }

    /** Remote `shape:remove`: `existingShapes.splice(idx, 1)`. */
    method OnShapeRemove(idx: int)
      modifies this`shapes
      ensures shapes == Apply(old(shapes), Removed(idx))
    {
      shapes := SpliceOne(shapes, idx);
    }

    /** `setTool`. */
    method SetTool(tool: T.Tool)
      modifies this`currentTool
      ensures currentTool == tool
    {
      currentTool := tool;
    }

    /**
     * `handleMouseDown` at canvas point `p` (`clientY` is the event's raw
     * `clientY`, which the source uses for the vertical drag offset). The
     * eraser removes the topmost shape under the point and emits its index;
     * select starts dragging the topmost shape under the point.
     */
    method MouseDown(p: Point, clientY: real, near: NearStroke) returns (emitted: Option<Emission>)
      modifies this`clicked, this`startX, this`startY, this`shapes,
               this`isDragging, this`draggedShapeIndex, this`dragOffsetX, this`dragOffsetY
      ensures clicked && startX == p.x && startY == p.y
      ensures var hit := TopmostHit(old(shapes), p.x, p.y, near);
        if currentTool == T.Eraser then
          shapes == Erase(old(shapes), p.x, p.y, near)
          && emitted == (if hit.Some? && online then Some(ShapeRemove(hit.value, roomId)) else None)
          && isDragging == old(isDragging) && draggedShapeIndex == old(draggedShapeIndex)
        else if currentTool == T.Select then
          shapes == old(shapes) && emitted.None?
          && (hit.None? ==> isDragging == old(isDragging) && draggedShapeIndex == old(draggedShapeIndex))
          && (hit.Some? ==>
                (isDragging && draggedShapeIndex == hit
                 && (Origin(shapes[hit.value]).Some? ==>
                       (dragOffsetX == p.x - Origin(shapes[hit.value]).value.x
                        && dragOffsetY == clientY - Origin(shapes[hit.value]).value.y))))
        else
          shapes == old(shapes) && emitted.None?
          && isDragging == old(isDragging) && draggedShapeIndex == old(draggedShapeIndex)
      ensures var hit := TopmostHit(old(shapes), p.x, p.y, near);
        !(currentTool == T.Select && hit.Some? && Origin(old(shapes)[hit.value]).Some?) ==>
          dragOffsetX == old(dragOffsetX) && dragOffsetY == old(dragOffsetY)
    {
      clicked := true;
      startX, startY := p.x, p.y;
      emitted := None;
      if currentTool == T.Eraser {
        var hit := ScanTopmost(shapes, p.x, p.y, near);
        if hit.Some? {
          shapes := SpliceOne(shapes, hit.value);
          if online {
            emitted := Some(ShapeRemove(hit.value, roomId));
          }
        }
      } else if currentTool == T.Select {
        var hit := ScanTopmost(shapes, p.x, p.y, near);
        if hit.Some? {
          isDragging := true;
          draggedShapeIndex := hit;
          var o := Origin(shapes[hit.value]);
          if o.Some? {
            dragOffsetX := p.x - o.value.x;
            dragOffsetY := clientY - o.value.y;
          }
        }
      }
    }

    /**
     * `handleMouseMove` at canvas point `p`. While dragging, the dragged
     * entry is moved so that its origin lands on the point minus the drag
     * offset, and `shape:update` is emitted with the index and the moved
     * shape; the handler stops (an exception in the source) when the index
     * no longer names an entry or the entry is an empty pencil stroke.
     * Otherwise, while the mouse is pressed with the pencil tool, the point
     * `(p.x, clientY)` is recorded.
     */
    method MouseMove(p: Point, clientY: real, head: ArrowHead) returns (emitted: Option<Emission>)
      modifies this`shapes, this`coordinates
      ensures if clicked && isDragging && draggedShapeIndex.Some? then
          var i := draggedShapeIndex.value;
          coordinates == old(coordinates)
          && if i < |old(shapes)| && Origin(old(shapes)[i]).Some? then
               shapes == Drag(old(shapes), i, p.x - dragOffsetX, p.y - dragOffsetY, head)
               && emitted == (if online then Some(ShapeUpdate(roomId, i, shapes[i])) else None)
             else shapes == old(shapes) && emitted.None?
        else
          shapes == old(shapes) && emitted.None?
          && coordinates == (if clicked && currentTool == T.Pencil
                             then old(coordinates) + [Point(p.x, clientY)] else old(coordinates))
    {
      emitted := None;
      if !clicked {
        return;
      }
      if isDragging && draggedShapeIndex.Some? {
        var i := draggedShapeIndex.value;
        if i < |shapes| && Origin(shapes[i]).Some? {
          var dx := p.x - dragOffsetX;
          var dy := p.y - dragOffsetY;
          shapes := shapes[i := MoveOrigin(shapes[i], dx, dy, head)];
          if online {
            emitted := Some(ShapeUpdate(roomId, i, shapes[i]));
          }
        }
        return;
      }
      if currentTool == T.Pencil {
        coordinates := coordinates + [Point(p.x, clientY)];
      }
    }

    /**
     * `handleMouseUp` at canvas point `p`. Ending a drag creates nothing and
     * clears the drag state. Otherwise the current tool's shape (if any) is
     * pushed, the pencil path is reset once used, and with a drawing tool and
     * a non-empty list the last entry is emitted with `shape:create`.
     */
    method MouseUp(p: Point, g: Geometry) returns (emitted: Option<Emission>)
      modifies this`clicked, this`shapes, this`coordinates, this`isDragging, this`draggedShapeIndex
      ensures !clicked
      ensures old(isDragging) ==>
        !isDragging && draggedShapeIndex.None? && shapes == old(shapes)
        && coordinates == old(coordinates) && emitted.None?
      ensures !old(isDragging) ==>
        var created := NewShape(currentTool, Point(startX, startY), p, old(coordinates), g);
        isDragging == old(isDragging) && draggedShapeIndex == old(draggedShapeIndex)
        && shapes == PushOpt(old(shapes), created)
        && coordinates == (if currentTool == T.Pencil && created.Some? then [] else old(coordinates))
        && emitted == (if online then CreateEmission(currentTool, shapes, roomId) else None)
    {
      clicked := false;
      emitted := None;
      if isDragging {
        isDragging := false;
        draggedShapeIndex := None;
        return;
      }
      var created := NewShape(currentTool, Point(startX, startY), p, coordinates, g);
      shapes := PushOpt(shapes, created);
      if currentTool == T.Pencil && created.Some? {
        coordinates := [];
      }
      if currentTool != T.Eraser && currentTool != T.Select && |shapes| > 0 {
        var shape := shapes[|shapes| - 1];
        if online {
          emitted := Some(ShapeCreate(roomId, TypeName(shape), shape));
        }
      }
    }

    /** `clearAll`: emit `shape:clear` and empty the list. */
    method ClearAll() returns (emitted: Option<Emission>)
      modifies this`shapes
      ensures shapes == []
      ensures emitted == (if online then Some(ShapeClear(roomId)) else None)
      ensures emitted.Some? ==> Converges(old(shapes), emitted.value, shapes)
    {
      emitted := if online then Some(ShapeClear(roomId)) else None;
      shapes := [];
    }
  }
}
