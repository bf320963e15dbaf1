/** Stroke capture and replay (`frontend/src/components/DrawingCanvas.tsx`):
    pointer events become `draw` segments sent on the socket, and inbound
    `draw`, `drawing_data` and `clear` messages are painted. The surface is
    the sequence of segments painted on it, in paint order. */
module ClientCanvas {
  import opened Common
  import opened Wire
  import opened ClientSocket

  datatype Point = Point(x: int, y: int)

  datatype Line = Line(from: Point, to: Point)

  /** The fields of a mouse event that the handlers read. */
  datatype MouseEvent = MouseEvent(offsetX: int, offsetY: int, movementX: int, movementY: int)

  /** The part of the 2D context the handlers use: the stroke style, the
      current path (its lines so far), the current point, the first point of
      the current subpath and whether that subpath has a line yet. */
  datatype Context = Context(
    strokeStyle: string,
    lineWidth: int,
    path: seq<Line>,
    cursor: Option<Point>,
    subpathStart: Point,
    subpathHasLine: bool)

  const InitialColor: string := "#000000"
  const InitialThickness: int := 5

  /** A fresh context: black, one pixel wide, an empty path. */
  const FreshContext: Context := Context("#000000", 1, [], None, Point(0, 0), false)

  function BeginPath(c: Context): Context {
    c.(path := [], cursor := None, subpathHasLine := false)
  }

  function MoveTo(c: Context, p: Point): Context {
    c.(cursor := Some(p), subpathStart := p, subpathHasLine := false)
  }

  /** With no current point, `lineTo` only starts a subpath at `p`. */
  function LineTo(c: Context, p: Point): Context {
    if c.cursor.None? then MoveTo(c, p)
    else c.(path := c.path + [Line(c.cursor.value, p)], cursor := Some(p), subpathHasLine := true)
  }

  /** `closePath` adds the closing line of a subpath that has lines and moves
      the current point back to the subpath's start. */
  function ClosePath(c: Context): Context {
    if c.cursor.None? then c
    else c.(path := c.path + (if c.subpathHasLine then [Line(c.cursor.value, c.subpathStart)] else []),
            cursor := Some(c.subpathStart),
            subpathHasLine := false)
  }

  /** What `stroke` paints: every line of the path in the current style. */
  function Stroke(c: Context): (r: seq<Segment>)
    ensures |r| == |c.path|
  {
    seq(|c.path|, i requires 0 <= i < |c.path| =>
      Segment(c.path[i].from.x, c.path[i].from.y, c.path[i].to.x, c.path[i].to.y, c.strokeStyle, c.lineWidth))
  }

  function Offset(e: MouseEvent): Point {
    Point(e.offsetX, e.offsetY)
  }

  /** The segment sent on pointer down. */
  function DotSegment(e: MouseEvent, color: string, thickness: int): Segment {
    Segment(e.offsetX, e.offsetY, e.offsetX, e.offsetY, color, thickness)
  }

  /** The segment sent on a move while drawing. */
  function MoveSegment(e: MouseEvent, color: string, thickness: int): Segment {
    Segment(e.offsetX - e.movementX, e.offsetY - e.movementY, e.offsetX, e.offsetY, color, thickness)
  }

  /** The pointer-down segment has length zero at the pointer; a move segment
      ends at the pointer and starts one movement back. */
  lemma SegmentGeometry(e: MouseEvent, color: string, thickness: int)
    ensures var d := DotSegment(e, color, thickness);
      d.x0 == d.x1 == e.offsetX && d.y0 == d.y1 == e.offsetY
    ensures var s := MoveSegment(e, color, thickness);
      && s.x1 == e.offsetX && s.y1 == e.offsetY
      && s.x1 - s.x0 == e.movementX && s.y1 - s.y0 == e.movementY
    ensures DotSegment(e, color, thickness).color == MoveSegment(e, color, thickness).color == color
    ensures DotSegment(e, color, thickness).thickness == MoveSegment(e, color, thickness).thickness == thickness
  {
  }

  /** The segments one press and `moves` send, in order, when the socket
      stays open and the style is not changed. */
  function CaptureSegments(down: MouseEvent, moves: seq<MouseEvent>, color: string, thickness: int): seq<Segment> {
    [DotSegment(down, color, thickness)] + seq(|moves|, i requires 0 <= i < |moves| => MoveSegment(moves[i], color, thickness))
  }

  /** The `draw` commands carrying `segs`, in order. */
  function AsDraws(segs: seq<Segment>): seq<ClientMsg> {
    seq(|segs|, i requires 0 <= i < |segs| => ClientMsg.Draw(segs[i]))
  }

  /** The movement of every event is its offset's step from the previous
      event. */
  predicate Contiguous(down: MouseEvent, moves: seq<MouseEvent>) {
    && (|moves| > 0 ==> StepsFrom(down, moves[0]))
    && forall i :: 0 < i < |moves| ==> StepsFrom(moves[i - 1], moves[i])
  }

  /** `e`'s movement is its offset's step from `prev`'s. */
  predicate StepsFrom(prev: MouseEvent, e: MouseEvent) {
    e.offsetX - e.movementX == prev.offsetX && e.offsetY - e.movementY == prev.offsetY
  }

  /** One segment per move plus the dot, and when the movements match the
      offsets the segments form a chain with no gaps from the press on. */
  lemma CaptureChain(down: MouseEvent, moves: seq<MouseEvent>, color: string, thickness: int)
    ensures |CaptureSegments(down, moves, color, thickness)| == |moves| + 1
    ensures Contiguous(down, moves) ==>
      var s := CaptureSegments(down, moves, color, thickness);
      forall i :: 0 <= i < |moves| ==> s[i].x1 == s[i + 1].x0 && s[i].y1 == s[i + 1].y0
  {
    var s := CaptureSegments(down, moves, color, thickness);
    if Contiguous(down, moves) {
      forall i | 0 <= i < |moves| ensures s[i].x1 == s[i + 1].x0 && s[i].y1 == s[i + 1].y0 {
        var prev := if i == 0 then down else moves[i - 1];
        assert StepsFrom(prev, moves[i]);
        assert s[i + 1] == MoveSegment(moves[i], color, thickness);
        assert s[i].x1 == prev.offsetX && s[i].y1 == prev.offsetY;
      }
    }
  }

  class DrawingCanvas {
    /** The `websocket` prop. */
    const websocket: Socket?
    /** Whether the canvas element is mounted with a 2D context. */
    const hasContext: bool
    var isDrawing: bool
    var color: string
    var thickness: int
    var ctx: Context
    var surface: seq<Segment>

    /** While a stroke is in progress the path has a current point. */
    ghost predicate Valid()
      reads this
    {
      isDrawing ==> ctx.cursor.Some?
    }

    constructor (websocket: Socket?, hasContext: bool)
      ensures Valid()
      ensures this.websocket == websocket && this.hasContext == hasContext
      ensures !isDrawing && color == InitialColor && thickness == InitialThickness
      ensures ctx == FreshContext && surface == []
    {
      this.websocket := websocket;
      this.hasContext := hasContext;
      isDrawing := false;
      color := InitialColor;
      thickness := InitialThickness;
      ctx := FreshContext;
      surface := [];
    }

    method SetColor(c: string)
      modifies this`color
      ensures color == c
    {
      color := c;
    }

    method SetThickness(t: int)
      modifies this`thickness
      ensures thickness == t
    {
      thickness := t;
    }

    /** `startDrawing`: only when drawing is allowed and the context exists,
        starts a path at the pointer in the current style and sends the dot
        segment. */
    method StartDrawing(e: MouseEvent, canDraw: bool)
      requires Valid()
      modifies this`isDrawing, this`ctx, websocket
      ensures Valid()
      ensures websocket != null ==> websocket.open == old(websocket.open)
      ensures !(canDraw && hasContext) ==>
        && isDrawing == old(isDrawing) && ctx == old(ctx)
        && (websocket != null ==> websocket.outbox == old(websocket.outbox))
      ensures canDraw && hasContext ==>
        && isDrawing
        && ctx == Context(color, thickness, [], Some(Offset(e)), Offset(e), false)
        && (websocket != null ==> websocket.outbox == Offered(old(websocket.open), old(websocket.outbox), ClientMsg.Draw(DotSegment(e, color, thickness))))
    {
      if !canDraw {
        return;
      }
      if !hasContext {
        return;
      }
      isDrawing := true;
      ctx := ctx.(strokeStyle := color, lineWidth := thickness);
      ctx := BeginPath(ctx);
      ctx := MoveTo(ctx, Offset(e));
      SendIfOpen(websocket, ClientMsg.Draw(DotSegment(e, color, thickness)));
    }

    /** `draw`: while a stroke is in progress and drawing is allowed, extends
        the path to the pointer, strokes it and sends the move segment. */
    method Draw(e: MouseEvent, canDraw: bool)
      requires Valid()
      modifies this`ctx, this`surface, websocket
      ensures Valid()
      ensures websocket != null ==> websocket.open == old(websocket.open)
      ensures !(isDrawing && canDraw && hasContext) ==>
        && ctx == old(ctx) && surface == old(surface)
        && (websocket != null ==> websocket.outbox == old(websocket.outbox))
      ensures isDrawing && canDraw && hasContext ==>
        && ctx.path == old(ctx.path) + [Line(old(ctx.cursor.value), Offset(e))]
        && ctx.cursor == Some(Offset(e))
        && ctx.strokeStyle == old(ctx.strokeStyle) && ctx.lineWidth == old(ctx.lineWidth)
        && surface == old(surface) + Stroke(ctx)
        && (websocket != null ==> websocket.outbox == Offered(old(websocket.open), old(websocket.outbox), ClientMsg.Draw(MoveSegment(e, color, thickness))))
    {
      if !isDrawing || !canDraw {
        return;
      }
      if !hasContext {
        return;
      }
      var seg := MoveSegment(e, color, thickness);
      ctx := LineTo(ctx, Point(seg.x1, seg.y1));
      surface := surface + Stroke(ctx);
      SendIfOpen(websocket, ClientMsg.Draw(seg));
    }

    /** A press followed by `moves` while drawing is allowed, on an open
        socket and a canvas with a context: the handlers send exactly the
        captured segments, in order, and the stroke is still in progress. */
    method PressAndDrag(down: MouseEvent, moves: seq<MouseEvent>)
      requires Valid() && hasContext && websocket != null && websocket.open
      modifies this`isDrawing, this`ctx, this`surface, websocket
      ensures Valid() && isDrawing && websocket.open
      ensures websocket.outbox == old(websocket.outbox) + AsDraws(CaptureSegments(down, moves, color, thickness))
    {
      StartDrawing(down, true);
      var i := 0;
      while i < |moves|
        invariant 0 <= i <= |moves|
        invariant Valid() && isDrawing && websocket.open
        invariant websocket.outbox == old(websocket.outbox) + AsDraws(CaptureSegments(down, moves[..i], color, thickness))
      {
        assert CaptureSegments(down, moves[..i + 1], color, thickness)
            == CaptureSegments(down, moves[..i], color, thickness) + [MoveSegment(moves[i], color, thickness)];
        Draw(moves[i], true);
        i := i + 1;
      }
      assert moves[..i] == moves;
    }

    /** `stopDrawing`: closes the path and ends the stroke; nothing is sent. */
    method StopDrawing()
      requires Valid()
      modifies this`isDrawing, this`ctx
      ensures Valid()
      ensures hasContext ==> !isDrawing && ctx == ClosePath(old(ctx))
      ensures !hasContext ==> isDrawing == old(isDrawing) && ctx == old(ctx)
    {
      if !hasContext {
        return;
      }
      ctx := ClosePath(ctx);
      isDrawing := false;
    }

    /** `clearCanvasLocal`: wipes the surface. */
    method ClearCanvasLocal()
      modifies this`surface
      ensures surface == if hasContext then [] else old(surface)
    {
      if hasContext {
        surface := [];
      }
    }

    /** `clearCanvas`: only when drawing is allowed, wipes the surface and
        sends `clear`. */
    method ClearCanvas(canDraw: bool)
      modifies this`surface, websocket
      ensures websocket != null ==> websocket.open == old(websocket.open)
      ensures !canDraw ==> surface == old(surface) && (websocket != null ==> websocket.outbox == old(websocket.outbox))
      ensures canDraw ==>
        && surface == (if hasContext then [] else old(surface))
        && (websocket != null ==> websocket.outbox == Offered(old(websocket.open), old(websocket.outbox), Clear))
    {
      if !canDraw {
        return;
      }
      ClearCanvasLocal();
      SendIfOpen(websocket, Clear);
    }

    /** The canvas's `onmessage` handler: a `draw` or `drawing_data` segment
        is painted on its own path in its own style, `clear` wipes the
        surface, and any other message is ignored. */
    method OnMessage(m: ClientInbound)
      requires Valid()
      modifies this`ctx, this`surface
      ensures Valid()
      ensures (m.InDraw? || m.InDrawingData?) && hasContext ==>
        && surface == old(surface) + [m.segment]
        && ctx == ClosePath(Context(m.segment.color, m.segment.thickness,
                                    [Line(Point(m.segment.x0, m.segment.y0), Point(m.segment.x1, m.segment.y1))],
                                    Some(Point(m.segment.x1, m.segment.y1)), Point(m.segment.x0, m.segment.y0), true))
      ensures m.InClear? ==> surface == (if hasContext then [] else old(surface)) && ctx == old(ctx)
      ensures (m.InDraw? || m.InDrawingData?) && !hasContext ==> surface == old(surface) && ctx == old(ctx)
      ensures !(m.InDraw? || m.InDrawingData? || m.InClear?) ==> surface == old(surface) && ctx == old(ctx)
    {
      if m.InDraw? || m.InDrawingData? {
        var seg := m.segment;
        if hasContext {
          var from, to := Point(seg.x0, seg.y0), Point(seg.x1, seg.y1);
          ctx := BeginPath(ctx);
          ctx := MoveTo(ctx, from);
          ctx := LineTo(ctx, to);
          ctx := ctx.(strokeStyle := seg.color, lineWidth := seg.thickness);
          assert ctx.path == [Line(from, to)];
          surface := surface + Stroke(ctx);
          ctx := ClosePath(ctx);
        }
      } else if m.InClear? {
        ClearCanvasLocal();
      }
    }
  }
}
