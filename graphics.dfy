/** The parts of Android's drawing and layout API that the two step widgets use:
    measure-spec modes, a paint whose colour, style and stroke width change as drawing
    proceeds, a path built point by point, and a canvas that records every call made on it. */
module Graphics {

  /** The mode half of a `View.MeasureSpec` (the size half is passed beside it). */
  datatype MeasureMode = Unspecified | Exactly | AtMost

  /** `Paint.Style`: the two values the widgets use. */
  datatype Style = Fill | Stroke

  /** What a drawing call takes from the paint at the moment it is made. */
  datatype PaintState = PaintState(color: int, style: Style, strokeWidth: real)

  datatype Point = Point(x: real, y: real)

  /** One call made on the canvas, with the paint as it stood at that call. */
  datatype DrawCmd =
    | TranslateCmd(dx: real, dy: real)
    | LineCmd(x0: real, y0: real, x1: real, y1: real, paint: PaintState)
    | CircleCmd(cx: real, cy: real, radius: real, paint: PaintState)
    | TextCmd(text: string, x: real, y: real, paint: PaintState)
    | PathCmd(points: seq<Point>, closed: bool, paint: PaintState)

  /** `0xFF000000` (opaque black) read as a Java `int`: a new paint's colour. */
  const OpaqueBlack: int := -16777216

  /** `android.graphics.Paint`, reduced to the state that shows in a drawing call. */
  class Paint {
    var color: int
    var style: Style
    var strokeWidth: real

    /** A new paint: opaque black, fill style, hairline (width 0) strokes. */
    constructor ()
      ensures State() == PaintState(OpaqueBlack, Fill, 0.0)
    {
      color, style, strokeWidth := OpaqueBlack, Fill, 0.0;
    }

    function State(): PaintState
      reads this
    {
      PaintState(color, style, strokeWidth)
    }

    method SetColor(c: int)
      modifies this
      ensures State() == old(State()).(color := c)
    {
      color := c;
    }

    method SetStyle(s: Style)
      modifies this
      ensures State() == old(State()).(style := s)
    {
      style := s;
    }

    method SetStrokeWidth(w: real)
      modifies this
      ensures State() == old(State()).(strokeWidth := w)
    {
      strokeWidth := w;
    }
  }

  /** `android.graphics.Path` holding a single contour. */
  class Path {
    var points: seq<Point>
    var closed: bool

    constructor ()
      ensures points == [] && !closed
    {
      points, closed := [], false;
    }

    method Reset()
      modifies this
      ensures points == [] && !closed
    {
      points, closed := [], false;
    }

    /** Starts the contour; only a path just reset is moved to. */
    method MoveTo(x: real, y: real)
      requires points == []
      modifies this
      ensures points == [Point(x, y)] && closed == old(closed)
    {
      points := [Point(x, y)];
    }

    method LineTo(x: real, y: real)
      modifies this
      ensures points == old(points) + [Point(x, y)] && closed == old(closed)
    {
      points := points + [Point(x, y)];
    }

    method Close()
      modifies this
      ensures points == old(points) && closed
    {
      closed := true;
    }
  }

  /** `android.graphics.Canvas` as the record of the calls made on it. */
  class Canvas {
    var cmds: seq<DrawCmd>

    constructor ()
      ensures cmds == []
    {
      cmds := [];
    }

    method Translate(dx: real, dy: real)
      modifies this
      ensures cmds == old(cmds) + [TranslateCmd(dx, dy)]
    {
      cmds := cmds + [TranslateCmd(dx, dy)];
    }

    method DrawLine(x0: real, y0: real, x1: real, y1: real, paint: Paint)
      modifies this
      ensures cmds == old(cmds) + [LineCmd(x0, y0, x1, y1, paint.State())]
    {
      cmds := cmds + [LineCmd(x0, y0, x1, y1, paint.State())];
    }

    method DrawCircle(cx: real, cy: real, radius: real, paint: Paint)
      modifies this
      ensures cmds == old(cmds) + [CircleCmd(cx, cy, radius, paint.State())]
    {
      cmds := cmds + [CircleCmd(cx, cy, radius, paint.State())];
    }

    method DrawText(text: string, x: real, y: real, paint: Paint)
      modifies this
      ensures cmds == old(cmds) + [TextCmd(text, x, y, paint.State())]
    {
      cmds := cmds + [TextCmd(text, x, y, paint.State())];
    }

    method DrawPath(path: Path, paint: Paint)
      modifies this
      ensures cmds == old(cmds) + [PathCmd(path.points, path.closed, paint.State())]
    {
      cmds := cmds + [PathCmd(path.points, path.closed, paint.State())];
    }
  }
}
