/** StepView: a bar of arrow-shaped segments laid edge to edge, each with its label
    inside; every step up to and including the current one is drawn "checked".

    The class `StepView` keeps the widget's fields and updates them as the Java does
    (measuring sets the step and tip widths; drawing rebuilds one path per step and
    recolours the paint). The functions before it are the specification its methods are
    proved against, taken over `Chevrons`, the value of those fields at one moment. */
module StepChevrons {
  import opened JavaLang
  import opened Graphics

  /** What the view's paint reports about text at its configured size:
      `measureText` per string and the font metrics' top and bottom. */
  datatype ChevronFont = ChevronFont(advance: string -> real, top: real, bottom: real)

  /** The fields of a StepView that measuring and drawing read. */
  datatype Chevrons = Chevrons(
    paddingLeft: int, paddingTop: int, paddingRight: int, paddingBottom: int,
    colorBgChecked: int, colorBgUnchecked: int, colorTvChecked: int, colorTvUnchecked: int,
    padding: int, stepHeight: real, checkedNum: int, stepNames: seq<string>,
    stepWidth: real, tipWidth: real)

  // ---------------------------------------------------------------------------
  // Measuring

  /** The step width `getWidth` computes, in `int` arithmetic: what is left of the offered
      width after the insets and the gaps between steps, divided among the steps. */
  function StepWidthFor(c: Chevrons, size: nat): int
    requires |c.stepNames| != 0
  {
    IntDiv(size - c.paddingLeft - c.paddingRight - c.padding * (|c.stepNames| - 1), |c.stepNames|)
  }

  /** The fields as `getWidth` leaves them: the step width, and a tip one sixth of it. */
  function AfterWidthPass(c: Chevrons, size: nat): Chevrons
    requires |c.stepNames| != 0
  {
    var w := StepWidthFor(c, size) as real;
    c.(stepWidth := w, tipWidth := w / 6.0)
  }

  /** The steps and gaps use up the offered width but for less than one unit per step:
      short of it when there is room, over it (by less than one per step) when the insets
      and gaps alone exceed it. */
  lemma StepWidthFits(c: Chevrons, size: nat)
    requires |c.stepNames| != 0
    ensures var n := |c.stepNames|;
      var used := n * StepWidthFor(c, size) + c.padding * (n - 1) + c.paddingLeft + c.paddingRight;
      var room := size - c.paddingLeft - c.paddingRight - c.padding * (n - 1);
      && (0 <= room ==> used <= size < used + n)
      && (room < 0 ==> used - n < size <= used)
  {
    var n := |c.stepNames|;
    var room := size - c.paddingLeft - c.paddingRight - c.padding * (n - 1);
    assert room - n * StepWidthFor(c, size) == size - (n * StepWidthFor(c, size) + c.padding * (n - 1) + c.paddingLeft + c.paddingRight);
  }

  /** Four steps in a 400-unit width with no insets or gaps are 100 wide, tips 100/6. */
  lemma StepWidthScenario(c: Chevrons)
    requires |c.stepNames| == 4 && c.paddingLeft == 0 && c.paddingRight == 0 && c.padding == 0
    ensures AfterWidthPass(c, 400).stepWidth == 100.0
    ensures AfterWidthPass(c, 400).tipWidth == 100.0 / 6.0
  {
  }

  /** The step width is not kept non-negative: two steps with insets of 10 each and no
      gap, offered a width of 0, are -10 wide with tips of -10/6. */
  lemma NegativeStepWidth(c: Chevrons)
    requires |c.stepNames| == 2 && c.paddingLeft == 10 && c.paddingRight == 10 && c.padding == 0
    ensures AfterWidthPass(c, 0).stepWidth == -10.0
    ensures AfterWidthPass(c, 0).tipWidth == -10.0 / 6.0
  {
  }

  /** The height `getHeight` returns: the step height cut to an integer plus the insets
      when the mode is at-most (whatever the offered size), the offered size otherwise. */
  function MeasuredHeight(c: Chevrons, mode: MeasureMode, size: nat): (h: int)
    ensures mode != AtMost ==> h == size
    ensures mode == AtMost && 0.0 <= c.stepHeight ==>
              (h - c.paddingTop - c.paddingBottom) as real <= c.stepHeight
              < (h - c.paddingTop - c.paddingBottom) as real + 1.0
    ensures mode == AtMost && c.stepHeight < 0.0 ==>
              (h - c.paddingTop - c.paddingBottom) as real - 1.0 < c.stepHeight
              <= (h - c.paddingTop - c.paddingBottom) as real
  {
    if mode == AtMost then Trunc(c.stepHeight) + c.paddingTop + c.paddingBottom else size
  }

  /** In at-most mode the offered size is not a cap: a 40-unit step with no insets
      measures 40 even when only 10 is offered. */
  lemma HeightNotClamped(c: Chevrons)
    requires c.stepHeight == 40.0 && c.paddingTop == 0 && c.paddingBottom == 0
    ensures MeasuredHeight(c, AtMost, 10) == 40
  {
  }

  // ---------------------------------------------------------------------------
  // Drawing

  /** The outline of step `i` in the order the path visits it: top left, top right, the
      head (all but the last step), bottom right, bottom left, the tail notch (all but
      the first step). */
  function Vertices(c: Chevrons, i: nat): seq<Point>
    requires i < |c.stepNames|
  {
    var w := c.stepWidth;
    var pad := c.padding as real;
    var h := c.stepHeight;
    var k := i as real;
    [Point(w * k + pad * k, 0.0), Point(w * (k + 1.0) + pad * k, 0.0)]
      + (if i != |c.stepNames| - 1 then [Point(w * (k + 1.0) + c.tipWidth + pad * k, h / 2.0)] else [])
      + [Point(w * (k + 1.0) + pad * k, h), Point(w * k + pad * k, h)]
      + (if i != 0 then [Point(c.tipWidth + (w + pad) * k, h / 2.0)] else [])
  }

  /** Step `i` is drawn checked when it comes no later than the current step. */
  predicate Checked(c: Chevrons, i: int)
  {
    c.checkedNum >= i
  }

  function BgColor(c: Chevrons, i: nat): int
  {
    if Checked(c, i) then c.colorBgChecked else c.colorBgUnchecked
  }

  function TvColor(c: Chevrons, i: nat): int
  {
    if Checked(c, i) then c.colorTvChecked else c.colorTvUnchecked
  }

  /** Half the label's measured width, cut to an integer and halved in `int` arithmetic. */
  function HalfLabelWidth(font: ChevronFont, text: string): real
  {
    IntDiv(Trunc(font.advance(text)), 2) as real
  }

  /** Where the label of step `i` starts: centred in the first step's body, between the
      tail notch and the right edge of the last step, and between notch and head of a
      middle step. */
  function LabelX(c: Chevrons, font: ChevronFont, i: nat): real
    requires i < |c.stepNames|
  {
    var half := HalfLabelWidth(font, c.stepNames[i]);
    var k := i as real;
    if i == 0 then c.stepWidth / 2.0 - half
    else if i == |c.stepNames| - 1 then
      (c.stepWidth + c.padding as real) * k + (c.stepWidth + c.tipWidth) / 2.0 - half
    else
      (c.stepWidth + c.padding as real) * k + c.tipWidth + c.stepWidth / 2.0 - half
  }

  /** The label baseline, the same for every step: text of the font's full height centred
      on the middle of the bar. */
  function LabelY(c: Chevrons, font: ChevronFont): real
  {
    c.stepHeight / 2.0 + IntDiv(Trunc(font.bottom - font.top), 2) as real - font.bottom
  }

  /** The two calls of step `i` with the paint's stroke width at `strokeWidth`: the filled
      outline, then the label. */
  function StepCmds(c: Chevrons, font: ChevronFont, i: nat, strokeWidth: real): (r: seq<DrawCmd>)
    requires i < |c.stepNames|
    ensures |r| == 2
  {
    [PathCmd(Vertices(c, i), true, PaintState(BgColor(c, i), Fill, strokeWidth)),
     TextCmd(c.stepNames[i], LabelX(c, font, i), LabelY(c, font), PaintState(TvColor(c, i), Fill, strokeWidth))]
  }

  /** The calls of one draw up to and including step `k - 1`: the move of the origin to
      the top-left inset, then two calls per step. */
  function ChevronCmds(c: Chevrons, font: ChevronFont, strokeWidth: real, k: nat): (r: seq<DrawCmd>)
    requires k <= |c.stepNames|
    ensures |r| == 1 + 2 * k && r[0] == TranslateCmd(c.paddingLeft as real, c.paddingTop as real)
  {
    if k == 0 then [TranslateCmd(c.paddingLeft as real, c.paddingTop as real)]
    else ChevronCmds(c, font, strokeWidth, k - 1) + StepCmds(c, font, k - 1, strokeWidth)
  }

  /** The paint after `k` steps, starting from `entry`. */
  function PaintAfter(c: Chevrons, entry: PaintState, k: nat): PaintState
  {
    if k == 0 then entry else entry.(color := TvColor(c, k - 1), style := Fill)
  }

  /** The filled outline of step `i` within a draw's calls. */
  function StepFill(cmds: seq<DrawCmd>, i: nat): DrawCmd
    requires 1 + 2 * i < |cmds|
  {
    cmds[1 + 2 * i]
  }

  /** A step outline filled in the checked background colour. */
  predicate IsCheckedFill(c: Chevrons, d: DrawCmd)
  {
    d.PathCmd? && d.paint.color == c.colorBgChecked
  }

  /** With `x` the left edge of step `i`, its outline is (x, 0), (x + w, 0), the head
      (x + w + tip, h/2) unless it is the last step, (x + w, h), (x, h), and the tail
      (x + tip, h/2) unless it is the first step: 4, 5 or 6 vertices. */
  lemma {:induction false} PolygonShape(c: Chevrons, i: nat)
    requires i < |c.stepNames|
    ensures var v := Vertices(c, i);
      var x := i as real * (c.stepWidth + c.padding as real);
      var w := c.stepWidth;
      var h := c.stepHeight;
      var last := i == |c.stepNames| - 1;
      var o := if last then 2 else 3;
      && |v| == 4 + (if last then 0 else 1) + (if i == 0 then 0 else 1)
      && v[0] == Point(x, 0.0) && v[1] == Point(x + w, 0.0)
      && (!last ==> v[2] == Point(x + w + c.tipWidth, h / 2.0))
      && v[o] == Point(x + w, h) && v[o + 1] == Point(x, h)
      && (i != 0 ==> v[|v| - 1] == Point(x + c.tipWidth, h / 2.0))
  {
    var k := i as real;
    var w := c.stepWidth;
    var pad := c.padding as real;
    assert w * k + pad * k == k * (w + pad);
    assert w * (k + 1.0) + pad * k == k * (w + pad) + w;
    assert (w + pad) * k == k * (w + pad);
  }

  /** Neighbouring steps leave a gap of exactly `padding`: along the top edge, and
      between one step's head and the next step's tail notch, which sit at the same
      height. */
  lemma ChevronsInterlock(c: Chevrons, i: nat)
    requires i + 1 < |c.stepNames|
    ensures var v := Vertices(c, i);
      var u := Vertices(c, i + 1);
      && |v| >= 5 && |u| >= 5
      && u[0].x - v[1].x == c.padding as real
      && u[|u| - 1].x - v[2].x == c.padding as real
      && u[|u| - 1].y == v[2].y == c.stepHeight / 2.0
  {
    PolygonShape(c, i);
    PolygonShape(c, i + 1);
    var p := c.stepWidth + c.padding as real;
    assert (i + 1) as real * p == i as real * p + p;
  }

  /** Each label's centre is the midpoint of two vertices of its own outline: top left
      and top right for the first step, tail notch and top right for the last, tail notch
      and head for the steps between. */
  lemma LabelCentred(c: Chevrons, font: ChevronFont, i: nat)
    requires i < |c.stepNames|
    ensures var v := Vertices(c, i);
      var centre := LabelX(c, font, i) + HalfLabelWidth(font, c.stepNames[i]);
      && |v| >= 4
      && (i == 0 ==> centre == (v[0].x + v[1].x) / 2.0)
      && (0 < i == |c.stepNames| - 1 ==> centre == (v[|v| - 1].x + v[1].x) / 2.0)
      && (0 < i < |c.stepNames| - 1 ==> centre == (v[|v| - 1].x + v[2].x) / 2.0)
  {
    PolygonShape(c, i);
    var p := c.stepWidth + c.padding as real;
    assert (c.stepWidth + c.padding as real) * i as real == i as real * p;
  }

  /** Step `i`'s two calls sit at positions 1 + 2i and 2 + 2i of every longer draw. */
  lemma {:induction false} ChevronCmdsAt(c: Chevrons, font: ChevronFont, strokeWidth: real, k: nat, i: nat)
    requires i < k <= |c.stepNames|
    ensures var cmds := ChevronCmds(c, font, strokeWidth, k);
      cmds[1 + 2 * i] == StepCmds(c, font, i, strokeWidth)[0]
      && cmds[2 + 2 * i] == StepCmds(c, font, i, strokeWidth)[1]
    decreases k
  {
    var prev := ChevronCmds(c, font, strokeWidth, k - 1);
    var step := StepCmds(c, font, k - 1, strokeWidth);
    assert ChevronCmds(c, font, strokeWidth, k) == prev + step;
    if i < k - 1 {
      ChevronCmdsAt(c, font, strokeWidth, k - 1, i);
    }
  }

  /** Each step draws its closed outline filled in the background colour, then its label
      in the text colour at that step's label position on the shared baseline; both
      colours are the checked ones exactly when the step is at or before the current one. */
  lemma StepAt(c: Chevrons, font: ChevronFont, strokeWidth: real, k: nat, i: nat)
    requires i < k <= |c.stepNames|
    ensures var cmds := ChevronCmds(c, font, strokeWidth, k);
      && cmds[1 + 2 * i] == PathCmd(Vertices(c, i), true,
           PaintState(if i <= c.checkedNum then c.colorBgChecked else c.colorBgUnchecked, Fill, strokeWidth))
      && cmds[2 + 2 * i] == TextCmd(c.stepNames[i], LabelX(c, font, i),
           c.stepHeight / 2.0 + IntDiv(Trunc(font.bottom - font.top), 2) as real - font.bottom,
           PaintState(if i <= c.checkedNum then c.colorTvChecked else c.colorTvUnchecked, Fill, strokeWidth))
  {
    ChevronCmdsAt(c, font, strokeWidth, k, i);
  }

  /** Of the first `k` steps, as many are checked as the current step plus one, clamped
      to between 0 and `k`. */
  lemma {:induction false} CheckedCount(c: Chevrons, k: nat)
    ensures |set i | 0 <= i < k && Checked(c, i)|
            == (if c.checkedNum < 0 then 0 else if c.checkedNum >= k then k else c.checkedNum + 1)
    decreases k
  {
    if k > 0 {
      CheckedCount(c, k - 1);
      var prev := set i | 0 <= i < k - 1 && Checked(c, i);
      if Checked(c, k - 1) {
        assert (set i | 0 <= i < k && Checked(c, i)) == prev + {k - 1};
      } else {
        assert (set i | 0 <= i < k && Checked(c, i)) == prev;
      }
    }
  }

  /** When the two background colours differ, the steps filled checked are exactly
      those up to the current step: a prefix of the steps, of length the current step
      plus one clamped to the number of steps drawn. */
  lemma CheckedPrefix(c: Chevrons, font: ChevronFont, strokeWidth: real, k: nat)
    requires k <= |c.stepNames|
    requires c.colorBgChecked != c.colorBgUnchecked
    ensures var cmds := ChevronCmds(c, font, strokeWidth, k);
      var checked := set i | 0 <= i < k && IsCheckedFill(c, StepFill(cmds, i));
      && (forall i, j :: 0 <= i <= j < k && IsCheckedFill(c, StepFill(cmds, j)) ==> IsCheckedFill(c, StepFill(cmds, i)))
      && |checked| == (if c.checkedNum < 0 then 0 else if c.checkedNum >= k then k else c.checkedNum + 1)
  {
    var cmds := ChevronCmds(c, font, strokeWidth, k);
    forall i | 0 <= i < k
      ensures IsCheckedFill(c, StepFill(cmds, i)) <==> Checked(c, i)
    {
      StepAt(c, font, strokeWidth, k, i);
    }
    assert (set i | 0 <= i < k && IsCheckedFill(c, StepFill(cmds, i))) == (set i | 0 <= i < k && Checked(c, i));
    CheckedCount(c, k);
  }

  /** Every label is drawn on the same baseline. */
  lemma LabelsShareBaseline(c: Chevrons, font: ChevronFont, strokeWidth: real, k: nat, i: nat, j: nat)
    requires i < k && j < k && k <= |c.stepNames|
    ensures var cmds := ChevronCmds(c, font, strokeWidth, k);
      cmds[2 + 2 * i].TextCmd? && cmds[2 + 2 * j].TextCmd? && cmds[2 + 2 * i].y == cmds[2 + 2 * j].y
  {
    StepAt(c, font, strokeWidth, k, i);
    StepAt(c, font, strokeWidth, k, j);
  }

  // ---------------------------------------------------------------------------
  // The widget

  class StepView {
    const paddingLeft: int
    const paddingTop: int
    const paddingRight: int
    const paddingBottom: int
    const colorBgChecked: int
    const colorBgUnchecked: int
    const colorTvChecked: int
    const colorTvUnchecked: int
    const padding: int
    const stepHeight: real
    const checkedNum: int
    const stepNames: seq<string>
    const font: ChevronFont
    const paint: Paint
    const path: Path
    var stepWidth: real
    var tipWidth: real
    var measuredWidth: int
    var measuredHeight: int

    function State(): Chevrons
      reads this
    {
      Chevrons(paddingLeft, paddingTop, paddingRight, paddingBottom,
               colorBgChecked, colorBgUnchecked, colorTvChecked, colorTvUnchecked,
               padding, stepHeight, checkedNum, stepNames, stepWidth, tipWidth)
    }

    /** The widget with its attributes already resolved; `stepNames` is empty when no
        label array is given. The paint strokes 3 units wide. */
    constructor (paddingLeft: int, paddingTop: int, paddingRight: int, paddingBottom: int,
                 colorBgChecked: int, colorBgUnchecked: int, colorTvChecked: int, colorTvUnchecked: int,
                 padding: int, stepHeight: real, checkedNum: int, stepNames: seq<string>,
                 font: ChevronFont)
      ensures State() == Chevrons(paddingLeft, paddingTop, paddingRight, paddingBottom,
                                  colorBgChecked, colorBgUnchecked, colorTvChecked, colorTvUnchecked,
                                  padding, stepHeight, checkedNum, stepNames, 0.0, 0.0)
      ensures measuredWidth == 0 && measuredHeight == 0 && this.font == font
      ensures fresh(paint) && paint.State() == PaintState(OpaqueBlack, Fill, 3.0)
      ensures fresh(path) && path.points == [] && !path.closed
    {
      this.paddingLeft, this.paddingTop := paddingLeft, paddingTop;
      this.paddingRight, this.paddingBottom := paddingRight, paddingBottom;
      this.colorBgChecked, this.colorBgUnchecked := colorBgChecked, colorBgUnchecked;
      this.colorTvChecked, this.colorTvUnchecked := colorTvChecked, colorTvUnchecked;
      this.padding, this.stepHeight, this.checkedNum := padding, stepHeight, checkedNum;
      this.stepNames, this.font := stepNames, font;
      var p := new Paint();
      p.SetStrokeWidth(3.0);
      this.paint := p;
      this.path := new Path();
      stepWidth, tipWidth := 0.0, 0.0;
      measuredWidth, measuredHeight := 0, 0;
    }

    /** `getWidth`: whatever the mode, the offered width; sets the step width (in `int`
        arithmetic) and the tip width, a sixth of it. With no steps the `int` division by
        zero throws: `None`, and nothing is set. */
    method GetWidth(size: nat) returns (result: Option<int>)
      modifies this`stepWidth, this`tipWidth
      ensures |stepNames| == 0 ==> result == None && State() == old(State())
      ensures |stepNames| != 0 ==> result == Some(size) && State() == AfterWidthPass(old(State()), size)
    {
      if |stepNames| == 0 {
        return None;
      }
      stepWidth := IntDiv(size - paddingLeft - paddingRight - padding * (|stepNames| - 1), |stepNames|) as real;
      tipWidth := stepWidth / 6.0;
      result := Some(size);
    }

    /** `onMeasure`: records the measured width and height; the width mode is not consulted.
        When measuring the width throws, nothing is recorded and `measured` is false. */
    method Measure(widthMode: MeasureMode, widthSize: nat, heightMode: MeasureMode, heightSize: nat)
      returns (measured: bool)
      modifies this
      ensures measured == (|stepNames| != 0)
      ensures !measured ==>
                State() == old(State())
                && measuredWidth == old(measuredWidth) && measuredHeight == old(measuredHeight)
      ensures measured ==>
                measuredWidth == widthSize
                && measuredHeight == MeasuredHeight(old(State()), heightMode, heightSize)
                && State() == AfterWidthPass(old(State()), widthSize)
    {
      var w := GetWidth(widthSize);
      if w.None? {
        return false;
      }
      var h := MeasuredHeight(State(), heightMode, heightSize);
      measuredWidth, measuredHeight := w.value, h;
      measured := true;
    }

    /** The path part of `onDraw`'s loop for step `i`: reset, then trace the outline. */
    method TraceStep(i: nat)
      requires i < |stepNames|
      modifies path
      ensures path.points == Vertices(State(), i) && path.closed
    {
      var n := |stepNames|;
      path.Reset();
      path.MoveTo(stepWidth * i as real + padding as real * i as real, 0.0);
      path.LineTo(stepWidth * (i + 1) as real + padding as real * i as real, 0.0);
      if i != n - 1 {
        path.LineTo(stepWidth * (i + 1) as real + tipWidth + padding as real * i as real, stepHeight / 2.0);
      }
      path.LineTo(stepWidth * (i + 1) as real + padding as real * i as real, stepHeight);
      path.LineTo(stepWidth * i as real + padding as real * i as real, stepHeight);
      if i != 0 {
        path.LineTo(tipWidth + (stepWidth + padding as real) * i as real, stepHeight / 2.0);
      }
      path.Close();
      ghost var v := Vertices(State(), i);
      assert |v| == |path.points|;
      assert forall j :: 0 <= j < |v| ==> v[j] == path.points[j];
    }

    /** The body of `onDraw`'s loop for step `i`: the outline filled, then the label. */
    method DrawStep(canvas: Canvas, i: nat)
      requires i < |stepNames|
      modifies canvas, paint, path
      ensures canvas.cmds == old(canvas.cmds) + StepCmds(State(), font, i, old(paint.strokeWidth))
      ensures paint.State() == old(paint.State()).(color := TvColor(State(), i), style := Fill)
      ensures path.points == Vertices(State(), i) && path.closed
    {
      ghost var before := canvas.cmds;
      ghost var step := StepCmds(State(), font, i, paint.strokeWidth);
      TraceStep(i);
      var bgColor := colorBgUnchecked;
      var tvColor := colorTvUnchecked;
      if checkedNum >= i {
        bgColor := colorBgChecked;
        tvColor := colorTvChecked;
      }
      paint.SetColor(bgColor);
      paint.SetStyle(Fill);
      canvas.DrawPath(path, paint);
      paint.SetStyle(Fill);
      var tvWidth := Trunc(font.advance(stepNames[i]));
      var tvHeight := Trunc(font.bottom - font.top);
      paint.SetColor(tvColor);
      var x := 0.0;
      var y := stepHeight / 2.0 + IntDiv(tvHeight, 2) as real - font.bottom;
      if i == 0 {
        x := stepWidth / 2.0 - IntDiv(tvWidth, 2) as real;
      } else if i == |stepNames| - 1 {
        x := (stepWidth + padding as real) * i as real + (stepWidth + tipWidth) / 2.0 - IntDiv(tvWidth, 2) as real;
      } else {
        x := (stepWidth + padding as real) * i as real + tipWidth + stepWidth / 2.0 - IntDiv(tvWidth, 2) as real;
      }
      canvas.DrawText(stepNames[i], x, y, paint);
      assert canvas.cmds[|before|] == step[0];
      assert canvas.cmds[|before| + 1] == step[1];
      assert canvas.cmds == before + [step[0], step[1]];
    }

    /** `onDraw`: moves the origin to the top-left inset, then draws every step. */
    method Draw(canvas: Canvas)
      modifies canvas, paint, path
      ensures canvas.cmds == old(canvas.cmds) + ChevronCmds(State(), font, old(paint.strokeWidth), |stepNames|)
      ensures paint.State() == PaintAfter(State(), old(paint.State()), |stepNames|)
      ensures |stepNames| > 0 ==> path.points == Vertices(State(), |stepNames| - 1) && path.closed
      ensures |stepNames| == 0 ==> path.points == old(path.points) && path.closed == old(path.closed)
    {
      ghost var c := State();
      ghost var entry := paint.State();
      ghost var before := canvas.cmds;
      canvas.Translate(paddingLeft as real, paddingTop as real);
      var i := 0;
      while i < |stepNames|
        invariant 0 <= i <= |stepNames|
        invariant canvas.cmds == before + ChevronCmds(c, font, entry.strokeWidth, i)
        invariant paint.State() == PaintAfter(c, entry, i)
        invariant i > 0 ==> path.points == Vertices(c, i - 1) && path.closed
        invariant i == 0 ==> path.points == old(path.points) && path.closed == old(path.closed)
      {
        DrawStep(canvas, i);
        i := i + 1;
      }
    }
  }
}
