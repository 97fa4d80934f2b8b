/** StepBarView: a row of numbered circular badges on one connector line, each with a
    caption below it; the badge whose index equals the current step is drawn in the
    "checked" colours.

    The class `StepBarView` keeps the widget's fields and updates them as the Java does
    (measuring overwrites the segment widths; drawing changes the paint as it goes).
    The functions below it are the specification its methods are proved against, taken
    over a `Bar`, the value of those fields at one moment. */
module StepBar {
  import opened JavaLang
  import opened Graphics

  /** What the view's paint reports about text at its configured size:
      `getTextBounds` width and height per string, and the font metrics' top and bottom. */
  datatype BarFont = BarFont(boundsWidth: string -> int, boundsHeight: string -> int,
                             top: real, bottom: real)

  /** The fields of a StepBarView that measuring and drawing read. */
  datatype Bar = Bar(
    paddingLeft: int, paddingTop: int, paddingRight: int, paddingBottom: int,
    circleColorChecked: int, circleColorUnchecked: int,
    numberColorChecked: int, numberColorUnchecked: int,
    tvColor: int, lineColor: int,
    circleRadius: real, circleTextPadding: real,
    centerLineWidth: real, edgeLineWidth: real,
    checkNum: int, topNames: seq<string>, bottomNames: seq<string>,
    measuredWidth: int)

  // ---------------------------------------------------------------------------
  // Labels

  /** "1", "2", ..., "n": the badge glyphs used when only captions are supplied. */
  function DefaultTopNames(n: nat): (r: seq<string>)
    ensures |r| == n
  {
    if n == 0 then [] else DefaultTopNames(n - 1) + [DecimalString(n)]
  }

  /** The badge glyphs the constructor ends with, given the two optional string arrays. */
  function ResolveTopNames(bottomNames: Option<seq<string>>, topNames: Option<seq<string>>): seq<string>
  {
    if topNames.Some? then topNames.value
    else if bottomNames.Some? then DefaultTopNames(|bottomNames.value|)
    else []
  }

  function ResolveBottomNames(bottomNames: Option<seq<string>>): seq<string>
  {
    if bottomNames.Some? then bottomNames.value else []
  }

  /** Default glyph `i` is the decimal string of `i + 1`, which reads back as `i + 1`. */
  lemma {:induction false} DefaultTopNameAt(n: nat, i: nat)
    requires i < n
    ensures DefaultTopNames(n)[i] == DecimalString(i + 1)
    ensures ParseDecimal(DefaultTopNames(n)[i]) == i + 1
    decreases n
  {
    if i == n - 1 {
      ParseDecimalString(n);
    } else {
      DefaultTopNameAt(n - 1, i);
    }
  }

  /** A supplied glyph array replaces the default; otherwise there is one glyph per
      caption, the decimal strings "1", "2", ...; with neither array there are no steps. */
  lemma TopNamesRule(bottomNames: Option<seq<string>>, topNames: Option<seq<string>>)
    ensures topNames.Some? ==> ResolveTopNames(bottomNames, topNames) == topNames.value
    ensures topNames.None? ==> |ResolveTopNames(bottomNames, topNames)| == |ResolveBottomNames(bottomNames)|
    ensures topNames.None? ==>
      forall i :: 0 <= i < |ResolveTopNames(bottomNames, topNames)| ==>
        ResolveTopNames(bottomNames, topNames)[i] == DecimalString(i + 1)
  {
    if topNames.None? && bottomNames.Some? {
      forall i | 0 <= i < |bottomNames.value|
        ensures ResolveTopNames(bottomNames, topNames)[i] == DecimalString(i + 1)
      {
        DefaultTopNameAt(|bottomNames.value|, i);
      }
    }
  }

  // ---------------------------------------------------------------------------
  // Measuring

  /** The width wrap_content asks for: both insets, both edge segments, every badge's
      diameter and a centre segment between each pair of badges. */
  function NaturalWidth(b: Bar): real
  {
    (b.paddingLeft + b.paddingRight) as real + b.edgeLineWidth * 2.0
      + b.circleRadius * 2.0 * |b.topNames| as real
      + b.centerLineWidth * (|b.topNames| - 1) as real
  }

  /** The width `getReallyWidth` returns: the natural width cut to an integer and capped
      by the offered size when the mode is at-most, the offered size otherwise. */
  function MeasuredWidth(b: Bar, mode: MeasureMode, size: nat): (w: int)
    ensures w <= size
    ensures mode != AtMost ==> w == size
    ensures mode == AtMost && 0.0 <= NaturalWidth(b) ==>
              w as real <= NaturalWidth(b) && (w < size ==> NaturalWidth(b) < w as real + 1.0)
    ensures mode == AtMost && NaturalWidth(b) < 0.0 ==>
              NaturalWidth(b) <= w as real < NaturalWidth(b) + 1.0
  {
    if mode == AtMost then Min(Trunc(NaturalWidth(b)), size) else size
  }

  /** The centre segment that makes the row exactly as wide as `size`, keeping the
      current edge segments. */
  function SolvedCenterWidth(b: Bar, size: nat): real
    requires |b.topNames| != 1
  {
    ((size - b.paddingLeft - b.paddingRight) as real - b.edgeLineWidth * 2.0
      - b.circleRadius * 2.0 * |b.topNames| as real) / (|b.topNames| - 1) as real
  }

  /** The fields as `getReallyWidth` leaves them: untouched in at-most mode; otherwise the
      centre segment is re-solved and the edge segments set to three fifths of it. */
  function AfterWidthPass(b: Bar, mode: MeasureMode, size: nat): Bar
    requires mode == AtMost || |b.topNames| != 1
  {
    if mode == AtMost then b
    else
      var center := SolvedCenterWidth(b, size);
      b.(centerLineWidth := center, edgeLineWidth := center * 3.0 / 5.0)
  }

  /** The height wrap_content asks for: both insets, a badge diameter, the caption gap
      and one line of text. */
  function NaturalHeight(b: Bar, font: BarFont): real
  {
    (b.paddingBottom + b.paddingTop) as real + b.circleRadius * 2.0 + b.circleTextPadding
      + (font.bottom - font.top)
  }

  /** The height `getReallyHeight` returns. */
  function MeasuredHeight(b: Bar, font: BarFont, mode: MeasureMode, size: nat): (h: int)
    ensures h <= size
    ensures mode != AtMost ==> h == size
    ensures mode == AtMost && 0.0 <= NaturalHeight(b, font) ==>
              h as real <= NaturalHeight(b, font) && (h < size ==> NaturalHeight(b, font) < h as real + 1.0)
    ensures mode == AtMost && NaturalHeight(b, font) < 0.0 ==>
              NaturalHeight(b, font) <= h as real < NaturalHeight(b, font) + 1.0
  {
    if mode == AtMost then Min(Trunc(NaturalHeight(b, font)), size) else size
  }

  /** At-most mode leaves the segment widths as they were. */
  lemma AtMostKeepsSegments(b: Bar, size: nat)
    ensures AfterWidthPass(b, AtMost, size) == b
  {
  }

  /** The re-solved centre segment, with the edge segments it was solved against,
      fills the offered width exactly. */
  lemma ExactWidthFills(b: Bar, mode: MeasureMode, size: nat)
    requires mode != AtMost && |b.topNames| != 1
    ensures NaturalWidth(b.(centerLineWidth := AfterWidthPass(b, mode, size).centerLineWidth)) == size as real
    ensures AfterWidthPass(b, mode, size).edgeLineWidth == AfterWidthPass(b, mode, size).centerLineWidth * 3.0 / 5.0
  {
    var n := (|b.topNames| - 1) as real;
    var rest := (size - b.paddingLeft - b.paddingRight) as real - b.edgeLineWidth * 2.0
      - b.circleRadius * 2.0 * |b.topNames| as real;
    assert SolvedCenterWidth(b, size) * n == rest;
  }

  /** The leftmost point of the first badge and the rightmost point of the last badge,
      with an edge segment beyond each, span the natural width between the insets. */
  lemma RowSpansNaturalWidth(b: Bar)
    requires |b.topNames| >= 1
    ensures CenterX(b, 0) - b.circleRadius - b.edgeLineWidth == b.paddingLeft as real
    ensures CenterX(b, |b.topNames| - 1) + b.circleRadius + b.edgeLineWidth + b.paddingRight as real
            == NaturalWidth(b)
  {
  }

  /** After an exact-width pass the space left of the first badge is the new edge
      segment and the space right of the last badge (up to the right inset) is twice the
      old edge less the new one; the row is symmetric and fills the width exactly when
      the edge segments were already three fifths of the new centre segment. */
  lemma {:induction false} ExactWidthMargins(b: Bar, mode: MeasureMode, size: nat)
    requires mode != AtMost && |b.topNames| >= 2
    ensures var a := AfterWidthPass(b, mode, size);
      && CenterX(a, 0) - a.circleRadius - a.paddingLeft as real == a.edgeLineWidth
      && (size - a.paddingRight) as real - (CenterX(a, |a.topNames| - 1) + a.circleRadius)
         == 2.0 * b.edgeLineWidth - a.edgeLineWidth
      && (NaturalWidth(a) == size as real <==> a.edgeLineWidth == b.edgeLineWidth)
  {
    var a := AfterWidthPass(b, mode, size);
    ExactWidthFills(b, mode, size);
    RowSpansNaturalWidth(a);
    assert NaturalWidth(a) == size as real + 2.0 * (a.edgeLineWidth - b.edgeLineWidth);
  }

  /** Measuring again in exact mode reproduces the same centre segment only when the
      edge segments were already at the three-fifths ratio; otherwise each pass moves it. */
  lemma {:induction false} ExactWidthRemeasure(b: Bar, mode: MeasureMode, size: nat)
    requires mode != AtMost && |b.topNames| != 1
    ensures var a := AfterWidthPass(b, mode, size);
      SolvedCenterWidth(a, size) == a.centerLineWidth <==> a.edgeLineWidth == b.edgeLineWidth
  {
    var a := AfterWidthPass(b, mode, size);
    var n := (|b.topNames| - 1) as real;
    assert n != 0.0;
    assert SolvedCenterWidth(a, size) * n == SolvedCenterWidth(b, size) * n - 2.0 * (a.edgeLineWidth - b.edgeLineWidth);
  }

  /** Three steps in a 300-unit exact width, no insets, radius 15, edges 30: the first
      pass gives centre 75 and edges 45; a second pass gives centre 60 and edges 36. */
  lemma ExactWidthScenario(b: Bar)
    requires b.paddingLeft == 0 && b.paddingRight == 0 && |b.topNames| == 3
    requires b.circleRadius == 15.0 && b.edgeLineWidth == 30.0
    ensures AfterWidthPass(b, Exactly, 300).centerLineWidth == 75.0
    ensures AfterWidthPass(b, Exactly, 300).edgeLineWidth == 45.0
    ensures AfterWidthPass(AfterWidthPass(b, Exactly, 300), Exactly, 300).centerLineWidth == 60.0
    ensures AfterWidthPass(AfterWidthPass(b, Exactly, 300), Exactly, 300).edgeLineWidth == 36.0
  {
  }

  /** The exact-width pass does not keep the segments non-negative: three badges of
      radius 15 with edges of 30 in an exact width of 100 get a negative centre segment
      and negative edges. */
  lemma NegativeCenterWidth(b: Bar)
    requires b.paddingLeft == 0 && b.paddingRight == 0 && |b.topNames| == 3
    requires b.circleRadius == 15.0 && b.edgeLineWidth == 30.0
    ensures AfterWidthPass(b, Exactly, 100).centerLineWidth == -25.0
    ensures AfterWidthPass(b, Exactly, 100).edgeLineWidth == -15.0
  {
  }

  // ---------------------------------------------------------------------------
  // Drawing

  /** The vertical centre shared by the connector and every badge. */
  function CenterY(b: Bar): real
  {
    b.paddingTop as real + b.circleRadius
  }

  /** The horizontal centre of badge `i`. */
  function CenterX(b: Bar, i: nat): real
  {
    b.paddingLeft as real + b.edgeLineWidth + b.circleRadius
      + i as real * (b.centerLineWidth + b.circleRadius * 2.0)
  }

  /** The connector from the left inset to the right inset, drawn first. */
  function ConnectorLine(b: Bar, entry: PaintState): DrawCmd
  {
    LineCmd(b.paddingLeft as real, CenterY(b), (b.measuredWidth - b.paddingRight) as real, CenterY(b),
            entry.(color := b.lineColor))
  }

  /** How many steps one draw completes: it stops at the first step without a caption. */
  function DrawnSteps(b: Bar): nat
  {
    if |b.topNames| <= |b.bottomNames| then |b.topNames| else |b.bottomNames|
  }

  /** The paint after the connector and `k` steps, starting from `entry`. */
  function PaintAfter(b: Bar, entry: PaintState, k: nat): PaintState
  {
    if k == 0 then entry.(color := b.lineColor) else PaintState(b.tvColor, Fill, 2.0)
  }

  /** The caption of step `i`, centred under its badge below the caption gap. */
  function CaptionCmd(b: Bar, font: BarFont, i: nat): DrawCmd
    requires i < |b.bottomNames|
  {
    var caption := b.bottomNames[i];
    TextCmd(caption, CenterX(b, i) - IntDiv(font.boundsWidth(caption), 2) as real,
            b.paddingTop as real + b.circleRadius * 2.0 + b.circleTextPadding + font.boundsHeight(caption) as real,
            PaintState(b.tvColor, Fill, 2.0))
  }

  /** The badge of step `i` filled, outlined and numbered, the paint standing at `entry`
      before it. */
  function BadgeCmds(b: Bar, font: BarFont, i: nat, entry: PaintState): (r: seq<DrawCmd>)
    requires i < |b.topNames|
    ensures |r| == 3
  {
    var cx := CenterX(b, i);
    var cy := CenterY(b);
    var r := b.circleRadius;
    var glyph := b.topNames[i];
    var glyphX := cx - IntDiv(font.boundsWidth(glyph), 2) as real;
    var glyphY := cy + IntDiv(font.boundsHeight(glyph), 2) as real;
    if b.checkNum == i then
      [CircleCmd(cx, cy, r, PaintState(b.circleColorChecked, Fill, entry.strokeWidth)),
       CircleCmd(cx, cy, r, PaintState(b.circleColorChecked, Stroke, 2.0)),
       TextCmd(glyph, glyphX, glyphY, PaintState(b.numberColorChecked, Fill, 2.0))]
    else
      [CircleCmd(cx, cy, r, PaintState(b.circleColorUnchecked, Fill, 2.0)),
       CircleCmd(cx, cy, r, PaintState(b.numberColorUnchecked, Stroke, 2.0)),
       TextCmd(glyph, glyphX, glyphY, PaintState(b.numberColorUnchecked, Fill, 2.0))]
  }

  /** The four calls of step `i`, the paint standing at `entry` before them. */
  function StepCmds(b: Bar, font: BarFont, i: nat, entry: PaintState): (r: seq<DrawCmd>)
    requires i < |b.topNames| && i < |b.bottomNames|
    ensures |r| == 4
  {
    BadgeCmds(b, font, i, entry) + [CaptionCmd(b, font, i)]
  }

  /** The calls of one draw up to and including step `k - 1`, starting from paint `entry`. */
  function BarCmds(b: Bar, font: BarFont, entry: PaintState, k: nat): (r: seq<DrawCmd>)
    requires k <= DrawnSteps(b)
    ensures |r| == 1 + 4 * k && r[0] == ConnectorLine(b, entry)
  {
    if k == 0 then [ConnectorLine(b, entry)]
    else BarCmds(b, font, entry, k - 1) + StepCmds(b, font, k - 1, PaintAfter(b, entry, k - 1))
  }

  /** A badge filled in the checked circle colour. */
  predicate IsCheckedFill(b: Bar, c: DrawCmd)
  {
    c.CircleCmd? && c.paint.style == Fill && c.paint.color == b.circleColorChecked
  }

  /** Step `i`'s four calls sit at positions 1 + 4i to 4 + 4i of every longer draw. */
  lemma {:induction false} BarCmdsAt(b: Bar, font: BarFont, entry: PaintState, k: nat, i: nat)
    requires i < k <= DrawnSteps(b)
    ensures |BarCmds(b, font, entry, k)| == 1 + 4 * k
    ensures BarCmds(b, font, entry, k)[1 + 4 * i .. 5 + 4 * i] == StepCmds(b, font, i, PaintAfter(b, entry, i))
    decreases k
  {
    var prev := BarCmds(b, font, entry, k - 1);
    var step := StepCmds(b, font, k - 1, PaintAfter(b, entry, k - 1));
    assert BarCmds(b, font, entry, k) == prev + step;
    if i == k - 1 {
      assert (prev + step)[|prev|..] == step;
    } else {
      BarCmdsAt(b, font, entry, k - 1, i);
      assert (prev + step)[1 + 4 * i .. 5 + 4 * i] == prev[1 + 4 * i .. 5 + 4 * i];
    }
  }

  /** The first call is the connector, at the badges' vertical centre between the insets,
      in the line colour; no other call draws a line. */
  lemma ConnectorFirst(b: Bar, font: BarFont, entry: PaintState, k: nat)
    requires k <= DrawnSteps(b)
    ensures var cmds := BarCmds(b, font, entry, k);
      && cmds[0] == LineCmd(b.paddingLeft as real, b.paddingTop as real + b.circleRadius,
                            (b.measuredWidth - b.paddingRight) as real, b.paddingTop as real + b.circleRadius,
                            entry.(color := b.lineColor))
      && forall j :: 1 <= j < |cmds| ==> !cmds[j].LineCmd?
  {
    var cmds := BarCmds(b, font, entry, k);
    forall j | 1 <= j < |cmds| ensures !cmds[j].LineCmd? {
      var i := (j - 1) / 4;
      BarCmdsAt(b, font, entry, k, i);
      assert cmds[j] == cmds[1 + 4 * i .. 5 + 4 * i][j - 1 - 4 * i];
    }
  }

  /** Each step draws, in order: its badge filled, the badge outlined with width 2, the
      glyph centred in the badge and the caption centred below it. Only the step whose
      index is the current step uses the checked colours; the unchecked outline is in the
      unchecked number colour. The checked fill keeps the stroke width the paint brings;
      the unchecked fill has width 2. */
  lemma BadgeAt(b: Bar, font: BarFont, entry: PaintState, k: nat, i: nat)
    requires i < k <= DrawnSteps(b)
    ensures var cmds := BarCmds(b, font, entry, k);
      var cx := CenterX(b, i);
      var cy := b.paddingTop as real + b.circleRadius;
      var checked := b.checkNum == i;
      && cmds[1 + 4 * i].CircleCmd? && cmds[1 + 4 * i].cx == cx && cmds[1 + 4 * i].cy == cy
      && cmds[1 + 4 * i].radius == b.circleRadius && cmds[1 + 4 * i].paint.style == Fill
      && cmds[1 + 4 * i].paint.color == (if checked then b.circleColorChecked else b.circleColorUnchecked)
      && cmds[1 + 4 * i].paint.strokeWidth == (if checked then PaintAfter(b, entry, i).strokeWidth else 2.0)
      && cmds[2 + 4 * i] == CircleCmd(cx, cy, b.circleRadius,
           PaintState(if checked then b.circleColorChecked else b.numberColorUnchecked, Stroke, 2.0))
      && cmds[3 + 4 * i] == TextCmd(b.topNames[i],
           cx - IntDiv(font.boundsWidth(b.topNames[i]), 2) as real,
           cy + IntDiv(font.boundsHeight(b.topNames[i]), 2) as real,
           PaintState(if checked then b.numberColorChecked else b.numberColorUnchecked, Fill, 2.0))
      && cmds[4 + 4 * i] == TextCmd(b.bottomNames[i],
           cx - IntDiv(font.boundsWidth(b.bottomNames[i]), 2) as real,
           b.paddingTop as real + 2.0 * b.circleRadius + b.circleTextPadding
             + font.boundsHeight(b.bottomNames[i]) as real,
           PaintState(b.tvColor, Fill, 2.0))
  {
    BarCmdsAt(b, font, entry, k, i);
    var cmds := BarCmds(b, font, entry, k);
    var step := StepCmds(b, font, i, PaintAfter(b, entry, i));
    assert cmds[1 + 4 * i .. 5 + 4 * i] == step;
    assert cmds[1 + 4 * i] == step[0] && cmds[2 + 4 * i] == step[1];
    assert cmds[3 + 4 * i] == step[2] && cmds[4 + 4 * i] == step[3];
  }

  /** Neighbouring badges are one centre segment and one diameter apart, on one line. */
  lemma BadgeSpacing(b: Bar, font: BarFont, entry: PaintState, k: nat, i: nat)
    requires i + 1 < k <= DrawnSteps(b)
    ensures var cmds := BarCmds(b, font, entry, k);
      && cmds[1 + 4 * i].CircleCmd? && cmds[5 + 4 * i].CircleCmd?
      && cmds[5 + 4 * i].cx - cmds[1 + 4 * i].cx == b.centerLineWidth + 2.0 * b.circleRadius
      && cmds[5 + 4 * i].cy == cmds[1 + 4 * i].cy == b.paddingTop as real + b.circleRadius
  {
    BadgeCentre(b, font, entry, k, i);
    BadgeCentre(b, font, entry, k, i + 1);
    assert 5 + 4 * i == 1 + 4 * (i + 1);
    var pitch := b.centerLineWidth + b.circleRadius * 2.0;
    assert (i + 1) as real * pitch == i as real * pitch + pitch;
  }

  /** The fill of badge `i` is a circle centred at that badge's centre. */
  lemma BadgeCentre(b: Bar, font: BarFont, entry: PaintState, k: nat, i: nat)
    requires i < k <= DrawnSteps(b)
    ensures var cmds := BarCmds(b, font, entry, k);
      cmds[1 + 4 * i].CircleCmd? && cmds[1 + 4 * i].cx == CenterX(b, i) && cmds[1 + 4 * i].cy == CenterY(b)
  {
    BarCmdsAt(b, font, entry, k, i);
    var cmds := BarCmds(b, font, entry, k);
    var step := StepCmds(b, font, i, PaintAfter(b, entry, i));
    assert cmds[1 + 4 * i] == step[0];
  }

  /** When the two circle colours differ, exactly the badge of the current step is filled
      in the checked colour: one badge when the current step is in range, none otherwise. */
  lemma CheckedBadges(b: Bar, font: BarFont, entry: PaintState, k: nat)
    requires k <= DrawnSteps(b)
    requires b.circleColorChecked != b.circleColorUnchecked
    ensures var cmds := BarCmds(b, font, entry, k);
      (set j | 0 <= j < |cmds| && IsCheckedFill(b, cmds[j]))
        == (if 0 <= b.checkNum < k then {1 + 4 * b.checkNum} else {})
  {
    var cmds := BarCmds(b, font, entry, k);
    forall j | 0 <= j < |cmds|
      ensures IsCheckedFill(b, cmds[j]) <==> 0 <= b.checkNum < k && j == 1 + 4 * b.checkNum
    {
      if j > 0 {
        var i := (j - 1) / 4;
        BarCmdsAt(b, font, entry, k, i);
        assert cmds[j] == cmds[1 + 4 * i .. 5 + 4 * i][j - 1 - 4 * i];
      }
    }
  }

  /** At most one step is drawn checked, and exactly one when the current step is in range. */
  lemma AtMostOneChecked(b: Bar, font: BarFont, entry: PaintState, k: nat)
    requires k <= DrawnSteps(b)
    requires b.circleColorChecked != b.circleColorUnchecked
    ensures var cmds := BarCmds(b, font, entry, k);
      var checked := set j | 0 <= j < |cmds| && IsCheckedFill(b, cmds[j]);
      |checked| <= 1 && (|checked| == 1 <==> 0 <= b.checkNum < k)
  {
    CheckedBadges(b, font, entry, k);
  }

  /** Drawing is not repeatable call for call: a draw that completed a step leaves the
      paint in fill style with stroke width 2, and the next draw's connector uses it. */
  lemma RedrawConnector(b: Bar, font: BarFont, entry: PaintState, k: nat, k': nat)
    requires 1 <= k <= DrawnSteps(b) && k' <= DrawnSteps(b)
    ensures BarCmds(b, font, PaintAfter(b, entry, k), k')[0] == ConnectorLine(b, PaintState(b.tvColor, Fill, 2.0))
    ensures entry.strokeWidth != 2.0 ==>
      BarCmds(b, font, PaintAfter(b, entry, k), k')[0] != BarCmds(b, font, entry, k')[0]
  {
  }

  /** A draw that draws no badge (no glyphs, or no caption for the first step) only
      recolours the paint, so the next draw's connector is the same as this one's. */
  lemma EmptyDrawRepeats(b: Bar, font: BarFont, entry: PaintState)
    requires DrawnSteps(b) == 0
    ensures PaintAfter(b, entry, DrawnSteps(b)).strokeWidth == entry.strokeWidth
    ensures BarCmds(b, font, PaintAfter(b, entry, DrawnSteps(b)), 0) == BarCmds(b, font, entry, 0)
  {
  }

  // ---------------------------------------------------------------------------
  // The widget

  class StepBarView {
    const paddingLeft: int
    const paddingTop: int
    const paddingRight: int
    const paddingBottom: int
    const circleColorChecked: int
    const circleColorUnchecked: int
    const numberColorChecked: int
    const numberColorUnchecked: int
    const tvColor: int
    const lineColor: int
    const circleRadius: real
    const circleTextPadding: real
    const checkNum: int
    const topNames: seq<string>
    const bottomNames: seq<string>
    const font: BarFont
    const paint: Paint
    var centerLineWidth: real
    var edgeLineWidth: real
    var measuredWidth: int
    var measuredHeight: int

    function State(): Bar
      reads this
    {
      Bar(paddingLeft, paddingTop, paddingRight, paddingBottom,
          circleColorChecked, circleColorUnchecked, numberColorChecked, numberColorUnchecked,
          tvColor, lineColor, circleRadius, circleTextPadding,
          centerLineWidth, edgeLineWidth, checkNum, topNames, bottomNames, measuredWidth)
    }

    /** The widget with its attributes already resolved; `bottomResource` and `topResource`
        are the two optional string arrays. The glyphs default to "1".."N", one per
        caption, and a supplied glyph array replaces them. */
    constructor (paddingLeft: int, paddingTop: int, paddingRight: int, paddingBottom: int,
                 circleColorChecked: int, circleColorUnchecked: int,
                 numberColorChecked: int, numberColorUnchecked: int,
                 tvColor: int, lineColor: int,
                 circleRadius: real, circleTextPadding: real,
                 centerLineWidth: real, edgeLineWidth: real, checkNum: int,
                 bottomResource: Option<seq<string>>, topResource: Option<seq<string>>,
                 font: BarFont)
      ensures State() == Bar(paddingLeft, paddingTop, paddingRight, paddingBottom,
                             circleColorChecked, circleColorUnchecked,
                             numberColorChecked, numberColorUnchecked,
                             tvColor, lineColor, circleRadius, circleTextPadding,
                             centerLineWidth, edgeLineWidth, checkNum,
                             ResolveTopNames(bottomResource, topResource),
                             ResolveBottomNames(bottomResource), 0)
      ensures measuredHeight == 0 && this.font == font
      ensures fresh(paint) && paint.State() == PaintState(OpaqueBlack, Stroke, 0.0)
    {
      this.paddingLeft, this.paddingTop := paddingLeft, paddingTop;
      this.paddingRight, this.paddingBottom := paddingRight, paddingBottom;
      this.circleColorChecked, this.circleColorUnchecked := circleColorChecked, circleColorUnchecked;
      this.numberColorChecked, this.numberColorUnchecked := numberColorChecked, numberColorUnchecked;
      this.tvColor, this.lineColor := tvColor, lineColor;
      this.circleRadius, this.circleTextPadding := circleRadius, circleTextPadding;
      this.centerLineWidth, this.edgeLineWidth := centerLineWidth, edgeLineWidth;
      this.checkNum := checkNum;
      var tops: seq<string> := [];
      var bottoms: seq<string> := [];
      if bottomResource.Some? {
        bottoms := bottomResource.value;
        var i := 0;
        while i < |bottoms|
          invariant 0 <= i <= |bottoms|
          invariant tops == DefaultTopNames(i)
        {
          tops := tops + [DecimalString(i + 1)];
          i := i + 1;
        }
      }
      if topResource.Some? {
        tops := topResource.value;
      }
      this.topNames, this.bottomNames := tops, bottoms;
      this.font := font;
      var p := new Paint();
      p.SetStyle(Stroke);
      this.paint := p;
      measuredWidth, measuredHeight := 0, 0;
    }

    /** `getReallyWidth`: returns the width and, unless the mode is at-most, re-solves the
        centre segment against the current edges and resets the edges to 3/5 of it. */
    method GetReallyWidth(mode: MeasureMode, size: nat) returns (result: int)
      requires mode == AtMost || |topNames| != 1
      modifies this`centerLineWidth, this`edgeLineWidth
      ensures result == MeasuredWidth(old(State()), mode, size)
      ensures State() == AfterWidthPass(old(State()), mode, size)
      ensures mode == AtMost ==> centerLineWidth == old(centerLineWidth) && edgeLineWidth == old(edgeLineWidth)
    {
      ghost var b := State();
      if mode == AtMost {
        var natural := (paddingLeft + paddingRight) as real + edgeLineWidth * 2.0
          + circleRadius * 2.0 * |topNames| as real + centerLineWidth * (|topNames| - 1) as real;
        assert natural == NaturalWidth(b);
        var reallyWidth := Trunc(natural);
        result := Min(reallyWidth, size);
        assert result == MeasuredWidth(b, mode, size);
      } else {
        result := size;
        centerLineWidth := ((result - paddingLeft - paddingRight) as real - edgeLineWidth * 2.0
          - circleRadius * 2.0 * |topNames| as real) / (|topNames| - 1) as real;
        assert centerLineWidth == SolvedCenterWidth(b, size);
        edgeLineWidth := centerLineWidth * 3.0 / 5.0;
        assert AfterWidthPass(b, mode, size) == b.(centerLineWidth := centerLineWidth, edgeLineWidth := edgeLineWidth);
        assert State() == b.(centerLineWidth := centerLineWidth, edgeLineWidth := edgeLineWidth);
      }
    }

    /** `onMeasure`: records the measured width and height. */
    method Measure(widthMode: MeasureMode, widthSize: nat, heightMode: MeasureMode, heightSize: nat)
      requires widthMode == AtMost || |topNames| != 1
      modifies this
      ensures measuredWidth == MeasuredWidth(old(State()), widthMode, widthSize)
      ensures measuredHeight == MeasuredHeight(old(State()), font, heightMode, heightSize)
      ensures State() == AfterWidthPass(old(State()), widthMode, widthSize).(measuredWidth := measuredWidth)
    {
      var w := GetReallyWidth(widthMode, widthSize);
      var h := MeasuredHeight(State(), font, heightMode, heightSize);
      measuredWidth, measuredHeight := w, h;
    }

    /** The body of `onDraw`'s loop for step `i`: the badge, then its caption in the
        text colour. */
    method DrawStep(canvas: Canvas, i: nat)
      requires i < |topNames| && i < |bottomNames|
      modifies canvas, paint
      ensures canvas.cmds == old(canvas.cmds) + StepCmds(State(), font, i, old(paint.State()))
      ensures paint.State() == PaintState(tvColor, Fill, 2.0)
    {
      var cx := paddingLeft as real + edgeLineWidth + circleRadius
        + i as real * (centerLineWidth + circleRadius * 2.0);
      var textWidth := font.boundsWidth(bottomNames[i]);
      var textHeight := font.boundsHeight(bottomNames[i]);
      DrawBadge(canvas, i, cx);
      var y := paddingTop as real + circleRadius * 2.0 + circleTextPadding + textHeight as real;
      paint.SetColor(tvColor);
      paint.SetStyle(Fill);
      canvas.DrawText(bottomNames[i], cx - IntDiv(textWidth, 2) as real, y, paint);
    }

    /** The checked or unchecked badge of step `i`, centred at `cx`. */
    method DrawBadge(canvas: Canvas, i: nat, cx: real)
      requires i < |topNames| && cx == CenterX(State(), i)
      modifies canvas, paint
      ensures canvas.cmds == old(canvas.cmds) + BadgeCmds(State(), font, i, old(paint.State()))
      ensures paint.State() == PaintState(if checkNum == i then numberColorChecked else numberColorUnchecked, Fill, 2.0)
    {
      var cy := paddingTop as real + circleRadius;
      var numberWidth := font.boundsWidth(topNames[i]);
      var numberHeight := font.boundsHeight(topNames[i]);
      if checkNum == i {
        paint.SetColor(circleColorChecked);
        paint.SetStyle(Fill);
        canvas.DrawCircle(cx, cy, circleRadius, paint);
        paint.SetColor(circleColorChecked);
        paint.SetStyle(Stroke);
        paint.SetStrokeWidth(2.0);
        canvas.DrawCircle(cx, cy, circleRadius, paint);
        paint.SetColor(numberColorChecked);
        paint.SetStyle(Fill);
        canvas.DrawText(topNames[i], cx - IntDiv(numberWidth, 2) as real,
                        cy + IntDiv(numberHeight, 2) as real, paint);
      } else {
        paint.SetColor(circleColorUnchecked);
        paint.SetStrokeWidth(2.0);
        paint.SetStyle(Fill);
        canvas.DrawCircle(cx, cy, circleRadius, paint);
        paint.SetColor(numberColorUnchecked);
        paint.SetStyle(Stroke);
        paint.SetStrokeWidth(2.0);
        canvas.DrawCircle(cx, cy, circleRadius, paint);
        paint.SetColor(numberColorUnchecked);
        paint.SetStyle(Fill);
        canvas.DrawText(topNames[i], cx - IntDiv(numberWidth, 2) as real,
                        cy + IntDiv(numberHeight, 2) as real, paint);
      }
    }

    /** `onDraw`: the connector, then each step's badge, glyph and caption. A step without
        a caption ends the draw early (`mBottomName.get` throws), with `completed` false. */
    method Draw(canvas: Canvas) returns (completed: bool)
      modifies canvas, paint
      ensures completed == (|topNames| <= |bottomNames|)
      ensures canvas.cmds == old(canvas.cmds) + BarCmds(State(), font, old(paint.State()), DrawnSteps(State()))
      ensures paint.State() == PaintAfter(State(), old(paint.State()), DrawnSteps(State()))
    {
      ghost var b := State();
      ghost var entry := paint.State();
      ghost var before := canvas.cmds;
      var startX := paddingLeft as real;
      var endX := (measuredWidth - paddingRight) as real;
      var cy := paddingTop as real + circleRadius;
      paint.SetColor(lineColor);
      canvas.DrawLine(startX, cy, endX, cy, paint);
      var i := 0;
      while i < |topNames|
        invariant 0 <= i <= |topNames| && i <= |bottomNames|
        invariant canvas.cmds == before + BarCmds(b, font, entry, i)
        invariant paint.State() == PaintAfter(b, entry, i)
      {
        if i >= |bottomNames| {
          return false;
        }
        assert State() == b;
        DrawStep(canvas, i);
        assert BarCmds(b, font, entry, i + 1)
          == BarCmds(b, font, entry, i) + StepCmds(b, font, i, PaintAfter(b, entry, i));
        i := i + 1;
      }
      return true;
    }
  }
}
