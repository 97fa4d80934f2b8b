# StepBarView in Dafny

The library has two Android progress-indicator views.

- **StepBarView** draws a row of numbered circular badges on one horizontal connector line. Each badge has a caption below it. Only the badge whose index equals the current step (`mCheckNum`) uses the "checked" colours.
- **StepView** draws a bar of arrow-shaped segments (chevrons) laid edge to edge, each with its label inside. Every step up to and including the current one (`mCheckedNum`) is drawn checked.

Each view works in two passes:

- **Measure** turns the offered width and height (a mode plus a size) into the measured dimensions. Along the way it may update the view's widths:
  - StepBarView re-solves its segment widths in exact mode and leaves them as they were in at-most mode.
  - StepView sets its step and tip widths whenever it has steps.
- **Draw** issues a sequence of canvas calls. The paint's colour and style change between calls; StepBarView's draw also sets the stroke width.

The model keeps this structure:

- `java_lang.dfy` (module `JavaLang`) spells out the Java semantics the views rely on:
  - the `(int)` cast of a float, which truncates toward zero;
  - `int` division, also truncated toward zero;
  - `Math.min`;
  - `Integer.toString` for the default glyphs "1", "2", …
- `graphics.dfy` (module `Graphics`) models the drawing API:
  - `Paint` is a class whose colour, style and stroke width the setters change.
  - `Path` is a class holding one contour.
  - `Canvas` is a class that records every call made on it as a `DrawCmd`. Each call is recorded with the paint state at that moment.
- `step_bar.dfy` (module `StepBar`) and `step_chevrons.dfy` (module `StepChevrons`) each hold:
  - the view as a class (`StepBarView`, `StepView`), with the fields the Java updates in place;
  - a value snapshot of those fields (`Bar`, `Chevrons`);
  - specification functions over the snapshot (measured sizes, the fields after a measure pass, the full list of draw calls);
  - lemmas about those functions.

  The class methods are proved to produce exactly what the specification functions describe.

Font measurement is an input, not computed. `BarFont` gives `getTextBounds` width and height per string plus the font-metrics top and bottom. `ChevronFont` gives `measureText` per string plus the same metrics.

### Behaviour worth knowing

- **Redrawing does not repeat the same calls.** In StepBarView the connector line at StepBarView.java:169-171 is drawn with whatever stroke width the paint was left with:
  - 0 on the first draw;
  - 2 on every draw after one that drew at least one badge, because the badge outlines set it to 2.

  A draw that draws no badge leaves the width where it was. That happens with no glyphs, or when the first step has no caption. See `RedrawConnector` and `EmptyDrawRepeats`.
- **Exact width does not settle.** The code solves the centre segment using the *current* edge segments, then resets the edges to 3/5 of the new centre (StepBarView.java:130-132). As a result:
  - the row fills the offered width, and is symmetric, only when the edges were already at that ratio;
  - re-measuring gives a different layout. With three badges of radius 15, a width of 300 and edges of 30, the first pass gives centre 75 / edge 45; the second gives 60 / 36.

  See `ExactWidthMargins`, `ExactWidthRemeasure` and `ExactWidthScenario`.
- **Derived widths can be negative** when the offered width is smaller than the insets, gaps and badges. Nothing clamps them.
  - StepBarView (StepBarView.java:130-132): three badges of radius 15 with edges of 30, in an exact width of 100, get a centre segment of −25 and edges of −15.
  - StepView (StepView.java:105-106): two steps with insets of 10 each, offered a width of 0, are −10 wide.

  See `NegativeCenterWidth` and `NegativeStepWidth`.
- **A glyph without a caption stops the draw partway.** When StepBarView has more glyphs than captions, `onDraw` throws at the first step without a caption (StepBarView.java:179), after the connector and the earlier steps are already drawn. `StepBarView.Draw` models this by returning `completed == false`.
- **Degenerate step counts are not special-cased.**
  - StepBarView with one badge in exact mode divides a float by zero (StepBarView.java:131).
  - StepView with no steps divides an `int` by zero (StepView.java:105), which throws. `StepView.GetWidth` returns `None` in that case.

## Model

| member | source | states |
|---|---|---|
| JavaLang.Trunc | stepbarview/src/main/java/com/nanchen/stepbarview/StepBarView.java:124-125 | The `(int)` cast rounds toward zero: r ≤ x < r + 1 for x ≥ 0, and r − 1 < x ≤ r for x < 0 |
| JavaLang.IntDiv | stepbarview/src/main/java/com/nanchen/stepbarview/StepView.java:105 | Java `int` division: the remainder a − b·q lies in [0, abs(b)) for a ≥ 0 and in (−abs(b), 0] for a < 0 |
| JavaLang.ParseDecimalString | stepbarview/src/main/java/com/nanchen/stepbarview/StepBarView.java:89 | The string `n + ""` reads back as n |
| JavaLang.Min | stepbarview/src/main/java/com/nanchen/stepbarview/StepBarView.java:126 | `Math.min`: the result is at most both arguments and equal to one of them |
| JavaLang.DecimalString | stepbarview/src/main/java/com/nanchen/stepbarview/StepBarView.java:89 | `n + ""` for a natural n: at least one character, decimal digits only, no leading zero unless n is 0 |
| JavaLang.DecimalStringInjective | stepbarview/src/main/java/com/nanchen/stepbarview/StepBarView.java:89 | Distinct numbers print differently, so the default glyphs are pairwise distinct |
| StepBar.DefaultTopNames | stepbarview/src/main/java/com/nanchen/stepbarview/StepBarView.java:88-90 | The default glyph list has one glyph per caption |
| StepBar.DefaultTopNameAt | stepbarview/src/main/java/com/nanchen/stepbarview/StepBarView.java:88-90 | Default glyph i is the decimal string of i + 1, and it reads back as i + 1 |
| StepBar.ResolveTopNames | stepbarview/src/main/java/com/nanchen/stepbarview/StepBarView.java:83-95 | The glyphs the constructor ends with, given the two optional arrays. Its properties are stated by `TopNamesRule` |
| StepBar.ResolveBottomNames | stepbarview/src/main/java/com/nanchen/stepbarview/StepBarView.java:83-86 | The captions the constructor ends with: the supplied array, or none. See `TopNamesRule` |
| StepBar.TopNamesRule | stepbarview/src/main/java/com/nanchen/stepbarview/StepBarView.java:83-95 | A supplied glyph array replaces the defaults. Otherwise there is one glyph per caption, and glyph i is the decimal string "i + 1" |
| StepBar.StepBarView.constructor | stepbarview/src/main/java/com/nanchen/stepbarview/StepBarView.java:68-108 | Fields set from the resolved attributes. Glyphs and captions are resolved by the rule above. The fresh paint is opaque black, stroke style, width 0 |
| StepBar.NaturalWidth | stepbarview/src/main/java/com/nanchen/stepbarview/StepBarView.java:124-125 | The width wrap_content asks for: insets, two edges, every diameter, the centre segments between badges. Its use is stated by `MeasuredWidth` and `RowSpansNaturalWidth` |
| StepBar.MeasuredWidth | stepbarview/src/main/java/com/nanchen/stepbarview/StepBarView.java:119-135 | Never exceeds the offered size. Exact and unspecified modes return the size. At-most mode returns the natural row width cut to an integer and capped by the size |
| StepBar.SolvedCenterWidth | stepbarview/src/main/java/com/nanchen/stepbarview/StepBarView.java:130-131 | The centre segment solved against the current edges. `ExactWidthFills` states that it fills the offered width |
| StepBar.AfterWidthPass | stepbarview/src/main/java/com/nanchen/stepbarview/StepBarView.java:127-133 | The fields after the width pass. Its properties are stated by `AtMostKeepsSegments`, `ExactWidthFills`, `ExactWidthMargins` and `ExactWidthRemeasure` |
| StepBar.AtMostKeepsSegments | stepbarview/src/main/java/com/nanchen/stepbarview/StepBarView.java:123-126 | An at-most pass leaves every field unchanged |
| StepBar.ExactWidthFills | stepbarview/src/main/java/com/nanchen/stepbarview/StepBarView.java:127-133 | The re-solved centre segment, with the edges it was solved against, makes the row exactly the offered width. The new edge is 3/5 of the new centre |
| StepBar.RowSpansNaturalWidth | stepbarview/src/main/java/com/nanchen/stepbarview/StepBarView.java:174 | Measured from the insets, the first badge ends one edge segment from the left and the last one edge segment from the right. This spans the natural width the at-most pass uses |
| StepBar.ExactWidthMargins | stepbarview/src/main/java/com/nanchen/stepbarview/StepBarView.java:127-133 | After an exact pass: the left margin is the new edge; the right margin is twice the old edge less the new one; the row fills the width iff the edge did not change |
| StepBar.ExactWidthRemeasure | stepbarview/src/main/java/com/nanchen/stepbarview/StepBarView.java:127-133 | A second exact pass reproduces the centre segment iff the first pass left the edge unchanged |
| StepBar.ExactWidthScenario | stepbarview/src/main/java/com/nanchen/stepbarview/StepBarView.java:130-132 | Three badges, radius 15, edge 30, width 300: pass one gives 75 / 45, pass two gives 60 / 36 |
| StepBar.NegativeCenterWidth | stepbarview/src/main/java/com/nanchen/stepbarview/StepBarView.java:130-132 | Three badges of radius 15 with edges of 30, in an exact width of 100, get a centre segment of −25 and edges of −15 |
| StepBar.StepBarView.GetReallyWidth | stepbarview/src/main/java/com/nanchen/stepbarview/StepBarView.java:119-135 | Returns the measured width. The new field state is exactly the specified width pass, and an at-most pass leaves both segment widths as they were |
| StepBar.NaturalHeight | stepbarview/src/main/java/com/nanchen/stepbarview/StepBarView.java:145-146 | The height wrap_content asks for: insets, diameter, caption gap and font height. Its use is stated by `MeasuredHeight` |
| StepBar.MeasuredHeight | stepbarview/src/main/java/com/nanchen/stepbarview/StepBarView.java:140-152 | Never exceeds the offered size. At-most mode gives the insets, diameter, caption gap and font height, cut to an integer and capped. Other modes give the size |
| StepBar.StepBarView.Measure | stepbarview/src/main/java/com/nanchen/stepbarview/StepBarView.java:112-114 | Records the measured width and height. The segment widths are as the width pass leaves them |
| StepBar.BarCmds | stepbarview/src/main/java/com/nanchen/stepbarview/StepBarView.java:164-219 | The calls of one draw through step k − 1: 1 + 4k calls, the first of them the connector |
| StepBar.StepCmds | stepbarview/src/main/java/com/nanchen/stepbarview/StepBarView.java:174-217 | The four calls of one step, the badge calls followed by the caption |
| StepBar.BadgeCmds | stepbarview/src/main/java/com/nanchen/stepbarview/StepBarView.java:184-211 | The three badge calls of one step: fill, outline, glyph |
| StepBar.CaptionCmd | stepbarview/src/main/java/com/nanchen/stepbarview/StepBarView.java:213-217 | The caption of one step, centred under its badge in the text colour. Its content is stated by `BadgeAt` |
| StepBar.CenterY | stepbarview/src/main/java/com/nanchen/stepbarview/StepBarView.java:168 | The vertical centre of the connector and every badge. See `ConnectorFirst` and `BadgeSpacing` |
| StepBar.CenterX | stepbarview/src/main/java/com/nanchen/stepbarview/StepBarView.java:174 | The horizontal centre of badge i. See `BadgeSpacing` and `RowSpansNaturalWidth` |
| StepBar.ConnectorLine | stepbarview/src/main/java/com/nanchen/stepbarview/StepBarView.java:166-171 | The connector in the line colour, with the stroke width the paint brings. See `ConnectorFirst` and `RedrawConnector` |
| StepBar.DrawnSteps | stepbarview/src/main/java/com/nanchen/stepbarview/StepBarView.java:173-179 | How many steps a draw completes: it stops at the first step without a caption. See `StepBarView.Draw` |
| StepBar.PaintAfter | stepbarview/src/main/java/com/nanchen/stepbarview/StepBarView.java:169-216 | The paint after the connector and k steps: line colour on the entry paint when no step was drawn, otherwise text colour, fill, width 2. See `RedrawConnector` and `EmptyDrawRepeats` |
| StepBar.ConnectorFirst | stepbarview/src/main/java/com/nanchen/stepbarview/StepBarView.java:166-171 | The first call is the connector, from the left inset to the measured width less the right inset, at the badges' centre height, in the line colour. No later call draws a line |
| StepBar.BadgeAt | stepbarview/src/main/java/com/nanchen/stepbarview/StepBarView.java:174-217 | Each step's four calls: the badge filled, the badge outlined with width 2, the glyph centred by `int`-halved bounds, and the caption below in the text colour. The colours are checked iff the index equals the current step. The unchecked outline uses the unchecked number colour. The checked fill keeps the stroke width the paint brings; the unchecked fill has width 2 |
| StepBar.BadgeSpacing | stepbarview/src/main/java/com/nanchen/stepbarview/StepBarView.java:174 | Neighbouring badges share a centre height and are one centre segment plus one diameter apart |
| StepBar.CheckedBadges | stepbarview/src/main/java/com/nanchen/stepbarview/StepBarView.java:184-201 | When the circle colours differ, the checked fills are exactly the current step's badge, or none when the step is out of range |
| StepBar.AtMostOneChecked | stepbarview/src/main/java/com/nanchen/stepbarview/StepBarView.java:184 | At most one badge is checked, and exactly one iff the current step is in range |
| StepBar.RedrawConnector | stepbarview/src/main/java/com/nanchen/stepbarview/StepBarView.java:169-171 | After a draw that completed a step, the next connector uses the text colour's paint state (fill, width 2) recoloured. It differs from the first draw's connector unless that paint already had width 2 |
| StepBar.EmptyDrawRepeats | stepbarview/src/main/java/com/nanchen/stepbarview/StepBarView.java:169-179 | A draw that draws no badge keeps the stroke width, so the next connector is the same call |
| StepBar.StepBarView.DrawBadge | stepbarview/src/main/java/com/nanchen/stepbarview/StepBarView.java:184-211 | Appends exactly the badge's three specified calls, and leaves the paint in the checked or unchecked number colour, fill style, width 2 |
| StepBar.StepBarView.DrawStep | stepbarview/src/main/java/com/nanchen/stepbarview/StepBarView.java:174-217 | Appends exactly the step's four specified calls and leaves the paint in the text colour, fill style, width 2 |
| StepBar.StepBarView.Draw | stepbarview/src/main/java/com/nanchen/stepbarview/StepBarView.java:164-219 | Appends the connector and every step up to the first missing caption. `completed` is false iff a caption was missing. The final paint state is as specified |
| StepChevrons.StepWidthFor | stepbarview/src/main/java/com/nanchen/stepbarview/StepView.java:105 | The step width in `int` arithmetic. Its bounds are stated by `StepWidthFits` |
| StepChevrons.AfterWidthPass | stepbarview/src/main/java/com/nanchen/stepbarview/StepView.java:105-106 | The step and tip widths after `getWidth`: the tip is a sixth of the step, as `StepWidthScenario` shows |
| StepChevrons.StepWidthFits | stepbarview/src/main/java/com/nanchen/stepbarview/StepView.java:105 | The steps, gaps and insets use up the offered width to within less than one unit per step, short of it when there is room and over it when there is not |
| StepChevrons.StepWidthScenario | stepbarview/src/main/java/com/nanchen/stepbarview/StepView.java:105-106 | Four steps in 400 units with no insets or gaps are 100 wide with tips of 100/6 |
| StepChevrons.NegativeStepWidth | stepbarview/src/main/java/com/nanchen/stepbarview/StepView.java:105-106 | Two steps with insets of 10 each, offered a width of 0, are −10 wide with tips of −10/6 |
| StepChevrons.StepView.GetWidth | stepbarview/src/main/java/com/nanchen/stepbarview/StepView.java:101-108 | Returns the offered size in every mode and sets step and tip width as specified. With no steps it fails (`None`) and sets nothing |
| StepChevrons.MeasuredHeight | stepbarview/src/main/java/com/nanchen/stepbarview/StepView.java:110-122 | At-most mode: the step height cut to an integer, plus the insets. Other modes: the offered size |
| StepChevrons.HeightNotClamped | stepbarview/src/main/java/com/nanchen/stepbarview/StepView.java:114-116 | At-most height is not capped by the offered size: 40 is measured when 10 is offered |
| StepChevrons.StepView.Measure | stepbarview/src/main/java/com/nanchen/stepbarview/StepView.java:96-99 | Records the offered width and the specified height, or records nothing when the width pass fails |
| StepChevrons.StepView.constructor | stepbarview/src/main/java/com/nanchen/stepbarview/StepView.java:60-85 | Fields set from the resolved attributes. The paint strokes 3 units wide. The path starts empty |
| StepChevrons.Vertices | stepbarview/src/main/java/com/nanchen/stepbarview/StepView.java:133-148 | The outline of step i in path order. Its shape is stated by `PolygonShape` and `ChevronsInterlock` |
| StepChevrons.PolygonShape | stepbarview/src/main/java/com/nanchen/stepbarview/StepView.java:133-148 | Step i's outline starts at x = i·(w + padding), runs w wide and the step height tall, and has 4, 5 or 6 vertices: a head on all but the last, a tail notch on all but the first |
| StepChevrons.ChevronsInterlock | stepbarview/src/main/java/com/nanchen/stepbarview/StepView.java:134-146 | Neighbouring steps are exactly `padding` apart along the top edge, and between one's head and the next one's notch at mid-height |
| StepChevrons.LabelX | stepbarview/src/main/java/com/nanchen/stepbarview/StepView.java:170-178 | Where each label starts. Its centring is stated by `LabelCentred` |
| StepChevrons.LabelY | stepbarview/src/main/java/com/nanchen/stepbarview/StepView.java:169 | The shared label baseline. See `LabelsShareBaseline` |
| StepChevrons.LabelCentred | stepbarview/src/main/java/com/nanchen/stepbarview/StepView.java:170-178 | Each label's centre is the midpoint of two of its own vertices: top corners for the first step, notch and top right for the last, notch and head otherwise |
| StepChevrons.Checked | stepbarview/src/main/java/com/nanchen/stepbarview/StepView.java:153 | Step i is checked when the current step is at least i. See `CheckedCount` and `CheckedPrefix` |
| StepChevrons.BgColor | stepbarview/src/main/java/com/nanchen/stepbarview/StepView.java:150-156 | The background colour of step i, the checked one iff it is checked. See `StepAt` |
| StepChevrons.TvColor | stepbarview/src/main/java/com/nanchen/stepbarview/StepView.java:150-156 | The text colour of step i, the checked one iff it is checked. See `StepAt` |
| StepChevrons.HalfLabelWidth | stepbarview/src/main/java/com/nanchen/stepbarview/StepView.java:165 | Half the truncated label width in `int` arithmetic. See `LabelCentred` |
| StepChevrons.StepCmds | stepbarview/src/main/java/com/nanchen/stepbarview/StepView.java:150-179 | The two calls of one step: the closed outline filled, then the label. Their content is stated by `StepAt` |
| StepChevrons.PaintAfter | stepbarview/src/main/java/com/nanchen/stepbarview/StepView.java:158-167 | The paint after k steps: the entry paint recoloured to the last step's text colour in fill style. See `StepView.Draw` |
| StepChevrons.ChevronCmds | stepbarview/src/main/java/com/nanchen/stepbarview/StepView.java:124-182 | The calls of one draw through step k − 1: 1 + 2k calls, the first of them the move of the origin to the top-left inset |
| StepChevrons.StepAt | stepbarview/src/main/java/com/nanchen/stepbarview/StepView.java:150-179 | Each step draws its closed outline filled, then its label. Both use the checked colours iff the step is at or before the current step |
| StepChevrons.CheckedCount | stepbarview/src/main/java/com/nanchen/stepbarview/StepView.java:153 | Of the first k steps, the current step plus one are checked, clamped to [0, k] |
| StepChevrons.CheckedPrefix | stepbarview/src/main/java/com/nanchen/stepbarview/StepView.java:150-160 | When the background colours differ, the checked fills form a prefix of the steps, the current step plus one long (clamped) |
| StepChevrons.LabelsShareBaseline | stepbarview/src/main/java/com/nanchen/stepbarview/StepView.java:164-169 | Every label is drawn on the same baseline |
| StepChevrons.StepView.TraceStep | stepbarview/src/main/java/com/nanchen/stepbarview/StepView.java:133-148 | Leaves the path closed and holding exactly step i's specified vertices |
| StepChevrons.StepView.DrawStep | stepbarview/src/main/java/com/nanchen/stepbarview/StepView.java:133-179 | Appends exactly step i's two specified calls and leaves the paint in step i's text colour, fill style |
| StepChevrons.StepView.Draw | stepbarview/src/main/java/com/nanchen/stepbarview/StepView.java:124-182 | Appends the origin move to the top-left inset, then every step's calls. The final paint and path state are as specified; with no steps the path is unchanged |

## Left out

- Attribute and resource parsing (`obtainStyledAttributes`, `getStringArray`, the default colours and sizes) is not modelled. The constructors take the resolved values as parameters. Note that StepView.java:66 reads the unchecked text colour from the `bg_color_unchecked` key; the model takes whatever value that yields.
- `dp2px` and `sp2px` depend on the display's density, so their results are inputs. The same goes for StepView's `(int)` of the gap dimension.
- Text size and anti-aliasing on the paint, and `Log.e`, are not modelled. They do not affect any recorded call.
- `super.onDraw` is not modelled.
- `Rect` and `FontMetrics` objects are not modelled. Their values come from `BarFont` and `ChevronFont`.
- The measure-spec bit packing is not modelled. Mode and size are passed separately, and the size is a natural number.
- Float arithmetic is exact real arithmetic: IEEE rounding, infinities and NaN are not modelled. `Trunc` is exact truncation, without the cast's saturation at the `int` range.
- Java `int` overflow in the inset and padding sums is not modelled.
- Only one contour of `Path` is modelled, and `moveTo` only on a reset path. That is all the views use.
- StepBar.StepBarView.GetReallyWidth: requires a glyph count other than one, or at-most mode. With exactly one glyph in exact mode the Java divides a float by zero and stores an infinity or NaN, which reals cannot hold.
- StepBar.StepBarView.Measure: carries the same requirement as `GetReallyWidth`, for the same reason.
- StepBarView.DrawStep, StepBarView.DrawBadge, StepView.TraceStep and StepView.DrawStep are not methods of the Java classes. They are the bodies of the `onDraw` loops, split out so that each proof stays small.
