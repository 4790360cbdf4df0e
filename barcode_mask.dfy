/** The barcode mask's configuration and the style records it renders.

    `Props` is what the host passes (every prop optional); `Resolve` fills the
    unset ones from the component's default props; the remaining functions
    build the style objects of the scan-line, the four corner edges, the finder
    box and the mask around it.
 */
module BarcodeMask {
  import opened StyleRecords
  import Oscillation

  datatype Orientation = Horizontal | Vertical

  /** The props as the host writes them; `None` is a prop left undefined.
      `width`, `height`, `edgeHeight` and `edgeBorderWidth` are numbers here. */
  datatype Props = Props(
    width: Option<real>,
    height: Option<real>,
    edgeWidth: Option<real>,
    edgeHeight: Option<real>,
    edgeColor: Option<Color>,
    edgeBorderWidth: Option<real>,
    edgeRadius: Option<real>,
    backgroundColor: Option<Color>,
    maskOpacity: Option<real>,
    showAnimatedLine: Option<bool>,
    startValue: Option<real>,
    destinationValue: Option<real>,
    animatedLineThickness: Option<real>,
    animatedLineOrientation: Option<Orientation>,
    animatedLineColor: Option<Color>,
    animationDuration: Option<real>)

  /** The props the component body sees: every prop with a default is defined;
      `startValue` and `destinationValue` have none and may still be undefined. */
  datatype Config = Config(
    width: real,
    height: real,
    edgeWidth: real,
    edgeHeight: real,
    edgeColor: Color,
    edgeBorderWidth: real,
    edgeRadius: real,
    backgroundColor: Color,
    maskOpacity: real,
    showAnimatedLine: bool,
    startValue: Option<real>,
    destinationValue: Option<real>,
    animatedLineThickness: real,
    animatedLineOrientation: Orientation,
    animatedLineColor: Color,
    animationDuration: real)

  /** A host that passes no prop at all. */
  const NO_PROPS: Props := Props(
    None, None, None, None, None, None, None, None,
    None, None, None, None, None, None, None, None)

  /** The component's default props. */
  const DEFAULT_PROPS: Props := Props(
    width := Some(280.0),
    height := Some(230.0),
    edgeWidth := Some(20.0),
    edgeHeight := Some(20.0),
    edgeColor := Some("#fff"),
    edgeBorderWidth := Some(4.0),
    edgeRadius := Some(0.0),
    backgroundColor := Some("#eee"),
    maskOpacity := Some(1.0),
    showAnimatedLine := Some(true),
    startValue := None,
    destinationValue := None,
    animatedLineThickness := Some(2.0),
    animatedLineOrientation := Some(Horizontal),
    animatedLineColor := Some("#fff"),
    animationDuration := Some(2000.0))

  /** Every prop the host leaves undefined takes its default; `startValue` and
      `destinationValue`, which have none, reach the body as the host wrote them. */
  function Resolve(p: Props): (c: Config)
    ensures c.startValue == p.startValue && c.destinationValue == p.destinationValue
  {
    var d := DEFAULT_PROPS;
    Config(
      p.width.GetOr(d.width.value),
      p.height.GetOr(d.height.value),
      p.edgeWidth.GetOr(d.edgeWidth.value),
      p.edgeHeight.GetOr(d.edgeHeight.value),
      p.edgeColor.GetOr(d.edgeColor.value),
      p.edgeBorderWidth.GetOr(d.edgeBorderWidth.value),
      p.edgeRadius.GetOr(d.edgeRadius.value),
      p.backgroundColor.GetOr(d.backgroundColor.value),
      p.maskOpacity.GetOr(d.maskOpacity.value),
      p.showAnimatedLine.GetOr(d.showAnimatedLine.value),
      p.startValue,
      p.destinationValue,
      p.animatedLineThickness.GetOr(d.animatedLineThickness.value),
      p.animatedLineOrientation.GetOr(d.animatedLineOrientation.value),
      p.animatedLineColor.GetOr(d.animatedLineColor.value),
      p.animationDuration.GetOr(d.animationDuration.value))
  }

  /** The props that pass every field of `c` explicitly. */
  function Explicit(c: Config): Props {
    Props(
      Some(c.width), Some(c.height), Some(c.edgeWidth), Some(c.edgeHeight),
      Some(c.edgeColor), Some(c.edgeBorderWidth), Some(c.edgeRadius),
      Some(c.backgroundColor), Some(c.maskOpacity), Some(c.showAnimatedLine),
      c.startValue, c.destinationValue, Some(c.animatedLineThickness),
      Some(c.animatedLineOrientation), Some(c.animatedLineColor),
      Some(c.animationDuration))
  }

  /** With no props the component uses its documented defaults. */
  lemma DefaultsWhenNothingPassed()
    ensures Resolve(NO_PROPS) ==
      Config(280.0, 230.0, 20.0, 20.0, "#fff", 4.0, 0.0, "#eee", 1.0, true,
             None, None, 2.0, Horizontal, "#fff", 2000.0)
  {
  }

  /** Props passed explicitly are never replaced by defaults. */
  lemma ExplicitPropsWin(c: Config)
    ensures Resolve(Explicit(c)) == c
  {
  }

  /** Any mix of passed and omitted props: each passed prop is used as given,
      each omitted one takes its documented default. */
  lemma PassedPropsWinOmittedTakeDefaults(p: Props)
    ensures var c := Resolve(p);
            c.width == p.width.GetOr(280.0) &&
            c.height == p.height.GetOr(230.0) &&
            c.edgeWidth == p.edgeWidth.GetOr(20.0) &&
            c.edgeHeight == p.edgeHeight.GetOr(20.0) &&
            c.edgeColor == p.edgeColor.GetOr("#fff") &&
            c.edgeBorderWidth == p.edgeBorderWidth.GetOr(4.0) &&
            c.edgeRadius == p.edgeRadius.GetOr(0.0) &&
            c.backgroundColor == p.backgroundColor.GetOr("#eee") &&
            c.maskOpacity == p.maskOpacity.GetOr(1.0) &&
            c.showAnimatedLine == p.showAnimatedLine.GetOr(true) &&
            c.startValue == p.startValue &&
            c.destinationValue == p.destinationValue &&
            c.animatedLineThickness == p.animatedLineThickness.GetOr(2.0) &&
            c.animatedLineOrientation == p.animatedLineOrientation.GetOr(Horizontal) &&
            c.animatedLineColor == p.animatedLineColor.GetOr("#fff") &&
            c.animationDuration == p.animationDuration.GetOr(2000.0)
  {
  }

  /** JavaScript `x || fallback` on a number that may be undefined: `undefined`
      and `0` are falsy. */
  function JsOr(x: Option<real>, fallback: real): real {
    if x.Some? && x.value != 0.0 then x.value else fallback
  }

  /** The scan-line's start: `startValue || 0`.  The `0` trap is harmless
      here, since falling back on `0` when the start is `0` gives `0`. */
  function LineStart(c: Config): (r: real)
    ensures r == c.startValue.GetOr(0.0)
  {
    JsOr(c.startValue, 0.0)
  }

  /** The finder dimension the line sweeps across. */
  function AxisLength(c: Config): real {
    match c.animatedLineOrientation
    case Horizontal => c.height
    case Vertical => c.width
  }

  /** The scan-line's destination: `destinationValue`, unless it is undefined
      or `0`, in which case the line travels until its far edge meets the
      finder's far edge (`height - thickness` or `width - thickness`). */
  function LineDestination(c: Config): (r: real)
    ensures c.destinationValue.Some? && c.destinationValue.value != 0.0 ==>
              r == c.destinationValue.value
    ensures c.destinationValue.None? || c.destinationValue.value == 0.0 ==>
              r + c.animatedLineThickness ==
                (if c.animatedLineOrientation == Horizontal then c.height else c.width)
  {
    JsOr(c.destinationValue, AxisLength(c) - c.animatedLineThickness)
  }

  /** `||` and `??` disagree on the destination exactly when the host passes
      an explicit `0` and the computed span is not `0` itself. */
  lemma ExplicitZeroDestination(c: Config)
    ensures LineDestination(c) != c.destinationValue.GetOr(AxisLength(c) - c.animatedLineThickness)
            <==> c.destinationValue == Some(0.0) && AxisLength(c) != c.animatedLineThickness
  {
  }

  /** The arguments the line hands to its oscillation driver. */
  function Drive(c: Config): (d: LineDrive)
    ensures d.start == c.startValue.GetOr(0.0)
    ensures d.destination == LineDestination(c)
    ensures d.duration == c.animationDuration
  {
    LineDrive(LineStart(c), LineDestination(c), c.animationDuration)
  }

  /** `styles.animatedLine`. */
  const ANIMATED_LINE: Style := EMPTY.(position := Some(Absolute), zIndex := Some(1))

  /** The keys a scan-line style defines. */
  function LineKeys(o: Orientation): set<Key> {
    {Position, ZIndex, Width, Height, BackgroundColor,
     OffsetKey(if o == Horizontal then Top else Left)}
  }

  /** `_animatedLineStyle()`: an absolute bar, `zIndex` 1, as thick as the line
      across its travel and 90% of the finder along it, its travelling offset
      (`top` when horizontal, `left` when vertical) driven by the oscillation. */
  function LineStyle(c: Config): (r: Style)
    ensures r.position == Some(Absolute) && r.zIndex == Some(1)
    ensures r.backgroundColor == Some(c.animatedLineColor)
    ensures c.animatedLineOrientation == Horizontal ==>
              r.height == Some(Points(c.animatedLineThickness)) &&
              r.width == Some(Points(c.width * 9.0 / 10.0)) &&
              r.top == Some(Driven(Drive(c))) && r.left.None?
    ensures c.animatedLineOrientation == Vertical ==>
              r.width == Some(Points(c.animatedLineThickness)) &&
              r.height == Some(Points(c.height * 9.0 / 10.0)) &&
              r.left == Some(Driven(Drive(c))) && r.top.None?
    ensures forall k :: Get(r, k).Some? <==> k in LineKeys(c.animatedLineOrientation)
  {
    if c.animatedLineOrientation == Horizontal then
      Merge(ANIMATED_LINE, EMPTY.(
              height := Some(Points(c.animatedLineThickness)),
              width := Some(Points(c.width * 0.9)),
              backgroundColor := Some(c.animatedLineColor),
              top := Some(Driven(Drive(c)))))
    else
      Merge(ANIMATED_LINE, EMPTY.(
              width := Some(Points(c.animatedLineThickness)),
              height := Some(Points(c.height * 0.9)),
              backgroundColor := Some(c.animatedLineColor),
              left := Some(Driven(Drive(c)))))
  }

  /** The default `runTimingFn` call of the line: a new driver at rest on the
      line's start and aiming at its destination. */
  method StartLineDriver(c: Config) returns (d: Oscillation.Driver)
    ensures fresh(d)
    ensures d.value == Drive(c).start && d.destination == Drive(c).destination
    ensures d.duration == Drive(c).duration
    ensures d.State() == Oscillation.Start(Drive(c).start, Drive(c).destination)
  {
    var drive := Drive(c);
    d := new Oscillation.Driver(drive.start, drive.destination, drive.duration);
  }

  /** The line is rendered only when `showAnimatedLine` is set. */
  function ShownLine(c: Config): (r: Option<Style>)
    ensures r.Some? <==> c.showAnimatedLine
    ensures r.Some? ==> r.value == LineStyle(c)
  {
    if c.showAnimatedLine then Some(LineStyle(c)) else None
  }

  /** The sides a corner touches. */
  predicate Adjoins(corner: Corner, side: Side) {
    match corner
    case TopLeft => side == Top || side == Left
    case TopRight => side == Top || side == Right
    case BottomLeft => side == Bottom || side == Left
    case BottomRight => side == Bottom || side == Right
  }

  /** `defaultStyle` of an edge. */
  function EdgeDefault(c: Config): Style {
    EMPTY.(width := Some(Points(c.edgeWidth)), height := Some(Points(c.edgeHeight)),
           borderColor := Some(c.edgeColor), zIndex := Some(2))
  }

  /** `styles[corner]`: anchored at `0` on the corner's two sides. */
  function CornerAnchor(corner: Corner): Style {
    match corner
    case TopLeft => EMPTY.(position := Some(Absolute), top := Some(Fixed(0.0)), left := Some(Fixed(0.0)))
    case TopRight => EMPTY.(position := Some(Absolute), top := Some(Fixed(0.0)), right := Some(Fixed(0.0)))
    case BottomLeft => EMPTY.(position := Some(Absolute), bottom := Some(Fixed(0.0)), left := Some(Fixed(0.0)))
    case BottomRight => EMPTY.(position := Some(Absolute), bottom := Some(Fixed(0.0)), right := Some(Fixed(0.0)))
  }

  /** `edgeBorderStyle[corner]`. */
  function CornerBorder(corner: Corner, bw: real, br: real): Style {
    match corner
    case TopRight =>
      EMPTY.(borderRightWidth := Some(bw), borderTopWidth := Some(bw),
             borderTopRightRadius := Some(br), top := Some(Fixed(-bw)), right := Some(Fixed(-bw)))
    case TopLeft =>
      EMPTY.(borderTopWidth := Some(bw), borderLeftWidth := Some(bw),
             borderTopLeftRadius := Some(br), top := Some(Fixed(-bw)), left := Some(Fixed(-bw)))
    case BottomRight =>
      EMPTY.(borderBottomWidth := Some(bw), borderRightWidth := Some(bw),
             borderBottomRightRadius := Some(br), bottom := Some(Fixed(-bw)), right := Some(Fixed(-bw)))
    case BottomLeft =>
      EMPTY.(borderBottomWidth := Some(bw), borderLeftWidth := Some(bw),
             borderBottomLeftRadius := Some(br), bottom := Some(Fixed(-bw)), left := Some(Fixed(-bw)))
  }

  /** What a corner edge should look like, key by key: absolute, `zIndex` 2,
      the edge's size and colour, a border of `edgeBorderWidth` on exactly the
      two sides the corner touches, `edgeRadius` on that corner only, and
      pushed outwards by the border width on the same two sides. */
  function EdgeReference(c: Config, corner: Corner, k: Key): Option<Value> {
    match k
    case Position => Some(PositionValue(Absolute))
    case ZIndex => Some(IntValue(2))
    case Width => Some(DimValue(Points(c.edgeWidth)))
    case Height => Some(DimValue(Points(c.edgeHeight)))
    case BorderColor => Some(ColorValue(c.edgeColor))
    case BorderWidthKey(side) =>
      if Adjoins(corner, side) then Some(RealValue(c.edgeBorderWidth)) else None
    case OffsetKey(side) =>
      if Adjoins(corner, side) then Some(OffsetValue(Fixed(-c.edgeBorderWidth))) else None
    case CornerRadiusKey(k') => if k' == corner then Some(RealValue(c.edgeRadius)) else None
    case BackgroundColor => None
    case BorderRadius => None
    case Opacity => None
    case Flex => None
  }

  /** `{ ...defaultStyle, ...styles[corner], ...edgeBorderStyle[corner] }`. */
  function EdgeStyle(c: Config, corner: Corner): (r: Style)
    ensures r.position == Some(Absolute) && r.zIndex == Some(2)
    ensures r.width == Some(Points(c.edgeWidth)) && r.height == Some(Points(c.edgeHeight))
    ensures r.borderColor == Some(c.edgeColor)
    ensures r.backgroundColor.None? && r.borderRadius.None? && r.opacity.None? && r.flex.None?
  {
    Merge(Merge(EdgeDefault(c), CornerAnchor(corner)),
          CornerBorder(corner, c.edgeBorderWidth, c.edgeRadius))
  }

  /** One key of one corner edge agrees with the reference. */
  lemma {:induction false} EdgeStyleKey(c: Config, corner: Corner, k: Key)
    ensures Get(EdgeStyle(c, corner), k) == EdgeReference(c, corner, k)
  {
    match corner
    case TopLeft =>
    case TopRight =>
    case BottomLeft =>
    case BottomRight =>
  }

  /** Every corner edge is exactly its reference: no key more, no key less. */
  lemma {:induction false} EdgeStyleMatchesReference(c: Config, corner: Corner)
    ensures forall k :: Get(EdgeStyle(c, corner), k) == EdgeReference(c, corner, k)
  {
    forall k {
      EdgeStyleKey(c, corner, k);
    }
  }

  /** The border offsets override the `0` anchors, and only because they are
      spread last: spreading the anchors last would put the edge back at `0`. */
  lemma {:induction false} BorderOffsetsSpreadLast(c: Config, corner: Corner, side: Side)
    requires Adjoins(corner, side)
    ensures Get(CornerAnchor(corner), OffsetKey(side)) == Some(OffsetValue(Fixed(0.0)))
    ensures Get(EdgeStyle(c, corner), OffsetKey(side)) == Some(OffsetValue(Fixed(-c.edgeBorderWidth)))
    ensures var swapped := Merge(Merge(EdgeDefault(c), CornerBorder(corner, c.edgeBorderWidth, c.edgeRadius)),
                                 CornerAnchor(corner));
            Get(swapped, OffsetKey(side)) == Some(OffsetValue(Fixed(0.0)))
  {
    match corner
    case TopLeft =>
    case TopRight =>
    case BottomLeft =>
    case BottomRight =>
  }

  /** `_applyMaskFrameStyle()`: the dimmed part of the mask. */
  function MaskFrameStyle(c: Config): (r: Style)
    ensures r.backgroundColor == Some(c.backgroundColor)
    ensures r.opacity == Some(c.maskOpacity)
    ensures r.flex == Some(1)
    ensures forall k :: Get(r, k).Some? <==> k in {BackgroundColor, Opacity, Flex}
  {
    EMPTY.(backgroundColor := Some(c.backgroundColor), opacity := Some(c.maskOpacity), flex := Some(1))
  }

  /** `styles.maskRow`. */
  const MASK_ROW: Style := EMPTY.(width := Some(Percent(100.0)))

  /** `styles.maskInner`. */
  const MASK_INNER: Style := EMPTY.(backgroundColor := Some(TRANSPARENT))

  /** `styles.finder` (its alignment keys aside). */
  const FINDER: Style := EMPTY.(zIndex := Some(1))

  /** The finder box: `{ ...styles.finder, width, height }`. */
  function FinderStyle(c: Config): (r: Style)
    ensures r.zIndex == Some(1)
    ensures r.width == Some(Points(c.width)) && r.height == Some(Points(c.height))
    ensures forall k :: Get(r, k).Some? <==> k in {ZIndex, Width, Height}
  {
    Merge(FINDER, EMPTY.(width := Some(Points(c.width)), height := Some(Points(c.height))))
  }

  /** The transparent cut-out: `{ ...styles.maskInner, width, height, borderRadius: edgeRadius }`. */
  function CutOutStyle(c: Config): (r: Style)
    ensures r.backgroundColor == Some(TRANSPARENT)
    ensures r.width == Some(Points(c.width)) && r.height == Some(Points(c.height))
    ensures r.borderRadius == Some(c.edgeRadius)
    ensures forall k :: Get(r, k).Some? <==> k in {BackgroundColor, Width, Height, BorderRadius}
  {
    Merge(MASK_INNER, EMPTY.(width := Some(Points(c.width)), height := Some(Points(c.height)),
                             borderRadius := Some(c.edgeRadius)))
  }

  /** The style records of one render, in the order the views are laid out. */
  datatype Layout = Layout(
    finder: Style,
    topLeft: Style,
    topRight: Style,
    bottomLeft: Style,
    bottomRight: Style,
    line: Option<Style>,
    topRow: Style,
    centerRow: Style,
    leftStrip: Style,
    cutOut: Style,
    rightStrip: Style,
    bottomRow: Style)

  /** The styles of every view the component renders. */
  function Render(c: Config): (r: Layout)
    ensures r.cutOut.width == r.finder.width && r.cutOut.height == r.finder.height
    ensures r.centerRow.height == r.finder.height
    ensures r.cutOut.backgroundColor == Some(TRANSPARENT) && r.cutOut.borderRadius == Some(c.edgeRadius)
    ensures r.leftStrip == r.rightStrip == MaskFrameStyle(c)
    ensures r.topRow == r.bottomRow
    ensures r.topRow.width == Some(Percent(100.0))
    ensures r.topRow.backgroundColor == Some(c.backgroundColor) && r.topRow.opacity == Some(c.maskOpacity)
    ensures r.finder.zIndex == Some(1)
    ensures r.finder.width == Some(Points(c.width)) && r.finder.height == Some(Points(c.height))
    ensures r.topLeft == EdgeStyle(c, TopLeft) && r.topRight == EdgeStyle(c, TopRight)
    ensures r.bottomLeft == EdgeStyle(c, BottomLeft) && r.bottomRight == EdgeStyle(c, BottomRight)
    ensures r.line == ShownLine(c)
    ensures r.line.Some? <==> c.showAnimatedLine
  {
    Layout(
      FinderStyle(c),
      EdgeStyle(c, TopLeft),
      EdgeStyle(c, TopRight),
      EdgeStyle(c, BottomLeft),
      EdgeStyle(c, BottomRight),
      ShownLine(c),
      Merge(MASK_ROW, MaskFrameStyle(c)),
      EMPTY.(height := Some(Points(c.height))),
      MaskFrameStyle(c),
      CutOutStyle(c),
      MaskFrameStyle(c),
      Merge(MASK_ROW, MaskFrameStyle(c)))
  }

  /** With the default props the top-left edge is a 20 x 20 bracket with 4-point
      borders on its top and left, moved 4 points up and to the left. */
  lemma DefaultTopLeftEdge()
    ensures var e := EdgeStyle(Resolve(NO_PROPS), TopLeft);
            e.width == Some(Points(20.0)) && e.height == Some(Points(20.0)) &&
            e.borderTopWidth == Some(4.0) && e.borderLeftWidth == Some(4.0) &&
            e.borderRightWidth.None? && e.borderBottomWidth.None? &&
            e.top == Some(Fixed(-4.0)) && e.left == Some(Fixed(-4.0)) &&
            e.right.None? && e.bottom.None?
  {
  }

  /** A vertical line on the default 280-point-wide finder, with no
      destination given, oscillates its `left` between 0 and 278 over 2000 ms. */
  lemma DefaultVerticalLine()
    ensures var c := Resolve(NO_PROPS.(animatedLineOrientation := Some(Vertical)));
            LineStyle(c).left == Some(Driven(LineDrive(0.0, 278.0, 2000.0)))
  {
  }
}
