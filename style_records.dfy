/** Style records of a React Native view, as the barcode mask builds them.

    A style is a JavaScript object literal whose keys may be absent; here it is a
    datatype with one optional field per key the component uses.  Object spread
    (`{ ...a, ...b }`) is `Merge(a, b)`: every key that `b` defines overrides the
    one in `a`, and the keys `b` leaves out keep the value from `a`.
 */
module StyleRecords {

  datatype Option<+T> = None | Some(value: T) {

    /** The value, or `default` when absent. */
    function GetOr(default: T): T {
      match this
      case Some(v) => v
      case None => default
    }
  }

  /** Colour strings are opaque to the component: it only passes them on. */
  type Color = string

  const TRANSPARENT: Color := "transparent"

  /** The only `position` the component writes is `'absolute'`. */
  datatype PositionKind = Absolute

  /** A length: a number of points, or a percentage string such as `'100%'`. */
  datatype Dim = Points(points: real) | Percent(percent: real)

  /** The arguments the scan-line gives its oscillation driver
      (`runTimingFn(clock, start, destination, duration)`): the animated node it
      gets back becomes the line's `top` or `left`. */
  datatype LineDrive = LineDrive(start: real, destination: real, duration: real)

  /** An offset (`top`, `right`, `bottom`, `left`): a fixed number or an animated node. */
  datatype Offset = Fixed(at: real) | Driven(drive: LineDrive)

  datatype Side = Top | Right | Bottom | Left

  datatype Corner = TopLeft | TopRight | BottomLeft | BottomRight

  /** The style keys the component writes (layout keys such as `alignItems` aside). */
  datatype Key =
    | Position
    | ZIndex
    | OffsetKey(side: Side)
    | Width
    | Height
    | BackgroundColor
    | BorderColor
    | BorderWidthKey(side: Side)
    | CornerRadiusKey(corner: Corner)
    | BorderRadius
    | Opacity
    | Flex

  /** The value stored under a key, whatever its type. */
  datatype Value =
    | PositionValue(kind: PositionKind)
    | IntValue(n: int)
    | OffsetValue(offset: Offset)
    | DimValue(dim: Dim)
    | ColorValue(color: Color)
    | RealValue(x: real)

  datatype Style = Style(
    position: Option<PositionKind>,
    zIndex: Option<int>,
    top: Option<Offset>,
    right: Option<Offset>,
    bottom: Option<Offset>,
    left: Option<Offset>,
    width: Option<Dim>,
    height: Option<Dim>,
    backgroundColor: Option<Color>,
    borderColor: Option<Color>,
    borderTopWidth: Option<real>,
    borderRightWidth: Option<real>,
    borderBottomWidth: Option<real>,
    borderLeftWidth: Option<real>,
    borderTopLeftRadius: Option<real>,
    borderTopRightRadius: Option<real>,
    borderBottomLeftRadius: Option<real>,
    borderBottomRightRadius: Option<real>,
    borderRadius: Option<real>,
    opacity: Option<real>,
    flex: Option<int>)

  /** The empty object literal `{}`. */
  const EMPTY: Style := Style(
    None, None, None, None, None, None, None, None, None, None, None,
    None, None, None, None, None, None, None, None, None, None)

  function LiftPosition(o: Option<PositionKind>): Option<Value> {
    match o case None => None case Some(p) => Some(PositionValue(p))
  }

  function LiftInt(o: Option<int>): Option<Value> {
    match o case None => None case Some(n) => Some(IntValue(n))
  }

  function LiftOffset(o: Option<Offset>): Option<Value> {
    match o case None => None case Some(f) => Some(OffsetValue(f))
  }

  function LiftDim(o: Option<Dim>): Option<Value> {
    match o case None => None case Some(d) => Some(DimValue(d))
  }

  function LiftColor(o: Option<Color>): Option<Value> {
    match o case None => None case Some(c) => Some(ColorValue(c))
  }

  function LiftReal(o: Option<real>): Option<Value> {
    match o case None => None case Some(x) => Some(RealValue(x))
  }

  /** Property lookup `s[k]`: `None` when the key is absent. */
  function Get(s: Style, k: Key): Option<Value> {
    match k
    case Position => LiftPosition(s.position)
    case ZIndex => LiftInt(s.zIndex)
    case OffsetKey(side) =>
      LiftOffset(match side
                 case Top => s.top
                 case Right => s.right
                 case Bottom => s.bottom
                 case Left => s.left)
    case Width => LiftDim(s.width)
    case Height => LiftDim(s.height)
    case BackgroundColor => LiftColor(s.backgroundColor)
    case BorderColor => LiftColor(s.borderColor)
    case BorderWidthKey(side) =>
      LiftReal(match side
               case Top => s.borderTopWidth
               case Right => s.borderRightWidth
               case Bottom => s.borderBottomWidth
               case Left => s.borderLeftWidth)
    case CornerRadiusKey(corner) =>
      LiftReal(match corner
               case TopLeft => s.borderTopLeftRadius
               case TopRight => s.borderTopRightRadius
               case BottomLeft => s.borderBottomLeftRadius
               case BottomRight => s.borderBottomRightRadius)
    case BorderRadius => LiftReal(s.borderRadius)
    case Opacity => LiftReal(s.opacity)
    case Flex => LiftInt(s.flex)
  }

  /** One key of a spread: the later object wins when it has the key. */
  function Pick<T>(earlier: Option<T>, later: Option<T>): Option<T> {
    if later.Some? then later else earlier
  }

  /** `{ ...a, ...b }`. */
  function Merge(a: Style, b: Style): (r: Style)
    ensures forall k :: Get(b, k).Some? ==> Get(r, k) == Get(b, k)
    ensures forall k :: Get(b, k).None? ==> Get(r, k) == Get(a, k)
  {
    Style(
      Pick(a.position, b.position),
      Pick(a.zIndex, b.zIndex),
      Pick(a.top, b.top),
      Pick(a.right, b.right),
      Pick(a.bottom, b.bottom),
      Pick(a.left, b.left),
      Pick(a.width, b.width),
      Pick(a.height, b.height),
      Pick(a.backgroundColor, b.backgroundColor),
      Pick(a.borderColor, b.borderColor),
      Pick(a.borderTopWidth, b.borderTopWidth),
      Pick(a.borderRightWidth, b.borderRightWidth),
      Pick(a.borderBottomWidth, b.borderBottomWidth),
      Pick(a.borderLeftWidth, b.borderLeftWidth),
      Pick(a.borderTopLeftRadius, b.borderTopLeftRadius),
      Pick(a.borderTopRightRadius, b.borderTopRightRadius),
      Pick(a.borderBottomLeftRadius, b.borderBottomLeftRadius),
      Pick(a.borderBottomRightRadius, b.borderBottomRightRadius),
      Pick(a.borderRadius, b.borderRadius),
      Pick(a.opacity, b.opacity),
      Pick(a.flex, b.flex))
  }
}
