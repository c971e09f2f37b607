/**
 * Value types standing in for the Qt classes the compositor passes around:
 * QSize, QPoint, QRect, QRectF, shared QImage handles and QTransform, plus
 * the C++ conversions (truncating casts, unsigned wrap-around) the code relies on.
 */
module QtTypes {

  datatype Option<T> = None | Some(value: T)

  /** QSize. A default-constructed QSize is (-1, -1). */
  datatype Size = Size(width: int, height: int)

  const InvalidSize: Size := Size(-1, -1)

  /** QPoint */
  datatype Point = Point(x: int, y: int)

  /** QRect (integer) and QRectF (floating) rectangles: top-left corner and extent. */
  datatype Rect = Rect(x: int, y: int, width: int, height: int)
  datatype RectF = RectF(x: real, y: real, width: real, height: real)

  /**
   * A shared, read-only image (a shared QImage): its pixels are not modelled,
   * only an identity and its size.
   */
  datatype Image = Image(handle: nat, size: Size)

  /**
   * QTransform, recorded as the chain of translate/scale calls that built it
   * from the identity (QTransform::translate and QTransform::scale).
   */
  datatype Transform =
    | Identity
    | Translated(base: Transform, dx: real, dy: real)
    | Scaled(base: Transform, sx: real, sy: real)

  /** QPointF. */
  datatype PointF = PointF(x: real, y: real)

  /**
   * QTransform::map: translate and scale prepend their operation, so the newest call acts
   * first on the point (in local coordinates) and the transform it was applied to acts after.
   */
  function Map(t: Transform, p: PointF): PointF
  {
    match t
    case Identity => p
    case Translated(base, dx, dy) => Map(base, PointF(p.x + dx, p.y + dy))
    case Scaled(base, sx, sy) => Map(base, PointF(Scale(sx, p.x), Scale(sy, p.y)))
  }

  /** One coordinate under a scale factor. */
  function Scale(k: real, v: real): real
  {
    k * v
  }

  /** The largest value of a C++ `int` and the moduli of `quint32` and `quint64`. */
  const IntMax: int := 0x7FFF_FFFF
  const U32: int := 0x1_0000_0000
  const U64: int := 0x1_0000_0000_0000_0000

  /** Conversion of a floating value to an integer type in C++: truncation toward zero. */
  function Trunc(x: real): (r: int)
    ensures 0.0 <= x ==> 0 <= r && r as real <= x < r as real + 1.0
    ensures x < 0.0 ==> r <= 0 && r as real - 1.0 < x <= r as real
  {
    if x >= 0.0 then x.Floor else -((-x).Floor)
  }

  /** Conversion of a signed 64-bit value to `quint64` (two's complement wrap). */
  function ToU64(x: int): (r: nat)
    requires -U64 / 2 <= x < U64 / 2
    ensures r < U64
    ensures 0 <= x ==> r == x
    ensures x < 0 ==> r as int == x + U64
  {
    if x >= 0 then x else x + U64
  }
}
