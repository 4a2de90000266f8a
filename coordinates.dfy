/** Pixel coordinates to the normalized range [-1, 1]: x grows to the right,
    y is flipped so that it grows upwards (pixel rows grow downwards). The
    doubling `event << 1` is exact here; its overflow is not modelled. */
module Coordinates {

  function NdcX(px: int, width: int): (x: real)
    requires width > 0
    ensures 0 <= px <= width <==> -1.0 <= x <= 1.0
    ensures px == 0 ==> x == -1.0
    ensures px == width ==> x == 1.0
    ensures PixelOfNdcX(x, width) == px as real
  {
    var p, w := px as real, width as real;
    DoubleOverDivides(p, w);
    UnitRange(p, w);
    DivideThenScale(p, w);
    (2 * px) as real / width as real - 1.0
  }

  /** The pixel column a normalized x came from. */
  function PixelOfNdcX(x: real, width: int): real
    requires width > 0
  {
    (x + 1.0) * width as real / 2.0
  }

  function NdcY(py: int, height: int): (y: real)
    requires height > 0
    ensures y == -NdcX(py, height)
    ensures 0 <= py <= height <==> -1.0 <= y <= 1.0
    ensures py == 0 ==> y == 1.0
    ensures py == height ==> y == -1.0
  {
    var a, h := (2 * py) as real, height as real;
    NegationOverDivides(a, h);
    (-a) / h + 1.0
  }

  /** The aspect ratio of a pixel size. */
  function Ratio(w: int, h: int): real
    requires h > 0
  {
    w as real / h as real
  }

  /** Doubling the dividend doubles the quotient. */
  lemma DoubleOverDivides(p: real, w: real)
    requires w > 0.0
    ensures (2.0 * p) / w == 2.0 * (p / w)
  {
  }

  /** Negating the dividend negates the quotient. */
  lemma NegationOverDivides(a: real, h: real)
    requires h > 0.0
    ensures (-a) / h == -(a / h)
  {
  }

  /** A quotient by a positive w lies in [0, 1] exactly when the dividend lies in [0, w]. */
  lemma UnitRange(p: real, w: real)
    requires w > 0.0
    ensures 0.0 <= p <= w <==> 0.0 <= p / w <= 1.0
  {
    assert p == (p / w) * w;
  }

  /** Dividing by w and scaling back by w is the identity. */
  lemma DivideThenScale(p: real, w: real)
    requires w > 0.0
    ensures (p / w) * w == p
  {
  }

  /** Moving the pointer right never moves the normalized x left. */
  lemma NdcXMonotone(p: int, q: int, width: int)
    requires width > 0 && p <= q
    ensures NdcX(p, width) <= NdcX(q, width)
  {
    assert (2 * q) as real - (2 * p) as real >= 0.0;
    assert NdcX(q, width) - NdcX(p, width) == ((2 * q) as real - (2 * p) as real) / width as real;
  }
}
