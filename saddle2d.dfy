/** The arithmetic of the marching-squares saddle demo (`saddle_2d.py`): the bilinear
    interpolant over the unit square, its saddle point, and the choice of whether and
    how the saddle marker is drawn. */
module Saddle2D {

  /** The four corner values, by corner: `f10` is the value at `(1, 0)`. */
  datatype Coef = Coef(f00: real, f10: real, f01: real, f11: real)

  /** `bilinear(x, y, coef)`: it interpolates the four corners and reproduces a constant. */
  function Bilinear(x: real, y: real, c: Coef): (f: real)
    ensures x == 0.0 && y == 0.0 ==> f == c.f00
    ensures x == 1.0 && y == 0.0 ==> f == c.f10
    ensures x == 0.0 && y == 1.0 ==> f == c.f01
    ensures x == 1.0 && y == 1.0 ==> f == c.f11
    ensures c.f00 == c.f10 == c.f01 == c.f11 ==> f == c.f00
  {
    var f := c.f00 * (1.0 - x) * (1.0 - y) + c.f10 * x * (1.0 - y) + c.f01 * (1.0 - x) * y + c.f11 * x * y;
    assert c.f00 == c.f10 == c.f01 == c.f11 ==> f == c.f00 * ((1.0 - x) * (1.0 - y) + x * (1.0 - y) + (1.0 - x) * y + x * y);
    f
  }

  /** The denominator of the saddle formula, the coefficient of `x*y` in the interpolant. */
  function Denom(c: Coef): real
  {
    c.f11 - c.f10 - c.f01 + c.f00
  }

  /** The partial derivative in `x`, as the comment in `saddle` writes it; it depends on `y` only. */
  function DfDx(y: real, c: Coef): real
  {
    y * Denom(c) + (c.f10 - c.f00)
  }

  /** The partial derivative in `y`; it depends on `x` only. */
  function DfDy(x: real, c: Coef): real
  {
    x * Denom(c) + (c.f01 - c.f00)
  }

  /** The interpolant is linear along each axis, with the slopes `DfDx` and `DfDy`. */
  lemma BilinearSlopes(x: real, y: real, h: real, c: Coef)
    ensures Bilinear(x + h, y, c) - Bilinear(x, y, c) == h * DfDx(y, c)
    ensures Bilinear(x, y + h, c) - Bilinear(x, y, c) == h * DfDy(x, c)
  {
    assert Bilinear(x + h, y, c) - Bilinear(x, y, c) ==
      h * (c.f10 - c.f00) * (1.0 - y) + h * (c.f11 - c.f01) * y;
    assert Bilinear(x, y + h, c) - Bilinear(x, y, c) ==
      h * (c.f01 - c.f00) * (1.0 - x) + h * (c.f11 - c.f10) * x;
  }

  /** `saddle(coef)`: the sentinel `[-1, -1, 0]` exactly when the interpolant has no `x*y`
      term, and otherwise the point where both partial derivatives vanish. */
  function Saddle(c: Coef): (s: seq<real>)
    ensures Denom(c) == 0.0 <==> s == [-1.0, -1.0, 0.0]
    ensures Denom(c) != 0.0 ==> |s| == 2 && DfDx(s[1], c) == 0.0 && DfDy(s[0], c) == 0.0
  {
    var d := Denom(c);
    if d == 0.0 then [-1.0, -1.0, 0.0]
    else
      var s := [(c.f00 - c.f01) / d, (c.f00 - c.f10) / d];
      assert s[1] * d == c.f00 - c.f10;
      assert s[0] * d == c.f00 - c.f01;
      s
  }

  /** Around the saddle the interpolant is a hyperbolic paraboloid: moving by `(h, k)`
      changes it by exactly `Denom * h * k`. */
  lemma {:induction false} SaddleIsHyperbolic(c: Coef, h: real, k: real)
    requires Denom(c) != 0.0
    ensures var s := Saddle(c);
      Bilinear(s[0] + h, s[1] + k, c) == Bilinear(s[0], s[1], c) + Denom(c) * h * k
  {
    var s := Saddle(c);
    var x, y := s[0], s[1];
    BilinearSlopes(x, y + k, h, c);
    BilinearSlopes(x, y, k, c);
    calc {
      Bilinear(x + h, y + k, c);
      Bilinear(x, y + k, c) + h * DfDx(y + k, c);
      Bilinear(x, y, c) + k * DfDy(x, c) + h * DfDx(y + k, c);
      { assert DfDy(x, c) == 0.0; }
      Bilinear(x, y, c) + h * DfDx(y + k, c);
      { assert DfDx(y + k, c) == DfDx(y, c) + k * Denom(c); }
      Bilinear(x, y, c) + h * (DfDx(y, c) + k * Denom(c));
      { assert DfDx(y, c) == 0.0; }
      Bilinear(x, y, c) + Denom(c) * h * k;
    }
  }

  datatype Colour = Red | Blue | White

  /** The saddle marker: hidden, or a sphere centred at `(x, y, z)` in a colour. */
  datatype Marker = Hidden | Shown(x: real, y: real, z: real, colour: Colour)

  /** The marker part of `make_data`: shown only when the saddle lies in the unit square,
      at the height of the scaled interpolant there, red above zero, blue below and white
      on it. The sentinel never passes the test, so a degenerate cell shows no marker. */
  function MarkerFor(c: Coef, scale: real): (m: Marker)
    ensures m.Shown? <==> Denom(c) != 0.0 && 0.0 <= Saddle(c)[0] <= 1.0 && 0.0 <= Saddle(c)[1] <= 1.0
    ensures m.Shown? ==> m.x == Saddle(c)[0] && m.y == Saddle(c)[1]
    ensures m.Shown? ==> m.z == scale * Bilinear(m.x, m.y, c)
    ensures m.Shown? ==> (m.colour == Red <==> Bilinear(m.x, m.y, c) > 0.0)
    ensures m.Shown? ==> (m.colour == Blue <==> Bilinear(m.x, m.y, c) < 0.0)
  {
    var s := Saddle(c);
    if s[0] >= 0.0 && s[0] <= 1.0 && s[1] >= 0.0 && s[1] <= 1.0 then
      var z := Bilinear(s[0], s[1], c);
      Shown(s[0], s[1], scale * z, if z > 0.0 then Red else if z < 0.0 then Blue else White)
    else
      Hidden
  }

  datatype Corner = C00 | C10 | C01 | C11

  /** The slider callbacks: the slider's integer value divided by 100 becomes the corner's
      coefficient; the other corners keep theirs. */
  function OnSlider(c: Coef, corner: Corner, val: int): (r: Coef)
    ensures -100 <= val <= 100 ==>
      -1.0 <= (match corner case C00 => r.f00 case C10 => r.f10 case C01 => r.f01 case C11 => r.f11) <= 1.0
    ensures corner != C00 ==> r.f00 == c.f00
    ensures corner != C10 ==> r.f10 == c.f10
    ensures corner != C01 ==> r.f01 == c.f01
    ensures corner != C11 ==> r.f11 == c.f11
    ensures (match corner case C00 => r.f00 case C10 => r.f10 case C01 => r.f01 case C11 => r.f11) * 100.0 == val as real
  {
    var v := val as real / 100.0;
    match corner
    case C00 => c.(f00 := v)
    case C10 => c.(f10 := v)
    case C01 => c.(f01 := v)
    case C11 => c.(f11 := v)
  }
}
