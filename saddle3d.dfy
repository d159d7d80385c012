/** The arithmetic of the marching-cubes saddle demo (`saddle_3d.py`): a trilinear
    interpolant with the value `fneg` at two opposite corners of the unit cube and `fpos`
    at the six others, the fixed saddle at the cube's centre, the colour of the centre
    marker and the slider callbacks. */
module Saddle3D {

  datatype Coef = Coef(fneg: real, fpos: real)

  /** The basis polynomial that multiplies `fneg`. */
  function NegBasis(x: real, y: real, z: real): real
  {
    1.0 - x - y - z + x * y + y * z + x * z
  }

  /** The basis polynomial that multiplies `fpos`. */
  function PosBasis(x: real, y: real, z: real): real
  {
    x + y + z - x * y - x * z - y * z
  }

  /** `trilinear(x, y, z, coef)`. The two basis polynomials sum to one everywhere, so equal
      coefficients give that value everywhere. */
  function Trilinear(x: real, y: real, z: real, c: Coef): (f: real)
    ensures NegBasis(x, y, z) + PosBasis(x, y, z) == 1.0
    ensures c.fneg == c.fpos ==> f == c.fneg
  {
    c.fneg * NegBasis(x, y, z) + c.fpos * PosBasis(x, y, z)
  }

  /** The eight corners, numbered as the demo numbers its corner spheres. */
  function Corner(i: nat): (p: (real, real, real))
    requires i < 8
  {
    [(0.0, 0.0, 0.0), (1.0, 0.0, 0.0), (1.0, 1.0, 0.0), (0.0, 1.0, 0.0),
     (0.0, 0.0, 1.0), (1.0, 0.0, 1.0), (1.0, 1.0, 1.0), (0.0, 1.0, 1.0)][i]
  }

  /** Corners 0 and 6, the two the demo paints blue, carry `fneg`; the six yellow ones
      carry `fpos`. */
  lemma CornerValues(c: Coef, i: nat)
    requires i < 8
    ensures var (x, y, z) := Corner(i);
      Trilinear(x, y, z, c) == if i == 0 || i == 6 then c.fneg else c.fpos
  {
    var (x, y, z) := Corner(i);
    if i == 0 || i == 6 {
      assert NegBasis(x, y, z) == 1.0 && PosBasis(x, y, z) == 0.0;
    } else {
      assert NegBasis(x, y, z) == 0.0 && PosBasis(x, y, z) == 1.0;
    }
  }

  /** The partial derivative in `x`; by symmetry the others are the same in the other
      two coordinates. */
  function DfDx(y: real, z: real, c: Coef): real
  {
    (c.fpos - c.fneg) * (1.0 - y - z)
  }

  /** Moving along `x` changes the two basis polynomials by opposite amounts. */
  lemma BasisStepX(x: real, y: real, z: real, h: real)
    ensures NegBasis(x + h, y, z) - NegBasis(x, y, z) == -(h * (1.0 - y - z))
    ensures PosBasis(x + h, y, z) - PosBasis(x, y, z) == h * (1.0 - y - z)
  {
  }

  /** A step of the interpolant is the step of `PosBasis` times `fpos - fneg`. */
  lemma StepOfBasis(c: Coef, n0: real, n1: real, p0: real, p1: real, d: real)
    requires n1 - n0 == -d && p1 - p0 == d
    ensures (c.fneg * n1 + c.fpos * p1) - (c.fneg * n0 + c.fpos * p0) == d * (c.fpos - c.fneg)
  {
    assert c.fneg * n1 - c.fneg * n0 == c.fneg * (n1 - n0);
    assert c.fpos * p1 - c.fpos * p0 == c.fpos * (p1 - p0);
  }

  /** The interpolant is symmetric in its three coordinates. */
  lemma TrilinearSymmetric(x: real, y: real, z: real, c: Coef)
    ensures Trilinear(x, y, z, c) == Trilinear(y, x, z, c) == Trilinear(z, y, x, c)
  {
  }

  /** Along each axis the interpolant is linear, with slope `DfDx` of the other two
      coordinates. */
  lemma TrilinearSlope(x: real, y: real, z: real, h: real, c: Coef)
    ensures Trilinear(x + h, y, z, c) - Trilinear(x, y, z, c) == h * DfDx(y, z, c)
    ensures Trilinear(x, y + h, z, c) - Trilinear(x, y, z, c) == h * DfDx(x, z, c)
    ensures Trilinear(x, y, z + h, c) - Trilinear(x, y, z, c) == h * DfDx(x, y, c)
  {
    SlopeX(x, y, z, h, c);
    SlopeY(x, y, z, h, c);
    SlopeZ(x, y, z, h, c);
  }

  lemma SlopeY(x: real, y: real, z: real, h: real, c: Coef)
    ensures Trilinear(x, y + h, z, c) - Trilinear(x, y, z, c) == h * DfDx(x, z, c)
  {
    SlopeX(y, x, z, h, c);
    TrilinearSymmetric(x, y + h, z, c);
    TrilinearSymmetric(x, y, z, c);
  }

  lemma SlopeZ(x: real, y: real, z: real, h: real, c: Coef)
    ensures Trilinear(x, y, z + h, c) - Trilinear(x, y, z, c) == h * DfDx(x, y, c)
  {
    SlopeX(z, y, x, h, c);
    TrilinearSymmetric(x, y, z + h, c);
    TrilinearSymmetric(x, y, z, c);
    assert DfDx(y, x, c) == DfDx(x, y, c);
  }

  lemma SlopeX(x: real, y: real, z: real, h: real, c: Coef)
    ensures Trilinear(x + h, y, z, c) - Trilinear(x, y, z, c) == h * DfDx(y, z, c)
  {
    BasisStepX(x, y, z, h);
    StepOfBasis(c, NegBasis(x, y, z), NegBasis(x + h, y, z), PosBasis(x, y, z), PosBasis(x + h, y, z), h * (1.0 - y - z));
    assert h * (1.0 - y - z) * (c.fpos - c.fneg) == h * DfDx(y, z, c);
  }

  /** `saddle(coef)`: the centre of the cube whatever the coefficients; there all three
      partial derivatives vanish. */
  function Saddle(c: Coef): (s: (real, real, real))
    ensures DfDx(s.1, s.2, c) == 0.0 && DfDx(s.0, s.2, c) == 0.0 && DfDx(s.0, s.1, c) == 0.0
  {
    (0.5, 0.5, 0.5)
  }

  /** The value at the centre is a quarter of `fneg` plus three quarters of `fpos`. */
  lemma CentreValue(c: Coef)
    ensures Trilinear(0.5, 0.5, 0.5, c) == c.fneg / 4.0 + 3.0 * c.fpos / 4.0
  {
    assert NegBasis(0.5, 0.5, 0.5) == 0.25;
    assert PosBasis(0.5, 0.5, 0.5) == 0.75;
  }

  datatype Colour = Yellow | Blue | Grey

  /** The centre-marker colour of `make_data`: by the sign of the centre value. */
  function CentreColour(c: Coef): (col: Colour)
    ensures col == Yellow <==> 3.0 * c.fpos > -c.fneg
    ensures col == Blue <==> 3.0 * c.fpos < -c.fneg
  {
    CentreValue(c);
    var v := Trilinear(0.5, 0.5, 0.5, c);
    if v > 0.0 then Yellow else if v < 0.0 then Blue else Grey
  }

  /** `fpos_callback`: the slider value over 100. */
  function OnPosSlider(c: Coef, val: int): (r: Coef)
    ensures r.fneg == c.fneg && r.fpos * 100.0 == val as real
    ensures 0 <= val <= 100 ==> 0.0 <= r.fpos <= 1.0
  {
    c.(fpos := val as real / 100.0)
  }

  /** `fneg_callback`: the negated slider value over 100, so the slider's range gives
      `fneg` in `[-1, 0]`. */
  function OnNegSlider(c: Coef, val: int): (r: Coef)
    ensures r.fpos == c.fpos && r.fneg * 100.0 == -(val as real)
    ensures 0 <= val <= 100 ==> -1.0 <= r.fneg <= 0.0
  {
    c.(fneg := -(val as real / 100.0))
  }

  /** With both sliders in their range, the centre marker is yellow exactly when three
      times the positive slider exceeds the negative one. */
  lemma SliderColour(c: Coef, neg: int, pos: int)
    requires 0 <= neg <= 100 && 0 <= pos <= 100
    ensures CentreColour(OnNegSlider(OnPosSlider(c, pos), neg)) == Yellow <==> 3 * pos > neg
    ensures CentreColour(OnNegSlider(OnPosSlider(c, pos), neg)) == Grey <==> 3 * pos == neg
  {
    var r := OnNegSlider(OnPosSlider(c, pos), neg);
    assert 3.0 * r.fpos * 100.0 == 3.0 * (pos as real);
    assert -r.fneg * 100.0 == neg as real;
  }
}
