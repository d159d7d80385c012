/** The index arithmetic of the heightmap example (`heightmap.py`): the raster that
    `make_sinc` fills row by row and the repacking of an image's values onto the points
    of a sphere in `on_sphere`. `sqrt` and `sin` are left uninterpreted: they are passed
    in as functions. */
module Heightmap {
  import opened Wrappers

  /** Position of sample `(i, j)` in the flat raster of `n` samples per row. */
  function Idx(i: int, j: int, n: int): int
  {
    i + j * n
  }

  lemma MulMonotone(a: int, b: int, n: int)
    requires a <= b && 0 <= n
    ensures a * n <= b * n
  {
  }

  /** Row `j` of the raster occupies the positions `j*n .. j*n + n - 1`, inside `[0, n*n)`. */
  lemma IdxBounds(i: int, j: int, n: int)
    requires 0 <= i < n && 0 <= j < n
    ensures j * n <= Idx(i, j, n) < (j + 1) * n <= n * n
    ensures 0 <= j * n
  {
    MulMonotone(j + 1, n, n);
    MulMonotone(0, j, n);
  }

  /** Distinct samples have distinct positions. */
  lemma {:induction false} IdxInjective(i1: int, j1: int, i2: int, j2: int, n: int)
    requires 0 <= i1 < n && 0 <= j1 < n && 0 <= i2 < n && 0 <= j2 < n
    requires Idx(i1, j1, n) == Idx(i2, j2, n)
    ensures i1 == i2 && j1 == j2
  {
    IdxBounds(i1, j1, n);
    IdxBounds(i2, j2, n);
    if j1 < j2 {
      MulMonotone(j1 + 1, j2, n);
    } else if j2 < j1 {
      MulMonotone(j2 + 1, j1, n);
    }
  }

  /** Every position of the raster holds some sample: position `k` is sample
      `(k % n, k / n)`. */
  lemma {:induction false} IdxOnto(k: int, n: int)
    requires n > 0 && 0 <= k < n * n
    ensures 0 <= k / n < n && 0 <= k % n < n && Idx(k % n, k / n, n) == k
  {
    if k / n >= n {
      MulMonotone(n, k / n, n);
      assert false;
    }
  }

  /** The grid coordinate of sample `k` along either axis: `-width + k*dh` with
      `dh = 2*width/n`. */
  function Coord(k: int, n: int, width: real): real
    requires n != 0
  {
    -width + (k as real) * (2.0 * width / (n as real))
  }

  /** The samples run from `-width` in steps of `dh`; one step past the last sample is
      `+width`, so the raster covers `[-width, width)`. */
  lemma CoordRange(n: int, width: real)
    requires n > 0
    ensures Coord(0, n, width) == -width
    ensures Coord(n, n, width) == width
  {
    var dh := 2.0 * width / (n as real);
    assert (n as real) * dh == 2.0 * width;
  }

  /** The value `make_sinc` writes at the point `(x, y)`: one where the radius is zero,
      `sin(r)/r` elsewhere. */
  function SincAt(x: real, y: real, sqrt: real -> real, sin: real -> real): (v: real)
    ensures sqrt(x * x + y * y) == 0.0 ==> v == 1.0
    ensures sqrt(x * x + y * y) != 0.0 ==> v * sqrt(x * x + y * y) == sin(sqrt(x * x + y * y))
  {
    var r := sqrt(x * x + y * y);
    if r == 0.0 then 1.0 else sin(r) / r
  }

  /** The value of sample `(i, j)`. */
  function Sample(i: int, j: int, n: int, width: real, sqrt: real -> real, sin: real -> real): real
    requires n != 0
  {
    SincAt(Coord(i, n, width), Coord(j, n, width), sqrt, sin)
  }

  /** For an even `n`, sample `(n/2, n/2)` sits at the origin, so (with `sqrt(0) == 0`) it is
      exactly one. */
  lemma CentreSample(n: int, width: real, sqrt: real -> real, sin: real -> real)
    requires n > 0 && n % 2 == 0 && sqrt(0.0) == 0.0
    ensures Sample(n / 2, n / 2, n, width, sqrt, sin) == 1.0
  {
    var dh := 2.0 * width / (n as real);
    assert ((n / 2) as real) * 2.0 == n as real;
    assert ((n / 2) as real) * dh == width;
    assert Coord(n / 2, n, width) == 0.0;
    assert 0.0 * 0.0 + 0.0 * 0.0 == 0.0;
  }

  /** Every sample has a position inside the raster. */
  lemma IdxInRange(n: int)
    ensures forall i, j :: 0 <= i < n && 0 <= j < n ==> 0 <= Idx(i, j, n) < n * n
  {
    forall i, j | 0 <= i < n && 0 <= j < n
      ensures 0 <= Idx(i, j, n) < n * n
    {
      IdxBounds(i, j, n);
    }
  }

  /** Every sample of a row before row `j` sits before position `j*n`. */
  lemma EarlierRowsBefore(j: int, n: int)
    requires 0 <= j < n
    ensures forall jj, ii :: 0 <= jj < j && 0 <= ii < n ==> Idx(ii, jj, n) < j * n
  {
    forall jj, ii | 0 <= jj < j && 0 <= ii < n
      ensures Idx(ii, jj, n) < j * n
    {
      IdxBounds(ii, jj, n);
      MulMonotone(jj + 1, j, n);
    }
  }

  /** The image's geometry: dimensions, spacing and origin. */
  datatype ImageGeometry = ImageGeometry(dims: (int, int, int), spacing: (real, real, real), origin: (real, real, real))

  /** The image `make_sinc` builds: its geometry and its scalar array. */
  datatype SincImage = SincImage(geometry: ImageGeometry, data: array<real>)

  /** `make_sinc(n, width)`. With `n == 0` the spacing divides by zero (None). Otherwise
      the array has `n*n` entries and sample `(i, j)` sits at position `i + j*n`; for a
      negative `n` the loops do not run and the array stays zero. */
  method MakeSinc(n: int, width: real, sqrt: real -> real, sin: real -> real) returns (r: Option<SincImage>)
    ensures r.None? <==> n == 0
    ensures r.Some? ==> fresh(r.value.data) && r.value.data.Length == n * n
    ensures r.Some? ==> forall i, j :: 0 <= i < n && 0 <= j < n ==>
      Idx(i, j, n) < r.value.data.Length && r.value.data[Idx(i, j, n)] == Sample(i, j, n, width, sqrt, sin)
    ensures r.Some? && n < 0 ==> forall k :: 0 <= k < n * n ==> r.value.data[k] == 0.0
    ensures r.Some? ==> r.value.geometry == ImageGeometry((n, n, 1), (2.0 * width / (n as real), 2.0 * width / (n as real), 1.0), (-width, width, 0.0))
  {
    if n == 0 {
      return None;
    }
    var dh := 2.0 * width / (n as real);
    var data := new real[n * n](_ => 0.0);
    IdxInRange(n);
    var j := 0;
    while j < n
      invariant 0 <= j && (n < 0 ==> j == 0) && (n > 0 ==> j <= n)
      invariant n < 0 ==> forall k :: 0 <= k < data.Length ==> data[k] == 0.0
      invariant forall jj, ii :: 0 <= jj < j && 0 <= ii < n ==> data[Idx(ii, jj, n)] == Sample(ii, jj, n, width, sqrt, sin)
    {
      var y := -width + (j as real) * dh;
      EarlierRowsBefore(j, n);
      IdxBounds(0, j, n);
      FillRow(data, n, j, j * n, y, width, sqrt, sin);
      j := j + 1;
    }
    return Some(SincImage(ImageGeometry((n, n, 1), (dh, dh, 1.0), (-width, width, 0.0)), data));
  }

  /** The inner loop of `make_sinc`: writes the samples of row `j`, at height `y`, into
      the `n` positions from `base = j*n` on, and nothing outside them. */
  method FillRow(data: array<real>, n: int, j: int, base: int, y: real, width: real, sqrt: real -> real, sin: real -> real)
    requires 0 <= j < n && 0 <= base && base + n <= data.Length && y == Coord(j, n, width)
    modifies data
    ensures forall ii :: 0 <= ii < n ==> data[base + ii] == Sample(ii, j, n, width, sqrt, sin)
    ensures forall k :: 0 <= k < data.Length && (k < base || base + n <= k) ==> data[k] == old(data[k])
  {
    var dh := 2.0 * width / (n as real);
    var i := 0;
    while i < n
      invariant 0 <= i <= n
      invariant forall ii :: 0 <= ii < i ==> data[base + ii] == Sample(ii, j, n, width, sqrt, sin)
      invariant forall k :: 0 <= k < data.Length && (k < base || base + n <= k) ==> data[k] == old(data[k])
    {
      var x := -width + (i as real) * dh;
      assert x == Coord(i, n, width);
      data[base + i] := SincAt(x, y, sqrt, sin);
      i := i + 1;
    }
  }

  /** The image is placed with its first row at `y = +width` while the samples were
      computed from `y = -width`: for a positive width, no row of the image sits where its
      values were sampled. */
  lemma OriginDisagreesWithSamples(n: int, width: real, j: int)
    requires n > 0 && width > 0.0
    ensures width + (j as real) * (2.0 * width / (n as real)) != Coord(j, n, width)
  {
  }

  /** The values `on_sphere` gives the sphere, or None where the source raises: the south
      pole takes the first image value, the north pole the last, and the rows strictly
      between the first and the last follow in order. */
  function SpherePacking(w: nat, h: nat, values: seq<real>): (r: Option<seq<real>>)
    requires |values| == w * h
    ensures r.Some? <==> w >= 1 && h >= 2
    ensures r.Some? ==> |r.value| == 2 + w * (h - 2)
    ensures r.Some? ==> r.value[0] == values[0] && r.value[1] == values[|values| - 1]
    ensures r.Some? ==> forall k :: 2 <= k < |r.value| ==> r.value[k] == values[w + k - 2]
  {
    if w >= 1 && h >= 2 then
      assert w * h == w * (h - 2) + 2 * w;
      Some([values[0], values[|values| - 1]] + values[w..(h - 1) * w])
    else
      None
  }

  /** `on_sphere(image)`: the new array is filled by index for the poles and by a slice
      assignment for the rest. Where the source raises (a negative or too short array, an
      empty image) the result is `false`. */
  method OnSphere(w: nat, h: nat, values: seq<real>) returns (ok: bool, newValues: array<real>)
    requires |values| == w * h
    ensures ok <==> SpherePacking(w, h, values).Some?
    ensures ok ==> fresh(newValues) && newValues[..] == SpherePacking(w, h, values).value
  {
    var size := 2 + w * (h - 2);
    if size < 2 || |values| == 0 {
      return false, new real[0];
    }
    assert w >= 1 && h >= 2 by {
      if h < 2 {
        MulMonotone(h - 2, -1, w);
      }
    }
    newValues := new real[size](_ => 0.0);
    newValues[0] := values[0];
    newValues[1] := values[|values| - 1];
    assert w * h == w * (h - 2) + 2 * w;
    var k := 0;
    while k < w * (h - 2)
      invariant 0 <= k <= w * (h - 2)
      invariant newValues[0] == values[0] && newValues[1] == values[|values| - 1]
      invariant forall m :: 2 <= m < 2 + k ==> newValues[m] == values[w + m - 2]
    {
      newValues[2 + k] := values[w + k];
      k := k + 1;
    }
    ok := true;
    var packed := SpherePacking(w, h, values).value;
    assert forall m :: 0 <= m < size ==> newValues[m] == packed[m];
    assert newValues[..] == packed;
  }
}
