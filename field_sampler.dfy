/** The spatial half of `vtk_interpolation.py`: the small `_Utils` helpers, the choice of
    point-location strategy by dataset class, and `InterpolatorBase.interpolate`, which
    sums weighted field rows over the points of the cell that holds the query point.
    Point location itself (VTK's `FindCell`) is an abstract function handed to the
    interpolator. */
module FieldSampler {
  import opened Wrappers
  import opened PyStr
  import opened VtkKinds

  /** Everything the interpolation code raises, by the situation that raises it. */
  datatype Error =
    | OutOfDomain            // `_locate` found no cell (ValueError)
    | UnrecognizedDataset    // `InterpolatorBase.__init__` on an unsupported class (ValueError)
    | IndexOutOfRange        // a list, deque or array index out of range (IndexError)
    | BracketOutOfBounds     // `update` called with i == 0 or i == len(times)
    | TimeOutOfRange         // `__call__` with a time outside [times[0], times[-1]]
    | PopFromEmpty           // `pop`/`popleft` on an empty deque (IndexError)
    | LoadFailure(filename: string)   // the dataset reader failed on that file

  // ---------------------------------------------------------------------------
  // _Utils._singleton_as_array / _singleton_as_scalar

  /** A Python value that is either a single item or a list of items. */
  datatype PyArg<T> = Single(item: T) | Items(items: seq<T>)

  /** `_singleton_as_array`: a value that is not a list becomes a one-element list;
      a list is returned as it is. */
  function SingletonAsArray<T>(v: PyArg<T>): seq<T>
  {
    match v
    case Single(x) => [x]
    case Items(xs) => xs
  }

  /** `_singleton_as_scalar`: a one-element list is unwrapped to its element; a list of
      any other length is returned as it is. Wrapping the result again gives back the
      original list, whatever its length. */
  function SingletonAsScalar<T>(v: seq<T>): (r: PyArg<T>)
    ensures SingletonAsArray(r) == v
    ensures r.Single? <==> |v| == 1
  {
    if |v| == 1 then Single(v[0]) else Items(v)
  }

  /** Unwrapping after wrapping is the identity on single values, and on lists other
      than one-element lists. */
  lemma WrapThenUnwrap<T>(v: PyArg<T>)
    ensures v.Single? ==> SingletonAsScalar(SingletonAsArray(v)) == v
    ensures v.Items? ==> (SingletonAsScalar(SingletonAsArray(v)) == v <==> |v.items| != 1)
  {
  }

  // ---------------------------------------------------------------------------
  // Point data and _Utils._get_attribute

  /** A numpy 2-D array holding one field: one row of `width` components per point. */
  datatype Field = Field(width: nat, rows: seq<seq<real>>)

  /** Every row of the array has `width` components, as numpy guarantees. */
  predicate Rectangular(f: Field)
  {
    forall i :: 0 <= i < |f.rows| ==> |f.rows[i]| == f.width
  }

  /** A dataset's point data: the active scalars, vectors and tensors, if set, and the
      arrays by name. */
  datatype PointData = PointData(
    scalars: Option<Field>,
    vectors: Option<Field>,
    tensors: Option<Field>,
    arrays: map<string, Field>)

  /** `GetPointData().GetArray(name)`: None when no array has that name. */
  function GetArray(pd: PointData, name: string): Option<Field>
  {
    if name in pd.arrays then Some(pd.arrays[name]) else None
  }

  /** What `_get_attribute` reads for a name. */
  datatype Attribute = ActiveScalars | ActiveVectors | ActiveTensors | NamedArray(name: string)

  /** The six names that `_get_attribute` reserves, in lower case. */
  const ReservedNames: set<string> :=
    {"scalar", "scalars", "vector", "vectors", "tensor", "tensors"}

  /** The attribute `_get_attribute` selects: the reserved names match in any letter case;
      any other name is looked up as an array under exactly the name given. */
  function AttributeFor(name: string): (a: Attribute)
    ensures a.NamedArray? <==> Lower(name) !in ReservedNames
    ensures a.NamedArray? ==> a.name == name
    ensures a == ActiveScalars <==> Lower(name) in {"scalar", "scalars"}
    ensures a == ActiveVectors <==> Lower(name) in {"vector", "vectors"}
  {
    var l := Lower(name);
    if l == "scalar" || l == "scalars" then ActiveScalars
    else if l == "vector" || l == "vectors" then ActiveVectors
    else if l == "tensor" || l == "tensors" then ActiveTensors
    else NamedArray(name)
  }

  /** `_Utils._get_attribute(dataset, name)`. */
  function GetAttribute(pd: PointData, name: string): Option<Field>
  {
    match AttributeFor(name)
    case ActiveScalars => pd.scalars
    case ActiveVectors => pd.vectors
    case ActiveTensors => pd.tensors
    case NamedArray(n) => GetArray(pd, n)
  }

  /** Two names that differ only in letter case select the same reserved attribute. */
  lemma AttributeIgnoresCase(a: string, b: string)
    requires Lower(a) == Lower(b)
    requires Lower(a) in ReservedNames
    ensures GetAttribute(PointData(None, None, None, map[]), a) == None
    ensures forall pd :: GetAttribute(pd, a) == GetAttribute(pd, b)
  {
  }

  // ---------------------------------------------------------------------------
  // InterpolatorBase.__init__: choice of point-location strategy

  /** How points are located: with a `vtkCellTreeLocator` built over an explicit point
      set, or by the image or rectilinear grid itself. */
  datatype LocatorKind = CellTreeLocator | DatasetAsLocator

  /** The dispatch of `InterpolatorBase.__init__`: point sets get a cell tree, image data
      and rectilinear grids locate points themselves, and anything else is refused. */
  function LocatorFor(kind: DataKind): (r: Result<LocatorKind, Error>)
    ensures r.Success? <==> kind != NotDataSet
    ensures r == Success(CellTreeLocator) <==> IsPointSet(kind)
    ensures r.Failure? ==> r.error == UnrecognizedDataset
  {
    if IsPointSet(kind) then Success(CellTreeLocator)
    else if kind.ImageData? || kind.RectilinearGrid? then Success(DatasetAsLocator)
    else Failure(UnrecognizedDataset)
  }

  // ---------------------------------------------------------------------------
  // The weighted sum of InterpolatorBase.interpolate

  datatype Point = Point(x: real, y: real, z: real)

  /** What `_locate` gives for a point in the domain: the cell, its point ids and the
      weights that `FindCell` wrote (into a buffer of eight in the source). */
  datatype Location = Location(cellId: nat, pointIds: seq<nat>, weights: seq<real>)

  function Zeros(n: nat): (r: seq<real>)
    ensures |r| == n && forall c :: 0 <= c < n ==> r[c] == 0.0
  {
    seq(n, c => 0.0)
  }

  /** `acc + w * row`, component by component. */
  function AddScaled(acc: seq<real>, w: real, row: seq<real>): (r: seq<real>)
    requires |row| == |acc|
    ensures |r| == |acc|
    ensures forall c :: 0 <= c < |acc| ==> r[c] == acc[c] + w * row[c]
  {
    seq(|acc|, c requires 0 <= c < |acc| => acc[c] + w * row[c])
  }

  /** Every `weights[i]` and every `f[ids[i]]` the sum reads exists. */
  predicate Reachable(ids: seq<nat>, weights: seq<real>, f: Field)
  {
    |ids| <= |weights| && forall i :: 0 <= i < |ids| ==> ids[i] < |f.rows|
  }

  /** The sum of `weights[i] * f[ids[i]]` over the cell's points, accumulated in point
      order from the zero vector. */
  function CellSum(ids: seq<nat>, weights: seq<real>, f: Field): (r: seq<real>)
    requires Rectangular(f) && Reachable(ids, weights, f)
    ensures |r| == f.width
    decreases |ids|
  {
    if |ids| == 0 then Zeros(f.width)
    else
      var n := |ids| - 1;
      AddScaled(CellSum(ids[..n], weights, f), weights[n], f.rows[ids[n]])
  }

  /** The sum of the first `n` weights. */
  function WeightSum(weights: seq<real>, n: nat): real
    requires n <= |weights|
  {
    if n == 0 then 0.0 else WeightSum(weights, n - 1) + weights[n - 1]
  }

  /** One more point of the cell adds its weighted row to the running sum. */
  lemma CellSumStep(ids: seq<nat>, weights: seq<real>, f: Field)
    requires Rectangular(f) && Reachable(ids, weights, f) && |ids| > 0
    ensures Reachable(ids[..|ids| - 1], weights, f)
    ensures forall c :: 0 <= c < f.width ==>
      CellSum(ids, weights, f)[c] ==
        CellSum(ids[..|ids| - 1], weights, f)[c] + weights[|ids| - 1] * f.rows[ids[|ids| - 1]][c]
  {
  }

  /** A field that has the same value `v` at every point of the cell interpolates to the
      weight total times `v`. */
  lemma {:induction false} ConstantFieldScaled(ids: seq<nat>, weights: seq<real>, f: Field, v: seq<real>)
    requires Rectangular(f) && Reachable(ids, weights, f) && |v| == f.width
    requires forall i :: 0 <= i < |ids| ==> f.rows[ids[i]] == v
    ensures forall c :: 0 <= c < |v| ==> CellSum(ids, weights, f)[c] == WeightSum(weights, |ids|) * v[c]
  {
    if |ids| > 0 {
      var n := |ids| - 1;
      var pre := ids[..n];
      CellSumStep(ids, weights, f);
      assert forall i :: 0 <= i < |pre| ==> pre[i] == ids[i];
      ConstantFieldScaled(pre, weights, f, v);
      assert f.rows[ids[n]] == v;
      forall c | 0 <= c < |v|
        ensures CellSum(ids, weights, f)[c] == WeightSum(weights, |ids|) * v[c]
      {
        Distribute(WeightSum(weights, n), weights[n], v[c]);
      }
    }
  }

  /** With weights that sum to one (barycentric or trilinear weights), a field that is
      constant over the cell is reproduced exactly. */
  lemma ConstantFieldReproduced(ids: seq<nat>, weights: seq<real>, f: Field, v: seq<real>)
    requires Rectangular(f) && Reachable(ids, weights, f) && |v| == f.width
    requires forall i :: 0 <= i < |ids| ==> f.rows[ids[i]] == v
    requires WeightSum(weights, |ids|) == 1.0
    ensures CellSum(ids, weights, f) == v
  {
    ConstantFieldScaled(ids, weights, f, v);
  }

  lemma Distribute(s: real, w: real, x: real)
    ensures s * x + w * x == (s + w) * x
  {
  }

  /** Weights that single out point `k` of the cell (one there, zero elsewhere) give
      exactly the field's row at that point. */
  lemma {:induction false} VertexReproduced(ids: seq<nat>, weights: seq<real>, f: Field, k: nat)
    requires Rectangular(f) && Reachable(ids, weights, f) && k < |ids|
    requires weights[k] == 1.0
    requires forall i :: 0 <= i < |ids| && i != k ==> weights[i] == 0.0
    ensures CellSum(ids, weights, f) == f.rows[ids[k]]
  {
    VertexPrefix(ids, weights, f, k, |ids|);
    assert ids[..|ids|] == ids;
  }

  lemma {:induction false} VertexPrefix(ids: seq<nat>, weights: seq<real>, f: Field, k: nat, m: nat)
    requires Rectangular(f) && Reachable(ids, weights, f) && k < |ids| && m <= |ids|
    requires weights[k] == 1.0
    requires forall i :: 0 <= i < |ids| && i != k ==> weights[i] == 0.0
    ensures CellSum(ids[..m], weights, f) == if m > k then f.rows[ids[k]] else Zeros(f.width)
  {
    if m > 0 {
      VertexPrefix(ids, weights, f, k, m - 1);
      assert ids[..m][..m - 1] == ids[..m - 1];
    }
  }

  // ---------------------------------------------------------------------------
  // InterpolatorBase

  /** The result of `interpolate`: None for a point outside the domain in lenient mode,
      otherwise the per-field values, each unwrapped when it has one component and the
      list unwrapped when it holds one field. */
  datatype Sample = NoValue | Value(v: PyArg<PyArg<real>>)

  /** The nested loop of `interpolate` reads `weights[i]` and `f[id]` only when there is
      at least one field, so only then can it raise IndexError. */
  predicate InRange(loc: Location, fields: seq<Field>)
  {
    |fields| == 0 || forall j :: 0 <= j < |fields| ==> Reachable(loc.pointIds, loc.weights, fields[j])
  }

  /** What `interpolate` returns (or raises) for a location outcome, a strictness flag and
      the fields. */
  function Interpolated(loc: Option<Location>, strict: bool, fields: seq<Field>): Result<Sample, Error>
    requires forall j :: 0 <= j < |fields| ==> Rectangular(fields[j])
  {
    match loc
    case None => if strict then Failure(OutOfDomain) else Success(NoValue)
    case Some(l) =>
      if !InRange(l, fields) then Failure(IndexOutOfRange)
      else Success(Value(SingletonAsScalar(seq(|fields|, j requires 0 <= j < |fields| =>
        SingletonAsScalar(CellSum(l.pointIds, l.weights, fields[j]))))))
  }

  /** The inner loop of `interpolate`: adds point `i` of the cell to the running value of
      every field, failing (IndexError) when its weight or its row in some field is missing. */
  method AddPoint(ids: seq<nat>, weights: seq<real>, i: nat, fs: seq<Field>, vals: seq<seq<real>>)
    returns (ok: bool, out: seq<seq<real>>)
    requires i < |ids| && |vals| == |fs|
    requires forall j :: 0 <= j < |fs| ==> Rectangular(fs[j]) && Reachable(ids[..i], weights, fs[j])
    requires forall j :: 0 <= j < |fs| ==> vals[j] == CellSum(ids[..i], weights, fs[j])
    ensures ok <==> InRange(Location(0, ids[..i + 1], weights), fs)
    ensures ok ==> |out| == |fs|
    ensures ok ==> forall j :: 0 <= j < |fs| ==>
      Reachable(ids[..i + 1], weights, fs[j]) && out[j] == CellSum(ids[..i + 1], weights, fs[j])
  {
    var id := ids[i];
    var pre := ids[..i + 1];
    assert pre[..i] == ids[..i] && pre[i] == id;
    out := vals;
    var j := 0;
    while j < |fs|
      invariant 0 <= j <= |fs| && |out| == |fs|
      invariant j > 0 ==> i < |weights|
      invariant forall k :: 0 <= k < j ==> Reachable(pre, weights, fs[k]) && out[k] == CellSum(pre, weights, fs[k])
      invariant forall k :: j <= k < |fs| ==> out[k] == vals[k]
    {
      if i >= |weights| || id >= |fs[j].rows| {
        assert !Reachable(pre, weights, fs[j]);
        return false, out;
      }
      out := out[j := AddScaled(out[j], weights[i], fs[j].rows[id])];
      j := j + 1;
    }
    return true, out;
  }

  class InterpolatorBase {
    const data: DataKind
    const locator: LocatorKind
    /** The point location of the dataset's geometry (VTK's `FindCell`). */
    const locate: Point -> Option<Location>
    const oobError: bool

    constructor (data: DataKind, locate: Point -> Option<Location>, raiseOobError: bool)
      requires LocatorFor(data).Success?
      ensures this.data == data && this.locator == LocatorFor(data).value
      ensures this.locate == locate && this.oobError == raiseOobError
    {
      this.data := data;
      this.locator := LocatorFor(data).value;
      this.locate := locate;
      this.oobError := raiseOobError;
    }

    /** `InterpolatorBase(vtk_data, raise_oob_error)`: raises ValueError for a dataset
        class without a location strategy. */
    static method Create(data: DataKind, locate: Point -> Option<Location>, raiseOobError: bool)
      returns (r: Result<InterpolatorBase, Error>)
      ensures r.Failure? <==> data == NotDataSet
      ensures r.Failure? ==> r.error == UnrecognizedDataset
      ensures r.Success? ==> fresh(r.value) && r.value.data == data
      ensures r.Success? ==> r.value.locator == LocatorFor(data).value
      ensures r.Success? ==> r.value.locate == locate && r.value.oobError == raiseOobError
    {
      match LocatorFor(data)
      case Failure(e) => r := Failure(e);
      case Success(_) =>
        var intp := new InterpolatorBase(data, locate, raiseOobError);
        r := Success(intp);
    }

    /** `interpolate(p, fields)`: locates `p`, then for every point of its cell and every
        field adds `weights[i] * f[id]` to that field's running value. */
    method Interpolate(p: Point, fields: PyArg<Field>) returns (r: Result<Sample, Error>)
      requires forall j :: 0 <= j < |SingletonAsArray(fields)| ==> Rectangular(SingletonAsArray(fields)[j])
      ensures r == Interpolated(locate(p), oobError, SingletonAsArray(fields))
    {
      var fs := SingletonAsArray(fields);
      var loc := locate(p);
      if loc.None? {
        if oobError {
          return Failure(OutOfDomain);
        }
        return Success(NoValue);
      }
      var ids, weights := loc.value.pointIds, loc.value.weights;
      var vals := seq(|fs|, j requires 0 <= j < |fs| => Zeros(fs[j].width));
      var i := 0;
      while i < |ids|
        invariant 0 <= i <= |ids| && |vals| == |fs|
        invariant forall j :: 0 <= j < |fs| ==> Reachable(ids[..i], weights, fs[j])
        invariant forall j :: 0 <= j < |fs| ==> vals[j] == CellSum(ids[..i], weights, fs[j])
      {
        var ok;
        ok, vals := AddPoint(ids, weights, i, fs, vals);
        if !ok {
          return Failure(IndexOutOfRange);
        }
        i := i + 1;
      }
      assert ids[..i] == ids;
      var values := seq(|vals|, j requires 0 <= j < |vals| => SingletonAsScalar(vals[j]));
      assert values == seq(|fs|, j requires 0 <= j < |fs| => SingletonAsScalar(CellSum(ids, weights, fs[j])));
      r := Success(Value(SingletonAsScalar(values)));
    }
  }
}
