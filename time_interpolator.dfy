/** `TimeInterpolator` from `vtk_interpolation.py`: time steps sorted by time on
    construction, a cache of per-step field snapshots held in two deques that move in
    lockstep, its `load` and `update` operations, and the linear blend between two
    snapshots' values. The dataset reader is an abstract function from file name to
    point data. Modelled as written: the full load leaves out `imax` and appends without
    clearing, and the left shift stores the new steps in descending order. */
module TimeInterpolation {
  import opened Wrappers
  import opened PyStr
  import opened VtkKinds
  import opened FieldSampler
  import opened TimeWindow

  // ---------------------------------------------------------------------------
  // Sorting by time (TimeInterpolator.__init__)

  function Indices(n: nat): (r: seq<nat>)
    ensures |r| == n && forall k :: 0 <= k < n ==> r[k] == k
  {
    seq(n, k => k)
  }

  predicate AllBelow(p: seq<nat>, n: nat)
  {
    forall a :: 0 <= a < |p| ==> p[a] < n
  }

  /** `p` lists positions of `times` in order of non-decreasing time. */
  predicate SortedBy(times: seq<real>, p: seq<nat>)
    requires AllBelow(p, |times|)
  {
    forall a, b :: 0 <= a < b < |p| ==> times[p[a]] <= times[p[b]]
  }

  /** Inserts position `k` into `p` after every position whose time is not later. */
  function Insert(times: seq<real>, p: seq<nat>, k: nat): (r: seq<nat>)
    requires k < |times| && AllBelow(p, |times|)
    ensures |r| == |p| + 1 && AllBelow(r, |times|)
    ensures multiset(r) == multiset(p) + multiset{k}
    decreases |p|
  {
    if |p| == 0 then [k]
    else if times[k] < times[p[0]] then [k] + p
    else
      assert p == [p[0]] + p[1..];
      [p[0]] + Insert(times, p[1..], k)
  }

  lemma {:induction false} InsertBounded(times: seq<real>, p: seq<nat>, k: nat, lo: real)
    requires k < |times| && AllBelow(p, |times|)
    requires lo <= times[k] && forall a :: 0 <= a < |p| ==> lo <= times[p[a]]
    ensures forall a :: 0 <= a < |p| + 1 ==> lo <= times[Insert(times, p, k)[a]]
    decreases |p|
  {
    if |p| > 0 && times[p[0]] <= times[k] {
      InsertBounded(times, p[1..], k, lo);
    }
  }

  lemma {:induction false} InsertSorted(times: seq<real>, p: seq<nat>, k: nat)
    requires k < |times| && AllBelow(p, |times|) && SortedBy(times, p)
    ensures SortedBy(times, Insert(times, p, k))
    decreases |p|
  {
    if |p| > 0 && times[p[0]] <= times[k] {
      InsertSorted(times, p[1..], k);
      InsertBounded(times, p[1..], k, times[p[0]]);
    }
  }

  /** The positions `0 .. n-1` of `times`, ordered by time; ties keep their order. */
  function ArgSortPrefix(times: seq<real>, n: nat): (r: seq<nat>)
    requires n <= |times|
    ensures |r| == n && AllBelow(r, |times|)
    ensures multiset(r) == multiset(Indices(n))
  {
    if n == 0 then []
    else
      assert Indices(n) == Indices(n - 1) + [n - 1];
      Insert(times, ArgSortPrefix(times, n - 1), n - 1)
  }

  lemma {:induction false} ArgSortPrefixSorted(times: seq<real>, n: nat)
    requires n <= |times|
    ensures SortedBy(times, ArgSortPrefix(times, n))
  {
    if n > 0 {
      ArgSortPrefixSorted(times, n - 1);
      InsertSorted(times, ArgSortPrefix(times, n - 1), n - 1);
    }
  }

  /** The time steps of a `TimeInterpolator`, after sorting. */
  datatype TimeSteps = TimeSteps(order: seq<nat>, times: seq<real>, filenames: seq<string>)

  /** `np.argsort(times)` and the two list comprehensions: the times in ascending order and
      the file names permuted by the same permutation, so that each file stays with its
      time. File names beyond the number of times are dropped. */
  function SortByTime(times: seq<real>, filenames: seq<string>): (r: TimeSteps)
    requires |times| <= |filenames|
    ensures multiset(r.order) == multiset(Indices(|times|))
    ensures |r.times| == |r.filenames| == |r.order| == |times|
    ensures forall k :: 0 <= k < |times| ==>
      r.order[k] < |times| && r.times[k] == times[r.order[k]] && r.filenames[k] == filenames[r.order[k]]
    ensures forall a, b :: 0 <= a < b < |r.times| ==> r.times[a] <= r.times[b]
  {
    ArgSortPrefixSorted(times, |times|);
    var p := ArgSortPrefix(times, |times|);
    TimeSteps(p,
      seq(|p|, k requires 0 <= k < |p| => times[p[k]]),
      seq(|p|, k requires 0 <= k < |p| => filenames[p[k]]))
  }

  // ---------------------------------------------------------------------------
  // The snapshot cache (TimeInterpolator.load)

  /** The arrays of one time step, one per requested name; None for a name the step's
      point data does not hold (the source stores None there too). */
  type Snapshot = seq<Option<Field>>

  /** The lookups `load` makes: each name in `names` as an array of the point data. */
  function SnapshotOf(pd: PointData, names: seq<string>): (s: Snapshot)
    ensures |s| == |names|
  {
    seq(|names|, k requires 0 <= k < |names| => GetArray(pd, names[k]))
  }

  /** What `load` reads from: the sorted file names, the requested array names and the
      dataset reader, which gives None where it raises. */
  datatype Source = Source(
    filenames: seq<string>,
    names: seq<string>,
    importDataset: string -> Option<PointData>)

  /** The snapshot of time step `id`, when the file list has that index and the file reads. */
  function Loads(src: Source, id: int): Option<Snapshot>
  {
    match PyIndex(src.filenames, id)
    case None => None
    case Some(name) =>
      match src.importDataset(name)
      case None => None
      case Some(pd) => Some(SnapshotOf(pd, src.names))
  }

  /** The contents of the deques `cached_fields` and `cached_time_steps`. */
  datatype Cache = Cache(fields: seq<Snapshot>, steps: seq<int>)

  /** The deques have the same length and every cached snapshot is the data of the time
      step cached at the same position. */
  predicate Paired(src: Source, c: Cache)
  {
    |c.fields| == |c.steps| &&
    forall k :: 0 <= k < |c.steps| ==> Loads(src, c.steps[k]) == Some(c.fields[k])
  }

  const Modes: set<string> := {"full", "left", "right"}

  /** The pops that come before each read: none for "full", the last entry of each deque
      for "left", the first for "right"; popping an empty deque raises. */
  function PopFor(c: Cache, mode: string): (r: (Cache, Outcome<Error>))
  {
    if mode == "full" then (c, Pass)
    else if |c.fields| == 0 then (c, Fail(PopFromEmpty))
    else
      var fields := if mode == "left" then c.fields[..|c.fields| - 1] else c.fields[1..];
      if |c.steps| == 0 then (Cache(fields, c.steps), Fail(PopFromEmpty))
      else (Cache(fields, if mode == "left" then c.steps[..|c.steps| - 1] else c.steps[1..]), Pass)
  }

  /** One iteration of a `load` loop for time step `id`: pop (for a shift), read the file,
      then push on the left ("left") or on the right. A failure keeps what was popped. */
  function StepLoad(src: Source, c: Cache, id: int, mode: string): (r: (Cache, Outcome<Error>))
  {
    var (c1, o) := PopFor(c, mode);
    if o.Fail? then (c1, o)
    else
      match PyIndex(src.filenames, id)
      case None => (c1, Fail(IndexOutOfRange))
      case Some(name) =>
        match src.importDataset(name)
        case None => (c1, Fail(LoadFailure(name)))
        case Some(pd) =>
          var s := SnapshotOf(pd, src.names);
          if mode == "left" then (Cache([s] + c1.fields, [id] + c1.steps), Pass)
          else (Cache(c1.fields + [s], c1.steps + [id]), Pass)
  }

  /** `load(ids, _case)`: one step per id in order, stopping at the first failure; an
      unknown case does nothing. */
  function LoadAll(src: Source, c: Cache, ids: seq<int>, mode: string): (r: (Cache, Outcome<Error>))
    ensures mode !in Modes ==> r == (c, Pass)
    decreases |ids|
  {
    if mode !in Modes || |ids| == 0 then (c, Pass)
    else
      var s := StepLoad(src, c, ids[0], mode);
      if s.1.Fail? then s else LoadAll(src, s.0, ids[1..], mode)
  }

  lemma StepLoadPaired(src: Source, c: Cache, id: int, mode: string)
    requires mode in Modes && Paired(src, c)
    ensures Paired(src, StepLoad(src, c, id, mode).0)
  {
    var (c1, o) := PopFor(c, mode);
    assert Paired(src, c1);
  }

  /** Every load keeps the deques in lockstep and each snapshot beside its own time step,
      whether it succeeds or stops part way. */
  lemma {:induction false} LoadAllPaired(src: Source, c: Cache, ids: seq<int>, mode: string)
    requires Paired(src, c)
    ensures Paired(src, LoadAll(src, c, ids, mode).0)
    decreases |ids|
  {
    if mode in Modes && |ids| > 0 {
      StepLoadPaired(src, c, ids[0], mode);
      var s := StepLoad(src, c, ids[0], mode);
      if s.1.Pass? {
        LoadAllPaired(src, s.0, ids[1..], mode);
      }
    }
  }

  /** Every id of `ids` names a file that reads. */
  predicate AllLoad(src: Source, ids: seq<int>)
  {
    forall k :: 0 <= k < |ids| ==> Loads(src, ids[k]).Some?
  }

  /** A load succeeds exactly when its case is unknown, or every file reads and, for a
      shift with something to load, the cache is not empty. */
  lemma {:induction false} LoadAllSucceeds(src: Source, c: Cache, ids: seq<int>, mode: string)
    requires |c.fields| == |c.steps|
    ensures LoadAll(src, c, ids, mode).1 == Pass <==>
      mode !in Modes || (AllLoad(src, ids) && (mode == "full" || |ids| == 0 || |c.steps| > 0))
    decreases |ids|
  {
    if mode in Modes && |ids| > 0 {
      var s := StepLoad(src, c, ids[0], mode);
      StepLoadOutcome(src, c, ids[0], mode);
      LoadAllSucceeds(src, s.0, ids[1..], mode);
      AllLoadCons(src, ids);
    }
  }

  /** One step keeps the deques the same length; it succeeds exactly when the file reads
      and, for a shift, there was something to pop; a full step grows the cache by one. */
  lemma StepLoadOutcome(src: Source, c: Cache, id: int, mode: string)
    requires |c.fields| == |c.steps| && mode in Modes
    ensures var s := StepLoad(src, c, id, mode);
      && |s.0.fields| == |s.0.steps|
      && (s.1 == Pass <==> Loads(src, id).Some? && (mode == "full" || |c.steps| > 0))
      && (s.1 == Pass ==> |s.0.steps| == if mode == "full" then |c.steps| + 1 else |c.steps|)
  {
  }

  lemma AllLoadCons(src: Source, ids: seq<int>)
    requires |ids| > 0
    ensures AllLoad(src, ids) <==> Loads(src, ids[0]).Some? && AllLoad(src, ids[1..])
  {
    assert forall k :: 1 <= k < |ids| ==> ids[1..][k - 1] == ids[k];
  }

  /** A successful full load appends the ids, in order, after what was cached: it does not
      clear the cache first. */
  lemma {:induction false} LoadFullSteps(src: Source, c: Cache, ids: seq<int>)
    ensures var r := LoadAll(src, c, ids, "full");
      r.1 == Pass ==> r.0.steps == c.steps + ids && |r.0.fields| == |c.fields| + |ids|
    decreases |ids|
  {
    if |ids| > 0 {
      var s := StepLoad(src, c, ids[0], "full");
      LoadFullSteps(src, s.0, ids[1..]);
      assert c.steps + [ids[0]] + ids[1..] == c.steps + ids;
    }
  }

  /** A successful right shift drops one entry from the front per id and appends the ids
      in order, so the cache keeps its length. */
  lemma {:induction false} LoadRightSteps(src: Source, c: Cache, ids: seq<int>)
    ensures var r := LoadAll(src, c, ids, "right");
      r.1 == Pass ==> r.0.steps == (c.steps + ids)[|ids|..] && |r.0.fields| == |c.fields|
    decreases |ids|
  {
    if |ids| > 0 {
      var s := StepLoad(src, c, ids[0], "right");
      LoadRightSteps(src, s.0, ids[1..]);
      if s.1.Pass? {
        StepLoadRight(src, c, ids[0]);
        ShiftRight(c.steps, ids);
      }
    }
  }

  /** One successful right step drops the first entry of each deque and appends `id` to
      the steps. */
  lemma StepLoadRight(src: Source, c: Cache, id: int)
    requires StepLoad(src, c, id, "right").1.Pass?
    ensures |c.steps| > 0 && |c.fields| > 0
    ensures StepLoad(src, c, id, "right").0.steps == c.steps[1..] + [id]
    ensures |StepLoad(src, c, id, "right").0.fields| == |c.fields|
  {
  }

  lemma ShiftRight(t: seq<int>, ids: seq<int>)
    requires |t| > 0 && |ids| > 0
    ensures ((t[1..] + [ids[0]]) + ids[1..])[|ids[1..]|..] == (t + ids)[|ids|..]
  {
    assert (t[1..] + [ids[0]]) + ids[1..] == (t + ids)[1..];
  }

  function Reverse(s: seq<int>): (r: seq<int>)
    ensures |r| == |s| && forall k :: 0 <= k < |s| ==> r[k] == s[|s| - 1 - k]
  {
    if |s| == 0 then [] else Reverse(s[1..]) + [s[0]]
  }

  /** A successful left shift drops one entry from the back per id and pushes each id on
      the front, so the new steps end up in descending order ahead of the kept ones. */
  lemma {:induction false} LoadLeftSteps(src: Source, c: Cache, ids: seq<int>)
    ensures var r := LoadAll(src, c, ids, "left");
      r.1 == Pass ==> r.0.steps == (Reverse(ids) + c.steps)[..|c.steps|] && |r.0.fields| == |c.fields|
    decreases |ids|
  {
    if |ids| > 0 {
      var s := StepLoad(src, c, ids[0], "left");
      LoadLeftSteps(src, s.0, ids[1..]);
      if s.1.Pass? {
        StepLoadLeft(src, c, ids[0]);
        PushFrontReversed(ids, c.steps);
      }
    }
  }

  /** One successful left step drops the last entry of each deque and pushes `id` on the
      front of the steps. */
  lemma StepLoadLeft(src: Source, c: Cache, id: int)
    requires StepLoad(src, c, id, "left").1.Pass?
    ensures |c.steps| > 0 && |c.fields| > 0
    ensures StepLoad(src, c, id, "left").0.steps == [id] + c.steps[..|c.steps| - 1]
    ensures |StepLoad(src, c, id, "left").0.fields| == |c.fields|
  {
  }

  /** Pushing `ids[0]` on the front of the shortened steps and then the rest of `ids`
      reversed is the same, up to the old length, as pushing all of `ids` reversed. */
  lemma PushFrontReversed(ids: seq<int>, steps: seq<int>)
    requires |ids| > 0 && |steps| > 0
    ensures (Reverse(ids[1..]) + ([ids[0]] + steps[..|steps| - 1]))[..|steps|] == (Reverse(ids) + steps)[..|steps|]
  {
    ReverseFirst(ids);
    Associate(Reverse(ids[1..]), [ids[0]], steps[..|steps| - 1]);
    DropLastKeepsPrefix(Reverse(ids[1..]) + [ids[0]], steps);
  }

  lemma ReverseFirst(s: seq<int>)
    requires |s| > 0
    ensures Reverse(s) == Reverse(s[1..]) + [s[0]]
  {
  }

  lemma Associate(a: seq<int>, b: seq<int>, c: seq<int>)
    ensures a + (b + c) == (a + b) + c
  {
  }

  lemma DropLastKeepsPrefix(p: seq<int>, t: seq<int>)
    requires |p| >= 1 && |t| >= 1
    ensures (p + t[..|t| - 1])[..|t|] == (p + t)[..|t|]
  {
    assert p + t[..|t| - 1] == (p + t)[..|p| + |t| - 1];
  }

  /** Three ids loaded to the left of a cache holding steps 3, 4, 5 leave it holding
      2, 1, 3: the shifted cache is not in ascending order. */
  lemma LeftShiftReverses(src: Source, c: Cache)
    requires |src.filenames| >= 3 && forall name :: src.importDataset(name).Some?
    requires c.steps == [3, 4, 5] && |c.fields| == 3
    ensures LoadAll(src, c, [1, 2], "left").1 == Pass
    ensures LoadAll(src, c, [1, 2], "left").0.steps == [2, 1, 3]
  {
    LoadAllSucceeds(src, c, [1, 2], "left");
    LoadLeftSteps(src, c, [1, 2]);
    assert Reverse([1, 2]) == [2, 1];
  }

  // ---------------------------------------------------------------------------
  // TimeInterpolator.update

  /** `update(i, hint)` on a cache: reject the two out-of-range brackets, compute the
      desired window and load what `ChooseLoad` asks for. */
  function UpdateSpec(src: Source, c: Cache, i: int, hint: string, stack: int, n: int): (r: (Cache, Outcome<Error>))
    ensures i == 0 || i == n ==> r == (c, Fail(BracketOutOfBounds))
    ensures i != 0 && i != n && ChooseLoad(c.steps, Bounds(i, hint, stack, n).0, Bounds(i, hint, stack, n).1).NoLoad? ==> r == (c, Pass)
  {
    if i == 0 || i == n then (c, Fail(BracketOutOfBounds))
    else
      var (imin, imax) := Bounds(i, hint, stack, n);
      match ChooseLoad(c.steps, imin, imax)
      case NoLoad => (c, Pass)
      case Load(ids, mode) => LoadAll(src, c, ids, mode)
  }

  /** An update never breaks the pairing of snapshots with time steps. */
  lemma UpdatePaired(src: Source, c: Cache, i: int, hint: string, stack: int, n: int)
    requires Paired(src, c)
    ensures Paired(src, UpdateSpec(src, c, i, hint, stack, n).0)
  {
    if i != 0 && i != n {
      var (imin, imax) := Bounds(i, hint, stack, n);
      match ChooseLoad(c.steps, imin, imax)
      case NoLoad =>
      case Load(ids, mode) => LoadAllPaired(src, c, ids, mode);
    }
  }

  /** A query far from what is cached appends a new window after the old one: with ten
      steps and a stack of three, steps 0 and 1 cached and bracket 5 give 0, 1, 4, 5, 6. */
  lemma FullLoadKeepsOldSteps(src: Source, c: Cache)
    requires |src.filenames| == 10 && forall name :: src.importDataset(name).Some?
    requires c.steps == [0, 1] && |c.fields| == 2
    ensures UpdateSpec(src, c, 5, "centered", 3, 10).1 == Pass
    ensures UpdateSpec(src, c, 5, "centered", 3, 10).0.steps == [0, 1, 4, 5, 6]
  {
    assert Bounds(5, "centered", 3, 10) == (4, 7);
    assert Range(4, 7) == [4, 5, 6];
    LoadAllSucceeds(src, c, [4, 5, 6], "full");
    LoadFullSteps(src, c, [4, 5, 6]);
  }

  /** The last bracket cannot be queried twice: with six steps and a stack of three, the
      first `update(5)` on an empty cache loads steps 4 and 5, and the second asks for
      step 6, which does not exist, after dropping step 4. */
  lemma LastBracketTwiceFails(src: Source)
    requires |src.filenames| == 6 && forall name :: src.importDataset(name).Some?
    ensures var first := UpdateSpec(src, Cache([], []), 5, "centered", 3, 6);
      && first.1 == Pass && first.0.steps == [4, 5]
      && UpdateSpec(src, first.0, 5, "centered", 3, 6).1 == Fail(IndexOutOfRange)
      && UpdateSpec(src, first.0, 5, "centered", 3, 6).0.steps == [5]
  {
    var c0 := Cache([], []);
    assert Bounds(5, "centered", 3, 6) == (4, 6);
    assert Range(4, 6) == [4, 5];
    LoadAllSucceeds(src, c0, [4, 5], "full");
    LoadFullSteps(src, c0, [4, 5]);
    var c1 := UpdateSpec(src, c0, 5, "centered", 3, 6).0;
    assert c1.steps == [4, 5];
    assert ChooseLoad(c1.steps, 4, 6) == Load([6], "right") by {
      assert Range(6, 7) == [6];
    }
    assert [6][1..] == [];
  }

  // ---------------------------------------------------------------------------
  // The blend at the end of TimeInterpolator.__call__

  /** `__call__` first rejects times outside `[times[0], times[-1]]`; an empty list of
      times raises on the indexing itself. */
  function CheckTime(t: real, times: seq<real>): (r: Outcome<Error>)
    ensures r == Pass <==> |times| > 0 && times[0] <= t <= times[|times| - 1]
    ensures r.Fail? ==> r.error == (if |times| == 0 then IndexOutOfRange else TimeOutOfRange)
  {
    if |times| == 0 then Fail(IndexOutOfRange)
    else if t < times[0] || t > times[|times| - 1] then Fail(TimeOutOfRange)
    else Pass
  }

  predicate Between(x: real, a: real, b: real)
  {
    (a <= x <= b) || (b <= x <= a)
  }

  lemma BlendComponent(u: real, a: real, b: real)
    requires 0.0 <= u <= 1.0
    ensures Between((1.0 - u) * a + u * b, a, b)
  {
    var x := (1.0 - u) * a + u * b;
    assert x - a == u * (b - a);
    assert b - x == (1.0 - u) * (b - a);
    if a <= b {
      ProductNonnegative(u, b - a);
      ProductNonnegative(1.0 - u, b - a);
    } else {
      ProductNonnegative(u, a - b);
      ProductNonnegative(1.0 - u, a - b);
    }
  }

  lemma ProductNonnegative(x: real, y: real)
    requires 0.0 <= x && 0.0 <= y
    ensures 0.0 <= x * y
  {
  }

  /** `(1-u)*v0 + u*v1` on one field's value: it starts at `v0`, ends at `v1`, and for `u`
      in `[0, 1]` every component lies between the two snapshots' components. */
  function Blend(u: real, v0: seq<real>, v1: seq<real>): (r: seq<real>)
    requires |v0| == |v1|
    ensures |r| == |v0|
    ensures u == 0.0 ==> r == v0
    ensures u == 1.0 ==> r == v1
    ensures v0 == v1 ==> r == v0
    ensures 0.0 <= u <= 1.0 ==> forall c :: 0 <= c < |r| ==> Between(r[c], v0[c], v1[c])
  {
    var r := seq(|v0|, c requires 0 <= c < |v0| => (1.0 - u) * v0[c] + u * v1[c]);
    assert forall c :: 0 <= c < |v0| && v0[c] == v1[c] ==> r[c] == v0[c] by {
      forall c | 0 <= c < |v0| && v0[c] == v1[c] ensures r[c] == v0[c] {
        assert r[c] == (1.0 - u) * v0[c] + u * v0[c];
      }
    }
    assert 0.0 <= u <= 1.0 ==> forall c :: 0 <= c < |r| ==> Between(r[c], v0[c], v1[c]) by {
      if 0.0 <= u <= 1.0 {
        forall c | 0 <= c < |r| ensures Between(r[c], v0[c], v1[c]) {
          BlendComponent(u, v0[c], v1[c]);
        }
      }
    }
    r
  }

  /** The blend over `nfields` fields, given the values of the fields at the earlier step
      followed by those at the later step: a single blended value for one field, a list
      otherwise. Too few values raise IndexError. */
  function BlendValues(u: real, values: seq<seq<real>>, nfields: nat): (r: Result<PyArg<seq<real>>, Error>)
    requires forall i :: 0 <= i < nfields && i + nfields < |values| ==> |values[i]| == |values[i + nfields]|
    ensures r.Success? <==> |values| >= 2 * nfields
    ensures r.Failure? ==> r.error == IndexOutOfRange
    ensures r.Success? ==> (r.value.Single? <==> nfields == 1) && |SingletonAsArray(r.value)| == nfields
    ensures r.Success? ==> forall i :: 0 <= i < nfields ==>
      SingletonAsArray(r.value)[i] == Blend(u, values[i], values[i + nfields])
  {
    if |values| < 2 * nfields then Failure(IndexOutOfRange)
    else
      var all := BlendEach(u, values, nfields);
      if nfields == 1 then Success(Single(all[0])) else Success(Items(all))
  }

  /** The per-field blends, field `i` of the earlier step with field `i` of the later one. */
  function BlendEach(u: real, values: seq<seq<real>>, nfields: nat): (r: seq<seq<real>>)
    requires |values| >= 2 * nfields
    requires forall i :: 0 <= i < nfields && i + nfields < |values| ==> |values[i]| == |values[i + nfields]|
    ensures |r| == nfields
    ensures forall i :: 0 <= i < nfields ==> r[i] == Blend(u, values[i], values[i + nfields])
  {
    seq(nfields, i requires 0 <= i < nfields => Blend(u, values[i], values[i + nfields]))
  }

  /** At `u = 0` the blend gives the earlier step's values, at `u = 1` the later one's. */
  lemma BlendValuesEndpoints(u: real, values: seq<seq<real>>, nfields: nat)
    requires forall i :: 0 <= i < nfields && i + nfields < |values| ==> |values[i]| == |values[i + nfields]|
    requires |values| >= 2 * nfields
    ensures u == 0.0 ==> SingletonAsArray(BlendValues(u, values, nfields).value) == values[..nfields]
    ensures u == 1.0 ==> SingletonAsArray(BlendValues(u, values, nfields).value) == values[nfields..2 * nfields]
  {
    var r := SingletonAsArray(BlendValues(u, values, nfields).value);
    if u == 0.0 {
      assert forall i :: 0 <= i < nfields ==> r[i] == values[i];
    }
    if u == 1.0 {
      assert forall i :: 0 <= i < nfields ==> r[i] == values[i + nfields];
    }
  }

  // ---------------------------------------------------------------------------
  // The class

  class TimeInterpolator {
    /** The spatial interpolator built on the first file's dataset. */
    const sampler: InterpolatorBase
    const times: seq<real>
    const filenames: seq<string>
    const fieldNames: seq<string>
    const stack: int
    const nfields: nat
    const importDataset: string -> Option<PointData>
    var cachedFields: seq<Snapshot>
    var cachedTimeSteps: seq<int>

    function Src(): Source
    {
      Source(filenames, fieldNames, importDataset)
    }

    function State(): Cache
      reads this
    {
      Cache(cachedFields, cachedTimeSteps)
    }

    predicate Valid()
      reads this
    {
      Paired(Src(), State())
    }

    /** `TimeInterpolator(times, filenames, attributes, stack)` once the base interpolator
        exists: sorts the steps by time and starts with an empty cache. */
    constructor (sampler: InterpolatorBase, times: seq<real>, filenames: seq<string>,
                 attributes: seq<string>, stack: int, importDataset: string -> Option<PointData>)
      requires |times| <= |filenames|
      ensures Valid()
      ensures this.sampler == sampler && this.fieldNames == attributes && this.stack == stack
      ensures this.nfields == |attributes| && this.importDataset == importDataset
      ensures this.times == SortByTime(times, filenames).times
      ensures this.filenames == SortByTime(times, filenames).filenames
      ensures cachedFields == [] && cachedTimeSteps == []
    {
      var sorted := SortByTime(times, filenames);
      this.sampler := sampler;
      this.filenames := sorted.filenames;
      this.times := sorted.times;
      this.fieldNames := attributes;
      this.stack := stack;
      this.importDataset := importDataset;
      this.cachedFields := [];
      this.cachedTimeSteps := [];
      this.nfields := |attributes|;
    }

    /** `TimeInterpolator.__init__`, with the first file's dataset class and point location
        given: an empty file list or fewer file names than times raise IndexError, and an
        unsupported dataset class raises ValueError. */
    static method Create(data: DataKind, locate: Point -> Option<Location>, raiseOobError: bool,
                         times: seq<real>, filenames: seq<string>, attributes: seq<string>,
                         stack: int, importDataset: string -> Option<PointData>)
      returns (r: Result<TimeInterpolator, Error>)
      ensures r.Failure? <==> |filenames| == 0 || data == NotDataSet || |times| > |filenames|
      ensures r.Failure? ==> r.error == (if |filenames| == 0 || data != NotDataSet then IndexOutOfRange else UnrecognizedDataset)
      ensures r.Success? ==> fresh(r.value) && r.value.Valid() && r.value.State() == Cache([], [])
      ensures r.Success? ==> r.value.times == SortByTime(times, filenames).times
      ensures r.Success? ==> r.value.filenames == SortByTime(times, filenames).filenames
    {
      if |filenames| == 0 {
        return Failure(IndexOutOfRange);
      }
      var base := InterpolatorBase.Create(data, locate, raiseOobError);
      if base.Failure? {
        return Failure(base.error);
      }
      if |times| > |filenames| {
        return Failure(IndexOutOfRange);
      }
      var intp := new TimeInterpolator(base.value, times, filenames, attributes, stack, importDataset);
      return Success(intp);
    }

    /** One iteration of a `load` loop: pop one entry of both deques for a shift, read the
        step's file and push its snapshot and id on the side the case names. */
    method LoadStep(id: int, mode: string) returns (o: Outcome<Error>)
      requires Valid() && mode in Modes
      modifies this
      ensures Valid()
      ensures (State(), o) == StepLoad(Src(), old(State()), id, mode)
    {
      StepLoadPaired(Src(), State(), id, mode);
      if mode == "left" {
        if |cachedFields| == 0 {
          return Fail(PopFromEmpty);
        }
        cachedFields := cachedFields[..|cachedFields| - 1];
        cachedTimeSteps := cachedTimeSteps[..|cachedTimeSteps| - 1];
      } else if mode == "right" {
        if |cachedFields| == 0 {
          return Fail(PopFromEmpty);
        }
        cachedFields := cachedFields[1..];
        cachedTimeSteps := cachedTimeSteps[1..];
      }
      var name := PyIndex(filenames, id);
      if name.None? {
        return Fail(IndexOutOfRange);
      }
      var pd := importDataset(name.value);
      if pd.None? {
        return Fail(LoadFailure(name.value));
      }
      var snapshot := SnapshotOf(pd.value, fieldNames);
      if mode == "left" {
        cachedFields := [snapshot] + cachedFields;
        cachedTimeSteps := [id] + cachedTimeSteps;
      } else {
        cachedFields := cachedFields + [snapshot];
        cachedTimeSteps := cachedTimeSteps + [id];
      }
      return Pass;
    }

    /** `load(ids, _case)`: the loop step for each id in turn, stopping at the first
        failure; an unknown case does nothing. */
    method Load(ids: seq<int>, mode: string) returns (o: Outcome<Error>)
      requires Valid()
      modifies this
      ensures Valid()
      ensures (State(), o) == LoadAll(Src(), old(State()), ids, mode)
    {
      if mode !in Modes {
        return Pass;
      }
      ghost var start := State();
      var k := 0;
      while k < |ids|
        invariant 0 <= k <= |ids|
        invariant Valid()
        invariant LoadAll(Src(), State(), ids[k..], mode) == LoadAll(Src(), start, ids, mode)
      {
        assert ids[k..][0] == ids[k] && ids[k..][1..] == ids[k + 1..];
        o := LoadStep(ids[k], mode);
        if o.Fail? {
          return;
        }
        k := k + 1;
      }
      return Pass;
    }

    /** `update(i, hint)`: reject the brackets 0 and `len(times)`, then load the part of
        the desired window that `ChooseLoad` picks. */
    method Update(i: int, hint: string) returns (o: Outcome<Error>)
      requires Valid()
      modifies this
      ensures Valid()
      ensures (State(), o) == UpdateSpec(Src(), old(State()), i, hint, stack, |times|)
    {
      if i == 0 || i == |times| {
        return Fail(BracketOutOfBounds);
      }
      var (imin, imax) := Bounds(i, hint, stack, |times|);
      var plan := ChooseLoad(cachedTimeSteps, imin, imax);
      match plan {
        case NoLoad => o := Pass;
        case Load(ids, mode) => o := Load(ids, mode);
      }
    }
  }
}
