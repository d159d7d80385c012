/** The window arithmetic of `TimeInterpolator.update`: how far the desired window reaches
    around a bracket index for each hint, the clamping of its bounds, and the choice
    between a full load, a shift to the left, a shift to the right or nothing. Modelled
    as written, including the places where it does not keep the window it aims for. */
module TimeWindow {

  function Max(a: int, b: int): int { if a >= b then a else b }
  function Min(a: int, b: int): int { if a <= b then a else b }

  /** `(n0, n1)`: how many steps the window reaches before and after the bracket index.
      Any hint other than "forward" and "backward" (including "left" and "right") takes
      the centered split. The backward split reaches one step further than the others. */
  function Split(hint: string, stack: int): (r: (int, int))
    ensures hint == "forward" ==> r == (1, stack - 1)
    ensures hint == "backward" ==> r == (stack + 1, 0)
    ensures hint != "backward" ==> r.0 + r.1 == stack
    ensures hint == "backward" ==> r.0 + r.1 == stack + 1
    ensures hint != "forward" && hint != "backward" ==> r.0 * 2 <= stack < r.0 * 2 + 2
    ensures hint != "forward" && hint != "backward" ==> 0 <= r.1 - r.0 <= 1
  {
    if hint == "forward" then (1, stack - 1)
    else if hint == "backward" then (stack + 1, 0)
    else (stack / 2, stack - stack / 2)
  }

  /** `(imin, imax)`, the desired window for bracket index `i` among `n` time steps. */
  function Bounds(i: int, hint: string, stack: int, n: int): (r: (int, int))
    ensures 0 <= r.0
    ensures r.1 <= n
    ensures r.0 == 0 ==> r.1 == Min(stack - 1, n - 1)
    ensures r.1 == n - 1 ==> r.0 == Max(n - stack, 0)
    ensures r.0 != 0 && r.1 != n - 1 ==> r == (i - Split(hint, stack).0, Min(i + Split(hint, stack).1, n))
  {
    var (n0, n1) := Split(hint, stack);
    var imin := Max(i - n0, 0);
    var imax := Min(i + n1, n);
    var imax' := if imin == 0 then Min(stack - 1, n - 1) else imax;
    var imin' := if imax' == n - 1 then Max(n - stack, 0) else imin;
    (imin', imax')
  }

  /** `np.arange(a, b)`: the integers from `a` up to but excluding `b`. */
  function Range(a: int, b: int): (r: seq<int>)
    ensures |r| == Max(b - a, 0)
    ensures forall k :: 0 <= k < |r| ==> r[k] == a + k
  {
    seq(if b > a then b - a else 0, k => a + k)
  }

  /** `(jmin, jmax)`: the first and last cached time steps, or `(0, 0)` for an empty cache. */
  function CachedSpan(steps: seq<int>): (r: (int, int))
    ensures |steps| > 0 ==> r == (steps[0], steps[|steps| - 1])
    ensures |steps| == 0 ==> r == (0, 0)
  {
    if |steps| > 0 then (steps[0], steps[|steps| - 1]) else (0, 0)
  }

  /** What `update` asks `load` to do. */
  datatype Plan = Load(ids: seq<int>, mode: string) | NoLoad

  /** The branch `update` takes for a cache holding `steps` and a desired window. */
  function ChooseLoad(steps: seq<int>, imin: int, imax: int): (r: Plan)
    ensures r.Load? ==> r.mode in {"full", "left", "right"}
    ensures var (jmin, jmax) := CachedSpan(steps);
      && (r.NoLoad? <==> jmin < jmax && jmin <= imin <= jmax && jmin <= imax <= jmax)
      && (r.Load? && r.mode == "full" <==> jmax <= jmin || imin > jmax || imax < jmin)
      && (r.Load? && r.mode == "full" ==> r.ids == Range(imin, imax))
      && (r.Load? && r.mode == "left" ==>
            imin < jmin <= imax && |r.ids| == jmin - imin &&
            forall k :: 0 <= k < |r.ids| ==> imin <= r.ids[k] < jmin)
      && (r.Load? && r.mode == "right" ==>
            jmin <= imin && jmax < imax && |r.ids| == imax - jmax &&
            forall k :: 0 <= k < |r.ids| ==> jmax < r.ids[k] <= imax)
  {
    var (jmin, jmax) := CachedSpan(steps);
    if jmax <= jmin || imin > jmax || imax < jmin then Load(Range(imin, imax), "full")
    else if imin < jmin then Load(Range(imin, jmin), "left")
    else if imax > jmax then Load(Range(jmax + 1, imax + 1), "right")
    else NoLoad
  }

  /** The window for the last bracket reaches index `n`, one past the last time step:
      with six steps and a stack of three, bracket 5 asks for steps 4 up to 6. */
  lemma LastBracketReachesPastEnd()
    ensures Bounds(5, "centered", 3, 6) == (4, 6)
  {
  }

  /** The first query on an empty cache loads only `stack - 1` steps, because the full
      load excludes `imax`. */
  lemma FirstLoadIsShort()
    ensures Bounds(1, "centered", 3, 6) == (0, 2)
    ensures ChooseLoad([], 0, 2) == Load([0, 1], "full")
  {
    assert Range(0, 2) == [0, 1];
  }

  /** The same query twice does not settle: a cache holding steps 1, 2, 3 is shifted right
      for bracket 2, and the shifted cache is shifted back left for the same bracket. */
  lemma SameBracketOscillates()
    ensures Bounds(2, "centered", 3, 10) == (1, 4)
    ensures ChooseLoad([1, 2, 3], 1, 4) == Load([4], "right")
    ensures ChooseLoad([2, 3, 4], 1, 4) == Load([1], "left")
  {
    assert Range(4, 5) == [4];
    assert Range(1, 2) == [1];
  }
}
