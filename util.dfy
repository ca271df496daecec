/** The array helpers: `np_shift`, which shifts an array by `num` places into a
    fresh array padded with a fill value, and `np_stack`, which pairs two
    columns and drops every row holding a missing (NaN) value. */
module Util {
  import opened Wrappers
  import opened Http

  /** A float cell: a number (an infinity is kept as an ordinary number) or the
      missing-value marker NaN. */
  datatype Float = Num(v: real) | NaN

  /** `s` shifted by `num` places: towards the end for a positive `num`, towards
      the start for a negative one, with `fill` in the places left empty. */
  function Shift<T>(s: seq<T>, num: int, fill: T): (r: seq<T>)
    ensures |r| == |s|
  {
    seq(|s|, i requires 0 <= i < |s| => if 0 <= i - num < |s| then s[i - num] else fill)
  }

  /** A shift by 0 leaves the sequence as it is. */
  lemma ShiftZero<T>(s: seq<T>, fill: T)
    ensures Shift(s, 0, fill) == s
  {
  }

  /** A positive shift fills the first `num` places and moves the rest along. */
  lemma ShiftPositive<T>(s: seq<T>, num: int, fill: T)
    requires num > 0
    ensures forall i :: 0 <= i < |s| && i < num ==> Shift(s, num, fill)[i] == fill
    ensures forall i :: num <= i < |s| ==> Shift(s, num, fill)[i] == s[i - num]
  {
  }

  /** A negative shift moves the sequence back and fills the last `-num` places. */
  lemma ShiftNegative<T>(s: seq<T>, num: int, fill: T)
    requires num < 0
    ensures forall i :: 0 <= i < |s| + num ==> Shift(s, num, fill)[i] == s[i - num]
    ensures forall i :: 0 <= i < |s| && |s| + num <= i ==> Shift(s, num, fill)[i] == fill
  {
  }

  /** Two shifts in the same direction add up. */
  lemma ShiftsAdd<T>(s: seq<T>, a: int, b: int, fill: T)
    requires (a >= 0 && b >= 0) || (a <= 0 && b <= 0)
    ensures Shift(Shift(s, a, fill), b, fill) == Shift(s, a + b, fill)
  {
    var l := Shift(Shift(s, a, fill), b, fill);
    var r := Shift(s, a + b, fill);
    forall i | 0 <= i < |s|
      ensures l[i] == r[i]
    {
    }
  }

  /** Shifting back undoes a shift on the places that were kept. */
  lemma ShiftBack<T>(s: seq<T>, num: int, fill: T)
    ensures forall i :: 0 <= i < |s| && 0 <= i + num < |s| ==> Shift(Shift(s, num, fill), -num, fill)[i] == s[i]
  {
  }

  /** `np_shift`: a new array of the same length holding `arr` shifted by `num`,
      filled by the same slice assignments; `arr` itself is left unchanged. */
  method NpShift<T>(arr: array<T>, num: int, fill: T) returns (result: array<T>)
    ensures fresh(result) && result.Length == arr.Length
    ensures result[..] == Shift(arr[..], num, fill)
    ensures arr[..] == old(arr[..])
  {
    var n := arr.Length;
    // `np.empty_like`: every cell is written below
    result := new T[n](_ => fill);
    ghost var want := Shift(arr[..], num, fill);
    if num > 0 {
      var k := if num < n then num else n;
      // result[:num] = fill
      for i := 0 to k
        invariant forall j :: 0 <= j < i ==> result[j] == want[j]
      {
        result[i] := fill;
      }
      // result[num:] = arr[:-num]
      for i := k to n
        invariant forall j :: 0 <= j < i ==> result[j] == want[j]
      {
        result[i] := arr[i - num];
      }
    } else if num < 0 {
      var k := if n + num > 0 then n + num else 0;
      // result[num:] = fill
      for i := k to n
        invariant forall j :: k <= j < i ==> result[j] == want[j]
      {
        result[i] := fill;
      }
      // result[:num] = arr[-num:]
      for i := 0 to k
        invariant forall j :: k <= j < n ==> result[j] == want[j]
        invariant forall j :: 0 <= j < i ==> result[j] == want[j]
      {
        result[i] := arr[i - num];
      }
    } else {
      // result[:] = arr
      for i := 0 to n
        invariant forall j :: 0 <= j < i ==> result[j] == want[j]
      {
        result[i] := arr[i];
      }
    }
  }

  /** Whether row `i` of the two columns holds no missing value. */
  predicate Complete(x: seq<Float>, y: seq<Float>, i: int)
    requires |x| == |y|
  {
    0 <= i < |x| && x[i].Num? && y[i].Num?
  }

  /** The rows `np_stack` keeps, filtered as a boolean mask: both columns'
      cells of every row without a missing value, in row order. */
  function KeepComplete(x: seq<Float>, y: seq<Float>): (r: (seq<Float>, seq<Float>))
    requires |x| == |y|
    ensures |r.0| == |r.1| <= |x|
  {
    if x == [] then ([], [])
    else
      var n := |x|;
      var rest := KeepComplete(x[..n - 1], y[..n - 1]);
      if x[n - 1].Num? && y[n - 1].Num? then (rest.0 + [x[n - 1]], rest.1 + [y[n - 1]]) else rest
  }

  /** The indices of the complete rows, in increasing order. */
  function CompleteRows(x: seq<Float>, y: seq<Float>): seq<nat>
    requires |x| == |y|
  {
    if x == [] then []
    else
      var n := |x|;
      CompleteRows(x[..n - 1], y[..n - 1]) + (if x[n - 1].Num? && y[n - 1].Num? then [n - 1] else [])
  }

  /** The cells of `s` at the indices `rows`, in that order. */
  function Gather(s: seq<Float>, rows: seq<nat>): (r: seq<Float>)
    requires forall k :: 0 <= k < |rows| ==> rows[k] < |s|
    ensures |r| == |rows|
  {
    seq(|rows|, k requires 0 <= k < |rows| => s[rows[k]])
  }

  /** The complete rows are exactly the rows without a missing value, listed
      once each in increasing order. */
  lemma {:induction false} CompleteRowsExact(x: seq<Float>, y: seq<Float>)
    requires |x| == |y|
    ensures forall k :: 0 <= k < |CompleteRows(x, y)| ==> Complete(x, y, CompleteRows(x, y)[k])
    ensures forall k, l :: 0 <= k < l < |CompleteRows(x, y)| ==> CompleteRows(x, y)[k] < CompleteRows(x, y)[l]
    ensures forall i :: Complete(x, y, i) ==> i in CompleteRows(x, y)
  {
    if x != [] {
      var n := |x|;
      var xi, yi := x[..n - 1], y[..n - 1];
      CompleteRowsExact(xi, yi);
      var init := CompleteRows(xi, yi);
      assert forall k :: 0 <= k < |init| ==> Complete(xi, yi, init[k]);
      forall k | 0 <= k < |init|
        ensures init[k] < n - 1 && Complete(x, y, init[k])
      {
        assert xi[init[k]] == x[init[k]] && yi[init[k]] == y[init[k]];
      }
      var rows := CompleteRows(x, y);
      assert rows == init + (if x[n - 1].Num? && y[n - 1].Num? then [n - 1] else []);
      forall k, l | 0 <= k < l < |rows|
        ensures rows[k] < rows[l]
      {
        if l < |init| {
          assert rows[k] == init[k] && rows[l] == init[l];
        } else {
          assert rows[k] == init[k] && rows[l] == n - 1;
        }
      }
      forall i | Complete(x, y, i)
        ensures i in CompleteRows(x, y)
      {
        if i < n - 1 {
          assert Complete(x[..n - 1], y[..n - 1], i);
        }
      }
    }
  }

  /** Gathering from a prefix reads the same cells as from the whole. */
  lemma GatherPrefix(s: seq<Float>, n: nat, rows: seq<nat>)
    requires n <= |s|
    requires forall k :: 0 <= k < |rows| ==> rows[k] < n
    ensures Gather(s[..n], rows) == Gather(s, rows)
  {
  }

  /** Gathering one more index appends its cell. */
  lemma GatherSnoc(s: seq<Float>, rows: seq<nat>, i: nat)
    requires forall k :: 0 <= k < |rows| ==> rows[k] < |s|
    requires i < |s|
    ensures Gather(s, rows + [i]) == Gather(s, rows) + [s[i]]
  {
  }

  /** Filtering by the mask picks the complete rows of each column. */
  lemma {:induction false} KeepCompleteGathers(x: seq<Float>, y: seq<Float>)
    requires |x| == |y|
    ensures forall k :: 0 <= k < |CompleteRows(x, y)| ==> CompleteRows(x, y)[k] < |x|
    ensures KeepComplete(x, y) == (Gather(x, CompleteRows(x, y)), Gather(y, CompleteRows(x, y)))
  {
    if x != [] {
      var n := |x|;
      var xi, yi := x[..n - 1], y[..n - 1];
      KeepCompleteGathers(xi, yi);
      var init := CompleteRows(xi, yi);
      assert forall k :: 0 <= k < |init| ==> init[k] < n - 1;
      GatherPrefix(x, n - 1, init);
      GatherPrefix(y, n - 1, init);
      var rest := KeepComplete(xi, yi);
      assert rest == (Gather(x, init), Gather(y, init));
      if x[n - 1].Num? && y[n - 1].Num? {
        assert CompleteRows(x, y) == init + [n - 1];
        assert KeepComplete(x, y) == (rest.0 + [x[n - 1]], rest.1 + [y[n - 1]]);
        GatherSnoc(x, init, n - 1);
        GatherSnoc(y, init, n - 1);
      } else {
        assert CompleteRows(x, y) == init + [];
        assert init + [] == init;
      }
    }
  }

  /** `np_stack`: columns of different lengths cannot be stacked; otherwise
      both columns of every row without a missing value, in row order. */
  function NpStack(x: seq<Float>, y: seq<Float>): (r: Result<(seq<Float>, seq<Float>), Error>)
    ensures r.Failure? <==> |x| != |y|
    ensures r.Success? ==> |r.value.0| == |r.value.1|
    ensures r.Success? ==> forall k :: 0 <= k < |r.value.0| ==> r.value.0[k].Num? && r.value.1[k].Num?
  {
    if |x| != |y| then
      Failure(ValueError("all the input array dimensions except for the concatenation axis must match exactly"))
    else
      var r := KeepComplete(x, y);
      KeepCompleteGathers(x, y);
      CompleteRowsExact(x, y);
      Success(r)
  }

  /** Row k of the stacked result is the k-th complete input row: rows are kept
      exactly when neither cell is missing, and their order is kept. */
  lemma NpStackKeepsCompleteRows(x: seq<Float>, y: seq<Float>)
    requires |x| == |y|
    ensures var rows := CompleteRows(x, y);
      && NpStack(x, y).Success?
      && |NpStack(x, y).value.0| == |rows|
      && (forall k :: 0 <= k < |rows| ==>
            rows[k] < |x| && NpStack(x, y).value.0[k] == x[rows[k]] && NpStack(x, y).value.1[k] == y[rows[k]])
      && (forall k, l :: 0 <= k < l < |rows| ==> rows[k] < rows[l])
      && (forall i :: Complete(x, y, i) <==> i in rows)
  {
    KeepCompleteGathers(x, y);
    CompleteRowsExact(x, y);
  }
}
