/**
 * Small pieces of Python and numpy semantics that the rest of the model
 * relies on: an optional value, `int()` applied to a float, indexing and
 * slicing of Python sequences, decimal digits, and rectangular 2-D arrays.
 */
module Basics {

  datatype Option<T> = None | Some(value: T)

  /** Python's `int(r)` on a float: truncation toward zero. */
  function Trunc(r: real): (n: int)
    ensures 0.0 <= r ==> n as real <= r < n as real + 1.0
    ensures r < 0.0 ==> n as real - 1.0 < r <= n as real
    ensures -1.0 < r < 1.0 ==> n == 0
  {
    if r >= 0.0 then r.Floor else -((-r).Floor)
  }

  /** A coordinate that lies in [0, k) truncates to an index in [0, k). */
  lemma TruncIndex(r: real, k: int)
    requires 0.0 <= r < k as real
    ensures 0 <= Trunc(r) < k
  {
  }

  /**
   * Python's `s[i]`: a negative index counts from the end, and an index
   * outside [-|s|, |s|) raises IndexError (None here).
   */
  function PyIndex<T>(s: seq<T>, i: int): (r: Option<T>)
    ensures r.Some? <==> -|s| <= i < |s|
    ensures 0 <= i < |s| ==> r == Some(s[i])
    ensures -|s| <= i < 0 ==> r == Some(s[|s| + i])
  {
    if 0 <= i < |s| then Some(s[i])
    else if -|s| <= i < 0 then Some(s[|s| + i])
    else None
  }

  function Min(a: int, b: int): int { if a <= b then a else b }

  /** Python's `s[i:j]` for non-negative bounds: both ends are clamped to |s|. */
  function PySlice<T>(s: seq<T>, i: nat, j: nat): (r: seq<T>)
    ensures |r| == if i <= j then Min(j, |s|) - Min(i, |s|) else 0
    ensures i <= j ==> forall k :: 0 <= k < |r| ==> r[k] == s[i + k]
  {
    if i <= j then s[Min(i, |s|)..Min(j, |s|)] else []
  }

  predicate IsDigit(c: char) { '0' <= c <= '9' }

  function DigitValue(c: char): int requires IsDigit(c) { c as int - '0' as int }

  function DigitChar(d: int): (c: char)
    requires 0 <= d < 10
    ensures IsDigit(c) && DigitValue(c) == d
  {
    ('0' as int + d) as char
  }

  /** Every row has the same length, as in a 2-D numpy array. */
  ghost predicate IsRect(g: seq<seq<real>>) {
    forall i, j :: 0 <= i < |g| && 0 <= j < |g| ==> |g[i]| == |g[j]|
  }

  /** A 2-D numpy array of floats, stored row by row. */
  type Grid = g: seq<seq<real>> | IsRect(g)

  /** `shape[0]` */
  function Height(g: Grid): nat { |g| }

  /** `shape[1]`; an array without rows is taken to have no columns. */
  function Width(g: Grid): (w: nat)
    ensures forall i :: 0 <= i < |g| ==> |g[i]| == w
  {
    if |g| == 0 then 0 else |g[0]|
  }

  /** `g[:, p]`: the p-th entry of every row. */
  function Column(g: Grid, p: nat): (c: seq<real>)
    requires p < Width(g)
    ensures |c| == Height(g)
    ensures forall i :: 0 <= i < |c| ==> c[i] == g[i][p]
  {
    seq(|g|, i requires 0 <= i < |g| => g[i][p])
  }
}
