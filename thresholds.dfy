/** Threshold tables: the reference reading of an if/elif ladder over one score.

    A ladder whose guards are `score >= t1`, `score >= t2`, ... (tested from the
    highest threshold down) puts a score into the band numbered by how many
    thresholds it reaches; a ladder whose guards are `score > t` numbers its
    bands by how many thresholds the score strictly exceeds. This count is an
    independent restatement of a ladder: the classifiers in module Classify are
    tied to it in their contracts through FourEntries and ExceededTwo, and the
    facts below (range, monotonicity, exactly one band) hold of any table. */
module Thresholds {

  /** Thresholds listed from lowest to highest, no two equal. */
  predicate Ascending(ts: seq<real>) {
    forall i, j :: 0 <= i < j < |ts| ==> ts[i] < ts[j]
  }

  /** How many thresholds `x` reaches (`t <= x`): the band of an inclusive-lower-bound ladder. */
  function Reached(ts: seq<real>, x: real): (n: nat)
    ensures n <= |ts|
  {
    if ts == [] then 0 else (if ts[0] <= x then 1 else 0) + Reached(ts[1..], x)
  }

  /** How many thresholds `x` strictly exceeds (`t < x`): the band of an inclusive-upper-bound ladder. */
  function Exceeded(ts: seq<real>, x: real): (n: nat)
    ensures n <= |ts|
  {
    if ts == [] then 0 else (if ts[0] < x then 1 else 0) + Exceeded(ts[1..], x)
  }

  /** A larger score never lands in a lower band. */
  lemma {:induction false} ReachedMonotone(ts: seq<real>, x: real, y: real)
    requires x <= y
    ensures Reached(ts, x) <= Reached(ts, y)
  {
    if ts != [] {
      ReachedMonotone(ts[1..], x, y);
    }
  }

  lemma {:induction false} ExceededMonotone(ts: seq<real>, x: real, y: real)
    requires x <= y
    ensures Exceeded(ts, x) <= Exceeded(ts, y)
  {
    if ts != [] {
      ExceededMonotone(ts[1..], x, y);
    }
  }

  /** With an ascending table, band `n` is exactly the half-open interval
      `[ts[n-1], ts[n])`: every score, however far out of range, has one band. */
  lemma {:induction false} ReachedIsBand(ts: seq<real>, x: real)
    requires Ascending(ts)
    ensures var n := Reached(ts, x);
      && (n == 0 || ts[n - 1] <= x)
      && (n == |ts| || x < ts[n])
  {
    if ts != [] {
      ReachedIsBand(ts[1..], x);
      var m := Reached(ts[1..], x);
      assert m > 0 ==> ts[1..][m - 1] == ts[m] && ts[0] < ts[m];
    }
  }

  /** With an ascending table, band `n` of the strict ladder is the interval `(ts[n-1], ts[n]]`. */
  lemma {:induction false} ExceededIsBand(ts: seq<real>, x: real)
    requires Ascending(ts)
    ensures var n := Exceeded(ts, x);
      && (n == 0 || ts[n - 1] < x)
      && (n == |ts| || x <= ts[n])
  {
    if ts != [] {
      ExceededIsBand(ts[1..], x);
      var m := Exceeded(ts[1..], x);
      assert m > 0 ==> ts[1..][m - 1] == ts[m] && ts[0] < ts[m];
    }
  }

  /** The count over a two-entry table, spelt out. */
  lemma ExceededTwo(a: real, b: real, x: real)
    ensures Exceeded([a, b], x) == (if a < x then 1 else 0) + (if b < x then 1 else 0)
  {
    assert [a, b][1..] == [b] && [b][1..] == [];
  }

  /** The counts over a four-entry table, spelt out. */
  lemma FourEntries(a: real, b: real, c: real, d: real, x: real)
    ensures Reached([a, b, c, d], x)
         == (if a <= x then 1 else 0) + (if b <= x then 1 else 0) + (if c <= x then 1 else 0) + (if d <= x then 1 else 0)
    ensures Exceeded([a, b, c, d], x)
         == (if a < x then 1 else 0) + (if b < x then 1 else 0) + (if c < x then 1 else 0) + (if d < x then 1 else 0)
  {
    assert [a, b, c, d][1..] == [b, c, d] && [b, c, d][1..] == [c, d] && [c, d][1..] == [d] && [d][1..] == [];
    assert Reached([d], x) == (if d <= x then 1 else 0);
    assert Reached([c, d], x) == (if c <= x then 1 else 0) + Reached([d], x);
    assert Reached([b, c, d], x) == (if b <= x then 1 else 0) + Reached([c, d], x);
    assert Exceeded([d], x) == (if d < x then 1 else 0);
    assert Exceeded([c, d], x) == (if c < x then 1 else 0) + Exceeded([d], x);
    assert Exceeded([b, c, d], x) == (if b < x then 1 else 0) + Exceeded([c, d], x);
  }
}
