/** The JavaScript number operations the data layer relies on, over exact reals. */
module JsMath {
  /** Math.round on an exact real: halves round up, toward +infinity. */
  function Round(x: real): (n: int)
    ensures x - 0.5 < n as real <= x + 0.5
  {
    (x + 0.5).Floor
  }

  function Abs(x: real): real
  {
    if x < 0.0 then -x else x
  }

  /** Math.round returns an integer no farther from x than any other, and the
      only integer m with m - 1/2 <= x < m + 1/2. */
  lemma RoundIsNearest(x: real, m: int)
    ensures Abs(x - Round(x) as real) <= Abs(x - m as real)
    ensures m as real - 0.5 <= x < m as real + 0.5 ==> Round(x) == m
  {
    var n := Round(x);
    assert Abs(x - n as real) <= 0.5;
    if m > n {
      assert m as real >= n as real + 1.0;
      assert x - m as real <= -0.5;
    } else if m < n {
      assert m as real <= n as real - 1.0;
      assert x - m as real >= 0.5;
    }
  }
}
