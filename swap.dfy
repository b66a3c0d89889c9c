/**
 * `swap_s12_s21` of muncon/utils.py: S-parameter samples are stored one
 * frequency point per row, and columns 1 and 2 (the S21 and S12 samples of
 * a 2-port) trade places in the caller's array.
 */
module SwapColumns {

  /** The column whose old contents column `j` holds after the swap. */
  function SwappedColumn(j: int): (k: int)
  {
    if j == 1 then 2 else if j == 2 then 1 else j
  }

  /** Swapping twice is the identity on columns, and it keeps every column in range. */
  lemma SwappedColumnInvolution(j: int, n: int)
    requires 0 <= j < n && n >= 3
    ensures 0 <= SwappedColumn(j) < n
    ensures SwappedColumn(SwappedColumn(j)) == j
    ensures SwappedColumn(j) != j <==> j == 1 || j == 2
  {
  }

  /**
   * Exchanges columns 1 and 2 of `sparams` in place and reports `true`; with
   * fewer than three columns numpy raises an index error before writing
   * anything, which is reported as `false` with the array untouched.
   */
  method SwapS12S21<T>(sparams: array2<T>) returns (ok: bool)
    modifies sparams
    ensures ok <==> sparams.Length1 >= 3
    ensures ok ==> forall i, j :: 0 <= i < sparams.Length0 && 0 <= j < sparams.Length1 ==>
                     sparams[i, j] == old(sparams[i, SwappedColumn(j)])
    ensures !ok ==> unchanged(sparams)
  {
    if sparams.Length1 < 3 {
      return false;
    }
    // The copy of column 1, taken before it is overwritten.
    var s21 := new T[sparams.Length0](i reads sparams requires 0 <= i < sparams.Length0 => sparams[i, 1]);
    for i := 0 to sparams.Length0
      invariant forall k :: 0 <= k < sparams.Length0 ==> s21[k] == old(sparams[k, 1])
      invariant forall k, j :: 0 <= k < sparams.Length0 && 0 <= j < sparams.Length1 ==>
                  sparams[k, j] == if j == 1 && k < i then old(sparams[k, 2]) else old(sparams[k, j])
    {
      sparams[i, 1] := sparams[i, 2];
    }
    for i := 0 to sparams.Length0
      invariant forall k :: 0 <= k < sparams.Length0 ==> s21[k] == old(sparams[k, 1])
      invariant forall k, j :: 0 <= k < sparams.Length0 && 0 <= j < sparams.Length1 ==>
                  sparams[k, j] == if j == 2 && i <= k then old(sparams[k, 2]) else old(sparams[k, SwappedColumn(j)])
    {
      sparams[i, 2] := s21[i];
    }
    return true;
  }

  /** Applying the swap twice gives back the original array. */
  method SwapTwiceRestores<T>(sparams: array2<T>)
    modifies sparams
    ensures forall i, j :: 0 <= i < sparams.Length0 && 0 <= j < sparams.Length1 ==>
              sparams[i, j] == old(sparams[i, j])
  {
    var ok := SwapS12S21(sparams);
    ok := SwapS12S21(sparams);
  }
}
