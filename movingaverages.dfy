/** The shift-and-backfill step of SMMA (neobabix/indicators/movingaverages.py).
    The exponentially weighted mean it starts from is computed by pandas, which
    is not part of this model, and is taken as an input series. */
module MovingAverages {
  import opened Common

  /** numpy.roll(s, k): every value moves k places to the right, and the values
      pushed off the end re-enter at the front. */
  function Roll(s: seq<real>, k: nat): (r: seq<real>)
    ensures |r| == |s|
  {
    if |s| == 0 then []
    else
      var m := k % |s|;
      seq(|s|, j requires 0 <= j < |s| => if j >= m then s[j - m] else s[|s| - m + j])
  }

  /** Rolling by k <= |s| is the right shift by k, with the last k values wrapped to the front. */
  lemma RollShape(s: seq<real>, k: nat, j: nat)
    requires k <= |s| && j < |s|
    ensures j >= k ==> Roll(s, k)[j] == s[j - k]
    ensures j < k ==> Roll(s, k)[j] == s[|s| - k + j]
  {
    var m := k % |s|;
    ModAtMost(k, |s|);
    if j >= m {
      assert Roll(s, k)[j] == s[j - m];
    } else {
      assert Roll(s, k)[j] == s[|s| - m + j];
    }
  }

  /** A shift of at most one length reduces to itself, or to 0 for a full length. */
  lemma ModAtMost(k: int, n: int)
    requires 0 < n && 0 <= k <= n
    ensures k % n == if k == n then 0 else k
  {
    if k == n {
      assert k == 1 * n + 0;
    } else {
      assert k == 0 * n + k;
    }
  }

  /** SMMA's lines 8-10: roll the smoothed series right by offset, then overwrite
      each of the first offset values with the value offset places further on.
      Reading past the end raises IndexError. */
  method Smma(ewm: seq<real>, offset: nat) returns (r: Result<seq<real>>)
    ensures r.Ok? <==> offset == 0 || 2 * offset <= |ewm|
    ensures r.Err? ==> r.error == IndexError
    ensures r.Ok? ==> |r.value| == |ewm|
    ensures r.Ok? ==> forall j :: offset <= j < |ewm| ==> r.value[j] == ewm[j - offset]
    ensures r.Ok? ==> forall i :: 0 <= i < offset ==> r.value[i] == ewm[i]
  {
    var n := |ewm|;
    var rolled := Roll(ewm, offset);
    var smma := new real[n](j requires 0 <= j < n => rolled[j]);
    for i := 0 to offset
      invariant i > 0 ==> offset + i <= n
      invariant forall j :: 0 <= j < i ==> smma[j] == ewm[j]
      invariant forall j :: i <= j < n ==> smma[j] == rolled[j]
    {
      if offset + i >= n {
        return Err(IndexError);
      }
      RollShape(ewm, offset, offset + i);
      smma[i] := smma[offset + i];
    }
    var t := smma[..];
    ShiftedTail(ewm, offset, t);
    r := Ok(t);
  }

  /** Past the backfilled head, a rolled series holds the input shifted right. */
  lemma ShiftedTail(s: seq<real>, k: nat, t: seq<real>)
    requires k <= |s| == |t|
    requires forall j :: k <= j < |t| ==> t[j] == Roll(s, k)[j]
    ensures forall j :: k <= j < |t| ==> t[j] == s[j - k]
  {
    forall j | k <= j < |t| ensures t[j] == s[j - k] {
      RollShape(s, k, j);
    }
  }

  /** A zero offset leaves the series as it is. */
  lemma SmmaZeroOffset(ewm: seq<real>)
    ensures Roll(ewm, 0) == ewm
  {
    forall j | 0 <= j < |ewm| ensures Roll(ewm, 0)[j] == ewm[j] {
      RollShape(ewm, 0, j);
    }
  }
}
