/**
 * The `Usnp` record of muncon/utils.py: the in-memory holder of one
 * n-port S-parameter measurement with its full covariance matrix.
 *
 * The record stores its fields by value; the Python object shares the
 * caller's lists instead (see README, "Left out").
 */
module UsnpRecord {
  import opened Wrappers

  /** A complex number; reference impedances and S-parameters are complex. */
  datatype Complex = Complex(re: real, im: real)

  /**
   * The argument of `set_z0`: either one impedance (a Python scalar) or a
   * list, tuple or array of them.
   */
  datatype Z0Arg = Scalar(x: Complex) | Sequence(xs: seq<Complex>)

  /** Why `set_z0` raises instead of storing. */
  datatype Z0Error =
    | IndexOutOfRange   // `z0[0]` on an empty sequence whose length is not `p`
    | NegativeCount     // numpy's `linspace` refuses a negative number of samples

  /**
   * `linspace(x, x, n)`: `n` evenly spaced values from `x` to `x`, that is,
   * `n` copies of `x`.
   */
  function Broadcast<T>(x: T, n: nat): (r: seq<T>)
    ensures |r| == n
    ensures forall i :: 0 <= i < n ==> r[i] == x
  {
    if n == 0 then [] else Broadcast(x, n - 1) + [x]
  }

  /**
   * The reference impedances `set_z0(arg)` stores when the port count is `p`,
   * or the error it raises.
   */
  function NormalizeZ0(arg: Z0Arg, p: int): (r: Result<seq<Complex>, Z0Error>)
  {
    match arg
    case Sequence(xs) =>
      if |xs| == p then Ok(xs)
      else if |xs| == 0 then Err(IndexOutOfRange)
      else if p < 0 then Err(NegativeCount)
      else Ok(Broadcast(xs[0], p))
    case Scalar(x) =>
      if p < 0 then Err(NegativeCount) else Ok(Broadcast(x, p))
  }

  /** A sequence whose length is the port count is stored exactly as given. */
  lemma Z0KeptWhenLengthMatches(xs: seq<Complex>, p: int)
    requires |xs| == p
    ensures NormalizeZ0(Sequence(xs), p) == Ok(xs)
  {
  }

  /**
   * A non-empty sequence of any other length is replaced by `p` copies of
   * its first element, whether it is too short or too long.
   */
  lemma Z0BroadcastsFirst(xs: seq<Complex>, p: nat)
    requires |xs| != p && |xs| > 0
    ensures NormalizeZ0(Sequence(xs), p).Ok?
    ensures |NormalizeZ0(Sequence(xs), p).value| == p
    ensures forall i :: 0 <= i < p ==> NormalizeZ0(Sequence(xs), p).value[i] == xs[0]
  {
  }

  /** A scalar is replaced by `p` copies of itself. */
  lemma Z0ScalarBroadcast(x: Complex, p: nat)
    ensures NormalizeZ0(Scalar(x), p).Ok?
    ensures |NormalizeZ0(Scalar(x), p).value| == p
    ensures forall i :: 0 <= i < p ==> NormalizeZ0(Scalar(x), p).value[i] == x
  {
  }

  /** `set_z0` raises exactly in these cases, and stores nothing then. */
  lemma Z0ErrorCases(arg: Z0Arg, p: int)
    ensures NormalizeZ0(arg, p).Err? <==>
            (arg.Sequence? && |arg.xs| != p && |arg.xs| == 0) ||
            (p < 0 && (arg.Scalar? || |arg.xs| != p))
    ensures NormalizeZ0(arg, p) == Err(IndexOutOfRange) <==>
            arg.Sequence? && arg.xs == [] && p != 0
  {
  }

  /** Whatever `set_z0` stores has exactly one impedance per port. */
  lemma Z0StoredLength(arg: Z0Arg, p: int)
    requires NormalizeZ0(arg, p).Ok?
    ensures |NormalizeZ0(arg, p).value| == p
  {
  }

  /**
   * Setting the stored impedances again changes nothing: the stored value
   * already has the length that is kept as given.
   */
  lemma Z0Idempotent(arg: Z0Arg, p: int)
    requires NormalizeZ0(arg, p).Ok?
    ensures NormalizeZ0(Sequence(NormalizeZ0(arg, p).value), p) == NormalizeZ0(arg, p)
  {
    Z0StoredLength(arg, p);
  }

  class Usnp {
    var p: int                      // number of ports
    var z0: seq<Complex>            // reference impedance of each port
    var f: seq<real>                // frequency points
    var s: seq<seq<Complex>>        // S-parameter samples, one row per frequency point
    var v: seq<seq<real>>           // covariance matrix, stored and never interpreted
    var comments: seq<string>       // free-text annotations

    /** There is one reference impedance per port. */
    ghost predicate Z0Normalized()
      reads this
    {
      |z0| == p
    }

    /** A fresh record has no ports and every sequence empty. */
    constructor ()
      ensures p == 0 && z0 == [] && f == [] && s == [] && v == [] && comments == []
      ensures Z0Normalized()
    {
      p := 0;
      z0 := [];
      f := [];
      s := [];
      v := [];
      comments := [];
    }

    method SetPorts(ports: int)
      modifies this
      ensures GetPorts() == ports
      ensures z0 == old(z0) && f == old(f) && s == old(s) && v == old(v) && comments == old(comments)
    {
      p := ports;
    }

    /** The stored port count. */
    function GetPorts(): (r: int)
      reads this
      ensures r == p
    {
      p
    }

    /**
     * Stores the reference impedances normalised to one per port; on the
     * two errors of `NormalizeZ0` the record is left as it was.
     */
    method SetZ0(arg: Z0Arg) returns (r: Result<seq<Complex>, Z0Error>)
      modifies this
      ensures r == NormalizeZ0(arg, old(p))
      ensures r.Ok? ==> GetZ0() == r.value && Z0Normalized()
      ensures r.Err? ==> z0 == old(z0)
      ensures p == old(p) && f == old(f) && s == old(s) && v == old(v) && comments == old(comments)
    {
      match arg
      case Sequence(xs) =>
        if |xs| == p {
          z0 := xs;
          r := Ok(xs);
        } else if |xs| == 0 {
          r := Err(IndexOutOfRange);
        } else if p < 0 {
          r := Err(NegativeCount);
        } else {
          z0 := Broadcast(xs[0], p);
          r := Ok(z0);
        }
      case Scalar(x) =>
        if p < 0 {
          r := Err(NegativeCount);
        } else {
          z0 := Broadcast(x, p);
          r := Ok(z0);
        }
    }

    /** The stored reference impedances. */
    function GetZ0(): (r: seq<Complex>)
      reads this
      ensures r == z0
    {
      z0
    }

    method SetFreqs(freqs: seq<real>)
      modifies this
      ensures GetFreqs() == freqs
      ensures p == old(p) && z0 == old(z0) && s == old(s) && v == old(v) && comments == old(comments)
    {
      f := freqs;
    }

    /** The stored frequency points. */
    function GetFreqs(): (r: seq<real>)
      reads this
      ensures r == f
    {
      f
    }

    method SetSparams(sparams: seq<seq<Complex>>)
      modifies this
      ensures GetSparams() == sparams
      ensures p == old(p) && z0 == old(z0) && f == old(f) && v == old(v) && comments == old(comments)
    {
      s := sparams;
    }

    /** The stored S-parameter samples. */
    function GetSparams(): (r: seq<seq<Complex>>)
      reads this
      ensures r == s
    {
      s
    }

    method SetCovariance(covariance: seq<seq<real>>)
      modifies this
      ensures GetCovariance() == covariance
      ensures p == old(p) && z0 == old(z0) && f == old(f) && s == old(s) && comments == old(comments)
    {
      v := covariance;
    }

    /** The stored covariance matrix. */
    function GetCovariance(): (r: seq<seq<real>>)
      reads this
      ensures r == v
    {
      v
    }

    method SetComments(cs: seq<string>)
      modifies this
      ensures GetComments() == cs
      ensures p == old(p) && z0 == old(z0) && f == old(f) && s == old(s) && v == old(v)
    {
      comments := cs;
    }

    /** The stored comments, oldest first. */
    function GetComments(): (r: seq<string>)
      reads this
      ensures r == comments
    {
      comments
    }

    /** Appends one comment after the existing ones. */
    method AddComment(comment: string)
      modifies this
      ensures GetComments() == old(comments) + [comment]
      ensures p == old(p) && z0 == old(z0) && f == old(f) && s == old(s) && v == old(v)
    {
      comments := comments + [comment];
    }
  }

  /**
   * A client that relies on the contracts above only: the broadcast rule
   * for three ports and two appended comments.
   */
  method UsnpClient()
  {
    var u := new Usnp();
    u.SetPorts(3);
    var five := Complex(5.0, 0.0);
    var r := u.SetZ0(Sequence([five, Complex(10.0, 0.0)]));
    assert u.GetZ0() == [five, five, five];
    var given := [Complex(1.0, 0.0), Complex(2.0, 0.0), Complex(3.0, 0.0)];
    r := u.SetZ0(Sequence(given));
    assert u.GetZ0() == given;
    var fifty := Complex(50.0, 0.0);
    r := u.SetZ0(Scalar(fifty));
    assert u.GetZ0() == [fifty, fifty, fifty];
    u.AddComment("x");
    u.AddComment("y");
    assert u.GetComments() == ["x", "y"];
    assert u.GetPorts() == 3;
  }
}
