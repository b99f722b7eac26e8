/** `bytes_to_string`: a byte count shown with a binary-magnitude unit
    (cdsapi/api.py:19-25). Sizes are exact reals here, so the model has no
    floating-point rounding. */
module Units {
  import opened Outcomes
  import opened Text

  /** The unit list of the source: six entries, so index 6 and above is out of range. */
  const UNITS: seq<string> := ["", "K", "M", "G", "T", "P"]

  function Pow1024(k: nat): (p: real)
    ensures p >= 1.0
  {
    if k == 0 then 1.0 else 1024.0 * Pow1024(k - 1)
  }

  /** How many times the loop divides `n` by 1024, that is the unit index. */
  function UnitIndex(n: real): nat
    decreases n.Floor
  {
    if n >= 1024.0 then 1 + UnitIndex(n / 1024.0) else 0
  }

  /** The value left when the loop stops. */
  function Scaled(n: real): real
    decreases n.Floor
  {
    if n >= 1024.0 then Scaled(n / 1024.0) else n
  }

  /** Python's `int()` on a float: truncation toward zero. */
  function Trunc(x: real): int
  {
    if x >= 0.0 then x.Floor else -((-x).Floor)
  }

  /** `'%g' % (t / 10.0)` for a non-negative count of tenths below 10^6:
      the integer part, and the tenths digit unless it is zero. */
  function ShowNonNegTenths(t: nat): string
  {
    NatToString(t / 10) + (if t % 10 == 0 then "" else "." + [DigitChar(t % 10)])
  }

  function ShowTenths(t: int): string
  {
    if t < 0 then "-" + ShowNonNegTenths(-t) else ShowNonNegTenths(t)
  }

  /** What `bytes_to_string(n)` returns, or the IndexError it raises. */
  function HumanSize(n: real): Result<string>
  {
    var i := UnitIndex(n);
    if i < |UNITS| then Ok(ShowTenths(Trunc(Scaled(n) * 10.0 + 0.5)) + UNITS[i])
    else Err(IndexOutOfRange)
  }

  /** The source's loop: divide by 1024 while the value is at least 1024,
      counting the divisions, then round to tenths and pick the unit. */
  method BytesToString(n: real) returns (r: Result<string>)
    ensures r == HumanSize(n)
  {
    var u := ["", "K", "M", "G", "T", "P"];
    var x := n;
    var i: nat := 0;
    while x >= 1024.0
      invariant i + UnitIndex(x) == UnitIndex(n)
      invariant Scaled(x) == Scaled(n)
      decreases x.Floor
    {
      x := x / 1024.0;
      i := i + 1;
    }
    if i < |u| {
      r := Ok(ShowTenths(Trunc(x * 10.0 + 0.5)) + u[i]);
    } else {
      r := Err(IndexOutOfRange);
    }
  }

  /** The shown value is below 1024, and at least 1 once the input is. */
  lemma {:induction false} ScaledRange(n: real)
    ensures Scaled(n) < 1024.0
    ensures n >= 1.0 ==> Scaled(n) >= 1.0
    decreases n.Floor
  {
    if n >= 1024.0 {
      ScaledRange(n / 1024.0);
    }
  }

  /** Nothing is lost: the shown value times 1024 to the unit index is the input. */
  lemma {:induction false} ScaledTimesUnit(n: real)
    ensures Scaled(n) * Pow1024(UnitIndex(n)) == n
    decreases n.Floor
  {
    if n >= 1024.0 {
      var m := n / 1024.0;
      ScaledTimesUnit(m);
      calc {
        Scaled(n) * Pow1024(UnitIndex(n));
        Scaled(m) * (1024.0 * Pow1024(UnitIndex(m)));
        1024.0 * (Scaled(m) * Pow1024(UnitIndex(m)));
        1024.0 * m;
      }
    }
  }

  /** The unit index reaches k exactly when the input reaches 1024^k. */
  lemma {:induction false} UnitIndexAtLeast(n: real, k: nat)
    requires k >= 1
    ensures UnitIndex(n) >= k <==> n >= Pow1024(k)
    decreases k
  {
    if k > 1 {
      UnitIndexAtLeast(n / 1024.0, k - 1);
    }
  }

  /** 1024^k is shown as 1 of the k-th unit. */
  lemma {:induction false} PowerUnit(k: nat)
    ensures UnitIndex(Pow1024(k)) == k && Scaled(Pow1024(k)) == 1.0
  {
    if k > 0 {
      PowerUnit(k - 1);
      assert Pow1024(k) / 1024.0 == Pow1024(k - 1);
    }
  }

  /** bytes_to_string(1024^k) == "1" + unit k for k in 0..5 (tests/test_api.py:7-13). */
  lemma HumanSizeOfPower(k: nat)
    requires k < |UNITS|
    ensures HumanSize(Pow1024(k)) == Ok("1" + UNITS[k])
  {
    PowerUnit(k);
    assert Trunc(1.0 * 10.0 + 0.5) == 10;
    assert ShowTenths(10) == "1";
  }

  /** The unit list is indexed past its end exactly from 1024^6 on. */
  lemma HumanSizeFails(n: real)
    ensures HumanSize(n).Err? <==> n >= Pow1024(6)
  {
    UnitIndexAtLeast(n, 6);
  }
}
