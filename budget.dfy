/** The budget percentage both trust pages show:
    Math.min((total / cap) * 100, 100), in JavaScript numbers. A cap read from the store
    may be 0, and then the division gives Infinity, -Infinity or NaN. */
module Budget {

  /** The JavaScript numbers this arithmetic can produce (the sign of zero aside). */
  datatype JsNum = Finite(x: real) | PosInf | NegInf | NaN

  /** a / b. */
  function Div(a: real, b: real): JsNum {
    if b != 0.0 then Finite(a / b)
    else if a > 0.0 then PosInf
    else if a < 0.0 then NegInf
    else NaN
  }

  /** n * 100. */
  function Times100(n: JsNum): JsNum {
    match n
    case Finite(x) => Finite(x * 100.0)
    case _ => n
  }

  /** Math.min(n, 100): NaN stays NaN, -Infinity stays, +Infinity becomes 100. */
  function Min100(n: JsNum): JsNum {
    match n
    case Finite(x) => Finite(if x < 100.0 then x else 100.0)
    case PosInf => Finite(100.0)
    case NegInf => NegInf
    case NaN => NaN
  }

  /** Never above 100: every number the clamp can give. */
  predicate AtMost100(n: JsNum) {
    n != PosInf && (n.Finite? ==> n.x <= 100.0)
  }

  function Percent(total: real, cap: real): (r: JsNum)
    ensures AtMost100(r)
    ensures cap > 0.0 ==> r.Finite? && (r.x == 100.0 <==> total >= cap)
    ensures cap > 0.0 && total < cap ==> r.x * cap == total * 100.0
    ensures cap > 0.0 && total >= 0.0 ==> 0.0 <= r.x
    ensures cap == 0.0 ==> r == if total > 0.0 then Finite(100.0) else if total < 0.0 then NegInf else NaN
  {
    PercentOfPositiveCap(total, cap);
    Min100(Times100(Div(total, cap)))
  }

  /** Below a positive cap the percentage is below 100, and it scales with the total. */
  lemma PercentOfPositiveCap(total: real, cap: real)
    ensures cap > 0.0 ==> ((total / cap) * 100.0 < 100.0 <==> total < cap)
    ensures cap > 0.0 ==> (total / cap) * 100.0 * cap == total * 100.0
    ensures cap > 0.0 && total >= 0.0 ==> total / cap >= 0.0
  {
    if cap <= 0.0 {
      return;
    }
    var q := total / cap;
    assert q * cap == total;
    if total < cap {
      assert q * cap < 1.0 * cap;
      assert q < 1.0;
    } else {
      assert q * cap >= 1.0 * cap;
      assert q >= 1.0;
    }
  }
}
