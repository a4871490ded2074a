/** Go's fixed-width unsigned integers and its truncating integer division. */
module GoInt {

  type uint8 = x: int | 0 <= x < 0x100
  type uint64 = x: int | 0 <= x < 0x1_0000_0000_0000_0000

  /** Go's `a / b` on `int`: the quotient is truncated toward zero. */
  function GoDiv(a: int, b: int): (q: int)
    requires b != 0
    ensures a >= 0 && b > 0 ==> q == a / b
    ensures a < 0 && b > 0 ==> q == -((-a) / b)
  {
    if a >= 0 then
      if b > 0 then a / b else -(a / -b)
    else
      if b > 0 then -((-a) / b) else (-a) / (-b)
  }

  /** Multiplying by a positive factor reflects strict order. */
  lemma CancelPositive(x: int, y: int, b: int)
    requires b > 0 && x * b < y * b
    ensures x < y
  {
  }

  lemma DivMonotoneNat(a: int, a': int, b: int)
    requires 0 <= a <= a' && b > 0
    ensures a / b <= a' / b
  {
    var q, q' := a / b, a' / b;
    assert q * b <= a && a' < q' * b + b;
    assert q' * b + b == (q' + 1) * b;
    CancelPositive(q, q' + 1, b);
  }

  /** Truncating division by a positive divisor is monotone on all integers. */
  lemma GoDivMonotone(a: int, a': int, b: int)
    requires b > 0 && a <= a'
    ensures GoDiv(a, b) <= GoDiv(a', b)
  {
    if a >= 0 {
      DivMonotoneNat(a, a', b);
    } else if a' < 0 {
      DivMonotoneNat(-a', -a, b);
      assert GoDiv(a, b) == -((-a) / b) && GoDiv(a', b) == -((-a') / b);
    } else {
      DivMonotoneNat(0, -a, b);
      DivMonotoneNat(0, a', b);
      assert GoDiv(a, b) == -((-a) / b) && GoDiv(a', b) == a' / b;
    }
  }

  lemma MulDistributes(a: int, b: int, c: int)
    ensures (a + b) * c == a * c + b * c
  {
  }

  lemma MulAssociates(a: int, b: int, c: int)
    ensures (a * b) * c == a * (b * c)
  {
  }

  lemma MulMonotone(a: int, b: int, c: int)
    requires a <= b && c >= 0
    ensures a * c <= b * c
  {
    MulDistributes(a, b - a, c);
    assert (b - a) * c >= 0;
  }

  /** Euclidean division is the unique quotient with a remainder in [0, d). */
  lemma DivUnique(a: int, d: int, q: int, r: int)
    requires d > 0 && 0 <= r < d && a == q * d + r
    ensures a / d == q
  {
    var q', r' := a / d, a % d;
    assert a == q' * d + r';
    MulDistributes(q, -q', d);
    if q > q' {
      MulMonotone(1, q - q', d);
    } else if q < q' {
      MulMonotone(1, q' - q, d);
      MulDistributes(q', -q, d);
    }
  }

  /** Dividing twice by positive constants is dividing once by their product. */
  lemma DivDiv(a: int, b: int, c: int)
    requires a >= 0 && b > 0 && c > 0
    ensures (a / b) / c == a / (b * c)
  {
    var q, rb := a / b, a % b;
    var q2, rc := q / c, q % c;
    assert a == q * b + rb;
    assert q == q2 * c + rc;
    MulDistributes(q2 * c, rc, b);
    MulAssociates(q2, c, b);
    MulMonotone(rc, c - 1, b);
    MulDistributes(c, -1, b);
    DivUnique(a, b * c, q2, rc * b + rb);
  }
}
