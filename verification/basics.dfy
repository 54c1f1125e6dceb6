/*
 * Model of the arithmetic routines of the Rust basics program (src/main.rs):
 * the iterative factorial over u64 and the two three-bit adders.
 *
 * Rust's fixed-width integers are modelled as subsets of the unbounded
 * integers; the panics a debug build raises (arithmetic overflow, the
 * explicit "Invalid Parameters") are modelled as the Panic case of Outcome.
 */
module Basics {

  const U8_MAX: int := 0xFF
  const U32_MAX: int := 0xFFFF_FFFF
  const U64_MAX: int := 0xFFFF_FFFF_FFFF_FFFF

  type u8 = x: int | 0 <= x <= U8_MAX
  type u32 = x: int | 0 <= x <= U32_MAX
  type u64 = x: int | 0 <= x <= U64_MAX

  /** The message a debug build panics with when `*` leaves the type's range. */
  const MulOverflow: string := "attempt to multiply with overflow"
  /** The message a debug build panics with when `+` leaves the type's range. */
  const AddOverflow: string := "attempt to add with overflow"
  /** The message of the explicit panic in the u8 adder. */
  const InvalidParameters: string := "Invalid Parameters"

  /** A routine either returns a value or panics with a message. */
  datatype Outcome<T> = Ok(value: T) | Panic(message: string)

  // ---------------------------------------------------------------------------
  // Factorial
  // ---------------------------------------------------------------------------

  /** The mathematical factorial, with 0! = 1. */
  function Fact(n: nat): (r: nat)
    ensures r >= 1
  {
    if n == 0 then 1 else n * Fact(n - 1)
  }

  lemma {:induction false} FactMonotone(m: nat, n: nat)
    requires m <= n
    ensures Fact(m) <= Fact(n)
  {
    if m < n {
      FactMonotone(m, n - 1);
      assert Fact(n - 1) <= n * Fact(n - 1);
    }
  }

  /** Every intermediate value n * i! of the factorial loop is at most n!. */
  lemma ScaledFactBound(n: nat, i: nat)
    requires i < n
    ensures n * Fact(i) <= Fact(n)
  {
    FactMonotone(i, n - 1);
    MulMonotone(n, Fact(i), Fact(n - 1));
  }

  lemma MulMonotone(k: nat, a: nat, b: nat)
    requires a <= b
    ensures k * a <= k * b
  {
  }

  /** One step of the factorial loop: (n * (i-1)!) * i == n * i!. */
  lemma StepProduct(n: nat, i: nat)
    requires i >= 1
    ensures (n * Fact(i - 1)) * i == n * Fact(i)
  {
  }

  /** 20! is the largest factorial that fits in a u64; 21! does not. */
  lemma FactU64Boundary()
    ensures Fact(20) == 2432902008176640000 <= U64_MAX
    ensures Fact(21) == 51090942171709440000 > U64_MAX
  {
    assert Fact(1) == 1;
    assert Fact(2) == 2;
    assert Fact(3) == 6;
    assert Fact(4) == 24;
    assert Fact(5) == 120;
    assert Fact(6) == 720;
    assert Fact(7) == 5040;
    assert Fact(8) == 40320;
    assert Fact(9) == 362880;
    assert Fact(10) == 3628800;
    assert Fact(11) == 39916800;
    assert Fact(12) == 479001600;
    assert Fact(13) == 6227020800;
    assert Fact(14) == 87178291200;
    assert Fact(15) == 1307674368000;
    assert Fact(16) == 20922789888000;
    assert Fact(17) == 355687428096000;
    assert Fact(18) == 6402373705728000;
    assert Fact(19) == 121645100408832000;
    assert Fact(20) == 2432902008176640000;
    assert Fact(21) == 51090942171709440000;
  }

  /** n! fits in a u64 exactly when n <= 20. */
  lemma FactFitsU64(n: nat)
    ensures Fact(n) <= U64_MAX <==> n <= 20
  {
    FactU64Boundary();
    if n <= 20 {
      FactMonotone(n, 20);
    } else {
      FactMonotone(21, n);
    }
  }

  /**
   * factorial_iter: 0 for input 0; otherwise the accumulator starts at n and
   * multiplies in 1, 2, ..., n-1, so it ends at n!. Each multiplication is a
   * checked u64 multiplication, so the routine panics exactly when n! does not
   * fit in a u64, that is for n > 20.
   */
  method FactorialIter(n: u32) returns (r: Outcome<u64>)
    ensures n == 0 ==> r == Ok(0)
    ensures 1 <= n <= 20 ==> r == Ok(Fact(n))
    ensures n > 20 ==> r == Panic(MulOverflow)
  {
    if n <= 0 {
      return Ok(0);
    }
    var res: u64 := n;
    for i := 1 to n
      invariant res == n * Fact(i - 1)
    {
      StepProduct(n, i);
      if res * i > U64_MAX {
        ScaledFactBound(n, i);
        FactFitsU64(n);
        return Panic(MulOverflow);
      }
      res := res * i;
    }
    FactFitsU64(n);
    return Ok(res);
  }

  /** The call in the entry point: the factorial of 10. */
  method FactorialOfTen() returns (r: Outcome<u64>)
    ensures r == Ok(3628800)
  {
    r := FactorialIter(10);
    assert Fact(10) == 3628800;
  }

  // ---------------------------------------------------------------------------
  // Three-bit adders
  // ---------------------------------------------------------------------------

  /** `b as u8`: false is 0, true is 1. */
  function BoolAsU8(b: bool): (r: u8)
    ensures r <= 1 && (r == 1 <==> b)
  {
    if b then 1 else 0
  }

  /**
   * add_3_bits_bool: (carry, sum) of a one-bit full adder, both derived from
   * the number of true inputs.
   */
  function Add3BitsBool(b1: bool, b2: bool, b3: bool): (r: (bool, bool))
    ensures r.0 <==> (b1 && b2) || (b1 && b3) || (b2 && b3)
    ensures r.1 <==> (b1 != b2) != b3
    ensures 2 * BoolAsU8(r.0) + BoolAsU8(r.1) == BoolAsU8(b1) + BoolAsU8(b2) + BoolAsU8(b3)
  {
    var total := BoolAsU8(b1) + BoolAsU8(b2) + BoolAsU8(b3);
    (total >= 2, total % 2 == 1)
  }

  /**
   * add_3_bits_u8: the same adder on u8. The sum of the three inputs is a
   * checked u8 addition (left to right), then any total above 3 panics with
   * "Invalid Parameters". The inputs themselves are not required to be 0 or 1.
   */
  function Add3BitsU8(b1: u8, b2: u8, b3: u8): (r: Outcome<(u8, u8)>)
    ensures r.Panic? <==> b1 + b2 + b3 > 3
    ensures r.Panic? && b1 + b2 + b3 <= U8_MAX ==> r == Panic(InvalidParameters)
    ensures b1 + b2 + b3 > U8_MAX ==> r == Panic(AddOverflow)
    ensures r.Ok? ==> r.value.0 <= 1 && r.value.1 <= 1
    ensures r.Ok? ==> 2 * r.value.0 + r.value.1 == b1 + b2 + b3
  {
    if b1 + b2 > U8_MAX || b1 + b2 + b3 > U8_MAX then
      Panic(AddOverflow)
    else
      var total := b1 + b2 + b3;
      if total > 3 then
        Panic(InvalidParameters)
      else
        Ok((if total >= 2 then 1 else 0, if total % 2 == 1 then 1 else 0))
  }

  /** On 0/1 inputs the u8 adder agrees with the boolean adder. */
  lemma AddersAgree(b1: bool, b2: bool, b3: bool)
    ensures var (carry, sum) := Add3BitsBool(b1, b2, b3);
            Add3BitsU8(BoolAsU8(b1), BoolAsU8(b2), BoolAsU8(b3)) == Ok((BoolAsU8(carry), BoolAsU8(sum)))
  {
  }

  /** Both adders depend only on the multiset of their inputs. */
  lemma AddersSymmetric(b1: bool, b2: bool, b3: bool, x1: u8, x2: u8, x3: u8)
    ensures Add3BitsBool(b1, b2, b3) == Add3BitsBool(b2, b1, b3) == Add3BitsBool(b1, b3, b2)
    ensures Add3BitsU8(x1, x2, x3) == Add3BitsU8(x2, x1, x3) == Add3BitsU8(x1, x3, x2)
  {
  }

  /** The u8 adder's result is determined by the total of its inputs. */
  lemma Add3BitsU8DependsOnTotal(a1: u8, a2: u8, a3: u8, b1: u8, b2: u8, b3: u8)
    requires a1 + a2 + a3 == b1 + b2 + b3
    ensures Add3BitsU8(a1, a2, a3) == Add3BitsU8(b1, b2, b3)
  {
  }

  /** Inputs other than 0 and 1 are accepted when their total is at most 3. */
  lemma Add3BitsU8AcceptsNonBits()
    ensures Add3BitsU8(3, 0, 0) == Ok((1, 1))
    ensures Add3BitsU8(2, 1, 0) == Ok((1, 1))
    ensures Add3BitsU8(2, 2, 0) == Panic(InvalidParameters)
  {
  }

  /** The boolean addition the entry point performs: 0 + 0 + 1. */
  lemma DemoBoolAddition()
    ensures Add3BitsBool(false, false, true) == (false, true)
  {
  }

  /** The u8 addition the entry point performs: 1 + 0 + 1. */
  lemma DemoU8Addition()
    ensures Add3BitsU8(1, 0, 1) == Ok((1, 0))
  {
  }
}
