/** The C integer types of the program: `int` and `DWORD` have 32 bits; `long`
    has 32 bits on the router targets and 64 on a desktop, so its width is a
    parameter. Conversions wrap in two's complement. */
module CInts {

  const TWO16 := 0x1_0000
  const TWO31 := 0x8000_0000
  const TWO32 := 0x1_0000_0000
  const TWO63 := 0x8000_0000_0000_0000
  const TWO64 := 0x1_0000_0000_0000_0000
  const INT_MAX := TWO31 - 1
  const DWORD_MAX := TWO32 - 1

  type int32 = x: int | -TWO31 <= x < TWO31
  type dword = x: int | 0 <= x < TWO32
  type word = x: int | 0 <= x < TWO16
  type byte = x: int | 0 <= x < 256

  // ---------- arithmetic modulo 2^32 ----------

  function Wraps(q: int): int {
    TWO32 * q
  }

  /** Equality modulo 2^32: what is left of a number once it has gone through a 32-bit field. */
  ghost predicate Congruent(a: int, b: int) {
    exists q: int {:trigger Wraps(q)} :: a == b + Wraps(q)
  }

  lemma CongruentBy(a: int, b: int, q: int)
    requires a == b + TWO32 * q
    ensures Congruent(a, b)
  {
    assert a == b + Wraps(q);
  }

  lemma Quotient(a: int, b: int) returns (q: int)
    requires Congruent(a, b)
    ensures a == b + TWO32 * q
  {
    q :| a == b + Wraps(q);
  }

  lemma CongruentTrans(a: int, b: int, c: int)
    requires Congruent(a, b) && Congruent(b, c)
    ensures Congruent(a, c)
  {
    var p := Quotient(a, b);
    var q := Quotient(b, c);
    CongruentBy(a, c, p + q);
  }

  /** Congruent terms may replace each other in a sum. */
  lemma CongruentPlus(a: int, a': int, b: int, b': int)
    requires Congruent(a, a') && Congruent(b, b')
    ensures Congruent(a + b, a' + b') && Congruent(a - b, a' - b')
  {
    var p := Quotient(a, a');
    var q := Quotient(b, b');
    CongruentBy(a + b, a' + b', p + q);
    CongruentBy(a - b, a' - b', p - q);
  }

  lemma CongruentSelf(a: int)
    ensures Congruent(a, a)
  {
    CongruentBy(a, a, 0);
  }

  /** Congruent numbers of one 32-bit type are equal. */
  lemma CongruentEqual(a: int, b: int)
    requires Congruent(a, b) && -TWO32 < a - b < TWO32
    ensures a == b
  {
    var q := Quotient(a, b);
  }

  // ---------- conversions ----------

  /** Conversion to `int`. */
  function ToInt(x: int): (r: int32)
    ensures Congruent(r, x)
    ensures -TWO31 <= x < TWO31 ==> r == x
  {
    var m := x % TWO32;
    CongruentBy(m, x, -(x / TWO32));
    CongruentBy(m - TWO32, x, -(x / TWO32) - 1);
    if m < TWO31 then m else m - TWO32
  }

  /** Conversion to `DWORD`. */
  function ToDword(x: int): (r: dword)
    ensures Congruent(r, x)
    ensures 0 <= x < TWO32 ==> r == x
  {
    CongruentBy(x % TWO32, x, -(x / TWO32));
    x % TWO32
  }

  /** The width of the C type `long`. */
  datatype LongWidth = Long32 | Long64 {

    function Half(): int {
      if Long32? then TWO31 else TWO63
    }

    function Modulus(): int {
      2 * Half()
    }

    /** Conversion to `unsigned long`. */
    function ToULong(x: int): (r: nat)
      ensures r < Modulus() && Congruent(r, x)
      ensures 0 <= x < Modulus() ==> r == x
    {
      if Long32? then ToDword(x)
      else CongruentBy(x % TWO64, x, -(x / TWO64) * TWO32); x % TWO64
    }

    /** Conversion to `long`. */
    function ToLong(x: int): (r: int)
      ensures -Half() <= r < Half() && Congruent(r, x)
      ensures -Half() <= x < Half() ==> r == x
    {
      if Long32? then ToInt(x)
      else
        var m := x % TWO64;
        CongruentBy(m, x, -(x / TWO64) * TWO32);
        CongruentBy(m - TWO64, x, -(x / TWO64) * TWO32 - TWO32);
        if m < TWO63 then m else m - TWO64
    }
  }

  /** 1 for true. */
  function Bit(b: bool): nat {
    if b then 1 else 0
  }

  function Max(a: int, b: int): int {
    if a < b then b else a
  }
}
