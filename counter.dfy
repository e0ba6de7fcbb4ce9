/** The score and remaining-object counter (src/Counter.java): a Java int with 32-bit two's-complement
    wrap-around. */
module Counters {
  const TWO_32: int := 0x1_0000_0000
  const MIN_INT: int := -0x8000_0000
  const MAX_INT: int := 0x7fff_ffff

  predicate IsInt(x: int)
  {
    MIN_INT <= x <= MAX_INT
  }

  /** Java int arithmetic: the exact result reduced into the int range modulo 2^32. */
  function Wrap(x: int): (w: int)
    ensures IsInt(w)
    ensures IsInt(x) ==> w == x
    ensures (x - w) % TWO_32 == 0
  {
    (x - MIN_INT) % TWO_32 + MIN_INT
  }

  /** Two values that differ by a multiple of 2^32 wrap to the same int. */
  lemma WrapShift(x: int, k: int)
    ensures Wrap(x + k * TWO_32) == Wrap(x)
  {
    var a := x - MIN_INT;
    assert (a + k * TWO_32) % TWO_32 == a % TWO_32;
  }

  /** Subtracting n after adding n gives back the original int, overflow or not. */
  lemma AddThenSubtract(v: int, n: int)
    requires IsInt(v)
    ensures Wrap(Wrap(v + n) - n) == v
  {
    var w := Wrap(v + n);
    var k := (v + n - w) / TWO_32;
    assert v + n - w == k * TWO_32;
    WrapShift(w - n, k);
    assert w - n + k * TWO_32 == v;
  }

  class Counter {
    var counter: int

    /** A new counter holds 0. */
    constructor()
      ensures counter == 0
    {
      counter := 0;
    }

    predicate Valid()
      reads this
    {
      IsInt(counter)
    }

    /** increase: add the number, wrapping around on overflow. */
    method Increase(number: int)
      requires Valid() && IsInt(number)
      modifies this
      ensures Valid()
      ensures counter == Wrap(old(counter) + number)
      ensures IsInt(old(counter) + number) ==> counter == old(counter) + number
    {
      counter := Wrap(counter + number);
    }

    /** decrease: subtract the number, wrapping around on overflow. */
    method Decrease(number: int)
      requires Valid() && IsInt(number)
      modifies this
      ensures Valid()
      ensures counter == Wrap(old(counter) - number)
      ensures IsInt(old(counter) - number) ==> counter == old(counter) - number
    {
      counter := Wrap(counter - number);
    }

    /** getValue: the current value; nothing changes. */
    method GetValue() returns (value: int)
      ensures value == counter
    {
      value := counter;
    }
  }

  /** increase(n) followed by decrease(n) leaves the counter where it was. */
  method IncreaseThenDecrease(c: Counter, n: int)
    requires c.Valid() && IsInt(n)
    modifies c
    ensures c.counter == old(c.counter)
  {
    c.Increase(n);
    c.Decrease(n);
    AddThenSubtract(old(c.counter), n);
  }
}
