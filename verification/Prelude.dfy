// Small datatypes and facts shared by every component.
module Prelude {

  datatype Option<+T> = None | Some(value: T)

  // A byte is its value; `&`, `|` and shifts by constants are written as the
  // arithmetic they perform on it (`b & 0x0f` is `b % 16`, `b >> 4` is `b / 16`).
  type byte = x: int | 0 <= x < 256

  function Pow2(k: nat): (p: nat)
    ensures p >= 1
  {
    if k == 0 then 1 else 2 * Pow2(k - 1)
  }

  // Exclusive or of the low `k` bits.
  function XorBits(a: nat, b: nat, k: nat): (r: nat)
    ensures r < Pow2(k)
  {
    if k == 0 then 0 else 2 * XorBits(a / 2, b / 2, k - 1) + (a % 2 + b % 2) % 2
  }

  lemma HalfAndBit(h: nat, bit: nat)
    requires bit < 2
    ensures (2 * h + bit) / 2 == h && (2 * h + bit) % 2 == bit
  {
  }

  lemma BitTwice(x: nat, y: nat)
    requires x < 2 && y < 2
    ensures ((x + y) % 2 + y) % 2 == x
  {
  }

  lemma {:induction false} XorBitsTwice(a: nat, m: nat, k: nat)
    requires a < Pow2(k)
    ensures XorBits(XorBits(a, m, k), m, k) == a
  {
    if k > 0 {
      XorBitsTwice(a / 2, m / 2, k - 1);
      HalfAndBit(XorBits(a / 2, m / 2, k - 1), (a % 2 + m % 2) % 2);
      BitTwice(a % 2, m % 2);
    }
  }

  lemma Pow2Of8()
    ensures Pow2(8) == 256
  {
    assert Pow2(4) == 16;
    assert Pow2(6) == 64;
  }

  lemma Append<T>(a: seq<T>, b: seq<T>)
    ensures (a + b)[..|a|] == a && (a + b)[|a|..] == b
  {
  }

  function Xor(a: byte, b: byte): byte {
    Pow2Of8();
    XorBits(a, b, 8)
  }

  // The bit of value 2^i.
  predicate Bit(x: nat, i: nat) { if i == 0 then x % 2 == 1 else Bit(x / 2, i - 1) }

  lemma {:induction false} BitsOfXor(a: nat, b: nat, k: nat, i: nat)
    requires i < k
    ensures Bit(XorBits(a, b, k), i) <==> Bit(a, i) != Bit(b, i)
    decreases k
  {
    HalfAndBit(XorBits(a / 2, b / 2, k - 1), (a % 2 + b % 2) % 2);
    if i > 0 { BitsOfXor(a / 2, b / 2, k - 1, i - 1); }
  }

  lemma {:induction false} SameBits(a: nat, b: nat, k: nat)
    requires a < Pow2(k) && b < Pow2(k) && forall i | 0 <= i < k :: Bit(a, i) <==> Bit(b, i)
    ensures a == b
  {
    if k > 0 {
      assert Bit(a, 0) <==> Bit(b, 0);
      forall i | 0 <= i < k - 1 ensures Bit(a / 2, i) <==> Bit(b / 2, i) {
        assert Bit(a, i + 1) <==> Bit(b, i + 1);
      }
      SameBits(a / 2, b / 2, k - 1);
    }
  }

  // `r` is the exclusive or of `a` and `b`: it has just the bits in which they differ.
  ghost predicate IsXor(r: byte, a: byte, b: byte) {
    forall i | 0 <= i < 8 :: Bit(r, i) <==> Bit(a, i) != Bit(b, i)
  }

  lemma XorExactly(r: byte, a: byte, b: byte)
    ensures IsXor(r, a, b) <==> r == Xor(a, b)
  {
    Pow2Of8();
    hide Bit;
    forall i | 0 <= i < 8 ensures Bit(Xor(a, b), i) <==> Bit(a, i) != Bit(b, i) { BitsOfXor(a, b, 8, i); }
    if IsXor(r, a, b) { SameBits(r, Xor(a, b), 8); }
  }

  lemma XorTwice(a: byte, m: byte)
    ensures Xor(Xor(a, m), m) == a
  {
    Pow2Of8();
    XorBitsTwice(a, m, 8);
  }

  // ---- decimal text --------------------------------------------------------

  predicate IsDigit(c: char) { '0' <= c <= '9' }

  predicate AllDigits(s: string) { forall i | 0 <= i < |s| :: IsDigit(s[i]) }

  function Digits(s: string): nat
    requires AllDigits(s)
  {
    if s == [] then 0 else 10 * Digits(s[..|s| - 1]) + (s[|s| - 1] as int - '0' as int)
  }

  // strconv.Itoa, and what JavaScript makes of an integer
  function Itoa(n: int): string
    decreases if n < 0 then 1 else 0, if n < 0 then -n else n
  {
    if n < 0 then "-" + Itoa(-n)
    else if n < 10 then [('0' as int + n) as char]
    else Itoa(n / 10) + [('0' as int + n % 10) as char]
  }

  lemma {:induction false} ItoaDigits(n: nat)
    ensures Itoa(n) != [] && AllDigits(Itoa(n)) && Digits(Itoa(n)) == n
  {
    if n >= 10 {
      ItoaDigits(n / 10);
      var front := Itoa(n / 10);
      assert Itoa(n)[..|front|] == front;
    }
  }
}
