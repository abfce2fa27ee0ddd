/**
 Fork paths packed in 32-bit words: bit i is the direction taken at the i-th
 fork, and a marker bit sits just above the last one.  Bits above the marker
 may hold anything.
 */
module PathWords {

  type Word = bv32

  function Half(w: Word): Word { w >> 1 }

  predicate Odd(w: Word) { w & 1 == 1 }

  /** The number a tree depth stands for. */
  function Len(h: Word): nat { h as nat }

  /** The low n bits, least significant first. */
  function Bits(w: Word, n: nat): (p: seq<bool>)
    ensures |p| == n
  {
    if n == 0 then [] else [Odd(w)] + Bits(Half(w), n - 1)
  }

  predicate Bit(w: Word, i: Word)
    requires i < 32
  {
    (w >> i) & 1 == 1
  }

  function Low(n: Word): Word
    requires n < 32
  {
    ((1 as Word) << n) - 1
  }

  function Xor(v: Word, w: Word): Word { v ^ w }

  predicate ClearBelow(x: Word, n: Word)
    requires n < 32
  {
    x & Low(n) == 0
  }

  /** v and w have the same n low bits. */
  predicate Agree(v: Word, w: Word, n: Word)
    requires n < 32
  {
    ClearBelow(Xor(v, w), n)
  }

  lemma Succ(h: Word)
    requires h < 32
    ensures Len(h + 1) == Len(h) + 1
  {
  }

  lemma Pred(h: Word)
    requires 0 < h < 32
    ensures Len(h - 1) == Len(h) - 1
  {
    Succ(h - 1);
  }

  lemma Small(h: Word)
    requires h < 32
    ensures Len(h) < 32
  {
  }

  lemma AgreeHalves(v: Word, w: Word, h: Word)
    requires 0 < h < 32 && Agree(v, w, h)
    ensures Odd(v) == Odd(w) && Agree(Half(v), Half(w), h - 1)
  {
  }

  lemma HalvesAgree(v: Word, w: Word, h: Word)
    requires 0 < h < 32 && Odd(v) == Odd(w) && Agree(Half(v), Half(w), h - 1)
    ensures Agree(v, w, h)
  {
  }

  /** Agreeing on h forks is agreeing under the mask of the h low bits. */
  lemma {:induction false} BitsEqual(v: Word, w: Word, h: Word)
    requires h < 32
    ensures Bits(v, Len(h)) == Bits(w, Len(h)) <==> Agree(v, w, h)
    decreases h
  {
    hide Agree, Half, Odd;
    if h == 0 {
      AgreeZero(v, w);
    } else {
      Pred(h);
      BitsEqual(Half(v), Half(w), h - 1);
      if Agree(v, w, h) { AgreeHalves(v, w, h); }
      if Odd(v) == Odd(w) && Agree(Half(v), Half(w), h - 1) { HalvesAgree(v, w, h); }
      ConsEqual(Odd(v), Bits(Half(v), Len(h) - 1), Odd(w), Bits(Half(w), Len(h) - 1));
    }
  }

  lemma AgreeZero(v: Word, w: Word)
    ensures Agree(v, w, 0)
  {
  }

  lemma ConsEqual(x: bool, a: seq<bool>, y: bool, b: seq<bool>)
    ensures [x] + a == [y] + b <==> x == y && a == b
  {
    assert ([x] + a)[1..] == a && ([y] + b)[1..] == b;
    assert ([x] + a)[0] == x && ([y] + b)[0] == y;
  }

  lemma ShiftBit(w: Word, i: Word)
    requires 0 < i < 32
    ensures Bit(w, i) == Bit(Half(w), i - 1)
  {
  }

  lemma BitZero(w: Word)
    ensures Bit(w, 0) == Odd(w)
  {
  }

  lemma {:induction false} BitsSnoc(w: Word, h: Word)
    requires h < 31
    ensures Bits(w, Len(h + 1)) == Bits(w, Len(h)) + [Bit(w, h)]
    decreases h
  {
    Succ(h);
    if h == 0 {
      BitZero(w);
      assert Bits(Half(w), 0) == [];
    } else {
      Pred(h);
      BitsSnoc(Half(w), h - 1);
      ShiftBit(w, h);
      assert (h - 1) + 1 == h;
      assert Bits(w, Len(h + 1)) == [Odd(w)] + Bits(Half(w), Len(h));
    }
  }

  /** Shorter readings are prefixes of longer ones. */
  lemma {:induction false} BitsPrefix(w: Word, i: nat, n: nat)
    requires i <= n
    ensures Bits(w, n)[..i] == Bits(w, i)
  {
    if i == 0 {
    } else {
      BitsPrefix(Half(w), i - 1, n - 1);
      assert Bits(w, n)[..i] == [Odd(w)] + Bits(Half(w), n - 1)[..i - 1];
    }
  }

  lemma BitsAt(w: Word, i: Word, n: nat)
    requires i < 31 && Len(i) < n
    ensures Bits(w, n)[Len(i)] == Bit(w, i)
  {
    Succ(i);
    BitsPrefix(w, Len(i) + 1, n);
    BitsSnoc(w, i);
    assert Bits(w, n)[Len(i)] == Bits(w, n)[..Len(i) + 1][Len(i)];
  }

  /** Count of trailing zeros. */
  function Ctz(x: Word): (n: Word)
    requires x != 0
    decreases x
  {
    if Odd(x) then 0 else HalfSmaller(x); Ctz(Half(x)) + 1
  }

  lemma HalfSmaller(x: Word)
    requires !Odd(x) && x != 0
    ensures 0 != Half(x) < x
  {
  }

  /** n is the position of the lowest set bit of x. */
  predicate LowestBit(x: Word, n: Word) { n < 32 && Bit(x, n) && ClearBelow(x, n) }

  lemma LowestOdd(x: Word)
    requires Odd(x)
    ensures LowestBit(x, 0)
  {
  }

  lemma LowestStep(x: Word, n: Word)
    requires !Odd(x) && LowestBit(Half(x), n)
    ensures LowestBit(x, n + 1)
  {
  }

  lemma {:induction false} CtzIsLowestBit(x: Word)
    requires x != 0
    ensures LowestBit(x, Ctz(x))
    decreases x
  {
    hide LowestBit, Half, Odd;
    if Odd(x) {
      LowestOdd(x);
    } else {
      HalfSmaller(x);
      CtzIsLowestBit(Half(x));
      LowestStep(x, Ctz(Half(x)));
    }
  }

  // ----- words as numbers -----

  function Next(w: Word): Word { w + 1 }

  const ALL_ONES: Word := 0xffff_ffff

  function Value(w: Word): nat
    decreases w
  {
    if w == 0 then 0 else HalfLess(w); (if Odd(w) then 1 else 0) + 2 * Value(Half(w))
  }

  lemma HalfLess(w: Word)
    requires w != 0
    ensures Half(w) < w
  {
  }

  lemma HalfZero()
    ensures Half(0) == 0 && !Odd(0)
  {
  }

  lemma ValueStep(w: Word)
    ensures Value(w) == (if Odd(w) then 1 else 0) + 2 * Value(Half(w))
  {
    hide Half, Odd;
    HalfZero();
  }

  lemma OddNext(d: Word)
    requires d != ALL_ONES && Odd(d)
    ensures Half(Next(d)) == Next(Half(d)) && !Odd(Next(d)) && Half(d) != ALL_ONES && d != 0
  {
  }

  lemma EvenNext(d: Word)
    requires !Odd(d)
    ensures Half(Next(d)) == Half(d) && Odd(Next(d))
  {
  }

  lemma {:induction false} ValueNext(d: Word)
    requires d != ALL_ONES
    ensures Value(Next(d)) == Value(d) + 1
    decreases d
  {
    hide Value, Half, Odd, Next;
    ValueStep(d);
    ValueStep(Next(d));
    if Odd(d) {
      OddNext(d);
      HalfLess(d);
      ValueNext(Half(d));
    } else {
      EvenNext(d);
    }
  }

  /** The C comparison of unsigned words. */
  predicate Leq(a: Word, b: Word) { Value(a) <= Value(b) }
}
