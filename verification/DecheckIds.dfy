/**
 Packed task ids of the entanglement detector and the bit operations on them,
 related to the paths and dag depths they stand for.
 */
module DecheckIds {
  import opened PathWords
  import FJ = ForkJoin

  /** The two words of a decheck id. The low five bits of `depth` are the tree
      depth, the other 27 the dag depth. */
  datatype Tid = Tid(path: Word, depth: Word)

  const MAX_TREE_DEPTH: Word := 30
  const MAX_DAG_DEPTH: Word := 0x7ffffff

  function TreeDepth(t: Tid): Word { t.depth & 0x1f }

  function DagDepth(t: Tid): Word { t.depth >> 5 }

  function NormPath(t: Tid): Word
    requires TreeDepth(t) <= MAX_TREE_DEPTH
  {
    Norm(t.path, TreeDepth(t))
  }

  function Norm(p: Word, h: Word): Word
    requires h <= MAX_TREE_DEPTH
  {
    p & Low(h + 1)
  }

  function One(i: Word): Word
    requires i < 32
  {
    (1 as Word) << i
  }

  const INIT_TID := Tid(1, 0)

  function LeftPath(p: Word, h: Word): Word
    requires h < 31
  {
    (p & !One(h)) | One(h + 1)
  }

  function RightPath(p: Word, h: Word): Word
    requires h < 31
  {
    (p | One(h)) | One(h + 1)
  }

  function JoinPath(p: Word, td: Word): Word
    requires td < 32
  {
    p | One(td)
  }

  function ForkDepth(d: Word): Word { d + One(5) + 1 }

  function PackDepth(dd: Word, td: Word): Word { (dd << 5) + td }

  function ForkLeft(t: Tid): Tid
    requires TreeDepth(t) < MAX_TREE_DEPTH
  {
    Tid(LeftPath(t.path, TreeDepth(t)), ForkDepth(t.depth))
  }

  function ForkRight(t: Tid): Tid
    requires TreeDepth(t) < MAX_TREE_DEPTH
  {
    Tid(RightPath(t.path, TreeDepth(t)), ForkDepth(t.depth))
  }

  function MaxDepth(a: Word, b: Word): Word { if Leq(b, a) then a else b }

  function JoinTid(l: Tid, r: Tid): Tid
    requires 1 <= TreeDepth(l)
  {
    var td := TreeDepth(l) - 1;
    Tid(JoinPath(l.path, td), PackDepth(Next(MaxDepth(DagDepth(l), DagDepth(r))), td))
  }

  // ----- what a packed id stands for -----

  /** The marker bit is in place and the tree depth within bounds. */
  predicate WellFormed(t: Tid) {
    TreeDepth(t) <= MAX_TREE_DEPTH && Bit(t.path, TreeDepth(t))
  }

  function View(t: Tid): FJ.TaskId {
    FJ.TaskId(Bits(t.path, Len(TreeDepth(t))), Value(DagDepth(t)))
  }

  /** A fork moves both depths by one without one spilling into the other. */
  lemma ForkDepths(t: Tid, c: Tid)
    requires TreeDepth(t) < MAX_TREE_DEPTH && DagDepth(t) != MAX_DAG_DEPTH && c.depth == ForkDepth(t.depth)
    ensures TreeDepth(c) == TreeDepth(t) + 1
    ensures TreeDepth(c) <= MAX_TREE_DEPTH
    ensures DagDepth(c) == Next(DagDepth(t)) && DagDepth(t) != ALL_ONES
  {
  }

  lemma LeftPathBits(p: Word, h: Word)
    requires h < 30
    ensures Agree(LeftPath(p, h), p, h) && !Bit(LeftPath(p, h), h) && Bit(LeftPath(p, h), h + 1)
  {
  }

  lemma RightPathBits(p: Word, h: Word)
    requires h < 30
    ensures Agree(RightPath(p, h), p, h) && Bit(RightPath(p, h), h) && Bit(RightPath(p, h), h + 1)
  {
  }

  /** The path of an id that agrees with p below h and has bit h equal to b. */
  lemma ChildBits(c: Word, p: Word, h: Word, b: bool)
    requires h < 30 && Agree(c, p, h) && Bit(c, h) == b
    ensures Bits(c, Len(h + 1)) == Bits(p, Len(h)) + [b]
  {
    hide Bit, Agree, Bits;
    BitsEqual(c, p, h);
    BitsSnoc(c, h);
  }

  /** Forking packed ids is forking the tasks they stand for. */
  lemma ForkView(t: Tid)
    requires WellFormed(t) && TreeDepth(t) < MAX_TREE_DEPTH && DagDepth(t) != MAX_DAG_DEPTH
    ensures WellFormed(ForkLeft(t)) && View(ForkLeft(t)) == FJ.Left(View(t))
    ensures WellFormed(ForkRight(t)) && View(ForkRight(t)) == FJ.Right(View(t))
  {
    hide Bit, Agree, Bits, Value, TreeDepth, DagDepth, LeftPath, RightPath, ForkDepth, Next;
    var h := TreeDepth(t);
    ForkDepths(t, ForkLeft(t));
    ForkDepths(t, ForkRight(t));
    ValueNext(DagDepth(t));
    LeftPathBits(t.path, h);
    RightPathBits(t.path, h);
    ChildBits(ForkLeft(t).path, t.path, h, false);
    ChildBits(ForkRight(t).path, t.path, h, true);
  }

  /** The two children differ in one bit: the side taken at the fork. */
  lemma ForkNorm(t: Tid)
    requires TreeDepth(t) < MAX_TREE_DEPTH && DagDepth(t) != MAX_DAG_DEPTH
    ensures TreeDepth(ForkLeft(t)) <= MAX_TREE_DEPTH && TreeDepth(ForkRight(t)) <= MAX_TREE_DEPTH
    ensures Xor(NormPath(ForkLeft(t)), NormPath(ForkRight(t))) == One(TreeDepth(t))
  {
    hide TreeDepth, DagDepth, LeftPath, RightPath, ForkDepth, One, Norm, Xor;
    ForkDepths(t, ForkLeft(t));
    ForkDepths(t, ForkRight(t));
    ForkNormBits(t.path, TreeDepth(t));
  }

  lemma ForkNormBits(p: Word, h: Word)
    requires h < 30
    ensures Xor(Norm(LeftPath(p, h), h + 1), Norm(RightPath(p, h), h + 1)) == One(h)
  {
  }

  // ----- join -----

  lemma JoinDepths(dd: Word, td: Word, t: Tid)
    requires td <= 30 && dd != MAX_DAG_DEPTH && t.depth == PackDepth(Next(dd), td) && dd >> 27 == 0
    ensures TreeDepth(t) == td && DagDepth(t) == Next(dd) && dd != ALL_ONES
  {
  }

  lemma DagDepthSmall(t: Tid)
    ensures DagDepth(t) >> 27 == 0
  {
  }

  lemma JoinPathBits(p: Word, td: Word)
    requires td < 30
    ensures Agree(JoinPath(p, td), p, td) && Bit(JoinPath(p, td), td)
  {
  }

  /** The depths of a joined id. */
  lemma JoinTidDepths(l: Tid, r: Tid)
    requires 1 <= TreeDepth(l) <= MAX_TREE_DEPTH
    requires DagDepth(l) != MAX_DAG_DEPTH && DagDepth(r) != MAX_DAG_DEPTH
    ensures var m := MaxDepth(DagDepth(l), DagDepth(r));
      && TreeDepth(JoinTid(l, r)) == TreeDepth(l) - 1 && TreeDepth(l) - 1 < 30
      && DagDepth(JoinTid(l, r)) == Next(m) && m != ALL_ONES
  {
    hide TreeDepth, DagDepth, JoinPath, PackDepth, Next, MaxDepth;
    Down(TreeDepth(l));
    DagDepthSmall(l);
    DagDepthSmall(r);
    LargerDepth(DagDepth(l), DagDepth(r));
    JoinDepths(MaxDepth(DagDepth(l), DagDepth(r)), TreeDepth(l) - 1, JoinTid(l, r));
  }

  /** Joining packed ids is joining the tasks they stand for. */
  lemma JoinView(l: Tid, r: Tid)
    requires WellFormed(l) && WellFormed(r) && 1 <= TreeDepth(l)
    requires DagDepth(l) != MAX_DAG_DEPTH && DagDepth(r) != MAX_DAG_DEPTH
    ensures WellFormed(JoinTid(l, r)) && |View(l).path| > 0 && View(JoinTid(l, r)) == FJ.Joined(View(l), View(r))
  {
    hide Bit, Agree, Bits, Value, TreeDepth, DagDepth, JoinPath, PackDepth, Next, Len, MaxDepth;
    JoinTidDepths(l, r);
    LargerDepth(DagDepth(l), DagDepth(r));
    ValueNext(MaxDepth(DagDepth(l), DagDepth(r)));
    JoinBits(l.path, TreeDepth(l));
  }

  lemma LargerDepth(a: Word, b: Word)
    ensures MaxDepth(a, b) == a || MaxDepth(a, b) == b
    ensures Value(MaxDepth(a, b)) == if Value(a) < Value(b) then Value(b) else Value(a)
  {
    hide Value;
  }

  lemma Down(h: Word)
    requires 1 <= h <= MAX_TREE_DEPTH
    ensures h - 1 < 30
  {
  }

  lemma JoinBits(p: Word, h: Word)
    requires 1 <= h <= 30 && h - 1 < 30
    ensures Len(h) > 0 && Bits(JoinPath(p, h - 1), Len(h - 1)) == Bits(p, Len(h))[..Len(h) - 1]
    ensures Bit(JoinPath(p, h - 1), h - 1)
  {
    hide Bit, Agree, Bits, JoinPath;
    JoinPathBits(p, h - 1);
    BitsEqual(JoinPath(p, h - 1), p, h - 1);
    Pred(h);
    BitsPrefix(p, Len(h - 1), Len(h));
  }

  // ----- comparing paths -----

  lemma SameNat(a: Word, b: Word)
    requires a < 32 && b < 32
    ensures Len(a) == Len(b) <==> a == b
    ensures Len(a) <= Len(b) <==> a <= b
  {
  }

  lemma NormsAgreeBelow(p: Word, q: Word, h: Word)
    requires h <= MAX_TREE_DEPTH && Norm(p, h) == Norm(q, h)
    ensures Agree(p, q, h)
  {
  }

  lemma AgreeingNorms(p: Word, q: Word, h: Word)
    requires h <= MAX_TREE_DEPTH && Bit(p, h) && Bit(q, h) && Agree(p, q, h)
    ensures Norm(p, h) == Norm(q, h)
  {
    calc {
      Norm(p, h);
      (p & Low(h)) | One(h);
      (q & Low(h)) | One(h);
      Norm(q, h);
    }
  }

  /** The marker bit is the highest one. */
  lemma TopBit(p: Word, h: Word, k: Word)
    requires h <= MAX_TREE_DEPTH && k <= MAX_TREE_DEPTH && Bit(p, h)
    ensures Bit(Norm(p, h), h) && (h < k ==> !Bit(Norm(p, h), k))
  {
  }

  lemma NormDepths(p: Word, h: Word, q: Word, k: Word)
    requires h <= MAX_TREE_DEPTH && k <= MAX_TREE_DEPTH && Bit(p, h) && Bit(q, k) && h != k
    ensures Norm(p, h) != Norm(q, k)
  {
    hide Norm, Bit;
    TopBit(p, h, k);
    TopBit(q, k, h);
  }

  /** Normalised paths are equal exactly when the fork paths are: the marker
      bit separates paths of different lengths, junk above it is cut off. */
  lemma NormPathIsPath(a: Tid, b: Tid)
    requires WellFormed(a) && WellFormed(b)
    ensures NormPath(a) == NormPath(b) <==> View(a).path == View(b).path
  {
    hide Bit, Agree, Bits, Norm, TreeDepth, Len;
    var h, k := TreeDepth(a), TreeDepth(b);
    SameNat(h, k);
    if h == k {
      BitsEqual(a.path, b.path, h);
      if NormPath(a) == NormPath(b) { NormsAgreeBelow(a.path, b.path, h); }
      if Agree(a.path, b.path, h) { AgreeingNorms(a.path, b.path, h); }
    } else {
      NormDepths(a.path, h, b.path, k);
    }
  }

  // ----- the lowest common ancestor -----

  function SharedMask(h: Word, k: Word): Word
    requires h < 32 && k < 32
  {
    Low(h) & Low(k)
  }

  function UpTo(x: Word, mask: Word): Word { (x & mask) | (mask + 1) }

  function LcaBit(x: Word): Word { x & -x }

  function LcaBitOf(a: Tid, b: Tid): Word
    requires TreeDepth(a) <= MAX_TREE_DEPTH && TreeDepth(b) <= MAX_TREE_DEPTH
  {
    LcaBit(UpTo(Xor(NormPath(a), NormPath(b)), SharedMask(TreeDepth(a), TreeDepth(b))))
  }

  lemma LcaBitLowest(x: Word, n: Word)
    requires LowestBit(LcaBit(x), n)
    ensures LowestBit(x, n) && LcaBit(x) == One(n)
  {
  }

  lemma LcaBitNonZero(x: Word, h: Word, k: Word)
    requires h <= 30 && k <= 30
    ensures LcaBit(UpTo(x, SharedMask(h, k))) != 0
  {
  }

  function Meet(h: Word, k: Word): Word { if h <= k then h else k }

  lemma LowMeet(h: Word, k: Word)
    requires h <= 30 && k <= 30
    ensures SharedMask(h, k) == Low(Meet(h, k)) && Meet(h, k) <= 30
  {
  }

  /** The lowest set bit of x below s, or s when there is none. */
  lemma LowestUpTo(x: Word, s: Word, n: Word)
    requires s <= 30 && LowestBit(UpTo(x, Low(s)), n)
    ensures n < 32 && n <= s && ClearBelow(x, n) && (n == s || Bit(x, n))
  {
  }

  lemma BelowMeet(h: Word, k: Word, n: Word)
    requires h <= 30 && k <= 30 && n <= Meet(h, k)
    ensures n <= h && n <= k && n <= 30
    ensures n == Meet(h, k) ==> n == h || n == k
  {
  }

  lemma BitXor(p: Word, q: Word, n: Word)
    requires n < 32 && Bit(Xor(p, q), n)
    ensures Bit(p, n) != Bit(q, n)
  {
  }

  lemma NormBit(p: Word, h: Word, n: Word)
    requires h <= 30 && n <= h
    ensures n < 32 && Bit(Norm(p, h), n) == Bit(p, n)
  {
  }

  lemma NormAgrees(p: Word, h: Word, n: Word)
    requires h <= 30 && n <= h
    ensures n < 32 && Agree(Norm(p, h), p, n)
  {
  }

  lemma AgreeTransitive(p: Word, p': Word, q': Word, q: Word, n: Word)
    requires n < 32 && Agree(p', p, n) && Agree(p', q', n) && Agree(q', q, n)
    ensures Agree(p, q, n)
  {
    hide Agree, Bits;
    BitsEqual(p', p, n);
    BitsEqual(p', q', n);
    BitsEqual(q', q, n);
    BitsEqual(p, q, n);
  }

  lemma LcaWordLowest(p: Word, h: Word, q: Word, k: Word, n: Word)
    requires h <= 30 && k <= 30
    requires LowestBit(UpTo(Xor(Norm(p, h), Norm(q, k)), SharedMask(h, k)), n)
    ensures n <= h && n <= k && Agree(p, q, n)
    ensures n == h || n == k || Bit(p, n) != Bit(q, n)
  {
    hide Bit, Low, ClearBelow, LowestBit, Norm, Meet, UpTo, Xor, SharedMask;
    LowMeet(h, k);
    var s := Meet(h, k);
    LowestUpTo(Xor(Norm(p, h), Norm(q, k)), s, n);
    BelowMeet(h, k, n);
    NormAgrees(p, h, n);
    NormAgrees(q, k, n);
    AgreeTransitive(p, Norm(p, h), Norm(q, k), q, n);
    NormBit(p, h, n);
    NormBit(q, k, n);
    if n != s { BitXor(Norm(p, h), Norm(q, k), n); }
  }

  /** The bit hack finds the length of the longest common prefix. */
  lemma LcaIsCommonPrefix(a: Tid, b: Tid)
    requires WellFormed(a) && WellFormed(b)
    ensures LcaBitOf(a, b) != 0
    ensures var n := Ctz(LcaBitOf(a, b));
      && n < 32 && LcaBitOf(a, b) == One(n) && n <= TreeDepth(a) && n <= TreeDepth(b)
      && Len(n) == FJ.CommonPrefix(View(a).path, View(b).path)
  {
    hide Bit, Low, LowestBit, Norm, One, Bits, TreeDepth, UpTo, Xor, LcaBit, Ctz, Agree, Len, SharedMask;
    var h, k := TreeDepth(a), TreeDepth(b);
    var x := Xor(NormPath(a), NormPath(b));
    LcaBitNonZero(x, h, k);
    var n := Ctz(LcaBitOf(a, b));
    CtzIsLowestBit(LcaBitOf(a, b));
    LcaBitLowest(UpTo(x, SharedMask(h, k)), n);
    LcaWordLowest(a.path, h, b.path, k, n);
    CommonBits(a.path, h, b.path, k, n);
  }

  lemma CommonBits(p: Word, h: Word, q: Word, k: Word, n: Word)
    requires h <= 30 && k <= 30 && n <= h && n <= k && Agree(p, q, n)
    requires n == h || n == k || Bit(p, n) != Bit(q, n)
    ensures Len(n) == FJ.CommonPrefix(Bits(p, Len(h)), Bits(q, Len(k)))
  {
    hide Bit, Agree, Bits;
    SameNat(n, h);
    SameNat(n, k);
    BitsPrefix(p, Len(n), Len(h));
    BitsPrefix(q, Len(n), Len(k));
    BitsEqual(p, q, n);
    if n != h { BitsAt(p, n, Len(h)); }
    if n != k { BitsAt(q, n, Len(k)); }
    IsCommonPrefix(Bits(p, Len(h)), Bits(q, Len(k)), Len(n));
  }

  lemma IsCommonPrefix(p: FJ.Path, q: FJ.Path, n: nat)
    requires n <= |p| && n <= |q| && p[..n] == q[..n]
    requires n == |p| || n == |q| || p[n] != q[n]
    ensures n == FJ.CommonPrefix(p, q)
  {
    var m := FJ.CommonPrefix(p, q);
    assert forall i :: 0 <= i < m ==> p[i] == p[..m][i] && q[i] == q[..m][i];
    assert forall i :: 0 <= i < n ==> p[i] == p[..n][i] && q[i] == q[..n][i];
  }

  // ----- the detector's test on packed ids -----

  function Values(sync: seq<Word>): seq<nat> { seq(|sync|, i requires 0 <= i < |sync| => Value(sync[i])) }

  /** The path of the lowest common ancestor, with its marker bit. */
  function LcaPath(p: Word, bit: Word): Word { (p & (bit - 1)) | ((bit - 1) + 1) }

  predicate IsOrdered(cur: Tid, sync: seq<Word>, t1: Tid)
    requires TreeDepth(cur) <= MAX_TREE_DEPTH && TreeDepth(t1) <= MAX_TREE_DEPTH && |sync| == FJ.DEPTHS_LEN
  {
    var p1 := NormPath(t1);
    if p1 == NormPath(cur) then true
    else
      var bit := LcaBitOf(t1, cur);
      var llen := BitIndex(t1, cur);
      p1 == LcaPath(p1, bit) || Leq(DagDepth(t1), sync[Len(llen)])
  }

  function BitIndex(a: Tid, b: Tid): (n: Word)
    requires TreeDepth(a) <= MAX_TREE_DEPTH && TreeDepth(b) <= MAX_TREE_DEPTH
    ensures Len(n) < FJ.DEPTHS_LEN
  {
    LcaBitNonZero(Xor(NormPath(a), NormPath(b)), TreeDepth(a), TreeDepth(b));
    CtzIsLowestBit(LcaBitOf(a, b));
    Small(Ctz(LcaBitOf(a, b)));
    Ctz(LcaBitOf(a, b))
  }

  /** Heap depths start at one. */
  function LcaHeapDepth(a: Tid, b: Tid): Word
    requires TreeDepth(a) <= MAX_TREE_DEPTH && TreeDepth(b) <= MAX_TREE_DEPTH
  {
    if NormPath(a) == NormPath(b) then TreeDepth(a) + 1 else BitIndex(a, b) + 1
  }

  lemma LcaPathIsAll(p: Word, h: Word)
    requires h <= 30 && Bit(p, h)
    ensures LcaPath(Norm(p, h), One(h)) == Norm(p, h)
  {
  }

  lemma LcaPathIsShorter(p: Word, h: Word, n: Word)
    requires h <= 30 && Bit(p, h) && n <= h && n != h
    ensures LcaPath(Norm(p, h), One(n)) != Norm(p, h)
  {
    TopBit(p, h, h);
    assert !Bit(LcaPath(Norm(p, h), One(n)), h);
  }

  /** On well-formed ids the packed test is the test on paths and depths. */
  lemma IsOrderedView(cur: Tid, sync: seq<Word>, t1: Tid)
    requires WellFormed(cur) && WellFormed(t1) && |sync| == FJ.DEPTHS_LEN
    ensures |View(cur).path| < |Values(sync)|
    ensures IsOrdered(cur, sync, t1) <==> FJ.IsOrdered(View(cur).path, Values(sync), View(t1))
  {
    hide Bit, Norm, One, Bits, TreeDepth, DagDepth, LcaBitOf, Ctz, Len, Value, LcaPath;
    var p, q := View(cur).path, View(t1).path;
    var n := BitIndex(t1, cur);
    var h := TreeDepth(t1);
    NormPathIsPath(t1, cur);
    LcaIsCommonPrefix(t1, cur);
    Small(TreeDepth(cur));
    SameNat(n, h);
    var k := FJ.CommonPrefix(q, p);
    assert q == p[..k] <==> |q| == k;
    if n == h { LcaPathIsAll(t1.path, h); } else { LcaPathIsShorter(t1.path, h, n); }
  }

  /** The heap depth of the lowest common ancestor is one plus the length of the
      longest common prefix, also when one path is a prefix of the other. */
  lemma LcaHeapDepthIsCommonPrefix(a: Tid, b: Tid)
    requires WellFormed(a) && WellFormed(b)
    ensures Len(LcaHeapDepth(a, b)) == FJ.CommonPrefix(View(a).path, View(b).path) + 1
  {
    hide Bit, Norm, One, Bits, TreeDepth, DagDepth, LcaBitOf, Ctz, Len, Value;
    var p, q := View(a).path, View(b).path;
    NormPathIsPath(a, b);
    LcaIsCommonPrefix(a, b);
    Succ(TreeDepth(a));
    Succ(BitIndex(a, b));
    if p == q {
      assert p[..|p|] == q[..|p|];
      IsCommonPrefix(p, q, |p|);
    }
  }
}
