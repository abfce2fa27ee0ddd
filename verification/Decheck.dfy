/**
 The entanglement detector's operations on threads, and the loops that its own
 assertions compare the bit tricks with.
 */
module Decheck {
  import opened PathWords
  import opened DecheckIds
  import FJ = ForkJoin

  // ----- threads -----

  class GCThread {
    var decheckState: Tid
    const decheckSyncDepths: array<Word>

    ghost predicate Valid()
      reads this
    {
      decheckSyncDepths.Length == FJ.DEPTHS_LEN
    }

    constructor ()
      ensures Valid() && fresh(decheckSyncDepths)
      ensures decheckState == Tid(0, 0)
      ensures decheckSyncDepths[..] == Zeros()
    {
      decheckState := Tid(0, 0);
      decheckSyncDepths := new Word[FJ.DEPTHS_LEN](_ => 0);
    }

    /** Ids for the two children of the current task. */
    method DecheckFork() returns (left: Tid, right: Tid)
      requires TreeDepth(decheckState) < MAX_TREE_DEPTH
      ensures left == ForkLeft(decheckState) && right == ForkRight(decheckState)
      ensures WellFormed(decheckState) && DagDepth(decheckState) != MAX_DAG_DEPTH ==>
                View(left) == FJ.Left(View(decheckState)) && View(right) == FJ.Right(View(decheckState))
    {
      hide LeftPath, RightPath, ForkDepth, TreeDepth, DagDepth, Bit, View, Value, Bits;
      var tid := decheckState;
      var h := TreeDepth(tid);
      left := Tid(LeftPath(tid.path, h), ForkDepth(tid.depth));
      right := Tid(RightPath(tid.path, h), ForkDepth(tid.depth));
      if WellFormed(decheckState) && DagDepth(decheckState) != MAX_DAG_DEPTH { ForkView(decheckState); }
    }

    method SetSyncDepth(pathLen: nat, syncDepth: Word)
      requires Valid() && pathLen < FJ.DEPTHS_LEN
      modifies decheckSyncDepths
      ensures decheckSyncDepths[..] == old(decheckSyncDepths[..])[pathLen := syncDepth]
    {
      decheckSyncDepths[pathLen] := syncDepth;
    }

    method DecheckSetTid(tid: Tid)
      requires Valid() && TreeDepth(tid) <= MAX_TREE_DEPTH
      modifies this`decheckState, decheckSyncDepths
      ensures decheckState == tid
      ensures SetSync.requires(old(decheckSyncDepths[..]), tid)
      ensures decheckSyncDepths[..] == SetSync(old(decheckSyncDepths[..]), tid)
    {
      decheckState := tid;
      Small(TreeDepth(tid));
      SetSyncDepth(Len(TreeDepth(tid)), DagDepth(tid));
    }

    /** Continue as the task the two children join into. */
    method DecheckJoin(left: Tid, right: Tid)
      requires Valid() && WellFormed(left) && WellFormed(right) && 1 <= TreeDepth(left)
      requires DagDepth(left) != MAX_DAG_DEPTH && DagDepth(right) != MAX_DAG_DEPTH
      modifies this`decheckState, decheckSyncDepths
      ensures decheckState == JoinTid(left, right) && WellFormed(decheckState)
      ensures decheckSyncDepths[..] == SetSync(old(decheckSyncDepths[..]), decheckState)
    {
      hide JoinPath, PackDepth, TreeDepth, DagDepth, Bit, View, Value, Bits, Next, Len;
      JoinView(left, right);
      var td := TreeDepth(left) - 1;
      var dd := Next(MaxDepth(DagDepth(left), DagDepth(right)));
      var tid := Tid(JoinPath(left.path, td), PackDepth(dd, td));
      decheckState := tid;
      Small(TreeDepth(tid));
      SetSyncDepth(Len(TreeDepth(tid)), DagDepth(tid));
    }

    /** Copies all sync depths, whatever the steal depth; false stands for the
        fatal error on a steal depth out of range. */
    method CopySyncDepthsFrom(from: GCThread, stealDepth: nat) returns (ok: bool)
      requires Valid() && from.Valid()
      modifies decheckSyncDepths
      ensures ok <==> stealDepth <= FJ.DEPTHS_LEN
      ensures decheckSyncDepths[..] == if ok then old(from.decheckSyncDepths[..]) else old(decheckSyncDepths[..])
    {
      if stealDepth > FJ.DEPTHS_LEN { return false; }
      var i := 0;
      while i < FJ.DEPTHS_LEN
        invariant i <= FJ.DEPTHS_LEN
        invariant forall k :: 0 <= k < i ==> decheckSyncDepths[k] == old(from.decheckSyncDepths[k])
        invariant forall k :: i <= k < FJ.DEPTHS_LEN ==> from.decheckSyncDepths[k] == old(from.decheckSyncDepths[k])
      {
        decheckSyncDepths[i] := from.decheckSyncDepths[i];
        i := i + 1;
      }
      ok := true;
    }

    /** Does the task that allocated under id t1 precede this thread's task? */
    method DecheckIsOrdered(t1: Tid) returns (ordered: bool)
      requires Valid() && TreeDepth(decheckState) <= MAX_TREE_DEPTH && TreeDepth(t1) <= MAX_TREE_DEPTH
      ensures ordered <==> IsOrdered(decheckState, decheckSyncDepths[..], t1)
    {
      hide NormPath, TreeDepth, DagDepth, LcaBitOf, BitIndex, LcaPath, Leq, Len;
      var p1, p2 := NormPath(t1), NormPath(decheckState);
      if p1 == p2 { return true; }
      var lcaBit := LcaBitOf(t1, decheckState);
      var llen := BitIndex(t1, decheckState);
      var lcaPath := LcaPath(p1, lcaBit);
      ordered := p1 == lcaPath || Leq(DagDepth(t1), decheckSyncDepths[Len(llen)]);
    }
  }

  function Zeros(): seq<Word> { seq(FJ.DEPTHS_LEN, _ => 0) }

  function SetSync(sync: seq<Word>, tid: Tid): (r: seq<Word>)
    requires Len(TreeDepth(tid)) < |sync|
    ensures |r| == |sync|
  {
    sync[Len(TreeDepth(tid)) := DagDepth(tid)]
  }

  // ----- the slow common-prefix loop the assertions use -----

  function Msb(x: Word): nat
    requires x != 0
    decreases x
  {
    if x == 1 then 0 else HalfShrinks(x); 1 + Msb(Half(x))
  }

  lemma HalfShrinks(x: Word)
    requires x != 0 && x != 1
    ensures Half(x) != 0 && Half(x) < x
  {
  }

  method MsbPosition(x: Word) returns (i: nat)
    requires x != 0
    ensures i == Msb(x)
  {
    var y := x;
    i := 0;
    while y != 1
      invariant y != 0 && i + Msb(y) == Msb(x)
      decreases y
    {
      HalfShrinks(y);
      y := Half(y);
      i := i + 1;
    }
  }

  /** The common-prefix length, one bit at a time. */
  method LcaLen(w1: Word, w2: Word) returns (i: nat)
    requires w1 != 0 && w2 != 0
    ensures i == FJ.CommonPrefix(Bits(w1, Msb(w1)), Bits(w2, Msb(w2)))
  {
    hide Half, Odd, Msb, Bits, FJ.CommonPrefix;
    var p1, p2 := w1, w2;
    i := 0;
    var p1len := MsbPosition(p1);
    var p2len := MsbPosition(p2);
    var mlen := if p1len < p2len then p1len else p2len;
    while i < mlen && Odd(p1) == Odd(p2)
      invariant i <= mlen
      invariant i + FJ.CommonPrefix(Bits(p1, p1len - i), Bits(p2, p2len - i))
        == FJ.CommonPrefix(Bits(w1, p1len), Bits(w2, p2len))
    {
      LcaStep(p1, p1len - i, p2, p2len - i);
      p1, p2, i := Half(p1), Half(p2), i + 1;
    }
    LcaStop(p1, p1len - i, p2, p2len - i);
  }

  lemma LcaStop(p: Word, n: nat, q: Word, m: nat)
    requires n == 0 || m == 0 || Odd(p) != Odd(q)
    ensures FJ.CommonPrefix(Bits(p, n), Bits(q, m)) == 0
  {
    hide Odd, Half;
  }

  lemma LcaStep(p: Word, n: nat, q: Word, m: nat)
    requires n > 0 && m > 0 && Odd(p) == Odd(q)
    ensures FJ.CommonPrefix(Bits(p, n), Bits(q, m)) == 1 + FJ.CommonPrefix(Bits(Half(p), n - 1), Bits(Half(q), m - 1))
  {
    hide Odd, Half;
    assert Bits(p, n)[1..] == Bits(Half(p), n - 1) && Bits(q, m)[1..] == Bits(Half(q), m - 1);
  }

  lemma HalfNorm(p: Word, h: Word)
    requires 0 < h <= 30 && Bit(p, h)
    ensures h - 1 <= 30 && Bit(Half(p), h - 1) && Half(Norm(p, h)) == Norm(Half(p), h - 1)
    ensures Norm(p, h) != 0 && Norm(p, h) != 1
  {
  }

  lemma NormZero(p: Word)
    requires Bit(p, 0)
    ensures Norm(p, 0) == 1
  {
  }

  lemma {:induction false} MsbOfNorm(p: Word, h: Word)
    requires h <= 30 && Bit(p, h)
    ensures Norm(p, h) != 0 && Msb(Norm(p, h)) == Len(h)
    decreases h
  {
    hide Bit, Norm, Half, Len;
    if h == 0 {
      NormZero(p);
      LenZero();
    } else {
      HalfNorm(p, h);
      MsbOfNorm(Half(p), h - 1);
      Pred(h);
    }
  }

  lemma LenZero()
    ensures Len(0) == 0
  {
  }

  /** On well-formed ids the loop, the bit hack and the common prefix of the
      fork paths agree. */
  lemma LcaLenIsBitIndex(a: Tid, b: Tid)
    requires WellFormed(a) && WellFormed(b)
    ensures NormPath(a) != 0 && NormPath(b) != 0
    ensures Len(BitIndex(a, b)) ==
            FJ.CommonPrefix(Bits(NormPath(a), Msb(NormPath(a))), Bits(NormPath(b), Msb(NormPath(b))))
  {
    hide Bit, Norm, Bits, Len, TreeDepth, Msb, Ctz, LcaBitOf, Agree, One;
    LcaIsCommonPrefix(a, b);
    NormBits(a);
    NormBits(b);
  }

  lemma NormBits(a: Tid)
    requires WellFormed(a)
    ensures NormPath(a) != 0 && Bits(NormPath(a), Msb(NormPath(a))) == View(a).path
  {
    hide Bit, Norm, Bits, Len, TreeDepth, Msb, Agree;
    MsbOfNorm(a.path, TreeDepth(a));
    NormAgrees(a.path, TreeDepth(a), TreeDepth(a));
    BitsEqual(NormPath(a), a.path, TreeDepth(a));
  }
}
