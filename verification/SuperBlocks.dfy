/**
 Superblocks of the block allocator: blocks are handed out in groups of two to
 the size class, from a free list or from the unused tail.
 */
module SuperBlocks {

  function Pow2(n: nat): (r: nat)
    ensures r > 0
  {
    if n == 0 then 1 else 2 * Pow2(n - 1)
  }

  /** The number of groups in a superblock of 2^threshold blocks. */
  function Groups(threshold: nat, sizeClass: nat): nat
    requires sizeClass <= threshold
  {
    Pow2(threshold - sizeClass)
  }

  lemma {:induction false} PowSplits(a: nat, b: nat)
    ensures Pow2(a) * Pow2(b) == Pow2(a + b)
    decreases a
  {
    if a == 0 {
    } else {
      PowSplits(a - 1, b);
      assert Pow2(a) * Pow2(b) == 2 * (Pow2(a - 1) * Pow2(b));
    }
  }

  /** A group is named by its index; free lists the free groups below the frontier,
      latest first; groups from the frontier on have never been handed out. */
  datatype SuperBlock = SuperBlock(sizeClass: nat, numBlocksFree: nat, free: seq<nat>, frontier: nat)

  function NewSuperBlock(threshold: nat): SuperBlock { SuperBlock(0, Pow2(threshold), [], 0) }

  /** setSuperBlockSizeClass. */
  function Reset(sb: SuperBlock, sizeClass: nat): SuperBlock {
    SuperBlock(sizeClass, sb.numBlocksFree, [], 0)
  }

  /** allocateInSuperBlock: an empty superblock takes on the size class asked for;
      then the latest free group, or else the first of the tail. */
  function Allocate(threshold: nat, sb0: SuperBlock, sizeClass: nat): (SuperBlock, nat)
    requires sb0.numBlocksFree >= Pow2(sizeClass)
  {
    var sb := if sb0.numBlocksFree == Pow2(threshold) then Reset(sb0, sizeClass) else sb0;
    if sb.free == [] then
      (sb.(frontier := sb.frontier + 1, numBlocksFree := sb.numBlocksFree - Pow2(sizeClass)), sb.frontier)
    else
      (sb.(free := sb.free[1..], numBlocksFree := sb.numBlocksFree - Pow2(sizeClass)), sb.free[0])
  }

  /** deallocateInSuperBlock. */
  function Deallocate(sb: SuperBlock, g: nat): SuperBlock {
    sb.(free := [g] + sb.free, numBlocksFree := sb.numBlocksFree + Pow2(sb.sizeClass))
  }

  /** used are the groups that are not free: handed out, or freed by others and
      not yet taken back. Every group is used, on the free list once, or in the
      tail; and numBlocksFree counts list and tail. */
  ghost predicate Partitioned(threshold: nat, sb: SuperBlock, used: set<nat>) {
    && sb.sizeClass < threshold && sb.frontier <= Groups(threshold, sb.sizeClass)
    && (forall i, j :: 0 <= i < j < |sb.free| ==> sb.free[i] != sb.free[j])
    && (forall g: nat :: g in sb.free || g in used <==> g < sb.frontier)
    && (forall g :: g in sb.free ==> g !in used)
    && sb.numBlocksFree == FreeGroups(threshold, sb) * Pow2(sb.sizeClass)
  }

  function FreeGroups(threshold: nat, sb: SuperBlock): nat
    requires sb.sizeClass <= threshold && sb.frontier <= Groups(threshold, sb.sizeClass)
  {
    |sb.free| + Groups(threshold, sb.sizeClass) - sb.frontier
  }

  // ----- where groups lie -----

  /** The block at which a group starts; block zero is the superblock's header. */
  function Start(sizeClass: nat, g: nat): nat { 1 + g * Pow2(sizeClass) }

  /** Groups are aligned to their size, lie within the superblock's blocks, and do
      not overlap. */
  lemma GroupsFit(threshold: nat, sizeClass: nat, g: nat, h: nat)
    requires sizeClass <= threshold && g < Groups(threshold, sizeClass) && h < Groups(threshold, sizeClass)
    ensures (Start(sizeClass, g) - 1) % Pow2(sizeClass) == 0
    ensures 1 <= Start(sizeClass, g) && Start(sizeClass, g) + Pow2(sizeClass) <= 1 + Pow2(threshold)
    ensures g < h ==> Start(sizeClass, g) + Pow2(sizeClass) <= Start(sizeClass, h)
  {
    hide Pow2, Groups;
    GroupsTimes(threshold, sizeClass);
    Multiple(g, Pow2(sizeClass));
    NextMultiple(g, Groups(threshold, sizeClass), Pow2(sizeClass));
    if g < h { NextMultiple(g, h, Pow2(sizeClass)); }
    assert Start(sizeClass, g) - 1 == g * Pow2(sizeClass);
  }

  lemma GroupsTimes(threshold: nat, sizeClass: nat)
    requires sizeClass <= threshold
    ensures Groups(threshold, sizeClass) * Pow2(sizeClass) == Pow2(threshold)
  {
    PowSplits(threshold - sizeClass, sizeClass);
  }

  lemma NextMultiple(g: nat, h: nat, w: nat)
    requires g < h
    ensures g * w + w <= h * w
  {
    assert h * w == g * w + w + (h - g - 1) * w;
  }

  lemma Below(a: nat, b: nat, w: nat)
    requires a <= b
    ensures a * w <= b * w
  {
    assert b * w == a * w + (b - a) * w;
  }

  lemma Multiple(g: nat, w: nat)
    requires w > 0
    ensures g * w % w == 0
  {
    var q, r := g * w / w, g * w % w;
    assert g * w == q * w + r;
    assert (g - q) * w == r;
    if g - q >= 1 { Below(1, g - q, w); }
    if g - q <= -1 { Below(1, q - g, w); }
  }

  // ----- counting -----

  function UpTo(n: nat): set<nat> { if n == 0 then {} else UpTo(n - 1) + {n - 1} }

  lemma {:induction false} UpToSize(n: nat)
    ensures |UpTo(n)| == n && forall g: nat :: g in UpTo(n) <==> g < n
  {
    if n == 0 {
    } else {
      UpToSize(n - 1);
    }
  }

  lemma DistinctBelow(s: seq<nat>, n: nat)
    requires forall i, j :: 0 <= i < j < |s| ==> s[i] != s[j]
    requires forall g :: g in s ==> g < n
    ensures |s| <= n
    ensures |s| == n ==> forall g: nat :: g < n ==> g in s
  {
    var elems := set k | 0 <= k < |s| :: s[k];
    UpToSize(n);
    ElemsSize(s);
    forall x | x in elems ensures x in UpTo(n) {
      var k :| 0 <= k < |s| && s[k] == x;
      assert s[k] in s;
    }
    SubsetSize(elems, UpTo(n));
    if |s| == n {
      forall g: nat | g < n ensures g in s { assert g in elems; }
    }
  }

  lemma {:induction false} ElemsSize(s: seq<nat>)
    requires forall i, j :: 0 <= i < j < |s| ==> s[i] != s[j]
    ensures |set k | 0 <= k < |s| :: s[k]| == |s|
  {
    if s == [] {
    } else {
      var front := s[..|s| - 1];
      ElemsSize(front);
      var a, b := set k | 0 <= k < |s| :: s[k], set k | 0 <= k < |front| :: front[k];
      forall x | x in a ensures x in b + {s[|s| - 1]} {
        var k :| 0 <= k < |s| && s[k] == x;
        if k < |front| { assert front[k] == x; }
      }
      forall x | x in b + {s[|s| - 1]} ensures x in a {
        if x in b { var k :| 0 <= k < |front| && front[k] == x; assert s[k] == x; }
      }
      assert a == b + {s[|s| - 1]};
      assert s[|s| - 1] !in b;
    }
  }

  lemma SubsetSize(a: set<nat>, b: set<nat>)
    requires a <= b
    ensures |a| <= |b| && (|a| == |b| ==> a == b)
  {
    assert b == a + (b - a);
    assert |b| == |a| + |b - a|;
  }

  /** A superblock with all blocks free has no used group, and one with fewer than
      a group's blocks free has no free one. */
  lemma EmptyAndFull(threshold: nat, sb: SuperBlock, used: set<nat>)
    requires Partitioned(threshold, sb, used)
    ensures |sb.free| <= sb.frontier
    ensures sb.numBlocksFree == Pow2(threshold) ==> used == {}
    ensures sb.numBlocksFree < Pow2(sb.sizeClass) <==> FreeGroups(threshold, sb) == 0
    ensures sb.numBlocksFree <= Pow2(threshold)
  {
    PowSplits(threshold - sb.sizeClass, sb.sizeClass);
    DistinctBelow(sb.free, sb.frontier);
    CompareProducts(FreeGroups(threshold, sb), Groups(threshold, sb.sizeClass), Pow2(sb.sizeClass));
  }

  lemma CompareProducts(f: nat, n: nat, w: nat)
    requires f <= n && w > 0
    ensures f * w <= n * w && (f * w == n * w <==> f == n) && (f * w < w <==> f == 0)
  {
    Below(f, n, w);
    if f < n { NextMultiple(f, n, w); }
    if f > 0 { Below(1, f, w); }
  }

  // ----- what the two operations keep -----

  /** The superblock can serve the size class: it is empty, or of that class with
      a group to spare. */
  predicate CanServe(threshold: nat, sb: SuperBlock, sizeClass: nat) {
    && sizeClass < threshold
    && (sb.numBlocksFree == Pow2(threshold) || (sb.sizeClass == sizeClass && sb.numBlocksFree >= Pow2(sizeClass)))
  }

  lemma ResetKeeps(threshold: nat, sb: SuperBlock, used: set<nat>, sizeClass: nat)
    requires Partitioned(threshold, sb, used) && sb.numBlocksFree == Pow2(threshold) && sizeClass < threshold
    ensures used == {} && Partitioned(threshold, Reset(sb, sizeClass), {}) && sb.numBlocksFree >= Pow2(sizeClass)
  {
    hide Pow2, Groups;
    EmptyAndFull(threshold, sb, used);
    GroupsTimes(threshold, sizeClass);
    GroupsExist(threshold, sizeClass);
    Below(1, Groups(threshold, sizeClass), Pow2(sizeClass));
  }

  lemma GroupsExist(threshold: nat, sizeClass: nat)
    requires sizeClass < threshold
    ensures Groups(threshold, sizeClass) >= 2
  {
  }

  lemma TakeGroup(threshold: nat, sb: SuperBlock, used: set<nat>)
    requires Partitioned(threshold, sb, used) && sb.numBlocksFree >= Pow2(sb.sizeClass)
    requires sb.numBlocksFree == Pow2(threshold) ==> sb.free == [] && sb.frontier == 0
    ensures var (sb', g) := Allocate(threshold, sb, sb.sizeClass);
      && g !in used && g < Groups(threshold, sb.sizeClass) && Partitioned(threshold, sb', used + {g})
      && sb'.sizeClass == sb.sizeClass && sb'.numBlocksFree == sb.numBlocksFree - Pow2(sb.sizeClass)
  {
    hide Pow2, Groups;
    EmptyAndFull(threshold, sb, used);
    var (sb', g) := Allocate(threshold, sb, sb.sizeClass);
    assert FreeGroups(threshold, sb) > 0;
    OneLess(FreeGroups(threshold, sb), Pow2(sb.sizeClass));
    if sb.free != [] {
      assert sb.free == [sb.free[0]] + sb.free[1..];
      assert g in sb.free;
      forall x ensures x in sb.free <==> x == g || x in sb.free[1..] {
      }
      assert g !in sb.free[1..];
    }
  }

  lemma OneLess(f: nat, w: nat)
    requires f > 0
    ensures (f - 1) * w == f * w - w
  {
  }

  /** What is handed out was free, is within the superblock, and is used now. */
  lemma AllocateKeeps(threshold: nat, sb: SuperBlock, used: set<nat>, sizeClass: nat)
    requires Partitioned(threshold, sb, used) && CanServe(threshold, sb, sizeClass)
    ensures sb.numBlocksFree >= Pow2(sizeClass)
    ensures var (sb', g) := Allocate(threshold, sb, sizeClass);
      && g !in used && g < Groups(threshold, sizeClass) && Partitioned(threshold, sb', used + {g})
      && sb'.sizeClass == sizeClass && sb'.numBlocksFree == sb.numBlocksFree - Pow2(sizeClass)
      && (sb'.sizeClass != sb.sizeClass ==> used == {})
  {
    hide Pow2, Groups, Partitioned;
    if sb.numBlocksFree == Pow2(threshold) {
      ResetKeeps(threshold, sb, used, sizeClass);
      TakeGroup(threshold, Reset(sb, sizeClass), {});
    } else {
      TakeGroup(threshold, sb, used);
    }
  }

  lemma DeallocateKeeps(threshold: nat, sb: SuperBlock, used: set<nat>, g: nat)
    requires Partitioned(threshold, sb, used) && g in used
    ensures Partitioned(threshold, Deallocate(sb, g), used - {g})
    ensures sb.numBlocksFree < Pow2(threshold)
  {
    hide Pow2, Groups;
    EmptyAndFull(threshold, sb, used);
    var f, w := FreeGroups(threshold, sb), Pow2(sb.sizeClass);
    assert (f + 1) * w == f * w + w;
    forall x ensures x in [g] + sb.free <==> x == g || x in sb.free {
    }
    assert forall x :: x in sb.free ==> x != g;
  }

  // ----- fullness -----

  datatype Fullness = CompletelyFull | NearlyFull | SomewhatFull | NearlyEmpty | CompletelyEmpty

  /** The code compares the free part with the fraction, so that nearly full is
      said of a superblock that is mostly free. */
  function FullnessOf(threshold: nat, emptinessFraction: real, sb: SuperBlock): Fullness {
    if sb.numBlocksFree < Pow2(sb.sizeClass) then CompletelyFull
    else if sb.numBlocksFree == Pow2(threshold) then CompletelyEmpty
    else
      var currentEmptiness := sb.numBlocksFree as real / Pow2(threshold) as real;
      if currentEmptiness >= 1.0 - emptinessFraction then NearlyFull
      else if currentEmptiness < emptinessFraction then NearlyEmpty
      else SomewhatFull
  }

  /** The group as it is documented: by the part in use, in the order listed. */
  function DocumentedFullness(threshold: nat, emptinessFraction: real, sb: SuperBlock): Fullness {
    if sb.numBlocksFree < Pow2(sb.sizeClass) then CompletelyFull
    else if sb.numBlocksFree == Pow2(threshold) then CompletelyEmpty
    else
      var inUse := 1.0 - sb.numBlocksFree as real / Pow2(threshold) as real;
      if inUse >= 1.0 - emptinessFraction then NearlyFull
      else if inUse < emptinessFraction then NearlyEmpty
      else SomewhatFull
  }

  /** Exactly when the code files a partly used superblock as documented: with a
      fraction below one half, when the free part is strictly between the fraction
      and its complement; otherwise when it is between complement and fraction. */
  lemma FullnessAsDocumented(threshold: nat, e: real, sb: SuperBlock)
    requires 0.0 < e < 1.0
    requires Pow2(sb.sizeClass) <= sb.numBlocksFree < Pow2(threshold)
    ensures var x := sb.numBlocksFree as real / Pow2(threshold) as real;
      FullnessOf(threshold, e, sb) == DocumentedFullness(threshold, e, sb) <==>
        if e < 0.5 then e < x < 1.0 - e else 1.0 - e <= x <= e
  {
  }

  /** So with a fraction below one half the two nearly groups are always swapped
      or misfiled: nothing in them is where it is documented to be. */
  lemma NearlyGroupsAreMisfiled(threshold: nat, e: real, sb: SuperBlock)
    requires 0.0 < e < 0.5 && Pow2(sb.sizeClass) <= sb.numBlocksFree < Pow2(threshold)
    requires FullnessOf(threshold, e, sb) != SomewhatFull || DocumentedFullness(threshold, e, sb) != SomewhatFull
    ensures FullnessOf(threshold, e, sb) != DocumentedFullness(threshold, e, sb)
  {
    FullnessAsDocumented(threshold, e, sb);
  }

  /** With a quarter as the fraction, three of four blocks free is nearly full. */
  lemma NearlyFullIsMostlyFree()
    ensures FullnessOf(2, 0.25, SuperBlock(0, 3, [], 1)) == NearlyFull
    ensures DocumentedFullness(2, 0.25, SuperBlock(0, 3, [], 1)) == SomewhatFull
    ensures Partitioned(2, SuperBlock(0, 3, [], 1), {0})
  {
    assert Pow2(0) == 1 && Pow2(1) == 2 && Pow2(2) == 4;
  }

  /** Whatever group it is filed under, a superblock that is not completely full
      can serve its class, and a completely empty one any class. */
  lemma NotFullCanServe(threshold: nat, emptinessFraction: real, sb: SuperBlock, sizeClass: nat)
    requires sizeClass < threshold
    requires var f := FullnessOf(threshold, emptinessFraction, sb);
      f.CompletelyEmpty? || (!f.CompletelyFull? && sb.sizeClass == sizeClass)
    ensures CanServe(threshold, sb, sizeClass)
  {
  }

  // ----- the record and its operations -----

  /** computeSizeClass: the least class with enough blocks. */
  method ComputeSizeClass(numBlocks: nat) returns (sizeClass: nat)
    ensures numBlocks <= Pow2(sizeClass) && forall c: nat :: c < sizeClass ==> Pow2(c) < numBlocks
  {
    sizeClass := 0;
    var size := 1;
    while size < numBlocks
      invariant size == Pow2(sizeClass)
      invariant forall c: nat :: c < sizeClass ==> Pow2(c) < numBlocks
      decreases numBlocks - size
    {
      sizeClass := sizeClass + 1;
      size := 2 * size;
    }
  }

  class SuperBlockRecord {
    var sizeClass: nat
    var numBlocksFree: nat
    var freeList: seq<nat>
    var frontier: nat
    var nextSuperBlock: SuperBlockRecord?
    var prevSuperBlock: SuperBlockRecord?

    constructor (threshold: nat)
      requires threshold > 0
      ensures View() == NewSuperBlock(threshold) && Partitioned(threshold, View(), {})
      ensures nextSuperBlock == null && prevSuperBlock == null
    {
      sizeClass, numBlocksFree, freeList, frontier := 0, Pow2(threshold), [], 0;
      nextSuperBlock, prevSuperBlock := null, null;
      GroupsTimes(threshold, 0);
    }

    function View(): SuperBlock
      reads `sizeClass, `numBlocksFree, `freeList, `frontier
    {
      SuperBlock(sizeClass, numBlocksFree, freeList, frontier)
    }

    /** allocateInSuperBlock. */
    method AllocateInSuperBlock(threshold: nat, wanted: nat, ghost used: set<nat>) returns (g: nat)
      requires Partitioned(threshold, View(), used) && CanServe(threshold, View(), wanted)
      modifies `sizeClass, `numBlocksFree, `freeList, `frontier
      ensures g !in used && g < Groups(threshold, wanted) && Partitioned(threshold, View(), used + {g})
      ensures sizeClass == wanted && numBlocksFree == old(numBlocksFree) - Pow2(wanted)
      ensures old(numBlocksFree) >= Pow2(wanted) && (View(), g) == Allocate(threshold, old(View()), wanted)
    {
      hide Partitioned, Pow2, Groups;
      AllocateKeeps(threshold, View(), used, wanted);
      if numBlocksFree == Pow2(threshold) {
        sizeClass, freeList, frontier := wanted, [], 0;
      }
      if freeList == [] {
        g := frontier;
        frontier := frontier + 1;
      } else {
        g := freeList[0];
        freeList := freeList[1..];
      }
      numBlocksFree := numBlocksFree - Pow2(sizeClass);
    }

    /** deallocateInSuperBlock. */
    method DeallocateInSuperBlock(threshold: nat, g: nat, ghost used: set<nat>)
      requires Partitioned(threshold, View(), used) && g in used
      modifies `numBlocksFree, `freeList
      ensures Partitioned(threshold, View(), used - {g})
      ensures sizeClass == old(sizeClass) && numBlocksFree == old(numBlocksFree) + Pow2(sizeClass)
      ensures View() == Deallocate(old(View()), g)
    {
      hide Partitioned, Pow2;
      DeallocateKeeps(threshold, View(), used, g);
      freeList := [g] + freeList;
      numBlocksFree := numBlocksFree + Pow2(sizeClass);
    }
  }
}
