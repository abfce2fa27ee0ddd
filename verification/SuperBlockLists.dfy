/**
 The block allocator's lists of superblocks as they are in memory: doubly linked
 through the superblocks themselves, one list for each size class and fullness
 and one for the completely empty ones. The owner's calls on them implement the
 actions of the machine.
 */
module SuperBlockLists {
  import opened Options
  import opened SuperBlocks
  import opened BlockAllocator

  class SuperBlockList {
    var firstSuperBlock: SuperBlockRecord?

    constructor ()
      ensures firstSuperBlock == null
    {
      firstSuperBlock := null;
    }
  }

  ghost function At(nodes: seq<SuperBlockRecord>, i: int): SuperBlockRecord? {
    if 0 <= i < |nodes| then nodes[i] else null
  }

  /** The list holds exactly these, in this order, linked both ways. */
  ghost predicate IsList(list: SuperBlockList, nodes: seq<SuperBlockRecord>)
    reads list, nodes`prevSuperBlock, nodes`nextSuperBlock
  {
    && list.firstSuperBlock == At(nodes, 0)
    && (forall i, j :: 0 <= i < j < |nodes| ==> nodes[i] != nodes[j])
    && (forall i :: 0 <= i < |nodes| ==>
          nodes[i].prevSuperBlock == At(nodes, i - 1) && nodes[i].nextSuperBlock == At(nodes, i + 1))
  }

  /** What a list holds can be read off the pointers in only one way. */
  lemma {:induction false} ListIsUnique(list: SuperBlockList, a: seq<SuperBlockRecord>, b: seq<SuperBlockRecord>)
    requires IsList(list, a) && IsList(list, b)
    ensures a == b
  {
    SameUpTo(list, a, b, |a|);
    SameUpTo(list, b, a, |b|);
  }

  lemma {:induction false} SameUpTo(list: SuperBlockList, a: seq<SuperBlockRecord>, b: seq<SuperBlockRecord>, n: nat)
    requires IsList(list, a) && IsList(list, b) && n <= |a|
    ensures n <= |b| && a[..n] == b[..n]
  {
    hide At;
    if n == 0 {
    } else {
      SameUpTo(list, a, b, n - 1);
      if n > 1 { assert a[..n - 1][n - 2] == b[..n - 1][n - 2]; }
      assert At(a, n - 1) == At(b, n - 1);
      AtIs(a, n - 1);
      AtIs(b, n - 1);
      assert a[..n] == a[..n - 1] + [a[n - 1]] && b[..n] == b[..n - 1] + [b[n - 1]];
    }
  }

  lemma AtIs(nodes: seq<SuperBlockRecord>, i: int)
    ensures At(nodes, i) == if 0 <= i < |nodes| then nodes[i] else null
  {
  }

  lemma AtCut(nodes: seq<SuperBlockRecord>, k: nat, i: int)
    requires k < |nodes|
    ensures At(nodes[..k] + nodes[k + 1..], i) == At(nodes, if i < k then i else i + 1)
  {
  }

  lemma AtCons(sb: SuperBlockRecord, nodes: seq<SuperBlockRecord>, i: int)
    ensures At([sb] + nodes, i) == if i == 0 then sb else At(nodes, i - 1)
  {
  }

  method UnlinkSuperBlock(list: SuperBlockList, sb: SuperBlockRecord, ghost nodes: seq<SuperBlockRecord>, ghost k: nat)
    requires IsList(list, nodes) && k < |nodes| && nodes[k] == sb
    modifies list, sb`prevSuperBlock, sb`nextSuperBlock
    modifies (set n | n in nodes && n == sb.prevSuperBlock)`nextSuperBlock
    modifies (set n | n in nodes && n == sb.nextSuperBlock)`prevSuperBlock
    ensures IsList(list, nodes[..k] + nodes[k + 1..])
    ensures sb.prevSuperBlock == null && sb.nextSuperBlock == null
  {
    hide At;
    ghost var rest := nodes[..k] + nodes[k + 1..];
    AtIs(nodes, k - 1);
    AtIs(nodes, k + 1);
    AtIs(nodes, 0);
    if sb.prevSuperBlock == null {
      assert list.firstSuperBlock == sb;
      list.firstSuperBlock := sb.nextSuperBlock;
    } else {
      assert list.firstSuperBlock != sb;
      sb.prevSuperBlock.nextSuperBlock := sb.nextSuperBlock;
    }
    if sb.nextSuperBlock != null {
      sb.nextSuperBlock.prevSuperBlock := sb.prevSuperBlock;
    }
    sb.prevSuperBlock := null;
    sb.nextSuperBlock := null;
    AtCut(nodes, k, 0);
    forall i | 0 <= i < |rest|
      ensures rest[i].prevSuperBlock == At(rest, i - 1) && rest[i].nextSuperBlock == At(rest, i + 1)
    {
      AtCut(nodes, k, i - 1);
      AtCut(nodes, k, i + 1);
      assert rest[i] == nodes[if i < k then i else i + 1];
    }
  }

  method PrependSuperBlock(list: SuperBlockList, sb: SuperBlockRecord, ghost nodes: seq<SuperBlockRecord>)
    requires IsList(list, nodes) && sb !in nodes
    requires sb.prevSuperBlock == null && sb.nextSuperBlock == null
    modifies list, sb`nextSuperBlock
    modifies (set n | n in nodes && n == list.firstSuperBlock)`prevSuperBlock
    ensures IsList(list, [sb] + nodes)
  {
    hide At;
    AtIs(nodes, 0);
    AtIs(nodes, -2);
    sb.nextSuperBlock := list.firstSuperBlock;
    if list.firstSuperBlock != null {
      list.firstSuperBlock.prevSuperBlock := sb;
    }
    list.firstSuperBlock := sb;
    ghost var all := [sb] + nodes;
    AtCons(sb, nodes, 0);
    forall i | 0 <= i < |all|
      ensures all[i].prevSuperBlock == At(all, i - 1) && all[i].nextSuperBlock == At(all, i + 1)
    {
      AtCons(sb, nodes, i - 1);
      AtCons(sb, nodes, i + 1);
    }
  }

  // ----- lists by the numbers of their superblocks -----

  ghost predicate Distinct(sbs: seq<SuperBlockRecord>) {
    forall i, j :: 0 <= i < j < |sbs| ==> sbs[i] != sbs[j]
  }

  ghost predicate InRange(sbs: seq<SuperBlockRecord>, ids: seq<nat>) {
    forall a :: 0 <= a < |ids| ==> ids[a] < |sbs|
  }

  /** The superblocks with these numbers. */
  ghost function Named(sbs: seq<SuperBlockRecord>, ids: seq<nat>): (r: seq<SuperBlockRecord>)
    requires InRange(sbs, ids)
    ensures |r| == |ids| && (forall a :: 0 <= a < |r| ==> r[a] == sbs[ids[a]])
    ensures forall n :: n in r ==> n in sbs
  {
    seq(|ids|, a requires 0 <= a < |ids| => sbs[ids[a]])
  }

  ghost predicate ListHas(list: SuperBlockList, sbs: seq<SuperBlockRecord>, ids: seq<nat>)
    reads list, sbs`prevSuperBlock, sbs`nextSuperBlock
  {
    InRange(sbs, ids) && IsList(list, Named(sbs, ids))
  }

  lemma NamedCut(sbs: seq<SuperBlockRecord>, ids: seq<nat>, a: nat)
    requires a < |ids| && InRange(sbs, ids)
    ensures Named(sbs, ids[..a] + ids[a + 1..]) == Named(sbs, ids)[..a] + Named(sbs, ids)[a + 1..]
  {
  }

  lemma InRangeCut(sbs: seq<SuperBlockRecord>, ids: seq<nat>, a: nat)
    requires a < |ids| && InRange(sbs, ids)
    ensures InRange(sbs, ids[..a] + ids[a + 1..])
  {
  }

  lemma InRangeCons(sbs: seq<SuperBlockRecord>, i: nat, ids: seq<nat>)
    requires i < |sbs| && InRange(sbs, ids)
    ensures InRange(sbs, [i] + ids)
  {
  }

  lemma NamedCons(sbs: seq<SuperBlockRecord>, i: nat, ids: seq<nat>)
    requires i < |sbs| && InRange(sbs, ids)
    ensures Named(sbs, [i] + ids) == [sbs[i]] + Named(sbs, ids)
  {
  }

  lemma NamedApart(sbs: seq<SuperBlockRecord>, lists: map<ListKey, seq<nat>>, k: ListKey, l: ListKey)
    requires Apart(lists) && k != l
    requires Distinct(sbs)
    requires InRange(sbs, ListAt(lists, k)) && InRange(sbs, ListAt(lists, l))
    ensures forall n :: n in Named(sbs, ListAt(lists, k)) ==> n !in Named(sbs, ListAt(lists, l))
  {
    hide ListAt, Named;
    var a, b := ListAt(lists, k), ListAt(lists, l);
    forall x, y | 0 <= x < |a| && 0 <= y < |b| ensures Named(sbs, a)[x] != Named(sbs, b)[y] {
      assert a[x] in a && b[y] in b;
      assert a[x] != b[y];
    }
  }

  lemma NotNamed(sbs: seq<SuperBlockRecord>, ids: seq<nat>, i: nat)
    requires Distinct(sbs)
    requires InRange(sbs, ids)
    requires i < |sbs| && i !in ids
    ensures sbs[i] !in Named(sbs, ids)
  {
  }

  lemma ListAtUpdated(lists: map<ListKey, seq<nat>>, k: ListKey, ids: seq<nat>)
    ensures forall l :: ListAt(lists[k := ids], l) == if l == k then ids else ListAt(lists, l)
  {
    forall l ensures ListAt(lists[k := ids], l) == if l == k then ids else ListAt(lists, l) {
      var lists' := lists[k := ids];
      assert l in lists' <==> l == k || l in lists;
    }
  }

  /** Where a superblock stands on a list. */
  ghost function Find(list: seq<nat>, i: nat): (k: nat)
    requires i in list
    ensures k < |list| && list[k] == i
  {
    if list[0] == i then 0
    else
      assert list == [list[0]] + list[1..];
      var k := Find(list[1..], i);
      assert list[1..][k] == list[k + 1];
      k + 1
  }

  lemma {:induction false} UnlinkCuts(list: seq<nat>, i: nat)
    requires i in list
    ensures Unlink(list, i) == list[..Find(list, i)] + list[Find(list, i) + 1..]
  {
    if list[0] != i {
      assert list == [list[0]] + list[1..];
      var k, rest := Find(list[1..], i), list[1..];
      UnlinkCuts(rest, i);
      assert [list[0]] + (rest[..k] + rest[k + 1..]) == list[..k + 1] + list[k + 2..];
    }
  }

  /** No superblock is on two lists, nor twice on one. */
  ghost predicate Apart(lists: map<ListKey, seq<nat>>) {
    && (forall k, l, i: nat :: i in ListAt(lists, k) && i in ListAt(lists, l) ==> k == l)
    && (forall k, a, b :: 0 <= a < b < |ListAt(lists, k)| ==> ListAt(lists, k)[a] != ListAt(lists, k)[b])
  }

  lemma FiledIsApart(p: Params, sbs: seq<SuperBlock>, lists: map<ListKey, seq<nat>>)
    requires Filed(p, sbs, lists)
    ensures Apart(lists)
  {
    hide KeyOf, ListAt;
    forall k, l, i: nat | i in ListAt(lists, k) && i in ListAt(lists, l) ensures k == l {
      assert ListOk(p, sbs, k, ListAt(lists, k)) && ListOk(p, sbs, l, ListAt(lists, l));
      var a :| 0 <= a < |ListAt(lists, k)| && ListAt(lists, k)[a] == i;
      var b :| 0 <= b < |ListAt(lists, l)| && ListAt(lists, l)[b] == i;
    }
    forall k, a, b | 0 <= a < b < |ListAt(lists, k)| ensures ListAt(lists, k)[a] != ListAt(lists, k)[b] {
      assert ListOk(p, sbs, k, ListAt(lists, k));
    }
  }

  lemma IsFiled(p: Params, sbs: seq<SuperBlock>, lists: map<ListKey, seq<nat>>, i: nat)
    requires Filed(p, sbs, lists) && i < |sbs|
    ensures i in ListAt(lists, KeyOf(p, sbs[i]))
  {
  }

  ghost function Without(lists: map<ListKey, seq<nat>>, from: ListKey, i: nat): (r: map<ListKey, seq<nat>>)
    ensures r == lists[from := Unlink(ListAt(lists, from), i)]
  {
    lists[from := Unlink(ListAt(lists, from), i)]
  }

  lemma FreeHereIs(p: Params, s: State, b: Block)
    requires b.sb < |s.sbs|
    ensures FreeHere(p, s, b).sbs == s.sbs[b.sb := Deallocate(s.sbs[b.sb], b.g)]
    ensures FreeHere(p, s, b).lists ==
            var without := Without(s.lists, KeyOf(p, s.sbs[b.sb]), b.sb);
            var to := KeyOf(p, Deallocate(s.sbs[b.sb], b.g));
            without[to := [b.sb] + ListAt(without, to)]
  {
  }

  // ----- the machine's actions, for one superblock -----

  /** The superblock that an allocation is served from. */
  lemma TargetServes(p: Params, s: State, sizeClass: nat)
    requires Inv(p, s) && sizeClass < p.threshold && FindList(s.lists, sizeClass).Some?
    ensures var key := FindList(s.lists, sizeClass).value;
      && ListAt(s.lists, key) != []
      && var i := ListAt(s.lists, key)[0];
         && i < |s.sbs| && key == KeyOf(p, s.sbs[i])
         && Partitioned(p.threshold, s.sbs[i], Used(s.place, i)) && CanServe(p.threshold, s.sbs[i], sizeClass)
         && s.sbs[i].numBlocksFree >= Pow2(sizeClass)
  {
    hide Pow2, Partitioned, Filed, FindList, StackOk, CanServe, KeyOf;
    SearchFindsRoom(p, s.sbs, s.lists, sizeClass);
    var i := ListAt(s.lists, FindList(s.lists, sizeClass).value)[0];
    AllocateKeeps(p.threshold, s.sbs[i], Used(s.place, i), sizeClass);
  }

  lemma NoTarget(p: Params, s: State, sizeClass: nat)
    requires Inv(p, s) && sizeClass < p.threshold && FindList(s.lists, sizeClass).None?
    ensures forall i :: 0 <= i < |s.sbs| ==> !CanServe(p.threshold, s.sbs[i], sizeClass)
  {
    hide Pow2, Filed, FindList, StackOk, CanServe;
    forall i | 0 <= i < |s.sbs| ensures !CanServe(p.threshold, s.sbs[i], sizeClass) {
      assert Partitioned(p.threshold, s.sbs[i], Used(s.place, i));
      if CanServe(p.threshold, s.sbs[i], sizeClass) { SearchFindsAll(p, s.sbs, s.lists, sizeClass, i); }
    }
  }

  lemma AllocateIs(p: Params, s: State, sizeClass: nat)
    requires Inv(p, s) && Enabled(p, s, AllocateBlocks(sizeClass)) && Found(p, s, sizeClass)
    ensures FindList(s.lists, sizeClass).None? ==> Do(p, s, AllocateBlocks(sizeClass)) == s
    ensures FindList(s.lists, sizeClass).Some? ==>
      var key := FindList(s.lists, sizeClass).value;
      var i := ListAt(s.lists, key)[0];
      var (sb', g) := Allocate(p.threshold, s.sbs[i], sizeClass);
      var s' := Do(p, s, AllocateBlocks(sizeClass));
      var f := FullnessOf(p.threshold, p.emptinessFraction, s.sbs[i]);
      var f' := FullnessOf(p.threshold, p.emptinessFraction, sb');
      var without := Without(s.lists, key, i);
      && s'.sbs == s.sbs[i := sb'] && s'.place == s.place[Block(i, g) := User] && Block(i, g) !in s.place
      && sb'.sizeClass == sizeClass
      && (f == f' ==> s'.lists == s.lists)
      && (f != f' ==> s'.lists == without[KeyOf(p, sb') := [i] + ListAt(without, KeyOf(p, sb'))])
  {
    hide Inv, Pow2, Partitioned, FindList, Allocate, CanServe, FullnessOf;
    if FindList(s.lists, sizeClass).Some? {
      TargetServes(p, s, sizeClass);
      var i := ListAt(s.lists, FindList(s.lists, sizeClass).value)[0];
      AllocateKeeps(p.threshold, s.sbs[i], Used(s.place, i), sizeClass);
      InUsed(s.place, i, Allocate(p.threshold, s.sbs[i], sizeClass).1);
    }
  }

  /** Once unlinked, a superblock is on no list. */
  lemma WithoutIt(p: Params, sbs: seq<SuperBlock>, lists: map<ListKey, seq<nat>>, i: nat)
    requires Filed(p, sbs, lists) && i < |sbs|
    ensures var without := Without(lists, KeyOf(p, sbs[i]), i);
      Apart(without) && forall k :: i !in ListAt(without, k)
  {
    hide KeyOf, ListAt, Unlink, Filed;
    var from := KeyOf(p, sbs[i]);
    FiledIsApart(p, sbs, lists);
    IsFiled(p, sbs, lists, i);
    UnlinkIs(ListAt(lists, from), i);
    var rest := Unlink(ListAt(lists, from), i);
    ListAtUpdated(lists, from, rest);
    var without := lists[from := rest];
    forall k, l, j: nat | j in ListAt(without, k) && j in ListAt(without, l) ensures k == l && j != i {
      assert ListAt(without, k) == if k == from then rest else ListAt(lists, k);
      assert ListAt(without, l) == if l == from then rest else ListAt(lists, l);
      assert j in ListAt(lists, k) && j in ListAt(lists, l) && i in ListAt(lists, from);
    }
    forall k, a, b | 0 <= a < b < |ListAt(without, k)| ensures ListAt(without, k)[a] != ListAt(without, k)[b] {
      assert ListAt(without, k) == if k == from then rest else ListAt(lists, k);
    }
    forall k ensures i !in ListAt(without, k) {
    }
  }

  lemma MapNewIs(p: Params, s: State)
    requires Inv(p, s) && Enabled(p, s, MapNew) && p.threshold > 0
    ensures Partitioned(p.threshold, NewSuperBlock(p.threshold), {})
    ensures KeyOf(p, NewSuperBlock(p.threshold)) == Empty
    ensures Apart(s.lists) && forall k :: |s.sbs| !in ListAt(s.lists, k)
    ensures var s' := Do(p, s, MapNew);
      s'.sbs == s.sbs + [NewSuperBlock(p.threshold)] && s'.lists == s.lists[Empty := [|s.sbs|] + ListAt(s.lists, Empty)]
  {
    hide Partitioned, StackOk, ListAt, Apart;
    NewPartitioned(p.threshold);
    FiledIsApart(p, s.sbs, s.lists);
    forall k ensures |s.sbs| !in ListAt(s.lists, k) {
      assert ListOk(p, s.sbs, k, ListAt(s.lists, k));
    }
  }

  /** So many superblocks mapped. */
  ghost function Mapped(p: Params, s: State, n: nat): (s': State)
    requires s.owner.Busy?
    ensures s'.owner.Busy?
  {
    if n == 0 then s else Do(p, Mapped(p, s, n - 1), MapNew)
  }

  lemma {:induction false} MappedKeeps(p: Params, s: State, n: nat)
    requires Inv(p, s) && Enabled(p, s, MapNew) && p.threshold > 0
    ensures Inv(p, Mapped(p, s, n)) && Enabled(p, Mapped(p, s, n), MapNew)
    ensures Do(p, Mapped(p, s, n), MapNew) == Mapped(p, s, n + 1)
  {
    hide Inv;
    if n == 0 {
    } else {
      MappedKeeps(p, s, n - 1);
      DoKeepsInv(p, Mapped(p, s, n - 1), MapNew);
    }
  }

  lemma MappedIs(p: Params, s: State)
    requires Enabled(p, s, MapNew)
    ensures s.owner.Busy? && Mapped(p, s, 0) == s
  {
  }

  // ----- the allocator -----

  /** Four fullness groups to a size class, and the completely empty ones apart. */
  function Slot(sizeClass: nat, f: Fullness): nat {
    4 * sizeClass +
    match f
    case CompletelyFull => 0
    case NearlyFull => 1
    case SomewhatFull => 2
    case NearlyEmpty => 3
    case CompletelyEmpty => 4
  }

  function FullnessNumber(n: nat): Fullness {
    if n == 0 then CompletelyFull else if n == 1 then NearlyFull
    else if n == 2 then SomewhatFull else if n == 3 then NearlyEmpty else CompletelyEmpty
  }

  class LocalBlockAllocator {
    const p: Params
    const sizeClassFullnessGroup: seq<SuperBlockList>
    const completelyEmptyGroup: SuperBlockList
    ghost var sbs: seq<SuperBlockRecord>             // not stored: all superblocks, as they were mapped

    ghost predicate Wired() {
      && |sizeClassFullnessGroup| == 4 * p.threshold
      && (forall i, j :: 0 <= i < j < |sizeClassFullnessGroup| ==>
            sizeClassFullnessGroup[i] != sizeClassFullnessGroup[j])
      && completelyEmptyGroup !in sizeClassFullnessGroup
    }

    function GetFullnessGroup(sizeClass: nat, f: Fullness): (list: SuperBlockList)
      requires Wired() && sizeClass < p.threshold
      ensures list == completelyEmptyGroup || list in sizeClassFullnessGroup
    {
      if f.CompletelyEmpty? then completelyEmptyGroup else sizeClassFullnessGroup[Slot(sizeClass, f)]
    }

    ghost predicate HasList(k: ListKey) {
      k.Class? ==> k.sizeClass < p.threshold && !k.fullness.CompletelyEmpty?
    }

    ghost function ListOf(k: ListKey): (list: SuperBlockList)
      requires Wired() && HasList(k)
      ensures list == completelyEmptyGroup || list in sizeClassFullnessGroup
    {
      if k.Empty? then completelyEmptyGroup else GetFullnessGroup(k.sizeClass, k.fullness)
    }

    /** The linked lists are these. */
    ghost predicate Links(lists: map<ListKey, seq<nat>>)
      requires Wired()
      reads this, completelyEmptyGroup, sizeClassFullnessGroup, sbs`prevSuperBlock, sbs`nextSuperBlock
    {
      forall k :: HasList(k) ==> ListHas(ListOf(k), sbs, ListAt(lists, k))
    }

    ghost predicate Views(states: seq<SuperBlock>)
      reads this, sbs`sizeClass, sbs`numBlocksFree, sbs`freeList, sbs`frontier
    {
      && |states| == |sbs| && Distinct(sbs)
      && (forall i :: 0 <= i < |sbs| ==> sbs[i].View() == states[i])
    }

    /** Memory is as the machine has it. */
    ghost predicate Represents(s: State)
      reads this, completelyEmptyGroup, sizeClassFullnessGroup, sbs
    {
      Wired() && Views(s.sbs) && Links(s.lists)
    }

    /** initBlockAllocator: no superblocks, all lists empty. */
    constructor (p: Params, remotes: nat)
      ensures this.p == p && Represents(Init(remotes))
      ensures fresh(completelyEmptyGroup) && forall list :: list in sizeClassFullnessGroup ==> fresh(list)
    {
      var groups: seq<SuperBlockList> := [];
      var i := 0;
      while i < 4 * p.threshold
        invariant |groups| == i && i <= 4 * p.threshold
        invariant forall j :: 0 <= j < i ==> fresh(groups[j]) && groups[j].firstSuperBlock == null
        invariant forall j, k :: 0 <= j < k < i ==> groups[j] != groups[k]
      {
        var list := new SuperBlockList();
        groups := groups + [list];
        i := i + 1;
      }
      this.p := p;
      sizeClassFullnessGroup := groups;
      completelyEmptyGroup := new SuperBlockList();
      sbs := [];
    }

    /** Lists of different keys are different. */
    lemma ListsDiffer(k: ListKey, l: ListKey)
      requires Wired() && HasList(k) && HasList(l) && k != l
      ensures ListOf(k) != ListOf(l)
    {
    }

    lemma KeyHasListOf(sb: SuperBlock, used: set<nat>)
      requires Wired() && Partitioned(p.threshold, sb, used)
      ensures sb.sizeClass < p.threshold && HasList(KeyOf(p, sb))
      ensures ListOf(KeyOf(p, sb)) ==
              GetFullnessGroup(sb.sizeClass, FullnessOf(p.threshold, p.emptinessFraction, sb))
    {
    }

    lemma KeyHasList(states: seq<SuperBlock>, place: map<Block, Place>, i: nat)
      requires Wired() && SuperBlocksOk(p, states, place) && i < |states|
      ensures Partitioned(p.threshold, states[i], Used(place, i))
      ensures states[i].sizeClass < p.threshold && HasList(KeyOf(p, states[i]))
      ensures ListOf(KeyOf(p, states[i])) ==
              GetFullnessGroup(states[i].sizeClass, FullnessOf(p.threshold, p.emptinessFraction, states[i]))
    {
      KeyHasListOf(states[i], Used(place, i));
    }

    lemma RepresentsIs(s: State)
      requires Represents(s)
      ensures |s.sbs| == |sbs| && Wired() && Distinct(sbs) && Links(s.lists)
      ensures forall i, j :: 0 <= i < j < |sbs| ==> sbs[i] != sbs[j]
      ensures forall i :: 0 <= i < |sbs| ==> sbs[i].View() == s.sbs[i]
    {
    }

    lemma EnabledSize(s: State, sizeClass: nat)
      requires Inv(p, s) && Enabled(p, s, AllocateBlocks(sizeClass))
      ensures sizeClass < p.threshold && Filed(p, s.sbs, s.lists)
    {
    }

    /** When one superblock has changed and memory has the new lists. */
    lemma RepresentsAfter(s: State, i: nat, s': State)
      requires Wired() && Distinct(sbs) && i < |sbs| == |s.sbs|
      requires forall j :: 0 <= j < |sbs| && j != i ==> sbs[j].View() == s.sbs[j]
      requires s'.sbs == s.sbs[i := sbs[i].View()] && Links(s'.lists)
      ensures Represents(s')
    {
    }

    lemma RepresentsIf(s: State)
      requires Wired() && Distinct(sbs) && |sbs| == |s.sbs| && Links(s.lists)
      requires forall j :: 0 <= j < |sbs| ==> sbs[j].View() == s.sbs[j]
      ensures Represents(s)
    {
    }

    lemma ListOfIs(sizeClass: nat, f: Fullness)
      requires Wired() && sizeClass < p.threshold
      ensures var k := if f.CompletelyEmpty? then Empty else Class(sizeClass, f);
        HasList(k) && ListOf(k) == GetFullnessGroup(sizeClass, f)
    {
    }

    lemma EmptyGroup()
      requires Wired() && p.threshold > 0
      ensures HasList(Empty) && ListOf(Empty) == GetFullnessGroup(0, CompletelyEmpty)
    {
    }

    lemma DistinctIf(before: seq<SuperBlockRecord>, sb: SuperBlockRecord)
      requires sbs == before + [sb] && sb !in before
      requires Distinct(before)
      ensures Distinct(sbs)
    {
    }

    /** Further superblocks do not matter to the lists. */
    lemma LinksGrow(before: seq<SuperBlockRecord>, lists: map<ListKey, seq<nat>>)
      requires Wired() && before <= sbs
      requires forall k :: HasList(k) ==> ListHas(ListOf(k), before, ListAt(lists, k))
      ensures Links(lists)
    {
      hide IsList, ListAt, ListOf, HasList;
      forall k | HasList(k) ensures ListHas(ListOf(k), sbs, ListAt(lists, k)) {
        assert Named(sbs, ListAt(lists, k)) == Named(before, ListAt(lists, k));
      }
    }

    lemma LinksAre(lists: map<ListKey, seq<nat>>)
      requires Wired() && Links(lists)
      ensures forall l :: HasList(l) ==>
                InRange(sbs, ListAt(lists, l)) && IsList(ListOf(l), Named(sbs, ListAt(lists, l)))
    {
      hide IsList, Named, InRange, ListAt, Wired, ListOf, HasList;
      forall l | HasList(l)
        ensures InRange(sbs, ListAt(lists, l)) && IsList(ListOf(l), Named(sbs, ListAt(lists, l)))
      {
        assert ListHas(ListOf(l), sbs, ListAt(lists, l));
      }
    }

    lemma ListHasIf(list: SuperBlockList, ids: seq<nat>)
      requires InRange(sbs, ids) && IsList(list, Named(sbs, ids))
      ensures ListHas(list, sbs, ids)
    {
    }

    lemma LinksIf(lists: map<ListKey, seq<nat>>)
      requires Wired() && forall k :: HasList(k) ==> ListHas(ListOf(k), sbs, ListAt(lists, k))
      ensures Links(lists)
    {
      hide ListHas, ListAt, ListOf, HasList, Wired;
    }

    /** unlinkSuperBlock, among all the lists. */
    method Unfile(list: SuperBlockList, sb: SuperBlockRecord, ghost k: ListKey, ghost i: nat,
                  ghost lists: map<ListKey, seq<nat>>)
      requires Wired() && HasList(k) && list == ListOf(k) && Links(lists) && Apart(lists) && Distinct(sbs)
      requires i in ListAt(lists, k) && i < |sbs| && sbs[i] == sb
      modifies list, sbs`prevSuperBlock, sbs`nextSuperBlock
      ensures Links(lists[k := Unlink(ListAt(lists, k), i)])
      ensures sb.prevSuperBlock == null && sb.nextSuperBlock == null
    {
      hide *;
      ghost var ids := ListAt(lists, k);
      LinksAre(lists);
      ghost var a, mine := Find(ids, i), Named(sbs, ids);
      UnlinkCuts(ids, i);
      UnlinkSuperBlock(list, sb, mine, a);
      NamedCut(sbs, ids, a);
      forall l | HasList(l) && l != k ensures ListHas(ListOf(l), sbs, ListAt(lists, l)) {
        ListsDiffer(k, l);
        NamedApart(sbs, lists, k, l);
        ghost var theirs := Named(sbs, ListAt(lists, l));
        assert sb in mine;
        assert forall n :: n in theirs ==> n.prevSuperBlock == old(n.prevSuperBlock);
        assert forall n :: n in theirs ==> n.nextSuperBlock == old(n.nextSuperBlock);
        assert IsList(ListOf(l), theirs);
        ListHasIf(ListOf(l), ListAt(lists, l));
      }
      ghost var rest := Unlink(ids, i);
      InRangeCut(sbs, ids, a);
      ListHasIf(list, rest);
      ListAtUpdated(lists, k, rest);
      LinksIf(lists[k := rest]);
    }

    /** prependSuperBlock, among all the lists. */
    method File(list: SuperBlockList, sb: SuperBlockRecord, ghost k: ListKey, ghost i: nat,
                ghost lists: map<ListKey, seq<nat>>)
      requires Wired() && HasList(k) && list == ListOf(k) && Links(lists) && Apart(lists) && Distinct(sbs)
      requires i < |sbs| && sbs[i] == sb && forall l :: i !in ListAt(lists, l)
      requires sb.prevSuperBlock == null && sb.nextSuperBlock == null
      modifies list, sbs`prevSuperBlock, sbs`nextSuperBlock
      ensures Links(lists[k := [i] + ListAt(lists, k)])
    {
      hide *;
      ghost var ids := ListAt(lists, k);
      LinksAre(lists);
      ghost var mine := Named(sbs, ids);
      NotNamed(sbs, ids, i);
      PrependSuperBlock(list, sb, mine);
      NamedCons(sbs, i, ids);
      forall l | HasList(l) && l != k ensures ListHas(ListOf(l), sbs, ListAt(lists, l)) {
        ListsDiffer(k, l);
        NamedApart(sbs, lists, k, l);
        NotNamed(sbs, ListAt(lists, l), i);
        ghost var theirs := Named(sbs, ListAt(lists, l));
        assert forall n :: n in theirs ==> n.prevSuperBlock == old(n.prevSuperBlock);
        assert forall n :: n in theirs ==> n.nextSuperBlock == old(n.nextSuperBlock);
        assert IsList(ListOf(l), theirs);
        ListHasIf(ListOf(l), ListAt(lists, l));
      }
      ghost var all := [i] + ids;
      InRangeCons(sbs, i, ids);
      ListHasIf(list, all);
      ListAtUpdated(lists, k, all);
      LinksIf(lists[k := all]);
    }

    function Fullness(sb: SuperBlockRecord): (f: Fullness)
      reads sb
      ensures f == FullnessOf(p.threshold, p.emptinessFraction, sb.View())
    {
      FullnessOf(p.threshold, p.emptinessFraction, sb.View())
    }

    /** localFreeBlocks: unlink, free the group, prepend where it belongs now. */
    method LocalFreeBlocks(sb: SuperBlockRecord, g: nat, ghost s: State, ghost b: Block)
      requires Represents(s) && SuperBlocksOk(p, s.sbs, s.place) && Filed(p, s.sbs, s.lists)
      requires b in s.place && b.sb < |sbs| && sbs[b.sb] == sb && b.g == g
      modifies completelyEmptyGroup, sizeClassFullnessGroup, sbs
      ensures Represents(FreeHere(p, s, b))
    {
      hide *;
      ghost var i, used := b.sb, Used(s.place, b.sb);
      RepresentsIs(s);
      KeyHasList(s.sbs, s.place, i);
      InUsed(s.place, i, g);
      FiledIsApart(p, s.sbs, s.lists);
      IsFiled(p, s.sbs, s.lists, i);
      var oldList := GetFullnessGroup(sb.View().sizeClass, Fullness(sb));
      Unfile(oldList, sb, KeyOf(p, s.sbs[i]), i, s.lists);
      sb.DeallocateInSuperBlock(p.threshold, g, used);
      KeyHasListOf(sb.View(), used - {g});
      WithoutIt(p, s.sbs, s.lists, i);
      var newList := GetFullnessGroup(sb.View().sizeClass, Fullness(sb));
      File(newList, sb, KeyOf(p, sb.View()), i, Without(s.lists, KeyOf(p, s.sbs[i]), i));
      FreeHereIs(p, s, b);
      RepresentsAfter(s, i, FreeHere(p, s, b));
    }

    lemma FirstIs(lists: map<ListKey, seq<nat>>, k: ListKey)
      requires Wired() && HasList(k) && Links(lists)
      ensures ListOf(k).firstSuperBlock == null <==> ListAt(lists, k) == []
      ensures ListAt(lists, k) != [] ==>
                ListAt(lists, k)[0] < |sbs| && ListOf(k).firstSuperBlock == sbs[ListAt(lists, k)[0]]
    {
      assert ListHas(ListOf(k), sbs, ListAt(lists, k));
    }

    /** The first part of tryAllocateAndAdjustSuperBlocks. */
    method FindTargetList(sizeClass: nat, ghost lists: map<ListKey, seq<nat>>) returns (list: SuperBlockList?)
      requires Wired() && Links(lists) && sizeClass < p.threshold
      ensures list == null <==> FindList(lists, sizeClass).None?
      ensures list != null ==> HasList(FindList(lists, sizeClass).value)
      ensures list != null ==> list == ListOf(FindList(lists, sizeClass).value)
    {
      hide Wired, Links, Slot, ListAt;
      list := null;
      var fg := 1;
      while fg < 4 && list == null
        invariant 1 <= fg <= 4
        invariant list == null ==>
                    forall g: nat :: 1 <= g < fg ==> ListAt(lists, Class(sizeClass, FullnessNumber(g))) == []
        invariant list != null ==>
                    var k := Class(sizeClass, FullnessNumber(fg - 1));
                    FindList(lists, sizeClass) == Some(k) && list == ListOf(k)
      {
        ghost var k := Class(sizeClass, FullnessNumber(fg));
        FirstIs(lists, k);
        var group := GetFullnessGroup(sizeClass, FullnessNumber(fg));
        if group.firstSuperBlock != null {
          assert fg > 1 ==> ListAt(lists, Class(sizeClass, FullnessNumber(1))) == [];
          assert fg > 2 ==> ListAt(lists, Class(sizeClass, FullnessNumber(2))) == [];
          list := group;
        }
        fg := fg + 1;
      }
      assert list == null ==> ListAt(lists, Class(sizeClass, FullnessNumber(1))) == [];
      assert list == null ==> ListAt(lists, Class(sizeClass, FullnessNumber(2))) == [];
      assert list == null ==> ListAt(lists, Class(sizeClass, FullnessNumber(3))) == [];
      FirstIs(lists, Empty);
      if list == null && GetFullnessGroup(0, CompletelyEmpty).firstSuperBlock != null {
        list := GetFullnessGroup(0, CompletelyEmpty);
      }
    }

    /** This group of this superblock was nowhere and is a user's now. */
    ghost predicate HandsOut(s: State, s': State, sb: SuperBlockRecord, g: nat)
      reads this
    {
      exists i: nat :: i < |sbs| && sbs[i] == sb && Block(i, g) !in s.place && s'.place == s.place[Block(i, g) := User]
    }

    lemma HandsOutIs(s: State, s': State, i: nat, g: nat)
      requires i < |sbs| && Block(i, g) !in s.place && s'.place == s.place[Block(i, g) := User]
      ensures HandsOut(s, s', sbs[i], g)
    {
    }

    /** tryAllocateAndAdjustSuperBlocks. */
    method TryAllocateAndAdjustSuperBlocks(sizeClass: nat, ghost s: State)
      returns (r: Option<(SuperBlockRecord, nat)>)
      requires Represents(s) && Inv(p, s) && Enabled(p, s, AllocateBlocks(sizeClass))
      modifies completelyEmptyGroup, sizeClassFullnessGroup, sbs
      ensures Found(p, s, sizeClass) && Represents(Do(p, s, AllocateBlocks(sizeClass)))
      ensures r.None? <==> forall i :: 0 <= i < |s.sbs| ==> !CanServe(p.threshold, s.sbs[i], sizeClass)
      ensures r.Some? ==> HandsOut(s, Do(p, s, AllocateBlocks(sizeClass)), r.value.0, r.value.1)
    {
      hide *;
      EnabledSize(s, sizeClass);
      AllocateFits(p, s, sizeClass);
      AllocateIs(p, s, sizeClass);
      RepresentsIs(s);
      var targetList := FindTargetList(sizeClass, s.lists);
      if targetList == null {
        NoTarget(p, s, sizeClass);
        assert Represents(s);
        return None;
      }
      TargetServes(p, s, sizeClass);
      FiledIsApart(p, s.sbs, s.lists);
      ghost var key := FindList(s.lists, sizeClass).value;
      ghost var i := ListAt(s.lists, key)[0];
      ghost var used := Used(s.place, i);
      FirstIs(s.lists, key);
      var sb := targetList.firstSuperBlock;
      var fg := Fullness(sb);
      var g := sb.AllocateInSuperBlock(p.threshold, sizeClass, used);
      var newfg := Fullness(sb);
      KeyHasListOf(sb.View(), used + {g});
      if fg != newfg {
        WithoutIt(p, s.sbs, s.lists, i);
        Unfile(targetList, sb, key, i, s.lists);
        var newList := GetFullnessGroup(sizeClass, newfg);
        File(newList, sb, KeyOf(p, sb.View()), i, Without(s.lists, key, i));
      }
      RepresentsAfter(s, i, Do(p, s, AllocateBlocks(sizeClass)));
      HandsOutIs(s, Do(p, s, AllocateBlocks(sizeClass)), i, g);
      r := Some((sb, g));
    }

    /** One turn of the loop of mmapNewSuperBlocks. */
    method AddSuperBlock(ghost s: State)
      requires Represents(s) && Inv(p, s) && Enabled(p, s, MapNew) && p.threshold > 0
      modifies this, completelyEmptyGroup, sizeClassFullnessGroup, sbs
      ensures Represents(Do(p, s, MapNew))
      ensures |sbs| == |old(sbs)| + 1 && sbs[..|old(sbs)|] == old(sbs) && fresh(sbs[|old(sbs)|])
    {
      hide *;
      RepresentsIs(s);
      MapNewIs(p, s);
      var sb := new SuperBlockRecord(p.threshold);
      ghost var n := |sbs|;
      sbs := sbs + [sb];
      LinksGrow(sbs[..n], s.lists);
      EmptyGroup();
      DistinctIf(sbs[..n], sb);
      var list := GetFullnessGroup(0, CompletelyEmpty);
      File(list, sb, Empty, n, s.lists);
      RepresentsIf(Do(p, s, MapNew));
    }

    /** mmapNewSuperBlocks, once the memory for count of them is there. */
    method MmapNewSuperBlocks(count: nat, ghost s: State)
      requires Represents(s) && Inv(p, s) && Enabled(p, s, MapNew) && p.threshold > 0
      modifies this, completelyEmptyGroup, sizeClassFullnessGroup, sbs
      ensures Represents(Mapped(p, s, count))
    {
      hide *;
      ghost var was := sbs;
      MappedIs(p, s);
      for i := 0 to count
        invariant |sbs| >= |was| && sbs[..|was|] == was
        invariant forall j :: |was| <= j < |sbs| ==> fresh(sbs[j])
        invariant Represents(Mapped(p, s, i))
      {
        MappedKeeps(p, s, i);
        AddSuperBlock(Mapped(p, s, i));
      }
    }

    lemma NodeIs(s: State, k: ListKey, a: int)
      requires Represents(s) && Filed(p, s.sbs, s.lists) && HasList(k)
      ensures ListOf(k).firstSuperBlock == Node(s, k, 0)
      ensures 0 <= a < |ListAt(s.lists, k)| ==>
                var sb := Node(s, k, a);
                && sb != null && sb.prevSuperBlock == Node(s, k, a - 1) && sb.nextSuperBlock == Node(s, k, a + 1)
                && KeyOf(p, sb.View()) == k
      ensures Node(s, k, a) == null <==> !(0 <= a < |ListAt(s.lists, k)|)
      ensures Node(s, k, -1) == null
    {
      hide KeyOf, ListAt;
      var ids := ListAt(s.lists, k);
      assert ListHas(ListOf(k), sbs, ids) && ListOk(p, s.sbs, k, ids);
      AtIs(Named(sbs, ids), a);
      AtIs(Named(sbs, ids), -1);
      AtIs(Named(sbs, ids), 0);
    }

    /** The superblock at a place of a list, or null beyond its ends. */
    ghost function Node(s: State, k: ListKey, a: int): SuperBlockRecord?
      reads this
    {
      var ids := ListAt(s.lists, k);
      if 0 <= a < |ids| && ids[a] < |sbs| then sbs[ids[a]] else null
    }

    lemma KeyParts(sb: SuperBlock, sizeClass: nat, f: Fullness)
      requires KeyOf(p, sb) == if f.CompletelyEmpty? then Empty else Class(sizeClass, f)
      ensures FullnessOf(p.threshold, p.emptinessFraction, sb) == f
      ensures !f.CompletelyEmpty? ==> sb.sizeClass == sizeClass
    {
    }

    /** assertSuperBlockListOkay: the walk of the debugging build ends, and no
        superblock that it meets fails its checks. */
    method AssertSuperBlockListOkay(sizeClass: nat, f: Fullness, ghost s: State) returns (ok: bool)
      requires Represents(s) && Filed(p, s.sbs, s.lists) && sizeClass < p.threshold
      ensures ok
    {
      hide KeyOf, FullnessOf, ListOf, ListAt, Node, Represents, Filed, SuperBlockRecord.View;
      ghost var k := if f.CompletelyEmpty? then Empty else Class(sizeClass, f);
      RepresentsIs(s);
      ok := true;
      var prev: SuperBlockRecord? := null;
      var curr := GetFullnessGroup(sizeClass, f).firstSuperBlock;
      ghost var a := 0;
      ListOfIs(sizeClass, f);
      NodeIs(s, k, 0);
      while curr != null
        invariant ok && 0 <= a && curr == Node(s, k, a) && prev == Node(s, k, a - 1)
        decreases |ListAt(s.lists, k)| - a
      {
        NodeIs(s, k, a);
        KeyParts(curr.View(), sizeClass, f);
        ok := ok && curr.prevSuperBlock == prev && Fullness(curr) == f
              && (!f.CompletelyEmpty? ==> curr.View().sizeClass == sizeClass);
        prev := curr;
        curr := curr.nextSuperBlock;
        a := a + 1;
      }
    }
  }
}
