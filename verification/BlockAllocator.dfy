/**
 One processor's block allocator: its superblocks, filed by size class and
 fullness, and the stack on which other processors put blocks of its that they
 free. Every shared access to the stack is one action.
 */
module BlockAllocator {
  import opened Options
  import opened SuperBlocks

  /** Group g of superblock sb. */
  datatype Block = Block(sb: nat, g: nat)

  datatype ListKey = Empty | Class(sizeClass: nat, fullness: Fullness)

  /** Somebody else freeing a block of ours. */
  datatype Remote =
    | Quiet
    | Holding(b: Block)
    | HasRead(b: Block, seen: Option<Block>)
    | Linked(b: Block, seen: Option<Block>)

  /** The owner, taking the stack and freeing what was on it. */
  datatype Owner = Busy | Retrying | Taking(seen: Option<Block>) | Draining(cursor: Option<Block>)

  /** Where a group is that is neither free nor in the tail. */
  datatype Place = User | Flight(i: nat) | Stacked | Taken

  datatype State = State(
    sbs: seq<SuperBlock>,
    lists: map<ListKey, seq<nat>>,
    top: Option<Block>,
    next: map<Block, Option<Block>>,
    remotes: seq<Remote>,
    owner: Owner,
    place: map<Block, Place>,       // not stored: what has become of each group
    stack: seq<Block>,              // not stored: what top leads to
    drain: seq<Block>)              // not stored: what the owner's cursor leads to

  datatype Params = Params(threshold: nat, emptinessFraction: real)

  datatype Action =
    | MapNew
    | AllocateBlocks(sizeClass: nat)
    | FreeLocal(b: Block)
    | FreeRemote(i: nat, b: Block)
    | RemoteStep(i: nat)
    | ReadStack
    | OwnerStep

  // ----- filing superblocks -----

  function KeyOf(p: Params, sb: SuperBlock): ListKey {
    var f := FullnessOf(p.threshold, p.emptinessFraction, sb);
    if f.CompletelyEmpty? then Empty else Class(sb.sizeClass, f)
  }

  function ListAt(lists: map<ListKey, seq<nat>>, k: ListKey): seq<nat> {
    if k in lists then lists[k] else []
  }

  /** unlinkSuperBlock. */
  function Unlink(list: seq<nat>, i: nat): seq<nat> {
    if list == [] then [] else if list[0] == i then list[1..] else [list[0]] + Unlink(list[1..], i)
  }

  /** From one list to the front of another, maybe the same one. */
  function Refile(lists: map<ListKey, seq<nat>>, i: nat, from: ListKey, to: ListKey): map<ListKey, seq<nat>> {
    var without := lists[from := Unlink(ListAt(lists, from), i)];
    without[to := [i] + ListAt(without, to)]
  }

  /** The first list with a superblock, of the partly used ones from nearly full
      on, then the completely empty ones. */
  function FindList(lists: map<ListKey, seq<nat>>, sizeClass: nat): Option<ListKey> {
    if ListAt(lists, Class(sizeClass, NearlyFull)) != [] then Some(Class(sizeClass, NearlyFull))
    else if ListAt(lists, Class(sizeClass, SomewhatFull)) != [] then Some(Class(sizeClass, SomewhatFull))
    else if ListAt(lists, Class(sizeClass, NearlyEmpty)) != [] then Some(Class(sizeClass, NearlyEmpty))
    else if ListAt(lists, Empty) != [] then Some(Empty)
    else None
  }

  /** A list has no superblock twice, and only those that belong on it. */
  predicate ListOk(p: Params, sbs: seq<SuperBlock>, k: ListKey, list: seq<nat>) {
    && (forall a, b :: 0 <= a < b < |list| ==> list[a] != list[b])
    && (forall a :: 0 <= a < |list| ==> list[a] < |sbs| && KeyOf(p, sbs[list[a]]) == k)
  }

  /** Every superblock is on the list where it belongs, and on no other. */
  ghost predicate Filed(p: Params, sbs: seq<SuperBlock>, lists: map<ListKey, seq<nat>>) {
    && (forall k :: ListOk(p, sbs, k, ListAt(lists, k)))
    && (forall i :: 0 <= i < |sbs| ==> i in ListAt(lists, KeyOf(p, sbs[i])))
  }

  lemma {:induction false} UnlinkIs(list: seq<nat>, i: nat)
    requires forall a, b :: 0 <= a < b < |list| ==> list[a] != list[b]
    ensures var r := Unlink(list, i);
      && (forall x: nat :: x in r <==> x in list && x != i)
      && (forall a, b :: 0 <= a < b < |r| ==> r[a] != r[b])
  {
    if list == [] {
    } else {
      UnlinkIs(list[1..], i);
      assert list == [list[0]] + list[1..];
      assert list[0] !in list[1..];
    }
  }

  lemma UnlinkOk(p: Params, sbs: seq<SuperBlock>, sb: SuperBlock, k: ListKey, list: seq<nat>, i: nat)
    requires ListOk(p, sbs, k, list) && i < |sbs|
    ensures ListOk(p, sbs[i := sb], k, Unlink(list, i)) && i !in Unlink(list, i)
  {
    hide KeyOf;
    UnlinkIs(list, i);
    var r := Unlink(list, i);
    forall a | 0 <= a < |r| ensures r[a] < |sbs| && KeyOf(p, sbs[i := sb][r[a]]) == k {
      var x: nat := r[a];
      assert x in r;
      assert x in list && x != i;
      var b :| 0 <= b < |list| && list[b] == x;
    }
  }

  lemma ConsOk(p: Params, sbs: seq<SuperBlock>, k: ListKey, list: seq<nat>, i: nat)
    requires ListOk(p, sbs, k, list) && i < |sbs| && KeyOf(p, sbs[i]) == k && i !in list
    ensures ListOk(p, sbs, k, [i] + list)
  {
    hide KeyOf;
  }

  /** A list that does not hold i does not care about it. */
  lemma OtherOk(p: Params, sbs: seq<SuperBlock>, sb: SuperBlock, k: ListKey, list: seq<nat>, i: nat)
    requires ListOk(p, sbs, k, list) && i < |sbs| && (KeyOf(p, sbs[i]) != k || KeyOf(p, sb) == k)
    ensures ListOk(p, sbs[i := sb], k, list) && (KeyOf(p, sbs[i]) != k ==> i !in list)
  {
    hide KeyOf;
  }

  /** When one superblock changes and is filed anew, all are where they belong. */
  lemma RefileKeeps(p: Params, sbs: seq<SuperBlock>, lists: map<ListKey, seq<nat>>, i: nat, sb: SuperBlock)
    requires Filed(p, sbs, lists) && i < |sbs|
    ensures Filed(p, sbs[i := sb], Refile(lists, i, KeyOf(p, sbs[i]), KeyOf(p, sb)))
  {
    hide KeyOf, ListOk;
    var from, to := KeyOf(p, sbs[i]), KeyOf(p, sb);
    var lists' := Refile(lists, i, from, to);
    UnlinkOk(p, sbs, sb, from, ListAt(lists, from), i);
    NoDuplicates(p, sbs, from, ListAt(lists, from));
    UnlinkIs(ListAt(lists, from), i);
    forall k ensures ListOk(p, sbs[i := sb], k, ListAt(lists', k)) {
      if k != from { OtherOk(p, sbs, sb, k, ListAt(lists, k), i); }
      if k == to { ConsOk(p, sbs[i := sb], k, if k == from then Unlink(ListAt(lists, k), i) else ListAt(lists, k), i); }
    }
  }

  lemma NoDuplicates(p: Params, sbs: seq<SuperBlock>, k: ListKey, list: seq<nat>)
    requires ListOk(p, sbs, k, list)
    ensures forall a, b :: 0 <= a < b < |list| ==> list[a] != list[b]
  {
  }

  lemma SameKeyKeeps(p: Params, sbs: seq<SuperBlock>, lists: map<ListKey, seq<nat>>, i: nat, sb: SuperBlock)
    requires Filed(p, sbs, lists) && i < |sbs| && KeyOf(p, sb) == KeyOf(p, sbs[i])
    ensures Filed(p, sbs[i := sb], lists)
  {
    hide KeyOf, ListOk;
    forall k ensures ListOk(p, sbs[i := sb], k, ListAt(lists, k)) {
      OtherOk(p, sbs, sb, k, ListAt(lists, k), i);
    }
  }

  lemma AddKeeps(p: Params, sbs: seq<SuperBlock>, lists: map<ListKey, seq<nat>>, sb: SuperBlock)
    requires Filed(p, sbs, lists)
    ensures Filed(p, sbs + [sb], lists[KeyOf(p, sb) := [|sbs|] + ListAt(lists, KeyOf(p, sb))])
  {
    hide KeyOf, ListOk;
    var key := KeyOf(p, sb);
    var lists' := lists[key := [|sbs|] + ListAt(lists, key)];
    forall k ensures ListOk(p, sbs + [sb], k, ListAt(lists', k)) {
      GrowOk(p, sbs, sb, k, ListAt(lists, k));
      if k == key { ConsOk(p, sbs + [sb], k, ListAt(lists, k), |sbs|); }
    }
    forall i | 0 <= i < |sbs + [sb]| ensures i in ListAt(lists', KeyOf(p, (sbs + [sb])[i])) {
      if i < |sbs| { assert i in ListAt(lists, KeyOf(p, sbs[i])); }
    }
  }

  lemma GrowOk(p: Params, sbs: seq<SuperBlock>, sb: SuperBlock, k: ListKey, list: seq<nat>)
    requires ListOk(p, sbs, k, list)
    ensures ListOk(p, sbs + [sb], k, list) && |sbs| !in list
  {
    hide KeyOf;
  }

  /** A superblock that the search finds always has room for the request. */
  lemma SearchFindsRoom(p: Params, sbs: seq<SuperBlock>, lists: map<ListKey, seq<nat>>, sizeClass: nat)
    requires Filed(p, sbs, lists) && sizeClass < p.threshold && FindList(lists, sizeClass).Some?
    ensures var list := ListAt(lists, FindList(lists, sizeClass).value);
      list != [] && list[0] < |sbs| && CanServe(p.threshold, sbs[list[0]], sizeClass)
      && KeyOf(p, sbs[list[0]]) == FindList(lists, sizeClass).value
  {
    var key := FindList(lists, sizeClass).value;
    assert ListOk(p, sbs, key, ListAt(lists, key));
    NotFullCanServe(p.threshold, p.emptinessFraction, sbs[ListAt(lists, key)[0]], sizeClass);
  }

  /** And it finds one whenever some superblock has room. */
  lemma SearchFindsAll(p: Params, sbs: seq<SuperBlock>, lists: map<ListKey, seq<nat>>, sizeClass: nat, i: nat)
    requires Filed(p, sbs, lists) && i < |sbs| && CanServe(p.threshold, sbs[i], sizeClass)
    requires sbs[i].sizeClass <= p.threshold
    ensures FindList(lists, sizeClass).Some?
  {
    assert i in ListAt(lists, KeyOf(p, sbs[i]));
    PowGrows(sbs[i].sizeClass, p.threshold);
  }

  /** Of the groups that may serve, in the order from nearly full to completely
      empty, it takes the first one that has a superblock. */
  lemma SearchTakesFullest(p: Params, sbs: seq<SuperBlock>, lists: map<ListKey, seq<nat>>, sizeClass: nat, i: nat)
    requires Filed(p, sbs, lists) && i < |sbs|
    ensures var r := FindList(lists, sizeClass);
      && (KeyOf(p, sbs[i]) == Class(sizeClass, NearlyFull) ==> r == Some(Class(sizeClass, NearlyFull)))
      && (KeyOf(p, sbs[i]) == Class(sizeClass, SomewhatFull) ==>
            r == Some(Class(sizeClass, NearlyFull)) || r == Some(Class(sizeClass, SomewhatFull)))
      && (KeyOf(p, sbs[i]) == Class(sizeClass, NearlyEmpty) ==> r.Some? && r.value.Class?)
  {
    assert i in ListAt(lists, KeyOf(p, sbs[i]));
  }

  lemma {:induction false} PowGrows(a: nat, b: nat)
    requires a <= b
    ensures Pow2(a) <= Pow2(b)
    decreases b
  {
    if a < b { PowGrows(a, b - 1); }
  }

  // ----- the machine -----

  predicate Enabled(p: Params, s: State, a: Action) {
    match a
    case MapNew => s.owner.Busy?
    case AllocateBlocks(sizeClass) => s.owner.Busy? && sizeClass < p.threshold
    case FreeLocal(b) => s.owner.Busy? && b in s.place && s.place[b].User? && b.sb < |s.sbs|
    case FreeRemote(i, b) => i < |s.remotes| && s.remotes[i].Quiet? && b in s.place && s.place[b].User?
    case RemoteStep(i) => i < |s.remotes| && !s.remotes[i].Quiet?
    case ReadStack => s.owner.Busy?
    case OwnerStep =>
      match s.owner
      case Busy => false
      case Retrying => true
      case Taking(_) => true
      case Draining(cursor) =>
        cursor.Some? ==> cursor.value.sb < |s.sbs| && cursor.value in s.next && s.drain != []
  }

  /** tryAllocateAndAdjustSuperBlocks, when the search has found key. */
  function AllocateFrom(p: Params, s: State, sizeClass: nat, key: ListKey): State
    requires ListAt(s.lists, key) != [] && ListAt(s.lists, key)[0] < |s.sbs|
    requires s.sbs[ListAt(s.lists, key)[0]].numBlocksFree >= Pow2(sizeClass)
  {
    var i := ListAt(s.lists, key)[0];
    var sb := s.sbs[i];
    var (sb', g) := Allocate(p.threshold, sb, sizeClass);
    var f, f' := FullnessOf(p.threshold, p.emptinessFraction, sb), FullnessOf(p.threshold, p.emptinessFraction, sb');
    s.(sbs := s.sbs[i := sb'],
       lists := if f != f' then Refile(s.lists, i, key, if f'.CompletelyEmpty? then Empty else Class(sizeClass, f'))
                else s.lists,
       place := s.place[Block(i, g) := User])
  }

  /** localFreeBlocks, of a block that is not on the stack any more. */
  function FreeHere(p: Params, s: State, b: Block): State
    requires b.sb < |s.sbs|
  {
    var sb := s.sbs[b.sb];
    var sb' := Deallocate(sb, b.g);
    s.(sbs := s.sbs[b.sb := sb'], lists := Refile(s.lists, b.sb, KeyOf(p, sb), KeyOf(p, sb')), place := s.place - {b})
  }

  /** What the search needs to know to go on. */
  predicate Found(p: Params, s: State, sizeClass: nat) {
    FindList(s.lists, sizeClass).Some? ==>
      var list := ListAt(s.lists, FindList(s.lists, sizeClass).value);
      list != [] && list[0] < |s.sbs| && s.sbs[list[0]].numBlocksFree >= Pow2(sizeClass)
  }

  function Do(p: Params, s: State, a: Action): State
    requires Enabled(p, s, a) && (a.AllocateBlocks? ==> Found(p, s, a.sizeClass))
  {
    match a
    case MapNew =>
      var sb := NewSuperBlock(p.threshold);
      s.(sbs := s.sbs + [sb], lists := s.lists[KeyOf(p, sb) := [|s.sbs|] + ListAt(s.lists, KeyOf(p, sb))])
    case AllocateBlocks(sizeClass) =>
      if FindList(s.lists, sizeClass).None? then s
      else AllocateFrom(p, s, sizeClass, FindList(s.lists, sizeClass).value)
    case FreeLocal(b) => FreeHere(p, s, b)
    case FreeRemote(i, b) => s.(remotes := s.remotes[i := Holding(b)], place := s.place[b := Flight(i)])
    case RemoteStep(i) =>
      (match s.remotes[i]
       case Holding(b) => s.(remotes := s.remotes[i := HasRead(b, s.top)])
       case HasRead(b, seen) => s.(next := s.next[b := seen], remotes := s.remotes[i := Linked(b, seen)])
       case Linked(b, seen) =>
         if s.top == seen then
           s.(top := Some(b), remotes := s.remotes[i := Quiet], place := s.place[b := Stacked], stack := [b] + s.stack)
         else s.(remotes := s.remotes[i := Holding(b)])
       case Quiet => s)
    case ReadStack => if s.top.None? then s else s.(owner := Taking(s.top))
    case OwnerStep =>
      (match s.owner
       case Retrying => s.(owner := Taking(s.top))
       case Taking(seen) =>
         if s.top == seen then
           s.(top := None, owner := Draining(seen), drain := s.stack, stack := [],
              place := map b | b in s.place :: if s.place[b].Stacked? then Taken else s.place[b])
         else s.(owner := Retrying)
       case Draining(cursor) =>
         if cursor.None? then s.(owner := Busy)
         else FreeHere(p, s, cursor.value).(owner := Draining(s.next[cursor.value]), drain := s.drain[1..])
       case Busy => s)
  }

  // ----- the invariant -----

  /** The groups of superblock i that are not free. */
  function Used(place: map<Block, Place>, i: nat): set<nat> {
    set b | b in place && b.sb == i :: b.g
  }

  /** Following next pointers from a block gives exactly this chain. */
  ghost predicate Chain(next: map<Block, Option<Block>>, from: Option<Block>, chain: seq<Block>)
    decreases |chain|
  {
    if chain == [] then from.None?
    else from == Some(chain[0]) && chain[0] in next && Chain(next, next[chain[0]], chain[1..])
  }

  ghost predicate SuperBlocksOk(p: Params, sbs: seq<SuperBlock>, place: map<Block, Place>) {
    && (forall i :: 0 <= i < |sbs| ==> Partitioned(p.threshold, sbs[i], Used(place, i)))
    && (forall b :: b in place ==> b.sb < |sbs|)
  }

  /** A chain holds exactly the blocks of one place, each once. */
  ghost predicate Holds(place: map<Block, Place>, chain: seq<Block>, stacked: bool) {
    && (forall i, j :: 0 <= i < j < |chain| ==> chain[i] != chain[j])
    && (forall b :: b in chain <==> b in place && place[b] == if stacked then Stacked else Taken)
  }

  ghost predicate RemotesOk(remotes: seq<Remote>, place: map<Block, Place>, next: map<Block, Option<Block>>) {
    && (forall i :: 0 <= i < |remotes| && !remotes[i].Quiet? ==>
          remotes[i].b in place && place[remotes[i].b] == Flight(i))
    && (forall i :: 0 <= i < |remotes| && remotes[i].Linked? ==>
          remotes[i].b in next && next[remotes[i].b] == remotes[i].seen)
    && (forall b :: b in place && place[b].Flight? ==>
          place[b].i < |remotes| && !remotes[place[b].i].Quiet? && remotes[place[b].i].b == b)
  }

  predicate OwnerOk(owner: Owner, drain: seq<Block>) {
    match owner
    case Draining(_) => true
    case _ => drain == []
  }

  ghost predicate StackOk(s: State) {
    && Chain(s.next, s.top, s.stack) && Holds(s.place, s.stack, true)
    && Chain(s.next, if s.owner.Draining? then s.owner.cursor else None, s.drain) && Holds(s.place, s.drain, false)
    && OwnerOk(s.owner, s.drain)
  }

  ghost predicate Inv(p: Params, s: State) {
    && SuperBlocksOk(p, s.sbs, s.place) && Filed(p, s.sbs, s.lists)
    && StackOk(s) && RemotesOk(s.remotes, s.place, s.next)
  }

  // ----- superblocks -----

  lemma UsedAfter(place: map<Block, Place>, b: Block, w: Place, i: nat)
    ensures Used(place[b := w], i) == Used(place, i) + (if i == b.sb then {b.g} else {})
    ensures Used(place - {b}, i) == Used(place, i) - (if i == b.sb then {b.g} else {})
  {
    if i == b.sb {
      assert forall g :: Block(i, g) == b <==> g == b.g;
    }
    forall g: nat ensures g in Used(place[b := w], i) <==> Block(i, g) in place[b := w] {
      InUsed(place[b := w], i, g);
    }
    forall g: nat ensures g in Used(place, i) <==> Block(i, g) in place {
      InUsed(place, i, g);
    }
    forall g: nat ensures g in Used(place - {b}, i) <==> Block(i, g) in place - {b} {
      InUsed(place - {b}, i, g);
    }
  }

  lemma InUsed(place: map<Block, Place>, i: nat, g: nat)
    ensures g in Used(place, i) <==> Block(i, g) in place
  {
    if Block(i, g) in place { assert Block(i, g).g == g; }
  }

  /** The places after block b has been put in place w, or is free again. */
  function Put(place: map<Block, Place>, b: Block, w: Option<Place>): map<Block, Place> {
    if w.Some? then place[b := w.value] else place - {b}
  }

  /** One superblock changes with the groups in use in it. */
  lemma SuperBlocksAfter(p: Params, sbs: seq<SuperBlock>, place: map<Block, Place>, sb: SuperBlock, b: Block,
                         w: Option<Place>)
    requires SuperBlocksOk(p, sbs, place) && b.sb < |sbs|
    requires Partitioned(p.threshold, sb, Used(Put(place, b, w), b.sb))
    ensures SuperBlocksOk(p, sbs[b.sb := sb], Put(place, b, w))
  {
    hide Partitioned, Used;
    forall i | 0 <= i < |sbs| ensures Partitioned(p.threshold, sbs[b.sb := sb][i], Used(Put(place, b, w), i)) {
      if i != b.sb {
        UsedAfter(place, b, if w.Some? then w.value else User, i);
        assert Used(Put(place, b, w), i) == Used(place, i);
      }
    }
  }

  /** Moving a group from one use to another changes no superblock. */
  lemma SamePlaces(p: Params, sbs: seq<SuperBlock>, place: map<Block, Place>, place': map<Block, Place>)
    requires SuperBlocksOk(p, sbs, place) && place'.Keys == place.Keys
    ensures SuperBlocksOk(p, sbs, place')
  {
    hide Partitioned;
    forall i | 0 <= i < |sbs| ensures Used(place', i) == Used(place, i) {
      forall g: nat ensures g in Used(place', i) <==> g in Used(place, i) {
        InUsed(place', i, g);
        InUsed(place, i, g);
      }
    }
  }

  // ----- chains -----

  /** A pointer outside the chain does not matter to it. */
  lemma {:induction false} ChainFrame(next: map<Block, Option<Block>>, from: Option<Block>, chain: seq<Block>,
                                      b: Block, to: Option<Block>)
    requires Chain(next, from, chain) && b !in chain
    ensures Chain(next[b := to], from, chain)
    decreases |chain|
  {
    if chain == [] {
    } else {
      ChainFrame(next, next[chain[0]], chain[1..], b, to);
    }
  }

  lemma HoldsFrame(place: map<Block, Place>, place': map<Block, Place>, chain: seq<Block>, stacked: bool)
    requires Holds(place, chain, stacked)
    requires var w := if stacked then Stacked else Taken;
      forall b :: (b in place && place[b] == w) <==> (b in place' && place'[b] == w)
    ensures Holds(place', chain, stacked)
  {
  }

  // ----- every action keeps the invariant -----

  /** A group that is neither stacked nor taken, before or after, matters to
      neither chain. */
  lemma ChainsKept(s: State, s': State, b: Block, w: Option<Place>)
    requires StackOk(s) && s'.next == s.next && s'.top == s.top && s'.stack == s.stack && s'.drain == s.drain
             && s'.owner == s.owner
    requires b in s.place ==> !s.place[b].Stacked? && !s.place[b].Taken?
    requires s'.place == Put(s.place, b, w) && (w.Some? ==> !w.value.Stacked? && !w.value.Taken?)
    ensures StackOk(s')
  {
    HoldsFrame(s.place, s'.place, s.stack, true);
    HoldsFrame(s.place, s'.place, s.drain, false);
  }

  lemma MapNewKeeps(p: Params, s: State)
    requires Inv(p, s) && p.threshold > 0 && Enabled(p, s, MapNew)
    ensures Inv(p, Do(p, s, MapNew))
  {
    hide Filed, KeyOf, Pow2;
    var sb := NewSuperBlock(p.threshold);
    AddKeeps(p, s.sbs, s.lists, sb);
    assert Used(s.place, |s.sbs|) == {};
    NewPartitioned(p.threshold);
    hide Partitioned;
    assert SuperBlocksOk(p, s.sbs + [sb], s.place);
  }

  lemma NewPartitioned(threshold: nat)
    requires threshold > 0
    ensures Partitioned(threshold, NewSuperBlock(threshold), {})
  {
    GroupsTimes(threshold, 0);
  }

  lemma AllocateFits(p: Params, s: State, sizeClass: nat)
    requires Inv(p, s) && Enabled(p, s, AllocateBlocks(sizeClass))
    ensures Found(p, s, sizeClass)
  {
    hide Pow2, Partitioned;
    if FindList(s.lists, sizeClass).Some? {
      SearchFindsRoom(p, s.sbs, s.lists, sizeClass);
      var i := ListAt(s.lists, FindList(s.lists, sizeClass).value)[0];
      AllocateKeeps(p.threshold, s.sbs[i], Used(s.place, i), sizeClass);
    }
  }

  lemma AllocateKeepsInv(p: Params, s: State, sizeClass: nat)
    requires Inv(p, s) && Enabled(p, s, AllocateBlocks(sizeClass)) && Found(p, s, sizeClass)
    ensures Inv(p, Do(p, s, AllocateBlocks(sizeClass)))
  {
    hide Pow2, Partitioned, Filed, FindList, Allocate, Refile, StackOk;
    if FindList(s.lists, sizeClass).Some? {
      var key := FindList(s.lists, sizeClass).value;
      SearchFindsRoom(p, s.sbs, s.lists, sizeClass);
      var i := ListAt(s.lists, key)[0];
      var sb := s.sbs[i];
      AllocateKeeps(p.threshold, sb, Used(s.place, i), sizeClass);
      var (sb', g) := Allocate(p.threshold, sb, sizeClass);
      var b := Block(i, g);
      InUsed(s.place, i, g);
      UsedAfter(s.place, b, User, i);
      SuperBlocksAfter(p, s.sbs, s.place, sb', b, Some(User));
      AllocateFiles(p, s.sbs, s.lists, i, sb', Used(s.place, i), sizeClass);
      ChainsKept(s, Do(p, s, AllocateBlocks(sizeClass)), b, Some(User));
    }
  }

  /** The superblock is filed anew exactly when its group has changed. */
  lemma AllocateFiles(p: Params, sbs: seq<SuperBlock>, lists: map<ListKey, seq<nat>>, i: nat, sb': SuperBlock,
                      used: set<nat>, sizeClass: nat)
    requires Filed(p, sbs, lists) && i < |sbs| && Partitioned(p.threshold, sbs[i], used)
             && CanServe(p.threshold, sbs[i], sizeClass)
    requires sb'.sizeClass == sizeClass && sb'.numBlocksFree == sbs[i].numBlocksFree - Pow2(sizeClass)
    ensures var f := FullnessOf(p.threshold, p.emptinessFraction, sbs[i]);
      var f' := FullnessOf(p.threshold, p.emptinessFraction, sb');
      var to := if f'.CompletelyEmpty? then Empty else Class(sizeClass, f');
      Filed(p, sbs[i := sb'], if f != f' then Refile(lists, i, KeyOf(p, sbs[i]), to) else lists)
  {
    hide Filed, Refile, Pow2, Partitioned, Groups;
    EmptyAndFull(p.threshold, sbs[i], used);
    assert sbs[i].sizeClass < p.threshold by { SizeClassFits(p.threshold, sbs[i], used); }
    PowGrows(sbs[i].sizeClass, p.threshold);
    RefileKeeps(p, sbs, lists, i, sb');
    if FullnessOf(p.threshold, p.emptinessFraction, sbs[i]) == FullnessOf(p.threshold, p.emptinessFraction, sb') {
      SameKeyKeeps(p, sbs, lists, i, sb');
    }
  }

  lemma SizeClassFits(threshold: nat, sb: SuperBlock, used: set<nat>)
    requires Partitioned(threshold, sb, used)
    ensures sb.sizeClass < threshold
  {
  }

  lemma FreeHereKeeps(p: Params, s: State, b: Block)
    requires SuperBlocksOk(p, s.sbs, s.place) && Filed(p, s.sbs, s.lists) && b in s.place && b.sb < |s.sbs|
    ensures SuperBlocksOk(p, FreeHere(p, s, b).sbs, s.place - {b})
    ensures Filed(p, FreeHere(p, s, b).sbs, FreeHere(p, s, b).lists)
  {
    hide Partitioned, Filed, KeyOf, Refile, Deallocate;
    var sb := s.sbs[b.sb];
    InUsed(s.place, b.sb, b.g);
    DeallocateKeeps(p.threshold, sb, Used(s.place, b.sb), b.g);
    UsedAfter(s.place, b, User, b.sb);
    SuperBlocksAfter(p, s.sbs, s.place, Deallocate(sb, b.g), b, None);
    RefileKeeps(p, s.sbs, s.lists, b.sb, Deallocate(sb, b.g));
  }

  lemma FreeLocalKeeps(p: Params, s: State, b: Block)
    requires Inv(p, s) && Enabled(p, s, FreeLocal(b))
    ensures Inv(p, Do(p, s, FreeLocal(b)))
  {
    hide SuperBlocksOk, Filed, StackOk, KeyOf, Refile, Deallocate;
    FreeHereKeeps(p, s, b);
    ChainsKept(s, Do(p, s, FreeLocal(b)), b, None);
  }

  lemma FreeRemoteKeeps(p: Params, s: State, i: nat, b: Block)
    requires Inv(p, s) && Enabled(p, s, FreeRemote(i, b))
    ensures Inv(p, Do(p, s, FreeRemote(i, b)))
  {
    hide SuperBlocksOk, Filed, StackOk;
    var s' := Do(p, s, FreeRemote(i, b));
    assert s'.place == s.place[b := Flight(i)];
    SamePlaces(p, s.sbs, s.place, s'.place);
    ChainsKept(s, s', b, Some(Flight(i)));
  }

  lemma LookKeeps(p: Params, s: State, i: nat)
    requires Inv(p, s) && Enabled(p, s, RemoteStep(i)) && s.remotes[i].Holding?
    ensures Inv(p, Do(p, s, RemoteStep(i)))
  {
    hide SuperBlocksOk, Filed, StackOk, Chain;
    assert StackOk(Do(p, s, RemoteStep(i))) by { SameStack(s, Do(p, s, RemoteStep(i))); }
  }

  lemma SameStack(s: State, s': State)
    requires StackOk(s) && s'.next == s.next && s'.top == s.top && s'.stack == s.stack && s'.drain == s.drain
    requires s'.owner == s.owner && s'.place == s.place
    ensures StackOk(s')
  {
  }

  lemma LinkKeeps(p: Params, s: State, i: nat)
    requires Inv(p, s) && Enabled(p, s, RemoteStep(i)) && s.remotes[i].HasRead?
    ensures Inv(p, Do(p, s, RemoteStep(i)))
  {
    hide SuperBlocksOk, Filed, Chain;
    var b := s.remotes[i].b;
    ChainFrame(s.next, s.top, s.stack, b, s.remotes[i].seen);
    ChainFrame(s.next, if s.owner.Draining? then s.owner.cursor else None, s.drain, b, s.remotes[i].seen);
  }

  lemma PushKeeps(p: Params, s: State, i: nat)
    requires Inv(p, s) && Enabled(p, s, RemoteStep(i)) && s.remotes[i].Linked?
    ensures Inv(p, Do(p, s, RemoteStep(i)))
  {
    hide SuperBlocksOk, Filed, Chain;
    var b, seen := s.remotes[i].b, s.remotes[i].seen;
    if s.top == seen {
      var place' := s.place[b := Stacked];
      SamePlaces(p, s.sbs, s.place, place');
      ChainCons(s.next, b, s.stack);
      HoldsFrame(s.place, place', s.drain, false);
      HoldsCons(s.place, s.stack, b);
    }
  }

  lemma ChainCons(next: map<Block, Option<Block>>, b: Block, chain: seq<Block>)
    requires b in next && Chain(next, next[b], chain)
    ensures Chain(next, Some(b), [b] + chain)
  {
    assert ([b] + chain)[1..] == chain;
  }

  lemma HoldsCons(place: map<Block, Place>, chain: seq<Block>, b: Block)
    requires Holds(place, chain, true) && b in place && !place[b].Stacked?
    ensures Holds(place[b := Stacked], [b] + chain, true)
  {
    forall x: Block ensures x in [b] + chain <==> x == b || x in chain {
    }
  }

  lemma TakeAllKeeps(p: Params, s: State)
    requires Inv(p, s) && Enabled(p, s, OwnerStep) && s.owner.Taking?
    ensures Inv(p, Do(p, s, OwnerStep))
  {
    hide SuperBlocksOk, Filed;
    var s' := Do(p, s, OwnerStep);
    if s.top == s.owner.seen {
      SamePlaces(p, s.sbs, s.place, s'.place);
    }
  }

  lemma DrainKeeps(p: Params, s: State)
    requires Inv(p, s) && Enabled(p, s, OwnerStep) && s.owner.Draining?
    ensures Inv(p, Do(p, s, OwnerStep))
  {
    hide SuperBlocksOk, Filed, KeyOf, Refile, Deallocate;
    if s.owner.cursor.Some? {
      var b := s.owner.cursor.value;
      assert s.drain[0] == b && b in s.drain;
      FreeHereKeeps(p, s, b);
      HoldsFrame(s.place, s.place - {b}, s.stack, true);
      HoldsRest(s.place, s.drain);
    }
  }

  lemma HoldsRest(place: map<Block, Place>, chain: seq<Block>)
    requires Holds(place, chain, false) && chain != []
    ensures Holds(place - {chain[0]}, chain[1..], false)
  {
    assert chain == [chain[0]] + chain[1..];
    forall x: Block ensures x in chain[1..] <==> x in chain && x != chain[0] {
    }
  }

  /** The owner is never stuck in the middle of taking blocks back. */
  lemma OwnerGoesOn(p: Params, s: State)
    requires Inv(p, s) && !s.owner.Busy?
    ensures Enabled(p, s, OwnerStep)
  {
    hide Partitioned, Filed;
    if s.owner.Draining? && s.owner.cursor.Some? {
      assert s.drain != [] && s.owner.cursor.value in s.drain;
    }
  }

  lemma DoKeepsInv(p: Params, s: State, a: Action)
    requires Inv(p, s) && p.threshold > 0 && Enabled(p, s, a)
    ensures a.AllocateBlocks? ==> Found(p, s, a.sizeClass)
    ensures Inv(p, Do(p, s, a))
  {
    hide Inv, Do, Enabled, Found;
    match a
    case MapNew => MapNewKeeps(p, s);
    case AllocateBlocks(sizeClass) =>
      AllocateFits(p, s, sizeClass);
      AllocateKeepsInv(p, s, sizeClass);
    case FreeLocal(b) => FreeLocalKeeps(p, s, b);
    case FreeRemote(i, b) => FreeRemoteKeeps(p, s, i, b);
    case RemoteStep(i) => RemoteKeeps(p, s, i);
    case ReadStack => ReadKeeps(p, s, ReadStack);
    case OwnerStep => OwnerKeeps(p, s);
  }

  lemma RemoteKeeps(p: Params, s: State, i: nat)
    requires Inv(p, s) && Enabled(p, s, RemoteStep(i))
    ensures Inv(p, Do(p, s, RemoteStep(i)))
  {
    hide Inv, Do;
    if s.remotes[i].Holding? {
      LookKeeps(p, s, i);
    } else if s.remotes[i].HasRead? {
      LinkKeeps(p, s, i);
    } else {
      PushKeeps(p, s, i);
    }
  }

  lemma ReadKeeps(p: Params, s: State, a: Action)
    requires Inv(p, s) && Enabled(p, s, a) && (a.ReadStack? || (a.OwnerStep? && s.owner.Retrying?))
    ensures Inv(p, Do(p, s, a))
  {
    hide SuperBlocksOk, Filed, Chain;
  }

  lemma OwnerKeeps(p: Params, s: State)
    requires Inv(p, s) && Enabled(p, s, OwnerStep)
    ensures Inv(p, Do(p, s, OwnerStep))
  {
    hide Inv, Do;
    if s.owner.Taking? {
      TakeAllKeeps(p, s);
    } else if s.owner.Draining? {
      DrainKeeps(p, s);
    } else {
      ReadKeeps(p, s, OwnerStep);
    }
  }

  // ----- taking all blocks back -----

  /** So many steps of the owner, one after the other. */
  function OwnerRun(p: Params, s: State, n: nat): Option<State>
    decreases n
  {
    if n == 0 then Some(s)
    else if Enabled(p, s, OwnerStep) then OwnerRun(p, Do(p, s, OwnerStep), n - 1)
    else None
  }

  function Members(chain: seq<Block>): set<Block> { set b | b in chain }

  /** Going down the chain frees each block on it. */
  lemma {:induction false} DrainFrees(p: Params, s: State)
    requires Inv(p, s) && p.threshold > 0 && s.owner.Draining?
    ensures var r := OwnerRun(p, s, |s.drain| + 1);
      && r.Some? && r.value.owner.Busy? && Inv(p, r.value)
      && r.value.place == s.place - Members(s.drain) && r.value.top == s.top && r.value.stack == s.stack
    decreases |s.drain|
  {
    hide Inv, Do, Enabled, Members;
    OwnerGoesOn(p, s);
    DoKeepsInv(p, s, OwnerStep);
    var s' := Do(p, s, OwnerStep);
    DrainStep(p, s);
    if s.drain == [] {
      assert s.place - Members([]) == s.place by { NoMembers(); }
      assert OwnerRun(p, s', 0) == Some(s');
    } else {
      DrainFrees(p, s');
      assert s.place - Members(s.drain) == (s.place - {s.drain[0]}) - Members(s.drain[1..]) by {
        FirstMember(s.drain);
      }
    }
  }

  lemma NoMembers()
    ensures Members([]) == {}
  {
  }

  lemma FirstMember(chain: seq<Block>)
    requires chain != []
    ensures Members(chain) == {chain[0]} + Members(chain[1..])
  {
    assert chain == [chain[0]] + chain[1..];
  }

  lemma DrainStep(p: Params, s: State)
    requires Inv(p, s) && s.owner.Draining? && Enabled(p, s, OwnerStep)
    ensures var s' := Do(p, s, OwnerStep);
      && s'.top == s.top && s'.stack == s.stack
      && (s.drain == [] ==> s'.owner.Busy? && s'.place == s.place)
      && (s.drain != [] ==>
            s'.owner.Draining? && s'.drain == s.drain[1..] && s'.place == s.place - {s.drain[0]})
  {
    hide SuperBlocksOk, Filed, Refile, Deallocate, KeyOf;
  }

  /** clearOutOtherFrees, when nobody comes in between: exactly what was on the
      stack is free afterwards, and the stack is empty. */
  lemma ClearOutFreesAll(p: Params, s: State)
    requires Inv(p, s) && p.threshold > 0 && Enabled(p, s, ReadStack) && s.top.Some?
    ensures var r := OwnerRun(p, Do(p, s, ReadStack), |s.stack| + 2);
      && r.Some? && r.value.owner.Busy? && Inv(p, r.value)
      && r.value.place == (map b | b in s.place && !s.place[b].Stacked? :: s.place[b])
      && r.value.top.None? && r.value.stack == []
  {
    hide Inv, Enabled, SuperBlocksOk, Filed;
    var s1 := Do(p, s, ReadStack);
    DoKeepsInv(p, s, ReadStack);
    OwnerGoesOn(p, s1);
    DoKeepsInv(p, s1, OwnerStep);
    var s2 := Do(p, s1, OwnerStep);
    DrainFrees(p, s2);
    StackedMembers(p, s);
    assert s2.place - Members(s2.drain) == (map b | b in s.place && !s.place[b].Stacked? :: s.place[b]);
  }

  lemma StackedMembers(p: Params, s: State)
    requires Inv(p, s)
    ensures forall b :: b in Members(s.stack) <==> b in s.place && s.place[b].Stacked?
  {
    hide SuperBlocksOk, Filed, Chain;
  }

  /** A remote free that nobody interferes with puts its block on the stack in three
      steps. */
  lemma RemotePushLands(p: Params, s: State, i: nat)
    requires Inv(p, s) && p.threshold > 0 && i < |s.remotes| && s.remotes[i].Holding?
    ensures var s1 := Do(p, s, RemoteStep(i));
      Enabled(p, s1, RemoteStep(i)) &&
      var s2 := Do(p, s1, RemoteStep(i));
      Enabled(p, s2, RemoteStep(i)) &&
      var s3, b := Do(p, s2, RemoteStep(i)), s.remotes[i].b;
      && Inv(p, s3) && s3.remotes == s.remotes[i := Quiet] && s3.stack == [b] + s.stack && s3.top == Some(b)
      && s3.place == s.place[b := Stacked] && s3.next == s.next[b := s.top] && s3.owner == s.owner
  {
    hide Inv;
    DoKeepsInv(p, s, RemoteStep(i));
    var s1 := Do(p, s, RemoteStep(i));
    DoKeepsInv(p, s1, RemoteStep(i));
    DoKeepsInv(p, Do(p, s1, RemoteStep(i)), RemoteStep(i));
  }

  // ----- runs -----

  function Init(remotes: nat): State {
    State([], map[], None, map[], seq(remotes, _ => Quiet), Busy, map[], [], [])
  }

  function Run(p: Params, remotes: nat, acts: seq<Action>): Option<State>
    decreases |acts|
  {
    if acts == [] then Some(Init(remotes))
    else
      match Run(p, remotes, acts[..|acts| - 1])
      case None => None
      case Some(s) =>
        var a := acts[|acts| - 1];
        if Enabled(p, s, a) && (a.AllocateBlocks? ==> Found(p, s, a.sizeClass)) then Some(Do(p, s, a)) else None
  }

  lemma InitInv(p: Params, remotes: nat)
    ensures Inv(p, Init(remotes))
  {
  }

  lemma {:induction false} RunKeepsInv(p: Params, remotes: nat, acts: seq<Action>)
    requires p.threshold > 0 && Run(p, remotes, acts).Some?
    ensures Inv(p, Run(p, remotes, acts).value)
    decreases |acts|
  {
    hide Inv, Do, Enabled, Found;
    if acts == [] {
      InitInv(p, remotes);
    } else {
      RunKeepsInv(p, remotes, acts[..|acts| - 1]);
      DoKeepsInv(p, Run(p, remotes, acts[..|acts| - 1]).value, acts[|acts| - 1]);
    }
  }

  /** In every interleaving each group of each superblock is exactly one of: in a
      user's hands, in the hands of somebody freeing it, on the stack, taken back
      from it, on the free list, or in the tail; the stack and what is taken back
      hold each such group once; numBlocksFree counts free list and tail; and
      every superblock is on the one list where it belongs. */
  lemma {:induction false} BlocksArePartitioned(p: Params, remotes: nat, acts: seq<Action>)
    requires p.threshold > 0 && Run(p, remotes, acts).Some?
    ensures var s := Run(p, remotes, acts).value;
      && (forall i :: 0 <= i < |s.sbs| ==> Partitioned(p.threshold, s.sbs[i], Used(s.place, i)))
      && (forall b :: b in s.place ==> b.sb < |s.sbs|)
      && Chain(s.next, s.top, s.stack) && Holds(s.place, s.stack, true) && Holds(s.place, s.drain, false)
      && (forall b :: b in s.place && s.place[b].Flight? ==>
            s.place[b].i < |s.remotes| && !s.remotes[s.place[b].i].Quiet? && s.remotes[s.place[b].i].b == b)
      && Filed(p, s.sbs, s.lists)
  {
    hide Run, Partitioned, Filed, Holds, Chain;
    RunKeepsInv(p, remotes, acts);
  }

  /** No group is handed out while it is anywhere else, and what is handed out
      lies within its superblock. */
  lemma HandedOutWasFree(p: Params, s: State, sizeClass: nat, b: Block)
    requires Inv(p, s) && p.threshold > 0 && Enabled(p, s, AllocateBlocks(sizeClass)) && Found(p, s, sizeClass)
    requires b in Do(p, s, AllocateBlocks(sizeClass)).place
    requires b in s.place ==> Do(p, s, AllocateBlocks(sizeClass)).place[b] != s.place[b]
    ensures b !in s.place && b.sb < |s.sbs| && b.g < Groups(p.threshold, sizeClass)
    ensures b.g in s.sbs[b.sb].free || b.g >= s.sbs[b.sb].frontier || s.sbs[b.sb].numBlocksFree == Pow2(p.threshold)
  {
    hide Pow2, Partitioned, Filed, FindList, Allocate, Refile, StackOk, Groups;
    SearchFindsRoom(p, s.sbs, s.lists, sizeClass);
    var i := ListAt(s.lists, FindList(s.lists, sizeClass).value)[0];
    AllocateKeeps(p.threshold, s.sbs[i], Used(s.place, i), sizeClass);
    InUsed(s.place, i, Allocate(p.threshold, s.sbs[i], sizeClass).1);
    NotUsed(p.threshold, s.sbs[i], Used(s.place, i), b.g);
  }

  /** An allocation hands out one group, of the class asked for, in a superblock that
      has that many blocks less afterwards; it hands out none exactly if no
      superblock can serve it, and then nothing changes. */
  lemma AllocatesExactly(p: Params, s: State, sizeClass: nat) returns (r: Option<Block>)
    requires Inv(p, s) && p.threshold > 0 && Enabled(p, s, AllocateBlocks(sizeClass)) && Found(p, s, sizeClass)
    ensures r.None? <==> forall i :: 0 <= i < |s.sbs| ==> !CanServe(p.threshold, s.sbs[i], sizeClass)
    ensures var s' := Do(p, s, AllocateBlocks(sizeClass));
      match r
      case None => s' == s
      case Some(b) =>
        && b !in s.place && s'.place == s.place[b := User]
        && b.sb < |s.sbs| && s'.sbs == s.sbs[b.sb := s'.sbs[b.sb]] && b.g < Groups(p.threshold, sizeClass)
        && s'.sbs[b.sb].sizeClass == sizeClass
        && s'.sbs[b.sb].numBlocksFree == s.sbs[b.sb].numBlocksFree - Pow2(sizeClass)
  {
    hide Pow2, Partitioned, Filed, FindList, Allocate, Refile, StackOk, Groups;
    if FindList(s.lists, sizeClass).None? {
      forall i | 0 <= i < |s.sbs| ensures !CanServe(p.threshold, s.sbs[i], sizeClass) {
        if CanServe(p.threshold, s.sbs[i], sizeClass) {
          SizeClassFits(p.threshold, s.sbs[i], Used(s.place, i));
          SearchFindsAll(p, s.sbs, s.lists, sizeClass, i);
        }
      }
      r := None;
    } else {
      SearchFindsRoom(p, s.sbs, s.lists, sizeClass);
      var i := ListAt(s.lists, FindList(s.lists, sizeClass).value)[0];
      AllocateKeeps(p.threshold, s.sbs[i], Used(s.place, i), sizeClass);
      var g := Allocate(p.threshold, s.sbs[i], sizeClass).1;
      InUsed(s.place, i, g);
      r := Some(Block(i, g));
    }
  }

  /** A local free takes exactly this group out of use and gives its superblock the
      blocks back. */
  lemma FreesExactly(p: Params, s: State, b: Block)
    requires Inv(p, s) && p.threshold > 0 && Enabled(p, s, FreeLocal(b))
    ensures var s' := Do(p, s, FreeLocal(b));
      && s'.place == s.place - {b} && s'.sbs == s.sbs[b.sb := s'.sbs[b.sb]] && b.g in s'.sbs[b.sb].free
      && s'.sbs[b.sb].sizeClass == s.sbs[b.sb].sizeClass
      && s'.sbs[b.sb].numBlocksFree == s.sbs[b.sb].numBlocksFree + Pow2(s.sbs[b.sb].sizeClass)
  {
    hide Inv, Refile, Pow2, KeyOf;
  }

  lemma NotUsed(threshold: nat, sb: SuperBlock, used: set<nat>, g: nat)
    requires Partitioned(threshold, sb, used) && g !in used
    ensures g in sb.free || g >= sb.frontier
  {
  }
}
