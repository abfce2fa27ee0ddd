/**
 All heaps of the runtime with their chains of sub-heaps in memory, and the
 operations on them as they are called: every sequence of calls is a run of
 `CcChains`, on records that point at each other.
 */
module CcMemory {
  import opened Options
  import opened CcChains
  import opened CcLinks

  /** A primary and the records of its sub-heaps. */
  datatype Place = Place(hh: HeapRecord, fs: seq<HeapRecord>, cs: seq<HeapRecord>)

  ghost function Records(pl: Place): (r: set<HeapRecord>)
    ensures pl.hh in r && (forall n :: n in pl.fs ==> n in r) && (forall n :: n in pl.cs ==> n in r)
    ensures forall n :: n in r ==> n == pl.hh || n in pl.fs || n in pl.cs
  {
    {pl.hh} + (set n | n in pl.fs) + (set n | n in pl.cs)
  }

  ghost predicate Stands(pl: Place, v: Heap)
    reads Records(pl)
  {
    Forms(pl.hh, pl.fs, pl.cs, v)
  }

  ghost predicate Disjoint(a: Place, b: Place) {
    Apart(a.hh, a.fs, a.cs, b.hh, b.fs, b.cs)
  }

  /** The records of all places but these two. */
  ghost function RecordsBut(ps: seq<Place>, i: nat, j: nat): (r: set<HeapRecord>)
    ensures forall k :: 0 <= k < |ps| && k != i && k != j ==> Records(ps[k]) <= r
  {
    set k, n | 0 <= k < |ps| && k != i && k != j && n in Records(ps[k]) :: n
  }

  ghost predicate OthersStand(ps: seq<Place>, heaps: seq<Heap>, i: nat, j: nat)
    reads RecordsBut(ps, i, j)
  {
    |ps| == |heaps| && forall k :: 0 <= k < |ps| && k != i && k != j ==> Stands(ps[k], heaps[k])
  }

  ghost predicate AllDisjoint(ps: seq<Place>) {
    forall i, j :: 0 <= i < |ps| && 0 <= j < |ps| && i != j ==> Disjoint(ps[i], ps[j])
  }

  /** What is known of place i, and of the others. */
  lemma PlaceAt(ps: seq<Place>, heaps: seq<Heap>, i: nat)
    requires AllDisjoint(ps) && OthersStand(ps, heaps, |ps|, |ps|) && i < |ps|
    ensures |ps| == |heaps| && Forms(ps[i].hh, ps[i].fs, ps[i].cs, heaps[i]) && OthersStand(ps, heaps, i, i)
    ensures forall n :: n in RecordsBut(ps, i, i) ==> n != ps[i].hh && n !in ps[i].fs && n !in ps[i].cs
  {
    assert Stands(ps[i], heaps[i]);
    forall n | n in RecordsBut(ps, i, i) ensures n != ps[i].hh && n !in ps[i].fs && n !in ps[i].cs {
      var k :| 0 <= k < |ps| && k != i && n in Records(ps[k]);
      assert Disjoint(ps[i], ps[k]);
    }
  }

  /** Place i has become pl, with no record of the others. */
  lemma PlacePut(ps: seq<Place>, heaps: seq<Heap>, i: nat, pl: Place, v: Heap)
    requires AllDisjoint(ps) && i < |ps| && OthersStand(ps, heaps, i, i) && Forms(pl.hh, pl.fs, pl.cs, v)
    requires forall n :: n in Records(pl) ==> n !in RecordsBut(ps, i, i)
    ensures |ps| == |heaps| && AllDisjoint(ps[i := pl])
    ensures OthersStand(ps[i := pl], heaps[i := v], |ps|, |ps|)
  {
    hide Forms;
    var ps' := ps[i := pl];
    forall k | 0 <= k < |ps| && k != i ensures Disjoint(ps[k], pl) && Disjoint(pl, ps[k]) {
      SetsApart(ps, i, k, pl);
    }
    forall a, b | 0 <= a < |ps'| && 0 <= b < |ps'| && a != b ensures Disjoint(ps'[a], ps'[b]) {
      if a != i && b != i { assert Disjoint(ps[a], ps[b]); }
    }
    forall k | 0 <= k < |ps'| ensures Stands(ps'[k], heaps[i := v][k]) {
      if k != i { assert Stands(ps[k], heaps[k]); }
    }
  }

  lemma SetsApart(ps: seq<Place>, i: nat, k: nat, pl: Place)
    requires k < |ps| && i != k && forall n :: n in Records(pl) ==> n !in RecordsBut(ps, i, i)
    ensures Disjoint(ps[k], pl) && Disjoint(pl, ps[k])
  {
    hide Records, RecordsBut;
    assert Records(ps[k]) <= RecordsBut(ps, i, i);
    assert forall n :: n in ps[k].fs ==> n in RecordsBut(ps, i, i);
    assert forall n :: n in ps[k].cs ==> n in RecordsBut(ps, i, i);
  }

  class HeapTable {
    var primaries: seq<HeapRecord>
    var nextId: nat
    var nextChunk: nat
    ghost var places: seq<Place>
    ghost var world: World
    ghost var acts: seq<Action>

    constructor ()
      ensures Valid() && acts == []
    {
      primaries, nextId, nextChunk := [], 0, 0;
      places, world, acts := [], World([], 0, 0, multiset{}, multiset{}), [];
    }

    ghost predicate Valid()
      reads this, RecordsBut(places, |places|, |places|)
    {
      && Run(acts) == Some(world) && nextId == world.nextId && nextChunk == world.nextChunk
      && |primaries| == |places| && (forall i :: 0 <= i < |places| ==> places[i].hh == primaries[i])
      && AllDisjoint(places) && OthersStand(places, world.heaps, |places|, |places|)
    }

    lemma ValidIs()
      requires Valid()
      ensures Run(acts) == Some(world) && nextId == world.nextId && nextChunk == world.nextChunk
      ensures |primaries| == |places| && (forall i :: 0 <= i < |places| ==> places[i].hh == primaries[i])
      ensures AllDisjoint(places) && OthersStand(places, world.heaps, |places|, |places|)
      ensures |places| == |world.heaps|
    {
    }

    /** The action is entered, and memory is as it says. */
    method Commit(ghost a: Action, ghost ps: seq<Place>, heaps: seq<HeapRecord>, id: nat, chunk: nat)
      requires Run(acts) == Some(world) && Enabled(world, a)
      requires id == DoIt(world, a).nextId && chunk == DoIt(world, a).nextChunk
      requires |heaps| == |ps| && (forall i :: 0 <= i < |ps| ==> ps[i].hh == heaps[i])
      requires AllDisjoint(ps) && OthersStand(ps, DoIt(world, a).heaps, |ps|, |ps|)
      modifies this
      ensures Valid() && acts == old(acts) + [a] && world == DoIt(old(world), a) && places == ps
    {
      hide AllDisjoint, OthersStand, Enabled, DoIt, Run, Valid, Stands, Disjoint;
      RunSnoc(acts, world, a);
      ghost var w := DoIt(world, a);
      world, acts, places := w, acts + [a], ps;
      primaries, nextId, nextChunk := heaps, id, chunk;
      assert unchanged(RecordsBut(ps, |ps|, |ps|));
      assert OthersStand(ps, w.heaps, |ps|, |ps|);
      ValidIf();
    }

    lemma ValidIf()
      requires Run(acts) == Some(world) && nextId == world.nextId && nextChunk == world.nextChunk
      requires |primaries| == |places| && (forall i :: 0 <= i < |places| ==> places[i].hh == primaries[i])
      requires AllDisjoint(places) && OthersStand(places, world.heaps, |places|, |places|)
      ensures Valid()
    {
    }

    // ----- one heap -----

    method AddHeap(depth: nat)
      requires Valid()
      modifies this
      ensures Valid() && acts == old(acts) + [NewHeap(depth)]
    {
      hide AllDisjoint, OthersStand, Stands, Disjoint, Forms, Valid, Run, Enabled, DoIt, MergeCompleted, Promote, Split,
        AllApart, ForChain, DoneChain, NoneFor, Top, Outs, Dones, CcLinks.Distinct, Records;
      ValidIs();
      ghost var n, before := |places|, RecordsBut(places, |places|, |places|);
      var hh := new HeapRecord(nextId, depth);
      assert unchanged(RecordsBut(places, n, n));
      assert OthersStand(places, world.heaps, n, n);
      ghost var pl, v := Place(hh, [], []), Heap(nextId, depth, [], Unregistered, [], []);
      NewForms(hh, v);
      PlaceAdd(places, world.heaps, pl, v);
      NewHeapIs(world, depth);
      Commit(NewHeap(depth), places + [pl], primaries + [hh], nextId + 1, nextChunk);
    }

    method AllocateChunk(i: nat)
      requires Valid() && i < |primaries|
      modifies this, {primaries[i]}`chunkList
      ensures Valid() && acts == old(acts) + [Allocate(i)]
    {
      hide AllDisjoint, OthersStand, Stands, Disjoint, Forms, Valid, Run, Enabled, DoIt, MergeCompleted, Promote, Split,
        AllApart, ForChain, DoneChain, NoneFor, Top, Outs, Dones, CcLinks.Distinct, Records;
      ValidIs();
      PlaceAt(places, world.heaps, i);
      var hh := primaries[i];
      ghost var pl, v := places[i], world.heaps[i];
      ghost var v' := v.(chunks := v.chunks + [nextChunk]);
      FormsIs(hh, pl.fs, pl.cs, v);
      hh.chunkList := hh.chunkList + [nextChunk];
      assert unchanged(RecordsBut(places, i, i));
      assert OthersStand(places, world.heaps, i, i);
      assert Outs(pl.fs, v.forCC) && Dones(pl.cs, v.completedCC);
      TopSet(hh, v');
      FormsIf(hh, pl.fs, pl.cs, v');
      SamePlace(places, i);
      PlacePut(places, world.heaps, i, pl, v');
      AllocateIs(world, i);
      Commit(Allocate(i), places, primaries, nextId, nextChunk + 1);
    }

    method Register(i: nat)
      requires Valid() && i < |primaries| && primaries[i].ccstate.Unregistered?
      modifies this, {primaries[i]}`ccstate
      ensures Valid() && acts == old(acts) + [Action.Register(i)]
    {
      hide AllDisjoint, OthersStand, Stands, Disjoint, Forms, Valid, Run, Enabled, DoIt, MergeCompleted, Promote, Split,
        AllApart, ForChain, DoneChain, NoneFor, Top, Outs, Dones, CcLinks.Distinct, Records;
      ValidIs();
      PlaceAt(places, world.heaps, i);
      var hh := primaries[i];
      ghost var pl, v := places[i], world.heaps[i];
      ghost var v' := v.(state := Registered);
      FormsIs(hh, pl.fs, pl.cs, v);
      hh.ccstate := Registered;
      assert unchanged(RecordsBut(places, i, i));
      assert OthersStand(places, world.heaps, i, i);
      assert Outs(pl.fs, v.forCC) && Dones(pl.cs, v.completedCC);
      TopSet(hh, v');
      FormsIf(hh, pl.fs, pl.cs, v');
      SamePlace(places, i);
      PlacePut(places, world.heaps, i, pl, v');
      RegisterIs(world, i);
      Commit(Action.Register(i), places, primaries, nextId, nextChunk);
    }

    /** splitHeapForCC: the new heap takes the old one's place. */
    method SplitHeap(i: nat)
      requires Valid() && i < |primaries| && primaries[i].ccstate.Registered?
      modifies this, {primaries[i]}`subHeapCompletedCC
      ensures Valid() && acts == old(acts) + [SplitForCC(i)]
    {
      hide AllDisjoint, OthersStand, Stands, Disjoint, Forms, Valid, Run, Enabled, DoIt, MergeCompleted, Promote, Split,
        AllApart, ForChain, DoneChain, NoneFor, Top, Outs, Dones, CcLinks.Distinct, Records;
      ValidIs();
      PlaceAt(places, world.heaps, i);
      var hh := primaries[i];
      ghost var pl, v, others := places[i], world.heaps[i], RecordsBut(places, i, i);
      FormsIs(hh, pl.fs, pl.cs, v);
      SplitIs(world, i);
      var isFirst := hh.subHeapCompletedCC == null;
      NullIffEmpty(hh, pl.fs, pl.cs);
      var newHH, done := SplitHeapForCC(hh, nextId, nextId + 1, nextChunk, pl.fs, pl.cs, v);
      assert unchanged(RecordsBut(places, i, i));
      assert OthersStand(places, world.heaps, i, i);
      ghost var pl' := Place(newHH, [hh] + pl.fs, done);
      MoreRecords(pl, pl', others);
      PlacePut(places, world.heaps, i, pl', Split(v, nextId, nextId + 1, nextChunk));
      var id := nextId + if isFirst then 2 else 1;
      Commit(SplitForCC(i), places[i := pl'], primaries[i := newHH], id, nextChunk + 1);
    }

    /** mergeCompletedCCs. */
    method MergeHeap(i: nat)
      requires Valid() && i < |primaries|
      modifies this, Records(places[i])
      ensures Valid() && acts == old(acts) + [MergeDone(i)]
    {
      hide AllDisjoint, OthersStand, Stands, Disjoint, Forms, Valid, Run, Enabled, DoIt, MergeCompleted, Promote, Split,
        AllApart, ForChain, DoneChain, NoneFor, Top, Outs, Dones, CcLinks.Distinct, Records;
      ValidIs();
      PlaceAt(places, world.heaps, i);
      var hh := primaries[i];
      ghost var pl, v := places[i], world.heaps[i];
      InRecords(pl);
      var kept, done := MergeCompletedCCs(hh, pl.fs, pl.cs, v);
      assert unchanged(RecordsBut(places, i, i));
      assert OthersStand(places, world.heaps, i, i);
      ghost var pl' := Place(hh, kept, done);
      FewerRecords(pl, pl', RecordsBut(places, i, i));
      PlacePut(places, world.heaps, i, pl', MergeCompleted(v));
      MergeIs(world, i);
      Commit(MergeDone(i), places[i := pl'], primaries, nextId, nextChunk);
    }

    /** HM_HH_promoteChunks without a heap just above. */
    method PromoteOne(i: nat)
      requires Valid() && i < |primaries| && primaries[i].depth > 0
      modifies this, Records(places[i])
      ensures Valid() && acts == old(acts) + [PromoteHeap(i)]
    {
      hide AllDisjoint, OthersStand, Stands, Disjoint, Forms, Valid, Run, Enabled, DoIt, MergeCompleted, Promote, Split,
        AllApart, ForChain, DoneChain, NoneFor, Top, Outs, Dones, CcLinks.Distinct, Records;
      ValidIs();
      PlaceAt(places, world.heaps, i);
      var hh := primaries[i];
      ghost var pl, v := places[i], world.heaps[i];
      InRecords(pl);
      HeadIs(pl, v);
      PromoteChunks(hh, pl.fs, pl.cs, v);
      assert unchanged(RecordsBut(places, i, i));
      assert OthersStand(places, world.heaps, i, i);
      SamePlace(places, i);
      PlacePut(places, world.heaps, i, pl, Promote(v));
      PromoteHeapIs(world, i);
      Commit(PromoteHeap(i), places, primaries, nextId, nextChunk);
    }

    // ----- the concurrent collector on a sub-heap -----

    /** A processor starts collecting an outstanding sub-heap. */
    method StartCollecting(i: nat, sub: HeapRecord, ghost k: nat)
      requires Valid() && i < |primaries| && k < |places[i].fs| && sub == places[i].fs[k] && sub.ccstate.Registered?
      modifies this, {sub}`ccstate, {sub}`chunkList
      ensures Valid() && acts == old(acts) + [StartCC(i, k)]
    {
      hide AllDisjoint, OthersStand, Stands, Disjoint, Forms, Valid, Run, Enabled, DoIt, MergeCompleted, Promote, Split,
        AllApart, ForChain, DoneChain, NoneFor, Top, Outs, Dones, CcLinks.Distinct, Records, SetSub, Join,
        CcChains.PromoteInto, ChainOk, Absorb, Apart;
      ValidIs();
      PlaceAt(places, world.heaps, i);
      ghost var pl, v := places[i], world.heaps[i];
      SubIs(pl, v, k);
      StartIs(world, i, k);
      SetSubHeap(primaries[i], sub, Collecting, sub.chunkList, k, pl.fs, pl.cs, v);
      assert unchanged(RecordsBut(places, i, i));
      assert OthersStand(places, world.heaps, i, i);
      SamePlace(places, i);
      PlacePut(places, world.heaps, i, pl, SetSub(v, k, v.forCC[k].(state := Collecting)));
      Commit(StartCC(i, k), places, primaries, nextId, nextChunk);
    }

    /** It is done, and has kept some of the chunks. */
    method FinishCollecting(i: nat, sub: HeapRecord, kept: seq<nat>, ghost garbage: seq<nat>, ghost k: nat)
      requires Valid() && i < |primaries| && k < |places[i].fs| && sub == places[i].fs[k] && sub.ccstate.Collecting?
      requires multiset(sub.chunkList) == multiset(kept) + multiset(garbage)
      modifies this, {sub}`ccstate, {sub}`chunkList
      ensures Valid() && acts == old(acts) + [FinishCC(i, k, kept, garbage)]
    {
      hide AllDisjoint, OthersStand, Stands, Disjoint, Forms, Valid, Run, Enabled, DoIt, MergeCompleted, Promote, Split,
        AllApart, ForChain, DoneChain, NoneFor, Top, Outs, Dones, CcLinks.Distinct, Records, SetSub, Join,
        CcChains.PromoteInto, ChainOk, Absorb, Apart;
      ValidIs();
      PlaceAt(places, world.heaps, i);
      ghost var pl, v := places[i], world.heaps[i];
      SubIs(pl, v, k);
      FinishIs(world, i, k, kept, garbage);
      SetSubHeap(primaries[i], sub, Done, kept, k, pl.fs, pl.cs, v);
      assert unchanged(RecordsBut(places, i, i));
      assert OthersStand(places, world.heaps, i, i);
      SamePlace(places, i);
      PlacePut(places, world.heaps, i, pl, SetSub(v, k, v.forCC[k].(state := Done, chunks := kept)));
      Commit(FinishCC(i, k, kept, garbage), places, primaries, nextId, nextChunk);
    }

    // ----- two heaps become one -----

    /** HM_HH_promoteChunks of heap j into heap i just above. */
    method PromoteOneInto(i: nat, j: nat)
      requires Valid() && i < |primaries| && j < |primaries| && i != j
      requires primaries[j].depth == primaries[i].depth + 1
      modifies this, Records(places[i]), Records(places[j])
      ensures Valid() && acts == old(acts) + [PromoteHeapInto(i, j)]
    {
      hide *;
      ValidIs();
      ghost var ps, heaps := places, world.heaps;
      DepthsAre(ps, heaps, i, j);
      PromoteHeapIntoIs(world, i, j);
      ChainsAreOk(world, acts);
      var primary, pl := PromotePlaces(ps, heaps, i, j, primaries[i], primaries[j]);
      PlaceAbsorb(ps, heaps, i, j, pl, CcChains.PromoteInto(heaps[i], heaps[j]));
      var rest := primaries[i := primary][..j] + primaries[i := primary][j + 1..];
      Commit(PromoteHeapInto(i, j), ps[i := pl][..j] + ps[i := pl][j + 1..], rest, nextId, nextChunk);
    }

    /** What a zip does with heaps i and j of one depth. */
    method JoinInto(i: nat, j: nat)
      requires Valid() && i < |primaries| && j < |primaries| && i != j
      requires primaries[j].depth == primaries[i].depth
      modifies this, Records(places[i]), Records(places[j])
      ensures Valid() && acts == old(acts) + [JoinLevel(i, j)]
    {
      hide *;
      ValidIs();
      ghost var ps, heaps := places, world.heaps;
      DepthsAre(ps, heaps, i, j);
      JoinLevelIs(world, i, j);
      ChainsAreOk(world, acts);
      var primary := primaries[i];
      ghost var pl := JoinPlaces(ps, heaps, i, j, primary, primaries[j]);
      PlaceAbsorb(ps, heaps, i, j, pl, Join(heaps[i], heaps[j]));
      var rest := primaries[i := primary][..j] + primaries[i := primary][j + 1..];
      Commit(JoinLevel(i, j), ps[i := pl][..j] + ps[i := pl][j + 1..], rest, nextId, nextChunk);
    }

    /** After any calls whatever: every chain is ended, of records that are on no
        other and not twice on it, in the states and at the depth asserted, and no
        chunk is lost or doubled. */
    lemma AlwaysWellFormed()
      requires Valid()
      ensures WorldOk(world) && AllDisjoint(places) && |primaries| == |places| == |world.heaps|
      ensures forall i :: 0 <= i < |primaries| ==>
                Forms(primaries[i], places[i].fs, places[i].cs, world.heaps[i]) && ChainOk(world.heaps[i])
    {
      hide Forms, Run, AllDisjoint;
      RunKeepsWorld(acts);
      forall i | 0 <= i < |primaries|
        ensures Forms(primaries[i], places[i].fs, places[i].cs, world.heaps[i]) && ChainOk(world.heaps[i])
      {
        assert Stands(places[i], world.heaps[i]);
      }
    }
  }

  /** Promotion on the records of two places, which leaves the others alone. */
  method PromotePlaces(ghost ps: seq<Place>, ghost heaps: seq<Heap>, ghost i: nat, ghost j: nat,
                       parent: HeapRecord, hh: HeapRecord)
    returns (primary: HeapRecord, ghost pl: Place)
    requires AllDisjoint(ps) && OthersStand(ps, heaps, |ps|, |ps|) && |ps| == |heaps|
    requires i < |ps| && j < |ps| && i != j && ps[i].hh == parent && ps[j].hh == hh
    requires ChainOk(heaps[i]) && ChainOk(heaps[j]) && heaps[j].depth > 0
    modifies Records(ps[i]), Records(ps[j])
    ensures OthersStand(ps, heaps, i, j) && pl.hh == primary
    ensures Forms(pl.hh, pl.fs, pl.cs, PromoteInto(heaps[i], heaps[j]))
    ensures forall n :: n in Records(pl) ==> n !in RecordsBut(ps, i, j)
  {
    hide AllDisjoint, OthersStand, Stands, Disjoint, Forms, MergeCompleted, Records, Join, PromoteInto,
      ChainOk, Apart;
    TwoPlacesAt(ps, heaps, i, j);
    ghost var a, b := ps[i], ps[j];
    InRecords(a);
    InRecords(b);
    var p, fs, cs := PromoteChunksInto(parent, hh, a.fs, a.cs, heaps[i], b.fs, b.cs, heaps[j]);
    primary, pl := p, Place(p, fs, cs);
    assert unchanged(RecordsBut(ps, i, j));
    UnitedRecords(a, b, pl, RecordsBut(ps, i, j));
  }

  method JoinPlaces(ghost ps: seq<Place>, ghost heaps: seq<Heap>, ghost i: nat, ghost j: nat,
                    hh1: HeapRecord, hh2: HeapRecord)
    returns (ghost pl: Place)
    requires AllDisjoint(ps) && OthersStand(ps, heaps, |ps|, |ps|) && |ps| == |heaps|
    requires i < |ps| && j < |ps| && i != j && ps[i].hh == hh1 && ps[j].hh == hh2
    requires ChainOk(heaps[i]) && ChainOk(heaps[j])
    modifies Records(ps[i]), Records(ps[j])
    ensures OthersStand(ps, heaps, i, j) && pl.hh == hh1
    ensures Forms(pl.hh, pl.fs, pl.cs, Join(heaps[i], heaps[j]))
    ensures forall n :: n in Records(pl) ==> n !in RecordsBut(ps, i, j)
    ensures Records(pl) <= Records(ps[i]) + Records(ps[j])
  {
    hide AllDisjoint, OthersStand, Stands, Disjoint, Forms, MergeCompleted, Records, Join, PromoteInto,
      ChainOk, Apart;
    TwoPlacesAt(ps, heaps, i, j);
    ghost var a, b := ps[i], ps[j];
    InRecords(a);
    InRecords(b);
    JoinHeaps(hh1, hh2, a.fs, a.cs, heaps[i], b.fs, b.cs, heaps[j]);
    pl := Place(hh1, b.fs + a.fs, b.cs + a.cs);
    assert unchanged(RecordsBut(ps, i, j));
    JoinedRecords(a, b, pl);
    UnitedRecords(a, b, pl, RecordsBut(ps, i, j));
  }

  lemma JoinedRecords(a: Place, b: Place, pl: Place)
    requires pl == Place(a.hh, b.fs + a.fs, b.cs + a.cs)
    ensures Records(pl) <= Records(a) + Records(b)
  {
  }

  lemma DepthsAre(ps: seq<Place>, heaps: seq<Heap>, i: nat, j: nat)
    requires OthersStand(ps, heaps, |ps|, |ps|) && i < |ps| && j < |ps|
    ensures |ps| == |heaps| && ps[i].hh.depth == heaps[i].depth && ps[j].hh.depth == heaps[j].depth
  {
    assert Stands(ps[i], heaps[i]) && Stands(ps[j], heaps[j]);
  }

  lemma TopSet(hh: HeapRecord, v: Heap)
    requires hh.id == v.id && hh.depth == v.depth && hh.chunkList == v.chunks && hh.ccstate == v.state
    ensures Top(hh, v)
  {
  }

  lemma SamePlace(ps: seq<Place>, i: nat)
    requires i < |ps| && forall n :: n in RecordsBut(ps, i, i) ==> n != ps[i].hh && n !in ps[i].fs && n !in ps[i].cs
    ensures ps[i := ps[i]] == ps
    ensures forall n :: n in Records(ps[i]) ==> n !in RecordsBut(ps, i, i)
  {
    hide Records, RecordsBut;
  }

  lemma RunSnoc(acts: seq<Action>, w: World, a: Action)
    requires Run(acts) == Some(w) && Enabled(w, a)
    ensures Run(acts + [a]) == Some(DoIt(w, a))
  {
    hide Enabled, DoIt;
    assert (acts + [a])[..|acts|] == acts;
  }

  lemma HeadIs(pl: Place, v: Heap)
    requires Forms(pl.hh, pl.fs, pl.cs, v)
    ensures pl.hh.depth == v.depth && pl.hh.ccstate == v.state
  {
  }

  lemma InRecords(pl: Place)
    ensures pl.hh in Records(pl) && (forall n :: n in pl.fs ==> n in Records(pl))
    ensures forall n :: n in pl.cs ==> n in Records(pl)
  {
  }

  lemma FewerRecords(pl: Place, pl': Place, others: set<HeapRecord>)
    requires forall n :: n in others ==> n != pl.hh && n !in pl.fs && n !in pl.cs
    requires pl'.hh == pl.hh && (forall n :: n in pl'.fs ==> n in pl.fs)
    requires forall n :: n in pl'.cs ==> n in pl.fs || n in pl.cs
    ensures forall n :: n in Records(pl') ==> n !in others
  {
  }

  lemma MoreRecords(pl: Place, pl': Place, others: set<HeapRecord>)
    requires forall n :: n in others ==> n != pl.hh && n !in pl.fs && n !in pl.cs
    requires pl'.fs == [pl.hh] + pl.fs && pl'.hh !in others && forall n :: n in pl'.cs ==> n in pl.cs || n !in others
    ensures forall n :: n in Records(pl') ==> n !in others
  {
  }

  lemma NewForms(hh: HeapRecord, v: Heap)
    requires v.forCC == [] && v.completedCC == [] && hh.subHeapForCC == null && hh.subHeapCompletedCC == null
    requires hh.id == v.id && hh.depth == v.depth && hh.chunkList == v.chunks && hh.ccstate == v.state
    ensures Forms(hh, [], [], v)
  {
  }

  /** A new place, of a record that was nowhere. */
  lemma PlaceAdd(ps: seq<Place>, heaps: seq<Heap>, pl: Place, v: Heap)
    requires AllDisjoint(ps) && OthersStand(ps, heaps, |ps|, |ps|) && Forms(pl.hh, pl.fs, pl.cs, v)
    requires forall n :: n in Records(pl) ==> n !in RecordsBut(ps, |ps|, |ps|)
    ensures AllDisjoint(ps + [pl]) && OthersStand(ps + [pl], heaps + [v], |ps| + 1, |ps| + 1)
  {
    hide Forms;
    var ps' := ps + [pl];
    forall k | 0 <= k < |ps| ensures Disjoint(ps[k], pl) && Disjoint(pl, ps[k]) {
      SetsApart(ps, |ps|, k, pl);
    }
    forall a, b | 0 <= a < |ps'| && 0 <= b < |ps'| && a != b ensures Disjoint(ps'[a], ps'[b]) {
      if a < |ps| && b < |ps| { assert Disjoint(ps[a], ps[b]); }
    }
    forall k | 0 <= k < |ps'| ensures Stands(ps'[k], (heaps + [v])[k]) {
      if k < |ps| { assert Stands(ps[k], heaps[k]); }
    }
  }

  lemma SubIs(pl: Place, v: Heap, k: nat)
    requires Forms(pl.hh, pl.fs, pl.cs, v) && k < |pl.fs|
    ensures k < |v.forCC| && v.forCC[k].state == pl.fs[k].ccstate && v.forCC[k].chunks == pl.fs[k].chunkList
    ensures pl.fs[k] in pl.fs
  {
    assert Outstanding(pl.fs[k]) == v.forCC[k];
  }

  lemma TwoPlacesAt(ps: seq<Place>, heaps: seq<Heap>, i: nat, j: nat)
    requires AllDisjoint(ps) && OthersStand(ps, heaps, |ps|, |ps|) && i < |ps| && j < |ps| && i != j
    ensures |ps| == |heaps| && OthersStand(ps, heaps, i, j)
    ensures Forms(ps[i].hh, ps[i].fs, ps[i].cs, heaps[i]) && Forms(ps[j].hh, ps[j].fs, ps[j].cs, heaps[j])
    ensures Apart(ps[i].hh, ps[i].fs, ps[i].cs, ps[j].hh, ps[j].fs, ps[j].cs)
    ensures forall n :: n in RecordsBut(ps, i, j) ==> n != ps[i].hh && n !in ps[i].fs && n !in ps[i].cs
    ensures forall n :: n in RecordsBut(ps, i, j) ==> n != ps[j].hh && n !in ps[j].fs && n !in ps[j].cs
  {
    hide Forms;
    PlaceAt(ps, heaps, i);
    PlaceAt(ps, heaps, j);
    assert Disjoint(ps[i], ps[j]);
    FewerBut(ps, i, j);
  }

  lemma FewerBut(ps: seq<Place>, i: nat, j: nat)
    ensures forall n :: n in RecordsBut(ps, i, j) ==> n in RecordsBut(ps, i, i)
    ensures forall n :: n in RecordsBut(ps, i, j) ==> n in RecordsBut(ps, j, j)
  {
  }

  /** All records are from these two places. */
  lemma UnitedRecords(a: Place, b: Place, pl: Place, others: set<HeapRecord>)
    requires forall n :: n in others ==> n != a.hh && n !in a.fs && n !in a.cs
    requires forall n :: n in others ==> n != b.hh && n !in b.fs && n !in b.cs
    requires pl.hh == a.hh || pl.hh == b.hh
    requires forall n :: n in pl.fs ==> n in a.fs || n in b.fs
    requires forall n :: n in pl.cs ==> n == a.hh || n in a.cs || n in b.fs || n in b.cs
    ensures forall n :: n in Records(pl) ==> n !in others
  {
  }

  lemma PlaceAbsorb(ps: seq<Place>, heaps: seq<Heap>, i: nat, j: nat, pl: Place, v: Heap)
    requires AllDisjoint(ps) && i < |ps| && j < |ps| && i != j && OthersStand(ps, heaps, i, j)
    requires Forms(pl.hh, pl.fs, pl.cs, v) && forall n :: n in Records(pl) ==> n !in RecordsBut(ps, i, j)
    ensures |ps| == |heaps|
    ensures var ps' := ps[i := pl][..j] + ps[i := pl][j + 1..];
      AllDisjoint(ps') && OthersStand(ps', Absorb(heaps, i, j, v), |ps'|, |ps'|)
  {
    hide Forms;
    var ps', heaps' := ps[i := pl][..j] + ps[i := pl][j + 1..], Absorb(heaps, i, j, v);
    forall k | 0 <= k < |ps| && k != i && k != j ensures Disjoint(ps[k], pl) && Disjoint(pl, ps[k]) {
      SetsApart2(ps, i, j, k, pl);
    }
    forall a, b | 0 <= a < |ps'| && 0 <= b < |ps'| && a != b ensures Disjoint(ps'[a], ps'[b]) {
      var a', b' := if a < j then a else a + 1, if b < j then b else b + 1;
      assert ps'[a] == ps[i := pl][a'] && ps'[b] == ps[i := pl][b'];
      if a' != i && b' != i { assert Disjoint(ps[a'], ps[b']); }
    }
    forall k | 0 <= k < |ps'| ensures Stands(ps'[k], heaps'[k]) {
      var k' := if k < j then k else k + 1;
      assert ps'[k] == ps[i := pl][k'] && heaps'[k] == heaps[i := v][k'];
      if k' != i { assert Stands(ps[k'], heaps[k']); }
    }
  }

  lemma SetsApart2(ps: seq<Place>, i: nat, j: nat, k: nat, pl: Place)
    requires k < |ps| && i != k && j != k && forall n :: n in Records(pl) ==> n !in RecordsBut(ps, i, j)
    ensures Disjoint(ps[k], pl) && Disjoint(pl, ps[k])
  {
    hide Records, RecordsBut;
    assert Records(ps[k]) <= RecordsBut(ps, i, j);
    assert forall n :: n in ps[k].fs ==> n in RecordsBut(ps, i, j);
    assert forall n :: n in ps[k].cs ==> n in RecordsBut(ps, i, j);
  }

  lemma ChainsAreOk(w: World, acts: seq<Action>)
    requires Run(acts) == Some(w)
    ensures forall i :: 0 <= i < |w.heaps| ==> ChainOk(w.heaps[i])
  {
    hide Run, ChainOk;
    RunKeepsWorld(acts);
    forall i | 0 <= i < |w.heaps| ensures ChainOk(w.heaps[i]) { HeapAt(w, i); }
  }

  // ----- what the actions are -----

  lemma NewHeapIs(w: World, depth: nat)
    ensures Enabled(w, NewHeap(depth))
    ensures var w' := DoIt(w, NewHeap(depth));
      && w'.heaps == w.heaps + [Heap(w.nextId, depth, [], Unregistered, [], [])]
      && w'.nextId == w.nextId + 1 && w'.nextChunk == w.nextChunk
  {
  }

  lemma AllocateIs(w: World, i: nat)
    requires i < |w.heaps|
    ensures Enabled(w, Allocate(i))
    ensures var w' := DoIt(w, Allocate(i));
      && w'.heaps == w.heaps[i := w.heaps[i].(chunks := w.heaps[i].chunks + [w.nextChunk])]
      && w'.nextId == w.nextId && w'.nextChunk == w.nextChunk + 1
  {
  }

  lemma SplitIs(w: World, i: nat)
    requires i < |w.heaps| && w.heaps[i].state.Registered?
    ensures Enabled(w, SplitForCC(i))
    ensures var w' := DoIt(w, SplitForCC(i));
      && w'.heaps == w.heaps[i := Split(w.heaps[i], w.nextId, w.nextId + 1, w.nextChunk)]
      && w'.nextId == w.nextId + (if w.heaps[i].completedCC == [] then 2 else 1) && w'.nextChunk == w.nextChunk + 1
  {
    hide Split;
  }

  lemma MergeIs(w: World, i: nat)
    requires i < |w.heaps|
    ensures Enabled(w, MergeDone(i))
    ensures var w' := DoIt(w, MergeDone(i));
      && w'.heaps == w.heaps[i := MergeCompleted(w.heaps[i])]
      && w'.nextId == w.nextId && w'.nextChunk == w.nextChunk
  {
    hide MergeCompleted;
  }

  lemma PromoteHeapIs(w: World, i: nat)
    requires i < |w.heaps| && w.heaps[i].depth > 0
    ensures Enabled(w, PromoteHeap(i))
    ensures var w' := DoIt(w, PromoteHeap(i));
      && w'.heaps == w.heaps[i := Promote(w.heaps[i])] && w'.nextId == w.nextId && w'.nextChunk == w.nextChunk
  {
    hide Promote;
  }

  lemma StartIs(w: World, i: nat, k: nat)
    requires i < |w.heaps| && k < |w.heaps[i].forCC| && w.heaps[i].forCC[k].state.Registered?
    ensures Enabled(w, StartCC(i, k))
    ensures var w', v := DoIt(w, StartCC(i, k)), w.heaps[i];
      && w'.heaps == w.heaps[i := SetSub(v, k, v.forCC[k].(state := Collecting))]
      && w'.nextId == w.nextId && w'.nextChunk == w.nextChunk
  {
    hide SetSub;
  }

  lemma FinishIs(w: World, i: nat, k: nat, kept: seq<nat>, garbage: seq<nat>)
    requires i < |w.heaps| && k < |w.heaps[i].forCC| && w.heaps[i].forCC[k].state.Collecting?
    requires multiset(w.heaps[i].forCC[k].chunks) == multiset(kept) + multiset(garbage)
    ensures Enabled(w, FinishCC(i, k, kept, garbage))
    ensures var w', v := DoIt(w, FinishCC(i, k, kept, garbage)), w.heaps[i];
      && w'.heaps == w.heaps[i := SetSub(v, k, v.forCC[k].(state := Done, chunks := kept))]
      && w'.nextId == w.nextId && w'.nextChunk == w.nextChunk
  {
    hide SetSub;
  }

  lemma PromoteHeapIntoIs(w: World, i: nat, j: nat)
    requires i < |w.heaps| && j < |w.heaps| && i != j && w.heaps[j].depth == w.heaps[i].depth + 1
    ensures Enabled(w, PromoteHeapInto(i, j))
    ensures var w' := DoIt(w, PromoteHeapInto(i, j));
      && w'.heaps == Absorb(w.heaps, i, j, PromoteInto(w.heaps[i], w.heaps[j]))
      && w'.nextId == w.nextId && w'.nextChunk == w.nextChunk
  {
    hide PromoteInto, Absorb;
  }

  lemma JoinLevelIs(w: World, i: nat, j: nat)
    requires i < |w.heaps| && j < |w.heaps| && i != j && w.heaps[j].depth == w.heaps[i].depth
    ensures Enabled(w, JoinLevel(i, j))
    ensures var w' := DoIt(w, JoinLevel(i, j));
      && w'.heaps == Absorb(w.heaps, i, j, Join(w.heaps[i], w.heaps[j]))
      && w'.nextId == w.nextId && w'.nextChunk == w.nextChunk
  {
    hide Join, Absorb;
  }

  lemma RegisterIs(w: World, i: nat)
    requires i < |w.heaps| && w.heaps[i].state.Unregistered?
    ensures Enabled(w, Register(i))
    ensures var w' := DoIt(w, Register(i));
      w'.heaps == w.heaps[i := w.heaps[i].(state := Registered)] && w'.nextId == w.nextId && w'.nextChunk == w.nextChunk
  {
  }
}
