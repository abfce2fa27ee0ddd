/**
 What other operations must not touch: the sub-heaps whose collection is
 outstanding, followed by record, chunks and state through whole runs.
 */
module CcPending {
  import opened CcChains

  /** A sub-heap as its collector sees it. */
  datatype Record = Record(id: nat, chunks: seq<nat>, state: CcState)

  function Is(x: Record, y: Record): nat { if x == y then 1 else 0 }

  /** One if the sub-heap is the one described and its collection is not done. */
  function Counts(s: SubHeap, x: Record): nat {
    if s.state.Done? then 0 else Is(Record(s.id, s.chunks, s.state), x)
  }

  /** How often there is such a sub-heap on a chain, or on any chain of outstanding
      collections. */
  function Pending(chain: seq<SubHeap>, x: Record): nat {
    if chain == [] then 0 else Counts(chain[0], x) + Pending(chain[1..], x)
  }

  function AllPending(heaps: seq<Heap>, x: Record): nat {
    if heaps == [] then 0 else Pending(heaps[0].forCC, x) + AllPending(heaps[1..], x)
  }

  predicate NoneDone(chain: seq<SubHeap>) { forall k :: 0 <= k < |chain| ==> !chain[k].state.Done? }

  // ----- chains -----

  lemma PendingCons(s: SubHeap, chain: seq<SubHeap>, x: Record)
    ensures Pending([s] + chain, x) == Counts(s, x) + Pending(chain, x)
  {
    assert ([s] + chain)[1..] == chain;
  }

  lemma {:induction false} PendingJoined(a: seq<SubHeap>, b: seq<SubHeap>, x: Record)
    ensures Pending(a + b, x) == Pending(a, x) + Pending(b, x)
  {
    if a == [] {
      assert a + b == b;
    } else {
      PendingJoined(a[1..], b, x);
      PendingCons(a[0], a[1..] + b, x);
      assert a + b == [a[0]] + (a[1..] + b);
    }
  }

  lemma {:induction false} PendingDepths(chain: seq<SubHeap>, depth: nat, x: Record)
    ensures Pending(SetDepths(chain, depth), x) == Pending(chain, x)
  {
    if chain == [] {
    } else {
      PendingDepths(chain[1..], depth, x);
      assert SetDepths(chain, depth)[1..] == SetDepths(chain[1..], depth);
    }
  }

  /** Sorting out keeps all that is pending, and only that. */
  lemma {:induction false} PendingSorted(chain: seq<SubHeap>, x: Record)
    ensures Pending(OutstandingOnes(chain), x) == Pending(chain, x) && NoneDone(OutstandingOnes(chain))
  {
    if chain == [] {
    } else {
      PendingSorted(chain[1..], x);
      PendingCons(chain[0], OutstandingOnes(chain[1..]), x);
    }
  }

  lemma {:induction false} PendingReplaced(chain: seq<SubHeap>, k: nat, s: SubHeap, x: Record)
    requires k < |chain|
    ensures Pending(chain[k := s], x) + Counts(chain[k], x) == Pending(chain, x) + Counts(s, x)
  {
    hide Counts;
    if k == 0 {
      assert chain[k := s][1..] == chain[1..];
    } else {
      PendingReplaced(chain[1..], k - 1, s, x);
      assert chain[k := s][1..] == chain[1..][k - 1 := s];
    }
  }

  // ----- single heaps -----

  /** Merging takes exactly the finished ones off the chain. */
  lemma MergePending(hh: Heap, x: Record)
    ensures Pending(MergeCompleted(hh).forCC, x) == Pending(hh.forCC, x) && NoneDone(MergeCompleted(hh).forCC)
  {
    hide Prepend, ChunksIn;
    PendingSorted(hh.forCC, x);
  }

  lemma LinkPending(hh1: Heap, hh2: Heap, x: Record)
    requires ChainOk(hh1) && ChainOk(hh2)
    ensures Pending(LinkChains(hh1, hh2).0.forCC, x) == Pending(hh1.forCC, x) + Pending(hh2.forCC, x)
  {
    hide Pending, LinkChains, IdBag, OutstandingChain, CompletedChain;
    LinkChainsIs(hh1, hh2);
    PendingDepths(hh2.forCC, hh1.depth, x);
    PendingJoined(SetDepths(hh2.forCC, hh1.depth), hh1.forCC, x);
  }

  lemma PromotePending(parent: Heap, hh: Heap, x: Record)
    requires ChainOk(parent) && ChainOk(hh) && hh.depth > 0
    ensures Pending(PromoteInto(parent, hh).forCC, x) == Pending(parent.forCC, x) + Pending(hh.forCC, x)
  {
    hide Pending, MergeCompleted, LinkChains, ChainOk;
    MergeCompletedKeeps(hh);
    MergePending(hh, x);
    LinkPending(parent, MergeCompleted(hh), x);
  }

  lemma SplitPending(hh: Heap, newId: nat, completedId: nat, chunk: nat, x: Record)
    ensures var r := Split(hh, newId, completedId, chunk);
      Pending(r.forCC, x)
        == Pending(hh.forCC, x) + if hh.state.Done? then 0 else Is(Record(hh.id, hh.chunks, hh.state), x)
  {
    var r := Split(hh, newId, completedId, chunk);
    PendingCons(r.forCC[0], hh.forCC, x);
  }

  lemma PromoteAlone(hh: Heap, x: Record)
    requires hh.depth > 0
    ensures Pending(Promote(hh).forCC, x) == Pending(hh.forCC, x)
  {
    PendingDepths(hh.forCC, hh.depth - 1, x);
  }

  lemma JoinPending(hh1: Heap, hh2: Heap, x: Record)
    requires ChainOk(hh1) && ChainOk(hh2)
    ensures Pending(Join(hh1, hh2).forCC, x) == Pending(hh1.forCC, x) + Pending(hh2.forCC, x)
  {
    hide Pending, LinkChains, ChainOk;
    LinkPending(hh1, hh2, x);
  }

  // ----- all heaps -----

  lemma {:induction false} AllReplaced(heaps: seq<Heap>, i: nat, hh: Heap, x: Record)
    requires i < |heaps|
    ensures AllPending(heaps[i := hh], x) + Pending(heaps[i].forCC, x) == AllPending(heaps, x) + Pending(hh.forCC, x)
  {
    hide Pending;
    if i == 0 {
      assert heaps[i := hh][1..] == heaps[1..];
    } else {
      AllReplaced(heaps[1..], i - 1, hh, x);
      assert heaps[i := hh][1..] == heaps[1..][i - 1 := hh];
    }
  }

  lemma {:induction false} AllRemoved(heaps: seq<Heap>, j: nat, x: Record)
    requires j < |heaps|
    ensures AllPending(heaps[..j] + heaps[j + 1..], x) + Pending(heaps[j].forCC, x) == AllPending(heaps, x)
  {
    hide Pending;
    if j == 0 {
      assert heaps[..j] + heaps[j + 1..] == heaps[1..];
    } else {
      AllRemoved(heaps[1..], j - 1, x);
      assert (heaps[..j] + heaps[j + 1..])[1..] == heaps[1..][..j - 1] + heaps[1..][j..];
    }
  }

  lemma {:induction false} AllAdded(heaps: seq<Heap>, hh: Heap, x: Record)
    ensures AllPending(heaps + [hh], x) == AllPending(heaps, x) + Pending(hh.forCC, x)
  {
    hide Pending;
    if heaps == [] {
      assert heaps + [hh] == [hh] && [hh][1..] == [];
    } else {
      AllAdded(heaps[1..], hh, x);
      assert (heaps + [hh])[1..] == heaps[1..] + [hh];
    }
  }

  lemma AllAbsorbed(heaps: seq<Heap>, i: nat, j: nat, hh: Heap, x: Record)
    requires i < |heaps| && j < |heaps| && i != j
    requires Pending(hh.forCC, x) == Pending(heaps[i].forCC, x) + Pending(heaps[j].forCC, x)
    ensures AllPending(Absorb(heaps, i, j, hh), x) == AllPending(heaps, x)
  {
    hide Pending, AllPending;
    AllReplaced(heaps, i, hh, x);
    AllRemoved(heaps[i := hh], j, x);
  }

  lemma CollectPending(heaps: seq<Heap>, i: nat, k: nat, s: SubHeap, x: Record)
    requires i < |heaps| && k < |heaps[i].forCC|
    ensures AllPending(heaps[i := SetSub(heaps[i], k, s)], x) + Counts(heaps[i].forCC[k], x)
         == AllPending(heaps, x) + Counts(s, x)
  {
    hide Pending, AllPending, Counts;
    PendingReplaced(heaps[i].forCC, k, s, x);
    AllReplaced(heaps, i, SetSub(heaps[i], k, s), x);
  }

  // ----- runs -----

  /** What is no longer there: a registered sub-heap when its collection starts, a
      collecting one when it finishes. */
  function Gone(w: World, a: Action, x: Record): nat
    requires Enabled(w, a)
  {
    if a.StartCC? || a.FinishCC? then
      var s := w.heaps[a.i].forCC[a.k];
      Is(Record(s.id, s.chunks, if a.StartCC? then Registered else Collecting), x)
    else 0
  }

  /** What is there now: the heap that a split takes off its level, and the sub-heap
      whose collection has started. */
  function Come(w: World, a: Action, x: Record): nat
    requires Enabled(w, a)
  {
    if a.SplitForCC? then Is(Record(w.heaps[a.i].id, w.heaps[a.i].chunks, Registered), x)
    else if a.StartCC? then
      var s := w.heaps[a.i].forCC[a.k];
      Is(Record(s.id, s.chunks, Collecting), x)
    else 0
  }

  /** In every run the outstanding sub-heaps are exactly those split off whose
      collection has not finished: a split adds the heap with its chunks, starting
      and finishing a collection change this one record, and no other operation
      takes a record away or changes its chunks or its state. */
  lemma OnlyCollectionsFinish(acts: seq<Action>, a: Action, x: Record)
    requires Run(acts).Some? && Enabled(Run(acts).value, a)
    ensures var w := Run(acts).value;
      AllPending(DoIt(w, a).heaps, x) + Gone(w, a, x) == AllPending(w.heaps, x) + Come(w, a, x)
  {
    hide Run, WorldOk, DoIt, AllPending;
    RunKeepsWorld(acts);
    StepPending(Run(acts).value, a, x);
  }

  lemma StepPending(w: World, a: Action, x: Record)
    requires WorldOk(w) && Enabled(w, a)
    ensures AllPending(DoIt(w, a).heaps, x) + Gone(w, a, x) == AllPending(w.heaps, x) + Come(w, a, x)
  {
    hide WorldOk, Is, Pending, AllPending, ChainOk, Split, MergeCompleted, Promote, PromoteInto, Join, Absorb, SetSub;
    var heaps, heaps' := w.heaps, DoIt(w, a).heaps;
    match a
    case NewHeap(_) =>
      AllAdded(heaps, heaps'[|heaps|], x);
      NonePending(x);
    case Allocate(i) => AllReplaced(heaps, i, heaps'[i], x);
    case Register(i) => AllReplaced(heaps, i, heaps'[i], x);
    case SplitForCC(i) =>
      SplitPending(heaps[i], w.nextId, w.nextId + 1, w.nextChunk, x);
      AllReplaced(heaps, i, heaps'[i], x);
    case StartCC(i, k) => CollectPending(heaps, i, k, heaps[i].forCC[k].(state := Collecting), x);
    case FinishCC(i, k, kept, _) => CollectPending(heaps, i, k, heaps[i].forCC[k].(state := Done, chunks := kept), x);
    case MergeDone(i) =>
      MergePending(heaps[i], x);
      AllReplaced(heaps, i, heaps'[i], x);
    case PromoteHeap(i) =>
      PromoteAlone(heaps[i], x);
      AllReplaced(heaps, i, heaps'[i], x);
    case PromoteHeapInto(i, j) =>
      HeapAt(w, i);
      HeapAt(w, j);
      PromotePending(heaps[i], heaps[j], x);
      AllAbsorbed(heaps, i, j, PromoteInto(heaps[i], heaps[j]), x);
    case JoinLevel(i, j) =>
      HeapAt(w, i);
      HeapAt(w, j);
      JoinPending(heaps[i], heaps[j], x);
      AllAbsorbed(heaps, i, j, Join(heaps[i], heaps[j]), x);
  }

  lemma NonePending(x: Record)
    ensures Pending([], x) == 0
  {
  }
}
