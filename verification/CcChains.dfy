/**
 Heaps under concurrent collection. A heap (the primary) keeps two chains of
 sub-heaps: those whose collection is outstanding, and those that are completed
 and wait until nothing is outstanding any more.
 */
module CcChains {
  import opened Options

  datatype CcState = Unregistered | Registered | Collecting | Done

  /** completed names the completed sub-heap that an outstanding one hangs on to. */
  datatype SubHeap = SubHeap(id: nat, depth: nat, chunks: seq<nat>, state: CcState, completed: Option<nat>)

  /** forCC and completedCC are the chains, nearest first. */
  datatype Heap = Heap(id: nat, depth: nat, chunks: seq<nat>, state: CcState, forCC: seq<SubHeap>,
                       completedCC: seq<SubHeap>)

  // ----- the operations -----

  function SetDepths(chain: seq<SubHeap>, depth: nat): (r: seq<SubHeap>)
    ensures |r| == |chain| && forall k :: 0 <= k < |r| ==> r[k] == chain[k].(depth := depth)
  {
    seq(|chain|, k requires 0 <= k < |chain| => chain[k].(depth := depth))
  }

  /** linkCCChains: the chains of hh2 go in front of those of hh1. */
  function LinkChains(hh1: Heap, hh2: Heap): (Heap, Heap) {
    var chain, done := SetDepths(hh2.forCC, hh1.depth), SetDepths(hh2.completedCC, hh1.depth);
    if hh1.forCC == [] then
      (hh1.(forCC := chain, completedCC := done), hh2.(forCC := [], completedCC := []))
    else if hh2.forCC == [] then
      (hh1, hh2.(completedCC := done))
    else
      (hh1.(forCC := chain + hh1.forCC, completedCC := done + hh1.completedCC), hh2.(forCC := [], completedCC := []))
  }

  function ChunksIn(chain: seq<SubHeap>): seq<nat> {
    if chain == [] then [] else chain[0].chunks + ChunksIn(chain[1..])
  }

  /** The collections that are done, in the order in which they are met. */
  function DoneOnes(chain: seq<SubHeap>): seq<SubHeap> {
    if chain == [] then []
    else if chain[0].state.Done? then [chain[0]] + DoneOnes(chain[1..])
    else DoneOnes(chain[1..])
  }

  function OutstandingOnes(chain: seq<SubHeap>): seq<SubHeap> {
    if chain == [] then []
    else if chain[0].state.Done? then OutstandingOnes(chain[1..])
    else [chain[0]] + OutstandingOnes(chain[1..])
  }

  /** Each of these is put in front of the completed chain in turn. */
  function Prepend(newer: seq<SubHeap>, completed: seq<SubHeap>): seq<SubHeap> {
    if newer == [] then completed
    else Prepend(newer[1..], [newer[0].(completed := None)] + completed)
  }

  /** mergeCompletedCCs: finished sub-heaps move to the completed chain; when
      nothing is outstanding, that chain is folded into the primary. */
  function MergeCompleted(hh: Heap): Heap {
    var outstanding := OutstandingOnes(hh.forCC);
    var completed := Prepend(DoneOnes(hh.forCC), hh.completedCC);
    if outstanding == [] then hh.(forCC := [], completedCC := [], chunks := hh.chunks + ChunksIn(completed))
    else hh.(forCC := outstanding, completedCC := completed)
  }

  /** splitHeapForCC: the heap becomes the first sub-heap of a new primary. */
  function Split(hh: Heap, newId: nat, completedId: nat, chunk: nat): Heap {
    var completed := if hh.completedCC == [] then [SubHeap(completedId, hh.depth, [], Done, None)] else hh.completedCC;
    Heap(newId, hh.depth, [chunk], Unregistered,
         [SubHeap(hh.id, hh.depth, hh.chunks, hh.state, Some(completed[0].id))] + hh.forCC, completed)
  }

  /** HM_HH_promoteChunks without a heap just above. */
  function Promote(hh: Heap): Heap
    requires hh.depth > 0
  {
    hh.(depth := hh.depth - 1, forCC := SetDepths(hh.forCC, hh.depth - 1),
        completedCC := SetDepths(hh.completedCC, hh.depth - 1))
  }

  /** HM_HH_promoteChunks into the heap just above: that heap takes the chunks,
      unless collections are outstanding below; then it becomes a completed
      sub-heap and the promoted heap the primary. */
  function PromoteInto(parent: Heap, hh: Heap): Heap
    requires hh.depth > 0
  {
    var merged := MergeCompleted(hh);
    if merged.forCC == [] then
      var linked := LinkChains(parent, merged).0;
      linked.(chunks := linked.chunks + merged.chunks)
    else
      var linked := LinkChains(parent, merged).0;
      merged.(depth := merged.depth - 1, forCC := linked.forCC,
              completedCC := [SubHeap(parent.id, parent.depth, parent.chunks, Done, None)] + linked.completedCC)
  }

  /** What zipping does to two heaps at one depth. */
  function Join(hh1: Heap, hh2: Heap): Heap {
    var linked := LinkChains(hh1, hh2).0;
    linked.(chunks := linked.chunks + hh2.chunks)
  }

  // ----- what a heap stands for -----

  function IdBag(chain: seq<SubHeap>): multiset<nat> {
    if chain == [] then multiset{} else multiset{chain[0].id} + IdBag(chain[1..])
  }

  function ChunkBag(chain: seq<SubHeap>): multiset<nat> {
    if chain == [] then multiset{} else multiset(chain[0].chunks) + ChunkBag(chain[1..])
  }

  /** Every heap record, and every chunk. */
  function AllIds(hh: Heap): multiset<nat> {
    multiset{hh.id} + IdBag(hh.forCC) + IdBag(hh.completedCC)
  }

  function AllChunks(hh: Heap): multiset<nat> {
    multiset(hh.chunks) + ChunkBag(hh.forCC) + ChunkBag(hh.completedCC)
  }

  /** assertCCChainInvariants for one outstanding and one completed sub-heap. */
  predicate OutstandingOk(s: SubHeap, depth: nat, completed: multiset<nat>) {
    s.depth == depth && !s.state.Unregistered? && s.completed.Some? && s.completed.value in completed
  }

  predicate CompletedOk(s: SubHeap, depth: nat) { s.depth == depth && s.state.Done? }

  predicate OutstandingChain(chain: seq<SubHeap>, depth: nat, completed: multiset<nat>) {
    forall k :: 0 <= k < |chain| ==> OutstandingOk(chain[k], depth, completed)
  }

  predicate CompletedChain(chain: seq<SubHeap>, depth: nat) {
    forall k :: 0 <= k < |chain| ==> CompletedOk(chain[k], depth)
  }

  /** Both chains are there or neither. */
  predicate ChainOk(hh: Heap) {
    && (hh.forCC == [] <==> hh.completedCC == [])
    && OutstandingChain(hh.forCC, hh.depth, IdBag(hh.completedCC))
    && CompletedChain(hh.completedCC, hh.depth)
  }

  // ----- lemmas on chains -----

  lemma Cons(s: SubHeap, chain: seq<SubHeap>)
    ensures IdBag([s] + chain) == multiset{s.id} + IdBag(chain)
    ensures ChunkBag([s] + chain) == multiset(s.chunks) + ChunkBag(chain)
  {
    assert ([s] + chain)[1..] == chain;
  }

  lemma FirstAndRest(chain: seq<SubHeap>)
    requires chain != []
    ensures chain == [chain[0]] + chain[1..]
  {
  }

  lemma {:induction false} Joined(a: seq<SubHeap>, b: seq<SubHeap>)
    ensures IdBag(a + b) == IdBag(a) + IdBag(b) && ChunkBag(a + b) == ChunkBag(a) + ChunkBag(b)
  {
    hide IdBag, ChunkBag;
    if a == [] {
      assert a + b == b;
      Nothing();
    } else {
      Joined(a[1..], b);
      FirstAndRest(a);
      Cons(a[0], a[1..]);
      Cons(a[0], a[1..] + b);
      assert a + b == [a[0]] + (a[1..] + b);
    }
  }

  lemma {:induction false} ChunksAreBag(chain: seq<SubHeap>)
    ensures multiset(ChunksIn(chain)) == ChunkBag(chain)
  {
    if chain == [] {
    } else {
      ChunksAreBag(chain[1..]);
    }
  }

  lemma {:induction false} DepthsKeep(chain: seq<SubHeap>, depth: nat)
    ensures IdBag(SetDepths(chain, depth)) == IdBag(chain) && ChunkBag(SetDepths(chain, depth)) == ChunkBag(chain)
  {
    if chain == [] {
    } else {
      DepthsKeep(chain[1..], depth);
      assert SetDepths(chain, depth)[1..] == SetDepths(chain[1..], depth);
    }
  }

  /** A chain is its finished and its outstanding sub-heaps. */
  lemma {:induction false} Sorted(chain: seq<SubHeap>)
    ensures IdBag(chain) == IdBag(DoneOnes(chain)) + IdBag(OutstandingOnes(chain))
    ensures ChunkBag(chain) == ChunkBag(DoneOnes(chain)) + ChunkBag(OutstandingOnes(chain))
  {
    hide IdBag, ChunkBag;
    if chain == [] {
      assert IdBag([]) == multiset{} && ChunkBag([]) == multiset{} by { Nothing(); }
    } else {
      Sorted(chain[1..]);
      FirstAndRest(chain);
      Cons(chain[0], chain[1..]);
      Cons(chain[0], DoneOnes(chain[1..]));
      Cons(chain[0], OutstandingOnes(chain[1..]));
    }
  }

  lemma Nothing()
    ensures IdBag([]) == multiset{} && ChunkBag([]) == multiset{}
  {
  }

  lemma {:induction false} SortedOk(chain: seq<SubHeap>, depth: nat, completed: multiset<nat>,
                                    completed': multiset<nat>)
    requires OutstandingChain(chain, depth, completed) && completed <= completed'
    ensures OutstandingChain(OutstandingOnes(chain), depth, completed') && CompletedChain(DoneOnes(chain), depth)
  {
    if chain == [] {
    } else {
      assert OutstandingOk(chain[0], depth, completed);
      assert OutstandingChain(chain[1..], depth, completed);
      SortedOk(chain[1..], depth, completed, completed');
    }
  }

  lemma {:induction false} AllDone(chain: seq<SubHeap>)
    ensures OutstandingOnes(chain) == [] <==> forall k :: 0 <= k < |chain| ==> chain[k].state.Done?
  {
    if chain == [] {
    } else {
      AllDone(chain[1..]);
      assert chain == [chain[0]] + chain[1..];
    }
  }

  lemma {:induction false} Prepended(newer: seq<SubHeap>, completed: seq<SubHeap>, depth: nat)
    requires CompletedChain(newer, depth) && CompletedChain(completed, depth)
    ensures var r := Prepend(newer, completed);
      && IdBag(r) == IdBag(newer) + IdBag(completed) && ChunkBag(r) == ChunkBag(newer) + ChunkBag(completed)
      && CompletedChain(r, depth) && |r| == |newer| + |completed|
    decreases |newer|
  {
    hide IdBag, ChunkBag;
    if newer == [] {
      Nothing();
    } else {
      var s := newer[0].(completed := None);
      assert CompletedOk(newer[0], depth);
      assert CompletedChain([s] + completed, depth);
      Prepended(newer[1..], [s] + completed, depth);
      FirstAndRest(newer);
      Cons(newer[0], newer[1..]);
      Cons(s, completed);
    }
  }

  // ----- every operation keeps the chains -----

  /** What folding leaves behind: records that from now on are dependants. */
  function Folded(hh: Heap): multiset<nat> {
    if OutstandingOnes(hh.forCC) == [] then IdBag(hh.forCC) + IdBag(hh.completedCC) else multiset{}
  }

  /** No chunk is lost or doubled, and when nothing is outstanding any more both
      chains have been folded into the primary. */
  lemma MergeCompletedKeeps(hh: Heap)
    requires ChainOk(hh)
    ensures ChainOk(MergeCompleted(hh))
    ensures AllChunks(MergeCompleted(hh)) == AllChunks(hh)
    ensures AllIds(MergeCompleted(hh)) + Folded(hh) == AllIds(hh)
    ensures (forall k :: 0 <= k < |hh.forCC| ==> hh.forCC[k].state.Done?) <==> MergeCompleted(hh).forCC == []
    ensures MergeCompleted(hh).forCC == [] ==> MergeCompleted(hh).completedCC == []
    ensures MergeCompleted(hh).forCC != [] ==> MergeCompleted(hh).chunks == hh.chunks
    ensures MergeCompleted(hh).id == hh.id && MergeCompleted(hh).depth == hh.depth
    ensures MergeCompleted(hh).state == hh.state
  {
    hide IdBag, ChunkBag, OutstandingOk, CompletedOk;
    MergedChains(hh);
    MergedBags(hh);
    AllDone(hh.forCC);
  }

  lemma MergedChains(hh: Heap)
    requires ChainOk(hh)
    ensures var completed := Prepend(DoneOnes(hh.forCC), hh.completedCC);
      && ChainOk(MergeCompleted(hh))
      && IdBag(completed) == IdBag(DoneOnes(hh.forCC)) + IdBag(hh.completedCC)
      && ChunkBag(completed) == ChunkBag(DoneOnes(hh.forCC)) + ChunkBag(hh.completedCC)
  {
    hide IdBag, ChunkBag, OutstandingOk, CompletedOk;
    SortedOk(hh.forCC, hh.depth, IdBag(hh.completedCC), IdBag(hh.completedCC));
    Prepended(DoneOnes(hh.forCC), hh.completedCC, hh.depth);
    SortedOk(hh.forCC, hh.depth, IdBag(hh.completedCC), IdBag(Prepend(DoneOnes(hh.forCC), hh.completedCC)));
    AllDone(hh.forCC);
    Nothing();
  }

  /** What is kept when the parts of one sum are sorted differently. */
  lemma SameSum<T>(own: multiset<T>, a: multiset<T>, b: multiset<T>, c: multiset<T>, d: multiset<T>)
    requires a + b == c + d
    ensures own + a + b == own + c + d == own + d + c
  {
    assert own + a + b == own + (a + b);
    assert own + c + d == own + (c + d);
  }

  lemma MergedBags(hh: Heap)
    requires ChainOk(hh)
    ensures AllChunks(MergeCompleted(hh)) == AllChunks(hh) && AllIds(MergeCompleted(hh)) + Folded(hh) == AllIds(hh)
  {
    hide IdBag, ChunkBag, OutstandingChain, CompletedChain, ChunksIn, Prepend, DoneOnes, OutstandingOnes;
    var completed, outstanding := Prepend(DoneOnes(hh.forCC), hh.completedCC), OutstandingOnes(hh.forCC);
    MergedChains(hh);
    Sorted(hh.forCC);
    SameSum(multiset(hh.chunks), ChunkBag(hh.forCC), ChunkBag(hh.completedCC), ChunkBag(outstanding),
            ChunkBag(completed));
    if outstanding == [] {
      Nothing();
      ChunksAreBag(completed);
    } else {
      SameSum(multiset{hh.id}, IdBag(hh.forCC), IdBag(hh.completedCC), IdBag(outstanding), IdBag(completed));
    }
  }

  /** What LinkChains is when each heap has both chains or neither. */
  lemma LinkChainsIs(v1: Heap, v2: Heap)
    requires (v1.forCC == [] <==> v1.completedCC == []) && (v2.forCC == [] <==> v2.completedCC == [])
    ensures LinkChains(v1, v2).0 == v1.(forCC := SetDepths(v2.forCC, v1.depth) + v1.forCC,
                                        completedCC := SetDepths(v2.completedCC, v1.depth) + v1.completedCC)
    ensures LinkChains(v1, v2).1 == v2.(forCC := [], completedCC := [])
  {
    if v1.forCC == [] {
      assert SetDepths(v2.forCC, v1.depth) + v1.forCC == SetDepths(v2.forCC, v1.depth);
      assert SetDepths(v2.completedCC, v1.depth) + v1.completedCC == SetDepths(v2.completedCC, v1.depth);
    } else if v2.forCC == [] {
      assert SetDepths(v2.forCC, v1.depth) + v1.forCC == v1.forCC;
      assert SetDepths(v2.completedCC, v1.depth) + v1.completedCC == v1.completedCC;
      assert SetDepths(v2.completedCC, v1.depth) == [];
    }
  }

  lemma LinkKeeps(hh1: Heap, hh2: Heap)
    requires ChainOk(hh1) && ChainOk(hh2)
    ensures var (r1, r2) := LinkChains(hh1, hh2);
      && ChainOk(r1) && r2.forCC == [] && r2.completedCC == []
      && r1 == hh1.(forCC := r1.forCC, completedCC := r1.completedCC)
      && IdBag(r1.forCC) == IdBag(hh1.forCC) + IdBag(hh2.forCC)
      && IdBag(r1.completedCC) == IdBag(hh1.completedCC) + IdBag(hh2.completedCC)
      && ChunkBag(r1.forCC) == ChunkBag(hh1.forCC) + ChunkBag(hh2.forCC)
      && ChunkBag(r1.completedCC) == ChunkBag(hh1.completedCC) + ChunkBag(hh2.completedCC)
  {
    hide IdBag, ChunkBag, LinkChains, SetDepths, OutstandingChain, CompletedChain;
    var chain, done := SetDepths(hh2.forCC, hh1.depth), SetDepths(hh2.completedCC, hh1.depth);
    LinkChainsIs(hh1, hh2);
    DepthsKeep(hh2.forCC, hh1.depth);
    DepthsKeep(hh2.completedCC, hh1.depth);
    Joined(chain, hh1.forCC);
    Joined(done, hh1.completedCC);
    assert IdBag(done + hh1.completedCC) == IdBag(hh1.completedCC) + IdBag(hh2.completedCC);
    JoinedOk(hh1, hh2);
  }

  lemma JoinedOk(hh1: Heap, hh2: Heap)
    requires ChainOk(hh1) && ChainOk(hh2)
    ensures var chain, done := SetDepths(hh2.forCC, hh1.depth), SetDepths(hh2.completedCC, hh1.depth);
      && (chain + hh1.forCC == [] <==> done + hh1.completedCC == [])
      && OutstandingChain(chain + hh1.forCC, hh1.depth, IdBag(hh1.completedCC) + IdBag(hh2.completedCC))
      && CompletedChain(done + hh1.completedCC, hh1.depth)
  {
    hide IdBag;
    assert forall k :: 0 <= k < |hh2.forCC| ==> OutstandingOk(hh2.forCC[k], hh2.depth, IdBag(hh2.completedCC));
    assert forall k :: 0 <= k < |hh1.forCC| ==> OutstandingOk(hh1.forCC[k], hh1.depth, IdBag(hh1.completedCC));
    assert forall k :: 0 <= k < |hh2.completedCC| ==> CompletedOk(hh2.completedCC[k], hh2.depth);
  }

  lemma JoinKeeps(hh1: Heap, hh2: Heap)
    requires ChainOk(hh1) && ChainOk(hh2)
    ensures ChainOk(Join(hh1, hh2)) && Join(hh1, hh2).depth == hh1.depth
    ensures AllChunks(Join(hh1, hh2)) == AllChunks(hh1) + AllChunks(hh2)
    ensures AllIds(Join(hh1, hh2)) + multiset{hh2.id} == AllIds(hh1) + AllIds(hh2)
    ensures Join(hh1, hh2).id == hh1.id && Join(hh1, hh2).state == hh1.state
    ensures Join(hh1, hh2).chunks == hh1.chunks + hh2.chunks
  {
    hide IdBag, ChunkBag, LinkChains, OutstandingChain, CompletedChain;
    LinkKeeps(hh1, hh2);
  }

  lemma SplitKeeps(hh: Heap, newId: nat, completedId: nat, chunk: nat)
    requires ChainOk(hh) && !hh.state.Unregistered?
    ensures var r := Split(hh, newId, completedId, chunk);
      && ChainOk(r) && r.depth == hh.depth
      && AllChunks(r) == AllChunks(hh) + multiset{chunk}
      && AllIds(r) == AllIds(hh) + multiset{newId}
                      + (if hh.completedCC == [] then multiset{completedId} else multiset{})
      && r.id == newId && r.state.Unregistered? && r.chunks == [chunk]
      && |r.forCC| == |hh.forCC| + 1 && r.forCC[0].id == hh.id && r.forCC[0].chunks == hh.chunks
      && r.forCC[0].state == hh.state
  {
    hide IdBag, ChunkBag;
    var r := Split(hh, newId, completedId, chunk);
    Nothing();
    Cons(r.forCC[0], hh.forCC);
    FirstAndRest(r.completedCC);
    Cons(r.completedCC[0], r.completedCC[1..]);
    assert forall k :: 0 <= k < |hh.forCC| ==> OutstandingOk(hh.forCC[k], hh.depth, IdBag(hh.completedCC));
    assert forall k :: 0 <= k < |hh.completedCC| ==> CompletedOk(hh.completedCC[k], hh.depth);
  }

  lemma PromoteKeeps(hh: Heap)
    requires ChainOk(hh) && hh.depth > 0
    ensures ChainOk(Promote(hh)) && AllChunks(Promote(hh)) == AllChunks(hh) && AllIds(Promote(hh)) == AllIds(hh)
  {
    hide IdBag, ChunkBag;
    DepthsKeep(hh.forCC, hh.depth - 1);
    DepthsKeep(hh.completedCC, hh.depth - 1);
    assert forall k :: 0 <= k < |hh.forCC| ==> OutstandingOk(hh.forCC[k], hh.depth, IdBag(hh.completedCC));
    assert forall k :: 0 <= k < |hh.completedCC| ==> CompletedOk(hh.completedCC[k], hh.depth);
  }

  /** What becomes of the records when hh is promoted into parent. */
  function Retired(parent: Heap, hh: Heap): multiset<nat> {
    Folded(hh) + (if MergeCompleted(hh).forCC == [] then multiset{hh.id} else multiset{})
  }

  /** Into a parent whose heap below has nothing outstanding. */
  lemma PromoteFolds(parent: Heap, merged: Heap)
    requires ChainOk(parent) && ChainOk(merged) && merged.forCC == []
    ensures var linked := LinkChains(parent, merged).0;
      var r := linked.(chunks := linked.chunks + merged.chunks);
      && ChainOk(r) && r.depth == parent.depth
      && AllChunks(r) == AllChunks(parent) + AllChunks(merged)
      && AllIds(r) + multiset{merged.id} == AllIds(parent) + AllIds(merged)
  {
    hide IdBag, ChunkBag, LinkChains, OutstandingChain, CompletedChain;
    LinkKeeps(parent, merged);
  }

  /** The parent becomes a completed sub-heap of the heap below. */
  lemma PromoteLinks(parent: Heap, merged: Heap)
    requires ChainOk(parent) && ChainOk(merged) && merged.forCC != [] && merged.depth == parent.depth + 1
    ensures var linked := LinkChains(parent, merged).0;
      var r := merged.(depth := merged.depth - 1, forCC := linked.forCC,
        completedCC := [SubHeap(parent.id, parent.depth, parent.chunks, Done, None)] + linked.completedCC);
      && ChainOk(r)
      && AllChunks(r) == AllChunks(parent) + AllChunks(merged)
      && AllIds(r) == AllIds(parent) + AllIds(merged)
  {
    hide IdBag, ChunkBag, LinkChains, OutstandingOk;
    LinkKeeps(parent, merged);
    var linked := LinkChains(parent, merged).0;
    Cons(SubHeap(parent.id, parent.depth, parent.chunks, Done, None), linked.completedCC);
    NotEmpty(merged.forCC, linked.forCC, parent.forCC);
    MoreCompleted(linked.forCC, linked.depth, IdBag(linked.completedCC),
        multiset{parent.id} + IdBag(linked.completedCC));
  }

  lemma MoreCompleted(chain: seq<SubHeap>, depth: nat, completed: multiset<nat>, completed': multiset<nat>)
    requires OutstandingChain(chain, depth, completed) && completed <= completed'
    ensures OutstandingChain(chain, depth, completed')
  {
    forall k | 0 <= k < |chain| ensures OutstandingOk(chain[k], depth, completed') {
      assert OutstandingOk(chain[k], depth, completed);
    }
  }

  lemma PromoteIntoKeeps(parent: Heap, hh: Heap)
    requires ChainOk(parent) && ChainOk(hh) && hh.depth > 0 && parent.depth == hh.depth - 1
    ensures var r := PromoteInto(parent, hh);
      && ChainOk(r) && r.depth == hh.depth - 1
      && AllChunks(r) == AllChunks(parent) + AllChunks(hh)
      && AllIds(r) + Retired(parent, hh) == AllIds(parent) + AllIds(hh)
  {
    hide AllIds, AllChunks, ChainOk, MergeCompleted, LinkChains, Folded;
    MergeCompletedKeeps(hh);
    MergeKeepsDepth(hh);
    if MergeCompleted(hh).forCC == [] {
      PromoteFolds(parent, MergeCompleted(hh));
      var r := AllIds(PromoteInto(parent, hh));
      assert r + Retired(parent, hh) == (r + multiset{hh.id}) + Folded(hh);
      assert (AllIds(parent) + AllIds(MergeCompleted(hh))) + Folded(hh) ==
          AllIds(parent) + (AllIds(MergeCompleted(hh)) + Folded(hh));
    } else {
      PromoteLinks(parent, MergeCompleted(hh));
    }
  }

  lemma NotEmpty(a: seq<SubHeap>, linked: seq<SubHeap>, b: seq<SubHeap>)
    requires IdBag(linked) == IdBag(b) + IdBag(a)
    ensures a != [] ==> linked != []
  {
  }

  lemma MergeKeepsDepth(hh: Heap)
    ensures MergeCompleted(hh).depth == hh.depth && MergeCompleted(hh).id == hh.id
  {
  }

  // ----- runs -----

  /** All primaries there are, the records that have become dependants, and the
      chunks that collections have freed. */
  datatype World = World(heaps: seq<Heap>, nextId: nat, nextChunk: nat, retired: multiset<nat>, freed: multiset<nat>)

  datatype Action =
    | NewHeap(depth: nat)
    | Allocate(i: nat)
    | Register(i: nat)
    | SplitForCC(i: nat)
    | StartCC(i: nat, k: nat)
    | FinishCC(i: nat, k: nat, kept: seq<nat>, garbage: seq<nat>)
    | MergeDone(i: nat)
    | PromoteHeap(i: nat)
    | PromoteHeapInto(i: nat, j: nat)
    | JoinLevel(i: nat, j: nat)

  predicate Enabled(w: World, a: Action) {
    match a
    case NewHeap(_) => true
    case Allocate(i) => i < |w.heaps|
    case Register(i) => i < |w.heaps| && w.heaps[i].state.Unregistered?
    case SplitForCC(i) => i < |w.heaps| && w.heaps[i].state.Registered?
    case StartCC(i, k) => i < |w.heaps| && k < |w.heaps[i].forCC| && w.heaps[i].forCC[k].state.Registered?
    case FinishCC(i, k, kept, garbage) =>
      && i < |w.heaps| && k < |w.heaps[i].forCC| && w.heaps[i].forCC[k].state.Collecting?
      && multiset(w.heaps[i].forCC[k].chunks) == multiset(kept) + multiset(garbage)
    case MergeDone(i) => i < |w.heaps|
    case PromoteHeap(i) => i < |w.heaps| && w.heaps[i].depth > 0
    case PromoteHeapInto(i, j) =>
      i < |w.heaps| && j < |w.heaps| && i != j && w.heaps[j].depth == w.heaps[i].depth + 1
    case JoinLevel(i, j) => i < |w.heaps| && j < |w.heaps| && i != j && w.heaps[i].depth == w.heaps[j].depth
  }

  function SetSub(hh: Heap, k: nat, s: SubHeap): Heap
    requires k < |hh.forCC|
  {
    hh.(forCC := hh.forCC[k := s])
  }

  /** Heap j is absorbed into what heap i becomes. */
  function Absorb(heaps: seq<Heap>, i: nat, j: nat, hh: Heap): seq<Heap>
    requires i < |heaps| && j < |heaps|
  {
    heaps[i := hh][..j] + heaps[i := hh][j + 1..]
  }

  function DoIt(w: World, a: Action): World
    requires Enabled(w, a)
  {
    match a
    case NewHeap(depth) =>
      w.(heaps := w.heaps + [Heap(w.nextId, depth, [], Unregistered, [], [])], nextId := w.nextId + 1)
    case Allocate(i) =>
      w.(heaps := w.heaps[i := w.heaps[i].(chunks := w.heaps[i].chunks + [w.nextChunk])], nextChunk := w.nextChunk + 1)
    case Register(i) => w.(heaps := w.heaps[i := w.heaps[i].(state := Registered)])
    case SplitForCC(i) =>
      var hh := w.heaps[i];
      w.(heaps := w.heaps[i := Split(hh, w.nextId, w.nextId + 1, w.nextChunk)],
         nextId := w.nextId + (if hh.completedCC == [] then 2 else 1), nextChunk := w.nextChunk + 1)
    case StartCC(i, k) =>
      w.(heaps := w.heaps[i := SetSub(w.heaps[i], k, w.heaps[i].forCC[k].(state := Collecting))])
    case FinishCC(i, k, kept, garbage) =>
      w.(heaps := w.heaps[i := SetSub(w.heaps[i], k, w.heaps[i].forCC[k].(state := Done, chunks := kept))],
         freed := w.freed + multiset(garbage))
    case MergeDone(i) =>
      w.(heaps := w.heaps[i := MergeCompleted(w.heaps[i])], retired := w.retired + Folded(w.heaps[i]))
    case PromoteHeap(i) => w.(heaps := w.heaps[i := Promote(w.heaps[i])])
    case PromoteHeapInto(i, j) =>
      w.(heaps := Absorb(w.heaps, i, j, PromoteInto(w.heaps[i], w.heaps[j])),
         retired := w.retired + Retired(w.heaps[i], w.heaps[j]))
    case JoinLevel(i, j) =>
      w.(heaps := Absorb(w.heaps, i, j, Join(w.heaps[i], w.heaps[j])), retired := w.retired + multiset{w.heaps[j].id})
  }

  function Run(acts: seq<Action>): Option<World>
    decreases |acts|
  {
    if acts == [] then Some(World([], 0, 0, multiset{}, multiset{}))
    else
      match Run(acts[..|acts| - 1])
      case None => None
      case Some(w) => if Enabled(w, acts[|acts| - 1]) then Some(DoIt(w, acts[|acts| - 1])) else None
  }

  /** How many times record x, or chunk x, occurs among the primaries. */
  function IdCount(heaps: seq<Heap>, x: nat): nat {
    if heaps == [] then 0 else AllIds(heaps[0])[x] + IdCount(heaps[1..], x)
  }

  function ChunkCount(heaps: seq<Heap>, x: nat): nat {
    if heaps == [] then 0 else AllChunks(heaps[0])[x] + ChunkCount(heaps[1..], x)
  }

  /** Every record is a primary, on one chain once, or retired; every chunk is in
      one list once, or freed. */
  ghost predicate WorldOk(w: World) {
    && (forall i :: 0 <= i < |w.heaps| ==> ChainOk(w.heaps[i]))
    && (forall x: nat :: IdCount(w.heaps, x) + w.retired[x] == if x < w.nextId then 1 else 0)
    && (forall x: nat :: ChunkCount(w.heaps, x) + w.freed[x] == if x < w.nextChunk then 1 else 0)
  }

  lemma {:induction false} Replaced(heaps: seq<Heap>, i: nat, hh: Heap, x: nat)
    requires i < |heaps|
    ensures IdCount(heaps[i := hh], x) + AllIds(heaps[i])[x] == IdCount(heaps, x) + AllIds(hh)[x]
    ensures ChunkCount(heaps[i := hh], x) + AllChunks(heaps[i])[x] == ChunkCount(heaps, x) + AllChunks(hh)[x]
  {
    hide AllIds, AllChunks;
    if i == 0 {
      assert heaps[i := hh][1..] == heaps[1..];
    } else {
      Replaced(heaps[1..], i - 1, hh, x);
      assert heaps[i := hh][1..] == heaps[1..][i - 1 := hh];
    }
  }

  lemma {:induction false} Removed(heaps: seq<Heap>, j: nat, x: nat)
    requires j < |heaps|
    ensures IdCount(heaps[..j] + heaps[j + 1..], x) + AllIds(heaps[j])[x] == IdCount(heaps, x)
    ensures ChunkCount(heaps[..j] + heaps[j + 1..], x) + AllChunks(heaps[j])[x] == ChunkCount(heaps, x)
  {
    hide AllIds, AllChunks;
    if j == 0 {
      assert heaps[..j] + heaps[j + 1..] == heaps[1..];
    } else {
      Removed(heaps[1..], j - 1, x);
      assert (heaps[..j] + heaps[j + 1..])[1..] == heaps[1..][..j - 1] + heaps[1..][j..];
    }
  }

  lemma {:induction false} Added(heaps: seq<Heap>, hh: Heap, x: nat)
    ensures IdCount(heaps + [hh], x) == IdCount(heaps, x) + AllIds(hh)[x]
    ensures ChunkCount(heaps + [hh], x) == ChunkCount(heaps, x) + AllChunks(hh)[x]
  {
    hide AllIds, AllChunks;
    if heaps != [] {
      Added(heaps[1..], hh, x);
      assert (heaps + [hh])[1..] == heaps[1..] + [hh];
    } else {
      assert heaps + [hh] == [hh] && [hh][1..] == [];
    }
  }

  lemma SubSet(hh: Heap, k: nat, s: SubHeap)
    requires ChainOk(hh) && k < |hh.forCC| && s.id == hh.forCC[k].id && s.depth == hh.forCC[k].depth
    requires s.completed == hh.forCC[k].completed && !s.state.Unregistered?
    ensures ChainOk(SetSub(hh, k, s)) && AllIds(SetSub(hh, k, s)) == AllIds(hh)
    ensures forall x ::
              AllChunks(SetSub(hh, k, s))[x] + multiset(hh.forCC[k].chunks)[x] ==
              AllChunks(hh)[x] + multiset(s.chunks)[x]
  {
    hide IdBag, ChunkBag;
    forall x: nat
      ensures IdBag(hh.forCC[k := s])[x] == IdBag(hh.forCC)[x]
      ensures ChunkBag(hh.forCC[k := s])[x] + multiset(hh.forCC[k].chunks)[x] ==
              ChunkBag(hh.forCC)[x] + multiset(s.chunks)[x]
    {
      SubReplaced(hh.forCC, k, s, x);
    }
    assert IdBag(hh.forCC[k := s]) == IdBag(hh.forCC);
    assert forall m :: 0 <= m < |hh.forCC| ==> OutstandingOk(hh.forCC[m], hh.depth, IdBag(hh.completedCC));
  }

  lemma {:induction false} SubReplaced(chain: seq<SubHeap>, k: nat, s: SubHeap, x: nat)
    requires k < |chain| && s.id == chain[k].id
    ensures IdBag(chain[k := s])[x] == IdBag(chain)[x]
    ensures ChunkBag(chain[k := s])[x] + multiset(chain[k].chunks)[x] == ChunkBag(chain)[x] + multiset(s.chunks)[x]
  {
    hide IdBag, ChunkBag;
    var tail := chain[1..];
    FirstAndRest(chain);
    Cons(chain[0], tail);
    if k == 0 {
      assert chain[k := s] == [s] + tail;
      Cons(s, tail);
    } else {
      SubReplaced(tail, k - 1, s, x);
      assert chain[k := s] == [chain[0]] + tail[k - 1 := s];
      Cons(chain[0], tail[k - 1 := s]);
    }
  }

  // Each kind of action, for the heaps and for both counts:

  /** One if x is new. */
  function New(n: nat, n': nat, x: nat): nat { if n <= x < n' then 1 else 0 }

  lemma OneHeapChanges(w: World, i: nat, hh: Heap, w': World)
    requires WorldOk(w) && i < |w.heaps| && w'.heaps == w.heaps[i := hh] && ChainOk(hh)
    requires w.nextId <= w'.nextId && w.nextChunk <= w'.nextChunk
    requires forall x: nat ::
               AllIds(hh)[x] + w'.retired[x] == AllIds(w.heaps[i])[x] + w.retired[x] + New(w.nextId, w'.nextId, x)
    requires forall x: nat ::
               AllChunks(hh)[x] + w'.freed[x] ==
               AllChunks(w.heaps[i])[x] + w.freed[x] + New(w.nextChunk, w'.nextChunk, x)
    ensures WorldOk(w')
  {
    hide AllIds, AllChunks, IdCount, ChunkCount, ChainOk;
    forall x: nat
      ensures IdCount(w'.heaps, x) + w'.retired[x] == if x < w'.nextId then 1 else 0
      ensures ChunkCount(w'.heaps, x) + w'.freed[x] == if x < w'.nextChunk then 1 else 0
    {
      Replaced(w.heaps, i, hh, x);
    }
  }

  lemma TwoHeapsBecomeOne(w: World, i: nat, j: nat, hh: Heap, w': World)
    requires WorldOk(w) && i < |w.heaps| && j < |w.heaps| && i != j && w'.heaps == Absorb(w.heaps, i, j, hh)
             && ChainOk(hh)
    requires w'.freed == w.freed && w'.nextId == w.nextId && w'.nextChunk == w.nextChunk
    requires forall x: nat ::
               AllIds(hh)[x] + w'.retired[x] == AllIds(w.heaps[i])[x] + AllIds(w.heaps[j])[x] + w.retired[x]
    requires forall x: nat :: AllChunks(hh)[x] == AllChunks(w.heaps[i])[x] + AllChunks(w.heaps[j])[x]
    ensures WorldOk(w')
  {
    hide AllIds, AllChunks, IdCount, ChunkCount, ChainOk;
    forall x: nat
      ensures IdCount(w'.heaps, x) + w'.retired[x] == IdCount(w.heaps, x) + w.retired[x]
      ensures ChunkCount(w'.heaps, x) == ChunkCount(w.heaps, x)
    {
      Replaced(w.heaps, i, hh, x);
      Removed(w.heaps[i := hh], j, x);
    }
  }

  lemma SplitWorld(w: World, i: nat)
    requires WorldOk(w) && Enabled(w, SplitForCC(i))
    ensures WorldOk(DoIt(w, SplitForCC(i)))
  {
    hide WorldOk, Split, AllIds, AllChunks, ChainOk;
    HeapAt(w, i);
    SplitKeeps(w.heaps[i], w.nextId, w.nextId + 1, w.nextChunk);
    OneHeapChanges(w, i, Split(w.heaps[i], w.nextId, w.nextId + 1, w.nextChunk), DoIt(w, SplitForCC(i)));
  }

  lemma CollectWorld(w: World, a: Action)
    requires WorldOk(w) && Enabled(w, a) && (a.StartCC? || a.FinishCC?)
    ensures WorldOk(DoIt(w, a))
  {
    hide WorldOk, AllIds, AllChunks, ChainOk, SetSub;
    var hh, sub := w.heaps[a.i], w.heaps[a.i].forCC[a.k];
    HeapAt(w, a.i);
    var s := if a.StartCC? then sub.(state := Collecting) else sub.(state := Done, chunks := a.kept);
    SubSet(hh, a.k, s);
    OneHeapChanges(w, a.i, SetSub(hh, a.k, s), DoIt(w, a));
  }

  lemma MergeWorld(w: World, a: Action)
    requires WorldOk(w) && Enabled(w, a) && (a.MergeDone? || a.PromoteHeap?)
    ensures WorldOk(DoIt(w, a))
  {
    hide WorldOk, AllIds, AllChunks, ChainOk, MergeCompleted, Promote, Folded;
    HeapAt(w, a.i);
    if a.MergeDone? {
      MergeCompletedKeeps(w.heaps[a.i]);
      OneHeapChanges(w, a.i, MergeCompleted(w.heaps[a.i]), DoIt(w, a));
    } else {
      PromoteKeeps(w.heaps[a.i]);
      OneHeapChanges(w, a.i, Promote(w.heaps[a.i]), DoIt(w, a));
    }
  }

  lemma Pointwise(a: multiset<nat>, b: multiset<nat>, c: multiset<nat>, d: multiset<nat>, r: multiset<nat>)
    requires a + b == c + d
    ensures forall x: nat :: a[x] + (r + b)[x] == c[x] + d[x] + r[x]
  {
    forall x: nat ensures a[x] + (r + b)[x] == c[x] + d[x] + r[x] {
      assert (a + b)[x] == (c + d)[x];
    }
  }

  lemma UnionWorld(w: World, a: Action)
    requires WorldOk(w) && Enabled(w, a) && (a.PromoteHeapInto? || a.JoinLevel?)
    ensures WorldOk(DoIt(w, a))
  {
    hide WorldOk, AllIds, AllChunks, ChainOk, PromoteInto, Join, Retired, Absorb;
    var hh1, hh2 := w.heaps[a.i], w.heaps[a.j];
    HeapAt(w, a.i);
    HeapAt(w, a.j);
    if a.JoinLevel? {
      JoinKeeps(hh1, hh2);
      Pointwise(AllIds(Join(hh1, hh2)), multiset{hh2.id}, AllIds(hh1), AllIds(hh2), w.retired);
      TwoHeapsBecomeOne(w, a.i, a.j, Join(hh1, hh2), DoIt(w, a));
    } else {
      PromoteIntoKeeps(hh1, hh2);
      Pointwise(AllIds(PromoteInto(hh1, hh2)), Retired(hh1, hh2), AllIds(hh1), AllIds(hh2), w.retired);
      TwoHeapsBecomeOne(w, a.i, a.j, PromoteInto(hh1, hh2), DoIt(w, a));
    }
  }

  lemma DoKeepsWorld(w: World, a: Action)
    requires WorldOk(w) && Enabled(w, a)
    ensures WorldOk(DoIt(w, a))
  {
    hide WorldOk, DoIt;
    match a
    case NewHeap(depth) => NewKeeps(w, depth);
    case Allocate(i) => PlainWorld(w, a);
    case Register(i) => PlainWorld(w, a);
    case SplitForCC(i) => SplitWorld(w, i);
    case StartCC(_, _) => CollectWorld(w, a);
    case FinishCC(_, _, _, _) => CollectWorld(w, a);
    case MergeDone(_) => MergeWorld(w, a);
    case PromoteHeap(_) => MergeWorld(w, a);
    case PromoteHeapInto(_, _) => UnionWorld(w, a);
    case JoinLevel(_, _) => UnionWorld(w, a);
  }

  lemma HeapAt(w: World, i: nat)
    requires WorldOk(w) && i < |w.heaps|
    ensures ChainOk(w.heaps[i])
  {
  }

  lemma NewKeeps(w: World, depth: nat)
    requires WorldOk(w)
    ensures WorldOk(DoIt(w, NewHeap(depth)))
  {
    hide IdCount, ChunkCount, AllIds, AllChunks;
    var hh := Heap(w.nextId, depth, [], Unregistered, [], []);
    NewBags(hh);
    var w' := DoIt(w, NewHeap(depth));
    forall x: nat
      ensures IdCount(w'.heaps, x) + w'.retired[x] == if x < w'.nextId then 1 else 0
      ensures ChunkCount(w'.heaps, x) + w'.freed[x] == if x < w'.nextChunk then 1 else 0
    {
      Added(w.heaps, hh, x);
    }
  }

  lemma NewBags(hh: Heap)
    requires hh.forCC == [] && hh.completedCC == [] && hh.chunks == []
    ensures AllIds(hh) == multiset{hh.id} && AllChunks(hh) == multiset{}
  {
  }

  lemma PlainWorld(w: World, a: Action)
    requires WorldOk(w) && Enabled(w, a) && (a.Allocate? || a.Register?)
    ensures WorldOk(DoIt(w, a))
  {
    hide IdCount, ChunkCount, IdBag, ChunkBag, WorldOk;
    HeapAt(w, a.i);
    var hh := if a.Register? then w.heaps[a.i].(state := Registered)
        else w.heaps[a.i].(chunks := w.heaps[a.i].chunks + [w.nextChunk]);
    OneHeapChanges(w, a.i, hh, DoIt(w, a));
  }

  /** In every run the chains of every primary are as they should be, every
      sub-heap is on exactly one chain once, at its primary's depth, and no chunk
      is lost or doubled. */
  lemma {:induction false} RunKeepsWorld(acts: seq<Action>)
    requires Run(acts).Some?
    ensures WorldOk(Run(acts).value)
    decreases |acts|
  {
    hide WorldOk, DoIt, Enabled;
    if acts == [] {
      EmptyWorld();
    } else {
      RunKeepsWorld(acts[..|acts| - 1]);
      DoKeepsWorld(Run(acts[..|acts| - 1]).value, acts[|acts| - 1]);
    }
  }

  lemma EmptyWorld()
    ensures WorldOk(World([], 0, 0, multiset{}, multiset{}))
  {
  }
}
