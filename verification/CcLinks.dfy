/**
 The chains of sub-heaps as they are in memory: each heap record points at the
 next one through a field of its own, and an outstanding sub-heap uses the field
 of the completed chain to hang on to a completed one. The methods compute the
 operations of `CcChains` on these pointers.
 */
module CcLinks {
  import opened Options
  import opened CcChains

  class HeapRecord {
    const id: nat
    var depth: nat
    var chunkList: seq<nat>
    var ccstate: CcState
    var subHeapForCC: HeapRecord?
    var subHeapCompletedCC: HeapRecord?

    constructor (id: nat, depth: nat)
      ensures this.id == id && this.depth == depth && chunkList == [] && ccstate == Unregistered
      ensures subHeapForCC == null && subHeapCompletedCC == null
    {
      this.id, this.depth, chunkList, ccstate := id, depth, [], Unregistered;
      subHeapForCC, subHeapCompletedCC := null, null;
    }
  }

  // ----- what the pointers mean -----

  ghost function At(nodes: seq<HeapRecord>, i: int): HeapRecord? {
    if 0 <= i < |nodes| then nodes[i] else null
  }

  lemma AtIs(nodes: seq<HeapRecord>, i: int)
    ensures At(nodes, i) == if 0 <= i < |nodes| then nodes[i] else null
  {
  }

  lemma AtJoin(a: seq<HeapRecord>, b: seq<HeapRecord>, i: int)
    ensures At(a + b, i) == if i < |a| then At(a, i) else At(b, i - |a|)
  {
  }

  ghost predicate Distinct(nodes: seq<HeapRecord>) {
    forall i, j :: 0 <= i < j < |nodes| ==> nodes[i] != nodes[j]
  }

  ghost predicate ForChain(hh: HeapRecord, nodes: seq<HeapRecord>)
    reads hh`subHeapForCC, nodes`subHeapForCC
  {
    && hh.subHeapForCC == At(nodes, 0)
    && (forall i :: 0 <= i < |nodes| ==> nodes[i].subHeapForCC == At(nodes, i + 1))
  }

  ghost predicate DoneChain(hh: HeapRecord, nodes: seq<HeapRecord>)
    reads hh`subHeapCompletedCC, nodes`subHeapCompletedCC
  {
    && hh.subHeapCompletedCC == At(nodes, 0)
    && (forall i :: 0 <= i < |nodes| ==> nodes[i].subHeapCompletedCC == At(nodes, i + 1))
  }

  ghost predicate AllApart(hh: HeapRecord, fs: seq<HeapRecord>, cs: seq<HeapRecord>) {
    && Distinct(fs) && Distinct(cs) && hh !in fs && hh !in cs
    && (forall n :: n in fs ==> n !in cs)
  }

  ghost predicate NoneFor(cs: seq<HeapRecord>)
    reads cs`subHeapForCC
  {
    forall n :: n in cs ==> n.subHeapForCC == null
  }

  ghost function Completed(n: HeapRecord): SubHeap
    reads n`depth, n`chunkList, n`ccstate
  {
    SubHeap(n.id, n.depth, n.chunkList, n.ccstate, None)
  }

  /** An outstanding one also names the completed one that it points at. */
  ghost function Outstanding(n: HeapRecord): SubHeap
    reads n`depth, n`chunkList, n`ccstate, n`subHeapCompletedCC
  {
    var completed := if n.subHeapCompletedCC == null then None else Some(n.subHeapCompletedCC.id);
    Completed(n).(completed := completed)
  }

  ghost predicate Outs(fs: seq<HeapRecord>, chain: seq<SubHeap>)
    reads fs`depth, fs`chunkList, fs`ccstate, fs`subHeapCompletedCC
  {
    |fs| == |chain| && forall i :: 0 <= i < |fs| ==> Outstanding(fs[i]) == chain[i]
  }

  ghost predicate Dones(cs: seq<HeapRecord>, chain: seq<SubHeap>)
    reads cs`depth, cs`chunkList, cs`ccstate
  {
    |cs| == |chain| && forall i :: 0 <= i < |cs| ==> Completed(cs[i]) == chain[i]
  }

  ghost predicate Top(hh: HeapRecord, v: Heap)
    reads hh`depth, hh`chunkList, hh`ccstate
  {
    hh.id == v.id && hh.depth == v.depth && hh.chunkList == v.chunks && hh.ccstate == v.state
  }

  /** hh is this primary, with its sub-heaps in these records. */
  ghost predicate Forms(hh: HeapRecord, fs: seq<HeapRecord>, cs: seq<HeapRecord>, v: Heap)
    reads hh, fs, cs
  {
    && AllApart(hh, fs, cs) && ForChain(hh, fs) && DoneChain(hh, cs) && NoneFor(cs)
    && Top(hh, v) && Outs(fs, v.forCC) && Dones(cs, v.completedCC)
  }

  // ----- walking the chains -----

  method SetCCChainDepth(hh: HeapRecord, newDepth: nat, ghost fs: seq<HeapRecord>, ghost chain: seq<SubHeap>)
    requires ForChain(hh, fs) && Distinct(fs) && Outs(fs, chain)
    modifies fs`depth
    ensures Outs(fs, SetDepths(chain, newDepth))
  {
    hide At;
    ghost var k := 0;
    AtIs(fs, 0);
    var cursor := hh.subHeapForCC;
    while cursor != null
      invariant 0 <= k <= |fs| && cursor == At(fs, k) && (cursor == null <==> k == |fs|)
      invariant forall i :: 0 <= i < k ==> fs[i].depth == newDepth
      decreases |fs| - k
    {
      AtIs(fs, k);
      AtIs(fs, k + 1);
      cursor.depth := newDepth;
      cursor := cursor.subHeapForCC;
      k := k + 1;
    }
    assert forall i :: 0 <= i < |fs| ==> Outstanding(fs[i]) == old(Outstanding(fs[i])).(depth := newDepth);
  }

  method SetCompletedCCChainDepth(hh: HeapRecord, newDepth: nat, ghost cs: seq<HeapRecord>, ghost chain: seq<SubHeap>)
    requires DoneChain(hh, cs) && Distinct(cs) && Dones(cs, chain)
    modifies cs`depth
    ensures Dones(cs, SetDepths(chain, newDepth))
  {
    hide At;
    ghost var k := 0;
    AtIs(cs, 0);
    var cursor := hh.subHeapCompletedCC;
    while cursor != null
      invariant 0 <= k <= |cs| && cursor == At(cs, k) && (cursor == null <==> k == |cs|)
      invariant forall i :: 0 <= i < k ==> cs[i].depth == newDepth
      decreases |cs| - k
    {
      AtIs(cs, k);
      AtIs(cs, k + 1);
      cursor.depth := newDepth;
      cursor := cursor.subHeapCompletedCC;
      k := k + 1;
    }
    assert forall i :: 0 <= i < |cs| ==> Completed(cs[i]) == old(Completed(cs[i])).(depth := newDepth);
  }

  method EndOfChain(hh: HeapRecord, ghost fs: seq<HeapRecord>) returns (end: HeapRecord)
    requires ForChain(hh, fs) && fs != []
    ensures end == fs[|fs| - 1]
  {
    hide At;
    AtIs(fs, 0);
    AtIs(fs, 1);
    end := hh.subHeapForCC;
    ghost var k := 0;
    while end.subHeapForCC != null
      invariant 0 <= k < |fs| && end == fs[k]
      decreases |fs| - k
    {
      AtIs(fs, k + 1);
      end := end.subHeapForCC;
      k := k + 1;
    }
    AtIs(fs, k + 1);
  }

  method EndOfCompletedChain(hh: HeapRecord, ghost cs: seq<HeapRecord>) returns (end: HeapRecord)
    requires DoneChain(hh, cs) && cs != []
    ensures end == cs[|cs| - 1]
  {
    hide At;
    AtIs(cs, 0);
    AtIs(cs, 1);
    end := hh.subHeapCompletedCC;
    ghost var k := 0;
    while end.subHeapCompletedCC != null
      invariant 0 <= k < |cs| && end == cs[k]
      decreases |cs| - k
    {
      AtIs(cs, k + 1);
      end := end.subHeapCompletedCC;
      k := k + 1;
    }
    AtIs(cs, k + 1);
  }

  /** The one chain of hh2 goes in front of that of hh1. */
  method LinkForCC(hh1: HeapRecord, hh2: HeapRecord, ghost f1: seq<HeapRecord>, ghost f2: seq<HeapRecord>)
    requires ForChain(hh1, f1) && ForChain(hh2, f2) && f2 != [] && hh1 != hh2
    requires Distinct(f2) && hh1 !in f1 && hh2 !in f1 && hh1 !in f2 && hh2 !in f2 && forall n :: n in f2 ==> n !in f1
    modifies hh1`subHeapForCC, hh2`subHeapForCC, f2`subHeapForCC
    ensures ForChain(hh1, f2 + f1) && ForChain(hh2, [])
  {
    hide At;
    var endOfChain2 := EndOfChain(hh2, f2);
    AtIs(f2, |f2|);
    assert endOfChain2 in f2;
    endOfChain2.subHeapForCC := hh1.subHeapForCC;
    hh1.subHeapForCC := hh2.subHeapForCC;
    hh2.subHeapForCC := null;
    AtIs([], 0);
    AtJoin(f2, f1, 0);
    forall i | 0 <= i < |f2 + f1| ensures (f2 + f1)[i].subHeapForCC == At(f2 + f1, i + 1) {
      AtJoin(f2, f1, i + 1);
      if i >= |f2| { assert f1[i - |f2|] in f1; }
      assert i < |f2| ==> (f2 + f1)[i] == f2[i];
      assert i >= |f2| ==> (f2 + f1)[i] == f1[i - |f2|];
    }
  }

  /** And so does the other. */
  method LinkCompletedCC(hh1: HeapRecord, hh2: HeapRecord, ghost c1: seq<HeapRecord>, ghost c2: seq<HeapRecord>)
    requires DoneChain(hh1, c1) && DoneChain(hh2, c2) && c2 != [] && hh1 != hh2
    requires Distinct(c2) && hh1 !in c1 && hh2 !in c1 && hh1 !in c2 && hh2 !in c2 && forall n :: n in c2 ==> n !in c1
    modifies hh1`subHeapCompletedCC, hh2`subHeapCompletedCC, c2`subHeapCompletedCC
    ensures DoneChain(hh1, c2 + c1) && DoneChain(hh2, [])
  {
    hide At;
    var endOfCompletedChain2 := EndOfCompletedChain(hh2, c2);
    AtIs(c2, |c2|);
    assert endOfCompletedChain2 in c2;
    endOfCompletedChain2.subHeapCompletedCC := hh1.subHeapCompletedCC;
    hh1.subHeapCompletedCC := hh2.subHeapCompletedCC;
    hh2.subHeapCompletedCC := null;
    AtIs([], 0);
    AtJoin(c2, c1, 0);
    forall i | 0 <= i < |c2 + c1| ensures (c2 + c1)[i].subHeapCompletedCC == At(c2 + c1, i + 1) {
      AtJoin(c2, c1, i + 1);
      if i >= |c2| { assert c1[i - |c2|] in c1; }
      assert i < |c2| ==> (c2 + c1)[i] == c2[i];
      assert i >= |c2| ==> (c2 + c1)[i] == c1[i - |c2|];
    }
  }

  // ----- linking -----

  ghost predicate Apart(hh1: HeapRecord, f1: seq<HeapRecord>, c1: seq<HeapRecord>,
                        hh2: HeapRecord, f2: seq<HeapRecord>, c2: seq<HeapRecord>)
  {
    && hh1 != hh2 && hh1 !in f2 && hh1 !in c2 && hh2 !in f1 && hh2 !in c1
    && (forall n :: n in f2 ==> n !in f1 && n !in c1)
    && (forall n :: n in c2 ==> n !in f1 && n !in c1)
  }

  lemma JoinApart(hh1: HeapRecord, f1: seq<HeapRecord>, c1: seq<HeapRecord>,
                  hh2: HeapRecord, f2: seq<HeapRecord>, c2: seq<HeapRecord>)
    requires AllApart(hh1, f1, c1) && AllApart(hh2, f2, c2) && Apart(hh1, f1, c1, hh2, f2, c2)
    ensures AllApart(hh1, f2 + f1, c2 + c1) && AllApart(hh2, [], [])
  {
    JoinDistinct(f2, f1);
    JoinDistinct(c2, c1);
  }

  lemma JoinDistinct(a: seq<HeapRecord>, b: seq<HeapRecord>)
    requires Distinct(a) && Distinct(b) && forall n :: n in a ==> n !in b
    ensures Distinct(a + b)
  {
    forall i, j | 0 <= i < j < |a + b| ensures (a + b)[i] != (a + b)[j] {
      if i < |a| <= j { assert a[i] in a && b[j - |a|] in b; }
    }
  }

  /** The pointers of linkCCChains. */
  method LinkPointers(hh1: HeapRecord, hh2: HeapRecord, ghost f1: seq<HeapRecord>, ghost c1: seq<HeapRecord>,
                      ghost f2: seq<HeapRecord>, ghost c2: seq<HeapRecord>)
    requires ForChain(hh1, f1) && DoneChain(hh1, c1) && ForChain(hh2, f2) && DoneChain(hh2, c2)
    requires AllApart(hh1, f1, c1) && AllApart(hh2, f2, c2) && Apart(hh1, f1, c1, hh2, f2, c2)
    requires (f1 == [] <==> c1 == []) && (f2 == [] <==> c2 == [])
    modifies hh1`subHeapForCC, hh1`subHeapCompletedCC, hh2`subHeapForCC, hh2`subHeapCompletedCC
    modifies f2`subHeapForCC, c2`subHeapCompletedCC
    ensures ForChain(hh1, f2 + f1) && DoneChain(hh1, c2 + c1) && ForChain(hh2, []) && DoneChain(hh2, [])
  {
    hide At, Distinct;
    AtIs(f1, 0);
    AtIs(f2, 0);
    if hh1.subHeapForCC == null {
      assert f2 + f1 == f2 && c2 + c1 == c2;
      hh1.subHeapForCC := hh2.subHeapForCC;
      hh1.subHeapCompletedCC := hh2.subHeapCompletedCC;
      hh2.subHeapForCC := null;
      hh2.subHeapCompletedCC := null;
      AtIs([], 0);
    } else if hh2.subHeapForCC == null {
      assert f2 + f1 == f1 && c2 + c1 == c1;
    } else {
      LinkForCC(hh1, hh2, f1, f2);
      LinkCompletedCC(hh1, hh2, c1, c2);
    }
  }

  lemma JoinForms(hh: HeapRecord, f1: seq<HeapRecord>, c1: seq<HeapRecord>, f2: seq<HeapRecord>, c2: seq<HeapRecord>,
                  x1: seq<SubHeap>, y1: seq<SubHeap>, x2: seq<SubHeap>, y2: seq<SubHeap>)
    requires Outs(f1, x1) && Outs(f2, x2) && Dones(c1, y1) && Dones(c2, y2) && NoneFor(c1) && NoneFor(c2)
    ensures Outs(f2 + f1, x2 + x1) && Dones(c2 + c1, y2 + y1) && NoneFor(c2 + c1)
  {
    hide Outstanding, Completed;
  }

  lemma FormsIs(hh: HeapRecord, fs: seq<HeapRecord>, cs: seq<HeapRecord>, v: Heap)
    requires Forms(hh, fs, cs, v)
    ensures AllApart(hh, fs, cs) && ForChain(hh, fs) && DoneChain(hh, cs) && NoneFor(cs)
    ensures Top(hh, v) && Outs(fs, v.forCC) && Dones(cs, v.completedCC)
    ensures hh.id == v.id && hh.depth == v.depth && hh.chunkList == v.chunks && hh.ccstate == v.state
    ensures Distinct(fs) && Distinct(cs) && hh !in fs && hh !in cs && forall n :: n in fs ==> n !in cs
    ensures |fs| == |v.forCC| && |cs| == |v.completedCC|
  {
  }

  lemma FormsIf(hh: HeapRecord, fs: seq<HeapRecord>, cs: seq<HeapRecord>, v: Heap)
    requires AllApart(hh, fs, cs) && ForChain(hh, fs) && DoneChain(hh, cs) && NoneFor(cs)
    requires Top(hh, v) && Outs(fs, v.forCC) && Dones(cs, v.completedCC)
    ensures Forms(hh, fs, cs, v)
  {
  }

  lemma ApartIs(hh1: HeapRecord, f1: seq<HeapRecord>, c1: seq<HeapRecord>,
                hh2: HeapRecord, f2: seq<HeapRecord>, c2: seq<HeapRecord>)
    requires Apart(hh1, f1, c1, hh2, f2, c2)
    ensures hh1 != hh2 && hh1 !in f2 && hh1 !in c2 && hh2 !in f1 && hh2 !in c1
    ensures forall n :: n in f2 ==> n !in f1 && n !in c1
    ensures forall n :: n in c2 ==> n !in f1 && n !in c1
  {
  }

  lemma TopIs(hh: HeapRecord, v: Heap, v': Heap)
    requires Top(hh, v) && v' == v.(forCC := v'.forCC, completedCC := v'.completedCC)
    ensures Top(hh, v')
  {
  }

  lemma EmptyForms()
    ensures Outs([], []) && Dones([], []) && NoneFor([])
  {
  }

  /** The depths of both chains. */
  method SetChainDepths(hh: HeapRecord, newDepth: nat, ghost fs: seq<HeapRecord>, ghost cs: seq<HeapRecord>,
                        ghost x: seq<SubHeap>, ghost y: seq<SubHeap>)
    requires ForChain(hh, fs) && DoneChain(hh, cs) && Distinct(fs) && Distinct(cs) && Outs(fs, x) && Dones(cs, y)
    requires forall n :: n in fs ==> n !in cs
    modifies fs`depth, cs`depth
    ensures Outs(fs, SetDepths(x, newDepth)) && Dones(cs, SetDepths(y, newDepth))
  {
    hide *;
    SetCCChainDepth(hh, newDepth, fs, x);
    assert forall n :: n in cs ==> n.depth == old(n.depth);
    assert Dones(cs, y);
    label Between:
    SetCompletedCCChainDepth(hh, newDepth, cs, y);
    assert forall n :: n in fs ==> n.depth == old@Between(n.depth);
    assert Outs(fs, SetDepths(x, newDepth));
  }

  /** linkCCChains: the chains of hh2 end up in front of those of hh1, at its
      depth, and hh2 has none. */
  method LinkCCChains(hh1: HeapRecord, hh2: HeapRecord,
                      ghost f1: seq<HeapRecord>, ghost c1: seq<HeapRecord>, ghost v1: Heap,
                      ghost f2: seq<HeapRecord>, ghost c2: seq<HeapRecord>, ghost v2: Heap)
    requires Forms(hh1, f1, c1, v1) && Forms(hh2, f2, c2, v2) && Apart(hh1, f1, c1, hh2, f2, c2)
    requires (f1 == [] <==> c1 == []) && (f2 == [] <==> c2 == [])
    modifies hh1`subHeapForCC, hh1`subHeapCompletedCC, hh2`subHeapForCC, hh2`subHeapCompletedCC
    modifies f2`depth, f2`subHeapForCC, c2`depth, c2`subHeapCompletedCC
    ensures Forms(hh1, f2 + f1, c2 + c1, LinkChains(v1, v2).0)
    ensures Forms(hh2, [], [], LinkChains(v1, v2).1)
  {
    hide *;
    FormsIs(hh1, f1, c1, v1);
    FormsIs(hh2, f2, c2, v2);
    ApartIs(hh1, f1, c1, hh2, f2, c2);
    JoinApart(hh1, f1, c1, hh2, f2, c2);
    LinkChainsIs(v1, v2);
    SetChainDepths(hh2, hh1.depth, f2, c2, v2.forCC, v2.completedCC);
    assert forall n :: n in f1 ==> n.depth == old(n.depth);
    assert forall n :: n in c1 ==> n.depth == old(n.depth);
    assert Outs(f1, v1.forCC) && Dones(c1, v1.completedCC);
    label Between:
    LinkPointers(hh1, hh2, f1, c1, f2, c2);
    assert forall n :: n in f1 ==> n.subHeapCompletedCC == old@Between(n.subHeapCompletedCC);
    assert forall n :: n in f2 ==> n.subHeapCompletedCC == old@Between(n.subHeapCompletedCC);
    assert Outs(f1, v1.forCC) && Outs(f2, SetDepths(v2.forCC, v1.depth));
    assert forall n :: n in c1 ==> n.subHeapForCC == old@Between(n.subHeapForCC);
    assert forall n :: n in c2 ==> n.subHeapForCC == old@Between(n.subHeapForCC);
    assert NoneFor(c1) && NoneFor(c2);
    JoinForms(hh1, f1, c1, f2, c2, v1.forCC, v1.completedCC,
              SetDepths(v2.forCC, v1.depth), SetDepths(v2.completedCC, v1.depth));
    TopIs(hh1, v1, LinkChains(v1, v2).0);
    TopIs(hh2, v2, LinkChains(v1, v2).1);
    EmptyForms();
    FormsIf(hh1, f2 + f1, c2 + c1, LinkChains(v1, v2).0);
    FormsIf(hh2, [], [], LinkChains(v1, v2).1);
  }

  // ----- merging what is completed -----

  lemma AtCut(all: seq<HeapRecord>, k: nat, i: int)
    requires k < |all|
    ensures At(all[..k] + all[k + 1..], i) == At(all, if i < k then i else i + 1)
  {
  }

  lemma AtCons(n: HeapRecord, nodes: seq<HeapRecord>, i: int)
    ensures At([n] + nodes, i) == if i == 0 then n else At(nodes, i - 1)
  {
  }

  lemma CutApart(hh: HeapRecord, all: seq<HeapRecord>, k: nat, done: seq<HeapRecord>)
    requires AllApart(hh, all, done) && k < |all|
    ensures AllApart(hh, all[..k] + all[k + 1..], [all[k]] + done)
    ensures all[k] !in all[..k] + all[k + 1..] && forall n :: n in all[..k] + all[k + 1..] ==> n in all
  {
    var rest := all[..k] + all[k + 1..];
    forall i | 0 <= i < |rest| ensures rest[i] in all && rest[i] != all[k] {
      assert rest[i] == all[if i < k then i else i + 1];
    }
    assert all[k] in all;
    forall i, j | 0 <= i < j < |rest| ensures rest[i] != rest[j] {
      assert rest[i] == all[if i < k then i else i + 1] && rest[j] == all[if j < k then j else j + 1];
    }
  }

  /** The sub-heap under the cursor leaves the one chain and heads the other. */
  method MoveToCompleted(hh: HeapRecord, prev: HeapRecord, subhh: HeapRecord,
                         ghost all: seq<HeapRecord>, ghost k: nat, ghost done: seq<HeapRecord>)
    requires AllApart(hh, all, done) && ForChain(hh, all) && DoneChain(hh, done) && NoneFor(done)
    requires k < |all| && subhh == all[k] && prev == if k == 0 then hh else all[k - 1]
    modifies hh`subHeapCompletedCC, prev`subHeapForCC, subhh`subHeapForCC, subhh`subHeapCompletedCC
    ensures ForChain(hh, all[..k] + all[k + 1..]) && DoneChain(hh, [subhh] + done) && NoneFor([subhh] + done)
  {
    hide At;
    ghost var rest := all[..k] + all[k + 1..];
    CutApart(hh, all, k, done);
    AtIs(all, k + 1);
    AtIs(all, 0);
    AtCut(all, k, 0);
    AtCons(subhh, done, 0);
    assert subhh in all && (k > 0 ==> prev in all);
    var next := subhh.subHeapForCC;
    prev.subHeapForCC := next;
    subhh.subHeapForCC := null;
    subhh.subHeapCompletedCC := hh.subHeapCompletedCC;
    hh.subHeapCompletedCC := subhh;
    forall i | 0 <= i < |rest| ensures rest[i].subHeapForCC == At(rest, i + 1) {
      AtCut(all, k, i + 1);
      assert rest[i] == all[if i < k then i else i + 1];
    }
    forall i | 0 <= i < |[subhh] + done| ensures ([subhh] + done)[i].subHeapCompletedCC == At([subhh] + done, i + 1) {
      AtCons(subhh, done, i + 1);
      assert i > 0 ==> done[i - 1] in done;
    }
  }

  /** Where the loop stands: it has kept these, moved some to the completed chain,
      and has the rest before it; x and y are what these stand for. */
  ghost predicate Midway(hh: HeapRecord, v: Heap, kept: seq<HeapRecord>, rest: seq<HeapRecord>, done: seq<HeapRecord>,
                         xk: seq<SubHeap>, xr: seq<SubHeap>, y: seq<SubHeap>)
    reads hh, kept, rest, done
  {
    && AllApart(hh, kept + rest, done) && ForChain(hh, kept + rest) && DoneChain(hh, done) && NoneFor(done)
    && Outs(kept, xk) && Outs(rest, xr) && Dones(done, y)
    && xk + OutstandingOnes(xr) == OutstandingOnes(v.forCC)
    && Prepend(DoneOnes(xr), y) == Prepend(DoneOnes(v.forCC), v.completedCC)
  }

  lemma MidwayStart(hh: HeapRecord, v: Heap, fs: seq<HeapRecord>, cs: seq<HeapRecord>)
    requires Forms(hh, fs, cs, v)
    ensures Midway(hh, v, [], fs, cs, [], v.forCC, v.completedCC)
  {
    assert [] + fs == fs;
    assert [] + OutstandingOnes(v.forCC) == OutstandingOnes(v.forCC);
  }

  /** The sub-heap is not done and stays. */
  lemma MidwaySkip(hh: HeapRecord, v: Heap, kept: seq<HeapRecord>, rest: seq<HeapRecord>, done: seq<HeapRecord>,
                   xk: seq<SubHeap>, xr: seq<SubHeap>, y: seq<SubHeap>)
    requires Midway(hh, v, kept, rest, done, xk, xr, y) && rest != [] && !rest[0].ccstate.Done?
    ensures xr != [] && Midway(hh, v, kept + [rest[0]], rest[1..], done, xk + [xr[0]], xr[1..], y)
  {
    hide AllApart, ForChain, DoneChain, NoneFor, Prepend;
    assert kept + [rest[0]] + rest[1..] == kept + rest;
    assert xk + [xr[0]] + OutstandingOnes(xr[1..]) == xk + ([xr[0]] + OutstandingOnes(xr[1..]));
    assert Outstanding(rest[0]) == xr[0];
  }

  /** It is done and has been moved. */
  lemma MidwayMove(hh: HeapRecord, v: Heap, kept: seq<HeapRecord>, rest: seq<HeapRecord>, done: seq<HeapRecord>,
                   xk: seq<SubHeap>, xr: seq<SubHeap>, y: seq<SubHeap>, n: HeapRecord)
    requires xr != [] && AllApart(hh, kept + rest, [n] + done) && ForChain(hh, kept + rest)
    requires DoneChain(hh, [n] + done)
    requires NoneFor([n] + done) && Outs(kept, xk) && Outs(rest, xr[1..]) && Dones(done, y)
    requires xr[0].state.Done? && Completed(n) == xr[0].(completed := None)
    requires xk + OutstandingOnes(xr) == OutstandingOnes(v.forCC)
    requires Prepend(DoneOnes(xr), y) == Prepend(DoneOnes(v.forCC), v.completedCC)
    ensures Midway(hh, v, kept, rest, [n] + done, xk, xr[1..], [Completed(n)] + y)
  {
    hide AllApart, ForChain, DoneChain, NoneFor, Outs, Outstanding;
    assert DoneOnes(xr) == [xr[0]] + DoneOnes(xr[1..]);
    assert ([xr[0]] + DoneOnes(xr[1..]))[1..] == DoneOnes(xr[1..]);
  }

  lemma MidwayIs(hh: HeapRecord, v: Heap, kept: seq<HeapRecord>, rest: seq<HeapRecord>, done: seq<HeapRecord>,
                 xk: seq<SubHeap>, xr: seq<SubHeap>, y: seq<SubHeap>)
    requires Midway(hh, v, kept, rest, done, xk, xr, y)
    ensures AllApart(hh, kept + rest, done) && ForChain(hh, kept + rest) && DoneChain(hh, done) && NoneFor(done)
    ensures hh !in kept + rest && hh !in done
    ensures Outs(kept, xk) && Outs(rest, xr) && Dones(done, y) && |xr| == |rest|
    ensures xk + OutstandingOnes(xr) == OutstandingOnes(v.forCC)
    ensures Prepend(DoneOnes(xr), y) == Prepend(DoneOnes(v.forCC), v.completedCC)
    ensures |kept + rest| == |kept| + |rest| && forall i :: 0 <= i < |rest| ==> (kept + rest)[|kept| + i] == rest[i]
    ensures rest != [] ==> Outstanding(rest[0]) == xr[0]
    ensures rest == [] ==> kept + rest == kept && xk == OutstandingOnes(v.forCC)
    ensures rest == [] ==> y == Prepend(DoneOnes(v.forCC), v.completedCC)
    ensures forall n :: n in kept ==> n in kept + rest
  {
  }

  lemma MidwayForms(hh: HeapRecord, v: Heap, kept: seq<HeapRecord>, done: seq<HeapRecord>,
                    xk: seq<SubHeap>, xr: seq<SubHeap>, y: seq<SubHeap>)
    requires Midway(hh, v, kept, [], done, xk, xr, y) && Top(hh, v)
    ensures Forms(hh, kept, done, v.(forCC := OutstandingOnes(v.forCC),
                                     completedCC := Prepend(DoneOnes(v.forCC), v.completedCC)))
  {
    MidwayIs(hh, v, kept, [], done, xk, xr, y);
  }

  /** What the cursor points at. */
  lemma CursorAt(hh: HeapRecord, v: Heap, kept: seq<HeapRecord>, rest: seq<HeapRecord>, done: seq<HeapRecord>,
                 xk: seq<SubHeap>, xr: seq<SubHeap>, y: seq<SubHeap>)
    requires Midway(hh, v, kept, rest, done, xk, xr, y)
    ensures (if kept == [] then hh else kept[|kept| - 1]).subHeapForCC == At(kept + rest, |kept|)
    ensures At(kept + rest, |kept|) == if rest == [] then null else rest[0]
    ensures |xr| == |rest|
  {
    hide *;
    MidwayIs(hh, v, kept, rest, done, xk, xr, y);
    ForChainAt(hh, kept + rest, |kept|);
    AtIs(kept + rest, |kept|);
    assert kept != [] ==> (kept + rest)[|kept| - 1] == kept[|kept| - 1];
  }

  lemma ForChainAt(hh: HeapRecord, nodes: seq<HeapRecord>, k: nat)
    requires ForChain(hh, nodes) && k <= |nodes|
    ensures (if k == 0 then hh else nodes[k - 1]).subHeapForCC == At(nodes, k)
    ensures At(nodes, k) == null <==> k == |nodes|
  {
  }

  lemma CutIs(kept: seq<HeapRecord>, rest: seq<HeapRecord>)
    requires rest != []
    ensures (kept + rest)[|kept|] == rest[0]
    ensures (kept + rest)[..|kept|] + (kept + rest)[|kept| + 1..] == kept + rest[1..]
    ensures forall n :: n in rest[1..] ==> n in kept + rest[1..]
    ensures forall n :: n in kept ==> n in kept + rest[1..]
  {
  }

  lemma OutstandingIs(rest: seq<HeapRecord>, x: seq<SubHeap>)
    requires rest != [] && Outs(rest, x)
    ensures x != [] && Outs(rest[1..], x[1..])
    ensures Completed(rest[0]) == x[0].(completed := None) && rest[0].ccstate == x[0].state
  {
    assert Outstanding(rest[0]) == x[0];
  }

  /** What the turn that moves a sub-heap starts from. */
  lemma MoveFacts(hh: HeapRecord, v: Heap, kept: seq<HeapRecord>, rest: seq<HeapRecord>, done: seq<HeapRecord>,
                  xk: seq<SubHeap>, xr: seq<SubHeap>, y: seq<SubHeap>)
    requires Midway(hh, v, kept, rest, done, xk, xr, y) && rest != []
    ensures var all := kept + rest;
      && AllApart(hh, all, done) && ForChain(hh, all) && DoneChain(hh, done) && NoneFor(done)
      && |kept| < |all| && all[|kept|] == rest[0] && (kept != [] ==> kept[|kept| - 1] == all[|kept| - 1])
      && all[..|kept|] + all[|kept| + 1..] == kept + rest[1..]
      && AllApart(hh, kept + rest[1..], [rest[0]] + done)
      && rest[0].subHeapForCC == At(kept + rest[1..], |kept|)
    ensures forall n :: n in kept ==> n != hh && n != rest[0]
    ensures forall n :: n in rest[1..] ==> n != hh && n != rest[0]
    ensures Outs(kept, xk) && Outs(rest, xr) && Dones(done, y)
    ensures xk + OutstandingOnes(xr) == OutstandingOnes(v.forCC)
    ensures Prepend(DoneOnes(xr), y) == Prepend(DoneOnes(v.forCC), v.completedCC)
  {
    hide *;
    MidwayIs(hh, v, kept, rest, done, xk, xr, y);
    ForChainAt(hh, kept + rest, |kept| + 1);
    CutApart(hh, kept + rest, |kept|, done);
    CutIs(kept, rest);
    AtCut(kept + rest, |kept|, |kept|);
    assert forall n :: n in kept + rest[1..] ==> n != hh && n != rest[0];
  }

  /** The turn of the loop that moves a sub-heap. */
  method MoveStep(hh: HeapRecord, cursor: HeapRecord, subhh: HeapRecord, ghost v: Heap,
                  ghost kept: seq<HeapRecord>, ghost rest: seq<HeapRecord>, ghost done: seq<HeapRecord>,
                  ghost xk: seq<SubHeap>, ghost xr: seq<SubHeap>, ghost y: seq<SubHeap>)
    returns (next: HeapRecord?)
    requires Midway(hh, v, kept, rest, done, xk, xr, y) && rest != [] && xr != []
    requires subhh == rest[0] && subhh.ccstate.Done? && cursor == if kept == [] then hh else kept[|kept| - 1]
    modifies hh`subHeapCompletedCC, cursor`subHeapForCC, subhh`subHeapForCC, subhh`subHeapCompletedCC
    ensures Midway(hh, v, kept, rest[1..], [subhh] + done, xk, xr[1..], [Completed(subhh)] + y)
    ensures next == At(kept + rest[1..], |kept|)
  {
    hide *;
    ghost var all := kept + rest;
    MoveFacts(hh, v, kept, rest, done, xk, xr, y);
    OutstandingIs(rest, xr);
    next := subhh.subHeapForCC;
    MoveToCompleted(hh, cursor, subhh, all, |kept|, done);
    assert forall n :: n in kept ==> n.subHeapCompletedCC == old(n.subHeapCompletedCC);
    assert forall n :: n in rest[1..] ==> n.subHeapCompletedCC == old(n.subHeapCompletedCC);
    assert Outs(kept, xk) && Outs(rest[1..], xr[1..]);
    MidwayMove(hh, v, kept, rest[1..], done, xk, xr, y, subhh);
  }

  ghost predicate Within(fs: seq<HeapRecord>, cs: seq<HeapRecord>,
                         kept: seq<HeapRecord>, rest: seq<HeapRecord>, done: seq<HeapRecord>)
  {
    && (forall n :: n in kept ==> n in fs) && (forall n :: n in rest ==> n in fs)
    && (forall n :: n in done ==> n in fs || n in cs)
  }

  lemma WithinStart(fs: seq<HeapRecord>, cs: seq<HeapRecord>)
    ensures Within(fs, cs, [], fs, cs)
  {
  }

  lemma WithinStep(fs: seq<HeapRecord>, cs: seq<HeapRecord>,
                   kept: seq<HeapRecord>, rest: seq<HeapRecord>, done: seq<HeapRecord>)
    requires Within(fs, cs, kept, rest, done) && rest != []
    ensures Within(fs, cs, kept + [rest[0]], rest[1..], done) && Within(fs, cs, kept, rest[1..], [rest[0]] + done)
    ensures rest[0] in fs && (kept != [] ==> kept[|kept| - 1] in fs)
  {
    assert rest[0] in rest && (kept != [] ==> kept[|kept| - 1] in kept);
  }

  lemma WithinIs(fs: seq<HeapRecord>, cs: seq<HeapRecord>,
                 kept: seq<HeapRecord>, rest: seq<HeapRecord>, done: seq<HeapRecord>)
    requires Within(fs, cs, kept, rest, done)
    ensures (forall n :: n in kept ==> n in fs) && (forall n :: n in done ==> n in fs || n in cs)
  {
  }

  /** The first loop of mergeCompletedCCs, with the cursor as the record whose
      field it points to. */
  method SortOut(hh: HeapRecord, ghost fs: seq<HeapRecord>, ghost cs: seq<HeapRecord>, ghost v: Heap)
    returns (ghost kept: seq<HeapRecord>, ghost done: seq<HeapRecord>)
    requires Forms(hh, fs, cs, v)
    modifies hh`subHeapForCC, hh`subHeapCompletedCC, fs`subHeapForCC, fs`subHeapCompletedCC
    ensures Forms(hh, kept, done, v.(forCC := OutstandingOnes(v.forCC),
                                     completedCC := Prepend(DoneOnes(v.forCC), v.completedCC)))
    ensures (forall n :: n in kept ==> n in fs) && (forall n :: n in done ==> n in fs || n in cs)
  {
    hide *;
    kept, done := [], cs;
    ghost var rest, xk, xr, y := fs, [], v.forCC, v.completedCC;
    var cursor := hh;
    FormsIs(hh, fs, cs, v);
    MidwayStart(hh, v, fs, cs);
    WithinStart(fs, cs);
    CursorAt(hh, v, kept, rest, done, xk, xr, y);
    var subhh := hh.subHeapForCC;
    while subhh != null
      invariant Midway(hh, v, kept, rest, done, xk, xr, y) && Top(hh, v)
      invariant cursor == if kept == [] then hh else kept[|kept| - 1]
      invariant subhh == At(kept + rest, |kept|)
      invariant Within(fs, cs, kept, rest, done)
      decreases |rest|
    {
      CursorAt(hh, v, kept, rest, done, xk, xr, y);
      WithinStep(fs, cs, kept, rest, done);
      if !subhh.ccstate.Done? {
        MidwaySkip(hh, v, kept, rest, done, xk, xr, y);
        cursor := subhh;
        kept, rest, xk, xr := kept + [rest[0]], rest[1..], xk + [xr[0]], xr[1..];
        CursorAt(hh, v, kept, rest, done, xk, xr, y);
        subhh := cursor.subHeapForCC;
      } else {
        var next := MoveStep(hh, cursor, subhh, v, kept, rest, done, xk, xr, y);
        rest, done, xr, y := rest[1..], [subhh] + done, xr[1..], [Completed(subhh)] + y;
        subhh := next;
      }
    }
    CursorAt(hh, v, kept, rest, done, xk, xr, y);
    WithinIs(fs, cs, kept, rest, done);
    MidwayForms(hh, v, kept, done, xk, xr, y);
  }

  lemma ChunksInRest(y: seq<SubHeap>, k: nat)
    requires k < |y|
    ensures ChunksIn(y[k..]) == y[k].chunks + ChunksIn(y[k + 1..])
  {
    assert y[k..][1..] == y[k + 1..];
  }

  /** The second loop: the completed chain is folded in. */
  method FoldCompleted(hh: HeapRecord, ghost cs: seq<HeapRecord>, ghost y: seq<SubHeap>)
    requires DoneChain(hh, cs) && hh !in cs && Dones(cs, y)
    modifies hh`chunkList, hh`subHeapCompletedCC
    ensures hh.chunkList == old(hh.chunkList) + ChunksIn(y) && hh.subHeapCompletedCC == null
  {
    hide At, ChunksIn;
    AtIs(cs, 0);
    var completed := hh.subHeapCompletedCC;
    ghost var k := 0;
    assert y[0..] == y;
    while completed != null
      invariant 0 <= k <= |cs| && completed == At(cs, k) && (completed == null <==> k == |cs|)
      invariant hh.chunkList + ChunksIn(y[k..]) == old(hh.chunkList) + ChunksIn(y)
      decreases |cs| - k
      modifies hh`chunkList
    {
      AtIs(cs, k);
      AtIs(cs, k + 1);
      ChunksInRest(y, k);
      assert Completed(cs[k]) == y[k];
      var next := completed.subHeapCompletedCC;
      hh.chunkList := hh.chunkList + completed.chunkList;
      completed := next;
      k := k + 1;
    }
    assert y[k..] == [];
    NoChunks();
    hh.subHeapCompletedCC := null;
  }

  lemma NoChunks()
    ensures ChunksIn([]) == []
  {
  }

  /** mergeCompletedCCs. */
  method MergeCompletedCCs(hh: HeapRecord, ghost fs: seq<HeapRecord>, ghost cs: seq<HeapRecord>, ghost v: Heap)
    returns (ghost kept: seq<HeapRecord>, ghost done: seq<HeapRecord>)
    requires Forms(hh, fs, cs, v)
    modifies hh`subHeapForCC, hh`subHeapCompletedCC, hh`chunkList, fs`subHeapForCC, fs`subHeapCompletedCC
    ensures Forms(hh, kept, done, MergeCompleted(v))
    ensures (forall n :: n in kept ==> n in fs) && (forall n :: n in done ==> n in fs || n in cs)
  {
    hide *;
    ghost var x, y := OutstandingOnes(v.forCC), Prepend(DoneOnes(v.forCC), v.completedCC);
    FormsIs(hh, fs, cs, v);
    kept, done := SortOut(hh, fs, cs, v);
    FormsIs(hh, kept, done, v.(forCC := x, completedCC := y));
    NullIffEmpty(hh, kept, done);
    if hh.subHeapForCC == null && hh.subHeapCompletedCC != null {
      FoldCompleted(hh, done, y);
      NoneApart(hh, kept, done);
      done := [];
    }
    NoChunks();
    MergedForms(hh, kept, done, v);
  }

  lemma NoneApart(hh: HeapRecord, fs: seq<HeapRecord>, cs: seq<HeapRecord>)
    requires AllApart(hh, fs, cs)
    ensures AllApart(hh, fs, []) && NoneFor([]) && (hh.subHeapCompletedCC == null ==> DoneChain(hh, []))
  {
  }

  lemma NullIffEmpty(hh: HeapRecord, fs: seq<HeapRecord>, cs: seq<HeapRecord>)
    requires ForChain(hh, fs) && DoneChain(hh, cs)
    ensures (hh.subHeapForCC == null <==> fs == []) && (hh.subHeapCompletedCC == null <==> cs == [])
  {
  }

  lemma MergedForms(hh: HeapRecord, kept: seq<HeapRecord>, done: seq<HeapRecord>, v: Heap)
    requires ForChain(hh, kept) && DoneChain(hh, done) && AllApart(hh, kept, done) && NoneFor(done)
    requires hh.id == v.id && hh.depth == v.depth && hh.ccstate == v.state && Outs(kept, OutstandingOnes(v.forCC))
    requires var y := Prepend(DoneOnes(v.forCC), v.completedCC);
      if kept == [] then done == [] && hh.chunkList == v.chunks + ChunksIn(y)
      else hh.chunkList == v.chunks && Dones(done, y)
    ensures Forms(hh, kept, done, MergeCompleted(v))
  {
  }

  // ----- splitting and promoting -----

  /** splitHeapForCC. */
  method SplitHeapForCC(hh: HeapRecord, newId: nat, completedId: nat, chunk: nat,
                        ghost fs: seq<HeapRecord>, ghost cs: seq<HeapRecord>, ghost v: Heap)
    returns (newHH: HeapRecord, ghost done: seq<HeapRecord>)
    requires Forms(hh, fs, cs, v)
    modifies hh`subHeapCompletedCC
    ensures Forms(newHH, [hh] + fs, done, Split(v, newId, completedId, chunk)) && fresh(newHH)
    ensures if cs == [] then |done| == 1 && fresh(done[0]) else done == cs
  {
    hide At;
    AtIs(cs, 0);
    AtIs(fs, 0);
    done := cs;
    if hh.subHeapCompletedCC == null {
      var completed := new HeapRecord(completedId, hh.depth);
      completed.ccstate := Done;
      hh.subHeapCompletedCC := completed;
      done := [completed];
    }
    newHH := new HeapRecord(newId, hh.depth);
    newHH.chunkList := [chunk];
    newHH.subHeapForCC := hh;
    newHH.subHeapCompletedCC := hh.subHeapCompletedCC;
    AtIs(done, 0);
    AtIs(done, 1);
    SplitForms(newHH, hh, fs, done, v, newId, completedId, chunk);
  }

  lemma SplitForms(newHH: HeapRecord, hh: HeapRecord, fs: seq<HeapRecord>, done: seq<HeapRecord>, v: Heap,
                   newId: nat, completedId: nat, chunk: nat)
    requires AllApart(hh, fs, done) && newHH != hh && newHH !in fs && newHH !in done && done != []
    requires ForChain(hh, fs) && DoneChain(hh, done) && NoneFor(done) && Top(hh, v) && Outs(fs, v.forCC)
    requires Dones(done, Split(v, newId, completedId, chunk).completedCC)
    requires newHH.id == newId && newHH.depth == v.depth && newHH.chunkList == [chunk] && newHH.ccstate == Unregistered
    requires newHH.subHeapForCC == hh && newHH.subHeapCompletedCC == hh.subHeapCompletedCC
    ensures Forms(newHH, [hh] + fs, done, Split(v, newId, completedId, chunk))
  {
    hide At;
    var all := [hh] + fs;
    AtIs(done, 0);
    AtCons(hh, fs, 0);
    assert Completed(done[0]) == Split(v, newId, completedId, chunk).completedCC[0];
    forall i | 0 <= i < |all| ensures all[i].subHeapForCC == At(all, i + 1) {
      AtCons(hh, fs, i + 1);
    }
  }

  /** HM_HH_promoteChunks without a heap just above. */
  method PromoteChunks(hh: HeapRecord, ghost fs: seq<HeapRecord>, ghost cs: seq<HeapRecord>, ghost v: Heap)
    requires Forms(hh, fs, cs, v) && hh.depth > 0
    modifies hh`depth, fs`depth, cs`depth
    ensures v.depth > 0 && Forms(hh, fs, cs, Promote(v))
  {
    hide *;
    FormsIs(hh, fs, cs, v);
    hh.depth := hh.depth - 1;
    assert Outs(fs, v.forCC) && Dones(cs, v.completedCC);
    SetChainDepths(hh, hh.depth, fs, cs, v.forCC, v.completedCC);
    PromoteIs(hh, v);
    FormsIf(hh, fs, cs, Promote(v));
  }

  lemma PromoteIs(hh: HeapRecord, v: Heap)
    requires v.depth > 0 && hh.id == v.id && hh.depth == v.depth - 1 && hh.chunkList == v.chunks
             && hh.ccstate == v.state
    ensures Top(hh, Promote(v))
    ensures Promote(v).forCC == SetDepths(v.forCC, v.depth - 1)
    ensures Promote(v).completedCC == SetDepths(v.completedCC, v.depth - 1)
  {
  }

  /** The heap below takes over the outstanding sub-heaps of the parent, which
      becomes the first of its completed ones. */
  method TakeOver(parent: HeapRecord, hh: HeapRecord, ghost fs: seq<HeapRecord>, ghost cs: seq<HeapRecord>,
                  ghost linked: Heap, ghost merged: Heap)
    requires Forms(parent, fs, cs, linked) && Top(hh, merged) && hh.depth > 0
    requires hh != parent && hh !in fs && hh !in cs
    modifies parent`ccstate, parent`subHeapForCC, hh`subHeapForCC, hh`subHeapCompletedCC, hh`depth
    ensures merged.depth > 0
    ensures Forms(hh, fs, [parent] + cs, merged.(depth := merged.depth - 1, forCC := linked.forCC, completedCC :=
                  [SubHeap(linked.id, linked.depth, linked.chunks, Done, None)] + linked.completedCC))
  {
    hide At;
    ghost var all := [parent] + cs;
    parent.ccstate := Done;
    hh.subHeapForCC := parent.subHeapForCC;
    hh.subHeapCompletedCC := parent;
    parent.subHeapForCC := null;
    hh.depth := hh.depth - 1;
    AtCons(parent, cs, 0);
    forall i | 0 <= i < |all| ensures all[i].subHeapCompletedCC == At(all, i + 1) {
      AtCons(parent, cs, i + 1);
      assert i > 0 ==> cs[i - 1] in cs;
    }
    assert Outs(fs, linked.forCC) && Dones(cs, linked.completedCC);
  }

  lemma ApartLess(hh1: HeapRecord, f1: seq<HeapRecord>, c1: seq<HeapRecord>, hh2: HeapRecord, f2: seq<HeapRecord>,
                  c2: seq<HeapRecord>, kept: seq<HeapRecord>, done: seq<HeapRecord>)
    requires Apart(hh1, f1, c1, hh2, f2, c2)
    requires (forall n :: n in kept ==> n in f2) && (forall n :: n in done ==> n in f2 || n in c2)
    ensures Apart(hh1, f1, c1, hh2, kept, done)
    ensures (forall n :: n in f1 ==> n !in f2 && n != hh2) && (forall n :: n in c1 ==> n !in f2 && n != hh2)
    ensures forall k :: 0 <= k < |kept| ==> kept[k] in f2
    ensures forall k :: 0 <= k < |done| ==> done[k] in f2 || done[k] in c2
  {
  }

  lemma NotJoined(hh: HeapRecord, a: seq<HeapRecord>, b: seq<HeapRecord>)
    requires hh !in a && hh !in b
    ensures hh !in a + b
  {
  }

  /** Both chains or neither, also after merging. */
  lemma BothOrNeither(v1: Heap, v2: Heap)
    requires ChainOk(v1) && ChainOk(v2)
    ensures (v1.forCC == [] <==> v1.completedCC == [])
    ensures (MergeCompleted(v2).forCC == [] <==> MergeCompleted(v2).completedCC == [])
    ensures MergeCompleted(v2).depth == v2.depth
    ensures LinkChains(v1, MergeCompleted(v2)).1 == MergeCompleted(v2).(forCC := [], completedCC := [])
    ensures LinkChains(v1, MergeCompleted(v2)).0.id == v1.id && LinkChains(v1, MergeCompleted(v2)).0.depth == v1.depth
    ensures LinkChains(v1, MergeCompleted(v2)).0.chunks == v1.chunks
  {
    hide MergeCompleted, LinkChains;
    MergeCompletedKeeps(v2);
    MergeKeepsDepth(v2);
    LinkChainsIs(v1, MergeCompleted(v2));
  }

  /** HM_HH_promoteChunks into the heap just above. */
  method PromoteChunksInto(parent: HeapRecord, hh: HeapRecord,
                           ghost f1: seq<HeapRecord>, ghost c1: seq<HeapRecord>, ghost v1: Heap,
                           ghost f2: seq<HeapRecord>, ghost c2: seq<HeapRecord>, ghost v2: Heap)
    returns (primary: HeapRecord, ghost fs: seq<HeapRecord>, ghost cs: seq<HeapRecord>)
    requires Forms(parent, f1, c1, v1) && Forms(hh, f2, c2, v2) && Apart(parent, f1, c1, hh, f2, c2)
    requires ChainOk(v1) && ChainOk(v2) && v2.depth > 0
    modifies parent, hh, f2, c2
    ensures Forms(primary, fs, cs, PromoteInto(v1, v2))
    ensures primary == if MergeCompleted(v2).forCC == [] then parent else hh
    ensures forall n :: n in fs ==> n in f1 || n in f2
    ensures forall n :: n in cs ==> n == parent || n in c1 || n in f2 || n in c2
  {
    hide *;
    FormsIs(parent, f1, c1, v1);
    ApartIs(parent, f1, c1, hh, f2, c2);
    FormsIs(hh, f2, c2, v2);
    BothOrNeither(v1, v2);
    ghost var merged := MergeCompleted(v2);
    ghost var linked := LinkChains(v1, merged).0;
    var kept, done := MergeCompletedCCs(hh, f2, c2, v2);
    ApartLess(parent, f1, c1, hh, f2, c2, kept, done);
    assert forall n :: n in f1 ==>
                       n.subHeapForCC == old(n.subHeapForCC) && n.subHeapCompletedCC == old(n.subHeapCompletedCC);
    assert forall n :: n in c1 ==>
                       n.subHeapForCC == old(n.subHeapForCC) && n.subHeapCompletedCC == old(n.subHeapCompletedCC);
    assert ForChain(parent, f1) && DoneChain(parent, c1) && NoneFor(c1) && Outs(f1, v1.forCC);
    FormsIf(parent, f1, c1, v1);
    FormsIs(hh, kept, done, merged);
    NullIffEmpty(hh, kept, done);
    PromoteIntoIs(v1, v2);
    fs, cs := kept + f1, done + c1;
    var outstanding := hh.subHeapForCC != null;
    LinkCCChains(parent, hh, f1, c1, v1, kept, done, merged);
    if !outstanding {
      FormsIs(parent, fs, cs, linked);
      parent.chunkList := parent.chunkList + hh.chunkList;
      primary := parent;
      ChunksAdded(parent, fs, cs, linked, hh.chunkList);
    } else {
      FormsIs(hh, [], [], LinkChains(v1, merged).1);
      NotJoined(hh, kept, f1);
      NotJoined(hh, done, c1);
      TopIs(hh, LinkChains(v1, merged).1, merged);
      TakeOver(parent, hh, fs, cs, linked, merged);
      primary := hh;
      cs := [parent] + cs;
    }
  }

  lemma PromoteIntoIs(v1: Heap, v2: Heap)
    requires v2.depth > 0 && MergeCompleted(v2).depth == v2.depth
    requires var linked := LinkChains(v1, MergeCompleted(v2)).0;
      linked.id == v1.id && linked.depth == v1.depth && linked.chunks == v1.chunks
    ensures var merged := MergeCompleted(v2);
      var linked := LinkChains(v1, merged).0;
      PromoteInto(v1, v2) ==
        if merged.forCC == [] then linked.(chunks := linked.chunks + merged.chunks)
        else merged.(depth := merged.depth - 1, forCC := linked.forCC, completedCC :=
                     [SubHeap(linked.id, linked.depth, linked.chunks, Done, None)] + linked.completedCC)
  {
  }

  lemma ChunksAdded(hh: HeapRecord, fs: seq<HeapRecord>, cs: seq<HeapRecord>, v: Heap, more: seq<nat>)
    requires AllApart(hh, fs, cs) && ForChain(hh, fs) && DoneChain(hh, cs) && NoneFor(cs)
    requires hh.id == v.id && hh.depth == v.depth && hh.ccstate == v.state && hh.chunkList == v.chunks + more
    requires Outs(fs, v.forCC) && Dones(cs, v.completedCC)
    ensures Forms(hh, fs, cs, v.(chunks := v.chunks + more))
  {
  }

  // ----- what joining and collecting do -----

  /** What a zip does to two heaps at one depth. */
  method JoinHeaps(hh1: HeapRecord, hh2: HeapRecord,
                   ghost f1: seq<HeapRecord>, ghost c1: seq<HeapRecord>, ghost v1: Heap,
                   ghost f2: seq<HeapRecord>, ghost c2: seq<HeapRecord>, ghost v2: Heap)
    requires Forms(hh1, f1, c1, v1) && Forms(hh2, f2, c2, v2) && Apart(hh1, f1, c1, hh2, f2, c2)
    requires ChainOk(v1) && ChainOk(v2)
    modifies hh1`subHeapForCC, hh1`subHeapCompletedCC, hh1`chunkList, hh2`subHeapForCC, hh2`subHeapCompletedCC
    modifies f2`depth, f2`subHeapForCC, c2`depth, c2`subHeapCompletedCC
    ensures Forms(hh1, f2 + f1, c2 + c1, Join(v1, v2))
  {
    hide *;
    FormsIs(hh1, f1, c1, v1);
    FormsIs(hh2, f2, c2, v2);
    ApartIs(hh1, f1, c1, hh2, f2, c2);
    JoinIs(v1, v2);
    LinkCCChains(hh1, hh2, f1, c1, v1, f2, c2, v2);
    FormsIs(hh1, f2 + f1, c2 + c1, LinkChains(v1, v2).0);
    FormsIs(hh2, [], [], LinkChains(v1, v2).1);
    hh1.chunkList := hh1.chunkList + hh2.chunkList;
    ChunksAdded(hh1, f2 + f1, c2 + c1, LinkChains(v1, v2).0, v2.chunks);
  }

  lemma JoinIs(v1: Heap, v2: Heap)
    requires ChainOk(v1) && ChainOk(v2)
    ensures (v1.forCC == [] <==> v1.completedCC == []) && (v2.forCC == [] <==> v2.completedCC == [])
    ensures LinkChains(v1, v2).1.chunks == v2.chunks
    ensures Join(v1, v2) == LinkChains(v1, v2).0.(chunks := LinkChains(v1, v2).0.chunks + v2.chunks)
  {
    hide LinkChains;
    LinkChainsIs(v1, v2);
  }

  /** What a collection does to the record of an outstanding sub-heap. */
  method SetSubHeap(hh: HeapRecord, sub: HeapRecord, state: CcState, chunks: seq<nat>,
                    ghost k: nat, ghost fs: seq<HeapRecord>, ghost cs: seq<HeapRecord>, ghost v: Heap)
    requires Forms(hh, fs, cs, v) && k < |fs| && sub == fs[k]
    modifies sub`ccstate, sub`chunkList
    ensures k < |v.forCC| && Forms(hh, fs, cs, SetSub(v, k, v.forCC[k].(state := state, chunks := chunks)))
  {
    hide ForChain, DoneChain, NoneFor;
    assert sub in fs;
    sub.ccstate, sub.chunkList := state, chunks;
    ghost var x := v.forCC[k := v.forCC[k].(state := state, chunks := chunks)];
    assert Outs(fs, x) by {
      assert forall i :: 0 <= i < |fs| && i != k ==> Outstanding(fs[i]) == old(Outstanding(fs[i]));
    }
    assert Dones(cs, v.completedCC) by {
      assert forall i :: 0 <= i < |cs| ==> cs[i] in cs;
    }
  }
}
