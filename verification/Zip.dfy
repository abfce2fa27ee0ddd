/**
 Zipping two chains of heaps, each strictly sorted by depth, at a join: heaps at
 the same depth are united, and every chunk finds its heap afterwards.
 */
module Zipping {
  import opened Options
  import opened Heaps
  import opened Dependants
  import opened LevelHeads

  // ----- chains -----

  ghost predicate Chain(h: HierarchicalHeap?, s: seq<HierarchicalHeap>)
    reads s
  {
    if s == [] then h == null else h == s[0] && Chain(s[0].nextAncestor, s[1..])
  }

  predicate Sorted(s: seq<HierarchicalHeap>) {
    forall i, j :: 0 <= i < j < |s| ==> s[i].depth > s[j].depth
  }

  predicate Above(s: seq<HierarchicalHeap>, rest: seq<HierarchicalHeap>) {
    forall i, j :: 0 <= i < |s| && 0 <= j < |rest| ==> s[i].depth > rest[j].depth
  }

  /** What a heap contributes, apart from its place in the chain. */
  datatype Level = Level(depth: nat, chunks: seq<Chunk>, size: nat, dependants: nat)

  function LevelOf(h: HierarchicalHeap): Level
    reads h
  {
    Level(h.depth, h.chunkList, h.size, h.numDependants)
  }

  ghost predicate HasLevels(s: seq<HierarchicalHeap>, levels: seq<Level>)
    reads s
  {
    |s| == |levels| && forall k :: 0 <= k < |s| ==> LevelOf(s[k]) == levels[k]
  }

  // ----- the specification -----

  function Unite(a: Level, b: Level): Level {
    Level(a.depth, a.chunks + b.chunks, a.size + b.size, a.dependants + 1 + b.dependants)
  }

  function ZipLevels(a: seq<Level>, b: seq<Level>): seq<Level> {
    if a == [] then b
    else if b == [] then a
    else if a[0].depth == b[0].depth then [Unite(a[0], b[0])] + ZipLevels(a[1..], b[1..])
    else if a[0].depth > b[0].depth then [a[0]] + ZipLevels(a[1..], b)
    else [b[0]] + ZipLevels(a, b[1..])
  }

  predicate SortedLevels(a: seq<Level>) {
    forall i, j :: 0 <= i < j < |a| ==> a[i].depth > a[j].depth
  }

  /** The level at a depth, if there is one. */
  function AtDepth(a: seq<Level>, d: nat): Option<Level> {
    if a == [] then None else if a[0].depth == d then Some(a[0]) else AtDepth(a[1..], d)
  }

  /** What there is at a depth; nothing if there is no heap. */
  datatype Held = Held(there: bool, chunks: seq<Chunk>, size: nat, dependants: nat)

  function HeldIn(a: seq<Level>, d: nat): Held {
    match AtDepth(a, d)
    case None => Held(false, [], 0, 0)
    case Some(l) => Held(true, l.chunks, l.size, l.dependants)
  }

  predicate Under(a: seq<Level>, d: nat) { forall i :: 0 <= i < |a| ==> a[i].depth < d }

  lemma {:induction false} ZipUnder(a: seq<Level>, b: seq<Level>, d: nat)
    requires Under(a, d) && Under(b, d)
    ensures Under(ZipLevels(a, b), d)
  {
    if a != [] && b != [] {
      if a[0].depth == b[0].depth { ZipUnder(a[1..], b[1..], d); }
      else if a[0].depth > b[0].depth { ZipUnder(a[1..], b, d); }
      else { ZipUnder(a, b[1..], d); }
    }
  }

  lemma {:induction false} AbsentAbove(a: seq<Level>, d: nat)
    requires Under(a, d)
    ensures AtDepth(a, d).None?
  {
    if a == [] {
    } else {
      AbsentAbove(a[1..], d);
    }
  }

  lemma {:induction false} ZipAt(a: seq<Level>, b: seq<Level>, d: nat)
    requires SortedLevels(a) && SortedLevels(b)
    ensures SortedLevels(ZipLevels(a, b))
    ensures AtDepth(ZipLevels(a, b), d)
         == if AtDepth(a, d).None? then AtDepth(b, d) else if AtDepth(b, d).None? then AtDepth(a, d)
            else Some(Unite(AtDepth(a, d).value, AtDepth(b, d).value))
    decreases |a| + |b|
  {
    if a == [] || b == [] {
    } else if a[0].depth == b[0].depth {
      ZipAt(a[1..], b[1..], d);
      ZipUnder(a[1..], b[1..], a[0].depth);
      AbsentAbove(a[1..], a[0].depth);
      AbsentAbove(b[1..], a[0].depth);
    } else if a[0].depth > b[0].depth {
      ZipAt(a[1..], b, d);
      ZipUnder(a[1..], b, a[0].depth);
      AbsentAbove(b, a[0].depth);
    } else {
      ZipAt(a, b[1..], d);
      ZipUnder(a, b[1..], b[0].depth);
      AbsentAbove(a, b[0].depth);
    }
  }

  /** The result is strictly sorted, and has at each depth what the two chains had
      there: the first one's chunks and then the second one's, the sizes added, and
      the dependants, with one more if a heap is absorbed. */
  lemma ZipIsUnion(a: seq<Level>, b: seq<Level>, d: nat)
    requires SortedLevels(a) && SortedLevels(b)
    ensures SortedLevels(ZipLevels(a, b))
    ensures var x, y := HeldIn(a, d), HeldIn(b, d);
      HeldIn(ZipLevels(a, b), d) ==
        Held(x.there || y.there, x.chunks + y.chunks, x.size + y.size,
             x.dependants + y.dependants + if x.there && y.there then 1 else 0)
  {
    hide ZipLevels, AtDepth;
    ZipAt(a, b, d);
  }

  function ChunkBag(a: seq<Level>): multiset<Chunk> {
    if a == [] then multiset{} else multiset(a[0].chunks) + ChunkBag(a[1..])
  }

  function SizeSum(a: seq<Level>): nat { if a == [] then 0 else a[0].size + SizeSum(a[1..]) }

  /** No chunk is lost or doubled, and the total size is kept. */
  lemma {:induction false} ZipKeepsChunks(a: seq<Level>, b: seq<Level>)
    ensures ChunkBag(ZipLevels(a, b)) == ChunkBag(a) + ChunkBag(b)
    ensures SizeSum(ZipLevels(a, b)) == SizeSum(a) + SizeSum(b)
    decreases |a| + |b|
  {
    if a == [] || b == [] {
    } else if a[0].depth == b[0].depth {
      ZipKeepsChunks(a[1..], b[1..]);
    } else if a[0].depth > b[0].depth {
      ZipKeepsChunks(a[1..], b);
    } else {
      ZipKeepsChunks(a, b[1..]);
    }
  }

  // ----- the same, read off the heaps themselves -----

  /** What the heap at this depth has. */
  ghost function HeldAt(s: seq<HierarchicalHeap>, d: nat): Held
    reads s
  {
    if s == [] then Held(false, [], 0, 0)
    else if s[0].depth == d then Held(true, s[0].chunkList, s[0].size, s[0].numDependants)
    else HeldAt(s[1..], d)
  }

  ghost function AllChunks(s: seq<HierarchicalHeap>): multiset<Chunk>
    reads s
  {
    if s == [] then multiset{} else multiset(s[0].chunkList) + AllChunks(s[1..])
  }

  ghost function TotalSize(s: seq<HierarchicalHeap>): nat
    reads s
  {
    if s == [] then 0 else s[0].size + TotalSize(s[1..])
  }

  lemma {:induction false} AtLevels(s: seq<HierarchicalHeap>, levels: seq<Level>, d: nat)
    requires HasLevels(s, levels)
    ensures HeldAt(s, d) == HeldIn(levels, d)
  {
    if s == [] {
    } else {
      assert LevelOf(s[0]) == levels[0];
      AtLevels(s[1..], levels[1..], d);
    }
  }

  lemma {:induction false} SumLevels(s: seq<HierarchicalHeap>, levels: seq<Level>)
    requires HasLevels(s, levels)
    ensures AllChunks(s) == ChunkBag(levels) && TotalSize(s) == SizeSum(levels)
  {
    if s == [] {
    } else {
      assert LevelOf(s[0]) == levels[0];
      SumLevels(s[1..], levels[1..]);
    }
  }

  lemma {:induction false} AtOwnDepth(s: seq<HierarchicalHeap>, k: nat)
    requires Sorted(s) && k < |s|
    ensures HeldAt(s, s[k].depth) == Held(true, s[k].chunkList, s[k].size, s[k].numDependants)
  {
    if k == 0 {
    } else {
      AtOwnDepth(s[1..], k - 1);
    }
  }

  // ----- the heaps that are in use -----

  ghost predicate HeapOk(h: HierarchicalHeap, f: Forest, t: Tree)
    reads h, h.ufNode, h.chunkList, Nodes(t)
  {
    && h.ufNode in f.root && f.root[h.ufNode] == h.ufNode && h.ufNode.payload == h
    && Owns(h, t) && Nodes(t) <= f.root.Keys
    && forall k :: 0 <= k < |h.chunkList| ==>
         h.chunkList[k].levelHead in f.root && f.root[h.chunkList[k].levelHead] == h.ufNode
  }

  ghost predicate Apart(h: HierarchicalHeap, t: Tree, h': HierarchicalHeap, t': Tree) {
    h.ufNode != h'.ufNode && h.ufNode !in Nodes(t') && h'.ufNode !in Nodes(t) && Nodes(t) !! Nodes(t')
  }

  ghost predicate World(live: set<HierarchicalHeap>, f: Forest, trees: map<HierarchicalHeap, Tree>)
    reads *
  {
    && live <= trees.Keys && Leads(f)
    && (forall h :: h in live ==> HeapOk(h, f, trees[h]))
    && (forall h, h' :: h in live && h' in live && h != h' ==> Apart(h, trees[h], h', trees[h']))
  }

  /** HM_HH_new: a heap on its own is in order. */
  method NewHeap(depth: nat) returns (hh: HierarchicalHeap, ghost f: Forest)
    ensures fresh(hh) && fresh(hh.ufNode) && hh.depth == depth && LevelOf(hh) == Level(depth, [], 0, 0)
    ensures World({hh}, f, map[hh := Nil]) && f.root == map[hh.ufNode := hh.ufNode] && hh.nextAncestor == null
  {
    var uf := new UFNode();
    hh := new HierarchicalHeap(uf, depth);
    uf.payload := hh;
    f := Forest(map[uf := uf], map[uf := 0]);
    Pack(hh);
  }

  lemma RelinkOther(h: HierarchicalHeap, f: Forest, t: Tree, left: UFNode, right: UFNode)
    requires HeapOk(h, f, t) && h.ufNode != right && h.ufNode != left
    requires f.height.Keys == f.root.Keys && left in f.root && right in f.root
    ensures HeapOk(h, Linked(f, left, right), t)
  {
    hide Owns;
  }

  lemma RelinkThis(h: HierarchicalHeap, f: Forest, t: Tree, right: UFNode, chunks1: seq<Chunk>, chunks2: seq<Chunk>)
    requires h.ufNode in f.root && f.root[h.ufNode] == h.ufNode && h.ufNode.payload == h && Owns(h, t)
    requires f.height.Keys == f.root.Keys && right in f.root && right != h.ufNode && Nodes(t) <= f.root.Keys
    requires h.chunkList == chunks1 + chunks2
    requires forall c :: c in chunks1 ==> c.levelHead in f.root && f.root[c.levelHead] == h.ufNode
    requires forall c :: c in chunks2 ==> c.levelHead in f.root && f.root[c.levelHead] == right
    ensures HeapOk(h, Linked(f, h.ufNode, right), t)
  {
    hide Owns;
  }

  /** A heap that grows its tree by another one's stays apart from the rest. */
  lemma StillApart(live: set<HierarchicalHeap>, trees: map<HierarchicalHeap, Tree>,
                   hh1: HierarchicalHeap, hh2: HierarchicalHeap, h: HierarchicalHeap, h': HierarchicalHeap)
    requires live <= trees.Keys && hh1 in live && hh2 in live && h in live && h' in live
    requires forall x, y :: x in live && y in live && x != y ==> Apart(x, trees[x], y, trees[y])
    requires hh1 != hh2 && h != h' && h != hh2 && h' != hh2
    ensures var t := Node(hh2.ufNode, trees[hh2], trees[hh1]);
      Apart(h, if h == hh1 then t else trees[h], h', if h' == hh1 then t else trees[h'])
  {
    assert Apart(h, trees[h], h', trees[h']);
    assert Apart(h, trees[h], hh2, trees[hh2]);
    assert Apart(hh2, trees[hh2], h', trees[h']);
    assert h == hh1 ==> Apart(h, trees[h], hh2, trees[hh2]);
  }

  /** linkInto, seen from the forest of representatives. */
  method LinkHeaps(hh1: HierarchicalHeap, hh2: HierarchicalHeap, ghost f: Forest, ghost t1: Tree, ghost t2: Tree,
                   ghost others: map<HierarchicalHeap, Tree>)
    requires forall h :: h in others ==> HeapOk(h, f, others[h]) && h != hh1 && h != hh2
    requires forall h :: h in others ==> Apart(hh1, t1, h, others[h]) && Apart(hh2, t2, h, others[h])
    requires Leads(f) && HeapOk(hh1, f, t1) && HeapOk(hh2, f, t2) && Apart(hh1, t1, hh2, t2) && hh1 != hh2
    modifies hh1`numDependants, hh1`heightDependants, hh1.ufNode`dependant1
    modifies hh2.ufNode`dependant2, hh2.ufNode`representative
    ensures Leads(Linked(f, hh1.ufNode, hh2.ufNode)) && Owns(hh1, Node(hh2.ufNode, t2, t1))
    ensures hh1.numDependants == old(hh1.numDependants) + 1 + hh2.numDependants
    ensures hh2.ufNode.representative == hh1.ufNode && f.height.Keys == f.root.Keys
    ensures forall h :: h in others ==> HeapOk(h, f, others[h])
  {
    hide Nodes, Holds, Proper, Size, Height, Fits, Linked;
    ghost var left, right := hh1.ufNode, hh2.ufNode;
    assert Apart(hh2, t2, hh1, t1);
    forall n | n in f.root
      ensures Fits(Linked(f, left, right), n, if n == right then left else n.representative)
    {
      LinkFits(f, left, right, n, n.representative);
    }
    LinkKeys(f, left, right);
    LinkInto(hh1, hh2, t1, t2);
    forall h | h in others ensures HeapOk(h, f, others[h]) {
      assert Apart(hh1, t1, h, others[h]) && Apart(hh2, t2, h, others[h]);
      assert old(HeapOk(h, f, others[h]));
    }
  }

  lemma LinkKeys(f: Forest, left: UFNode, right: UFNode)
    requires f.height.Keys == f.root.Keys && left in f.root && right in f.root
    ensures Linked(f, left, right).root.Keys == f.root.Keys == Linked(f, left, right).height.Keys
  {
  }

  /** HM_appendChunkList. */
  method AppendChunkList(hh1: HierarchicalHeap, hh2: HierarchicalHeap, ghost f: Forest, ghost t: Tree,
                         ghost others: map<HierarchicalHeap, Tree>)
    requires Owns(hh1, t) && Leads(f)
    requires forall h :: h in others ==> HeapOk(h, f, others[h]) && h != hh1
    modifies hh1`chunkList, hh1`size
    ensures Owns(hh1, t) && hh1.chunkList == old(hh1.chunkList) + old(hh2.chunkList)
    ensures hh1.size == old(hh1.size) + old(hh2.size)
    ensures Leads(f) && forall h :: h in others ==> HeapOk(h, f, others[h])
  {
    hide Nodes, Holds, Proper, Size, Height;
    hh1.chunkList := hh1.chunkList + hh2.chunkList;
    hh1.size := hh1.size + hh2.size;
  }

  /** One level of the zip: linkInto, then the second chunk list goes behind the
      first. */
  method MergeLevel(hh1: HierarchicalHeap, hh2: HierarchicalHeap, ghost live: set<HierarchicalHeap>, ghost f: Forest,
                    ghost trees: map<HierarchicalHeap, Tree>)
    returns (ghost f': Forest, ghost trees': map<HierarchicalHeap, Tree>)
    requires World(live, f, trees) && hh1 in live && hh2 in live && hh1 != hh2 && hh1.depth == hh2.depth
    modifies hh1, hh1.ufNode, hh2.ufNode
    ensures World(live - {hh2}, f', trees')
    ensures hh1.chunkList == old(hh1.chunkList) + old(hh2.chunkList) && hh1.size == old(hh1.size) + old(hh2.size)
    ensures hh1.numDependants == old(hh1.numDependants) + 1 + old(hh2.numDependants)
    ensures hh1.nextAncestor == old(hh1.nextAncestor)
    ensures hh2.ufNode.representative == hh1.ufNode
    ensures f' == Linked(f, hh1.ufNode, hh2.ufNode)
  {
    hide Owns, Nodes, Linked, Leads, HeapOk;
    ghost var t1, t2 := trees[hh1], trees[hh2];
    ghost var left, right := hh1.ufNode, hh2.ufNode;
    ghost var others := map h | h in live && h != hh1 && h != hh2 :: trees[h];
    ChunksOf(hh1, f, t1);
    ChunksOf(hh2, f, t2);
    JoinNodes(right, t2, t1);
    var chunks1, chunks2 := hh1.chunkList, hh2.chunkList;
    f', trees' := Linked(f, left, right), trees[hh1 := Node(right, t2, t1)];
    LinkHeaps(hh1, hh2, f, t1, t2, others);
    forall h | h in others ensures HeapOk(h, f', others[h]) {
      RelinkOther(h, f, others[h], left, right);
    }
    AppendChunkList(hh1, hh2, f', trees'[hh1], others);
    RelinkThis(hh1, f, trees'[hh1], right, chunks1, chunks2);
    forall h | h in live - {hh2} ensures HeapOk(h, f', trees'[h]) {
      assert h == hh1 || h in others;
    }
    forall h, h' | h in live - {hh2} && h' in live - {hh2} && h != h' ensures Apart(h, trees'[h], h', trees'[h']) {
      StillApart(live, trees, hh1, hh2, h, h');
    }
  }

  lemma ChunksOf(h: HierarchicalHeap, f: Forest, t: Tree)
    requires HeapOk(h, f, t) && Leads(f)
    ensures forall c :: c in h.chunkList ==> c.levelHead in f.root && f.root[c.levelHead] == h.ufNode
    ensures h.ufNode in f.root && f.root[h.ufNode] == h.ufNode && h.ufNode.payload == h
    ensures f.height.Keys == f.root.Keys && Nodes(t) <= f.root.Keys
  {
  }

  lemma JoinNodes(n: UFNode, l: Tree, r: Tree)
    ensures Nodes(Node(n, l, r)) == {n} + Nodes(l) + Nodes(r)
  {
  }

  // ----- the loop -----

  /** The finished part: linked up to its last heap, whose next pointer is still
      to be stored. */
  ghost predicate Prefix(result: HierarchicalHeap?, done: seq<HierarchicalHeap>)
    reads done
  {
    if done == [] then result == null
    else result == done[0] && forall k :: 0 <= k < |done| - 1 ==> done[k].nextAncestor == done[k + 1]
  }

  lemma {:induction false} PrefixChain(result: HierarchicalHeap, done: seq<HierarchicalHeap>,
                                       rest: seq<HierarchicalHeap>)
    requires done != [] && Prefix(result, done) && Chain(done[|done| - 1].nextAncestor, rest)
    ensures Chain(result, done + rest)
    decreases |done|
  {
    var tail := done[1..];
    assert (done + rest)[1..] == tail + rest;
    if tail == [] {
      assert tail + rest == rest;
    } else {
      PrefixChain(tail[0], tail, rest);
    }
  }

  /** Everything the loop knows that the program does not store: the heaps that
      are finished and those left of either chain, with their levels. */
  datatype Progress = Progress(
    done: seq<HierarchicalHeap>, rest1: seq<HierarchicalHeap>, rest2: seq<HierarchicalHeap>,
    doneLevels: seq<Level>, levels1: seq<Level>, levels2: seq<Level>,
    live: set<HierarchicalHeap>, forest: Forest, trees: map<HierarchicalHeap, Tree>)

  /** The levels that the result will have. */
  function Total(z: Progress): seq<Level> { z.doneLevels + ZipLevels(z.levels1, z.levels2) }

  predicate AllIn(s: seq<HierarchicalHeap>, live: set<HierarchicalHeap>) {
    forall k :: 0 <= k < |s| ==> s[k] in live
  }

  predicate Ordered(z: Progress) {
    && Sorted(z.done) && Sorted(z.rest1) && Sorted(z.rest2)
    && Above(z.done, z.rest1) && Above(z.done, z.rest2)
    && (forall i, j :: 0 <= i < |z.rest1| && 0 <= j < |z.rest2| ==> z.rest1[i] != z.rest2[j])
    && AllIn(z.done, z.live) && AllIn(z.rest1, z.live) && AllIn(z.rest2, z.live)
  }

  ghost predicate Leveled(z: Progress)
    reads z.done, z.rest1, z.rest2
  {
    HasLevels(z.done, z.doneLevels) && HasLevels(z.rest1, z.levels1) && HasLevels(z.rest2, z.levels2)
  }

  ghost predicate Common(z: Progress, hh1: HierarchicalHeap?, hh2: HierarchicalHeap?)
    reads *
  {
    && World(z.live, z.forest, z.trees) && Ordered(z) && Leveled(z)
    && Chain(hh1, z.rest1) && Chain(hh2, z.rest2)
  }

  ghost predicate IsLast(last: HierarchicalHeap?, done: seq<HierarchicalHeap>) {
    if done == [] then last == null else last == done[|done| - 1]
  }

  ghost predicate InProgress(z: Progress, result: HierarchicalHeap?, last: HierarchicalHeap?,
                             hh1: HierarchicalHeap?, hh2: HierarchicalHeap?)
    reads *
  {
    && Common(z, hh1, hh2) && Prefix(result, z.done) && IsLast(last, z.done)
    && (last != null ==> last.nextAncestor == hh1 || last.nextAncestor == hh2)
  }

  // What one turn of the loop makes of the progress:

  function Merged(z: Progress, forest: Forest, trees: map<HierarchicalHeap, Tree>): Progress
    requires z.rest1 != [] && z.rest2 != [] && z.levels1 != [] && z.levels2 != []
  {
    Progress(z.done + [z.rest1[0]], z.rest1[1..], z.rest2[1..],
             z.doneLevels + [Unite(z.levels1[0], z.levels2[0])], z.levels1[1..], z.levels2[1..],
             z.live - {z.rest2[0]}, forest, trees)
  }

  function TookFirst(z: Progress): Progress
    requires z.rest1 != [] && z.levels1 != []
  {
    z.(done := z.done + [z.rest1[0]], rest1 := z.rest1[1..],
       doneLevels := z.doneLevels + [z.levels1[0]], levels1 := z.levels1[1..])
  }

  function TookSecond(z: Progress): Progress
    requires z.rest2 != [] && z.levels2 != []
  {
    z.(done := z.done + [z.rest2[0]], rest2 := z.rest2[1..],
       doneLevels := z.doneLevels + [z.levels2[0]], levels2 := z.levels2[1..])
  }

  lemma TotalStays(z: Progress, forest: Forest, trees: map<HierarchicalHeap, Tree>)
    requires Leveled(z) && z.rest1 != [] && z.rest2 != []
    ensures z.rest1[0].depth == z.rest2[0].depth ==> Total(Merged(z, forest, trees)) == Total(z)
    ensures z.rest1[0].depth > z.rest2[0].depth ==> Total(TookFirst(z)) == Total(z)
    ensures z.rest1[0].depth < z.rest2[0].depth ==> Total(TookSecond(z)) == Total(z)
  {
    assert LevelOf(z.rest1[0]) == z.levels1[0] && LevelOf(z.rest2[0]) == z.levels2[0];
  }

  lemma PushOrder(done: seq<HierarchicalHeap>, h: HierarchicalHeap, rest: seq<HierarchicalHeap>)
    requires Sorted(done) && Above(done, [h]) && Above(done, rest) && Above([h], rest)
    ensures Sorted(done + [h]) && Above(done + [h], rest)
  {
    assert forall k :: 0 <= k < |done| ==> done[k].depth > [h][0].depth;
  }

  lemma TailOrder(s: seq<HierarchicalHeap>, above: seq<HierarchicalHeap>, live: set<HierarchicalHeap>)
    requires s != [] && Sorted(s) && Above(above, s) && AllIn(s, live)
    ensures Sorted(s[1..]) && Above([s[0]], s[1..]) && Above(above, s[1..]) && Above(above, [s[0]])
    ensures AllIn(s[1..], live) && AllIn(s[1..], live - {s[0]}) && s[0] in live
  {
  }

  lemma HeadAbove(h: HierarchicalHeap, s: seq<HierarchicalHeap>)
    requires Sorted(s) && s != [] && h.depth > s[0].depth
    ensures Above([h], s)
  {
  }

  lemma AllInPush(done: seq<HierarchicalHeap>, h: HierarchicalHeap, live: set<HierarchicalHeap>)
    requires AllIn(done, live) && h in live
    ensures AllIn(done + [h], live)
  {
  }

  /** The heap that is absorbed is none of the others. */
  lemma AllInLess(s: seq<HierarchicalHeap>, live: set<HierarchicalHeap>, h: HierarchicalHeap)
    requires AllIn(s, live) && forall k :: 0 <= k < |s| ==> s[k] != h
    ensures AllIn(s, live - {h})
  {
  }

  lemma FirstOrder(z: Progress)
    requires Ordered(z) && z.rest1 != [] && z.rest2 != [] && z.levels1 != []
    requires z.rest1[0].depth > z.rest2[0].depth
    ensures Ordered(TookFirst(z))
  {
    hide Sorted, Above, AllIn;
    TailOrder(z.rest1, z.done, z.live);
    HeadAbove(z.rest1[0], z.rest2);
    PushOrder(z.done, z.rest1[0], z.rest1[1..]);
    PushOrder(z.done, z.rest1[0], z.rest2);
    AllInPush(z.done, z.rest1[0], z.live);
  }

  lemma SecondOrder(z: Progress)
    requires Ordered(z) && z.rest1 != [] && z.rest2 != [] && z.levels2 != []
    requires z.rest1[0].depth < z.rest2[0].depth
    ensures Ordered(TookSecond(z))
  {
    hide Sorted, Above, AllIn;
    TailOrder(z.rest2, z.done, z.live);
    HeadAbove(z.rest2[0], z.rest1);
    PushOrder(z.done, z.rest2[0], z.rest1);
    PushOrder(z.done, z.rest2[0], z.rest2[1..]);
    AllInPush(z.done, z.rest2[0], z.live);
  }

  lemma MergedOrder(z: Progress, forest: Forest, trees: map<HierarchicalHeap, Tree>)
    requires Ordered(z) && z.rest1 != [] && z.rest2 != [] && z.levels1 != [] && z.levels2 != []
    requires z.rest1[0].depth == z.rest2[0].depth
    ensures Ordered(Merged(z, forest, trees)) && z.rest1[0] != z.rest2[0]
    ensures z.rest1[0] in z.live && z.rest2[0] in z.live
  {
    var h1, h2 := z.rest1[0], z.rest2[0];
    assert Above([h1], z.rest2[1..]) && (forall k :: 0 <= k < |z.done| ==> z.done[k] != h2);
    hide Sorted, Above, AllIn;
    TailOrder(z.rest1, z.done, z.live);
    TailOrder(z.rest2, z.done, z.live);
    PushOrder(z.done, h1, z.rest1[1..]);
    PushOrder(z.done, h1, z.rest2[1..]);
    AllInPush(z.done, h1, z.live);
    AllInLess(z.done + [h1], z.live, h2);
    AllInLess(z.rest1[1..], z.live, h2);
  }

  lemma LastIsApart(z: Progress)
    requires Ordered(z) && |z.done| >= 2
    ensures var last := z.done[|z.done| - 2];
      && (forall k :: 0 <= k < |z.rest1| ==> z.rest1[k] != last)
      && (forall k :: 0 <= k < |z.rest2| ==> z.rest2[k] != last)
      && (forall k :: 0 <= k < |z.done| && k != |z.done| - 2 ==> z.done[k] != last)
  {
  }

  lemma HeadIsApart(z: Progress)
    requires Ordered(z) && z.rest1 != []
    ensures var h := z.rest1[0];
      && (forall k :: 0 < k < |z.rest1| ==> z.rest1[k] != h)
      && (forall k :: 0 <= k < |z.rest2| ==> z.rest2[k] != h)
      && (forall k :: 0 <= k < |z.done| ==> z.done[k] != h && z.done[k] in z.live)
  {
  }

  /** Storing a next pointer touches nothing that the heaps stand for. */
  method SetNext(h: HierarchicalHeap, next: HierarchicalHeap?, ghost z: Progress)
    requires World(z.live, z.forest, z.trees) && Leveled(z)
    modifies h`nextAncestor
    ensures World(z.live, z.forest, z.trees) && Leveled(z) && h.nextAncestor == next
  {
    hide Nodes, Holds, Proper, Size, Height, Fits;
    h.nextAncestor := next;
  }

  /** The next heap of the result is stored through the cursor. */
  method Emit(result: HierarchicalHeap?, ghost done: seq<HierarchicalHeap>, last: HierarchicalHeap?,
              h: HierarchicalHeap, hh1: HierarchicalHeap?, hh2: HierarchicalHeap?, ghost z: Progress)
    returns (result': HierarchicalHeap)
    requires Common(z, hh1, hh2) && z.done == done + [h]
    requires Prefix(result, done) && IsLast(last, done)
    requires h.nextAncestor == hh1 || h.nextAncestor == hh2
    modifies (if done == [] then {} else {done[|done| - 1]})`nextAncestor
    ensures InProgress(z, result', h, hh1, hh2)
  {
    hide World, Ordered, Leveled;
    if last == null {
      result' := h;
    } else {
      LastIsApart(z);
      assert forall k :: 0 <= k < |done| ==> z.done[k] == done[k];
      SetNext(last, h, z);
      result' := result;
    }
    assert Chain(hh1, z.rest1);
    assert Chain(hh2, z.rest2);
    assert IsLast(h, z.done);
    assert Prefix(result', z.done);
    assert h.nextAncestor == hh1 || h.nextAncestor == hh2;
  }

  /** Both chains have a heap at this depth. */
  method MergeStep(result: HierarchicalHeap?, last: HierarchicalHeap?, hh1: HierarchicalHeap, hh2: HierarchicalHeap,
                   ghost z: Progress)
    returns (result': HierarchicalHeap, hh1': HierarchicalHeap?, hh2': HierarchicalHeap?, ghost z': Progress)
    requires InProgress(z, result, last, hh1, hh2) && hh1.depth == hh2.depth
    modifies z.live, set h | h in z.live :: h.ufNode
    ensures InProgress(z', result', hh1, hh1', hh2') && Total(z') == Total(z) && z'.live <= z.live
    ensures |z'.rest1| + |z'.rest2| < |z.rest1| + |z.rest2|
  {
    hide World, Ordered;
    HeadIsApart(z);
    TotalStays(z, z.forest, z.trees);
    var hh2anc := hh2.nextAncestor;
    ghost var f, trees;
    MergedOrder(z, z.forest, z.trees);
    f, trees := MergeLevel(hh1, hh2, z.live, z.forest, z.trees);
    MergedOrder(z, f, trees);
    hh1', hh2' := hh1.nextAncestor, hh2anc;
    z' := Merged(z, f, trees);
    result' := Emit(result, z.done, last, hh1, hh1', hh2', z');
  }

  /** The first chain's next heap is deeper. */
  method TakeFirst(result: HierarchicalHeap?, last: HierarchicalHeap?, hh1: HierarchicalHeap, hh2: HierarchicalHeap,
                   ghost z: Progress)
    returns (result': HierarchicalHeap, hh1': HierarchicalHeap?, ghost z': Progress)
    requires InProgress(z, result, last, hh1, hh2) && hh1.depth > hh2.depth
    modifies z.live
    ensures InProgress(z', result', hh1, hh1', hh2) && Total(z') == Total(z) && z'.live <= z.live
    ensures |z'.rest1| + |z'.rest2| < |z.rest1| + |z.rest2|
  {
    hide World, Above;
    hh1' := hh1.nextAncestor;
    TotalStays(z, z.forest, z.trees);
    FirstOrder(z);
    z' := TookFirst(z);
    result' := Emit(result, z.done, last, hh1, hh1', hh2, z');
  }

  /** The second chain's next heap is deeper. */
  method TakeSecond(result: HierarchicalHeap?, last: HierarchicalHeap?, hh1: HierarchicalHeap, hh2: HierarchicalHeap,
                    ghost z: Progress)
    returns (result': HierarchicalHeap, hh2': HierarchicalHeap?, ghost z': Progress)
    requires InProgress(z, result, last, hh1, hh2) && hh1.depth < hh2.depth
    modifies z.live
    ensures InProgress(z', result', hh2, hh1, hh2') && Total(z') == Total(z) && z'.live <= z.live
    ensures |z'.rest1| + |z'.rest2| < |z.rest1| + |z.rest2|
  {
    hide World, Above;
    hh2' := hh2.nextAncestor;
    TotalStays(z, z.forest, z.trees);
    SecondOrder(z);
    z' := TookSecond(z);
    result' := Emit(result, z.done, last, hh2, hh1, hh2', z');
  }

  /** One chain is used up; the other one's remainder goes behind the result. */
  method Finish(result: HierarchicalHeap?, last: HierarchicalHeap?, rest: HierarchicalHeap?,
                hh1: HierarchicalHeap?, hh2: HierarchicalHeap?, ghost z: Progress)
    returns (result': HierarchicalHeap?)
    requires InProgress(z, result, last, hh1, hh2)
    requires (hh1 == null && rest == hh2) || (hh2 == null && rest == hh1)
    modifies z.live
    ensures World(z.live, z.forest, z.trees)
    ensures var out := z.done + z.rest1 + z.rest2;
      Chain(result', out) && Sorted(out) && AllIn(out, z.live) && HasLevels(out, Total(z))
  {
    hide World, Ordered, Leveled;
    OutOrder(z);
    result' := result;
    if rest != null {
      if last == null {
        result' := rest;
      } else {
        LastIsOut(z);
        SetNext(last, rest, z);
      }
    }
    OutLevels(z);
    if z.done != [] { PrefixChain(result', z.done, if z.rest1 == [] then z.rest2 else z.rest1); }
  }

  lemma LastIsOut(z: Progress)
    requires Ordered(z) && z.done != []
    ensures var last := z.done[|z.done| - 1];
      && last in z.live && (forall k :: 0 <= k < |z.done| - 1 ==> z.done[k] != last)
      && (forall k :: 0 <= k < |z.rest1| ==> z.rest1[k] != last)
      && (forall k :: 0 <= k < |z.rest2| ==> z.rest2[k] != last)
  {
  }

  lemma OutOrder(z: Progress)
    requires Ordered(z) && (z.rest1 == [] || z.rest2 == [])
    ensures var out := z.done + z.rest1 + z.rest2; Sorted(out) && AllIn(out, z.live)
    ensures z.done + z.rest1 + z.rest2 == z.done + (if z.rest1 == [] then z.rest2 else z.rest1)
    ensures z.done == [] ==> z.done + z.rest1 + z.rest2 == (if z.rest1 == [] then z.rest2 else z.rest1)
  {
  }

  lemma OutLevels(z: Progress)
    requires Leveled(z) && (z.rest1 == [] || z.rest2 == [])
    ensures HasLevels(z.done + z.rest1 + z.rest2, Total(z))
  {
    assert z.rest1 == [] <==> z.levels1 == [];
    assert z.rest2 == [] <==> z.levels2 == [];
  }

  /** HM_HH_zip: the result is one strictly sorted chain, made of heaps that were
      in use, whose levels are ZipLevels of the two chains' levels; and every
      chunk on it leads to the heap whose list it is on (World). */
  method Zip(start1: HierarchicalHeap?, start2: HierarchicalHeap?, ghost z0: Progress)
    returns (result: HierarchicalHeap?, ghost out: seq<HierarchicalHeap>, ghost z: Progress)
    requires z0.done == [] && z0.doneLevels == [] && Common(z0, start1, start2)
    modifies z0.live, set h | h in z0.live :: h.ufNode
    ensures Chain(result, out) && Sorted(out) && HasLevels(out, ZipLevels(z0.levels1, z0.levels2))
    ensures World(z.live, z.forest, z.trees) && AllIn(out, z.live) && z.live <= z0.live
    ensures forall k :: 0 <= k < |out| ==>
      HeldAt(out, out[k].depth) == Held(true, out[k].chunkList, out[k].size, out[k].numDependants)
    ensures forall d: nat ::
      var x, y := old(HeldAt(z0.rest1, d)), old(HeldAt(z0.rest2, d));
      HeldAt(out, d) == Held(x.there || y.there, x.chunks + y.chunks, x.size + y.size,
                             x.dependants + y.dependants + if x.there && y.there then 1 else 0)
    ensures AllChunks(out) == old(AllChunks(z0.rest1)) + old(AllChunks(z0.rest2))
    ensures TotalSize(out) == old(TotalSize(z0.rest1)) + old(TotalSize(z0.rest2))
  {
    hide Common, World, Chain, Sorted, HasLevels, Ordered, Leveled, SortedLevels, ZipLevels, HeldAt, HeldIn, AllChunks,
      TotalSize, ChunkBag, SizeSum;
    CommonLevels(z0, start1, start2);
    forall d: nat
      ensures old(HeldAt(z0.rest1, d)) == HeldIn(z0.levels1, d) && old(HeldAt(z0.rest2, d)) == HeldIn(z0.levels2, d)
    {
      AtLevels(z0.rest1, z0.levels1, d);
      AtLevels(z0.rest2, z0.levels2, d);
    }
    SumLevels(z0.rest1, z0.levels1);
    SumLevels(z0.rest2, z0.levels2);
    var hh1, hh2, last: HierarchicalHeap? := start1, start2, null;
    result, z := null, z0;
    assert Total(z0) == ZipLevels(z0.levels1, z0.levels2);
    while hh1 != null && hh2 != null
      invariant InProgress(z, result, last, hh1, hh2) && Total(z) == Total(z0) && z.live <= z0.live
      decreases |z.rest1| + |z.rest2|
    {
      var depth1, depth2 := hh1.depth, hh2.depth;
      if depth1 == depth2 {
        var h1 := hh1;
        result, hh1, hh2, z := MergeStep(result, last, hh1, hh2, z);
        last := h1;
      } else if depth1 > depth2 {
        var h1 := hh1;
        result, hh1, z := TakeFirst(result, last, hh1, hh2, z);
        last := h1;
      } else {
        var h2 := hh2;
        result, hh2, z := TakeSecond(result, last, hh1, hh2, z);
        last := h2;
      }
    }
    result := Finish(result, last, if hh1 == null then hh2 else hh1, hh1, hh2, z);
    out := z.done + z.rest1 + z.rest2;
    ghost var levels := ZipLevels(z0.levels1, z0.levels2);
    forall d: nat ensures HeldAt(out, d) == HeldIn(levels, d) { AtLevels(out, levels, d); }
    forall d: nat { ZipIsUnion(z0.levels1, z0.levels2, d); }
    forall k | 0 <= k < |out| { AtOwnDepth(out, k); }
    SumLevels(out, levels);
    ZipKeepsChunks(z0.levels1, z0.levels2);
  }

  lemma CommonLevels(z: Progress, hh1: HierarchicalHeap?, hh2: HierarchicalHeap?)
    requires Common(z, hh1, hh2)
    ensures HasLevels(z.rest1, z.levels1) && HasLevels(z.rest2, z.levels2)
    ensures SortedLevels(z.levels1) && SortedLevels(z.levels2)
  {
    assert forall k :: 0 <= k < |z.rest1| ==> LevelOf(z.rest1[k]) == z.levels1[k];
    assert forall k :: 0 <= k < |z.rest2| ==> LevelOf(z.rest2[k]) == z.levels2[k];
  }

  /** Looking a chunk up gives the heap whose list it is on. */
  method FindHeap(h: HierarchicalHeap, k: nat, ghost live: set<HierarchicalHeap>, ghost f: Forest,
                  ghost trees: map<HierarchicalHeap, Tree>)
    returns (found: HierarchicalHeap?)
    requires World(live, f, trees) && h in live && k < |h.chunkList|
    ensures found == h
  {
    assert HeapOk(h, f, trees[h]);
    found := GetLevelHead(h.chunkList[k], f);
  }

  /** Holding a tree, said of a record of both pointers of each node. */
  ghost predicate HoldsIn(m: map<UFNode, (UFNode?, UFNode?)>, p: UFNode?, t: Tree) {
    match t
    case Nil => p == null
    case Node(n, l, r) => p == n && n in m && HoldsIn(m, m[n].0, l) && HoldsIn(m, m[n].1, r)
  }

  lemma {:induction false} HoldsRecorded(m: map<UFNode, (UFNode?, UFNode?)>, p: UFNode?, t: Tree)
    requires forall n :: n in Nodes(t) ==> n in m && m[n] == (n.dependant1, n.dependant2)
    ensures Holds(p, t) <==> HoldsIn(m, p, t)
    decreases t
  {
    match t
    case Nil =>
    case Node(n, l, r) =>
      HoldsRecorded(m, n.dependant1, l);
      HoldsRecorded(m, n.dependant2, r);
  }

  /** So does compressing the path, and the heaps stand as they stood. */
  method FindHeapCompressing(h: HierarchicalHeap, k: nat, ghost live: set<HierarchicalHeap>, ghost f: Forest,
                             ghost trees: map<HierarchicalHeap, Tree>)
    returns (found: HierarchicalHeap)
    requires World(live, f, trees) && h in live && k < |h.chunkList|
    modifies h.chunkList[k], f.root.Keys`representative
    ensures found == h && h.chunkList[k].levelHead == h.ufNode
    ensures World(live, f, trees)
  {
    hide Leads, Nodes, Holds, HoldsIn, Proper, Size, Height;
    assert HeapOk(h, f, trees[h]);
    ghost var m := map n: UFNode | n in f.root :: (n.dependant1, n.dependant2);
    forall x | x in live ensures HeapOk(x, f, trees[x]) && HoldsIn(m, x.ufNode.dependant1, trees[x]) {
      HoldsRecorded(m, x.ufNode.dependant1, trees[x]);
    }
    ghost var path;
    found, path := GetLevelHeadPathCompress(h.chunkList[k], f);
    forall x | x in live ensures HeapOk(x, f, trees[x]) {
      assert old(HeapOk(x, f, trees[x]));
      AtRoot(x.ufNode, f);
      HoldsRecorded(m, x.ufNode.dependant1, trees[x]);
    }
  }
}
