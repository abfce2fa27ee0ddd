/**
 Looking up the heap of a chunk: representative pointers form a forest, a
 lookup follows them to the root, and compressing a path changes no root.
 */
module LevelHeads {
  import opened Heaps

  /** Where each node leads, and how far from the leaves it is. */
  datatype Forest = Forest(root: map<UFNode, UFNode>, height: map<UFNode, nat>)

  /** One node's representative pointer agrees with the forest. */
  ghost predicate Fits(f: Forest, n: UFNode, representative: UFNode?) {
    && n in f.root && n in f.height && f.root[n] in f.root && f.root[n] in f.height
    && f.root[f.root[n]] == f.root[n] && f.height[n] <= f.height[f.root[n]]
    && (representative == null <==> f.root[n] == n)
    && (representative != null ==>
          && representative in f.root && representative in f.height
          && f.root[representative] == f.root[n] && f.height[n] < f.height[representative])
  }

  /** The representative pointers agree with the forest. */
  ghost predicate Leads(f: Forest)
    reads f.root.Keys
  {
    f.height.Keys == f.root.Keys && forall n :: n in f.root ==> Fits(f, n, n.representative)
  }

  /** The forest after right's root has been put below left's. */
  ghost function Linked(f: Forest, left: UFNode, right: UFNode): Forest
    requires f.height.Keys == f.root.Keys && left in f.root && right in f.root
  {
    var h := if f.height[left] > f.height[right] then f.height[left] else f.height[right] + 1;
    Forest(map n | n in f.root :: if f.root[n] == right then left else f.root[n], f.height[left := h])
  }

  /** HM_getLevelHead. */
  method GetLevelHead(chunk: Chunk, ghost f: Forest) returns (hh: HierarchicalHeap?)
    requires Leads(f) && chunk.levelHead in f.root
    ensures hh == f.root[chunk.levelHead].payload
  {
    var cursor := chunk.levelHead;
    while cursor.representative != null
      invariant cursor in f.root && f.root[cursor] == f.root[chunk.levelHead]
      decreases f.height[f.root[cursor]] - f.height[cursor]
    {
      cursor := cursor.representative;
    }
    hh := cursor.payload;
  }

  /** One step of compression. */
  method PointAtRoot(n: UFNode, topNode: UFNode, ghost f: Forest) returns (next: UFNode)
    requires Leads(f) && n in f.root && f.root[n] == topNode && n != topNode
    modifies n`representative
    ensures Leads(f) && n.representative == topNode
    ensures next == old(n.representative) && next in f.root && next in f.height && n in f.height && topNode in f.height
    ensures f.root[next] == topNode && f.height[n] < f.height[next] <= f.height[topNode]
  {
    next := n.representative;
    n.representative := topNode;
  }

  /** HM_getLevelHeadPathCompress: the same answer, and afterwards the chunk and
      every node on its path point straight at the root; no node's root changes,
      and nothing but the representatives on the path changes. */
  method GetLevelHeadPathCompress(chunk: Chunk, ghost f: Forest)
    returns (levelHead: HierarchicalHeap, ghost path: seq<UFNode>)
    requires Leads(f) && chunk.levelHead in f.root
    requires f.root[chunk.levelHead].payload != null
    requires f.root[chunk.levelHead].payload.ufNode == f.root[chunk.levelHead]
    modifies chunk, f.root.Keys`representative
    ensures Leads(f) && chunk.levelHead == old(f.root[chunk.levelHead]) == levelHead.ufNode
    ensures levelHead == old(f.root[chunk.levelHead].payload)
    ensures path != [] && path[0] == old(chunk.levelHead) && path[|path| - 1] == levelHead.ufNode
    ensures forall k :: 0 <= k < |path| ==> path[k] in f.root
    ensures forall k :: 0 <= k < |path| - 1 ==>
      old(path[k].representative) == path[k + 1] && path[k].representative == levelHead.ufNode
    ensures forall n :: n in f.root && n !in path ==> n.representative == old(n.representative)
  {
    hide Leads, Fits;
    levelHead := GetLevelHead(chunk, f);
    var topNode := levelHead.ufNode;
    AtRoot(chunk.levelHead, f);
    var cursor := chunk.levelHead;
    path := [cursor];
    if chunk.levelHead == topNode {
      return;
    }
    chunk.levelHead := topNode;
    while cursor != topNode
      modifies f.root.Keys`representative
      invariant Leads(f) && cursor in f.root && f.root[cursor] == topNode && cursor in f.height && topNode in f.height
      invariant path != [] && path[0] == old(chunk.levelHead) && path[|path| - 1] == cursor
      invariant forall k :: 0 <= k < |path| ==> path[k] in f.height && path[k] in f.root
      invariant forall k :: 0 <= k < |path| - 1 ==> f.height[path[k]] < f.height[cursor]
      invariant forall k :: 0 <= k < |path| - 1 ==>
                old(path[k].representative) == path[k + 1] && path[k].representative == topNode
      invariant forall n :: n in f.root && n !in path[..|path| - 1] ==> n.representative == old(n.representative)
      invariant f.height[cursor] <= f.height[topNode]
      decreases f.height[topNode] - f.height[cursor]
    {
      ghost var front := path;
      ghost var here := cursor;
      assert here !in path[..|path| - 1];
      assert here.representative == old(here.representative);
      cursor := PointAtRoot(cursor, topNode, f);
      AtRoot(cursor, f);
      path := path + [cursor];
      assert path[..|path| - 1] == front;
    }
  }

  lemma AtRoot(n: UFNode, f: Forest)
    requires Leads(f) && n in f.root
    ensures f.root[n] in f.root && n in f.height && f.root[n] in f.height && f.height[n] <= f.height[f.root[n]]
    ensures f.root[f.root[n]] == f.root[n]
    ensures f.root[n] == n ==> n.representative == null
  {
  }

  /** Linking keeps every node in place below the new root. */
  lemma LinkFits(f: Forest, left: UFNode, right: UFNode, n: UFNode, representative: UFNode?)
    requires f.height.Keys == f.root.Keys && Fits(f, n, representative) && left != right
    requires left in f.root && right in f.root && f.root[left] == left && f.root[right] == right
    ensures Fits(Linked(f, left, right), n, if n == right then left else representative)
  {
  }
}
