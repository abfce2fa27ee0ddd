/** Heap records, their union-find nodes and their chunks. */
module Heaps {

  class UFNode {
    var representative: UFNode?
    var payload: HierarchicalHeap?
    var dependant1: UFNode?
    var dependant2: UFNode?

    constructor ()
      ensures representative == null && dependant1 == null && dependant2 == null
      ensures payload == null
    {
      representative, dependant1, dependant2 := null, null, null;
      payload := null;
    }
  }

  class Chunk {
    var levelHead: UFNode

    constructor (levelHead: UFNode)
      ensures this.levelHead == levelHead
    {
      this.levelHead := levelHead;
    }
  }

  class HierarchicalHeap {
    const ufNode: UFNode
    const depth: nat
    var nextAncestor: HierarchicalHeap?
    var chunkList: seq<Chunk>
    var size: nat
    var numDependants: nat
    var heightDependants: nat

    constructor (ufNode: UFNode, depth: nat)
      ensures this.ufNode == ufNode && this.depth == depth && nextAncestor == null
      ensures chunkList == [] && size == 0 && numDependants == 0 && heightDependants == 0
    {
      this.ufNode, this.depth := ufNode, depth;
      nextAncestor, chunkList, size := null, [], 0;
      numDependants, heightDependants := 0, 0;
    }
  }
}

/**
 The tree of dependants that hangs off each representative. It exists so that
 the nodes can all be released.
 */
module Dependants {
  import opened Heaps

  // ----- shapes -----

  datatype Tree = Nil | Node(n: UFNode, left: Tree, right: Tree)

  /** The way back up: a node whose first pointer is inverted, what is left to
      do on its right, and the rest of the way. */
  datatype Spine = Top | Up(n: UFNode, right: Tree, rest: Spine)

  ghost function Nodes(t: Tree): set<UFNode> {
    match t
    case Nil => {}
    case Node(n, l, r) => {n} + Nodes(l) + Nodes(r)
  }

  ghost function Size(t: Tree): nat {
    match t
    case Nil => 0
    case Node(_, l, r) => 1 + Size(l) + Size(r)
  }

  ghost function Height(t: Tree): nat {
    match t
    case Nil => 0
    case Node(_, l, r) => 1 + if Height(l) > Height(r) then Height(l) else Height(r)
  }

  /** No node occurs twice. */
  ghost predicate Proper(t: Tree) {
    match t
    case Nil => true
    case Node(n, l, r) =>
      Proper(l) && Proper(r) && n !in Nodes(l) && n !in Nodes(r) && Nodes(l) !! Nodes(r)
  }

  /** Pointer p holds tree t. */
  ghost predicate Holds(p: UFNode?, t: Tree)
    reads Nodes(t)
  {
    match t
    case Nil => p == null
    case Node(n, l, r) => p == n && Holds(n.dependant1, l) && Holds(n.dependant2, r)
  }

  ghost function SpineNodes(sp: Spine): set<UFNode> {
    match sp
    case Top => {}
    case Up(n, r, rest) => {n} + Nodes(r) + SpineNodes(rest)
  }

  ghost predicate ProperSpine(sp: Spine) {
    match sp
    case Top => true
    case Up(n, r, rest) =>
      && Proper(r) && ProperSpine(rest) && n !in Nodes(r) && n !in SpineNodes(rest)
      && Nodes(r) !! SpineNodes(rest)
  }

  ghost predicate Climbs(p: UFNode?, sp: Spine)
    reads SpineNodes(sp)
  {
    match sp
    case Top => p == null
    case Up(n, r, rest) => p == n && Climbs(n.dependant1, rest) && Holds(n.dependant2, r)
  }

  ghost function Bottom(sp: Spine): UFNode
    requires sp.Up?
  {
    if sp.rest.Top? then sp.n else Bottom(sp.rest)
  }

  /** What the traversal still has to do. */
  ghost function Work(t: Tree): nat {
    match t
    case Nil => 0
    case Node(_, l, r) => (if l.Nil? then 1 else 4) + Work(l) + Work(r)
  }

  ghost function SpineWork(sp: Spine): nat {
    match sp
    case Top => 0
    case Up(_, r, rest) => (if r.Nil? then 2 else 3) + Work(r) + SpineWork(rest)
  }

  // ----- heaps and their dependants -----

  /** The heap's node is a representative and its dependants form tree t, which
      numDependants and heightDependants measure exactly. */
  ghost predicate Owns(hh: HierarchicalHeap, t: Tree)
    reads hh, hh.ufNode, Nodes(t)
  {
    && hh.ufNode !in Nodes(t) && Proper(t)
    && hh.ufNode.representative == null && hh.ufNode.dependant2 == null && Holds(hh.ufNode.dependant1, t)
    && hh.numDependants == Size(t) && hh.heightDependants == Height(t)
  }

  lemma Unpack(hh: HierarchicalHeap, t: Tree)
    requires Owns(hh, t)
    ensures hh.ufNode !in Nodes(t) && Proper(t) && Holds(hh.ufNode.dependant1, t)
    ensures hh.ufNode.representative == null && hh.ufNode.dependant2 == null && hh.numDependants == |Nodes(t)|
  {
    SizeIsCount(t);
  }

  lemma Pack(hh: HierarchicalHeap)
    requires hh.ufNode.representative == null && hh.ufNode.dependant1 == null && hh.ufNode.dependant2 == null
    requires hh.numDependants == 0 && hh.heightDependants == 0
    ensures Owns(hh, Nil)
  {
  }

  /** linkInto: right's node becomes a dependant of left's; its two pointers take
      right's own dependants and those left had before. */
  method LinkInto(left: HierarchicalHeap, right: HierarchicalHeap, ghost tl: Tree, ghost tr: Tree)
    requires Owns(left, tl) && Owns(right, tr) && left != right && left.ufNode != right.ufNode
    requires left.ufNode !in Nodes(tr) && right.ufNode !in Nodes(tl) && Nodes(tl) !! Nodes(tr)
    modifies left`numDependants, left`heightDependants, left.ufNode`dependant1
    modifies right.ufNode`dependant2, right.ufNode`representative
    ensures Owns(left, Node(right.ufNode, tr, tl))
    ensures left.numDependants == old(left.numDependants) + 1 + right.numDependants
    ensures right.ufNode.representative == left.ufNode
  {
    right.ufNode.representative := left.ufNode;
    right.ufNode.dependant2 := left.ufNode.dependant1;
    left.ufNode.dependant1 := right.ufNode;
    left.numDependants := left.numDependants + 1 + right.numDependants;
    var lh, rh := left.heightDependants, right.heightDependants;
    left.heightDependants := 1 + if lh > rh then lh else rh;
  }

  lemma {:induction false} SizeIsCount(t: Tree)
    requires Proper(t)
    ensures |Nodes(t)| == Size(t)
  {
    match t
    case Nil =>
    case Node(n, l, r) =>
      SizeIsCount(l);
      SizeIsCount(r);
      assert Nodes(t) == {n} + (Nodes(l) + Nodes(r));
  }

  /** Where released nodes go. Releasing leaves nothing to rely on in the node. */
  class Allocator {
    ghost var released: set<UFNode>

    constructor ()
      ensures released == {}
    {
      released := {};
    }

    method Release(n: UFNode)
      requires n !in released
      modifies this, n
      ensures released == old(released) + {n}
    {
      n.representative := *;
      n.dependant1 := *;
      n.dependant2 := *;
      n.payload := *;
      released := released + {n};
    }
  }

  /** The traversal is at t, has the spine sp behind it, and has released the
      rest of the nodes. */
  ghost predicate At(child: UFNode?, parent: UFNode?, t: Tree, sp: Spine, root: UFNode, freed: set<UFNode>,
                     deps: set<UFNode>)
    reads Nodes(t), SpineNodes(sp)
  {
    && Holds(child, t) && Climbs(parent, sp) && Proper(t) && ProperSpine(sp)
    && Nodes(t) !! SpineNodes(sp)
    && freed !! Nodes(t) && freed !! SpineNodes(sp)
    && freed + Nodes(t) + SpineNodes(sp) == deps + {root} && root !in deps
    && if sp.Up? then Bottom(sp) == root else t == Node(root, Nil, Nil)
  }

  /** Child and sibling null: slide up to the parent. */
  method SlideUp(parent: UFNode, ghost t: Tree, ghost sp: Spine, ghost root: UFNode, ghost freed: set<UFNode>,
                 ghost deps: set<UFNode>)
    returns (child': UFNode, parent': UFNode?)
    requires At(null, parent, t, sp, root, freed, deps) && parent.dependant2 == null
    modifies parent
    ensures sp.Up? && At(child', parent', Node(sp.n, Nil, Nil), sp.rest, root, freed, deps)
    ensures Work(Node(sp.n, Nil, Nil)) + SpineWork(sp.rest) < Work(t) + SpineWork(sp)
    ensures parent.representative == old(parent.representative)
  {
    child' := parent;
    parent' := parent.dependant1;
    child'.dependant1 := null;
  }

  /** Child null, sibling not: switch to the sibling. */
  method SwitchSide(parent: UFNode, ghost t: Tree, ghost sp: Spine, ghost root: UFNode, ghost freed: set<UFNode>,
                    ghost deps: set<UFNode>)
    returns (child': UFNode)
    requires At(null, parent, t, sp, root, freed, deps) && parent.dependant2 != null
    modifies parent
    ensures sp.Up? && At(child', parent, sp.right, Up(sp.n, Nil, sp.rest), root, freed, deps)
    ensures Work(sp.right) + SpineWork(Up(sp.n, Nil, sp.rest)) < Work(t) + SpineWork(sp)
    ensures parent.representative == old(parent.representative)
  {
    child' := parent.dependant2;
    parent.dependant2 := null;
  }

  /** Child null: slide up if the sibling is null too, else switch sides. */
  method Turn(parent: UFNode, ghost t: Tree, ghost sp: Spine, ghost root: UFNode, ghost freed: set<UFNode>,
              ghost deps: set<UFNode>)
    returns (child': UFNode, parent': UFNode?, ghost t': Tree, ghost sp': Spine)
    requires At(null, parent, t, sp, root, freed, deps)
    modifies parent
    ensures At(child', parent', t', sp', root, freed, deps) && Work(t') + SpineWork(sp') < Work(t) + SpineWork(sp)
    ensures parent.representative == old(parent.representative)
  {
    hide At, Work, SpineWork, Bottom;
    if parent.dependant2 == null {
      child', parent' := SlideUp(parent, t, sp, root, freed, deps);
      t', sp' := Node(sp.n, Nil, Nil), sp.rest;
    } else {
      child' := SwitchSide(parent, t, sp, root, freed, deps);
      parent', t', sp' := parent, sp.right, Up(sp.n, Nil, sp.rest);
    }
  }

  /** Left grandchild null: release the child, go on with the right one. */
  method FreeChild(child: UFNode, parent: UFNode, a: Allocator, ghost t: Tree, ghost sp: Spine, ghost root: UFNode,
                   ghost freed: set<UFNode>, ghost deps: set<UFNode>)
    returns (child': UFNode?)
    requires At(child, parent, t, sp, root, freed, deps) && child.dependant1 == null && child !in a.released
    modifies a, child
    ensures t.Node? && At(child', parent, t.right, sp, root, freed + {t.n}, deps)
    ensures Work(t.right) < Work(t)
    ensures a.released == old(a.released) + {child} && t.n == child && child !in freed && child != root
  {
    SpineHasRoot(sp);
    NoLeft(child, t);
    child' := child.dependant2;
    a.Release(child);
  }

  lemma NoLeft(child: UFNode, t: Tree)
    requires Holds(child, t) && child.dependant1 == null
    ensures t.Node? && t.left.Nil? && Nodes(t) == {child} + Nodes(t.right)
  {
  }

  lemma {:induction false} SpineHasRoot(sp: Spine)
    requires sp.Up?
    ensures Bottom(sp) in SpineNodes(sp)
  {
    if sp.rest.Up? { SpineHasRoot(sp.rest); }
  }

  /** Left grandchild there: invert the pointer to it and slide down. */
  method SlideDown(child: UFNode, parent: UFNode, ghost t: Tree, ghost sp: Spine, ghost root: UFNode,
                   ghost freed: set<UFNode>, ghost deps: set<UFNode>)
    returns (child': UFNode?)
    requires At(child, parent, t, sp, root, freed, deps) && child.dependant1 != null
    modifies child
    ensures t.Node? && At(child', child, t.left, Up(t.n, t.right, sp), root, freed, deps)
    ensures Work(t.left) + SpineWork(Up(t.n, t.right, sp)) < Work(t) + SpineWork(sp)
    ensures child != root
  {
    SpineHasRoot(sp);
    child' := child.dependant1;
    child.dependant1 := parent;
  }

  lemma Within(child: UFNode?, parent: UFNode?, t: Tree, sp: Spine, root: UFNode, freed: set<UFNode>, deps: set<UFNode>)
    requires At(child, parent, t, sp, root, freed, deps)
    ensures child != null ==> (child in deps || child == root) && child !in freed
    ensures parent != null ==> (parent in deps || parent == root) && parent !in freed
  {
  }

  lemma Finished(child: UFNode?, t: Tree, sp: Spine, root: UFNode, freed: set<UFNode>, deps: set<UFNode>)
    requires At(child, null, t, sp, root, freed, deps)
    ensures root.dependant1 == null && root.dependant2 == null && freed == deps
  {
    assert sp.Top?;
    assert Holds(root.dependant1, Nil) && Holds(root.dependant2, Nil);
  }

  /** Of the released nodes, n are ours. */
  ghost predicate Tally(before: set<UFNode>, freed: set<UFNode>, released: set<UFNode>, n: nat) {
    released == before + freed && n == |freed|
  }

  lemma TallyUp(before: set<UFNode>, freed: set<UFNode>, released: set<UFNode>, n: nat, x: UFNode)
    requires Tally(before, freed, released, n) && x !in freed && x !in before
    ensures x !in released && Tally(before, freed + {x}, released + {x}, n + 1)
  {
  }

  /** The traversal itself, from the first dependant. */
  method ReleaseAll(root: UFNode, first: UFNode?, a: Allocator, ghost t0: Tree, ghost deps: set<UFNode>)
    returns (numFreed: nat)
    requires At(first, root, t0, Up(root, Nil, Top), root, {}, deps)
    requires deps !! a.released && root !in a.released && root.representative == null
    modifies deps, root, a
    ensures a.released == old(a.released) + deps && numFreed == |deps|
    ensures root.representative == null && root.dependant1 == null && root.dependant2 == null
  {
    hide At, Work, SpineWork, Holds, Climbs, Proper, Nodes;
    hide Tally, SpineNodes, Bottom, ProperSpine, Size, Height, Owns;
    TallyStart(a.released);
    var parent: UFNode?, child := root, first;
    ghost var t, sp := t0, Up(root, Nil, Top);
    ghost var freed: set<UFNode> := {};
    numFreed := 0;
    while parent != null
      invariant At(child, parent, t, sp, root, freed, deps)
      invariant Tally(old(a.released), freed, a.released, numFreed) && root.representative == null
      decreases Work(t) + SpineWork(sp)
    {
      Within(child, parent, t, sp, root, freed, deps);
      if child == null {
        child, parent, t, sp := Turn(parent, t, sp, root, freed, deps);
      } else {
        if child.dependant1 == null {
          TallyUp(old(a.released), freed, a.released, numFreed, child);
          child := FreeChild(child, parent, a, t, sp, root, freed, deps);
          numFreed := numFreed + 1;
          freed := freed + {t.n};
          t := t.right;
        } else {
          var grandchild := SlideDown(child, parent, t, sp, root, freed, deps);
          parent := child;
          child := grandchild;
          t, sp := t.left, Up(t.n, t.right, sp);
        }
      }
    }
    Finished(child, t, sp, root, freed, deps);
    TallyEnd(old(a.released), freed, a.released, numFreed);
  }

  lemma TallyStart(before: set<UFNode>)
    ensures Tally(before, {}, before, 0)
  {
  }

  lemma TallyEnd(before: set<UFNode>, freed: set<UFNode>, released: set<UFNode>, n: nat)
    requires Tally(before, freed, released, n)
    ensures released == before + freed && n == |freed|
  {
  }

  /** HM_HH_freeAllDependants: with three pointers and no stack, every dependant
      is released exactly once, none is touched after that, and the heap's own
      node stays. */
  method FreeAllDependants(hh: HierarchicalHeap, a: Allocator, ghost tree: Tree) returns (numFreed: nat)
    requires Owns(hh, tree) && a.released !! Nodes(tree) && hh.ufNode !in a.released
    modifies hh, hh.ufNode, Nodes(tree), a
    ensures a.released == old(a.released) + Nodes(tree)
    ensures numFreed == old(hh.numDependants) == |Nodes(tree)|
    ensures Owns(hh, Nil)
  {
    hide At, Holds, Proper, Nodes, Size, Height, Owns;
    Unpack(hh, tree);
    var parent := hh.ufNode;
    var child := parent.dependant1;
    parent.dependant1 := null;
    Started(child, tree, parent);
    numFreed := ReleaseAll(parent, child, a, tree, Nodes(tree));
    assert numFreed == hh.numDependants;
    hh.numDependants := 0;
    hh.heightDependants := 0;
    Pack(hh);
  }

  lemma Started(child: UFNode?, tree: Tree, root: UFNode)
    requires Holds(child, tree) && Proper(tree) && root !in Nodes(tree)
    requires root.dependant1 == null && root.dependant2 == null
    ensures At(child, root, tree, Up(root, Nil, Top), root, {}, Nodes(tree))
  {
  }
}
