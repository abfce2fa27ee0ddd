/**
 The concurrent collector: chunks that hold something reachable move to another
 list, tracing with mark bits; a second trace erases the marks; what is left on
 the first list is freed.
 */
module ConcurrentCollection {
  import opened Options
  import opened ObjectFields
  import opened CcWorkList
  import opened CcTrace

  /** Which list a chunk is on while its heap is being collected. */
  datatype Space = From | To

  /** A chunk list without one of its chunks. */
  function Without(list: seq<nat>, chunk: nat): seq<nat> {
    if list == [] then []
    else if list[0] == chunk then list[1..]
    else [list[0]] + Without(list[1..], chunk)
  }

  lemma {:induction false} WithoutOne(list: seq<nat>, chunk: nat)
    requires chunk in list
    ensures multiset(list) == multiset(Without(list, chunk)) + multiset{chunk}
  {
    assert list == [list[0]] + list[1..];
    if list[0] != chunk { WithoutOne(list[1..], chunk); }
  }

  /** Each chunk in scope is on exactly one of both lists, and knows which. */
  ghost predicate ListsOk(scope: set<nat>, tmpHeap: map<nat, Space>, origList: seq<nat>, repList: seq<nat>) {
    && multiset(origList) + multiset(repList) == multiset(scope)
    && tmpHeap.Keys == scope
    && forall c :: c in tmpHeap ==> (tmpHeap[c].From? <==> c in origList) && (tmpHeap[c].To? <==> c in repList)
  }

  lemma MoveChunk(scope: set<nat>, tmpHeap: map<nat, Space>, origList: seq<nat>, repList: seq<nat>, chunk: nat)
    requires ListsOk(scope, tmpHeap, origList, repList) && chunk in tmpHeap && tmpHeap[chunk].From?
    ensures ListsOk(scope, tmpHeap[chunk := To], Without(origList, chunk), repList + [chunk])
  {
    WithoutOne(origList, chunk);
    var orig', rep' := Without(origList, chunk), repList + [chunk];
    forall c | c in scope ensures c in orig' <==> c in origList && c != chunk {
      assert multiset(origList)[c] == multiset(orig')[c] + multiset{chunk}[c];
      assert (multiset(origList) + multiset(repList))[c] == 1;
    }
    forall c | c in scope ensures c in rep' <==> c in repList || c == chunk {
    }
  }

  /** The chunks of a set of objects. */
  function ChunksOf(g: Graph, objects: set<nat>): set<nat> {
    set o | o in objects && o in g.chunkOf :: g.chunkOf[o]
  }

  class Collector {
    const g: Graph
    const worklist: WorkList
    var marked: set<nat>
    var tmpHeap: map<nat, Space>
    var origList: seq<nat>
    var repList: seq<nat>
    ghost var scope: set<nat>

    ghost predicate Valid()
      reads this, worklist
    {
      && GraphOk(g) && worklist.Valid() && worklist.objects == g.objects
      && ListsOk(scope, tmpHeap, origList, repList)
    }

    /** Set up for the chunks of a heap's chunk list. */
    constructor (g: Graph, list: seq<nat>)
      requires GraphOk(g) && multiset(list) == multiset(set c | c in list)
      ensures Valid() && fresh(worklist) && this.g == g && marked == {} && worklist.Pending() == []
      ensures origList == list && repList == [] && scope == set c | c in list
    {
      this.g := g;
      worklist := new WorkList(g.objects);
      marked, origList, repList := {}, list, [];
      tmpHeap := map c | c in list :: From;
      scope := set c | c in list;
    }

    /** saveNoForward: in scope or not; if so, the chunk is saved. */
    method SaveNoForward(p: nat) returns (inScope: bool)
      requires Valid() && p in g.objects
      modifies this`tmpHeap, this`origList, this`repList
      ensures Valid() && (inScope <==> InScope(g, scope, p))
      ensures forall c :: c in repList <==> c in old(repList) || (inScope && c == g.chunkOf[p])
    {
      hide GraphOk, WorkList.Valid;
      Chunked(p);
      var candChunk := g.chunkOf[p];
      var chunkSaved := candChunk in tmpHeap && tmpHeap[candChunk].To?;
      var chunkOrig := if chunkSaved then true else candChunk in tmpHeap && tmpHeap[candChunk].From?;
      if chunkOrig && !chunkSaved {
        MoveChunk(scope, tmpHeap, origList, repList, candChunk);
        origList, repList := Without(origList, candChunk), repList + [candChunk];
        tmpHeap := tmpHeap[candChunk := To];
      }
      inScope := chunkSaved || chunkOrig;
    }

    lemma Chunked(p: nat)
      requires GraphOk(g) && p in g.objects
      ensures p in g.chunkOf
    {
    }

    /** tryMarkAndAddToWorkList. */
    method TryMarkAndAddToWorkList(op: nat)
      requires Valid() && op in g.objects
      modifies this`tmpHeap, this`origList, this`repList, this`marked, worklist
      ensures Valid()
      ensures marked == old(marked) + (if InScope(g, scope, op) then {op} else {})
      ensures worklist.Pending() ==
        (if InScope(g, scope, op) && op !in old(marked) then FieldsAt(op, FieldsOf(g.objects[op])) else [])
        + old(worklist.Pending())
      ensures forall c :: c in repList <==> c in old(repList) || (InScope(g, scope, op) && c == g.chunkOf[op])
    {
      hide GraphOk, WorkList.Valid, WorkList.Pending, ListsOk, FieldsOf;
      var isInScope := SaveNoForward(op);
      if !isInScope {
        return;
      }
      if op !in marked {
        marked := marked + {op};
        worklist.Push(op);
      }
    }

    /** tryUnmarkAndAddToWorkList. */
    method TryUnmarkAndAddToWorkList(op: nat)
      requires Valid() && op in g.objects
      modifies this`marked, worklist
      ensures Valid()
      ensures var hit := op in old(marked) && g.chunkOf[op] in repList;
        && marked == old(marked) - (if hit then {op} else {})
        && worklist.Pending() == (if hit then FieldsAt(op, FieldsOf(g.objects[op])) else []) + old(worklist.Pending())
    {
      hide WorkList.Valid, WorkList.Pending, FieldsOf;
      var chunk := g.chunkOf[op];
      InLists(chunk);
      if !(chunk in tmpHeap && tmpHeap[chunk].To?) {
        return;
      }
      if op in marked {
        marked := marked - {op};
        worklist.Push(op);
      }
    }

    lemma InLists(chunk: nat)
      requires Valid()
      ensures chunk in repList <==> chunk in tmpHeap && tmpHeap[chunk].To?
    {
      assert chunk in repList ==> (multiset(origList) + multiset(repList))[chunk] > 0;
    }

    // ----- marking -----

    /** The state between the steps of the marking trace, with fields on top of
        the worklist that have been popped already. */
    ghost predicate Marking(roots: seq<Root>, forced: set<nat>, popped: seq<Field>)
      reads this, worklist
    {
      && Valid() && RootsOk(g, roots) && forced <= Forced(roots)
      && Tracing(g, scope, marked, forced, popped + worklist.Pending())
      && Below(g, scope, roots, marked)
      && (forall c :: c in repList <==> c in ChunksOf(g, marked))
    }

    /** What is left to do: objects to mark, fields to follow. */
    ghost function Unmarked(): set<nat>
      reads this
    {
      set o | o in g.objects && InScope(g, scope, o) && o !in marked
    }

    /** callIfIsObjptr of tryMarkAndAddToWorkList on one field. */
    method FollowMark(f: Field, ghost roots: seq<Root>, ghost forced: set<nat>)
      requires Marking(roots, forced, [f])
      modifies this`tmpHeap, this`origList, this`repList, this`marked, worklist
      ensures Marking(roots, forced, []) && old(marked) <= marked
      ensures Unmarked() < old(Unmarked())
        || (Unmarked() == old(Unmarked()) && worklist.Pending() == old(worklist.Pending()))
    {
      hide WorkList.Valid, WorkList.Pending, ListsOk, FieldsOf, Tracing, Below, ChunksOf;
      ghost var rest := worklist.Pending();
      if f in g.target {
        var t := g.target[f];
        Follow(g, scope, marked, forced, f, rest);
        if InScope(g, scope, t) {
          VisitBelow(g, scope, roots, marked, forced, f, rest);
          MoreChunks(g, marked, t);
        }
        TryMarkAndAddToWorkList(t);
        if InScope(g, scope, t) && t !in old(marked) {
          assert t in old(Unmarked()) && t !in Unmarked();
        } else {
          assert marked == old(marked);
          assert worklist.Pending() == rest;
        }
      } else {
        PopCovered(g, scope, marked, forced, f, rest);
      }
      assert [] + worklist.Pending() == worklist.Pending();
    }

    /** markLoop: nothing is pending afterwards. */
    method MarkLoop(ghost roots: seq<Root>, ghost forced: set<nat>)
      requires Marking(roots, forced, [])
      modifies this`tmpHeap, this`origList, this`repList, this`marked, worklist
      ensures Marking(roots, forced, []) && old(marked) <= marked && worklist.Pending() == []
    {
      hide WorkList.Valid, WorkList.Pending, ListsOk, Tracing, Below, ChunksOf, Unmarked;
      assert [] + worklist.Pending() == worklist.Pending();
      var current := worklist.Pop();
      while current.Some?
        invariant Marking(roots, forced, if current.Some? then [current.value] else [])
        invariant old(marked) <= marked && (current.None? ==> worklist.Pending() == [])
        decreases Unmarked(), |worklist.Pending()| + (if current.Some? then 1 else 0)
      {
        FollowMark(current.value, roots, forced);
        ghost var before := worklist.Pending();
        assert [] + before == before;
        current := worklist.Pop();
      }
    }

    /** tryMarkAndMarkLoop. */
    method TryMarkAndMarkLoop(op: nat, ghost roots: seq<Root>, ghost forced: set<nat>, ghost k: nat)
      requires Marking(roots, forced, []) && worklist.Pending() == []
      requires k < |roots| && roots[k] == Try(op)
      modifies this`tmpHeap, this`origList, this`repList, this`marked, worklist
      ensures Marking(roots, forced, []) && old(marked) <= marked && worklist.Pending() == []
      ensures InScope(g, scope, op) ==> op in marked
    {
      hide WorkList.Valid, WorkList.Pending, ListsOk, Tracing, Below, ChunksOf, FieldsOf;
      assert [] + worklist.Pending() == [];
      if InScope(g, scope, op) {
        Visit(g, scope, marked, forced, [], op);
        RootBelow(g, scope, roots, marked, k);
        MoreChunks(g, marked, op);
        assert op in marked ==> marked + {op} == marked;
        assert FieldsAt(op, FieldsOf(g.objects[op])) + [] == FieldsAt(op, FieldsOf(g.objects[op]));
      } else {
        assert marked + {} == marked;
      }
      TryMarkAndAddToWorkList(op);
      assert [] + worklist.Pending() == worklist.Pending();
      assert worklist.Pending() + [] == worklist.Pending();
      MarkLoop(roots, forced);
    }

    /** forceForward: the object is scanned even if it is out of scope. */
    method ForceForward(root: Option<nat>, ghost roots: seq<Root>, ghost forced: set<nat>, ghost k: nat)
      requires Marking(roots, forced, []) && worklist.Pending() == []
      requires k < |roots| && roots[k] == Force(root)
      modifies this`tmpHeap, this`origList, this`repList, this`marked, worklist
      ensures Marking(roots, forced + (if root.Some? then {root.value} else {}), [])
      ensures old(marked) <= marked && worklist.Pending() == []
      ensures root.Some? && InScope(g, scope, root.value) ==> root.value in marked
    {
      hide WorkList.Valid, WorkList.Pending, ListsOk, Tracing, Below, ChunksOf, FieldsOf;
      assert [] + worklist.Pending() == [];
      if root.None? {
        assert forced + {} == forced;
        return;
      }
      var op := root.value;
      ForceOne(g, scope, marked, forced, [], op);
      IsForced(roots, k);
      if InScope(g, scope, op) {
        RootBelow(g, scope, roots, marked, k);
        MoreChunks(g, marked, op);
        assert op in marked ==> marked + {op} == marked;
      }
      var saved := SaveNoForward(op);
      if saved && op !in marked {
        marked := marked + {op};
      }
      worklist.Push(op);
      assert [] + worklist.Pending() == worklist.Pending();
      MarkLoop(roots, forced + {op});
    }

    /** The marking phase: pinned objects, snapshots and stacks, the stack bag. */
    method MarkRoots(roots: seq<Root>)
      requires Valid() && RootsOk(g, roots) && marked == {} && repList == [] && worklist.Pending() == []
      modifies this`tmpHeap, this`origList, this`repList, this`marked, worklist
      ensures Valid() && worklist.Pending() == []
      ensures Reached(g, scope, roots, marked)
      ensures forall c :: c in repList <==> c in ChunksOf(g, marked)
    {
      hide WorkList.Valid, WorkList.Pending, ListsOk, Tracing, Below, Closed;
      StartMarking(roots);
      assert roots[..0] == [];
      for k := 0 to |roots|
        invariant Marking(roots, Forced(roots[..k]), []) && worklist.Pending() == []
        invariant HasRoots(g, scope, roots[..k], marked)
      {
        NextRoot(roots, k);
        ghost var before := marked;
        match roots[k] {
          case Try(op) => TryMarkAndMarkLoop(op, roots, Forced(roots[..k]), k);
          case Force(op) => ForceForward(op, roots, Forced(roots[..k]), k);
        }
        NextHasRoots(g, scope, roots, k, before, marked);
        assert Forced(roots[..k]) + {} == Forced(roots[..k]);
      }
      assert roots[..|roots|] == roots;
      assert [] + worklist.Pending() == [];
      Finished(g, scope, roots, marked);
    }

    lemma StartMarking(roots: seq<Root>)
      requires Valid() && RootsOk(g, roots) && marked == {} && repList == [] && worklist.Pending() == []
      ensures Marking(roots, Forced([]), []) && HasRoots(g, scope, [], marked)
    {
      assert Forced([]) == {};
      assert [] + worklist.Pending() == [];
    }

    // ----- erasing the marks -----

    /** The state between the steps of the second trace: what it has visited is
        what has lost its mark. */
    ghost predicate Unmarking(reach: set<nat>, roots: seq<Root>, forced: set<nat>, popped: seq<Field>)
      reads this, worklist
    {
      && Valid() && RootsOk(g, roots) && forced <= Forced(roots)
      && marked <= reach && Reached(g, scope, roots, reach)
      && Tracing(g, scope, reach - marked, forced, popped + worklist.Pending())
      && (forall c :: c in repList <==> c in ChunksOf(g, reach))
    }

    /** callIfIsObjptr of tryUnmarkAndAddToWorkList on one field. */
    method FollowUnmark(f: Field, ghost reach: set<nat>, ghost roots: seq<Root>, ghost forced: set<nat>)
      requires Unmarking(reach, roots, forced, [f])
      modifies this`marked, worklist
      ensures Unmarking(reach, roots, forced, [])
      ensures marked < old(marked) || (marked == old(marked) && worklist.Pending() == old(worklist.Pending()))
    {
      hide WorkList.Valid, WorkList.Pending, ListsOk, FieldsOf, Tracing, Reached;
      ghost var rest := worklist.Pending();
      if f in g.target {
        var t := g.target[f];
        Follow(g, scope, reach - marked, forced, f, rest);
        StaysReached(g, scope, roots, reach, reach - marked, forced, f, rest);
        TryUnmarkAndAddToWorkList(t);
        assert reach - marked == (reach - old(marked)) + (if InScope(g, scope, t) then {t} else {});
        assert t in old(marked) <==> InScope(g, scope, t) && t !in reach - old(marked);
      } else {
        PopCovered(g, scope, reach - marked, forced, f, rest);
      }
      assert [] + worklist.Pending() == worklist.Pending();
    }

    /** unmarkLoop. */
    method UnmarkLoop(ghost reach: set<nat>, ghost roots: seq<Root>, ghost forced: set<nat>)
      requires Unmarking(reach, roots, forced, [])
      modifies this`marked, worklist
      ensures Unmarking(reach, roots, forced, []) && marked <= old(marked) && worklist.Pending() == []
    {
      hide WorkList.Valid, WorkList.Pending, ListsOk, Tracing, Reached, ChunksOf;
      assert [] + worklist.Pending() == worklist.Pending();
      var current := worklist.Pop();
      while current.Some?
        invariant Unmarking(reach, roots, forced, if current.Some? then [current.value] else [])
        invariant marked <= old(marked) && (current.None? ==> worklist.Pending() == [])
        decreases marked, |worklist.Pending()| + (if current.Some? then 1 else 0)
      {
        FollowUnmark(current.value, reach, roots, forced);
        ghost var before := worklist.Pending();
        assert [] + before == before;
        current := worklist.Pop();
      }
    }

    /** tryUnmarkAndUnmarkLoop. */
    method TryUnmarkAndUnmarkLoop(op: nat, ghost reach: set<nat>, ghost roots: seq<Root>, ghost forced: set<nat>,
                                  ghost k: nat)
      requires Unmarking(reach, roots, forced, []) && worklist.Pending() == []
      requires k < |roots| && roots[k] == Try(op)
      modifies this`marked, worklist
      ensures Unmarking(reach, roots, forced, []) && marked <= old(marked) && worklist.Pending() == []
      ensures op !in marked
    {
      hide WorkList.Valid, WorkList.Pending, ListsOk, FieldsOf, Tracing, Reached;
      assert [] + worklist.Pending() == [];
      RootReached(g, scope, roots, reach, k);
      if op in marked {
        Visit(g, scope, reach - marked, forced, [], op);
        assert reach - (marked - {op}) == (reach - marked) + {op};
        assert FieldsAt(op, FieldsOf(g.objects[op])) + [] == FieldsAt(op, FieldsOf(g.objects[op]));
      } else {
        assert marked - {} == marked;
      }
      TryUnmarkAndAddToWorkList(op);
      assert [] + worklist.Pending() == worklist.Pending();
      assert worklist.Pending() + [] == worklist.Pending();
      UnmarkLoop(reach, roots, forced);
    }

    /** forceUnmark. */
    method ForceUnmark(root: Option<nat>, ghost reach: set<nat>, ghost roots: seq<Root>, ghost forced: set<nat>,
                       ghost k: nat)
      requires Unmarking(reach, roots, forced, []) && worklist.Pending() == []
      requires k < |roots| && roots[k] == Force(root)
      modifies this`marked, worklist
      ensures Unmarking(reach, roots, forced + (if root.Some? then {root.value} else {}), [])
      ensures marked <= old(marked) && worklist.Pending() == []
      ensures root.Some? ==> root.value !in marked
    {
      hide WorkList.Valid, WorkList.Pending, ListsOk, Tracing, FieldsOf, Reached;
      assert [] + worklist.Pending() == [];
      if root.None? {
        assert forced + {} == forced;
        return;
      }
      var op := root.value;
      RootReached(g, scope, roots, reach, k);
      IsForced(roots, k);
      ForceOne(g, scope, reach - marked, forced, [], op);
      assert FieldsAt(op, FieldsOf(g.objects[op])) + [] == FieldsAt(op, FieldsOf(g.objects[op]));
      if op in marked {
        assert reach - (marked - {op}) == (reach - marked) + {op};
        marked := marked - {op};
      }
      worklist.Push(op);
      assert [] + worklist.Pending() == worklist.Pending();
      UnmarkLoop(reach, roots, forced + {op});
    }

    /** The second trace, from the same roots: no mark is left. */
    method UnmarkRoots(roots: seq<Root>)
      requires Valid() && RootsOk(g, roots) && worklist.Pending() == [] && Reached(g, scope, roots, marked)
      requires forall c :: c in repList <==> c in ChunksOf(g, marked)
      modifies this`marked, worklist
      ensures Valid() && marked == {} && worklist.Pending() == []
    {
      hide WorkList.Valid, WorkList.Pending, ListsOk, Reached;
      ghost var reach := marked;
      StartUnmarking(roots);
      assert roots[..0] == [];
      for k := 0 to |roots|
        invariant Unmarking(reach, roots, Forced(roots[..k]), []) && worklist.Pending() == []
        invariant HasRoots(g, scope, roots[..k], reach - marked)
      {
        NextRoot(roots, k);
        ghost var before := marked;
        if RootObject(roots[k]).Some? { RootReached(g, scope, roots, reach, k); }
        match roots[k] {
          case Try(op) => TryUnmarkAndUnmarkLoop(op, reach, roots, Forced(roots[..k]), k);
          case Force(op) => ForceUnmark(op, reach, roots, Forced(roots[..k]), k);
        }
        NextHasRoots(g, scope, roots, k, reach - before, reach - marked);
        assert Forced(roots[..k]) + {} == Forced(roots[..k]);
      }
      assert roots[..|roots|] == roots;
      assert [] + worklist.Pending() == [];
      AllErased(g, scope, roots, reach, marked);
    }

    lemma StartUnmarking(roots: seq<Root>)
      requires Valid() && RootsOk(g, roots) && worklist.Pending() == [] && Reached(g, scope, roots, marked)
      requires forall c :: c in repList <==> c in ChunksOf(g, marked)
      ensures Unmarking(marked, roots, Forced([]), []) && HasRoots(g, scope, [], marked - marked)
    {
      hide Reached;
      assert Forced([]) == {} && marked - marked == {};
      assert [] + worklist.Pending() == [];
    }

    /** CC_collectWithRoots from the marking phase on. The heap keeps exactly the
        chunks with something reachable, but for the stacks' own chunks, which
        are freed at the end; all marks and list tags are gone. */
    method CollectWithRoots(roots: seq<Root>, stack: nat, additionalStack: Option<nat>)
      returns (freed: seq<nat>, ghost reach: set<nat>)
      requires Valid() && RootsOk(g, roots) && marked == {} && repList == [] && worklist.Pending() == []
      requires Force(Some(stack)) in roots && InScope(g, scope, stack)
      requires additionalStack.Some? ==>
        && Force(additionalStack) in roots && InScope(g, scope, additionalStack.value)
        && g.chunkOf[additionalStack.value] != g.chunkOf[stack]
      modifies this, worklist
      ensures Reached(g, old(scope), roots, reach)
      ensures forall t: set<nat> :: Reached(g, old(scope), roots, t) ==> t == reach
      ensures forall o ::
        o in reach <==> o in g.chunkOf && g.chunkOf[o] in old(origList) && HasPath(g, old(scope), roots, o)
      ensures marked == {} && tmpHeap == map[]
      ensures multiset(origList) + multiset(freed) == multiset(old(origList))
      ensures forall c :: c in origList <==>
        && c in ChunksOf(g, reach) && c != g.chunkOf[stack]
        && (additionalStack.Some? ==> c != g.chunkOf[additionalStack.value])
    {
      hide WorkList.Valid, WorkList.Pending, Reached, FieldsOf, ChunksOf, RootsOk, HasPath;
      ListedOnce();
      assert multiset(origList) == multiset(scope);
      forall c ensures c in origList <==> c in scope { assert c in origList <==> c in multiset(origList); }
      MarkRoots(roots);
      reach := marked;
      forall o
        ensures o in reach <==> o in g.chunkOf && g.chunkOf[o] in old(origList) && HasPath(g, scope, roots, o)
      {
        ReachedIsPaths(g, scope, roots, reach, o);
      }
      forall t: set<nat> | Reached(g, scope, roots, t) ensures t == reach {
        ReachedUnique(g, scope, roots, t, reach);
      }
      UnmarkRoots(roots);
      hide ListsOk, GraphOk;
      ListedOnce();
      StackReached(g, scope, roots, reach, stack);
      if additionalStack.Some? { StackReached(g, scope, roots, reach, additionalStack.value); }
      freed := origList;
      origList, repList, tmpHeap := repList, [], map[];
      assert multiset(origList) + multiset(freed) == multiset(old(origList));
      freed := FreeChunk(g.chunkOf[stack], freed);
      if additionalStack.Some? {
        freed := FreeChunk(g.chunkOf[additionalStack.value], freed);
      }
    }

    /** Unlink a kept chunk and free it after all. */
    method FreeChunk(chunk: nat, freed: seq<nat>) returns (freed': seq<nat>)
      requires chunk in origList && forall c :: multiset(origList)[c] <= 1
      modifies this`origList
      ensures multiset(origList) + multiset(freed') == multiset(old(origList)) + multiset(freed)
      ensures forall c :: c in origList <==> c in old(origList) && c != chunk
      ensures forall c :: multiset(origList)[c] <= 1
    {
      WithoutOne(origList, chunk);
      ghost var list := origList;
      origList, freed' := Without(origList, chunk), freed + [chunk];
      LessOne(list, origList, chunk);
    }

    lemma ListedOnce()
      requires Valid()
      ensures multiset(origList) + multiset(repList) == multiset(scope)
      ensures forall c :: multiset(repList)[c] <= 1
    {
      forall c ensures multiset(repList)[c] <= 1 {
        assert (multiset(origList) + multiset(repList))[c] <= 1;
      }
    }
  }

  lemma LessOne(list: seq<nat>, less: seq<nat>, chunk: nat)
    requires multiset(list) == multiset(less) + multiset{chunk} && forall c :: multiset(list)[c] <= 1
    ensures forall c :: c in less <==> c in list && c != chunk
    ensures forall c :: multiset(less)[c] <= 1
  {
    forall c ensures multiset(list)[c] == multiset(less)[c] + multiset{chunk}[c] {
    }
    forall c ensures c in less <==> c in list && c != chunk {
      assert c in less <==> multiset(less)[c] > 0;
      assert c in list <==> multiset(list)[c] > 0;
    }
  }

  lemma StackReached(g: Graph, scope: set<nat>, roots: seq<Root>, reach: set<nat>, stack: nat)
    requires Reached(g, scope, roots, reach) && Force(Some(stack)) in roots && InScope(g, scope, stack)
    ensures g.chunkOf[stack] in ChunksOf(g, reach)
  {
    var k :| 0 <= k < |roots| && roots[k] == Force(Some(stack));
    RootReached(g, scope, roots, reach, k);
  }

  /** A second trace that has visited only part of what the first one reached
      would not be finished. */
  lemma AllErased(g: Graph, scope: set<nat>, roots: seq<Root>, reach: set<nat>, marked: set<nat>)
    requires Reached(g, scope, roots, reach) && marked <= reach
    requires Tracing(g, scope, reach - marked, Forced(roots), []) && HasRoots(g, scope, roots, reach - marked)
    ensures marked == {}
  {
    assert Closed(g, scope, roots, reach - marked);
  }

  lemma RootReached(g: Graph, scope: set<nat>, roots: seq<Root>, reach: set<nat>, k: nat)
    requires Reached(g, scope, roots, reach) && k < |roots| && RootObject(roots[k]).Some?
    ensures var op := RootObject(roots[k]).value; op in reach <==> InScope(g, scope, op)
  {
  }

  /** The second trace meets only what the first one reached. */
  lemma StaysReached(g: Graph, scope: set<nat>, roots: seq<Root>, reach: set<nat>, visited: set<nat>,
                     forced: set<nat>, f: Field, rest: seq<Field>)
    requires Reached(g, scope, roots, reach) && visited <= reach && forced <= Forced(roots)
    requires Tracing(g, scope, visited, forced, [f] + rest) && f in g.target
    ensures g.target[f] in reach <==> InScope(g, scope, g.target[f])
  {
    assert f in [f] + rest;
    assert Covered(g, scope, reach, f);
  }

  lemma IsForced(roots: seq<Root>, k: nat)
    requires k < |roots| && roots[k].Force? && roots[k].forced.Some?
    ensures roots[k].forced.value in Forced(roots)
  {
  }

  lemma NextRoot(roots: seq<Root>, k: nat)
    requires k < |roots|
    ensures Forced(roots[..k + 1]) == Forced(roots[..k])
      + (if roots[k].Force? && roots[k].forced.Some? then {roots[k].forced.value} else {})
  {
    assert roots[..k + 1] == roots[..k] + [roots[k]];
    var more := if roots[k].Force? && roots[k].forced.Some? then {roots[k].forced.value} else {};
    forall x | x in Forced(roots[..k]) + more ensures x in Forced(roots[..k + 1]) {
      if x in Forced(roots[..k]) {
        var i :| 0 <= i < k && roots[..k][i].Force? && roots[..k][i].forced.Some? && roots[..k][i].forced.value == x;
        assert roots[..k + 1][i] == roots[..k][i];
      } else {
        assert roots[..k + 1][k] == roots[k];
      }
    }
    forall x | x in Forced(roots[..k + 1]) ensures x in Forced(roots[..k]) + more {
      var i :| 0 <= i < k + 1 && roots[..k + 1][i].Force? && roots[..k + 1][i].forced.Some?
          && roots[..k + 1][i].forced.value == x;
      if i < k { assert roots[..k][i] == roots[..k + 1][i]; }
    }
  }

  lemma NextHasRoots(g: Graph, scope: set<nat>, roots: seq<Root>, k: nat, before: set<nat>, after: set<nat>)
    requires k < |roots| && HasRoots(g, scope, roots[..k], before) && before <= after
    requires RootObject(roots[k]).Some? && InScope(g, scope, RootObject(roots[k]).value) ==>
             RootObject(roots[k]).value in after
    ensures HasRoots(g, scope, roots[..k + 1], after)
  {
    var upTo := roots[..k + 1];
    forall i | 0 <= i < |upTo| && RootObject(upTo[i]).Some? && InScope(g, scope, RootObject(upTo[i]).value)
      ensures RootObject(upTo[i]).value in after
    {
      if i < k { assert roots[..k][i] == upTo[i]; }
    }
  }

  lemma MoreChunks(g: Graph, objects: set<nat>, o: nat)
    requires o in g.chunkOf
    ensures ChunksOf(g, objects + {o}) == ChunksOf(g, objects) + {g.chunkOf[o]}
  {
  }
}
