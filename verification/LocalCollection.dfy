/**
 The local collector's copying, level by level from the deepest: forward the
 roots, then at each depth the sources of down-pointers and the fields of
 everything that has been put there.
 */
module LocalCollection {
  import opened Options
  import opened LocalCopy

  class LocalCollector {
    const p: Scope
    var mem: map<nat, Object>
    var toSpace: seq<seq<nat>>
    var roots: seq<Value>              // stacks, threads, claimed slice of the deque
    var remFrom: seq<seq<Value>>       // per depth: sources of remembered down-pointers
    var frontier: nat                  // addresses from here on are free
    var objectsCopied: nat
    var objectsMoved: nat
    const start: seq<nat>              // per depth: where to-space begins
    // The heap and the roots before:
    ghost const m0: map<nat, Object>
    ghost const all: seq<Value>
    ghost var origin: map<nat, nat>

    ghost function View(): Heap
      reads this`mem, this`toSpace, this`origin
    {
      Heap(mem, toSpace, origin)
    }

    /** The sweep has come to pos. */
    ghost predicate At(pos: Pos)
      reads this`mem, this`toSpace, this`origin, this`frontier, this`objectsCopied, this`objectsMoved
    {
      && MemOk(p, m0) && NoDownPointers(p, m0) && |start| == p.maxDepth + 1
      && Inv(p, m0, all, View(), start, pos)
      && (forall a :: a in mem ==> a < frontier)
      && objectsCopied + objectsMoved == |origin| && objectsMoved == |InPlace(origin)|
    }

    /** v has to be followed, as a root or as a field of what was copied. */
    ghost predicate Due(v: Value) {
      (v.Ptr? ==> v.a in m0) && forall c: set<nat> :: Closed(p, m0, all, c) ==> Brings(p, m0, v, c)
    }

    constructor (p: Scope, mem: map<nat, Object>, toSpace: seq<seq<nat>>, roots: seq<Value>,
                 remFrom: seq<seq<Value>>, frontier: nat, ghost all: seq<Value>)
      requires MemOk(p, mem) && NoDownPointers(p, mem) && |toSpace| == |remFrom| == p.maxDepth + 1
      requires forall a :: a in mem ==> a < frontier
      ensures At(Pos(p.maxDepth + 1, 0, 0)) && this.p == p && m0 == mem && this.all == all && origin == map[]
      ensures this.roots == roots && this.remFrom == remFrom
      ensures start == seq(|toSpace|, d requires 0 <= d < |toSpace| => |toSpace[d]|)
    {
      this.p, this.mem, this.toSpace, this.roots, this.remFrom := p, mem, toSpace, roots, remFrom;
      this.frontier, objectsCopied, objectsMoved := frontier, 0, 0;
      m0, this.all, origin := mem, all, map[];
      start := seq(|toSpace|, d requires 0 <= d < |toSpace| => |toSpace[d]|);
      StartInv(p, mem, all, toSpace);
    }

    /** relocateObject: an object with a chunk to itself is moved with its chunk,
        any other is copied and leaves a forwarding pointer. */
    method RelocateObject(op: nat, ghost pos: Pos) returns (newPointer: nat)
      requires At(pos) && op in mem && Movable(p, mem[op]) && NotYet(View(), pos, mem[op].depth) && Due(Ptr(op))
      requires mem[op].unpinDepth.None?
      modifies this`mem, this`toSpace, this`frontier, this`objectsCopied, this`objectsMoved, this`origin
      ensures At(pos) && ForwardedTo(p, mem, Ptr(op), Ptr(newPointer))
      ensures old(|toSpace| > mem[op].depth && if mem[op].single then newPointer == op else newPointer !in mem)
      ensures View() == Relocated(old(View()), op, newPointer)
      ensures var o := old(mem)[op];
        && newPointer in mem && mem[newPointer] == Object(o.depth, o.fields, To, None, None, false, o.single)
        && (!o.single ==> op in mem && mem[op] == o.(forward := Some(newPointer)))
    {
      hide MemOk, NoDownPointers, Inv;
      ghost var s := View();
      var o := mem[op];
      newPointer := if o.single then op else frontier;
      Relocatable(pos, op, newPointer);
      InPlaceMore(origin, newPointer, op);
      RelocateKeeps(p, m0, all, s, start, pos, op, newPointer);
      RelocatedTo(p, s, op, newPointer);
      toSpace := toSpace[o.depth := toSpace[o.depth] + [newPointer]];
      if o.single {
        mem := mem[op := o.(space := To, unpinDepth := None)];
        objectsMoved := objectsMoved + 1;
      } else {
        mem := mem[op := o.(unpinDepth := None, forward := Some(newPointer))]
                  [newPointer := Object(o.depth, o.fields, To, None, None, false, false)];
        frontier := frontier + 1;
        objectsCopied := objectsCopied + 1;
      }
      origin := origin[newPointer := op];
    }

    lemma Relocatable(pos: Pos, a: nat, t: nat)
      requires At(pos) && a in mem && Movable(p, mem[a]) && Due(Ptr(a))
      requires t == if mem[a].single then a else frontier
      ensures |toSpace| == p.maxDepth + 1 && mem[a].depth < |toSpace| && t !in origin
      ensures forall c: set<nat> :: Closed(p, m0, all, c) ==> a in c
    {
      hide Closed;
      MovableIsOld(p, m0, View(), a);
      NotListed(p, m0, View(), start, a, t);
    }
  
    /** forwardHHObjptr: the value that the slot gets. */
    method ForwardHHObjptr(v: Value, ghost pos: Pos) returns (v': Value)
      requires At(pos) && Due(v)
      requires v.Ptr? && v.a in mem && Movable(p, mem[v.a]) ==> NotYet(View(), pos, mem[v.a].depth)
      modifies this`mem, this`toSpace, this`frontier, this`objectsCopied, this`objectsMoved, this`origin
      ensures At(pos) && ForwardedTo(p, mem, v, v')
      ensures Steady(p, old(View()), View()) && forall t :: t in old(mem) ==> mem[t].fields == old(mem)[t].fields
      ensures v.Data? ==> v' == v
      ensures v.Ptr? ==> v.a in old(mem) && v'.Ptr? && v'.a in mem
      ensures v.Ptr? ==>
        var o := old(mem)[v.a];
        if o.space.From? && p.minDepth <= o.depth <= p.maxDepth then
          if o.forward.Some? then v' == Ptr(o.forward.value) && mem == old(mem)
          else if o.marked || (o.unpinDepth.Some? && o.unpinDepth.value < o.depth) then v' == v && mem == old(mem)
          else mem[v'.a] == Object(o.depth, o.fields, To, None, None, false, o.single)
        else v' == v && mem == old(mem)
    {
      hide MemOk, NoDownPointers, Inv, Steady;
      OldThere(pos);
      ghost var s := View();
      SteadySame(p, s);
      if v.Data? {
        return v;
      }
      var op, o := v.a, mem[v.a];
      Stays(v, pos);
      if o.depth > p.maxDepth || o.depth < p.minDepth {
        return v;
      }
      if o.space.To? || o.space.Elsewhere? {
        return v;
      }
      if o.forward.Some? {
        return Ptr(o.forward.value);
      }
      if o.marked {
        return v;
      }
      if o.unpinDepth.Some? {
        if o.unpinDepth.value < o.depth {
          return v;
        }
        SteadyUnpinned(p, s, op);
        Unpin(op, pos);
      }
      ghost var s1 := View();
      var newPointer := RelocateObject(op, pos);
      SteadyRelocated(p, s1, op, newPointer);
      SteadyTrans(p, s, s1, View());
      return Ptr(newPointer);
    }

    lemma Stays(v: Value, pos: Pos)
      requires At(pos) && v.Ptr? && v.a in mem
      ensures !Movable(p, mem[v.a]) ==> ForwardedTo(p, mem, v, Fwd(p, mem, v))
    {
      hide NoDownPointers;
      if !Movable(p, mem[v.a]) { AlreadyForwarded(p, m0, View(), v); }
    }

    method Unpin(op: nat, ghost pos: Pos)
      requires At(pos) && op in mem && Movable(p, mem[op])
      modifies this`mem
      ensures At(pos) && View() == UnpinnedAt(old(View()), op)
    {
      hide MemOk, NoDownPointers, Inv;
      UnpinKeeps(p, m0, all, View(), start, pos, op);
      mem := mem[op := mem[op].(unpinDepth := None)];
    }
  
    // ----- the sweep -----

    ghost predicate PosOk(pos: Pos)
      reads this`toSpace
    {
      && pos.depth <= p.maxDepth + 1 && |toSpace| == p.maxDepth + 1
      && (pos.depth <= p.maxDepth ==>
            pos.index <= |toSpace[pos.depth]| && (pos.index == |toSpace[pos.depth]| ==> pos.field == 0))
    }

    lemma OldThere(pos: Pos)
      requires At(pos)
      ensures m0.Keys <= mem.Keys
    {
    }

    /** Following v from here puts nothing behind the sweep. */
    lemma GoesUp(v: Value, pos: Pos)
      requires At(pos) && PosOk(pos) && Due(v) && PointsUp(p, m0, pos.depth, v)
      ensures v.Ptr? && v.a in mem && Movable(p, mem[v.a]) ==> NotYet(View(), pos, mem[v.a].depth)
    {
      if v.Ptr? && v.a in mem && Movable(p, mem[v.a]) { MovableIsOld(p, m0, View(), v.a); }
    }

    /** Forward a list of slots that lie at or above the sweep. */
    method ForwardSlots(slots: seq<Value>, ghost pos: Pos) returns (slots': seq<Value>)
      requires At(pos) && PosOk(pos) && pos.field == 0
      requires forall k :: 0 <= k < |slots| ==> Due(slots[k]) && PointsUp(p, m0, pos.depth, slots[k])
      modifies this`mem, this`toSpace, this`frontier, this`objectsCopied, this`objectsMoved, this`origin
      ensures At(pos) && PosOk(pos) && Steady(p, old(View()), View())
      ensures |slots'| == |slots| && forall k :: 0 <= k < |slots| ==> ForwardedTo(p, mem, slots[k], slots'[k])
    {
      hide At, ForwardedTo, PointsUp;
      slots' := slots;
      SteadySame(p, View());
      OldThere(pos);
      for i := 0 to |slots|
        invariant At(pos) && PosOk(pos) && Steady(p, old(View()), View())
        invariant |slots'| == |slots|
        invariant forall k :: 0 <= k < i ==> ForwardedTo(p, mem, slots[k], slots'[k])
        invariant forall k :: i <= k < |slots| ==> slots'[k] == slots[k] && Due(slots[k])
        invariant m0.Keys <= mem.Keys
      {
        ghost var s := View();
        GoesUp(slots[i], pos);
        var v := ForwardHHObjptr(slots'[i], pos);
        slots' := slots'[i := v];
        SteadyTrans(p, old(View()), s, View());
      }
    }
  
    /** The current field of the object at pos: still as in the original, so its
        target is due, and not deeper than the sweep. */
    lemma CurrentField(pos: Pos)
      requires At(pos) && PosOk(pos) && AtPos(View(), start, pos)
      ensures var t := toSpace[pos.depth][pos.index];
        && Due(mem[t].fields[pos.field]) && PointsUp(p, m0, pos.depth, mem[t].fields[pos.field])
    {
      hide Old, OnLists, Closed, Movable;
      var t, k := toSpace[pos.depth][pos.index], pos.field;
      assert IsField(View(), start, pos.depth, pos.index, k) && !Done(pos, pos.depth, pos.index, k);
      assert FieldOk(p, m0, View(), t, k, false);
      assert NewOk(p, m0, View(), t);
      var a := origin[t];
      forall c: set<nat> | Closed(p, m0, all, c) ensures Brings(p, m0, m0[a].fields[k], c) {
        assert a in c;
        ClosedBrings(p, m0, all, c, a, k);
      }
    }

    /** Forward the fields of one new object in place. */
    method ScanObject(ghost pos: Pos, op: nat)
      requires At(pos) && PosOk(pos) && pos.field == 0 && pos.depth < |toSpace|
      requires start[pos.depth] <= pos.index < |toSpace[pos.depth]| && op == toSpace[pos.depth][pos.index]
      modifies this`mem, this`toSpace, this`frontier, this`objectsCopied, this`objectsMoved, this`origin
      ensures At(pos.(index := pos.index + 1)) && PosOk(pos.(index := pos.index + 1))
      ensures Steady(p, old(View()), View())
    {
      hide At, ForwardedTo, PointsUp, Due;
      SteadySame(p, View());
      NewThere(pos);
      for k := 0 to |mem[op].fields|
        invariant At(pos.(field := k)) && PosOk(pos.(field := k)) && Steady(p, old(View()), View())
        invariant op in mem && |mem[op].fields| == old(|mem[op].fields|)
        invariant toSpace[pos.depth][pos.index] == op
      {
        ghost var s, pos' := View(), pos.(field := k);
        AtField(pos');
        CurrentField(pos');
        GoesUp(mem[op].fields[k], pos');
        var v := ForwardHHObjptr(mem[op].fields[k], pos');
        ghost var s1 := View();
        assert s1.toSpace[pos.depth][pos.index] == op;
        StoreForwarded(op, k, v, pos');
        SteadyTrans(p, old(View()), s, s1);
        SteadyTrans(p, old(View()), s1, View());
      }
      ObjectDone(pos.(field := |mem[op].fields|));
    }

    lemma NewThere(pos: Pos)
      requires At(pos) && pos.depth < |toSpace| && start[pos.depth] <= pos.index < |toSpace[pos.depth]|
      ensures toSpace[pos.depth][pos.index] in mem
    {
    }

    lemma AtField(pos: Pos)
      requires At(pos) && pos.depth < |toSpace| && start[pos.depth] <= pos.index < |toSpace[pos.depth]|
      requires toSpace[pos.depth][pos.index] in mem && pos.field < |mem[toSpace[pos.depth][pos.index]].fields|
      ensures AtPos(View(), start, pos)
    {
    }

    method StoreForwarded(op: nat, k: nat, v: Value, ghost pos: Pos)
      requires At(pos) && pos.depth < |toSpace| && start[pos.depth] <= pos.index < |toSpace[pos.depth]|
      requires toSpace[pos.depth][pos.index] == op && op in mem && k == pos.field < |mem[op].fields|
      requires ForwardedTo(p, mem, mem[op].fields[k], v)
      modifies this`mem
      ensures At(pos.(field := k + 1)) && Steady(p, old(View()), View())
      ensures mem.Keys == old(mem).Keys && |mem[op].fields| == old(|mem[op].fields|)
    {
      hide MemOk, NoDownPointers, Inv, Fwd, Settled, Steady;
      AtField(pos);
      StoreKeeps(p, m0, all, View(), start, pos);
      SteadyStored(p, View(), op, k, v);
      mem := mem[op := mem[op].(fields := mem[op].fields[k := v])];
    }

    lemma ObjectDone(pos: Pos)
      requires At(pos) && pos.depth < |toSpace| && start[pos.depth] <= pos.index < |toSpace[pos.depth]|
      requires toSpace[pos.depth][pos.index] in mem && pos.field == |mem[toSpace[pos.depth][pos.index]].fields|
      ensures At(Pos(pos.depth, pos.index + 1, 0))
    {
      hide Old, New, OnLists, Below, MemOk, NoDownPointers;
      NextObject(p, m0, View(), start, pos);
    }

    /** HM_forwardHHObjptrsInChunkList at one depth: the list grows meanwhile. */
    method ScanLevel(depth: nat)
      requires depth <= p.maxDepth && |start| == p.maxDepth + 1
      requires At(Pos(depth, start[depth], 0)) && PosOk(Pos(depth, start[depth], 0))
      modifies this`mem, this`toSpace, this`frontier, this`objectsCopied, this`objectsMoved, this`origin
      ensures |toSpace| == p.maxDepth + 1 && At(Pos(depth, |toSpace[depth]|, 0))
              && PosOk(Pos(depth, |toSpace[depth]|, 0))
      ensures Steady(p, old(View()), View())
    {
      hide At, ForwardedTo;
      SteadySame(p, View());
      var i := start[depth];
      while i < |toSpace[depth]|
        invariant |toSpace| == p.maxDepth + 1 && start[depth] <= i <= |toSpace[depth]|
        invariant At(Pos(depth, i, 0)) && PosOk(Pos(depth, i, 0)) && Steady(p, old(View()), View())
        decreases Movables(p, mem), |toSpace[depth]| - i
      {
        ghost var s := View();
        ScanObject(Pos(depth, i, 0), toSpace[depth][i]);
        SteadyTrans(p, old(View()), s, View());
        i := i + 1;
      }
    }

    /** Where the sweep is when everything from this depth down is done. */
    ghost function Through(depth: nat): Pos
      reads this`toSpace
    {
      Pos(depth, if depth < |toSpace| then |toSpace[depth]| else 0, 0)
    }

    lemma LevelDone(depth: nat)
      requires 0 < depth <= p.maxDepth + 1 && At(Through(depth))
      ensures |start| == |toSpace| == p.maxDepth + 1
      ensures At(Pos(depth - 1, start[depth - 1], 0)) && PosOk(Pos(depth - 1, start[depth - 1], 0))
    {
      hide Old, New, OnLists, Below, MemOk, NoDownPointers;
      NextLevel(p, m0, View(), start, Through(depth));
    }

    /** The remembered sources at depth may be forwarded when the sweep gets there. */
    ghost predicate Sources(rem0: seq<seq<Value>>) {
      && |rem0| == p.maxDepth + 1 && (forall d :: 0 <= d < p.minDepth && d < |rem0| ==> rem0[d] == [])
      && forall d: nat, k: nat :: d < |rem0| && k < |rem0[d]| ==> Due(rem0[d][k]) && PointsUp(p, m0, d, rem0[d][k])
    }

    lemma SlotsIn(rem0: seq<seq<Value>>, d: nat)
      requires Sources(rem0) && d < |rem0|
      ensures forall k :: 0 <= k < |rem0[d]| && rem0[d][k].Ptr? ==> rem0[d][k].a in m0
    {
      assert forall k: nat :: k < |rem0[d]| ==> Due(rem0[d][k]);
    }

    /** One depth of the sweep: sources of down-pointers, then the new objects. */
    method SweepLevel(depth: nat, ghost rem0: seq<seq<Value>>)
      requires Sources(rem0) && depth <= p.maxDepth && At(Through(depth + 1))
      requires |remFrom| == |rem0| && remFrom[depth] == rem0[depth] && |toSpace| == p.maxDepth + 1
      modifies this
      ensures At(Through(depth)) && Steady(p, old(View()), View()) && roots == old(roots)
      ensures |remFrom| == |rem0| && remFrom == old(remFrom)[depth := remFrom[depth]]
      ensures SlotsOk(p, mem, rem0[depth], remFrom[depth])
    {
      hide At, ForwardedTo, PointsUp, Due;
      LevelDone(depth + 1);
      OldThere(Through(depth + 1));
      ghost var s := View();
      var slots := ForwardSlots(remFrom[depth], Pos(depth, start[depth], 0));
      ghost var s1 := View();
      remFrom := remFrom[depth := slots];
      ScanLevel(depth);
      SteadyTrans(p, s, s1, View());
      SlotsIn(rem0, depth);
      SlotsStay(p, s1, View(), rem0[depth], slots);
    }

    /** The sweep, from the current depth up to the shallowest one in scope. */
    method Sweep(ghost rem0: seq<seq<Value>>)
      requires Sources(rem0) && remFrom == rem0 && p.minDepth <= p.maxDepth + 1
      requires At(Pos(p.maxDepth + 1, 0, 0)) && |toSpace| == p.maxDepth + 1
      modifies this
      ensures At(Through(p.minDepth)) && Steady(p, old(View()), View()) && roots == old(roots)
      ensures |remFrom| == |rem0| && forall d :: p.minDepth <= d < |rem0| ==> SlotsOk(p, mem, rem0[d], remFrom[d])
    {
      hide At, SlotsOk;
      var depth := p.maxDepth + 1;
      SteadySame(p, View());
      while depth > p.minDepth
        invariant p.minDepth <= depth <= p.maxDepth + 1 && |toSpace| == p.maxDepth + 1 && |remFrom| == |rem0|
        invariant At(Through(depth)) && Steady(p, old(View()), View()) && roots == old(roots)
        invariant forall d :: depth <= d < |rem0| ==> SlotsOk(p, mem, rem0[d], remFrom[d])
        invariant forall d :: 0 <= d < depth && d < |rem0| ==> remFrom[d] == rem0[d]
      {
        OldThere(Through(depth));
        depth := depth - 1;
        ghost var s, rem := View(), remFrom;
        SweepLevel(depth, rem0);
        SteadyTrans(p, old(View()), s, View());
        forall d | depth < d < |rem0| ensures SlotsOk(p, mem, rem0[d], remFrom[d]) {
          SlotsIn(rem0, d);
          SlotsStay(p, s, View(), rem0[d], rem[d]);
        }
      }
    }

    /** All the slots: the roots and the remembered sources. */
    ghost predicate Rooted(rem0: seq<seq<Value>>)
      reads this`roots
    {
      && Sources(rem0) && (forall k :: 0 <= k < |roots| ==> Due(roots[k]))
      && forall k :: 0 <= k < |all| ==> all[k] in roots || InSome(rem0, all[k])
    }

    /** The copying part of HM_HHC_collectLocal. */
    method CollectLocal()
      requires At(Pos(p.maxDepth + 1, 0, 0)) && p.minDepth <= p.maxDepth + 1 && Rooted(remFrom)
      modifies this
      ensures Copied(p, m0, all, View()) && Old(p, m0, View())
      ensures forall a :: a in origin.Values <==> HasPath(p, m0, all, a)
      ensures Listed(p, View(), start) && OnLists(p, View(), start)
      ensures SlotsOk(p, mem, old(roots), roots)
      ensures |remFrom| == |old(remFrom)|
      ensures forall d :: p.minDepth <= d < |remFrom| ==> SlotsOk(p, mem, old(remFrom)[d], remFrom[d])
      ensures objectsCopied + objectsMoved == |origin| && objectsMoved == |InPlace(origin)|
      ensures forall a :: Traced(p, m0, a) ==> a in m0 && a in mem && mem[a] == m0[a] && Traced(p, mem, a)
      ensures forall t :: t in origin ==>
        && t in mem && origin[t] in m0
        && mem[t] == Object(m0[origin[t]].depth, mem[t].fields, To, None, None, false, m0[origin[t]].single)
      ensures HeapOk(m0) && StayingTraced(p, m0) ==> HeapOk(Afterwards(p, mem))
    {
      hide At, ForwardedTo, PointsUp, Due, Copied, Inv, SlotsOk, Listed, OnLists, Old, Traced, HeapOk, StayingTraced,
        Afterwards, HasPath;
      ghost var pos := Pos(p.maxDepth + 1, 0, 0);
      Opening(remFrom);
      ghost var rem0 := remFrom;
      var slots := ForwardSlots(roots, pos);
      ghost var s := View();
      Slots(p, mem, roots, slots);
      roots := slots;
      Sweep(rem0);
      SlotsStay(p, s, View(), old(roots), roots);
      Closing(old(roots), rem0);
      forall a ensures a in origin.Values <==> HasPath(p, m0, all, a) { CopiedIsPaths(p, m0, all, View(), a); }
    }

    lemma Opening(rem0: seq<seq<Value>>)
      requires At(Pos(p.maxDepth + 1, 0, 0)) && Rooted(rem0)
      ensures PosOk(Pos(p.maxDepth + 1, 0, 0)) && |toSpace| == p.maxDepth + 1 && m0.Keys <= mem.Keys
      ensures forall k :: 0 <= k < |roots| ==> PointsUp(p, m0, p.maxDepth + 1, roots[k])
      ensures forall k :: 0 <= k < |roots| && roots[k].Ptr? ==> roots[k].a in m0
    {
      hide Closed;
      assert forall k :: 0 <= k < |roots| ==> Due(roots[k]);
    }

    /** Every slot is settled, so the sweep has reached everything. */
    lemma Closing(roots0: seq<Value>, rem0: seq<seq<Value>>)
      requires At(Through(p.minDepth)) && SlotsOk(p, mem, roots0, roots) && Sources(rem0) && |remFrom| == |rem0|
      requires forall d :: p.minDepth <= d < |rem0| ==> SlotsOk(p, mem, rem0[d], remFrom[d])
      requires forall k :: 0 <= k < |all| ==> all[k] in roots0 || InSome(rem0, all[k])
      ensures Copied(p, m0, all, View()) && Old(p, m0, View())
      ensures Listed(p, View(), start) && OnLists(p, View(), start)
      ensures objectsCopied + objectsMoved == |origin| && objectsMoved == |InPlace(origin)|
      ensures forall a :: Traced(p, m0, a) ==> a in m0 && a in mem && mem[a] == m0[a] && Traced(p, mem, a)
      ensures forall t :: t in origin ==> NewOk(p, m0, View(), t)
      ensures HeapOk(m0) && StayingTraced(p, m0) ==> HeapOk(Afterwards(p, mem))
    {
      hide Due, Copied, MemOk, NoDownPointers, Old, New, OnLists, Fields, Below, PointsUp, Traced, HeapOk,
        StayingTraced, Afterwards, NewOk;
      forall a | Traced(p, m0, a) ensures a in m0 && a in mem && mem[a] == m0[a] && Traced(p, mem, a) {
        TracedStays(p, m0, View(), a);
      }
      forall k | 0 <= k < |all| ensures Settled(p, mem, Fwd(p, mem, all[k])) {
        if all[k] in roots0 {
          var j :| 0 <= j < |roots0| && roots0[j] == all[k];
          assert ForwardedTo(p, mem, roots0[j], roots[j]);
        } else {
          var d, j :| 0 <= d < |rem0| && 0 <= j < |rem0[d]| && rem0[d][j] == all[k];
          assert SlotsOk(p, mem, rem0[d], remFrom[d]);
          assert ForwardedTo(p, mem, rem0[d][j], remFrom[d][j]);
        }
      }
      SweepCopies(p, m0, all, View(), start, Through(p.minDepth));
      NewAreOk(p, m0, View());
      if HeapOk(m0) && StayingTraced(p, m0) { ReadyForNext(p, m0, all, View()); }
    }
  }

  /** New objects that are old ones whose chunk has moved. */
  ghost function InPlace(origin: map<nat, nat>): set<nat> { set t | t in origin && origin[t] == t }

  lemma InPlaceMore(origin: map<nat, nat>, t: nat, a: nat)
    requires t !in origin
    ensures |InPlace(origin[t := a])| == |InPlace(origin)| + (if t == a then 1 else 0)
  {
    assert InPlace(origin[t := a]) == InPlace(origin) + (if t == a then {t} else {});
  }

  ghost predicate InSome(lists: seq<seq<Value>>, v: Value) {
    exists d, j :: 0 <= d < |lists| && 0 <= j < |lists[d]| && lists[d][j] == v
  }

  lemma Slots(p: Scope, mem: map<nat, Object>, slots0: seq<Value>, slots: seq<Value>)
    requires |slots| == |slots0| && forall k :: 0 <= k < |slots0| ==> ForwardedTo(p, mem, slots0[k], slots[k])
    ensures SlotsOk(p, mem, slots0, slots)
  {
  }

  lemma ClosedBrings(p: Scope, m0: map<nat, Object>, roots: seq<Value>, c: set<nat>, a: nat, k: nat)
    requires Closed(p, m0, roots, c) && a in c && a in m0 && k < |m0[a].fields|
    ensures Brings(p, m0, m0[a].fields[k], c)
  {
  }

  /** Slots hold where their old values lead now. */
  predicate SlotsOk(p: Scope, mem: map<nat, Object>, slots0: seq<Value>, slots: seq<Value>) {
    |slots| == |slots0| && forall k :: 0 <= k < |slots0| ==> ForwardedTo(p, mem, slots0[k], slots[k])
  }

  lemma SlotsStay(p: Scope, s: Heap, s': Heap, slots0: seq<Value>, slots: seq<Value>)
    requires Steady(p, s, s') && SlotsOk(p, s.mem, slots0, slots)
    requires forall k :: 0 <= k < |slots0| && slots0[k].Ptr? ==> slots0[k].a in s.mem
    ensures SlotsOk(p, s'.mem, slots0, slots)
  {
  }
}
