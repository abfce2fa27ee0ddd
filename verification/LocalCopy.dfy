/**
 What the local collector's copying has to keep: memory as it was, memory as it
 is, and a record of which object each new one came from.
 */
module LocalCopy {
  import opened Options

  datatype Value = Ptr(a: nat) | Data(bits: int)

  datatype Space = From | To | Elsewhere

  /** single says that the object has a chunk to itself. */
  datatype Object = Object(
    depth: nat,
    fields: seq<Value>,
    space: Space,
    forward: Option<nat>,
    unpinDepth: Option<nat>,
    marked: bool,
    single: bool)

  /** The depths in scope of the collection. */
  datatype Scope = Scope(minDepth: nat, maxDepth: nat)

  /** toSpace lists, for each depth, the objects in the order of their addresses;
      origin tells where those of this collection came from. */
  datatype Heap = Heap(mem: map<nat, Object>, toSpace: seq<seq<nat>>, origin: map<nat, nat>)

  predicate InScope(p: Scope, o: Object) { p.minDepth <= o.depth <= p.maxDepth && o.space.From? }

  /** Stays where it is: collected in place, or pinned from a shallower depth. */
  predicate Kept(o: Object) {
    o.marked || (o.unpinDepth.Some? && o.unpinDepth.value < o.depth)
  }

  /** Has to be relocated once it is met. */
  predicate Movable(p: Scope, o: Object) { InScope(p, o) && o.forward.None? && !Kept(o) }

  predicate Forwarded(p: Scope, o: Object) { InScope(p, o) && o.forward.Some? }

  /** Where a value leads, following the forwarding pointer if there is one. */
  function Fwd(p: Scope, mem: map<nat, Object>, v: Value): Value {
    if v.Ptr? && v.a in mem && Forwarded(p, mem[v.a]) then Ptr(mem[v.a].forward.value) else v
  }

  /** Not a pointer to anything that is about to go away. */
  predicate Settled(p: Scope, mem: map<nat, Object>, v: Value) {
    v.Ptr? ==> v.a in mem && !Movable(p, mem[v.a]) && !Forwarded(p, mem[v.a])
  }

  function Unpinned(o: Object): Object { o.(unpinDepth := None) }

  // ----- the heap before the sweep -----

  /** Every pointer is one; forwarding leads to to-space at the same depth. */
  ghost predicate MemOk(p: Scope, m: map<nat, Object>) {
    forall a :: a in m ==>
      && (forall k :: 0 <= k < |m[a].fields| && m[a].fields[k].Ptr? ==> m[a].fields[k].a in m)
      && (Forwarded(p, m[a]) ==> m[a].forward.value in m && m[m[a].forward.value].space.To?)
  }

  /** Down-pointers have had their targets pinned: whatever still has to move is
      pointed at, from what has to move, only from its own depth or deeper. */
  ghost predicate NoDownPointers(p: Scope, m: map<nat, Object>) {
    forall a, k :: a in m && Movable(p, m[a]) && 0 <= k < |m[a].fields| ==> PointsUp(p, m, m[a].depth, m[a].fields[k])
  }

  predicate PointsUp(p: Scope, m: map<nat, Object>, depth: nat, v: Value) {
    v.Ptr? && v.a in m && Movable(p, m[v.a]) ==> m[v.a].depth <= depth
  }

  // ----- how far the sweep is -----

  /** Levels deeper than depth are done; at depth, objects below index are done;
      of the object at index, fields below field. */
  datatype Pos = Pos(depth: nat, index: nat, field: nat)

  predicate Done(pos: Pos, d: nat, i: nat, k: nat) {
    d > pos.depth || (d == pos.depth && (i < pos.index || (i == pos.index && k < pos.field)))
  }

  // ----- the invariant -----

  /** What has become of old object a. */
  predicate OldOk(p: Scope, o: Object, s: Heap, a: nat)
    requires a in s.mem
  {
    || s.mem[a] == o
    || (Movable(p, o) && s.mem[a] == Unpinned(o))
    || (Movable(p, o) && !o.single && s.mem[a].forward.Some?
       && s.mem[a] == o.(unpinDepth := None, forward := s.mem[a].forward)
        && s.mem[a].forward.value in s.origin && s.origin[s.mem[a].forward.value] == a)
    || (Movable(p, o) && o.single && a in s.origin && s.origin[a] == a && s.mem[a].space.To?)
  }

  ghost predicate Old(p: Scope, m0: map<nat, Object>, s: Heap) {
    forall a :: a in m0 ==> a in s.mem && OldOk(p, m0[a], s, a)
  }

  /** New object t stands for exactly one old object. */
  predicate NewOk(p: Scope, m0: map<nat, Object>, s: Heap, t: nat)
    requires t in s.origin
  {
    var a := s.origin[t];
    && a in m0 && a in s.mem && Movable(p, m0[a]) && t in s.mem
    && s.mem[t].space.To? && s.mem[t].depth == m0[a].depth && |s.mem[t].fields| == |m0[a].fields|
    && s.mem[t].forward.None? && s.mem[t].unpinDepth.None? && !s.mem[t].marked && s.mem[t].single == m0[a].single
    && (if m0[a].single then t == a else t !in m0 && s.mem[a].forward == Some(t))
  }

  ghost predicate New(p: Scope, m0: map<nat, Object>, s: Heap) {
    && s.mem.Keys == m0.Keys + s.origin.Keys
    && forall t :: t in s.origin ==> NewOk(p, m0, s, t)
  }

  /** From start on, the lists hold exactly the new objects, each once. */
  ghost predicate Listed(p: Scope, s: Heap, start: seq<nat>) {
    && |s.toSpace| == |start| == p.maxDepth + 1
    && (forall d :: 0 <= d < |start| ==> start[d] <= |s.toSpace[d]|)
    && (forall d, i :: 0 <= d < |start| && start[d] <= i < |s.toSpace[d]| ==>
          s.toSpace[d][i] in s.origin && s.toSpace[d][i] in s.mem && s.mem[s.toSpace[d][i]].depth == d)
    && (forall d, i, j :: 0 <= d < |start| && start[d] <= i < j < |s.toSpace[d]| ==> s.toSpace[d][i] != s.toSpace[d][j])
  }

  ghost predicate OnLists(p: Scope, s: Heap, start: seq<nat>) {
    |s.toSpace| == |start| == p.maxDepth + 1 && forall t :: t in s.origin ==> OnList(s, start, t)
  }

  ghost predicate OnList(s: Heap, start: seq<nat>, t: nat)
    requires |s.toSpace| == |start|
  {
    t in s.mem && s.mem[t].depth < |start|
    && exists i :: start[s.mem[t].depth] <= i < |s.toSpace[s.mem[t].depth]| && s.toSpace[s.mem[t].depth][i] == t
  }

  /** Field k of the new object t is still as copied, or forwarded for good. */
  predicate FieldOk(p: Scope, m0: map<nat, Object>, s: Heap, t: nat, k: nat, done: bool) {
    && t in s.mem && t in s.origin && s.origin[t] in m0
    && k < |s.mem[t].fields| && k < |m0[s.origin[t]].fields|
    && var now, was := s.mem[t].fields[k], m0[s.origin[t]].fields[k];
       if done then now == Fwd(p, s.mem, was) && Settled(p, s.mem, now) else now == was
  }

  ghost predicate Fields(p: Scope, m0: map<nat, Object>, s: Heap, start: seq<nat>, pos: Pos) {
    |s.toSpace| == |start| &&
    forall d: nat, i: nat, k: nat {:trigger Done(pos, d, i, k)} :: IsField(s, start, d, i, k) ==>
      FieldOk(p, m0, s, s.toSpace[d][i], k, Done(pos, d, i, k))
  }

  /** Field k of the i-th object at depth d, which this collection put there. */
  ghost predicate IsField(s: Heap, start: seq<nat>, d: nat, i: nat, k: nat) {
    && d < |start| && d < |s.toSpace| && start[d] <= i < |s.toSpace[d]|
    && s.toSpace[d][i] in s.mem && k < |s.mem[s.toSpace[d][i]].fields|
  }

  /** Closed under what has to move with what moves. */
  ghost predicate Closed(p: Scope, m0: map<nat, Object>, roots: seq<Value>, c: set<nat>) {
    && (forall k :: 0 <= k < |roots| ==> Brings(p, m0, roots[k], c))
    && (forall a, k :: a in c && a in m0 && 0 <= k < |m0[a].fields| ==> Brings(p, m0, m0[a].fields[k], c))
  }

  predicate Brings(p: Scope, m0: map<nat, Object>, v: Value, c: set<nat>) {
    v.Ptr? && v.a in m0 && Movable(p, m0[v.a]) ==> v.a in c
  }

  /** Only what the roots reach has been moved. */
  ghost predicate Below(p: Scope, m0: map<nat, Object>, roots: seq<Value>, s: Heap) {
    forall c: set<nat>, t :: Closed(p, m0, roots, c) && t in s.origin ==> s.origin[t] in c
  }

  ghost predicate Inv(p: Scope, m0: map<nat, Object>, roots: seq<Value>, s: Heap, start: seq<nat>, pos: Pos) {
    && Old(p, m0, s) && New(p, m0, s) && Listed(p, s, start) && OnLists(p, s, start)
    && Fields(p, m0, s, start, pos) && Below(p, m0, roots, s)
  }

  // ----- relocating -----

  /** The heap after object a has been moved with its chunk, or copied to t. */
  function Relocated(s: Heap, a: nat, t: nat): Heap
    requires a in s.mem && s.mem[a].depth < |s.toSpace|
  {
    var o := s.mem[a];
    var list := s.toSpace[o.depth := s.toSpace[o.depth] + [t]];
    if o.single then
      Heap(s.mem[a := o.(space := To, unpinDepth := None)], list, s.origin[t := a])
    else
      Heap(s.mem[a := o.(unpinDepth := None, forward := Some(t))]
                [t := Object(o.depth, o.fields, To, None, None, false, false)],
           list, s.origin[t := a])
  }

  /** Object a may be relocated to t. */
  ghost predicate CanRelocate(p: Scope, m0: map<nat, Object>, s: Heap, a: nat, t: nat) {
    && a in s.mem && Movable(p, s.mem[a]) && |s.toSpace| == p.maxDepth + 1
    && a in m0 && Unpinned(s.mem[a]) == Unpinned(m0[a]) && Movable(p, m0[a])
    && if s.mem[a].single then t == a else t !in s.mem
  }

  lemma NewAreTo(p: Scope, m0: map<nat, Object>, s: Heap)
    requires New(p, m0, s)
    ensures forall t :: t in s.origin ==> t in s.mem && s.mem[t].space.To?
  {
    forall t | t in s.origin ensures t in s.mem && s.mem[t].space.To? {
      assert NewOk(p, m0, s, t);
    }
  }

  lemma NewAreOk(p: Scope, m0: map<nat, Object>, s: Heap)
    requires New(p, m0, s)
    ensures forall t :: t in s.origin ==> NewOk(p, m0, s, t)
  {
  }

  /** What can be moved is an old object as it was. */
  lemma MovableIsOld(p: Scope, m0: map<nat, Object>, s: Heap, a: nat)
    requires Old(p, m0, s) && New(p, m0, s) && a in s.mem && Movable(p, s.mem[a])
    ensures a in m0 && Unpinned(s.mem[a]) == Unpinned(m0[a]) && Movable(p, m0[a]) && a !in s.origin
  {
    NewAreTo(p, m0, s);
    assert a in m0 ==> OldOk(p, m0[a], s, a);
  }

  lemma RelocateOld(p: Scope, m0: map<nat, Object>, s: Heap, a: nat, t: nat)
    requires Old(p, m0, s) && New(p, m0, s) && CanRelocate(p, m0, s, a, t)
    ensures Old(p, m0, Relocated(s, a, t))
  {
    MovableIsOld(p, m0, s, a);
    forall b | b in m0 ensures b in Relocated(s, a, t).mem && OldOk(p, m0[b], Relocated(s, a, t), b) {
      assert OldOk(p, m0[b], s, b);
    }
  }

  lemma RelocateNew(p: Scope, m0: map<nat, Object>, s: Heap, a: nat, t: nat)
    requires Old(p, m0, s) && New(p, m0, s) && CanRelocate(p, m0, s, a, t)
    ensures New(p, m0, Relocated(s, a, t))
  {
    hide Old, NewOk;
    var s' := Relocated(s, a, t);
    MovableIsOld(p, m0, s, a);
    RelocatedKeys(p, m0, s, a, t);
    forall u | u in s'.origin ensures NewOk(p, m0, s', u) {
      if u == t { RelocatedIsNew(p, m0, s, a, t); } else { RelocateNewAt(p, m0, s, a, t, u); }
    }
  }

  lemma RelocatedKeys(p: Scope, m0: map<nat, Object>, s: Heap, a: nat, t: nat)
    requires CanRelocate(p, m0, s, a, t)
    ensures a in s.mem && s.mem[a].depth < |s.toSpace|
    ensures Relocated(s, a, t).mem.Keys == s.mem.Keys + {t}
    ensures Relocated(s, a, t).origin.Keys == s.origin.Keys + {t}
  {
  }

  lemma RelocatedIsNew(p: Scope, m0: map<nat, Object>, s: Heap, a: nat, t: nat)
    requires CanRelocate(p, m0, s, a, t) && m0.Keys <= s.mem.Keys
    ensures t in Relocated(s, a, t).origin && NewOk(p, m0, Relocated(s, a, t), t)
  {
  }

  /** One that is new already stays so: it is not what moves, nor stands for it. */
  lemma RelocateNewAt(p: Scope, m0: map<nat, Object>, s: Heap, a: nat, t: nat, u: nat)
    requires CanRelocate(p, m0, s, a, t) && u in s.origin && NewOk(p, m0, s, u) && a !in s.origin && u != t
    ensures u in Relocated(s, a, t).origin && NewOk(p, m0, Relocated(s, a, t), u)
  {
  }

  lemma RelocateListed(p: Scope, m0: map<nat, Object>, s: Heap, start: seq<nat>, a: nat, t: nat)
    requires New(p, m0, s) && Old(p, m0, s) && CanRelocate(p, m0, s, a, t) && Listed(p, s, start)
    ensures Listed(p, Relocated(s, a, t), start)
  {
    hide Old;
    var s', e := Relocated(s, a, t), s.mem[a].depth;
    NotListed(p, m0, s, start, a, t);
    forall d, i | 0 <= d < |start| && start[d] <= i < |s'.toSpace[d]|
      ensures s'.toSpace[d][i] in s'.origin && s'.toSpace[d][i] in s'.mem && s'.mem[s'.toSpace[d][i]].depth == d
    {
      if d != e || i < |s.toSpace[d]| { assert s'.toSpace[d][i] == s.toSpace[d][i]; }
    }
    forall d, i, j | 0 <= d < |start| && start[d] <= i < j < |s'.toSpace[d]|
      ensures s'.toSpace[d][i] != s'.toSpace[d][j]
    {
      assert s'.toSpace[d][i] == s.toSpace[d][i];
      if d != e || j < |s.toSpace[d]| { assert s'.toSpace[d][j] == s.toSpace[d][j]; }
    }
  }

  /** The address relocated to is on no list yet. */
  lemma NotListed(p: Scope, m0: map<nat, Object>, s: Heap, start: seq<nat>, a: nat, t: nat)
    requires New(p, m0, s) && Old(p, m0, s) && CanRelocate(p, m0, s, a, t) && Listed(p, s, start)
    ensures t !in s.origin
    ensures forall d, i :: 0 <= d < |start| && start[d] <= i < |s.toSpace[d]| ==>
            s.toSpace[d][i] != t && s.toSpace[d][i] != a
  {
    MovableIsOld(p, m0, s, a);
    assert s.origin.Keys <= s.mem.Keys;
  }

  lemma RelocateOnLists(p: Scope, m0: map<nat, Object>, s: Heap, start: seq<nat>, a: nat, t: nat)
    requires New(p, m0, s) && Old(p, m0, s) && CanRelocate(p, m0, s, a, t) && Listed(p, s, start)
             && OnLists(p, s, start)
    ensures OnLists(p, Relocated(s, a, t), start)
  {
    hide Old, New;
    var s', e := Relocated(s, a, t), s.mem[a].depth;
    NotListed(p, m0, s, start, a, t);
    forall u | u in s'.origin ensures OnList(s', start, u) {
      if u == t {
        assert s'.toSpace[e][|s.toSpace[e]|] == t;
      } else {
        assert OnList(s, start, u);
        var i :| start[s.mem[u].depth] <= i < |s.toSpace[s.mem[u].depth]| && s.toSpace[s.mem[u].depth][i] == u;
        assert u != a;
        assert s'.toSpace[s.mem[u].depth][i] == u;
      }
    }
  }

  lemma RelocateValue(p: Scope, s: Heap, a: nat, t: nat, v: Value)
    requires a in s.mem && Movable(p, s.mem[a]) && s.mem[a].depth < |s.toSpace|
    requires if s.mem[a].single then t == a else t !in s.mem
    ensures Settled(p, s.mem, v) ==> Settled(p, Relocated(s, a, t).mem, v)
    ensures v.Ptr? && v.a in s.mem && v.a != a ==> Fwd(p, Relocated(s, a, t).mem, v) == Fwd(p, s.mem, v)
  {
  }

  lemma RelocateField(p: Scope, m0: map<nat, Object>, s: Heap, a: nat, t: nat, u: nat, k: nat, done: bool)
    requires CanRelocate(p, m0, s, a, t) && MemOk(p, m0) && m0.Keys <= s.mem.Keys
    requires FieldOk(p, m0, s, u, k, done) && u != a && u != t
    ensures FieldOk(p, m0, Relocated(s, a, t), u, k, done)
  {
    var was := m0[s.origin[u]].fields[k];
    RelocateValue(p, s, a, t, s.mem[u].fields[k]);
    RelocateValue(p, s, a, t, was);
  }

  /** What is appended at this depth will still be scanned. */
  predicate NotYet(s: Heap, pos: Pos, depth: nat) {
    depth < pos.depth
    || (depth == pos.depth < |s.toSpace| && pos.index <= |s.toSpace[depth]|
        && (pos.index == |s.toSpace[depth]| ==> pos.field == 0))
  }

  lemma RelocateFields(p: Scope, m0: map<nat, Object>, s: Heap, start: seq<nat>, pos: Pos, a: nat, t: nat)
    requires New(p, m0, s) && Old(p, m0, s) && CanRelocate(p, m0, s, a, t) && Listed(p, s, start)
    requires Fields(p, m0, s, start, pos) && MemOk(p, m0)
    requires NotYet(s, pos, s.mem[a].depth)
    ensures Fields(p, m0, Relocated(s, a, t), start, pos)
  {
    hide Old, FieldOk, MemOk;
    var s', e := Relocated(s, a, t), s.mem[a].depth;
    NotListed(p, m0, s, start, a, t);
    forall d: nat, i: nat, k: nat {:trigger Done(pos, d, i, k)} | IsField(s', start, d, i, k)
      ensures FieldOk(p, m0, s', s'.toSpace[d][i], k, Done(pos, d, i, k))
    {
      if d != e || i < |s.toSpace[d]| {
        assert s'.toSpace[d][i] == s.toSpace[d][i];
        assert IsField(s, start, d, i, k);
        RelocateField(p, m0, s, a, t, s.toSpace[d][i], k, Done(pos, d, i, k));
      } else {
        NewField(p, m0, s, a, t, k);
      }
    }
  }

  lemma NewField(p: Scope, m0: map<nat, Object>, s: Heap, a: nat, t: nat, k: nat)
    requires CanRelocate(p, m0, s, a, t) && k < |s.mem[a].fields|
    ensures FieldOk(p, m0, Relocated(s, a, t), t, k, false)
  {
  }

  lemma RelocateBelow(p: Scope, m0: map<nat, Object>, roots: seq<Value>, s: Heap, a: nat, t: nat)
    requires Below(p, m0, roots, s) && a in s.mem && s.mem[a].depth < |s.toSpace|
    requires forall c: set<nat> :: Closed(p, m0, roots, c) ==> a in c
    ensures Below(p, m0, roots, Relocated(s, a, t))
  {
  }

  /** Relocating keeps everything. */
  lemma RelocateKeeps(p: Scope, m0: map<nat, Object>, roots: seq<Value>, s: Heap, start: seq<nat>, pos: Pos, a: nat,
                      t: nat)
    requires Inv(p, m0, roots, s, start, pos) && MemOk(p, m0)
    requires a in s.mem && Movable(p, s.mem[a]) && (if s.mem[a].single then t == a else t !in s.mem)
    requires NotYet(s, pos, s.mem[a].depth)
    requires forall c: set<nat> :: Closed(p, m0, roots, c) ==> a in c
    ensures Inv(p, m0, roots, Relocated(s, a, t), start, pos)
  {
    hide Old, New, OnLists, Fields, Below, MemOk, Closed;
    MovableIsOld(p, m0, s, a);
    RelocateOld(p, m0, s, a, t);
    RelocateNew(p, m0, s, a, t);
    RelocateListed(p, m0, s, start, a, t);
    RelocateOnLists(p, m0, s, start, a, t);
    RelocateFields(p, m0, s, start, pos, a, t);
    RelocateBelow(p, m0, roots, s, a, t);
  }

  // ----- unpinning -----

  /** The heap after a has been unpinned. */
  function UnpinnedAt(s: Heap, a: nat): Heap
    requires a in s.mem
  {
    s.(mem := s.mem[a := Unpinned(s.mem[a])])
  }

  lemma UnpinValue(p: Scope, s: Heap, a: nat, v: Value)
    requires a in s.mem && Movable(p, s.mem[a])
    ensures Settled(p, UnpinnedAt(s, a).mem, v) == Settled(p, s.mem, v)
    ensures Fwd(p, UnpinnedAt(s, a).mem, v) == Fwd(p, s.mem, v)
  {
  }

  lemma UnpinFields(p: Scope, m0: map<nat, Object>, s: Heap, start: seq<nat>, pos: Pos, a: nat)
    requires a in s.mem && Movable(p, s.mem[a]) && Fields(p, m0, s, start, pos)
    ensures Fields(p, m0, UnpinnedAt(s, a), start, pos)
  {
    var s' := UnpinnedAt(s, a);
    forall d: nat, i: nat, k: nat {:trigger Done(pos, d, i, k)} | IsField(s', start, d, i, k)
      ensures FieldOk(p, m0, s', s'.toSpace[d][i], k, Done(pos, d, i, k))
    {
      assert IsField(s, start, d, i, k);
      var t := s.toSpace[d][i];
      assert FieldOk(p, m0, s, t, k, Done(pos, d, i, k));
      UnpinValue(p, s, a, s.mem[t].fields[k]);
      UnpinValue(p, s, a, m0[s.origin[t]].fields[k]);
    }
  }

  lemma UnpinOldNew(p: Scope, m0: map<nat, Object>, s: Heap, a: nat)
    requires Old(p, m0, s) && New(p, m0, s) && a in s.mem && Movable(p, s.mem[a])
    ensures Old(p, m0, UnpinnedAt(s, a)) && New(p, m0, UnpinnedAt(s, a))
  {
    MovableIsOld(p, m0, s, a);
    forall b | b in m0 ensures b in UnpinnedAt(s, a).mem && OldOk(p, m0[b], UnpinnedAt(s, a), b) {
      assert OldOk(p, m0[b], s, b);
    }
    forall t | t in s.origin ensures NewOk(p, m0, UnpinnedAt(s, a), t) {
      assert NewOk(p, m0, s, t);
    }
  }

  lemma UnpinLists(p: Scope, s: Heap, start: seq<nat>, a: nat)
    requires a in s.mem && Listed(p, s, start) && OnLists(p, s, start)
    ensures Listed(p, UnpinnedAt(s, a), start) && OnLists(p, UnpinnedAt(s, a), start)
  {
    forall t | t in s.origin ensures OnList(UnpinnedAt(s, a), start, t) {
      assert OnList(s, start, t);
    }
  }

  /** Unpinning what may move anyway keeps everything. */
  lemma UnpinKeeps(p: Scope, m0: map<nat, Object>, roots: seq<Value>, s: Heap, start: seq<nat>, pos: Pos, a: nat)
    requires Inv(p, m0, roots, s, start, pos) && a in s.mem && Movable(p, s.mem[a])
    ensures Inv(p, m0, roots, UnpinnedAt(s, a), start, pos)
  {
    hide Old, New, Listed, OnLists, Fields, Below;
    UnpinFields(p, m0, s, start, pos, a);
    UnpinOldNew(p, m0, s, a);
    UnpinLists(p, s, start, a);
    StillBelow(p, m0, roots, s, UnpinnedAt(s, a));
  }

  // ----- storing a forwarded field -----

  function Stored(s: Heap, t: nat, k: nat, v: Value): Heap
    requires t in s.mem && k < |s.mem[t].fields|
  {
    s.(mem := s.mem[t := s.mem[t].(fields := s.mem[t].fields[k := v])])
  }

  /** The header says where a value leads, its fields do not matter. */
  lemma StoreValue(p: Scope, s: Heap, t: nat, k: nat, v: Value, w: Value)
    requires t in s.mem && k < |s.mem[t].fields|
    ensures Settled(p, Stored(s, t, k, v).mem, w) == Settled(p, s.mem, w)
    ensures Fwd(p, Stored(s, t, k, v).mem, w) == Fwd(p, s.mem, w)
  {
  }

  lemma StoreField(p: Scope, m0: map<nat, Object>, s: Heap, t: nat, k: nat, v: Value, u: nat, j: nat, done: bool)
    requires t in s.mem && k < |s.mem[t].fields| && (u != t || j != k)
    requires FieldOk(p, m0, s, u, j, done)
    ensures FieldOk(p, m0, Stored(s, t, k, v), u, j, done)
  {
    StoreValue(p, s, t, k, v, s.mem[u].fields[j]);
    StoreValue(p, s, t, k, v, m0[s.origin[u]].fields[j]);
  }

  lemma StoreOwnField(p: Scope, m0: map<nat, Object>, s: Heap, t: nat, k: nat)
    requires FieldOk(p, m0, s, t, k, false) && Settled(p, s.mem, Fwd(p, s.mem, s.mem[t].fields[k]))
    ensures FieldOk(p, m0, Stored(s, t, k, Fwd(p, s.mem, s.mem[t].fields[k])), t, k, true)
  {
    var v := Fwd(p, s.mem, s.mem[t].fields[k]);
    StoreValue(p, s, t, k, v, v);
    StoreValue(p, s, t, k, v, m0[s.origin[t]].fields[k]);
  }

  ghost predicate AtPos(s: Heap, start: seq<nat>, pos: Pos) {
    && pos.depth < |start| && pos.depth < |s.toSpace|
    && start[pos.depth] <= pos.index < |s.toSpace[pos.depth]|
    && IsField(s, start, pos.depth, pos.index, pos.field)
  }

  lemma StoreFields(p: Scope, m0: map<nat, Object>, s: Heap, start: seq<nat>, pos: Pos)
    requires AtPos(s, start, pos) && Listed(p, s, start) && Fields(p, m0, s, start, pos)
    requires var t := s.toSpace[pos.depth][pos.index]; Settled(p, s.mem, Fwd(p, s.mem, s.mem[t].fields[pos.field]))
    ensures var t := s.toSpace[pos.depth][pos.index];
      Fields(p, m0, Stored(s, t, pos.field, Fwd(p, s.mem, s.mem[t].fields[pos.field])), start,
          pos.(field := pos.field + 1))
  {
    hide FieldOk, Fwd, Settled;
    var t := s.toSpace[pos.depth][pos.index];
    var v, pos' := Fwd(p, s.mem, s.mem[t].fields[pos.field]), pos.(field := pos.field + 1);
    var s' := Stored(s, t, pos.field, v);
    forall d: nat, i: nat, k: nat {:trigger Done(pos', d, i, k)} | IsField(s', start, d, i, k)
      ensures FieldOk(p, m0, s', s'.toSpace[d][i], k, Done(pos', d, i, k))
    {
      assert IsField(s, start, d, i, k);
      assert FieldOk(p, m0, s, s.toSpace[d][i], k, Done(pos, d, i, k));
      if d == pos.depth && i == pos.index && k == pos.field {
        StoreOwnField(p, m0, s, t, k);
      } else {
        StoreField(p, m0, s, t, pos.field, v, s.toSpace[d][i], k, Done(pos, d, i, k));
      }
    }
  }

  lemma StoreOldNew(p: Scope, m0: map<nat, Object>, s: Heap, t: nat, k: nat, v: Value)
    requires t in s.origin && t in s.mem && k < |s.mem[t].fields| && Old(p, m0, s) && New(p, m0, s)
    ensures Old(p, m0, Stored(s, t, k, v)) && New(p, m0, Stored(s, t, k, v))
  {
    var s' := Stored(s, t, k, v);
    assert NewOk(p, m0, s, t);
    forall a | a in m0 ensures a in s'.mem && OldOk(p, m0[a], s', a) {
      assert OldOk(p, m0[a], s, a);
    }
    forall u | u in s'.origin ensures NewOk(p, m0, s', u) {
      assert NewOk(p, m0, s, u);
    }
  }

  lemma StoreLists(p: Scope, s: Heap, start: seq<nat>, t: nat, k: nat, v: Value)
    requires t in s.mem && k < |s.mem[t].fields| && Listed(p, s, start) && OnLists(p, s, start)
    ensures Listed(p, Stored(s, t, k, v), start) && OnLists(p, Stored(s, t, k, v), start)
  {
    var s' := Stored(s, t, k, v);
    forall u | u in s'.origin ensures OnList(s', start, u) {
      assert OnList(s, start, u);
    }
  }

  /** Storing the forwarded value of the current field keeps everything. */
  lemma StoreKeeps(p: Scope, m0: map<nat, Object>, roots: seq<Value>, s: Heap, start: seq<nat>, pos: Pos)
    requires Inv(p, m0, roots, s, start, pos) && AtPos(s, start, pos)
    requires var t := s.toSpace[pos.depth][pos.index]; Settled(p, s.mem, Fwd(p, s.mem, s.mem[t].fields[pos.field]))
    ensures var t := s.toSpace[pos.depth][pos.index];
      Inv(p, m0, roots, Stored(s, t, pos.field, Fwd(p, s.mem, s.mem[t].fields[pos.field])), start,
          pos.(field := pos.field + 1))
  {
    hide Old, New, OnLists, Fields, Below, Fwd, Settled;
    var t := s.toSpace[pos.depth][pos.index];
    StoreFields(p, m0, s, start, pos);
    StoreOldNew(p, m0, s, t, pos.field, Fwd(p, s.mem, s.mem[t].fields[pos.field]));
    StoreLists(p, s, start, t, pos.field, Fwd(p, s.mem, s.mem[t].fields[pos.field]));
    StillBelow(p, m0, roots, s, Stored(s, t, pos.field, Fwd(p, s.mem, s.mem[t].fields[pos.field])));
  }

  lemma StillBelow(p: Scope, m0: map<nat, Object>, roots: seq<Value>, s: Heap, s': Heap)
    requires Below(p, m0, roots, s) && s'.origin == s.origin
    ensures Below(p, m0, roots, s')
  {
  }

  /** Nothing is left of the object at pos: on to the next one. */
  lemma NextObject(p: Scope, m0: map<nat, Object>, s: Heap, start: seq<nat>, pos: Pos)
    requires Fields(p, m0, s, start, pos) && pos.depth < |start| && pos.depth < |s.toSpace|
    requires pos.index < |s.toSpace[pos.depth]|
    requires !IsField(s, start, pos.depth, pos.index, pos.field)
    ensures Fields(p, m0, s, start, Pos(pos.depth, pos.index + 1, 0))
  {
    hide FieldOk;
    var pos' := Pos(pos.depth, pos.index + 1, 0);
    forall d: nat, i: nat, k: nat {:trigger Done(pos', d, i, k)} | IsField(s, start, d, i, k)
      ensures FieldOk(p, m0, s, s.toSpace[d][i], k, Done(pos', d, i, k))
    {
      assert FieldOk(p, m0, s, s.toSpace[d][i], k, Done(pos, d, i, k));
      assert Done(pos, d, i, k) == Done(pos', d, i, k);
    }
  }

  /** Nothing is left at this depth: on to the next shallower one. */
  lemma NextLevel(p: Scope, m0: map<nat, Object>, s: Heap, start: seq<nat>, pos: Pos)
    requires Fields(p, m0, s, start, pos) && 0 < pos.depth <= |start|
    requires pos.depth < |s.toSpace| ==> pos.index == |s.toSpace[pos.depth]|
    ensures Fields(p, m0, s, start, Pos(pos.depth - 1, start[pos.depth - 1], 0))
  {
    hide FieldOk;
    var pos' := Pos(pos.depth - 1, start[pos.depth - 1], 0);
    forall d: nat, i: nat, k: nat {:trigger Done(pos', d, i, k)} | IsField(s, start, d, i, k)
      ensures FieldOk(p, m0, s, s.toSpace[d][i], k, Done(pos', d, i, k))
    {
      assert FieldOk(p, m0, s, s.toSpace[d][i], k, Done(pos, d, i, k));
      assert Done(pos, d, i, k) == Done(pos', d, i, k);
    }
  }

  // ----- what the sweep achieves -----

  /** The value leads where it led, to something that stays. */
  predicate ForwardedTo(p: Scope, mem: map<nat, Object>, v: Value, v': Value) {
    v' == Fwd(p, mem, v) && Settled(p, mem, v')
  }

  lemma RelocatedTo(p: Scope, s: Heap, a: nat, t: nat)
    requires a in s.mem && Movable(p, s.mem[a]) && s.mem[a].depth < |s.toSpace|
    requires if s.mem[a].single then t == a else t !in s.mem
    ensures ForwardedTo(p, Relocated(s, a, t).mem, Ptr(a), Ptr(t))
  {
  }

  /** What is still waiting to be met. */
  ghost function Movables(p: Scope, mem: map<nat, Object>): set<nat> {
    set a | a in mem && Movable(p, mem[a])
  }

  /** From s to s' lists have grown, objects kept their size and place, and what
      has been forwarded stays forwarded. */
  ghost predicate Steady(p: Scope, s: Heap, s': Heap) {
    && s.mem.Keys <= s'.mem.Keys && s.origin.Keys <= s'.origin.Keys && |s.toSpace| == |s'.toSpace|
    && (forall d :: 0 <= d < |s.toSpace| ==> s.toSpace[d] <= s'.toSpace[d])
    && Movables(p, s'.mem) <= Movables(p, s.mem)
    && (Movables(p, s'.mem) == Movables(p, s.mem) ==> s'.toSpace == s.toSpace)
    && (forall t :: t in s.mem ==> s'.mem[t].depth == s.mem[t].depth && |s'.mem[t].fields| == |s.mem[t].fields|)
    && (forall v: Value, v': Value :: (v.Ptr? ==> v.a in s.mem) && ForwardedTo(p, s.mem, v, v') ==>
       ForwardedTo(p, s'.mem, v, v'))
  }

  lemma SteadyRelocated(p: Scope, s: Heap, a: nat, t: nat)
    requires a in s.mem && Movable(p, s.mem[a]) && s.mem[a].depth < |s.toSpace|
    requires if s.mem[a].single then t == a else t !in s.mem
    ensures Steady(p, s, Relocated(s, a, t))
  {
    assert a in Movables(p, s.mem) && a !in Movables(p, Relocated(s, a, t).mem);
    forall v: Value, v': Value | (v.Ptr? ==> v.a in s.mem) && ForwardedTo(p, s.mem, v, v')
      ensures ForwardedTo(p, Relocated(s, a, t).mem, v, v')
    {
      RelocateValue(p, s, a, t, v);
      RelocateValue(p, s, a, t, v');
    }
  }

  lemma SteadyUnpinned(p: Scope, s: Heap, a: nat)
    requires a in s.mem && Movable(p, s.mem[a])
    ensures Steady(p, s, UnpinnedAt(s, a))
  {
    forall v: Value, v': Value | (v.Ptr? ==> v.a in s.mem) && ForwardedTo(p, s.mem, v, v')
      ensures ForwardedTo(p, UnpinnedAt(s, a).mem, v, v')
    {
      UnpinValue(p, s, a, v);
      UnpinValue(p, s, a, v');
    }
  }

  lemma SteadyStored(p: Scope, s: Heap, t: nat, k: nat, w: Value)
    requires t in s.mem && k < |s.mem[t].fields|
    ensures Steady(p, s, Stored(s, t, k, w))
  {
    forall v: Value, v': Value | (v.Ptr? ==> v.a in s.mem) && ForwardedTo(p, s.mem, v, v')
      ensures ForwardedTo(p, Stored(s, t, k, w).mem, v, v')
    {
      StoreValue(p, s, t, k, w, v);
      StoreValue(p, s, t, k, w, v');
    }
  }

  lemma SteadySame(p: Scope, s: Heap)
    ensures Steady(p, s, s)
  {
  }

  lemma SteadyTrans(p: Scope, s: Heap, s': Heap, s'': Heap)
    requires Steady(p, s, s') && Steady(p, s', s'')
    ensures Steady(p, s, s'')
  {
    hide ForwardedTo;
  }

  lemma AlreadyForwarded(p: Scope, m0: map<nat, Object>, s: Heap, v: Value)
    requires MemOk(p, m0) && Old(p, m0, s) && New(p, m0, s)
    requires v.Ptr? ==> v.a in s.mem && !Movable(p, s.mem[v.a])
    ensures ForwardedTo(p, s.mem, v, Fwd(p, s.mem, v))
  {
    if v.Ptr? && Forwarded(p, s.mem[v.a]) {
      var f := s.mem[v.a].forward.value;
      NewAreTo(p, m0, s);
      assert v.a in m0 && OldOk(p, m0[v.a], s, v.a);
      if s.mem[v.a] == m0[v.a] {
        assert f in m0 && m0[f].space.To?;
        assert OldOk(p, m0[f], s, f);
      } else {
        assert NewOk(p, m0, s, f);
      }
    }
  }

  /** The new objects copy exactly what the roots reach, each once, with every
      field leading where the old one led. */
  ghost predicate Copied(p: Scope, m0: map<nat, Object>, roots: seq<Value>, s: Heap) {
    && (forall t :: t in s.origin ==> NewOk(p, m0, s, t))
    && (forall t, u :: t in s.origin && u in s.origin && s.origin[t] == s.origin[u] ==> t == u)
    && (forall t, k ::
          t in s.origin && t in s.mem && s.origin[t] in m0
          && 0 <= k < |s.mem[t].fields| && k < |m0[s.origin[t]].fields| ==>
          ForwardedTo(p, s.mem, m0[s.origin[t]].fields[k], s.mem[t].fields[k]))
    && Closed(p, m0, roots, s.origin.Values)
    && (forall c: set<nat> :: Closed(p, m0, roots, c) ==> s.origin.Values <= c)
  }

  lemma FieldsDone(p: Scope, m0: map<nat, Object>, s: Heap, start: seq<nat>, pos: Pos, t: nat, k: nat)
    requires New(p, m0, s) && Listed(p, s, start) && OnLists(p, s, start) && Fields(p, m0, s, start, pos)
    requires pos.depth <= p.minDepth && (pos.depth < |s.toSpace| ==> pos.index == |s.toSpace[pos.depth]|)
    requires t in s.origin && t in s.mem && k < |s.mem[t].fields|
    ensures FieldOk(p, m0, s, t, k, true)
  {
    assert NewOk(p, m0, s, t) && OnList(s, start, t);
    var d := s.mem[t].depth;
    var i :| start[d] <= i < |s.toSpace[d]| && s.toSpace[d][i] == t;
    assert IsField(s, start, d, i, k) && Done(pos, d, i, k);
  }

  /** Where the old value still leads decides whether its target has moved. */
  lemma BroughtAlong(p: Scope, m0: map<nat, Object>, s: Heap, v: Value)
    requires Old(p, m0, s) && New(p, m0, s) && Settled(p, s.mem, Fwd(p, s.mem, v))
    ensures Brings(p, m0, v, s.origin.Values)
  {
    if v.Ptr? && v.a in m0 && Movable(p, m0[v.a]) {
      assert OldOk(p, m0[v.a], s, v.a);
      if s.mem[v.a].space.To? {
        assert s.origin[v.a] == v.a;
      } else {
        assert s.origin[s.mem[v.a].forward.value] == v.a;
      }
    }
  }

  lemma SweepCopies(p: Scope, m0: map<nat, Object>, roots: seq<Value>, s: Heap, start: seq<nat>, pos: Pos)
    requires Inv(p, m0, roots, s, start, pos)
    requires pos.depth <= p.minDepth && (pos.depth < |s.toSpace| ==> pos.index == |s.toSpace[pos.depth]|)
    requires forall k :: 0 <= k < |roots| ==> Settled(p, s.mem, Fwd(p, s.mem, roots[k]))
    ensures Copied(p, m0, roots, s)
  {
    hide Old, Listed, OnLists, Fields, Settled, Fwd, Brings;
    forall t, u | t in s.origin && u in s.origin && s.origin[t] == s.origin[u] ensures t == u {
      assert NewOk(p, m0, s, t) && NewOk(p, m0, s, u);
    }
    forall t, k | t in s.origin && t in s.mem && s.origin[t] in m0 && 0 <= k < |s.mem[t].fields|
        && k < |m0[s.origin[t]].fields|
      ensures ForwardedTo(p, s.mem, m0[s.origin[t]].fields[k], s.mem[t].fields[k])
    {
      FieldsDone(p, m0, s, start, pos, t, k);
    }
    forall k | 0 <= k < |roots| ensures Brings(p, m0, roots[k], s.origin.Values) {
      BroughtAlong(p, m0, s, roots[k]);
    }
    forall a, k | a in s.origin.Values && a in m0 && 0 <= k < |m0[a].fields|
      ensures Brings(p, m0, m0[a].fields[k], s.origin.Values)
    {
      var t :| t in s.origin && s.origin[t] == a;
      assert NewOk(p, m0, s, t);
      FieldsDone(p, m0, s, start, pos, t, k);
      BroughtAlong(p, m0, s, m0[a].fields[k]);
    }
    BelowValues(p, m0, roots, s);
  }

  lemma BelowValues(p: Scope, m0: map<nat, Object>, roots: seq<Value>, s: Heap)
    requires Below(p, m0, roots, s)
    ensures forall c: set<nat> :: Closed(p, m0, roots, c) ==> s.origin.Values <= c
  {
  }

  /** Before the sweep nothing has been copied. */
  lemma StartInv(p: Scope, m0: map<nat, Object>, roots: seq<Value>, toSpace: seq<seq<nat>>)
    requires |toSpace| == p.maxDepth + 1
    ensures Inv(p, m0, roots, Heap(m0, toSpace, map[]), seq(|toSpace|, d requires 0 <= d < |toSpace| => |toSpace[d]|),
                Pos(p.maxDepth + 1, 0, 0))
  {
  }

  /** An object that stays, all of whose fields point at nothing that goes away. */
  predicate Traced(p: Scope, mem: map<nat, Object>, a: nat) {
    && a in mem && !Movable(p, mem[a])
    && forall k :: 0 <= k < |mem[a].fields| ==> Settled(p, mem, mem[a].fields[k])
  }

  /** An object that was traced before the sweep stays as it is and traced. */
  lemma TracedStays(p: Scope, m0: map<nat, Object>, s: Heap, a: nat)
    requires MemOk(p, m0) && Old(p, m0, s) && Traced(p, m0, a)
    ensures a in m0 && a in s.mem && s.mem[a] == m0[a] && Traced(p, s.mem, a)
  {
    assert OldOk(p, m0[a], s, a);
    forall k | 0 <= k < |m0[a].fields| ensures Settled(p, s.mem, m0[a].fields[k]) {
      var v := m0[a].fields[k];
      if v.Ptr? { assert OldOk(p, m0[v.a], s, v.a); }
    }
  }

  // ----- one collection after the other -----

  /** A heap between collections: pointers lead to objects, nothing carries a
      forwarding header, and the target of a down-pointer is pinned for it. */
  ghost predicate HeapOk(m: map<nat, Object>) {
    forall a :: a in m ==>
      m[a].forward.None? && forall k :: 0 <= k < |m[a].fields| ==> FieldFine(m, m[a].depth, m[a].fields[k])
  }

  predicate FieldFine(m: map<nat, Object>, depth: nat, v: Value) {
    v.Ptr? ==> v.a in m && (m[v.a].depth > depth ==> m[v.a].unpinDepth.Some? && m[v.a].unpinDepth.value <= depth)
  }

  /** The concurrent phase has traced whatever stays. */
  ghost predicate StayingTraced(p: Scope, m: map<nat, Object>) {
    forall a :: a in m && !Movable(p, m[a]) ==> Traced(p, m, a)
  }

  /** What is left when from-space has been freed and to-space has taken its
      place, the marks of the concurrent phase erased. */
  function Afterwards(p: Scope, mem: map<nat, Object>): map<nat, Object> {
    map a | a in mem && !Movable(p, mem[a]) && !Forwarded(p, mem[a]) ::
      mem[a].(space := if mem[a].space.To? then From else mem[a].space, marked := false)
  }

  /** Such a heap may be collected in any scope. */
  lemma HeapOkIsEnough(p: Scope, m: map<nat, Object>)
    requires HeapOk(m)
    ensures MemOk(p, m) && NoDownPointers(p, m)
  {
    forall a, k | a in m && Movable(p, m[a]) && 0 <= k < |m[a].fields|
      ensures PointsUp(p, m, m[a].depth, m[a].fields[k])
    {
      assert FieldFine(m, m[a].depth, m[a].fields[k]);
    }
    forall a, k | a in m && 0 <= k < |m[a].fields| && m[a].fields[k].Ptr? ensures m[a].fields[k].a in m {
      assert FieldFine(m, m[a].depth, m[a].fields[k]);
    }
  }

  /** A field that led to b leads on where b is now. */
  lemma FineAfter(p: Scope, m0: map<nat, Object>, s: Heap, depth: nat, was: Value, v: Value)
    requires Old(p, m0, s) && New(p, m0, s) && FieldFine(m0, depth, was) && ForwardedTo(p, s.mem, was, v)
    requires forall a :: a in m0 ==> m0[a].forward.None?
    ensures FieldFine(Afterwards(p, s.mem), depth, v)
  {
    if was.Ptr? {
      assert OldOk(p, m0[was.a], s, was.a);
      if Forwarded(p, s.mem[was.a]) { assert NewOk(p, m0, s, v.a); }
    }
  }

  lemma SettledIsForwarded(p: Scope, mem: map<nat, Object>, v: Value)
    requires Settled(p, mem, v)
    ensures ForwardedTo(p, mem, v, v)
  {
  }

  /** An object that is left and not new has stayed. */
  lemma LeftIsOld(p: Scope, m0: map<nat, Object>, s: Heap, a: nat)
    requires Old(p, m0, s) && New(p, m0, s) && a in Afterwards(p, s.mem) && a !in s.origin
    ensures a in m0 && !Movable(p, m0[a])
  {
    assert OldOk(p, m0[a], s, a);
  }

  /** The heap that a collection leaves may be collected again. */
  lemma ReadyForNext(p: Scope, m0: map<nat, Object>, roots: seq<Value>, s: Heap)
    requires HeapOk(m0) && StayingTraced(p, m0) && Old(p, m0, s) && New(p, m0, s) && Copied(p, m0, roots, s)
    ensures HeapOk(Afterwards(p, s.mem))
  {
    HeapOkIsEnough(p, m0);
    hide MemOk, NoDownPointers, Old, New, Closed, FieldFine, ForwardedTo;
    var m := Afterwards(p, s.mem);
    forall a | a in m
      ensures m[a].forward.None? && forall k :: 0 <= k < |m[a].fields| ==> FieldFine(m, m[a].depth, m[a].fields[k])
    {
      if a in s.origin {
        var b := s.origin[a];
        assert NewOk(p, m0, s, a);
        forall k | 0 <= k < |m[a].fields| ensures FieldFine(m, m[a].depth, m[a].fields[k]) {
          assert FieldFine(m0, m0[b].depth, m0[b].fields[k]);
          FineAfter(p, m0, s, m0[b].depth, m0[b].fields[k], s.mem[a].fields[k]);
        }
      } else {
        LeftIsOld(p, m0, s, a);
        TracedStays(p, m0, s, a);
        forall k | 0 <= k < |m[a].fields| ensures FieldFine(m, m[a].depth, m[a].fields[k]) {
          assert FieldFine(m0, m0[a].depth, m0[a].fields[k]);
          SettledIsForwarded(p, s.mem, s.mem[a].fields[k]);
          FineAfter(p, m0, s, m0[a].depth, m0[a].fields[k], s.mem[a].fields[k]);
        }
      }
    }
  }

  // ----- the same by paths -----

  /** In a level of the scope, not yet forwarded, neither traced in place nor pinned
      from a shallower level. */
  predicate FreeToMove(p: Scope, o: Object) {
    && p.minDepth <= o.depth <= p.maxDepth && o.space == From && o.forward == None && !o.marked
    && (o.unpinDepth.Some? ==> o.unpinDepth.value >= o.depth)
  }

  /** From a root, field by field, through objects that are free to move. */
  ghost predicate Path(p: Scope, m: map<nat, Object>, roots: seq<Value>, path: seq<nat>) {
    && path != [] && Ptr(path[0]) in roots
    && (forall i :: 0 <= i < |path| ==> path[i] in m && FreeToMove(p, m[path[i]]))
    && (forall i :: 0 < i < |path| ==> HasFieldTo(m, path[i - 1], path[i]))
  }

  predicate HasFieldTo(m: map<nat, Object>, a: nat, b: nat) { a in m && Ptr(b) in m[a].fields }

  ghost predicate HasPath(p: Scope, m: map<nat, Object>, roots: seq<Value>, a: nat) {
    exists path :: Path(p, m, roots, path) && path[|path| - 1] == a
  }

  lemma {:induction false} PathIsClosed(p: Scope, m: map<nat, Object>, roots: seq<Value>, c: set<nat>, path: seq<nat>)
    requires Closed(p, m, roots, c) && Path(p, m, roots, path)
    ensures path[|path| - 1] in c
    decreases |path|
  {
    var n := |path| - 1;
    assert FreeToMove(p, m[path[n]]);
    if n == 0 {
      var k :| 0 <= k < |roots| && roots[k] == Ptr(path[0]);
      assert Brings(p, m, roots[k], c);
    } else {
      assert forall i :: 0 < i < n ==> HasFieldTo(m, path[..n][i - 1], path[..n][i]);
      PathIsClosed(p, m, roots, c, path[..n]);
      assert HasFieldTo(m, path[n - 1], path[n]);
      var k :| 0 <= k < |m[path[n - 1]].fields| && m[path[n - 1]].fields[k] == Ptr(path[n]);
      assert Brings(p, m, m[path[n - 1]].fields[k], c);
    }
  }

  lemma PathsAreClosed(p: Scope, m: map<nat, Object>, roots: seq<Value>, c: set<nat>)
    requires c == set a | a in m && HasPath(p, m, roots, a)
    ensures Closed(p, m, roots, c)
  {
    forall k | 0 <= k < |roots| ensures Brings(p, m, roots[k], c) {
      var v := roots[k];
      if v.Ptr? && v.a in m && Movable(p, m[v.a]) {
        assert Path(p, m, roots, [v.a]) && [v.a][|[v.a]| - 1] == v.a;
      }
    }
    forall a, k | a in c && a in m && 0 <= k < |m[a].fields| ensures Brings(p, m, m[a].fields[k], c) {
      var v := m[a].fields[k];
      if v.Ptr? && v.a in m && Movable(p, m[v.a]) {
        var path :| Path(p, m, roots, path) && path[|path| - 1] == a;
        PathOn(p, m, roots, path, v.a);
      }
    }
  }

  lemma PathOn(p: Scope, m: map<nat, Object>, roots: seq<Value>, path: seq<nat>, b: nat)
    requires Path(p, m, roots, path) && HasFieldTo(m, path[|path| - 1], b) && b in m && FreeToMove(p, m[b])
    ensures HasPath(p, m, roots, b)
  {
    var longer := path + [b];
    forall i | 0 < i < |longer| ensures HasFieldTo(m, longer[i - 1], longer[i]) {
      if i < |path| { assert HasFieldTo(m, path[i - 1], path[i]); }
    }
    assert longer[|longer| - 1] == b && Path(p, m, roots, longer);
  }

  /** What has been moved or copied is what the roots reach through objects that are
      free to move, neither more nor less. */
  lemma CopiedIsPaths(p: Scope, m0: map<nat, Object>, roots: seq<Value>, s: Heap, a: nat)
    requires Copied(p, m0, roots, s)
    ensures a in s.origin.Values <==> HasPath(p, m0, roots, a)
  {
    hide ForwardedTo;
    var all := set x | x in m0 && HasPath(p, m0, roots, x);
    PathsAreClosed(p, m0, roots, all);
    if HasPath(p, m0, roots, a) {
      var path :| Path(p, m0, roots, path) && path[|path| - 1] == a;
      PathIsClosed(p, m0, roots, s.origin.Values, path);
    }
  }
}
