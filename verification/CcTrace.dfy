/**
 What a trace of the object graph has to do, apart from mark bits and lists: the
 fields of every visited object are followed or still pending.
 */
module CcTrace {
  import opened Options
  import opened ObjectFields
  import opened CcWorkList

  /** A fixed heap: which object a field points to, and the chunk of each object.
      A field without a target does not hold an object pointer. */
  datatype Graph = Graph(objects: map<nat, Object>, target: map<Field, nat>, chunkOf: map<nat, nat>)

  ghost predicate GraphOk(g: Graph) {
    g.chunkOf.Keys == g.objects.Keys && forall f :: f in g.target ==> g.target[f] in g.objects
  }

  predicate InScope(g: Graph, scope: set<nat>, o: nat) {
    o in g.chunkOf && g.chunkOf[o] in scope
  }

  /** A root is traced if it is in scope; a forced root is scanned even if not. */
  datatype Root = Try(op: nat) | Force(forced: Option<nat>)

  ghost predicate RootsOk(g: Graph, roots: seq<Root>) {
    forall k :: 0 <= k < |roots| ==>
      (roots[k].Try? ==> roots[k].op in g.objects)
      && (roots[k].Force? && roots[k].forced.Some? ==> roots[k].forced.value in g.objects)
  }

  function RootObject(r: Root): Option<nat> {
    match r case Try(op) => Some(op) case Force(op) => op
  }

  function Forced(roots: seq<Root>): set<nat> {
    set k | 0 <= k < |roots| && roots[k].Force? && roots[k].forced.Some? :: roots[k].forced.value
  }

  /** Field f need not be followed any more. */
  predicate Covered(g: Graph, scope: set<nat>, visited: set<nat>, f: Field) {
    f in g.target && InScope(g, scope, g.target[f]) ==> g.target[f] in visited
  }

  ghost predicate HasRoots(g: Graph, scope: set<nat>, roots: seq<Root>, visited: set<nat>) {
    forall k :: 0 <= k < |roots| && RootObject(roots[k]).Some? && InScope(g, scope, RootObject(roots[k]).value) ==>
      RootObject(roots[k]).value in visited
  }

  predicate IsField(g: Graph, f: Field) {
    f.op in g.objects && f.offset in FieldsOf(g.objects[f.op])
  }

  /** Fields of visited and of forced objects are pending or covered, and nothing
      else is pending. */
  ghost predicate Tracing(g: Graph, scope: set<nat>, visited: set<nat>, forced: set<nat>, pending: seq<Field>) {
    && (forall f: Field :: IsField(g, f) && (f.op in visited || f.op in forced) ==>
          f in pending || Covered(g, scope, visited, f))
    && (forall f :: f in pending ==> IsField(g, f) && (f.op in visited || f.op in forced))
    && (forall o :: o in visited ==> InScope(g, scope, o))
  }

  /** What the roots reach: the least set with the roots in scope that is closed
      under following fields of its members and of forced roots, within scope. */
  ghost predicate Closed(g: Graph, scope: set<nat>, roots: seq<Root>, s: set<nat>) {
    && HasRoots(g, scope, roots, s)
    && forall f: Field :: IsField(g, f) && (f.op in s || f.op in Forced(roots)) ==> Covered(g, scope, s, f)
  }

  ghost predicate Below(g: Graph, scope: set<nat>, roots: seq<Root>, visited: set<nat>) {
    forall s: set<nat> :: Closed(g, scope, roots, s) ==> visited <= s
  }

  ghost predicate Reached(g: Graph, scope: set<nat>, roots: seq<Root>, s: set<nat>) {
    Closed(g, scope, roots, s) && Below(g, scope, roots, s) && forall o :: o in s ==> InScope(g, scope, o)
  }

  lemma ReachedUnique(g: Graph, scope: set<nat>, roots: seq<Root>, s: set<nat>, t: set<nat>)
    requires Reached(g, scope, roots, s) && Reached(g, scope, roots, t)
    ensures s == t
  {
  }

  // ----- the same by paths -----

  /** A way through the heap: from a root, field by field, never leaving the chunks
      in scope; only a forced root may lie outside. */
  ghost predicate Path(g: Graph, scope: set<nat>, roots: seq<Root>, path: seq<nat>) {
    && path != []
    && (exists k :: 0 <= k < |roots| && Begins(g, scope, roots[k], path[0]))
    && (forall i :: 0 < i < |path| ==> HasFieldTo(g, path[i - 1], path[i]))
    && (forall i :: 0 < i < |path| ==> path[i] in g.chunkOf && g.chunkOf[path[i]] in scope)
  }

  predicate Begins(g: Graph, scope: set<nat>, r: Root, o: nat) {
    r == Force(Some(o)) || (r == Try(o) && o in g.chunkOf && g.chunkOf[o] in scope)
  }

  ghost predicate HasFieldTo(g: Graph, o: nat, t: nat) {
    o in g.objects && exists offset :: offset in FieldsOf(g.objects[o]) && PointsTo(g, o, offset, t)
  }

  predicate PointsTo(g: Graph, o: nat, offset: nat, t: nat) {
    Field(o, offset) in g.target && g.target[Field(o, offset)] == t
  }

  lemma {:induction false} PathIsReached(g: Graph, scope: set<nat>, roots: seq<Root>, s: set<nat>, path: seq<nat>)
    requires Closed(g, scope, roots, s) && Path(g, scope, roots, path)
    requires path[|path| - 1] in g.chunkOf && g.chunkOf[path[|path| - 1]] in scope
    ensures path[|path| - 1] in s
    decreases |path|
  {
    var n := |path| - 1;
    if n == 0 {
      var k :| 0 <= k < |roots| && Begins(g, scope, roots[k], path[0]);
      assert RootObject(roots[k]) == Some(path[0]);
    } else {
      var front := path[..n];
      assert HasFieldTo(g, path[n - 1], path[n]);
      var offset :| offset in FieldsOf(g.objects[path[n - 1]]) && PointsTo(g, path[n - 1], offset, path[n]);
      assert IsField(g, Field(path[n - 1], offset));
      if n == 1 {
        var k :| 0 <= k < |roots| && Begins(g, scope, roots[k], path[0]);
        if roots[k].Force? { assert path[0] in Forced(roots); } else { PathIsReached(g, scope, roots, s, front); }
      } else {
        assert forall i :: 0 < i < n ==> HasFieldTo(g, front[i - 1], front[i]);
        PathIsReached(g, scope, roots, s, front);
      }
    }
  }

  ghost predicate HasPath(g: Graph, scope: set<nat>, roots: seq<Root>, o: nat) {
    exists path :: Path(g, scope, roots, path) && path[|path| - 1] == o
  }

  /** One more field behind a path. */
  lemma PathOn(g: Graph, scope: set<nat>, roots: seq<Root>, path: seq<nat>, offset: nat, t: nat)
    requires Path(g, scope, roots, path) && path[|path| - 1] in g.objects
    requires offset in FieldsOf(g.objects[path[|path| - 1]]) && PointsTo(g, path[|path| - 1], offset, t)
    requires t in g.chunkOf && g.chunkOf[t] in scope
    ensures HasPath(g, scope, roots, t)
  {
    var longer := path + [t];
    assert longer[0] == path[0];
    forall i | 0 < i < |longer| ensures HasFieldTo(g, longer[i - 1], longer[i]) {
      if i < |path| { assert HasFieldTo(g, path[i - 1], path[i]); }
    }
    assert longer[|longer| - 1] == t && Path(g, scope, roots, longer);
  }

  /** What is reached is what a path leads to, neither more nor less. */
  lemma ReachedIsPaths(g: Graph, scope: set<nat>, roots: seq<Root>, s: set<nat>, o: nat)
    requires GraphOk(g) && RootsOk(g, roots) && Reached(g, scope, roots, s)
    ensures o in s <==> o in g.chunkOf && g.chunkOf[o] in scope && HasPath(g, scope, roots, o)
  {
    if o in g.chunkOf && g.chunkOf[o] in scope && HasPath(g, scope, roots, o) {
      var path :| Path(g, scope, roots, path) && path[|path| - 1] == o;
      PathIsReached(g, scope, roots, s, path);
    }
    if o in s {
      var all := set x | x in g.objects && g.chunkOf[x] in scope && HasPath(g, scope, roots, x);
      PathsAreClosed(g, scope, roots, all);
      assert s <= all;
    }
  }

  lemma RootHasPath(g: Graph, scope: set<nat>, roots: seq<Root>, k: nat, o: nat)
    requires k < |roots| && Begins(g, scope, roots[k], o)
    ensures Path(g, scope, roots, [o]) && HasPath(g, scope, roots, o)
  {
    assert [o][0] == o;
  }

  lemma PathsAreClosed(g: Graph, scope: set<nat>, roots: seq<Root>, all: set<nat>)
    requires GraphOk(g) && RootsOk(g, roots)
    requires all == set x | x in g.objects && g.chunkOf[x] in scope && HasPath(g, scope, roots, x)
    ensures Closed(g, scope, roots, all)
  {
    hide Path, HasPath;
    forall k | 0 <= k < |roots| && RootObject(roots[k]).Some? && InScope(g, scope, RootObject(roots[k]).value)
      ensures RootObject(roots[k]).value in all
    {
      RootHasPath(g, scope, roots, k, RootObject(roots[k]).value);
    }
    forall f: Field | IsField(g, f) && (f.op in all || f.op in Forced(roots)) ensures Covered(g, scope, all, f) {
      if f in g.target && InScope(g, scope, g.target[f]) {
        var path := PathTo(g, scope, roots, all, f.op);
        assert f == Field(f.op, f.offset);
        PathOn(g, scope, roots, path, f.offset, g.target[f]);
      }
    }
  }

  lemma PathTo(g: Graph, scope: set<nat>, roots: seq<Root>, all: set<nat>, o: nat) returns (path: seq<nat>)
    requires forall x :: x in all ==> HasPath(g, scope, roots, x)
    requires o in all || o in Forced(roots)
    ensures Path(g, scope, roots, path) && path[|path| - 1] == o
  {
    if o in all {
      path :| Path(g, scope, roots, path) && path[|path| - 1] == o;
    } else {
      var k :| 0 <= k < |roots| && roots[k].Force? && roots[k].forced == Some(o);
      RootHasPath(g, scope, roots, k, o);
      path := [o];
    }
  }

  // ----- steps -----

  lemma PopCovered(g: Graph, scope: set<nat>, visited: set<nat>, forced: set<nat>, f: Field, rest: seq<Field>)
    requires Tracing(g, scope, visited, forced, [f] + rest) && Covered(g, scope, visited, f)
    ensures Tracing(g, scope, visited, forced, rest)
  {
    forall h: Field | h in [f] + rest ensures h == f || h in rest {
    }
    forall h: Field | h in rest ensures h in [f] + rest {
    }
  }

  lemma FieldsAtAre(g: Graph, o: nat)
    requires o in g.objects
    ensures forall f: Field :: f in FieldsAt(o, FieldsOf(g.objects[o])) <==> f.op == o && IsField(g, f)
  {
    var offsets := FieldsOf(g.objects[o]);
    var fields := FieldsAt(o, offsets);
    forall f: Field | f.op == o && f.offset in offsets ensures f in fields {
      var i :| 0 <= i < |offsets| && offsets[i] == f.offset;
      assert fields[i] == f;
    }
  }

  /** Visiting an object makes its fields pending. */
  lemma Visit(g: Graph, scope: set<nat>, visited: set<nat>, forced: set<nat>, pending: seq<Field>, o: nat)
    requires Tracing(g, scope, visited, forced, pending) && o in g.objects && InScope(g, scope, o)
    ensures Tracing(g, scope, visited + {o}, forced, FieldsAt(o, FieldsOf(g.objects[o])) + pending)
  {
    FieldsAtAre(g, o);
    var more := FieldsAt(o, FieldsOf(g.objects[o]));
    forall f: Field | f in more + pending ensures f in more || f in pending {
    }
  }

  /** Forcing an object makes its fields pending, in scope or not. */
  lemma ForceOne(g: Graph, scope: set<nat>, visited: set<nat>, forced: set<nat>, pending: seq<Field>, o: nat)
    requires Tracing(g, scope, visited, forced, pending) && o in g.objects
    ensures Tracing(g, scope, visited, forced + {o}, FieldsAt(o, FieldsOf(g.objects[o])) + pending)
    ensures InScope(g, scope, o) ==>
      Tracing(g, scope, visited + {o}, forced + {o}, FieldsAt(o, FieldsOf(g.objects[o])) + pending)
  {
    FieldsAtAre(g, o);
    var more := FieldsAt(o, FieldsOf(g.objects[o]));
    forall f: Field | f in more + pending ensures f in more || f in pending {
    }
  }

  /** Only reachable objects get visited. */
  lemma VisitBelow(g: Graph, scope: set<nat>, roots: seq<Root>, visited: set<nat>, forced: set<nat>, f: Field,
                   rest: seq<Field>)
    requires Tracing(g, scope, visited, forced, [f] + rest) && Below(g, scope, roots, visited)
    requires forced <= Forced(roots) && f in g.target && InScope(g, scope, g.target[f])
    ensures Below(g, scope, roots, visited + {g.target[f]})
  {
    assert f in [f] + rest;
    forall s: set<nat> | Closed(g, scope, roots, s) ensures visited + {g.target[f]} <= s {
      assert Covered(g, scope, s, f);
    }
  }

  lemma RootBelow(g: Graph, scope: set<nat>, roots: seq<Root>, visited: set<nat>, k: nat)
    requires Below(g, scope, roots, visited) && k < |roots|
    requires RootObject(roots[k]).Some? && InScope(g, scope, RootObject(roots[k]).value)
    ensures Below(g, scope, roots, visited + {RootObject(roots[k]).value})
  {
  }

  /** A trace with nothing pending has reached exactly what is reachable. */
  lemma Finished(g: Graph, scope: set<nat>, roots: seq<Root>, visited: set<nat>)
    requires Tracing(g, scope, visited, Forced(roots), []) && HasRoots(g, scope, roots, visited)
    requires Below(g, scope, roots, visited)
    ensures Reached(g, scope, roots, visited)
  {
  }

  /** Following a pending field: its target is visited if in scope and new. */
  lemma Follow(g: Graph, scope: set<nat>, visited: set<nat>, forced: set<nat>, f: Field, rest: seq<Field>)
    requires Tracing(g, scope, visited, forced, [f] + rest) && GraphOk(g) && f in g.target
    ensures var t := g.target[f]; var hit := InScope(g, scope, t);
      Tracing(g, scope, visited + (if hit then {t} else {}), forced,
              (if hit && t !in visited then FieldsAt(t, FieldsOf(g.objects[t])) else []) + rest)
  {
    hide Tracing, FieldsOf;
    var t := g.target[f];
    if InScope(g, scope, t) && t !in visited {
      FollowNew(g, scope, visited, forced, f, rest);
    } else {
      PopCovered(g, scope, visited, forced, f, rest);
      assert [] + rest == rest && visited + {} == visited;
      assert InScope(g, scope, t) ==> visited + {t} == visited;
    }
  }

  lemma FollowNew(g: Graph, scope: set<nat>, visited: set<nat>, forced: set<nat>, f: Field, rest: seq<Field>)
    requires Tracing(g, scope, visited, forced, [f] + rest) && GraphOk(g) && f in g.target
    requires InScope(g, scope, g.target[f])
    ensures var t := g.target[f];
      Tracing(g, scope, visited + {t}, forced, FieldsAt(t, FieldsOf(g.objects[t])) + rest)
  {
    var t := g.target[f];
    var more := FieldsAt(t, FieldsOf(g.objects[t]));
    Visit(g, scope, visited, forced, [f] + rest, t);
    assert Covered(g, scope, visited + {t}, f);
    forall h: Field | h in more + ([f] + rest) ensures h == f || h in more + rest {
    }
    forall h: Field | h in more + rest ensures h in more + ([f] + rest) {
    }
  }
}
