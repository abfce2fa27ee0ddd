/**
 The sub-heaps in HM_HH_zip: where both chains of heaps have a heap of the same
 depth, its chains are linked. (The chains of heaps themselves, their nodes and
 chunks are zipped in module Zipping; here they are sequences, deepest first.)
 */
module CcZip {
  import opened CcChains
  import opened CcLinks
  import opened CcMemory

  /** What becomes of the heaps. */
  function ZipHeaps(v1: seq<Heap>, v2: seq<Heap>): seq<Heap>
    decreases |v1| + |v2|
  {
    if v1 == [] then v2
    else if v2 == [] then v1
    else if v1[0].depth == v2[0].depth then [Join(v1[0], v2[0])] + ZipHeaps(v1[1..], v2[1..])
    else if v1[0].depth > v2[0].depth then [v1[0]] + ZipHeaps(v1[1..], v2)
    else [v2[0]] + ZipHeaps(v1, v2[1..])
  }

  ghost predicate AllChainsOk(vs: seq<Heap>) { forall i :: 0 <= i < |vs| ==> ChainOk(vs[i]) }

  /** The records of heaps that are absorbed, and are dependants from now on. */
  function Absorbed(v1: seq<Heap>, v2: seq<Heap>): multiset<nat>
    decreases |v1| + |v2|
  {
    if v1 == [] || v2 == [] then multiset{}
    else if v1[0].depth == v2[0].depth then multiset{v2[0].id} + Absorbed(v1[1..], v2[1..])
    else if v1[0].depth > v2[0].depth then Absorbed(v1[1..], v2)
    else Absorbed(v1, v2[1..])
  }

  /** No chunk and no record of any sub-heap is lost or doubled, and all chains are
      as asserted. */
  lemma {:induction false} ZipKeeps(v1: seq<Heap>, v2: seq<Heap>, x: nat)
    requires AllChainsOk(v1) && AllChainsOk(v2)
    ensures AllChainsOk(ZipHeaps(v1, v2))
    ensures ChunkCount(ZipHeaps(v1, v2), x) == ChunkCount(v1, x) + ChunkCount(v2, x)
    ensures IdCount(ZipHeaps(v1, v2), x) + Absorbed(v1, v2)[x] == IdCount(v1, x) + IdCount(v2, x)
    decreases |v1| + |v2|
  {
    hide ChainOk, Join, AllChunks, AllIds;
    if v1 == [] || v2 == [] {
    } else if v1[0].depth == v2[0].depth {
      ZipKeeps(v1[1..], v2[1..], x);
      JoinKeeps(v1[0], v2[0]);
      Head(Join(v1[0], v2[0]), ZipHeaps(v1[1..], v2[1..]), x);
      AtX(AllIds(Join(v1[0], v2[0])), multiset{v2[0].id}, AllIds(v1[0]), AllIds(v2[0]), x);
    } else if v1[0].depth > v2[0].depth {
      ZipKeeps(v1[1..], v2, x);
      Head(v1[0], ZipHeaps(v1[1..], v2), x);
    } else {
      ZipKeeps(v1, v2[1..], x);
      Head(v2[0], ZipHeaps(v1, v2[1..]), x);
    }
  }

  lemma AtX(a: multiset<nat>, b: multiset<nat>, c: multiset<nat>, d: multiset<nat>, x: nat)
    requires a + b == c + d
    ensures a[x] + b[x] == c[x] + d[x]
  {
    assert (a + b)[x] == (c + d)[x];
  }

  lemma Head(v: Heap, rest: seq<Heap>, x: nat)
    ensures ChunkCount([v] + rest, x) == AllChunks(v)[x] + ChunkCount(rest, x)
    ensures IdCount([v] + rest, x) == AllIds(v)[x] + IdCount(rest, x)
  {
    assert ([v] + rest)[1..] == rest;
  }

  ghost predicate Deepest(v: Heap, vs: seq<Heap>) { forall i :: 0 <= i < |vs| ==> v.depth > vs[i].depth }

  ghost predicate Descending(vs: seq<Heap>) {
    forall i, j :: 0 <= i < j < |vs| ==> vs[i].depth > vs[j].depth
  }

  lemma Tail(v: Heap, vs: seq<Heap>)
    requires vs != [] && AllChainsOk(vs)
    ensures AllChainsOk(vs[1..]) && ChainOk(vs[0])
    ensures Deepest(v, vs) ==> Deepest(v, vs[1..]) && v.depth > vs[0].depth
    ensures Descending(vs) ==> Descending(vs[1..]) && Deepest(vs[0], vs[1..])
  {
  }

  lemma Consed(v: Heap, w: Heap, rest: seq<Heap>)
    ensures v.depth > w.depth && Deepest(v, rest) ==> Deepest(v, [w] + rest)
    ensures Deepest(w, rest) && Descending(rest) ==> Descending([w] + rest)
  {
  }

  /** A head that is deeper than another head is deeper than all that chain. */
  lemma DeeperHead(v: Heap, vs: seq<Heap>)
    requires vs != [] && Descending(vs) && v.depth > vs[0].depth
    ensures Deepest(v, vs)
  {
  }

  lemma {:induction false} ZipBelow(v: Heap, v1: seq<Heap>, v2: seq<Heap>)
    requires Deepest(v, v1) && Deepest(v, v2) && AllChainsOk(v1) && AllChainsOk(v2)
    ensures Deepest(v, ZipHeaps(v1, v2))
    decreases |v1| + |v2|
  {
    hide ChainOk, Join, Deepest, Descending, AllChainsOk;
    if v1 == [] || v2 == [] {
    } else {
      Tail(v, v1);
      Tail(v, v2);
      if v1[0].depth == v2[0].depth {
        ZipBelow(v, v1[1..], v2[1..]);
        JoinKeeps(v1[0], v2[0]);
        Consed(v, Join(v1[0], v2[0]), ZipHeaps(v1[1..], v2[1..]));
      } else if v1[0].depth > v2[0].depth {
        ZipBelow(v, v1[1..], v2);
        Consed(v, v1[0], ZipHeaps(v1[1..], v2));
      } else {
        ZipBelow(v, v1, v2[1..]);
        Consed(v, v2[0], ZipHeaps(v1, v2[1..]));
      }
    }
  }

  lemma SameDepth(v: Heap, w: Heap, vs: seq<Heap>)
    requires v.depth == w.depth && Deepest(v, vs)
    ensures Deepest(w, vs)
  {
  }

  /** One heap to a level, deepest first. */
  lemma {:induction false} ZipDescends(v1: seq<Heap>, v2: seq<Heap>)
    requires Descending(v1) && Descending(v2) && AllChainsOk(v1) && AllChainsOk(v2)
    ensures Descending(ZipHeaps(v1, v2))
    decreases |v1| + |v2|
  {
    hide ChainOk, Join, Deepest, Descending, AllChainsOk;
    if v1 == [] || v2 == [] {
    } else {
      var a, b := v1[0], v2[0];
      Tail(a, v1);
      Tail(b, v2);
      if a.depth == b.depth {
        ZipDescends(v1[1..], v2[1..]);
        JoinKeeps(a, b);
        SameDepth(a, Join(a, b), v1[1..]);
        SameDepth(b, Join(a, b), v2[1..]);
        ZipBelow(Join(a, b), v1[1..], v2[1..]);
        Consed(a, Join(a, b), ZipHeaps(v1[1..], v2[1..]));
      } else if a.depth > b.depth {
        ZipDescends(v1[1..], v2);
        DeeperHead(a, v2);
        ZipBelow(a, v1[1..], v2);
        Consed(a, a, ZipHeaps(v1[1..], v2));
      } else {
        ZipDescends(v1, v2[1..]);
        DeeperHead(b, v1);
        ZipBelow(b, v1, v2[1..]);
        Consed(b, b, ZipHeaps(v1, v2[1..]));
      }
    }
  }

  // ----- on the records -----

  ghost predicate Heads(hhs: seq<HeapRecord>, ps: seq<Place>) {
    |hhs| == |ps| && forall i :: 0 <= i < |hhs| ==> hhs[i] == ps[i].hh
  }

  /** These places hold these heaps, apart from each other. */
  ghost predicate Table(ps: seq<Place>, vs: seq<Heap>)
    reads RecordsBut(ps, |ps|, |ps|)
  {
    AllDisjoint(ps) && OthersStand(ps, vs, |ps|, |ps|) && AllChainsOk(vs)
  }

  ghost predicate Within(ps: seq<Place>, all: set<HeapRecord>) {
    forall i :: 0 <= i < |ps| ==> Records(ps[i]) <= all
  }

  lemma TakeHead<T>(d: seq<T>, s1: seq<T>, s2: seq<T>)
    requires s1 != []
    ensures (d + [s1[0]]) + s1[1..] + s2 == d + s1 + s2
  {
  }

  lemma JoinHead<T>(d: seq<T>, s1: seq<T>, s2: seq<T>, x: T)
    requires s1 != [] && s2 != []
    ensures var t, a, b := d + s1 + s2, |d|, |d| + |s1|;
      && a < b < |t| && t[a] == s1[0] && t[b] == s2[0]
      && t[a := x][..b] + t[a := x][b + 1..] == (d + [x]) + s1[1..] + s2[1..]
  {
  }

  /** The next of the second chain comes to the front. */
  lemma TableMove(pd: seq<Place>, p1: seq<Place>, p2: seq<Place>, vd: seq<Heap>, v1: seq<Heap>, v2: seq<Heap>)
    requires |pd| == |vd| && |p1| == |v1| && |p2| == |v2| && p2 != []
    requires Table(pd + p1 + p2, vd + v1 + v2)
    ensures Table((pd + [p2[0]]) + p1 + p2[1..], (vd + [v2[0]]) + v1 + v2[1..])
  {
    hide Stands, ChainOk, Disjoint;
    var ps, ps' := pd + p1 + p2, (pd + [p2[0]]) + p1 + p2[1..];
    var vs, vs' := vd + v1 + v2, (vd + [v2[0]]) + v1 + v2[1..];
    var d, n := |pd|, |pd| + |p1|;
    forall i | 0 <= i < |ps'|
      ensures var k := Whence(d, n, i); ps'[i] == ps[k] && vs'[i] == vs[k] && Stands(ps'[i], vs'[i])
    {
      var k := Whence(d, n, i);
      assert ps'[i] == ps[k] && vs'[i] == vs[k];
      assert Stands(ps[k], vs[k]);
    }
    forall i, j | 0 <= i < |ps'| && 0 <= j < |ps'| && i != j ensures Disjoint(ps'[i], ps'[j]) {
      assert Disjoint(ps[Whence(d, n, i)], ps[Whence(d, n, j)]);
    }
  }

  /** Where the i-th was before. */
  function Whence(d: nat, n: nat, i: nat): nat {
    if i < d then i else if i == d then n else if i <= n then i - 1 else i
  }

  lemma WithinMove(pd: seq<Place>, p1: seq<Place>, p2: seq<Place>, all: set<HeapRecord>)
    requires Within(pd + p1 + p2, all) && p2 != []
    ensures Within((pd + [p2[0]]) + p1 + p2[1..], all)
  {
    hide Records;
    var ps, ps' := pd + p1 + p2, (pd + [p2[0]]) + p1 + p2[1..];
    forall i | 0 <= i < |ps'| ensures Records(ps'[i]) <= all {
      assert ps'[i] == ps[Whence(|pd|, |pd| + |p1|, i)];
    }
  }

  /** Where the loop stands. */
  ghost predicate Midst(result: seq<HeapRecord>, rest1: seq<HeapRecord>, rest2: seq<HeapRecord>,
                        pd: seq<Place>, p1: seq<Place>, p2: seq<Place>, vd: seq<Heap>, v1: seq<Heap>, v2: seq<Heap>,
                        goal: seq<Heap>, all: set<HeapRecord>)
    reads RecordsBut(pd + p1 + p2, |pd + p1 + p2|, |pd + p1 + p2|)
  {
    && Heads(result, pd) && Heads(rest1, p1) && Heads(rest2, p2)
    && |pd| == |vd| && |p1| == |v1| && |p2| == |v2|
    && Table(pd + p1 + p2, vd + v1 + v2) && Within(pd + p1 + p2, all) && vd + ZipHeaps(v1, v2) == goal
  }

  lemma MidstStart(hhs1: seq<HeapRecord>, hhs2: seq<HeapRecord>, ps1: seq<Place>, ps2: seq<Place>,
                   vs1: seq<Heap>, vs2: seq<Heap>)
    requires Heads(hhs1, ps1) && Heads(hhs2, ps2) && |ps1| == |vs1| && |ps2| == |vs2|
    requires Table(ps1 + ps2, vs1 + vs2)
    ensures Midst([], hhs1, hhs2, [], ps1, ps2, [], vs1, vs2, ZipHeaps(vs1, vs2),
                  RecordsBut(ps1 + ps2, |ps1 + ps2|, |ps1 + ps2|))
  {
    hide Records, RecordsBut, AllDisjoint, OthersStand, AllChainsOk, ZipHeaps;
    assert [] + ps1 + ps2 == ps1 + ps2 && [] + vs1 + vs2 == vs1 + vs2;
    assert [] + ZipHeaps(vs1, vs2) == ZipHeaps(vs1, vs2);
  }

  lemma MidstHeads(result: seq<HeapRecord>, rest1: seq<HeapRecord>, rest2: seq<HeapRecord>,
                   pd: seq<Place>, p1: seq<Place>, p2: seq<Place>, vd: seq<Heap>, v1: seq<Heap>, v2: seq<Heap>,
                   goal: seq<Heap>, all: set<HeapRecord>)
    requires Midst(result, rest1, rest2, pd, p1, p2, vd, v1, v2, goal, all) && rest1 != [] && rest2 != []
    ensures |p1| == |v1| == |rest1| && |p2| == |v2| == |rest2| && |pd| == |vd| == |result|
    ensures var t, vt, a, b := pd + p1 + p2, vd + v1 + v2, |pd|, |pd| + |p1|;
      && AllDisjoint(t) && OthersStand(t, vt, |t|, |t|) && |t| == |vt| && a < b < |t|
      && t[a].hh == rest1[0] && t[b].hh == rest2[0] && ChainOk(vt[a]) && ChainOk(vt[b])
      && Records(t[a]) <= all && Records(t[b]) <= all
    ensures rest1[0].depth == v1[0].depth && rest2[0].depth == v2[0].depth
    ensures Heads(result, pd) && Heads(rest1, p1) && Heads(rest2, p2) && Within(pd + p1 + p2, all)
    ensures AllChainsOk(vd + v1 + v2) && vd + ZipHeaps(v1, v2) == goal
  {
    hide Records, RecordsBut, AllDisjoint, OthersStand, ZipHeaps, ChainOk;
    var t, vt, a, b := pd + p1 + p2, vd + v1 + v2, |pd|, |pd| + |p1|;
    assert t[a] == p1[0] && t[b] == p2[0] && vt[a] == v1[0] && vt[b] == v2[0];
    DepthsAre(t, vt, a, b);
  }

  lemma MidstFirst(result: seq<HeapRecord>, rest1: seq<HeapRecord>, rest2: seq<HeapRecord>,
                   pd: seq<Place>, p1: seq<Place>, p2: seq<Place>, vd: seq<Heap>, v1: seq<Heap>, v2: seq<Heap>,
                   goal: seq<Heap>, all: set<HeapRecord>)
    requires Midst(result, rest1, rest2, pd, p1, p2, vd, v1, v2, goal, all) && rest1 != [] && rest2 != []
             && v1[0].depth > v2[0].depth
    ensures Midst(result + [rest1[0]], rest1[1..], rest2, pd + [p1[0]], p1[1..], p2, vd + [v1[0]], v1[1..], v2, goal,
                  all)
  {
    hide Records, RecordsBut, Table, Within;
    TakeHead(pd, p1, p2);
    TakeHead(vd, v1, v2);
    assert vd + ([v1[0]] + ZipHeaps(v1[1..], v2)) == (vd + [v1[0]]) + ZipHeaps(v1[1..], v2);
  }

  lemma MidstSecond(result: seq<HeapRecord>, rest1: seq<HeapRecord>, rest2: seq<HeapRecord>,
                    pd: seq<Place>, p1: seq<Place>, p2: seq<Place>, vd: seq<Heap>, v1: seq<Heap>, v2: seq<Heap>,
                    goal: seq<Heap>, all: set<HeapRecord>)
    requires Midst(result, rest1, rest2, pd, p1, p2, vd, v1, v2, goal, all) && rest1 != [] && rest2 != []
             && v1[0].depth < v2[0].depth
    ensures Midst(result + [rest2[0]], rest1, rest2[1..], pd + [p2[0]], p1, p2[1..], vd + [v2[0]], v1, v2[1..], goal,
                  all)
  {
    hide Records, RecordsBut, Table, Within;
    TableMove(pd, p1, p2, vd, v1, v2);
    WithinMove(pd, p1, p2, all);
    assert vd + ([v2[0]] + ZipHeaps(v1, v2[1..])) == (vd + [v2[0]]) + ZipHeaps(v1, v2[1..]);
  }

  /** The two heads have been joined in the place of the first; the others stand. */
  lemma MidstJoin(result: seq<HeapRecord>, rest1: seq<HeapRecord>, rest2: seq<HeapRecord>,
                  pd: seq<Place>, p1: seq<Place>, p2: seq<Place>, vd: seq<Heap>, v1: seq<Heap>, v2: seq<Heap>,
                  goal: seq<Heap>, all: set<HeapRecord>, pl: Place)
    requires Heads(result, pd) && Heads(rest1, p1) && Heads(rest2, p2) && rest1 != [] && rest2 != []
    requires |pd| == |vd| && |p1| == |v1| && |p2| == |v2| && Within(pd + p1 + p2, all)
    requires AllDisjoint(pd + p1 + p2) && AllChainsOk(vd + v1 + v2) && vd + ZipHeaps(v1, v2) == goal
    requires v1[0].depth == v2[0].depth && pl.hh == rest1[0] && Records(pl) <= all
    requires OthersStand(pd + p1 + p2, vd + v1 + v2, |pd|, |pd| + |p1|)
    requires Forms(pl.hh, pl.fs, pl.cs, Join(v1[0], v2[0]))
    requires forall n :: n in Records(pl) ==> n !in RecordsBut(pd + p1 + p2, |pd|, |pd| + |p1|)
    ensures Midst(result + [rest1[0]], rest1[1..], rest2[1..], pd + [pl], p1[1..], p2[1..],
                  vd + [Join(v1[0], v2[0])], v1[1..], v2[1..], goal, all)
  {
    hide *;
    HeadsAre(rest1, p1);
    HeadsAre(rest2, p2);
    var v := Join(v1[0], v2[0]);
    PlacesJoined(pd, p1, p2, vd, v1, v2, pl, v);
    JoinedChains(vd, v1, v2);
    WithinJoin(pd, p1, p2, pl, all);
    HeadsStep(result, rest1, pd, p1, pl);
    HeadsTail(rest2, p2);
    ZipStep(vd, v1, v2);
    MidstIf(result + [rest1[0]], rest1[1..], rest2[1..], pd + [pl], p1[1..], p2[1..], vd + [v], v1[1..], v2[1..],
            goal, all);
  }

  lemma PlacesJoined(pd: seq<Place>, p1: seq<Place>, p2: seq<Place>, vd: seq<Heap>, v1: seq<Heap>, v2: seq<Heap>,
                     pl: Place, v: Heap)
    requires p1 != [] && p2 != [] && |pd| == |vd| && |p1| == |v1| && |p2| == |v2| && AllDisjoint(pd + p1 + p2)
    requires OthersStand(pd + p1 + p2, vd + v1 + v2, |pd|, |pd| + |p1|) && Forms(pl.hh, pl.fs, pl.cs, v)
    requires forall n :: n in Records(pl) ==> n !in RecordsBut(pd + p1 + p2, |pd|, |pd| + |p1|)
    ensures var ps, vs := (pd + [pl]) + p1[1..] + p2[1..], (vd + [v]) + v1[1..] + v2[1..];
      AllDisjoint(ps) && OthersStand(ps, vs, |ps|, |ps|)
  {
    hide *;
    JoinHead(pd, p1, p2, pl);
    JoinHead(vd, v1, v2, v);
    PlaceAbsorb(pd + p1 + p2, vd + v1 + v2, |pd|, |pd| + |p1|, pl, v);
    AbsorbIs(vd + v1 + v2, |pd|, |pd| + |p1|, v);
  }

  lemma HeadsAre(hhs: seq<HeapRecord>, ps: seq<Place>)
    requires Heads(hhs, ps)
    ensures |hhs| == |ps|
  {
  }

  lemma HeadsStep(result: seq<HeapRecord>, rest: seq<HeapRecord>, pd: seq<Place>, p: seq<Place>, pl: Place)
    requires Heads(result, pd) && Heads(rest, p) && rest != [] && pl.hh == rest[0]
    ensures |rest| == |p| && Heads(result + [rest[0]], pd + [pl]) && Heads(rest[1..], p[1..])
  {
  }

  lemma HeadsTail(rest: seq<HeapRecord>, p: seq<Place>)
    requires Heads(rest, p) && rest != []
    ensures |rest| == |p| && Heads(rest[1..], p[1..])
  {
  }

  lemma ZipStep(vd: seq<Heap>, v1: seq<Heap>, v2: seq<Heap>)
    requires v1 != [] && v2 != [] && v1[0].depth == v2[0].depth
    ensures vd + ZipHeaps(v1, v2) == (vd + [Join(v1[0], v2[0])]) + ZipHeaps(v1[1..], v2[1..])
  {
    hide Join;
  }

  lemma AbsorbIs(vs: seq<Heap>, i: nat, j: nat, v: Heap)
    requires i < |vs| && j < |vs|
    ensures Absorb(vs, i, j, v) == vs[i := v][..j] + vs[i := v][j + 1..]
  {
  }

  lemma MidstIf(result: seq<HeapRecord>, rest1: seq<HeapRecord>, rest2: seq<HeapRecord>,
                pd: seq<Place>, p1: seq<Place>, p2: seq<Place>, vd: seq<Heap>, v1: seq<Heap>, v2: seq<Heap>,
                goal: seq<Heap>, all: set<HeapRecord>)
    requires Heads(result, pd) && Heads(rest1, p1) && Heads(rest2, p2)
    requires |pd| == |vd| && |p1| == |v1| && |p2| == |v2|
    requires AllDisjoint(pd + p1 + p2) && AllChainsOk(vd + v1 + v2) && vd + ZipHeaps(v1, v2) == goal
    requires OthersStand(pd + p1 + p2, vd + v1 + v2, |pd + p1 + p2|, |pd + p1 + p2|) && Within(pd + p1 + p2, all)
    ensures Midst(result, rest1, rest2, pd, p1, p2, vd, v1, v2, goal, all)
  {
    hide Heads, AllDisjoint, AllChainsOk, OthersStand, Within, ZipHeaps;
  }

  lemma JoinedChains(vd: seq<Heap>, v1: seq<Heap>, v2: seq<Heap>)
    requires AllChainsOk(vd + v1 + v2) && v1 != [] && v2 != []
    ensures AllChainsOk((vd + [Join(v1[0], v2[0])]) + v1[1..] + v2[1..])
  {
    hide ChainOk, Join;
    var vs, n := vd + v1 + v2, |vd| + |v1|;
    assert vs[|vd|] == v1[0] && vs[n] == v2[0];
    JoinKeeps(v1[0], v2[0]);
    var vs' := (vd + [Join(v1[0], v2[0])]) + v1[1..] + v2[1..];
    forall i | 0 <= i < |vs'| ensures ChainOk(vs'[i]) {
      if i != |vd| { assert vs'[i] == vs[if i < n then i else i + 1]; }
    }
  }

  lemma WithinJoin(pd: seq<Place>, p1: seq<Place>, p2: seq<Place>, pl: Place, all: set<HeapRecord>)
    requires Within(pd + p1 + p2, all) && p1 != [] && p2 != [] && Records(pl) <= all
    ensures Within((pd + [pl]) + p1[1..] + p2[1..], all)
  {
    hide Records;
    var ps, ps', n := pd + p1 + p2, (pd + [pl]) + p1[1..] + p2[1..], |pd| + |p1|;
    forall i | 0 <= i < |ps'| ensures Records(ps'[i]) <= all {
      if i != |pd| { assert ps'[i] == ps[if i < n then i else i + 1]; }
    }
  }

  lemma MidstEnd(result: seq<HeapRecord>, rest1: seq<HeapRecord>, rest2: seq<HeapRecord>,
                 pd: seq<Place>, p1: seq<Place>, p2: seq<Place>, vd: seq<Heap>, v1: seq<Heap>, v2: seq<Heap>,
                 goal: seq<Heap>, all: set<HeapRecord>)
    requires Midst(result, rest1, rest2, pd, p1, p2, vd, v1, v2, goal, all) && (rest1 == [] || rest2 == [])
    ensures Heads(result + rest1 + rest2, pd + p1 + p2) && Table(pd + p1 + p2, goal)
  {
    hide Records, RecordsBut, Table, Within;
    assert vd + v1 + v2 == goal by {
      if v1 == [] { assert vd + v1 + v2 == vd + v2; } else { assert vd + v1 + v2 == vd + v1; }
    }
  }

  /** The sub-heaps' part of HM_HH_zip. */
  method ZipChains(hhs1: seq<HeapRecord>, hhs2: seq<HeapRecord>, ghost ps1: seq<Place>, ghost vs1: seq<Heap>,
                   ghost ps2: seq<Place>, ghost vs2: seq<Heap>)
    returns (result: seq<HeapRecord>, ghost ps: seq<Place>)
    requires Heads(hhs1, ps1) && Heads(hhs2, ps2) && |ps1| == |vs1| && |ps2| == |vs2|
    requires Table(ps1 + ps2, vs1 + vs2)
    modifies RecordsBut(ps1 + ps2, |ps1 + ps2|, |ps1 + ps2|)
    ensures Heads(result, ps) && Table(ps, ZipHeaps(vs1, vs2))
  {
    hide *;
    ghost var all := RecordsBut(ps1 + ps2, |ps1 + ps2|, |ps1 + ps2|);
    ghost var pd: seq<Place>, p1, p2, vd: seq<Heap>, v1, v2 := [], ps1, ps2, [], vs1, vs2;
    ghost var goal := ZipHeaps(vs1, vs2);
    var rest1, rest2 := hhs1, hhs2;
    result := [];
    MidstStart(hhs1, hhs2, ps1, ps2, vs1, vs2);
    while rest1 != [] && rest2 != []
      invariant Midst(result, rest1, rest2, pd, p1, p2, vd, v1, v2, goal, all)
      decreases |rest1| + |rest2|
    {
      var hh1, hh2 := rest1[0], rest2[0];
      MidstHeads(result, rest1, rest2, pd, p1, p2, vd, v1, v2, goal, all);
      if hh1.depth == hh2.depth {
        ghost var t, vt, a, b := pd + p1 + p2, vd + v1 + v2, |pd|, |pd| + |p1|;
        ghost var pl := JoinPlaces(t, vt, a, b, hh1, hh2);
        MidstJoin(result, rest1, rest2, pd, p1, p2, vd, v1, v2, goal, all, pl);
        pd, p1, p2 := pd + [pl], p1[1..], p2[1..];
        vd, v1, v2 := vd + [Join(v1[0], v2[0])], v1[1..], v2[1..];
        result, rest1, rest2 := result + [hh1], rest1[1..], rest2[1..];
      } else if hh1.depth > hh2.depth {
        MidstFirst(result, rest1, rest2, pd, p1, p2, vd, v1, v2, goal, all);
        pd, p1, vd, v1 := pd + [p1[0]], p1[1..], vd + [v1[0]], v1[1..];
        result, rest1 := result + [hh1], rest1[1..];
      } else {
        MidstSecond(result, rest1, rest2, pd, p1, p2, vd, v1, v2, goal, all);
        pd, p2, vd, v2 := pd + [p2[0]], p2[1..], vd + [v2[0]], v2[1..];
        result, rest2 := result + [hh2], rest2[1..];
      }
    }
    MidstEnd(result, rest1, rest2, pd, p1, p2, vd, v1, v2, goal, all);
    result, ps := result + rest1 + rest2, pd + p1 + p2;
  }
}
