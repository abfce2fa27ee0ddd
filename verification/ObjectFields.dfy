/** Heap objects as the collectors see them: where their pointer fields are. */
module ObjectFields {

  const OBJPTR_SIZE: nat := 8

  /** What the return address at a frame's top tells: the frame's size, and where
      in it the pointers are. */
  datatype Frame = Frame(size: nat, offsets: seq<nat>)

  /** Of a stack its used size, and for each frame's top, counted from the bottom
      of the stack, what the return address there tells. */
  datatype Layout =
    | Normal(bytesNonObjptrs: nat, numObjptrs: nat)
    | Sequence(bytesNonObjptrs: nat, numObjptrs: nat, length: nat)
    | Stack(used: nat, frameAt: map<nat, Frame>)

  /** Going down frame by frame ends at the bottom. */
  predicate WalksDown(frameAt: map<nat, Frame>, top: nat)
    decreases top
  {
    top == 0
    || (top in frameAt && 0 < frameAt[top].size <= top && WalksDown(frameAt, top - frameAt[top].size))
  }

  predicate ObjectOk(o: Layout) { o.Stack? ==> WalksDown(o.frameAt, o.used) }

  type Object = o: Layout | ObjectOk(o) witness Normal(0, 0)

  /** Offsets of n adjacent fields, the first at start. */
  function Adjacent(start: nat, n: nat): (r: seq<nat>)
    ensures |r| == n && forall i :: 0 <= i < n ==> r[i] == start + i * OBJPTR_SIZE
  {
    seq(n, i requires 0 <= i < n => start + i * OBJPTR_SIZE)
  }

  function CellBytes(o: Object): nat
    requires o.Sequence?
  {
    o.bytesNonObjptrs + o.numObjptrs * OBJPTR_SIZE
  }

  function CellStart(o: Object, c: nat): nat
    requires o.Sequence?
  {
    c * CellBytes(o)
  }

  /** Fields of the cells from c on. */
  function CellFields(o: Object, c: nat): seq<nat>
    requires o.Sequence?
    decreases o.length - c
  {
    if c >= o.length then []
    else Adjacent(CellStart(o, c) + o.bytesNonObjptrs, o.numObjptrs) + CellFields(o, c + 1)
  }

  function Shift(start: nat, offsets: seq<nat>): (r: seq<nat>)
    ensures |r| == |offsets| && forall i :: 0 <= i < |offsets| ==> r[i] == start + offsets[i]
  {
    seq(|offsets|, i requires 0 <= i < |offsets| => start + offsets[i])
  }

  /** Fields of the frames from this top down. */
  function FrameFields(frameAt: map<nat, Frame>, top: nat): seq<nat>
    requires WalksDown(frameAt, top)
    decreases top
  {
    if top == 0 then []
    else
      var f := frameAt[top];
      Shift(top - f.size, f.offsets) + FrameFields(frameAt, top - f.size)
  }

  /** All pointer fields of an object, in the order of enumeration. */
  function FieldsOf(o: Object): seq<nat> {
    match o
    case Normal(bytes, n) => Adjacent(bytes, n)
    case Sequence(_, _, _) => CellFields(o, 0)
    case Stack(used, frameAt) => FrameFields(frameAt, used)
  }

  // ----- the plain enumeration -----

  /** foreachObjptrInObject, answering the fields it visits in order. */
  method ForeachObjptrInObject(o: Object) returns (visited: seq<nat>)
    ensures visited == FieldsOf(o)
  {
    match o
    case Normal(bytes, n) =>
      visited := VisitRun(bytes, n);
    case Sequence(bytes, n, length) =>
      if n == 0 {
        visited := [];
        NoCellFields(o, 0);
      } else if bytes == 0 {
        visited := VisitRun(0, n * length);
        DenseCells(o, 0);
      } else {
        visited := VisitCells(o);
      }
    case Stack(used, frameAt) =>
      visited := VisitFrames(used, frameAt);
  }

  method VisitRun(start: nat, n: nat) returns (visited: seq<nat>)
    ensures visited == Adjacent(start, n)
  {
    visited := [];
    var p, max := start, start + n * OBJPTR_SIZE;
    ghost var k := 0;
    while p < max
      invariant k <= n && p == start + k * OBJPTR_SIZE && visited == Adjacent(start, k)
      decreases max - p
    {
      visited := visited + [p];
      p := p + OBJPTR_SIZE;
      k := k + 1;
    }
  }

  method VisitCells(o: Object) returns (visited: seq<nat>)
    requires o.Sequence? && o.bytesNonObjptrs > 0 && o.numObjptrs > 0
    ensures visited == CellFields(o, 0)
  {
    hide CellFields, CellStart, CellBytes, Adjacent;
    visited := [];
    ghost var c := 0;
    var p, last := CellStart(o, 0), CellStart(o, o.length);
    while p < last
      invariant c <= o.length && p == CellStart(o, c)
      invariant visited + CellFields(o, c) == CellFields(o, 0)
      decreases o.length - c
    {
      CellsInOrder(o, c);
      var cell := VisitRun(p + o.bytesNonObjptrs, o.numObjptrs);
      visited := visited + cell;
      p := p + o.bytesNonObjptrs + o.numObjptrs * OBJPTR_SIZE;
      c := c + 1;
    }
    CellsInOrder(o, c);
  }

  lemma CellsInOrder(o: Object, c: nat)
    requires o.Sequence? && o.bytesNonObjptrs > 0 && c <= o.length
    ensures CellStart(o, c) < CellStart(o, o.length) <==> c < o.length
    ensures CellStart(o, c + 1) == CellStart(o, c) + o.bytesNonObjptrs + o.numObjptrs * OBJPTR_SIZE
    ensures CellFields(o, c) == if c == o.length then []
      else Adjacent(CellStart(o, c) + o.bytesNonObjptrs, o.numObjptrs) + CellFields(o, c + 1)
  {
    var w, d := CellBytes(o), o.length - c;
    assert o.length * w == c * w + d * w;
    assert d > 0 ==> d * w >= w > 0;
  }

  /** From the top of the stack down to its bottom. */
  method VisitFrames(used: nat, frameAt: map<nat, Frame>) returns (visited: seq<nat>)
    requires WalksDown(frameAt, used)
    ensures visited == FrameFields(frameAt, used)
  {
    visited := [];
    var top: nat := used;
    while top > 0
      invariant WalksDown(frameAt, top)
      invariant visited + FrameFields(frameAt, top) == FrameFields(frameAt, used)
      decreases top
    {
      var frame := frameAt[top];
      top := top - frame.size;
      var fields := VisitFrame(top, frame.offsets);
      visited := visited + fields;
    }
  }

  method VisitFrame(start: nat, offsets: seq<nat>) returns (visited: seq<nat>)
    ensures visited == Shift(start, offsets)
  {
    visited := [];
    for i := 0 to |offsets|
      invariant visited == Shift(start, offsets)[..i]
    {
      visited := visited + [start + offsets[i]];
    }
  }

  lemma {:induction false} NoCellFields(o: Object, c: nat)
    requires o.Sequence? && o.numObjptrs == 0
    ensures CellFields(o, c) == []
    decreases o.length - c
  {
    if c < o.length { NoCellFields(o, c + 1); }
  }

  /** Cells without other data are one run of fields. */
  lemma {:induction false} DenseCells(o: Object, c: nat)
    requires o.Sequence? && o.bytesNonObjptrs == 0 && c <= o.length
    ensures CellFields(o, c) == Adjacent(c * CellBytes(o), o.numObjptrs * (o.length - c))
    decreases o.length - c
  {
    hide CellBytes, Adjacent;
    if c < o.length {
      DenseCells(o, c + 1);
      OneCellMore(o, c);
      AdjacentJoins(c * CellBytes(o), o.numObjptrs, o.numObjptrs * (o.length - c - 1));
    }
  }

  lemma OneCellMore(o: Object, c: nat)
    requires o.Sequence? && o.bytesNonObjptrs == 0 && c < o.length
    ensures o.numObjptrs * (o.length - c) == o.numObjptrs + o.numObjptrs * (o.length - c - 1)
    ensures (c + 1) * CellBytes(o) == c * CellBytes(o) + o.numObjptrs * OBJPTR_SIZE
  {
  }

  lemma AdjacentJoins(start: nat, n: nat, m: nat)
    ensures Adjacent(start, n) + Adjacent(start + n * OBJPTR_SIZE, m) == Adjacent(start, n + m)
  {
  }

  // ----- where the fields are -----

  /** How many bytes of an object may hold fields. */
  function Bytes(o: Object): nat {
    match o
    case Normal(bytes, n) => bytes + n * OBJPTR_SIZE
    case Sequence(bytes, n, length) => length * (bytes + n * OBJPTR_SIZE)
    case Stack(used, _) => used
  }

  /** A field of a sequence by the cell that it is in and its place there. */
  lemma {:induction false} FieldOfSequence(o: Object, c: nat, j: nat)
    requires o.Sequence? && c < o.length && j < o.numObjptrs
    ensures |FieldsOf(o)| == o.length * o.numObjptrs && c * o.numObjptrs + j < |FieldsOf(o)|
    ensures FieldsOf(o)[c * o.numObjptrs + j]
         == c * (o.bytesNonObjptrs + o.numObjptrs * OBJPTR_SIZE) + o.bytesNonObjptrs + j * OBJPTR_SIZE
  {
    CellFieldAt(o, 0, c, j);
  }

  lemma {:induction false} CellFieldAt(o: Object, from: nat, c: nat, j: nat)
    requires o.Sequence? && from <= c < o.length && j < o.numObjptrs
    ensures |CellFields(o, from)| == (o.length - from) * o.numObjptrs
    ensures (c - from) * o.numObjptrs + j < |CellFields(o, from)|
    ensures CellFields(o, from)[(c - from) * o.numObjptrs + j] == CellStart(o, c) + o.bytesNonObjptrs + j * OBJPTR_SIZE
    decreases o.length - from
  {
    hide CellStart, Adjacent;
    var n, cell := o.numObjptrs, Adjacent(CellStart(o, from) + o.bytesNonObjptrs, o.numObjptrs);
    CellCount(o, from);
    InCells(c - from, o.length - from, n, j);
    if c == from {
      assert cell[j] == CellStart(o, c) + o.bytesNonObjptrs + j * OBJPTR_SIZE;
    } else {
      CellFieldAt(o, from + 1, c, j);
      OneMore(c - from, n);
      Behind(cell, CellFields(o, from + 1), (c - from - 1) * n + j);
    }
  }

  lemma Behind(cell: seq<nat>, rest: seq<nat>, i: nat)
    requires i < |rest|
    ensures (cell + rest)[|cell| + i] == rest[i]
  {
  }

  lemma InCells(d: nat, m: nat, n: nat, j: nat)
    requires d < m && j < n
    ensures 0 <= d * n && d * n + j < m * n
  {
    assert m * n == d * n + n + (m - d - 1) * n;
  }

  lemma OneMore(a: nat, n: nat)
    requires a > 0
    ensures a * n == n + (a - 1) * n
  {
  }

  lemma {:induction false} CellCount(o: Object, from: nat)
    requires o.Sequence? && from <= o.length
    ensures |CellFields(o, from)| == (o.length - from) * o.numObjptrs
    decreases o.length - from
  {
    if from == o.length {
    } else {
      CellCount(o, from + 1);
      OneMore(o.length - from, o.numObjptrs);
    }
  }

  /** Going down from this top: where the frames are, and where in the enumeration
      the fields of each begin. */
  ghost predicate Walk(frameAt: map<nat, Frame>, top: nat, tops: seq<nat>, first: seq<nat>, fields: seq<nat>) {
    && |tops| == |first| > 0 && tops[0] == top && tops[|tops| - 1] == 0
    && first[0] == 0 && first[|first| - 1] == |fields|
    && (forall i :: 0 <= i < |tops| - 1 ==> FrameThere(frameAt, tops, first, fields, i))
  }

  ghost predicate FrameThere(frameAt: map<nat, Frame>, tops: seq<nat>, first: seq<nat>, fields: seq<nat>, i: nat)
    requires i + 1 < |tops| == |first|
  {
    && tops[i] in frameAt && 0 < frameAt[tops[i]].size && tops[i + 1] == tops[i] - frameAt[tops[i]].size
    && first[i + 1] == first[i] + |frameAt[tops[i]].offsets| <= |fields|
    && forall j :: 0 <= j < |frameAt[tops[i]].offsets| ==>
         fields[first[i] + j] == tops[i + 1] + frameAt[tops[i]].offsets[j]
  }

  /** A stack's fields are those of its frames from the used size down by each
      frame's size to the bottom, at their offsets, and no others. */
  lemma {:induction false} FieldsOfStack(o: Object) returns (tops: seq<nat>, first: seq<nat>)
    requires o.Stack?
    ensures Walk(o.frameAt, o.used, tops, first, FieldsOf(o))
  {
    tops, first := FramesWalk(o.frameAt, o.used);
  }

  lemma {:induction false} FramesWalk(frameAt: map<nat, Frame>, top: nat) returns (tops: seq<nat>, first: seq<nat>)
    requires WalksDown(frameAt, top)
    ensures Walk(frameAt, top, tops, first, FrameFields(frameAt, top))
    decreases top
  {
    if top == 0 {
      tops, first := [0], [0];
    } else {
      var f := frameAt[top];
      var lower, starts := FramesWalk(frameAt, top - f.size);
      tops, first := [top] + lower, [0] + seq(|starts|, i requires 0 <= i < |starts| => starts[i] + |f.offsets|);
      var fields, rest := FrameFields(frameAt, top), FrameFields(frameAt, top - f.size);
      assert fields == Shift(top - f.size, f.offsets) + rest;
      forall i | 0 <= i < |tops| - 1 ensures FrameThere(frameAt, tops, first, fields, i) {
        if i > 0 { assert FrameThere(frameAt, lower, starts, rest, i - 1); }
      }
    }
  }

  /** The pointers in a frame lie in it, one beside the other. */
  predicate FramesFit(frameAt: map<nat, Frame>) {
    forall top :: top in frameAt ==> FrameFits(frameAt[top])
  }

  predicate FrameFits(f: Frame) {
    && (forall j :: 0 <= j < |f.offsets| ==> f.offsets[j] + OBJPTR_SIZE <= f.size)
    && (forall i, j :: 0 <= i < j < |f.offsets| ==> Beside(f.offsets[i], f.offsets[j]))
  }

  predicate Beside(p: nat, q: nat) { p + OBJPTR_SIZE <= q || q + OBJPTR_SIZE <= p }

  /** No field is enumerated twice or overlaps another one, and all lie within the
      object. */
  lemma {:induction false} FieldsFit(o: Object)
    requires o.Stack? ==> FramesFit(o.frameAt)
    ensures forall i :: 0 <= i < |FieldsOf(o)| ==> FieldsOf(o)[i] + OBJPTR_SIZE <= Bytes(o)
    ensures forall i, j :: 0 <= i < j < |FieldsOf(o)| ==> Beside(FieldsOf(o)[i], FieldsOf(o)[j])
  {
    match o
    case Normal(_, _) =>
    case Sequence(_, _, _) => CellsFit(o, 0);
    case Stack(used, frameAt) => StackFits(frameAt, used);
  }

  lemma {:induction false} CellsFit(o: Object, c: nat)
    requires o.Sequence? && c <= o.length
    ensures forall i :: 0 <= i < |CellFields(o, c)| ==>
      c * CellBytes(o) <= CellFields(o, c)[i] && CellFields(o, c)[i] + OBJPTR_SIZE <= o.length * CellBytes(o)
    ensures forall i, j :: 0 <= i < j < |CellFields(o, c)| ==> Beside(CellFields(o, c)[i], CellFields(o, c)[j])
    decreases o.length - c
  {
    if c == o.length {
    } else {
      var cell := Adjacent(CellStart(o, c) + o.bytesNonObjptrs, o.numObjptrs);
      CellsFit(o, c + 1);
      CellEnd(o, c);
      hide CellBytes, CellStart;
      assert CellFields(o, c) == cell + CellFields(o, c + 1);
    }
  }

  lemma CellEnd(o: Object, c: nat)
    requires o.Sequence? && c < o.length
    ensures (c + 1) * CellBytes(o) == c * CellBytes(o) + CellBytes(o) <= o.length * CellBytes(o)
    ensures CellStart(o, c) == c * CellBytes(o) && CellBytes(o) == o.bytesNonObjptrs + o.numObjptrs * OBJPTR_SIZE
  {
    var w, d := CellBytes(o), o.length - c - 1;
    assert o.length * w == (c + 1) * w + d * w;
  }

  lemma {:induction false} StackFits(frameAt: map<nat, Frame>, top: nat)
    requires WalksDown(frameAt, top) && FramesFit(frameAt)
    ensures forall i :: 0 <= i < |FrameFields(frameAt, top)| ==> FrameFields(frameAt, top)[i] + OBJPTR_SIZE <= top
    ensures forall i, j :: 0 <= i < j < |FrameFields(frameAt, top)| ==>
      Beside(FrameFields(frameAt, top)[i], FrameFields(frameAt, top)[j])
    decreases top
  {
    if top == 0 {
    } else {
      var f := frameAt[top];
      StackFits(frameAt, top - f.size);
      assert FrameFits(f);
      var upper, lower := Shift(top - f.size, f.offsets), FrameFields(frameAt, top - f.size);
      assert FrameFields(frameAt, top) == upper + lower;
      forall i, j | 0 <= i < j < |upper| ensures Beside(upper[i], upper[j]) {
        assert Beside(f.offsets[i], f.offsets[j]);
      }
    }
  }
}
