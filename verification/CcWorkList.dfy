/**
 The concurrent collector's worklist: a stack of cursors into objects, kept in
 chunks. One push of an object yields its fields one by one.
 */
module CcWorkList {
  import opened Options
  import opened ObjectFields

  datatype Field = Field(op: nat, offset: nat)

  datatype Cursor =
    | AtNormal(objptrIdx: nat)
    | AtSequence(cellIdx: nat, objptrIdx: nat)
    | AtStack(topCursor: nat, frameOffsetsIdx: nat)

  datatype Elem = Elem(op: nat, at: Cursor)

  /** A chunk has room for so many elements. */
  datatype Chunk = Chunk(room: nat, elems: seq<Elem>)

  predicate CursorOk(o: Object, c: Cursor) {
    match c
    case AtNormal(i) => o.Normal? && i < o.numObjptrs
    case AtSequence(cell, i) => o.Sequence? && cell < o.length && i < o.numObjptrs
    case AtStack(top, i) =>
      o.Stack? && WalksDown(o.frameAt, top) && 0 < top && i < |o.frameAt[top].offsets|
  }

  /** The fields a cursor still has to yield. */
  function Rest(o: Object, c: Cursor): seq<nat>
    requires CursorOk(o, c)
  {
    match c
    case AtNormal(i) => Adjacent(o.bytesNonObjptrs, o.numObjptrs)[i..]
    case AtSequence(cell, i) =>
      Adjacent(CellStart(o, cell) + o.bytesNonObjptrs, o.numObjptrs)[i..] + CellFields(o, cell + 1)
    case AtStack(top, i) =>
      var frameStart := top - o.frameAt[top].size;
      Shift(frameStart, o.frameAt[top].offsets)[i..] + FrameFields(o.frameAt, frameStart)
  }

  /** The uppermost top from here down whose frame has pointers; zero is none. */
  method FindStackNonEmptyFrameTop(frameAt: map<nat, Frame>, start: nat) returns (top: nat)
    requires WalksDown(frameAt, start)
    ensures top <= start && WalksDown(frameAt, top) && FrameFields(frameAt, top) == FrameFields(frameAt, start)
    ensures top > 0 ==> frameAt[top].offsets != []
  {
    top := start;
    while top > 0
      invariant top <= start && WalksDown(frameAt, top) && FrameFields(frameAt, top) == FrameFields(frameAt, start)
      decreases top
    {
      if |frameAt[top].offsets| > 0 { return; }
      assert FrameFields(frameAt, top) == [] + FrameFields(frameAt, top - frameAt[top].size);
      top := top - frameAt[top].size;
    }
  }

  /** No element for an object without fields, otherwise one that yields them all. */
  method MakeInitialElem(o: Object, op: nat) returns (r: Option<Elem>)
    ensures r.None? <==> FieldsOf(o) == []
    ensures r.Some? ==> r.value.op == op && CursorOk(o, r.value.at) && Rest(o, r.value.at) == FieldsOf(o)
  {
    match o
    case Normal(_, n) =>
      if n == 0 { return None; }
      r := Some(Elem(op, AtNormal(0)));
    case Sequence(_, n, length) =>
      if n == 0 { NoCellFields(o, 0); return None; }
      if length == 0 { return None; }
      r := Some(Elem(op, AtSequence(0, 0)));
      FirstOf(Adjacent(CellStart(o, 0) + o.bytesNonObjptrs, n));
    case Stack(used, frameAt) =>
      var firstTop := FindStackNonEmptyFrameTop(frameAt, used);
      if firstTop == 0 { return None; }
      r := Some(Elem(op, AtStack(firstTop, 0)));
      FirstOf(Shift(firstTop - frameAt[firstTop].size, frameAt[firstTop].offsets));
  }

  lemma FirstOf(s: seq<nat>)
    ensures s[0..] == s
  {
  }

  lemma SplitAt(s: seq<nat>, i: nat, tail: seq<nat>)
    requires i < |s|
    ensures s[i..] + tail == [s[i]] + (s[i + 1..] + tail)
    ensures i + 1 == |s| ==> s[i..] + tail == [s[i]] + tail
  {
  }

  method AdvanceNormal(o: Object, i: nat) returns (field: nat, done: bool, next: Cursor)
    requires CursorOk(o, AtNormal(i))
    ensures !done ==> CursorOk(o, next)
    ensures Rest(o, AtNormal(i)) == [field] + (if done then [] else Rest(o, next))
  {
    field := o.bytesNonObjptrs + i * OBJPTR_SIZE;
    done := i + 1 == o.numObjptrs;
    next := AtNormal(i + 1);
    SplitAt(Adjacent(o.bytesNonObjptrs, o.numObjptrs), i, []);
  }

  method AdvanceSequence(o: Object, cell: nat, i: nat) returns (field: nat, done: bool, next: Cursor)
    requires CursorOk(o, AtSequence(cell, i))
    ensures !done ==> CursorOk(o, next)
    ensures Rest(o, AtSequence(cell, i)) == [field] + (if done then [] else Rest(o, next))
  {
    hide CellStart, CellFields, Rest;
    field := CellStart(o, cell) + o.bytesNonObjptrs + i * OBJPTR_SIZE;
    done := false;
    next := AtSequence(cell, i + 1);
    RestOfCell(o, cell, i);
    if i + 1 == o.numObjptrs {
      next := AtSequence(cell + 1, 0);
      done := cell + 1 == o.length;
      RestOfCells(o, cell + 1);
    }
  }

  lemma RestOfCell(o: Object, cell: nat, i: nat)
    requires CursorOk(o, AtSequence(cell, i))
    ensures Rest(o, AtSequence(cell, i)) ==
      [CellStart(o, cell) + o.bytesNonObjptrs + i * OBJPTR_SIZE]
      + (if i + 1 == o.numObjptrs then CellFields(o, cell + 1) else Rest(o, AtSequence(cell, i + 1)))
  {
    hide CellStart, CellFields;
    SplitAt(Adjacent(CellStart(o, cell) + o.bytesNonObjptrs, o.numObjptrs), i, CellFields(o, cell + 1));
  }

  lemma RestOfCells(o: Object, cell: nat)
    requires o.Sequence? && o.numObjptrs > 0 && cell <= o.length
    ensures CellFields(o, cell) == if cell == o.length then [] else Rest(o, AtSequence(cell, 0))
  {
    hide CellStart;
    FirstOf(Adjacent(CellStart(o, cell) + o.bytesNonObjptrs, o.numObjptrs));
  }

  method AdvanceStack(o: Object, top: nat, i: nat) returns (field: nat, done: bool, next: Cursor)
    requires CursorOk(o, AtStack(top, i))
    ensures !done ==> CursorOk(o, next)
    ensures Rest(o, AtStack(top, i)) == [field] + (if done then [] else Rest(o, next))
  {
    hide FrameFields, Rest;
    var frame := o.frameAt[top];
    var frameStart := top - frame.size;
    field := frameStart + frame.offsets[i];
    done := false;
    next := AtStack(top, i + 1);
    RestOfFrame(o, top, i);
    if i + 1 == |frame.offsets| {
      var newTop := FindStackNonEmptyFrameTop(o.frameAt, frameStart);
      RestOfFrames(o, newTop);
      if newTop == 0 {
        done := true;
      } else {
        next := AtStack(newTop, 0);
      }
    }
  }

  lemma RestOfFrame(o: Object, top: nat, i: nat)
    requires CursorOk(o, AtStack(top, i))
    ensures var frame := o.frameAt[top];
      Rest(o, AtStack(top, i)) ==
        [top - frame.size + frame.offsets[i]]
        + (if i + 1 == |frame.offsets| then FrameFields(o.frameAt, top - frame.size) else Rest(o, AtStack(top, i + 1)))
  {
    hide FrameFields;
    var frame := o.frameAt[top];
    SplitAt(Shift(top - frame.size, frame.offsets), i, FrameFields(o.frameAt, top - frame.size));
  }

  lemma RestOfFrames(o: Object, top: nat)
    requires o.Stack? && WalksDown(o.frameAt, top) && (top > 0 ==> o.frameAt[top].offsets != [])
    ensures FrameFields(o.frameAt, top) == if top == 0 then [] else Rest(o, AtStack(top, 0))
  {
    if top > 0 { FirstOf(Shift(top - o.frameAt[top].size, o.frameAt[top].offsets)); }
  }

  /** Yield one field and move on; done says that it was the last one. */
  method AdvanceOneField(o: Object, c: Cursor) returns (field: nat, done: bool, next: Cursor)
    requires CursorOk(o, c)
    ensures !done ==> CursorOk(o, next)
    ensures Rest(o, c) == [field] + (if done then [] else Rest(o, next))
  {
    match c
    case AtNormal(i) => field, done, next := AdvanceNormal(o, i);
    case AtSequence(cell, i) => field, done, next := AdvanceSequence(o, cell, i);
    case AtStack(top, i) => field, done, next := AdvanceStack(o, top, i);
  }

  // ----- the list -----

  function FieldsAt(op: nat, offsets: seq<nat>): (r: seq<Field>)
    ensures |r| == |offsets| && forall i :: 0 <= i < |r| ==> r[i] == Field(op, offsets[i])
  {
    seq(|offsets|, i requires 0 <= i < |offsets| => Field(op, offsets[i]))
  }

  lemma FieldsAtCons(op: nat, offset: nat, rest: seq<nat>)
    ensures FieldsAt(op, [offset] + rest) == [Field(op, offset)] + FieldsAt(op, rest)
    ensures FieldsAt(op, []) == []
  {
  }

  predicate ElemOk(objects: map<nat, Object>, e: Elem) {
    e.op in objects && CursorOk(objects[e.op], e.at)
  }

  predicate ElemsOk(objects: map<nat, Object>, elems: seq<Elem>) {
    forall k :: 0 <= k < |elems| ==> ElemOk(objects, elems[k])
  }

  /** What popping these elements, the last one first, will yield. */
  ghost function PendingOf(objects: map<nat, Object>, elems: seq<Elem>): seq<Field>
    requires ElemsOk(objects, elems)
  {
    if elems == [] then []
    else
      var e := elems[|elems| - 1];
      FieldsAt(e.op, Rest(objects[e.op], e.at)) + PendingOf(objects, elems[..|elems| - 1])
  }

  function ElemsIn(chunks: seq<Chunk>): seq<Elem> {
    if chunks == [] then [] else ElemsIn(chunks[..|chunks| - 1]) + chunks[|chunks| - 1].elems
  }

  predicate ChunksOk(chunks: seq<Chunk>, current: nat) {
    && current < |chunks| <= current + 2
    && (forall k :: 0 <= k < |chunks| ==> |chunks[k].elems| <= chunks[k].room && chunks[k].room > 0)
    && (forall k :: 0 <= k < current ==> chunks[k].elems != [])
    && (current + 1 < |chunks| ==> chunks[current + 1].elems == [])
  }

  lemma RestNonEmpty(o: Object, c: Cursor)
    requires CursorOk(o, c)
    ensures Rest(o, c) != []
  {
  }

  lemma PendingSnoc(objects: map<nat, Object>, elems: seq<Elem>, e: Elem)
    requires ElemsOk(objects, elems) && ElemOk(objects, e)
    ensures ElemsOk(objects, elems + [e])
    ensures PendingOf(objects, elems + [e]) == FieldsAt(e.op, Rest(objects[e.op], e.at)) + PendingOf(objects, elems)
  {
    assert (elems + [e])[..|elems|] == elems;
  }

  lemma PendingEmpty(objects: map<nat, Object>, elems: seq<Elem>)
    requires ElemsOk(objects, elems)
    ensures PendingOf(objects, elems) == [] <==> elems == []
  {
    if elems != [] { RestNonEmpty(objects[elems[|elems| - 1].op], elems[|elems| - 1].at); }
  }

  /** Only the current chunk changes. */
  lemma ElemsUpdate(chunks: seq<Chunk>, current: nat, c: Chunk)
    requires current < |chunks|
    ensures ElemsIn(chunks[..current + 1]) == ElemsIn(chunks[..current]) + chunks[current].elems
    ensures ElemsIn(chunks[current := c][..current + 1]) == ElemsIn(chunks[..current]) + c.elems
  {
    assert chunks[..current + 1][..current] == chunks[..current];
    assert chunks[current := c][..current + 1][..current] == chunks[..current];
  }

  class WorkList {
    const objects: map<nat, Object>
    var chunks: seq<Chunk>
    var current: nat

    ghost predicate Valid()
      reads this
    {
      ChunksOk(chunks, current) && ElemsOk(objects, Elems())
    }

    ghost function Elems(): seq<Elem>
      reads this
    {
      ElemsIn(if current < |chunks| then chunks[..current + 1] else chunks)
    }

    /** The fields that remain to be traced, next one first. */
    ghost function Pending(): seq<Field>
      reads this
      requires Valid()
    {
      PendingOf(objects, Elems())
    }

    constructor (objects: map<nat, Object>)
      ensures Valid() && Pending() == [] && this.objects == objects
    {
      this.objects := objects;
      var room: nat :| room > 0;
      chunks, current := [Chunk(room, [])], 0;
      new;
      assert chunks[..1] == chunks && ElemsIn(chunks[..0]) == [];
    }

    /** CC_workList_isEmpty. */
    method IsEmpty() returns (empty: bool)
      requires Valid()
      ensures empty <==> Pending() == []
    {
      empty := current == 0 && (|chunks| == 1 || |chunks| == 2)
        && chunks[current].elems == [] && (|chunks| == 1 || chunks[current + 1].elems == []);
      PendingEmpty(objects, Elems());
      ElemsUpdate(chunks, current, chunks[current]);
      if current > 0 { ElemsUpdate(chunks, current - 1, chunks[current - 1]); }
    }

    /** Go on to the next chunk if the current one is full. */
    method MakeRoom()
      requires Valid()
      modifies this
      ensures Valid() && Elems() == old(Elems())
      ensures |chunks[current].elems| < chunks[current].room
    {
      hide ElemsIn, ElemsOk;
      if |chunks[current].elems| == chunks[current].room {
        if current + 1 == |chunks| {
          var room: nat :| room > 0;
          chunks := chunks + [Chunk(room, [])];
        }
        current := current + 1;
        ElemsUpdate(chunks, current, chunks[current]);
        assert old(chunks)[..old(current) + 1] == chunks[..current];
        assert Elems() == old(Elems()) + [];
        assert Elems() == old(Elems());
      }
    }

    /** CC_workList_push: the object's fields come before all that was pending. */
    method Push(op: nat)
      requires Valid() && op in objects
      modifies this
      ensures Valid() && Pending() == FieldsAt(op, FieldsOf(objects[op])) + old(Pending())
    {
      hide ElemsIn, PendingOf, Rest, FieldsOf, CursorOk, ElemsOk;
      var elem := MakeInitialElem(objects[op], op);
      if elem.None? {
        return;
      }
      MakeRoom();
      ghost var elems := Elems();
      var c := chunks[current];
      var c' := c.(elems := c.elems + [elem.value]);
      ElemsUpdate(chunks, current, c');
      assert ElemsIn(chunks[..current]) + c'.elems == elems + [elem.value];
      chunks := chunks[current := c'];
      PendingSnoc(objects, elems, elem.value);
    }

    /** CC_workList_pop: nothing exactly if nothing is pending, otherwise the
        next field. */
    method Pop() returns (field: Option<Field>)
      requires Valid()
      modifies this
      ensures Valid()
      ensures field.None? <==> old(Pending()) == []
      ensures old(Pending()) == (if field.None? then [] else [field.value]) + Pending()
    {
      hide ElemsIn, PendingOf, ElemsOk;
      PendingEmpty(objects, Elems());
      ElemsUpdate(chunks, current, chunks[current]);
      if chunks[current].elems == [] {
        if current == 0 {
          assert chunks[..current] == [];
          NoChunks();
          return None;
        }
        if current + 1 < |chunks| {
          chunks := chunks[..current + 1];
        }
        assert chunks[..current + 1] == old(chunks)[..current + 1];
        BackUp();
      }
      field := Take();
    }

    lemma NoChunks()
      ensures ElemsIn([]) == []
    {
    }

    /** The chunk before an empty one becomes current. */
    method BackUp()
      requires Valid() && current > 0 && chunks[current].elems == [] && current + 1 == |chunks|
      modifies this`current
      ensures Valid() && Elems() == old(Elems()) && chunks[current].elems != []
    {
      hide ElemsIn, ElemsOk;
      ElemsUpdate(chunks, current, chunks[current]);
      current := current - 1;
      assert Elems() + [] == old(Elems());
      assert Elems() == old(Elems());
    }

    /** Yield a field of the last element, and drop the element when it is done. */
    method Take() returns (field: Option<Field>)
      requires Valid() && chunks[current].elems != []
      modifies this
      ensures Valid() && field.Some? && old(Pending()) == [field.value] + Pending()
    {
      hide ElemsIn, PendingOf, Rest, CursorOk;
      var c := chunks[current];
      var front, elem := c.elems[..|c.elems| - 1], c.elems[|c.elems| - 1];
      ghost var below := ElemsIn(chunks[..current]) + front;
      ElemsUpdate(chunks, current, c);
      LastElem(Elems(), below, elem);
      PendingSnoc(objects, below, elem);
      var offset, done, next := AdvanceOneField(objects[elem.op], elem.at);
      field := Some(Field(elem.op, offset));
      var c' := c.(elems := if done then front else front + [Elem(elem.op, next)]);
      ElemsUpdate(chunks, current, c');
      chunks := chunks[current := c'];
      if done {
        assert Elems() == below;
      } else {
        PendingSnoc(objects, below, Elem(elem.op, next));
        assert Elems() == below + [Elem(elem.op, next)];
      }
      FieldsAtCons(elem.op, offset, if done then [] else Rest(objects[elem.op], next));
    }

    lemma LastElem(elems: seq<Elem>, below: seq<Elem>, elem: Elem)
      requires ElemsOk(objects, elems) && elems == below + [elem]
      ensures ElemsOk(objects, below) && ElemOk(objects, elem)
    {
      assert elems[|below|] == elem;
      assert forall k :: 0 <= k < |below| ==> elems[k] == below[k];
    }
  }
}
