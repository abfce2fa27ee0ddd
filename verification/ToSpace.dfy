/**
 The chunks of one level in to-space: where copied objects are put, when a new
 chunk begins, and the scan that follows while more is put behind it. What the
 rest of the collector sees as the sequence of a level's objects is spread over
 a linked list of chunks.
 */
module ToSpace {

  /** Block size, size of a chunk's header, and most bytes of metadata that an
      object has. */
  datatype Sizes = Sizes(block: nat, header: nat, metadata: nat)

  predicate SizesOk(z: Sizes) { z.header + z.metadata < z.block }

  /** An object in memory, from its metadata on. */
  datatype Placed = Placed(start: nat, metadata: nat, size: nat)

  function ObjptrOf(o: Placed): nat { o.start + o.metadata }

  /** blockOf: the start of the block that an address is in. */
  function BlockOf(z: Sizes, p: nat): nat
    requires z.block > 0
  {
    p - p % z.block
  }

  class ChunkRecord {
    const base: nat
    const limit: nat
    var frontier: nat
    var mightContainMultipleObjects: bool
    var objects: seq<Placed>
    var nextChunk: ChunkRecord?
    var prevChunk: ChunkRecord?

    /** HM_initializeChunk. */
    constructor (z: Sizes, base: nat, limit: nat)
      ensures this.base == base && this.limit == limit && frontier == base + z.header
      ensures mightContainMultipleObjects && objects == [] && nextChunk == null && prevChunk == null
    {
      this.base, this.limit, frontier := base, limit, base + z.header;
      mightContainMultipleObjects, objects := true, [];
      nextChunk, prevChunk := null, null;
    }
  }

  class ChunkList {
    var firstChunk: ChunkRecord?
    var lastChunk: ChunkRecord?
    var usedSize: nat

    constructor ()
      ensures firstChunk == null && lastChunk == null && usedSize == 0
    {
      firstChunk, lastChunk, usedSize := null, null, 0;
    }
  }

  // ----- one chunk -----

  /** Objects lie one behind the other from start up to the frontier. */
  predicate Contiguous(objects: seq<Placed>, start: nat, frontier: nat) {
    if objects == [] then start == frontier
    else
      var last := objects[|objects| - 1];
      Contiguous(objects[..|objects| - 1], start, last.start) && frontier == last.start + last.size
  }

  /** An object that its chunk can be found from: its data begins in the first
      block, and before the limit. */
  predicate Findable(z: Sizes, base: nat, limit: nat, o: Placed) {
    && o.metadata < o.size && base + z.header <= o.start && ObjptrOf(o) < base + z.block
    && o.start + o.size <= limit
  }

  predicate Layout(z: Sizes, base: nat, limit: nat, frontier: nat, multiple: bool, objects: seq<Placed>) {
    && z.block > 0 && base % z.block == 0 && base + z.block <= limit && frontier <= limit
    && Contiguous(objects, base + z.header, frontier)
    && (forall i :: 0 <= i < |objects| ==> Findable(z, base, limit, objects[i]))
    && (!multiple ==> |objects| == 1)
  }

  ghost predicate ChunkOk(z: Sizes, c: ChunkRecord)
    reads c`frontier, c`mightContainMultipleObjects, c`objects
  {
    Layout(z, c.base, c.limit, c.frontier, c.mightContainMultipleObjects, c.objects)
  }

  /** One more object behind the others. */
  lemma LayoutSnoc(z: Sizes, base: nat, limit: nat, frontier: nat, objects: seq<Placed>, o: Placed)
    requires Layout(z, base, limit, frontier, true, objects) && o.start == frontier && frontier + o.size <= limit
    requires o.metadata < o.size && frontier + o.metadata < base + z.block
    ensures Layout(z, base, limit, frontier + o.size, true, objects + [o])
  {
    hide Contiguous;
    ContiguousSnoc(objects, base + z.header, o);
    assert Findable(z, base, limit, o) by { StartAbove(z, base, limit, frontier, objects); }
  }

  lemma StartAbove(z: Sizes, base: nat, limit: nat, frontier: nat, objects: seq<Placed>)
    requires Layout(z, base, limit, frontier, true, objects)
    ensures base + z.header <= frontier
  {
    UsedIsTotal(objects, base + z.header, frontier);
  }

  /** HM_getChunkOf finds the chunk that an object is in. */
  lemma ChunkOfObject(z: Sizes, c: ChunkRecord, o: Placed)
    requires ChunkOk(z, c) && o in c.objects
    ensures BlockOf(z, ObjptrOf(o)) == c.base && c.base + z.header <= ObjptrOf(o) < c.limit
  {
    assert Findable(z, c.base, c.limit, o);
    var p := ObjptrOf(o);
    SameBlock(c.base, p, z.block);
  }

  lemma SameBlock(base: nat, p: nat, block: nat)
    requires block > 0 && base % block == 0 && base <= p < base + block
    ensures p - p % block == base
  {
    var q, d := base / block, p - base;
    assert base == q * block;
    ModOfSum(q, d, block);
  }

  lemma ModOfSum(q: nat, d: nat, block: nat)
    requires d < block
    ensures (q * block + d) % block == d
  {
    var r, k := (q * block + d) % block, (q * block + d) / block;
    assert (q - k) * block == r - d;
    if q - k >= 1 { AtLeast(q - k, block); }
    if q - k <= -1 { AtLeast(k - q, block); }
  }

  lemma AtLeast(a: nat, b: nat)
    requires a >= 1
    ensures a * b >= b
  {
  }

  // ----- the list -----

  ghost function At(chunks: seq<ChunkRecord>, i: int): ChunkRecord? {
    if 0 <= i < |chunks| then chunks[i] else null
  }

  lemma AtIs(chunks: seq<ChunkRecord>, i: int)
    ensures At(chunks, i) == if 0 <= i < |chunks| then chunks[i] else null
  {
  }

  lemma AtSnoc(chunks: seq<ChunkRecord>, c: ChunkRecord, i: int)
    ensures At(chunks + [c], i) == if i == |chunks| then c else At(chunks, i)
  {
  }

  ghost predicate IsList(list: ChunkList, chunks: seq<ChunkRecord>)
    reads list`firstChunk, list`lastChunk, chunks`nextChunk, chunks`prevChunk
  {
    && list.firstChunk == At(chunks, 0) && list.lastChunk == At(chunks, |chunks| - 1)
    && (forall i, j :: 0 <= i < j < |chunks| ==> chunks[i] != chunks[j])
    && (forall i :: 0 <= i < |chunks| ==>
          chunks[i].nextChunk == At(chunks, i + 1) && chunks[i].prevChunk == At(chunks, i - 1))
  }

  /** The objects of each chunk. */
  ghost predicate Holds(chunks: seq<ChunkRecord>, lists: seq<seq<Placed>>)
    reads chunks`objects
  {
    |chunks| == |lists| && forall i :: 0 <= i < |chunks| ==> chunks[i].objects == lists[i]
  }

  /** All objects, chunk by chunk. */
  ghost function Flatten(lists: seq<seq<Placed>>): seq<Placed> {
    if lists == [] then [] else Flatten(lists[..|lists| - 1]) + lists[|lists| - 1]
  }

  ghost function TotalSize(objects: seq<Placed>): nat {
    if objects == [] then 0 else TotalSize(objects[..|objects| - 1]) + objects[|objects| - 1].size
  }

  ghost predicate AllChunksOk(z: Sizes, chunks: seq<ChunkRecord>)
    reads chunks`frontier, chunks`mightContainMultipleObjects, chunks`objects
  {
    forall i :: 0 <= i < |chunks| ==> ChunkOk(z, chunks[i])
  }

  /** A level's list of chunks, with these objects in them. */
  ghost predicate Valid(z: Sizes, list: ChunkList, chunks: seq<ChunkRecord>, lists: seq<seq<Placed>>)
    reads list, chunks
  {
    && IsList(list, chunks) && Holds(chunks, lists) && AllChunksOk(z, chunks)
    && list.usedSize == TotalSize(Flatten(lists))
  }

  lemma FlattenSnoc(lists: seq<seq<Placed>>, objects: seq<Placed>)
    ensures Flatten(lists + [objects]) == Flatten(lists) + objects
  {
    assert (lists + [objects])[..|lists|] == lists;
  }

  lemma TotalSnoc(objects: seq<Placed>, o: Placed)
    ensures TotalSize(objects + [o]) == TotalSize(objects) + o.size
  {
    assert (objects + [o])[..|objects|] == objects;
  }

  lemma NothingToAdd()
    ensures TotalSize([]) == 0
  {
  }

  lemma {:induction false} TotalJoins(a: seq<Placed>, b: seq<Placed>)
    ensures TotalSize(a + b) == TotalSize(a) + TotalSize(b)
    decreases |b|
  {
    hide TotalSize;
    if b == [] {
      assert a + b == a;
      NothingToAdd();
    } else {
      var front, last := b[..|b| - 1], b[|b| - 1];
      TotalJoins(a, front);
      TotalSnoc(a + front, last);
      TotalSnoc(front, last);
      assert b == front + [last] && a + b == (a + front) + [last];
    }
  }

  lemma ContiguousSnoc(objects: seq<Placed>, start: nat, o: Placed)
    requires Contiguous(objects, start, o.start)
    ensures Contiguous(objects + [o], start, o.start + o.size)
  {
    assert (objects + [o])[..|objects|] == objects;
  }

  /** The used part of a chunk is its objects. */
  lemma {:induction false} UsedIsTotal(objects: seq<Placed>, start: nat, frontier: nat)
    requires Contiguous(objects, start, frontier)
    ensures frontier == start + TotalSize(objects)
    decreases |objects|
  {
    if objects == [] {
    } else {
      UsedIsTotal(objects[..|objects| - 1], start, objects[|objects| - 1].start);
    }
  }

  /** HM_appendChunk, of a chunk with what is in it. */
  method AppendChunk(z: Sizes, list: ChunkList, c: ChunkRecord, ghost chunks: seq<ChunkRecord>,
                     ghost lists: seq<seq<Placed>>)
    requires Valid(z, list, chunks, lists) && c !in chunks && ChunkOk(z, c) && c.nextChunk == null
    modifies list, c`prevChunk, (set n | n in chunks && n == list.lastChunk)`nextChunk
    ensures Valid(z, list, chunks + [c], lists + [c.objects])
  {
    hide At, ChunkOk, Flatten, TotalSize, Contiguous;
    ghost var all := chunks + [c];
    AtIs(chunks, |chunks| - 1);
    AtIs(chunks, 0);
    AtSnoc(chunks, c, 0);
    AtSnoc(chunks, c, |chunks|);
    FlattenSnoc(lists, c.objects);
    TotalJoins(Flatten(lists), c.objects);
    ChunkUse(z, c);
    c.prevChunk := list.lastChunk;
    if list.lastChunk != null {
      list.lastChunk.nextChunk := c;
    }
    if list.firstChunk == null {
      list.firstChunk := c;
    }
    list.lastChunk := c;
    list.usedSize := list.usedSize + (c.frontier - (c.base + z.header));
    forall i | 0 <= i < |all| ensures all[i].nextChunk == At(all, i + 1) && all[i].prevChunk == At(all, i - 1) {
      AtSnoc(chunks, c, i + 1);
      AtSnoc(chunks, c, i - 1);
      AtIs(chunks, i + 1);
    }
  }

  lemma ChunkUse(z: Sizes, c: ChunkRecord)
    requires ChunkOk(z, c)
    ensures c.frontier == c.base + z.header + TotalSize(c.objects)
  {
    hide TotalSize, Contiguous;
    UsedIsTotal(c.objects, c.base + z.header, c.frontier);
  }

  // ----- room for a copy -----

  /** What the block allocator promises of a new chunk. */
  predicate Granted(z: Sizes, base: nat, limit: nat, bytesRequested: nat) {
    z.block > 0 && base % z.block == 0 && base + z.block <= limit && base + z.header + bytesRequested <= limit
  }

  /** Room for an object behind the others, such that it can be found. */
  ghost predicate HasRoom(z: Sizes, c: ChunkRecord, objectSize: nat)
    reads c`frontier, c`mightContainMultipleObjects
  {
    && c.mightContainMultipleObjects && c.frontier + objectSize <= c.limit
    && c.frontier + z.metadata < c.base + z.block
  }

  /** ensureSpaceInTargetHeap: a new chunk begins exactly if there is none yet, or
      the last one was moved here with its only object, has too little room, or is
      filled beyond its first block. */
  method EnsureSpaceInTargetHeap(z: Sizes, list: ChunkList, objectSize: nat, base: nat, limit: nat,
                                 ghost chunks: seq<ChunkRecord>, ghost lists: seq<seq<Placed>>)
    returns (c: ChunkRecord, ghost after: seq<ChunkRecord>, ghost now: seq<seq<Placed>>)
    requires SizesOk(z) && Valid(z, list, chunks, lists) && Granted(z, base, limit, objectSize)
    modifies list, (set n | n in chunks && n == list.lastChunk)`nextChunk
    ensures Valid(z, list, after, now) && |after| > 0 && c == after[|after| - 1] && HasRoom(z, c, objectSize)
    ensures (after == chunks && now == lists) || (after == chunks + [c] && now == lists + [[]] && fresh(c))
    ensures after == chunks <==> chunks != [] && old(HasRoom(z, chunks[|chunks| - 1], objectSize))
  {
    hide Flatten, TotalSize, ChunkOk, IsList, Holds, AllChunksOk;
    LastIs(z, list, chunks, lists);
    var last, mustExtend := list.lastChunk, false;
    if last == null || !last.mightContainMultipleObjects {
      mustExtend := true;
    } else {
      mustExtend := last.limit - last.frontier < objectSize || last.frontier + z.metadata >= last.base + z.block;
    }
    if mustExtend {
      c := new ChunkRecord(z, base, limit);
      NewChunkOk(z, c);
      after, now := chunks + [c], lists + [[]];
      AppendChunk(z, list, c, chunks, lists);
    } else {
      c, after, now := last, chunks, lists;
    }
  }

  lemma LastIs(z: Sizes, list: ChunkList, chunks: seq<ChunkRecord>, lists: seq<seq<Placed>>)
    requires Valid(z, list, chunks, lists)
    ensures list.lastChunk == (if chunks == [] then null else chunks[|chunks| - 1]) && |lists| == |chunks|
    ensures chunks != [] ==>
              var c := chunks[|chunks| - 1];
              ChunkOk(z, c) && c.frontier <= c.limit && c.objects == lists[|lists| - 1] && c !in chunks[..|chunks| - 1]
  {
  }

  lemma NewChunkOk(z: Sizes, c: ChunkRecord)
    requires Granted(z, c.base, c.limit, 0) && c.frontier == c.base + z.header && c.objects == []
    requires SizesOk(z) && c.mightContainMultipleObjects
    ensures ChunkOk(z, c)
  {
  }

  /** Only the last chunk has got more, and more chunks have come. */
  ghost predicate Later(lists: seq<seq<Placed>>, now: seq<seq<Placed>>) {
    && |lists| <= |now|
    && (forall k :: 0 <= k < |lists| ==> lists[k] <= now[k] && (k < |lists| - 1 ==> lists[k] == now[k]))
  }

  /** An object is put at the frontier of the last chunk. */
  method PutObject(z: Sizes, list: ChunkList, c: ChunkRecord, metadata: nat, objectSize: nat,
                   ghost chunks: seq<ChunkRecord>, ghost lists: seq<seq<Placed>>)
    returns (op: nat, ghost now: seq<seq<Placed>>)
    requires Valid(z, list, chunks, lists) && chunks != [] && c == chunks[|chunks| - 1] && HasRoom(z, c, objectSize)
    requires metadata <= z.metadata && metadata < objectSize
    modifies list`usedSize, c`frontier, c`objects
    ensures Valid(z, list, chunks, now) && |now| == |lists| && op >= metadata
    ensures now == lists[|lists| - 1 := lists[|lists| - 1] + [Placed(op - metadata, metadata, objectSize)]]
  {
    hide *;
    FrontOk(z, list, chunks, lists);
    RoomIs(z, c, objectSize);
    ghost var front, rest := chunks[..|chunks| - 1], lists[..|lists| - 1];
    var o := Placed(c.frontier, metadata, objectSize);
    LayoutSnoc(z, c.base, c.limit, c.frontier, c.objects, o);
    FlattenLast(lists, o);
    TotalSnoc(Flatten(lists), o);
    c.objects := c.objects + [o];
    c.frontier := c.frontier + objectSize;
    list.usedSize := list.usedSize + objectSize;
    op := o.start + metadata;
    now := lists[|lists| - 1 := c.objects];
    assert forall n :: n in front ==> n.objects == old(n.objects) && n.frontier == old(n.frontier);
    assert Holds(front, rest) && AllChunksOk(z, front);
    ChunkIs(z, c);
    SnocOk(z, front, rest, c);
    assert chunks == front + [c] && now == rest + [c.objects];
    ValidIs(z, list, chunks, now);
  }

  lemma RoomIs(z: Sizes, c: ChunkRecord, objectSize: nat)
    requires HasRoom(z, c, objectSize) && ChunkOk(z, c)
    ensures c.mightContainMultipleObjects && c.frontier + objectSize <= c.limit
    ensures c.frontier + z.metadata < c.base + z.block
    ensures Layout(z, c.base, c.limit, c.frontier, true, c.objects)
  {
  }

  lemma ChunkIs(z: Sizes, c: ChunkRecord)
    requires Layout(z, c.base, c.limit, c.frontier, c.mightContainMultipleObjects, c.objects)
    ensures ChunkOk(z, c)
  {
  }

  lemma ValidIs(z: Sizes, list: ChunkList, chunks: seq<ChunkRecord>, lists: seq<seq<Placed>>)
    requires IsList(list, chunks) && Holds(chunks, lists) && AllChunksOk(z, chunks)
    requires list.usedSize == TotalSize(Flatten(lists))
    ensures Valid(z, list, chunks, lists)
  {
  }

  /** copyNonStackObject and copyStackObject: the object is behind all others, and
      it can be found. */
  method CopyObject(z: Sizes, list: ChunkList, metadata: nat, objectSize: nat, base: nat, limit: nat,
                    ghost chunks: seq<ChunkRecord>, ghost lists: seq<seq<Placed>>)
    returns (op: nat, ghost after: seq<ChunkRecord>, ghost now: seq<seq<Placed>>)
    requires SizesOk(z) && Valid(z, list, chunks, lists) && Granted(z, base, limit, objectSize)
    requires metadata <= z.metadata && metadata < objectSize
    modifies list, (set n | n in chunks && n == list.lastChunk)
    ensures Valid(z, list, after, now) && chunks <= after && Later(lists, now) && op >= metadata
    ensures forall i :: 0 <= i < |after| ==> after[i] in chunks || fresh(after[i])
    ensures Flatten(now) == Flatten(lists) + [Placed(op - metadata, metadata, objectSize)]
  {
    hide *;
    LastIs(z, list, chunks, lists);
    FlattenSnoc(lists, []);
    assert Flatten(lists) + [] == Flatten(lists);
    ghost var between;
    var c;
    c, after, between := EnsureSpaceInTargetHeap(z, list, objectSize, base, limit, chunks, lists);
    LastIs(z, list, after, between);
    op, now := PutObject(z, list, c, metadata, objectSize, after, between);
    FlattenLast(between, Placed(op - metadata, metadata, objectSize));
    LaterLast(chunks, lists, after, between, now, c);
  }

  lemma FrontOk(z: Sizes, list: ChunkList, chunks: seq<ChunkRecord>, lists: seq<seq<Placed>>)
    requires Valid(z, list, chunks, lists) && chunks != []
    ensures |chunks| == |lists| && chunks[|chunks| - 1].objects == lists[|lists| - 1]
    ensures ChunkOk(z, chunks[|chunks| - 1])
    ensures Holds(chunks[..|chunks| - 1], lists[..|lists| - 1]) && AllChunksOk(z, chunks[..|chunks| - 1])
    ensures chunks[|chunks| - 1] !in chunks[..|chunks| - 1]
    ensures IsList(list, chunks) && list.usedSize == TotalSize(Flatten(lists))
  {
    hide ChunkOk;
  }

  lemma SnocOk(z: Sizes, front: seq<ChunkRecord>, lists: seq<seq<Placed>>, c: ChunkRecord)
    requires Holds(front, lists) && AllChunksOk(z, front) && ChunkOk(z, c)
    ensures Holds(front + [c], lists + [c.objects]) && AllChunksOk(z, front + [c])
  {
    hide ChunkOk;
  }

  lemma LaterLast(chunks: seq<ChunkRecord>, lists: seq<seq<Placed>>, after: seq<ChunkRecord>,
                  between: seq<seq<Placed>>, now: seq<seq<Placed>>, c: ChunkRecord)
    requires (after == chunks && between == lists) || (after == chunks + [c] && between == lists + [[]])
    requires between != [] && |now| == |between| && now == between[|now| - 1 := now[|now| - 1]]
    requires between[|now| - 1] <= now[|now| - 1]
    ensures Later(lists, now) && chunks <= after
  {
  }

  lemma FlattenLast(lists: seq<seq<Placed>>, o: Placed)
    requires lists != []
    ensures Flatten(lists[|lists| - 1 := lists[|lists| - 1] + [o]]) == Flatten(lists) + [o]
  {
    var now := lists[|lists| - 1 := lists[|lists| - 1] + [o]];
    assert now[..|now| - 1] == lists[..|lists| - 1];
  }

  // ----- the scan -----

  /** A chunk with one object of its own, as it is when it is moved here. */
  method SingleObjectChunk(z: Sizes, metadata: nat, objectSize: nat, base: nat, limit: nat) returns (c: ChunkRecord)
    requires SizesOk(z) && Granted(z, base, limit, objectSize) && metadata <= z.metadata && metadata < objectSize
    ensures fresh(c) && ChunkOk(z, c) && !c.mightContainMultipleObjects && c.nextChunk == null && |c.objects| == 1
  {
    c := new ChunkRecord(z, base, limit);
    NewChunkOk(z, c);
    var o := Placed(c.frontier, metadata, objectSize);
    LayoutSnoc(z, base, limit, c.frontier, [], o);
    assert [] + [o] == [o];
    c.objects, c.frontier, c.mightContainMultipleObjects := [o], c.frontier + objectSize, false;
  }

  /** Forwarding the fields of one object, as far as the list of its level is
      concerned: any objects are copied behind and any chunks moved there, as long
      as there are objects left that could be. */
  method ForwardObject(z: Sizes, list: ChunkList, left: nat, ghost chunks: seq<ChunkRecord>,
                       ghost lists: seq<seq<Placed>>)
    returns (rest: nat, ghost after: seq<ChunkRecord>, ghost now: seq<seq<Placed>>)
    requires SizesOk(z) && Valid(z, list, chunks, lists)
    modifies list, chunks
    ensures Valid(z, list, after, now) && chunks <= after && Later(lists, now)
    ensures forall i :: 0 <= i < |after| ==> after[i] in chunks || fresh(after[i])
    ensures |Flatten(now)| + rest == |Flatten(lists)| + left
  {
    hide Flatten, ChunkOk, Valid, Granted;
    rest, after, now := left, chunks, lists;
    var more: bool := *;
    while more && rest > 0
      invariant Valid(z, list, after, now) && chunks <= after && Later(lists, now)
      invariant forall i :: 0 <= i < |after| ==> after[i] in chunks || fresh(after[i])
      invariant |Flatten(now)| + rest == |Flatten(lists)| + left
      decreases rest, more
    {
      var metadata: nat, size: nat, base: nat, limit: nat := *, *, *, *;
      var single: bool := *;
      if Granted(z, base, limit, size) && metadata <= z.metadata && metadata < size {
        ghost var before := now;
        if single {
          var c := SingleObjectChunk(z, metadata, size, base, limit);
          FlattenSnoc(now, c.objects);
          AppendChunk(z, list, c, after, now);
          after, now := after + [c], now + [c.objects];
        } else {
          var op;
          op, after, now := CopyObject(z, list, metadata, size, base, limit, after, now);
        }
        LaterTrans(lists, before, now);
        rest := rest - 1;
        more := *;
      } else {
        more := false;
      }
    }
  }

  lemma LaterTrans(a: seq<seq<Placed>>, b: seq<seq<Placed>>, c: seq<seq<Placed>>)
    requires Later(a, b) && Later(b, c)
    ensures Later(a, c)
  {
  }

  /** The scan is at object j of chunk k, at address p; or behind the last chunk. */
  ghost predicate ScanAt(chunks: seq<ChunkRecord>, lists: seq<seq<Placed>>, k: nat, j: nat, c: ChunkRecord?, p: nat)
    reads chunks`frontier
  {
    && |chunks| == |lists| && k <= |chunks| && c == At(chunks, k)
    && (k == |chunks| ==> j == 0)
    && (k < |chunks| ==>
          j <= |lists[k]| && p == if j < |lists[k]| then lists[k][j].start else chunks[k].frontier)
  }

  /** Everything there is, is before a position, or at it and behind it. */
  lemma {:induction false} FlattenSplits(lists: seq<seq<Placed>>, k: nat)
    requires k < |lists|
    ensures Flatten(lists[..k]) + lists[k] <= Flatten(lists)
    ensures Flatten(lists[..k + 1]) == Flatten(lists[..k]) + lists[k]
    decreases |lists|
  {
    assert lists[..k + 1][..k] == lists[..k];
    var front := lists[..|lists| - 1];
    if k == |lists| - 1 {
    } else {
      FlattenSplits(front, k);
      assert front[..k] == lists[..k];
    }
  }

  /** Object j of chunk k is next, and these have been visited since. */
  ghost predicate Progress(now: seq<seq<Placed>>, k: nat, j: nat, before: seq<Placed>, visited: seq<Placed>) {
    && k <= |now| && (k < |now| ==> j <= |now[k]|)
    && before + visited == if k < |now| then Flatten(now[..k]) + now[k][..j] else Flatten(now)
  }

  lemma ProgressBound(now: seq<seq<Placed>>, k: nat, j: nat, before: seq<Placed>, visited: seq<Placed>)
    requires Progress(now, k, j, before, visited)
    ensures |before| + |visited| <= |Flatten(now)|
    ensures k < |now| && j < |now[k]| ==> |before| + |visited| < |Flatten(now)|
  {
    if k < |now| { FlattenSplits(now, k); }
    assert |before + visited| == |before| + |visited|;
  }

  lemma ProgressVisit(now: seq<seq<Placed>>, k: nat, j: nat, before: seq<Placed>, visited: seq<Placed>)
    requires Progress(now, k, j, before, visited) && k < |now| && j < |now[k]|
    ensures Progress(now, k, j + 1, before, visited + [now[k][j]])
  {
    hide Flatten;
    assert now[k][..j + 1] == now[k][..j] + [now[k][j]];
    assert before + (visited + [now[k][j]]) == (before + visited) + [now[k][j]];
    assert Flatten(now[..k]) + now[k][..j + 1] == (Flatten(now[..k]) + now[k][..j]) + [now[k][j]];
  }

  lemma ProgressLater(lists: seq<seq<Placed>>, now: seq<seq<Placed>>, k: nat, j: nat, before: seq<Placed>,
                      visited: seq<Placed>)
    requires Progress(lists, k, j, before, visited) && k < |lists| && Later(lists, now)
    ensures Progress(now, k, j, before, visited)
  {
    hide Flatten;
    assert lists[..k] == now[..k];
    assert now[k][..j] == lists[k][..j];
  }

  lemma ProgressNext(now: seq<seq<Placed>>, k: nat, before: seq<Placed>, visited: seq<Placed>)
    requires k < |now| && Progress(now, k, |now[k]|, before, visited)
    ensures Progress(now, k + 1, 0, before, visited)
  {
    hide Flatten;
    FlattenSplits(now, k);
    assert now[k][..|now[k]|] == now[k];
    if k + 1 < |now| {
      assert Flatten(now[..k + 1]) + now[k + 1][..0] == Flatten(now[..k + 1]);
    } else {
      assert now[..k + 1] == now;
    }
  }

  /** Where an object of a chunk lies. */
  lemma {:induction false} ContiguousAt(objects: seq<Placed>, start: nat, frontier: nat, j: nat)
    requires Contiguous(objects, start, frontier) && j < |objects|
    requires forall i :: 0 <= i < |objects| ==> objects[i].size > 0
    ensures objects[j].start < frontier && objects[0].start == start
    ensures objects[j].start + objects[j].size == if j + 1 < |objects| then objects[j + 1].start else frontier
    decreases |objects|
  {
    var last, front := objects[|objects| - 1], objects[..|objects| - 1];
    if |objects| == 1 {
    } else if j == |objects| - 1 {
      ContiguousAt(front, start, last.start, 0);
    } else {
      ContiguousAt(front, start, last.start, j);
    }
  }

  /** In a chunk the frontier is met exactly after the last object. */
  lemma AtFrontier(z: Sizes, list: ChunkList, chunks: seq<ChunkRecord>, lists: seq<seq<Placed>>, k: nat, j: nat,
                   c: ChunkRecord, p: nat)
    requires Valid(z, list, chunks, lists) && ScanAt(chunks, lists, k, j, c, p) && k < |chunks|
    ensures |lists| == |chunks| && c == chunks[k] && c.objects == lists[k]
    ensures j <= |lists[k]| && (p == c.frontier <==> j == |lists[k]|)
    ensures c.nextChunk == At(chunks, k + 1)
    ensures j < |lists[k]| ==>
              p == lists[k][j].start
              && p + lists[k][j].size == if j + 1 < |lists[k]| then lists[k][j + 1].start else c.frontier
    ensures k + 1 < |chunks| ==>
              ScanAt(chunks, lists, k + 1, 0, chunks[k + 1], chunks[k + 1].base + z.header)
  {
    hide Flatten, TotalSize, Contiguous;
    assert ChunkOk(z, c);
    forall i | 0 <= i < |c.objects| ensures c.objects[i].size > 0 { assert Findable(z, c.base, c.limit, c.objects[i]); }
    if j < |lists[k]| { ContiguousAt(c.objects, c.base + z.header, c.frontier, j); }
    if k + 1 < |chunks| { ChunkStarts(z, chunks[k + 1]); }
  }

  lemma ChunkStarts(z: Sizes, c: ChunkRecord)
    requires ChunkOk(z, c)
    ensures c.base + z.header == if c.objects == [] then c.frontier else c.objects[0].start
  {
    if c.objects != [] {
      forall i | 0 <= i < |c.objects| ensures c.objects[i].size > 0 {
        assert Findable(z, c.base, c.limit, c.objects[i]);
      }
      ContiguousAt(c.objects, c.base + z.header, c.frontier, 0);
    }
  }

  lemma ScanBounds(z: Sizes, list: ChunkList, chunks: seq<ChunkRecord>, lists: seq<seq<Placed>>, k: nat, j: nat,
                   c: ChunkRecord?, p: nat)
    requires Valid(z, list, chunks, lists) && ScanAt(chunks, lists, k, j, c, p)
    ensures |chunks| == |lists| && k <= |chunks| && (c == null <==> k == |chunks|) && (k < |chunks| ==> c == chunks[k])
  {
  }

  /** Behind an object that stays comes the next one, whatever has been added. */
  lemma NextStart(z: Sizes, list: ChunkList, chunks: seq<ChunkRecord>, lists: seq<seq<Placed>>, k: nat, j: nat,
                  c: ChunkRecord, o: Placed)
    requires Valid(z, list, chunks, lists) && k < |chunks| && c == chunks[k]
    requires k < |lists| && j < |lists[k]| && lists[k][j] == o
    ensures ScanAt(chunks, lists, k, j + 1, c, o.start + o.size)
  {
    hide Flatten, TotalSize, IsList;
    ScanHere(chunks, lists, k, j);
    AtFrontier(z, list, chunks, lists, k, j, c, o.start);
  }

  lemma ScanHere(chunks: seq<ChunkRecord>, lists: seq<seq<Placed>>, k: nat, j: nat)
    requires |chunks| == |lists| && k < |chunks| && j < |lists[k]|
    ensures ScanAt(chunks, lists, k, j, chunks[k], lists[k][j].start)
  {
  }

  lemma ScanEnds(chunks: seq<ChunkRecord>, lists: seq<seq<Placed>>, p: nat)
    requires |chunks| == |lists|
    ensures ScanAt(chunks, lists, |chunks|, 0, null, p)
  {
  }

  /** HM_forwardHHObjptrsInChunkList: from an object on, every object there is and
      every object that is put behind meanwhile is visited, once and in order, and
      the scan ends. */
  method ForwardInChunkList(z: Sizes, list: ChunkList, first: ChunkRecord, start: nat, index: nat, left: nat,
                            ghost chunks: seq<ChunkRecord>, ghost lists: seq<seq<Placed>>, ghost k0: nat)
    returns (visited: seq<Placed>, ghost after: seq<ChunkRecord>, ghost now: seq<seq<Placed>>)
    requires SizesOk(z) && Valid(z, list, chunks, lists)
    requires k0 < |lists| && index <= |lists[k0]| && ScanAt(chunks, lists, k0, index, first, start)
    modifies list, chunks
    ensures Valid(z, list, after, now) && chunks <= after && Later(lists, now)
    ensures Flatten(now) == Flatten(lists[..k0]) + lists[k0][..index] + visited
  {
    hide *;
    ghost var before := Flatten(lists[..k0]) + lists[k0][..index];
    ghost var k: nat, total: nat := k0, |Flatten(lists)| + left;
    var chunk: ChunkRecord?, p: nat, j: nat, rest: nat := first, start, index, left;
    ScanBounds(z, list, chunks, lists, k0, index, first, start);
    visited, after, now := [], chunks, lists;
    LaterSame(lists);
    ProgressStart(lists, k0, index);
    while chunk != null
      invariant Valid(z, list, after, now) && chunks <= after && Later(lists, now)
      invariant forall i :: 0 <= i < |after| ==> after[i] in chunks || fresh(after[i])
      invariant ScanAt(after, now, k, j, chunk, p) && Progress(now, k, j, before, visited)
      invariant k <= |after| && |Flatten(now)| + rest == total
      invariant |visited| <= total
      decreases total - |visited|, |after| - k
    {
      ScanBounds(z, list, after, now, k, j, chunk, p);
      AtFrontier(z, list, after, now, k, j, chunk, p);
      ghost var seen, length := |visited|, |after|;
      while p != chunk.frontier
        invariant Valid(z, list, after, now) && chunks <= after && Later(lists, now)
        invariant forall i :: 0 <= i < |after| ==> after[i] in chunks || fresh(after[i])
        invariant ScanAt(after, now, k, j, chunk, p) && Progress(now, k, j, before, visited)
        invariant k < |after| && chunk == after[k] && |Flatten(now)| + rest == total
        invariant seen <= |visited| <= total && (|visited| == seen ==> |after| == length)
        decreases total - |visited|
      {
        AtFrontier(z, list, after, now, k, j, chunk, p);
        ProgressBound(now, k, j, before, visited);
        var o := chunk.objects[j];
        ProgressVisit(now, k, j, before, visited);
        ghost var was := now;
        rest, after, now := ForwardObject(z, list, rest, after, now);
        visited := visited + [o];
        LaterTrans(lists, was, now);
        ProgressLater(was, now, k, j + 1, before, visited);
        ProgressBound(now, k, j + 1, before, visited);
        p := o.start + o.size;
        LaterAt(was, now, k, j);
        NextStart(z, list, after, now, k, j, chunk, o);
        j := j + 1;
      }
      AtFrontier(z, list, after, now, k, j, chunk, p);
      ProgressNext(now, k, before, visited);
      chunk := chunk.nextChunk;
      k, j := k + 1, 0;
      AtIs(after, k);
      if chunk != null {
        p := chunk.base + z.header;
      } else {
        ScanEnds(after, now, p);
      }
    }
    ScanBounds(z, list, after, now, k, j, chunk, p);
    ProgressEnd(now, j, before, visited);
  }

  lemma ProgressEnd(now: seq<seq<Placed>>, j: nat, before: seq<Placed>, visited: seq<Placed>)
    requires Progress(now, |now|, j, before, visited)
    ensures Flatten(now) == before + visited
  {
  }

  lemma LaterAt(lists: seq<seq<Placed>>, now: seq<seq<Placed>>, k: nat, j: nat)
    requires Later(lists, now) && k < |lists| && j < |lists[k]|
    ensures k < |now| && j < |now[k]| && now[k][j] == lists[k][j]
  {
  }

  lemma LaterSame(lists: seq<seq<Placed>>)
    ensures Later(lists, lists)
  {
  }

  lemma ProgressStart(lists: seq<seq<Placed>>, k: nat, j: nat)
    requires k < |lists| && j <= |lists[k]|
    ensures Progress(lists, k, j, Flatten(lists[..k]) + lists[k][..j], [])
  {
  }

  /** Every object of a level is found in the chunk that it is in. */
  lemma {:induction false} ObjectsAreFound(z: Sizes, list: ChunkList, chunks: seq<ChunkRecord>,
                                           lists: seq<seq<Placed>>, o: Placed)
    returns (k: nat)
    requires Valid(z, list, chunks, lists) && o in Flatten(lists)
    ensures k < |chunks| && o in chunks[k].objects
    ensures BlockOf(z, ObjptrOf(o)) == chunks[k].base && ObjptrOf(o) < chunks[k].limit
  {
    hide TotalSize, IsList, ChunkOk;
    k := FlattenHas(lists, o);
    ChunkOfObject(z, chunks[k], o);
  }

  lemma {:induction false} FlattenHas(lists: seq<seq<Placed>>, o: Placed) returns (k: nat)
    requires o in Flatten(lists)
    ensures k < |lists| && o in lists[k]
    decreases |lists|
  {
    k := |lists| - 1;
    if o !in lists[k] { k := FlattenHas(lists[..k], o); }
  }
}
