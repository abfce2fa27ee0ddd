/**
 Pinning against relocation: processors pin objects by compare-and-swap on the
 header word while a collector unpins and relocates them.
 */
module HeaderWords {
  // Masks on the 64-bit header word.
  const VALID: bv64 := 0x1
  const TYPE: bv64 := 0xFFFFE
  const DEPTH: bv64 := 0xFF00000
  const PIN: bv64 := 0x30000000
  const MARK: bv64 := 0x80000000

  function DepthOf(h: bv64): bv64 { (h & DEPTH) >> 20 }

  /** Zero is unpinned, two a down-pointer pin, three any other pin. */
  function PinOf(h: bv64): bv64 { (h & PIN) >> 28 }

  function Cleared(h: bv64): bv64 { h & !DEPTH & !PIN }

  function Pinned(h: bv64, depth: bv64, rep: bv64): bv64 { Cleared(h) | (depth << 20) | rep }

  /** Pinning sets depth and pin type and leaves valid bit, type index and mark. */
  lemma PinnedFields(h: bv64, depth: bv64, rep: bv64)
    requires depth <= 255 && (rep == 0x20000000 || rep == 0x30000000)
    ensures DepthOf(Pinned(h, depth, rep)) == depth
    ensures PinOf(Pinned(h, depth, rep)) == (if rep == 0x20000000 then 2 else 3)
    ensures Pinned(h, depth, rep) & VALID == h & VALID
    ensures Pinned(h, depth, rep) & TYPE == h & TYPE
    ensures Pinned(h, depth, rep) & MARK == h & MARK
  {
  }

  /** Clearing leaves valid bit, type index and mark as well. */
  lemma ClearedFields(h: bv64)
    ensures DepthOf(Cleared(h)) == 0 && PinOf(Cleared(h)) == 0
    ensures Cleared(h) & VALID == h & VALID && Cleared(h) & TYPE == h & TYPE && Cleared(h) & MARK == h & MARK
  {
  }

  /** Clearing undoes pinning. */
  lemma ClearedPinned(h: bv64, depth: bv64, rep: bv64)
    requires depth <= 255 && (rep == 0x20000000 || rep == 0x30000000)
    ensures Cleared(Pinned(h, depth, rep)) == Cleared(h)
  {
    hide Cleared;
    PinBitsCleared(depth, rep);
    ClearedOr(Cleared(h), (depth << 20) | rep);
    ClearedTwice(h);
  }

  lemma PinBitsCleared(depth: bv64, rep: bv64)
    requires depth <= 255 && (rep == 0x20000000 || rep == 0x30000000)
    ensures Cleared((depth << 20) | rep) == 0
  {
  }

  lemma ClearedOr(a: bv64, b: bv64)
    requires Cleared(b) == 0
    ensures Cleared(a | b) == Cleared(a)
  {
    MaskOr(a, b, !DEPTH);
    MaskOr(a & !DEPTH, b & !DEPTH, !PIN);
    OrZero(a & !DEPTH & !PIN);
  }

  lemma MaskOr(a: bv64, b: bv64, m: bv64)
    ensures (a | b) & m == (a & m) | (b & m)
  {
  }

  lemma OrZero(a: bv64)
    ensures a | 0 == a
  {
  }

  lemma ClearedTwice(h: bv64)
    ensures Cleared(Cleared(h)) == Cleared(h)
  {
  }
}

module Pinning {
  import opened Options
  import opened HeaderWords

  datatype PinType = NoPin | Down | Any

  /** rest stands for the bits that pinning does not touch. */
  datatype Header = Valid(rest: bv64, depth: bv8, pin: PinType) | Forward(to: nat)

  /** A pin request for object asked, which has got to object p. */
  datatype PinPc =
    | Idle
    | Reading(asked: nat, p: nat, d: bv8, pt: PinType)
    | Swapping(asked: nat, p: nat, d: bv8, pt: PinType, seen: Header)

  datatype CollectorPc =
    | Resting
    | Unpinning(p: nat, opDepth: bv8, seen: Header, next: Option<Header>)
    | Copying(p: nat, seen: Header)
    | Publishing(p: nat, seen: Header, q: nat)

  datatype Event =
    | Requested(i: nat, asked: nat, p: nat, d: bv8, pt: PinType)
    | Unpinned(p: nat, opDepth: bv8)
    | Relocated(p: nat, q: nat)

  /** What an object was made with, and when. */
  datatype Origin = Origin(rest: bv64, age: nat)

  datatype State = State(
    heap: map<nat, Header>,
    pinners: seq<PinPc>,
    collector: CollectorPc,
    log: seq<Event>,
    origin: map<nat, Origin>,   // not stored: of each object
    clock: nat)                 // not stored: copies made so far

  datatype Action =
    | StartPin(i: nat, p: nat, d: bv8, pt: PinType)
    | PinStep(i: nat)
    | StartUnpin(p: nat, opDepth: bv8)
    | StartRelocate(p: nat)
    | CollectorStep(unused: nat)

  // ----- the machine -----

  function MaxPin(a: PinType, b: PinType): PinType {
    if a == NoPin then b else if a == Any || b == Any then Any else Down
  }

  predicate Less(a: bv8, b: bv8) { a < b }

  function Min(a: bv8, b: bv8): bv8 { if Less(a, b) then a else b }

  /** The header that a pin request computes from the one it has read. */
  function PinnedHeader(h: Header, d: bv8, pt: PinType): Header
    requires h.Valid?
  {
    var newDepth := if h.pin != NoPin then Min(h.depth, d) else d;
    Valid(h.rest, newDepth, if Less(newDepth, h.depth) then pt else MaxPin(pt, h.pin))
  }

  function Clear(h: Header): Header {
    if h.Valid? then Valid(h.rest, 0, NoPin) else h
  }

  /** The copy that the collector has made but not yet published. */
  predicate Unpublished(c: CollectorPc, q: nat) { c.Publishing? && c.q == q }

  /** Nobody else knows of an unpublished copy. */
  predicate Enabled(s: State, a: Action) {
    match a
    case StartPin(i, p, d, pt) =>
      i < |s.pinners| && s.pinners[i].Idle? && p in s.heap && !Unpublished(s.collector, p) && pt != NoPin
    case PinStep(i) => i < |s.pinners| && !s.pinners[i].Idle? && s.pinners[i].p in s.heap
    case StartUnpin(p, opDepth) => s.collector.Resting? && p in s.heap && s.heap[p].Valid? && opDepth > 0
    case StartRelocate(p) => s.collector.Resting? && p in s.heap && s.heap[p].Valid?
    case CollectorStep(unused) => !s.collector.Resting? && s.collector.p in s.heap && unused !in s.heap
  }

  function Do(s: State, a: Action): State
    requires Enabled(s, a)
  {
    match a
    case StartPin(i, p, d, pt) => s.(pinners := s.pinners[i := Reading(p, p, d, pt)])
    case PinStep(i) => PinNext(s, i)
    case StartUnpin(p, opDepth) => s.(collector := Unpinning(p, opDepth, s.heap[p], None))
    case StartRelocate(p) =>
      if s.heap[p].pin != NoPin then s else s.(collector := Copying(p, s.heap[p]))
    case CollectorStep(unused) => CollectorNext(s, unused)
  }

  /** One turn of the loop of pinObjectInfo takes a read and maybe a swap. */
  function PinNext(s: State, i: nat): State
    requires Enabled(s, PinStep(i))
  {
    var pc := s.pinners[i];
    var h := s.heap[pc.p];
    match pc
    case Reading(asked, p, d, pt) =>
      if h.Forward? then s.(pinners := s.pinners[i := Reading(asked, h.to, d, pt)])
      else if PinnedHeader(h, d, pt) == h then
        s.(pinners := s.pinners[i := Idle], log := s.log + [Requested(i, asked, p, d, pt)])
      else s.(pinners := s.pinners[i := Swapping(asked, p, d, pt, h)])
    case Swapping(asked, p, d, pt, seen) =>
      if h == seen && seen.Valid? then
        s.(heap := s.heap[p := PinnedHeader(seen, d, pt)], pinners := s.pinners[i := Idle],
           log := s.log + [Requested(i, asked, p, d, pt)])
      else s.(pinners := s.pinners[i := Reading(asked, p, d, pt)])
  }

  function CollectorNext(s: State, unused: nat): State
    requires Enabled(s, CollectorStep(unused))
  {
    var h := s.heap[s.collector.p];
    match s.collector
    case Unpinning(p, opDepth, seen, None) =>
      if seen.Valid? && seen.depth >= opDepth then
        s.(collector := Unpinning(p, opDepth, seen, Some(Clear(h))))
      else s.(collector := Resting)
    case Unpinning(p, opDepth, seen, Some(next)) =>
      if h == seen then
        s.(heap := s.heap[p := next], collector := Resting, log := s.log + [Unpinned(p, opDepth)])
      else s.(collector := Resting)
    case Copying(p, seen) =>
      s.(heap := s.heap[unused := h], collector := Publishing(p, seen, unused),
         origin := if h.Valid? then s.origin[unused := Origin(h.rest, s.clock)] else s.origin, clock := s.clock + 1)
    case Publishing(p, seen, q) =>
      if h == seen then
        s.(heap := s.heap[p := Forward(q)], collector := Resting, log := s.log + [Relocated(p, q)])
      else s.(heap := s.heap - {q}, collector := Resting)
  }

  function Run(s: State, acts: seq<Action>): Option<State>
    decreases |acts|
  {
    if acts == [] then Some(s)
    else
      match Run(s, acts[..|acts| - 1])
      case None => None
      case Some(s1) => if Enabled(s1, acts[|acts| - 1]) then Some(Do(s1, acts[|acts| - 1])) else None
  }

  // ----- the same on header words -----

  function PinKind(t: bv64): PinType { if t == 2 then Down else if t == 3 then Any else NoPin }

  function Rep(pt: PinType): bv64 {
    match pt case NoPin => 0 case Down => 0x20000000 case Any => 0x30000000
  }

  function Narrow(d: bv64): bv8
    requires ByteSized(d)
  {
    d as bv8
  }

  predicate LessWord(a: bv64, b: bv64) { a < b }

  lemma DepthFits(w: bv64)
    ensures ByteSized(DepthOf(w))
  {
  }

  lemma SameOrder(a: bv64, b: bv64)
    requires ByteSized(a) && ByteSized(b)
    ensures LessWord(a, b) <==> Less(Narrow(a), Narrow(b))
  {
  }

  /** What a valid header word says. */
  function ViewWord(w: bv64): Header {
    DepthFits(w);
    Valid(Cleared(w), Narrow(DepthOf(w)), PinKind(PinOf(w)))
  }

  /** The new header word of pinObjectInfo: pin type and depth. */
  function PinWordDepth(w: bv64, d: bv64): bv64 {
    if PinOf(w) != 0 && LessWord(DepthOf(w), d) then DepthOf(w) else d
  }

  function PinWordType(w: bv64, d: bv64, pt: PinType): PinType {
    if LessWord(PinWordDepth(w, d), DepthOf(w)) then pt else MaxPin(pt, PinKind(PinOf(w)))
  }

  function PinWord(w: bv64, d: bv64, pt: PinType): bv64 {
    Pinned(w, PinWordDepth(w, d), Rep(PinWordType(w, d, pt)))
  }

  /** Valid bit, type index and mark are the same. */
  predicate SameOtherwise(v: bv64, w: bv64) {
    v & VALID == w & VALID && v & TYPE == w & TYPE && v & MARK == w & MARK
  }

  predicate ByteSized(d: bv64) { d <= 255 }

  lemma WordPinned(w: bv64, d: bv64, nt: PinType)
    requires ByteSized(d) && nt != NoPin
    ensures var v := Pinned(w, d, Rep(nt));
      DepthOf(v) == d && PinKind(PinOf(v)) == nt && Cleared(v) == Cleared(w) && SameOtherwise(v, w)
  {
    hide Pinned, Cleared, DepthOf, PinOf;
    PinnedFields(w, d, Rep(nt));
    ClearedPinned(w, d, Rep(nt));
  }

  lemma PinWordDepthFits(w: bv64, d: bv64)
    requires ByteSized(d)
    ensures ByteSized(PinWordDepth(w, d)) && ByteSized(DepthOf(w))
  {
    hide DepthOf, PinOf, LessWord;
    DepthFits(w);
  }

  /** Words and headers agree on what a pin does. */
  lemma PinWordIsPinnedHeader(w: bv64, d: bv64, pt: PinType)
    requires ByteSized(d) && pt != NoPin && KnownPin(w)
    ensures ViewWord(PinWord(w, d, pt)) == PinnedHeader(ViewWord(w), Narrow(d), pt)
    ensures SameOtherwise(PinWord(w, d, pt), w)
  {
    hide Pinned, Cleared, DepthOf, PinOf, LessWord, Less, Narrow, ByteSized, SameOtherwise, PinKind, Rep, KnownPin;
    PinWordDepthFits(w, d);
    SameOrder(DepthOf(w), d);
    SameOrder(PinWordDepth(w, d), DepthOf(w));
    UnpinnedWord(w);
    WordPinned(w, PinWordDepth(w, d), PinWordType(w, d, pt));
  }

  lemma NarrowZero()
    ensures ByteSized(0) && Narrow(0) == 0 && PinKind(0) == NoPin
  {
  }

  lemma WordCleared(w: bv64)
    ensures DepthOf(Cleared(w)) == 0 && PinOf(Cleared(w)) == 0 && SameOtherwise(Cleared(w), w)
  {
    hide DepthOf, PinOf, Cleared;
    ClearedFields(w);
  }

  /** Words and headers agree on what unpinning does: unpinObject, and what
      tryUnpinWithDepth swaps in. */
  lemma ClearedWordIsClear(w: bv64)
    ensures ViewWord(Cleared(w)) == Clear(ViewWord(w))
    ensures SameOtherwise(Cleared(w), w)
  {
    hide Cleared, DepthOf, PinOf, Narrow, ByteSized, SameOtherwise, PinKind;
    WordCleared(w);
    ClearedTwice(w);
    NarrowZero();
  }

  /** The pin field never holds one. */
  predicate KnownPin(w: bv64) { PinOf(w) == 0 || PinOf(w) == 2 || PinOf(w) == 3 }

  lemma UnpinnedWord(w: bv64)
    requires KnownPin(w)
    ensures PinOf(w) == 0 <==> PinKind(PinOf(w)) == NoPin
  {
    hide PinOf;
  }

  // ----- what has been requested -----

  /** Depth and type of one request. */
  datatype Ask = Ask(d: bv8, pt: PinType)

  /** What has been asked for at p since it was last unpinned. */
  function Requests(log: seq<Event>, p: nat): seq<Ask> {
    if log == [] then []
    else
      var front := Requests(log[..|log| - 1], p);
      match log[|log| - 1]
      case Requested(_, _, x, d, pt) => if x == p then front + [Ask(d, pt)] else front
      case Unpinned(x, _) => if x == p then [] else front
      case Relocated(_, _) => front
  }

  lemma RequestsSnoc(log: seq<Event>, e: Event, p: nat)
    ensures Requests(log + [e], p) ==
      if e.Requested? && e.p == p then Requests(log, p) + [Ask(e.d, e.pt)]
      else if e.Unpinned? && e.p == p then []
      else Requests(log, p)
  {
    assert (log + [e])[..|log|] == log;
  }

  /** The depth is one that was asked for, and the least one. */
  ghost predicate IsLeast(s: seq<Ask>, depth: bv8) {
    (exists k :: 0 <= k < |s| && s[k].d == depth) && forall k :: 0 <= k < |s| ==> NotBelow(s[k].d, depth)
  }

  predicate NotBelow(a: bv8, b: bv8) { !Less(a, b) }

  lemma LeastSnoc(s: seq<Ask>, depth: bv8, a: Ask)
    requires IsLeast(s, depth)
    ensures IsLeast(s + [a], Min(depth, a.d))
  {
    var k :| 0 <= k < |s| && s[k].d == depth;
    assert (s + [a])[k].d == depth && (s + [a])[|s|].d == a.d;
    MinIs(depth, a.d);
    forall j | 0 <= j < |s + [a]| ensures NotBelow((s + [a])[j].d, Min(depth, a.d)) {
      if j < |s| {
        assert (s + [a])[j] == s[j];
        BelowBoth(s[j].d, depth, a.d);
      }
    }
  }

  lemma MinIs(a: bv8, b: bv8)
    ensures (Min(a, b) == a || Min(a, b) == b) && NotBelow(b, Min(a, b)) && NotBelow(a, Min(a, b))
    ensures Less(Min(a, b), a) <==> Less(b, a)
  {
  }

  lemma BelowBoth(x: bv8, a: bv8, b: bv8)
    requires NotBelow(x, a)
    ensures NotBelow(x, Min(a, b))
  {
  }

  /** Somebody has asked for any pin once the depth was down to this one. */
  ghost predicate AskedAny(s: seq<Ask>, depth: bv8) {
    exists j, k :: 0 <= j <= k < |s| && s[j].d == depth && s[k].pt == Any
  }

  /** A lower depth makes the type that of the new request, any other depth leaves
      it or raises it. */
  lemma AskedAnySnoc(s: seq<Ask>, depth: bv8, a: Ask)
    requires IsLeast(s, depth)
    ensures Less(a.d, depth) ==> (AskedAny(s + [a], a.d) <==> a.pt == Any)
    ensures !Less(a.d, depth) ==> (AskedAny(s + [a], depth) <==> AskedAny(s, depth) || a.pt == Any)
  {
    var t := s + [a];
    assert t[|s|] == a && forall k :: 0 <= k < |s| ==> t[k] == s[k];
    var m :| 0 <= m < |s| && s[m].d == depth;
    assert t[m].d == depth;
    if Less(a.d, depth) {
      assert forall k :: 0 <= k < |s| ==> NotBelow(s[k].d, depth);
      if AskedAny(t, a.d) {
        var j, k :| 0 <= j <= k < |t| && t[j].d == a.d && t[k].pt == Any;
        assert j == |s|;
      }
    } else {
      if AskedAny(s, depth) {
        var j, k :| 0 <= j <= k < |s| && s[j].d == depth && s[k].pt == Any;
        assert t[j].d == depth && t[k].pt == Any;
      }
      if AskedAny(t, depth) && a.pt != Any {
        var j, k :| 0 <= j <= k < |t| && t[j].d == depth && t[k].pt == Any;
        assert s[j].d == depth && s[k].pt == Any;
      }
    }
  }

  // ----- the invariant -----

  /** A header in place is pinned exactly if there are requests, for the least
      depth among them, and for any purpose if somebody asked that at this depth or
      later; a forwarded object has none. */
  ghost predicate HeaderOk(h: Header, requests: seq<Ask>) {
    match h
    case Valid(_, depth, pin) =>
      && (pin == NoPin <==> requests == [])
      && (if requests == [] then depth == 0
          else IsLeast(requests, depth) && (pin == Any <==> AskedAny(requests, depth)))
    case Forward(_) => requests == []
  }

  ghost predicate ObjectsOk(s: State) {
    forall p :: p in s.heap ==>
      && (!Unpublished(s.collector, p) ==> HeaderOk(s.heap[p], Requests(s.log, p)))
      && (s.heap[p].Forward? ==> s.heap[p].to in s.heap && !Unpublished(s.collector, s.heap[p].to))
  }

  ghost predicate UnusedOk(s: State) {
    forall p :: p !in s.heap || Unpublished(s.collector, p) ==> Requests(s.log, p) == []
  }

  predicate PinnerOk(s: State, pc: PinPc) {
    !pc.Idle? ==> pc.p in s.heap && !Unpublished(s.collector, pc.p) && pc.pt != NoPin
  }

  ghost predicate PinnersOk(s: State) {
    forall i :: 0 <= i < |s.pinners| ==> PinnerOk(s, s.pinners[i])
  }

  /** Between the collector's reads and its swap others can only pin. */
  predicate CollectorOk(s: State) {
    !s.collector.Resting? ==>
      && s.collector.p in s.heap && s.heap[s.collector.p].Valid? && s.collector.seen.Valid?
      && s.heap[s.collector.p].rest == s.collector.seen.rest
      && !Unpublished(s.collector, s.collector.p)
      && match s.collector
         case Unpinning(_, opDepth, seen, next) =>
           opDepth > 0 && (next.Some? ==> next.value == Clear(seen) && seen.depth >= opDepth)
         case Copying(p, seen) => seen.pin == NoPin && (s.heap[p] == seen || s.heap[p].pin != NoPin)
         case Publishing(p, seen, q) =>
           && seen.pin == NoPin && (s.heap[p] == seen || s.heap[p].pin != NoPin)
           && q in s.heap && q != p && s.heap[q].Valid? && (s.heap[p] == seen ==> s.heap[q] == seen)
  }

  ghost predicate Inv(s: State) {
    ObjectsOk(s) && UnusedOk(s) && PinnersOk(s) && CollectorOk(s)
  }

  lemma PinOk(h: Header, requests: seq<Ask>, d: bv8, pt: PinType)
    requires h.Valid? && HeaderOk(h, requests) && pt != NoPin
    ensures PinnedHeader(h, d, pt).Valid? && PinnedHeader(h, d, pt).pin != NoPin
    ensures HeaderOk(PinnedHeader(h, d, pt), requests + [Ask(d, pt)])
    ensures !Less(d, PinnedHeader(h, d, pt).depth) && PinnedHeader(h, d, pt).rest == h.rest
  {
    hide Less, Min, AskedAny, IsLeast;
    var r := requests + [Ask(d, pt)];
    if requests == [] {
      FirstAsk(d, pt);
      assert r == [Ask(d, pt)];
    } else {
      LeastSnoc(requests, h.depth, Ask(d, pt));
      AskedAnySnoc(requests, h.depth, Ask(d, pt));
      MinIs(h.depth, d);
      MinOrder(h.depth, d);
    }
  }

  lemma FirstAsk(d: bv8, pt: PinType)
    ensures IsLeast([Ask(d, pt)], d) && (AskedAny([Ask(d, pt)], d) <==> pt == Any) && !Less(d, 0) && !Less(d, d)
  {
    assert [Ask(d, pt)][0] == Ask(d, pt);
  }

  lemma MinOrder(a: bv8, b: bv8)
    ensures Min(a, b) == if Less(b, a) then b else a
    ensures !Less(b, Min(a, b))
  {
  }

  /** The request is granted: the header becomes h', which holds it. */
  lemma GrantKeeps(s: State, i: nat, h': Header)
    requires Inv(s) && i < |s.pinners| && !s.pinners[i].Idle?
    requires var pc := s.pinners[i];
      && s.heap[pc.p].Valid? && h'.Valid? && h'.rest == s.heap[pc.p].rest && h'.pin != NoPin
      && HeaderOk(h', Requests(s.log, pc.p) + [Ask(pc.d, pc.pt)])
    ensures var pc := s.pinners[i];
      Inv(s.(heap := s.heap[pc.p := h'], pinners := s.pinners[i := Idle],
             log := s.log + [Requested(i, pc.asked, pc.p, pc.d, pc.pt)]))
  {
    hide Requests, HeaderOk;
    var pc := s.pinners[i];
    assert PinnerOk(s, pc);
    var e := Requested(i, pc.asked, pc.p, pc.d, pc.pt);
    forall p
      ensures Requests(s.log + [e], p)
           == if p == pc.p then Requests(s.log, p) + [Ask(pc.d, pc.pt)] else Requests(s.log, p)
    {
      RequestsSnoc(s.log, e, p);
    }
  }

  lemma PinStepKeeps(s: State, i: nat)
    requires Inv(s) && Enabled(s, PinStep(i))
    ensures Inv(Do(s, PinStep(i)))
  {
    hide Requests, HeaderOk, PinnedHeader;
    var pc := s.pinners[i];
    assert PinnerOk(s, pc);
    var h := s.heap[pc.p];
    if h.Valid? {
      PinOk(h, Requests(s.log, pc.p), pc.d, pc.pt);
      GrantKeeps(s, i, PinnedHeader(h, pc.d, pc.pt));
      assert PinnedHeader(h, pc.d, pc.pt) == h ==> s.heap[pc.p := h] == s.heap;
    }
  }

  lemma StartKeeps(s: State, a: Action)
    requires Inv(s) && Enabled(s, a) && !a.PinStep? && !a.CollectorStep?
    ensures Inv(Do(s, a))
  {
    hide Requests, HeaderOk;
  }

  lemma UnpinStepKeeps(s: State, unused: nat)
    requires Inv(s) && Enabled(s, CollectorStep(unused)) && s.collector.Unpinning?
    ensures Inv(Do(s, CollectorStep(unused)))
  {
    hide Requests, HeaderOk, PinnedHeader;
    var p, e := s.collector.p, Unpinned(s.collector.p, s.collector.opDepth);
    forall x ensures Requests(s.log + [e], x) == if x == p then [] else Requests(s.log, x) {
      RequestsSnoc(s.log, e, x);
    }
    ClearOk(s.heap[p]);
  }

  lemma ClearOk(h: Header)
    requires h.Valid?
    ensures HeaderOk(Clear(h), [])
  {
  }

  lemma CopyStepKeeps(s: State, unused: nat)
    requires Inv(s) && Enabled(s, CollectorStep(unused)) && s.collector.Copying?
    ensures Inv(Do(s, CollectorStep(unused)))
  {
    hide Requests, HeaderOk, PinnedHeader;
  }

  lemma PublishStepKeeps(s: State, unused: nat)
    requires Inv(s) && Enabled(s, CollectorStep(unused)) && s.collector.Publishing?
    ensures Inv(Do(s, CollectorStep(unused)))
  {
    hide Requests, HeaderOk, PinnedHeader;
    var p, q := s.collector.p, s.collector.q;
    forall x ensures Requests(s.log + [Relocated(p, q)], x) == Requests(s.log, x) {
      RequestsSnoc(s.log, Relocated(p, q), x);
    }
    if s.heap[p] == s.collector.seen { NotRequested(s.heap[p], Requests(s.log, p), q); }
  }

  /** Who is not pinned has no requests, so it may be forwarded. */
  lemma NotRequested(h: Header, requests: seq<Ask>, q: nat)
    requires HeaderOk(h, requests) && h.Valid? && h.pin == NoPin
    ensures requests == [] && HeaderOk(Forward(q), requests) && HeaderOk(h, [])
  {
  }

  lemma DoKeepsInv(s: State, a: Action)
    requires Inv(s) && Enabled(s, a)
    ensures Inv(Do(s, a))
  {
    hide Inv, Do;
    match a
    case PinStep(i) => PinStepKeeps(s, i);
    case CollectorStep(unused) =>
      if s.collector.Unpinning? { UnpinStepKeeps(s, unused); }
      else if s.collector.Copying? { CopyStepKeeps(s, unused); }
      else if s.collector.Publishing? { PublishStepKeeps(s, unused); }
    case _ => StartKeeps(s, a);
  }

  lemma {:induction false} RunKeepsInv(s: State, acts: seq<Action>)
    requires Inv(s) && Run(s, acts).Some?
    ensures Inv(Run(s, acts).value)
    decreases |acts|
  {
    hide Inv, Do, Enabled;
    if acts == [] {
    } else {
      RunKeepsInv(s, acts[..|acts| - 1]);
      DoKeepsInv(Run(s, acts[..|acts| - 1]).value, acts[|acts| - 1]);
    }
  }

  /** Objects that have just been allocated, unpinned. */
  ghost predicate Fresh(s: State) {
    && s.log == [] && s.collector.Resting?
    && (forall p :: p in s.heap ==> s.heap[p].Valid? && s.heap[p].pin == NoPin && s.heap[p].depth == 0)
    && (forall i :: 0 <= i < |s.pinners| ==> s.pinners[i].Idle?)
    && s.origin == (map p | p in s.heap && s.heap[p].Valid? :: Origin(s.heap[p].rest, 0)) && s.clock == 1
  }

  // ----- where forwarding leads -----

  /** In n hops of forwarding from a to p. */
  ghost predicate Hops(heap: map<nat, Header>, a: nat, p: nat, n: nat)
    decreases n
  {
    if n == 0 then a == p
    else a in heap && heap[a].Forward? && Hops(heap, heap[a].to, p, n - 1)
  }

  ghost predicate Leads(heap: map<nat, Header>, a: nat, p: nat) {
    exists n: nat :: Hops(heap, a, p, n)
  }

  /** Where the forwarding of a ends: an object that is in place. */
  ghost predicate InPlaceEnd(heap: map<nat, Header>, a: nat, p: nat) {
    Leads(heap, a, p) && p in heap && heap[p].Valid?
  }

  /** Forwarding is for ever. */
  ghost predicate KeepsForwards(heap: map<nat, Header>, heap': map<nat, Header>) {
    forall p :: p in heap && heap[p].Forward? ==> p in heap' && heap'[p] == heap[p]
  }

  lemma {:induction false} HopsKept(heap: map<nat, Header>, heap': map<nat, Header>, a: nat, p: nat, n: nat)
    requires Hops(heap, a, p, n) && KeepsForwards(heap, heap')
    ensures Hops(heap', a, p, n)
    decreases n
  {
    if n == 0 {
    } else {
      HopsKept(heap, heap', heap[a].to, p, n - 1);
    }
  }

  lemma LeadsKept(heap: map<nat, Header>, heap': map<nat, Header>, a: nat, p: nat)
    requires Leads(heap, a, p) && KeepsForwards(heap, heap')
    ensures Leads(heap', a, p)
  {
    var n: nat :| Hops(heap, a, p, n);
    HopsKept(heap, heap', a, p, n);
  }

  lemma {:induction false} HopsOn(heap: map<nat, Header>, a: nat, p: nat, n: nat)
    requires Hops(heap, a, p, n) && p in heap && heap[p].Forward?
    ensures Hops(heap, a, heap[p].to, n + 1)
    decreases n
  {
    if n == 0 {
      assert Hops(heap, heap[p].to, heap[p].to, 0);
    } else {
      HopsOn(heap, heap[a].to, p, n - 1);
    }
  }

  lemma LeadsOn(heap: map<nat, Header>, a: nat, p: nat)
    requires Leads(heap, a, p) && p in heap && heap[p].Forward?
    ensures Leads(heap, a, heap[p].to)
  {
    var n: nat :| Hops(heap, a, p, n);
    HopsOn(heap, a, p, n);
  }

  lemma LeadsToItself(heap: map<nat, Header>, p: nat)
    ensures Leads(heap, p, p)
  {
    assert Hops(heap, p, p, 0);
  }

  lemma {:induction false} OneHopsEnd(heap: map<nat, Header>, a: nat, p: nat, n: nat, q: nat, m: nat)
    requires Hops(heap, a, p, n) && Hops(heap, a, q, m)
    requires p in heap && heap[p].Valid? && q in heap && heap[q].Valid?
    ensures p == q
    decreases n
  {
    if n > 0 && m > 0 { OneHopsEnd(heap, heap[a].to, p, n - 1, q, m - 1); }
  }

  /** There is at most one such end. */
  lemma OneEnd(heap: map<nat, Header>, a: nat, p: nat, q: nat)
    requires InPlaceEnd(heap, a, p) && InPlaceEnd(heap, a, q)
    ensures p == q
  {
    var n: nat :| Hops(heap, a, p, n);
    var m: nat :| Hops(heap, a, q, m);
    OneHopsEnd(heap, a, p, n, q, m);
  }

  // ----- origins -----

  /** An object keeps what it was made with, and so does the copy of one, which
      is younger. */
  predicate OriginOk(s: State, p: nat)
    requires p in s.heap
  {
    && p in s.origin && s.origin[p].age < s.clock
    && match s.heap[p]
       case Valid(rest, _, _) => rest == s.origin[p].rest
       case Forward(q) => q in s.origin && s.origin[q].rest == s.origin[p].rest && s.origin[q].age > s.origin[p].age
  }

  ghost predicate OriginsOk(s: State) {
    && (forall p :: p in s.heap ==> OriginOk(s, p))
    && (s.collector.Publishing? ==>
          var p, q := s.collector.p, s.collector.q;
          && p in s.origin && q in s.origin
          && s.origin[q].rest == s.origin[p].rest && s.origin[q].age > s.origin[p].age)
  }

  /** Pins and unpins change no rest, and nothing else about origins. */
  lemma OriginsFrame(s: State, s': State)
    requires OriginsOk(s) && s'.origin == s.origin && s'.clock == s.clock && s'.heap.Keys <= s.heap.Keys
    requires forall p :: p in s'.heap ==>
      s'.heap[p] == s.heap[p] || (s'.heap[p].Valid? && s.heap[p].Valid? && s'.heap[p].rest == s.heap[p].rest)
    requires s'.collector.Publishing? ==> s'.collector == s.collector
    ensures OriginsOk(s')
  {
    forall p | p in s'.heap ensures OriginOk(s', p) {
      assert OriginOk(s, p);
    }
  }

  lemma OriginsKeptByPin(s: State, i: nat)
    requires Inv(s) && OriginsOk(s) && Enabled(s, PinStep(i))
    ensures OriginsOk(Do(s, PinStep(i)))
  {
    hide ObjectsOk, UnusedOk, CollectorOk, OriginsOk, PinnedHeader;
    var pc := s.pinners[i];
    if s.heap[pc.p].Valid? { SameRest(s.heap[pc.p], pc.d, pc.pt); }
    OriginsFrame(s, Do(s, PinStep(i)));
  }

  lemma OriginsKeptByCopy(s: State, unused: nat)
    requires Inv(s) && OriginsOk(s) && Enabled(s, CollectorStep(unused)) && s.collector.Copying?
    ensures OriginsOk(Do(s, CollectorStep(unused)))
  {
    hide HeaderOk, Requests, UnusedOk, PinnersOk;
    var s' := Do(s, CollectorStep(unused));
    assert OriginOk(s, s.collector.p);
    forall p | p in s'.heap ensures OriginOk(s', p) {
      if p in s.heap { assert OriginOk(s, p); }
    }
  }

  lemma OriginsKeptByPublish(s: State, unused: nat)
    requires Inv(s) && OriginsOk(s) && Enabled(s, CollectorStep(unused)) && s.collector.Publishing?
    ensures OriginsOk(Do(s, CollectorStep(unused)))
  {
    hide HeaderOk, Requests, UnusedOk, PinnersOk;
    var s' := Do(s, CollectorStep(unused));
    forall p | p in s'.heap ensures OriginOk(s', p) {
      assert OriginOk(s, p);
    }
  }

  lemma OriginsKept(s: State, a: Action)
    requires Inv(s) && OriginsOk(s) && Enabled(s, a)
    ensures OriginsOk(Do(s, a))
  {
    hide HeaderOk, Requests, UnusedOk, PinnersOk, ObjectsOk, OriginsOk, PinnedHeader;
    if a.PinStep? {
      OriginsKeptByPin(s, a.i);
    } else if a.CollectorStep? && s.collector.Copying? {
      OriginsKeptByCopy(s, a.unused);
    } else if a.CollectorStep? && s.collector.Publishing? {
      OriginsKeptByPublish(s, a.unused);
    } else {
      OriginsFrame(s, Do(s, a));
    }
  }

  lemma SameRest(h: Header, d: bv8, pt: PinType)
    requires h.Valid?
    ensures PinnedHeader(h, d, pt).Valid? && PinnedHeader(h, d, pt).rest == h.rest
  {
  }

  /** Every object has an in-place end, with what it was made with. */
  lemma {:induction false} EndExists(s: State, p: nat) returns (q: nat)
    requires Inv(s) && OriginsOk(s) && p in s.heap && !Unpublished(s.collector, p)
    ensures InPlaceEnd(s.heap, p, q) && !Unpublished(s.collector, q) && s.heap[q].rest == s.origin[p].rest
    decreases s.clock - s.origin[p].age
  {
    hide HeaderOk, Requests, UnusedOk, PinnersOk, CollectorOk;
    assert OriginOk(s, p);
    if s.heap[p].Valid? {
      q := p;
      LeadsToItself(s.heap, p);
    } else {
      var to := s.heap[p].to;
      assert OriginOk(s, to);
      q := EndExists(s, to);
      var n: nat :| Hops(s.heap, to, q, n);
      assert Hops(s.heap, p, q, n + 1);
    }
  }

  // ----- what was asked, and what was answered -----

  /** A request has got where the forwarding of the object asked for leads. */
  ghost predicate OnTheWay(heap: map<nat, Header>, pc: PinPc) {
    !pc.Idle? ==> Leads(heap, pc.asked, pc.p)
  }

  ghost predicate Landed(heap: map<nat, Header>, e: Event) {
    e.Requested? ==> Leads(heap, e.asked, e.p)
  }

  ghost predicate ChainsOk(s: State) {
    && (forall i :: 0 <= i < |s.pinners| ==> OnTheWay(s.heap, s.pinners[i]))
    && (forall k :: 0 <= k < |s.log| ==> Landed(s.heap, s.log[k]))
  }

  lemma ForwardsKept(s: State, a: Action)
    requires Inv(s) && Enabled(s, a)
    ensures KeepsForwards(s.heap, Do(s, a).heap)
  {
    hide Requests, HeaderOk, PinnedHeader;
  }

  lemma ChainsKept(s: State, a: Action)
    requires Inv(s) && ChainsOk(s) && Enabled(s, a)
    ensures ChainsOk(Do(s, a))
  {
    hide Inv, Leads, PinnedHeader;
    var s' := Do(s, a);
    ForwardsKept(s, a);
    forall i | 0 <= i < |s'.pinners| ensures OnTheWay(s'.heap, s'.pinners[i]) {
      assert OnTheWay(s.heap, s.pinners[i]);
      if !s.pinners[i].Idle? { LeadsKept(s.heap, s'.heap, s.pinners[i].asked, s.pinners[i].p); }
      if a == PinStep(i) && s.heap[s.pinners[i].p].Forward? { LeadsOn(s'.heap, s.pinners[i].asked, s.pinners[i].p); }
      if a.StartPin? && a.i == i { LeadsToItself(s'.heap, a.p); }
    }
    forall k | 0 <= k < |s'.log| ensures Landed(s'.heap, s'.log[k]) {
      if k < |s.log| {
        assert s'.log[k] == s.log[k] && Landed(s.heap, s.log[k]);
        if s.log[k].Requested? { LeadsKept(s.heap, s'.heap, s.log[k].asked, s.log[k].p); }
      } else if a.PinStep? {
        assert OnTheWay(s.heap, s.pinners[a.i]);
        LeadsKept(s.heap, s'.heap, s.pinners[a.i].asked, s.pinners[a.i].p);
      }
    }
  }

  /** A pin request: object, depth and type. */
  datatype Request = Request(asked: nat, d: bv8, pt: PinType)

  /** What processor i has asked for, in order. */
  function Calls(acts: seq<Action>, i: nat): seq<Request> {
    if acts == [] then []
    else
      var a := acts[|acts| - 1];
      Calls(acts[..|acts| - 1], i) + (if a.StartPin? && a.i == i then [Request(a.p, a.d, a.pt)] else [])
  }

  /** What processor i has been granted, in order. */
  function Grants(log: seq<Event>, i: nat): seq<Request> {
    if log == [] then []
    else
      var e := log[|log| - 1];
      Grants(log[..|log| - 1], i) + (if e.Requested? && e.i == i then [Request(e.asked, e.d, e.pt)] else [])
  }

  function Outstanding(pc: PinPc): seq<Request> {
    if pc.Idle? then [] else [Request(pc.asked, pc.d, pc.pt)]
  }

  lemma GrantsSnoc(log: seq<Event>, e: Event, i: nat)
    ensures Grants(log + [e], i)
         == Grants(log, i) + (if e.Requested? && e.i == i then [Request(e.asked, e.d, e.pt)] else [])
  {
    assert (log + [e])[..|log|] == log;
  }

  lemma GrantsStep(s: State, a: Action, i: nat)
    requires Enabled(s, a) && i < |s.pinners|
    ensures i < |Do(s, a).pinners|
    ensures Grants(Do(s, a).log, i) + Outstanding(Do(s, a).pinners[i])
      == Grants(s.log, i) + Outstanding(s.pinners[i])
         + (if a.StartPin? && a.i == i then [Request(a.p, a.d, a.pt)] else [])
  {
    hide Grants, PinnedHeader, CollectorNext;
    var s' := Do(s, a);
    if a.CollectorStep? { CollectorGrants(s, a.unused, i); }
    if a.PinStep? && |s'.log| > |s.log| {
      var e := s'.log[|s.log|];
      assert s'.log == s.log + [e];
      GrantsSnoc(s.log, e, i);
    }
  }

  /** The collector grants nothing. */
  lemma CollectorGrants(s: State, unused: nat, i: nat)
    requires Enabled(s, CollectorStep(unused))
    ensures var s' := CollectorNext(s, unused); s'.pinners == s.pinners && Grants(s'.log, i) == Grants(s.log, i)
  {
    hide Grants;
    var s' := CollectorNext(s, unused);
    if |s'.log| > |s.log| {
      var e := s'.log[|s.log|];
      assert s'.log == s.log + [e];
      GrantsSnoc(s.log, e, i);
    }
  }

  // ----- the guarantees -----

  lemma {:induction false} FreshInv(s: State)
    requires Fresh(s)
    ensures Inv(s) && OriginsOk(s) && ChainsOk(s)
  {
  }

  lemma {:induction false} RunKeepsOrigins(s0: State, acts: seq<Action>)
    requires Inv(s0) && OriginsOk(s0) && ChainsOk(s0) && Run(s0, acts).Some?
    ensures var s := Run(s0, acts).value; Inv(s) && OriginsOk(s) && ChainsOk(s)
    decreases |acts|
  {
    hide Inv, Do, Enabled, OriginsOk, ChainsOk;
    if acts == [] {
    } else {
      RunKeepsOrigins(s0, acts[..|acts| - 1]);
      var s := Run(s0, acts[..|acts| - 1]).value;
      DoKeepsInv(s, acts[|acts| - 1]);
      OriginsKept(s, acts[|acts| - 1]);
      ChainsKept(s, acts[|acts| - 1]);
    }
  }

  /** In every interleaving an object that is still in place is pinned exactly
      if it has been asked to since it was last unpinned, for the least depth
      asked for, and of type any exactly if that was asked for when the depth was
      down to this one; an object that has been forwarded has no request left. */
  lemma {:induction false} UnpinDepthIsLeast(s0: State, acts: seq<Action>, p: nat)
    requires Fresh(s0) && Run(s0, acts).Some?
    ensures var s := Run(s0, acts).value;
      p in s.heap && s.heap[p].Valid? && !Unpublished(s.collector, p) ==>
        && (s.heap[p].pin == NoPin <==> Requests(s.log, p) == [])
        && (Requests(s.log, p) == [] ==> s.heap[p].depth == 0)
        && (Requests(s.log, p) != [] ==> IsLeast(Requests(s.log, p), s.heap[p].depth))
        && (Requests(s.log, p) != [] ==> (s.heap[p].pin == Any <==> AskedAny(Requests(s.log, p), s.heap[p].depth)))
    ensures var s := Run(s0, acts).value;
      p !in s.heap || s.heap[p].Forward? ==> Requests(s.log, p) == []
  {
    hide Requests, Run, IsLeast, AskedAny;
    FreshInv(s0);
    RunKeepsInv(s0, acts);
    var s := Run(s0, acts).value;
    if p in s.heap && !Unpublished(s.collector, p) { ObjectAt(s, p); }
  }

  /** In every interleaving the forwarding of each object ends at one object in
      place, and that has the valid bit and type index (and all else that pinning
      does not touch) that the object had at first. */
  lemma {:induction false} RestIsKept(s0: State, acts: seq<Action>, p: nat) returns (q: nat)
    requires Fresh(s0) && Run(s0, acts).Some? && p in s0.heap
    ensures var s := Run(s0, acts).value;
      && InPlaceEnd(s.heap, p, q) && s.heap[q].rest == s0.heap[p].rest
      && forall x :: InPlaceEnd(s.heap, p, x) ==> x == q
  {
    hide Inv, OriginsOk, ChainsOk, Run, Leads;
    FreshInv(s0);
    RunKeepsOrigins(s0, acts);
    OldOriginsStay(s0, acts, p);
    var s := Run(s0, acts).value;
    q := EndExists(s, p);
    forall x | InPlaceEnd(s.heap, p, x) ensures x == q {
      OneEnd(s.heap, p, x, q);
    }
  }

  lemma {:induction false} OldOriginsStay(s0: State, acts: seq<Action>, p: nat)
    requires Fresh(s0) && Run(s0, acts).Some? && p in s0.heap
    ensures var s := Run(s0, acts).value;
      p in s.heap && !Unpublished(s.collector, p) && p in s.origin && s.origin[p].rest == s0.heap[p].rest
    decreases |acts|
  {
    hide Inv, Enabled, PinNext, CollectorNext;
    if acts == [] {
    } else {
      OldOriginsStay(s0, acts[..|acts| - 1], p);
      FreshInv(s0);
      RunKeepsInv(s0, acts[..|acts| - 1]);
      OldOriginStep(Run(s0, acts[..|acts| - 1]).value, acts[|acts| - 1], p);
    }
  }

  lemma OldOriginStep(s: State, a: Action, p: nat)
    requires Inv(s) && Enabled(s, a) && p in s.heap && !Unpublished(s.collector, p) && p in s.origin
    ensures var s' := Do(s, a);
      p in s'.heap && !Unpublished(s'.collector, p) && p in s'.origin && s'.origin[p] == s.origin[p]
  {
    hide HeaderOk, Requests, PinnedHeader;
  }

  /** In every interleaving each pin lands where the forwarding of the object
      asked for ends, in place, and holds that object at its depth. */
  lemma {:induction false} PinsLand(s0: State, acts: seq<Action>, a: Action)
    requires Fresh(s0) && Run(s0, acts).Some? && Enabled(Run(s0, acts).value, a)
    requires Latest(Run(s0, acts).value, a).Some? && Latest(Run(s0, acts).value, a).value.Requested?
    ensures var s := Run(s0, acts).value; var s' := Do(s, a); var e := Latest(s, a).value;
      && InPlaceEnd(s'.heap, e.asked, e.p) && (forall x :: InPlaceEnd(s'.heap, e.asked, x) ==> x == e.p)
      && s'.heap[e.p].pin != NoPin && !Less(e.d, s'.heap[e.p].depth)
  {
    hide Inv, OriginsOk, Run, Leads, Less, Do, Enabled;
    FreshInv(s0);
    RunKeepsOrigins(s0, acts);
    var s := Run(s0, acts).value;
    var s', e := Do(s, a), Latest(s, a).value;
    PinLands(s, a);
    ChainsKept(s, a);
    LatestInLog(s, a);
    assert Landed(s'.heap, s'.log[|s.log|]);
    forall x | InPlaceEnd(s'.heap, e.asked, x) ensures x == e.p {
      OneEnd(s'.heap, e.asked, x, e.p);
    }
  }

  lemma LatestInLog(s: State, a: Action)
    requires Enabled(s, a) && Latest(s, a).Some?
    ensures |Do(s, a).log| > |s.log| && Do(s, a).log[|s.log|] == Latest(s, a).value
  {
  }

  /** In every interleaving a processor's requests are granted in the order of its
      calls, for the objects and depths it asked for, and at most the last one is
      still outstanding. */
  lemma {:induction false} GrantsAnswerCalls(s0: State, acts: seq<Action>, i: nat)
    requires Fresh(s0) && Run(s0, acts).Some? && i < |s0.pinners|
    ensures var s := Run(s0, acts).value;
      i < |s.pinners| && Calls(acts, i) == Grants(s.log, i) + Outstanding(s.pinners[i])
    decreases |acts|
  {
    hide Do, Enabled, Grants;
    if acts == [] {
      assert Grants([], i) == [] by { NoGrants(i); }
    } else {
      GrantsAnswerCalls(s0, acts[..|acts| - 1], i);
      GrantsStep(Run(s0, acts[..|acts| - 1]).value, acts[|acts| - 1], i);
    }
  }

  lemma NoGrants(i: nat)
    ensures Grants([], i) == []
  {
  }

  /** What is new in the log after an action, if anything. */
  function Latest(s: State, a: Action): Option<Event>
    requires Enabled(s, a)
  {
    var s' := Do(s, a);
    if |s'.log| > |s.log| then Some(s'.log[|s.log|]) else None
  }

  /** Relocation takes only what nobody has pinned; the copy has the header that
      the object had; and a forwarding pointer is for ever. */
  lemma PinnedStays(s: State, a: Action)
    requires Inv(s) && Enabled(s, a)
    ensures Latest(s, a).Some? && Latest(s, a).value.Relocated? ==>
      var p, q := Latest(s, a).value.p, Latest(s, a).value.q;
      && p in s.heap && q in s.heap && s.heap[p].Valid? && s.heap[p].pin == NoPin && Requests(s.log, p) == []
      && s.heap[q] == s.heap[p] && Do(s, a).heap == s.heap[p := Forward(q)]
    ensures forall p :: p in s.heap && s.heap[p].Forward? ==> p in Do(s, a).heap && Do(s, a).heap[p] == s.heap[p]
  {
    hide Requests, PinnedHeader, IsLeast, AskedAny, PinNext;
    PinNextKeeps(s, a);
  }

  /** A step of a pin relocates nothing and forwards nothing. */
  lemma PinNextKeeps(s: State, a: Action)
    requires Enabled(s, a)
    ensures a.PinStep? ==>
      && (Latest(s, a).Some? ==> Latest(s, a).value.Requested?)
      && forall p :: p in s.heap && s.heap[p].Forward? ==> p in Do(s, a).heap && Do(s, a).heap[p] == s.heap[p]
  {
    hide PinnedHeader;
  }

  lemma ObjectAt(s: State, p: nat)
    requires ObjectsOk(s) && p in s.heap && !Unpublished(s.collector, p)
    ensures HeaderOk(s.heap[p], Requests(s.log, p))
  {
  }

  /** A pin lands on an object that is in place, and holds it at its depth. */
  lemma PinLands(s: State, a: Action)
    requires Inv(s) && Enabled(s, a) && Latest(s, a).Some? && Latest(s, a).value.Requested?
    ensures var e := Latest(s, a).value; var s' := Do(s, a);
      && e.p in s'.heap && s'.heap[e.p].Valid? && s'.heap[e.p].pin != NoPin && !Less(e.d, s'.heap[e.p].depth)
      && !Unpublished(s'.collector, e.p)
      && e.p in s.heap && s.heap[e.p].Valid? && s'.heap[e.p].rest == s.heap[e.p].rest
  {
    hide Requests, HeaderOk, PinnedHeader, ObjectsOk, UnusedOk, CollectorOk, Less;
    var pc := s.pinners[a.i];
    assert PinnerOk(s, pc);
    assert HeaderOk(s.heap[pc.p], Requests(s.log, pc.p)) by { ObjectAt(s, pc.p); }
    PinOk(s.heap[pc.p], Requests(s.log, pc.p), pc.d, pc.pt);
  }

  /** Unpinning for a depth drops only requests for that depth or deeper. */
  lemma UnpinRespects(s: State, a: Action)
    requires Inv(s) && Enabled(s, a) && Latest(s, a).Some? && Latest(s, a).value.Unpinned?
    ensures var e := Latest(s, a).value;
      forall k :: 0 <= k < |Requests(s.log, e.p)| ==> NotBelow(Requests(s.log, e.p)[k].d, e.opDepth)
  {
    hide Requests, AskedAny;
    var p := s.collector.p;
    AllNotBelow(s.heap[p], Requests(s.log, p), s.collector.opDepth);
  }

  /** As deep as wanted is what has no shallower request. */
  lemma AllNotBelow(h: Header, requests: seq<Ask>, opDepth: bv8)
    requires HeaderOk(h, requests) && h.Valid? && opDepth > 0
    ensures h.depth >= opDepth <==>
            requests != [] && forall k :: 0 <= k < |requests| ==> NotBelow(requests[k].d, opDepth)
  {
    hide AskedAny;
    if requests != [] {
      var m :| 0 <= m < |requests| && requests[m].d == h.depth;
      if h.depth >= opDepth {
        forall k | 0 <= k < |requests| ensures NotBelow(requests[k].d, opDepth) {
          assert NotBelow(requests[k].d, h.depth);
        }
      } else {
        assert !NotBelow(requests[m].d, opDepth);
      }
    }
  }

  // ----- what succeeds undisturbed -----

  lemma RunOn(s: State, acts: seq<Action>, a: Action)
    requires Run(s, acts).Some? && Enabled(Run(s, acts).value, a)
    ensures Run(s, acts + [a]) == Some(Do(Run(s, acts).value, a))
  {
    hide Do, Enabled;
    assert (acts + [a])[..|acts|] == acts;
  }

  /** Trying to unpin an object in place, undisturbed, unpins it exactly if
      somebody has asked for it and nobody for a shallower depth; otherwise nothing
      changes. */
  lemma UnpinSucceedsExactly(s0: State, acts: seq<Action>, p: nat, opDepth: bv8, unused: nat)
    returns (more: seq<Action>)
    requires Fresh(s0) && Run(s0, acts).Some? && unused !in Run(s0, acts).value.heap && opDepth > 0
    requires var s := Run(s0, acts).value; s.collector.Resting? && p in s.heap && s.heap[p].Valid?
    ensures |more| <= 3 && Run(s0, acts + more).Some? && more != [] && more[0] == StartUnpin(p, opDepth)
    ensures var s, s' := Run(s0, acts).value, Run(s0, acts + more).value;
      var r := Requests(s.log, p);
      && s'.collector.Resting? && s'.pinners == s.pinners
      && if r != [] && forall k :: 0 <= k < |r| ==> NotBelow(r[k].d, opDepth) then
           s'.log == s.log + [Unpinned(p, opDepth)] && s'.heap == s.heap[p := Valid(s.heap[p].rest, 0, NoPin)]
         else s'.log == s.log && s'.heap == s.heap
  {
    hide Run, Inv, Requests, HeaderOk, Fresh, PinNext;
    FreshInv(s0);
    RunKeepsInv(s0, acts);
    var s := Run(s0, acts).value;
    assert HeaderOk(s.heap[p], Requests(s.log, p)) by { InvAt(s, p); }
    AllNotBelow(s.heap[p], Requests(s.log, p), opDepth);
    more := [StartUnpin(p, opDepth)];
    RunOn(s0, acts, more[0]);
    RunOn(s0, acts + more, CollectorStep(unused));
    assert acts + more + [CollectorStep(unused)] == acts + (more + [CollectorStep(unused)]);
    more := more + [CollectorStep(unused)];
    if s.heap[p].depth >= opDepth {
      RunOn(s0, acts + more, CollectorStep(unused));
      assert acts + more + [CollectorStep(unused)] == acts + (more + [CollectorStep(unused)]);
      more := more + [CollectorStep(unused)];
    }
  }

  lemma InvAt(s: State, p: nat)
    requires Inv(s) && p in s.heap && s.collector.Resting?
    ensures HeaderOk(s.heap[p], Requests(s.log, p))
  {
    hide Requests, HeaderOk;
  }

  /** Relocating an object in place, undisturbed, leaves a forwarding pointer to a
      copy with its header exactly if nobody has asked for it; otherwise nothing
      changes. */
  lemma RelocationSucceedsExactly(s0: State, acts: seq<Action>, p: nat, q: nat) returns (more: seq<Action>)
    requires Fresh(s0) && Run(s0, acts).Some? && q !in Run(s0, acts).value.heap
    requires var s := Run(s0, acts).value; s.collector.Resting? && p in s.heap && s.heap[p].Valid?
    ensures |more| <= 3 && Run(s0, acts + more).Some? && more != [] && more[0] == StartRelocate(p)
    ensures var s, s' := Run(s0, acts).value, Run(s0, acts + more).value;
      && s'.collector.Resting? && s'.pinners == s.pinners
      && if Requests(s.log, p) == [] then
           s'.log == s.log + [Relocated(p, q)] && s'.heap == s.heap[q := s.heap[p]][p := Forward(q)]
         else s'.log == s.log && s'.heap == s.heap
  {
    hide Run, Inv, Requests, HeaderOk, Fresh, PinNext;
    FreshInv(s0);
    RunKeepsInv(s0, acts);
    var s := Run(s0, acts).value;
    assert HeaderOk(s.heap[p], Requests(s.log, p)) by { InvAt(s, p); }
    PinnedIffAsked(s.heap[p], Requests(s.log, p));
    more := [StartRelocate(p)];
    RunOn(s0, acts, more[0]);
    if s.heap[p].pin == NoPin {
      var unused: nat := Unused(s.heap, q);
      RunOn(s0, acts + more, CollectorStep(q));
      assert acts + more + [CollectorStep(q)] == acts + (more + [CollectorStep(q)]);
      more := more + [CollectorStep(q)];
      RunOn(s0, acts + more, CollectorStep(unused));
      assert acts + more + [CollectorStep(unused)] == acts + (more + [CollectorStep(unused)]);
      more := more + [CollectorStep(unused)];
    }
  }

  lemma PinnedIffAsked(h: Header, requests: seq<Ask>)
    requires HeaderOk(h, requests) && h.Valid?
    ensures h.pin == NoPin <==> requests == []
  {
  }

  /** There is always an address that is not in use. */
  lemma Unused(heap: map<nat, Header>, q: nat) returns (unused: nat)
    ensures unused !in heap && unused != q
  {
    unused := AboveAll(heap.Keys + {q});
  }

  lemma {:induction false} AboveAll(s: set<nat>) returns (top: nat)
    ensures forall x :: x in s ==> x < top
    decreases |s|
  {
    top := 0;
    if s != {} {
      var x :| x in s;
      var rest := AboveAll(s - {x});
      top := if rest > x then rest else x + 1;
      forall y | y in s ensures y < top { assert y == x || y in s - {x}; }
    }
  }

  /** A pin request, undisturbed, is granted at the end of the forwarding, in two
      steps more than there are hops. */
  lemma {:induction false} PinIsGranted(s: State, i: nat, q: nat, hops: nat) returns (steps: nat)
    requires Inv(s) && i < |s.pinners| && s.pinners[i].Reading?
    requires Hops(s.heap, s.pinners[i].p, q, hops) && q in s.heap && s.heap[q].Valid?
    ensures steps <= hops + 2 && Run(s, PinSteps(i, steps)).Some?
    ensures var s', pc := Run(s, PinSteps(i, steps)).value, s.pinners[i];
      && s'.pinners == s.pinners[i := Idle] && s'.collector == s.collector
      && s'.log == s.log + [Requested(i, pc.asked, q, pc.d, pc.pt)]
      && s'.heap == s.heap[q := PinnedHeader(s.heap[q], pc.d, pc.pt)]
    decreases hops
  {
    hide Run, Inv, PinnedHeader;
    var pc, a := s.pinners[i], PinStep(i);
    PinnerThere(s, i);
    DoKeepsInv(s, a);
    var s1 := Do(s, a);
    if hops > 0 {
      var rest := PinIsGranted(s1, i, q, hops - 1);
      steps := rest + 1;
      StepFirst(s, i, rest);
      assert s1.pinners[i := Idle] == s.pinners[i := Idle];
    } else if PinnedHeader(s.heap[q], pc.d, pc.pt) == s.heap[q] {
      steps := 1;
      StepFirst(s, i, 0);
      NoSteps(s1, i);
      assert s.heap[q := s.heap[q]] == s.heap;
    } else {
      steps := 2;
      StepFirst(s, i, 1);
      PinnerThere(s1, i);
      StepFirst(s1, i, 0);
      NoSteps(Do(s1, a), i);
    }
  }

  function PinSteps(i: nat, n: nat): seq<Action> { seq(n, _ => PinStep(i)) }

  lemma PinnerThere(s: State, i: nat)
    requires Inv(s) && i < |s.pinners| && !s.pinners[i].Idle?
    ensures Enabled(s, PinStep(i))
  {
    hide Requests, HeaderOk;
    assert PinnerOk(s, s.pinners[i]);
  }

  lemma NoSteps(s: State, i: nat)
    ensures Run(s, PinSteps(i, 0)) == Some(s)
  {
  }

  /** The same steps, the first one taken first. */
  lemma {:induction false} StepFirst(s: State, i: nat, n: nat)
    requires Enabled(s, PinStep(i))
    ensures Run(s, PinSteps(i, n + 1)) == Run(Do(s, PinStep(i)), PinSteps(i, n))
    decreases n
  {
    hide Do, Enabled;
    var acts := PinSteps(i, n + 1);
    assert acts[..n] == PinSteps(i, n);
    if n == 0 {
      assert Run(s, acts[..0]) == Some(s);
    } else {
      StepFirst(s, i, n - 1);
      assert PinSteps(i, n)[..n - 1] == PinSteps(i, n - 1);
    }
  }
}
