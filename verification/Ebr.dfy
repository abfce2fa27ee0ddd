/**
 Epoch-based reclamation as an interleaving machine: every read or write of
 shared memory, and every compare-and-swap, is one action of one processor.
 The log records what happened; the guarantees are read off the log alone.
 */
module Ebr {
  import opened Options
  import opened Increasing

  /** A packed announcement: 63 bits of epoch, one quiescent bit. */
  datatype Announcement = Announcement(epoch: nat, quiescent: bool)

  /** Where a processor is inside a call that leaves the quiescent state. */
  datatype Pc =
    | Idle
    | HasEpoch(g: nat)      // the global epoch has been read
    | Rotated(g: nat)       // own limbo bags are up to date
    | Scanned(g: nat)       // enough processors observed: about to advance
    | Announcing(g: nat)    // about to announce

  /** Limbo bags hold tokens: a token is the log index of a retirement. */
  datatype Local = Local(limboIdx: nat, checkNext: nat, bags: seq<seq<nat>>)

  datatype Event =
    | Entered(p: nat)
    | ReadEpoch(p: nat)
    | Announced(p: nat)
    | Retired(p: nat, ptr: int, epoch: nat)
    | Freed(p: nat, token: nat)

  datatype State = State(
    epoch: nat,
    announce: seq<Announcement>,
    local: seq<Local>,
    pcs: seq<Pc>,
    log: seq<Event>)

  datatype Action =
    | Enter(p: nat)
    | Retire(p: nat, ptr: int)
    | LoadEpoch(p: nat)
    | Rotate(p: nat)
    | Observe(p: nat)
    | Advance(p: nat)
    | Announce(p: nat)

  // ----- the machine -----

  function NumProcs(s: State): nat { |s.announce| }

  /** Every processor starts non-quiescent, announcing epoch zero. */
  function Init(n: nat): State {
    State(0,
          seq(n, _ => Announcement(0, false)),
          seq(n, _ => Local(0, 0, [[], [], []])),
          seq(n, _ => Idle),
          [])
  }

  predicate Shaped(s: State) {
    && |s.local| == |s.announce| && |s.pcs| == |s.announce|
    && forall p :: 0 <= p < |s.local| ==> |s.local[p].bags| == 3 && s.local[p].limboIdx < 3
  }

  predicate Enabled(s: State, a: Action) {
    && Shaped(s) && a.p < NumProcs(s)
    && match a
       case Enter(p) => s.pcs[p].Idle?
       case Retire(p, _) => s.pcs[p].Idle?
       case LoadEpoch(p) => s.pcs[p].Idle?
       case Rotate(p) => s.pcs[p].HasEpoch?
       case Observe(p) => s.pcs[p].Rotated?
       case Advance(p) => s.pcs[p].Scanned?
       case Announce(p) => s.pcs[p].Announcing?
  }

  function FreeAll(p: nat, tokens: seq<nat>): (log: seq<Event>)
    ensures |log| == |tokens| && forall i :: 0 <= i < |tokens| ==> log[i] == Freed(p, tokens[i])
  {
    if tokens == [] then [] else [Freed(p, tokens[0])] + FreeAll(p, tokens[1..])
  }

  /** Rotating moves to the next of the three bags, freeing what was in it. */
  function Rotation(l: Local): Local
    requires |l.bags| == 3 && l.limboIdx < 3
  {
    var i := (l.limboIdx + 1) % 3;
    Local(i, 0, l.bags[i := []])
  }

  /** Scanning starts over after the last processor. */
  function Around(checkNext: nat, procs: nat): (r: nat)
    requires procs > 0
    ensures r < procs && (checkNext < procs ==> r == checkNext)
  {
    checkNext % procs
  }

  function Do(s: State, a: Action): State
    requires Enabled(s, a)
  {
    var p := a.p;
    match a
    case Enter(_) =>
      s.(announce := s.announce[p := s.announce[p].(quiescent := true)], log := s.log + [Entered(p)])
    case Retire(_, ptr) =>
      var l := s.local[p];
      s.(local := s.local[p := l.(bags := l.bags[l.limboIdx := l.bags[l.limboIdx] + [|s.log|]])],
         log := s.log + [Retired(p, ptr, s.epoch)])
    case LoadEpoch(_) =>
      s.(pcs := s.pcs[p := HasEpoch(s.epoch)], log := s.log + [ReadEpoch(p)])
    case Rotate(_) =>
      var g, l := s.pcs[p].g, s.local[p];
      if s.announce[p].epoch != g then
        s.(local := s.local[p := Rotation(l)], pcs := s.pcs[p := Rotated(g)],
           log := s.log + FreeAll(p, l.bags[(l.limboIdx + 1) % 3]))
      else
        s.(pcs := s.pcs[p := Rotated(g)])
    case Observe(_) =>
      var g, l := s.pcs[p].g, s.local[p];
      var other := s.announce[Around(l.checkNext, NumProcs(s))];
      if other.epoch == g || other.quiescent then
        s.(local := s.local[p := l.(checkNext := l.checkNext + 1)],
           pcs := s.pcs[p := if l.checkNext + 1 >= NumProcs(s) then Scanned(g) else Announcing(g)])
      else
        s.(pcs := s.pcs[p := Announcing(g)])
    case Advance(_) =>
      var g := s.pcs[p].g;
      s.(epoch := if s.epoch == g then g + 1 else s.epoch, pcs := s.pcs[p := Announcing(g)])
    case Announce(_) =>
      s.(announce := s.announce[p := Announcement(s.pcs[p].g, false)], pcs := s.pcs[p := Idle],
         log := s.log + [Announced(p)])
  }

  /** The state after a schedule; None if some action was not enabled. */
  function Run(n: nat, acts: seq<Action>): Option<State> {
    if acts == [] then Some(Init(n))
    else
      match Run(n, acts[..|acts| - 1])
      case None => None
      case Some(s) => if Enabled(s, acts[|acts| - 1]) then Some(Do(s, acts[|acts| - 1])) else None
  }

  // ----- reading the log -----

  /** r was inside an operation when the i-th event happened: its last mark is
      an announcement, or it has left no mark yet. */
  ghost predicate InOperation(log: seq<Event>, i: nat, r: nat)
    requires i <= |log|
  {
    i == 0 || (log[i - 1] == Announced(r)) ||
    (log[i - 1] != Entered(r) && log[i - 1] != ReadEpoch(r) && InOperation(log, i - 1, r))
  }

  /** Since event i, r has entered quiescence or read the epoch again. */
  ghost predicate Moved(log: seq<Event>, i: nat, r: nat) {
    exists m :: i < m < |log| && (log[m] == Entered(r) || log[m] == ReadEpoch(r))
  }

  /** Everyone in an operation at event i has moved on by the end of the log. */
  ghost predicate GracePassed(log: seq<Event>, i: nat, procs: nat)
    requires i <= |log|
  {
    forall r :: 0 <= r < procs && InOperation(log, i, r) ==> Moved(log, i, r)
  }

  lemma {:induction false} InOperationFrame(log: seq<Event>, more: seq<Event>, i: nat, r: nat)
    requires i <= |log|
    ensures InOperation(log + more, i, r) <==> InOperation(log, i, r)
  {
    if i == 0 {
    } else {
      assert (log + more)[i - 1] == log[i - 1];
      InOperationFrame(log, more, i - 1, r);
    }
  }

  lemma MovedFrame(log: seq<Event>, more: seq<Event>, i: nat, r: nat)
    requires Moved(log, i, r)
    ensures Moved(log + more, i, r)
  {
    var m :| i < m < |log| && (log[m] == Entered(r) || log[m] == ReadEpoch(r));
    assert (log + more)[m] == log[m];
  }

  lemma GraceFrame(log: seq<Event>, more: seq<Event>, i: nat, procs: nat)
    requires i <= |log| && GracePassed(log, i, procs)
    ensures GracePassed(log + more, i, procs)
  {
    forall r | 0 <= r < procs && InOperation(log + more, i, r) ensures Moved(log + more, i, r) {
      InOperationFrame(log, more, i, r);
      MovedFrame(log, more, i, r);
    }
  }

  // ----- the invariant -----

  predicate IsToken(log: seq<Event>, i: nat) { i < |log| && log[i].Retired? }

  /** The epoch whose scan p's checkNext counts. */
  function ScanEpoch(ann: Announcement, pc: Pc): nat {
    match pc
    case Idle => ann.epoch
    case HasEpoch(_) => ann.epoch
    case Rotated(g) => g
    case Scanned(g) => g
    case Announcing(g) => g
  }

  /** Announcements are never ahead; they may be arbitrarily far behind. */
  ghost predicate EpochsOk(epoch: nat, ann: Announcement, pc: Pc) {
    && ann.epoch <= epoch
    && (!pc.Idle? ==> ann.epoch <= pc.g <= epoch)
  }

  ghost predicate MarksOk(log: seq<Event>, r: nat, ann: Announcement, pc: Pc) {
    InOperation(log, |log|, r) <==> pc.Idle? && !ann.quiescent
  }

  /** A processor that was in an operation when i was retired and has not moved
      still carries the announcement it had then. */
  ghost predicate ReaderOk(log: seq<Event>, i: nat, r: nat, ann: Announcement, pc: Pc)
    requires IsToken(log, i)
  {
    InOperation(log, i, r) && !Moved(log, i, r) ==>
      pc.Idle? && !ann.quiescent && ann.epoch <= log[i].epoch
  }

  /** The j-th processor was observed during the scan of epoch e, hence has
      moved since any retirement of an earlier epoch. */
  ghost predicate ObservedOk(log: seq<Event>, e: nat, j: nat) {
    forall i: nat :: IsToken(log, i) && log[i].epoch < e && InOperation(log, i, j) ==> Moved(log, i, j)
  }

  ghost predicate ScanOk(log: seq<Event>, procs: nat, ann: Announcement, pc: Pc, checkNext: nat) {
    && (pc.Scanned? ==> checkNext >= procs)
    && forall j: nat :: j < checkNext && j < procs ==> ObservedOk(log, ScanEpoch(ann, pc), j)
  }

  /** Two epochs after a retirement its grace period is over. */
  ghost predicate GraceOk(log: seq<Event>, epoch: nat, procs: nat) {
    forall i: nat :: IsToken(log, i) ==>
      && log[i].epoch <= epoch
      && (log[i].epoch + 2 <= epoch ==> GracePassed(log, i, procs))
  }

  /** How many rotations ago bag b was current. */
  function Age(limboIdx: nat, b: nat): nat
    requires limboIdx < 3 && b < 3
  {
    (limboIdx + 3 - b) % 3
  }

  ghost predicate TokenOk(log: seq<Event>, p: nat, ann: Announcement, pc: Pc, age: nat, i: nat) {
    && IsToken(log, i) && log[i].p == p
    && (age >= 1 ==> log[i].epoch <= ScanEpoch(ann, pc))
    && (age == 2 ==> log[i].epoch + 1 <= ScanEpoch(ann, pc))
    && (!pc.Idle? ==> log[i].epoch <= pc.g)
  }

  ghost predicate BagsOk(log: seq<Event>, p: nat, ann: Announcement, pc: Pc, l: Local)
    requires |l.bags| == 3 && l.limboIdx < 3
  {
    forall b, k {:trigger l.bags[b][k]} :: 0 <= b < 3 && 0 <= k < |l.bags[b]| ==>
      TokenOk(log, p, ann, pc, Age(l.limboIdx, b), l.bags[b][k])
  }

  /** Every free discharges an earlier retirement whose grace period is over. */
  ghost predicate FreesOk(log: seq<Event>, procs: nat) {
    forall k :: 0 <= k < |log| && log[k].Freed? ==>
      && log[k].token < k && IsToken(log, log[k].token) && log[log[k].token].p == log[k].p
      && GracePassed(log[..k], log[k].token, procs)
  }

  ghost predicate ProcOk(s: State, r: nat)
    requires Shaped(s) && r < NumProcs(s)
  {
    && EpochsOk(s.epoch, s.announce[r], s.pcs[r])
    && MarksOk(s.log, r, s.announce[r], s.pcs[r])
    && ScanOk(s.log, NumProcs(s), s.announce[r], s.pcs[r], s.local[r].checkNext)
    && BagsOk(s.log, r, s.announce[r], s.pcs[r], s.local[r])
  }

  ghost predicate Readers(s: State, r: nat)
    requires Shaped(s) && r < NumProcs(s)
  {
    forall i: nat :: IsToken(s.log, i) ==> ReaderOk(s.log, i, r, s.announce[r], s.pcs[r])
  }

  ghost predicate Inv(s: State, n: nat) {
    && Shaped(s) && NumProcs(s) == n && n > 0
    && (forall r :: 0 <= r < n ==> ProcOk(s, r) && Readers(s, r))
    && GraceOk(s.log, s.epoch, n) && FreesOk(s.log, n)
  }

  // ----- what the log growing changes -----

  ghost predicate NoMarksOf(more: seq<Event>, r: nat) {
    forall k :: 0 <= k < |more| ==>
      more[k] != Entered(r) && more[k] != ReadEpoch(r) && more[k] != Announced(r)
  }

  /** Retirements record the epoch they happen in. */
  ghost predicate Dated(more: seq<Event>, epoch: nat) {
    forall k :: 0 <= k < |more| && more[k].Retired? ==> more[k].epoch == epoch
  }

  lemma {:induction false} MarksFrame(log: seq<Event>, more: seq<Event>, r: nat, ann: Announcement, pc: Pc)
    requires MarksOk(log, r, ann, pc)
    requires NoMarksOf(more, r)
    ensures MarksOk(log + more, r, ann, pc)
    decreases |more|
  {
    if more == [] {
      assert log + more == log;
    } else {
      var front := more[..|more| - 1];
      MarksFrame(log, front, r, ann, pc);
      assert log + more == (log + front) + [more[|more| - 1]];
      InOperationFrame(log + front, [more[|more| - 1]], |log + front|, r);
    }
  }

  lemma ObservedFrame(log: seq<Event>, more: seq<Event>, e: nat, j: nat)
    requires ObservedOk(log, e, j)
    requires forall k :: 0 <= k < |more| && more[k].Retired? ==> e <= more[k].epoch
    ensures ObservedOk(log + more, e, j)
  {
    forall i: nat | IsToken(log + more, i) && (log + more)[i].epoch < e && InOperation(log + more, i, j)
      ensures Moved(log + more, i, j)
    {
      assert forall k :: 0 <= k < |more| ==> (log + more)[|log| + k] == more[k];
      assert i < |log| && (log + more)[i] == log[i];
      InOperationFrame(log, more, i, j);
      MovedFrame(log, more, i, j);
    }
  }

  lemma ScanFrame(log: seq<Event>, more: seq<Event>, procs: nat, epoch: nat, ann: Announcement, pc: Pc, checkNext: nat)
    requires ScanOk(log, procs, ann, pc, checkNext) && EpochsOk(epoch, ann, pc)
    requires Dated(more, epoch)
    ensures ScanOk(log + more, procs, ann, pc, checkNext)
  {
    hide ObservedOk;
    forall j: nat | j < checkNext && j < procs ensures ObservedOk(log + more, ScanEpoch(ann, pc), j) {
      ObservedFrame(log, more, ScanEpoch(ann, pc), j);
    }
  }

  lemma BagsFrame(log: seq<Event>, more: seq<Event>, p: nat, ann: Announcement, pc: Pc, l: Local)
    requires |l.bags| == 3 && l.limboIdx < 3 && BagsOk(log, p, ann, pc, l)
    ensures BagsOk(log + more, p, ann, pc, l)
  {
    forall b, k {:trigger l.bags[b][k]} | 0 <= b < 3 && 0 <= k < |l.bags[b]|
      ensures TokenOk(log + more, p, ann, pc, Age(l.limboIdx, b), l.bags[b][k])
    {
      assert TokenOk(log, p, ann, pc, Age(l.limboIdx, b), l.bags[b][k]);
      assert (log + more)[l.bags[b][k]] == log[l.bags[b][k]];
    }
  }

  lemma ReaderFrame(log: seq<Event>, more: seq<Event>, i: nat, r: nat, ann: Announcement, pc: Pc)
    requires IsToken(log, i) && ReaderOk(log, i, r, ann, pc)
    ensures IsToken(log + more, i) && ReaderOk(log + more, i, r, ann, pc)
  {
    assert (log + more)[i] == log[i];
    InOperationFrame(log, more, i, r);
    if Moved(log, i, r) { MovedFrame(log, more, i, r); }
  }

  lemma GraceOkFrame(log: seq<Event>, more: seq<Event>, epoch: nat, procs: nat)
    requires GraceOk(log, epoch, procs)
    requires Dated(more, epoch)
    ensures GraceOk(log + more, epoch, procs)
  {
    hide GracePassed;
    forall i: nat | IsToken(log + more, i)
      ensures (log + more)[i].epoch <= epoch
      ensures (log + more)[i].epoch + 2 <= epoch ==> GracePassed(log + more, i, procs)
    {
      if i < |log| {
        assert (log + more)[i] == log[i];
        assert IsToken(log, i);
        if log[i].epoch + 2 <= epoch { GraceFrame(log, more, i, procs); }
      } else {
        assert (log + more)[i] == more[i - |log|];
      }
    }
  }

  lemma FreesFrame(log: seq<Event>, more: seq<Event>, procs: nat)
    requires FreesOk(log, procs)
    requires forall k :: 0 <= k < |more| && more[k].Freed? ==>
      && IsToken(log, more[k].token) && log[more[k].token].p == more[k].p
      && GracePassed(log, more[k].token, procs)
    ensures FreesOk(log + more, procs)
  {
    hide GracePassed;
    var log' := log + more;
    forall k | 0 <= k < |log'| && log'[k].Freed?
      ensures log'[k].token < k && IsToken(log', log'[k].token) && log'[log'[k].token].p == log'[k].p
      ensures GracePassed(log'[..k], log'[k].token, procs)
    {
      if k < |log| {
        assert log'[k] == log[k] && log'[..k] == log[..k] && log'[log[k].token] == log[log[k].token];
      } else {
        var e := more[k - |log|];
        assert log'[k] == e && log'[e.token] == log[e.token];
        assert log'[..k] == log + more[..k - |log|];
        GraceFrame(log, more[..k - |log|], e.token, procs);
      }
    }
  }

  // ----- every action keeps the invariant -----

  /** Only p's own entries differ, and the log has grown by `more`. */
  ghost predicate OnlyProc(s: State, s': State, p: nat, more: seq<Event>)
    requires Shaped(s)
  {
    && Shaped(s') && NumProcs(s') == NumProcs(s) && s'.log == s.log + more && s.epoch <= s'.epoch
    && (forall r :: 0 <= r < NumProcs(s) && r != p ==>
          s'.announce[r] == s.announce[r] && s'.pcs[r] == s.pcs[r] && s'.local[r] == s.local[r])
    && Dated(more, s.epoch)
    && (forall r: nat :: r != p ==> NoMarksOf(more, r))
  }

  lemma OtherKept(s: State, s': State, n: nat, p: nat, more: seq<Event>, r: nat)
    requires Inv(s, n) && OnlyProc(s, s', p, more) && r < n && r != p
    ensures ProcOk(s', r) && Readers(s', r)
  {
    hide MarksOk, ScanOk, BagsOk, ReaderOk, GraceOk, FreesOk;
    assert ProcOk(s, r) && Readers(s, r);
    MarksFrame(s.log, more, r, s.announce[r], s.pcs[r]);
    ScanFrame(s.log, more, n, s.epoch, s.announce[r], s.pcs[r], s.local[r].checkNext);
    BagsFrame(s.log, more, r, s.announce[r], s.pcs[r], s.local[r]);
    forall i: nat | IsToken(s'.log, i) ensures ReaderOk(s'.log, i, r, s.announce[r], s.pcs[r]) {
      if i < |s.log| {
        assert s'.log[i] == s.log[i];
        ReaderFrame(s.log, more, i, r, s.announce[r], s.pcs[r]);
      } else {
        NewToken(s, n, s'.log, more, i, r);
      }
    }
  }

  /** At a retirement, whoever is in an operation announced no later epoch. */
  lemma NewToken(s: State, n: nat, log': seq<Event>, more: seq<Event>, i: nat, r: nat)
    requires Inv(s, n) && r < n && log' == s.log + more && IsToken(log', i) && i >= |s.log|
    requires Dated(more, s.epoch) && NoMarksOf(more, r)
    ensures ReaderOk(log', i, r, s.announce[r], s.pcs[r])
  {
    hide ScanOk, BagsOk, ReaderOk, GraceOk, FreesOk;
    var k := i - |s.log|;
    assert ProcOk(s, r);
    assert log'[i] == more[k];
    MarksFrame(s.log, more[..k], r, s.announce[r], s.pcs[r]);
    assert log' == (s.log + more[..k]) + more[k..];
    InOperationFrame(s.log + more[..k], more[k..], i, r);
    ReaderHolds(log', i, r, s.announce[r], s.pcs[r]);
  }

  lemma ReaderHolds(log: seq<Event>, i: nat, r: nat, ann: Announcement, pc: Pc)
    requires IsToken(log, i)
    requires InOperation(log, i, r) ==> pc.Idle? && !ann.quiescent && ann.epoch <= log[i].epoch
    ensures ReaderOk(log, i, r, ann, pc)
  {
  }

  lemma Assemble(s: State, s': State, n: nat, p: nat, more: seq<Event>)
    requires Inv(s, n) && OnlyProc(s, s', p, more) && p < n
    requires ProcOk(s', p) && Readers(s', p) && GraceOk(s'.log, s'.epoch, n) && FreesOk(s'.log, n)
    ensures Inv(s', n)
  {
    hide MarksOk, ScanOk, BagsOk, ReaderOk, GraceOk, FreesOk, EpochsOk;
    forall r | 0 <= r < n ensures ProcOk(s', r) && Readers(s', r) {
      if r != p { OtherKept(s, s', n, p, more, r); }
    }
  }

  lemma MovedNow(log: seq<Event>, e: Event, i: nat, r: nat)
    requires i < |log| && (e == Entered(r) || e == ReadEpoch(r))
    ensures Moved(log + [e], i, r)
  {
    assert (log + [e])[|log|] == e;
  }

  /** After a mark of quiescence by p, p has moved since every retirement. */
  lemma ReadersMoved(s: State, s': State, p: nat, e: Event)
    requires Shaped(s) && Shaped(s') && p < NumProcs(s') && s'.log == s.log + [e]
    requires e == Entered(p) || e == ReadEpoch(p)
    ensures Readers(s', p)
  {
    forall i: nat | IsToken(s'.log, i) ensures Moved(s'.log, i, p) {
      MovedNow(s.log, e, i, p);
    }
  }

  lemma ReadersKept(s: State, s': State, n: nat, p: nat, more: seq<Event>)
    requires Inv(s, n) && p < n && Shaped(s') && NumProcs(s') == n && s'.log == s.log + more
    requires Dated(more, s.epoch) && NoMarksOf(more, p)
    requires s'.announce[p] == s.announce[p]
    requires s'.pcs[p].Idle? == s.pcs[p].Idle?
    ensures Readers(s', p)
  {
    hide ScanOk, BagsOk, MarksOk, GraceOk, FreesOk, Moved, InOperation;
    assert ProcOk(s, p) && Readers(s, p);
    forall i: nat | IsToken(s'.log, i) ensures ReaderOk(s'.log, i, p, s'.announce[p], s'.pcs[p]) {
      if i < |s.log| {
        assert s'.log[i] == s.log[i];
        ReaderFrame(s.log, more, i, p, s.announce[p], s.pcs[p]);
      } else {
        NewToken(s, n, s'.log, more, i, p);
      }
    }
  }

  lemma LastMark(log: seq<Event>, e: Event, r: nat)
    ensures e == Announced(r) ==> InOperation(log + [e], |log| + 1, r)
    ensures e == Entered(r) || e == ReadEpoch(r) ==> !InOperation(log + [e], |log| + 1, r)
  {
  }

  /** Announcement and position may change as long as the scanned epoch does not. */
  lemma ScanSame(log: seq<Event>, procs: nat, ann: Announcement, pc: Pc, ann': Announcement, pc': Pc, checkNext: nat)
    requires ScanOk(log, procs, ann, pc, checkNext) && ScanEpoch(ann, pc) == ScanEpoch(ann', pc')
    requires pc'.Scanned? ==> checkNext >= procs
    ensures ScanOk(log, procs, ann', pc', checkNext)
  {
  }

  lemma BagsSame(log: seq<Event>, p: nat, ann: Announcement, pc: Pc, ann': Announcement, pc': Pc, l: Local)
    requires |l.bags| == 3 && l.limboIdx < 3
    requires BagsOk(log, p, ann, pc, l) && ScanEpoch(ann, pc) == ScanEpoch(ann', pc')
    requires !pc'.Idle? ==>
      (!pc.Idle? && pc'.g == pc.g) || forall i: nat :: IsToken(log, i) ==> log[i].epoch <= pc'.g
    ensures BagsOk(log, p, ann', pc', l)
  {
    forall b, k {:trigger l.bags[b][k]} | 0 <= b < 3 && 0 <= k < |l.bags[b]|
      ensures TokenOk(log, p, ann', pc', Age(l.limboIdx, b), l.bags[b][k])
    {
      assert TokenOk(log, p, ann, pc, Age(l.limboIdx, b), l.bags[b][k]);
    }
  }

  lemma EnterKeeps(s: State, n: nat, p: nat)
    requires Inv(s, n) && Enabled(s, Enter(p))
    ensures Inv(Do(s, Enter(p)), n)
  {
    hide ReaderOk, GraceOk, FreesOk, Moved, ObservedOk;
    var s', more := Do(s, Enter(p)), [Entered(p)];
    assert ProcOk(s, p);
    LastMark(s.log, Entered(p), p);
    ScanFrame(s.log, more, n, s.epoch, s.announce[p], s.pcs[p], s.local[p].checkNext);
    BagsFrame(s.log, more, p, s.announce[p], s.pcs[p], s.local[p]);
    ScanSame(s'.log, n, s.announce[p], s.pcs[p], s'.announce[p], s'.pcs[p], s.local[p].checkNext);
    BagsSame(s'.log, p, s.announce[p], s.pcs[p], s'.announce[p], s'.pcs[p], s.local[p]);
    ReadersMoved(s, s', p, Entered(p));
    GraceOkFrame(s.log, more, s.epoch, n);
    FreesFrame(s.log, more, n);
    Assemble(s, s', n, p, more);
  }

  lemma RetireKeeps(s: State, n: nat, p: nat, ptr: int)
    requires Inv(s, n) && Enabled(s, Retire(p, ptr))
    ensures Inv(Do(s, Retire(p, ptr)), n)
  {
    hide ReaderOk, GraceOk, FreesOk, Moved, ObservedOk, InOperation;
    var s', more := Do(s, Retire(p, ptr)), [Retired(p, ptr, s.epoch)];
    assert ProcOk(s, p);
    MarksFrame(s.log, more, p, s.announce[p], s.pcs[p]);
    ScanFrame(s.log, more, n, s.epoch, s.announce[p], s.pcs[p], s.local[p].checkNext);
    RetireBags(s, n, p, ptr);
    ReadersKept(s, s', n, p, more);
    GraceOkFrame(s.log, more, s.epoch, n);
    FreesFrame(s.log, more, n);
    Assemble(s, s', n, p, more);
  }

  lemma RetireBags(s: State, n: nat, p: nat, ptr: int)
    requires Inv(s, n) && Enabled(s, Retire(p, ptr))
    ensures var s' := Do(s, Retire(p, ptr)); BagsOk(s'.log, p, s'.announce[p], s'.pcs[p], s'.local[p])
  {
    hide ReaderOk, GraceOk, FreesOk, MarksOk, ScanOk;
    var s' := Do(s, Retire(p, ptr));
    assert ProcOk(s, p);
    BagsFrame(s.log, [Retired(p, ptr, s.epoch)], p, s.announce[p], s.pcs[p], s.local[p]);
    var l, l' := s.local[p], s'.local[p];
    assert s'.log[|s.log|] == Retired(p, ptr, s.epoch);
    forall b, k {:trigger l'.bags[b][k]} | 0 <= b < 3 && 0 <= k < |l'.bags[b]|
      ensures TokenOk(s'.log, p, s.announce[p], s.pcs[p], Age(l.limboIdx, b), l'.bags[b][k])
    {
      if k < |l.bags[b]| { assert l'.bags[b][k] == l.bags[b][k]; }
    }
  }

  lemma LoadEpochKeeps(s: State, n: nat, p: nat)
    requires Inv(s, n) && Enabled(s, LoadEpoch(p))
    ensures Inv(Do(s, LoadEpoch(p)), n)
  {
    hide ReaderOk, FreesOk, Moved, ObservedOk, GracePassed;
    var s', more := Do(s, LoadEpoch(p)), [ReadEpoch(p)];
    assert ProcOk(s, p);
    LastMark(s.log, ReadEpoch(p), p);
    ScanFrame(s.log, more, n, s.epoch, s.announce[p], s.pcs[p], s.local[p].checkNext);
    BagsFrame(s.log, more, p, s.announce[p], s.pcs[p], s.local[p]);
    GraceOkFrame(s.log, more, s.epoch, n);
    ScanSame(s'.log, n, s.announce[p], s.pcs[p], s'.announce[p], s'.pcs[p], s.local[p].checkNext);
    BagsSame(s'.log, p, s.announce[p], s.pcs[p], s'.announce[p], s'.pcs[p], s.local[p]);
    ReadersMoved(s, s', p, ReadEpoch(p));
    FreesFrame(s.log, more, n);
    Assemble(s, s', n, p, more);
  }

  lemma ObserveKeeps(s: State, n: nat, p: nat)
    requires Inv(s, n) && Enabled(s, Observe(p))
    ensures Inv(Do(s, Observe(p)), n)
  {
    hide ReaderOk, FreesOk, ProcOk, GraceOk, IsToken;
    var s' := Do(s, Observe(p));
    assert s.log + [] == s.log;
    ObserveProc(s, n, p);
    ReadersKept(s, s', n, p, []);
    Assemble(s, s', n, p, []);
  }

  lemma ObserveProc(s: State, n: nat, p: nat)
    requires Inv(s, n) && Enabled(s, Observe(p))
    ensures p < n && Shaped(Do(s, Observe(p))) && NumProcs(Do(s, Observe(p))) == n
    ensures ProcOk(Do(s, Observe(p)), p)
  {
    hide Inv, Do, Enabled, ObservedOk, BagsOk, MarksOk, ScanOk, EpochsOk;
    var s' := Do(s, Observe(p));
    ProcAt(s, n, p);
    ObserveIs(s, n, p);
    EpochsStay(s.epoch, s.announce[p], s.pcs[p], s'.pcs[p]);
    var c, l := s.local[p].checkNext, s.local[p];
    if s'.local[p].checkNext == c + 1 && c < n { Observed(s, n, p, c); }
    ObserveParts(s.log, n, p, s.announce[p], s.pcs[p].g, s'.pcs[p], l, s'.local[p].checkNext);
  }

  lemma ProcAt(s: State, n: nat, p: nat)
    requires Inv(s, n) && Enabled(s, Observe(p))
    ensures Shaped(s) && NumProcs(s) == n && p < n && ProcOk(s, p)
  {
  }

  lemma EpochsStay(epoch: nat, ann: Announcement, pc: Pc, pc': Pc)
    requires EpochsOk(epoch, ann, pc) && pc.Rotated? && !pc'.Idle? && pc'.g == pc.g
    ensures EpochsOk(epoch, ann, pc')
  {
  }

  /** What an observation changes. */
  lemma ObserveIs(s: State, n: nat, p: nat)
    requires Shaped(s) && NumProcs(s) == n && p < n && Enabled(s, Observe(p))
    ensures s.pcs[p].Rotated?
    ensures var s', c, g := Do(s, Observe(p)), s.local[p].checkNext, s.pcs[p].g;
      && Shaped(s') && NumProcs(s') == n && s'.log == s.log && s'.epoch == s.epoch && s'.announce == s.announce
      && s'.local[p] == s.local[p].(checkNext := s'.local[p].checkNext)
      && (s'.pcs[p] == Announcing(g) || (s'.pcs[p] == Scanned(g) && s'.local[p].checkNext >= n))
      && (s'.local[p].checkNext == c
          || (s'.local[p].checkNext == c + 1 && (c < n ==> s.announce[c].epoch == g || s.announce[c].quiescent)))
  {
    hide Around;
  }

  lemma ObserveParts(log: seq<Event>, n: nat, p: nat, ann: Announcement, g: nat, pc: Pc, l: Local, c': nat)
    requires ScanOk(log, n, ann, Rotated(g), l.checkNext) && MarksOk(log, p, ann, Rotated(g))
    requires |l.bags| == 3 && l.limboIdx < 3 && BagsOk(log, p, ann, Rotated(g), l)
    requires pc == Announcing(g) || (pc == Scanned(g) && c' >= n)
    requires c' == l.checkNext || (c' == l.checkNext + 1 && (l.checkNext < n ==> ObservedOk(log, g, l.checkNext)))
    ensures ScanOk(log, n, ann, pc, c') && MarksOk(log, p, ann, pc) && BagsOk(log, p, ann, pc, l.(checkNext := c'))
  {
    hide ObservedOk, TokenOk;
    ScanSame(log, n, ann, Rotated(g), ann, Announcing(g), l.checkNext);
    ObservedOne(log, n, ann, pc, g, l.checkNext, c');
    BagsSame(log, p, ann, Rotated(g), ann, pc, l);
  }

  lemma ObservedOne(log: seq<Event>, procs: nat, ann: Announcement, pc: Pc, g: nat, c: nat, c': nat)
    requires ScanOk(log, procs, ann, Announcing(g), c)
    requires pc == Announcing(g) || (pc == Scanned(g) && c' >= procs)
    requires c' == c || (c' == c + 1 && (c < procs ==> ObservedOk(log, g, c)))
    ensures ScanOk(log, procs, ann, pc, c')
  {
    hide ObservedOk;
    forall j: nat | j < c' && j < procs ensures ObservedOk(log, g, j) {
      if j < c { assert ObservedOk(log, ScanEpoch(ann, Announcing(g)), j); }
    }
  }

  /** Seeing r quiescent or announcing g proves r moved since any retirement
      of an epoch before g. */
  lemma Observed(s: State, n: nat, p: nat, r: nat)
    requires Inv(s, n) && p < n && r < n && s.pcs[p].Rotated?
    requires s.announce[r].epoch == s.pcs[p].g || s.announce[r].quiescent
    ensures ObservedOk(s.log, s.pcs[p].g, r)
  {
    hide ScanOk, BagsOk, MarksOk, FreesOk, GraceOk;
    assert Readers(s, r);
    forall i: nat | IsToken(s.log, i) && s.log[i].epoch < s.pcs[p].g && InOperation(s.log, i, r)
      ensures Moved(s.log, i, r)
    {
      assert ReaderOk(s.log, i, r, s.announce[r], s.pcs[r]);
    }
  }

  lemma AdvanceKeeps(s: State, n: nat, p: nat)
    requires Inv(s, n) && Enabled(s, Advance(p))
    ensures Inv(Do(s, Advance(p)), n)
  {
    hide ReaderOk, FreesOk, Moved, ObservedOk, GraceOk;
    var s' := Do(s, Advance(p));
    assert s.log + [] == s.log;
    assert ProcOk(s, p);
    if s'.epoch != s.epoch { ScanComplete(s, n, p); }
    ScanSame(s.log, n, s.announce[p], s.pcs[p], s'.announce[p], s'.pcs[p], s.local[p].checkNext);
    BagsSame(s.log, p, s.announce[p], s.pcs[p], s'.announce[p], s'.pcs[p], s.local[p]);
    ReadersKept(s, s', n, p, []);
    Assemble(s, s', n, p, []);
  }

  /** A completed scan of epoch g ends the grace period of every retirement
      made before g began. */
  lemma ScanComplete(s: State, n: nat, p: nat)
    requires Inv(s, n) && p < n && s.pcs[p].Scanned? && s.pcs[p].g == s.epoch
    ensures GraceOk(s.log, s.epoch + 1, n)
  {
    hide ReaderOk, FreesOk, BagsOk, MarksOk, Moved, InOperation;
    assert ProcOk(s, p);
    forall i: nat | IsToken(s.log, i)
      ensures s.log[i].epoch <= s.epoch + 1
      ensures s.log[i].epoch + 2 <= s.epoch + 1 ==> GracePassed(s.log, i, n)
    {
      if s.log[i].epoch < s.epoch {
        forall r | 0 <= r < n && InOperation(s.log, i, r) ensures Moved(s.log, i, r) {
          assert ObservedOk(s.log, ScanEpoch(s.announce[p], s.pcs[p]), r);
        }
      }
    }
  }

  lemma AnnounceKeeps(s: State, n: nat, p: nat)
    requires Inv(s, n) && Enabled(s, Announce(p))
    ensures Inv(Do(s, Announce(p)), n)
  {
    hide FreesOk, Moved, ObservedOk, GraceOk, ReaderOk, ScanOk, BagsOk;
    var s', more := Do(s, Announce(p)), [Announced(p)];
    assert ProcOk(s, p);
    LastMark(s.log, Announced(p), p);
    ScanFrame(s.log, more, n, s.epoch, s.announce[p], s.pcs[p], s.local[p].checkNext);
    BagsFrame(s.log, more, p, s.announce[p], s.pcs[p], s.local[p]);
    ScanSame(s'.log, n, s.announce[p], s.pcs[p], s'.announce[p], s'.pcs[p], s.local[p].checkNext);
    BagsSame(s'.log, p, s.announce[p], s.pcs[p], s'.announce[p], s'.pcs[p], s.local[p]);
    AnnounceReaders(s, n, p);
    GraceOkFrame(s.log, more, s.epoch, n);
    FreesFrame(s.log, more, n);
    Assemble(s, s', n, p, more);
  }

  /** A processor inside a call has moved since every retirement. */
  lemma AnnounceReaders(s: State, n: nat, p: nat)
    requires Inv(s, n) && Enabled(s, Announce(p))
    ensures Readers(Do(s, Announce(p)), p)
  {
    hide FreesOk, GraceOk, MarksOk, ScanOk, BagsOk;
    var s' := Do(s, Announce(p));
    assert Readers(s, p);
    forall i: nat | IsToken(s'.log, i) && InOperation(s'.log, i, p) ensures Moved(s'.log, i, p) {
      assert s'.log[|s.log|] == Announced(p);
      assert s'.log[i] == s.log[i];
      InOperationFrame(s.log, [Announced(p)], i, p);
      assert ReaderOk(s.log, i, p, s.announce[p], s.pcs[p]);
      MovedFrame(s.log, [Announced(p)], i, p);
    }
  }

  lemma Ages(idx: nat, b: nat)
    requires idx < 3 && b < 3
    ensures Age(idx, (idx + 1) % 3) == 2
    ensures b != (idx + 1) % 3 ==> Age((idx + 1) % 3, b) == Age(idx, b) + 1
  {
    if idx == 0 {
      AgesAt(0, 1, b);
    } else if idx == 1 {
      AgesAt(1, 2, b);
    } else {
      AgesAt(2, 0, b);
    }
  }

  lemma AgesAt(idx: nat, next: nat, b: nat)
    requires b < 3 && ((idx == 0 && next == 1) || (idx == 1 && next == 2) || (idx == 2 && next == 0))
    ensures (idx + 1) % 3 == next && Age(idx, next) == 2 && (b != next ==> Age(next, b) == Age(idx, b) + 1)
  {
    if b == 0 {
    } else if b == 1 {
    } else {
    }
  }

  lemma RotateBags(log: seq<Event>, p: nat, ann: Announcement, g: nat, l: Local)
    requires |l.bags| == 3 && l.limboIdx < 3 && BagsOk(log, p, ann, HasEpoch(g), l) && ann.epoch < g
    ensures BagsOk(log, p, ann, Rotated(g), Rotation(l))
  {
    hide Age;
    var l' := Rotation(l);
    forall b, k {:trigger l'.bags[b][k]} | 0 <= b < 3 && 0 <= k < |l'.bags[b]|
      ensures TokenOk(log, p, ann, Rotated(g), Age(l'.limboIdx, b), l'.bags[b][k])
    {
      Ages(l.limboIdx, b);
      assert l'.bags[b][k] == l.bags[b][k];
      assert TokenOk(log, p, ann, HasEpoch(g), Age(l.limboIdx, b), l.bags[b][k]);
    }
  }

  /** What leaves the oldest bag was retired two epochs ago or more. */
  lemma OldestBag(s: State, n: nat, p: nat, k: nat)
    requires Inv(s, n) && p < n && s.pcs[p].HasEpoch? && s.announce[p].epoch != s.pcs[p].g
    requires k < |s.local[p].bags[(s.local[p].limboIdx + 1) % 3]|
    ensures var i := s.local[p].bags[(s.local[p].limboIdx + 1) % 3][k];
      IsToken(s.log, i) && s.log[i].p == p && GracePassed(s.log, i, n)
  {
    hide ScanOk, MarksOk, FreesOk, GracePassed;
    assert ProcOk(s, p);
    var l := s.local[p];
    Ages(l.limboIdx, 0);
    var i := l.bags[(l.limboIdx + 1) % 3][k];
    assert TokenOk(s.log, p, s.announce[p], s.pcs[p], Age(l.limboIdx, (l.limboIdx + 1) % 3), i);
  }

  lemma FreeAllMarks(p: nat, tokens: seq<nat>, epoch: nat)
    ensures Dated(FreeAll(p, tokens), epoch)
    ensures forall r: nat :: NoMarksOf(FreeAll(p, tokens), r)
  {
  }

  lemma RotateKeeps(s: State, n: nat, p: nat)
    requires Inv(s, n) && Enabled(s, Rotate(p))
    ensures Inv(Do(s, Rotate(p)), n)
  {
    hide FreesOk, Moved, ObservedOk, GraceOk, ReaderOk, BagsOk, FreeAll, Rotation, GracePassed;
    var s' := Do(s, Rotate(p));
    assert ProcOk(s, p);
    var g, l := s.pcs[p].g, s.local[p];
    if s.announce[p].epoch == g {
      assert s.log + [] == s.log;
      ScanSame(s.log, n, s.announce[p], s.pcs[p], s.announce[p], Rotated(g), l.checkNext);
      BagsSame(s.log, p, s.announce[p], s.pcs[p], s.announce[p], Rotated(g), l);
      ReadersKept(s, s', n, p, []);
      Assemble(s, s', n, p, []);
    } else {
      var tokens := l.bags[(l.limboIdx + 1) % 3];
      var more := FreeAll(p, tokens);
      FreeAllMarks(p, tokens, s.epoch);
      MarksFrame(s.log, more, p, s.announce[p], s.pcs[p]);
      RotateBags(s.log, p, s.announce[p], g, l);
      RotationShape(l);
      BagsFrame(s.log, more, p, s.announce[p], Rotated(g), Rotation(l));
      ReadersKept(s, s', n, p, more);
      GraceOkFrame(s.log, more, s.epoch, n);
      forall k | 0 <= k < |more| && more[k].Freed?
        ensures IsToken(s.log, more[k].token) && s.log[more[k].token].p == more[k].p
        ensures GracePassed(s.log, more[k].token, n)
      {
        OldestBag(s, n, p, k);
      }
      FreesFrame(s.log, more, n);
      Assemble(s, s', n, p, more);
    }
  }

  lemma RotationShape(l: Local)
    requires |l.bags| == 3 && l.limboIdx < 3
    ensures |Rotation(l).bags| == 3 && Rotation(l).limboIdx < 3 && Rotation(l).checkNext == 0
  {
  }

  lemma InvInit(n: nat)
    requires n > 0
    ensures Inv(Init(n), n)
  {
  }

  lemma DoKeepsInv(s: State, n: nat, a: Action)
    requires Inv(s, n) && Enabled(s, a)
    ensures Inv(Do(s, a), n)
  {
    hide Inv, Do;
    match a
    case Enter(p) => EnterKeeps(s, n, p);
    case Retire(p, ptr) => RetireKeeps(s, n, p, ptr);
    case LoadEpoch(p) => LoadEpochKeeps(s, n, p);
    case Rotate(p) => RotateKeeps(s, n, p);
    case Observe(p) => ObserveKeeps(s, n, p);
    case Advance(p) => AdvanceKeeps(s, n, p);
    case Announce(p) => AnnounceKeeps(s, n, p);
  }

  lemma {:induction false} RunKeepsInv(n: nat, acts: seq<Action>)
    requires n > 0 && Run(n, acts).Some?
    ensures Inv(Run(n, acts).value, n)
    decreases |acts|
  {
    hide Inv, Do, Enabled;
    if acts == [] {
      InvInit(n);
    } else {
      RunKeepsInv(n, acts[..|acts| - 1]);
      DoKeepsInv(Run(n, acts[..|acts| - 1]).value, n, acts[|acts| - 1]);
    }
  }

  // ----- the guarantees -----

  /** Grace period: in every interleaving, whatever is freed was retired before
      by the same processor, and every processor that was inside an operation
      when it was retired has since entered quiescence or read the epoch again. */
  lemma GracePeriod(n: nat, acts: seq<Action>, k: nat)
    requires n > 0 && Run(n, acts).Some?
    requires k < |Run(n, acts).value.log| && Run(n, acts).value.log[k].Freed?
    ensures var log := Run(n, acts).value.log;
      var i := log[k].token;
      && i < k && log[i].Retired? && log[i].p == log[k].p
      && forall r :: 0 <= r < n && InOperation(log, i, r) ==>
           exists m :: i < m < k && (log[m] == Entered(r) || log[m] == ReadEpoch(r))
  {
    hide Run, InOperation, GraceOk, ProcOk, Readers;
    RunKeepsInv(n, acts);
    var log := Run(n, acts).value.log;
    var i := log[k].token;
    forall r | 0 <= r < n && InOperation(log, i, r)
      ensures exists m :: i < m < k && (log[m] == Entered(r) || log[m] == ReadEpoch(r))
    {
      assert log == log[..k] + log[k..];
      InOperationFrame(log[..k], log[k..], i, r);
      assert Moved(log[..k], i, r);
      var m :| i < m < |log[..k]| && (log[..k][m] == Entered(r) || log[..k][m] == ReadEpoch(r));
      assert log[m] == log[..k][m];
    }
  }

  // ----- nothing is lost, nothing is freed twice -----

  /** The tokens p has retired, oldest first. */
  ghost function RetiredBy(log: seq<Event>, p: nat): seq<nat> {
    if log == [] then []
    else
      var front := RetiredBy(log[..|log| - 1], p);
      if log[|log| - 1].Retired? && log[|log| - 1].p == p then front + [|log| - 1] else front
  }

  /** The tokens p has freed, in order. */
  ghost function FreedBy(log: seq<Event>, p: nat): seq<nat> {
    if log == [] then []
    else
      var front := FreedBy(log[..|log| - 1], p);
      if log[|log| - 1].Freed? && log[|log| - 1].p == p then front + [log[|log| - 1].token] else front
  }

  /** The tokens waiting in p's three limbo bags. */
  ghost function Waiting(l: Local): multiset<nat>
    requires |l.bags| == 3
  {
    multiset(l.bags[0]) + multiset(l.bags[1]) + multiset(l.bags[2])
  }

  ghost predicate Balanced(log: seq<Event>, p: nat, l: Local)
    requires |l.bags| == 3
  {
    multiset(RetiredBy(log, p)) == multiset(FreedBy(log, p)) + Waiting(l)
  }

  lemma Snoc(log: seq<Event>, e: Event, p: nat)
    ensures RetiredBy(log + [e], p) == RetiredBy(log, p) + (if e.Retired? && e.p == p then [|log|] else [])
    ensures FreedBy(log + [e], p) == FreedBy(log, p) + (if e.Freed? && e.p == p then [e.token] else [])
  {
    assert (log + [e])[..|log|] == log;
  }

  lemma FreeAllStep(log: seq<Event>, p: nat, tokens: seq<nat>)
    requires tokens != []
    ensures log + FreeAll(p, tokens) == (log + [Freed(p, tokens[0])]) + FreeAll(p, tokens[1..])
  {
  }

  lemma {:induction false} FreeAllTokens(log: seq<Event>, p: nat, tokens: seq<nat>, r: nat)
    ensures RetiredBy(log + FreeAll(p, tokens), r) == RetiredBy(log, r)
    ensures FreedBy(log + FreeAll(p, tokens), r) == FreedBy(log, r) + (if r == p then tokens else [])
    decreases |tokens|
  {
    hide RetiredBy, FreedBy, FreeAll;
    if tokens == [] {
      assert log + FreeAll(p, tokens) == log;
    } else {
      var e := Freed(p, tokens[0]);
      FreeAllStep(log, p, tokens);
      FreeAllTokens(log + [e], p, tokens[1..], r);
      Snoc(log, e, r);
      SplitFirst(FreedBy(log, r), tokens);
    }
  }

  lemma SplitFirst(front: seq<nat>, tokens: seq<nat>)
    requires tokens != []
    ensures front + tokens == front + [tokens[0]] + tokens[1..]
  {
  }

  lemma RotationWaiting(l: Local)
    requires |l.bags| == 3 && l.limboIdx < 3
    ensures Waiting(Rotation(l)) + multiset(l.bags[(l.limboIdx + 1) % 3]) == Waiting(l)
  {
  }

  lemma RetireWaiting(l: Local, i: nat)
    requires |l.bags| == 3 && l.limboIdx < 3
    ensures Waiting(l.(bags := l.bags[l.limboIdx := l.bags[l.limboIdx] + [i]])) == Waiting(l) + multiset{i}
  {
  }

  lemma RotateBalanced(log: seq<Event>, p: nat, l: Local)
    requires |l.bags| == 3 && l.limboIdx < 3 && Balanced(log, p, l)
    ensures |Rotation(l).bags| == 3 && Balanced(log + FreeAll(p, l.bags[(l.limboIdx + 1) % 3]), p, Rotation(l))
  {
    hide RetiredBy, FreedBy, Waiting, FreeAll;
    RotationShape(l);
    FreeAllTokens(log, p, l.bags[(l.limboIdx + 1) % 3], p);
    RotationWaiting(l);
  }

  lemma MarkBalanced(log: seq<Event>, e: Event, r: nat, l: Local)
    requires |l.bags| == 3 && Balanced(log, r, l)
    requires !e.Freed? && (e.Retired? ==> e.p != r)
    ensures Balanced(log + [e], r, l)
  {
    hide Waiting, RetiredBy, FreedBy;
    Snoc(log, e, r);
  }

  lemma RetireBalanced(log: seq<Event>, p: nat, ptr: int, epoch: nat, l: Local)
    requires |l.bags| == 3 && l.limboIdx < 3 && Balanced(log, p, l)
    ensures Balanced(log + [Retired(p, ptr, epoch)], p, l.(bags := l.bags[l.limboIdx := l.bags[l.limboIdx] + [|log|]]))
  {
    hide Waiting, RetiredBy, FreedBy;
    Snoc(log, Retired(p, ptr, epoch), p);
    RetireWaiting(l, |log|);
  }

  lemma DoBalanced(s: State, a: Action, r: nat)
    requires Enabled(s, a) && r < NumProcs(s) && Balanced(s.log, r, s.local[r])
    ensures Balanced(Do(s, a).log, r, Do(s, a).local[r])
  {
    hide Balanced, FreeAll, Rotation;
    var p, l := a.p, s.local[a.p];
    match a
    case Enter(_) => MarkBalanced(s.log, Entered(p), r, s.local[r]);
    case Retire(_, ptr) =>
      if r == p {
        RetireBalanced(s.log, p, ptr, s.epoch, l);
      } else {
        MarkBalanced(s.log, Retired(p, ptr, s.epoch), r, s.local[r]);
      }
    case LoadEpoch(_) => MarkBalanced(s.log, ReadEpoch(p), r, s.local[r]);
    case Rotate(_) =>
      if r == p {
        RotateBalanced(s.log, p, l);
      } else {
        OtherBalanced(s.log, p, l.bags[(l.limboIdx + 1) % 3], r, s.local[r]);
      }
    case Observe(_) => WaitingSame(s.log, l, l.(checkNext := l.checkNext + 1), p);
    case Advance(_) =>
    case Announce(_) => MarkBalanced(s.log, Announced(p), r, s.local[r]);
  }

  lemma OtherBalanced(log: seq<Event>, p: nat, tokens: seq<nat>, r: nat, l: Local)
    requires |l.bags| == 3 && Balanced(log, r, l) && r != p
    ensures Balanced(log + FreeAll(p, tokens), r, l)
  {
    hide RetiredBy, FreedBy, Waiting, FreeAll;
    FreeAllTokens(log, p, tokens, r);
  }

  lemma WaitingSame(log: seq<Event>, l: Local, l': Local, r: nat)
    requires |l.bags| == 3 && l'.bags == l.bags
    ensures Balanced(log, r, l) ==> Balanced(log, r, l')
  {
  }

  lemma {:induction false} RetiredByIncreases(log: seq<Event>, p: nat)
    ensures forall k :: 0 <= k < |RetiredBy(log, p)| ==> RetiredBy(log, p)[k] < |log|
    ensures Increases(RetiredBy(log, p))
    decreases |log|
  {
    if log == [] {
    } else {
      RetiredByIncreases(log[..|log| - 1], p);
    }
  }

  /** Conservation: in every run the pointers a processor retired are exactly
      those it freed together with those in its limbo bags, each once. */
  lemma {:induction false} EachFreedOnce(n: nat, acts: seq<Action>, p: nat)
    requires n > 0 && Run(n, acts).Some? && p < n
    ensures var s := Run(n, acts).value;
      && Shaped(s) && NumProcs(s) == n
      && multiset(RetiredBy(s.log, p)) == multiset(FreedBy(s.log, p)) + Waiting(s.local[p])
      && forall i: nat :: multiset(FreedBy(s.log, p))[i] + Waiting(s.local[p])[i] <= 1
    decreases |acts|
  {
    hide Do, Waiting, ProcOk, Readers, GraceOk, FreesOk;
    RunKeepsInv(n, acts);
    var s := Run(n, acts).value;
    if acts == [] {
      InitBalanced(n, p);
    } else {
      EachFreedOnce(n, acts[..|acts| - 1], p);
      DoBalanced(Run(n, acts[..|acts| - 1]).value, acts[|acts| - 1], p);
    }
    RetiredByIncreases(s.log, p);
    forall i: nat ensures multiset(FreedBy(s.log, p))[i] + Waiting(s.local[p])[i] <= 1 {
      AtMostOnce(RetiredBy(s.log, p), i);
      assert multiset(RetiredBy(s.log, p))[i] == multiset(FreedBy(s.log, p))[i] + Waiting(s.local[p])[i];
    }
  }

  lemma InitBalanced(n: nat, p: nat)
    requires p < n
    ensures Balanced(Init(n).log, p, Init(n).local[p])
  {
  }
}
