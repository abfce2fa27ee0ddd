/**
 The shared record of epoch-based reclamation and its three calls, over the
 machine of module Ebr. Between two shared accesses of a call, any number of
 actions of other processors happen (Others). Every call leaves the record in a
 state that the machine reaches, so the guarantees of Ebr hold of it.
 */
module EbrCalls {
  import opened Options
  import opened Ebr

  /** The actions of processor p, in order. */
  ghost function Mine(acts: seq<Action>, p: nat): seq<Action> {
    if acts == [] then []
    else
      var front := Mine(acts[..|acts| - 1], p);
      if acts[|acts| - 1].p == p then front + [acts[|acts| - 1]] else front
  }

  lemma MineSnoc(acts: seq<Action>, a: Action, p: nat)
    ensures Mine(acts + [a], p) == Mine(acts, p) + (if a.p == p then [a] else [])
  {
    assert (acts + [a])[..|acts|] == acts;
  }

  lemma RunSnoc(n: nat, acts: seq<Action>, s: State, a: Action)
    requires Run(n, acts) == Some(s) && Enabled(s, a)
    ensures Run(n, acts + [a]) == Some(Do(s, a))
  {
    hide Do, Enabled;
    assert (acts + [a])[..|acts|] == acts;
  }

  class EbrShared {
    const procs: nat
    var epoch: nat
    const announce: array<Announcement>
    const local: array<Local>
    var pcs: seq<Pc>          // where each processor is in its current call
    var log: seq<Event>
    var acts: seq<Action>     // everything that has happened, by anyone

    function View(): State
      reads this, announce, local
    {
      State(epoch, announce[..], local[..], pcs, log)
    }

    ghost predicate Valid()
      reads this, announce, local
    {
      procs > 0 && announce.Length == procs && local.Length == procs
      && Run(procs, acts) == Some(View())
      && Shaped(View())
    }

    constructor (n: nat)
      requires n > 0
      ensures Valid() && fresh(announce) && fresh(local)
      ensures procs == n && acts == [] && log == [] && forall p :: 0 <= p < n ==> pcs[p] == Idle
    {
      procs := n;
      epoch := 0;
      announce := new Announcement[n](_ => Announcement(0, false));
      local := new Local[n](_ => Local(0, 0, [[], [], []]));
      pcs := seq(n, _ => Idle);
      log := [];
      acts := [];
      new;
      assert View() == Init(n);
    }

    /** EBR_enterQuiescentState. */
    method EnterQuiescentState(p: nat)
      requires Valid() && p < procs && pcs[p].Idle?
      modifies this, announce
      ensures Valid()
      ensures acts == old(acts) + [Enter(p)] && pcs == old(pcs) && log == old(log) + [Entered(p)]
      ensures announce[p] == Announcement(old(announce[p].epoch), true)
    {
      hide Run;
      RunSnoc(procs, acts, View(), Enter(p));
      announce[p] := announce[p].(quiescent := true);
      log := log + [Entered(p)];
      acts := acts + [Enter(p)];
    }

    /** EBR_retire: the pointer joins the current limbo bag. */
    method Retire(p: nat, ptr: int)
      requires Valid() && p < procs && pcs[p].Idle?
      modifies this, local
      ensures Valid()
      ensures acts == old(acts) + [Action.Retire(p, ptr)] && pcs == old(pcs)
      ensures log == old(log) + [Retired(p, ptr, epoch)]
    {
      hide Run;
      RunSnoc(procs, acts, View(), Action.Retire(p, ptr));
      var l := local[p];
      local[p] := l.(bags := l.bags[l.limboIdx := l.bags[l.limboIdx] + [|log|]]);
      log := log + [Retired(p, ptr, epoch)];
      acts := acts + [Action.Retire(p, ptr)];
    }

    /** One action of somebody, taken whole. */
    method Step(a: Action)
      requires Valid() && Enabled(View(), a)
      modifies this, announce, local
      ensures Valid() && acts == old(acts) + [a] && View() == Do(old(View()), a)
    {
      hide Run;
      RunSnoc(procs, acts, View(), a);
      var s := Do(View(), a);
      epoch, pcs, log := s.epoch, s.pcs, s.log;
      forall i | 0 <= i < procs { announce[i] := s.announce[i]; }
      forall i | 0 <= i < procs { local[i] := s.local[i]; }
      acts := acts + [a];
      assert announce[..] == s.announce && local[..] == s.local;
    }

    /** Any number of actions of processors other than p. */
    method Others(p: nat)
      requires Valid() && p < procs
      modifies this, announce, local
      ensures Valid() && old(acts) <= acts && Mine(acts, p) == Mine(old(acts), p)
      ensures pcs[p] == old(pcs[p]) && announce[p] == old(announce[p]) && local[p] == old(local[p])
      ensures epoch >= old(epoch)
    {
      hide Mine, Run;
      var turns: nat := *;
      while turns > 0
        invariant Valid() && old(acts) <= acts && Mine(acts, p) == Mine(old(acts), p)
        invariant pcs[p] == old(pcs[p]) && announce[p] == old(announce[p]) && local[p] == old(local[p])
        invariant epoch >= old(epoch)
      {
        var a: Action := *;
        if a.p != p && Enabled(View(), a) {
          MineSnoc(acts, a, p);
          StepOfOther(View(), a, p);
          ghost var before := View();
          Step(a);
          assert View().announce[p] == before.announce[p] && View().local[p] == before.local[p];
        }
        turns := turns - 1;
      }
    }

    /** rotateAndReclaim: move to the next limbo bag, free what it held, and
        clear it. */
    method RotateAndReclaim(p: nat)
      requires Shaped(View()) && local.Length == announce.Length && p < local.Length
      modifies this`log, local
      ensures local[..] == old(local[..])[p := Rotation(old(local[p])).(checkNext := old(local[p].checkNext))]
      ensures log == old(log) + FreeAll(p, old(local[p].bags[(local[p].limboIdx + 1) % 3]))
    {
      var limboIdx := (local[p].limboIdx + 1) % 3;
      local[p] := local[p].(limboIdx := limboIdx);
      var bag := local[p].bags[limboIdx];
      var k := 0;
      while k < |bag|
        modifies this`log
        invariant k <= |bag|
        invariant log == old(log) + FreeAll(p, bag[..k])
      {
        log := log + [Freed(p, bag[k])];
        assert bag[..k + 1][..k] == bag[..k];
        k := k + 1;
      }
      assert bag[..k] == bag;
      local[p] := local[p].(bags := local[p].bags[limboIdx := []]);
    }

    /** EBR_leaveQuiescentState. Whatever the others do meanwhile, p performs
        exactly one load of the epoch, one rotation step, one observation, at
        most one attempt to advance, and one announcement of the epoch it read.
        It tries to advance exactly if what it observes, at that moment, is a
        quiescent processor or one that announces the epoch, and the last one. */
    method LeaveQuiescentState(p: nat) returns (globalEpoch: nat, tried: bool, ghost at: nat)
      requires Valid() && p < procs && pcs[p].Idle?
      modifies this, announce, local
      ensures Valid() && old(acts) <= acts && pcs[p].Idle?
      ensures Mine(acts, p) == Mine(old(acts), p)
        + [LoadEpoch(p), Rotate(p), Observe(p)] + (if tried then [Advance(p)] else []) + [Announce(p)]
      ensures globalEpoch == old(epoch) && announce[p] == Announcement(globalEpoch, false)
      ensures tried ==> epoch > globalEpoch
      ensures old(|acts|) <= at < |acts| && acts[at] == Observe(p)
      ensures Run(procs, acts[..at]).Some? && |Run(procs, acts[..at]).value.announce| == procs
      ensures var c := if old(announce[p].epoch) == globalEpoch then old(local[p].checkNext) else 0;
        var other := Run(procs, acts[..at]).value.announce[c % procs];
        && (tried <==> (other.quiescent || other.epoch == globalEpoch) && c + 1 >= procs)
        && local[p].checkNext == c + (if other.quiescent || other.epoch == globalEpoch then 1 else 0)
    {
      hide *;
      globalEpoch := LoadStep(p);
      Others(p);
      RotateStep(p, globalEpoch);
      Others(p);
      ghost var other;
      at := |acts|;
      ViewIs();
      ghost var till := acts;
      tried, other := ObserveStep(p, globalEpoch);
      assert acts[..at] == till;
      Others(p);
      if tried {
        CasStep(p, globalEpoch);
        Others(p);
      }
      AnnounceStep(p, globalEpoch);
      assert acts[..at] == till;
    }

    lemma ViewIs()
      requires Valid()
      ensures Run(procs, acts).Some? && Run(procs, acts).value.announce == announce[..] && announce.Length == procs
      ensures procs > 0
    {
    }

    method LoadStep(p: nat) returns (globalEpoch: nat)
      requires Valid() && p < procs && pcs[p].Idle?
      modifies this
      ensures Valid() && acts == old(acts) + [LoadEpoch(p)] && pcs[p] == HasEpoch(globalEpoch)
      ensures epoch == old(epoch) && globalEpoch == epoch
      ensures Mine(acts, p) == Mine(old(acts), p) + [LoadEpoch(p)]
    {
      hide Run, Mine;
      RunSnoc(procs, acts, View(), LoadEpoch(p));
      MineSnoc(acts, LoadEpoch(p), p);
      globalEpoch := epoch;
      pcs := pcs[p := HasEpoch(globalEpoch)];
      log := log + [ReadEpoch(p)];
      acts := acts + [LoadEpoch(p)];
    }

    method RotateStep(p: nat, globalEpoch: nat)
      requires Valid() && p < procs && pcs[p] == HasEpoch(globalEpoch)
      modifies this, local
      ensures Valid() && acts == old(acts) + [Rotate(p)] && pcs[p] == Rotated(globalEpoch)
      ensures epoch == old(epoch) && p < local.Length
      ensures local[p].checkNext == if announce[p].epoch == globalEpoch then old(local[p].checkNext) else 0
      ensures Mine(acts, p) == Mine(old(acts), p) + [Rotate(p)]
    {
      hide Run, Mine, FreeAll;
      RunSnoc(procs, acts, View(), Rotate(p));
      MineSnoc(acts, Rotate(p), p);
      ghost var before := View();
      Legal();
      assert globalEpoch >= announce[p].epoch;
      if announce[p].epoch != globalEpoch {
        local[p] := local[p].(checkNext := 0);
        RotateAndReclaim(p);
      }
      pcs := pcs[p := Rotated(globalEpoch)];
      acts := acts + [Rotate(p)];
      assert View() == Do(before, Rotate(p));
    }

    /** Look at one announcement; answers whether all have been seen. */
    method ObserveStep(p: nat, globalEpoch: nat) returns (all: bool, ghost otherann: Announcement)
      requires Valid() && p < procs && pcs[p] == Rotated(globalEpoch)
      modifies this, local
      ensures Valid() && acts == old(acts) + [Observe(p)]
      ensures pcs[p] == (if all then Scanned(globalEpoch) else Announcing(globalEpoch))
      ensures announce.Length == local.Length == procs
      ensures var c := old(local[p].checkNext);
        && otherann == announce[c % procs]
        && (all <==> (otherann.quiescent || otherann.epoch == globalEpoch) && c + 1 >= procs)
        && local[p].checkNext == c + (if otherann.quiescent || otherann.epoch == globalEpoch then 1 else 0)
      ensures epoch == old(epoch)
      ensures Mine(acts, p) == Mine(old(acts), p) + [Observe(p)]
    {
      hide Run, Mine;
      RunSnoc(procs, acts, View(), Observe(p));
      MineSnoc(acts, Observe(p), p);
      ghost var before := View();
      var otherpid := local[p].checkNext % procs;
      var ann := announce[otherpid];
      otherann := ann;
      all := false;
      if ann.epoch == globalEpoch || ann.quiescent {
        var c := local[p].checkNext + 1;
        local[p] := local[p].(checkNext := c);
        all := c >= procs;
      }
      pcs := pcs[p := if all then Scanned(globalEpoch) else Announcing(globalEpoch)];
      acts := acts + [Observe(p)];
      assert View() == Do(before, Observe(p));
    }

    method CasStep(p: nat, globalEpoch: nat)
      requires Valid() && p < procs && pcs[p] == Scanned(globalEpoch)
      modifies this
      ensures Valid() && acts == old(acts) + [Advance(p)] && pcs[p] == Announcing(globalEpoch)
      ensures epoch > globalEpoch
      ensures Mine(acts, p) == Mine(old(acts), p) + [Advance(p)]
    {
      hide Run, Mine;
      Legal();
      RunSnoc(procs, acts, View(), Advance(p));
      MineSnoc(acts, Advance(p), p);
      if epoch == globalEpoch { epoch := globalEpoch + 1; }
      pcs := pcs[p := Announcing(globalEpoch)];
      acts := acts + [Advance(p)];
    }

    method AnnounceStep(p: nat, globalEpoch: nat)
      requires Valid() && p < procs && pcs[p] == Announcing(globalEpoch)
      modifies this, announce
      ensures Valid() && acts == old(acts) + [Announce(p)] && pcs[p] == Idle
      ensures epoch == old(epoch) && announce[p] == Announcement(globalEpoch, false)
      ensures Mine(acts, p) == Mine(old(acts), p) + [Announce(p)]
    {
      hide Run, Mine;
      RunSnoc(procs, acts, View(), Announce(p));
      MineSnoc(acts, Announce(p), p);
      announce[p] := Announcement(globalEpoch, false);
      log := log + [Announced(p)];
      pcs := pcs[p := Idle];
      acts := acts + [Announce(p)];
    }

    /** The runtime's own assertion: an epoch that was announced or read is
        never ahead of the global one. */
    lemma Legal()
      requires Valid()
      ensures forall p :: 0 <= p < procs ==> EpochsOk(epoch, announce[p], pcs[p])
    {
      hide Run, MarksOk, ScanOk, BagsOk, GraceOk, FreesOk, Readers;
      RunKeepsInv(procs, acts);
      forall p | 0 <= p < procs ensures EpochsOk(epoch, announce[p], pcs[p]) {
        assert ProcOk(View(), p);
      }
    }
  }

  lemma StepOfOther(s: State, a: Action, p: nat)
    requires Enabled(s, a) && p < NumProcs(s) && a.p != p
    ensures var s' := Do(s, a);
      && Shaped(s') && NumProcs(s') == NumProcs(s)
      && s'.pcs[p] == s.pcs[p] && s'.announce[p] == s.announce[p] && s'.local[p] == s.local[p]
  {
  }

  // ----- the scan counter -----

  /** checkNext never passes the number of processors, so its 32 bits suffice. */
  ghost predicate CounterOk(procs: nat, epoch: nat, ann: Announcement, pc: Pc, checkNext: nat) {
    && checkNext <= procs
    && (pc.Rotated? || (pc.HasEpoch? && pc.g == ann.epoch) ==> checkNext < procs)
    && (checkNext == procs && !pc.Scanned? ==> ScanEpoch(ann, pc) < epoch)
  }

  ghost predicate CountersOk(s: State) {
    Shaped(s) && forall p :: 0 <= p < NumProcs(s) ==>
      EpochsOk(s.epoch, s.announce[p], s.pcs[p]) &&
      CounterOk(NumProcs(s), s.epoch, s.announce[p], s.pcs[p], s.local[p].checkNext)
  }

  lemma CountersKept(s: State, a: Action)
    requires CountersOk(s) && Enabled(s, a)
    ensures CountersOk(Do(s, a))
  {
    hide FreeAll;
    var s', p := Do(s, a), a.p;
    if p < NumProcs(s) {
      assert CounterOk(NumProcs(s), s.epoch, s.announce[p], s.pcs[p], s.local[p].checkNext);
      assert EpochsOk(s.epoch, s.announce[p], s.pcs[p]);
    }
  }

  lemma {:induction false} ScanCounterBounded(n: nat, acts: seq<Action>, p: nat)
    requires n > 0 && Run(n, acts).Some? && p < n
    ensures CountersOk(Run(n, acts).value) && NumProcs(Run(n, acts).value) == n
    ensures Run(n, acts).value.local[p].checkNext <= n
    decreases |acts|
  {
    hide Do, Enabled;
    if acts == [] {
    } else {
      ScanCounterBounded(n, acts[..|acts| - 1], p);
      CountersKept(Run(n, acts[..|acts| - 1]).value, acts[|acts| - 1]);
      SizeKept(Run(n, acts[..|acts| - 1]).value, acts[|acts| - 1]);
    }
  }

  lemma SizeKept(s: State, a: Action)
    requires Enabled(s, a)
    ensures NumProcs(Do(s, a)) == NumProcs(s)
  {
  }
}
