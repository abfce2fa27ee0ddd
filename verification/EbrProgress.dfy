/**
 Progress of epoch-based reclamation: the epoch rises although some processors
 stay away, and what has been retired is freed.
 */
module EbrProgress {
  import opened Options
  import opened Ebr
  import opened EbrCalls

  /** How many calls processor p completes. */
  function Leaves(acts: seq<Action>, p: nat): nat {
    if acts == [] then 0
    else Leaves(acts[..|acts| - 1], p) + (if acts[|acts| - 1] == Announce(p) then 1 else 0)
  }

  /** The others hold nothing up: each is quiescent or announces this epoch. */
  ghost predicate OthersFollow(s: State, p: nat) {
    forall r :: 0 <= r < |s.announce| && r != p ==> s.announce[r].quiescent || s.announce[r].epoch == s.epoch
  }

  /** A stretch of a run in which p, between two calls at its start, completes
      that many calls, and the others hold nothing up as long as the epoch is the
      one at the start. Otherwise they may do whatever they like. */
  ghost predicate Stretch(n: nat, before: seq<Action>, during: seq<Action>, p: nat, calls: nat) {
    && p < n && Run(n, before).Some? && Run(n, before + during).Some?
    && p < |Run(n, before).value.pcs| && Run(n, before).value.pcs[p].Idle?
    && Leaves(during, p) >= calls
    && forall k :: 0 <= k <= |during| ==> Unhindered(n, before, during, p, k)
  }

  ghost predicate Unhindered(n: nat, before: seq<Action>, during: seq<Action>, p: nat, k: nat)
    requires k <= |during| && Run(n, before).Some?
  {
    var s := Run(n, before + during[..k]);
    s.Some? && s.value.epoch == Run(n, before).value.epoch ==> OthersFollow(s.value, p)
  }

  // ----- the epoch rises -----

  /** Where the scan of epoch e is after c completed calls. */
  ghost predicate ScanGoes(s: State, p: nat, e: nat, n: nat, c: nat) {
    && CountersOk(s) && NumProcs(s) == n && p < n && s.epoch >= e
    && (c > n ==> s.epoch > e)
    && (c > n && !s.pcs[p].Idle? ==> s.pcs[p].g > e)
    && (c > n + 1 ==> s.announce[p].epoch > e)
    && (s.epoch == e ==> ScanAt(s.announce[p], s.pcs[p], s.local[p].checkNext, e, c))
  }

  ghost predicate ScanAt(ann: Announcement, pc: Pc, checkNext: nat, e: nat, c: nat) {
    && (!pc.Idle? ==> pc.g == e)
    && (c > 0 ==> ann.epoch == e && checkNext + 1 >= c + (if pc.Announcing? || pc.Scanned? then 1 else 0))
  }

  lemma ScanGoesOn(s: State, a: Action, p: nat, e: nat, n: nat, c: nat)
    requires ScanGoes(s, p, e, n, c) && Enabled(s, a) && (s.epoch == e ==> OthersFollow(s, p))
    ensures ScanGoes(Do(s, a), p, e, n, c + (if a == Announce(p) then 1 else 0))
  {
    CountersKept(s, a);
    hide FreeAll, Rotation;
  }

  lemma LeavesSnoc(acts: seq<Action>, k: nat, p: nat)
    requires k < |acts|
    ensures Leaves(acts[..k + 1], p) == Leaves(acts[..k], p) + (if acts[k] == Announce(p) then 1 else 0)
  {
    assert acts[..k + 1][..k] == acts[..k];
  }

  /** One action of a run. */
  lemma OneAction(n: nat, before: seq<Action>, during: seq<Action>, k: nat)
    requires k < |during| && Run(n, before + during[..k + 1]).Some?
    ensures var s := Run(n, before + during[..k]);
      s.Some? && Enabled(s.value, during[k]) && Run(n, before + during[..k + 1]) == Some(Do(s.value, during[k]))
  {
    hide Do, Enabled;
    var acts := before + during[..k + 1];
    assert acts[..|acts| - 1] == before + during[..k] && acts[|acts| - 1] == during[k];
  }

  lemma {:induction false} ScanGoesFar(n: nat, before: seq<Action>, during: seq<Action>, p: nat, k: nat)
    requires Stretch(n, before, during, p, 0) && k <= |during|
    ensures Run(n, before + during[..k]).Some?
    ensures ScanGoes(Run(n, before + during[..k]).value, p, Run(n, before).value.epoch, n, Leaves(during[..k], p))
    decreases k
  {
    hide Run, Do, Enabled, ScanGoes, OthersFollow;
    RunPrefix(n, before, during, k);
    var e := Run(n, before).value.epoch;
    if k == 0 {
      assert before + during[..0] == before;
      ScanCounterBounded(n, before, p);
      assert ScanGoes(Run(n, before).value, p, e, n, 0) by { ScanStarts(Run(n, before).value, p, n); }
    } else {
      ScanGoesFar(n, before, during, p, k - 1);
      OneAction(n, before, during, k - 1);
      LeavesSnoc(during, k - 1, p);
      assert Unhindered(n, before, during, p, k - 1);
      ScanGoesOn(Run(n, before + during[..k - 1]).value, during[k - 1], p, e, n, Leaves(during[..k - 1], p));
    }
  }

  lemma ScanStarts(s: State, p: nat, n: nat)
    requires CountersOk(s) && NumProcs(s) == n && p < n && s.pcs[p].Idle?
    ensures ScanGoes(s, p, s.epoch, n, 0)
  {
  }

  lemma {:induction false} RunPrefix(n: nat, before: seq<Action>, during: seq<Action>, k: nat)
    requires Run(n, before + during).Some? && k <= |during|
    ensures Run(n, before + during[..k]).Some?
    decreases |during| - k
  {
    hide Run, Do, Enabled;
    if k == |during| {
      assert during[..k] == during;
    } else {
      RunPrefix(n, before, during, k + 1);
      OneAction(n, before, during, k);
    }
  }

  /** Progress: as many calls as there are processors and one more raise the
      epoch, although the others do nothing, and one more call announces it. */
  lemma EpochRises(n: nat, before: seq<Action>, during: seq<Action>, p: nat, calls: nat)
    requires Stretch(n, before, during, p, calls) && calls >= n + 1
    ensures Run(n, before + during).value.epoch > Run(n, before).value.epoch
    ensures calls >= n + 2 ==>
              p < |Run(n, before + during).value.announce|
              && Run(n, before + during).value.announce[p].epoch > Run(n, before).value.epoch
  {
    hide Run;
    ScanGoesFar(n, before, during, p, |during|);
    assert during[..|during|] == during;
  }

  // ----- what was retired is freed -----

  ghost predicate IsFreed(log: seq<Event>, p: nat, i: nat) { Freed(p, i) in log }

  /** The token i has been freed, or has waited for that many rotations. */
  ghost predicate Waited(s: State, p: nat, i: nat, rotations: nat)
    requires Shaped(s) && p < NumProcs(s)
  {
    || IsFreed(s.log, p, i)
    || exists b :: 0 <= b < 3 && i in s.local[p].bags[b] && rotations <= Age(s.local[p].limboIdx, b)
  }

  lemma WaitsOn(s: State, a: Action, p: nat, i: nat, rotations: nat)
    requires Enabled(s, a) && p < NumProcs(s) && Waited(s, p, i, rotations)
    ensures Shaped(Do(s, a)) && p < NumProcs(Do(s, a)) && Waited(Do(s, a), p, i, rotations)
    ensures a == Rotate(p) && s.pcs[p].g != s.announce[p].epoch ==> Waited(Do(s, a), p, i, rotations + 1)
  {
    hide FreeAll;
    var s' := Do(s, a);
    if IsFreed(s.log, p, i) {
      assert IsFreed(s'.log, p, i);
    } else {
      var b :| 0 <= b < 3 && i in s.local[p].bags[b] && rotations <= Age(s.local[p].limboIdx, b);
      if a == Rotate(p) && s.pcs[p].g != s.announce[p].epoch {
        Ages(s.local[p].limboIdx, b);
        if b == (s.local[p].limboIdx + 1) % 3 {
          AllFreed(p, s.local[p].bags[b], i);
          assert IsFreed(s'.log, p, i);
        } else {
          assert i in s'.local[p].bags[b];
        }
      } else {
        assert i in s'.local[p].bags[b];
      }
    }
  }

  lemma AllFreed(p: nat, tokens: seq<nat>, i: nat)
    requires i in tokens
    ensures Freed(p, i) in FreeAll(p, tokens)
  {
    var k :| 0 <= k < |tokens| && tokens[k] == i;
    assert FreeAll(p, tokens)[k] == Freed(p, i);
  }

  /** If p has gone on from epoch e the token has waited for a rotation more. */
  ghost predicate Ripens(s: State, p: nat, i: nat, e: nat, rotations: nat, n: nat) {
    && CountersOk(s) && NumProcs(s) == n && p < n && Waited(s, p, i, rotations)
    && (ScanEpoch(s.announce[p], s.pcs[p]) > e ==> Waited(s, p, i, rotations + 1))
  }

  lemma RipensOn(s: State, a: Action, p: nat, i: nat, e: nat, rotations: nat, n: nat)
    requires Ripens(s, p, i, e, rotations, n) && Enabled(s, a)
    ensures Ripens(Do(s, a), p, i, e, rotations, n)
  {
    CountersKept(s, a);
    SizeKept(s, a);
    WaitsOn(s, a, p, i, rotations);
    if ScanEpoch(s.announce[p], s.pcs[p]) > e { WaitsOn(s, a, p, i, rotations + 1); }
    hide Waited, FreeAll, Rotation, CounterOk;
  }

  lemma {:induction false} RipensFar(n: nat, before: seq<Action>, during: seq<Action>, p: nat, i: nat, e: nat,
                                     rotations: nat, k: nat)
    requires Run(n, before).Some? && Run(n, before + during).Some? && k <= |during|
    requires Ripens(Run(n, before).value, p, i, e, rotations, n)
    ensures Run(n, before + during[..k]).Some? && Ripens(Run(n, before + during[..k]).value, p, i, e, rotations, n)
    decreases k
  {
    hide Run, Do, Enabled, Ripens;
    RunPrefix(n, before, during, k);
    if k == 0 {
      assert before + during[..0] == before;
    } else {
      RipensFar(n, before, during, p, i, e, rotations, k - 1);
      OneAction(n, before, during, k - 1);
      RipensOn(Run(n, before + during[..k - 1]).value, during[k - 1], p, i, e, rotations, n);
    }
  }

  /** Every stretch brings a rotation. */
  lemma StretchRotates(n: nat, before: seq<Action>, during: seq<Action>, p: nat, i: nat, rotations: nat)
    requires Stretch(n, before, during, p, n + 2) && Waits(n, before, p, i, rotations)
    ensures Waits(n, before + during, p, i, rotations + 1)
  {
    hide Run, Waited, CounterOk;
    var s := Run(n, before).value;
    RipensFar(n, before, during, p, i, s.announce[p].epoch, rotations, |during|);
    EpochRises(n, before, during, p, n + 2);
    assert during[..|during|] == during;
    ScanCounterBounded(n, before, p);
    ScanCounterBounded(n, before + during, p);
    Announced(Run(n, before + during).value, p);
  }

  lemma Announced(s: State, p: nat)
    requires CountersOk(s) && p < NumProcs(s)
    ensures s.announce[p].epoch <= ScanEpoch(s.announce[p], s.pcs[p]) && s.announce[p].epoch <= s.epoch
  {
  }

  /** Where a token is when the run so far is over. */
  ghost predicate Waits(n: nat, acts: seq<Action>, p: nat, i: nat, rotations: nat) {
    Run(n, acts).Some? && var s := Run(n, acts).value;
    Shaped(s) && CountersOk(s) && NumProcs(s) == n && p < n && Waited(s, p, i, rotations)
  }

  lemma Meanwhile(n: nat, before: seq<Action>, during: seq<Action>, p: nat, i: nat, rotations: nat)
    requires Run(n, before + during).Some? && Waits(n, before, p, i, rotations)
    ensures Waits(n, before + during, p, i, rotations)
  {
    hide Run, Waited, CounterOk;
    ScanCounterBounded(n, before, p);
    var s := Run(n, before).value;
    RipensFar(n, before, during, p, i, ScanEpoch(s.announce[p], s.pcs[p]), rotations, |during|);
    assert during[..|during|] == during;
  }

  lemma {:induction false} RetiredIsListed(log: seq<Event>, p: nat, i: nat)
    requires i < |log| && log[i].Retired? && log[i].p == p
    ensures i in RetiredBy(log, p)
    decreases |log|
  {
    if i == |log| - 1 {
    } else {
      RetiredIsListed(log[..|log| - 1], p, i);
    }
  }

  lemma {:induction false} FreedIsListed(log: seq<Event>, p: nat, i: nat)
    requires i in FreedBy(log, p)
    ensures Freed(p, i) in log
    decreases |log|
  {
    if log == [] {
    } else if log[|log| - 1] == Freed(p, i) {
    } else {
      FreedIsListed(log[..|log| - 1], p, i);
    }
  }

  lemma WaitsFirst(n: nat, acts: seq<Action>, p: nat, i: nat)
    requires n > 0 && p < n && Run(n, acts).Some?
    requires var log := Run(n, acts).value.log; i < |log| && log[i].Retired? && log[i].p == p
    ensures Waits(n, acts, p, i, 0)
  {
    hide Run, CounterOk, RetiredBy, FreedBy;
    ScanCounterBounded(n, acts, p);
    EachFreedOnce(n, acts, p);
    var s := Run(n, acts).value;
    RetiredIsListed(s.log, p, i);
    assert i in multiset(RetiredBy(s.log, p));
    if i in FreedBy(s.log, p) {
      FreedIsListed(s.log, p, i);
    } else {
      assert i in Waiting(s.local[p]);
      var b :| 0 <= b < 3 && i in s.local[p].bags[b];
    }
  }

  /** Nothing waits for ever: whatever p has retired is freed when three stretches
      are over, whatever happens before and between them. */
  lemma RetiredIsFreed(n: nat, before: seq<Action>, first: seq<Action>, between: seq<Action>, second: seq<Action>,
                       later: seq<Action>, third: seq<Action>, p: nat, i: nat)
    requires Stretch(n, before, first, p, n + 2)
    requires Stretch(n, before + first + between, second, p, n + 2)
    requires Stretch(n, before + first + between + second + later, third, p, n + 2)
    requires var log := Run(n, before).value.log; i < |log| && log[i].Retired? && log[i].p == p
    ensures Freed(p, i) in Run(n, before + first + between + second + later + third).value.log
  {
    hide *;
    var acts1 := before + first + between;
    var acts2 := acts1 + second + later;
    StretchFacts(n, before, first, p, n + 2);
    StretchFacts(n, acts1, second, p, n + 2);
    StretchFacts(n, acts2, third, p, n + 2);
    WaitsFirst(n, before, p, i);
    StretchRotates(n, before, first, p, i, 0);
    Meanwhile(n, before + first, between, p, i, 1);
    StretchRotates(n, acts1, second, p, i, 1);
    Meanwhile(n, acts1 + second, later, p, i, 2);
    StretchRotates(n, acts2, third, p, i, 2);
    WaitedLong(n, acts2 + third, p, i);
  }

  lemma StretchFacts(n: nat, before: seq<Action>, during: seq<Action>, p: nat, calls: nat)
    requires Stretch(n, before, during, p, calls)
    ensures p < n && Run(n, before).Some? && Run(n, before + during).Some?
  {
  }

  lemma WaitedLong(n: nat, acts: seq<Action>, p: nat, i: nat)
    requires Waits(n, acts, p, i, 3)
    ensures Run(n, acts).Some? && Freed(p, i) in Run(n, acts).value.log
  {
    hide Run, CountersOk;
  }

  // ----- there are such stretches -----

  ghost predicate Quiet(s: Option<State>, p: nat, n: nat) {
    && s.Some? && Shaped(s.value) && NumProcs(s.value) == n && p < n
    && forall r :: 0 <= r < n && r != p ==> s.value.announce[r].quiescent
  }

  /** Nobody but p does anything, and the others are quiescent throughout. */
  ghost predicate Alone(n: nat, before: seq<Action>, during: seq<Action>, p: nat) {
    && (forall k :: 0 <= k <= |during| ==> Quiet(Run(n, before + during[..k]), p, n))
    && forall k :: 0 <= k < |during| ==> during[k].p == p
  }

  lemma OwnStep(n: nat, before: seq<Action>, during: seq<Action>, a: Action, p: nat) returns (s: State, s': State)
    requires Alone(n, before, during, p) && a.p == p
    requires Run(n, before + during).Some? && Enabled(Run(n, before + during).value, a)
    ensures Run(n, before + during) == Some(s) && Run(n, before + (during + [a])) == Some(s') && s' == Do(s, a)
    ensures Quiet(Some(s'), p, n) && Alone(n, before, during + [a], p)
    ensures Leaves(during + [a], p) == Leaves(during, p) + (if a.Announce? then 1 else 0)
  {
    hide Run, Do, Enabled;
    var acts, longer := before + during, during + [a];
    s := Run(n, acts).value;
    s' := Do(s, a);
    assert before + longer == acts + [a];
    RunSnoc(n, acts, s, a);
    assert during[..|during|] == during && Quiet(Run(n, before + during[..|during|]), p, n);
    QuietKept(s, a, p, n);
    forall k | 0 <= k <= |longer| ensures Quiet(Run(n, before + longer[..k]), p, n) {
      if k <= |during| { assert longer[..k] == during[..k]; } else { assert longer[..k] == longer; }
    }
    assert longer[..|longer| - 1] == during;
  }

  lemma QuietKept(s: State, a: Action, p: nat, n: nat)
    requires Quiet(Some(s), p, n) && Enabled(s, a) && a.p == p
    ensures Quiet(Some(Do(s, a)), p, n)
  {
    if a.Rotate? { RotationShape(s.local[p]); }
    hide FreeAll, Rotation;
  }

  /** A call that nobody interferes with. */
  lemma OneCall(n: nat, before: seq<Action>, during: seq<Action>, p: nat) returns (longer: seq<Action>)
    requires Alone(n, before, during, p)
    requires Run(n, before + during).Some? && p < |Run(n, before + during).value.pcs|
    requires Run(n, before + during).value.pcs[p].Idle?
    ensures Alone(n, before, longer, p) && Leaves(longer, p) == Leaves(during, p) + 1 && |longer| <= |during| + 5
    ensures Run(n, before + longer).Some? && p < |Run(n, before + longer).value.pcs|
    ensures Run(n, before + longer).value.pcs[p].Idle?
  {
    hide Run, Leaves, FreeAll, Rotation;
    assert during[..|during|] == during && Quiet(Run(n, before + during[..|during|]), p, n);
    hide Alone;
    var s, s' := OwnStep(n, before, during, LoadEpoch(p), p);
    longer := during + [LoadEpoch(p)];
    s, s' := OwnStep(n, before, longer, Rotate(p), p);
    longer := longer + [Rotate(p)];
    s, s' := OwnStep(n, before, longer, Observe(p), p);
    longer := longer + [Observe(p)];
    if s'.pcs[p].Scanned? {
      s, s' := OwnStep(n, before, longer, Advance(p), p);
      longer := longer + [Advance(p)];
    }
    s, s' := OwnStep(n, before, longer, Announce(p), p);
    longer := longer + [Announce(p)];
  }

  /** Where all others are quiescent, p alone makes a stretch of any length, in at
      most five steps a call. */
  lemma {:induction false} AloneMakesStretch(n: nat, before: seq<Action>, p: nat, calls: nat)
    returns (during: seq<Action>)
    requires Quiet(Run(n, before), p, n) && Run(n, before).value.pcs[p].Idle?
    ensures Stretch(n, before, during, p, calls) && Alone(n, before, during, p) && |during| <= 5 * calls
    ensures Run(n, before + during).Some? && p < |Run(n, before + during).value.pcs|
    ensures Run(n, before + during).value.pcs[p].Idle?
    decreases calls
  {
    hide Run;
    if calls == 0 {
      during := [];
      assert before + [] == before && before + during[..0] == before;
    } else {
      during := AloneMakesStretch(n, before, p, calls - 1);
      during := OneCall(n, before, during, p);
      AloneFollows(n, before, during, p);
    }
  }

  lemma AloneFollows(n: nat, before: seq<Action>, during: seq<Action>, p: nat)
    requires Alone(n, before, during, p) && Run(n, before).Some?
    ensures forall k :: 0 <= k <= |during| ==> Unhindered(n, before, during, p, k)
  {
    hide Run;
    forall k | 0 <= k <= |during| ensures Unhindered(n, before, during, p, k) {
      assert Quiet(Run(n, before + during[..k]), p, n);
    }
  }
}
