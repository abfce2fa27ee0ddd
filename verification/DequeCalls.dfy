/** The packing of the deque's top into one word. */
module TopWords {
  import opened AbpDeque

  const IDX_RANGE: nat := 64
  const WORD64: nat := 0x1_0000_0000_0000_0000
  const WORD32: nat := 0x1_0000_0000

  function UnpackTag(w: nat): nat { w / IDX_RANGE }
  function UnpackIdx(w: nat): nat { w % IDX_RANGE }

  /** A shift by six and an or; see ShiftIsTimes. */
  function PackTagIdx(tag: nat, idx: nat): nat { tag * IDX_RANGE % WORD64 + idx }

  /** The same in 32 bits, as set depth has it: the tag is cut to 32 bits,
      incremented and shifted in 32-bit arithmetic. */
  function PackNextTag32(tag: nat, idx: nat): nat {
    (tag % WORD32 + 1) % WORD32 * IDX_RANGE % WORD32 + idx
  }

  function TopOf(w: nat): Top { Top(UnpackTag(w), UnpackIdx(w)) }

  /** Indices up to 63 survive the packing, and the tag wraps as in the machine. */
  lemma PackUnpack(tag: nat, idx: nat)
    requires idx < IDX_RANGE
    ensures TopOf(PackTagIdx(tag + 1, idx)) == Top(Bump(tag), idx)
    ensures TopOf(PackTagIdx(tag, idx)) == Top(tag % TAG_LIMIT, idx)
    ensures TopOf(PackNextTag32(tag, idx)) == Top(DepthBump(tag), idx)
  {
    hide UnpackTag, UnpackIdx;
    Scale(tag + 1, TAG_LIMIT);
    Scale(tag, TAG_LIMIT);
    Scale((tag % WORD32 + 1) % WORD32, DEPTH_TAG_LIMIT);
    NextTag32(tag);
    Split((tag + 1) % TAG_LIMIT, idx);
    Split(tag % TAG_LIMIT, idx);
    Split((tag + 1) % DEPTH_TAG_LIMIT, idx);
  }

  lemma Scale(x: nat, m: nat)
    requires m == TAG_LIMIT || m == DEPTH_TAG_LIMIT
    ensures x * IDX_RANGE % (m * IDX_RANGE) == x % m * IDX_RANGE
  {
  }

  lemma Split(tag: nat, idx: nat)
    requires idx < IDX_RANGE
    ensures TopOf(tag * IDX_RANGE + idx) == Top(tag, idx)
  {
  }

  lemma NextTag32(tag: nat)
    ensures (tag % WORD32 + 1) % WORD32 % DEPTH_TAG_LIMIT == (tag + 1) % DEPTH_TAG_LIMIT
  {
    var q, x := tag / WORD32, tag % WORD32 + 1;
    assert tag + 1 == q * 64 * DEPTH_TAG_LIMIT + x;
    AddMultiple(x, q * 64);
    AddMultiple(x % WORD32, x / WORD32 * 64);
  }

  lemma AddMultiple(x: nat, k: nat)
    ensures (k * DEPTH_TAG_LIMIT + x) % DEPTH_TAG_LIMIT == x % DEPTH_TAG_LIMIT
  {
  }

  /** An index that does not fit makes the packed word stand for another top. */
  lemma PackIsExact(tag: nat, idx: nat)
    requires tag < TAG_LIMIT
    ensures TopOf(PackTagIdx(tag, idx)) == Top(tag, idx) <==> idx < IDX_RANGE
  {
  }

  lemma SameWord(v: nat, w: nat)
    ensures TopOf(v) == TopOf(w) <==> v == w
  {
  }

  /** On machine words, shifting and or-ing is what PackTagIdx computes with
      times and plus, and unpacking is shifting and masking back. */
  lemma ShiftIsTimes(tag: bv64, idx: bv64)
    requires idx <= 63 && tag <= 0x3FF_FFFF_FFFF_FFFF
    ensures (tag << 6) | idx == tag * 64 + idx
    ensures ((tag << 6) | idx) >> 6 == tag && ((tag << 6) | idx) & 63 == idx
  {
  }
}

/**
 The deque's calls and the collector's use of them, over the machine of module
 AbpDeque: what a call does to shared memory it does step by step, and between
 two steps the other processors do what they like.
 */
module DequeCalls {
  import opened Options
  import opened AbpDeque
  import opened TopWords

  /** The operations of the owner, without the thefts. */
  ghost function ByOwner(log: seq<Event>): seq<Event> {
    if log == [] then []
    else ByOwner(log[..|log| - 1]) + (if log[|log| - 1].Stolen? then [] else [log[|log| - 1]])
  }

  /** The thefts of thief t. */
  ghost function ByThief(log: seq<Event>, t: nat): seq<Event> {
    if log == [] then []
    else
      var e := log[|log| - 1];
      ByThief(log[..|log| - 1], t) + (if e.Stolen? && e.t == t then [e] else [])
  }

  lemma BySnoc(log: seq<Event>, e: Event, t: nat)
    ensures ByOwner(log + [e]) == ByOwner(log) + (if e.Stolen? then [] else [e])
    ensures ByThief(log + [e], t) == ByThief(log, t) + (if e.Stolen? && e.t == t then [e] else [])
  {
    assert (log + [e])[..|log|] == log;
  }

  /** What a thief's action leaves alone. */
  lemma ThiefActionFrame(s: State, a: Action)
    requires Enabled(s, a) && (a.Steal? || a.ThiefStep?)
    ensures var s' := Do(s, a);
      && s'.bot == s.bot && s'.data == s.data && s'.owner == s.owner && s'.claim == s.claim
      && !s'.status.Misused? && s'.top.tag == s.top.tag
      && ByOwner(s'.log) == ByOwner(s.log)
  {
    hide ByOwner, ByThief;
    if a.ThiefStep? && s.thieves[a.t].ReadElem? { BySnoc(s.log, Stolen(a.t, s.thieves[a.t].e), a.t); }
  }

  /** What anybody else's action leaves alone for thief t. */
  lemma RivalFrame(s: State, a: Action, t: nat)
    requires Enabled(s, a) && t < |s.thieves| && !(a.Steal? && a.t == t) && !(a.ThiefStep? && a.t == t)
    ensures var s' := Do(s, a);
      && |s'.thieves| == |s.thieves| && s'.thieves[t] == s.thieves[t] && |s'.data| == |s.data|
      && ByThief(s'.log, t) == ByThief(s.log, t)
  {
    hide ByOwner, ByThief;
    var s' := Do(s, a);
    if |s'.log| > |s.log| {
      var e := s'.log[|s.log|];
      assert s'.log == s.log + [e];
      BySnoc(s.log, e, t);
    }
  }

  /** The claims of these tasks, the youngest first. */
  ghost function Claims(tasks: seq<int>): seq<Event> {
    if tasks == [] then [] else Claims(tasks[1..]) + [Claimed(tasks[0])]
  }

  lemma NoClaims(tasks: seq<int>)
    requires |tasks| == 0
    ensures Claims(tasks) == []
  {
  }

  lemma OneClaim(tasks: seq<int>, e: int)
    ensures Claims([e] + tasks) == Claims(tasks) + [Claimed(e)]
  {
    assert ([e] + tasks)[1..] == tasks;
  }

  /** Each of these tasks is replaced by its forwarded self, the oldest first. */
  ghost function Forwards(tasks: seq<int>, forward: int -> int): seq<Event> {
    if tasks == [] then []
    else Forwards(tasks[..|tasks| - 1], forward) + [Forwarded(|tasks| - 1, forward(tasks[|tasks| - 1]))]
  }

  lemma NoForwards(tasks: seq<int>, forward: int -> int)
    requires |tasks| == 0
    ensures Forwards(tasks, forward) == []
  {
  }

  lemma OneForward(tasks: seq<int>, e: int, forward: int -> int)
    ensures Forwards(tasks + [e], forward) == Forwards(tasks, forward) + [Forwarded(|tasks|, forward(e))]
  {
    assert (tasks + [e])[..|tasks|] == tasks;
  }

  lemma ReleaseIs(s: State)
    requires Enabled(s, Release)
    ensures s.claim.Some? && Do(s, Release) == s.(bot := s.claim.value, claim := None, log := s.log + [Released])
  {
  }

  /** A release puts the claimed tasks behind the others. */
  lemma ReleaseJoins(s: State)
    requires Enabled(s, Release) && s.top.idx <= s.bot <= s.claim.value <= |s.data|
    ensures Contents(Do(s, Release)).items == Contents(s).items + Contents(s).claimed
  {
    hide Slice;
    SliceJoins(s.data, s.top.idx, s.bot, s.claim.value);
  }

  class AbpQueue {
    var top: nat
    var bot: nat
    const data: array<int>
    // Where everybody is, and what has happened:
    const thiefCount: nat
    var owner: OwnerPc
    var thieves: seq<ThiefPc>
    var claim: Option<nat>
    var status: Status
    var log: seq<Event>
    var acts: seq<Action>

    function View(): State
      reads this, data
    {
      State(TopOf(top), bot, data[..], owner, thieves, claim, status, log)
    }

    ghost predicate Valid()
      reads this, data
    {
      && data.Length < IDX_RANGE && status.Running? && UnpackTag(top) < TAG_LIMIT
      && RunFrom(Init(data.Length, thiefCount), acts) == Some(View())
      && Inv(View())
    }

    /** The tag can go up without wrapping. */
    predicate Room()
      reads this
    {
      UnpackTag(top) + 1 < TAG_LIMIT
    }

    constructor (capacity: nat, thiefCount: nat)
      requires capacity < IDX_RANGE
      ensures Valid() && fresh(data) && data.Length == capacity
      ensures owner.Free? && claim.None? && log == [] && top == 0 && bot == 0
    {
      top, bot := 0, 0;
      data := new int[capacity](_ => FAIL_VALUE);
      this.thiefCount := thiefCount;
      owner, thieves, claim, status := Free, seq(thiefCount, _ => Away), None, Running;
      log, acts := [], [];
      new;
      assert View() == Init(capacity, thiefCount);
      InitInv(capacity, thiefCount);
    }

    /** Record that a shared access just made takes the machine from s to
        Do(s, a). */
    method Commit(s: State, a: Action)
      requires data.Length < IDX_RANGE && RunFrom(Init(data.Length, thiefCount), acts) == Some(s) && Inv(s)
      requires Enabled(s, a) && !Do(s, a).status.Misused?
      requires s.top.tag < TAG_LIMIT
      requires TopOf(top) == Do(s, a).top && bot == Do(s, a).bot && data[..] == Do(s, a).data
      modifies this`owner, this`thieves, this`claim, this`status, this`log, this`acts
      ensures Valid() && View() == Do(s, a) && acts == old(acts) + [a]
    {
      hide Do, Inv, Enabled, RunFrom;
      RunSnoc(Init(data.Length, thiefCount), acts, s, a);
      DoKeepsInv(s, a);
      RunningStays(s, a);
      TagFits(s, a);
      var s' := Do(s, a);
      owner, thieves, claim, status, log := s'.owner, s'.thieves, s'.claim, s'.status, s'.log;
      acts := acts + [a];
    }

    lemma RunningStays(s: State, a: Action)
      requires Inv(s) && Enabled(s, a) && Inv(Do(s, a)) && !Do(s, a).status.Misused?
      ensures Do(s, a).status.Running?
    {
      hide OwnerOk, ThievesOk, ClaimOk, LogOk;
    }

    lemma TagFits(s: State, a: Action)
      requires Inv(s) && Enabled(s, a) && s.top.tag < TAG_LIMIT
      ensures Do(s, a).top.tag < TAG_LIMIT
    {
      hide ThievesOk, ClaimOk, LogOk;
      if a.ThiefStep? { ThiefAt(s.top, s.data, Bottom(s.bot, s.owner), s.thieves, a.t); }
    }

    // ----- the others -----

    /** Anybody's action, whole. */
    method Step(a: Action)
      requires Valid() && Enabled(View(), a) && !Do(View(), a).status.Misused?
      modifies this, data
      ensures Valid() && View() == Do(old(View()), a) && acts == old(acts) + [a]
    {
      hide Do, Enabled, RunFrom, UnpackTag, UnpackIdx;
      var s := View();
      DoKeepsInv(s, a);
      IndexFits(Do(s, a));
      SameLength(s, a);
      var s' := Do(s, a);
      Split(s'.top.tag, s'.top.idx);
      top := s'.top.tag * IDX_RANGE + s'.top.idx;
      bot := s'.bot;
      forall i | 0 <= i < data.Length { data[i] := s'.data[i]; }
      assert data[..] == s'.data;
      Commit(s, a);
    }

    lemma IndexFits(s: State)
      requires Inv(s)
      ensures s.top.idx <= |s.data|
    {
      hide ThievesOk, LogOk, ClaimOk;
    }

    lemma SameLength(s: State, a: Action)
      requires Enabled(s, a)
      ensures |Do(s, a).data| == |s.data|
    {
    }

    /** Any number of actions of thieves. */
    method Thieves()
      requires Valid()
      modifies this, data
      ensures Valid() && bot == old(bot) && data[..] == old(data[..]) && owner == old(owner) && claim == old(claim)
      ensures UnpackTag(top) == old(UnpackTag(top)) && ByOwner(log) == old(ByOwner(log))
    {
      hide Do, Inv, Enabled, RunFrom, ByOwner;
      var turns: nat := *;
      while turns > 0
        invariant Valid() && bot == old(bot) && data[..] == old(data[..]) && owner == old(owner) && claim == old(claim)
        invariant UnpackTag(top) == old(UnpackTag(top)) && ByOwner(log) == old(ByOwner(log))
      {
        var a: Action := *;
        if (a.Steal? || a.ThiefStep?) && Enabled(View(), a) {
          ThiefActionFrame(View(), a);
          var s := View();
          Step(a);
          assert TopOf(top) == Do(s, a).top;
        }
        turns := turns - 1;
      }
    }

    /** Any number of actions of the owner and of thieves other than t. */
    method Rivals(t: nat)
      requires Valid() && t < |thieves|
      modifies this, data
      ensures Valid() && t < |thieves| && thieves[t] == old(thieves[t])
      ensures ByThief(log, t) == old(ByThief(log, t))
    {
      hide Do, Inv, Enabled, RunFrom, ByThief;
      var turns: nat := *;
      while turns > 0
        invariant Valid() && t < |thieves| && thieves[t] == old(thieves[t])
        invariant ByThief(log, t) == old(ByThief(log, t))
      {
        var a: Action := *;
        if !(a.Steal? && a.t == t) && !(a.ThiefStep? && a.t == t) && Enabled(View(), a)
          && !Do(View(), a).status.Misused? {
          RivalFrame(View(), a, t);
          Step(a);
        }
        turns := turns - 1;
      }
    }

    // ----- the owner -----

    /** ABP_deque_push_bot: refused exactly when the bottom is at the end. */
    method PushBot(elem: int) returns (pushed: bool)
      requires Valid() && owner.Free? && claim.None? && elem != FAIL_VALUE
      modifies this, data
      ensures Valid() && owner.Free? && claim.None? && UnpackTag(top) == old(UnpackTag(top))
      ensures pushed <==> old(bot) < data.Length
      ensures bot == old(bot) + (if pushed then 1 else 0)
      ensures ByOwner(log) == old(ByOwner(log)) + (if pushed then [Pushed(elem)] else [])
    {
      hide Inv, RunFrom, ByOwner, ThievesOk, LogOk, ClaimOk;
      var localBot, s := bot, View();
      Legal();
      if localBot == data.Length {
        return false;
      }
      data[localBot] := elem;
      Commit(s, Push(elem));
      Thieves();
      s := View();
      BySnoc(s.log, Pushed(elem), 0);
      bot := localBot + 1;
      Commit(s, OwnerStep);
      return true;
    }

    lemma Legal()
      requires Valid()
      ensures OwnerOk(TopOf(top), bot, data[..], owner, claim)
      ensures UnpackIdx(top) <= data.Length
    {
      hide ThievesOk, LogOk, ClaimOk;
    }

    /** How a pop that returns r shows in the log. */
    function Outcome(r: int): Event
      reads this
    {
      if r == FAIL_VALUE then PopFailed else if claim.Some? then Claimed(r) else Popped(r)
    }

    /** ABP_deque_try_pop_bot. The result is the fail value exactly if the deque
        was empty when the pop took effect; then the bottom is back where it was. */
    method TryPopBot() returns (r: int)
      requires Valid() && owner.Free? && Room()
      modifies this, data
      ensures UnpackTag(top) <= old(UnpackTag(top)) + 1
      ensures Valid() && owner.Free? && claim == old(claim) && data[..] == old(data[..])
      ensures ByOwner(log) == old(ByOwner(log)) + [Outcome(r)]
      ensures bot == (if r == FAIL_VALUE then old(bot) else old(bot) - 1)
      ensures if r == FAIL_VALUE then UnpackIdx(top) == bot else bot < data.Length && r == data[bot]
    {
      hide Inv, RunFrom, ByOwner;
      var localBot, s := bot, View();
      Legal();
      if localBot == 0 {
        BySnoc(s.log, PopFailed, 0);
        Commit(s, Pop);
        return FAIL_VALUE;
      }
      localBot := localBot - 1;
      bot := localBot;
      Commit(s, Pop);
      Thieves();
      var elem := data[localBot];
      Commit(View(), OwnerStep);
      Thieves();
      var localTop := top;
      r := PopKnowing(elem, localTop);
    }

    /** The rest of a pop, from the load of top. */
    method PopKnowing(elem: int, localTop: nat) returns (r: int)
      requires Valid() && owner == Loaded(elem) && localTop == top && Room() && bot < data.Length && elem == data[bot]
      modifies this, data
      ensures UnpackTag(top) <= old(UnpackTag(top)) + 1
      ensures Valid() && owner.Free? && claim == old(claim) && data[..] == old(data[..])
      ensures ByOwner(log) == old(ByOwner(log)) + [Outcome(r)]
      ensures bot == old(bot) + (if r == FAIL_VALUE then 1 else 0)
      ensures if r == FAIL_VALUE then UnpackIdx(top) == bot else r == data[bot]
    {
      hide Inv, RunFrom, ByOwner;
      var localBot, localTopIdx, s := bot, UnpackIdx(localTop), View();
      Legal();
      Sane(s, OwnerStep);
      Commit(s, OwnerStep);
      Events(s.log, elem);
      if localBot > localTopIdx {
        assert elem != FAIL_VALUE;
        return elem;
      }
      var desiredTop := PackTagIdx(UnpackTag(localTop) + 1, localTopIdx);
      PackUnpack(UnpackTag(localTop), localTopIdx);
      Thieves();
      if localBot < localTopIdx {
        Lose(localTopIdx, desiredTop);
        return FAIL_VALUE;
      }
      r := PopRacing(elem, localTop, desiredTop);
    }

    /** The compare-and-swap for the last element. */
    method PopRacing(elem: int, localTop: nat, desiredTop: nat) returns (r: int)
      requires Valid() && owner == Racing(elem, TopOf(localTop)) && UnpackTag(top) == UnpackTag(localTop)
      requires Room() && TopOf(desiredTop) == Top(Bump(UnpackTag(localTop)), UnpackIdx(localTop))
      requires bot < data.Length && elem == data[bot]
      modifies this, data
      ensures UnpackTag(top) <= old(UnpackTag(top)) + 1
      ensures Valid() && owner.Free? && claim == old(claim) && data[..] == old(data[..])
      ensures ByOwner(log) == old(ByOwner(log)) + [Outcome(r)]
      ensures bot == old(bot) + (if r == FAIL_VALUE then 1 else 0)
      ensures if r == FAIL_VALUE then UnpackIdx(top) == bot else bot < data.Length && r == data[bot]
    {
      hide Inv, RunFrom, ByOwner;
      var localBot, s := bot, View();
      Legal();
      Sane(s, OwnerStep);
      SameWord(top, localTop);
      var foundTop := top;
      if foundTop == localTop { top := desiredTop; }
      Commit(s, OwnerStep);
      Events(s.log, elem);
      if foundTop == localTop {
        assert elem != FAIL_VALUE;
        return elem;
      }
      assert UnpackIdx(foundTop) == localBot + 1 && UnpackTag(foundTop) == UnpackTag(localTop);
      var newTop := PackTagIdx(UnpackTag(localTop) + 1, localBot + 1);
      PackUnpack(UnpackTag(localTop), localBot + 1);
      Thieves();
      Lose(localBot + 1, newTop);
      return FAIL_VALUE;
    }

    /** A lost pop: the bottom goes to the top's index, then the tag goes up. */
    method Lose(newBot: nat, newTop: nat)
      requires Valid() && owner == Reset(newBot, TopOf(newTop)) && Room() && UnpackIdx(newTop) == newBot
      modifies this, data
      ensures UnpackIdx(top) == bot
      ensures UnpackTag(top) <= old(UnpackTag(top)) + 1
      ensures Valid() && owner.Free? && claim == old(claim) && data[..] == old(data[..])
      ensures ByOwner(log) == old(ByOwner(log)) && bot == newBot
      ensures bot == old(bot) + 1
    {
      hide Inv, RunFrom, ByOwner;
      var s := View();
      Legal();
      bot := newBot;
      Commit(s, OwnerStep);
      Thieves();
      StoreTop(newTop);
    }

    /** The last store of a lost pop, or of moving to a smaller depth. */
    method StoreTop(newTop: nat)
      requires Valid() && (owner == ResetTop(TopOf(newTop)) || owner == Down(TopOf(newTop))) && Room()
      modifies this`top, this`owner, this`thieves, this`claim, this`status, this`log, this`acts
      ensures Valid() && owner.Free? && claim == old(claim) && top == newTop && log == old(log)
    {
      hide Inv, RunFrom;
      var s := View();
      top := newTop;
      Commit(s, OwnerStep);
    }

    lemma Events(log: seq<Event>, e: int)
      ensures forall x :: x in [Popped(e), Claimed(e), PopFailed] ==> ByOwner(log + [x]) == ByOwner(log) + [x]
    {
      BySnoc(log, Popped(e), 0);
      BySnoc(log, Claimed(e), 0);
      BySnoc(log, PopFailed, 0);
    }

    /** Neither sanity check of a pop can fire. */
    lemma Sane(s: State, a: Action)
      requires Inv(s) && Enabled(s, a)
      ensures !Do(s, a).status.Corrupted? && !Do(s, a).status.BadPop?
    {
      hide OwnerOk, ThievesOk, ClaimOk, LogOk;
      DoKeepsInv(s, a);
    }
  
    /** ABP_deque_set_depth: dies exactly when the deque is not empty, otherwise
        leaves it empty at the desired depth. */
    method SetDepth(desiredDepth: nat) returns (died: bool)
      requires Valid() && owner.Free? && claim.None? && desiredDepth <= data.Length
      requires UnpackTag(top) + 1 < DEPTH_TAG_LIMIT
      modifies this, data
      ensures Valid() && owner.Free? && claim.None? && data[..] == old(data[..])
      ensures died <==> old(Contents(View()).items) != []
      ensures died ==> View() == old(View())
      ensures !died ==> bot == desiredDepth && UnpackIdx(top) == desiredDepth && ByOwner(log) == old(ByOwner(log))
      ensures !died && desiredDepth != old(bot) ==> UnpackTag(top) == old(UnpackTag(top)) + 1
    {
      hide Inv, RunFrom, ByOwner;
      var localTop, localBot, s := top, bot, View();
      Legal();
      SetDepthAborts(s, desiredDepth);
      if UnpackIdx(localTop) != localBot {
        return true;
      }
      Commit(s, Action.SetDepth(desiredDepth));
      Thieves();
      Resize(desiredDepth, localTop);
      return false;
    }

    /** Both stores of set depth, in the order that never shows an element. */
    method Resize(desiredDepth: nat, localTop: nat)
      requires Valid() && owner == Sized(TopOf(localTop), desiredDepth) && desiredDepth <= data.Length
      requires UnpackTag(top) + 1 < DEPTH_TAG_LIMIT && claim.None?
      modifies this, data
      ensures Valid() && owner.Free? && claim.None? && data[..] == old(data[..])
      ensures bot == desiredDepth && UnpackIdx(top) == desiredDepth && ByOwner(log) == old(ByOwner(log))
      ensures UnpackTag(top) == old(UnpackTag(top)) + (if desiredDepth == old(bot) then 0 else 1)
    {
      hide Inv, RunFrom, ByOwner;
      var localBot := bot;
      var desiredTop := PackNextTag32(UnpackTag(localTop), desiredDepth);
      PackUnpack(UnpackTag(localTop), desiredDepth);
      Legal();
      if desiredDepth == localBot {
        Commit(View(), OwnerStep);
      } else if desiredDepth < localBot {
        ResizeDown(desiredDepth, desiredTop);
      } else {
        ResizeUp(desiredDepth, desiredTop);
      }
    }

    method ResizeDown(desiredDepth: nat, desiredTop: nat)
      requires Valid() && owner == Sized(TopOf(top), desiredDepth) && claim.None? && desiredDepth < bot
      requires UnpackTag(top) + 1 < DEPTH_TAG_LIMIT
      requires TopOf(desiredTop) == Top(DepthBump(UnpackTag(top)), desiredDepth)
      modifies this, data
      ensures Valid() && owner.Free? && claim.None? && data[..] == old(data[..])
      ensures bot == desiredDepth && top == desiredTop && ByOwner(log) == old(ByOwner(log))
    {
      hide Inv, RunFrom, ByOwner;
      var s := View();
      bot := desiredDepth;
      Commit(s, OwnerStep);
      Thieves();
      StoreTop(desiredTop);
    }

    method ResizeUp(desiredDepth: nat, desiredTop: nat)
      requires Valid() && owner == Sized(TopOf(top), desiredDepth) && claim.None? && bot < desiredDepth
      requires UnpackTag(top) + 1 < DEPTH_TAG_LIMIT
      requires TopOf(desiredTop) == Top(DepthBump(UnpackTag(top)), desiredDepth)
      modifies this, data
      ensures Valid() && owner.Free? && claim.None? && data[..] == old(data[..])
      ensures bot == desiredDepth && ByOwner(log) == old(ByOwner(log))
      ensures UnpackIdx(top) == desiredDepth && UnpackTag(top) == UnpackTag(desiredTop)
    {
      hide Inv, RunFrom, ByOwner;
      var s := View();
      top := desiredTop;
      Commit(s, OwnerStep);
      Thieves();
      Legal();
      s := View();
      bot := desiredDepth;
      Commit(s, OwnerStep);
    }

    // ----- thieves -----

    /** The last action is a step of thief t, taken in this state. */
    ghost predicate LastStep(t: nat, last: State)
      reads this, data
    {
      && acts != [] && acts[|acts| - 1] == ThiefStep(t)
      && RunFrom(Init(data.Length, thiefCount), acts[..|acts| - 1]) == Some(last)
      && Inv(last) && Enabled(last, ThiefStep(t))
    }

    /** ABP_deque_try_pop_top: a theft is the one theft of this call; the call
        fails exactly if in its last step the thief has turned back at the bottom
        or lost its swap, and then there is none. */
    method TryPopTop(t: nat) returns (r: int, ghost last: State)
      requires Valid() && t < |thieves| && thieves[t].Away?
      modifies this, data
      ensures Valid() && t < |thieves| && thieves[t].Away?
      ensures ByThief(log, t) == old(ByThief(log, t)) + (if r == FAIL_VALUE then [] else [Stolen(t, r)])
      ensures LastStep(t, last) && (r == FAIL_VALUE <==> TurnsBack(last, t) || LosesSwap(last, t))
    {
      hide Inv, RunFrom, ByThief;
      var localTop := top;
      Commit(View(), Steal(t));
      Rivals(t);
      var localBot, localTopIdx := bot, UnpackIdx(localTop);
      last := View();
      ghost var before := acts;
      Commit(View(), ThiefStep(t));
      assert acts[..|acts| - 1] == before;
      if localBot <= localTopIdx {
        r := FAIL_VALUE;
        return;
      }
      Rivals(t);
      var elem := TakeLook(t, localTop);
      Rivals(t);
      r, last := Swap(t, localTop, elem);
    }

    /** The compare-and-swap of a thief. */
    method Swap(t: nat, localTop: nat, elem: int) returns (r: int, ghost last: State)
      requires Valid() && t < |thieves| && thieves[t] == ReadElem(TopOf(localTop), elem)
      modifies this
      ensures Valid() && t < |thieves| && thieves[t].Away?
      ensures ByThief(log, t) == old(ByThief(log, t)) + (if r == FAIL_VALUE then [] else [Stolen(t, r)])
      ensures LastStep(t, last) && last.thieves[t].ReadElem? && (r == FAIL_VALUE <==> LosesSwap(last, t))
    {
      hide Inv, RunFrom, ByThief, Do, Enabled, PackTagIdx, UnpackTag, UnpackIdx;
      Aim(t);
      var s := View();
      last := s;
      ghost var before := acts;
      var desiredTop := PackTagIdx(UnpackTag(localTop), UnpackIdx(localTop) + 1);
      PackUnpack(UnpackTag(localTop), UnpackIdx(localTop) + 1);
      TagBelow(UnpackTag(localTop));
      ThiefCanStep(last, t);
      Sane(last, ThiefStep(t));
      SwapIs(last, t);
      SameWord(top, localTop);
      BySnoc(last.log, Stolen(t, elem), t);
      var won := top == localTop;
      if won { top := desiredTop; }
      Commit(s, ThiefStep(t));
      assert acts[..|acts| - 1] == before;
      r := if won then elem else FAIL_VALUE;
    }

    lemma TagBelow(tag: nat)
      requires tag < TAG_LIMIT
      ensures tag % TAG_LIMIT == tag
    {
    }

    lemma ThiefCanStep(s: State, t: nat)
      requires s.status.Running? && t < |s.thieves| && s.thieves[t].ReadElem?
      ensures Enabled(s, ThiefStep(t))
    {
    }

    /** What a thief's swap does. */
    lemma SwapIs(s: State, t: nat)
      requires Enabled(s, ThiefStep(t)) && t < |s.thieves| && s.thieves[t].ReadElem?
      requires !Do(s, ThiefStep(t)).status.BadPop?
      ensures var s', lt, e := Do(s, ThiefStep(t)), s.thieves[t].lt, s.thieves[t].e;
        && s'.bot == s.bot && s'.data == s.data && s'.thieves == s.thieves[t := Away] && !s'.status.Misused?
        && (if s.top == lt then e != FAIL_VALUE && s'.top == Top(lt.tag, lt.idx + 1) && s'.log == s.log + [Stolen(t, e)]
            else s'.top == s.top && s'.log == s.log)
      ensures LosesSwap(s, t) <==> s.top != s.thieves[t].lt
    {
    }

    method TakeLook(t: nat, localTop: nat) returns (elem: int)
      requires Valid() && t < |thieves| && thieves[t] == ReadBot(TopOf(localTop))
      modifies this
      ensures Valid() && t < |thieves| && thieves[t] == ReadElem(TopOf(localTop), elem)
      ensures ByThief(log, t) == old(ByThief(log, t))
    {
      hide Inv, RunFrom, ByThief;
      Aim(t);
      elem := data[UnpackIdx(localTop)];
      Commit(View(), ThiefStep(t));
    }

    lemma Aim(t: nat)
      requires Valid() && t < |thieves| && (thieves[t].ReadBot? || thieves[t].ReadElem?)
      ensures thieves[t].lt.idx < data.Length && thieves[t].lt.tag < TAG_LIMIT
    {
      hide OwnerOk, ClaimOk, LogOk;
    }

    // ----- the collector -----

    /** tryClaimLocalScope: the youngest task becomes the collector's. */
    method TryClaimLocalScope() returns (claimed: bool)
      requires Valid() && owner.Free? && claim.Some? && Room()
      modifies this, data
      ensures UnpackTag(top) <= old(UnpackTag(top)) + 1
      ensures Valid() && owner.Free? && claim == old(claim) && data[..] == old(data[..])
      ensures bot == old(bot) - (if claimed then 1 else 0)
      ensures !claimed ==> ByOwner(log) == old(ByOwner(log)) + [PopFailed] && UnpackIdx(top) == bot
      ensures claimed ==> bot < data.Length && ByOwner(log) == old(ByOwner(log)) + [Claimed(data[bot])]
    {
      hide Inv, RunFrom, ByOwner;
      var result := TryPopBot();
      claimed := result != FAIL_VALUE;
    }

    /** The claim loop of the local collector: levels from minDepth up are
        claimed, and bot says so at every turn. It stops early only because
        nothing was left below: a pop failed, with top where the claim ended. */
    method ClaimScope(minOkay: nat) returns (minDepth: nat, originalLocalScope: nat)
      requires Valid() && owner.Free? && claim.None? && UnpackTag(top) + bot + 2 < TAG_LIMIT
      modifies this, data
      ensures Valid() && owner.Free? && claim == Some(originalLocalScope) && originalLocalScope == old(bot)
      ensures bot == minDepth <= originalLocalScope <= data.Length && data[..] == old(data[..])
      ensures Contents(View()).claimed == data[minDepth..originalLocalScope]
      ensures UnpackIdx(top) <= minDepth
      ensures minDepth > minOkay ==> UnpackIdx(top) == minDepth
      ensures minDepth <= minOkay ==> minDepth == if minOkay < originalLocalScope then minOkay else originalLocalScope
      ensures ByOwner(log) == old(ByOwner(log)) + Claims(data[minDepth..originalLocalScope])
                              + (if minDepth > minOkay then [PopFailed] else [])
    {
      hide Inv, RunFrom, ByOwner, Claims;
      originalLocalScope := bot;
      Legal();
      var s := View();
      Commit(s, BeginClaim);
      minDepth := originalLocalScope;
      NoClaims(data[minDepth..originalLocalScope]);
      while minDepth > minOkay
        invariant Valid() && owner.Free? && claim == Some(originalLocalScope) && data[..] == old(data[..])
        invariant bot == minDepth <= originalLocalScope <= data.Length
        invariant UnpackTag(top) + minDepth + 2 < TAG_LIMIT
        invariant minDepth >= minOkay || minDepth == originalLocalScope
        invariant ByOwner(log) == old(ByOwner(log)) + Claims(data[minDepth..originalLocalScope])
      {
        var claimed := TryClaimLocalScope();
        if !claimed { break; }
        OneClaim(data[minDepth..originalLocalScope], data[minDepth - 1]);
        assert [data[minDepth - 1]] + data[minDepth..originalLocalScope] == data[minDepth - 1..originalLocalScope];
        minDepth := minDepth - 1;
      }
      ClaimLegal();
    }

    lemma ClaimLegal()
      requires Valid() && owner.Free? && claim.Some?
      ensures UnpackIdx(top) <= bot <= claim.value <= data.Length
    {
      hide ThievesOk, LogOk;
    }

    /** Forward the claimed slice of the deque, whatever thieves do below it. */
    method ForwardSlice(minDepth: nat, originalLocalScope: nat, forward: int -> int)
      requires Valid() && owner.Free? && claim == Some(originalLocalScope)
      requires bot == minDepth <= originalLocalScope <= data.Length
      requires forall x :: forward(x) != FAIL_VALUE
      modifies this, data
      ensures Valid() && owner.Free? && claim == old(claim) && bot == old(bot)
      ensures UnpackIdx(top) <= minDepth
      ensures |Contents(View()).claimed| == |old(Contents(View()).claimed)|
      ensures forall k :: 0 <= k < |Contents(View()).claimed| ==>
        Contents(View()).claimed[k] == forward(old(Contents(View()).claimed)[k])
      ensures forall k :: 0 <= k < data.Length ==>
        data[k] == if minDepth <= k < originalLocalScope then forward(old(data[..])[k]) else old(data[..])[k]
      ensures ByOwner(log) == old(ByOwner(log)) + Forwards(old(data[..])[minDepth..originalLocalScope], forward)
    {
      hide Inv, RunFrom, ByOwner, Forwards;
      ClaimLegal();
      ghost var tasks := data[..];
      var i := minDepth;
      NoForwards(tasks[minDepth..i], forward);
      while i < originalLocalScope
        invariant minDepth <= i <= originalLocalScope
        invariant Valid() && owner.Free? && claim == old(claim) && bot == old(bot)
        invariant forall k :: 0 <= k < data.Length ==>
          data[k] == if minDepth <= k < i then forward(old(data[..])[k]) else old(data[..])[k]
        invariant ByOwner(log) == old(ByOwner(log)) + Forwards(tasks[minDepth..i], forward)
      {
        OneForward(tasks[minDepth..i], tasks[i], forward);
        assert tasks[minDepth..i] + [tasks[i]] == tasks[minDepth..i + 1];
        ForwardOne(i, forward(data[i]));
        i := i + 1;
      }
      ClaimLegal();
    }

    method ForwardOne(i: nat, e: int)
      requires Valid() && owner.Free? && claim.Some? && bot <= i < claim.value <= data.Length && e != FAIL_VALUE
      modifies this, data
      ensures Valid() && owner.Free? && claim == old(claim) && bot == old(bot)
      ensures data[..] == old(data[..])[i := e] && ByOwner(log) == old(ByOwner(log)) + [Forwarded(i - bot, e)]
    {
      hide Inv, RunFrom, ByOwner;
      var s := View();
      BySnoc(s.log, Forwarded(i - bot, e), 0);
      data[i] := e;
      Commit(s, Forward(i, e));
      Thieves();
    }

    /** releaseLocalScope: one store gives the claimed levels back. */
    method ReleaseLocalScope(originalBot: nat)
      requires Valid() && owner.Free? && claim == Some(originalBot)
      modifies this, data
      ensures Valid() && owner.Free? && claim.None? && bot == originalBot
      ensures UnpackTag(top) == old(UnpackTag(top)) && data[..] == old(data[..])
      ensures Contents(View()).items == old(Contents(View()).items + Contents(View()).claimed)
      ensures ByOwner(log) == old(ByOwner(log)) + [Released]
    {
      hide *;
      var s := View();
      Releasable();
      ViewIs();
      BySnoc(s.log, Released, 0);
      ReleaseIs(s);
      ReleaseJoins(s);
      bot := originalBot;
      Commit(s, Release);
      ViewIs();
    }

    lemma ViewIs()
      ensures View() == State(TopOf(top), bot, data[..], owner, thieves, claim, status, log)
      ensures TopOf(top).tag == UnpackTag(top)
    {
    }

    lemma Releasable()
      requires Valid() && owner.Free? && claim.Some?
      ensures RunFrom(Init(data.Length, thiefCount), acts) == Some(View()) && Inv(View()) && Enabled(View(), Release)
      ensures data.Length < IDX_RANGE && View().top.tag < TAG_LIMIT && View().status.Running?
      ensures View().top.idx <= bot <= claim.value <= data.Length
    {
      hide Inv, RunFrom;
      ClaimLegal();
    }

    /** The deque's part in one local collection. The log of the owner tells all:
        as many tasks are claimed as lie from minDepth up, a pop fails exactly if
        that is not as far as it may go, and those claimed are forwarded exactly
        if the goal is not beyond the bottom and level 0 has not been claimed. */
    method CollectLocal(currentDepth: nat, minOkay: nat, forward: int -> int) returns (collected: bool, minDepth: nat)
      requires Valid() && owner.Free? && claim.None? && UnpackTag(top) + bot + 2 < TAG_LIMIT
      requires forall x :: forward(x) != FAIL_VALUE
      modifies this, data
      ensures Valid() && owner.Free? && claim.None? && bot == old(bot) <= data.Length
      ensures currentDepth != bot ==> !collected && minDepth == 0 && ByOwner(log) == old(ByOwner(log))
      ensures currentDepth == bot ==>
        && (collected <==> minOkay <= bot && minDepth > 0)
        && minDepth <= bot && (minDepth >= minOkay || minDepth == bot)
        && ByOwner(log) == old(ByOwner(log)) + Claims(old(data[..])[minDepth..bot])
                           + (if minDepth > minOkay then [PopFailed] else [])
                           + (if collected then Forwards(old(data[..])[minDepth..bot], forward) else []) + [Released]
      ensures currentDepth == bot && 0 < minOkay <= bot ==> collected
      ensures forall k :: 0 <= k < data.Length ==>
        data[k] == if collected && minDepth <= k < bot then forward(old(data[..])[k]) else old(data[..])[k]
    {
      hide Inv, RunFrom, ByOwner, Claims, Forwards;
      Legal();
      if currentDepth != bot {
        return false, 0;
      }
      var originalLocalScope;
      minDepth, originalLocalScope := ClaimScope(minOkay);
      if minDepth == 0 || minOkay > minDepth || minDepth > currentDepth {
        ReleaseLocalScope(originalLocalScope);
        return false, minDepth;
      }
      ForwardSlice(minDepth, originalLocalScope, forward);
      ReleaseLocalScope(originalLocalScope);
      return true, minDepth;
    }
  }
}
