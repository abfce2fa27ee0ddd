/**
 The work-stealing deque as an interleaving machine: one owner, any number of
 thieves, every shared load, store and compare-and-swap one action. The log
 holds the sequential deque operations, each entered where it takes effect.
 */
module AbpDeque {
  import opened Options

  /** The packed top: the tag changes whenever an index is used again. */
  datatype Top = Top(tag: nat, idx: nat)

  const FAIL_VALUE: int := 1
  const TAG_LIMIT: nat := 0x400_0000_0000_0000       // 64 - 6 bits
  const DEPTH_TAG_LIMIT: nat := 0x400_0000            // 32 - 6 bits

  function Bump(tag: nat): nat { (tag + 1) % TAG_LIMIT }

  /** Setting the depth computes the tag in 32-bit arithmetic. */
  function DepthBump(tag: nat): nat { (tag + 1) % DEPTH_TAG_LIMIT }

  datatype OwnerPc =
    | Free
    | Stored(e: int)                    // element written, bot not yet raised
    | Lowered                           // bot lowered
    | Loaded(e: int)                    // bot lowered, element read
    | Racing(e: int, lt: Top)           // top read, one element left
    | Reset(b: nat, nt: Top)            // lost: about to store bot, then top
    | ResetTop(nt: Top)
    | Sized(lt: Top, d: nat)            // set depth: top read, deque empty
    | Down(nt: Top)                     // bot stored, about to store top
    | Up(d: nat)                        // top stored, about to store bot

  datatype ThiefPc =
    | Away
    | ReadTop(lt: Top)
    | ReadBot(lt: Top)
    | ReadElem(lt: Top, e: int)

  datatype Status = Running | Misused | Corrupted | BadPop

  datatype Event =
    | Pushed(e: int)
    | Popped(e: int)
    | PopFailed
    | Stolen(t: nat, e: int)
    | Claimed(e: int)
    | Forwarded(i: nat, e: int)
    | Released

  /** claim holds the bottom from before the collector began to claim. */
  datatype State = State(
    top: Top,
    bot: nat,
    data: seq<int>,
    owner: OwnerPc,
    thieves: seq<ThiefPc>,
    claim: Option<nat>,
    status: Status,
    log: seq<Event>)

  datatype Action =
    | Push(e: int)
    | Pop
    | SetDepth(d: nat)
    | OwnerStep
    | BeginClaim
    | Forward(i: nat, e: int)
    | Release
    | Steal(t: nat)
    | ThiefStep(t: nat)

  // ----- the machine -----

  function Init(capacity: nat, thieves: nat): State {
    State(Top(0, 0), 0, seq(capacity, _ => FAIL_VALUE), Free, seq(thieves, _ => Away), None, Running, [])
  }

  /** What the callers guarantee: elements are not the fail value, the owner
      neither pushes nor resizes while it holds a claim, the collector forwards
      what it claimed. Tags are assumed not to run out. */
  predicate Enabled(s: State, a: Action) {
    && s.status.Running?
    && match a
       case Push(e) => s.owner.Free? && s.claim.None? && e != FAIL_VALUE
       case Pop => s.owner.Free?
       case SetDepth(d) => s.owner.Free? && s.claim.None? && d <= |s.data|
       case OwnerStep => OwnerCanStep(s) && TagHasRoom(s)
       case BeginClaim => s.owner.Free? && s.claim.None?
       case Forward(i, e) =>
         s.owner.Free? && s.claim.Some? && s.bot <= i < s.claim.value <= |s.data| && e != FAIL_VALUE
       case Release => s.owner.Free? && s.claim.Some?
       case Steal(t) => t < |s.thieves| && s.thieves[t].Away?
       case ThiefStep(t) =>
         && t < |s.thieves| && !s.thieves[t].Away?
         && (s.thieves[t].ReadBot? ==> s.thieves[t].lt.idx < |s.data|)
  }

  /** A step that computes a new tag has room for it. */
  predicate TagHasRoom(s: State) {
    && ((s.owner.Loaded? && s.bot < s.top.idx) || s.owner.Racing? ==> s.top.tag + 1 < TAG_LIMIT)
    && (s.owner.Sized? && s.owner.d != s.bot ==> s.top.tag + 1 < DEPTH_TAG_LIMIT)
  }

  predicate OwnerCanStep(s: State) {
    !s.owner.Free? && (s.owner.Lowered? ==> s.bot < |s.data|)
  }

  function Do(s: State, a: Action): State
    requires Enabled(s, a)
  {
    match a
    case Push(e) =>
      if s.bot >= |s.data| then s
      else s.(data := s.data[s.bot := e], owner := Stored(e))
    case Pop =>
      if s.bot == 0 then s.(log := s.log + [PopFailed])
      else s.(bot := s.bot - 1, owner := Lowered)
    case SetDepth(d) =>
      if s.top.idx != s.bot then s.(status := Misused) else s.(owner := Sized(s.top, d))
    case OwnerStep => OwnerNext(s)
    case BeginClaim => s.(claim := Some(s.bot))
    case Forward(i, e) => s.(data := s.data[i := e], log := s.log + [Forwarded(i - s.bot, e)])
    case Release => s.(bot := s.claim.value, claim := None, log := s.log + [Released])
    case Steal(t) => s.(thieves := s.thieves[t := ReadTop(s.top)])
    case ThiefStep(t) => ThiefNext(s, t)
  }

  /** The owner leaves a pop with element e. */
  function Took(s: State, e: int): State {
    if e == FAIL_VALUE then s.(status := BadPop)
    else s.(owner := Free, log := s.log + [if s.claim.Some? then Claimed(e) else Popped(e)])
  }

  function OwnerNext(s: State): State
    requires OwnerCanStep(s)
  {
    match s.owner
    case Stored(e) => s.(bot := s.bot + 1, owner := Free, log := s.log + [Pushed(e)])
    case Lowered => s.(owner := Loaded(s.data[s.bot]))
    case Loaded(e) =>
      if s.bot > s.top.idx then Took(s, e)
      else if s.bot < s.top.idx then
        s.(owner := Reset(s.top.idx, Top(Bump(s.top.tag), s.top.idx)), log := s.log + [PopFailed])
      else s.(owner := Racing(e, s.top))
    case Racing(e, lt) =>
      if s.top == lt then Took(s.(top := Top(Bump(lt.tag), lt.idx)), e)
      else if s.top.idx != s.bot + 1 || s.top.tag != lt.tag then s.(status := Corrupted)
      else s.(owner := Reset(s.bot + 1, Top(Bump(lt.tag), s.bot + 1)), log := s.log + [PopFailed])
    case Reset(b, nt) => s.(bot := b, owner := ResetTop(nt))
    case ResetTop(nt) => s.(top := nt, owner := Free)
    case Sized(lt, d) =>
      if d == s.bot then s.(owner := Free)
      else if d < s.bot then s.(bot := d, owner := Down(Top(DepthBump(lt.tag), d)))
      else s.(top := Top(DepthBump(lt.tag), d), owner := Up(d))
    case Down(nt) => s.(top := nt, owner := Free)
    case Up(d) => s.(bot := d, owner := Free)
  }

  function ThiefNext(s: State, t: nat): State
    requires Enabled(s, ThiefStep(t))
  {
    match s.thieves[t]
    case ReadTop(lt) =>
      s.(thieves := s.thieves[t := if s.bot <= lt.idx then Away else ReadBot(lt)])
    case ReadBot(lt) =>
      s.(thieves := s.thieves[t := ReadElem(lt, s.data[lt.idx])])
    case ReadElem(lt, e) =>
      var s1 := s.(thieves := s.thieves[t := Away]);
      if s.top != lt then s1
      else if e == FAIL_VALUE then s1.(top := Top(lt.tag, lt.idx + 1), status := BadPop)
      else s1.(top := Top(lt.tag, lt.idx + 1), log := s.log + [Stolen(t, e)])
  }

  function RunFrom(s: State, acts: seq<Action>): Option<State> {
    if acts == [] then Some(s)
    else
      match RunFrom(s, acts[..|acts| - 1])
      case None => None
      case Some(s1) => if Enabled(s1, acts[|acts| - 1]) then Some(Do(s1, acts[|acts| - 1])) else None
  }

  // ----- the sequential deque -----

  /** Oldest item first; what the collector has claimed is set aside, oldest
      first as well. */
  datatype Deque = Deque(items: seq<int>, claimed: seq<int>)

  /** One sequential operation; None if it cannot have this outcome. */
  function Apply(q: Deque, e: Event): Option<Deque> {
    var items, claimed := q.items, q.claimed;
    match e
    case Pushed(x) => Some(Deque(items + [x], claimed))
    case Popped(x) =>
      if items != [] && items[|items| - 1] == x then Some(Deque(items[..|items| - 1], claimed)) else None
    case PopFailed => if items == [] then Some(q) else None
    case Stolen(_, x) =>
      if items != [] && items[0] == x then Some(Deque(items[1..], claimed)) else None
    case Claimed(x) =>
      if items != [] && items[|items| - 1] == x then Some(Deque(items[..|items| - 1], [x] + claimed)) else None
    case Forwarded(i, x) =>
      if i < |claimed| then Some(Deque(items, claimed[i := x])) else None
    case Released => Some(Deque(items + claimed, []))
  }

  function Replay(log: seq<Event>): Option<Deque> {
    if log == [] then Some(Deque([], []))
    else
      match Replay(log[..|log| - 1])
      case None => None
      case Some(q) => Apply(q, log[|log| - 1])
  }

  lemma RunSnoc(s0: State, acts: seq<Action>, s: State, a: Action)
    requires RunFrom(s0, acts) == Some(s) && Enabled(s, a)
    ensures RunFrom(s0, acts + [a]) == Some(Do(s, a))
  {
    hide Do, Enabled;
    assert (acts + [a])[..|acts|] == acts;
  }

  lemma ReplaySnoc(log: seq<Event>, e: Event)
    requires Replay(log).Some?
    ensures Replay(log + [e]) == Apply(Replay(log).value, e)
  {
    assert (log + [e])[..|log|] == log;
  }

  // ----- reading the machine as a deque -----

  /** One past the last item: a pop that has lowered bot has not happened yet
      until it has read top or lost the race. */
  function Bottom(bot: nat, owner: OwnerPc): nat {
    if owner.Lowered? || owner.Loaded? || owner.Racing? || owner.Reset? then bot + 1 else bot
  }

  function Slice(data: seq<int>, lo: nat, hi: nat): seq<int> {
    if lo <= hi <= |data| then data[lo..hi] else []
  }

  function Contents(s: State): Deque {
    var b := Bottom(s.bot, s.owner);
    Deque(Slice(s.data, s.top.idx, b), if s.claim.Some? then Slice(s.data, b, s.claim.value) else [])
  }

  lemma SliceEnds(data: seq<int>, lo: nat, hi: nat)
    requires lo < hi <= |data|
    ensures var s := Slice(data, lo, hi);
      && s != [] && s[0] == data[lo] && s[|s| - 1] == data[hi - 1]
      && s == Slice(data, lo, hi - 1) + [data[hi - 1]]
      && s == [data[lo]] + Slice(data, lo + 1, hi)
      && s[..|s| - 1] == Slice(data, lo, hi - 1) && s[1..] == Slice(data, lo + 1, hi)
  {
  }

  lemma SliceJoins(data: seq<int>, lo: nat, mid: nat, hi: nat)
    requires lo <= mid <= hi <= |data|
    ensures Slice(data, lo, mid) + Slice(data, mid, hi) == Slice(data, lo, hi)
  {
  }

  // ----- the invariant -----

  /** Tops only move up in this order. */
  predicate Below(a: Top, b: Top) {
    a.tag < b.tag || (a.tag == b.tag && a.idx <= b.idx)
  }

  predicate OwnerOk(top: Top, bot: nat, data: seq<int>, owner: OwnerPc, claim: Option<nat>) {
    match owner
    case Free => top.idx <= bot <= |data|
    case Stored(e) => claim.None? && top.idx <= bot < |data| && data[bot] == e && e != FAIL_VALUE
    case Lowered => top.idx <= bot + 1 <= |data|
    case Loaded(e) => top.idx <= bot + 1 <= |data| && data[bot] == e
    case Racing(e, lt) =>
      && bot + 1 <= |data| && data[bot] == e && lt.idx == bot
      && (top == lt || top == Top(lt.tag, bot + 1))
    case Reset(b, nt) => bot + 1 == b == top.idx <= |data| && nt == Top(top.tag + 1, b) && nt.tag < TAG_LIMIT
    case ResetTop(nt) => bot == top.idx <= |data| && nt == Top(top.tag + 1, bot) && nt.tag < TAG_LIMIT
    case Sized(lt, d) => claim.None? && top == lt && top.idx == bot <= |data| && d <= |data|
    case Down(nt) =>
      claim.None? && bot < top.idx <= |data| && nt == Top(top.tag + 1, bot) && nt.tag < TAG_LIMIT
    case Up(d) => claim.None? && bot < top.idx == d <= |data|
  }

  /** A thief whose top is current is after a live element. */
  predicate ThiefOk(top: Top, data: seq<int>, b: nat, th: ThiefPc) {
    match th
    case Away => true
    case ReadTop(lt) => Below(lt, top)
    case ReadBot(lt) => Below(lt, top) && lt.idx < |data| && (lt == top ==> lt.idx < b)
    case ReadElem(lt, e) =>
      Below(lt, top) && lt.idx < |data| && (lt == top ==> lt.idx < b && data[lt.idx] == e)
  }

  predicate ClaimOk(b: nat, data: seq<int>, claim: Option<nat>) {
    claim.Some? ==> b <= claim.value <= |data|
  }

  predicate AllReal(s: seq<int>) { FAIL_VALUE !in s }

  predicate ThievesOk(top: Top, data: seq<int>, b: nat, thieves: seq<ThiefPc>) {
    forall t :: 0 <= t < |thieves| ==> ThiefOk(top, data, b, thieves[t])
  }

  /** The log explains the contents, and nothing in them is the fail value. */
  predicate LogOk(log: seq<Event>, q: Deque) {
    Replay(log) == Some(q) && AllReal(q.items) && AllReal(q.claimed)
  }

  predicate Inv(s: State) {
    && OwnerOk(s.top, s.bot, s.data, s.owner, s.claim)
    && ThievesOk(s.top, s.data, Bottom(s.bot, s.owner), s.thieves)
    && ClaimOk(Bottom(s.bot, s.owner), s.data, s.claim)
    && LogOk(s.log, Contents(s))
    && (s.status.Running? || s.status.Misused?)
  }

  // ----- one operation on the log -----

  lemma LogPushed(log: seq<Event>, q: Deque, e: int)
    requires LogOk(log, q) && e != FAIL_VALUE
    ensures LogOk(log + [Pushed(e)], Deque(q.items + [e], q.claimed))
  {
    ReplaySnoc(log, Pushed(e));
  }

  lemma LogTook(log: seq<Event>, items: seq<int>, claimed: seq<int>, e: int)
    requires LogOk(log, Deque(items + [e], claimed))
    ensures e != FAIL_VALUE
    ensures LogOk(log + [Popped(e)], Deque(items, claimed))
    ensures LogOk(log + [Claimed(e)], Deque(items, [e] + claimed))
  {
    hide Replay;
    var all := items + [e];
    assert all[|all| - 1] == e && all[..|all| - 1] == items;
    ReplaySnoc(log, Popped(e));
    ReplaySnoc(log, Claimed(e));
  }

  lemma LogStolen(log: seq<Event>, items: seq<int>, claimed: seq<int>, t: nat, e: int)
    requires LogOk(log, Deque([e] + items, claimed))
    ensures e != FAIL_VALUE && LogOk(log + [Stolen(t, e)], Deque(items, claimed))
  {
    hide Replay;
    var all := [e] + items;
    assert all[0] == e && all[1..] == items;
    ReplaySnoc(log, Stolen(t, e));
  }

  lemma LogFailed(log: seq<Event>, claimed: seq<int>)
    requires LogOk(log, Deque([], claimed))
    ensures LogOk(log + [PopFailed], Deque([], claimed))
  {
    ReplaySnoc(log, PopFailed);
  }

  lemma LogForwarded(log: seq<Event>, q: Deque, i: nat, e: int)
    requires LogOk(log, q) && i < |q.claimed| && e != FAIL_VALUE
    ensures LogOk(log + [Forwarded(i, e)], Deque(q.items, q.claimed[i := e]))
  {
    ReplaySnoc(log, Forwarded(i, e));
  }

  lemma LogReleased(log: seq<Event>, q: Deque)
    requires LogOk(log, q)
    ensures LogOk(log + [Released], Deque(q.items + q.claimed, []))
  {
    ReplaySnoc(log, Released);
  }

  // ----- every action keeps the invariant -----

  /** Thieves are safe if the top only goes up, and while it stays put its live
      element stays too. */
  lemma ThievesKept(top: Top, data: seq<int>, b: nat, thieves: seq<ThiefPc>, top': Top, data': seq<int>, b': nat)
    requires ThievesOk(top, data, b, thieves)
    requires Below(top, top') && |data'| == |data|
    requires top' == top && top.idx < b && top.idx < |data| ==> top.idx < b' && data'[top.idx] == data[top.idx]
    ensures ThievesOk(top', data', b', thieves)
  {
    forall t | 0 <= t < |thieves| ensures ThiefOk(top', data', b', thieves[t]) {
      assert ThiefOk(top, data, b, thieves[t]);
    }
  }

  lemma PushKeeps(s: State, e: int)
    requires Inv(s) && Enabled(s, Push(e))
    ensures Inv(Do(s, Push(e)))
  {
    hide LogOk, ThievesOk;
    var s' := Do(s, Push(e));
    ThievesKept(s.top, s.data, s.bot, s.thieves, s.top, s'.data, s.bot);
    assert Contents(s') == Contents(s);
  }

  lemma PopKeeps(s: State)
    requires Inv(s) && Enabled(s, Pop)
    ensures Inv(Do(s, Pop))
  {
    hide LogOk, ThievesOk;
    if s.bot == 0 { LogFailed(s.log, Contents(s).claimed); }
  }

  lemma StoredKeeps(s: State)
    requires Inv(s) && Enabled(s, OwnerStep) && s.owner.Stored?
    ensures Inv(Do(s, OwnerStep))
  {
    hide LogOk, ThievesOk, Slice;
    LogPushed(s.log, Contents(s), s.owner.e);
    SliceEnds(s.data, s.top.idx, s.bot + 1);
    ThievesKept(s.top, s.data, s.bot, s.thieves, s.top, s.data, s.bot + 1);
  }

  /** The last item goes to the owner; there is at least one. */
  lemma TookLog(s: State)
    requires Inv(s) && (s.owner.Loaded? || s.owner.Racing?) && s.top.idx <= s.bot
    ensures s.owner.e != FAIL_VALUE
    ensures var s' := Took(s, s.owner.e);
      LogOk(s'.log, Deque(Slice(s.data, s.top.idx, s.bot),
                          if s.claim.Some? then Slice(s.data, s.bot, s.claim.value) else []))
  {
    hide LogOk, ThievesOk, Slice;
    SliceEnds(s.data, s.top.idx, s.bot + 1);
    LogTook(s.log, Slice(s.data, s.top.idx, s.bot), Contents(s).claimed, s.owner.e);
    if s.claim.Some? { SliceEnds(s.data, s.bot, s.claim.value); }
  }

  lemma LostLog(s: State)
    requires Inv(s) && (s.owner.Loaded? || s.owner.Racing?) && s.top.idx == s.bot + 1
    ensures LogOk(s.log + [PopFailed], Contents(s))
  {
    hide LogOk, ThievesOk, Replay;
    assert Contents(s).items == [];
    LogFailed(s.log, Contents(s).claimed);
  }

  lemma LoadedKeeps(s: State)
    requires Inv(s) && Enabled(s, OwnerStep) && s.owner.Loaded?
    ensures Inv(Do(s, OwnerStep))
  {
    hide LogOk, ThievesOk, Slice;
    if s.top.idx < s.bot {
      TookLog(s);
      ThievesKept(s.top, s.data, s.bot + 1, s.thieves, s.top, s.data, s.bot);
    } else if s.top.idx == s.bot + 1 {
      LostLog(s);
    }
  }

  lemma RacingKeeps(s: State)
    requires Inv(s) && Enabled(s, OwnerStep) && s.owner.Racing?
    ensures Inv(Do(s, OwnerStep))
  {
    hide LogOk, ThievesOk, Slice;
    if s.top == s.owner.lt {
      TookLog(s);
      ThievesKept(s.top, s.data, s.bot + 1, s.thieves, Top(s.top.tag + 1, s.bot), s.data, s.bot);
    } else {
      LostLog(s);
    }
  }

  lemma QuietKeeps(s: State)
    requires Inv(s) && Enabled(s, OwnerStep)
    requires !s.owner.Stored? && !s.owner.Loaded? && !s.owner.Racing?
    ensures Inv(Do(s, OwnerStep))
  {
    hide LogOk, ThievesOk;
    var s' := Do(s, OwnerStep);
    ThievesKept(s.top, s.data, Bottom(s.bot, s.owner), s.thieves, s'.top, s.data, Bottom(s'.bot, s'.owner));
    assert Contents(s') == Contents(s);
  }

  lemma SetDepthKeeps(s: State, d: nat)
    requires Inv(s) && Enabled(s, SetDepth(d))
    ensures Inv(Do(s, SetDepth(d)))
  {
    hide LogOk, ThievesOk, Slice;
  }

  lemma ClaimKeeps(s: State)
    requires Inv(s) && Enabled(s, BeginClaim)
    ensures Inv(Do(s, BeginClaim))
  {
    hide LogOk, ThievesOk;
    assert Contents(Do(s, BeginClaim)) == Contents(s);
  }

  lemma ForwardKeeps(s: State, i: nat, e: int)
    requires Inv(s) && Enabled(s, Forward(i, e))
    ensures Inv(Do(s, Forward(i, e)))
  {
    hide LogOk, ThievesOk;
    var s' := Do(s, Forward(i, e));
    LogForwarded(s.log, Contents(s), i - s.bot, e);
    ThievesKept(s.top, s.data, s.bot, s.thieves, s.top, s'.data, s.bot);
    assert Contents(s') == Deque(Contents(s).items, Contents(s).claimed[i - s.bot := e]);
  }

  lemma ReleaseKeeps(s: State)
    requires Inv(s) && Enabled(s, Release)
    ensures Inv(Do(s, Release))
  {
    hide LogOk, ThievesOk, Slice;
    LogReleased(s.log, Contents(s));
    SliceJoins(s.data, s.top.idx, s.bot, s.claim.value);
    ThievesKept(s.top, s.data, s.bot, s.thieves, s.top, s.data, s.claim.value);
  }

  lemma StealKeeps(s: State, t: nat)
    requires Inv(s) && Enabled(s, Steal(t))
    ensures Inv(Do(s, Steal(t)))
  {
    hide LogOk, Slice;
  }

  lemma ThiefReadKeeps(s: State, t: nat)
    requires Inv(s) && Enabled(s, ThiefStep(t)) && !s.thieves[t].ReadElem?
    ensures Inv(Do(s, ThiefStep(t)))
  {
    hide LogOk, Slice;
    assert ThiefOk(s.top, s.data, Bottom(s.bot, s.owner), s.thieves[t]);
  }

  lemma ThiefLosesKeeps(s: State, t: nat)
    requires Inv(s) && Enabled(s, ThiefStep(t)) && s.thieves[t].ReadElem? && s.top != s.thieves[t].lt
    ensures Inv(Do(s, ThiefStep(t)))
  {
    hide LogOk, Slice;
  }

  lemma ThiefWinsKeeps(s: State, t: nat)
    requires Inv(s) && Enabled(s, ThiefStep(t)) && s.thieves[t].ReadElem? && s.top == s.thieves[t].lt
    ensures Inv(Do(s, ThiefStep(t)))
  {
    hide LogOk, Slice, ThievesOk;
    var b, top' := Bottom(s.bot, s.owner), Top(s.top.tag, s.top.idx + 1);
    ThiefAt(s.top, s.data, b, s.thieves, t);
    SliceEnds(s.data, s.top.idx, b);
    LogStolen(s.log, Slice(s.data, s.top.idx + 1, b), Contents(s).claimed, t, s.thieves[t].e);
    ThievesKept(s.top, s.data, b, s.thieves, top', s.data, b);
    ThiefLeaves(top', s.data, b, s.thieves, t);
  }

  lemma ThiefAt(top: Top, data: seq<int>, b: nat, thieves: seq<ThiefPc>, t: nat)
    requires ThievesOk(top, data, b, thieves) && t < |thieves|
    ensures ThiefOk(top, data, b, thieves[t])
  {
  }

  lemma ThiefLeaves(top: Top, data: seq<int>, b: nat, thieves: seq<ThiefPc>, t: nat)
    requires ThievesOk(top, data, b, thieves) && t < |thieves|
    ensures ThievesOk(top, data, b, thieves[t := Away])
  {
  }

  lemma DoKeepsInv(s: State, a: Action)
    requires Inv(s) && Enabled(s, a)
    ensures Inv(Do(s, a))
  {
    hide Inv, Do;
    match a
    case Push(e) => PushKeeps(s, e);
    case Pop => PopKeeps(s);
    case SetDepth(d) => SetDepthKeeps(s, d);
    case OwnerStep =>
      if s.owner.Stored? { StoredKeeps(s); }
      else if s.owner.Loaded? { LoadedKeeps(s); }
      else if s.owner.Racing? { RacingKeeps(s); }
      else { QuietKeeps(s); }
    case BeginClaim => ClaimKeeps(s);
    case Forward(i, e) => ForwardKeeps(s, i, e);
    case Release => ReleaseKeeps(s);
    case Steal(t) => StealKeeps(s, t);
    case ThiefStep(t) =>
      if !s.thieves[t].ReadElem? { ThiefReadKeeps(s, t); }
      else if s.top != s.thieves[t].lt { ThiefLosesKeeps(s, t); }
      else { ThiefWinsKeeps(s, t); }
  }

  lemma InitInv(capacity: nat, thieves: nat)
    ensures Inv(Init(capacity, thieves))
  {
  }

  lemma {:induction false} RunKeepsInv(s: State, acts: seq<Action>)
    requires Inv(s) && RunFrom(s, acts).Some?
    ensures Inv(RunFrom(s, acts).value)
    decreases |acts|
  {
    hide Inv, Do, Enabled;
    if acts == [] {
    } else {
      RunKeepsInv(s, acts[..|acts| - 1]);
      DoKeepsInv(RunFrom(s, acts[..|acts| - 1]).value, acts[|acts| - 1]);
    }
  }

  /** In every interleaving the operations, in the order in which they took
      effect, are a run of the sequential deque ending in the current contents;
      and neither sanity check of the pops ever fires. */
  lemma {:induction false} RefinesDeque(capacity: nat, thieves: nat, acts: seq<Action>)
    requires RunFrom(Init(capacity, thieves), acts).Some?
    ensures var s := RunFrom(Init(capacity, thieves), acts).value;
      Replay(s.log) == Some(Contents(s)) && !s.status.Corrupted? && !s.status.BadPop?
  {
    hide Do, Enabled, Replay;
    InitInv(capacity, thieves);
    RunKeepsInv(Init(capacity, thieves), acts);
  }

  /** Setting the depth aborts exactly when the deque is not empty. */
  lemma SetDepthAborts(s: State, d: nat)
    requires Inv(s) && Enabled(s, SetDepth(d))
    ensures Do(s, SetDepth(d)).status.Misused? <==> Contents(s).items != []
  {
    hide Replay;
  }

  // ----- thieves that fail -----

  /** The owner is in the middle of a pop that is not decided yet. */
  predicate Undecided(owner: OwnerPc) { owner.Lowered? || owner.Loaded? || owner.Racing? }

  /** Thief t turns back at its look at the bottom. */
  predicate TurnsBack(s: State, t: nat)
    requires Enabled(s, ThiefStep(t))
  {
    s.thieves[t].ReadTop? && Do(s, ThiefStep(t)).thieves[t].Away?
  }

  /** Thief t loses its swap. */
  predicate LosesSwap(s: State, t: nat)
    requires Enabled(s, ThiefStep(t))
  {
    s.thieves[t].ReadElem? && Do(s, ThiefStep(t)).top == s.top
  }

  /** Exactly when a thief turns back though the deque is not empty: its top is
      current and the owner is about to decide on the one item left, or the owner
      has changed the tag since and the bottom is not above the index of old. */
  lemma TurnsBackExactly(s: State, t: nat)
    requires Inv(s) && Enabled(s, ThiefStep(t)) && s.thieves[t].ReadTop?
    ensures var lt := s.thieves[t].lt;
      TurnsBack(s, t) && Contents(s).items != [] <==>
        || (lt == s.top && Undecided(s.owner) && s.bot == s.top.idx)
        || (lt.tag < s.top.tag && s.bot <= lt.idx && s.top.idx < Bottom(s.bot, s.owner))
  {
    hide Replay;
    ThiefAt(s.top, s.data, Bottom(s.bot, s.owner), s.thieves, t);
  }

  /** Exactly when a thief loses its swap: the owner has changed the tag since, or
      another thief has taken the element it was after; and exactly then with
      something left. */
  lemma LosesSwapExactly(s: State, t: nat)
    requires Inv(s) && Enabled(s, ThiefStep(t)) && s.thieves[t].ReadElem?
    ensures var lt := s.thieves[t].lt;
      LosesSwap(s, t) <==> lt.tag < s.top.tag || (lt.tag == s.top.tag && lt.idx < s.top.idx)
    ensures LosesSwap(s, t) && Contents(s).items != [] <==>
      s.thieves[t].lt != s.top && s.top.idx < Bottom(s.bot, s.owner)
  {
    hide Replay;
    ThiefAt(s.top, s.data, Bottom(s.bot, s.owner), s.thieves, t);
  }

  /** Without a change of tag a thief that turns back between operations of the
      owner has met an empty deque. */
  lemma ThiefTurnsBack(s: State, t: nat)
    requires Inv(s) && Enabled(s, ThiefStep(t)) && s.owner.Free?
    requires s.thieves[t].ReadTop? && s.thieves[t].lt.tag == s.top.tag
    ensures TurnsBack(s, t) ==> Contents(s).items == []
    ensures s.thieves[t].lt == s.top ==> (TurnsBack(s, t) <==> Contents(s).items == [])
  {
    TurnsBackExactly(s, t);
  }

  /** The first kind in a run from the start: one task, the owner has lowered the
      bottom and not yet looked at top. */
  lemma TurnsBackFromUndecided() returns (acts: seq<Action>)
    ensures RunFrom(Init(1, 1), acts).Some?
    ensures var s := RunFrom(Init(1, 1), acts).value;
      && Enabled(s, ThiefStep(0)) && TurnsBack(s, 0)
      && s.thieves[0].lt == s.top && Undecided(s.owner) && Contents(s).items == [7]
  {
    hide RunFrom;
    var s := Init(1, 1);
    acts := [];
    RunNothing(s);
    acts, s := Then(Init(1, 1), acts, s, Push(7));
    acts, s := Then(Init(1, 1), acts, s, OwnerStep);
    acts, s := Then(Init(1, 1), acts, s, Steal(0));
    acts, s := Then(Init(1, 1), acts, s, Pop);
    assert s.data == [7];
  }

  lemma RunNothing(s: State)
    ensures RunFrom(s, []) == Some(s)
  {
  }

  /** The second kind: the thief has read top before the depth was set back. */
  lemma TurnsBackFromOldTop() returns (acts: seq<Action>)
    ensures RunFrom(Init(1, 1), acts).Some?
    ensures var s := RunFrom(Init(1, 1), acts).value;
      && Enabled(s, ThiefStep(0)) && TurnsBack(s, 0)
      && s.thieves[0].lt.tag < s.top.tag && s.owner.Free? && Contents(s).items == [7]
  {
    hide RunFrom;
    var s := Init(1, 1);
    acts := [];
    RunNothing(s);
    acts, s := Then(Init(1, 1), acts, s, SetDepth(1));
    acts, s := Then(Init(1, 1), acts, s, OwnerStep);
    acts, s := Then(Init(1, 1), acts, s, OwnerStep);
    acts, s := Then(Init(1, 1), acts, s, Steal(0));
    acts, s := Then(Init(1, 1), acts, s, SetDepth(0));
    acts, s := Then(Init(1, 1), acts, s, OwnerStep);
    acts, s := Then(Init(1, 1), acts, s, OwnerStep);
    acts, s := Then(Init(1, 1), acts, s, Push(7));
    acts, s := Then(Init(1, 1), acts, s, OwnerStep);
    assert s.data == [7];
  }

  // ----- the 32-bit tag of set depth -----

  /** The tag goes up exactly while the next one fits in 26 bits. */
  lemma DepthTagGoesUp(tag: nat)
    ensures DepthBump(tag) > tag <==> tag + 1 < DEPTH_TAG_LIMIT
  {
  }

  /** The step of set depth that computes the tag, the one that stores it, and
      the swap of thief 0 after them, are a theft from an empty deque. */
  predicate StealsFromEmpty(s: State) {
    && s.owner.Sized? && s.top.tag + 1 == DEPTH_TAG_LIMIT && Contents(s).items == []
    && var s1 := OwnerNext(s);
    && Enabled(s1, OwnerStep)
    && var s2 := Do(s1, OwnerStep);
    && Enabled(s2, ThiefStep(0))
    && Replay(s2.log).Some? && Replay(Do(s2, ThiefStep(0)).log).None?
  }

  /** A thief has read an element and sleeps; it was popped, a pop failed, and the
      depth has been set back and forth until the tag is n. */
  function Asleep(n: nat, idx: nat): State {
    State(Top(n, idx), idx, [7], Free, [ReadElem(Top(0, 0), 7)], None, Running,
          [Pushed(7), Popped(7), PopFailed])
  }

  /** In a run from the start the 32-bit tag comes round, and the sleeping thief
      takes from an empty deque the element that was popped long ago. */
  lemma DepthTagWraps() returns (acts: seq<Action>)
    ensures RunFrom(Init(1, 1), acts).Some? && StealsFromEmpty(RunFrom(Init(1, 1), acts).value)
  {
    hide RunFrom, Replay;
    acts := TagGoesUp(DEPTH_TAG_LIMIT / 2 - 2);
    var s := Asleep(DEPTH_TAG_LIMIT - 1, 1);
    RunSnoc(Init(1, 1), acts, s, SetDepth(0));
    acts := acts + [SetDepth(0)];
    WrapLog();
    WrapSteps(Do(s, SetDepth(0)));
  }

  lemma WrapSteps(s: State)
    requires Replay(s.log) == Some(Deque([], [])) && s.status.Running?
    requires s.top == Top(DEPTH_TAG_LIMIT - 1, 1) && s.bot == 1 && s.data == [7] && s.claim.None?
    requires s.owner == Sized(s.top, 0) && s.thieves == [ReadElem(Top(0, 0), 7)]
    ensures StealsFromEmpty(s)
  {
    hide Replay;
    ReplaySnoc(s.log, Stolen(0, 7));
    assert Contents(s) == Deque([], []);
  }

  lemma WrapLog()
    ensures Replay([Pushed(7), Popped(7), PopFailed]) == Some(Deque([], []))
  {
    hide Replay;
    EmptyReplay();
    ReplaySnoc([], Pushed(7));
    assert [] + [Pushed(7)] == [Pushed(7)];
    ReplaySnoc([Pushed(7)], Popped(7));
    assert [Pushed(7)] + [Popped(7)] == [Pushed(7), Popped(7)];
    ReplaySnoc([Pushed(7), Popped(7)], PopFailed);
    assert [Pushed(7), Popped(7)] + [PopFailed] == [Pushed(7), Popped(7), PopFailed];
  }

  lemma EmptyReplay()
    ensures Replay([]) == Some(Deque([], []))
  {
  }

  /** Each round of setting the depth to zero and back adds two to the tag. */
  lemma {:induction false} TagGoesUp(k: nat) returns (acts: seq<Action>)
    requires 2 * k + 3 < DEPTH_TAG_LIMIT
    ensures RunFrom(Init(1, 1), acts) == Some(Asleep(2 * k + 3, 1))
  {
    hide RunFrom, Init;
    if k == 0 {
      acts := FallAsleep();
    } else {
      acts := TagGoesUp(k - 1);
      acts := SetDepthRun(Init(1, 1), acts, Asleep(2 * k + 1, 1), 0);
      acts := SetDepthRun(Init(1, 1), acts, Asleep(2 * k + 2, 0), 1);
    }
  }

  /** Setting the depth of a sleeper's deque. */
  lemma SetDepthRun(s0: State, acts: seq<Action>, s: State, d: nat) returns (more: seq<Action>)
    requires RunFrom(s0, acts) == Some(s) && d <= 1 && s.top.tag + 1 < DEPTH_TAG_LIMIT
    requires s == Asleep(s.top.tag, 1 - d)
    ensures RunFrom(s0, more) == Some(Asleep(s.top.tag + 1, d))
  {
    hide RunFrom;
    RunSnoc(s0, acts, s, SetDepth(d));
    var s1 := Do(s, SetDepth(d));
    more := acts + [SetDepth(d)];
    RunSnoc(s0, more, s1, OwnerStep);
    var s2 := Do(s1, OwnerStep);
    more := more + [OwnerStep];
    RunSnoc(s0, more, s2, OwnerStep);
    more := more + [OwnerStep];
  }

  /** One more action. */
  lemma Then(s0: State, acts: seq<Action>, s: State, a: Action) returns (more: seq<Action>, s': State)
    requires RunFrom(s0, acts) == Some(s) && Enabled(s, a)
    ensures more == acts + [a] && s' == Do(s, a) && RunFrom(s0, more) == Some(s')
  {
    RunSnoc(s0, acts, s, a);
    more, s' := acts + [a], Do(s, a);
  }

  /** Push, let the thief read, pop, set the depth to one, and fail to pop. */
  lemma FallAsleep() returns (acts: seq<Action>)
    ensures RunFrom(Init(1, 1), acts) == Some(Asleep(3, 1))
  {
    hide RunFrom;
    var s: State;
    acts, s := ThiefReads();
    acts, s := Then(Init(1, 1), acts, s, Pop);
    acts, s := Then(Init(1, 1), acts, s, OwnerStep);
    acts, s := Then(Init(1, 1), acts, s, OwnerStep);
    acts, s := Then(Init(1, 1), acts, s, OwnerStep);
    assert s.top == Top(1, 0) && s.owner == Free && s.bot == 0;
    acts := FailToPop(acts, s);
  }

  lemma ThiefReads() returns (acts: seq<Action>, s: State)
    ensures RunFrom(Init(1, 1), acts) == Some(s)
    ensures s == State(Top(0, 0), 1, [7], Free, [ReadElem(Top(0, 0), 7)], None, Running, [Pushed(7)])
  {
    acts, s := [], Init(1, 1);
    hide RunFrom;
    acts, s := Then(Init(1, 1), acts, s, Push(7));
    acts, s := Then(Init(1, 1), acts, s, OwnerStep);
    acts, s := Then(Init(1, 1), acts, s, Steal(0));
    acts, s := Then(Init(1, 1), acts, s, ThiefStep(0));
    acts, s := Then(Init(1, 1), acts, s, ThiefStep(0));
    assert s.data == [7] && s.log == [Pushed(7)];
    assert s.thieves == [ReadElem(Top(0, 0), 7)];
  }

  lemma FailToPop(before: seq<Action>, s0: State) returns (acts: seq<Action>)
    requires RunFrom(Init(1, 1), before) == Some(s0)
    requires s0.top == Top(1, 0) && s0.bot == 0 && s0.data == [7] && s0.owner == Free && s0.claim == None
    requires s0.thieves == [ReadElem(Top(0, 0), 7)] && s0.status == Running && s0.log == [Pushed(7), Popped(7)]
    ensures RunFrom(Init(1, 1), acts) == Some(Asleep(3, 1))
  {
    hide RunFrom;
    var s: State;
    acts, s := Then(Init(1, 1), before, s0, SetDepth(1));
    acts, s := Then(Init(1, 1), acts, s, OwnerStep);
    acts, s := Then(Init(1, 1), acts, s, OwnerStep);
    acts, s := Then(Init(1, 1), acts, s, Pop);
    acts, s := Then(Init(1, 1), acts, s, OwnerStep);
    acts, s := Then(Init(1, 1), acts, s, OwnerStep);
    acts, s := Then(Init(1, 1), acts, s, OwnerStep);
    acts, s := Then(Init(1, 1), acts, s, OwnerStep);
    assert s.log == [Pushed(7), Popped(7), PopFailed];
  }

  // ----- what a claim guarantees -----

  /** While levels are claimed, whatever is stolen lies below them. */
  lemma ClaimedIsSafe(s: State, t: nat)
    requires Inv(s) && s.claim.Some? && Enabled(s, ThiefStep(t))
    requires Do(s, ThiefStep(t)).top != s.top
    ensures s.top.idx < Bottom(s.bot, s.owner) <= s.claim.value
    ensures Contents(Do(s, ThiefStep(t))).claimed == Contents(s).claimed
    ensures s.owner.Free? ==> s.top.idx < s.bot
  {
    hide Replay;
    assert ThiefOk(s.top, s.data, Bottom(s.bot, s.owner), s.thieves[t]);
  }
}
