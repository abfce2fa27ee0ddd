/**
 Who gets which task: every pushed element is followed by the log position of
 its push, through claims, forwarding and releases, until somebody takes it.
 */
module DequeBook {
  import opened Options
  import opened Increasing
  import opened AbpDeque

  /** Like Deque, but of push positions; value gives each its current element. */
  datatype Book = Book(items: seq<nat>, claimed: seq<nat>, taken: seq<nat>, value: map<nat, int>)

  function Enter(b: Book, pos: nat, e: Event): Book {
    var items, claimed := b.items, b.claimed;
    match e
    case Pushed(x) => b.(items := items + [pos], value := b.value[pos := x])
    case Popped(_) =>
      if items == [] then b else b.(items := items[..|items| - 1], taken := b.taken + [items[|items| - 1]])
    case PopFailed => b
    case Stolen(_, _) =>
      if items == [] then b else b.(items := items[1..], taken := b.taken + [items[0]])
    case Claimed(_) =>
      if items == [] then b
      else b.(items := items[..|items| - 1], claimed := [items[|items| - 1]] + claimed)
    case Forwarded(i, x) =>
      if i < |claimed| then b.(value := b.value[claimed[i] := x]) else b
    case Released => b.(items := items + claimed, claimed := [])
  }

  function Books(log: seq<Event>): Book {
    if log == [] then Book([], [], [], map[])
    else Enter(Books(log[..|log| - 1]), |log| - 1, log[|log| - 1])
  }

  /** The positions of the pushes. */
  function Pushes(log: seq<Event>): seq<nat> {
    if log == [] then []
    else Pushes(log[..|log| - 1]) + (if log[|log| - 1].Pushed? then [|log| - 1] else [])
  }

  predicate Denotes(ids: seq<nat>, value: map<nat, int>, items: seq<int>) {
    |ids| == |items| && forall k :: 0 <= k < |ids| ==> ids[k] in value && value[ids[k]] == items[k]
  }

  predicate Before(ids: seq<nat>, n: nat) { forall k :: 0 <= k < |ids| ==> ids[k] < n }

  function Held(b: Book): multiset<nat> {
    multiset(b.items) + multiset(b.claimed) + multiset(b.taken)
  }

  /** The book follows the deque, in order of age. */
  predicate Follows(b: Book, q: Deque, n: nat) {
    && Denotes(b.items, b.value, q.items) && Denotes(b.claimed, b.value, q.claimed)
    && Increases(b.items + b.claimed) && Before(b.items + b.claimed, n)
  }

  lemma TakeLast(b: Book, q: Deque, n: nat)
    requires Follows(b, q, n) && b.items != []
    ensures var last := |b.items| - 1;
      && Follows(b.(items := b.items[..last]), Deque(q.items[..last], q.claimed), n)
      && Follows(b.(items := b.items[..last], claimed := [b.items[last]] + b.claimed),
                 Deque(q.items[..last], [q.items[last]] + q.claimed), n)
  {
    var last, all := |b.items| - 1, b.items + b.claimed;
    assert b.items[..last] + ([b.items[last]] + b.claimed) == all;
    var rest := b.items[..last] + b.claimed;
    assert forall k :: 0 <= k < |rest| ==> rest[k] == all[if k < last then k else k + 1];
  }

  lemma TakeFirst(b: Book, q: Deque, n: nat)
    requires Follows(b, q, n) && b.items != []
    ensures Follows(b.(items := b.items[1..]), Deque(q.items[1..], q.claimed), n)
  {
    assert b.items[1..] + b.claimed == (b.items + b.claimed)[1..];
  }

  lemma Add(b: Book, q: Deque, n: nat, x: int)
    requires Follows(b, q, n) && b.claimed == []
    ensures Follows(b.(items := b.items + [n], value := b.value[n := x]), Deque(q.items + [x], q.claimed), n + 1)
  {
    assert b.items + b.claimed == b.items;
    assert (b.items + [n]) + b.claimed == b.items + [n];
  }

  lemma Rename(b: Book, q: Deque, n: nat, i: nat, x: int)
    requires Follows(b, q, n) && i < |b.claimed|
    ensures Follows(b.(value := b.value[b.claimed[i] := x]), Deque(q.items, q.claimed[i := x]), n)
  {
    var all := b.items + b.claimed;
    assert forall k :: 0 <= k < |b.items| ==> all[k] == b.items[k];
    assert forall k :: 0 <= k < |b.claimed| ==> all[|b.items| + k] == b.claimed[k];
  }

  lemma Return(b: Book, q: Deque, n: nat)
    requires Follows(b, q, n)
    ensures Follows(b.(items := b.items + b.claimed, claimed := []), Deque(q.items + q.claimed, []), n)
  {
    assert b.items + b.claimed + [] == b.items + b.claimed;
  }

  /** Pushes happen only while nothing is claimed. */
  predicate PushesUnclaimed(log: seq<Event>) {
    log != [] ==>
      && PushesUnclaimed(log[..|log| - 1])
      && (log[|log| - 1].Pushed? ==> Books(log[..|log| - 1]).claimed == [])
  }

  lemma {:induction false} BookFollows(log: seq<Event>)
    requires Replay(log).Some? && PushesUnclaimed(log)
    ensures Follows(Books(log), Replay(log).value, |log|)
    decreases |log|
  {
    hide Follows;
    if log == [] {
      EmptyFollows();
    } else {
      var front, e := log[..|log| - 1], log[|log| - 1];
      BookFollows(front);
      EnterFollows(Books(front), Replay(front).value, |front|, e);
    }
  }

  lemma EmptyFollows()
    ensures Follows(Book([], [], [], map[]), Deque([], []), 0)
  {
  }

  lemma Later(b: Book, q: Deque, n: nat)
    requires Follows(b, q, n)
    ensures Follows(b, q, n + 1) && |b.items| == |q.items| && |b.claimed| == |q.claimed|
  {
  }

  lemma Taken(b: Book, q: Deque, n: nat, taken: seq<nat>)
    requires Follows(b, q, n)
    ensures Follows(b.(taken := taken), q, n)
  {
  }

  lemma EnterFollows(b: Book, q: Deque, n: nat, e: Event)
    requires Follows(b, q, n) && Apply(q, e).Some? && (e.Pushed? ==> b.claimed == [])
    ensures Follows(Enter(b, n, e), Apply(q, e).value, n + 1)
  {
    hide Follows;
    Later(b, q, n);
    match e {
      case Pushed(x) => Add(b, q, n, x);
      case Popped(_) =>
        TakeLast(b, q, n + 1);
        Taken(b.(items := b.items[..|b.items| - 1]), Apply(q, e).value, n + 1, Enter(b, n, e).taken);
      case Claimed(_) => TakeLast(b, q, n + 1);
      case Stolen(_, _) =>
        TakeFirst(b, q, n + 1);
        Taken(b.(items := b.items[1..]), Apply(q, e).value, n + 1, Enter(b, n, e).taken);
      case Forwarded(i, x) => Rename(b, q, n + 1, i, x);
      case Released => Return(b, q, n + 1);
      case PopFailed =>
    }
  }

  // ----- nothing lost, nothing twice -----

  lemma EnterHeld(b: Book, n: nat, e: Event)
    ensures Held(Enter(b, n, e)) == Held(b) + (if e.Pushed? then multiset{n} else multiset{})
  {
    hide Held;
    if b.items != [] { HeldLast(b); HeldFirst(b); }
    if !e.Popped? && !e.Claimed? && !e.Stolen? { HeldOther(b, n, e); }
  }

  lemma HeldLast(b: Book)
    requires b.items != []
    ensures var last := |b.items| - 1;
      && Held(b.(items := b.items[..last], taken := b.taken + [b.items[last]])) == Held(b)
      && Held(b.(items := b.items[..last], claimed := [b.items[last]] + b.claimed)) == Held(b)
  {
    SplitEnds(b.items);
  }

  lemma HeldFirst(b: Book)
    requires b.items != []
    ensures Held(b.(items := b.items[1..], taken := b.taken + [b.items[0]])) == Held(b)
  {
    SplitEnds(b.items);
  }

  lemma HeldOther(b: Book, n: nat, e: Event)
    requires e.Pushed? || e.PopFailed? || e.Forwarded? || e.Released?
    ensures Held(Enter(b, n, e)) == Held(b) + (if e.Pushed? then multiset{n} else multiset{})
  {
  }

  lemma SplitEnds(ids: seq<nat>)
    requires ids != []
    ensures multiset(ids) == multiset(ids[..|ids| - 1]) + multiset{ids[|ids| - 1]}
    ensures multiset(ids) == multiset(ids[1..]) + multiset{ids[0]}
  {
    assert ids == ids[..|ids| - 1] + [ids[|ids| - 1]];
    assert ids == [ids[0]] + ids[1..];
  }

  lemma {:induction false} HeldIsPushed(log: seq<Event>)
    ensures Held(Books(log)) == multiset(Pushes(log))
    decreases |log|
  {
    hide Held;
    if log == [] {
      EmptyHeld();
    } else {
      HeldIsPushed(log[..|log| - 1]);
      EnterHeld(Books(log[..|log| - 1]), |log| - 1, log[|log| - 1]);
    }
  }

  lemma EmptyHeld()
    ensures Held(Book([], [], [], map[])) == multiset{}
  {
  }

  lemma {:induction false} PushesIncrease(log: seq<Event>)
    ensures Increases(Pushes(log)) && Before(Pushes(log), |log|)
    decreases |log|
  {
    if log == [] {
    } else {
      PushesIncrease(log[..|log| - 1]);
    }
  }

  /** Every pushed element is waiting, claimed or taken, and only once. */
  lemma NoneLostNoneTwice(log: seq<Event>)
    ensures Held(Books(log)) == multiset(Pushes(log))
    ensures forall id: nat ::
      multiset(Books(log).taken)[id] + multiset(Books(log).items)[id] + multiset(Books(log).claimed)[id] <= 1
  {
    HeldIsPushed(log);
    PushesIncrease(log);
    var b := Books(log);
    forall id: nat ensures multiset(b.taken)[id] + multiset(b.items)[id] + multiset(b.claimed)[id] <= 1 {
      AtMostOnce(Pushes(log), id);
      assert Held(b)[id] <= 1;
    }
  }

  // ----- who takes what -----

  /** A thief takes the oldest task there is; the owner takes the youngest one
      that is not claimed; each gets the element pushed or last forwarded. */
  lemma WhoTakesWhat(log: seq<Event>, e: Event)
    requires Replay(log + [e]).Some? && PushesUnclaimed(log + [e])
    ensures var b := Books(log); var all := b.items + b.claimed; var last := |b.items| - 1;
      && (e.Stolen? ==>
            && b.items != [] && b.items[0] in b.value && e.e == b.value[b.items[0]]
            && forall k :: 0 < k < |all| ==> b.items[0] < all[k])
      && (e.Popped? || e.Claimed? ==>
            && b.items != [] && b.items[last] in b.value && e.e == b.value[b.items[last]]
            && forall k :: 0 <= k < last ==> b.items[k] < b.items[last])
      && (e.PopFailed? ==> b.items == [])
  {
    hide Replay;
    Fronts(log, e);
    BookFollows(log);
    var b := Books(log);
    var all := b.items + b.claimed;
    assert forall k :: 0 <= k < |b.items| ==> all[k] == b.items[k];
  }

  lemma Fronts(log: seq<Event>, e: Event)
    requires Replay(log + [e]).Some? && PushesUnclaimed(log + [e])
    ensures Replay(log).Some? && PushesUnclaimed(log) && Apply(Replay(log).value, e).Some?
  {
    assert (log + [e])[..|log|] == log;
  }

  // ----- from claim to release -----

  /** What can happen while the collector holds its claim. */
  predicate DuringClaim(seg: seq<Event>) {
    forall k :: 0 <= k < |seg| ==>
      seg[k].Claimed? || seg[k].Forwarded? || seg[k].Stolen? || seg[k].PopFailed?
  }

  function Thefts(seg: seq<Event>): nat {
    if seg == [] then 0 else Thefts(seg[..|seg| - 1]) + (if seg[|seg| - 1].Stolen? then 1 else 0)
  }

  /** Of book b, k items from the front are gone and the rest is there in order. */
  ghost predicate LessFront(b: Book, k: nat, c: Book) {
    k <= |b.items| && |c.claimed| >= |b.claimed| && c.items + c.claimed == (b.items + b.claimed)[k..]
  }

  lemma LessFrontStep(b: Book, k: nat, c: Book, n: nat, e: Event)
    requires LessFront(b, k, c)
    requires e.Claimed? || e.Forwarded? || e.Stolen? || e.PopFailed?
    requires e.Claimed? || e.Stolen? ==> c.items != []
    ensures LessFront(b, k + if e.Stolen? then 1 else 0, Enter(c, n, e))
  {
    hide Enter;
    OneStep(c, n, e);
    assert |c.items + c.claimed| == |b.items| + |b.claimed| - k;
    if e.Stolen? { DropDrop(b.items + b.claimed, k, 1); }
  }

  lemma {:induction false} ClaimKeepsOrder(log: seq<Event>, seg: seq<Event>)
    requires Replay(log + seg).Some? && PushesUnclaimed(log + seg)
    requires DuringClaim(seg) && Replay(log).Some? && PushesUnclaimed(log)
    ensures LessFront(Books(log), Thefts(seg), Books(log + seg))
    decreases |seg|
  {
    hide Replay, PushesUnclaimed, Books, Enter, LessFront;
    if seg == [] {
      assert log + seg == log;
      NothingGone(Books(log));
    } else {
      var front, e := seg[..|seg| - 1], seg[|seg| - 1];
      SplitLast(log, seg);
      Fronts(log + front, e);
      ClaimKeepsOrder(log, front);
      WhoTakesWhat(log + front, e);
      BookSnoc(log + front, e);
      LessFrontStep(Books(log), Thefts(front), Books(log + front), |log + front|, e);
    }
  }

  lemma NothingGone(b: Book)
    ensures LessFront(b, 0, b)
  {
  }

  lemma SplitLast(log: seq<Event>, seg: seq<Event>)
    requires seg != []
    ensures log + seg == (log + seg[..|seg| - 1]) + [seg[|seg| - 1]]
  {
  }

  lemma DropDrop(ids: seq<nat>, k: nat, d: nat)
    requires k + d <= |ids|
    ensures ids[k..][d..] == ids[k + d..]
  {
  }

  lemma BookSnoc(log: seq<Event>, e: Event)
    ensures Books(log + [e]) == Enter(Books(log), |log|, e)
  {
    assert (log + [e])[..|log|] == log;
  }

  lemma OneStep(c: Book, n: nat, e: Event)
    requires e.Claimed? || e.Forwarded? || e.Stolen? || e.PopFailed?
    requires e.Claimed? || e.Stolen? ==> c.items != []
    ensures var d := Enter(c, n, e);
      |d.claimed| >= |c.claimed| && d.items + d.claimed == (c.items + c.claimed)[if e.Stolen? then 1 else 0..]
  {
  }

  /** Releasing gives back exactly the tasks that were there before the claim,
      in their order, less those stolen meanwhile. */
  lemma ReleaseRestores(log: seq<Event>, seg: seq<Event>)
    requires Replay(log + seg).Some? && PushesUnclaimed(log + seg)
    requires DuringClaim(seg) && Replay(log).Some? && PushesUnclaimed(log) && Books(log).claimed == []
    ensures var c := Books(log + seg + [Released]);
      Thefts(seg) <= |Books(log).items| && c.items == Books(log).items[Thefts(seg)..] && c.claimed == []
  {
    ClaimKeepsOrder(log, seg);
    BookSnoc(log + seg, Released);
    assert Books(log).items + [] == Books(log).items;
  }

  // ----- the same of every run of the machine -----

  predicate BookInv(s: State) {
    PushesUnclaimed(s.log) && (s.claim.None? ==> Books(s.log).claimed == [])
  }

  /** An action logs at most one event, and that only says what it may say. */
  lemma NewEvent(s: State, a: Action) returns (seg: seq<Event>)
    requires Inv(s) && Enabled(s, a)
    ensures Do(s, a).log == s.log + seg && |seg| <= 1
    ensures seg != [] ==>
      && (seg[0].Pushed? ==> s.claim.None?)
      && (seg[0].Claimed? || seg[0].Forwarded? ==> s.claim.Some?)
      && (s.claim.Some? && !a.Release? ==> DuringClaim(seg))
    ensures a.Release? ==> seg == [Released]
    ensures !a.Release? && !a.BeginClaim? ==> Do(s, a).claim == s.claim
  {
    hide LogOk, ThievesOk, Contents;
    var s' := Do(s, a);
    seg := s'.log[|s.log|..];
  }

  lemma BookStep(s: State, a: Action)
    requires Inv(s) && BookInv(s) && Enabled(s, a)
    ensures BookInv(Do(s, a))
  {
    hide Inv, PushesUnclaimed, Books, Contents;
    var s' := Do(s, a);
    var seg := NewEvent(s, a);
    if seg == [] {
      assert s'.log == s.log;
    } else {
      assert s'.log == s.log + [seg[0]];
      SnocUnclaimed(s.log, seg[0]);
      BookSnoc(s.log, seg[0]);
    }
  }

  lemma SnocUnclaimed(log: seq<Event>, e: Event)
    requires PushesUnclaimed(log) && (e.Pushed? ==> Books(log).claimed == [])
    ensures PushesUnclaimed(log + [e])
  {
    assert (log + [e])[..|log|] == log;
  }

  lemma {:induction false} RunBook(s: State, acts: seq<Action>)
    requires Inv(s) && BookInv(s) && RunFrom(s, acts).Some?
    ensures BookInv(RunFrom(s, acts).value)
    decreases |acts|
  {
    hide Inv, BookInv, Do, Enabled;
    if acts == [] {
    } else {
      RunBook(s, acts[..|acts| - 1]);
      RunKeepsInv(s, acts[..|acts| - 1]);
      BookStep(RunFrom(s, acts[..|acts| - 1]).value, acts[|acts| - 1]);
    }
  }

  /** In every interleaving each task pushed is taken at most once, and is
      waiting or claimed as long as nobody took it. */
  lemma {:induction false} DequeConserves(capacity: nat, thieves: nat, acts: seq<Action>)
    requires RunFrom(Init(capacity, thieves), acts).Some?
    ensures var s := RunFrom(Init(capacity, thieves), acts).value;
      var b := Books(s.log);
      && Held(b) == multiset(Pushes(s.log))
      && (forall id: nat :: Held(b)[id] <= 1)
      && Denotes(b.items, b.value, Contents(s).items) && Denotes(b.claimed, b.value, Contents(s).claimed)
      && Increases(b.items + b.claimed)
  {
    hide Inv, Do, Enabled, Replay;
    var s0 := Init(capacity, thieves);
    InitInv(capacity, thieves);
    assert BookInv(s0);
    RunBook(s0, acts);
    RefinesDeque(capacity, thieves, acts);
    var log := RunFrom(s0, acts).value.log;
    BookFollows(log);
    NoneLostNoneTwice(log);
  }

  lemma {:induction false} ClaimedRun(s: State, acts: seq<Action>) returns (seg: seq<Event>)
    requires Inv(s) && s.claim.Some? && RunFrom(s, acts).Some? && Release !in acts
    ensures var s' := RunFrom(s, acts).value;
      s'.log == s.log + seg && DuringClaim(seg) && s'.claim == s.claim
    decreases |acts|
  {
    hide Inv, Do;
    if acts == [] {
      seg := [];
      assert s.log + [] == s.log;
    } else {
      var front := acts[..|acts| - 1];
      var older := ClaimedRun(s, front);
      RunKeepsInv(s, front);
      var newer := NewEvent(RunFrom(s, front).value, acts[|acts| - 1]);
      seg := older + newer;
      assert s.log + older + newer == s.log + seg;
    }
  }

  /** The collector claims, any thefts and forwardings happen, the collector
      releases: the bottom is back where it was, and the deque holds exactly the
      tasks it held before the claim less those stolen since. */
  lemma {:induction false} ClaimThenRelease(capacity: nat, thieves: nat, before: seq<Action>, during: seq<Action>)
    returns (seg: seq<Event>)
    requires var run := RunFrom(Init(capacity, thieves), before);
      && run.Some? && Enabled(run.value, BeginClaim) && Release !in during
      && var held := RunFrom(Do(run.value, BeginClaim), during);
      && held.Some? && Enabled(held.value, Release)
    ensures var s := RunFrom(Init(capacity, thieves), before).value;
      var s' := Do(RunFrom(Do(s, BeginClaim), during).value, Release);
      && s'.bot == s.bot && s'.claim.None? && s'.log == s.log + seg + [Released] && DuringClaim(seg)
      && Thefts(seg) <= |Books(s.log).items|
      && Books(s'.log).items == Books(s.log).items[Thefts(seg)..]
  {
    hide Inv, Replay, Books, Thefts, PushesUnclaimed, RunFrom;
    var s0 := Init(capacity, thieves);
    InitInv(capacity, thieves);
    InitBook(capacity, thieves);
    RunKeepsInv(s0, before);
    RunBook(s0, before);
    var s := RunFrom(s0, before).value;
    var s1 := Do(s, BeginClaim);
    DoKeepsInv(s, BeginClaim);
    BookStep(s, BeginClaim);
    seg := ClaimedRun(s1, during);
    RunKeepsInv(s1, during);
    RunBook(s1, during);
    Explained(s);
    Explained(RunFrom(s1, during).value);
    ReleaseRestores(s.log, seg);
  }

  /** Between claim and release a thief takes only what lies below the claimed
      levels: the claimed tasks stay, and the one taken is none of them. */
  lemma {:induction false} ClaimedAreNotStolen(capacity: nat, thieves: nat, before: seq<Action>, during: seq<Action>,
                                               t: nat)
    requires var run := RunFrom(Init(capacity, thieves), before);
      && run.Some? && Enabled(run.value, BeginClaim) && Release !in during
      && var held := RunFrom(Do(run.value, BeginClaim), during);
      && held.Some? && Enabled(held.value, ThiefStep(t)) && Do(held.value, ThiefStep(t)).log != held.value.log
    ensures var s := RunFrom(Init(capacity, thieves), before).value;
      var h := RunFrom(Do(s, BeginClaim), during).value;
      var h' := Do(h, ThiefStep(t));
      && h.claim == Some(s.bot) && h.top.idx < Bottom(h.bot, h.owner) <= s.bot
      && Contents(h').claimed == Contents(h).claimed && Books(h'.log).claimed == Books(h.log).claimed
      && Books(h.log).items != [] && Books(h.log).items[0] !in Books(h.log).claimed
      && Books(h'.log).taken == Books(h.log).taken + [Books(h.log).items[0]]
  {
    hide Inv, Replay, Books, PushesUnclaimed, RunFrom, Contents;
    var s0 := Init(capacity, thieves);
    InitInv(capacity, thieves);
    InitBook(capacity, thieves);
    RunKeepsInv(s0, before);
    RunBook(s0, before);
    var s := RunFrom(s0, before).value;
    var s1 := Do(s, BeginClaim);
    DoKeepsInv(s, BeginClaim);
    BookStep(s, BeginClaim);
    var seg := ClaimedRun(s1, during);
    RunKeepsInv(s1, during);
    RunBook(s1, during);
    var h := RunFrom(s1, during).value;
    ClaimedIsSafe(h, t);
    DoKeepsInv(h, ThiefStep(t));
    BookStep(h, ThiefStep(t));
    Explained(Do(h, ThiefStep(t)));
    var e := Stolen(t, h.thieves[t].e);
    WhoTakesWhat(h.log, e);
    BookSnoc(h.log, e);
    var b := Books(h.log);
    assert forall j :: 0 <= j < |b.claimed| ==> b.claimed[j] == (b.items + b.claimed)[|b.items| + j];
  }

  lemma InitBook(capacity: nat, thieves: nat)
    ensures BookInv(Init(capacity, thieves))
  {
  }

  lemma Explained(s: State)
    requires Inv(s)
    ensures Replay(s.log).Some?
  {
  }

  /** In every interleaving, whenever a task is taken: a thief takes the oldest one
      there is, the owner or the collector the youngest unclaimed one, each with
      the element now in the deque; and a pop fails only on an empty deque. */
  lemma {:induction false} EveryRunTakesInOrder(capacity: nat, thieves: nat, acts: seq<Action>, a: Action)
    requires RunFrom(Init(capacity, thieves), acts).Some?
    requires Enabled(RunFrom(Init(capacity, thieves), acts).value, a)
    requires var s := RunFrom(Init(capacity, thieves), acts).value; |Do(s, a).log| > |s.log|
    ensures var s := RunFrom(Init(capacity, thieves), acts).value;
      var e, b, q := Do(s, a).log[|s.log|], Books(s.log), Contents(s);
      var all, last := b.items + b.claimed, |b.items| - 1;
      && |b.items| == |q.items|
      && (e.Stolen? ==>
            && q.items != [] && e.e == q.items[0] && Enter(b, |s.log|, e).taken == b.taken + [b.items[0]]
            && forall k :: 0 < k < |all| ==> b.items[0] < all[k])
      && (e.Popped? || e.Claimed? ==>
            && q.items != [] && e.e == q.items[last]
            && forall k :: 0 <= k < last ==> b.items[k] < b.items[last])
      && (e.PopFailed? ==> q.items == [])
  {
    hide Inv, Replay, Books, RunFrom, PushesUnclaimed, Do, Enabled, Contents;
    var s0 := Init(capacity, thieves);
    InitInv(capacity, thieves);
    InitBook(capacity, thieves);
    RunKeepsInv(s0, acts);
    RunBook(s0, acts);
    var s := RunFrom(s0, acts).value;
    LastTaken(s, a);
  }

  lemma LastTaken(s: State, a: Action)
    requires Inv(s) && BookInv(s) && Enabled(s, a) && |Do(s, a).log| > |s.log|
    ensures var e, b, q := Do(s, a).log[|s.log|], Books(s.log), Contents(s);
      var all, last := b.items + b.claimed, |b.items| - 1;
      && |b.items| == |q.items|
      && (e.Stolen? ==>
            && q.items != [] && e.e == q.items[0] && Enter(b, |s.log|, e).taken == b.taken + [b.items[0]]
            && forall k :: 0 < k < |all| ==> b.items[0] < all[k])
      && (e.Popped? || e.Claimed? ==>
            && q.items != [] && e.e == q.items[last]
            && forall k :: 0 <= k < last ==> b.items[k] < b.items[last])
      && (e.PopFailed? ==> q.items == [])
  {
    hide Inv, Replay, Books, Do, Enabled, Contents, PushesUnclaimed;
    var s' := Do(s, a);
    var seg := NewEvent(s, a);
    var e := seg[0];
    assert s'.log == s.log + [e];
    DoKeepsInv(s, a);
    BookStep(s, a);
    Explained(s);
    Explained(s');
    SameContents(s);
    WhoTakesWhat(s.log, e);
    BookFollows(s.log);
  }

  lemma SameContents(s: State)
    requires Inv(s)
    ensures Replay(s.log) == Some(Contents(s))
  {
  }
}
