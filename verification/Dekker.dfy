/**
 The two-sided lock of the parallel runtime, one caller per side: every read,
 store and compare-and-swap is one action.
 */
module Dekker {

  datatype Side = Left | Right

  datatype Pc =
    | Out
    | Raised          // own flag up: about to read the other flag
    | Blocked         // the other flag was up: about to read the turn
    | Lowering        // it was the other's turn: about to lower the own flag
    | Waiting         // own flag down: reading the turn until it comes round
    | Raising         // the turn has come: about to raise the own flag again
    | Inside
    | Leaving         // turn given away: about to lower the own flag

  /** failed: a compare-and-swap on the own flag did not find what it expected. */
  datatype Party = Party(flag: bool, pc: Pc, failed: bool)

  datatype State = State(left: Party, right: Party, turn: Side)

  function Other(i: Side): Side { if i == Left then Right else Left }

  function Me(s: State, i: Side): Party { if i == Left then s.left else s.right }

  function With(s: State, i: Side, p: Party): State {
    if i == Left then s.(left := p) else s.(right := p)
  }

  function Init(turn: Side): State {
    State(Party(false, Out, false), Party(false, Out, false), turn)
  }

  /** A compare-and-swap of the own flag, then on to pc. */
  function Swap(p: Party, from: bool, to: bool, pc: Pc): Party {
    if p.flag == from then Party(to, pc, p.failed) else Party(p.flag, pc, true)
  }

  /** The next action of side i; outside it starts to take the lock, inside it
      starts to release it. */
  function Step(s: State, i: Side): State {
    var p := Me(s, i);
    match p.pc
    case Out => With(s, i, Swap(p, false, true, Raised))
    case Raised => With(s, i, p.(pc := if Me(s, Other(i)).flag then Blocked else Inside))
    case Blocked => With(s, i, p.(pc := if s.turn != i then Lowering else Raised))
    case Lowering => With(s, i, Swap(p, true, false, Waiting))
    case Waiting => With(s, i, p.(pc := if s.turn != i then Waiting else Raising))
    case Raising => With(s, i, Swap(p, false, true, Raised))
    case Inside => With(s, i, p.(pc := Leaving)).(turn := Other(i))
    case Leaving => With(s, i, Swap(p, true, false, Out))
  }

  function Run(s: State, moves: seq<Side>): State
    decreases |moves|
  {
    if moves == [] then s else Run(Step(s, moves[0]), moves[1..])
  }

  predicate HasFlag(pc: Pc) {
    pc == Raised || pc == Blocked || pc == Lowering || pc == Inside || pc == Leaving
  }

  predicate Holds(pc: Pc) { pc == Inside || pc == Leaving }

  predicate PartyOk(p: Party) { p.flag == HasFlag(p.pc) && !p.failed }

  predicate Inv(s: State) {
    && PartyOk(s.left) && PartyOk(s.right)
    && !(Holds(s.left.pc) && Holds(s.right.pc))
    && (s.left.pc == Leaving ==> s.turn == Right) && (s.right.pc == Leaving ==> s.turn == Left)
  }

  lemma StepKeepsInv(s: State, i: Side)
    requires Inv(s)
    ensures Inv(Step(s, i))
  {
  }

  /** In every interleaving at most one side holds the lock, and no
      compare-and-swap fails. */
  lemma {:induction false} MutualExclusion(turn: Side, moves: seq<Side>)
    ensures var s := Run(Init(turn), moves);
      !(Holds(s.left.pc) && Holds(s.right.pc)) && !s.left.failed && !s.right.failed
  {
    RunKeepsInv(Init(turn), moves);
  }

  lemma {:induction false} RunKeepsInv(s: State, moves: seq<Side>)
    requires Inv(s)
    ensures Inv(Run(s, moves))
    decreases |moves|
  {
    hide Inv, Step;
    if moves == [] {
    } else {
      StepKeepsInv(s, moves[0]);
      RunKeepsInv(Step(s, moves[0]), moves[1..]);
    }
  }

  // ----- fairness -----

  predicate GoesIn(s: State, i: Side, j: Side) {
    i == j && Me(s, i).pc == Raised && Me(Step(s, i), i).pc == Inside
  }

  /** How often side i goes inside. */
  function Entries(s: State, moves: seq<Side>, i: Side): nat
    decreases |moves|
  {
    if moves == [] then 0
    else (if GoesIn(s, i, moves[0]) then 1 else 0) + Entries(Step(s, moves[0]), moves[1..], i)
  }

  /** Side i has its flag up, it is its turn, and it has not decided to lower
      its flag. */
  predicate Insists(s: State, i: Side) {
    s.turn == i && (Me(s, i).pc == Raised || Me(s, i).pc == Blocked)
  }

  lemma InsistsStep(s: State, i: Side, j: Side)
    requires Inv(s) && Insists(s, i) && !GoesIn(s, i, j)
    ensures Insists(Step(s, j), i) && !GoesIn(s, Other(i), j)
  {
  }

  /** Whoever insists is not overtaken: until it goes in, the other side does
      not go in. */
  lemma {:induction false} NoOvertaking(s: State, moves: seq<Side>, i: Side)
    requires Inv(s) && Insists(s, i) && Entries(s, moves, i) == 0
    ensures Insists(Run(s, moves), i) && Entries(s, moves, Other(i)) == 0
    decreases |moves|
  {
    hide Inv, Step, Insists, GoesIn;
    if moves == [] {
    } else {
      InsistsStep(s, i, moves[0]);
      StepKeepsInv(s, moves[0]);
      NoOvertaking(Step(s, moves[0]), moves[1..], i);
    }
  }

  /** Side i has its flag up and the turn, and is not inside. */
  predicate UpWithTurn(s: State, i: Side) {
    s.turn == i && Me(s, i).flag && !Holds(Me(s, i).pc)
  }

  /** The other side can still go in first: i has decided to lower its flag, and
      the other side is not on its way to wait for the turn. */
  predicate CanBePassed(s: State, i: Side) {
    var other := Me(s, Other(i)).pc;
    && Me(s, i).pc == Lowering
    && (other == Out || other == Raised || other == Raising || other == Inside || other == Leaving)
  }

  /** The other side is on its way to wait for a turn that only i gives. */
  predicate Held(s: State, i: Side) {
    var other := Me(s, Other(i)).pc;
    && s.turn == i && !Holds(Me(s, i).pc) && Me(s, i).pc != Out
    && (other == Blocked || other == Lowering || other == Waiting)
  }

  lemma HeldStep(s: State, i: Side, j: Side)
    requires Inv(s) && Held(s, i) && !GoesIn(s, i, j)
    ensures Held(Step(s, j), i) && !GoesIn(s, Other(i), j)
  {
  }

  lemma {:induction false} HeldStays(s: State, moves: seq<Side>, i: Side)
    requires Inv(s) && Held(s, i) && Entries(s, moves, i) == 0
    ensures Entries(s, moves, Other(i)) == 0
    decreases |moves|
  {
    hide Inv, Step, Held, GoesIn;
    if moves == [] {
    } else {
      HeldStep(s, i, moves[0]);
      StepKeepsInv(s, moves[0]);
      HeldStays(Step(s, moves[0]), moves[1..], i);
    }
  }

  /** Unless it can be passed, i is the next one in. */
  lemma NotPassed(s: State, moves: seq<Side>, i: Side)
    requires Inv(s) && UpWithTurn(s, i) && !CanBePassed(s, i) && Entries(s, moves, i) == 0
    ensures Entries(s, moves, Other(i)) == 0
  {
    hide Entries;
    if Insists(s, i) {
      NoOvertaking(s, moves, i);
    } else {
      HeldStays(s, moves, i);
    }
  }

  /** The other side can go in n times before i does. */
  ghost predicate Passes(s: State, i: Side, n: nat) {
    exists moves :: Entries(s, moves, i) == 0 && Entries(s, moves, Other(i)) == n
  }

  /** Exactly which sides with flag and turn can be overtaken: those, any number
      of times, and the others not once. */
  lemma {:induction false} OvertakingExactly(s: State, i: Side)
    requires Inv(s) && UpWithTurn(s, i)
    ensures CanBePassed(s, i) <==> forall n: nat :: Passes(s, i, n)
    ensures !CanBePassed(s, i) <==> forall n: nat :: Passes(s, i, n) ==> n == 0
  {
    hide Inv, UpWithTurn, CanBePassed, Entries;
    if CanBePassed(s, i) {
      forall n: nat ensures Passes(s, i, n) {
        var moves := PassedAnyNumber(s, i, n);
      }
      assert Passes(s, i, 1);
    } else {
      forall n: nat | Passes(s, i, n) ensures n == 0 {
        var moves :| Entries(s, moves, i) == 0 && Entries(s, moves, Other(i)) == n;
        NotPassed(s, moves, i);
      }
      assert !Passes(s, i, 1);
    }
  }

  // ----- how to pass -----

  /** If it can be passed, then any number of times. */
  lemma PassedAnyNumber(s: State, i: Side, n: nat) returns (moves: seq<Side>)
    requires Inv(s) && UpWithTurn(s, i) && CanBePassed(s, i)
    ensures Entries(s, moves, i) == 0 && Entries(s, moves, Other(i)) == n
  {
    if n == 0 {
      return [];
    }
    var before := StepAside(s, i);
    var rounds := Rounds(i, n - Entries(s, before, Other(i)));
    moves := before + rounds;
    EntriesOf(s, before, rounds);
  }

  /** Side i waits with its flag down though it has the turn; the other is out. */
  function Aside(i: Side): State {
    var me, other := Party(false, Waiting, false), Party(false, Out, false);
    if i == Left then State(me, other, i) else State(other, me, i)
  }

  /** Side i lowers its flag, and the other comes out, maybe after going in. */
  lemma StepAside(s: State, i: Side) returns (moves: seq<Side>)
    requires Inv(s) && UpWithTurn(s, i) && CanBePassed(s, i)
    ensures Run(s, moves) == Aside(i)
    ensures Entries(s, moves, i) == 0 && Entries(s, moves, Other(i)) <= 1
  {
    StepKeepsInv(s, i);
    var rest := ComeOut(Step(s, i), i);
    moves := [i] + rest;
    Behind(s, i, rest);
  }

  /** Steps from outside to here, and whether going in is still ahead. */
  function WayOut(pc: Pc): nat {
    match pc
    case Leaving => 1
    case Inside => 2
    case Raised => 3
    case Raising => 4
    case _ => 0
  }

  /** The other side's way out. */
  lemma {:induction false} ComeOut(s: State, i: Side) returns (moves: seq<Side>)
    requires Inv(s) && s.turn == i && Me(s, i) == Party(false, Waiting, false)
    requires Me(s, Other(i)).pc == Out || WayOut(Me(s, Other(i)).pc) > 0
    ensures Run(s, moves) == Aside(i) && Entries(s, moves, i) == 0
    ensures Entries(s, moves, Other(i)) == if WayOut(Me(s, Other(i)).pc) >= 3 then 1 else 0
    decreases WayOut(Me(s, Other(i)).pc)
  {
    var j := Other(i);
    if Me(s, j).pc == Out {
      moves := [];
    } else {
      StepKeepsInv(s, j);
      var rest := ComeOut(Step(s, j), i);
      moves := [j] + rest;
      Behind(s, j, rest);
    }
  }

  lemma Behind(s: State, j: Side, rest: seq<Side>)
    ensures forall i :: Entries(s, [j] + rest, i) == (if GoesIn(s, i, j) then 1 else 0) + Entries(Step(s, j), rest, i)
    ensures Run(s, [j] + rest) == Run(Step(s, j), rest)
  {
    assert ([j] + rest)[1..] == rest;
  }

  /** What happens in two stretches adds up. */
  lemma {:induction false} EntriesOf(s: State, a: seq<Side>, b: seq<Side>)
    ensures forall i :: Entries(s, a + b, i) == Entries(s, a, i) + Entries(Run(s, a), b, i)
    decreases |a|
  {
    hide Step, GoesIn;
    if a == [] {
      assert a + b == b;
    } else {
      EntriesOf(Step(s, a[0]), a[1..], b);
      Behind(s, a[0], a[1..] + b);
      assert a + b == [a[0]] + (a[1..] + b);
    }
  }

  lemma {:induction false} Rounds(i: Side, n: nat) returns (moves: seq<Side>)
    ensures Entries(Aside(i), moves, i) == 0 && Entries(Aside(i), moves, Other(i)) == n
  {
    moves := [];
    if n == 0 {
    } else {
      var rest := Rounds(i, n - 1);
      var s, j := Aside(i), Other(i);
      moves := [j] + ([j] + ([j] + ([j] + rest)));
      var s1 := Step(s, j);
      var s2 := Step(s1, j);
      var s3 := Step(s2, j);
      assert Me(s1, j).pc == Raised && Me(s2, j).pc == Inside && Me(s3, j).pc == Leaving && Step(s3, j) == s;
      Behind(s3, j, rest);
      Behind(s2, j, [j] + rest);
      Behind(s1, j, [j] + ([j] + rest));
      Behind(s, j, [j] + ([j] + ([j] + rest)));
    }
  }

  /** Such a side is reached, and overtaken as often as one likes. */
  lemma YieldingIsOvertaken(n: nat) returns (before: seq<Side>, moves: seq<Side>)
    ensures var s := Run(Init(Right), before);
      && UpWithTurn(s, Left) && CanBePassed(s, Left)
      && Entries(s, moves, Left) == 0 && Entries(s, moves, Right) == n
  {
    before := [Right, Right, Left, Left, Left, Right, Right];
    RunKeepsInv(Init(Right), before);
    moves := PassedAnyNumber(Run(Init(Right), before), Left, n);
  }

  /** The other kind is reached as well: both have decided to lower their flag. */
  lemma HeldIsReached() returns (before: seq<Side>)
    ensures var s := Run(Init(Right), before);
      UpWithTurn(s, Left) && !Insists(s, Left) && !CanBePassed(s, Left)
  {
    before := [Right, Right, Left, Left, Left, Right, Right, Right, Right, Right];
  }

  // ----- progress -----

  function Turns(i: Side, n: nat): seq<Side> { if n == 0 then [] else [i] + Turns(i, n - 1) }

  /** Side i waits for a turn that nobody gives: the other one is out. */
  predicate Stranded(s: State, i: Side) {
    var pc := Me(s, i).pc;
    Me(s, Other(i)).pc == Out && s.turn != i && (pc == Blocked || pc == Lowering || pc == Waiting)
  }

  /** While the other side stays out, a side goes in within four steps of its own
      if it is not stranded, and otherwise never. */
  lemma AloneGoesIn(s: State, i: Side)
    requires Inv(s) && Me(s, Other(i)).pc == Out
    ensures !Stranded(s, i) ==> Entries(s, Turns(i, 4), i) >= 1
    ensures Stranded(s, i) ==> forall n: nat :: Entries(s, Turns(i, n), i) == 0
  {
    if Stranded(s, i) {
      forall n: nat ensures Entries(s, Turns(i, n), i) == 0 { StrandedStays(s, i, n); }
    } else {
      hide Entries;
      var s1 := Step(s, i);
      var s2 := Step(s1, i);
      var s3 := Step(s2, i);
      Behind(s, i, Turns(i, 3));
      Behind(s1, i, Turns(i, 2));
      Behind(s2, i, Turns(i, 1));
      Behind(s3, i, Turns(i, 0));
      assert GoesIn(s, i, i) || GoesIn(s1, i, i) || GoesIn(s2, i, i) || GoesIn(s3, i, i);
    }
  }

  lemma {:induction false} StrandedStays(s: State, i: Side, n: nat)
    requires Inv(s) && Stranded(s, i)
    ensures Entries(s, Turns(i, n), i) == 0
    decreases n
  {
    if n == 0 {
    } else {
      StepKeepsInv(s, i);
      StrandedStays(Step(s, i), i, n - 1);
      Behind(s, i, Turns(i, n - 1));
    }
  }

  /** Nobody is stranded, since whoever goes out gives the turn away first. */
  predicate NoneStranded(s: State) {
    Inv(s) && !Stranded(s, Left) && !Stranded(s, Right)
  }

  lemma {:induction false} NeverStranded(turn: Side, moves: seq<Side>)
    ensures NoneStranded(Run(Init(turn), moves))
  {
    StrandedNobody(Init(turn), moves);
  }

  lemma {:induction false} StrandedNobody(s: State, moves: seq<Side>)
    requires NoneStranded(s)
    ensures NoneStranded(Run(s, moves))
    decreases |moves|
  {
    hide NoneStranded, Step;
    if moves == [] {
    } else {
      StrandedStep(s, moves[0]);
      StrandedNobody(Step(s, moves[0]), moves[1..]);
    }
  }

  lemma StrandedStep(s: State, i: Side)
    requires NoneStranded(s)
    ensures NoneStranded(Step(s, i))
  {
  }

  /** In every run a side whose rival is out goes in within four steps of its own. */
  lemma OutIsNoObstacle(turn: Side, moves: seq<Side>, i: Side)
    requires Me(Run(Init(turn), moves), Other(i)).pc == Out
    ensures Entries(Run(Init(turn), moves), Turns(i, 4), i) >= 1
  {
    NeverStranded(turn, moves);
    AloneGoesIn(Run(Init(turn), moves), i);
  }

  /** Steps of the side without the turn until it has its flag down and waits. */
  function ToWait(pc: Pc): nat {
    match pc
    case Waiting => 0
    case Lowering => 1
    case Blocked => 2
    case Raised => 3
    case Raising => 4
    case Out => 4
    case Leaving => 5
    case Inside => 6
  }

  /** Steps of the side with the turn until it insists. */
  function ToInsist(pc: Pc): nat {
    match pc
    case Raised => 0
    case Blocked => 0
    case Raising => 1
    case Out => 1
    case Waiting => 2
    case Lowering => 3
    case Leaving => 1
    case Inside => 20
  }

  /** How far it is until somebody goes in, at most. */
  function Rank(s: State): nat {
    var me, other := Me(s, s.turn).pc, Me(s, Other(s.turn)).pc;
    if ToWait(other) > 0 then 4 + ToWait(other) + ToInsist(me)
    else ToInsist(me) + (if me == Blocked then 2 else 1)
  }

  /** The side whose step brings that nearer for certain. */
  function Mover(s: State): Side {
    if Me(s, s.turn).pc == Inside || ToWait(Me(s, Other(s.turn)).pc) == 0 then s.turn else Other(s.turn)
  }

  lemma RankFalls(s: State, j: Side)
    requires Inv(s)
    ensures GoesIn(s, j, j) || Rank(Step(s, j)) <= Rank(s)
    ensures GoesIn(s, j, j) || j != Mover(s) || Rank(Step(s, j)) < Rank(s)
    ensures GoesIn(s, j, j) || Rank(Step(s, j)) < Rank(s) || Mover(Step(s, j)) == Mover(s)
  {
  }

  lemma {:induction false} RankFallsOver(s: State, moves: seq<Side>)
    requires Inv(s) && Entries(s, moves, Left) == 0 && Entries(s, moves, Right) == 0
    ensures Inv(Run(s, moves)) && Rank(Run(s, moves)) <= Rank(s)
    ensures Mover(s) in moves ==> Rank(Run(s, moves)) < Rank(s)
    decreases |moves|
  {
    hide Inv, Step, Rank, Mover, GoesIn;
    if moves == [] {
    } else {
      var j := moves[0];
      assert !GoesIn(s, j, j) by { SomeSide(s, moves); }
      RankFalls(s, j);
      StepKeepsInv(s, j);
      RankFallsOver(Step(s, j), moves[1..]);
    }
  }

  lemma SomeSide(s: State, moves: seq<Side>)
    requires moves != [] && Entries(s, moves, Left) == 0 && Entries(s, moves, Right) == 0
    ensures !GoesIn(s, moves[0], moves[0])
    ensures Entries(Step(s, moves[0]), moves[1..], Left) == 0 && Entries(Step(s, moves[0]), moves[1..], Right) == 0
  {
  }

  /** The rounds one after the other. */
  function Joined(rounds: seq<seq<Side>>): seq<Side> {
    if rounds == [] then [] else rounds[0] + Joined(rounds[1..])
  }

  /** Neither deadlock nor endless courtesy: from every state of the invariant,
      when both sides have been running for thirty rounds, in whatever order and
      as often as they like in each, somebody has gone in. */
  lemma SomebodyGoesIn(s: State, rounds: seq<seq<Side>>)
    requires Inv(s) && |rounds| >= 30
    requires forall k :: 0 <= k < |rounds| ==> Left in rounds[k] && Right in rounds[k]
    ensures Entries(s, Joined(rounds), Left) + Entries(s, Joined(rounds), Right) >= 1
  {
    RankSmall(s);
    if Entries(s, Joined(rounds), Left) == 0 && Entries(s, Joined(rounds), Right) == 0 { RankOverRounds(s, rounds); }
  }

  lemma RankSmall(s: State)
    requires Inv(s)
    ensures Rank(s) < 30
  {
  }

  lemma {:induction false} RankOverRounds(s: State, rounds: seq<seq<Side>>)
    requires Inv(s) && Entries(s, Joined(rounds), Left) == 0 && Entries(s, Joined(rounds), Right) == 0
    requires forall k :: 0 <= k < |rounds| ==> Left in rounds[k] && Right in rounds[k]
    ensures Rank(s) >= |rounds|
    decreases |rounds|
  {
    hide Inv, Step, Rank, Mover, Entries, Run;
    if rounds == [] {
    } else {
      EntriesOf(s, rounds[0], Joined(rounds[1..]));
      RankFallsOver(s, rounds[0]);
      assert Left in rounds[0] && Right in rounds[0] && (Mover(s) == Left || Mover(s) == Right);
      RankOverRounds(Run(s, rounds[0]), rounds[1..]);
    }
  }
}
