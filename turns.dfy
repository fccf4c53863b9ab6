/** The turn flow of a battle as a state machine over values.

    The battle screen alternates between the player, who picks a move with a
    button, and the opponent, whose reply is scheduled on a timer after each
    player move. The state records both sides' bars, whether the move buttons
    accept clicks, and how many opponent replies are scheduled. When the player
    and the opponent are the same object (`shared`), a hit to one is a hit to
    the other. */
module Turns {
  import opened Types
  import opened Damage

  datatype BattleState = BattleState(playerBars: real, opponentBars: real, inputEnabled: bool, pendingReplies: nat)

  /** What can happen to a battle: a click on a move button, or the reply timer
      firing. Each carries the damage that the chosen move deals. */
  datatype Event = MoveButton(damage: real) | ReplyTimer(damage: real)

  /** A fresh battle screen: buttons enabled, nothing scheduled. */
  function Start(playerBars: real, opponentBars: real): BattleState
  {
    BattleState(playerBars, opponentBars, true, 0)
  }

  /** The player's move: the opponent takes the hit, the buttons are disabled, and
      unless the opponent fainted its reply is scheduled. */
  function PlayerMove(s: BattleState, damage: real, shared: bool): (t: BattleState)
    ensures t.opponentBars == BarsAfterHit(s.opponentBars, damage)
    ensures !t.inputEnabled
    ensures Fainted(t.opponentBars) ==> t.pendingReplies == s.pendingReplies
    ensures !Fainted(t.opponentBars) ==> t.pendingReplies == s.pendingReplies + 1
    ensures t.playerBars == if shared then t.opponentBars else s.playerBars
  {
    var opponentBars := BarsAfterHit(s.opponentBars, damage);
    var playerBars := if shared then opponentBars else s.playerBars;
    if Fainted(opponentBars) then
      BattleState(playerBars, opponentBars, false, s.pendingReplies)
    else
      BattleState(playerBars, opponentBars, false, s.pendingReplies + 1)
  }

  /** The opponent's reply: the player takes the hit and, unless the player
      fainted, the buttons are enabled again. */
  function OpponentTurn(s: BattleState, damage: real, shared: bool): (t: BattleState)
    ensures t.playerBars == BarsAfterHit(s.playerBars, damage)
    ensures t.pendingReplies == s.pendingReplies
    ensures !Fainted(t.playerBars) ==> t.inputEnabled
    ensures Fainted(t.playerBars) ==> t.inputEnabled == s.inputEnabled
    ensures t.opponentBars == if shared then t.playerBars else s.opponentBars
  {
    var playerBars := BarsAfterHit(s.playerBars, damage);
    var opponentBars := if shared then playerBars else s.opponentBars;
    if Fainted(playerBars) then
      BattleState(playerBars, opponentBars, s.inputEnabled, s.pendingReplies)
    else
      BattleState(playerBars, opponentBars, true, s.pendingReplies)
  }

  /** One event: a click on a disabled button does nothing, and the timer only
      runs a reply that was scheduled, removing it from the schedule. */
  function Step(s: BattleState, e: Event, shared: bool): BattleState
  {
    match e
    case MoveButton(d) => if s.inputEnabled then PlayerMove(s, d, shared) else s
    case ReplyTimer(d) =>
      if s.pendingReplies > 0 then OpponentTurn(s.(pendingReplies := s.pendingReplies - 1), d, shared) else s
  }

  /** The states a battle can reach: health within the bar, one shared health
      when both sides are one object, at most one reply scheduled, and exactly
      one side waiting to choose while neither side has fainted. */
  ghost predicate Consistent(s: BattleState, shared: bool)
  {
    && 0.0 <= s.playerBars <= HealthBarLength as real
    && 0.0 <= s.opponentBars <= HealthBarLength as real
    && (shared ==> s.playerBars == s.opponentBars)
    && s.pendingReplies <= 1
    && !(s.inputEnabled && s.pendingReplies > 0)
    && ((s.inputEnabled || s.pendingReplies > 0) <==> !Fainted(s.playerBars) && !Fainted(s.opponentBars))
  }

  /** Every move deals at least one bar of damage. */
  ghost predicate ValidDamages(events: seq<Event>)
  {
    forall i :: 0 <= i < |events| ==> events[i].damage >= 1.0
  }

  lemma StartIsConsistent(bars: real, shared: bool)
    requires 0.0 < bars <= HealthBarLength as real
    ensures Consistent(Start(bars, bars), shared)
  {
  }

  /** Every event keeps the battle consistent and never raises either side's health. */
  lemma StepKeepsConsistent(s: BattleState, e: Event, shared: bool)
    requires Consistent(s, shared) && e.damage >= 1.0
    ensures Consistent(Step(s, e, shared), shared)
    ensures Step(s, e, shared).playerBars <= s.playerBars
    ensures Step(s, e, shared).opponentBars <= s.opponentBars
  {
    HitProgress(s.playerBars, e.damage);
    HitProgress(s.opponentBars, e.damage);
  }

  /** While neither side has fainted, exactly one side is the one to move next. */
  lemma OneSideToMove(s: BattleState, shared: bool)
    requires Consistent(s, shared)
    requires !Fainted(s.playerBars) && !Fainted(s.opponentBars)
    ensures s.inputEnabled <==> s.pendingReplies == 0
  {
  }

  /** Once a side has fainted, no event changes the battle any more. */
  lemma FaintedIsFinal(s: BattleState, e: Event, shared: bool)
    requires Consistent(s, shared)
    requires Fainted(s.playerBars) || Fainted(s.opponentBars)
    ensures Step(s, e, shared) == s
  {
  }

  /** The state after a sequence of events. */
  function Run(s: BattleState, events: seq<Event>, shared: bool): BattleState
    decreases |events|
  {
    if events == [] then s else Run(Step(s, events[0], shared), events[1..], shared)
  }

  /** How many of the events are player moves that take effect. */
  function PlayerMoves(s: BattleState, events: seq<Event>, shared: bool): nat
    decreases |events|
  {
    if events == [] then 0
    else (if events[0].MoveButton? && s.inputEnabled then 1 else 0)
         + PlayerMoves(Step(s, events[0], shared), events[1..], shared)
  }

  /** How many of the events are opponent replies that take effect. */
  function OpponentMoves(s: BattleState, events: seq<Event>, shared: bool): nat
    decreases |events|
  {
    if events == [] then 0
    else (if events[0].ReplyTimer? && s.pendingReplies > 0 then 1 else 0)
         + OpponentMoves(Step(s, events[0], shared), events[1..], shared)
  }

  /** Any sequence of events keeps the battle consistent. */
  lemma {:induction false} RunKeepsConsistent(s: BattleState, events: seq<Event>, shared: bool)
    requires Consistent(s, shared) && ValidDamages(events)
    ensures Consistent(Run(s, events, shared), shared)
    decreases |events|
  {
    if events != [] {
      StepKeepsConsistent(s, events[0], shared);
      assert ValidDamages(events[1..]) by {
        forall i | 0 <= i < |events[1..]| ensures events[1..][i].damage >= 1.0 {
          assert events[1..][i] == events[i + 1];
        }
      }
      RunKeepsConsistent(Step(s, events[0], shared), events[1..], shared);
    }
  }

  /** The player cannot move more often than the opponent has bars, rounded up:
      each effective move takes a bar off or knocks the opponent out. */
  lemma {:induction false} PlayerMovesBounded(s: BattleState, events: seq<Event>, shared: bool)
    requires Consistent(s, shared) && ValidDamages(events)
    ensures (PlayerMoves(s, events, shared) as real) < s.opponentBars + 1.0
    decreases |events|
  {
    if events != [] {
      var t := Step(s, events[0], shared);
      StepKeepsConsistent(s, events[0], shared);
      HitProgress(s.opponentBars, events[0].damage);
      assert ValidDamages(events[1..]) by {
        forall i | 0 <= i < |events[1..]| ensures events[1..][i].damage >= 1.0 {
          assert events[1..][i] == events[i + 1];
        }
      }
      PlayerMovesBounded(t, events[1..], shared);
    }
  }

  /** The opponent cannot move more often than the player has bars, rounded up. */
  lemma {:induction false} OpponentMovesBounded(s: BattleState, events: seq<Event>, shared: bool)
    requires Consistent(s, shared) && ValidDamages(events)
    ensures (OpponentMoves(s, events, shared) as real) < s.playerBars + 1.0
    decreases |events|
  {
    if events != [] {
      var t := Step(s, events[0], shared);
      StepKeepsConsistent(s, events[0], shared);
      HitProgress(s.playerBars, events[0].damage);
      assert ValidDamages(events[1..]) by {
        forall i | 0 <= i < |events[1..]| ensures events[1..][i].damage >= 1.0 {
          assert events[1..][i] == events[i + 1];
        }
      }
      OpponentMovesBounded(t, events[1..], shared);
    }
  }

  /** A battle that starts at full health ends after at most twenty moves per side,
      whatever the events and whichever moves are chosen. */
  lemma BattleEndsWithinTwentyMovesEach(events: seq<Event>, shared: bool)
    requires ValidDamages(events)
    ensures PlayerMoves(Start(HealthBarLength as real, HealthBarLength as real), events, shared) <= HealthBarLength
    ensures OpponentMoves(Start(HealthBarLength as real, HealthBarLength as real), events, shared) <= HealthBarLength
  {
    var s := Start(HealthBarLength as real, HealthBarLength as real);
    StartIsConsistent(HealthBarLength as real, shared);
    PlayerMovesBounded(s, events, shared);
    OpponentMovesBounded(s, events, shared);
  }
}
