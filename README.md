# Pokemon battle engine in Dafny

This project models the battle core of a small two-player Pokemon battle game, `pokemon.py`.
Two combatants trade moves until one of them runs out of health. The model covers four parts:

- **Type chart**: the fixed 8x8 table that maps a move's element and a defender's element to a
  multiplier of 1.5, 1 or 0.75.
- **Damage**: a move deals `power * (attack / 10) * multiplier - defense / 10`. That value is
  floored at one bar and subtracted from the defender's bars. The bars are then floored at zero.
- **Health**: every combatant starts with 20 bars. `health_percentage` truncates
  `bars / max_bars * 100`, and a combatant has fainted once its bars are at or below zero.
- **Turn flow**: the player clicks a move button. The hit lands and the buttons are disabled. If the
  defender did not faint, one opponent reply is scheduled on a timer. When the reply fires, the
  opponent hits the player's combatant. If that combatant did not faint, the buttons are enabled
  again.

Modules:

- `Types` (types.dfy): the two element enumerations, `Move`, the multiplier constants and the chart.
- `Damage` (damage.dfy): the damage formula and its floor of one bar, the floor at zero bars,
  fainting, and Python's truncating `int()`.
- `Turns` (turns.dfy): the turn flow as a state machine over values. `BattleState` holds both
  sides' bars, whether the move buttons are enabled, and how many replies are scheduled. An event
  is a button click or the reply timer firing. `Consistent` is the invariant of every reachable
  state. The lemmas prove that the invariant is kept and that a fainted battle is frozen. They also
  prove that no side can make more than 20 moves in a battle.
- `Engine` (engine.dfy): the classes `Pokemon` and `Battle`. Their fields are updated in place.
  `ApplyDamage` states the defender's new bars through `BarsAfterHit` and `DamageDealt`.
  `PerformMove`, when the player's combatant attacks the opponent's as the move buttons do, ties
  the new `State()` to `Turns.PlayerMove` of the old one. `OpponentTurn`, `PressMoveButton` and
  `FireReplyTimer` tie it to `Turns.OpponentTurn` and `Turns.Step`.
- `Scenarios` (scenarios.dfy): four battles between roster entries, worked out concretely.

The player and the opponent may be the same object. The selection screen starts both choices at
the first roster name, so picking nothing fights Charizard against itself. The model allows this.
The `shared` flag of `Turns` says that a hit to one side is then a hit to both.
`Scenarios.CharizardAgainstItself` and `Scenarios.CharizardAgainstItselfFly` work the case out.

All arithmetic uses exact `real`s. The game uses IEEE doubles. The two can disagree in two places:

- Where `int()` truncates close to an integer. Charizard's Flamethrower on Venusaur leaves exactly
  3.2 bars, which is 16 percent. In doubles the bars come to 3.1999999999999993, and the game shows
  15 percent. The model gives 16.
- Where `check_faint` (pokemon.py:149-150) decides the turn flow. Charizard against itself uses
  Flamethrower, leaving 8.8 bars, and the reply is Fly, which deals 8.8. On exact reals the bars
  reach exactly 0, so both sides faint and the battle is over. In doubles the bars come to
  1.7763568394002505e-15, which is above 0, so the game re-enables the buttons (pokemon.py:135)
  and the battle goes on.

How the code handles the end of a battle and the order of turns:

- The code raises no error for a move after a faint. It disables the move buttons
  (pokemon.py:121), so a later click does nothing. The model does the same: a click on a disabled
  button leaves the state unchanged, and so does a timer firing with no reply scheduled
  (`Turns.FaintedIsFinal`).
- The code keeps no turn-holder or status field. Whose turn it is follows from the enabled state
  of the buttons and the callback scheduled with `root.after` (pokemon.py:121-124, 135). The model
  keeps those two and proves that they give exactly one side to move while neither side has
  fainted (`Turns.OneSideToMove`).
- The chart has a full column of neutral entries for a Normal defender (pokemon.py:71-78), and so
  does the model.
- `perform_move` returns nothing (pokemon.py:114-124). The percentages are read afterwards with
  `HealthPercentage`, as `update_health` does.

## Model

| member | source | states |
|---|---|---|
| Types.TypeAdvantage | pokemon.py:69-79 | The chart is defined for all 64 pairs of move element and defender element, and every entry is 1, 1.5 or 0.75 |
| Types.TypeAdvantageMatchesLists | pokemon.py:71-78 | A pair gets 1.5 exactly when it is one of the seven strong pairs and 0.75 exactly when it is one of the seven weak pairs; every other pair is neutral |
| Types.NeutralMoveTypes | pokemon.py:77-78 | Psychic and Normal moves are neutral against every defender, Normal defenders included |
| Types.NeutralDefenderTypes | pokemon.py:71-78 | Psychic and Normal defenders take neutral damage from every move element |
| Types.ChartEntries | pokemon.py:71-76 | Fire on Grass and Fire on Ice are 1.5, Fire on Water is 0.75, Water on Electric is 0.75, Ice on Dragon is 1.5, Dragon on Ice is 0.75 |
| Damage.RawDamage | pokemon.py:140 | The unclamped damage, power * (attack / 10) * multiplier - defense / 10, is exact in integers: with a neutral multiplier it is (power * attack - defense) / 10, with 1.5 it is (3 * power * attack - 2 * defense) / 20, and with 0.75 it is (3 * power * attack - 4 * defense) / 40 |
| Damage.DamageDealt | pokemon.py:138-141 | The damage dealt is at least 1 and at least the formula's value; it is the formula's value unless that is below 1, in which case it is 1 |
| Damage.BarsAfterHit | pokemon.py:142-143 | Bars after a hit are never negative, never below the old bars minus the damage, and either zero or exactly the old bars minus the damage: the clamped difference max(0, bars - damage) |
| Damage.HitProgress | pokemon.py:141-143 | A hit never raises health, and it either empties the bars or removes at least one bar |
| Damage.Fainted | pokemon.py:149-150 | A combatant with positive bars has not fainted, and with non-negative bars it has fainted exactly when its bars are zero |
| Damage.FaintedIsEmpty | pokemon.py:149-150 | With health kept non-negative, a combatant has fainted exactly when its bars are zero |
| Damage.HitsWearDown | pokemon.py:137-143 | After n hits, health lies between zero and its start, and it is zero or at least n bars lower |
| Damage.ZeroStaysZero | pokemon.py:142-143 | Once the bars are zero, further hits leave them at zero |
| Damage.FaintsWithinTwentyHits | pokemon.py:56-57 | A combatant that starts with at most 20 bars has fainted after any 20 hits |
| Damage.Trunc | pokemon.py:60 | Python's int() truncates toward zero: the result is the integer at distance less than 1 from the argument on the zero side |
| Engine.Pokemon.constructor | pokemon.py:50-57 | A new combatant keeps its name, element and moves, and takes attack and defense from its stat table; it has 20 of 20 bars, which is 100 percent |
| Engine.Pokemon.HealthPercentage | pokemon.py:59-60 | The percentage is the largest whole number r with r * max_bars <= bars * 100; it lies in [0, 100] while bars lie in [0, max_bars], and it is 100 at full health |
| Engine.Battle.constructor | pokemon.py:63-67 | A new battle holds the two combatants, buttons enabled and nothing scheduled; with both combatants healthy it is in a consistent state |
| Engine.Battle.ApplyDamage | pokemon.py:137-143 | Only the defender's bars change; they become the old bars minus the damage dealt, floored at 0, so they never rise and they fall by at least one bar unless they reach 0 |
| Engine.Battle.PerformMove | pokemon.py:114-124 | The defender takes the hit and the buttons are disabled; if the defender did not faint, exactly one reply is scheduled, otherwise none; when the player's combatant attacks the opponent's, the new battle state is Turns.PlayerMove of the old one |
| Engine.Battle.OpponentTurn | pokemon.py:126-135 | The player's combatant takes the hit from the opponent's drawn move; the buttons are enabled again unless it fainted |
| Engine.Battle.PressMoveButton | pokemon.py:102-106 | A click runs the player's move only while the buttons are enabled; the battle stays consistent |
| Engine.Battle.FireReplyTimer | pokemon.py:124-135 | The timer runs a scheduled reply and removes it from the schedule, and does nothing if none is scheduled; the battle stays consistent |
| Turns.PlayerMove | pokemon.py:114-124 | After the player's move the opponent's bars are the clamped result of the hit, the buttons are disabled, exactly one reply is added unless the opponent fainted, and with a shared combatant both sides show the same bars |
| Turns.OpponentTurn | pokemon.py:126-135 | After the opponent's reply the player's bars are the clamped result of the hit, the schedule is unchanged, and the buttons are enabled again unless the player fainted |
| Turns.StartIsConsistent | pokemon.py:56-57 | A battle between two combatants at the same positive health, buttons enabled, is consistent |
| Turns.StepKeepsConsistent | pokemon.py:114-143 | Every click and every timer event keeps health in [0, 20], keeps at most one reply scheduled, and never raises either side's health |
| Turns.OneSideToMove | pokemon.py:119-135 | While neither side has fainted, exactly one side is to move: the buttons are enabled or a reply is scheduled, never both |
| Turns.FaintedIsFinal | pokemon.py:119-135 | Once either side has fainted, no click and no timer event changes the battle |
| Turns.RunKeepsConsistent | pokemon.py:114-143 | Any sequence of events keeps the battle consistent |
| Turns.PlayerMovesBounded | pokemon.py:114-124 | The player's effective moves number less than the opponent's bars plus one |
| Turns.OpponentMovesBounded | pokemon.py:126-135 | The opponent's effective replies number less than the player's bars plus one |
| Turns.BattleEndsWithinTwentyMovesEach | pokemon.py:114-143 | From full health, any sequence of events holds at most 20 effective player moves and at most 20 effective opponent replies |
| Scenarios.FlamethrowerOnVenusaur | pokemon.py:207-215 | Charizard's Flamethrower leaves Venusaur at exactly 3.2 bars, 16 percent, with the buttons disabled and one reply scheduled |
| Scenarios.TackleOnVenusaur | pokemon.py:213-230 | The formula gives 0 for Squirtle's Tackle on Venusaur; the floor of one bar applies and leaves Venusaur at 19 bars, 95 percent |
| Scenarios.CharizardAgainstItself | pokemon.py:174-202 | When both sides are the same Charizard, its own Flamethrower lowers both bars to 44 percent, and the reply knocks both out with the buttons left disabled |
| Scenarios.CharizardAgainstItselfFly | pokemon.py:207-209 | When both sides are the same Charizard, Flamethrower followed by a Fly reply brings the bars to exactly 0 on exact reals, so the buttons stay disabled and nothing is scheduled |

## Left out

- The Tkinter screens are not modelled: `create_battle_gui`, `log`, `update_health`, the label and progress-bar widgets, and `PokemonSelectionApp`. The enabled state of the move buttons is kept as the flag `inputEnabled`.
- The one-second delay of `root.after` is not modelled. A scheduled reply is counted in `pendingReplies` and runs when `FireReplyTimer` is called.
- The opponent's random move choice (`np.random.choice`) is a parameter of `OpponentTurn` and `FireReplyTimer`, with the precondition that the move is in the opponent's move list. The random roster picks of the selection screen are not modelled.
- `delay_print` writes to the terminal and sleeps, so it is not modelled.
- Only Charizard, Venusaur and Squirtle are transcribed from the static roster, for the scenarios.
- Damage.DamageDealt: computed on exact reals, not IEEE doubles, so the rounding of `/ 10` and `* 1.5` is not reproduced.
- Engine.Pokemon.HealthPercentage: computed on exact reals. Near an integer it can be one higher than the game's value; Charizard's Flamethrower on Venusaur gives 16 here and 15 in the game.
- `type_advantage` builds the table as a nested dictionary on every call. The model uses a total function, so a missing key cannot arise.
- Names label the widgets and move buttons (pokemon.py:85, 92, 104) and pick the combatants on the selection screen (pokemon.py:198-199). The model keeps each combatant's name in the `Pokemon` constructor but does not model the selection by name; battles are built from the objects directly.
- Turns.FaintedIsFinal: on exact reals the bars can reach exactly 0 where doubles leave a tiny positive remainder. Charizard against itself, Flamethrower then a Fly reply, leaves 1.7763568394002505e-15 bars in doubles, so `check_faint` is false and the game re-enables the buttons. The model records a faint and freezes the battle (`Scenarios.CharizardAgainstItselfFly`).
