/** The combatants and the battle as objects whose state changes in place. */
module Engine {
  import opened Types
  import opened Damage
  import opened Turns

  /** A combatant: fixed name, element, moves and stats, and a health bar that hits wear down. */
  class Pokemon {
    const name: string
    const pType: PokemonType
    const moves: seq<Move>
    const attack: int
    const defense: int
    const maxBars: int
    var bars: real

    /** Health stays within the bar, and the bar has its fixed length. */
    ghost predicate Valid()
      reads this
    {
      maxBars == HealthBarLength && 0.0 <= bars <= maxBars as real
    }

    /** A combatant at full health; its attack and defense come from its stat table. */
    constructor (name: string, pType: PokemonType, moves: seq<Move>, evs: map<string, int>)
      requires "ATTACK" in evs && "DEFENSE" in evs
      ensures Valid()
      ensures this.name == name && this.pType == pType && this.moves == moves
      ensures attack == evs["ATTACK"] && defense == evs["DEFENSE"]
      ensures bars == maxBars as real
      ensures HealthPercentage() == 100
    {
      this.name := name;
      this.pType := pType;
      this.moves := moves;
      attack := evs["ATTACK"];
      defense := evs["DEFENSE"];
      maxBars := HealthBarLength;
      bars := HealthBarLength as real;
    }

    /** Health as a whole percentage of the bar, rounded down. */
    function HealthPercentage(): (r: int)
      reads this
      requires maxBars > 0
      ensures 0.0 <= bars ==> (r * maxBars) as real <= bars * 100.0 < ((r + 1) * maxBars) as real
      ensures 0.0 <= bars <= maxBars as real ==> 0 <= r <= 100
      ensures bars == maxBars as real ==> r == 100
    {
      var r := Trunc(bars / maxBars as real * 100.0);
      PercentageBounds(r, bars, maxBars);
      r
    }
  }

  /** Multiplying `r <= bars / max * 100 < r + 1` through by `max`. */
  lemma PercentageBounds(r: int, bars: real, maxBars: int)
    requires maxBars > 0
    requires r == Trunc(bars / maxBars as real * 100.0)
    ensures 0.0 <= bars ==> (r * maxBars) as real <= bars * 100.0 < ((r + 1) * maxBars) as real
    ensures 0.0 <= bars <= maxBars as real ==> 0 <= r <= 100
    ensures bars == maxBars as real ==> r == 100
  {
    var m := maxBars as real;
    var x := bars / m * 100.0;
    assert x * m == bars * 100.0;
    if 0.0 <= bars {
      ScaleBy(0.0, bars, 100.0 / m);
      assert 0.0 <= x;
      assert r as real <= x < r as real + 1.0;
      ScaleBy(r as real, x, m);
      ScaleBy(x, r as real + 1.0, m);
      assert (r * maxBars) as real == r as real * m;
      assert ((r + 1) * maxBars) as real == (r as real + 1.0) * m;
      if bars <= m {
        ScaleBy(bars, m, 100.0 / m);
        assert x <= 100.0;
      }
      if bars == m {
        assert x == 100.0;
      }
    }
  }

  lemma ScaleBy(a: real, b: real, m: real)
    requires m > 0.0
    ensures a <= b ==> a * m <= b * m
    ensures a < b ==> a * m < b * m
  {
  }

  /** A battle between the player's combatant and the opponent's. The two may be
      the same object. `inputEnabled` is whether the player's move buttons accept
      clicks; `pendingReplies` counts opponent replies scheduled on the timer. */
  class Battle {
    const pokemon1: Pokemon
    const pokemon2: Pokemon
    var inputEnabled: bool
    var pendingReplies: nat

    /** The battle seen as a value. */
    ghost function State(): BattleState
      reads this, pokemon1, pokemon2
    {
      BattleState(pokemon1.bars, pokemon2.bars, inputEnabled, pendingReplies)
    }

    /** Both combatants have a full-length bar and the battle is in a reachable state. */
    ghost predicate Valid()
      reads this, pokemon1, pokemon2
    {
      && pokemon1.maxBars == HealthBarLength
      && pokemon2.maxBars == HealthBarLength
      && Consistent(State(), pokemon1 == pokemon2)
    }

    /** A battle screen for two combatants, move buttons enabled. */
    constructor (pokemon1: Pokemon, pokemon2: Pokemon)
      ensures this.pokemon1 == pokemon1 && this.pokemon2 == pokemon2
      ensures State() == Start(pokemon1.bars, pokemon2.bars)
      ensures pokemon1.Valid() && pokemon2.Valid() && !Fainted(pokemon1.bars) && !Fainted(pokemon2.bars) ==> Valid()
    {
      this.pokemon1 := pokemon1;
      this.pokemon2 := pokemon2;
      inputEnabled := true;
      pendingReplies := 0;
    }

    /** The defender loses the move's damage, floored at one bar, and its health is
        floored at zero. Nothing but the defender's bars changes. */
    method ApplyDamage(defender: Pokemon, move: Move, attackerAttack: int)
      modifies defender`bars
      ensures defender.bars == BarsAfterHit(old(defender.bars), DamageDealt(move, attackerAttack, defender.pType, defender.defense))
      ensures old(defender.bars) >= 0.0 ==> 0.0 <= defender.bars <= old(defender.bars)
      ensures old(defender.bars) >= 0.0 ==> defender.bars == 0.0 || defender.bars <= old(defender.bars) - 1.0
      ensures old(defender.Valid()) ==> defender.Valid()
    {
      ghost var before := defender.bars;
      var typeMultiplier := TypeAdvantage(move.mType, defender.pType);
      var damage := RawDamage(move.power, attackerAttack, typeMultiplier, defender.defense);
      damage := if damage > 1.0 then damage else 1.0;
      defender.bars := defender.bars - damage;
      defender.bars := if defender.bars > 0.0 then defender.bars else 0.0;
      if before >= 0.0 {
        HitProgress(before, damage);
      }
    }

    /** A move by `attacker` on `defender`: the hit lands, the move buttons are
        disabled, and unless the defender fainted one opponent reply is scheduled. */
    method PerformMove(attacker: Pokemon, defender: Pokemon, move: Move)
      modifies this`inputEnabled, this`pendingReplies, defender`bars
      ensures defender.bars == BarsAfterHit(old(defender.bars), DamageDealt(move, attacker.attack, defender.pType, defender.defense))
      ensures !inputEnabled
      ensures Fainted(defender.bars) ==> pendingReplies == old(pendingReplies)
      ensures !Fainted(defender.bars) ==> pendingReplies == old(pendingReplies) + 1
      ensures attacker == pokemon1 && defender == pokemon2 ==>
        State() == Turns.PlayerMove(old(State()), DamageDealt(move, attacker.attack, defender.pType, defender.defense), pokemon1 == pokemon2)
    {
      ApplyDamage(defender, move, attacker.attack);
      if Fainted(defender.bars) {
        inputEnabled := false;
      } else {
        inputEnabled := false;
        pendingReplies := pendingReplies + 1;
      }
    }

    /** The opponent's reply with the move it drew: the player's combatant takes
        the hit and, unless it fainted, the move buttons are enabled again. */
    method OpponentTurn(move: Move)
      requires move in pokemon2.moves
      modifies this`inputEnabled, pokemon1`bars
      ensures State() == Turns.OpponentTurn(old(State()), DamageDealt(move, pokemon2.attack, pokemon1.pType, pokemon1.defense), pokemon1 == pokemon2)
    {
      ApplyDamage(pokemon1, move, pokemon2.attack);
      if !Fainted(pokemon1.bars) {
        inputEnabled := true;
      }
    }

    /** A click on the move button at `index`: ignored while the buttons are
        disabled, otherwise the player's combatant uses that move. */
    method PressMoveButton(index: nat)
      requires index < |pokemon1.moves|
      requires Valid()
      modifies this`inputEnabled, this`pendingReplies, pokemon2`bars
      ensures Valid()
      ensures State() == Step(old(State()), MoveButton(DamageDealt(pokemon1.moves[index], pokemon1.attack, pokemon2.pType, pokemon2.defense)), pokemon1 == pokemon2)
    {
      ghost var before := State();
      var damage := DamageDealt(pokemon1.moves[index], pokemon1.attack, pokemon2.pType, pokemon2.defense);
      if inputEnabled {
        PerformMove(pokemon1, pokemon2, pokemon1.moves[index]);
      }
      StepKeepsConsistent(before, MoveButton(damage), pokemon1 == pokemon2);
    }

    /** The reply timer fires with the move the opponent drew: a scheduled reply
        is taken off the schedule and run; with none scheduled nothing happens. */
    method FireReplyTimer(move: Move)
      requires move in pokemon2.moves
      requires Valid()
      modifies this`inputEnabled, this`pendingReplies, pokemon1`bars
      ensures Valid()
      ensures State() == Step(old(State()), ReplyTimer(DamageDealt(move, pokemon2.attack, pokemon1.pType, pokemon1.defense)), pokemon1 == pokemon2)
    {
      ghost var before := State();
      var damage := DamageDealt(move, pokemon2.attack, pokemon1.pType, pokemon1.defense);
      if pendingReplies > 0 {
        pendingReplies := pendingReplies - 1;
        OpponentTurn(move);
      }
      StepKeepsConsistent(before, ReplyTimer(damage), pokemon1 == pokemon2);
    }
  }
}
