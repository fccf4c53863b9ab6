/** Concrete battles between entries of the roster. */
module Scenarios {
  import opened Types
  import opened Damage
  import opened Engine

  method NewCharizard() returns (p: Pokemon)
    ensures fresh(p) && p.Valid() && p.bars == 20.0
    ensures p.pType == PokemonType.Fire && p.attack == 12 && p.defense == 8
    ensures p.moves == [Move("Flamethrower", 10, MoveType.Fire), Move("Fly", 8, MoveType.Normal),
                        Move("Blast Burn", 12, MoveType.Fire), Move("Fire Punch", 8, MoveType.Fire)]
  {
    p := new Pokemon("Charizard", PokemonType.Fire,
                     [Move("Flamethrower", 10, MoveType.Fire), Move("Fly", 8, MoveType.Normal),
                      Move("Blast Burn", 12, MoveType.Fire), Move("Fire Punch", 8, MoveType.Fire)],
                     map["ATTACK" := 12, "DEFENSE" := 8]);
  }

  method NewVenusaur() returns (p: Pokemon)
    ensures fresh(p) && p.Valid() && p.bars == 20.0
    ensures p.pType == PokemonType.Grass && p.attack == 8 && p.defense == 12
    ensures p.moves == [Move("Vine Whip", 8, MoveType.Grass), Move("Razor Leaf", 10, MoveType.Grass),
                        Move("Earthquake", 12, MoveType.Normal), Move("Frenzy Plant", 14, MoveType.Grass)]
  {
    p := new Pokemon("Venusaur", PokemonType.Grass,
                     [Move("Vine Whip", 8, MoveType.Grass), Move("Razor Leaf", 10, MoveType.Grass),
                      Move("Earthquake", 12, MoveType.Normal), Move("Frenzy Plant", 14, MoveType.Grass)],
                     map["ATTACK" := 8, "DEFENSE" := 12]);
  }

  method NewSquirtle() returns (p: Pokemon)
    ensures fresh(p) && p.Valid() && p.bars == 20.0
    ensures p.pType == PokemonType.Water && p.attack == 3 && p.defense == 3
    ensures p.moves == [Move("Bubblebeam", 6, MoveType.Water), Move("Tackle", 4, MoveType.Normal),
                        Move("Headbutt", 5, MoveType.Normal), Move("Surf", 9, MoveType.Water)]
  {
    p := new Pokemon("Squirtle", PokemonType.Water,
                     [Move("Bubblebeam", 6, MoveType.Water), Move("Tackle", 4, MoveType.Normal),
                      Move("Headbutt", 5, MoveType.Normal), Move("Surf", 9, MoveType.Water)],
                     map["ATTACK" := 3, "DEFENSE" := 3]);
  }

  /** Charizard's Flamethrower on Venusaur: 1.5 times 12 less 1.2 is 16.8 damage,
      leaving 3.2 bars, that is 16 percent; the opponent's reply is scheduled. */
  method FlamethrowerOnVenusaur() returns (bars: real, percentage: int, inputEnabled: bool, pendingReplies: nat)
    ensures bars == 3.2 && percentage == 16 && !inputEnabled && pendingReplies == 1
  {
    var charizard := NewCharizard();
    var venusaur := NewVenusaur();
    var battle := new Battle(charizard, venusaur);
    battle.PressMoveButton(0);
    bars := venusaur.bars;
    percentage := venusaur.HealthPercentage();
    assert percentage as real <= 16.0 < percentage as real + 1.0;
    inputEnabled, pendingReplies := battle.inputEnabled, battle.pendingReplies;
  }

  /** Squirtle's Tackle on Venusaur: the formula gives 4 * 0.3 - 1.2 = 0, so the
      floor of one bar applies and Venusaur keeps 19 bars. */
  method TackleOnVenusaur() returns (raw: real, bars: real, percentage: int)
    ensures raw == 0.0 && bars == 19.0 && percentage == 95
  {
    var squirtle := NewSquirtle();
    var venusaur := NewVenusaur();
    var tackle := squirtle.moves[1];
    raw := RawDamage(tackle.power, squirtle.attack, TypeAdvantage(tackle.mType, venusaur.pType), venusaur.defense);
    var battle := new Battle(squirtle, venusaur);
    battle.PressMoveButton(1);
    bars := venusaur.bars;
    percentage := venusaur.HealthPercentage();
    assert percentage as real <= 95.0 < percentage as real + 1.0;
  }

  /** Both sides default to the first roster entry, so Charizard fights itself:
      its own Flamethrower (11.2 damage) lowers both health bars to 8.8, and the
      reply knocks both out, leaving the move buttons disabled for good. */
  method CharizardAgainstItself() returns (after: (int, int), final: (int, int), inputEnabled: bool)
    ensures after == (44, 44)
    ensures final == (0, 0) && !inputEnabled
  {
    var charizard := NewCharizard();
    var battle := new Battle(charizard, charizard);
    battle.PressMoveButton(0);
    assert charizard.bars == 8.8;
    var p := charizard.HealthPercentage();
    assert p as real <= 44.0 < p as real + 1.0;
    after := (battle.pokemon1.HealthPercentage(), battle.pokemon2.HealthPercentage());
    battle.FireReplyTimer(Move("Flamethrower", 10, MoveType.Fire));
    final := (battle.pokemon1.HealthPercentage(), battle.pokemon2.HealthPercentage());
    inputEnabled := battle.inputEnabled;
  }

  /** Charizard against itself again, but the reply is Fly (8 * 1.2 - 0.8 = 8.8
      damage). On exact reals it takes the 8.8 bars left by Flamethrower to exactly
      zero, so both sides faint and the buttons stay disabled. */
  method CharizardAgainstItselfFly() returns (bars: real, inputEnabled: bool, pendingReplies: nat)
    ensures bars == 0.0 && !inputEnabled && pendingReplies == 0
  {
    var charizard := NewCharizard();
    var battle := new Battle(charizard, charizard);
    battle.PressMoveButton(0);
    assert charizard.bars == 8.8;
    battle.FireReplyTimer(Move("Fly", 8, MoveType.Normal));
    bars, inputEnabled, pendingReplies := charizard.bars, battle.inputEnabled, battle.pendingReplies;
  }
}
