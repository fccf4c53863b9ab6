/** Elements, moves and the type-effectiveness chart of the battle engine. */
module Types {

  /** Number of health bars every combatant starts with. */
  const HealthBarLength: int := 20

  /** The three multipliers the chart uses. */
  const TypeAdvantageMultiplier: real := 1.5
  const TypeDisadvantageMultiplier: real := 0.75
  const TypeNeutral: real := 1.0

  /** The element of a combatant (the defending side of the chart). */
  datatype PokemonType = Fire | Water | Grass | Electric | Ice | Dragon | Psychic | Normal

  /** The element of a move (the attacking side of the chart). */
  datatype MoveType = Fire | Water | Grass | Electric | Ice | Dragon | Psychic | Normal

  /** A move: its display name, its base power and its element. */
  datatype Move = Move(name: string, power: int, mType: MoveType)

  /** The multiplier a move of element `m` gets against a defender of element `p`. */
  function TypeAdvantage(m: MoveType, p: PokemonType): (r: real)
    ensures r == TypeNeutral || r == TypeAdvantageMultiplier || r == TypeDisadvantageMultiplier
  {
    match m
    case Fire =>
      (match p
       case Water => TypeDisadvantageMultiplier
       case Grass => TypeAdvantageMultiplier
       case Ice => TypeAdvantageMultiplier
       case _ => TypeNeutral)
    case Water =>
      (match p
       case Fire => TypeAdvantageMultiplier
       case Grass => TypeDisadvantageMultiplier
       case Electric => TypeDisadvantageMultiplier
       case _ => TypeNeutral)
    case Grass =>
      (match p
       case Fire => TypeDisadvantageMultiplier
       case Water => TypeAdvantageMultiplier
       case Ice => TypeDisadvantageMultiplier
       case _ => TypeNeutral)
    case Electric =>
      (match p
       case Water => TypeAdvantageMultiplier
       case _ => TypeNeutral)
    case Ice =>
      (match p
       case Fire => TypeDisadvantageMultiplier
       case Grass => TypeAdvantageMultiplier
       case Dragon => TypeAdvantageMultiplier
       case _ => TypeNeutral)
    case Dragon =>
      (match p
       case Ice => TypeDisadvantageMultiplier
       case _ => TypeNeutral)
    case Psychic => TypeNeutral
    case Normal => TypeNeutral
  }

  /** The pairs the chart rates as strong, listed one by one. */
  const SuperEffective: set<(MoveType, PokemonType)> := {
    (MoveType.Fire, PokemonType.Grass), (MoveType.Fire, PokemonType.Ice),
    (MoveType.Water, PokemonType.Fire),
    (MoveType.Grass, PokemonType.Water),
    (MoveType.Electric, PokemonType.Water),
    (MoveType.Ice, PokemonType.Grass), (MoveType.Ice, PokemonType.Dragon)
  }

  /** The pairs the chart rates as weak, listed one by one. */
  const NotVeryEffective: set<(MoveType, PokemonType)> := {
    (MoveType.Fire, PokemonType.Water),
    (MoveType.Water, PokemonType.Grass), (MoveType.Water, PokemonType.Electric),
    (MoveType.Grass, PokemonType.Fire), (MoveType.Grass, PokemonType.Ice),
    (MoveType.Ice, PokemonType.Fire),
    (MoveType.Dragon, PokemonType.Ice)
  }

  /** The chart agrees with the two lists: strong pairs get 1.5, weak pairs 0.75,
      every other pair of the 8x8 product is neutral. */
  lemma TypeAdvantageMatchesLists(m: MoveType, p: PokemonType)
    ensures (m, p) in SuperEffective <==> TypeAdvantage(m, p) == TypeAdvantageMultiplier
    ensures (m, p) in NotVeryEffective <==> TypeAdvantage(m, p) == TypeDisadvantageMultiplier
    ensures (m, p) !in SuperEffective && (m, p) !in NotVeryEffective <==> TypeAdvantage(m, p) == TypeNeutral
  {
  }

  /** Psychic and Normal moves are neutral against every defender, Normal included. */
  lemma NeutralMoveTypes(p: PokemonType)
    ensures TypeAdvantage(MoveType.Psychic, p) == TypeNeutral
    ensures TypeAdvantage(MoveType.Normal, p) == TypeNeutral
  {
  }

  /** Psychic and Normal defenders take neutral damage from every move. */
  lemma NeutralDefenderTypes(m: MoveType)
    ensures TypeAdvantage(m, PokemonType.Psychic) == TypeNeutral
    ensures TypeAdvantage(m, PokemonType.Normal) == TypeNeutral
  {
  }

  /** A few entries of the chart, as the chart literally writes them. */
  lemma ChartEntries()
    ensures TypeAdvantage(MoveType.Fire, PokemonType.Grass) == 1.5
    ensures TypeAdvantage(MoveType.Fire, PokemonType.Ice) == 1.5
    ensures TypeAdvantage(MoveType.Fire, PokemonType.Water) == 0.75
    ensures TypeAdvantage(MoveType.Water, PokemonType.Electric) == 0.75
    ensures TypeAdvantage(MoveType.Ice, PokemonType.Dragon) == 1.5
    ensures TypeAdvantage(MoveType.Dragon, PokemonType.Ice) == 0.75
  {
  }
}
