/** The damage formula and the health clamps of the battle engine, on exact reals. */
module Damage {
  import opened Types

  /** The damage formula before any clamp: power times a tenth of the attacker's
      attack, times the chart multiplier, less a tenth of the defender's defense.
      For each multiplier of the chart the value is an integer combination of the
      stats over 10, 20 or 40, so it is exact in tenths, twentieths or fortieths. */
  function RawDamage(power: int, attackerAttack: int, multiplier: real, defense: int): (r: real)
    ensures multiplier == TypeNeutral ==> r * 10.0 == (power * attackerAttack - defense) as real
    ensures multiplier == TypeAdvantageMultiplier ==> r * 20.0 == (3 * power * attackerAttack - 2 * defense) as real
    ensures multiplier == TypeDisadvantageMultiplier ==> r * 40.0 == (3 * power * attackerAttack - 4 * defense) as real
  {
    (power as real * (attackerAttack as real / 10.0)) * multiplier - defense as real / 10.0
  }

  /** The damage a move deals: the formula's value, but never less than one bar. */
  function DamageDealt(move: Move, attackerAttack: int, defenderType: PokemonType, defenderDefense: int): (d: real)
    ensures d >= 1.0
    ensures d >= RawDamage(move.power, attackerAttack, TypeAdvantage(move.mType, defenderType), defenderDefense)
    ensures d == 1.0 || d == RawDamage(move.power, attackerAttack, TypeAdvantage(move.mType, defenderType), defenderDefense)
  {
    var raw := RawDamage(move.power, attackerAttack, TypeAdvantage(move.mType, defenderType), defenderDefense);
    if raw > 1.0 then raw else 1.0
  }

  /** The defender's bars after losing `damage`, never below zero. */
  function BarsAfterHit(bars: real, damage: real): (r: real)
    ensures r >= 0.0
    ensures r == 0.0 || r == bars - damage
    ensures r >= bars - damage
  {
    if bars - damage > 0.0 then bars - damage else 0.0
  }

  /** A hit of at least one bar never raises health, and either empties it or takes a whole bar. */
  lemma HitProgress(bars: real, damage: real)
    requires bars >= 0.0 && damage >= 1.0
    ensures BarsAfterHit(bars, damage) <= bars
    ensures BarsAfterHit(bars, damage) == 0.0 || BarsAfterHit(bars, damage) <= bars - 1.0
  {
  }

  /** A combatant has fainted once its bars are at or below zero; with health
      clamped at zero that is exactly when no health is left. */
  function Fainted(bars: real): (r: bool)
    ensures bars >= 0.0 ==> (r <==> bars == 0.0)
    ensures bars > 0.0 ==> !r
  {
    bars <= 0.0
  }

  /** With health kept non-negative, fainting means exactly zero bars. */
  lemma FaintedIsEmpty(bars: real)
    requires bars >= 0.0
    ensures Fainted(bars) <==> bars == 0.0
  {
  }

  /** The bars left after a sequence of hits, taken in order. */
  function BarsAfterHits(bars: real, damages: seq<real>): real
    decreases |damages|
  {
    if damages == [] then bars else BarsAfterHits(BarsAfterHit(bars, damages[0]), damages[1..])
  }

  /** Each hit of at least one bar takes a bar off or empties the health. */
  lemma {:induction false} HitsWearDown(bars: real, damages: seq<real>)
    requires bars >= 0.0
    requires forall i :: 0 <= i < |damages| ==> damages[i] >= 1.0
    ensures 0.0 <= BarsAfterHits(bars, damages) <= bars
    ensures BarsAfterHits(bars, damages) == 0.0 || BarsAfterHits(bars, damages) <= bars - |damages| as real
    decreases |damages|
  {
    if damages != [] {
      var next := BarsAfterHit(bars, damages[0]);
      HitProgress(bars, damages[0]);
      HitsWearDown(next, damages[1..]);
      if next == 0.0 {
        ZeroStaysZero(damages[1..]);
      }
    }
  }

  /** Once empty, health stays empty whatever hits follow. */
  lemma {:induction false} ZeroStaysZero(damages: seq<real>)
    requires forall i :: 0 <= i < |damages| ==> damages[i] >= 1.0
    ensures BarsAfterHits(0.0, damages) == 0.0
  {
    if damages != [] {
      ZeroStaysZero(damages[1..]);
    }
  }

  /** A combatant with at most a full health bar faints after at most twenty hits. */
  lemma FaintsWithinTwentyHits(bars: real, damages: seq<real>)
    requires 0.0 <= bars <= HealthBarLength as real
    requires |damages| >= HealthBarLength
    requires forall i :: 0 <= i < |damages| ==> damages[i] >= 1.0
    ensures Fainted(BarsAfterHits(bars, damages))
  {
    HitsWearDown(bars, damages);
  }

  /** Python's int() on a number: truncation toward zero. */
  function Trunc(x: real): (r: int)
    ensures x >= 0.0 ==> r as real <= x < r as real + 1.0
    ensures x < 0.0 ==> r as real - 1.0 < x <= r as real
  {
    if x >= 0.0 then x.Floor else -((-x).Floor)
  }
}
