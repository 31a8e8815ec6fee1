/**
 * `calculate_damage` (src/simulation.rs:632-663): the die size is read from
 * the dice notation ("d6" is a six-sided die, anything unreadable a one-sided
 * one), `num_dice` dice are rolled, and the result is their sum plus the
 * ability modifier together with the formula "r1 + r2 + ... + mod = total".
 * The random number generator is replaced by the sequence of rolls it
 * produced, which the caller supplies.
 */
module Dice {
  import opened Wrappers
  import opened Strings
  import opened Combatants

  /** `s.trim_start_matches('d')`: every leading 'd' goes, and nothing else. */
  function TrimLeadingD(s: string): (r: string)
    ensures |r| <= |s| && r == s[|s| - |r|..]
    ensures forall i :: 0 <= i < |s| - |r| ==> s[i] == 'd'
    ensures r == [] || r[0] != 'd'
  {
    if s != [] && s[0] == 'd' then TrimLeadingD(s[1..]) else s
  }

  /** The number of faces: `dice_value_str.parse().unwrap_or(1)`. */
  function DieSize(diceUsed: string): int {
    var parsed := ParseI32(TrimLeadingD(diceUsed));
    if parsed.Some? then parsed.value else 1
  }

  /** The notation "dN" names an N-sided die. */
  lemma DieSizeOfNotation(n: int)
    requires 1 <= n <= I32Max
    ensures DieSize("d" + IntToString(n)) == n
  {
    var digits := IntToString(n);
    assert ("d" + digits)[0] == 'd' && ("d" + digits)[1..] == digits;
    assert IsDigit(digits[0]);
    assert TrimLeadingD(digits) == digits;
    ParseIntToString(n);
  }

  /** A notation with no number after its 'd's is a one-sided die. */
  lemma DieSizeFallback(diceUsed: string)
    requires ParseI32(TrimLeadingD(diceUsed)).None?
    ensures DieSize(diceUsed) == 1
  {
  }

  function Sum(rolls: seq<int>): int {
    if rolls == [] then 0 else Sum(rolls[..|rolls| - 1]) + rolls[|rolls| - 1]
  }

  /**
   * What `random_range(1..=size)` can produce for `numDice` dice. There are
   * no such rolls when dice are rolled with a size below 1, where the source
   * panics on an empty range.
   */
  predicate ValidRolls(rolls: seq<int>, numDice: int, size: int) {
    |rolls| == Iterations(numDice) && forall i :: 0 <= i < |rolls| ==> 1 <= rolls[i] <= size
  }

  /** `roll.to_string()` for each roll. */
  function RollTexts(rolls: seq<int>): (r: seq<string>)
    ensures |r| == |rolls|
  {
    if rolls == [] then [] else RollTexts(rolls[..|rolls| - 1]) + [IntToString(rolls[|rolls| - 1])]
  }

  /**
   * The damage formula: the rolls joined by " + ", the modifier when it is
   * not zero or when no dice were rolled, then " = " and the total.
   */
  function DamageText(rolls: seq<int>, abilityMod: int): string {
    var shown := Join(RollTexts(rolls), " + ");
    var withMod :=
      if abilityMod != 0 || rolls == [] then shown + (if rolls != [] then " + " else "") + IntToString(abilityMod)
      else shown;
    withMod + " = " + IntToString(Sum(rolls) + abilityMod)
  }

  /** `calculate_damage`, with the generator's rolls supplied as `rolls`. */
  method CalculateDamage(numDice: int, diceUsed: string, abilityMod: int, rolls: seq<int>)
    returns (totalDamage: int, damageOutput: string)
    requires ValidRolls(rolls, numDice, DieSize(diceUsed))
    ensures totalDamage == Sum(rolls) + abilityMod
    ensures damageOutput == DamageText(rolls, abilityMod)
  {
    var diceValueStr := TrimLeadingD(diceUsed);
    var parsed := ParseI32(diceValueStr);
    var maxDiceVal := if parsed.Some? then parsed.value else 1;
    var damageRolls;
    totalDamage, damageRolls := RollDice(numDice, maxDiceVal, rolls);
    ghost var shown := Join(RollTexts(rolls), " + ");
    damageOutput := "";
    if damageRolls != [] {
      damageOutput := damageOutput + Join(damageRolls, " + ");
    }
    assert damageOutput == shown;
    if abilityMod != 0 || damageRolls == [] {
      if damageRolls != [] {
        damageOutput := damageOutput + " + ";
      }
      damageOutput := damageOutput + IntToString(abilityMod);
    }
    totalDamage := totalDamage + abilityMod;
    damageOutput := damageOutput + " = " + IntToString(totalDamage);
  }

  /** The loop of `calculate_damage`: `numDice` rolls of a `size`-sided die, added up and written out. */
  method RollDice(numDice: int, size: int, rolls: seq<int>) returns (total: int, texts: seq<string>)
    requires ValidRolls(rolls, numDice, size)
    ensures total == Sum(rolls) && texts == RollTexts(rolls)
  {
    total := 0;
    texts := [];
    var i := 0;
    while i < numDice
      invariant 0 <= i <= Iterations(numDice)
      invariant texts == RollTexts(rolls[..i])
      invariant total == Sum(rolls[..i])
    {
      var roll := rolls[i];
      assert 1 <= roll <= size;
      assert rolls[..i + 1][..i] == rolls[..i];
      texts := texts + [IntToString(roll)];
      total := total + roll;
      i := i + 1;
    }
    assert rolls[..i] == rolls;
  }

  lemma {:induction false} SumBounds(rolls: seq<int>, size: int)
    requires forall i :: 0 <= i < |rolls| ==> 1 <= rolls[i] <= size
    ensures |rolls| <= Sum(rolls) <= |rolls| * size
  {
    if rolls != [] {
      var init := rolls[..|rolls| - 1];
      assert forall i :: 0 <= i < |init| ==> init[i] == rolls[i];
      SumBounds(init, size);
    }
  }

  /** The damage lies between one per die and the die size per die, plus the modifier. */
  lemma DamageBounds(rolls: seq<int>, numDice: int, size: int, abilityMod: int)
    requires ValidRolls(rolls, numDice, size)
    ensures Iterations(numDice) + abilityMod <= Sum(rolls) + abilityMod <= Iterations(numDice) * size + abilityMod
  {
    SumBounds(rolls, size);
  }

  /** Dice and a modifier: every roll, then the modifier, then the total. */
  lemma DamageTextWithModifier()
    ensures DamageText([4, 5], 3) == "4 + 5 + 3 = 12"
  {
    assert [4, 5][..1] == [4];
    assert RollTexts([4, 5]) == ["4", "5"];
    assert ["4", "5"][..1] == ["4"];
    assert Join(["4", "5"], " + ") == "4 + 5";
    assert Sum([4, 5]) == 9;
    assert IntToString(12) == "12";
  }

  /** A zero modifier is left out when dice were rolled. */
  lemma DamageTextWithoutModifier()
    ensures DamageText([6], 0) == "6 = 6"
  {
  }

  /** With no dice the modifier alone is shown, even when it is zero. */
  lemma DamageTextWithoutDice()
    ensures DamageText([], 0) == "0 = 0"
  {
  }
}
