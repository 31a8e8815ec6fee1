/**
 * How a combatant card resolves its buttons (src/simulation.rs:770-935): the
 * six saving throws and each attack's "Use" button, the ability modifier an
 * attack uses (`get_ability_mod`, src/simulation.rs:1019-1029), the save DC
 * shown beside a saving-throw attack, and the exact text each button writes
 * to the console. The clock is the formatted time `now` ("%H:%M:%S") and the
 * dice are the rolls the generator produced, both supplied by the caller.
 */
module Resolution {
  import opened Strings
  import opened MonsterManager
  import opened Combatants
  import opened Dice
  import opened Console

  /** The ability keys the attack form stores in `ability_used`. */
  const AbilityNames: seq<string> := ["str", "dex", "con", "int", "wis", "cha"]

  /** The labels of the six save buttons, in the order they are shown. */
  const SaveLabels: seq<string> := ["Str", "Dex", "Con", "Int", "Wis", "Cha"]

  /** A template's six modifiers, in the order of `AbilityNames`. */
  function Modifiers(m: Monster): (r: seq<int>)
    ensures |r| == 6
  {
    [m.strMod, m.dexMod, m.conMod, m.intMod, m.wisMod, m.chaMod]
  }

  /** `get_ability_mod`: the modifier named by an exact, lower-case ability key, else 0. */
  function AbilityMod(m: Monster, ability: string): int {
    match ability
    case "str" => m.strMod
    case "dex" => m.dexMod
    case "con" => m.conMod
    case "int" => m.intMod
    case "wis" => m.wisMod
    case "cha" => m.chaMod
    case _ => 0
  }

  /** The modifier a save button adds: its label lower-cased, then matched like an ability key. */
  function SaveModifier(m: Monster, stat: string): int {
    AbilityMod(m, ToLower(stat))
  }

  /** The save DC shown for a saving-throw attack: 8 + ability modifier + proficiency bonus. */
  function SaveDc(m: Monster, attack: Attack): int {
    8 + AbilityMod(m, attack.abilityUsed) + m.pb
  }

  /** What an attack adds to its d20: ability modifier plus proficiency bonus. */
  function ToHitBonus(m: Monster, attack: Attack): int {
    AbilityMod(m, attack.abilityUsed) + m.pb
  }

  /** A natural 20 doubles the number of damage dice. */
  function DamageDice(numDice: int, d20: int): int {
    if d20 == 20 then numDice * 2 else numDice
  }

  function CritMessage(d20: int): string {
    if d20 == 20 then " -> CRITICAL HIT!" else ""
  }

  /** The generator's rolls for one repetition of an attack roll: the d20, then the damage dice. */
  datatype SubAttackRolls = SubAttackRolls(d20: int, damage: seq<int>)

  /** The rolls one press of "Use" consumes. */
  datatype AttackRolls =
    | ToHitRolls(subs: seq<SubAttackRolls>)
    | SaveRolls(damage: seq<int>)

  predicate ValidD20(d20: int) {
    1 <= d20 <= 20
  }

  /**
   * Rolls the generator can produce for `attack`: for an attack roll one d20
   * and its (possibly doubled) damage dice per repetition, for a saving-throw
   * attack one set of damage dice. Dice of size below 1 have no rolls: the
   * source panics on an empty range there.
   */
  predicate ValidAttackRolls(attack: Attack, rolls: AttackRolls) {
    var size := DieSize(attack.diceUsed);
    if attack.savingThrow then
      rolls.SaveRolls? && ValidRolls(rolls.damage, attack.numDice, size)
    else
      && rolls.ToHitRolls?
      && |rolls.subs| == Iterations(attack.numAttacks)
      && forall i :: 0 <= i < |rolls.subs| ==>
           ValidD20(rolls.subs[i].d20)
           && ValidRolls(rolls.subs[i].damage, DamageDice(attack.numDice, rolls.subs[i].d20), size)
  }

  /** The text a save button inserts: one line and its newline. */
  function SaveMessage(now: string, c: Combatant, stat: string, d20: int): string {
    var modifier := SaveModifier(c.template, stat);
    now + ": " + c.instanceName + " rolled a " + stat + " Save: " + IntToString(d20)
    + " (1d20) + " + IntToString(modifier) + " (Mod) = " + IntToString(d20 + modifier) + "\n"
  }

  /** The first line of an attack roll, with its newline. */
  function AttackHeader(now: string, c: Combatant, attack: Attack): string {
    now + ": " + c.instanceName + " started an attack using " + attack.attackName + " "
    + IntToString(attack.numAttacks) + " times.\n"
  }

  /** The to-hit part of repetition `i` (counted from 0): the d20, the bonus, the total, and a critical hit. */
  function ToHitText(i: int, d20: int, bonus: int): string {
    "  Attack " + IntToString(i + 1) + ": To hit: " + IntToString(d20) + " + " + IntToString(bonus)
    + " (Total Mod) = " + IntToString(d20 + bonus) + CritMessage(d20)
  }

  /** The line of repetition `i` (counted from 0) of an attack roll, with its newline. */
  function SubAttackLine(c: Combatant, attack: Attack, i: int, roll: SubAttackRolls): string {
    ToHitText(i, roll.d20, ToHitBonus(c.template, attack))
    + "; Damage: " + DamageText(roll.damage, AbilityMod(c.template, attack.abilityUsed)) + "\n"
  }

  /** The lines of the first `|subs|` repetitions. */
  function SubAttackLines(c: Combatant, attack: Attack, subs: seq<SubAttackRolls>): string {
    if subs == [] then ""
    else SubAttackLines(c, attack, subs[..|subs| - 1]) + SubAttackLine(c, attack, |subs| - 1, subs[|subs| - 1])
  }

  lemma SubAttackLinesSnoc(c: Combatant, attack: Attack, subs: seq<SubAttackRolls>, i: nat)
    requires i < |subs|
    ensures SubAttackLines(c, attack, subs[..i + 1]) == SubAttackLines(c, attack, subs[..i]) + SubAttackLine(c, attack, i, subs[i])
  {
    assert subs[..i + 1][..i] == subs[..i];
  }

  /** The start of a saving-throw attack's message, which has no newline. */
  function SavingThrowHeader(now: string, c: Combatant, attack: Attack): string {
    now + ": " + c.instanceName + " started an attack using " + attack.attackName
  }

  /** The damage of a saving-throw attack, rolled without a modifier, ending the header's line. */
  function SavingThrowDamage(damage: seq<int>): string {
    "  Damage: " + DamageText(damage, 0) + "\n"
  }

  /** Everything one press of "Use" inserts. */
  function AttackText(now: string, c: Combatant, attack: Attack, rolls: AttackRolls): string
    requires ValidAttackRolls(attack, rolls)
  {
    if attack.savingThrow then SavingThrowHeader(now, c, attack) + SavingThrowDamage(rolls.damage)
    else AttackHeader(now, c, attack) + SubAttackLines(c, attack, rolls.subs)
  }

  /** Each ability key of the attack form selects its own modifier, and any other key gives 0. */
  lemma AbilityModOfKey(m: Monster, ability: string)
    ensures forall i :: 0 <= i < 6 ==> AbilityMod(m, AbilityNames[i]) == Modifiers(m)[i]
    ensures ability !in AbilityNames ==> AbilityMod(m, ability) == 0
  {
  }

  /** Lower-casing a capitalised three-letter word lowers only its first letter. */
  lemma {:induction false} ToLowerCapitalised(s: string)
    requires |s| == 3 && 'A' <= s[0] <= 'Z' && 'a' <= s[1] <= 'z' && 'a' <= s[2] <= 'z'
    ensures ToLower(s) == [(s[0] as int + 32) as char, s[1], s[2]]
  {
    var t := s[2..];
    assert t[0] == s[2] && t[1..] == [];
    assert ToLower(t) == [s[2]];
    assert s[1..][0] == s[1] && s[1..][1..] == t;
    assert ToLower(s[1..]) == [s[1], s[2]];
  }

  /** Each save label, lower-cased, is its ability's key. */
  lemma SaveLabelsLowered()
    ensures forall i :: 0 <= i < 6 ==> ToLower(SaveLabels[i]) == AbilityNames[i]
  {
    ToLowerCapitalised("Str");
    ToLowerCapitalised("Dex");
    ToLowerCapitalised("Con");
    ToLowerCapitalised("Int");
    ToLowerCapitalised("Wis");
    ToLowerCapitalised("Cha");
  }

  /** Each save button adds the modifier of its own ability. */
  lemma SaveModifierOfLabel(m: Monster)
    ensures forall i :: 0 <= i < 6 ==> SaveModifier(m, SaveLabels[i]) == Modifiers(m)[i]
  {
    SaveLabelsLowered();
    AbilityModOfKey(m, "");
  }

  /**
   * Attacks do not lower-case their key: an attack whose `ability_used` is a
   * save label such as "Str" adds no modifier.
   */
  lemma AbilityModIsCaseSensitive(m: Monster)
    ensures forall i :: 0 <= i < 6 ==> AbilityMod(m, SaveLabels[i]) == 0
  {
  }

  /** A critical hit rolls twice the dice, so its damage lies between 2 and 2 * size per die. */
  lemma CriticalDamageBounds(attack: Attack, roll: SubAttackRolls, abilityMod: int)
    requires roll.d20 == 20 && attack.numDice >= 0
    requires ValidRolls(roll.damage, DamageDice(attack.numDice, roll.d20), DieSize(attack.diceUsed))
    ensures 2 * attack.numDice + abilityMod <= Sum(roll.damage) + abilityMod
            <= 2 * attack.numDice * DieSize(attack.diceUsed) + abilityMod
  {
    DamageBounds(roll.damage, DamageDice(attack.numDice, roll.d20), DieSize(attack.diceUsed), abilityMod);
  }

  lemma {:induction false} JoinHasNoNewline(parts: seq<string>, sep: string)
    requires forall i :: 0 <= i < |parts| ==> NoNewline(parts[i])
    requires NoNewline(sep)
    ensures NoNewline(Join(parts, sep))
    decreases |parts|
  {
    if |parts| > 1 {
      JoinHasNoNewline(parts[..|parts| - 1], sep);
    }
  }

  lemma {:induction false} RollTextsHaveNoNewline(rolls: seq<int>)
    ensures forall i :: 0 <= i < |RollTexts(rolls)| ==> NoNewline(RollTexts(rolls)[i])
  {
    if rolls != [] {
      RollTextsHaveNoNewline(rolls[..|rolls| - 1]);
      IntToStringHasNoWhitespace(rolls[|rolls| - 1]);
    }
  }

  /** The damage formula is part of one line. */
  lemma DamageTextHasNoNewline(rolls: seq<int>, abilityMod: int)
    ensures NoNewline(DamageText(rolls, abilityMod))
  {
    RollTextsHaveNoNewline(rolls);
    assert NoNewline(" + ");
    JoinHasNoNewline(RollTexts(rolls), " + ");
    IntToStringHasNoWhitespace(abilityMod);
    IntToStringHasNoWhitespace(Sum(rolls) + abilityMod);
  }

  /** The fixed pieces of the save message hold no newline. */
  lemma SavePiecesHaveNoNewline()
    ensures NoNewline(": ") && NoNewline(" rolled a ") && NoNewline(" Save: ")
    ensures NoNewline(" (1d20) + ") && NoNewline(" (Mod) = ")
  {
  }

  /** The fixed pieces of the attack headers hold no newline. */
  lemma HeaderPiecesHaveNoNewline()
    ensures NoNewline(": ") && NoNewline(" started an attack using ") && NoNewline(" ") && NoNewline(" times.")
    ensures NoNewline("  Damage: ")
  {
  }

  /** The fixed pieces of a repetition's line hold no newline. */
  lemma ToHitPiecesHaveNoNewline()
    ensures NoNewline("  Attack ") && NoNewline(": To hit: ") && NoNewline(" + ")
    ensures NoNewline(" (Total Mod) = ") && NoNewline(" -> CRITICAL HIT!") && NoNewline("; Damage: ")
  {
  }

  /** A save writes exactly one line of the console. */
  lemma SaveMessageIsOneLine(now: string, c: Combatant, stat: string, d20: int)
    requires NoNewline(now) && NoNewline(c.instanceName) && NoNewline(stat)
    ensures Newlines(SaveMessage(now, c, stat, d20)) == 1
  {
    var modifier := SaveModifier(c.template, stat);
    IntToStringHasNoWhitespace(d20);
    IntToStringHasNoWhitespace(modifier);
    IntToStringHasNoWhitespace(d20 + modifier);
    SavePiecesHaveNoNewline();
    var line := now + ": " + c.instanceName + " rolled a " + stat + " Save: " + IntToString(d20)
                + " (1d20) + " + IntToString(modifier) + " (Mod) = " + IntToString(d20 + modifier);
    NewlinesOfTerminatedLine(line);
  }

  /** The to-hit part has no newline. */
  lemma ToHitTextHasNoNewline(i: int, d20: int, bonus: int)
    ensures NoNewline(ToHitText(i, d20, bonus))
  {
    IntToStringHasNoWhitespace(i + 1);
    IntToStringHasNoWhitespace(d20);
    IntToStringHasNoWhitespace(bonus);
    IntToStringHasNoWhitespace(d20 + bonus);
    ToHitPiecesHaveNoNewline();
    var head := "  Attack " + IntToString(i + 1) + ": To hit: " + IntToString(d20);
    assert NoNewline(head);
    assert NoNewline(head + " + " + IntToString(bonus));
  }

  /** A repetition writes exactly one line. */
  lemma SubAttackLineIsOneLine(c: Combatant, attack: Attack, i: int, roll: SubAttackRolls)
    ensures Newlines(SubAttackLine(c, attack, i, roll)) == 1
  {
    var toHit := ToHitText(i, roll.d20, ToHitBonus(c.template, attack));
    var damage := DamageText(roll.damage, AbilityMod(c.template, attack.abilityUsed));
    ToHitTextHasNoNewline(i, roll.d20, ToHitBonus(c.template, attack));
    DamageTextHasNoNewline(roll.damage, AbilityMod(c.template, attack.abilityUsed));
    ToHitPiecesHaveNoNewline();
    NewlinesOfTerminatedLine(toHit + "; Damage: " + damage);
  }

  lemma {:induction false} SubAttackLinesCount(c: Combatant, attack: Attack, subs: seq<SubAttackRolls>)
    ensures Newlines(SubAttackLines(c, attack, subs)) == |subs|
  {
    if subs != [] {
      SubAttackLinesCount(c, attack, subs[..|subs| - 1]);
      SubAttackLineIsOneLine(c, attack, |subs| - 1, subs[|subs| - 1]);
      NewlinesConcat(SubAttackLines(c, attack, subs[..|subs| - 1]), SubAttackLine(c, attack, |subs| - 1, subs[|subs| - 1]));
    }
  }

  /** The header of an attack roll is one line. */
  lemma AttackHeaderIsOneLine(now: string, c: Combatant, attack: Attack)
    requires NoNewline(now) && NoNewline(c.instanceName) && NoNewline(attack.attackName)
    ensures Newlines(AttackHeader(now, c, attack)) == 1
  {
    HeaderPiecesHaveNoNewline();
    IntToStringHasNoWhitespace(attack.numAttacks);
    var line := now + ": " + c.instanceName + " started an attack using " + attack.attackName + " "
                + IntToString(attack.numAttacks);
    NewlinesOfLine(line);
    assert Newlines(" times.\n") == 1 by {
      NewlinesOfTerminatedLine(" times.");
      assert " times.\n" == " times." + "\n";
    }
    NewlinesConcat(line, " times.\n");
  }

  /** A saving-throw attack is one line: the damage ends the header's line. */
  lemma SavingThrowIsOneLine(now: string, c: Combatant, attack: Attack, damage: seq<int>)
    requires NoNewline(now) && NoNewline(c.instanceName) && NoNewline(attack.attackName)
    ensures Newlines(SavingThrowHeader(now, c, attack) + SavingThrowDamage(damage)) == 1
  {
    HeaderPiecesHaveNoNewline();
    var header := SavingThrowHeader(now, c, attack);
    DamageTextHasNoNewline(damage, 0);
    NewlinesOfLine(header);
    NewlinesOfTerminatedLine("  Damage: " + DamageText(damage, 0));
    NewlinesConcat(header, SavingThrowDamage(damage));
  }

  /**
   * An attack roll writes its header and one line per repetition; a
   * saving-throw attack writes one line.
   */
  lemma AttackTextLineCount(now: string, c: Combatant, attack: Attack, rolls: AttackRolls)
    requires ValidAttackRolls(attack, rolls)
    requires NoNewline(now) && NoNewline(c.instanceName) && NoNewline(attack.attackName)
    ensures Newlines(AttackText(now, c, attack, rolls))
            == if attack.savingThrow then 1 else 1 + Iterations(attack.numAttacks)
  {
    if attack.savingThrow {
      SavingThrowIsOneLine(now, c, attack, rolls.damage);
    } else {
      AttackHeaderIsOneLine(now, c, attack);
      SubAttackLinesCount(c, attack, rolls.subs);
      NewlinesConcat(AttackHeader(now, c, attack), SubAttackLines(c, attack, rolls.subs));
    }
  }
}
