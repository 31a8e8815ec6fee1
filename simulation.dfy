/**
 * The running simulation (src/simulation.rs): the live list of combatants,
 * the list of killed ones and the console, updated in place by the buttons
 * of each combatant card, by the edit dialog and by resuming a saved
 * simulation. A button whose `try_borrow_mut` fails does nothing; that
 * failure is the `busy` parameter.
 */
module Simulation {
  import opened Wrappers
  import opened Strings
  import opened MonsterManager
  import opened Combatants
  import opened Reconciliation
  import opened Dice
  import opened Console
  import opened Resolution

  /** What a saved simulation holds (`StaticSimulationState`). */
  datatype StaticSimulationState = StaticSimulationState(combatants: seq<Combatant>, killedMonsters: seq<Combatant>)

  /** `iter().position(|c| c.instance_name == name)`, with `|list|` for "none". */
  function FirstIndex(list: seq<Combatant>, name: string): (r: nat)
    ensures r <= |list|
    ensures forall j :: 0 <= j < r ==> list[j].instanceName != name
    ensures r < |list| ==> list[r].instanceName == name
  {
    if list == [] then 0
    else if list[0].instanceName == name then 0
    else 1 + FirstIndex(list[1..], name)
  }

  predicate HasInstance(list: seq<Combatant>, name: string) {
    exists j :: 0 <= j < |list| && list[j].instanceName == name
  }

  /** The two lists after the Kill button of the card named `name`. */
  function AfterKill(s: StaticSimulationState, name: string): StaticSimulationState {
    var i := FirstIndex(s.combatants, name);
    if i < |s.combatants| then
      StaticSimulationState(s.combatants[..i] + s.combatants[i + 1..], s.killedMonsters + [s.combatants[i]])
    else s
  }

  /** The live list after the HP spin button of the card named `name` is set to `hp`. */
  function WithHp(list: seq<Combatant>, name: string, hp: int): seq<Combatant> {
    var i := FirstIndex(list, name);
    if i < |list| then list[i := list[i].(currentHp := hp)] else list
  }

  /** The experience of a list of combatants, as the killed-monsters dialog adds it up. */
  function SumXp(list: seq<Combatant>): int {
    if list == [] then 0 else SumXp(list[..|list| - 1]) + list[|list| - 1].template.exp
  }

  lemma {:induction false} SumXpAppend(a: seq<Combatant>, b: seq<Combatant>)
    ensures SumXp(a + b) == SumXp(a) + SumXp(b)
    decreases |b|
  {
    if b == [] {
      assert a + b == a;
    } else {
      assert (a + b)[..|a + b| - 1] == a + b[..|b| - 1];
      SumXpAppend(a, b[..|b| - 1]);
    }
  }

  /** Killing moves a combatant between the lists: nobody is lost or duplicated. */
  lemma KillKeepsEveryone(s: StaticSimulationState, name: string)
    ensures var r := AfterKill(s, name);
            multiset(r.combatants) + multiset(r.killedMonsters) == multiset(s.combatants) + multiset(s.killedMonsters)
  {
    var i := FirstIndex(s.combatants, name);
    if i < |s.combatants| {
      assert s.combatants == s.combatants[..i] + [s.combatants[i]] + s.combatants[i + 1..];
    }
  }

  /**
   * Killing appends the first live combatant of that name to the killed
   * list and removes it from the live list; with no such combatant nothing
   * changes.
   */
  lemma KillMovesFirstMatch(s: StaticSimulationState, name: string)
    ensures var r := AfterKill(s, name);
            HasInstance(s.combatants, name) <==> |r.killedMonsters| == |s.killedMonsters| + 1
    ensures var r := AfterKill(s, name);
            HasInstance(s.combatants, name) ==>
              && r.killedMonsters[..|s.killedMonsters|] == s.killedMonsters
              && r.killedMonsters[|s.killedMonsters|] == s.combatants[FirstIndex(s.combatants, name)]
              && r.killedMonsters[|s.killedMonsters|].instanceName == name
              && |r.combatants| == |s.combatants| - 1
    ensures var i := FirstIndex(s.combatants, name);
            var r := AfterKill(s, name);
            HasInstance(s.combatants, name) ==>
              && (forall j :: 0 <= j < i ==> r.combatants[j] == s.combatants[j])
              && (forall j :: i <= j < |r.combatants| ==> r.combatants[j] == s.combatants[j + 1])
    ensures !HasInstance(s.combatants, name) ==> AfterKill(s, name) == s
  {
    var i := FirstIndex(s.combatants, name);
    if HasInstance(s.combatants, name) {
      var j :| 0 <= j < |s.combatants| && s.combatants[j].instanceName == name;
      assert i <= j;
      var r := AfterKill(s, name);
      assert r.killedMonsters == s.killedMonsters + [s.combatants[i]];
      assert r.killedMonsters[..|s.killedMonsters|] == s.killedMonsters;
    } else {
      assert i == |s.combatants|;
    }
  }

  /** The total XP grows by the experience of the combatant killed. */
  lemma KillAddsXp(s: StaticSimulationState, name: string)
    ensures var i := FirstIndex(s.combatants, name);
            SumXp(AfterKill(s, name).killedMonsters)
            == SumXp(s.killedMonsters) + (if i < |s.combatants| then s.combatants[i].template.exp else 0)
  {
    var i := FirstIndex(s.combatants, name);
    if i < |s.combatants| {
      SumXpAppend(s.killedMonsters, [s.combatants[i]]);
      assert SumXp([s.combatants[i]]) == s.combatants[i].template.exp by {
        assert [s.combatants[i]][..0] == [];
      }
    }
  }

  /**
   * Setting HP changes the current HP of the first combatant of that name
   * and nothing else: every name, template and maximum stays, every other
   * entry stays whole.
   */
  lemma WithHpChangesOnlyFirstMatch(list: seq<Combatant>, name: string, hp: int)
    ensures var r := WithHp(list, name, hp);
            && |r| == |list|
            && (forall j :: 0 <= j < |list| ==>
                  r[j].instanceName == list[j].instanceName && r[j].template == list[j].template
                  && r[j].maxHp == list[j].maxHp)
            && (forall j :: 0 <= j < |list| && r[j] != list[j] ==>
                  j == FirstIndex(list, name) && r[j].currentHp == hp)
            && (HasInstance(list, name) ==> r[FirstIndex(list, name)].currentHp == hp)
            && (!HasInstance(list, name) ==> r == list)
  {
    if HasInstance(list, name) {
      var j :| 0 <= j < |list| && list[j].instanceName == name;
      assert FirstIndex(list, name) <= j;
    }
  }

  /** The file `active_simulation.json`: a saved simulation, or text that does not parse. */
  datatype SessionFile = Snapshot(state: StaticSimulationState) | Corrupt

  /**
   * The two places the program uses for that file: the data directory
   * (`get_base_path()`) and the directory of the executable.
   */
  datatype SessionFiles = SessionFiles(atBasePath: Option<SessionFile>, besideExe: Option<SessionFile>)

  /** `check_for_simulation`: the file exists next to the executable. */
  function CheckForSimulation(files: SessionFiles): bool {
    files.besideExe.Some?
  }

  /** `get_simulation`: the saved simulation next to the executable, if it is there and parses. */
  function GetSimulation(files: SessionFiles): Option<StaticSimulationState> {
    match files.besideExe
    case Some(Snapshot(s)) => Some(s)
    case _ => None
  }

  /** `remove_simulation_file`: deletes the file next to the executable when it exists. */
  function RemoveSimulationFile(files: SessionFiles): SessionFiles {
    if CheckForSimulation(files) then files.(besideExe := None) else files
  }

  /** `save_simulation` as written: the snapshot goes to the data directory. */
  function SaveSimulationAsWritten(files: SessionFiles, snapshot: StaticSimulationState): SessionFiles {
    files.(atBasePath := Some(Snapshot(snapshot)))
  }

  /** `save_simulation` writing where the loader reads: next to the executable. */
  function SaveSimulation(files: SessionFiles, snapshot: StaticSimulationState): SessionFiles {
    files.(besideExe := Some(Snapshot(snapshot)))
  }

  /** The saved simulation a start picks up, if there is one. */
  function Resumed(files: SessionFiles): Option<StaticSimulationState> {
    if CheckForSimulation(files) then GetSimulation(files) else None
  }

  /**
   * The lists a started simulation holds: the spawned combatants followed by
   * the resumed ones, and the resumed killed list.
   */
  function Started(selected: seq<Selection>, files: SessionFiles): StaticSimulationState {
    match Resumed(files)
    case Some(s) => StaticSimulationState(Spawned(selected) + s.combatants, s.killedMonsters)
    case None => StaticSimulationState(Spawned(selected), [])
  }

  /** What `get_simulation().unwrap()` needs: a file that exists also parses. */
  predicate Resumable(files: SessionFiles) {
    CheckForSimulation(files) ==> GetSimulation(files).Some?
  }

  /** A removed file is gone: nothing is found and nothing is resumed. */
  lemma RemoveSimulationFileRemoves(files: SessionFiles)
    ensures !CheckForSimulation(RemoveSimulationFile(files))
    ensures GetSimulation(RemoveSimulationFile(files)) == None
    ensures RemoveSimulationFile(files).atBasePath == files.atBasePath
  {
  }

  /**
   * A saved simulation is resumed as it was saved, by the continue button
   * (which starts with no selection), and only once: the start deletes the
   * file, so a second start finds an empty simulation.
   */
  lemma SaveThenResume(files: SessionFiles, snapshot: StaticSimulationState)
    ensures CheckForSimulation(SaveSimulation(files, snapshot))
    ensures Started([], SaveSimulation(files, snapshot)) == snapshot
    ensures Started([], RemoveSimulationFile(SaveSimulation(files, snapshot))) == StaticSimulationState([], [])
  {
    assert Spawned([]) == [];
    assert [] + snapshot.combatants == snapshot.combatants;
  }

  /** Resuming keeps the freshly spawned combatants and puts the saved ones after them. */
  lemma ResumeAppendsToSpawned(selected: seq<Selection>, files: SessionFiles, snapshot: StaticSimulationState)
    ensures Started(selected, SaveSimulation(files, snapshot))
            == StaticSimulationState(Spawned(selected) + snapshot.combatants, snapshot.killedMonsters)
  {
  }

  /** As written, saving does not change what the next start finds. */
  lemma SaveAsWrittenIsNeverResumed(files: SessionFiles, snapshot: StaticSimulationState)
    ensures CheckForSimulation(SaveSimulationAsWritten(files, snapshot)) == CheckForSimulation(files)
    ensures Resumed(SaveSimulationAsWritten(files, snapshot)) == Resumed(files)
  {
  }

  /**
   * With no session file anywhere, a game saved as written with a live
   * goblin is not offered for resuming and resumes to an empty simulation.
   */
  lemma SaveAsWrittenLosesTheGame(goblin: Combatant)
    ensures var saved := SaveSimulationAsWritten(SessionFiles(None, None), StaticSimulationState([goblin], []));
            !CheckForSimulation(saved) && Started([], saved) == StaticSimulationState([], [])
  {
    assert Spawned([]) == [];
  }

  /**
   * While the console has room, a press of "Use" adds its header and one
   * line per repetition (a saving-throw attack one line); once it is full
   * the oldest lines make way.
   */
  lemma AttackConsoleLines(console: seq<string>, now: string, c: Combatant, attack: Attack, rolls: AttackRolls)
    requires WellFormed(console) && ValidAttackRolls(attack, rolls)
    requires NoNewline(now) && NoNewline(c.instanceName) && NoNewline(attack.attackName)
    ensures var added := if attack.savingThrow then 1 else 1 + Iterations(attack.numAttacks);
            var r := Trimmed(Insert(console, AttackText(now, c, attack, rolls)));
            |r| == if |console| + added <= MaxLines then |console| + added else MaxLines
  {
    AttackTextLineCount(now, c, attack, rolls);
    TrimmedInsertLength(console, AttackText(now, c, attack, rolls), if attack.savingThrow then 1 else 1 + Iterations(attack.numAttacks));
  }

  /** Likewise a save adds one line while there is room. */
  lemma SaveConsoleLines(console: seq<string>, now: string, c: Combatant, stat: string, d20: int)
    requires WellFormed(console)
    requires NoNewline(now) && NoNewline(c.instanceName) && NoNewline(stat)
    ensures var r := Trimmed(Insert(console, SaveMessage(now, c, stat, d20)));
            |r| == if |console| < MaxLines then |console| + 1 else MaxLines
  {
    SaveMessageIsOneLine(now, c, stat, d20);
    TrimmedInsertLength(console, SaveMessage(now, c, stat, d20), 1);
  }

  /** A simulation window. */
  class SimulationState {
    var combatants: seq<Combatant>
    var killedMonsters: seq<Combatant>
    /** The console's lines (see the Console module). */
    var console: seq<string>

    ghost predicate Valid()
      reads this
    {
      WellFormed(console) && |console| <= MaxLines
    }

    /** A window showing `combatants`, nobody killed, and the console greeting. */
    constructor (combatants: seq<Combatant>)
      ensures this.combatants == combatants && killedMonsters == []
      ensures console == [GreetingLine, ""]
      ensures Valid()
    {
      this.combatants := combatants;
      killedMonsters := [];
      GreetingLines();
      console := Insert(Empty, Greeting);
    }

    /** `make_static`: a copy of both lists. */
    function MakeStatic(): StaticSimulationState
      reads this
    {
      StaticSimulationState(combatants, killedMonsters)
    }

    /** `replace_with_static`: pushes the saved combatants and killed combatants onto the live lists. */
    method ReplaceWithStatic(snapshot: StaticSimulationState)
      modifies this
      ensures combatants == old(combatants) + snapshot.combatants
      ensures killedMonsters == old(killedMonsters) + snapshot.killedMonsters
      ensures console == old(console)
    {
      var i := 0;
      while i < |snapshot.combatants|
        invariant 0 <= i <= |snapshot.combatants|
        invariant combatants == old(combatants) + snapshot.combatants[..i]
        invariant killedMonsters == old(killedMonsters) && console == old(console)
      {
        combatants := combatants + [snapshot.combatants[i]];
        i := i + 1;
      }
      assert snapshot.combatants[..i] == snapshot.combatants;
      var k := 0;
      while k < |snapshot.killedMonsters|
        invariant 0 <= k <= |snapshot.killedMonsters|
        invariant killedMonsters == old(killedMonsters) + snapshot.killedMonsters[..k]
        invariant combatants == old(combatants) + snapshot.combatants && console == old(console)
      {
        killedMonsters := killedMonsters + [snapshot.killedMonsters[k]];
        k := k + 1;
      }
      assert snapshot.killedMonsters[..k] == snapshot.killedMonsters;
    }

    /** The Kill button of the card named `name`. */
    method Kill(name: string, busy: bool)
      modifies this
      ensures MakeStatic() == if busy then old(MakeStatic()) else AfterKill(old(MakeStatic()), name)
      ensures console == old(console)
    {
      if busy {
        return;
      }
      var pos := FirstIndex(combatants, name);
      if pos < |combatants| {
        var killed := combatants[pos];
        combatants := combatants[..pos] + combatants[pos + 1..];
        killedMonsters := killedMonsters + [killed];
      }
    }

    /** The HP spin button of the card named `name`, set to `hp`. */
    method SetHp(name: string, hp: int, busy: bool)
      modifies this
      ensures combatants == if busy then old(combatants) else WithHp(old(combatants), name, hp)
      ensures killedMonsters == old(killedMonsters) && console == old(console)
    {
      if busy {
        return;
      }
      var pos := FirstIndex(combatants, name);
      if pos < |combatants| {
        combatants := combatants[pos := combatants[pos].(currentHp := hp)];
      }
    }

    /** The console limit: drop the oldest lines beyond the last 50. */
    method TrimConsole()
      requires WellFormed(console)
      modifies this
      ensures console == Trimmed(old(console))
      ensures Valid()
      ensures combatants == old(combatants) && killedMonsters == old(killedMonsters)
    {
      TrimmedKeepsRecent(console);
      var lineCount := |console|;
      if lineCount > MaxLines {
        var linesToRemove := lineCount - MaxLines;
        console := console[linesToRemove..];
      }
    }

    /** The save button `stat` of the card of `c`, with the d20 rolled and the time `now`. */
    method RollSave(c: Combatant, stat: string, d20: int, now: string, busy: bool)
      requires Valid() && stat in SaveLabels
      modifies this
      ensures Valid()
      ensures console == if busy then old(console) else Trimmed(Insert(old(console), SaveMessage(now, c, stat, d20)))
      ensures combatants == old(combatants) && killedMonsters == old(killedMonsters)
    {
      if busy {
        return;
      }
      var modifier := SaveModifier(c.template, stat);
      var total := d20 + modifier;
      var message := now + ": " + c.instanceName + " rolled a " + stat + " Save: " + IntToString(d20)
                     + " (1d20) + " + IntToString(modifier) + " (Mod) = " + IntToString(total) + "\n";
      console := Insert(console, message);
      TrimConsole();
    }

    /** The "Use" button of `attack` on the card of `c`, with the generator's rolls. */
    method UseAttack(c: Combatant, attack: Attack, now: string, rolls: AttackRolls, busy: bool)
      requires Valid() && ValidAttackRolls(attack, rolls)
      modifies this
      ensures Valid()
      ensures console == if busy then old(console) else Trimmed(Insert(old(console), AttackText(now, c, attack, rolls)))
      ensures combatants == old(combatants) && killedMonsters == old(killedMonsters)
    {
      if busy {
        return;
      }
      if !attack.savingThrow {
        WriteAttackRoll(c, attack, now, rolls);
      } else {
        WriteSavingThrowAttack(c, attack, now, rolls);
      }
      TrimConsole();
    }

    /** What "Use" writes for an attack roll: its header, then one line per repetition. */
    method WriteAttackRoll(c: Combatant, attack: Attack, now: string, rolls: AttackRolls)
      requires WellFormed(console) && ValidAttackRolls(attack, rolls) && !attack.savingThrow
      modifies this
      ensures WellFormed(console)
      ensures console == Insert(old(console), AttackText(now, c, attack, rolls))
      ensures combatants == old(combatants) && killedMonsters == old(killedMonsters)
    {
      var header := now + ": " + c.instanceName + " started an attack using " + attack.attackName + " "
                    + IntToString(attack.numAttacks) + " times.\n";
      assert header == AttackHeader(now, c, attack);
      console := Insert(console, header);
      WriteSubAttacks(c, attack, rolls.subs);
      InsertInsert(old(console), header, SubAttackLines(c, attack, rolls.subs));
    }

    /** The loop of an attack roll: one line per repetition, each with its own rolls. */
    method WriteSubAttacks(c: Combatant, attack: Attack, subs: seq<SubAttackRolls>)
      requires WellFormed(console) && |subs| == Iterations(attack.numAttacks)
      requires forall i :: 0 <= i < |subs| ==>
                 ValidRolls(subs[i].damage, DamageDice(attack.numDice, subs[i].d20), DieSize(attack.diceUsed))
      modifies this
      ensures WellFormed(console)
      ensures console == Insert(old(console), SubAttackLines(c, attack, subs))
      ensures combatants == old(combatants) && killedMonsters == old(killedMonsters)
    {
      ghost var start := console;
      assert subs[..0] == [];
      var i := 0;
      while i < attack.numAttacks
        invariant 0 <= i <= |subs|
        invariant WellFormed(console)
        invariant console == Insert(start, SubAttackLines(c, attack, subs[..i]))
        invariant combatants == old(combatants) && killedMonsters == old(killedMonsters)
      {
        SubAttackLinesSnoc(c, attack, subs, i);
        InsertInsert(start, SubAttackLines(c, attack, subs[..i]), SubAttackLine(c, attack, i, subs[i]));
        WriteSubAttack(c, attack, i, subs[i]);
        i := i + 1;
      }
      assert subs[..i] == subs;
    }

    /** Repetition `i` of an attack roll: its line inserted. */
    method WriteSubAttack(c: Combatant, attack: Attack, i: int, roll: SubAttackRolls)
      requires WellFormed(console)
      requires ValidRolls(roll.damage, DamageDice(attack.numDice, roll.d20), DieSize(attack.diceUsed))
      modifies this
      ensures WellFormed(console)
      ensures console == Insert(old(console), SubAttackLine(c, attack, i, roll))
      ensures combatants == old(combatants) && killedMonsters == old(killedMonsters)
    {
      var line := AttackLine(c, attack, i, roll);
      console := Insert(console, line);
    }

    /** What "Use" writes for a saving-throw attack: the header and the damage on one line. */
    method WriteSavingThrowAttack(c: Combatant, attack: Attack, now: string, rolls: AttackRolls)
      requires WellFormed(console) && ValidAttackRolls(attack, rolls) && attack.savingThrow
      modifies this
      ensures WellFormed(console)
      ensures console == Insert(old(console), AttackText(now, c, attack, rolls))
      ensures combatants == old(combatants) && killedMonsters == old(killedMonsters)
    {
      var header := now + ": " + c.instanceName + " started an attack using " + attack.attackName;
      console := Insert(console, header);
      var totalDamage, damageOutput := CalculateDamage(attack.numDice, attack.diceUsed, 0, rolls.damage);
      var damageLine := "  Damage: " + damageOutput + "\n";
      assert damageLine == SavingThrowDamage(rolls.damage);
      InsertInsert(old(console), header, damageLine);
      console := Insert(console, damageLine);
    }

    /** The edit dialog's "Update": the live list reconciled with the new selection. */
    method UpdateSimulationView(selected: seq<Selection>)
      requires NonNegativeCounts(selected)
      modifies this
      ensures combatants == Reconciled(selected, old(combatants))
      ensures killedMonsters == old(killedMonsters) && console == old(console)
    {
      combatants := UpdateRoster(selected, combatants);
    }

    /** The total of the killed-monsters dialog. */
    method TotalXp() returns (totalXp: int)
      ensures totalXp == SumXp(killedMonsters)
    {
      totalXp := 0;
      var i := 0;
      while i < |killedMonsters|
        invariant 0 <= i <= |killedMonsters|
        invariant totalXp == SumXp(killedMonsters[..i])
      {
        assert killedMonsters[..i + 1][..i] == killedMonsters[..i];
        totalXp := totalXp + killedMonsters[i].template.exp;
        i := i + 1;
      }
      assert killedMonsters[..i] == killedMonsters;
    }

    /**
     * The "Save Simulation" button: the snapshot goes to the data directory,
     * which is not where the next start looks, so that start is the same as
     * without the save.
     */
    method Save(files: SessionFiles) returns (saved: SessionFiles)
      ensures saved == SaveSimulationAsWritten(files, MakeStatic())
      ensures saved.atBasePath == Some(Snapshot(MakeStatic())) && saved.besideExe == files.besideExe
      ensures Started([], saved) == Started([], files)
    {
      SaveAsWrittenIsNeverResumed(files, MakeStatic());
      saved := SaveSimulationAsWritten(files, MakeStatic());
    }
  }

  /** One repetition of an attack roll: the to-hit roll, the damage, and the console line. */
  method AttackLine(c: Combatant, attack: Attack, i: int, roll: SubAttackRolls) returns (line: string)
    requires ValidRolls(roll.damage, DamageDice(attack.numDice, roll.d20), DieSize(attack.diceUsed))
    ensures line == SubAttackLine(c, attack, i, roll)
  {
    var d20 := roll.d20;
    var abilityMod := AbilityMod(c.template, attack.abilityUsed);
    var numDice := if d20 == 20 then attack.numDice * 2 else attack.numDice;
    var totalDamage, damageOutput := CalculateDamage(numDice, attack.diceUsed, abilityMod, roll.damage);
    line := ToHitText(i, d20, abilityMod + c.template.pb) + "; Damage: " + damageOutput + "\n";
  }

  /**
   * `start_simulation_view`: spawns the selection, writes the greeting, and,
   * when a saved simulation is found, loads it, deletes its file and appends
   * it to the lists.
   */
  method StartSimulation(selected: seq<Selection>, files: SessionFiles)
    returns (sim: SimulationState, filesAfter: SessionFiles)
    requires Resumable(files)
    ensures fresh(sim) && sim.Valid()
    ensures sim.MakeStatic() == Started(selected, files)
    ensures sim.console == [GreetingLine, ""]
    ensures filesAfter == RemoveSimulationFile(files)
  {
    var combatants := SpawnCombatants(selected);
    sim := new SimulationState(combatants);
    filesAfter := files;
    if CheckForSimulation(filesAfter) {
      var staticSim := GetSimulation(filesAfter).value;
      filesAfter := RemoveSimulationFile(filesAfter);
      sim.ReplaceWithStatic(staticSim);
    }
  }
}
