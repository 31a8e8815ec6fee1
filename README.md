# Mass-combat roster engine, modelled in Dafny

This project models the combat roster engine of a tabletop game master's tool. It proves properties of that model.

The engine covers:

- spawning live combatant instances from monster templates;
- killing instances and editing their HP;
- reconciling the live roster with a new desired composition;
- resolving attacks and saving throws with dice;
- a console limited to its last 50 lines;
- saving a session, and resuming a session file found beside the executable once.

It also models the template store that these rely on: one JSON file per monster, here a map from file stem to file content.

Modules, one per concern of the source:

- `Wrappers`, `Strings`, `Sorting`: shared definitions.
  - `Option`.
  - Rust's `i32` formatting and parsing.
  - `split(' ').last()`.
  - `String` ordering and `join`.
  - A sort by string key, specified as a sorted permutation.
- `MonsterManager`: `Monster` and `Attack`, plus the class `MonsterStore` whose `files` map is the Monsters directory.
- `Combatants`: `Combatant`, `Selection` and the spawn loop of `start_simulation_view`.
- `Reconciliation` and `ReconciliationProperties`: `update_simulation_view`.
  - The method `UpdateRoster` and its loops are proved equal to the function `Reconciled`.
  - The lemmas describe `Reconciled` position by position and template by template.
- `Dice`: `calculate_damage`.
- `Console`: the GTK text buffer as its lines, with insertion and the 50-line trim.
- `Resolution`: `get_ability_mod`, save modifiers, DC, to-hit, critical hits, and the exact text each button writes.
- `Simulation`: the mutable `SimulationState` class (live list, killed list, console) with one method per button, plus the session file.

The random number generator and the clock are inputs. A roll is any value in its range, and `now` is the formatted time. A failed `try_borrow_mut` is the `busy` parameter, and in that case the button does nothing.

Behaviour of the code worth knowing:

- **The console keeps the 49 most recent lines.**
  - The trim is on GTK's `line_count`, which counts the empty line after the final newline, so 50 lines are 49 lines of text and that empty line.
  - The trim counts lines, not messages. An attack roll writes a header line plus one line per repetition, so a long attack can lose its header while its repetition lines stay.
  - A saving-throw attack writes its header and its damage on one line.
  - See `Console.TrimmedKeepsRecent`, `Simulation.AttackConsoleLines` and `Console.InsertEndingInNewline`.
- **A corrupt session file panics.**
  - `get_simulation().unwrap()` runs whenever the file exists, so a file that does not parse panics instead of being treated as "no session".
  - `StartSimulation` therefore requires `Resumable(files)`.
- **The session file has two locations.** Saving writes to a different directory from the one loading reads; see Findings.
- **A selection of count 1 always gets the bare template name.**
  - This holds even when an earlier selection of the same template was numbered.
  - The counter is shared across selections of the same name.
  - A template selected twice finds no live entries the second time, because the first occurrence removed its group.
- **New ordinals are not global.** A new instance's ordinal is one past the highest among same-template entries already placed in the new list. It is not the highest among all live instances.
- **Sorting compares code point by code point**, as `String::cmp` does.

## Model

| member | source | states |
|---|---|---|
| Strings.ParseIntToString | src/simulation.rs:590 | formatting an i32 and parsing it back gives the same number |
| Strings.LastWord | src/simulation.rs:589 | the last word is a suffix without spaces, preceded by a space unless it is the whole string |
| Strings.LastWordAfterSpace | src/simulation.rs:589 | the last word of `p + " " + w` is `w` when `w` has no space |
| Strings.NumberedOrdinal | src/simulation.rs:598-602 | the last word of `"<name> <n>"` parses back to `n` |
| Strings.LexLeTotal | src/simulation.rs:570 | the instance-name order is total |
| Strings.LexLeTransitive | src/simulation.rs:570 | the instance-name order is transitive |
| Strings.LexLeAfterCommonPrefix | src/simulation.rs:570 | strings that first differ at one character compare as that character does |
| Sorting.SortByIsSortedPermutation | src/monster_manager.rs:134 | the sort returns a permutation of its input, in ascending key order |
| Sorting.SortBySortedIsIdentity | src/simulation.rs:570 | sorting an already sorted list changes nothing |
| MonsterManager.RetainAttacks | src/monster_manager.rs:164 | exactly the attacks with a different name are kept, and the list never grows |
| MonsterManager.RetainAttacksKeepsOrder | src/monster_manager.rs:164 | retention works piecewise, so the kept attacks stay in order |
| MonsterManager.RetainAttacksShrinks | src/monster_manager.rs:162-171 | the list shrinks exactly when some attack has the name |
| MonsterManager.RetainAttacksNoMatch | src/monster_manager.rs:164-171 | with no attack of that name the list is unchanged |
| MonsterManager.MonsterStore.constructor | src/monster_manager.rs:115-120 | the store is the given directory |
| MonsterManager.MonsterStore.ReadMonster | src/monster_manager.rs:87-112 | Some exactly when `<name>.json` exists and parses, and then its template |
| MonsterManager.MonsterStore.SaveMonster | src/monster_manager.rs:67-84 | `<monster.name>.json` now holds the monster; every other name reads as before |
| MonsterManager.MonsterStore.ReadAllMonsters | src/monster_manager.rs:115-135 | every parsable file once, in some listing order, as a permutation sorted by name |
| MonsterManager.MonsterStore.DeleteMonster | src/monster_manager.rs:139-146 | removes exactly that entry; NotFound when it was missing |
| MonsterManager.MonsterStore.AddAttackToMonster | src/monster_manager.rs:149-156 | saves the template with the attack appended; NotFound with nothing written when it is missing |
| MonsterManager.MonsterStore.DeleteAttackFromMonster | src/monster_manager.rs:159-172 | saves the template with that name's attacks retained away; NotFound with nothing written when the template is missing or nothing matched |
| Combatants.SpawnCombatants | src/simulation.rs:184-206 | the spawn loop builds exactly `Spawned(selected)` |
| Combatants.SpawnOne | src/simulation.rs:188-205 | one selection's batch, and the counter advanced by its count |
| Combatants.SpawnedLength | src/simulation.rs:188-206 | the live list holds the sum of the counts |
| Combatants.SpawnedAt | src/simulation.rs:188-206 | the k-th instance of the j-th selection follows those of earlier selections; it has the next number of its name's shared counter, the bare name for count 1, its template, and full HP |
| Combatants.SpawnedNames | src/simulation.rs:194-198 | for a template not selected earlier, a batch of count > 1 is named "<name> 1" … "<name> count" in order, and a batch of one gets the bare name |
| Combatants.CountOfAfter | src/simulation.rs:190-191 | a batch advances only its own name's counter, by its count |
| Reconciliation.GroupedIsOfTemplate | src/simulation.rs:557-560 | each group holds exactly that template's live entries, in their order |
| Reconciliation.GroupedWellKeyed | src/simulation.rs:557-560 | every entry of a group has the group's template name |
| Reconciliation.GroupByTemplate | src/simulation.rs:555-560 | the drain loop builds exactly `Grouped(current)` |
| Reconciliation.HighestOrdinalIsUpperBound | src/simulation.rs:586-597 | the running maximum is at least 0 and at least every parsed suffix of a same-template entry |
| Reconciliation.HighestOrdinalIsAttained | src/simulation.rs:586-597 | the running maximum is 0 or the suffix of some same-template entry |
| Reconciliation.NewNameIsFresh | src/simulation.rs:598-604 | a numbered new name differs from every same-template name already placed |
| Reconciliation.HighestNumber | src/simulation.rs:586-597 | the scan loop computes `HighestOrdinal` |
| Reconciliation.NewInstance | src/simulation.rs:584-612 | a new instance is a full-HP copy of the template, named as `NewName` says |
| Reconciliation.KeepOrCreate | src/simulation.rs:572-613 | the inner loop keeps existing entries in order while they last, then creates new ones |
| Reconciliation.UpdateRoster | src/simulation.rs:553-616 | the whole algorithm computes `Reconciled(selected, current)` |
| ReconciliationProperties.FillShape | src/simulation.rs:578-613 | filling adds exactly the desired number of entries after those already placed |
| ReconciliationProperties.RebuildShape | src/simulation.rs:563-614 | the new list has one entry per desired instance, with templates in desired-list order |
| ReconciliationProperties.ReconciledAt | src/simulation.rs:563-613 | entry k of desired entry j is the k-th live entry of that template (sorted by name, none on a repeated template), unchanged, while they last; otherwise a fresh full-HP instance, named bare for count 1 and otherwise one past the highest ordinal before it |
| ReconciliationProperties.ReconciledKept | src/simulation.rs:563-583 | while the taken live entries last, desired entry j places them unchanged and in sorted order after the earlier desired entries |
| ReconciliationProperties.ReconciledCreated | src/simulation.rs:584-613 | past the taken entries, desired entry j places a new full-HP instance named from the entries already placed |
| ReconciliationProperties.PositionOf | src/simulation.rs:563-613 | every position of the new list belongs to one desired entry |
| ReconciliationProperties.ReconciledMembers | src/simulation.rs:563-613 | every entry is of a desired template, and is either a live entry of that template or a fresh full-HP instance of it; templates no longer desired are gone |
| ReconciliationProperties.ReconciledCount | src/simulation.rs:563-616 | for every template name the new list holds exactly the desired count, so surplus entries are dropped |
| ReconciliationProperties.ReconciledIdempotent | src/simulation.rs:553-617 | reconciling with the composition the roster already has (distinct templates, each asking for its live count, every live template desired) gives back exactly the live entries, HP included, as a multiset |
| Dice.TrimLeadingD | src/simulation.rs:634 | strips exactly the leading 'd's: the result is a suffix that does not start with 'd', and everything removed was a 'd' |
| Dice.DieSizeOfNotation | src/simulation.rs:633-635 | "dN" is an N-sided die |
| Dice.DieSizeFallback | src/simulation.rs:635 | an unreadable size is a one-sided die |
| Dice.CalculateDamage | src/simulation.rs:632-663 | the total is the sum of the rolls plus the modifier, and the text is `DamageText` |
| Dice.RollDice | src/simulation.rs:640-646 | the roll loop sums the rolls and lists each one as text, in order |
| Dice.DamageBounds | src/simulation.rs:640-645 | damage lies between one and the die size per die, plus the modifier |
| Dice.DamageTextWithModifier | src/simulation.rs:647-660 | example only: rolls 4 and 5 with modifier 3 read "4 + 5 + 3 = 12" |
| Dice.DamageTextWithoutModifier | src/simulation.rs:651-653 | example only: a roll of 6 with a zero modifier reads "6 = 6" |
| Dice.DamageTextWithoutDice | src/simulation.rs:651-660 | example only: with no dice the zero modifier is shown, "0 = 0" |
| Console.Insert | src/simulation.rs:809 | inserting keeps the buffer well formed |
| Console.InsertText | src/simulation.rs:809 | inserting appends exactly the inserted text to the buffer's text |
| Console.InsertInsert | src/simulation.rs:891-923 | two inserts in a row are one insert of both texts |
| Console.InsertLineCount | src/simulation.rs:811 | the line count grows by the number of newlines inserted |
| Console.InsertEndingInNewline | src/simulation.rs:800-809 | after a message ending in a newline, the last line is empty |
| Console.TrimmedKeepsRecent | src/simulation.rs:811-817 | at most 50 lines are kept; they are the most recent ones in order, and nothing is cut below 51 |
| Console.TrimmedTextIsSuffix | src/simulation.rs:929-935 | the text kept is the end of the text before |
| Console.JoinSplit | src/simulation.rs:811-817 | the buffer's text is the text of its first lines, a newline, and the text of the rest |
| Console.TrimmedInsertLength | src/simulation.rs:809-817 | a message with n newlines lengthens the console by n lines, up to the 50 kept |
| Console.GreetingLines | src/simulation.rs:245-247 | the new console is the greeting line and an empty line |
| Resolution.AbilityModOfKey | src/simulation.rs:1019-1029 | "str" … "cha" select their own modifier, and any other key gives 0 |
| Resolution.SaveModifierOfLabel | src/simulation.rs:786-794 | each save button, lower-cased, adds its own ability's modifier |
| Resolution.AbilityModIsCaseSensitive | src/simulation.rs:1020-1027 | an attack keyed "Str" … "Cha" adds no modifier |
| Resolution.CriticalDamageBounds | src/simulation.rs:902-909 | a natural 20 rolls twice the dice: between 2 and 2 × size per die, plus the modifier |
| Resolution.DamageTextHasNoNewline | src/simulation.rs:647-660 | the damage formula fits on one line |
| Resolution.SaveMessageIsOneLine | src/simulation.rs:800-808 | a save writes exactly one line |
| Resolution.SubAttackLineIsOneLine | src/simulation.rs:911-912 | each repetition of an attack writes exactly one line |
| Resolution.SubAttackLinesCount | src/simulation.rs:894-913 | the repetitions write one line each |
| Resolution.AttackHeaderIsOneLine | src/simulation.rs:891-892 | the attack header is one line |
| Resolution.SavingThrowIsOneLine | src/simulation.rs:915-923 | the header and damage of a saving-throw attack share one line |
| Resolution.AttackTextLineCount | src/simulation.rs:890-924 | an attack roll writes 1 + repetitions lines; a saving-throw attack writes 1 |
| Simulation.FirstIndex | src/simulation.rs:709 | the index of the first entry with that name, or the length when there is none |
| Simulation.SumXpAppend | src/simulation.rs:414-417 | the XP of two lists adds up |
| Simulation.KillKeepsEveryone | src/simulation.rs:706-716 | live plus killed is the same multiset before and after a kill |
| Simulation.KillMovesFirstMatch | src/simulation.rs:708-713 | the first live entry of that name moves, unchanged, to the end of the killed list, the others keep their order; with no such entry nothing changes |
| Simulation.KillAddsXp | src/simulation.rs:396-418 | the total XP grows by exactly the killed entry's experience |
| Simulation.WithHpChangesOnlyFirstMatch | src/simulation.rs:740-745 | only the first entry of that name changes, and only its current HP |
| Simulation.RemoveSimulationFileRemoves | src/simulation.rs:997-1007 | after removal nothing is found or resumed; the data directory is untouched |
| Simulation.SaveThenResume | src/simulation.rs:275-279 | a session saved where the loaders read (the corrected save) is found and resumed to itself by the empty selection of the continue button, and only once |
| Simulation.ResumeAppendsToSpawned | src/simulation.rs:53-65 | a resume appends the saved lists after the spawned combatants |
| Simulation.SaveAsWrittenIsNeverResumed | src/simulation.rs:954-968 | as written, saving leaves what the next start finds unchanged |
| Simulation.SaveAsWrittenLosesTheGame | src/simulation.rs:954-968 | with no session file anywhere, a game saved as written is neither offered nor resumed |
| Simulation.AttackConsoleLines | src/simulation.rs:926-935 | an attack adds its line count to the console while there is room, and the console is full at 50 otherwise |
| Simulation.SaveConsoleLines | src/simulation.rs:809-817 | a save adds one line while there is room, and the console is full at 50 otherwise |
| Simulation.SimulationState.constructor | src/simulation.rs:245-270 | the window starts with the spawned list, nobody killed, and the greeting |
| Simulation.SimulationState.ReplaceWithStatic | src/simulation.rs:53-65 | both saved lists, in order, are pushed onto the live lists |
| Simulation.SimulationState.Kill | src/simulation.rs:706-716 | the lists become `AfterKill` of the lists before, or stay unchanged when busy |
| Simulation.SimulationState.SetHp | src/simulation.rs:740-745 | the live list becomes `WithHp` of the list before, or stays unchanged when busy |
| Simulation.SimulationState.TrimConsole | src/simulation.rs:929-935 | the console becomes its last 50 lines |
| Simulation.SimulationState.RollSave | src/simulation.rs:783-817 | the console gets the save message and is trimmed, and the lists are unchanged |
| Simulation.SimulationState.UseAttack | src/simulation.rs:882-936 | the console gets the attack's whole text once and is trimmed, and the lists are unchanged |
| Simulation.SimulationState.WriteAttackRoll | src/simulation.rs:890-913 | the header, then one line per repetition, are inserted |
| Simulation.SimulationState.WriteSubAttacks | src/simulation.rs:894-913 | the repetition loop inserts one line per repetition, in order, and nothing else changes |
| Simulation.SimulationState.WriteSubAttack | src/simulation.rs:895-912 | one repetition inserts exactly its to-hit and damage line |
| Simulation.SimulationState.WriteSavingThrowAttack | src/simulation.rs:914-923 | the header and the unmodified damage are inserted |
| Simulation.SimulationState.UpdateSimulationView | src/simulation.rs:553-608 | the live list is reconciled; the killed list and console are untouched |
| Simulation.SimulationState.TotalXp | src/simulation.rs:396-418 | the loop adds up the experience of the killed list |
| Simulation.SimulationState.Save | src/simulation.rs:954-968 | the data-directory file holds `make_static` of the window and the file beside the executable is untouched, so the next start is the same as without the save |
| Simulation.AttackLine | src/simulation.rs:894-912 | one repetition: to-hit and damage with doubled dice on a natural 20, as its line |
| Simulation.StartSimulation | src/simulation.rs:184-279 | a new window holds the spawned list, then any saved session with its file deleted, and the greeting |

## Left out

- User interface: GTK windows, dialogs and cards; FlowBox rebuilding; card removal; scrolling; and every label.
  - This includes the card's attack summary. Its DC comes from `SaveDc`.
  - It includes the "Total XP" and "No monsters have been killed yet." labels.
  - The setup and edit dialogs are left out too. They pass on only positive counts, which is why `NonNegativeCounts` is required.
- The random number generator: rolls are inputs within their ranges. For dice of size below 1, Rust panics on an empty range, and no valid rolls exist.
- The clock: `now` is a string input.
- `Rc<RefCell>` sharing: a failed `try_borrow_mut` is the `busy` flag.
  - The plain `borrow_mut` of the killed list inside Kill could panic. That case is not modelled.
- Console.Insert: only `'\n'` ends a line. GTK's `line_count` also breaks at `'\r'`, `"\r\n"` and U+2029, so a name or time holding one of those is counted differently.
- JSON (de)serialisation is taken as exact, so a file holds a value or is unparsable.
- File-system errors are not modelled:
  - `get_base_path` failing;
  - `create_dir`, `File::create` or `write_all` failing (the callers discard `save_simulation`'s result);
  - a directory listing that cannot be read.
- `check_for_monsters` and `get_base_path` are not modelled.
- The session file's two locations are kept separate. When the executable lives in the data directory they are the same file and the save is found; that coincident case is not modelled.
- Combatants.SpawnCombatants: does not model i32 overflow of the per-name counter.
- Reconciliation.NewInstance: does not model i32 overflow of `max_number + 1`.
- Dice.CalculateDamage: does not model i32 overflow of the total; rolls and totals are unbounded integers.
- Simulation.AttackLine: does not model i32 overflow of `num_dice * 2` or of the to-hit sum.
- Simulation.SimulationState.TotalXp: does not model i32 overflow of the running total.
- Simulation.SimulationState.RollSave: requires `stat` to be one of the six button labels, the only values the card passes. `to_lowercase` is Unicode; the model lowers ASCII letters only.
- Simulation.SimulationState.SetHp: the spin button limits HP to 0..9999 and casts from `f64`; the model takes any integer the widget sends.
- Reconciliation.UpdateRoster: requires non-negative counts. A negative `i32` cast to `usize` would loop for about 2^64 iterations; the edit dialog never passes one.
- Simulation.StartSimulation: requires that an existing session file also parses, because `get_simulation().unwrap()` panics otherwise.
- MonsterManager.MonsterStore.ReadAllMonsters: the directory's listing order is left open (the ghost `stems`). Unreadable entries and files without the `.json` extension are not in the map.
- Sorting.SortByIsSortedPermutation: proves a sorted permutation. It does not state that the sort is stable as Rust's `sort_by` is. `SortBy` inserts each element before equal keys that came after it, so it keeps their order, but no lemma states this.

## Findings

| source | as written | input that shows it | evidently intended | confidence | as-written member | corrected member |
|---|---|---|---|---|---|---|
| src/simulation.rs:954-968 | `save_simulation` writes `active_simulation.json` under `get_base_path()`. `check_for_simulation`, `get_simulation` and `remove_simulation_file` look next to the executable (lines 974-976, 1001-1003, 1010-1012). | No session file anywhere, one live goblin, then "Save Simulation": `check_for_simulation()` stays false, no continue button appears, and a start resumes nothing. | Saving writes where resuming reads, so the saved encounter is resumed once. | not executed | Simulation.SaveAsWrittenLosesTheGame | Simulation.SaveThenResume |
