/**
 * Combatant instances and the spawn loop of `start_simulation_view`
 * (src/simulation.rs:184-206): each `(template, count)` selection yields
 * `count` instances at full health, numbered from a counter per template name
 * that all selections share, and named with the bare template name when the
 * selection's count is 1.
 */
module Combatants {
  import opened Strings
  import opened MonsterManager

  /** One live instance of a template (`Combatant`). */
  datatype Combatant = Combatant(instanceName: string, template: Monster, currentHp: int, maxHp: int)

  /** One `(Monster, i32)` entry of a selection list. */
  datatype Selection = Selection(monster: Monster, count: int)

  /** The sort key used when reconciling (`instance_name`). */
  function InstanceKey(c: Combatant): string {
    c.instanceName
  }

  /** A newly created instance: its own snapshot of the template, at full health. */
  function NewCombatant(name: string, t: Monster): Combatant {
    Combatant(name, t, t.hp, t.hp)
  }

  /** How many times `for _ in 0..count` runs. */
  function Iterations(count: int): nat {
    if count > 0 then count else 0
  }

  /** The name of the instance with the given ordinal in a batch of `count`. */
  function SpawnName(name: string, count: int, ordinal: int): string {
    if count > 1 then Numbered(name, ordinal) else name
  }

  /** `name_counts.get(name)`, with 0 for a name not seen yet. */
  function CountOf(counts: map<string, int>, name: string): int {
    if name in counts then counts[name] else 0
  }

  /** The first `n` instances of a batch of `count`, numbered on from `before`. */
  function SpawnBatch(t: Monster, count: int, before: int, n: nat): (r: seq<Combatant>)
    ensures |r| == n
  {
    seq(n, k requires 0 <= k < n => NewCombatant(SpawnName(t.name, count, before + k + 1), t))
  }

  /** The instances spawned for `selected`, given the counters so far. */
  function SpawnFrom(selected: seq<Selection>, counts: map<string, int>): seq<Combatant> {
    if selected == [] then []
    else
      var s := selected[0];
      var before := CountOf(counts, s.monster.name);
      var n := Iterations(s.count);
      SpawnBatch(s.monster, s.count, before, n) + SpawnFrom(selected[1..], CountsAfter(counts, s))
  }

  /** The live list a fresh encounter starts with. */
  function Spawned(selected: seq<Selection>): seq<Combatant> {
    SpawnFrom(selected, map[])
  }

  /** The spawn loop of `start_simulation_view`. */
  method SpawnCombatants(selected: seq<Selection>) returns (combatants: seq<Combatant>)
    ensures combatants == Spawned(selected)
  {
    combatants := [];
    var nameCounts: map<string, int> := map[];
    var i := 0;
    while i < |selected|
      invariant 0 <= i <= |selected|
      invariant combatants + SpawnFrom(selected[i..], nameCounts) == Spawned(selected)
    {
      SpawnFromSuffix(selected, i, nameCounts);
      var batch;
      batch, nameCounts := SpawnOne(selected[i], nameCounts);
      combatants := combatants + batch;
      i := i + 1;
    }
  }

  /** The inner loop of the spawn loop: the instances of one selection. */
  method SpawnOne(selection: Selection, counts: map<string, int>)
    returns (batch: seq<Combatant>, nameCounts: map<string, int>)
    ensures batch == SpawnBatch(selection.monster, selection.count,
                                CountOf(counts, selection.monster.name), Iterations(selection.count))
    ensures nameCounts == CountsAfter(counts, selection)
  {
    var monster, count := selection.monster, selection.count;
    batch := [];
    nameCounts := counts;
    ghost var before := CountOf(counts, monster.name);
    var k := 0;
    while k < count
      invariant 0 <= k <= Iterations(count)
      invariant nameCounts == CountsAfter(counts, Selection(monster, k))
      invariant batch == SpawnBatch(monster, count, before, k)
    {
      var currentCount := CountOf(nameCounts, monster.name) + 1;
      nameCounts := nameCounts[monster.name := currentCount];
      var instanceName := if count > 1 then Numbered(monster.name, currentCount) else monster.name;
      SpawnBatchStep(monster, count, before, k);
      batch := batch + [Combatant(instanceName, monster, monster.hp, monster.hp)];
      k := k + 1;
    }
  }

  lemma SpawnBatchStep(t: Monster, count: int, before: int, k: nat)
    ensures SpawnBatch(t, count, before, k + 1)
         == SpawnBatch(t, count, before, k) + [NewCombatant(SpawnName(t.name, count, before + k + 1), t)]
  {
    var next := SpawnBatch(t, count, before, k + 1);
    assert next[..k] == SpawnBatch(t, count, before, k);
    assert next == next[..k] + [next[k]];
  }

  /** The number of instances a selection list asks for. */
  function TotalCount(selected: seq<Selection>): nat {
    if selected == [] then 0 else Iterations(selected[0].count) + TotalCount(selected[1..])
  }

  /** The number of instances the selections ask for of one template name. */
  function CountNamed(selected: seq<Selection>, name: string): nat {
    if selected == [] then 0
    else (if selected[0].monster.name == name then Iterations(selected[0].count) else 0)
         + CountNamed(selected[1..], name)
  }

  lemma {:induction false} SpawnFromLength(selected: seq<Selection>, counts: map<string, int>)
    ensures |SpawnFrom(selected, counts)| == TotalCount(selected)
  {
    if selected != [] {
      var s := selected[0];
      var n := Iterations(s.count);
      SpawnFromLength(selected[1..], CountsAfter(counts, s));
    }
  }

  /** A fresh live list holds exactly as many instances as were asked for. */
  lemma SpawnedLength(selected: seq<Selection>)
    ensures |Spawned(selected)| == TotalCount(selected)
  {
    SpawnFromLength(selected, map[]);
  }

  lemma PrefixSplit(selected: seq<Selection>, j: nat)
    requires 0 < j <= |selected|
    ensures selected[..j][1..] == selected[1..][..j - 1]
    ensures selected[..j][0] == selected[0]
  {
  }

  /** The counters after one selection's batch. */
  function CountsAfter(counts: map<string, int>, s: Selection): map<string, int> {
    var n := Iterations(s.count);
    if n > 0 then counts[s.monster.name := CountOf(counts, s.monster.name) + n] else counts
  }

  lemma CountOfAfter(counts: map<string, int>, s: Selection, name: string)
    ensures CountOf(CountsAfter(counts, s), name)
         == CountOf(counts, name) + (if s.monster.name == name then Iterations(s.count) else 0)
  {
  }

  lemma SpawnFromUnfold(selected: seq<Selection>, counts: map<string, int>)
    requires selected != []
    ensures var s := selected[0];
            SpawnFrom(selected, counts)
              == SpawnBatch(s.monster, s.count, CountOf(counts, s.monster.name), Iterations(s.count))
                 + SpawnFrom(selected[1..], CountsAfter(counts, s))
  {
  }

  lemma SpawnFromSuffix(selected: seq<Selection>, i: nat, counts: map<string, int>)
    requires i < |selected|
    ensures var s := selected[i];
            SpawnFrom(selected[i..], counts)
              == SpawnBatch(s.monster, s.count, CountOf(counts, s.monster.name), Iterations(s.count))
                 + SpawnFrom(selected[i + 1..], CountsAfter(counts, Selection(s.monster, Iterations(s.count))))
  {
    SpawnFromUnfold(selected[i..], counts);
    assert selected[i..][1..] == selected[i + 1..];
  }

  lemma SpawnFromAtFirst(selected: seq<Selection>, counts: map<string, int>, k: nat)
    requires 0 < |selected| && k < Iterations(selected[0].count)
    ensures k < |SpawnFrom(selected, counts)|
    ensures var s := selected[0];
            SpawnFrom(selected, counts)[k]
              == NewCombatant(SpawnName(s.monster.name, s.count, CountOf(counts, s.monster.name) + k + 1), s.monster)
  {
    var s0 := selected[0];
    var n := Iterations(s0.count);
    var batch := SpawnBatch(s0.monster, s0.count, CountOf(counts, s0.monster.name), n);
    var rest := SpawnFrom(selected[1..], CountsAfter(counts, s0));
    SpawnFromUnfold(selected, counts);
    assert (batch + rest)[k] == batch[k];
  }

  lemma {:induction false} SpawnFromAt(selected: seq<Selection>, counts: map<string, int>, j: nat, k: nat)
    requires j < |selected| && k < Iterations(selected[j].count)
    ensures TotalCount(selected[..j]) + k < |SpawnFrom(selected, counts)|
    ensures var s := selected[j];
            var ordinal := CountOf(counts, s.monster.name) + CountNamed(selected[..j], s.monster.name) + k + 1;
            SpawnFrom(selected, counts)[TotalCount(selected[..j]) + k]
              == NewCombatant(SpawnName(s.monster.name, s.count, ordinal), s.monster)
    decreases j, 1
  {
    if j == 0 {
      assert selected[..j] == [];
      assert TotalCount(selected[..j]) == 0 && CountNamed(selected[..j], selected[j].monster.name) == 0;
      SpawnFromAtFirst(selected, counts, k);
    } else {
      SpawnFromAtLater(selected, counts, j, k);
    }
  }

  /** A later selection's instances come after the first selection's batch, with its counter advanced. */
  lemma {:induction false} SpawnFromAtLater(selected: seq<Selection>, counts: map<string, int>, j: nat, k: nat)
    requires 0 < j < |selected| && k < Iterations(selected[j].count)
    ensures TotalCount(selected[..j]) + k < |SpawnFrom(selected, counts)|
    ensures var s := selected[j];
            var ordinal := CountOf(counts, s.monster.name) + CountNamed(selected[..j], s.monster.name) + k + 1;
            SpawnFrom(selected, counts)[TotalCount(selected[..j]) + k]
              == NewCombatant(SpawnName(s.monster.name, s.count, ordinal), s.monster)
    decreases j, 0
  {
    var s0, sj := selected[0], selected[j];
    var n := Iterations(s0.count);
    var counts' := CountsAfter(counts, s0);
    var tail := selected[1..];
    var rest := SpawnFrom(tail, counts');
    var name := sj.monster.name;
    SpawnFromUnfold(selected, counts);
    PrefixSplit(selected, j);
    assert tail[j - 1] == sj;
    SpawnFromAt(tail, counts', j - 1, k);
    var pos := TotalCount(tail[..j - 1]) + k;
    var p := TotalCount(selected[..j]) + k;
    assert p == n + pos;
    assert SpawnFrom(selected, counts)[p] == rest[pos];
    assert CountNamed(selected[..j], name)
        == (if s0.monster.name == name then n else 0) + CountNamed(tail[..j - 1], name);
    CountOfAfter(counts, s0, name);
    var ordinal := CountOf(counts', name) + CountNamed(tail[..j - 1], name) + k + 1;
    assert ordinal == CountOf(counts, name) + CountNamed(selected[..j], name) + k + 1;
    assert rest[pos] == NewCombatant(SpawnName(name, sj.count, ordinal), sj.monster);
  }

  /**
   * Where each spawned instance sits and what it is: the k-th instance of the
   * j-th selection follows the instances of the earlier selections, is a fresh
   * full-health copy of its template, and takes the next number of the
   * counter its template name shares with earlier selections.
   */
  lemma SpawnedAt(selected: seq<Selection>, j: nat, k: nat)
    requires j < |selected| && k < Iterations(selected[j].count)
    ensures TotalCount(selected[..j]) + k < |Spawned(selected)|
    ensures var s := selected[j];
            var c := Spawned(selected)[TotalCount(selected[..j]) + k];
            && c.instanceName == SpawnName(s.monster.name, s.count, CountNamed(selected[..j], s.monster.name) + k + 1)
            && c.template == s.monster
            && c.currentHp == c.maxHp == s.monster.hp
  {
    SpawnFromAt(selected, map[], j, k);
  }

  lemma {:induction false} CountNamedAbsent(selected: seq<Selection>, name: string)
    requires forall i :: 0 <= i < |selected| ==> selected[i].monster.name != name
    ensures CountNamed(selected, name) == 0
  {
    if selected != [] {
      CountNamedAbsent(selected[1..], name);
    }
  }

  /**
   * For a template no earlier selection names, a batch of `count > 1` is
   * named "<name> 1" ... "<name> count" in order, and a batch of one gets the
   * bare template name.
   */
  lemma SpawnedNames(selected: seq<Selection>, j: nat, k: nat)
    requires j < |selected| && k < Iterations(selected[j].count)
    requires forall i :: 0 <= i < j ==> selected[i].monster.name != selected[j].monster.name
    ensures TotalCount(selected[..j]) + k < |Spawned(selected)|
    ensures var s := selected[j];
            Spawned(selected)[TotalCount(selected[..j]) + k].instanceName
              == if s.count > 1 then Numbered(s.monster.name, k + 1) else s.monster.name
  {
    CountNamedAbsent(selected[..j], selected[j].monster.name);
    SpawnedAt(selected, j, k);
  }
}
