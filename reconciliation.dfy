/**
 * `update_simulation_view` (src/simulation.rs:553-617): the live list is
 * drained into groups by template name; then, for each desired
 * `(template, count)` in order, that template's group is taken out of the
 * map, sorted by instance name, and its first entries are kept until the
 * count is reached or the group runs out; every further instance is created
 * at full health and numbered one past the highest numeric last word among
 * the same-template entries already in the new list.
 */
module Reconciliation {
  import opened Wrappers
  import opened Strings
  import opened Sorting
  import opened MonsterManager
  import opened Combatants

  /** The entries of `s` whose template has the given name, in order. */
  function OfTemplate(s: seq<Combatant>, name: string): seq<Combatant> {
    if s == [] then []
    else OfTemplate(s[..|s| - 1], name) + (if s[|s| - 1].template.name == name then [s[|s| - 1]] else [])
  }

  /** `map.remove(name).unwrap_or_else(Vec::new)`, read side. */
  function Lookup(groups: map<string, seq<Combatant>>, name: string): seq<Combatant> {
    if name in groups then groups[name] else []
  }

  /** `existing_combatants_map` after draining `s` into it. */
  function Grouped(s: seq<Combatant>): map<string, seq<Combatant>> {
    if s == [] then map[]
    else
      var groups := Grouped(s[..|s| - 1]);
      var c := s[|s| - 1];
      groups[c.template.name := Lookup(groups, c.template.name) + [c]]
  }

  /** Every group holds only entries of the template it is filed under. */
  ghost predicate WellKeyed(groups: map<string, seq<Combatant>>) {
    forall name, c :: name in groups && c in groups[name] ==> c.template.name == name
  }

  /** Each group is the live list's entries of that template, in live-list order. */
  lemma {:induction false} GroupedIsOfTemplate(s: seq<Combatant>, name: string)
    ensures Lookup(Grouped(s), name) == OfTemplate(s, name)
  {
    if s != [] {
      GroupedIsOfTemplate(s[..|s| - 1], name);
    }
  }

  lemma {:induction false} GroupedWellKeyed(s: seq<Combatant>)
    ensures WellKeyed(Grouped(s))
  {
    if s != [] {
      GroupedWellKeyed(s[..|s| - 1]);
    }
  }

  /** `instance_name.split(' ').last()` parsed as an `i32`. */
  function SuffixNumber(c: Combatant): Option<int> {
    ParseI32(LastWord(c.instanceName))
  }

  /**
   * `max_number` after the scan of the new list: the largest suffix number
   * above 0 among its entries of the given template, or 0.
   */
  function HighestOrdinal(list: seq<Combatant>, name: string): int {
    if list == [] then 0
    else
      var m := HighestOrdinal(list[..|list| - 1], name);
      var c := list[|list| - 1];
      if c.template.name == name && SuffixNumber(c).Some? && SuffixNumber(c).value > m
      then SuffixNumber(c).value
      else m
  }

  lemma {:induction false} HighestOrdinalIsNonNegative(list: seq<Combatant>, name: string)
    ensures 0 <= HighestOrdinal(list, name)
  {
    if list != [] {
      HighestOrdinalIsNonNegative(list[..|list| - 1], name);
    }
  }

  lemma {:induction false} HighestOrdinalBoundsEntry(list: seq<Combatant>, name: string, i: nat)
    requires i < |list| && list[i].template.name == name && SuffixNumber(list[i]).Some?
    ensures SuffixNumber(list[i]).value <= HighestOrdinal(list, name)
  {
    HighestOrdinalStep(list, name);
    if i < |list| - 1 {
      var init := list[..|list| - 1];
      assert list[i] == init[i];
      HighestOrdinalBoundsEntry(init, name, i);
    }
  }

  /** One step of the scan never lowers the maximum and reaches the entry it looks at. */
  lemma HighestOrdinalStep(list: seq<Combatant>, name: string)
    requires list != []
    ensures var m := HighestOrdinal(list, name);
            var c := list[|list| - 1];
            && HighestOrdinal(list[..|list| - 1], name) <= m
            && (c.template.name == name && SuffixNumber(c).Some? ==> SuffixNumber(c).value <= m)
  {
  }

  /** The highest ordinal is at least 0 and at least every suffix number of a same-template entry. */
  lemma HighestOrdinalIsUpperBound(list: seq<Combatant>, name: string)
    ensures 0 <= HighestOrdinal(list, name)
    ensures forall i :: 0 <= i < |list| && list[i].template.name == name && SuffixNumber(list[i]).Some?
              ==> SuffixNumber(list[i]).value <= HighestOrdinal(list, name)
  {
    HighestOrdinalIsNonNegative(list, name);
    forall i | 0 <= i < |list| && list[i].template.name == name && SuffixNumber(list[i]).Some?
      ensures SuffixNumber(list[i]).value <= HighestOrdinal(list, name)
    {
      HighestOrdinalBoundsEntry(list, name, i);
    }
  }

  /** The highest ordinal is 0 or the suffix number of some same-template entry. */
  lemma {:induction false} HighestOrdinalIsAttained(list: seq<Combatant>, name: string)
    ensures HighestOrdinal(list, name) == 0
            || exists i :: 0 <= i < |list| && list[i].template.name == name
                           && SuffixNumber(list[i]) == Some(HighestOrdinal(list, name))
  {
    if list != [] {
      var init := list[..|list| - 1];
      HighestOrdinalIsAttained(init, name);
      var m := HighestOrdinal(init, name);
      if HighestOrdinal(list, name) == m && m != 0 {
        var i :| 0 <= i < |init| && init[i].template.name == name && SuffixNumber(init[i]) == Some(m);
        assert list[i] == init[i];
      }
    }
  }

  /** The name of a newly created instance, given the new list built so far. */
  function NewName(t: Monster, desired: int, built: seq<Combatant>): string {
    if desired > 1 then Numbered(t.name, HighestOrdinal(built, t.name) + 1) else t.name
  }

  /**
   * A created name never repeats the name of a same-template entry already in
   * the new list (as long as its ordinal fits in an `i32`).
   */
  lemma NewNameIsFresh(t: Monster, desired: int, built: seq<Combatant>)
    requires desired > 1 && HighestOrdinal(built, t.name) < I32Max
    ensures forall i :: 0 <= i < |built| && built[i].template.name == t.name
              ==> built[i].instanceName != NewName(t, desired, built)
  {
    var m := HighestOrdinal(built, t.name);
    var created := Numbered(t.name, m + 1);
    assert NewName(t, desired, built) == created;
    HighestOrdinalIsUpperBound(built, t.name);
    NumberedOrdinal(t.name, m + 1);
    forall i | 0 <= i < |built| && built[i].template.name == t.name
      ensures built[i].instanceName != created
    {
      assert SuffixNumber(built[i]) != Some(m + 1);
    }
  }

  /** How a desired template makes a new instance from the new list built so far. */
  function Creator(t: Monster, desired: int): seq<Combatant> -> Combatant {
    built => NewCombatant(NewName(t, desired, built), t)
  }

  /**
   * The inner loop for one desired template: `n` more instances appended to
   * `built`, taken from the front of `existing` while any remain, then made
   * by `create`.
   */
  function Fill(create: seq<Combatant> -> Combatant, existing: seq<Combatant>, built: seq<Combatant>, n: nat): seq<Combatant>
    decreases n
  {
    if n == 0 then built
    else if existing != [] then Fill(create, existing[1..], built + [existing[0]], n - 1)
    else Fill(create, [], built + [create(built)], n - 1)
  }

  /** How the outer loop orders a group it takes out of the map. */
  function ByInstanceName(group: seq<Combatant>): seq<Combatant> {
    SortBy(group, InstanceKey)
  }

  /**
   * The outer loop over the remaining desired entries, with the groups not
   * taken yet, given how it orders a taken group and how it makes new
   * instances.
   */
  function RebuildWith(order: seq<Combatant> -> seq<Combatant>, make: (Monster, int) -> seq<Combatant> -> Combatant,
                       selected: seq<Selection>, groups: map<string, seq<Combatant>>, built: seq<Combatant>): seq<Combatant>
  {
    if selected == [] then built
    else
      var s := selected[0];
      RebuildWith(order, make, selected[1..], groups - {s.monster.name},
                  Fill(make(s.monster, s.count), order(Lookup(groups, s.monster.name)), built, Iterations(s.count)))
  }

  /** The outer loop of `update_simulation_view`. */
  function Rebuild(selected: seq<Selection>, groups: map<string, seq<Combatant>>, built: seq<Combatant>): seq<Combatant> {
    RebuildWith(ByInstanceName, Creator, selected, groups, built)
  }

  /** The live list after reconciling `current` with the desired list `selected`. */
  function Reconciled(selected: seq<Selection>, current: seq<Combatant>): seq<Combatant> {
    Rebuild(selected, Grouped(current), [])
  }

  /** Counts are spin-button values the dialog passes on only when positive. */
  predicate NonNegativeCounts(selected: seq<Selection>) {
    forall i :: 0 <= i < |selected| ==> selected[i].count >= 0
  }

  /** `update_simulation_view`, on the live list. */
  method UpdateRoster(selected: seq<Selection>, current: seq<Combatant>) returns (roster: seq<Combatant>)
    requires NonNegativeCounts(selected)
    ensures roster == Reconciled(selected, current)
  {
    var groups := GroupByTemplate(current);
    roster := [];
    var j := 0;
    while j < |selected|
      invariant 0 <= j <= |selected|
      invariant Rebuild(selected[j..], groups, roster) == Reconciled(selected, current)
    {
      var template, desiredCount := selected[j].monster, selected[j].count;
      RebuildStep(selected[j..], groups, roster);
      assert selected[j..][1..] == selected[j + 1..];
      var existingOfType := Lookup(groups, template.name);
      groups := groups - {template.name};
      existingOfType := SortBy(existingOfType, InstanceKey);
      roster := KeepOrCreate(template, desiredCount, existingOfType, roster);
      j := j + 1;
    }
  }

  /** One turn of the outer loop. */
  lemma RebuildStep(selected: seq<Selection>, groups: map<string, seq<Combatant>>, built: seq<Combatant>)
    requires selected != []
    ensures var s := selected[0];
            Rebuild(selected, groups, built)
              == Rebuild(selected[1..], groups - {s.monster.name},
                         Fill(Creator(s.monster, s.count), SortBy(Lookup(groups, s.monster.name), InstanceKey),
                              built, Iterations(s.count)))
  {
  }

  /** The drain of the live list into `existing_combatants_map`. */
  method GroupByTemplate(current: seq<Combatant>) returns (groups: map<string, seq<Combatant>>)
    ensures groups == Grouped(current)
  {
    groups := map[];
    var i := 0;
    while i < |current|
      invariant 0 <= i <= |current|
      invariant groups == Grouped(current[..i])
    {
      var c := current[i];
      assert current[..i + 1][..i] == current[..i];
      groups := groups[c.template.name := Lookup(groups, c.template.name) + [c]];
      i := i + 1;
    }
    assert current[..|current|] == current;
  }

  /** The `for _ in 0..num_needed` loop for one desired template. */
  method KeepOrCreate(template: Monster, desiredCount: int, existing: seq<Combatant>, built: seq<Combatant>)
    returns (list: seq<Combatant>)
    requires desiredCount >= 0
    ensures list == Fill(Creator(template, desiredCount), existing, built, desiredCount)
  {
    var rest := existing;
    var numExisting := |existing|;
    var existingCounter := 0;
    list := built;
    ghost var create := Creator(template, desiredCount);
    var k := 0;
    while k < desiredCount
      invariant 0 <= k <= desiredCount
      invariant 0 <= existingCounter <= numExisting
      invariant |rest| == numExisting - existingCounter
      invariant Fill(create, rest, list, desiredCount - k) == Fill(create, existing, built, desiredCount)
    {
      if existingCounter < numExisting {
        var keep := rest[0];
        rest := rest[1..];
        list := list + [keep];
        existingCounter := existingCounter + 1;
      } else {
        var created := NewInstance(template, desiredCount, list);
        list := list + [created];
      }
      k := k + 1;
    }
  }

  /** The `else` branch: a new full-health instance, numbered after the new list so far. */
  method NewInstance(template: Monster, desiredCount: int, list: seq<Combatant>) returns (created: Combatant)
    ensures created == Creator(template, desiredCount)(list)
  {
    var maxNumber := HighestNumber(list, template.name);
    var newCounter := maxNumber + 1;
    var instanceName := if desiredCount > 1 then Numbered(template.name, newCounter) else template.name;
    created := Combatant(instanceName, template, template.hp, template.hp);
  }

  /** The scan for `max_number` over the new list. */
  method HighestNumber(list: seq<Combatant>, name: string) returns (maxNumber: int)
    ensures maxNumber == HighestOrdinal(list, name)
  {
    maxNumber := 0;
    var i := 0;
    while i < |list|
      invariant 0 <= i <= |list|
      invariant maxNumber == HighestOrdinal(list[..i], name)
    {
      var c := list[i];
      assert list[..i + 1][..i] == list[..i];
      if c.template.name == name {
        var num := ParseI32(LastWord(c.instanceName));
        if num.Some? && num.value > maxNumber {
          maxNumber := num.value;
        }
      }
      i := i + 1;
    }
    assert list[..|list|] == list;
  }
}

/** What the reconciled list holds. */
module ReconciliationProperties {
  import opened Strings
  import opened Sorting
  import opened MonsterManager
  import opened Combatants
  import opened Reconciliation

  lemma {:induction false} FillShape(create: seq<Combatant> -> Combatant, existing: seq<Combatant>, built: seq<Combatant>, n: nat)
    ensures |Fill(create, existing, built, n)| == |built| + n
    ensures Fill(create, existing, built, n)[..|built|] == built
    decreases n
  {
    if n > 0 {
      var x := if existing != [] then existing[0] else create(built);
      var rest := if existing != [] then existing[1..] else [];
      FillShape(create, rest, built + [x], n - 1);
      var r := Fill(create, existing, built, n);
      assert r[..|built|] == r[..|built| + 1][..|built|];
    }
  }

  /**
   * The k-th entry a desired template contributes is the k-th of its sorted
   * existing entries while those last, and otherwise a new instance made from
   * everything before it in the new list.
   */
  lemma {:induction false} FillAt(create: seq<Combatant> -> Combatant, existing: seq<Combatant>, built: seq<Combatant>, n: nat, k: nat)
    requires k < n
    ensures |built| + k < |Fill(create, existing, built, n)|
    ensures var r := Fill(create, existing, built, n);
            if k < |existing| then r[|built| + k] == existing[k]
            else r[|built| + k] == create(r[..|built| + k])
    decreases n
  {
    var x := if existing != [] then existing[0] else create(built);
    var rest := if existing != [] then existing[1..] else [];
    var r := Fill(create, existing, built, n);
    assert r == Fill(create, rest, built + [x], n - 1);
    FillShape(create, rest, built + [x], n - 1);
    if k == 0 {
      assert r[..|built|] == r[..|built| + 1][..|built|];
      assert r[|built|] == (built + [x])[|built|];
    } else {
      FillAt(create, rest, built + [x], n - 1, k - 1);
      if k < |existing| {
        assert rest[k - 1] == existing[k];
      }
    }
  }

  lemma {:induction false} RebuildShape(order: seq<Combatant> -> seq<Combatant>, make: (Monster, int) -> seq<Combatant> -> Combatant,
                                        selected: seq<Selection>, groups: map<string, seq<Combatant>>, built: seq<Combatant>)
    ensures |RebuildWith(order, make, selected, groups, built)| == |built| + TotalCount(selected)
    ensures RebuildWith(order, make, selected, groups, built)[..|built|] == built
  {
    if selected != [] {
      var s := selected[0];
      var existing := order(Lookup(groups, s.monster.name));
      var filled := Fill(make(s.monster, s.count), existing, built, Iterations(s.count));
      FillShape(make(s.monster, s.count), existing, built, Iterations(s.count));
      RebuildShape(order, make, selected[1..], groups - {s.monster.name}, filled);
      var r := RebuildWith(order, make, selected, groups, built);
      assert r[..|built|] == r[..|filled|][..|built|];
    }
  }

  /** No earlier desired entry has the same template name as entry `j`. */
  ghost predicate FirstOfTemplate(selected: seq<Selection>, j: nat)
    requires j < |selected|
  {
    forall i :: 0 <= i < j ==> selected[i].monster.name != selected[j].monster.name
  }

  /** The entries the first desired entry contributes. */
  lemma RebuildAtFirst(order: seq<Combatant> -> seq<Combatant>, make: (Monster, int) -> seq<Combatant> -> Combatant,
                       selected: seq<Selection>, groups: map<string, seq<Combatant>>, built: seq<Combatant>, k: nat)
    requires 0 < |selected| && k < Iterations(selected[0].count)
    ensures |built| + k < |RebuildWith(order, make, selected, groups, built)|
    ensures var s := selected[0];
            var r := RebuildWith(order, make, selected, groups, built);
            var existing := order(Lookup(groups, s.monster.name));
            if k < |existing| then r[|built| + k] == existing[k]
            else r[|built| + k] == make(s.monster, s.count)(r[..|built| + k])
  {
    var s0 := selected[0];
    var existing0 := order(Lookup(groups, s0.monster.name));
    var n0 := Iterations(s0.count);
    var create := make(s0.monster, s0.count);
    var filled := Fill(create, existing0, built, n0);
    var r := RebuildWith(order, make, selected, groups, built);
    assert r == RebuildWith(order, make, selected[1..], groups - {s0.monster.name}, filled);
    FillShape(create, existing0, built, n0);
    RebuildShape(order, make, selected[1..], groups - {s0.monster.name}, filled);
    FillAt(create, existing0, built, n0, k);
    var p := |built| + k;
    assert r[p] == r[..|filled|][p];
    assert r[..p] == r[..|filled|][..p];
  }

  /**
   * The entries desired entry `j` contributes: the first of its template's
   * ordered group while those last (an empty group when an earlier entry
   * named the same template and so took it), then new instances made from
   * everything before them.
   */
  lemma {:induction false} RebuildAt(order: seq<Combatant> -> seq<Combatant>, make: (Monster, int) -> seq<Combatant> -> Combatant,
                                     selected: seq<Selection>, groups: map<string, seq<Combatant>>, built: seq<Combatant>, j: nat, k: nat)
    requires j < |selected| && k < Iterations(selected[j].count)
    ensures |built| + TotalCount(selected[..j]) + k < |RebuildWith(order, make, selected, groups, built)|
    ensures var s := selected[j];
            var p := |built| + TotalCount(selected[..j]) + k;
            var r := RebuildWith(order, make, selected, groups, built);
            var existing := order(if FirstOfTemplate(selected, j) then Lookup(groups, s.monster.name) else []);
            if k < |existing| then r[p] == existing[k]
            else r[p] == make(s.monster, s.count)(r[..p])
    decreases j, 1
  {
    if j == 0 {
      assert selected[..0] == [];
      RebuildAtFirst(order, make, selected, groups, built, k);
    } else {
      RebuildAtLater(order, make, selected, groups, built, j, k);
    }
  }

  /** A later desired entry is placed after the first one's entries, with the first one's group gone from the map. */
  lemma {:induction false} RebuildAtLater(order: seq<Combatant> -> seq<Combatant>, make: (Monster, int) -> seq<Combatant> -> Combatant,
                                     selected: seq<Selection>, groups: map<string, seq<Combatant>>, built: seq<Combatant>, j: nat, k: nat)
    requires 0 < j < |selected| && k < Iterations(selected[j].count)
    ensures |built| + TotalCount(selected[..j]) + k < |RebuildWith(order, make, selected, groups, built)|
    ensures var s := selected[j];
            var p := |built| + TotalCount(selected[..j]) + k;
            var r := RebuildWith(order, make, selected, groups, built);
            var existing := order(if FirstOfTemplate(selected, j) then Lookup(groups, s.monster.name) else []);
            if k < |existing| then r[p] == existing[k]
            else r[p] == make(s.monster, s.count)(r[..p])
    decreases j, 0
  {
    var s0, sj := selected[0], selected[j];
    var name := sj.monster.name;
    var existing0 := order(Lookup(groups, s0.monster.name));
    var n0 := Iterations(s0.count);
    var filled := Fill(make(s0.monster, s0.count), existing0, built, n0);
    var groups' := groups - {s0.monster.name};
    var tail := selected[1..];
    var r := RebuildWith(order, make, selected, groups, built);
    assert r == RebuildWith(order, make, tail, groups', filled);
    FillShape(make(s0.monster, s0.count), existing0, built, n0);
    PrefixSplit(selected, j);
    assert tail[j - 1] == sj;
    RebuildAt(order, make, tail, groups', filled, j - 1, k);
    assert TotalCount(selected[..j]) == n0 + TotalCount(tail[..j - 1]);
    var group := if FirstOfTemplate(selected, j) then Lookup(groups, name) else [];
    var group' := if FirstOfTemplate(tail, j - 1) then Lookup(groups', name) else [];
    if s0.monster.name == name {
      assert !FirstOfTemplate(selected, j);
      assert Lookup(groups', name) == [];
      assert group' == [] == group;
    } else {
      assert FirstOfTemplate(selected, j) == FirstOfTemplate(tail, j - 1) by {
        forall i | 0 < i < j
          ensures selected[i].monster.name == tail[i - 1].monster.name
        {
        }
      }
      assert Lookup(groups', name) == Lookup(groups, name);
      assert group' == group;
    }
  }

  /**
   * The live entries desired entry `j` takes over: its template's live
   * entries sorted by instance name, or none when an earlier desired entry
   * named the same template and so took them.
   */
  ghost function TakenEntries(selected: seq<Selection>, current: seq<Combatant>, j: nat): seq<Combatant>
    requires j < |selected|
  {
    if FirstOfTemplate(selected, j) then SortBy(OfTemplate(current, selected[j].monster.name), InstanceKey) else []
  }

  /** The group desired entry `j` takes out of the map, as the outer loop orders it. */
  lemma TakenGroup(selected: seq<Selection>, current: seq<Combatant>, j: nat)
    requires j < |selected|
    ensures ByInstanceName(if FirstOfTemplate(selected, j) then Lookup(Grouped(current), selected[j].monster.name) else [])
            == TakenEntries(selected, current, j)
  {
    GroupedIsOfTemplate(current, selected[j].monster.name);
    assert SortBy([], InstanceKey) == [];
  }

  /** While the taken entries last, desired entry `j` keeps them, unchanged and in order. */
  lemma ReconciledKept(selected: seq<Selection>, current: seq<Combatant>, j: nat, k: nat)
    requires j < |selected| && k < Iterations(selected[j].count) && k < |TakenEntries(selected, current, j)|
    ensures TotalCount(selected[..j]) + k < |Reconciled(selected, current)|
    ensures Reconciled(selected, current)[TotalCount(selected[..j]) + k] == TakenEntries(selected, current, j)[k]
  {
    TakenGroup(selected, current, j);
    RebuildKeepsTaken(selected, Grouped(current), TakenEntries(selected, current, j), j, k);
  }

  /** `RebuildKept` for the outer loop's own ordering and creator, with the taken group named. */
  lemma RebuildKeepsTaken(selected: seq<Selection>, groups: map<string, seq<Combatant>>, taken: seq<Combatant>, j: nat, k: nat)
    requires j < |selected| && k < Iterations(selected[j].count) && k < |taken|
    requires ByInstanceName(if FirstOfTemplate(selected, j) then Lookup(groups, selected[j].monster.name) else []) == taken
    ensures TotalCount(selected[..j]) + k < |Rebuild(selected, groups, [])|
    ensures Rebuild(selected, groups, [])[TotalCount(selected[..j]) + k] == taken[k]
  {
    RebuildKept(ByInstanceName, Creator, selected, groups, [], j, k);
  }

  lemma RebuildKept(order: seq<Combatant> -> seq<Combatant>, make: (Monster, int) -> seq<Combatant> -> Combatant,
                    selected: seq<Selection>, groups: map<string, seq<Combatant>>, built: seq<Combatant>, j: nat, k: nat)
    requires j < |selected| && k < Iterations(selected[j].count)
    requires k < |order(if FirstOfTemplate(selected, j) then Lookup(groups, selected[j].monster.name) else [])|
    ensures |built| + TotalCount(selected[..j]) + k < |RebuildWith(order, make, selected, groups, built)|
    ensures RebuildWith(order, make, selected, groups, built)[|built| + TotalCount(selected[..j]) + k]
            == order(if FirstOfTemplate(selected, j) then Lookup(groups, selected[j].monster.name) else [])[k]
  {
    RebuildAt(order, make, selected, groups, built, j, k);
  }

  /** Past the taken entries, desired entry `j` creates instances named from the list before them. */
  lemma ReconciledCreated(selected: seq<Selection>, current: seq<Combatant>, j: nat, k: nat)
    requires j < |selected| && k < Iterations(selected[j].count) && k >= |TakenEntries(selected, current, j)|
    ensures TotalCount(selected[..j]) + k < |Reconciled(selected, current)|
    ensures var p := TotalCount(selected[..j]) + k;
            var r := Reconciled(selected, current);
            r[p] == NewCombatant(NewName(selected[j].monster, selected[j].count, r[..p]), selected[j].monster)
  {
    var p := TotalCount(selected[..j]) + k;
    var r := Reconciled(selected, current);
    RebuildAt(ByInstanceName, Creator, selected, Grouped(current), [], j, k);
    TakenGroup(selected, current, j);
    CreatorMakes(selected[j].monster, selected[j].count, r[..p]);
  }

  lemma CreatorMakes(t: Monster, desired: int, built: seq<Combatant>)
    ensures Creator(t, desired)(built) == NewCombatant(NewName(t, desired, built), t)
  {
  }

  /**
   * The shape of the reconciled list. The desired entries contribute their
   * counts one after another, in desired-list order; the k-th entry of
   * desired entry j is the k-th of that template's live entries sorted by
   * instance name while those last (none when an earlier entry already named
   * the template), unchanged; every further one is a new full-health
   * instance of the desired template, named with the bare template name when
   * the count is 1 and otherwise numbered one past the highest ordinal among
   * the same-template entries before it.
   */
  lemma ReconciledAt(selected: seq<Selection>, current: seq<Combatant>, j: nat, k: nat)
    requires j < |selected| && k < Iterations(selected[j].count)
    ensures TotalCount(selected[..j]) + k < |Reconciled(selected, current)|
    ensures var s := selected[j];
            var p := TotalCount(selected[..j]) + k;
            var r := Reconciled(selected, current);
            var existing := TakenEntries(selected, current, j);
            if k < |existing| then r[p] == existing[k]
            else && r[p].template == s.monster
                 && r[p].currentHp == r[p].maxHp == s.monster.hp
                 && r[p].instanceName
                    == if s.count > 1 then Numbered(s.monster.name, HighestOrdinal(r[..p], s.monster.name) + 1)
                       else s.monster.name
  {
    if k < |TakenEntries(selected, current, j)| {
      ReconciledKept(selected, current, j, k);
    } else {
      ReconciledCreated(selected, current, j, k);
    }
  }

  /** Every position of the reconciled list belongs to one desired entry. */
  lemma {:induction false} PositionOf(selected: seq<Selection>, p: nat) returns (j: nat, k: nat)
    requires p < TotalCount(selected)
    ensures j < |selected| && k < Iterations(selected[j].count)
    ensures p == TotalCount(selected[..j]) + k
  {
    var n0 := Iterations(selected[0].count);
    if p < n0 {
      j, k := 0, p;
      assert selected[..0] == [];
    } else {
      var j', k' := PositionOf(selected[1..], p - n0);
      j, k := j' + 1, k';
      PrefixSplit(selected, j);
      assert TotalCount(selected[..j]) == n0 + TotalCount(selected[1..][..j']);
    }
  }

  lemma {:induction false} OfTemplateMembers(s: seq<Combatant>, name: string)
    ensures forall c :: c in OfTemplate(s, name) ==> c in s && c.template.name == name
  {
    if s != [] {
      OfTemplateMembers(s[..|s| - 1], name);
    }
  }

  /**
   * Every entry of the reconciled list belongs to a desired template: it is
   * either a live entry of that template name or a new full-health instance
   * of that template. Live entries of templates no longer desired are gone.
   */
  lemma ReconciledMembers(selected: seq<Selection>, current: seq<Combatant>)
    ensures forall c :: c in Reconciled(selected, current) ==>
              exists i :: 0 <= i < |selected| && selected[i].monster.name == c.template.name
                          && (c in current || (c.template == selected[i].monster && c.currentHp == c.maxHp == c.template.hp))
  {
    var r := Reconciled(selected, current);
    forall c | c in r
      ensures exists i :: 0 <= i < |selected| && selected[i].monster.name == c.template.name
                          && (c in current || (c.template == selected[i].monster && c.currentHp == c.maxHp == c.template.hp))
    {
      var p :| 0 <= p < |r| && r[p] == c;
      RebuildShape(ByInstanceName, Creator, selected, Grouped(current), []);
      var j, k := PositionOf(selected, p);
      ReconciledAt(selected, current, j, k);
      var name := selected[j].monster.name;
      var existing := TakenEntries(selected, current, j);
      if k < |existing| {
        SortByIsSortedPermutation(OfTemplate(current, name), InstanceKey);
        assert existing[k] in multiset(existing);
        OfTemplateMembers(current, name);
      }
    }
  }

  lemma OfTemplateAppend(s: seq<Combatant>, c: Combatant, name: string)
    ensures OfTemplate(s + [c], name) == OfTemplate(s, name) + (if c.template.name == name then [c] else [])
  {
    assert (s + [c])[..|s|] == s;
  }

  lemma {:induction false} FillOfTemplate(create: seq<Combatant> -> Combatant, existing: seq<Combatant>,
                                          built: seq<Combatant>, n: nat, name: string, templateName: string)
    requires forall c :: c in existing ==> c.template.name == templateName
    requires forall b :: create(b).template.name == templateName
    ensures |OfTemplate(Fill(create, existing, built, n), name)|
         == |OfTemplate(built, name)| + (if templateName == name then n else 0)
    decreases n
  {
    if n > 0 {
      var x := if existing != [] then existing[0] else create(built);
      var rest := if existing != [] then existing[1..] else [];
      assert forall c :: c in rest ==> c in existing;
      FillOfTemplate(create, rest, built + [x], n - 1, name, templateName);
      OfTemplateAppend(built, x, name);
    }
  }

  lemma {:induction false} RebuildOfTemplate(order: seq<Combatant> -> seq<Combatant>, make: (Monster, int) -> seq<Combatant> -> Combatant,
                                             selected: seq<Selection>, groups: map<string, seq<Combatant>>, built: seq<Combatant>, name: string)
    requires WellKeyed(groups)
    requires forall group, c :: c in order(group) ==> c in group
    requires forall t, count, b :: make(t, count)(b).template.name == t.name
    ensures |OfTemplate(RebuildWith(order, make, selected, groups, built), name)|
         == |OfTemplate(built, name)| + CountNamed(selected, name)
  {
    if selected != [] {
      var s := selected[0];
      var existing := order(Lookup(groups, s.monster.name));
      var filled := Fill(make(s.monster, s.count), existing, built, Iterations(s.count));
      FillOfTemplate(make(s.monster, s.count), existing, built, Iterations(s.count), name, s.monster.name);
      RebuildOfTemplate(order, make, selected[1..], groups - {s.monster.name}, filled, name);
    }
  }

  /**
   * The reconciled list holds, for every template name, exactly as many
   * entries as the desired list asks for under that name; in particular none
   * of a template that is no longer desired, and no surplus live entries.
   */
  lemma ReconciledCount(selected: seq<Selection>, current: seq<Combatant>, name: string)
    ensures |OfTemplate(Reconciled(selected, current), name)| == CountNamed(selected, name)
  {
    GroupedWellKeyed(current);
    forall group, c | c in ByInstanceName(group)
      ensures c in group
    {
      SortByIsSortedPermutation(group, InstanceKey);
      assert c in multiset(ByInstanceName(group));
    }
    RebuildOfTemplate(ByInstanceName, Creator, selected, Grouped(current), [], name);
  }

  /** No two desired entries name the same template. */
  ghost predicate DistinctNames(selected: seq<Selection>) {
    forall i, j :: 0 <= i < j < |selected| ==> selected[i].monster.name != selected[j].monster.name
  }

  /** Some desired entry names this template. */
  ghost predicate Named(selected: seq<Selection>, name: string) {
    exists i :: 0 <= i < |selected| && selected[i].monster.name == name
  }

  /** The live entries of each desired template in turn, in desired-list order. */
  ghost function LiveOfSelected(selected: seq<Selection>, current: seq<Combatant>): seq<Combatant> {
    if selected == [] then [] else OfTemplate(current, selected[0].monster.name) + LiveOfSelected(selected[1..], current)
  }

  /** With as many existing entries as wanted, filling only keeps them. */
  lemma {:induction false} FillKeepsAll(create: seq<Combatant> -> Combatant, existing: seq<Combatant>, built: seq<Combatant>, n: nat)
    requires |existing| == n
    ensures Fill(create, existing, built, n) == built + existing
    decreases n
  {
    if n > 0 {
      FillKeepsAll(create, existing[1..], built + [existing[0]], n - 1);
      assert built + [existing[0]] + existing[1..] == built + existing;
    }
  }

  /** Every desired entry asks for exactly its template's live entries, which are its group. */
  ghost predicate AsksForLive(selected: seq<Selection>, groups: map<string, seq<Combatant>>, current: seq<Combatant>) {
    forall j :: 0 <= j < |selected| ==>
      && Lookup(groups, selected[j].monster.name) == OfTemplate(current, selected[j].monster.name)
      && selected[j].count == |OfTemplate(current, selected[j].monster.name)|
  }

  /** Taking the first desired entry's group out leaves the others' groups in place. */
  lemma AsksForLiveTail(selected: seq<Selection>, groups: map<string, seq<Combatant>>, current: seq<Combatant>)
    requires selected != [] && DistinctNames(selected) && AsksForLive(selected, groups, current)
    ensures DistinctNames(selected[1..])
    ensures AsksForLive(selected[1..], groups - {selected[0].monster.name}, current)
  {
    DistinctNamesTail(selected);
    var rest := selected[1..];
    forall j | 0 <= j < |rest|
      ensures Lookup(groups - {selected[0].monster.name}, rest[j].monster.name) == OfTemplate(current, rest[j].monster.name)
      ensures rest[j].count == |OfTemplate(current, rest[j].monster.name)|
    {
      assert rest[j] == selected[j + 1];
    }
  }

  /**
   * When every desired template asks for exactly its live entries, the outer
   * loop adds exactly those entries, in some order.
   */
  lemma {:induction false} RebuildKeepsAll(selected: seq<Selection>, groups: map<string, seq<Combatant>>,
                                           built: seq<Combatant>, current: seq<Combatant>)
    requires DistinctNames(selected) && AsksForLive(selected, groups, current)
    ensures multiset(Rebuild(selected, groups, built)) == multiset(built) + multiset(LiveOfSelected(selected, current))
    decreases |selected|
  {
    if selected != [] {
      var s := selected[0];
      var live := OfTemplate(current, s.monster.name);
      var sorted := SortBy(live, InstanceKey);
      SortByIsSortedPermutation(live, InstanceKey);
      assert |sorted| == |multiset(sorted)| == |live| == Iterations(s.count);
      FillKeepsAll(Creator(s.monster, s.count), sorted, built, Iterations(s.count));
      RebuildStep(selected, groups, built);
      var rest := selected[1..];
      var groups' := groups - {s.monster.name};
      assert Rebuild(selected, groups, built) == Rebuild(rest, groups', built + sorted);
      AsksForLiveTail(selected, groups, current);
      RebuildKeepsAll(rest, groups', built + sorted, current);
      calc {
        multiset(Rebuild(selected, groups, built));
        multiset(built + sorted) + multiset(LiveOfSelected(rest, current));
        multiset(built) + multiset(live) + multiset(LiveOfSelected(rest, current));
        multiset(built) + multiset(LiveOfSelected(selected, current));
      }
    }
  }

  /** A desired list's first entry names one template; the rest name the others. */
  lemma NamedCons(selected: seq<Selection>, name: string)
    requires selected != []
    ensures Named(selected, name) <==> selected[0].monster.name == name || Named(selected[1..], name)
    ensures DistinctNames(selected) && selected[0].monster.name == name ==> !Named(selected[1..], name)
  {
    var rest := selected[1..];
    if Named(selected, name) && selected[0].monster.name != name {
      var i :| 0 <= i < |selected| && selected[i].monster.name == name;
      assert rest[i - 1] == selected[i];
    }
    if Named(rest, name) {
      var i :| 0 <= i < |rest| && rest[i].monster.name == name;
      assert selected[i + 1] == rest[i];
    }
  }

  lemma DistinctNamesTail(selected: seq<Selection>)
    requires selected != [] && DistinctNames(selected)
    ensures DistinctNames(selected[1..])
  {
    var rest := selected[1..];
    forall i, j | 0 <= i < j < |rest| ensures rest[i].monster.name != rest[j].monster.name {
      assert rest[i] == selected[i + 1] && rest[j] == selected[j + 1];
    }
  }

  /** The entries `c` adds to a list: itself when its template is desired. */
  ghost function Added(selected: seq<Selection>, c: Combatant): multiset<Combatant> {
    if Named(selected, c.template.name) then multiset{c} else multiset{}
  }

  /** What `c` adds under the first desired entry and under the rest. */
  lemma AddedCons(selected: seq<Selection>, c: Combatant)
    requires selected != [] && DistinctNames(selected)
    ensures multiset(if c.template.name == selected[0].monster.name then [c] else []) + Added(selected[1..], c)
            == Added(selected, c)
  {
    NamedCons(selected, c.template.name);
  }

  /** Appending a live entry adds it once, under the one desired entry naming its template. */
  lemma {:induction false} LiveOfSelectedSnoc(selected: seq<Selection>, current: seq<Combatant>, c: Combatant)
    requires DistinctNames(selected)
    ensures multiset(LiveOfSelected(selected, current + [c])) == multiset(LiveOfSelected(selected, current)) + Added(selected, c)
    decreases |selected|
  {
    if selected != [] {
      var rest := selected[1..];
      var n0 := selected[0].monster.name;
      var extra := if c.template.name == n0 then [c] else [];
      DistinctNamesTail(selected);
      AddedCons(selected, c);
      OfTemplateAppend(current, c, n0);
      LiveOfSelectedSnoc(rest, current, c);
      var before := LiveOfSelected(rest, current);
      var after := LiveOfSelected(rest, current + [c]);
      calc {
        multiset(LiveOfSelected(selected, current + [c]));
        multiset(OfTemplate(current, n0) + extra + after);
        multiset(OfTemplate(current, n0)) + multiset(extra) + multiset(after);
        multiset(OfTemplate(current, n0)) + multiset(before) + Added(selected, c);
        multiset(LiveOfSelected(selected, current)) + Added(selected, c);
      }
    }
  }

  /** When every live entry's template is desired, once, the desired templates' entries are the live list. */
  lemma {:induction false} LiveOfSelectedIsCurrent(selected: seq<Selection>, current: seq<Combatant>)
    requires DistinctNames(selected)
    requires forall c :: c in current ==> Named(selected, c.template.name)
    ensures multiset(LiveOfSelected(selected, current)) == multiset(current)
    decreases |current|
  {
    if current == [] {
      assert LiveOfSelected(selected, []) == [] by { LiveOfSelectedEmpty(selected); }
    } else {
      var init := current[..|current| - 1];
      var c := current[|current| - 1];
      assert init + [c] == current;
      assert forall x :: x in init ==> x in current;
      LiveOfSelectedIsCurrent(selected, init);
      LiveOfSelectedSnoc(selected, init, c);
    }
  }

  lemma {:induction false} LiveOfSelectedEmpty(selected: seq<Selection>)
    ensures LiveOfSelected(selected, []) == []
    decreases |selected|
  {
    if selected != [] {
      LiveOfSelectedEmpty(selected[1..]);
    }
  }

  /**
   * Reconciling with the composition the roster already has changes nothing
   * but the order: when the desired templates are distinct, each asks for as
   * many instances as it has live, and every live entry is of a desired
   * template, the new list holds exactly the live entries, HP included.
   */
  lemma ReconciledIdempotent(selected: seq<Selection>, current: seq<Combatant>)
    requires DistinctNames(selected)
    requires forall i :: 0 <= i < |selected| ==> selected[i].count == |OfTemplate(current, selected[i].monster.name)|
    requires forall c :: c in current ==> Named(selected, c.template.name)
    ensures multiset(Reconciled(selected, current)) == multiset(current)
  {
    forall j | 0 <= j < |selected|
      ensures Lookup(Grouped(current), selected[j].monster.name) == OfTemplate(current, selected[j].monster.name)
    {
      GroupedIsOfTemplate(current, selected[j].monster.name);
    }
    assert AsksForLive(selected, Grouped(current), current);
    RebuildKeepsAll(selected, Grouped(current), [], current);
    LiveOfSelectedIsCurrent(selected, current);
  }
}
