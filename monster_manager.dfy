/**
 * The monster template store (src/monster_manager.rs). The source keeps one
 * JSON file `<name>.json` per template in a "Monsters" directory; here that
 * directory is a map from file stem to what the file holds, and (de)serialising
 * is exact, so a file holds either a template or something that does not parse.
 */
module MonsterManager {
  import opened Wrappers
  import opened Strings
  import opened Sorting

  /** One attack definition of a template (`Attack`). */
  datatype Attack = Attack(
    attackName: string,
    abilityUsed: string,
    diceUsed: string,
    numDice: int,
    numAttacks: int,
    savingThrow: bool)

  /** A monster template (`Monster`). */
  datatype Monster = Monster(
    name: string,
    hp: int,
    ac: int,
    exp: int,
    pb: int,
    strMod: int,
    dexMod: int,
    conMod: int,
    intMod: int,
    wisMod: int,
    chaMod: int,
    attacks: seq<Attack>)

  /** The content of one file `<stem>.json`. */
  datatype MonsterFile = Json(monster: Monster) | Unparsable

  /** The outcome of the store's fallible operations (`io::Result<()>`). */
  datatype IoResult = Ok | NotFound

  /** The sort key of `read_all_monsters`. */
  function NameKey(m: Monster): string {
    m.name
  }

  /** `attacks.retain(|a| a.attack_name != attack_name)`. */
  function RetainAttacks(attacks: seq<Attack>, attackName: string): (r: seq<Attack>)
    ensures forall a :: a in r <==> a in attacks && a.attackName != attackName
    ensures |r| <= |attacks|
  {
    if attacks == [] then []
    else (if attacks[0].attackName != attackName then [attacks[0]] else [])
         + RetainAttacks(attacks[1..], attackName)
  }

  /** Retaining works piecewise, so the kept attacks stay in their original order. */
  lemma {:induction false} RetainAttacksKeepsOrder(a: seq<Attack>, b: seq<Attack>, attackName: string)
    ensures RetainAttacks(a + b, attackName) == RetainAttacks(a, attackName) + RetainAttacks(b, attackName)
  {
    if a == [] {
      assert a + b == b;
    } else {
      assert (a + b)[0] == a[0] && (a + b)[1..] == a[1..] + b;
      RetainAttacksKeepsOrder(a[1..], b, attackName);
    }
  }

  /** Something is removed exactly when some attack has the given name. */
  lemma {:induction false} RetainAttacksShrinks(attacks: seq<Attack>, attackName: string)
    ensures |RetainAttacks(attacks, attackName)| < |attacks|
            <==> exists i :: 0 <= i < |attacks| && attacks[i].attackName == attackName
  {
    if attacks != [] {
      RetainAttacksShrinks(attacks[1..], attackName);
      if exists i :: 0 <= i < |attacks[1..]| && attacks[1..][i].attackName == attackName {
        var i :| 0 <= i < |attacks[1..]| && attacks[1..][i].attackName == attackName;
        assert attacks[i + 1].attackName == attackName;
      }
      if exists i :: 0 <= i < |attacks| && attacks[i].attackName == attackName {
        var i :| 0 <= i < |attacks| && attacks[i].attackName == attackName;
        if i > 0 {
          assert attacks[1..][i - 1].attackName == attackName;
        }
      }
    }
  }

  /** When no attack has the given name, retaining gives back the same list. */
  lemma {:induction false} RetainAttacksNoMatch(attacks: seq<Attack>, attackName: string)
    requires forall i :: 0 <= i < |attacks| ==> attacks[i].attackName != attackName
    ensures RetainAttacks(attacks, attackName) == attacks
  {
    if attacks != [] {
      RetainAttacksNoMatch(attacks[1..], attackName);
    }
  }

  /** The templates of the parsed files listed in `stems`, in that order. */
  ghost function ParsedAt(files: map<string, MonsterFile>, stems: seq<string>): seq<Monster>
    requires forall k :: k in stems ==> k in files && files[k].Json?
  {
    if stems == [] then []
    else ParsedAt(files, stems[..|stems| - 1]) + [files[stems[|stems| - 1]].monster]
  }

  /** The Monsters directory. */
  class MonsterStore {
    /** For each file `<stem>.json` of the directory, its stem and its content. */
    var files: map<string, MonsterFile>

    constructor (files: map<string, MonsterFile>)
      ensures this.files == files
    {
      this.files := files;
    }

    /** `read_monster`: the template in `<name>.json`, if that file exists and parses. */
    function ReadMonster(name: string): (r: Option<Monster>)
      reads this
      ensures r.Some? <==> name in files && files[name].Json?
      ensures r.Some? ==> files[name] == Json(r.value)
    {
      if name in files && files[name].Json? then Some(files[name].monster) else None
    }

    /** `save_monster`: writes `<monster.name>.json`, replacing what was there. */
    method SaveMonster(monster: Monster)
      modifies this
      ensures files == old(files)[monster.name := Json(monster)]
      ensures ReadMonster(monster.name) == Some(monster)
      ensures forall n :: n != monster.name ==> ReadMonster(n) == old(ReadMonster(n))
    {
      files := files[monster.name := Json(monster)];
    }

    /**
     * `read_all_monsters`: every file of the directory that parses, in the
     * order the directory listing gives them (`stems`, chosen freely here),
     * then sorted by name.
     */
    method ReadAllMonsters() returns (monsters: seq<Monster>, ghost stems: seq<string>)
      ensures forall i, j :: 0 <= i < j < |stems| ==> stems[i] != stems[j]
      ensures forall k :: k in stems <==> k in files && files[k].Json?
      ensures multiset(monsters) == multiset(ParsedAt(files, stems))
      ensures SortedBy(monsters, NameKey)
    {
      var found: seq<Monster> := [];
      stems := [];
      var entries := files.Keys;
      while entries != {}
        invariant entries <= files.Keys
        invariant forall k :: k in stems ==> k in files && files[k].Json? && k !in entries
        invariant forall k :: k in files && files[k].Json? && k !in entries ==> k in stems
        invariant forall i, j :: 0 <= i < j < |stems| ==> stems[i] != stems[j]
        invariant found == ParsedAt(files, stems)
        decreases entries
      {
        var stem :| stem in entries;
        var monster := ReadMonster(stem);
        if monster.Some? {
          assert (stems + [stem])[..|stems|] == stems;
          found := found + [monster.value];
          stems := stems + [stem];
        }
        entries := entries - {stem};
      }
      monsters := SortBy(found, NameKey);
      SortByIsSortedPermutation(found, NameKey);
    }

    /** `delete_monster`: removes `<name>.json`; NotFound when there is no such file. */
    method DeleteMonster(name: string) returns (r: IoResult)
      modifies this
      ensures r == (if name in old(files) then Ok else NotFound)
      ensures files == old(files) - {name}
    {
      if name in files {
        files := files - {name};
        r := Ok;
      } else {
        r := NotFound;
      }
    }

    /**
     * `add_attack_to_monster`: reads the template, appends the attack and saves
     * it again (under the name stored inside the file).
     */
    method AddAttackToMonster(name: string, attack: Attack) returns (r: IoResult)
      modifies this
      ensures old(ReadMonster(name)).None? ==> r == NotFound && files == old(files)
      ensures old(ReadMonster(name)).Some? ==>
                var m := old(ReadMonster(name)).value;
                r == Ok && files == old(files)[m.name := Json(m.(attacks := m.attacks + [attack]))]
    {
      var found := ReadMonster(name);
      if found.None? {
        return NotFound;
      }
      var monster := found.value;
      monster := monster.(attacks := monster.attacks + [attack]);
      SaveMonster(monster);
      r := Ok;
    }

    /**
     * `delete_attack_from_monster`: removes every attack with that name and
     * saves the template; NotFound, and nothing written, when the template is
     * missing or no attack had that name.
     */
    method DeleteAttackFromMonster(name: string, attackName: string) returns (r: IoResult)
      modifies this
      ensures old(ReadMonster(name)).None? ==> r == NotFound && files == old(files)
      ensures old(ReadMonster(name)).Some? ==>
                var m := old(ReadMonster(name)).value;
                var kept := RetainAttacks(m.attacks, attackName);
                if |kept| < |m.attacks| then
                  r == Ok && files == old(files)[m.name := Json(m.(attacks := kept))]
                else
                  r == NotFound && files == old(files)
    {
      var found := ReadMonster(name);
      if found.None? {
        return NotFound;
      }
      var monster := found.value;
      var originalLen := |monster.attacks|;
      monster := monster.(attacks := RetainAttacks(monster.attacks, attackName));
      if |monster.attacks| < originalLen {
        SaveMonster(monster);
        r := Ok;
      } else {
        r := NotFound;
      }
    }
  }
}
