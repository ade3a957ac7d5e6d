/**
 * The application shell's rules: the starting player, the enemy party drawn
 * for a battle, what a won or lost battle does to the player, and the four
 * inventory operations (combine, destroy, equip, unequip). Each rule computes
 * a new `Player` from the previous one; the class `Game` holds the state the
 * shell overwrites with them.
 */
module App {
  import opened Types
  import BattleEngine

  const PartySize: nat := 3
  /** Combining is offered below this tier only. */
  const MaxTier: int := 3
  const DestroyXpPerTier: int := 50

  datatype Slot = ArmorSlot | WeaponSlot

  datatype Screen = Menu | InBattle | InventoryScreen

  /**
   * What every player the shell holds satisfies: the level never runs ahead
   * of the experience, the maximum health is the base plus the equipped
   * armor's defense, the armor slot only ever holds a tool without attack,
   * and inventory entries are distinct tools that agree with the equipped ones.
   */
  predicate PlayerOk(p: Player) {
    && 0 <= p.xp
    && 1 <= p.level <= p.xp / 100 + 1
    && 0 < p.health
    && (p.weapon.Some? ==> p.weapon.value.attack.Some?)
    && (p.armor.Some? ==>
          p.armor.value.attack.None? && p.armor.value.defense.Some?
          && p.maxHealth == BaseMaxHealth + p.armor.value.defense.value)
    && (p.armor.None? ==> p.maxHealth == BaseMaxHealth)
    && UniqueIds(p.inventory)
    && (forall t :: t in p.inventory ==> ToolOk(t) && SlotAgrees(p.weapon, t) && SlotAgrees(p.armor, t))
  }

  /** An equipped tool with the identity of an inventory entry is that entry. */
  predicate SlotAgrees(slot: Option<Tool>, t: Tool) {
    slot.Some? && slot.value.id == t.id ==> slot.value == t
  }

  function InitialPlayer(): Player {
    Player(1, 0, 100, BaseMaxHealth, None, None,
      [Tool(0, "Wooden Armor", 1, None, Some(10)), Tool(1, "Wooden Sword", 1, Some(5), None)])
  }

  /** The starting player: level 1, no experience, full health of 100, nothing equipped, two tier-1 tools. */
  lemma InitialPlayerFacts()
    ensures var p := InitialPlayer();
      && p.level == 1 && p.xp == 0 && p.health == p.maxHealth == 100
      && p.armor.None? && p.weapon.None?
      && |p.inventory| == 2 && p.inventory[0].tier == p.inventory[1].tier == 1
      && p.inventory[0].defense == Some(10) && p.inventory[0].attack.None?
      && p.inventory[1].attack == Some(5) && p.inventory[1].defense.None?
      && PlayerOk(p)
  {
  }

  /** A new tool gets an identity no tool of the player has: a freshly allocated record. */
  function NextId(p: Player): (id: nat)
    ensures forall t :: t in p.inventory ==> t.id < id
    ensures p.armor.Some? ==> p.armor.value.id < id
    ensures p.weapon.Some? ==> p.weapon.value.id < id
  {
    var equipped := (if p.armor.Some? then [p.armor.value] else []) + (if p.weapon.Some? then [p.weapon.value] else []);
    assert forall t :: t in p.inventory ==> t in p.inventory + equipped;
    assert p.armor.Some? ==> p.armor.value in p.inventory + equipped;
    assert p.weapon.Some? ==> p.weapon.value in p.inventory + equipped;
    MaxId(p.inventory + equipped) + 1
  }

  // ---------------------------------------------------------------------
  // Battle start and end

  function SpawnEnemy(level: int, name: string): Enemy {
    var maxHealth := 50 + level * 10;
    Enemy(name, level, maxHealth, maxHealth, 3 + level * 2, false)
  }

  /** The party for a battle; `rolls[i]` in 0..2 is the random draw that sets enemy `i`'s level offset. */
  function SpawnParty(playerLevel: int, rolls: seq<nat>, names: seq<string>): (party: seq<Enemy>)
    requires |rolls| == PartySize && |names| == PartySize
    requires forall i :: 0 <= i < PartySize ==> rolls[i] < 3
    ensures |party| == PartySize
  {
    seq(PartySize, i requires 0 <= i < PartySize => SpawnEnemy(playerLevel + rolls[i] - 1, names[i]))
  }

  /**
   * Each of the three enemies is within one level of the player, at full
   * health of 50 + 10 per level, with attack 3 + 2 per level, and can enter a battle.
   */
  lemma SpawnPartyFacts(playerLevel: int, rolls: seq<nat>, names: seq<string>)
    requires 1 <= playerLevel
    requires |rolls| == PartySize && |names| == PartySize
    requires forall i :: 0 <= i < PartySize ==> rolls[i] < 3
    ensures var party := SpawnParty(playerLevel, rolls, names);
      forall i :: 0 <= i < PartySize ==>
        && party[i].level == playerLevel + rolls[i] - 1
        && playerLevel - 1 <= party[i].level <= playerLevel + 1
        && party[i].name == names[i]
        && party[i].health == party[i].maxHealth == 50 + 10 * party[i].level
        && party[i].attack == 3 + 2 * party[i].level
        && !party[i].isDefeated
        && BattleEngine.EnemyOk(party[i])
  {
  }

  /** `reduce((sum, e) => sum + e.level * 10, 0)` */
  function XpReward(party: seq<Enemy>): (xp: int)
    ensures (forall e :: e in party ==> 0 <= e.level) ==> 0 <= xp
  {
    if party == [] then 0
    else
      assert forall e :: e in party[1..] ==> e in party;
      party[0].level * 10 + XpReward(party[1..])
  }

  /** A party of levels 2, 3 and 4 is worth 90 experience. */
  lemma XpRewardExample(a: Enemy, b: Enemy, c: Enemy)
    requires a.level == 2 && b.level == 3 && c.level == 4
    ensures XpReward([a, b, c]) == 90
  {
    assert [a, b, c][1..] == [b, c];
    assert [b, c][1..] == [c];
    assert [c][1..] == [];
    assert XpReward([c]) == 40;
    assert XpReward([b, c]) == 70;
  }

  /** A spawned party is worth 30 experience per level of the player, give or take 30. */
  lemma {:induction false} SpawnedXpRange(playerLevel: int, rolls: seq<nat>, names: seq<string>)
    requires |rolls| == PartySize && |names| == PartySize
    requires forall i :: 0 <= i < PartySize ==> rolls[i] < 3
    ensures var xp := XpReward(SpawnParty(playerLevel, rolls, names));
      30 * (playerLevel - 1) <= xp <= 30 * (playerLevel + 1)
  {
    var party := SpawnParty(playerLevel, rolls, names);
    assert party == [party[0], party[1], party[2]];
    assert party[1..] == [party[1], party[2]];
    assert party[1..][1..] == [party[2]];
    assert party[1..][1..][1..] == [];
    assert XpReward(party[1..][1..]) == party[2].level * 10;
    assert XpReward(party[1..]) == party[1].level * 10 + party[2].level * 10;
    assert XpReward(party) == (party[0].level + party[1].level + party[2].level) * 10;
  }

  /** The tier-1 tool won after a battle: a weapon of attack 5 or an armor of defense 10. */
  function Loot(isWeapon: bool, id: nat, name: string): (t: Tool)
    ensures t.id == id && t.tier == 1 && ToolOk(t)
    ensures isWeapon <==> t.attack == Some(5)
    ensures !isWeapon <==> t.defense == Some(10)
    ensures isWeapon ==> t.defense.None?
    ensures !isWeapon ==> t.attack.None?
  {
    if isWeapon then Tool(id, name, 1, Some(5), None) else Tool(id, name, 1, None, Some(10))
  }

  /**
   * The player after a battle against `party`. `lootIsWeapon` is the random
   * draw deciding the loot, `lootName` its generated name.
   */
  function EndBattle(p: Player, party: seq<Enemy>, won: bool, lootIsWeapon: bool, lootName: string): Player {
    if won then
      var xp := p.xp + XpReward(party);
      p.(level := xp / 100 + 1, xp := xp, health := p.maxHealth,
         inventory := p.inventory + [Loot(lootIsWeapon, NextId(p), lootName)])
    else
      p.(health := p.maxHealth)
  }

  /**
   * A victory adds ten experience per level of every enemy in the party,
   * sets the level from the experience, restores health and appends exactly
   * one new tier-1 tool; equipment is untouched. A defeat only restores health.
   */
  lemma EndBattleEffect(p: Player, party: seq<Enemy>, won: bool, lootIsWeapon: bool, lootName: string)
    ensures var q := EndBattle(p, party, won, lootIsWeapon, lootName);
      && q.health == q.maxHealth == p.maxHealth
      && q.armor == p.armor && q.weapon == p.weapon
      && (won ==>
            && q.xp == p.xp + XpReward(party)
            && q.level == q.xp / 100 + 1
            && |q.inventory| == |p.inventory| + 1
            && q.inventory[..|p.inventory|] == p.inventory
            && q.inventory[|p.inventory|].tier == 1
            && q.inventory[|p.inventory|] == Loot(lootIsWeapon, q.inventory[|p.inventory|].id, lootName)
            && !HasId(p.inventory, q.inventory[|p.inventory|].id))
      && (!won ==> q == p.(health := p.maxHealth))
  {
  }

  /** Levels never go down after a battle. */
  lemma LevelNeverDecreases(p: Player, party: seq<Enemy>, won: bool, lootIsWeapon: bool, lootName: string)
    requires PlayerOk(p)
    requires forall e :: e in party ==> 0 <= e.level
    ensures EndBattle(p, party, won, lootIsWeapon, lootName).level >= p.level
  {
    if won {
      var xp := p.xp + XpReward(party);
      assert p.xp <= xp;
      DivMonotone(p.xp, xp);
    }
  }

  lemma DivMonotone(a: int, b: int)
    requires 0 <= a <= b
    ensures a / 100 <= b / 100
  {
  }

  lemma EndBattleOk(p: Player, party: seq<Enemy>, won: bool, lootIsWeapon: bool, lootName: string)
    requires PlayerOk(p)
    requires forall e :: e in party ==> 0 <= e.level
    ensures PlayerOk(EndBattle(p, party, won, lootIsWeapon, lootName))
  {
    if won {
      var q := EndBattle(p, party, won, lootIsWeapon, lootName);
      var loot := Loot(lootIsWeapon, NextId(p), lootName);
      assert q.inventory == p.inventory + [loot];
      forall i, j | 0 <= i < j < |q.inventory| ensures q.inventory[i].id != q.inventory[j].id {
        if j == |p.inventory| {
          assert q.inventory[i] in p.inventory;
        }
      }
      forall t | t in q.inventory ensures ToolOk(t) && SlotAgrees(q.weapon, t) && SlotAgrees(q.armor, t) {
        if t != loot {
          assert t in p.inventory;
        }
      }
    }
  }

  // ---------------------------------------------------------------------
  // Inventory operations

  /** Two tools can be combined when they share a tier below the maximum. */
  predicate Combinable(t1: Tool, t2: Tool) {
    t1.tier == t2.tier && t1.tier < MaxTier
  }

  /** The tool two tools combine into: one tier up, both stats defined and summed (an absent stat counts 0). */
  function Combined(t1: Tool, t2: Tool, id: nat, name: string): Tool {
    Tool(id, name, t1.tier + 1,
         Some(OrZero(t1.attack) + OrZero(t2.attack)),
         Some(OrZero(t1.defense) + OrZero(t2.defense)))
  }

  function CombineTools(p: Player, t1: Tool, t2: Tool, name: string): Player {
    if Combinable(t1, t2) then
      p.(inventory := Remove(p.inventory, {t1.id, t2.id}) + [Combined(t1, t2, NextId(p), name)])
    else
      p
  }

  /**
   * Combining two tools of one tier below 3 removes both inputs, keeps every
   * other entry, and appends one new tool a tier up whose attack and defense
   * are both defined and are the sums of the inputs'. Otherwise nothing
   * changes; the equipped slots, health and experience never change.
   */
  lemma CombineEffect(p: Player, t1: Tool, t2: Tool, name: string)
    ensures var q := CombineTools(p, t1, t2, name);
      && q.(inventory := p.inventory) == p
      && (!Combinable(t1, t2) ==> q == p)
      && (Combinable(t1, t2) ==>
            var n := |q.inventory| - 1;
            && 0 <= n
            && q.inventory[..n] == Remove(p.inventory, {t1.id, t2.id})
            && (forall t :: t in q.inventory[..n] <==> t in p.inventory && t.id != t1.id && t.id != t2.id)
            && q.inventory[n].tier == t1.tier + 1
            && q.inventory[n].attack == Some(OrZero(t1.attack) + OrZero(t2.attack))
            && q.inventory[n].defense == Some(OrZero(t1.defense) + OrZero(t2.defense))
            && !HasId(p.inventory, q.inventory[n].id))
  {
    if Combinable(t1, t2) {
      var q := CombineTools(p, t1, t2, name);
      var n := |q.inventory| - 1;
      assert q.inventory[..n] == Remove(p.inventory, {t1.id, t2.id});
    }
  }

  /** Combining two distinct inventory tools shrinks the inventory by exactly one. */
  lemma CombineCount(p: Player, t1: Tool, t2: Tool, name: string)
    requires UniqueIds(p.inventory) && t1 in p.inventory && t2 in p.inventory && t1.id != t2.id
    requires Combinable(t1, t2)
    ensures |CombineTools(p, t1, t2, name).inventory| == |p.inventory| - 1
  {
    assert {t1.id, t2.id} == {t1.id} + {t2.id};
    RemoveTwice(p.inventory, {t1.id}, {t2.id});
    RemoveOne(p.inventory, t1);
    RemoveUnique(p.inventory, {t1.id});
    RemoveOne(Remove(p.inventory, {t1.id}), t2);
  }

  /** A combined tool always has an attack, so equipping it fills the weapon slot and leaves the armor alone. */
  lemma CombinedEquipsAsWeapon(p: Player, t1: Tool, t2: Tool, name: string)
    requires Combinable(t1, t2)
    ensures var q := CombineTools(p, t1, t2, name);
      var made := q.inventory[|q.inventory| - 1];
      EquipTool(q, made).weapon == Some(made) && EquipTool(q, made).armor == p.armor
  {
  }

  /** Two tier-1 armors of defense 10 combine into a tool of attack 0 that equips as a weapon dealing 0 damage. */
  lemma CombinedArmorsMakeHarmlessWeapon(p: Player, a1: Tool, a2: Tool, name: string)
    requires a1.tier == a2.tier == 1
    requires a1.attack.None? && a2.attack.None? && a1.defense == Some(10) && a2.defense == Some(10)
    ensures var q := CombineTools(p, a1, a2, name);
      var made := q.inventory[|q.inventory| - 1];
      && made.attack == Some(0) && made.defense == Some(20) && made.tier == 2
      && EquipTool(q, made).weapon == Some(made)
      && BattleEngine.WeaponDamage(EquipTool(q, made).weapon) == 0
  {
  }

  lemma CombineOk(p: Player, t1: Tool, t2: Tool, name: string)
    requires PlayerOk(p) && ToolOk(t1) && ToolOk(t2)
    ensures PlayerOk(CombineTools(p, t1, t2, name))
  {
    if Combinable(t1, t2) {
      var q := CombineTools(p, t1, t2, name);
      var kept := Remove(p.inventory, {t1.id, t2.id});
      var made := Combined(t1, t2, NextId(p), name);
      assert q.inventory == kept + [made];
      RemoveUnique(p.inventory, {t1.id, t2.id});
      forall i, j | 0 <= i < j < |q.inventory| ensures q.inventory[i].id != q.inventory[j].id {
        if j == |kept| {
          assert q.inventory[i] in kept;
        }
      }
      forall t | t in q.inventory ensures ToolOk(t) && SlotAgrees(q.weapon, t) && SlotAgrees(q.armor, t) {
        if t != made {
          assert t in kept;
        }
      }
    }
  }

  function DestroyTool(p: Player, t: Tool): Player {
    var weaponGone := p.weapon.Some? && p.weapon.value.id == t.id;
    var armorGone := p.armor.Some? && p.armor.value.id == t.id;
    p.(weapon := if weaponGone then None else p.weapon,
       armor := if armorGone then None else p.armor,
       maxHealth := if armorGone then BaseMaxHealth else p.maxHealth,
       xp := p.xp + t.tier * DestroyXpPerTier,
       inventory := Remove(p.inventory, {t.id}))
  }

  /**
   * Destroying a tool grants 50 experience per tier, removes every entry with
   * its identity, clears the slot holding it (clearing the armor resets the
   * maximum health to 100) and leaves level and health alone.
   */
  lemma DestroyEffect(p: Player, t: Tool)
    ensures var q := DestroyTool(p, t);
      && q.xp == p.xp + t.tier * 50
      && q.level == p.level && q.health == p.health
      && !HasId(q.inventory, t.id)
      && (forall u :: u in p.inventory && u.id != t.id ==> u in q.inventory)
      && (forall u :: u in q.inventory ==> u in p.inventory)
      && (q.weapon.None? <==> p.weapon.None? || p.weapon.value.id == t.id)
      && (q.weapon.Some? ==> q.weapon == p.weapon)
      && (q.armor.None? <==> p.armor.None? || p.armor.value.id == t.id)
      && (q.armor.Some? ==> q.armor == p.armor)
      && q.maxHealth == (if p.armor.Some? && p.armor.value.id == t.id then BaseMaxHealth else p.maxHealth)
  {
  }

  /** Destroying the tool at position `i` of an inventory without duplicates leaves the others in their order. */
  lemma DestroyKeepsOrder(p: Player, i: nat)
    requires UniqueIds(p.inventory) && i < |p.inventory|
    ensures DestroyTool(p, p.inventory[i]).inventory == p.inventory[..i] + p.inventory[i + 1..]
  {
    RemoveAt(p.inventory, i);
  }

  /** Destroying an inventory tool removes exactly one entry, whether or not it is equipped. */
  lemma DestroyCount(p: Player, t: Tool)
    requires UniqueIds(p.inventory) && t in p.inventory
    ensures |DestroyTool(p, t).inventory| == |p.inventory| - 1
  {
    RemoveOne(p.inventory, t);
  }

  /** Destroying the equipped armor keeps the health, which may then exceed the new maximum. */
  lemma DestroyArmorKeepsHealth(p: Player, t: Tool)
    requires p.armor == Some(t) && p.health > BaseMaxHealth
    ensures DestroyTool(p, t).health > DestroyTool(p, t).maxHealth == BaseMaxHealth
  {
  }

  lemma DestroyOk(p: Player, t: Tool)
    requires PlayerOk(p) && t in p.inventory
    ensures PlayerOk(DestroyTool(p, t))
  {
    var q := DestroyTool(p, t);
    RemoveUnique(p.inventory, {t.id});
    assert 0 <= t.tier * DestroyXpPerTier;
    DivMonotone(p.xp, q.xp);
  }

  /** Equipping requires a tool with attack or defense; without attack its defense sets the maximum health. */
  function EquipTool(p: Player, t: Tool): Player
    requires t.attack.Some? || t.defense.Some?
  {
    if t.attack.Some? then
      p.(weapon := Some(t), health := p.maxHealth)
    else
      var maxHealth := BaseMaxHealth + t.defense.value;
      p.(armor := Some(t), maxHealth := maxHealth, health := maxHealth)
  }

  /**
   * A tool with an attack becomes the weapon; any other becomes the armor and
   * the maximum health becomes 100 plus its defense. Health is then full, and
   * the inventory, level and experience do not change.
   */
  lemma EquipEffect(p: Player, t: Tool)
    requires t.attack.Some? || t.defense.Some?
    ensures var q := EquipTool(p, t);
      && q.health == q.maxHealth
      && q.inventory == p.inventory && q.level == p.level && q.xp == p.xp
      && (t.attack.Some? ==> q.weapon == Some(t) && q.armor == p.armor && q.maxHealth == p.maxHealth)
      && (t.attack.None? ==> q.armor == Some(t) && q.weapon == p.weapon && q.maxHealth == BaseMaxHealth + t.defense.value)
  {
  }

  lemma EquipOk(p: Player, t: Tool)
    requires PlayerOk(p) && t in p.inventory
    ensures PlayerOk(EquipTool(p, t))
  {
    var q := EquipTool(p, t);
    forall u | u in q.inventory ensures SlotAgrees(q.weapon, u) && SlotAgrees(q.armor, u) {
      if u.id == t.id {
        var i :| 0 <= i < |p.inventory| && p.inventory[i] == u;
        var j :| 0 <= j < |p.inventory| && p.inventory[j] == t;
        assert i == j;
      }
    }
  }

  /** The armor slot of a player the shell holds never carries an attack: the counter-attack cannot happen. */
  lemma ArmorNeverCounters(p: Player)
    requires PlayerOk(p)
    ensures !BattleEngine.Counters(p.armor)
  {
  }

  function UnequipTool(p: Player, slot: Slot): Player {
    match slot
    case ArmorSlot => p.(armor := None, maxHealth := BaseMaxHealth, health := BaseMaxHealth)
    case WeaponSlot => p.(weapon := None, health := p.maxHealth)
  }

  /**
   * Unequipping empties the named slot; for the armor the maximum health goes
   * back to 100. Health is then full and the inventory does not change.
   */
  lemma UnequipEffect(p: Player, slot: Slot)
    ensures var q := UnequipTool(p, slot);
      && q.health == q.maxHealth
      && q.inventory == p.inventory && q.level == p.level && q.xp == p.xp
      && (slot == ArmorSlot ==> q.armor.None? && q.weapon == p.weapon && q.maxHealth == BaseMaxHealth)
      && (slot == WeaponSlot ==> q.weapon.None? && q.armor == p.armor && q.maxHealth == p.maxHealth)
  {
  }

  lemma UnequipOk(p: Player, slot: Slot)
    requires PlayerOk(p)
    ensures PlayerOk(UnequipTool(p, slot))
  {
  }

  /** A player the shell holds can enter a battle against a freshly spawned party. */
  lemma BattleCanStart(p: Player, rolls: seq<nat>, names: seq<string>)
    requires PlayerOk(p)
    requires |rolls| == PartySize && |names| == PartySize
    requires forall i :: 0 <= i < PartySize ==> rolls[i] < 3
    ensures var party := SpawnParty(p.level, rolls, names);
      && 0 < p.maxHealth && 0 < p.health
      && (forall i :: 0 <= i < |party| ==> BattleEngine.EnemyOk(party[i]) && 0 <= party[i].level)
  {
    SpawnPartyFacts(p.level, rolls, names);
  }

  // ---------------------------------------------------------------------
  // The shell's state

  class Game {
    var player: Player
    var screen: Screen
    /** The party of the current (or last) battle. */
    var enemies: seq<Enemy>

    ghost predicate Valid()
      reads this
    {
      PlayerOk(player) && forall e :: e in enemies ==> 0 <= e.level
    }

    constructor ()
      ensures Valid()
      ensures player == InitialPlayer() && screen == Menu && enemies == []
    {
      player := InitialPlayer();
      screen := Menu;
      enemies := [];
      InitialPlayerFacts();
    }

    method StartBattle(rolls: seq<nat>, names: seq<string>)
      requires Valid()
      requires |rolls| == PartySize && |names| == PartySize
      requires forall i :: 0 <= i < PartySize ==> rolls[i] < 3
      modifies this
      ensures Valid()
      ensures enemies == SpawnParty(player.level, rolls, names)
      ensures player == old(player) && screen == InBattle
    {
      enemies := SpawnParty(player.level, rolls, names);
      screen := InBattle;
      BattleCanStart(player, rolls, names);
    }

    method EndBattleWith(won: bool, lootIsWeapon: bool, lootName: string)
      requires Valid()
      modifies this
      ensures Valid()
      ensures player == EndBattle(old(player), enemies, won, lootIsWeapon, lootName)
      ensures enemies == old(enemies) && screen == Menu
    {
      EndBattleOk(player, enemies, won, lootIsWeapon, lootName);
      player := EndBattle(player, enemies, won, lootIsWeapon, lootName);
      screen := Menu;
    }

    method OpenInventory()
      modifies this
      ensures screen == InventoryScreen
      ensures player == old(player) && enemies == old(enemies)
    {
      screen := InventoryScreen;
    }

    method BackToMenu()
      modifies this
      ensures screen == Menu
      ensures player == old(player) && enemies == old(enemies)
    {
      screen := Menu;
    }

    method Combine(t1: Tool, t2: Tool, name: string)
      requires Valid() && ToolOk(t1) && ToolOk(t2)
      modifies this
      ensures Valid()
      ensures player == CombineTools(old(player), t1, t2, name)
      ensures enemies == old(enemies) && screen == old(screen)
    {
      CombineOk(player, t1, t2, name);
      player := CombineTools(player, t1, t2, name);
    }

    method Destroy(t: Tool)
      requires Valid() && t in player.inventory
      modifies this
      ensures Valid()
      ensures player == DestroyTool(old(player), t)
      ensures enemies == old(enemies) && screen == old(screen)
    {
      DestroyOk(player, t);
      player := DestroyTool(player, t);
    }

    method Equip(t: Tool)
      requires Valid() && t in player.inventory
      modifies this
      ensures Valid()
      ensures player == EquipTool(old(player), t)
      ensures enemies == old(enemies) && screen == old(screen)
    {
      EquipOk(player, t);
      player := EquipTool(player, t);
    }

    method Unequip(slot: Slot)
      requires Valid()
      modifies this
      ensures Valid()
      ensures player == UnequipTool(old(player), slot)
      ensures enemies == old(enemies) && screen == old(screen)
    {
      UnequipOk(player, slot);
      player := UnequipTool(player, slot);
    }
  }
}
