# Combination RPG: battle, inventory and progression rules in Dafny

This project models the rules of a small turn-based browser RPG. It does not model the screens. The player fights parties of three enemies, levels up from the experience won, and manages an inventory of weapons and armor. Same-tier tools can be combined into a stronger one, and tools can be destroyed for experience.

- `types.dfy` (module `Types`) holds the records:
  - `Tool` has an optional attack and an optional defense.
  - `Player` has a nullable armor slot and a nullable weapon slot.
  - `Enemy` is the record the battle updates.
  - The game compares tools by reference. Each tool therefore carries an `id`, and every match is a match on ids. `Remove` models the `filter(t => t !== …)` the game uses.
- `battle.dfy` (module `BattleEngine`) is the battle screen's turn engine.
  - The rules are step functions on a `BattleState` value: `AttackStep`, `HealStep`, `EnemyTurnStep`, and `Decide`/`DispatchStep` for the effect that runs after every change.
  - The class `Battle` keeps the same state in fields. The party lives in an array whose enemy records are overwritten in place.
  - Each method of the class is proved to perform exactly one step: `State() == Step(old(State()))`.
  - `Sound` is the invariant every step keeps:
    - the player's level is at least 1, the maximum health positive and the health never negative;
    - an equipped weapon has an attack;
    - every enemy has non-negative health, level and attack, and is defeated exactly when its health is 0;
    - the heal cooldown stays in 0..2;
    - a death message is set exactly when the player's health is 0; it is one of the 10 messages, and the turn then stays with the enemy.
- `app.dfy` (module `App`) holds the shell's rules. It has the initial player, the party spawn, the end of a battle, and combine / destroy / equip / unequip, each a function from `Player` to `Player`.
  - `PlayerOk` is the invariant all of them keep:
    - the experience is never negative, and the level is at least 1 and never runs ahead of the experience;
    - the health is positive;
    - the weapon slot holds only a tool with an attack;
    - the maximum health is 100 plus the equipped armor's defense;
    - the armor slot never holds a tool with an attack;
    - inventory ids are unique, and every inventory tool has a positive tier and at least one stat;
    - an equipped tool with the id of an inventory entry is that very entry (`SlotAgrees`).
  - The class `Game` holds the shell's `player`, screen and `enemies` state cells.
  - New tools get `NextId`, an id larger than any the player holds. This stands for allocating a fresh object.
- `inventory.dfy` (module `Inventory`) is the selection of two tools to combine. The class `Selection` holds the `selectedTools` list.

Random draws are parameters with range preconditions:
- `pick` is the index among the standing enemies.
- `deathPick` is the index into the 10 death messages.
- `rolls` are the draws that set the spawned enemies' levels. Each is in 0..2, and enemy `i` gets level `playerLevel + rolls[i] - 1`, so its offset is -1, 0 or 1.
- `lootIsWeapon` decides whether the loot is a weapon or an armor.

Generated names are plain string parameters.

Behaviour of the code worth knowing, which the model keeps as written:
- **Destroying the equipped armor.** The maximum health drops back to 100 but, unlike unequipping, the health is left as it was, so health can exceed the maximum (`App.DestroyArmorKeepsHealth`).
- **Illegal battle actions.** Attacking a defeated enemy and healing on cooldown are not refused by the battle code; only the screen hides the buttons. The model makes them preconditions (`CanAttack`, `CanHeal`).
- **The combined tool.** Its name marks it as an armor, but it always has both stats defined. Equip sends any tool with a defined attack to the weapon slot, so a combined tool is always equipped as a weapon (`App.CombinedEquipsAsWeapon`). Two combined armors make a weapon that deals 0 damage (`App.CombinedArmorsMakeHarmlessWeapon`).
- **The armor counter-attack.** For the same reason the armor slot never holds a tool with an attack, so the counter-attack can never fire for a player built by these rules (`App.ArmorNeverCounters`). The battle engine still models it in full.
- **Destroy.** It removes every entry with the tool's identity. With unique identities that is exactly one entry (`App.DestroyCount`).

## Model

| member | source | states |
|---|---|---|
| `Types.Remove` | src/App.tsx:115 | the result keeps exactly the entries whose identity is not removed, and is no longer than the input |
| `Types.RemoveAt` | src/App.tsx:115 | in a list without duplicates, filtering out the identity at one position drops exactly that entry and keeps the rest in order |
| `BattleEngine.WeaponDamage` | src/components/Battle.tsx:33 | the player's damage is the weapon's attack, or exactly 1 unarmed, never negative |
| `BattleEngine.Strike` | src/components/Battle.tsx:35-37 | health becomes max(0, health − damage); the enemy is defeated iff it was or is now at 0; health is 0 iff the damage reached the old health; no other field changes |
| `BattleEngine.AliveIndices` | src/components/Battle.tsx:62 | an index is in the list iff it names a non-defeated enemy; the list is in party order |
| `BattleEngine.AliveIffNotAllDefeated` | src/components/Battle.tsx:62-63 | an acting enemy can be drawn exactly when not all enemies are defeated |
| `BattleEngine.Retaliate` | src/components/Battle.tsx:64-76 | without a counter-capable armor the enemy is unchanged; with one it takes the armor's attack. It is defeated iff the counter reaches its health, and then it deals 0, otherwise attack + level |
| `BattleEngine.Counters` | src/components/Battle.tsx:67 | no contract of its own; the armor counters iff it has a nonzero attack; `Retaliate` and `EnemyTurnDamage` state its use |
| `BattleEngine.CounterDamage` | src/components/Battle.tsx:68 | no contract of its own; the armor's attack, 0 when missing; `EnemyTurnDamage` states the health it takes off |
| `BattleEngine.EnemyTurnLog` | src/components/Battle.tsx:67-86 | an enemy turn leaves at most one log line, the last message that applies: the hit when damage is dealt; otherwise the counter-defeat line when the counter left the enemy at 0, the counter line when it did not, and no line without a counter |
| `BattleEngine.Tick` | src/components/Battle.tsx:44-46 | a non-negative cooldown drops by exactly 1, floored at 0; it changes exactly when it is positive |
| `BattleEngine.HealedHealth` | src/components/Battle.tsx:50-51 | healed health is at most the maximum, and is either the maximum or the old health plus 10 per level |
| `BattleEngine.Start` | src/components/Battle.tsx:13-18 | a battle starts on the player's turn with an empty log, no cooldown and no death message |
| `BattleEngine.Decide` | src/components/Battle.tsx:20-30 | lost iff health ≤ 0; won iff alive and every enemy is defeated; an enemy acts iff alive, some enemy stands and it is the enemy's turn |
| `BattleEngine.CanAttack` | src/components/Battle.tsx:135-140 | no contract of its own; the attack button's guard (player's turn, enemy not defeated); `Battle.Attack` requires it and `DefeatIsFinal` uses it |
| `BattleEngine.CanHeal` | src/components/Battle.tsx:149-157 | no contract of its own; the heal button's guard (player's turn, cooldown 0); `Battle.Heal` requires it and `NoHealTwiceInARow` states when it fails |
| `BattleEngine.AttackStep` | src/components/Battle.tsx:32-47 | no contract of its own; `AttackEffect` and `AttackSound` state its behaviour |
| `BattleEngine.HealStep` | src/components/Battle.tsx:49-59 | no contract of its own; `HealEffect` states its behaviour |
| `BattleEngine.EnemyTurnStep` | src/components/Battle.tsx:61-108 | no contract of its own; `EnemyTurnPicksStanding`, `EnemyTurnDamage` and `EnemyTurnEnds` state its behaviour |
| `BattleEngine.DispatchStep` | src/components/Battle.tsx:20-30 | no contract of its own; `DispatchOrder`, `OneEnemyPerTurn` and `DefeatIsFinal` state its behaviour |
| `BattleEngine.AttackEffect` | src/components/Battle.tsx:32-47 | only the target changes, and only in health and defeat: health drops by the weapon's damage floored at 0, defeated iff its health is 0; the turn passes to the enemy; the cooldown drops by 1 when positive; the old log is kept and one line is appended: the defeat line when the target is left at 0, otherwise the hit line with the damage dealt |
| `BattleEngine.AttackSound` | src/components/Battle.tsx:35-43 | an attack keeps the battle invariant |
| `BattleEngine.HealEffect` | src/components/Battle.tsx:49-59 | health becomes min(health + 10·level, max) and stays positive; the cooldown becomes 2; the turn passes; the old log gets one heal line of 10·level appended; nothing else changes |
| `BattleEngine.EnemyTurnPicksStanding` | src/components/Battle.tsx:62-63 | the acting enemy is a non-defeated one and no other enemy changes |
| `BattleEngine.EnemyTurnDamage` | src/components/Battle.tsx:64-82 | the player takes attack + level, or 0 when the armor's counter defeats the enemy, floored at 0, and nothing else of the player changes. The counter lowers the enemy's health by the armor's attack, floored at 0, and changes nothing but its health and defeat. The enemy ends defeated iff the counter reached its health. The old log is kept; the line appended is the hit when damage is dealt, the counter-defeat line when the counter defeats, the counter line when it hits without damage following, and nothing otherwise |
| `BattleEngine.EnemyTurnEnds` | src/components/Battle.tsx:88-107 | at 0 health the death message is set, the turn stays with the enemy and the cooldown stays; otherwise the turn returns to the player and the cooldown elapses; the invariant holds |
| `BattleEngine.DispatchOrder` | src/components/Battle.tsx:20-30 | a fallen player halts everything; then victory, with no enemy acting; on the player's turn nothing happens |
| `BattleEngine.OneEnemyPerTurn` | src/components/Battle.tsx:27-29 | after an enemy has acted, the dispatcher never runs a second enemy turn |
| `BattleEngine.DefeatIsFinal` | src/components/Battle.tsx:21-23 | once the player is at 0 no attack or heal is offered and dispatch changes nothing |
| `BattleEngine.NoHealTwiceInARow` | src/components/Battle.tsx:58 | after a heal and a survived enemy turn the cooldown is 1, so the heal is not offered |
| `BattleEngine.StrikeTimesHealth` | src/components/Battle.tsx:35-37 | n hits of d leave health max(0, h − n·d), and the enemy is defeated iff n·d ≥ h |
| `BattleEngine.TwelveHitsDefeat` | src/components/Battle.tsx:33-37 | an enemy with 60 health survives 11 hits of 5 and falls to the 12th |
| `BattleEngine.Battle.constructor` | src/components/Battle.tsx:13-18 | the fields are the start state and the invariant holds |
| `BattleEngine.Battle.Attack` | src/components/Battle.tsx:32-47 | updates the fields and the enemy array in place exactly as `AttackStep` |
| `BattleEngine.Battle.Heal` | src/components/Battle.tsx:49-59 | updates the fields exactly as `HealStep` |
| `BattleEngine.Battle.EnemyAct` | src/components/Battle.tsx:61-108 | updates the fields and the acting enemy in place exactly as `EnemyTurnStep` |
| `BattleEngine.Battle.Dispatch` | src/components/Battle.tsx:20-30 | returns the outcome `Decide` gives for the old state and performs `DispatchStep` |
| `App.InitialPlayerFacts` | src/App.tsx:8-19 | the initial player is level 1 with 0 experience, health = max = 100, nothing equipped, and two tier-1 tools: an armor of defense 10 without attack and a sword of attack 5 without defense; it satisfies the invariant |
| `App.InitialPlayer` | src/App.tsx:8-19 | no contract of its own; `InitialPlayerFacts` states its value |
| `App.NextId` | src/App.tsx:91-96 | a new tool's identity differs from every inventory and equipped tool |
| `App.SpawnParty` | src/App.tsx:47-58 | the party has exactly 3 enemies |
| `App.SpawnEnemy` | src/App.tsx:49-57 | no contract of its own; `SpawnPartyFacts` states each spawned enemy |
| `App.SpawnPartyFacts` | src/App.tsx:47-58 | enemy i's level is the player's level + rolls[i] − 1, so within one of the player's, and its name is names[i]; health = max = 50 + 10·level; attack = 3 + 2·level; not defeated; ready for battle |
| `App.XpReward` | src/App.tsx:65 | the reward is never negative for enemies of non-negative level |
| `App.XpRewardExample` | src/App.tsx:65 | enemies of levels 2, 3, 4 give 90 experience |
| `App.SpawnedXpRange` | src/App.tsx:48-65 | a spawned party gives between 30·(level − 1) and 30·(level + 1) experience |
| `App.Loot` | src/App.tsx:69-71 | the loot is tier 1 with the given identity: a weapon of attack 5 and no defense iff the draw says weapon, else an armor of defense 10 and no attack |
| `App.EndBattle` | src/App.tsx:63-87 | no contract of its own; `EndBattleEffect`, `LevelNeverDecreases` and `EndBattleOk` state its behaviour |
| `App.EndBattleEffect` | src/App.tsx:63-87 | on victory: experience += sum of 10·level; level = xp/100 + 1; health = max; the old inventory kept and exactly one new tool appended, the `Loot` of the draw with a new identity; equipment unchanged. On defeat only the health changes, to the maximum |
| `App.LevelNeverDecreases` | src/App.tsx:65-67 | the level after a battle is never below the level before |
| `App.EndBattleOk` | src/App.tsx:63-87 | the end of a battle keeps the player invariant |
| `App.CombineEffect` | src/App.tsx:89-102 | with equal tiers below 3, the inventory becomes the old inventory filtered (in order) of both inputs' identities, then one new tool: a tier up, attack and defense both defined and summed (missing = 0), new identity. Otherwise nothing changes. Slots, health and experience never change |
| `App.Combinable` | src/App.tsx:90 | no contract of its own; equal tiers below 3; `CombineEffect` states both outcomes |
| `App.Combined` | src/App.tsx:91-96 | no contract of its own; `CombineEffect` and `CombinedEquipsAsWeapon` state the new tool |
| `App.CombineTools` | src/App.tsx:89-102 | no contract of its own; `CombineEffect`, `CombineCount` and `CombineOk` state its behaviour |
| `App.CombineCount` | src/App.tsx:99 | combining two distinct inventory tools shrinks the inventory by exactly one |
| `App.CombinedEquipsAsWeapon` | src/App.tsx:123 | equipping a combined tool always fills the weapon slot and leaves the armor |
| `App.CombinedArmorsMakeHarmlessWeapon` | src/App.tsx:91-96 | two tier-1 armors of defense 10 give a tier-2 tool of attack 0 and defense 20 that equips as a weapon dealing 0 damage |
| `App.CombineOk` | src/App.tsx:89-102 | combining keeps the player invariant |
| `App.DestroyEffect` | src/App.tsx:104-118 | experience += 50·tier; level and health unchanged; no entry with the identity remains, and all others do; the slot holding it is cleared and the other slot kept; the maximum resets to 100 iff the equipped armor is destroyed, else it is unchanged |
| `App.DestroyTool` | src/App.tsx:104-118 | no contract of its own; `DestroyEffect`, `DestroyKeepsOrder`, `DestroyCount` and `DestroyOk` state its behaviour |
| `App.DestroyKeepsOrder` | src/App.tsx:115 | destroying the tool at position i of an inventory without duplicates leaves exactly the other entries, in their order |
| `App.DestroyCount` | src/App.tsx:115 | destroying an inventory tool removes exactly one entry, equipped or not |
| `App.DestroyArmorKeepsHealth` | src/App.tsx:110-113 | destroying the equipped armor can leave health above the new maximum of 100 |
| `App.DestroyOk` | src/App.tsx:104-118 | destroying an inventory tool keeps the player invariant |
| `App.EquipEffect` | src/App.tsx:120-132 | a tool with attack becomes the weapon; any other becomes the armor with max = 100 + defense; health = max; inventory, level and experience unchanged |
| `App.EquipTool` | src/App.tsx:120-132 | no contract of its own; `EquipEffect` and `EquipOk` state its behaviour |
| `App.EquipOk` | src/App.tsx:120-132 | equipping an inventory tool keeps the player invariant |
| `App.ArmorNeverCounters` | src/App.tsx:123-128 | the armor slot of a player built by these rules never gives a counter-attack |
| `App.UnequipEffect` | src/App.tsx:134-144 | the named slot is emptied; for the armor max = 100; health = max; inventory unchanged |
| `App.UnequipTool` | src/App.tsx:134-144 | no contract of its own; `UnequipEffect` and `UnequipOk` state its behaviour |
| `App.UnequipOk` | src/App.tsx:134-144 | unequipping keeps the player invariant |
| `App.BattleCanStart` | src/App.tsx:46-61 | a valid player has positive health and maximum, and every spawned enemy is battle-ready |
| `App.Game.constructor` | src/App.tsx:22-24 | the shell starts on the menu with the initial player and no enemies |
| `App.Game.StartBattle` | src/App.tsx:46-61 | stores the spawned party, switches to the battle screen, player unchanged |
| `App.Game.EndBattleWith` | src/App.tsx:63-87 | replaces the player by `EndBattle` over the stored party and returns to the menu |
| `App.Game.OpenInventory` | src/App.tsx:153 | switches to the inventory screen, nothing else changes |
| `App.Game.BackToMenu` | src/App.tsx:174 | switches to the menu, nothing else changes |
| `App.Game.Combine` | src/App.tsx:89-102 | replaces the player by `CombineTools` and keeps the invariant |
| `App.Game.Destroy` | src/App.tsx:104-118 | replaces the player by `DestroyTool` and keeps the invariant |
| `App.Game.Equip` | src/App.tsx:120-132 | replaces the player by `EquipTool` and keeps the invariant |
| `App.Game.Unequip` | src/App.tsx:134-144 | replaces the player by `UnequipTool` and keeps the invariant |
| `Inventory.ToggleOk` | src/components/Inventory.tsx:23-29 | the selection never holds more than 2 tools, and never the same tool twice |
| `Inventory.Toggled` | src/components/Inventory.tsx:23-29 | no contract of its own; `ToggleOk`, `ToggleDeselects` and `ToggleSelects` state its behaviour |
| `Inventory.ToggleDeselects` | src/components/Inventory.tsx:24-25 | toggling a selected tool removes exactly it and keeps the others in order |
| `Inventory.ToggleSelects` | src/components/Inventory.tsx:26-28 | toggling an unselected tool appends it when fewer than 2 are selected, and is a no-op when 2 are |
| `Inventory.SelectionCombines` | src/components/Inventory.tsx:31-36 | the pair handed to combine is two distinct tools; when both are inventory entries of a combinable tier, the inventory shrinks by one |
| `Inventory.Selection.constructor` | src/components/Inventory.tsx:21 | the selection starts empty |
| `Inventory.Selection.Toggle` | src/components/Inventory.tsx:23-29 | updates the selection as `Toggled` and keeps at most two distinct tools |
| `Inventory.Selection.HandleCombine` | src/components/Inventory.tsx:31-36 | with exactly 2 selected, returns `CombineTools` on them in selection order and empties the selection; otherwise changes nothing |

## Left out

- Rendering is not modelled: all JSX, the health bar's percentage, which is floating point, and the game menu.
- Saving, loading and deleting the save are left out. They are local-storage I/O and JSON (de)serialisation.
- Name generation (`src/utils.ts`) is left out. Names are parameters, and the clamping of the enemy title index is not modelled.
- `Math.random` is left out. Each use becomes a parameter with its range as a precondition.
- React's effect scheduling is not modelled. `Dispatch` is the effect body; the caller runs it after every change, which is what the effect's dependency list amounts to.
- Log messages are not modelled as text. Each action appends at most one `LogEntry`, which names its kind and, where the message has them, its target and amount. Inside the enemy turn each message replaces the previous one, because every update is computed from the same stale log, so a turn with no counter-attack and no damage appends nothing.
- Aliasing is not modelled. The shell's enemy list and the battle's enemies are the same objects. The model copies the party into the battle's array instead. The shell only reads the enemies' levels, which the battle never changes.
- The victory write-back of the battle's player copy is left out. That copy differs from the shell's player only in health, which the end of the battle overwrites with the maximum. For the same reason the attack reads the weapon from the battle state's player, where the game reads it from the shell's player: the two weapons are the same.
- Numbers are unbounded integers, not IEEE doubles. Two cases that give `NaN` in the game are excluded by preconditions: a weapon without an attack, and equipping a tool with neither stat. The game never creates either.
- `App.CombineOk` and `App.Game.Combine` require both inputs to have a positive tier and at least one stat, as every tool the game creates does. The selection can still hand combine a tool that was destroyed after being selected. `App.CombineTools` itself accepts that, and simply removes nothing for it.
