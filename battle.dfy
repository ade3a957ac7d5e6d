/**
 * The battle screen's turn engine. A battle holds a working copy of the
 * player, the enemy party, whose turn it is, a heal cooldown, a log and, once
 * the player has fallen, the index of the death message shown.
 *
 * The rules are value-level step functions on `BattleState`; the class
 * `Battle` keeps the same state in fields (the party in an array whose enemy
 * records are overwritten in place) and each of its methods is proved to
 * perform one step.
 */
module BattleEngine {
  import opened Types

  datatype Turn = PlayerTurn | EnemyTurn

  /** One log line per action; enemies are named by their index in the party. */
  datatype LogEntry =
    | PlayerHit(target: nat, damage: int)
    | EnemyDefeated(target: nat)
    | PlayerHealed(amount: int)
    | CounterHit(attacker: nat, damage: int)
    | CounterDefeat(attacker: nat)
    | EnemyHit(attacker: nat, damage: int)

  /** What the turn dispatcher decides, in the order it checks. */
  datatype Outcome = Lost | Won | EnemyActs | AwaitPlayer

  datatype BattleState = BattleState(
    player: Player,
    enemies: seq<Enemy>,
    turn: Turn,
    log: seq<LogEntry>,
    healCooldown: int,
    deathMessage: Option<nat>)

  /** Turns the heal stays unavailable after being used. */
  const HealCooldownTurns: int := 2
  /** Size of the pool of death messages. */
  const DeathMessageCount: nat := 10

  /** An enemy is defeated exactly when its health is 0. */
  predicate EnemyOk(e: Enemy) {
    0 <= e.health && (e.isDefeated <==> e.health == 0) && 0 <= e.level && 0 <= e.attack
  }

  /** The weapon's attack, or 1 unarmed. */
  function WeaponDamage(weapon: Option<Tool>): (d: int)
    requires weapon.Some? ==> weapon.value.attack.Some?
    ensures 0 <= d
    ensures weapon.Some? ==> d == weapon.value.attack.value
    ensures weapon.None? ==> d == 1
  {
    if weapon.Some? then weapon.value.attack.value else 1
  }

  /** An enemy takes `damage`, floored at 0, and is marked defeated when that leaves it at 0. */
  function Strike(e: Enemy, damage: int): (r: Enemy)
    ensures r.health == Max(0, e.health - damage)
    ensures r.isDefeated <==> e.isDefeated || r.health == 0
    ensures 0 <= damage && 0 <= e.health ==> 0 <= r.health <= e.health
    ensures r.health == 0 <==> e.health <= damage
    ensures r.(health := e.health, isDefeated := e.isDefeated) == e
  {
    var health := Max(0, e.health - damage);
    e.(health := health, isDefeated := if health == 0 then true else e.isDefeated)
  }

  /** `filter(e => !e.isDefeated)` from position `k` on, as party indices. */
  function AliveFrom(es: seq<Enemy>, k: nat): (r: seq<nat>)
    requires k <= |es|
    ensures forall i :: i in r <==> k <= i < |es| && !es[i].isDefeated
    ensures forall j :: 0 <= j < |r| ==> k <= r[j] < |es| && !es[r[j]].isDefeated
    ensures forall a, b :: 0 <= a < b < |r| ==> r[a] < r[b]
    decreases |es| - k
  {
    if k == |es| then []
    else if es[k].isDefeated then AliveFrom(es, k + 1)
    else [k] + AliveFrom(es, k + 1)
  }

  /** The indices of the enemies still standing, in party order. */
  function AliveIndices(es: seq<Enemy>): (r: seq<nat>)
    ensures forall i :: i in r <==> 0 <= i < |es| && !es[i].isDefeated
    ensures forall j :: 0 <= j < |r| ==> r[j] < |es| && !es[r[j]].isDefeated
    ensures forall a, b :: 0 <= a < b < |r| ==> r[a] < r[b]
  {
    AliveFrom(es, 0)
  }

  predicate AllDefeated(es: seq<Enemy>) {
    forall i :: 0 <= i < |es| ==> es[i].isDefeated
  }

  /** The enemy to act can be drawn exactly when some enemy still stands. */
  lemma AliveIffNotAllDefeated(es: seq<Enemy>)
    ensures |AliveIndices(es)| > 0 <==> !AllDefeated(es)
  {
    var r := AliveIndices(es);
    if |r| > 0 {
      assert r[0] in r;
    }
    if !AllDefeated(es) {
      var i :| 0 <= i < |es| && !es[i].isDefeated;
      assert i in r;
    }
  }

  /** The counter-attack of the equipped armor: `armor && armor.attack`, so an absent or zero attack gives none. */
  function CounterDamage(armor: Option<Tool>): nat {
    if armor.Some? then OrZero(armor.value.attack) else 0
  }

  predicate Counters(armor: Option<Tool>) {
    CounterDamage(armor) != 0
  }

  /**
   * The acting enemy after the armor's counter-attack, and the damage it deals:
   * its attack plus its level, or 0 when the counter-attack defeats it.
   */
  function Retaliate(e: Enemy, armor: Option<Tool>): (r: (Enemy, int))
    ensures !Counters(armor) ==> r.0 == e
    ensures Counters(armor) ==> r.0 == Strike(e, CounterDamage(armor))
    ensures EnemyOk(e) && !e.isDefeated ==>
      (r.0.isDefeated <==> Counters(armor) && e.health <= CounterDamage(armor))
    ensures EnemyOk(e) && !e.isDefeated ==>
      r.1 == (if r.0.isDefeated then 0 else e.attack + e.level)
  {
    if Counters(armor) then
      var struck := Strike(e, CounterDamage(armor));
      (struck, if struck.health == 0 then 0 else e.attack + e.level)
    else
      (e, e.attack + e.level)
  }

  /**
   * The one log line an enemy turn leaves: each message replaces the previous
   * one, so the last applicable of counter, counter defeat and hit remains.
   */
  function EnemyTurnLog(k: nat, armor: Option<Tool>, after: Enemy, taken: int): (r: seq<LogEntry>)
    ensures |r| <= 1
    ensures taken > 0 ==> r == [EnemyHit(k, taken)]
    ensures !Counters(armor) && taken <= 0 ==> r == []
    ensures Counters(armor) && taken <= 0 && after.health == 0 ==> r == [CounterDefeat(k)]
    ensures Counters(armor) && taken <= 0 && after.health != 0 ==> r == [CounterHit(k, CounterDamage(armor))]
  {
    if taken > 0 then [EnemyHit(k, taken)]
    else if Counters(armor) then
      (if after.health == 0 then [CounterDefeat(k)] else [CounterHit(k, CounterDamage(armor))])
    else []
  }

  /** The heal cooldown elapses by one turn. */
  function Tick(c: int): (r: int)
    ensures 0 <= c ==> 0 <= r <= c && r == Max(0, c - 1)
    ensures r == c <==> c <= 0
  {
    if c > 0 then c - 1 else c
  }

  /** The health after healing: raised by ten per level, capped at the maximum. */
  function HealedHealth(p: Player): (h: int)
    ensures h <= p.maxHealth
    ensures h <= p.health + p.level * 10
    ensures h == p.maxHealth || h == p.health + p.level * 10
  {
    Min(p.health + p.level * 10, p.maxHealth)
  }

  /** The invariant every reachable battle state keeps. */
  predicate Sound(s: BattleState) {
    && 1 <= s.player.level
    && 0 < s.player.maxHealth
    && 0 <= s.player.health
    && (s.player.weapon.Some? ==> s.player.weapon.value.attack.Some?)
    && (forall i :: 0 <= i < |s.enemies| ==> EnemyOk(s.enemies[i]))
    && 0 <= s.healCooldown <= HealCooldownTurns
    && (s.deathMessage.Some? <==> s.player.health == 0)
    && (s.deathMessage.Some? ==> s.deathMessage.value < DeathMessageCount && s.turn == EnemyTurn)
  }

  /** The attack buttons: shown on the player's turn, for enemies not yet defeated. */
  predicate CanAttack(s: BattleState, i: nat) {
    s.turn == PlayerTurn && i < |s.enemies| && !s.enemies[i].isDefeated
  }

  /** The heal button: shown on the player's turn, enabled when the cooldown is 0. */
  predicate CanHeal(s: BattleState) {
    s.turn == PlayerTurn && s.healCooldown == 0
  }

  /** A battle starts on the player's turn with an empty log and no cooldown. */
  function Start(p: Player, party: seq<Enemy>): (s: BattleState)
    ensures s.turn == PlayerTurn && s.log == [] && s.healCooldown == 0 && s.deathMessage.None?
    ensures s.player == p && s.enemies == party
  {
    BattleState(p, party, PlayerTurn, [], 0, None)
  }

  /** The player attacks the enemy at index `i`. */
  function AttackStep(s: BattleState, i: nat): BattleState
    requires i < |s.enemies|
    requires s.player.weapon.Some? ==> s.player.weapon.value.attack.Some?
  {
    var damage := WeaponDamage(s.player.weapon);
    var target := Strike(s.enemies[i], damage);
    s.(enemies := s.enemies[i := target],
       log := s.log + [if target.health == 0 then EnemyDefeated(i) else PlayerHit(i, damage)],
       turn := EnemyTurn,
       healCooldown := Tick(s.healCooldown))
  }

  /** The player heals. */
  function HealStep(s: BattleState): BattleState {
    var amount := s.player.level * 10;
    s.(player := s.player.(health := HealedHealth(s.player)),
       log := s.log + [PlayerHealed(amount)],
       turn := EnemyTurn,
       healCooldown := HealCooldownTurns)
  }

  /**
   * One enemy action: `pick` is the random draw among the standing enemies,
   * `deathPick` the random draw among the death messages.
   */
  function EnemyTurnStep(s: BattleState, pick: nat, deathPick: nat): BattleState
    requires pick < |AliveIndices(s.enemies)|
  {
    var k := AliveIndices(s.enemies)[pick];
    var (acted, taken) := Retaliate(s.enemies[k], s.player.armor);
    var health := Max(0, s.player.health - taken);
    var s' := s.(enemies := s.enemies[k := acted],
                 player := s.player.(health := health),
                 log := s.log + EnemyTurnLog(k, s.player.armor, acted, taken));
    if health <= 0 then s'.(deathMessage := Some(deathPick))
    else s'.(turn := PlayerTurn, healCooldown := Tick(s.healCooldown))
  }

  /** The effect that runs after every change: defeat first, then victory, then the enemy's turn. */
  function Decide(s: BattleState): (o: Outcome)
    ensures o == Lost <==> s.player.health <= 0
    ensures o == Won <==> s.player.health > 0 && AllDefeated(s.enemies)
    ensures o == EnemyActs <==> s.player.health > 0 && !AllDefeated(s.enemies) && s.turn == EnemyTurn
  {
    if s.player.health <= 0 then Lost
    else if AllDefeated(s.enemies) then Won
    else if s.turn == EnemyTurn then EnemyActs
    else AwaitPlayer
  }

  /** The state after the dispatcher has run: only an enemy turn changes anything. */
  function DispatchStep(s: BattleState, pick: nat, deathPick: nat): BattleState
    requires Decide(s) == EnemyActs ==> pick < |AliveIndices(s.enemies)|
  {
    if Decide(s) == EnemyActs then EnemyTurnStep(s, pick, deathPick) else s
  }

  // ---------------------------------------------------------------------
  // Properties of the rules

  /** An attack changes only its target, by the weapon's damage (1 unarmed) floored at 0, and passes the turn. */
  lemma AttackEffect(s: BattleState, i: nat)
    requires Sound(s) && CanAttack(s, i)
    ensures var s' := AttackStep(s, i);
      && |s'.enemies| == |s.enemies|
      && s'.enemies[i].health == Max(0, s.enemies[i].health - WeaponDamage(s.player.weapon))
      && (s'.enemies[i].isDefeated <==> s'.enemies[i].health == 0)
      && s'.enemies[i] == s.enemies[i].(health := s'.enemies[i].health, isDefeated := s'.enemies[i].isDefeated)
      && (forall j :: 0 <= j < |s.enemies| && j != i ==> s'.enemies[j] == s.enemies[j])
      && s'.player == s.player
      && s'.turn == EnemyTurn
      && s'.healCooldown == (if s.healCooldown > 0 then s.healCooldown - 1 else 0)
      && |s'.log| == |s.log| + 1
      && s'.log[..|s.log|] == s.log
      && s'.log == s.log + [if s'.enemies[i].health == 0 then EnemyDefeated(i) else PlayerHit(i, WeaponDamage(s.player.weapon))]
  {
  }

  lemma AttackSound(s: BattleState, i: nat)
    requires Sound(s) && CanAttack(s, i)
    ensures Sound(AttackStep(s, i))
  {
    var s' := AttackStep(s, i);
    forall j | 0 <= j < |s'.enemies| ensures EnemyOk(s'.enemies[j]) {
      assert EnemyOk(s.enemies[j]);
    }
  }

  /** Healing never exceeds the maximum, starts the cooldown and passes the turn. */
  lemma HealEffect(s: BattleState)
    requires Sound(s) && CanHeal(s)
    ensures var s' := HealStep(s);
      && s'.player.health == Min(s.player.health + s.player.level * 10, s.player.maxHealth)
      && 0 < s'.player.health <= s'.player.maxHealth
      && s'.player.(health := s.player.health) == s.player
      && s'.enemies == s.enemies
      && s'.log == s.log + [PlayerHealed(s.player.level * 10)]
      && s'.healCooldown == HealCooldownTurns
      && s'.turn == EnemyTurn
      && Sound(s')
  {
  }

  /** The acting enemy is one still standing, and nobody else in the party changes. */
  lemma EnemyTurnPicksStanding(s: BattleState, pick: nat, deathPick: nat)
    requires Sound(s) && pick < |AliveIndices(s.enemies)|
    ensures var k := AliveIndices(s.enemies)[pick];
      var s' := EnemyTurnStep(s, pick, deathPick);
      && 0 <= k < |s.enemies| && !s.enemies[k].isDefeated
      && |s'.enemies| == |s.enemies|
      && (forall j :: 0 <= j < |s.enemies| && j != k ==> s'.enemies[j] == s.enemies[j])
  {
    var r := AliveIndices(s.enemies);
    assert r[pick] in r;
  }

  /**
   * The enemy's raw damage is its attack plus its level. Armor with a nonzero
   * attack strikes back first; if that defeats the enemy, the player takes nothing.
   */
  lemma EnemyTurnDamage(s: BattleState, pick: nat, deathPick: nat)
    requires Sound(s) && pick < |AliveIndices(s.enemies)|
    ensures var k := AliveIndices(s.enemies)[pick];
      var e := s.enemies[k];
      var s' := EnemyTurnStep(s, pick, deathPick);
      var taken := if Counters(s.player.armor) && e.health <= CounterDamage(s.player.armor) then 0
                   else e.attack + e.level;
      && s'.player.health == Max(0, s.player.health - taken)
      && s'.player.(health := s.player.health) == s.player
      && (Counters(s.player.armor) ==>
            && s'.enemies[k].health == Max(0, e.health - CounterDamage(s.player.armor))
            && s'.enemies[k] == e.(health := s'.enemies[k].health, isDefeated := s'.enemies[k].isDefeated))
      && (!Counters(s.player.armor) ==> s'.enemies[k] == e)
      && (s'.enemies[k].isDefeated <==>
            Counters(s.player.armor) && e.health <= CounterDamage(s.player.armor))
      && s'.log[..|s.log|] == s.log
      && (taken > 0 ==> s'.log == s.log + [EnemyHit(k, taken)])
      && (Counters(s.player.armor) && e.health <= CounterDamage(s.player.armor) ==>
            s'.log == s.log + [CounterDefeat(k)])
      && (Counters(s.player.armor) && e.health > CounterDamage(s.player.armor) && taken <= 0 ==>
            s'.log == s.log + [CounterHit(k, CounterDamage(s.player.armor))])
      && (!Counters(s.player.armor) && taken <= 0 ==> s'.log == s.log)
  {
    var r := AliveIndices(s.enemies);
    assert r[pick] in r;
    var k := r[pick];
    assert EnemyOk(s.enemies[k]);
  }

  /**
   * After the enemy acts, a player at 0 gets a death message and the turn stays
   * with the enemy; a surviving player gets the turn back and the cooldown elapses.
   */
  lemma EnemyTurnEnds(s: BattleState, pick: nat, deathPick: nat)
    requires Sound(s) && pick < |AliveIndices(s.enemies)| && deathPick < DeathMessageCount
    requires s.turn == EnemyTurn && s.player.health > 0
    ensures var s' := EnemyTurnStep(s, pick, deathPick);
      && Sound(s')
      && (s'.player.health == 0 ==>
            s'.deathMessage == Some(deathPick) && s'.turn == EnemyTurn && s'.healCooldown == s.healCooldown)
      && (s'.player.health > 0 ==>
            s'.deathMessage.None? && s'.turn == PlayerTurn && s'.healCooldown == Tick(s.healCooldown))
      && |s'.log| <= |s.log| + 1
  {
    var r := AliveIndices(s.enemies);
    assert r[pick] in r;
    var k := r[pick];
    assert EnemyOk(s.enemies[k]);
    var s' := EnemyTurnStep(s, pick, deathPick);
    forall j | 0 <= j < |s'.enemies| ensures EnemyOk(s'.enemies[j]) {
      assert EnemyOk(s.enemies[j]);
    }
  }

  /** Dispatch order: a fallen player halts everything, then victory, and only then may an enemy act. */
  lemma DispatchOrder(s: BattleState, pick: nat, deathPick: nat)
    requires Decide(s) == EnemyActs ==> pick < |AliveIndices(s.enemies)|
    ensures s.player.health <= 0 ==> DispatchStep(s, pick, deathPick) == s
    ensures s.player.health > 0 && AllDefeated(s.enemies) ==>
      Decide(s) == Won && DispatchStep(s, pick, deathPick) == s
    ensures s.turn == PlayerTurn ==> DispatchStep(s, pick, deathPick) == s
  {
  }

  /** After an enemy has acted the dispatcher never lets a second one act: it waits, or the battle is over. */
  lemma OneEnemyPerTurn(s: BattleState, pick: nat, deathPick: nat)
    requires Sound(s) && Decide(s) == EnemyActs && pick < |AliveIndices(s.enemies)|
    requires deathPick < DeathMessageCount
    ensures Decide(EnemyTurnStep(s, pick, deathPick)) != EnemyActs
  {
    EnemyTurnEnds(s, pick, deathPick);
  }

  /** Once the player has fallen no action is offered and the dispatcher changes nothing. */
  lemma DefeatIsFinal(s: BattleState, i: nat, pick: nat, deathPick: nat)
    requires Sound(s) && s.player.health <= 0
    ensures !CanAttack(s, i) && !CanHeal(s)
    ensures Decide(s) == Lost && DispatchStep(s, pick, deathPick) == s
  {
  }

  /** A surviving enemy turn after a heal leaves the heal unavailable: two heals need an attack between them. */
  lemma NoHealTwiceInARow(s: BattleState, pick: nat, deathPick: nat)
    requires Sound(s) && CanHeal(s)
    requires pick < |AliveIndices(HealStep(s).enemies)| && deathPick < DeathMessageCount
    ensures var s' := EnemyTurnStep(HealStep(s), pick, deathPick);
      s'.turn == PlayerTurn ==> !CanHeal(s') && s'.healCooldown == 1
  {
    HealEffect(s);
    EnemyTurnEnds(HealStep(s), pick, deathPick);
  }

  /** The same enemy struck `n` times for `damage`. */
  function StrikeTimes(e: Enemy, damage: int, n: nat): Enemy {
    if n == 0 then e else Strike(StrikeTimes(e, damage, n - 1), damage)
  }

  /** Repeated hits lower an enemy's health by the total damage, floored at 0. */
  lemma {:induction false} StrikeTimesHealth(e: Enemy, damage: nat, n: nat)
    requires EnemyOk(e)
    ensures StrikeTimes(e, damage, n).health == Max(0, e.health - n * damage)
    ensures StrikeTimes(e, damage, n).isDefeated <==> e.health <= n * damage
  {
    if n > 0 {
      StrikeTimesHealth(e, damage, n - 1);
      assert n * damage == (n - 1) * damage + damage;
    }
  }

  /** With a weapon of attack 5 an enemy of health 60 stands after 11 hits and is defeated by the 12th. */
  lemma TwelveHitsDefeat(e: Enemy)
    requires EnemyOk(e) && e.health == 60
    ensures !StrikeTimes(e, 5, 11).isDefeated && StrikeTimes(e, 5, 11).health == 5
    ensures StrikeTimes(e, 5, 12).isDefeated && StrikeTimes(e, 5, 12).health == 0
  {
    StrikeTimesHealth(e, 5, 11);
    StrikeTimesHealth(e, 5, 12);
  }

  // ---------------------------------------------------------------------
  // The battle screen's state

  class Battle {
    /** The working copy of the player (only its health changes during a battle). */
    var player: Player
    /** The party; the enemy records are overwritten in place. */
    const enemies: array<Enemy>
    var turn: Turn
    var log: seq<LogEntry>
    var healCooldown: int
    var deathMessage: Option<nat>

    function State(): BattleState
      reads this, enemies
    {
      BattleState(player, enemies[..], turn, log, healCooldown, deathMessage)
    }

    ghost predicate Valid()
      reads this, enemies
    {
      Sound(State())
    }

    constructor (p: Player, party: seq<Enemy>)
      requires 1 <= p.level && 0 < p.maxHealth && 0 < p.health
      requires p.weapon.Some? ==> p.weapon.value.attack.Some?
      requires forall i :: 0 <= i < |party| ==> EnemyOk(party[i])
      ensures Valid() && fresh(enemies)
      ensures State() == Start(p, party)
    {
      player := p;
      enemies := new Enemy[|party|](i requires 0 <= i < |party| => party[i]);
      turn := PlayerTurn;
      log := [];
      healCooldown := 0;
      deathMessage := None;
    }

    /** The attack button of the enemy at index `i`. */
    method Attack(i: nat)
      requires Valid() && CanAttack(State(), i)
      modifies this, enemies
      ensures Valid()
      ensures State() == AttackStep(old(State()), i)
    {
      ghost var s := State();
      var damage := if player.weapon.Some? then player.weapon.value.attack.value else 1;
      var health := Max(0, enemies[i].health - damage);
      enemies[i] := enemies[i].(health := health, isDefeated := if health == 0 then true else enemies[i].isDefeated);
      if health == 0 {
        log := log + [EnemyDefeated(i)];
      } else {
        log := log + [PlayerHit(i, damage)];
      }
      turn := EnemyTurn;
      if healCooldown > 0 {
        healCooldown := healCooldown - 1;
      }
      AttackSound(s, i);
    }

    /** The heal button. */
    method Heal()
      requires Valid() && CanHeal(State())
      modifies this
      ensures Valid()
      ensures State() == HealStep(old(State()))
    {
      var amount := player.level * 10;
      var health := Min(player.health + amount, player.maxHealth);
      player := player.(health := health);
      log := log + [PlayerHealed(amount)];
      turn := EnemyTurn;
      healCooldown := HealCooldownTurns;
    }

    /** The enemy's turn. */
    method EnemyAct(pick: nat, deathPick: nat)
      requires Valid() && turn == EnemyTurn && player.health > 0
      requires pick < |AliveIndices(enemies[..])| && deathPick < DeathMessageCount
      modifies this, enemies
      ensures Valid()
      ensures State() == EnemyTurnStep(old(State()), pick, deathPick)
    {
      ghost var s := State();
      var alive := AliveIndices(enemies[..]);
      var k := alive[pick];
      assert k in alive;
      var attacking := enemies[k];
      var damageTaken := attacking.attack + attacking.level;
      var entry: seq<LogEntry> := [];
      if player.armor.Some? && OrZero(player.armor.value.attack) != 0 {
        var counter := player.armor.value.attack.value;
        attacking := attacking.(health := Max(0, attacking.health - counter));
        entry := [CounterHit(k, counter)];
        if attacking.health == 0 {
          attacking := attacking.(isDefeated := true);
          damageTaken := 0;
          entry := [CounterDefeat(k)];
        }
      }
      assert (attacking, damageTaken) == Retaliate(s.enemies[k], player.armor);
      enemies[k] := attacking;
      var newHealth := Max(0, player.health - damageTaken);
      player := player.(health := newHealth);
      if damageTaken > 0 {
        entry := [EnemyHit(k, damageTaken)];
      }
      assert entry == EnemyTurnLog(k, player.armor, attacking, damageTaken);
      log := log + entry;
      if newHealth <= 0 {
        deathMessage := Some(deathPick);
      } else {
        turn := PlayerTurn;
        if healCooldown > 0 {
          healCooldown := healCooldown - 1;
        }
      }
      EnemyTurnEnds(s, pick, deathPick);
    }

    /** The effect that runs after every change of the battle state. */
    method Dispatch(pick: nat, deathPick: nat) returns (outcome: Outcome)
      requires Valid() && deathPick < DeathMessageCount
      requires Decide(State()) == EnemyActs ==> pick < |AliveIndices(enemies[..])|
      modifies this, enemies
      ensures Valid()
      ensures outcome == Decide(old(State()))
      ensures State() == DispatchStep(old(State()), pick, deathPick)
    {
      if player.health <= 0 {
        outcome := Lost;
      } else if forall i :: 0 <= i < enemies.Length ==> enemies[i].isDefeated {
        outcome := Won;
      } else if turn == EnemyTurn {
        outcome := EnemyActs;
        EnemyAct(pick, deathPick);
      } else {
        outcome := AwaitPlayer;
      }
    }
  }
}
