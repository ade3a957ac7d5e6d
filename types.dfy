/**
 * The records the game rules work on: tools, the player and enemies, with the
 * identity-based removal of tools that inventory operations share.
 */
module Types {

  datatype Option<T> = None | Some(value: T)

  /** Maximum health of a player without armor. */
  const BaseMaxHealth: int := 100

  /**
   * An item. The game compares tools by reference, so two tools with equal
   * fields are still different entries; `id` stands for that identity.
   * A weapon has `attack`, an armor has `defense`, a combined tool has both.
   */
  datatype Tool = Tool(id: nat, name: string, tier: int, attack: Option<nat>, defense: Option<nat>)

  datatype Player = Player(
    level: int,
    xp: int,
    health: int,
    maxHealth: int,
    armor: Option<Tool>,
    weapon: Option<Tool>,
    inventory: seq<Tool>)

  datatype Enemy = Enemy(name: string, level: int, health: int, maxHealth: int, attack: int, isDefeated: bool)

  /** An optional stat read with `|| 0`. */
  function OrZero(o: Option<nat>): nat {
    if o.Some? then o.value else 0
  }

  function Max(a: int, b: int): int {
    if a < b then b else a
  }

  function Min(a: int, b: int): int {
    if a < b then a else b
  }

  /** Every tool the game creates has a positive tier and at least one of the two stats. */
  predicate ToolOk(t: Tool) {
    1 <= t.tier && (t.attack.Some? || t.defense.Some?)
  }

  /** No two entries of the list are the same tool. */
  predicate UniqueIds(ts: seq<Tool>) {
    forall i, j :: 0 <= i < j < |ts| ==> ts[i].id != ts[j].id
  }

  /** `includes` by identity. */
  predicate HasId(ts: seq<Tool>, id: nat) {
    exists t :: t in ts && t.id == id
  }

  /** `filter(t => t !== a && ...)`: keeps, in order, the entries whose identity is not in `ids`. */
  function Remove(ts: seq<Tool>, ids: set<nat>): (r: seq<Tool>)
    ensures |r| <= |ts|
    ensures forall t :: t in r <==> t in ts && t.id !in ids
  {
    if ts == [] then []
    else
      assert forall t :: t in ts <==> t == ts[0] || t in ts[1..];
      if ts[0].id in ids then Remove(ts[1..], ids) else [ts[0]] + Remove(ts[1..], ids)
  }

  /** Filtering distributes over concatenation: the survivors keep their relative order. */
  lemma {:induction false} RemoveAppend(a: seq<Tool>, b: seq<Tool>, ids: set<nat>)
    ensures Remove(a + b, ids) == Remove(a, ids) + Remove(b, ids)
  {
    if a == [] {
      assert a + b == b;
    } else {
      assert (a + b)[0] == a[0];
      assert (a + b)[1..] == a[1..] + b;
      RemoveAppend(a[1..], b, ids);
    }
  }

  /** Filtering out two sets of identities in one pass is filtering twice. */
  lemma {:induction false} RemoveTwice(ts: seq<Tool>, a: set<nat>, b: set<nat>)
    ensures Remove(ts, a + b) == Remove(Remove(ts, a), b)
  {
    if ts != [] {
      RemoveTwice(ts[1..], a, b);
      if ts[0].id !in a {
        var rest := Remove(ts[1..], a);
        assert Remove(ts, a) == [ts[0]] + rest;
        assert ([ts[0]] + rest)[1..] == rest;
      }
    }
  }

  /** Filtering out identities that do not occur changes nothing. */
  lemma {:induction false} RemoveAbsent(ts: seq<Tool>, ids: set<nat>)
    requires forall t :: t in ts ==> t.id !in ids
    ensures Remove(ts, ids) == ts
  {
    if ts != [] {
      assert forall t :: t in ts[1..] ==> t in ts;
      RemoveAbsent(ts[1..], ids);
      assert [ts[0]] + ts[1..] == ts;
    }
  }

  lemma UniqueTail(ts: seq<Tool>)
    requires UniqueIds(ts) && ts != []
    ensures UniqueIds(ts[1..])
    ensures forall t :: t in ts[1..] ==> t.id != ts[0].id
  {
    forall t | t in ts[1..] ensures t.id != ts[0].id {
      var k :| 0 <= k < |ts[1..]| && ts[1..][k] == t;
      assert ts[k + 1] == t;
    }
  }

  /** Filtering keeps identities unique. */
  lemma {:induction false} RemoveUnique(ts: seq<Tool>, ids: set<nat>)
    requires UniqueIds(ts)
    ensures UniqueIds(Remove(ts, ids))
  {
    if ts != [] {
      UniqueTail(ts);
      RemoveUnique(ts[1..], ids);
      if ts[0].id !in ids {
        var rest := Remove(ts[1..], ids);
        var r := [ts[0]] + rest;
        forall i, j | 0 <= i < j < |r| ensures r[i].id != r[j].id {
          assert r[j] == rest[j - 1];
          assert rest[j - 1] in rest;
          if i > 0 {
            assert r[i] == rest[i - 1];
          }
        }
      }
    }
  }

  /** Removing the identity of a tool of a list without duplicates removes exactly one entry. */
  lemma {:induction false} RemoveOne(ts: seq<Tool>, t: Tool)
    requires UniqueIds(ts) && t in ts
    ensures |Remove(ts, {t.id})| == |ts| - 1
  {
    UniqueTail(ts);
    if ts[0].id == t.id {
      RemoveAbsent(ts[1..], {t.id});
    } else {
      assert t in ts[1..];
      RemoveOne(ts[1..], t);
    }
  }

  /** Filtering a list without duplicates by the identity at position `i` drops exactly that entry and keeps the rest in order. */
  lemma {:induction false} RemoveAt(ts: seq<Tool>, i: nat)
    requires UniqueIds(ts) && i < |ts|
    ensures Remove(ts, {ts[i].id}) == ts[..i] + ts[i + 1..]
  {
    var ids := {ts[i].id};
    if i == 0 {
      UniqueTail(ts);
      RemoveAbsent(ts[1..], ids);
    } else {
      assert ts[0].id != ts[i].id;
      assert ts[1..][i - 1] == ts[i];
      UniqueTail(ts);
      RemoveAt(ts[1..], i - 1);
      RemoveKeepsHead(ts, i, ids);
    }
  }

  /** One step of `RemoveAt`: a head whose identity is kept stays in front. */
  lemma {:induction false} RemoveKeepsHead(ts: seq<Tool>, i: nat, ids: set<nat>)
    requires 0 < i < |ts| && ts[0].id !in ids
    requires Remove(ts[1..], ids) == ts[1..][..i - 1] + ts[1..][i..]
    ensures Remove(ts, ids) == ts[..i] + ts[i + 1..]
  {
    assert Remove(ts, ids) == [ts[0]] + Remove(ts[1..], ids);
    DropAtTail(ts, i);
  }

  /** Dropping position `i > 0` of a list is keeping its head and dropping position `i - 1` of its tail. */
  lemma DropAtTail(ts: seq<Tool>, i: nat)
    requires 0 < i < |ts|
    ensures ts[..i] + ts[i + 1..] == [ts[0]] + (ts[1..][..i - 1] + ts[1..][i..])
  {
    assert ts[..i] == [ts[0]] + ts[1..][..i - 1];
    assert ts[i + 1..] == ts[1..][i..];
  }

  /** The largest identity in a list, 0 when empty. */
  function MaxId(ts: seq<Tool>): (m: nat)
    ensures forall t :: t in ts ==> t.id <= m
  {
    if ts == [] then 0
    else
      assert forall t :: t in ts ==> t == ts[0] || t in ts[1..];
      var rest := MaxId(ts[1..]);
      if ts[0].id < rest then rest else ts[0].id
  }
}
