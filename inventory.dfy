/**
 * The inventory screen's selection of tools to combine: at most two tools,
 * never the same one twice, handed to combine in the order they were picked.
 */
module Inventory {
  import opened Types
  import App

  /** How many tools combine takes. */
  const PairSize: nat := 2

  predicate SelectionOk(selected: seq<Tool>) {
    |selected| <= PairSize && UniqueIds(selected)
  }

  /** Clicking "Select" on `t`: deselect it if selected, else add it when fewer than two are selected. */
  function Toggled(selected: seq<Tool>, t: Tool): seq<Tool> {
    if HasId(selected, t.id) then Remove(selected, {t.id})
    else if |selected| < PairSize then selected + [t]
    else selected
  }

  /** Toggling keeps the selection to at most two distinct tools. */
  lemma ToggleOk(selected: seq<Tool>, t: Tool)
    requires SelectionOk(selected)
    ensures SelectionOk(Toggled(selected, t))
  {
    if HasId(selected, t.id) {
      RemoveUnique(selected, {t.id});
    } else if |selected| < PairSize {
      var r := selected + [t];
      forall i, j | 0 <= i < j < |r| ensures r[i].id != r[j].id {
        if j == |selected| {
          assert r[i] in selected;
        }
      }
    }
  }

  /** Toggling a selected tool removes just that one and keeps the others in their order. */
  lemma ToggleDeselects(selected: seq<Tool>, i: nat, t: Tool)
    requires UniqueIds(selected) && i < |selected| && selected[i].id == t.id
    ensures Toggled(selected, t) == selected[..i] + selected[i + 1..]
  {
    assert selected[i] in selected;
    RemoveAt(selected, i);
  }

  /** Toggling an unselected tool appends it when there is room, and does nothing when two are selected. */
  lemma ToggleSelects(selected: seq<Tool>, t: Tool)
    requires !HasId(selected, t.id)
    ensures |selected| < PairSize ==> Toggled(selected, t) == selected + [t]
    ensures |selected| >= PairSize ==> Toggled(selected, t) == selected
  {
  }

  /**
   * The two tools a full selection hands to combine are distinct; when both
   * are inventory entries of one tier below 3 the inventory shrinks by one.
   */
  lemma SelectionCombines(p: Player, selected: seq<Tool>, name: string)
    requires SelectionOk(selected) && |selected| == PairSize
    requires UniqueIds(p.inventory) && selected[0] in p.inventory && selected[1] in p.inventory
    requires App.Combinable(selected[0], selected[1])
    ensures selected[0].id != selected[1].id
    ensures |App.CombineTools(p, selected[0], selected[1], name).inventory| == |p.inventory| - 1
  {
    App.CombineCount(p, selected[0], selected[1], name);
  }

  class Selection {
    var selected: seq<Tool>

    ghost predicate Valid()
      reads this
    {
      SelectionOk(selected)
    }

    constructor ()
      ensures Valid() && selected == []
    {
      selected := [];
    }

    method Toggle(t: Tool)
      requires Valid()
      modifies this
      ensures Valid()
      ensures selected == Toggled(old(selected), t)
    {
      ToggleOk(selected, t);
      if HasId(selected, t.id) {
        selected := Remove(selected, {t.id});
      } else if |selected| < PairSize {
        selected := selected + [t];
      }
    }

    /** "Combine Selected Tools": with exactly two selected, combine them in selection order and clear the selection. */
    method HandleCombine(p: Player, name: string) returns (q: Player)
      requires Valid()
      modifies this
      ensures Valid()
      ensures |old(selected)| == PairSize ==>
        q == App.CombineTools(p, old(selected)[0], old(selected)[1], name) && selected == []
      ensures |old(selected)| != PairSize ==> q == p && selected == old(selected)
    {
      if |selected| == PairSize {
        q := App.CombineTools(p, selected[0], selected[1], name);
        selected := [];
      } else {
        q := p;
      }
    }
  }
}
