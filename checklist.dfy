/** The do's-and-don'ts checklist: items the patient ticks off. */
module Checklist {

  import opened Text

  /** `isPositive` separates the do's from the don'ts. */
  datatype ChecklistItem = ChecklistItem(id: int, text: string, isDone: bool, isPositive: bool)

  /** The ids of `items`, in list order. */
  function Ids(items: seq<ChecklistItem>): (ids: seq<int>)
    ensures |ids| == |items|
    ensures forall i :: 0 <= i < |items| ==> ids[i] == items[i].id
  {
    seq(|items|, i requires 0 <= i < |items| => items[i].id)
  }

  /** `toggleItem(id)`: a new list in which the items with that id have
      `isDone` flipped and nothing else changes. */
  function Toggle(items: seq<ChecklistItem>, id: int): (r: seq<ChecklistItem>)
    ensures |r| == |items|
    ensures forall i :: 0 <= i < |items| && items[i].id == id ==>
      r[i].isDone == !items[i].isDone && r[i].id == id &&
      r[i].text == items[i].text && r[i].isPositive == items[i].isPositive
    ensures forall i :: 0 <= i < |items| && items[i].id != id ==> r[i] == items[i]
  {
    seq(|items|, i requires 0 <= i < |items| =>
      if items[i].id == id then items[i].(isDone := !items[i].isDone) else items[i])
  }

  /** The label's class: the label is struck through exactly when the item
      is done, and carries no class otherwise. */
  function LabelClass(item: ChecklistItem): (c: string)
    ensures c == "line-through" <==> item.isDone
    ensures !item.isDone ==> c == ""
  {
    if item.isDone then "line-through" else ""
  }

  /** Toggling twice restores the list. */
  lemma ToggleTwice(items: seq<ChecklistItem>, id: int)
    ensures Toggle(Toggle(items, id), id) == items
  {
  }

  /** An id that names no item changes nothing. */
  lemma ToggleAbsentId(items: seq<ChecklistItem>, id: int)
    requires forall i :: 0 <= i < |items| ==> items[i].id != id
    ensures Toggle(items, id) == items
  {
  }

  /** Toggling keeps the ids, so distinct ids stay distinct. */
  lemma ToggleKeepsIds(items: seq<ChecklistItem>, id: int)
    ensures Ids(Toggle(items, id)) == Ids(items)
    ensures Distinct(Ids(items)) ==> Distinct(Ids(Toggle(items, id)))
  {
    var r := Toggle(items, id);
    assert forall i :: 0 <= i < |items| ==> r[i].id == items[i].id;
  }

  /** The toggled item's strike-through flips; every other label stays. */
  lemma ToggleFlipsStrikeThrough(items: seq<ChecklistItem>, id: int, i: int)
    requires 0 <= i < |items|
    ensures items[i].id == id ==>
      (LabelClass(Toggle(items, id)[i]) == "line-through" <==> LabelClass(items[i]) != "line-through")
    ensures items[i].id != id ==> LabelClass(Toggle(items, id)[i]) == LabelClass(items[i])
  {
  }
}
