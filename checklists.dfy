/**
 * Checklists: an ordered list of checklists, newest first, each owning an
 * ordered list of items. Item operations address a checklist by id and an
 * item inside it by id.
 */
module Checklists {
  import opened Wrappers
  import opened Text
  import Seqs
  import Store

  /** `Date.now()` at creation (a number here, unlike the other views); supplied by the caller. */
  type ListId = int
  type ItemId = int

  datatype Item = Item(id: ItemId, text: string, completed: bool)

  datatype Checklist = Checklist(id: ListId, title: string, items: seq<Item>, color: string, createdAt: string)

  /** `addChecklist`: a blank title is refused; otherwise an empty checklist goes to the front. */
  function AddChecklistTo(lists: seq<Checklist>, title: string, id: ListId, color: string, createdAt: string): (r: seq<Checklist>)
    ensures IsBlank(title) ==> r == lists
    ensures !IsBlank(title) ==> && |r| == |lists| + 1 && r[1..] == lists
                                && r[0] == Checklist(id, title, [], color, createdAt)
  {
    if Trim(title) == "" then lists
    else [Checklist(id, title, [], color, createdAt)] + lists
  }

  /** `deleteChecklist`: the checklist goes with all its items; the others stay, in order. */
  function DeleteChecklistFrom(lists: seq<Checklist>, id: ListId): (r: seq<Checklist>)
    ensures forall i :: 0 <= i < |r| ==> r[i].id != id && r[i] in lists
    ensures forall i :: 0 <= i < |lists| && lists[i].id != id ==> lists[i] in r
  {
    Seqs.Filter(lists, (l: Checklist) => l.id != id)
  }

  /** Applies f to the items of the checklists carrying listId, keeping every other field. */
  function UpdateItemsOf(lists: seq<Checklist>, listId: ListId, f: seq<Item> -> seq<Item>): (r: seq<Checklist>)
    ensures |r| == |lists|
    ensures forall i :: 0 <= i < |lists| ==>
      && r[i].id == lists[i].id && r[i].title == lists[i].title
      && r[i].color == lists[i].color && r[i].createdAt == lists[i].createdAt
      && r[i].items == if lists[i].id == listId then f(lists[i].items) else lists[i].items
  {
    Seqs.Map(lists, (l: Checklist) => if l.id == listId then l.(items := f(l.items)) else l)
  }

  /** `addItem`: one open item at the end of the matching checklist only. */
  function AddItemTo(lists: seq<Checklist>, listId: ListId, text: string, itemId: ItemId): (r: seq<Checklist>)
    ensures |r| == |lists|
    ensures forall i :: 0 <= i < |lists| ==>
      && r[i].id == lists[i].id && r[i].title == lists[i].title
      && r[i].color == lists[i].color && r[i].createdAt == lists[i].createdAt
      && (lists[i].id != listId ==> r[i] == lists[i])
      && (lists[i].id == listId ==> r[i].items == lists[i].items + [Item(itemId, text, false)])
  {
    UpdateItemsOf(lists, listId, (items: seq<Item>) => items + [Item(itemId, text, false)])
  }

  function FlipIfId(it: Item, itemId: ItemId): Item {
    if it.id == itemId then it.(completed := !it.completed) else it
  }

  /** The inner map of `toggleItem`. */
  function ItemsToggled(items: seq<Item>, itemId: ItemId): (r: seq<Item>)
    ensures |r| == |items|
    ensures forall j :: 0 <= j < |items| ==>
      r[j] == if items[j].id == itemId then items[j].(completed := !items[j].completed) else items[j]
  {
    Seqs.Map(items, (it: Item) => FlipIfId(it, itemId))
  }

  /** The inner filter of `deleteItem`. */
  function ItemsWithout(items: seq<Item>, itemId: ItemId): (r: seq<Item>)
    ensures forall j :: 0 <= j < |r| ==> r[j].id != itemId && r[j] in items
    ensures forall j :: 0 <= j < |items| && items[j].id != itemId ==> items[j] in r
  {
    Seqs.Filter(items, (it: Item) => it.id != itemId)
  }

  /** `toggleItem`: flips matching items of the matching checklist; every item count stays. */
  function ToggleItemIn(lists: seq<Checklist>, listId: ListId, itemId: ItemId): (r: seq<Checklist>)
    ensures |r| == |lists|
    ensures forall i :: 0 <= i < |lists| ==>
      && r[i].id == lists[i].id && |r[i].items| == |lists[i].items|
      && (lists[i].id != listId ==> r[i] == lists[i])
      && (lists[i].id == listId ==> r[i] == lists[i].(items := ItemsToggled(lists[i].items, itemId)))
  {
    UpdateItemsOf(lists, listId, (items: seq<Item>) => ItemsToggled(items, itemId))
  }

  /** `deleteItem`: removes matching items from the matching checklist only. */
  function DeleteItemFrom(lists: seq<Checklist>, listId: ListId, itemId: ItemId): (r: seq<Checklist>)
    ensures |r| == |lists|
    ensures forall i :: 0 <= i < |lists| ==>
      && r[i].id == lists[i].id
      && (lists[i].id != listId ==> r[i] == lists[i])
      && (lists[i].id == listId ==> r[i] == lists[i].(items := ItemsWithout(lists[i].items, itemId)))
  {
    UpdateItemsOf(lists, listId, (items: seq<Item>) => ItemsWithout(items, itemId))
  }

  /** Removing an item id that does not occur leaves an item list as it is. */
  lemma ItemsWithoutAbsent(items: seq<Item>, itemId: ItemId)
    requires forall j :: 0 <= j < |items| ==> items[j].id != itemId
    ensures ItemsWithout(items, itemId) == items
  {
    Seqs.FilterKeepsAll(items, (it: Item) => it.id != itemId);
  }

  /** Deleting a checklist keeps the remaining checklists in their order. */
  lemma DeleteKeepsOrder(lists: seq<Checklist>, id: ListId)
    ensures Seqs.IsSubsequence(DeleteChecklistFrom(lists, id), lists)
  {
    Seqs.FilterIsSubsequence(lists, (l: Checklist) => l.id != id);
  }

  /** Deleting an item keeps the remaining items in their order. */
  lemma ItemsWithoutKeepsOrder(items: seq<Item>, itemId: ItemId)
    ensures Seqs.IsSubsequence(ItemsWithout(items, itemId), items)
  {
    Seqs.FilterIsSubsequence(items, (it: Item) => it.id != itemId);
  }

  /** An unknown checklist id leaves all checklists unchanged under every item operation. */
  lemma UnknownListIsNoop(lists: seq<Checklist>, listId: ListId, text: string, itemId: ItemId)
    requires forall i :: 0 <= i < |lists| ==> lists[i].id != listId
    ensures AddItemTo(lists, listId, text, itemId) == lists
    ensures ToggleItemIn(lists, listId, itemId) == lists
    ensures DeleteItemFrom(lists, listId, itemId) == lists
  {
    assert AddItemTo(lists, listId, text, itemId) == lists;
    assert ToggleItemIn(lists, listId, itemId) == lists;
    assert DeleteItemFrom(lists, listId, itemId) == lists;
  }

  /** Deleting an item id that no item of the addressed checklist carries changes nothing. */
  lemma UnknownItemDeleteIsNoop(lists: seq<Checklist>, listId: ListId, itemId: ItemId)
    requires forall i, j :: 0 <= i < |lists| && lists[i].id == listId && 0 <= j < |lists[i].items| ==>
      lists[i].items[j].id != itemId
    ensures DeleteItemFrom(lists, listId, itemId) == lists
  {
    var r := DeleteItemFrom(lists, listId, itemId);
    forall i | 0 <= i < |lists| ensures r[i] == lists[i] {
      if lists[i].id == listId {
        ItemsWithoutAbsent(lists[i].items, itemId);
      }
    }
  }

  /** Toggling the same item twice gives back the checklists. */
  lemma ToggleItemInvolution(lists: seq<Checklist>, listId: ListId, itemId: ItemId)
    ensures ToggleItemIn(ToggleItemIn(lists, listId, itemId), listId, itemId) == lists
  {
    var twice := ToggleItemIn(ToggleItemIn(lists, listId, itemId), listId, itemId);
    forall i | 0 <= i < |lists| ensures twice[i] == lists[i] {
      if lists[i].id == listId {
        var items := lists[i].items;
        assert ItemsToggled(ItemsToggled(items, itemId), itemId) == items;
      }
    }
  }

  /** Adding a checklist with a fresh id and deleting that id restores the list. */
  lemma AddThenDeleteChecklistRestores(lists: seq<Checklist>, title: string, id: ListId, color: string, createdAt: string)
    requires forall i :: 0 <= i < |lists| ==> lists[i].id != id
    ensures DeleteChecklistFrom(AddChecklistTo(lists, title, id, color, createdAt), id) == lists
  {
    var list := Checklist(id, title, [], color, createdAt);
    if !IsBlank(title) {
      Seqs.FilterConcat([list], lists, (l: Checklist) => l.id != id);
    }
    Seqs.FilterKeepsAll(lists, (l: Checklist) => l.id != id);
  }

  /** Adding an item with a fresh id and deleting it again restores the checklists. */
  lemma AddThenDeleteItemRestores(lists: seq<Checklist>, listId: ListId, text: string, itemId: ItemId)
    requires forall i, j :: 0 <= i < |lists| && lists[i].id == listId && 0 <= j < |lists[i].items| ==>
      lists[i].items[j].id != itemId
    ensures DeleteItemFrom(AddItemTo(lists, listId, text, itemId), listId, itemId) == lists
  {
    var r := DeleteItemFrom(AddItemTo(lists, listId, text, itemId), listId, itemId);
    forall i | 0 <= i < |lists| ensures r[i] == lists[i] {
      if lists[i].id == listId {
        var items := lists[i].items;
        Seqs.FilterConcat(items, [Item(itemId, text, false)], (it: Item) => it.id != itemId);
        ItemsWithoutAbsent(items, itemId);
      }
    }
  }

  /** The Checklists view: the stored list and the new-checklist form. */
  class ChecklistsPage {
    var checklists: seq<Checklist>
    var newChecklistTitle: string
    var showNewInput: bool

    constructor (stored: Option<seq<Checklist>>)
      ensures checklists == Store.Initial(stored, [])
      ensures newChecklistTitle == "" && !showNewInput
    {
      checklists := Store.Initial(stored, []);
      newChecklistTitle := "";
      showNewInput := false;
    }

    method ShowNewInput(show: bool)
      modifies this
      ensures showNewInput == show
      ensures checklists == old(checklists) && newChecklistTitle == old(newChecklistTitle)
    {
      showNewInput := show;
    }

    method TypeTitle(title: string)
      modifies this
      ensures newChecklistTitle == title
      ensures checklists == old(checklists) && showNewInput == old(showNewInput)
    {
      newChecklistTitle := title;
    }

    /** `addChecklist`: an accepted title is stored, the input cleared and the form hidden. */
    method AddChecklist(id: ListId, color: string, createdAt: string)
      modifies this
      ensures checklists == AddChecklistTo(old(checklists), old(newChecklistTitle), id, color, createdAt)
      ensures IsBlank(old(newChecklistTitle)) ==>
        newChecklistTitle == old(newChecklistTitle) && showNewInput == old(showNewInput)
      ensures !IsBlank(old(newChecklistTitle)) ==> newChecklistTitle == "" && !showNewInput
    {
      if Trim(newChecklistTitle) != "" {
        var list := Checklist(id, newChecklistTitle, [], color, createdAt);
        checklists := Store.Next(checklists, Store.Replace([list] + checklists));
        newChecklistTitle := "";
        showNewInput := false;
      }
    }

    method DeleteChecklist(id: ListId)
      modifies this
      ensures checklists == DeleteChecklistFrom(old(checklists), id)
      ensures newChecklistTitle == old(newChecklistTitle) && showNewInput == old(showNewInput)
    {
      checklists := Store.Next(checklists, Store.Replace(DeleteChecklistFrom(checklists, id)));
    }

    method AddItem(listId: ListId, text: string, itemId: ItemId)
      modifies this
      ensures checklists == AddItemTo(old(checklists), listId, text, itemId)
      ensures newChecklistTitle == old(newChecklistTitle) && showNewInput == old(showNewInput)
    {
      checklists := Store.Next(checklists, Store.Replace(AddItemTo(checklists, listId, text, itemId)));
    }

    method ToggleItem(listId: ListId, itemId: ItemId)
      modifies this
      ensures checklists == ToggleItemIn(old(checklists), listId, itemId)
      ensures newChecklistTitle == old(newChecklistTitle) && showNewInput == old(showNewInput)
    {
      checklists := Store.Next(checklists, Store.Replace(ToggleItemIn(checklists, listId, itemId)));
    }

    method DeleteItem(listId: ListId, itemId: ItemId)
      modifies this
      ensures checklists == DeleteItemFrom(old(checklists), listId, itemId)
      ensures newChecklistTitle == old(newChecklistTitle) && showNewInput == old(showNewInput)
    {
      checklists := Store.Next(checklists, Store.Replace(DeleteItemFrom(checklists, listId, itemId)));
    }
  }

  /** `NewItemInput`: the add-item form under one checklist, with its own text buffer. */
  class NewItemInput {
    const listId: ListId
    var text: string

    constructor (listId: ListId)
      ensures this.listId == listId && text == ""
    {
      this.listId := listId;
      text := "";
    }

    method Type(s: string)
      modifies this
      ensures text == s
    {
      text := s;
    }

    /** `handleSubmit`: only non-blank text reaches `addItem` (untrimmed), and then the input clears. */
    method HandleSubmit(page: ChecklistsPage, itemId: ItemId)
      modifies this, page
      ensures IsBlank(old(text)) ==> text == old(text) && page.checklists == old(page.checklists)
      ensures !IsBlank(old(text)) ==> text == "" && page.checklists == AddItemTo(old(page.checklists), listId, old(text), itemId)
      ensures page.newChecklistTitle == old(page.newChecklistTitle) && page.showNewInput == old(page.showNewInput)
    {
      if Trim(text) != "" {
        page.AddItem(listId, text, itemId);
        text := "";
      }
    }
  }
}
