/** The inventory page: the item list with a name search and a category
    filter, adding an item from the form under a fresh id, and deleting by id. */
module Inventory {
  import opened Wrappers
  import opened Text
  import opened Seqs
  import opened Records

  /** The add-item form (every item field but the id). */
  datatype ItemForm = ItemForm(
    name: string,
    category: string,
    mrp: int,
    purchasePrice: int,
    sellingPrice: int,
    stock: int,
    hsnCode: string)

  /** The form as it opens and as it is reset after an add. */
  const BlankForm: ItemForm := ItemForm("", "", 0, 0, 0, 0, "")

  /** The list the page starts with. */
  const InitialItems: seq<InventoryItem> := [
    InventoryItem(1, "Samsung Galaxy S21", "Electronics", 69999, 58000, 64999, 15, "85171290"),
    InventoryItem(2, "Nike Air Max", "Clothing", 12999, 8500, 11999, 8, "64041900"),
    InventoryItem(3, "Logitech MX Master Mouse", "Electronics", 10999, 7200, 9999, 22, "84716090"),
    InventoryItem(4, "Sony WH-1000XM4 Headphones", "Electronics", 29999, 22000, 27999, 5, "85183000"),
    InventoryItem(5, "Dettol Hand Sanitizer", "Health & Beauty", 250, 180, 230, 50, "38089490")
  ]

  /** An item is shown when its name contains the search text, ignoring case
      (an empty search matches every name), and it is in the selected
      category, if one is selected. */
  predicate IsShown(item: InventoryItem, search: string, category: Option<string>)
  {
    && (search == "" || Includes(Lower(item.name), Lower(search)))
    && (category.None? || item.category == category.value)
  }

  function Shows(search: string, category: Option<string>): InventoryItem -> bool
  {
    (item: InventoryItem) => IsShown(item, search, category)
  }

  /** `filteredItems`. */
  function FilteredItems(items: seq<InventoryItem>, search: string, category: Option<string>): seq<InventoryItem>
  {
    Filter(items, Shows(search, category))
  }

  /** The shown items are, in order, exactly those that pass the search and
      the category filter. */
  lemma FilteredItemsSpec(items: seq<InventoryItem>, search: string, category: Option<string>)
    ensures EmbedsAt(FilteredItems(items, search, category), items, KeptIndices(items, Shows(search, category)))
    ensures forall j :: 0 <= j < |items| ==>
              (j in KeptIndices(items, Shows(search, category)) <==> IsShown(items[j], search, category))
  {
    KeptIndicesSpec(items, Shows(search, category));
  }

  /** With no search and no category every item is shown. */
  lemma NoFilterShowsAll(items: seq<InventoryItem>)
    ensures FilteredItems(items, "", None) == items
  {
    FilterKeepsAll(items, Shows("", None));
  }

  /** The name test agrees with the occurrence of the lower-cased search in
      the lower-cased name. */
  lemma NameMatchIff(item: InventoryItem, search: string)
    ensures IsShown(item, search, None) <==> exists i :: OccursAt(Lower(item.name), Lower(search), i)
  {
    IncludesIff(Lower(item.name), Lower(search));
    if search == "" {
      assert Lower(search) == [];
      assert Lower(item.name)[0..0] == [];
      assert OccursAt(Lower(item.name), Lower(search), 0);
    } else {
      assert IsShown(item, search, None) == Includes(Lower(item.name), Lower(search));
    }
  }

  /** `Math.max(0, ...ids)`. */
  function MaxId(items: seq<InventoryItem>): (m: int)
    ensures m >= 0
    ensures forall k :: 0 <= k < |items| ==> items[k].id <= m
    ensures m == 0 || exists k :: 0 <= k < |items| && items[k].id == m
  {
    if |items| == 0 then 0
    else
      var rest := MaxId(items[..|items| - 1]);
      if items[|items| - 1].id > rest then items[|items| - 1].id else rest
  }

  /** The id a new item gets: one more than the largest id in use, or 1. */
  function NextId(items: seq<InventoryItem>): (id: int)
    ensures id >= 1
    ensures forall k :: 0 <= k < |items| ==> items[k].id < id
  {
    MaxId(items) + 1
  }

  /** `{ ...newItem, id }`. */
  function ItemOf(form: ItemForm, id: int): (item: InventoryItem)
    ensures item.id == id && item.name == form.name && item.category == form.category
    ensures item.mrp == form.mrp && item.purchasePrice == form.purchasePrice
    ensures item.sellingPrice == form.sellingPrice && item.stock == form.stock
    ensures item.hsnCode == form.hsnCode
  {
    InventoryItem(id, form.name, form.category, form.mrp, form.purchasePrice,
                  form.sellingPrice, form.stock, form.hsnCode)
  }

  function IdOf(item: InventoryItem): int
  {
    item.id
  }

  function NotId(id: int): InventoryItem -> bool
  {
    (item: InventoryItem) => item.id != id
  }

  /** `handleDeleteItem`'s update: keep every item with another id. */
  function DeleteItem(items: seq<InventoryItem>, id: int): seq<InventoryItem>
  {
    Filter(items, NotId(id))
  }

  /** Deleting keeps, in order, exactly the items with another id. */
  lemma DeleteSpec(items: seq<InventoryItem>, id: int)
    ensures EmbedsAt(DeleteItem(items, id), items, KeptIndices(items, NotId(id)))
    ensures forall j :: 0 <= j < |items| ==> (j in KeptIndices(items, NotId(id)) <==> items[j].id != id)
    ensures forall k :: 0 <= k < |DeleteItem(items, id)| ==> DeleteItem(items, id)[k].id != id
  {
    KeptIndicesSpec(items, NotId(id));
  }

  /** Deleting an id no item has changes nothing. */
  lemma DeleteAbsent(items: seq<InventoryItem>, id: int)
    requires forall k :: 0 <= k < |items| ==> items[k].id != id
    ensures DeleteItem(items, id) == items
  {
    FilterKeepsAll(items, NotId(id));
  }

  /** Appending an item under `NextId` keeps the ids distinct. */
  lemma AppendNextIdKeepsDistinct(items: seq<InventoryItem>, form: ItemForm)
    requires DistinctBy(items, IdOf)
    ensures DistinctBy(items + [ItemOf(form, NextId(items))], IdOf)
  {
    var r := items + [ItemOf(form, NextId(items))];
    forall i, j | 0 <= i < j < |r|
      ensures IdOf(r[i]) != IdOf(r[j])
    {
      if j == |items| {
        assert r[i] == items[i];
      }
    }
  }

  lemma InitialIdsDistinct()
    ensures DistinctBy(InitialItems, IdOf)
  {
  }

  /** The page's state. */
  class InventoryPage {
    var items: seq<InventoryItem>
    var search: string
    var selectedCategory: Option<string>
    var newItem: ItemForm

    /** No two items share an id. */
    ghost predicate Valid()
      reads this
    {
      DistinctBy(items, IdOf)
    }

    constructor ()
      ensures Valid() && items == InitialItems
      ensures search == "" && selectedCategory == None && newItem == BlankForm
    {
      items := InitialItems;
      search := "";
      selectedCategory := None;
      newItem := BlankForm;
      InitialIdsDistinct();
    }

    /** The items on screen. */
    function Shown(): seq<InventoryItem>
      reads this
    {
      FilteredItems(items, search, selectedCategory)
    }

    method SetSearch(text: string)
      requires Valid()
      modifies this`search
      ensures Valid() && search == text
    {
      search := text;
    }

    method SelectCategory(category: Option<string>)
      requires Valid()
      modifies this`selectedCategory
      ensures Valid() && selectedCategory == category
    {
      selectedCategory := category;
    }

    /** The form's inputs. */
    method EditForm(form: ItemForm)
      requires Valid()
      modifies this`newItem
      ensures Valid() && newItem == form
    {
      newItem := form;
    }

    /** `handleAddItem`: refused while the name or the category is empty;
        otherwise the form becomes a new last item under a fresh id and the
        form is cleared. */
    method AddItem() returns (added: bool)
      requires Valid()
      modifies this`items, this`newItem
      ensures Valid()
      ensures added <==> old(newItem).name != "" && old(newItem).category != ""
      ensures !added ==> items == old(items) && newItem == old(newItem)
      ensures added ==> && items == old(items) + [ItemOf(old(newItem), NextId(old(items)))]
                        && newItem == BlankForm
    {
      if newItem.name == "" || newItem.category == "" {
        return false;
      }
      AppendNextIdKeepsDistinct(items, newItem);
      var id := NextId(items);
      items := items + [ItemOf(newItem, id)];
      newItem := BlankForm;
      added := true;
    }

    /** `handleDeleteItem`. */
    method Delete(id: int)
      requires Valid()
      modifies this`items
      ensures Valid() && items == DeleteItem(old(items), id)
    {
      FilterKeepsDistinct(items, NotId(id), IdOf);
      items := DeleteItem(items, id);
    }
  }
}
