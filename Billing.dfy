/** The billing page: a draft bill built up line by line from the catalogue,
    its totals, and saving it to the bill store under a freshly minted
    bill number. */
module Billing {
  import opened Wrappers
  import opened Seqs
  import opened Records
  import BillNumbers

  /** The catalogue the billing page sells from. */
  const Catalog: seq<InventoryItem> := [
    InventoryItem(1, "Samsung Galaxy S21", "Electronics", 69999, 58000, 64999, 15, "85171290"),
    InventoryItem(2, "Nike Air Max", "Clothing", 12999, 8500, 11999, 8, "64041900"),
    InventoryItem(3, "Logitech MX Master Mouse", "Electronics", 10999, 7200, 9999, 22, "84716090"),
    InventoryItem(4, "Sony WH-1000XM4 Headphones", "Electronics", 29999, 22000, 27999, 5, "85183000"),
    InventoryItem(5, "Dettol Hand Sanitizer", "Health & Beauty", 250, 180, 230, 50, "38089490")
  ]

  /** GST percentage by category, with the rate for everything else under `"default"`. */
  const GstRates: map<string, int> :=
    map["Electronics" := 18, "Clothing" := 5, "Health & Beauty" := 12, "default" := 18]

  /** `GST_RATES[category] || GST_RATES.default`: an entry that is missing or
      zero falls back to the default. */
  function GstRate(category: string): (rate: int)
    ensures rate == if category == "Clothing" then 5
                    else if category == "Health & Beauty" then 12
                    else 18
  {
    if category in GstRates && GstRates[category] != 0 then GstRates[category] else GstRates["default"]
  }

  // ---------------------------------------------------------------------------
  // Totals: the `reduce` folds over the draft lines, evaluated from the front.

  function LineSubtotal(line: BillItem): int
  {
    line.sellingPrice * line.quantity
  }

  function LineGst(line: BillItem): real
  {
    LineSubtotal(line) as real * (GstRate(line.category) as real / 100.0)
  }

  function LineProfit(line: BillItem): int
  {
    (line.sellingPrice - line.purchasePrice) * line.quantity
  }

  function LineCost(line: BillItem): int
  {
    line.purchasePrice * line.quantity
  }

  function Subtotal(lines: seq<BillItem>): int
  {
    if |lines| == 0 then 0 else Subtotal(lines[..|lines| - 1]) + LineSubtotal(lines[|lines| - 1])
  }

  function Gst(lines: seq<BillItem>): real
  {
    if |lines| == 0 then 0.0 else Gst(lines[..|lines| - 1]) + LineGst(lines[|lines| - 1])
  }

  function Total(lines: seq<BillItem>): real
  {
    Subtotal(lines) as real + Gst(lines)
  }

  function Profit(lines: seq<BillItem>): int
  {
    if |lines| == 0 then 0 else Profit(lines[..|lines| - 1]) + LineProfit(lines[|lines| - 1])
  }

  /** What the lines cost the shop: the sum of purchase price times quantity. */
  function Cost(lines: seq<BillItem>): int
  {
    if |lines| == 0 then 0 else Cost(lines[..|lines| - 1]) + LineCost(lines[|lines| - 1])
  }

  /** Every total of a concatenation is the sum of the totals of its parts. */
  lemma {:induction false} SubtotalConcat(a: seq<BillItem>, b: seq<BillItem>)
    ensures Subtotal(a + b) == Subtotal(a) + Subtotal(b)
    decreases |b|
  {
    if |b| == 0 {
      assert a + b == a;
    } else {
      assert (a + b)[..|a + b| - 1] == a + b[..|b| - 1];
      SubtotalConcat(a, b[..|b| - 1]);
    }
  }

  lemma {:induction false} GstConcat(a: seq<BillItem>, b: seq<BillItem>)
    ensures Gst(a + b) == Gst(a) + Gst(b)
    decreases |b|
  {
    if |b| == 0 {
      assert a + b == a;
    } else {
      assert (a + b)[..|a + b| - 1] == a + b[..|b| - 1];
      GstConcat(a, b[..|b| - 1]);
    }
  }

  lemma {:induction false} ProfitConcat(a: seq<BillItem>, b: seq<BillItem>)
    ensures Profit(a + b) == Profit(a) + Profit(b)
    decreases |b|
  {
    if |b| == 0 {
      assert a + b == a;
    } else {
      assert (a + b)[..|a + b| - 1] == a + b[..|b| - 1];
      ProfitConcat(a, b[..|b| - 1]);
    }
  }

  lemma TotalsConcat(a: seq<BillItem>, b: seq<BillItem>)
    ensures Subtotal(a + b) == Subtotal(a) + Subtotal(b)
    ensures Gst(a + b) == Gst(a) + Gst(b)
    ensures Profit(a + b) == Profit(a) + Profit(b)
  {
    SubtotalConcat(a, b);
    GstConcat(a, b);
    ProfitConcat(a, b);
  }

  /** The totals of a single line. */
  lemma TotalsSingle(line: BillItem)
    ensures Subtotal([line]) == LineSubtotal(line)
    ensures Gst([line]) == LineGst(line)
    ensures Profit([line]) == LineProfit(line)
  {
    assert [line][..0] == [];
  }

  /** Changing one line changes the subtotal by the difference of that line's share. */
  lemma TotalsReplace(lines: seq<BillItem>, k: nat, line: BillItem)
    requires k < |lines|
    ensures Subtotal(lines[k := line]) == Subtotal(lines) - LineSubtotal(lines[k]) + LineSubtotal(line)
  {
    SplitAround(lines, k);
    UpdateAround(lines, k, line);
    SubtotalSplit(lines[..k], lines[k], lines[k + 1..]);
    SubtotalSplit(lines[..k], line, lines[k + 1..]);
  }

  /** Profit is what the customer pays before tax less what the goods cost. */
  lemma {:induction false} ProfitIsMargin(lines: seq<BillItem>)
    ensures Profit(lines) == Subtotal(lines) - Cost(lines)
  {
    if |lines| > 0 {
      ProfitIsMargin(lines[..|lines| - 1]);
    }
  }

  lemma LineGstBounds(line: BillItem)
    requires line.sellingPrice >= 0 && line.quantity >= 0
    ensures LineSubtotal(line) as real * 0.05 <= LineGst(line) <= LineSubtotal(line) as real * 0.18
  {
    var s := LineSubtotal(line) as real;
    assert s >= 0.0;
    var rate := GstRate(line.category) as real / 100.0;
    assert 0.05 <= rate <= 0.18;
  }

  /** With non-negative prices and quantities, the GST lies between the
      lowest (5%) and the highest (18%) rate of the subtotal. */
  lemma {:induction false} GstBounds(lines: seq<BillItem>)
    requires forall k :: 0 <= k < |lines| ==> lines[k].sellingPrice >= 0 && lines[k].quantity >= 0
    ensures Subtotal(lines) as real * 0.05 <= Gst(lines) <= Subtotal(lines) as real * 0.18
  {
    if |lines| > 0 {
      GstBounds(lines[..|lines| - 1]);
      LineGstBounds(lines[|lines| - 1]);
    }
  }

  /** The grand total is the subtotal plus between 5% and 18% of it. */
  lemma TotalBounds(lines: seq<BillItem>)
    requires forall k :: 0 <= k < |lines| ==> lines[k].sellingPrice >= 0 && lines[k].quantity >= 0
    ensures Subtotal(lines) as real * 1.05 <= Total(lines) <= Subtotal(lines) as real * 1.18
  {
    GstBounds(lines);
  }

  // ---------------------------------------------------------------------------
  // The draft: lines keyed by item id.

  /** `{ ...item, quantity }`: the line for `quantity` units of `item`. */
  function LineOf(item: InventoryItem, quantity: int): (line: BillItem)
    ensures line.id == item.id && line.quantity == quantity
    ensures line.sellingPrice == item.sellingPrice && line.purchasePrice == item.purchasePrice
    ensures line.name == item.name && line.category == item.category
  {
    BillItem(item.id, item.name, item.category, item.sellingPrice, item.purchasePrice, quantity)
  }

  function IdOf(line: BillItem): int
  {
    line.id
  }

  predicate HasLine(lines: seq<BillItem>, id: int)
  {
    exists k :: 0 <= k < |lines| && lines[k].id == id
  }

  /** No two lines for one item, and every quantity at least one. */
  ghost predicate DraftValid(lines: seq<BillItem>)
  {
    DistinctBy(lines, IdOf) && forall k :: 0 <= k < |lines| ==> lines[k].quantity >= 1
  }

  /** `handleAddItem`'s update of the lines: add `quantity` to the line for
      the item if there is one, otherwise append a new line. */
  function AddLine(lines: seq<BillItem>, item: InventoryItem, quantity: int): seq<BillItem>
  {
    if HasLine(lines, item.id) then
      seq(|lines|, k requires 0 <= k < |lines| =>
        if lines[k].id == item.id then lines[k].(quantity := lines[k].quantity + quantity) else lines[k])
    else
      lines + [LineOf(item, quantity)]
  }

  function Without(id: int): BillItem -> bool
  {
    (line: BillItem) => line.id != id
  }

  /** `handleRemoveItem`'s update: keep the lines of every other item. */
  function RemoveLine(lines: seq<BillItem>, id: int): seq<BillItem>
  {
    Filter(lines, Without(id))
  }

  /** `handleUpdateQuantity`'s update: a non-positive quantity is ignored;
      otherwise the item's line gets the new quantity. */
  function SetQuantity(lines: seq<BillItem>, id: int, newQuantity: int): seq<BillItem>
  {
    if newQuantity <= 0 then
      lines
    else
      seq(|lines|, k requires 0 <= k < |lines| =>
        if lines[k].id == id then lines[k].(quantity := newQuantity) else lines[k])
  }

  /** Adding an item that already has a line adds to that line's quantity, in
      place; every other line, and the number of lines, stay as they were. */
  lemma AddMergesExisting(lines: seq<BillItem>, item: InventoryItem, quantity: int, k: nat)
    requires DistinctBy(lines, IdOf)
    requires k < |lines| && lines[k].id == item.id
    ensures |AddLine(lines, item, quantity)| == |lines|
    ensures AddLine(lines, item, quantity)[k] == lines[k].(quantity := lines[k].quantity + quantity)
    ensures forall j :: 0 <= j < |lines| && j != k ==> AddLine(lines, item, quantity)[j] == lines[j]
  {
    forall j | 0 <= j < |lines| && j != k
      ensures lines[j].id != item.id
    {
      if j < k {
        assert IdOf(lines[j]) != IdOf(lines[k]);
      } else {
        assert IdOf(lines[k]) != IdOf(lines[j]);
      }
    }
  }

  /** Adding an item without a line appends one line for it at the end. */
  lemma AddAppendsNew(lines: seq<BillItem>, item: InventoryItem, quantity: int)
    requires !HasLine(lines, item.id)
    ensures AddLine(lines, item, quantity) == lines + [LineOf(item, quantity)]
  {
  }

  /** Adding a positive quantity keeps the draft valid. */
  lemma AddKeepsDraftValid(lines: seq<BillItem>, item: InventoryItem, quantity: int)
    requires DraftValid(lines) && quantity >= 1
    ensures DraftValid(AddLine(lines, item, quantity))
  {
    var r := AddLine(lines, item, quantity);
    if HasLine(lines, item.id) {
      assert forall k :: 0 <= k < |r| ==> IdOf(r[k]) == IdOf(lines[k]);
    } else {
      forall i, j | 0 <= i < j < |r|
        ensures IdOf(r[i]) != IdOf(r[j])
      {
        if j == |lines| {
          assert r[i] == lines[i];
        }
      }
    }
  }

  /** Adding the same new item twice leaves one line with both quantities. */
  lemma AddTwiceMerges(lines: seq<BillItem>, item: InventoryItem, first: int, second: int)
    requires !HasLine(lines, item.id)
    ensures AddLine(AddLine(lines, item, first), item, second) == lines + [LineOf(item, first + second)]
  {
    var once := AddLine(lines, item, first);
    AddAppendsNew(lines, item, first);
    assert once[|lines|].id == item.id;
  }

  /** Adding a new item raises every total by that line's share. */
  lemma AddNewTotals(lines: seq<BillItem>, item: InventoryItem, quantity: int)
    requires !HasLine(lines, item.id)
    ensures Subtotal(AddLine(lines, item, quantity)) == Subtotal(lines) + item.sellingPrice * quantity
    ensures Gst(AddLine(lines, item, quantity)) == Gst(lines) + LineGst(LineOf(item, quantity))
    ensures Profit(AddLine(lines, item, quantity))
         == Profit(lines) + (item.sellingPrice - item.purchasePrice) * quantity
  {
    TotalsConcat(lines, [LineOf(item, quantity)]);
    TotalsSingle(LineOf(item, quantity));
  }

  /** Adding to an existing line raises the subtotal by that line's own unit
      price (not the catalogue's) times the added quantity. */
  lemma AddExistingSubtotal(lines: seq<BillItem>, item: InventoryItem, quantity: int, k: nat)
    requires DistinctBy(lines, IdOf)
    requires k < |lines| && lines[k].id == item.id
    ensures Subtotal(AddLine(lines, item, quantity)) == Subtotal(lines) + lines[k].sellingPrice * quantity
  {
    AddMergesExisting(lines, item, quantity, k);
    MoreOfLineSubtotal(lines, k, quantity, AddLine(lines, item, quantity));
  }

  lemma MoreOfLineSubtotal(lines: seq<BillItem>, k: nat, quantity: int, r: seq<BillItem>)
    requires k < |lines| && |r| == |lines|
    requires r[k] == lines[k].(quantity := lines[k].quantity + quantity)
    requires forall j :: 0 <= j < |lines| && j != k ==> r[j] == lines[j]
    ensures Subtotal(r) == Subtotal(lines) + lines[k].sellingPrice * quantity
  {
    assert r == lines[k := r[k]];
    TotalsReplace(lines, k, r[k]);
    MulAddRight(lines[k].sellingPrice, lines[k].quantity, quantity);
  }

  lemma MulAddRight(a: int, b: int, c: int)
    ensures a * (b + c) == a * b + a * c
  {
  }

  /** Removing an item that has a line drops exactly that line and keeps the
      others in order. */
  lemma RemoveDropsLine(lines: seq<BillItem>, id: int, k: nat)
    requires DistinctBy(lines, IdOf)
    requires k < |lines| && lines[k].id == id
    ensures RemoveLine(lines, id) == lines[..k] + lines[k + 1..]
  {
    var a, b := lines[..k], lines[k + 1..];
    SplitAround(lines, k);
    forall i | 0 <= i < |a|
      ensures Without(id)(a[i])
    {
      assert IdOf(lines[i]) != IdOf(lines[k]);
    }
    forall i | 0 <= i < |b|
      ensures Without(id)(b[i])
    {
      assert IdOf(lines[k]) != IdOf(lines[k + 1 + i]);
    }
    FilterConcat(a + [lines[k]], b, Without(id));
    FilterConcat(a, [lines[k]], Without(id));
    FilterKeepsAll(a, Without(id));
    FilterKeepsAll(b, Without(id));
    assert [lines[k]][..0] == [];
  }

  /** Removing an item with no line is a no-op. */
  lemma RemoveAbsent(lines: seq<BillItem>, id: int)
    requires !HasLine(lines, id)
    ensures RemoveLine(lines, id) == lines
  {
    FilterKeepsAll(lines, Without(id));
  }

  /** Removing an item's line takes that line's share off the subtotal. */
  lemma RemoveSubtotal(lines: seq<BillItem>, id: int, k: nat)
    requires DistinctBy(lines, IdOf)
    requires k < |lines| && lines[k].id == id
    ensures Subtotal(RemoveLine(lines, id)) == Subtotal(lines) - LineSubtotal(lines[k])
  {
    RemoveDropsLine(lines, id, k);
    TotalsRemoveAt(lines, k);
  }

  lemma TotalsRemoveAt(lines: seq<BillItem>, k: nat)
    requires k < |lines|
    ensures Subtotal(lines[..k] + lines[k + 1..]) == Subtotal(lines) - LineSubtotal(lines[k])
  {
    var a, x, b := lines[..k], lines[k], lines[k + 1..];
    calc {
      Subtotal(lines);
      { SplitAround(lines, k); }
      Subtotal(a + [x] + b);
      { SubtotalSplit(a, x, b); }
      Subtotal(a) + LineSubtotal(x) + Subtotal(b);
      { SubtotalConcat(a, b); }
      Subtotal(a + b) + LineSubtotal(x);
    }
  }

  lemma SubtotalSplit(a: seq<BillItem>, x: BillItem, b: seq<BillItem>)
    ensures Subtotal(a + [x] + b) == Subtotal(a) + LineSubtotal(x) + Subtotal(b)
  {
    SubtotalConcat(a + [x], b);
    SubtotalConcat(a, [x]);
    TotalsSingle(x);
  }

  lemma RemoveKeepsDraftValid(lines: seq<BillItem>, id: int)
    requires DraftValid(lines)
    ensures DraftValid(RemoveLine(lines, id))
  {
    FilterKeepsDistinct(lines, Without(id), IdOf);
    KeptIndicesSpec(lines, Without(id));
    var r := RemoveLine(lines, id);
    var idx := KeptIndices(lines, Without(id));
    assert forall k :: 0 <= k < |r| ==> r[k] == lines[idx[k]];
  }

  /** A quantity of zero or less leaves the draft untouched. */
  lemma SetQuantityIgnoresNonPositive(lines: seq<BillItem>, id: int, newQuantity: int)
    requires newQuantity <= 0
    ensures SetQuantity(lines, id, newQuantity) == lines
  {
  }

  /** A positive quantity replaces the quantity of the item's line, in place,
      and nothing else. */
  lemma SetQuantityChangesOnlyLine(lines: seq<BillItem>, id: int, newQuantity: int, k: nat)
    requires DistinctBy(lines, IdOf)
    requires newQuantity > 0 && k < |lines| && lines[k].id == id
    ensures SetQuantity(lines, id, newQuantity) == lines[k := lines[k].(quantity := newQuantity)]
  {
    forall j | 0 <= j < |lines| && j != k
      ensures lines[j].id != id
    {
      if j < k {
        assert IdOf(lines[j]) != IdOf(lines[k]);
      } else {
        assert IdOf(lines[k]) != IdOf(lines[j]);
      }
    }
  }

  /** Setting the quantity of an item with no line is a no-op. */
  lemma SetQuantityAbsent(lines: seq<BillItem>, id: int, newQuantity: int)
    requires !HasLine(lines, id)
    ensures SetQuantity(lines, id, newQuantity) == lines
  {
  }

  lemma SetQuantityKeepsDraftValid(lines: seq<BillItem>, id: int, newQuantity: int)
    requires DraftValid(lines)
    ensures DraftValid(SetQuantity(lines, id, newQuantity))
  {
    var r := SetQuantity(lines, id, newQuantity);
    assert forall k :: 0 <= k < |r| ==> IdOf(r[k]) == IdOf(lines[k]);
  }

  // ---------------------------------------------------------------------------
  // Saving.

  /** The bill `saveBill` stores: the draft as it stands, with its totals. */
  function MakeBill(billNumber: string, customerName: string, customerPhone: string,
                    lines: seq<BillItem>, date: string): (bill: Bill)
    ensures bill.billNumber == billNumber && bill.items == lines && bill.date == date
    ensures bill.customerName == customerName && bill.customerPhone == customerPhone
    ensures TotalsAgree(bill)
  {
    Bill(billNumber, customerName, customerPhone, lines,
         Subtotal(lines), Gst(lines), Total(lines), Profit(lines), date)
  }

  /** A bill's stored totals are those of its own lines, and its total is
      its subtotal plus its GST. */
  ghost predicate TotalsAgree(bill: Bill)
  {
    && bill.subtotal == Subtotal(bill.items)
    && bill.gst == Gst(bill.items)
    && bill.total == bill.subtotal as real + bill.gst
    && bill.profit == Profit(bill.items)
  }

  /** The two-mouse bill: 19998 before tax, 3599.64 GST, 23597.64 in all,
      and 5598 profit. */
  lemma MouseExample()
    ensures Subtotal([LineOf(Catalog[2], 2)]) == 19998
    ensures Gst([LineOf(Catalog[2], 2)]) == 3599.64
    ensures Total([LineOf(Catalog[2], 2)]) == 23597.64
    ensures Profit([LineOf(Catalog[2], 2)]) == 5598
  {
    TotalsSingle(LineOf(Catalog[2], 2));
  }

  /** The billing page's state. `store` is the browser storage it shares
      with the bill history page. */
  class BillingPage {
    var billItems: seq<BillItem>
    var quantity: int
    var customerName: string
    var customerPhone: string
    var billNumber: string
    const store: BillStore

    ghost predicate Valid()
      reads this
    {
      quantity >= 1 && DraftValid(billItems)
    }

    /** Opening the page: an empty draft, quantity 1, blank customer, and the
        mount effect's bill number minted from the clock reading given. */
    constructor (store: BillStore, year: nat, monthIndex: nat, day: nat, random: nat)
      ensures Valid() && this.store == store
      ensures billItems == [] && quantity == 1 && customerName == "" && customerPhone == ""
      ensures billNumber == BillNumbers.BillNumber(year, monthIndex, day, random)
    {
      this.store := store;
      billItems := [];
      quantity := 1;
      customerName := "";
      customerPhone := "";
      billNumber := BillNumbers.BillNumber(year, monthIndex, day, random);
    }

    /** The `+` button of the quantity selector. */
    method IncreaseQuantity()
      requires Valid()
      modifies this
      ensures Valid() && quantity == old(quantity) + 1
      ensures billItems == old(billItems) && customerName == old(customerName)
      ensures customerPhone == old(customerPhone) && billNumber == old(billNumber)
    {
      quantity := quantity + 1;
    }

    /** The `-` button of the quantity selector, which stops at 1. */
    method DecreaseQuantity()
      requires Valid()
      modifies this
      ensures Valid() && quantity == if old(quantity) > 1 then old(quantity) - 1 else 1
      ensures billItems == old(billItems) && customerName == old(customerName)
      ensures customerPhone == old(customerPhone) && billNumber == old(billNumber)
    {
      quantity := if quantity - 1 > 1 then quantity - 1 else 1;
    }

    method SetCustomerName(name: string)
      requires Valid()
      modifies this`customerName
      ensures Valid() && customerName == name
    {
      customerName := name;
    }

    method SetCustomerPhone(phone: string)
      requires Valid()
      modifies this`customerPhone
      ensures Valid() && customerPhone == phone
    {
      customerPhone := phone;
    }

    /** `handleAddItem`: add the selected quantity of `item`, then reset the
        selector to 1. */
    method AddItem(item: InventoryItem)
      requires Valid()
      modifies this
      ensures Valid()
      ensures billItems == AddLine(old(billItems), item, old(quantity)) && quantity == 1
      ensures customerName == old(customerName) && customerPhone == old(customerPhone)
      ensures billNumber == old(billNumber)
    {
      AddKeepsDraftValid(billItems, item, quantity);
      billItems := AddLine(billItems, item, quantity);
      quantity := 1;
    }

    /** `handleRemoveItem`. */
    method RemoveItem(id: int)
      requires Valid()
      modifies this`billItems
      ensures Valid() && billItems == RemoveLine(old(billItems), id)
    {
      RemoveKeepsDraftValid(billItems, id);
      billItems := RemoveLine(billItems, id);
    }

    /** `handleUpdateQuantity`: the `+`/`-` buttons of a line. */
    method UpdateQuantity(id: int, newQuantity: int)
      requires Valid()
      modifies this`billItems
      ensures Valid() && billItems == SetQuantity(old(billItems), id, newQuantity)
    {
      if newQuantity <= 0 {
        return;
      }
      SetQuantityKeepsDraftValid(billItems, id, newQuantity);
      billItems := SetQuantity(billItems, id, newQuantity);
    }

    /** `saveBill`: an empty draft is refused and nothing changes; otherwise
        the bill goes to the front of the stored list, the draft and the
        customer are cleared, and a new number is minted from the clock
        reading given. `now` is the ISO timestamp the bill is dated with. */
    method SaveBill(now: string, year: nat, monthIndex: nat, day: nat, random: nat) returns (saved: bool)
      requires Valid()
      modifies this, store
      ensures Valid() && quantity == old(quantity)
      ensures saved <==> old(billItems) != []
      ensures !saved ==> && billItems == old(billItems)
                         && customerName == old(customerName) && customerPhone == old(customerPhone)
                         && billNumber == old(billNumber) && store.saved == old(store.saved)
      ensures saved ==> store.saved == Some([MakeBill(old(billNumber), old(customerName), old(customerPhone),
                                                      old(billItems), now)] + old(store.saved).GetOr([]))
      ensures saved ==> && billItems == [] && customerName == "" && customerPhone == ""
                        && billNumber == BillNumbers.BillNumber(year, monthIndex, day, random)
    {
      if |billItems| == 0 {
        return false;
      }
      var bill := MakeBill(billNumber, customerName, customerPhone, billItems, now);
      var existing := store.saved.GetOr([]);
      store.saved := Some([bill] + existing);
      StartNextBill(year, monthIndex, day, random);
      saved := true;
    }

    /** What a save leaves behind: an empty draft, a blank customer and a
        freshly minted number. */
    method StartNextBill(year: nat, monthIndex: nat, day: nat, random: nat)
      requires Valid()
      modifies this`billItems, this`customerName, this`customerPhone, this`billNumber
      ensures Valid()
      ensures billItems == [] && customerName == "" && customerPhone == ""
      ensures billNumber == BillNumbers.BillNumber(year, monthIndex, day, random)
    {
      billItems := [];
      customerName := "";
      customerPhone := "";
      billNumber := BillNumbers.BillNumber(year, monthIndex, day, random);
    }
  }

  /** Two saves in a row put the later bill first and the earlier one
      second, in front of whatever was stored before. */
  method SaveTwice(page: BillingPage, first: InventoryItem, second: InventoryItem, now1: string, now2: string)
    requires page.Valid() && page.billItems == []
    modifies page, page.store
    ensures page.store.saved.Some? && |page.store.saved.value| == |old(page.store.saved).GetOr([])| + 2
    ensures page.store.saved.value[1].billNumber == old(page.billNumber)
    ensures page.store.saved.value[0].billNumber == BillNumbers.BillNumber(2024, 0, 1, 7)
    ensures page.store.saved.value[2..] == old(page.store.saved).GetOr([])
    ensures page.store.saved.value[0].items == [LineOf(second, 1)]
    ensures page.store.saved.value[1].items == [LineOf(first, old(page.quantity))]
  {
    page.AddItem(first);
    var ok1 := page.SaveBill(now1, 2024, 0, 1, 7);
    page.AddItem(second);
    var ok2 := page.SaveBill(now2, 2024, 0, 1, 8);
    assert ok1 && ok2;
  }
}
