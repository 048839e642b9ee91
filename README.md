# Small-business console: billing, bill history and inventory

A model of the three pages of a shop's point-of-sale console that hold its
logic:

- **Billing** (`Billing.dfy`, with `BillNumbers.dfy`): the cashier builds a
  draft bill from the catalogue. Adding an item that is already on the draft
  adds to its line rather than creating a second one. Lines can be removed or
  given a new quantity, and a quantity of zero or less is ignored. The page
  shows the subtotal, the GST by category rate (5% clothing, 12% health and
  beauty, 18% everything else), the grand total and the profit. Saving is
  refused for an empty draft. Otherwise the bill goes to the front of the
  stored list, the draft and the customer are cleared, and a new bill number
  `INV-YYMMDD-NNN` is minted.
- **Bill history** (`BillHistory.dfy`): the stored bills are loaded, or three
  sample bills are written when nothing is stored yet. They are filtered by a
  search text (customer name and bill number ignoring case, phone number as
  typed) and by calendar day. A bill's GST is shown as equal CGST and SGST
  halves.
- **Inventory** (`Inventory.dfy`): the item list is filtered by name and
  category. An item is added from a form under the next free id, and an item
  is deleted by id.

`Records.dfy` holds the shared records: catalogue items, bill lines, bills,
and `BillStore`, the browser storage entry `"bills"` that the billing and
history pages share. `Text.dfy` holds `toLowerCase`, `includes`, decimal
rendering, `padStart` and `slice(-k)`. `Seqs.dfy` holds an order-keeping
`filter` and the index map that proves what it keeps. `Wrappers.dfy` has
`Option`. In `BillNumbers.dfy`, `Parse` reads a string of the form
`INV-\d{6}-\d{3}` back into its four fields, and returns nothing for any
other string. The pages never read a bill number back. `Parse` is the
specification of the format that the minted numbers are proved against.

Each page is a class. Its component state is the class's fields, and each
handler is a method that changes them. The logic behind a handler is a pure
function, such as `AddLine`, `RemoveLine`, `SetQuantity`, `FilteredBills` or
`NextId`. The lemmas beside that function prove what the handler promises.

The clock and `Math.random` are parameters. The billing page gets the year,
the 0-based month, the day of the month and the random draw. A saved bill's
ISO timestamp is the string `now`. The history page gets the three sample
timestamps and a `dayOf` function that plays the role of `toDateString`.
Money is exact: rupee amounts are `int`, and GST is `real`.

The model keeps these details of the code:

- Adding a line does not check the quantity. Only the page's quantity
  selector keeps it at 1 or more. So `AddLine` accepts any quantity, and
  `AddKeepsDraftValid` needs `quantity >= 1`.
- The GST lookup `GST_RATES[category] || GST_RATES.default` also falls back
  when a category's rate is 0, not only when the category is missing.
- A bill line copies the item's fields; it does not refer to the catalogue
  entry.
- The year is `getFullYear().toString().slice(-2)`. That gives two digits
  only for years from 10 on (`ShortYearBillNumber`).
- The page shows its first bill number only after the mount effect runs.
  The model's constructor mints that number straight away.

## Model

| member | source | states |
|---|---|---|
| Text.Lower | src/pages/BillHistory.tsx:164-165 | lower-casing keeps the length and maps each character through `LowerChar`, so no upper-case ASCII letter is left |
| Text.Includes | src/pages/BillHistory.tsx:164-166 | `includes`: the searched text is a prefix of the string or of one of its tails; `IncludesIff` shows this is exactly an occurrence at some index |
| Text.Decimal | src/pages/Billing.tsx:123-126 | `toString()` of a non-negative integer is at least one character, all digits; `DecimalRoundTrip` and `DecimalLength` give its value and width |
| Text.IncludesIff | src/pages/BillHistory.tsx:164-166 | `includes` holds exactly when the searched text occurs at some index of the string |
| Text.DecimalRoundTrip | src/pages/Billing.tsx:123-126 | reading the decimal rendering of `n` back as digits gives `n` |
| Text.DecimalLength | src/pages/Billing.tsx:123-126 | the rendering of a number below 10, below 100 or below 1000 has 1, 2 or 3 digits |
| Text.PadStart | src/pages/Billing.tsx:124-126 | `padStart` gives length max(width, length), ends with the original string and is fill before it |
| Text.TakeLast | src/pages/Billing.tsx:123 | `slice(-k)` gives the last k characters, or the whole string when it is shorter or k is 0 |
| Text.PadDecimal | src/pages/Billing.tsx:124-126 | a zero-padded rendering is all digits and reads back as the number |
| Text.LastTwoDigits | src/pages/Billing.tsx:123 | for a number of two or more digits, `slice(-2)` of its rendering is two digits worth n mod 100 |
| Seqs.Filter | src/pages/BillHistory.tsx:162 | `filter` keeps at most as many elements, only elements of the input that pass the test, and every element that passes; `KeptIndicesSpec` shows it keeps them in order at exactly the passing indices |
| Records.BillStore.constructor | src/pages/Billing.tsx:219-223 | the `"bills"` storage entry holds the given list, or nothing while the key is absent |
| BillNumbers.BillNumber | src/pages/Billing.tsx:121-129 | `INV-${year}${month}${day}-${random}` as built at lines 121-129 and again at 231-237; `BillNumberRoundTrip` shows it is well formed and decodes to its fields from year 10 on, and `ShortYearBillNumber` that it is a character short before |
| BillNumbers.BillNumberRoundTrip | src/pages/Billing.tsx:121-129 | for a real clock reading from year 10 on, the minted number is well formed and reads back as year mod 100, the 1-based month, the day and the random draw |
| BillNumbers.ShortYearBillNumber | src/pages/Billing.tsx:123 | before year 10 the number is 13 characters and not well formed |
| Billing.GstRate | src/pages/Billing.tsx:183 | the rate is 5 for Clothing, 12 for Health & Beauty, and the default 18 for Electronics and for any other category |
| Billing.Subtotal | src/pages/Billing.tsx:177-179 | `calculateSubtotal`: the sum of price times quantity over the lines; `TotalsSingle` and `TotalsConcat` characterise it as that sum |
| Billing.Gst | src/pages/Billing.tsx:181-188 | `calculateGST`: the sum of each line's subtotal times its category rate over 100; characterised by `TotalsSingle` and `TotalsConcat`, bounded by `GstBounds` |
| Billing.Total | src/pages/Billing.tsx:190-192 | `calculateTotal`: subtotal plus GST; bounded by `TotalBounds` |
| Billing.Profit | src/pages/Billing.tsx:194-199 | `calculateProfit`: the sum of margin times quantity; characterised by `TotalsSingle` and `TotalsConcat`, and equal to subtotal less cost by `ProfitIsMargin` |
| Billing.TotalsSingle | src/pages/Billing.tsx:177-199 | a one-line draft's subtotal, GST and profit are that line's price times quantity, its GST at the category rate, and its margin times quantity |
| Billing.TotalsConcat | src/pages/Billing.tsx:177-199 | subtotal, GST and profit of two drafts joined are the sums of their parts |
| Billing.TotalsReplace | src/pages/Billing.tsx:177-179 | replacing one line changes the subtotal by the new line's share less the old one's |
| Billing.ProfitIsMargin | src/pages/Billing.tsx:194-199 | profit equals subtotal minus the purchase cost of the lines |
| Billing.GstBounds | src/pages/Billing.tsx:181-188 | with non-negative prices and quantities, GST lies between 5% and 18% of the subtotal |
| Billing.TotalBounds | src/pages/Billing.tsx:190-192 | the total lies between 1.05 and 1.18 times the subtotal |
| Billing.MouseExample | src/pages/Billing.tsx:177-199 | two mice give subtotal 19998, GST 3599.64, total 23597.64 and profit 5598 |
| Billing.LineOf | src/pages/Billing.tsx:153 | a new line carries the item's id, name, category and prices and the chosen quantity |
| Billing.AddLine | src/pages/Billing.tsx:142-154 | `handleAddItem`'s update: `AddMergesExisting` (merge into the existing line in place) and `AddAppendsNew` (append a new line) cover its two branches, `AddKeepsDraftValid` its invariant |
| Billing.RemoveLine | src/pages/Billing.tsx:163-165 | `handleRemoveItem`'s filter: `RemoveDropsLine`, `RemoveAbsent` and `RemoveKeepsDraftValid` state what it keeps |
| Billing.SetQuantity | src/pages/Billing.tsx:167-175 | `handleUpdateQuantity`'s update: `SetQuantityIgnoresNonPositive`, `SetQuantityChangesOnlyLine`, `SetQuantityAbsent` and `SetQuantityKeepsDraftValid` state its effect |
| Billing.AddMergesExisting | src/pages/Billing.tsx:143-151 | adding an item already on the draft adds the quantity to its line, in place; every other line and the line count are unchanged |
| Billing.AddAppendsNew | src/pages/Billing.tsx:152-154 | adding an item not on the draft appends one new line at the end |
| Billing.AddTwiceMerges | src/pages/Billing.tsx:142-154 | adding a new item twice leaves one line, at the first insertion's place, with both quantities |
| Billing.AddKeepsDraftValid | src/pages/Billing.tsx:142-161 | adding a quantity of 1 or more keeps one line per item and every quantity at 1 or more |
| Billing.AddNewTotals | src/pages/Billing.tsx:152-153 | appending a line raises subtotal, GST and profit by that line's share |
| Billing.AddExistingSubtotal | src/pages/Billing.tsx:145-151 | merging raises the subtotal by the existing line's own unit price times the added quantity |
| Billing.RemoveDropsLine | src/pages/Billing.tsx:163-165 | removing an item drops exactly its line and keeps the others in order |
| Billing.RemoveAbsent | src/pages/Billing.tsx:163-165 | removing an item with no line changes nothing |
| Billing.RemoveSubtotal | src/pages/Billing.tsx:163-165 | removing a line takes its share off the subtotal |
| Billing.RemoveKeepsDraftValid | src/pages/Billing.tsx:163-165 | removing keeps one line per item and every quantity at 1 or more |
| Billing.SetQuantityIgnoresNonPositive | src/pages/Billing.tsx:168 | a new quantity of zero or less leaves the draft unchanged |
| Billing.SetQuantityChangesOnlyLine | src/pages/Billing.tsx:170-174 | a positive quantity replaces the quantity of that item's line and nothing else |
| Billing.SetQuantityAbsent | src/pages/Billing.tsx:170-174 | setting the quantity of an item with no line changes nothing |
| Billing.SetQuantityKeepsDraftValid | src/pages/Billing.tsx:167-175 | a quantity update keeps one line per item and every quantity at 1 or more |
| Billing.MakeBill | src/pages/Billing.tsx:207-217 | the saved bill keeps the number, customer, lines and date, and its stored subtotal, GST, total and profit are those of its lines |
| Billing.BillingPage.constructor | src/pages/Billing.tsx:111-129 | the page opens with an empty draft, quantity 1, a blank customer and a number minted from the clock |
| Billing.BillingPage.IncreaseQuantity | src/pages/Billing.tsx:348 | the selector goes up by one and nothing else changes |
| Billing.BillingPage.DecreaseQuantity | src/pages/Billing.tsx:340 | the selector goes down by one but not below 1 |
| Billing.BillingPage.SetCustomerName | src/pages/Billing.tsx:264 | the customer name becomes the typed text |
| Billing.BillingPage.SetCustomerPhone | src/pages/Billing.tsx:273 | the customer phone becomes the typed text |
| Billing.BillingPage.AddItem | src/pages/Billing.tsx:142-161 | the draft becomes `AddLine` of the old draft with the selected quantity, the selector resets to 1, and the draft stays valid |
| Billing.BillingPage.RemoveItem | src/pages/Billing.tsx:163-165 | the draft becomes `RemoveLine` of the old draft and stays valid |
| Billing.BillingPage.UpdateQuantity | src/pages/Billing.tsx:167-175 | the draft becomes `SetQuantity` of the old draft and stays valid |
| Billing.BillingPage.SaveBill | src/pages/Billing.tsx:201-238 | an empty draft saves nothing and changes nothing; otherwise the bill goes to the front of the stored list, or of an empty list when nothing is stored, the draft and customer are cleared, and a new number is minted |
| Billing.BillingPage.StartNextBill | src/pages/Billing.tsx:227-237 | after a save the draft is empty, the customer blank and the number minted from the clock |
| Billing.SaveTwice | src/pages/Billing.tsx:219-221 | two saves in a row store the later bill (its lines and new number) first and the earlier bill (its lines and the earlier number) second, ahead of the older bills |
| BillHistory.FilteredBillsSpec | src/pages/BillHistory.tsx:162-172 | a bill is shown exactly when it matches the search and the picked day; the shown bills keep the stored order, and there are never more shown than stored (the count at line 297) |
| BillHistory.NoFiltersShowsAll | src/pages/BillHistory.tsx:162-172 | with no search text and no day picked, every bill is shown in order |
| BillHistory.MatchesSearch | src/pages/BillHistory.tsx:163-166 | the search test: empty, or found ignoring case in the customer name or the bill number, or found as typed in the phone |
| BillHistory.MatchesDate | src/pages/BillHistory.tsx:168-169 | the date test: no day picked, or the bill's timestamp falls on the picked day |
| BillHistory.FilteredBills | src/pages/BillHistory.tsx:162-172 | `filteredBills`: `FilteredBillsSpec` shows it keeps, in order, exactly the bills passing both tests, and `NoFiltersShowsAll` that no filter keeps all |
| BillHistory.GstSplit | src/pages/BillHistory.tsx:371-377 | CGST and SGST are equal and add up to the bill's GST |
| BillHistory.SampleBillsAddUp | src/pages/BillHistory.tsx:78-155 | each sample bill's subtotal is the sum of its lines, and its total is subtotal plus GST |
| BillHistory.SampleGstIsFlat | src/pages/BillHistory.tsx:78-155 | every sample bill's GST is 18% of its subtotal, so the clothing bill's GST differs from what the billing page would charge |
| BillHistory.SampleBills | src/pages/BillHistory.tsx:78-155 | the three sample bills as written; `SampleBillsAddUp` and `SampleGstIsFlat` state how their figures relate |
| BillHistory.BillHistoryPage.constructor | src/pages/BillHistory.tsx:65-68 | the page opens with no bills, no search text and no day picked |
| BillHistory.BillHistoryPage.LoadOrSeed | src/pages/BillHistory.tsx:72-160 | stored bills are shown as stored and left alone; with nothing stored, the three sample bills are shown and written to the store |
| BillHistory.BillHistoryPage.SetSearch | src/pages/BillHistory.tsx:210 | the search text becomes the typed text |
| BillHistory.BillHistoryPage.PickDate | src/pages/BillHistory.tsx:226 | the picked day becomes the chosen one, or none |
| BillHistory.BillHistoryPage.ClearFilters | src/pages/BillHistory.tsx:174-177 | the search and the day are cleared, and then every loaded bill is shown in order, whatever the time zone |
| Inventory.FilteredItemsSpec | src/pages/Inventory.tsx:129-133 | an item is shown exactly when its name contains the search text ignoring case and it is in the selected category; the shown items keep their order |
| Inventory.NoFilterShowsAll | src/pages/Inventory.tsx:129-133 | with no search text and no category every item is shown |
| Inventory.NameMatchIff | src/pages/Inventory.tsx:131 | the name test holds exactly when the lower-cased search occurs in the lower-cased name |
| Inventory.IsShown | src/pages/Inventory.tsx:130-132 | the item test: empty search or the name contains the search ignoring case, and no category or the item's category |
| Inventory.FilteredItems | src/pages/Inventory.tsx:129-133 | `filteredItems`: `FilteredItemsSpec` shows it keeps, in order, exactly the items passing the test, and `NoFilterShowsAll` that no filter keeps all |
| Inventory.MaxId | src/pages/Inventory.tsx:141 | `Math.max(0, ...ids)` is at least 0, at least every id, and is 0 or one of the ids |
| Inventory.NextId | src/pages/Inventory.tsx:141 | the new id is at least 1 and larger than every id in use |
| Inventory.ItemOf | src/pages/Inventory.tsx:143 | the new item has the form's fields and the new id |
| Inventory.AppendNextIdKeepsDistinct | src/pages/Inventory.tsx:141-143 | appending under the new id keeps all ids distinct |
| Inventory.InitialIdsDistinct | src/pages/Inventory.tsx:60-111 | the starting items have distinct ids |
| Inventory.DeleteSpec | src/pages/Inventory.tsx:157-158 | deleting keeps, in order, exactly the items with another id, so none with the deleted id is left |
| Inventory.DeleteAbsent | src/pages/Inventory.tsx:157-158 | deleting an id no item has changes nothing |
| Inventory.DeleteItem | src/pages/Inventory.tsx:157-158 | `handleDeleteItem`'s filter: `DeleteSpec` and `DeleteAbsent` state what it keeps |
| Inventory.InventoryPage.constructor | src/pages/Inventory.tsx:114-127 | the page opens with the starting items, no search text, no category and a blank form |
| Inventory.InventoryPage.SetSearch | src/pages/Inventory.tsx:182 | the search text becomes the typed text |
| Inventory.InventoryPage.SelectCategory | src/pages/Inventory.tsx:196-203 | the category filter becomes the chosen category, or none |
| Inventory.InventoryPage.EditForm | src/pages/Inventory.tsx:304-370 | the form becomes what was typed |
| Inventory.InventoryPage.AddItem | src/pages/Inventory.tsx:135-155 | an add is refused, changing nothing, exactly when the name or category is empty; otherwise the form becomes a new last item under `NextId`, the form is reset, and ids stay distinct |
| Inventory.InventoryPage.Delete | src/pages/Inventory.tsx:157-160 | the list becomes `DeleteItem` of the old list and ids stay distinct |

## Left out

- Rendering, dialogs, toasts, the share and QR scanner dialogs, the add-item dialog's open state and the profit-visibility toggle are user interface with no logic to model.
- The billing page's catalogue search (`src/pages/Billing.tsx:131-140`) and its `search`, `searchResults` and `selectedItem` state only choose which item `AddItem` receives. The item is a parameter here.
- Bill lines keep only the six fields the history page reads (id, name, category, selling price, purchase price, quantity). The spread in `src/pages/Billing.tsx:153` also copies `mrp`, `stock` and `hsnCode`, which nothing reads back.
- Local storage is modelled as one `Option<seq<Bill>>` value. JSON serialisation and parsing, a corrupt or non-array entry, and an entry holding the empty string are not modelled.
- `Date`, `toISOString`, `toDateString`, time zones and `Math.random` are not modelled. Their results are parameters: the clock fields, the `now` timestamps and the `dayOf` function.
- Text.Decimal: plain positional digits only; JavaScript's exponent notation from 1e21 is not modelled, as the pages render only years, months, days and draws below 1000.
- Text.Lower: only the ASCII letters A-Z are lower-cased. `toLowerCase` also folds the rest of Unicode, which this model leaves out.
- Billing.GstRate: the rate is looked up by category name alone. A category named after an `Object` prototype member (`"constructor"`, say) would find that member in JavaScript; the model gives it the default rate.
- Money is exact: prices are integers and GST is a real. JavaScript's floating-point rounding (e.g. in `itemSubtotal * (gstRate / 100)`) and `toLocaleString` formatting are not modelled.
- Inventory.ItemForm: the form's number fields are integers. `Number(e.target.value)` can also give `NaN` or a fraction, which the model leaves out.
- Inventory.MaxId: the JavaScript engine's limit on spread arguments in `Math.max(0, ...ids)` is not modelled.
- The inventory page's profit percentage (`src/pages/Inventory.tsx:162-166`) is a floating-point display string and is not modelled.
- The sample bills' GST and profit figures are used as stored. `SampleGstIsFlat` shows how their GST differs from the billing page's rates.
- The dashboard, reports, settings, registration, WhatsApp sharing and app shell pages are not part of this model.
