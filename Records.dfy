/** The records the pages share: catalogue items, bill lines, bills, and the
    browser store that holds the saved bills. */
module Records {
  import opened Wrappers

  /** A catalogue entry; prices in whole rupees. */
  datatype InventoryItem = InventoryItem(
    id: int,
    name: string,
    category: string,
    mrp: int,
    purchasePrice: int,
    sellingPrice: int,
    stock: int,
    hsnCode: string)

  /** One line of a bill: the item fields the bill keeps, and a quantity. */
  datatype BillItem = BillItem(
    id: int,
    name: string,
    category: string,
    sellingPrice: int,
    purchasePrice: int,
    quantity: int)

  /** A saved bill: a snapshot of the draft with its totals fixed at save time. */
  datatype Bill = Bill(
    billNumber: string,
    customerName: string,
    customerPhone: string,
    items: seq<BillItem>,
    subtotal: int,
    gst: real,
    total: real,
    profit: int,
    date: string)

  /** The `"bills"` entry of the browser's local storage, newest bill first;
      `None` while the key has never been written. */
  class BillStore {
    var saved: Option<seq<Bill>>

    constructor (saved: Option<seq<Bill>>)
      ensures this.saved == saved
    {
      this.saved := saved;
    }
  }
}
