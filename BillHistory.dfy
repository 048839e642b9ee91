/** The bill history page: the saved bills, seeded with three sample bills
    on first use, and a filter by search text and calendar day. */
module BillHistory {
  import opened Wrappers
  import opened Text
  import opened Seqs
  import opened Records
  import Billing

  /** The search box: empty, or found case-insensitively in the customer's
      name or the bill number, or found as typed in the phone number. */
  predicate MatchesSearch(bill: Bill, search: string)
  {
    || search == ""
    || Includes(Lower(bill.customerName), Lower(search))
    || Includes(Lower(bill.billNumber), Lower(search))
    || Includes(bill.customerPhone, search)
  }

  /** The date picker: unset, or the bill was made on the picked day.
      `dayOf` gives the calendar day, in the browser's time zone, of an ISO
      timestamp; `date` is the picked day in the same numbering. */
  predicate MatchesDate(bill: Bill, date: Option<int>, dayOf: string -> int)
  {
    date.None? || dayOf(bill.date) == date.value
  }

  function Keeps(search: string, date: Option<int>, dayOf: string -> int): Bill -> bool
  {
    (bill: Bill) => MatchesSearch(bill, search) && MatchesDate(bill, date, dayOf)
  }

  /** `filteredBills`. */
  function FilteredBills(bills: seq<Bill>, search: string, date: Option<int>, dayOf: string -> int): seq<Bill>
  {
    Filter(bills, Keeps(search, date, dayOf))
  }

  /** A bill is shown exactly when it matches both the search and the date;
      the shown bills keep the stored order, so there are never more shown
      than stored. */
  lemma FilteredBillsSpec(bills: seq<Bill>, search: string, date: Option<int>, dayOf: string -> int)
    ensures |FilteredBills(bills, search, date, dayOf)| <= |bills|
    ensures EmbedsAt(FilteredBills(bills, search, date, dayOf), bills, KeptIndices(bills, Keeps(search, date, dayOf)))
    ensures forall j :: 0 <= j < |bills| ==>
              (j in KeptIndices(bills, Keeps(search, date, dayOf)) <==>
               MatchesSearch(bills[j], search) && MatchesDate(bills[j], date, dayOf))
  {
    KeptIndicesSpec(bills, Keeps(search, date, dayOf));
    assert forall j :: 0 <= j < |bills| ==>
             Keeps(search, date, dayOf)(bills[j]) == (MatchesSearch(bills[j], search) && MatchesDate(bills[j], date, dayOf));
  }

  /** With no search text and no day picked, every stored bill is shown, in order. */
  lemma NoFiltersShowsAll(bills: seq<Bill>, dayOf: string -> int)
    ensures FilteredBills(bills, "", None, dayOf) == bills
  {
    FilterKeepsAll(bills, Keeps("", None, dayOf));
  }

  /** `(gst / 2)` shown twice, as CGST and as SGST: equal halves that add back up to the GST. */
  function GstSplit(gst: real): (split: (real, real))
    ensures split.0 == split.1 && split.0 + split.1 == gst
  {
    (gst / 2.0, gst / 2.0)
  }

  /** The three bills written to an empty store, dated now, a day ago and two
      days ago. */
  function SampleBills(now: string, oneDayAgo: string, twoDaysAgo: string): seq<Bill>
  {
    [
      Bill("INV-230417-001", "John Doe", "9898989898",
           [BillItem(1, "Samsung Galaxy S21", "Electronics", 64999, 58000, 1),
            BillItem(3, "Logitech MX Master Mouse", "Electronics", 9999, 7200, 2)],
           84997, 15299.46, 100296.46, 9798, now),
      Bill("INV-230417-002", "Jane Smith", "9876543210",
           [BillItem(2, "Nike Air Max", "Clothing", 11999, 8500, 1)],
           11999, 2159.82, 14158.82, 3499, oneDayAgo),
      Bill("INV-230416-001", "Raj Kumar", "8765432109",
           [BillItem(4, "Sony WH-1000XM4 Headphones", "Electronics", 27999, 22000, 1),
            BillItem(5, "Dettol Hand Sanitizer", "Health & Beauty", 230, 180, 3)],
           28689, 5164.02, 33853.02, 6069, twoDaysAgo)
    ]
  }

  /** Each sample bill's subtotal is the sum of its lines and its total is
      its subtotal plus its GST. */
  lemma SampleBillsAddUp(now: string, oneDayAgo: string, twoDaysAgo: string)
    ensures forall k :: 0 <= k < 3 ==>
              var bill := SampleBills(now, oneDayAgo, twoDaysAgo)[k];
              bill.subtotal == Billing.Subtotal(bill.items) && bill.total == bill.subtotal as real + bill.gst
  {
    var bills := SampleBills(now, oneDayAgo, twoDaysAgo);
    forall k | 0 <= k < 3
      ensures bills[k].subtotal == Billing.Subtotal(bills[k].items)
    {
      var items := bills[k].items;
      if |items| == 2 {
        Billing.SubtotalConcat([items[0]], [items[1]]);
        assert items == [items[0]] + [items[1]];
        Billing.TotalsSingle(items[0]);
        Billing.TotalsSingle(items[1]);
      } else {
        Billing.TotalsSingle(items[0]);
      }
    }
  }

  /** The sample bills charge a flat 18%: the Nike line is Clothing, which the
      billing page taxes at 5%, so its bill's GST is not what billing would
      have computed. */
  lemma SampleGstIsFlat(now: string, oneDayAgo: string, twoDaysAgo: string)
    ensures forall k :: 0 <= k < 3 ==>
              var bill := SampleBills(now, oneDayAgo, twoDaysAgo)[k];
              bill.gst == bill.subtotal as real * 0.18
    ensures SampleBills(now, oneDayAgo, twoDaysAgo)[1].gst
         != Billing.Gst(SampleBills(now, oneDayAgo, twoDaysAgo)[1].items)
  {
    var line := SampleBills(now, oneDayAgo, twoDaysAgo)[1].items[0];
    Billing.TotalsSingle(line);
    assert Billing.LineGst(line) == 599.95;
  }

  /** The page's state; `store` is the browser storage it shares with the
      billing page. */
  class BillHistoryPage {
    var bills: seq<Bill>
    var search: string
    var date: Option<int>
    const store: BillStore

    constructor (store: BillStore)
      ensures this.store == store && bills == [] && search == "" && date == None
    {
      this.store := store;
      bills := [];
      search := "";
      date := None;
    }

    /** The bills on screen. */
    function Shown(dayOf: string -> int): seq<Bill>
      reads this
    {
      FilteredBills(bills, search, date, dayOf)
    }

    /** The mount effect: show the stored bills if there are any; otherwise
        show the sample bills and write them to the store. */
    method LoadOrSeed(now: string, oneDayAgo: string, twoDaysAgo: string)
      modifies this`bills, store
      ensures old(store.saved).Some? ==> bills == old(store.saved).value && store.saved == old(store.saved)
      ensures old(store.saved).None? ==>
                var samples := SampleBills(now, oneDayAgo, twoDaysAgo);
                bills == samples && store.saved == Some(samples)
    {
      match store.saved
      case Some(stored) =>
        bills := stored;
      case None =>
        var samples := SampleBills(now, oneDayAgo, twoDaysAgo);
        bills := samples;
        store.saved := Some(samples);
    }

    method SetSearch(text: string)
      modifies this`search
      ensures search == text
    {
      search := text;
    }

    method PickDate(day: Option<int>)
      modifies this`date
      ensures date == day
    {
      date := day;
    }

    /** `clearFilters`: afterwards every loaded bill is shown, in order. */
    method ClearFilters()
      modifies this`search, this`date
      ensures search == "" && date == None
      ensures forall dayOf: string -> int :: Shown(dayOf) == bills
    {
      search := "";
      date := None;
      forall dayOf: string -> int
        ensures Shown(dayOf) == bills
      {
        NoFiltersShowsAll(bills, dayOf);
      }
    }
  }
}
