/** The admin order list (components/AdminDashboard.tsx): a status filter
    and a free-text search over the stored orders, pages of ten, the
    status, note and delete actions, and the CSV export. The component's
    state becomes the fields of `AdminDashboard`; each handler ends in the
    state its effects settle on (reload from the store, refilter, back to
    page 1). */
module AdminDashboard {
  import opened Types
  import Seqs
  import DbService

  /** `toLowerCase` on one character (ASCII letters only). */
  function LowerChar(c: char): (d: char)
    ensures 'A' <= c <= 'Z' ==> 'a' <= d <= 'z' && d as int == c as int + 32
    ensures !('A' <= c <= 'Z') ==> d == c
  {
    if 'A' <= c <= 'Z' then (c as int + 32) as char else c
  }

  /** `toLowerCase`: the same length, each letter lowered. */
  function ToLower(s: string): (r: string)
    ensures |r| == |s|
    ensures forall i :: 0 <= i < |s| ==> r[i] == LowerChar(s[i])
  {
    seq(|s|, i requires 0 <= i < |s| => LowerChar(s[i]))
  }

  /** The search test for one order against the lowered term `lower`: the
      ids are lowered before the comparison, the phone numbers and the
      reference are compared as stored, and an empty phone or a missing or
      empty reference never matches. */
  predicate MatchesSearch(o: StoredOrder, lower: string) {
    Seqs.Includes(ToLower(o.orderId), lower)
    || Seqs.Includes(o.customerContact, lower)
    || Seqs.Includes(ToLower(o.customerId), lower)
    || (o.payment.senderPhone != "" && Seqs.Includes(o.payment.senderPhone, lower))
    || (o.payment.referenceNumber.Some? && o.payment.referenceNumber.value != ""
        && Seqs.Includes(o.payment.referenceNumber.value, lower))
  }

  /** The status filter: `None` is 'All'. */
  predicate PassesStatus(o: StoredOrder, statusFilter: Option<OrderStatus>) {
    statusFilter.None? || o.status == statusFilter.value
  }

  /** The search: an empty term passes everything. */
  predicate PassesSearch(o: StoredOrder, searchTerm: string) {
    searchTerm == "" || MatchesSearch(o, ToLower(searchTerm))
  }

  /** The filter effect: first by status, then by search. */
  function FilterOrders(orders: seq<StoredOrder>, searchTerm: string, statusFilter: Option<OrderStatus>): seq<StoredOrder> {
    var byStatus := if statusFilter.Some? then Seqs.Filter((o: StoredOrder) => o.status == statusFilter.value, orders) else orders;
    if searchTerm != "" then Seqs.Filter((o: StoredOrder) => MatchesSearch(o, ToLower(searchTerm)), byStatus) else byStatus
  }

  /** The two stages are one filter by both tests: the result is a
      subsequence of the orders, holding exactly those that pass. */
  lemma {:induction false} FilterOrdersIsOneFilter(orders: seq<StoredOrder>, searchTerm: string, statusFilter: Option<OrderStatus>)
    ensures FilterOrders(orders, searchTerm, statusFilter)
      == Seqs.Filter((o: StoredOrder) => PassesStatus(o, statusFilter) && PassesSearch(o, searchTerm), orders)
    ensures Seqs.IsSubsequence(FilterOrders(orders, searchTerm, statusFilter), orders)
  {
    var both := (o: StoredOrder) => PassesStatus(o, statusFilter) && PassesSearch(o, searchTerm);
    var bySearch := (o: StoredOrder) => MatchesSearch(o, ToLower(searchTerm));
    if statusFilter.Some? {
      var byStatus := (o: StoredOrder) => o.status == statusFilter.value;
      if searchTerm != "" {
        Seqs.FilterFilter(byStatus, bySearch, both, orders);
      } else {
        Seqs.FilterFilter(byStatus, (o: StoredOrder) => true, both, orders);
      }
    } else if searchTerm != "" {
      Seqs.FilterFilter((o: StoredOrder) => true, bySearch, both, orders);
    } else {
      assert forall i :: 0 <= i < |orders| ==> both(orders[i]);
    }
  }

  /** With 'All' and an empty search the list is the whole list. */
  lemma NoFilterKeepsAll(orders: seq<StoredOrder>)
    ensures FilterOrders(orders, "", None) == orders
  {
  }

  /** An order passes the filter exactly when it passes both tests. */
  lemma {:induction false} FilterOrdersMembers(orders: seq<StoredOrder>, searchTerm: string, statusFilter: Option<OrderStatus>)
    ensures forall o :: o in FilterOrders(orders, searchTerm, statusFilter) <==>
      o in orders && PassesStatus(o, statusFilter) && PassesSearch(o, searchTerm)
  {
    FilterOrdersIsOneFilter(orders, searchTerm, statusFilter);
    var r := FilterOrders(orders, searchTerm, statusFilter);
    forall o | o in r ensures o in orders && PassesStatus(o, statusFilter) && PassesSearch(o, searchTerm) {
      var i :| 0 <= i < |r| && r[i] == o;
    }
    forall o | o in orders && PassesStatus(o, statusFilter) && PassesSearch(o, searchTerm) ensures o in r {
      var i :| 0 <= i < |orders| && orders[i] == o;
    }
  }

  /** Marking the (only) order with an id Completed takes it out of the
      Pending list and puts it in the Completed list. */
  lemma {:induction false} CompletedLeavesPendingFilter(orders: seq<StoredOrder>, orderId: string, i: int)
    requires 0 <= i < |orders| && orders[i].orderId == orderId && orders[i].status == Pending
    requires forall j :: 0 <= j < |orders| && orders[j].orderId == orderId ==> j == i
    ensures var updated := DbService.WithStatus(orders, orderId, Completed);
      && (forall o :: o in FilterOrders(updated, "", Some(Pending)) ==> o.orderId != orderId)
      && orders[i].(status := Completed) in FilterOrders(updated, "", Some(Completed))
  {
    var updated := DbService.WithStatus(orders, orderId, Completed);
    DbService.WithStatusEffect(orders, orderId, Completed);
    assert DbService.IsFirstWithId(orders, orderId, i);
    FilterOrdersMembers(updated, "", Some(Pending));
    FilterOrdersMembers(updated, "", Some(Completed));
    forall o | o in updated && o.orderId == orderId ensures o.status == Completed {
      var j :| 0 <= j < |updated| && updated[j] == o;
    }
    assert updated[i] == orders[i].(status := Completed);
  }

  const ITEMS_PER_PAGE: int := 10

  /** `currentOrders`: `filteredOrders.slice((page - 1) * 10, page * 10)`. */
  function PageSlice(filtered: seq<StoredOrder>, page: int): seq<StoredOrder> {
    var indexOfLastItem := page * ITEMS_PER_PAGE;
    var indexOfFirstItem := indexOfLastItem - ITEMS_PER_PAGE;
    Seqs.Slice(filtered, indexOfFirstItem, indexOfLastItem)
  }

  /** `Math.ceil(n / 10)`. */
  function TotalPages(n: nat): (t: nat)
    ensures t * ITEMS_PER_PAGE >= n
    ensures n > 0 ==> (t - 1) * ITEMS_PER_PAGE < n
    ensures t == 0 <==> n == 0
  {
    (n + ITEMS_PER_PAGE - 1) / ITEMS_PER_PAGE
  }

  /** Page `page` (from 1) holds the orders from position (page-1)*10 on,
      at most ten of them, and none past the end. */
  lemma PageSliceContents(filtered: seq<StoredOrder>, page: int)
    requires page >= 1
    ensures |PageSlice(filtered, page)| <= ITEMS_PER_PAGE
    ensures (page - 1) * ITEMS_PER_PAGE < |filtered| ==>
      PageSlice(filtered, page) == filtered[(page - 1) * ITEMS_PER_PAGE ..
                                            if page * ITEMS_PER_PAGE < |filtered| then page * ITEMS_PER_PAGE else |filtered|]
    ensures (page - 1) * ITEMS_PER_PAGE >= |filtered| ==> PageSlice(filtered, page) == []
  {
  }

  /** Filtered order `i` is shown on page i/10 + 1, one of the pages
      1..totalPages, at position i mod 10. */
  lemma {:induction false} EveryOrderOnItsPage(filtered: seq<StoredOrder>, i: int)
    requires 0 <= i < |filtered|
    ensures var page := i / ITEMS_PER_PAGE + 1;
      && 1 <= page <= TotalPages(|filtered|)
      && i % ITEMS_PER_PAGE < |PageSlice(filtered, page)|
      && PageSlice(filtered, page)[i % ITEMS_PER_PAGE] == filtered[i]
  {
    var page := i / ITEMS_PER_PAGE + 1;
    PageSliceContents(filtered, page);
    assert (page - 1) * ITEMS_PER_PAGE + i % ITEMS_PER_PAGE == i;
  }

  /** The Previous button: one page back, never below 1. */
  function PrevPage(page: int): (p: int)
    ensures p >= 1
    ensures page > 1 ==> p == page - 1
    ensures page <= 1 ==> p == 1
  {
    if page - 1 > 1 then page - 1 else 1
  }

  /** The Next button: one page on, never past the last page. */
  function NextPage(page: int, totalPages: int): (p: int)
    ensures p <= totalPages
    ensures page < totalPages ==> p == page + 1
    ensures page >= totalPages ==> p == totalPages
  {
    if page + 1 < totalPages then page + 1 else totalPages
  }

  /** Both buttons keep a page that is in range in range. */
  lemma PagingStaysInRange(page: int, totalPages: int)
    requires 1 <= page <= totalPages
    ensures 1 <= PrevPage(page) <= totalPages
    ensures 1 <= NextPage(page, totalPages) <= totalPages
  {
  }

  const CSV_HEADERS: seq<string> := ["Order ID", "Date", "Customer ID", "Contact", "Platform", "Service",
    "Quantity", "Link", "Note", "Unit Price", "Total", "Status", "PayMethod", "SenderPhone", "RefNo"]

  /** `x || 'N/A'` on a string. */
  function OrNA(s: string): (r: string)
    ensures s == "" ==> r == "N/A"
    ensures s != "" ==> r == s
  {
    if s == "" then "N/A" else s
  }

  predicate AllDigits(s: string) {
    forall i :: 0 <= i < |s| ==> '0' <= s[i] <= '9'
  }

  /** The number a string of decimal digits denotes. */
  function DigitsValue(s: string): nat
    requires AllDigits(s)
  {
    if s == [] then 0 else DigitsValue(s[..|s| - 1]) * 10 + (s[|s| - 1] as int - '0' as int)
  }

  /** The decimal digits of a natural number. */
  function DecimalDigits(n: nat): (r: string)
    ensures |r| >= 1 && AllDigits(r)
    decreases n
  {
    var d := ['0' + (n % 10) as char];
    if n < 10 then d else DecimalDigits(n / 10) + d
  }

  /** The digits read back to the number, with no leading zero. */
  lemma {:induction false} DecimalDigitsReadBack(n: nat)
    ensures DigitsValue(DecimalDigits(n)) == n
    ensures DecimalDigits(n)[0] == '0' ==> n == 0
    decreases n
  {
    if n >= 10 {
      DecimalDigitsReadBack(n / 10);
      var r := DecimalDigits(n);
      assert r[..|r| - 1] == DecimalDigits(n / 10);
    }
  }

  /** `toFixed(2)` on an integer amount. */
  function Fixed2(n: int): (r: string)
    ensures |r| >= 4 && r[|r| - 3..] == ".00"
    ensures n < 0 <==> r[0] == '-'
  {
    if n < 0 then "-" + DecimalDigits(-n) + ".00" else DecimalDigits(n) + ".00"
  }

  /** What `Fixed2` writes reads back to the amount: the sign, then the
      digits of the magnitude, then ".00". */
  lemma Fixed2ReadsBack(n: int)
    ensures n >= 0 ==> AllDigits(Fixed2(n)[..|Fixed2(n)| - 3]) && DigitsValue(Fixed2(n)[..|Fixed2(n)| - 3]) == n
    ensures n < 0 ==> AllDigits(Fixed2(n)[1..|Fixed2(n)| - 3]) && DigitsValue(Fixed2(n)[1..|Fixed2(n)| - 3]) == -n
  {
    if n < 0 {
      DecimalDigitsReadBack(-n);
      var digits := DecimalDigits(-n);
      assert ("-" + digits + ".00")[1..|digits| + 1] == digits;
    } else {
      DecimalDigitsReadBack(n);
      var digits := DecimalDigits(n);
      assert (digits + ".00")[..|digits|] == digits;
    }
  }

  /** The CSV row of one line of an order: the order's fields repeat on
      every line of that order. */
  function Row(o: StoredOrder, item: CartItem): (row: seq<string>)
    ensures |row| == |CSV_HEADERS|
  {
    [ o.orderId,
      o.orderDate,
      o.customerId,
      o.customerContact,
      item.platform.Key(),
      item.boostType.Key(),
      item.quantityLabel,
      item.link,
      if item.note.Some? then item.note.value else "",
      Fixed2(item.price),
      Fixed2(o.totalAmount),
      o.status.Key(),
      OrNA(o.payment.payMethod.Key()),
      OrNA(o.payment.senderPhone),
      if o.payment.referenceNumber.Some? then OrNA(o.payment.referenceNumber.value) else "N/A" ]
  }

  /** The first eight cells: the order's ids, date and contact, then the
      line's platform, service, quantity and link. */
  lemma RowOrderCells(o: StoredOrder, item: CartItem)
    ensures var row := Row(o, item);
      && row[0] == o.orderId && row[1] == o.orderDate && row[2] == o.customerId && row[3] == o.customerContact
      && row[4] == item.platform.Key() && row[5] == item.boostType.Key() && row[6] == item.quantityLabel
      && row[7] == item.link
  {
  }

  /** The last seven cells: the note ("" when absent), both amounts with
      two decimals, the status, and the payment fields ("N/A" when empty or
      absent). */
  lemma RowAmountCells(o: StoredOrder, item: CartItem)
    ensures var row := Row(o, item);
      && row[8] == (if item.note.Some? then item.note.value else "")
      && row[9] == Fixed2(item.price) && row[10] == Fixed2(o.totalAmount) && row[11] == o.status.Key()
      && row[12] == OrNA(o.payment.payMethod.Key()) && row[13] == OrNA(o.payment.senderPhone)
      && (o.payment.referenceNumber.None? ==> row[14] == "N/A")
      && (o.payment.referenceNumber.Some? ==> row[14] == OrNA(o.payment.referenceNumber.value))
  {
  }

  /** The rows of the first lines of one order. */
  function ItemRows(o: StoredOrder, items: seq<CartItem>): (rows: seq<seq<string>>)
    ensures |rows| == |items|
    ensures forall j :: 0 <= j < |items| ==> rows[j] == Row(o, items[j])
  {
    seq(|items|, j requires 0 <= j < |items| => Row(o, items[j]))
  }

  /** The rows of the export, order after order. */
  function CsvRows(orders: seq<StoredOrder>): seq<seq<string>> {
    if orders == [] then []
    else CsvRows(orders[..|orders| - 1]) + ItemRows(orders[|orders| - 1], orders[|orders| - 1].items)
  }

  /** The number of lines over all the orders. */
  function LineCount(orders: seq<StoredOrder>): nat {
    if orders == [] then 0 else LineCount(orders[..|orders| - 1]) + |orders[|orders| - 1].items|
  }

  /** One row per line of each order. */
  lemma {:induction false} CsvRowsCount(orders: seq<StoredOrder>)
    ensures |CsvRows(orders)| == LineCount(orders)
  {
    if orders != [] {
      CsvRowsCount(orders[..|orders| - 1]);
    }
  }

  /** Line `j` of order `k` is row LineCount(orders[..k]) + j: the rows
      follow the orders, and within an order its lines, in order. */
  lemma {:induction false} CsvRowAt(orders: seq<StoredOrder>, k: int, j: int)
    requires 0 <= k < |orders| && 0 <= j < |orders[k].items|
    ensures LineCount(orders[..k]) + j < |CsvRows(orders)|
    ensures CsvRows(orders)[LineCount(orders[..k]) + j] == Row(orders[k], orders[k].items[j])
    decreases |orders|
  {
    var init, last := orders[..|orders| - 1], orders[|orders| - 1];
    assert CsvRows(orders) == CsvRows(init) + ItemRows(last, last.items);
    CsvRowsCount(init);
    if k == |orders| - 1 {
      assert orders[..k] == init;
    } else {
      assert init[..k] == orders[..k];
      CsvRowAt(init, k, j);
    }
  }

  /** `exportCSV`'s nested loops: one row per line of each filtered order. */
  method ExportRows(filtered: seq<StoredOrder>) returns (rows: seq<seq<string>>)
    ensures rows == CsvRows(filtered)
    ensures |rows| == LineCount(filtered)
  {
    rows := [];
    for k := 0 to |filtered|
      invariant rows == CsvRows(filtered[..k])
    {
      var o := filtered[k];
      for j := 0 to |o.items|
        invariant rows == CsvRows(filtered[..k]) + ItemRows(o, o.items[..j])
      {
        rows := rows + [Row(o, o.items[j])];
        assert ItemRows(o, o.items[..j + 1]) == ItemRows(o, o.items[..j]) + [Row(o, o.items[j])];
      }
      assert o.items[..|o.items|] == o.items;
      assert filtered[..k + 1][..k] == filtered[..k];
    }
    assert filtered[..|filtered|] == filtered;
    CsvRowsCount(filtered);
  }

  /** `arr.join(sep)`. */
  function Join(parts: seq<string>, sep: string): string {
    if parts == [] then ""
    else if |parts| == 1 then parts[0]
    else parts[0] + sep + Join(parts[1..], sep)
  }

  const CSV_PREFIX: string := "data:text/csv;charset=utf-8,"

  /** A joined list starts with its first part. */
  lemma JoinStartsWithFirst(parts: seq<string>, sep: string)
    requires parts != []
    ensures Seqs.IsPrefix(parts[0], Join(parts, sep))
  {
    if |parts| > 1 {
      assert (parts[0] + sep + Join(parts[1..], sep))[..|parts[0]|] == parts[0];
    }
  }

  /** The text of an export with the given header line: the data-URL
      prefix, the header line, then one line per row. */
  function CsvText(header: string, rows: seq<seq<string>>): (text: string)
    ensures Seqs.IsPrefix(CSV_PREFIX + header, text)
  {
    var lines := [header] + seq(|rows|, i requires 0 <= i < |rows| => Join(rows[i], ","));
    JoinStartsWithFirst(lines, "\n");
    var body := Join(lines, "\n");
    assert (CSV_PREFIX + body)[..|CSV_PREFIX + header|] == CSV_PREFIX + body[..|header|];
    CSV_PREFIX + body
  }

  /** The export's text, under the fixed header line. */
  function CsvContent(rows: seq<seq<string>>): string {
    CsvText(Join(CSV_HEADERS, ","), rows)
  }

  /** The dashboard's fields at one moment, so that a handler can say
      which of them it changes and that the others keep their values. */
  datatype Snapshot = Snapshot(
    orders: seq<StoredOrder>,
    filtered: seq<StoredOrder>,
    searchTerm: string,
    statusFilter: Option<OrderStatus>,
    refreshKey: int,
    currentPage: int,
    activeNoteId: Option<string>,
    noteValue: string)

  /** The dashboard's state. */
  class AdminDashboard {
    var orders: seq<StoredOrder>
    var filtered: seq<StoredOrder>
    var searchTerm: string
    var statusFilter: Option<OrderStatus>
    var refreshKey: int
    var currentPage: int
    var activeNoteId: Option<string>
    var noteValue: string
    const store: DbService.OrderStore

    /** The list shown is the filtered list of the orders last loaded, and
        the page is a real page of it. */
    predicate Valid()
      reads this
    {
      filtered == FilterOrders(orders, searchTerm, statusFilter)
      && 1 <= currentPage && (currentPage == 1 || currentPage <= TotalPages(|filtered|))
    }

    ghost function State(): Snapshot
      reads this
    {
      Snapshot(orders, filtered, searchTerm, statusFilter, refreshKey, currentPage, activeNoteId, noteValue)
    }

    constructor (store: DbService.OrderStore)
      ensures Valid()
      ensures this.store == store && orders == store.orders && filtered == store.orders
      ensures searchTerm == "" && statusFilter == None && currentPage == 1 && refreshKey == 0
      ensures activeNoteId == None && noteValue == ""
    {
      this.store := store;
      orders := store.orders;
      filtered := store.orders;
      searchTerm := "";
      statusFilter := None;
      refreshKey := 0;
      currentPage := 1;
      activeNoteId := None;
      noteValue := "";
    }

    /** The effects after a refresh: reload, refilter, page 1. */
    method Reload()
      modifies this
      ensures State() == old(State()).(orders := store.orders, currentPage := 1,
                                       filtered := FilterOrders(store.orders, old(searchTerm), old(statusFilter)))
      ensures Valid()
    {
      orders := store.GetAllOrders();
      filtered := FilterOrders(orders, searchTerm, statusFilter);
      currentPage := 1;
    }

    /** The search box. */
    method SetSearchTerm(term: string)
      modifies this
      ensures State() == old(State()).(searchTerm := term, currentPage := 1,
                                       filtered := FilterOrders(old(orders), term, old(statusFilter)))
      ensures Valid()
    {
      searchTerm := term;
      filtered := FilterOrders(orders, searchTerm, statusFilter);
      currentPage := 1;
    }

    /** The status select; `None` is 'All'. */
    method SetStatusFilter(status: Option<OrderStatus>)
      modifies this
      ensures State() == old(State()).(statusFilter := status, currentPage := 1,
                                       filtered := FilterOrders(old(orders), old(searchTerm), status))
      ensures Valid()
    {
      statusFilter := status;
      filtered := FilterOrders(orders, searchTerm, statusFilter);
      currentPage := 1;
    }

    /** The refresh button. */
    method Refresh()
      modifies this
      ensures State() == old(State()).(refreshKey := old(refreshKey) + 1, orders := store.orders, currentPage := 1,
                                       filtered := FilterOrders(store.orders, old(searchTerm), old(statusFilter)))
      ensures Valid()
    {
      refreshKey := refreshKey + 1;
      Reload();
    }

    /** `handleStatusChange`. */
    method HandleStatusChange(id: string, newStatus: OrderStatus)
      modifies this, store
      ensures store.orders == DbService.WithStatus(old(store.orders), id, newStatus)
      ensures State() == old(State()).(refreshKey := old(refreshKey) + 1, orders := store.orders, currentPage := 1,
                                       filtered := FilterOrders(store.orders, old(searchTerm), old(statusFilter)))
      ensures Valid()
    {
      store.UpdateOrderStatus(id, newStatus);
      refreshKey := refreshKey + 1;
      Reload();
    }

    /** "Send message to customer", shown on an order without a note: the
        editor opens on that order with whatever was typed before. */
    method OpenNote(id: string)
      modifies this
      ensures State() == old(State()).(activeNoteId := Some(id))
      ensures old(Valid()) ==> Valid()
    {
      activeNoteId := Some(id);
    }

    /** "Edit Message", shown on an order with a note: the editor opens on
        that order holding its note. */
    method EditSentNote(o: StoredOrder)
      modifies this
      ensures State() == old(State()).(activeNoteId := Some(o.orderId),
                                       noteValue := if o.adminNote.Some? then o.adminNote.value else "")
      ensures old(Valid()) ==> Valid()
    {
      noteValue := if o.adminNote.Some? then o.adminNote.value else "";
      activeNoteId := Some(o.orderId);
    }

    /** Typing in the note editor. */
    method EditNote(value: string)
      modifies this
      ensures State() == old(State()).(noteValue := value)
      ensures old(Valid()) ==> Valid()
    {
      noteValue := value;
    }

    /** Cancel: the editor closes and the typed text stays. */
    method CancelNote()
      modifies this
      ensures State() == old(State()).(activeNoteId := None)
      ensures old(Valid()) ==> Valid()
    {
      activeNoteId := None;
    }

    /** `handleSendNote`: the typed note is stored and the editor closes. */
    method HandleSendNote(id: string)
      modifies this, store
      ensures store.orders == DbService.WithAdminNote(old(store.orders), id, old(noteValue))
      ensures State() == old(State()).(activeNoteId := None, noteValue := "", refreshKey := old(refreshKey) + 1,
                                       orders := store.orders, currentPage := 1,
                                       filtered := FilterOrders(store.orders, old(searchTerm), old(statusFilter)))
      ensures Valid()
    {
      store.UpdateOrderAdminNote(id, noteValue);
      activeNoteId := None;
      noteValue := "";
      refreshKey := refreshKey + 1;
      Reload();
    }

    /** `handleDelete`; `confirmed` is the answer to the confirmation dialog. */
    method HandleDelete(id: string, confirmed: bool)
      modifies this, store
      ensures !confirmed ==> store.orders == old(store.orders) && State() == old(State())
      ensures confirmed ==>
        && store.orders == DbService.WithoutOrder(old(store.orders), id)
        && State() == old(State()).(refreshKey := old(refreshKey) + 1, orders := store.orders, currentPage := 1,
                                    filtered := FilterOrders(store.orders, old(searchTerm), old(statusFilter)))
      ensures confirmed ==> forall o :: o in filtered ==> o.orderId != id
      ensures old(Valid()) ==> Valid()
    {
      if confirmed {
        store.DeleteOrder(id);
        refreshKey := refreshKey + 1;
        Reload();
        FilterOrdersMembers(orders, searchTerm, statusFilter);
      }
    }

    /** The Previous button (shown only with more than one page). */
    method PreviousPage()
      requires TotalPages(|filtered|) > 1
      modifies this
      ensures State() == old(State()).(currentPage := PrevPage(old(currentPage)))
      ensures old(Valid()) ==> Valid()
    {
      currentPage := PrevPage(currentPage);
    }

    /** The Next button (shown only with more than one page). */
    method NextPageClick()
      requires TotalPages(|filtered|) > 1
      modifies this
      ensures State() == old(State()).(currentPage := NextPage(old(currentPage), TotalPages(|filtered|)))
      ensures old(Valid()) ==> Valid()
    {
      currentPage := NextPage(currentPage, TotalPages(|filtered|));
    }

    /** `exportCSV`: the rows of the filtered list. */
    method ExportCsv() returns (rows: seq<seq<string>>, text: string)
      ensures rows == CsvRows(filtered) && |rows| == LineCount(filtered)
      ensures text == CsvContent(rows)
    {
      rows := ExportRows(filtered);
      text := CsvContent(rows);
    }
  }
}
