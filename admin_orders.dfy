/** The order table of src/pages/admin/orderPage.jsx: the edit modal that rewrites one
    order and appends to its timeline, the status and search filter, and the 10-per-page
    pagination. */
module AdminOrders {
  import opened Js
  import Seqs
  import Pagination

  datatype TimelineEntry = TimelineEntry(status: string, date: string, note: string)

  /** An order as the table keeps it. `trackingNumber` and `internalNotes` may be missing;
      `amount` and `paymentMethod` stand for the fields the edit never touches. */
  datatype Order = Order(id: string, customerName: string, customerEmail: string,
                         amount: int, paymentMethod: string,
                         status: string, paymentStatus: string,
                         trackingNumber: Option<string>, internalNotes: Option<string>,
                         timeline: seq<TimelineEntry>)

  datatype EditForm = EditForm(status: string, paymentStatus: string,
                               trackingNumber: string, internalNotes: string)

  datatype EditField = StatusField | PaymentStatusField | TrackingField | NotesField

  /** `filters.status` and `filters.search`; the date range select filters nothing. */
  datatype Filters = Filters(status: string, search: string)

  const OrdersPerPage := 10
  const InitialFilters := Filters("all", "")
  const BlankForm := EditForm("", "", "", "")

  /** What `handleEditOrder` puts in the form: a missing tracking number or note is "". */
  function FormFor(o: Order): (f: EditForm)
    ensures f.status == o.status && f.paymentStatus == o.paymentStatus
    ensures f.trackingNumber == (if Truthy(o.trackingNumber) then o.trackingNumber.value else "")
    ensures f.internalNotes == (if Truthy(o.internalNotes) then o.internalNotes.value else "")
  {
    EditForm(o.status, o.paymentStatus, OrElse(o.trackingNumber, ""), OrElse(o.internalNotes, ""))
  }

  /** The entry a save appends; `date` is the `new Date().toISOString()` of the save. */
  function StatusEntry(f: EditForm, date: string): (e: TimelineEntry)
    ensures e.status == "Status updated to " + f.status && e.date == date
    ensures f.internalNotes == "" ==> e.note == "Updated by admin"
    ensures f.internalNotes != "" ==> e.note == "Updated by admin: " + f.internalNotes
  {
    TimelineEntry("Status updated to " + f.status, date,
                  "Updated by admin" + (if f.internalNotes != "" then ": " + f.internalNotes else ""))
  }

  /** The edited copy of one order. */
  function Edited(o: Order, f: EditForm, date: string): Order {
    o.(status := f.status, paymentStatus := f.paymentStatus,
       trackingNumber := Some(f.trackingNumber), internalNotes := Some(f.internalNotes),
       timeline := o.timeline + [StatusEntry(f, date)])
  }

  /** `handleSaveChanges`' map over the orders. */
  function SaveChanges(orders: seq<Order>, id: string, f: EditForm, date: string): seq<Order> {
    Seqs.UpdateWhere(orders, (o: Order) => o.id == id, (o: Order) => Edited(o, f, date))
  }

  /** A save rewrites the four edited fields of every order with the selected id and
      appends exactly one timeline entry to it; every other order, and every other field,
      is left as it was. */
  lemma SaveChangesOnlySelected(orders: seq<Order>, id: string, f: EditForm, date: string)
    ensures var r := SaveChanges(orders, id, f, date);
      |r| == |orders|
      && (forall i :: 0 <= i < |orders| && orders[i].id != id ==> r[i] == orders[i])
      && (forall i :: 0 <= i < |orders| && orders[i].id == id ==>
            r[i].status == f.status && r[i].paymentStatus == f.paymentStatus
            && r[i].trackingNumber == Some(f.trackingNumber) && r[i].internalNotes == Some(f.internalNotes)
            && r[i].timeline == orders[i].timeline + [StatusEntry(f, date)]
            && r[i].id == id && r[i].customerName == orders[i].customerName
            && r[i].customerEmail == orders[i].customerEmail && r[i].amount == orders[i].amount
            && r[i].paymentMethod == orders[i].paymentMethod)
  {
  }

  /** Saving a form seeded from an order with a tracking number and a note, unedited,
      changes nothing but the timeline, which gains one entry. */
  lemma UneditedSaveOnlyLogs(orders: seq<Order>, k: int, date: string)
    requires 0 <= k < |orders|
    requires Truthy(orders[k].trackingNumber) && Truthy(orders[k].internalNotes)
    ensures var r := SaveChanges(orders, orders[k].id, FormFor(orders[k]), date);
      r[k] == orders[k].(timeline := orders[k].timeline + [StatusEntry(FormFor(orders[k]), date)])
  {
  }

  /** A second save of the same form adds a second entry: the log is not deduplicated. */
  lemma SavingTwiceLogsTwice(o: Order, f: EditForm, d1: string, d2: string)
    ensures Edited(Edited(o, f, d1), f, d2).timeline == o.timeline + [StatusEntry(f, d1), StatusEntry(f, d2)]
  {
  }

  /** `filteredOrders`' test. */
  predicate Matches(o: Order, filters: Filters) {
    (filters.status == "all" || o.status == filters.status)
    && (ContainsIgnoreCase(o.id, filters.search) || ContainsIgnoreCase(o.customerName, filters.search)
        || ContainsIgnoreCase(o.customerEmail, filters.search))
  }

  function Filtered(orders: seq<Order>, filters: Filters): seq<Order> {
    Seqs.Filter(orders, (o: Order) => Matches(o, filters))
  }

  /** An order is listed exactly when the status filter is 'all' or its own status and the
      search text occurs, ignoring case, in its id, customer name or customer email; the
      listed orders keep their order. */
  lemma FilteredExactly(orders: seq<Order>, filters: Filters, x: Order)
    ensures x in Filtered(orders, filters) <==>
              x in orders && (filters.status == "all" || x.status == filters.status)
              && (ContainsIgnoreCase(x.id, filters.search) || ContainsIgnoreCase(x.customerName, filters.search)
                  || ContainsIgnoreCase(x.customerEmail, filters.search))
    ensures Seqs.Subsequence(Filtered(orders, filters), orders)
  {
    Seqs.FilterMembers(orders, (o: Order) => Matches(o, filters), x);
    Seqs.FilterIsSubsequence(orders, (o: Order) => Matches(o, filters));
  }

  /** With the initial filters (status 'all', empty search) every order is listed. */
  lemma InitialFiltersListAll(orders: seq<Order>)
    ensures Filtered(orders, InitialFilters) == orders
  {
    forall i | 0 <= i < |orders|
      ensures Matches(orders[i], InitialFilters)
    {
      EmptyTextOccurs(ToLower(orders[i].id));
    }
    Seqs.FilterKeepsAll(orders, (o: Order) => Matches(o, InitialFilters));
  }

  lemma EmptyTextOccurs(s: string)
    ensures Contains(s, "")
  {
    assert s[..0] == "";
  }

  /** The table state: the `useState` slots of the page. */
  class OrderAdmin {
    var orders: seq<Order>
    var filters: Filters
    var currentPage: int
    var showDetailModal: bool
    var showEditModal: bool
    var selected: Option<Order>
    var form: EditForm

    constructor ()
      ensures orders == [] && filters == InitialFilters && currentPage == 1
      ensures !showDetailModal && !showEditModal && selected.None? && form == BlankForm
    {
      orders := [];
      filters := InitialFilters;
      currentPage := 1;
      showDetailModal := false;
      showEditModal := false;
      selected := None;
      form := BlankForm;
    }

    /** The mount effect stores its fixed list of orders. */
    method LoadOrders(list: seq<Order>)
      modifies this
      ensures orders == list
      ensures filters == old(filters) && currentPage == old(currentPage) && selected == old(selected)
      ensures form == old(form) && showEditModal == old(showEditModal) && showDetailModal == old(showDetailModal)
    {
      orders := list;
    }

    /** `handleViewOrder(order)` */
    method ViewOrder(o: Order)
      modifies this
      ensures selected == Some(o) && showDetailModal
      ensures orders == old(orders) && filters == old(filters) && currentPage == old(currentPage)
      ensures form == old(form) && showEditModal == old(showEditModal)
    {
      selected := Some(o);
      showDetailModal := true;
    }

    /** The detail modal's close button. */
    method CloseDetail()
      modifies this
      ensures !showDetailModal
      ensures orders == old(orders) && filters == old(filters) && currentPage == old(currentPage)
      ensures selected == old(selected) && form == old(form) && showEditModal == old(showEditModal)
    {
      showDetailModal := false;
    }

    /** `handleEditOrder(order)` */
    method EditOrder(o: Order)
      modifies this
      ensures selected == Some(o) && form == FormFor(o) && showEditModal
      ensures orders == old(orders) && filters == old(filters) && currentPage == old(currentPage)
      ensures showDetailModal == old(showDetailModal)
    {
      selected := Some(o);
      form := EditForm(o.status, o.paymentStatus, OrElse(o.trackingNumber, ""), OrElse(o.internalNotes, ""));
      showEditModal := true;
    }

    /** One of the modal's inputs: `setEditForm({...editForm, field: value})`. */
    method ChangeForm(field: EditField, value: string)
      modifies this
      ensures form == match field
        case StatusField => old(form).(status := value)
        case PaymentStatusField => old(form).(paymentStatus := value)
        case TrackingField => old(form).(trackingNumber := value)
        case NotesField => old(form).(internalNotes := value)
      ensures orders == old(orders) && filters == old(filters) && currentPage == old(currentPage)
      ensures selected == old(selected) && showEditModal == old(showEditModal)
      ensures showDetailModal == old(showDetailModal)
    {
      if field == StatusField {
        form := form.(status := value);
      } else if field == PaymentStatusField {
        form := form.(paymentStatus := value);
      } else if field == TrackingField {
        form := form.(trackingNumber := value);
      } else {
        form := form.(internalNotes := value);
      }
    }

    /** The modal's Cancel and close buttons hide it and keep the selection. */
    method CloseEdit()
      modifies this
      ensures !showEditModal
      ensures orders == old(orders) && filters == old(filters) && currentPage == old(currentPage)
      ensures selected == old(selected) && form == old(form) && showDetailModal == old(showDetailModal)
    {
      showEditModal := false;
    }

    /** `handleSaveChanges()`. The Save button is only rendered while an order is selected.
        `date` is the timestamp of the save. */
    method Save(date: string)
      requires selected.Some?
      modifies this
      ensures orders == SaveChanges(old(orders), old(selected).value.id, old(form), date)
      ensures !showEditModal && selected.None?
      ensures form == old(form) && filters == old(filters) && currentPage == old(currentPage)
      ensures showDetailModal == old(showDetailModal)
    {
      orders := SaveChanges(orders, selected.value.id, form, date);
      showEditModal := false;
      selected := None;
    }

    /** The search box. The page number is not reset. */
    method SetSearch(value: string)
      modifies this
      ensures filters == old(filters).(search := value)
      ensures orders == old(orders) && currentPage == old(currentPage) && selected == old(selected)
      ensures form == old(form) && showEditModal == old(showEditModal) && showDetailModal == old(showDetailModal)
    {
      filters := filters.(search := value);
    }

    /** The status select. The page number is not reset. */
    method SetStatusFilter(value: string)
      modifies this
      ensures filters == old(filters).(status := value)
      ensures orders == old(orders) && currentPage == old(currentPage) && selected == old(selected)
      ensures form == old(form) && showEditModal == old(showEditModal) && showDetailModal == old(showDetailModal)
    {
      filters := filters.(status := value);
    }

    function TotalPages(): nat
      reads this
    {
      Pagination.TotalPages(|Filtered(orders, filters)|, OrdersPerPage)
    }

    /** `paginatedOrders` */
    function Shown(): seq<Order>
      reads this
    {
      Pagination.Page(Filtered(orders, filters), currentPage, OrdersPerPage)
    }

    /** The Previous button: `Math.max(1, currentPage - 1)`. */
    method Previous()
      modifies this
      ensures currentPage == Pagination.PrevPage(old(currentPage))
      ensures currentPage >= 1
      ensures orders == old(orders) && filters == old(filters) && selected == old(selected)
      ensures form == old(form) && showEditModal == old(showEditModal) && showDetailModal == old(showDetailModal)
    {
      currentPage := if 1 > currentPage - 1 then 1 else currentPage - 1;
    }

    /** The Next button: `Math.min(totalPages, currentPage + 1)`. */
    method Next()
      modifies this
      ensures currentPage == Pagination.NextPage(old(currentPage), TotalPages())
      ensures currentPage <= TotalPages()
      ensures orders == old(orders) && filters == old(filters) && selected == old(selected)
      ensures form == old(form) && showEditModal == old(showEditModal) && showDetailModal == old(showDetailModal)
    {
      var total := Pagination.TotalPages(|Filtered(orders, filters)|, OrdersPerPage);
      currentPage := if total < currentPage + 1 then total else currentPage + 1;
    }

    /** A numbered page button. */
    method GoToPage(page: int)
      modifies this
      ensures currentPage == page
      ensures orders == old(orders) && filters == old(filters) && selected == old(selected)
      ensures form == old(form) && showEditModal == old(showEditModal) && showDetailModal == old(showDetailModal)
    {
      currentPage := page;
    }
  }

  /** A page number within range shows at most ten orders, all of them listed by the
      filter, and never an empty page. */
  lemma ShownPageInRange(orders: seq<Order>, filters: Filters, page: int)
    requires 1 <= page <= Pagination.TotalPages(|Filtered(orders, filters)|, OrdersPerPage)
    ensures var p := Pagination.Page(Filtered(orders, filters), page, OrdersPerPage);
      0 < |p| <= OrdersPerPage && forall x :: x in p ==> x in Filtered(orders, filters)
  {
    var l := Filtered(orders, filters);
    Pagination.PageInRange(l, page, OrdersPerPage);
    var p := Pagination.Page(l, page, OrdersPerPage);
    forall x | x in p
      ensures x in l
    {
      var j :| 0 <= j < |p| && p[j] == x;
      assert p[j] == l[(page - 1) * OrdersPerPage + j];
    }
  }
}
