/** The customer table of src/pages/admin/customer.jsx: search and status filter, the
    column sort with its two-valued comparator, 10-per-page slices, and the edit-status and
    delete modals, which change the local list only after the API call returns. */
module AdminCustomers {
  import opened Js
  import Seqs
  import Sorting
  import Pagination

  /** A customer after the fetch's `_id` to `id` renaming. */
  datatype Customer = Customer(id: string, name: string, email: string, orders: int,
                               totalSpent: int, status: string, createdAt: string, updatedAt: string)

  /** The columns `sortField` can name. */
  datatype Column = IdColumn | NameColumn | EmailColumn | OrdersColumn | TotalSpentColumn
                  | StatusColumn | CreatedAtColumn | UpdatedAtColumn

  datatype Direction = Asc | Desc

  /** `editFormData`; the modal shows name and email read-only and edits only the status. */
  datatype CustomerForm = CustomerForm(name: string, email: string, status: string)

  const CustomersPerPage := 10

  /** `customer.name` or `customer.email` contains the search, ignoring case, and the status
      filter is 'all' or the customer's status. */
  predicate Matches(c: Customer, search: string, status: string) {
    (ContainsIgnoreCase(c.name, search) || ContainsIgnoreCase(c.email, search))
    && (status == "all" || c.status == status)
  }

  function Filtered(cs: seq<Customer>, search: string, status: string): seq<Customer> {
    Seqs.Filter(cs, (c: Customer) => Matches(c, search, status))
  }

  /** `customer[sortField]` */
  function KeyOf(c: Customer, col: Column): Sorting.Key {
    match col
    case IdColumn => Sorting.Text(c.id)
    case NameColumn => Sorting.Text(c.name)
    case EmailColumn => Sorting.Text(c.email)
    case OrdersColumn => Sorting.Number(c.orders)
    case TotalSpentColumn => Sorting.Number(c.totalSpent)
    case StatusColumn => Sorting.Text(c.status)
    case CreatedAtColumn => Sorting.Text(c.createdAt)
    case UpdatedAtColumn => Sorting.Text(c.updatedAt)
  }

  /** The comparator: ascending gives `a > b ? 1 : -1`, anything else `a < b ? 1 : -1`.
      It never answers 0, so two customers with the same value each come "first". */
  function Compare(a: Customer, b: Customer, col: Column, d: Direction): (r: int)
    ensures r == 1 || r == -1
    ensures d == Asc ==> (r == 1 <==> Sorting.Less(KeyOf(b, col), KeyOf(a, col)))
    ensures d == Desc ==> (r == 1 <==> Sorting.Less(KeyOf(a, col), KeyOf(b, col)))
  {
    if d == Asc then (if Sorting.Less(KeyOf(b, col), KeyOf(a, col)) then 1 else -1)
    else (if Sorting.Less(KeyOf(a, col), KeyOf(b, col)) then 1 else -1)
  }

  function Before(col: Column, d: Direction): (Customer, Customer) -> bool {
    (a: Customer, b: Customer) => Compare(a, b, col, d) < 0
  }

  /** Two customers with the same value in the column are each placed before the other:
      the comparator is inconsistent on ties. */
  lemma TiesGoBothWays(a: Customer, b: Customer, col: Column, d: Direction)
    requires KeyOf(a, col) == KeyOf(b, col)
    ensures Before(col, d)(a, b) && Before(col, d)(b, a)
  {
    Sorting.LessAsymmetric(KeyOf(a, col), KeyOf(b, col));
  }

  /** Different customers have different values in the column. */
  predicate DistinctKeys(cs: seq<Customer>, col: Column) {
    forall i, j :: 0 <= i < |cs| && 0 <= j < |cs| && cs[i] != cs[j] ==> KeyOf(cs[i], col) != KeyOf(cs[j], col)
  }

  lemma SameColumnSameKind(a: Customer, b: Customer, col: Column)
    ensures Sorting.SameKind(KeyOf(a, col), KeyOf(b, col))
  {
  }

  /** Without ties the comparator is a strict order. */
  lemma BeforeConsistent(cs: seq<Customer>, elems: multiset<Customer>, col: Column, d: Direction)
    requires DistinctKeys(cs, col) && forall x :: x in elems ==> x in cs
    ensures Sorting.Consistent(elems, Before(col, d))
  {
    var before := Before(col, d);
    forall a, b, c | a in elems && b in elems && c in elems && before(a, b) && before(b, c)
      ensures before(a, c)
    {
      var ka, kb, kc := KeyOf(a, col), KeyOf(b, col), KeyOf(c, col);
      SameColumnSameKind(a, b, col);
      SameColumnSameKind(b, c, col);
      SameColumnSameKind(a, c, col);
      Sorting.LessTotal(ka, kb);
      Sorting.LessTotal(kb, kc);
      if d == Asc {
        if Sorting.Less(kc, ka) {
          if ka == kb {
            assert Sorting.Less(kc, kb);
          } else {
            Sorting.LessTransitive(kc, ka, kb);
          }
        }
      } else {
        if Sorting.Less(ka, kc) {
          if ka == kb {
            assert Sorting.Less(kb, kc);
          } else {
            Sorting.LessTransitive(kb, ka, kc);
          }
        }
      }
    }
    forall a, b | a in elems && b in elems && a != b && before(a, b)
      ensures !before(b, a)
    {
      var i :| 0 <= i < |cs| && cs[i] == a;
      var j :| 0 <= j < |cs| && cs[j] == b;
      SameColumnSameKind(a, b, col);
      Sorting.LessTotal(KeyOf(a, col), KeyOf(b, col));
      Sorting.LessAsymmetric(KeyOf(a, col), KeyOf(b, col));
    }
  }

  /** `sortedData` */
  function Rows(cs: seq<Customer>, search: string, status: string, col: Column, d: Direction): seq<Customer> {
    Sorting.Sort(Filtered(cs, search, status), Before(col, d))
  }

  /** The table holds the filtered customers, each as often as the filter keeps it. */
  lemma RowsArePermutation(cs: seq<Customer>, search: string, status: string, col: Column, d: Direction)
    ensures multiset(Rows(cs, search, status, col, d)) == multiset(Filtered(cs, search, status))
  {
  }

  /** A customer is in the table exactly when it is in the list and passes both filters. */
  lemma RowsMembers(cs: seq<Customer>, search: string, status: string, col: Column, d: Direction, x: Customer)
    ensures x in Rows(cs, search, status, col, d) <==> x in cs && Matches(x, search, status)
  {
    var f := Filtered(cs, search, status);
    Seqs.FilterMembers(cs, (c: Customer) => Matches(c, search, status), x);
    assert x in Rows(cs, search, status, col, d) <==> x in multiset(Rows(cs, search, status, col, d));
    assert x in f <==> x in multiset(f);
  }

  /** When no two customers share a value in the column, the table is strictly ascending
      by it, or strictly descending. */
  lemma RowsSorted(cs: seq<Customer>, search: string, status: string, col: Column, d: Direction)
    requires DistinctKeys(cs, col)
    ensures var r := Rows(cs, search, status, col, d);
      forall i, j :: 0 <= i < j < |r| && r[i] != r[j] ==>
        if d == Asc then Sorting.Less(KeyOf(r[i], col), KeyOf(r[j], col))
        else Sorting.Less(KeyOf(r[j], col), KeyOf(r[i], col))
  {
    var f := Filtered(cs, search, status);
    forall x | x in multiset(f)
      ensures x in cs
    {
      assert x in f;
    }
    BeforeConsistent(cs, multiset(f), col, d);
    Sorting.SortOrdered(f, Before(col, d));
  }

  /** `handleSort(field)`: the current column flips the direction, another column sorts
      ascending by it. */
  function ToggleSort(current: Column, d: Direction, col: Column): (r: (Column, Direction))
    ensures r.0 == col
    ensures col == current ==> r.1 != d
    ensures col != current ==> r.1 == Asc
  {
    if col == current then (current, if d == Asc then Desc else Asc) else (col, Asc)
  }

  /** Clicking the same column twice restores the direction. */
  lemma ToggleTwiceRestores(current: Column, d: Direction)
    ensures ToggleSort(current, ToggleSort(current, d, current).1, current) == (current, d)
  {
  }

  /** `currentCustomers`: `sortedData.slice(page * 10 - 10, page * 10)`. */
  function PageOf(rows: seq<Customer>, page: int): (r: seq<Customer>)
    ensures r == Pagination.Page(rows, page, CustomersPerPage)
  {
    Slice(rows, page * CustomersPerPage - CustomersPerPage, page * CustomersPerPage)
  }

  /** The table state. */
  class CustomerAdmin {
    var customers: seq<Customer>
    var searchTerm: string
    var currentPage: int
    var sortField: Column
    var sortDirection: Direction
    var statusFilter: string
    var selected: Option<Customer>
    var editModalOpen: bool
    var deleteModalOpen: bool
    var form: CustomerForm

    /** A modal is only open with a customer selected. */
    predicate Valid()
      reads this
    {
      (editModalOpen || deleteModalOpen) ==> selected.Some?
    }

    constructor ()
      ensures Valid()
      ensures customers == [] && searchTerm == "" && currentPage == 1 && statusFilter == "all"
      ensures sortField == CreatedAtColumn && sortDirection == Desc
      ensures selected.None? && !editModalOpen && !deleteModalOpen && form == CustomerForm("", "", "")
    {
      customers := [];
      searchTerm := "";
      currentPage := 1;
      sortField := CreatedAtColumn;
      sortDirection := Desc;
      statusFilter := "all";
      selected := None;
      editModalOpen := false;
      deleteModalOpen := false;
      form := CustomerForm("", "", "");
    }

    function Table(): seq<Customer>
      reads this
    {
      Rows(customers, searchTerm, statusFilter, sortField, sortDirection)
    }

    function Shown(): seq<Customer>
      reads this
    {
      PageOf(Table(), currentPage)
    }

    function TotalPages(): nat
      reads this
    {
      Pagination.TotalPages(|Table()|, CustomersPerPage)
    }

    /** The mount fetch: a successful response replaces the list; a failed or thrown one
        leaves it. */
    method Load(response: Option<seq<Customer>>)
      modifies this
      ensures customers == (if response.Some? then response.value else old(customers))
      ensures searchTerm == old(searchTerm) && currentPage == old(currentPage) && statusFilter == old(statusFilter)
      ensures sortField == old(sortField) && sortDirection == old(sortDirection)
      ensures selected == old(selected) && editModalOpen == old(editModalOpen)
      ensures deleteModalOpen == old(deleteModalOpen) && form == old(form)
    {
      if response.Some? {
        customers := response.value;
      }
    }

    /** The search box; the page number is not reset. */
    method SetSearch(value: string)
      modifies this
      ensures searchTerm == value
      ensures customers == old(customers) && currentPage == old(currentPage) && statusFilter == old(statusFilter)
      ensures sortField == old(sortField) && sortDirection == old(sortDirection)
      ensures selected == old(selected) && editModalOpen == old(editModalOpen)
      ensures deleteModalOpen == old(deleteModalOpen) && form == old(form)
    {
      searchTerm := value;
    }

    /** The status select; the page number is not reset. */
    method SetStatusFilter(value: string)
      modifies this
      ensures statusFilter == value
      ensures customers == old(customers) && currentPage == old(currentPage) && searchTerm == old(searchTerm)
      ensures sortField == old(sortField) && sortDirection == old(sortDirection)
      ensures selected == old(selected) && editModalOpen == old(editModalOpen)
      ensures deleteModalOpen == old(deleteModalOpen) && form == old(form)
    {
      statusFilter := value;
    }

    /** `handleSort(field)` */
    method SortBy(col: Column)
      modifies this
      ensures (sortField, sortDirection) == ToggleSort(old(sortField), old(sortDirection), col)
      ensures customers == old(customers) && currentPage == old(currentPage) && searchTerm == old(searchTerm)
      ensures statusFilter == old(statusFilter) && selected == old(selected) && editModalOpen == old(editModalOpen)
      ensures deleteModalOpen == old(deleteModalOpen) && form == old(form)
    {
      if sortField == col {
        sortDirection := if sortDirection == Asc then Desc else Asc;
      } else {
        sortField := col;
        sortDirection := Asc;
      }
    }

    /** `openEditModal(customer)` */
    method OpenEdit(c: Customer)
      modifies this
      ensures Valid()
      ensures selected == Some(c) && form == CustomerForm(c.name, c.email, c.status) && editModalOpen
      ensures customers == old(customers) && currentPage == old(currentPage) && searchTerm == old(searchTerm)
      ensures statusFilter == old(statusFilter) && sortField == old(sortField) && sortDirection == old(sortDirection)
      ensures deleteModalOpen == old(deleteModalOpen)
    {
      selected := Some(c);
      form := CustomerForm(c.name, c.email, c.status);
      editModalOpen := true;
    }

    /** `openDeleteModal(customer)` */
    method OpenDelete(c: Customer)
      modifies this
      ensures Valid()
      ensures selected == Some(c) && deleteModalOpen
      ensures customers == old(customers) && currentPage == old(currentPage) && searchTerm == old(searchTerm)
      ensures statusFilter == old(statusFilter) && sortField == old(sortField) && sortDirection == old(sortDirection)
      ensures editModalOpen == old(editModalOpen) && form == old(form)
    {
      selected := Some(c);
      deleteModalOpen := true;
    }

    /** `closeModals()`, also bound to Escape. */
    method CloseModals()
      modifies this
      ensures Valid()
      ensures !editModalOpen && !deleteModalOpen && selected.None?
      ensures customers == old(customers) && currentPage == old(currentPage) && searchTerm == old(searchTerm)
      ensures statusFilter == old(statusFilter) && sortField == old(sortField) && sortDirection == old(sortDirection)
      ensures form == old(form)
    {
      editModalOpen := false;
      deleteModalOpen := false;
      selected := None;
    }

    /** The status select of the edit modal. */
    method ChangeStatus(value: string)
      modifies this
      ensures form == old(form).(status := value)
      ensures customers == old(customers) && currentPage == old(currentPage) && searchTerm == old(searchTerm)
      ensures statusFilter == old(statusFilter) && sortField == old(sortField) && sortDirection == old(sortDirection)
      ensures selected == old(selected) && editModalOpen == old(editModalOpen) && deleteModalOpen == old(deleteModalOpen)
    {
      form := form.(status := value);
    }

    /** `handleEditSubmit`: once the status update call succeeds, the selected customer's
        status is replaced and the modals close; a thrown call changes nothing. */
    method EditSubmit(callSucceeded: bool)
      requires Valid() && editModalOpen
      modifies this
      ensures Valid()
      ensures callSucceeded ==>
                customers == SetStatus(old(customers), old(selected).value.id, old(form).status)
                && !editModalOpen && !deleteModalOpen && selected.None?
      ensures !callSucceeded ==>
                customers == old(customers) && selected == old(selected)
                && editModalOpen == old(editModalOpen) && deleteModalOpen == old(deleteModalOpen)
      ensures currentPage == old(currentPage) && searchTerm == old(searchTerm) && statusFilter == old(statusFilter)
      ensures sortField == old(sortField) && sortDirection == old(sortDirection) && form == old(form)
    {
      if callSucceeded {
        customers := SetStatus(customers, selected.value.id, form.status);
        editModalOpen := false;
        deleteModalOpen := false;
        selected := None;
      }
    }

    /** `handleDeleteConfirm`: once the delete call succeeds, every customer with the
        selected id is removed and the modals close; a thrown call changes nothing. */
    method DeleteConfirm(callSucceeded: bool)
      requires Valid() && deleteModalOpen
      modifies this
      ensures Valid()
      ensures callSucceeded ==>
                customers == Delete(old(customers), old(selected).value.id)
                && !editModalOpen && !deleteModalOpen && selected.None?
      ensures !callSucceeded ==>
                customers == old(customers) && selected == old(selected)
                && editModalOpen == old(editModalOpen) && deleteModalOpen == old(deleteModalOpen)
      ensures currentPage == old(currentPage) && searchTerm == old(searchTerm) && statusFilter == old(statusFilter)
      ensures sortField == old(sortField) && sortDirection == old(sortDirection) && form == old(form)
    {
      if callSucceeded {
        customers := Delete(customers, selected.value.id);
        editModalOpen := false;
        deleteModalOpen := false;
        selected := None;
      }
    }

    /** The Previous button: `Math.max(1, p - 1)`. */
    method Previous()
      modifies this
      ensures currentPage == Pagination.PrevPage(old(currentPage))
      ensures customers == old(customers) && searchTerm == old(searchTerm) && statusFilter == old(statusFilter)
      ensures sortField == old(sortField) && sortDirection == old(sortDirection) && form == old(form)
      ensures selected == old(selected) && editModalOpen == old(editModalOpen) && deleteModalOpen == old(deleteModalOpen)
    {
      currentPage := if 1 > currentPage - 1 then 1 else currentPage - 1;
    }

    /** The Next button: `Math.min(totalPages, p + 1)`. */
    method Next()
      modifies this
      ensures currentPage == Pagination.NextPage(old(currentPage), old(TotalPages()))
      ensures customers == old(customers) && searchTerm == old(searchTerm) && statusFilter == old(statusFilter)
      ensures sortField == old(sortField) && sortDirection == old(sortDirection) && form == old(form)
      ensures selected == old(selected) && editModalOpen == old(editModalOpen) && deleteModalOpen == old(deleteModalOpen)
    {
      var total := Pagination.TotalPages(|Rows(customers, searchTerm, statusFilter, sortField, sortDirection)|, CustomersPerPage);
      currentPage := if total < currentPage + 1 then total else currentPage + 1;
    }

    /** A numbered page button. */
    method GoToPage(page: int)
      modifies this
      ensures currentPage == page
      ensures customers == old(customers) && searchTerm == old(searchTerm) && statusFilter == old(statusFilter)
      ensures sortField == old(sortField) && sortDirection == old(sortDirection) && form == old(form)
      ensures selected == old(selected) && editModalOpen == old(editModalOpen) && deleteModalOpen == old(deleteModalOpen)
    {
      currentPage := page;
    }
  }

  /** `prev.map(c => c.id === id ? { ...c, status } : c)` */
  function SetStatus(cs: seq<Customer>, id: string, status: string): seq<Customer> {
    Seqs.UpdateWhere(cs, (c: Customer) => c.id == id, (c: Customer) => c.(status := status))
  }

  /** `prev.filter(c => c.id !== id)` */
  function Delete(cs: seq<Customer>, id: string): seq<Customer> {
    Seqs.Filter(cs, (c: Customer) => c.id != id)
  }

  /** The status edit changes the status of the customers with that id and nothing else. */
  lemma SetStatusOnlySelected(cs: seq<Customer>, id: string, status: string)
    ensures var r := SetStatus(cs, id, status);
      |r| == |cs|
      && (forall i :: 0 <= i < |cs| && cs[i].id != id ==> r[i] == cs[i])
      && (forall i :: 0 <= i < |cs| && cs[i].id == id ==> r[i] == cs[i].(status := status))
  {
  }

  /** Delete keeps, in order, exactly the customers whose id differs. */
  lemma DeleteExactly(cs: seq<Customer>, id: string, x: Customer)
    ensures x in Delete(cs, id) <==> x in cs && x.id != id
    ensures Seqs.Subsequence(Delete(cs, id), cs)
  {
    Seqs.FilterMembers(cs, (c: Customer) => c.id != id, x);
    Seqs.FilterIsSubsequence(cs, (c: Customer) => c.id != id);
  }

  /** With ids unique, deleting the customer at `k` removes just that entry. */
  lemma DeleteOne(cs: seq<Customer>, k: int)
    requires 0 <= k < |cs|
    requires forall i, j :: 0 <= i < j < |cs| ==> cs[i].id != cs[j].id
    ensures Delete(cs, cs[k].id) == cs[..k] + cs[k + 1..]
  {
    Seqs.FilterDropsOne(cs, (c: Customer) => c.id != cs[k].id, k);
  }
}
