/** The customers page (src/app/dashboard/customers/page.tsx): the list's
    query state, the sort and status-filter handlers, the search timers
    (each firing is an explicit `SearchSettled` step), and where a submitted
    form goes. */
module CustomersPage {
  import opened Values

  datatype Customer = Customer(id: string, name: string, email: string)

  /** The sort after a click on a column header: the current column flips
      between ascending and descending, another column starts ascending. */
  function NextSort(sortBy: string, sortOrder: string, field: string): (string, string) {
    if sortBy == field then (field, if sortOrder == "asc" then "desc" else "asc") else (field, "asc")
  }

  /** A click always sorts by the clicked column in a valid direction; on
      the current column the direction flips, on another it is ascending. */
  lemma SortClick(sortBy: string, sortOrder: string, field: string)
    ensures NextSort(sortBy, sortOrder, field).0 == field
    ensures NextSort(sortBy, sortOrder, field).1 in {"asc", "desc"}
    ensures sortBy == field && sortOrder in {"asc", "desc"} ==> NextSort(sortBy, sortOrder, field).1 != sortOrder
    ensures sortBy != field ==> NextSort(sortBy, sortOrder, field).1 == "asc"
  {
  }

  /** Two clicks on the current column restore its direction; two clicks on
      a new column sort it descending. */
  lemma SortTwice(sortBy: string, sortOrder: string, field: string)
    requires sortOrder in {"asc", "desc"}
    ensures var once := NextSort(sortBy, sortOrder, field);
      var twice := NextSort(once.0, once.1, field);
      (sortBy == field ==> twice == (field, sortOrder)) && (sortBy != field ==> twice == (field, "desc"))
  {
  }

  /** The status filter a choice in the select sets: "ALL" clears it. */
  function FilterOf(choice: string): string {
    if choice == "ALL" then "" else choice
  }

  /** The select's value for a filter: `statusFilter || "ALL"`. */
  function ChoiceOf(filter: string): string {
    if filter == "" then "ALL" else filter
  }

  /** Choosing an option shows that option again, and the filter read back
      from the select is the filter. */
  lemma FilterChoiceRoundTrip(choice: string, filter: string)
    ensures choice != "" ==> ChoiceOf(FilterOf(choice)) == choice
    ensures filter != "ALL" ==> FilterOf(ChoiceOf(filter)) == filter
    ensures FilterOf(choice) == "" <==> choice == "ALL" || choice == ""
  {
  }

  /** Where `handleSubmit` sends the form data. */
  datatype Submission = UpdateCustomer(id: string, data: Json) | CreateCustomer(data: Json)

  /** The arguments of `useCustomers`. */
  datatype Query = Query(page: int, search: string, status: string, sortBy: string, sortOrder: string)

  class Page {
    var page: int
    var search: string
    var debouncedSearch: string
    var statusFilter: string
    var sortBy: string
    var sortOrder: string
    var dialogOpen: bool
    var editing: Option<Customer>
    /** The texts of the search timers scheduled and not yet fired, oldest
        first. The memo's cleanup is never called, so a change of `search`
        adds a timer without cancelling the earlier ones; all share the same
        delay and fire in the order they were set. */
    var pending: seq<string>

    /** The last timer to fire carries the typed text, and with none left
        the debounced search is the typed text. */
    ghost predicate Valid()
      reads this
    {
      && (pending == [] ==> debouncedSearch == search)
      && (pending != [] ==> pending[|pending| - 1] == search)
    }

    /** The first render: page 1, newest first, no search, no filter, the
        dialog closed, and the first render's timer for "" pending. */
    constructor()
      ensures Valid()
      ensures page == 1 && search == "" && debouncedSearch == "" && statusFilter == ""
      ensures sortBy == "createdAt" && sortOrder == "desc" && !dialogOpen && editing.None?
      ensures pending == [""]
    {
      page := 1;
      search := "";
      debouncedSearch := "";
      pending := [""];
      statusFilter := "";
      sortBy := "createdAt";
      sortOrder := "desc";
      dialogOpen := false;
      editing := None;
    }

    /** The list is fetched with the debounced search, not the typed one. */
    function CurrentQuery(): (q: Query)
      reads this
    {
      Query(page, debouncedSearch, statusFilter, sortBy, sortOrder)
    }

    /** Typing in the search box: a new text schedules one more timer
        carrying it; the list query does not change yet. */
    method SetSearch(text: string)
      requires Valid()
      modifies this`search, this`pending
      ensures Valid()
      ensures search == text
      ensures pending == if text != old(search) then old(pending) + [text] else old(pending)
      ensures CurrentQuery() == old(CurrentQuery())
    {
      if text != search {
        pending := pending + [text];
      }
      search := text;
    }

    /** The oldest search timer firing: its text becomes the debounced
        search, whatever has been typed since, and the list returns to
        page 1. Only the last timer brings the typed text into effect. */
    method SearchSettled()
      requires Valid() && pending != []
      modifies this`debouncedSearch, this`page, this`pending
      ensures Valid()
      ensures debouncedSearch == old(pending[0]) && page == 1 && pending == old(pending[1..])
      ensures pending == [] ==> debouncedSearch == search
    {
      debouncedSearch := pending[0];
      page := 1;
      pending := pending[1..];
    }

    /** `handleSort(field)` */
    method HandleSort(field: string)
      modifies this`sortBy, this`sortOrder
      ensures (sortBy, sortOrder) == NextSort(old(sortBy), old(sortOrder), field)
    {
      if sortBy == field {
        sortOrder := if sortOrder == "asc" then "desc" else "asc";
      } else {
        sortBy := field;
        sortOrder := "asc";
      }
    }

    /** `handleStatusFilter(value)`: set the filter and go back to page 1. */
    method HandleStatusFilter(value: string)
      modifies this`statusFilter, this`page
      ensures statusFilter == FilterOf(value) && page == 1
    {
      statusFilter := if value == "ALL" then "" else value;
      page := 1;
    }

    /** The pager's `onPageChange`. */
    method SetPage(p: int)
      modifies this`page
      ensures page == p
    {
      page := p;
    }

    /** `handleEdit(customer)`: open the dialog on that customer. */
    method HandleEdit(c: Customer)
      modifies this`editing, this`dialogOpen
      ensures editing == Some(c) && dialogOpen
    {
      editing := Some(c);
      dialogOpen := true;
    }

    /** `handleCreate()`: open the dialog empty. */
    method HandleCreate()
      modifies this`editing, this`dialogOpen
      ensures editing.None? && dialogOpen
    {
      editing := None;
      dialogOpen := true;
    }

    /** The dialog's `onOpenChange`. */
    method SetDialogOpen(open: bool)
      modifies this`dialogOpen
      ensures dialogOpen == open
    {
      dialogOpen := open;
    }

    /** `handleSubmit(data)`: an update of the customer being edited, or a
        creation when none is. */
    method HandleSubmit(data: Json) returns (s: Submission)
      ensures editing.Some? ==> s == UpdateCustomer(editing.value.id, data)
      ensures editing.None? ==> s == CreateCustomer(data)
    {
      if editing.Some? {
        s := UpdateCustomer(editing.value.id, data);
      } else {
        s := CreateCustomer(data);
      }
    }
  }
}
