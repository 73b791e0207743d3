/**
 * The state of one table screen and its event handlers. Stocks,
 * Inventory and Billing carry the same controller; the differences are
 * the initial state, the list select-all reads (`data` on Stocks, `rows`
 * on Inventory), Billing's missing selection and its document viewer,
 * and Stocks' shadow `selectedForDelete` list.
 */
module TableView {
  import opened Values
  import opened Http
  import opened Sorting
  import opened TablePipeline

  datatype Screen = StocksScreen | InventoryScreen | BillingScreen

  /** The record field each screen keys its rows by. */
  function IdField(screen: Screen): string {
    match screen
    case StocksScreen => "modelId"
    case InventoryScreen => "productId"
    case BillingScreen => "billingId"
  }

  /** A snapshot of every field of a table screen. */
  datatype ViewState = ViewState(
    data: seq<Row>,
    rows: seq<Row>,
    order: Order,
    orderBy: string,
    selected: seq<Value>,
    selectedForDelete: seq<Value>,
    page: nat,
    rowsPerPage: nat,
    searchTerm: string,
    confirmDelete: bool,
    pdfViewerOpen: bool,
    pdfPath: Value)

  /** The state a screen starts in. */
  function Initial(screen: Screen): (s: ViewState)
    ensures s.order == Asc && s.page == 0 && s.selected == [] && s.searchTerm == ""
    ensures s.data == [] && s.rows == []
    ensures s.orderBy == (if screen == StocksScreen then "modelId" else "productName")
    ensures s.rowsPerPage == (if screen == StocksScreen then 10 else 5)
    ensures !s.confirmDelete && !s.pdfViewerOpen
  {
    ViewState(
      data := [],
      rows := [],
      order := Asc,
      orderBy := if screen == StocksScreen then "modelId" else "productName",
      selected := [],
      selectedForDelete := [],
      page := 0,
      rowsPerPage := if screen == StocksScreen then 10 else 5,
      searchTerm := "",
      confirmDelete := false,
      pdfViewerOpen := false,
      pdfPath := Text(""))
  }

  class TableView {
    const screen: Screen
    var data: seq<Row>
    /** Inventory and Billing keep a second copy of the fetched list; Stocks has none. */
    var rows: seq<Row>
    var order: Order
    var orderBy: string
    var selected: seq<Value>
    /** Stocks only: toggled with every checkbox change and never read. */
    var selectedForDelete: seq<Value>
    var page: nat
    var rowsPerPage: nat
    var searchTerm: string
    /** Whether the delete confirmation dialog is open (Stocks, Inventory). */
    var confirmDelete: bool
    /** Billing only: the document viewer. */
    var pdfViewerOpen: bool
    var pdfPath: Value

    function State(): ViewState
      reads this
    {
      ViewState(data, rows, order, orderBy, selected, selectedForDelete, page, rowsPerPage,
        searchTerm, confirmDelete, pdfViewerOpen, pdfPath)
    }

    /**
     * What each screen's state keeps: `rows` mirrors `data` where it
     * exists, Billing has no selection, only Stocks has the shadow list and
     * only Billing has the document viewer.
     */
    predicate Valid()
      reads this
    {
      && (screen == StocksScreen ==> rows == [])
      && (screen != StocksScreen ==> rows == data && selectedForDelete == [])
      && (screen == BillingScreen ==> selected == [] && !confirmDelete)
      && (screen != BillingScreen ==> !pdfViewerOpen && pdfPath == Text(""))
    }

    constructor (s: Screen)
      ensures screen == s && State() == Initial(s) && Valid()
    {
      screen := s;
      data := [];
      rows := [];
      order := Asc;
      orderBy := if s == StocksScreen then "modelId" else "productName";
      selected := [];
      selectedForDelete := [];
      page := 0;
      rowsPerPage := if s == StocksScreen then 10 else 5;
      searchTerm := "";
      confirmDelete := false;
      pdfViewerOpen := false;
      pdfPath := Text("");
    }

    function Sort(): Comparator
      reads this
    {
      Comparator(order, orderBy)
    }

    // -------------------------------------------------------------------
    // Derived view
    // -------------------------------------------------------------------

    function FilteredData(): seq<Row>
      reads this
    {
      Filter(data, searchTerm)
    }

    function FillerRows(): nat
      reads this
    {
      EmptyRows(page, rowsPerPage, |FilteredData()|)
    }

    function VisibleRows(): seq<Row>
      reads this
    {
      View(Sort(), data, searchTerm, page, rowsPerPage)
    }

    /** `isSelected(id)`: `selected.indexOf(id) !== -1`. */
    predicate IsSelected(id: Value)
      reads this
    {
      IndexOf(selected, id) != -1
    }

    /** The header checkbox, which counts the filtered records. */
    predicate AllChecked()
      reads this
    {
      HeaderChecked(|selected|, |FilteredData()|)
    }

    predicate SomeChecked()
      reads this
    {
      HeaderIndeterminate(|selected|, |FilteredData()|)
    }

    /** Computes the table body, sorting the filtered records in place. */
    method ComputeVisibleRows() returns (visible: seq<Row>)
      ensures visible == VisibleRows()
      ensures |visible| == Min(rowsPerPage, Max(0, |FilteredData()| - page * rowsPerPage))
    {
      var filtered := Filter(data, searchTerm);
      var sorted := StableSort(Comparator(order, orderBy), filtered);
      visible := Window(sorted, page, rowsPerPage);
      ViewShape(Sort(), data, searchTerm, page, rowsPerPage);
    }

    /** Billing never marks a row as selected. */
    lemma BillingSelectsNothing(id: Value)
      requires Valid() && screen == BillingScreen
      ensures !IsSelected(id)
    {
    }

    // -------------------------------------------------------------------
    // Handlers
    // -------------------------------------------------------------------

    /**
     * `fetchData`: a response whose body decodes becomes the list
     * (`rows` too where the screen has it), whatever its status; a failed
     * request leaves everything as it was.
     */
    method FetchSettled(reply: Reply<seq<Row>>)
      requires Valid()
      modifies this
      ensures Valid()
      ensures reply.Response? && screen == StocksScreen ==> State() == old(State()).(data := reply.body)
      ensures reply.Response? && screen != StocksScreen ==>
        State() == old(State()).(data := reply.body, rows := reply.body)
      ensures reply.TransportFailure? ==> State() == old(State())
    {
      if reply.Response? {
        data := reply.body;
        if screen != StocksScreen {
          rows := reply.body;
        }
      }
    }

    /** `handleRequestSort(event, property)`. */
    method RequestSortClick(property: string)
      requires Valid()
      modifies this
      ensures Valid()
      ensures Sort() == RequestSort(old(Sort()), property)
      ensures State() == old(State()).(order := order, orderBy := orderBy)
    {
      var next := RequestSort(Comparator(order, orderBy), property);
      order := next.order;
      orderBy := next.orderBy;
    }

    /** The search box's `setSearchTerm`: only the term changes; the page stays where it was. */
    method SetSearchTerm(term: string)
      requires Valid()
      modifies this
      ensures Valid()
      ensures State() == old(State()).(searchTerm := term)
    {
      searchTerm := term;
    }

    /** `handleChangePage(event, newPage)`. */
    method ChangePage(newPage: nat)
      requires Valid()
      modifies this
      ensures Valid()
      ensures State() == old(State()).(page := newPage)
    {
      page := newPage;
    }

    /** `handleChangeRowsPerPage`: the new page size, and back to the first page. */
    method ChangeRowsPerPage(size: nat)
      requires Valid()
      modifies this
      ensures Valid()
      ensures State() == old(State()).(rowsPerPage := size, page := 0)
    {
      rowsPerPage := size;
      page := 0;
    }

    /**
     * `handleSelectAllClick`: every id of the unfiltered list when checked
     * (`data` on Stocks, `rows` on Inventory), nothing when unchecked.
     */
    method SelectAllClick(checked: bool)
      requires Valid() && screen != BillingScreen
      modifies this
      ensures Valid()
      ensures State() == old(State()).(selected := SelectAllIds(checked, old(data), IdField(screen)))
    {
      var source := if screen == StocksScreen then data else rows;
      selected := SelectAllIds(checked, source, IdField(screen));
    }

    /**
     * A click on a row's checkbox. It runs `handleClick`, which toggles the
     * id in `selected`; on Stocks the same click's change event also runs
     * `handleCheckboxClick`, which toggles it in `selectedForDelete`.
     */
    method RowCheckboxClick(id: Value)
      requires Valid() && screen != BillingScreen
      modifies this
      ensures Valid()
      ensures screen == StocksScreen ==> State() == old(State()).(
        selected := Toggle(old(selected), id),
        selectedForDelete := Toggle(old(selectedForDelete), id))
      ensures screen == InventoryScreen ==> State() == old(State()).(selected := Toggle(old(selected), id))
    {
      selected := Toggle(selected, id);
      if screen == StocksScreen {
        selectedForDelete := Toggle(selectedForDelete, id);
      }
    }

    /** `handleDelete`: the toolbar's delete button opens the confirmation dialog. */
    method RequestDelete()
      requires Valid() && screen != BillingScreen
      modifies this
      ensures Valid()
      ensures State() == old(State()).(confirmDelete := true)
    {
      confirmDelete := true;
    }

    /** The dialog's `onClose`: `setConfirmDelete(false)`. */
    method CloseDeleteDialog()
      requires Valid()
      modifies this
      ensures Valid()
      ensures State() == old(State()).(confirmDelete := false)
    {
      confirmDelete := false;
    }

    /**
     * `handleConfirmDelete` sends the ids in `selected` (never
     * `selectedForDelete`) as the request body; sending changes no state.
     */
    method ConfirmDelete() returns (body: seq<Value>)
      requires Valid() && screen != BillingScreen
      ensures body == selected
    {
      body := selected;
    }

    /**
     * The delete request's outcome: a 2xx response clears the selection,
     * closes the dialog and asks for a re-fetch; anything else changes
     * nothing.
     */
    method DeleteSettled(reply: Reply<()>) returns (refetch: bool)
      requires Valid() && screen != BillingScreen
      modifies this
      ensures Valid()
      ensures refetch == Succeeded(reply)
      ensures Succeeded(reply) ==> State() == old(State()).(selected := [], confirmDelete := false)
      ensures !Succeeded(reply) ==> State() == old(State())
    {
      refetch := false;
      if reply.Response? && IsOk(reply.status) {
        selected := [];
        confirmDelete := false;
        refetch := true;
      }
    }

    /** `handleViewDoc(row.docPath)`: remember the document and open the viewer. */
    method ViewDoc(row: Row)
      requires Valid() && screen == BillingScreen
      modifies this
      ensures Valid()
      ensures State() == old(State()).(pdfPath := Get(row, "docPath"), pdfViewerOpen := true)
    {
      pdfPath := Get(row, "docPath");
      pdfViewerOpen := true;
    }

    /** `handleClosePdfViewer`: only the open flag changes. */
    method ClosePdfViewer()
      requires Valid() && screen == BillingScreen
      modifies this
      ensures Valid()
      ensures State() == old(State()).(pdfViewerOpen := false)
    {
      pdfViewerOpen := false;
    }
  }
}
