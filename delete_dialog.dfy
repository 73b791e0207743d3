/**
 * The delete confirmation dialog. It has no state of its own: its buttons
 * call the parent's `onConfirm` and `onClose`, which on the Stocks and
 * Inventory screens are `handleConfirmDelete` and `setConfirmDelete(false)`.
 * It never navigates.
 */
module DeleteDialog {
  import opened Values
  import opened TableView

  /** A call the dialog makes into its parent. */
  datatype Callback = OnConfirm | OnClose

  /**
   * `handleConfirm` (the Delete button): `onConfirm` and then `onClose`,
   * each once. The request carries the parent's selection, and the dialog
   * is closed before the request has any outcome.
   */
  method HandleConfirm(view: TableView) returns (calls: seq<Callback>, request: seq<Value>)
    requires view.Valid() && view.screen != BillingScreen
    modifies view
    ensures view.Valid()
    ensures calls == [OnConfirm, OnClose]
    ensures request == old(view.selected)
    ensures view.State() == old(view.State()).(confirmDelete := false)
  {
    request := view.ConfirmDelete();
    calls := [OnConfirm];
    view.CloseDeleteDialog();
    calls := calls + [OnClose];
  }

  /** `handleClose` (Cancel, a backdrop click or Escape): only `onClose`. */
  method HandleClose(view: TableView) returns (calls: seq<Callback>)
    requires view.Valid() && view.screen != BillingScreen
    modifies view
    ensures view.Valid()
    ensures calls == [OnClose]
    ensures view.State() == old(view.State()).(confirmDelete := false)
  {
    view.CloseDeleteDialog();
    calls := [OnClose];
  }
}
