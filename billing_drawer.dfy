/**
 * The billing drawer: the shared detail-panel lifecycle over one bill,
 * plus its status control. A PAID bill shows its status as text and
 * offers no control; otherwise the selector offers PENDING and PARTIAL,
 * and PAID only when the bill is PARTIAL. Update sends the selector's
 * value and, on a 2xx response, replaces only the local record's status.
 */
module BillingDrawer {
  import opened Values
  import opened Http
  import opened DetailPanel

  const Pending := "PENDING"
  const Partial := "PARTIAL"
  const Paid := "PAID"

  predicate IsPaid(bill: Row) {
    Get(bill, "status") == Text(Paid)
  }

  /** The selector's options for a bill that is not PAID. */
  function StatusOptions(bill: Row): (options: seq<string>)
    ensures Pending in options && Partial in options
    ensures Paid in options <==> Get(bill, "status") == Text(Partial)
  {
    [Pending, Partial] + (if Get(bill, "status") == Text(Partial) then [Paid] else [])
  }

  class BillingDrawer {
    const panel: Panel<Row>
    /** The selector's value; it starts empty and is not taken from the fetched bill. */
    var status: string
    var updating: bool
    /** The bill and the status an in-flight update was sent with. */
    var sentBill: Row
    var sentStatus: string

    constructor (open0: bool, billingId: string)
      ensures fresh(panel) && panel.open == open0 && panel.key == billingId
      ensures panel.record == None && panel.loading == open0
      ensures status == "" && !updating
    {
      panel := new Panel(open0, billingId);
      status := "";
      updating := false;
      sentBill := map[];
      sentStatus := "";
    }

    /** The status selector and the Update button are rendered: a loaded bill that is not PAID. */
    predicate ShowsControls()
      reads this, panel
    {
      !panel.loading && panel.record.Some? && !IsPaid(panel.record.value)
    }

    /** A PAID bill is terminal: no control is rendered for it. */
    lemma PaidIsTerminal()
      requires panel.record.Some? && IsPaid(panel.record.value)
      ensures !ShowsControls()
    {
    }

    /** `handleStatusChange`: the selector takes one of the offered values. */
    method ChangeStatus(value: string)
      requires ShowsControls() && value in StatusOptions(panel.record.value)
      modifies this
      ensures status == value && updating == old(updating)
      ensures sentBill == old(sentBill) && sentStatus == old(sentStatus)
    {
      status := value;
    }

    /**
     * `handleUpdateClick` with an enabled button: `updating` is set and the
     * request names the bill's `billingId` and carries the selector's value.
     */
    method PressUpdate() returns (billingId: Value, body: string)
      requires ShowsControls() && !updating
      modifies this
      ensures updating && status == old(status)
      ensures billingId == Get(panel.record.value, "billingId") && body == status
      ensures sentBill == panel.record.value && sentStatus == status
    {
      updating := true;
      sentBill := panel.record.value;
      sentStatus := status;
      billingId := Get(sentBill, "billingId");
      body := sentStatus;
    }

    /**
     * `handleUpdateStatus` settles and the `finally` clears `updating`. A
     * 2xx response sets the bill (as it was when Update was pressed) to the
     * sent status, and changes no other field; anything else leaves the
     * record as it was.
     */
    method UpdateSettled(reply: Reply<()>)
      requires updating
      modifies this, panel
      ensures !updating && status == old(status)
      ensures panel.open == old(panel.open) && panel.key == old(panel.key) && panel.loading == old(panel.loading)
      ensures Succeeded(reply) ==> panel.record == Some(old(sentBill)["status" := Text(old(sentStatus))])
      ensures !Succeeded(reply) ==> panel.record == old(panel.record)
    {
      if reply.Response? && IsOk(reply.status) {
        panel.record := Some(sentBill["status" := Text(sentStatus)]);
      }
      updating := false;
    }
  }

  /** A successful update changes the bill's status and no other field. */
  lemma UpdateChangesOnlyStatus(bill: Row, sent: string, f: string)
    requires f != "status"
    ensures Get(bill["status" := Text(sent)], f) == Get(bill, f)
    ensures Get(bill["status" := Text(sent)], "status") == Text(sent)
  {
  }
}
