/**
 * The new-product form: the product's fields, the SKUs picked from the
 * loaded SKU list, and a units entry per model id. Submission checks the
 * required fields first and the units second, sends nothing when either
 * check fails, and otherwise posts the product with one SKU line per
 * selected SKU.
 */
module InventoryCreate {
  import opened Values
  import opened Http
  import opened Alerts

  const UnitsMessage := "Units must be greater than zero."

  /** One element of the posted `SKU` array. */
  datatype SkuLine = SkuLine(modelId: Value, units: int)

  /** The body `handleSubmit` posts. */
  datatype ProductPayload = ProductPayload(productName: string, productDescription: string, category: string,
                                           productType: string, printRequired: bool, printDetails: string,
                                           sku: seq<SkuLine>)

  /** `units[modelId] || 0`: a model id never given units counts as 0. */
  function UnitsFor(units: map<Value, int>, id: Value): int {
    if id in units then units[id] else 0
  }

  /** `selectedSkus.map(sku => ({ modelId: sku.modelId, units: units[sku.modelId] || 0 }))`. */
  function SkuLines(selected: seq<Row>, units: map<Value, int>): (lines: seq<SkuLine>)
    ensures |lines| == |selected|
    ensures forall k :: 0 <= k < |selected| ==>
              lines[k] == SkuLine(Get(selected[k], "modelId"), UnitsFor(units, Get(selected[k], "modelId")))
  {
    if selected == [] then []
    else [SkuLine(Get(selected[0], "modelId"), UnitsFor(units, Get(selected[0], "modelId")))]
         + SkuLines(selected[1..], units)
  }

  /** `skuData.some(sku => sku.units <= 0)`. */
  function AnyNonPositive(lines: seq<SkuLine>): (b: bool)
    ensures b <==> exists k :: 0 <= k < |lines| && lines[k].units <= 0
  {
    if lines == [] then false
    else lines[0].units <= 0 || AnyNonPositive(lines[1..])
  }

  /** The required-field check. The print-required flag counts as a required field, so "No" never passes. */
  predicate MissingRequired(productName: string, category: string, productType: string, printRequired: bool) {
    productName == "" || category == "" || productType == "" || !printRequired
  }

  /**
   * The two validations in order: the required fields, then the units;
   * None when both pass.
   */
  function ValidationError(productName: string, category: string, productType: string, printRequired: bool,
                           lines: seq<SkuLine>): (e: Option<string>)
    ensures !printRequired ==> e == Some(RequiredMessage)
    ensures e == Some(RequiredMessage) <==> MissingRequired(productName, category, productType, printRequired)
    ensures e == Some(UnitsMessage) <==>
              !MissingRequired(productName, category, productType, printRequired)
              && exists k :: 0 <= k < |lines| && lines[k].units <= 0
    ensures e.None? <==>
              !MissingRequired(productName, category, productType, printRequired)
              && forall k :: 0 <= k < |lines| ==> lines[k].units > 0
  {
    if MissingRequired(productName, category, productType, printRequired) then Some(RequiredMessage)
    else if AnyNonPositive(lines) then Some(UnitsMessage)
    else None
  }

  /** A selected SKU whose units were never entered fails the units check. */
  lemma UnenteredUnitsFail(productName: string, category: string, productType: string,
                           selected: seq<Row>, units: map<Value, int>, k: int)
    requires !MissingRequired(productName, category, productType, true)
    requires 0 <= k < |selected| && Get(selected[k], "modelId") !in units
    ensures ValidationError(productName, category, productType, true, SkuLines(selected, units)) == Some(UnitsMessage)
  {
    assert SkuLines(selected, units)[k].units == 0;
  }

  /** Units entered for a model id that is not selected have no effect on the posted lines. */
  lemma DeselectedUnitsIgnored(selected: seq<Row>, units: map<Value, int>, id: Value, n: int)
    requires forall k :: 0 <= k < |selected| ==> Get(selected[k], "modelId") != id
    ensures SkuLines(selected, units[id := n]) == SkuLines(selected, units)
  {
  }

  /** A snapshot of the form's inputs. */
  datatype Draft = Draft(productName: string, productType: string, printRequired: bool, productDescription: string,
                         category: string, printDetails: string, skuList: seq<Row>, selectedSkus: seq<Row>,
                         units: map<Value, int>)

  class InventoryCreate {
    var productName: string
    var productType: string
    var printRequired: bool
    var productDescription: string
    var category: string
    var printDetails: string
    var skuList: seq<Row>
    var selectedSkus: seq<Row>
    var units: map<Value, int>
    var snackbar: Snackbar
    var alert: AlertState

    function Inputs(): Draft
      reads this
    {
      Draft(productName, productType, printRequired, productDescription, category, printDetails,
            skuList, selectedSkus, units)
    }

    constructor ()
      ensures Inputs() == Draft("", "", false, "", "", "", [], [], map[])
      ensures snackbar == ClosedSnackbar && alert == ClosedAlert
    {
      productName := "";
      productType := "";
      printRequired := false;
      productDescription := "";
      category := "";
      printDetails := "";
      skuList := [];
      selectedSkus := [];
      units := map[];
      snackbar := ClosedSnackbar;
      alert := ClosedAlert;
    }

    /** The SKU list fetch: any response's body becomes the options; a failure leaves them. */
    method SkuListSettled(reply: Reply<seq<Row>>)
      modifies this
      ensures Inputs() == old(Inputs()).(skuList := if reply.Response? then reply.body else old(skuList))
      ensures snackbar == old(snackbar) && alert == old(alert)
    {
      if reply.Response? {
        skuList := reply.body;
      }
    }

    method SetProductName(v: string)
      modifies this
      ensures Inputs() == old(Inputs()).(productName := v)
      ensures snackbar == old(snackbar) && alert == old(alert)
    {
      productName := v;
    }

    method SetCategory(v: string)
      modifies this
      ensures Inputs() == old(Inputs()).(category := v)
      ensures snackbar == old(snackbar) && alert == old(alert)
    {
      category := v;
    }

    method SetProductDescription(v: string)
      modifies this
      ensures Inputs() == old(Inputs()).(productDescription := v)
      ensures snackbar == old(snackbar) && alert == old(alert)
    {
      productDescription := v;
    }

    method SetProductType(v: string)
      modifies this
      ensures Inputs() == old(Inputs()).(productType := v)
      ensures snackbar == old(snackbar) && alert == old(alert)
    {
      productType := v;
    }

    /** The print-required selector: its value is the string "true" or "false". */
    method SetPrintRequired(v: string)
      modifies this
      ensures Inputs() == old(Inputs()).(printRequired := v == "true")
      ensures snackbar == old(snackbar) && alert == old(alert)
    {
      printRequired := v == "true";
    }

    method SetPrintDetails(v: string)
      modifies this
      ensures Inputs() == old(Inputs()).(printDetails := v)
      ensures snackbar == old(snackbar) && alert == old(alert)
    {
      printDetails := v;
    }

    /** `handleSkuSelection`: the selection becomes the picker's new value; units entries are kept. */
    method SelectSkus(newValue: seq<Row>)
      modifies this
      ensures Inputs() == old(Inputs()).(selectedSkus := newValue)
      ensures snackbar == old(snackbar) && alert == old(alert)
    {
      selectedSkus := newValue;
    }

    /** `handleUnitChange(modelId, value)`: only that model id's entry is set. */
    method UnitChange(modelId: Value, n: int)
      modifies this
      ensures Inputs() == old(Inputs()).(units := old(units)[modelId := n])
      ensures snackbar == old(snackbar) && alert == old(alert)
    {
      units := units[modelId := n];
    }

    /** `handleSnackbarClose(event, reason)`. */
    method SnackbarClose(reason: string)
      modifies this
      ensures snackbar == CloseSnackbar(old(snackbar), reason)
      ensures Inputs() == old(Inputs()) && alert == old(alert)
    {
      snackbar := CloseSnackbar(snackbar, reason);
    }

    /**
     * `handleSubmit`. A failed validation shows its message in the snackbar
     * and sends nothing. Otherwise the product is posted; `reply` is what
     * the post comes back with. A response is classified with "Created
     * successfully" and `/inventory` and its `message` is shown; a transport
     * failure shows "Problem Saving Data".
     */
    method Submit(reply: Reply<Row>) returns (request: Option<ProductPayload>)
      modifies this
      ensures Inputs() == old(Inputs())
      ensures var e := ValidationError(productName, category, productType, printRequired, SkuLines(selectedSkus, units));
        && (e.Some? ==> request.None? && snackbar == ShowError(old(snackbar), e.value) && alert == old(alert))
        && (e.None? ==> request == Some(ProductPayload(productName, productDescription, category, productType,
                                                       printRequired, printDetails, SkuLines(selectedSkus, units))))
        && (e.None? && reply.Response? ==>
              alert == Classify(old(alert), reply.status, "Created successfully", "/inventory", Get(reply.body, "message"))
              && snackbar == old(snackbar))
        && (e.None? && reply.TransportFailure? ==> snackbar == ShowError(old(snackbar), ProblemMessage) && alert == old(alert))
    {
      var lines := SkuLines(selectedSkus, units);
      var e := ValidationError(productName, category, productType, printRequired, lines);
      if e.Some? {
        snackbar := ShowError(snackbar, e.value);
        request := None;
        return;
      }
      request := Some(ProductPayload(productName, productDescription, category, productType,
                                     printRequired, printDetails, lines));
      match reply
      case Response(status, body) =>
        alert := Classify(alert, status, "Created successfully", "/inventory", Get(body, "message"));
      case TransportFailure =>
        snackbar := ShowError(snackbar, ProblemMessage);
    }
  }
}
