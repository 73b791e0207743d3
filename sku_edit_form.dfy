/**
 * The SKU edit form: the fetched SKU seeds both the initial and the
 * working copy; every field change marks the form edited, for good; Save
 * (only enabled once edited) checks five required fields and puts the
 * seven editable fields of the working copy.
 */
module SkuEditForm {
  import opened Values
  import opened Http
  import opened Alerts

  /** The fields the PUT body is built from. */
  const EditableFields: set<string> := {"color", "material", "weight", "dimensions", "inStock", "ratePerUnit", "units"}

  /** The fields that must be truthy for Save to send anything. */
  const RequiredFields: set<string> := {"color", "material", "dimensions", "ratePerUnit", "units"}

  /**
   * `handleFieldChange(field, value)` on the working copy. The `_id` branch
   * first drops `_id` and then writes it back, so both branches amount to
   * an ordinary update of one field.
   */
  function FieldChanged(formData: Row, field: string, value: Value): (r: Row)
    ensures r == formData[field := value]
    ensures forall f :: f in formData && f != field ==> f in r && r[f] == formData[f]
  {
    if field == "_id" then (formData - {"_id"})[field := value] else formData[field := value]
  }

  /** Writing a field's previous value back restores the working copy (the edited flag is not restored). */
  lemma RevertRestoresData(formData: Row, field: string, value: Value)
    requires field in formData
    ensures FieldChanged(FieldChanged(formData, field, value), field, formData[field]) == formData
  {
    assert FieldChanged(FieldChanged(formData, field, value), field, formData[field]).Keys == formData.Keys;
  }

  /** `!formData.color || !formData.material || !formData.dimensions || !formData.ratePerUnit || !formData.units`. */
  function MissingRequired(formData: Row): (b: bool)
    ensures b <==> exists f :: f in RequiredFields && !Truthy(Get(formData, f))
  {
    var missing := !Truthy(Get(formData, "color")) || !Truthy(Get(formData, "material"))
                   || !Truthy(Get(formData, "dimensions")) || !Truthy(Get(formData, "ratePerUnit"))
                   || !Truthy(Get(formData, "units"));
    assert !missing ==> forall f :: f in RequiredFields ==> Truthy(Get(formData, f));
    missing
  }

  /** A zero rate or zero units counts as missing. */
  lemma ZeroRateOrUnitsIsMissing(formData: Row)
    requires Get(formData, "ratePerUnit") == Num(0) || Get(formData, "units") == Num(0)
    ensures MissingRequired(formData)
  {
    assert "ratePerUnit" in RequiredFields && "units" in RequiredFields;
  }

  /**
   * The PUT body: the seven editable fields taken from the working copy;
   * a field the copy lacks is `undefined` and `JSON.stringify` leaves it out.
   */
  function Payload(formData: Row): (p: Row)
    ensures forall f :: f in p <==> f in EditableFields && f in formData
    ensures forall f :: f in p ==> p[f] == formData[f]
  {
    map f | f in EditableFields && f in formData :: formData[f]
  }

  /** Fields outside the seven, `_id` among them, never reach the body. */
  lemma PayloadIgnoresOtherFields(formData: Row, field: string, value: Value)
    requires field !in EditableFields
    ensures Payload(FieldChanged(formData, field, value)) == Payload(formData)
  {
  }

  /** "Updated for Model ${responseData[0].modelId}". */
  function UpdatedMessage(first: Row): (s: string)
    ensures |s| >= 18 && s[..18] == "Updated for Model "
    ensures s[18..] == TemplateText(first, "modelId")
  {
    "Updated for Model " + TemplateText(first, "modelId")
  }

  /** A snapshot of the form's data. */
  datatype Draft = Draft(initialData: Row, formData: Row, isFormEdited: bool)

  class SkuEditForm {
    /** The route's `skuId`, which names the SKU to fetch and to update. */
    const skuId: string
    var initialData: Row
    var formData: Row
    var isFormEdited: bool
    var snackbar: Snackbar
    var alert: AlertState

    function Data(): Draft
      reads this
    {
      Draft(initialData, formData, isFormEdited)
    }

    constructor (id: string)
      ensures skuId == id && Data() == Draft(map[], map[], false)
      ensures snackbar == ClosedSnackbar && alert == ClosedAlert
    {
      skuId := id;
      initialData := map[];
      formData := map[];
      isFormEdited := false;
      snackbar := ClosedSnackbar;
      alert := ClosedAlert;
    }

    /**
     * The load effect settles. The first element of the body seeds both
     * copies, whatever the status; an empty body or a failure throws before
     * anything is set.
     */
    method LoadSettled(reply: Reply<seq<Row>>)
      modifies this
      ensures reply.Response? && |reply.body| > 0 ==>
                Data() == old(Data()).(initialData := reply.body[0], formData := reply.body[0])
      ensures !(reply.Response? && |reply.body| > 0) ==> Data() == old(Data())
      ensures snackbar == old(snackbar) && alert == old(alert)
    {
      if reply.Response? && |reply.body| > 0 {
        initialData := reply.body[0];
        formData := reply.body[0];
      }
    }

    /** `handleFieldChange`: one field of the working copy changes and the form is marked edited. */
    method FieldChange(field: string, value: Value)
      modifies this
      ensures Data() == old(Data()).(formData := FieldChanged(old(formData), field, value), isFormEdited := true)
      ensures snackbar == old(snackbar) && alert == old(alert)
    {
      formData := FieldChanged(formData, field, value);
      isFormEdited := true;
    }

    /** `handleSnackbarClose(event, reason)`. */
    method SnackbarClose(reason: string)
      modifies this
      ensures snackbar == CloseSnackbar(old(snackbar), reason)
      ensures Data() == old(Data()) && alert == old(alert)
    {
      snackbar := CloseSnackbar(snackbar, reason);
    }

    /**
     * Save, which is disabled until the form is edited. A missing required
     * field shows the required-fields message and sends nothing. Otherwise
     * the payload is put and `reply` is what comes back: the title and
     * target are set from the status ("Updated successfully" and `/stocks`
     * on 201), and then the message is read from the body's first element;
     * an empty body throws there, so the alert stays closed and the
     * problem message is shown, as it is for a transport failure.
     */
    method PressSave(reply: Reply<seq<Row>>) returns (request: Option<Row>)
      requires isFormEdited
      modifies this
      ensures Data() == old(Data())
      ensures MissingRequired(formData) ==>
                request.None? && snackbar == ShowError(old(snackbar), RequiredMessage) && alert == old(alert)
      ensures !MissingRequired(formData) ==> request == Some(Payload(formData))
      ensures !MissingRequired(formData) && reply.Response? && |reply.body| > 0 ==>
                alert == Classify(old(alert), reply.status, "Updated successfully", "/stocks",
                                  Text(UpdatedMessage(reply.body[0])))
                && snackbar == old(snackbar)
      ensures !MissingRequired(formData) && reply.Response? && |reply.body| == 0 ==>
                alert == Titled(old(alert), reply.status, "Updated successfully", "/stocks")
                && snackbar == ShowError(old(snackbar), ProblemMessage)
      ensures !MissingRequired(formData) && reply.TransportFailure? ==>
                alert == old(alert) && snackbar == ShowError(old(snackbar), ProblemMessage)
    {
      if MissingRequired(formData) {
        snackbar := ShowError(snackbar, RequiredMessage);
        request := None;
        return;
      }
      request := Some(Payload(formData));
      match reply
      case Response(status, body) =>
        alert := Titled(alert, status, "Updated successfully", "/stocks");
        if |body| > 0 {
          alert := alert.(message := Text(UpdatedMessage(body[0])), open := true);
        } else {
          snackbar := ShowError(snackbar, ProblemMessage);
        }
      case TransportFailure =>
        snackbar := ShowError(snackbar, ProblemMessage);
    }
  }
}
