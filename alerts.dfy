/**
 * What the create and edit forms show after a submission: the alert
 * dialog (title, message and where closing it navigates) for a response,
 * and the error snackbar for validation and transport failures.
 */
module Alerts {
  import opened Values
  import opened Http

  /** The `openAlert`, `alertTitle`, `alertMessage` and `navigateTo` fields of a form. */
  datatype AlertState = AlertState(open: bool, title: string, message: Value, navigateTo: string)

  const ClosedAlert := AlertState(false, "", Text(""), "")

  const RequiredMessage := "All fields marked with * are required."
  const ProblemMessage := "Problem Saving Data"

  /**
   * The title and target a form sets for a response: a 2xx response is
   * titled with the success title and routed to `target` only when its
   * status is exactly 201, other 2xx responses keep the previous title and
   * target, and non-2xx responses are titled "Error".
   */
  function Titled(a: AlertState, status: int, successTitle: string, target: string): (r: AlertState)
    ensures r.open == a.open && r.message == a.message
    ensures status == 201 ==> r.title == successTitle && r.navigateTo == target
    ensures IsOk(status) && status != 201 ==> r == a
    ensures !IsOk(status) ==> r.title == "Error" && r.navigateTo == a.navigateTo
  {
    if IsOk(status) then
      if status == 201 then a.(title := successTitle, navigateTo := target) else a
    else a.(title := "Error")
  }

  /**
   * The forms' whole response handling: the title and target as `Titled`
   * sets them, then the message is set and the alert opened, whatever the
   * status.
   */
  function Classify(a: AlertState, status: int, successTitle: string, target: string, message: Value): (r: AlertState)
    ensures r.open && r.message == message
    ensures r.title == Titled(a, status, successTitle, target).title
    ensures r.navigateTo == Titled(a, status, successTitle, target).navigateTo
  {
    Titled(a, status, successTitle, target).(message := message, open := true)
  }

  /** Only a 201 response ever routes anywhere new. */
  lemma ClassifyRoutesOnlyOnCreated(a: AlertState, status: int, successTitle: string, target: string, message: Value)
    requires target != a.navigateTo
    ensures Classify(a, status, successTitle, target, message).navigateTo == target <==> status == 201
  {
  }

  /** The error snackbar: `error` and `errorSnackbarOpen`. */
  datatype Snackbar = Snackbar(open: bool, error: string)

  const ClosedSnackbar := Snackbar(false, "")

  /** `handleValidationError(message)` and `handleProblemError()`: show the message. */
  function ShowError(s: Snackbar, message: string): (r: Snackbar)
    ensures r.open && r.error == message
  {
    Snackbar(true, message)
  }

  /** `handleSnackbarClose(event, reason)`: a click away leaves it open; any other reason closes it. */
  function CloseSnackbar(s: Snackbar, reason: string): (r: Snackbar)
    ensures reason == "clickaway" ==> r == s
    ensures reason != "clickaway" ==> !r.open && r.error == s.error
  {
    if reason == "clickaway" then s else s.(open := false)
  }
}
