/**
 * The new-bill form: the draft (name, contact, particulars and their
 * total), the separate e-mail, address and status state, and the payload
 * the submission posts. Submission does no validation; it navigates to
 * the billing list only when the post succeeds.
 */
module BillingCreate {
  import opened Values
  import opened Http

  /**
   * One line of the particulars. `rate` and `units` are the numbers typed
   * into the fields; an empty field (`''`) is None, which JavaScript's `*`
   * reads as 0.
   */
  datatype Particular = Particular(productId: string, rate: Option<int>, units: Option<int>)

  /** `{ productId: '', rate: '', units: '' }`. */
  const Blank := Particular("", None, None)

  function NumberOf(v: Option<int>): int {
    match v
    case None => 0
    case Some(n) => n
  }

  /** `particular.rate * particular.units`. */
  function Amount(p: Particular): int {
    NumberOf(p.rate) * NumberOf(p.units)
  }

  /** `reduce((acc, particular) => acc + particular.rate * particular.units, 0)`. */
  function Total(ps: seq<Particular>): int
    decreases |ps|
  {
    if ps == [] then 0 else Total(ps[..|ps| - 1]) + Amount(ps[|ps| - 1])
  }

  /** A blank line contributes nothing. */
  lemma BlankAmountIsZero()
    ensures Amount(Blank) == 0
  {
  }

  lemma TotalAppend(ps: seq<Particular>, p: Particular)
    ensures Total(ps + [p]) == Total(ps) + Amount(p)
  {
    assert (ps + [p])[..|ps|] == ps;
  }

  /** Replacing one line changes the total by the difference of the two lines' amounts. */
  lemma {:induction false} TotalUpdate(ps: seq<Particular>, i: int, q: Particular)
    requires 0 <= i < |ps|
    ensures Total(ps[i := q]) == Total(ps) - Amount(ps[i]) + Amount(q)
    decreases |ps|
  {
    var n := |ps| - 1;
    if i == n {
      assert ps[i := q][..n] == ps[..n];
    } else {
      TotalUpdate(ps[..n], i, q);
      assert ps[i := q][..n] == ps[..n][i := q];
    }
  }

  /** What a particulars field change writes. */
  datatype Edit = SetProductId(productId: string) | SetRate(rate: Option<int>) | SetUnits(units: Option<int>)

  /** `newParticulars[index][field] = value`: that field changes and the other two stay. */
  function Edited(p: Particular, e: Edit): (q: Particular)
    ensures e.SetProductId? ==> q == p.(productId := e.productId)
    ensures e.SetRate? ==> q == p.(rate := e.rate)
    ensures e.SetUnits? ==> q == p.(units := e.units)
    ensures e.SetProductId? ==> Amount(q) == Amount(p)
    ensures e.SetRate? ==> Amount(q) == NumberOf(e.rate) * NumberOf(p.units)
    ensures e.SetUnits? ==> Amount(q) == NumberOf(p.rate) * NumberOf(e.units)
  {
    match e
    case SetProductId(id) => Particular(id, p.rate, p.units)
    case SetRate(r) => Particular(p.productId, r, p.units)
    case SetUnits(u) => Particular(p.productId, p.rate, u)
  }

  /** Choosing a line's product leaves the total as it was. */
  lemma ProductEditKeepsTotal(ps: seq<Particular>, i: int, id: string)
    requires 0 <= i < |ps|
    ensures Total(ps[i := Edited(ps[i], SetProductId(id))]) == Total(ps)
  {
    TotalUpdate(ps, i, Edited(ps[i], SetProductId(id)));
  }

  datatype Address = Address(doorNumber: string, address1: string, address2: string,
                             city: string, state: string, zipcode: string)

  const BlankAddress := Address("", "", "", "", "", "")

  /** The address inputs other than the zipcode, which has its own handler. */
  datatype AddressField = DoorNumber | Address1 | Address2 | City | State

  function WithField(a: Address, f: AddressField, v: string): Address {
    match f
    case DoorNumber => a.(doorNumber := v)
    case Address1 => a.(address1 := v)
    case Address2 => a.(address2 := v)
    case City => a.(city := v)
    case State => a.(state := v)
  }

  const Statuses := ["PENDING", "PARTIAL", "PAID"]

  /** The body `handleSubmit` posts. */
  datatype Payload = Payload(billName: string, contactNo: string, emailAddress: string, billAddress: Address,
                             particulars: seq<Particular>, total: int, status: string)

  /** A snapshot of every field of the form. */
  datatype Draft = Draft(billName: string, contactNo: string, particulars: seq<Particular>, total: int,
                         showEmail: bool, emailAddress: string, billAddress: Address, status: string)

  class BillingCreate {
    var billName: string
    var contactNo: string
    var particulars: seq<Particular>
    var total: int
    var showEmail: bool
    var emailAddress: string
    var billAddress: Address
    var status: string

    function State(): Draft
      reads this
    {
      Draft(billName, contactNo, particulars, total, showEmail, emailAddress, billAddress, status)
    }

    /** The displayed total is always the sum over the current lines. */
    predicate Valid()
      reads this
    {
      total == Total(particulars)
    }

    constructor ()
      ensures Valid()
      ensures particulars == [] && total == 0 && status == "PENDING"
      ensures billName == "" && contactNo == "" && !showEmail && emailAddress == "" && billAddress == BlankAddress
    {
      billName := "";
      contactNo := "";
      particulars := [];
      total := 0;
      showEmail := false;
      emailAddress := "";
      billAddress := BlankAddress;
      status := "PENDING";
    }

    method SetBillName(v: string)
      requires Valid()
      modifies this
      ensures Valid()
      ensures State() == old(State()).(billName := v)
    {
      billName := v;
    }

    method SetContactNo(v: string)
      requires Valid()
      modifies this
      ensures Valid()
      ensures State() == old(State()).(contactNo := v)
    {
      contactNo := v;
    }

    /** `handleCheckboxChange`: the Email checkbox flips. */
    method ToggleEmail()
      requires Valid()
      modifies this
      ensures Valid()
      ensures State() == old(State()).(showEmail := !old(showEmail))
    {
      showEmail := !showEmail;
    }

    method SetEmailAddress(v: string)
      requires Valid()
      modifies this
      ensures Valid()
      ensures State() == old(State()).(emailAddress := v)
    {
      emailAddress := v;
    }

    /** The City input is disabled, so only the postal lookup writes the city. */
    method SetAddressField(f: AddressField, v: string)
      requires Valid() && f != City
      modifies this
      ensures Valid()
      ensures State() == old(State()).(billAddress := WithField(old(billAddress), f, v))
    {
      billAddress := WithField(billAddress, f, v);
    }

    /**
     * `handleZipcodeChange`: the zipcode is stored, and the postal lookup
     * is attempted exactly when it has six characters.
     */
    method ZipcodeChange(zipcode: string) returns (lookup: bool)
      requires Valid()
      modifies this
      ensures Valid()
      ensures State() == old(State()).(billAddress := old(billAddress).(zipcode := zipcode))
      ensures lookup <==> |zipcode| == 6
    {
      billAddress := billAddress.(zipcode := zipcode);
      lookup := |zipcode| == 6;
    }

    /** `handleAddParticular`: one blank line at the end; the total is not recomputed, and need not be. */
    method AddParticular()
      requires Valid()
      modifies this
      ensures Valid()
      ensures State() == old(State()).(particulars := old(particulars) + [Blank])
    {
      TotalAppend(particulars, Blank);
      particulars := particulars + [Blank];
    }

    /**
     * `handleParticularChange(index, field, value)` followed by
     * `calculateTotal`: one field of line `index` changes, and the total
     * moves by the change in that line's amount.
     */
    method ChangeParticular(index: nat, e: Edit)
      requires Valid() && index < |particulars|
      modifies this
      ensures Valid()
      ensures State() == old(State()).(
        particulars := old(particulars)[index := Edited(old(particulars)[index], e)],
        total := old(total) - Amount(old(particulars)[index]) + Amount(Edited(old(particulars)[index], e)))
    {
      TotalUpdate(particulars, index, Edited(particulars[index], e));
      particulars := particulars[index := Edited(particulars[index], e)];
      total := Total(particulars);
    }

    /** The status selector. */
    method SetStatus(v: string)
      requires Valid() && v in Statuses
      modifies this
      ensures Valid()
      ensures State() == old(State()).(status := v)
    {
      status := v;
    }

    /**
     * `handleSubmit`: the payload takes the address and status from their
     * own state and the e-mail only when the checkbox is on; the form
     * navigates to `/billing` only on a 2xx response.
     */
    method Submit(reply: Reply<()>) returns (payload: Payload, navigateTo: Option<string>)
      requires Valid()
      ensures payload.billName == billName && payload.contactNo == contactNo
      ensures payload.emailAddress == (if showEmail then emailAddress else "")
      ensures payload.billAddress == billAddress && payload.status == status
      ensures payload.particulars == particulars && payload.total == Total(payload.particulars)
      ensures navigateTo == (if Succeeded(reply) then Some("/billing") else None)
    {
      payload := Payload(billName, contactNo, if showEmail then emailAddress else "", billAddress,
                         particulars, total, status);
      navigateTo := if reply.Response? && IsOk(reply.status) then Some("/billing") else None;
    }
  }
}
