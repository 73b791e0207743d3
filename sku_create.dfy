/**
 * The new-SKU form: six text inputs and an in-stock switch. Submission
 * requires five of the texts to be non-empty (the error line it sets is
 * never cleared), generates a model id from a random number, posts the
 * SKU and classifies the response; a transport failure changes nothing.
 */
module SkuCreate {
  import opened Values
  import opened Http
  import opened Alerts

  /** A base-36 digit as `Number.prototype.toString(36)` writes it: 0-9, then lower-case a-z. */
  function Base36Digit(d: int): (c: char)
    requires 0 <= d < 36
    ensures d < 10 ==> '0' <= c <= '9'
    ensures 10 <= d ==> 'a' <= c <= 'z'
  {
    if d < 10 then '0' + d as char else 'a' + (d - 10) as char
  }

  /**
   * `Math.random().toString(36)` for the random number whose base-36
   * fraction digits are `digits`: "0" for zero, otherwise "0." followed by
   * the digits.
   */
  function RandomText(digits: seq<int>): (s: string)
    requires forall k :: 0 <= k < |digits| ==> 0 <= digits[k] < 36
    ensures digits == [] ==> s == "0"
    ensures digits != [] ==> |s| == |digits| + 2 && s[..2] == "0."
    ensures forall k :: 0 <= k < |digits| ==> s[k + 2] == Base36Digit(digits[k])
  {
    if digits == [] then "0"
    else "0." + seq(|digits|, k requires 0 <= k < |digits| => Base36Digit(digits[k]))
  }

  /** `String.prototype.substring(start, end)` for `start <= end`: both ends are clamped to the length. */
  function Substring(s: string, start: nat, end: nat): (r: string)
    requires start <= end
    ensures |r| == Min(end, |s|) - Min(start, |s|)
    ensures forall k :: 0 <= k < |r| ==> r[k] == s[start + k]
  {
    s[Min(start, |s|)..Min(end, |s|)]
  }

  /** `toUpperCase` on the base-36 alphabet. */
  function UpperChar(c: char): (u: char)
    ensures 'a' <= c <= 'z' ==> 'A' <= u <= 'Z'
    ensures !('a' <= c <= 'z') ==> u == c
  {
    if 'a' <= c <= 'z' then c - 'a' + 'A' else c
  }

  function Upper(s: string): (r: string)
    ensures |r| == |s| && forall k :: 0 <= k < |s| ==> r[k] == UpperChar(s[k])
  {
    seq(|s|, k requires 0 <= k < |s| => UpperChar(s[k]))
  }

  predicate ModelIdChar(c: char) {
    '0' <= c <= '9' || 'A' <= c <= 'Z'
  }

  /**
   * `generateModelId()`, with the random number given by its fraction
   * digits: characters 2 to 8 of its base-36 text, upper-cased. The id has
   * at most six characters, all from 0-9 and A-Z, and is the first six
   * digits when there are that many.
   */
  function ModelIdFrom(digits: seq<int>): (id: string)
    requires forall k :: 0 <= k < |digits| ==> 0 <= digits[k] < 36
    ensures |id| <= 6 && |id| == Min(6, |digits|)
    ensures forall k :: 0 <= k < |id| ==> ModelIdChar(id[k])
    ensures forall k :: 0 <= k < |id| ==> id[k] == UpperChar(Base36Digit(digits[k]))
  {
    Upper(Substring(RandomText(digits), 2, 8))
  }

  /** The text inputs, by field. */
  datatype SkuField = Color | Material | Weight | Dimensions | RatePerUnit | Units

  /** The body `handleSubmit` posts. */
  datatype SkuPayload = SkuPayload(modelId: string, color: string, material: string, weight: string,
                                   dimensions: string, inStock: bool, ratePerUnit: string, units: string)

  /** A snapshot of the form's inputs. */
  datatype Draft = Draft(color: string, material: string, weight: string, dimensions: string,
                         inStock: bool, ratePerUnit: string, units: string)

  class SkuCreate {
    var color: string
    var material: string
    var weight: string
    var dimensions: string
    var inStock: bool
    var ratePerUnit: string
    var units: string
    /** The error line shown above the form; empty means none. */
    var error: string
    var alert: AlertState

    function Inputs(): Draft
      reads this
    {
      Draft(color, material, weight, dimensions, inStock, ratePerUnit, units)
    }

    /** The only error the form ever shows is the required-fields message. */
    predicate Valid()
      reads this
    {
      error == "" || error == RequiredMessage
    }

    /** `weight` and `inStock` are not checked. */
    predicate MissingRequired()
      reads this
    {
      color == "" || material == "" || dimensions == "" || ratePerUnit == "" || units == ""
    }

    constructor ()
      ensures Valid() && Inputs() == Draft("", "", "", "", true, "", "")
      ensures error == "" && alert == ClosedAlert
    {
      color := "";
      material := "";
      weight := "";
      dimensions := "";
      inStock := true;
      ratePerUnit := "";
      units := "";
      error := "";
      alert := ClosedAlert;
    }

    method SetField(f: SkuField, v: string)
      requires Valid()
      modifies this
      ensures Valid() && error == old(error) && alert == old(alert)
      ensures Inputs() == match f
        case Color => old(Inputs()).(color := v)
        case Material => old(Inputs()).(material := v)
        case Weight => old(Inputs()).(weight := v)
        case Dimensions => old(Inputs()).(dimensions := v)
        case RatePerUnit => old(Inputs()).(ratePerUnit := v)
        case Units => old(Inputs()).(units := v)
    {
      match f
      case Color => color := v;
      case Material => material := v;
      case Weight => weight := v;
      case Dimensions => dimensions := v;
      case RatePerUnit => ratePerUnit := v;
      case Units => units := v;
    }

    method SetInStock(b: bool)
      requires Valid()
      modifies this
      ensures Valid() && error == old(error) && alert == old(alert)
      ensures Inputs() == old(Inputs()).(inStock := b)
    {
      inStock := b;
    }

    /**
     * `handleSubmit`, with the random number's fraction digits and the
     * post's outcome as parameters. A missing field sets the error line
     * and sends nothing. Otherwise the SKU is posted under a generated
     * model id; a response is classified with "Created successfully" and
     * `/stocks` and its `message` is shown, and a transport failure leaves
     * the form as it was. An error line, once set, stays.
     */
    method Submit(digits: seq<int>, reply: Reply<Row>) returns (request: Option<SkuPayload>)
      requires Valid()
      requires forall k :: 0 <= k < |digits| ==> 0 <= digits[k] < 36
      modifies this
      ensures Valid() && Inputs() == old(Inputs())
      ensures old(error) == RequiredMessage ==> error == RequiredMessage
      ensures MissingRequired() ==> request.None? && error == RequiredMessage && alert == old(alert)
      ensures !MissingRequired() ==> error == old(error)
      ensures !MissingRequired() ==>
                request == Some(SkuPayload(ModelIdFrom(digits), color, material, weight, dimensions,
                                           inStock, ratePerUnit, units))
      ensures !MissingRequired() && reply.Response? ==>
                alert == Classify(old(alert), reply.status, "Created successfully", "/stocks", Get(reply.body, "message"))
      ensures !MissingRequired() && reply.TransportFailure? ==> alert == old(alert)
    {
      if MissingRequired() {
        error := RequiredMessage;
        request := None;
        return;
      }
      request := Some(SkuPayload(ModelIdFrom(digits), color, material, weight, dimensions,
                                 inStock, ratePerUnit, units));
      if reply.Response? {
        alert := Classify(alert, reply.status, "Created successfully", "/stocks", Get(reply.body, "message"));
      }
    }
  }
}
