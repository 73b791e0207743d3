/**
 * The fetch lifecycle the three detail panels share (the product drawer,
 * the SKU dialog and the billing drawer): whenever the `open` prop or the
 * id prop changes and the panel is open, a request for that id starts with
 * `loading` set; when it settles, a decoded list's first element becomes
 * the record, and `loading` is cleared whatever the outcome.
 */
module DetailPanel {
  import opened Values
  import opened Http

  /** What the panel body shows. */
  datatype Body<T> = Spinner | Empty | Details(record: T)

  class Panel<T> {
    /** The `open` prop. */
    var open: bool
    /** The id prop (`productId`, `modelId` or `billingId`). */
    var key: string
    /** The fetched record; None before any load (`null`) or after an empty list (`undefined`). */
    var record: Option<T>
    /** Set while a request is in flight. */
    var loading: bool

    /** The first render with the initial props; its effect fetches when the panel is open. */
    constructor (open0: bool, key0: string)
      ensures open == open0 && key == key0 && record == None && loading == open0
    {
      open := open0;
      key := key0;
      record := None;
      loading := open0;
    }

    /**
     * A render with new props. The effect re-runs only when `open` or the
     * id changed, and it fetches only when the panel is open; the request
     * asks for the new id.
     */
    method SetProps(open1: bool, key1: string) returns (request: Option<string>)
      modifies this
      ensures open == open1 && key == key1 && record == old(record)
      ensures request.Some? <==> open1 && (open1 != old(open) || key1 != old(key))
      ensures request.Some? ==> request.value == key1 && loading
      ensures request.None? ==> loading == old(loading)
    {
      var changed := open1 != open || key1 != key;
      open, key := open1, key1;
      request := None;
      if changed && open1 {
        loading := true;
        request := Some(key1);
      }
    }

    /**
     * The request settles. A response's decoded list gives its first
     * element (its status is not looked at); a failure keeps the previous
     * record. `loading` is cleared in every case.
     */
    method Settle(reply: Reply<seq<T>>)
      requires loading
      modifies this
      ensures !loading && open == old(open) && key == old(key)
      ensures reply.Response? && |reply.body| > 0 ==> record == Some(reply.body[0])
      ensures reply.Response? && |reply.body| == 0 ==> record == None
      ensures reply.TransportFailure? ==> record == old(record)
    {
      if reply.Response? {
        record := if |reply.body| > 0 then Some(reply.body[0]) else None;
      }
      loading := false;
    }

    /** A spinner while loading, the record's details once there is one, nothing otherwise. */
    function Shown(): (b: Body<T>)
      reads this
      ensures b.Spinner? <==> loading
      ensures b.Details? <==> !loading && record.Some?
      ensures b.Details? ==> b.record == record.value
    {
      if loading then Spinner
      else match record
        case None => Empty
        case Some(r) => Details(r)
    }
  }
}
