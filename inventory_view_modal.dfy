/**
 * The product drawer: the shared detail-panel lifecycle over a product
 * record, the list of the product's SKU entries (which come either as
 * "modelId:..." strings or as objects), and the nested SKU dialog those
 * entries open.
 */
module InventoryViewModal {
  import opened Values
  import opened DetailPanel

  /**
   * One element of a product's `SKU` array, by its JavaScript type. A JSON
   * `null` is one of its own: `typeof null` is 'object', so it takes the
   * object branch, whose label then throws.
   */
  datatype SkuEntry = SkuText(s: string) | SkuObject(fields: Row) | SkuNull | SkuBool(b: bool) | SkuNumber(n: int)

  /** The entries the `map` callback returns `null` for. */
  predicate IsScalar(e: SkuEntry) {
    e.SkuBool? || e.SkuNumber?
  }

  /** A fetched product: its scalar fields and its `SKU` array. */
  datatype Product = Product(fields: Row, sku: seq<SkuEntry>)

  /** A rendered SKU list item: its text and the model id a click opens. */
  datatype SkuItem = SkuItem(text: string, opens: Value)

  /** `s.split(":")[0]`: the text before the first colon, or all of it. */
  function BeforeColon(s: string): (r: string)
    ensures |r| <= |s| && s[..|r|] == r
    ensures ':' !in r
    ensures |r| < |s| ==> s[|r|] == ':'
  {
    if s == [] || s[0] == ':' then []
    else [s[0]] + BeforeColon(s[1..])
  }

  /**
   * The `SKU.map` callback: string and object entries become items; a
   * boolean or a number renders nothing. A null has no item either, since
   * the callback throws on it (see `RenderedItems`).
   */
  function ItemFor(entry: SkuEntry): (item: Option<SkuItem>)
    ensures entry.SkuText? ==> item == Some(SkuItem(entry.s, Text(BeforeColon(entry.s))))
    ensures entry.SkuObject? ==> item.Some? && item.value.opens == Get(entry.fields, "modelId")
    ensures item.None? <==> IsScalar(entry) || entry.SkuNull?
  {
    match entry
    case SkuText(s) => Some(SkuItem(s, Text(BeforeColon(s))))
    case SkuObject(f) => Some(SkuItem(TemplateText(f, "modelId") + ": " + TemplateText(f, "units"), Get(f, "modelId")))
    case SkuNull => None
    case SkuBool(_) => None
    case SkuNumber(_) => None
  }

  /** An object entry is labelled "modelId: units", whatever other fields it carries. */
  lemma ObjectLabel(f: Row, modelId: string, units: int)
    requires Get(f, "modelId") == Text(modelId) && Get(f, "units") == Num(units)
    ensures ItemFor(SkuObject(f)).value.text == modelId + ": " + Str(Num(units))
  {
  }

  /** A string entry opens the dialog for the model id before its first colon. */
  lemma {:induction false} TextEntryOpensModel(modelId: string, rest: string)
    requires ':' !in modelId
    ensures BeforeColon(modelId + ":" + rest) == modelId
    ensures ItemFor(SkuText(modelId + ":" + rest)).value.opens == Text(modelId)
    decreases |modelId|
  {
    if modelId != [] {
      TextEntryOpensModel(modelId[1..], rest);
      assert (modelId + ":" + rest)[1..] == modelId[1..] + ":" + rest;
    }
  }

  /**
   * The items the drawer lists: the item of each string or object entry,
   * in entry order; any other entry contributes nothing.
   */
  function Items(entries: seq<SkuEntry>): (items: seq<SkuItem>)
    ensures |items| <= |entries|
  {
    if entries == [] then []
    else match ItemFor(entries[0])
      case Some(item) => [item] + Items(entries[1..])
      case None => Items(entries[1..])
  }

  /** The list of a concatenation is the concatenation of the lists. */
  lemma {:induction false} ItemsAppend(a: seq<SkuEntry>, b: seq<SkuEntry>)
    ensures Items(a + b) == Items(a) + Items(b)
    decreases |a|
  {
    if a == [] {
      assert a + b == b;
    } else {
      assert (a + b)[0] == a[0] && (a + b)[1..] == a[1..] + b;
      ItemsAppend(a[1..], b);
    }
  }

  /** With only string and object entries, the list holds exactly the item of each entry, in entry order. */
  lemma {:induction false} ItemsOfRenderable(entries: seq<SkuEntry>)
    requires forall k :: 0 <= k < |entries| ==> entries[k].SkuText? || entries[k].SkuObject?
    ensures |Items(entries)| == |entries|
    ensures forall k :: 0 <= k < |entries| ==> Some(Items(entries)[k]) == ItemFor(entries[k])
    decreases |entries|
  {
    if entries != [] {
      ItemsOfRenderable(entries[1..]);
      var items := Items(entries);
      assert items == [ItemFor(entries[0]).value] + Items(entries[1..]);
      forall k | 0 <= k < |entries|
        ensures Some(items[k]) == ItemFor(entries[k])
      {
        if k > 0 {
          assert items[k] == Items(entries[1..])[k - 1] && entries[k] == entries[1..][k - 1];
        }
      }
    }
  }

  /** Boolean and number entries list nothing. */
  lemma {:induction false} ItemsOfScalars(entries: seq<SkuEntry>)
    requires forall k :: 0 <= k < |entries| ==> IsScalar(entries[k])
    ensures Items(entries) == []
    decreases |entries|
  {
    if entries != [] {
      ItemsOfScalars(entries[1..]);
    }
  }

  /** A single entry lists its own item, or nothing when it is not a string or an object. */
  lemma ItemsSingle(e: SkuEntry)
    ensures Items([e]) == (if ItemFor(e).Some? then [ItemFor(e).value] else [])
  {
    assert [e][1..] == [];
  }

  /**
   * The rendered list, or None when rendering throws: the template
   * `${sku.modelId}` reads a field of every entry that takes the object
   * branch, and on a null entry that throws, so the drawer does not render.
   */
  function RenderedItems(entries: seq<SkuEntry>): (r: Option<seq<SkuItem>>)
    ensures r.None? <==> exists k :: 0 <= k < |entries| && entries[k].SkuNull?
    ensures r.Some? ==> r.value == Items(entries)
  {
    if entries == [] then Some([])
    else if entries[0].SkuNull? then None
    else match RenderedItems(entries[1..])
      case None => None
      case Some(rest) => Some((if ItemFor(entries[0]).Some? then [ItemFor(entries[0]).value] else []) + rest)
  }

  /** `printRequired ? 'Yes' : 'No'`. */
  function PrintRequiredLabel(p: Product): (s: string)
    ensures s == "Yes" <==> Truthy(Get(p.fields, "printRequired"))
    ensures s == "Yes" || s == "No"
  {
    if Truthy(Get(p.fields, "printRequired")) then "Yes" else "No"
  }

  /** The "Updated At" line appears only for a product with a truthy `updatedAt`. */
  predicate ShowsUpdatedAt(p: Product) {
    Truthy(Get(p.fields, "updatedAt"))
  }

  lemma NoUpdatedAtWhenAbsent(p: Product)
    requires "updatedAt" !in p.fields
    ensures !ShowsUpdatedAt(p)
  {
  }

  class InventoryViewModal {
    const panel: Panel<Product>
    /** The nested SKU dialog's open flag and model id. */
    var openDialog: bool
    var selectedModelId: Value

    constructor (open0: bool, productId: string)
      ensures fresh(panel) && panel.open == open0 && panel.key == productId
      ensures panel.record == None && panel.loading == open0
      ensures !openDialog && selectedModelId == Text("")
    {
      panel := new Panel(open0, productId);
      openDialog := false;
      selectedModelId := Text("");
    }

    /**
     * `handleClickOpen` from a rendered SKU item: the drawer shows the
     * product, its list rendered, and `entry` is one of its string or object
     * entries. The dialog opens on that item's model.
     */
    method ClickSku(entry: SkuEntry)
      requires panel.Shown().Details? && entry in panel.Shown().record.sku
      requires RenderedItems(panel.Shown().record.sku).Some?
      requires ItemFor(entry).Some?
      modifies this
      ensures openDialog && selectedModelId == ItemFor(entry).value.opens
    {
      var item := ItemFor(entry);
      selectedModelId := item.value.opens;
      openDialog := true;
    }
  }
}
