/**
 * The SKU dialog: the shared detail-panel lifecycle over one SKU record,
 * with a title made from the `modelId` prop and an in-stock flag shown as
 * Yes or No.
 */
module StocksViewDialog {
  import opened Values
  import opened DetailPanel

  /** The dialog title, taken from the prop whatever the load state. */
  function Title(modelId: string): (t: string)
    ensures |t| > |modelId| && t[|t| - |modelId|..] == modelId
  {
    "Details for Model " + modelId
  }

  /** `data.inStock ? 'Yes' : 'No'`. */
  function InStockLabel(sku: Row): (s: string)
    ensures s == "Yes" <==> Truthy(Get(sku, "inStock"))
    ensures s == "Yes" || s == "No"
  {
    if Truthy(Get(sku, "inStock")) then "Yes" else "No"
  }

  /** A SKU without an `inStock` field shows "No". */
  lemma MissingInStockIsNo(sku: Row)
    requires "inStock" !in sku
    ensures InStockLabel(sku) == "No"
  {
  }
}
