# IBMS admin console, modelled in Dafny

This project models the logic layer of a React admin console for inventory,
stock (SKU) and billing management. It leaves out the markup and the HTTP
traffic. Each network call is an input to the model: either a response with
a status and a decoded body, or a transport failure (`Http.Reply`). What
remains is modelled in four groups.

- **The table screens** (Stocks, Inventory, Billing). They share one
  pipeline:
  - the descending/ascending comparator;
  - the index-tie-broken stable sort;
  - the case-insensitive any-field substring filter;
  - the page window and the filler-row count;
  - the sort-header toggle, the row-selection toggle and select-all;
  - the rows-per-page reset and the bulk-delete outcome.

  The pipeline is in modules `Sorting` and `TablePipeline`. One `TableView`
  class per screen holds the state. A `screen` constant carries the
  per-screen differences: the initial state, the list select-all reads,
  Billing's missing selection and its document viewer, and the Stocks
  shadow list `selectedForDelete`.
- **The forms**: `BillingCreate`, `InventoryCreate`, `SkuEditForm` and
  `SkuCreate`. Each is a class with:
  - per-field setters that leave the other fields alone;
  - validation in the form's own order, run before any request;
  - the payload it sends;
  - the classification of a response into the alert (title, message,
    navigation target) or into the error snackbar (module `Alerts`).
- **The detail panels**: the product drawer, the SKU dialog and the
  billing drawer. They share a `DetailPanel.Panel` lifecycle: fetch only
  while open, `loading` while a fetch is in flight, and the first element of
  the body as the record. On top of that:
  - the product drawer classifies SKU entries;
  - the SKU dialog has its title and in-stock label;
  - the billing drawer has the status control. PAID is terminal, PAID is
    offered only from PARTIAL, and an update changes only `status`.
- **Two small state machines**: the delete confirmation dialog's callback
  order, and the PDF pager, whose page stays within `[1, numPages]`.

Values read from JSON records are `Values.Value`: Null (also standing for
`undefined`), a boolean, an integer or a string. A record is a
`map<string, Value>`. The model treats JavaScript's behaviour explicitly in
these places:

- truthiness (`Truthy`);
- template-literal text (`Str`, `TemplateText`);
- `slice` and `substring` clamping;
- `indexOf` finding the first occurrence;
- `null` reading as 0 in the pager's `>=`.

How the model reads the code where it is not obvious:

- **Changing the search term does not reset the page.**
  `TableView.SetSearchTerm` changes only the term.
- **Select-all ignores the filter.** It selects every id of the unfiltered
  list: `data` on Stocks, `rows` on Inventory. The header checkbox counts
  the filtered list, so after a select-all under a filter it can show
  neither "checked" nor "indeterminate".
- **A Stocks checkbox click runs both handlers.** It runs `onClick`
  (`handleClick` on `selected`) and `onChange` (`handleCheckboxClick` on
  `selectedForDelete`).
- **List and panel fetches ignore the status.** Whatever body a response
  decodes to is stored.
- **The value order compares cross-type records by a fixed rank.**
  `Values.Less` is a strict total order: Null < booleans < numbers <
  strings, and inside each kind the natural order (strings
  lexicographically, character by character). It agrees with JavaScript's
  `<` and `>` on a column the records all lack, and on a column whose
  values all have the same kind, provided its strings only use characters
  of the Basic Multilingual Plane. On a column that mixes kinds,
  JavaScript's comparisons are not a consistent order, so that case uses
  the fixed rank; "## Left out" lists where the two differ.

## Model

| member | source | states |
|---|---|---|
| Values.Get | src/pages/stocks/Stocks.jsx:50-51 | `row[field]` is the stored value when the field is present and Null when it is absent |
| Values.LessIrreflexive | src/pages/stocks/Stocks.jsx:49-53 | no value is below itself, so the comparator sees every value as equal to itself |
| Values.LessTransitive | src/pages/stocks/Stocks.jsx:49-53 | the value order the comparator uses is transitive |
| Values.LessTotal | src/pages/stocks/Stocks.jsx:49-53 | of two different values, one is below the other |
| Values.LessAsymmetric | src/pages/stocks/Stocks.jsx:49-53 | two values are never each below the other |
| Values.StrLessTotal | src/pages/stocks/Stocks.jsx:49-53 | the lexicographic string order is total on different strings |
| Values.NatText | src/pages/stocks/Stocks.jsx:347 | a number's decimal text is non-empty, made of digits, "0" for zero and without a leading zero otherwise |
| Values.NatTextValue | src/pages/stocks/Stocks.jsx:347 | the decimal text of `n`, read digit by digit, denotes `n` |
| Values.NatTextInjective | src/pages/stocks/Stocks.jsx:347 | two naturals with the same decimal text are equal |
| Values.Lower | src/pages/stocks/Stocks.jsx:347 | `toLowerCase` keeps the length and lowers each character |
| Values.ContainsIffOccurs | src/pages/stocks/Stocks.jsx:347 | `includes` holds exactly when the term occurs at some position of the text |
| Values.ContainsEmpty | src/pages/stocks/Stocks.jsx:347 | every text includes the empty term |
| Sorting.DescendingComparator | src/pages/stocks/Stocks.jsx:49-53 | the result is -1, 0 or 1, and it is 0 exactly when the two records hold the same value at `orderBy` |
| Sorting.DescendingAntisymmetric | src/pages/stocks/Stocks.jsx:49-53 | swapping the records negates the result |
| Sorting.ApplyMeaning | src/pages/stocks/Stocks.jsx:55-59 | under Desc the larger key comes first and under Asc the smaller; the result is 0 exactly on equal keys |
| Sorting.AscendingNegatesDescending | src/pages/stocks/Stocks.jsx:55-59 | the ascending comparator is the negated descending one, and also the descending one with its arguments swapped |
| Sorting.RequestSort | src/pages/stocks/Stocks.jsx:214-218 | the clicked column becomes the sort column; it is descending exactly when it was already the column and ascending |
| Sorting.RequestSortAlternates | src/pages/stocks/Stocks.jsx:214-218 | clicking the same column again flips the direction, and a third click gives the state after the first |
| Sorting.BeforeIrreflexive | src/pages/stocks/Stocks.jsx:63-67 | the tie-broken pair order is irreflexive |
| Sorting.BeforeTransitive | src/pages/stocks/Stocks.jsx:63-67 | the tie-broken pair order is transitive |
| Sorting.BeforeTotal | src/pages/stocks/Stocks.jsx:63-67 | any two pairs with different indices are ordered one way or the other |
| Sorting.BeforeAsymmetric | src/pages/stocks/Stocks.jsx:63-67 | the tie-broken pair order is asymmetric |
| Sorting.Stabilize | src/pages/stocks/Stocks.jsx:62 | each element is paired with its index |
| Sorting.InsertMultiset | src/pages/stocks/Stocks.jsx:63-67 | inserting a pair into a sorted run adds exactly that pair |
| Sorting.InsertSorted | src/pages/stocks/Stocks.jsx:63-67 | inserting a pair with a fresh index keeps the run strictly sorted |
| Sorting.SortPairsCorrect | src/pages/stocks/Stocks.jsx:63-67 | the reference sort of pairs with distinct indices is strictly sorted and a permutation |
| Sorting.SortedUnique | src/pages/stocks/Stocks.jsx:63-67 | two strictly sorted arrangements of the same pairs are equal, so any correct sort gives the same result |
| Sorting.FstPreservesMultiset | src/pages/stocks/Stocks.jsx:68 | dropping the indices from two permutations of pairs gives two permutations of rows |
| Sorting.StabilizeDistinct | src/pages/stocks/Stocks.jsx:62 | the paired indices are distinct |
| Sorting.SortedPairsAreStabilized | src/pages/stocks/Stocks.jsx:62-67 | each sorted pair is an input row together with that row's own index |
| Sorting.StableSortIsPermutation | src/pages/stocks/Stocks.jsx:61-69 | the stable sort returns a permutation of its input |
| Sorting.StableSortIsOrdered | src/pages/stocks/Stocks.jsx:61-69 | the result has the input's length, and every earlier row compares at most 0 against every later row |
| Sorting.StableSortIsStable | src/pages/stocks/Stocks.jsx:61-69 | every output row is the input row at its origin, the origins are distinct, and rows whose keys compare equal keep their input order |
| Sorting.UnkeyedSortIsIdentity | src/pages/billing/Billing.jsx:132 | when no record carries the sort key (Billing's initial `productName`), rows stay in fetched order |
| Sorting.InsertPass | src/pages/stocks/Stocks.jsx:63-67 | one insertion pass over the array (which the engine's in-place sort stands for) keeps its multiset and its untouched suffix, and extends the sorted prefix by one |
| Sorting.StableSort | src/pages/stocks/Stocks.jsx:61-69 | the in-place sort of the `[el, index]` array returns exactly the reference stable sort |
| TablePipeline.Filter | src/pages/stocks/Stocks.jsx:344-349 | a record is kept exactly when some non-null field's lower-cased text contains the lower-cased term; no record is invented |
| TablePipeline.FilterAppend | src/pages/stocks/Stocks.jsx:344-349 | filtering distributes over concatenation, so the kept records stay in order |
| TablePipeline.FilterCounts | src/pages/stocks/Stocks.jsx:344-349 | each matching record is kept as often as it occurs, and each other record never |
| TablePipeline.FilterEmptyTerm | src/pages/stocks/Stocks.jsx:344-349 | an empty term keeps exactly the records with at least one non-null field |
| TablePipeline.FilterDropsNonMatching | src/pages/products/Inventory.jsx:335-340 | a list holding a non-matching record filters to something strictly shorter |
| TablePipeline.Slice | src/pages/stocks/Stocks.jsx:355-358 | `slice` clamps both ends to the length and copies the elements in between |
| TablePipeline.Window | src/pages/stocks/Stocks.jsx:353-360 | the page window holds `min(rpp, max(0, L - page*rpp))` rows, the k-th being row `page*rpp + k` |
| TablePipeline.EmptyRowsFillPage | src/pages/stocks/Stocks.jsx:351 | there is no filler on page 0; on a later page that starts inside the list, window plus filler is one full page |
| TablePipeline.EmptyRowsPastEnd | src/pages/stocks/Stocks.jsx:351 | a page that starts past the end shows no rows and more than a page of filler |
| TablePipeline.ViewShape | src/pages/stocks/Stocks.jsx:344-360 | the visible rows have the window length of the filtered list, and every one is a loaded record that matches the term |
| TablePipeline.IndexOf | src/pages/stocks/Stocks.jsx:235 | the result is -1 exactly when the id is absent, and otherwise the position of its first occurrence |
| TablePipeline.ToggleAbsentAppends | src/pages/stocks/Stocks.jsx:238-239 | toggling an absent id appends it |
| TablePipeline.TogglePresentRemovesFirst | src/pages/stocks/Stocks.jsx:240-248 | toggling a present id removes its first occurrence and keeps the rest in order, whichever of the three removal branches runs |
| TablePipeline.ToggleTwiceRestores | src/pages/stocks/Stocks.jsx:234-250 | toggling an absent id twice restores the list exactly |
| TablePipeline.ToggleKeepsNoDuplicates | src/pages/stocks/Stocks.jsx:234-250 | a toggle keeps a duplicate-free list duplicate-free, flips the id's membership and leaves every other id's membership alone |
| TablePipeline.SelectAllIds | src/pages/stocks/Stocks.jsx:220-227 | checked selects the id of every record of the source list, in order; unchecked selects nothing |
| TablePipeline.HeaderStatesExclusive | src/pages/stocks/Stocks.jsx:83-84 | the header checkbox is never both checked and indeterminate |
| TablePipeline.SelectAllUnderFilterShowsNeither | src/pages/stocks/Stocks.jsx:220-227 | after select-all, when the filter hides a record, the header is neither checked nor indeterminate |
| TableView.Initial | src/pages/stocks/Stocks.jsx:182-198 | a screen starts ascending on page 0 with nothing selected or searched, sorted by `modelId` with 10 rows on Stocks and by `productName` with 5 rows elsewhere |
| TableView.TableView.constructor | src/pages/products/Inventory.jsx:173-182 | the class starts in the screen's initial state |
| TableView.TableView.ComputeVisibleRows | src/pages/stocks/Stocks.jsx:353-360 | filtering, the in-place stable sort and the window give exactly the reference view, of the window length |
| TableView.TableView.BillingSelectsNothing | src/pages/billing/Billing.jsx:133 | on Billing no row is ever marked selected |
| TableView.TableView.FetchSettled | src/pages/products/Inventory.jsx:201-210 | a response's body becomes `data` (and `rows` where the screen has it) whatever the status; a failure changes nothing |
| TableView.TableView.RequestSortClick | src/pages/billing/Billing.jsx:189-193 | the sort state becomes `RequestSort` of the old one, and nothing else changes |
| TableView.TableView.SetSearchTerm | src/pages/stocks/Stocks.jsx:151 | only the search term changes; the page stays |
| TableView.TableView.ChangePage | src/pages/stocks/Stocks.jsx:270-272 | only the page changes |
| TableView.TableView.ChangeRowsPerPage | src/pages/products/Inventory.jsx:278-281 | the new page size, page 0, and nothing else |
| TableView.TableView.SelectAllClick | src/pages/products/Inventory.jsx:246-253 | the selection becomes `SelectAllIds` of the unfiltered list and nothing else changes |
| TableView.TableView.RowCheckboxClick | src/pages/stocks/Stocks.jsx:291-310 | the id is toggled in `selected`, and on Stocks also in `selectedForDelete`; nothing else changes |
| TableView.TableView.RequestDelete | src/pages/stocks/Stocks.jsx:312-314 | only the confirmation dialog opens |
| TableView.TableView.ConfirmDelete | src/pages/stocks/Stocks.jsx:316-324 | the request body is `selected`, never the shadow list |
| TableView.TableView.DeleteSettled | src/pages/stocks/Stocks.jsx:325-340 | a 2xx response clears the selection, closes the dialog and re-fetches; anything else changes nothing |
| TableView.TableView.CloseDeleteDialog | src/components/DeleteDialog.jsx:13-19 | only the dialog's open flag is cleared |
| TableView.TableView.ViewDoc | src/pages/billing/Billing.jsx:215-220 | `pdfPath` becomes the row's `docPath` and the viewer opens |
| TableView.TableView.ClosePdfViewer | src/pages/billing/Billing.jsx:222-224 | only the open flag is cleared |
| DeleteDialog.HandleConfirm | src/components/DeleteDialog.jsx:21-24 | Delete calls `onConfirm` then `onClose`, once each; the request carries the selection and the dialog closes |
| DeleteDialog.HandleClose | src/components/DeleteDialog.jsx:13-19 | on the Stocks and Inventory screens, Cancel calls only `onClose`, which clears only `confirmDelete` |
| Alerts.Titled | src/pages/products/InventoryCreate.jsx:115-122 | a 201 sets the success title and target; another 2xx keeps both; a non-2xx sets "Error" and keeps the target |
| Alerts.Classify | src/pages/products/InventoryCreate.jsx:115-124 | the title and target as above, then the message is set and the alert opens in every case |
| Alerts.ClassifyRoutesOnlyOnCreated | src/pages/stocks/SKUCreate.jsx:71-80 | the alert routes to a new target exactly when the status is 201 |
| Alerts.ShowError | src/pages/products/InventoryCreate.jsx:58-66 | the snackbar opens with the given message |
| Alerts.CloseSnackbar | src/pages/products/InventoryCreate.jsx:68-73 | a click-away leaves the snackbar as it is; any other reason closes it |
| BillingCreate.TotalAppend | src/pages/billing/BillingCreate.jsx:113 | the total of a list with one more line is the old total plus that line's amount |
| BillingCreate.BlankAmountIsZero | src/pages/billing/BillingCreate.jsx:97 | a blank line contributes nothing |
| BillingCreate.TotalUpdate | src/pages/billing/BillingCreate.jsx:105-114 | replacing one line moves the total by the difference of the two lines' amounts |
| BillingCreate.Edited | src/pages/billing/BillingCreate.jsx:107 | a field change writes that field of the line and keeps the other two; a product change keeps the line's amount, and a rate or units change makes the amount the new factor times the kept one |
| BillingCreate.ProductEditKeepsTotal | src/pages/billing/BillingCreate.jsx:105-114 | choosing a line's product leaves the total unchanged |
| BillingCreate.BillingCreate.constructor | src/pages/billing/BillingCreate.jsx:21-49 | no particulars, total 0, status PENDING, empty name, contact and address, e-mail off |
| BillingCreate.BillingCreate.SetBillName | src/pages/billing/BillingCreate.jsx:152 | only the bill name changes and the total stays the sum of the lines |
| BillingCreate.BillingCreate.SetContactNo | src/pages/billing/BillingCreate.jsx:160 | only the contact number changes |
| BillingCreate.BillingCreate.ToggleEmail | src/pages/billing/BillingCreate.jsx:67-69 | the e-mail checkbox flips and nothing else changes |
| BillingCreate.BillingCreate.SetEmailAddress | src/pages/billing/BillingCreate.jsx:182 | only the e-mail address changes |
| BillingCreate.BillingCreate.SetAddressField | src/pages/billing/BillingCreate.jsx:199-268 | only that address field changes; City is excluded because its input is disabled, and only the postal lookup, which is not modelled, writes it |
| BillingCreate.BillingCreate.ZipcodeChange | src/pages/billing/BillingCreate.jsx:71-75 | the zipcode is stored, and the postal lookup is requested exactly when it has six characters |
| BillingCreate.BillingCreate.AddParticular | src/pages/billing/BillingCreate.jsx:94-99 | exactly one blank line is appended, the other lines stay, and the total remains their sum |
| BillingCreate.BillingCreate.ChangeParticular | src/pages/billing/BillingCreate.jsx:105-115 | only that field of that line changes, and the total moves by the change in the line's amount, so it stays the sum |
| BillingCreate.BillingCreate.SetStatus | src/pages/billing/BillingCreate.jsx:323-331 | only the status changes, to one of PENDING, PARTIAL and PAID |
| BillingCreate.BillingCreate.Submit | src/pages/billing/BillingCreate.jsx:117-136 | no validation; the payload carries the address and status from their own state, the e-mail only when the checkbox is on, and a total equal to the sum of the lines; it navigates to `/billing` only on a 2xx response |
| InventoryCreate.SkuLines | src/pages/products/InventoryCreate.jsx:83-86 | one line per selected SKU, in selection order, with its `modelId` and its units entry or 0 |
| InventoryCreate.AnyNonPositive | src/pages/products/InventoryCreate.jsx:88 | holds exactly when some line has units at most 0 |
| InventoryCreate.ValidationError | src/pages/products/InventoryCreate.jsx:78-91 | the required-fields message exactly when name, category or type is empty or print-required is off (so "No" always fails); otherwise the units message exactly when some line has units at most 0; otherwise none |
| InventoryCreate.UnenteredUnitsFail | src/pages/products/InventoryCreate.jsx:83-91 | a selected SKU whose units were never entered fails the units check |
| InventoryCreate.DeselectedUnitsIgnored | src/pages/products/InventoryCreate.jsx:134-139 | units entered for a model id that is not selected do not change the posted lines |
| InventoryCreate.InventoryCreate.constructor | src/pages/products/InventoryCreate.jsx:23-38 | empty fields, print-required off, no SKUs or units, alert and snackbar closed |
| InventoryCreate.InventoryCreate.SkuListSettled | src/pages/products/InventoryCreate.jsx:40-52 | a response's body becomes the SKU options; a failure changes nothing |
| InventoryCreate.InventoryCreate.SetProductName | src/pages/products/InventoryCreate.jsx:166 | only the product name changes |
| InventoryCreate.InventoryCreate.SetCategory | src/pages/products/InventoryCreate.jsx:176 | only the category changes |
| InventoryCreate.InventoryCreate.SetProductDescription | src/pages/products/InventoryCreate.jsx:187 | only the description changes |
| InventoryCreate.InventoryCreate.SetProductType | src/pages/products/InventoryCreate.jsx:197 | only the type changes |
| InventoryCreate.InventoryCreate.SetPrintRequired | src/pages/products/InventoryCreate.jsx:205-207 | print-required becomes whether the selector's value is "true" |
| InventoryCreate.InventoryCreate.SetPrintDetails | src/pages/products/InventoryCreate.jsx:217 | only the print details change |
| InventoryCreate.InventoryCreate.SelectSkus | src/pages/products/InventoryCreate.jsx:130-132 | the selection becomes the picker's value; the units entries stay |
| InventoryCreate.InventoryCreate.UnitChange | src/pages/products/InventoryCreate.jsx:134-139 | only that model id's units entry is set |
| InventoryCreate.InventoryCreate.SnackbarClose | src/pages/products/InventoryCreate.jsx:68-73 | the snackbar closes unless the reason is a click-away |
| InventoryCreate.InventoryCreate.Submit | src/pages/products/InventoryCreate.jsx:75-128 | a failed validation shows its message and sends nothing; otherwise the product is posted with its SKU lines; a response is classified with "Created successfully" and `/inventory`; a transport failure shows "Problem Saving Data" |
| SkuEditForm.FieldChanged | src/pages/stocks/SKUEditForm.jsx:85-91 | both branches set the one field and keep every other field |
| SkuEditForm.RevertRestoresData | src/pages/stocks/SKUEditForm.jsx:85-93 | writing a field's previous value back restores the working copy |
| SkuEditForm.MissingRequired | src/pages/stocks/SKUEditForm.jsx:99 | holds exactly when one of color, material, dimensions, ratePerUnit and units is falsy |
| SkuEditForm.ZeroRateOrUnitsIsMissing | src/pages/stocks/SKUEditForm.jsx:99 | a rate of 0 or units of 0 count as missing |
| SkuEditForm.Payload | src/pages/stocks/SKUEditForm.jsx:104-112 | the body holds exactly those of the seven editable fields the working copy has, with its values |
| SkuEditForm.PayloadIgnoresOtherFields | src/pages/stocks/SKUEditForm.jsx:104-112 | a change to any other field, `_id` included, leaves the body unchanged |
| SkuEditForm.UpdatedMessage | src/pages/stocks/SKUEditForm.jsx:132 | the message is "Updated for Model " followed by the model id's text |
| SkuEditForm.SkuEditForm.constructor | src/pages/stocks/SKUEditForm.jsx:27-36 | both copies empty, not edited, alert and snackbar closed |
| SkuEditForm.SkuEditForm.LoadSettled | src/pages/stocks/SKUEditForm.jsx:38-59 | a non-empty body's first element seeds both copies, whatever the status; otherwise nothing changes |
| SkuEditForm.SkuEditForm.FieldChange | src/pages/stocks/SKUEditForm.jsx:85-93 | one field of the working copy changes, the initial copy stays, and the form is marked edited |
| SkuEditForm.SkuEditForm.SnackbarClose | src/pages/stocks/SKUEditForm.jsx:67-72 | the snackbar closes unless the reason is a click-away |
| SkuEditForm.SkuEditForm.PressSave | src/pages/stocks/SKUEditForm.jsx:97-137 | only when edited; a missing field shows the required message and sends nothing; otherwise the payload is put; 201 gives "Updated successfully" and `/stocks`; the message comes from the body's first element; an empty body or a failure shows "Problem Saving Data"; the copies and the edited flag stay |
| SkuCreate.Base36Digit | src/pages/stocks/SKUCreate.jsx:31 | a digit below 10 is written 0-9 and the others a-z |
| SkuCreate.RandomText | src/pages/stocks/SKUCreate.jsx:31 | the base-36 text is "0" for a zero draw, and otherwise "0." followed by the fraction digits |
| SkuCreate.Substring | src/pages/stocks/SKUCreate.jsx:31 | `substring` clamps both ends and copies the characters in between |
| SkuCreate.UpperChar | src/pages/stocks/SKUCreate.jsx:31 | upper-casing maps a-z to A-Z and leaves digits alone |
| SkuCreate.ModelIdFrom | src/pages/stocks/SKUCreate.jsx:30-32 | the generated id has `min(6, digits)` characters, each from 0-9 or A-Z, the k-th being the k-th fraction digit upper-cased |
| SkuCreate.SkuCreate.constructor | src/pages/stocks/SKUCreate.jsx:14-27 | all texts empty, in stock, no error, alert closed |
| SkuCreate.SkuCreate.SetField | src/pages/stocks/SKUCreate.jsx:112-158 | only that text field changes |
| SkuCreate.SkuCreate.SetInStock | src/pages/stocks/SKUCreate.jsx:164 | only the in-stock flag changes |
| SkuCreate.SkuCreate.Submit | src/pages/stocks/SKUCreate.jsx:38-84 | an empty required text sets the error and sends nothing; otherwise all seven fields are posted under a generated id; a response is classified with "Created successfully" and `/stocks`; a failure changes nothing; an error once set stays |
| DetailPanel.Panel.constructor | src/pages/products/InventoryViewModal.jsx:11-33 | the first render fetches, with `loading` set, exactly when the panel is open |
| DetailPanel.Panel.SetProps | src/pages/stocks/StocksViewDialog.jsx:29-46 | a fetch for the new id starts, with `loading` set, exactly when the panel is open and `open` or the id changed |
| DetailPanel.Panel.Settle | src/pages/billing/BillingDrawer.jsx:20-32 | a response's first element becomes the record, or none for an empty list; a failure keeps the record; `loading` is cleared in every case |
| DetailPanel.Panel.Shown | src/pages/products/InventoryViewModal.jsx:56-59 | a spinner exactly while loading, the details exactly when loaded with a record |
| InventoryViewModal.BeforeColon | src/pages/products/InventoryViewModal.jsx:88 | `split(":")[0]` is the longest colon-free prefix, stopping at the first colon |
| InventoryViewModal.ItemFor | src/pages/products/InventoryViewModal.jsx:81-110 | a string entry is shown as is and opens its text before the first colon; an object entry opens its `modelId`; a boolean or a number renders nothing; a null has no item |
| InventoryViewModal.ObjectLabel | src/pages/products/InventoryViewModal.jsx:104 | an object entry whose `modelId` is a string and whose `units` is a number is labelled "modelId: units", whatever other fields it has |
| InventoryViewModal.TextEntryOpensModel | src/pages/products/InventoryViewModal.jsx:88 | a string entry "id:rest" with a colon-free id opens the dialog for that id |
| InventoryViewModal.Items | src/pages/products/InventoryViewModal.jsx:81-110 | at most one item per entry |
| InventoryViewModal.ItemsAppend | src/pages/products/InventoryViewModal.jsx:81-110 | the list of two runs of entries is the first run's items followed by the second's, so items keep entry order |
| InventoryViewModal.ItemsSingle | src/pages/products/InventoryViewModal.jsx:81-110 | a single entry lists its own item, or nothing when it is not a string or an object |
| InventoryViewModal.ItemsOfRenderable | src/pages/products/InventoryViewModal.jsx:81-110 | with only string and object entries, item `k` is exactly the item of entry `k` |
| InventoryViewModal.ItemsOfScalars | src/pages/products/InventoryViewModal.jsx:106-108 | boolean and number entries list nothing |
| InventoryViewModal.RenderedItems | src/pages/products/InventoryViewModal.jsx:81-110 | the drawer's list fails to render exactly when some entry is a JSON null, which takes the object branch and throws at the label; otherwise it is `Items` of the entries |
| InventoryViewModal.PrintRequiredLabel | src/pages/products/InventoryViewModal.jsx:114 | "Yes" exactly when `printRequired` is truthy, and "No" otherwise |
| InventoryViewModal.NoUpdatedAtWhenAbsent | src/pages/products/InventoryViewModal.jsx:122-126 | a product without `updatedAt` shows no "Updated At" line |
| InventoryViewModal.InventoryViewModal.constructor | src/pages/products/InventoryViewModal.jsx:10-14 | the nested SKU dialog starts closed |
| InventoryViewModal.InventoryViewModal.ClickSku | src/pages/products/InventoryViewModal.jsx:35-38 | clicking an item of the shown product's rendered list opens the dialog on that item's model id |
| StocksViewDialog.Title | src/pages/stocks/StocksViewDialog.jsx:52 | the title ends with the `modelId` prop, whatever the load state |
| StocksViewDialog.InStockLabel | src/pages/stocks/StocksViewDialog.jsx:69-70 | "Yes" exactly when `inStock` is truthy, and "No" otherwise |
| StocksViewDialog.MissingInStockIsNo | src/pages/stocks/StocksViewDialog.jsx:70 | a SKU without `inStock` shows "No" |
| BillingDrawer.StatusOptions | src/pages/billing/BillingDrawer.jsx:138-141 | PENDING and PARTIAL are always offered, and PAID exactly when the bill is PARTIAL |
| BillingDrawer.BillingDrawer.constructor | src/pages/billing/BillingDrawer.jsx:12-18 | the selector starts at "" and no update is running |
| BillingDrawer.BillingDrawer.PaidIsTerminal | src/pages/billing/BillingDrawer.jsx:126-127 | a PAID bill shows no selector and no Update button |
| BillingDrawer.BillingDrawer.ChangeStatus | src/pages/billing/BillingDrawer.jsx:44-46 | the selector takes an offered value |
| BillingDrawer.BillingDrawer.PressUpdate | src/pages/billing/BillingDrawer.jsx:48-51 | `updating` is set, and the request names the bill's `billingId` and carries the selector's value |
| BillingDrawer.BillingDrawer.UpdateSettled | src/pages/billing/BillingDrawer.jsx:52-78 | a 2xx response sets the sent bill's status to the sent value; anything else keeps the record; `updating` is cleared in every case |
| BillingDrawer.UpdateChangesOnlyStatus | src/pages/billing/BillingDrawer.jsx:70 | the updated record differs from the old one only in `status` |
| PdfViewer.PdfViewer.constructor | src/pages/billing/PDFViewer.jsx:9-10 | page 1 with no page count |
| PdfViewer.PdfViewer.NothingEnabledBeforeLoad | src/pages/billing/PDFViewer.jsx:23-24 | before the document loads, Previous and Next are both disabled, because null reads as 0 |
| PdfViewer.PdfViewer.LoadSuccess | src/pages/billing/PDFViewer.jsx:12-15 | the count is recorded, the pager returns to page 1, and the page stays in range |
| PdfViewer.PdfViewer.PressPrevious | src/pages/billing/PDFViewer.jsx:23 | an enabled Previous steps back one page and stays at 1 or above |
| PdfViewer.PdfViewer.PressNext | src/pages/billing/PDFViewer.jsx:24 | an enabled Next steps forward one page and stays at most `numPages` |
| PdfViewer.CountText | src/pages/billing/PDFViewer.jsx:22 | `{numPages}` renders nothing while the count is null, and otherwise the decimal digits that denote the count |
| PdfViewer.PdfViewer.Label | src/pages/billing/PDFViewer.jsx:22 | "Page ", then digits denoting the page number, then " of ", then the count's text |
| PdfViewer.PdfViewer.LabelBeforeLoad | src/pages/billing/PDFViewer.jsx:9-22 | before the document loads the label reads "Page 1 of " |
| PdfViewer.SinglePageDisablesBoth | src/pages/billing/PDFViewer.jsx:23-24 | a one-page document leaves both buttons disabled |

## Left out

- HTTP itself is not modelled: URLs, headers, JSON encoding and the backend. Each request is reduced to the state change its outcome causes. A response whose body does not parse as JSON is treated as a transport failure, since both land in the same `catch`.
- The postal lookup for a six-character zipcode is not modelled: its request, and its overwrite of city and state using the stale address. Only the trigger condition is kept.
- React scheduling is not modelled: effect timing, render batching, stale closures, and responses to a superseded or closed panel arriving late. Each panel and form has at most one request in flight, and settles are applied in order.
- JavaScript coercion beyond booleans, integers and strings is not modelled: `toString` of nested objects and arrays, string-to-number arithmetic, `NaN`, floating point, and JSON bodies that are not arrays where an array is read. Rate and units are integers.
- Object keys are not coerced: `units[modelId]` is keyed by the model id value itself, so a numeric id and its string form are different keys.
- Unicode lower-casing is not modelled. `Lower` maps only A-Z.
- Date and time-zone formatting is not modelled: `convertToIST`, `toLocaleString` and the "Created At"/"Updated At" texts.
- Rendering is not modelled: MUI styling, the dense-padding switch, row heights, the react-pdf document and its worker.
- Navigation is not modelled: Cancel buttons, Create and Edit buttons, and the alert dialog's own navigation when it closes. The forms record the target that is handed to it.
- Opening a detail panel from a table row (`handleClickOpen`, `drawerOpen`, `selectedProductId`, `selectedBillingId`) is not modelled. It only sets two fields that are then handed to the panel as props.
- Some state is written but never read, and is not modelled: the `emailAddress`, `billAddress` and `status` fields of BillingCreate's `billingData`, and SKUEditForm's per-field states (`color`, `material`, …).
- The `loading` flags of the forms are not modelled: the BillingCreate product list fetch and the spinner around submit.
- Input `maxLength` limits are not modelled. They are enforced by the browser, not by the handlers.
- The static markup, routing and theme code are not part of this model: Login, Routes, Sidebar, Layout, Dashboard and main. Neither are the components that are imported but not shown: AlertDialog, ThemeToggle, InventoryUpdate and Register.
- SkuCreate.ModelIdFrom: the random number is given by its base-36 fraction digits, each in 0..35. The model does not say which digit strings `Math.random` can actually produce.
- StocksViewDialog.Title: the title is the visible text with its whitespace collapsed. It is not the raw JSX text, which has spaces around the id.
- Values.Less: strings are compared by Unicode code points, while JavaScript compares UTF-16 code units, so a character beyond the Basic Multilingual Plane (such as an emoji) sorts after "～" here and before it in JavaScript. Across kinds the fixed rank replaces JavaScript's coercions: a JSON null among numbers is ranked below them rather than read as 0, and a record lacking the sort column is ranked below the records that have it, while JavaScript's `undefined` compares neither above nor below anything (src/pages/stocks/Stocks.jsx:49-53) and so reads as equal to every value.
- Sorting.StableSort: the engine's `Array.prototype.sort` is modelled as an insertion sort. Any correct sort gives the same result, because the tie-broken order is strict and total (`Sorting.SortedUnique`).
