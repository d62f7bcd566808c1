# Supplier associations of the product create/edit view

This project models the supplier-association bookkeeping of the product create/edit
view (`AddEditProductsComponent`) of an inventory front end. It is written in Dafny.

The view keeps two working lists of `SupplierProductAdd` records:

- the active list (`listSupplierProduct`): the associations that are part of the product;
- the removed list (`listSupplierProductRemoved`): persisted associations the user detached
  while editing, queued to be sent to the server with status `false`.

It also remembers the supplier being edited (`selectedSuplierProductId` in the source,
`selectedSupplierId` here) and whether an edition is in progress (`isEditionSupplier`).
The view is in edit mode when `buttonProcessText` is `"Editar"` (the `isEditPage` getter,
`IsEditPage` here). That text is set once, when the view is built on an `editProduct` route.

Layout:

- `associations.dfy`, module `SupplierAssociations`, holds:
  - the records;
  - the specification functions of removal (`RemoveSupplier`), edition (`EditSupplier`)
    and payload stamping (`Stamp`, `StampAll`, `Stamped`, `Payload`);
  - the loops that stand for `findIndex`, `some` and `find`;
  - the lemmas about all of these.
- `add_edit_products.dfy`, module `AddEditProducts`, holds the class
  `AddEditProductsComponent`. Its fields are the view's state. Each method is one user action
  or server callback. Each either is proved against the specification functions or states its
  new state directly. Its object invariant `Valid()` says that `buttonProcessText` records
  whether the view's route includes `editProduct`, and three things about the removed list:
  - no supplier appears twice;
  - every entry is persisted (a truthy `idProductSupplier`) and deactivated;
  - it stays empty in create mode.
- `scenarios.dfy`, module `Scenarios`, drives two sessions through the class contracts. One
  creates a product with two suppliers. The other edits a product and removes a persisted
  supplier twice.

Modelling choices:

- An association is a value: a `datatype`. The source writes fields of list elements in
  place. Those writes are modelled as replacing the element in the `seq` field.
  - The lines concerned are add-edit-products.component.ts:183, 216-217 and 396-413.
  - This loses nothing, because the two lists never share an element. A removed entry is
    spliced out of the active list before it is queued. The active list only ever receives
    fresh literals (line 152) or a whole new list from the server (line 130).
  - The payload that `setupListSupplierProduct` returns is made of the working entries
    themselves. Accordingly, `SetupListSupplierProduct` rewrites both fields and returns
    exactly their new contents.
- Record fields that JavaScript leaves `undefined` or sets to `null` use
  `Nullable<T> = Undefined | Null | Value(v)`. The test `if (supplierRemoved.idProductSupplier)`
  is JavaScript truthiness: `IsTruthy`, which is false for a missing, `null` or `0` identifier.
- Upper-casing (`toUpperCase`) is `Upper`, which maps ASCII only.
- Each confirmation dialog is modelled by its confirmed branch.
- Form-control values read by an action become the method's parameters. The supplier sub-form
  that the actions write is the field `formSupplier`.
- Where the source dereferences a `find` result with `!`, the model takes the error path
  instead of a precondition. In `editSupplierProductToEdit`, a missing entry makes the
  dereference throw before any write. `EditSupplierProductToEdit` returns `found == false`
  and changes nothing in that case.
- Three behaviours of the code are easy to miss, and the model keeps them:
  - Removal queues an entry for deactivation only in edit mode (line 181).
  - "Begin edit" takes the selected row as given. It looks the supplier up in the supplier
    reference list, not in the active list (lines 196-201).
  - In edit mode, associations added during the session keep an `undefined` status in the
    payload (lines 395-400); nothing marks them active.

## Model

| member | source | states |
|---|---|---|
| SupplierAssociations.Upper | src/app/pages/add-edit-products/add-edit-products.component.ts:149 | The upper-cased key has the input's length, upper-cases each ASCII letter in place and contains no lower-case ASCII letter |
| SupplierAssociations.UpperIdempotent | src/app/pages/add-edit-products/add-edit-products.component.ts:213 | Upper-casing an already upper-cased key leaves it unchanged |
| SupplierAssociations.IndexOfSupplier | src/app/pages/add-edit-products/add-edit-products.component.ts:176 | The result is -1 exactly when no entry has the supplier; otherwise it is the position of the first entry that has it |
| SupplierAssociations.FindIndex | src/app/pages/add-edit-products/add-edit-products.component.ts:176 | The `findIndex` loop returns the first matching position, or -1 |
| SupplierAssociations.SomeSupplier | src/app/pages/add-edit-products/add-edit-products.component.ts:181 | The `some` loop answers true exactly when some removed entry has the supplier |
| SupplierAssociations.FindSupplier | src/app/pages/add-edit-products/add-edit-products.component.ts:196 | The result is `undefined` exactly when no listed supplier has the id; otherwise it is the first listed supplier with that id |
| SupplierAssociations.FindSupplierById | src/app/pages/add-edit-products/add-edit-products.component.ts:196 | The `find` loop over the supplier list returns that first match, or `undefined` |
| SupplierAssociations.RemoveNoMatchUnchanged | src/app/pages/add-edit-products/add-edit-products.component.ts:176-177 | If no active entry has the supplier, removal leaves both lists unchanged |
| SupplierAssociations.RemoveDeletesFirstMatch | src/app/pages/add-edit-products/add-edit-products.component.ts:176-179 | Removal deletes exactly the first matching active entry: the active list is one shorter and equals the entries before it followed by the entries after it, in order |
| SupplierAssociations.RemoveQueuesExactlyWhen | src/app/pages/add-edit-products/add-edit-products.component.ts:181-185 | The removed list gains the deleted entry, with status `false`, exactly when three hold: edit mode, no removed entry has that supplier, and the entry has a truthy association id. Otherwise the removed list is unchanged |
| SupplierAssociations.RemoveCreateModeOrUnsavedKeepsRemoved | src/app/pages/add-edit-products/add-edit-products.component.ts:181-182 | In create mode, or when the matching entry was never persisted, the removed list is left alone |
| SupplierAssociations.RemovePreservesWellFormed | src/app/pages/add-edit-products/add-edit-products.component.ts:181-184 | One removal keeps the removed list free of duplicate suppliers, persisted and deactivated |
| SupplierAssociations.RemoveEachKeepsRemovedDistinct | src/app/pages/add-edit-products/add-edit-products.component.ts:181-184 | Across any series of removals, the removed list never holds a supplier twice |
| SupplierAssociations.RemoveEachCreateModeQueuesNothing | src/app/pages/add-edit-products/add-edit-products.component.ts:181 | Across any series of removals in create mode, nothing is queued for deactivation |
| SupplierAssociations.RemoveEachActiveLength | src/app/pages/add-edit-products/add-edit-products.component.ts:176-179 | Over a series of removals, the active list shrinks by exactly one for each removal whose supplier is present when it runs (`RemovalHits`), and by nothing for the others; so by at most the number of removals |
| SupplierAssociations.EditChangesOnlyKeyAndCost | src/app/pages/add-edit-products/add-edit-products.component.ts:215-217 | Committing an edit changes only the key and cost of the first entry with the remembered supplier. Length, the other entries and that entry's other fields are unchanged |
| SupplierAssociations.Stamp | src/app/pages/add-edit-products/add-edit-products.component.ts:396-413 | A stamped entry carries the product id and keeps supplier, name, key and cost. In edit mode it keeps its own association id and status; in create mode the id becomes `null` and the status `true` |
| SupplierAssociations.StampAll | src/app/pages/add-edit-products/add-edit-products.component.ts:395-415 | Stamping a list keeps its length and stamps each entry in place |
| SupplierAssociations.PayloadCreateShape | src/app/pages/add-edit-products/add-edit-products.component.ts:408-416 | Create-mode payload: one entry per active association. Each carries the product id, a `null` association id and status `true`, with supplier, key and cost as entered |
| SupplierAssociations.PayloadEditShape | src/app/pages/add-edit-products/add-edit-products.component.ts:393-407 | Edit-mode payload: active then removed, of length their sum. Each entry carries the product id and keeps its own association id, status, supplier, key and cost |
| SupplierAssociations.StampKeepsRemovedWellFormed | src/app/pages/add-edit-products/add-edit-products.component.ts:401-406 | Stamping keeps the removed list free of duplicates, persisted and deactivated |
| AddEditProducts.AddEditProductsComponent.IsEditPage | src/app/pages/add-edit-products/add-edit-products.component.ts:93-95 | Edit mode (`buttonProcessText` being `"Editar"`) holds exactly when the route the view was built for includes `editProduct` |
| AddEditProducts.AddEditProductsComponent.constructor | src/app/pages/add-edit-products/add-edit-products.component.ts:280-282 | The view is in edit mode (`isEditPage`) exactly when the route includes `editProduct`. Both lists start empty, nothing is being edited, and the sub-form is empty with the selector enabled |
| AddEditProducts.AddEditProductsComponent.ReceiveSuppliers | src/app/pages/add-edit-products/add-edit-products.component.ts:115-118 | A successful supplier fetch replaces the supplier reference list; a failed one leaves it |
| AddEditProducts.AddEditProductsComponent.ReceiveSupplierProducts | src/app/pages/add-edit-products/add-edit-products.component.ts:127-130 | A successful association fetch replaces the active list; the removed list and its invariant are untouched |
| AddEditProducts.AddEditProductsComponent.AddSupplierToProduct | src/app/pages/add-edit-products/add-edit-products.component.ts:143-160 | Appends exactly one record at the end, with earlier entries unchanged and no duplicate check. The record has the supplier's id and name, the upper-cased key and the cost, and no product, association id or status. Then the sub-form is reset |
| AddEditProducts.AddEditProductsComponent.ResetSupplierProductForm | src/app/pages/add-edit-products/add-edit-products.component.ts:162-166 | The sub-form is cleared to `null`, the supplier selector is enabled, and edition ends |
| AddEditProducts.AddEditProductsComponent.RemoveSupplierProduct | src/app/pages/add-edit-products/add-edit-products.component.ts:168-193 | The new lists are `RemoveSupplier` of the old ones, for the view's mode and the item's supplier. The removed-list invariant is kept |
| AddEditProducts.AddEditProductsComponent.LoadSupplierProductToEdit | src/app/pages/add-edit-products/add-edit-products.component.ts:195-203 | Remembers the item's supplier id and sets edition on. The sub-form gets the first matching reference supplier (or `undefined`), the item's key and cost, and a locked selector |
| AddEditProducts.AddEditProductsComponent.EditSupplierProductToEdit | src/app/pages/add-edit-products/add-edit-products.component.ts:205-221 | If an active entry has the remembered supplier, the new list is `EditSupplier` with the upper-cased key and the cost, and edition ends. Otherwise nothing changes (the source throws) |
| AddEditProducts.AddEditProductsComponent.SetupListSupplierProduct | src/app/pages/add-edit-products/add-edit-products.component.ts:391-420 | The working lists become their stamped versions (the removed list only in edit mode). The returned payload is exactly the stamped active list, followed in edit mode by the stamped removed list |
| Scenarios.CreateWithTwoSuppliers | src/app/pages/add-edit-products/add-edit-products.component.ts:408-416 | Create mode with suppliers A (cost 10) and B (cost 20): two payload entries, both tagged with the new product id, with a `null` association id and status `true` |
| Scenarios.EditRemovingPersistedSupplier | src/app/pages/add-edit-products/add-edit-products.component.ts:176-185 | Edit mode, one persisted association, removed twice: the payload is exactly that one entry, with its supplier, name, key and cost, its association id, status `false` and the product id |

## Left out

- The HTTP service (src/app/services/products.service.ts) is not part of this model. Each of its methods is a single remote call.
- The product listing view (src/app/pages/products/products.component.ts), the header title (src/app/components/header/header.component.ts) and the route table (src/app/app-routing.module.ts) are not part of this model. They are fetch wrappers, UI glue and framework configuration.
- `saveProduct`, `editProduct`, `getAllTypesProduct` and the product fetch of `setEditDataProduct` are left out. They are asynchronous flows over the remote API, with dialogs and navigation. Only the route test that sets the edit mode is modelled, in the constructor.
- ReceiveSuppliers and ReceiveSupplierProducts stand for the success callbacks of two fetches. They model them as plain state replacements, and the model does not capture when those callbacks fire.
- ReceiveSupplierProducts takes records that are already flattened. The copying of `idProduct`, `idSupplier` and `supplierName` out of the nested `product` and `supplier` objects (lines 130-135) is not modelled.
- SweetAlert confirmation dialogs are left out. Each dialog-guarded action is modelled by its confirmed branch; a cancelled dialog changes nothing.
- The product form (`formProduct`), `listTypeProduct`, `idProductToEdit`, `cancel` and router navigation are left out. They play no part in the association lists.
- AddSupplierToProduct takes non-null form values. The source throws a `TypeError` there when the supplier or the key control is `null` (lines 148-149), and stores a `null` cost as is; those cases are not modelled.
- EditSupplierProductToEdit takes non-null form values. The source reads only the key and cost controls there, and throws a `TypeError` only when the key is `null` (line 213); a `null` cost is stored as is. Those cases are not modelled.
- Upper: maps ASCII letters only. JavaScript's `toUpperCase` also maps other Unicode letters, some to several characters.
- Identifiers are unbounded integers and costs are reals. JavaScript numbers are doubles, so NaN identifiers (falsy) and rounding are not modelled. Costs are only copied, never computed.
- The source compares supplier ids with `===` in `findIndex` and with `==` elsewhere. On numbers these agree, and both are modelled as integer equality.
- Element identity is not modelled, since the model works on values; the argument that no element is shared between the lists is given above.
