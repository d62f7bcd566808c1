/** The create/edit product view: its two working lists of supplier associations,
    the supplier sub-form and the actions the user triggers on them. */
module AddEditProducts {
  import opened SupplierAssociations

  /** The supplier sub-form: the selected supplier, the supplier's product key, the cost,
      and whether the supplier selector is enabled. */
  datatype SupplierForm = SupplierForm(
    supplier: Nullable<Supplier>,
    productKey: Nullable<string>,
    cost: Nullable<real>,
    supplierEnabled: bool)

  /** A freshly built or reset form: every control `null`, the selector enabled. */
  const EmptySupplierForm := SupplierForm(Null, Null, Null, true)

  const SaveText := "Guardar"
  const EditText := "Editar"

  /** `part` occurs in `s` starting at position `i`. */
  predicate OccursAt(s: string, part: string, i: nat) {
    i + |part| <= |s| && s[i..i + |part|] == part
  }

  /** `String.prototype.includes`. */
  predicate Includes(s: string, part: string) {
    exists i: nat :: i <= |s| && OccursAt(s, part, i)
  }

  class AddEditProductsComponent {
    var listSupplier: seq<Supplier>
    var listSupplierProduct: seq<SupplierProductAdd>
    var listSupplierProductRemoved: seq<SupplierProductAdd>
    var selectedSupplierId: int
    var isEditionSupplier: bool
    var buttonProcessText: string
    var formSupplier: SupplierForm
    /** The route the view was built for. */
    ghost const routeUrl: string

    /** The view edits an existing product (rather than creating one). */
    function IsEditPage(): (editing: bool)
      reads this
      requires Valid()
      ensures editing <==> Includes(routeUrl, "editProduct")
    {
      buttonProcessText == EditText
    }

    function Lists(): WorkingLists
      reads this
    {
      WorkingLists(listSupplierProduct, listSupplierProductRemoved)
    }

    /** The button text records whether the route is an edit route; the removed list holds each
        supplier once, only persisted and deactivated entries, and stays empty when creating a product. */
    ghost predicate Valid()
      reads this
    {
      && buttonProcessText == (if Includes(routeUrl, "editProduct") then EditText else SaveText)
      && RemovedWellFormed(listSupplierProductRemoved)
      && (buttonProcessText != EditText ==> listSupplierProductRemoved == [])
    }

    /** Builds the view for the route `routeUrl`; the edit mode is fixed here for the
        lifetime of the view. */
    constructor (routeUrl: string)
      ensures Valid()
      ensures IsEditPage() <==> Includes(routeUrl, "editProduct")
      ensures buttonProcessText == (if Includes(routeUrl, "editProduct") then EditText else SaveText)
      ensures listSupplier == [] && listSupplierProduct == [] && listSupplierProductRemoved == []
      ensures selectedSupplierId == 0 && !isEditionSupplier
      ensures formSupplier == EmptySupplierForm
    {
      this.routeUrl := routeUrl;
      listSupplier := [];
      listSupplierProduct := [];
      listSupplierProductRemoved := [];
      selectedSupplierId := 0;
      isEditionSupplier := false;
      buttonProcessText := SaveText;
      formSupplier := EmptySupplierForm;
      if Includes(routeUrl, "editProduct") {
        buttonProcessText := EditText;
      }
    }

    /** The supplier list arrives from the server. */
    method ReceiveSuppliers(ok: bool, result: seq<Supplier>)
      requires Valid()
      modifies this`listSupplier
      ensures Valid()
      ensures listSupplier == if ok then result else old(listSupplier)
    {
      if ok {
        listSupplier := result;
      }
    }

    /** The product's existing associations arrive from the server and replace the active list. */
    method ReceiveSupplierProducts(ok: bool, result: seq<SupplierProductAdd>)
      requires Valid()
      modifies this`listSupplierProduct
      ensures Valid()
      ensures listSupplierProduct == if ok then result else old(listSupplierProduct)
    {
      if ok {
        listSupplierProduct := result;
      }
    }

    /** Appends one association built from the sub-form values, then resets the sub-form. */
    method AddSupplierToProduct(supplier: Supplier, productKey: string, cost: real)
      requires Valid()
      modifies this`listSupplierProduct, this`formSupplier, this`isEditionSupplier
      ensures Valid()
      ensures |listSupplierProduct| == |old(listSupplierProduct)| + 1
      ensures listSupplierProduct[..|old(listSupplierProduct)|] == old(listSupplierProduct)
      ensures var added := listSupplierProduct[|old(listSupplierProduct)|];
        && added.idSupplier == supplier.idSupplier
        && added.supplierName == supplier.supplierName
        && added.supplierProductKey == Upper(productKey)
        && added.supplierCost == cost
        && added.idProduct.Undefined?
        && added.idProductSupplier.Undefined?
        && added.productSupplierStatus.Undefined?
      ensures formSupplier == EmptySupplierForm && !isEditionSupplier
    {
      var key := Upper(productKey);
      listSupplierProduct := listSupplierProduct + [
        SupplierProductAdd(supplier.idSupplier, supplier.supplierName, key, cost,
                           Undefined, Undefined, Undefined)];
      ResetSupplierProductForm();
    }

    /** Clears the sub-form, re-enables the supplier selector and leaves edition. */
    method ResetSupplierProductForm()
      requires Valid()
      modifies this`formSupplier, this`isEditionSupplier
      ensures Valid()
      ensures formSupplier == EmptySupplierForm && !isEditionSupplier
    {
      formSupplier := EmptySupplierForm;
      isEditionSupplier := false;
    }

    /** Confirmed removal of `selectedItem`'s supplier from the active list, queueing the entry for
        deactivation when editing a product and the entry was persisted and is not queued yet. */
    method RemoveSupplierProduct(selectedItem: SupplierProductAdd)
      requires Valid()
      modifies this`listSupplierProduct, this`listSupplierProductRemoved
      ensures Valid()
      ensures Lists() == RemoveSupplier(old(Lists()), IsEditPage(), selectedItem.idSupplier)
    {
      ghost var before := Lists();
      var editing := IsEditPage();
      var index := FindIndex(listSupplierProduct, selectedItem.idSupplier);
      if index != -1 {
        var supplierRemoved := listSupplierProduct[index];
        listSupplierProduct := listSupplierProduct[..index] + listSupplierProduct[index + 1..];
        if editing {
          var alreadyQueued := SomeSupplier(listSupplierProductRemoved, supplierRemoved.idSupplier);
          if !alreadyQueued && IsTruthy(supplierRemoved.idProductSupplier) {
            supplierRemoved := supplierRemoved.(productSupplierStatus := Value(false));
            listSupplierProductRemoved := listSupplierProductRemoved + [supplierRemoved];
          }
        }
      }
      RemovePreservesWellFormed(before, editing, selectedItem.idSupplier);
    }

    /** Starts editing `selectedItem`: remembers its supplier, loads its values into the sub-form
        and locks the supplier selector. */
    method LoadSupplierProductToEdit(selectedItem: SupplierProductAdd)
      requires Valid()
      modifies this`selectedSupplierId, this`formSupplier, this`isEditionSupplier
      ensures Valid()
      ensures selectedSupplierId == selectedItem.idSupplier
      ensures formSupplier == SupplierForm(FindSupplier(listSupplier, selectedItem.idSupplier),
                                           Value(selectedItem.supplierProductKey),
                                           Value(selectedItem.supplierCost),
                                           false)
      ensures isEditionSupplier
    {
      var supplierSelected := FindSupplierById(listSupplier, selectedItem.idSupplier);
      selectedSupplierId := selectedItem.idSupplier;
      formSupplier := SupplierForm(supplierSelected, Value(selectedItem.supplierProductKey),
                                   Value(selectedItem.supplierCost), false);
      isEditionSupplier := true;
    }

    /** Confirmed commit of the edition: the first active entry of the remembered supplier gets the
        upper-cased key and the cost. When no entry has that supplier, the source's dereference throws
        before anything is written: `found` is false and nothing changes. */
    method EditSupplierProductToEdit(productKey: string, cost: real) returns (found: bool)
      requires Valid()
      modifies this`listSupplierProduct, this`isEditionSupplier
      ensures Valid()
      ensures found <==> HasSupplier(old(listSupplierProduct), selectedSupplierId)
      ensures found ==> listSupplierProduct == EditSupplier(old(listSupplierProduct), selectedSupplierId,
                                                            Upper(productKey), cost)
      ensures found ==> !isEditionSupplier
      ensures !found ==> listSupplierProduct == old(listSupplierProduct)
                         && isEditionSupplier == old(isEditionSupplier)
    {
      var key := Upper(productKey);
      var index := FindIndex(listSupplierProduct, selectedSupplierId);
      found := index != -1;
      if found {
        var supplierProduct := listSupplierProduct[index];
        supplierProduct := supplierProduct.(supplierCost := cost, supplierProductKey := key);
        listSupplierProduct := listSupplierProduct[index := supplierProduct];
        isEditionSupplier := false;
      }
    }

    /** Stamps the working entries with the saved product and returns the list to submit: in create
        mode the active entries reset to new and active, in edit mode the active then the removed
        entries, each keeping its own association id and status. */
    method SetupListSupplierProduct(product: Product) returns (payload: seq<SupplierProductAdd>)
      requires Valid()
      modifies this`listSupplierProduct, this`listSupplierProductRemoved
      ensures Valid()
      ensures Lists() == Stamped(old(Lists()), IsEditPage(), product.idProduct)
      ensures payload == Payload(old(Lists()), IsEditPage(), product.idProduct)
    {
      ghost var before := Lists();
      var editing := IsEditPage();
      var i := 0;
      while i < |listSupplierProduct|
        invariant 0 <= i <= |listSupplierProduct| == |before.active|
        invariant forall j :: 0 <= j < i ==> listSupplierProduct[j] == Stamp(before.active[j], editing, product.idProduct)
        invariant forall j :: i <= j < |listSupplierProduct| ==> listSupplierProduct[j] == before.active[j]
        invariant listSupplierProductRemoved == before.removed
      {
        listSupplierProduct := listSupplierProduct[i := Stamp(listSupplierProduct[i], editing, product.idProduct)];
        i := i + 1;
      }
      if editing {
        i := 0;
        while i < |listSupplierProductRemoved|
          invariant 0 <= i <= |listSupplierProductRemoved| == |before.removed|
          invariant forall j :: 0 <= j < i ==> listSupplierProductRemoved[j] == Stamp(before.removed[j], true, product.idProduct)
          invariant forall j :: i <= j < |listSupplierProductRemoved| ==> listSupplierProductRemoved[j] == before.removed[j]
          invariant listSupplierProduct == StampAll(before.active, true, product.idProduct)
        {
          listSupplierProductRemoved := listSupplierProductRemoved[i := Stamp(listSupplierProductRemoved[i], true, product.idProduct)];
          i := i + 1;
        }
        payload := listSupplierProduct + listSupplierProductRemoved;
      } else {
        payload := listSupplierProduct;
      }
      StampKeepsRemovedWellFormed(before, editing, product.idProduct);
    }
  }
}
