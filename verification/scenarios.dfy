/** Two sessions of the create/edit view, driven through the component's contracts alone. */
module Scenarios {
  import opened SupplierAssociations
  import opened AddEditProducts

  /** Create a product with suppliers A (cost 10) and B (cost 20): the bulk-add payload has two
      entries, both tagged with the new product id, with a null association id and active status. */
  method CreateWithTwoSuppliers(newProductId: int) returns (payload: seq<SupplierProductAdd>)
    ensures |payload| == 2
    ensures payload[0].idSupplier == 1 && payload[0].supplierCost == 10.0
    ensures payload[1].idSupplier == 2 && payload[1].supplierCost == 20.0
    ensures forall i :: 0 <= i < 2 ==> payload[i].idProduct == Value(newProductId)
                                       && payload[i].idProductSupplier == Null
                                       && payload[i].productSupplierStatus == Value(true)
  {
    var view := new AddEditProductsComponent("/addProduct");
    forall i: nat
      ensures !OccursAt("/addProduct", "editProduct", i)
    {
      if i == 0 {
        assert "/addProduct"[0..11][0] == '/';
      }
    }
    view.AddSupplierToProduct(Supplier(1, "A"), "sku-a", 10.0);
    view.AddSupplierToProduct(Supplier(2, "B"), "sku-b", 20.0);
    payload := view.SetupListSupplierProduct(Product(Value(newProductId)));
  }

  /** Edit a product with one persisted association (supplier A, association 5) and remove it: the
      active list is empty, the removed list holds that entry deactivated, and the bulk-update
      payload is exactly that one entry. */
  method EditRemovingPersistedSupplier(productId: int) returns (payload: seq<SupplierProductAdd>)
    ensures payload == [SupplierProductAdd(1, "A", "SKU-A", 10.0, Value(productId), Value(5), Value(false))]
  {
    var view := new AddEditProductsComponent("/editProduct/7");
    assert OccursAt("/editProduct/7", "editProduct", 1);
    var persisted := SupplierProductAdd(1, "A", "SKU-A", 10.0, Value(productId), Value(5), Value(true));
    view.ReceiveSupplierProducts(true, [persisted]);
    view.RemoveSupplierProduct(persisted);
    assert view.listSupplierProduct == [];
    assert view.listSupplierProductRemoved == [persisted.(productSupplierStatus := Value(false))];
    // Removing it again queues nothing more.
    view.RemoveSupplierProduct(persisted);
    assert |view.listSupplierProductRemoved| == 1;
    payload := view.SetupListSupplierProduct(Product(Value(productId)));
  }
}
