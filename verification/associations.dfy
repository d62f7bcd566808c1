/** Supplier associations of a product (`SupplierProductAdd` records) and the
    rules the create/edit product view applies to its two working lists: the
    active list and the list of associations queued for deactivation. */
module SupplierAssociations {

  /** A field of a JavaScript record: missing (`undefined`), explicitly `null`, or set. */
  datatype Nullable<+T> = Undefined | Null | Value(value: T)

  /** JavaScript truthiness of a numeric field: missing, `null` and `0` are falsy. */
  predicate IsTruthy(n: Nullable<int>) {
    n.Value? && n.value != 0
  }

  /** Reference data: a supplier as listed by the server. */
  datatype Supplier = Supplier(idSupplier: int, supplierName: string)

  /** The product as returned by the create/update call; only its identifier is read here. */
  datatype Product = Product(idProduct: Nullable<int>)

  /** One product-supplier association. */
  datatype SupplierProductAdd = SupplierProductAdd(
    idSupplier: int,
    supplierName: string,
    supplierProductKey: string,
    supplierCost: real,
    idProduct: Nullable<int>,
    idProductSupplier: Nullable<int>,
    productSupplierStatus: Nullable<bool>)

  /** The two working lists of the view. */
  datatype WorkingLists = WorkingLists(active: seq<SupplierProductAdd>, removed: seq<SupplierProductAdd>)

  // ---------------------------------------------------------------------------
  // Upper-casing (ASCII letters only)

  predicate IsLowerAscii(c: char) {
    'a' <= c <= 'z'
  }

  function UpperChar(c: char): (u: char)
    ensures !IsLowerAscii(u)
    ensures IsLowerAscii(c) ==> u as int == c as int - 32
    ensures !IsLowerAscii(c) ==> u == c
  {
    if IsLowerAscii(c) then (c as int - 32) as char else c
  }

  /** `toUpperCase` restricted to ASCII: every lower-case letter becomes its capital. */
  function Upper(s: string): (r: string)
    ensures |r| == |s|
    ensures forall i :: 0 <= i < |s| ==> r[i] == UpperChar(s[i])
    ensures forall i :: 0 <= i < |r| ==> !IsLowerAscii(r[i])
  {
    if s == [] then [] else [UpperChar(s[0])] + Upper(s[1..])
  }

  /** Upper-casing a key that is already upper case leaves it alone. */
  lemma UpperIdempotent(s: string)
    ensures Upper(Upper(s)) == Upper(s)
  {
    var u := Upper(s);
    assert forall i :: 0 <= i < |u| ==> UpperChar(u[i]) == u[i];
  }

  // ---------------------------------------------------------------------------
  // Look-ups by supplier identifier

  /** Some active entry carries supplier `id` (`Array.prototype.some`). */
  predicate HasSupplier(s: seq<SupplierProductAdd>, id: int) {
    exists i :: 0 <= i < |s| && s[i].idSupplier == id
  }

  /** The position of the first entry with supplier `id`, or -1 (`Array.prototype.findIndex`). */
  function IndexOfSupplier(s: seq<SupplierProductAdd>, id: int): (r: int)
    ensures -1 <= r < |s|
    ensures r == -1 <==> !HasSupplier(s, id)
    ensures 0 <= r ==> s[r].idSupplier == id
    ensures 0 <= r ==> forall j :: 0 <= j < r ==> s[j].idSupplier != id
  {
    if s == [] then -1
    else if s[0].idSupplier == id then 0
    else
      var k := IndexOfSupplier(s[1..], id);
      assert forall j :: 1 <= j < |s| ==> s[j] == s[1..][j - 1];
      if k == -1 then -1 else k + 1
  }

  /** The first listed supplier with identifier `id`, or `undefined` (`Array.prototype.find`). */
  function FindSupplier(suppliers: seq<Supplier>, id: int): (r: Nullable<Supplier>)
    ensures !r.Null?
    ensures r.Undefined? <==> forall j :: 0 <= j < |suppliers| ==> suppliers[j].idSupplier != id
    ensures r.Value? ==> r.value.idSupplier == id
    ensures r.Value? ==> exists i :: 0 <= i < |suppliers| && suppliers[i] == r.value
                                     && forall j :: 0 <= j < i ==> suppliers[j].idSupplier != id
  {
    if suppliers == [] then Undefined
    else if suppliers[0].idSupplier == id then Value(suppliers[0])
    else
      var r := FindSupplier(suppliers[1..], id);
      assert forall j :: 1 <= j < |suppliers| ==> suppliers[j] == suppliers[1..][j - 1];
      if r.Value? then
        assert exists i :: 0 <= i < |suppliers| && suppliers[i] == r.value
                           && forall j :: 0 <= j < i ==> suppliers[j].idSupplier != id by {
          var i' :| 0 <= i' < |suppliers[1..]| && suppliers[1..][i'] == r.value
                    && forall j :: 0 <= j < i' ==> suppliers[1..][j].idSupplier != id;
          assert suppliers[i' + 1] == r.value;
        }
        r
      else r
  }

  /** `findIndex` as a loop: the first position holding supplier `id`, or -1. */
  method FindIndex(s: seq<SupplierProductAdd>, id: int) returns (index: int)
    ensures index == IndexOfSupplier(s, id)
  {
    index := 0;
    while index < |s| && s[index].idSupplier != id
      invariant 0 <= index <= |s|
      invariant forall j :: 0 <= j < index ==> s[j].idSupplier != id
    {
      index := index + 1;
    }
    if index == |s| {
      index := -1;
    }
  }

  /** `some` as a loop: whether an entry carries supplier `id`. */
  method SomeSupplier(s: seq<SupplierProductAdd>, id: int) returns (found: bool)
    ensures found <==> HasSupplier(s, id)
  {
    var i := 0;
    while i < |s|
      invariant 0 <= i <= |s|
      invariant forall j :: 0 <= j < i ==> s[j].idSupplier != id
    {
      if s[i].idSupplier == id {
        return true;
      }
      i := i + 1;
    }
    return false;
  }

  /** `find` over the supplier reference list as a loop. */
  method FindSupplierById(suppliers: seq<Supplier>, id: int) returns (r: Nullable<Supplier>)
    ensures r == FindSupplier(suppliers, id)
  {
    var i := 0;
    while i < |suppliers|
      invariant 0 <= i <= |suppliers|
      invariant forall j :: 0 <= j < i ==> suppliers[j].idSupplier != id
    {
      if suppliers[i].idSupplier == id {
        return Value(suppliers[i]);
      }
      i := i + 1;
    }
    return Undefined;
  }

  // ---------------------------------------------------------------------------
  // Adding, removing and editing associations

  /** No two entries share a supplier identifier. */
  predicate DistinctSuppliers(s: seq<SupplierProductAdd>) {
    forall i, j :: 0 <= i < j < |s| ==> s[i].idSupplier != s[j].idSupplier
  }

  /** What the removed list holds: each supplier once, every entry persisted and deactivated. */
  predicate RemovedWellFormed(removed: seq<SupplierProductAdd>) {
    && DistinctSuppliers(removed)
    && forall i :: 0 <= i < |removed| ==>
         removed[i].productSupplierStatus == Value(false) && IsTruthy(removed[i].idProductSupplier)
  }

  /** Whether removing `entry` queues it for server-side deactivation. */
  predicate QueuesRemoval(removed: seq<SupplierProductAdd>, editMode: bool, entry: SupplierProductAdd) {
    editMode && !HasSupplier(removed, entry.idSupplier) && IsTruthy(entry.idProductSupplier)
  }

  /** The working lists after the user confirms removal of supplier `id`. */
  function RemoveSupplier(lists: WorkingLists, editMode: bool, id: int): WorkingLists {
    var i := IndexOfSupplier(lists.active, id);
    if i == -1 then lists
    else
      var entry := lists.active[i];
      var active := lists.active[..i] + lists.active[i + 1..];
      if QueuesRemoval(lists.removed, editMode, entry)
      then WorkingLists(active, lists.removed + [entry.(productSupplierStatus := Value(false))])
      else WorkingLists(active, lists.removed)
  }

  /** Removing a supplier absent from the active list changes neither list. */
  lemma RemoveNoMatchUnchanged(lists: WorkingLists, editMode: bool, id: int)
    requires forall j :: 0 <= j < |lists.active| ==> lists.active[j].idSupplier != id
    ensures RemoveSupplier(lists, editMode, id) == lists
  {
  }

  /** Removal deletes exactly the first active entry with supplier `id` and keeps the order of the rest. */
  lemma RemoveDeletesFirstMatch(lists: WorkingLists, editMode: bool, id: int)
    requires HasSupplier(lists.active, id)
    ensures var r := RemoveSupplier(lists, editMode, id);
      && |r.active| == |lists.active| - 1
      && exists i :: 0 <= i < |lists.active|
           && lists.active[i].idSupplier == id
           && (forall j :: 0 <= j < i ==> lists.active[j].idSupplier != id)
           && r.active == lists.active[..i] + lists.active[i + 1..]
  {
    var i := IndexOfSupplier(lists.active, id);
    assert lists.active[i].idSupplier == id;
  }

  /** The removed list grows, by the deactivated entry, exactly when the queueing conditions hold;
      otherwise it is left unchanged. */
  lemma RemoveQueuesExactlyWhen(lists: WorkingLists, editMode: bool, id: int)
    requires HasSupplier(lists.active, id)
    ensures var i := IndexOfSupplier(lists.active, id);
            var r := RemoveSupplier(lists, editMode, id);
      && (QueuesRemoval(lists.removed, editMode, lists.active[i]) ==>
            r.removed == lists.removed + [lists.active[i].(productSupplierStatus := Value(false))])
      && (!QueuesRemoval(lists.removed, editMode, lists.active[i]) ==> r.removed == lists.removed)
      && (|r.removed| == |lists.removed| + 1 <==> QueuesRemoval(lists.removed, editMode, lists.active[i]))
  {
  }

  /** In create mode, and for never-persisted entries, the removed list is left alone. */
  lemma RemoveCreateModeOrUnsavedKeepsRemoved(lists: WorkingLists, editMode: bool, id: int)
    requires !editMode || forall j :: 0 <= j < |lists.active| && lists.active[j].idSupplier == id
                                      ==> !IsTruthy(lists.active[j].idProductSupplier)
    ensures RemoveSupplier(lists, editMode, id).removed == lists.removed
  {
    var i := IndexOfSupplier(lists.active, id);
    if i != -1 {
      assert lists.active[i].idSupplier == id;
    }
  }

  /** A single removal keeps the removed list well formed. */
  lemma RemovePreservesWellFormed(lists: WorkingLists, editMode: bool, id: int)
    requires RemovedWellFormed(lists.removed)
    ensures RemovedWellFormed(RemoveSupplier(lists, editMode, id).removed)
  {
    var i := IndexOfSupplier(lists.active, id);
    if i != -1 && QueuesRemoval(lists.removed, editMode, lists.active[i]) {
      var entry := lists.active[i].(productSupplierStatus := Value(false));
      var removed := lists.removed + [entry];
      forall p, q | 0 <= p < q < |removed|
        ensures removed[p].idSupplier != removed[q].idSupplier
      {
        if q == |lists.removed| {
          assert removed[p] == lists.removed[p];
        }
      }
    }
  }

  /** The working lists after a series of confirmed removals, one supplier id after another. */
  function RemoveEach(lists: WorkingLists, editMode: bool, ids: seq<int>): WorkingLists
    decreases |ids|
  {
    if ids == [] then lists else RemoveEach(RemoveSupplier(lists, editMode, ids[0]), editMode, ids[1..])
  }

  /** Across any series of removals the removed list never holds a supplier twice. */
  lemma {:induction false} RemoveEachKeepsRemovedDistinct(lists: WorkingLists, editMode: bool, ids: seq<int>)
    requires RemovedWellFormed(lists.removed)
    ensures RemovedWellFormed(RemoveEach(lists, editMode, ids).removed)
    decreases |ids|
  {
    if ids != [] {
      RemovePreservesWellFormed(lists, editMode, ids[0]);
      RemoveEachKeepsRemovedDistinct(RemoveSupplier(lists, editMode, ids[0]), editMode, ids[1..]);
    }
  }

  /** Across any series of removals in create mode nothing is queued for deactivation. */
  lemma {:induction false} RemoveEachCreateModeQueuesNothing(lists: WorkingLists, ids: seq<int>)
    ensures RemoveEach(lists, false, ids).removed == lists.removed
    decreases |ids|
  {
    if ids != [] {
      RemoveCreateModeOrUnsavedKeepsRemoved(lists, false, ids[0]);
      RemoveEachCreateModeQueuesNothing(RemoveSupplier(lists, false, ids[0]), ids[1..]);
    }
  }

  /** How many of the removals in `ids` find their supplier in the active list at the time they run. */
  function RemovalHits(lists: WorkingLists, editMode: bool, ids: seq<int>): nat
    decreases |ids|
  {
    if ids == [] then 0
    else (if HasSupplier(lists.active, ids[0]) then 1 else 0)
         + RemovalHits(RemoveSupplier(lists, editMode, ids[0]), editMode, ids[1..])
  }

  /** Over a series of removals the active list shrinks by exactly one for each removal whose supplier
      is present when it runs, and by nothing for the others. */
  lemma {:induction false} RemoveEachActiveLength(lists: WorkingLists, editMode: bool, ids: seq<int>)
    ensures RemovalHits(lists, editMode, ids) <= |ids|
    ensures |RemoveEach(lists, editMode, ids).active| == |lists.active| - RemovalHits(lists, editMode, ids)
    decreases |ids|
  {
    if ids != [] {
      var next := RemoveSupplier(lists, editMode, ids[0]);
      if HasSupplier(lists.active, ids[0]) {
        RemoveDeletesFirstMatch(lists, editMode, ids[0]);
      } else {
        RemoveNoMatchUnchanged(lists, editMode, ids[0]);
      }
      RemoveEachActiveLength(next, editMode, ids[1..]);
    }
  }

  /** The active list after committing an edit of supplier `id`: key and cost of its first entry replaced. */
  function EditSupplier(active: seq<SupplierProductAdd>, id: int, productKey: string, cost: real)
    : seq<SupplierProductAdd>
    requires HasSupplier(active, id)
  {
    var i := IndexOfSupplier(active, id);
    active[i := active[i].(supplierProductKey := productKey, supplierCost := cost)]
  }

  /** Committing an edit changes only the key and cost of the first matching entry. */
  lemma EditChangesOnlyKeyAndCost(active: seq<SupplierProductAdd>, id: int, productKey: string, cost: real)
    requires HasSupplier(active, id)
    ensures var r := EditSupplier(active, id, productKey, cost);
            var i := IndexOfSupplier(active, id);
      && |r| == |active|
      && (forall j :: 0 <= j < |active| && j != i ==> r[j] == active[j])
      && r[i].supplierProductKey == productKey && r[i].supplierCost == cost
      && r[i].idSupplier == active[i].idSupplier == id
      && r[i].supplierName == active[i].supplierName
      && r[i].idProduct == active[i].idProduct
      && r[i].idProductSupplier == active[i].idProductSupplier
      && r[i].productSupplierStatus == active[i].productSupplierStatus
  {
  }

  // ---------------------------------------------------------------------------
  // The submission payload

  /** One entry as stamped for submission: tagged with the product; in create mode also reset to
      "new association, active". */
  function Stamp(a: SupplierProductAdd, editMode: bool, idProduct: Nullable<int>): (r: SupplierProductAdd)
    ensures r.idProduct == idProduct
    ensures r.idSupplier == a.idSupplier && r.supplierName == a.supplierName
    ensures r.supplierProductKey == a.supplierProductKey && r.supplierCost == a.supplierCost
    ensures editMode ==> r.idProductSupplier == a.idProductSupplier
                         && r.productSupplierStatus == a.productSupplierStatus
    ensures !editMode ==> r.idProductSupplier == Null && r.productSupplierStatus == Value(true)
  {
    if editMode then a.(idProduct := idProduct)
    else a.(idProduct := idProduct, idProductSupplier := Null, productSupplierStatus := Value(true))
  }

  /** Every entry of `s` stamped, in order. */
  function StampAll(s: seq<SupplierProductAdd>, editMode: bool, idProduct: Nullable<int>)
    : (r: seq<SupplierProductAdd>)
    ensures |r| == |s|
    ensures forall i :: 0 <= i < |s| ==> r[i] == Stamp(s[i], editMode, idProduct)
  {
    if s == [] then [] else [Stamp(s[0], editMode, idProduct)] + StampAll(s[1..], editMode, idProduct)
  }

  /** The working lists after stamping: the active list always, the removed list in edit mode only. */
  function Stamped(lists: WorkingLists, editMode: bool, idProduct: Nullable<int>): WorkingLists {
    if editMode
    then WorkingLists(StampAll(lists.active, true, idProduct), StampAll(lists.removed, true, idProduct))
    else WorkingLists(StampAll(lists.active, false, idProduct), lists.removed)
  }

  /** The list sent to the server: active then removed in edit mode, active alone in create mode. */
  function Payload(lists: WorkingLists, editMode: bool, idProduct: Nullable<int>): seq<SupplierProductAdd> {
    var stamped := Stamped(lists, editMode, idProduct);
    if editMode then stamped.active + stamped.removed else stamped.active
  }

  /** Create mode: one entry per active association, each tagged with the new product, with no
      association id and active status, and otherwise as the user entered it. */
  lemma PayloadCreateShape(lists: WorkingLists, idProduct: Nullable<int>)
    ensures var p := Payload(lists, false, idProduct);
      && |p| == |lists.active|
      && forall i :: 0 <= i < |p| ==>
           && p[i].idProduct == idProduct
           && p[i].idProductSupplier == Null
           && p[i].productSupplierStatus == Value(true)
           && p[i].idSupplier == lists.active[i].idSupplier
           && p[i].supplierProductKey == lists.active[i].supplierProductKey
           && p[i].supplierCost == lists.active[i].supplierCost
  {
  }

  /** Edit mode: the active entries then the removed ones, each tagged with the product and keeping its
      own association id and status. */
  lemma PayloadEditShape(lists: WorkingLists, idProduct: Nullable<int>)
    ensures var p := Payload(lists, true, idProduct);
            var all := lists.active + lists.removed;
      && |p| == |lists.active| + |lists.removed|
      && forall i :: 0 <= i < |p| ==>
           && p[i].idProduct == idProduct
           && p[i].idSupplier == all[i].idSupplier
           && p[i].idProductSupplier == all[i].idProductSupplier
           && p[i].productSupplierStatus == all[i].productSupplierStatus
           && p[i].supplierProductKey == all[i].supplierProductKey
           && p[i].supplierCost == all[i].supplierCost
  {
    var stamped := Stamped(lists, true, idProduct);
    var p := stamped.active + stamped.removed;
    var all := lists.active + lists.removed;
    forall i | 0 <= i < |p|
      ensures p[i] == Stamp(all[i], true, idProduct)
    {
      if i >= |lists.active| {
        assert all[i] == lists.removed[i - |lists.active|];
      }
    }
  }

  /** Stamping in edit mode keeps the removed list well formed. */
  lemma StampKeepsRemovedWellFormed(lists: WorkingLists, editMode: bool, idProduct: Nullable<int>)
    requires RemovedWellFormed(lists.removed)
    ensures RemovedWellFormed(Stamped(lists, editMode, idProduct).removed)
  {
  }
}
