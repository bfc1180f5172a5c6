/** The inventory table: the product dropdown built from the fetched rows,
    the filter it applies, row deletion, and the edit dialog. */
module InventoryList {
  import opened Common

  /** `inventoryData.map((item) => item.product.productName)`. */
  function ProductNames(items: seq<InventoryItem>): (r: seq<string>)
    ensures |r| == |items|
    ensures forall n :: n in r <==> exists i :: 0 <= i < |items| && items[i].product.productName == n
  {
    var r := seq(|items|, i requires 0 <= i < |items| => items[i].product.productName);
    forall n | n in r
      ensures exists i :: 0 <= i < |items| && items[i].product.productName == n
    {
      var i :| 0 <= i < |r| && r[i] == n;
    }
    forall i | 0 <= i < |items|
      ensures items[i].product.productName in r
    {
      assert r[i] == items[i].product.productName;
    }
    r
  }

  /** `[...new Set(names)]`: the dropdown's options. */
  function UniqueProducts(items: seq<InventoryItem>): (r: seq<string>)
    ensures Distinct(r)
    ensures forall n :: n in r <==> exists i :: 0 <= i < |items| && items[i].product.productName == n
  {
    var names := ProductNames(items);
    var r := Dedup(names);
    forall n | n in r
      ensures n in names
    {
      var i :| 0 <= i < |r| && r[i] == n;
    }
    forall n | n in names
      ensures n in r
    {
      var i :| 0 <= i < |names| && names[i] == n;
    }
    r
  }

  /** `item => !selectedProduct || item.product.productName === selectedProduct`. */
  function ShowFilter(selected: string): InventoryItem -> bool
  {
    (item: InventoryItem) => selected == "" || item.product.productName == selected
  }

  /** The rows the table shows for the dropdown's selection. */
  function Displayed(items: seq<InventoryItem>, selected: string): (r: seq<InventoryItem>)
    ensures selected == "" ==> r == items
    ensures selected != "" ==> forall x :: x in r <==> x in items && x.product.productName == selected
  {
    if selected == "" then
      FilterKeepsAll(items, ShowFilter(selected));
      Filter(items, ShowFilter(selected))
    else
      var r := Filter(items, ShowFilter(selected));
      FilterMembers(items, ShowFilter(selected));
      assert forall x :: x in r ==> exists i :: 0 <= i < |r| && r[i] == x;
      assert forall x :: x in items ==> exists i :: 0 <= i < |items| && items[i] == x;
      r
  }

  /** The table keeps the rows' order: filtering splits over concatenation. */
  lemma DisplayedKeepsOrder(a: seq<InventoryItem>, b: seq<InventoryItem>, selected: string)
    ensures Displayed(a + b, selected) == Displayed(a, selected) + Displayed(b, selected)
  {
    FilterConcat(a, b, ShowFilter(selected));
  }

  /** `item => item.id !== selectedDeleteId`. */
  function KeepFilter(deleted: Option<int>): InventoryItem -> bool
  {
    (item: InventoryItem) => Some(item.id) != deleted
  }

  /** `prevItems.filter((item) => item.id !== selectedDeleteId)`. */
  function WithoutId(items: seq<InventoryItem>, deleted: Option<int>): seq<InventoryItem>
  {
    Filter(items, KeepFilter(deleted))
  }

  /** Deleting drops exactly the rows with the deleted id. */
  lemma WithoutIdMembers(items: seq<InventoryItem>, deleted: Option<int>)
    ensures |WithoutId(items, deleted)| <= |items|
    ensures forall x :: x in WithoutId(items, deleted) <==> x in items && Some(x.id) != deleted
  {
    var r := WithoutId(items, deleted);
    FilterMembers(items, KeepFilter(deleted));
    assert forall x :: x in r ==> exists i :: 0 <= i < |r| && r[i] == x;
    assert forall x :: x in items ==> exists i :: 0 <= i < |items| && items[i] == x;
  }

  /** Deleting keeps the other rows in their order. */
  lemma WithoutIdKeepsOrder(a: seq<InventoryItem>, b: seq<InventoryItem>, deleted: Option<int>)
    ensures WithoutId(a + b, deleted) == WithoutId(a, deleted) + WithoutId(b, deleted)
  {
    FilterConcat(a, b, KeepFilter(deleted));
  }

  /** `x || ""` on an optional text field. */
  function OrEmpty(x: Option<string>): string
  {
    if x.Some? then x.value else ""
  }

  /** `{ ...selectedItem, operationType, yards: editYards, pieces: editPieces }`. */
  function Merge(item: InventoryItem, operationType: string, yards: string, pieces: string): (r: InventoryItem)
    ensures r.operationType == Some(operationType) && r.yards == Some(yards) && r.pieces == Some(pieces)
    ensures r.id == item.id && r.product == item.product && r.color == item.color && r.category == item.category
    ensures r.yardAvailable == item.yardAvailable && r.pieceAvailable == item.pieceAvailable
  {
    item.(operationType := Some(operationType), yards := Some(yards), pieces := Some(pieces))
  }

  /** The body of `PUT /inventory/updatecond/{id}/{operationType}`. */
  datatype UpdateRequest = UpdateRequest(
    id: int, operationType: string, productName: string, color: string, category: string,
    yardAvailable: string, pieceAvailable: string)

  /** The messages the page shows after an edit or a delete. */
  const EditedMessage: string := "Item Edited successfully! ✅"
  const DeletedMessage: string := "Item deleted successfully! ✅"
  const DeleteFailedMessage: string := "Failed to delete item! ❌"

  /** Every state field the page's handlers touch. */
  datatype PageState = PageState(
    items: seq<InventoryItem>,
    uniqueProducts: seq<string>,
    selectedProduct: string,
    message: string,
    deletingId: Option<int>,
    openAddProductModal: bool,
    deleteConfirmOpen: bool,
    selectedDeleteId: Option<int>,
    editModalOpen: bool,
    selectedItem: Option<InventoryItem>,
    operationType: string,
    editYards: string,
    editPieces: string,
    addProductName: string)

  /** The state of the inventory page. */
  class InventoryPage {
    var items: seq<InventoryItem>
    var uniqueProducts: seq<string>
    var selectedProduct: string
    var message: string
    var deletingId: Option<int>
    var openAddProductModal: bool
    var deleteConfirmOpen: bool
    var selectedDeleteId: Option<int>
    var editModalOpen: bool
    var selectedItem: Option<InventoryItem>
    var operationType: string
    var editYards: string
    var editPieces: string
    var addProductName: string

    ghost function State(): PageState
      reads this
    {
      PageState(items, uniqueProducts, selectedProduct, message, deletingId, openAddProductModal,
                deleteConfirmOpen, selectedDeleteId, editModalOpen, selectedItem, operationType,
                editYards, editPieces, addProductName)
    }

    constructor ()
      ensures State() == PageState([], [], "", "", None, false, false, None, false, None, "", "", "", "")
    {
      items, uniqueProducts, selectedProduct, message := [], [], "", "";
      deletingId, openAddProductModal, deleteConfirmOpen, selectedDeleteId := None, false, false, None;
      editModalOpen, selectedItem, operationType, editYards, editPieces := false, None, "", "", "";
      addProductName := "";
    }

    /** The rows the table currently shows. */
    function Shown(): (r: seq<InventoryItem>)
      reads this
      ensures selectedProduct == "" ==> r == items
      ensures selectedProduct != "" ==> forall x :: x in r <==> x in items && x.product.productName == selectedProduct
    {
      Displayed(items, selectedProduct)
    }

    /** `fetchInventory`: a successful `GET /inventory` replaces the rows and
        the dropdown's options; a failed one changes nothing. */
    method FetchInventory(response: Fetch<seq<InventoryItem>>)
      modifies this
      ensures response.Ok? ==> State() == old(State()).(items := response.data, uniqueProducts := UniqueProducts(response.data))
      ensures response.Failed? ==> State() == old(State())
    {
      if response.Ok? {
        uniqueProducts := UniqueProducts(response.data);
        items := response.data;
      }
    }

    /** The edit icon: select the row, copy its edit fields (`""` when
        missing) and open the edit dialog. */
    method HandleEditClick(item: InventoryItem)
      modifies this
      ensures State() == old(State()).(selectedItem := Some(item), operationType := OrEmpty(item.operationType),
                                      editYards := OrEmpty(item.yards), editPieces := OrEmpty(item.pieces),
                                      editModalOpen := true)
    {
      selectedItem := Some(item);
      operationType := OrEmpty(item.operationType);
      editYards := OrEmpty(item.yards);
      editPieces := OrEmpty(item.pieces);
      editModalOpen := true;
    }

    /** "Add Item" submit. An empty name only raises an alert. Otherwise the
        name is posted without waiting for the answer, so the failure branch
        cannot be reached by a failed request: the name is cleared and the
        dialog closes whatever the backend says. */
    method HandleAddProductSubmit() returns (request: Option<string>, alert: Option<string>)
      modifies this
      ensures old(addProductName) == "" ==>
                request == None && alert == Some("All fields are required!") && State() == old(State())
      ensures old(addProductName) != "" ==>
                request == Some(old(addProductName)) && alert == None
                && State() == old(State()).(addProductName := "", openAddProductModal := false)
    {
      if addProductName == "" {
        request, alert := None, Some("All fields are required!");
        return;
      }
      request, alert := Some(addProductName), None;
      addProductName := "";
      openAddProductModal := false;
    }

    /** The edit dialog's submit. With no selected row nothing happens.
        Otherwise the merged row is built, the update is sent without waiting
        for the answer, a success message is set, the rows whose id is the
        pending delete selection are dropped (as the handler is written), the
        selection is cleared, the dialog closes and a refetch is issued. */
    method HandleOperationSubmit() returns (merged: Option<InventoryItem>, request: Option<UpdateRequest>, refetch: bool)
      modifies this
      ensures old(selectedItem).None? ==> merged == None && request == None && !refetch && State() == old(State())
      ensures old(selectedItem).Some? ==>
                merged == Some(Merge(old(selectedItem).value, old(operationType), old(editYards), old(editPieces)))
      ensures old(selectedItem).Some? ==>
                request == Some(UpdateRequest(old(selectedItem).value.id, old(operationType),
                                              old(selectedItem).value.product.productName, old(selectedItem).value.color,
                                              old(selectedItem).value.category, old(editYards), old(editPieces)))
      ensures old(selectedItem).Some? ==>
                refetch && State() == old(State()).(message := EditedMessage,
                                                    items := WithoutId(old(items), old(selectedDeleteId)),
                                                    selectedItem := None, editModalOpen := false)
    {
      if selectedItem.None? {
        merged, request, refetch := None, None, false;
        return;
      }
      var item := selectedItem.value;
      merged := Some(Merge(item, operationType, editYards, editPieces));
      request := Some(UpdateRequest(item.id, operationType, item.product.productName, item.color,
                                    item.category, editYards, editPieces));
      message := EditedMessage;
      items := WithoutId(items, selectedDeleteId);
      selectedItem := None;
      editModalOpen := false;
      refetch := true;
    }

    /** The delete icon: remember the row and open the confirmation. */
    method ConfirmDelete(id: int)
      modifies this
      ensures State() == old(State()).(selectedDeleteId := Some(id), deleteConfirmOpen := true)
    {
      selectedDeleteId := Some(id);
      deleteConfirmOpen := true;
    }

    /** "Yes" on the confirmation: `DELETE /inventory/{id}`, with `accepted`
        the backend's answer. A request is always sent: `requestId` is the id
        in its URL, `None` standing for the literal `null` when no row was
        remembered. On success the rows with that id are dropped; on either
        outcome `deletingId` ends as `null`. */
    method HandleDelete(accepted: bool) returns (requestId: Option<int>)
      modifies this
      ensures requestId == old(selectedDeleteId)
      ensures accepted ==> State() == old(State()).(items := WithoutId(old(items), old(selectedDeleteId)),
                                                     message := DeletedMessage,
                                                     deleteConfirmOpen := false, deletingId := None)
      ensures !accepted ==> State() == old(State()).(message := DeleteFailedMessage,
                                                      deleteConfirmOpen := false, deletingId := None)
    {
      deletingId := selectedDeleteId;
      deleteConfirmOpen := false;
      requestId := selectedDeleteId;
      if accepted {
        message := DeletedMessage;
        items := WithoutId(items, selectedDeleteId);
        deletingId := None;
      } else {
        message := DeleteFailedMessage;
        deletingId := None;
      }
    }
  }
}
