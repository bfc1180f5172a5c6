/** The "Add Inventory" form: six required fields, a numeric payload, and a
    reset to defaults after a successful post. */
module AddInventory {
  import opened Common

  /** The unit the form starts with and returns to. */
  const DefaultUnit: string := "Meter"

  /** The form's fields; the two quantities are `<input type="number">`. */
  datatype FormValues = FormValues(
    productName: string,
    color: string,
    category: string,
    yardAvailable: NumberInput,
    pieceAvailable: NumberInput,
    inventoryUnit: string)

  /** The body of `POST /inventory`. */
  datatype InventoryPost = InventoryPost(
    productName: string, color: string, category: string, inventoryUnit: string,
    yardAvailable: real, pieceAvailable: real)

  /** Whether some required field is empty. */
  predicate Incomplete(v: FormValues)
  {
    v.productName == "" || v.color == "" || v.category == "" ||
    v.yardAvailable.Blank? || v.pieceAvailable.Blank? || v.inventoryUnit == ""
  }

  /** The guard and the payload of `handleSubmit`: nothing when a field is
      empty, otherwise the text fields as entered and the quantities as
      numbers. */
  function Prepare(v: FormValues): (r: Option<InventoryPost>)
    ensures r.None? <==> Incomplete(v)
    ensures r.Some? ==> r.value.productName == v.productName && r.value.color == v.color
                        && r.value.category == v.category && r.value.inventoryUnit == v.inventoryUnit
    ensures r.Some? ==> Entered(r.value.yardAvailable) == v.yardAvailable
                        && Entered(r.value.pieceAvailable) == v.pieceAvailable
  {
    if Incomplete(v) then None
    else Some(InventoryPost(v.productName, v.color, v.category, v.inventoryUnit,
                            v.yardAvailable.value, v.pieceAvailable.value))
  }

  /** The fields after a successful post. */
  const Cleared: FormValues := FormValues("", "", "", Blank, Blank, DefaultUnit)

  /** A cleared form cannot be submitted again until it is filled in. */
  lemma ClearedIsIncomplete()
    ensures Prepare(Cleared) == None && Cleared.inventoryUnit == "Meter"
  {
  }

  /** The state of the form. */
  class AddInventoryForm {
    var productName: string
    var color: string
    var category: string
    var yardAvailable: NumberInput
    var pieceAvailable: NumberInput
    var masterProducts: seq<Product>
    var inventoryUnit: string

    function Values(): FormValues
      reads this
    {
      FormValues(productName, color, category, yardAvailable, pieceAvailable, inventoryUnit)
    }

    constructor (initialProductName: string)
      ensures Values() == FormValues(initialProductName, "", "", Blank, Blank, DefaultUnit)
      ensures masterProducts == []
    {
      productName := initialProductName;
      color, category := "", "";
      yardAvailable, pieceAvailable := Blank, Blank;
      masterProducts := [];
      inventoryUnit := DefaultUnit;
    }

    /** The mount-time `GET /inventory/master-products`: the list on success
        (`[]` for a null body), `[]` on failure. */
    method FetchMasterProducts(response: Fetch<Option<seq<Product>>>)
      modifies this
      ensures masterProducts == if response.Ok? && response.data.Some? then response.data.value else []
      ensures Values() == old(Values())
    {
      if response.Ok? && response.data.Some? {
        masterProducts := response.data.value;
      } else {
        masterProducts := [];
      }
    }

    /** The effect run when the `initialProductName` prop changes: a
        non-empty name replaces the product name, an empty one is ignored. */
    method InitialProductNameChanged(name: string)
      modifies this
      ensures name != "" ==> Values() == old(Values()).(productName := name)
      ensures name == "" ==> Values() == old(Values())
      ensures masterProducts == old(masterProducts)
    {
      if name != "" {
        productName := name;
      }
    }

    /** `handleSubmit`; `accepted` is the backend's answer to the post. An
        incomplete form only raises an alert. A rejected post raises an
        alert and keeps the fields. An accepted post clears the fields,
        restores the default unit and calls `onItemAdded` once. */
    method HandleSubmit(accepted: bool) returns (request: Option<InventoryPost>, alert: Option<string>, itemAddedCalls: nat)
      modifies this
      ensures request == Prepare(old(Values()))
      ensures masterProducts == old(masterProducts)
      ensures request.None? ==> alert == Some("All fields are required!") && itemAddedCalls == 0 && Values() == old(Values())
      ensures request.Some? && accepted ==> alert == None && itemAddedCalls == 1 && Values() == Cleared
      ensures request.Some? && !accepted ==> alert == Some("Failed to add item!") && itemAddedCalls == 0 && Values() == old(Values())
    {
      request := Prepare(Values());
      if request.None? {
        alert, itemAddedCalls := Some("All fields are required!"), 0;
        return;
      }
      if accepted {
        productName := "";
        color := "";
        category := "";
        inventoryUnit := DefaultUnit;
        yardAvailable := Blank;
        pieceAvailable := Blank;
        alert, itemAddedCalls := None, 1;
      } else {
        alert, itemAddedCalls := Some("Failed to add item!"), 0;
      }
    }
  }
}
