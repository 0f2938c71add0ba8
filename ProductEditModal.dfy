/** The product dialog: the form loaded from a product (or blank for a new one), the barcode
  * list edited through an input box, and the product built on save. The fresh id (`prod_` and
  * the clock) is a parameter. */
module ProductEditModal {
  import opened Wrappers
  import opened SeqUtil
  import opened StockTypes

  /** The form: a product whose numeric fields may hold `NaN` (`None`) after typing. */
  datatype ProductForm = ProductForm(
    name: string,
    category: FoodCategory,
    unit: string,
    defaultExpirationDays: Option<int>,
    barcodes: seq<string>,
    description: Option<string>,
    dailyRequirementPerPerson: Option<real>,
    weightKg: Option<real>,
    co2PerUnit: Option<real>,
    disposalCost: Option<real>,
    contentPerUnit: Option<real>,
    contentUnit: Option<string>)

  /** The form of a new product: no name, category "その他", unit "個", a year of shelf life. */
  const BlankForm := ProductForm("", Other, "個", Some(365), [], Some(""), None, None, None, None, None, None)

  /** Opening the dialog: a copy of the product being edited, or the blank form. */
  function LoadForm(product: Option<Product>): (f: ProductForm)
    ensures product.None? ==> f == BlankForm
    ensures product.Some? ==> var p := product.value;
      f.name == p.name && f.category == p.category && f.unit == p.unit
      && f.defaultExpirationDays == Some(p.defaultExpirationDays) && f.barcodes == p.barcodes
      && f.description == p.description && f.weightKg == p.weightKg && f.co2PerUnit == p.co2PerUnit
  {
    match product
    case None => BlankForm
    case Some(p) =>
      ProductForm(p.name, p.category, p.unit, Some(p.defaultExpirationDays), p.barcodes, p.description,
                  p.dailyRequirementPerPerson, p.weightKg, p.co2PerUnit, p.disposalCost, p.contentPerUnit, p.contentUnit)
  }

  /** `handleAddBarcode` on the list: the typed code is appended when it is not empty and not
    * listed yet; otherwise the list stays as it is. */
  function WithCode(codes: seq<string>, input: string): (r: seq<string>)
    ensures input != "" && input !in codes ==> r == codes + [input]
    ensures input == "" || input in codes ==> r == codes
    ensures forall c :: c in r <==> c in codes || (c == input && input != "")
    ensures Distinct(codes) ==> Distinct(r)
  {
    if input != "" && input !in codes then codes + [input] else codes
  }

  /** Adding the same code twice adds it once. */
  lemma WithCodeIdempotent(codes: seq<string>, input: string)
    ensures WithCode(WithCode(codes, input), input) == WithCode(codes, input)
  {
  }

  /** Removing a code just added gives the list back. */
  lemma RemoveUndoesAdd(codes: seq<string>, input: string)
    requires input != "" && input !in codes
    ensures Remove(WithCode(codes, input), input) == codes
  {
    RemoveAppendedAbsent(codes, input);
  }

  /** Removing a code keeps a list without repeats without repeats. */
  lemma RemoveKeepsDistinct(codes: seq<string>, code: string)
    requires Distinct(codes)
    ensures Distinct(Remove(codes, code)) && code !in Remove(codes, code)
  {
    DistinctRemove(codes, code);
  }

  /** Why a save was refused. */
  const MissingFields := "必須項目を入力してください"

  /** `handleSubmit`: no product without a name and a unit (the category select always holds a
    * category). The saved product keeps the edited product's id or gets the fresh one;
    * shelf life `NaN` or 0 becomes 365, a missing description ''. */
  function SubmitForm(f: ProductForm, productId: Option<string>, freshId: string): (r: Result<Product, string>)
    ensures r.Failure? <==> f.name == "" || f.unit == ""
    ensures r.Failure? ==> r.error == MissingFields
    ensures r.Success? ==> var p := r.value;
      p.id == OptOrStr(productId, freshId)
      && p.name == f.name && p.category == f.category && p.unit == f.unit
      && p.defaultExpirationDays == OrInt(f.defaultExpirationDays, 365)
      && p.barcodes == f.barcodes && p.description == Some(OptOrStr(f.description, ""))
      && p.dailyRequirementPerPerson == f.dailyRequirementPerPerson && p.weightKg == f.weightKg
      && p.co2PerUnit == f.co2PerUnit && p.disposalCost == f.disposalCost
      && p.contentPerUnit == f.contentPerUnit && p.contentUnit == f.contentUnit
  {
    if f.name == "" || f.unit == "" then Failure(MissingFields)
    else
      Success(Product(OptOrStr(productId, freshId), f.name, f.category, f.unit, OrInt(f.defaultExpirationDays, 365),
                      f.barcodes, Some(OptOrStr(f.description, "")), f.dailyRequirementPerPerson, f.weightKg,
                      f.co2PerUnit, f.disposalCost, f.contentPerUnit, f.contentUnit))
  }

  /** Saving a product opened for editing and left untouched gives the same product, when it
    * has an id, a name, a unit, a non-zero shelf life and a description. */
  lemma SaveUnchanged(p: Product, freshId: string)
    requires p.id != "" && p.name != "" && p.unit != "" && p.defaultExpirationDays != 0 && p.description.Some?
    ensures SubmitForm(LoadForm(Some(p)), Some(p.id), freshId) == Success(p)
  {
    var r := SubmitForm(LoadForm(Some(p)), Some(p.id), freshId);
    assert r.value.id == p.id && r.value.description == p.description;
  }

  /** A new product cannot be saved before a name is typed. */
  lemma BlankFormRefused(freshId: string)
    ensures SubmitForm(BlankForm, None, freshId).Failure?
  {
  }

  /** The dialog's state: the form and the barcode input box. */
  class ProductEditor {
    var form: ProductForm
    var barcodeInput: string

    constructor()
      ensures form == BlankForm && barcodeInput == ""
    {
      form := BlankForm;
      barcodeInput := "";
    }

    /** Opening the dialog for `product` (or for a new one) loads the form and empties the box. */
    method Open(product: Option<Product>)
      modifies this
      ensures form == LoadForm(product) && barcodeInput == ""
    {
      form := LoadForm(product);
      barcodeInput := "";
    }

    method TypeBarcode(text: string)
      modifies this
      ensures barcodeInput == text && form == old(form)
    {
      barcodeInput := text;
    }

    /** `handleAddBarcode`: a non-empty code not listed yet is appended and the box cleared;
      * otherwise nothing changes. */
    method AddBarcode()
      modifies this
      ensures form == old(form).(barcodes := WithCode(old(form).barcodes, old(barcodeInput)))
      ensures old(barcodeInput) != "" && old(barcodeInput) !in old(form).barcodes ==> barcodeInput == ""
      ensures old(barcodeInput) == "" || old(barcodeInput) in old(form).barcodes ==>
        barcodeInput == old(barcodeInput) && form == old(form)
      ensures Distinct(old(form).barcodes) ==> Distinct(form.barcodes)
    {
      if barcodeInput != "" && barcodeInput !in form.barcodes {
        form := form.(barcodes := form.barcodes + [barcodeInput]);
        barcodeInput := "";
      }
    }

    /** `handleRemoveBarcode`: every occurrence of `code` goes, the rest keep their order. */
    method RemoveBarcode(code: string)
      modifies this
      ensures form == old(form).(barcodes := Remove(old(form).barcodes, code))
      ensures barcodeInput == old(barcodeInput)
      ensures Distinct(old(form).barcodes) ==> Distinct(form.barcodes)
    {
      if Distinct(form.barcodes) {
        RemoveKeepsDistinct(form.barcodes, code);
      }
      form := form.(barcodes := Remove(form.barcodes, code));
    }

    /** `handleSubmit` for the product being edited (its id, if any). */
    function Submit(productId: Option<string>, freshId: string): (r: Result<Product, string>)
      reads this
      ensures r.Failure? <==> form.name == "" || form.unit == ""
      ensures r.Success? ==> r.value.barcodes == form.barcodes && r.value.id == OptOrStr(productId, freshId)
    {
      SubmitForm(form, productId, freshId)
    }
  }
}
