/**
 * The "Edit Product" dialog of components/vendor/edit-product-modal.tsx:
 * the form made from the product, the field edits, and the body of the
 * update request.
 *
 * Prices are numbers the browser parses with `parseFloat`; the edit takes
 * the parsed value (None for NaN) as its input. The request's answer is a
 * parameter, and every `alert` is a returned message.
 */
module EditProduct {
  import opened Common
  import opened Text

  const InvalidId: string := "Invalid product ID"
  const ErrorPrefix: string := "Error saving product: "
  const UpdateFallback: string := "Failed to update product"

  /** The product as the dialog holds it: every field may be missing. */
  datatype Product = Product(itemId: Option<int>, itemName: Option<string>, price: Option<real>,
                             itemStocks: Option<int>, category: Option<string>,
                             itemDescription: Option<string>)

  /** The JSON body of `PUT /api/products/:id`; None is `null`. */
  datatype UpdateBody = UpdateBody(itemName: string, itemDescription: Option<string>, price: real,
                                   itemStocks: int, category: Option<string>)

  /** The text fields `handleChange` stores as given. */
  datatype TextField = ItemName | ItemDescription | Category

  /**
   * The answer: OK, an error status with the body's `error` field (None when
   * absent or when the body is not JSON), or a thrown error with its message
   * and its text.
   */
  datatype PutReply = Saved | Refused(errorField: Option<string>) | Threw(message: string, text: string)

  /** `{ item_name: "", item_description: "", price: undefined, item_stocks: undefined, category: "", ...product }`. */
  function Merged(p: Product): (f: Product)
    ensures f.itemId == p.itemId && f.price == p.price && f.itemStocks == p.itemStocks
    ensures f.itemName == Some(OrElseEmpty(p.itemName))
    ensures f.category == Some(OrElseEmpty(p.category))
    ensures f.itemDescription == Some(OrElseEmpty(p.itemDescription))
  {
    Product(p.itemId, Some(OrElseEmpty(p.itemName)), p.price, p.itemStocks,
            Some(OrElseEmpty(p.category)), Some(OrElseEmpty(p.itemDescription)))
  }

  /** A present field, or the default "" of a missing one. */
  function OrElseEmpty(s: Option<string>): (r: string)
    ensures s.Some? ==> r == s.value
    ensures s.None? ==> r == ""
  {
    if s.Some? then s.value else ""
  }

  /** Merging is idempotent: the form of a form is the form. */
  lemma MergedIdempotent(p: Product)
    ensures Merged(Merged(p)) == Merged(p)
  {
  }

  /** A product with every text field present is its own form. */
  lemma CompleteProductUnchanged(p: Product)
    requires p.itemName.Some? && p.category.Some? && p.itemDescription.Some?
    ensures Merged(p) == p
  {
  }

  /** `!form.item_id`: a missing id and the id 0 are both refused. */
  predicate ValidId(id: Option<int>) {
    id.Some? && id.value != 0
  }

  /** The body sent: empty texts become "" for the name and `null` otherwise; missing numbers become 0. */
  function Body(form: Product): (b: UpdateBody)
    ensures b.itemName == OrElse(form.itemName, "")
    ensures Filled(form.itemDescription) <==> b.itemDescription.Some?
    ensures Filled(form.itemDescription) ==> b.itemDescription == form.itemDescription
    ensures Filled(form.category) <==> b.category.Some?
    ensures Filled(form.category) ==> b.category == form.category
    ensures form.price.Some? ==> b.price == form.price.value
    ensures form.price.None? ==> b.price == 0.0
    ensures form.itemStocks.Some? ==> b.itemStocks == form.itemStocks.value
    ensures form.itemStocks.None? ==> b.itemStocks == 0
  {
    UpdateBody(OrElse(form.itemName, ""),
               if Filled(form.itemDescription) then form.itemDescription else None,
               if form.price.Some? then form.price.value else 0.0,
               if form.itemStocks.Some? then form.itemStocks.value else 0,
               if Filled(form.category) then form.category else None)
  }

  /**
   * Saving a product opened and left untouched sends its own values when its
   * texts are filled in; an explicit price or stock of 0 is sent as 0.
   */
  lemma UntouchedSaveSendsProduct(p: Product)
    requires Filled(p.itemName) && Filled(p.category) && Filled(p.itemDescription)
    requires p.price.Some? && p.itemStocks.Some?
    ensures Body(Merged(p)) == UpdateBody(p.itemName.value, p.itemDescription, p.price.value,
                                          p.itemStocks.value, p.category)
  {
  }

  /** Clearing the description or the category sends `null`, not "". */
  lemma ClearedTextsSentAsNull(p: Product)
    requires p.itemDescription == Some("") || p.itemDescription.None?
    requires p.category == Some("") || p.category.None?
    ensures Body(Merged(p)).itemDescription.None? && Body(Merged(p)).category.None?
  {
  }

  /** The message after a failed save. */
  function FailureMessage(reply: PutReply): (m: string)
    requires !reply.Saved?
    ensures reply.Refused? ==> m == ErrorPrefix + OrElse(reply.errorField, UpdateFallback)
    ensures reply.Threw? && reply.message != "" ==> m == ErrorPrefix + reply.message
    ensures reply.Threw? && reply.message == "" ==> m == ErrorPrefix + reply.text
    ensures |m| > |ErrorPrefix| || (reply.Threw? && reply.message == "" && reply.text == "")
  {
    match reply
    case Refused(errorField) => ErrorPrefix + OrElse(errorField, UpdateFallback)
    case Threw(message, text) => ErrorPrefix + (if message != "" then message else text)
  }

  /** `EditProductModal()`'s state. */
  class EditProductModal {
    var form: Product
    var saving: bool

    /** The form starts as the defaults overridden by the product's fields. */
    constructor(product: Product)
      ensures form == Merged(product) && !saving
    {
      form := Merged(product);
      saving := false;
    }

    /** The effect on a new `product`: the form is rebuilt from it alone. */
    method ProductChanged(product: Product)
      modifies this
      ensures form == Merged(product) && saving == old(saving)
    {
      form := Merged(product);
    }

    /** `handleChange` on a text field: the value is stored as given. */
    method ChangeText(field: TextField, value: string)
      modifies this
      ensures form.itemId == old(form).itemId && form.price == old(form).price
      ensures form.itemStocks == old(form).itemStocks
      ensures form.itemName == (if field.ItemName? then Some(value) else old(form).itemName)
      ensures form.itemDescription == (if field.ItemDescription? then Some(value) else old(form).itemDescription)
      ensures form.category == (if field.Category? then Some(value) else old(form).category)
      ensures saving == old(saving)
    {
      match field {
        case ItemName => form := form.(itemName := Some(value));
        case ItemDescription => form := form.(itemDescription := Some(value));
        case Category => form := form.(category := Some(value));
      }
    }

    /** `handleChange("item_stocks", text)`: `parseInt(text)`, or missing when that is NaN. */
    method ChangeStock(text: string)
      modifies this
      ensures form == old(form).(itemStocks := ParseInt(text)) && saving == old(saving)
    {
      var num := ParseInt(text);
      form := form.(itemStocks := if num.None? then None else Some(num.value));
    }

    /** `handleChange("price", …)`, given the parsed number; None is NaN. */
    method ChangePrice(parsed: Option<real>)
      modifies this
      ensures form == old(form).(price := parsed) && saving == old(saving)
    {
      form := form.(price := parsed);
    }

    /**
     * `handleSave`: nothing is sent without a usable id; otherwise the body
     * is sent, and `onSave` then `onClose` follow an OK answer. `saving` is
     * off again at the end.
     */
    method HandleSave(reply: PutReply)
      returns (alert: Option<string>, request: Option<(int, UpdateBody)>, savedAndClosed: bool)
      modifies this
      ensures form == old(form)
      ensures !ValidId(form.itemId) ==> alert == Some(InvalidId) && request.None? && saving == old(saving)
      ensures ValidId(form.itemId) ==> request == Some((form.itemId.value, Body(form))) && !saving
      ensures savedAndClosed <==> ValidId(form.itemId) && reply.Saved?
      ensures ValidId(form.itemId) && reply.Saved? ==> alert.None?
      ensures ValidId(form.itemId) && !reply.Saved? ==> alert == Some(FailureMessage(reply))
    {
      request, savedAndClosed := None, false;
      if form.itemId.None? || form.itemId.value == 0 {
        alert := Some(InvalidId);
        return;
      }
      saving := true;
      request := Some((form.itemId.value, Body(form)));
      if reply.Saved? {
        alert := None;
        savedAndClosed := true;
      } else {
        alert := Some(FailureMessage(reply));
      }
      saving := false;
    }
  }

  /** Typing n into the stock field and saving sends n, and typing text with no digits sends 0. */
  method StockEditSent(product: Product, n: nat) returns (typed: UpdateBody, blank: UpdateBody)
    ensures typed.itemStocks == n && blank.itemStocks == 0
  {
    var modal := new EditProductModal(product);
    ParseIntDecimal(n);
    modal.ChangeStock(Decimal(n));
    typed := Body(modal.form);
    modal.ChangeStock("");
    blank := Body(modal.form);
  }
}
