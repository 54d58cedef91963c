/**
 * The vendor's product cards of components/vendor/product-listing.tsx: the
 * edit dialog's form with its two-decimal price check, saving the edits,
 * the confirmed delete, and the card image fallback.
 *
 * The network requests are not modelled: each handler is split at its
 * `await`, and whether the server answered OK is a parameter. The form is a
 * map from field to value, as the object spread `{...prev, [field]: value}`
 * treats it; `JSON.stringify(editForm)` is modelled as the map itself.
 */
module ProductListing {
  import opened Common
  import opened Text

  /** The keys of the `Product` interface. */
  datatype Field = ItemId | ItemName | Price | ItemDescription | ItemStocks | InStock | ImageUrl | Category

  /** A form value: the inputs deliver text, the loaded product numbers and a flag. */
  datatype Value = Text(text: string) | Num(number: int) | Flag(flag: bool)

  datatype Product = Product(
    itemId: int, itemName: string, price: int, itemDescription: string,
    itemStocks: int, inStock: bool, imageUrl: Option<string>, category: Option<string>)

  datatype SaveRequest = SaveRequest(itemId: int, body: map<Field, Value>)

  const PlaceholderImage: string := "/placeholder-product.jpg"

  /** `value.toString()`. */
  function ValueText(v: Value): string {
    match v
    case Text(s) => s
    case Num(n) => IntText(n)
    case Flag(b) => if b then "true" else "false"
  }

  /** The product as an object: the optional keys are present only when set. */
  function ProductForm(p: Product): (f: map<Field, Value>)
    ensures ItemId in f && f[ItemId] == Num(p.itemId)
    ensures Price in f && f[Price] == Num(p.price)
    ensures ImageUrl in f <==> p.imageUrl.Some?
    ensures Category in f <==> p.category.Some?
  {
    var base := map[ItemId := Num(p.itemId), ItemName := Text(p.itemName), Price := Num(p.price),
                     ItemDescription := Text(p.itemDescription), ItemStocks := Num(p.itemStocks),
                     InStock := Flag(p.inStock)];
    var withImage := if p.imageUrl.Some? then base[ImageUrl := Text(p.imageUrl.value)] else base;
    if p.category.Some? then withImage[Category := Text(p.category.value)] else withImage
  }

  /**
   * The regular expression `^\d*\.?\d{0,2}$`, written as the ways a text can
   * be split: digits up to `i`, then either at most two digits, or a dot
   * followed by at most two digits.
   */
  ghost predicate SplitsAt(s: string, i: nat) {
    && i <= |s|
    && AllDigits(s[..i])
    && ((AllDigits(s[i..]) && |s| - i <= 2)
        || (i < |s| && s[i] == '.' && AllDigits(s[i + 1..]) && |s| - i - 1 <= 2))
  }

  ghost predicate MatchesPricePattern(s: string) {
    exists i: nat :: SplitsAt(s, i)
  }

  /**
   * The price check as a scan: without a dot the text must be all digits;
   * with one, the digits before the first dot and at most two digits after
   * it.
   */
  function PriceOk(s: string): (ok: bool) {
    var k := IndexOf(s, '.');
    if k == -1 then AllDigits(s)
    else AllDigits(s[..k]) && AllDigits(s[k + 1..]) && |s| - k - 1 <= 2
  }

  /** The scan accepts exactly the texts the regular expression matches. */
  lemma PriceOkIffPattern(s: string)
    ensures PriceOk(s) <==> MatchesPricePattern(s)
  {
    var k := IndexOf(s, '.');
    if PriceOk(s) {
      if k == -1 {
        assert s[..|s|] == s;
        assert SplitsAt(s, |s|);
      } else {
        assert SplitsAt(s, k);
      }
    }
    if MatchesPricePattern(s) {
      var i: nat :| SplitsAt(s, i);
      if AllDigits(s[i..]) && |s| - i <= 2 {
        forall j | 0 <= j < |s|
          ensures IsDigit(s[j])
        {
          if j < i {
            assert s[j] == s[..i][j];
          } else {
            assert s[j] == s[i..][j - i];
          }
        }
        assert k == -1;
      } else {
        forall j | 0 <= j < i
          ensures s[j] != '.'
        {
          assert s[j] == s[..i][j];
        }
        assert k == i;
      }
    }
  }

  /** Examples: the empty text, a lone dot and two decimals pass; a third decimal, a second dot or a sign fail. */
  lemma PriceExamples()
    ensures PriceOk("") && PriceOk(".") && PriceOk("12.34")
    ensures !PriceOk("1.234") && !PriceOk("1.2.3") && !PriceOk("-1")
  {
    assert IndexOf("12.34", '.') == 2;
    assert "12.34"[..2] == "12" && "12.34"[3..] == "34";
    assert IndexOf("1.234", '.') == 1;
    assert IndexOf("1.2.3", '.') == 1;
    assert "1.2.3"[2..][1] == '.';
    assert "-1"[0] == '-';
  }

  /** The card image: `image_url` when it has a non-blank character, else the placeholder. */
  function CardImage(imageUrl: Option<string>): (src: string)
    ensures imageUrl.Some? && (exists i :: 0 <= i < |imageUrl.value| && !IsSpace(imageUrl.value[i])) ==> src == imageUrl.value
    ensures imageUrl.None? || (forall i :: 0 <= i < |imageUrl.value| ==> IsSpace(imageUrl.value[i])) ==> src == PlaceholderImage
  {
    if imageUrl.Some? && imageUrl.value != "" && Trim(imageUrl.value) != "" then
      imageUrl.value
    else
      if imageUrl.Some? then TrimEmpty(imageUrl.value); PlaceholderImage else PlaceholderImage
  }

  /** `ProductListings()`'s state. */
  class ProductListings {
    var products: seq<Product>
    var loading: bool
    var refreshKey: nat
    var deleting: Option<int>
    var editingProduct: Option<Product>
    var editForm: map<Field, Value>

    constructor()
      ensures products == [] && loading && refreshKey == 0 && deleting.None?
      ensures editingProduct.None? && editForm == map[]
    {
      products := [];
      loading := true;
      refreshKey := 0;
      deleting := None;
      editingProduct := None;
      editForm := map[];
    }

    /** `fetchProducts` settles: the list on success, nothing on failure; loading ends either way. */
    method ProductsLoaded(result: Option<seq<Product>>)
      modifies this
      ensures !loading
      ensures result.Some? ==> products == result.value
      ensures result.None? ==> products == old(products)
      ensures refreshKey == old(refreshKey) && deleting == old(deleting)
      ensures editingProduct == old(editingProduct) && editForm == old(editForm)
    {
      if result.Some? {
        products := result.value;
      }
      loading := false;
    }

    /** `openEditModal(product)`. */
    method OpenEditModal(p: Product)
      modifies this
      ensures editingProduct == Some(p) && editForm == ProductForm(p)
      ensures products == old(products) && refreshKey == old(refreshKey) && deleting == old(deleting)
      ensures loading == old(loading)
    {
      editingProduct := Some(p);
      editForm := ProductForm(p);
    }

    /** `handleEditChange(field, value)`: a price that fails the pattern is dropped. */
    method HandleEditChange(field: Field, value: Value)
      modifies this
      ensures field == Price && !PriceOk(ValueText(value)) ==> editForm == old(editForm)
      ensures field != Price || PriceOk(ValueText(value)) ==> editForm == old(editForm)[field := value]
      ensures editingProduct == old(editingProduct) && products == old(products)
      ensures refreshKey == old(refreshKey) && deleting == old(deleting)
      ensures loading == old(loading)
    {
      if field == Price {
        var val := ValueText(value);
        if !PriceOk(val) {
          return;
        }
      }
      editForm := editForm[field := value];
    }

    /** The dialog's `onOpenChange` and its Cancel button: the editor closes and nothing is saved. */
    method CloseEditor()
      modifies this
      ensures editingProduct.None?
      ensures editForm == old(editForm) && products == old(products) && loading == old(loading)
      ensures refreshKey == old(refreshKey) && deleting == old(deleting)
    {
      editingProduct := None;
    }

    /** `saveEdits()` up to the request: nothing is sent without a product being edited. */
    method StartSave() returns (request: Option<SaveRequest>)
      ensures old(editingProduct).None? ==> request.None?
      ensures old(editingProduct).Some? ==> request == Some(SaveRequest(editingProduct.value.itemId, editForm))
    {
      if editingProduct.None? {
        return None;
      }
      request := Some(SaveRequest(editingProduct.value.itemId, editForm));
    }

    /** `saveEdits()` after the answer: success closes the dialog and refreshes; failure is only logged. */
    method FinishSave(succeeded: bool)
      modifies this
      ensures succeeded ==> editingProduct.None? && refreshKey == old(refreshKey) + 1
      ensures !succeeded ==> editingProduct == old(editingProduct) && refreshKey == old(refreshKey)
      ensures editForm == old(editForm) && products == old(products) && deleting == old(deleting)
      ensures loading == old(loading)
    {
      if succeeded {
        editingProduct := None;
        refreshKey := refreshKey + 1;
      }
    }

    /** A card's Delete button is disabled while that product is being deleted. */
    predicate DeleteDisabled(itemId: int)
      reads this
    {
      deleting == Some(itemId)
    }

    /** `handleDelete(item_id)` up to the request: a declined confirm sends nothing. */
    method StartDelete(itemId: int, confirmed: bool) returns (sent: bool)
      modifies this
      ensures sent == confirmed
      ensures confirmed ==> deleting == Some(itemId) && DeleteDisabled(itemId)
      ensures !confirmed ==> deleting == old(deleting)
      ensures refreshKey == old(refreshKey) && products == old(products)
      ensures editingProduct == old(editingProduct) && editForm == old(editForm)
      ensures loading == old(loading)
    {
      if !confirmed {
        return false;
      }
      deleting := Some(itemId);
      sent := true;
    }

    /** `handleDelete` after the answer: refresh only on success; `deleting` is cleared either way. */
    method FinishDelete(succeeded: bool)
      modifies this
      ensures deleting.None?
      ensures succeeded ==> refreshKey == old(refreshKey) + 1
      ensures !succeeded ==> refreshKey == old(refreshKey)
      ensures products == old(products) && editingProduct == old(editingProduct) && editForm == old(editForm)
      ensures loading == old(loading)
    {
      if succeeded {
        refreshKey := refreshKey + 1;
      }
      deleting := None;
    }
  }
}
