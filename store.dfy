/**
 * The page's two global variables, `products` and `currentProductData`, and
 * the handlers that change them (script.js lines 3, 6, 217-452).
 */
module ProductStore {
  import opened Optional
  import opened TextInput
  import opened Products

  /** What `submitManualBarcode` did: alert about an empty barcode, or hand the digits to `handleScannedBarcode`. */
  datatype ManualBarcode = BarcodeMissing | BarcodeForwarded(barcode: string)

  class Inventory {
    /** The `products` list. */
    var products: seq<Product>
    /** `currentProductData`: `None` is `null`. */
    var current: Option<Draft>

    /** Page load: the list read back from storage (or empty), no open form. */
    constructor (stored: seq<Product>)
      ensures products == stored && current == None
    {
      products := stored;
      current := None;
    }

    /** `openProductModal(product)`: only a given product becomes the draft. */
    method OpenProductModal(product: Option<Product>)
      modifies this`current
      ensures current == if product.Some? then Some(Existing(product.value)) else old(current)
    {
      if product.Some? {
        current := Some(Existing(product.value));
      }
    }

    /** `closeModal`. */
    method CloseModal()
      modifies this`current
      ensures current == None
    {
      current := None;
    }

    /** `editProduct(id)`: opens the form on the first record with that id, if there is one. */
    method EditProduct(id: int)
      modifies this`current
      ensures FindById(products, id).Some? ==> current == Some(Existing(products[FindById(products, id).value]))
      ensures FindById(products, id).None? ==> current == old(current)
    {
      var found := FindById(products, id);
      if found.Some? {
        OpenProductModal(Some(products[found.value]));
      }
    }

    /**
     * `handleScannedBarcode`: a known barcode opens its first record for editing
     * if the user confirms; an unknown one becomes a `Scanned` draft.
     */
    method HandleScannedBarcode(barcode: string, format: string, confirmed: bool)
      modifies this`current
      ensures FindByBarcode(products, barcode).Some? ==>
        current == if confirmed then Some(Existing(products[FindByBarcode(products, barcode).value])) else old(current)
      ensures FindByBarcode(products, barcode).None? ==> current == Some(Scanned(barcode, format))
    {
      var existing := FindByBarcode(products, barcode);
      if existing.Some? {
        if confirmed {
          OpenProductModal(Some(products[existing.value]));
        }
      } else {
        current := Some(Scanned(barcode, format));
        OpenProductModal(None);
      }
    }

    /**
     * `submitManualBarcode`: the typed text, trimmed, converted and stripped to
     * ASCII digits, is scanned with format `MANUAL` unless nothing is left.
     */
    method SubmitManualBarcode(typed: string, confirmed: bool) returns (outcome: ManualBarcode)
      modifies this`current
      ensures outcome == if NormalizeDigits(typed) == "" then BarcodeMissing else BarcodeForwarded(NormalizeDigits(typed))
      ensures outcome.BarcodeMissing? ==> current == old(current)
      ensures outcome.BarcodeForwarded? && FindByBarcode(products, outcome.barcode).Some? ==>
        current == if confirmed then Some(Existing(products[FindByBarcode(products, outcome.barcode).value]))
                   else old(current)
      ensures outcome.BarcodeForwarded? && FindByBarcode(products, outcome.barcode).None? ==>
        current == Some(Scanned(outcome.barcode, "MANUAL"))
    {
      var barcode := NormalizeDigits(Trim(typed));
      NormalizeIgnoresTrim(typed);
      if barcode == "" {
        return BarcodeMissing;
      }
      outcome := BarcodeForwarded(barcode);
      HandleScannedBarcode(barcode, "MANUAL", confirmed);
    }

    /**
     * `submitManualShortcode`: appends one `SHORTCODE` record when the checks
     * pass and leaves the list alone otherwise.
     */
    method SubmitManualShortcode(typedShortcode: string, typedName: string, stamp: Stamp)
      returns (outcome: ShortcodeEntry)
      modifies this`products
      ensures outcome == ManualShortcodeVerdict(old(products), NormalizeDigits(typedShortcode), Trim(typedName))
      ensures products == if outcome == ShortcodeAdded
                          then old(products) + [ShortcodeRecord(NormalizeDigits(typedShortcode), Trim(typedName), stamp)]
                          else old(products)
      ensures ShortcodesUnique(old(products)) ==> ShortcodesUnique(products)
      ensures AllValid(old(products)) ==> AllValid(products)
      ensures IdsValid(old(products)) && stamp.id != 0 && FindById(old(products), stamp.id).None? ==> IdsValid(products)
    {
      var shortcode := NormalizeDigits(Trim(typedShortcode));
      NormalizeIgnoresTrim(typedShortcode);
      var name := Trim(typedName);
      outcome := ManualShortcodeVerdict(products, shortcode, name);
      if outcome == ShortcodeAdded {
        ManualShortcodeKeepsInvariants(products, shortcode, name, stamp);
        products := products + [ShortcodeRecord(shortcode, name, stamp)];
      }
    }

    /**
     * `saveProduct`: when the checks pass, replaces the edited record or
     * appends a new one, then closes the form; otherwise changes nothing.
     */
    method SaveProduct(typedName: string, price: Option<real>, quantity: Option<int>, typedShortcode: string,
                       stamp: Stamp) returns (outcome: SaveResult)
      modifies this
      ensures outcome == SaveVerdict(old(products), old(current), NormalizeDigits(typedShortcode), Trim(typedName),
                                     price, quantity)
      ensures outcome != Saved ==> products == old(products) && current == old(current)
      ensures outcome == Saved ==>
        && products == ApplySave(old(products), old(current), Trim(typedName), price.value, quantity.value,
                                 NormalizeDigits(typedShortcode), stamp)
        && current == None
      ensures ShortcodesUnique(old(products)) && IdsValid(old(products)) ==> ShortcodesUnique(products)
      ensures AllValid(old(products)) ==> AllValid(products)
      ensures IdsValid(old(products)) && stamp.id != 0 && FindById(old(products), stamp.id).None? ==> IdsValid(products)
    {
      var name := Trim(typedName);
      var shortcode := NormalizeDigits(Trim(typedShortcode));
      NormalizeIgnoresTrim(typedShortcode);
      outcome := SaveVerdict(products, current, shortcode, name, price, quantity);
      if outcome != Saved {
        return;
      }
      SaveKeepsInvariants(products, current, shortcode, name, price, quantity, stamp);
      WriteRecord(name, price.value, quantity.value, shortcode, stamp);
      CloseModal();
    }

    /** Lines 379-406: replace the edited record in place, or append a new one. */
    method WriteRecord(name: string, price: real, quantity: int, shortcode: string, stamp: Stamp)
      modifies this`products
      ensures products == ApplySave(old(products), current, name, price, quantity, shortcode, stamp)
    {
      var editing := EditingId(current);
      if editing.Some? {
        var product := Edited(current.value.product, name, price, quantity, shortcode);
        var index := FindById(products, editing.value);
        if index.Some? {
          products := products[index.value := product];
        }
      } else {
        products := products + [NewRecord(current, name, price, quantity, shortcode, stamp)];
      }
    }

    /** `deleteProduct`: when confirmed, drops every record with that id and keeps the rest in order. */
    method DeleteProduct(id: int, confirmed: bool)
      modifies this`products
      ensures products == if confirmed then RemoveById(old(products), id) else old(products)
      ensures ShortcodesUnique(old(products)) ==> ShortcodesUnique(products)
      ensures IdsValid(old(products)) ==> IdsValid(products)
      ensures AllValid(old(products)) ==> AllValid(products)
    {
      if confirmed {
        if ShortcodesUnique(products) { RemoveKeepsUnique(products, id); }
        if IdsValid(products) { RemoveKeepsIds(products, id); }
        products := RemoveById(products, id);
      }
    }
  }
}
