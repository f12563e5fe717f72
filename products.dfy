/**
 * The product records kept in the scanner's `products` list, the checks the
 * two entry forms apply before a record is added or changed, and the effect
 * of a successful save or delete on the list (script.js lines 217-452).
 */
module Products {
  import opened Optional
  import opened TextInput

  /**
   * One inventory record. `shortcode` is `None` where the source stores `null`;
   * `price` is the already-parsed float, taken as a real number.
   */
  datatype Product = Product(
    id: int,
    barcode: string,
    shortcode: Option<string>,
    format: string,
    name: string,
    price: real,
    quantity: int,
    scanDate: string,
    expireDate: string,
    timestamp: int)

  /**
   * What `currentProductData` holds while the product form is open: the
   * `{barcode, format}` of a scan that matched no record, or the record being edited.
   */
  datatype Draft =
    | Scanned(barcode: string, format: string)
    | Existing(product: Product)

  function DraftBarcode(d: Draft): string {
    match d
    case Scanned(b, _) => b
    case Existing(p) => p.barcode
  }

  function DraftFormat(d: Draft): string {
    match d
    case Scanned(_, f) => f
    case Existing(p) => p.format
  }

  /**
   * The clock and locale readings a new record is built from: `Date.now()` for
   * its id, a second `Date.now()` for a `MANUAL_` barcode, the two
   * `toLocaleDateString()` texts and `getTime()`.
   */
  datatype Stamp = Stamp(id: int, millis: nat, scanDate: string, expireDate: string, timestamp: int)

  /** The number a string of ASCII digits denotes in base 10, read left to right. */
  function DecimalValue(s: string): nat
    requires AllAsciiDigits(s)
  {
    if s == "" then 0 else DecimalValue(s[..|s| - 1]) * 10 + (s[|s| - 1] as int - '0' as int)
  }

  /**
   * The decimal text JavaScript gives a non-negative integer when it is
   * concatenated to a string: its digits denote `n`, with no leading zero.
   */
  function DecimalText(n: nat): (r: string)
    ensures r != "" && AllAsciiDigits(r)
    ensures DecimalValue(r) == n
    ensures r[0] == '0' ==> n == 0
  {
    var last := [('0' as int + n % 10) as char];
    if n < 10 then last
    else
      var front := DecimalText(n / 10);
      assert (front + last)[..|front + last| - 1] == front;
      front + last
  }

  // ---------------------------------------------------------------------------
  // Searching the list (Array.prototype.find / findIndex)
  // ---------------------------------------------------------------------------

  /** The index of the first element that `matches`, if any. */
  function FindFirst<T>(xs: seq<T>, matches: T -> bool): (r: Option<nat>)
    ensures r.Some? ==> r.value < |xs| && matches(xs[r.value])
    ensures r.Some? ==> forall j :: 0 <= j < r.value ==> !matches(xs[j])
    ensures r.None? <==> forall j :: 0 <= j < |xs| ==> !matches(xs[j])
  {
    if xs == [] then None
    else if matches(xs[0]) then Some(0)
    else match FindFirst(xs[1..], matches)
      case None => None
      case Some(k) => Some(k + 1)
  }

  /** `products.find(p => p.barcode === barcode)`, as an index. */
  function FindByBarcode(ps: seq<Product>, barcode: string): (r: Option<nat>)
    ensures r.Some? ==> r.value < |ps| && ps[r.value].barcode == barcode
    ensures r.Some? ==> forall j :: 0 <= j < r.value ==> ps[j].barcode != barcode
    ensures r.None? <==> forall j :: 0 <= j < |ps| ==> ps[j].barcode != barcode
  {
    FindFirst(ps, (p: Product) => p.barcode == barcode)
  }

  /** `products.findIndex(p => p.id === id)`, and the `find` of `editProduct`. */
  function FindById(ps: seq<Product>, id: int): (r: Option<nat>)
    ensures r.Some? ==> r.value < |ps| && ps[r.value].id == id
    ensures r.Some? ==> forall j :: 0 <= j < r.value ==> ps[j].id != id
    ensures r.None? <==> forall j :: 0 <= j < |ps| ==> ps[j].id != id
  {
    FindFirst(ps, (p: Product) => p.id == id)
  }

  // ---------------------------------------------------------------------------
  // Invariants of the list
  // ---------------------------------------------------------------------------

  /** No two records hold the same (non-null) shortcode. */
  predicate ShortcodesUnique(ps: seq<Product>) {
    forall i, j :: 0 <= i < j < |ps| && ps[i].shortcode.Some? ==> ps[i].shortcode != ps[j].shortcode
  }

  /** No record holds `shortcode`. */
  predicate ShortcodeFree(ps: seq<Product>, shortcode: string) {
    forall j :: 0 <= j < |ps| ==> ps[j].shortcode != Some(shortcode)
  }

  /** Ids are pairwise distinct and non-zero, as ids taken from `Date.now()` are. */
  predicate IdsValid(ps: seq<Product>) {
    && (forall j :: 0 <= j < |ps| ==> ps[j].id != 0)
    && (forall i, j :: 0 <= i < j < |ps| ==> ps[i].id != ps[j].id)
  }

  /** A record that passed the checks of one of the two forms. */
  predicate ValidRecord(p: Product) {
    && p.name != ""
    && p.price >= 0.0
    && p.quantity >= 1
    && (p.shortcode.Some? ==> 1 <= |p.shortcode.value| <= ShortcodeLength && AllAsciiDigits(p.shortcode.value))
  }

  predicate AllValid(ps: seq<Product>) {
    forall j :: 0 <= j < |ps| ==> ValidRecord(ps[j])
  }

  // ---------------------------------------------------------------------------
  // submitManualShortcode
  // ---------------------------------------------------------------------------

  /** The alert `submitManualShortcode` shows, or `ShortcodeAdded` when it adds the record. */
  datatype ShortcodeEntry = ShortcodeAdded | MissingShortcode | NotSevenDigits | MissingName | ShortcodeExists

  /**
   * The checks of `submitManualShortcode`, in the source's order, on the
   * normalised shortcode and the trimmed name.
   */
  function ManualShortcodeVerdict(ps: seq<Product>, shortcode: string, name: string): (v: ShortcodeEntry)
    ensures v == ShortcodeAdded <==> |shortcode| == ShortcodeLength && name != "" && ShortcodeFree(ps, shortcode)
    ensures v == MissingShortcode <==> shortcode == ""
    ensures v == NotSevenDigits <==> shortcode != "" && |shortcode| != ShortcodeLength
    ensures v == MissingName <==> |shortcode| == ShortcodeLength && name == ""
    ensures v == ShortcodeExists <==> |shortcode| == ShortcodeLength && name != "" && !ShortcodeFree(ps, shortcode)
  {
    if shortcode == "" then MissingShortcode
    else if |shortcode| != ShortcodeLength then NotSevenDigits
    else if name == "" then MissingName
    else if FindFirst(ps, (p: Product) => p.shortcode == Some(shortcode)).Some? then ShortcodeExists
    else ShortcodeAdded
  }

  /**
   * The record `submitManualShortcode` appends: a fresh `SHORTCODE` record
   * whose barcode ends in its shortcode, with price 0 and quantity 1.
   */
  function ShortcodeRecord(shortcode: string, name: string, stamp: Stamp): (r: Product)
    ensures r.id == stamp.id && r.name == name && r.format == "SHORTCODE"
    ensures r.shortcode == Some(shortcode)
    ensures |r.barcode| == |"SHORTCODE_"| + |shortcode|
    ensures r.barcode[..|"SHORTCODE_"|] == "SHORTCODE_" && r.barcode[|"SHORTCODE_"|..] == shortcode
    ensures r.price == 0.0 && r.quantity == 1
  {
    Product(stamp.id, "SHORTCODE_" + shortcode, Some(shortcode), "SHORTCODE", name,
            0.0, 1, stamp.scanDate, stamp.expireDate, stamp.timestamp)
  }

  // ---------------------------------------------------------------------------
  // saveProduct
  // ---------------------------------------------------------------------------

  /** The alert `saveProduct` shows, or `Saved` when it writes the record. */
  datatype SaveResult = Saved | ShortcodeTooLong | InvalidFields | ShortcodeInUse

  /** Line 360: a non-empty name, a price that is a number and not negative, a quantity that is a number and at least 1. */
  predicate FieldsValid(name: string, price: Option<real>, quantity: Option<int>) {
    && name != ""
    && price.Some? && price.value >= 0.0
    && quantity.Some? && quantity.value >= 1
  }

  /**
   * Lines 366-367: `p` holds `shortcode` and is not the record being edited.
   * Only an `Existing` draft has an id; for a `Scanned` draft
   * `currentProductData.id` is undefined, which differs from every id.
   */
  predicate HeldByOther(p: Product, shortcode: string, cur: Option<Draft>) {
    p.shortcode == Some(shortcode) && !(cur.Some? && cur.value.Existing? && p.id == cur.value.product.id)
  }

  /** The checks of `saveProduct`, in the source's order, on the normalised shortcode and the trimmed name. */
  function SaveVerdict(ps: seq<Product>, cur: Option<Draft>, shortcode: string, name: string,
                       price: Option<real>, quantity: Option<int>): (v: SaveResult)
    ensures v == Saved <==>
      && |shortcode| <= ShortcodeLength
      && FieldsValid(name, price, quantity)
      && (shortcode == "" || forall j :: 0 <= j < |ps| ==> !HeldByOther(ps[j], shortcode, cur))
    ensures v == ShortcodeTooLong <==> |shortcode| > ShortcodeLength
    ensures v == InvalidFields <==> |shortcode| <= ShortcodeLength && !FieldsValid(name, price, quantity)
    ensures v == ShortcodeInUse ==> shortcode != "" && exists j :: 0 <= j < |ps| && HeldByOther(ps[j], shortcode, cur)
  {
    if shortcode != "" && |shortcode| > ShortcodeLength then ShortcodeTooLong
    else if !FieldsValid(name, price, quantity) then InvalidFields
    else if shortcode != "" && FindFirst(ps, (p: Product) => HeldByOther(p, shortcode, cur)).Some? then ShortcodeInUse
    else Saved
  }

  /**
   * Line 379: the id of the record being edited, when it is truthy. A
   * `Scanned` draft has no id, and JavaScript treats the id 0 as false.
   */
  function EditingId(cur: Option<Draft>): (r: Option<int>)
    ensures r.Some? <==> cur.Some? && cur.value.Existing? && cur.value.product.id != 0
    ensures r.Some? ==> r.value != 0 && r.value == cur.value.product.id
  {
    if cur.Some? && cur.value.Existing? && cur.value.product.id != 0 then Some(cur.value.product.id) else None
  }

  /** `shortcode || null`: the empty string, the only falsy string, is stored as `null`. */
  function StoredShortcode(shortcode: string): (r: Option<string>)
    ensures r.None? <==> shortcode == ""
    ensures r.Some? ==> r.value == shortcode
  {
    if shortcode == "" then None else Some(shortcode)
  }

  /** Lines 380-386: the edited record keeps everything but name, price, quantity and shortcode. */
  function Edited(p: Product, name: string, price: real, quantity: int, shortcode: string): (r: Product)
    ensures r.id == p.id && r.barcode == p.barcode && r.format == p.format
    ensures r.scanDate == p.scanDate && r.expireDate == p.expireDate && r.timestamp == p.timestamp
    ensures r.name == name && r.price == price && r.quantity == quantity
    ensures r.shortcode == StoredShortcode(shortcode)
  {
    p.(name := name, price := price, quantity := quantity, shortcode := StoredShortcode(shortcode))
  }

  /**
   * Lines 393-404: a new record, taking barcode and format from the draft
   * when it has them; otherwise the barcode is `MANUAL_` followed by the
   * decimal digits of the clock reading, and the format is `MANUAL`.
   */
  function NewRecord(cur: Option<Draft>, name: string, price: real, quantity: int, shortcode: string,
                     stamp: Stamp): (r: Product)
    ensures r.id == stamp.id && r.name == name && r.price == price && r.quantity == quantity
    ensures r.shortcode == StoredShortcode(shortcode)
    ensures r.barcode != "" && r.format != ""
    ensures cur.Some? && DraftBarcode(cur.value) != "" ==> r.barcode == DraftBarcode(cur.value)
    ensures !(cur.Some? && DraftBarcode(cur.value) != "") ==>
      && |r.barcode| > |"MANUAL_"| && r.barcode[..|"MANUAL_"|] == "MANUAL_"
      && AllAsciiDigits(r.barcode[|"MANUAL_"|..]) && DecimalValue(r.barcode[|"MANUAL_"|..]) == stamp.millis
    ensures r.format == if cur.Some? && DraftFormat(cur.value) != "" then DraftFormat(cur.value) else "MANUAL"
    ensures r.scanDate == stamp.scanDate && r.expireDate == stamp.expireDate && r.timestamp == stamp.timestamp
  {
    var barcode := if cur.Some? && DraftBarcode(cur.value) != "" then DraftBarcode(cur.value)
                   else "MANUAL_" + DecimalText(stamp.millis);
    var format := if cur.Some? && DraftFormat(cur.value) != "" then DraftFormat(cur.value) else "MANUAL";
    Product(stamp.id, barcode, StoredShortcode(shortcode), format, name, price, quantity,
            stamp.scanDate, stamp.expireDate, stamp.timestamp)
  }

  /**
   * The list after a save that passed its checks: on the edit path the first
   * record with the edited id is replaced and nothing else changes; otherwise
   * one record is appended.
   */
  function ApplySave(ps: seq<Product>, cur: Option<Draft>, name: string, price: real, quantity: int,
                     shortcode: string, stamp: Stamp): (r: seq<Product>)
    ensures EditingId(cur).None? ==>
      |r| == |ps| + 1 && r[..|ps|] == ps && r[|ps|] == NewRecord(cur, name, price, quantity, shortcode, stamp)
    ensures EditingId(cur).Some? ==> |r| == |ps|
    ensures EditingId(cur).Some? ==>
      forall j :: 0 <= j < |ps| && r[j] != ps[j] ==> FindById(ps, cur.value.product.id) == Some(j)
    ensures EditingId(cur).Some? && FindById(ps, cur.value.product.id).Some? ==>
      r[FindById(ps, cur.value.product.id).value] == Edited(cur.value.product, name, price, quantity, shortcode)
  {
    match EditingId(cur)
    case Some(id) =>
      (match FindById(ps, id)
       case Some(i) => ps[i := Edited(cur.value.product, name, price, quantity, shortcode)]
       case None => ps)
    case None => ps + [NewRecord(cur, name, price, quantity, shortcode, stamp)]
  }

  // ---------------------------------------------------------------------------
  // deleteProduct
  // ---------------------------------------------------------------------------

  /** `products.filter(p => p.id !== id)`. */
  function RemoveById(ps: seq<Product>, id: int): (r: seq<Product>)
    ensures forall p :: p in r <==> p in ps && p.id != id
    ensures |r| <= |ps|
    ensures (forall j :: 0 <= j < |ps| ==> ps[j].id != id) ==> r == ps
  {
    if ps == [] then []
    else if ps[0].id == id then RemoveById(ps[1..], id)
    else [ps[0]] + RemoveById(ps[1..], id)
  }

  // ---------------------------------------------------------------------------
  // Lemmas
  // ---------------------------------------------------------------------------

  /** Filtering keeps the order of the records: it distributes over concatenation. */
  lemma {:induction false} RemoveByIdConcat(a: seq<Product>, b: seq<Product>, id: int)
    ensures RemoveById(a + b, id) == RemoveById(a, id) + RemoveById(b, id)
  {
    if a != [] {
      assert (a + b)[0] == a[0];
      assert (a + b)[1..] == a[1..] + b;
      RemoveByIdConcat(a[1..], b, id);
    } else {
      assert a + b == b;
    }
  }

  /** Appending keeps shortcodes unique exactly when the new record's shortcode is null or unused. */
  lemma AppendUniqueIff(ps: seq<Product>, p: Product)
    ensures ShortcodesUnique(ps + [p]) <==>
      ShortcodesUnique(ps) && (p.shortcode.None? || ShortcodeFree(ps, p.shortcode.value))
  {
    var qs := ps + [p];
    if ShortcodesUnique(qs) {
      forall i, j | 0 <= i < j < |ps| && ps[i].shortcode.Some? ensures ps[i].shortcode != ps[j].shortcode {
        assert qs[i] == ps[i] && qs[j] == ps[j];
      }
      if p.shortcode.Some? {
        forall j | 0 <= j < |ps| ensures ps[j].shortcode != p.shortcode {
          assert qs[j] == ps[j] && qs[|ps|] == p;
        }
      }
    }
  }

  /** Replacing record `i` keeps shortcodes unique when no other record holds the new shortcode. */
  lemma ReplaceKeepsUnique(ps: seq<Product>, i: nat, p: Product)
    requires i < |ps| && ShortcodesUnique(ps)
    requires p.shortcode.None? || forall j :: 0 <= j < |ps| && j != i ==> ps[j].shortcode != p.shortcode
    ensures ShortcodesUnique(ps[i := p])
  {
  }

  /** A record added by `submitManualShortcode` never repeats a shortcode. */
  lemma ManualShortcodeKeepsUnique(ps: seq<Product>, shortcode: string, name: string, stamp: Stamp)
    requires ShortcodesUnique(ps)
    requires ManualShortcodeVerdict(ps, shortcode, name) == ShortcodeAdded
    ensures ShortcodesUnique(ps + [ShortcodeRecord(shortcode, name, stamp)])
  {
    AppendUniqueIff(ps, ShortcodeRecord(shortcode, name, stamp));
  }

  /**
   * A successful `saveProduct` never repeats a shortcode, provided ids are
   * distinct and non-zero (see the two lemmas after this one for why both are needed).
   */
  lemma SaveKeepsUnique(ps: seq<Product>, cur: Option<Draft>, shortcode: string, name: string,
                        price: Option<real>, quantity: Option<int>, stamp: Stamp)
    requires ShortcodesUnique(ps) && IdsValid(ps)
    requires SaveVerdict(ps, cur, shortcode, name, price, quantity) == Saved
    ensures ShortcodesUnique(ApplySave(ps, cur, name, price.value, quantity.value, shortcode, stamp))
  {
    var r := ApplySave(ps, cur, name, price.value, quantity.value, shortcode, stamp);
    match EditingId(cur)
    case None =>
      var p := NewRecord(cur, name, price.value, quantity.value, shortcode, stamp);
      assert r == ps + [p];
      if p.shortcode.Some? {
        forall j | 0 <= j < |ps| ensures ps[j].shortcode != p.shortcode {
          assert !HeldByOther(ps[j], shortcode, cur);
        }
      }
      AppendUniqueIff(ps, p);
    case Some(id) =>
      match FindById(ps, id)
      case None =>
      case Some(i) =>
        var p := Edited(cur.value.product, name, price.value, quantity.value, shortcode);
        assert r == ps[i := p];
        if p.shortcode.Some? {
          forall j | 0 <= j < |ps| && j != i ensures ps[j].shortcode != p.shortcode {
            assert ps[j].id != ps[i].id;
            assert !HeldByOther(ps[j], shortcode, cur);
          }
        }
        ReplaceKeepsUnique(ps, i, p);
  }

  /** The three invariants a successful save keeps, under the assumptions each one needs. */
  lemma SaveKeepsInvariants(ps: seq<Product>, cur: Option<Draft>, shortcode: string, name: string,
                            price: Option<real>, quantity: Option<int>, stamp: Stamp)
    requires SaveVerdict(ps, cur, shortcode, name, price, quantity) == Saved
    ensures var r := ApplySave(ps, cur, name, price.value, quantity.value, shortcode, stamp);
      && (ShortcodesUnique(ps) && IdsValid(ps) ==> ShortcodesUnique(r))
      && (AllValid(ps) && AllAsciiDigits(shortcode) ==> AllValid(r))
      && (IdsValid(ps) && stamp.id != 0 && FindById(ps, stamp.id).None? ==> IdsValid(r))
  {
    if ShortcodesUnique(ps) && IdsValid(ps) {
      SaveKeepsUnique(ps, cur, shortcode, name, price, quantity, stamp);
    }
    if AllValid(ps) && AllAsciiDigits(shortcode) {
      SaveKeepsValid(ps, cur, shortcode, name, price, quantity, stamp);
    }
    if IdsValid(ps) && stamp.id != 0 && FindById(ps, stamp.id).None? {
      SaveKeepsIds(ps, cur, name, price.value, quantity.value, shortcode, stamp);
    }
  }

  /** The three facts `submitManualShortcode` keeps, for the record it appends. */
  lemma ManualShortcodeKeepsInvariants(ps: seq<Product>, shortcode: string, name: string, stamp: Stamp)
    requires AllAsciiDigits(shortcode)
    requires ManualShortcodeVerdict(ps, shortcode, name) == ShortcodeAdded
    ensures var r := ps + [ShortcodeRecord(shortcode, name, stamp)];
      && (ShortcodesUnique(ps) ==> ShortcodesUnique(r))
      && (AllValid(ps) ==> AllValid(r))
      && (IdsValid(ps) && stamp.id != 0 && FindById(ps, stamp.id).None? ==> IdsValid(r))
  {
    if ShortcodesUnique(ps) {
      ManualShortcodeKeepsUnique(ps, shortcode, name, stamp);
    }
    if IdsValid(ps) && stamp.id != 0 && FindById(ps, stamp.id).None? {
      ManualShortcodeKeepsIds(ps, shortcode, name, stamp);
    }
    ManualShortcodeRecordValid(ps, shortcode, name, stamp);
  }

  /** Two records sharing an id: editing the first one can give it the shortcode of the second. */
  lemma SaveWithRepeatedIdRepeatsShortcode()
    ensures var a := Product(5, "1", None, "EAN_13", "a", 1.0, 1, "", "", 0);
            var b := Product(5, "2", Some("1234567"), "EAN_13", "b", 1.0, 1, "", "", 0);
            var cur := Some(Existing(a));
            && ShortcodesUnique([a, b])
            && SaveVerdict([a, b], cur, "1234567", "a", Some(1.0), Some(1)) == Saved
            && !ShortcodesUnique(ApplySave([a, b], cur, "a", 1.0, 1, "1234567", Stamp(6, 6, "", "", 6)))
  {
    var a := Product(5, "1", None, "EAN_13", "a", 1.0, 1, "", "", 0);
    var b := Product(5, "2", Some("1234567"), "EAN_13", "b", 1.0, 1, "", "", 0);
    var ps := [a, b];
    var cur := Some(Existing(a));
    assert FindById(ps, 5) == Some(0);
    var r := ApplySave(ps, cur, "a", 1.0, 1, "1234567", Stamp(6, 6, "", "", 6));
    assert r[0].shortcode == Some("1234567") && r[1] == b;
  }

  /**
   * A record with id 0: line 367 excludes it from the shortcode check, but
   * line 379 treats id 0 as absent, so its edit appends a copy with the same shortcode.
   */
  lemma SaveWithZeroIdRepeatsShortcode()
    ensures var a := Product(0, "1", Some("1234567"), "EAN_13", "a", 1.0, 1, "", "", 0);
            var cur := Some(Existing(a));
            && ShortcodesUnique([a])
            && SaveVerdict([a], cur, "1234567", "a", Some(1.0), Some(1)) == Saved
            && !ShortcodesUnique(ApplySave([a], cur, "a", 1.0, 1, "1234567", Stamp(6, 6, "", "", 6)))
  {
    var a := Product(0, "1", Some("1234567"), "EAN_13", "a", 1.0, 1, "", "", 0);
    var cur := Some(Existing(a));
    var r := ApplySave([a], cur, "a", 1.0, 1, "1234567", Stamp(6, 6, "", "", 6));
    assert r[0].shortcode == r[1].shortcode == Some("1234567");
  }

  /** Deleting never breaks shortcode uniqueness: the survivors are a subsequence. */
  lemma {:induction false} RemoveKeepsUnique(ps: seq<Product>, id: int)
    requires ShortcodesUnique(ps)
    ensures ShortcodesUnique(RemoveById(ps, id))
  {
    if ps != [] {
      var rest := RemoveById(ps[1..], id);
      assert ShortcodesUnique(ps[1..]) by {
        forall i, j | 0 <= i < j < |ps[1..]| && ps[1..][i].shortcode.Some?
          ensures ps[1..][i].shortcode != ps[1..][j].shortcode
        {
          assert ps[1..][i] == ps[i + 1] && ps[1..][j] == ps[j + 1];
        }
      }
      RemoveKeepsUnique(ps[1..], id);
      if ps[0].id != id {
        if ps[0].shortcode.Some? {
          forall j | 0 <= j < |rest| ensures rest[j].shortcode != ps[0].shortcode {
            assert rest[j] in ps[1..];
            var k :| 0 <= k < |ps[1..]| && ps[1..][k] == rest[j];
            assert ps[k + 1] == rest[j];
          }
        }
        AppendUniqueIff([], ps[0]);
        assert [ps[0]] + rest == RemoveById(ps, id);
        UniquePrepend(ps[0], rest);
      }
    }
  }

  /** Prepending a record whose shortcode is null or unused keeps shortcodes unique. */
  lemma UniquePrepend(p: Product, ps: seq<Product>)
    requires ShortcodesUnique(ps)
    requires p.shortcode.None? || ShortcodeFree(ps, p.shortcode.value)
    ensures ShortcodesUnique([p] + ps)
  {
    var qs := [p] + ps;
    forall i, j | 0 <= i < j < |qs| && qs[i].shortcode.Some? ensures qs[i].shortcode != qs[j].shortcode {
      assert qs[j] == ps[j - 1];
      if i > 0 { assert qs[i] == ps[i - 1]; }
    }
  }

  /** Every operation keeps ids distinct and non-zero when the new id is fresh and non-zero. */
  lemma ManualShortcodeKeepsIds(ps: seq<Product>, shortcode: string, name: string, stamp: Stamp)
    requires IdsValid(ps) && stamp.id != 0 && FindById(ps, stamp.id).None?
    ensures IdsValid(ps + [ShortcodeRecord(shortcode, name, stamp)])
  {
  }

  lemma SaveKeepsIds(ps: seq<Product>, cur: Option<Draft>, name: string, price: real, quantity: int,
                     shortcode: string, stamp: Stamp)
    requires IdsValid(ps) && stamp.id != 0 && FindById(ps, stamp.id).None?
    ensures IdsValid(ApplySave(ps, cur, name, price, quantity, shortcode, stamp))
  {
    var r := ApplySave(ps, cur, name, price, quantity, shortcode, stamp);
    if EditingId(cur).Some? {
      forall j | 0 <= j < |r| ensures r[j].id == ps[j].id {
        if r[j] != ps[j] {
          assert FindById(ps, cur.value.product.id) == Some(j);
        }
      }
    }
  }

  lemma {:induction false} RemoveKeepsIds(ps: seq<Product>, id: int)
    requires IdsValid(ps)
    ensures IdsValid(RemoveById(ps, id))
  {
    if ps != [] {
      assert IdsValid(ps[1..]) by {
        forall j | 0 <= j < |ps[1..]| ensures ps[1..][j].id != 0 { assert ps[1..][j] == ps[j + 1]; }
        forall i, j | 0 <= i < j < |ps[1..]| ensures ps[1..][i].id != ps[1..][j].id {
          assert ps[1..][i] == ps[i + 1] && ps[1..][j] == ps[j + 1];
        }
      }
      RemoveKeepsIds(ps[1..], id);
      var rest := RemoveById(ps[1..], id);
      if ps[0].id != id {
        var qs := [ps[0]] + rest;
        assert qs == RemoveById(ps, id);
        forall j | 0 < j < |qs| ensures qs[j].id != ps[0].id {
          assert qs[j] == rest[j - 1];
          assert rest[j - 1] in ps[1..];
          var k :| 0 <= k < |ps[1..]| && ps[1..][k] == rest[j - 1];
          assert ps[k + 1] == rest[j - 1];
        }
      }
    }
  }

  /**
   * The record `submitManualShortcode` adds is valid: price 0, quantity 1, a
   * 7-digit shortcode that also follows `SHORTCODE_` in its barcode.
   */
  lemma ManualShortcodeRecordValid(ps: seq<Product>, shortcode: string, name: string, stamp: Stamp)
    requires AllAsciiDigits(shortcode)
    requires ManualShortcodeVerdict(ps, shortcode, name) == ShortcodeAdded
    ensures var p := ShortcodeRecord(shortcode, name, stamp);
      && ValidRecord(p)
      && p.price == 0.0 && p.quantity == 1 && p.format == "SHORTCODE"
      && p.shortcode == Some(shortcode) && |shortcode| == ShortcodeLength
      && |p.barcode| == |"SHORTCODE_"| + ShortcodeLength
      && p.barcode[..|"SHORTCODE_"|] == "SHORTCODE_" && p.barcode[|"SHORTCODE_"|..] == shortcode
  {
  }

  /** Every record a successful save writes is valid, so a list of valid records stays valid. */
  lemma SaveKeepsValid(ps: seq<Product>, cur: Option<Draft>, shortcode: string, name: string,
                       price: Option<real>, quantity: Option<int>, stamp: Stamp)
    requires AllValid(ps) && AllAsciiDigits(shortcode)
    requires SaveVerdict(ps, cur, shortcode, name, price, quantity) == Saved
    ensures AllValid(ApplySave(ps, cur, name, price.value, quantity.value, shortcode, stamp))
  {
    var r := ApplySave(ps, cur, name, price.value, quantity.value, shortcode, stamp);
    forall j | 0 <= j < |r| ensures ValidRecord(r[j]) {
      if j < |ps| && r[j] != ps[j] {
        assert r[j] == Edited(cur.value.product, name, price.value, quantity.value, shortcode);
      }
    }
  }
}
