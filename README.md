# Barcode scanner inventory: a Dafny model

The scanner page (`script.js`) keeps a small inventory of products in the
browser. Products come from camera scans, typed barcodes and typed
"shortcodes". This project models the part of the page that does the
bookkeeping:

- **Digit normalisation.** `convertToEnglishNumbers` maps Persian and Arabic
  digits to ASCII. The page then removes everything outside `[0-9]` and, for
  the two shortcode fields, keeps at most seven digits (`validateNumberInput`).
  `String.prototype.trim` is modelled too, with the ECMAScript whitespace
  set. Module `TextInput`, file `text_input.dfy`.
- **Product records and the entry rules.** This covers the record layout, the
  checks of the manual-shortcode form and the product form, the effect of a
  successful save or delete on the list, and the invariants those operations
  keep. Module `Products`, file `products.dfy`.
- **Page state.** Class `ProductStore.Inventory` holds the two globals that the
  handlers update in place: `products` and `currentProductData`. Its methods
  are `handleScannedBarcode`, `submitManualBarcode`, `submitManualShortcode`,
  `saveProduct`, `deleteProduct`, `editProduct`, `openProductModal` and
  `closeModal`. File `store.dfy`.

Each method's `ensures` gives its full new state in terms of the old one. It
ties the state to the pure decision functions (`ManualShortcodeVerdict`,
`SaveVerdict`) and effect functions (`ApplySave`, `RemoveById`). The
properties the page relies on are proved as lemmas about those functions.

Values the page takes from the environment become parameters:

- A `Stamp` carries the `Date.now()` readings, `getTime()` and the two
  `toLocaleDateString()` texts.
- The answer to `confirm()` is a `bool`.
- The already-parsed price and quantity are `Option<real>` and `Option<int>`.
  `None` stands for NaN.

Things worth knowing about the model:

- **Digit table.** At `script.js:19-24` the table's keys are the ten Extended
  Arabic-Indic digits U+06F0–U+06F9 and the ten Arabic-Indic digits
  U+0660–U+0669. In the repository's UTF-8 text each is one character. They
  only look like two-character strings when those bytes are read as Latin-1.
- **Shortcode length.** A shortcode entered through the product form may have
  1 to 7 digits. `saveProduct` rejects only more than seven (line 355). The
  manual-shortcode form demands exactly seven (line 279). The model follows
  the code, so a stored shortcode is not always exactly seven digits.
- **Shortcode uniqueness after a save.** `saveProduct` keeps shortcodes unique
  only when record ids are pairwise distinct and non-zero (`IdsValid`). Line
  367 leaves out of the duplicate check every record that has the edited
  record's id, but line 388 then replaces only the first of them. Line 379
  also treats id 0 as "no id", so a save while a record with id 0 is open
  appends a new record. That record takes its barcode and format from the
  open record and gets the typed shortcode, so the shortcode can repeat. `SaveWithRepeatedIdRepeatsShortcode` and
  `SaveWithZeroIdRepeatsShortcode` give a concrete list for each case. Ids
  come from `Date.now()`, so both cases need an unusual clock or edited
  storage. `IdsValid` is kept by every operation whose new id is fresh and
  non-zero.

## Model

| member | source | states |
|---|---|---|
| `TextInput.ToEnglishDigit` | script.js:19-26 | a table key goes to its ASCII digit, any other character is kept, and the result is never a table key |
| `TextInput.ConvertToEnglishNumbers` | script.js:16-27 | empty input gives `''`; length is preserved; each table key becomes its digit and every other character is unchanged |
| `TextInput.StripNonDigits` | script.js:32 | the result holds only ASCII digits, is no longer than the input, equals the input when the input is all digits, and is empty exactly when the input has no ASCII digit |
| `TextInput.NormalizeDigits` | script.js:31-32 | convert-then-strip yields only ASCII digits and never lengthens the text |
| `TextInput.ValidateNumberInput` | script.js:30-39 | the field value becomes a prefix of the normalised digits; for `manualShortcodeInput` and `productShortcode` that prefix is the first min(7, n) digits, for other fields all of them |
| `TextInput.TrimStart` | script.js:243 | the result is a suffix of the input, what was dropped is all whitespace, and the result does not start with whitespace |
| `TextInput.TrimEnd` | script.js:243 | the result is a prefix of the input, what was dropped is all whitespace, and the result does not end with whitespace |
| `TextInput.Trim` | script.js:272 | the result is a contiguous slice of the input with only whitespace before and after it in the input, and it starts and ends with non-whitespace (or is empty) |
| `TextInput.ConvertIdempotent` | script.js:19-26 | converting an already converted string changes nothing |
| `TextInput.ConvertConcat` | script.js:26 | the conversion is character by character: it distributes over concatenation |
| `TextInput.StripConcat` | script.js:32 | stripping keeps the digits in order: it distributes over concatenation |
| `TextInput.NormalizeConcat` | script.js:31-32 | the whole pipeline distributes over concatenation |
| `TextInput.NormalizeEmptyIff` | script.js:243-249 | the normalised text is empty exactly when the input contains neither an ASCII digit nor a Persian or Arabic digit |
| `TextInput.NormalizeBlank` | script.js:243-244 | whitespace-only text normalises to the empty string |
| `TextInput.NormalizeIgnoresTrimStart` | script.js:243-244 | dropping leading whitespace does not change the normalised digits |
| `TextInput.NormalizeIgnoresTrimEnd` | script.js:243-244 | dropping trailing whitespace does not change the normalised digits |
| `TextInput.NormalizeIgnoresTrim` | script.js:270-271 | trimming before conversion never changes the resulting digits |
| `TextInput.TrimEmptyIff` | script.js:284 | a trimmed name is empty exactly when the typed name is all whitespace |
| `Products.DecimalText` | script.js:395 | the decimal text of `Date.now()` in a `MANUAL_` barcode is non-empty, all ASCII digits, denotes the number in base 10 (`DecimalValue`), and has no leading zero unless the number is 0 |
| `Products.ShortcodeRecord` | script.js:296-307 | the appended record has the clock id, format `SHORTCODE`, the shortcode both as its shortcode and after `SHORTCODE_` in its barcode, price 0 and quantity 1 |
| `Products.FindFirst` | script.js:218 | `find` returns the first matching index, and nothing exactly when no element matches |
| `Products.FindByBarcode` | script.js:218 | finds the first record with the scanned barcode, or reports that none has it |
| `Products.FindById` | script.js:388 | finds the first record with the given id, or reports that none has it |
| `Products.ManualShortcodeVerdict` | script.js:274-293 | the record is added iff the shortcode is exactly 7 digits, the name is non-empty and no record holds the shortcode; each alert is returned exactly in its own case, in the source's order |
| `Products.FieldsValid` | script.js:360 | definition without a contract: the name is non-empty, price is a number >= 0 and quantity a number >= 1; `SaveVerdict` states its role |
| `Products.HeldByOther` | script.js:366-367 | definition without a contract: the record holds the shortcode and is not the record being edited (a `Scanned` draft has no id, so it excludes nothing); `SaveVerdict` states its role |
| `Products.SaveVerdict` | script.js:355-372 | the save goes ahead iff the shortcode has at most 7 digits, the name is non-empty, price is a number >= 0, quantity a number >= 1, and (if a shortcode is given) no record other than the one being edited holds it |
| `Products.EditingId` | script.js:379 | the edit path is taken exactly when the draft is an existing record whose id is truthy (not 0), and then yields that id |
| `Products.StoredShortcode` | script.js:385 | an empty shortcode is stored as `null`, any other as itself |
| `Products.Edited` | script.js:380-386 | the edited record keeps id, barcode, format and dates; name, price and quantity are the new ones and the shortcode is stored as `StoredShortcode` gives it |
| `Products.NewRecord` | script.js:393-404 | the new record has the clock id and the typed fields; its barcode is the draft's when non-empty, otherwise `MANUAL_` followed by the decimal digits of `Date.now()`; its format is the draft's when non-empty, otherwise `MANUAL` |
| `Products.ApplySave` | script.js:379-406 | edit path: same length, only the first record with the edited id changes, and it becomes the draft with new name, price, quantity and shortcode (empty shortcode becomes null); new path: exactly one record is appended |
| `Products.RemoveById` | script.js:447 | the survivors are exactly the records whose id differs; nothing changes when no record has the id |
| `Products.RemoveByIdConcat` | script.js:447 | the filter keeps the original order: it distributes over concatenation |
| `Products.AppendUniqueIff` | script.js:289-309 | appending keeps shortcodes unique iff the list was unique and the new shortcode is null or unused |
| `Products.ReplaceKeepsUnique` | script.js:388-391 | replacing one record keeps shortcodes unique when no other record holds its new shortcode |
| `Products.ManualShortcodeKeepsUnique` | script.js:289-309 | a record added by the shortcode form never duplicates a shortcode |
| `Products.SaveKeepsUnique` | script.js:365-406 | a successful save keeps shortcodes unique when ids are distinct and non-zero |
| `Products.SaveKeepsInvariants` | script.js:355-406 | after a save that passes its checks: shortcodes stay unique given valid ids, records stay valid given a digit shortcode, ids stay valid given a fresh non-zero new id |
| `Products.SaveWithRepeatedIdRepeatsShortcode` | script.js:366-391 | with two records sharing an id, a save that passes every check produces a duplicate shortcode |
| `Products.SaveWithZeroIdRepeatsShortcode` | script.js:366-405 | editing a record whose id is 0 passes the checks and appends a second record with the same shortcode |
| `Products.RemoveKeepsUnique` | script.js:447 | deleting never creates a duplicate shortcode |
| `Products.ManualShortcodeKeepsIds` | script.js:297-309 | adding a shortcode record with a fresh non-zero id keeps ids distinct and non-zero |
| `Products.SaveKeepsIds` | script.js:379-405 | a save keeps ids distinct and non-zero: the edit path keeps the id, the new path uses a fresh one |
| `Products.RemoveKeepsIds` | script.js:447 | deleting keeps ids distinct and non-zero |
| `Products.ManualShortcodeRecordValid` | script.js:279-307 | after the checks pass, the added record is valid: non-empty name, price 0, quantity 1, format `SHORTCODE`, an exactly 7-digit shortcode, and the barcode `SHORTCODE_` followed by those 7 digits |
| `Products.ManualShortcodeKeepsInvariants` | script.js:274-309 | appending the shortcode-form record keeps shortcodes unique, records valid, and (with a fresh non-zero id) ids valid |
| `Products.SaveKeepsValid` | script.js:360-405 | every record a save writes has a non-empty name, price >= 0, quantity >= 1 and a null or 1-7 digit shortcode |
| `ProductStore.Inventory.constructor` | script.js:3-6 | the list starts as what storage held and no form is open |
| `ProductStore.Inventory.OpenProductModal` | script.js:324-329 | a given product becomes `currentProductData`; without one it is left as it was |
| `ProductStore.Inventory.CloseModal` | script.js:341-344 | `currentProductData` becomes null |
| `ProductStore.Inventory.EditProduct` | script.js:438-443 | opens the form on the first record with the id, or changes nothing |
| `ProductStore.Inventory.HandleScannedBarcode` | script.js:217-228 | a known barcode makes its first record the draft if confirmed (otherwise nothing changes); an unknown one becomes the draft `{barcode, format}`; the list is never touched |
| `ProductStore.Inventory.SubmitManualBarcode` | script.js:241-253 | rejects without a scan when the input has no digit of any kind; otherwise scans its normalised digits with format `MANUAL` |
| `ProductStore.Inventory.SubmitManualShortcode` | script.js:266-314 | the verdict decides; on success exactly one `SHORTCODE` record is appended after the unchanged old list, otherwise the list is unchanged; shortcode uniqueness, record validity and id validity are preserved |
| `ProductStore.Inventory.SaveProduct` | script.js:346-412 | on a failed check nothing changes; on success the list becomes `ApplySave` of the old one and the form closes; uniqueness (given valid ids), validity and id validity are preserved |
| `ProductStore.Inventory.WriteRecord` | script.js:379-406 | the list becomes `ApplySave` of the old list: the edited record replaced in place at its first index, or a new record pushed |
| `ProductStore.Inventory.DeleteProduct` | script.js:445-452 | when confirmed, the list is filtered by id in order; otherwise unchanged; uniqueness, validity and id validity are preserved |

## Left out

- Quagga scanner setup, `onDetected`/`onProcessed` overlay drawing and the two-second restart timer (lines 42-131): camera and third-party library plumbing. Every detection is handed straight to `handleScannedBarcode`, which is modelled.
- `toggleFlashlight` and `stopScanner` (lines 134-215): asynchronous torch and media-device control.
- Reading and writing `localStorage` through `JSON.parse`/`JSON.stringify`: persistence I/O. `products` is in-memory state, and the constructor takes the list storage held.
- `displayProducts`, `showResult`, `alert`, the modal show/hide and focus calls, and the `DOMContentLoaded` handler: rendering. Each alert is an outcome value, and `confirm` is a boolean parameter.
- `Date`, `Date.now()`, `toLocaleDateString()` and the 30-day expiry arithmetic: clock and locale. They arrive as a `Stamp` parameter.
- `parseFloat`/`parseInt`: library parsing. Price and quantity arrive already parsed. Price is a real, so the float value `Infinity`, which passes `price < 0`, is not represented.
- The frame-confirmation window and the reference-set ("BigDB") lookup: these belong to the repository's other script variant, not to this file.
- `TextInput.ConvertToEnglishNumbers`: `null` and `undefined` inputs are not represented. Every caller passes a string, where the only falsy value is `''`.
- `TextInput.ConvertToEnglishNumbers`: characters are Unicode scalar values, while `split('')` works on UTF-16 code units. The difference cannot change the result, since no table key is a surrogate.
- `ProductStore.Inventory.SaveProduct`: the edit-path record is built from `currentProductData` itself. In the source that object is the list element, shared by reference. The model copies the value, which is the same because records are never mutated in place.
