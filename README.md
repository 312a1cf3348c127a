# Marina Fatture: a Dafny model of the bookkeeping core

Marina Fatture is a small in-browser tool for recording suppliers and invoices. This project models
the parts of it that hold logic of their own:

- **The table store** (`DatabaseManager` in `js/database.js`) in the mode used when no remote database
  is connected. The suppliers and invoices are two lists that every operation reads, changes and
  writes back. The model is a class `Database.DatabaseManager` with two sequence fields. Its methods
  append, replace the first match, filter, map, look up or create, join and count. Each method is
  specified by a pure function of the old lists, and the lemmas state what those functions
  preserve. Identifiers are unique in each table, and every method keeps that invariant.
- **The validators** of `ConfigUtils` (`js/config.example.js`). These cover the Italian VAT number
  (`IT` and eleven digits, either case, blank allowed, never trimmed), the invoice-number character
  class and the two "is configured" checks. Each is a predicate over strings.
- **The deterministic parts of the controller** `MarinaFattureApp` (`js/app.js`):
  - the clean-up of an extracted amount;
  - the newline rewrite of chat messages;
  - the upload gate (MIME whitelist, then the 5 MB cap);
  - the ordered checks of the supplier and invoice forms;
  - the modal state (`currentModal`, `currentEditId`) and the submit handlers that drive the store.

The JavaScript built-ins the code relies on are written out in three modules:

- `JsString`: `trim`, the `\s` class, and case mapping;
- `JsArray`: `filter`, `find` and `findIndex`;
- `JsNumber`: `parseFloat` results, NaN included, and numbers read back from JSON, where NaN becomes `null`.

`js/app.js:634` calls `llmManager.extractInvoiceData`, which `js/llm.js` does not define, so no
extraction routine is modelled. The only amount normalisation
present is the pair of regular-expression replacements at `js/app.js:643-645`.

Files: `wrappers.dfy`, `js_string.dfy`, `js_number.dfy`, `js_array.dfy`, `config.dfy`,
`database.dfy` and `app.dfy`. Verify them together with `dafny verify *.dfy`.

## Model

| member | source | states |
|---|---|---|
| `JsString.Trim` | js/database.js:66 | `trim()` gives the part of the input between a blank prefix and a blank suffix, with no whitespace at either end; it is empty iff the input is all whitespace; it leaves an already trimmed string unchanged (so trimming is idempotent) |
| `JsString.TrimStart` | js/database.js:66 | leading whitespace removed: the result is a suffix, what was dropped is blank, and the result starts with a non-space |
| `JsString.TrimEnd` | js/database.js:66 | trailing whitespace removed: the result is a prefix, what was dropped is blank, and the result ends with a non-space |
| `JsString.ToUpper` | js/database.js:67 | `toUpperCase()` keeps the length and the whitespace positions, leaves no lower-case ASCII letter, and keeps a trimmed string trimmed |
| `JsString.ToLower` | js/database.js:258 | `toLowerCase()` keeps the length and the whitespace positions |
| `JsString.LowerKeepsSpace` | js/database.js:258 | lower-casing a character never makes it whitespace or stops it being whitespace |
| `JsString.UpperKeepsSpace` | js/database.js:67 | upper-casing a character never makes it whitespace or stops it being whitespace |
| `JsString.TrimLower` | js/database.js:258 | trimming and lower-casing commute, so the name key `name.toLowerCase().trim()` can be computed either way |
| `JsArray.IndexOfKey` | js/database.js:114 | `findIndex`: the first index whose id matches, or none (-1) iff no element has that id |
| `JsArray.FindByKey` | js/database.js:174 | `find`: the first element with the key (every earlier one has another key), or undefined iff no element has it |
| `JsArray.RemoveKey` | js/database.js:139 | `filter(s => s.id !== id)`: no element with the id remains, every other element stays, and an absent id leaves the list unchanged |
| `JsArray.RemoveKeyAppend` | js/database.js:139 | removal distributes over concatenation, so the survivors keep their relative order |
| `JsArray.RemoveKeyUnique` | js/database.js:137-141 | deleting records keeps the ids unique |
| `JsArray.RemoveKeyUniqueLength` | js/database.js:139 | with unique ids, filtering out a present id removes exactly one record |
| `JsArray.AppendUnique` | js/database.js:307-309 | appending a record whose id is fresh keeps the ids unique |
| `JsArray.IndexOfKeyAppendNew` | js/database.js:256-268 | after appending the first record with a given key, `findIndex` finds it at the end |
| `JsArray.FindByKeyAfterRemove` | js/database.js:171-175 | after removing id `k`, looking up any other id finds what it found before |
| `JsArray.Filter` | js/app.js:644 | a global character-class replacement by `''`: only kept characters remain, and input with nothing to drop is unchanged |
| `JsArray.FilterMembers` | js/app.js:644 | a character is in the result iff it is in the input and is kept |
| `JsArray.FilterKeepsBoth` | js/app.js:644 | two runs of kept characters come through whole |
| `JsArray.FilterDropsOne` | js/app.js:644 | one removed character between two runs of kept ones simply disappears |
| `JsArray.FilterAppend` | js/app.js:644 | character removal distributes over concatenation |
| `JsNumber.Add` | js/database.js:318 | `+` on numbers: NaN iff either operand is NaN, otherwise the sum |
| `JsNumber.JsonNumber` | js/database.js:214 | `JSON.stringify` then `JSON.parse` of a number: `null` iff it was NaN, otherwise the number itself |
| `JsNumber.AddNullable` | js/database.js:318 | `sum + amount` with a `null` amount: `null` adds 0; NaN iff either side is NaN; otherwise the sum |
| `JsNumber.AddNullableAssoc` | js/database.js:318 | adding a nullable amount after a sum equals adding it to the second summand first |
| `Config.ValidateVat` | js/config.example.js:107-110 | a blank VAT number is accepted (it is optional) |
| `Config.ValidateVatCharacterized` | js/config.example.js:107-110 | a non-blank VAT number is accepted iff it is `I`/`i`, `T`/`t` and eleven ASCII digits (VAT_REGEX at line 49 applied after upper-casing) |
| `Config.ValidateVatUntrimmed` | js/config.example.js:108-109 | a non-blank VAT number with whitespace at either end is refused, because the anchored regex sees it untrimmed |
| `Config.ValidateInvoiceNumber` | js/config.example.js:112-115 | false for the empty string; otherwise true iff every character is an ASCII letter, a digit, `-` or `/` |
| `Config.ValidInvoiceNumberIsTrimmed` | js/config.example.js:50 | an accepted invoice number is not blank and trimming it changes nothing |
| `Config.IsLlmConfigured` | js/config.example.js:79-81 | true iff the API key holds some non-whitespace character |
| `Config.IsDatabaseConfigured` | js/config.example.js:84-89 | true iff both the URL and the anonymous key hold some non-whitespace character |
| `Database.OrNull` | js/database.js:191-193 | `x \|\| null`: null iff the value is missing or empty, otherwise the value itself |
| `Database.NormalizeVat` | js/database.js:67 | the stored VAT number is null iff the given one is missing or empty; otherwise it is the given one trimmed and upper-cased, so it is trimmed and has no lower-case ASCII letter |
| `Database.NewSupplier` | js/database.js:64-69 | a new supplier gets the given id and creation time, no update time, the trimmed name (empty only for a blank input) and the normalised VAT number |
| `Database.UpdatedSuppliers` | js/database.js:113-123 | an absent id fails with the database error (NOT_FOUND is caught and rethrown); otherwise the list keeps its length, only the first record with the id changes, and that record gets the new name, VAT number and update time while keeping its id and creation time |
| `Database.NewInvoice` | js/database.js:185-195 | a new invoice gets the given id and creation time, the trimmed number, the given supplier id, date and parsed amount; its status is the given non-empty status, else `da_pagare`; an empty file path or name becomes null and a non-empty one is kept |
| `Database.Stored` | js/database.js:212-214 | a record as saved by `JSON.stringify` and read back: a NaN amount becomes null, nothing else changes, and no NaN remains |
| `Database.StoredKeepsNoNaN` | js/database.js:212-214 | appending a saved record to a list without NaN amounts leaves it without NaN amounts |
| `Database.Join` | js/database.js:167-175 | `getInvoices`: one entry per stored invoice, in order, each joined to the first supplier with its `supplier_id`, or to none |
| `Database.SetStatus` | js/database.js:291-297 | every invoice with the id gets the new status; the length, the order, the other fields and the other invoices are unchanged |
| `Database.TotalAmount` | js/database.js:318 | the reduced sum, where a null amount adds 0, is NaN iff some amount is NaN, so it is a number for any list read back from storage |
| `Database.TotalAmountConcat` | js/database.js:318 | the total of two concatenated lists is the sum of their totals, so adding an invoice adds its amount |
| `Database.NaNInvoiceAddsNothing` | js/database.js:318 | an invoice whose amount parsed to NaN is stored with a null amount and leaves the total unchanged |
| `Database.FindOrCreateSpec` | js/database.js:252-271 | with a case-insensitive, trimmed name match, it returns the first match's id and leaves the list unchanged; without one, it appends one supplier (trimmed name, null VAT) and returns the new id |
| `Database.CreatedNameKey` | js/database.js:256-267 | a supplier created under the trimmed name has the same name key as the name looked up |
| `Database.FindOrCreateTwice` | js/database.js:254-271 | calling it twice with the same name adds at most one supplier, and both calls return the same id |
| `Database.DeleteSupplierJoin` | js/database.js:137-175 | after a supplier is deleted, invoices that referred to it join to no supplier and all others join as before |
| `Database.DatabaseManager.constructor` | js/database.js:51-55 | the store starts from the stored lists, whose ids are unique |
| `Database.DatabaseManager.GetSuppliers` | js/database.js:51-55 | returns the stored supplier list |
| `Database.DatabaseManager.AddSupplier` | js/database.js:62-86 | appends exactly the new record at the end; earlier suppliers and all invoices are unchanged; ids stay unique |
| `Database.DatabaseManager.UpdateSupplier` | js/database.js:93-124 | the new list is `UpdatedSuppliers` of the old one; on failure it is unchanged and the error is the database message; on success the returned record is in the list with the id |
| `Database.DatabaseManager.DeleteSupplier` | js/database.js:127-148 | the new list is the old one without the id, one record shorter when the id was present (ids are unique) and unchanged otherwise; invoices are untouched; it always returns true |
| `Database.DatabaseManager.GetInvoices` | js/database.js:152-181 | returns the join of the stored invoices with the stored suppliers |
| `Database.DatabaseManager.AddInvoice` | js/database.js:183-225 | appends exactly one record, as JSON stores it (a NaN amount as null); the returned copy keeps the parsed amount and carries the supplier found by its id; suppliers are untouched; ids stay unique and no stored amount is NaN |
| `Database.DatabaseManager.DeleteInvoice` | js/database.js:227-249 | the new invoice list is the old one without the id, one record shorter when the id was present and unchanged otherwise; suppliers are untouched; it always returns true |
| `Database.DatabaseManager.FindOrCreateSupplier` | js/database.js:252-276 | new list and returned id are those of `FindOrCreate`; invoices are untouched |
| `Database.DatabaseManager.UpdateInvoiceStatus` | js/database.js:279-303 | the new invoice list is `SetStatus` of the old one; suppliers are untouched; it returns true |
| `Database.DatabaseManager.GetStats` | js/database.js:311-324 | reports the number of suppliers, the number of invoices and the total amount, which is never NaN |
| `App.StripAmountNoise` | js/app.js:644 | no currency sign, comma or whitespace is left; an amount without them is unchanged |
| `App.RewriteTrailingCents` | js/app.js:645 | keeps the length; it changes the string iff it ends in a comma and two digits, and then only that comma changes, into a point |
| `App.CleanAmountIsStripped` | js/app.js:643-645 | the cleaned amount holds no `€`, `$`, `£`, comma or whitespace, and the trailing-cents rule never changes anything because every comma is gone before it runs |
| `App.CleanAmountIdempotent` | js/app.js:643-645 | cleaning an amount a second time changes nothing |
| `App.CleanAmountDropsDecimalComma` | js/app.js:643-645 | `digits,dd` becomes `digitsdd`, so "343,60" becomes "34360" |
| `App.CleanAmountIntended` | js/app.js:641-647 | the corrected clean-up also leaves no currency sign, comma or whitespace |
| `App.IntendedKeepsDecimalComma` | js/app.js:645 | with the corrected clean-up, `digits,dd` becomes `digits.dd` ("343,60" becomes "343.60") |
| `App.IntendedAgreesWithoutCommas` | js/app.js:643-645 | on amounts without commas the corrected clean-up agrees with the code as written |
| `App.IntendedIdempotent` | js/app.js:643-645 | the corrected clean-up is idempotent |
| `App.ExtractedAmountField` | js/app.js:641-647 | the amount field is written iff the extracted amount is non-empty, and then holds that amount with its currency signs, commas and whitespace removed (so "343,60" gives "34360") |
| `App.ExtractedAmountFieldCorrected` | js/app.js:641-647 | with the corrected clean-up, the field holds no currency sign, comma or whitespace, and for amounts without commas it is what the code writes |
| `App.FormatNewlines` | js/app.js:559-561 | no newline is left, and a message without newlines is unchanged |
| `App.FormatNewlinesRoundTrip` | js/app.js:559-561 | for a message without `<`, turning each `<br>` back into a newline recovers it, so the rewrite loses nothing |
| `App.CheckUpload` | js/app.js:609-625 | no file means nothing happens; a file is accepted iff its type is one of `image/jpeg`, `image/jpg`, `image/png`, `application/pdf` and its size is at most 5·1024·1024 bytes; a wrong type is reported as such whatever the size; a listed type over the size limit is reported as too large |
| `App.SupplierFormChecks` | js/app.js:229-241 | a blank name is refused whatever the VAT field holds; next, a non-blank VAT number that is not `IT` plus eleven digits after trimming is refused; otherwise the supplier gets the trimmed name and the trimmed VAT number, or null when that field is blank |
| `App.InvoiceFormChecks` | js/app.js:392-421 | the form passes iff none of the five checks fires; the reported error fires and every check before it in the order passes; a passing form gives a valid trimmed number, the form's supplier id, date and parsed amount (not at most zero, which NaN is not), the chosen file's name or null, no file path, and a status defaulting to `da_pagare` |
| `App.MarinaFattureApp.constructor` | js/app.js:3-9 | no modal is open and no supplier is being edited |
| `App.MarinaFattureApp.OpenSupplierModal` | js/app.js:204-206 | the open modal is `supplier-modal` and the edit id is the supplier's id, or null |
| `App.MarinaFattureApp.EditSupplier` | js/app.js:260-274 | an unknown id shows NOT_FOUND and changes nothing; a known one opens the modal on that supplier |
| `App.MarinaFattureApp.OpenInvoiceModal` | js/app.js:343-353 | with no suppliers it shows an error and leaves the modal as it was; otherwise the open modal is `invoice-modal`; the edit id is untouched |
| `App.MarinaFattureApp.CloseModal` | js/app.js:575-581 | with a modal open, both fields become null; with none open, nothing changes; an edit id is only ever held while a modal is open |
| `App.MarinaFattureApp.HandleSupplierSubmit` | js/app.js:227-258 | a failing check shows its message and changes nothing; with an edit id it updates that supplier (a failed update shows the database error and changes nothing); otherwise it appends a new supplier; on success the modal closes |
| `App.MarinaFattureApp.SaveSupplier` | js/app.js:243-251 | after the checks pass: with an edit id, the list becomes `UpdatedSuppliers` of the old one and the modal closes, or on failure the database error is shown and nothing changes; without one, a new supplier is appended and the modal closes |
| `App.MarinaFattureApp.HandleInvoiceSubmit` | js/app.js:383-433 | a failing check shows the first failing check's message and changes nothing; otherwise exactly one invoice is appended, as JSON stores it, and the modal closes |

## Left out

- The remote-database branch of every `DatabaseManager` method and `init()`: these are calls into a hosted database client library that is not part of this model.
- `localStorage` reads and writes: the stored lists are the class's two fields, holding what `JSON.parse` would give back (`Database.Stored` models what `JSON.stringify` does to an amount).
- `generateId` and `new Date().toISOString()`: they use the clock and a random source. Ids and timestamps are parameters. A new id must be absent from its table, which stands in for the freshness of generated ids.
- `Database.DatabaseManager.AddSupplier`, `AddInvoice`, `FindOrCreateSupplier` and the two submit handlers: they require the caller's new id to be absent, as explained in the previous item; the JavaScript does not check it.
- `parseFloat`: the parsed value is given with the form or the input, as NaN or a number. IEEE-754 rounding of amounts and of their sum is not modelled (amounts are exact reals), nor is `Infinity` (from an input such as `1e999`), which JSON would also store as `null`.
- The `catch` branches that arise only when storage or JSON parsing fails (getStats falling back to zeros, findOrCreateSupplier rethrowing): storage cannot fail in this model.
- `formatCurrency`, `formatDate`, and all locale formatting: these are foreign `Intl` calls.
- All DOM work, event listeners, `alert` / `confirm`, list rendering, `switchView` and `currentView`, the Escape-key handler, `handleSupplierFromExtraction`'s refresh of the select element, and the `waitForManagers` polling loop (timers). A `Notice` value stands for the message passed to `showSuccess` / `showError`.
- The app-level `deleteSupplier`, `deleteInvoice` and status handlers: each is a confirmation dialog followed by the database call modelled above.
- The bold and italic rewrites in `formatChatMessage` (lazy regular-expression matching); only the newline rewrite is modelled.
- `js/llm.js` (a network client for a chat-completion service), `js/env.js` and `netlify/functions/inject-env.js` (they inject environment variables): none of them is part of this model. `extractInvoiceData` is called but defined nowhere, so the extraction it would perform is not modelled.
- `JsString.ToUpper`, `JsString.ToLower`: only ASCII letters change case. JavaScript's full Unicode mapping can change lengths (`ß` → `SS`) and maps `ı` to `I`, so `validateVAT` also accepts such non-ASCII spellings, which the model does not.
- Strings are sequences of Unicode scalar values, not UTF-16 code units.
- `Config.ValidateVat`: its input is a string; `null` / `undefined` (also accepted as blank by the code) are not modelled, since every caller passes a string.
- `Config.ValidateInvoiceNumber`: the code returns the empty string itself (falsy) for an empty number; the model returns false.
- `importo.toString()` on a non-string extracted amount: the model takes the amount as a string.

## Findings

| source | as written | input that shows it | evidently intended | confidence | as-written member | corrected member |
|---|---|---|---|---|---|---|
| js/app.js:643-645 | the first replacement deletes every comma, so the second one, meant to handle decimals, can only rewrite `.dd` to itself | `"343,60"` is cleaned to `"34360"`, a hundred times the amount | a final `,dd` becomes `.dd` (`"343,60"` → `"343.60"`), with other commas still removed | medium, not executed | `App.CleanAmountDropsDecimalComma` | `App.IntendedKeepsDecimalComma` |

`App.CleanAmount` is the clean-up as written, and `App.ExtractedAmountField` uses it. `App.CleanAmountIntended`
applies the trailing-decimal rule before it removes the commas, and `App.ExtractedAmountFieldCorrected` uses it.
