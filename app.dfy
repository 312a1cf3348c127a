/**
 * The deterministic parts of MarinaFattureApp from js/app.js: the clean-up applied to an extracted
 * amount, the newline rewrite of chat messages, the upload gate, the ordered checks of the supplier
 * and invoice forms, and the controller's modal state together with the submit handlers that
 * drive the table store.
 */
module App {
  import opened Wrappers
  import opened JsString
  import opened JsNumber
  import opened JsArray
  import opened Config
  import opened Database

  // ---------------------------------------------------------------------------------------------
  // Amount clean-up in handleFileUpload

  /** Characters the class `[€$£,\s]` matches. */
  predicate IsAmountNoise(c: char) {
    c == '\U{20AC}' || c == '$' || c == '\U{00A3}' || c == ',' || IsSpace(c)
  }

  predicate KeptInAmount(c: char) {
    !IsAmountNoise(c)
  }

  /** `.replace(/[€$£,\s]/g, '')`. */
  function StripAmountNoise(s: string): (r: string)
    ensures forall i :: 0 <= i < |r| ==> !IsAmountNoise(r[i])
    ensures (forall i :: 0 <= i < |s| ==> !IsAmountNoise(s[i])) ==> r == s
  {
    Filter(s, KeptInAmount)
  }

  /**
   * `.replace(/[.,](\d{2})$/, '.$1')`: a separator followed by exactly two final digits becomes a
   * point. Only the separator can change, so a string without commas is left as it is.
   */
  function RewriteTrailingCents(t: string): (r: string)
    ensures |r| == |t|
    ensures forall i :: 0 <= i < |t| && r[i] != t[i] ==> i == |t| - 3 && t[i] == ',' && r[i] == '.'
    ensures r != t <==> |t| >= 3 && t[|t| - 3] == ',' && IsAsciiDigit(t[|t| - 2]) && IsAsciiDigit(t[|t| - 1])
  {
    if |t| >= 3 && (t[|t| - 3] == '.' || t[|t| - 3] == ',') && IsAsciiDigit(t[|t| - 2]) && IsAsciiDigit(t[|t| - 1])
    then t[..|t| - 3] + "." + t[|t| - 2..]
    else t
  }

  /** The amount written into the form, as the code is written. */
  function CleanAmount(s: string): string {
    RewriteTrailingCents(StripAmountNoise(s))
  }

  /**
   * The cleaned amount holds no currency sign, comma or whitespace, and the trailing-cents rule
   * never changes anything: by the time it runs, every comma is already gone.
   */
  lemma CleanAmountIsStripped(s: string)
    ensures CleanAmount(s) == StripAmountNoise(s)
    ensures forall i :: 0 <= i < |CleanAmount(s)| ==> !IsAmountNoise(CleanAmount(s)[i])
  {
    var t := StripAmountNoise(s);
    var r := RewriteTrailingCents(t);
    assert forall i :: 0 <= i < |t| ==> t[i] != ',';
    assert r == t;
  }

  /** Cleaning an amount twice gives what cleaning it once gives. */
  lemma CleanAmountIdempotent(s: string)
    ensures CleanAmount(CleanAmount(s)) == CleanAmount(s)
  {
    CleanAmountIsStripped(s);
    CleanAmountIsStripped(CleanAmount(s));
  }

  /**
   * An Italian decimal comma is deleted rather than turned into a point, so the amount grows a
   * hundredfold: "343,60" becomes "34360".
   */
  lemma CleanAmountDropsDecimalComma(digits: string, d1: char, d2: char)
    requires forall i :: 0 <= i < |digits| ==> !IsAmountNoise(digits[i])
    requires IsAsciiDigit(d1) && IsAsciiDigit(d2)
    ensures CleanAmount(digits + [',', d1, d2]) == digits + [d1, d2]
  {
    var cents := [d1, d2];
    assert digits + [',', d1, d2] == digits + ([','] + cents);
    CleanAmountIsStripped(digits + ([','] + cents));
    FilterDropsOne(digits, ',', cents, KeptInAmount);
  }

  predicate IsCurrencyOrSpace(c: char) {
    c == '\U{20AC}' || c == '$' || c == '\U{00A3}' || IsSpace(c)
  }

  predicate KeptBeforeCents(c: char) {
    !IsCurrencyOrSpace(c)
  }

  /**
   * The clean-up the trailing-cents rule was written for: currency signs and whitespace go first,
   * then a final `,dd` becomes `.dd`, and only then are the remaining (thousands) commas removed.
   */
  function CleanAmountIntended(s: string): (r: string)
    ensures forall i :: 0 <= i < |r| ==> !IsAmountNoise(r[i])
  {
    Filter(RewriteTrailingCents(Filter(s, KeptBeforeCents)), KeptInAmount)
  }

  /** The corrected clean-up turns a decimal comma into a point: "343,60" becomes "343.60". */
  lemma IntendedKeepsDecimalComma(digits: string, d1: char, d2: char)
    requires forall i :: 0 <= i < |digits| ==> !IsAmountNoise(digits[i])
    requires IsAsciiDigit(d1) && IsAsciiDigit(d2)
    ensures CleanAmountIntended(digits + [',', d1, d2]) == digits + ['.', d1, d2]
  {
    var tail := [',', d1, d2];
    var u := digits + ['.', d1, d2];
    assert Filter(digits + tail, KeptBeforeCents) == digits + tail by {
      assert forall i :: 0 <= i < |digits| ==> KeptBeforeCents(digits[i]);
      FilterKeepsBoth(digits, tail, KeptBeforeCents);
    }
    RewriteCommaCents(digits, d1, d2);
    assert Filter(u, KeptInAmount) == u by {
      FilterKeepsBoth(digits, ['.', d1, d2], KeptInAmount);
    }
  }

  /** A comma followed by two final digits becomes a decimal point, whatever precedes it. */
  lemma RewriteCommaCents(digits: string, d1: char, d2: char)
    requires IsAsciiDigit(d1) && IsAsciiDigit(d2)
    ensures RewriteTrailingCents(digits + [',', d1, d2]) == digits + ['.', d1, d2]
  {
    var s := digits + [',', d1, d2];
    assert s[..|s| - 3] == digits && s[|s| - 2..] == [d1, d2];
  }

  /** On input without commas the corrected clean-up agrees with the code as written. */
  lemma IntendedAgreesWithoutCommas(s: string)
    requires forall i :: 0 <= i < |s| ==> s[i] != ','
    ensures CleanAmountIntended(s) == CleanAmount(s)
  {
    CleanAmountIsStripped(s);
    var t := Filter(s, KeptBeforeCents);
    assert t == Filter(s, KeptInAmount) by {
      FilterSame(s);
    }
    assert RewriteTrailingCents(t) == t;
    assert Filter(t, KeptInAmount) == t;
  }

  /** Without commas, the two character filters keep the same characters. */
  lemma {:induction false} FilterSame(s: string)
    requires forall i :: 0 <= i < |s| ==> s[i] != ','
    ensures Filter(s, KeptBeforeCents) == Filter(s, KeptInAmount)
    decreases |s|
  {
    if s != [] {
      FilterSame(s[1..]);
    }
  }

  /** Cleaning twice with the corrected clean-up gives what cleaning once gives. */
  lemma IntendedIdempotent(s: string)
    ensures CleanAmountIntended(CleanAmountIntended(s)) == CleanAmountIntended(s)
  {
    var r := CleanAmountIntended(s);
    assert forall i :: 0 <= i < |r| ==> KeptBeforeCents(r[i]) && KeptInAmount(r[i]);
    assert Filter(r, KeptBeforeCents) == r;
    assert RewriteTrailingCents(r) == r;
    assert Filter(r, KeptInAmount) == r;
  }

  /**
   * What the upload handler writes into the amount field for an extracted `importo`: nothing when
   * it is empty, otherwise the amount cleaned as the code is written, which is just the amount
   * with its currency signs, commas and whitespace removed.
   */
  function ExtractedAmountField(importo: string): (r: Option<string>)
    ensures r.None? <==> importo == ""
    ensures r.Some? ==> r.value == StripAmountNoise(importo)
  {
    if importo == "" then None
    else
      CleanAmountIsStripped(importo);
      Some(CleanAmount(importo))
  }

  /** The amount field with the corrected clean-up: a final `,dd` is kept as the decimal part. */
  function ExtractedAmountFieldCorrected(importo: string): (r: Option<string>)
    ensures r.None? <==> importo == ""
    ensures r.Some? ==> forall i :: 0 <= i < |r.value| ==> !IsAmountNoise(r.value[i])
    ensures (forall i :: 0 <= i < |importo| ==> importo[i] != ',') ==> r == ExtractedAmountField(importo)
  {
    if importo == "" then None
    else
      assert (forall i :: 0 <= i < |importo| ==> importo[i] != ',') ==> CleanAmountIntended(importo) == CleanAmount(importo) by {
        if forall i :: 0 <= i < |importo| ==> importo[i] != ',' {
          IntendedAgreesWithoutCommas(importo);
        }
      }
      Some(CleanAmountIntended(importo))
  }

  // ---------------------------------------------------------------------------------------------
  // formatChatMessage (the newline rewrite)

  /** `.replace(/\n/g, '<br>')`: no newline is left; text without newlines is unchanged. */
  function FormatNewlines(m: string): (r: string)
    ensures forall i :: 0 <= i < |r| ==> r[i] != '\n'
    ensures (forall i :: 0 <= i < |m| ==> m[i] != '\n') ==> r == m
  {
    if m == [] then [] else (if m[0] == '\n' then "<br>" else [m[0]]) + FormatNewlines(m[1..])
  }

  /** The reverse rewrite, `<br>` back to a newline. */
  function RestoreNewlines(r: string): string
    decreases |r|
  {
    if r == [] then []
    else if |r| >= 4 && r[..4] == "<br>" then "\n" + RestoreNewlines(r[4..])
    else [r[0]] + RestoreNewlines(r[1..])
  }

  /** A message with no `<` in it is recovered from its formatted form: the rewrite loses nothing. */
  lemma {:induction false} FormatNewlinesRoundTrip(m: string)
    requires forall i :: 0 <= i < |m| ==> m[i] != '<'
    ensures RestoreNewlines(FormatNewlines(m)) == m
    decreases |m|
  {
    if m != [] {
      var rest := FormatNewlines(m[1..]);
      FormatNewlinesRoundTrip(m[1..]);
      if m[0] == '\n' {
        var r := "<br>" + rest;
        assert r[..4] == "<br>" && r[4..] == rest;
      } else {
        var r := [m[0]] + rest;
        assert r[0] == m[0] && r[1..] == rest;
      }
    }
  }

  // ---------------------------------------------------------------------------------------------
  // The upload gate in handleFileUpload

  /** The chosen file: its MIME type and its size in bytes. */
  datatype UploadedFile = UploadedFile(mimeType: string, size: nat)

  datatype UploadError = UnsupportedType | TooLarge {
    function Message(): string {
      match this
      case UnsupportedType => "Tipo file non supportato. Usa PNG, JPG o PDF."
      case TooLarge => "File troppo grande. Massimo 5MB."
    }
  }

  /** Nothing chosen (the handler returns), a rejection (shown as an error), or a file sent on to extraction. */
  datatype UploadDecision = NoFile | Rejected(reason: UploadError) | Accepted(file: UploadedFile)

  const VALID_TYPES: seq<string> := ["image/jpeg", "image/jpg", "image/png", "application/pdf"]

  /**
   * A file is accepted iff its type is on the list and it is at most 5 MB; the type is checked
   * first, so a file that fails both is refused for its type.
   */
  function CheckUpload(file: Option<UploadedFile>): (r: UploadDecision)
    ensures r == NoFile <==> file.None?
    ensures r.Accepted? <==> file.Some? && file.value.mimeType in VALID_TYPES && file.value.size <= 5242880
    ensures r.Accepted? ==> r.file == file.value
    ensures file.Some? && file.value.mimeType !in VALID_TYPES ==> r == Rejected(UnsupportedType)
    ensures file.Some? && file.value.mimeType in VALID_TYPES && file.value.size > MAX_FILE_SIZE ==> r == Rejected(TooLarge)
  {
    match file
    case None => NoFile
    case Some(f) =>
      if f.mimeType !in VALID_TYPES then Rejected(UnsupportedType)
      else if f.size > MAX_FILE_SIZE then Rejected(TooLarge)
      else Accepted(f)
  }

  // ---------------------------------------------------------------------------------------------
  // The checks of handleSupplierSubmit and handleInvoiceSubmit

  datatype SupplierFormError = NameRequired | InvalidVat {
    function Message(): string {
      match this
      case NameRequired => "Il nome del fornitore è obbligatorio"
      case InvalidVat => "Partita IVA non valida"
    }
  }

  /** The supplier form's checks, in the handler's order, on the raw field values. */
  function ValidateSupplierForm(nameField: string, vatField: string): (r: Result<SupplierInput, SupplierFormError>)
  {
    var name := Trim(nameField);
    var vat := Trim(vatField);
    if name == "" then Failure(NameRequired)
    else if vat != "" && !ValidateVat(vat) then Failure(InvalidVat)
    else Success(SupplierInput(name, if vat == "" then None else Some(vat)))
  }

  /**
   * A blank name is refused whatever the VAT field holds; a non-blank VAT number that is not `IT`
   * and eleven digits (after trimming) is refused next; otherwise the supplier gets the trimmed
   * name and, as its VAT number, the trimmed field or null when the field is blank.
   */
  lemma SupplierFormChecks(nameField: string, vatField: string)
    ensures var r := ValidateSupplierForm(nameField, vatField);
      && (r == Failure(NameRequired) <==> IsBlank(nameField))
      && (r == Failure(InvalidVat) <==> !IsBlank(nameField) && !IsBlank(vatField) && !IsItalianVatNumber(Trim(vatField)))
      && (r.Success? ==> r.value.name == Trim(nameField) && !IsBlank(r.value.name))
      && (r.Success? ==> (r.value.vat.None? <==> IsBlank(vatField)))
      && (r.Success? && r.value.vat.Some? ==> r.value.vat == Some(Trim(vatField)) && IsItalianVatNumber(r.value.vat.value))
  {
    var vat := Trim(vatField);
    if vat != "" {
      ValidateVatCharacterized(vat);
    }
    var name := Trim(nameField);
    assert name != "" ==> !IsBlank(name);
  }

  /** The fields of the invoice form; `parsedAmount` is what `parseFloat` gives for `amount`. */
  datatype InvoiceForm = InvoiceForm(
    number: string, supplierId: string, amount: string, parsedAmount: Number,
    date: string, status: string, fileName: Option<string>)

  datatype InvoiceFormError = NumberRequired | InvalidNumber | SupplierRequired | InvalidAmount | DateRequired {
    function Message(): string {
      match this
      case NumberRequired => "Il numero della fattura è obbligatorio"
      case InvalidNumber => "Numero fattura non valido"
      case SupplierRequired => "Seleziona un fornitore"
      case InvalidAmount => "Inserisci un importo valido"
      case DateRequired => "Seleziona una data"
    }

    /** The position of the check in the handler. */
    function Rank(): nat {
      match this
      case NumberRequired => 0
      case InvalidNumber => 1
      case SupplierRequired => 2
      case InvalidAmount => 3
      case DateRequired => 4
    }
  }

  /** The condition under which each check of handleInvoiceSubmit fires, independently of the others. */
  predicate Fails(e: InvoiceFormError, f: InvoiceForm) {
    match e
    case NumberRequired => IsBlank(f.number)
    case InvalidNumber => !ValidateInvoiceNumber(Trim(f.number))
    case SupplierRequired => f.supplierId == ""
    case InvalidAmount => f.amount == "" || AtMostZero(f.parsedAmount)
    case DateRequired => f.date == ""
  }

  /** The invoice form's checks, in the handler's order, and the object handed to addInvoice. */
  function ValidateInvoiceForm(f: InvoiceForm): (r: Result<InvoiceInput, InvoiceFormError>)
  {
    var number := Trim(f.number);
    if number == "" then Failure(NumberRequired)
    else if !ValidateInvoiceNumber(number) then Failure(InvalidNumber)
    else if f.supplierId == "" then Failure(SupplierRequired)
    else if f.amount == "" || AtMostZero(f.parsedAmount) then Failure(InvalidAmount)
    else if f.date == "" then Failure(DateRequired)
    else Success(InvoiceInput(number, f.supplierId, f.parsedAmount, f.date,
                              Some(if f.status == "" then DEFAULT_STATUS else f.status),
                              None, OrNull(f.fileName)))
  }

  /**
   * The form passes iff no check fires; when it fails, the error reported is one that fires and
   * every check before it passes. A passing form yields a valid trimmed number, a supplier id, a
   * positive (or non-numeric) amount, a date and a status defaulting to 'da_pagare'.
   */
  lemma InvoiceFormChecks(f: InvoiceForm)
    ensures var r := ValidateInvoiceForm(f);
      && (r.Success? <==> forall e :: !Fails(e, f))
      && (r.Failure? ==> Fails(r.error, f) && forall e: InvoiceFormError :: e.Rank() < r.error.Rank() ==> !Fails(e, f))
      && (r.Success? ==> ValidateInvoiceNumber(r.value.number) && r.value.number == Trim(f.number)
                         && r.value.supplierId == f.supplierId != "" && r.value.date == f.date != ""
                         && r.value.amount == f.parsedAmount && !AtMostZero(r.value.amount)
                         && r.value.fileName == OrNull(f.fileName) && r.value.filePath.None?
                         && r.value.status == Some(if f.status == "" then DEFAULT_STATUS else f.status))
  {
    var r := ValidateInvoiceForm(f);
    var number := Trim(f.number);
    assert number == "" <==> Fails(NumberRequired, f);
    if number == "" {
      assert r == Failure(NumberRequired);
      PassesBefore(f, 0);
    } else if !ValidateInvoiceNumber(number) {
      assert r == Failure(InvalidNumber) && Fails(InvalidNumber, f);
      PassesBefore(f, 1);
    } else if f.supplierId == "" {
      assert r == Failure(SupplierRequired) && Fails(SupplierRequired, f);
      PassesBefore(f, 2);
    } else if f.amount == "" || AtMostZero(f.parsedAmount) {
      assert r == Failure(InvalidAmount) && Fails(InvalidAmount, f);
      PassesBefore(f, 3);
    } else if f.date == "" {
      assert r == Failure(DateRequired) && Fails(DateRequired, f);
      PassesBefore(f, 4);
    } else {
      assert r.Success?;
      PassesBefore(f, 5);
    }
  }

  /** Every check whose position is below `k` passes, given that each of them was seen to pass. */
  lemma PassesBefore(f: InvoiceForm, k: nat)
    requires k > 0 ==> !Fails(NumberRequired, f)
    requires k > 1 ==> !Fails(InvalidNumber, f)
    requires k > 2 ==> !Fails(SupplierRequired, f)
    requires k > 3 ==> !Fails(InvalidAmount, f)
    requires k > 4 ==> !Fails(DateRequired, f)
    ensures forall e: InvoiceFormError :: e.Rank() < k ==> !Fails(e, f)
  {
    forall e: InvoiceFormError | e.Rank() < k ensures !Fails(e, f) {
      match e
      case NumberRequired =>
      case InvalidNumber =>
      case SupplierRequired =>
      case InvalidAmount =>
      case DateRequired =>
    }
  }

  // ---------------------------------------------------------------------------------------------
  // The controller

  /** What the handlers show: a success alert or an error alert, with its message. */
  datatype Notice = SuccessNotice(message: string) | ErrorNotice(message: string)

  const SUPPLIER_MODAL := "supplier-modal"
  const INVOICE_MODAL := "invoice-modal"
  const NO_SUPPLIERS_MESSAGE := "Aggiungi almeno un fornitore prima di creare una fattura"

  /** `if (this.currentEditId)`: set and not the empty string. */
  predicate IsEditing(editId: Option<string>) {
    editId.Some? && editId.value != ""
  }

  class MarinaFattureApp {
    /** The id of the open modal, or null. */
    var currentModal: Option<string>
    /** The id of the supplier being edited, or null. */
    var currentEditId: Option<string>
    /** `window.dbManager`. */
    const db: DatabaseManager

    /** An edit id is only held while a modal is open. */
    ghost predicate Valid()
      reads this, db
    {
      db.Valid() && (currentEditId.Some? ==> currentModal.Some?)
    }

    constructor (db: DatabaseManager)
      requires db.Valid()
      ensures Valid() && this.db == db
      ensures currentModal.None? && currentEditId.None?
    {
      this.db := db;
      currentModal := None;
      currentEditId := None;
    }

    /** openSupplierModal: the supplier modal is open, editing the given supplier or adding a new one. */
    method OpenSupplierModal(supplier: Option<Supplier>)
      requires Valid()
      modifies this
      ensures Valid()
      ensures currentModal == Some(SUPPLIER_MODAL)
      ensures currentEditId == if supplier.Some? then Some(supplier.value.id) else None
    {
      currentEditId := if supplier.Some? then Some(supplier.value.id) else None;
      currentModal := Some(SUPPLIER_MODAL);
    }

    /** editSupplier: opens the modal on the supplier with that id, or reports it missing. */
    method EditSupplier(id: string) returns (notice: Option<Notice>)
      requires Valid()
      modifies this
      ensures Valid()
      ensures match FindByKey(db.suppliers, SupplierId, id)
        case None =>
          && notice == Some(ErrorNotice(ERROR_NOT_FOUND))
          && currentModal == old(currentModal) && currentEditId == old(currentEditId)
        case Some(s) =>
          notice.None? && currentModal == Some(SUPPLIER_MODAL) && currentEditId == Some(s.id)
    {
      var supplier := FindByKey(db.suppliers, SupplierId, id);
      if supplier.None? {
        return Some(ErrorNotice(ERROR_NOT_FOUND));
      }
      OpenSupplierModal(supplier);
      notice := None;
    }

    /** openInvoiceModal: refused while there are no suppliers; the edit id is left as it is. */
    method OpenInvoiceModal() returns (notice: Option<Notice>)
      requires Valid()
      modifies this
      ensures Valid()
      ensures currentEditId == old(currentEditId)
      ensures |db.suppliers| == 0 ==> notice == Some(ErrorNotice(NO_SUPPLIERS_MESSAGE)) && currentModal == old(currentModal)
      ensures |db.suppliers| > 0 ==> notice.None? && currentModal == Some(INVOICE_MODAL)
    {
      if |db.suppliers| == 0 {
        return Some(ErrorNotice(NO_SUPPLIERS_MESSAGE));
      }
      currentModal := Some(INVOICE_MODAL);
      notice := None;
    }

    /** closeModal: with a modal open, both fields become null; with none open, nothing changes. */
    method CloseModal()
      requires Valid()
      modifies this
      ensures Valid()
      ensures old(currentModal).Some? ==> currentModal.None? && currentEditId.None?
      ensures old(currentModal).None? ==> currentModal == old(currentModal) && currentEditId == old(currentEditId)
    {
      if currentModal.Some? {
        currentModal := None;
        currentEditId := None;
      }
    }

    /**
     * handleSupplierSubmit. A form that fails its checks shows the check's message and changes
     * nothing. Otherwise the supplier being edited is updated (an error leaves everything as it
     * was), or a new one with id `newId` is added; on success the modal closes.
     */
    method HandleSupplierSubmit(nameField: string, vatField: string, newId: string, now: string) returns (notice: Notice)
      requires Valid() && !HasKey(db.suppliers, SupplierId, newId)
      modifies this, db
      ensures Valid()
      ensures db.invoices == old(db.invoices)
      ensures match ValidateSupplierForm(nameField, vatField)
        case Failure(e) =>
          && notice == ErrorNotice(e.Message()) && db.suppliers == old(db.suppliers)
          && currentModal == old(currentModal) && currentEditId == old(currentEditId)
        case Success(input) =>
          if IsEditing(old(currentEditId)) then
            match UpdatedSuppliers(old(db.suppliers), old(currentEditId).value, input, now)
            case Failure(msg) =>
              && notice == ErrorNotice(msg) && db.suppliers == old(db.suppliers)
              && currentModal == old(currentModal) && currentEditId == old(currentEditId)
            case Success(updated) =>
              && notice == SuccessNotice(SUCCESS_UPDATE) && db.suppliers == updated
              && currentModal.None? && currentEditId.None?
          else
            && notice == SuccessNotice(SUCCESS_SAVE)
            && db.suppliers == old(db.suppliers) + [NewSupplier(input, newId, now)]
            && currentModal.None? && currentEditId.None?
    {
      var checked := ValidateSupplierForm(nameField, vatField);
      if checked.Failure? {
        return ErrorNotice(checked.error.Message());
      }
      notice := SaveSupplier(checked.value, newId, now);
    }

    /**
     * The second half of handleSupplierSubmit, once the form has passed its checks: update the
     * supplier being edited or add a new one, and close the modal unless the update failed.
     */
    method SaveSupplier(input: SupplierInput, newId: string, now: string) returns (notice: Notice)
      requires Valid() && !HasKey(db.suppliers, SupplierId, newId)
      modifies this, db
      ensures Valid()
      ensures db.invoices == old(db.invoices)
      ensures
        if IsEditing(old(currentEditId)) then
          match UpdatedSuppliers(old(db.suppliers), old(currentEditId).value, input, now)
          case Failure(msg) =>
            && notice == ErrorNotice(msg) && db.suppliers == old(db.suppliers)
            && currentModal == old(currentModal) && currentEditId == old(currentEditId)
          case Success(updated) =>
            && notice == SuccessNotice(SUCCESS_UPDATE) && db.suppliers == updated
            && currentModal.None? && currentEditId.None?
        else
          && notice == SuccessNotice(SUCCESS_SAVE)
          && db.suppliers == old(db.suppliers) + [NewSupplier(input, newId, now)]
          && currentModal.None? && currentEditId.None?
    {
      if IsEditing(currentEditId) {
        var updated := db.UpdateSupplier(currentEditId.value, input, now);
        if updated.Failure? {
          return ErrorNotice(updated.error);
        }
        notice := SuccessNotice(SUCCESS_UPDATE);
      } else {
        var added := db.AddSupplier(input, newId, now);
        notice := SuccessNotice(SUCCESS_SAVE);
      }
      CloseModal();
    }

    /**
     * handleInvoiceSubmit. A form that fails its checks shows the first failing check's message
     * and changes nothing; otherwise one invoice with id `newId` is appended and the modal closes.
     */
    method HandleInvoiceSubmit(form: InvoiceForm, newId: string, now: string) returns (notice: Notice)
      requires Valid() && !HasKey(db.invoices, InvoiceId, newId)
      modifies this, db
      ensures Valid()
      ensures db.suppliers == old(db.suppliers)
      ensures match ValidateInvoiceForm(form)
        case Failure(e) =>
          && notice == ErrorNotice(e.Message()) && db.invoices == old(db.invoices)
          && currentModal == old(currentModal) && currentEditId == old(currentEditId)
        case Success(input) =>
          && notice == SuccessNotice(SUCCESS_SAVE)
          && db.invoices == old(db.invoices) + [Stored(NewInvoice(input, newId, now))]
          && currentModal.None? && currentEditId.None?
    {
      var checked := ValidateInvoiceForm(form);
      if checked.Failure? {
        return ErrorNotice(checked.error.Message());
      }
      var added := db.AddInvoice(checked.value, newId, now);
      notice := SuccessNotice(SUCCESS_SAVE);
      CloseModal();
    }
  }
}
