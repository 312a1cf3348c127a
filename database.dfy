/**
 * DatabaseManager from js/database.js, in its browser-storage mode (no remote database connected):
 * the supplier and invoice tables are two lists that every operation reads, changes and writes back.
 * The storage keys `marina_suppliers` and `marina_invoices` become the fields `suppliers` and
 * `invoices`; identifiers and timestamps are supplied by the caller.
 */
module Database {
  import opened Wrappers
  import opened JsString
  import opened JsNumber
  import opened JsArray
  import Config

  /** A stored supplier. `updatedAt` is absent until the first update. */
  datatype Supplier = Supplier(id: string, name: string, vat: Option<string>, createdAt: string, updatedAt: Option<string>)

  /** The `{ name, vat }` object passed to addSupplier and updateSupplier. */
  datatype SupplierInput = SupplierInput(name: string, vat: Option<string>)

  /**
   * An invoice record. `amount` is the value `parseFloat` gave, or `null` (None) once a NaN amount
   * has been written to storage and read back.
   */
  datatype Invoice = Invoice(
    id: string, number: string, supplierId: string, amount: Option<Number>, date: string,
    status: string, filePath: Option<string>, fileName: Option<string>, createdAt: string)

  /** The object passed to addInvoice; `amount` is the value `parseFloat` gives for it. */
  datatype InvoiceInput = InvoiceInput(
    number: string, supplierId: string, amount: Number, date: string,
    status: Option<string>, filePath: Option<string>, fileName: Option<string>)

  /** An invoice as getInvoices and addInvoice return it: the record and the supplier found by its id, if any. */
  datatype InvoiceView = InvoiceView(invoice: Invoice, supplier: Option<Supplier>)

  /** What getStats returns. */
  datatype Stats = Stats(totalSuppliers: nat, totalInvoices: nat, totalAmount: Number)

  /** The status an invoice gets when none is given. */
  const DEFAULT_STATUS := "da_pagare"

  function SupplierId(s: Supplier): string { s.id }

  function InvoiceId(i: Invoice): string { i.id }

  /** The key findOrCreateSupplier compares names by: `name.toLowerCase().trim()`. */
  function NameKey(s: Supplier): string { Trim(ToLower(s.name)) }

  /** `x || null` on an optional string (the empty string is falsy). */
  function OrNull(x: Option<string>): (r: Option<string>)
    ensures r.None? <==> x.None? || x == Some("")
    ensures r.Some? ==> r == x
  {
    if x == Some("") then None else x
  }

  /** `vat ? vat.trim().toUpperCase() : null`: absent when missing or empty, else trimmed with no lower-case ASCII letter. */
  function NormalizeVat(vat: Option<string>): (r: Option<string>)
    ensures r.None? <==> vat.None? || vat == Some("")
    ensures r.Some? ==> r.value == ToUpper(Trim(vat.value))
    ensures r.Some? ==> IsTrimmed(r.value) && forall i :: 0 <= i < |r.value| ==> !('a' <= r.value[i] <= 'z')
  {
    match OrNull(vat)
    case None => None
    case Some(v) => Some(ToUpper(Trim(v)))
  }

  /** The record addSupplier builds: a trimmed name, a normalised VAT number, no update time. */
  function NewSupplier(input: SupplierInput, id: string, now: string): (r: Supplier)
    ensures r.id == id && r.createdAt == now && r.updatedAt.None?
    ensures r.name == Trim(input.name) && r.vat == NormalizeVat(input.vat)
    ensures IsTrimmed(r.name) && (r.name == [] <==> IsBlank(input.name))
  {
    Supplier(id, Trim(input.name), NormalizeVat(input.vat), now, None)
  }

  /** `{ ...old, name, vat, updated_at }`: the record updateSupplier stores. */
  function Merge(stored: Supplier, input: SupplierInput, now: string): Supplier {
    stored.(name := Trim(input.name), vat := NormalizeVat(input.vat), updatedAt := Some(now))
  }

  /**
   * The supplier list after updateSupplier: the NOT_FOUND error for an absent id, caught and
   * rethrown as the database error; otherwise only the first record with that id changes, getting
   * the new name, VAT number and update time while keeping its id and creation time.
   */
  function UpdatedSuppliers(s: seq<Supplier>, id: string, input: SupplierInput, now: string): (r: Result<seq<Supplier>, string>)
    ensures r.Failure? <==> !HasKey(s, SupplierId, id)
    ensures r.Failure? ==> r.error == Config.ERROR_DATABASE
    ensures r.Success? ==> |r.value| == |s|
    ensures r.Success? ==> forall j :: 0 <= j < |s| ==>
      if s[j].id == id && (forall m :: 0 <= m < j ==> s[m].id != id) then
        && r.value[j].id == s[j].id && r.value[j].createdAt == s[j].createdAt
        && r.value[j].name == Trim(input.name) && r.value[j].vat == NormalizeVat(input.vat)
        && r.value[j].updatedAt == Some(now)
      else r.value[j] == s[j]
  {
    match IndexOfKey(s, SupplierId, id)
    case None => Failure(Config.ERROR_DATABASE)
    case Some(i) =>
      var merged := Merge(s[i], input, now);
      ReplaceFirst(s, id, i, merged);
      Success(s[i := merged])
  }

  /** Replacing the first record with id `id` changes that record and no other. */
  lemma ReplaceFirst(s: seq<Supplier>, id: string, i: nat, x: Supplier)
    requires i < |s| && s[i].id == id && forall m :: 0 <= m < i ==> s[m].id != id
    ensures forall j :: 0 <= j < |s| ==>
      if s[j].id == id && (forall m :: 0 <= m < j ==> s[m].id != id) then s[i := x][j] == x
      else s[i := x][j] == s[j]
  {
  }

  /** The record addInvoice builds: a trimmed number, and `status || 'da_pagare'`, `file_path || null`, `file_name || null`. */
  function NewInvoice(input: InvoiceInput, id: string, now: string): (r: Invoice)
    ensures r.id == id && r.createdAt == now
    ensures r.number == Trim(input.number) && IsTrimmed(r.number)
    ensures r.supplierId == input.supplierId && r.amount == Some(input.amount) && r.date == input.date
    ensures r.status != "" && (r.status == DEFAULT_STATUS <==> input.status.None? || input.status == Some("") || input.status == Some(DEFAULT_STATUS))
    ensures input.status.Some? && input.status.value != "" ==> r.status == input.status.value
    ensures r.filePath == OrNull(input.filePath) && r.fileName == OrNull(input.fileName)
    ensures r.filePath != Some("") && r.fileName != Some("")
  {
    Invoice(id, Trim(input.number), input.supplierId, Some(input.amount), input.date,
            match OrNull(input.status) case None => DEFAULT_STATUS case Some(st) => st,
            OrNull(input.filePath), OrNull(input.fileName), now)
  }

  /** An invoice as `JSON.stringify` saves it and `JSON.parse` reads it back: a NaN amount becomes null. */
  function Stored(inv: Invoice): (r: Invoice)
    ensures r.amount != Some(NaN)
    ensures inv.amount != Some(NaN) ==> r == inv
    ensures inv.amount == Some(NaN) ==> r == inv.(amount := None)
  {
    inv.(amount := match inv.amount case Some(x) => JsonNumber(x) case None => None)
  }

  /** No stored amount is NaN: JSON has no way to write one. */
  predicate NoNaN(invoices: seq<Invoice>) {
    forall i :: 0 <= i < |invoices| ==> invoices[i].amount != Some(NaN)
  }

  /** Storing a record never puts a NaN amount in the list. */
  lemma StoredKeepsNoNaN(invoices: seq<Invoice>, inv: Invoice)
    requires NoNaN(invoices)
    ensures NoNaN(invoices + [Stored(inv)])
  {
    var t := invoices + [Stored(inv)];
    forall i | 0 <= i < |t| ensures t[i].amount != Some(NaN) {
      if i < |invoices| {
        assert t[i] == invoices[i];
      }
    }
  }

  /** getInvoices: one entry per stored invoice, in order, each joined to the first supplier with its `supplier_id`. */
  function Join(invoices: seq<Invoice>, suppliers: seq<Supplier>): (r: seq<InvoiceView>)
    ensures |r| == |invoices|
    ensures forall i :: 0 <= i < |invoices| ==>
      r[i].invoice == invoices[i] && r[i].supplier == FindByKey(suppliers, SupplierId, invoices[i].supplierId)
  {
    if invoices == [] then []
    else [InvoiceView(invoices[0], FindByKey(suppliers, SupplierId, invoices[0].supplierId))] + Join(invoices[1..], suppliers)
  }

  /** updateInvoiceStatus: every invoice with the id gets the new status; nothing else changes. */
  function SetStatus(invoices: seq<Invoice>, id: string, status: string): (r: seq<Invoice>)
    ensures |r| == |invoices|
    ensures forall i :: 0 <= i < |invoices| ==>
      r[i] == if invoices[i].id == id then invoices[i].(status := status) else invoices[i]
  {
    if invoices == [] then []
    else [if invoices[0].id == id then invoices[0].(status := status) else invoices[0]]
         + SetStatus(invoices[1..], id, status)
  }

  /**
   * `invoices.reduce((sum, i) => sum + i.amount, 0)`, where a null amount adds 0: NaN iff some
   * amount is NaN, so never NaN on a list read back from storage.
   */
  function TotalAmount(invoices: seq<Invoice>): (r: Number)
    ensures r == NaN <==> exists i :: 0 <= i < |invoices| && invoices[i].amount == Some(NaN)
    ensures NoNaN(invoices) ==> r.Num?
  {
    if invoices == [] then Num(0.0)
    else AddNullable(TotalAmount(invoices[..|invoices| - 1]), invoices[|invoices| - 1].amount)
  }

  /** findOrCreateSupplier on the supplier list: the new list and the id it returns. */
  function FindOrCreate(s: seq<Supplier>, name: string, id: string, now: string): (seq<Supplier>, string) {
    match IndexOfKey(s, NameKey, Trim(ToLower(name)))
    case Some(j) => (s, s[j].id)
    case None => (s + [NewSupplier(SupplierInput(Trim(name), None), id, now)], id)
  }

  /**
   * The id of the first supplier whose name matches case-insensitively after trimming, with the
   * list unchanged; otherwise the id of a supplier appended with the trimmed name and no VAT number.
   */
  lemma FindOrCreateSpec(s: seq<Supplier>, name: string, id: string, now: string)
    ensures var r := FindOrCreate(s, name, id, now);
      && (HasKey(s, NameKey, Trim(ToLower(name))) ==>
          && r.0 == s
          && exists j :: 0 <= j < |s| && NameKey(s[j]) == Trim(ToLower(name)) && r.1 == s[j].id
                         && forall m :: 0 <= m < j ==> NameKey(s[m]) != Trim(ToLower(name)))
      && (!HasKey(s, NameKey, Trim(ToLower(name))) ==>
          r.0 == s + [Supplier(id, Trim(name), None, now, None)] && r.1 == id)
  {
    var key := Trim(ToLower(name));
    var r := FindOrCreate(s, name, id, now);
    var found := IndexOfKey(s, NameKey, key);
    if found.Some? {
      var j := found.value;
      assert r == (s, s[j].id);
      assert 0 <= j < |s| && NameKey(s[j]) == key && r.1 == s[j].id && forall m :: 0 <= m < j ==> NameKey(s[m]) != key;
    } else {
      assert NewSupplier(SupplierInput(Trim(name), None), id, now) == Supplier(id, Trim(name), None, now, None);
    }
  }

  /** The name key of a supplier created from `name` is the key `name` was looked up by. */
  lemma CreatedNameKey(name: string)
    ensures Trim(ToLower(Trim(name))) == Trim(ToLower(name))
  {
    TrimLower(Trim(name));
    TrimLower(name);
  }

  /**
   * Looking a name up twice adds at most one supplier: the second call finds the supplier the
   * first one found or created, returns its id, and leaves the list as the first call left it.
   */
  lemma {:induction false} FindOrCreateTwice(s: seq<Supplier>, name: string, id1: string, now1: string, id2: string, now2: string)
    ensures var (s1, r1) := FindOrCreate(s, name, id1, now1);
            FindOrCreate(s1, name, id2, now2) == (s1, r1)
  {
    var key := Trim(ToLower(name));
    if !HasKey(s, NameKey, key) {
      var created := NewSupplier(SupplierInput(Trim(name), None), id1, now1);
      CreatedNameKey(name);
      IndexOfKeyAppendNew(s, NameKey, key, created);
    }
  }

  /**
   * Deleting a supplier leaves the invoices alone; afterwards every invoice that referred to it is
   * joined to no supplier, and every other invoice to the supplier it was joined to before.
   */
  lemma DeleteSupplierJoin(invoices: seq<Invoice>, suppliers: seq<Supplier>, id: string)
    ensures var before := Join(invoices, suppliers);
            var after := Join(invoices, RemoveKey(suppliers, SupplierId, id));
            forall i :: 0 <= i < |invoices| ==>
              after[i].invoice == invoices[i]
              && after[i].supplier == if invoices[i].supplierId == id then None else before[i].supplier
  {
    forall i | 0 <= i < |invoices| && invoices[i].supplierId != id
      ensures FindByKey(RemoveKey(suppliers, SupplierId, id), SupplierId, invoices[i].supplierId)
           == FindByKey(suppliers, SupplierId, invoices[i].supplierId)
    {
      FindByKeyAfterRemove(suppliers, SupplierId, id, invoices[i].supplierId);
    }
  }

  /** Summing after appending one invoice adds its amount to the previous total. */
  lemma {:induction false} TotalAmountConcat(a: seq<Invoice>, b: seq<Invoice>)
    ensures TotalAmount(a + b) == Add(TotalAmount(a), TotalAmount(b))
    decreases |b|
  {
    if b == [] {
      assert a + b == a;
    } else {
      var c := b[..|b| - 1];
      assert (a + b)[..|a + b| - 1] == a + c;
      assert (a + b)[|a + b| - 1] == b[|b| - 1];
      TotalAmountConcat(a, c);
      AddNullableAssoc(TotalAmount(a), TotalAmount(c), b[|b| - 1].amount);
    }
  }

  /** An invoice whose amount is not a number is stored with a null amount and adds nothing to the total. */
  lemma NaNInvoiceAddsNothing(invoices: seq<Invoice>, inv: Invoice)
    requires inv.amount == Some(NaN)
    ensures TotalAmount(invoices + [Stored(inv)]) == TotalAmount(invoices)
  {
    var s := invoices + [Stored(inv)];
    assert s[..|s| - 1] == invoices;
  }

  class DatabaseManager {
    /** The parsed contents of `marina_suppliers`. */
    var suppliers: seq<Supplier>
    /** The parsed contents of `marina_invoices`. */
    var invoices: seq<Invoice>

    /**
     * Every id is fresh when it is generated, so ids are unique in each table; amounts went
     * through JSON, so none is NaN.
     */
    ghost predicate Valid()
      reads this
    {
      UniqueKeys(suppliers, SupplierId) && UniqueKeys(invoices, InvoiceId) && NoNaN(invoices)
    }

    /** A manager over whatever the browser storage already holds. */
    constructor (storedSuppliers: seq<Supplier>, storedInvoices: seq<Invoice>)
      requires UniqueKeys(storedSuppliers, SupplierId) && UniqueKeys(storedInvoices, InvoiceId)
      requires NoNaN(storedInvoices)
      ensures Valid()
      ensures suppliers == storedSuppliers && invoices == storedInvoices
    {
      suppliers := storedSuppliers;
      invoices := storedInvoices;
    }

    method GetSuppliers() returns (r: seq<Supplier>)
      ensures r == suppliers
    {
      r := suppliers;
    }

    /** addSupplier: one record appended at the end; earlier records and the invoices are untouched. */
    method AddSupplier(input: SupplierInput, id: string, now: string) returns (r: Supplier)
      requires Valid() && !HasKey(suppliers, SupplierId, id)
      modifies this
      ensures Valid()
      ensures r == NewSupplier(input, id, now)
      ensures suppliers == old(suppliers) + [r]
      ensures invoices == old(invoices)
    {
      r := NewSupplier(input, id, now);
      AppendUnique(suppliers, r, SupplierId);
      suppliers := suppliers + [r];
    }

    /** updateSupplier: fails with the database error and changes nothing when the id is absent. */
    method UpdateSupplier(id: string, input: SupplierInput, now: string) returns (r: Result<Supplier, string>)
      requires Valid()
      modifies this
      ensures Valid()
      ensures invoices == old(invoices)
      ensures match UpdatedSuppliers(old(suppliers), id, input, now)
        case Failure(e) => r == Failure(e) && suppliers == old(suppliers)
        case Success(ns) => suppliers == ns && r.Success? && r.value in ns && r.value.id == id
    {
      var index := IndexOfKey(suppliers, SupplierId, id);
      if index.None? {
        return Failure(Config.ERROR_DATABASE);
      }
      var i := index.value;
      suppliers := suppliers[i := Merge(suppliers[i], input, now)];
      r := Success(suppliers[i]);
    }

    /** deleteSupplier: every record with the id is filtered out; returns true even when none was there. */
    method DeleteSupplier(id: string) returns (ok: bool)
      requires Valid()
      modifies this
      ensures Valid()
      ensures ok
      ensures suppliers == RemoveKey(old(suppliers), SupplierId, id)
      ensures |suppliers| == if HasKey(old(suppliers), SupplierId, id) then |old(suppliers)| - 1 else |old(suppliers)|
      ensures invoices == old(invoices)
    {
      if HasKey(suppliers, SupplierId, id) {
        RemoveKeyUniqueLength(suppliers, SupplierId, id);
      }
      RemoveKeyUnique(suppliers, SupplierId, id);
      suppliers := RemoveKey(suppliers, SupplierId, id);
      ok := true;
    }

    /** getInvoices. */
    method GetInvoices() returns (r: seq<InvoiceView>)
      ensures r == Join(invoices, suppliers)
    {
      r := Join(invoices, suppliers);
    }

    /**
     * addInvoice: the new record is appended as JSON stores it (a NaN amount as null); the returned
     * copy keeps the parsed amount and carries its supplier, if one has its id.
     */
    method AddInvoice(input: InvoiceInput, id: string, now: string) returns (r: InvoiceView)
      requires Valid() && !HasKey(invoices, InvoiceId, id)
      modifies this
      ensures Valid()
      ensures r.invoice == NewInvoice(input, id, now)
      ensures r.supplier == FindByKey(suppliers, SupplierId, input.supplierId)
      ensures invoices == old(invoices) + [Stored(r.invoice)]
      ensures suppliers == old(suppliers)
    {
      var inv := NewInvoice(input, id, now);
      AppendUnique(invoices, Stored(inv), InvoiceId);
      StoredKeepsNoNaN(invoices, inv);
      invoices := invoices + [Stored(inv)];
      r := InvoiceView(inv, FindByKey(suppliers, SupplierId, inv.supplierId));
    }

    /** deleteInvoice. */
    method DeleteInvoice(id: string) returns (ok: bool)
      requires Valid()
      modifies this
      ensures Valid()
      ensures ok
      ensures invoices == RemoveKey(old(invoices), InvoiceId, id)
      ensures |invoices| == if HasKey(old(invoices), InvoiceId, id) then |old(invoices)| - 1 else |old(invoices)|
      ensures suppliers == old(suppliers)
    {
      if HasKey(invoices, InvoiceId, id) {
        RemoveKeyUniqueLength(invoices, InvoiceId, id);
      }
      RemoveKeyUnique(invoices, InvoiceId, id);
      invoices := RemoveKey(invoices, InvoiceId, id);
      ok := true;
    }

    /** findOrCreateSupplier; `id` is the identifier a new supplier would get. */
    method FindOrCreateSupplier(name: string, id: string, now: string) returns (r: string)
      requires Valid() && !HasKey(suppliers, SupplierId, id)
      modifies this
      ensures Valid()
      ensures (suppliers, r) == FindOrCreate(old(suppliers), name, id, now)
      ensures invoices == old(invoices)
    {
      var existing := IndexOfKey(suppliers, NameKey, Trim(ToLower(name)));
      if existing.Some? {
        return suppliers[existing.value].id;
      }
      var created := AddSupplier(SupplierInput(Trim(name), None), id, now);
      r := created.id;
    }

    /** updateInvoiceStatus. */
    method UpdateInvoiceStatus(id: string, status: string) returns (ok: bool)
      requires Valid()
      modifies this
      ensures Valid()
      ensures ok
      ensures invoices == SetStatus(old(invoices), id, status)
      ensures suppliers == old(suppliers)
    {
      invoices := SetStatus(invoices, id, status);
      ok := true;
    }

    /** getStats: the sizes of both tables and the sum of the invoice amounts. */
    method GetStats() returns (st: Stats)
      requires Valid()
      ensures st.totalSuppliers == |suppliers| && st.totalInvoices == |invoices|
      ensures st.totalAmount == TotalAmount(invoices) && st.totalAmount.Num?
    {
      var all := GetInvoices();
      st := Stats(|suppliers|, |all|, TotalAmount(invoices));
    }
  }
}
