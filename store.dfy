/**
 * The application state (`appState`) and the handlers that change it: the
 * product form, `deleteProduct`, `saveInvoice`, the three invoice deletes,
 * the availability check `validateInventory`, and the key check and merge
 * of `restoreData` / `loadData`.
 */
module Store {
  import opened Text
  import opened Ledger
  import opened Forms

  datatype Settings = Settings(gistFilename: string)

  /** A parsed backup document; `None` stands for a key that is absent or falsy. */
  datatype Backup = Backup(
    products: Option<seq<Product>>,
    inputInvoices: Option<seq<Invoice>>,
    sales151: Option<seq<Invoice>>,
    sales168: Option<seq<Invoice>>,
    settings: Option<Settings>)

  /** What the product form's save button reports. `ProductIgnored`: the edited product is gone, nothing happens. */
  datatype ProductOutcome = ProductSaved | NameRequired | NameTaken | ProductIgnored

  /** What `deleteProduct` reports. `DeleteIgnored`: no product has the id, nothing happens. */
  datatype DeleteOutcome = ProductDeleted | ProductInUse | DeleteIgnored

  /** The invoice form's `action`. */
  datatype Mode = AddMode | EditMode

  /** What `saveInvoice` reports. `EditIgnored`: the edited invoice is gone, nothing happens. */
  datatype InvoiceOutcome = Added | Updated | Refused(form: FormCheck) | InsufficientStock | EditIgnored

  predicate NameHeld(products: seq<Product>, name: string) {
    exists i :: 0 <= i < |products| && products[i].name == name
  }

  predicate NameHeldByOther(products: seq<Product>, name: string, id: string) {
    exists i :: 0 <= i < |products| && products[i].name == name && products[i].id != id
  }

  predicate DistinctNames(products: seq<Product>) {
    forall i, j :: 0 <= i < j < |products| ==> products[i].name != products[j].name
  }

  predicate DistinctIds(products: seq<Product>) {
    forall i, j :: 0 <= i < j < |products| ==> products[i].id != products[j].id
  }

  /** The invoice `saveInvoice` stores: the form's id if it has one (`modal.dataset.id || generateId()`), else a fresh one. */
  function Drafted(modalId: string, freshId: string, date: string, items: seq<Line>): Invoice {
    Invoice(if modalId != "" then modalId else freshId, date, items)
  }

  class InventoryStore {
    var products: seq<Product>
    var inputInvoices: seq<Invoice>
    var sales151: seq<Invoice>
    var sales168: seq<Invoice>
    var settings: Settings

    constructor ()
      ensures products == [] && inputInvoices == [] && sales151 == [] && sales168 == []
      ensures settings == Settings("inventory-backup.json")
    {
      products, inputInvoices, sales151, sales168 := [], [], [], [];
      settings := Settings("inventory-backup.json");
    }

    /** The four collections as one value. */
    function View(): Books
      reads this
    {
      Books(products, inputInvoices, sales151, sales168)
    }

    /** The document `backupData` writes: every key present. */
    function Snapshot(): Backup
      reads this
    {
      Backup(Some(products), Some(inputInvoices), Some(sales151), Some(sales168), Some(settings))
    }

    /** Assigns collection `c`. */
    method SetCollection(c: Channel, s: seq<Invoice>)
      modifies this
      ensures View() == old(View()).With(c, s) && settings == old(settings)
    {
      match c
      case Input => inputInvoices := s;
      case Sales151 => sales151 := s;
      case Sales168 => sales168 := s;
    }

    /**
     * `validateInventory`: each line on its own, in order, stopping at the
     * first whose product exists and whose quantity exceeds what is available
     * with invoice `ex` excluded ("" excludes nothing).
     */
    method ValidateInventory(items: seq<Line>, ex: string) returns (ok: bool)
      ensures ok <==> Sufficient(View(), items, ex)
    {
      var i := 0;
      while i < |items|
        invariant 0 <= i <= |items|
        invariant forall j :: 0 <= j < i ==> LineCovered(View(), items[j], ex)
      {
        var item := items[i];
        var product := FindProduct(products, item.productId);
        if product.Some? {
          var totalInput := SumQty(0, inputInvoices, item.productId, ex);
          var totalSales151 := SumQty(0, sales151, item.productId, ex);
          var totalSales168 := SumQty(0, sales168, item.productId, ex);
          var available := totalInput - totalSales151 - totalSales168;
          AvailableIsStockExcluding(View(), item.productId, ex);
          if available < item.quantity {
            assert !LineCovered(View(), items[i], ex);
            return false;
          }
        }
        i := i + 1;
      }
      return true;
    }

    /** The product form in add mode. */
    method AddProduct(rawName: string, freshId: string) returns (outcome: ProductOutcome)
      modifies this
      ensures inputInvoices == old(inputInvoices) && sales151 == old(sales151) && sales168 == old(sales168)
      ensures settings == old(settings)
      ensures outcome == NameRequired <==> Trim(rawName) == ""
      ensures outcome == NameTaken <==> Trim(rawName) != "" && NameHeld(old(products), Trim(rawName))
      ensures outcome != ProductIgnored
      ensures outcome == ProductSaved ==> products == old(products) + [Product(freshId, Trim(rawName))]
      ensures outcome != ProductSaved ==> products == old(products)
      ensures old(DistinctNames(products)) ==> DistinctNames(products)
      ensures old(DistinctIds(products)) && !ProductExists(old(products), freshId) ==> DistinctIds(products)
      ensures old(NoDanglingLines(View())) ==> NoDanglingLines(View())
    {
      var name := Trim(rawName);
      if name == "" {
        return NameRequired;
      }
      if NameHeld(products, name) {
        return NameTaken;
      }
      ghost var before := View();
      products := products + [Product(freshId, name)];
      AppendKeepsInvariants(before.products, Product(freshId, name));
      if NoDanglingLines(before) {
        LinesStayResolved(before, products);
        assert View() == before.(products := products);
      }
      return ProductSaved;
    }

    /** The product form in edit mode: renames the first product with id `id`. */
    method RenameProduct(id: string, rawName: string) returns (outcome: ProductOutcome)
      modifies this
      ensures inputInvoices == old(inputInvoices) && sales151 == old(sales151) && sales168 == old(sales168)
      ensures settings == old(settings)
      ensures outcome == NameRequired <==> Trim(rawName) == ""
      ensures outcome == ProductIgnored <==> Trim(rawName) != "" && !ProductExists(old(products), id)
      ensures outcome == NameTaken <==>
        Trim(rawName) != "" && ProductExists(old(products), id) && NameHeldByOther(old(products), Trim(rawName), id)
      ensures outcome == ProductSaved ==>
        var k := FindProduct(old(products), id).value;
        products == old(products)[k := Product(id, Trim(rawName))]
      ensures outcome != ProductSaved ==> products == old(products)
      ensures old(DistinctNames(products)) && old(DistinctIds(products)) ==> DistinctNames(products)
      ensures old(DistinctIds(products)) ==> DistinctIds(products)
      ensures old(NoDanglingLines(View())) ==> NoDanglingLines(View())
    {
      var name := Trim(rawName);
      if name == "" {
        return NameRequired;
      }
      var found := FindProduct(products, id);
      if found.None? {
        return ProductIgnored;
      }
      var k := found.value;
      if NameHeldByOther(products, name, products[k].id) {
        return NameTaken;
      }
      RenameKeepsInvariants(View(), k, name);
      products := products[k := Product(id, name)];
      return ProductSaved;
    }

    /** `deleteProduct`: refused while any invoice line names the product; otherwise removes every product with the id. */
    method DeleteProduct(id: string) returns (outcome: DeleteOutcome)
      modifies this
      ensures inputInvoices == old(inputInvoices) && sales151 == old(sales151) && sales168 == old(sales168)
      ensures settings == old(settings)
      ensures outcome == ProductInUse <==> old(IsProductUsed(View(), id))
      ensures outcome == DeleteIgnored <==> !old(IsProductUsed(View(), id)) && !ProductExists(old(products), id)
      ensures outcome == ProductDeleted ==> products == WithoutProduct(old(products), id) && |products| < |old(products)|
      ensures outcome != ProductDeleted ==> products == old(products)
      ensures old(NoDanglingLines(View())) ==> NoDanglingLines(View())
    {
      if IsProductUsed(View(), id) {
        return ProductInUse;
      }
      var found := FindProduct(products, id);
      if found.None? {
        return DeleteIgnored;
      }
      ghost var before := View();
      products := WithoutProduct(products, id);
      if NoDanglingLines(before) {
        UnusedRemovalKeepsLinesResolved(before, id);
        assert View() == before.(products := WithoutProduct(before.products, id));
      }
      return ProductDeleted;
    }

    /** `deleteInputInvoice`, `deleteSale151`, `deleteSale168`: drop the invoices with the id from one collection. */
    method DeleteInvoice(c: Channel, id: string) returns (deleted: bool)
      modifies this
      ensures deleted <==> FindInvoice(old(View()).Get(c), id).Some?
      ensures View() == old(View()).With(c, Without(old(View()).Get(c), id))
      ensures deleted ==> |View().Get(c)| < |old(View()).Get(c)|
      ensures settings == old(settings)
    {
      var found := FindInvoice(View().Get(c), id);
      if found.None? {
        assert Without(View().Get(c), id) == View().Get(c);
        return false;
      }
      SetCollection(c, Without(View().Get(c), id));
      return true;
    }

    /**
     * `saveInvoice`: the form checks, then, for a sale, the availability
     * check (on edit with the invoice's own id excluded), then append on
     * add or replacement at the found index on edit.
     */
    method SaveInvoice(c: Channel, mode: Mode, modalId: string, rawDate: string, rows: seq<Line>, freshId: string)
      returns (outcome: InvoiceOutcome)
      modifies this
      ensures products == old(products) && settings == old(settings)
      ensures forall d :: d != c ==> View().Get(d) == old(View()).Get(d)
      ensures !CheckForm(rawDate, rows).Accepted? ==> outcome == Refused(CheckForm(rawDate, rows))
      ensures outcome == EditIgnored <==>
        CheckForm(rawDate, rows).Accepted? && mode == EditMode && FindInvoice(old(View()).Get(c), modalId).None?
      ensures outcome == InsufficientStock <==>
        CheckForm(rawDate, rows).Accepted? && c != Input &&
        (mode == AddMode || FindInvoice(old(View()).Get(c), modalId).Some?) &&
        !Sufficient(old(View()), KeptLines(rows), if mode == AddMode then "" else modalId)
      ensures CheckForm(rawDate, rows).Accepted? && outcome != EditIgnored && outcome != InsufficientStock ==>
        outcome == (if mode == AddMode then Added else Updated)
      ensures outcome == Added ==>
        View().Get(c) == old(View()).Get(c) + [Drafted(modalId, freshId, Trim(rawDate), KeptLines(rows))]
      ensures outcome == Updated ==>
        var k := FindInvoice(old(View()).Get(c), modalId).value;
        View().Get(c) == old(View()).Get(c)[k := Drafted(modalId, freshId, Trim(rawDate), KeptLines(rows))]
      ensures outcome != Added && outcome != Updated ==> View() == old(View())
      ensures outcome == Added && c != Input ==>
        forall l :: l in KeptLines(rows) && ProductExists(products, l.productId) ==> Stock(View(), l.productId) >= 0
      ensures outcome == Updated && c != Input && modalId != "" &&
              HeldOnlyAt(old(View()), c, FindInvoice(old(View()).Get(c), modalId).value) ==>
        forall l :: l in KeptLines(rows) && ProductExists(products, l.productId) ==> Stock(View(), l.productId) >= 0
    {
      var form := CheckForm(rawDate, rows);
      if !form.Accepted? {
        return Refused(form);
      }
      var inv := Drafted(modalId, freshId, form.date, form.items);
      ghost var before := View();
      if mode == AddMode {
        if c != Input {
          var ok := ValidateInventory(form.items, "");
          if !ok {
            return InsufficientStock;
          }
        }
        SetCollection(c, View().Get(c) + [inv]);
        if c != Input {
          forall l | l in form.items && ProductExists(products, l.productId)
            ensures Stock(View(), l.productId) >= 0
          {
            LineFound(form.items, l);
            AcceptedSaleKeepsStock(before, c, inv, l.productId);
          }
        }
        return Added;
      }
      var found := FindInvoice(View().Get(c), modalId);
      if found.None? {
        return EditIgnored;
      }
      var k := found.value;
      if c != Input {
        var ok := ValidateInventory(form.items, modalId);
        if !ok {
          return InsufficientStock;
        }
      }
      SetCollection(c, View().Get(c)[k := inv]);
      if c != Input && modalId != "" && HeldOnlyAt(before, c, k) {
        forall l | l in form.items && ProductExists(products, l.productId)
          ensures Stock(View(), l.productId) >= 0
        {
          LineFound(form.items, l);
          AcceptedEditKeepsStock(before, c, k, inv, l.productId);
        }
      }
      return Updated;
    }

    /** `loadData`'s merge `{ ...appState, ...data }`: every key the document has overrides the state's. */
    method Load(doc: Backup)
      modifies this
      ensures products == (if doc.products.Some? then doc.products.value else old(products))
      ensures inputInvoices == (if doc.inputInvoices.Some? then doc.inputInvoices.value else old(inputInvoices))
      ensures sales151 == (if doc.sales151.Some? then doc.sales151.value else old(sales151))
      ensures sales168 == (if doc.sales168.Some? then doc.sales168.value else old(sales168))
      ensures settings == (if doc.settings.Some? then doc.settings.value else old(settings))
    {
      if doc.products.Some? { products := doc.products.value; }
      if doc.inputInvoices.Some? { inputInvoices := doc.inputInvoices.value; }
      if doc.sales151.Some? { sales151 := doc.sales151.value; }
      if doc.sales168.Some? { sales168 := doc.sales168.value; }
      if doc.settings.Some? { settings := doc.settings.value; }
    }

    /** `restoreData`: a document lacking any of the four collections is refused whole; otherwise it is merged. */
    method Restore(doc: Backup) returns (ok: bool)
      modifies this
      ensures ok <==> doc.products.Some? && doc.inputInvoices.Some? && doc.sales151.Some? && doc.sales168.Some?
      ensures ok ==> View() == Books(doc.products.value, doc.inputInvoices.value, doc.sales151.value, doc.sales168.value)
      ensures ok ==> settings == (if doc.settings.Some? then doc.settings.value else old(settings))
      ensures !ok ==> Snapshot() == old(Snapshot())
      ensures doc == old(Snapshot()) ==> ok && Snapshot() == old(Snapshot())
    {
      if doc.products.None? || doc.inputInvoices.None? || doc.sales151.None? || doc.sales168.None? {
        return false;
      }
      Load(doc);
      return true;
    }
  }

  /** A line of a list is found by `FindLine` under its own product id. */
  lemma LineFound(items: seq<Line>, l: Line)
    requires l in items
    ensures FindLine(items, l.productId).Some?
  {
    var j :| 0 <= j < |items| && items[j] == l;
    assert items[j].productId == l.productId;
  }

  /**
   * Renaming product `k` to a name no product with another id holds keeps
   * every id present (so every line stays resolved), keeps ids distinct, and
   * keeps names distinct if ids are.
   */
  lemma RenameKeepsInvariants(b: Books, k: nat, name: string)
    requires k < |b.products| && !NameHeldByOther(b.products, name, b.products[k].id)
    ensures var ps' := b.products[k := Product(b.products[k].id, name)];
      && (DistinctIds(b.products) ==> DistinctIds(ps'))
      && (DistinctNames(b.products) && DistinctIds(b.products) ==> DistinctNames(ps'))
      && (NoDanglingLines(b) ==> NoDanglingLines(b.(products := ps')))
  {
    var ps := b.products;
    var ps' := ps[k := Product(ps[k].id, name)];
    forall i | 0 <= i < |ps| ensures ProductExists(ps', ps[i].id) {
      assert ps'[i].id == ps[i].id;
    }
    if DistinctIds(ps) {
      forall j | 0 <= j < |ps| && j != k ensures ps'[j].name != name {
        assert ps[j].id != ps[k].id;
      }
    }
    if NoDanglingLines(b) {
      LinesStayResolved(b, ps');
    }
  }

  /** Appending a product whose name is new keeps every id present, keeps names distinct, and keeps ids distinct when its id is new. */
  lemma AppendKeepsInvariants(ps: seq<Product>, p: Product)
    requires !NameHeld(ps, p.name)
    ensures forall i :: 0 <= i < |ps| ==> ProductExists(ps + [p], ps[i].id)
    ensures DistinctNames(ps) ==> DistinctNames(ps + [p])
    ensures DistinctIds(ps) && !ProductExists(ps, p.id) ==> DistinctIds(ps + [p])
  {
    var ps' := ps + [p];
    forall i | 0 <= i < |ps| ensures ProductExists(ps', ps[i].id) {
      assert ps'[i] == ps[i];
    }
  }
}
