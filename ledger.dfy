/**
 * The stock ledger: the records the application keeps, the `find`/`reduce`
 * sums that derive stock from them, the usage scan that guards product
 * deletion, and what these sums promise when invoices are appended,
 * replaced, removed or excluded.
 */
module Ledger {

  datatype Option<T> = None | Some(value: T)

  datatype Product = Product(id: string, name: string)

  /** One line of an invoice: a product reference and a quantity. */
  datatype Line = Line(productId: string, quantity: int)

  /** An input (purchase) invoice or a sale; which it is depends on the collection holding it. */
  datatype Invoice = Invoice(id: string, date: string, items: seq<Line>)

  /** The three invoice collections, told apart by the invoice form's `type`: 'input', 'sales-151' or 'sales-168'. */
  datatype Channel = Input | Sales151 | Sales168

  /** The four collections of the application state (`products`, `inputInvoices`, `sales151`, `sales168`). */
  datatype Books = Books(products: seq<Product>, inputInvoices: seq<Invoice>, sales151: seq<Invoice>, sales168: seq<Invoice>)
  {
    function Get(c: Channel): seq<Invoice> {
      match c
      case Input => inputInvoices
      case Sales151 => sales151
      case Sales168 => sales168
    }

    /** These books with collection `c` replaced by `s`; nothing else differs. */
    function With(c: Channel, s: seq<Invoice>): (b: Books)
      ensures b.Get(c) == s && b.products == products
      ensures forall d :: d != c ==> b.Get(d) == Get(d)
    {
      match c
      case Input => this.(inputInvoices := s)
      case Sales151 => this.(sales151 := s)
      case Sales168 => this.(sales168 := s)
    }

    /**
     * The books as the availability check sees them when told to exclude
     * invoice `ex`: a falsy (empty) id excludes nothing; any other id removes
     * every invoice carrying it from all three collections.
     */
    function Excluding(ex: string): (b: Books)
      ensures b.products == products
      ensures ex == "" ==> b == this
      ensures ex != "" ==> forall d :: b.Get(d) == Without(Get(d), ex)
    {
      if ex == "" then this
      else Books(products, Without(inputInvoices, ex), Without(sales151, ex), Without(sales168, ex))
    }
  }

  /** A row of the inventory table. */
  datatype StockRow = StockRow(name: string, totalInput: int, totalSales: int, finalStock: int)

  /** The colour band of a stock figure in the inventory table. */
  datatype Band = Critical | Low | Healthy

  /** `items.find(i => i.productId === pid)`, as an index: the first line for the product, if any. */
  function FindLine(items: seq<Line>, pid: string): (r: Option<nat>)
    ensures r.Some? ==> r.value < |items| && items[r.value].productId == pid
    ensures r.Some? ==> forall j :: 0 <= j < r.value ==> items[j].productId != pid
    ensures r.None? <==> forall j :: 0 <= j < |items| ==> items[j].productId != pid
  {
    if items == [] then None
    else if items[0].productId == pid then Some(0)
    else match FindLine(items[1..], pid)
      case None => None
      case Some(k) => Some(k + 1)
  }

  /** `products.find(p => p.id === id)`, as an index. */
  function FindProduct(products: seq<Product>, id: string): (r: Option<nat>)
    ensures r.Some? ==> r.value < |products| && products[r.value].id == id
    ensures r.Some? ==> forall j :: 0 <= j < r.value ==> products[j].id != id
    ensures r.None? <==> forall j :: 0 <= j < |products| ==> products[j].id != id
  {
    if products == [] then None
    else if products[0].id == id then Some(0)
    else match FindProduct(products[1..], id)
      case None => None
      case Some(k) => Some(k + 1)
  }

  /** `invoices.findIndex(i => i.id === id)`, with `None` for -1. */
  function FindInvoice(invs: seq<Invoice>, id: string): (r: Option<nat>)
    ensures r.Some? ==> r.value < |invs| && invs[r.value].id == id
    ensures r.Some? ==> forall j :: 0 <= j < r.value ==> invs[j].id != id
    ensures r.None? <==> forall j :: 0 <= j < |invs| ==> invs[j].id != id
  {
    if invs == [] then None
    else if invs[0].id == id then Some(0)
    else match FindInvoice(invs[1..], id)
      case None => None
      case Some(k) => Some(k + 1)
  }

  predicate ProductExists(products: seq<Product>, id: string) {
    exists i :: 0 <= i < |products| && products[i].id == id
  }

  /** What one invoice adds to a product's sum: the quantity of its first line for the product, or 0. */
  function LineQty(items: seq<Line>, pid: string): int {
    match FindLine(items, pid)
    case Some(k) => items[k].quantity
    case None => 0
  }

  /** The availability check skips an invoice whose id equals a truthy exclude id. */
  predicate Skipped(inv: Invoice, ex: string) {
    ex != "" && inv.id == ex
  }

  /**
   * The `reduce` of the inventory table and of the availability check, a left
   * fold from `acc`: each invoice not skipped adds its first-line quantity.
   * With `ex == ""` nothing is skipped, which is the inventory table's sum.
   */
  function SumQty(acc: int, invs: seq<Invoice>, pid: string, ex: string): int
    decreases |invs|
  {
    if invs == [] then acc
    else SumQty(if Skipped(invs[0], ex) then acc else acc + LineQty(invs[0].items, pid), invs[1..], pid, ex)
  }

  /** Reference definition: the product's quantity summed over a collection, one first-line quantity per invoice. */
  function Total(invs: seq<Invoice>, pid: string): int {
    if invs == [] then 0 else LineQty(invs[0].items, pid) + Total(invs[1..], pid)
  }

  /** Reference definition of current stock: received minus sold through both channels. */
  function Stock(b: Books, pid: string): int {
    Total(b.inputInvoices, pid) - (Total(b.sales151, pid) + Total(b.sales168, pid))
  }

  /** `invoices.filter(i => i.id !== id)`: every invoice with another id, in order. */
  function Without(invs: seq<Invoice>, id: string): (r: seq<Invoice>)
    ensures |r| <= |invs|
    ensures forall i :: 0 <= i < |r| ==> r[i].id != id && r[i] in invs
    ensures forall i :: 0 <= i < |invs| && invs[i].id != id ==> invs[i] in r
    ensures (forall i :: 0 <= i < |invs| ==> invs[i].id != id) ==> r == invs
    ensures (exists i :: 0 <= i < |invs| && invs[i].id == id) ==> |r| < |invs|
  {
    if invs == [] then []
    else if invs[0].id == id then Without(invs[1..], id)
    else [invs[0]] + Without(invs[1..], id)
  }

  /** `products.filter(p => p.id !== id)`: every product with another id, in order. */
  function WithoutProduct(products: seq<Product>, id: string): (r: seq<Product>)
    ensures |r| <= |products|
    ensures forall i :: 0 <= i < |r| ==> r[i].id != id && r[i] in products
    ensures forall i :: 0 <= i < |products| && products[i].id != id ==> products[i] in r
    ensures ProductExists(products, id) ==> |r| < |products|
  {
    if products == [] then []
    else if products[0].id == id then WithoutProduct(products[1..], id)
    else [products[0]] + WithoutProduct(products[1..], id)
  }

  /**
   * `filter` keeps order and multiplicity: cutting the collection anywhere
   * around one invoice, the result is the filtered front, that invoice when
   * its id differs, then the filtered back.
   */
  lemma {:induction false} WithoutSplit(front: seq<Invoice>, x: Invoice, back: seq<Invoice>, id: string)
    ensures Without(front + [x] + back, id) == Without(front, id) + (if x.id != id then [x] else []) + Without(back, id)
  {
    var l, m, r := Without(front, id), Without([x], id), Without(back, id);
    WithoutAppend(front + [x], back, id);
    WithoutAppend(front, [x], id);
    WithoutOne(x, id);
    assert Without(front + [x], id) == l + m;
    assert m == (if x.id != id then [x] else []);
  }

  /** A single element survives exactly when the filter keeps it. */
  lemma WithoutOne(x: Invoice, id: string)
    ensures Without([x], id) == (if x.id != id then [x] else [])
  {
    assert [x][1..] == [];
  }

  /** The filter distributes over concatenation. */
  lemma {:induction false} WithoutAppend(front: seq<Invoice>, back: seq<Invoice>, id: string)
    ensures Without(front + back, id) == Without(front, id) + Without(back, id)
  {
    if front == [] {
      assert front + back == back;
    } else {
      assert (front + back)[0] == front[0];
      assert (front + back)[1..] == front[1..] + back;
      WithoutAppend(front[1..], back, id);
    }
  }

  /** The product filter keeps order and multiplicity in the same way. */
  lemma {:induction false} WithoutProductSplit(front: seq<Product>, x: Product, back: seq<Product>, id: string)
    ensures WithoutProduct(front + [x] + back, id) ==
      WithoutProduct(front, id) + (if x.id != id then [x] else []) + WithoutProduct(back, id)
  {
    var l, m, r := WithoutProduct(front, id), WithoutProduct([x], id), WithoutProduct(back, id);
    WithoutProductAppend(front + [x], back, id);
    WithoutProductAppend(front, [x], id);
    WithoutProductOne(x, id);
    assert WithoutProduct(front + [x], id) == l + m;
    assert m == (if x.id != id then [x] else []);
  }

  /** A single element survives exactly when the filter keeps it. */
  lemma WithoutProductOne(x: Product, id: string)
    ensures WithoutProduct([x], id) == (if x.id != id then [x] else [])
  {
    assert [x][1..] == [];
  }

  /** The filter distributes over concatenation. */
  lemma {:induction false} WithoutProductAppend(front: seq<Product>, back: seq<Product>, id: string)
    ensures WithoutProduct(front + back, id) == WithoutProduct(front, id) + WithoutProduct(back, id)
  {
    if front == [] {
      assert front + back == back;
    } else {
      assert (front + back)[0] == front[0];
      assert (front + back)[1..] == front[1..] + back;
      WithoutProductAppend(front[1..], back, id);
    }
  }

  // ---------------------------------------------------------------------------
  // The fold computes the reference sums
  // ---------------------------------------------------------------------------

  /** The fold with exclusion id `ex` is the reference sum over the collection as `Excluding(ex)` leaves it. */
  lemma {:induction false} SumQtyIsTotal(acc: int, invs: seq<Invoice>, pid: string, ex: string)
    ensures ex == "" ==> SumQty(acc, invs, pid, ex) == acc + Total(invs, pid)
    ensures ex != "" ==> SumQty(acc, invs, pid, ex) == acc + Total(Without(invs, ex), pid)
    decreases |invs|
  {
    if invs != [] {
      var next := if Skipped(invs[0], ex) then acc else acc + LineQty(invs[0].items, pid);
      SumQtyIsTotal(next, invs[1..], pid, ex);
      if ex != "" && invs[0].id != ex {
        var rest := Without(invs[1..], ex);
        assert Without(invs, ex) == [invs[0]] + rest;
        assert ([invs[0]] + rest)[1..] == rest;
      }
    }
  }

  /** The availability the check computes for a product is the stock of the books with invoice `ex` excluded. */
  lemma AvailableIsStockExcluding(b: Books, pid: string, ex: string)
    ensures SumQty(0, b.inputInvoices, pid, ex) - SumQty(0, b.sales151, pid, ex) - SumQty(0, b.sales168, pid, ex)
         == Stock(b.Excluding(ex), pid)
  {
    SumQtyIsTotal(0, b.inputInvoices, pid, ex);
    SumQtyIsTotal(0, b.sales151, pid, ex);
    SumQtyIsTotal(0, b.sales168, pid, ex);
  }

  /** A collection's sum is additive over concatenation. */
  lemma {:induction false} TotalAppend(a: seq<Invoice>, b: seq<Invoice>, pid: string)
    ensures Total(a + b, pid) == Total(a, pid) + Total(b, pid)
  {
    if a == [] {
      assert a + b == b;
    } else {
      assert (a + b)[1..] == a[1..] + b;
      TotalAppend(a[1..], b, pid);
    }
  }

  /** Replacing invoice `k` swaps its contribution for the new invoice's. */
  lemma {:induction false} TotalUpdate(s: seq<Invoice>, k: nat, inv: Invoice, pid: string)
    requires k < |s|
    ensures Total(s[k := inv], pid) == Total(s, pid) - LineQty(s[k].items, pid) + LineQty(inv.items, pid)
  {
    if k > 0 {
      assert s[k := inv][1..] == s[1..][k - 1 := inv];
      TotalUpdate(s[1..], k - 1, inv, pid);
    }
  }

  /** Removing by id an invoice that is the only one with that id removes exactly its contribution. */
  lemma {:induction false} TotalWithoutOnly(s: seq<Invoice>, k: nat, pid: string)
    requires k < |s|
    requires forall j :: 0 <= j < |s| && j != k ==> s[j].id != s[k].id
    ensures Total(Without(s, s[k].id), pid) == Total(s, pid) - LineQty(s[k].items, pid)
  {
    var id := s[k].id;
    if k == 0 {
      assert Without(s[1..], id) == s[1..];
    } else {
      var rest := Without(s[1..], id);
      assert Without(s, id) == [s[0]] + rest;
      assert ([s[0]] + rest)[1..] == rest;
      TotalWithoutOnly(s[1..], k - 1, pid);
    }
  }

  // ---------------------------------------------------------------------------
  // Stock after the store's operations
  // ---------------------------------------------------------------------------

  /** Appending an invoice moves stock by its first-line quantity: up for an input, down for a sale. */
  lemma StockAfterAppend(b: Books, c: Channel, inv: Invoice, pid: string)
    ensures c == Input ==> Stock(b.With(c, b.Get(c) + [inv]), pid) == Stock(b, pid) + LineQty(inv.items, pid)
    ensures c != Input ==> Stock(b.With(c, b.Get(c) + [inv]), pid) == Stock(b, pid) - LineQty(inv.items, pid)
  {
    TotalAppend(b.Get(c), [inv], pid);
    assert Total([inv], pid) == LineQty(inv.items, pid);
  }

  /** Replacing invoice `k` of collection `c` moves stock by the difference of the two first-line quantities. */
  lemma StockAfterReplace(b: Books, c: Channel, k: nat, inv: Invoice, pid: string)
    requires k < |b.Get(c)|
    ensures c == Input ==>
      Stock(b.With(c, b.Get(c)[k := inv]), pid) == Stock(b, pid) - LineQty(b.Get(c)[k].items, pid) + LineQty(inv.items, pid)
    ensures c != Input ==>
      Stock(b.With(c, b.Get(c)[k := inv]), pid) == Stock(b, pid) + LineQty(b.Get(c)[k].items, pid) - LineQty(inv.items, pid)
  {
    TotalUpdate(b.Get(c), k, inv, pid);
  }

  /** Invoice `k` of collection `c` is the only invoice, in all three collections, with its id. */
  predicate HeldOnlyAt(b: Books, c: Channel, k: nat) {
    k < |b.Get(c)| &&
    forall d: Channel, j :: 0 <= j < |b.Get(d)| && (d != c || j != k) ==> b.Get(d)[j].id != b.Get(c)[k].id
  }

  /** An id held by invoice `k` of collection `c` alone occurs in no other collection. */
  lemma NotHeldElsewhere(b: Books, c: Channel, k: nat, d: Channel)
    requires HeldOnlyAt(b, c, k) && d != c
    ensures Without(b.Get(d), b.Get(c)[k].id) == b.Get(d)
  {
    assert forall j :: 0 <= j < |b.Get(d)| ==> b.Get(d)[j].id != b.Get(c)[k].id;
  }

  /** The stock of the excluded books, collection by collection. */
  lemma StockExcluding(b: Books, id: string, pid: string)
    requires id != ""
    ensures Stock(b.Excluding(id), pid)
         == Total(Without(b.inputInvoices, id), pid) - (Total(Without(b.sales151, id), pid) + Total(Without(b.sales168, id), pid))
  {
  }

  /**
   * Excluding an invoice whose id is held by it alone is the same as
   * taking its contribution back out: for a sale, its first-line quantity
   * is added back to what is available; for an input, it is subtracted.
   */
  lemma {:induction false} ExcludingOnlyInvoice(b: Books, c: Channel, k: nat, pid: string)
    requires HeldOnlyAt(b, c, k) && b.Get(c)[k].id != ""
    ensures c == Input ==> Stock(b.Excluding(b.Get(c)[k].id), pid) == Stock(b, pid) - LineQty(b.Get(c)[k].items, pid)
    ensures c != Input ==> Stock(b.Excluding(b.Get(c)[k].id), pid) == Stock(b, pid) + LineQty(b.Get(c)[k].items, pid)
  {
    var id := b.Get(c)[k].id;
    StockExcluding(b, id, pid);
    TotalWithoutOnly(b.Get(c), k, pid);
    match c
    case Input =>
      NotHeldElsewhere(b, c, k, Sales151);
      NotHeldElsewhere(b, c, k, Sales168);
    case Sales151 =>
      NotHeldElsewhere(b, c, k, Input);
      NotHeldElsewhere(b, c, k, Sales168);
    case Sales168 =>
      NotHeldElsewhere(b, c, k, Input);
      NotHeldElsewhere(b, c, k, Sales151);
  }

  /** The first-line quantities of the invoices carrying id `id`: what deleting that id takes out of a sum. */
  function HeldQty(invs: seq<Invoice>, id: string, pid: string): int {
    if invs == [] then 0
    else (if invs[0].id == id then LineQty(invs[0].items, pid) else 0) + HeldQty(invs[1..], id, pid)
  }

  /** Filtering out an id, however many invoices carry it, removes exactly their contributions from the sum. */
  lemma {:induction false} TotalWithout(s: seq<Invoice>, id: string, pid: string)
    ensures Total(Without(s, id), pid) == Total(s, pid) - HeldQty(s, id, pid)
  {
    if s != [] {
      TotalWithout(s[1..], id, pid);
      if s[0].id != id {
        var rest := Without(s[1..], id);
        assert Without(s, id) == [s[0]] + rest;
        assert ([s[0]] + rest)[1..] == rest;
      }
    }
  }

  /** When one invoice alone carries the id, what the id holds is that invoice's first-line quantity. */
  lemma {:induction false} HeldQtyOnly(s: seq<Invoice>, k: nat, pid: string)
    requires k < |s|
    requires forall j :: 0 <= j < |s| && j != k ==> s[j].id != s[k].id
    ensures HeldQty(s, s[k].id, pid) == LineQty(s[k].items, pid)
  {
    TotalWithout(s, s[k].id, pid);
    TotalWithoutOnly(s, k, pid);
  }

  /**
   * The delete handlers' filter: deleting every invoice with id `id` from one
   * collection takes what those invoices held back out of stock, down for
   * inputs and up for sales.
   */
  lemma StockAfterDelete(b: Books, c: Channel, id: string, pid: string)
    ensures c == Input ==>
      Stock(b.With(c, Without(b.Get(c), id)), pid) == Stock(b, pid) - HeldQty(b.Get(c), id, pid)
    ensures c != Input ==>
      Stock(b.With(c, Without(b.Get(c), id)), pid) == Stock(b, pid) + HeldQty(b.Get(c), id, pid)
  {
    TotalWithout(b.Get(c), id, pid);
  }

  // ---------------------------------------------------------------------------
  // The availability rule
  // ---------------------------------------------------------------------------

  /** A candidate line passes: its product is unknown, or its quantity is at most what is available with `ex` excluded. */
  predicate LineCovered(b: Books, l: Line, ex: string) {
    ProductExists(b.products, l.productId) ==> l.quantity <= Stock(b.Excluding(ex), l.productId)
  }

  /** Every candidate line passes, each checked on its own against the unchanged books. */
  predicate Sufficient(b: Books, items: seq<Line>, ex: string) {
    forall i :: 0 <= i < |items| ==> LineCovered(b, items[i], ex)
  }

  /**
   * A sale accepted on add (no exclusion) leaves every existing product it
   * names with non-negative stock, and lowers that stock by exactly the
   * product's first-line quantity in the sale.
   */
  lemma AcceptedSaleKeepsStock(b: Books, c: Channel, inv: Invoice, pid: string)
    requires c != Input
    requires Sufficient(b, inv.items, "")
    requires ProductExists(b.products, pid) && FindLine(inv.items, pid).Some?
    ensures Stock(b.With(c, b.Get(c) + [inv]), pid) == Stock(b, pid) - LineQty(inv.items, pid) >= 0
  {
    var k := FindLine(inv.items, pid).value;
    assert LineCovered(b, inv.items[k], "");
    StockAfterAppend(b, c, inv, pid);
  }

  /**
   * A sale edit accepted with its own id excluded leaves every existing
   * product named in the new lines with non-negative stock, provided that
   * id belongs to the edited invoice alone.
   */
  lemma AcceptedEditKeepsStock(b: Books, c: Channel, k: nat, inv: Invoice, pid: string)
    requires c != Input
    requires HeldOnlyAt(b, c, k) && b.Get(c)[k].id != ""
    requires Sufficient(b, inv.items, b.Get(c)[k].id)
    requires ProductExists(b.products, pid) && FindLine(inv.items, pid).Some?
    ensures Stock(b.With(c, b.Get(c)[k := inv]), pid) == Stock(b.Excluding(b.Get(c)[k].id), pid) - LineQty(inv.items, pid) >= 0
  {
    var j := FindLine(inv.items, pid).value;
    assert LineCovered(b, inv.items[j], b.Get(c)[k].id);
    ExcludingOnlyInvoice(b, c, k, pid);
    StockAfterReplace(b, c, k, inv, pid);
  }

  /** No two lines name the same product. */
  predicate DistinctProducts(items: seq<Line>) {
    forall i, j :: 0 <= i < j < |items| ==> items[i].productId != items[j].productId
  }

  /**
   * Saving a sale again with its own lines is accepted, when its id is its
   * own, its lines name distinct products and none of those products is
   * currently below zero.
   */
  lemma ResavingSaleAccepted(b: Books, c: Channel, k: nat)
    requires c != Input
    requires HeldOnlyAt(b, c, k) && b.Get(c)[k].id != ""
    requires DistinctProducts(b.Get(c)[k].items)
    requires forall i :: 0 <= i < |b.Get(c)[k].items| ==> Stock(b, b.Get(c)[k].items[i].productId) >= 0
    ensures Sufficient(b, b.Get(c)[k].items, b.Get(c)[k].id)
  {
    var items := b.Get(c)[k].items;
    forall i | 0 <= i < |items| ensures LineCovered(b, items[i], b.Get(c)[k].id) {
      var pid := items[i].productId;
      assert FindLine(items, pid) == Some(i);
      ExcludingOnlyInvoice(b, c, k, pid);
    }
  }

  /**
   * Lines are checked one at a time and the ledger counts one line per
   * product per invoice: a sale with two lines of 5 against a stock of 6
   * passes the check and leaves a stock of 1.
   */
  lemma DuplicateLinesCountedOnce()
    ensures var p := Product("p", "P");
            var b := Books([p], [Invoice("in", "1404/08/01", [Line("p", 6)])], [], []);
            var sale := Invoice("s", "1404/08/02", [Line("p", 5), Line("p", 5)]);
            Sufficient(b, sale.items, "") && Stock(b.With(Sales151, b.sales151 + [sale]), "p") == 1
  {
    var p := Product("p", "P");
    var b := Books([p], [Invoice("in", "1404/08/01", [Line("p", 6)])], [], []);
    var sale := Invoice("s", "1404/08/02", [Line("p", 5), Line("p", 5)]);
    assert Stock(b, "p") == 6 by {
      assert FindLine([Line("p", 6)], "p") == Some(0);
    }
    assert FindLine(sale.items, "p") == Some(0);
    StockAfterAppend(b, Sales151, sale, "p");
  }

  /**
   * Product A received 10: a sale of 7 through channel 151 passes (10
   * available), after which a sale of 4 through channel 168 fails (3 available).
   */
  lemma SecondChannelSaleRejected()
    ensures var b := Books([Product("a", "A")], [Invoice("in", "1404/08/01", [Line("a", 10)])], [], []);
            var first := Invoice("s1", "1404/08/02", [Line("a", 7)]);
            var b' := b.With(Sales151, [first]);
            Sufficient(b, first.items, "") && Stock(b', "a") == 3 && !Sufficient(b', [Line("a", 4)], "")
  {
    var b := Books([Product("a", "A")], [Invoice("in", "1404/08/01", [Line("a", 10)])], [], []);
    var first := Invoice("s1", "1404/08/02", [Line("a", 7)]);
    assert FindLine([Line("a", 10)], "a") == Some(0);
    assert FindLine(first.items, "a") == Some(0);
    assert Stock(b, "a") == 10;
    assert b.sales151 + [first] == [first];
    StockAfterAppend(b, Sales151, first, "a");
    var b' := b.With(Sales151, [first]);
    assert ProductExists(b'.products, "a") by { assert b'.products[0].id == "a"; }
    assert !LineCovered(b', [Line("a", 4)][0], "");
  }

  // ---------------------------------------------------------------------------
  // The inventory table
  // ---------------------------------------------------------------------------

  /** One row of `renderInventory`: the two folds and their difference, checked against the reference sums. */
  function Row(b: Books, p: Product): (r: StockRow)
    ensures r.name == p.name
    ensures r.totalInput == Total(b.inputInvoices, p.id)
    ensures r.totalSales == Total(b.sales151, p.id) + Total(b.sales168, p.id)
    ensures r.finalStock == r.totalInput - r.totalSales == Stock(b, p.id)
  {
    SumQtyIsTotal(0, b.inputInvoices, p.id, "");
    SumQtyIsTotal(0, b.sales151, p.id, "");
    SumQtyIsTotal(0, b.sales168, p.id, "");
    var totalInput := SumQty(0, b.inputInvoices, p.id, "");
    var totalSales := SumQty(0, b.sales151, p.id, "") + SumQty(0, b.sales168, p.id, "");
    StockRow(p.name, totalInput, totalSales, totalInput - totalSales)
  }

  /** `renderInventory`'s table: one row per product, in stored product order (no sorting). */
  function Inventory(b: Books): (rows: seq<StockRow>)
    ensures |rows| == |b.products|
    ensures forall i :: 0 <= i < |rows| ==>
      rows[i].name == b.products[i].name &&
      rows[i].totalInput == Total(b.inputInvoices, b.products[i].id) &&
      rows[i].totalSales == Total(b.sales151, b.products[i].id) + Total(b.sales168, b.products[i].id) &&
      rows[i].finalStock == Stock(b, b.products[i].id)
  {
    seq(|b.products|, i requires 0 <= i < |b.products| => Row(b, b.products[i]))
  }

  /** The stock colour: non-positive is critical, up to 10 is low, above 10 is healthy. */
  function StockBand(stock: int): (band: Band)
    ensures band == Critical <==> stock <= 0
    ensures band == Low <==> 0 < stock <= 10
    ensures band == Healthy <==> stock > 10
  {
    if stock <= 0 then Critical else if stock <= 10 then Low else Healthy
  }

  // ---------------------------------------------------------------------------
  // The product-usage guard
  // ---------------------------------------------------------------------------

  /** `invoices.some(invoice => invoice.items.some(item => item.productId === pid))`. */
  function Used(invs: seq<Invoice>, pid: string): (r: bool)
    ensures r <==> exists i, j :: 0 <= i < |invs| && 0 <= j < |invs[i].items| && invs[i].items[j].productId == pid
  {
    if invs == [] then false
    else if FindLine(invs[0].items, pid).Some? then true
    else
      var r := Used(invs[1..], pid);
      assert r ==> exists i, j :: 0 <= i < |invs| && 0 <= j < |invs[i].items| && invs[i].items[j].productId == pid by {
        if r {
          var i, j :| 0 <= i < |invs[1..]| && 0 <= j < |invs[1..][i].items| && invs[1..][i].items[j].productId == pid;
          assert invs[i + 1].items[j].productId == pid;
        }
      }
      r
  }

  /** `deleteProduct`'s `isUsed`: some line in one of the three collections names the product. */
  function IsProductUsed(b: Books, pid: string): (r: bool)
    ensures r <==> exists c: Channel, i, j :: 0 <= i < |b.Get(c)| && 0 <= j < |b.Get(c)[i].items| && b.Get(c)[i].items[j].productId == pid
  {
    var r := Used(b.inputInvoices, pid) || Used(b.sales151, pid) || Used(b.sales168, pid);
    assert r ==> exists c: Channel, i, j :: 0 <= i < |b.Get(c)| && 0 <= j < |b.Get(c)[i].items| && b.Get(c)[i].items[j].productId == pid by {
      if Used(b.inputInvoices, pid) {
        var i, j :| 0 <= i < |b.inputInvoices| && 0 <= j < |b.inputInvoices[i].items| && b.inputInvoices[i].items[j].productId == pid;
        assert b.Get(Input)[i].items[j].productId == pid;
      } else if Used(b.sales151, pid) {
        var i, j :| 0 <= i < |b.sales151| && 0 <= j < |b.sales151[i].items| && b.sales151[i].items[j].productId == pid;
        assert b.Get(Sales151)[i].items[j].productId == pid;
      } else if Used(b.sales168, pid) {
        var i, j :| 0 <= i < |b.sales168| && 0 <= j < |b.sales168[i].items| && b.sales168[i].items[j].productId == pid;
        assert b.Get(Sales168)[i].items[j].productId == pid;
      }
    }
    r
  }

  /** Every invoice line names a product that exists. */
  predicate NoDanglingLines(b: Books) {
    forall c: Channel, i, j :: 0 <= i < |b.Get(c)| && 0 <= j < |b.Get(c)[i].items| ==>
      ProductExists(b.products, b.Get(c)[i].items[j].productId)
  }

  /** Changing the product list while keeping every product id that was there keeps every line resolved. */
  lemma LinesStayResolved(b: Books, ps: seq<Product>)
    requires NoDanglingLines(b)
    requires forall i :: 0 <= i < |b.products| ==> ProductExists(ps, b.products[i].id)
    ensures NoDanglingLines(b.(products := ps))
  {
    var b' := b.(products := ps);
    forall c: Channel, i, j | 0 <= i < |b'.Get(c)| && 0 <= j < |b'.Get(c)[i].items|
      ensures ProductExists(ps, b'.Get(c)[i].items[j].productId)
    {
      assert b'.Get(c) == b.Get(c);
      var pid := b.Get(c)[i].items[j].productId;
      assert ProductExists(b.products, pid);
      var n :| 0 <= n < |b.products| && b.products[n].id == pid;
      assert ProductExists(ps, b.products[n].id);
    }
  }

  /** Removing a product the guard lets through cannot leave a line pointing at a missing product. */
  lemma UnusedRemovalKeepsLinesResolved(b: Books, id: string)
    requires NoDanglingLines(b) && !IsProductUsed(b, id)
    ensures NoDanglingLines(b.(products := WithoutProduct(b.products, id)))
  {
    var b' := b.(products := WithoutProduct(b.products, id));
    forall c: Channel, i, j | 0 <= i < |b'.Get(c)| && 0 <= j < |b'.Get(c)[i].items|
      ensures ProductExists(b'.products, b'.Get(c)[i].items[j].productId)
    {
      var pid := b.Get(c)[i].items[j].productId;
      assert pid != id;
      var n :| 0 <= n < |b.products| && b.products[n].id == pid;
      assert b.products[n] in b'.products;
      var m :| 0 <= m < |b'.products| && b'.products[m] == b.products[n];
    }
  }
}
