/** The records of the accounting application (core/models.py): products,
    HPP entries, revenue and expense items and the manufacturing production
    record, the save rule of a revenue item, and a store of records whose
    invariant is the `unique_together` constraints. */
module Models {
  import opened Common

  type ReportId = int
  type ProductId = int

  /** A product of one financial report. */
  datatype Product = Product(id: ProductId, report: ReportId, name: string)

  /** The three categories an HPP entry may carry. */
  const Awal: string := "AWAL"
  const Pembelian: string := "PEMBELIAN"
  const Akhir: string := "AKHIR"

  /** One HPP line of a trading report: a beginning lot (AWAL), a purchase
      (PEMBELIAN) or an ending count (AKHIR) of one product. */
  datatype HppEntry = HppEntry(
    report: ReportId,
    product: ProductId,
    category: string,
    quantity: int,
    keterangan: Option<string>,
    hargaSatuan: int,
    diskon: int,
    returQty: int,
    ongkir: int)

  /** Creating an HPP entry: every numeric field that is not supplied is 0
      and the note is empty. */
  function NewHppEntry(report: ReportId, product: ProductId, category: string,
                       quantity: int := 0, hargaSatuan: int := 0, diskon: int := 0,
                       returQty: int := 0, ongkir: int := 0): (e: HppEntry)
    ensures e.report == report && e.product == product && e.category == category
    ensures e.keterangan == None
    ensures e.quantity == quantity && e.hargaSatuan == hargaSatuan && e.diskon == diskon
    ensures e.returQty == returQty && e.ongkir == ongkir
  {
    HppEntry(report, product, category, quantity, None, hargaSatuan, diskon, returQty, ongkir)
  }

  /** The revenue types a revenue item may carry. */
  const Usaha: string := "usaha"
  const Lain: string := "lain"

  /** A persisted revenue item, as the report queries read it back. */
  datatype RevenueRow = RevenueRow(
    report: ReportId,
    product: Option<ProductId>,
    revenueType: string,
    name: Option<string>,
    quantity: int,
    sellingPrice: int,
    total: int)

  /** A revenue item being edited; `Save` derives its total and name. */
  class RevenueItem {
    var report: ReportId
    var product: Option<Product>
    var revenueType: string
    var name: Option<string>
    var quantity: int
    var sellingPrice: int
    var total: int

    /** A new item: type 'usaha', quantity 1, price 0 and total 0 unless given. */
    constructor (report: ReportId, product: Option<Product>, revenueType: string := Usaha,
                 name: Option<string> := None, quantity: int := 1,
                 sellingPrice: int := 0, total: int := 0)
      ensures this.report == report && this.product == product
      ensures this.revenueType == revenueType && this.name == name
      ensures this.quantity == quantity && this.sellingPrice == sellingPrice
      ensures this.total == total
    {
      this.report := report;
      this.product := product;
      this.revenueType := revenueType;
      this.name := name;
      this.quantity := quantity;
      this.sellingPrice := sellingPrice;
      this.total := total;
    }

    /** Saving: an operating ('usaha') item gets total = quantity x price and
        takes its product's name when it has a product; any other item keeps
        its total and name. Nothing else changes. */
    method Save()
      modifies this
      ensures revenueType == Usaha ==> total == quantity * sellingPrice
      ensures revenueType == Usaha && product.Some? ==> name == Some(product.value.name)
      ensures revenueType == Usaha && product.None? ==> name == old(name)
      ensures revenueType != Usaha ==> total == old(total) && name == old(name)
      ensures report == old(report) && product == old(product)
      ensures revenueType == old(revenueType)
      ensures quantity == old(quantity) && sellingPrice == old(sellingPrice)
      ensures revenueType == Usaha ==> Row().total == Row().quantity * Row().sellingPrice
    {
      if revenueType == Usaha {
        total := quantity * sellingPrice;
        name := if product.Some? then Some(product.value.name) else name;
      }
    }

    /** The row that persisting this item writes; after `Save` an operating
        row satisfies what `FinalReport.OperatingRevenueIsSalesValue` asks. */
    function Row(): RevenueRow
      reads this
    {
      RevenueRow(report, if product.Some? then Some(product.value.id) else None,
                 revenueType, name, quantity, sellingPrice, total)
    }
  }

  /** A persisted expense item; the category is 'usaha' (other operating
      expenses) or 'lain' (other expenses). */
  datatype ExpenseRow = ExpenseRow(
    report: ReportId,
    product: Option<ProductId>,
    expenseCategory: string,
    name: string,
    total: int)

  /** The cached manufacturing production record of one product. */
  datatype Production = Production(
    report: ReportId,
    product: ProductId,
    qtyDiproduksi: int,
    totalProduksi: int,
    hppPerUnit: real,
    keterangan: Option<string>)

  /** Product names are unique within a report. */
  predicate ProductNamesUnique(ps: seq<Product>) {
    forall i, j :: 0 <= i < j < |ps| ==> ps[i].report != ps[j].report || ps[i].name != ps[j].name
  }

  /** At most one HPP entry per (report, product, category). */
  predicate EntryKeysUnique(es: seq<HppEntry>) {
    forall i, j :: 0 <= i < j < |es| ==>
      es[i].report != es[j].report || es[i].product != es[j].product || es[i].category != es[j].category
  }

  /** At most one production record per (report, product). */
  predicate ProductionKeysUnique(ps: seq<Production>) {
    forall i, j :: 0 <= i < j < |ps| ==> ps[i].report != ps[j].report || ps[i].product != ps[j].product
  }

  function HasProductName(ps: seq<Product>, report: ReportId, name: string): bool {
    exists i :: 0 <= i < |ps| && ps[i].report == report && ps[i].name == name
  }

  function HasEntryKey(es: seq<HppEntry>, report: ReportId, product: ProductId, category: string): bool {
    exists i :: 0 <= i < |es| && es[i].report == report && es[i].product == product && es[i].category == category
  }

  function HasProductionKey(ps: seq<Production>, report: ReportId, product: ProductId): bool {
    exists i :: 0 <= i < |ps| && ps[i].report == report && ps[i].product == product
  }

  /** The HPP entries of one report, in stored order (the query
      `HppEntry.objects.filter(report=report)`). */
  function EntriesOfReport(es: seq<HppEntry>, report: ReportId): (r: seq<HppEntry>)
    ensures forall k :: 0 <= k < |r| ==> r[k].report == report && r[k] in es
    ensures |r| <= |es|
    decreases |es|
  {
    if es == [] then []
    else
      var init := EntriesOfReport(es[..|es| - 1], report);
      var last := es[|es| - 1];
      if last.report == report then init + [last] else init
  }

  /** An entry is among a report's entries exactly when it is stored and
      belongs to that report. */
  lemma {:induction false} EntriesOfReportMembership(es: seq<HppEntry>, report: ReportId, e: HppEntry)
    ensures e in EntriesOfReport(es, report) <==> e in es && e.report == report
    decreases |es|
  {
    if es != [] {
      var init := es[..|es| - 1];
      EntriesOfReportMembership(init, report, e);
      assert es == init + [es[|es| - 1]];
    }
  }

  /** Selecting one report's entries keeps the (report, product, category)
      constraint. */
  lemma {:induction false} EntriesOfReportUnique(es: seq<HppEntry>, report: ReportId)
    requires EntryKeysUnique(es)
    ensures EntryKeysUnique(EntriesOfReport(es, report))
    decreases |es|
  {
    if es != [] {
      var init := es[..|es| - 1];
      var last := es[|es| - 1];
      assert EntryKeysUnique(init);
      EntriesOfReportUnique(init, report);
      var r := EntriesOfReport(init, report);
      if last.report == report {
        forall k | 0 <= k < |r|
          ensures r[k].report != last.report || r[k].product != last.product || r[k].category != last.category
        {
          var j :| 0 <= j < |init| && init[j] == r[k];
          assert es[j] == r[k];
        }
      }
    }
  }

  /** The records the application stores; `Valid` is the `unique_together`
      constraints of Product, HppEntry and HppManufactureProduction. An insert
      that would break one is refused (the database's integrity error). */
  class ReportStore {
    var products: seq<Product>
    var hppEntries: seq<HppEntry>
    var productions: seq<Production>

    ghost predicate Valid()
      reads this
    {
      ProductNamesUnique(products) && EntryKeysUnique(hppEntries) && ProductionKeysUnique(productions)
    }

    constructor ()
      ensures Valid()
      ensures products == [] && hppEntries == [] && productions == []
    {
      products, hppEntries, productions := [], [], [];
    }

    method AddProduct(p: Product) returns (ok: bool)
      requires Valid()
      modifies this
      ensures Valid()
      ensures ok <==> !HasProductName(old(products), p.report, p.name)
      ensures products == if ok then old(products) + [p] else old(products)
      ensures hppEntries == old(hppEntries) && productions == old(productions)
    {
      ok := !HasProductName(products, p.report, p.name);
      if ok {
        products := products + [p];
      }
    }

    method AddHppEntry(e: HppEntry) returns (ok: bool)
      requires Valid()
      modifies this
      ensures Valid()
      ensures ok <==> !HasEntryKey(old(hppEntries), e.report, e.product, e.category)
      ensures hppEntries == if ok then old(hppEntries) + [e] else old(hppEntries)
      ensures products == old(products) && productions == old(productions)
    {
      ok := !HasEntryKey(hppEntries, e.report, e.product, e.category);
      if ok {
        hppEntries := hppEntries + [e];
      }
    }

    method AddProduction(pr: Production) returns (ok: bool)
      requires Valid()
      modifies this
      ensures Valid()
      ensures ok <==> !HasProductionKey(old(productions), pr.report, pr.product)
      ensures productions == if ok then old(productions) + [pr] else old(productions)
      ensures products == old(products) && hppEntries == old(hppEntries)
    {
      ok := !HasProductionKey(productions, pr.report, pr.product);
      if ok {
        productions := productions + [pr];
      }
    }
  }
}
