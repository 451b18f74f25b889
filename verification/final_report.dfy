/** The final report of a trading business (core/utils/final_report.py):
    revenue by type, the HPP entries grouped per product, the HPP of every
    product recomputed from the calculator's rounded figures, expenses by
    category, and profit before and after tax. */
module FinalReport {
  import opened Common
  import opened Models
  import opened HppCalculator

  // ---------------------------------------------------------------------
  // Grouping the HPP entries per product
  // ---------------------------------------------------------------------

  /** The entries handed to the calculator for one product: its beginning
      entry, its purchases in order and its ending entry. */
  datatype EntryGroup = EntryGroup(awal: Option<HppEntry>, pembelian: seq<HppEntry>, akhir: Option<HppEntry>)

  /** The group of a product that has no entries. */
  const EmptyGroup: EntryGroup := EntryGroup(None, [], None)

  /** The entries of `s` that belong to product `pid` and carry `category`,
      in their order in `s`. */
  function Select(s: seq<HppEntry>, pid: ProductId, category: string): (r: seq<HppEntry>)
    ensures |r| <= |s|
    ensures forall k :: 0 <= k < |r| ==> r[k] in s && r[k].product == pid && r[k].category == category
    decreases |s|
  {
    if s == [] then []
    else
      var init := Select(s[..|s| - 1], pid, category);
      var last := s[|s| - 1];
      if last.product == pid && last.category == category then init + [last] else init
  }

  /** The last element of a sequence, if any. */
  function LastOf(s: seq<HppEntry>): (r: Option<HppEntry>)
    ensures r.None? <==> s == []
    ensures r.Some? ==> r.value == s[|s| - 1]
  {
    if s == [] then None else Some(s[|s| - 1])
  }

  /** The group of product `pid` among `s`: a later AWAL or AKHIR entry
      replaces an earlier one, purchases are kept in order, entries of any
      other category are ignored. */
  function GroupFor(s: seq<HppEntry>, pid: ProductId): EntryGroup {
    EntryGroup(LastOf(Select(s, pid, Awal)), Select(s, pid, Pembelian), LastOf(Select(s, pid, Akhir)))
  }

  /** The products that have at least one entry in `s`. */
  function ProductsWithEntries(s: seq<HppEntry>): set<ProductId> {
    set k | 0 <= k < |s| :: s[k].product
  }

  /** An entry is selected exactly when it is in `s` with the product and
      category asked for. */
  lemma {:induction false} SelectMembership(s: seq<HppEntry>, pid: ProductId, category: string, e: HppEntry)
    ensures e in Select(s, pid, category) <==> e in s && e.product == pid && e.category == category
    decreases |s|
  {
    if s != [] {
      var init := s[..|s| - 1];
      SelectMembership(init, pid, category, e);
      assert s == init + [s[|s| - 1]];
    }
  }

  /** Nothing is selected when no entry has the product and category. */
  lemma {:induction false} NothingToSelect(s: seq<HppEntry>, pid: ProductId, category: string)
    ensures (forall x :: x in s ==> x.product != pid || x.category != category) ==> Select(s, pid, category) == []
    decreases |s|
  {
    if s != [] {
      var init := s[..|s| - 1];
      NothingToSelect(init, pid, category);
      assert forall x :: x in init ==> x in s;
    }
  }

  /** A product with no entry gets the empty group, which is the default
      the report uses for it. */
  lemma NoEntriesEmptyGroup(s: seq<HppEntry>, pid: ProductId)
    requires pid !in ProductsWithEntries(s)
    ensures GroupFor(s, pid) == EmptyGroup
  {
    SelectedProductHasEntries(s, pid, Awal);
    SelectedProductHasEntries(s, pid, Pembelian);
    SelectedProductHasEntries(s, pid, Akhir);
  }

  /** A product for which something is selected has entries. */
  lemma SelectedProductHasEntries(s: seq<HppEntry>, pid: ProductId, category: string)
    ensures Select(s, pid, category) != [] ==> pid in ProductsWithEntries(s)
  {
    var r := Select(s, pid, category);
    if r != [] {
      var k :| 0 <= k < |s| && s[k] == r[0];
      assert s[k].product == pid;
    }
  }

  /** The change one entry makes to its product's group: AWAL and AKHIR
      replace, PEMBELIAN appends, any other category changes nothing. */
  function AddToGroup(g: EntryGroup, e: HppEntry): EntryGroup {
    if e.category == Awal then g.(awal := Some(e))
    else if e.category == Akhir then g.(akhir := Some(e))
    else if e.category == Pembelian then g.(pembelian := g.pembelian + [e])
    else g
  }

  /** Appending one entry to the list changes only the group of its own
      product, and that one as `AddToGroup` says. */
  lemma GroupForSnoc(s: seq<HppEntry>, e: HppEntry, pid: ProductId)
    ensures GroupFor(s + [e], pid) == if e.product == pid then AddToGroup(GroupFor(s, pid), e) else GroupFor(s, pid)
  {
    assert (s + [e])[..|s|] == s;
  }

  /** Appending one entry adds its product to the products with entries. */
  lemma ProductsWithEntriesSnoc(s: seq<HppEntry>, e: HppEntry)
    ensures ProductsWithEntries(s + [e]) == ProductsWithEntries(s) + {e.product}
  {
    var t := s + [e];
    forall q | q in ProductsWithEntries(t) ensures q in ProductsWithEntries(s) + {e.product} {
      var k :| 0 <= k < |t| && t[k].product == q;
      if k < |s| {
        assert s[k].product == q;
      }
    }
    forall q | q in ProductsWithEntries(s) ensures q in ProductsWithEntries(t) {
      var k :| 0 <= k < |s| && s[k].product == q;
      assert t[k].product == q;
    }
    assert t[|s|].product == e.product;
  }

  /** One step of the grouping loop keeps its invariant: the map holds, for
      every product seen so far, the group of its entries so far. */
  lemma GroupStep(m: map<ProductId, EntryGroup>, s: seq<HppEntry>, e: HppEntry)
    requires m.Keys == ProductsWithEntries(s)
    requires forall pid :: pid in m ==> m[pid] == GroupFor(s, pid)
    ensures var g := if e.product in m then m[e.product] else EmptyGroup;
            var m' := m[e.product := AddToGroup(g, e)];
            && m'.Keys == ProductsWithEntries(s + [e])
            && forall pid :: pid in m' ==> m'[pid] == GroupFor(s + [e], pid)
  {
    var g := if e.product in m then m[e.product] else EmptyGroup;
    if e.product !in m {
      NoEntriesEmptyGroup(s, e.product);
    }
    assert g == GroupFor(s, e.product);
    ProductsWithEntriesSnoc(s, e);
    var m' := m[e.product := AddToGroup(g, e)];
    forall pid | pid in m' ensures m'[pid] == GroupFor(s + [e], pid) {
      GroupForSnoc(s, e, pid);
    }
  }

  /** `entries_by_product`: one pass over the report's entries builds, for
      every product that has an entry, the group of its entries. */
  method GroupEntriesByProduct(entries: seq<HppEntry>) returns (m: map<ProductId, EntryGroup>)
    ensures m.Keys == ProductsWithEntries(entries)
    ensures forall pid :: pid in m ==> m[pid] == GroupFor(entries, pid)
  {
    m := map[];
    var i := 0;
    while i < |entries|
      invariant 0 <= i <= |entries|
      invariant m.Keys == ProductsWithEntries(entries[..i])
      invariant forall pid :: pid in m ==> m[pid] == GroupFor(entries[..i], pid)
    {
      var entry := entries[i];
      var pid := entry.product;
      GroupStep(m, entries[..i], entry);
      var g := if pid in m then m[pid] else EmptyGroup;
      if entry.category == Awal {
        g := g.(awal := Some(entry));
      } else if entry.category == Akhir {
        g := g.(akhir := Some(entry));
      } else if entry.category == Pembelian {
        g := g.(pembelian := g.pembelian + [entry]);
      }
      m := m[pid := g];
      assert entries[..i + 1] == entries[..i] + [entry];
      i := i + 1;
    }
    assert entries[..i] == entries;
  }

  /** Under the (report, product, category) constraint a product has at most
      one beginning, one purchase and one ending entry in a report, so
      taking the last beginning or ending entry loses nothing; and the group has a beginning (ending) entry
      exactly when one is stored. */
  lemma StoredGroupIsComplete(store: seq<HppEntry>, report: ReportId, pid: ProductId)
    requires EntryKeysUnique(store)
    ensures var s := EntriesOfReport(store, report);
            && |Select(s, pid, Awal)| <= 1 && |Select(s, pid, Pembelian)| <= 1 && |Select(s, pid, Akhir)| <= 1
            && (GroupFor(s, pid).awal.Some? <==> HasEntryKey(store, report, pid, Awal))
            && (GroupFor(s, pid).akhir.Some? <==> HasEntryKey(store, report, pid, Akhir))
  {
    var s := EntriesOfReport(store, report);
    EntriesOfReportUnique(store, report);
    AtMostOnePerKey(s, report, pid, Awal);
    AtMostOnePerKey(s, report, pid, Pembelian);
    AtMostOnePerKey(s, report, pid, Akhir);
    forall category | category in {Awal, Akhir}
      ensures Select(s, pid, category) != [] <==> HasEntryKey(store, report, pid, category)
    {
      if Select(s, pid, category) != [] {
        var e := Select(s, pid, category)[0];
        var j :| 0 <= j < |store| && store[j] == e;
      }
      if HasEntryKey(store, report, pid, category) {
        var j :| 0 <= j < |store| && store[j].report == report && store[j].product == pid
                 && store[j].category == category;
        EntriesOfReportMembership(store, report, store[j]);
        SelectMembership(s, pid, category, store[j]);
      }
    }
  }

  /** Among entries of one report that keep the key constraint, at most one
      matches a given product and category. */
  lemma {:induction false} AtMostOnePerKey(s: seq<HppEntry>, report: ReportId, pid: ProductId, category: string)
    requires EntryKeysUnique(s)
    requires forall k :: 0 <= k < |s| ==> s[k].report == report
    ensures |Select(s, pid, category)| <= 1
    decreases |s|
  {
    if s != [] {
      var init := s[..|s| - 1];
      var last := s[|s| - 1];
      AtMostOnePerKey(init, report, pid, category);
      var r := Select(init, pid, category);
      if last.product == pid && last.category == category {
        LastKeyIsNew(s, report);
        NothingToSelect(init, pid, category);
      }
    }
  }

  /** In a list of one report's entries that keeps the key constraint, no
      earlier entry has the last entry's product and category. */
  lemma LastKeyIsNew(s: seq<HppEntry>, report: ReportId)
    ensures EntryKeysUnique(s) && |s| > 0 && (forall k :: 0 <= k < |s| ==> s[k].report == report) ==>
            forall x :: x in s[..|s| - 1] ==> x.product != s[|s| - 1].product || x.category != s[|s| - 1].category
  {
    if EntryKeysUnique(s) && |s| > 0 && (forall k :: 0 <= k < |s| ==> s[k].report == report) {
      forall x | x in s[..|s| - 1]
        ensures x.product != s[|s| - 1].product || x.category != s[|s| - 1].category
      {
        var j :| 0 <= j < |s| - 1 && s[..|s| - 1][j] == x;
        assert s[j] == x;
      }
    }
  }

  // ---------------------------------------------------------------------
  // One product's line of the report
  // ---------------------------------------------------------------------

  /** A line of `hpp_per_product`. */
  datatype ProductHpp = ProductHpp(
    productName: string,
    hppPerUnit: real,
    hpp: int,
    totalAwal: int,
    totalPembelianNeto: int,
    totalAkhir: int,
    qtyAwal: int,
    qtyPembelian: int,
    qtyAkhir: int)

  /** The quantity of a detail; 0 when the detail is absent. */
  function AwalQty(d: Option<AwalDetail>): int {
    if d.Some? then d.value.qty else 0
  }

  function DetailQty(d: Option<QtyDetail>): int {
    if d.Some? then d.value.qty else 0
  }

  /** The line the report builds from a calculator result: HPP is recomputed
      from the rounded totals as beginning plus net purchases less ending,
      units sold from the detail quantities, and the unit cost is HPP over
      units sold, or 0 when none were sold. */
  function ProductLine(name: string, res: HppResult): ProductHpp {
    var qtyAwal := AwalQty(res.detailAwal);
    var qtyPembelian := DetailQty(res.detailPembelian);
    var qtyAkhir := DetailQty(res.detailAkhir);
    var qtyTerjual := qtyAwal + qtyPembelian - qtyAkhir;
    var hpp := res.totalAwal + res.totalPembelianNeto - res.totalAkhir;
    var perUnit := if qtyTerjual > 0 then hpp as real / qtyTerjual as real else 0.0;
    ProductHpp(name, perUnit, hpp, res.totalAwal, res.totalPembelianNeto, res.totalAkhir,
               qtyAwal, qtyPembelian, qtyAkhir)
  }

  /** Units sold as the report sees them on a line. */
  function LineUnitsSold(l: ProductHpp): int {
    l.qtyAwal + l.qtyPembelian - l.qtyAkhir
  }

  /** The line of product `p`, given the report's entries. */
  function LineFor(entries: seq<HppEntry>, p: Product): ProductHpp {
    var g := GroupFor(entries, p.id);
    ProductLine(p.name, HppForProduct(g.awal, g.pembelian, g.akhir))
  }

  /** The lines of the products `ps`, in order. */
  function Lines(entries: seq<HppEntry>, ps: seq<Product>): (r: seq<ProductHpp>)
    ensures |r| == |ps|
    decreases |ps|
  {
    if ps == [] then [] else Lines(entries, ps[..|ps| - 1]) + [LineFor(entries, ps[|ps| - 1])]
  }

  /** Line `k` is the line of product `k`: one line per product, in the
      products' order. */
  lemma {:induction false} LinesAt(entries: seq<HppEntry>, ps: seq<Product>, k: int)
    requires 0 <= k < |ps|
    ensures Lines(entries, ps)[k] == LineFor(entries, ps[k])
    decreases |ps|
  {
    if k < |ps| - 1 {
      LinesAt(entries, ps[..|ps| - 1], k);
    }
  }

  /** The sum of the lines' HPP. */
  function SumHpp(lines: seq<ProductHpp>): int
    decreases |lines|
  {
    if lines == [] then 0 else SumHpp(lines[..|lines| - 1]) + lines[|lines| - 1].hpp
  }

  /** The unit cost on a line is 0 unless units were sold; otherwise it
      times units sold is the line's HPP. */
  lemma LinePerUnitGuarded(name: string, res: HppResult)
    ensures var l := ProductLine(name, res);
            && (LineUnitsSold(l) <= 0 ==> l.hppPerUnit == 0.0)
            && (LineUnitsSold(l) > 0 ==> l.hppPerUnit * LineUnitsSold(l) as real == l.hpp as real)
  {
    var l := ProductLine(name, res);
    if LineUnitsSold(l) > 0 {
      QuotientTimesDivisor(l.hpp as real, LineUnitsSold(l) as real);
    }
  }

  /** The report's recomputed figures agree with the calculator: units sold
      are the calculator's units sold; recomputed HPP is goods available
      less ending value, within one rupiah of the calculator's HPP, and
      equal to it when the exact ending value is whole. */
  lemma LineAgreesWithCalculator(name: string, awal: Option<HppEntry>, pembelian: seq<HppEntry>, akhir: Option<HppEntry>)
    ensures var r := HppForProduct(awal, pembelian, akhir);
            var l := ProductLine(name, r);
            && l.productName == name
            && LineUnitsSold(l) == r.qtyTerjual
            && l.hpp == r.barangTersedia - r.totalAkhir
            && -1 <= l.hpp - r.hpp <= 1
    ensures IsWhole(ExactFigures(awal, pembelian, akhir).totalAkhir) ==>
            ProductLine(name, HppForProduct(awal, pembelian, akhir)).hpp == HppForProduct(awal, pembelian, akhir).hpp
  {
    GoodsAvailable(awal, pembelian, akhir);
    Conservation(awal, pembelian, akhir);
    PurchaseDetail(awal, pembelian, akhir);
  }

  /** The calculator's HPP summed over the products `ps`. */
  function CalculatorHppSum(entries: seq<HppEntry>, ps: seq<Product>): int
    decreases |ps|
  {
    if ps == [] then 0
    else
      var p := ps[|ps| - 1];
      var g := GroupFor(entries, p.id);
      CalculatorHppSum(entries, ps[..|ps| - 1]) + HppForProduct(g.awal, g.pembelian, g.akhir).hpp
  }

  /** The report's HPP total differs from the sum of the calculator's HPP
      by at most one rupiah per product. */
  lemma {:induction false} HppTotalWithinProducts(entries: seq<HppEntry>, ps: seq<Product>)
    ensures -|ps| <= SumHpp(Lines(entries, ps)) - CalculatorHppSum(entries, ps) <= |ps|
    decreases |ps|
  {
    if ps != [] {
      var init := ps[..|ps| - 1];
      var p := ps[|ps| - 1];
      var g := GroupFor(entries, p.id);
      HppTotalWithinProducts(entries, init);
      LineAgreesWithCalculator(p.name, g.awal, g.pembelian, g.akhir);
      var lines := Lines(entries, ps);
      assert lines[..|lines| - 1] == Lines(entries, init);
    }
  }

  /** Looking a product up in the grouping, with the empty group as the
      default, gives the product's group. */
  lemma GroupOrDefault(m: map<ProductId, EntryGroup>, entries: seq<HppEntry>, pid: ProductId)
    requires m.Keys == ProductsWithEntries(entries)
    requires forall q :: q in m ==> m[q] == GroupFor(entries, q)
    ensures (if pid in m then m[pid] else EmptyGroup) == GroupFor(entries, pid)
  {
    if pid !in m {
      NoEntriesEmptyGroup(entries, pid);
    }
  }

  /** The line built from the calculator's result on a product's group is
      that product's line. */
  lemma LineOfGroup(entries: seq<HppEntry>, p: Product, g: EntryGroup, res: HppResult)
    requires g == GroupFor(entries, p.id)
    requires res == HppForProduct(g.awal, g.pembelian, g.akhir)
    ensures ProductLine(p.name, res) == LineFor(entries, p)
  {
  }

  /** Adding a line adds its HPP to the total. */
  lemma SumHppSnoc(lines: seq<ProductHpp>, l: ProductHpp)
    ensures SumHpp(lines + [l]) == SumHpp(lines) + l.hpp
  {
    assert (lines + [l])[..|lines|] == lines;
  }

  /** The lines of a longer prefix of the products: one more line, for the
      next product. */
  lemma LinesSnoc(entries: seq<HppEntry>, ps: seq<Product>, i: nat)
    requires i < |ps|
    ensures Lines(entries, ps[..i + 1]) == Lines(entries, ps[..i]) + [LineFor(entries, ps[i])]
  {
    assert ps[..i + 1][..i] == ps[..i];
  }

  /** HPP totals add up over a split list of lines. */
  lemma {:induction false} SumHppSplit(a: seq<ProductHpp>, b: seq<ProductHpp>)
    ensures SumHpp(a + b) == SumHpp(a) + SumHpp(b)
    decreases |b|
  {
    if b == [] {
      assert a + b == a;
    } else {
      var b' := b[..|b| - 1];
      assert (a + b)[..|a + b| - 1] == a + b';
      SumHppSplit(a, b');
    }
  }

  // ---------------------------------------------------------------------
  // Revenue and expenses
  // ---------------------------------------------------------------------

  /** The report's products, in stored order. */
  function ProductsOfReport(ps: seq<Product>, report: ReportId): (r: seq<Product>)
    ensures forall k :: 0 <= k < |r| ==> r[k].report == report && r[k] in ps
    decreases |ps|
  {
    if ps == [] then []
    else
      var init := ProductsOfReport(ps[..|ps| - 1], report);
      var last := ps[|ps| - 1];
      if last.report == report then init + [last] else init
  }

  /** A product is listed exactly when it is stored and belongs to the
      report. */
  lemma {:induction false} ProductsOfReportMembership(ps: seq<Product>, report: ReportId, p: Product)
    ensures p in ProductsOfReport(ps, report) <==> p in ps && p.report == report
    decreases |ps|
  {
    if ps != [] {
      var init := ps[..|ps| - 1];
      ProductsOfReportMembership(init, report, p);
      assert ps == init + [ps[|ps| - 1]];
    }
  }

  /** The sum of the totals of the report's revenue items of one type; 0
      when there are none. */
  function SumRevenue(rows: seq<RevenueRow>, report: ReportId, revenueType: string): int
    decreases |rows|
  {
    if rows == [] then 0
    else
      var last := rows[|rows| - 1];
      SumRevenue(rows[..|rows| - 1], report, revenueType)
      + (if last.report == report && last.revenueType == revenueType then last.total else 0)
  }

  /** The sum of quantity times selling price over the report's operating
      revenue items. */
  function SalesValue(rows: seq<RevenueRow>, report: ReportId): int
    decreases |rows|
  {
    if rows == [] then 0
    else
      var last := rows[|rows| - 1];
      SalesValue(rows[..|rows| - 1], report)
      + (if last.report == report && last.revenueType == Usaha then last.quantity * last.sellingPrice else 0)
  }

  /** When every operating revenue item was saved (so its total is quantity
      times price), operating revenue is the value of the units sold. */
  lemma {:induction false} OperatingRevenueIsSalesValue(rows: seq<RevenueRow>, report: ReportId)
    requires forall k :: 0 <= k < |rows| && rows[k].revenueType == Usaha ==>
               rows[k].total == rows[k].quantity * rows[k].sellingPrice
    ensures SumRevenue(rows, report, Usaha) == SalesValue(rows, report)
    decreases |rows|
  {
    if rows != [] {
      OperatingRevenueIsSalesValue(rows[..|rows| - 1], report);
    }
  }

  /** The report's expense items of one category, in stored order. */
  function ExpensesOf(rows: seq<ExpenseRow>, report: ReportId, category: string): (r: seq<ExpenseRow>)
    ensures forall k :: 0 <= k < |r| ==> r[k] in rows && r[k].report == report && r[k].expenseCategory == category
    decreases |rows|
  {
    if rows == [] then []
    else
      var init := ExpensesOf(rows[..|rows| - 1], report, category);
      var last := rows[|rows| - 1];
      if last.report == report && last.expenseCategory == category then init + [last] else init
  }

  /** The sum of the totals of some expense items; 0 when there are none. */
  function SumExpenses(rows: seq<ExpenseRow>): int
    decreases |rows|
  {
    if rows == [] then 0 else SumExpenses(rows[..|rows| - 1]) + rows[|rows| - 1].total
  }

  /** An expense item is listed under a category exactly when it belongs to
      the report and carries that category. */
  lemma {:induction false} ExpensesOfMembership(rows: seq<ExpenseRow>, report: ReportId, category: string, x: ExpenseRow)
    ensures x in ExpensesOf(rows, report, category) <==> x in rows && x.report == report && x.expenseCategory == category
    decreases |rows|
  {
    if rows != [] {
      var init := rows[..|rows| - 1];
      ExpensesOfMembership(init, report, category, x);
      assert rows == init + [rows[|rows| - 1]];
    }
  }

  // ---------------------------------------------------------------------
  // The report
  // ---------------------------------------------------------------------

  /** The dictionary the report returns. */
  datatype FinalReportData = FinalReportData(
    totalPendapatanUsaha: int,
    totalPendapatanLain: int,
    jumlahPendapatan: int,
    hppTotal: int,
    hppPerProduct: seq<ProductHpp>,
    bebanUsahaItems: seq<ExpenseRow>,
    bebanLainItems: seq<ExpenseRow>,
    totalBebanUsahaLainnya: int,
    totalBebanLain: int,
    jumlahBeban: int,
    labaSebelumPajak: int,
    pajakPenghasilan: int,
    labaSetelahPajak: int)

  /** The body of the product loop for the `i`-th product: look its group
      up (the empty group when it has no entries), run the calculator on it
      and append the product's line. */
  method AppendProductLine(reportEntries: seq<HppEntry>, ps: seq<Product>, i: nat,
                           entriesByProduct: map<ProductId, EntryGroup>, lines: seq<ProductHpp>)
    returns (line: ProductHpp)
    requires i < |ps|
    requires entriesByProduct.Keys == ProductsWithEntries(reportEntries)
    requires forall pid :: pid in entriesByProduct ==> entriesByProduct[pid] == GroupFor(reportEntries, pid)
    requires lines == Lines(reportEntries, ps[..i])
    ensures lines + [line] == Lines(reportEntries, ps[..i + 1])
    ensures SumHpp(lines + [line]) == SumHpp(lines) + line.hpp
  {
    var product := ps[i];
    var g := if product.id in entriesByProduct then entriesByProduct[product.id] else EmptyGroup;
    GroupOrDefault(entriesByProduct, reportEntries, product.id);
    var result := CalculateHppForProduct(g.awal, g.pembelian, g.akhir);
    line := ProductLine(product.name, result);
    LineOfGroup(reportEntries, product, g, result);
    LinesSnoc(reportEntries, ps, i);
    SumHppSnoc(lines, line);
  }

  /** The product loop: one line per product, in order, each from the
      calculator's result on the product's group, and the running HPP
      total. */
  method ProductLines(reportEntries: seq<HppEntry>, ps: seq<Product>, entriesByProduct: map<ProductId, EntryGroup>)
    returns (hppPerProduct: seq<ProductHpp>, totalHpp: int)
    requires entriesByProduct.Keys == ProductsWithEntries(reportEntries)
    requires forall pid :: pid in entriesByProduct ==> entriesByProduct[pid] == GroupFor(reportEntries, pid)
    ensures hppPerProduct == Lines(reportEntries, ps)
    ensures totalHpp == SumHpp(hppPerProduct)
  {
    hppPerProduct := [];
    totalHpp := 0;
    for i := 0 to |ps|
      invariant hppPerProduct == Lines(reportEntries, ps[..i])
      invariant totalHpp == SumHpp(hppPerProduct)
    {
      var line := AppendProductLine(reportEntries, ps, i, entriesByProduct, hppPerProduct);
      totalHpp := totalHpp + line.hpp;
      hppPerProduct := hppPerProduct + [line];
    }
    assert ps[..|ps|] == ps;
  }

  /** `generate_final_report_data`: the stored records are parameters (the
      application queries them). Groups the report's HPP entries per
      product, builds one line per product of the report, and totals
      revenue, HPP, expenses and profit; income tax is 0. */
  method GenerateFinalReportData(report: ReportId, revenues: seq<RevenueRow>, products: seq<Product>,
                                 entries: seq<HppEntry>, expenses: seq<ExpenseRow>)
    returns (r: FinalReportData)
    ensures r.totalPendapatanUsaha == SumRevenue(revenues, report, Usaha)
    ensures r.totalPendapatanLain == SumRevenue(revenues, report, Lain)
    ensures r.jumlahPendapatan == r.totalPendapatanUsaha + r.totalPendapatanLain
    ensures r.hppPerProduct == Lines(EntriesOfReport(entries, report), ProductsOfReport(products, report))
    ensures r.hppTotal == SumHpp(r.hppPerProduct)
    ensures r.bebanUsahaItems == ExpensesOf(expenses, report, Usaha)
    ensures r.bebanLainItems == ExpensesOf(expenses, report, Lain)
    ensures r.totalBebanUsahaLainnya == SumExpenses(r.bebanUsahaItems)
    ensures r.totalBebanLain == SumExpenses(r.bebanLainItems)
    ensures r.jumlahBeban == r.hppTotal + r.totalBebanUsahaLainnya + r.totalBebanLain
    ensures r.pajakPenghasilan == 0
    ensures r.labaSetelahPajak == r.labaSebelumPajak
            == r.jumlahPendapatan - r.hppTotal - r.totalBebanUsahaLainnya - r.totalBebanLain
  {
    var totalPendapatanUsaha := SumRevenue(revenues, report, Usaha);
    var totalPendapatanLain := SumRevenue(revenues, report, Lain);
    var jumlahPendapatan := totalPendapatanUsaha + totalPendapatanLain;

    var ps := ProductsOfReport(products, report);
    var reportEntries := EntriesOfReport(entries, report);
    var entriesByProduct := GroupEntriesByProduct(reportEntries);

    var hppPerProduct, totalHpp := ProductLines(reportEntries, ps, entriesByProduct);

    var bebanUsahaItems := ExpensesOf(expenses, report, Usaha);
    var bebanLainItems := ExpensesOf(expenses, report, Lain);
    var totalBebanUsaha := SumExpenses(bebanUsahaItems);
    var totalBebanLain := SumExpenses(bebanLainItems);
    var jumlahBeban := totalHpp + totalBebanUsaha + totalBebanLain;

    var labaSebelumPajak := jumlahPendapatan - jumlahBeban;
    var pajakPenghasilan := 0;
    var labaSetelahPajak := labaSebelumPajak - pajakPenghasilan;

    r := FinalReportData(totalPendapatanUsaha, totalPendapatanLain, jumlahPendapatan,
                         totalHpp, hppPerProduct, bebanUsahaItems, bebanLainItems,
                         totalBebanUsaha, totalBebanLain, jumlahBeban,
                         labaSebelumPajak, pajakPenghasilan, labaSetelahPajak);
  }

  // ---------------------------------------------------------------------
  // The worked example of the calculator's tests, as a whole report
  // ---------------------------------------------------------------------

  /** The entries of the calculator's detailed test, in the order the test
      creates them: beginning lots, purchases and ending counts of products
      a (id 1) and b (id 2) of report 1. */
  function GoldenEntries(): seq<HppEntry> {
    [NewHppEntry(1, 1, Awal, quantity := 100, hargaSatuan := 5000),
     NewHppEntry(1, 2, Awal, quantity := 300, hargaSatuan := 7000),
     NewHppEntry(1, 1, Pembelian, quantity := 400, hargaSatuan := 6000,
                 diskon := 200000, returQty := 50, ongkir := 300000),
     NewHppEntry(1, 2, Pembelian, quantity := 700, hargaSatuan := 8500,
                 diskon := 400000, returQty := 50, ongkir := 400000),
     NewHppEntry(1, 1, Akhir, quantity := 400),
     NewHppEntry(1, 2, Akhir, quantity := 1000)]
  }

  /** Product a's line in the worked example carries HPP 550000. */
  lemma GoldenLineA()
    ensures LineFor(GoldenEntries(), Product(1, 1, "a")).hpp == 550000
  {
    var e := GoldenEntries();
    GroupsOfGolden(e);
    GoldenProductA();
  }

  /** Product b's line in the worked example carries HPP 0. */
  lemma GoldenLineB()
    ensures LineFor(GoldenEntries(), Product(2, 1, "b")).hpp == 0
  {
    var e := GoldenEntries();
    GroupsOfGolden(e);
    GoldenProductB();
  }

  /** Products a and b of one report with the entries of the detailed test:
      the report's lines carry HPP 550000 for a and 0 for b, and its HPP
      total is 550000. */
  lemma GoldenReportHpp()
    ensures var lines := Lines(GoldenEntries(), [Product(1, 1, "a"), Product(2, 1, "b")]);
            && lines[0].productName == "a" && lines[0].hpp == 550000
            && lines[1].productName == "b" && lines[1].hpp == 0
            && SumHpp(lines) == 550000
  {
    GoldenLineA();
    GoldenLineB();
    LinesOfTwo(GoldenEntries(), Product(1, 1, "a"), Product(2, 1, "b"));
  }

  /** The lines of two products and their HPP total. */
  lemma LinesOfTwo(entries: seq<HppEntry>, a: Product, b: Product)
    ensures var lines := Lines(entries, [a, b]);
            && lines == [LineFor(entries, a), LineFor(entries, b)]
            && lines[0].productName == a.name && lines[1].productName == b.name
            && SumHpp(lines) == LineFor(entries, a).hpp + LineFor(entries, b).hpp
  {
    assert [a, b][..1] == [a];
    assert [a][..0] == [];
    SumHppOfTwo(LineFor(entries, a), LineFor(entries, b));
  }

  /** The HPP total of two lines. */
  lemma SumHppOfTwo(x: ProductHpp, y: ProductHpp)
    ensures SumHpp([x, y]) == x.hpp + y.hpp
  {
    SumHppSnoc([], x);
    assert [] + [x] == [x];
    SumHppSnoc([x], y);
    assert [x] + [y] == [x, y];
  }

  /** The groups of the worked example, built one entry at a time. */
  lemma GroupsOfGolden(e: seq<HppEntry>)
    requires |e| == 6
    requires e[0].product == 1 && e[0].category == Awal
    requires e[1].product == 2 && e[1].category == Awal
    requires e[2].product == 1 && e[2].category == Pembelian
    requires e[3].product == 2 && e[3].category == Pembelian
    requires e[4].product == 1 && e[4].category == Akhir
    requires e[5].product == 2 && e[5].category == Akhir
    ensures GroupFor(e, 1) == EntryGroup(Some(e[0]), [e[2]], Some(e[4]))
    ensures GroupFor(e, 2) == EntryGroup(Some(e[1]), [e[3]], Some(e[5]))
  {
    var s1 := [e[0]];
    var s2 := s1 + [e[1]];
    var s3 := s2 + [e[2]];
    var s4 := s3 + [e[3]];
    var s5 := s4 + [e[4]];
    assert s5 + [e[5]] == e;
    GroupForSnoc([], e[0], 1);
    GroupForSnoc(s1, e[1], 1);
    GroupForSnoc(s2, e[2], 1);
    GroupForSnoc(s3, e[3], 1);
    GroupForSnoc(s4, e[4], 1);
    GroupForSnoc(s5, e[5], 1);
    GroupForSnoc([], e[0], 2);
    GroupForSnoc(s1, e[1], 2);
    GroupForSnoc(s2, e[2], 2);
    GroupForSnoc(s3, e[3], 2);
    GroupForSnoc(s4, e[4], 2);
    GroupForSnoc(s5, e[5], 2);
  }
}
