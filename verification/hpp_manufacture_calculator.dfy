/** The manufacturing HPP chain of one product
    (core/utils/hpp_manufacture_calculator.py): raw materials used, total
    production cost, cost after work in process, HPP of goods sold and HPP
    per unit sold. Pool amounts are Decimal values, modelled as exact reals;
    the returned money figures are truncated toward zero. */
module HppManufactureCalculator {
  import opened Common
  import opened Models

  /** The pool keys the calculator reads. */
  const BbAwal: string := "BB_AWAL"
  const BbPembelian: string := "BB_PEMBELIAN"
  const BbAkhir: string := "BB_AKHIR"
  const Btkl: string := "BTKL"
  const Bop: string := "BOP"
  const WipAwal: string := "WIP_AWAL"
  const WipAkhir: string := "WIP_AKHIR"
  const FgAwal: string := "FG_AWAL"
  const FgAkhir: string := "FG_AKHIR"

  /** The amount of one pool; a pool that is absent counts as 0. */
  function Pool(data: map<string, real>, key: string): real {
    if key in data then data[key] else 0.0
  }

  /** Units of `product` sold: the sum of the quantities of its operating
      ('usaha') revenue items; 0 when it has none. */
  function QtySold(revenues: seq<RevenueRow>, product: ProductId): int
    decreases |revenues|
  {
    if revenues == [] then 0
    else
      (if revenues[0].product == Some(product) && revenues[0].revenueType == Usaha
       then revenues[0].quantity else 0)
      + QtySold(revenues[1..], product)
  }

  /** The exact (untruncated) stages of the chain. */
  datatype Chain = Chain(
    bbDipakai: real,
    biayaProduksi: real,
    biayaSetelahWip: real,
    hpp: real,
    hppPerUnit: real)

  function ManufactureChain(data: map<string, real>, qtyTerjual: int): Chain {
    var bbDipakai := Pool(data, BbAwal) + Pool(data, BbPembelian) - Pool(data, BbAkhir);
    var biayaProduksi := bbDipakai + Pool(data, Btkl) + Pool(data, Bop);
    var biayaSetelahWip := biayaProduksi + Pool(data, WipAwal) - Pool(data, WipAkhir);
    var hpp := Pool(data, FgAwal) + biayaSetelahWip - Pool(data, FgAkhir);
    var perUnit := if qtyTerjual > 0 then hpp / qtyTerjual as real else 0.0;
    Chain(bbDipakai, biayaProduksi, biayaSetelahWip, hpp, perUnit)
  }

  /** The dictionary the calculator returns: the four stages, the unit
      cost, the units sold and the nine pools echoed back. */
  datatype ManufactureResult = ManufactureResult(
    bbDipakai: int,
    biayaProduksi: int,
    biayaSetelahWip: int,
    hpp: int,
    hppPerUnit: real,
    qtyTerjual: int,
    bbAwal: int,
    bbPembelian: int,
    bbAkhir: int,
    btkl: int,
    bop: int,
    wipAwal: int,
    wipAkhir: int,
    fgAwal: int,
    fgAkhir: int)

  /** The six pools that flow into cost of goods sold. */
  function Inflows(data: map<string, real>): real {
    Pool(data, BbAwal) + Pool(data, BbPembelian) + Pool(data, Btkl) + Pool(data, Bop)
    + Pool(data, WipAwal) + Pool(data, FgAwal)
  }

  /** The three ending pools that are held back from it. */
  function Endings(data: map<string, real>): real {
    Pool(data, BbAkhir) + Pool(data, WipAkhir) + Pool(data, FgAkhir)
  }

  /** `calculate_hpp_manufacture`: the units sold come from the product's
      operating revenue items (a query in the application, a parameter
      here). HPP is all inflow pools less all ending pools, and every pool
      is echoed back truncated. */
  function CalculateHppManufacture(product: ProductId, data: map<string, real>, revenues: seq<RevenueRow>)
    : (r: ManufactureResult)
    ensures r.bbDipakai == Trunc(Pool(data, BbAwal) + Pool(data, BbPembelian) - Pool(data, BbAkhir))
    ensures r.biayaProduksi == Trunc(Pool(data, BbAwal) + Pool(data, BbPembelian) - Pool(data, BbAkhir)
                                     + Pool(data, Btkl) + Pool(data, Bop))
    ensures r.biayaSetelahWip == Trunc(Pool(data, BbAwal) + Pool(data, BbPembelian) - Pool(data, BbAkhir)
                                       + Pool(data, Btkl) + Pool(data, Bop)
                                       + Pool(data, WipAwal) - Pool(data, WipAkhir))
    ensures r.hpp == Trunc(Inflows(data) - Endings(data))
    ensures r.qtyTerjual <= 0 ==> r.hppPerUnit == 0.0
    ensures r.qtyTerjual > 0 ==> r.hppPerUnit == (Inflows(data) - Endings(data)) / r.qtyTerjual as real
    ensures r.qtyTerjual == QtySold(revenues, product)
    ensures r.bbAwal == Trunc(Pool(data, BbAwal)) && r.bbPembelian == Trunc(Pool(data, BbPembelian))
    ensures r.bbAkhir == Trunc(Pool(data, BbAkhir)) && r.btkl == Trunc(Pool(data, Btkl))
    ensures r.bop == Trunc(Pool(data, Bop)) && r.wipAwal == Trunc(Pool(data, WipAwal))
    ensures r.wipAkhir == Trunc(Pool(data, WipAkhir)) && r.fgAwal == Trunc(Pool(data, FgAwal))
    ensures r.fgAkhir == Trunc(Pool(data, FgAkhir))
  {
    var qty := QtySold(revenues, product);
    var c := ManufactureChain(data, qty);
    ManufactureResult(
      Trunc(c.bbDipakai), Trunc(c.biayaProduksi), Trunc(c.biayaSetelahWip), Trunc(c.hpp),
      c.hppPerUnit, qty,
      Trunc(Pool(data, BbAwal)), Trunc(Pool(data, BbPembelian)), Trunc(Pool(data, BbAkhir)),
      Trunc(Pool(data, Btkl)), Trunc(Pool(data, Bop)),
      Trunc(Pool(data, WipAwal)), Trunc(Pool(data, WipAkhir)),
      Trunc(Pool(data, FgAwal)), Trunc(Pool(data, FgAkhir)))
  }

  // ---------------------------------------------------------------------
  // Properties of the chain
  // ---------------------------------------------------------------------

  /** A pool key that is missing behaves exactly like the key holding 0. */
  lemma MissingPoolIsZero(product: ProductId, data: map<string, real>, revenues: seq<RevenueRow>, key: string)
    requires key !in data
    ensures CalculateHppManufacture(product, data[key := 0.0], revenues)
            == CalculateHppManufacture(product, data, revenues)
  {
    forall k ensures Pool(data[key := 0.0], k) == Pool(data, k) {
    }
    var q := QtySold(revenues, product);
    assert ManufactureChain(data[key := 0.0], q) == ManufactureChain(data, q);
  }

  /** With no pools at all and no sales every figure is 0. */
  lemma NoPoolsNoCost(product: ProductId)
    ensures var r := CalculateHppManufacture(product, map[], []);
            r.bbDipakai == 0 && r.biayaProduksi == 0 && r.biayaSetelahWip == 0 && r.hpp == 0 &&
            r.hppPerUnit == 0.0 && r.qtyTerjual == 0 &&
            r.bbAwal == 0 && r.bbPembelian == 0 && r.bbAkhir == 0 && r.btkl == 0 && r.bop == 0 &&
            r.wipAwal == 0 && r.wipAkhir == 0 && r.fgAwal == 0 && r.fgAkhir == 0
  {
    TruncInt(0);
  }

  /** Each stage adds to the one before it: raw materials used are beginning
      plus purchased less ending materials; production cost adds labour and
      overhead; work in process moves in and out; finished goods move in and
      out. */
  lemma ChainStages(data: map<string, real>, qtyTerjual: int)
    ensures var c := ManufactureChain(data, qtyTerjual);
            && c.bbDipakai == Pool(data, BbAwal) + Pool(data, BbPembelian) - Pool(data, BbAkhir)
            && c.biayaProduksi - c.bbDipakai == Pool(data, Btkl) + Pool(data, Bop)
            && c.biayaSetelahWip - c.biayaProduksi == Pool(data, WipAwal) - Pool(data, WipAkhir)
            && c.hpp - c.biayaSetelahWip == Pool(data, FgAwal) - Pool(data, FgAkhir)
            && c.hpp == Inflows(data) - Endings(data)
  {
  }

  /** When every pool is a whole amount nothing is lost to truncation: the
      returned stages add up from the returned pools exactly. */
  lemma WholePoolsNoDrift(product: ProductId, data: map<string, real>, revenues: seq<RevenueRow>)
    requires forall k :: k in data ==> IsWhole(data[k])
    ensures var r := CalculateHppManufacture(product, data, revenues);
            && r.bbDipakai == r.bbAwal + r.bbPembelian - r.bbAkhir
            && r.biayaProduksi == r.bbDipakai + r.btkl + r.bop
            && r.biayaSetelahWip == r.biayaProduksi + r.wipAwal - r.wipAkhir
            && r.hpp == r.fgAwal + r.biayaSetelahWip - r.fgAkhir
  {
    var c := ManufactureChain(data, QtySold(revenues, product));
    WholePools(data);
    WholeStages(data, QtySold(revenues, product));
    TruncWhole(c.bbDipakai);
    TruncWhole(c.biayaProduksi);
    TruncWhole(c.biayaSetelahWip);
    TruncWhole(c.hpp);
  }

  /** Pools of whole amounts are whole and come back unchanged when
      truncated, present or not. */
  lemma WholePools(data: map<string, real>)
    requires forall k :: k in data ==> IsWhole(data[k])
    ensures forall k :: IsWhole(Pool(data, k)) && Trunc(Pool(data, k)) as real == Pool(data, k)
  {
    forall k ensures IsWhole(Pool(data, k)) && Trunc(Pool(data, k)) as real == Pool(data, k) {
      assert IsWhole(0.0);
      TruncWhole(Pool(data, k));
    }
  }

  /** With whole pools every stage of the chain is whole. */
  lemma WholeStages(data: map<string, real>, qtyTerjual: int)
    requires forall k :: IsWhole(Pool(data, k))
    ensures var c := ManufactureChain(data, qtyTerjual);
            IsWhole(c.bbDipakai) && IsWhole(c.biayaProduksi) && IsWhole(c.biayaSetelahWip) && IsWhole(c.hpp)
  {
    var c := ManufactureChain(data, qtyTerjual);
    WholeAddSub(Pool(data, BbAwal), Pool(data, BbPembelian));
    WholeAddSub(Pool(data, BbAwal) + Pool(data, BbPembelian), Pool(data, BbAkhir));
    WholeAddSub(c.bbDipakai, Pool(data, Btkl));
    WholeAddSub(c.bbDipakai + Pool(data, Btkl), Pool(data, Bop));
    WholeAddSub(c.biayaProduksi, Pool(data, WipAwal));
    WholeAddSub(c.biayaProduksi + Pool(data, WipAwal), Pool(data, WipAkhir));
    WholeAddSub(Pool(data, FgAwal), c.biayaSetelahWip);
    WholeAddSub(Pool(data, FgAwal) + c.biayaSetelahWip, Pool(data, FgAkhir));
  }

  /** HPP per unit is 0 unless units were sold; otherwise it times units
      sold is the exact HPP. */
  lemma PerUnitGuarded(data: map<string, real>, qtyTerjual: int)
    ensures var c := ManufactureChain(data, qtyTerjual);
            && (qtyTerjual <= 0 ==> c.hppPerUnit == 0.0)
            && (qtyTerjual > 0 ==> c.hppPerUnit * qtyTerjual as real == c.hpp)
  {
    var c := ManufactureChain(data, qtyTerjual);
    if qtyTerjual > 0 {
      QuotientTimesDivisor(c.hpp, qtyTerjual as real);
    }
  }

  /** Units sold add up over a split list of revenue items. */
  lemma {:induction false} QtySoldSplit(a: seq<RevenueRow>, b: seq<RevenueRow>, product: ProductId)
    ensures QtySold(a + b, product) == QtySold(a, product) + QtySold(b, product)
    decreases |a|
  {
    if a == [] {
      assert a + b == b;
    } else {
      assert (a + b)[1..] == a[1..] + b;
      QtySoldSplit(a[1..], b, product);
    }
  }

  /** Only the product's own operating revenue items count: when no item is
      an operating item of the product, the units sold are 0. */
  lemma {:induction false} QtySoldOnlyOwnOperating(revenues: seq<RevenueRow>, product: ProductId)
    requires forall k :: 0 <= k < |revenues| ==>
               revenues[k].product != Some(product) || revenues[k].revenueType != Usaha
    ensures QtySold(revenues, product) == 0
    decreases |revenues|
  {
    if revenues != [] {
      QtySoldOnlyOwnOperating(revenues[1..], product);
    }
  }
}
