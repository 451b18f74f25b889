/** The trading cost-of-goods-sold (HPP) calculation of one product
    (core/utils/hpp_calculator.py): beginning value, net purchases, goods
    available, ending value, HPP, units sold and the ending-quantity check.
    Decimal values are modelled as exact reals; the returned figures are
    truncated toward zero as Python's `int()` does. */
module HppCalculator {
  import opened Common
  import opened Models

  /** The message set when the ending quantity exceeds what was available. */
  const QtyAkhirMessage: string := "Qty Akhir > Qty Tersedia. Periksa data Anda."

  /** `detail_awal`: the beginning lot as entered. */
  datatype AwalDetail = AwalDetail(qty: int, hargaSatuan: int)

  /** `detail_pembelian` and `detail_akhir`: a quantity only. */
  datatype QtyDetail = QtyDetail(qty: int)

  /** The dictionary the calculator returns. */
  datatype HppResult = HppResult(
    totalAwal: int,
    totalPembelianNeto: int,
    barangTersedia: int,
    totalAkhir: int,
    hpp: int,
    hppPerUnit: real,
    detailAwal: Option<AwalDetail>,
    detailPembelian: Option<QtyDetail>,
    detailAkhir: Option<QtyDetail>,
    qtyTerjual: int,
    validationErrorAkhir: Option<string>)

  /** The net cost of one purchase: gross cost less discount, less the
      returned quantity at the purchase price, plus freight. */
  function PurchaseNet(p: HppEntry): int {
    p.quantity * p.hargaSatuan - p.diskon - p.returQty * p.hargaSatuan + p.ongkir
  }

  /** Net purchases: the sum of the purchases' net costs. */
  function NetPurchases(ps: seq<HppEntry>): int
    decreases |ps|
  {
    if ps == [] then 0 else NetPurchases(ps[..|ps| - 1]) + PurchaseNet(ps[|ps| - 1])
  }

  /** Purchased quantity: the sum of the purchases' gross quantities
      (returned quantities are not subtracted). */
  function PurchasedQty(ps: seq<HppEntry>): int
    decreases |ps|
  {
    if ps == [] then 0 else PurchasedQty(ps[..|ps| - 1]) + ps[|ps| - 1].quantity
  }

  /** The average purchase cost per unit; 0 when nothing was purchased. */
  function AverageUnitCost(net: int, qty: int): real {
    if qty > 0 then net as real / qty as real else 0.0
  }

  /** Ending value: the whole beginning value, plus the ending quantity in
      excess of the beginning quantity priced at the average purchase cost. */
  function EndingValue(qtyAwal: int, hargaAwal: int, qtyAkhir: int, unitBeli: real): real {
    (qtyAwal * hargaAwal) as real + (if qtyAkhir > qtyAwal then (qtyAkhir - qtyAwal) as real else 0.0) * unitBeli
  }

  /** The calculation's exact (untruncated) intermediate values. */
  datatype Figures = Figures(
    qtyAwal: int,
    hargaAwal: int,
    totalAwal: int,
    totalPembelianNeto: int,
    totalPembelianQty: int,
    barangTersedia: int,
    qtyAkhir: int,
    qtyTersedia: int,
    unitBeli: real,
    totalAkhir: real,
    qtyTerjual: int,
    hpp: real,
    hppPerUnit: real)

  /** The valuation applied once the purchases are accumulated, as exact
      Decimal values: goods available, the ending-quantity check, average
      purchase cost, ending value, units sold, HPP and HPP per unit. */
  function Valuate(qtyAwal: int, hargaAwal: int, net: int, qtyBeli: int, qtyAkhir: int): Figures {
    var totalAwal := qtyAwal * hargaAwal;
    var tersedia := totalAwal + net;
    var qtyTersedia := qtyAwal + qtyBeli;
    var unitBeli := AverageUnitCost(net, qtyBeli);
    var totalAkhir := EndingValue(qtyAwal, hargaAwal, qtyAkhir, unitBeli);
    var qtyTerjual := qtyTersedia - qtyAkhir;
    var hpp := tersedia as real - totalAkhir;
    var perUnit := if qtyTerjual > 0 then hpp / qtyTerjual as real else 0.0;
    Figures(qtyAwal, hargaAwal, totalAwal, net, qtyBeli, tersedia, qtyAkhir, qtyTersedia,
            unitBeli, totalAkhir, qtyTerjual, hpp, perUnit)
  }

  /** The returned dictionary: money truncated to whole rupiah, each detail
      present only when its entry (or a purchase) is. */
  function ResultOf(f: Figures, hasAwal: bool, hasPurchases: bool, hasAkhir: bool): HppResult {
    HppResult(
      Trunc(f.totalAwal as real),
      Trunc(f.totalPembelianNeto as real),
      Trunc(f.barangTersedia as real),
      Trunc(f.totalAkhir),
      Trunc(f.hpp),
      f.hppPerUnit,
      if hasAwal then Some(AwalDetail(f.qtyAwal, f.hargaAwal)) else None,
      if hasPurchases then Some(QtyDetail(f.totalPembelianQty)) else None,
      if hasAkhir then Some(QtyDetail(f.qtyAkhir)) else None,
      f.qtyTerjual,
      if f.qtyAkhir > f.qtyTersedia then Some(QtyAkhirMessage) else None)
  }

  /** Quantity of an optional entry; 0 when it is absent. */
  function QtyOf(e: Option<HppEntry>): int {
    if e.Some? then e.value.quantity else 0
  }

  /** Unit price of an optional entry; 0 when it is absent. */
  function PriceOf(e: Option<HppEntry>): int {
    if e.Some? then e.value.hargaSatuan else 0
  }

  /** The exact figures of one product. */
  function ExactFigures(awal: Option<HppEntry>, pembelian: seq<HppEntry>, akhir: Option<HppEntry>): Figures {
    Valuate(QtyOf(awal), PriceOf(awal), NetPurchases(pembelian), PurchasedQty(pembelian), QtyOf(akhir))
  }

  /** What `calculate_hpp_for_product` returns for one product. */
  function HppForProduct(awal: Option<HppEntry>, pembelian: seq<HppEntry>, akhir: Option<HppEntry>): HppResult {
    ResultOf(ExactFigures(awal, pembelian, akhir), awal.Some?, pembelian != [], akhir.Some?)
  }

  /** `calculate_hpp_for_product`: accumulates net purchases and purchased
      quantity over the purchase entries in one pass, then values the
      product. */
  method CalculateHppForProduct(awal: Option<HppEntry>, pembelian: seq<HppEntry>, akhir: Option<HppEntry>)
    returns (r: HppResult)
    ensures r == HppForProduct(awal, pembelian, akhir)
  {
    var qtyAwal := if awal.Some? then awal.value.quantity else 0;
    var hargaAwal := if awal.Some? then awal.value.hargaSatuan else 0;

    var totalPembelianNeto := 0;
    var totalPembelianQty := 0;
    var i := 0;
    while i < |pembelian|
      invariant 0 <= i <= |pembelian|
      invariant totalPembelianNeto == NetPurchases(pembelian[..i])
      invariant totalPembelianQty == PurchasedQty(pembelian[..i])
    {
      var p := pembelian[i];
      var pembelianBruto := p.quantity * p.hargaSatuan;
      var jumlahReturRp := p.returQty * p.hargaSatuan;
      var totalPembelian := pembelianBruto - p.diskon - jumlahReturRp + p.ongkir;
      totalPembelianNeto := totalPembelianNeto + totalPembelian;
      totalPembelianQty := totalPembelianQty + p.quantity;
      assert pembelian[..i + 1][..i] == pembelian[..i];
      i := i + 1;
    }
    assert pembelian[..i] == pembelian;

    var qtyAkhir := if akhir.Some? then akhir.value.quantity else 0;
    var figures := Valuate(qtyAwal, hargaAwal, totalPembelianNeto, totalPembelianQty, qtyAkhir);
    r := ResultOf(figures, awal.Some?, pembelian != [], akhir.Some?);
  }

  // ---------------------------------------------------------------------
  // Properties of the calculation
  // ---------------------------------------------------------------------

  /** Net purchases and purchased quantity add up over a split purchase list. */
  lemma {:induction false} PurchasesSplit(a: seq<HppEntry>, b: seq<HppEntry>)
    ensures NetPurchases(a + b) == NetPurchases(a) + NetPurchases(b)
    ensures PurchasedQty(a + b) == PurchasedQty(a) + PurchasedQty(b)
    decreases |b|
  {
    if b == [] {
      assert a + b == a;
    } else {
      var b' := b[..|b| - 1];
      assert (a + b)[..|a + b| - 1] == a + b';
      PurchasesSplit(a, b');
    }
  }

  /** A purchase entry created with no values supplied has every amount 0
      and adds nothing to the purchases, and
      without a beginning or ending entry the whole result is zero. */
  lemma DefaultEntriesAreNeutral(report: ReportId, product: ProductId, ps: seq<HppEntry>)
    ensures var e := NewHppEntry(report, product, Pembelian);
            e.quantity == 0 && e.hargaSatuan == 0 && e.diskon == 0 && e.returQty == 0 && e.ongkir == 0
    ensures NetPurchases(ps + [NewHppEntry(report, product, Pembelian)]) == NetPurchases(ps)
    ensures PurchasedQty(ps + [NewHppEntry(report, product, Pembelian)]) == PurchasedQty(ps)
    ensures var r := HppForProduct(None, [], None);
            r.totalAwal == 0 && r.totalPembelianNeto == 0 && r.barangTersedia == 0 &&
            r.totalAkhir == 0 && r.hpp == 0 && r.hppPerUnit == 0.0 && r.qtyTerjual == 0 &&
            r.detailAwal.None? && r.detailPembelian.None? && r.detailAkhir.None? &&
            r.validationErrorAkhir.None?
  {
    var e := NewHppEntry(report, product, Pembelian);
    PurchasesSplit(ps, [e]);
    TruncInt(0);
  }

  /** Returns lower the net purchase value by the returned quantity at the
      purchase price, but never the purchased quantity: changing one
      purchase's returned quantity leaves `PurchasedQty` as it was. */
  lemma {:induction false} ReturnsReduceValueNotQuantity(ps: seq<HppEntry>, k: nat, retur: int)
    requires k < |ps|
    ensures PurchasedQty(ps[k := ps[k].(returQty := retur)]) == PurchasedQty(ps)
    ensures NetPurchases(ps[k := ps[k].(returQty := retur)])
            == NetPurchases(ps) - (retur - ps[k].returQty) * ps[k].hargaSatuan
    decreases |ps|
  {
    var ps' := ps[k := ps[k].(returQty := retur)];
    var n := |ps| - 1;
    assert ps'[..n] == if k < n then ps[..n][k := ps[k].(returQty := retur)] else ps[..n];
    if k < n {
      ReturnsReduceValueNotQuantity(ps[..n], k, retur);
    }
  }

  /** Beginning value is beginning quantity times beginning price; with no
      beginning entry both are 0 and there is no beginning detail. */
  lemma BeginningValue(awal: Option<HppEntry>, pembelian: seq<HppEntry>, akhir: Option<HppEntry>)
    ensures var r := HppForProduct(awal, pembelian, akhir);
            r.totalAwal == (if awal.Some? then awal.value.quantity * awal.value.hargaSatuan else 0) &&
            (awal.None? <==> r.detailAwal.None?)
  {
    TruncInt(ExactFigures(awal, pembelian, akhir).totalAwal);
  }

  /** Goods available is beginning value plus net purchases, and every
      figure that is a whole number comes back unchanged. */
  lemma GoodsAvailable(awal: Option<HppEntry>, pembelian: seq<HppEntry>, akhir: Option<HppEntry>)
    ensures var r := HppForProduct(awal, pembelian, akhir);
            r.totalPembelianNeto == NetPurchases(pembelian) &&
            r.barangTersedia == r.totalAwal + r.totalPembelianNeto
  {
    var f := ExactFigures(awal, pembelian, akhir);
    TruncInt(f.totalAwal);
    TruncInt(f.totalPembelianNeto);
    TruncInt(f.barangTersedia);
  }

  /** The validation message is set exactly when the ending quantity exceeds
      beginning plus purchased quantity, which is exactly when units sold
      is negative: the figures are returned without clamping. */
  lemma ValidationFlag(awal: Option<HppEntry>, pembelian: seq<HppEntry>, akhir: Option<HppEntry>)
    ensures var r := HppForProduct(awal, pembelian, akhir);
            var qtyAwal := if awal.Some? then awal.value.quantity else 0;
            var qtyAkhir := if akhir.Some? then akhir.value.quantity else 0;
            && (r.validationErrorAkhir == Some(QtyAkhirMessage) <==> qtyAkhir > qtyAwal + PurchasedQty(pembelian))
            && (r.validationErrorAkhir.None? <==> qtyAkhir <= qtyAwal + PurchasedQty(pembelian))
            && r.qtyTerjual == qtyAwal + PurchasedQty(pembelian) - qtyAkhir
            && (r.validationErrorAkhir.Some? <==> r.qtyTerjual < 0)
  {
  }

  /** The average purchase cost never divides by zero: it is 0 without
      purchased units, and otherwise it recovers net purchases exactly. */
  lemma AverageCostGuarded(awal: Option<HppEntry>, pembelian: seq<HppEntry>, akhir: Option<HppEntry>)
    ensures var f := ExactFigures(awal, pembelian, akhir);
            && (PurchasedQty(pembelian) <= 0 ==> f.unitBeli == 0.0)
            && (PurchasedQty(pembelian) > 0 ==> f.unitBeli * PurchasedQty(pembelian) as real == NetPurchases(pembelian) as real)
  {
    var f := ExactFigures(awal, pembelian, akhir);
    if f.totalPembelianQty > 0 {
      QuotientTimesDivisor(f.totalPembelianNeto as real, f.totalPembelianQty as real);
    }
  }

  /** With no purchases, net purchases and the average cost are 0 and HPP is
      what the beginning value loses to nothing: HPP is 0. */
  lemma NoPurchases(awal: Option<HppEntry>, akhir: Option<HppEntry>)
    ensures var f := ExactFigures(awal, [], akhir);
            f.totalPembelianNeto == 0 && f.unitBeli == 0.0 && f.totalAkhir == f.totalAwal as real && f.hpp == 0.0
    ensures HppForProduct(awal, [], akhir).hpp == 0
  {
    TruncInt(0);
  }

  /** Ending value always contains the whole beginning value. When the
      ending quantity is at most the beginning quantity it is exactly the
      beginning value and HPP is exactly net purchases, even when fewer
      units remain than were there at the start. */
  lemma EndingValueRule(awal: Option<HppEntry>, pembelian: seq<HppEntry>, akhir: Option<HppEntry>)
    ensures var f := ExactFigures(awal, pembelian, akhir);
            && (f.qtyAkhir > f.qtyAwal ==>
                  f.totalAkhir == f.totalAwal as real + (f.qtyAkhir - f.qtyAwal) as real * f.unitBeli)
            && (f.qtyAkhir <= f.qtyAwal ==>
                  f.totalAkhir == f.totalAwal as real && f.hpp == NetPurchases(pembelian) as real)
    ensures var r := HppForProduct(awal, pembelian, akhir);
            var qtyAwal := if awal.Some? then awal.value.quantity else 0;
            var qtyAkhir := if akhir.Some? then akhir.value.quantity else 0;
            qtyAkhir <= qtyAwal ==> r.totalAkhir == r.totalAwal && r.hpp == r.totalPembelianNeto
  {
    var f := ExactFigures(awal, pembelian, akhir);
    TruncInt(f.totalAwal);
    TruncInt(f.totalPembelianNeto);
    if f.qtyAkhir <= f.qtyAwal {
      assert f.hpp == f.totalPembelianNeto as real;
    }
  }

  /** When the ending count equals everything available and something was
      purchased, the ending value is all goods available and HPP is 0. */
  lemma AllGoodsRemain(awal: Option<HppEntry>, pembelian: seq<HppEntry>, akhir: Option<HppEntry>)
    requires PurchasedQty(pembelian) > 0
    requires (if akhir.Some? then akhir.value.quantity else 0)
             == (if awal.Some? then awal.value.quantity else 0) + PurchasedQty(pembelian)
    ensures var f := ExactFigures(awal, pembelian, akhir);
            f.totalAkhir == f.barangTersedia as real && f.hpp == 0.0
    ensures var r := HppForProduct(awal, pembelian, akhir);
            r.totalAkhir == r.barangTersedia && r.hpp == 0 && r.validationErrorAkhir.None? && r.hppPerUnit == 0.0
  {
    var f := ExactFigures(awal, pembelian, akhir);
    QuotientTimesDivisor(f.totalPembelianNeto as real, f.totalPembelianQty as real);
    assert f.unitBeli * f.totalPembelianQty as real == f.totalPembelianNeto as real;
    assert f.totalAkhir == f.barangTersedia as real;
    TruncInt(f.barangTersedia);
    TruncInt(0);
  }

  /** Before truncation HPP and ending value add up to goods available
      exactly; after truncation they miss it by at most one rupiah, and not
      at all when the ending value is a whole number. */
  lemma Conservation(awal: Option<HppEntry>, pembelian: seq<HppEntry>, akhir: Option<HppEntry>)
    ensures var f := ExactFigures(awal, pembelian, akhir);
            f.hpp + f.totalAkhir == f.barangTersedia as real
    ensures var r := HppForProduct(awal, pembelian, akhir);
            -1 <= r.barangTersedia - (r.hpp + r.totalAkhir) <= 1
    ensures IsWhole(ExactFigures(awal, pembelian, akhir).totalAkhir) ==>
            var r := HppForProduct(awal, pembelian, akhir);
            r.hpp + r.totalAkhir == r.barangTersedia
  {
    var f := ExactFigures(awal, pembelian, akhir);
    TruncInt(f.barangTersedia);
    TruncSplit(f.barangTersedia, f.totalAkhir);
  }

  /** HPP per unit is 0 unless units were sold; otherwise it times units
      sold is the exact HPP. */
  lemma PerUnitGuarded(awal: Option<HppEntry>, pembelian: seq<HppEntry>, akhir: Option<HppEntry>)
    ensures var f := ExactFigures(awal, pembelian, akhir);
            && (f.qtyTerjual <= 0 ==> f.hppPerUnit == 0.0)
            && (f.qtyTerjual > 0 ==> f.hppPerUnit * f.qtyTerjual as real == f.hpp)
  {
    ValuatePerUnit(QtyOf(awal), PriceOf(awal), NetPurchases(pembelian), PurchasedQty(pembelian), QtyOf(akhir));
  }

  lemma ValuatePerUnit(qtyAwal: int, hargaAwal: int, net: int, qtyBeli: int, qtyAkhir: int)
    ensures var f := Valuate(qtyAwal, hargaAwal, net, qtyBeli, qtyAkhir);
            && (f.qtyTerjual <= 0 ==> f.hppPerUnit == 0.0)
            && (f.qtyTerjual > 0 ==> f.hppPerUnit * f.qtyTerjual as real == f.hpp)
  {
    var f := Valuate(qtyAwal, hargaAwal, net, qtyBeli, qtyAkhir);
    if f.qtyTerjual > 0 {
      QuotientTimesDivisor(f.hpp, f.qtyTerjual as real);
    }
  }

  /** The purchase-detail quantity is present exactly when there are
      purchases, and is then the gross purchased quantity. */
  lemma PurchaseDetail(awal: Option<HppEntry>, pembelian: seq<HppEntry>, akhir: Option<HppEntry>)
    ensures var r := HppForProduct(awal, pembelian, akhir);
            && (r.detailPembelian.None? <==> pembelian == [])
            && (r.detailPembelian.Some? ==> r.detailPembelian.value.qty == PurchasedQty(pembelian))
            && (r.detailAkhir.None? <==> akhir.None?)
  {
  }

  // ---------------------------------------------------------------------
  // The two worked examples of the calculator's tests
  // ---------------------------------------------------------------------

  /** Product A: 100 @ 5000 at the start; 400 @ 6000 bought with discount
      200000, 50 returned and freight 300000; 400 at the end. */
  lemma GoldenProductA()
    ensures var r := HppForProduct(
              Some(NewHppEntry(1, 1, Awal, quantity := 100, hargaSatuan := 5000)),
              [NewHppEntry(1, 1, Pembelian, quantity := 400, hargaSatuan := 6000,
                           diskon := 200000, returQty := 50, ongkir := 300000)],
              Some(NewHppEntry(1, 1, Akhir, quantity := 400)));
            r.totalAwal == 500000 && r.totalPembelianNeto == 2200000 &&
            r.barangTersedia == 2700000 && r.totalAkhir == 2150000 && r.hpp == 550000
  {
    var awal := Some(NewHppEntry(1, 1, Awal, quantity := 100, hargaSatuan := 5000));
    var ps := [NewHppEntry(1, 1, Pembelian, quantity := 400, hargaSatuan := 6000,
                           diskon := 200000, returQty := 50, ongkir := 300000)];
    var akhir := Some(NewHppEntry(1, 1, Akhir, quantity := 400));
    assert ps[..0] == [];
    assert NetPurchases(ps) == 2200000;
    assert PurchasedQty(ps) == 400;
    var f := ExactFigures(awal, ps, akhir);
    assert f.unitBeli == 5500.0;
    assert f.totalAkhir == 2150000.0;
    assert f.hpp == 550000.0;
    TruncInt(500000);
    TruncInt(2200000);
    TruncInt(2700000);
    TruncInt(2150000);
    TruncInt(550000);
  }

  /** Product B: 300 @ 7000 at the start; 700 @ 8500 bought with discount
      400000, 50 returned and freight 400000; 1000 at the end. */
  lemma GoldenProductB()
    ensures var r := HppForProduct(
              Some(NewHppEntry(1, 2, Awal, quantity := 300, hargaSatuan := 7000)),
              [NewHppEntry(1, 2, Pembelian, quantity := 700, hargaSatuan := 8500,
                           diskon := 400000, returQty := 50, ongkir := 400000)],
              Some(NewHppEntry(1, 2, Akhir, quantity := 1000)));
            r.totalAwal == 2100000 && r.totalPembelianNeto == 5525000 &&
            r.barangTersedia == 7625000 && r.totalAkhir == 7625000 && r.hpp == 0
  {
    var awal := Some(NewHppEntry(1, 2, Awal, quantity := 300, hargaSatuan := 7000));
    var ps := [NewHppEntry(1, 2, Pembelian, quantity := 700, hargaSatuan := 8500,
                           diskon := 400000, returQty := 50, ongkir := 400000)];
    var akhir := Some(NewHppEntry(1, 2, Akhir, quantity := 1000));
    assert ps[..0] == [];
    assert NetPurchases(ps) == 5525000;
    assert PurchasedQty(ps) == 700;
    AllGoodsRemain(awal, ps, akhir);
    TruncInt(2100000);
    TruncInt(5525000);
    TruncInt(7625000);
  }
}
