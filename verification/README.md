# HPP and final report of web_akuntansi, in Dafny

This project models the cost-of-goods-sold (HPP, *harga pokok penjualan*)
core of the web_akuntansi Django accounting application and proves
properties of it:

- `common.dfy` (`Common`): an `Option` type, Python's `int()` of a Decimal
  (truncation toward zero) and the facts about truncation the
  calculators rely on.
- `models.dfy` (`Models`): the records of core/models.py (products, HPP
  entries, revenue and expense items, manufacturing production records).
  It also holds `RevenueItem` as a class whose `Save` derives the total
  and the name in place. A `ReportStore` class holds the stored records;
  its invariant is the three `unique_together` constraints.
- `hpp_calculator.dfy` (`HppCalculator`): `calculate_hpp_for_product`.
  This covers the beginning value, the purchase loop (net purchases and
  gross purchased quantity), goods available and the ending-quantity
  check. It also covers the average purchase cost, the ending value,
  units sold, HPP and HPP per unit, and the truncated result dictionary.
  The loop is a method proved against the specification function
  `HppForProduct`.
- `hpp_manufacture_calculator.dfy` (`HppManufactureCalculator`):
  `calculate_hpp_manufacture`. It follows the chain from raw materials
  used, through production cost and work in process, to finished goods
  and HPP. The units sold are the product's operating revenue quantities.
- `final_report.dfy` (`FinalReport`): `generate_final_report_data`. The
  grouping loop that builds `entries_by_product` is a method proved
  against the declarative `GroupFor`. The product loop builds
  `hpp_per_product` and the HPP total. The report also totals revenue,
  expenses and profit.

Decimal amounts are exact `real`s. Quantities and money stored in the
database are `int`s. Every `int()` of a Decimal that may carry a fraction
goes through `Common.Trunc`. The calculator's detail quantities, unit
price and units sold are sums and differences of integer fields, so the
source's `int()` of them is the value itself.

## Model

| member | source | states |
|---|---|---|
| Common.Trunc | core/utils/hpp_calculator.py:56-60 | `int()` of a Decimal moves it toward zero by less than one: below it for non-negative values, above it for negative ones |
| Common.TruncSplit | core/utils/final_report.py:61 | truncating the two parts of a whole amount loses at most one unit, and nothing when the parts are whole |
| Models.NewHppEntry | core/models.py:75-84 | a created HPP entry has the report, product and category given, no note, and each numeric field as given or 0 by default |
| Models.RevenueItem.constructor | core/models.py:44-51 | a new revenue item is of type 'usaha' with quantity 1, price 0 and total 0 unless given |
| Models.RevenueItem.Save | core/models.py:53-59 | saving a 'usaha' item sets total = quantity × selling price, so the row it persists has total = quantity × selling price; with a product its name becomes the product's name, without one the name is kept; any other item keeps total and name; no other field changes |
| Models.EntriesOfReport | core/utils/final_report.py:31 | a report's entries all belong to that report and are stored entries |
| Models.EntriesOfReportMembership | core/utils/final_report.py:31 | an entry is among a report's entries exactly when it is stored and belongs to that report |
| Models.EntriesOfReportUnique | core/models.py:86-87 | one report's entries keep the (report, product, category) constraint |
| Models.ReportStore.constructor | core/models.py:28-33 | an empty store satisfies every uniqueness constraint |
| Models.ReportStore.AddProduct | core/models.py:32-33 | a product is added exactly when its name is new in its report; the constraint is kept and nothing else changes |
| Models.ReportStore.AddHppEntry | core/models.py:86-87 | an HPP entry is added exactly when its (report, product, category) is new; the constraint is kept and nothing else changes |
| Models.ReportStore.AddProduction | core/models.py:179-180 | a production record is added exactly when its (report, product) is new; the constraint is kept and nothing else changes |
| HppCalculator.CalculateHppForProduct | core/utils/hpp_calculator.py:4-80 | the purchase loop accumulates exactly `NetPurchases` and `PurchasedQty`, and the result is the specified valuation |
| HppCalculator.PurchasesSplit | core/utils/hpp_calculator.py:17-23 | net purchases and purchased quantity add up over any split of the purchase list |
| HppCalculator.DefaultEntriesAreNeutral | core/models.py:79-84 | an entry created without amounts has every amount 0 and adds nothing to the purchases; with no entries at all every figure is 0 and every detail absent |
| HppCalculator.ReturnsReduceValueNotQuantity | core/utils/hpp_calculator.py:18-23 | a returned quantity lowers net purchases by that quantity at the purchase price and leaves the purchased quantity unchanged |
| HppCalculator.BeginningValue | core/utils/hpp_calculator.py:9-12 | beginning value is quantity × price of the AWAL entry, 0 without one; the beginning detail is absent exactly when there is no AWAL entry |
| HppCalculator.GoodsAvailable | core/utils/hpp_calculator.py:25 | returned net purchases are the purchases' net sum and goods available is beginning value plus net purchases |
| HppCalculator.ValidationFlag | core/utils/hpp_calculator.py:27-32 | the message is set exactly when ending qty > beginning qty + purchased qty, which is exactly when units sold is negative; units sold is returned unclamped |
| HppCalculator.AverageCostGuarded | core/utils/hpp_calculator.py:34-37 | the average purchase cost is 0 without purchased units and otherwise times purchased units gives net purchases back |
| HppCalculator.NoPurchases | core/utils/hpp_calculator.py:34-47 | without purchases the ending value is the beginning value and HPP is 0 |
| HppCalculator.EndingValueRule | core/utils/hpp_calculator.py:40-47 | ending value is the beginning value plus the excess ending units at average cost; when ending qty ≤ beginning qty it is the beginning value and HPP is net purchases |
| HppCalculator.AllGoodsRemain | core/utils/hpp_calculator.py:40-53 | when everything available is still at hand after a purchase, ending value is goods available, HPP is 0 and there is no message |
| HppCalculator.Conservation | core/utils/hpp_calculator.py:47-60 | exact HPP + ending value = goods available; the truncated figures miss that by at most one, and not at all when the ending value is whole |
| HppCalculator.PerUnitGuarded | core/utils/hpp_calculator.py:50-53 | HPP per unit is 0 unless units were sold, and otherwise times units sold is HPP |
| HppCalculator.ValuatePerUnit | core/utils/hpp_calculator.py:50-53 | the same per-unit rule for any valuation inputs |
| HppCalculator.PurchaseDetail | core/utils/hpp_calculator.py:63-75 | the purchase detail is absent exactly when there are no purchases and otherwise holds the gross purchased quantity; the ending detail is absent exactly when there is no AKHIR entry |
| HppCalculator.GoldenProductA | core/tests/test_hpp_calculator.py:81-96 | product A gives 500000, 2200000, 2700000, 2150000 and HPP 550000 |
| HppCalculator.GoldenProductB | core/tests/test_hpp_calculator.py:98-113 | product B gives 2100000, 5525000, 7625000, 7625000 and HPP 0 |
| HppManufactureCalculator.CalculateHppManufacture | core/utils/hpp_manufacture_calculator.py:5-55 | raw materials used, production cost and cost after work in process are the truncated running sums of their pools; HPP is the truncated sum of the six inflow pools less the three ending pools; HPP per unit is 0 unless units were sold and otherwise HPP over units sold; units sold are the product's operating revenue quantities; every pool is echoed back truncated |
| HppManufactureCalculator.MissingPoolIsZero | core/utils/hpp_manufacture_calculator.py:6-17 | a missing pool gives the same result as that pool holding 0 |
| HppManufactureCalculator.NoPoolsNoCost | core/utils/hpp_manufacture_calculator.py:6-55 | with no pools and no sales every returned figure is 0 |
| HppManufactureCalculator.ChainStages | core/utils/hpp_manufacture_calculator.py:20-29 | each stage adds its own pools to the one before, and HPP is all inflows less all ending pools |
| HppManufactureCalculator.WholePoolsNoDrift | core/utils/hpp_manufacture_calculator.py:42-54 | with whole pool amounts the returned stages add up exactly from the returned pools |
| HppManufactureCalculator.WholeStages | core/utils/hpp_manufacture_calculator.py:20-29 | with whole pool amounts every stage of the chain is whole |
| HppManufactureCalculator.PerUnitGuarded | core/utils/hpp_manufacture_calculator.py:37-40 | HPP per unit is 0 unless units were sold, and otherwise times units sold is HPP |
| HppManufactureCalculator.QtySoldSplit | core/utils/hpp_manufacture_calculator.py:32-35 | units sold add up over any split of the revenue items |
| HppManufactureCalculator.QtySoldOnlyOwnOperating | core/utils/hpp_manufacture_calculator.py:32-35 | with no operating revenue item of the product, units sold are 0 |
| FinalReport.Select | core/utils/final_report.py:30-40 | the entries selected for a product and category are stored entries of that product and category |
| FinalReport.SelectMembership | core/utils/final_report.py:30-40 | an entry is selected exactly when it is in the list with the product and category asked for |
| FinalReport.NoEntriesEmptyGroup | core/utils/final_report.py:47 | a product without entries gets no AWAL, no purchases and no AKHIR |
| FinalReport.GroupForSnoc | core/utils/final_report.py:33-40 | one more entry changes only its own product's group: AWAL and AKHIR replace, PEMBELIAN appends, other categories change nothing |
| FinalReport.GroupStep | core/utils/final_report.py:31-40 | one step of the grouping loop keeps the map equal to the groups of the entries seen so far |
| FinalReport.GroupEntriesByProduct | core/utils/final_report.py:30-40 | the map has a key for exactly the products with entries, and each holds the last AWAL, all purchases in order and the last AKHIR of that product |
| FinalReport.AtMostOnePerKey | core/models.py:86-87 | among one report's entries under the constraint, at most one matches a product and category |
| FinalReport.StoredGroupIsComplete | core/models.py:86-87 | under the constraint a product has at most one AWAL, one PEMBELIAN and one AKHIR entry in a report, and the group has an AWAL (AKHIR) entry exactly when one is stored |
| FinalReport.GroupOrDefault | core/utils/final_report.py:47 | the lookup with the empty default gives the product's group |
| FinalReport.AppendProductLine | core/utils/final_report.py:47-66 | the loop body appends exactly the next product's line, built from the calculator's result on its group, and adds its HPP to the total |
| FinalReport.ProductLines | core/utils/final_report.py:43-76 | one line per product, in product order, and the running total is the sum of the lines' HPP |
| FinalReport.Lines | core/utils/final_report.py:46-76 | there is exactly one line per product |
| FinalReport.LinesAt | core/utils/final_report.py:46-76 | line k is the line of product k: the products' order is kept |
| FinalReport.LinePerUnitGuarded | core/utils/final_report.py:58-62 | a line's unit cost is 0 unless units were sold, and otherwise times units sold is the line's HPP |
| FinalReport.LineAgreesWithCalculator | core/utils/final_report.py:50-61 | a line's units sold are the calculator's; its HPP is goods available less ending value, within one of the calculator's HPP and equal to it when the exact ending value is whole |
| FinalReport.HppTotalWithinProducts | core/utils/final_report.py:61-64 | the HPP total differs from the sum of the calculator's HPP by at most one per product |
| FinalReport.SumHppSplit | core/utils/final_report.py:64 | the HPP total adds up over any split of the lines |
| FinalReport.ProductsOfReport | core/utils/final_report.py:27 | the report's products all belong to it and are stored products |
| FinalReport.ProductsOfReportMembership | core/utils/final_report.py:27 | a product is listed exactly when it is stored and belongs to the report |
| FinalReport.OperatingRevenueIsSalesValue | core/utils/final_report.py:16-18 | when every operating item was saved, operating revenue is the sum of quantity × selling price |
| FinalReport.ExpensesOf | core/utils/final_report.py:81-82 | listed expense items are stored items of the report and category |
| FinalReport.ExpensesOfMembership | core/utils/final_report.py:81-82 | an expense item is listed exactly when it is stored with the report and category |
| FinalReport.GenerateFinalReportData | core/utils/final_report.py:7-119 | revenue per type and their sum; one line per product and the HPP total as their sum; expense items and totals per category; total expense; profit before tax; tax 0; profit after tax equal to profit before tax |
| FinalReport.GoldenLineA | core/tests/test_hpp_calculator.py:128-145 | in the test's report product a's line carries HPP 550000 |
| FinalReport.GoldenLineB | core/tests/test_hpp_calculator.py:128-145 | in the test's report product b's line carries HPP 0 |
| FinalReport.GoldenReportHpp | core/tests/test_hpp_calculator.py:128-145 | the test's six entries give lines with HPP 550000 for a and 0 for b, and an HPP total of 550000 |

## Left out

- Decimal arithmetic is exact here. The 28-digit context rounding of
  Python's Decimal divisions (average purchase cost, HPP per unit) is not
  modelled. Its effect can show in the truncated ending value and in a
  report line's HPP: with net purchases of 1000000 over 3 units all
  still on hand, the rounded average cost makes the source's ending value
  999999.99…9, truncated to 999999, and the line's HPP 1. The exact model
  (`HppCalculator.AllGoodsRemain`) gives 1000000 and 0.
- The `float(...)` conversions of per-unit values and the float division
  on a report line are exact reals. Binary floating point is not modelled.
- The Django ORM is left out: queries, `select_related`, `aggregate(Sum)`
  and persistence by `super().save`. Stored records are sequences given as
  parameters. The units-sold query of the manufacturing calculator is a
  sequence of revenue rows.
- FinalReport.GenerateFinalReportData: lines follow the order of the
  products given. The ordering of `Product` by name and of `HppEntry` by
  product name and category is not modelled. Under the
  (report, product, category) constraint each group has at most one entry
  per category (`StoredGroupIsComplete`), so entry order cannot change a
  group.
- FinalReport.GenerateFinalReportData: the expense item lists are
  sequences of rows, not lazy query sets.
- A group in the application always has a PEMBELIAN key, but AWAL and
  AKHIR keys may be missing. The calculator reads all three with `.get`,
  so a missing key and `None` behave the same. The model uses one
  `Option` for both.
- Integers are unbounded. The 64-bit range of `BigIntegerField` and the
  32-bit range of `IntegerField` are not enforced.
- `HppManufactureProduction.hpp_per_unit` is a `real`. Its two decimal
  places are not enforced.
- The browser scripts, the Excel and PDF exporters, the template filters,
  the views and the URL routing are not part of this model.
