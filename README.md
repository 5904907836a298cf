# Slot-X sales and inventory reports: reconciliation and arithmetic core

This project is a Dafny model of the layer that sits between the uploaded tables and
the generated spreadsheets of the Slot-X sales and inventory report tool. That layer
covers:

- refund cancellation over the sales table;
- column-header resolution for the sales and inventory uploads;
- brand-name normalisation, the per-branch deals sheet loader, `has_deal` and the deal-text choice;
- brand enumeration;
- the KPI arithmetic: totals, deal deductions, best-selling product and size, and the per-product status ladder;
- the four-way folder classification;
- the archive layout: safe file names and a path per brand workbook;
- the row builders and totals of the Sales, Inventory and branch Performance sheets;
- the column-width formula and the status colour table.

Modules follow the source files: `RefundEngine`, `KpiEngine`, `ClassificationEngine`,
`DealsEngine`, `BrandDetector`, `ColumnDetector`, `ZipBuilder`, `SalesSheet`,
`InventorySheet`, `BranchPerformance` and `ExcelHelpers`. Four shared modules support them:

- `Wrappers`: Option and Result.
- `Text`: Python's `strip`, `lower`, `title` and `replace`, with case mapping on ASCII letters only.
- `Tables`: pandas frames as a column list plus a sequence of row records. A NaN or absent cell is `None`. `Sum` is a row-order sum.
- `Worksheets`: an openpyxl worksheet as a class holding its title, its rows of cell values and its column widths.

Modelling choices:

- Money and quantities are `real`, so the arithmetic is exact.
- pandas row labels are row positions.
- Code that updates state step by step is written as methods with loops, proved against specification functions. This covers the refund sweep, the size dictionary, the deals row loop, the alias search, the archive writer, the sheet loops and the width fitting.
- Decision tables and expressions are written as functions.

Four behaviours of the code that shape the model:

- The brand key is `strip().title()`: surrounding whitespace goes and each word is capitalised, while inner spaces and punctuation stay.
- The archive puts a workbook under `Reports/` when the brand has sales and under `Reports/Empty Brand Guard/` otherwise; the folder chosen by `classify_brand` plays no part in the path.
- A deals cell that `float()` rejects raises an error; only an empty cell becomes 0.
- The Performance sheet reads the inventory `sale_price` column, although column detection renames prices to `unit_price`.

## Model

| member | source | states |
|---|---|---|
| RefundEngine.CleanRefunds | core/refund_engine.py:17-53 | Without a `quantity` or `barcode` column the table comes back unchanged with counts (0, 0). The same holds when no row has quantity < 0. A refund with no `brand` column is the KeyError. Otherwise the result is the rows kept by the greedy sweep, `refund_count` is the number of refund rows, and `removed_total_count` is `len(input) - len(cleaned)`. No surviving row has quantity < 0, and `refund_count <= removed_total_count <= 2*refund_count`. |
| RefundEngine.FirstEligible | core/refund_engine.py:39-47 | The row a refund claims is the first row in table order that is not yet removed, has the same barcode and brand, and has quantity equal to the refund's magnitude. Every earlier row is removed or does not match. |
| RefundEngine.RefundIndices | core/refund_engine.py:25-31 | The refund positions are ascending and each holds a row with quantity < 0. They seed the removal set. |
| RefundEngine.RefundIndicesComplete | core/refund_engine.py:25-31 | Every row with quantity < 0 is among the refund positions. |
| RefundEngine.KeptIndices | core/refund_engine.py:49 | The cleaned table is the input rows at strictly ascending positions that are not removed. It is an order-preserving subsequence with the rows unchanged. |
| RefundEngine.SweepShape | core/refund_engine.py:31-47 | The sweep only adds positions, at most one per refund. Each added position holds a row that cancels one of the refunds. |
| RefundEngine.CleanedHasNoRefunds | core/refund_engine.py:31-49 | No row with a negative quantity survives cleaning. |
| RefundEngine.RemovedCountBounds | core/refund_engine.py:22-51 | The number of removed rows lies between the refund count and twice the refund count. |
| RefundEngine.KeepSize | core/refund_engine.py:49-51 | Removing a set of existing positions shortens the table by exactly the size of that set. |
| RefundEngine.NoRefundIndicesNoRefunds | core/refund_engine.py:25-29 | If no refund position is found, no row of the table has quantity < 0. |
| RefundEngine.RemovedOriginalsMatch | core/refund_engine.py:31-47 | Every position in `indices_to_remove` after the sweep is a row of the table, and a removed row that is not a refund has the same barcode, the same brand and a quantity equal to the magnitude of some refund row. This holds by position, even when an equal row survives elsewhere. |
| RefundEngine.KeepContains | core/refund_engine.py:49 | Every row not in the removal set is in the cleaned table. |
| KpiEngine.CalculateSalesTotals | core/kpi_engine.py:13-19 | An empty sales slice gives (0, 0). |
| KpiEngine.SalesTotalsAdd | core/kpi_engine.py:16-17 | Sales totals add up over a concatenation of tables, so the result is (Σ quantity, Σ total). |
| KpiEngine.SalesTotalsOfRow | core/kpi_engine.py:16-17 | A one-row table totals to that row's quantity and money. A missing cell counts as 0, as pandas' NaN-skipping sum does. |
| KpiEngine.CalculateInventoryTotals | core/kpi_engine.py:29-30 | An empty inventory slice gives (0, 0). |
| KpiEngine.InventoryTotalsAdd | core/kpi_engine.py:32-39 | Inventory totals add up over a concatenation of tables. |
| KpiEngine.InventoryTotalsOfRow | core/kpi_engine.py:32-39 | A one-row table totals to (available_quantity, available_quantity × unit_price). It adds no value when either cell is missing. |
| KpiEngine.ApplyDeal | core/kpi_engine.py:42-53 | after_percentage = m·(100 − p)/100 and after_rent = after_percentage − rent. after_rent is negative exactly when rent > after_percentage, with no clamping. For 0 ≤ p ≤ 100 and m ≥ 0, 0 ≤ after_percentage ≤ m. |
| KpiEngine.ApplyDealExample | core/kpi_engine.py:42-53 | apply_deal(1000, 10, 50) = (900, 850). |
| KpiEngine.RentLastMatters | core/kpi_engine.py:47-51 | When both the percentage and the rent are non-zero, taking the rent off before the percentage gives a different after_rent. |
| KpiEngine.GroupsComplete | core/kpi_engine.py:64-95 | A key is a group exactly when some row carries that key. Rows with no key (NaN) form no group. |
| KpiEngine.GroupsDistinct | core/kpi_engine.py:64-95 | Each group key is listed once. |
| KpiEngine.GroupQtyAbsent | core/kpi_engine.py:95 | A key no row carries has summed quantity 0, which is `size_sales.get(size, 0)`. |
| KpiEngine.FirstMaxIndex | core/kpi_engine.py:100 | The chosen key weighs at least as much as every key. Every key before it weighs strictly less, as in Python's `max` with `key=`. |
| KpiEngine.BestSellingProduct | core/kpi_engine.py:56-74 | The result is "" when no row has a product name. Otherwise it is a product whose summed quantity no other product's exceeds. |
| KpiEngine.AfterLastDash | core/kpi_engine.py:93 | `split("-")[-1]` is the suffix after the last '-'. It holds no '-'. |
| KpiEngine.SizeOf | core/kpi_engine.py:92-94 | A size exists only for a name containing '-'. It is non-empty and stripped. |
| KpiEngine.NanHasNoSize | core/kpi_engine.py:89-92 | A NaN product name reads as "nan", which has no size. |
| KpiEngine.SumByKey | core/kpi_engine.py:86-95 | The dictionary loop gives each key the summed quantity of its rows. Insertion order is first appearance. |
| KpiEngine.GetBestSellingSize | core/kpi_engine.py:77-100 | The result is "" exactly when no name carries a size. Otherwise it is the size with the largest summed quantity, and every size inserted before it sums to strictly less, so ties go to the first size met. |
| KpiEngine.SizesNonEmpty | core/kpi_engine.py:93-94 | No size is the empty string. |
| KpiEngine.CalculateStatus | core/kpi_engine.py:103-122 | Each status holds exactly when its rule applies, in ladder order. inventory < 5 gives Low Stock; otherwise sales ≤ 3 gives Slow Moving; otherwise no deal gives No Deal; otherwise Healthy. |
| KpiEngine.StatusText | core/kpi_engine.py:113-122 | The labels printed are the four status strings. |
| KpiEngine.StatusTextInjective | core/kpi_engine.py:113-122 | Distinct statuses print distinct labels. |
| ClassificationEngine.ClassifyBrand | core/classification_engine.py:1-31 | None exactly when sales and inventory are both 0, whatever the deal is. Empty_Brand_Guard exactly when sales is 0, inventory > 0 and there is no deal. No_Deal for every other no-deal case. Reports whenever there is a deal and not both totals are 0. Every input gets exactly one of the four outcomes. |
| ClassificationEngine.FolderName | core/classification_engine.py:18-31 | The three folder strings are "Reports", "No_Deal" and "Empty_Brand_Guard", one per folder and no two alike. |
| DealsEngine.NormalizeBrandNameIdempotent | core/deals_engine.py:6-7 | strip-then-title is idempotent. |
| DealsEngine.NormalizeBrandNameIgnoresCaseAndSpace | core/deals_engine.py:6-7 | Names equal after strip and lower-casing get one key. |
| DealsEngine.NormalizeBrandName | core/deals_engine.py:6-7 | The key has no surrounding whitespace and differs from the stripped name in letter case only. |
| DealsEngine.NormalizeBrandNameTitleCase | core/deals_engine.py:6-7 | The key is the stripped name title-cased letter by letter: each character is lower-cased when a letter comes just before it and upper-cased otherwise. |
| DealsEngine.LoadDealsByMode | core/deals_engine.py:10-57 | An unreadable sheet is an error. After stripping the headers, the first missing required column, in the order Brand Name, Deal Percentage (%), Rent Amount (EGP), is reported with the mode. Otherwise the result is the row fold. |
| DealsEngine.LoadRows | core/deals_engine.py:38-57 | The row loop computes the fold. Rows whose key is empty or "nan" (any case) are skipped. NaN numbers become 0.0. Later rows overwrite earlier ones. |
| DealsEngine.FailureSticks | core/deals_engine.py:49-50 | Once a cell fails `float()`, the whole load fails with that error. |
| DealsEngine.LoadFailsExactly | core/deals_engine.py:43-50 | The load fails exactly when some usable row holds a number `float()` rejects. |
| DealsEngine.DealKeysComeFromRows | core/deals_engine.py:40-55 | Every key is the usable key of some row. |
| DealsEngine.DealKeysAreNormalized | core/deals_engine.py:41-55 | Every loaded key is a fixed point of the normaliser and is not skipped. |
| DealsEngine.LastRowWins | core/deals_engine.py:40-55 | A usable row with no later row of the same key gives that key its terms, blank numbers read as 0.0. |
| DealsEngine.HasDealOfNormalized | core/deals_engine.py:60-70 | `has_deal` normalises before lookup, so asking with an already normalised name gives the same answer. |
| DealsEngine.HasDeal | core/deals_engine.py:60-70 | A brand has a deal exactly when its normalised key is in the deals with a positive percentage or a positive rent. A missing key, or terms of zero or below, give no deal. |
| DealsEngine.HasDealIgnoresSpelling | core/deals_engine.py:60-64 | Spellings that differ only in surrounding whitespace or letter case get the same answer. |
| DealsEngine.GenerateDealText | core/deals_engine.py:73-96 | "No Deal" exactly when `has_deal` is false. The combined text when both terms are positive. The percentage or rent text when only that term is positive. Each text carries the stored terms. |
| BrandDetector.NormalizedBrands | core/brand_detector.py:22-25 | The set holds exactly the normalised non-null cells of the column. |
| BrandDetector.TableBrands | core/brand_detector.py:21-31 | A frame without a `brand` column contributes no brand. |
| BrandDetector.DetectBrands | core/brand_detector.py:11-33 | A brand is detected exactly when it is the normalised form of a non-null brand cell of the sales table or of the inventory table, each counted only if the table has a `brand` column. |
| BrandDetector.DetectedBrandsAreNormalized | core/brand_detector.py:6-31 | Every detected brand is a fixed point of the normaliser. |
| BrandDetector.SpellingsMerge | core/brand_detector.py:6-33 | A sales spelling and an inventory spelling that differ only in outer whitespace or case are detected as one element. |
| ColumnDetector.Underscored | utils/column_detector.py:10 | Each maximal run of characters outside [a-z0-9] becomes one "_". The output has only [a-z0-9_] and no two consecutive "_". |
| ColumnDetector.NormalizeColumnName | utils/column_detector.py:5-11 | After strip and lower-casing, the output has only [a-z0-9_], with no doubled "_". |
| ColumnDetector.UnderscoredOfKey | utils/column_detector.py:10 | A string already of that shape goes through the substitution unchanged. |
| ColumnDetector.NormalizeColumnNameIdempotent | utils/column_detector.py:9-11 | Header normalisation is idempotent. |
| ColumnDetector.ExpectedColumns | utils/column_detector.py:55-79 | Only "sales" and "inventory" have alias tables. Any other file type is an error. |
| ColumnDetector.StandardNamesOfTypes | utils/column_detector.py:60-76 | sales expects brand, product_name, barcode, quantity, total. inventory expects brand, product_name, barcode, unit_price, available_quantity. Each standard name is its own first alias. |
| ColumnDetector.NormalizedMapKeys | utils/column_detector.py:21-24 | The normalised-header map's keys are exactly the normalised headers. |
| ColumnDetector.NormalizedMapLastWins | utils/column_detector.py:21-24 | Of several headers that normalise alike, the last one is kept. |
| ColumnDetector.NormalizedMapValues | utils/column_detector.py:21-24 | Every value is a header of the table that normalises to its key. |
| ColumnDetector.FirstHit | utils/column_detector.py:32-36 | An alias search hits exactly when some alias normalises to a known header. |
| ColumnDetector.FirstHitIsFirst | utils/column_detector.py:32-36 | The header found is that of the earliest matching alias. Later aliases are ignored. |
| ColumnDetector.MappingShape | utils/column_detector.py:29-36 | Every renamed header is a header of the table, renamed to a standard name. |
| ColumnDetector.RenameColumns | utils/column_detector.py:39 | Renaming replaces mapped labels and keeps the number and order of columns. |
| ColumnDetector.Missing | utils/column_detector.py:42-45 | The missing list holds exactly the standard names absent after renaming. |
| ColumnDetector.FindAlias | utils/column_detector.py:32-36 | The alias loop returns the header of the first alias, in list order, whose normalised form is a normalised header, or nothing. |
| ColumnDetector.BuildMapping | utils/column_detector.py:29-36 | `final_mapping` after the loop maps, for each standard name in order, the header found by its first matching alias; a later standard name overwrites an earlier one on the same header. |
| ColumnDetector.DetectColumns | utils/column_detector.py:14-52 | An invalid file type is an error. Otherwise the table comes back with the renamed labels and the same rows, or an error listing the missing standard names. |
| ColumnDetector.DetectionOutcome | utils/column_detector.py:39-50 | Detection succeeds exactly when every standard name is a column afterwards. The column count is unchanged. |
| ZipBuilder.SafeFilename | core/zip_builder.py:5-13 | The output holds no '/', '\\' or ':' and has no surrounding whitespace. |
| ZipBuilder.Replaced | core/zip_builder.py:8-11 | The three replacements keep the length and turn each '/', '\\' and ':' into '-', leaving every other character. |
| ZipBuilder.SafeFilenameMeaning | core/zip_builder.py:5-13 | The safe name is a slice `name[a..b]` with each '/', '\\' and ':' turned into '-' and every other character kept. Only whitespace lies outside the slice. |
| ZipBuilder.SafeFilenameIdempotent | core/zip_builder.py:7-13 | `safe_filename` is idempotent. |
| ZipBuilder.SafeFilenameCollides | core/zip_builder.py:7-48 | "A/B" and "A:B" both become "A-B", so their entries get the same path. |
| ZipBuilder.ArchivePath | core/zip_builder.py:41-46 | With sales the path is Reports/{safe}.xlsx. Without sales it is Reports/Empty Brand Guard/{safe}.xlsx. |
| ZipBuilder.GuardFolderIffNoSales | core/zip_builder.py:43-46 | An entry lies under the guard folder exactly when its brand has no sales. |
| ZipBuilder.NoSlashAfterReports | core/zip_builder.py:41-44 | A selling brand's path has no folder below Reports/. |
| ZipBuilder.PlannedCount | core/zip_builder.py:33-48 | There is one entry per brand with a buffer and none for the others. |
| ZipBuilder.PlannedEntriesSound | core/zip_builder.py:33-48 | Every entry is some built brand's workbook at that brand's path, with exactly that brand's buffer bytes. |
| ZipBuilder.PlannedEntriesComplete | core/zip_builder.py:33-48 | Every brand with a buffer has its entry in the archive. |
| ZipBuilder.ZipArchive.WriteStr | core/zip_builder.py:48 | `writestr` appends one (path, bytes) entry and changes nothing else. |
| ZipBuilder.BuildReportsZip | core/zip_builder.py:16-52 | The archive's entries are the planned entries, in dictionary order. |
| SalesSheet.SalesLine | reports/sales_sheet.py:41-53 | A data line has six cells. It names the mode and the brand and carries the row's quantity and money cells. |
| SalesSheet.SalesSheetLayout | reports/sales_sheet.py:23-65 | The sheet is the header row, one line per sales row in order, then one TOTAL line with the two sums. It has n + 2 rows. |
| SalesSheet.SalesSheetTotalsAgree | reports/sales_sheet.py:38-73 | With both number columns present, the sheet's sums equal `calculate_sales_totals` of the same rows. |
| SalesSheet.CreateSalesSheet | reports/sales_sheet.py:7-73 | The sheet rows are the layout above and the widths are fitted. The returned pair is (Σ quantity, Σ total), with a missing cell counting as 0, and equals the TOTAL line. |
| InventorySheet.UnsoldBarcode | reports/inventory_sheet.py:46-48 | A barcode nobody sold, NaN included, has sold 0. |
| InventorySheet.BarcodeSalesSplit | reports/inventory_sheet.py:46-48 | A barcode's sales add up over parts of the table. |
| InventorySheet.UnsoldIsLowOrSlow | reports/inventory_sheet.py:46-54 | An unsold product is Low Stock, or Slow Moving when it has at least 5 in stock. |
| InventorySheet.InventoryLine | reports/inventory_sheet.py:56-64 | A product line has seven cells. It names the mode and the brand and carries the status label. |
| InventorySheet.InventoryLinesLayout | reports/inventory_sheet.py:40-64 | There is one line per inventory row in order. Each line's status is `calculate_status`(Σ sales quantity of its barcode, its stock, has_deal). |
| InventorySheet.MissingSalesColumn | reports/inventory_sheet.py:46-48 | The first inventory row raises when the sales table lacks `barcode` or `quantity`. |
| InventorySheet.InventorySheetTotalsAgree | reports/inventory_sheet.py:37-74 | With both number columns present, the sheet's sums equal `calculate_inventory_totals`. |
| InventorySheet.AppendProductLines | reports/inventory_sheet.py:40-70 | The loop appends one line per row and returns (Σ qty, Σ qty × price), with missing cells counting as 0. |
| InventorySheet.CreateInventorySheet | reports/inventory_sheet.py:15-74 | The sheet starts with the seven-column header and has no total line. It returns the accumulated totals, or the error raised at the first row. |
| BranchPerformance.UniqueBrands | reports/branch_summary_performance.py:28-74 | `unique()` lists every brand of the sales table once, NaN included, and nothing else. |
| BranchPerformance.DealOf | reports/branch_summary_performance.py:32-84 | The deal is looked up under the raw brand. An absent brand gets percentage 0 and rent 0. |
| BranchPerformance.RawLookupMissesNormalizedKey | reports/branch_summary_performance.py:32-84 | A lower-case sales brand finds no terms under its title-cased deals key, although `has_deal` reports a deal for it. |
| BranchPerformance.ComputeCards | reports/branch_summary_performance.py:22-41 | The card loop gives total = Σ total and after_all = total − Σ_brand(brand_total·pct/100) − Σ_brand rent, over distinct sales brands. |
| BranchPerformance.CardFigures | reports/branch_summary_performance.py:22-41 | The cards differ by the sum, over the distinct brands, of each brand's percentage deduction plus its rent. |
| BranchPerformance.CardsWithoutDeals | reports/branch_summary_performance.py:32-41 | With no deal entries, `.get` returns zero terms for every brand, so both cards show the same figure. |
| BranchPerformance.LineAppliesDeal | reports/branch_summary_performance.py:84-88 | A table line's after_percentage and after_rent are `apply_deal` of its sales money and the brand's terms. After All equals After Rent. |
| BranchPerformance.LineOf | reports/branch_summary_performance.py:74-105 | Each brand's line names that brand, and its After All Deductions equals its After Rent. |
| BranchPerformance.RankedTable | reports/branch_summary_performance.py:72-122 | The ranked table has one line per distinct brand and descends by Sales Money. |
| BranchPerformance.BuildTable | reports/branch_summary_performance.py:72-105 | The table loop builds one line per distinct sales brand, in order of first appearance. |
| BranchPerformance.SortByMoneySorted | reports/branch_summary_performance.py:121 | The ranked lines go down by Sales Money. |
| BranchPerformance.SortByMoney | reports/branch_summary_performance.py:121 | Ranking is a permutation of the lines. |
| BranchPerformance.InsertKeepsSorted | reports/branch_summary_performance.py:121 | Inserting a line by its money keeps the lines sorted. |
| BranchPerformance.SortByMoneySum | reports/branch_summary_performance.py:121 | Ranking keeps every column total. |
| BranchPerformance.RankedTableBrands | reports/branch_summary_performance.py:74-105 | The table has a line for exactly the brands present in sales, one each. Inventory-only brands are absent. |
| BranchPerformance.RankedLines | reports/branch_summary_performance.py:122-150 | The Rank column runs 1..n down the sorted lines. |
| BranchPerformance.RankedTableOrdered | reports/branch_summary_performance.py:121-122 | The ranked lines are ordered by Sales Money, descending, and line i has rank i + 1. |
| BranchPerformance.BrandMoneyGrouped | reports/branch_summary_performance.py:28-82 | Summed over the distinct brands, the brands' money is the money of every branded row. |
| BranchPerformance.CardsTotalMatchesTable | reports/branch_summary_performance.py:22-87 | The Total Sales card is the table's Sales Money column plus the money of rows without a brand. |
| BranchPerformance.BrandSplit | reports/branch_summary_performance.py:28-86 | For one brand, its sales money is its line's After Rent plus the percentage and rent the card loop deducts for it. |
| BranchPerformance.BrandMoneySplits | reports/branch_summary_performance.py:28-86 | Summed over the distinct brands, sales money is After Rent plus the percentage deductions plus the rents. |
| BranchPerformance.CardsAfterAllMatchesTable | reports/branch_summary_performance.py:22-87 | The Sales After All Deductions card is the table's After Rent column plus the money of rows without a brand. |
| BranchPerformance.SalesColumnError | reports/branch_summary_performance.py:22-28 | A missing total, quantity or brand column raises before anything is written. |
| BranchPerformance.InventoryColumnError | reports/branch_summary_performance.py:79-94 | A missing inventory brand, available_quantity or sale_price column raises in the table loop, if the sales table has any brand. |
| BranchPerformance.CreateBranchPerformanceSheet | reports/branch_summary_performance.py:7-174 | The sheet is the two cards, an empty row, the headers, the row of nine empty cells the header styling creates, and the ranked lines, with widths fitted. A missing column stops it at the point where pandas would raise. |
| BranchPerformance.AppendTable | reports/branch_summary_performance.py:136-150 | Below the cards come an empty row (row 3), the nine headers (row 4), nine empty styled cells (row 5) and the ranked lines in rank order. |
| BranchPerformance.AppendHeaders | reports/branch_summary_performance.py:136-147 | `ws.append([])`, `ws.append(headers)`, then `ws.cell(row=5, column=c)` for the nine header columns, which creates row 5 empty. |
| BranchPerformance.AppendRanked | reports/branch_summary_performance.py:149-150 | The rows loop appends the ranked lines after what is already there, ranks 1, 2, … in order, and changes nothing else. |
| BranchPerformance.PerformanceRows | reports/branch_summary_performance.py:7-150 | The finished sheet has five rows above the table and one row per distinct brand. |
| BranchPerformance.PerformanceLayout | reports/branch_summary_performance.py:46-150 | The cards sit in A1/A2 and C1/C2, row 3 is empty, the headers are row 4, row 5 holds nine empty cells, and the line ranked i + 1 is row 6 + i. |
| ExcelHelpers.MaxColumn | utils/excel_helpers.py:11 | `ws.columns` yields no column before any row is written. Otherwise it covers every cell of every row and at least column A, and a count above 1 is the length of some row. |
| ExcelHelpers.MaxLengthIsMax | utils/excel_helpers.py:12-23 | `max_length` bounds every truthy cell's text length. It is reached by one of them, or it is 0. Falsy cells are ignored. |
| ExcelHelpers.ColumnMaxLength | utils/excel_helpers.py:12-23 | The inner loop computes that maximum. |
| ExcelHelpers.AdjustedWidth | utils/excel_helpers.py:25 | max(12, min(max_length + 3, 50)) lies in [12, 50]. It equals max_length + 3 exactly when 9 ≤ max_length ≤ 47. |
| ExcelHelpers.FitWidthsSpec | utils/excel_helpers.py:11-26 | Every column below the count gets the adjusted width of its longest truthy cell. Every other column keeps the width it had; on a sheet with no rows nothing is set. |
| ExcelHelpers.FitFirstColumns | utils/excel_helpers.py:11-26 | The column loop leaves the cells alone and sets exactly the fitted widths of the first columns. |
| ExcelHelpers.AutoFitColumns | utils/excel_helpers.py:11-26 | Only the widths change, and they become those widths. |
| ExcelHelpers.StatusColor | utils/excel_helpers.py:68-79 | Low Stock→FF4C4C, Slow Moving→FFA500, No Deal→9E9E9E, Healthy→2E7D32. Anything else→FFFFFF. |
| ExcelHelpers.GetStatusFill | utils/excel_helpers.py:66-79 | The start and end colours of the fill are equal to the status colour. |
| ExcelHelpers.StatusColorsDistinct | utils/excel_helpers.py:68-73 | Each status of the ladder has its own non-white colour. |

## Left out

- The upload UI, the mode and cycle selectors, `pd.read_excel`, and the per-brand orchestration in app.py are not part of this model. The Merged-mode inventory merge there is a pandas outer merge on columns the single-branch sheets do not use.
- The workbook assembly in reports/workbook_builder.py is not part of this model. It calls `create_inventory_sheet_merged`, which is not defined in reports/inventory_sheet.py. reports/branch_summary_workbook.py, reports/metadata_sheet.py and reports/report_sheet.py are not part of this model either: they are styling, clock reads and workbook serialisation.
- Reading the deals workbook is a parameter. `LoadDealsByMode` receives the sheet already read, or `None` when `pd.read_excel` would fail.
- Zip compression and the workbook byte layout are left out. The archive is its sequence of (path, bytes) entries, and a workbook is its rows and column widths.
- All fills, fonts, borders, number formats, table objects, row heights and freeze panes are left out. The fill of a status cell is reduced to its two colour strings. The empty cells the Performance header styling creates in row 5 are modelled as a row of nine blank cells.
- `generate_deal_text` returns which of the four texts is chosen, with its numbers, not the formatted string.
- Python `str.title()` and `str.lower()` are modelled on ASCII letters only. `str.strip()` uses Python's whitespace set.
- Float rounding is not modelled: money and quantities are exact reals.
- pandas NaN is modelled only as a missing cell. A missing quantity, total, stock or price counts as 0 in every sum. For the pandas `.sum()` calls this matches pandas, which skips NaN. For the plain Python `+` loops listed below it does not.
- KpiEngine.SumByKey: `size_sales.get(size, 0) + qty` with a NaN quantity makes that size's total NaN; the model adds 0 for it.
- KpiEngine.GetBestSellingSize: with a NaN size total, `max(..., key=...)` keeps a NaN entry met first, because nothing compares greater than NaN, and never picks a later one. The model compares the totals with NaN counted as 0, so it can choose a different size.
- SalesSheet.CreateSalesSheet: in the sheet's `+=` loop a NaN quantity or total would make the returned sum NaN; the model adds 0 for it.
- InventorySheet.AppendProductLines: in the sheet's `+=` loop a NaN stock or price would make the returned sums NaN; the model adds 0 for it.
- KpiEngine.CalculateStatus: a NaN stock or sales quantity compares false in Python; the model compares the value 0 instead.
- KpiEngine.BestSellingProduct: pandas' `sort_values` uses an unstable sort, so among products with equal summed quantity the source may return any of them. The model returns the first in row order, and its contract promises only a product with maximal quantity.
- BranchPerformance.SortByMoney: the ranking uses pandas' unstable sort. The model sorts stably, so lines of equal Sales Money keep their table order. Its contracts state sortedness and permutation only.
- pandas row labels are taken to be the default range index, so a row's label is its position.
