# Flipkart stock reconciliation, modelled in Dafny

This project models the reconciliation core of a small Streamlit app. The core lives in `main.py`. It takes three tables:

- the shipped orders (`Marketplace`, `SKU`, `Quantity`);
- an inventory report (`sku`, `old_quantity`);
- a purchase master whose column headers vary from file to file.

It produces a stock report with these steps:

1. Keep only the Flipkart orders and add up their quantities per SKU.
2. Remove every backtick from the inventory SKUs and add up the stock per SKU.
3. Look up each inventory SKU's sales, using 0 when it has none.
4. Find the master's columns by header rules, taking the first match in column order.
5. Join those columns on the whitespace-stripped SKU.
6. Sort the rows by `Sales QTY`.
7. Append a Grand Total row.
8. Select the fixed output columns and coerce their dtypes.

A second function, `remove_blank_rows`, removes the data rows that contain a blank cell and keeps the total row.

The modules follow the stages of the program:

| module | file | what it holds |
|---|---|---|
| `Seqs` | seqs.dfy | sequence facts: no duplicates, subsequence, first index, permutations |
| `Cells` | cells.dfy | the cell type (NaN, text or integer), whitespace, `strip`, integer text and parsing, `astype("string")`, `to_numeric(...).fillna(0).astype(int)`, `lower` |
| `Aggregation` | aggregation.dfy | the Flipkart filter, the two group-by sums, the sales lookup, and reference definitions of sold and held quantities |
| `ColumnRoles` | columns.dfy | the header rules and first-match column detection |
| `Frames` | frames.dfy | tables as names, kinds and rows; adding a column, sorting, the totals loop, column selection and column coercion |
| `Reconcile` | reconcile.dfy | the purchase master and its lookup, the report's columns, the specification of the report, and the processing steps as methods, ending in `ProcessInventoryData` |
| `ReportFacts` | report.dfy | what the report promises about its columns, its data rows and its Grand Total row |
| `Cleaning` | cleaning.dfy | `remove_blank_rows` |

How the processing is structured:

- `process_inventory_data` changes its tables step by step, so it is modelled as methods.
- `Pivot` builds the merged pivots.
- `Enrich` adds the enrichment columns in a loop.
- `Totals` is the `for col in inventory.columns` loop.
- `CoerceColumns` is each of the two dtype loops.
- `ProcessInventoryData` chains these steps. It is proved against `ExpectedRows` and `ExpectedTotal`, which are functions of the three inputs.
- The lemmas in `ReportFacts` state what those functions mean in the system's own terms.

`remove_blank_rows` only copies, filters and concatenates, so it is modelled as functions.

## Model

| member | source | states |
|---|---|---|
| Cells.Strip | main.py:120-121 | the stripped text is a slice of the input, everything cut off on either side is whitespace, and the result neither starts nor ends with whitespace |
| Cells.StripEmptyIffBlank | main.py:120-121 | `strip()` gives "" exactly when the text is whitespace only |
| Cells.StripIdempotent | main.py:120-121 | stripping an already stripped SKU changes nothing |
| Cells.ToText | main.py:174-177 | `astype("string")` keeps NaN as NA, keeps text unchanged, and turns an integer into its decimal text, which parses back to that integer |
| Cells.ToInt | main.py:179-181 | numeric coercion with `errors="coerce"`, `fillna(0)` and `astype(int)` keeps an integer, turns NaN and unparseable text into 0, and turns parseable text into its value |
| Cells.ParseInt | main.py:179-181 | decimal digits, optionally after a `-` or `+`, parse to their value with that sign; every other text is rejected |
| Cells.ToNumeric | main.py:140-143 | `pd.to_numeric(..., errors="coerce").fillna(0)`: an integer is itself, NaN and unparseable text are 0, and parseable text is its value |
| Cells.CellText | main.py:93 | `astype(str)`: NaN reads as "nan", text is itself, and an integer becomes its decimal text `IntToString(n)`, which parses back to it |
| Cells.Lower | main.py:111-117 | `str.lower()` keeps the length and maps each character on its own, upper-case ASCII letters to lower case and every other character to itself |
| Cells.LowerIdempotent | main.py:111-117 | a lower-cased header holds no upper-case ASCII letter, so lower-casing it again changes nothing |
| Cells.ParseIntToString | main.py:179-181 | `to_numeric` reads the decimal text of an integer back as that integer |
| Cells.TextThenNumeric | main.py:174-181 | an integer turned into text and coerced back is the same integer |
| Cells.CoercionsIdempotent | main.py:174-181 | applying either coercion a second time changes nothing |
| Cells.RemoveAll | main.py:93 | the result holds no occurrence of the removed character, is no longer than the input, and is the input itself when the character does not occur |
| Cells.RemoveAllConcat | main.py:93 | removing a character from two joined texts is joining the two removals, so the other characters keep their order |
| Cells.RemoveAllCounts | main.py:93 | every other character occurs in the result exactly as often as in the input |
| Aggregation.CleanSku | main.py:93 | a cleaned inventory SKU contains no backtick |
| Aggregation.GroupSum | main.py:85-99 | the group-by has one entry per key that occurs, holding the sum of that key's values; an absent key sums to 0 |
| Aggregation.FlipkartOrders | main.py:82 | the filter keeps each order whose marketplace is exactly "Flipkart" as often as it occurs and drops all others |
| Aggregation.SalesQtyIsFlipkartSold | main.py:82-108 | an inventory key's `Sales QTY` is the total quantity of the Flipkart orders whose SKU is exactly that string, and 0 when there are none |
| Aggregation.FlipkartSoldNone | main.py:102-108 | a key for which no Flipkart order carries that SKU gets `Sales QTY` 0, whatever the other orders are |
| Aggregation.SalesTableKeys | main.py:82-90 | a SKU is a key of the sales group-by exactly when it is not NaN and some Flipkart order carries it |
| Aggregation.OtherMarketplacesIgnored | main.py:82 | orders from other marketplaces never change a key's sales |
| Aggregation.FlipkartSoldPermutation | main.py:85-90 | sales do not depend on the order of the order records |
| Aggregation.SoldPerKeyIsSoldTo | main.py:102-108 | adding up the sales of distinct keys counts each Flipkart order for one of them exactly once |
| Aggregation.StockKeys | main.py:93-99 | the inventory keys are the distinct cleaned SKUs, each once |
| Aggregation.StockKeysInTable | main.py:94-99 | a string is an inventory key exactly when it is a key of the inventory group-by |
| Aggregation.InventoryTableIsHeld | main.py:93-99 | each key's `Inventory QTY` is the sum of `old_quantity` over the records with that cleaned SKU |
| Aggregation.InventoryHeldPermutation | main.py:93-99 | a key's held stock does not depend on the order of the inventory records |
| Aggregation.TotalHeldPermutation | main.py:93-99 | the total held stock does not depend on the order of the inventory records |
| Aggregation.InventoryConserved | main.py:93-99 | over all keys, the stock per key adds up to the total `old_quantity` of all records |
| ColumnRoles.Detect | main.py:111-117 | a role resolves to the first header, in column order, whose lower-cased text satisfies the role's rule; when no header does, the role is absent |
| ColumnRoles.DetectedHeaderNonEmpty | main.py:119-139 | a detected header is never empty, so the truthiness tests `if pm_x:` mean "a header was detected" |
| ColumnRoles.DetectIgnoresLaterHeaders | main.py:111-117 | headers after the first match do not affect detection |
| ColumnRoles.EnrichRoles | main.py:119-143 | an enrichment column is added exactly when both the SKU role and that role are detected; the added roles are distinct and keep the source's order (Manager, Brand, Product Name, FNS, Vendor SKU, CP) |
| Frames.AddColumn | main.py:102-108 | assigning a new column appends its name, kind and one value per row, and leaves the rest as it was |
| Frames.InsertOn | main.py:146 | inserting a row into rows sorted on a column keeps them sorted and adds exactly that row |
| Frames.SortOn | main.py:146 | the rows come out in non-decreasing order of the sort column and form a permutation of the input |
| Frames.ColumnSumPermutation | main.py:146-152 | a column's sum does not depend on the order of the rows |
| Frames.Totals | main.py:149-154 | the totals loop gives each numeric column its integer sum and each text column "" |
| Frames.ColumnTotalsPermutation | main.py:146-156 | the totals row is the same whether it is computed before or after the sort |
| Frames.Present | main.py:171 | `[c for c in final_cols if c in columns]` keeps exactly the listed columns that exist, in list order, each once |
| Frames.Select | main.py:171 | selecting columns gives a well-formed table with exactly those columns, in the order asked for; each column keeps its kind, and each row keeps its cell under that column |
| Frames.CoerceColumns | main.py:175-181 | each listed column that exists gets the conversion and the new kind; every other column is unchanged |
| Reconcile.MatchFrom | main.py:120-122 | searching the stripped master SKUs from a position finds the first one equal to the stripped key at or after it, and nothing when none of them is |
| Reconcile.MatchFromUnique | main.py:120-122 | among distinct master SKUs, the search finds exactly the row whose SKU equals the key |
| Reconcile.LookupFirstMatch | main.py:120-141 | a non-NaN lookup result is the cell of a master row whose stripped SKU equals the stripped key; the model takes the first such row, which only matters for masters with repeated SKUs, on which the source raises instead |
| Reconcile.MapsUniquely | main.py:120-137 | when the master's stripped SKUs are distinct, no two master rows share a key, so every mapped column has one value per key |
| Reconcile.SkuHeaderMayPlayVendorSku | main.py:111-117 | one header can satisfy the SKU rule and the Vendor SKU rule at once (`vendor easycomsku`), which is why the precondition `KeepsMappedColumns` is needed |
| Reconcile.LookupUnique | main.py:122-137 | with unique master SKUs, a key's lookup returns the cell of the one matching master row |
| Reconcile.LookupMissing | main.py:124-137 | a key that no master row carries maps to NaN |
| Reconcile.LabelInjective | main.py:159-169 | distinct report columns carry distinct headers |
| Reconcile.Working | main.py:93-143 | the working table has the base columns followed by the enrichment columns, and one row per inventory key |
| Reconcile.RoleNamesMembership | main.py:124-143 | a role's column is among the added columns exactly when the role is among the detected roles |
| Reconcile.Classified | main.py:174-181 | every report column is either a text column or a numeric column, never both |
| Reconcile.Pivot | main.py:85-108 | the merged pivots hold, for each inventory key in key order, the key, its held stock and its Flipkart sales |
| Reconcile.Enrich | main.py:119-143 | the enrichment adds, in the source's order, one column per detected role, holding each key's looked-up value |
| Reconcile.DtypeLoopsAreCoerce | main.py:174-181 | the text dtype loop followed by the numeric dtype loop, applied to one cell, equals `Coerce` |
| Reconcile.FixDtypes | main.py:174-181 | after the two dtype loops, text columns are text and numeric columns are integers, cell by cell |
| Reconcile.FinalColumns | main.py:159-181 | the final frame has the present final columns in fixed order, their fixed dtypes, and each row restricted and coerced |
| Reconcile.Finish | main.py:146-181 | the sorted rows, the Grand Total and the final columns: data rows sorted by `Sales QTY`, a permutation of the restricted working rows, with the totals row last |
| Reconcile.FinalRowsPermutation | main.py:146-171 | restricting and coercing rows commutes with reordering them |
| Reconcile.ProcessInventoryData | main.py:79-183 | the report has the output columns with their fixed dtypes and one data row per inventory key; the data rows are a permutation of the specified rows sorted by `Sales QTY`, and the specified Grand Total row is last; it requires a well-formed master with unique stripped SKUs, none of whose mapped columns is the SKU column itself, and whose numeric columns hold no text |
| ReportFacts.OutputColumnsShape | main.py:119-171 | `sku`, `Inventory QTY` and `Sales QTY` are always reported; an enrichment column is reported exactly when the SKU role and its role are detected; the columns are distinct and in the fixed final order |
| ReportFacts.ExpectedRowFields | main.py:93-108 | data row i carries key i, the key's held stock and its Flipkart sales |
| ReportFacts.ExpectedEnrichment | main.py:119-143 | a key the master carries gets the master row's value in each enrichment column: as text, or for CP as an integer; a numeric master value's text is its decimal form, which is pandas' output when the column holds no NaN |
| ReportFacts.ExpectedEnrichmentUnmatched | main.py:124-143 | a key no master row carries keeps its row, with NA in the text enrichment columns and 0 in CP |
| ReportFacts.CoerceEnriched | main.py:140-181 | after the dtype fix, CP holds the numeric coercion of the master value and the other enrichment columns hold its text |
| ReportFacts.ExpectedRowsPerKey | main.py:93-108 | the specified data rows are one per key, each that key's row, no two alike |
| ReportFacts.ReportRowsPerKey | main.py:93-146 | in any order, the data rows hold exactly one row per distinct cleaned inventory SKU, with that SKU's stock and sales; a SKU seen only in the orders has no row |
| ReportFacts.ExpectedTotalFields | main.py:149-156 | the Grand Total's SKU is ""; its `Inventory QTY` is the total `old_quantity` of all records; its `Sales QTY` is the Flipkart quantity of all orders whose SKU is some inventory SKU |
| ReportFacts.TotalIsColumnSum | main.py:149-156 | every numeric column's Grand Total is the sum of that column over the data rows above it, whatever their order |
| ReportFacts.TextTotalIsBlank | main.py:149-156 | every text column's Grand Total is "" |
| ReportFacts.NumericTextTotal | main.py:149-177 | an enrichment column other than CP whose master column is numeric gets the sum of its cells as Grand Total, which the text dtype fix turns into its decimal text; this is pandas' output when the column holds no NaN |
| Cleaning.IsEmpty | main.py:64 | a table counts as empty exactly when it has no rows or no columns |
| Cleaning.DropBlank | main.py:70-71 | the kept rows are exactly the rows without a NaN or whitespace-only cell, each as often as in the input, and the count never grows |
| Cleaning.DropBlankOrder | main.py:70-71 | the kept rows keep their relative order |
| Cleaning.DropBlankIdempotent | main.py:70-71 | dropping blank rows twice drops nothing more |
| Cleaning.RemoveBlankRows | main.py:59-73 | an empty table is returned unchanged; otherwise the result is the cleaned data rows followed by the last row, with the same columns |
| Cleaning.TotalRowKept | main.py:67-73 | the last row survives unchanged as the last row, and no row is added |
| Cleaning.DataRowsKept | main.py:67-73 | a data row is kept exactly when none of its cells is blank, as often as it occurred |
| Cleaning.RemoveBlankRowsIdempotent | main.py:59-73 | cleaning a cleaned table changes nothing |

## Left out

- The Streamlit page, the uploaders, the buttons, the tabs, highlighting and messages are not modelled. They are presentation only.
- Reading CSV and Excel files and writing the Excel export are not modelled. These are foreign library calls; the model starts from the parsed tables.
- The session-state cache and the try/except around a run are not modelled. They are framework state and error reporting.
- ReportFacts.NumericTextTotal, ReportFacts.ExpectedEnrichment: the decimal text ("5", "15") matches pandas only when the numeric enrichment column holds no NaN. An inventory key missing from the master, or a blank master cell, makes pandas store the column as float64, and `astype("string")` then writes "5.0" and "15.0". The model has no float cells, so it does not capture that form.
- Aggregation.Order, Aggregation.Stock: the orders table is assumed to have the `Marketplace`, `SKU` and `Quantity` columns and the inventory table the `sku` and `old_quantity` columns, with every quantity an integer or NaN. Otherwise the source raises KeyError on the missing column (main.py:82, 87, 93, 96), or, since it never applies `to_numeric` to the two quantities (main.py:85-99), a text quantity is not added numerically. The model's `Option<int>` quantities cannot represent either case.
- Cells.CellText, Aggregation.CleanSku, Reconcile.MasterKey: an integer becomes its decimal text ("123"). pandas stores an integer column holding any NaN (a blank CSV or Excel cell) as float64, and `astype(str)` then writes "123.0". For a numeric inventory `sku` or master SKU column with a blank, the source's report `sku` text is then "123.0". It also fails to join "123.0" to "123", where the model matches them. The model has no float cells, so it does not capture that form.
- Floating point is not modelled. A cell is NaN, text or an integer. CP is parsed as an integer, so a decimal cost and the truncating `int(...)` of a float sum are outside the model.
- Cells.ParseInt: the model's ParseInt accepts only an optional sign followed by decimal digits. `pd.to_numeric` also accepts decimal points, exponents and surrounding whitespace; the model reads those texts as unparseable, so they become 0. For a CP cell holding "inf", "-inf" or "Infinity", `pd.to_numeric` gives plus or minus infinity, which `fillna(0)` keeps. Then `int(...)` of the CP sum (main.py:152) raises OverflowError, and so would `astype(int)` (main.py:181). The model reads these texts as 0 and produces a report where the source raises.
- Pandas dtype inference (`is_numeric_dtype`) is replaced by explicit column kinds. The master carries a kind per header; Inventory QTY, Sales QTY and CP are numeric, and `sku` is text.
- Cells.Lower: folds ASCII letters only. Headers with non-ASCII letters are compared without Unicode case mapping.
- Frames.SortOn: promises only sortedness and a permutation, because the source's default sort is not stable. The row order among equal sales is left open, which also covers the key order of the group-by.
- The caller's frames are mutated in place by the source (`inventory_df["sku"]`, `pm_df[pm_sku]`). The model works on values, so that aliasing is outside it.
- Reconcile.ProcessInventoryData: a master header can satisfy both the SKU rule and an enrichment rule (`Vendor EasycomSKU` matches SKU and Vendor SKU). Then `set_index(pm_sku)` removes that column, and `pm_map[pm_x]` raises KeyError. The model does not model that error; `KeepsMappedColumns` is a precondition instead.
- The sums are pandas int64 values (main.py:88, 97, 152), which wrap around on overflow. The model's integers are unbounded, so that wrap-around is not modelled.
- Duplicate SKUs in the purchase master make pandas raise as soon as a column is mapped. `MapsUniquely` is therefore a precondition of `ProcessInventoryData`; no first-wins policy is invented.
- Headers are modelled as strings. Non-string headers, on which `.lower()` would raise, are outside the model.
- Reconcile.Enrich: the six `if pm_x:` blocks are one loop over the detected roles, in the source's order.
- The report's column names are an enumeration (`Reconcile.Column`); `Reconcile.Label` gives each one's exact header text.
- The code does not fold the case of SKUs, does not deduplicate the master, warns about nothing when no SKU column is found, and computes no `CP As Per Qty` column; the model follows the code.
