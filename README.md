# Work-order extractor, modelled in Dafny

`WorkOrderExtractor` (src/work_order_extractor.py) turns a printing work-order
workbook into text chunks for a search index. It processes every sheet whose
title contains "SKU", except the sheet named "Copy_Paste Rows". For each such
sheet it does the following:

- It reads the project record from cells B2, B3, P3 and B5.
- It takes the number of SKUs from the sheet's title. "1 SKU" gives 1. Any
  other title gives the integer value of its first whitespace-delimited token,
  and 1 when there is no token or the token is not an integer.
- It reads one nine-field block per SKU. SKU `n` has its row at
  `8 + 9 (n - 1)`. The description is in column D one row below. The other
  seven fields are in columns A, D, G, J, M, P and U two rows below.
- It emits one `sku_specification` chunk per block and then one
  `project_overview` chunk, which it emits only when there is a block.

Each chunk has an id, a type, a text made from a fixed template, and metadata.

The model is split over five files:

- `wrappers.dfy` holds `Option`.
- `sequences.dfy` (module `Sequences`) holds `ConcatMap`, the concatenation of
  a function's results over a list. It describes the accumulating loop of
  `extract_all_sheets`.
- `text.dfy` (module `Text`) holds the Python string operations the extractor
  relies on:
  - `str.isspace`;
  - the substring test `in`;
  - `split()[0]`;
  - `int()` on a token;
  - `str()` of a non-negative integer;
  - `strip()`;
  - `sep.join(...)`.
- `work_order.dfy` (module `WorkOrder`) holds:
  - the data model: a workbook is an ordered list of sheets, and a sheet is a
    title plus a map from cell address to the cell's string value;
  - one function per pure operation of the extractor;
  - the class `Extractor`. Its methods `ExtractAllSheets`, `CreateChunks`,
    `ExtractSkuBlocks` and `CreateProjectChunk` keep the loops of the source.
    `ExtractSheet` calls them in the order of `extract_sheet`. Each method is
    proved equal to the function that specifies it.
- `work_order_properties.dfy` (module `WorkOrderProperties`) holds the lemmas
  about that specification:
  - which sheets are selected;
  - the SKU count;
  - the row layout;
  - the exact text of both chunk templates;
  - the shape and ids of a sheet's chunks;
  - how the chunks of a workbook compose.

Several functions state nothing themselves; the lemmas about them do:

- `GetSkuCount`: see `SpecialCaseRedundant`, `SkuCountOfLeadingNumeral` and
  `SkuCountFallback`.
- `SkuRow`: see `SkuRowFormula` and `SkuRowsIncreasing`.
- `SkuBlocks`: see `SkuBlocksAreAllIndices`.
- `Template`, `SkuLines` and `OverviewLines`: see `TemplateLayout`,
  `SkuContentLayout` and `OverviewContentLayout`.
- `SkuChunks` and `AssembleChunks`: see `SkuChunksSpec`, `AssembleChunksLength`,
  `AssembleChunksSku` and `AssembleChunksOverview`.
- `SheetChunks`: see `SheetChunksCount`, `SheetChunkSku`, `SheetChunkOverview`
  and `SheetChunkIds`.
- `ChunksOfSheets` and `AllChunks`: see `ChunksOfSheetsAppend` and
  `AllChunksAppend`.

The comments at line 51 ("Only process non-empty SKUs") and line 109 ("Only
add if we have some actual data") say that SKU records with no data are
skipped. The code does not do this, and the model follows the code:

- The test `any(sku_data.values())` at line 110 also looks at `sku_number`,
  which is always at least 1. So the test never fails, and every index from 1
  to the count yields a record, empty or not. `HasData` models the test as
  written. `EveryBlockHasData` and `SkuBlocksAreAllIndices` show that it never
  drops a block.
- The test `if sku_data:` at line 51 asks whether a dictionary literal with
  nine keys is non-empty, which it always is. `CreateChunks` leaves the test
  out for that reason.

## Model

| member | source | states |
|---|---|---|
| WorkOrder.IsSkuSheet | src/work_order_extractor.py:24 | No contract of its own. `SelectSheets`, `ExclusionIsRedundant` and `SelectSingleSheet` state what the test selects. |
| WorkOrder.GetSkuCount | src/work_order_extractor.py:72-80 | No contract of its own. `SpecialCaseRedundant`, `SkuCountOfLeadingNumeral`, `SkuCountFallback`, `ThreeSkuLayout`, `SkuCountBlankTitles` and `SkuCountWordTitle` state the count. |
| WorkOrder.SkuRow | src/work_order_extractor.py:92-95 | No contract of its own. `SkuRowFormula` and `SkuRowsIncreasing` state the row layout. |
| WorkOrder.HasData | src/work_order_extractor.py:110 | No contract of its own. `EveryBlockHasData` shows that the test holds for every SKU index. |
| WorkOrder.SkuBlocks | src/work_order_extractor.py:82-117 | No contract of its own. `SkuBlocksAreAllIndices` states the blocks, and `Extractor.ExtractSkuBlocks` is proved equal to it. |
| WorkOrder.TypeTag | src/work_order_extractor.py:149 | No contract of its own. `CreateSkuChunk` and `ProjectChunk` ensure that their chunks carry the `chunk_type` strings of lines 149 and 185. |
| WorkOrder.Template | src/work_order_extractor.py:131-145 | No contract of its own. It models the indented triple-quoted f-string followed by `.strip()`, here and at lines 170-181. `TemplateLayout` and `TemplateLine` state its text. |
| WorkOrder.SkuLines | src/work_order_extractor.py:132-144 | No contract of its own. `SkuContentLayout`, `SkuContentLines` and `SkuContentHeader` state how these lines appear in an SKU chunk. |
| WorkOrder.SummaryLine | src/work_order_extractor.py:168 | No contract of its own. `Summaries`, `OverviewListsSku` and `ExampleSummaryLine` state the summary lines. |
| WorkOrder.OverviewLines | src/work_order_extractor.py:171-180 | No contract of its own. `OverviewContentLayout`, `OverviewContentLine` and `OverviewTotal` state how these lines appear in the overview. |
| WorkOrder.OverviewChunk | src/work_order_extractor.py:183-194 | No contract of its own. `ProjectChunk` states the overview's id, type and metadata, and `Extractor.CreateProjectChunk` is proved equal to it. |
| WorkOrder.SkuChunks | src/work_order_extractor.py:50-52 | No contract of its own. `SkuChunksSpec` states one SKU chunk per block, in block order. |
| WorkOrder.AssembleChunks | src/work_order_extractor.py:49-56 | No contract of its own. `AssembleChunksLength`, `AssembleChunksSku` and `AssembleChunksOverview` state its shape, and `Extractor.CreateChunks` is proved equal to it. |
| WorkOrder.ChunksOfSheets | src/work_order_extractor.py:26-29 | No contract of its own. `ChunksOfSheetsAppend`, `ChunksOfSheetsSameLookups` and `ChunksOfSheetsNames` state how it composes. |
| WorkOrder.SheetChunks | src/work_order_extractor.py:35-58 | No contract of its own. `SheetChunksCount`, `SheetChunkSku`, `SheetChunkOverview`, `SheetChunkIds`, `SheetChunkMetadata` and `SheetChunkIdsDistinct` state the chunks of a sheet. |
| WorkOrder.SheetResult | src/work_order_extractor.py:26-31 | No contract of its own. `Extractor.ExtractSheet` ties it to `extract_sheet`, and `SheetResultNames` and `SelectedSheetsFound` state what one iteration adds. |
| WorkOrder.AllChunks | src/work_order_extractor.py:18-33 | No contract of its own. `Extractor.ExtractAllSheets` is proved equal to it, and `AllChunksFromSkuSheets` and `AllChunksAppend` state its properties. |
| Text.FirstToken | src/work_order_extractor.py:78 | No contract of its own. `FirstTokenSpec` and `FirstTokenOf` state what `split()[0]` gives. |
| Text.ParseInt | src/work_order_extractor.py:78 | No contract of its own. `ParseIntOfNatToString` and `ParseSignedNumeral` state what `int()` gives. |
| Text.NatToString | src/work_order_extractor.py:148 | `str(n)` is a string of decimal digits with no leading zero. `NatToStringInjective` and `ParseIntOfNatToString` state the rest. |
| Text.IsSpace | src/work_order_extractor.py:78 | No contract of its own. It is the white-space set of `str.isspace`, which `split()` and `strip()` use. `FirstTokenSpec`, `LStripSpaces` and `RStripSpaces` state how those operations use it. |
| Text.LStrip | src/work_order_extractor.py:145 | No contract of its own. It is the left half of `strip()`, and `LStripSpaces` states what it removes. |
| Text.RStrip | src/work_order_extractor.py:145 | No contract of its own. It is the right half of `strip()`, and `RStripSpaces` and `RStripKeepsPrefix` state what it removes and keeps. |
| Text.Strip | src/work_order_extractor.py:145 | No contract of its own. `LStripSpaces`, `RStripSpaces` and `RStripKeepsPrefix` state what `strip()` removes. |
| Text.Join | src/work_order_extractor.py:178 | No contract of its own. `JoinAppend`, `JoinPartAt` and `JoinOffsetsOrdered` state where each part lands. |
| Text.Contains | src/work_order_extractor.py:23-24 | The substring test `'SKU' in name` holds exactly when the marker occurs at some position of the title. |
| Text.FirstTokenSpec | src/work_order_extractor.py:78 | `split()[0]` raises exactly when the title is all white space. Otherwise it is the maximal run of non-space characters after the leading white space. |
| Text.ParseIntOfNatToString | src/work_order_extractor.py:78 | `int(str(n)) == n` for every non-negative `n`. |
| Text.NatToStringInjective | src/work_order_extractor.py:148 | Different SKU numbers render differently. |
| Text.LStripSpaces | src/work_order_extractor.py:145 | lstrip, the left half of `strip()`, removes a leading run of white space and nothing more. |
| Text.RStripSpaces | src/work_order_extractor.py:145 | Trailing white space makes no difference to rstrip, the right half of `strip()`. |
| Text.RStripKeepsPrefix | src/work_order_extractor.py:145 | A prefix that ends in a non-space character survives rstrip, the right half of `strip()`, unchanged. |
| Text.JoinAppend | src/work_order_extractor.py:178 | Joining two non-empty lists is joining each and putting the separator between the results. |
| Text.JoinPartAt | src/work_order_extractor.py:178 | Every part occurs verbatim in the join, at its offset. |
| Text.JoinOffsetsOrdered | src/work_order_extractor.py:178 | In a join, later parts start after earlier parts end. |
| Text.ContainsAt | src/work_order_extractor.py:24 | An occurrence at a known position makes `in` true. |
| WorkOrder.SheetNames | src/work_order_extractor.py:23 | `sheetnames` lists the workbook's sheet titles in workbook order. |
| WorkOrder.LookupSheet | src/work_order_extractor.py:37 | `workbook[name]` gives a sheet of the workbook with that title. It fails exactly when no sheet has that title. |
| WorkOrder.GetCellValue | src/work_order_extractor.py:119-125 | A cell holding a value gives that value. A cell holding none gives the default. |
| WorkOrder.ExtractProjectInfo | src/work_order_extractor.py:60-68 | The project id, manager, salesperson and notes are the values of B2, B3, P3 and B5, read with the empty default. |
| WorkOrder.SelectSheets | src/work_order_extractor.py:23-24 | A title is selected exactly when it is in the workbook, contains "SKU" and is not "Copy_Paste Rows". No more titles come out than go in. |
| WorkOrder.ReadSkuBlock | src/work_order_extractor.py:97-107 | SKU `n` has number `n`. Its description is D`9n`. Its other seven fields are A, D, G, J, M, P and U of row `9n+1`. |
| WorkOrder.EveryBlockHasData | src/work_order_extractor.py:109-111 | The `any(...)` test passes for every SKU index from 1 up, because `sku_number` is truthy. |
| WorkOrder.SkuBlocksAreAllIndices | src/work_order_extractor.py:82-117 | The blocks are exactly the reads of SKUs 1 to `count` in order, `max(count, 0)` of them. None is dropped. |
| WorkOrder.CreateSkuChunk | src/work_order_extractor.py:147-161 | The id is `<project id>_SKU_<n>` and the type is the one whose `chunk_type` string is `sku_specification`. The metadata copies the project id, SKU number, sheet title, substrate, production type, colour target, manager and salesperson unchanged. |
| WorkOrder.Summaries | src/work_order_extractor.py:166-168 | There is one summary per block, in block order, and summary `i` is "SKU n: description (substrate)" of block `i`. |
| WorkOrder.ProjectChunk | src/work_order_extractor.py:183-194 | The id is `<project id>_overview` and the type is the one whose `chunk_type` string is `project_overview`. The metadata carries `sku_count = len(sku_blocks)` and the sheet title. |
| WorkOrder.Extractor.constructor | src/work_order_extractor.py:14-16 | The extractor holds the given workbook. |
| WorkOrder.Extractor.ExtractAllSheets | src/work_order_extractor.py:18-33 | The result is the concatenation, in selection order, of each selected sheet's chunks. A sheet whose lookup fails is skipped. |
| WorkOrder.Extractor.ExtractSheet | src/work_order_extractor.py:35-58 | The method fails exactly when the title names no sheet. Otherwise it returns the project record, count and blocks assembled into chunks. |
| WorkOrder.Extractor.CreateChunks | src/work_order_extractor.py:49-56 | One SKU chunk per block in block order, then the overview when there is a block. |
| WorkOrder.Extractor.ExtractSkuBlocks | src/work_order_extractor.py:82-117 | The loop returns exactly `max(count, 0)` blocks, and block `i` is the read of SKU `i+1`. |
| WorkOrder.Extractor.CreateProjectChunk | src/work_order_extractor.py:163-194 | The summary loop builds the summaries of all blocks, in order, and hence the overview chunk. |
| WorkOrderProperties.ExclusionIsRedundant | src/work_order_extractor.py:23-24 | "Copy_Paste Rows" does not contain "SKU", so a title is processed exactly when it contains "SKU". |
| WorkOrderProperties.SelectSheetsAppend | src/work_order_extractor.py:23-24 | Selection distributes over concatenation. It is a filter that keeps workbook order. |
| WorkOrderProperties.SelectSingleSheet | src/work_order_extractor.py:23-24 | A single title is kept exactly when it passes the test. |
| WorkOrderProperties.FirstTokenOf | src/work_order_extractor.py:78 | `split()[0]` of leading white space, a token and a rest that starts with white space is that token. |
| WorkOrderProperties.ParseSignedNumeral | src/work_order_extractor.py:78 | `int()` of an optional sign followed by one or more decimal digits, leading zeros allowed, is its signed value. |
| WorkOrderProperties.SpecialCaseRedundant | src/work_order_extractor.py:75-78 | The "1 SKU" special case agrees with the general rule: the first token of "1 SKU" is "1" and its value is 1. |
| WorkOrderProperties.SkuCountOfLeadingNumeral | src/work_order_extractor.py:72-80 | A title that starts, after any white space, with an optional sign and one or more decimal digits (leading zeros allowed), followed by white space or the end, announces exactly that signed number of SKUs. |
| WorkOrderProperties.SkuCountSignedAndPadded | src/work_order_extractor.py:78 | "007 SKU" announces 7 SKUs and "-3 SKU" announces -3. |
| WorkOrderProperties.ThreeSkuLayout | src/work_order_extractor.py:78 | "3 SKU Layout" announces 3 SKUs. |
| WorkOrderProperties.SkuCountFallback | src/work_order_extractor.py:79-80 | An all-white-space title, or one whose first token is not an integer, gives 1. |
| WorkOrderProperties.SkuCountBlankTitles | src/work_order_extractor.py:77-80 | The titles "" and "   " fall back to 1. |
| WorkOrderProperties.SkuCountWordTitle | src/work_order_extractor.py:77-80 | "SKU Layout", whose first token is not an integer, falls back to 1. |
| WorkOrderProperties.SkuRowFormula | src/work_order_extractor.py:92-95 | The `n == 1` branch agrees with `8 + 9 (n - 1)`. |
| WorkOrderProperties.SkuRowsIncreasing | src/work_order_extractor.py:92-95 | Each SKU's row is at least nine rows below the previous SKU's row. |
| WorkOrderProperties.ReadSkuBlockFrame | src/work_order_extractor.py:97-107 | An SKU block depends on its eight cells only. |
| WorkOrderProperties.SkuCellsDisjoint | src/work_order_extractor.py:97-107 | Different SKUs read disjoint cells, and no SKU reads a project cell. |
| WorkOrderProperties.ProjectInfoFrame | src/work_order_extractor.py:62-68 | The project record depends on B2, B3, P3 and B5 only. |
| WorkOrderProperties.ProjectInfoFallback | src/work_order_extractor.py:69-70 | A sheet with none of those four cells reads as the all-empty record of the `except` branch. |
| WorkOrderProperties.TemplateLayout | src/work_order_extractor.py:131-145 | An indented triple-quoted template with `strip()` is its lines joined by newline and indentation. Only the end of the last line is stripped. |
| WorkOrderProperties.TemplateLine | src/work_order_extractor.py:131-145 | Every template line but the last occurs verbatim in the stripped text, at its offset in the join. |
| WorkOrderProperties.SkuContentLayout | src/work_order_extractor.py:131-145 | The exact text of an SKU chunk: its first twelve lines unchanged, then the salesperson line with its trailing white space stripped. |
| WorkOrderProperties.SkuContentLines | src/work_order_extractor.py:132-143 | Each of the first twelve lines occurs verbatim at its offset, in template order. These are the header, the eight field lines and the manager line. |
| WorkOrderProperties.SkuContentHeader | src/work_order_extractor.py:132 | An SKU chunk's text starts with "Project <id> - SKU <n>". |
| WorkOrderProperties.OverviewContentLayout | src/work_order_extractor.py:170-181 | The exact text of the overview: its first nine lines unchanged, then the notes line with its trailing white space stripped. |
| WorkOrderProperties.OverviewContentLine | src/work_order_extractor.py:171-178 | Each of the overview's first nine lines occurs verbatim at its offset. |
| WorkOrderProperties.OverviewTotal | src/work_order_extractor.py:175 | The overview contains "Total SKUs: <number of blocks>". |
| WorkOrderProperties.OverviewListsSku | src/work_order_extractor.py:166-178 | The overview contains "SKU n: description (substrate)" for every block. |
| WorkOrderProperties.OverviewSkusInOrder | src/work_order_extractor.py:166-178 | Those summaries appear in block order without overlapping. |
| WorkOrderProperties.SkuChunksSpec | src/work_order_extractor.py:50-52 | There is one SKU chunk per block, and chunk `i` is built from block `i`. |
| WorkOrderProperties.AssembleChunksLength | src/work_order_extractor.py:49-58 | No blocks give no chunks. Otherwise there are `len(blocks) + 1` chunks. |
| WorkOrderProperties.AssembleChunksSku | src/work_order_extractor.py:49-52 | Chunk `i` is the SKU chunk of block `i`, so the SKU chunks come first, in block order. |
| WorkOrderProperties.AssembleChunksOverview | src/work_order_extractor.py:54-56 | When there is a block, the chunk after the SKU chunks is the overview. |
| WorkOrderProperties.SheetChunksCount | src/work_order_extractor.py:35-58 | A sheet whose title announces `count < 1` SKUs gives no chunks. Otherwise it gives `count + 1`. |
| WorkOrderProperties.SheetChunkSku | src/work_order_extractor.py:42-52 | For `i < count`, chunk `i` of a sheet is the SKU chunk of SKU `i + 1` read from that sheet. |
| WorkOrderProperties.SheetChunkOverview | src/work_order_extractor.py:42-56 | Chunk `count` of a sheet is its overview, and the overview's `sku_count` is `count`. |
| WorkOrderProperties.SheetChunkSkuId | src/work_order_extractor.py:148-154 | SKU chunk `i` of a sheet has id `<B2>_SKU_<i+1>`, type `sku_specification`, and records the sheet title and B2. |
| WorkOrderProperties.SheetChunkOverviewId | src/work_order_extractor.py:183-189 | The overview of a sheet has id `<B2>_overview`, type `project_overview`, and records the sheet title and B2. |
| WorkOrderProperties.SheetChunkMetadata | src/work_order_extractor.py:152-154 | Every chunk of a sheet records the sheet's title and its B2 project id. |
| WorkOrderProperties.SheetChunkIds | src/work_order_extractor.py:148 | Chunk `i` of a sheet has id `<id>_SKU_<i+1>` and type `sku_specification`. The last chunk has id `<id>_overview` and type `project_overview`. |
| WorkOrderProperties.ChunkIdsDiffer | src/work_order_extractor.py:148 | An SKU chunk id differs from every later SKU id and from the overview id (line 184). |
| WorkOrderProperties.SheetChunkIdsDistinct | src/work_order_extractor.py:148 | No two chunks of one sheet share an id. |
| WorkOrderProperties.ChunksOfSheetsAppend | src/work_order_extractor.py:26-29 | Processing a list of titles is processing each part in turn and concatenating the results. |
| WorkOrderProperties.SelectedSheetsFound | src/work_order_extractor.py:26-31 | Every selected title names a sheet, so the `except` branch of `extract_all_sheets` is never taken for a failed lookup. |
| WorkOrderProperties.LookupSheetFirst | src/work_order_extractor.py:37 | When several sheets share a title, the lookup gives the first of them. |
| WorkOrderProperties.LookupInPrefix | src/work_order_extractor.py:37 | A title found among the first sheets is looked up there, whatever follows. |
| WorkOrderProperties.LookupInSuffix | src/work_order_extractor.py:37 | A title absent from the first sheets is looked up among the rest. |
| WorkOrderProperties.ChunksOfSheetsSameLookups | src/work_order_extractor.py:26-29 | Two workbooks that answer every lookup alike give the same chunks. |
| WorkOrderProperties.SheetResultNames | src/work_order_extractor.py:26-29 | Every chunk one iteration adds records the title that iteration processed. |
| WorkOrderProperties.ChunksOfSheetsNames | src/work_order_extractor.py:26-29 | Every chunk comes from a sheet whose title is in the processed list. |
| WorkOrderProperties.AllChunksFromSkuSheets | src/work_order_extractor.py:18-33 | Every chunk of the workbook comes from one of its sheets whose title contains "SKU". |
| WorkOrderProperties.LookupsOfFirstRun | src/work_order_extractor.py:23-37 | Titles selected from the first run of sheets are looked up in that run, whatever follows. |
| WorkOrderProperties.LookupsOfSecondRun | src/work_order_extractor.py:23-37 | Titles selected from the second run, when no title is shared, are looked up in the second run. |
| WorkOrderProperties.AllChunksAppend | src/work_order_extractor.py:18-33 | For two runs of sheets with no title in common, the result on the whole workbook is the result on the first run followed by the result on the second. |
| WorkOrderProperties.ExampleSummaryLine | src/work_order_extractor.py:168 | The example sheet's one block summarises as "SKU 1: Label A (PET)". |
| WorkOrderProperties.ExampleSheetCount | src/work_order_extractor.py:35-58 | The example sheet "1 SKU" announces one SKU and yields two chunks. |
| WorkOrderProperties.ExampleSheetIds | src/work_order_extractor.py:35-58 | The example sheet with B2 = PG26794 yields exactly `PG26794_SKU_1` and then `PG26794_overview`. |
| WorkOrderProperties.ExampleOverview | src/work_order_extractor.py:163-181 | The example sheet's overview lists "SKU 1: Label A (PET)". |

## Left out

- Loading the workbook (lines 14-16): the constructor takes the workbook as a value. The unused `excel_path` field is not modelled.
- `str(cell.value)` (line 123): cells hold strings already. A cell whose value is `None` is absent from the sheet's map. A cell address is a structured pair of column and row, not an A1 string.
- The `except` branches of `_get_cell_value` (124-125), `_extract_project_info` (69-70) and the per-SKU loop (113-115) are not modelled:
  - A modelled cell read cannot fail, so none of them can be reached.
  - `ProjectInfoFallback` shows that a sheet missing the four project cells yields the same all-empty record.
  - The `except` of `extract_all_sheets` (30-31) is modelled as skipping the sheet, and `SelectedSheetsFound` shows it is never taken.
- Printed warnings (31, 114), the `pandas` and `json` imports, `WorkOrderEnhancer` (198-232), `demo_extraction` and the `__main__` block (234-259) are I/O or outside the extractor.
- Chunk and metadata dictionaries are records with fixed fields. The JSON shape is not modelled. `WorkOrder.TypeTag` gives the `chunk_type` strings.
- `ParseInt` accepts only an optional sign followed by ASCII digits. Python's `int()` also accepts digit-separating underscores and non-ASCII decimal digits, and such a title falls back to 1 in the model.
- Integers are unbounded, as Python's are.
