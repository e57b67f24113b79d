/**
 * `WorkOrderExtractor` of src/work_order_extractor.py: it walks the sheets of
 * a work-order workbook whose title mentions "SKU", reads a fixed grid of
 * cells per sheet (four project cells, then one nine-field block per SKU) and
 * turns them into text chunks for indexing: one `sku_specification` chunk per
 * SKU block and one `project_overview` chunk per sheet.
 *
 * The workbook is a value: an ordered list of sheets, each a title and a map
 * from cell address to the cell's value already rendered as a string (a cell
 * whose value is `None` is absent from the map).
 */
module WorkOrder {
  import opened Wrappers
  import opened Text
  import opened Sequences

  // ---------------------------------------------------------------------------
  // The fixed layout

  /** The sheet that names an SKU sheet but is skipped all the same. */
  const EXCLUDED_SHEET := "Copy_Paste Rows"
  /** The substring a sheet's title must contain for the sheet to be processed. */
  const SKU_MARKER := "SKU"
  /** The row of the first SKU block. */
  const BASE_ROW := 8
  /** The number of rows from one SKU block to the next. */
  const ROW_STRIDE := 9
  /** The indentation of the lines inside the source's triple-quoted templates. */
  const INDENT := "        "
  /** What separates two lines of a template: a newline and the indentation. */
  const LINE_BREAK := "\n" + INDENT

  // ---------------------------------------------------------------------------
  // Workbook

  /** A cell address as openpyxl reads `'D9'`: column letters and a row number. */
  datatype CellRef = CellRef(column: string, row: int)

  /** A worksheet: its title and the string value of every cell that holds one. */
  datatype Sheet = Sheet(name: string, cells: map<CellRef, string>)

  datatype Workbook = Workbook(sheets: seq<Sheet>)

  /** `workbook.sheetnames`, in workbook order. */
  function SheetNames(wb: Workbook): (names: seq<string>)
    ensures |names| == |wb.sheets|
    ensures forall i :: 0 <= i < |names| ==> names[i] == wb.sheets[i].name
  {
    seq(|wb.sheets|, i requires 0 <= i < |wb.sheets| => wb.sheets[i].name)
  }

  /** `workbook[name]`: the sheet with that title, `None` where openpyxl raises `KeyError`. */
  function LookupSheet(sheets: seq<Sheet>, name: string): (r: Option<Sheet>)
    ensures r.Some? ==> r.value in sheets && r.value.name == name
    ensures r.None? <==> forall i :: 0 <= i < |sheets| ==> sheets[i].name != name
  {
    if sheets == [] then
      None
    else if sheets[0].name == name then
      Some(sheets[0])
    else
      var r := LookupSheet(sheets[1..], name);
      assert forall i :: 1 <= i < |sheets| ==> sheets[i] == sheets[1..][i - 1];
      r
  }

  // ---------------------------------------------------------------------------
  // Records and chunks

  datatype ProjectInfo = ProjectInfo(
    projectId: string,
    projectManager: string,
    salesperson: string,
    notes: string)

  /** What `_extract_project_info` returns from its `except` branch. */
  const EMPTY_PROJECT_INFO := ProjectInfo("", "", "", "")

  /** One SKU block: its 1-based number and the eight fields read for it. */
  datatype SkuRecord = SkuRecord(
    skuNumber: nat,
    description: string,
    poaType: string,
    fileLocation: string,
    colorTarget: string,
    proofRequirements: string,
    substrate: string,
    varnishes: string,
    specialFx: string)

  datatype ChunkType = SkuSpecification | ProjectOverview

  /** The `chunk_type` string of a chunk. */
  function TypeTag(t: ChunkType): string {
    match t
    case SkuSpecification => "sku_specification"
    case ProjectOverview => "project_overview"
  }

  /** The `metadata` dictionary of a chunk. Its keys are fixed per chunk type,
      so it is a record: for an SKU chunk the keys `project_id`, `sku_number`,
      `sheet_name`, `substrate`, `poa_type`, `color_target`, `project_manager`
      and `salesperson`; for an overview chunk `project_id`, `sku_count`,
      `sheet_name`, `project_manager` and `salesperson`. */
  datatype Metadata =
    | SkuMetadata(
        projectId: string,
        skuNumber: nat,
        sheetName: string,
        substrate: string,
        poaType: string,
        colorTarget: string,
        projectManager: string,
        salesperson: string)
    | OverviewMetadata(
        projectId: string,
        skuCount: nat,
        sheetName: string,
        projectManager: string,
        salesperson: string)

  datatype Chunk = Chunk(
    chunkId: string,
    chunkType: ChunkType,
    content: string,
    metadata: Metadata)

  // ---------------------------------------------------------------------------
  // Cell reads

  /** `_get_cell_value`: the cell's value as a string, or `default` when it holds none. */
  function GetCellValue(sheet: Sheet, ref: CellRef, default: string): (v: string)
    ensures ref in sheet.cells ==> v == sheet.cells[ref]
    ensures ref !in sheet.cells ==> v == default
  {
    if ref in sheet.cells then sheet.cells[ref] else default
  }

  /** A read with the empty default, as every read of the extractor is. */
  function Cell(sheet: Sheet, column: string, row: int): string {
    GetCellValue(sheet, CellRef(column, row), "")
  }

  /** `_extract_project_info`: the cells B2, B3, P3 and B5. */
  function ExtractProjectInfo(sheet: Sheet): (info: ProjectInfo)
    ensures info.projectId == Cell(sheet, "B", 2)
    ensures info.projectManager == Cell(sheet, "B", 3)
    ensures info.salesperson == Cell(sheet, "P", 3)
    ensures info.notes == Cell(sheet, "B", 5)
  {
    ProjectInfo(Cell(sheet, "B", 2), Cell(sheet, "B", 3), Cell(sheet, "P", 3), Cell(sheet, "B", 5))
  }

  // ---------------------------------------------------------------------------
  // Sheet selection and SKU count

  /** The condition of the list comprehension in `extract_all_sheets`. */
  predicate IsSkuSheet(name: string) {
    Contains(name, SKU_MARKER) && name != EXCLUDED_SHEET
  }

  /** The sheet titles `extract_all_sheets` processes, in workbook order. */
  function SelectSheets(names: seq<string>): (selected: seq<string>)
    ensures |selected| <= |names|
    ensures forall x :: x in selected <==> x in names && IsSkuSheet(x)
  {
    if names == [] then []
    else (if IsSkuSheet(names[0]) then [names[0]] else []) + SelectSheets(names[1..])
  }

  /** `_get_sku_count`: "1 SKU" gives 1; otherwise the integer value of the
      first token of the title, and 1 where there is no token or it is not an integer. */
  function GetSkuCount(sheetName: string): int {
    if sheetName == "1 SKU" then
      1
    else
      match FirstToken(sheetName)
      case None => 1
      case Some(token) =>
        match ParseInt(token)
        case None => 1
        case Some(v) => v
  }

  // ---------------------------------------------------------------------------
  // SKU blocks

  /** The row offset computed for SKU `n` in `_extract_sku_blocks`. */
  function SkuRow(n: int): int {
    if n == 1 then BASE_ROW else BASE_ROW + (n - 1) * ROW_STRIDE
  }

  /** The dictionary `_extract_sku_blocks` builds for SKU `n`: the description
      one row below the block's row, the other seven fields two rows below. */
  function ReadSkuBlock(sheet: Sheet, n: nat): (rec: SkuRecord)
    ensures rec.skuNumber == n
    ensures n >= 1 ==> rec.description == Cell(sheet, "D", 9 * n)
    ensures n >= 1 ==>
      && rec.poaType == Cell(sheet, "A", 9 * n + 1)
      && rec.fileLocation == Cell(sheet, "D", 9 * n + 1)
      && rec.colorTarget == Cell(sheet, "G", 9 * n + 1)
      && rec.proofRequirements == Cell(sheet, "J", 9 * n + 1)
      && rec.substrate == Cell(sheet, "M", 9 * n + 1)
      && rec.varnishes == Cell(sheet, "P", 9 * n + 1)
      && rec.specialFx == Cell(sheet, "U", 9 * n + 1)
  {
    var row := SkuRow(n);
    SkuRecord(
      n,
      Cell(sheet, "D", row + 1),
      Cell(sheet, "A", row + 2),
      Cell(sheet, "D", row + 2),
      Cell(sheet, "G", row + 2),
      Cell(sheet, "J", row + 2),
      Cell(sheet, "M", row + 2),
      Cell(sheet, "P", row + 2),
      Cell(sheet, "U", row + 2))
  }

  /** `any(sku_data.values())`: the SKU number is non-zero or some field is non-empty. */
  predicate HasData(rec: SkuRecord) {
    || rec.skuNumber != 0
    || rec.description != "" || rec.poaType != "" || rec.fileLocation != ""
    || rec.colorTarget != "" || rec.proofRequirements != "" || rec.substrate != ""
    || rec.varnishes != "" || rec.specialFx != ""
  }

  /** The blocks `_extract_sku_blocks(sheet, count)` returns: SKUs 1 to `count`
      in order, each kept when `HasData` holds of it. */
  function SkuBlocks(sheet: Sheet, count: int): seq<SkuRecord>
    decreases if count < 0 then 0 else count
  {
    if count < 1 then
      []
    else
      var rec := ReadSkuBlock(sheet, count);
      SkuBlocks(sheet, count - 1) + (if HasData(rec) then [rec] else [])
  }

  /** The number of iterations of `range(1, count + 1)`. */
  function RangeLength(count: int): nat {
    if count < 0 then 0 else count
  }

  /** Every SKU `n >= 1` passes the `any(...)` test: `sku_number` alone is truthy. */
  lemma EveryBlockHasData(sheet: Sheet, n: nat)
    requires n >= 1
    ensures HasData(ReadSkuBlock(sheet, n))
  {
  }

  /** No block is ever dropped: `_extract_sku_blocks(sheet, count)` is the
      reads of SKUs 1, 2, ..., `count` in order, and empty when `count <= 0`. */
  lemma {:induction false} SkuBlocksAreAllIndices(sheet: Sheet, count: int)
    ensures |SkuBlocks(sheet, count)| == RangeLength(count)
    ensures forall i :: 0 <= i < |SkuBlocks(sheet, count)| ==> SkuBlocks(sheet, count)[i] == ReadSkuBlock(sheet, i + 1)
    decreases RangeLength(count)
  {
    if count >= 1 {
      SkuBlocksAreAllIndices(sheet, count - 1);
      EveryBlockHasData(sheet, count);
    }
  }

  // ---------------------------------------------------------------------------
  // Chunks

  /** A triple-quoted template whose lines are indented by `INDENT`, followed by `.strip()`. */
  function Template(lines: seq<string>): string {
    Strip(LINE_BREAK + Join(lines, LINE_BREAK) + LINE_BREAK)
  }

  /** The lines of the `_create_sku_chunk` template. */
  function SkuLines(info: ProjectInfo, rec: SkuRecord): seq<string> {
    [ "Project " + info.projectId + " - SKU " + NatToString(rec.skuNumber),
      "",
      "Description: " + rec.description,
      "Production Type: " + rec.poaType,
      "Material/Substrate: " + rec.substrate,
      "Color Requirements: " + rec.colorTarget,
      "Proof Requirements: " + rec.proofRequirements,
      "Varnishes: " + rec.varnishes,
      "Special Effects: " + rec.specialFx,
      "File Location: " + rec.fileLocation,
      "",
      "Project Manager: " + info.projectManager,
      "Salesperson: " + info.salesperson ]
  }

  /** `_create_sku_chunk`. */
  function CreateSkuChunk(info: ProjectInfo, rec: SkuRecord, sheetName: string): (c: Chunk)
    ensures c.chunkId == info.projectId + "_SKU_" + NatToString(rec.skuNumber)
    ensures c.chunkType == SkuSpecification && TypeTag(c.chunkType) == "sku_specification"
    ensures c.metadata == SkuMetadata(info.projectId, rec.skuNumber, sheetName, rec.substrate,
                                      rec.poaType, rec.colorTarget, info.projectManager, info.salesperson)
  {
    Chunk(
      info.projectId + "_SKU_" + NatToString(rec.skuNumber),
      SkuSpecification,
      Template(SkuLines(info, rec)),
      SkuMetadata(info.projectId, rec.skuNumber, sheetName, rec.substrate,
                  rec.poaType, rec.colorTarget, info.projectManager, info.salesperson))
  }

  /** One entry of `sku_summaries`. */
  function SummaryLine(rec: SkuRecord): string {
    "SKU " + NatToString(rec.skuNumber) + ": " + rec.description + " (" + rec.substrate + ")"
  }

  /** `sku_summaries` for a list of blocks. */
  function Summaries(blocks: seq<SkuRecord>): (lines: seq<string>)
    ensures |lines| == |blocks|
    ensures forall i :: 0 <= i < |blocks| ==> lines[i] == SummaryLine(blocks[i])
  {
    seq(|blocks|, i requires 0 <= i < |blocks| => SummaryLine(blocks[i]))
  }

  /** The lines of the `_create_project_chunk` template, given `sku_summaries`
      and `len(sku_blocks)`. */
  function OverviewLines(info: ProjectInfo, summaries: seq<string>, skuCount: nat): seq<string> {
    [ "Project " + info.projectId + " Overview",
      "",
      "Project Manager: " + info.projectManager,
      "Salesperson: " + info.salesperson,
      "Total SKUs: " + NatToString(skuCount),
      "",
      "SKU Summary:",
      Join(summaries, "\n"),
      "",
      "Notes: " + info.notes ]
  }

  /** The dictionary `_create_project_chunk` builds once `sku_summaries` is complete. */
  function OverviewChunk(info: ProjectInfo, summaries: seq<string>, skuCount: nat, sheetName: string): Chunk {
    Chunk(
      info.projectId + "_overview",
      ProjectOverview,
      Template(OverviewLines(info, summaries, skuCount)),
      OverviewMetadata(info.projectId, skuCount, sheetName, info.projectManager, info.salesperson))
  }

  /** The chunk `_create_project_chunk` returns. */
  function ProjectChunk(info: ProjectInfo, blocks: seq<SkuRecord>, sheetName: string): (c: Chunk)
    ensures c.chunkId == info.projectId + "_overview"
    ensures c.chunkType == ProjectOverview && TypeTag(c.chunkType) == "project_overview"
    ensures c.metadata == OverviewMetadata(info.projectId, |blocks|, sheetName, info.projectManager, info.salesperson)
  {
    OverviewChunk(info, Summaries(blocks), |blocks|, sheetName)
  }

  /** The SKU chunks of a sheet, one per block, in block order. */
  function SkuChunks(info: ProjectInfo, blocks: seq<SkuRecord>, sheetName: string): seq<Chunk> {
    if blocks == [] then []
    else SkuChunks(info, blocks[..|blocks| - 1], sheetName) + [CreateSkuChunk(info, blocks[|blocks| - 1], sheetName)]
  }

  /** The chunks `extract_sheet` builds from a sheet's project record and blocks:
      one per block, then the overview when there is a block at all. */
  function AssembleChunks(info: ProjectInfo, blocks: seq<SkuRecord>, sheetName: string): seq<Chunk> {
    SkuChunks(info, blocks, sheetName) + (if blocks == [] then [] else [ProjectChunk(info, blocks, sheetName)])
  }

  /** What `extract_sheet` returns for a sheet. */
  function SheetChunks(sheet: Sheet): seq<Chunk> {
    AssembleChunks(ExtractProjectInfo(sheet), SkuBlocks(sheet, GetSkuCount(sheet.name)), sheet.name)
  }

  /** What one iteration of `extract_all_sheets` adds: the sheet's chunks, or
      nothing where `extract_sheet` raises and the `except` branch skips the sheet. */
  function SheetResult(wb: Workbook, name: string): seq<Chunk> {
    match LookupSheet(wb.sheets, name)
    case None => []
    case Some(sheet) => SheetChunks(sheet)
  }

  /** `SheetResult` for a fixed workbook, as a function of the title. */
  function SheetResultOf(wb: Workbook): string -> seq<Chunk> {
    name => SheetResult(wb, name)
  }

  /** The chunks of the named sheets, concatenated in the order of `names`. */
  function ChunksOfSheets(wb: Workbook, names: seq<string>): seq<Chunk> {
    ConcatMap(SheetResultOf(wb), names)
  }

  /** What `extract_all_sheets` returns. */
  function AllChunks(wb: Workbook): seq<Chunk> {
    ChunksOfSheets(wb, SelectSheets(SheetNames(wb)))
  }

  // ---------------------------------------------------------------------------
  // The extractor

  /** `WorkOrderExtractor`; its one field, the workbook, is set once and never changed. */
  class Extractor {
    const workbook: Workbook

    /** `__init__`, with the loaded workbook passed in. */
    constructor (workbook: Workbook)
      ensures this.workbook == workbook
    {
      this.workbook := workbook;
    }

    /** `extract_all_sheets`. */
    method ExtractAllSheets() returns (chunks: seq<Chunk>)
      ensures chunks == AllChunks(workbook)
    {
      var names := SelectSheets(SheetNames(workbook));
      chunks := [];
      var i := 0;
      while i < |names|
        invariant 0 <= i <= |names|
        invariant chunks == ChunksOfSheets(workbook, names[..i])
      {
        var r := ExtractSheet(names[i]);
        ConcatMapPrefix(SheetResultOf(workbook), names, i);
        if r.Some? {
          chunks := chunks + r.value;
        }
        i := i + 1;
      }
      assert names[..i] == names;
    }

    /** `extract_sheet`; `None` where the title names no sheet of the workbook. */
    method ExtractSheet(sheetName: string) returns (r: Option<seq<Chunk>>)
      ensures r.None? <==> LookupSheet(workbook.sheets, sheetName).None?
      ensures r.Some? ==> r.value == SheetChunks(LookupSheet(workbook.sheets, sheetName).value)
      ensures SheetResult(workbook, sheetName) == if r.Some? then r.value else []
    {
      var found := LookupSheet(workbook.sheets, sheetName);
      if found.None? {
        return None;
      }
      var sheet := found.value;
      var info := ExtractProjectInfo(sheet);
      var count := GetSkuCount(sheetName);
      var blocks := ExtractSkuBlocks(sheet, count);
      var chunks := CreateChunks(info, blocks, sheetName);
      return Some(chunks);
    }

    /** Lines 49-58 of `extract_sheet`: one SKU chunk per block, then the
        overview chunk when there is at least one block. The test `if sku_data:`
        of line 51 is left out: `sku_data` is a dictionary with nine keys, so it
        is never empty and the test always holds. */
    method CreateChunks(info: ProjectInfo, blocks: seq<SkuRecord>, sheetName: string) returns (chunks: seq<Chunk>)
      ensures chunks == AssembleChunks(info, blocks, sheetName)
    {
      chunks := [];
      for i := 0 to |blocks|
        invariant chunks == SkuChunks(info, blocks[..i], sheetName)
      {
        assert blocks[..i + 1][..i] == blocks[..i];
        chunks := chunks + [CreateSkuChunk(info, blocks[i], sheetName)];
      }
      assert blocks[..|blocks|] == blocks;
      if blocks != [] {
        var overview := CreateProjectChunk(info, blocks, sheetName);
        chunks := chunks + [overview];
      }
    }

    /** `_extract_sku_blocks`. */
    method ExtractSkuBlocks(sheet: Sheet, skuCount: int) returns (blocks: seq<SkuRecord>)
      ensures blocks == SkuBlocks(sheet, skuCount)
      ensures |blocks| == RangeLength(skuCount)
      ensures forall i :: 0 <= i < |blocks| ==> blocks[i] == ReadSkuBlock(sheet, i + 1) && blocks[i].skuNumber == i + 1
    {
      blocks := [];
      var skuNum := 1;
      while skuNum <= skuCount
        invariant 1 <= skuNum <= (if skuCount < 1 then 1 else skuCount + 1)
        invariant blocks == SkuBlocks(sheet, skuNum - 1)
      {
        var skuData := ReadSkuBlock(sheet, skuNum);
        if HasData(skuData) {
          blocks := blocks + [skuData];
        }
        skuNum := skuNum + 1;
      }
      SkuBlocksAreAllIndices(sheet, skuCount);
    }

    /** `_create_project_chunk`. */
    method CreateProjectChunk(info: ProjectInfo, skuBlocks: seq<SkuRecord>, sheetName: string) returns (c: Chunk)
      ensures c == ProjectChunk(info, skuBlocks, sheetName)
    {
      var skuSummaries := [];
      for i := 0 to |skuBlocks|
        invariant skuSummaries == Summaries(skuBlocks[..i])
      {
        skuSummaries := skuSummaries + [SummaryLine(skuBlocks[i])];
      }
      assert skuBlocks[..|skuBlocks|] == skuBlocks;
      c := OverviewChunk(info, skuSummaries, |skuBlocks|, sheetName);
    }
  }
}
