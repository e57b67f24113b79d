/**
 * Properties of the work-order extraction model: which sheets are processed,
 * how many SKUs a title announces, where each SKU block lies on the sheet,
 * what the chunk texts contain, and how the chunks of a sheet and of a
 * workbook are laid out.
 */
module WorkOrderProperties {
  import opened Wrappers
  import opened Text
  import opened WorkOrder
  import opened Sequences

  // ---------------------------------------------------------------------------
  // Sheet selection

  /** "Copy_Paste Rows" does not contain "SKU", so excluding it by name removes
      nothing the substring test had let through. */
  lemma ExclusionIsRedundant(name: string)
    ensures !Contains(EXCLUDED_SHEET, SKU_MARKER)
    ensures IsSkuSheet(name) <==> Contains(name, SKU_MARKER)
  {
    var s := EXCLUDED_SHEET;
    forall i | 0 <= i && i + |SKU_MARKER| <= |s|
      ensures !OccursAt(s, SKU_MARKER, i)
    {
      assert s[i..i + 3][0] == s[i] != 'S';
    }
  }

  /** Selection is a filter: it distributes over concatenation, so the selected
      titles keep their workbook order. */
  lemma {:induction false} SelectSheetsAppend(a: seq<string>, b: seq<string>)
    ensures SelectSheets(a + b) == SelectSheets(a) + SelectSheets(b)
  {
    if a == [] {
      assert a + b == b;
    } else {
      assert (a + b)[1..] == a[1..] + b;
      SelectSheetsAppend(a[1..], b);
    }
  }

  /** A single title is kept exactly when it passes the test. */
  lemma SelectSingleSheet(name: string)
    ensures SelectSheets([name]) == if IsSkuSheet(name) then [name] else []
  {
    assert [name][1..] == [];
  }

  // ---------------------------------------------------------------------------
  // SKU count

  /** `split()[0]` of leading spaces, a token and a space-led rest is the token. */
  lemma FirstTokenOf(lead: string, t: string, rest: string)
    requires AllSpace(lead) && t != [] && NoSpace(t)
    requires rest == [] || IsSpace(rest[0])
    ensures FirstToken(lead + t + rest) == Some(t)
  {
    var s := lead + t + rest;
    SkipSpacesSpec(s, 0);
    var k := SkipSpaces(s, 0);
    forall j | 0 <= j < |lead|
      ensures IsSpace(s[j])
    {
      assert s[j] == lead[j];
    }
    assert !IsSpace(s[|lead|]) by {
      assert s[|lead|] == t[0];
    }
    assert k == |lead|;
    SkipTokenSpec(s, k);
    var e := SkipToken(s, k);
    forall j | |lead| <= j < |lead| + |t|
      ensures !IsSpace(s[j])
    {
      assert s[j] == t[j - |lead|];
    }
    assert |lead| + |t| < |s| ==> IsSpace(s[|lead| + |t|]) by {
      if |lead| + |t| < |s| {
        assert s[|lead| + |t|] == rest[0];
      }
    }
    assert e == |lead| + |t|;
    assert s[k..e] == t;
  }

  /** `int()` of an optionally signed run of decimal digits, leading zeros
      allowed, is its signed value. */
  lemma ParseSignedNumeral(sign: string, d: string)
    requires sign == "" || sign == "+" || sign == "-"
    requires IsDigits(d)
    ensures ParseInt(sign + d) == Some(if sign == "-" then -(DigitsValue(d) as int) else DigitsValue(d))
  {
    if sign != "" {
      assert (sign + d)[1..] == d;
    } else {
      assert sign + d == d;
    }
  }

  /** The count `_get_sku_count` would give without its "1 SKU" special case:
      the value of the first token, or 1. */
  function TokenCount(name: string): int {
    match FirstToken(name)
    case None => 1
    case Some(token) =>
      match ParseInt(token)
      case None => 1
      case Some(v) => v
  }

  /** The special case "1 SKU" agrees with the general rule: its first token is
      "1", whose value is 1, so `_get_sku_count` is the general rule throughout. */
  lemma SpecialCaseRedundant(name: string)
    ensures FirstToken("1 SKU") == Some("1")
    ensures ParseInt("1") == Some(1)
    ensures GetSkuCount(name) == TokenCount(name)
  {
    assert "1 SKU" == "" + "1" + " SKU";
    FirstTokenOf("", "1", " SKU");
    ParseSignedNumeral("", "1");
    assert "" + "1" == "1";
  }

  /** A title that starts, after any spaces, with an optionally signed run of
      decimal digits followed by a space or the end announces exactly that
      signed number of SKUs. */
  lemma SkuCountOfLeadingNumeral(lead: string, sign: string, d: string, rest: string)
    requires AllSpace(lead)
    requires sign == "" || sign == "+" || sign == "-"
    requires IsDigits(d)
    requires rest == [] || IsSpace(rest[0])
    ensures GetSkuCount(lead + sign + d + rest) == if sign == "-" then -(DigitsValue(d) as int) else DigitsValue(d)
  {
    var t := sign + d;
    assert NoSpace(t) by {
      forall i | 0 <= i < |t|
        ensures !IsSpace(t[i])
      {
        if i >= |sign| {
          assert t[i] == d[i - |sign|];
        }
      }
    }
    var name := lead + sign + d + rest;
    assert name == lead + t + rest;
    FirstTokenOf(lead, t, rest);
    ParseSignedNumeral(sign, d);
    SpecialCaseRedundant(name);
  }

  /** "3 SKU Layout" announces three SKUs. */
  lemma ThreeSkuLayout()
    ensures GetSkuCount("3 SKU Layout") == 3
  {
    assert DigitsValue("3") == 3;
    SkuCountOfLeadingNumeral("", "", "3", " SKU Layout");
    assert "" + "" + "3" + " SKU Layout" == "3 SKU Layout";
  }

  /** Leading zeros and a sign are read as `int()` reads them. */
  lemma SkuCountSignedAndPadded()
    ensures GetSkuCount("007 SKU") == 7
    ensures GetSkuCount("-3 SKU") == -3
  {
    assert DigitsValue("007") == 7 by {
      assert "007"[..2] == "00" && "00"[..1] == "0" && "0"[..0] == "";
    }
    SkuCountOfLeadingNumeral("", "", "007", " SKU");
    assert "" + "" + "007" + " SKU" == "007 SKU";
    assert DigitsValue("3") == 3;
    SkuCountOfLeadingNumeral("", "-", "3", " SKU");
    assert "" + "-" + "3" + " SKU" == "-3 SKU";
  }

  /** A title with no token, or whose first token is not an integer, gives 1. */
  lemma SkuCountFallback(name: string)
    requires AllSpace(name) || (FirstToken(name).Some? && ParseInt(FirstToken(name).value).None?)
    ensures GetSkuCount(name) == 1
  {
    FirstTokenSpec(name);
    SpecialCaseRedundant(name);
  }

  /** Blank titles fall back to one SKU. */
  lemma SkuCountBlankTitles()
    ensures GetSkuCount("") == 1
    ensures GetSkuCount("   ") == 1
  {
    SkuCountFallback("");
    SkuCountFallback("   ");
  }

  /** A title that does not start with a number falls back to one SKU. */
  lemma SkuCountWordTitle()
    ensures GetSkuCount("SKU Layout") == 1
  {
    assert "SKU Layout" == "" + "SKU" + " Layout";
    FirstTokenOf("", "SKU", " Layout");
    assert !IsDigit('S');
    SkuCountFallback("SKU Layout");
  }

  // ---------------------------------------------------------------------------
  // Row layout

  /** The `n == 1` branch agrees with the general formula. */
  lemma SkuRowFormula(n: int)
    requires n >= 1
    ensures SkuRow(n) == BASE_ROW + ROW_STRIDE * (n - 1)
  {
  }

  /** Each SKU block starts a full stride below the previous one. */
  lemma SkuRowsIncreasing(m: int, n: int)
    requires 1 <= m < n
    ensures SkuRow(m) + ROW_STRIDE <= SkuRow(n)
  {
  }

  /** The cells read for SKU `n`. */
  function SkuCells(n: nat): set<CellRef> {
    var row := SkuRow(n);
    { CellRef("D", row + 1),
      CellRef("A", row + 2), CellRef("D", row + 2), CellRef("G", row + 2), CellRef("J", row + 2),
      CellRef("M", row + 2), CellRef("P", row + 2), CellRef("U", row + 2) }
  }

  /** The cells read for the project record. */
  function ProjectCells(): set<CellRef> {
    { CellRef("B", 2), CellRef("B", 3), CellRef("P", 3), CellRef("B", 5) }
  }

  /** An SKU block depends on its own cells only. */
  lemma ReadSkuBlockFrame(s1: Sheet, s2: Sheet, n: nat)
    requires forall r :: r in SkuCells(n) ==> GetCellValue(s1, r, "") == GetCellValue(s2, r, "")
    ensures ReadSkuBlock(s1, n) == ReadSkuBlock(s2, n)
  {
    var row := SkuRow(n);
    assert CellRef("D", row + 1) in SkuCells(n);
    assert CellRef("A", row + 2) in SkuCells(n);
    assert CellRef("D", row + 2) in SkuCells(n);
    assert CellRef("G", row + 2) in SkuCells(n);
    assert CellRef("J", row + 2) in SkuCells(n);
    assert CellRef("M", row + 2) in SkuCells(n);
    assert CellRef("P", row + 2) in SkuCells(n);
    assert CellRef("U", row + 2) in SkuCells(n);
  }

  /** Distinct SKUs never read the same cell, and no SKU reads a project cell. */
  lemma SkuCellsDisjoint(m: nat, n: nat)
    requires 1 <= m && 1 <= n && m != n
    ensures SkuCells(m) !! SkuCells(n)
    ensures SkuCells(n) !! ProjectCells()
  {
    forall r | r in SkuCells(m)
      ensures r.row == 9 * m || r.row == 9 * m + 1
    {
    }
    forall r | r in SkuCells(n)
      ensures r.row == 9 * n || r.row == 9 * n + 1
    {
    }
  }

  /** The project record depends on B2, B3, P3 and B5 only. */
  lemma ProjectInfoFrame(s1: Sheet, s2: Sheet)
    requires forall r :: r in ProjectCells() ==> GetCellValue(s1, r, "") == GetCellValue(s2, r, "")
    ensures ExtractProjectInfo(s1) == ExtractProjectInfo(s2)
  {
    assert CellRef("B", 2) in ProjectCells();
    assert CellRef("B", 3) in ProjectCells();
    assert CellRef("P", 3) in ProjectCells();
    assert CellRef("B", 5) in ProjectCells();
  }

  /** A sheet with none of the four project cells reads as the all-empty
      record, the same value the `except` branch would return. */
  lemma ProjectInfoFallback(sheet: Sheet)
    requires forall r :: r in ProjectCells() ==> r !in sheet.cells
    ensures ExtractProjectInfo(sheet) == EMPTY_PROJECT_INFO
  {
    ProjectInfoFrame(sheet, Sheet(sheet.name, map[]));
  }

  // ---------------------------------------------------------------------------
  // Chunk texts

  /** The first character of a join is the first character of its first part. */
  lemma JoinHead(xs: seq<string>, sep: string)
    requires xs != [] && xs[0] != []
    ensures Join(xs, sep) != [] && Join(xs, sep)[0] == xs[0][0]
  {
  }

  /** A template whose first line starts with a non-space character, and whose
      last line is `p + q` with `p` ending in one, reads as its lines joined by
      `LINE_BREAK`, with trailing white space removed from `q` only. */
  lemma TemplateLayout(lines: seq<string>, p: string, q: string)
    requires |lines| >= 2
    requires lines[0] != [] && !IsSpace(lines[0][0])
    requires |p| > 0 && !IsSpace(p[|p| - 1])
    requires lines[|lines| - 1] == p + q
    ensures Template(lines) == Join(lines[..|lines| - 1], LINE_BREAK) + LINE_BREAK + p + RStrip(q)
  {
    var n := |lines|;
    var front := lines[..n - 1];
    assert lines == front + [lines[n - 1]];
    JoinAppend(front, [lines[n - 1]], LINE_BREAK);
    var body := Join(lines, LINE_BREAK);
    JoinHead(lines, LINE_BREAK);
    assert AllSpace(LINE_BREAK);
    assert LINE_BREAK + body + LINE_BREAK == LINE_BREAK + (body + LINE_BREAK);
    LStripSpaces(LINE_BREAK, body + LINE_BREAK);
    RStripSpaces(body, LINE_BREAK);
    var pre := Join(front, LINE_BREAK) + LINE_BREAK + p;
    assert body == pre + q;
    RStripKeepsPrefix(pre, q);
  }

  /** Under the same conditions, every line but the last occurs verbatim in
      the template, at its offset in the join of those lines. */
  lemma TemplateLine(lines: seq<string>, p: string, q: string, i: nat)
    requires |lines| >= 2
    requires lines[0] != [] && !IsSpace(lines[0][0])
    requires |p| > 0 && !IsSpace(p[|p| - 1])
    requires lines[|lines| - 1] == p + q
    requires i < |lines| - 1
    ensures OccursAt(Template(lines), lines[i], JoinOffset(lines[..|lines| - 1], LINE_BREAK, i))
  {
    var front := lines[..|lines| - 1];
    var tail := LINE_BREAK + p + RStrip(q);
    TemplateLayout(lines, p, q);
    JoinPartAt(front, LINE_BREAK, i);
    OccursInPrefix(Join(front, LINE_BREAK), tail, front[i], JoinOffset(front, LINE_BREAK, i));
    assert Template(lines) == Join(front, LINE_BREAK) + tail;
  }

  /** The content of an SKU chunk: the first twelve template lines, then the
      salesperson line with `.strip()` applied to its end. */
  lemma SkuContentLayout(info: ProjectInfo, rec: SkuRecord, sheetName: string)
    ensures CreateSkuChunk(info, rec, sheetName).content ==
      Join(SkuLines(info, rec)[..12], LINE_BREAK) + LINE_BREAK + "Salesperson:" + RStrip(" " + info.salesperson)
  {
    var lines := SkuLines(info, rec);
    assert lines[0][0] == 'P';
    assert lines[12] == "Salesperson:" + (" " + info.salesperson);
    TemplateLayout(lines, "Salesperson:", " " + info.salesperson);
  }

  /** An SKU chunk's content holds its first twelve lines verbatim, in template
      order: the header "Project <id> - SKU <n>", the eight fields, the manager. */
  lemma SkuContentLines(info: ProjectInfo, rec: SkuRecord, sheetName: string, i: nat)
    requires i < 12
    ensures OccursAt(CreateSkuChunk(info, rec, sheetName).content, SkuLines(info, rec)[i],
                     JoinOffset(SkuLines(info, rec)[..12], LINE_BREAK, i))
  {
    var lines := SkuLines(info, rec);
    assert lines[0][0] == 'P';
    assert lines[12] == "Salesperson:" + (" " + info.salesperson);
    TemplateLine(lines, "Salesperson:", " " + info.salesperson, i);
  }

  /** An SKU chunk's content starts with "Project <id> - SKU <n>". */
  lemma SkuContentHeader(info: ProjectInfo, rec: SkuRecord, sheetName: string)
    ensures OccursAt(CreateSkuChunk(info, rec, sheetName).content,
                     "Project " + info.projectId + " - SKU " + NatToString(rec.skuNumber), 0)
  {
    SkuContentLines(info, rec, sheetName, 0);
  }

  /** The content of the overview chunk: the first nine template lines, then
      the notes line with `.strip()` applied to its end. */
  lemma OverviewContentLayout(info: ProjectInfo, blocks: seq<SkuRecord>, sheetName: string)
    ensures ProjectChunk(info, blocks, sheetName).content ==
      Join(OverviewLines(info, Summaries(blocks), |blocks|)[..9], LINE_BREAK) + LINE_BREAK + "Notes:" + RStrip(" " + info.notes)
  {
    var lines := OverviewLines(info, Summaries(blocks), |blocks|);
    assert lines[0][0] == 'P';
    assert lines[9] == "Notes:" + (" " + info.notes);
    TemplateLayout(lines, "Notes:", " " + info.notes);
  }

  /** The overview's content holds one of its first nine lines verbatim. */
  lemma OverviewContentLine(info: ProjectInfo, blocks: seq<SkuRecord>, sheetName: string, k: nat)
    requires k < 9
    ensures OccursAt(ProjectChunk(info, blocks, sheetName).content, OverviewLines(info, Summaries(blocks), |blocks|)[k],
                     JoinOffset(OverviewLines(info, Summaries(blocks), |blocks|)[..9], LINE_BREAK, k))
  {
    var lines := OverviewLines(info, Summaries(blocks), |blocks|);
    assert lines[0][0] == 'P';
    assert lines[9] == "Notes:" + (" " + info.notes);
    TemplateLine(lines, "Notes:", " " + info.notes, k);
  }

  /** The fifth overview line states the block count. */
  lemma OverviewTotalLine(info: ProjectInfo, summaries: seq<string>, skuCount: nat)
    ensures OverviewLines(info, summaries, skuCount)[4] == "Total SKUs: " + NatToString(skuCount)
  {
  }

  /** The overview states the number of blocks as "Total SKUs: <n>". */
  lemma OverviewTotal(info: ProjectInfo, blocks: seq<SkuRecord>, sheetName: string)
    ensures Contains(ProjectChunk(info, blocks, sheetName).content, "Total SKUs: " + NatToString(|blocks|))
  {
    var lines := OverviewLines(info, Summaries(blocks), |blocks|);
    OverviewContentLine(info, blocks, sheetName, 4);
    OverviewTotalLine(info, Summaries(blocks), |blocks|);
    ContainsAt(ProjectChunk(info, blocks, sheetName).content, lines[4], JoinOffset(lines[..9], LINE_BREAK, 4));
  }

  /** Where the summary of block `i` starts in the overview's content. */
  function SummaryOffset(info: ProjectInfo, blocks: seq<SkuRecord>, i: nat): nat
    requires i < |blocks|
  {
    JoinOffset(OverviewLines(info, Summaries(blocks), |blocks|)[..9], LINE_BREAK, 7)
      + JoinOffset(Summaries(blocks), "\n", i)
  }

  /** The overview lists "SKU <n>: <description> (<substrate>)" for every block. */
  lemma OverviewListsSku(info: ProjectInfo, blocks: seq<SkuRecord>, sheetName: string, i: nat)
    requires i < |blocks|
    ensures OccursAt(ProjectChunk(info, blocks, sheetName).content, SummaryLine(blocks[i]), SummaryOffset(info, blocks, i))
  {
    var summaries := Summaries(blocks);
    OverviewContentLine(info, blocks, sheetName, 7);
    JoinPartAt(summaries, "\n", i);
    OccursWithin(ProjectChunk(info, blocks, sheetName).content, Join(summaries, "\n"), summaries[i],
                 JoinOffset(OverviewLines(info, summaries, |blocks|)[..9], LINE_BREAK, 7),
                 JoinOffset(summaries, "\n", i));
  }

  /** The summaries appear in block order, without overlapping. */
  lemma OverviewSkusInOrder(info: ProjectInfo, blocks: seq<SkuRecord>, i: nat, j: nat)
    requires i < j < |blocks|
    ensures SummaryOffset(info, blocks, i) + |SummaryLine(blocks[i])| <= SummaryOffset(info, blocks, j)
  {
    JoinOffsetsOrdered(Summaries(blocks), "\n", i, j);
  }

  // ---------------------------------------------------------------------------
  // The chunks of a sheet

  /** One SKU chunk per block, in block order. */
  lemma {:induction false} SkuChunksSpec(info: ProjectInfo, blocks: seq<SkuRecord>, sheetName: string)
    ensures |SkuChunks(info, blocks, sheetName)| == |blocks|
    ensures forall i :: 0 <= i < |blocks| ==> SkuChunks(info, blocks, sheetName)[i] == CreateSkuChunk(info, blocks[i], sheetName)
  {
    if blocks != [] {
      var front := blocks[..|blocks| - 1];
      SkuChunksSpec(info, front, sheetName);
      assert forall i :: 0 <= i < |front| ==> blocks[i] == front[i];
    }
  }

  /** No blocks give no chunks; otherwise there is one chunk per block and
      the overview, `len(blocks) + 1` in all. */
  lemma AssembleChunksLength(info: ProjectInfo, blocks: seq<SkuRecord>, sheetName: string)
    ensures |AssembleChunks(info, blocks, sheetName)| == if blocks == [] then 0 else |blocks| + 1
  {
    SkuChunksSpec(info, blocks, sheetName);
  }

  /** The SKU chunks come first, in block order. */
  lemma AssembleChunksSku(info: ProjectInfo, blocks: seq<SkuRecord>, sheetName: string, i: nat)
    requires i < |blocks|
    ensures i < |AssembleChunks(info, blocks, sheetName)|
    ensures AssembleChunks(info, blocks, sheetName)[i] == CreateSkuChunk(info, blocks[i], sheetName)
  {
    SkuChunksSpec(info, blocks, sheetName);
  }

  /** The overview comes last. */
  lemma AssembleChunksOverview(info: ProjectInfo, blocks: seq<SkuRecord>, sheetName: string)
    requires blocks != []
    ensures |blocks| < |AssembleChunks(info, blocks, sheetName)|
    ensures AssembleChunks(info, blocks, sheetName)[|blocks|] == ProjectChunk(info, blocks, sheetName)
  {
    SkuChunksSpec(info, blocks, sheetName);
  }

  /** The id of chunk `i` of a sheet whose title announces `count` SKUs. */
  function ChunkIdAt(pid: string, count: int, i: nat): string {
    if i < count then pid + "_SKU_" + NatToString(i + 1) else pid + "_overview"
  }

  /** `extract_sheet` gives no chunk when the title announces fewer than one
      SKU, and `count + 1` chunks when it announces `count >= 1`. */
  lemma SheetChunksCount(sheet: Sheet)
    ensures var count := GetSkuCount(sheet.name);
      |SheetChunks(sheet)| == if count < 1 then 0 else count + 1
  {
    var count := GetSkuCount(sheet.name);
    SkuBlocksAreAllIndices(sheet, count);
    AssembleChunksLength(ExtractProjectInfo(sheet), SkuBlocks(sheet, count), sheet.name);
  }

  /** Chunk `i < count` of a sheet is the SKU chunk of SKU `i + 1`. */
  lemma SheetChunkSku(sheet: Sheet, i: nat)
    requires i < GetSkuCount(sheet.name)
    ensures i < |SheetChunks(sheet)|
    ensures SheetChunks(sheet)[i] == CreateSkuChunk(ExtractProjectInfo(sheet), ReadSkuBlock(sheet, i + 1), sheet.name)
  {
    var count := GetSkuCount(sheet.name);
    var blocks := SkuBlocks(sheet, count);
    SkuBlocksAreAllIndices(sheet, count);
    assert blocks[i] == ReadSkuBlock(sheet, i + 1);
    AssembleChunksSku(ExtractProjectInfo(sheet), blocks, sheet.name, i);
  }

  /** The last chunk of a sheet announcing `count >= 1` SKUs is the overview,
      whose `sku_count` is `count`. */
  lemma SheetChunkOverview(sheet: Sheet)
    requires GetSkuCount(sheet.name) >= 1
    ensures var count := GetSkuCount(sheet.name);
      count < |SheetChunks(sheet)|
      && SheetChunks(sheet)[count] == ProjectChunk(ExtractProjectInfo(sheet), SkuBlocks(sheet, count), sheet.name)
      && SheetChunks(sheet)[count].metadata.skuCount == count
  {
    var count := GetSkuCount(sheet.name);
    var blocks := SkuBlocks(sheet, count);
    SkuBlocksAreAllIndices(sheet, count);
    AssembleChunksOverview(ExtractProjectInfo(sheet), blocks, sheet.name);
  }

  /** The id, type and origin of SKU chunk `i` of a sheet. */
  lemma SheetChunkSkuId(sheet: Sheet, i: nat)
    requires i < GetSkuCount(sheet.name)
    ensures i < |SheetChunks(sheet)|
    ensures SheetChunks(sheet)[i].chunkId == Cell(sheet, "B", 2) + "_SKU_" + NatToString(i + 1)
    ensures SheetChunks(sheet)[i].chunkType == SkuSpecification
    ensures SheetChunks(sheet)[i].metadata.sheetName == sheet.name
    ensures SheetChunks(sheet)[i].metadata.projectId == Cell(sheet, "B", 2)
  {
    SheetChunkSku(sheet, i);
  }

  /** The id, type and origin of the overview chunk of a sheet. */
  lemma SheetChunkOverviewId(sheet: Sheet)
    requires GetSkuCount(sheet.name) >= 1
    ensures GetSkuCount(sheet.name) < |SheetChunks(sheet)|
    ensures SheetChunks(sheet)[GetSkuCount(sheet.name)].chunkId == Cell(sheet, "B", 2) + "_overview"
    ensures SheetChunks(sheet)[GetSkuCount(sheet.name)].chunkType == ProjectOverview
    ensures SheetChunks(sheet)[GetSkuCount(sheet.name)].metadata.sheetName == sheet.name
    ensures SheetChunks(sheet)[GetSkuCount(sheet.name)].metadata.projectId == Cell(sheet, "B", 2)
  {
    SheetChunkOverview(sheet);
  }

  /** Every chunk of a sheet records the sheet's title and project id. */
  lemma SheetChunkMetadata(sheet: Sheet, k: nat)
    requires k < |SheetChunks(sheet)|
    ensures SheetChunks(sheet)[k].metadata.sheetName == sheet.name
    ensures SheetChunks(sheet)[k].metadata.projectId == Cell(sheet, "B", 2)
  {
    var count := GetSkuCount(sheet.name);
    if k < count {
      SheetChunkSkuId(sheet, k);
    } else {
      SheetChunksCount(sheet);
      assert k == count;
      SheetChunkOverviewId(sheet);
    }
  }

  /** The chunk ids of a sheet: `<id>_SKU_<n>` for the `n`-th SKU chunk and
      `<id>_overview` for the last. */
  lemma SheetChunkIds(sheet: Sheet, i: nat)
    requires i < |SheetChunks(sheet)|
    ensures SheetChunks(sheet)[i].chunkId == ChunkIdAt(Cell(sheet, "B", 2), GetSkuCount(sheet.name), i)
    ensures SheetChunks(sheet)[i].chunkType == if i < GetSkuCount(sheet.name) then SkuSpecification else ProjectOverview
  {
    var count := GetSkuCount(sheet.name);
    if i < count {
      SheetChunkSkuId(sheet, i);
    } else {
      SheetChunksCount(sheet);
      assert i == count;
      SheetChunkOverviewId(sheet);
    }
  }

  /** An SKU chunk's id differs from every later chunk's id. */
  lemma ChunkIdsDiffer(pid: string, count: int, i: nat, j: nat)
    requires i < j && i < count
    ensures ChunkIdAt(pid, count, i) != ChunkIdAt(pid, count, j)
  {
    var a := ChunkIdAt(pid, count, i);
    var b := ChunkIdAt(pid, count, j);
    assert a[|pid| + 1] == 'S';
    if j < count {
      if NatToString(i + 1) == NatToString(j + 1) {
        NatToStringInjective(i + 1, j + 1);
      }
      assert a[|pid| + 5..] == NatToString(i + 1);
      assert b[|pid| + 5..] == NatToString(j + 1);
    } else {
      assert b[|pid| + 1] == 'o';
    }
  }

  /** No two chunks of one sheet share an id. */
  lemma SheetChunkIdsDistinct(sheet: Sheet, i: nat, j: nat)
    requires i < j < |SheetChunks(sheet)|
    ensures SheetChunks(sheet)[i].chunkId != SheetChunks(sheet)[j].chunkId
  {
    var pid := Cell(sheet, "B", 2);
    var count := GetSkuCount(sheet.name);
    SheetChunksCount(sheet);
    SheetChunkIds(sheet, i);
    SheetChunkIds(sheet, j);
    ChunkIdsDiffer(pid, count, i, j);
  }

  // ---------------------------------------------------------------------------
  // The chunks of a workbook

  /** Processing a list of titles is processing each part in turn. */
  lemma ChunksOfSheetsAppend(wb: Workbook, a: seq<string>, b: seq<string>)
    ensures ChunksOfSheets(wb, a + b) == ChunksOfSheets(wb, a) + ChunksOfSheets(wb, b)
  {
    ConcatMapAppend(SheetResultOf(wb), a, b);
  }

  /** Every selected title names a sheet of the workbook, so the `except`
      branch of `extract_all_sheets` is never taken. */
  lemma SelectedSheetsFound(wb: Workbook, name: string)
    requires name in SelectSheets(SheetNames(wb))
    ensures LookupSheet(wb.sheets, name).Some?
  {
    var k :| 0 <= k < |SheetNames(wb)| && SheetNames(wb)[k] == name;
    assert wb.sheets[k].name == name;
  }

  /** Every chunk of one iteration records the title it was processed for. */
  lemma SheetResultNames(wb: Workbook, name: string, c: Chunk)
    requires c in SheetResult(wb, name)
    ensures c.metadata.sheetName == name
  {
    var sheet := LookupSheet(wb.sheets, name).value;
    var k :| 0 <= k < |SheetChunks(sheet)| && SheetChunks(sheet)[k] == c;
    SheetChunkMetadata(sheet, k);
  }

  /** Every chunk of a list of titles comes from a sheet whose title is in the list. */
  lemma ChunksOfSheetsNames(wb: Workbook, names: seq<string>)
    ensures forall c :: c in ChunksOfSheets(wb, names) ==> c.metadata.sheetName in names
  {
    forall c | c in ChunksOfSheets(wb, names)
      ensures c.metadata.sheetName in names
    {
      ConcatMapMember(SheetResultOf(wb), names, c);
      var n :| n in names && c in SheetResultOf(wb)(n);
      SheetResultNames(wb, n, c);
    }
  }

  /** Every chunk `extract_all_sheets` returns comes from a sheet of the
      workbook whose title contains "SKU". */
  lemma AllChunksFromSkuSheets(wb: Workbook)
    ensures forall c :: c in AllChunks(wb) ==>
      c.metadata.sheetName in SheetNames(wb) && Contains(c.metadata.sheetName, SKU_MARKER)
  {
    ChunksOfSheetsNames(wb, SelectSheets(SheetNames(wb)));
  }

  /** `workbook[name]` gives the first sheet with that title. */
  lemma {:induction false} LookupSheetFirst(sheets: seq<Sheet>, name: string, i: nat)
    requires i < |sheets| && sheets[i].name == name
    requires forall j :: 0 <= j < i ==> sheets[j].name != name
    ensures LookupSheet(sheets, name) == Some(sheets[i])
  {
    if i > 0 {
      assert sheets[0].name != name;
      assert forall j :: 0 <= j < i - 1 ==> sheets[1..][j] == sheets[j + 1];
      LookupSheetFirst(sheets[1..], name, i - 1);
    }
  }

  /** A title found among the first sheets is looked up there. */
  lemma {:induction false} LookupInPrefix(a: seq<Sheet>, b: seq<Sheet>, name: string)
    requires LookupSheet(a, name).Some?
    ensures LookupSheet(a + b, name) == LookupSheet(a, name)
  {
    if a[0].name != name {
      assert (a + b)[1..] == a[1..] + b;
      LookupInPrefix(a[1..], b, name);
    }
  }

  /** A title absent from the first sheets is looked up among the rest. */
  lemma {:induction false} LookupInSuffix(a: seq<Sheet>, b: seq<Sheet>, name: string)
    requires LookupSheet(a, name).None?
    ensures LookupSheet(a + b, name) == LookupSheet(b, name)
  {
    if a == [] {
      assert a + b == b;
    } else {
      assert a[0].name != name;
      assert (a + b)[1..] == a[1..] + b;
      LookupInSuffix(a[1..], b, name);
    }
  }

  /** Two workbooks that answer every lookup of `names` alike give the same chunks. */
  lemma ChunksOfSheetsSameLookups(wb1: Workbook, wb2: Workbook, names: seq<string>)
    requires forall n :: n in names ==> LookupSheet(wb1.sheets, n) == LookupSheet(wb2.sheets, n)
    ensures ChunksOfSheets(wb1, names) == ChunksOfSheets(wb2, names)
  {
    forall n | n in names
      ensures SheetResultOf(wb1)(n) == SheetResultOf(wb2)(n)
    {
      assert SheetResult(wb1, n) == SheetResult(wb2, n);
    }
    ConcatMapCongruence(SheetResultOf(wb1), SheetResultOf(wb2), names);
  }

  /** The titles of a workbook made of two runs of sheets. */
  lemma SheetNamesAppend(a: seq<Sheet>, b: seq<Sheet>)
    ensures SheetNames(Workbook(a + b)) == SheetNames(Workbook(a)) + SheetNames(Workbook(b))
  {
  }

  /** The titles selected from the first run are looked up in it. */
  lemma LookupsOfFirstRun(a: seq<Sheet>, b: seq<Sheet>)
    ensures forall n :: n in SelectSheets(SheetNames(Workbook(a))) ==> LookupSheet(a + b, n) == LookupSheet(a, n)
  {
    forall n | n in SelectSheets(SheetNames(Workbook(a)))
      ensures LookupSheet(a + b, n) == LookupSheet(a, n)
    {
      SelectedSheetsFound(Workbook(a), n);
      LookupInPrefix(a, b, n);
    }
  }

  /** The titles selected from the second run, none of which is a title of the
      first, are looked up in the second. */
  lemma LookupsOfSecondRun(a: seq<Sheet>, b: seq<Sheet>)
    requires forall i, j :: 0 <= i < |a| && 0 <= j < |b| ==> a[i].name != b[j].name
    ensures forall n :: n in SelectSheets(SheetNames(Workbook(b))) ==> LookupSheet(a + b, n) == LookupSheet(b, n)
  {
    forall n | n in SelectSheets(SheetNames(Workbook(b)))
      ensures LookupSheet(a + b, n) == LookupSheet(b, n)
    {
      var k :| 0 <= k < |SheetNames(Workbook(b))| && SheetNames(Workbook(b))[k] == n;
      assert b[k].name == n;
      LookupInSuffix(a, b, n);
    }
  }

  /** `extract_all_sheets` on a workbook made of two runs of sheets with no
      title in common is the result for the first run followed by the result
      for the second. */
  lemma AllChunksAppend(a: seq<Sheet>, b: seq<Sheet>)
    requires forall i, j :: 0 <= i < |a| && 0 <= j < |b| ==> a[i].name != b[j].name
    ensures AllChunks(Workbook(a + b)) == AllChunks(Workbook(a)) + AllChunks(Workbook(b))
  {
    var wb := Workbook(a + b);
    var selA := SelectSheets(SheetNames(Workbook(a)));
    var selB := SelectSheets(SheetNames(Workbook(b)));
    SheetNamesAppend(a, b);
    SelectSheetsAppend(SheetNames(Workbook(a)), SheetNames(Workbook(b)));
    ChunksOfSheetsAppend(wb, selA, selB);
    LookupsOfFirstRun(a, b);
    ChunksOfSheetsSameLookups(wb, Workbook(a), selA);
    LookupsOfSecondRun(a, b);
    ChunksOfSheetsSameLookups(wb, Workbook(b), selB);
  }

  // ---------------------------------------------------------------------------
  // A worked example

  /** A one-SKU sheet: project PG26794, SKU 1 described as "Label A" on PET. */
  function ExampleSheet(): Sheet {
    Sheet("1 SKU", map[CellRef("B", 2) := "PG26794", CellRef("D", 9) := "Label A", CellRef("M", 10) := "PET"])
  }

  /** "SKU 1: Label A (PET)" is the summary line of its one block. */
  lemma ExampleSummaryLine()
    ensures SummaryLine(ReadSkuBlock(ExampleSheet(), 1)) == "SKU 1: Label A (PET)"
  {
    assert NatToString(1) == "1";
    var rec := ReadSkuBlock(ExampleSheet(), 1);
    assert rec.description == "Label A";
    assert rec.substrate == "PET";
  }

  /** The example sheet announces one SKU and so yields two chunks. */
  lemma ExampleSheetCount()
    ensures GetSkuCount(ExampleSheet().name) == 1
    ensures |SheetChunks(ExampleSheet())| == 2
  {
    SpecialCaseRedundant(ExampleSheet().name);
    SheetChunksCount(ExampleSheet());
  }

  /** `extract_sheet` gives the example sheet the chunks `PG26794_SKU_1`, then
      `PG26794_overview`. */
  lemma ExampleSheetIds()
    ensures |SheetChunks(ExampleSheet())| == 2
    ensures SheetChunks(ExampleSheet())[0].chunkId == "PG26794_SKU_1"
    ensures SheetChunks(ExampleSheet())[1].chunkId == "PG26794_overview"
  {
    var sheet := ExampleSheet();
    ExampleSheetCount();
    var pid := Cell(sheet, "B", 2);
    assert pid == "PG26794";
    assert SheetChunks(sheet)[0].chunkId == "PG26794_SKU_1" by {
      SheetChunkIds(sheet, 0);
      assert NatToString(1) == "1";
      assert pid + "_SKU_" + "1" == "PG26794_SKU_1";
    }
    assert SheetChunks(sheet)[1].chunkId == "PG26794_overview" by {
      SheetChunkIds(sheet, 1);
      assert pid + "_overview" == "PG26794_overview";
    }
  }

  /** The overview chunk of the example sheet lists "SKU 1: Label A (PET)". */
  lemma ExampleOverview()
    ensures |SheetChunks(ExampleSheet())| == 2
    ensures Contains(SheetChunks(ExampleSheet())[1].content, "SKU 1: Label A (PET)")
  {
    var sheet := ExampleSheet();
    ExampleSheetCount();
    SheetChunkOverview(sheet);
    var blocks := SkuBlocks(sheet, 1);
    SkuBlocksAreAllIndices(sheet, 1);
    var info := ExtractProjectInfo(sheet);
    assert SheetChunks(sheet)[1] == ProjectChunk(info, blocks, sheet.name);
    OverviewListsSku(info, blocks, sheet.name, 0);
    ExampleSummaryLine();
    ContainsAt(SheetChunks(sheet)[1].content, SummaryLine(blocks[0]), SummaryOffset(info, blocks, 0));
  }
}
