/** HTML escaping and the line-based table renderer of src/lib/markdown.ts.
    A table is a maximal run of lines whose trimmed form starts with `|`;
    separator rows of the run are dropped and the remaining rows become one
    HTML table in place of the run. */
module Markdown {
  import opened Text

  // ---- escapeHtml ----

  /** `escapeHtml`: the three global replacements, `&` first. */
  function EscapeHtml(s: string): string {
    ReplaceChar(ReplaceChar(ReplaceChar(s, '&', "&amp;"), '<', "&lt;"), '>', "&gt;")
  }

  /** The entity (or the character itself) that one character becomes. */
  function EscapeChar(c: char): string {
    if c == '&' then "&amp;" else if c == '<' then "&lt;" else if c == '>' then "&gt;" else [c]
  }

  /** The character-by-character reading of escaping. */
  function EscapeEach(s: string): string {
    if s == [] then [] else EscapeChar(s[0]) + EscapeEach(s[1..])
  }

  /** Decoding of the three entities, the inverse of escaping. */
  function Unescape(s: string): string
    decreases |s|
  {
    if StartsWith(s, "&amp;") then "&" + Unescape(s[5..])
    else if StartsWith(s, "&lt;") then "<" + Unescape(s[4..])
    else if StartsWith(s, "&gt;") then ">" + Unescape(s[4..])
    else if s == [] then []
    else [s[0]] + Unescape(s[1..])
  }

  lemma ReplaceCharOne(x: char, c: char, rep: string)
    ensures ReplaceChar([x], c, rep) == if x == c then rep else [x]
  {
    assert [x][0] == x && [x][1..] == [];
  }

  lemma EscapeOne(c: char)
    ensures EscapeHtml([c]) == EscapeChar(c)
  {
    ReplaceCharOne(c, '&', "&amp;");
    if c == '&' {
      ReplaceCharAbsent("&amp;", '<', "&lt;");
      ReplaceCharAbsent("&amp;", '>', "&gt;");
    } else {
      ReplaceCharOne(c, '<', "&lt;");
      if c == '<' {
        ReplaceCharAbsent("&lt;", '>', "&gt;");
      } else {
        ReplaceCharOne(c, '>', "&gt;");
      }
    }
  }

  /** The `&` pass runs first, so the entities it and the later passes
      produce are never escaped again: escaping is the per-character map. */
  lemma {:induction false} EscapeHtmlIsPerChar(s: string)
    ensures EscapeHtml(s) == EscapeEach(s)
  {
    if s != [] {
      EscapeHtmlIsPerChar(s[1..]);
      assert s == [s[0]] + s[1..];
      ReplaceCharAppend([s[0]], s[1..], '&', "&amp;");
      var a1, b1 := ReplaceChar([s[0]], '&', "&amp;"), ReplaceChar(s[1..], '&', "&amp;");
      ReplaceCharAppend(a1, b1, '<', "&lt;");
      var a2, b2 := ReplaceChar(a1, '<', "&lt;"), ReplaceChar(b1, '<', "&lt;");
      ReplaceCharAppend(a2, b2, '>', "&gt;");
      EscapeOne(s[0]);
    }
  }

  /** The escaped text holds no angle bracket. */
  lemma {:induction false} EscapeHtmlNoAngles(s: string)
    ensures '<' !in EscapeHtml(s) && '>' !in EscapeHtml(s)
  {
    EscapeHtmlIsPerChar(s);
    EscapeEachNoAngles(s);
  }

  lemma {:induction false} EscapeEachNoAngles(s: string)
    ensures '<' !in EscapeEach(s) && '>' !in EscapeEach(s)
  {
    if s != [] {
      EscapeEachNoAngles(s[1..]);
    }
  }

  /** Escaping loses nothing: decoding the entities gives the text back. */
  lemma {:induction false} UnescapeEscape(s: string)
    ensures Unescape(EscapeHtml(s)) == s
  {
    EscapeHtmlIsPerChar(s);
    UnescapeEach(s);
  }

  lemma {:induction false} UnescapeEach(s: string)
    ensures Unescape(EscapeEach(s)) == s
  {
    if s != [] {
      UnescapeEach(s[1..]);
      UnescapeHead(s[0], EscapeEach(s[1..]));
      HeadCons(s);
    }
  }

  /** Decoding an escaped character gives the character back and goes on
      with what follows it. */
  lemma UnescapeHead(c: char, rest: string)
    ensures Unescape(EscapeChar(c) + rest) == [c] + Unescape(rest)
  {
    if c == '&' {
      UnescapeEntity("&amp;", rest);
    } else if c == '<' {
      UnescapeEntity("&lt;", rest);
      assert !StartsWith("&lt;" + rest, "&amp;") by { assert ("&lt;" + rest)[1] == 'l'; }
    } else if c == '>' {
      UnescapeEntity("&gt;", rest);
      assert !StartsWith("&gt;" + rest, "&amp;") by { assert ("&gt;" + rest)[1] == 'g'; }
      assert !StartsWith("&gt;" + rest, "&lt;") by { assert ("&gt;" + rest)[1] == 'g'; }
    } else {
      UnescapePlain(c, rest);
    }
  }

  lemma UnescapeEntity(entity: string, rest: string)
    ensures StartsWith(entity + rest, entity) && (entity + rest)[|entity|..] == rest
  {
    PrefixOfAppend(entity, rest);
  }

  lemma UnescapePlain(c: char, rest: string)
    requires c != '&'
    ensures Unescape([c] + rest) == [c] + Unescape(rest)
  {
    var e := [c] + rest;
    HeadTail([c], rest);
    assert !StartsWith(e, "&amp;") && !StartsWith(e, "&lt;") && !StartsWith(e, "&gt;") by {
      assert e[0] == c;
    }
  }

  // ---- line classification ----

  /** `line.includes("|") && line.trim().startsWith("|")` */
  predicate IsTableLine(line: string) {
    Contains(line, "|") && StartsWith(Trim(line), "|")
  }

  /** `/^\|[\s-|]+\|$/` on the trimmed line: a bar, at least one character
      that is white space, `-` or `|`, and a closing bar. */
  predicate IsSeparator(t: string) {
    && |t| >= 3 && t[0] == '|' && t[|t| - 1] == '|'
    && forall k :: 1 <= k < |t| - 1 ==> IsWhite(t[k]) || t[k] == '-' || t[k] == '|'
  }

  /** The trimmed line is a slice of the line. */
  lemma TrimIsSlice(s: string)
    ensures var a := |s| - |TrimStart(s)|; a + |Trim(s)| <= |s| && Trim(s) == s[a..a + |Trim(s)|]
  {
    var t := TrimStart(s);
    var a := |s| - |t|;
    SliceOfSuffix(s, a, |Trim(s)|);
  }

  /** The `includes` test is implied by the trimmed test: a line is a table
      line exactly when its trimmed form starts with a bar. */
  lemma TableLineIff(line: string)
    ensures IsTableLine(line) <==> StartsWith(Trim(line), "|")
  {
    if StartsWith(Trim(line), "|") {
      BarInLine(line);
    }
  }

  lemma BarInLine(line: string)
    requires StartsWith(Trim(line), "|")
    ensures Contains(line, "|")
  {
    var t := Trim(line);
    var a := |line| - |TrimStart(line)|;
    TrimIsSlice(line);
    StartsWithChar(t, '|');
    SliceHead(line, a, a + |t|);
    ContainsChar(line, a);
  }

  // ---- the block structure of a text ----

  datatype Block = TextLine(line: string) | Table(lines: seq<string>)

  /** One more line: a table line joins a table block that ends the
      blocks so far or opens a new one; any other line is a block of its own. */
  function AddLine(bs: seq<Block>, l: string): seq<Block> {
    if !IsTableLine(l) then bs + [TextLine(l)]
    else if bs != [] && bs[|bs| - 1].Table? then bs[..|bs| - 1] + [Table(bs[|bs| - 1].lines + [l])]
    else bs + [Table([l])]
  }

  /** The lines grouped into blocks: each maximal run of table lines is one
      table block, every other line a block of its own. */
  function Blocks(lines: seq<string>): seq<Block> {
    if lines == [] then [] else AddLine(Blocks(lines[..|lines| - 1]), lines[|lines| - 1])
  }

  function BlockLines(b: Block): seq<string> {
    if b.TextLine? then [b.line] else b.lines
  }

  function Flatten(bs: seq<Block>): seq<string> {
    if bs == [] then [] else Flatten(bs[..|bs| - 1]) + BlockLines(bs[|bs| - 1])
  }

  lemma FlattenSnoc(bs: seq<Block>, b: Block)
    ensures Flatten(bs + [b]) == Flatten(bs) + BlockLines(b)
  {
    PrefixOfAppend(bs, [b]);
  }

  lemma AddLineFlatten(bs: seq<Block>, l: string)
    ensures Flatten(AddLine(bs, l)) == Flatten(bs) + [l]
  {
    if IsTableLine(l) && bs != [] && bs[|bs| - 1].Table? {
      var front := bs[..|bs| - 1];
      var last := bs[|bs| - 1];
      FrontLast(bs);
      FlattenSnoc(front, last);
      FlattenSnoc(front, Table(last.lines + [l]));
      Assoc(Flatten(front), last.lines, [l]);
    } else if IsTableLine(l) {
      assert AddLine(bs, l) == bs + [Table([l])];
      FlattenSnoc(bs, Table([l]));
    } else {
      assert AddLine(bs, l) == bs + [TextLine(l)];
      FlattenSnoc(bs, TextLine(l));
    }
  }

  predicate TextBlocksPlain(bs: seq<Block>) {
    forall k :: 0 <= k < |bs| && bs[k].TextLine? ==> !IsTableLine(bs[k].line)
  }

  predicate TableBlocksRuns(bs: seq<Block>) {
    forall k :: 0 <= k < |bs| && bs[k].Table? ==>
      bs[k].lines != [] && forall j :: 0 <= j < |bs[k].lines| ==> IsTableLine(bs[k].lines[j])
  }

  predicate RunsMaximal(bs: seq<Block>) {
    forall k :: 0 <= k < |bs| - 1 ==> !(bs[k].Table? && bs[k + 1].Table?)
  }

  predicate WellGrouped(bs: seq<Block>) {
    TextBlocksPlain(bs) && TableBlocksRuns(bs) && RunsMaximal(bs)
  }

  /** A block well formed on its own: a plain text line, or a non-empty run
      of table lines. */
  predicate BlockPlain(b: Block) {
    if b.TextLine? then !IsTableLine(b.line)
    else b.lines != [] && forall j :: 0 <= j < |b.lines| ==> IsTableLine(b.lines[j])
  }

  lemma SnocGrouped(bs: seq<Block>, b: Block)
    requires WellGrouped(bs) && BlockPlain(b)
    requires b.Table? && bs != [] ==> !bs[|bs| - 1].Table?
    ensures WellGrouped(bs + [b])
  {
    SnocTextPlain(bs, b);
    SnocRuns(bs, b);
    SnocMaximal(bs, b);
  }

  lemma SnocTextPlain(bs: seq<Block>, b: Block)
    requires TextBlocksPlain(bs) && BlockPlain(b)
    ensures TextBlocksPlain(bs + [b])
  {
    var r := bs + [b];
    forall k | 0 <= k < |r| && r[k].TextLine? ensures !IsTableLine(r[k].line) {
      if k < |bs| { assert r[k] == bs[k]; } else { assert r[k] == b; }
    }
  }

  lemma SnocRuns(bs: seq<Block>, b: Block)
    requires TableBlocksRuns(bs) && BlockPlain(b)
    ensures TableBlocksRuns(bs + [b])
  {
    var r := bs + [b];
    forall k | 0 <= k < |r| && r[k].Table?
      ensures r[k].lines != [] && forall j :: 0 <= j < |r[k].lines| ==> IsTableLine(r[k].lines[j])
    {
      if k < |bs| { assert r[k] == bs[k]; } else { assert r[k] == b; }
    }
  }

  lemma SnocMaximal(bs: seq<Block>, b: Block)
    requires RunsMaximal(bs)
    requires b.Table? && bs != [] ==> !bs[|bs| - 1].Table?
    ensures RunsMaximal(bs + [b])
  {
    var r := bs + [b];
    forall k | 0 <= k < |r| - 1 ensures !(r[k].Table? && r[k + 1].Table?) {
      assert r[k] == bs[k];
      if k + 1 < |bs| { assert r[k + 1] == bs[k + 1]; } else { assert r[k + 1] == b; }
    }
  }

  lemma PrefixGrouped(bs: seq<Block>)
    requires bs != [] && WellGrouped(bs)
    ensures WellGrouped(bs[..|bs| - 1])
    ensures bs[|bs| - 1].Table? && |bs| >= 2 ==> !bs[|bs| - 2].Table?
    ensures bs[|bs| - 1].Table? ==> BlockPlain(bs[|bs| - 1])
  {
    var f := bs[..|bs| - 1];
    assert forall k :: 0 <= k < |f| ==> f[k] == bs[k];
  }

  lemma RunSnocPlain(run: seq<string>, l: string)
    requires BlockPlain(Table(run)) && IsTableLine(l)
    ensures BlockPlain(Table(run + [l]))
  {
    var r := run + [l];
    assert forall j :: 0 <= j < |run| ==> r[j] == run[j];
  }

  lemma AddLineGrouped(bs: seq<Block>, l: string)
    requires WellGrouped(bs)
    ensures WellGrouped(AddLine(bs, l))
  {
    if IsTableLine(l) && bs != [] && bs[|bs| - 1].Table? {
      var front := bs[..|bs| - 1];
      var last := bs[|bs| - 1];
      PrefixGrouped(bs);
      RunSnocPlain(last.lines, l);
      SnocGrouped(front, Table(last.lines + [l]));
    } else if IsTableLine(l) {
      assert BlockPlain(Table([l]));
      SnocGrouped(bs, Table([l]));
    } else {
      SnocGrouped(bs, TextLine(l));
    }
  }

  lemma {:induction false} BlocksFlatten(lines: seq<string>)
    ensures Flatten(Blocks(lines)) == lines
  {
    if lines != [] {
      var init := lines[..|lines| - 1];
      var l := lines[|lines| - 1];
      BlocksFlatten(init);
      AddLineFlatten(Blocks(init), l);
      FrontLast(lines);
    }
  }

  lemma {:induction false} BlocksGrouped(lines: seq<string>)
    ensures WellGrouped(Blocks(lines))
  {
    if lines != [] {
      var init := lines[..|lines| - 1];
      BlocksGrouped(init);
      AddLineGrouped(Blocks(init), lines[|lines| - 1]);
    }
  }

  /** The blocks hold the lines in order and are grouped as promised: text
      blocks are non-table lines, table blocks are non-empty runs of table
      lines, and no two table blocks are adjacent (each run is maximal). */
  lemma {:induction false} BlocksCorrect(lines: seq<string>)
    ensures Flatten(Blocks(lines)) == lines
    ensures WellGrouped(Blocks(lines))
  {
    BlocksFlatten(lines);
    BlocksGrouped(lines);
  }

  // ---- buildTable ----

  const TableOpen: string := "<table class=\"my-2 w-full text-sm border-collapse\">"
  const ThOpen: string := "<th class=\"border border-border px-2 py-1 text-left font-medium bg-muted\">"
  const TdOpen: string := "<td class=\"border border-border px-2 py-1\">"

  /** The trimmed, non-blank pieces, in order. */
  function KeepCells(pieces: seq<string>): (r: seq<string>)
    ensures |r| <= |pieces|
  {
    if pieces == [] then []
    else (if Trim(pieces[0]) != "" then [Trim(pieces[0])] else []) + KeepCells(pieces[1..])
  }

  /** The cells of a row: the `|`-separated pieces, blank ones dropped and
      the rest trimmed. */
  function Cells(row: string): seq<string> {
    KeepCells(Split(row, '|'))
  }

  /** Non-empty, with no bar and no white space at either end. */
  predicate IsCell(c: string) {
    c != "" && '|' !in c && !IsWhite(c[0]) && !IsWhite(c[|c| - 1])
  }

  lemma TrimmedPiece(p: string)
    requires '|' !in p && Trim(p) != ""
    ensures IsCell(Trim(p))
  {
    TrimEnds(p);
    TrimIsSlice(p);
  }

  lemma AllCellsConcat(a: seq<string>, b: seq<string>)
    requires forall i :: 0 <= i < |a| ==> IsCell(a[i])
    requires forall i :: 0 <= i < |b| ==> IsCell(b[i])
    ensures forall i :: 0 <= i < |a + b| ==> IsCell((a + b)[i])
  {
    forall i | 0 <= i < |a + b| ensures IsCell((a + b)[i]) {
      if i >= |a| { assert (a + b)[i] == b[i - |a|]; }
    }
  }

  lemma NoBarTail(pieces: seq<string>)
    requires pieces != [] && forall i :: 0 <= i < |pieces| ==> '|' !in pieces[i]
    ensures '|' !in pieces[0]
    ensures forall i :: 0 <= i < |pieces[1..]| ==> '|' !in pieces[1..][i]
  {
    forall i | 0 <= i < |pieces[1..]| ensures '|' !in pieces[1..][i] {
      assert pieces[1..][i] == pieces[i + 1];
    }
  }

  lemma {:induction false} KeepCellsShape(pieces: seq<string>)
    requires forall i :: 0 <= i < |pieces| ==> '|' !in pieces[i]
    ensures forall i :: 0 <= i < |KeepCells(pieces)| ==> IsCell(KeepCells(pieces)[i])
  {
    if pieces != [] {
      NoBarTail(pieces);
      KeepCellsShape(pieces[1..]);
      var head := if Trim(pieces[0]) != "" then [Trim(pieces[0])] else [];
      if Trim(pieces[0]) != "" {
        TrimmedPiece(pieces[0]);
      }
      AllCellsConcat(head, KeepCells(pieces[1..]));
      assert KeepCells(pieces) == head + KeepCells(pieces[1..]);
    }
  }

  /** Every cell is non-empty, holds no bar and has no surrounding white
      space. */
  lemma CellsShape(row: string)
    ensures forall i :: 0 <= i < |Cells(row)| ==> IsCell(Cells(row)[i])
  {
    KeepCellsShape(Split(row, '|'));
  }

  /** `open + cell + close` for each cell, in order. */
  function Wrap(cells: seq<string>, open: string, close: string): string {
    if cells == [] then "" else Wrap(cells[..|cells| - 1], open, close) + open + cells[|cells| - 1] + close
  }

  function HeadRow(cells: seq<string>): string {
    "<thead><tr>" + Wrap(cells, ThOpen, "</th>") + "</tr></thead><tbody>"
  }

  function BodyRow(cells: seq<string>): string {
    "<tr>" + Wrap(cells, TdOpen, "</td>") + "</tr>"
  }

  function BodyRows(rows: seq<string>): string {
    if rows == [] then "" else BodyRows(rows[..|rows| - 1]) + BodyRow(Cells(rows[|rows| - 1]))
  }

  /** The table for the given rows: nothing for no rows; otherwise the first
      row as the one header row of `<th>` cells and every later row as a
      body row of `<td>` cells. */
  function TableHtml(rows: seq<string>): string {
    if rows == [] then ""
    else TableOpen + HeadRow(Cells(rows[0])) + BodyRows(rows[1..]) + "</tbody></table>"
  }

  /** The inner `cells.forEach` of `buildTable`: append each cell wrapped
      in its tag. */
  method AppendCells(html: string, cells: seq<string>, open: string, close: string) returns (out: string)
    ensures out == html + Wrap(cells, open, close)
  {
    out := html;
    for k := 0 to |cells|
      invariant out == html + Wrap(cells[..k], open, close)
    {
      assert cells[..k + 1][..k] == cells[..k] && cells[..k + 1][k] == cells[k];
      out := out + open + cells[k] + close;
    }
    assert cells[..|cells|] == cells;
  }

  lemma BodyRowsSnoc(rows: seq<string>, i: nat)
    requires 1 <= i < |rows|
    ensures BodyRows(rows[1..i + 1]) == BodyRows(rows[1..i]) + BodyRow(Cells(rows[i]))
  {
    var r := rows[1..i + 1];
    assert r[..|r| - 1] == rows[1..i] && r[|r| - 1] == rows[i];
  }

  /** `buildTable(rows)` */
  method BuildTable(rows: seq<string>) returns (html: string)
    ensures html == TableHtml(rows)
  {
    if |rows| == 0 {
      return "";
    }
    html := TableOpen;
    for i := 0 to |rows|
      invariant i == 0 ==> html == TableOpen
      invariant i > 0 ==> html == TableOpen + HeadRow(Cells(rows[0])) + BodyRows(rows[1..i])
    {
      var cells := Cells(rows[i]);
      if i == 0 {
        html := AppendCells(html + "<thead><tr>", cells, ThOpen, "</th>");
        html := html + "</tr></thead><tbody>";
        Assoc4(TableOpen, "<thead><tr>", Wrap(cells, ThOpen, "</th>"), "</tr></thead><tbody>");
        assert rows[1..1] == [];
        assert html == TableOpen + HeadRow(Cells(rows[0])) + BodyRows(rows[1..1]);
      } else {
        ghost var before := html;
        html := AppendCells(html + "<tr>", cells, TdOpen, "</td>");
        html := html + "</tr>";
        Assoc4(before, "<tr>", Wrap(cells, TdOpen, "</td>"), "</tr>");
        BodyRowsSnoc(rows, i);
        Assoc(TableOpen + HeadRow(Cells(rows[0])), BodyRows(rows[1..i]), BodyRow(cells));
      }
    }
    assert rows[1..|rows|] == rows[1..];
    html := html + "</tbody></table>";
  }

  // ---- renderTables ----

  /** The rows of a run that become table rows: all but the separators. */
  function DataRows(run: seq<string>): seq<string> {
    if run == [] then []
    else DataRows(run[..|run| - 1]) + (if IsSeparator(Trim(run[|run| - 1])) then [] else [run[|run| - 1]])
  }

  /** No separator row ever becomes a table row. */
  lemma {:induction false} DataRowsNoSeparator(run: seq<string>)
    ensures forall i :: 0 <= i < |DataRows(run)| ==> !IsSeparator(Trim(DataRows(run)[i]))
  {
    if run != [] {
      DataRowsNoSeparator(run[..|run| - 1]);
    }
  }

  function RenderBlock(b: Block): string {
    if b.TextLine? then b.line else TableHtml(DataRows(b.lines))
  }

  function RenderBlocks(bs: seq<Block>): seq<string> {
    if bs == [] then [] else RenderBlocks(bs[..|bs| - 1]) + [RenderBlock(bs[|bs| - 1])]
  }

  /** The output of `renderTables`: every block rendered in place, a text
      line verbatim and a table run as its table, joined with line feeds. */
  function RenderedText(html: string): string {
    Join(RenderBlocks(Blocks(Split(html, '\n'))), "\n")
  }

  lemma BlocksPrefix(lines: seq<string>, i: nat)
    requires i < |lines|
    ensures Blocks(lines[..i + 1]) == AddLine(Blocks(lines[..i]), lines[i])
  {
    assert lines[..i + 1][..i] == lines[..i] && lines[..i + 1][i] == lines[i];
  }

  lemma RenderBlocksSnoc(bs: seq<Block>, b: Block)
    ensures RenderBlocks(bs + [b]) == RenderBlocks(bs) + [RenderBlock(b)]
  {
    PrefixOfAppend(bs, [b]);
  }

  lemma DataRowsSnoc(run: seq<string>, l: string)
    ensures DataRows(run + [l]) == DataRows(run) + (if IsSeparator(Trim(l)) then [] else [l])
  {
    PrefixOfAppend(run, [l]);
  }

  lemma AddLineStartsRun(done: seq<Block>, l: string)
    requires IsTableLine(l) && (done == [] || done[|done| - 1].TextLine?)
    ensures AddLine(done, l) == done + [Table([l])]
  {
  }

  lemma AddLineExtendsRun(done: seq<Block>, run: seq<string>, l: string)
    requires IsTableLine(l)
    ensures AddLine(done + [Table(run)], l) == done + [Table(run + [l])]
  {
    assert (done + [Table(run)])[..|done|] == done;
  }

  /** Closing a run: its table joins the output. */
  method FlushTable(result: seq<string>, tableRows: seq<string>, ghost done: seq<Block>, ghost run: seq<string>)
    returns (result': seq<string>)
    requires result == RenderBlocks(done) && tableRows == DataRows(run)
    ensures result' == RenderBlocks(done + [Table(run)])
  {
    var t := BuildTable(tableRows);
    RenderBlocksSnoc(done, Table(run));
    result' := result + [t];
  }

  /** How the loop's state describes the blocks of the lines read so far:
      the finished blocks, and the open run when inside a table. */
  ghost predicate Tracks(blocks: seq<Block>, done: seq<Block>, run: seq<string>, inTable: bool) {
    if inTable then blocks == done + [Table(run)]
    else blocks == done && (done == [] || done[|done| - 1].TextLine?)
  }

  /** One iteration of the `renderTables` loop over `line`. */
  method ConsumeLine(line: string, inTable: bool, tableRows: seq<string>, result: seq<string>,
                     ghost blocks: seq<Block>, ghost done: seq<Block>, ghost run: seq<string>)
    returns (inTable': bool, tableRows': seq<string>, result': seq<string>, ghost done': seq<Block>, ghost run': seq<string>)
    requires Tracks(blocks, done, run, inTable)
    requires result == RenderBlocks(done) && tableRows == DataRows(run)
    ensures Tracks(AddLine(blocks, line), done', run', inTable')
    ensures result' == RenderBlocks(done') && tableRows' == DataRows(run')
  {
    inTable', tableRows', result', done', run' := inTable, tableRows, result, done, run;
    if IsTableLine(line) {
      if !inTable {
        AddLineStartsRun(done, line);
        assert [] + [line] == [line];
        inTable' := true;
        tableRows' := [];
        run' := [];
      } else {
        AddLineExtendsRun(done, run, line);
      }
      DataRowsSnoc(run', line);
      run' := run' + [line];
      if IsSeparator(Trim(line)) {
        return;
      }
      tableRows' := tableRows' + [line];
    } else {
      if inTable {
        result' := FlushTable(result, tableRows, done, run);
        done' := done + [Table(run)];
        inTable' := false;
        tableRows' := [];
        run' := [];
      }
      RenderBlocksSnoc(done', TextLine(line));
      result' := result' + [line];
      done' := done' + [TextLine(line)];
    }
  }

  /** `renderTables(html)` */
  method RenderTables(html: string) returns (out: string)
    ensures out == RenderedText(html)
  {
    var lines := Split(html, '\n');
    var result: seq<string> := [];
    var inTable := false;
    var tableRows: seq<string> := [];
    ghost var done: seq<Block> := [];
    ghost var run: seq<string> := [];
    for i := 0 to |lines|
      invariant Tracks(Blocks(lines[..i]), done, run, inTable)
      invariant result == RenderBlocks(done) && tableRows == DataRows(run)
    {
      BlocksPrefix(lines, i);
      inTable, tableRows, result, done, run := ConsumeLine(lines[i], inTable, tableRows, result, Blocks(lines[..i]), done, run);
    }
    assert lines[..|lines|] == lines;
    if inTable {
      result := FlushTable(result, tableRows, done, run);
      done := done + [Table(run)];
    }
    out := Join(result, "\n");
  }

  /** Text without any table line comes out unchanged. */
  lemma {:induction false} NoTablesUnchanged(html: string)
    requires forall i :: 0 <= i < |Split(html, '\n')| ==> !IsTableLine(Split(html, '\n')[i])
    ensures RenderedText(html) == html
  {
    var lines := Split(html, '\n');
    NoTableLines(lines);
    JoinSplit(html, '\n');
  }

  lemma {:induction false} NoTableLines(lines: seq<string>)
    requires forall i :: 0 <= i < |lines| ==> !IsTableLine(lines[i])
    ensures RenderBlocks(Blocks(lines)) == lines
  {
    if lines != [] {
      var init := lines[..|lines| - 1];
      var l := lines[|lines| - 1];
      assert forall i :: 0 <= i < |init| ==> !IsTableLine(init[i]) by {
        forall i | 0 <= i < |init| ensures !IsTableLine(init[i]) { assert init[i] == lines[i]; }
      }
      NoTableLines(init);
      assert !IsTableLine(l);
      assert Blocks(lines) == Blocks(init) + [TextLine(l)];
      RenderBlocksSnoc(Blocks(init), TextLine(l));
      FrontLast(lines);
    }
  }
}
