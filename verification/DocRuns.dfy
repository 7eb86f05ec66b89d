/** New text as runs: bold marks become formatting, line ends become breaks. */
module DocRuns {
  import opened Options
  import opened DocText
  import opened DocTree

  function Bold(fmt: Option<Format>): Format {
    if fmt.Some? then fmt.value.(bold := true) else Format("", true, [], "")
  }

  function Chosen(fmt: Option<Format>, bold: bool): Option<Format> {
    if bold then Some(Bold(fmt)) else fmt
  }

  function LineRuns(line: string, fmt: Option<Format>): seq<Node> {
    if line == "" then [] else [R(Run(fmt, [T(line)]))]
  }

  const BREAK := R(Run(None, [Br]))

  /** The lines of one chunk, each after a break but the first. */
  function MoreLines(lines: seq<string>, fmt: Option<Format>): seq<Node> {
    if lines == [] then [] else [BREAK] + LineRuns(lines[0], fmt) + MoreLines(lines[1..], fmt)
  }

  function ChunkRuns(chunk: string, fmt: Option<Format>): seq<Node> {
    LineRuns(Lines(chunk)[0], fmt) + MoreLines(Lines(chunk)[1..], fmt)
  }

  function ChunksRuns(chunks: seq<string>, bold: bool, fmt: Option<Format>): seq<Node> {
    if chunks == [] then [] else ChunkRuns(chunks[0], Chosen(fmt, bold)) + ChunksRuns(chunks[1..], !bold, fmt)
  }

  function NewRuns(text: string, fmt: Option<Format>): seq<Node> {
    ChunksRuns(Chunks(Clean(text)), false, fmt)
  }

  // ---------------------------------------------------------------- the specification: one scan over the characters

  function LineCell(c: char, fmt: Option<Format>): Cell {
    if c == '\n' then Glyph(None, Thing(Br)) else Glyph(fmt, Char(c))
  }

  function Unstyled(s: string, fmt: Option<Format>): seq<Cell> {
    if s == "" then [] else [LineCell(s[0], fmt)] + Unstyled(s[1..], fmt)
  }

  /** Every pair of stars toggles bold and disappears, a line end becomes a break, everything else stays. */
  function Styled(s: string, bold: bool, fmt: Option<Format>): seq<Cell> {
    if s == "" then []
    else if |s| > 1 && s[0] == '*' && s[1] == '*' then Styled(s[2..], !bold, fmt)
    else [LineCell(s[0], Chosen(fmt, bold))] + Styled(s[1..], bold, fmt)
  }

  lemma LineCells(line: string, fmt: Option<Format>)
    ensures Cells(LineRuns(line, fmt)) == Chars(fmt, line, false)
  {
    if line != "" {
      OneRun(false, 0, 0, Run(fmt, [T(line)]));
      assert [T(line)][1..] == [];
    }
  }

  lemma {:induction false} ChunkCells(chunk: string, fmt: Option<Format>)
    ensures Cells(ChunkRuns(chunk, fmt)) == Unstyled(chunk, fmt)
  {
    hide Cells, LineRuns;
    var lines := Lines(chunk);
    LineCells(lines[0], fmt);
    CellsAppend(LineRuns(lines[0], fmt), MoreLines(lines[1..], fmt));
    if chunk == "" {
      NoNodes(false, 0, 0);
    } else {
      var rest := Lines(chunk[1..]);
      ChunkCells(chunk[1..], fmt);
      LineCells(rest[0], fmt);
      CellsAppend(LineRuns(rest[0], fmt), MoreLines(rest[1..], fmt));
      if chunk[0] == '\n' {
        BreakCells(rest, fmt);
      } else {
        assert lines[0] == [chunk[0]] + rest[0] && lines[1..] == rest[1..];
        assert Chars(fmt, lines[0], false) == [Glyph(fmt, Char(chunk[0]))] + Chars(fmt, rest[0], false);
      }
    }
  }

  lemma BreakCells(lines: seq<string>, fmt: Option<Format>)
    requires lines != []
    ensures Cells(MoreLines(lines, fmt)) ==
            [Glyph(None, Thing(Br))] + Cells(LineRuns(lines[0], fmt) + MoreLines(lines[1..], fmt))
  {
    hide Cells, LineRuns;
    BreakCell();
    var rest := LineRuns(lines[0], fmt) + MoreLines(lines[1..], fmt);
    assert MoreLines(lines, fmt) == [BREAK] + rest;
    CellsAppend([BREAK], rest);
  }

  lemma BreakCell()
    ensures Cells([BREAK]) == [Glyph(None, Thing(Br))]
  {
    OneRun(false, 0, 0, Run(None, [Br]));
    assert [Br][1..] == [];
  }

  /** The cells of a list of chunks start with those of the first chunk. */
  lemma FirstChunk(chunks: seq<string>, bold: bool, fmt: Option<Format>)
    requires chunks != []
    ensures Cells(ChunksRuns(chunks, bold, fmt)) ==
            Unstyled(chunks[0], Chosen(fmt, bold)) + Cells(ChunksRuns(chunks[1..], !bold, fmt))
  {
    hide Cells, ChunkRuns, Chosen, Unstyled;
    ChunkCells(chunks[0], Chosen(fmt, bold));
    CellsAppend(ChunkRuns(chunks[0], Chosen(fmt, bold)), ChunksRuns(chunks[1..], !bold, fmt));
  }

  lemma NoChunks(bold: bool, fmt: Option<Format>)
    ensures Cells(ChunksRuns([], bold, fmt)) == [] && Unstyled("", fmt) == []
  {
    NoNodes(false, 0, 0);
  }

  lemma OneMoreChar(c: char, rest: string, fmt: Option<Format>)
    ensures Unstyled([c] + rest, fmt) == [LineCell(c, fmt)] + Unstyled(rest, fmt)
  {
    assert ([c] + rest)[1..] == rest;
  }

  lemma {:induction false} ChunksCells(s: string, bold: bool, fmt: Option<Format>)
    ensures Cells(ChunksRuns(Chunks(s), bold, fmt)) == Styled(s, bold, fmt)
  {
    hide Cells, ChunksRuns, Chosen, Unstyled, LineCell;
    var chunks := Chunks(s);
    FirstChunk(chunks, bold, fmt);
    NoChunks(!bold, Chosen(fmt, bold));
    if s == "" {
      assert chunks[1..] == [];
      NoChunks(!bold, fmt);
    } else if |s| > 1 && s[0] == '*' && s[1] == '*' {
      ChunksCells(s[2..], !bold, fmt);
      assert chunks[0] == "" && chunks[1..] == Chunks(s[2..]);
    } else {
      var rest := Chunks(s[1..]);
      ChunksCells(s[1..], bold, fmt);
      FirstChunk(rest, bold, fmt);
      OneMoreChar(s[0], rest[0], Chosen(fmt, bold));
      assert chunks[0] == [s[0]] + rest[0] && chunks[1..] == rest[1..];
    }
  }

  /** The loop over chunks and lines gives exactly what the scan specifies. */
  lemma NewRunsAreStyled(text: string, fmt: Option<Format>)
    ensures Cells(NewRuns(text, fmt)) == Styled(Clean(text), false, fmt)
  {
    ChunksCells(Clean(text), false, fmt);
  }

  // ---------------------------------------------------------------- its text

  function AtomText(a: Atom): string {
    match a
    case Char(c) => [c]
    case Deleted(_) => ""
    case Thing(p) => PieceText(p)
  }

  function CellsText(cells: seq<Cell>): string {
    if cells == [] then ""
    else (match cells[0]
          case Glyph(_, atom) => AtomText(atom)
          case Nest(tag, _, inner) => if Hidden(tag) then "" else CellsText(inner)) + CellsText(cells[1..])
  }

  lemma CellsTextHead(cells: seq<Cell>)
    requires cells != []
    ensures CellsText(cells) == CellsText([cells[0]]) + CellsText(cells[1..])
  {
    hide AtomText, Hidden;
    assert [cells[0]][1..] == [] && CellsText([]) == "";
  }

  lemma NoCellsText()
    ensures CellsText([]) == ""
  {
  }

  lemma {:induction false} CellsTextAppend(a: seq<Cell>, b: seq<Cell>)
    ensures CellsText(a + b) == CellsText(a) + CellsText(b)
  {
    hide CellsText;
    if a == [] {
      NoCellsText();
      assert a + b == b;
    } else {
      CellsTextHead(a);
      CellsTextHead(a + b);
      CellsTextAppend(a[1..], b);
      assert (a + b)[1..] == a[1..] + b && (a + b)[0] == a[0];
    }
  }

  lemma {:induction false} CharsText(fmt: Option<Format>, text: string, deleted: bool)
    ensures CellsText(Chars(fmt, text, deleted)) == if deleted then "" else text
  {
    if text != "" {
      CharsText(fmt, text[1..], deleted);
      assert Chars(fmt, text, deleted)[1..] == Chars(fmt, text[1..], deleted);
    }
  }

  lemma {:induction false} PiecesCellsText(fmt: Option<Format>, pieces: seq<Piece>)
    ensures CellsText(PiecesCells(fmt, pieces)) == PiecesText(pieces)
  {
    if pieces != [] {
      var p := pieces[0];
      PiecesCellsText(fmt, pieces[1..]);
      CellsTextAppend(PieceCells(fmt, p), PiecesCells(fmt, pieces[1..]));
      if p.T? || p.DelT? {
        CharsText(fmt, p.text, p.DelT?);
      } else {
        assert [Glyph(fmt, Thing(p))][1..] == [];
      }
    }
  }

  /** Equal cells read alike. */
  lemma {:induction false} CellsGiveText(nodes: seq<Node>)
    ensures CellsText(Cells(nodes)) == Visible(nodes)
  {
    if nodes != [] {
      hide PiecesCells, PiecesText;
      CellsGiveText(nodes[1..]);
      match nodes[0] {
        case R(run) =>
          PiecesCellsText(run.fmt, run.pieces);
          CellsTextAppend(PiecesCells(run.fmt, run.pieces), Cells(nodes[1..]));
        case Box(tag, id, kids) =>
          CellsGiveText(kids);
          assert Cells(nodes)[1..] == Cells(nodes[1..]);
      }
    }
  }

  lemma {:induction false} StyledText(s: string, bold: bool, fmt: Option<Format>)
    ensures CellsText(Styled(s, bold, fmt)) == Unmarked(s)
  {
    if s != "" {
      if |s| > 1 && s[0] == '*' && s[1] == '*' {
        StyledText(s[2..], !bold, fmt);
      } else {
        StyledText(s[1..], bold, fmt);
        assert Styled(s, bold, fmt)[1..] == Styled(s[1..], bold, fmt);
      }
    }
  }

  /** What the new runs read: the text without its bold marks. */
  lemma NewRunsText(text: string, fmt: Option<Format>)
    ensures Visible(NewRuns(text, fmt)) == Unmarked(Clean(text))
  {
    hide NewRuns, Clean;
    NewRunsAreStyled(text, fmt);
    CellsGiveText(NewRuns(text, fmt));
    StyledText(Clean(text), false, fmt);
  }

  // ---------------------------------------------------------------- the loops

  lemma ChunksRunsSnoc(chunks: seq<string>, k: nat, bold: bool, fmt: Option<Format>)
    requires k < |chunks|
    ensures ChunksRuns(chunks[..k + 1], bold, fmt) ==
            ChunksRuns(chunks[..k], bold, fmt) + ChunkRuns(chunks[k], Chosen(fmt, if k % 2 == 0 then bold else !bold))
    decreases k
  {
    hide ChunkRuns, Chosen;
    if k == 0 {
      assert chunks[..1][1..] == [] && chunks[..0] == [];
    } else {
      ChunksRunsSnoc(chunks[1..], k - 1, !bold, fmt);
      assert chunks[..k + 1][1..] == chunks[1..][..k] && chunks[..k][1..] == chunks[1..][..k - 1];
    }
  }

  lemma MoreLinesSnoc(lines: seq<string>, k: nat, fmt: Option<Format>)
    requires k < |lines|
    ensures MoreLines(lines[..k + 1], fmt) == MoreLines(lines[..k], fmt) + [BREAK] + LineRuns(lines[k], fmt)
    decreases k
  {
    hide LineRuns;
    if k == 0 {
      assert lines[..1][1..] == [] && lines[..0] == [];
    } else {
      MoreLinesSnoc(lines[1..], k - 1, fmt);
      assert lines[..k + 1][1..] == lines[1..][..k] && lines[..k][1..] == lines[1..][..k - 1];
    }
  }

  method AppendChunk(runs: seq<Node>, chunk: string, fmt: Option<Format>) returns (more: seq<Node>)
    ensures more == runs + ChunkRuns(chunk, fmt)
  {
    hide LineRuns;
    var lines := Lines(chunk);
    more := runs;
    for i := 0 to |lines|
      invariant more == runs + if i == 0 then [] else LineRuns(lines[0], fmt) + MoreLines(lines[1..i], fmt)
    {
      if i > 0 {
        more := more + [BREAK];
        MoreLinesSnoc(lines[1..], i - 1, fmt);
        assert lines[1..][..i - 1] == lines[1..i] && lines[1..][..i] == lines[1..i + 1];
      } else {
        assert lines[1..1] == [];
      }
      more := more + LineRuns(lines[i], fmt);
    }
    assert lines[1..|lines|] == lines[1..];
  }

  /** `_new_runs` as its loops. */
  method MakeRuns(text: string, fmt: Option<Format>) returns (runs: seq<Node>)
    ensures runs == NewRuns(text, fmt)
  {
    hide ChunkRuns, Clean, Chunks;
    var chunks := Chunks(Clean(text));
    runs := [];
    for number := 0 to |chunks|
      invariant runs == ChunksRuns(chunks[..number], false, fmt)
    {
      var bold := number % 2 == 1;
      ChunksRunsSnoc(chunks, number, false, fmt);
      runs := AppendChunk(runs, chunks[number], Chosen(fmt, bold));
    }
    assert chunks[..|chunks|] == chunks;
  }
}
