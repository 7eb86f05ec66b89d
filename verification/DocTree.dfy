/** Paragraph content as the editor sees it, and what accepting or rejecting revisions makes of it. */
module DocTree {
  import opened Options

  /** Run properties: the character style, bold, revision marks and everything else. */
  datatype Format = Format(style: string, bold: bool, tracked: seq<string>, rest: string)

  datatype Piece = T(text: string) | DelT(text: string) | Tab | Br | Cr | Hyphen | CommentRef | AnnotationRef | Obj(name: string)
  datatype Run = Run(fmt: Option<Format>, pieces: seq<Piece>)

  /** `Picked` stands for the editor's own list of chosen runs; no document holds it. */
  datatype Tag = Hyperlink | SmartTag | InsTag | DelTag | MoveFrom | MoveTo | TextBox | Picked | Other(name: string)
  datatype Node = R(run: Run) | Box(tag: Tag, id: Option<nat>, kids: seq<Node>)

  const COMPLEX := {"fldChar", "fldSimple", "instrText", "drawing", "pict", "object", "footnoteReference", "endnoteReference"}

  // ---------------------------------------------------------------- text

  function PieceText(p: Piece): string {
    match p
    case T(text) => text
    case Tab => "\t"
    case Br => "\n"
    case Cr => "\n"
    case Hyphen => "-"
    case _ => ""
  }

  function PiecesText(pieces: seq<Piece>): string {
    if pieces == [] then "" else PieceText(pieces[0]) + PiecesText(pieces[1..])
  }

  function RunText(run: Run): string {
    PiecesText(run.pieces)
  }

  predicate Hidden(tag: Tag) {
    tag in {DelTag, MoveFrom, TextBox, Picked}
  }

  /** `_text`: the text of every run that is not deleted, moved away or in a text box. */
  function Visible(nodes: seq<Node>): string {
    if nodes == [] then ""
    else (match nodes[0]
          case R(run) => RunText(run)
          case Box(tag, _, kids) => if Hidden(tag) then "" else Visible(kids)) + Visible(nodes[1..])
  }

  // ---------------------------------------------------------------- every character with its formatting and place

  datatype Atom = Char(c: char) | Deleted(c: char) | Thing(piece: Piece)
  datatype Cell = Glyph(fmt: Option<Format>, atom: Atom) | Nest(tag: Tag, id: Option<nat>, cells: seq<Cell>)

  function Chars(fmt: Option<Format>, text: string, deleted: bool): seq<Cell> {
    seq(|text|, i requires 0 <= i < |text| => Glyph(fmt, if deleted then Deleted(text[i]) else Char(text[i])))
  }

  function PieceCells(fmt: Option<Format>, p: Piece): seq<Cell> {
    match p
    case T(text) => Chars(fmt, text, false)
    case DelT(text) => Chars(fmt, text, true)
    case _ => [Glyph(fmt, Thing(p))]
  }

  function PiecesCells(fmt: Option<Format>, pieces: seq<Piece>): seq<Cell> {
    if pieces == [] then [] else PieceCells(fmt, pieces[0]) + PiecesCells(fmt, pieces[1..])
  }

  /** The paragraph without its run boundaries. */
  function Cells(nodes: seq<Node>): seq<Cell> {
    if nodes == [] then []
    else (match nodes[0]
          case R(run) => PiecesCells(run.fmt, run.pieces)
          case Box(tag, id, kids) => [Nest(tag, id, Cells(kids))]) + Cells(nodes[1..])
  }

  // ---------------------------------------------------------------- revisions

  predicate Minted(id: Option<nat>, lo: nat, hi: nat) {
    id.Some? && lo <= id.value < hi
  }

  function UndeletedPieces(pieces: seq<Piece>): seq<Piece> {
    if pieces == [] then []
    else [if pieces[0].DelT? then T(pieces[0].text) else pieces[0]] + UndeletedPieces(pieces[1..])
  }

  function Undeleted(nodes: seq<Node>): seq<Node> {
    if nodes == [] then []
    else (match nodes[0]
          case R(run) => [R(run.(pieces := UndeletedPieces(run.pieces)))]
          case Box(tag, id, kids) => [Box(tag, id, Undeleted(kids))]) + Undeleted(nodes[1..])
  }

  /** One element once its content is settled: the revisions whose id lies in the range go one way or the other. */
  function Settled(accept: bool, lo: nat, hi: nat, tag: Tag, id: Option<nat>, inner: seq<Node>): seq<Node> {
    if tag.InsTag? && Minted(id, lo, hi) then (if accept then inner else [])
    else if tag.DelTag? && Minted(id, lo, hi) then (if accept then [] else Undeleted(inner))
    else [Box(tag, id, inner)]
  }

  /** Accept or reject exactly the insertions and deletions whose id lies in a range. */
  function Settle(accept: bool, lo: nat, hi: nat, nodes: seq<Node>): seq<Node> {
    if nodes == [] then []
    else (match nodes[0]
          case R(_) => [nodes[0]]
          case Box(tag, id, kids) => Settled(accept, lo, hi, tag, id, Settle(accept, lo, hi, kids)))
         + Settle(accept, lo, hi, nodes[1..])
  }

  /** No revision has an id in the range. */
  predicate Unminted(lo: nat, hi: nat, nodes: seq<Node>) {
    nodes == [] || (
      && (match nodes[0]
          case R(_) => true
          case Box(tag, id, kids) => !((tag.InsTag? || tag.DelTag?) && Minted(id, lo, hi)) && Unminted(lo, hi, kids))
      && Unminted(lo, hi, nodes[1..]))
  }

  predicate Revision(tag: Tag) {
    tag in {InsTag, DelTag, MoveFrom, MoveTo}
  }

  predicate RevisedFormat(run: Run) {
    run.fmt.Some? && exists m <- run.fmt.value.tracked :: m in {"ins", "del", "moveFrom", "moveTo"}
  }

  /** `_tracked`, for the content of a paragraph. */
  predicate Tracked(nodes: seq<Node>) {
    nodes != [] && (
      || (match nodes[0]
          case R(run) => RevisedFormat(run)
          case Box(tag, _, kids) => Revision(tag) || Tracked(kids))
      || Tracked(nodes[1..]))
  }

  predicate Complex(nodes: seq<Node>) {
    nodes != [] && (
      || (match nodes[0]
          case R(run) => exists p <- run.pieces :: p.Obj? && p.name in COMPLEX
          case Box(tag, _, kids) => tag.TextBox? || (tag.Other? && tag.name in COMPLEX) || Complex(kids))
      || Complex(nodes[1..]))
  }

  /** Deleted text stands only inside deletions. */
  predicate WellFormed(nodes: seq<Node>) {
    nodes == [] || (
      && (match nodes[0]
          case R(run) => forall p <- run.pieces :: !p.DelT?
          case Box(tag, _, kids) => tag.DelTag? || WellFormed(kids))
      && WellFormed(nodes[1..]))
  }

  // ---------------------------------------------------------------- lemmas about concatenation

  lemma PiecesHead(fmt: Option<Format>, pieces: seq<Piece>)
    requires pieces != []
    ensures PiecesText(pieces) == PieceText(pieces[0]) + PiecesText(pieces[1..])
    ensures PiecesCells(fmt, pieces) == PieceCells(fmt, pieces[0]) + PiecesCells(fmt, pieces[1..])
  {
    hide PieceText, PieceCells;
  }

  lemma {:induction false} PiecesAppend(fmt: Option<Format>, a: seq<Piece>, b: seq<Piece>)
    ensures PiecesText(a + b) == PiecesText(a) + PiecesText(b)
    ensures PiecesCells(fmt, a + b) == PiecesCells(fmt, a) + PiecesCells(fmt, b)
  {
    hide PiecesText, PiecesCells, PieceText, PieceCells;
    if a == [] {
      NoPieces(fmt);
      assert a + b == b;
    } else {
      PiecesHead(fmt, a);
      PiecesHead(fmt, a + b);
      PiecesAppend(fmt, a[1..], b);
      assert (a + b)[1..] == a[1..] + b && (a + b)[0] == a[0];
    }
  }

  lemma NoPieces(fmt: Option<Format>)
    ensures PiecesText([]) == "" && PiecesCells(fmt, []) == []
  {
  }

  lemma CellsHead(nodes: seq<Node>)
    requires nodes != []
    ensures Cells(nodes) == Cells([nodes[0]]) + Cells(nodes[1..])
  {
    hide PiecesCells;
    assert [nodes[0]][1..] == [] && Cells([]) == [];
  }

  lemma VisibleHead(nodes: seq<Node>)
    requires nodes != []
    ensures Visible(nodes) == Visible([nodes[0]]) + Visible(nodes[1..])
  {
    hide PiecesText, Hidden;
    assert [nodes[0]][1..] == [] && Visible([]) == "";
  }

  lemma SettleHead(accept: bool, lo: nat, hi: nat, nodes: seq<Node>)
    requires nodes != []
    ensures Settle(accept, lo, hi, nodes) == Settle(accept, lo, hi, [nodes[0]]) + Settle(accept, lo, hi, nodes[1..])
  {
    hide Settled;
    assert [nodes[0]][1..] == [] && Settle(accept, lo, hi, []) == [];
  }

  lemma {:induction false} CellsAppend(a: seq<Node>, b: seq<Node>)
    ensures Cells(a + b) == Cells(a) + Cells(b)
  {
    hide Cells, Visible, Settle;
    if a == [] {
      NoNodes(false, 0, 0);
      assert a + b == b;
    } else {
      CellsHead(a);
      CellsHead(a + b);
      CellsAppend(a[1..], b);
      assert (a + b)[1..] == a[1..] + b && (a + b)[0] == a[0];
    }
  }

  lemma {:induction false} VisibleAppend(a: seq<Node>, b: seq<Node>)
    ensures Visible(a + b) == Visible(a) + Visible(b)
  {
    hide Cells, Visible, Settle;
    if a == [] {
      NoNodes(false, 0, 0);
      assert a + b == b;
    } else {
      VisibleHead(a);
      VisibleHead(a + b);
      VisibleAppend(a[1..], b);
      assert (a + b)[1..] == a[1..] + b && (a + b)[0] == a[0];
    }
  }

  lemma {:induction false} SettleAppend(accept: bool, lo: nat, hi: nat, a: seq<Node>, b: seq<Node>)
    ensures Settle(accept, lo, hi, a + b) == Settle(accept, lo, hi, a) + Settle(accept, lo, hi, b)
  {
    hide Cells, Visible, Settle;
    if a == [] {
      NoNodes(accept, lo, hi);
      assert a + b == b;
    } else {
      SettleHead(accept, lo, hi, a);
      SettleHead(accept, lo, hi, a + b);
      SettleAppend(accept, lo, hi, a[1..], b);
      assert (a + b)[1..] == a[1..] + b && (a + b)[0] == a[0];
    }
  }

  lemma {:induction false} UnmintedAppend(lo: nat, hi: nat, a: seq<Node>, b: seq<Node>)
    ensures Unminted(lo, hi, a + b) <==> Unminted(lo, hi, a) && Unminted(lo, hi, b)
  {
    if a == [] {
      assert a + b == b;
    } else {
      UnmintedAppend(lo, hi, a[1..], b);
      assert (a + b)[1..] == a[1..] + b;
    }
  }

  lemma {:induction false} SettleUnminted(accept: bool, lo: nat, hi: nat, nodes: seq<Node>)
    requires Unminted(lo, hi, nodes)
    ensures Settle(accept, lo, hi, nodes) == nodes
  {
    if nodes != [] {
      if nodes[0].Box? {
        SettleUnminted(accept, lo, hi, nodes[0].kids);
      }
      SettleUnminted(accept, lo, hi, nodes[1..]);
    }
  }

  lemma {:induction false} UntrackedIsUnminted(lo: nat, hi: nat, nodes: seq<Node>)
    requires !Tracked(nodes)
    ensures Unminted(lo, hi, nodes)
  {
    if nodes != [] {
      if nodes[0].Box? {
        UntrackedIsUnminted(lo, hi, nodes[0].kids);
      }
      UntrackedIsUnminted(lo, hi, nodes[1..]);
    }
  }

  /** What a reader sees is what accepting the revisions would leave: insertions shown, deletions hidden. */
  lemma OneBox(accept: bool, lo: nat, hi: nat, n: Node)
    requires n.Box?
    ensures Settle(accept, lo, hi, [n]) == Settled(accept, lo, hi, n.tag, n.id, Settle(accept, lo, hi, n.kids))
    ensures Visible([n]) == if Hidden(n.tag) then "" else Visible(n.kids)
    ensures Cells([n]) == [Nest(n.tag, n.id, Cells(n.kids))]
  {
    hide Settled;
    assert [n][1..] == [];
    assert Settle(accept, lo, hi, []) == [] && Visible([]) == "" && Cells([]) == [];
  }

  lemma OneRun(accept: bool, lo: nat, hi: nat, run: Run)
    ensures Settle(accept, lo, hi, [R(run)]) == [R(run)]
    ensures Visible([R(run)]) == RunText(run)
    ensures Cells([R(run)]) == PiecesCells(run.fmt, run.pieces)
  {
    hide Settled, PiecesText, PiecesCells;
    assert [R(run)][1..] == [];
    assert Settle(accept, lo, hi, []) == [] && Visible([]) == "" && Cells([]) == [];
  }

  /** What a reader sees is what accepting the revisions would leave: insertions shown, deletions hidden. */
  lemma {:induction false} VisibleIsAccepted(lo: nat, hi: nat, nodes: seq<Node>)
    ensures Visible(Settle(true, lo, hi, nodes)) == Visible(nodes)
  {
    hide Settle, Visible;
    if nodes == [] {
      NoNodes(true, lo, hi);
    } else {
      var (head, rest) := ([nodes[0]], nodes[1..]);
      assert head + rest == nodes;
      SettleAppend(true, lo, hi, head, rest);
      VisibleAppend(head, rest);
      VisibleAppend(Settle(true, lo, hi, head), Settle(true, lo, hi, rest));
      VisibleIsAccepted(lo, hi, rest);
      if nodes[0].Box? {
        var (tag, id, inner) := (nodes[0].tag, nodes[0].id, Settle(true, lo, hi, nodes[0].kids));
        VisibleIsAccepted(lo, hi, nodes[0].kids);
        OneBox(true, lo, hi, nodes[0]);
        OneBox(true, lo, hi, Box(tag, id, inner));
        NoNodes(true, lo, hi);
      } else {
        OneRun(true, lo, hi, nodes[0].run);
      }
    }
  }

  lemma NoNodes(accept: bool, lo: nat, hi: nat)
    ensures Settle(accept, lo, hi, []) == [] && Visible([]) == "" && Cells([]) == []
  {
  }
}
