/** Choosing the runs that hold a phrase, splitting the first and the last of them where the phrase cuts them. */
module DocPhrase {
  import opened Options
  import opened DocText
  import opened DocTree
  import opened DocRuns

  /** A run a replacement can delete: it carries text and is no comment anchor. */
  predicate TextRun(run: Run) {
    RunText(run) != "" && CommentRef !in run.pieces && AnnotationRef !in run.pieces
  }

  predicate Host(tag: Tag) {
    tag in {Hyperlink, SmartTag}
  }

  predicate Plain(run: Run) {
    |run.pieces| == 1 && run.pieces[0].T?
  }

  /** `_text_runs`: runs directly in the paragraph or in a link directly in it. */
  function TextRuns(nodes: seq<Node>, top: bool): seq<Run> {
    if nodes == [] then []
    else (match nodes[0]
          case R(run) => if TextRun(run) then [run] else []
          case Box(tag, _, kids) => if top && Host(tag) then TextRuns(kids, false) else []) + TextRuns(nodes[1..], top)
  }

  function Full(nodes: seq<Node>, top: bool): string {
    if nodes == [] then ""
    else (match nodes[0]
          case R(run) => if TextRun(run) then RunText(run) else ""
          case Box(tag, _, kids) => if top && Host(tag) then Full(kids, false) else "") + Full(nodes[1..], top)
  }

  function Joined(a: Option<seq<Node>>, b: Option<seq<Node>>): Option<seq<Node>> {
    if a.Some? && b.Some? then Some(a.value + b.value) else None
  }

  /** The part of a plain run from `i` to `j`; a run taken whole stays as it is. */
  function Part(run: Run, i: nat, j: nat): Run
    requires i <= j <= |RunText(run)|
  {
    if Plain(run) then
      PlainText(run);
      run.(pieces := [T(run.pieces[0].text[i..j])])
    else run
  }

  lemma PlainText(run: Run)
    requires Plain(run)
    ensures RunText(run) == run.pieces[0].text
  {
    assert run.pieces[1..] == [] && PiecesText([]) == "";
  }

  /** A run whose text meets the phrase, which reaches from `a` to `b` counted from the start of the run. */
  function CutRun(run: Run, a: int, b: int): Option<seq<Node>>
    requires a <= b
  {
    var n := |RunText(run)|;
    if n <= a || b <= 0 then Some([R(run)])
    else if (b < n || a > 0) && !Plain(run) then None
    else
      var i := if a > 0 then a else 0;
      var j := if b < n then b else n;
      Some((if a > 0 then [R(Part(run, 0, i))] else []) + [Box(Picked, None, [R(Part(run, i, j))])]
           + (if b < n then [R(Part(run, j, n))] else []))
  }

  /** `_phrase_runs` past the search, and with all text chosen when the whole text is the phrase. */
  function Cut(nodes: seq<Node>, top: bool, a: int, b: int): Option<seq<Node>>
    requires a <= b
  {
    if nodes == [] then Some([])
    else
      match nodes[0]
      case R(run) =>
        if TextRun(run) then Joined(CutRun(run, a, b), Cut(nodes[1..], top, a - |RunText(run)|, b - |RunText(run)|))
        else Joined(Some([nodes[0]]), Cut(nodes[1..], top, a, b))
      case Box(tag, id, kids) =>
        if top && Host(tag) then
          var inner := Cut(kids, false, a, b);
          var w := |Full(kids, false)|;
          Joined(if inner.Some? then Some([Box(tag, id, inner.value)]) else None, Cut(nodes[1..], top, a - w, b - w))
        else Joined(Some([nodes[0]]), Cut(nodes[1..], top, a, b))
  }

  datatype Choice = Chosen(nodes: seq<Node>) | Missing | Ambiguous | CutsFormatted

  function PhraseRuns(nodes: seq<Node>, find: string): Choice {
    match Locate(Full(nodes, true), find)
    case Absent => Missing
    case Repeated => Ambiguous
    case At(start, phrase) =>
      var cut := Cut(nodes, true, start, start + |phrase|);
      if cut.Some? then Chosen(cut.value) else CutsFormatted
  }

  // ---------------------------------------------------------------- what has been picked

  function Unpick(nodes: seq<Node>): seq<Node> {
    if nodes == [] then []
    else (match nodes[0]
          case R(_) => [nodes[0]]
          case Box(tag, id, kids) => if tag.Picked? then kids else [Box(tag, id, Unpick(kids))]) + Unpick(nodes[1..])
  }

  function PickedText(nodes: seq<Node>): string {
    if nodes == [] then ""
    else (match nodes[0]
          case R(_) => ""
          case Box(tag, _, kids) => if tag.Picked? then Visible(kids) else PickedText(kids)) + PickedText(nodes[1..])
  }

  function Picks(nodes: seq<Node>): nat {
    if nodes == [] then 0
    else (match nodes[0]
          case R(_) => 0
          case Box(tag, _, kids) => if tag.Picked? then 1 else Picks(kids)) + Picks(nodes[1..])
  }

  /** No node is picked yet. */
  predicate Unpicked(nodes: seq<Node>) {
    nodes == [] || (
      && (match nodes[0]
          case R(_) => true
          case Box(tag, _, kids) => !tag.Picked? && Unpicked(kids))
      && Unpicked(nodes[1..]))
  }

  lemma {:induction false} UnpickAppend(a: seq<Node>, b: seq<Node>)
    ensures Unpick(a + b) == Unpick(a) + Unpick(b)
  {
    hide Unpick;
    if a == [] {
      NothingPicked();
      assert a + b == b;
    } else {
      UnpickHead(a);
      UnpickHead(a + b);
      UnpickAppend(a[1..], b);
      assert (a + b)[1..] == a[1..] + b && (a + b)[0] == a[0];
    }
  }

  lemma UnpickHead(nodes: seq<Node>)
    requires nodes != []
    ensures Unpick(nodes) == Unpick([nodes[0]]) + Unpick(nodes[1..])
  {
    assert [nodes[0]][1..] == [] && Unpick([]) == [];
  }

  lemma {:induction false} PicksAppend(a: seq<Node>, b: seq<Node>)
    ensures Picks(a + b) == Picks(a) + Picks(b)
    ensures Unpicked(a + b) <==> Unpicked(a) && Unpicked(b)
  {
    if a == [] {
      assert a + b == b;
    } else {
      PicksAppend(a[1..], b);
      assert (a + b)[1..] == a[1..] + b;
    }
  }

  lemma {:induction false} PickedTextAppend(a: seq<Node>, b: seq<Node>)
    ensures PickedText(a + b) == PickedText(a) + PickedText(b)
  {
    hide PickedText;
    if a == [] {
      assert a + b == b;
      NothingPicked();
    } else {
      var (head, rest) := (PickedText([a[0]]), PickedText(a[1..]));
      PickedTextAppend(a[1..], b);
      PickedTextHead(a);
      PickedTextHead(a + b);
      assert (a + b)[1..] == a[1..] + b;
      assert head + (rest + PickedText(b)) == (head + rest) + PickedText(b);
    }
  }

  lemma NothingPicked()
    ensures PickedText([]) == "" && Unpick([]) == []
  {
  }

  lemma PickedTextHead(nodes: seq<Node>)
    requires nodes != []
    ensures PickedText(nodes) == PickedText([nodes[0]]) + PickedText(nodes[1..])
  {
    hide Visible;
    assert [nodes[0]][1..] == [] && PickedText([]) == "";
  }

  lemma PickAppend(a: seq<Node>, b: seq<Node>)
    ensures Unpick(a + b) == Unpick(a) + Unpick(b)
    ensures PickedText(a + b) == PickedText(a) + PickedText(b)
    ensures Picks(a + b) == Picks(a) + Picks(b)
    ensures Unpicked(a + b) <==> Unpicked(a) && Unpicked(b)
  {
    UnpickAppend(a, b);
    PicksAppend(a, b);
    PickedTextAppend(a, b);
  }

  lemma {:induction false} UnpickedKeeps(nodes: seq<Node>)
    requires Unpicked(nodes)
    ensures Unpick(nodes) == nodes && PickedText(nodes) == "" && Picks(nodes) == 0
  {
    if nodes != [] {
      if nodes[0].Box? {
        UnpickedKeeps(nodes[0].kids);
      }
      UnpickedKeeps(nodes[1..]);
    }
  }

  // ---------------------------------------------------------------- splitting changes no character

  lemma PartCells(run: Run, i: nat, j: nat)
    requires i <= j <= |RunText(run)| && Plain(run)
    ensures PiecesCells(run.fmt, Part(run, i, j).pieces) == Chars(run.fmt, RunText(run)[i..j], false)
  {
    PlainText(run);
    assert Part(run, i, j).pieces[1..] == [];
  }

  lemma PartText(run: Run, i: nat, j: nat)
    requires i <= j <= |RunText(run)| && (Plain(run) || (i == 0 && j == |RunText(run)|))
    ensures RunText(Part(run, i, j)) == RunText(run)[i..j]
  {
    if Plain(run) {
      PlainText(run);
      PlainText(Part(run, i, j));
    }
  }

  lemma CutRunKeeps(run: Run, a: int, b: int)
    requires a <= b && CutRun(run, a, b).Some?
    ensures Cells(Unpick(CutRun(run, a, b).value)) == PiecesCells(run.fmt, run.pieces)
  {
    hide Cells, PiecesCells, Part, RunText;
    var n := |RunText(run)|;
    var nodes := CutRun(run, a, b).value;
    if n <= a || b <= 0 {
      OneRun(true, 0, 0, run);
      UnpickedKeeps(nodes);
    } else {
      var i := if a > 0 then a else 0;
      var j := if b < n then b else n;
      ThreeCells(run, if a > 0 then [R(Part(run, 0, i))] else [], Part(run, i, j), if b < n then [R(Part(run, j, n))] else []);
      if Plain(run) {
        PlainCells(run, i, j);
      } else {
        WholePart(run);
      }
      if a > 0 { OneRun(true, 0, 0, Part(run, 0, i)); }
      if b < n { OneRun(true, 0, 0, Part(run, j, n)); }
      NoNodes(true, 0, 0);
    }
  }

  lemma WholePart(run: Run)
    requires !Plain(run)
    ensures Part(run, 0, |RunText(run)|) == run
  {
  }

  lemma PlainCells(run: Run, i: nat, j: nat)
    requires i <= j <= |RunText(run)| && Plain(run)
    ensures PiecesCells(run.fmt, run.pieces) ==
            (if i > 0 then PiecesCells(run.fmt, Part(run, 0, i).pieces) else [])
            + PiecesCells(run.fmt, Part(run, i, j).pieces)
            + (if j < |RunText(run)| then PiecesCells(run.fmt, Part(run, j, |RunText(run)|).pieces) else [])
    ensures Part(run, 0, i).fmt == Part(run, i, j).fmt == Part(run, j, |RunText(run)|).fmt == run.fmt
  {
    hide PiecesCells, RunText;
    var text := RunText(run);
    PartCells(run, 0, i);
    PartCells(run, i, j);
    PartCells(run, j, |text|);
    PartCells(run, 0, |text|);
    PlainText(run);
    assert text[0..|text|] == text;
    assert Part(run, 0, |text|) == run;
    assert Chars(run.fmt, text, false) ==
           Chars(run.fmt, text[0..i], false) + Chars(run.fmt, text[i..j], false) + Chars(run.fmt, text[j..|text|], false);
  }

  lemma ThreeCells(run: Run, left: seq<Node>, mid: Run, right: seq<Node>)
    requires Unpicked(left) && Unpicked(right)
    ensures Cells(Unpick(left + [Box(Picked, None, [R(mid)])] + right)) ==
            Cells(left) + PiecesCells(mid.fmt, mid.pieces) + Cells(right)
    ensures Picks(left + [Box(Picked, None, [R(mid)])] + right) == 1
    ensures PickedText(left + [Box(Picked, None, [R(mid)])] + right) == RunText(mid)
  {
    hide Cells, PiecesCells;
    var box := [Box(Picked, None, [R(mid)])];
    assert box[1..] == [];
    PickAppend(left + box, right);
    PickAppend(left, box);
    UnpickedKeeps(left);
    UnpickedKeeps(right);
    OneRun(true, 0, 0, mid);
    CellsAppend(left + [R(mid)], right);
    CellsAppend(left, [R(mid)]);
  }

  /** An element the cut passes over. */
  predicate Inert(n: Node, top: bool) {
    match n
    case R(run) => !TextRun(run)
    case Box(tag, _, _) => !(top && Host(tag))
  }

  lemma InertCut(nodes: seq<Node>, top: bool, a: int, b: int)
    requires a <= b && nodes != [] && Inert(nodes[0], top)
    ensures Cut(nodes, top, a, b) == Joined(Some([nodes[0]]), Cut(nodes[1..], top, a, b))
    ensures Full(nodes, top) == Full(nodes[1..], top)
    ensures TextRuns(nodes, top) == TextRuns(nodes[1..], top)
  {
    hide CutRun, TextRun, Host;
  }

  lemma RunCut(nodes: seq<Node>, top: bool, a: int, b: int)
    requires a <= b && nodes != [] && nodes[0].R? && TextRun(nodes[0].run)
    ensures var w := |RunText(nodes[0].run)|;
      Cut(nodes, top, a, b) == Joined(CutRun(nodes[0].run, a, b), Cut(nodes[1..], top, a - w, b - w))
    ensures Full(nodes, top) == RunText(nodes[0].run) + Full(nodes[1..], top)
    ensures TextRuns(nodes, top) == [nodes[0].run] + TextRuns(nodes[1..], top)
  {
    hide CutRun, TextRun, Host, RunText;
  }

  lemma HostCut(nodes: seq<Node>, a: int, b: int)
    requires a <= b && nodes != [] && nodes[0].Box? && Host(nodes[0].tag)
    ensures var (n, w) := (nodes[0], |Full(nodes[0].kids, false)|);
      var inner := Cut(n.kids, false, a, b);
      Cut(nodes, true, a, b) ==
      Joined(if inner.Some? then Some([Box(n.tag, n.id, inner.value)]) else None, Cut(nodes[1..], true, a - w, b - w))
    ensures Full(nodes, true) == Full(nodes[0].kids, false) + Full(nodes[1..], true)
    ensures TextRuns(nodes, true) == TextRuns(nodes[0].kids, false) + TextRuns(nodes[1..], true)
  {
    hide CutRun, TextRun, Host, RunText;
  }

  lemma HostPicks(tag: Tag, id: Option<nat>, kids: seq<Node>)
    requires Host(tag)
    ensures Unpick([Box(tag, id, kids)]) == [Box(tag, id, Unpick(kids))]
    ensures Cells(Unpick([Box(tag, id, kids)])) == [Nest(tag, id, Cells(Unpick(kids)))]
    ensures PickedText([Box(tag, id, kids)]) == PickedText(kids)
    ensures Picks([Box(tag, id, kids)]) == Picks(kids)
  {
    hide Cells, Visible;
    assert [Box(tag, id, kids)][1..] == [];
    OneBox(true, 0, 0, Box(tag, id, Unpick(kids)));
    assert Unpick([]) == [] && PickedText([]) == "" && Picks([]) == 0;
  }

  /** Text and formatting of every character stay, wherever the phrase lies. */
  lemma {:induction false} CutKeepsCells(nodes: seq<Node>, top: bool, a: int, b: int)
    requires a <= b && Unpicked(nodes) && Cut(nodes, top, a, b).Some?
    ensures Cells(Unpick(Cut(nodes, top, a, b).value)) == Cells(nodes)
  {
    hide CutRun, PiecesCells, RunText, Cut, Cells, Unpick, Picks, Full, TextRuns, TextRun, Host;
    if nodes == [] {
      EmptyCut(top, a, b);
    } else {
      var (head, rest) := ([nodes[0]], nodes[1..]);
      assert head + rest == nodes;
      CellsAppend(head, rest);
      if Inert(nodes[0], top) {
        InertCut(nodes, top, a, b);
        CutKeepsCells(rest, top, a, b);
        Rejoin(head, Cut(rest, top, a, b).value);
        PicksAppend(head, rest);
        UnpickedKeeps(head);
      } else if nodes[0].R? {
        var w := |RunText(nodes[0].run)|;
        RunCut(nodes, top, a, b);
        CutKeepsCells(rest, top, a - w, b - w);
        CutRunKeeps(nodes[0].run, a, b);
        OneRun(true, 0, 0, nodes[0].run);
        Rejoin(CutRun(nodes[0].run, a, b).value, Cut(rest, top, a - w, b - w).value);
      } else {
        var (n, w) := (nodes[0], |Full(nodes[0].kids, false)|);
        HostCut(nodes, a, b);
        CutKeepsCells(n.kids, false, a, b);
        CutKeepsCells(rest, top, a - w, b - w);
        HostPicks(n.tag, n.id, Cut(n.kids, false, a, b).value);
        OneBox(true, 0, 0, n);
        Rejoin([Box(n.tag, n.id, Cut(n.kids, false, a, b).value)], Cut(rest, top, a - w, b - w).value);
      }
    }
  }

  lemma EmptyCut(top: bool, a: int, b: int)
    requires a <= b
    ensures Cut([], top, a, b) == Some([]) && Unpick([]) == [] && Cells([]) == [] && PickedText([]) == "" && Picks([]) == 0
    ensures Full([], top) == "" && TextRuns([], top) == []
  {
  }

  lemma Rejoin(a: seq<Node>, b: seq<Node>)
    ensures Cells(Unpick(a + b)) == Cells(Unpick(a)) + Cells(Unpick(b))
  {
    PickAppend(a, b);
    CellsAppend(Unpick(a), Unpick(b));
  }
}
