/** Replacing a phrase of a paragraph and appending to it, as tracked revisions. */
module DocParagraph {
  import opened Options
  import opened DocText
  import opened DocTree
  import opened DocRuns
  import opened DocPhrase
  import opened DocPhraseSpec

  // ---------------------------------------------------------------- the look of new text

  predicate HasText(run: Run) {
    exists p <- run.pieces :: p.T?
  }

  /** The first visible run with text decides, unless it is a link or a comment anchor. */
  function TemplateSearch(nodes: seq<Node>): Option<Option<Format>> {
    if nodes == [] then None
    else
      var head :=
        match nodes[0]
        case R(run) =>
          if !HasText(run) || (run.fmt.Some? && run.fmt.value.style in {"CommentReference", "Hyperlink"}) then None
          else if run.fmt.None? then Some(None)
          else Some(Some(run.fmt.value.(tracked := [])))
        case Box(tag, _, kids) => if Hidden(tag) then None else TemplateSearch(kids);
      if head.Some? then head else TemplateSearch(nodes[1..])
  }

  /** `_template_rpr`. */
  function Template(nodes: seq<Node>): Option<Format> {
    if TemplateSearch(nodes).Some? then TemplateSearch(nodes).value else None
  }

  // ---------------------------------------------------------------- replace and append

  datatype Reason = AlreadyTracked | HoldsFields | NothingToReplace | PhraseMissing | PhraseAmbiguous | PhraseCutsFormatting
                  | NothingToInsert | BadEdit
  datatype Outcome = Done(nodes: seq<Node>, next: nat) | Refused(why: Reason)

  function StruckPieces(pieces: seq<Piece>): seq<Piece> {
    if pieces == [] then []
    else [if pieces[0].T? then DelT(pieces[0].text) else pieces[0]] + StruckPieces(pieces[1..])
  }

  function StruckRuns(nodes: seq<Node>): seq<Node> {
    if nodes == [] then []
    else [if nodes[0].R? then R(nodes[0].run.(pieces := StruckPieces(nodes[0].run.pieces))) else nodes[0]] + StruckRuns(nodes[1..])
  }

  /** Wrap every chosen run in a deletion of its own, numbered in document order. */
  function Strike(nodes: seq<Node>, next: nat): seq<Node> {
    if nodes == [] then []
    else
      match nodes[0]
      case R(_) => [nodes[0]] + Strike(nodes[1..], next)
      case Box(tag, id, kids) =>
        if tag.Picked? then [Box(DelTag, Some(next), StruckRuns(kids))] + Strike(nodes[1..], next + 1)
        else [Box(tag, id, Strike(kids, next))] + Strike(nodes[1..], next + Picks(kids))
  }

  /** Past the element of the paragraph that holds the last chosen run. */
  function AfterLast(nodes: seq<Node>): (m: nat)
    ensures m <= |nodes|
    ensures Picks(nodes[m..]) == 0
    ensures Picks(nodes) == 0 ==> m == 0
  {
    if Picks(nodes) == 0 then
      assert nodes[0..] == nodes;
      0
    else if Picks(nodes[1..]) == 0 then 1
    else
      var m := AfterLast(nodes[1..]);
      assert nodes[1..][m..] == nodes[m + 1..];
      m + 1
  }

  function Choose(nodes: seq<Node>, find: string): Choice {
    if find != "" then PhraseRuns(nodes, find)
    else
      var all := Cut(nodes, true, 0, |Full(nodes, true)|);
      if all.Some? then Chosen(all.value) else CutsFormatted
  }

  function Inserted(id: nat, text: string, fmt: Option<Format>): Node {
    Box(InsTag, Some(id), NewRuns(text, fmt))
  }

  function Rewritten(chosen: seq<Node>, text: string, next: nat): seq<Node> {
    var m := AfterLast(chosen);
    Strike(chosen[..m], next) + [Inserted(next + Picks(chosen), text, Template(Unpick(chosen)))] + chosen[m..]
  }

  /** `_replace`; `marked` says that the paragraph mark itself carries a revision. */
  function Replace(marked: bool, nodes: seq<Node>, find: string, text: string, next: nat): Outcome {
    if marked || Tracked(nodes) then Refused(AlreadyTracked)
    else if Complex(nodes) then Refused(HoldsFields)
    else
      match Choose(nodes, find)
      case Missing => Refused(PhraseMissing)
      case Ambiguous => Refused(PhraseAmbiguous)
      case CutsFormatted => Refused(PhraseCutsFormatting)
      case Chosen(chosen) =>
        if Picks(chosen) == 0 then Refused(NothingToReplace)
        else Done(Rewritten(chosen, text, next), next + Picks(chosen) + 1)
  }

  function Prefix(existing: string, text: string): string {
    if existing != "" && !Space(existing[|existing| - 1]) && !(text != "" && Space(text[0])) then " " else ""
  }

  /** `_append`. */
  function Append(nodes: seq<Node>, text: string, next: nat): seq<Node> {
    nodes + [Inserted(next, Prefix(Visible(nodes), text) + text, Template(nodes))]
  }

  // ---------------------------------------------------------------- rejecting

  /** Every chosen element holds runs without deleted text. */
  predicate PickedClean(nodes: seq<Node>) {
    nodes == [] || (
      && (match nodes[0]
          case R(_) => true
          case Box(tag, _, kids) =>
            if tag.Picked? then forall n <- kids :: n.R? && forall p <- n.run.pieces :: !p.DelT? else PickedClean(kids))
      && PickedClean(nodes[1..]))
  }

  lemma {:induction false} PiecesBack(pieces: seq<Piece>)
    requires forall p <- pieces :: !p.DelT?
    ensures UndeletedPieces(StruckPieces(pieces)) == pieces
  {
    if pieces != [] {
      PiecesBack(pieces[1..]);
      assert StruckPieces(pieces)[1..] == StruckPieces(pieces[1..]);
    }
  }

  lemma {:induction false} StruckBack(kids: seq<Node>, accept: bool, lo: nat, hi: nat)
    requires forall n <- kids :: n.R? && forall p <- n.run.pieces :: !p.DelT?
    ensures Undeleted(StruckRuns(kids)) == kids && Settle(accept, lo, hi, StruckRuns(kids)) == StruckRuns(kids)
  {
    if kids != [] {
      StruckBack(kids[1..], accept, lo, hi);
      PiecesBack(kids[0].run.pieces);
      assert StruckRuns(kids)[1..] == StruckRuns(kids[1..]);
    }
  }

  lemma {:induction false} NoPicks(nodes: seq<Node>)
    requires Picks(nodes) == 0
    ensures Unpicked(nodes)
  {
    if nodes != [] {
      if nodes[0].Box? {
        NoPicks(nodes[0].kids);
      }
      NoPicks(nodes[1..]);
    }
  }

  lemma StrikeHead(nodes: seq<Node>, next: nat)
    requires nodes != []
    ensures Strike(nodes, next) == Strike([nodes[0]], next) + Strike(nodes[1..], next + Picks([nodes[0]]))
    ensures Picks(nodes) == Picks([nodes[0]]) + Picks(nodes[1..]) && Unpick(nodes) == Unpick([nodes[0]]) + Unpick(nodes[1..])
    ensures PickedClean(nodes) <==> PickedClean([nodes[0]]) && PickedClean(nodes[1..])
    ensures Visible(nodes) == Visible([nodes[0]]) + Visible(nodes[1..])
  {
    hide Strike, PickedClean, Picks, Unpick, Visible;
    PicksAppend([nodes[0]], nodes[1..]);
    UnpickAppend([nodes[0]], nodes[1..]);
    VisibleAppend([nodes[0]], nodes[1..]);
    assert [nodes[0]] + nodes[1..] == nodes;
    StrikeOne(nodes, next);
    CleanOne(nodes);
  }

  lemma StrikeOne(nodes: seq<Node>, next: nat)
    requires nodes != []
    ensures Strike(nodes, next) == Strike([nodes[0]], next) + Strike(nodes[1..], next + Picks([nodes[0]]))
  {
    hide StruckRuns;
    var n := nodes[0];
    assert [n][1..] == [];
    NothingLeft(next);
    if n.Box? {
      NothingLeft(if n.tag.Picked? then next + 1 else next + Picks(n.kids));
    }
  }

  lemma NothingLeft(next: nat)
    ensures Strike([], next) == [] && Picks([]) == 0
  {
  }

  lemma CleanOne(nodes: seq<Node>)
    requires nodes != []
    ensures PickedClean(nodes) <==> PickedClean([nodes[0]]) && PickedClean(nodes[1..])
  {
    assert [nodes[0]][1..] == [] && PickedClean([]);
  }

  /** Rejecting the new deletions gives the chosen runs back in place. */
  lemma {:induction false} StrikeRejected(nodes: seq<Node>, next: nat, lo: nat, hi: nat)
    requires Unminted(lo, hi, nodes) && PickedClean(nodes) && lo <= next && next + Picks(nodes) <= hi
    ensures Settle(false, lo, hi, Strike(nodes, next)) == Unpick(nodes)
    decreases nodes, 1
  {
    hide Strike, Unpick, PickedClean, Picks, Settle, Visible, Unminted, Settled, Cells;
    if nodes != [] {
      var (head, rest) := ([nodes[0]], nodes[1..]);
      assert head + rest == nodes;
      StrikeHead(nodes, next);
      UnmintedAppend(lo, hi, head, rest);
      StrikeRejected(rest, next + Picks(head), lo, hi);
      SettleAppend(false, lo, hi, Strike(head, next), Strike(rest, next + Picks(head)));
      if nodes[0].R? {
        OneRunStruck(nodes[0].run, next, lo, hi);
      } else if nodes[0].tag.Picked? {
        PickedRejected(nodes[0], next, lo, hi);
      } else {
        BoxRejected(nodes[0], next, lo, hi);
      }
    } else {
      NothingStruck(next, lo, hi);
    }
  }

  lemma NothingStruck(next: nat, lo: nat, hi: nat)
    ensures Settle(false, lo, hi, Strike([], next)) == Unpick([])
  {
  }

  lemma BoxRejected(n: Node, next: nat, lo: nat, hi: nat)
    requires n.Box? && !n.tag.Picked? && Unminted(lo, hi, [n]) && PickedClean([n]) && lo <= next && next + Picks([n]) <= hi
    ensures Settle(false, lo, hi, Strike([n], next)) == Unpick([n])
    decreases n, 2
  {
    hide Strike, Unpick, PickedClean, Picks, Settle, Visible, Unminted, Cells;
    OneBoxStruck(n, next, lo, hi);
    StrikeRejected(n.kids, next, lo, hi);
    OneBox(false, lo, hi, Box(n.tag, n.id, Strike(n.kids, next)));
  }

  lemma OneRunStruck(run: Run, next: nat, lo: nat, hi: nat)
    ensures Settle(false, lo, hi, Strike([R(run)], next)) == Unpick([R(run)])
  {
    OneRun(false, lo, hi, run);
    assert [R(run)][1..] == [];
    assert Strike([], next) == [] && Unpick([]) == [];
  }

  lemma OneBoxStruck(n: Node, next: nat, lo: nat, hi: nat)
    requires n.Box? && !n.tag.Picked?
    ensures Strike([n], next) == [Box(n.tag, n.id, Strike(n.kids, next))]
    ensures Unpick([n]) == [Box(n.tag, n.id, Unpick(n.kids))] && Picks([n]) == Picks(n.kids)
    ensures PickedClean([n]) <==> PickedClean(n.kids)
    ensures Unminted(lo, hi, [n]) ==> Unminted(lo, hi, n.kids) && !((n.tag.InsTag? || n.tag.DelTag?) && Minted(n.id, lo, hi))
  {
    assert [n][1..] == [];
    assert Strike([], next + Picks(n.kids)) == [] && Unpick([]) == [] && PickedClean([]);
  }

  lemma PickedStruck(n: Node, next: nat)
    requires n.Box? && n.tag.Picked?
    ensures Strike([n], next) == [Box(DelTag, Some(next), StruckRuns(n.kids))]
    ensures Unpick([n]) == n.kids && Picks([n]) == 1
    ensures PickedClean([n]) ==> forall k <- n.kids :: k.R? && forall p <- k.run.pieces :: !p.DelT?
  {
    hide StruckRuns;
    assert [n][1..] == [];
    assert Strike([], next + 1) == [] && Unpick([]) == [] && Picks([]) == 0;
  }

  lemma PickedRejected(n: Node, next: nat, lo: nat, hi: nat)
    requires n.Box? && n.tag.Picked? && PickedClean([n]) && lo <= next && next + Picks([n]) <= hi
    ensures Settle(false, lo, hi, Strike([n], next)) == Unpick([n])
  {
    hide Settle, Strike, Unpick, PickedClean, Picks, StruckRuns, Undeleted, Visible, Cells;
    PickedStruck(n, next);
    StruckBack(n.kids, false, lo, hi);
    OneBox(false, lo, hi, Box(DelTag, Some(next), StruckRuns(n.kids)));
  }

  // ---------------------------------------------------------------- the cut of a clean paragraph

  lemma CutRunClean(run: Run, a: int, b: int, lo: nat, hi: nat)
    requires a <= b && CutRun(run, a, b).Some? && forall p <- run.pieces :: !p.DelT?
    ensures PickedClean(CutRun(run, a, b).value) && Unminted(lo, hi, CutRun(run, a, b).value)
  {
    hide RunText;
    var c := CutRun(run, a, b).value;
    forall n | n in c ensures n.R? || (n.tag.Picked? && forall k <- n.kids :: k.R? && forall p <- k.run.pieces :: !p.DelT?) {
    }
    FlatClean(c, lo, hi);
  }

  lemma {:induction false} FlatClean(c: seq<Node>, lo: nat, hi: nat)
    requires forall n <- c :: n.R? || (n.tag.Picked? && forall k <- n.kids :: k.R? && forall p <- k.run.pieces :: !p.DelT?)
    ensures PickedClean(c) && Unminted(lo, hi, c)
  {
    if c != [] {
      FlatClean(c[1..], lo, hi);
      if c[0].Box? {
        RunsUnminted(c[0].kids, lo, hi);
      }
    }
  }

  lemma {:induction false} RunsUnminted(kids: seq<Node>, lo: nat, hi: nat)
    requires forall k <- kids :: k.R?
    ensures Unminted(lo, hi, kids)
  {
    if kids != [] {
      RunsUnminted(kids[1..], lo, hi);
    }
  }

  lemma {:induction false} CleanAppend(a: seq<Node>, b: seq<Node>)
    ensures PickedClean(a + b) <==> PickedClean(a) && PickedClean(b)
  {
    if a == [] {
      assert a + b == b;
    } else {
      CleanAppend(a[1..], b);
      assert (a + b)[1..] == a[1..] + b;
    }
  }

  lemma {:induction false} CutClean(nodes: seq<Node>, top: bool, a: int, b: int, lo: nat, hi: nat)
    requires a <= b && Cut(nodes, top, a, b).Some? && WellFormed(nodes) && Unminted(lo, hi, nodes) && Unpicked(nodes)
    ensures PickedClean(Cut(nodes, top, a, b).value) && Unminted(lo, hi, Cut(nodes, top, a, b).value)
    decreases nodes, 1
  {
    hide CutRun, RunText, Cut, PickedClean, Picks, Full, TextRuns, TextRun, Host, Unminted;
    if nodes == [] {
      EmptyCut(top, a, b);
      NothingClean(lo, hi);
    } else {
      var (head, rest) := ([nodes[0]], nodes[1..]);
      assert head + rest == nodes;
      UnmintedAppend(lo, hi, head, rest);
      if Inert(nodes[0], top) {
        InertCut(nodes, top, a, b);
        CutClean(rest, top, a, b, lo, hi);
        PicksAppend(head, rest);
        UnpickedClean(head);
        CleanAppend(head, Cut(rest, top, a, b).value);
        UnmintedAppend(lo, hi, head, Cut(rest, top, a, b).value);
      } else if nodes[0].R? {
        var run := nodes[0].run;
        var w := |RunText(run)|;
        RunCut(nodes, top, a, b);
        CutClean(rest, top, a - w, b - w, lo, hi);
        CutRunClean(run, a, b, lo, hi);
        CleanAppend(CutRun(run, a, b).value, Cut(rest, top, a - w, b - w).value);
        UnmintedAppend(lo, hi, CutRun(run, a, b).value, Cut(rest, top, a - w, b - w).value);
      } else {
        CutCleanHost(nodes, a, b, lo, hi);
      }
    }
  }

  lemma CutCleanHost(nodes: seq<Node>, a: int, b: int, lo: nat, hi: nat)
    requires nodes != [] && nodes[0].Box? && Host(nodes[0].tag)
    requires a <= b && Cut(nodes, true, a, b).Some? && WellFormed(nodes) && Unpicked(nodes)
    requires Unminted(lo, hi, nodes)
    ensures PickedClean(Cut(nodes, true, a, b).value) && Unminted(lo, hi, Cut(nodes, true, a, b).value)
    decreases nodes, 0
  {
    hide CutRun, RunText, Cut, Picks, Full, TextRuns, TextRun;
    var (n, w, rest) := (nodes[0], |Full(nodes[0].kids, false)|, nodes[1..]);
    HostCut(nodes, a, b);
    CutClean(n.kids, false, a, b, lo, hi);
    CutClean(rest, true, a - w, b - w, lo, hi);
    var box := Box(n.tag, n.id, Cut(n.kids, false, a, b).value);
    assert [box][1..] == [] && PickedClean([]) && Unminted(lo, hi, []);
    CleanAppend([box], Cut(rest, true, a - w, b - w).value);
    UnmintedAppend(lo, hi, [box], Cut(rest, true, a - w, b - w).value);
  }

  lemma NothingClean(lo: nat, hi: nat)
    ensures PickedClean([]) && Unminted(lo, hi, [])
  {
  }

  lemma {:induction false} UnpickedClean(nodes: seq<Node>)
    requires Unpicked(nodes)
    ensures PickedClean(nodes)
  {
    if nodes != [] {
      if nodes[0].Box? {
        UnpickedClean(nodes[0].kids);
      }
      UnpickedClean(nodes[1..]);
    }
  }
}
