/** What a replacement and an addition leave once their revisions are rejected or accepted. */
module DocReplace {
  import opened Options
  import opened DocText
  import opened DocTree
  import opened DocRuns
  import opened DocPhrase
  import opened DocPhraseSpec
  import opened DocParagraph

  // ---------------------------------------------------------------- the chosen runs

  lemma ChooseCuts(nodes: seq<Node>, find: string)
    requires Choose(nodes, find).Chosen?
    ensures exists a: int, b: int :: a <= b && Cut(nodes, true, a, b) == Some(Choose(nodes, find).nodes)
  {
    hide Cut, Full, Locate;
    if find == "" {
      assert Cut(nodes, true, 0, |Full(nodes, true)|) == Some(Choose(nodes, find).nodes);
    } else {
      var (start, phrase) := (Locate(Full(nodes, true), find).start, Locate(Full(nodes, true), find).phrase);
      assert Cut(nodes, true, start, start + |phrase|) == Some(Choose(nodes, find).nodes);
    }
  }

  lemma InsertedSettles(id: nat, text: string, fmt: Option<Format>, lo: nat, hi: nat)
    requires lo <= id < hi
    ensures Settle(false, lo, hi, [Inserted(id, text, fmt)]) == []
    ensures Visible([Inserted(id, text, fmt)]) == Unmarked(Clean(text))
  {
    hide NewRuns, Settle, Visible, Cells, Clean;
    OneBox(false, lo, hi, Inserted(id, text, fmt));
    NewRunsText(text, fmt);
  }

  /** Cutting and putting back leaves something wherever something was. */
  lemma CutNotEmpty(nodes: seq<Node>, a: int, b: int)
    requires a <= b && nodes != [] && Unpicked(nodes) && Cut(nodes, true, a, b).Some?
    ensures Unpick(Cut(nodes, true, a, b).value) != []
  {
    hide Cut, Unpick, CutRun, RunText, TextRun, Full, TextRuns, Host, Picks;
    var (n, rest) := (nodes[0], nodes[1..]);
    var w := |Full([n], true)|;
    if Inert(n, true) {
      InertCut(nodes, true, a, b);
      UnpickAppend([n], Cut(rest, true, a, b).value);
      PicksAppend([n], rest);
      assert [n] + rest == nodes;
      UnpickedKeeps([n]);
    } else if n.R? {
      RunCut(nodes, true, a, b);
      CutRunNotEmpty(n.run, a, b);
      UnpickAppend(CutRun(n.run, a, b).value, Cut(rest, true, a - |RunText(n.run)|, b - |RunText(n.run)|).value);
    } else {
      HostCut(nodes, a, b);
      var inner := Cut(n.kids, false, a, b).value;
      HostPicks(n.tag, n.id, inner);
      UnpickAppend([Box(n.tag, n.id, inner)],
                   Cut(rest, true, a - |Full(n.kids, false)|, b - |Full(n.kids, false)|).value);
    }
  }

  lemma CutRunNotEmpty(run: Run, a: int, b: int)
    requires a <= b && CutRun(run, a, b).Some?
    ensures Unpick(CutRun(run, a, b).value) != []
  {
    hide RunText, Part;
    var c := CutRun(run, a, b).value;
    assert c != [] && (c[0].R? || (c[0].tag.Picked? && c[0].kids != []));
  }

  /** Rejecting the revisions of a replacement gives the paragraph back, character by character with its formatting. */
  lemma ReplaceRejected(marked: bool, nodes: seq<Node>, find: string, text: string, next: nat, lo: nat, hi: nat)
    requires WellFormed(nodes) && Unpicked(nodes)
    requires Replace(marked, nodes, find, text, next).Done? && lo <= next && Replace(marked, nodes, find, text, next).next <= hi
    ensures Cells(Settle(false, lo, hi, Replace(marked, nodes, find, text, next).nodes)) == Cells(nodes)
    ensures Settle(false, lo, hi, Replace(marked, nodes, find, text, next).nodes) != [] && nodes != []
  {
    hide Cut, Choose, Strike, Settle, Cells, Unpick, Visible, NewRuns, Picks, Tracked, Complex, WellFormed, Unpicked, PickedClean,
         Unminted, Template, AfterLast, Inserted;
    var c := Choose(nodes, find).nodes;
    ChooseCuts(nodes, find);
    var a: int, b: int :| a <= b && Cut(nodes, true, a, b) == Some(c);
    UntrackedIsUnminted(lo, hi, nodes);
    CutClean(nodes, true, a, b, lo, hi);
    CutKeepsCells(nodes, true, a, b);
    RewrittenRejected(c, text, next, lo, hi);
    if nodes == [] {
      EmptyCut(true, a, b);
    } else {
      CutNotEmpty(nodes, a, b);
    }
  }

  lemma RewrittenRejected(c: seq<Node>, text: string, next: nat, lo: nat, hi: nat)
    requires Unminted(lo, hi, c) && PickedClean(c) && lo <= next && next + Picks(c) + 1 <= hi
    ensures Settle(false, lo, hi, Rewritten(c, text, next)) == Unpick(c)
  {
    hide Strike, Settle, Unpick, Picks, Unminted, PickedClean, Template, Inserted;
    var m := AfterLast(c);
    var (l, r, ins) := (c[..m], c[m..], [Inserted(next + Picks(c), text, Template(Unpick(c)))]);
    assert l + r == c;
    PickAppend(l, r);
    CleanAppend(l, r);
    UnmintedAppend(lo, hi, l, r);
    StrikeRejected(l, next, lo, hi);
    InsertedSettles(next + Picks(c), text, Template(Unpick(c)), lo, hi);
    SettleAppend(false, lo, hi, Strike(l, next) + ins, r);
    SettleAppend(false, lo, hi, Strike(l, next), ins);
    SettleUnminted(false, lo, hi, r);
    NoPicks(r);
    UnpickedKeeps(r);
  }

  // ---------------------------------------------------------------- what is visible

  lemma {:induction false} StrikeVisible(nodes: seq<Node>, next: nat)
    ensures Visible(Strike(nodes, next)) == Visible(nodes)
    decreases nodes, 1
  {
    hide Strike, Visible, Picks, Unpick, PickedClean;
    if nodes == [] {
      NothingStrikes(next);
    } else {
      var used := Picks([nodes[0]]);
      StrikeHead(nodes, next);
      VisibleAppend(Strike([nodes[0]], next), Strike(nodes[1..], next + used));
      OneStrikeVisible(nodes[0], next);
      StrikeVisible(nodes[1..], next + used);
    }
  }

  lemma NothingStrikes(next: nat)
    ensures Strike([], next) == []
  {
  }

  lemma OneStrikeVisible(n: Node, next: nat)
    ensures Visible(Strike([n], next)) == Visible([n])
    decreases n, 2
  {
    hide Visible, Picks, StruckRuns, Cells, Settle;
    assert [n][1..] == [];
    match n {
      case R(_) => assert Strike([n], next) == [n];
      case Box(tag, id, kids) =>
        OneBox(true, 0, 0, n);
        if tag.Picked? {
          assert Strike([n], next) == [Box(DelTag, Some(next), StruckRuns(kids))];
          OneBox(true, 0, 0, Box(DelTag, Some(next), StruckRuns(kids)));
        } else {
          assert Strike([n], next) == [Box(tag, id, Strike(kids, next))];
          OneBox(true, 0, 0, Box(tag, id, Strike(kids, next)));
          StrikeVisible(kids, next);
        }
    }
  }

  lemma RewrittenVisible(c: seq<Node>, text: string, next: nat)
    ensures var m := AfterLast(c);
      Visible(Rewritten(c, text, next)) == Visible(c[..m]) + Unmarked(Clean(text)) + Visible(c[m..])
  {
    hide Strike, Visible, Picks, Template, Unpick, Inserted, AfterLast, Clean;
    var m := AfterLast(c);
    var id := next + Picks(c);
    var ins := [Inserted(id, text, Template(Unpick(c)))];
    InsertedSettles(id, text, Template(Unpick(c)), id, id + 1);
    StrikeVisible(c[..m], next);
    VisibleAppend(Strike(c[..m], next) + ins, c[m..]);
    VisibleAppend(Strike(c[..m], next), ins);
  }

  /** A replacement of all text is refused exactly when something is tracked, held in fields, or there is no text. */
  lemma ReplaceAllRefused(marked: bool, nodes: seq<Node>, text: string, next: nat)
    requires Unpicked(nodes)
    ensures Replace(marked, nodes, "", text, next).Done? <==>
            !marked && !Tracked(nodes) && !Complex(nodes) && Full(nodes, true) != ""
  {
    hide Tracked, Complex, Cut, Full, Picks, Rewritten, PickedText;
    var full := Full(nodes, true);
    if full == "" {
      DocPhraseSpec.NoText(nodes, true, 0, 0);
      UnpickedKeeps(nodes);
    } else {
      WholeTextCuts(nodes);
      var c := Cut(nodes, true, 0, |full|).value;
      CutPicks(nodes, true, 0, |full|);
      if Picks(c) == 0 {
        NoPicks(c);
        UnpickedKeeps(c);
      }
    }
  }

  lemma {:induction false} EndsArePlain(runs: seq<Run>, x: int)
    requires x <= 0 || x >= |AllText(runs)|
    ensures CutsPlain(runs, x)
  {
    hide RunText, Plain;
    if runs != [] {
      EndsArePlain(runs[1..], x - |RunText(runs[0])|);
    }
  }

  lemma WholeTextCuts(nodes: seq<Node>)
    requires Full(nodes, true) != ""
    ensures Cut(nodes, true, 0, |Full(nodes, true)|).Some?
  {
    hide Cut, Full, TextRuns, CutsPlain;
    FullIsAllText(nodes, true);
    EndsArePlain(TextRuns(nodes, true), 0);
    EndsArePlain(TextRuns(nodes, true), |Full(nodes, true)|);
    CutIff(nodes, true, 0, |Full(nodes, true)|);
  }

  /** Rejecting an addition gives the paragraph back; accepting it adds the text, after a space where one is needed. */
  lemma AppendSettles(nodes: seq<Node>, text: string, next: nat, lo: nat, hi: nat)
    requires lo <= next < hi
    ensures var new' := Append(nodes, text, next);
      && Settle(false, lo, hi, new') == Settle(false, lo, hi, nodes)
      && Visible(Settle(true, lo, hi, new')) == Visible(nodes) + Unmarked(Clean(Prefix(Visible(nodes), text) + text))
  {
    hide Visible, Settle, Clean, Prefix, Template, Inserted;
    var ins := [Inserted(next, Prefix(Visible(nodes), text) + text, Template(nodes))];
    InsertedSettles(next, Prefix(Visible(nodes), text) + text, Template(nodes), lo, hi);
    SettleAppend(false, lo, hi, nodes, ins);
    VisibleAppend(nodes, ins);
    VisibleIsAccepted(lo, hi, Append(nodes, text, next));
    assert Settle(false, lo, hi, nodes) + [] == Settle(false, lo, hi, nodes);
  }
}
