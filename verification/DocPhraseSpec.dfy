/** What choosing a phrase promises: success exactly when it should, and exactly the phrase is picked. */
module DocPhraseSpec {
  import opened Options
  import opened DocText
  import opened DocTree
  import opened DocRuns
  import opened DocPhrase

  function Clamp(x: int, n: nat): nat {
    if x < 0 then 0 else if x > n then n else x
  }

  /** The part of a text that lies between two offsets, which may lie outside it. */
  function Slice(s: string, a: int, b: int): string
    requires a <= b
  {
    s[Clamp(a, |s|)..Clamp(b, |s|)]
  }

  lemma SliceConcat(s: string, t: string, a: int, b: int)
    requires a <= b
    ensures Slice(s + t, a, b) == Slice(s, a, b) + Slice(t, a - |s|, b - |s|)
  {
  }

  // ---------------------------------------------------------------- exactly the phrase is picked

  lemma CutRunPicks(run: Run, a: int, b: int)
    requires a <= b && CutRun(run, a, b).Some?
    ensures PickedText(CutRun(run, a, b).value) == Slice(RunText(run), a, b)
    ensures Picks(CutRun(run, a, b).value) == if a < |RunText(run)| && b > 0 then 1 else 0
  {
    hide Part, RunText;
    var n := |RunText(run)|;
    if n <= a || b <= 0 {
      UnpickedKeeps([R(run)]);
    } else {
      var i := if a > 0 then a else 0;
      var j := if b < n then b else n;
      ThreeCells(run, if a > 0 then [R(Part(run, 0, i))] else [], Part(run, i, j), if b < n then [R(Part(run, j, n))] else []);
      PartText(run, i, j);
    }
  }

  lemma {:induction false} CutPicks(nodes: seq<Node>, top: bool, a: int, b: int)
    requires a <= b && Unpicked(nodes) && Cut(nodes, top, a, b).Some?
    ensures PickedText(Cut(nodes, top, a, b).value) == Slice(Full(nodes, top), a, b)
  {
    hide CutRun, RunText, Cut, PickedText, Picks, Full, TextRuns, TextRun, Host, Slice;
    if nodes == [] {
      EmptyCut(top, a, b);
      EmptySlice(a, b);
    } else {
      var (head, rest) := ([nodes[0]], nodes[1..]);
      assert head + rest == nodes;
      if Inert(nodes[0], top) {
        InertCut(nodes, top, a, b);
        CutPicks(rest, top, a, b);
        PickAppend(head, Cut(rest, top, a, b).value);
        PicksAppend(head, rest);
        UnpickedKeeps(head);
      } else if nodes[0].R? {
        var run := nodes[0].run;
        var w := |RunText(run)|;
        RunCut(nodes, top, a, b);
        CutPicks(rest, top, a - w, b - w);
        CutRunPicks(run, a, b);
        PickAppend(CutRun(run, a, b).value, Cut(rest, top, a - w, b - w).value);
        SliceConcat(RunText(run), Full(rest, top), a, b);
      } else {
        var (n, w) := (nodes[0], |Full(nodes[0].kids, false)|);
        HostCut(nodes, a, b);
        CutPicks(n.kids, false, a, b);
        CutPicks(rest, top, a - w, b - w);
        HostPicks(n.tag, n.id, Cut(n.kids, false, a, b).value);
        PickAppend([Box(n.tag, n.id, Cut(n.kids, false, a, b).value)], Cut(rest, top, a - w, b - w).value);
        SliceConcat(Full(n.kids, false), Full(rest, top), a, b);
      }
    }
  }

  lemma EmptySlice(a: int, b: int)
    requires a <= b
    ensures Slice("", a, b) == ""
  {
  }

  // ---------------------------------------------------------------- when it succeeds

  function AllText(runs: seq<Run>): string {
    if runs == [] then "" else RunText(runs[0]) + AllText(runs[1..])
  }

  /** If the offset lies strictly inside a run, that run is plain text. */
  predicate CutsPlain(runs: seq<Run>, x: int) {
    runs == [] || ((0 < x < |RunText(runs[0])| ==> Plain(runs[0])) && CutsPlain(runs[1..], x - |RunText(runs[0])|))
  }

  lemma {:induction false} CutsPlainAppend(r: seq<Run>, t: seq<Run>, x: int)
    ensures CutsPlain(r + t, x) <==> CutsPlain(r, x) && CutsPlain(t, x - |AllText(r)|)
    ensures AllText(r + t) == AllText(r) + AllText(t)
  {
    hide RunText, Plain;
    if r == [] {
      assert r + t == t;
    } else {
      CutsPlainAppend(r[1..], t, x - |RunText(r[0])|);
      assert (r + t)[1..] == r[1..] + t;
    }
  }

  lemma {:induction false} FullIsAllText(nodes: seq<Node>, top: bool)
    ensures Full(nodes, top) == AllText(TextRuns(nodes, top))
  {
    hide RunText, TextRun, Host, Full, TextRuns, Cut;
    if nodes == [] {
      EmptyCut(top, 0, 0);
    } else {
      FullIsAllText(nodes[1..], top);
      if Inert(nodes[0], top) {
        InertCut(nodes, top, 0, 0);
      } else if nodes[0].R? {
        RunCut(nodes, top, 0, 0);
        assert TextRuns(nodes, top)[1..] == TextRuns(nodes[1..], top);
      } else {
        HostCut(nodes, 0, 0);
        FullIsAllText(nodes[0].kids, false);
        CutsPlainAppend(TextRuns(nodes[0].kids, false), TextRuns(nodes[1..], top), 0);
      }
    }
  }

  /** The cut succeeds exactly when neither end of the phrase cuts a run that is not plain text. */
  lemma {:induction false} CutIff(nodes: seq<Node>, top: bool, a: int, b: int)
    requires a < b
    ensures Cut(nodes, top, a, b).Some? <==> CutsPlain(TextRuns(nodes, top), a) && CutsPlain(TextRuns(nodes, top), b)
  {
    hide RunText, Cut, Full, TextRuns, TextRun, Host, Part, Plain;
    if nodes == [] {
      EmptyCut(top, a, b);
    } else {
      var rest := nodes[1..];
      if Inert(nodes[0], top) {
        InertCut(nodes, top, a, b);
        CutIff(rest, top, a, b);
      } else if nodes[0].R? {
        var run := nodes[0].run;
        var w := |RunText(run)|;
        RunCut(nodes, top, a, b);
        CutIff(rest, top, a - w, b - w);
        assert TextRuns(nodes, top)[1..] == TextRuns(rest, top);
      } else {
        var (n, w) := (nodes[0], |Full(nodes[0].kids, false)|);
        HostCut(nodes, a, b);
        CutIff(n.kids, false, a, b);
        CutIff(rest, top, a - w, b - w);
        FullIsAllText(n.kids, false);
        CutsPlainAppend(TextRuns(n.kids, false), TextRuns(rest, top), a);
        CutsPlainAppend(TextRuns(n.kids, false), TextRuns(rest, top), b);
      }
    }
  }

  /** Where the wanted phrase stands, if it stands in exactly one place. */
  ghost predicate OnlyAt(full: string, phrase: string, start: nat) {
    OccursAt(full, phrase, start) && forall i :: OccursAt(full, phrase, i) ==> i == start
  }

  /** The phrase stands in the text exactly once, and neither of its ends cuts a run that is not plain text. */
  ghost predicate CutsOut(full: string, runs: seq<Run>, phrase: string) {
    exists start: nat :: start <= |full| && OnlyAt(full, phrase, start)
                         && CutsPlain(runs, start) && CutsPlain(runs, start + |phrase|)
  }

  /** `_phrase_runs`: it fails exactly when the phrase is absent, repeated (overlaps included) or cuts a run that is not
      plain text; otherwise the chosen runs hold exactly the phrase and no character of the paragraph has changed. */
  lemma PhraseRunsSpec(nodes: seq<Node>, find: string)
    requires Unpicked(nodes) && find != ""
    ensures var (full, runs, c) := (Full(nodes, true), TextRuns(nodes, true), PhraseRuns(nodes, find));
      var phrase := Wanted(full, find);
      && (c.Missing? <==> !Occurs(full, phrase))
      && (c.Chosen? <==> CutsOut(full, runs, phrase))
      && (c.Chosen? ==> PickedText(c.nodes) == phrase && Cells(Unpick(c.nodes)) == Cells(nodes))
  {
    hide Cut, Full, TextRuns, CutsPlain, PickedText, Unpick, Cells, Locate, Wanted;
    var (full, runs) := (Full(nodes, true), TextRuns(nodes, true));
    var phrase := Wanted(full, find);
    LocatedIffUnique(full, find, 0, phrase);
    match Locate(full, find) {
      case Absent =>
      case Repeated =>
        forall start: nat | OnlyAt(full, phrase, start) ensures false {
          LocatedIffUnique(full, find, start, phrase);
        }
      case At(start, p) =>
        LocatedIffUnique(full, find, start, p);
        var end := start + |phrase|;
        if phrase != "" {
          CutIff(nodes, true, start, end);
        } else {
          EmptyPhrase(nodes, find, start);
        }
        if Cut(nodes, true, start, end).Some? {
          CutKeepsCells(nodes, true, start, end);
          CutPicks(nodes, true, start, end);
          assert Slice(full, start, end) == phrase;
        }
        assert OnlyAt(full, phrase, start);
    }
  }

  /** An empty phrase is found once only in a paragraph without text. */
  lemma EmptyPhrase(nodes: seq<Node>, find: string, start: nat)
    requires OnlyAt(Full(nodes, true), "", start)
    ensures Cut(nodes, true, start, start).Some? && CutsPlain(TextRuns(nodes, true), start)
  {
    hide Cut, Full, TextRuns, Part;
    var full := Full(nodes, true);
    assert OccursAt(full, "", 0) && OccursAt(full, "", |full|);
    FullIsAllText(nodes, true);
    NoText(nodes, true, 0, 0);
  }

  lemma {:induction false} NoText(nodes: seq<Node>, top: bool, a: int, b: int)
    requires a <= b && Full(nodes, top) == ""
    ensures TextRuns(nodes, top) == [] && Cut(nodes, top, a, b) == Some(nodes)
  {
    hide CutRun;
    if nodes != [] {
      NoText(nodes[1..], top, a, b);
      if nodes[0].Box? && top && Host(nodes[0].tag) {
        NoText(nodes[0].kids, false, a, b);
      }
      assert [nodes[0]] + nodes[1..] == nodes;
    }
  }
}
