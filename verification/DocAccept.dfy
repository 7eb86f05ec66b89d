/** What accepting a replacement leaves: the phrase is gone, the new text stands behind it, everything else stays. */
module DocAccept {
  import opened Options
  import opened DocText
  import opened DocTree
  import opened DocRuns
  import opened DocPhrase
  import opened DocPhraseSpec
  import opened DocParagraph
  import opened DocReplace

  // ---------------------------------------------------------------- every visible character, searched or not

  /** A visible character; `searched` says that a phrase may hold it. */
  datatype Letter = Letter(c: char, searched: bool)

  function Letters(s: string, searched: bool): (r: seq<Letter>)
    ensures |r| == |s|
  {
    seq(|s|, i requires 0 <= i < |s| => Letter(s[i], searched))
  }

  /** The visible characters of a paragraph. Those in other places than its own runs and the runs of its links, such as a
      content control, and those of comment anchors, are not searched. */
  function Masked(nodes: seq<Node>, top: bool): seq<Letter> {
    if nodes == [] then []
    else (match nodes[0]
          case R(run) => Letters(RunText(run), TextRun(run))
          case Box(tag, _, kids) =>
            if Hidden(tag) then [] else if top && Host(tag) then Masked(kids, false) else Letters(Visible(kids), false))
         + Masked(nodes[1..], top)
  }

  function TextOf(mask: seq<Letter>): (s: string)
    ensures |s| == |mask|
  {
    if mask == [] then "" else [mask[0].c] + TextOf(mask[1..])
  }

  function Searched(mask: seq<Letter>): string {
    if mask == [] then "" else (if mask[0].searched then [mask[0].c] else "") + Searched(mask[1..])
  }

  /** The characters without the searched ones from number `a` up to number `b`. */
  function Kept(mask: seq<Letter>, a: int, b: int): string {
    if mask == [] then ""
    else if mask[0].searched then (if a <= 0 < b then "" else [mask[0].c]) + Kept(mask[1..], a - 1, b - 1)
    else [mask[0].c] + Kept(mask[1..], a, b)
  }

  /** How many visible characters stand before the new text when the phrase ends before searched character `b`: those up
      to the end of the phrase, or of the link that the phrase ends in. */
  function Place(nodes: seq<Node>, b: int): nat {
    if nodes == [] then 0
    else
      var w := |Full([nodes[0]], true)|;
      if 0 < b <= w then (if nodes[0].R? then b else |Visible([nodes[0]])|) else |Visible([nodes[0]])| + Place(nodes[1..], b - w)
  }

  /** The text of the paragraph once the phrase, the searched characters from `a` to `b`, is exchanged. */
  function Exchanged(nodes: seq<Node>, a: int, b: int, text: string): string {
    var (mask, q) := (Masked(nodes, true), Place(nodes, b));
    if q <= |mask| then Kept(mask[..q], a, b) + text + TextOf(mask[q..]) else ""
  }

  // ---------------------------------------------------------------- lemmas about masks

  lemma MaskHead(mask: seq<Letter>, a: int, b: int)
    requires mask != []
    ensures var (x, rest) := (mask[0], mask[1..]);
      && TextOf(mask) == [x.c] + TextOf(rest) && Searched(mask) == (if x.searched then [x.c] else "") + Searched(rest)
      && Kept(mask, a, b) == (if x.searched && a <= 0 < b then "" else [x.c])
                             + (if x.searched then Kept(rest, a - 1, b - 1) else Kept(rest, a, b))
  {
  }

  lemma {:induction false} MaskAppend(x: seq<Letter>, y: seq<Letter>, a: int, b: int)
    ensures TextOf(x + y) == TextOf(x) + TextOf(y) && Searched(x + y) == Searched(x) + Searched(y)
    ensures Kept(x + y, a, b) == Kept(x, a, b) + Kept(y, a - |Searched(x)|, b - |Searched(x)|)
  {
    hide TextOf, Searched, Kept;
    if x == [] {
      assert x + y == y;
      EmptyMask(a, b);
    } else {
      assert (x + y)[1..] == x[1..] + y && (x + y)[0] == x[0];
      MaskHead(x, a, b);
      MaskHead(x + y, a, b);
      if x[0].searched {
        MaskAppend(x[1..], y, a - 1, b - 1);
      } else {
        MaskAppend(x[1..], y, a, b);
      }
    }
  }

  lemma EmptyMask(a: int, b: int)
    ensures TextOf([]) == "" && Searched([]) == "" && Kept([], a, b) == ""
  {
  }

  lemma {:induction false} LettersAre(s: string, searched: bool, a: int, b: int)
    requires a <= b
    ensures var m := Letters(s, searched);
      && TextOf(m) == s && Searched(m) == (if searched then s else "")
      && Kept(m, a, b) == if searched then s[..Clamp(a, |s|)] + s[Clamp(b, |s|)..] else s
  {
    hide TextOf, Searched, Kept;
    if s == "" {
      EmptyMask(a, b);
      assert Letters(s, searched) == [];
    } else {
      var rest := s[1..];
      MaskHead(Letters(s, searched), a, b);
      assert Letters(s, searched)[1..] == Letters(rest, searched);
      assert s == [s[0]] + rest;
      if searched {
        LettersAre(rest, searched, a - 1, b - 1);
        ClampTail(s, a, b);
      } else {
        LettersAre(rest, searched, a, b);
      }
    }
  }

  lemma ClampTail(s: string, a: int, b: int)
    requires a <= b && s != ""
    ensures s[..Clamp(a, |s|)] + s[Clamp(b, |s|)..] ==
            (if a <= 0 < b then "" else [s[0]])
            + (s[1..][..Clamp(a - 1, |s| - 1)] + s[1..][Clamp(b - 1, |s| - 1)..])
  {
    var rest := s[1..];
    if a > 0 {
      assert s[..Clamp(a, |s|)] == [s[0]] + rest[..Clamp(a - 1, |rest|)];
    } else if b <= 0 {
      assert s[0..] == [s[0]] + rest[0..];
    }
  }

  lemma {:induction false} KeptOutside(mask: seq<Letter>, a: int, b: int)
    requires b <= 0 || a >= |Searched(mask)|
    ensures Kept(mask, a, b) == TextOf(mask)
  {
    if mask != [] {
      KeptOutside(mask[1..], if mask[0].searched then a - 1 else a, if mask[0].searched then b - 1 else b);
    }
  }

  lemma MaskedHead(nodes: seq<Node>, top: bool)
    requires nodes != []
    ensures Masked(nodes, top) == Masked([nodes[0]], top) + Masked(nodes[1..], top)
  {
    hide RunText, TextRun, Visible, Hidden, Host;
    assert [nodes[0]][1..] == [] && Masked([], top) == [];
  }

  lemma FullHead(nodes: seq<Node>, top: bool)
    requires nodes != []
    ensures Full(nodes, top) == Full([nodes[0]], top) + Full(nodes[1..], top)
  {
    hide RunText, TextRun, Host;
    assert [nodes[0]][1..] == [] && Full([], top) == "";
  }

  lemma NothingMasked(top: bool)
    ensures Masked([], top) == [] && TextOf([]) == "" && Searched([]) == "" && Full([], top) == ""
  {
  }

  /** The mask reads as the paragraph does, and its searched characters are the text that is searched. */
  lemma {:induction false} MaskReads(nodes: seq<Node>, top: bool)
    requires Unpicked(nodes)
    ensures TextOf(Masked(nodes, top)) == Visible(nodes) && Searched(Masked(nodes, top)) == Full(nodes, top)
    decreases nodes, 1
  {
    hide Masked, Full, Visible, TextOf, Searched, Cells, Settle;
    if nodes == [] {
      NothingMasked(top);
      NoNodes(true, 0, 0);
    } else {
      MaskedHead(nodes, top);
      FullHead(nodes, top);
      VisibleHead(nodes);
      OneMaskReads(nodes[0], top);
      MaskReads(nodes[1..], top);
      MaskAppend(Masked([nodes[0]], top), Masked(nodes[1..], top), 0, 0);
    }
  }

  lemma OneMaskReads(n: Node, top: bool)
    requires Unpicked([n])
    ensures TextOf(Masked([n], top)) == Visible([n]) && Searched(Masked([n], top)) == Full([n], top)
    decreases n, 2
  {
    hide Visible, TextOf, Searched, RunText, TextRun, Cells, Settle, Letters;
    assert [n][1..] == [];
    NothingMasked(top);
    OneMask(n, top);
    match n {
      case R(run) =>
        OneRun(true, 0, 0, run);
        LettersAre(RunText(run), TextRun(run), 0, 0);
      case Box(tag, _, kids) =>
        OneBox(true, 0, 0, n);
        if !Hidden(tag) && top && Host(tag) {
          MaskReads(kids, false);
        } else {
          LettersAre(Visible(kids), false, 0, 0);
        }
    }
  }

  lemma OneMask(n: Node, top: bool)
    ensures Masked([n], top) ==
            match n
            case R(run) => Letters(RunText(run), TextRun(run))
            case Box(tag, _, kids) =>
              if Hidden(tag) then [] else if top && Host(tag) then Masked(kids, false) else Letters(Visible(kids), false)
  {
    hide RunText, TextRun, Visible, Hidden, Host, Letters;
    assert [n][1..] == [] && Masked([], top) == [];
  }

  // ---------------------------------------------------------------- what the cut leaves visible

  lemma {:induction false} BeyondCut(nodes: seq<Node>, top: bool, a: int, b: int)
    requires a <= b <= 0
    ensures Cut(nodes, top, a, b) == Some(nodes)
  {
    hide RunText, TextRun, Part;
    if nodes != [] {
      BeyondCut(nodes[1..], top, a, b);
      assert [nodes[0]] + nodes[1..] == nodes;
      match nodes[0] {
        case R(run) => BeyondCut(nodes[1..], top, a - |RunText(run)|, b - |RunText(run)|);
        case Box(_, _, kids) =>
          BeyondCut(kids, false, a, b);
          BeyondCut(nodes[1..], top, a - |Full(kids, false)|, b - |Full(kids, false)|);
      }
    }
  }

  /** The picked part of a run is not counted as visible. */
  lemma CutRunVisible(run: Run, a: int, b: int)
    requires a <= b && CutRun(run, a, b).Some?
    ensures Visible(CutRun(run, a, b).value) == RunText(run)[..Clamp(a, |RunText(run)|)] + RunText(run)[Clamp(b, |RunText(run)|)..]
  {
    hide RunText, Part, Visible, Cells, Settle;
    var (s, n) := (RunText(run), |RunText(run)|);
    NoNodes(true, 0, 0);
    if n <= a || b <= 0 {
      OneRun(true, 0, 0, run);
      assert s[..n] + s[n..] == s && s[..0] + s[0..] == s;
    } else {
      var i := if a > 0 then a else 0;
      var j := if b < n then b else n;
      var left := if a > 0 then [R(Part(run, 0, i))] else [];
      var right := if b < n then [R(Part(run, j, n))] else [];
      var box := [Box(Picked, None, [R(Part(run, i, j))])];
      if a > 0 { OneRun(true, 0, 0, Part(run, 0, i)); PartText(run, 0, i); }
      if b < n { OneRun(true, 0, 0, Part(run, j, n)); PartText(run, j, n); }
      VisibleAppend(left + box, right);
      VisibleAppend(left, box);
      OneBox(true, 0, 0, box[0]);
      assert Visible(left) == s[..i] && Visible(right) == s[j..] && Visible(box) == "";
    }
  }

  /** All that was visible and is not picked is still visible. */
  lemma {:induction false} CutKept(nodes: seq<Node>, top: bool, a: int, b: int)
    requires a <= b && Unpicked(nodes) && Cut(nodes, top, a, b).Some?
    ensures Visible(Cut(nodes, top, a, b).value) == Kept(Masked(nodes, top), a, b)
  {
    hide CutRun, RunText, TextRun, Cut, Full, Visible, Masked, Kept, Cells, Settle, Unpicked, TextOf, Searched, Letters, Host, Hidden;
    if nodes == [] {
      EmptyCut(top, a, b);
      NoNodes(true, 0, 0);
      NothingKept(top, a, b);
    } else {
      var (n, rest) := (nodes[0], nodes[1..]);
      var w := |Full([n], top)|;
      MaskedHead(nodes, top);
      PicksAppend([n], rest);
      assert [n] + rest == nodes;
      MaskReads([n], top);
      MaskAppend(Masked([n], top), Masked(rest, top), a, b);
      if Inert(n, top) {
        InertCut(nodes, top, a, b);
        OneInert(n, top, a, b);
        CutKept(rest, top, a, b);
        VisibleAppend([n], Cut(rest, top, a, b).value);
      } else if n.R? {
        RunCut(nodes, top, a, b);
        OneTextRun(n.run, top, a, b);
        CutKept(rest, top, a - w, b - w);
        VisibleAppend(CutRun(n.run, a, b).value, Cut(rest, top, a - w, b - w).value);
      } else {
        HostCut(nodes, a, b);
        OneHost(n);
        OneUnpicked(n);
        CutKept(n.kids, false, a, b);
        CutKept(rest, top, a - w, b - w);
        var box := Box(n.tag, n.id, Cut(n.kids, false, a, b).value);
        OneBox(true, 0, 0, box);
        VisibleAppend([box], Cut(rest, top, a - w, b - w).value);
      }
    }
  }

  lemma NothingKept(top: bool, a: int, b: int)
    ensures Kept(Masked([], top), a, b) == ""
  {
  }

  lemma OneUnpicked(n: Node)
    requires n.Box? && Unpicked([n])
    ensures Unpicked(n.kids)
  {
  }

  /** An element that is not searched. */
  lemma OneInert(n: Node, top: bool, a: int, b: int)
    requires Inert(n, top) && Unpicked([n]) && a <= b
    ensures Full([n], top) == "" && Kept(Masked([n], top), a, b) == Visible([n]) && Picks([n]) == 0
  {
    hide RunText, TextRun, Visible, Masked, Kept, TextOf, Searched, Letters, Host, Hidden, Full, Cells, Settle, Unpicked;
    assert [n][1..] == [];
    OneMask(n, top);
    UnpickedKeeps([n]);
    InertFull(n, top);
    match n {
      case R(run) =>
        OneRun(true, 0, 0, run);
        LettersAre(RunText(run), false, a, b);
      case Box(tag, _, kids) =>
        OneBox(true, 0, 0, n);
        LettersAre(Visible(kids), false, a, b);
        NothingKept(top, a, b);
        NothingMasked(top);
    }
  }

  lemma InertFull(n: Node, top: bool)
    requires Inert(n, top)
    ensures Full([n], top) == ""
  {
    hide TextRun, Host;
    assert [n][1..] == [] && Full([], top) == "";
  }

  lemma OneTextRun(run: Run, top: bool, a: int, b: int)
    requires TextRun(run) && a <= b
    ensures Full([R(run)], top) == RunText(run) && Masked([R(run)], top) == Letters(RunText(run), true)
    ensures Kept(Masked([R(run)], top), a, b) ==
            RunText(run)[..Clamp(a, |RunText(run)|)] + RunText(run)[Clamp(b, |RunText(run)|)..]
    ensures CutRun(run, a, b).Some? ==> Visible(CutRun(run, a, b).value) == Kept(Masked([R(run)], top), a, b)
    ensures Visible([R(run)]) == RunText(run)
  {
    hide RunText, Visible, Kept, Letters, CutRun, Cells, Settle, TextOf, Searched;
    assert [R(run)][1..] == [];
    LettersAre(RunText(run), true, a, b);
    OneMask(R(run), top);
    OneRun(true, 0, 0, run);
    NothingMasked(top);
    if CutRun(run, a, b).Some? { CutRunVisible(run, a, b); }
    assert Full([R(run)], top) == RunText(run) + Full([], top);
  }

  lemma OneHost(n: Node)
    requires n.Box? && Host(n.tag)
    ensures Full([n], true) == Full(n.kids, false) && Masked([n], true) == Masked(n.kids, false)
    ensures Visible([n]) == Visible(n.kids) && !Hidden(n.tag)
  {
    hide Visible, Cells, Settle;
    assert [n][1..] == [] && Full([], true) == "" && Masked([], true) == [];
    OneBox(true, 0, 0, n);
  }

  // ---------------------------------------------------------------- where the new text goes

  lemma {:induction false} AfterLastAppend(x: seq<Node>, y: seq<Node>)
    ensures AfterLast(x + y) == if Picks(y) > 0 then |x| + AfterLast(y) else AfterLast(x)
  {
    hide Picks;
    PicksAppend(x, y);
    if x == [] {
      assert x + y == y;
      NothingPicks();
    } else {
      AfterLastAppend(x[1..], y);
      assert (x + y)[1..] == x[1..] + y;
      PicksAppend(x[1..], y);
      assert [x[0]] + x[1..] == x;
      PicksAppend([x[0]], x[1..]);
    }
  }

  lemma NothingPicks()
    ensures Picks([]) == 0
  {
  }

  /** Before the place for the new text stands what is kept of the first `q` visible characters, behind it the rest. */
  ghost predicate Splits(c: seq<Node>, mask: seq<Letter>, q: nat, a: int, b: int) {
    && Picks(c) > 0 && q <= |mask|
    && Visible(c[..AfterLast(c)]) == Kept(mask[..q], a, b)
    && Visible(c[AfterLast(c)..]) == TextOf(mask[q..])
  }

  /** An element before the one in which the phrase ends. */
  lemma SplitsBefore(c: seq<Node>, d: seq<Node>, x: seq<Letter>, y: seq<Letter>, q: nat, a: int, b: int)
    requires Visible(c) == Kept(x, a, b) && Splits(d, y, q, a - |Searched(x)|, b - |Searched(x)|)
    ensures Splits(c + d, x + y, |x| + q, a, b)
  {
    hide Visible, Picks, AfterLast, Kept, TextOf, Searched;
    AfterLastAppend(c, d);
    PicksAppend(c, d);
    var m := AfterLast(d);
    assert (c + d)[..|c| + m] == c + d[..m] && (c + d)[|c| + m..] == d[m..];
    assert (x + y)[..|x| + q] == x + y[..q] && (x + y)[|x| + q..] == y[q..];
    VisibleAppend(c, d[..m]);
    MaskAppend(x, y[..q], a, b);
  }

  /** The element in which the phrase ends: all that follows it stays behind the new text. */
  lemma SplitsHere(c: seq<Node>, rest: seq<Node>, x: seq<Letter>, y: seq<Letter>, q: nat, a: int, b: int)
    requires Splits(c, x, q, a, b) && Picks(rest) == 0 && Visible(rest) == TextOf(y)
    ensures Splits(c + rest, x + y, q, a, b)
  {
    hide Visible, Picks, AfterLast, Kept, TextOf, Searched;
    AfterLastAppend(c, rest);
    PicksAppend(c, rest);
    var m := AfterLast(c);
    assert (c + rest)[..m] == c[..m] && (c + rest)[m..] == c[m..] + rest;
    assert (x + y)[..q] == x[..q] && (x + y)[q..] == x[q..] + y;
    VisibleAppend(c[m..], rest);
    MaskAppend(x[q..], y, 0, 0);
  }

  /** In a run of the paragraph itself the place is right behind the phrase. */
  lemma RunSplits(run: Run, a: int, b: int)
    requires a < b && 0 < b <= |RunText(run)| && CutRun(run, a, b).Some?
    ensures Splits(CutRun(run, a, b).value, Letters(RunText(run), true), b, a, b)
  {
    hide RunText, Part, Visible, Picks, AfterLast, Cells, Settle, Kept, TextOf, Searched, Letters;
    var (s, n) := (RunText(run), |RunText(run)|);
    var i := if a > 0 then a else 0;
    var left := if a > 0 then [R(Part(run, 0, i))] else [];
    var right := if b < n then [R(Part(run, b, n))] else [];
    NoNodes(true, 0, 0);
    if a > 0 { OneRun(true, 0, 0, Part(run, 0, i)); PartText(run, 0, i); }
    if b < n { OneRun(true, 0, 0, Part(run, b, n)); PartText(run, b, n); }
    AroundBox(left, Part(run, i, b), right);
    LettersSplit(s, b);
    LettersAre(s[..b], true, a, b);
    LettersAre(s[b..], true, 0, 0);
    assert s[..b][..Clamp(a, b)] + s[..b][b..] == s[..i];
    assert Visible(left) == s[..i] && Visible(right) == s[b..];
  }

  lemma LettersSplit(s: string, q: nat)
    requires q <= |s|
    ensures Letters(s, true)[..q] == Letters(s[..q], true) && Letters(s, true)[q..] == Letters(s[q..], true)
  {
  }

  lemma AroundBox(left: seq<Node>, mid: Run, right: seq<Node>)
    requires |left| <= 1 && |right| <= 1 && (left != [] ==> left[0].R?) && (right != [] ==> right[0].R?)
    ensures var c := left + [Box(Picked, None, [R(mid)])] + right;
      Picks(c) == 1 && Visible(c[..AfterLast(c)]) == Visible(left) && Visible(c[AfterLast(c)..]) == Visible(right)
  {
    hide Visible, AfterLast, Cells, Settle;
    var box := [Box(Picked, None, [R(mid)])];
    var c := left + box + right;
    assert Unpicked(left) && Unpicked(right);
    BoxLast(left, box, right);
    assert c[..|left| + 1] == left + box && c[|left| + 1..] == right;
    VisibleAppend(left, box);
    OneBox(true, 0, 0, box[0]);
    assert Visible(left) + "" == Visible(left);
  }

  lemma BoxLast(left: seq<Node>, box: seq<Node>, right: seq<Node>)
    requires |box| == 1 && box[0].Box? && box[0].tag.Picked? && Unpicked(left) && Unpicked(right)
    ensures AfterLast(left + box + right) == |left| + 1 && Picks(left + box + right) == 1
  {
    PicksAppend(left + box, right);
    PicksAppend(left, box);
    AfterLastAppend(left + box, right);
    AfterLastAppend(left, box);
    UnpickedKeeps(left);
    UnpickedKeeps(right);
    assert box[1..] == [];
  }

  /** In a link the place is behind the whole link. */
  lemma HostSplits(n: Node, a: int, b: int)
    requires n.Box? && Host(n.tag) && Unpicked([n]) && a < b && 0 < b <= |Full(n.kids, false)| && Cut(n.kids, false, a, b).Some?
    ensures Splits([Box(n.tag, n.id, Cut(n.kids, false, a, b).value)], Masked(n.kids, false), |Visible(n.kids)|, a, b)
  {
    hide Visible, Picks, Cells, Settle, Kept, TextOf, Searched, Cut, Full, Masked, PickedText, Unpicked, Host, AfterLast;
    var inner := Cut(n.kids, false, a, b).value;
    var box := [Box(n.tag, n.id, inner)];
    OneUnpicked(n);
    OneHost(n);
    CutKept(n.kids, false, a, b);
    CutPicks(n.kids, false, a, b);
    if Picks(inner) == 0 {
      NoPicks(inner);
      UnpickedKeeps(inner);
    }
    HostPicks(n.tag, n.id, inner);
    OneBox(true, 0, 0, box[0]);
    MaskReads(n.kids, false);
    WholeBox(box);
    NoNodes(true, 0, 0);
    var mask := Masked(n.kids, false);
    assert mask[..|mask|] == mask && mask[|mask|..] == [] && box[..1] == box && box[1..] == [];
    NothingMasked(false);
  }

  lemma WholeBox(box: seq<Node>)
    requires |box| == 1 && Picks(box) > 0
    ensures AfterLast(box) == 1
  {
    assert box[1..] == [];
  }

  lemma PlaceHead(nodes: seq<Node>, b: int)
    requires nodes != []
    ensures var (w, v) := (|Full([nodes[0]], true)|, |Visible([nodes[0]])|);
      Place(nodes, b) == if 0 < b <= w then (if nodes[0].R? then b else v) else v + Place(nodes[1..], b - w)
  {
    hide Full, Visible;
  }

  lemma {:induction false} CutSplits(nodes: seq<Node>, a: int, b: int)
    requires a < b && Unpicked(nodes) && Cut(nodes, true, a, b).Some?
    requires 0 < b <= |Full(nodes, true)| && a < |Full(nodes, true)|
    ensures Splits(Cut(nodes, true, a, b).value, Masked(nodes, true), Place(nodes, b), a, b)
  {
    hide RunText, TextRun, CutRun, Cut, Full, Visible, Picks, Splits, Unpicked, AfterLast, Masked, Kept, TextOf, Searched, Letters,
         Host, Hidden, Place;
    if nodes == [] {
      EmptyCut(true, a, b);
    } else {
      var (n, rest) := (nodes[0], nodes[1..]);
      var w := |Full([n], true)|;
      PicksAppend([n], rest);
      assert [n] + rest == nodes;
      FullHead(nodes, true);
      MaskedHead(nodes, true);
      PlaceHead(nodes, b);
      MaskReads([n], true);
      if Inert(n, true) {
        InertCut(nodes, true, a, b);
        OneInert(n, true, a, b);
        CutSplits(rest, a, b);
        SplitsBefore([n], Cut(rest, true, a, b).value, Masked([n], true), Masked(rest, true), Place(rest, b), a, b);
      } else if n.R? {
        RunCut(nodes, true, a, b);
        OneTextRun(n.run, true, a, b);
        if b <= w {
          RunSplits(n.run, a, b);
          EndsHere(CutRun(n.run, a, b).value, rest, Masked([n], true), b, a, b, w);
        } else {
          CutSplits(rest, a - w, b - w);
          SplitsBefore(CutRun(n.run, a, b).value, Cut(rest, true, a - w, b - w).value, Masked([n], true), Masked(rest, true),
                       Place(rest, b - w), a, b);
        }
      } else {
        HostCut(nodes, a, b);
        OneHost(n);
        var box := [Box(n.tag, n.id, Cut(n.kids, false, a, b).value)];
        if b <= w {
          HostSplits(n, a, b);
          EndsHere(box, rest, Masked([n], true), |Visible(n.kids)|, a, b, w);
        } else {
          OneUnpicked(n);
          CutKept(n.kids, false, a, b);
          OneBox(true, 0, 0, box[0]);
          CutSplits(rest, a - w, b - w);
          SplitsBefore(box, Cut(rest, true, a - w, b - w).value, Masked([n], true), Masked(rest, true), Place(rest, b - w), a, b);
        }
      }
    }
  }

  lemma EndsHere(c: seq<Node>, rest: seq<Node>, x: seq<Letter>, q: nat, a: int, b: int, w: nat)
    requires Splits(c, x, q, a, b) && Unpicked(rest) && a < b <= w
    ensures Cut(rest, true, a - w, b - w) == Some(rest) && Splits(c + rest, x + Masked(rest, true), q, a, b)
  {
    hide Cut, Visible, Picks, Splits, Unpicked, AfterLast, Masked, Kept, TextOf, Searched;
    BeyondCut(rest, true, a - w, b - w);
    UnpickedKeeps(rest);
    MaskReads(rest, true);
    SplitsHere(c, rest, x, Masked(rest, true), q, a, b);
  }

  // ---------------------------------------------------------------- the promises

  /** The searched characters that a replacement exchanges: the phrase in the only place where it stands, or all. */
  ghost predicate Replaces(full: string, find: string, a: nat, b: nat) {
    if find == "" then a == 0 && b == |full| else b == a + |Wanted(full, find)| && OnlyAt(full, Wanted(full, find), a)
  }

  lemma ReplacesOnce(full: string, find: string, a: nat, b: nat, c: nat, d: nat)
    requires Replaces(full, find, a, b) && Replaces(full, find, c, d)
    ensures a == c && b == d
  {
    hide Wanted;
  }

  lemma SplitsGive(c: seq<Node>, mask: seq<Letter>, q: nat, a: int, b: int)
    requires Splits(c, mask, q, a, b)
    ensures q <= |mask| && Visible(c[..AfterLast(c)]) == Kept(mask[..q], a, b)
    ensures Visible(c[AfterLast(c)..]) == TextOf(mask[q..])
  {
    hide Visible;
  }

  /** An empty phrase chooses nothing. */
  lemma NothingChosen(nodes: seq<Node>, start: nat)
    requires OnlyAt(Full(nodes, true), "", start) && Unpicked(nodes)
    ensures Cut(nodes, true, start, start).Some? && Picks(Cut(nodes, true, start, start).value) == 0
  {
    hide Cut, Full, Part;
    var full := Full(nodes, true);
    assert OccursAt(full, "", 0) && OccursAt(full, "", |full|);
    DocPhraseSpec.NoText(nodes, true, 0, 0);
    UnpickedKeeps(nodes);
  }

  /** What a successful replacement has cut out. */
  lemma ReplaceCuts(marked: bool, nodes: seq<Node>, find: string, text: string, next: nat) returns (a: nat, b: nat)
    requires Unpicked(nodes) && Replace(marked, nodes, find, text, next).Done?
    ensures var full := Full(nodes, true);
      a < b <= |full| && Replaces(full, find, a, b) && Cut(nodes, true, a, b) == Some(Choose(nodes, find).nodes)
  {
    hide Picks, Tracked, Complex, Cut, Full, Rewritten, Locate, Unpicked, Wanted;
    var full := Full(nodes, true);
    if find == "" {
      a, b := 0, |full|;
      if full == "" {
        DocPhraseSpec.NoText(nodes, true, 0, 0);
        UnpickedKeeps(nodes);
      }
    } else {
      var located := Locate(full, find);
      LocatedIffUnique(full, find, located.start, located.phrase);
      a, b := located.start, located.start + |located.phrase|;
      if located.phrase == "" {
        NothingChosen(nodes, a);
      }
    }
  }

  /** Accepting a replacement, in any paragraph in which it succeeds: exactly the characters of the phrase are gone, the
      new text without its bold marks stands right behind it, or behind the link it ends in, and all else stays. */
  lemma ReplaceAccepted(marked: bool, nodes: seq<Node>, find: string, text: string, next: nat, lo: nat, hi: nat)
    requires Unpicked(nodes) && Replace(marked, nodes, find, text, next).Done?
    ensures var new' := Replace(marked, nodes, find, text, next).nodes;
      exists a: nat, b: nat ::
        && a < b <= |Full(nodes, true)| && Replaces(Full(nodes, true), find, a, b) && Place(nodes, b) <= |Visible(nodes)|
        && Visible(Settle(true, lo, hi, new')) == Exchanged(nodes, a, b, Unmarked(Clean(text)))
  {
    hide Visible, Picks, Cut, Full, Rewritten, Clean, Settle, Unpicked, Unmarked, Replaces, Splits, Masked, Place, Kept, TextOf,
         Choose, AfterLast, Searched, Tracked, Complex;
    var a, b := ReplaceCuts(marked, nodes, find, text, next);
    var c := Choose(nodes, find).nodes;
    CutSplits(nodes, a, b);
    SplitsGive(c, Masked(nodes, true), Place(nodes, b), a, b);
    MaskReads(nodes, true);
    RewrittenVisible(c, text, next);
    VisibleIsAccepted(lo, hi, Rewritten(c, text, next));
    assert Visible(Settle(true, lo, hi, Rewritten(c, text, next))) == Exchanged(nodes, a, b, Unmarked(Clean(text)));
  }

  /** All text of the paragraph is searched and stands in its own runs. */
  predicate Direct(nodes: seq<Node>) {
    Full(nodes, true) == Visible(nodes) && forall n <- nodes :: n.R? || Full([n], true) == ""
  }

  lemma {:induction false} AllSearched(mask: seq<Letter>)
    ensures |Searched(mask)| <= |mask|
    ensures |Searched(mask)| == |mask| ==> mask == Letters(TextOf(mask), true)
  {
    if mask != [] {
      AllSearched(mask[1..]);
      if |Searched(mask)| == |mask| {
        assert mask[1..] == Letters(TextOf(mask[1..]), true);
        assert TextOf(mask)[1..] == TextOf(mask[1..]) && TextOf(mask)[0] == mask[0].c;
        forall i | 0 <= i < |mask| ensures mask[i] == Letters(TextOf(mask), true)[i] {
          if i > 0 { assert mask[i] == mask[1..][i - 1]; }
        }
      }
    }
  }

  lemma {:induction false} DirectPlace(nodes: seq<Node>, b: int)
    requires Unpicked(nodes) && |Full(nodes, true)| == |Visible(nodes)| && 0 < b <= |Full(nodes, true)|
    requires forall n <- nodes :: n.R? || Full([n], true) == ""
    ensures Place(nodes, b) == b
  {
    hide Full, Visible, Unpicked, Place, Masked, Searched, TextOf, Cells, Settle;
    if nodes == [] {
      NothingMasked(true);
    } else {
      var (n, rest) := (nodes[0], nodes[1..]);
      FullHead(nodes, true);
      VisibleHead(nodes);
      PlaceHead(nodes, b);
      PicksAppend([n], rest);
      assert [n] + rest == nodes;
      MaskReads([n], true);
      MaskReads(rest, true);
      AllSearched(Masked([n], true));
      AllSearched(Masked(rest, true));
      if b > |Full([n], true)| {
        DirectPlace(rest, b - |Full([n], true)|);
      }
    }
  }

  /** In a paragraph whose text all stands in its own runs the phrase is simply exchanged for the new text. */
  lemma PlainExchange(nodes: seq<Node>, a: nat, b: nat, text: string)
    requires Unpicked(nodes) && Direct(nodes) && a < b <= |Full(nodes, true)|
    ensures Exchanged(nodes, a, b, text) == Visible(nodes)[..a] + text + Visible(nodes)[b..]
  {
    hide Full, Visible, Masked, Kept, TextOf, Searched, Letters, Place, Unpicked;
    var (mask, s) := (Masked(nodes, true), Visible(nodes));
    MaskReads(nodes, true);
    AllSearched(mask);
    DirectPlace(nodes, b);
    LettersSplit(s, b);
    LettersAre(s[..b], true, a, b);
    LettersAre(s[b..], true, 0, 0);
    assert s[..b][..a] + s[..b][b..] == s[..a];
  }
}
