/** The editor as it works: elements spliced into a paragraph in place, and the edits of a call applied in a loop. */
module DocEditor {
  import opened Options
  import opened DocText
  import opened DocTree
  import opened DocRuns
  import opened DocPhrase
  import opened DocParagraph
  import opened DocBody

  lemma JoinedHead(head: seq<Node>, rest: Option<seq<Node>>, done: seq<Node>)
    ensures Joined(Some(done), Joined(Some(head), rest)) == Joined(Some(done + head), rest)
  {
    if rest.Some? {
      assert done + (head + rest.value) == (done + head) + rest.value;
    }
  }

  lemma {:induction false} StrikeAppend(a: seq<Node>, b: seq<Node>, next: nat)
    ensures Strike(a + b, next) == Strike(a, next) + Strike(b, next + Picks(a))
    ensures |Strike(a, next)| == |a|
  {
    hide Strike, Picks, Unpick, Visible, PickedClean;
    if a == [] {
      NothingStruckYet(next);
      assert a + b == b;
    } else {
      var used := Picks([a[0]]);
      StrikeHead(a, next);
      StrikeHead(a + b, next);
      OneStruck(a[0], next);
      assert (a + b)[1..] == a[1..] + b && (a + b)[0] == a[0];
      StrikeAppend(a[1..], b, next + used);
    }
  }

  lemma OneStruck(n: Node, next: nat)
    ensures |Strike([n], next)| == 1
  {
    hide StruckRuns, Picks;
    assert [n][1..] == [];
  }

  lemma {:induction false} StrikeNothing(nodes: seq<Node>, next: nat)
    requires Picks(nodes) == 0
    ensures Strike(nodes, next) == nodes
  {
    if nodes != [] {
      if nodes[0].Box? {
        StrikeNothing(nodes[0].kids, next);
      }
      StrikeNothing(nodes[1..], next);
      assert [nodes[0]] + nodes[1..] == nodes;
    }
  }

  /** One element of the list, split where the phrase cuts it. */
  method CutOne(n: Node, top: bool, a: int, b: int, ghost rest: seq<Node>) returns (head: Option<seq<Node>>, width: nat)
    requires a <= b
    ensures Cut([n] + rest, top, a, b) == Joined(head, Cut(rest, top, a - width, b - width))
    decreases top, 1
  {
    hide CutRun, Cut, TextRun, RunText, Full, TextRuns;
    assert ([n] + rest)[1..] == rest;
    if Inert(n, top) {
      head, width := Some([n]), 0;
      InertCut([n] + rest, top, a, b);
    } else if n.R? {
      head, width := CutRun(n.run, a, b), |RunText(n.run)|;
      RunCut([n] + rest, top, a, b);
    } else {
      var kids := CutAll(n.kids, false, a, b);
      head := if kids.Some? then Some([Box(n.tag, n.id, kids.value)]) else None;
      width := |Full(n.kids, false)|;
      HostCut([n] + rest, a, b);
    }
  }

  /** The loop of `_phrase_runs`: the list grows in place behind the position while the runs are cut. */
  method CutAll(was: seq<Node>, top: bool, a: int, b: int) returns (r: Option<seq<Node>>)
    requires a <= b
    ensures r == Cut(was, top, a, b)
    decreases top, 2
  {
    hide Cut;
    var nodes, i, position := was, 0, 0;
    ghost var k := 0;
    EmptyCut(top, a, b);
    assert was[0..] == was && nodes[..0] == [];
    assert Cut(was, top, a, b) == Joined(Some([]), Cut(was, top, a, b)) by { JoinedNothing(Cut(was, top, a, b)); }
    while i < |nodes|
      invariant 0 <= i <= |nodes| && 0 <= k <= |was| && nodes[i..] == was[k..]
      invariant Cut(was, top, a, b) == Joined(Some(nodes[..i]), Cut(was[k..], top, a - position, b - position))
      decreases |was| - k
    {
      var head, width := CutOne(nodes[i], top, a - position, b - position, was[k + 1..]);
      assert was[k..] == [nodes[i]] + was[k + 1..] by { assert nodes[i..][0] == was[k..][0]; }
      assert nodes[i + 1..] == was[k + 1..] by { assert nodes[i..][1..] == was[k..][1..]; }
      if head.None? {
        return None;
      }
      JoinedHead(head.value, Cut(was[k + 1..], top, a - position - width, b - position - width), nodes[..i]);
      var next := nodes[..i] + head.value + nodes[i + 1..];
      assert next[..i + |head.value|] == nodes[..i] + head.value && next[i + |head.value|..] == nodes[i + 1..];
      nodes, i, position, k := next, i + |head.value|, position + width, k + 1;
    }
    assert was[k..] == [] && nodes[..i] == nodes;
    EmptyCut(top, a - position, b - position);
    assert nodes + [] == nodes;
    r := Some(nodes);
  }

  lemma JoinedNothing(r: Option<seq<Node>>)
    ensures Joined(Some([]), r) == r
  {
    if r.Some? { assert [] + r.value == r.value; }
  }

  class Paragraph {
    var marked: bool
    var nodes: seq<Node>

    constructor (marked: bool, nodes: seq<Node>)
      ensures this.marked == marked && this.nodes == nodes
    {
      this.marked, this.nodes := marked, nodes;
    }

    /** Find the phrase and leave the chosen runs marked in place. */
    method Pick(find: string) returns (refused: Option<Reason>)
      modifies this`nodes
      ensures match Choose(old(nodes), find)
              case Chosen(chosen) => refused == None && nodes == chosen
              case Missing => refused == Some(PhraseMissing)
              case Ambiguous => refused == Some(PhraseAmbiguous)
              case CutsFormatted => refused == Some(PhraseCutsFormatting)
    {
      hide Cut, Full, Locate;
      var full := Full(nodes, true);
      var start, end := 0, |full|;
      if find != "" {
        match Locate(full, find) {
          case Absent => return Some(PhraseMissing);
          case Repeated => return Some(PhraseAmbiguous);
          case At(at, phrase) => start, end := at, at + |phrase|;
        }
      }
      var cut := CutAll(nodes, true, start, end);
      if cut.None? {
        return Some(PhraseCutsFormatting);
      }
      nodes := cut.value;
      refused := None;
    }

    /** Wrap the chosen runs, one after the other. */
    method StrikePicked(first: nat) returns (next: nat)
      modifies this`nodes
      ensures nodes == Strike(old(nodes), first) && next == first + Picks(old(nodes))
    {
      hide Strike, Picks;
      next := first;
      StrikeAppend([], nodes, first);
      assert old(nodes)[..0] == [];
      NothingStruckYet(first);
      for i := 0 to |nodes|
        invariant |nodes| == |old(nodes)|
        invariant nodes[..i] == Strike(old(nodes)[..i], first) && nodes[i..] == old(nodes)[i..]
        invariant next == first + Picks(old(nodes)[..i])
      {
        ghost var (before, one) := (old(nodes)[..i], [old(nodes)[i]]);
        assert old(nodes)[..i + 1] == before + one;
        assert nodes[i] == old(nodes)[i] by { assert nodes[i..][0] == old(nodes)[i..][0]; }
        StrikeAppend(before, one, first);
        StrikeAppend(one, [], next);
        PicksAppend(before, one);
        var struck := Strike([nodes[i]], next)[0];
        next := next + Picks([nodes[i]]);
        assert nodes[i + 1..] == old(nodes)[i + 1..] by { assert nodes[i..][1..] == old(nodes)[i..][1..]; }
        var spliced := nodes[..i] + [struck] + nodes[i + 1..];
        assert spliced[..i + 1] == nodes[..i] + [struck] && spliced[i + 1..] == nodes[i + 1..];
        nodes := spliced;
      }
      assert nodes[..|nodes|] == nodes && old(nodes)[..|nodes|] == old(nodes);
    }

    /** `_replace`. */
    method ReplaceWith(find: string, text: string, first: nat) returns (refused: Option<Reason>, next: nat)
      modifies this`nodes
      ensures match Replace(marked, old(nodes), find, text, first)
              case Refused(why) => refused == Some(why)
              case Done(result, after) => refused == None && nodes == result && next == after
    {
      hide Choose, Tracked, Complex, Strike, Picks, Template, Unpick, AfterLast, NewRuns;
      next := first;
      if marked || Tracked(nodes) {
        return Some(AlreadyTracked), first;
      }
      if Complex(nodes) {
        return Some(HoldsFields), first;
      }
      refused := Pick(find);
      if refused.Some? {
        return;
      }
      if Picks(nodes) == 0 {
        return Some(NothingToReplace), first;
      }
      ghost var chosen := nodes;
      var fmt, container := Template(Unpick(nodes)), AfterLast(nodes);
      next := StrikePicked(first);
      assert chosen == chosen[..container] + chosen[container..];
      StrikeAppend(chosen[..container], chosen[container..], first);
      StrikeNothing(chosen[container..], first + Picks(chosen[..container]));
      var runs := MakeRuns(text, fmt);
      nodes := nodes[..container] + [Box(InsTag, Some(next), runs)] + nodes[container..];
      next := next + 1;
    }

    /** `_append`. */
    method Add(text: string, first: nat)
      modifies this`nodes
      ensures nodes == Append(old(nodes), text, first)
    {
      hide NewRuns, Template, Prefix;
      var prefix := Prefix(Visible(nodes), text);
      var runs := MakeRuns(prefix + text, Template(nodes));
      nodes := nodes + [Box(InsTag, Some(first), runs)];
    }
  }

  lemma NothingStruckYet(next: nat)
    ensures Strike([], next) == [] && Picks([]) == 0
  {
  }

  // ---------------------------------------------------------------- a call

  class Editor {
    var s: State

    constructor (body: seq<Para>, others: seq<nat>)
      ensures s == State(body, FirstId(BodyIds(body) + others), |body|, map[])
    {
      s := State(body, FirstId(BodyIds(body) + others), |body|, map[]);
    }

    /** `_insert_after` for one request, paragraph by paragraph. */
    method InsertBlocks(n: nat, e: Edit) returns (ok: bool)
      modifies this
      ensures ok <==> ApplyInsert(old(s), n, e).Some?
      ensures ok ==> s == ApplyInsert(old(s), n, e).value
    {
      hide Blocks, Originals, BodyTemplate, Created, InsertAt;
      var paragraphs, blocks := Originals(s.body, n), Blocks(e.text);
      if e.target >= |paragraphs| || blocks == [] {
        return false;
      }
      var after := if e.target in s.last then s.last[e.target] else e.target;
      var created := Created(blocks, BodyTemplate(paragraphs, e.target), s.next, s.made);
      s := s.(body := InsertAt(s.body, after, created), next := s.next + 2 * |blocks|, made := s.made + |blocks|);
      s := s.(last := s.last[e.target := s.made - 1]);
      ok := true;
    }

    method EditParagraph(e: Edit) returns (ok: bool)
      requires e.mode == ReplaceText || e.mode == AppendText
      modifies this
      ensures GoodText(e.text) ==> (ok <==> ApplyEdit(old(s), 0, e).Some?)
      ensures GoodText(e.text) && ok ==> s == ApplyEdit(old(s), 0, e).value
    {
      hide FindPara, SetNodes, Replace, Append, Marked, GoodText, ApplyInsert;
      var found := FindPara(s.body, e.target);
      if found.None? {
        return false;
      }
      var p := new Paragraph(Marked(found.value), found.value.nodes);
      var next := s.next;
      if e.mode == ReplaceText {
        var refused;
        refused, next := p.ReplaceWith(e.find, e.text, s.next);
        if refused.Some? {
          return false;
        }
      } else {
        p.Add(e.text, s.next);
        next := s.next + 1;
      }
      s := s.(body := SetNodes(s.body, e.target, p.nodes), next := next);
      ok := true;
    }

    /** The loop of `apply_changes`. */
    method Apply(n: nat, edits: seq<Edit>) returns (ok: bool)
      modifies this
      ensures ok <==> ApplyAll(old(s), n, edits).Some?
      ensures ok ==> s == ApplyAll(old(s), n, edits).value
    {
      hide ApplyEdit, GoodText;
      assert edits[..0] == [];
      for i := 0 to |edits|
        invariant ApplyAll(old(s), n, edits[..i]) == Some(s)
      {
        var e := edits[i];
        assert edits[..i + 1][..i] == edits[..i];
        EditModes(s, n, e);
        ok := false;
        if GoodText(e.text) && e.mode == InsertAfter {
          ok := InsertBlocks(n, e);
        } else if GoodText(e.text) && e.mode != UnknownMode {
          ok := EditParagraph(e);
        }
        if !ok {
          FailedPrefix(old(s), n, edits, i + 1);
          return false;
        }
      }
      assert edits[..|edits|] == edits;
      ok := true;
    }
  }

  /** Only insertions depend on the number of original paragraphs. */
  lemma EditModes(s: State, n: nat, e: Edit)
    ensures !GoodText(e.text) || e.mode == UnknownMode ==> ApplyEdit(s, n, e) == None
    ensures GoodText(e.text) && e.mode == InsertAfter ==> ApplyEdit(s, n, e) == ApplyInsert(s, n, e)
    ensures GoodText(e.text) && e.mode != InsertAfter ==> ApplyEdit(s, n, e) == ApplyEdit(s, 0, e)
  {
    hide GoodText, ApplyInsert, Replace, Append, FindPara, SetNodes, Marked;
  }

  lemma {:induction false} FailedPrefix(s: State, n: nat, edits: seq<Edit>, k: nat)
    requires k <= |edits| && ApplyAll(s, n, edits[..k]) == None
    ensures ApplyAll(s, n, edits) == None
    decreases |edits| - k
  {
    hide ApplyEdit;
    if k == |edits| {
      assert edits[..k] == edits;
    } else {
      assert edits[..k + 1][..k] == edits[..k];
      FailedPrefix(s, n, edits, k + 1);
    }
  }
}
