/** Which calls of the editor are refused. */
module DocRefusals {
  import opened Options
  import opened DocText
  import opened DocTree
  import opened DocRuns
  import opened DocPhrase
  import opened DocPhraseSpec
  import opened DocParagraph
  import opened DocReplace
  import opened DocBody
  import opened DocGroups
  import opened DocTheorems
  import opened DocSections
  import opened DocReading

  // ---------------------------------------------------------------- text to insert

  predicate AllBlank(parts: seq<string>) {
    parts == [] || (Blank(parts[0]) && AllBlank(parts[1..]))
  }

  lemma BlankJoin(a: string, b: string)
    ensures Blank(a + b) <==> Blank(a) && Blank(b)
  {
    assert forall c :: c in a + b <==> c in a || c in b;
  }

  lemma SeparatorIsBlank(g: string)
    requires Separator(g)
    ensures Blank(g)
  {
    forall c | c in g ensures Space(c) {
      var i :| 0 <= i < |g| && g[i] == c;
    }
  }

  lemma {:induction false} BlankSections(s: string)
    ensures Blank(s) <==> AllBlank(Sections(s))
    decreases |s|
  {
    hide BlankLine, Blank, Separator;
    if s == "" {
      NothingIsBlank();
    } else if BlankLine(s) > 0 {
      var n := BlankLine(s);
      BlankLineIsSeparator(s);
      SeparatorIsBlank(s[..n]);
      BlankSections(s[n..]);
      assert s == s[..n] + s[n..];
      BlankJoin(s[..n], s[n..]);
      assert Sections(s)[1..] == Sections(s[n..]);
      NothingIsBlank();
    } else {
      var rest := Sections(s[1..]);
      BlankSections(s[1..]);
      assert s == [s[0]] + s[1..];
      BlankJoin([s[0]], s[1..]);
      BlankJoin([s[0]], rest[0]);
      assert Sections(s)[1..] == rest[1..];
    }
  }

  lemma NothingIsBlank()
    ensures Blank("") && AllBlank([""])
  {
  }

  lemma {:induction false} NoBlocks(parts: seq<string>)
    ensures NonBlank(parts) == [] <==> AllBlank(parts)
  {
    hide Blank, StripNewlines;
    if parts != [] { NoBlocks(parts[1..]); }
  }

  /** A text gives paragraphs unless nothing but white space is left of it. */
  lemma BlocksUnlessBlank(text: string)
    ensures Blocks(text) == [] <==> Blank(Clean(text))
  {
    hide Blank, Clean, Sections, NonBlank, AllBlank;
    BlankSections(Clean(text));
    NoBlocks(Sections(Clean(text)));
  }

  // ---------------------------------------------------------------- replacements

  /** The phrase stands there exactly once and cuts no run that is more than plain text; without a phrase there is text. */
  ghost predicate Replaceable(nodes: seq<Node>, find: string) {
    var full := Full(nodes, true);
    if find == "" then full != ""
    else
      var phrase := if Occurs(full, find) then find else Spaced(Words(find));
      phrase != "" && CutsOut(full, TextRuns(nodes, true), phrase)
  }

  lemma NothingChosen(nodes: seq<Node>)
    requires Picks(nodes) == 0
    ensures PickedText(nodes) == ""
  {
    NoPicks(nodes);
    UnpickedKeeps(nodes);
  }

  lemma EmptyPhraseChoosesNothing(nodes: seq<Node>, find: string)
    requires Unpicked(nodes) && find != "" && Wanted(Full(nodes, true), find) == "" && PhraseRuns(nodes, find).Chosen?
    ensures Picks(PhraseRuns(nodes, find).nodes) == 0
  {
    hide Cut, Full, TextRuns, Picks, Unpicked;
    var full := Full(nodes, true);
    var start := Locate(full, find).start;
    LocatedIffUnique(full, find, start, Locate(full, find).phrase);
    assert OccursAt(full, "", 0) && OccursAt(full, "", |full|);
    NoText(nodes, true, 0, 0);
    UnpickedKeeps(nodes);
  }

  lemma ChoosesIff(nodes: seq<Node>, find: string)
    requires Unpicked(nodes) && find != ""
    ensures PhraseRuns(nodes, find).Chosen? && Picks(PhraseRuns(nodes, find).nodes) > 0 <==> Replaceable(nodes, find)
  {
    hide Cut, Full, Picks, PickedText, PhraseRuns, TextRuns, CutsPlain, Unpick, Cells, Words, Spaced, Squeeze, Occurs, CutsOut,
         Unpicked;
    PhraseRunsSpec(nodes, find);
    SqueezeIsWords(find);
    var (full, c) := (Full(nodes, true), PhraseRuns(nodes, find));
    var phrase := Wanted(full, find);
    assert phrase == if Occurs(full, find) then find else Spaced(Words(find));
    if c.Chosen? {
      if phrase == "" {
        EmptyPhraseChoosesNothing(nodes, find);
      } else if Picks(c.nodes) == 0 {
        NothingChosen(c.nodes);
      }
    }
  }

  /** A replacement is refused exactly if the paragraph holds tracked changes or fields, or there is no one phrase to replace. */
  lemma ReplaceRefusedIff(marked: bool, nodes: seq<Node>, find: string, text: string, next: nat)
    requires Unpicked(nodes)
    ensures Replace(marked, nodes, find, text, next).Done? <==>
            !marked && !Tracked(nodes) && !Complex(nodes) && Replaceable(nodes, find)
  {
    if find == "" {
      hide Tracked, Complex, Full, Replace;
      ReplaceAllRefused(marked, nodes, text, next);
    } else {
      hide Tracked, Complex, Picks, Rewritten, PhraseRuns, Replaceable;
      ChoosesIff(nodes, find);
    }
  }

  // ---------------------------------------------------------------- a whole call

  /** Edit `i` of the call can be made: its text is there and not too long; what is left of a text to insert holds more than
      white space; a replacement finds its phrase in the paragraph as it was read, and no earlier edit rewrites that paragraph. */
  ghost predicate Possible(body: seq<Para>, edits: seq<Edit>, i: nat)
    requires i < |edits| && edits[i].target < |body|
  {
    var (e, p) := (edits[i], body[edits[i].target]);
    && !Blank(e.text) && |e.text| <= 4000
    && match e.mode
       case InsertAfter => !Blank(Clean(e.text))
       case ReplaceText =>
         && !Marked(p) && !Tracked(p.nodes) && !Complex(p.nodes) && Replaceable(p.nodes, e.find)
         && forall j :: 0 <= j < i && edits[j].target == e.target ==> edits[j].mode == InsertAfter
       case AppendText => true
       case UnknownMode => false
  }

  lemma EditPossibleIff(g: Grouped, body: seq<Para>, edits: seq<Edit>, i: nat)
    requires i < |edits| && edits[i].target < |body| == |g.groups| && Unpicked(body[edits[i].target].nodes)
    requires FirstReads(g.groups[edits[i].target].first, body[edits[i].target], edits[..i], edits[i].target)
    requires forall j :: 0 <= j < i ==> edits[j].mode != UnknownMode
    ensures GroupEdit(g, edits[i]).Some? <==> Possible(body, edits, i)
  {
    hide Blank, Clean, Blocks, Replaceable, Replace, Marked, Tracked, Complex, Append, Created, BodyTemplate, Unpicked, Visible,
         ReadsAfter;
    var e := edits[i];
    var (was, first) := (body[e.target], g.groups[e.target].first);
    BlocksUnlessBlank(e.text);
    FirstsAt(g.groups, e.target);
    UntouchedIff(edits, i);
    if Untouched(edits[..i], e.target) {
      ReplaceRefusedIff(Marked(was), was.nodes, e.find, e.text, g.next);
    } else {
      TrackedIsRefused(Marked(first), first.nodes, e.find, e.text, g.next);
    }
  }

  lemma UntouchedIff(edits: seq<Edit>, i: nat)
    requires i < |edits| && forall j :: 0 <= j < i ==> edits[j].mode != UnknownMode
    ensures Untouched(edits[..i], edits[i].target) <==>
            forall j :: 0 <= j < i && edits[j].target == edits[i].target ==> edits[j].mode == InsertAfter
  {
    assert forall j :: 0 <= j < i ==> edits[..i][j] == edits[j] && edits[j] in edits[..i];
  }

  lemma TrackedIsRefused(marked: bool, nodes: seq<Node>, find: string, text: string, next: nat)
    requires Tracked(nodes)
    ensures Replace(marked, nodes, find, text, next).Refused?
  {
    hide Tracked;
  }

  lemma PossibleLonger(body: seq<Para>, before: seq<Edit>, e: Edit, i: nat)
    requires i < |before| && before[i].target < |body|
    ensures Possible(body, before + [e], i) <==> Possible(body, before, i)
  {
    hide Blank, Clean, Replaceable, Marked, Tracked, Complex;
    assert forall j :: 0 <= j <= i ==> (before + [e])[j] == before[j];
  }

  ghost predicate AllPossible(body: seq<Para>, edits: seq<Edit>)
    requires forall e <- edits :: e.target < |body|
  {
    forall i :: 0 <= i < |edits| ==> Possible(body, edits, i)
  }

  lemma PossibleMore(body: seq<Para>, before: seq<Edit>, e: Edit)
    requires (forall f <- before :: f.target < |body|) && e.target < |body|
    ensures AllPossible(body, before + [e]) <==> AllPossible(body, before) && Possible(body, before + [e], |before|)
  {
    hide Possible;
    forall i | 0 <= i < |before| ensures Possible(body, before + [e], i) <==> Possible(body, before, i) {
      PossibleLonger(body, before, e, i);
    }
  }

  lemma LastPossible(body: seq<Para>, lo: nat, before: seq<Edit>, e: Edit)
    requires (forall f <- before :: f.target < |body|) && e.target < |body| && forall p <- body :: Unpicked(p.nodes)
    requires AllPossible(body, before) && RunGroups(Grouped(Start(body), lo, |body|), before).Some?
    ensures GroupEdit(RunGroups(Grouped(Start(body), lo, |body|), before).value, e).Some? <==>
            Possible(body, before + [e], |before|)
  {
    hide GroupEdit, Possible, Start, Unpicked, FirstReads, RunGroups;
    var g := Grouped(Start(body), lo, |body|);
    var edits := before + [e];
    assert edits[..|before|] == before;
    forall i | 0 <= i < |before| ensures edits[i].mode != UnknownMode {
      PossibleMode(body, before, i);
    }
    StartIs(body);
    assert body[e.target] in body;
    RunReads(g, before, e.target);
    EditPossibleIff(RunGroups(g, before).value, body, edits, |before|);
  }

  lemma {:induction false} RunPossible(body: seq<Para>, lo: nat, edits: seq<Edit>)
    requires (forall e <- edits :: e.target < |body|) && forall p <- body :: Unpicked(p.nodes)
    ensures RunGroups(Grouped(Start(body), lo, |body|), edits).Some? <==> AllPossible(body, edits)
  {
    hide GroupEdit, Possible, Start, Unpicked;
    if edits != [] {
      var (before, e) := (edits[..|edits| - 1], edits[|edits| - 1]);
      assert edits == before + [e];
      RunPossible(body, lo, before);
      PossibleMore(body, before, e);
      if RunGroups(Grouped(Start(body), lo, |body|), before).Some? { LastPossible(body, lo, before, e); }
    }
  }

  lemma PossibleMode(body: seq<Para>, edits: seq<Edit>, i: nat)
    requires i < |edits| && edits[i].target < |body| && Possible(body, edits, i)
    ensures edits[i].mode != UnknownMode
  {
    hide Blank, Clean, Replaceable, Marked, Tracked, Complex;
  }

  /** What a request asks for once its reference has named a paragraph. */
  function Asks(body: seq<Para>, r: Request): Edit
    requires Resolve(body, r.ref).Some?
  {
    Edit(Resolve(body, r.ref).value, r.mode, r.find, r.text)
  }

  /** Exactly which calls succeed: at most twelve requests by a named author, each with a reference that names a paragraph, and
      each possible in the document as it was read. Any other call gives no document at all. */
  lemma CallSucceedsIff(body: seq<Para>, others: seq<nat>, author: string, requests: seq<Request>)
    requires Numbered(body) && forall p <- body :: Unpicked(p.nodes)
    ensures ApplyChanges(body, others, author, requests).Some? <==>
            && |requests| <= 12 && !Blank(author)
            && (forall i :: 0 <= i < |requests| ==> Resolve(body, requests[i].ref).Some?)
            && var edits := ResolveAll(body, requests);
            && edits.Some? && |edits.value| == |requests|
            && forall i :: 0 <= i < |requests| ==>
                 && edits.value[i] == Asks(body, requests[i]) && edits.value[i].target < |body| && Possible(body, edits.value, i)
  {
    hide ApplyChanges, ResolveAll, Resolve, RunGroups, Possible, Blank, FirstMinted, Unpicked, Numbered;
    CallLimitsIff(body, others, author, requests);
    ResolvesAll(body, requests);
    if |requests| <= MAX_EDITS && !Blank(author) && ResolveAll(body, requests).Some? {
      CallRefinesGroups(body, others, author, requests);
      RunPossible(body, FirstMinted(body, others), ResolveAll(body, requests).value);
    }
  }

  lemma CallLimitsIff(body: seq<Para>, others: seq<nat>, author: string, requests: seq<Request>)
    ensures |requests| > MAX_EDITS || Blank(author) || ResolveAll(body, requests).None? ==>
              ApplyChanges(body, others, author, requests).None?
  {
    hide ApplyAll, ResolveAll, BodyIds, Blank;
  }

  lemma {:induction false} ResolvesAll(body: seq<Para>, requests: seq<Request>)
    ensures var edits := ResolveAll(body, requests);
      && (edits.Some? <==> forall i :: 0 <= i < |requests| ==> Resolve(body, requests[i].ref).Some?)
      && (edits.Some? ==>
            && |edits.value| == |requests| && (forall e <- edits.value :: e.target < |body|)
            && forall i :: 0 <= i < |requests| ==>
                 edits.value[i] == Asks(body, requests[i]))
  {
    hide Resolve;
    if requests != [] {
      var (before, last) := (requests[..|requests| - 1], requests[|requests| - 1]);
      ResolvesAll(body, before);
      ResolvedInside(body, last.ref);
      assert forall i :: 0 <= i < |before| ==> requests[i] == before[i];
    }
  }
}
