/** What a whole call promises when its revisions are accepted: each paragraph reads as its edits ask, and what was asked
    to stand behind it follows in request order. */
module DocReading {
  import opened Options
  import opened DocText
  import opened DocTree
  import opened DocRuns
  import opened DocPhrase
  import opened DocParagraph
  import opened DocReplace
  import opened DocAccept
  import opened DocBody
  import opened DocGroups
  import opened DocTheorems

  // ---------------------------------------------------------------- insertions stand in request order

  function PlainBlocks(blocks: seq<string>): seq<string> {
    if blocks == [] then [] else [Unmarked(Clean(blocks[0]))] + PlainBlocks(blocks[1..])
  }

  /** What was asked to stand after paragraph `i`, request by request. */
  function Requested(edits: seq<Edit>, i: nat): seq<string> {
    if edits == [] then []
    else
      var e := edits[|edits| - 1];
      Requested(edits[..|edits| - 1], i) + if e.mode == InsertAfter && e.target == i then PlainBlocks(Blocks(e.text)) else []
  }

  function TextsOf(paras: seq<Para>): seq<string> {
    if paras == [] then [] else [Visible(paras[0].nodes)] + TextsOf(paras[1..])
  }

  lemma {:induction false} TextsAppend(a: seq<Para>, b: seq<Para>)
    ensures TextsOf(a + b) == TextsOf(a) + TextsOf(b)
  {
    hide Visible, TextsOf;
    if a == [] {
      NoTexts();
      assert a + b == b;
    } else {
      TextsHead(a);
      TextsHead(a + b);
      TextsAppend(a[1..], b);
      assert (a + b)[1..] == a[1..] + b && (a + b)[0] == a[0];
    }
  }

  lemma TextsHead(paras: seq<Para>)
    requires paras != []
    ensures TextsOf(paras) == [Visible(paras[0].nodes)] + TextsOf(paras[1..])
  {
    hide Visible;
  }

  lemma NoTexts()
    ensures TextsOf([]) == []
  {
  }

  lemma {:induction false} CreatedTexts(blocks: seq<string>, template: Option<Para>, next: nat, eid: nat)
    ensures TextsOf(Created(blocks, template, next, eid)) == PlainBlocks(blocks)
  {
    hide Visible, Inserted, Template, Clean, Unmarked, NewLayout;
    if blocks != [] {
      CreatedTexts(blocks[1..], template, next + 2, eid + 1);
      var fmt := if template.Some? then Template(template.value.nodes) else None;
      InsertedSettles(next + 1, blocks[0], fmt, next + 1, next + 2);
      assert Created(blocks, template, next, eid)[1..] == Created(blocks[1..], template, next + 2, eid + 1);
    }
  }

  // ---------------------------------------------------------------- what a rewritten paragraph reads

  /** The paragraph once a phrase, or all its text, is exchanged. */
  ghost function ReadsReplaced(nodes: seq<Node>, find: string, text: string): string {
    if exists a: nat, b: nat :: Replaces(Full(nodes, true), find, a, b) then
      var a: nat, b: nat :| Replaces(Full(nodes, true), find, a, b);
      Exchanged(nodes, a, b, Unmarked(Clean(text)))
    else ""
  }

  /** Paragraph `i` after the edits: a replacement is made in the paragraph as it was, since anything before it would have
      it refused; additions come at the end, after a space where one is needed. */
  ghost function ReadsAfter(nodes: seq<Node>, edits: seq<Edit>, i: nat): string {
    if edits == [] then Visible(nodes)
    else
      var (before, e) := (ReadsAfter(nodes, edits[..|edits| - 1], i), edits[|edits| - 1]);
      if e.target != i then before
      else
        match e.mode
        case ReplaceText => ReadsReplaced(nodes, e.find, e.text)
        case AppendText => before + Unmarked(Clean(Prefix(before, e.text) + e.text))
        case InsertAfter => before
        case UnknownMode => before
  }

  predicate Rewrites(e: Edit, i: nat) {
    (e.mode == ReplaceText || e.mode == AppendText) && e.target == i
  }

  predicate Untouched(edits: seq<Edit>, i: nat) {
    forall e <- edits :: !Rewrites(e, i)
  }

  ghost predicate FirstReads(first: Para, was: Para, edits: seq<Edit>, i: nat) {
    && first == was.(nodes := first.nodes)
    && Visible(first.nodes) == ReadsAfter(was.nodes, edits, i)
    && (Untouched(edits, i) ==> first == was) && (!Untouched(edits, i) ==> Tracked(first.nodes))
  }

  lemma ReplaceReads(marked: bool, nodes: seq<Node>, find: string, text: string, next: nat)
    requires Unpicked(nodes) && Replace(marked, nodes, find, text, next).Done?
    ensures var new' := Replace(marked, nodes, find, text, next).nodes;
      Visible(new') == ReadsReplaced(nodes, find, text) && Tracked(new') && !marked && !Tracked(nodes)
  {
    hide Visible, Full, Clean, Unmarked, Replaces, Exchanged, Choose, AfterLast, Strike, Template, Picks, Unpick, Settle, Complex,
         Tracked, Inserted, Unpicked;
    var new' := Replace(marked, nodes, find, text, next).nodes;
    ReplaceAccepted(marked, nodes, find, text, next, 0, 0);
    VisibleIsAccepted(0, 0, new');
    var a: nat, b: nat :| Replaces(Full(nodes, true), find, a, b)
                          && Visible(Settle(true, 0, 0, new')) == Exchanged(nodes, a, b, Unmarked(Clean(text)));
    forall c: nat, d: nat | Replaces(Full(nodes, true), find, c, d) ensures c == a && d == b {
      ReplacesOnce(Full(nodes, true), find, a, b, c, d);
    }
    var c := Choose(nodes, find).nodes;
    InsertedIsTracked(Strike(c[..AfterLast(c)], next), next + Picks(c), text, Template(Unpick(c)), c[AfterLast(c)..]);
  }

  lemma AppendReads(nodes: seq<Node>, text: string, next: nat)
    ensures var new' := Append(nodes, text, next);
      Visible(new') == Visible(nodes) + Unmarked(Clean(Prefix(Visible(nodes), text) + text)) && Tracked(new')
  {
    hide Visible, Clean, Unmarked, Prefix, Template, Settle, Tracked, Inserted;
    var new' := Append(nodes, text, next);
    AppendSettles(nodes, text, next, next, next + 1);
    VisibleIsAccepted(next, next + 1, new');
    InsertedIsTracked(nodes, next, Prefix(Visible(nodes), text) + text, Template(nodes), []);
    assert new' + [] == new';
  }

  lemma UntouchedMore(edits: seq<Edit>, e: Edit, i: nat)
    ensures Untouched(edits + [e], i) <==> Untouched(edits, i) && !Rewrites(e, i)
  {
    assert e in edits + [e];
    assert forall x <- edits :: x in edits + [e];
  }

  lemma ReadsMore(nodes: seq<Node>, edits: seq<Edit>, e: Edit, i: nat)
    ensures var before := ReadsAfter(nodes, edits, i);
      ReadsAfter(nodes, edits + [e], i) ==
      if !Rewrites(e, i) then before
      else if e.mode == ReplaceText then ReadsReplaced(nodes, e.find, e.text)
      else before + Unmarked(Clean(Prefix(before, e.text) + e.text))
  {
    hide ReadsReplaced, Visible, Clean, Unmarked, Prefix;
    assert (edits + [e])[..|edits|] == edits;
  }

  lemma {:induction false} EditReads(g: Grouped, edits: seq<Edit>, e: Edit, i: nat, was: Para)
    requires GroupEdit(g, e).Some? && i < |g.groups| && Unpicked(was.nodes) && FirstReads(g.groups[i].first, was, edits, i)
    ensures var h := GroupEdit(g, e).value;
      && |h.groups| == |g.groups| && FirstReads(h.groups[i].first, was, edits + [e], i)
      && TextsOf(h.groups[i].made) == TextsOf(g.groups[i].made)
           + (if e.mode == InsertAfter && e.target == i then PlainBlocks(Blocks(e.text)) else [])
  {
    hide Visible, Replace, Append, Created, Blocks, BodyTemplate, GoodText, Marked, PlainBlocks, ReadsAfter, ReadsReplaced, Clean,
         Unmarked, Prefix, Tracked, Untouched, TextsOf, Unpicked, Firsts;
    FirstsAt(g.groups, e.target);
    UntouchedMore(edits, e, i);
    ReadsMore(was.nodes, edits, e, i);
    if e.target == i {
      var first := g.groups[i].first;
      match e.mode {
        case InsertAfter =>
          var created := Created(Blocks(e.text), BodyTemplate(Firsts(g.groups), e.target), g.next, g.made);
          CreatedTexts(Blocks(e.text), BodyTemplate(Firsts(g.groups), e.target), g.next, g.made);
          TextsAppend(g.groups[i].made, created);
        case ReplaceText =>
          RefusesTracked(Marked(first), first.nodes, e.find, e.text, g.next);
          ReplaceReads(Marked(first), first.nodes, e.find, e.text, g.next);
        case AppendText => AppendReads(first.nodes, e.text, g.next);
      }
    }
  }

  lemma RefusesTracked(marked: bool, nodes: seq<Node>, find: string, text: string, next: nat)
    requires Replace(marked, nodes, find, text, next).Done?
    ensures !Tracked(nodes)
  {
    hide Tracked, Complex, Choose, Rewritten;
  }

  lemma {:induction false} RunReads(g: Grouped, edits: seq<Edit>, i: nat)
    requires RunGroups(g, edits).Some? && i < |g.groups| && g.groups[i].made == [] && Unpicked(g.groups[i].first.nodes)
    ensures var h := RunGroups(g, edits).value;
      && |h.groups| == |g.groups| && FirstReads(h.groups[i].first, g.groups[i].first, edits, i)
      && TextsOf(h.groups[i].made) == Requested(edits, i)
  {
    hide GroupEdit, PlainBlocks, Blocks, Visible, FirstReads, Unpicked;
    if edits == [] {
      NothingRead(g.groups[i].first, i);
    } else {
      var (before, e) := (edits[..|edits| - 1], edits[|edits| - 1]);
      assert before + [e] == edits;
      RunReads(g, before, i);
      EditReads(RunGroups(g, before).value, before, e, i, g.groups[i].first);
    }
  }

  lemma NothingRead(p: Para, i: nat)
    ensures FirstReads(p, p, [], i)
  {
    hide Visible;
  }

  /** In the edited document each original paragraph keeps its identity, its mark and its layout and reads as its edits ask;
      it is followed by exactly the blocks asked for after it, request by request, without their bold marks; and paragraphs
      that no request rewrites are untouched. */
  lemma InsertionsStandInRequestOrder(body: seq<Para>, others: seq<nat>, author: string, requests: seq<Request>)
    requires Numbered(body) && ApplyChanges(body, others, author, requests).Some? && forall p <- body :: Unpicked(p.nodes)
    ensures var s := ApplyChanges(body, others, author, requests).value;
      var edits := ResolveAll(body, requests);
      edits.Some? && exists groups: seq<Group> ::
        && |groups| == |body| && s.body == Flatten(groups)
        && forall i :: 0 <= i < |body| ==> InOrder(groups[i], body[i], edits.value, i)
  {
    hide ApplyChanges, Flatten, RunGroups, FirstMinted, Requested, TextsOf, FirstReads, Unpicked;
    CallLimits(body, others, author, requests);
    CallRefinesGroups(body, others, author, requests);
    StartIs(body);
    var g := Grouped(Start(body), FirstMinted(body, others), |body|);
    var edits := ResolveAll(body, requests).value;
    var groups := RunGroups(g, edits).value.groups;
    forall i | 0 <= i < |body| ensures InOrder(groups[i], body[i], edits, i) {
      assert body[i] in body;
      RunReads(g, edits, i);
      ReadsGive(groups[i].first, body[i], edits, i);
    }
  }

  ghost predicate InOrder(g: Group, was: Para, edits: seq<Edit>, i: nat) {
    && g.first == was.(nodes := g.first.nodes) && Visible(g.first.nodes) == ReadsAfter(was.nodes, edits, i)
    && TextsOf(g.made) == Requested(edits, i)
    && (Untouched(edits, i) ==> g.first == was)
  }

  lemma ReadsGive(first: Para, was: Para, edits: seq<Edit>, i: nat)
    requires FirstReads(first, was, edits, i)
    ensures first == was.(nodes := first.nodes) && Visible(first.nodes) == ReadsAfter(was.nodes, edits, i)
    ensures Untouched(edits, i) ==> first == was
  {
    hide Visible, ReadsAfter, Untouched, Tracked;
  }

  // ---------------------------------------------------------------- accepting the whole call

  function AcceptMarks(lo: nat, hi: nat, marks: seq<Mark>): seq<Mark> {
    if marks == [] then []
    else (if marks[0].tag.InsTag? && Minted(marks[0].id, lo, hi) then [] else [marks[0]]) + AcceptMarks(lo, hi, marks[1..])
  }

  /** Accepting the insertions and deletions of a range, and the insertions of paragraph marks. */
  function AcceptBody(lo: nat, hi: nat, body: seq<Para>): seq<Para> {
    if body == [] then []
    else [body[0].(nodes := Settle(true, lo, hi, body[0].nodes), marks := AcceptMarks(lo, hi, body[0].marks))]
         + AcceptBody(lo, hi, body[1..])
  }

  lemma {:induction false} MarksAccepted(lo: nat, hi: nat, marks: seq<Mark>)
    ensures forall m <- AcceptMarks(lo, hi, marks) :: !(m.tag.InsTag? && Minted(m.id, lo, hi))
  {
    if marks != [] { MarksAccepted(lo, hi, marks[1..]); }
  }

  lemma {:induction false} AcceptedIsUnminted(lo: nat, hi: nat, nodes: seq<Node>)
    ensures Unminted(lo, hi, Settle(true, lo, hi, nodes))
  {
    if nodes != [] {
      AcceptedIsUnminted(lo, hi, nodes[1..]);
      var head := if nodes[0].R? then [nodes[0]]
                  else Settled(true, lo, hi, nodes[0].tag, nodes[0].id, Settle(true, lo, hi, nodes[0].kids));
      UnmintedAppend(lo, hi, head, Settle(true, lo, hi, nodes[1..]));
      if nodes[0].Box? {
        AcceptedIsUnminted(lo, hi, nodes[0].kids);
      }
    }
  }

  lemma {:induction false} AcceptReads(lo: nat, hi: nat, body: seq<Para>)
    ensures TextsOf(AcceptBody(lo, hi, body)) == TextsOf(body)
    ensures forall p <- AcceptBody(lo, hi, body) :: Unminted(lo, hi, p.nodes) && !MintedMarks(p, lo, hi)
  {
    hide Settle, Visible, Unminted, TextsOf, AcceptMarks;
    if body == [] {
      NoTexts();
    } else {
      AcceptReads(lo, hi, body[1..]);
      VisibleIsAccepted(lo, hi, body[0].nodes);
      AcceptedIsUnminted(lo, hi, body[0].nodes);
      MarksAccepted(lo, hi, body[0].marks);
      TextsHead(body);
      TextsHead(AcceptBody(lo, hi, body));
      assert AcceptBody(lo, hi, body)[1..] == AcceptBody(lo, hi, body[1..]);
    }
  }

  /** The texts asked for, from paragraph `i` on: each paragraph as rewritten, then what was asked to stand behind it. */
  ghost function Asked(body: seq<Para>, edits: seq<Edit>, i: nat): seq<string>
    decreases |body| - i
  {
    if i >= |body| then []
    else [ReadsAfter(body[i].nodes, edits, i)] + Requested(edits, i) + Asked(body, edits, i + 1)
  }

  lemma {:induction false} GroupsRead(groups: seq<Group>, body: seq<Para>, edits: seq<Edit>, i: nat)
    requires |groups| == |body| && i <= |body|
    requires forall k :: 0 <= k < |body| ==> InOrder(groups[k], body[k], edits, k)
    ensures TextsOf(Flatten(groups[i..])) == Asked(body, edits, i)
    decreases |body| - i
  {
    hide TextsOf, ReadsAfter, Requested, Visible, Untouched, InOrder;
    if i == |body| {
      NoTexts();
    } else {
      var (g, rest) := (groups[i], groups[i + 1..]);
      assert groups[i..][1..] == rest && groups[i..][0] == g;
      GroupsRead(groups, body, edits, i + 1);
      TextsAppend(Members(g), Flatten(rest));
      TextsAppend([g.first], g.made);
      OneText(g.first);
      OrderGives(g, body[i], edits, i);
    }
  }

  lemma OneText(p: Para)
    ensures TextsOf([p]) == [Visible(p.nodes)]
  {
    hide Visible;
    assert [p][1..] == [];
  }

  lemma OrderGives(g: Group, was: Para, edits: seq<Edit>, i: nat)
    requires InOrder(g, was, edits, i)
    ensures Visible(g.first.nodes) == ReadsAfter(was.nodes, edits, i) && TextsOf(g.made) == Requested(edits, i)
  {
    hide Visible, ReadsAfter, Requested, TextsOf;
  }

  /** Accepting the revisions of a call, whatever its edits are: the document reads, paragraph by paragraph, exactly what
      was asked for, and no revision of the call is left. */
  lemma AcceptingGivesWhatWasAsked(body: seq<Para>, others: seq<nat>, author: string, requests: seq<Request>)
    requires Numbered(body) && ApplyChanges(body, others, author, requests).Some? && forall p <- body :: Unpicked(p.nodes)
    ensures var s := ApplyChanges(body, others, author, requests).value;
      var (lo, hi, edits) := (FirstMinted(body, others), s.next, ResolveAll(body, requests));
      && edits.Some? && TextsOf(AcceptBody(lo, hi, s.body)) == Asked(body, edits.value, 0)
      && forall p <- AcceptBody(lo, hi, s.body) :: Unminted(lo, hi, p.nodes) && !MintedMarks(p, lo, hi)
  {
    hide ApplyChanges, FirstMinted, TextsOf, AcceptBody, Unpicked, InOrder, Flatten, ResolveAll, Asked, Unminted, MintedMarks;
    InsertionsStandInRequestOrder(body, others, author, requests);
    var s := ApplyChanges(body, others, author, requests).value;
    var edits := ResolveAll(body, requests).value;
    var groups: seq<Group> :| |groups| == |body| && s.body == Flatten(groups)
                              && forall i :: 0 <= i < |body| ==> InOrder(groups[i], body[i], edits, i);
    GroupsRead(groups, body, edits, 0);
    assert groups[0..] == groups;
    AcceptReads(FirstMinted(body, others), s.next, s.body);
  }
}
