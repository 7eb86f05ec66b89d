/** What a whole call promises when its revisions are rejected: the document is given back. */
module DocTheorems {
  import opened Options
  import opened DocText
  import opened DocTree
  import opened DocRuns
  import opened DocPhrase
  import opened DocParagraph
  import opened DocReplace
  import opened DocBody
  import opened DocGroups

  // ---------------------------------------------------------------- the call as edits of groups

  function Start(body: seq<Para>): seq<Group> {
    if body == [] then [] else [Group(body[0], [])] + Start(body[1..])
  }

  function RunGroups(g: Grouped, edits: seq<Edit>): Option<Grouped> {
    if edits == [] then Some(g)
    else
      var before := RunGroups(g, edits[..|edits| - 1]);
      if before.None? then None else GroupEdit(before.value, edits[|edits| - 1])
  }

  lemma StartHead(body: seq<Para>)
    requires body != []
    ensures Start(body) == [Group(body[0], [])] + Start(body[1..])
    ensures Flatten([Group(body[0], [])] + Start(body[1..])) == [body[0]] + Flatten(Start(body[1..]))
  {
    var g := Group(body[0], []);
    assert ([g] + Start(body[1..]))[1..] == Start(body[1..]);
    assert Members(g) == [body[0]];
  }

  lemma {:induction false} StartIs(body: seq<Para>)
    ensures Flatten(Start(body)) == body && |Start(body)| == |body|
    ensures forall i :: 0 <= i < |body| ==> Start(body)[i] == Group(body[i], [])
  {
    if body != [] {
      hide Start, Flatten;
      StartIs(body[1..]);
      StartHead(body);
      assert [body[0]] + body[1..] == body;
    }
  }

  lemma {:induction false} RunRefines(s: State, n: nat, g: Grouped, edits: seq<Edit>)
    requires Refines(s, n, g) && forall e <- edits :: e.target < n
    ensures ApplyAll(s, n, edits).Some? <==> RunGroups(g, edits).Some?
    ensures ApplyAll(s, n, edits).Some? ==> Refines(ApplyAll(s, n, edits).value, n, RunGroups(g, edits).value)
  {
    hide Refines, ApplyEdit, GroupEdit;
    if edits != [] {
      var before := edits[..|edits| - 1];
      RunRefines(s, n, g, before);
      if RunGroups(g, before).Some? {
        EditRefines(ApplyAll(s, n, before).value, n, RunGroups(g, before).value, edits[|edits| - 1]);
      }
    }
  }

  lemma {:induction false} TargetsResolved(body: seq<Para>, requests: seq<Request>)
    requires ResolveAll(body, requests).Some?
    ensures |ResolveAll(body, requests).value| == |requests|
    ensures forall e <- ResolveAll(body, requests).value :: e.target < |body|
  {
    if requests != [] {
      TargetsResolved(body, requests[..|requests| - 1]);
      ResolvedInside(body, requests[|requests| - 1].ref);
    }
  }

  lemma ResolvedInside(body: seq<Para>, ref: Ref)
    ensures Resolve(body, ref).Some? ==> Resolve(body, ref).value < |body|
  {
    if ref.ById? { IndexInside(body, ref.id); }
  }

  lemma {:induction false} IndexInside(body: seq<Para>, id: string)
    ensures IndexOfId(body, id).Some? ==> IndexOfId(body, id).value < |body|
  {
    if body != [] { IndexInside(body[1..], id); }
  }

  function FirstMinted(body: seq<Para>, others: seq<nat>): nat {
    FirstId(BodyIds(body) + others)
  }

  function EditedGroups(body: seq<Para>, others: seq<nat>, requests: seq<Request>): Option<Grouped> {
    var edits := ResolveAll(body, requests);
    if edits.None? then None else RunGroups(Grouped(Start(body), FirstMinted(body, others), |body|), edits.value)
  }

  /** The call on the flat body, with its table of last insertions, is the call on the groups. */
  lemma CallRefinesGroups(body: seq<Para>, others: seq<nat>, author: string, requests: seq<Request>)
    requires Numbered(body) && |requests| <= MAX_EDITS && !Blank(author)
    ensures var s := ApplyChanges(body, others, author, requests);
      var g := EditedGroups(body, others, requests);
      && (s.Some? <==> g.Some?)
      && (s.Some? ==> s.value.body == Flatten(g.value.groups) && s.value.next == g.value.next && |g.value.groups| == |body|)
  {
    hide ApplyAll, RunGroups, ResolveAll, Flatten, Refines, BodyIds, FirstId;
    if ResolveAll(body, requests).Some? {
      TargetsResolved(body, requests);
      var lo := FirstMinted(body, others);
      var (s, g) := (State(body, lo, |body|, map[]), Grouped(Start(body), lo, |body|));
      StartRefines(body, lo);
      RunRefines(s, |body|, g, ResolveAll(body, requests).value);
      if ApplyAll(s, |body|, ResolveAll(body, requests).value).Some? {
        RefinesGives(ApplyAll(s, |body|, ResolveAll(body, requests).value).value, |body|,
                     RunGroups(g, ResolveAll(body, requests).value).value);
      }
    }
  }

  lemma StartRefines(body: seq<Para>, lo: nat)
    requires Numbered(body)
    ensures Refines(State(body, lo, |body|, map[]), |body|, Grouped(Start(body), lo, |body|))
  {
    hide Flatten, Start;
    StartIs(body);
  }

  lemma RefinesGives(s: State, n: nat, g: Grouped)
    requires Refines(s, n, g)
    ensures s.body == Flatten(g.groups) && s.next == g.next && |g.groups| == n
  {
    hide Flatten, LastOk, OwnIds;
  }

  // ---------------------------------------------------------------- rejecting

  predicate MintedMarks(p: Para, lo: nat, hi: nat) {
    exists m <- p.marks :: m.tag.InsTag? && Minted(m.id, lo, hi)
  }

  /** Rejecting an inserted paragraph mark lets what is left of the paragraph run on into the next one. */
  function RejectBody(lo: nat, hi: nat, body: seq<Para>): seq<Para> {
    if body == [] then []
    else
      var rest := RejectBody(lo, hi, body[1..]);
      var p := body[0].(nodes := Settle(false, lo, hi, body[0].nodes));
      if !MintedMarks(p, lo, hi) then [p] + rest
      else if rest == [] then (if p.nodes == [] then [] else [p])
      else [rest[0].(nodes := p.nodes + rest[0].nodes)] + rest[1..]
  }

  /** The same paragraph, whatever became of its run boundaries. */
  ghost predicate SamePara(p: Para, q: Para) {
    p == q.(nodes := p.nodes) && Cells(p.nodes) == Cells(q.nodes)
  }

  ghost predicate FirstOk(first: Para, was: Para, lo: nat, hi: nat) {
    && first == was.(nodes := first.nodes)
    && Cells(Settle(false, lo, hi, first.nodes)) == Cells(was.nodes)
    && (Settle(false, lo, hi, first.nodes) == [] <==> was.nodes == [])
    && (!Tracked(first.nodes) ==> first.nodes == was.nodes)
  }

  predicate MadeOk(p: Para, lo: nat, hi: nat) {
    MintedMarks(p, lo, hi) && Settle(false, lo, hi, p.nodes) == []
  }

  ghost predicate Rejectable(g: Grouped, body: seq<Para>, lo: nat, hi: nat) {
    && |g.groups| == |body| && lo <= g.next
    && forall i :: 0 <= i < |body| ==>
         FirstOk(g.groups[i].first, body[i], lo, hi) && forall p <- g.groups[i].made :: MadeOk(p, lo, hi)
  }

  /** A paragraph without stray deleted text and without a revision inside whose id the call is about to mint. */
  ghost predicate Original(p: Para, lo: nat, hi: nat) {
    WellFormed(p.nodes) && Unpicked(p.nodes) && Unminted(lo, hi, p.nodes)
  }

  lemma {:induction false} TrackedAppend(a: seq<Node>, b: seq<Node>)
    ensures Tracked(a + b) <==> Tracked(a) || Tracked(b)
  {
    hide RevisedFormat;
    if a == [] {
      assert a + b == b;
    } else {
      TrackedAppend(a[1..], b);
      assert (a + b)[1..] == a[1..] + b && (a + b)[0] == a[0];
    }
  }

  lemma InsertedIsTracked(a: seq<Node>, id: nat, text: string, fmt: Option<Format>, b: seq<Node>)
    ensures Tracked(a + [Inserted(id, text, fmt)] + b)
  {
    hide NewRuns;
    TrackedAppend(a + [Inserted(id, text, fmt)], b);
    TrackedAppend(a, [Inserted(id, text, fmt)]);
  }

  lemma ReplaceKeepsFirst(first: Para, was: Para, find: string, text: string, next: nat, lo: nat, hi: nat)
    requires FirstOk(first, was, lo, hi) && Original(was, lo, hi)
    requires Replace(Marked(first), first.nodes, find, text, next).Done?
    requires lo <= next && Replace(Marked(first), first.nodes, find, text, next).next <= hi
    ensures FirstOk(first.(nodes := Replace(Marked(first), first.nodes, find, text, next).nodes), was, lo, hi)
    ensures next <= Replace(Marked(first), first.nodes, find, text, next).next
  {
    hide Cells, Settle, WellFormed, Unpicked, Choose, Strike, Inserted, Template, AfterLast, Unpick, Picks, Complex, Tracked,
         Unminted;
    ReplaceRejected(Marked(first), first.nodes, find, text, next, lo, hi);
    var c := Choose(first.nodes, find).nodes;
    InsertedIsTracked(Strike(c[..AfterLast(c)], next), next + Picks(c), text, Template(Unpick(c)), c[AfterLast(c)..]);
  }

  lemma AppendKeepsFirst(first: Para, was: Para, text: string, next: nat, lo: nat, hi: nat)
    requires FirstOk(first, was, lo, hi) && lo <= next < hi
    ensures FirstOk(first.(nodes := Append(first.nodes, text, next)), was, lo, hi)
  {
    hide Cells, Settle, Inserted, Template, Tracked, Prefix, Visible;
    AppendSettles(first.nodes, text, next, lo, hi);
    var nodes := Append(first.nodes, text, next);
    InsertedIsTracked(first.nodes, next, Prefix(Visible(first.nodes), text) + text, Template(first.nodes), []);
    assert nodes + [] == nodes;
  }

  lemma CreatedRejects(blocks: seq<string>, template: Option<Para>, next: nat, eid: nat, lo: nat, hi: nat)
    requires lo <= next && next + 2 * |blocks| <= hi
    ensures forall p <- Created(blocks, template, next, eid) :: MadeOk(p, lo, hi)
  {
    hide Settle, Inserted, Template, Created;
    var c := Created(blocks, template, next, eid);
    CreatedShape(blocks, template, next, eid);
    forall p | p in c ensures MadeOk(p, lo, hi) {
      var j :| 0 <= j < |c| && c[j] == p;
      InsertedSettles(next + 2 * j + 1, blocks[j], if template.Some? then Template(template.value.nodes) else None, lo, hi);
      assert p.marks[0] in p.marks;
    }
  }

  lemma EditRejectable(g: Grouped, e: Edit, body: seq<Para>, lo: nat, hi: nat)
    requires Rejectable(g, body, lo, hi) && forall p <- body :: Original(p, lo, hi)
    requires GroupEdit(g, e).Some? && GroupEdit(g, e).value.next <= hi
    ensures g.next <= GroupEdit(g, e).value.next
    ensures Rejectable(GroupEdit(g, e).value, body, lo, hi)
  {
    hide FirstOk, MadeOk, Original, Replace, Append, Created, Blocks, BodyTemplate, GoodText, Marked;
    var t := e.target;
    assert Original(body[t], lo, hi);
    FirstsAt(g.groups, t);
    match e.mode {
      case InsertAfter => CreatedRejects(Blocks(e.text), BodyTemplate(Firsts(g.groups), t), g.next, g.made, lo, hi);
      case ReplaceText => ReplaceKeepsFirst(g.groups[t].first, body[t], e.find, e.text, g.next, lo, hi);
      case AppendText => AppendKeepsFirst(g.groups[t].first, body[t], e.text, g.next, lo, hi);
    }
  }

  lemma {:induction false} RunRejectable(g: Grouped, edits: seq<Edit>, body: seq<Para>, lo: nat, hi: nat)
    requires Rejectable(g, body, lo, hi) && forall p <- body :: Original(p, lo, hi)
    requires RunGroups(g, edits).Some? && RunGroups(g, edits).value.next <= hi
    ensures Rejectable(RunGroups(g, edits).value, body, lo, hi)
  {
    hide Rejectable, Original, GroupEdit;
    if edits != [] {
      var before := edits[..|edits| - 1];
      NextGrows(RunGroups(g, before).value, edits[|edits| - 1]);
      RunRejectable(g, before, body, lo, hi);
      EditRejectable(RunGroups(g, before).value, edits[|edits| - 1], body, lo, hi);
    }
  }

  lemma NextGrows(g: Grouped, e: Edit)
    requires GroupEdit(g, e).Some?
    ensures g.next <= GroupEdit(g, e).value.next
  {
    hide Choose, Append, Created, Blocks, BodyTemplate, GoodText, Marked, Rewritten, Picks;
  }

  lemma {:induction false} RejectMade(made: seq<Para>, rest: seq<Para>, lo: nat, hi: nat)
    requires forall p <- made :: MadeOk(p, lo, hi)
    ensures RejectBody(lo, hi, made + rest) == RejectBody(lo, hi, rest)
  {
    hide Settle;
    if made == [] {
      assert made + rest == rest;
    } else {
      RejectMade(made[1..], rest, lo, hi);
      assert (made + rest)[1..] == made[1..] + rest && (made + rest)[0] == made[0];
      assert made[0] in made;
      var after := RejectBody(lo, hi, rest);
      if after != [] {
        assert [] + after[0].nodes == after[0].nodes;
        assert [after[0]] + after[1..] == after;
      }
    }
  }

  /** Every original paragraph is back, in order. */
  ghost predicate GivenBack(back: seq<Para>, body: seq<Para>) {
    |back| == |body| && forall i :: 0 <= i < |body| ==> SamePara(back[i], body[i])
  }

  /** No inserted paragraph mark has an id in the range, save that of a last paragraph with content, which has no next
      paragraph to run on into. */
  predicate MarksApart(body: seq<Para>, lo: nat, hi: nat) {
    forall i :: 0 <= i < |body| && MintedMarks(body[i], lo, hi) ==> i == |body| - 1 && body[i].nodes != []
  }

  lemma MarksTail(body: seq<Para>, lo: nat, hi: nat)
    requires body != []
    ensures MarksApart(body, lo, hi) <==>
            && MarksApart(body[1..], lo, hi)
            && (MintedMarks(body[0], lo, hi) ==> |body| == 1 && body[0].nodes != [])
  {
    hide MintedMarks;
    var rest := body[1..];
    assert forall i :: 0 <= i < |rest| ==> rest[i] == body[i + 1];
    if MarksApart(body, lo, hi) {
      forall i | 0 <= i < |rest| && MintedMarks(rest[i], lo, hi) ensures i == |rest| - 1 && rest[i].nodes != [] {
        assert rest[i] == body[i + 1];
      }
    }
    if MarksApart(rest, lo, hi) && (MintedMarks(body[0], lo, hi) ==> |body| == 1 && body[0].nodes != []) {
      forall i | 0 <= i < |body| && MintedMarks(body[i], lo, hi) ensures i == |body| - 1 && body[i].nodes != [] {
        if i > 0 { assert body[i] == rest[i - 1]; }
      }
    }
  }

  lemma GivenBackHead(p: Para, back: seq<Para>, body: seq<Para>)
    requires body != [] && SamePara(p, body[0])
    ensures GivenBack([p] + back, body) <==> GivenBack(back, body[1..])
  {
    hide SamePara;
    var (all, rest) := ([p] + back, body[1..]);
    assert forall i :: 0 <= i < |back| ==> all[i + 1] == back[i];
    if GivenBack(all, body) {
      forall i | 0 <= i < |rest| ensures SamePara(back[i], rest[i]) {
        assert all[i + 1] == back[i] && body[i + 1] == rest[i];
      }
    }
    if GivenBack(back, rest) {
      forall i | 0 <= i < |body| ensures SamePara(all[i], body[i]) {
        if i > 0 { assert all[i] == back[i - 1] && body[i] == rest[i - 1]; }
      }
    }
  }

  /** Rejecting keeps the number of paragraphs only if every mark stays. */
  lemma {:induction false} RejectGroups(groups: seq<Group>, body: seq<Para>, lo: nat, hi: nat)
    requires |groups| == |body|
    requires forall i :: 0 <= i < |body| ==>
               FirstOk(groups[i].first, body[i], lo, hi) && forall p <- groups[i].made :: MadeOk(p, lo, hi)
    ensures var back := RejectBody(lo, hi, Flatten(groups));
      |back| <= |body| && (GivenBack(back, body) <==> MarksApart(body, lo, hi))
  {
    hide Settle, Cells, MadeOk, Tracked, RejectBody, SamePara, MarksApart, GivenBack, MintedMarks;
    if body == [] {
      NothingRejected(lo, hi);
    } else {
      var (first, made, rest) := (groups[0].first, groups[0].made, Flatten(groups[1..]));
      RejectGroups(groups[1..], body[1..], lo, hi);
      RejectMade(made, rest, lo, hi);
      assert Flatten(groups) == [first] + (made + rest);
      RejectFirst(first, made + rest, lo, hi);
      MarksTail(body, lo, hi);
      OneBack(first, RejectBody(lo, hi, rest), body, lo, hi);
    }
  }

  lemma NothingRejected(lo: nat, hi: nat)
    ensures RejectBody(lo, hi, Flatten([])) == [] && GivenBack([], []) && MarksApart([], lo, hi)
  {
  }

  function Rejected(p: Para, back: seq<Para>, lo: nat, hi: nat): seq<Para> {
    if !MintedMarks(p, lo, hi) then [p] + back
    else if back == [] then (if p.nodes == [] then [] else [p])
    else [back[0].(nodes := p.nodes + back[0].nodes)] + back[1..]
  }

  lemma RejectFirst(first: Para, rest: seq<Para>, lo: nat, hi: nat)
    ensures RejectBody(lo, hi, [first] + rest) ==
            Rejected(first.(nodes := Settle(false, lo, hi, first.nodes)), RejectBody(lo, hi, rest), lo, hi)
  {
    hide Settle, MintedMarks;
    assert ([first] + rest)[1..] == rest;
  }

  lemma OneBack(first: Para, back: seq<Para>, body: seq<Para>, lo: nat, hi: nat)
    requires body != [] && FirstOk(first, body[0], lo, hi) && |back| <= |body| - 1
    ensures var p := first.(nodes := Settle(false, lo, hi, first.nodes));
      var all := Rejected(p, back, lo, hi);
      && |all| <= |body|
      && (GivenBack(all, body) <==> if MintedMarks(body[0], lo, hi) then |body| == 1 && body[0].nodes != []
                                    else GivenBack(back, body[1..]))
      && (|body| == 1 ==> GivenBack(back, body[1..]))
  {
    hide Settle, Cells, Tracked, GivenBack, MintedMarks;
    var p := first.(nodes := Settle(false, lo, hi, first.nodes));
    SameMarks(p, body[0], lo, hi);
    assert SamePara(p, body[0]);
    GivenBackCounts(Rejected(p, back, lo, hi), body);
    if |body| == 1 {
      assert body[1..] == [] && back == [];
      NoneGivenBack();
    }
    if !MintedMarks(p, lo, hi) {
      GivenBackHead(p, back, body);
    } else if |body| == 1 {
      GivenBackHead(p, [], body);
      assert [p] + [] == [p];
    }
  }

  lemma SameMarks(p: Para, q: Para, lo: nat, hi: nat)
    requires p.marks == q.marks
    ensures MintedMarks(p, lo, hi) == MintedMarks(q, lo, hi)
  {
  }

  lemma NoneGivenBack()
    ensures GivenBack([], [])
  {
  }

  lemma GivenBackCounts(back: seq<Para>, body: seq<Para>)
    ensures GivenBack(back, body) ==> |back| == |body|
  {
    hide SamePara;
  }

  // ---------------------------------------------------------------- which ids are minted

  lemma {:induction false} UnusedIsUnminted(nodes: seq<Node>, lo: nat, hi: nat)
    requires forall v <- NodeIds(nodes) :: !(lo <= v < hi)
    ensures Unminted(lo, hi, nodes)
  {
    if nodes != [] {
      assert forall v <- NodeIds(nodes[1..]) :: v in NodeIds(nodes);
      UnusedIsUnminted(nodes[1..], lo, hi);
      if nodes[0].Box? {
        assert forall v <- NodeIds(nodes[0].kids) :: v in NodeIds(nodes);
        UnusedIsUnminted(nodes[0].kids, lo, hi);
        if nodes[0].id.Some? { assert nodes[0].id.value in NodeIds(nodes); }
      }
    }
  }

  lemma {:induction false} MarkIdsHold(marks: seq<Mark>, m: Mark)
    requires m in marks && m.id.Some?
    ensures m.id.value in MarkIds(marks)
  {
    if marks[0] != m { MarkIdsHold(marks[1..], m); }
  }

  lemma {:induction false} BodyIdsHold(body: seq<Para>, i: nat)
    requires i < |body|
    ensures forall v <- MarkIds(body[i].marks) + NodeIds(body[i].nodes) :: v in BodyIds(body)
  {
    hide MarkIds, NodeIds;
    if i > 0 { BodyIdsHold(body[1..], i - 1); }
  }

  lemma UnusedIsOriginal(body: seq<Para>, lo: nat, hi: nat)
    requires forall v <- BodyIds(body) :: !(lo <= v < hi)
    requires forall p <- body :: WellFormed(p.nodes) && Unpicked(p.nodes)
    ensures (forall p <- body :: Original(p, lo, hi)) && MarksApart(body, lo, hi)
  {
    hide WellFormed, Unpicked, BodyIds, NodeIds, MarkIds, Unminted;
    forall i | 0 <= i < |body| ensures !MintedMarks(body[i], lo, hi) {
      BodyIdsHold(body, i);
      assert forall v :: v in MarkIds(body[i].marks) ==> v in MarkIds(body[i].marks) + NodeIds(body[i].nodes);
      forall m | m in body[i].marks && m.tag.InsTag? && m.id.Some? ensures m.id.value in MarkIds(body[i].marks) {
        MarkIdsHold(body[i].marks, m);
      }
    }
    forall p | p in body ensures Original(p, lo, hi) {
      var i :| 0 <= i < |body| && body[i] == p;
      BodyIdsHold(body, i);
      assert forall v :: v in MarkIds(p.marks) || v in NodeIds(p.nodes) ==> v in MarkIds(p.marks) + NodeIds(p.nodes);
      UnusedIsUnminted(p.nodes, lo, hi);
    }
  }

  // ---------------------------------------------------------------- the promises of a call

  lemma OriginalsComeBack(body: seq<Para>, others: seq<nat>, author: string, requests: seq<Request>)
    requires Numbered(body) && ApplyChanges(body, others, author, requests).Some?
    requires var hi := ApplyChanges(body, others, author, requests).value.next;
      forall p <- body :: Original(p, FirstMinted(body, others), hi)
    ensures var s := ApplyChanges(body, others, author, requests).value;
      var lo := FirstMinted(body, others);
      GivenBack(RejectBody(lo, s.next, s.body), body) <==> MarksApart(body, lo, s.next)
  {
    hide ApplyChanges, FirstMinted, RejectBody, GivenBack, MarksApart, Flatten, RunGroups, Rejectable, Original;
    var lo := FirstMinted(body, others);
    CallLimits(body, others, author, requests);
    CallRefinesGroups(body, others, author, requests);
    var s := ApplyChanges(body, others, author, requests).value;
    var g := Grouped(Start(body), lo, |body|);
    var edits := ResolveAll(body, requests).value;
    NextNotBelow(g, edits);
    StartRejectable(body, lo, s.next);
    RunRejectable(g, edits, body, lo, s.next);
    RejectableBack(RunGroups(g, edits).value, body, lo, s.next);
  }

  /** Rejecting exactly the revisions a call has minted gives back every paragraph it was given, in order and character
      by character with its formatting, provided that no id of ten digits or more lies in the minted range. */
  lemma RejectingGivesTheDocumentBack(body: seq<Para>, others: seq<nat>, author: string, requests: seq<Request>)
    requires Numbered(body) && forall p <- body :: WellFormed(p.nodes) && Unpicked(p.nodes)
    requires ApplyChanges(body, others, author, requests).Some?
    requires var hi := ApplyChanges(body, others, author, requests).value.next;
      forall v <- BodyIds(body) + others :: v >= SHORT_IDS ==> v >= hi
    ensures var s := ApplyChanges(body, others, author, requests).value;
      GivenBack(RejectBody(FirstMinted(body, others), s.next, s.body), body)
  {
    hide ApplyChanges, WellFormed, Unpicked, BodyIds, FirstId, RejectBody, GivenBack, Original, MarksApart;
    var lo := FirstMinted(body, others);
    var s := ApplyChanges(body, others, author, requests).value;
    CallMints(body, others, author, requests);
    FreshIff(BodyIds(body) + others, s.next - lo);
    assert forall v <- BodyIds(body) :: v in BodyIds(body) + others;
    UnusedIsOriginal(body, lo, s.next);
    OriginalsComeBack(body, others, author, requests);
  }

  lemma CallMints(body: seq<Para>, others: seq<nat>, author: string, requests: seq<Request>)
    requires Numbered(body) && ApplyChanges(body, others, author, requests).Some?
    ensures FirstMinted(body, others) <= ApplyChanges(body, others, author, requests).value.next
  {
    hide ApplyChanges, FirstMinted, Flatten, RunGroups;
    CallLimits(body, others, author, requests);
    CallRefinesGroups(body, others, author, requests);
    NextNotBelow(Grouped(Start(body), FirstMinted(body, others), |body|), ResolveAll(body, requests).value);
  }

  // ---------------------------------------------------------------- only then

  /** No revision in these cells has an id in the range. */
  predicate CellsUnminted(lo: nat, hi: nat, cells: seq<Cell>) {
    cells == [] || (
      && (match cells[0]
          case Glyph(_, _) => true
          case Nest(tag, id, inner) => !((tag.InsTag? || tag.DelTag?) && Minted(id, lo, hi)) && CellsUnminted(lo, hi, inner))
      && CellsUnminted(lo, hi, cells[1..]))
  }

  lemma {:induction false} GlyphsAside(lo: nat, hi: nat, a: seq<Cell>, b: seq<Cell>)
    requires forall c <- a :: c.Glyph?
    ensures CellsUnminted(lo, hi, a + b) <==> CellsUnminted(lo, hi, b)
  {
    if a == [] {
      assert a + b == b;
    } else {
      assert a[0] in a;
      GlyphsAside(lo, hi, a[1..], b);
      assert (a + b)[1..] == a[1..] + b && (a + b)[0] == a[0];
    }
  }

  lemma {:induction false} PiecesAreGlyphs(fmt: Option<Format>, pieces: seq<Piece>)
    ensures forall c <- PiecesCells(fmt, pieces) :: c.Glyph?
  {
    if pieces != [] { PiecesAreGlyphs(fmt, pieces[1..]); }
  }

  lemma {:induction false} UnmintedCells(lo: nat, hi: nat, nodes: seq<Node>)
    ensures CellsUnminted(lo, hi, Cells(nodes)) <==> Unminted(lo, hi, nodes)
  {
    hide PiecesCells, Minted;
    if nodes != [] {
      UnmintedCells(lo, hi, nodes[1..]);
      match nodes[0] {
        case R(run) =>
          PiecesAreGlyphs(run.fmt, run.pieces);
          GlyphsAside(lo, hi, PiecesCells(run.fmt, run.pieces), Cells(nodes[1..]));
        case Box(tag, id, kids) =>
          UnmintedCells(lo, hi, kids);
          assert Cells(nodes)[1..] == Cells(nodes[1..]);
      }
    }
  }

  lemma {:induction false} UndeletedUnminted(lo: nat, hi: nat, nodes: seq<Node>)
    requires Unminted(lo, hi, nodes)
    ensures Unminted(lo, hi, Undeleted(nodes))
  {
    if nodes != [] {
      UndeletedUnminted(lo, hi, nodes[1..]);
      assert Undeleted(nodes)[1..] == Undeleted(nodes[1..]);
      if nodes[0].Box? { UndeletedUnminted(lo, hi, nodes[0].kids); }
    }
  }

  lemma {:induction false} RejectedIsUnminted(lo: nat, hi: nat, nodes: seq<Node>)
    ensures Unminted(lo, hi, Settle(false, lo, hi, nodes))
  {
    if nodes != [] {
      RejectedIsUnminted(lo, hi, nodes[1..]);
      if nodes[0].Box? {
        var inner := Settle(false, lo, hi, nodes[0].kids);
        RejectedIsUnminted(lo, hi, nodes[0].kids);
        UndeletedUnminted(lo, hi, inner);
        UnmintedAppend(lo, hi, Settled(false, lo, hi, nodes[0].tag, nodes[0].id, inner), Settle(false, lo, hi, nodes[1..]));
      }
    }
  }

  lemma {:induction false} RejectBodyUnminted(lo: nat, hi: nat, body: seq<Para>)
    ensures forall p <- RejectBody(lo, hi, body) :: Unminted(lo, hi, p.nodes)
  {
    hide Settle, Unminted, MintedMarks;
    if body != [] {
      var rest := RejectBody(lo, hi, body[1..]);
      var nodes := Settle(false, lo, hi, body[0].nodes);
      RejectBodyUnminted(lo, hi, body[1..]);
      RejectedIsUnminted(lo, hi, body[0].nodes);
      if rest != [] {
        assert rest[0] in rest;
        UnmintedAppend(lo, hi, nodes, rest[0].nodes);
      }
    }
  }

  /** Exactly when: rejecting gives everything back if and only if no revision inside a paragraph has an id that the call
      mints, and no inserted paragraph mark has one, save that of a last paragraph with content. */
  lemma GivenBackIff(body: seq<Para>, others: seq<nat>, author: string, requests: seq<Request>)
    requires Numbered(body) && ApplyChanges(body, others, author, requests).Some?
    requires forall p <- body :: WellFormed(p.nodes) && Unpicked(p.nodes)
    ensures var s := ApplyChanges(body, others, author, requests).value;
      var lo := FirstMinted(body, others);
      GivenBack(RejectBody(lo, s.next, s.body), body) <==>
      (forall p <- body :: Unminted(lo, s.next, p.nodes)) && MarksApart(body, lo, s.next)
  {
    hide ApplyChanges, WellFormed, Unpicked, FirstMinted, RejectBody, Unminted, MarksApart, Cells, CellsUnminted;
    var (s, lo) := (ApplyChanges(body, others, author, requests).value, FirstMinted(body, others));
    var back := RejectBody(lo, s.next, s.body);
    if GivenBack(back, body) {
      RejectBodyUnminted(lo, s.next, s.body);
      forall p | p in body ensures Unminted(lo, s.next, p.nodes) {
        var i :| 0 <= i < |body| && body[i] == p;
        assert SamePara(back[i], p) && back[i] in back;
        UnmintedCells(lo, s.next, back[i].nodes);
        UnmintedCells(lo, s.next, p.nodes);
      }
    }
    if forall p <- body :: Unminted(lo, s.next, p.nodes) {
      hide GivenBack;
      OriginalsComeBack(body, others, author, requests);
    }
  }

  lemma RejectableBack(g: Grouped, body: seq<Para>, lo: nat, hi: nat)
    requires Rejectable(g, body, lo, hi)
    ensures GivenBack(RejectBody(lo, hi, Flatten(g.groups)), body) <==> MarksApart(body, lo, hi)
  {
    hide FirstOk, MadeOk, RejectBody, Flatten, GivenBack, MarksApart;
    RejectGroups(g.groups, body, lo, hi);
  }

  lemma CallLimits(body: seq<Para>, others: seq<nat>, author: string, requests: seq<Request>)
    requires ApplyChanges(body, others, author, requests).Some?
    ensures |requests| <= MAX_EDITS && !Blank(author) && ResolveAll(body, requests).Some?
  {
    hide ApplyAll, ResolveAll, BodyIds;
  }

  lemma {:induction false} NextNotBelow(g: Grouped, edits: seq<Edit>)
    requires RunGroups(g, edits).Some?
    ensures g.next <= RunGroups(g, edits).value.next
  {
    hide GroupEdit;
    if edits != [] {
      NextNotBelow(g, edits[..|edits| - 1]);
      NextGrows(RunGroups(g, edits[..|edits| - 1]).value, edits[|edits| - 1]);
    }
  }

  lemma StartRejectable(body: seq<Para>, lo: nat, hi: nat)
    requires forall p <- body :: Original(p, lo, hi)
    ensures Rejectable(Grouped(Start(body), lo, |body|), body, lo, hi)
  {
    hide Cells, Settle, WellFormed, Unpicked, Unminted, Tracked, Start;
    StartIs(body);
    forall i | 0 <= i < |body| ensures FirstOk(Start(body)[i].first, body[i], lo, hi) {
      assert body[i] in body;
      SettleUnminted(false, lo, hi, body[i].nodes);
    }
  }

  // ---------------------------------------------------------------- a minted id that is taken

  /** A paragraph in which somebody else's insertion has an id of ten digits. */
  function Foreign(): Para {
    Para(0, "", None, [], [Box(InsTag, Some(SHORT_IDS), [R(Run(None, [T("x")]))])])
  }

  /** It does happen: next to the longest short id, used by a comment or a bookmark, the call mints the very id of
      somebody else's insertion, and rejecting the revisions of the call takes that insertion away with them. */
  lemma LongIdsCollide()
    ensures var (body, others) := ([Foreign()], [SHORT_IDS - 1]);
      var s := ApplyChanges(body, others, "A", [Request(ByIndex(0), AppendText, "", "y")]);
      && Numbered(body) && s.Some? && FirstMinted(body, others) == SHORT_IDS && s.value.next == SHORT_IDS + 1
      && var back := RejectBody(FirstMinted(body, others), s.value.next, s.value.body);
         |back| == 1 && back[0].nodes == [] && !GivenBack(back, body)
  {
    hide Visible, Template, Prefix, Inserted, Settle, Cells, NewRuns;
    var (body, others) := ([Foreign()], [SHORT_IDS - 1]);
    var e := Edit(0, AppendText, "", "y");
    ForeignIds();
    assert !Blank("A") by { assert 'A' in "A" && !Space('A'); }
    var request := Request(ByIndex(0), AppendText, "", "y");
    assert [request][..0] == [] && ResolveAll(body, [request]) == Some([e]) by {
      assert ResolveAll(body, []) == Some([]);
      var none: seq<Edit> := [];
      assert none + [e] == [e];
    }
    var s0 := State(body, SHORT_IDS, 1, map[]);
    assert [e][..0] == [] && ApplyAll(s0, 1, [e]) == ApplyEdit(s0, 1, e);
    var nodes := Append(Foreign().nodes, "y", SHORT_IDS);
    ForeignEdit(s0, e, nodes);
    ForeignGoes(nodes);
    OneBox(false, SHORT_IDS, SHORT_IDS + 1, Foreign().nodes[0]);
    var q := Foreign().(nodes := []);
    assert RejectBody(SHORT_IDS, SHORT_IDS + 1, []) == [];
    assert RejectBody(SHORT_IDS, SHORT_IDS + 1, [Foreign().(nodes := nodes)]) == [q];
    NoNodes(false, 0, 0);
  }

  lemma ForeignEdit(s: State, e: Edit, nodes: seq<Node>)
    requires s == State([Foreign()], SHORT_IDS, 1, map[]) && e == Edit(0, AppendText, "", "y")
    requires nodes == Append(Foreign().nodes, "y", SHORT_IDS)
    ensures ApplyEdit(s, 1, e) == Some(s.(body := [Foreign().(nodes := nodes)], next := SHORT_IDS + 1))
  {
    hide Append, Visible;
    assert GoodText("y") by { assert 'y' in "y" && !Space('y'); }
    assert FindPara([Foreign()], 0) == Some(Foreign());
    var none: seq<Para> := [];
    assert [Foreign()][1..] == none && SetNodes([Foreign()], 0, nodes) == [Foreign().(nodes := nodes)] + none;
    assert [Foreign().(nodes := nodes)] + none == [Foreign().(nodes := nodes)];
  }

  lemma ForeignIds()
    ensures FirstMinted([Foreign()], [SHORT_IDS - 1]) == SHORT_IDS
  {
    var nodes := Foreign().nodes;
    assert nodes[1..] == [] && NodeIds([]) == [];
    assert NodeIds(nodes) == [SHORT_IDS];
    assert [Foreign()][1..] == [] && BodyIds([]) == [] && MarkIds([]) == [];
    assert BodyIds([Foreign()]) == [SHORT_IDS];
    var ids: seq<nat> := [SHORT_IDS] + [SHORT_IDS - 1];
    assert ids[1..] == [SHORT_IDS - 1] && ids[1..][1..] == [];
    assert Largest([]) == 0 && Largest(ids[1..]) == SHORT_IDS - 1;
  }

  lemma ForeignGoes(nodes: seq<Node>)
    requires nodes == Append(Foreign().nodes, "y", SHORT_IDS)
    ensures Settle(false, SHORT_IDS, SHORT_IDS + 1, nodes) == []
  {
    hide Visible, Template, Prefix, Inserted, Settle, Cells, NewRuns;
    var text := Prefix(Visible(Foreign().nodes), "y") + "y";
    var ins := [Inserted(SHORT_IDS, text, Template(Foreign().nodes))];
    InsertedSettles(SHORT_IDS, text, Template(Foreign().nodes), SHORT_IDS, SHORT_IDS + 1);
    SettleAppend(false, SHORT_IDS, SHORT_IDS + 1, Foreign().nodes, ins);
    assert Foreign().nodes == [Foreign().nodes[0]];
    OneBox(false, SHORT_IDS, SHORT_IDS + 1, Foreign().nodes[0]);
  }
}
