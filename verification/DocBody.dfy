/** A call of the editor: resolved references, fresh revision ids, and edits applied one after the other. */
module DocBody {
  import opened Options
  import opened DocText
  import opened DocTree
  import opened DocRuns
  import opened DocPhrase
  import opened DocParagraph

  const MAX_EDITS := 12
  const MAX_EDIT_TEXT := 4000
  const SHORT_IDS := 1_000_000_000

  datatype Layout = Layout(heading: bool, section: Option<string>, change: Option<string>, rest: string)
  datatype Mark = Mark(tag: Tag, id: Option<nat>)

  /** `eid` is the identity of the element, `marks` the revisions of its paragraph mark. */
  datatype Para = Para(eid: nat, paraId: string, layout: Option<Layout>, marks: seq<Mark>, nodes: seq<Node>)

  datatype Mode = InsertAfter | ReplaceText | AppendText | UnknownMode
  datatype Ref = ById(id: string) | ByIndex(index: nat) | BadRef
  datatype Request = Request(ref: Ref, mode: Mode, find: string, text: string)
  datatype Edit = Edit(target: nat, mode: Mode, find: string, text: string)

  // ---------------------------------------------------------------- fresh ids

  function Largest(ids: seq<nat>): nat {
    if ids == [] then 0
    else if ids[0] < SHORT_IDS && ids[0] > Largest(ids[1..]) then ids[0] else Largest(ids[1..])
  }

  /** `_Ids`: above every id of at most nine digits. */
  function FirstId(ids: seq<nat>): nat {
    Largest(ids) + 1
  }

  lemma {:induction false} LargestBounds(ids: seq<nat>)
    ensures forall v <- ids :: v < SHORT_IDS ==> v <= Largest(ids)
    ensures Largest(ids) < SHORT_IDS
  {
    if ids != [] {
      LargestBounds(ids[1..]);
      assert forall v <- ids :: v == ids[0] || v in ids[1..];
    }
  }

  /** The first `count` minted ids are new exactly when no longer id, which the search skips, lies among them. */
  lemma FreshIff(ids: seq<nat>, count: nat)
    ensures (forall v <- ids :: !(FirstId(ids) <= v < FirstId(ids) + count)) <==>
            (forall v <- ids :: v >= SHORT_IDS ==> v >= FirstId(ids) + count)
  {
    LargestBounds(ids);
  }

  function NodeIds(nodes: seq<Node>): seq<nat> {
    if nodes == [] then []
    else (match nodes[0]
          case R(_) => []
          case Box(_, id, kids) => (if id.Some? then [id.value] else []) + NodeIds(kids)) + NodeIds(nodes[1..])
  }

  function MarkIds(marks: seq<Mark>): seq<nat> {
    if marks == [] then [] else (if marks[0].id.Some? then [marks[0].id.value] else []) + MarkIds(marks[1..])
  }

  function BodyIds(body: seq<Para>): seq<nat> {
    if body == [] then [] else MarkIds(body[0].marks) + NodeIds(body[0].nodes) + BodyIds(body[1..])
  }

  // ---------------------------------------------------------------- references

  function CountId(body: seq<Para>, id: string): nat {
    if body == [] then 0 else (if body[0].paraId == id then 1 else 0) + CountId(body[1..], id)
  }

  function IndexOfId(body: seq<Para>, id: string): Option<nat> {
    if body == [] then None
    else if body[0].paraId == id then Some(0)
    else if IndexOfId(body[1..], id).Some? then Some(IndexOfId(body[1..], id).value + 1) else None
  }

  predicate HexId(id: string) {
    |id| == 8 && forall c <- id :: '0' <= c <= '9' || 'A' <= c <= 'F'
  }

  /** `_ref`, shown to the reader. */
  function RefOf(body: seq<Para>, i: nat): Ref
    requires i < |body|
  {
    if HexId(body[i].paraId) && CountId(body, body[i].paraId) == 1 then ById(body[i].paraId) else ByIndex(i)
  }

  /** `_resolve`. */
  function Resolve(body: seq<Para>, ref: Ref): Option<nat> {
    match ref
    case ById(id) => if HexId(id) && CountId(body, id) == 1 then IndexOfId(body, id) else None
    case ByIndex(i) => if i < |body| then Some(i) else None
    case BadRef => None
  }

  lemma {:induction false} OnlyIndex(body: seq<Para>, i: nat)
    requires i < |body|
    ensures CountId(body, body[i].paraId) >= 1
    ensures CountId(body, body[i].paraId) == 1 ==> IndexOfId(body, body[i].paraId) == Some(i)
  {
    if i > 0 {
      OnlyIndex(body[1..], i - 1);
    }
  }

  /** A reference that was shown names the paragraph it was shown for. */
  lemma ShownRefsResolve(body: seq<Para>, i: nat)
    requires i < |body|
    ensures Resolve(body, RefOf(body, i)) == Some(i)
  {
    OnlyIndex(body, i);
  }

  // ---------------------------------------------------------------- one edit

  predicate Heading(p: Para) {
    p.layout.Some? && p.layout.value.heading
  }

  predicate Marked(p: Para) {
    exists m <- p.marks :: Revision(m.tag)
  }

  function FirstBody(paragraphs: seq<Para>): Option<Para> {
    if paragraphs == [] then None
    else if !Heading(paragraphs[0]) && !Blank(Visible(paragraphs[0].nodes)) then Some(paragraphs[0])
    else FirstBody(paragraphs[1..])
  }

  /** `_body_template`: text after a heading takes the look of the next body text. */
  function BodyTemplate(paragraphs: seq<Para>, i: nat): Option<Para>
    requires i < |paragraphs|
  {
    if Heading(paragraphs[i]) then FirstBody(paragraphs[i + 1..]) else Some(paragraphs[i])
  }

  function NewLayout(template: Option<Para>): Layout {
    if template.Some? && template.value.layout.Some? then template.value.layout.value.(section := None, change := None)
    else Layout(false, None, None, "")
  }

  /** The paragraphs made of the blocks of a text, each inserted with its mark. */
  function Created(blocks: seq<string>, template: Option<Para>, next: nat, eid: nat): seq<Para> {
    if blocks == [] then []
    else
      var fmt := if template.Some? then Template(template.value.nodes) else None;
      [Para(eid, "", Some(NewLayout(template)), [Mark(InsTag, Some(next))], [Inserted(next + 1, blocks[0], fmt)])]
      + Created(blocks[1..], template, next + 2, eid + 1)
  }

  lemma {:induction false} CreatedShape(blocks: seq<string>, template: Option<Para>, next: nat, eid: nat)
    ensures var c := Created(blocks, template, next, eid);
      |c| == |blocks| && forall j :: 0 <= j < |c| ==>
        && c[j].eid == eid + j && c[j].layout == Some(NewLayout(template))
        && c[j].marks == [Mark(InsTag, Some(next + 2 * j))]
        && c[j].nodes == [Inserted(next + 2 * j + 1, blocks[j], if template.Some? then Template(template.value.nodes) else None)]
  {
    hide Template, Inserted;
    if blocks != [] {
      CreatedShape(blocks[1..], template, next + 2, eid + 1);
    }
  }

  function FindPara(body: seq<Para>, eid: nat): Option<Para> {
    if body == [] then None else if body[0].eid == eid then Some(body[0]) else FindPara(body[1..], eid)
  }

  /** `after.addnext`, one paragraph behind the other. */
  function InsertAt(body: seq<Para>, eid: nat, made: seq<Para>): seq<Para> {
    if body == [] then []
    else if body[0].eid == eid then [body[0]] + made + body[1..]
    else [body[0]] + InsertAt(body[1..], eid, made)
  }

  function SetNodes(body: seq<Para>, eid: nat, nodes: seq<Node>): seq<Para> {
    if body == [] then []
    else if body[0].eid == eid then [body[0].(nodes := nodes)] + body[1..]
    else [body[0]] + SetNodes(body[1..], eid, nodes)
  }

  /** The original paragraphs as they stand now. */
  function Originals(body: seq<Para>, n: nat): seq<Para> {
    if body == [] then [] else (if body[0].eid < n then [body[0]] else []) + Originals(body[1..], n)
  }

  /** `last` is the last paragraph inserted for each anchor, `made` the next unused element identity. */
  datatype State = State(body: seq<Para>, next: nat, made: nat, last: map<nat, nat>)

  predicate GoodText(text: string) {
    !Blank(text) && |text| <= MAX_EDIT_TEXT
  }

  function ApplyInsert(s: State, n: nat, e: Edit): Option<State> {
    var paragraphs := Originals(s.body, n);
    var blocks := Blocks(e.text);
    if e.target >= |paragraphs| || blocks == [] then None
    else
      var created := Created(blocks, BodyTemplate(paragraphs, e.target), s.next, s.made);
      var after := if e.target in s.last then s.last[e.target] else e.target;
      Some(State(InsertAt(s.body, after, created), s.next + 2 * |blocks|, s.made + |blocks|,
                 s.last[e.target := s.made + |blocks| - 1]))
  }

  function ApplyEdit(s: State, n: nat, e: Edit): Option<State> {
    if !GoodText(e.text) then None
    else
      match e.mode
      case InsertAfter => ApplyInsert(s, n, e)
      case ReplaceText =>
        var p := FindPara(s.body, e.target);
        if p.None? then None
        else
          (match Replace(Marked(p.value), p.value.nodes, e.find, e.text, s.next)
           case Refused(_) => None
           case Done(nodes, next) => Some(s.(body := SetNodes(s.body, e.target, nodes), next := next)))
      case AppendText =>
        var p := FindPara(s.body, e.target);
        if p.None? then None
        else Some(s.(body := SetNodes(s.body, e.target, Append(p.value.nodes, e.text, s.next)), next := s.next + 1))
      case UnknownMode => None
  }

  function ApplyAll(s: State, n: nat, edits: seq<Edit>): Option<State> {
    if edits == [] then Some(s)
    else
      var before := ApplyAll(s, n, edits[..|edits| - 1]);
      if before.None? then None else ApplyEdit(before.value, n, edits[|edits| - 1])
  }

  // ---------------------------------------------------------------- the whole call

  function ResolveAll(body: seq<Para>, requests: seq<Request>): Option<seq<Edit>> {
    if requests == [] then Some([])
    else
      var before := ResolveAll(body, requests[..|requests| - 1]);
      var last := requests[|requests| - 1];
      if before.None? || Resolve(body, last.ref).None? then None
      else Some(before.value + [Edit(Resolve(body, last.ref).value, last.mode, last.find, last.text)])
  }

  /** Elements are told apart by their position in the document that was read. */
  predicate Numbered(body: seq<Para>) {
    forall i :: 0 <= i < |body| ==> body[i].eid == i
  }

  /** `apply_changes`: every reference is resolved before the first edit, and any failure gives no document at all.
      `others` are the ids used outside the paragraphs, by comments and bookmarks. */
  function ApplyChanges(body: seq<Para>, others: seq<nat>, author: string, requests: seq<Request>): Option<State> {
    if |requests| > MAX_EDITS || Blank(author) then None
    else
      var edits := ResolveAll(body, requests);
      if edits.None? then None else ApplyAll(State(body, FirstId(BodyIds(body) + others), |body|, map[]), |body|, edits.value)
  }
}
