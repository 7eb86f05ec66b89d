/** Where an edit lands and what new text looks like, apart from the searches that decide it. */
module DocLook {
  import opened Options
  import opened DocText
  import opened DocTree
  import opened DocRuns
  import opened DocPhrase
  import opened DocParagraph
  import opened DocReplace
  import opened DocBody
  import opened DocSections

  // ---------------------------------------------------------------- what a paragraph reads as

  /** What a reader sees of one piece of a run. */
  predicate Reads(p: Piece, text: string) {
    match p
    case T(t) => text == t
    case Tab => text == "\t"
    case Br => text == "\n"
    case Cr => text == "\n"
    case Hyphen => text == "-"
    case DelT(_) => text == ""
    case CommentRef => text == ""
    case AnnotationRef => text == ""
    case Obj(_) => text == ""
  }

  /** A paragraph reads piece by piece and part by part; what is deleted, moved away or in a text box is not read. */
  lemma ReadsPieceByPiece(a: seq<Node>, b: seq<Node>, fmt: Option<Format>, p: Piece, rest: seq<Piece>, tag: Tag, id: Option<nat>)
    ensures Visible(a + b) == Visible(a) + Visible(b)
    ensures Reads(p, Visible([R(Run(fmt, [p]))]))
    ensures Visible([R(Run(fmt, [p] + rest))]) == Visible([R(Run(fmt, [p]))]) + Visible([R(Run(fmt, rest))])
    ensures Visible([Box(tag, id, a)]) == (if tag in {DelTag, MoveFrom, TextBox, Picked} then "" else Visible(a))
  {
    VisibleAppend(a, b);
    VisibleRun(Run(fmt, [p]));
    VisibleRun(Run(fmt, rest));
    VisibleRun(Run(fmt, [p] + rest));
    OnePiece(p, rest);
    VisibleBox(tag, id, a);
  }

  lemma VisibleRun(run: Run)
    ensures Visible([R(run)]) == PiecesText(run.pieces)
  {
    assert [R(run)][1..] == [] && Visible([]) == "";
  }

  lemma VisibleBox(tag: Tag, id: Option<nat>, kids: seq<Node>)
    ensures Visible([Box(tag, id, kids)]) == (if tag in {DelTag, MoveFrom, TextBox, Picked} then "" else Visible(kids))
  {
    assert [Box(tag, id, kids)][1..] == [] && Visible([]) == "";
  }

  lemma OnePiece(p: Piece, rest: seq<Piece>)
    ensures Reads(p, PiecesText([p])) && PiecesText([p] + rest) == PiecesText([p]) + PiecesText(rest)
  {
    assert ([p] + rest)[1..] == rest && [p][1..] == [];
    assert PiecesText([p]) == PieceText(p) + PiecesText([]) == PieceText(p);
  }

  // ---------------------------------------------------------------- references

  predicate Upper(c: char) {
    '0' <= c <= '9' || 'A' <= c <= 'F'
  }

  /** The paragraph is the only one with this identifier, which is one that Word gives out. */
  predicate OnlyWith(body: seq<Para>, id: string, i: nat)
    requires i < |body|
  {
    && |id| == 8 && (forall c <- id :: Upper(c)) && body[i].paraId == id
    && forall j :: 0 <= j < |body| && j != i ==> body[j].paraId != id
  }

  lemma {:induction false} CountTells(body: seq<Para>, id: string)
    ensures CountId(body, id) == 0 <==> forall j :: 0 <= j < |body| ==> body[j].paraId != id
    ensures CountId(body, id) == 1 ==>
              exists i :: 0 <= i < |body| && IndexOfId(body, id) == Some(i) && body[i].paraId == id
                          && forall j :: 0 <= j < |body| && j != i ==> body[j].paraId != id
  {
    if body != [] {
      CountTells(body[1..], id);
      assert forall j :: 1 <= j < |body| ==> body[j] == body[1..][j - 1];
      if CountId(body, id) == 1 {
        if body[0].paraId == id {
          assert IndexOfId(body, id) == Some(0);
        } else {
          var i :| 0 <= i < |body[1..]| && IndexOfId(body[1..], id) == Some(i) && body[1..][i].paraId == id
                   && forall j :: 0 <= j < |body[1..]| && j != i ==> body[1..][j].paraId != id;
          assert IndexOfId(body, id) == Some(i + 1) && body[i + 1].paraId == id;
        }
      }
    }
  }

  lemma {:induction false} OnlyOneCounts(body: seq<Para>, id: string, i: nat)
    requires i < |body| && body[i].paraId == id && forall j :: 0 <= j < |body| && j != i ==> body[j].paraId != id
    ensures CountId(body, id) == 1 && IndexOfId(body, id) == Some(i)
  {
    assert forall j :: 1 <= j < |body| ==> body[j] == body[1..][j - 1];
    if i == 0 {
      CountTells(body[1..], id);
    } else {
      OnlyOneCounts(body[1..], id, i - 1);
    }
  }

  /** A reference names exactly the paragraph at its place, or the only one that has its identifier. */
  lemma ResolveIff(body: seq<Para>, ref: Ref, i: nat)
    ensures Resolve(body, ref) == Some(i) <==>
            i < |body| && (ref == ByIndex(i) || (ref.ById? && OnlyWith(body, ref.id, i)))
  {
    if ref.ById? {
      CountTells(body, ref.id);
      if i < |body| && OnlyWith(body, ref.id, i) { OnlyOneCounts(body, ref.id, i); }
    }
  }

  // ---------------------------------------------------------------- the look of new text

  /** The runs a reader sees, in document order. */
  function Shown(nodes: seq<Node>): seq<Run> {
    if nodes == [] then []
    else (match nodes[0]
          case R(run) => [run]
          case Box(tag, _, kids) => if tag in {DelTag, MoveFrom, TextBox, Picked} then [] else Shown(kids)) + Shown(nodes[1..])
  }

  /** New text may look like this run: it holds text and is neither a link nor a comment mark. */
  predicate Gives(run: Run) {
    HasText(run) && !(run.fmt.Some? && (run.fmt.value.style == "CommentReference" || run.fmt.value.style == "Hyperlink"))
  }

  function FirstGiving(runs: seq<Run>): Option<Run> {
    if runs == [] then None else if Gives(runs[0]) then Some(runs[0]) else FirstGiving(runs[1..])
  }

  lemma {:induction false} FirstOfBoth(a: seq<Run>, b: seq<Run>)
    ensures FirstGiving(a + b) == if FirstGiving(a).Some? then FirstGiving(a) else FirstGiving(b)
  {
    if a == [] {
      assert a + b == b;
    } else {
      assert (a + b)[1..] == a[1..] + b;
      FirstOfBoth(a[1..], b);
    }
  }

  /** What new text takes over from a run: its format without marks of tracked changes. */
  function LookOf(run: Run): Option<Format> {
    if run.fmt.None? then None else Some(run.fmt.value.(tracked := []))
  }

  lemma {:induction false} SearchFinds(nodes: seq<Node>)
    ensures var first := FirstGiving(Shown(nodes));
      TemplateSearch(nodes) == if first.None? then None else Some(LookOf(first.value))
  {
    if nodes != [] {
      var rest := Shown(nodes[1..]);
      SearchFinds(nodes[1..]);
      match nodes[0]
      case R(run) => FirstOfBoth([run], rest);
      case Box(tag, _, kids) =>
        SearchFinds(kids);
        FirstOfBoth(if tag in {DelTag, MoveFrom, TextBox, Picked} then [] else Shown(kids), rest);
    }
  }

  lemma {:induction false} FirstIs(runs: seq<Run>)
    ensures var first := FirstGiving(runs);
      if first.None? then forall i :: 0 <= i < |runs| ==> !Gives(runs[i])
      else exists i :: 0 <= i < |runs| && runs[i] == first.value && Gives(runs[i]) && forall j :: 0 <= j < i ==> !Gives(runs[j])
  {
    hide Gives;
    if runs != [] {
      FirstIs(runs[1..]);
      assert forall i :: 1 <= i < |runs| ==> runs[i] == runs[1..][i - 1];
      if !Gives(runs[0]) && FirstGiving(runs).Some? {
        var i :| 0 <= i < |runs[1..]| && runs[1..][i] == FirstGiving(runs).value && Gives(runs[1..][i])
                 && forall j :: 0 <= j < i ==> !Gives(runs[1..][j]);
        assert runs[i + 1] == FirstGiving(runs).value;
      }
    }
  }

  /** New text in a paragraph looks like the first run a reader sees there that holds text and is neither a link nor a comment
      mark, and has no format of its own if there is none. */
  lemma LooksLikeTheFirstText(nodes: seq<Node>)
    ensures var runs := Shown(nodes);
      || (Template(nodes) == None && forall i :: 0 <= i < |runs| ==> !Gives(runs[i]))
      || exists i :: 0 <= i < |runs| && Template(nodes) == LookOf(runs[i]) && Gives(runs[i])
                     && forall j :: 0 <= j < i ==> !Gives(runs[j])
  {
    SearchFinds(nodes);
    FirstIs(Shown(nodes));
    hide Gives, Shown;
  }

  // ---------------------------------------------------------------- the look of new paragraphs

  lemma {:induction false} FirstBodyIs(paragraphs: seq<Para>)
    ensures var first := FirstBody(paragraphs);
      if first.None? then forall j :: 0 <= j < |paragraphs| ==> !BodyText(paragraphs[j])
      else exists j :: 0 <= j < |paragraphs| && paragraphs[j] == first.value && BodyText(paragraphs[j])
                       && forall k :: 0 <= k < j ==> !BodyText(paragraphs[k])
  {
    hide Blank, Visible;
    if paragraphs != [] {
      FirstBodyIs(paragraphs[1..]);
      assert forall j :: 1 <= j < |paragraphs| ==> paragraphs[j] == paragraphs[1..][j - 1];
      if !BodyText(paragraphs[0]) && FirstBody(paragraphs).Some? {
        var j :| 0 <= j < |paragraphs[1..]| && paragraphs[1..][j] == FirstBody(paragraphs).value && BodyText(paragraphs[1..][j])
                 && forall k :: 0 <= k < j ==> !BodyText(paragraphs[1..][k]);
        assert paragraphs[j + 1] == FirstBody(paragraphs).value;
      }
    }
  }

  /** A paragraph that is no heading and does not read blank. */
  predicate BodyText(p: Para) {
    !(p.layout.Some? && p.layout.value.heading) && !Blank(Visible(p.nodes))
  }

  /** New paragraphs look like the one they are put behind; behind a heading they look like the next body text, not like the
      heading, and like nothing in particular if no body text follows. */
  lemma LooksLikeBodyText(paragraphs: seq<Para>, i: nat)
    requires i < |paragraphs|
    ensures var look := BodyTemplate(paragraphs, i);
      if paragraphs[i].layout.Some? && paragraphs[i].layout.value.heading then
        || (look == None && forall j :: i < j < |paragraphs| ==> !BodyText(paragraphs[j]))
        || exists j :: i < j < |paragraphs| && look == Some(paragraphs[j]) && BodyText(paragraphs[j])
                       && forall k :: i < k < j ==> !BodyText(paragraphs[k])
      else look == Some(paragraphs[i])
  {
    hide Blank, Visible;
    var rest := paragraphs[i + 1..];
    FirstBodyIs(rest);
    assert forall j :: i < j < |paragraphs| ==> paragraphs[j] == rest[j - i - 1];
    if paragraphs[i].layout.Some? && paragraphs[i].layout.value.heading && FirstBody(rest).Some? {
      var j :| 0 <= j < |rest| && rest[j] == FirstBody(rest).value && BodyText(rest[j])
               && forall k :: 0 <= k < j ==> !BodyText(rest[k]);
      assert paragraphs[i + 1 + j] == rest[j];
    }
  }

  /** They take over its layout, but neither a section break nor a tracked change of it. */
  lemma LayoutWithoutBreaks(p: Para)
    ensures var l := NewLayout(Some(p));
      && l.section == None && l.change == None
      && (p.layout.Some? ==> l.heading == p.layout.value.heading && l.rest == p.layout.value.rest)
      && (p.layout.None? ==> l == NewLayout(None)) && NewLayout(None) == Layout(false, None, None, "")
  {
  }

  // ---------------------------------------------------------------- additions and phrases

  /** An accepted addition reads as the paragraph and the cleaned text without its bold marks, with one blank between them
      exactly if the paragraph reads something that does not end in white space and the text does not start with any. */
  lemma AdditionReads(nodes: seq<Node>, text: string, next: nat, lo: nat, hi: nat)
    requires lo <= next < hi
    ensures var was := Visible(nodes);
      var apart := was != "" && !Space(was[|was| - 1]) && !(text != "" && Space(text[0]));
      Visible(Settle(true, lo, hi, Append(nodes, text, next))) == was + (if apart then " " else "") + Unmarked(Clean(text))
  {
    hide Visible, Settle, Clean, Append, Unmarked;
    AppendSettles(nodes, text, next, lo, hi);
    BlankFirst(text);
    var was := Visible(nodes);
    assert was + (" " + Unmarked(Clean(text))) == was + " " + Unmarked(Clean(text));
    assert was + "" + Unmarked(Clean(text)) == was + Unmarked(Clean(text));
  }

  lemma BlankFirst(text: string)
    ensures Unmarked(Clean(" " + text)) == " " + Unmarked(Clean(text)) && "" + text == text
  {
    assert (" " + text)[1..] == text && "" + text == text;
    assert Newlines(" " + text) == " " + Newlines(text);
    assert (" " + Newlines(text))[1..] == Newlines(text);
    assert Printable(" " + Newlines(text)) == " " + Printable(Newlines(text));
    assert (" " + Clean(text))[1..] == Clean(text);
  }

  /** A phrase is found exactly where its only occurrence is: as it is quoted if it occurs so at all, and otherwise with one
      blank between its words. */
  lemma PhraseIsFoundIff(full: string, find: string, start: nat, phrase: string)
    ensures var quoted := exists i :: OccursAt(full, find, i);
      Locate(full, find) == At(start, phrase) <==>
      && phrase == (if quoted then find else Spaced(Words(find)))
      && OccursAt(full, phrase, start) && forall i :: OccursAt(full, phrase, i) ==> i == start
  {
    hide Words, Spaced, Squeeze, Locate;
    SqueezeIsWords(find);
    LocatedIffUnique(full, find, start, phrase);
  }
}
