/** What splitting, cleaning and squeezing a text mean, apart from the scans that do it. */
module DocSections {
  import opened Options
  import opened DocText

  // ---------------------------------------------------------------- blank lines

  /** A line end, blanks, a line end. */
  predicate Separator(g: string) {
    && |g| >= 2 && g[0] == '\n' && g[|g| - 1] == '\n'
    && forall i :: 0 < i < |g| - 1 ==> g[i] in {' ', '\t'}
  }

  /** No separator starts in the text, seen with what comes next. */
  ghost predicate NoneIn(part: string, next: string) {
    forall i, j :: 0 <= i < |part| && i <= j <= |part| + |next| ==> !Separator((part + next)[i..j])
  }

  function Weave(parts: seq<string>, gaps: seq<string>): string
    requires |parts| == |gaps| + 1
  {
    if gaps == [] then parts[0] else parts[0] + gaps[0] + Weave(parts[1..], gaps[1..])
  }

  /** The parts with the gaps between them are the text, each gap is a separator, and no separator starts any earlier. */
  ghost predicate IsSplit(s: string, parts: seq<string>, gaps: seq<string>) {
    && |parts| == |gaps| + 1 && Weave(parts, gaps) == s
    && (forall k :: 0 <= k < |gaps| ==> Separator(gaps[k]) && NoneIn(parts[k], gaps[k]))
    && NoneIn(parts[|gaps|], "")
  }

  lemma {:induction false} BlanksAre(s: string)
    ensures var n := BlanksLength(s);
      (forall i :: 0 <= i < n ==> s[i] in {' ', '\t'}) && (n < |s| ==> s[n] !in {' ', '\t'})
  {
    if s != "" && s[0] in {' ', '\t'} {
      BlanksAre(s[1..]);
      var n := BlanksLength(s);
      forall i | 0 <= i < n ensures s[i] in {' ', '\t'} {
        if i > 0 { assert s[i] == s[1..][i - 1]; }
      }
      assert n < |s| ==> s[n] == s[1..][n - 1];
    }
  }

  lemma BlankLineIsSeparator(s: string)
    ensures BlankLine(s) > 0 ==> Separator(s[..BlankLine(s)])
  {
    if s != "" && s[0] == '\n' {
      BlanksAre(s[1..]);
      var n := 1 + BlanksLength(s[1..]);
      assert forall i :: 0 < i < n ==> s[i] == s[1..][i - 1];
    }
  }

  /** A text starts with at most one separator. */
  lemma SeparatorIsBlankLine(s: string, n: nat)
    requires n <= |s| && Separator(s[..n])
    ensures BlankLine(s) == n
  {
    BlanksAre(s[1..]);
    var b := BlanksLength(s[1..]);
    var g := s[..n];
    assert forall i :: 0 <= i < n ==> s[i] == g[i];
    assert forall i :: 1 <= i < |s| ==> s[i] == s[1..][i - 1];
  }

  /** The separators that the sections leave out. */
  function Gaps(s: string): (r: seq<string>)
    ensures |Sections(s)| == |r| + 1
    decreases |s|
  {
    if s == "" then []
    else if BlankLine(s) > 0 then [s[..BlankLine(s)]] + Gaps(s[BlankLine(s)..])
    else Gaps(s[1..])
  }

  lemma NoneInEmpty(next: string)
    ensures NoneIn("", next)
  {
  }

  /** One more character in front, at which no separator starts. */
  lemma NoneInMore(c: char, part: string, next: string)
    requires NoneIn(part, next) && BlankLine([c] + part + next) == 0
    ensures NoneIn([c] + part, next)
  {
    var (short, long) := (part + next, [c] + part + next);
    assert ([c] + part) + next == long;
    forall i, j | 0 <= i < |part| + 1 && i <= j <= |part| + 1 + |next| ensures !Separator(long[i..j]) {
      if i == 0 {
        if Separator(long[..j]) { SeparatorIsBlankLine(long, j); }
      } else {
        assert long[i..j] == short[i - 1..j - 1];
      }
    }
  }

  lemma NoneInLess(part: string, next: string)
    requires part != "" && NoneIn(part, next)
    ensures NoneIn(part[1..], next)
  {
    var (short, long) := (part[1..] + next, part + next);
    assert long[1..] == short;
    forall i, j | 0 <= i < |part| - 1 && i <= j <= |part| - 1 + |next| ensures !Separator(short[i..j]) {
      assert short[i..j] == long[i + 1..j + 1];
    }
  }

  /** A longer text starts with the same separator, if it starts with one at all. */
  lemma BlankLineFront(s: string, t: string)
    requires BlankLine(s + t) == 0
    ensures BlankLine(s) == 0
  {
    if BlankLine(s) > 0 {
      BlankLineIsSeparator(s);
      assert (s + t)[..BlankLine(s)] == s[..BlankLine(s)];
      SeparatorIsBlankLine(s + t, BlankLine(s));
    }
  }

  lemma WeaveFirst(c: char, parts: seq<string>, gaps: seq<string>)
    requires |parts| == |gaps| + 1
    ensures Weave([[c] + parts[0]] + parts[1..], gaps) == [c] + Weave(parts, gaps)
  {
    var longer := [[c] + parts[0]] + parts[1..];
    assert longer[1..] == parts[1..];
    if gaps != [] {
      assert [c] + parts[0] + gaps[0] + Weave(parts[1..], gaps[1..]) == [c] + (parts[0] + gaps[0] + Weave(parts[1..], gaps[1..]));
    }
  }

  lemma {:induction false} SectionsSplit(s: string)
    ensures IsSplit(s, Sections(s), Gaps(s))
    decreases |s|
  {
    hide IsSplit, BlankLine, Sections, Gaps;
    if s == "" {
      NothingSplits();
    } else if BlankLine(s) > 0 {
      SectionsSplit(s[BlankLine(s)..]);
      SeparatorFirst(s);
    } else {
      SectionsSplit(s[1..]);
      OneMore(s);
    }
  }

  lemma NothingSplits()
    ensures IsSplit("", Sections(""), Gaps(""))
  {
    hide NoneIn;
    NoneInEmpty("");
  }

  lemma SeparatorFirst(s: string)
    requires BlankLine(s) > 0 && IsSplit(s[BlankLine(s)..], Sections(s[BlankLine(s)..]), Gaps(s[BlankLine(s)..]))
    ensures IsSplit(s, Sections(s), Gaps(s))
  {
    hide IsSplit, BlankLine, Separator, Sections, Gaps;
    var (rest, gap) := (s[BlankLine(s)..], s[..BlankLine(s)]);
    SectionsAtGap(s);
    BlankLineIsSeparator(s);
    assert s == gap + rest;
    GapFirst(rest, gap, Sections(rest), Gaps(rest));
  }

  lemma SectionsAtGap(s: string)
    requires BlankLine(s) > 0
    ensures var n := BlankLine(s); Sections(s) == [""] + Sections(s[n..]) && Gaps(s) == [s[..n]] + Gaps(s[n..])
  {
    hide BlankLine;
  }

  lemma GapFirst(rest: string, gap: string, parts: seq<string>, gaps: seq<string>)
    requires Separator(gap) && IsSplit(rest, parts, gaps)
    ensures IsSplit(gap + rest, [""] + parts, [gap] + gaps)
  {
    hide NoneIn, Separator;
    var (more, wide) := ([""] + parts, [gap] + gaps);
    NoneInEmpty(gap);
    assert more[1..] == parts && wide[1..] == gaps && "" + gap == gap;
    assert more[|wide|] == parts[|gaps|];
    forall k | 0 <= k < |wide| ensures Separator(wide[k]) && NoneIn(more[k], wide[k]) {
      if k > 0 { assert wide[k] == gaps[k - 1] && more[k] == parts[k - 1]; }
    }
  }

  lemma OneMore(s: string)
    requires s != "" && BlankLine(s) == 0 && IsSplit(s[1..], Sections(s[1..]), Gaps(s[1..]))
    ensures IsSplit(s, Sections(s), Gaps(s))
  {
    hide NoneIn, Separator, BlankLine;
    var (rest, gaps) := (Sections(s[1..]), Gaps(s[1..]));
    var parts := Sections(s);
    WeaveFirst(s[0], rest, gaps);
    assert s == [s[0]] + s[1..];
    var next := if gaps == [] then "" else gaps[0];
    var later := if gaps == [] then "" else Weave(rest[1..], gaps[1..]);
    assert [s[0]] + rest[0] + next + later == s;
    BlankLineFront([s[0]] + rest[0] + next, later);
    NoneInMore(s[0], rest[0], next);
    assert parts[1..] == rest[1..];
    forall k | 0 <= k < |gaps| ensures Separator(gaps[k]) && NoneIn(parts[k], gaps[k]) {
      if k > 0 { assert parts[k] == parts[1..][k - 1] == rest[k]; }
    }
    if gaps != [] { assert parts[|gaps|] == rest[|gaps|]; }
  }

  /** And this is the only way to split the text so. */
  lemma {:induction false} SplitIsSections(s: string, parts: seq<string>, gaps: seq<string>)
    requires IsSplit(s, parts, gaps)
    ensures parts == Sections(s) && gaps == Gaps(s)
    decreases |s|
  {
    hide NoneIn, Separator, BlankLine;
    var n := BlankLine(s);
    if gaps == [] {
      WholeIsOne(s);
    } else if parts[0] == "" {
      assert parts[0] + gaps[0] == gaps[0];
      assert s[..|gaps[0]|] == gaps[0];
      SeparatorIsBlankLine(s, |gaps[0]|);
      SeparatorLength(gaps[0]);
      assert s[n..] == Weave(parts[1..], gaps[1..]);
      TailSplits(s[n..], parts, gaps);
      SplitIsSections(s[n..], parts[1..], gaps[1..]);
      assert parts == [""] + parts[1..] && gaps == [gaps[0]] + gaps[1..];
    } else {
      NoEarlierSeparator(s, parts, gaps);
      var shorter := [parts[0][1..]] + parts[1..];
      assert [parts[0][0]] + parts[0][1..] == parts[0];
      assert [[parts[0][0]] + shorter[0]] + shorter[1..] == parts;
      WeaveFirst(parts[0][0], shorter, gaps);
      assert s[1..] == Weave(shorter, gaps);
      NoneInLess(parts[0], gaps[0]);
      assert forall k :: 0 < k < |parts| ==> shorter[k] == parts[k];
      SplitIsSections(s[1..], shorter, gaps);
    }
  }

  lemma SeparatorLength(g: string)
    requires Separator(g)
    ensures |g| > 0
  {
  }

  lemma TailSplits(s: string, parts: seq<string>, gaps: seq<string>)
    requires |parts| == |gaps| + 1 && gaps != [] && s == Weave(parts[1..], gaps[1..])
    requires forall k :: 0 <= k < |gaps| ==> Separator(gaps[k]) && NoneIn(parts[k], gaps[k])
    requires NoneIn(parts[|gaps|], "")
    ensures IsSplit(s, parts[1..], gaps[1..])
  {
    hide NoneIn, Separator;
    forall k | 0 <= k < |gaps[1..]| ensures Separator(gaps[1..][k]) && NoneIn(parts[1..][k], gaps[1..][k]) {
      assert gaps[1..][k] == gaps[k + 1] && parts[1..][k] == parts[k + 1];
    }
  }

  /** A text in which no separator starts is one section. */
  lemma {:induction false} WholeIsOne(s: string)
    requires NoneIn(s, "")
    ensures Sections(s) == [s] && Gaps(s) == []
    decreases |s|
  {
    hide NoneIn, Separator, BlankLine;
    if s != "" {
      if BlankLine(s) > 0 {
        BlankLineIsSeparator(s);
        SeparatorWithin(s, "", 0, BlankLine(s));
      } else {
        NoneInLess(s, "");
        WholeIsOne(s[1..]);
        assert [s[0]] + s[1..] == s;
      }
    }
  }

  lemma SeparatorWithin(part: string, next: string, i: nat, j: nat)
    requires NoneIn(part, next) && i < |part| && i <= j <= |part| + |next|
    ensures !Separator((part + next)[i..j])
    ensures next == "" ==> !Separator(part[i..j])
  {
    assert next == "" ==> part + next == part;
  }

  lemma NoEarlierSeparator(s: string, parts: seq<string>, gaps: seq<string>)
    requires IsSplit(s, parts, gaps) && gaps != [] && parts[0] != ""
    ensures BlankLine(s) == 0
  {
    hide NoneIn, BlankLine;
    var (front, n) := (parts[0] + gaps[0], BlankLine(s));
    assert s == front + Weave(parts[1..], gaps[1..]);
    assert Separator(gaps[0]) && NoneIn(parts[0], gaps[0]);
    assert s[|front| - 1] == '\n';
    if n > 0 {
      BlankLineIsSeparator(s);
      assert n <= |front|;
      assert front[0..n] == s[..n];
      SeparatorWithin(parts[0], gaps[0], 0, n);
    }
  }

  // ---------------------------------------------------------------- the paragraphs of a text

  predicate LineEnds(s: string) {
    forall i :: 0 <= i < |s| ==> s[i] == '\n'
  }

  /** The section without the line ends at its two ends. */
  ghost predicate Trimmed(block: string, section: string) {
    && (block != "" ==> block[0] != '\n' && block[|block| - 1] != '\n')
    && exists i, j :: 0 <= i <= j <= |section| && Middle(block, section, i, j)
  }

  predicate Middle(block: string, section: string, i: nat, j: nat)
    requires i <= j <= |section|
  {
    block == section[i..j] && LineEnds(section[..i]) && LineEnds(section[j..])
  }

  lemma {:induction false} StripTrims(s: string)
    ensures Trimmed(StripNewlines(s), s)
    decreases |s|
  {
    hide Trimmed;
    if s != "" && s[0] == '\n' {
      StripTrims(s[1..]);
      FrontTrims(StripNewlines(s), s);
    } else if s != "" && s[|s| - 1] == '\n' {
      StripTrims(s[..|s| - 1]);
      BackTrims(StripNewlines(s), s);
    } else {
      NothingTrims(s);
    }
  }

  lemma LineEndsJoin(a: string, b: string)
    requires LineEnds(a) && LineEnds(b)
    ensures LineEnds(a + b)
  {
  }

  lemma FrontTrims(block: string, s: string)
    requires s != "" && s[0] == '\n' && Trimmed(block, s[1..])
    ensures Trimmed(block, s)
  {
    var i, j :| 0 <= i <= j <= |s[1..]| && Middle(block, s[1..], i, j);
    LineEndsJoin(['\n'], s[1..][..i]);
    hide LineEnds;
    assert s[1..][i..j] == s[i + 1..j + 1];
    assert s[1..][j..] == s[j + 1..];
    assert s[..i + 1] == ['\n'] + s[1..][..i];
    assert Middle(block, s, i + 1, j + 1);
  }

  lemma BackTrims(block: string, s: string)
    requires s != "" && s[|s| - 1] == '\n' && Trimmed(block, s[..|s| - 1])
    ensures Trimmed(block, s)
  {
    var t := s[..|s| - 1];
    var i, j :| 0 <= i <= j <= |t| && Middle(block, t, i, j);
    LineEndsJoin(t[j..], ['\n']);
    hide LineEnds;
    assert t[i..j] == s[i..j];
    assert t[..i] == s[..i];
    assert s[j..] == t[j..] + ['\n'];
    assert Middle(block, s, i, j);
  }

  lemma NothingTrims(s: string)
    requires s == "" || (s[0] != '\n' && s[|s| - 1] != '\n')
    ensures Trimmed(s, s)
  {
    assert s[0..|s|] == s && s[|s|..] == "";
    assert Middle(s, s, 0, |s|);
  }

  /** The blocks are exactly the sections that are not blank, in order and trimmed; `at` says which. */
  ghost predicate Selects(sections: seq<string>, blocks: seq<string>, at: seq<nat>) {
    && |at| == |blocks|
    && (forall k, l :: 0 <= k < l < |at| ==> at[k] < at[l])
    && (forall k :: 0 <= k < |at| ==> at[k] < |sections| && !Blank(sections[at[k]]) && Trimmed(blocks[k], sections[at[k]]))
    && (forall i :: 0 <= i < |sections| && !Blank(sections[i]) ==> i in at)
  }

  lemma {:induction false} NonBlankPicks(sections: seq<string>)
    ensures exists at :: Selects(sections, NonBlank(sections), at)
  {
    hide Blank, Trimmed, StripNewlines;
    if sections == [] {
      var none: seq<nat> := [];
      assert Selects(sections, NonBlank(sections), none);
    } else {
      NonBlankPicks(sections[1..]);
      var rest :| Selects(sections[1..], NonBlank(sections[1..]), rest);
      MorePicks(sections, rest);
    }
  }

  lemma MorePicks(sections: seq<string>, rest: seq<nat>)
    requires sections != [] && Selects(sections[1..], NonBlank(sections[1..]), rest)
    ensures exists at :: Selects(sections, NonBlank(sections), at)
  {
    hide Blank, Trimmed, StripNewlines, Selects;
    var moved := Moved(rest);
    MovedPicks(sections, NonBlank(sections[1..]), rest);
    if Blank(sections[0]) {
      assert NonBlank(sections) == NonBlank(sections[1..]);
      BlankFirst(sections, NonBlank(sections), moved);
    } else {
      assert NonBlank(sections) == [StripNewlines(sections[0])] + NonBlank(sections[1..]);
      StripTrims(sections[0]);
      BlockFirst(sections, StripNewlines(sections[0]), NonBlank(sections[1..]), moved);
    }
  }

  function Moved(at: seq<nat>): (r: seq<nat>)
    ensures |r| == |at| && forall k :: 0 <= k < |at| ==> r[k] == at[k] + 1
  {
    if at == [] then [] else [at[0] + 1] + Moved(at[1..])
  }

  /** The blocks come from the sections behind the first one. */
  ghost predicate SelectsBehind(sections: seq<string>, blocks: seq<string>, at: seq<nat>) {
    && |at| == |blocks|
    && (forall k, l :: 0 <= k < l < |at| ==> at[k] < at[l])
    && (forall k :: 0 <= k < |at| ==> 0 < at[k] < |sections|)
    && (forall k :: 0 <= k < |at| ==> !Blank(sections[at[k]]) && Trimmed(blocks[k], sections[at[k]]))
    && (forall i :: 1 <= i < |sections| && !Blank(sections[i]) ==> i in at)
  }

  lemma MovedPicks(sections: seq<string>, blocks: seq<string>, rest: seq<nat>)
    requires sections != [] && Selects(sections[1..], blocks, rest)
    ensures SelectsBehind(sections, blocks, Moved(rest))
  {
    hide Blank, Trimmed, Moved;
    var at := Moved(rest);
    forall k | 0 <= k < |at| ensures 0 < at[k] < |sections| && !Blank(sections[at[k]]) && Trimmed(blocks[k], sections[at[k]]) {
      assert sections[at[k]] == sections[1..][rest[k]];
    }
    MovedCovers(sections, rest);
  }

  lemma MovedCovers(sections: seq<string>, rest: seq<nat>)
    requires sections != [] && forall i :: 0 <= i < |sections[1..]| && !Blank(sections[1..][i]) ==> i in rest
    ensures forall i :: 1 <= i < |sections| && !Blank(sections[i]) ==> i in Moved(rest)
  {
    hide Blank, Moved;
    forall i | 1 <= i < |sections| && !Blank(sections[i]) ensures i in Moved(rest) {
      assert sections[i] == sections[1..][i - 1];
      var l :| 0 <= l < |rest| && rest[l] == i - 1;
      assert Moved(rest)[l] == i;
    }
  }

  lemma BlankFirst(sections: seq<string>, blocks: seq<string>, at: seq<nat>)
    requires sections != [] && Blank(sections[0]) && SelectsBehind(sections, blocks, at)
    ensures Selects(sections, blocks, at)
  {
    hide Blank, Trimmed;
  }

  lemma BlockFirst(sections: seq<string>, block: string, blocks: seq<string>, at: seq<nat>)
    requires sections != [] && !Blank(sections[0]) && Trimmed(block, sections[0]) && SelectsBehind(sections, blocks, at)
    ensures Selects(sections, [block] + blocks, [0] + at)
  {
    hide Blank, Trimmed;
    var all: seq<nat> := [0] + at;
    assert forall k :: 0 < k < |all| ==> all[k] == at[k - 1] && ([block] + blocks)[k] == blocks[k - 1];
    assert all[0] == 0;
  }

  /** The paragraphs of a text to insert, apart from the scan: there is exactly one way to take out separators such that none
      starts earlier, and the blocks are the parts between them that are not blank, in order, each without the line ends at
      its two ends. */
  lemma BlocksAreTheParagraphs(text: string)
    ensures exists parts, gaps :: IsSplit(Clean(text), parts, gaps)
    ensures forall parts, gaps :: IsSplit(Clean(text), parts, gaps) ==> exists at :: Selects(parts, Blocks(text), at)
  {
    hide IsSplit, Selects, Clean;
    SectionsSplit(Clean(text));
    forall parts, gaps | IsSplit(Clean(text), parts, gaps) ensures exists at :: Selects(parts, Blocks(text), at) {
      SplitIsSections(Clean(text), parts, gaps);
      NonBlankPicks(parts);
      assert Blocks(text) == NonBlank(parts);
    }
  }

  // ---------------------------------------------------------------- cleaning

  predicate IsClean(s: string) {
    forall i :: 0 <= i < |s| ==> !Control(s[i]) && s[i] != '\r'
  }

  lemma {:induction false} PrintableParts(a: string, b: string)
    ensures Printable(a + b) == Printable(a) + Printable(b)
  {
    if a == "" {
      assert a + b == b;
    } else {
      assert (a + b)[1..] == a[1..] + b;
      PrintableParts(a[1..], b);
    }
  }

  lemma {:induction false} NewlinesParts(a: string, b: string)
    requires !(a != "" && a[|a| - 1] == '\r' && b != "" && b[0] == '\n')
    ensures Newlines(a + b) == Newlines(a) + Newlines(b)
    decreases |a|
  {
    hide Newlines;
    if a == "" {
      NoLines();
      assert a + b == b;
    } else {
      var n := if a[0] == '\r' && |a| > 1 && a[1] == '\n' then 2 else 1;
      NewlinesFront(a);
      NewlinesFront(a + b);
      assert (a + b)[n..] == a[n..] + b;
      NewlinesParts(a[n..], b);
    }
  }

  lemma NoLines()
    ensures Newlines("") == ""
  {
  }

  lemma NewlinesFront(s: string)
    requires s != ""
    ensures Newlines(s) == (if s[0] == '\r' then "\n" else [s[0]])
                           + Newlines(s[if s[0] == '\r' && |s| > 1 && s[1] == '\n' then 2 else 1..])
  {
  }

  lemma {:induction false} NewlinesClean(s: string)
    ensures forall i :: 0 <= i < |Newlines(s)| ==> Newlines(s)[i] != '\r'
    ensures (forall i :: 0 <= i < |s| ==> s[i] != '\r') ==> Newlines(s) == s
    decreases |s|
  {
    if s != "" {
      if s[0] == '\r' && |s| > 1 && s[1] == '\n' { NewlinesClean(s[2..]); } else { NewlinesClean(s[1..]); }
      assert s == [s[0]] + s[1..];
    }
  }

  lemma {:induction false} PrintableClean(s: string)
    ensures forall i :: 0 <= i < |Printable(s)| ==> !Control(Printable(s)[i]) && Printable(s)[i] in s
    ensures (forall i :: 0 <= i < |s| ==> !Control(s[i])) ==> Printable(s) == s
  {
    if s != "" {
      PrintableClean(s[1..]);
      assert s == [s[0]] + s[1..];
    }
  }

  /** Cleaning works piece by piece, keeps text that is clean, turns each line end into one newline and drops what XML may not
      hold. */
  lemma CleanText(a: string, b: string, c: char)
    ensures IsClean(Clean(a))
    ensures IsClean(a) ==> Clean(a) == a
    ensures !(a != "" && a[|a| - 1] == '\r' && b != "" && b[0] == '\n') ==> Clean(a + b) == Clean(a) + Clean(b)
    ensures Clean("\r\n") == Clean("\r") == "\n"
    ensures Control(c) ==> Clean([c]) == ""
  {
    LineEndsClean();
    ControlDrops(c);
    hide Newlines, Printable, Control;
    NewlinesClean(a);
    PrintableClean(Newlines(a));
    PrintableParts(Newlines(a), Newlines(b));
    if !(a != "" && a[|a| - 1] == '\r' && b != "" && b[0] == '\n') { NewlinesParts(a, b); }
  }

  lemma ControlDrops(c: char)
    ensures Control(c) ==> Clean([c]) == ""
  {
    assert [c][1..] == "";
    if Control(c) {
      assert Newlines("") == "" && Printable("") == "";
      assert Newlines([c]) == [c];
      assert Printable([c]) == "";
    }
  }

  lemma LineEndsClean()
    ensures Clean("\r\n") == "\n" && Clean("\r") == "\n"
  {
    assert "\r\n"[2..] == "" && "\r"[1..] == "" && "\n"[1..] == "";
    assert Newlines("\r\n") == "\n" && Newlines("\r") == "\n";
    assert Printable("\n") == "\n";
  }

  // ---------------------------------------------------------------- squeezing

  /** The first word of a text that starts with one. */
  function FirstWord(s: string): (w: string)
    ensures |w| <= |s| && w == s[..|w|] && (|w| < |s| ==> Space(s[|w|])) && forall c <- w :: !Space(c)
  {
    if s == "" || Space(s[0]) then "" else [s[0]] + FirstWord(s[1..])
  }

  /** The words of a text: its longest pieces without white space. */
  function Words(s: string): seq<string>
    decreases |s|
  {
    if s == "" then []
    else if Space(s[0]) then Words(s[1..])
    else [FirstWord(s)] + Words(s[|FirstWord(s)|..])
  }

  function Spaced(words: seq<string>): string {
    if words == [] then "" else if |words| == 1 then words[0] else words[0] + " " + Spaced(words[1..])
  }

  lemma {:induction false} SkipKeepsWords(s: string)
    ensures Words(SkipSpace(s)) == Words(s)
    ensures SkipSpace(s) == "" || !Space(SkipSpace(s)[0])
  {
    if s != "" && Space(s[0]) { SkipKeepsWords(s[1..]); }
  }

  lemma {:induction false} CollapseWord(w: string, rest: string)
    requires forall c <- w :: !Space(c)
    ensures Collapse(w + rest) == w + Collapse(rest)
  {
    if w == "" {
      assert w + rest == rest;
    } else {
      assert (w + rest)[1..] == w[1..] + rest;
      CollapseWord(w[1..], rest);
    }
  }

  /** A text that starts with a word collapses to its words, with a blank behind them if it ends in white space. */
  lemma {:induction false} CollapseGivesWords(s: string)
    requires s != "" && !Space(s[0])
    ensures Words(s) != [] && (Collapse(s) == Spaced(Words(s)) || Collapse(s) == Spaced(Words(s)) + " ")
    decreases |s|
  {
    var w := FirstWord(s);
    var rest := s[|w|..];
    assert s == w + rest;
    CollapseWord(w, rest);
    if rest != "" {
      var t := SkipSpace(rest[1..]);
      SkipKeepsWords(rest[1..]);
      assert Words(rest) == Words(t) && Collapse(rest) == " " + Collapse(t);
      if t != "" {
        CollapseGivesWords(t);
        assert Words(s) == [w] + Words(t);
        assert Words(s)[1..] == Words(t);
      } else {
        assert Words(s) == [w];
      }
    } else {
      assert Words(s) == [w];
    }
  }

  lemma {:induction false} SpacedEnds(words: seq<string>)
    requires words != [] && forall i :: 0 <= i < |words| ==> Solid(words[i])
    ensures var s := Spaced(words); s != "" && !Space(s[0]) && !Space(s[|s| - 1])
  {
    var w := words[0];
    assert Solid(w) && w[0] in w && w[|w| - 1] in w;
    if |words| > 1 { SpacedEnds(words[1..]); }
  }

  predicate Solid(w: string) {
    w != "" && forall c <- w :: !Space(c)
  }

  lemma {:induction false} WordsAreWords(s: string)
    ensures forall i :: 0 <= i < |Words(s)| ==> Solid(Words(s)[i])
    decreases |s|
  {
    if s != "" {
      if Space(s[0]) { WordsAreWords(s[1..]); } else { WordsAreWords(s[|FirstWord(s)|..]); }
    }
  }

  /** Squeezing a phrase leaves exactly its words, in order, with one blank between them. */
  lemma SqueezeIsWords(s: string)
    ensures Squeeze(s) == Spaced(Words(s))
  {
    hide Words, Spaced, Collapse;
    var t := SkipSpace(s);
    SkipKeepsWords(s);
    CollapseLeading(s);
    WordsAreWords(s);
    if t != "" {
      CollapseGivesWords(t);
      SpacedEnds(Words(t));
      var spaced := Spaced(Words(t));
      assert SkipSpace(Collapse(s)) == Collapse(t);
      assert (spaced + " ")[..|spaced|] == spaced;
      assert StripEnd(spaced + " ") == StripEnd(spaced) == spaced;
      assert SkipSpace(Collapse(t)) == Collapse(t);
    } else {
      NoWords();
    }
  }

  lemma NoWords()
    ensures Spaced(Words("")) == "" && Collapse("") == ""
  {
  }

  /** White space in front collapses to one blank, which is stripped. */
  lemma CollapseLeading(s: string)
    ensures var t := SkipSpace(s); SkipSpace(Collapse(s)) == Collapse(t)
  {
    var t := SkipSpace(s);
    SkipKeepsWords(s);
    if s != "" && Space(s[0]) {
      assert Collapse(s) == " " + Collapse(t);
      assert (" " + Collapse(t))[1..] == Collapse(t);
    }
  }
}
