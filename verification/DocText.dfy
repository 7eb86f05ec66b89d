/** The string operations of the document editor: cleaning, splitting and locating a phrase. */
module DocText {
  import opened Options

  /** What `str.isspace` and `\s` accept. */
  predicate Space(c: char) {
    var n := c as int;
    || 9 <= n <= 13 || 28 <= n <= 32 || n == 0x85 || n == 0xA0 || n == 0x1680 || 0x2000 <= n <= 0x200A
    || n in {0x2028, 0x2029, 0x202F, 0x205F, 0x3000}
  }

  predicate Blank(s: string) {
    forall c <- s :: Space(c)
  }

  /** Characters that XML text may not hold. */
  predicate Control(c: char) {
    var n := c as int;
    n <= 8 || n in {11, 12} || 14 <= n <= 31 || n in {0xFFFE, 0xFFFF}
  }

  function Newlines(s: string): string {
    if s == "" then ""
    else if s[0] == '\r' then "\n" + if |s| > 1 && s[1] == '\n' then Newlines(s[2..]) else Newlines(s[1..])
    else [s[0]] + Newlines(s[1..])
  }

  function Printable(s: string): string {
    if s == "" then "" else (if Control(s[0]) then "" else [s[0]]) + Printable(s[1..])
  }

  /** `_clean`. */
  function Clean(s: string): string {
    Printable(Newlines(s))
  }

  function SkipSpace(s: string): (r: string)
    ensures |r| <= |s|
  {
    if s != "" && Space(s[0]) then SkipSpace(s[1..]) else s
  }

  function Collapse(s: string): string
    decreases |s|
  {
    if s == "" then ""
    else if Space(s[0]) then " " + Collapse(SkipSpace(s[1..]))
    else [s[0]] + Collapse(s[1..])
  }

  function StripEnd(s: string): string {
    if s != "" && Space(s[|s| - 1]) then StripEnd(s[..|s| - 1]) else s
  }

  /** `re.sub(r"\s+", " ", find).strip()`. */
  function Squeeze(s: string): string {
    StripEnd(SkipSpace(Collapse(s)))
  }

  // ---------------------------------------------------------------- finding

  predicate OccursAt(full: string, phrase: string, i: int) {
    0 <= i && i + |phrase| <= |full| && full[i..i + |phrase|] == phrase
  }

  /** `full.find(phrase, from)`. */
  function FindFrom(full: string, phrase: string, from: nat): (r: Option<nat>)
    ensures r.Some? ==> from <= r.value && OccursAt(full, phrase, r.value)
    ensures forall i :: from <= i && OccursAt(full, phrase, i) ==> r.Some? && r.value <= i
    decreases |full| - from
  {
    if from + |phrase| > |full| then None
    else if full[from..from + |phrase|] == phrase then Some(from)
    else FindFrom(full, phrase, from + 1)
  }

  datatype Located = Absent | Repeated | At(start: nat, phrase: string)

  function Locate(full: string, find: string): Located {
    var exact := FindFrom(full, find, 0);
    var phrase := if exact.Some? then find else Squeeze(find);
    var start := if exact.Some? then exact else FindFrom(full, phrase, 0);
    if start.None? then Absent
    else if FindFrom(full, phrase, start.value + 1).Some? then Repeated
    else At(start.value, phrase)
  }

  predicate Occurs(full: string, phrase: string) {
    exists i :: 0 <= i <= |full| && OccursAt(full, phrase, i)
  }

  /** The phrase looked for: as quoted when it occurs so, else with its white space squeezed. */
  function Wanted(full: string, find: string): string {
    if Occurs(full, find) then find else Squeeze(find)
  }

  /** A place is found exactly when the wanted phrase occurs there and nowhere else, overlaps included. */
  lemma LocatedIffUnique(full: string, find: string, start: nat, phrase: string)
    ensures Locate(full, find) == At(start, phrase) <==>
            && phrase == Wanted(full, find) && OccursAt(full, phrase, start)
            && forall i :: OccursAt(full, phrase, i) ==> i == start
    ensures Locate(full, find) == Absent <==> !Occurs(full, Wanted(full, find))
  {
    assert FindFrom(full, find, 0).Some? <==> Occurs(full, find);
  }

  // ---------------------------------------------------------------- splitting

  /** `re.split(r"\*\*", s)`. */
  function Chunks(s: string): (r: seq<string>)
    ensures |r| > 0
  {
    if s == "" then [""]
    else if |s| > 1 && s[0] == '*' && s[1] == '*' then [""] + Chunks(s[2..])
    else var r := Chunks(s[1..]); [[s[0]] + r[0]] + r[1..]
  }

  /** `s.split("\n")`. */
  function Lines(s: string): (r: seq<string>)
    ensures |r| > 0
  {
    if s == "" then [""]
    else if s[0] == '\n' then [""] + Lines(s[1..])
    else var r := Lines(s[1..]); [[s[0]] + r[0]] + r[1..]
  }

  /** The text without its bold marks. */
  function Unmarked(s: string): string {
    if s == "" then ""
    else if |s| > 1 && s[0] == '*' && s[1] == '*' then Unmarked(s[2..])
    else [s[0]] + Unmarked(s[1..])
  }

  function BlanksLength(s: string): (n: nat)
    ensures n <= |s|
  {
    if s != "" && s[0] in {' ', '\t'} then 1 + BlanksLength(s[1..]) else 0
  }

  /** How long the blank line at the start of the text is; zero when there is none. */
  function BlankLine(s: string): (n: nat)
    ensures n <= |s|
  {
    if s == "" || s[0] != '\n' then 0
    else
      var n := 1 + BlanksLength(s[1..]);
      if n < |s| && s[n] == '\n' then n + 1 else 0
  }

  /** `re.split(r"\n[ \t]*\n", s)`. */
  function Sections(s: string): (r: seq<string>)
    ensures |r| > 0
    decreases |s|
  {
    if s == "" then [""]
    else if BlankLine(s) > 0 then [""] + Sections(s[BlankLine(s)..])
    else var r := Sections(s[1..]); [[s[0]] + r[0]] + r[1..]
  }

  function StripNewlines(s: string): string
    decreases |s|
  {
    if s != "" && s[0] == '\n' then StripNewlines(s[1..])
    else if s != "" && s[|s| - 1] == '\n' then StripNewlines(s[..|s| - 1])
    else s
  }

  function NonBlank(sections: seq<string>): seq<string> {
    if sections == [] then []
    else (if Blank(sections[0]) then [] else [StripNewlines(sections[0])]) + NonBlank(sections[1..])
  }

  /** The paragraphs of a text to insert. */
  function Blocks(s: string): seq<string> {
    NonBlank(Sections(Clean(s)))
  }
}
