/** What the case file of the desk records, in plain numbers and over any sequence of operations. */
module DeskFile {
  import opened Options
  import opened ReceiptWindow
  import opened DeskCase
  import opened DeskInbox
  import opened DeskTimer

  // ---------------------------------------------------------------- an event arrives

  /** The log with one more entry, of which the latest eighty stay. */
  ghost predicate Logged(before: seq<Entry>, after: seq<Entry>, e: Entry) {
    && |after| == (if |before| < 80 then |before| + 1 else 80)
    && after[|after| - 1] == e && |before| + 1 >= |after|
    && after[..|after| - 1] == before[|before| + 1 - |after|..]
  }

  /** The event says who asked for the case. */
  predicate NamesRequester(e: Event) {
    e.actor != "" && e.source != "timer" && e.source != "review" && e.source != "approval"
  }

  /** An event is filed unless it was seen before, the case is unknown, or the case is finished and the event does not reopen
      it. A filed event waits last in line, of which the latest twenty-four stay, and is logged; a finished case is worked again;
      the record and the requester of the case are the first ones named. */
  lemma EventIsFiled(d: Doc, e: Event, known: bool, colleague: string, now: real)
    ensures var r := Submit(d, e, known, colleague, now);
      var reopens := e.kind == "reopen" || e.kind == "created" || e.source == "operator";
      if e.id in d.seen || (d.file == None && !known)
         || (d.file.Some? && d.file.value.status in {Closed, Escalated, Cancelled} && !reopens)
      then r == d
      else
        && r.file.Some? && r.active && e.id in r.seen
        && var g := r.file.value;
        && |g.pending| > 0 && g.pending[|g.pending| - 1] == e
        && (d.file == None ==>
              g.status == New && g.pending == [e] && g.recordId == e.recordId && g.requester == e.actor && g.nextWakeAt == None
              && g.waiting == None && g.errors == 0 && g.turns == 0 && g.colleague == colleague)
        && (d.file.Some? ==>
              var f := d.file.value;
              && g.status == (if f.status in {Closed, Escalated, Cancelled} then Working else f.status)
              && g.closedAt == (if f.status in {Closed, Escalated, Cancelled} then None else f.closedAt)
              && Logged(f.timeline, g.timeline, Entry(e.at, e.source + "." + e.kind, e.text, e.actor))
              && g.pending == (if |f.pending| < 24 then f.pending + [e] else (f.pending + [e])[|f.pending| - 23..])
              && g.recordId == (if f.recordId == "" then e.recordId else f.recordId)
              && g.requester == (if f.requester == "" && NamesRequester(e) then e.actor else f.requester)
              && g.nextWakeAt == f.nextWakeAt && g.waiting == f.waiting && g.errors == f.errors)
  {
    var seen := d.seen + [e.id];
    assert seen[|d.seen|] == e.id;
    if d.file.Some? {
      var all := d.file.value.timeline + [Entry(e.at, e.source + "." + e.kind, e.text, e.actor)];
      assert all[|all| - 1] == Entry(e.at, e.source + "." + e.kind, e.text, e.actor);
    }
  }

  /** Taking hands over all that waits; an open case is then being worked, a finished one stays finished. */
  lemma TakenIsWorked(d: Doc)
    ensures var r := Take(d);
      if Pending(d) == [] then r == d
      else
        && r.file.Some? && r.seen == d.seen && r.active == d.active
        && var (f, g) := (d.file.value, r.file.value);
        && g == f.(pending := [], status := g.status)
        && g.status == (if f.status in {Closed, Escalated, Cancelled} then f.status else Working)
  {
  }

  // ---------------------------------------------------------------- the end of a turn

  /** How a turn ends, in numbers: three failures in a row hand an open case to a person and stop its wake-up; a case still
      being worked goes on waiting for what its tools have asked for, and is otherwise looked at again after an hour, or after
      ten minutes if the turn failed; any other case stays as its tools have left it. */
  lemma EndOfTurnInNumbers(f: File, o: Outcome, now: real)
    ensures var g := EndOfTurn(f, o, now);
      var errors := if o.error then f.errors + 1 else 0;
      && g.errors == errors && g.turns == f.turns + 1 && g.pending == f.pending
      && (if errors >= 3 && f.status !in {Closed, Escalated, Cancelled} then
            g.status == Escalated && g.closedAt == Some(now) && g.waiting == None && g.nextWakeAt == None
          else if f.status == Working then
            && g.status == Waiting && g.closedAt == f.closedAt && g.waiting.Some? && (f.waiting.Some? ==> g.waiting == f.waiting)
            && g.nextWakeAt == (if f.nextWakeAt.Some? && f.nextWakeAt != Some(0.0) then f.nextWakeAt
                                else Some(now + if o.error then 600.0 else 3600.0))
          else g.status == f.status && g.closedAt == f.closedAt && g.waiting == f.waiting && g.nextWakeAt == f.nextWakeAt)
  {
    hide Log;
  }

  // ---------------------------------------------------------------- finished cases

  /** An update is refused exactly for a case that does not exist, a wait for an unknown party and a finish in a state that is
      not final; a refused one changes nothing. */
  lemma RefusedIff(d: Doc, c: Change, now: real)
    ensures Update(d, c, now) == None <==>
            || d.file == None
            || (c.WaitFor? && c.party !in {"requester", "approval", "participants", "vendor", "confirmation", "other"})
            || (c.Finish? && c.state !in {Closed, Escalated, Cancelled})
    ensures Update(d, c, now) == None ==> Step(d, Edit(c, now)) == d
  {
  }

  /** The case is over: nobody will be woken for it. */
  ghost predicate Over(d: Doc, state: Status, at: real) {
    && d.file.Some? && d.file.value.status == state && d.file.value.closedAt == Some(at) && d.file.value.nextWakeAt == None
    && d.file.value.waiting == None && !d.active
  }

  /** What can happen to a case without anybody reopening or editing it. */
  predicate Leaves(op: Op) {
    match op
    case Arrive(e, _, _, _) => e.kind != "reopen" && e.kind != "created" && e.source != "operator"
    case TakeAll => true
    case Edit(_, _) => false
  }

  /** A finished case stays finished, without wake-up, whatever arrives and is taken, until somebody reopens or edits it. */
  lemma FinishedStaysFinished(d: Doc, state: Status, note: string, now: real, ops: seq<Op>)
    requires d.file.Some? && state in {Closed, Escalated, Cancelled} && forall op <- ops :: Leaves(op)
    ensures Over(Run(Step(d, Edit(Finish(state, note), now)), ops), state, now)
  {
    hide Log, StatusName;
    StaysOver(Step(d, Edit(Finish(state, note), now)), state, now, ops);
  }

  lemma {:induction false} StaysOver(d: Doc, state: Status, at: real, ops: seq<Op>)
    requires Over(d, state, at) && state in {Closed, Escalated, Cancelled} && forall op <- ops :: Leaves(op)
    ensures Over(Run(d, ops), state, at)
    decreases |ops|
  {
    hide Admit;
    if ops != [] {
      assert ops[0] in ops && Leaves(ops[0]);
      assert Over(Step(d, ops[0]), state, at);
      StaysOver(Step(d, ops[0]), state, at, ops[1..]);
    }
  }

  // ---------------------------------------------------------------- follow-ups

  /** Waits for one party, one after the other, each with its reason, its delay and its clock reading. */
  function Waited(f: File, party: string, waits: seq<(string, Option<real>, real)>): File {
    if waits == [] then f
    else
      var last := waits[|waits| - 1];
      Changed(Waited(f, party, waits[..|waits| - 1]), WaitFor(party, last.0, last.1), last.2)
  }

  /** The follow-ups of a wait count how often in a row the case has been told to wait for the same party before. */
  lemma {:induction false} FollowUpsCount(f: File, party: string, waits: seq<(string, Option<real>, real)>)
    requires waits != [] && (f.waiting.Some? ==> f.waiting.value.party != party)
    ensures var g := Waited(f, party, waits);
      g.waiting.Some? && g.waiting.value.party == party && g.waiting.value.followUps == |waits| - 1
  {
    hide After;
    if |waits| > 1 {
      FollowUpsCount(f, party, waits[..|waits| - 1]);
    } else {
      assert Waited(f, party, waits[..0]) == f;
    }
  }

  // ---------------------------------------------------------------- timer events

  lemma {:induction false} DecimalIsOne(a: nat, b: nat)
    requires Decimal(a) == Decimal(b)
    ensures a == b
  {
    DigitsTell(a, b);
    if a >= 10 && b >= 10 {
      LastDigit(a);
      LastDigit(b);
      DecimalIsOne(a / 10, b / 10);
    }
  }

  lemma LastDigit(n: nat)
    requires n >= 10
    ensures var d := Decimal(n); |d| >= 2 && d[..|d| - 1] == Decimal(n / 10) && d[|d| - 1] == "0123456789"[n % 10]
  {
    DecimalNotEmpty(n / 10);
  }

  lemma {:induction false} DecimalNotEmpty(n: nat)
    ensures |Decimal(n)| >= 1 && (n >= 10 ==> |Decimal(n)| >= 2) && (n < 10 ==> |Decimal(n)| == 1)
    ensures forall i :: 0 <= i < |Decimal(n)| ==> Decimal(n)[i] in "0123456789"
  {
    if n >= 10 { DecimalNotEmpty(n / 10); }
  }

  lemma OneDigit(a: nat, b: nat)
    requires a < 10 && b < 10 && "0123456789"[a] == "0123456789"[b]
    ensures a == b
  {
  }

  lemma DigitsTell(a: nat, b: nat)
    requires Decimal(a) == Decimal(b)
    ensures (a < 10 <==> b < 10) && a % 10 == b % 10
  {
    DecimalNotEmpty(a);
    DecimalNotEmpty(b);
    if a >= 10 && b >= 10 {
      LastDigit(a);
      LastDigit(b);
      OneDigit(a % 10, b % 10);
    } else if a < 10 && b < 10 {
      OneDigit(a, b);
    }
  }

  /** The whole seconds of a time, with the fraction cut off. */
  function Seconds(t: real): int {
    if t >= 0.0 then t.Floor else -((-t).Floor)
  }

  lemma IdOfSeconds(key: string, t: real)
    ensures var n := Seconds(t);
      TimerId(key, t) == "timer:" + key + ":" + (if n >= 0 then Decimal(n) else "-" + Decimal(-n))
  {
    hide Decimal;
    ZeroDigits();
  }

  lemma ZeroDigits()
    ensures Decimal(0) == "0"
  {
  }

  /** Two timer events of a case count as the same one exactly if their times fall in the same second. */
  lemma TimerIdsTell(key: string, a: real, b: real)
    ensures TimerId(key, a) == TimerId(key, b) <==> Seconds(a) == Seconds(b)
  {
    hide TimerId, Decimal;
    IdOfSeconds(key, a);
    IdOfSeconds(key, b);
    var (m, n) := (Seconds(a), Seconds(b));
    var (x, y) := (SignedDecimal(m), SignedDecimal(n));
    var front := "timer:" + key + ":";
    if TimerId(key, a) == TimerId(key, b) {
      assert (front + x)[|front|..] == x && (front + y)[|front|..] == y;
      SignedTells(m, n);
    }
  }

  function SignedDecimal(n: int): string {
    if n >= 0 then Decimal(n) else "-" + Decimal(-n)
  }

  lemma SignedTells(m: int, n: int)
    requires SignedDecimal(m) == SignedDecimal(n)
    ensures m == n
  {
    hide Decimal;
    var (p, q) := (if m >= 0 then m else -m, if n >= 0 then n else -n);
    DecimalNotEmpty(p);
    DecimalNotEmpty(q);
    assert m < 0 ==> SignedDecimal(m)[0] == '-' && SignedDecimal(m)[1..] == Decimal(p);
    assert n < 0 ==> SignedDecimal(n)[0] == '-' && SignedDecimal(n)[1..] == Decimal(q);
    assert Decimal(p)[0] in "0123456789" && Decimal(q)[0] in "0123456789";
    assert Decimal(p) == Decimal(q);
    DecimalIsOne(p, q);
  }

  /** The loop sleeps exactly until its earliest entry, but at least half a second and at most fifteen minutes, which is also
      how long it sleeps without entries. */
  lemma SleepsUntilDue(s: System, e: (real, string))
    requires s.loop.Draining? && AllLater(s.agenda, s.loop.asOf)
    requires e in s.agenda && forall other <- s.agenda :: e.0 <= other.0
    ensures var z := Next(s, Sleep);
      && z.loop.Sleeping? && 0.5 <= z.loop.until - s.now <= 900.0
      && (0.5 <= e.0 - s.now <= 900.0 ==> z.loop.until == e.0)
  {
    hide IsEarliest;
  }

  lemma SleepsWithoutEntries(s: System)
    requires s.loop.Draining? && s.agenda == multiset{}
    ensures Next(s, Sleep).loop == Sleeping(s.now, s.now + 900.0)
  {
  }
}
