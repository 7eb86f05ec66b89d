/** The case file of the desk and every change made to it inside one store update.

    Texts arrive already cleaned; token and run bookkeeping is left out. */
module DeskCase {
  import opened Options
  import opened ReceiptWindow

  const MAX_PENDING := 24
  const MAX_SEEN := 400
  const MAX_TIMELINE := 80
  const MAX_ERRORS := 3
  const RETRY_SECONDS := 600.0
  const PROGRESS_SECONDS := 3600.0

  datatype Status = New | Working | Waiting | Resolved | Closed | Escalated | Cancelled
  datatype Event = Event(id: string, source: string, kind: string, recordId: string, actor: string, text: string, at: real)
  datatype Entry = Entry(at: real, kind: string, text: string, who: string)
  datatype WaitState = WaitState(reason: string, party: string, since: real, followUps: nat)
  datatype File = File(status: Status, closedAt: Option<real>, pending: seq<Event>, timeline: seq<Entry>, recordId: string,
                       requester: string, colleague: string, waiting: Option<WaitState>, nextWakeAt: Option<real>,
                       wakeReason: string, turns: nat, errors: nat, updatedAt: real)
  datatype Doc = Doc(seen: seq<string>, file: Option<File>, active: bool)

  predicate Final(s: Status) {
    s in {Closed, Escalated, Cancelled}
  }

  /** Python's truth value of `nextWakeAt`: neither missing nor zero. */
  predicate Wakes(at: Option<real>) {
    at.Some? && at.value != 0.0
  }

  function Log(timeline: seq<Entry>, e: Entry): seq<Entry> {
    LastN(timeline + [e], MAX_TIMELINE)
  }

  function NewFile(e: Event, colleague: string, now: real): File {
    File(New, None, [], [], e.recordId, e.actor, colleague, None, None, "", 0, 0, now)
  }

  // ---------------------------------------------------------------- the inbox

  predicate Revives(e: Event) {
    e.kind in {"reopen", "created"} || e.source == "operator"
  }

  /** `submit` ignores an event it has seen, one for a case it does not know, and a late doorbell of a closed case. */
  predicate Ignored(d: Doc, e: Event, known: bool) {
    || e.id in d.seen
    || (d.file.None? && !known)
    || (d.file.Some? && Final(d.file.value.status) && !Revives(e))
  }

  function Admit(f: File, e: Event, now: real): File {
    var revived := if Final(f.status) then f.(status := Working, closedAt := None) else f;
    revived.(
      pending := LastN(f.pending + [e], MAX_PENDING),
      recordId := if e.recordId != "" && f.recordId == "" then e.recordId else f.recordId,
      requester := if f.requester == "" && e.actor != "" && e.source !in {"timer", "review", "approval"} then e.actor
                   else f.requester,
      timeline := Log(f.timeline, Entry(e.at, e.source + "." + e.kind, e.text, e.actor)),
      updatedAt := now)
  }

  function Submit(d: Doc, e: Event, known: bool, colleague: string, now: real): Doc {
    if Ignored(d, e, known) then d
    else Doc(LastN(d.seen + [e.id], MAX_SEEN),
             Some(Admit(if d.file.Some? then d.file.value else NewFile(e, colleague, now), e, now)), true)
  }

  function Pending(d: Doc): seq<Event> {
    if d.file.Some? then d.file.value.pending else []
  }

  /** `_take`: hand over all that waits and mark the case as being worked. */
  function Take(d: Doc): Doc {
    if Pending(d) == [] then d
    else
      var f := d.file.value;
      d.(file := Some(f.(pending := [], status := if f.status in {New, Waiting, Resolved} then Working else f.status)))
  }

  // ---------------------------------------------------------------- updates of a known case

  datatype Outcome = Outcome(error: bool, summary: string)

  datatype Change =
    | EndTurn(outcome: Outcome)
    | WaitFor(party: string, reason: string, followUpAfter: Option<real>)
    | WakeAt(at: real, reason: string)
    | Resolve(confirmWithin: Option<real>)
    | Finish(state: Status, note: string)
    | ClearWake
    | Other(f: File -> File)

  function After(now: real, delay: Option<real>): Option<real> {
    if Wakes(delay) then Some(now + delay.value) else None
  }

  /** The end of a turn: count errors in a row, hand over after three, and never leave the case without a next step. */
  function EndOfTurn(f: File, o: Outcome, now: real): File {
    var noted := if o.summary == "" then f.timeline
                 else Log(f.timeline, Entry(now, if o.error then "colleague.error" else "colleague.turn", o.summary, f.colleague));
    var g := f.(turns := f.turns + 1, timeline := noted, errors := if o.error then f.errors + 1 else 0);
    if g.errors >= MAX_ERRORS && !Final(g.status) then
      g.(status := Escalated, closedAt := Some(now), waiting := None, nextWakeAt := None, wakeReason := "",
         timeline := g.timeline + [Entry(now, "case.escalated", "Stopped after 3 failed turns in a row; needs a person.", g.colleague)])
    else if g.status == Working then
      g.(status := Waiting,
         waiting := if g.waiting.Some? then g.waiting else Some(WaitState("Next step not yet scheduled", "other", now, 0)),
         nextWakeAt := if Wakes(g.nextWakeAt) then g.nextWakeAt
                       else Some(now + if o.error then RETRY_SECONDS else PROGRESS_SECONDS),
         wakeReason := if Wakes(g.nextWakeAt) then g.wakeReason
                       else if o.error then "Retry after an error" else "Check progress")
    else g
  }

  function FollowUps(previous: Option<WaitState>, party: string): nat {
    if previous.Some? && previous.value.party == party then previous.value.followUps + 1 else 0
  }

  function Changed(f: File, c: Change, now: real): File {
    match c
    case EndTurn(o) => EndOfTurn(f, o, now)
    case WaitFor(party, reason, delay) =>
      f.(status := Waiting, waiting := Some(WaitState(reason, party, now, FollowUps(f.waiting, party))),
         nextWakeAt := After(now, delay), wakeReason := if Wakes(delay) then "Follow up: " + reason else "")
    case WakeAt(at, reason) => f.(nextWakeAt := Some(at), wakeReason := reason)
    case Resolve(delay) =>
      f.(status := Resolved,
         waiting := Some(WaitState("Resolved; waiting for the requester to confirm", "confirmation", now, 0)),
         nextWakeAt := After(now, delay),
         wakeReason := if Wakes(delay) then "No reply after resolution: close the case" else "")
    case Finish(state, note) =>
      f.(status := state, closedAt := Some(now), waiting := None, nextWakeAt := None, wakeReason := "",
         timeline := Log(f.timeline, Entry(now, "case." + StatusName(state), note, f.colleague)))
    case ClearWake => f.(nextWakeAt := None)
    case Other(g) => g(f).(pending := f.pending, errors := f.errors, turns := f.turns)
  }

  function StatusName(s: Status): string {
    match s
    case New => "new"
    case Working => "working"
    case Waiting => "waiting"
    case Resolved => "resolved"
    case Closed => "closed"
    case Escalated => "escalated"
    case Cancelled => "cancelled"
  }

  predicate Supported(c: Change) {
    match c
    case WaitFor(party, _, _) => party in {"requester", "approval", "participants", "vendor", "confirmation", "other"}
    case Finish(state, _) => Final(state)
    case _ => true
  }

  /** `update`: an unknown case or an unsupported state is an error and changes nothing. */
  function Update(d: Doc, c: Change, now: real): Option<Doc> {
    if d.file.None? || !Supported(c) then None
    else
      var g := Changed(d.file.value, c, now).(updatedAt := now);
      Some(d.(file := Some(g), active := !Final(g.status)))
  }

  // ---------------------------------------------------------------- what the end of a turn promises

  function Streak(outcomes: seq<Outcome>): nat {
    if outcomes == [] || !outcomes[|outcomes| - 1].error then 0 else Streak(outcomes[..|outcomes| - 1]) + 1
  }

  /** Changes applied one after the other, each with its clock reading. */
  function Applied(f: File, changes: seq<(Change, real)>): File {
    if changes == [] then f
    else
      var last := changes[|changes| - 1];
      Changed(Applied(f, changes[..|changes| - 1]), last.0, last.1)
  }

  function Outcomes(changes: seq<(Change, real)>): seq<Outcome> {
    if changes == [] then []
    else
      var before := Outcomes(changes[..|changes| - 1]);
      if changes[|changes| - 1].0.EndTurn? then before + [changes[|changes| - 1].0.outcome] else before
  }

  lemma OneChange(f: File, c: Change, now: real)
    ensures var g := Changed(f, c, now);
      if c.EndTurn? then g.turns == f.turns + 1 && g.errors == (if c.outcome.error then f.errors + 1 else 0)
      else g.turns == f.turns && g.errors == f.errors
  {
    hide Log, StatusName, FollowUps, After;
  }

  /** Whatever the tools do between the turns, the counter is the number of failed turns since the last good one. */
  lemma {:induction false} ErrorsAreTheStreak(f: File, changes: seq<(Change, real)>)
    requires f.errors == 0 && f.turns == 0
    ensures Applied(f, changes).errors == Streak(Outcomes(changes))
    ensures Applied(f, changes).turns == |Outcomes(changes)|
  {
    hide Changed;
    if changes != [] {
      var before := changes[..|changes| - 1];
      OneChange(Applied(f, before), changes[|changes| - 1].0, changes[|changes| - 1].1);
      ErrorsAreTheStreak(f, before);
      if changes[|changes| - 1].0.EndTurn? {
        var all := Outcomes(changes);
        assert all[..|all| - 1] == Outcomes(before);
      }
    }
  }

  /** A turn ends with the case handed to a person exactly when it is open and the third failure in a row just
      happened; otherwise a case still being worked waits with a wake-up that is due. It is never left working. */
  lemma TurnLeavesANextStep(f: File, changes: seq<(Change, real)>, o: Outcome, now: real)
    requires f.errors == 0 && f.turns == 0 && now >= 0.0
    ensures var g := Applied(f, changes);
      var h := EndOfTurn(g, o, now);
      var streak := Streak(Outcomes(changes + [(EndTurn(o), now)]));
      && h.status != Working
      && (!Final(g.status) && streak >= MAX_ERRORS <==> !Final(g.status) && h.status == Escalated)
      && (g.status == Working && streak < MAX_ERRORS ==> h.status == Waiting && h.waiting.Some? && Wakes(h.nextWakeAt))
      && (Final(g.status) ==> h.status == g.status)
      && h.pending == g.pending
  {
    var all := changes + [(EndTurn(o), now)];
    ErrorsAreTheStreak(f, all);
    assert all[..|all| - 1] == changes;
  }

  // ---------------------------------------------------------------- the document, changed in place

  class Document {
    var seen: seq<string>
    var file: Option<File>
    var active: bool

    function Value(): Doc
      reads this
    {
      Doc(seen, file, active)
    }

    constructor ()
      ensures Value() == Doc([], None, false)
    {
      seen, file, active := [], None, false;
    }

    /** The transform of `submit`; the answer says whether this call left a copy of the case behind. */
    method SubmitEvent(e: Event, known: bool, colleague: string, now: real) returns (admitted: Option<File>)
      modifies this
      ensures Value() == Submit(old(Value()), e, known, colleague, now)
      ensures admitted == if Ignored(old(Value()), e, known) then None else file
    {
      if e.id in seen {
        return None;
      }
      var item: File;
      if file.None? {
        if !known {
          return None;
        }
        item := NewFile(e, colleague, now);
      } else {
        item := file.value;
      }
      if Final(item.status) && e.kind !in {"reopen", "created"} && e.source != "operator" {
        return None;
      }
      if Final(item.status) {
        item := item.(status := Working, closedAt := None);
      }
      seen := seen + [e.id];
      seen := LastN(seen, MAX_SEEN);
      item := item.(pending := item.pending + [e]);
      item := item.(pending := LastN(item.pending, MAX_PENDING));
      if e.recordId != "" && item.recordId == "" {
        item := item.(recordId := e.recordId);
      }
      if item.requester == "" && e.actor != "" && e.source !in {"timer", "review", "approval"} {
        item := item.(requester := e.actor);
      }
      item := item.(timeline := item.timeline + [Entry(e.at, e.source + "." + e.kind, e.text, e.actor)]);
      item := item.(timeline := LastN(item.timeline, MAX_TIMELINE));
      item := item.(updatedAt := now);
      file, active := Some(item), true;
      admitted := file;
    }

    /** The transform of `_take`. */
    method TakeEvents() returns (events: seq<Event>)
      modifies this
      ensures events == Pending(old(Value())) && Value() == Take(old(Value()))
    {
      if file.None? || file.value.pending == [] {
        return [];
      }
      events := file.value.pending;
      file := Some(file.value.(pending := []));
      if file.value.status in {New, Waiting, Resolved} {
        file := Some(file.value.(status := Working));
      }
    }

    /** The transform of `_finish`. */
    method FinishTurn(o: Outcome, now: real) returns (known: bool)
      modifies this
      ensures known == old(file).Some?
      ensures Value() == if known then Update(old(Value()), EndTurn(o), now).value else old(Value())
    {
      if file.None? {
        return false;
      }
      var item := file.value;
      item := item.(turns := item.turns + 1);
      if o.summary != "" {
        var kind := if o.error then "colleague.error" else "colleague.turn";
        item := item.(timeline := LastN(item.timeline + [Entry(now, kind, o.summary, item.colleague)], MAX_TIMELINE));
      }
      item := item.(errors := if o.error then item.errors + 1 else 0);
      if item.errors >= MAX_ERRORS && !Final(item.status) {
        item := item.(status := Escalated, closedAt := Some(now), waiting := None, nextWakeAt := None, wakeReason := "");
        item := item.(timeline := item.timeline
                        + [Entry(now, "case.escalated", "Stopped after 3 failed turns in a row; needs a person.", item.colleague)]);
      } else if item.status == Working {
        item := item.(status := Waiting);
        if item.waiting.None? {
          item := item.(waiting := Some(WaitState("Next step not yet scheduled", "other", now, 0)));
        }
        if !Wakes(item.nextWakeAt) {
          item := item.(nextWakeAt := Some(now + if o.error then RETRY_SECONDS else PROGRESS_SECONDS));
          item := item.(wakeReason := if o.error then "Retry after an error" else "Check progress");
        }
      }
      file, active := Some(item.(updatedAt := now)), !Final(item.status);
      known := true;
    }
  }
}
