/** The bounded inbox of one case: what reaches the worker, in which order, and how often. */
module DeskInbox {
  import opened Options
  import opened ReceiptWindow
  import opened DeskCase

  /** One committed update of a case document. */
  datatype Op =
    | Arrive(event: Event, known: bool, colleague: string, now: real)
    | TakeAll
    | Edit(change: Change, now: real)

  const EMPTY := Doc([], None, false)

  function Step(d: Doc, op: Op): Doc {
    match op
    case Arrive(e, known, colleague, now) => Submit(d, e, known, colleague, now)
    case TakeAll => Take(d)
    case Edit(c, now) => if Update(d, c, now).Some? then Update(d, c, now).value else d
  }

  function Run(d: Doc, ops: seq<Op>): Doc
    decreases |ops|
  {
    if ops == [] then d else Run(Step(d, ops[0]), ops[1..])
  }

  function TakenBy(d: Doc, op: Op): seq<Event> {
    if op.TakeAll? then Pending(d) else []
  }

  /** The batches `_take` hands over, one after the other. */
  function Handed(d: Doc, ops: seq<Op>): seq<Event>
    decreases |ops|
  {
    if ops == [] then [] else TakenBy(d, ops[0]) + Handed(Step(d, ops[0]), ops[1..])
  }

  // ---------------------------------------------------------------- the specification

  datatype Mark = Admitted(event: Event) | Taken

  function Admits(d: Doc, op: Op): bool {
    op.Arrive? && !Ignored(d, op.event, op.known)
  }

  function MarkOf(d: Doc, op: Op): seq<Mark> {
    if Admits(d, op) then [Admitted(op.event)] else if op.TakeAll? then [Taken] else []
  }

  /** The history of the inbox: which events were admitted and where everything waiting was taken. */
  function Marks(d: Doc, ops: seq<Op>): seq<Mark>
    decreases |ops|
  {
    if ops == [] then [] else MarkOf(d, ops[0]) + Marks(Step(d, ops[0]), ops[1..])
  }

  /** How many admissions follow before the next take. */
  function Ahead(marks: seq<Mark>): nat {
    if marks == [] || marks[0].Taken? then 0 else Ahead(marks[1..]) + 1
  }

  /** The admitted events in order, without those that 24 or more later ones pushed out before they were taken. */
  function Survivors(marks: seq<Mark>): seq<Event> {
    if marks == [] then []
    else if marks[0].Admitted? && Ahead(marks[1..]) < MAX_PENDING then [marks[0].event] + Survivors(marks[1..])
    else Survivors(marks[1..])
  }

  /** What is left of a waiting list once `ahead` more events were admitted. */
  function Kept(waiting: seq<Event>, ahead: nat): seq<Event> {
    LastN(waiting, if ahead < MAX_PENDING then MAX_PENDING - ahead else 0)
  }

  // ---------------------------------------------------------------- conservation

  lemma EditKeeps(d: Doc, op: Op)
    requires op.Edit?
    ensures Pending(Step(d, op)) == Pending(d) && Step(d, op).seen == d.seen
  {
    hide Log, LastN, StatusName, FollowUps, After;
  }

  lemma ArriveStep(d: Doc, op: Op)
    requires op.Arrive?
    ensures Pending(Step(d, op)) == if Admits(d, op) then LastN(Pending(d) + [op.event], MAX_PENDING) else Pending(d)
    ensures Step(d, op).seen == if Admits(d, op) then LastN(d.seen + [op.event.id], MAX_SEEN) else d.seen
  {
    hide Log, LastN, Revives;
  }

  lemma PushOut(waiting: seq<Event>, e: Event, ahead: nat)
    requires |waiting| <= MAX_PENDING
    ensures Kept(LastN(waiting + [e], MAX_PENDING), ahead) ==
            Kept(waiting, ahead + 1) + (if ahead < MAX_PENDING then [e] else [])
  {
  }

  lemma Unfold(d: Doc, ops: seq<Op>)
    requires ops != []
    ensures var next := Step(d, ops[0]);
      && Run(d, ops) == Run(next, ops[1..]) && Handed(d, ops) == TakenBy(d, ops[0]) + Handed(next, ops[1..])
      && Marks(d, ops) == MarkOf(d, ops[0]) + Marks(next, ops[1..])
  {
    hide Step, Ignored, Pending;
  }

  lemma NoOps(d: Doc)
    ensures Run(d, []) == d && Handed(d, []) == [] && Marks(d, []) == []
  {
  }

  lemma NoMarks()
    ensures Ahead([]) == 0 && Survivors([]) == []
  {
  }

  /** The batches handed over followed by what still waits are exactly the surviving events, in admission order. */
  lemma {:induction false} Conservation(d: Doc, ops: seq<Op>)
    requires |Pending(d)| <= MAX_PENDING
    ensures Handed(d, ops) + Pending(Run(d, ops)) == Kept(Pending(d), Ahead(Marks(d, ops))) + Survivors(Marks(d, ops))
    ensures |Pending(Run(d, ops))| <= MAX_PENDING
    decreases |ops|
  {
    hide Step, Ignored, Pending, Run, Handed, Marks, MarkOf, TakenBy, Kept, Ahead, Survivors;
    if ops == [] {
      NoOps(d);
      NoMarks();
      KeptWhole(Pending(d));
    } else {
      var next := Step(d, ops[0]);
      Unfold(d, ops);
      OneStep(d, ops[0], Marks(next, ops[1..]));
      Conservation(next, ops[1..]);
      assert TakenBy(d, ops[0]) + Handed(next, ops[1..]) + Pending(Run(d, ops)) ==
             TakenBy(d, ops[0]) + (Handed(next, ops[1..]) + Pending(Run(d, ops)));
    }
  }

  lemma KeptWhole(waiting: seq<Event>)
    requires |waiting| <= MAX_PENDING
    ensures Kept(waiting, 0) == waiting
  {
  }

  lemma OneStep(d: Doc, op: Op, rest: seq<Mark>)
    requires |Pending(d)| <= MAX_PENDING
    ensures var next := Step(d, op);
      var marks := MarkOf(d, op) + rest;
      && |Pending(next)| <= MAX_PENDING
      && TakenBy(d, op) + (Kept(Pending(next), Ahead(rest)) + Survivors(rest)) == Kept(Pending(d), Ahead(marks)) + Survivors(marks)
  {
    hide Step, Ignored, Pending, Kept, Ahead, Survivors;
    var marks := MarkOf(d, op) + rest;
    match op {
      case Edit(_, _) =>
        EditKeeps(d, op);
        assert marks == rest;
      case TakeAll =>
        assert marks == [Taken] + rest;
        TakenMark(rest, Pending(d));
        TakeClears(d);
      case Arrive(e, _, _, _) =>
        ArriveStep(d, op);
        if Admits(d, op) {
          assert marks == [Admitted(e)] + rest;
          AdmittedMark(e, rest);
          PushOut(Pending(d), e, Ahead(rest));
        } else {
          assert marks == rest;
        }
    }
  }

  lemma TakeClears(d: Doc)
    ensures Pending(Step(d, TakeAll)) == []
  {
  }

  lemma TakenMark(rest: seq<Mark>, waiting: seq<Event>)
    requires |waiting| <= MAX_PENDING
    ensures Ahead([Taken] + rest) == 0 && Survivors([Taken] + rest) == Survivors(rest)
    ensures Kept(waiting, 0) == waiting && Kept([], Ahead(rest)) == []
  {
    assert ([Taken] + rest)[1..] == rest;
  }

  lemma AdmittedMark(e: Event, rest: seq<Mark>)
    ensures Ahead([Admitted(e)] + rest) == Ahead(rest) + 1
    ensures Survivors([Admitted(e)] + rest) == (if Ahead(rest) < MAX_PENDING then [e] else []) + Survivors(rest)
  {
    assert ([Admitted(e)] + rest)[1..] == rest;
  }

  /** From an empty document nothing is lost but the overflow, and nothing comes out twice or out of order. */
  lemma InboxConserves(ops: seq<Op>)
    ensures Handed(EMPTY, ops) + Pending(Run(EMPTY, ops)) == Survivors(Marks(EMPTY, ops))
  {
    Conservation(EMPTY, ops);
    assert Kept([], Ahead(Marks(EMPTY, ops))) == [];
  }

  function AdmittedEvents(marks: seq<Mark>): seq<Event> {
    if marks == [] then []
    else (if marks[0].Admitted? then [marks[0].event] else []) + AdmittedEvents(marks[1..])
  }

  ghost predicate NeverFull(marks: seq<Mark>) {
    forall i :: 0 <= i <= |marks| ==> Ahead(marks[i..]) <= MAX_PENDING
  }

  lemma NeverFullFromTail(marks: seq<Mark>)
    requires marks != []
    ensures NeverFull(marks) <==> Ahead(marks) <= MAX_PENDING && NeverFull(marks[1..])
  {
    hide Ahead;
    var rest := marks[1..];
    assert marks[0..] == marks;
    assert forall i :: 0 <= i <= |rest| ==> rest[i..] == marks[i + 1..];
    assert forall i :: 1 <= i <= |marks| ==> marks[i..] == rest[i - 1..];
  }

  /** Nothing at all is lost exactly when no more than 24 events are ever admitted between two takes. */
  lemma {:induction false} NothingLostIffNeverFull(marks: seq<Mark>)
    ensures |Survivors(marks)| <= |AdmittedEvents(marks)|
    ensures Survivors(marks) == AdmittedEvents(marks) <==> NeverFull(marks)
  {
    if marks != [] {
      hide NeverFull;
      var rest := marks[1..];
      NothingLostIffNeverFull(rest);
      NeverFullFromTail(marks);
      if marks[0].Admitted? {
        assert AdmittedEvents(marks)[1..] == AdmittedEvents(rest);
        if Ahead(rest) < MAX_PENDING {
          assert Survivors(marks)[1..] == Survivors(rest);
        }
      }
    } else {
      assert forall i :: 0 <= i <= |marks| ==> marks[i..] == [];
    }
  }

  // ---------------------------------------------------------------- duplicates

  lemma {:induction false} RunSplit(d: Doc, before: seq<Op>, after: seq<Op>)
    ensures Run(d, before + after) == Run(Run(d, before), after)
    ensures Handed(d, before + after) == Handed(d, before) + Handed(Run(d, before), after)
    ensures Marks(d, before + after) == Marks(d, before) + Marks(Run(d, before), after)
    decreases |before|
  {
    hide Step, Admits, Run, Handed, Marks, MarkOf, TakenBy;
    if before == [] {
      NoOps(d);
      assert before + after == after;
    } else {
      Unfold(d, before);
      Unfold(d, before + after);
      RunSplit(Step(d, before[0]), before[1..], after);
      assert (before + after)[1..] == before[1..] + after && (before + after)[0] == before[0];
    }
  }

  lemma RunOne(d: Doc, ops: seq<Op>, k: nat)
    requires k < |ops|
    ensures Run(d, ops[..k + 1]) == Step(Run(d, ops[..k]), ops[k])
  {
    hide Step;
    assert ops[..k + 1] == ops[..k] + [ops[k]];
    RunSplit(d, ops[..k], [ops[k]]);
    var e := Run(d, ops[..k]);
    assert [ops[k]][1..] == [];
    assert Run(e, [ops[k]]) == Run(Step(e, ops[k]), []);
  }

  function NewId(d: Doc, op: Op): Option<string> {
    if Admits(d, op) then Some(op.event.id) else None
  }

  ghost predicate AdmittedAt(ops: seq<Op>, k: nat, id: string)
    requires k < |ops|
  {
    Admits(Run(EMPTY, ops[..k]), ops[k]) && ops[k].event.id == id
  }

  /** The ids admitted by the updates after `i` and before `j`. */
  ghost function IdsBetween(ops: seq<Op>, i: nat, j: nat): set<string>
    requires j <= |ops|
  {
    set k | i < k < j && Admits(Run(EMPTY, ops[..k]), ops[k]) :: ops[k].event.id
  }

  ghost predicate SeenInv(d: Doc) {
    NoRepeats(d.seen) && |d.seen| <= MAX_SEEN
  }

  lemma SeenStep(d: Doc, op: Op)
    requires SeenInv(d)
    ensures SeenInv(Step(d, op))
    ensures Step(d, op).seen == if Admits(d, op) then LastN(d.seen + [op.event.id], MAX_SEEN) else d.seen
    ensures Admits(d, op) ==> op.event.id !in d.seen
  {
    match op {
      case Edit(_, _) => EditKeeps(d, op);
      case TakeAll =>
      case Arrive(_, _, _, _) => ArriveStep(d, op);
    }
  }

  lemma {:induction false} SeenHolds(ops: seq<Op>, k: nat)
    requires k <= |ops|
    ensures SeenInv(Run(EMPTY, ops[..k]))
  {
    hide Step, SeenInv;
    if k == 0 {
      assert ops[..0] == [];
      assert SeenInv(EMPTY) by { SeenStart(); }
    } else {
      SeenHolds(ops, k - 1);
      RunOne(EMPTY, ops, k - 1);
      SeenStep(Run(EMPTY, ops[..k - 1]), ops[k - 1]);
    }
  }

  lemma SeenStart()
    ensures SeenInv(EMPTY)
  {
  }

  lemma {:induction false} WindowHolds(ops: seq<Op>, i: nat, k: nat, x: string)
    requires i < k <= |ops| && AdmittedAt(ops, i, x)
    ensures Behind(Run(EMPTY, ops[..k]).seen, MAX_SEEN, x, IdsBetween(ops, i, k))
  {
    hide Step, Behind, IdsBetween, Ignored;
    var d := Run(EMPTY, ops[..k - 1]);
    SeenHolds(ops, k - 1);
    RunOne(EMPTY, ops, k - 1);
    SeenStep(d, ops[k - 1]);
    if k == i + 1 {
      LastIsBehind(Run(EMPTY, ops[..k]).seen, MAX_SEEN, x, IdsBetween(ops, i, k));
    } else {
      WindowHolds(ops, i, k - 1, x);
      IdsGrow(ops, i, k - 1);
      WindowMoves(d.seen, MAX_SEEN, NewId(d, ops[k - 1]), x, IdsBetween(ops, i, k - 1), IdsBetween(ops, i, k));
    }
  }

  lemma IdsGrow(ops: seq<Op>, i: nat, k: nat)
    requires i < k < |ops|
    ensures IdsBetween(ops, i, k) <= IdsBetween(ops, i, k + 1)
    ensures Admits(Run(EMPTY, ops[..k]), ops[k]) ==> ops[k].event.id in IdsBetween(ops, i, k + 1)
  {
    hide Admits, Run;
  }

  /** An event id is admitted a second time only once 400 other ids have been admitted in between. */
  lemma AdmittedTwice(ops: seq<Op>, i: nat, j: nat, x: string)
    requires i < j < |ops| && AdmittedAt(ops, i, x) && AdmittedAt(ops, j, x)
    ensures |IdsBetween(ops, i, j) - {x}| >= 400
  {
    hide Step, IdsBetween;
    WindowHolds(ops, i, j, x);
    SeenHolds(ops, j);
    SeenStep(Run(EMPTY, ops[..j]), ops[j]);
  }
}
