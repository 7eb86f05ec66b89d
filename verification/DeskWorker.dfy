/** The serial worker of the desk: callers that commit an event and then schedule its case, drains that take and work
    what waits, and everything that may happen between two awaits, crashes and failing drains included. */
module DeskWorker {
  import opened Options
  import opened DeskCase
  import opened DeskInbox

  /** Where a drain stands: waiting for a slot, about to take, found nothing, holding a batch, in `work`, done with it. */
  datatype Stage = Queued | Inside | SawEmpty | Took(batch: seq<Event>) | AtWork | Ended
  datatype Drain = Drain(key: string, stage: Stage)

  /** One case: its committed updates and the events its worker was called with. */
  datatype Cell = Cell(ops: seq<Op>, worked: seq<Event>)

  /** Who owes an index write: a caller of `submit`, a drain, or one of the tools that update or alias a case. */
  datatype Who = Caller(id: nat) | Task(id: nat) | Editor(id: nat)

  /** `submits` are the callers that still have to call `schedule`. `rows` are the stored statuses of the index, `owed` the
      index writes still to come, each with the status its owner has seen. */
  datatype System = System(max: nat, free: nat, running: set<string>, again: set<string>, spawned: nat,
                           drains: map<nat, Drain>, submits: map<nat, string>, cases: map<string, Cell>,
                           rows: map<string, Status>, owed: map<Who, (string, Status)>)

  datatype Action =
    | Deliver(caller: nat, key: string, event: Event, known: bool, colleague: string, now: real)
    | Index(who: Who)
    | Call(caller: nat)
    | GiveUp(caller: nat)
    | Edit(editor: nat, key: string, change: Change, now: real)
    | Alias(editor: nat, key: string)
    | DropRow(editor: nat)
    | Enter(task: nat)
    | Take(task: nat)
    | Work(task: nat)
    | EndWork(task: nat, outcome: Outcome, now: real)
    | Again(task: nat)
    | Leave(task: nat)
    | Die(task: nat)
    | Crash
    | Resume(key: string)

  function Initial(max: nat): System {
    System(max, max, {}, {}, 0, map[], map[], map[], map[], map[])
  }

  function CellOf(s: System, k: string): Cell {
    if k in s.cases then s.cases[k] else Cell([], [])
  }

  function DocOf(s: System, k: string): Doc {
    Run(EMPTY, CellOf(s, k).ops)
  }

  function StatusOf(d: Doc): Option<Status> {
    if d.file.Some? then Some(d.file.value.status) else None
  }

  predicate Holds(stage: Stage) {
    !stage.Queued?
  }

  function Committed(s: System, k: string, op: Op): System {
    s.(cases := s.cases[k := CellOf(s, k).(ops := CellOf(s, k).ops + [op])])
  }

  function Goto(s: System, t: nat, stage: Stage): System
    requires t in s.drains
  {
    s.(drains := s.drains[t := s.drains[t].(stage := stage)])
  }

  /** The owner of the index write has a copy of the case as it is now. */
  function Owe(s: System, who: Who, k: string): System {
    if StatusOf(DocOf(s, k)).Some? then s.(owed := s.owed[who := (k, StatusOf(DocOf(s, k)).value)]) else s
  }

  function StepIndex(s: System, who: Who): System
    requires who in s.owed
  {
    s.(rows := s.rows[s.owed[who].0 := s.owed[who].1], owed := s.owed - {who})
  }

  // ---------------------------------------------------------------- schedule and the end of a drain

  function Schedule(s: System, k: string): System {
    if k in s.running then s.(again := s.again + {k})
    else s.(running := s.running + {k}, spawned := s.spawned + 1, drains := s.drains[s.spawned := Drain(k, Queued)])
  }

  /** Somebody will work this case: a caller about to schedule it, a drain that takes again, or one that found nothing
      but was asked to come back. */
  ghost predicate Served(s: System, k: string) {
    || (exists c :: c in s.submits && s.submits[c] == k)
    || (exists t :: t in s.drains && s.drains[t].key == k && (s.drains[t].stage.SawEmpty? ==> k in s.again))
  }

  /** The `finally` of `_drain`; the slot goes back on the way out. */
  function Finally(s: System, t: nat): System
    requires t in s.drains
  {
    var k := s.drains[t].key;
    var out := s.(drains := s.drains - {t}, running := s.running - {k},
                  free := if Holds(s.drains[t].stage) then s.free + 1 else s.free);
    if k in s.again then Schedule(out.(again := out.again - {k}), k) else out
  }

  function StepTake(s: System, t: nat): System
    requires t in s.drains
  {
    var k := s.drains[t].key;
    var batch := Pending(DocOf(s, k));
    var out := Goto(Committed(s, k, TakeAll), t, if batch == [] then SawEmpty else Took(batch));
    if batch == [] then out else Owe(out, Task(t), k)
  }

  function StepWork(s: System, t: nat): System
    requires t in s.drains && s.drains[t].stage.Took?
  {
    var k := s.drains[t].key;
    Goto(s.(cases := s.cases[k := CellOf(s, k).(worked := CellOf(s, k).worked + s.drains[t].stage.batch)]), t, AtWork)
  }

  function StepEnd(s: System, t: nat, o: Outcome, now: real): System
    requires t in s.drains
  {
    var k := s.drains[t].key;
    Owe(Goto(Committed(s, k, DeskInbox.Edit(EndTurn(o), now)), t, Ended), Task(t), k)
  }

  function StepDeliver(s: System, c: nat, k: string, op: Op): System {
    var out := Committed(s, k, op);
    if Admits(DocOf(s, k), op) then Owe(out.(submits := out.submits[c := k]), Caller(c), k) else out
  }

  function StepEdit(s: System, u: nat, k: string, change: Change, now: real): System {
    var out := Committed(s, k, DeskInbox.Edit(change, now));
    if Update(DocOf(s, k), change, now).Some? then Owe(out, Editor(u), k) else out
  }

  /** Only the documents and the index survive; every batch in hand is gone. */
  function StepCrash(s: System): System {
    System(s.max, s.max, {}, {}, s.spawned, map[], map[], s.cases, s.rows, map[])
  }

  /** A drain that dies drops the batch it holds and the index write it owes. */
  function StepDie(s: System, t: nat): System
    requires t in s.drains
  {
    Finally(s, t).(owed := s.owed - {Task(t)})
  }

  /** An action that is not possible now changes nothing. */
  function Next(s: System, a: Action): System {
    match a
    case Deliver(c, k, e, known, colleague, now) =>
      if c in s.submits then s else StepDeliver(s, c, k, Arrive(e, known, colleague, now))
    case Index(who) => if who in s.owed then StepIndex(s, who) else s
    case Call(c) =>
      if c !in s.submits || Caller(c) in s.owed then s else Schedule(s.(submits := s.submits - {c}), s.submits[c])
    case GiveUp(c) =>
      if c !in s.submits then s else s.(submits := s.submits - {c}, owed := s.owed - {Caller(c)})
    case Edit(u, k, change, now) => if Editor(u) in s.owed then s else StepEdit(s, u, k, change, now)
    case Alias(u, k) => if Editor(u) in s.owed then s else Owe(s, Editor(u), k)
    case DropRow(u) => s.(owed := s.owed - {Editor(u)})
    case Enter(t) =>
      if t in s.drains && s.drains[t].stage.Queued? && s.free > 0 then Goto(s, t, Inside).(free := s.free - 1) else s
    case Take(t) => if t in s.drains && s.drains[t].stage.Inside? then StepTake(s, t) else s
    case Work(t) => if t in s.drains && s.drains[t].stage.Took? && Task(t) !in s.owed then StepWork(s, t) else s
    case EndWork(t, o, now) => if t in s.drains && s.drains[t].stage.AtWork? then StepEnd(s, t, o, now) else s
    case Again(t) =>
      if t in s.drains && s.drains[t].stage.Ended? && Task(t) !in s.owed then Goto(s, t, Queued).(free := s.free + 1) else s
    case Leave(t) => if t in s.drains && s.drains[t].stage.SawEmpty? then Finally(s, t) else s
    case Die(t) => if t in s.drains then StepDie(s, t) else s
    case Crash => StepCrash(s)
    case Resume(k) =>
      if Pending(DocOf(s, k)) != [] && k in s.rows && s.rows[k] in {Status.New, Status.Working} then Schedule(s, k) else s
  }

  function Reach(s: System, actions: seq<Action>): System {
    if actions == [] then s else Next(Reach(s, actions[..|actions| - 1]), actions[|actions| - 1])
  }

  // ---------------------------------------------------------------- the two sets, changed in place

  class Worker {
    var running: set<string>
    var again: set<string>

    constructor ()
      ensures running == {} && again == {}
    {
      running, again := {}, {};
    }

    /** `schedule`: the answer says whether a new drain is to be started. */
    method ScheduleCase(k: string, ghost s: System) returns (start: bool)
      requires s.running == running && s.again == again
      modifies this
      ensures running == Schedule(s, k).running && again == Schedule(s, k).again
      ensures start <==> Schedule(s, k).spawned == s.spawned + 1
    {
      if k in running {
        again := again + {k};
        return false;
      }
      running := running + {k};
      start := true;
    }

    /** The `finally` of `_drain`. */
    method EndDrain(k: string, ghost s: System, ghost t: nat) returns (start: bool)
      requires s.running == running && s.again == again && t in s.drains && s.drains[t].key == k
      modifies this
      ensures running == Finally(s, t).running && again == Finally(s, t).again
      ensures start <==> Finally(s, t).spawned == s.spawned + 1
    {
      running := running - {k};
      start := false;
      if k in again {
        again := again - {k};
        start := ScheduleCase(k, s.(running := running, again := again));
      }
    }
  }
}
