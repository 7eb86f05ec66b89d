/** Turns and jobs of one chat: a lock, a generation, and updates whose evaluation and compare-and-swap are separate.

    Whoever is cancelled while a swap is on its way leaves it behind, and it may still land. */
module ChatJobs {
  import opened Options
  import opened ReceiptWindow
  import opened ChatTrim

  const MAX_RECENT := 16

  /** Text with the generation of the chat that wrote it. */
  datatype Entry = Entry(text: string, gen: nat)
  datatype Doc = Doc(summary: Entry, recent: seq<Entry>, tasks: seq<Task>, active: bool, removed: bool, receipts: seq<string>)

  const BLANK := Entry("", 0)

  datatype Change =
    | Append(text: string)
    | Persist(id: string)
    | Finish(id: string, status: Status, result: string)
    | Deliver(id: string, ok: bool, notice: string)
    | Compact(text: string)
    | Recover(admitted: set<string>)
    | Interrupt(ids: set<string>, all: bool)
    | Activate
    | Rejoin
    | Receipt(activity: string)
    | Forget

  predicate HasTask(tasks: seq<Task>, id: string) {
    exists t <- tasks :: t.id == id && t.mine
  }

  /** `_valid_job` for the record. */
  predicate ValidTask(tasks: seq<Task>, id: string, gen: nat) {
    exists t <- tasks :: t.id == id && t.mine && t.status.Running? && t.gen == gen
  }

  /** The condition each transform checks; `live` is `_live` at the moment the transform runs. */
  predicate Allowed(c: Change, live: bool, gen: nat, d: Doc) {
    match c
    case Append(_) => live && d.active
    case Persist(_) => live && d.active
    case Compact(_) => live && d.active
    case Finish(id, _, _) => live && d.active && ValidTask(d.tasks, id, gen)
    case Deliver(id, _, _) => live && d.active && HasTask(d.tasks, id)
    case Activate => live && !d.removed
    case Rejoin => live
    case _ => true
  }

  function Mapped(tasks: seq<Task>, f: Task -> Task): (r: seq<Task>)
    ensures |r| == |tasks| && forall i :: 0 <= i < |tasks| ==> r[i] == f(tasks[i])
  {
    if tasks == [] then [] else [f(tasks[0])] + Mapped(tasks[1..], f)
  }

  function Broke(t: Task): Task {
    var stopped := if t.status.Running? then t.(status := Interrupted, result := "") else t;
    if t.delivery.Pending? then stopped.(delivery := Broken) else stopped
  }

  function Remember(recent: seq<Entry>, e: Entry): seq<Entry> {
    LastN(recent + [e], MAX_RECENT)
  }

  function Changed(c: Change, gen: nat, d: Doc): Doc {
    match c
    case Append(text) => d.(recent := Remember(d.recent, Entry(text, gen)))
    case Persist(id) => d.(tasks := Trim(d.tasks + [Task(id, Running, gen, true, "", NotDue)]))
    case Finish(id, status, result) =>
      d.(tasks := Mapped(d.tasks, (t: Task) =>
                           if t.id == id then t.(status := status, result := result, delivery := Pending) else t))
    case Deliver(id, ok, notice) =>
      var told := d.(tasks := Mapped(d.tasks, (t: Task) =>
                                       if t.id == id then t.(delivery := if ok then Sent else NotSent) else t));
      if ok then told.(recent := Remember(d.recent, Entry(notice, gen))) else told
    case Compact(text) => d.(summary := Entry(text, gen), recent := LastN(d.recent, MAX_RECENT))
    case Recover(admitted) => d.(tasks := Mapped(d.tasks, (t: Task) => if !t.mine || t.id !in admitted then Broke(t) else t))
    case Interrupt(ids, all) =>
      var stopped := d.(tasks := Mapped(d.tasks, (t: Task) => if all || (t.id in ids && t.mine) then Broke(t) else t));
      if all then stopped.(active := false, removed := true) else stopped
    case Activate => d.(active := true)
    case Rejoin => d.(active := true, removed := false)
    case Receipt(activity) => if activity in d.receipts then d else d.(receipts := d.receipts + [activity])
    case Forget => d.(summary := BLANK, recent := [], tasks := [])
  }

  function Apply(c: Change, live: bool, gen: nat, d: Doc): Doc {
    if Allowed(c, live, gen, d) then Changed(c, gen, d) else d
  }

  // ---------------------------------------------------------------- the machine

  datatype Phase =
    | Starting | Persisted | Ready | AtWork
    | Done(status: Status, result: string)
    | Locked(status: Status, result: string)
    | Saved(status: Status, result: string)
    | Told(ok: bool)
    | Interrupting
  datatype Job = Job(gen: nat, phase: Phase)

  /** Who holds the lock of the chat. */
  datatype Holder =
    | Free
    | ByTurn(gen: nat, recovered: bool, starting: Option<string>, forgetting: bool)
    | ByJob(id: string)
    | ByRemoval

  /** A transform has run on the document of version `base`; the swap to its result is on its way. */
  datatype Write = Write(base: nat, result: Doc, change: Change)

  /** `others` counts the jobs of all other chats. `finals` and `sent` record results saved and announced. */
  datatype System = System(max: nat, others: nat, generation: nat, removed: bool, version: nat, doc: Doc, holder: Holder,
                           write: Option<Write>, orphans: set<Write>, jobs: map<string, Job>, used: set<string>,
                           finals: set<(string, Status, string)>, sent: seq<(string, Status, string)>)

  datatype Action =
    | OtherAdmit | OtherEnd
    | BeginTurn | BeginWelcome | EndTurn | CancelTurn
    | Admit(id: string) | Launch | Abandon
    | StartForget
    | Evaluate(change: Change)
    | Swap
    | JobCheck(id: string)
    | RunnerDone(id: string, status: Status, result: string)
    | JobTake(id: string)
    | Announce(ok: bool)
    | EndJob | FailJob
    | JobFails(id: string)
    | GiveUp(id: string)
    | Remove | BeginRemoval | EndRemoval
    | OrphanLands(write: Write)
    | OrphanDies(write: Write)

  function Initial(max: nat, doc: Doc): System {
    System(max, 0, 1, false, 0, doc, Free, None, {}, map[], set t | t in doc.tasks :: t.id, {}, [])
  }

  predicate Live(s: System, gen: nat) {
    !s.removed && s.generation == gen
  }

  function GenOf(s: System): nat {
    match s.holder
    case ByTurn(gen, _, _, _) => gen
    case ByJob(id) => if id in s.jobs then s.jobs[id].gen else 0
    case _ => 0
  }

  /** What the code does in the place where the holder of the lock stands. */
  predicate MayEvaluate(s: System, c: Change) {
    && s.write.None?
    && match s.holder
       case Free => false
       case ByTurn(_, recovered, starting, forgetting) =>
         (match c
          case Forget => forgetting
          case Persist(id) => !forgetting && recovered && starting == Some(id) && id in s.jobs && s.jobs[id].phase.Starting?
          case Interrupt(ids, all) => !forgetting && !all && starting.Some? && ids == {starting.value}
          case Recover(admitted) => !forgetting && starting.None? && admitted == s.jobs.Keys
          case Finish(_, _, _) => false
          case Deliver(_, _, _) => false
          case _ => !forgetting)
       case ByJob(id) =>
         id in s.jobs &&
         (match s.jobs[id].phase
          case Locked(status, result) => c == Finish(id, status, result)
          case Told(ok) => c.Compact? || (c.Deliver? && c.id == id && c.ok == ok)
          case Interrupting => c == Interrupt({id}, false)
          case _ => false)
       case ByRemoval => c == Interrupt({}, true)
  }

  function Unlock(s: System): System {
    s.(holder := Free)
  }

  /** How the holder goes on once an update has returned; `committed` says that it wrote something. */
  function Effect(s: System, c: Change, committed: bool): System {
    match c
    case Recover(_) => if s.holder.ByTurn? then s.(holder := s.holder.(recovered := true)) else s
    case Persist(id) =>
      if id !in s.jobs || !s.holder.ByTurn? then s
      else if committed then s.(jobs := s.jobs[id := s.jobs[id].(phase := Persisted)])
      else s.(jobs := s.jobs - {id}, holder := s.holder.(starting := None, recovered := false))
    case Finish(id, status, result) =>
      if id !in s.jobs then s
      else if committed then
        s.(jobs := s.jobs[id := s.jobs[id].(phase := Saved(status, result))], finals := s.finals + {(id, status, result)})
      else Unlock(s.(jobs := s.jobs - {id}))
    case Forget => Unlock(s)
    case _ => s
  }

  function StepEvaluate(s: System, c: Change): System {
    var live := Live(s, GenOf(s)) && !s.holder.ByRemoval?;
    var result := Apply(c, live, GenOf(s), s.doc);
    if result == s.doc then Effect(s, c, false) else s.(write := Some(Write(s.version, result, c)))
  }

  function StepSwap(s: System): System
    requires s.write.Some?
  {
    var w := s.write.value;
    if w.base == s.version then Effect(s.(doc := w.result, version := s.version + 1, write := None), w.change, true)
    else s.(write := None)
  }

  function Orphaned(s: System): set<Write> {
    if s.write.Some? then s.orphans + {s.write.value} else s.orphans
  }

  predicate Cancellable(p: Phase) {
    !p.Starting? && !p.Persisted?
  }

  /** Cancel every job that has a task of its own; one that holds the lock lets go of it. */
  function CancelJobs(s: System): System {
    var jobs := map id | id in s.jobs ::
      if Cancellable(s.jobs[id].phase) then s.jobs[id].(phase := Interrupting) else s.jobs[id];
    if s.holder.ByJob? then s.(jobs := jobs, holder := Free, orphans := Orphaned(s), write := None) else s.(jobs := jobs)
  }

  function Turn(gen: nat): Holder {
    ByTurn(gen, false, None, false)
  }

  function TurnStep(s: System, a: Action): System
    requires s.holder.ByTurn?
  {
    var h := s.holder;
    match a
    case EndTurn => if s.write.None? && h.starting.None? then Unlock(s) else s
    case CancelTurn =>
      s.(holder := Free, orphans := Orphaned(s), write := None,
         jobs := if h.starting.Some? then s.jobs - {h.starting.value} else s.jobs)
    case Admit(id) =>
      if s.write.None? && h.recovered && h.starting.None? && !h.forgetting && Live(s, h.gen) && id !in s.used
         && |s.jobs| + s.others < s.max
      then s.(jobs := s.jobs[id := Job(h.gen, Starting)], used := s.used + {id}, holder := h.(starting := Some(id)))
      else s
    case Launch =>
      if s.write.None? && h.starting.Some? && h.starting.value in s.jobs && s.jobs[h.starting.value].phase.Persisted?
         && Live(s, h.gen)
      then s.(jobs := s.jobs[h.starting.value := Job(h.gen, Ready)], holder := h.(starting := None))
      else s
    case Abandon =>
      if s.write.None? && h.starting.Some? then
        s.(jobs := s.jobs - {h.starting.value}, holder := h.(starting := None, recovered := false))
      else s
    case StartForget =>
      if s.write.None? && Live(s, h.gen) && !h.forgetting && h.starting.None? then
        CancelJobs(s.(generation := s.generation + 1, holder := h.(forgetting := true)))
      else s
    case _ => s
  }

  function JobStep(s: System, id: string, a: Action): System
    requires id in s.jobs
  {
    var j := s.jobs[id];
    match a
    case JobCheck(_) =>
      if !s.holder.Free? || !j.phase.Ready? then s
      else if Live(s, j.gen) && s.doc.active && ValidTask(s.doc.tasks, id, j.gen) then
        s.(jobs := s.jobs[id := j.(phase := AtWork)])
      else s.(jobs := s.jobs - {id})
    case RunnerDone(_, status, result) =>
      if j.phase.AtWork? && (status.Completed? || status.Failed?) then
        s.(jobs := s.jobs[id := j.(phase := Done(status, result))])
      else s
    case JobTake(_) =>
      if !s.holder.Free? then s
      else if j.phase.Done? then
        if Live(s, j.gen) then s.(holder := ByJob(id), jobs := s.jobs[id := j.(phase := Locked(j.phase.status, j.phase.result))])
        else s.(jobs := s.jobs - {id})
      else if j.phase.Interrupting? && Live(s, j.gen) then s.(holder := ByJob(id))
      else s
    case JobFails(_) =>
      if (j.phase.Ready? || j.phase.AtWork? || j.phase.Done?) && Live(s, j.gen) then
        s.(jobs := s.jobs[id := j.(phase := Interrupting)])
      else s
    case GiveUp(_) =>
      if j.phase.Interrupting? && !Live(s, j.gen) && s.holder != ByJob(id) then s.(jobs := s.jobs - {id}) else s
    case _ => s
  }

  function HoldingJobStep(s: System, id: string, a: Action): System
    requires id in s.jobs && s.holder == ByJob(id)
  {
    var j := s.jobs[id];
    match a
    case Announce(ok) =>
      if j.phase.Saved? && s.write.None? then
        if Live(s, j.gen) then
          s.(sent := s.sent + [(id, j.phase.status, j.phase.result)], jobs := s.jobs[id := j.(phase := Told(ok))])
        else Unlock(s.(jobs := s.jobs - {id}))
      else s
    case EndJob => if s.write.None? && (j.phase.Told? || j.phase.Interrupting?) then Unlock(s.(jobs := s.jobs - {id})) else s
    case FailJob =>
      s.(holder := Free, orphans := Orphaned(s), write := None, jobs := s.jobs[id := j.(phase := Interrupting)])
    case _ => s
  }

  function StepOrphan(s: System, w: Write): System {
    var out := s.(orphans := s.orphans - {w});
    if w.base == s.version then out.(doc := w.result, version := s.version + 1) else out
  }

  /** An action that is not possible now changes nothing. */
  function Next(s: System, a: Action): System {
    match a
    case OtherAdmit => if |s.jobs| + s.others < s.max then s.(others := s.others + 1) else s
    case OtherEnd => if s.others > 0 then s.(others := s.others - 1) else s
    case BeginTurn => if s.holder.Free? && !s.removed then s.(holder := Turn(s.generation)) else s
    case BeginWelcome => if s.holder.Free? then s.(removed := false, holder := Turn(s.generation)) else s
    case Evaluate(c) => if MayEvaluate(s, c) then StepEvaluate(s, c) else s
    case Swap => if s.write.Some? then StepSwap(s) else s
    case JobCheck(id) => if id in s.jobs then JobStep(s, id, a) else s
    case RunnerDone(id, _, _) => if id in s.jobs then JobStep(s, id, a) else s
    case JobTake(id) => if id in s.jobs then JobStep(s, id, a) else s
    case JobFails(id) => if id in s.jobs then JobStep(s, id, a) else s
    case GiveUp(id) => if id in s.jobs then JobStep(s, id, a) else s
    case Remove => CancelJobs(s.(generation := s.generation + 1, removed := true))
    case BeginRemoval => if s.holder.Free? && s.removed then s.(holder := ByRemoval) else s
    case EndRemoval => if s.holder.ByRemoval? then s.(holder := Free, orphans := Orphaned(s), write := None) else s
    case OrphanLands(w) => if w in s.orphans then StepOrphan(s, w) else s
    case OrphanDies(w) => s.(orphans := s.orphans - {w})
    case _ =>
      if s.holder.ByTurn? then TurnStep(s, a)
      else if s.holder.ByJob? && s.holder.id in s.jobs then HoldingJobStep(s, s.holder.id, a)
      else s
  }

  function Reach(s: System, actions: seq<Action>): System {
    if actions == [] then s else Next(Reach(s, actions[..|actions| - 1]), actions[|actions| - 1])
  }
}
