/** What a task record says about its result and its announcement is what happened. */
module ChatDeliveries {
  import opened Options
  import opened ReceiptWindow
  import opened ChatTrim
  import opened ChatJobs
  import opened ChatRuns
  import opened ChatResults

  type Results = set<(string, Status, string)>
  type Notices = set<(string, bool)>

  // ---------------------------------------------------------------- one update

  /** A record that was not there at the start has a final status only with a result of its runner, and a delivery status only
      after an announcement that ended so. */
  predicate TaskTrue(t: Task, initial: set<string>, done: Results, told: Notices) {
    t.id in initial ||
    (&& (FinalStatus(t.status) ==> (t.id, t.status, t.result) in done)
     && (t.delivery.Sent? ==> (t.id, true) in told)
     && (t.delivery.NotSent? ==> (t.id, false) in told))
  }

  ghost predicate TasksTrue(tasks: seq<Task>, initial: set<string>, done: Results, told: Notices) {
    forall t <- tasks :: TaskTrue(t, initial, done, told)
  }

  predicate ChangeTrue(c: Change, done: Results, told: Notices) {
    && (c.Finish? ==> (c.id, c.status, c.result) in done)
    && (c.Deliver? ==> (c.id, c.ok) in told)
  }

  lemma MappedTrue(tasks: seq<Task>, after: seq<Task>, initial: set<string>, done: Results, told: Notices)
    requires |after| == |tasks| && TasksTrue(tasks, initial, done, told)
    requires forall i :: 0 <= i < |tasks| && TaskTrue(tasks[i], initial, done, told) ==> TaskTrue(after[i], initial, done, told)
    ensures TasksTrue(after, initial, done, told)
  {
    hide TaskTrue;
    assert forall i :: 0 <= i < |tasks| ==> tasks[i] in tasks;
  }

  lemma BrokeTrue(t: Task, initial: set<string>, done: Results, told: Notices)
    requires TaskTrue(t, initial, done, told)
    ensures TaskTrue(Broke(t), initial, done, told)
  {
  }

  lemma ApplyTrue(c: Change, live: bool, gen: nat, d: Doc, initial: set<string>, done: Results, told: Notices)
    requires TasksTrue(d.tasks, initial, done, told) && ChangeTrue(c, done, told)
    ensures TasksTrue(Apply(c, live, gen, d).tasks, initial, done, told)
  {
    hide Broke, Trim, LastN, TasksTrue;
    var r := Apply(c, live, gen, d);
    if Allowed(c, live, gen, d) {
      match c {
        case Persist(id) => PersistTrue(d.tasks, Task(id, Running, gen, true, "", NotDue), initial, done, told);
        case Finish(_, _, _) => MappedTrue(d.tasks, r.tasks, initial, done, told);
        case Deliver(_, _, _) => MappedTrue(d.tasks, r.tasks, initial, done, told);
        case Recover(_) => BrokenTrue(d.tasks, r.tasks, initial, done, told);
        case Interrupt(_, _) => BrokenTrue(d.tasks, r.tasks, initial, done, told);
        case Forget => NoTasksTrue(initial, done, told);
        case Append(_) | Compact(_) | Activate | Rejoin | Receipt(_) =>
      }
    }
  }

  lemma BrokenTrue(tasks: seq<Task>, after: seq<Task>, initial: set<string>, done: Results, told: Notices)
    requires |after| == |tasks| && TasksTrue(tasks, initial, done, told)
    requires forall i :: 0 <= i < |tasks| ==> after[i] == tasks[i] || after[i] == Broke(tasks[i])
    ensures TasksTrue(after, initial, done, told)
  {
    hide Broke, TaskTrue;
    forall i | 0 <= i < |tasks| && TaskTrue(tasks[i], initial, done, told) ensures TaskTrue(after[i], initial, done, told) {
      BrokeTrue(tasks[i], initial, done, told);
    }
    MappedTrue(tasks, after, initial, done, told);
  }

  lemma NoTasksTrue(initial: set<string>, done: Results, told: Notices)
    ensures TasksTrue([], initial, done, told)
  {
  }

  lemma PersistTrue(tasks: seq<Task>, t: Task, initial: set<string>, done: Results, told: Notices)
    requires TasksTrue(tasks, initial, done, told) && TaskTrue(t, initial, done, told)
    ensures TasksTrue(Trim(tasks + [t]), initial, done, told)
  {
    hide Dropped, TaskTrue;
    var all := tasks + [t];
    if |all| > HISTORY_LIMIT { TrimSubset(all, |all| - HISTORY_LIMIT); }
  }

  // ---------------------------------------------------------------- every step

  predicate PhaseTrue(id: string, p: Phase, done: Results, told: Notices) {
    match p
    case Done(st, result) => (id, st, result) in done
    case Locked(st, result) => (id, st, result) in done
    case Saved(st, result) => (id, st, result) in done
    case Told(ok) => (id, ok) in told
    case _ => true
  }

  ghost predicate JobsTrue(jobs: map<string, Job>, done: Results, told: Notices) {
    forall id <- jobs :: PhaseTrue(id, jobs[id].phase, done, told)
  }

  ghost predicate WritesTrue(s: System, initial: set<string>, done: Results, told: Notices) {
    && TasksTrue(s.doc.tasks, initial, done, told)
    && (s.write.Some? ==>
          TasksTrue(s.write.value.result.tasks, initial, done, told) && ChangeTrue(s.write.value.change, done, told))
    && (forall w <- s.orphans :: TasksTrue(w.result.tasks, initial, done, told))
  }

  ghost predicate SentTrue(s: System, done: Results) {
    forall x <- s.sent :: x in done
  }

  ghost predicate TruthInv(s: System, initial: set<string>, done: Results, told: Notices) {
    JobsTrue(s.jobs, done, told) && WritesTrue(s, initial, done, told) && SentTrue(s, done)
  }

  /** The step is an announcement: the result is saved and the chat is still served. */
  predicate Announces(s: System, a: Action) {
    && a.Announce? && s.holder.ByJob? && s.holder.id in s.jobs && s.jobs[s.holder.id].phase.Saved? && s.write.None?
    && Live(s, s.jobs[s.holder.id].gen)
  }

  function MoreDone(done: Results, a: Action): Results {
    if a.RunnerDone? then done + {(a.id, a.status, a.result)} else done
  }

  function MoreTold(told: Notices, s: System, a: Action): Notices {
    if Announces(s, a) then told + {(s.holder.id, a.ok)} else told
  }

  lemma TruthGrows(s: System, initial: set<string>, done: Results, told: Notices, done': Results, told': Notices)
    requires TruthInv(s, initial, done, told) && done <= done' && told <= told'
    ensures TruthInv(s, initial, done', told')
  {
    TasksGrow(s.doc.tasks, initial, done, told, done', told');
    if s.write.Some? { TasksGrow(s.write.value.result.tasks, initial, done, told, done', told'); }
    forall w | w in s.orphans ensures TasksTrue(w.result.tasks, initial, done', told') {
      TasksGrow(w.result.tasks, initial, done, told, done', told');
    }
    hide TasksTrue;
  }

  lemma TasksGrow(tasks: seq<Task>, initial: set<string>, done: Results, told: Notices, done': Results, told': Notices)
    requires TasksTrue(tasks, initial, done, told) && done <= done' && told <= told'
    ensures TasksTrue(tasks, initial, done', told')
  {
  }

  lemma QuietTrue(s: System, r: System, initial: set<string>, done: Results, told: Notices)
    requires WritesTrue(s, initial, done, told) && Quiet(s, r)
    ensures WritesTrue(r, initial, done, told)
  {
    hide TasksTrue, ChangeTrue;
  }

  lemma EffectTrue(s: System, c: Change, committed: bool, done: Results, told: Notices)
    requires JobsTrue(s.jobs, done, told) && ChangeTrue(c, done, told)
    ensures JobsTrue(Effect(s, c, committed).jobs, done, told) && Effect(s, c, committed).sent == s.sent
  {
  }

  lemma EvaluateTrue(s: System, c: Change, initial: set<string>, done: Results, told: Notices)
    requires TruthInv(s, initial, done, told) && MayEvaluate(s, c)
    ensures TruthInv(StepEvaluate(s, c), initial, done, told)
  {
    hide Apply, Effect, TasksTrue, JobsTrue, MayEvaluate, Live, ChangeTrue;
    var live := Live(s, GenOf(s)) && !s.holder.ByRemoval?;
    ChangeIsTrue(s, c, done, told);
    EffectTrue(s, c, false, done, told);
    EffectQuiet(s, c, false);
    QuietTrue(s, Effect(s, c, false), initial, done, told);
    ApplyTrue(c, live, GenOf(s), s.doc, initial, done, told);
  }

  lemma ChangeIsTrue(s: System, c: Change, done: Results, told: Notices)
    requires JobsTrue(s.jobs, done, told) && MayEvaluate(s, c)
    ensures ChangeTrue(c, done, told)
  {
    if s.holder.ByJob? { assert PhaseTrue(s.holder.id, s.jobs[s.holder.id].phase, done, told); }
  }

  lemma SwapTrue(s: System, initial: set<string>, done: Results, told: Notices)
    requires TruthInv(s, initial, done, told) && s.write.Some?
    ensures TruthInv(StepSwap(s), initial, done, told)
  {
    hide Effect, TasksTrue, JobsTrue, ChangeTrue;
    var w := s.write.value;
    if w.base == s.version {
      var out := s.(doc := w.result, version := s.version + 1, write := None);
      EffectTrue(out, w.change, true, done, told);
      EffectQuiet(out, w.change, true);
      QuietTrue(out, Effect(out, w.change, true), initial, done, told);
    }
  }

  lemma OrphanTrue(s: System, w: Write, initial: set<string>, done: Results, told: Notices)
    requires TruthInv(s, initial, done, told) && w in s.orphans
    ensures TruthInv(StepOrphan(s, w), initial, done, told)
  {
    hide TasksTrue, JobsTrue, ChangeTrue;
  }

  lemma CancelTrue(s: System, done: Results, told: Notices)
    requires JobsTrue(s.jobs, done, told)
    ensures JobsTrue(CancelJobs(s).jobs, done, told) && CancelJobs(s).sent == s.sent
  {
    hide Cancellable;
  }

  lemma TurnTrue(s: System, a: Action, done: Results, told: Notices)
    requires JobsTrue(s.jobs, done, told) && s.holder.ByTurn?
    ensures JobsTrue(TurnStep(s, a).jobs, done, told) && TurnStep(s, a).sent == s.sent
  {
    hide CancelJobs, Live;
    if a.StartForget? {
      CancelTrue(s.(generation := s.generation + 1, holder := s.holder.(forgetting := true)), done, told);
    }
  }

  lemma JobTrue(s: System, id: string, a: Action, done: Results, told: Notices)
    requires JobsTrue(s.jobs, done, told) && id in s.jobs && (a.RunnerDone? ==> a.id == id)
    ensures JobsTrue(JobStep(s, id, a).jobs, MoreDone(done, a), told) && JobStep(s, id, a).sent == s.sent
  {
    hide Live, ValidTask;
    assert PhaseTrue(id, s.jobs[id].phase, done, told);
  }

  lemma HoldingTrue(s: System, id: string, a: Action, done: Results, told: Notices)
    requires JobsTrue(s.jobs, done, told) && SentTrue(s, done) && id in s.jobs && s.holder == ByJob(id)
    ensures JobsTrue(HoldingJobStep(s, id, a).jobs, done, MoreTold(told, s, a)) && SentTrue(HoldingJobStep(s, id, a), done)
  {
    hide Live;
    assert PhaseTrue(id, s.jobs[id].phase, done, told);
  }

  /** Steps that write nothing. */
  lemma OthersTrue(s: System, a: Action, done: Results, told: Notices)
    requires JobsTrue(s.jobs, done, told) && SentTrue(s, done) && !a.Evaluate? && !a.Swap? && !a.OrphanLands?
    ensures JobsTrue(Next(s, a).jobs, MoreDone(done, a), MoreTold(told, s, a))
    ensures SentTrue(Next(s, a), MoreDone(done, a))
  {
    hide CancelJobs, TurnStep, JobStep, HoldingJobStep, StepEvaluate, StepSwap, StepOrphan, MayEvaluate, Live;
    match a {
      case Remove => CancelTrue(s.(generation := s.generation + 1, removed := true), done, told);
      case JobCheck(id) => if id in s.jobs { JobTrue(s, id, a, done, told); }
      case RunnerDone(id, _, _) => if id in s.jobs { JobTrue(s, id, a, done, told); }
      case JobTake(id) => if id in s.jobs { JobTrue(s, id, a, done, told); }
      case JobFails(id) => if id in s.jobs { JobTrue(s, id, a, done, told); }
      case GiveUp(id) => if id in s.jobs { JobTrue(s, id, a, done, told); }
      case OtherAdmit | OtherEnd | BeginTurn | BeginWelcome | BeginRemoval | EndRemoval | OrphanDies(_) =>
      case EndTurn | CancelTurn | Admit(_) | Launch | Abandon | StartForget | Announce(_) | EndJob | FailJob =>
        if s.holder.ByTurn? { TurnTrue(s, a, done, told); }
        if s.holder.ByJob? && s.holder.id in s.jobs { HoldingTrue(s, s.holder.id, a, done, told); }
    }
  }

  lemma NextTrue(s: System, a: Action, initial: set<string>, done: Results, told: Notices)
    requires TruthInv(s, initial, done, told)
    ensures TruthInv(Next(s, a), initial, MoreDone(done, a), MoreTold(told, s, a))
  {
    hide StepEvaluate, StepSwap, StepOrphan, MayEvaluate, WritesTrue, JobsTrue, SentTrue, Live;
    if a.Evaluate? {
      if MayEvaluate(s, a.change) { EvaluateTrue(s, a.change, initial, done, told); }
    } else if a.Swap? {
      if s.write.Some? { SwapTrue(s, initial, done, told); }
    } else if a.OrphanLands? {
      if a.write in s.orphans { OrphanTrue(s, a.write, initial, done, told); }
    } else {
      hide Next;
      OtherSteps(s, a);
      TruthGrows(s, initial, done, told, MoreDone(done, a), MoreTold(told, s, a));
      QuietTrue(s, Next(s, a), initial, MoreDone(done, a), MoreTold(told, s, a));
      OthersTrue(s, a, done, told);
    }
  }

  // ---------------------------------------------------------------- every run

  /** What the runners of a run returned, and how its announcements ended. */
  ghost function DoneIn(actions: seq<Action>): Results {
    if actions == [] then {} else MoreDone(DoneIn(actions[..|actions| - 1]), actions[|actions| - 1])
  }

  ghost function ToldIn(max: nat, doc: Doc, actions: seq<Action>): Notices {
    if actions == [] then {}
    else
      var before := actions[..|actions| - 1];
      MoreTold(ToldIn(max, doc, before), Reach(Initial(max, doc), before), actions[|actions| - 1])
  }

  function IdsOf(doc: Doc): set<string> {
    set t | t in doc.tasks :: t.id
  }

  lemma {:induction false} ReachTrue(max: nat, doc: Doc, actions: seq<Action>)
    ensures TruthInv(Reach(Initial(max, doc), actions), IdsOf(doc), DoneIn(actions), ToldIn(max, doc, actions))
  {
    hide TruthInv, Next, MoreDone, MoreTold, Initial;
    if actions == [] {
      StartTrue(max, doc);
    } else {
      var (before, a) := (actions[..|actions| - 1], actions[|actions| - 1]);
      ReachTrue(max, doc, before);
      NextTrue(Reach(Initial(max, doc), before), a, IdsOf(doc), DoneIn(before), ToldIn(max, doc, before));
    }
  }

  lemma StartTrue(max: nat, doc: Doc)
    ensures TruthInv(Initial(max, doc), IdsOf(doc), {}, {})
  {
  }

  lemma {:induction false} DoneWasReturned(actions: seq<Action>, id: string, st: Status, result: string)
    ensures (id, st, result) in DoneIn(actions) <==> RunnerDone(id, st, result) in actions
  {
    if actions != [] {
      var (before, a) := (actions[..|actions| - 1], actions[|actions| - 1]);
      assert actions == before + [a];
      DoneWasReturned(before, id, st, result);
    }
  }

  /** In step `n` of the run the saved result of this task was announced, and the sender succeeded or failed. */
  ghost predicate AnnouncedAt(max: nat, doc: Doc, actions: seq<Action>, n: nat, id: string, ok: bool)
    requires n < |actions|
  {
    var s := Reach(Initial(max, doc), actions[..n]);
    Announces(s, actions[n]) && s.holder.id == id && actions[n].ok == ok
  }

  lemma {:induction false} ToldWasAnnounced(max: nat, doc: Doc, actions: seq<Action>, id: string, ok: bool)
    requires (id, ok) in ToldIn(max, doc, actions)
    ensures exists n :: 0 <= n < |actions| && AnnouncedAt(max, doc, actions, n, id, ok)
  {
    hide Reach, Initial, Announces;
    var (before, a) := (actions[..|actions| - 1], actions[|actions| - 1]);
    assert actions == before + [a];
    if (id, ok) in ToldIn(max, doc, before) {
      ToldWasAnnounced(max, doc, before, id, ok);
      var n :| 0 <= n < |before| && AnnouncedAt(max, doc, before, n, id, ok);
      assert before[..n] == actions[..n];
      assert AnnouncedAt(max, doc, actions, n, id, ok);
    } else {
      assert actions[..|before|] == before;
      assert AnnouncedAt(max, doc, actions, |before|, id, ok);
    }
  }

  /** In every run, with swaps left behind landing at any time: a record that was not there at the start is completed or failed
      only with exactly what its runner returned, and is marked sent or not sent only if its saved result was announced and
      the sender succeeded or failed. */
  lemma RecordsTellTheTruth(max: nat, doc: Doc, actions: seq<Action>, t: Task)
    requires t in Reach(Initial(max, doc), actions).doc.tasks && forall t0 <- doc.tasks :: t0.id != t.id
    ensures FinalStatus(t.status) ==> RunnerDone(t.id, t.status, t.result) in actions
    ensures t.delivery.Sent? ==> exists n :: 0 <= n < |actions| && AnnouncedAt(max, doc, actions, n, t.id, true)
    ensures t.delivery.NotSent? ==> exists n :: 0 <= n < |actions| && AnnouncedAt(max, doc, actions, n, t.id, false)
  {
    hide Reach, Initial, AnnouncedAt, DoneIn, ToldIn;
    ReachTrue(max, doc, actions);
    assert TaskTrue(t, IdsOf(doc), DoneIn(actions), ToldIn(max, doc, actions));
    DoneWasReturned(actions, t.id, t.status, t.result);
    if t.delivery.Sent? { ToldWasAnnounced(max, doc, actions, t.id, true); }
    if t.delivery.NotSent? { ToldWasAnnounced(max, doc, actions, t.id, false); }
  }

  /** And whatever is announced is what a runner returned for that task. */
  lemma AnnouncementsAreResults(max: nat, doc: Doc, actions: seq<Action>, x: (string, Status, string))
    requires x in Reach(Initial(max, doc), actions).sent
    ensures RunnerDone(x.0, x.1, x.2) in actions
  {
    hide Reach, Initial, DoneIn, ToldIn, WritesTrue, JobsTrue;
    ReachTrue(max, doc, actions);
    assert x == (x.0, x.1, x.2);
    DoneWasReturned(actions, x.0, x.1, x.2);
  }

  /** When the delivery is recorded, the record of the task is marked as the sender ended and no other record changes; a
      notice that was sent becomes the latest message, one that was not leaves the messages as they are. */
  lemma DeliveryIsRecorded(id: string, ok: bool, notice: string, gen: nat, d: Doc)
    requires d.active && HasTask(d.tasks, id)
    ensures var r := Apply(Deliver(id, ok, notice), true, gen, d);
      && |r.tasks| == |d.tasks|
      && (forall i :: 0 <= i < |d.tasks| ==>
            r.tasks[i] == if d.tasks[i].id != id then d.tasks[i]
                          else if ok then d.tasks[i].(delivery := Sent) else d.tasks[i].(delivery := NotSent))
      && (if ok then |r.recent| > 0 && r.recent[|r.recent| - 1] == Entry(notice, gen) else r.recent == d.recent)
  {
  }
}
