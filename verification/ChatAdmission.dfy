/** Which records may take the history over its limit: running ones whose job is no longer admitted. */
module ChatAdmission {
  import opened Options
  import opened ReceiptWindow
  import opened ChatTrim
  import opened ChatJobs
  import opened ChatRuns
  import opened ChatHistory
  import opened ChatBounds

  /** Running records whose job is not admitted in this process. */
  function Unbacked(tasks: seq<Task>, ids: set<string>): seq<Task> {
    if tasks == [] then []
    else (if tasks[0].status.Running? && tasks[0].id !in ids then [tasks[0]] else []) + Unbacked(tasks[1..], ids)
  }

  // ---------------------------------------------------------------- the bound

  predicate IsRunning(tasks: seq<Task>) {
    forall t <- tasks :: t.status.Running?
  }

  lemma {:induction false} BackedOrNot(tasks: seq<Task>, ids: set<string>)
    requires UniqueIds(tasks)
    ensures |RunningOf(tasks)| <= |ids| + |Unbacked(tasks, ids)|
  {
    if tasks != [] {
      var (t, rest) := (tasks[0], tasks[1..]);
      if t.status.Running? && t.id in ids {
        BackedOrNot(rest, ids - {t.id});
        SameUnbacked(rest, ids, t.id);
      } else {
        BackedOrNot(rest, ids);
      }
    }
  }

  lemma {:induction false} SameUnbacked(tasks: seq<Task>, ids: set<string>, id: string)
    requires Lacks(tasks, id)
    ensures Unbacked(tasks, ids - {id}) == Unbacked(tasks, ids)
  {
    if tasks != [] {
      assert tasks[0] in tasks;
      SameUnbacked(tasks[1..], ids, id);
    }
  }

  lemma AdmittingGives(s: System)
    requires RunInv(s) && Admitting(s)
    ensures var id := s.write.value.change.id;
      id in s.jobs && Lacks(s.doc.tasks, id) && UniqueIds(s.doc.tasks) && |s.jobs| + s.others <= s.max
  {
    hide UniqueIds, Lacks, Trim;
  }

  /** In every run: the running records found at an admission are at most the other admitted jobs and those without a
      job. So with at most 20 jobs configured the history goes over its limit only if a record without a job is left. */
  lemma OverfullNeedsUnbacked(max: nat, doc: Doc, actions: seq<Action>)
    requires UniqueIds(doc.tasks) && max <= HISTORY_LIMIT && Admitting(Reach(Initial(max, doc), actions))
    ensures var s := Reach(Initial(max, doc), actions);
      var unbacked := Unbacked(s.doc.tasks, s.jobs.Keys);
      && |RunningOf(s.doc.tasks)| < |s.jobs| + |unbacked| && |s.jobs| <= max
      && (|Next(s, Swap).doc.tasks| > HISTORY_LIMIT ==> unbacked != [])
  {
    hide Reach, Initial, RunInv, Trim, UniqueIds, Next, Lacks, RunningOf, FinishedOf, Room;
    var s := Reach(Initial(max, doc), actions);
    ReachHistory(max, doc, actions);
    AdmittingGives(s);
    AdmittedHistoryIsBounded(max, doc, actions);
    var id := s.write.value.change.id;
    BackedOrNot(s.doc.tasks, s.jobs.Keys - {id});
    SameUnbacked(s.doc.tasks, s.jobs.Keys, id);
    assert |s.jobs.Keys - {id}| == |s.jobs| - 1;
  }

  // ---------------------------------------------------------------- undisturbed turns

  /** A turn that has recovered the records sees only running records of admitted jobs. */
  ghost predicate Backed(s: System) {
    s.holder.ByTurn? ==>
      && (s.holder.recovered ==> RunningIn(s.doc.tasks, s.jobs.Keys))
      && (s.write.Some? && (s.holder.recovered || s.write.value.change.Recover?) ==>
            RunningIn(s.write.value.result.tasks, s.jobs.Keys))
  }

  /** Neither a swap that somebody left behind lands nor a cancelled job leaves. */
  predicate Undisturbed(a: Action) {
    !a.OrphanLands? && !a.GiveUp?
  }

  /** Nothing is written, and no job leaves but when the turn starts afresh or ends. */
  ghost predicate Calm(s: System, r: System) {
    && r.doc == s.doc && (r.write == s.write || r.write.None?)
    && (r.holder.ByTurn? && (r.holder.recovered || r.write.Some?) ==>
          s.holder.ByTurn? && (r.holder.recovered ==> s.holder.recovered) && s.jobs.Keys <= r.jobs.Keys)
  }

  lemma CalmKeeps(s: System, r: System)
    requires Backed(s) && Calm(s, r)
    ensures Backed(r)
  {
  }

  lemma CancelCalm(s: System)
    ensures Calm(s, CancelJobs(s)) && (s.holder.ByTurn? ==> CancelJobs(s).holder == s.holder)
  {
    hide Cancellable;
  }

  lemma TurnCalm(s: System, a: Action)
    requires s.holder.ByTurn?
    ensures Calm(s, TurnStep(s, a))
  {
    hide CancelJobs, Live;
    if a.StartForget? {
      CancelCalm(s.(generation := s.generation + 1, holder := s.holder.(forgetting := true)));
    }
  }

  lemma JobCalm(s: System, id: string, a: Action)
    requires id in s.jobs && !a.GiveUp?
    ensures Calm(s, JobStep(s, id, a))
    ensures s.holder == ByJob(id) ==> Calm(s, HoldingJobStep(s, id, a))
  {
    hide Live, ValidTask;
  }

  lemma OtherCalm(s: System, a: Action)
    requires Undisturbed(a) && !a.Evaluate? && !a.Swap? && FreeIsIdle(s)
    ensures Calm(s, Next(s, a))
  {
    hide CancelJobs, TurnStep, JobStep, HoldingJobStep, StepEvaluate, StepSwap, StepOrphan, MayEvaluate, Orphaned;
    match a {
      case Remove => CancelCalm(s.(generation := s.generation + 1, removed := true));
      case JobCheck(id) => if id in s.jobs { JobCalm(s, id, a); }
      case RunnerDone(id, _, _) => if id in s.jobs { JobCalm(s, id, a); }
      case JobTake(id) => if id in s.jobs { JobCalm(s, id, a); }
      case JobFails(id) => if id in s.jobs { JobCalm(s, id, a); }
      case OtherAdmit | OtherEnd | BeginTurn | BeginWelcome | BeginRemoval | EndRemoval | OrphanDies(_) =>
      case EndTurn | CancelTurn | Admit(_) | Launch | Abandon | StartForget | Announce(_) | EndJob | FailJob =>
        if s.holder.ByTurn? { TurnCalm(s, a); }
        if s.holder.ByJob? && s.holder.id in s.jobs { JobCalm(s, s.holder.id, a); }
    }
  }

  lemma EvaluateBacked(s: System, c: Change)
    requires Backed(s) && HistoryInv(s) && MayEvaluate(s, c)
    ensures Backed(StepEvaluate(s, c))
  {
    hide Apply, UniqueIds, IdsIn, Lacks, RunningIn, Cancellable, HistoryInv, MayEvaluate;
    var live := Live(s, GenOf(s)) && !s.holder.ByRemoval?;
    MayGives(s, c);
    if s.holder.ByTurn? {
      if c.Recover? { RecoverRunning(live, GenOf(s), s.doc, s.jobs.Keys); }
      if s.holder.recovered { ChangeRunning(c, live, GenOf(s), s.doc, s.jobs.Keys); }
    }
  }

  lemma SwapBacked(s: System)
    requires Backed(s) && s.write.Some? && FreeIsIdle(s)
    ensures Backed(StepSwap(s))
  {
    hide RunningIn;
    var w := s.write.value;
    if w.base == s.version && w.change.Persist? && w.change.id in s.jobs {
      var r := StepSwap(s);
      assert s.holder.ByTurn? ==> r.jobs.Keys == s.jobs.Keys;
    }
  }

  lemma NextBacked(s: System, a: Action)
    requires Backed(s) && RunInv(s) && Undisturbed(a)
    ensures Backed(Next(s, a))
  {
    hide Backed, HistoryInv, Bases, CountInv, FreeIsIdle, MayEvaluate, StepEvaluate, StepSwap, StepOrphan, TurnStep, JobStep,
         HoldingJobStep, CancelJobs, Calm;
    if a.Evaluate? {
      if MayEvaluate(s, a.change) { EvaluateBacked(s, a.change); }
    } else if a.Swap? {
      if s.write.Some? { SwapBacked(s); }
    } else {
      OtherCalm(s, a);
      CalmKeeps(s, Next(s, a));
    }
  }

  lemma {:induction false} ReachBacked(max: nat, doc: Doc, actions: seq<Action>, n: nat)
    requires UniqueIds(doc.tasks) && n <= |actions| && Backed(Reach(Initial(max, doc), actions[..n]))
    requires forall i :: n <= i < |actions| ==> Undisturbed(actions[i])
    ensures Backed(Reach(Initial(max, doc), actions))
  {
    hide Backed, Next, Initial, RunInv, UniqueIds;
    if n == |actions| {
      assert actions[..n] == actions;
    } else {
      var before := actions[..|actions| - 1];
      assert before[..n] == actions[..n];
      ReachBacked(max, doc, before, n);
      ReachHistory(max, doc, before);
      NextBacked(Reach(Initial(max, doc), before), actions[|actions| - 1]);
    }
  }

  lemma {:induction false} NoneUnbacked(tasks: seq<Task>, ids: set<string>)
    requires RunningIn(tasks, ids)
    ensures Unbacked(tasks, ids) == []
  {
    if tasks != [] {
      assert tasks[0] in tasks;
      NoneUnbacked(tasks[1..], ids);
    }
  }

  /** So the bound holds for every admission of a turn during which no swap that somebody left behind lands and no
      cancelled job leaves: at step `n` nobody or somebody else held the lock. */
  lemma UndisturbedTurnIsBounded(max: nat, doc: Doc, actions: seq<Action>, n: nat)
    requires UniqueIds(doc.tasks) && max <= HISTORY_LIMIT && Admitting(Reach(Initial(max, doc), actions))
    requires n <= |actions| && !Reach(Initial(max, doc), actions[..n]).holder.ByTurn?
    requires forall i :: n <= i < |actions| ==> Undisturbed(actions[i])
    ensures |Next(Reach(Initial(max, doc), actions), Swap).doc.tasks| <= HISTORY_LIMIT
  {
    hide Reach, Initial, Next, UniqueIds, Undisturbed, RunningIn, Unbacked;
    var s := Reach(Initial(max, doc), actions);
    ReachBacked(max, doc, actions, n);
    AdmittedHistoryIsBounded(max, doc, actions);
    OverfullNeedsUnbacked(max, doc, actions);
    RecoveredFirst(max, doc, actions);
    NoneUnbacked(s.doc.tasks, s.jobs.Keys);
  }

  lemma RecoveredFirst(max: nat, doc: Doc, actions: seq<Action>)
    requires UniqueIds(doc.tasks) && Admitting(Reach(Initial(max, doc), actions))
    ensures Reach(Initial(max, doc), actions).holder.ByTurn? && Reach(Initial(max, doc), actions).holder.recovered
  {
    hide Reach, Initial, UniqueIds, IdInv, Trim, StartingLinked;
    ReachHistory(max, doc, actions);
  }

  // ---------------------------------------------------------------- twenty-one running records

  function Name(n: nat): (r: string)
    ensures |r| == n
  {
    seq(n, _ => 'x')
  }

  function JobsUpTo(n: nat): map<string, Job> {
    if n == 0 then map[] else JobsUpTo(n - 1)[Name(n - 1) := Job(1, Ready)]
  }

  function Record(n: nat): Task {
    Task(Name(n), Running, 1, true, "", NotDue)
  }

  function RecordsUpTo(n: nat): seq<Task> {
    if n == 0 then [] else RecordsUpTo(n - 1) + [Record(n - 1)]
  }

  const FRESH := Doc(BLANK, [], [], true, false, [])

  /** A turn has admitted `n` tasks and all of them are running. */
  function Grown(n: nat): System {
    Initial(HISTORY_LIMIT, FRESH).(version := n, doc := FRESH.(tasks := RecordsUpTo(n)), holder := ByTurn(1, true, None, false),
                                   jobs := JobsUpTo(n), used := JobsUpTo(n).Keys)
  }

  lemma {:induction false} NamesUpTo(n: nat)
    ensures forall id <- JobsUpTo(n) :: |id| < n && JobsUpTo(n)[id] == Job(1, Ready)
    ensures forall m: nat :: m < n ==> Name(m) in JobsUpTo(n)
    ensures |JobsUpTo(n)| == n && |RecordsUpTo(n)| == n
    ensures forall t <- RecordsUpTo(n) :: t.status.Running? && t.mine && t.id in JobsUpTo(n) && t.delivery.NotDue?
  {
    if n > 0 {
      NamesUpTo(n - 1);
      assert Name(n - 1) !in JobsUpTo(n - 1);
    }
  }

  lemma UpByOne(n: nat)
    ensures RecordsUpTo(n + 1) == RecordsUpTo(n) + [Record(n)] && JobsUpTo(n + 1) == JobsUpTo(n)[Name(n) := Job(1, Ready)]
    ensures JobsUpTo(n + 1).Keys == JobsUpTo(n).Keys + {Name(n)}
  {
  }

  function Admission(n: nat): seq<Action> {
    [Admit(Name(n)), Evaluate(Persist(Name(n))), Swap, Launch]
  }

  lemma AdmitOne(s: System, id: string)
    requires s.holder == ByTurn(1, true, None, false) && s.write.None? && s.generation == 1 && !s.removed && s.doc.active
    requires id !in s.used && id !in s.jobs && |s.jobs| + s.others < s.max
    ensures var w := Write(s.version, s.doc.(tasks := Trim(s.doc.tasks + [Task(id, Running, 1, true, "", NotDue)])), Persist(id));
      w.result != s.doc ==>
        Next(Next(s, Admit(id)), Evaluate(Persist(id))) ==
        s.(jobs := s.jobs[id := Job(1, Starting)], used := s.used + {id}, holder := ByTurn(1, true, Some(id), false),
           write := Some(w))
  {
    hide Trim;
  }

  lemma LandOne(s: System, id: string)
    requires s.holder == ByTurn(1, true, Some(id), false) && s.generation == 1 && !s.removed
    requires id in s.jobs && s.jobs[id] == Job(1, Starting)
    requires s.write.Some? && s.write.value.change == Persist(id) && s.write.value.base == s.version
    ensures Next(s, Swap).doc == s.write.value.result
    ensures Next(Next(s, Swap), Launch) ==
            s.(doc := s.write.value.result, version := s.version + 1, write := None, jobs := s.jobs[id := Job(1, Ready)],
               holder := ByTurn(1, true, None, false))
  {
  }

  lemma GrowsByOne(n: nat)
    requires n < HISTORY_LIMIT
    ensures Reach(Grown(n), Admission(n)) == Grown(n + 1)
  {
    hide Reach, Next, Trim, RecordsUpTo, JobsUpTo, Name;
    var (s, id) := (Grown(n), Name(n));
    NamesUpTo(n);
    UpByOne(n);
    assert Name(n) !in JobsUpTo(n);
    AdmitOne(s, id);
    NoTrim(s.doc.tasks + [Record(n)]);
    var s2 := Next(Next(s, Admit(id)), Evaluate(Persist(id)));
    LandOne(s2, id);
    assert Next(Next(s2, Swap), Launch) == Grown(n + 1) by {
      assert s.jobs[id := Job(1, Starting)][id := Job(1, Ready)] == s.jobs[id := Job(1, Ready)];
    }
    Four(s, Admit(id), Evaluate(Persist(id)), Swap, Launch);
  }

  lemma NoTrim(tasks: seq<Task>)
    requires |tasks| <= HISTORY_LIMIT
    ensures Trim(tasks) == tasks
  {
  }

  lemma Four(s: System, a: Action, b: Action, c: Action, d: Action)
    ensures Reach(s, [a, b, c, d]) == Next(Next(Next(Next(s, a), b), c), d)
  {
    hide Next, Reach;
    var none: seq<Action> := [];
    assert none + [a] + [b] + [c] + [d] == [a, b, c, d];
    ReachNothing(s);
    ReachOne(s, none, a);
    ReachOne(s, none + [a], b);
    ReachOne(s, none + [a] + [b], c);
    ReachOne(s, none + [a] + [b] + [c], d);
  }

  lemma {:induction false} ReachOn(s: System, before: seq<Action>, more: seq<Action>)
    ensures Reach(s, before + more) == Reach(Reach(s, before), more)
  {
    hide Next;
    if more == [] {
      assert before + more == before;
    } else {
      var all := before + more;
      assert all[..|all| - 1] == before + more[..|more| - 1];
      ReachOn(s, before, more[..|more| - 1]);
    }
  }

  function GrowingRun(n: nat): seq<Action> {
    if n == 0 then [BeginTurn, Evaluate(Recover({}))] else GrowingRun(n - 1) + Admission(n - 1)
  }

  lemma {:induction false} GrowsUpTo(n: nat)
    requires n <= HISTORY_LIMIT
    ensures Reach(Initial(HISTORY_LIMIT, FRESH), GrowingRun(n)) == Grown(n)
  {
    hide Reach, Grown, Initial;
    if n == 0 {
      FirstTurn();
    } else {
      GrowsUpTo(n - 1);
      GrowsByOne(n - 1);
      ReachOn(Initial(HISTORY_LIMIT, FRESH), GrowingRun(n - 1), Admission(n - 1));
    }
  }

  lemma FirstTurn()
    ensures Reach(Initial(HISTORY_LIMIT, FRESH), [BeginTurn, Evaluate(Recover({}))]) == Grown(0)
  {
    hide Reach;
    var s := Initial(HISTORY_LIMIT, FRESH);
    var none: seq<Action> := [];
    assert none + [BeginTurn] + [Evaluate(Recover({}))] == [BeginTurn, Evaluate(Recover({}))];
    ReachNothing(s);
    ReachOne(s, none, BeginTurn);
    ReachOne(s, none + [BeginTurn], Evaluate(Recover({})));
    assert Apply(Recover({}), true, 1, FRESH) == FRESH;
    assert s.used == {};
  }

  /** Recovering changes nothing while every running record has its job. */
  lemma RecoverFindsNothing(s: System)
    requires s.holder == Turn(1) && s.write.None?
    requires forall t <- s.doc.tasks :: t.mine && t.id in s.jobs
    ensures Next(s, Evaluate(Recover(s.jobs.Keys))) == s.(holder := ByTurn(1, true, None, false))
  {
    hide Broke;
    var d := Changed(Recover(s.jobs.Keys), 1, s.doc);
    assert d.tasks == s.doc.tasks;
  }

  /** A turn with 19 running jobs is cancelled while the record of a twentieth is on its way; the next turn finds nothing
      to recover, so its document keeps the version for which that record is still good. */
  function Disturbance(w: Write): seq<Action> {
    [Admit(Name(19)), Evaluate(Persist(Name(19))), CancelTurn, BeginTurn]
    + [Evaluate(Recover(JobsUpTo(19).Keys)), OrphanLands(w), Admit(Name(20)), Evaluate(Persist(Name(20)))]
  }

  function Leftover(): Write {
    Write(19, FRESH.(tasks := RecordsUpTo(20)), Persist(Name(19)))
  }

  lemma CancelOne(s: System, id: string)
    requires s.holder == ByTurn(1, true, Some(id), false) && s.write.Some? && !s.removed && s.generation == 1
    ensures Next(Next(s, CancelTurn), BeginTurn) ==
            s.(holder := Turn(1), orphans := s.orphans + {s.write.value}, write := None, jobs := s.jobs - {id})
  {
  }

  lemma LeftBehind()
    ensures Reach(Grown(19), Disturbance(Leftover())[..4]) ==
            Grown(19).(holder := Turn(1), orphans := {Leftover()}, used := JobsUpTo(20).Keys)
  {
    hide Reach, Trim, Next, RecordsUpTo, JobsUpTo, Name;
    var (s, id) := (Grown(19), Name(19));
    NamesUpTo(19);
    UpByOne(19);
    assert id !in JobsUpTo(19);
    AdmitOne(s, id);
    NoTrim(RecordsUpTo(19) + [Record(19)]);
    var s2 := Next(Next(s, Admit(id)), Evaluate(Persist(id)));
    CancelOne(s2, id);
    assert s.jobs[id := Job(1, Starting)] - {id} == s.jobs;
    Four(s, Admit(id), Evaluate(Persist(id)), CancelTurn, BeginTurn);
    assert Disturbance(Leftover())[..4] == [Admit(id), Evaluate(Persist(id)), CancelTurn, BeginTurn];
  }

  lemma LandsLater(s: System)
    requires s == Grown(19).(holder := Turn(1), orphans := {Leftover()}, used := JobsUpTo(20).Keys)
    ensures var r := Reach(s, Disturbance(Leftover())[4..]);
      && Admitting(r) && r.jobs.Keys == JobsUpTo(19).Keys + {Name(20)}
      && r.doc.tasks == RecordsUpTo(20) && r.write.value.result.tasks == RecordsUpTo(20) + [Record(20)]
  {
    hide Reach, Trim, Next, RecordsUpTo, JobsUpTo, Name;
    var (id, w) := (Name(20), Leftover());
    NamesUpTo(19);
    NamesUpTo(20);
    assert id !in JobsUpTo(19) && id !in JobsUpTo(20);
    RecoverFindsNothing(s);
    var s1 := s.(holder := ByTurn(1, true, None, false));
    var s2 := s1.(doc := w.result, version := 20, orphans := {});
    LeftoverLandsNow(s1, w);
    AdmitOne(s2, id);
    OneTooMany(RecordsUpTo(20), Record(20));
    Four(s, Evaluate(Recover(JobsUpTo(19).Keys)), OrphanLands(w), Admit(id), Evaluate(Persist(id)));
    assert Disturbance(w)[4..] ==
           [Evaluate(Recover(JobsUpTo(19).Keys)), OrphanLands(w), Admit(id), Evaluate(Persist(id))];
  }

  lemma LeftoverLandsNow(s: System, w: Write)
    requires s.orphans == {w} && w.base == s.version
    ensures Next(s, OrphanLands(w)) == s.(doc := w.result, version := s.version + 1, orphans := {})
  {
  }

  lemma OneTooMany(tasks: seq<Task>, t: Task)
    requires IsRunning(tasks) && t.status.Running?
    ensures Trim(tasks + [t]) == tasks + [t] && |RunningOf(tasks)| == |tasks|
  {
    hide Dropped;
    AllRunning(tasks);
    AllRunning(tasks + [t]);
    if |tasks + [t]| > HISTORY_LIMIT { DroppedRunning(tasks + [t], |tasks + [t]| - HISTORY_LIMIT); }
  }

  lemma {:induction false} AllRunning(tasks: seq<Task>)
    requires IsRunning(tasks)
    ensures RunningOf(tasks) == tasks
  {
    if tasks != [] {
      assert tasks[0] in tasks;
      AllRunning(tasks[1..]);
    }
  }

  lemma {:induction false} DroppedRunning(tasks: seq<Task>, over: nat)
    requires IsRunning(tasks)
    ensures Dropped(tasks, over) == tasks
  {
    if tasks != [] && over > 0 {
      assert tasks[0] in tasks;
      DroppedRunning(tasks[1..], over);
    }
  }

  /** It does happen: 19 jobs are running, the record of a cancelled admission lands late, and the next admission leaves
      21 running records in a history of 20. */
  lemma TwentyOneRunning()
    ensures exists actions ::
              var s := Reach(Initial(HISTORY_LIMIT, FRESH), actions);
              && Admitting(s) && |s.jobs| == HISTORY_LIMIT && Unbacked(s.doc.tasks, s.jobs.Keys) == [Record(19)]
              && |RunningOf(s.doc.tasks)| == 20 && |Next(s, Swap).doc.tasks| == 21
  {
    hide Reach, Initial, Next, Trim, JobsUpTo, RecordsUpTo;
    var w := Leftover();
    var run := Disturbance(w);
    var s0 := Initial(HISTORY_LIMIT, FRESH);
    var actions := GrowingRun(19) + run[..4] + run[4..];
    GrowsUpTo(19);
    LeftBehind();
    ReachOn(s0, GrowingRun(19), run[..4]);
    ReachOn(s0, GrowingRun(19) + run[..4], run[4..]);
    LandsLater(Reach(s0, GrowingRun(19) + run[..4]));
    var s := Reach(s0, actions);
    CountThem(s.jobs, s.doc.tasks);
    AfterSwap(s);
  }

  lemma CountThem(jobs: map<string, Job>, tasks: seq<Task>)
    requires jobs.Keys == JobsUpTo(19).Keys + {Name(20)} && tasks == RecordsUpTo(20)
    ensures |jobs| == 20 && |RunningOf(tasks)| == 20 && |tasks| == 20 && Unbacked(tasks, jobs.Keys) == [Record(19)]
  {
    hide JobsUpTo, RecordsUpTo, RunningOf, Unbacked;
    NamesUpTo(19);
    NamesUpTo(20);
    AllRunning(tasks);
    assert Name(20) !in JobsUpTo(19);
    assert |jobs.Keys| == |JobsUpTo(19).Keys| + 1 && |jobs| == |jobs.Keys| && |JobsUpTo(19)| == |JobsUpTo(19).Keys|;
    assert RecordsUpTo(20) == RecordsUpTo(19) + [Record(19)] by { UpToTwenty(); }
    UnbackedSnoc(RecordsUpTo(19), Record(19), jobs.Keys);
    NoneUnbacked(RecordsUpTo(19), jobs.Keys);
    assert Name(19) !in jobs.Keys;
  }

  lemma UpToTwenty()
    ensures RecordsUpTo(20) == RecordsUpTo(19) + [Record(19)]
  {
  }

  lemma {:induction false} UnbackedSnoc(tasks: seq<Task>, t: Task, ids: set<string>)
    ensures Unbacked(tasks + [t], ids) == Unbacked(tasks, ids) + if t.status.Running? && t.id !in ids then [t] else []
  {
    if tasks == [] {
      assert [t][1..] == [];
    } else {
      assert (tasks + [t])[1..] == tasks[1..] + [t];
      UnbackedSnoc(tasks[1..], t, ids);
    }
  }
}
