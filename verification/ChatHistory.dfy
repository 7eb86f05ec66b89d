/** Admissions are bounded, and the saved history stays bounded without losing a running record. */
module ChatHistory {
  import opened Options
  import opened ReceiptWindow
  import opened ChatTrim
  import opened ChatJobs
  import opened ChatRuns

  // ---------------------------------------------------------------- admitted jobs

  ghost predicate CountInv(s: System) {
    |s.jobs| + s.others <= s.max
  }

  lemma FewerJobs(a: map<string, Job>, b: map<string, Job>)
    requires a.Keys <= b.Keys
    ensures |a| <= |b|
  {
    Subset(a.Keys, b.Keys);
    assert |a.Keys| == |a| && |b.Keys| == |b|;
  }

  lemma OneMore(a: map<string, Job>, id: string, j: Job)
    ensures |a[id := j]| <= |a| + 1
    ensures id in a ==> |a[id := j]| == |a|
  {
    assert a[id := j].Keys == a.Keys + {id};
    assert |a.Keys| == |a| && |a[id := j].Keys| == |a[id := j]|;
    if id in a { assert a.Keys + {id} == a.Keys; }
  }

  ghost predicate NoMore(s: System, r: System) {
    r.max == s.max && r.others <= s.others && r.jobs.Keys <= s.jobs.Keys
  }

  lemma UpdateKeys(s: System, c: Change, committed: bool)
    ensures NoMore(s, Effect(s, c, committed))
  {
  }

  lemma CancelKeys(s: System)
    ensures NoMore(s, CancelJobs(s))
  {
    hide Cancellable;
  }

  lemma TurnKeys(s: System, a: Action)
    requires s.holder.ByTurn? && !a.Admit?
    ensures NoMore(s, TurnStep(s, a))
  {
    hide CancelJobs, Live;
    CancelKeys(s.(generation := s.generation + 1, holder := s.holder.(forgetting := true)));
  }

  lemma JobKeys(s: System, id: string, a: Action)
    requires id in s.jobs
    ensures NoMore(s, JobStep(s, id, a)) && (s.holder == ByJob(id) ==> NoMore(s, HoldingJobStep(s, id, a)))
  {
    hide Live, ValidTask;
  }

  /** Only an admission adds a job, and it asks for room first. */
  lemma KeysGrowOnlyByAdmission(s: System, a: Action)
    requires !a.OtherAdmit? && !a.Admit?
    ensures NoMore(s, Next(s, a))
  {
    hide MayEvaluate, Apply, Effect, CancelJobs, TurnStep, JobStep, HoldingJobStep, GenOf, Live, Orphaned;
    match a {
      case Evaluate(c) => UpdateKeys(s, c, false);
      case Swap =>
        if s.write.Some? {
          UpdateKeys(s.(doc := s.write.value.result, version := s.version + 1, write := None), s.write.value.change, true);
        }
      case Remove => CancelKeys(s.(generation := s.generation + 1, removed := true));
      case JobCheck(id) => if id in s.jobs { JobKeys(s, id, a); }
      case RunnerDone(id, _, _) => if id in s.jobs { JobKeys(s, id, a); }
      case JobTake(id) => if id in s.jobs { JobKeys(s, id, a); }
      case JobFails(id) => if id in s.jobs { JobKeys(s, id, a); }
      case GiveUp(id) => if id in s.jobs { JobKeys(s, id, a); }
      case OtherEnd | BeginTurn | BeginWelcome | BeginRemoval | EndRemoval | OrphanLands(_) | OrphanDies(_) =>
      case EndTurn | CancelTurn | Launch | Abandon | StartForget | Announce(_) | EndJob | FailJob =>
        if s.holder.ByTurn? { TurnKeys(s, a); }
        if s.holder.ByJob? && s.holder.id in s.jobs { JobKeys(s, s.holder.id, a); }
    }
  }

  lemma NextCount(s: System, a: Action)
    requires CountInv(s)
    ensures CountInv(Next(s, a))
  {
    hide MayEvaluate, StepEvaluate, StepSwap, StepOrphan, CancelJobs, JobStep, HoldingJobStep, Live;
    if a.Admit? {
      AdmitCount(s, a);
    } else if !a.OtherAdmit? {
      hide Next;
      KeysGrowOnlyByAdmission(s, a);
      FewerJobs(Next(s, a).jobs, s.jobs);
    }
  }

  lemma AdmitCount(s: System, a: Action)
    requires a.Admit?
    ensures Next(s, a).max == s.max && (CountInv(s) ==> CountInv(Next(s, a)))
  {
    hide Live;
    if s.holder.ByTurn? {
      OneMore(s.jobs, a.id, Job(s.holder.gen, Starting));
    }
  }

  /** In any interleaving, across all chats, no more jobs are admitted than configured. */
  lemma {:induction false} AdmissionIsBounded(s: System, actions: seq<Action>)
    requires CountInv(s)
    ensures CountInv(Reach(s, actions)) && Reach(s, actions).max == s.max
  {
    hide Next, CountInv;
    if actions != [] {
      AdmissionIsBounded(s, actions[..|actions| - 1]);
      NextCount(Reach(s, actions[..|actions| - 1]), actions[|actions| - 1]);
      MaxStays(Reach(s, actions[..|actions| - 1]), actions[|actions| - 1]);
    }
  }

  lemma MaxStays(s: System, a: Action)
    ensures Next(s, a).max == s.max
  {
    if a.Admit? { AdmitCount(s, a); } else if !a.OtherAdmit? { KeysGrowOnlyByAdmission(s, a); }
  }

  // ---------------------------------------------------------------- records

  predicate UniqueIds(tasks: seq<Task>) {
    forall i, j :: 0 <= i < j < |tasks| ==> tasks[i].id != tasks[j].id
  }

  predicate IdsIn(tasks: seq<Task>, ids: set<string>) {
    forall t <- tasks :: t.id in ids
  }

  predicate RunningIn(tasks: seq<Task>, ids: set<string>) {
    forall t <- tasks :: t.status.Running? ==> t.id in ids
  }

  predicate Lacks(tasks: seq<Task>, id: string) {
    forall t <- tasks :: t.id != id
  }

  ghost predicate Known(d: Doc, used: set<string>) {
    UniqueIds(d.tasks) && IdsIn(d.tasks, used)
  }

  /** Identifiers are never used twice, and the one being started is in no document yet. */
  ghost predicate IdInv(s: System) {
    && Known(s.doc, s.used) && (s.write.Some? ==> Known(s.write.value.result, s.used))
    && (forall w <- s.orphans :: Known(w.result, s.used))
    && s.jobs.Keys <= s.used
    && (forall id <- s.jobs :: s.jobs[id].phase.Starting? ==>
          && Lacks(s.doc.tasks, id) && (forall w <- s.orphans :: Lacks(w.result.tasks, id))
          && (s.write.Some? && s.write.value.change != Persist(id) ==> Lacks(s.write.value.result.tasks, id)))
  }

  ghost predicate PersistLinked(s: System) {
    s.write.Some? && s.write.value.change.Persist? ==>
      var (id, w) := (s.write.value.change.id, s.write.value);
      && s.holder.ByTurn? && s.holder.recovered && s.holder.starting == Some(id)
      && id in s.jobs && s.jobs[id].phase.Starting?
      && (w.base == s.version ==> w.result.tasks == Trim(s.doc.tasks + [Task(id, Running, s.holder.gen, true, "", NotDue)]))
  }

  // ---------------------------------------------------------------- the bound

  lemma {:induction false} RunningIsSub(tasks: seq<Task>)
    ensures forall t <- RunningOf(tasks) :: t in tasks && t.status.Running?
    ensures UniqueIds(tasks) ==> UniqueIds(RunningOf(tasks))
  {
    if tasks != [] {
      RunningIsSub(tasks[1..]);
      assert UniqueIds(tasks) ==> UniqueIds(tasks[1..]);
      var rest := RunningOf(tasks[1..]);
      if UniqueIds(tasks) && tasks[0].status.Running? {
        forall j | 0 <= j < |rest| ensures rest[j].id != tasks[0].id {
          assert rest[j] in rest;
          var i :| 0 <= i < |tasks[1..]| && tasks[1..][i] == rest[j];
          assert tasks[i + 1] == rest[j];
        }
      }
    }
  }

  lemma {:induction false} IdsCount(tasks: seq<Task>, ids: set<string>)
    requires UniqueIds(tasks) && IdsIn(tasks, ids)
    ensures |tasks| <= |ids|
  {
    if tasks != [] {
      forall t | t in tasks[1..] ensures t.id in ids - {tasks[0].id} {
        var i :| 0 <= i < |tasks[1..]| && tasks[1..][i] == t;
        assert tasks[i + 1] == t;
      }
      IdsCount(tasks[1..], ids - {tasks[0].id});
      assert tasks[0] in tasks;
    }
  }

  lemma {:induction false} RunningSnoc(tasks: seq<Task>, t: Task)
    requires t.status.Running?
    ensures RunningOf(tasks + [t]) == RunningOf(tasks) + [t]
  {
    if tasks == [] {
      assert [t][1..] == [];
    } else {
      RunningSnoc(tasks[1..], t);
      assert (tasks + [t])[1..] == tasks[1..] + [t];
    }
  }

  lemma TrimKnown(tasks: seq<Task>, used: set<string>)
    requires UniqueIds(tasks) && IdsIn(tasks, used)
    ensures UniqueIds(Trim(tasks)) && IdsIn(Trim(tasks), used)
  {
    if |tasks| > HISTORY_LIMIT { DroppedKnown(tasks, |tasks| - HISTORY_LIMIT, used); }
  }

  lemma {:induction false} DroppedKnown(tasks: seq<Task>, over: nat, used: set<string>)
    requires UniqueIds(tasks) && IdsIn(tasks, used)
    ensures UniqueIds(Dropped(tasks, over)) && IdsIn(Dropped(tasks, over), used)
  {
    if tasks != [] && over > 0 {
      var (rest, next) := (tasks[1..], if tasks[0].status.Running? then over else over - 1);
      DroppedKnown(rest, next, used);
      TrimSubset(rest, next);
      if tasks[0].status.Running? {
        var d := Dropped(rest, over);
        forall j | 0 <= j < |d| ensures d[j].id != tasks[0].id {
          assert d[j] in rest;
          var i :| 0 <= i < |rest| && rest[i] == d[j];
          assert tasks[i + 1] == d[j];
        }
        assert tasks[0] in tasks;
      }
    }
  }

  predicate SameIds(a: seq<Task>, b: seq<Task>) {
    |a| == |b| && forall i :: 0 <= i < |a| ==> a[i].id == b[i].id
  }

  lemma ChangeIds(c: Change, gen: nat, d: Doc)
    requires !c.Persist? && !c.Forget?
    ensures SameIds(Changed(c, gen, d).tasks, d.tasks)
  {
    hide Broke, LastN;
    BrokeKeeps();
  }

  lemma SameIdsKnown(a: seq<Task>, b: seq<Task>, used: set<string>)
    requires SameIds(a, b) && UniqueIds(b) && IdsIn(b, used)
    ensures UniqueIds(a) && IdsIn(a, used)
    ensures forall id: string :: Lacks(b, id) ==> Lacks(a, id)
  {
    forall t | t in a ensures t.id in used {
      var i :| 0 <= i < |a| && a[i] == t;
      assert b[i] in b;
    }
    forall id: string | Lacks(b, id) ensures Lacks(a, id) {
      forall t | t in a ensures t.id != id {
        var i :| 0 <= i < |a| && a[i] == t;
        assert b[i] in b;
      }
    }
  }

  /** What one change makes of the records: none is new but the one persisted. */
  lemma ChangeRecords(c: Change, live: bool, gen: nat, d: Doc, used: set<string>)
    requires Known(d, used) && (c.Persist? ==> c.id in used && Lacks(d.tasks, c.id))
    ensures Known(Apply(c, live, gen, d), used)
    ensures forall id: string :: Lacks(d.tasks, id) && c != Persist(id) ==> Lacks(Apply(c, live, gen, d).tasks, id)
  {
    hide Trim, Allowed, UniqueIds, IdsIn, Lacks;
    if c.Persist? {
      var t := Task(c.id, Running, gen, true, "", NotDue);
      var all := d.tasks + [t];
      OneMoreKnown(d.tasks, t, used);
      TrimKnown(all, used);
      TrimLacks(all);
    } else if c.Forget? {
      NothingKnown(used);
    } else {
      hide Changed;
      ChangeIds(c, gen, d);
      SameIdsKnown(Changed(c, gen, d).tasks, d.tasks, used);
    }
  }

  lemma OneMoreKnown(tasks: seq<Task>, t: Task, used: set<string>)
    requires UniqueIds(tasks) && IdsIn(tasks, used) && t.id in used && Lacks(tasks, t.id)
    ensures UniqueIds(tasks + [t]) && IdsIn(tasks + [t], used)
    ensures forall id: string :: Lacks(tasks, id) && id != t.id ==> Lacks(tasks + [t], id)
  {
  }

  lemma NothingKnown(used: set<string>)
    ensures UniqueIds([]) && IdsIn([], used) && forall id: string :: Lacks([], id)
  {
  }

  lemma TrimLacks(tasks: seq<Task>)
    ensures forall id: string :: Lacks(tasks, id) ==> Lacks(Trim(tasks), id)
    ensures forall t <- Trim(tasks) :: t in tasks
  {
    hide Dropped;
    if |tasks| > HISTORY_LIMIT { TrimSubset(tasks, |tasks| - HISTORY_LIMIT); }
  }

  lemma ChangeRunning(c: Change, live: bool, gen: nat, d: Doc, keys: set<string>)
    requires RunningIn(d.tasks, keys) && (c.Persist? ==> c.id in keys) && !c.Finish?
    ensures RunningIn(Apply(c, live, gen, d).tasks, keys)
  {
    hide Trim, Broke, LastN, Allowed;
    BrokeKeeps();
    if c.Persist? {
      TrimLacks(d.tasks + [Task(c.id, Running, gen, true, "", NotDue)]);
    }
  }

  lemma RecoverRunning(live: bool, gen: nat, d: Doc, keys: set<string>)
    ensures RunningIn(Apply(Recover(keys), live, gen, d).tasks, keys)
  {
    hide Broke;
    BrokeKeeps();
  }
}
