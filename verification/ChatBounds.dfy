/** The history bound over whole runs. */
module ChatBounds {
  import opened Options
  import opened ReceiptWindow
  import opened ChatTrim
  import opened ChatJobs
  import opened ChatRuns
  import opened ChatHistory

  /** A job without a task of its own belongs to the turn that holds the lock. */
  ghost predicate StartingLinked(s: System) {
    forall id <- s.jobs :: !Cancellable(s.jobs[id].phase) ==> s.holder.ByTurn? && s.holder.starting == Some(id)
  }

  ghost predicate ForgetLinked(s: System) {
    && (s.holder.ByTurn? && s.holder.forgetting ==> s.holder.starting.None?)
    && (s.write.Some? && s.write.value.change.Forget? ==> s.holder.ByTurn? && s.holder.forgetting)
  }

  ghost predicate HistoryInv(s: System) {
    ForgetLinked(s) && IdInv(s) && PersistLinked(s) && StartingLinked(s)
  }

  // ---------------------------------------------------------------- steps that write nothing

  /** Nothing is written, no identifier is used twice, and the job whose record is on its way stays. */
  ghost predicate Tame(s: System, r: System) {
    && r.doc == s.doc && r.version == s.version && r.orphans <= Orphaned(s) && s.used <= r.used
    && r.jobs.Keys <= r.used
    && (r.write == s.write || r.write.None?) && (r.write.Some? ==> r.orphans <= s.orphans)
    && (r.write.Some? && r.write.value.change.Persist? ==>
          s.holder.ByTurn? && r.holder.ByTurn? && r.holder.recovered == s.holder.recovered
          && r.holder.starting == s.holder.starting && r.holder.gen == s.holder.gen
          && r.write.value.change.id in r.jobs
          && (r.write.value.change.id in s.jobs ==> r.jobs[r.write.value.change.id] == s.jobs[r.write.value.change.id]))
    && ForgetLinked(r)
    && (s.write.Some? && s.write.value.change.Persist? && r.write.None? ==> s.write.value.change.id !in r.jobs)
    && (forall id <- r.jobs :: !Cancellable(r.jobs[id].phase) ==> r.holder.ByTurn? && r.holder.starting == Some(id))
    && (forall id <- r.jobs :: r.jobs[id].phase.Starting? ==> (id in s.jobs && s.jobs[id].phase.Starting?) || id !in s.used)
  }

  lemma TameKeeps(s: System, r: System)
    requires HistoryInv(s) && Tame(s, r)
    ensures HistoryInv(r)
  {
    hide UniqueIds, Cancellable;
    assert IdInv(r) by { TameIds(s, r); }
  }

  lemma TameIds(s: System, r: System)
    requires IdInv(s) && PersistLinked(s) && StartingLinked(s) && Tame(s, r)
    ensures IdInv(r)
  {
    hide UniqueIds, Cancellable;
    forall w | w in r.orphans ensures Known(w.result, r.used) {
      assert w in s.orphans || s.write == Some(w);
    }
    forall id | id in r.jobs && r.jobs[id].phase.Starting?
      ensures Lacks(r.doc.tasks, id) && (forall w <- r.orphans :: Lacks(w.result.tasks, id))
      ensures r.write.Some? && r.write.value.change != Persist(id) ==> Lacks(r.write.value.result.tasks, id)
    {
      forall w | w in r.orphans ensures Lacks(w.result.tasks, id) {
        assert w in s.orphans || s.write == Some(w);
      }
    }
  }

  lemma CancelTame(s: System)
    requires StartingLinked(s) && s.jobs.Keys <= s.used && PersistLinked(s) && ForgetLinked(s)
    ensures Tame(s, CancelJobs(s))
  {
  }

  lemma TurnTame(s: System, a: Action)
    requires HistoryInv(s) && s.holder.ByTurn? && !a.StartForget?
    ensures Tame(s, TurnStep(s, a))
  {
    hide CancelJobs, Live, UniqueIds, IdsIn, Lacks, Known;
  }

  lemma JobTame(s: System, id: string, a: Action)
    requires HistoryInv(s) && id in s.jobs
    ensures Tame(s, JobStep(s, id, a))
  {
    hide Live, ValidTask, UniqueIds, IdsIn, Lacks, Known;
  }

  lemma HoldingTame(s: System, id: string, a: Action)
    requires HistoryInv(s) && id in s.jobs && s.holder == ByJob(id)
    ensures Tame(s, HoldingJobStep(s, id, a))
  {
    hide Live, ValidTask, UniqueIds, IdsIn, Lacks, Known;
  }

  lemma ForgetTame(s: System)
    requires HistoryInv(s) && s.holder.ByTurn?
    ensures HistoryInv(TurnStep(s, StartForget))
  {
    hide Live, HistoryInv, CancelJobs, Tame, Cancellable;
    var out := s.(generation := s.generation + 1, holder := s.holder.(forgetting := true));
    if s.write.None? && s.holder.starting.None? {
      FlagTame(s, out);
      TameKeeps(s, out);
      HistoryGives(out);
      CancelTame(out);
      TameKeeps(out, CancelJobs(out));
    }
  }

  lemma HistoryGives(s: System)
    requires HistoryInv(s)
    ensures StartingLinked(s) && s.jobs.Keys <= s.used && PersistLinked(s) && ForgetLinked(s)
  {
  }

  lemma FlagTame(s: System, r: System)
    requires HistoryInv(s) && s.holder.ByTurn? && s.write.None? && s.holder.starting.None?
    requires r == s.(generation := r.generation, holder := s.holder.(forgetting := true))
    ensures Tame(s, r)
  {
    hide UniqueIds, IdsIn, Lacks, Known;
  }

  // ---------------------------------------------------------------- updates

  lemma EvaluateHistory(s: System, c: Change)
    requires HistoryInv(s) && MayEvaluate(s, c)
    ensures HistoryInv(StepEvaluate(s, c))
  {
    hide Apply, UniqueIds, IdsIn, Lacks, Effect, Cancellable, HistoryInv, MayEvaluate;
    var live := Live(s, GenOf(s)) && !s.holder.ByRemoval?;
    var result := Apply(c, live, GenOf(s), s.doc);
    MayGives(s, c);
    assert Known(s.doc, s.used) by { hide Known; HistoryKnown(s); }
    ChangeRecords(c, live, GenOf(s), s.doc, s.used);
    if result == s.doc {
      NoOpHistory(s, c);
    } else {
      WriteHistory(s, c, result, live);
    }
  }

  lemma MayGives(s: System, c: Change)
    requires HistoryInv(s) && MayEvaluate(s, c)
    ensures s.write.None?
    ensures c.Persist? ==> s.holder.ByTurn? && s.holder.recovered && s.holder.starting == Some(c.id) && c.id in s.jobs
                           && s.jobs[c.id].phase.Starting? && c.id in s.used && Lacks(s.doc.tasks, c.id)
    ensures c.Recover? ==> s.holder.ByTurn? && c.admitted == s.jobs.Keys && s.holder.starting.None?
    ensures c.Finish? ==> s.holder == ByJob(c.id)
    ensures s.holder.ByTurn? ==> !c.Finish?
    ensures c.Forget? ==> s.holder.ByTurn? && s.holder.forgetting && forall id <- s.jobs :: Cancellable(s.jobs[id].phase)
  {
    hide UniqueIds, IdsIn, Lacks;
  }

  lemma HistoryKnown(s: System)
    requires HistoryInv(s)
    ensures Known(s.doc, s.used)
  {
  }

  lemma NoOpHistory(s: System, c: Change)
    requires HistoryInv(s) && s.write.None?
    requires c.Recover? ==> s.holder.ByTurn?
    requires c.Finish? ==> s.holder == ByJob(c.id)
    requires c.Persist? ==> s.holder.ByTurn? && s.holder.starting == Some(c.id)
    requires c.Forget? ==> s.holder.ByTurn? && forall id <- s.jobs :: Cancellable(s.jobs[id].phase)
    ensures HistoryInv(Effect(s, c, false))
  {
    hide UniqueIds, IdsIn, Lacks, Known;
  }

  lemma WriteHistory(s: System, c: Change, result: Doc, live: bool)
    requires HistoryInv(s) && s.write.None? && result == Apply(c, live, GenOf(s), s.doc) && result != s.doc
    requires Known(result, s.used)
    requires forall id: string :: Lacks(s.doc.tasks, id) && c != Persist(id) ==> Lacks(result.tasks, id)
    requires c.Persist? ==> s.holder.ByTurn? && s.holder.recovered && s.holder.starting == Some(c.id) && c.id in s.jobs
                            && s.jobs[c.id].phase.Starting?
    requires c.Forget? ==> s.holder.ByTurn? && s.holder.forgetting
    ensures HistoryInv(s.(write := Some(Write(s.version, result, c))))
  {
    hide UniqueIds, IdsIn, Lacks, Trim, Known, Cancellable;
  }

  lemma SwapHistory(s: System)
    requires HistoryInv(s) && s.write.Some?
    requires s.write.value.change.Finish? ==> s.holder == ByJob(s.write.value.change.id)
    ensures HistoryInv(StepSwap(s))
  {
    hide UniqueIds, IdsIn, Lacks, Known, Effect;
    var w := s.write.value;
    if w.base == s.version {
      var out := s.(doc := w.result, version := s.version + 1, write := None);
      if w.change.Persist? {
        PersistLands(s, out, w);
      } else {
        assert IdInv(out);
        LandedHistory(s, out, w);
      }
    }
  }

  lemma LandedHistory(s: System, out: System, w: Write)
    requires HistoryInv(s) && s.write == Some(w) && w.base == s.version && !w.change.Persist? && IdInv(out)
    requires w.change.Finish? ==> s.holder == ByJob(w.change.id)
    requires out == s.(doc := w.result, version := s.version + 1, write := None)
    ensures HistoryInv(Effect(out, w.change, true))
  {
    hide UniqueIds, IdsIn, Lacks, Known;
  }

  lemma PersistLands(s: System, out: System, w: Write)
    requires HistoryInv(s) && s.write == Some(w) && w.base == s.version && w.change.Persist?
    requires out == s.(doc := w.result, version := s.version + 1, write := None)
    ensures HistoryInv(Effect(out, w.change, true))
  {
    hide UniqueIds, IdsIn, Lacks, Known;
    assert Effect(out, w.change, true).jobs.Keys == s.jobs.Keys;
  }

  lemma OrphanHistory(s: System, w: Write)
    requires HistoryInv(s) && w in s.orphans && (s.write.Some? ==> s.write.value.base <= s.version) && w.base <= s.version
    ensures HistoryInv(StepOrphan(s, w))
  {
    hide UniqueIds, IdsIn, Lacks, Known, Cancellable;
  }

  // ---------------------------------------------------------------- every step

  lemma OtherHistory(s: System, r: System)
    requires HistoryInv(s) && r == s.(others := r.others, removed := r.removed, generation := r.generation, holder := r.holder,
                                      orphans := r.orphans) && r.orphans <= s.orphans
    requires r.holder == s.holder
             || (s.holder.Free? && ((r.holder.ByTurn? && r.holder == Turn(r.holder.gen)) || r.holder.ByRemoval?))
    requires s.holder.Free? ==> s.write.None?
    ensures HistoryInv(r)
  {
    hide UniqueIds, IdsIn, Trim;
  }

  lemma RemovalHistory(s: System)
    requires HistoryInv(s) && s.holder.ByRemoval?
    ensures HistoryInv(s.(holder := Free, orphans := Orphaned(s), write := None))
  {
    hide UniqueIds, IdsIn, Trim;
  }

  lemma RemoveHistory(s: System)
    requires HistoryInv(s) && (s.holder.Free? ==> s.write.None?)
    ensures HistoryInv(CancelJobs(s.(generation := s.generation + 1, removed := true)))
  {
    hide HistoryInv, CancelJobs, Tame;
    var out := s.(generation := s.generation + 1, removed := true);
    OtherHistory(s, out);
    HistoryGives(out);
    CancelTame(out);
    TameKeeps(out, CancelJobs(out));
  }

  /** Only the holder of the lock has a swap of its own on its way. */
  ghost predicate FreeIsIdle(s: System) {
    && (s.holder.Free? ==> s.write.None?)
    && (s.write.Some? && s.write.value.change.Finish? ==> s.holder == ByJob(s.write.value.change.id))
  }

  lemma EffectIdle(s: System, c: Change, committed: bool)
    requires s.write.None?
    ensures FreeIsIdle(Effect(s, c, committed))
  {
  }

  lemma NextIdle(s: System, a: Action)
    requires FreeIsIdle(s)
    ensures FreeIsIdle(Next(s, a))
  {
    hide Apply, Effect, Live, ValidTask, Cancellable, GenOf;
    if a.Evaluate? {
      if MayEvaluate(s, a.change) { EvaluateIdle(s, a.change); }
    } else if a.Swap? {
      if s.write.Some? {
        EffectIdle(s.(doc := s.write.value.result, version := s.version + 1, write := None), s.write.value.change, true);
      }
    } else {
      hide MayEvaluate;
    }
  }

  lemma EvaluateIdle(s: System, c: Change)
    requires FreeIsIdle(s) && MayEvaluate(s, c)
    ensures FreeIsIdle(StepEvaluate(s, c))
  {
    hide Apply, Effect, Live, GenOf;
    EffectIdle(s, c, false);
  }

  lemma NextHistory(s: System, a: Action)
    requires HistoryInv(s) && Bases(s) && FreeIsIdle(s)
    ensures HistoryInv(Next(s, a))
  {
    hide HistoryInv, CancelJobs, TurnStep, JobStep, HoldingJobStep, StepEvaluate, StepSwap, StepOrphan, MayEvaluate, Orphaned,
         Tame;
    match a {
      case Evaluate(c) => if MayEvaluate(s, c) { EvaluateHistory(s, c); }
      case Swap => if s.write.Some? { SwapHistory(s); }
      case OrphanLands(w) => if w in s.orphans { OrphanHistory(s, w); }
      case Remove => RemoveHistory(s);
      case JobCheck(id) => if id in s.jobs { JobTame(s, id, a); TameKeeps(s, Next(s, a)); }
      case RunnerDone(id, _, _) => if id in s.jobs { JobTame(s, id, a); TameKeeps(s, Next(s, a)); }
      case JobTake(id) => if id in s.jobs { JobTame(s, id, a); TameKeeps(s, Next(s, a)); }
      case JobFails(id) => if id in s.jobs { JobTame(s, id, a); TameKeeps(s, Next(s, a)); }
      case GiveUp(id) => if id in s.jobs { JobTame(s, id, a); TameKeeps(s, Next(s, a)); }
      case EndRemoval => if s.holder.ByRemoval? { RemovalHistory(s); }
      case OtherAdmit | OtherEnd | BeginTurn | BeginWelcome | BeginRemoval | OrphanDies(_) => OtherHistory(s, Next(s, a));
      case StartForget =>
        if s.holder.ByTurn? {
          ForgetTame(s);
        } else if s.holder.ByJob? && s.holder.id in s.jobs {
          HoldingHistory(s, a);
        }
      case EndTurn | CancelTurn | Admit(_) | Launch | Abandon | Announce(_) | EndJob | FailJob =>
        if s.holder.ByTurn? { TurnTame(s, a); TameKeeps(s, Next(s, a)); }
        else if s.holder.ByJob? && s.holder.id in s.jobs { HoldingHistory(s, a); }
    }
  }

  lemma HoldingHistory(s: System, a: Action)
    requires HistoryInv(s) && s.holder.ByJob? && s.holder.id in s.jobs
    ensures HistoryInv(HoldingJobStep(s, s.holder.id, a))
  {
    hide HistoryInv, HoldingJobStep, Tame;
    HoldingTame(s, s.holder.id, a);
    TameKeeps(s, HoldingJobStep(s, s.holder.id, a));
  }

  ghost predicate RunInv(s: System) {
    HistoryInv(s) && Bases(s) && FreeIsIdle(s) && CountInv(s)
  }

  lemma {:induction false} ReachHistory(max: nat, doc: Doc, actions: seq<Action>)
    requires UniqueIds(doc.tasks)
    ensures RunInv(Reach(Initial(max, doc), actions)) && Reach(Initial(max, doc), actions).max == max
  {
    hide HistoryInv, Bases, FreeIsIdle, CountInv, Next, Initial;
    if actions == [] {
      StartHistory(max, doc);
    } else {
      var (s, a) := (Reach(Initial(max, doc), actions[..|actions| - 1]), actions[|actions| - 1]);
      ReachHistory(max, doc, actions[..|actions| - 1]);
      NextHistory(s, a);
      NextBases(s, a);
      NextIdle(s, a);
      NextCount(s, a);
      MaxStays(s, a);
    }
  }

  lemma StartHistory(max: nat, doc: Doc)
    requires UniqueIds(doc.tasks)
    ensures RunInv(Initial(max, doc)) && Initial(max, doc).max == max
  {
    hide Trim;
  }

  /** A turn is about to save the record of the task it admits. */
  ghost predicate Admitting(s: System) {
    s.write.Some? && s.write.value.change.Persist? && s.write.value.base == s.version
  }

  /** Admitting a task, in every run: when its record is saved no running record has been dropped, of the others exactly
      the newest that fit are left, and the history holds at most 20 records if and only if fewer than 20 were running. */
  lemma AdmittedHistoryIsBounded(max: nat, doc: Doc, actions: seq<Action>)
    requires UniqueIds(doc.tasks) && Admitting(Reach(Initial(max, doc), actions))
    ensures var s := Reach(Initial(max, doc), actions);
      var (before, after) := (s.doc.tasks, Next(s, Swap).doc.tasks);
      var t := Task(s.write.value.change.id, Running, GenOf(s), true, "", NotDue);
      && s.holder.ByTurn? && RunningOf(after) == RunningOf(before) + [t]
      && |FinishedOf(after)| == Room(before + [t]) <= |FinishedOf(before)|
      && FinishedOf(after) == FinishedOf(before)[|FinishedOf(before)| - |FinishedOf(after)|..]
      && (|after| <= HISTORY_LIMIT <==> |RunningOf(before)| < HISTORY_LIMIT)
  {
    hide Reach, Initial, Trim, IdInv, StartingLinked, Bases, FreeIsIdle, CountInv, RunningOf, FinishedOf, Room;
    ReachHistory(max, doc, actions);
    var s := Reach(Initial(max, doc), actions);
    var t := Task(s.write.value.change.id, Running, s.holder.gen, true, "", NotDue);
    AfterSwap(s);
    assert Next(s, Swap).doc.tasks == Trim(s.doc.tasks + [t]);
    TrimSpec(s.doc.tasks + [t]);
    RunningSnoc(s.doc.tasks, t);
    FinishedSnoc(s.doc.tasks, t);
    assert FinishedOf(s.doc.tasks + [t]) == FinishedOf(s.doc.tasks);
  }

  lemma AfterSwap(s: System)
    requires s.write.Some? && s.write.value.base == s.version
    ensures Next(s, Swap).doc == s.write.value.result
  {
  }
}
