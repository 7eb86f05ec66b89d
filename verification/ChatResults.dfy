/** No result is announced before it is saved. */
module ChatResults {
  import opened Options
  import opened ReceiptWindow
  import opened ChatTrim
  import opened ChatJobs
  import opened ChatRuns

  predicate FinalStatus(st: Status) {
    st.Completed? || st.Failed?
  }

  /** The record of the task holds this status and result, and nobody has been told yet. */
  ghost predicate Recorded(tasks: seq<Task>, id: string, status: Status, result: string) {
    exists t <- tasks :: t.id == id && t.status == status && t.result == result && t.delivery.Pending?
  }

  ghost predicate PhaseOk(s: System, id: string, phase: Phase) {
    match phase
    case Done(st, _) => FinalStatus(st)
    case Locked(st, _) => FinalStatus(st) && s.holder == ByJob(id)
    case Saved(st, result) =>
      && FinalStatus(st) && s.holder == ByJob(id) && s.write.None?
      && (forall w <- s.orphans :: w.base < s.version)
      && Recorded(s.doc.tasks, id, st, result) && (id, st, result) in s.finals
    case Told(_) => s.holder == ByJob(id)
    case _ => true
  }

  ghost predicate JobsOk(s: System) {
    forall id <- s.jobs :: PhaseOk(s, id, s.jobs[id].phase)
  }

  ghost predicate WriteLinked(s: System) {
    s.write.Some? ==>
      var c := s.write.value.change;
      && (c.Forget? || c.Persist? ==> s.holder.ByTurn?)
      && (c.Finish? ==>
            && s.holder == ByJob(c.id) && c.id in s.jobs && s.jobs[c.id].phase == Locked(c.status, c.result)
            && Recorded(s.write.value.result.tasks, c.id, c.status, c.result))
  }

  ghost predicate SentOk(s: System) {
    forall x <- s.sent :: x in s.finals
  }

  predicate Holding(p: Phase) {
    p.Locked? || p.Saved? || p.Told? || p.Interrupting?
  }

  ghost predicate HolderOk(s: System) {
    s.holder.ByJob? ==> s.holder.id in s.jobs && Holding(s.jobs[s.holder.id].phase)
  }

  ghost predicate ResultInv(s: System) {
    Bases(s) && JobsOk(s) && WriteLinked(s) && SentOk(s) && HolderOk(s)
  }

  // ---------------------------------------------------------------- updates

  lemma FinishRecords(d: Doc, id: string, status: Status, result: string, live: bool, gen: nat)
    requires Apply(Change.Finish(id, status, result), live, gen, d) != d
    ensures Recorded(Apply(Change.Finish(id, status, result), live, gen, d).tasks, id, status, result)
  {
    var r := Apply(Change.Finish(id, status, result), live, gen, d);
    var i :| 0 <= i < |d.tasks| && d.tasks[i].id == id;
    assert r.tasks[i] in r.tasks;
  }

  lemma EvaluateResults(s: System, c: Change)
    requires ResultInv(s) && MayEvaluate(s, c)
    ensures ResultInv(StepEvaluate(s, c))
  {
    hide Recorded, Apply, FinalStatus;
    var live := Live(s, GenOf(s)) && !s.holder.ByRemoval?;
    var result := Apply(c, live, GenOf(s), s.doc);
    if result == s.doc {
      hide MayEvaluate;
      NoSavedHolder(s, c);
      NoOpResults(s, c);
    } else if c.Finish? {
      FinishRecords(s.doc, c.id, c.status, c.result, live, GenOf(s));
    }
  }

  /** A job whose result is saved announces it before any other update. */
  lemma NoSavedHolder(s: System, c: Change)
    requires ResultInv(s) && MayEvaluate(s, c)
    ensures s.write.None? && forall id <- s.jobs :: !s.jobs[id].phase.Saved?
    ensures c.Finish? ==> s.holder == ByJob(c.id) && c.id in s.jobs && s.jobs[c.id].phase == Locked(c.status, c.result)
    ensures c.Persist? ==> s.holder.ByTurn?
    ensures c.Forget? ==> s.holder.ByTurn?
  {
    hide Recorded;
  }

  lemma NoOpResults(s: System, c: Change)
    requires ResultInv(s) && s.write.None? && forall id <- s.jobs :: !s.jobs[id].phase.Saved?
    requires c.Finish? ==> s.holder == ByJob(c.id)
    requires (c.Persist? || c.Forget?) ==> s.holder.ByTurn?
    ensures ResultInv(Effect(s, c, false))
  {
    hide Recorded, FinalStatus;
  }

  lemma SwapResults(s: System)
    requires ResultInv(s) && s.write.Some?
    ensures ResultInv(StepSwap(s))
  {
    hide Recorded, FinalStatus, Effect, ResultInv;
    var w := s.write.value;
    NobodySaved(s);
    if w.base == s.version {
      var out := s.(doc := w.result, version := s.version + 1, write := None);
      LandedResults(s, out);
      if w.change.Finish? {
        FinishEffect(out, w.change);
      } else {
        OtherEffect(out, w.change);
      }
    } else {
      SwapLost(s);
    }
  }

  lemma NobodySaved(s: System)
    requires ResultInv(s) && s.write.Some?
    ensures forall id <- s.jobs :: !s.jobs[id].phase.Saved?
  {
    hide Recorded, FinalStatus;
  }

  lemma SwapLost(s: System)
    requires ResultInv(s) && s.write.Some? && forall id <- s.jobs :: !s.jobs[id].phase.Saved?
    ensures ResultInv(s.(write := None))
  {
    hide Recorded, FinalStatus;
  }

  lemma LandedResults(s: System, out: System)
    requires ResultInv(s) && s.write.Some? && forall id <- s.jobs :: !s.jobs[id].phase.Saved?
    requires out == s.(doc := s.write.value.result, version := s.version + 1, write := None)
    ensures ResultInv(out) && (forall w <- out.orphans :: w.base < out.version)
    ensures Bases(out) && SentOk(out) && JobsOk(out)
    ensures var c := s.write.value.change;
      && (c.Forget? ==> s.holder.ByTurn?)
      && (c.Finish? ==> out.holder == ByJob(c.id) && c.id in out.jobs && out.jobs[c.id].phase == Locked(c.status, c.result)
                        && Recorded(out.doc.tasks, c.id, c.status, c.result))
  {
    hide Recorded, FinalStatus;
  }

  lemma FinishEffect(s: System, c: Change)
    requires c.Finish? && Bases(s) && SentOk(s) && s.write.None? && (forall w <- s.orphans :: w.base < s.version)
    requires JobsOk(s) && s.holder == ByJob(c.id) && c.id in s.jobs && s.jobs[c.id].phase == Locked(c.status, c.result)
    requires Recorded(s.doc.tasks, c.id, c.status, c.result) && forall id <- s.jobs :: !s.jobs[id].phase.Saved?
    ensures ResultInv(Effect(s, c, true))
  {
    hide Recorded, FinalStatus;
    var r := Effect(s, c, true);
    assert r.jobs == s.jobs[c.id := s.jobs[c.id].(phase := Saved(c.status, c.result))];
  }

  lemma OtherEffect(s: System, c: Change)
    requires ResultInv(s) && !c.Finish? && s.write.None? && forall id <- s.jobs :: !s.jobs[id].phase.Saved?
    requires c.Forget? ==> !s.holder.ByJob?
    ensures ResultInv(Effect(s, c, true))
  {
    hide Recorded, FinalStatus;
  }

  // ---------------------------------------------------------------- everything else

  lemma CancelResults(s: System)
    requires ResultInv(s)
    ensures ResultInv(CancelJobs(s))
  {
    hide Recorded, FinalStatus;
    var r := CancelJobs(s);
    forall id | id in r.jobs ensures PhaseOk(r, id, r.jobs[id].phase) {
      assert PhaseOk(s, id, s.jobs[id].phase);
    }
  }

  /** The lock and the swap stay, no job that holds the lock is touched, and what is saved stays valid. */
  lemma SameResults(s: System, r: System)
    requires ResultInv(s)
    requires r.version == s.version && r.doc == s.doc && r.write == s.write && r.orphans <= s.orphans
    requires r.generation >= s.generation && r.finals == s.finals && r.sent == s.sent
    requires s.holder.ByJob? || r.holder.ByJob? ==> r.holder == s.holder
    requires s.write.Some? && (s.write.value.change.Forget? || s.write.value.change.Persist?) ==> r.holder.ByTurn?
    requires forall id <- r.jobs :: (id in s.jobs && r.jobs[id] == s.jobs[id]) || !r.jobs[id].phase.Saved?
    requires forall id <- r.jobs :: !(id in s.jobs && r.jobs[id] == s.jobs[id]) ==>
               (match r.jobs[id].phase
                case Done(st, _) => FinalStatus(st)
                case Locked(_, _) => false
                case Told(_) => false
                case _ => true)
    requires forall id <- s.jobs :: s.holder == ByJob(id) ==> id in r.jobs && r.jobs[id] == s.jobs[id]
    ensures ResultInv(r)
  {
    hide Recorded, FinalStatus;
  }

  lemma TurnResults(s: System, a: Action)
    requires ResultInv(s) && s.holder.ByTurn?
    ensures ResultInv(TurnStep(s, a))
  {
    hide ResultInv, CancelJobs, TurnStep;
    match a {
      case StartForget => StartForgetResults(s);
      case CancelTurn => CancelTurnResults(s);
      case EndTurn | Admit(_) | Launch | Abandon =>
        TurnFrame(s, a);
        SameResults(s, TurnStep(s, a));
      case _ => IdleTurn(s, a);
    }
  }

  lemma IdleTurn(s: System, a: Action)
    requires s.holder.ByTurn? && !a.EndTurn? && !a.CancelTurn? && !a.Admit? && !a.Launch? && !a.Abandon? && !a.StartForget?
    ensures TurnStep(s, a) == s
  {
  }

  lemma StartForgetResults(s: System)
    requires ResultInv(s) && s.holder.ByTurn?
    ensures ResultInv(TurnStep(s, StartForget))
  {
    hide ResultInv, CancelJobs, Live, FinalStatus;
    if s.write.None? {
      var out := s.(generation := s.generation + 1, holder := s.holder.(forgetting := true));
      SameResults(s, out);
      CancelResults(out);
    }
  }

  /** What these steps of a turn leave alone. */
  lemma TurnFrame(s: System, a: Action)
    requires s.holder.ByTurn? && (a.EndTurn? || a.Admit? || a.Launch? || a.Abandon?)
    ensures var r := TurnStep(s, a);
      && r == s.(jobs := r.jobs, holder := r.holder, used := r.used) && !r.holder.ByJob?
      && (s.write.Some? ==> r.holder == s.holder)
      && (forall id <- r.jobs :: (id in s.jobs && r.jobs[id] == s.jobs[id]) || r.jobs[id].phase.Starting? || r.jobs[id].phase.Ready?)
  {
    hide Live;
  }

  lemma CancelTurnResults(s: System)
    requires ResultInv(s) && s.holder.ByTurn?
    ensures ResultInv(TurnStep(s, CancelTurn))
  {
    hide Recorded, FinalStatus;
    var r := TurnStep(s, CancelTurn);
    forall id | id in r.jobs ensures PhaseOk(r, id, r.jobs[id].phase) {
      assert PhaseOk(s, id, s.jobs[id].phase);
    }
  }

  lemma JobResults(s: System, id: string, a: Action)
    requires ResultInv(s) && id in s.jobs
    ensures ResultInv(JobStep(s, id, a))
  {
    hide Live, ValidTask, Recorded;
    var r := JobStep(s, id, a);
    assert PhaseOk(s, id, s.jobs[id].phase);
    if a.JobTake? {
      forall q | r != s && q in r.jobs ensures PhaseOk(r, q, r.jobs[q].phase) {
        assert PhaseOk(s, q, s.jobs[q].phase);
      }
    } else {
      hide ResultInv;
      JobStepFrame(s, id, a);
      SameResults(s, r);
    }
  }

  lemma JobStepFrame(s: System, id: string, a: Action)
    requires id in s.jobs && !a.JobTake? && ResultInv(s)
    ensures var r := JobStep(s, id, a);
      && r == s.(jobs := r.jobs, holder := r.holder)
      && (s.holder.ByJob? || r.holder.ByJob? ==> r.holder == s.holder) && (s.holder.ByTurn? ==> r.holder.ByTurn?)
      && (forall q <- r.jobs :: q in s.jobs && (q != id ==> r.jobs[q] == s.jobs[q]))
      && (forall q <- s.jobs :: q != id ==> q in r.jobs)
      && (s.holder == ByJob(id) ==> r == s)
      && (id in r.jobs ==> r.jobs[id] == s.jobs[id] || r.jobs[id].phase.AtWork? || r.jobs[id].phase.Interrupting?
                           || (r.jobs[id].phase.Done? && FinalStatus(r.jobs[id].phase.status)))
  {
    hide Live, ValidTask, Recorded;
  }

  lemma HoldingResults(s: System, id: string, a: Action)
    requires ResultInv(s) && id in s.jobs && s.holder == ByJob(id)
    ensures ResultInv(HoldingJobStep(s, id, a))
  {
    hide Live, Recorded, FinalStatus;
    var r := HoldingJobStep(s, id, a);
    assert PhaseOk(s, id, s.jobs[id].phase);
    forall q | q in r.jobs ensures PhaseOk(r, q, r.jobs[q].phase) {
      assert PhaseOk(s, q, s.jobs[q].phase);
    }
  }

  lemma OrphanResults(s: System, w: Write)
    requires ResultInv(s) && w in s.orphans
    ensures ResultInv(StepOrphan(s, w))
  {
    hide Recorded, FinalStatus;
    var r := StepOrphan(s, w);
    forall q | q in r.jobs ensures PhaseOk(r, q, r.jobs[q].phase) {
      assert PhaseOk(s, q, s.jobs[q].phase);
    }
  }

  lemma RemovalResults(s: System)
    requires ResultInv(s) && s.holder.ByRemoval?
    ensures ResultInv(s.(holder := Free, orphans := Orphaned(s), write := None))
  {
    hide Recorded, FinalStatus;
    var r := s.(holder := Free, orphans := Orphaned(s), write := None);
    forall q | q in r.jobs ensures PhaseOk(r, q, r.jobs[q].phase) {
      assert PhaseOk(s, q, s.jobs[q].phase);
    }
  }

  lemma NextResults(s: System, a: Action)
    requires ResultInv(s)
    ensures ResultInv(Next(s, a))
  {
    hide ResultInv, CancelJobs, TurnStep, JobStep, HoldingJobStep, StepEvaluate, StepSwap, StepOrphan, MayEvaluate, Orphaned,
         FinalStatus;
    match a {
      case Evaluate(c) => if MayEvaluate(s, c) { EvaluateResults(s, c); }
      case Swap => if s.write.Some? { SwapResults(s); }
      case OrphanLands(w) => if w in s.orphans { OrphanResults(s, w); }
      case Remove =>
        var out := s.(generation := s.generation + 1, removed := true);
        HolderStays(s);
        SameResults(s, out);
        CancelResults(out);
      case JobCheck(id) => if id in s.jobs { JobResults(s, id, a); }
      case RunnerDone(id, _, _) => if id in s.jobs { JobResults(s, id, a); }
      case JobTake(id) => if id in s.jobs { JobResults(s, id, a); }
      case JobFails(id) => if id in s.jobs { JobResults(s, id, a); }
      case GiveUp(id) => if id in s.jobs { JobResults(s, id, a); }
      case EndRemoval => if s.holder.ByRemoval? { RemovalResults(s); }
      case OtherAdmit | OtherEnd | BeginTurn | BeginWelcome | BeginRemoval | OrphanDies(_) =>
        HolderStays(s);
        SameResults(s, Next(s, a));
      case EndTurn | CancelTurn | Admit(_) | Launch | Abandon | StartForget | Announce(_) | EndJob | FailJob =>
        if s.holder.ByTurn? { TurnResults(s, a); }
        if s.holder.ByJob? && s.holder.id in s.jobs { HoldingResults(s, s.holder.id, a); }
    }
  }

  lemma HolderStays(s: System)
    requires ResultInv(s)
    ensures s.write.Some? && (s.write.value.change.Forget? || s.write.value.change.Persist?) ==> s.holder.ByTurn?
  {
    hide Recorded, FinalStatus;
  }

  lemma {:induction false} ReachResults(max: nat, doc: Doc, actions: seq<Action>)
    ensures ResultInv(Reach(Initial(max, doc), actions))
  {
    hide ResultInv, Next, Initial;
    if actions == [] {
      StartResults(max, doc);
    } else {
      ReachResults(max, doc, actions[..|actions| - 1]);
      NextResults(Reach(Initial(max, doc), actions[..|actions| - 1]), actions[|actions| - 1]);
    }
  }

  lemma StartResults(max: nat, doc: Doc)
    ensures ResultInv(Initial(max, doc))
  {
  }

  /** In every run: whatever is announced to the chat is, at that moment, the saved record of the task, with a final
      status, and no swap left behind can still change it. */
  lemma AnnouncedResultsAreSaved(max: nat, doc: Doc, actions: seq<Action>, ok: bool)
    requires |Next(Reach(Initial(max, doc), actions), Announce(ok)).sent| > |Reach(Initial(max, doc), actions).sent|
    ensures var s := Reach(Initial(max, doc), actions);
      var r := Next(s, Announce(ok));
      exists id: string, st: Status, result: string ::
        && r.sent == s.sent + [(id, st, result)] && FinalStatus(st) && Recorded(r.doc.tasks, id, st, result)
        && (forall w <- r.orphans :: w.base < r.version)
  {
    hide Reach, Initial, Recorded, FinalStatus, TurnStep, Live;
    ReachResults(max, doc, actions);
    var s := Reach(Initial(max, doc), actions);
    if s.holder.ByTurn? {
      TurnSendsNothing(s, ok);
    } else if s.holder.ByJob? && s.holder.id in s.jobs {
      var id := s.holder.id;
      assert PhaseOk(s, id, s.jobs[id].phase);
    }
  }

  lemma TurnSendsNothing(s: System, ok: bool)
    requires s.holder.ByTurn?
    ensures TurnStep(s, Announce(ok)) == s
  {
  }
}
