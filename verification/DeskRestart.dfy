/** Restarts: which cases `resume_pending` finds, and when the index rows it reads tell the truth. */
module DeskRestart {
  import opened Options
  import opened DeskCase
  import opened DeskInbox
  import opened DeskWorker
  import opened DeskWorkerRuns
  import opened DeskWorkerTheorems

  predicate Restartable(status: Option<Status>) {
    status in {Some(Status.New), Some(Status.Working)}
  }

  /** The stored row of the case. */
  function RowOf(s: System, k: string): Option<Status> {
    if k in s.rows then Some(s.rows[k]) else None
  }

  lemma CrashDocs(s: System, k: string)
    ensures var r := StepCrash(s);
      r.cases == s.cases && DocOf(r, k) == DocOf(s, k) && r.rows == s.rows && !Served(r, k) && Shape(r)
  {
    hide Run;
    CrashShape(s);
  }

  lemma RunEmpty()
    ensures Run(EMPTY, []) == EMPTY && Pending(EMPTY) == []
  {
  }

  /** `resume_pending` after a crash: in every run the waiting events of a case are worked again if and only if the stored
      index row says new or working; a case without a row is not even looked at. */
  lemma ResumedIffRowSaysSo(max: nat, actions: seq<Action>, k: string)
    requires Pending(DocOf(Reach(Initial(max), actions), k)) != []
    ensures var was := Reach(Initial(max), actions);
      var resumed := Next(StepCrash(was), Resume(k));
      (Served(resumed, k) <==> Restartable(RowOf(was, k))) && (Forsaken(resumed, k) <==> !Restartable(RowOf(was, k)))
  {
    hide Reach, Run, Initial, StepCrash, Served, Pending, DocOf, Shape;
    var was := Reach(Initial(max), actions);
    CrashDocs(was, k);
    ScheduleServes(StepCrash(was), k);
    ScheduleFrame(StepCrash(was), k);
    SameCases(was, Schedule(StepCrash(was), k), k);
  }

  // ---------------------------------------------------------------- when the row tells the status

  predicate Owed(s: System, k: string) {
    exists who <- s.owed :: s.owed[who].0 == k
  }

  /** An update that changes the case, or a reading of it, or the loss of an index write owed for it. */
  predicate Comes(s: System, a: Action, k: string) {
    match a
    case Deliver(c, q, e, known, colleague, now) =>
      q == k && c !in s.submits && Admits(DocOf(s, k), Arrive(e, known, colleague, now))
    case Edit(u, q, change, now) => q == k && Editor(u) !in s.owed && Update(DocOf(s, k), change, now).Some?
    case Alias(u, q) => q == k && Editor(u) !in s.owed
    case DropRow(u) => Editor(u) in s.owed && s.owed[Editor(u)].0 == k
    case Take(t) => t in s.drains && s.drains[t].key == k && s.drains[t].stage.Inside? && Pending(DocOf(s, k)) != []
    case EndWork(t, _, _) => t in s.drains && s.drains[t].key == k && s.drains[t].stage.AtWork?
    case GiveUp(c) => c in s.submits && Caller(c) in s.owed && s.owed[Caller(c)].0 == k
    case Die(t) => t in s.drains && Task(t) in s.owed && s.owed[Task(t)].0 == k
    case Crash => true
    case _ => false
  }

  /** Nobody comes to the case, and nobody fails, while an index write for it is owed. */
  predicate Prompt(s: System, a: Action, k: string) {
    Comes(s, a, k) ==> !Owed(s, k)
  }

  ghost predicate PromptInv(s: System, k: string) {
    && (forall who <- s.owed :: s.owed[who].0 == k ==> StatusOf(DocOf(s, k)) == Some(s.owed[who].1))
    && (!Owed(s, k) ==> RowOf(s, k) == StatusOf(DocOf(s, k)))
  }

  /** The case and its index writes are as before. */
  lemma SamePrompt(s: System, r: System, k: string)
    requires PromptInv(s, k) && StatusOf(DocOf(r, k)) == StatusOf(DocOf(s, k)) && r.owed == s.owed && r.rows == s.rows
    ensures PromptInv(r, k)
  {
    hide DocOf, StatusOf;
  }

  /** A new index write is owed, for this case only if none was; the other cases are as before. */
  lemma OwePrompt(s: System, out: System, who: Who, q: string, k: string)
    requires PromptInv(s, k) && out.owed == s.owed && out.rows == s.rows
    requires q == k ==> !Owed(s, k)
    requires q != k ==> StatusOf(DocOf(out, k)) == StatusOf(DocOf(s, k)) && (who in s.owed ==> s.owed[who].0 != k)
    requires q == k && StatusOf(DocOf(out, k)).None? ==> StatusOf(DocOf(s, k)).None?
    ensures PromptInv(Owe(out, who, q), k)
  {
    hide StatusOf, Run, CellOf;
    var r := Owe(out, who, q);
    SameCases(out, r, k);
    if StatusOf(DocOf(out, q)).Some? {
      assert r.owed[who].0 == q;
      if q != k && Owed(s, k) {
        var w :| w in s.owed && s.owed[w].0 == k;
        assert w in r.owed && r.owed[w].0 == k;
      }
    }
  }

  lemma IndexPrompt(s: System, who: Who, k: string)
    requires PromptInv(s, k) && who in s.owed
    ensures PromptInv(StepIndex(s, who), k)
  {
    hide StatusOf, Run, CellOf;
    var r := StepIndex(s, who);
    SameCases(s, r, k);
    if s.owed[who].0 != k && Owed(s, k) {
      var w :| w in s.owed && s.owed[w].0 == k;
      assert w in r.owed && r.owed[w].0 == k;
    }
  }

  /** An index write that is not of this case is dropped. */
  lemma ForgetPrompt(s: System, r: System, who: Who, k: string)
    requires PromptInv(s, k) && (who in s.owed && s.owed[who].0 == k ==> !Owed(s, k))
    requires StatusOf(DocOf(r, k)) == StatusOf(DocOf(s, k)) && r.owed == s.owed - {who} && r.rows == s.rows
    ensures PromptInv(r, k)
  {
    hide StatusOf, DocOf;
    if Owed(s, k) {
      var w :| w in s.owed && s.owed[w].0 == k;
      assert w in r.owed && r.owed[w].0 == k;
    }
  }

  /** What an update makes of a document it does not change. */
  lemma NothingHappens(d: Doc, op: Op)
    requires (op.Arrive? && !Admits(d, op)) || (op.TakeAll? && Pending(d) == []) || (op.Edit? && Update(d, op.change, op.now).None?)
    ensures Step(d, op) == d
  {
  }

  lemma FilesStay(d: Doc, op: Op)
    requires d.file.Some?
    ensures Step(d, op).file.Some?
  {
    hide Log, Admit, Changed;
  }

  lemma DeliverPrompt(s: System, c: nat, q: string, op: Op, k: string)
    requires PromptInv(s, k) && op.Arrive? && c !in s.submits && Caller(c) !in s.owed
    requires q == k && Admits(DocOf(s, k), op) ==> !Owed(s, k)
    ensures PromptInv(StepDeliver(s, c, q, op), k)
  {
    hide PromptInv, Owed, Owe, Run, CellOf, Step, Admits;
    CommitDoc(s, q, op, k);
    var out := Committed(s, q, op);
    if Admits(DocOf(s, q), op) {
      var noted := out.(submits := out.submits[c := q]);
      SameCases(out, noted, k);
      if DocOf(s, k).file.Some? { FilesStay(DocOf(s, k), op); }
      OwePrompt(s, noted, Caller(c), q, k);
    } else {
      NothingHappens(DocOf(s, q), op);
      SamePrompt(s, out, k);
    }
  }

  lemma EditPrompt(s: System, u: nat, q: string, change: Change, now: real, k: string)
    requires PromptInv(s, k) && Editor(u) !in s.owed
    requires q == k && Update(DocOf(s, k), change, now).Some? ==> !Owed(s, k)
    ensures PromptInv(StepEdit(s, u, q, change, now), k)
  {
    hide PromptInv, Owed, Owe, Run, CellOf, Step, Update;
    var op := DeskInbox.Edit(change, now);
    CommitDoc(s, q, op, k);
    var out := Committed(s, q, op);
    if Update(DocOf(s, q), change, now).Some? {
      if DocOf(s, k).file.Some? { FilesStay(DocOf(s, k), op); }
      OwePrompt(s, out, Editor(u), q, k);
    } else {
      NothingHappens(DocOf(s, q), op);
      SamePrompt(s, out, k);
    }
  }

  lemma TakePrompt(s: System, t: nat, k: string)
    requires PromptInv(s, k) && t in s.drains && Task(t) !in s.owed
    requires s.drains[t].key == k && Pending(DocOf(s, k)) != [] ==> !Owed(s, k)
    ensures PromptInv(StepTake(s, t), k)
  {
    hide PromptInv, Owed, Owe, Run, CellOf, Step, Pending;
    var q := s.drains[t].key;
    CommitDoc(s, q, TakeAll, k);
    var batch := Pending(DocOf(s, q));
    var out := Goto(Committed(s, q, TakeAll), t, if batch == [] then SawEmpty else Took(batch));
    SameCases(Committed(s, q, TakeAll), out, k);
    if batch == [] {
      NothingHappens(DocOf(s, q), TakeAll);
      SamePrompt(s, out, k);
    } else {
      if DocOf(s, k).file.Some? { FilesStay(DocOf(s, k), TakeAll); }
      OwePrompt(s, out, Task(t), q, k);
    }
  }

  lemma EndPrompt(s: System, t: nat, o: Outcome, now: real, k: string)
    requires PromptInv(s, k) && t in s.drains && Task(t) !in s.owed
    requires s.drains[t].key == k ==> !Owed(s, k)
    ensures PromptInv(StepEnd(s, t, o, now), k)
  {
    hide PromptInv, Owed, Owe, Run, CellOf, Step;
    var (q, op) := (s.drains[t].key, DeskInbox.Edit(EndTurn(o), now));
    CommitDoc(s, q, op, k);
    var out := Goto(Committed(s, q, op), t, Ended);
    SameCases(Committed(s, q, op), out, k);
    if DocOf(s, k).file.Some? { FilesStay(DocOf(s, k), op); }
    OwePrompt(s, out, Task(t), q, k);
  }

  /** Index writes are owed only by callers that still have to schedule and by drains that stand where they owe one. */
  ghost predicate OwnersInv(s: System) {
    && (forall c: nat :: Caller(c) in s.owed ==> c in s.submits)
    && (forall t: nat :: Task(t) in s.owed ==> t in s.drains && t < s.spawned && (s.drains[t].stage.Took? || s.drains[t].stage.Ended?))
  }

  lemma ScheduleOwners(s: System, k: string)
    requires OwnersInv(s)
    ensures OwnersInv(Schedule(s, k))
  {
  }

  lemma OweOwners(s: System, who: Who, k: string)
    requires OwnersInv(s) && (who.Caller? ==> who.id in s.submits)
    requires who.Task? ==> who.id in s.drains && who.id < s.spawned && (s.drains[who.id].stage.Took? || s.drains[who.id].stage.Ended?)
    ensures OwnersInv(Owe(s, who, k))
  {
    hide DocOf, StatusOf;
  }

  lemma GotoOwners(s: System, r: System, t: nat, stage: Stage)
    requires OwnersInv(s) && t in s.drains && Task(t) !in s.owed
    requires r.owed == s.owed && r.submits == s.submits && r.spawned == s.spawned
    requires r.drains == s.drains[t := s.drains[t].(stage := stage)]
    ensures OwnersInv(r)
  {
  }

  lemma FinallyOwners(s: System, t: nat)
    requires OwnersInv(s) && t in s.drains && Task(t) !in s.owed
    ensures OwnersInv(Finally(s, t))
  {
    hide Schedule;
    var k := s.drains[t].key;
    var out := s.(drains := s.drains - {t}, running := s.running - {k}, again := s.again - {k},
                  free := if Holds(s.drains[t].stage) then s.free + 1 else s.free);
    assert OwnersInv(out);
    ScheduleOwners(out, k);
  }

  lemma DieOwners(s: System, t: nat)
    requires OwnersInv(s) && t in s.drains
    ensures OwnersInv(StepDie(s, t))
  {
    hide Finally;
    var out := s.(owed := s.owed - {Task(t)});
    assert OwnersInv(out);
    FinallyOwners(out, t);
    FinallyOwed(s, out, t);
  }

  lemma FinallyOwed(s: System, out: System, t: nat)
    requires t in s.drains && out == s.(owed := out.owed)
    ensures Finally(s, t).(owed := out.owed) == Finally(out, t) && Finally(s, t).owed == s.owed
  {
  }

  lemma NextOwners(s: System, a: Action)
    requires OwnersInv(s) && Shape(s)
    ensures OwnersInv(Next(s, a))
  {
    hide OwnersInv, Shape, Schedule, Finally, StepDie, StepCrash, Owe, DocOf, Pending, Admits, Update,
         StepDeliver, StepEdit;
    match a {
      case Deliver(c, k, e, known, colleague, now) =>
        if c !in s.submits { DeliverOwners(s, c, k, Arrive(e, known, colleague, now)); }
      case Index(who) => if who in s.owed { FewerOwners(s, Next(s, a)); }
      case Call(c) =>
        if c in s.submits && Caller(c) !in s.owed {
          CalledOwners(s, c);
          ScheduleOwners(s.(submits := s.submits - {c}), s.submits[c]);
        }
      case GiveUp(c) => if c in s.submits { GiveUpOwners(s, c); }
      case Edit(u, k, change, now) => if Editor(u) !in s.owed { EditOwners(s, u, k, change, now); }
      case Alias(u, k) => if Editor(u) !in s.owed { OweOwners(s, Editor(u), k); }
      case DropRow(_) => FewerOwners(s, Next(s, a));
      case Enter(t) => if Next(s, a) != s { NotOwed(s, t); GotoOwners(s, Next(s, a), t, Inside); }
      case Take(t) => if t in s.drains && s.drains[t].stage.Inside? { NotOwed(s, t); TakeOwners(s, t); }
      case Work(t) => if Next(s, a) != s { GotoOwners(s, Next(s, a), t, AtWork); }
      case EndWork(t, o, now) => if t in s.drains && s.drains[t].stage.AtWork? { NotOwed(s, t); EndOwners(s, t, o, now); }
      case Again(t) => if Next(s, a) != s { GotoOwners(s, Next(s, a), t, Queued); }
      case Leave(t) => if t in s.drains && s.drains[t].stage.SawEmpty? { NotOwed(s, t); FinallyOwners(s, t); }
      case Die(t) => if t in s.drains { DieOwners(s, t); }
      case Crash => CrashOwners(s);
      case Resume(k) => ScheduleOwners(s, k);
    }
  }

  /** Drains are numbered below the next number, and only those that stand where they owe one owe an index write. */
  lemma NotOwed(s: System, t: nat)
    requires OwnersInv(s) && Shape(s) && t in s.drains
    ensures t < s.spawned && (!s.drains[t].stage.Took? && !s.drains[t].stage.Ended? ==> Task(t) !in s.owed)
  {
    hide Tracked, Bounded;
  }

  lemma FewerOwners(s: System, r: System)
    requires OwnersInv(s) && r.drains == s.drains && r.submits == s.submits && r.spawned == s.spawned
    requires forall who <- r.owed :: who in s.owed
    ensures OwnersInv(r)
  {
  }

  lemma CalledOwners(s: System, c: nat)
    requires OwnersInv(s) && c in s.submits && Caller(c) !in s.owed
    ensures OwnersInv(s.(submits := s.submits - {c}))
  {
  }

  lemma GiveUpOwners(s: System, c: nat)
    requires OwnersInv(s) && c in s.submits
    ensures OwnersInv(s.(submits := s.submits - {c}, owed := s.owed - {Caller(c)}))
  {
  }

  lemma DeliverOwners(s: System, c: nat, k: string, op: Op)
    requires OwnersInv(s)
    ensures OwnersInv(StepDeliver(s, c, k, op))
  {
    hide OwnersInv, Owe, DocOf, Admits;
    var out := Committed(s, k, op);
    FewerOwners(s, out);
    var noted := out.(submits := out.submits[c := k]);
    MoreCallers(out, noted);
    OweOwners(noted, Caller(c), k);
  }

  lemma MoreCallers(s: System, r: System)
    requires OwnersInv(s) && r == s.(submits := r.submits) && s.submits.Keys <= r.submits.Keys
    ensures OwnersInv(r)
  {
    assert forall c :: c in s.submits ==> c in s.submits.Keys;
  }

  lemma EditOwners(s: System, u: nat, k: string, change: Change, now: real)
    requires OwnersInv(s)
    ensures OwnersInv(StepEdit(s, u, k, change, now))
  {
    hide OwnersInv, Owe, DocOf, Update;
    var out := Committed(s, k, DeskInbox.Edit(change, now));
    FewerOwners(s, out);
    OweOwners(out, Editor(u), k);
  }

  lemma TakeOwners(s: System, t: nat)
    requires OwnersInv(s) && t in s.drains && Task(t) !in s.owed && t < s.spawned
    ensures OwnersInv(StepTake(s, t))
  {
    hide OwnersInv, Owe, DocOf, Pending;
    var k := s.drains[t].key;
    var batch := Pending(DocOf(s, k));
    var stage := if batch == [] then SawEmpty else Took(batch);
    var out := Goto(Committed(s, k, TakeAll), t, stage);
    GotoOwners(s, out, t, stage);
    if batch != [] { OweOwners(out, Task(t), k); }
  }

  lemma EndOwners(s: System, t: nat, o: Outcome, now: real)
    requires OwnersInv(s) && t in s.drains && Task(t) !in s.owed && t < s.spawned
    ensures OwnersInv(StepEnd(s, t, o, now))
  {
    hide OwnersInv, Owe, DocOf;
    var out := Goto(Committed(s, s.drains[t].key, DeskInbox.Edit(EndTurn(o), now)), t, Ended);
    GotoOwners(s, out, t, Ended);
    OweOwners(out, Task(t), s.drains[t].key);
  }

  lemma CrashOwners(s: System)
    ensures OwnersInv(StepCrash(s))
  {
  }

  lemma NextPrompt(s: System, a: Action, k: string)
    requires PromptInv(s, k) && OwnersInv(s) && Shape(s) && Prompt(s, a, k)
    ensures PromptInv(Next(s, a), k)
  {
    hide PromptInv, OwnersInv, Shape, Owed, Schedule, Finally, StepDie, StepCrash, StepIndex, Owe, DocOf, Pending,
         Admits, Update, StepDeliver, StepEdit, StepTake, StepEnd, StatusOf;
    var r := Next(s, a);
    match a {
      case Deliver(c, q, e, known, colleague, now) =>
        if c !in s.submits {
          NoCallerOwed(s, c);
          DeliverPrompt(s, c, q, Arrive(e, known, colleague, now), k);
        }
      case Index(who) => if who in s.owed { IndexPrompt(s, who, k); }
      case Edit(u, q, change, now) => if Editor(u) !in s.owed { EditPrompt(s, u, q, change, now, k); }
      case Alias(u, q) => if Editor(u) !in s.owed { OwePrompt(s, s, Editor(u), q, k); }
      case DropRow(u) => SameCases(s, r, k); ForgetPrompt(s, r, Editor(u), k);
      case Take(t) => if t in s.drains && s.drains[t].stage.Inside? { NotOwed(s, t); TakePrompt(s, t, k); }
      case EndWork(t, o, now) => if t in s.drains && s.drains[t].stage.AtWork? { NotOwed(s, t); EndPrompt(s, t, o, now, k); }
      case Call(c) =>
        if c in s.submits {
          ScheduleDocs(s.(submits := s.submits - {c}), s.submits[c], k);
          SameCases(s, s.(submits := s.submits - {c}), k);
          SamePrompt(s, r, k);
        }
      case GiveUp(c) => if c in s.submits { GiveUpPrompt(s, c, k); }
      case Enter(_) | Again(_) => SameCases(s, r, k); SamePrompt(s, r, k);
      case Work(t) => if t in s.drains && s.drains[t].stage.Took? { WorkDocs(s, t, k); SamePrompt(s, r, k); }
      case Leave(t) => if t in s.drains { FinallyDocs(s, t, k); SamePrompt(s, r, k); }
      case Die(t) => if t in s.drains { DiePrompt(s, t, k); }
      case Crash => CrashPrompt(s, k);
      case Resume(q) => ScheduleDocs(s, q, k); SamePrompt(s, r, k);
    }
  }

  lemma NoCallerOwed(s: System, c: nat)
    requires OwnersInv(s) && c !in s.submits
    ensures Caller(c) !in s.owed
  {
  }

  lemma ScheduleDocs(s: System, q: string, k: string)
    ensures var r := Schedule(s, q); DocOf(r, k) == DocOf(s, k) && r.owed == s.owed && r.rows == s.rows
  {
    hide Run;
  }

  lemma FinallyDocs(s: System, t: nat, k: string)
    requires t in s.drains
    ensures var r := Finally(s, t); DocOf(r, k) == DocOf(s, k) && r.owed == s.owed && r.rows == s.rows
  {
    hide Run;
  }

  lemma WorkDocs(s: System, t: nat, k: string)
    requires t in s.drains && s.drains[t].stage.Took?
    ensures var r := StepWork(s, t); DocOf(r, k) == DocOf(s, k) && r.owed == s.owed && r.rows == s.rows
  {
    hide Run;
  }

  lemma GiveUpPrompt(s: System, c: nat, k: string)
    requires PromptInv(s, k) && c in s.submits && (Caller(c) in s.owed && s.owed[Caller(c)].0 == k ==> !Owed(s, k))
    ensures PromptInv(s.(submits := s.submits - {c}, owed := s.owed - {Caller(c)}), k)
  {
    hide PromptInv, Owed, Served, Pending, Run;
    var r := s.(submits := s.submits - {c}, owed := s.owed - {Caller(c)});
    SameCases(s, r, k);
    ForgetPrompt(s, r, Caller(c), k);
  }

  lemma DiePrompt(s: System, t: nat, k: string)
    requires PromptInv(s, k) && t in s.drains && (Task(t) in s.owed && s.owed[Task(t)].0 == k ==> !Owed(s, k))
    ensures PromptInv(StepDie(s, t), k)
  {
    hide PromptInv, Owed, Served, Pending, Run, Finally;
    FinallyDocs(s, t, k);
    SameCases(Finally(s, t), StepDie(s, t), k);
    ForgetPrompt(s, StepDie(s, t), Task(t), k);
  }

  lemma CrashPrompt(s: System, k: string)
    requires PromptInv(s, k) && !Owed(s, k)
    ensures PromptInv(StepCrash(s), k)
  {
    hide StatusOf, Run, Pending;
    CrashDocs(s, k);
  }

  lemma {:induction false} ReachPrompt(max: nat, actions: seq<Action>, k: string)
    requires forall n :: 0 <= n < |actions| ==> Prompt(Reach(Initial(max), actions[..n]), actions[n], k)
    ensures PromptInv(Reach(Initial(max), actions), k) && OwnersInv(Reach(Initial(max), actions))
  {
    hide Next, PromptInv, OwnersInv, Initial, Prompt, Shape, HandedInv;
    if actions == [] {
      StartPrompt(max, k);
    } else {
      var before := actions[..|actions| - 1];
      forall n | 0 <= n < |before| ensures Prompt(Reach(Initial(max), before[..n]), before[n], k) {
        assert before[..n] == actions[..n];
      }
      ReachPrompt(max, before, k);
      ReachKeeps(max, before, k);
      NextOwners(Reach(Initial(max), before), actions[|before|]);
      NextPrompt(Reach(Initial(max), before), actions[|before|], k);
    }
  }

  lemma StartPrompt(max: nat, k: string)
    ensures PromptInv(Initial(max), k) && OwnersInv(Initial(max))
  {
    RunEmpty();
  }

  /** As long as nobody comes to the case, fails or stops the process between an update of the case and its index write,
      the row tells the status whenever no index write is owed; then a restart works the waiting events again exactly
      when the case itself is new or working. */
  lemma ResumedIffNewOrWorking(max: nat, actions: seq<Action>, k: string)
    requires forall n :: 0 <= n < |actions| ==> Prompt(Reach(Initial(max), actions[..n]), actions[n], k)
    requires !Owed(Reach(Initial(max), actions), k) && Pending(DocOf(Reach(Initial(max), actions), k)) != []
    ensures var was := Reach(Initial(max), actions);
      && RowOf(was, k) == StatusOf(DocOf(was, k))
      && (Served(Next(StepCrash(was), Resume(k)), k) <==> Restartable(StatusOf(DocOf(was, k))))
  {
    hide Reach, Initial, Next, Prompt, Pending, StepCrash, Owed, DocOf, Served;
    ReachPrompt(max, actions, k);
    ResumedIffRowSaysSo(max, actions, k);
  }

  // ---------------------------------------------------------------- cases that a restart leaves behind

  lemma ReachMore(max: nat, actions: seq<Action>, a: Action)
    ensures Reach(Initial(max), actions + [a]) == Next(Reach(Initial(max), actions), a)
  {
    hide Next, Initial;
    assert (actions + [a])[..|actions|] == actions;
  }

  /** What a delivery that is admitted leaves behind: something waits, its caller owes the index write, and the rows are
      still the old ones. */
  lemma Delivered(s: System, a: Action)
    requires a.Deliver? && a.caller !in s.submits && Admits(DocOf(s, a.key), Arrive(a.event, a.known, a.colleague, a.now))
    ensures var (r, d) := (Next(s, a), Step(DocOf(s, a.key), Arrive(a.event, a.known, a.colleague, a.now)));
      && DocOf(r, a.key) == d && Pending(d) != [] && d.file.Some? && r.rows == s.rows
      && Caller(a.caller) in r.owed && r.owed[Caller(a.caller)] == (a.key, d.file.value.status)
  {
    hide Run, Step, Ignored, Pending, CellOf;
    var op := Arrive(a.event, a.known, a.colleague, a.now);
    CommitDoc(s, a.key, op, a.key);
    ArriveStep(DocOf(s, a.key), op);
    var out := Committed(s, a.key, op);
    SameCases(out, out.(submits := out.submits[a.caller := a.key]), a.key);
    AdmittedHasFile(DocOf(s, a.key), op);
    SameCases(out, Next(s, a), a.key);
  }

  lemma AdmittedHasFile(d: Doc, op: Op)
    requires Admits(d, op)
    ensures Step(d, op).file.Some? && Pending(Step(d, op)) != []
    ensures StatusOf(Step(d, op)) == (if d.file.None? then Some(Status.New)
                                      else if Final(d.file.value.status) then Some(Status.Working) else StatusOf(d))
  {
    hide Log, Revives;
  }

  /** A process that stops after the first event of a case is stored and before its index row is: the case is new, its
      event waits, and no restart ever finds it. */
  lemma NewCaseIsNotResumed(max: nat, actions: seq<Action>, a: Action)
    requires a.Deliver? && var s := Reach(Initial(max), actions);
      && a.caller !in s.submits && a.key !in s.rows && DocOf(s, a.key).file.None?
      && Admits(DocOf(s, a.key), Arrive(a.event, a.known, a.colleague, a.now))
    ensures var s := StepCrash(Next(Reach(Initial(max), actions), a));
      && StatusOf(DocOf(s, a.key)) == Some(Status.New) && Pending(DocOf(s, a.key)) != []
      && !Served(Next(s, Resume(a.key)), a.key)
  {
    hide Reach, Initial, StepCrash, Served, Pending, DocOf, Admits, Step;
    var s := Reach(Initial(max), actions);
    Delivered(s, a);
    AdmittedHasFile(DocOf(s, a.key), Arrive(a.event, a.known, a.colleague, a.now));
    ReachMore(max, actions, a);
    CrashDocs(Next(s, a), a.key);
    ResumedIffRowSaysSo(max, actions + [a], a.key);
  }

  /** An event admitted to a waiting or resolved case whose row says so stays unworked after a crash, with or without
      its own index write. */
  lemma EventOnWaitingCaseIsNotResumed(max: nat, actions: seq<Action>, a: Action)
    requires a.Deliver? && var s := Reach(Initial(max), actions);
      && a.caller !in s.submits && Admits(DocOf(s, a.key), Arrive(a.event, a.known, a.colleague, a.now))
      && StatusOf(DocOf(s, a.key)) in {Some(Status.Waiting), Some(Status.Resolved)}
      && RowOf(s, a.key) == StatusOf(DocOf(s, a.key))
    ensures var (s, k) := (Next(Reach(Initial(max), actions), a), a.key);
      && Pending(DocOf(s, k)) != [] && Pending(DocOf(Next(s, Index(Caller(a.caller))), k)) != []
      && !Served(Next(StepCrash(s), Resume(k)), k)
      && !Served(Next(StepCrash(Next(s, Index(Caller(a.caller)))), Resume(k)), k)
  {
    hide Reach, Initial, StepCrash, Served, Pending, DocOf, Admits, Step;
    var (s, who) := (Reach(Initial(max), actions), Caller(a.caller));
    Delivered(s, a);
    AdmittedHasFile(DocOf(s, a.key), Arrive(a.event, a.known, a.colleague, a.now));
    ReachMore(max, actions, a);
    ResumedIffRowSaysSo(max, actions + [a], a.key);
    ReachMore(max, actions + [a], Index(who));
    SameCases(Next(s, a), Next(Next(s, a), Index(who)), a.key);
    ResumedIffRowSaysSo(max, actions + [a] + [Index(who)], a.key);
  }

  /** A drain takes the waiting events of a case whose row still says waiting, and before it has written the row another
      event comes and the process stops: the case is working, the event waits, and no restart finds it. */
  lemma TakenCaseIsNotResumed(max: nat, actions: seq<Action>, t: nat, a: Action)
    requires a.Deliver? && var s := Reach(Initial(max), actions);
      && t in s.drains && s.drains[t].key == a.key && s.drains[t].stage.Inside? && a.caller !in s.submits
      && Pending(DocOf(s, a.key)) != [] && StatusOf(DocOf(s, a.key)) == RowOf(s, a.key) == Some(Status.Waiting)
      && a.event.id !in DocOf(s, a.key).seen
    ensures var s := StepCrash(Next(Next(Reach(Initial(max), actions), Take(t)), a));
      && StatusOf(DocOf(s, a.key)) == Some(Status.Working) && Pending(DocOf(s, a.key)) != []
      && !Served(Next(s, Resume(a.key)), a.key)
  {
    hide Reach, Initial, StepCrash, Served, Pending, DocOf, Step, CellOf;
    var (s, k) := (Reach(Initial(max), actions), a.key);
    var taken := Next(s, Take(t));
    TakeFrame(s, t);
    CommitDoc(s, k, TakeAll, k);
    SameCases(Committed(s, k, TakeAll), taken, k);
    TakenIsWorking(DocOf(s, k));
    Delivered(taken, a);
    AdmittedHasFile(DocOf(taken, k), Arrive(a.event, a.known, a.colleague, a.now));
    ReachMore(max, actions, Take(t));
    ReachMore(max, actions + [Take(t)], a);
    CrashDocs(Next(taken, a), k);
    ResumedIffRowSaysSo(max, actions + [Take(t)] + [a], k);
  }

  lemma TakenIsWorking(d: Doc)
    requires Pending(d) != [] && StatusOf(d) == Some(Status.Waiting)
    ensures StatusOf(Step(d, TakeAll)) == Some(Status.Working) && Step(d, TakeAll).seen == d.seen
  {
  }

  // ---------------------------------------------------------------- a run of the second kind

  /** One drain for the case, nothing else going on. */
  ghost predicate Alone(s: System, k: string, stage: Stage, status: Status, row: Status) {
    && s.drains == map[0 := Drain(k, stage)] && s.running == {k} && s.owed == map[] && s.rows == map[k := row]
    && s.free == (if Holds(stage) then 0 else 1)
    && StatusOf(DocOf(s, k)) == Some(status)
  }

  function Doorbell(id: string): Event {
    Event(id, "record", "updated", "", "", "", 0.0)
  }

  function Rings(c: nat, k: string, id: string): Action {
    Deliver(c, k, Doorbell(id), true, "", 0.0)
  }

  /** The event is delivered, its row is written, its caller schedules. */
  lemma DeliverAndCall(s: System, c: nat, k: string, id: string)
    requires s.submits == map[] && s.owed == map[] && id !in DocOf(s, k).seen
    requires DocOf(s, k).file.Some? ==> !Final(DocOf(s, k).file.value.status)
    ensures var (d, r) := (DocOf(s, k), Next(Next(Next(s, Rings(c, k, id)), Index(Caller(c))), Call(c)));
      var status := if d.file.None? then Status.New else d.file.value.status;
      && StatusOf(DocOf(r, k)) == Some(status) && Pending(DocOf(r, k)) != []
      && DocOf(r, k).seen == Step(d, Arrive(Doorbell(id), true, "", 0.0)).seen
      && r.submits == map[] && r.owed == map[] && r.rows == s.rows[k := status]
      && r.free == s.free
      && (if k in s.running then r.drains == s.drains && r.running == s.running && r.spawned == s.spawned
          else r.drains == s.drains[s.spawned := Drain(k, Queued)] && r.running == s.running + {k} && r.spawned == s.spawned + 1)
  {
    hide Run, CellOf, Pending, Step, DocOf, StepDeliver, Schedule;
    var op := Arrive(Doorbell(id), true, "", 0.0);
    assert Admits(DocOf(s, k), op);
    var s1 := Next(s, Rings(c, k, id));
    Delivered(s, Rings(c, k, id));
    DeliverFrame(s, c, k, op);
    DeliverOwes(s, c, k, op);
    AdmittedHasFile(DocOf(s, k), op);
    var s2 := Next(s1, Index(Caller(c)));
    assert s2.owed == map[] && s2.submits == map[c := k];
    SameCases(s1, s2, k);
    var s3 := s2.(submits := s2.submits - {c});
    assert s3.submits == map[];
    SameCases(s2, s3, k);
    ScheduleDocs(s3, k, k);
    Scheduled(s3, k);
  }

  lemma DeliverOwes(s: System, c: nat, k: string, op: Op)
    requires s.owed == map[] && op.Arrive? && Caller(c) in StepDeliver(s, c, k, op).owed
    ensures StepDeliver(s, c, k, op).owed.Keys == {Caller(c)}
  {
    hide DocOf, StatusOf, Admits;
  }

  lemma Scheduled(s: System, k: string)
    ensures var r := Schedule(s, k);
      && r.submits == s.submits && r.owed == s.owed && r.rows == s.rows && r.free == s.free
      && (if k in s.running then r.drains == s.drains && r.running == s.running && r.spawned == s.spawned
          else r.drains == s.drains[s.spawned := Drain(k, Queued)] && r.running == s.running + {k} && r.spawned == s.spawned + 1)
  {
  }

  /** The drain gets its slot. */
  lemma EnterAlone(s: System, k: string, status: Status, row: Status)
    requires Alone(s, k, Queued, status, row)
    ensures var r := Next(s, Enter(0)); Alone(r, k, Inside, status, row) && DocOf(r, k) == DocOf(s, k) && r.submits == s.submits
  {
    hide DocOf, StatusOf;
    SameCases(s, Next(s, Enter(0)), k);
  }

  /** The drain takes, writes the row and works. */
  lemma TakeAlone(s: System, k: string, status: Status, row: Status)
    requires Alone(s, k, Inside, status, row) && Pending(DocOf(s, k)) != [] && status in {Status.New, Status.Waiting}
    ensures var r := Next(Next(Next(s, Take(0)), Index(Task(0))), Work(0));
      && Alone(r, k, AtWork, Status.Working, Status.Working) && r.submits == s.submits
      && DocOf(r, k) == Step(DocOf(s, k), TakeAll)
  {
    hide Run, CellOf, Pending, Step, DocOf, StepTake;
    var (o, d) := (Outcome(false, ""), DocOf(s, k));
    var batch := Pending(d);
    TurnStatus(d, o);
    var s1 := Next(s, Take(0));
    TakeFrame(s, 0);
    CommitDoc(s, k, TakeAll, k);
    SameCases(Committed(s, k, TakeAll), s1, k);
    TakeOwes(s, k, batch);
    var s2 := Next(s1, Index(Task(0)));
    assert s2.owed == map[] && s2.rows == map[k := Status.Working];
    SameCases(s1, s2, k);
    var s3 := Next(s2, Work(0));
    WorkDocs(s2, 0, k);
    assert s3.drains == map[0 := Drain(k, AtWork)];
  }

  /** The turn ends, the drain writes the row and queues again. */
  lemma EndAlone(s: System, k: string, o: Outcome)
    requires Alone(s, k, AtWork, Status.Working, Status.Working)
    requires var e := Step(DocOf(s, k), DeskInbox.Edit(EndTurn(o), 0.0));
      StatusOf(e) == Some(Status.Waiting)
    ensures var r := Next(Next(Next(s, EndWork(0, o, 0.0)), Index(Task(0))), Again(0));
      && Alone(r, k, Queued, Status.Waiting, Status.Waiting) && r.submits == s.submits
      && DocOf(r, k) == Step(DocOf(s, k), DeskInbox.Edit(EndTurn(o), 0.0))
  {
    hide Run, CellOf, Step, DocOf, StepEnd;
    var op := DeskInbox.Edit(EndTurn(o), 0.0);
    var s4 := Next(s, EndWork(0, o, 0.0));
    EndFrame(s, 0, o, 0.0);
    CommitDoc(s, k, op, k);
    SameCases(Committed(s, k, op), s4, k);
    EndOwes(s, k, o);
    assert s4.drains == map[0 := Drain(k, Ended)];
    var s5 := Next(s4, Index(Task(0)));
    assert s5.owed == map[] && s5.rows == map[k := Status.Waiting];
    SameCases(s4, s5, k);
    SameCases(s5, Next(s5, Again(0)), k);
  }

  /** The drain takes, works and ends a turn without failure, and writes the row each time. */
  lemma TurnAlone(s: System, k: string, status: Status, row: Status)
    requires Alone(s, k, Inside, status, row) && Pending(DocOf(s, k)) != [] && status in {Status.New, Status.Waiting}
    requires s.submits == map[]
    ensures var o := Outcome(false, "");
      var r := Next(Next(Next(Next(Next(Next(s, Take(0)), Index(Task(0))), Work(0)), EndWork(0, o, 0.0)), Index(Task(0))), Again(0));
      Alone(r, k, Queued, Status.Waiting, Status.Waiting) && DocOf(r, k).seen == DocOf(s, k).seen && r.submits == map[]
  {
    hide Next, Pending, Step, DocOf;
    var o := Outcome(false, "");
    TurnStatus(DocOf(s, k), o);
    TakeAlone(s, k, status, row);
    EndAlone(Next(Next(Next(s, Take(0)), Index(Task(0))), Work(0)), k, o);
  }

  lemma TakeOwes(s: System, k: string, batch: seq<Event>)
    requires 0 in s.drains && s.drains[0] == Drain(k, Inside) && s.owed == map[] && batch == Pending(DocOf(s, k)) && batch != []
    requires StatusOf(DocOf(StepTake(s, 0), k)).Some?
    ensures StepTake(s, 0).owed == map[Task(0) := (k, StatusOf(DocOf(StepTake(s, 0), k)).value)]
  {
    hide Run, CellOf, Pending, StatusOf;
    var out := Goto(Committed(s, k, TakeAll), 0, Took(batch));
    SameCases(out, StepTake(s, 0), k);
  }

  lemma EndOwes(s: System, k: string, o: Outcome)
    requires 0 in s.drains && s.drains[0].key == k && s.owed == map[]
    requires StatusOf(DocOf(StepEnd(s, 0, o, 0.0), k)).Some?
    ensures StepEnd(s, 0, o, 0.0).owed == map[Task(0) := (k, StatusOf(DocOf(StepEnd(s, 0, o, 0.0), k)).value)]
  {
    hide Run, CellOf, StatusOf;
    var out := Goto(Committed(s, k, DeskInbox.Edit(EndTurn(o), 0.0)), 0, Ended);
    SameCases(out, StepEnd(s, 0, o, 0.0), k);
  }

  lemma TurnStatus(d: Doc, o: Outcome)
    requires Pending(d) != [] && d.file.value.status in {Status.New, Status.Waiting} && !o.error
    ensures var e := Step(d, TakeAll);
      && StatusOf(e) == Some(Status.Working) && e.seen == d.seen
      && StatusOf(Step(e, DeskInbox.Edit(EndTurn(o), 0.0))) == Some(Status.Waiting)
      && Step(e, DeskInbox.Edit(EndTurn(o), 0.0)).seen == d.seen
  {
    hide Log;
  }

  lemma SeenAfter(d: Doc, id: string)
    requires Admits(d, Arrive(Doorbell(id), true, "", 0.0)) && |d.seen| < MAX_SEEN
    ensures Step(d, Arrive(Doorbell(id), true, "", 0.0)).seen == d.seen + [id]
  {
    hide Log, Admit;
    ArriveStep(d, Arrive(Doorbell(id), true, "", 0.0));
  }

  /** The first turn of the case has ended and nothing waits. */
  ghost predicate Rested(s: System, k: string) {
    Alone(s, k, Queued, Status.Waiting, Status.Waiting) && s.submits == map[] && DocOf(s, k).seen == ["1"]
  }

  lemma FirstTurn(k: string)
    ensures exists actions :: Rested(Reach(Initial(1), actions), k)
  {
    hide Reach, Initial, Pending, DocOf, Step, StatusOf, Alone, Next;
    var (o, s0) := (Outcome(false, ""), Initial(1));
    NothingYet(k);
    var r1: seq<Action> := [];
    var r2 := r1 + [Rings(0, k, "1")] + [Index(Caller(0))] + [Call(0)];
    var r3 := r2 + [Enter(0)];
    var r4 := r3 + [Take(0)] + [Index(Task(0))] + [Work(0)];
    var r5 := r4 + [EndWork(0, o, 0.0)] + [Index(Task(0))] + [Again(0)];
    ThreeMore(r1, Rings(0, k, "1"), Index(Caller(0)), Call(0));
    FirstRing(k);
    ReachMore(1, r2, Enter(0));
    EnterAlone(Reach(Initial(1), r2), k, Status.New, Status.New);
    ThreeMore(r3, Take(0), Index(Task(0)), Work(0));
    ThreeMore(r4, EndWork(0, o, 0.0), Index(Task(0)), Again(0));
    TurnAlone(Reach(Initial(1), r3), k, Status.New, Status.New);
    assert Rested(Reach(Initial(1), r5), k);
  }

  /** A second event has come and the drain is about to take it. */
  ghost predicate AboutToTake(s: System, k: string) {
    && Alone(s, k, Inside, Status.Waiting, Status.Waiting) && s.submits == map[] && DocOf(s, k).seen == ["1", "2"]
    && Pending(DocOf(s, k)) != []
  }

  lemma SecondEvent(k: string)
    ensures exists actions :: AboutToTake(Reach(Initial(1), actions), k)
  {
    hide Reach, Initial, Pending, DocOf, StatusOf, Alone, Next, Rested;
    FirstTurn(k);
    var r4 :| Rested(Reach(Initial(1), r4), k);
    var r5 := r4 + [Rings(1, k, "2")] + [Index(Caller(1))] + [Call(1)];
    ThreeMore(r4, Rings(1, k, "2"), Index(Caller(1)), Call(1));
    SecondRing(Reach(Initial(1), r4), k);
    ReachMore(1, r5, Enter(0));
    EnterAlone(Reach(Initial(1), r5), k, Status.Waiting, Status.Waiting);
    assert AboutToTake(Reach(Initial(1), r5 + [Enter(0)]), k);
  }

  /** It does happen: a case whose first turn has ended gets a second event, its drain takes it, a third one comes before
      the drain has written the row, and the process stops. */
  lemma TakenCaseIsLeftBehind(k: string)
    ensures exists actions ::
              var s := StepCrash(Reach(Initial(1), actions));
              && StatusOf(DocOf(s, k)) == Some(Status.Working) && Pending(DocOf(s, k)) != []
              && !Served(Next(s, Resume(k)), k)
  {
    hide Reach, Initial, StepCrash, Served, Pending, DocOf, StatusOf, Next;
    SecondEvent(k);
    var r6 :| AboutToTake(Reach(Initial(1), r6), k);
    TakenCaseIsNotResumed(1, r6, 0, Rings(2, k, "3"));
    ReachMore(1, r6, Take(0));
    ReachMore(1, r6 + [Take(0)], Rings(2, k, "3"));
    assert StatusOf(DocOf(StepCrash(Reach(Initial(1), r6 + [Take(0)] + [Rings(2, k, "3")])), k)) == Some(Status.Working);
  }

  lemma NothingYet(k: string)
    ensures Reach(Initial(1), []) == Initial(1) && DocOf(Initial(1), k) == EMPTY
  {
    RunEmpty();
  }

  lemma ThreeMore(before: seq<Action>, a: Action, b: Action, c: Action)
    ensures Reach(Initial(1), before + [a] + [b] + [c]) == Next(Next(Next(Reach(Initial(1), before), a), b), c)
  {
    hide Reach, Initial, Next;
    ReachMore(1, before, a);
    ReachMore(1, before + [a], b);
    ReachMore(1, before + [a] + [b], c);
  }

  lemma FirstRing(k: string)
    ensures var r := Next(Next(Next(Initial(1), Rings(0, k, "1")), Index(Caller(0))), Call(0));
      && Alone(r, k, Queued, Status.New, Status.New) && r.submits == map[] && Pending(DocOf(r, k)) != []
      && DocOf(r, k).seen == ["1"]
  {
    hide Next, Pending, DocOf, Step, Run;
    NothingYet(k);
    DeliverAndCall(Initial(1), 0, k, "1");
    SeenAfter(EMPTY, "1");
    var none: seq<string> := [];
    assert none + ["1"] == ["1"];
  }

  lemma SecondRing(s: System, k: string)
    requires Rested(s, k)
    ensures var r := Next(Next(Next(s, Rings(1, k, "2")), Index(Caller(1))), Call(1));
      && Alone(r, k, Queued, Status.Waiting, Status.Waiting) && r.submits == map[] && Pending(DocOf(r, k)) != []
      && DocOf(r, k).seen == ["1", "2"]
  {
    hide Next, Pending, DocOf, Step, Run;
    DeliverAndCall(s, 1, k, "2");
    SeenAfter(DocOf(s, k), "2");
    assert map[k := Status.Waiting][k := Status.Waiting] == map[k := Status.Waiting];
  }
}
