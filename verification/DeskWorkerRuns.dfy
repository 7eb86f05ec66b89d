/** What holds of the worker after every step of every run. */
module DeskWorkerRuns {
  import opened Options
  import opened DeskCase
  import opened DeskInbox
  import opened DeskWorker

  // ---------------------------------------------------------------- one drain per case, bounded slots

  function Holders(drains: map<nat, Drain>): set<nat> {
    set t | t in drains && Holds(drains[t].stage)
  }

  function KeysOf(drains: map<nat, Drain>): set<string> {
    set t | t in drains :: drains[t].key
  }

  ghost predicate Serial(drains: map<nat, Drain>, spawned: nat) {
    && (forall t <- drains :: t < spawned)
    && (forall t, u :: t in drains && u in drains && drains[t].key == drains[u].key ==> t == u)
  }

  ghost predicate Tracked(s: System) {
    s.running == KeysOf(s.drains) && s.again <= s.running
  }

  ghost predicate Bounded(s: System) {
    s.free + |Holders(s.drains)| == s.max
  }

  ghost predicate Shape(s: System) {
    Serial(s.drains, s.spawned) && Tracked(s) && Bounded(s)
  }

  lemma MovedKeys(drains: map<nat, Drain>, spawned: nat, t: nat, stage: Stage)
    requires Serial(drains, spawned) && t in drains
    ensures var moved := drains[t := drains[t].(stage := stage)];
      KeysOf(moved) == KeysOf(drains) && Serial(moved, spawned)
  {
    var moved := drains[t := drains[t].(stage := stage)];
    forall k | k in KeysOf(drains) ensures k in KeysOf(moved) {
      var u :| u in drains && drains[u].key == k;
      assert u in moved && moved[u].key == k;
    }
  }

  lemma MovedHolders(drains: map<nat, Drain>, t: nat, stage: Stage)
    requires t in drains
    ensures |Holders(drains[t := drains[t].(stage := stage)])| + (if Holds(drains[t].stage) then 1 else 0)
            == |Holders(drains)| + (if Holds(stage) then 1 else 0)
  {
    hide Holds;
    var moved := drains[t := drains[t].(stage := stage)];
    var (old', new') := (Holders(drains), Holders(moved));
    assert old' - {t} == new' - {t};
    assert |old'| == |old' - {t}| + if t in old' then 1 else 0;
    assert |new'| == |new' - {t}| + if t in new' then 1 else 0;
    assert t in old' <==> Holds(drains[t].stage);
    assert t in new' <==> Holds(stage);
  }

  lemma GotoShape(s: System, t: nat, stage: Stage, free: nat)
    requires Shape(s) && t in s.drains
    requires free + (if Holds(stage) then 1 else 0) == s.free + (if Holds(s.drains[t].stage) then 1 else 0)
    ensures Shape(Goto(s, t, stage).(free := free))
  {
    hide Holds, Serial, KeysOf, Holders;
    MovedKeys(s.drains, s.spawned, t, stage);
    MovedHolders(s.drains, t, stage);
  }

  lemma SpawnShape(s: System, k: string)
    requires Shape(s) && k !in s.running
    ensures Shape(Schedule(s, k))
  {
    var drains := Schedule(s, k).drains;
    assert Holders(drains) == Holders(s.drains);
    assert KeysOf(drains) == KeysOf(s.drains) + {k} by {
      hide Holds, Bounded;
      assert drains[s.spawned].key == k;
      forall q | q in KeysOf(s.drains) ensures q in KeysOf(drains) {
        var u :| u in s.drains && s.drains[u].key == q;
        assert u in drains && drains[u].key == q;
      }
    }
  }

  lemma ScheduleShape(s: System, k: string)
    requires Shape(s)
    ensures Shape(Schedule(s, k))
  {
    if k !in s.running {
      SpawnShape(s, k);
    }
  }

  lemma RemoveKey(drains: map<nat, Drain>, spawned: nat, t: nat)
    requires Serial(drains, spawned) && t in drains
    ensures Serial(drains - {t}, spawned) && KeysOf(drains - {t}) == KeysOf(drains) - {drains[t].key}
  {
    forall k | k in KeysOf(drains) && k != drains[t].key ensures k in KeysOf(drains - {t}) {
      var u :| u in drains && drains[u].key == k;
      assert u in drains - {t};
    }
  }

  lemma FinallyShape(s: System, t: nat)
    requires Shape(s) && t in s.drains
    ensures Shape(Finally(s, t))
  {
    hide Schedule, KeysOf, Shape, Holders, Holds;
    var k := s.drains[t].key;
    var out := s.(drains := s.drains - {t}, running := s.running - {k}, again := s.again - {k},
                  free := if Holds(s.drains[t].stage) then s.free + 1 else s.free);
    RemovedShape(s, t, out);
    ScheduleShape(out, k);
    assert k !in s.again ==> out == s.(drains := out.drains, running := out.running, free := out.free);
  }

  lemma SameShape(s: System, r: System)
    requires Shape(s)
    requires r == s.(cases := r.cases, submits := r.submits, rows := r.rows, owed := r.owed)
    ensures Shape(r)
  {
  }

  /** Owing an index write touches nothing else. */
  lemma OweFrame(s: System, who: Who, k: string)
    ensures Owe(s, who, k) == s.(owed := Owe(s, who, k).owed)
  {
    hide DocOf;
  }

  lemma CrashShape(s: System)
    ensures Shape(StepCrash(s))
  {
    assert Holders(map[]) == {};
    assert KeysOf(map[]) == {};
  }

  lemma NextShape(s: System, a: Action)
    requires Shape(s)
    ensures Shape(Next(s, a))
  {
    hide Shape, Schedule, Finally, StepCrash, StepDie, StepTake, StepEnd, StepWork, DocOf, Pending, Served, Owe;
    match a {
      case Deliver(c, k, e, known, colleague, now) => DeliverFrame(s, c, k, Arrive(e, known, colleague, now));
        SameShape(s, Next(s, a));
      case Index(_) | DropRow(_) => SameShape(s, Next(s, a));
      case Call(c) =>
        if c in s.submits && Caller(c) !in s.owed {
          SameShape(s, s.(submits := s.submits - {c}));
          ScheduleShape(s.(submits := s.submits - {c}), s.submits[c]);
        }
      case GiveUp(_) => SameShape(s, Next(s, a));
      case Edit(u, k, change, now) => EditFrame(s, u, k, change, now);
        SameShape(s, Next(s, a));
      case Alias(u, k) => OweFrame(s, Editor(u), k);
        SameShape(s, Next(s, a));
      case Resume(k) => ScheduleShape(s, k);
      case Crash => CrashShape(s);
      case Enter(t) =>
        if t in s.drains && s.drains[t].stage.Queued? && s.free > 0 { GotoShape(s, t, Inside, s.free - 1); }
      case Take(t) => if t in s.drains && s.drains[t].stage.Inside? { TakeShape(s, t); }
      case Work(t) => if t in s.drains && s.drains[t].stage.Took? { WorkShape(s, t); }
      case EndWork(t, o, now) => if t in s.drains && s.drains[t].stage.AtWork? { EndShape(s, t, o, now); }
      case Again(t) =>
        if t in s.drains && s.drains[t].stage.Ended? && Task(t) !in s.owed { GotoShape(s, t, Queued, s.free + 1); }
      case Leave(t) => if t in s.drains { FinallyShape(s, t); }
      case Die(t) => if t in s.drains { DieShape(s, t); }
    }
  }

  lemma DeliverFrame(s: System, c: nat, k: string, op: Op)
    ensures var r := StepDeliver(s, c, k, op);
      && r == s.(cases := Committed(s, k, op).cases, submits := r.submits, owed := r.owed)
      && r.submits == if Admits(DocOf(s, k), op) then s.submits[c := k] else s.submits
  {
    hide Owe, Admits, DocOf;
    var out := Committed(s, k, op);
    OweFrame(out.(submits := out.submits[c := k]), Caller(c), k);
  }

  lemma EditFrame(s: System, u: nat, k: string, change: Change, now: real)
    ensures var r := StepEdit(s, u, k, change, now);
      r == s.(cases := Committed(s, k, DeskInbox.Edit(change, now)).cases, owed := r.owed)
  {
    hide Owe, DocOf;
    OweFrame(Committed(s, k, DeskInbox.Edit(change, now)), Editor(u), k);
  }

  /** A take commits, moves the drain on and, if it found something, owes the index write. */
  lemma TakeFrame(s: System, t: nat)
    requires t in s.drains
    ensures var (k, r) := (s.drains[t].key, StepTake(s, t));
      var batch := Pending(DocOf(s, k));
      r == Goto(Committed(s, k, TakeAll), t, if batch == [] then SawEmpty else Took(batch)).(owed := r.owed)
  {
    hide Owe, DocOf, Pending;
    var k := s.drains[t].key;
    OweFrame(Goto(Committed(s, k, TakeAll), t, Took(Pending(DocOf(s, k)))), Task(t), k);
  }

  lemma EndFrame(s: System, t: nat, o: Outcome, now: real)
    requires t in s.drains
    ensures var r := StepEnd(s, t, o, now);
      r == Goto(Committed(s, s.drains[t].key, DeskInbox.Edit(EndTurn(o), now)), t, Ended).(owed := r.owed)
  {
    hide Owe, DocOf;
    OweFrame(Goto(Committed(s, s.drains[t].key, DeskInbox.Edit(EndTurn(o), now)), t, Ended), Task(t), s.drains[t].key);
  }

  lemma TakeShape(s: System, t: nat)
    requires Shape(s) && t in s.drains && s.drains[t].stage.Inside?
    ensures Shape(StepTake(s, t))
  {
    hide Shape, DocOf, Pending, StepTake;
    var r := StepTake(s, t);
    TakeFrame(s, t);
    GotoShape(s, t, r.drains[t].stage, s.free);
    SameShape(Goto(s, t, r.drains[t].stage).(free := s.free), r);
  }

  lemma WorkShape(s: System, t: nat)
    requires Shape(s) && t in s.drains && s.drains[t].stage.Took?
    ensures Shape(StepWork(s, t))
  {
    hide Shape;
    GotoShape(s, t, AtWork, s.free);
    SameShape(Goto(s, t, AtWork).(free := s.free), StepWork(s, t));
  }

  lemma EndShape(s: System, t: nat, o: Outcome, now: real)
    requires Shape(s) && t in s.drains && s.drains[t].stage.AtWork?
    ensures Shape(StepEnd(s, t, o, now))
  {
    hide Shape, DocOf, StepEnd;
    EndFrame(s, t, o, now);
    GotoShape(s, t, Ended, s.free);
    SameShape(Goto(s, t, Ended).(free := s.free), StepEnd(s, t, o, now));
  }

  lemma DieShape(s: System, t: nat)
    requires Shape(s) && t in s.drains
    ensures Shape(StepDie(s, t))
  {
    hide Shape, Finally;
    FinallyShape(s, t);
    SameShape(Finally(s, t), StepDie(s, t));
  }

  // ---------------------------------------------------------------- no lost wake-up

  ghost predicate Attended(s: System, k: string) {
    Pending(DocOf(s, k)) != [] ==> Served(s, k)
  }

  lemma ScheduleServes(s: System, k: string)
    requires Shape(s)
    ensures Served(Schedule(s, k), k)
  {
    hide Serial, Bounded;
    if k in s.running {
      var t :| t in s.drains && s.drains[t].key == k;
      assert t in Schedule(s, k).drains;
    } else {
      assert Schedule(s, k).drains[s.spawned].key == k;
    }
  }

  /** A step that keeps the callers and the drains of a case keeps it served. */
  lemma StaysServed(s: System, r: System, q: string)
    requires Served(s, q)
    requires forall c :: c in s.submits && s.submits[c] == q ==> c in r.submits && r.submits[c] == q
    requires forall t :: t in s.drains && s.drains[t].key == q ==>
                           t in r.drains && r.drains[t].key == q && (r.drains[t].stage.SawEmpty? ==> s.drains[t].stage.SawEmpty?)
    requires q in s.again ==> q in r.again
    ensures Served(r, q)
  {
    if exists c :: c in s.submits && s.submits[c] == q {
      var c :| c in s.submits && s.submits[c] == q;
      assert c in r.submits;
    } else {
      var t :| t in s.drains && s.drains[t].key == q && (s.drains[t].stage.SawEmpty? ==> q in s.again);
      assert t in r.drains;
    }
  }

  lemma ScheduleAttends(s: System, k: string, q: string)
    requires Shape(s) && (q != k ==> Attended(s, q))
    ensures Attended(Schedule(s, k), q)
  {
    hide Pending, Run;
    ScheduleServes(s, k);
    if q != k && Pending(DocOf(s, q)) != [] {
      hide Served;
      StaysServed(s, Schedule(s, k), q);
    }
  }

  lemma FinallyAttends(s: System, t: nat, q: string)
    requires Shape(s) && t in s.drains && (Attended(s, q) || q == s.drains[t].key)
    ensures Attended(Finally(s, t), q) || (q == s.drains[t].key && q !in s.again)
  {
    hide Pending, Run, Holders, KeysOf;
    var k := s.drains[t].key;
    var out := s.(drains := s.drains - {t}, running := s.running - {k}, again := s.again - {k},
                  free := if Holds(s.drains[t].stage) then s.free + 1 else s.free);
    assert out.again == s.again - {k};
    FinallyOthers(s, t, out, q);
    if k in s.again {
      RemovedShape(s, t, out);
      ScheduleAttends(out, k, q);
    } else {
      assert out == Finally(s, t);
    }
  }

  lemma RemovedHolders(drains: map<nat, Drain>, t: nat)
    requires t in drains
    ensures |Holders(drains - {t})| + (if Holds(drains[t].stage) then 1 else 0) == |Holders(drains)|
  {
    hide Holds;
    assert Holders(drains - {t}) == Holders(drains) - {t};
    assert t in Holders(drains) <==> Holds(drains[t].stage);
  }

  lemma RemovedShape(s: System, t: nat, out: System)
    requires Shape(s) && t in s.drains
    requires out == s.(drains := s.drains - {t}, running := s.running - {s.drains[t].key}, again := s.again - {s.drains[t].key},
                       free := if Holds(s.drains[t].stage) then s.free + 1 else s.free)
    ensures Shape(out)
  {
    hide KeysOf, Holders, Holds, Serial;
    RemoveKey(s.drains, s.spawned, t);
    RemovedHolders(s.drains, t);
  }

  lemma FinallyOthers(s: System, t: nat, out: System, q: string)
    requires t in s.drains && (Attended(s, q) || q == s.drains[t].key)
    requires out == s.(drains := s.drains - {t}, running := out.running, again := s.again - {s.drains[t].key}, free := out.free)
    ensures q != s.drains[t].key ==> Attended(out, q)
  {
    hide Pending, Run;
    if q != s.drains[t].key && Pending(DocOf(s, q)) != [] {
      hide Served;
      StaysServed(s, out, q);
    }
  }

  /** A new op on one document; everybody else's documents stay. */
  lemma CommitDoc(s: System, k: string, op: Op, q: string)
    ensures DocOf(Committed(s, k, op), q) == if q == k then Step(DocOf(s, k), op) else DocOf(s, q)
  {
    hide Step, Pending, Admits;
    var ops := CellOf(s, k).ops;
    RunSplit(EMPTY, ops, [op]);
    assert [op][1..] == [];
    assert Run(DocOf(s, k), [op]) == Run(Step(DocOf(s, k), op), []);
  }

  /** The documents are as before, or lost what waited, and the callers and drains of the case are kept. */
  lemma QuietAttends(s: System, r: System, q: string)
    requires Attended(s, q)
    requires Pending(DocOf(r, q)) == [] || Pending(DocOf(s, q)) != []
    requires forall c :: c in s.submits && s.submits[c] == q ==> c in r.submits && r.submits[c] == q
    requires forall t :: t in s.drains && s.drains[t].key == q ==>
                           t in r.drains && r.drains[t].key == q && (r.drains[t].stage.SawEmpty? ==> s.drains[t].stage.SawEmpty?)
    requires q in s.again ==> q in r.again
    ensures Attended(r, q)
  {
    hide Pending, Run;
    if Pending(DocOf(s, q)) != [] {
      hide Served;
      StaysServed(s, r, q);
    }
  }

  lemma DeliverAttends(s: System, c: nat, k: string, op: Op, q: string)
    requires Attended(s, q) && op.Arrive? && c !in s.submits
    ensures Attended(StepDeliver(s, c, k, op), q)
  {
    hide Run, Pending, Step, Ignored, StepDeliver;
    var r := StepDeliver(s, c, k, op);
    DeliverFrame(s, c, k, op);
    CommitDoc(s, k, op, q);
    ArriveStep(DocOf(s, k), op);
    assert DocOf(r, q) == DocOf(Committed(s, k, op), q);
    if q == k && Admits(DocOf(s, q), op) {
      assert r.submits[c] == q;
    } else {
      hide Served;
      QuietAttends(s, r, q);
    }
  }

  lemma EditAttends(s: System, k: string, op: Op, r: System, q: string)
    requires Attended(s, q) && op.Edit?
    requires r.cases == Committed(s, k, op).cases && r.submits == s.submits && r.again == s.again
    requires forall t <- s.drains ::
               t in r.drains && r.drains[t].key == s.drains[t].key && (r.drains[t].stage.SawEmpty? ==> s.drains[t].stage.SawEmpty?)
    ensures Attended(r, q)
  {
    hide Run, Pending, Step, Served;
    CommitDoc(s, k, op, q);
    EditKeeps(DocOf(s, k), op);
    assert DocOf(r, q) == DocOf(Committed(s, k, op), q);
    QuietAttends(s, r, q);
  }

  lemma TakeAttends(s: System, t: nat, q: string)
    requires Attended(s, q) && Serial(s.drains, s.spawned) && t in s.drains && s.drains[t].stage.Inside?
    ensures Attended(StepTake(s, t), q)
  {
    hide Run, Pending, Step, Served, StepTake;
    var k := s.drains[t].key;
    var r := StepTake(s, t);
    TakeFrame(s, t);
    CommitDoc(s, k, TakeAll, q);
    TakeEmpties(DocOf(s, k));
    assert DocOf(r, q) == DocOf(Committed(s, k, TakeAll), q);
    if q != k {
      QuietAttends(s, r, q);
    }
  }

  lemma TakeEmpties(d: Doc)
    ensures Pending(Step(d, TakeAll)) == []
  {
  }

  /** Only index writes and their owners differ. */
  lemma SameAttends(s: System, r: System, q: string)
    requires Attended(s, q) && r == s.(rows := r.rows, owed := r.owed)
    ensures Attended(r, q)
  {
    hide Run, Pending, Served;
    assert DocOf(r, q) == DocOf(s, q);
    QuietAttends(s, r, q);
  }

  /** Somebody gives up, dies or is stopped. */
  predicate Fails(a: Action) {
    a.Die? || a.GiveUp? || a.Crash?
  }

  lemma NextAttends(s: System, a: Action, q: string)
    requires Shape(s) && Attended(s, q) && !Fails(a)
    ensures Attended(Next(s, a), q)
  {
    hide Run, Pending, Attended, Served, Shape, Finally, Schedule, StepCrash, StepDie, StepTake, StepDeliver, StepEdit,
         StepEnd, StepWork, Owe, DocOf;
    match a {
      case Deliver(c, k, e, known, colleague, now) =>
        if c !in s.submits { DeliverAttends(s, c, k, Arrive(e, known, colleague, now), q); }
      case Index(_) | DropRow(_) => SameAttends(s, Next(s, a), q);
      case Alias(u, k) => OweFrame(s, Editor(u), k);
        SameAttends(s, Next(s, a), q);
      case Call(c) => if c in s.submits && Caller(c) !in s.owed { CallAttends(s, c, q); }
      case Edit(u, k, change, now) => EditFrame(s, u, k, change, now);
        if Editor(u) !in s.owed { EditAttends(s, k, DeskInbox.Edit(change, now), Next(s, a), q); }
      case Enter(t) => GotoAttends(s, t, Inside, Next(s, a), q);
      case Take(t) => if t in s.drains && s.drains[t].stage.Inside? { ShapeIsSerial(s); TakeAttends(s, t, q); }
      case Work(t) => if t in s.drains && s.drains[t].stage.Took? { WorkAttends(s, t, q); }
      case EndWork(t, o, now) =>
        if t in s.drains && s.drains[t].stage.AtWork? {
          EndFrame(s, t, o, now);
          EditAttends(s, s.drains[t].key, DeskInbox.Edit(EndTurn(o), now), Next(s, a), q);
        }
      case Again(t) => GotoAttends(s, t, Queued, Next(s, a), q);
      case Leave(t) => if t in s.drains && s.drains[t].stage.SawEmpty? { LeaveAttends(s, t, q); }
      case Resume(k) => ScheduleAttends(s, k, q);
    }
  }

  lemma GotoAttends(s: System, t: nat, stage: Stage, r: System, q: string)
    requires Attended(s, q) && !stage.SawEmpty? && (r == s || (t in s.drains && r == Goto(s, t, stage).(free := r.free)))
    ensures Attended(r, q)
  {
    hide Run, Pending, Served;
    assert DocOf(r, q) == DocOf(s, q);
    QuietAttends(s, r, q);
  }

  lemma CallAttends(s: System, c: nat, q: string)
    requires Shape(s) && Attended(s, q) && c in s.submits
    ensures Attended(Schedule(s.(submits := s.submits - {c}), s.submits[c]), q)
  {
    hide Run, Pending, Attended, Served, Shape, Schedule;
    var out := s.(submits := s.submits - {c});
    SameShape(s, out);
    if q != s.submits[c] {
      assert DocOf(out, q) == DocOf(s, q);
      QuietAttends(s, out, q);
    }
    ScheduleAttends(out, s.submits[c], q);
  }

  lemma ShapeIsSerial(s: System)
    requires Shape(s)
    ensures Serial(s.drains, s.spawned)
  {
  }

  lemma WorkAttends(s: System, t: nat, q: string)
    requires Attended(s, q) && t in s.drains && s.drains[t].stage.Took?
    ensures Attended(StepWork(s, t), q)
  {
    hide Run, Pending, Served, Attended;
    assert DocOf(StepWork(s, t), q) == DocOf(s, q);
    QuietAttends(s, StepWork(s, t), q);
  }

  /** A drain that found nothing may leave: what was committed since has set the again flag or has a caller. */
  lemma LeaveAttends(s: System, t: nat, q: string)
    requires Shape(s) && Attended(s, q) && t in s.drains && s.drains[t].stage.SawEmpty?
    ensures Attended(Finally(s, t), q)
  {
    hide Run, Pending, Finally, Bounded, KeysOf;
    FinallyAttends(s, t, q);
    var k := s.drains[t].key;
    if q == k && k !in s.again && Pending(DocOf(s, q)) != [] {
      var c :| c in s.submits && s.submits[c] == q;
      FinallyKeepsRest(s, t);
      assert Finally(s, t).submits[c] == q;
    } else {
      FinallyKeepsRest(s, t);
    }
  }

  lemma FinallyKeepsRest(s: System, t: nat)
    requires t in s.drains
    ensures Finally(s, t).submits == s.submits && Finally(s, t).cases == s.cases
  {
  }
}
