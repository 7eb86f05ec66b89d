/** The promises of the serial worker over whole runs. */
module DeskWorkerTheorems {
  import opened Options
  import opened DeskCase
  import opened DeskInbox
  import opened DeskWorker
  import opened DeskWorkerRuns

  // ---------------------------------------------------------------- what `work` has been called with

  ghost predicate HoldsBatch(s: System, t: nat, q: string) {
    t in s.drains && s.drains[t].key == q && s.drains[t].stage.Took?
  }

  /** `got` and the `lost` events are as many as those taken so far, and without losses they are those. */
  predicate Accounts(got: seq<Event>, lost: nat, taken: seq<Event>) {
    |got| + lost == |taken| && (lost == 0 ==> got == taken)
  }

  /** The events worked, then the batch in hand, are everything taken so far but the `lost` events. */
  ghost predicate HandedInv(s: System, q: string, lost: nat) {
    var cell := CellOf(s, q);
    && (forall t :: HoldsBatch(s, t, q) ==>
          s.drains[t].stage.batch != [] && Accounts(cell.worked + s.drains[t].stage.batch, lost, Handed(EMPTY, cell.ops)))
    && ((forall t :: !HoldsBatch(s, t, q)) ==> Accounts(cell.worked, lost, Handed(EMPTY, cell.ops)))
  }

  /** The batch of the case that some drain has taken and not yet begun to work. */
  ghost function InHandOf(s: System, k: string): seq<Event> {
    if exists t :: HoldsBatch(s, t, k) then (var t :| HoldsBatch(s, t, k); s.drains[t].stage.batch) else []
  }

  /** How many events of the case this step loses: a drain or the whole process dies with them in hand. */
  ghost function LostAt(s: System, a: Action, q: string): nat {
    match a
    case Die(t) => if HoldsBatch(s, t, q) then |s.drains[t].stage.batch| else 0
    case Crash => |InHandOf(s, q)|
    case _ => 0
  }

  lemma OnlyOneHolds(s: System, t: nat, u: nat, q: string)
    requires Serial(s.drains, s.spawned) && HoldsBatch(s, t, q) && HoldsBatch(s, u, q)
    ensures t == u
  {
  }

  lemma CommitHands(s: System, k: string, op: Op)
    ensures Handed(EMPTY, CellOf(Committed(s, k, op), k).ops) ==
            Handed(EMPTY, CellOf(s, k).ops) + (if op.TakeAll? then Pending(DocOf(s, k)) else [])
  {
    hide Step, Pending;
    RunSplit(EMPTY, CellOf(s, k).ops, [op]);
    assert [op][1..] == [];
    assert Handed(DocOf(s, k), [op]) == (if op.TakeAll? then Pending(DocOf(s, k)) else []) + Handed(Step(DocOf(s, k), op), []);
  }

  /** Nothing that matters to this case has changed. */
  lemma SameHanded(s: System, r: System, q: string, lost: nat)
    requires HandedInv(s, q, lost) && CellOf(r, q).worked == CellOf(s, q).worked
    requires Handed(EMPTY, CellOf(r, q).ops) == Handed(EMPTY, CellOf(s, q).ops)
    requires forall t :: HoldsBatch(s, t, q) ==> HoldsBatch(r, t, q)
    requires forall t :: HoldsBatch(r, t, q) ==> HoldsBatch(s, t, q) && r.drains[t] == s.drains[t]
    ensures HandedInv(r, q, lost)
  {
    hide Handed, CellOf, Accounts;
  }

  lemma CommitSame(s: System, k: string, op: Op, r: System, q: string, lost: nat)
    requires HandedInv(s, q, lost) && !op.TakeAll? && r.cases == Committed(s, k, op).cases
    requires forall t :: HoldsBatch(s, t, q) ==> HoldsBatch(r, t, q)
    requires forall t :: HoldsBatch(r, t, q) ==> HoldsBatch(s, t, q) && r.drains[t] == s.drains[t]
    ensures HandedInv(r, q, lost)
  {
    hide Handed, Run, Pending, HandedInv, HoldsBatch;
    CommitHands(s, k, op);
    assert CellOf(r, q) == CellOf(Committed(s, k, op), q);
    SameHanded(s, r, q, lost);
  }

  lemma TakeHands(s: System, t: nat, q: string, lost: nat)
    requires HandedInv(s, q, lost) && Serial(s.drains, s.spawned) && t in s.drains && s.drains[t].stage.Inside?
    ensures HandedInv(StepTake(s, t), q, lost)
  {
    hide Handed, Run, Pending, StepTake;
    var k := s.drains[t].key;
    var r := StepTake(s, t);
    TakeFrame(s, t);
    CommitHands(s, k, TakeAll);
    if q == k {
      assert forall u :: !HoldsBatch(s, u, q);
      assert forall u :: HoldsBatch(r, u, q) ==> u == t;
      assert HoldsBatch(r, t, q) <==> Pending(DocOf(s, k)) != [];
      var (worked, batch) := (CellOf(s, q).worked, Pending(DocOf(s, k)));
      assert |worked + batch| == |worked| + |batch|;
      assert batch == [] ==> Handed(EMPTY, CellOf(s, q).ops) + batch == Handed(EMPTY, CellOf(s, q).ops);
    } else {
      hide HandedInv;
      SameHanded(s, r, q, lost);
    }
  }

  lemma WorkHands(s: System, t: nat, q: string, lost: nat)
    requires HandedInv(s, q, lost) && Serial(s.drains, s.spawned) && t in s.drains && s.drains[t].stage.Took?
    ensures HandedInv(StepWork(s, t), q, lost)
  {
    hide Handed;
    var r := StepWork(s, t);
    if q == s.drains[t].key {
      assert HoldsBatch(s, t, q);
      assert forall u :: !HoldsBatch(r, u, q);
    } else {
      hide HandedInv;
      SameHanded(s, r, q, lost);
    }
  }

  lemma FinallyBatches(s: System, t: nat, q: string)
    requires Serial(s.drains, s.spawned) && t in s.drains
    ensures var r := Finally(s, t);
      r.cases == s.cases && forall u :: HoldsBatch(r, u, q) ==> u != t && HoldsBatch(s, u, q) && r.drains[u] == s.drains[u]
    ensures forall u :: HoldsBatch(s, u, q) && u != t ==> HoldsBatch(Finally(s, t), u, q)
  {
  }

  lemma FinallyHands(s: System, t: nat, q: string, lost: nat)
    requires HandedInv(s, q, lost) && Serial(s.drains, s.spawned) && t in s.drains
    ensures HandedInv(Finally(s, t), q, lost + if HoldsBatch(s, t, q) then |s.drains[t].stage.batch| else 0)
  {
    hide Handed, Finally;
    FinallyBatches(s, t, q);
    var r := Finally(s, t);
    if HoldsBatch(s, t, q) {
      forall u | HoldsBatch(r, u, q) ensures false {
        OnlyOneHolds(s, t, u, q);
      }
      assert |CellOf(s, q).worked + s.drains[t].stage.batch| == |CellOf(s, q).worked| + |s.drains[t].stage.batch|;
    } else {
      hide HandedInv;
      SameHanded(s, r, q, lost);
    }
  }

  lemma DieHands(s: System, t: nat, q: string, lost: nat)
    requires HandedInv(s, q, lost) && Serial(s.drains, s.spawned) && t in s.drains
    ensures HandedInv(StepDie(s, t), q, lost + LostAt(s, Die(t), q))
  {
    hide Run, Pending, Handed, HandedInv, Finally;
    FinallyHands(s, t, q, lost);
    RestHands(Finally(s, t), StepDie(s, t), q, lost + LostAt(s, Die(t), q));
  }

  lemma CrashHands(s: System, q: string, lost: nat)
    requires HandedInv(s, q, lost)
    ensures HandedInv(StepCrash(s), q, lost + LostAt(s, Crash, q))
  {
    hide Handed;
    var r := StepCrash(s);
    assert forall t :: !HoldsBatch(r, t, q);
    assert |CellOf(s, q).worked + InHandOf(s, q)| == |CellOf(s, q).worked| + |InHandOf(s, q)|;
  }

  /** Updates of a document that take nothing. */
  lemma UpdateHands(s: System, a: Action, q: string, lost: nat)
    requires HandedInv(s, q, lost) && (a.Deliver? || a.Edit? || a.EndWork?)
    ensures HandedInv(Next(s, a), q, lost)
  {
    hide Run, Pending, Handed, HandedInv, Admits, StepDeliver, StepEdit, StepEnd;
    var r := Next(s, a);
    match a {
      case Deliver(c, k, e, known, colleague, now) =>
        DeliverFrame(s, c, k, Arrive(e, known, colleague, now));
        if c !in s.submits { CommitSame(s, k, Arrive(e, known, colleague, now), r, q, lost); }
      case Edit(u, k, change, now) =>
        EditFrame(s, u, k, change, now);
        if Editor(u) !in s.owed { CommitSame(s, k, DeskInbox.Edit(change, now), r, q, lost); }
      case EndWork(t, o, now) =>
        if t in s.drains && s.drains[t].stage.AtWork? {
          EndFrame(s, t, o, now);
          CommitSame(s, s.drains[t].key, DeskInbox.Edit(EndTurn(o), now), r, q, lost);
        }
    }
  }

  /** Steps of callers, slots and the index. */
  lemma CallerHands(s: System, a: Action, q: string, lost: nat)
    requires Serial(s.drains, s.spawned) && HandedInv(s, q, lost)
    requires a.Index? || a.Alias? || a.DropRow? || a.Call? || a.GiveUp? || a.Enter? || a.Again? || a.Resume?
    ensures HandedInv(Next(s, a), q, lost)
  {
    hide Run, Pending, Handed, HandedInv, Schedule, Owe, Goto, DocOf, HoldsBatch;
    match a {
      case Index(_) | DropRow(_) => RestHands(s, Next(s, a), q, lost);
      case Alias(u, k) =>
        OweFrame(s, Editor(u), k);
        RestHands(s, Next(s, a), q, lost);
      case Call(c) => if c in s.submits { ScheduleHands(s.(submits := s.submits - {c}), s.submits[c], s, q, lost); }
      case GiveUp(_) => RestHands(s, Next(s, a), q, lost);
      case Enter(t) => GotoHands(s, t, Inside, Next(s, a), q, lost);
      case Again(t) => GotoHands(s, t, Queued, Next(s, a), q, lost);
      case Resume(k) => ScheduleHands(s, k, s, q, lost);
    }
  }

  lemma RestHands(s: System, r: System, q: string, lost: nat)
    requires HandedInv(s, q, lost) && r.cases == s.cases && r.drains == s.drains
    ensures HandedInv(r, q, lost)
  {
    hide Handed, HandedInv;
    SameHanded(s, r, q, lost);
  }

  lemma GotoHands(s: System, t: nat, stage: Stage, r: System, q: string, lost: nat)
    requires HandedInv(s, q, lost) && !stage.Took?
    requires r == s || (t in s.drains && !s.drains[t].stage.Took? && r == Goto(s, t, stage).(free := r.free))
    ensures HandedInv(r, q, lost)
  {
    hide Handed, HandedInv;
    SameHanded(s, r, q, lost);
  }

  lemma NextHands(s: System, a: Action, q: string, lost: nat)
    requires Shape(s) && HandedInv(s, q, lost)
    ensures HandedInv(Next(s, a), q, lost + LostAt(s, a, q))
  {
    hide Run, Pending, Handed, HandedInv, Shape, Next, InHandOf;
    ShapeIsSerial(s);
    if a.Deliver? || a.Edit? || a.EndWork? {
      UpdateHands(s, a, q, lost);
    } else if a.Index? || a.Alias? || a.DropRow? || a.Call? || a.GiveUp? || a.Enter? || a.Again? || a.Resume? {
      CallerHands(s, a, q, lost);
    } else {
      DrainHands(s, a, q, lost);
    }
  }

  /** Steps of a drain that take, work or end. */
  lemma DrainHands(s: System, a: Action, q: string, lost: nat)
    requires Serial(s.drains, s.spawned) && HandedInv(s, q, lost)
    requires a.Take? || a.Work? || a.Leave? || a.Die? || a.Crash?
    ensures HandedInv(Next(s, a), q, lost + LostAt(s, a, q))
  {
    hide Run, Pending, Handed, HandedInv, Finally, StepCrash, StepTake, StepWork, StepDie, InHandOf;
    match a {
      case Take(t) => if t in s.drains && s.drains[t].stage.Inside? { TakeHands(s, t, q, lost); }
      case Work(t) => if t in s.drains && s.drains[t].stage.Took? { WorkHands(s, t, q, lost); }
      case Leave(t) => if t in s.drains && s.drains[t].stage.SawEmpty? { FinallyHands(s, t, q, lost); }
      case Die(t) => if t in s.drains { DieHands(s, t, q, lost); }
      case Crash => CrashHands(s, q, lost);
    }
  }

  lemma ScheduleHands(s: System, k: string, was: System, q: string, lost: nat)
    requires HandedInv(was, q, lost) && s.cases == was.cases && s.drains == was.drains && Serial(s.drains, s.spawned)
    ensures HandedInv(Schedule(s, k), q, lost)
  {
    hide Handed, HandedInv, HoldsBatch;
    ScheduleHolds(s, k, q);
    assert CellOf(Schedule(s, k), q) == CellOf(was, q);
    HoldsAlike(was, s, q);
    SameHanded(was, Schedule(s, k), q, lost);
  }

  lemma HoldsAlike(s: System, r: System, q: string)
    requires r.drains == s.drains
    ensures forall t :: HoldsBatch(r, t, q) <==> HoldsBatch(s, t, q)
  {
  }

  lemma ScheduleHolds(s: System, k: string, q: string)
    requires Serial(s.drains, s.spawned)
    ensures var r := Schedule(s, k);
      && (forall t :: HoldsBatch(r, t, q) <==> HoldsBatch(s, t, q))
      && (forall t :: HoldsBatch(r, t, q) ==> t in s.drains && r.drains[t] == s.drains[t])
  {
    var r := Schedule(s, k);
    if k !in s.running {
      assert s.spawned !in s.drains && r.drains[s.spawned].stage.Queued?;
    }
  }

  // ---------------------------------------------------------------- every run

  /** The events of the case that were lost in hand during the run. */
  ghost function Lost(max: nat, actions: seq<Action>, q: string): nat {
    if actions == [] then 0
    else
      var before := actions[..|actions| - 1];
      Lost(max, before, q) + LostAt(Reach(Initial(max), before), actions[|actions| - 1], q)
  }

  lemma {:induction false} ReachKeeps(max: nat, actions: seq<Action>, q: string)
    ensures var s := Reach(Initial(max), actions);
      Shape(s) && HandedInv(s, q, Lost(max, actions, q)) && s.max == max
  {
    hide Shape, HandedInv, Next, LostAt, Initial;
    if actions == [] {
      Start(max, q);
    } else {
      var before := Reach(Initial(max), actions[..|actions| - 1]);
      ReachKeeps(max, actions[..|actions| - 1], q);
      NextShape(before, actions[|actions| - 1]);
      NextHands(before, actions[|actions| - 1], q, Lost(max, actions[..|actions| - 1], q));
      NextMax(before, actions[|actions| - 1]);
    }
  }

  lemma Start(max: nat, q: string)
    ensures Shape(Initial(max)) && Attended(Initial(max), q) && HandedInv(Initial(max), q, 0) && Initial(max).max == max
  {
    assert Holders(map[]) == {};
    assert KeysOf(map[]) == {};
    assert DocOf(Initial(max), q) == EMPTY;
  }

  lemma NextMax(s: System, a: Action)
    ensures Next(s, a).max == s.max
  {
    hide Run, Pending, Admits, DocOf, Finally, Schedule, StepTake, StepEnd, StepDeliver, StepEdit, Owe, StepWork;
    match a {
      case Deliver(c, k, e, known, colleague, now) => DeliverFrame(s, c, k, Arrive(e, known, colleague, now));
      case Edit(u, k, change, now) => EditFrame(s, u, k, change, now);
      case Alias(u, k) => OweFrame(s, Editor(u), k);
      case Call(c) => if c in s.submits { ScheduleFrame(s.(submits := s.submits - {c}), s.submits[c]); }
      case Take(t) => if t in s.drains { TakeFrame(s, t); }
      case Work(t) => if t in s.drains && s.drains[t].stage.Took? { WorkFrame(s, t); }
      case EndWork(t, o, now) => if t in s.drains { EndFrame(s, t, o, now); }
      case Leave(t) => if t in s.drains { FinallyFrame(s, t); }
      case Die(t) => if t in s.drains { FinallyFrame(s, t); }
      case Resume(k) => ScheduleFrame(s, k);
      case Index(_) | DropRow(_) | GiveUp(_) | Enter(_) | Again(_) | Crash =>
    }
  }

  lemma ScheduleFrame(s: System, k: string)
    ensures Schedule(s, k).max == s.max && Schedule(s, k).cases == s.cases
  {
  }

  lemma FinallyFrame(s: System, t: nat)
    requires t in s.drains
    ensures Finally(s, t).max == s.max && Finally(s, t).cases == s.cases
  {
  }

  lemma WorkFrame(s: System, t: nat)
    requires t in s.drains && s.drains[t].stage.Took?
    ensures StepWork(s, t).max == s.max
  {
  }

  /** Two drains never work the same case, and never more than the configured number are past the semaphore. */
  lemma WorkIsSerialAndBounded(max: nat, actions: seq<Action>)
    ensures var s := Reach(Initial(max), actions);
      && (forall t, u :: t in s.drains && u in s.drains && s.drains[t].key == s.drains[u].key ==> t == u)
      && |Holders(s.drains)| <= max
      && (forall k :: k in s.running <==> exists t :: t in s.drains && s.drains[t].key == k)
  {
    hide Reach, Next, Initial;
    ReachKeeps(max, actions, "");
    var s := Reach(Initial(max), actions);
    assert s.running == KeysOf(s.drains);
  }

  // ---------------------------------------------------------------- waiting events that nobody will take

  /** Events wait in the case and nobody will take them. */
  ghost predicate Forsaken(s: System, k: string) {
    Pending(DocOf(s, k)) != [] && !Served(s, k)
  }

  /** Another event is admitted, or a restart finds the case. */
  predicate Helps(s: System, a: Action, k: string) {
    match a
    case Deliver(c, q, e, known, colleague, now) =>
      q == k && c !in s.submits && Admits(DocOf(s, k), Arrive(e, known, colleague, now))
    case Resume(q) => q == k && Pending(DocOf(s, k)) != [] && k in s.rows && s.rows[k] in {Status.New, Status.Working}
    case _ => false
  }

  /** No caller or drain of the case is new, and none that was on its way out comes back. */
  lemma StaysForsaken(s: System, r: System, q: string)
    requires Forsaken(s, q) && Pending(DocOf(r, q)) != []
    requires forall c :: c in r.submits && r.submits[c] == q ==> c in s.submits && s.submits[c] == q
    requires forall t :: t in r.drains && r.drains[t].key == q ==>
                           t in s.drains && s.drains[t].key == q && (s.drains[t].stage.SawEmpty? ==> r.drains[t].stage.SawEmpty?)
    requires q in r.again ==> q in s.again
    ensures Forsaken(r, q)
  {
    hide Run, Pending, DocOf;
    forall t | t in r.drains && r.drains[t].key == q ensures r.drains[t].stage.SawEmpty? && q !in r.again {
      assert t in s.drains && s.drains[t].key == q;
    }
  }

  /** A drain of a forsaken case has found nothing and was not asked to come back. */
  lemma ForsakenDrain(s: System, t: nat, q: string)
    requires Forsaken(s, q) && t in s.drains && s.drains[t].key == q
    ensures s.drains[t].stage.SawEmpty? && q !in s.again
  {
    hide Run, Pending, DocOf;
  }

  lemma ForsakenCaller(s: System, c: nat, q: string)
    requires Forsaken(s, q) && c in s.submits
    ensures s.submits[c] != q
  {
    hide Run, Pending, DocOf;
  }

  lemma DeliverForsaken(s: System, c: nat, k: string, op: Op, q: string)
    requires Forsaken(s, q) && op.Arrive? && c !in s.submits && !(q == k && Admits(DocOf(s, q), op))
    ensures Forsaken(StepDeliver(s, c, k, op), q)
  {
    hide Run, Pending, DocOf, Forsaken, StepDeliver, Admits, Step, CellOf;
    var r := StepDeliver(s, c, k, op);
    DeliverFrame(s, c, k, op);
    CommitDoc(s, k, op, q);
    ArriveStep(DocOf(s, k), op);
    SameCases(Committed(s, k, op), r, q);
    StillWaits(s);
    StaysForsaken(s, r, q);
  }

  lemma EditForsaken(s: System, u: nat, k: string, change: Change, now: real, q: string)
    requires Forsaken(s, q)
    ensures Forsaken(StepEdit(s, u, k, change, now), q)
  {
    hide Run, Pending, DocOf, Forsaken, StepEdit, Step, CellOf;
    var (op, r) := (DeskInbox.Edit(change, now), StepEdit(s, u, k, change, now));
    EditFrame(s, u, k, change, now);
    CommitDoc(s, k, op, q);
    EditKeeps(DocOf(s, k), op);
    SameCases(Committed(s, k, op), r, q);
    StillWaits(s);
    StaysForsaken(s, r, q);
  }

  lemma KeepsForsaken(s: System, a: Action, q: string)
    requires Forsaken(s, q) && !Helps(s, a, q)
    ensures Forsaken(Next(s, a), q)
  {
    hide Run, Pending, DocOf, Forsaken, Finally, Schedule, StepTake, StepEnd, StepDeliver, StepEdit, StepWork, Owe, Admits,
         StepDie;
    var r := Next(s, a);
    match a {
      case Deliver(c, k, e, known, colleague, now) =>
        if c !in s.submits { DeliverForsaken(s, c, k, Arrive(e, known, colleague, now), q); }
      case Edit(u, k, change, now) => if Editor(u) !in s.owed { EditForsaken(s, u, k, change, now, q); }
      case Index(_) | DropRow(_) | GiveUp(_) => RestForsaken(s, r, q);
      case Alias(u, k) =>
        OweFrame(s, Editor(u), k);
        RestForsaken(s, r, q);
      case Call(c) =>
        if c in s.submits {
          ForsakenCaller(s, c, q);
          RestForsaken(s, s.(submits := s.submits - {c}), q);
          OthersScheduled(s.(submits := s.submits - {c}), s.submits[c], q);
        }
      case Enter(t) => GotoForsaken(s, t, Inside, r, q);
      case Again(t) => GotoForsaken(s, t, Queued, r, q);
      case Take(t) => if t in s.drains && s.drains[t].stage.Inside? { TakeForsaken(s, t, q); }
      case Work(t) => if t in s.drains && s.drains[t].stage.Took? { WorkForsaken(s, t, q); }
      case EndWork(t, o, now) => if t in s.drains && s.drains[t].stage.AtWork? { EndForsaken(s, t, o, now, q); }
      case Leave(t) => if t in s.drains { FinallyForsaken(s, t, q); }
      case Die(t) => if t in s.drains { DieForsaken(s, t, q); }
      case Crash => RestForsaken(s, r, q);
      case Resume(k) => if k != q { OthersScheduled(s, k, q); } else { StillWaits(s); }
    }
  }

  lemma StillWaits(s: System)
    ensures forall q :: Forsaken(s, q) ==> Pending(DocOf(s, q)) != []
  {
    hide Run, Pending, DocOf, Served;
  }

  lemma SameCases(s: System, r: System, q: string)
    requires r.cases == s.cases
    ensures DocOf(r, q) == DocOf(s, q)
  {
    hide Run;
  }

  lemma RestForsaken(s: System, r: System, q: string)
    requires Forsaken(s, q) && r.cases == s.cases && r.again <= s.again
    requires forall c :: c in r.submits ==> c in s.submits && r.submits[c] == s.submits[c]
    requires forall t :: t in r.drains ==> t in s.drains && r.drains[t] == s.drains[t]
    ensures Forsaken(r, q)
  {
    hide Run, Pending, DocOf, Forsaken;
    SameCases(s, r, q);
    StillWaits(s);
    StaysForsaken(s, r, q);
  }

  lemma OthersScheduled(s: System, k: string, q: string)
    requires Forsaken(s, q) && k != q
    ensures Forsaken(Schedule(s, k), q)
  {
    hide Run, Pending, DocOf, Forsaken;
    var r := Schedule(s, k);
    SameCases(s, r, q);
    StillWaits(s);
    StaysForsaken(s, r, q);
  }

  lemma GotoForsaken(s: System, t: nat, stage: Stage, r: System, q: string)
    requires Forsaken(s, q) && (r == s || (t in s.drains && !s.drains[t].stage.SawEmpty? && r == Goto(s, t, stage).(free := r.free)))
    ensures Forsaken(r, q)
  {
    hide Run, Pending, DocOf, Forsaken;
    if r != s {
      if s.drains[t].key == q { ForsakenDrain(s, t, q); }
      SameCases(s, r, q);
      StillWaits(s);
      StaysForsaken(s, r, q);
    }
  }

  lemma TakeForsaken(s: System, t: nat, q: string)
    requires Forsaken(s, q) && t in s.drains && s.drains[t].stage.Inside?
    ensures Forsaken(StepTake(s, t), q)
  {
    hide Run, Pending, DocOf, Forsaken, StepTake, CellOf;
    var (k, r) := (s.drains[t].key, StepTake(s, t));
    if k == q { ForsakenDrain(s, t, q); }
    TakeFrame(s, t);
    CommitDoc(s, k, TakeAll, q);
    SameCases(Committed(s, k, TakeAll), r, q);
    StillWaits(s);
    StaysForsaken(s, r, q);
  }

  lemma WorkForsaken(s: System, t: nat, q: string)
    requires Forsaken(s, q) && t in s.drains && s.drains[t].stage.Took?
    ensures Forsaken(StepWork(s, t), q)
  {
    hide Run, Pending, Forsaken;
    var r := StepWork(s, t);
    if s.drains[t].key == q { ForsakenDrain(s, t, q); }
    assert DocOf(r, q) == DocOf(s, q);
    StillWaits(s);
    StaysForsaken(s, r, q);
  }

  lemma EndForsaken(s: System, t: nat, o: Outcome, now: real, q: string)
    requires Forsaken(s, q) && t in s.drains && s.drains[t].stage.AtWork?
    ensures Forsaken(StepEnd(s, t, o, now), q)
  {
    hide Run, Pending, DocOf, Forsaken, StepEnd, CellOf;
    var (k, r, op) := (s.drains[t].key, StepEnd(s, t, o, now), DeskInbox.Edit(EndTurn(o), now));
    if k == q { ForsakenDrain(s, t, q); }
    EndFrame(s, t, o, now);
    CommitDoc(s, k, op, q);
    SameCases(Committed(s, k, op), r, q);
    StillWaits(s);
    StaysForsaken(s, r, q);
  }

  lemma FinallyForsaken(s: System, t: nat, q: string)
    requires Forsaken(s, q) && t in s.drains
    ensures Forsaken(Finally(s, t), q)
  {
    hide Run, Pending, DocOf, Forsaken, Schedule;
    var k := s.drains[t].key;
    var out := s.(drains := s.drains - {t}, running := s.running - {k}, again := s.again - {k},
                  free := if Holds(s.drains[t].stage) then s.free + 1 else s.free);
    if k == q { ForsakenDrain(s, t, q); }
    RestForsaken(s, out, q);
    if k in s.again {
      OthersScheduled(out, k, q);
    } else {
      assert out == Finally(s, t);
    }
  }

  lemma DieForsaken(s: System, t: nat, q: string)
    requires Forsaken(s, q) && t in s.drains
    ensures Forsaken(StepDie(s, t), q)
  {
    hide Forsaken, Finally;
    FinallyForsaken(s, t, q);
    RestForsaken(Finally(s, t), StepDie(s, t), q);
  }

  lemma HelpedIsServed(s: System, a: Action, q: string)
    requires Shape(s) && Helps(s, a, q)
    ensures !Forsaken(Next(s, a), q)
  {
    hide Run, Pending, DocOf, Admits, StepDeliver, Schedule, Shape;
    match a {
      case Deliver(c, k, e, known, colleague, now) =>
        DeliverFrame(s, c, k, Arrive(e, known, colleague, now));
        assert c in Next(s, a).submits && Next(s, a).submits[c] == q;
      case Resume(_) => ScheduleServes(s, q);
    }
  }

  /** The last caller of the case gives up with no drain of the case that would take again; or the drain of the case dies
      without having been asked to come back and without a caller; or the process stops. */
  ghost predicate Leaves(s: System, a: Action, k: string) {
    Pending(DocOf(s, k)) != [] &&
    match a
    case GiveUp(c) =>
      && c in s.submits && s.submits[c] == k && (forall d :: d in s.submits && s.submits[d] == k ==> d == c)
      && (forall t :: t in s.drains && s.drains[t].key == k ==> s.drains[t].stage.SawEmpty? && k !in s.again)
    case Die(t) => t in s.drains && s.drains[t].key == k && k !in s.again && forall c :: c in s.submits ==> s.submits[c] != k
    case Crash => true
    case _ => false
  }

  lemma GiveUpForsakes(s: System, c: nat, k: string)
    requires c in s.submits
    ensures var r := s.(submits := s.submits - {c}, owed := s.owed - {Caller(c)});
      Forsaken(r, k) <==> Leaves(s, GiveUp(c), k) || Forsaken(s, k)
  {
    hide Run, Pending, DocOf;
    var r := s.(submits := s.submits - {c}, owed := s.owed - {Caller(c)});
    SameCases(s, r, k);
    if Forsaken(s, k) {
      RestForsaken(s, r, k);
    } else if Leaves(s, GiveUp(c), k) {
      assert forall d :: d in r.submits ==> r.submits[d] != k;
    } else if Pending(DocOf(s, k)) != [] {
      if d :| d in s.submits && s.submits[d] == k && d != c {
        assert d in r.submits && r.submits[d] == k;
      }
    }
  }

  lemma DieForsakes(s: System, t: nat, k: string)
    requires Shape(s) && t in s.drains
    ensures Forsaken(StepDie(s, t), k) <==> Leaves(s, Die(t), k) || Forsaken(s, k)
  {
    hide Run, Pending, DocOf, Finally, Bounded, KeysOf, Tracked, Schedule, Served;
    var r := StepDie(s, t);
    FinallyFrame(s, t);
    SameCases(s, r, k);
    if Forsaken(s, k) {
      DieForsaken(s, t, k);
    } else if Leaves(s, Die(t), k) {
      LastDrainGone(s, t);
    } else if Pending(DocOf(s, k)) != [] {
      FinallyAttends(s, t, k);
      SameAttends(Finally(s, t), r, k) by { DieServes(s, t, k); }
    }
  }

  /** Nobody else works the case. */
  lemma LastDrainGone(s: System, t: nat)
    requires Shape(s) && t in s.drains && s.drains[t].key !in s.again
    requires forall c :: c in s.submits ==> s.submits[c] != s.drains[t].key
    ensures !Served(StepDie(s, t), s.drains[t].key)
  {
    hide Tracked, Bounded;
  }

  /** Whoever still serves the case goes on after the death of a drain. */
  lemma DieServes(s: System, t: nat, k: string)
    requires Shape(s) && t in s.drains && Served(s, k) && !Leaves(s, Die(t), k) && Pending(DocOf(s, k)) != []
    ensures Attended(Finally(s, t), k)
  {
    hide Run, Pending, DocOf, Finally, Bounded, KeysOf, Tracked;
    FinallyAttends(s, t, k);
    FinallyKeepsRest(s, t);
    if k == s.drains[t].key && k !in s.again {
      var c :| c in s.submits && s.submits[c] == k;
      assert c in Finally(s, t).submits;
    }
  }

  lemma CrashForsakes(s: System, k: string)
    ensures Forsaken(StepCrash(s), k) <==> Leaves(s, Crash, k)
  {
    hide Run, Pending;
    assert DocOf(StepCrash(s), k) == DocOf(s, k);
  }

  /** What every step makes of a forsaken case, from what stood before it. */
  lemma NextForsaken(s: System, a: Action, k: string)
    requires Shape(s)
    ensures Forsaken(Next(s, a), k) <==> Leaves(s, a, k) || (Forsaken(s, k) && !Helps(s, a, k))
  {
    hide Shape, Helps, Run, Pending, DocOf, Forsaken, Leaves, StepDie, StepCrash, Served;
    OnlyFailuresLeave(s, a, k);
    if Helps(s, a, k) {
      HelpedIsServed(s, a, k);
      HelpIsNoFailure(s, a, k);
    } else if a.GiveUp? {
      if a.caller in s.submits { GiveUpForsakes(s, a.caller, k); }
    } else if a.Die? {
      if a.task in s.drains { DieForsakes(s, a.task, k); }
    } else if a.Crash? {
      CrashForsakes(s, k);
      if Forsaken(s, k) { KeepsForsaken(s, a, k); }
    } else {
      hide Next;
      if Forsaken(s, k) {
        KeepsForsaken(s, a, k);
      } else {
        AttendedIsNotForsaken(s, k);
        NextAttends(s, a, k);
        AttendedIsNotForsaken(Next(s, a), k);
      }
    }
  }

  lemma AttendedIsNotForsaken(s: System, k: string)
    ensures Attended(s, k) <==> !Forsaken(s, k)
  {
    hide Run, Pending, DocOf, Served;
  }

  lemma OnlyFailuresLeave(s: System, a: Action, k: string)
    ensures Leaves(s, a, k) ==> Fails(a)
    ensures a.GiveUp? && a.caller !in s.submits ==> !Leaves(s, a, k)
    ensures a.Die? && a.task !in s.drains ==> !Leaves(s, a, k)
  {
    hide Run, Pending, DocOf;
  }

  lemma HelpIsNoFailure(s: System, a: Action, k: string)
    ensures Helps(s, a, k) ==> !Fails(a)
  {
    hide Admits, DocOf, Pending;
  }

  /** Step `n` of the run leaves the case forsaken, and nothing later in the run comes to its help. */
  ghost predicate LeftFrom(max: nat, actions: seq<Action>, n: nat, k: string)
    requires n < |actions|
  {
    && Leaves(Reach(Initial(max), actions[..n]), actions[n], k)
    && forall m :: n < m < |actions| ==> !Helps(Reach(Initial(max), actions[..m]), actions[m], k)
  }

  lemma LeftLonger(max: nat, before: seq<Action>, a: Action, n: nat, k: string)
    requires n < |before|
    ensures LeftFrom(max, before + [a], n, k) <==> LeftFrom(max, before, n, k) && !Helps(Reach(Initial(max), before), a, k)
  {
    hide Reach, Initial, Helps, Leaves;
    var all := before + [a];
    assert forall m :: 0 <= m <= |before| ==> all[..m] == before[..m];
    assert all[|before|] == a && before[..|before|] == before;
  }

  lemma LeftLast(max: nat, before: seq<Action>, a: Action, k: string)
    ensures LeftFrom(max, before + [a], |before|, k) <==> Leaves(Reach(Initial(max), before), a, k)
  {
    hide Reach, Initial, Helps, Leaves;
    assert (before + [a])[..|before|] == before;
  }

  /** In every run: events wait in a case with nobody to take them if and only if a caller that gave up, a drain that died
      or a process that stopped left them so and no later event and no restart has come to their help. */
  lemma {:induction false} ForsakenIff(max: nat, actions: seq<Action>, k: string)
    ensures Forsaken(Reach(Initial(max), actions), k) <==> exists n :: 0 <= n < |actions| && LeftFrom(max, actions, n, k)
  {
    hide Next, Forsaken, Initial, Helps, Leaves, LeftFrom, Shape, HandedInv;
    if actions == [] {
      StartServed(max, k);
    } else {
      var (before, a) := (actions[..|actions| - 1], actions[|actions| - 1]);
      assert actions == before + [a];
      ForsakenIff(max, before, k);
      ReachKeeps(max, before, k);
      NextForsaken(Reach(Initial(max), before), a, k);
      LeftLast(max, before, a, k);
      forall n | 0 <= n < |before|
        ensures LeftFrom(max, actions, n, k) <==> LeftFrom(max, before, n, k) && !Helps(Reach(Initial(max), before), a, k)
      {
        LeftLonger(max, before, a, n, k);
      }
    }
  }

  lemma StartServed(max: nat, k: string)
    ensures !Forsaken(Initial(max), k)
  {
    Start(max, k);
  }

  /** So no event waits without somebody who will take it unless something failed. */
  lemma NoLostWakeUp(max: nat, actions: seq<Action>, k: string)
    requires forall a <- actions :: !Fails(a)
    ensures Pending(DocOf(Reach(Initial(max), actions), k)) != [] ==> Served(Reach(Initial(max), actions), k)
  {
    hide Reach, Initial, Run, Pending, DocOf, Served, Helps, Fails, Leaves;
    ForsakenIff(max, actions, k);
    forall n | 0 <= n < |actions| ensures !LeftFrom(max, actions, n, k) {
      assert !Fails(actions[n]);
      OnlyFailuresLeave(Reach(Initial(max), actions[..n]), actions[n], k);
    }
  }

  // ---------------------------------------------------------------- every event is worked once

  lemma {:induction false} NothingLost(max: nat, actions: seq<Action>, k: string)
    requires forall a <- actions :: !Fails(a)
    ensures Lost(max, actions, k) == 0
  {
    hide Reach, Initial, InHandOf;
    if actions != [] {
      NothingLost(max, actions[..|actions| - 1], k);
      assert !Fails(actions[|actions| - 1]);
    }
  }

  /** Conservation, in every run: what `work` was called with, the batch in hand and what still waits are as many events
      as were admitted, without the overflow, less those lost in hand; and they are exactly those events, in order, if and
      only if none was lost so. */
  lemma EveryEventIsWorkedOnce(max: nat, actions: seq<Action>, k: string)
    ensures var s := Reach(Initial(max), actions);
      var (seen, events) := (CellOf(s, k).worked + InHandOf(s, k) + Pending(DocOf(s, k)), Survivors(Marks(EMPTY, CellOf(s, k).ops)));
      && |seen| + Lost(max, actions, k) == |events|
      && (seen == events <==> Lost(max, actions, k) == 0)
  {
    hide Reach, Next, Initial, Run, Pending, Handed, Survivors, Marks, Lost;
    var s := Reach(Initial(max), actions);
    ReachKeeps(max, actions, k);
    InboxConserves(CellOf(s, k).ops);
    var (worked, hand, waits) := (CellOf(s, k).worked, InHandOf(s, k), Pending(DocOf(s, k)));
    if forall t :: !HoldsBatch(s, t, k) {
      assert worked + [] == worked;
    }
    assert Accounts(worked + hand, Lost(max, actions, k), Handed(EMPTY, CellOf(s, k).ops));
    assert |worked + hand + waits| == |worked + hand| + |waits|;
  }

  /** Once every caller has scheduled and every drain has left, nothing waits in any case, if nothing failed. */
  lemma QuietMeansDone(max: nat, actions: seq<Action>, k: string)
    requires forall a <- actions :: !Fails(a)
    requires Reach(Initial(max), actions).submits == map[] && Reach(Initial(max), actions).drains == map[]
    ensures var s := Reach(Initial(max), actions);
      && Pending(DocOf(s, k)) == []
      && CellOf(s, k).worked == Survivors(Marks(EMPTY, CellOf(s, k).ops))
  {
    hide Reach, Next, Initial, Run, Pending, Handed, Survivors, Marks, Lost, Fails;
    var s := Reach(Initial(max), actions);
    NoLostWakeUp(max, actions, k);
    NothingLost(max, actions, k);
    assert !Served(s, k);
    EveryEventIsWorkedOnce(max, actions, k);
    assert forall t :: !HoldsBatch(s, t, k);
    assert CellOf(s, k).worked + [] + [] == CellOf(s, k).worked;
  }
}
