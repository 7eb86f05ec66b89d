/** The invariant over whole runs. */
module ComplianceRuns {
  import opened Options
  import opened ComplianceRecord
  import opened ComplianceIndex
  import opened ComplianceProtocol
  import opened ComplianceInvariant
  import opened ComplianceKeeps
  import opened ComplianceSteps
  import opened ComplianceTurns
  import opened ComplianceEdits
  import opened ComplianceArrivals

  // ---------------------------------------------------------------- accepting a message

  function Deliver(s: System, t: Nonce, key: CaseKey, d: Case, pc: Pc): System {
    s.(index := s.index.(cases := s.index.cases[key := d]), tasks := s.tasks[t := Task(key, pc)])
  }

  /** The conditions under which a message may be written into a record. */
  ghost predicate Deliverable(s: System, t: Nonce, key: CaseKey, d: Case, m: Inbound, pc: Pc) {
    && t in s.tasks && !Driving(s.tasks[t].pc) && key in s.index.cases
    && var c := s.index.cases[key];
    && c.privateChatId != "" && Receives(c, d, m, t) && CaseInv(d)
    && (forall other <- s.index.cases :: KeyOf(m) !in s.index.cases[other].activities)
    && (c.owner.Some? ==> Overtakes(c, d))
    && (pc == Done || pc == Confirming || pc == Taking)
    && (Driving(pc) ==> d.owner == Some(t) && PcInv(d, t, pc))
  }

  lemma DeliverKeepsCases(s: System, t: Nonce, key: CaseKey, d: Case, m: Inbound, pc: Pc)
    requires CasesInv(s) && Deliverable(s, t, key, d, m, pc) && t < s.nextNonce
    ensures CasesInv(Deliver(s, t, key, d, pc))
  {
    hide CaseInv, Opaque, Overtakes, PcInv, WellOrdered, CaseOk, Receives;
    OverwriteKeys(s.index.cases, key, d);
    DeliveredIsOk(s, t, key, d, m, pc);
    SameOrder(s.index, key, d);
    var z := Deliver(s, t, key, d, pc);
    forall k <- z.index.cases ensures CaseOk(z.requesters, z.nextNonce, k, z.index.cases[k]) {
      if k != key {
        assert CaseOk(s.requesters, s.nextNonce, k, s.index.cases[k]);
      }
    }
  }

  lemma DeliveredIsOk(s: System, t: Nonce, key: CaseKey, d: Case, m: Inbound, pc: Pc)
    requires CasesInv(s) && Deliverable(s, t, key, d, m, pc) && t < s.nextNonce
    ensures CaseOk(s.requesters, s.nextNonce, key, d)
  {
    hide CaseInv, Opaque, Overtakes, PcInv, WellOrdered;
    assert CaseOk(s.requesters, s.nextNonce, key, s.index.cases[key]);
  }

  lemma SameOrder(x: Index, key: CaseKey, d: Case)
    requires WellOrdered(x) && key in x.cases
    ensures WellOrdered(x.(cases := x.cases[key := d]))
  {
  }

  lemma DeliverKeepsSeparation(s: System, t: Nonce, key: CaseKey, d: Case, m: Inbound, pc: Pc)
    requires SeparationInv(s.index) && Deliverable(s, t, key, d, m, pc)
    ensures SeparationInv(Deliver(s, t, key, d, pc).index)
  {
    hide CaseInv, Overtakes, PcInv;
  }

  lemma TaskFact(s: System, u: Nonce)
    requires TasksInv(s) && u in s.tasks
    ensures TaskInv(s, u)
  {
    hide TaskInv;
  }

  lemma AllTasks(z: System)
    requires forall u <- z.tasks :: TaskInv(z, u)
    ensures TasksInv(z)
  {
    hide TaskInv;
  }

  lemma DeliverKeepsTask(s: System, t: Nonce, key: CaseKey, d: Case, m: Inbound, pc: Pc, u: Nonce)
    requires CasesInv(s) && Deliverable(s, t, key, d, m, pc) && u in s.tasks && u != t && TaskInv(s, u)
    ensures TaskInv(Deliver(s, t, key, d, pc), u)
  {
    hide CaseInv, PcInv, Overtakes, Opaque, CasesInv;
    if s.tasks[u].key == key && Driving(s.tasks[u].pc) {
      CaseFacts(s, key);
      OvertakenDriver(s.index.cases[key], d, u, s.tasks[u].pc);
    }
  }

  lemma DeliverKeepsTasks(s: System, t: Nonce, key: CaseKey, d: Case, m: Inbound, pc: Pc)
    requires CasesInv(s) && TasksInv(s) && Deliverable(s, t, key, d, m, pc)
    ensures TasksInv(Deliver(s, t, key, d, pc))
  {
    hide CaseInv, PcInv, Overtakes, Opaque, CasesInv, TasksInv, Receives;
    var z := Deliver(s, t, key, d, pc);
    forall u <- z.tasks ensures TaskInv(z, u) {
      TaskFact(s, u);
      if u != t {
        DeliverKeepsTask(s, t, key, d, m, pc, u);
      }
    }
    assert TasksInv(z) by { AllTasks(z); }
  }

  lemma DeliverKeepsCalls(s: System, t: Nonce, key: CaseKey, d: Case, m: Inbound, pc: Pc)
    requires CallsInv(s) && Deliverable(s, t, key, d, m, pc)
    ensures CallsInv(Deliver(s, t, key, d, pc))
  {
    hide CaseInv, PcInv, Overtakes, ClaimFacts, HasCall, HasEmail, SameEffect;
    var z := Deliver(s, t, key, d, pc);
    forall i | 0 <= i < |z.calls| ensures CallInv(z.index, z.calls[i]) {
      assert CallInv(s.index, s.calls[i]);
    }
    forall k <- z.index.cases, name <- z.index.cases[k].writes | z.index.cases[k].writes[name].status == Completed
      ensures HasCall(z.calls, k, name)
    {
      assert name in s.index.cases[k].writes;
    }
    forall u <- z.tasks ensures PendingCall(z.calls, z.tasks[u]) {
      if u != t {
        assert PendingCall(s.calls, s.tasks[u]);
      }
    }
  }

  lemma DeliverKeeps(s: System, t: Nonce, key: CaseKey, d: Case, m: Inbound, pc: Pc)
    requires Inv(s) && Deliverable(s, t, key, d, m, pc)
    ensures Inv(Deliver(s, t, key, d, pc))
  {
    hide CasesInv, SeparationInv, TasksInv, CallsInv, Deliverable;
    assert t in s.tasks by { Handled(s, t, key, d, m, pc); }
    TaskBelow(s, t);
    DeliverKeepsCases(s, t, key, d, m, pc);
    DeliverKeepsSeparation(s, t, key, d, m, pc);
    DeliverKeepsTasks(s, t, key, d, m, pc);
    DeliverKeepsCalls(s, t, key, d, m, pc);
  }

  lemma Handled(s: System, t: Nonce, key: CaseKey, d: Case, m: Inbound, pc: Pc)
    requires Deliverable(s, t, key, d, m, pc)
    ensures t in s.tasks
  {
    hide CaseInv, Receives, Overtakes, PcInv;
  }

  /** A handler that changes nothing may be retargeted and retired. */
  lemma RetireKeeps(s: System, t: Nonce, key: CaseKey, pc: Pc)
    requires Inv(s) && t in s.tasks && (pc == Done || pc == Aborting)
    ensures Inv(s.(tasks := s.tasks[t := Task(key, pc)]))
  {
    hide CaseInv, CaseOk, PcInv, CallInv, SeparationInv, HasCall, HasEmail, WellOrdered, SameEffect;
    var z := s.(tasks := s.tasks[t := Task(key, pc)]);
    forall u <- z.tasks ensures TaskInv(z, u) {
      assert TaskInv(s, u);
    }
    forall u <- z.tasks ensures PendingCall(z.calls, z.tasks[u]) {
      if u != t {
        assert PendingCall(s.calls, s.tasks[u]);
      }
    }
    forall k <- z.index.cases ensures CaseOk(z.requesters, z.nextNonce, k, z.index.cases[k]) {
      assert CaseOk(s.requesters, s.nextNonce, k, s.index.cases[k]);
    }
  }

  lemma CaseFacts(s: System, key: CaseKey)
    requires CasesInv(s) && key in s.index.cases
    ensures CaseInv(s.index.cases[key])
  {
    hide CaseInv, WellOrdered, Opaque;
    assert CaseOk(s.requesters, s.nextNonce, key, s.index.cases[key]);
  }

  lemma AcceptStep(s: System, t: Nonce, m: Inbound, receivedAt: nat, intent: Intent, intentKey: Option<CaseKey>)
    requires Inv(s) && WellOrdered(s.index) && t in s.tasks
    requires s.tasks[t].pc == Accepting(m, receivedAt, intent, intentKey)
    ensures Inv(StepAccept(s, t, m, receivedAt, intent, intentKey))
  {
    hide CaseInv, PcInv, CallsInv, SeparationInv, WellOrdered, Receives, Overtakes, AcceptEdit, Inv, CaseOk;
    var z := StepAccept(s, t, m, receivedAt, intent, intentKey);
    var target := Target(s.index, m);
    if target.None? {
      RetireKeeps(s, t, s.tasks[t].key, Done);
      assert z == s.(tasks := s.tasks[t := Task(s.tasks[t].key, Done)]);
    } else if Holders(s.index, KeyOf(m)) != {} {
      RetireKeeps(s, t, target.value, Done);
      assert z == s.(tasks := s.tasks[t := Task(target.value, Done)]);
    } else {
      var key := target.value;
      var c := s.index.cases[key];
      var understood := if intentKey == Some(key) then intent else Information;
      var (d, step) := AcceptEdit(c, m, receivedAt, understood, t);
      var pc := match step case Ignore => Done case Notice => Done case StartClosing => Confirming
                           case StartInvestigating => Taking;
      ArrivingChat(s, t);
      InvCases(s);
      CaseFacts(s, key);
      Unheld(s.index, KeyOf(m));
      AcceptReceives(c, m, receivedAt, understood, t);
      AcceptKeeps(c, m, receivedAt, understood, t);
      AcceptLands(c, m, receivedAt, understood, t);
      if c.owner.Some? {
        AcceptOvertakes(c, m, receivedAt, understood, t);
      }
      assert Deliverable(s, t, key, d, m, pc);
      DeliverKeeps(s, t, key, d, m, pc);
      assert z == Deliver(s, t, key, d, pc);
    }
  }

  lemma InvCases(s: System)
    requires Inv(s)
    ensures CasesInv(s) && TasksInv(s) && SeparationInv(s.index) && CallsInv(s)
  {
    hide CasesInv, TasksInv, CallsInv, SeparationInv;
  }

  lemma ArrivingChat(s: System, t: Nonce)
    requires Inv(s) && t in s.tasks && s.tasks[t].pc.Accepting?
    ensures s.tasks[t].pc.msg.chatId != ""
  {
    hide CasesInv, CallsInv, SeparationInv, PcInv;
    assert TaskInv(s, t);
  }

  lemma Unheld(x: Index, activity: ActivityKey)
    requires Holders(x, activity) == {}
    ensures forall key <- x.cases :: activity !in x.cases[key].activities
  {
    forall key <- x.cases ensures activity !in x.cases[key].activities {
      assert key !in Holders(x, activity);
    }
  }

  // ---------------------------------------------------------------- admission

  function Admit(s: System, t: Nonce, c: Case, pc: Pc): System
    requires t in s.tasks
  {
    var key := s.tasks[t].key;
    Goto(s.(index := Index(s.index.order + [key], s.index.cases[key := c])), t, pc)
  }

  ghost predicate Newcomer(s: System, t: Nonce, c: Case) {
    && t in s.tasks && s.tasks[t].key !in s.index.cases && |s.index.cases| < MAX_CASES
    && c.key == s.tasks[t].key && c.requesterId in s.requesters && Opaque(c.key.messageId) && Opaque(c.conversationId)
    && CaseInv(c) && c.owner == Some(t) && c.activities == [] && c.caseId == "" && c.writes == map[]
  }

  lemma AdmitKeepsCases(s: System, t: Nonce, c: Case, pc: Pc)
    requires CasesInv(s) && Newcomer(s, t, c) && t < s.nextNonce
    ensures CasesInv(Admit(s, t, c, pc))
  {
    hide CaseInv, Opaque, WellOrdered;
    var z, key := Admit(s, t, c, pc), s.tasks[t].key;
    assert |z.index.cases| == |s.index.cases| + 1 by {
      assert z.index.cases.Keys == s.index.cases.Keys + {key};
      assert |z.index.cases| == |z.index.cases.Keys| && |s.index.cases| == |s.index.cases.Keys|;
    }
    forall k <- z.index.cases ensures CaseOk(z.requesters, z.nextNonce, k, z.index.cases[k]) {
      if k != key {
        assert CaseOk(s.requesters, s.nextNonce, k, s.index.cases[k]);
      }
    }
    AdmitKeepsOrder(s.index, key, c);
  }

  lemma AdmitKeepsOrder(x: Index, key: CaseKey, c: Case)
    requires WellOrdered(x) && key !in x.cases
    ensures WellOrdered(Index(x.order + [key], x.cases[key := c]))
  {
  }

  lemma AdmitKeepsTasks(s: System, t: Nonce, c: Case, pc: Pc)
    requires TasksInv(s) && Newcomer(s, t, c) && Driving(pc) && PcInv(c, t, pc)
    ensures TasksInv(Admit(s, t, c, pc))
  {
    hide CaseInv, PcInv, Opaque;
    var z := Admit(s, t, c, pc);
    forall u <- z.tasks ensures TaskInv(z, u) {
      assert TaskInv(s, u);
    }
  }

  lemma AdmitKeepsCalls(s: System, t: Nonce, c: Case, pc: Pc)
    requires CallsInv(s) && Newcomer(s, t, c) && PendingCall(s.calls, Task(s.tasks[t].key, pc))
    ensures CallsInv(Admit(s, t, c, pc))
  {
    hide CaseInv, PcInv, Opaque, ClaimFacts, HasCall, HasEmail, SameEffect;
    var z := Admit(s, t, c, pc);
    forall i | 0 <= i < |z.calls| ensures CallInv(z.index, z.calls[i]) {
      assert CallInv(s.index, s.calls[i]);
    }
    forall k <- z.index.cases, name <- z.index.cases[k].writes | z.index.cases[k].writes[name].status == Completed
      ensures HasCall(z.calls, k, name)
    {
      assert name in s.index.cases[k].writes;
    }
    forall u <- z.tasks ensures PendingCall(z.calls, z.tasks[u]) {
      if u != t {
        assert PendingCall(s.calls, s.tasks[u]);
      }
    }
  }

  lemma AdmitKeepsSeparation(s: System, t: Nonce, c: Case, pc: Pc)
    requires SeparationInv(s.index) && Newcomer(s, t, c)
    ensures SeparationInv(Admit(s, t, c, pc).index)
  {
    hide CaseInv, Opaque;
  }

  lemma NewcomerLands(key: CaseKey, requesterId: string, conversationId: string, complete: bool, t: Nonce, at: nat)
    ensures PcInv(NewCase(key, requesterId, conversationId, complete, t, at), t, Claiming(Create, Registration))
  {
  }

  lemma AdmitStep(s: System, t: Nonce)
    requires Inv(s) && t in s.tasks && s.tasks[t].pc.Admitting?
    ensures var pc := s.tasks[t].pc; Inv(StepAdmit(s, t, pc.conversationId, pc.requesterId, pc.complete))
  {
    hide CaseInv, PcInv, CallsInv, SeparationInv, CaseOk, Opaque;
    var pc, key := s.tasks[t].pc, s.tasks[t].key;
    assert TaskInv(s, t);
    var z := StepAdmit(s, t, pc.conversationId, pc.requesterId, pc.complete);
    if key in s.index.cases || |s.index.cases| >= MAX_CASES {
      RetireKeeps(s, t, key, Done);
      RetireKeeps(s, t, key, Aborting);
      assert z == s.(tasks := s.tasks[t := Task(key, Done)]) || z == s.(tasks := s.tasks[t := Task(key, Aborting)]);
    } else {
      var c := NewCase(key, pc.requesterId, pc.conversationId, pc.complete, t, s.now);
      var next := Claiming(Create, Registration);
      NewCaseKeeps(key, pc.requesterId, pc.conversationId, pc.complete, t, s.now);
      NewcomerLands(key, pc.requesterId, pc.conversationId, pc.complete, t, s.now);
      QuietPending(s.calls, Task(key, next));
      AdmitKeepsCases(s, t, c, next);
      AdmitKeepsTasks(s, t, c, next);
      AdmitKeepsCalls(s, t, c, next);
      AdmitKeepsSeparation(s, t, c, next);
      assert z == Admit(s, t, c, next);
    }
  }

  // ---------------------------------------------------------------- the last edits of a driver

  lemma SettleStep(s: System, t: Nonce, g: nat)
    requires Inv(s) && Owns(s, t) && s.tasks[t].pc == Settling(g)
    ensures Inv(StepSettle(s, t, g))
  {
    hide CaseInv, Inv, HasEmail, HasCall, Plain, PcInv, CallsInv;
    OwnFacts(s, t);
    var c := Own(s, t);
    SettleLands(c, t, g, s.now);
    assert c.salesforceStatus != "Closed" by { SettlingOpen(c, t, g); }
    InvCases(s);
    NoEmailYet(s, s.tasks[t].key);
    var d := WithEvent(ClosedEdit(c, g), "case_close_readback", s.now);
    var pc := if d.owner != Some(t) then Done
              else if d.confirmation.Some? && d.confirmation.value.email then Emailing(g, d)
              else Claiming(ClosedDelivery, Farewell(g, false, false, d));
    PlainStep(s, t, d, pc);
  }

  lemma SettlingOpen(c: Case, t: Nonce, g: nat)
    requires PcInv(c, t, Settling(g))
    ensures c.salesforceStatus != "Closed"
  {
  }

  lemma NotifyStep(s: System, t: Nonce, g: nat, told: bool)
    requires Inv(s) && Owns(s, t) && s.tasks[t].pc == Notifying(g, told)
    ensures Inv(Save(s, t, WithEvent(NotifiedEdit(Own(s, t), g, told), "case_closure_notice_recorded", s.now), Done))
  {
    hide CaseInv, Inv, HasEmail, HasCall, Quiet;
    OwnFacts(s, t);
    NotifiedKeeps(Own(s, t), g, told);
    EventStep(s, t, NotifiedEdit(Own(s, t), g, told), "case_closure_notice_recorded", Done);
  }

  lemma AbortChange(c: Case, t: Nonce)
    requires c.owner.Some?
    ensures var d := AbortEdit(c, t);
      && d.caseId == c.caseId && d.caseNumber == c.caseNumber && d.privateChatId == c.privateChatId
      && d.salesforceStatus == c.salesforceStatus && d.owner == c.owner && d.investigation == c.investigation
      && (forall name <- d.writes :: name in c.writes && (d.writes[name].status == Completed ==> c.writes[name].status == Completed))
  {
  }

  lemma AbortStep(s: System, t: Nonce)
    requires Inv(s) && t in s.tasks && s.tasks[t].pc == Aborting
    ensures Inv(StepAbort(s, t))
  {
    hide CaseInv, HasEmail, HasCall, AbortEdit, CallInv, PcInv, WellOrdered, SeparationInv, SameEffect;
    if Owns(s, t) {
      var b := Own(s, t);
      CaseFacts(s, s.tasks[t].key);
      assert CaseOk(s.requesters, s.nextNonce, s.tasks[t].key, b);
      AbortKeeps(b, t);
      AbortChange(b, t);
      EventKeeps(AbortEdit(b, t), "case_outcome_unknown", s.now);
      var d := WithEvent(AbortEdit(b, t), "case_outcome_unknown", s.now);
      assert OwnChange(s, t, d);
      SaveKeeps(s, t, d, Done, s.nextNonce);
      assert StepAbort(s, t) == Save(s, t, d, Done).(nextNonce := s.nextNonce);
    } else {
      RetireKeeps(s, t, s.tasks[t].key, Done);
      assert StepAbort(s, t) == s.(tasks := s.tasks[t := Task(s.tasks[t].key, Done)]);
    }
  }

  // ---------------------------------------------------------------- any step of any handler

  lemma MoveKeeps(s: System, t: Nonce, pc: Pc)
    requires Inv(s) && t in s.tasks && Arriving(s, Task(s.tasks[t].key, pc)) && CallFree(pc)
    requires Driving(pc) ==> Owns(s, t) && PcInv(Own(s, t), t, pc)
    ensures Inv(Goto(s, t, pc))
  {
    hide Inv, PcInv, Arriving;
    NothingPending(s.calls, Task(s.tasks[t].key, pc));
    GotoKeeps(s, t, pc, s.nextNonce);
    assert Goto(s, t, pc).(nextNonce := s.nextNonce) == Goto(s, t, pc);
  }

  predicate CallFree(pc: Pc) {
    !pc.Invoking? && !pc.Calling? && !pc.Completing? && !pc.Emailing?
  }

  lemma NothingPending(calls: seq<Call>, task: Task)
    requires CallFree(task.pc)
    ensures PendingCall(calls, task)
  {
  }

  lemma ReadStep(s: System, t: Nonce, a: Action)
    requires Inv(s) && WellOrdered(s.index) && t in s.tasks && Driving(s.tasks[t].pc)
    requires (a.Investigate? || a.ReadRecord? || a.ReadStatus?) && a.task == t
    ensures Inv(Next(s, a))
  {
    hide CaseInv, Inv, HasCall, HasEmail, Quiet, WellOrdered, Justified, AfterClose;
    DriverOwns(s, t);
    OwnFacts(s, t);
    var p := s.tasks[t].pc;
    if a.Investigate? && p.Checking? {
      MoveKeeps(s, t, if a.found.None? then Blocking(p.turn) else Recording(p.turn, Project(a.found.value, p.turn, p.inputComplete)));
    } else if a.ReadRecord? && p.Confirming? {
      ConfirmingClaims(Own(s, t), t);
      MoveKeeps(s, t, Claiming(Close, Closure(Own(s, t).confirmation.value.generation)));
    } else if a.ReadStatus? && p.ReadingStatus? {
      MoveKeeps(s, t, SavingStatus(p.turn, a.status, s.now));
    }
  }

  lemma ConfirmingClaims(c: Case, t: Nonce)
    requires PcInv(c, t, Confirming)
    ensures c.confirmation.Some? && PcInv(c, t, Claiming(Close, Closure(c.confirmation.value.generation)))
  {
    hide Justified;
  }

  lemma DriverOwns(s: System, t: Nonce)
    requires Inv(s) && t in s.tasks && Driving(s.tasks[t].pc)
    ensures Owns(s, t)
  {
    hide CasesInv, CallsInv, SeparationInv, PcInv;
    assert TaskInv(s, t);
  }

  lemma EmailStep(s: System, t: Nonce, attempted: bool, sent: bool)
    requires Inv(s) && WellOrdered(s.index) && t in s.tasks && s.tasks[t].pc.Emailing?
    ensures Inv(Next(s, Email(t, attempted, sent)))
  {
    hide CaseInv, CaseOk, PcInv, CallInv, SeparationInv, HasCall, HasEmail, WellOrdered, SameEffect, PendingCall, CasesInv,
         TasksInv;
    DriverOwns(s, t);
    OwnFacts(s, t);
    var p, key := s.tasks[t].pc, s.tasks[t].key;
    var next := Claiming(ClosedDelivery, Farewell(p.turn, true, attempted && sent, p.snapshot));
    EmailingClaims(Own(s, t), t, p.turn, p.snapshot, attempted && sent);
    MoveKeeps(s, t, next);
    if attempted {
      var y := Goto(s, t, next);
      var e := EmailCall(key, p.snapshot);
      PendingFacts(s.calls, s.tasks[t]);
      FreshEmail(s.calls, e);
      EmailingClosed(Own(s, t), t, p.turn, p.snapshot, s.index, e);
      var z := y.(calls := y.calls + [e]);
      SameTasks(y, z);
      forall u <- z.tasks ensures PendingCall(z.calls, z.tasks[u]) {
        EmailKeepsPending(y, t, u, e);
      }
      forall k <- z.index.cases, name <- z.index.cases[k].writes | z.index.cases[k].writes[name].status == Completed
        ensures HasCall(z.calls, k, name)
      {
        MoreEmails(s.calls, e, k, name);
      }
      assert z == Next(s, Email(t, attempted, sent));
      assert CasesInv(z) by { SameCases(y, z); }
    }
  }

  lemma SameCases(s: System, z: System)
    requires CasesInv(s) && z.index == s.index && z.nextNonce == s.nextNonce && z.requesters == s.requesters
    ensures CasesInv(z)
  {
    hide CaseOk, WellOrdered;
  }

  lemma EmailingClaims(c: Case, t: Nonce, g: nat, snapshot: Case, sent: bool)
    requires PcInv(c, t, Emailing(g, snapshot))
    ensures PcInv(c, t, Claiming(ClosedDelivery, Farewell(g, true, sent, snapshot)))
  {
  }

  lemma EmailingClosed(c: Case, t: Nonce, g: nat, snapshot: Case, x: Index, e: Call)
    requires PcInv(c, t, Emailing(g, snapshot)) && e.EmailCall? && e.key in x.cases && x.cases[e.key] == c
    ensures CallInv(x, e)
  {
  }

  lemma MoreEmails(calls: seq<Call>, e: Call, key: CaseKey, name: WriteName)
    requires e.EmailCall?
    ensures HasCall(calls + [e], key, name) <==> HasCall(calls, key, name)
    ensures HasEmail(calls + [e], key) ==> HasEmail(calls, key) || key == e.key
  {
    var more := calls + [e];
    assert forall i :: 0 <= i < |calls| ==> more[i] == calls[i];
  }

  lemma FreshEmail(calls: seq<Call>, e: Call)
    requires forall i, j :: 0 <= i < j < |calls| ==> !SameEffect(calls[i], calls[j])
    requires e.EmailCall? && !HasEmail(calls, e.key)
    ensures var more := calls + [e]; forall i, j :: 0 <= i < j < |more| ==> !SameEffect(more[i], more[j])
  {
    forall i | 0 <= i < |calls| ensures !SameEffect(calls[i], e) {
      assert !(calls[i].EmailCall? && calls[i].key == e.key);
    }
  }

  lemma EmailKeepsPending(y: System, t: Nonce, u: Nonce, e: Call)
    requires Inv(y) && t in y.tasks && u in y.tasks && Driving(y.tasks[t].pc) && y.tasks[t].pc.Claiming?
    requires e.EmailCall? && e.key == y.tasks[t].key
    ensures PendingCall(y.calls + [e], y.tasks[u])
  {
    hide CaseInv, CaseOk, PcInv, CallInv, SeparationInv, HasCall, HasEmail, WellOrdered, SameEffect;
    assert PendingCall(y.calls, y.tasks[u]);
    var task := y.tasks[u];
    MoreEmails(y.calls, e, task.key, match task.pc case Invoking(n, _, _, _) => n case Calling(n, _, _, _) => n
                                     case Completing(n, _, _, _, _) => n case _ => Create);
    if task.pc.Emailing? {
      OneDriver(y, t, u);
    }
  }

  lemma SpawnStep(s: System, key: CaseKey, pc: Pc)
    requires Inv(s) && (pc.Admitting? || pc.Routing?) && Arriving(s, Task(key, pc))
    ensures Inv(Spawn(s, key, pc))
  {
    hide CaseInv, PcInv, CallInv, SeparationInv, HasCall, HasEmail, WellOrdered, SameEffect, Opaque;
    var z := Spawn(s, key, pc);
    forall u <- z.tasks ensures TaskInv(z, u) {
      if u != s.nextNonce {
        assert TaskInv(s, u);
      }
    }
    forall u <- z.tasks ensures PendingCall(z.calls, z.tasks[u]) {
      if u != s.nextNonce {
        assert PendingCall(s.calls, s.tasks[u]);
      }
    }
    MoreNonces(s, s.nextNonce + 1);
    assert CasesInv(z);
  }

  lemma CrashStep(s: System, t: Nonce)
    requires Inv(s)
    ensures Inv(s.(tasks := s.tasks - {t}))
  {
    hide CaseInv, CaseOk, PcInv, CallInv, SeparationInv, HasCall, HasEmail, WellOrdered, SameEffect;
    var z := s.(tasks := s.tasks - {t});
    forall u <- z.tasks ensures TaskInv(z, u) {
      assert TaskInv(s, u);
    }
    forall u <- z.tasks ensures PendingCall(z.calls, z.tasks[u]) {
      assert PendingCall(s.calls, s.tasks[u]);
    }
    forall k <- z.index.cases ensures CaseOk(z.requesters, z.nextNonce, k, z.index.cases[k]) {
      assert CaseOk(s.requesters, s.nextNonce, k, s.index.cases[k]);
    }
  }

  lemma TickStep(s: System, elapsed: nat)
    requires Inv(s)
    ensures Inv(s.(now := s.now + elapsed))
  {
    hide CaseInv, CaseOk, PcInv, CallInv, SeparationInv, HasCall, HasEmail, WellOrdered, SameEffect;
    var z := s.(now := s.now + elapsed);
    SameTasks(s, z);
    forall u <- z.tasks ensures PendingCall(z.calls, z.tasks[u]) {
      assert PendingCall(s.calls, s.tasks[u]);
    }
    forall k <- z.index.cases ensures CaseOk(z.requesters, z.nextNonce, k, z.index.cases[k]) {
      assert CaseOk(s.requesters, s.nextNonce, k, s.index.cases[k]);
    }
  }

  lemma CommitStep(s: System, t: Nonce)
    requires Inv(s) && WellOrdered(s.index)
    ensures Inv(StepCommit(s, t))
  {
    hide Inv, WellOrdered, StepAdmit, StepAccept, StepAbort, StepClaim, StepComplete, StepRegister, StepTake, StepRecord,
         StepSaveChat, StepNote, StepDeliver, StepSettle;
    if t in s.tasks {
      var pc := s.tasks[t].pc;
      if pc.Admitting? {
        AdmitStep(s, t);
      } else if pc.Accepting? {
        AcceptStep(s, t, pc.msg, pc.receivedAt, pc.intent, pc.intentKey);
      } else if pc.Aborting? {
        AbortStep(s, t);
      } else if Driving(pc) {
        DriverOwns(s, t);
        match pc {
          case Claiming(name, context) => ClaimStep(s, t, name, context);
          case Completing(name, nonce, proof, at, context) => CompleteStep(s, t, name, nonce, proof, at, context);
          case Registering(proof) => RegisterStep(s, t, proof);
          case Taking => TakeStep(s, t);
          case Starting(g, complete) => StartStep(s, t);
          case Blocking(_) => BlockStep(s, t);
          case Recording(g, found) => RecordStep(s, t, g, found);
          case SavingChat(g, found, chatId) => SaveChatStep(s, t, g, found, chatId);
          case Noting(g, found, snapshot) => NoteStep(s, t, g, found, snapshot);
          case Delivering(g, found, messageId) => DeliverStep(s, t, g, found, messageId);
          case Verifying(g) => VerifyStep(s, t, g);
          case SavingStatus(g, status, at) => SaveStatusStep(s, t, g, status, at);
          case Settling(g) => SettleStep(s, t, g);
          case Notifying(g, told) => NotifyStep(s, t, g, told);
          case _ =>
        }
      }
    }
  }

  lemma NextKeeps(s: System, a: Action)
    requires Inv(s) && WellOrdered(s.index)
    ensures Inv(Next(s, a))
  {
    hide Inv, WellOrdered, StepCommit, Opaque, Blank, ProvesWrite, Spawn;
    match a {
      case Tick(elapsed) => TickStep(s, elapsed);
      case ReceiveEmail(messageId, conversationId, requesterId, complete) =>
        if Opaque(messageId) && Opaque(conversationId) && requesterId in s.requesters {
          SpawnStep(s, CaseKey(messageId), Admitting(conversationId, requesterId, complete));
        }
      case HandleReply(m) =>
        if m.requesterId in s.requesters && Opaque(m.chatId) && Opaque(m.activityId) && !Blank(m.text) {
          OpaqueText(m.chatId);
          SpawnStep(s, CaseKey(""), Routing(m, s.now));
        }
      case ReadIntent(t, intent, intentKey) =>
        if t in s.tasks && s.tasks[t].pc.Routing? {
          RoutingChat(s, t);
          MoveKeeps(s, t, Accepting(s.tasks[t].pc.msg, s.tasks[t].pc.receivedAt, intent, intentKey));
        }
      case Commit(t) => CommitStep(s, t);
      case Invoke(t) =>
        if t in s.tasks && s.tasks[t].pc.Invoking? { InvokeStep(s, t); }
      case Return(t, value) =>
        if t in s.tasks && s.tasks[t].pc.Calling? { ReturnStep(s, t, value); }
      case Investigate(t, found) =>
        if t in s.tasks && Driving(s.tasks[t].pc) { ReadStep(s, t, a); }
      case ReadRecord(t) =>
        if t in s.tasks && Driving(s.tasks[t].pc) { ReadStep(s, t, a); }
      case ReadStatus(t, status) =>
        if t in s.tasks && Driving(s.tasks[t].pc) { ReadStep(s, t, a); }
      case Email(t, attempted, sent) =>
        if t in s.tasks && s.tasks[t].pc.Emailing? { EmailStep(s, t, attempted, sent); }
      case Interrupt(t) =>
        if t in s.tasks && !s.tasks[t].pc.Done? { MoveKeeps(s, t, Aborting); }
      case Crash(t) => CrashStep(s, t);
    }
  }

  lemma OpaqueText(text: string)
    requires Opaque(text)
    ensures text != ""
  {
  }

  lemma RoutingChat(s: System, t: Nonce)
    requires Inv(s) && t in s.tasks && s.tasks[t].pc.Routing?
    ensures s.tasks[t].pc.msg.chatId != ""
  {
    hide CasesInv, CallsInv, SeparationInv, PcInv;
    assert TaskInv(s, t);
  }

  lemma InitialKeeps(requesters: set<string>)
    ensures Inv(Initial(requesters))
  {
  }

  lemma Ordered(s: System)
    requires Inv(s)
    ensures WellOrdered(s.index)
  {
    hide TasksInv, CallsInv, SeparationInv, WellOrdered, CaseOk;
  }

  /** Every state a run can reach satisfies the invariant. */
  lemma {:induction false} RunKeeps(s: System, actions: seq<Action>)
    requires Inv(s)
    ensures Inv(Run(s, actions)) && WellOrdered(Run(s, actions).index)
  {
    hide Inv, WellOrdered, Next;
    Ordered(s);
    if actions != [] {
      RunKeeps(s, actions[..|actions| - 1]);
      NextKeeps(Run(s, actions[..|actions| - 1]), actions[|actions| - 1]);
      Ordered(Run(s, actions));
    }
  }

  lemma ReachedKeeps(requesters: set<string>, actions: seq<Action>)
    ensures var s := Run(Initial(requesters), actions); Inv(s) && WellOrdered(s.index)
  {
    hide WellOrdered;
    InitialKeeps(requesters);
    RunKeeps(Initial(requesters), actions);
  }
}
