/** The steps of a driver, one lemma a program point. */
module ComplianceTurns {
  import opened Options
  import opened ComplianceRecord
  import opened ComplianceIndex
  import opened ComplianceProtocol
  import opened ComplianceInvariant
  import opened ComplianceKeeps
  import opened ComplianceSteps

  /** What the invariant says about the record of a driver. */
  lemma OwnFacts(s: System, t: Nonce)
    requires Inv(s) && Owns(s, t) && Driving(s.tasks[t].pc)
    ensures CaseInv(Own(s, t)) && PcInv(Own(s, t), t, s.tasks[t].pc) && Own(s, t).key == s.tasks[t].key
    ensures forall name <- Own(s, t).writes ::
              Own(s, t).writes[name].status == Completed ==> HasCall(s.calls, s.tasks[t].key, name)
    ensures PendingCall(s.calls, s.tasks[t])
  {
    hide CaseInv, PcInv, CallInv, HasCall, SeparationInv, WellOrdered, SameEffect, HasEmail, PendingCall;
    assert TaskInv(s, t);
    var key := s.tasks[t].key;
    assert CaseOk(s.requesters, s.nextNonce, key, s.index.cases[key]);
  }

  /** A step that leaves the writes and the resource selectors alone. */
  ghost predicate Plain(b: Case, c: Case) {
    && Advances(b, c) && CaseInv(c) && c.writes == b.writes
    && c.caseId == b.caseId && c.caseNumber == b.caseNumber
    && (b.privateChatId != "" ==> c.privateChatId == b.privateChatId)
    && (b.salesforceStatus == "Closed" ==> c.salesforceStatus == "Closed")
    && (c.investigation == b.investigation || Delivery(c.generation) !in b.writes)
  }

  predicate Internal(pc: Pc) {
    !pc.Admitting? && !pc.Routing? && !pc.Accepting? && !pc.Invoking? && !pc.Calling? && !pc.Completing? && !pc.Emailing?
  }

  lemma PlainStep(s: System, t: Nonce, c: Case, pc: Pc)
    requires Inv(s) && Owns(s, t) && Driving(s.tasks[t].pc) && Plain(Own(s, t), c)
    requires c.owner == Some(t) || c.owner.None?
    requires Internal(pc) || (pc.Emailing? && !HasEmail(s.calls, s.tasks[t].key))
    requires Driving(pc) ==> c.owner == Some(t) && PcInv(c, t, pc)
    ensures Inv(Save(s, t, c, pc))
  {
    hide CaseInv, PcInv, HasCall, HasEmail, Inv;
    OwnFacts(s, t);
    SaveKeeps(s, t, c, pc, s.nextNonce);
    assert Save(s, t, c, pc).(nextNonce := s.nextNonce) == Save(s, t, c, pc);
  }

  lemma QueueFacts(c: Case)
    requires CaseInv(c)
    ensures QueueInv(c) && WritesInv(c)
  {
    hide QueueInv, HistoryInv, WritesInv, ValidTargets, IdleInv, AuthorityInv;
  }

  // ---------------------------------------------------------------- taking work

  lemma TakeLands(c: Case, t: Nonce, at: nat)
    requires CaseInv(c) && PcInv(c, t, Taking) && c.owner == Some(t)
    ensures var d := TakeEdit(c).(updatedAt := at);
      && Plain(c, d) && (d.owner == Some(t) || d.owner.None?)
      && (d.owner == Some(t) ==>
          && d.work.Some?
          && (d.work.value.generation == d.generation ==> PcInv(d, t, Starting(d.generation, d.inputComplete)))
          && (d.work.value.generation != d.generation ==> PcInv(d, t, Taking)))
  {
    hide CaseInv, HistoryInv, ValidTargets, IdleInv, AuthorityInv;
    var d := TakeEdit(c).(updatedAt := at);
    TakeKeeps(c);
    StampKeeps(TakeEdit(c), at);
    QueueFacts(c);
  }

  lemma TakeStep(s: System, t: Nonce)
    requires Inv(s) && Owns(s, t) && s.tasks[t].pc == Taking
    ensures Inv(StepTake(s, t))
  {
    hide CaseInv, PcInv, Plain, Inv;
    OwnFacts(s, t);
    TakeLands(Own(s, t), t, s.now);
    var d := TakeEdit(Own(s, t)).(updatedAt := s.now);
    PlainStep(s, t, d, if d.owner != Some(t) || d.work.None? then Done
                       else if d.work.value.generation != d.generation then Taking
                       else Starting(d.generation, d.inputComplete));
  }

  lemma CallsFact(s: System)
    requires Inv(s)
    ensures CallsInv(s)
  {
    hide CallsInv, CasesInv, TasksInv, SeparationInv;
  }

  // ---------------------------------------------------------------- claims

  /** A name that is not among the writes has never been called. */
  lemma NotCalled(s: System, key: CaseKey, name: WriteName)
    requires CallsInv(s) && key in s.index.cases && name !in s.index.cases[key].writes
    ensures !HasCall(s.calls, key, name)
  {
    hide ClaimFacts;
    forall i | 0 <= i < |s.calls| ensures !IsCall(s.calls[i], key, name) {
      assert CallInv(s.index, s.calls[i]);
    }
  }

  /** The context survives the claim, and what it says about the claimed record is on file. */
  lemma ClaimLands(c: Case, t: Nonce, name: WriteName, context: Context, nonce: Nonce, at: nat)
    requires CaseInv(c) && PcInv(c, t, Claiming(name, context)) && c.owner == Some(t)
    ensures Claimable(c, name)
    ensures var e := ClaimEdit(c, name, PinnedTo(context), nonce, t, at);
      && !e.Raised?
      && (e.Changed? ==> PcInv(e.record.(updatedAt := at), t, Invoking(name, nonce, e.record.(updatedAt := at), context)))
  {
    hide CaseInv, HistoryInv, IdleInv, AuthorityInv, QueueInv, WritesInv, ValidTargets, ReadyFindings, Opaque;
    QueueFacts(c);
  }

  lemma UntouchedLands(c: Case, t: Nonce, name: WriteName, context: Context, nonce: Nonce, at: nat)
    requires CaseInv(c) && PcInv(c, t, Claiming(name, context)) && c.owner == Some(t)
    requires ClaimEdit(c, name, PinnedTo(context), nonce, t, at).Untouched?
    ensures (context.Turn? || context.Closure? ==> PcInv(c, t, Taking))
    ensures (context.Farewell? ==> PcInv(c, t, Notifying(context.turn, false)))
  {
    hide CaseInv, HistoryInv, IdleInv, AuthorityInv, QueueInv, WritesInv, ValidTargets, Justified, Opaque;
    QueueFacts(c);
  }

  lemma ClaimStep(s: System, t: Nonce, name: WriteName, context: Context)
    requires Inv(s) && Owns(s, t) && s.tasks[t].pc == Claiming(name, context)
    ensures Inv(StepClaim(s, t, name, context))
  {
    hide CaseInv, PcInv, Inv, HasCall, Claimable, HasEmail, ClaimEdit, CallsInv;
    OwnFacts(s, t);
    var b, nonce := Own(s, t), s.nextNonce;
    var e := ClaimEdit(b, name, PinnedTo(context), nonce, t, s.now);
    ClaimLands(b, t, name, context, nonce, s.now);
    match e
    case Changed(c) =>
      ClaimKeeps(b, name, PinnedTo(context), nonce, t, s.now);
      StampKeeps(c, s.now);
      var d := c.(updatedAt := s.now);
      ClaimChange(b, name, PinnedTo(context), nonce, t, s.now);
      CallsFact(s);
      NotCalled(s, s.tasks[t].key, name);
      SaveKeeps(s, t, d, Invoking(name, nonce, d, context), nonce + 1);
      assert StepClaim(s, t, name, context) == Save(s, t, d, Invoking(name, nonce, d, context)).(nextNonce := nonce + 1);
    case Untouched =>
      UntouchedLands(b, t, name, context, nonce, s.now);
      var pc := match context
                case Registration => Aborting
                case Turn(_, _, _) => Taking
                case Closure(_) => Taking
                case Farewell(g, _, _, _) => Notifying(g, false);
      GotoKeeps(s, t, pc, nonce + 1);
      assert StepClaim(s, t, name, context) == Goto(s, t, pc).(nextNonce := nonce + 1);
    case Raised =>
  }

  /** A claim changes one write and the status. */
  lemma ClaimChange(c: Case, name: WriteName, generation: Option<nat>, nonce: Nonce, owner: Nonce, at: nat)
    requires ClaimEdit(c, name, generation, nonce, owner, at).Changed?
    ensures var d := ClaimEdit(c, name, generation, nonce, owner, at).record;
      && d.caseId == c.caseId && d.caseNumber == c.caseNumber && d.privateChatId == c.privateChatId
      && d.salesforceStatus == c.salesforceStatus && d.owner == c.owner && d.investigation == c.investigation
      && name !in c.writes
      && (forall other <- d.writes :: d.writes[other].status == Completed ==>
            other in c.writes && c.writes[other].status == Completed)
  {
  }

  // ---------------------------------------------------------------- calls and receipts

  lemma InvokeLands(c: Case, t: Nonce, name: WriteName, nonce: Nonce, claimed: Case, context: Context, x: Index, key: CaseKey)
    requires PcInv(c, t, Invoking(name, nonce, claimed, context)) && key in x.cases && x.cases[key] == c
    ensures PcInv(c, t, Calling(name, nonce, claimed, context))
    ensures CallInv(x, WriteCall(key, name, nonce, claimed, context))
  {
    hide Justified, ReadyFindings;
  }

  lemma MoreCalls(calls: seq<Call>, e: Call, key: CaseKey, name: WriteName)
    requires e.WriteCall?
    ensures HasCall(calls, key, name) ==> HasCall(calls + [e], key, name)
    ensures HasCall(calls + [e], e.key, e.name)
    ensures HasCall(calls + [e], key, name) ==> HasCall(calls, key, name) || (key == e.key && name == e.name)
    ensures HasEmail(calls + [e], key) ==> HasEmail(calls, key)
  {
    var more := calls + [e];
    assert IsCall(more[|calls|], e.key, e.name);
    assert forall i :: 0 <= i < |calls| ==> more[i] == calls[i];
  }

  lemma FreshCall(calls: seq<Call>, e: Call)
    requires forall i, j :: 0 <= i < j < |calls| ==> !SameEffect(calls[i], calls[j])
    requires e.WriteCall? && !HasCall(calls, e.key, e.name)
    ensures var more := calls + [e]; forall i, j :: 0 <= i < j < |more| ==> !SameEffect(more[i], more[j])
  {
    forall i | 0 <= i < |calls| ensures !SameEffect(calls[i], e) {
      assert !IsCall(calls[i], e.key, e.name);
    }
  }

  lemma InvokeKeepsPending(s: System, t: Nonce, e: Call, pc: Pc)
    requires Inv(s) && Owns(s, t) && Driving(s.tasks[t].pc) && e.WriteCall? && e.key == s.tasks[t].key
    requires pc.Calling? && pc.name == e.name
    ensures forall u <- s.tasks :: u != t ==> PendingCall(s.calls + [e], s.tasks[u])
    ensures PendingCall(s.calls + [e], Task(e.key, pc))
  {
    hide CaseInv, PcInv, HasCall, HasEmail, CallInv, SeparationInv, CasesInv, WellOrdered, SameEffect;
    forall u <- s.tasks | u != t ensures PendingCall(s.calls + [e], s.tasks[u]) {
      assert PendingCall(s.calls, s.tasks[u]);
      var task := s.tasks[u];
      MoreCalls(s.calls, e, task.key, match task.pc case Invoking(n, _, _, _) => n case Calling(n, _, _, _) => n
                                      case Completing(n, _, _, _, _) => n case _ => e.name);
      if task.pc.Invoking? {
        OneDriver(s, t, u);
      }
    }
    MoreCalls(s.calls, e, e.key, e.name);
  }

  lemma InvokeStep(s: System, t: Nonce)
    requires Inv(s) && WellOrdered(s.index) && t in s.tasks && s.tasks[t].pc.Invoking?
    ensures Inv(Next(s, Invoke(t)))
  {
    hide CaseInv, PcInv, HasCall, HasEmail, CallInv, SeparationInv, SameEffect, CaseOk, PendingCall;
    assert TaskInv(s, t);
    OwnFacts(s, t);
    var p := s.tasks[t].pc;
    var e := WriteCall(s.tasks[t].key, p.name, p.nonce, p.claimed, p.context);
    var pc := Calling(p.name, p.nonce, p.claimed, p.context);
    var z := Next(s, Invoke(t));
    InvokeLands(Own(s, t), t, p.name, p.nonce, p.claimed, p.context, s.index, e.key);
    GotoKeepsTasks(s, t, pc, s.nextNonce);
    assert TasksInv(z) by { SameTasks(Goto(s, t, pc), z); }
    PendingFacts(s.calls, s.tasks[t]);
    InvokeKeepsPending(s, t, e, pc);
    FreshCall(s.calls, e);
    forall key <- z.index.cases, name <- z.index.cases[key].writes | z.index.cases[key].writes[name].status == Completed
      ensures HasCall(z.calls, key, name)
    {
      MoreCalls(s.calls, e, key, name);
    }
  }

  lemma PendingFacts(calls: seq<Call>, task: Task)
    requires PendingCall(calls, task)
    ensures task.pc.Invoking? ==> !HasCall(calls, task.key, task.pc.name)
    ensures task.pc.Calling? || task.pc.Completing? ==> HasCall(calls, task.key, task.pc.name)
    ensures task.pc.Emailing? ==> !HasEmail(calls, task.key)
  {
    hide HasCall, HasEmail;
  }

  lemma SameTasks(s: System, z: System)
    requires TasksInv(s) && z.tasks == s.tasks && z.index == s.index && z.nextNonce == s.nextNonce && z.requesters == s.requesters
    ensures TasksInv(z)
  {
    hide PcInv;
    forall u <- z.tasks ensures TaskInv(z, u) {
      assert TaskInv(s, u);
    }
  }

  lemma ReturnStep(s: System, t: Nonce, value: Receipt)
    requires Inv(s) && WellOrdered(s.index) && t in s.tasks && s.tasks[t].pc.Calling?
    ensures Inv(Next(s, Return(t, value)))
  {
    hide CaseInv, HasCall, HasEmail, CallInv, SeparationInv, CasesInv, OnlyOpen, ContextInv, ProvesWrite;
    assert TaskInv(s, t);
    OwnFacts(s, t);
    var p := s.tasks[t].pc;
    var pc := if ProvesWrite(p.name, value) then Completing(p.name, p.nonce, value, s.now, p.context) else Aborting;
    GotoKeeps(s, t, pc, s.nextNonce);
    assert Goto(s, t, pc).(nextNonce := s.nextNonce) == Next(s, Return(t, value));
  }

  lemma CompleteLands(c: Case, t: Nonce, name: WriteName, nonce: Nonce, proof: Receipt, at: nat, context: Context, now: nat)
    requires CaseInv(c) && PcInv(c, t, Completing(name, nonce, proof, at, context)) && c.owner == Some(t)
    ensures var e := CompleteEdit(c, name, nonce, t, proof, at);
      && e.Changed?
      && PcInv(e.record.(updatedAt := now), t, AfterWrite(name, proof, context))
      && Driving(AfterWrite(name, proof, context)) && Internal(AfterWrite(name, proof, context))
  {
    hide CaseInv, HistoryInv, IdleInv, AuthorityInv, QueueInv, WritesInv, ValidTargets, Justified;
    CompletingFacts(c);
  }

  /** Without a chat there is no close, and an unregistered case has nothing but its registration. */
  lemma CompletingFacts(c: Case)
    requires CaseInv(c)
    ensures c.privateChatId == "" ==> Close !in c.writes
    ensures c.caseId == "" ==> forall name <- c.writes :: name == Create
  {
    hide QueueInv, HistoryInv, WritesInv, IdleInv, AuthorityInv;
  }

  lemma CompleteChange(c: Case, name: WriteName, nonce: Nonce, owner: Nonce, proof: Receipt, at: nat)
    requires CompleteEdit(c, name, nonce, owner, proof, at).Changed?
    ensures var d := CompleteEdit(c, name, nonce, owner, proof, at).record;
      && d.caseId == c.caseId && d.caseNumber == c.caseNumber && d.privateChatId == c.privateChatId
      && d.salesforceStatus == c.salesforceStatus && d.owner == c.owner && d.investigation == c.investigation
      && d.key == c.key
      && (forall other <- d.writes :: d.writes[other].status == Completed ==>
            other == name || (other in c.writes && c.writes[other].status == Completed))
  {
  }

  lemma CompletingProof(c: Case, t: Nonce, pc: Pc)
    requires pc.Completing? && PcInv(c, t, pc)
    ensures ProvesWrite(pc.name, pc.proof)
  {
    hide ProvesWrite, OnlyOpen, ContextInv;
  }

  lemma CompleteStep(s: System, t: Nonce, name: WriteName, nonce: Nonce, proof: Receipt, at: nat, context: Context)
    requires Inv(s) && Owns(s, t) && s.tasks[t].pc == Completing(name, nonce, proof, at, context)
    ensures Inv(StepComplete(s, t, name, nonce, proof, at, context))
  {
    hide CaseInv, PcInv, Inv, HasCall, HasEmail, CompleteEdit, AfterWrite, ProvesWrite, PendingCall;
    OwnFacts(s, t);
    PendingFacts(s.calls, s.tasks[t]);
    var b := Own(s, t);
    CompletingProof(b, t, s.tasks[t].pc);
    CompleteLands(b, t, name, nonce, proof, at, context, s.now);
    CompleteKeeps(b, name, nonce, t, proof, at);
    CompleteChange(b, name, nonce, t, proof, at);
    var c := CompleteEdit(b, name, nonce, t, proof, at).record;
    StampKeeps(c, s.now);
    var d, pc := c.(updatedAt := s.now), AfterWrite(name, proof, context);
    assert PendingCall(s.calls, Task(s.tasks[t].key, pc)) by { QuietPending(s.calls, Task(s.tasks[t].key, pc)); }
    SaveKeeps(s, t, d, pc, s.nextNonce);
    assert StepComplete(s, t, name, nonce, proof, at, context) == Save(s, t, d, pc).(nextNonce := s.nextNonce);
  }

  lemma QuietPending(calls: seq<Call>, task: Task)
    requires Internal(task.pc)
    ensures PendingCall(calls, task)
  {
  }
}
