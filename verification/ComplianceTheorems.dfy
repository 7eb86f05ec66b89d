/** What the compliance service promises, for every run of any number of handlers with crashes, interruptions
    and messages arriving at any time. */
module ComplianceTheorems {
  import opened Options
  import opened ComplianceRecord
  import opened ComplianceIndex
  import opened ComplianceProtocol
  import opened ComplianceInvariant
  import opened ComplianceSteps
  import opened ComplianceTurns
  import opened ComplianceEdits
  import opened ComplianceArrivals
  import opened ComplianceRuns
  import opened ComplianceGrowth
  import ReceiptWindow

  // ---------------------------------------------------------------- external effects

  /** Each named write of a case goes out at most once, and so does its confirmation email. */
  lemma EveryEffectAtMostOnce(requesters: set<string>, actions: seq<Action>)
    ensures var calls := Run(Initial(requesters), actions).calls;
            forall i, j :: 0 <= i < j < |calls| ==> !SameEffect(calls[i], calls[j])
  {
    hide CallInv, TasksInv, CasesInv, SeparationInv, HasCall, SameEffect;
    ReachedKeeps(requesters, actions);
  }

  /** A case never has two writes whose outcome is open, and nothing goes out while another is open. */
  lemma NoCallWhileAnotherIsOpen(requesters: set<string>, actions: seq<Action>, t: Nonce)
    ensures var s := Run(Initial(requesters), actions);
      && (forall key <- s.index.cases, a <- s.index.cases[key].writes, b <- s.index.cases[key].writes ::
            s.index.cases[key].writes[a].status != Completed && s.index.cases[key].writes[b].status != Completed ==> a == b)
      && (|Next(s, Invoke(t)).calls| > |s.calls| ==>
            && Owns(s, t) && s.tasks[t].pc.Invoking?
            && var name, c := s.tasks[t].pc.name, Own(s, t);
            && name in c.writes && c.writes[name].status == Claimed && c.writes[name].nonce == s.tasks[t].pc.nonce
            && (forall other <- c.writes :: other != name ==> c.writes[other].status == Completed))
  {
    hide CaseInv, Inv, HasCall, ContextInv, ClaimFacts, WellOrdered, PendingCall;
    ReachedKeeps(requesters, actions);
    var s := Run(Initial(requesters), actions);
    forall key <- s.index.cases
      ensures forall a <- s.index.cases[key].writes, b <- s.index.cases[key].writes ::
        s.index.cases[key].writes[a].status != Completed && s.index.cases[key].writes[b].status != Completed ==> a == b
    {
      InvCases(s);
      CaseFacts(s, key);
      QueueFacts(s.index.cases[key]);
    }
    if t in s.tasks && s.tasks[t].pc.Invoking? {
      DriverOwns(s, t);
      OwnFacts(s, t);
    }
  }

  /** A driver never meets a retained claim: claiming can fail only because the case moved on or is suspended. */
  lemma ClaimsNeverReplay(requesters: set<string>, actions: seq<Action>, t: Nonce)
    ensures var s := Run(Initial(requesters), actions);
      t in s.tasks && s.tasks[t].pc.Claiming? ==>
        && Owns(s, t)
        && var pc := s.tasks[t].pc;
        && !ClaimEdit(Own(s, t), pc.name, PinnedTo(pc.context), s.nextNonce, t, s.now).Raised?
  {
    hide CaseInv, Inv, HasCall, ContextInv, WellOrdered, PendingCall, Justified;
    ReachedKeeps(requesters, actions);
    var s := Run(Initial(requesters), actions);
    if t in s.tasks && s.tasks[t].pc.Claiming? {
      DriverOwns(s, t);
      OwnFacts(s, t);
    }
  }

  // ---------------------------------------------------------------- the service accepts its own state

  /** The names of the writes that belong to the first `n` turns. */
  function TurnNames(n: nat): (names: set<WriteName>)
    ensures forall name :: name in names <==> (name.Update? || name.Delivery?) && name.turn < n
  {
    (set g | 0 <= g < n :: Update(g)) + (set g | 0 <= g < n :: Delivery(g))
  }

  lemma {:induction false} CountTurnNames(n: nat)
    ensures |TurnNames(n)| == 2 * n
  {
    hide TurnNames;
    if n == 0 {
      assert TurnNames(0) == {};
    } else {
      CountTurnNames(n - 1);
      var fewer := TurnNames(n - 1);
      assert |fewer + {Update(n - 1)}| == |fewer| + 1;
      assert |fewer + {Update(n - 1)} + {Delivery(n - 1)}| == |fewer| + 2;
      assert TurnNames(n) == fewer + {Update(n - 1)} + {Delivery(n - 1)};
    }
  }

  lemma FewWrites(c: Case)
    requires QueueInv(c) && WritesInv(c)
    ensures |c.writes| <= 2 * MAX_TURNS + 4
  {
    hide TurnNames;
    var turns, others := TurnNames(MAX_TURNS), {Create, Chat, Close, ClosedDelivery};
    CountTurnNames(MAX_TURNS);
    forall name <- c.writes.Keys ensures name in turns + others {
      if name.Update? || name.Delivery? {
        assert name.turn < MAX_TURNS;
      }
    }
    ReceiptWindow.Subset(c.writes.Keys, turns + others);
    assert |c.writes| == |c.writes.Keys|;
  }

  lemma RecordIsValid(requesters: set<string>, nextNonce: Nonce, key: CaseKey, c: Case)
    requires CaseOk(requesters, nextNonce, key, c)
    ensures ValidRecord(requesters, key, c)
  {
    hide ValidTargets, IdleInv, AuthorityInv, Opaque;
    assert CaseInv(c);
    FewWrites(c);
  }

  /** Every check that a read makes of the stored index passes, after any run: no bound is ever exceeded, no receipt
      ever disagrees with the resource it selects, and the service never rejects its own state. */
  lemma NeverRejectsItsOwnState(requesters: set<string>, actions: seq<Action>)
    ensures ValidIndex(requesters, Run(Initial(requesters), actions).index)
  {
    hide CaseOk, ValidRecord, TasksInv, CallsInv, SeparationInv, WellOrdered;
    ReachedKeeps(requesters, actions);
    var s := Run(Initial(requesters), actions);
    SameRequesters(Initial(requesters), actions);
    forall key <- s.index.cases ensures ValidRecord(requesters, key, s.index.cases[key]) {
      RecordIsValid(s.requesters, s.nextNonce, key, s.index.cases[key]);
    }
  }

  lemma {:induction false} SameRequesters(s: System, actions: seq<Action>)
    ensures Run(s, actions).requesters == s.requesters
  {
    hide Next;
    if actions != [] {
      SameRequesters(s, actions[..|actions| - 1]);
      NextRequesters(Run(s, actions[..|actions| - 1]), actions[|actions| - 1]);
    }
  }

  lemma NextRequesters(s: System, a: Action)
    ensures Next(s, a).requesters == s.requesters
  {
    hide WellOrdered, Accept, ClaimEdit, CompleteEdit, InvestigatedEdit, DeliveredEdit, ClosedEdit, TakeEdit, AbortEdit,
         NotifiedEdit, WithEvent, NewCase, Collides, AfterWrite, AfterFindings;
  }

  // ---------------------------------------------------------------- no reply is lost

  /** When a driver looks for more work and lets go of a live case, the queue is empty and the turn of the last
      reply has been answered, however many replies came in while it was driving. */
  lemma NoReplyIsLost(requesters: set<string>, actions: seq<Action>, t: Nonce)
    ensures var s := Run(Initial(requesters), actions);
      t in s.tasks && s.tasks[t].pc == Taking ==>
        && s.tasks[t].key in StepCommit(s, t).index.cases
        && var c := StepCommit(s, t).index.cases[s.tasks[t].key];
        && (c.owner == None && !c.suspended && c.salesforceStatus != "Closed" ==>
              c.pendingReplies == [] && DeliveredNow(c) && |c.replyHistory| == c.generation)
  {
    hide Inv, CaseInv, WellOrdered, HasCall, PendingCall;
    ReachedKeeps(requesters, actions);
    var s := Run(Initial(requesters), actions);
    if t in s.tasks && s.tasks[t].pc == Taking {
      DriverOwns(s, t);
      OwnFacts(s, t);
      QueueFacts(Own(s, t));
    }
  }

  /** A case at rest, live and not closed, owes its requester nothing, unless the records could not be checked. */
  lemma AtRest(requesters: set<string>, actions: seq<Action>, key: CaseKey)
    ensures var s := Run(Initial(requesters), actions);
      key in s.index.cases ==>
        var c := s.index.cases[key];
        c.owner.None? && !c.suspended && c.salesforceStatus != "Closed" && c.lastOutcome != ChecksFailed ==>
          c.pendingReplies == [] && DeliveredNow(c)
  {
    hide Inv, WellOrdered, CaseInv, Quiet;
    ReachedKeeps(requesters, actions);
    var s := Run(Initial(requesters), actions);
    if key in s.index.cases {
      InvCases(s);
      CaseFacts(s, key);
      IdleFacts(s.index.cases[key]);
    }
  }

  /** A failed check lets go of the case as it is: replies that overtook it stay queued with nobody driving. They are
      stranded if and only if a reply was accepted after the turn was taken. */
  lemma FailedCheckStrands(requesters: set<string>, actions: seq<Action>, t: Nonce)
    ensures var s := Run(Initial(requesters), actions);
      t in s.tasks && s.tasks[t].pc.Blocking? ==>
        && Owns(s, t) && s.tasks[t].key in StepCommit(s, t).index.cases
        && var c := StepCommit(s, t).index.cases[s.tasks[t].key];
        && c.owner == None && c.lastOutcome == ChecksFailed
        && (c.pendingReplies != [] <==> s.tasks[t].pc.turn < c.generation)
  {
    hide Inv, CaseInv, WellOrdered, HasCall, PendingCall, Quiet;
    ReachedKeeps(requesters, actions);
    var s := Run(Initial(requesters), actions);
    if t in s.tasks && s.tasks[t].pc.Blocking? {
      DriverOwns(s, t);
      OwnFacts(s, t);
    }
  }

  // ---------------------------------------------------------------- closure

  /** The delivery call whose message the requester confirmed, carrying the very findings the case is closed on. */
  ghost predicate AnswerSent(calls: seq<Call>, key: CaseKey, claimed: Case, g: nat) {
    && Delivery(g) in claimed.writes
    && exists j :: 0 <= j < |calls| && IsCall(calls[j], key, Delivery(g))
         && calls[j].nonce == claimed.writes[Delivery(g)].nonce && calls[j].context.Turn?
         && claimed.investigation == Some(calls[j].context.found) == calls[j].context.snapshot.investigation
  }

  ghost predicate AnswersInv(s: System) {
    && (forall i :: 0 <= i < |s.calls| && s.calls[i].WriteCall? && s.calls[i].name == Close ==>
          s.calls[i].context.Closure? && AnswerSent(s.calls[..i], s.calls[i].key, s.calls[i].claimed, s.calls[i].context.turn))
    && (forall t <- s.tasks :: s.tasks[t].pc.Invoking? && s.tasks[t].pc.name == Close ==>
          s.tasks[t].pc.context.Closure?
          && AnswerSent(s.calls, s.tasks[t].key, s.tasks[t].pc.claimed, s.tasks[t].pc.context.turn))
  }

  lemma JustifiedAnswer(s: System, key: CaseKey, g: nat, claimed: Case)
    requires CallsInv(s) && key in s.index.cases && Justified(s.index.cases[key], g)
    requires claimed.investigation == s.index.cases[key].investigation
    requires Delivery(g) in claimed.writes && claimed.writes[Delivery(g)] == s.index.cases[key].writes[Delivery(g)]
    ensures AnswerSent(s.calls, key, claimed, g)
  {
    hide ReadyFindings, PendingCall, SameEffect;
    assert HasCall(s.calls, key, Delivery(g));
    var j :| 0 <= j < |s.calls| && IsCall(s.calls[j], key, Delivery(g));
    assert CallInv(s.index, s.calls[j]);
  }

  lemma MoreAnswers(calls: seq<Call>, e: Call, key: CaseKey, claimed: Case, g: nat)
    requires AnswerSent(calls, key, claimed, g)
    ensures AnswerSent(calls + [e], key, claimed, g)
  {
    var more := calls + [e];
    assert forall i :: 0 <= i < |calls| ==> more[i] == calls[i];
  }

  /** Claiming a closure is the only way to start one. */
  lemma ClaimedAnswer(s: System, t: Nonce)
    requires Inv(s) && WellOrdered(s.index) && t in s.tasks && s.tasks[t].pc.Claiming? && s.tasks[t].pc.name == Close
    ensures var z := StepCommit(s, t);
      && t in z.tasks && z.calls == s.calls && z.tasks[t].key == s.tasks[t].key
      && (z.tasks[t].pc.Invoking? ==>
            && z.tasks[t].pc.name == Close && z.tasks[t].pc.context.Closure?
            && AnswerSent(z.calls, z.tasks[t].key, z.tasks[t].pc.claimed, z.tasks[t].pc.context.turn))
  {
    hide Inv, CaseInv, WellOrdered, CallsInv, PendingCall, HasCall, Quiet, AnswerSent;
    DriverOwns(s, t);
    OwnFacts(s, t);
    var c, pc := Own(s, t), s.tasks[t].pc;
    var e := ClaimEdit(c, Close, PinnedTo(pc.context), s.nextNonce, t, s.now);
    if e.Changed? {
      InvCases(s);
      JustifiedAnswer(s, s.tasks[t].key, pc.context.turn, e.record.(updatedAt := s.now));
    }
  }

  lemma InvokedAnswer(s: System, t: Nonce)
    requires AnswersInv(s) && WellOrdered(s.index) && t in s.tasks && s.tasks[t].pc.Invoking?
    ensures AnswersInv(Next(s, Invoke(t)))
  {
    hide AnswerSent, WellOrdered;
    var z := Next(s, Invoke(t));
    var e := z.calls[|s.calls|];
    forall i | 0 <= i < |z.calls| && z.calls[i].WriteCall? && z.calls[i].name == Close
      ensures z.calls[i].context.Closure? && AnswerSent(z.calls[..i], z.calls[i].key, z.calls[i].claimed, z.calls[i].context.turn)
    {
      if i < |s.calls| {
        assert z.calls[..i] == s.calls[..i] && z.calls[i] == s.calls[i];
      } else {
        assert z.calls[..i] == s.calls;
      }
    }
    forall u <- z.tasks | z.tasks[u].pc.Invoking? && z.tasks[u].pc.name == Close
      ensures z.tasks[u].pc.context.Closure?
              && AnswerSent(z.calls, z.tasks[u].key, z.tasks[u].pc.claimed, z.tasks[u].pc.context.turn)
    {
      MoreAnswers(s.calls, e, s.tasks[u].key, s.tasks[u].pc.claimed, s.tasks[u].pc.context.turn);
    }
  }

  lemma EmailedAnswer(s: System, t: Nonce, attempted: bool, sent: bool)
    requires AnswersInv(s) && WellOrdered(s.index) && t in s.tasks && s.tasks[t].pc.Emailing?
    ensures AnswersInv(Next(s, Email(t, attempted, sent)))
  {
    hide AnswerSent, WellOrdered;
    var z := Next(s, Email(t, attempted, sent));
    var e := EmailCall(s.tasks[t].key, s.tasks[t].pc.snapshot);
    forall i | 0 <= i < |z.calls| && z.calls[i].WriteCall? && z.calls[i].name == Close
      ensures z.calls[i].context.Closure? && AnswerSent(z.calls[..i], z.calls[i].key, z.calls[i].claimed, z.calls[i].context.turn)
    {
      assert z.calls[..i] == s.calls[..i] && z.calls[i] == s.calls[i];
    }
    forall u <- z.tasks | z.tasks[u].pc.Invoking? && z.tasks[u].pc.name == Close
      ensures z.tasks[u].pc.context.Closure?
              && AnswerSent(z.calls, z.tasks[u].key, z.tasks[u].pc.claimed, z.tasks[u].pc.context.turn)
    {
      if attempted {
        MoreAnswers(s.calls, e, s.tasks[u].key, s.tasks[u].pc.claimed, s.tasks[u].pc.context.turn);
      }
    }
  }

  /** A step that calls nobody, moves only its own handler and claims no closure. */
  ghost predicate Calm(s: System, z: System, t: Nonce) {
    && z.calls == s.calls && t in z.tasks && z.tasks == s.tasks[t := z.tasks[t]]
    && (z.tasks[t].pc.Invoking? && z.tasks[t].pc.name == Close ==> t in s.tasks && z.tasks[t] == s.tasks[t])
  }

  lemma CalmClaim(s: System, t: Nonce, name: WriteName, context: Context)
    requires Owns(s, t) && name != Close
    ensures Calm(s, StepClaim(s, t, name, context), t)
  {
    hide ClaimEdit;
  }

  lemma CalmComplete(s: System, t: Nonce, name: WriteName, nonce: Nonce, proof: Receipt, at: nat, context: Context)
    requires Owns(s, t)
    ensures Calm(s, StepComplete(s, t, name, nonce, proof, at, context), t)
  {
    hide CompleteEdit;
  }

  lemma CalmRegister(s: System, t: Nonce, proof: Receipt)
    requires Owns(s, t)
    ensures Calm(s, StepRegister(s, t, proof), t)
  {
    hide Collides, WithEvent;
  }

  lemma CalmTurn(s: System, t: Nonce, g: nat, found: Investigation, text: string)
    requires Owns(s, t)
    ensures Calm(s, StepTake(s, t), t) && Calm(s, StepRecord(s, t, g, found), t)
    ensures Calm(s, StepSaveChat(s, t, g, found, text), t) && Calm(s, StepDeliver(s, t, g, found, text), t)
    ensures Calm(s, StepSettle(s, t, g), t)
  {
    hide WithEvent, TakeEdit, InvestigatedEdit, DeliveredEdit, ClosedEdit;
  }

  lemma CalmNote(s: System, t: Nonce, g: nat, found: Investigation, snapshot: Case)
    requires Owns(s, t)
    ensures Calm(s, StepNote(s, t, g, found, snapshot), t)
  {
    hide WithEvent;
  }

  lemma CalmArrival(s: System, t: Nonce, m: Inbound, at: nat, intent: Intent, intentKey: Option<CaseKey>, b: bool)
    requires t in s.tasks && WellOrdered(s.index)
    ensures Calm(s, StepAccept(s, t, m, at, intent, intentKey), t)
    ensures Calm(s, StepAdmit(s, t, m.text, m.chatId, b), t) && Calm(s, StepAbort(s, t), t)
  {
    hide Accept, WellOrdered, NewCase, AbortEdit, WithEvent;
  }

  lemma CalmCommit(s: System, t: Nonce)
    requires WellOrdered(s.index) && t in s.tasks && !(s.tasks[t].pc.Claiming? && s.tasks[t].pc.name == Close)
    ensures Calm(s, StepCommit(s, t), t)
  {
    hide WellOrdered, StepAdmit, StepAccept, StepAbort, StepClaim, StepComplete, StepRegister, StepTake, StepRecord,
         StepSaveChat, StepNote, StepDeliver, StepSettle, WithEvent, Calm, Save, Goto;
    var pc := s.tasks[t].pc;
    CalmGoto(s, t);
    if pc.Admitting? {
      CalmArrival(s, t, Inbound("", pc.requesterId, "", pc.conversationId, "", None, false, false), 0, Information, None, pc.complete);
    } else if pc.Accepting? {
      CalmArrival(s, t, pc.msg, pc.receivedAt, pc.intent, pc.intentKey, true);
    } else if pc.Aborting? {
      CalmArrival(s, t, Inbound("", "", "", "", "", None, false, false), 0, Information, None, true);
    } else if Owns(s, t) {
      match pc {
        case Claiming(name, context) => CalmClaim(s, t, name, context);
        case Completing(name, nonce, proof, at, context) => CalmComplete(s, t, name, nonce, proof, at, context);
        case Registering(proof) => CalmRegister(s, t, proof);
        case Taking => CalmTurn(s, t, 0, Investigation(0, "", [], [], [], false), "");
        case Recording(g, found) => CalmTurn(s, t, g, found, "");
        case SavingChat(g, found, chatId) => CalmTurn(s, t, g, found, chatId);
        case Noting(g, found, snapshot) => CalmNote(s, t, g, found, snapshot);
        case Delivering(g, found, messageId) => CalmTurn(s, t, g, found, messageId);
        case Settling(g) => CalmTurn(s, t, g, Investigation(0, "", [], [], [], false), "");
        case _ =>
      }
    }
  }

  lemma CalmGoto(s: System, t: Nonce)
    requires t in s.tasks
    ensures forall pc: Pc :: !pc.Invoking? ==> Calm(s, Goto(s, t, pc), t)
    ensures forall pc: Pc, c :: !pc.Invoking? ==> Calm(s, Save(s, t, c, pc), t)
    ensures Calm(s, s, t)
  {
  }

  /** Any other step calls nobody and claims no closure. */
  lemma OtherSteps(s: System, a: Action)
    requires WellOrdered(s.index)
    requires !(a.Invoke? && a.task in s.tasks && s.tasks[a.task].pc.Invoking?)
    requires !(a.Email? && a.task in s.tasks && s.tasks[a.task].pc.Emailing?)
    requires !(a.Commit? && a.task in s.tasks && s.tasks[a.task].pc.Claiming? && s.tasks[a.task].pc.name == Close)
    ensures var z := Next(s, a);
      && z.calls == s.calls
      && (forall u <- z.tasks :: z.tasks[u].pc.Invoking? && z.tasks[u].pc.name == Close ==>
            u in s.tasks && s.tasks[u] == z.tasks[u])
  {
    hide WellOrdered, StepCommit, Opaque, Blank, ProvesWrite;
    if a.Commit? && a.task in s.tasks {
      CalmCommit(s, a.task);
    } else if a.Commit? {
      assert StepCommit(s, a.task) == s by { IdleCommit(s, a.task); }
    }
  }

  lemma IdleCommit(s: System, t: Nonce)
    requires WellOrdered(s.index) && t !in s.tasks
    ensures StepCommit(s, t) == s
  {
    hide WellOrdered;
  }

  lemma NextAnswers(s: System, a: Action)
    requires Inv(s) && WellOrdered(s.index) && AnswersInv(s)
    ensures AnswersInv(Next(s, a))
  {
    hide Inv, WellOrdered, AnswerSent;
    if a.Invoke? && a.task in s.tasks && s.tasks[a.task].pc.Invoking? {
      InvokedAnswer(s, a.task);
    } else if a.Email? && a.task in s.tasks && s.tasks[a.task].pc.Emailing? {
      EmailedAnswer(s, a.task, a.attempted, a.sent);
    } else if a.Commit? && a.task in s.tasks && s.tasks[a.task].pc.Claiming? && s.tasks[a.task].pc.name == Close {
      ClaimedAnswer(s, a.task);
      OthersStay(s, a.task);
    } else {
      OtherSteps(s, a);
    }
  }

  lemma OthersStay(s: System, t: Nonce)
    requires WellOrdered(s.index) && t in s.tasks && s.tasks[t].pc.Claiming?
    ensures forall u <- StepCommit(s, t).tasks :: u != t ==> u in s.tasks && StepCommit(s, t).tasks[u] == s.tasks[u]
  {
    hide WellOrdered, ClaimEdit;
  }

  lemma {:induction false} RunAnswers(s: System, actions: seq<Action>)
    requires Inv(s) && AnswersInv(s)
    ensures AnswersInv(Run(s, actions))
  {
    hide Inv, AnswersInv, Next;
    if actions != [] {
      var before := Run(s, actions[..|actions| - 1]);
      RunAnswers(s, actions[..|actions| - 1]);
      RunKeeps(s, actions[..|actions| - 1]);
      NextAnswers(before, actions[|actions| - 1]);
    }
  }

  /** A close goes out only on the requester's confirmation of the current answer: when it was claimed nothing had
      been accepted since that confirmation, the answer had gone out earlier in a call whose findings are the ones
      the case is closed on, the confirmed message is that call's receipt and came first, and every other write of
      the case had completed. */
  lemma ClosedOnlyOnConfirmation(requesters: set<string>, actions: seq<Action>, i: nat)
    ensures var s := Run(Initial(requesters), actions);
      i < |s.calls| && s.calls[i].WriteCall? && s.calls[i].name == Close ==>
        && s.calls[i].context.Closure?
        && var claimed, g := s.calls[i].claimed, s.calls[i].context.turn;
        && Justified(claimed, g)
        && AnswerSent(s.calls[..i], s.calls[i].key, claimed, g)
        && (forall other <- claimed.writes :: other != Close ==> claimed.writes[other].status == Completed)
  {
    hide CaseInv, TasksInv, CasesInv, SeparationInv, HasCall, PendingCall, Justified, AnswerSent, SameEffect;
    ReachedKeeps(requesters, actions);
    var s := Run(Initial(requesters), actions);
    InitialKeeps(requesters);
    RunAnswers(Initial(requesters), actions);
    if i < |s.calls| && s.calls[i].WriteCall? && s.calls[i].name == Close {
      assert CallInv(s.index, s.calls[i]);
    }
  }

  /** In every run, a closure whose notice has gone out ends closed and in service if nothing came in between, and every other
      one ends with a specialist; either way the case is let go and stays closed at Salesforce. */
  lemma ClosureEnds(requesters: set<string>, actions: seq<Action>, t: Nonce)
    ensures var s := Run(Initial(requesters), actions);
      t in s.tasks && s.tasks[t].pc.Notifying? ==>
        && Owns(s, t) && s.tasks[t].key in StepCommit(s, t).index.cases
        && var (was, g, told) := (Own(s, t), s.tasks[t].pc.turn, s.tasks[t].pc.told);
        && var c := StepCommit(s, t).index.cases[s.tasks[t].key];
        && c.owner == None && c.salesforceStatus == "Closed"
        && (c.status == Closed <==> told && was.generation == g && !was.suspended)
        && (c.status != Closed ==> c.status == NeedsSpecialistReview)
        && (c.suspended <==> c.status != Closed)
  {
    hide Inv, WellOrdered, StepCommit, Run, Initial;
    ReachedKeeps(requesters, actions);
    var s := Run(Initial(requesters), actions);
    if t in s.tasks && s.tasks[t].pc.Notifying? {
      NotifyingClosed(s, t);
      NotifiedOutcome(s, t);
    }
  }

  lemma NotifyingClosed(s: System, t: Nonce)
    requires Inv(s) && t in s.tasks && (s.tasks[t].pc.Notifying? || s.tasks[t].pc.Settling?)
    ensures Owns(s, t)
    ensures s.tasks[t].pc.Notifying? ==> Own(s, t).salesforceStatus == "Closed"
    ensures s.tasks[t].pc.Settling? ==> Own(s, t).closureReadback.Some? && Own(s, t).closureReadback.value.status == "Closed"
  {
    hide Inv, CaseInv, Quiet, AfterClose;
    DriverOwns(s, t);
    OwnFacts(s, t);
  }

  lemma NotifiedOutcome(s: System, t: Nonce)
    requires Owns(s, t) && s.tasks[t].pc.Notifying?
    ensures s.tasks[t].key in StepCommit(s, t).index.cases
    ensures var c, was := StepCommit(s, t).index.cases[s.tasks[t].key], Own(s, t);
      && c.owner == None && c.salesforceStatus == was.salesforceStatus && c.suspended == (c.status != Closed)
      && c.status == (if s.tasks[t].pc.told && was.generation == s.tasks[t].pc.turn && !was.suspended then Closed
                      else NeedsSpecialistReview)
  {
  }

  /** In every run, once Salesforce has read back the closure the case is closed there; it goes on to the notice, by
      way of an email exactly if the confirmation asked for one, only if nothing came in between, and is otherwise let go and handed to a specialist. */
  lemma ClosureIsSettled(requesters: set<string>, actions: seq<Action>, t: Nonce)
    ensures var s := Run(Initial(requesters), actions);
      t in s.tasks && s.tasks[t].pc.Settling? ==>
        && Owns(s, t) && s.tasks[t].key in StepCommit(s, t).index.cases
        && var (was, g) := (Own(s, t), s.tasks[t].pc.turn);
        && var c := StepCommit(s, t).index.cases[s.tasks[t].key];
        && was.closureReadback.Some? && was.closureReadback.value.status == "Closed"
        && c.salesforceStatus == "Closed" && c.resolution == None
        && (if was.generation == g && was.pendingReplies == [] && !was.suspended
            then c.owner == Some(t) && c.status == Closed && !c.suspended && c.lastOutcome == ClosureConfirmed
                 && EmailNext(StepCommit(s, t), t) == (was.confirmation.Some? && was.confirmation.value.email)
            else c.owner == None && c.status == NeedsSpecialistReview && c.suspended
                 && c.lastOutcome == ClosedWithNewMaterial)
  {
    hide Inv, WellOrdered, StepCommit, Run, Initial;
    ReachedKeeps(requesters, actions);
    var s := Run(Initial(requesters), actions);
    if t in s.tasks && s.tasks[t].pc.Settling? {
      NotifyingClosed(s, t);
      SettledOutcome(s, t);
    }
  }

  predicate EmailNext(s: System, t: Nonce) {
    t in s.tasks && s.tasks[t].pc.Emailing?
  }

  lemma SettledOutcome(s: System, t: Nonce)
    requires Owns(s, t) && s.tasks[t].pc.Settling?
    ensures s.tasks[t].key in StepCommit(s, t).index.cases
    ensures var c, was := StepCommit(s, t).index.cases[s.tasks[t].key], Own(s, t);
      && c.salesforceStatus == "Closed" && c.resolution == None
      && if was.generation == s.tasks[t].pc.turn && was.pendingReplies == [] && !was.suspended
         then c.owner == Some(t) && c.status == Closed && !c.suspended && c.lastOutcome == ClosureConfirmed
              && EmailNext(StepCommit(s, t), t) == (was.confirmation.Some? && was.confirmation.value.email)
         else c.owner == None && c.status == NeedsSpecialistReview && c.suspended && c.lastOutcome == ClosedWithNewMaterial
  {
  }

  /** A free-text message with news in it takes back the authority to close and takes the case out of the confirmed
      state. */
  lemma MaterialEndsTheTurn(c: Case, m: Inbound, at: nat, intent: Intent, t: Nonce)
    requires !m.resolve
    requires intent == Information || (intent != SmallTalk && !CanResolve(c.(activities := c.activities + [KeyOf(m)]), at))
    ensures var d := AcceptEdit(c, m, at, intent, t).0;
      d.resolution.None? && !Live(d, c.generation)
  {
    hide CanResolve;
  }

  /** Once a case has left a confirmed turn, the closure of that turn can no longer be claimed, whatever happens
      in between: the handler drives the new material instead. */
  lemma MaterialPreventsClose(s: System, actions: seq<Action>, t: Nonce, key: CaseKey, g: nat)
    requires Inv(s) && key in s.index.cases && g <= s.index.cases[key].generation && !Live(s.index.cases[key], g)
    ensures var z := Run(s, actions);
      (t in z.tasks && z.tasks[t] == Task(key, Claiming(Close, Closure(g))) ==>
        && Owns(z, t) && Close !in Own(z, t).writes
        && var y := StepCommit(z, t);
        && y.index == z.index && t in y.tasks && y.tasks[t].pc == Taking)
  {
    hide Inv, CaseInv, WellOrdered, HasCall, PendingCall, Justified;
    var z := Run(s, actions);
    RunKeeps(s, actions);
    NothingIsForgotten(s, actions);
    assert Grows(s.index.cases[key], z.index.cases[key]);
    if t in z.tasks && z.tasks[t] == Task(key, Claiming(Close, Closure(g))) {
      DriverOwns(z, t);
      OwnFacts(z, t);
    }
  }

  // ---------------------------------------------------------------- replays, drivers, references

  /** A recorded activity belongs to one case, and handling it again changes nothing: whatever case marker it now
      carries, whatever its text is read to mean, it is only reported as handled where it was first recorded. */
  lemma ReplaysChangeNothing(requesters: set<string>, actions: seq<Action>, t: Nonce, holder: CaseKey, m: Inbound,
                             at: nat, intent: Intent, intentKey: Option<CaseKey>)
    ensures var s := Run(Initial(requesters), actions);
      t in s.tasks && holder in s.index.cases && KeyOf(m) in s.index.cases[holder].activities ==>
        && Holders(s.index, KeyOf(m)) == {holder}
        && StepAccept(s, t, m, at, intent, intentKey).index == s.index
        && var a := Accept(s.index, m, at, intent, intentKey, t);
        && a.step == Ignore && (a.handled <==> a.key == Some(holder))
  {
    hide CaseInv, TasksInv, CallsInv, CasesInv, AcceptEdit, WellOrdered;
    ReachedKeeps(requesters, actions);
    var s := Run(Initial(requesters), actions);
    if t in s.tasks && holder in s.index.cases && KeyOf(m) in s.index.cases[holder].activities {
      assert holder in Holders(s.index, KeyOf(m));
      assert Holders(s.index, KeyOf(m)) == {holder};
    }
  }

  /** One live driver per case: whoever is past admission or acceptance owns its case, and nobody else drives it. */
  lemma OneLiveDriver(requesters: set<string>, actions: seq<Action>, t: Nonce, u: Nonce)
    ensures var s := Run(Initial(requesters), actions);
      t in s.tasks && u in s.tasks && Driving(s.tasks[t].pc) && Driving(s.tasks[u].pc) && s.tasks[t].key == s.tasks[u].key
      ==> t == u && Owns(s, t)
  {
    hide CaseInv, CallsInv, CasesInv, SeparationInv, PcInv, WellOrdered;
    ReachedKeeps(requesters, actions);
    var s := Run(Initial(requesters), actions);
    if t in s.tasks && u in s.tasks && Driving(s.tasks[t].pc) && Driving(s.tasks[u].pc) {
      DriverOwns(s, t);
      if t != u {
        OneDriver(s, t, u);
      }
    }
  }

  /** No two cases in service share a Salesforce case: a second registration under a known reference is suspended. */
  lemma ReferencesAreUnique(requesters: set<string>, actions: seq<Action>, a: CaseKey, b: CaseKey)
    ensures var x := Run(Initial(requesters), actions).index;
      a in x.cases && b in x.cases && a != b && x.cases[a].caseId != "" && x.cases[b].caseId != ""
      && !x.cases[a].suspended && !x.cases[b].suspended
      ==> x.cases[a].caseId != x.cases[b].caseId && x.cases[a].caseNumber != x.cases[b].caseNumber
  {
    hide CaseInv, CallsInv, CasesInv, TasksInv, WellOrdered;
    ReachedKeeps(requesters, actions);
  }
}
