/** Who is at work on an owned case: its owner's handler, unless that handler was lost. */
module ComplianceOwners {
  import opened Options
  import opened ComplianceRecord
  import opened ComplianceIndex
  import opened ComplianceProtocol
  import opened ComplianceInvariant
  import opened ComplianceSteps
  import opened ComplianceEdits
  import opened ComplianceArrivals
  import opened ComplianceRuns
  import opened ComplianceGrowth
  import opened ComplianceWorks
  import opened ComplianceProgress
  import opened ComplianceStranding
  import opened ComplianceTheorems

  /** Handler `t` is there, on this case, and still has something to do. */
  predicate Manned(s: System, key: CaseKey, t: Nonce) {
    t in s.tasks && s.tasks[t].key == key && (Driving(s.tasks[t].pc) || s.tasks[t].pc.Aborting?)
  }

  /** The case is in service and owned by `t`. */
  predicate OwnedBy(s: System, key: CaseKey, t: Nonce) {
    key in s.index.cases && s.index.cases[key].owner == Some(t) && !s.index.cases[key].suspended
  }

  // ---------------------------------------------------------------- every step

  lemma AcceptedManned(s: System, r: System, u: Nonce, k: CaseKey, d: Case, step: Step, key: CaseKey, t: Nonce)
    requires Accepts(s, r, u, k, d, step) && OwnedBy(r, key, t) && (OwnedBy(s, key, t) ==> Manned(s, key, t))
    ensures Manned(r, key, t)
  {
  }

  lemma AcceptManned(s: System, u: Nonce, key: CaseKey, t: Nonce)
    requires u in s.tasks && s.tasks[u].pc.Accepting?
    requires OwnedBy(StepCommit(s, u), key, t) && (OwnedBy(s, key, t) ==> Manned(s, key, t))
    ensures Manned(StepCommit(s, u), key, t)
  {
    hide Accepts, StepCommit;
    AcceptShape(s, u);
    var r := StepCommit(s, u);
    if k, d, step :| Accepts(s, r, u, k, d, step) {
      AcceptedManned(s, r, u, k, d, step, key, t);
    }
  }

  lemma AdmitManned(s: System, u: Nonce, key: CaseKey, t: Nonce)
    requires u in s.tasks && s.tasks[u].pc.Admitting?
    requires OwnedBy(StepCommit(s, u), key, t) && (OwnedBy(s, key, t) ==> Manned(s, key, t))
    ensures Manned(StepCommit(s, u), key, t)
  {
  }

  /** Handlers that move without a store update. */
  lemma QuietManned(s: System, a: Action, key: CaseKey, t: Nonce)
    requires !a.Commit? && a != Crash(t) && Manned(s, key, t) && (forall u <- s.tasks :: u < s.nextNonce)
    ensures Manned(Next(s, a), key, t) && Next(s, a).index == s.index
  {
    hide Opaque, Blank, ProvesWrite, Project;
  }

  lemma TaskNonces(s: System)
    requires Inv(s)
    ensures forall u <- s.tasks :: u < s.nextNonce
  {
    hide CasesInv, CallsInv, SeparationInv, PcInv, Arriving;
    forall u | u in s.tasks ensures u < s.nextNonce {
      assert TaskInv(s, u);
    }
  }

  lemma CommitManned(s: System, u: Nonce, key: CaseKey, t: Nonce)
    requires Inv(s) && OwnedBy(StepCommit(s, u), key, t) && (OwnedBy(s, key, t) ==> Manned(s, key, t))
    ensures Manned(StepCommit(s, u), key, t)
  {
    hide Inv, StepCommit, Works, Manned, OwnedBy;
    if u !in s.tasks {
      NobodyMoves(s, u);
    } else if s.tasks[u].pc.Admitting? {
      AdmitManned(s, u, key, t);
    } else if s.tasks[u].pc.Accepting? {
      AcceptManned(s, u, key, t);
    } else if s.tasks[u].pc.Aborting? {
      AbortManned(s, u, key, t);
    } else if Driving(s.tasks[u].pc) {
      DriverOwns(s, u);
      DriverWorks(s, u);
      WorkedManned(s, StepCommit(s, u), u, key, t);
    } else {
      NobodyMoves(s, u);
    }
  }

  /** The driver that moved may be the owner; for any other case nothing has changed. */
  lemma WorkedManned(s: System, r: System, u: Nonce, key: CaseKey, t: Nonce)
    requires Works(s, r, u) && Owns(s, u) && OwnedBy(r, key, t) && (OwnedBy(s, key, t) ==> Manned(s, key, t))
    ensures Manned(r, key, t)
  {
    hide Driving;
  }

  lemma AbortManned(s: System, u: Nonce, key: CaseKey, t: Nonce)
    requires u in s.tasks && s.tasks[u].pc.Aborting?
    requires OwnedBy(StepCommit(s, u), key, t) && (OwnedBy(s, key, t) ==> Manned(s, key, t))
    ensures Manned(StepCommit(s, u), key, t)
  {
    hide MarkUnknown;
  }

  lemma NextManned(s: System, a: Action, key: CaseKey, t: Nonce)
    requires Inv(s) && WellOrdered(s.index) && a != Crash(t)
    requires OwnedBy(Next(s, a), key, t) && (OwnedBy(s, key, t) ==> Manned(s, key, t))
    ensures Manned(Next(s, a), key, t)
  {
    hide Inv, StepCommit, Manned, WellOrdered;
    if a.Commit? {
      CommitManned(s, a.task, key, t);
    } else {
      hide Next;
      QuietIndex(s, a);
      TaskNonces(s);
      QuietManned(s, a, key, t);
    }
  }

  // ---------------------------------------------------------------- every run

  /** Handler `t` was lost in step `n` of the run: its process stopped, or not even its failure could be recorded. */
  predicate LostAt(requesters: set<string>, actions: seq<Action>, n: nat, t: Nonce)
    requires n < |actions|
  {
    actions[n] == Crash(t) && t in Run(Initial(requesters), actions[..n]).tasks
  }

  lemma LostLonger(requesters: set<string>, before: seq<Action>, a: Action, n: nat, t: Nonce)
    requires n < |before|
    ensures LostAt(requesters, before + [a], n, t) <==> LostAt(requesters, before, n, t)
  {
    hide Run, Initial;
    assert (before + [a])[..n] == before[..n];
  }

  /** The number of a lost handler is never given out again. */
  ghost predicate Gone(s: System, t: Nonce) {
    t !in s.tasks && t < s.nextNonce
  }

  lemma NextGone(s: System, a: Action, t: Nonce)
    requires Gone(s, t)
    ensures Gone(Next(s, a), t)
  {
    hide Opaque, Blank, ProvesWrite, Project, StepCommit;
    if a.Commit? { CommitTasks(s, a.task); }
  }

  lemma CommitTasks(s: System, u: Nonce)
    ensures StepCommit(s, u).tasks.Keys == s.tasks.Keys && StepCommit(s, u).nextNonce >= s.nextNonce
  {
    hide WithEvent, Accept, ClaimEdit, CompleteEdit, InvestigatedEdit, DeliveredEdit, ClosedEdit, TakeEdit, AbortEdit,
         NotifiedEdit, NewCase, Collides, AfterWrite, AfterFindings, Edits, Owns;
    if u in s.tasks && !Owns(s, u) {
      hide StepClaim, StepComplete, StepRegister, StepTake, StepRecord, StepSaveChat, StepNote, StepDeliver, StepSettle;
    }
  }

  /** In every run and at any time: a case in service whose owner's handler is not at work on it is exactly one whose
      owner was lost. */
  lemma {:induction false} OwnerIsAtWorkOrLost(requesters: set<string>, actions: seq<Action>, key: CaseKey, t: Nonce)
    requires OwnedBy(Run(Initial(requesters), actions), key, t)
    ensures !Manned(Run(Initial(requesters), actions), key, t) <==>
            exists n :: 0 <= n < |actions| && LostAt(requesters, actions, n, t)
  {
    hide Inv, Next, Manned, WellOrdered, Initial, LostAt, OwnedBy;
    if actions == [] {
      NobodyYet(requesters, key, t);
    } else {
      var (before, a) := (actions[..|actions| - 1], actions[|actions| - 1]);
      var s := Run(Initial(requesters), before);
      assert actions == before + [a];
      ReachedKeeps(requesters, before);
      forall n | 0 <= n < |before| ensures LostAt(requesters, actions, n, t) <==> LostAt(requesters, before, n, t) {
        LostLonger(requesters, before, a, n, t);
      }
      if exists n :: 0 <= n < |actions| && LostAt(requesters, actions, n, t) {
        LostIsGone(requesters, actions, t);
        GoneIsNotManned(Next(s, a), key, t);
      } else {
        NotLostNow(requesters, before, a, t);
        if OwnedBy(s, key, t) { OwnerIsAtWorkOrLost(requesters, before, key, t); }
        if a == Crash(t) {
          IdleCrash(s, t);
        } else {
          NextManned(s, a, key, t);
        }
      }
    }
  }

  /** So a reply queued on a case in service is being attended to, unless the records could not be checked, exactly as long
      as the owner has not been lost. */
  lemma QueuedRepliesAreAttended(requesters: set<string>, actions: seq<Action>, key: CaseKey)
    ensures var s := Run(Initial(requesters), actions);
      key in s.index.cases ==>
        var c := s.index.cases[key];
        !c.suspended && c.salesforceStatus != "Closed" && c.lastOutcome != ChecksFailed && c.pendingReplies != [] ==>
          && c.owner.Some?
          && (Manned(s, key, c.owner.value) <==>
              !exists n :: 0 <= n < |actions| && LostAt(requesters, actions, n, c.owner.value))
  {
    hide Run, Initial, Manned, LostAt, DeliveredNow;
    AtRest(requesters, actions, key);
    var s := Run(Initial(requesters), actions);
    if key in s.index.cases && s.index.cases[key].owner.Some? && !s.index.cases[key].suspended {
      OwnerIsAtWorkOrLost(requesters, actions, key, s.index.cases[key].owner.value);
    }
  }

  lemma NobodyYet(requesters: set<string>, key: CaseKey, t: Nonce)
    ensures !OwnedBy(Initial(requesters), key, t)
  {
  }

  lemma GoneIsNotManned(s: System, key: CaseKey, t: Nonce)
    requires Gone(s, t)
    ensures !Manned(s, key, t)
  {
  }

  lemma NotLostNow(requesters: set<string>, before: seq<Action>, a: Action, t: Nonce)
    requires !(exists n :: 0 <= n < |before + [a]| && LostAt(requesters, before + [a], n, t))
    ensures a == Crash(t) ==> t !in Run(Initial(requesters), before).tasks
  {
    hide Run, Initial;
    assert (before + [a])[..|before|] == before;
    assert !LostAt(requesters, before + [a], |before|, t);
  }

  lemma IdleCrash(s: System, t: Nonce)
    requires t !in s.tasks
    ensures Next(s, Crash(t)) == s
  {
  }

  lemma {:induction false} LostIsGone(requesters: set<string>, actions: seq<Action>, t: Nonce)
    requires exists n :: 0 <= n < |actions| && LostAt(requesters, actions, n, t)
    ensures Gone(Run(Initial(requesters), actions), t)
  {
    hide Inv, Next, WellOrdered, Initial, LostAt, Gone;
    var (before, a) := (actions[..|actions| - 1], actions[|actions| - 1]);
    var s := Run(Initial(requesters), before);
    assert actions == before + [a];
    if n :| 0 <= n < |before| && LostAt(requesters, before, n, t) {
      LostIsGone(requesters, before, t);
      NextGone(s, a, t);
    } else {
      forall n | 0 <= n < |before| ensures !LostAt(requesters, actions, n, t) {
        LostLonger(requesters, before, a, n, t);
      }
      assert LostAt(requesters, actions, |before|, t);
      ReachedKeeps(requesters, before);
      TaskNonces(s);
      CrashedIsGone(requesters, before, a, t);
    }
  }

  lemma CrashedIsGone(requesters: set<string>, before: seq<Action>, a: Action, t: Nonce)
    requires LostAt(requesters, before + [a], |before|, t)
    requires forall u <- Run(Initial(requesters), before).tasks :: u < Run(Initial(requesters), before).nextNonce
    ensures Gone(Next(Run(Initial(requesters), before), a), t)
  {
    hide Run, Initial;
    assert (before + [a])[..|before|] == before;
  }

  // ---------------------------------------------------------------- a lost owner is for good

  /** The owner of the case is gone. */
  ghost predicate Deserted(s: System, key: CaseKey, t: Nonce) {
    key in s.index.cases && s.index.cases[key].owner == Some(t) && Gone(s, t)
  }

  ghost predicate Unworked(c: Case, d: Case) {
    d.owner == c.owner && d.writes == c.writes && c.pendingReplies <= d.pendingReplies
  }

  lemma NextDeserted(s: System, a: Action, key: CaseKey, t: Nonce)
    requires Inv(s) && Deserted(s, key, t)
    ensures Deserted(Next(s, a), key, t) && Unworked(s.index.cases[key], Next(s, a).index.cases[key])
  {
    hide Inv, Gone, StepCommit;
    NextGone(s, a, t);
    if a.Commit? {
      CommitDeserted(s, a.task, key, t);
    } else {
      hide Next;
      QuietIndex(s, a);
    }
  }

  lemma SameUnworked(c: Case)
    ensures Unworked(c, c)
  {
  }

  lemma CommitDeserted(s: System, u: Nonce, key: CaseKey, t: Nonce)
    requires Inv(s) && Deserted(s, key, t)
    ensures var r := StepCommit(s, u); key in r.index.cases && Unworked(s.index.cases[key], r.index.cases[key])
  {
    hide Inv, StepCommit, Moves;
    if u !in s.tasks {
      NobodyMoves(s, u);
    } else if s.tasks[u].pc.Admitting? {
      AdmitDeserted(s, u, key);
    } else if s.tasks[u].pc.Accepting? {
      AcceptDeserted(s, u, key);
    } else if s.tasks[u].pc.Aborting? {
      AbortDeserted(s, u, key, t);
    } else if Driving(s.tasks[u].pc) {
      DriverOwns(s, u);
      DriverWorks(s, u);
      OthersUnworked(s, StepCommit(s, u), u, key);
    } else {
      NobodyMoves(s, u);
    }
  }

  lemma OthersUnworked(s: System, r: System, u: Nonce, key: CaseKey)
    requires Works(s, r, u) && key in s.index.cases && key != s.tasks[u].key
    ensures key in r.index.cases && r.index.cases[key] == s.index.cases[key]
  {
  }

  lemma AcceptDeserted(s: System, u: Nonce, key: CaseKey)
    requires u in s.tasks && s.tasks[u].pc.Accepting? && key in s.index.cases && s.index.cases[key].owner.Some?
    ensures var r := StepCommit(s, u); key in r.index.cases && Unworked(s.index.cases[key], r.index.cases[key])
  {
    hide StepCommit;
    AcceptShape(s, u);
  }

  lemma AdmitDeserted(s: System, u: Nonce, key: CaseKey)
    requires u in s.tasks && s.tasks[u].pc.Admitting? && key in s.index.cases
    ensures var r := StepCommit(s, u); key in r.index.cases && r.index.cases[key] == s.index.cases[key]
  {
    hide NewCase;
  }

  lemma AbortDeserted(s: System, u: Nonce, key: CaseKey, t: Nonce)
    requires u in s.tasks && s.tasks[u].pc.Aborting? && Deserted(s, key, t)
    ensures var r := StepCommit(s, u); key in r.index.cases && r.index.cases[key] == s.index.cases[key]
  {
    hide MarkUnknown;
  }

  /** Once its owner is lost, a case is never worked again, whatever happens: no write is claimed or completed,
      and every reply accepted for it stays queued. */
  lemma {:induction false} LostOwnerIsForGood(s: System, actions: seq<Action>, key: CaseKey, t: Nonce)
    requires Inv(s) && Deserted(s, key, t)
    ensures var z := Run(s, actions);
      Deserted(z, key, t) && Unworked(s.index.cases[key], z.index.cases[key])
  {
    hide Inv, Next, Deserted, WellOrdered;
    DesertedHas(s, key, t);
    if actions == [] {
      SameUnworked(s.index.cases[key]);
    } else {
      var y := Run(s, actions[..|actions| - 1]);
      LostOwnerIsForGood(s, actions[..|actions| - 1], key, t);
      RunKeeps(s, actions[..|actions| - 1]);
      NextDeserted(y, actions[|actions| - 1], key, t);
      DesertedHas(y, key, t);
      DesertedHas(Next(y, actions[|actions| - 1]), key, t);
    }
  }

  lemma DesertedHas(s: System, key: CaseKey, t: Nonce)
    requires Deserted(s, key, t)
    ensures key in s.index.cases
  {
  }

  /** It does happen: after the first answer a reply is queued, and the driver's process is lost before it looks again;
      the reply is never taken, in any continuation. */
  lemma RepliesOfALostOwnerWaitForever(requesters: set<string>, messageId: string, conversationId: string, requesterId: string,
                                       id: string, number: string, chatId: string, answerId: string, found: Findings, m: Inbound)
    requires Acceptable(requesters, messageId, conversationId, requesterId) && IsReference(id) && IsReference(number)
    requires Opaque(chatId) && Opaque(answerId) && News(m, requesterId, chatId)
    ensures exists actions :: forall more: seq<Action> ::
              var z := Run(Run(Initial(requesters), actions), more);
              && CaseKey(messageId) in z.index.cases
              && z.index.cases[CaseKey(messageId)].pendingReplies != [] && z.index.cases[CaseKey(messageId)].owner == Some(0)
  {
    hide Opaque, IsReference, Answered, Checks, Project, Next, Initial, Run, Moved, Leads, News, Acceptable, Inv, WellOrdered;
    var (s0, key) := (Initial(requesters), CaseKey(messageId));
    var s2, d := FirstAnswer(requesters, messageId, conversationId, requesterId, id, number, chatId, answerId, found);
    var s3, e := ReplyIsQueued(s2, key, d, Taking, m);
    Via(s0, s2, s3);
    Then(s0, s3, Crash(0));
    var s4 := Next(s3, Crash(0));
    DriverLost(s3, key, e);
    LeadsByRun(s0, s4);
    var actions :| Run(s0, actions) == s4;
    ReachedKeeps(requesters, actions);
    forall more: seq<Action>
      ensures var z := Run(Run(s0, actions), more);
        key in z.index.cases && z.index.cases[key].pendingReplies != [] && z.index.cases[key].owner == Some(0)
    {
      LostOwnerIsForGood(s4, more, key, 0);
    }
  }

  lemma DriverLost(s: System, key: CaseKey, c: Case)
    requires s.index == Index([key], map[key := c]) && c.owner == Some(0) && s.nextNonce > 0
    ensures Deserted(Next(s, Crash(0)), key, 0) && Next(s, Crash(0)).index == s.index
  {
  }
}
