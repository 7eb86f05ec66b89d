/** What each commit does to the record it writes: its owner, the words of the requester and the findings. */
module ComplianceWorks {
  import opened Options
  import opened ComplianceRecord
  import opened ComplianceIndex
  import opened ComplianceProtocol
  import opened ComplianceInvariant
  import opened ComplianceSteps
  import opened ComplianceEdits
  import opened ComplianceArrivals
  import opened ComplianceRuns

  // ---------------------------------------------------------------- a driver's commit

  /** Handler `u` has moved, and only its own case can have changed. */
  ghost predicate Moves(s: System, r: System, u: Nonce) {
    && u in s.tasks && u in r.tasks && r.tasks[u].key == s.tasks[u].key && r.tasks == s.tasks[u := r.tasks[u]]
    && r.index.cases.Keys == s.index.cases.Keys
    && (forall k <- s.index.cases :: k != s.tasks[u].key ==> r.index.cases[k] == s.index.cases[k])
  }

  /** What the requester has said, and which of it is being worked on. */
  predicate SameWords(c: Case, d: Case) {
    && d.generation == c.generation && d.replyHistory == c.replyHistory && d.pendingReplies == c.pendingReplies
    && d.work == c.work && d.latestReply == c.latestReply
  }

  /** The oldest pending reply becomes the work, or the case is let go. */
  predicate TakesWork(c: Case, d: Case) {
    && d.generation == c.generation && d.replyHistory == c.replyHistory
    && if d.work.None? then d.pendingReplies == c.pendingReplies && d.latestReply == c.latestReply && d.owner.None?
       else
         && c.pendingReplies != [] && d.work == Some(c.pendingReplies[0]) && d.pendingReplies == c.pendingReplies[1..]
         && d.latestReply == if c.pendingReplies[0].text != "" then d.work else None
  }

  /** The findings on file, with the last four before them. */
  predicate SameFindings(c: Case, d: Case) {
    d.investigation == c.investigation && d.investigationHistory == c.investigationHistory
  }

  predicate FilesFindings(c: Case, d: Case, found: Investigation) {
    && d.investigation == Some(found)
    && var all := c.investigationHistory + [found];
    && d.investigationHistory == if |all| <= 4 then all else all[|all| - 4..]
  }

  /** The last contact is the delivery that just came back. */
  predicate Contacts(c: Case, d: Case, was: Pc) {
    && was.Delivering? && Delivery(was.turn) in c.writes
    && d.lastDelivery == Some(Contact(was.turn, was.messageId, c.writes[Delivery(was.turn)].completedAt))
  }

  /** At program point `was` a driver turns record `c` into `d`. */
  predicate Handles(c: Case, d: Case, was: Pc) {
    && (if was.Taking? then SameWords(c, d) || TakesWork(c, d) else SameWords(c, d))
    && (SameFindings(c, d) || (was.Recording? && FilesFindings(c, d, was.found)))
    && d.inputComplete == c.inputComplete && d.confirmation == c.confirmation
    && d.closureReadback == (if was.SavingStatus? then Some(Readback(was.status, was.at)) else c.closureReadback)
    && (if was.Delivering? && Delivery(was.turn) in c.writes then Contacts(c, d, was) else d.lastDelivery == c.lastDelivery)
  }

  /** How the driver gets to the points of a turn, and what a claim hands out. */
  predicate Follows(d: Case, was: Pc, pc: Pc) {
    && (pc.Starting? ==> was.Taking? && d.work.Some? && d.work.value.generation == pc.turn == d.generation
                         && pc.inputComplete == d.inputComplete)
    && (pc.Checking? ==> was == Starting(pc.turn, pc.inputComplete) || was == pc)
    && !pc.Recording? && !pc.SavingStatus?
    && (pc.Invoking? ==> was == pc || pc.claimed == d)
    && (pc.Emailing? ==> was == pc || (pc.snapshot == d && d.confirmation.Some? && d.confirmation.value.email))
  }

  /** A driver that is done no longer owns its case. */
  predicate Holds(d: Case, u: Nonce, pc: Pc) {
    && (d.owner == Some(u) || d.owner == None)
    && (Driving(pc) || pc.Aborting? || (pc.Done? && d.owner == None))
  }

  predicate Fit(c: Case, d: Case, u: Nonce, was: Pc, pc: Pc) {
    Holds(d, u, pc) && Handles(c, d, was) && Follows(d, was, pc)
  }

  /** Driver `u` has moved, and only its own case can have changed, as its program says. */
  ghost predicate Works(s: System, r: System, u: Nonce) {
    && Moves(s, r, u) && s.tasks[u].key in s.index.cases
    && Fit(s.index.cases[s.tasks[u].key], r.index.cases[s.tasks[u].key], u, s.tasks[u].pc, r.tasks[u].pc)
  }

  lemma SaveWorks(s: System, u: Nonce, d: Case, pc: Pc, n: Nonce)
    requires Owns(s, u) && Fit(Own(s, u), d, u, s.tasks[u].pc, pc)
    ensures Works(s, Save(s, u, d, pc).(nextNonce := n), u)
  {
    hide Fit;
    OverwriteKeys(s.index.cases, s.tasks[u].key, d);
  }

  lemma GotoWorks(s: System, u: Nonce, pc: Pc, n: Nonce)
    requires Owns(s, u) && (Driving(pc) || pc.Aborting?) && Follows(Own(s, u), s.tasks[u].pc, pc)
    requires !s.tasks[u].pc.SavingStatus?
    requires s.tasks[u].pc.Delivering? ==> Delivery(s.tasks[u].pc.turn) !in Own(s, u).writes
    ensures Works(s, Goto(s, u, pc).(nextNonce := n), u)
  {
    hide Driving, Follows;
  }

  /** An event changes nothing but the timeline. */
  lemma EventOnly(c: Case, kind: string, at: nat)
    ensures var d := WithEvent(c, kind, at); d == c.(sequence := d.sequence, timeline := d.timeline, updatedAt := d.updatedAt)
  {
  }

  lemma EventFits(c: Case, d: Case, u: Nonce, was: Pc, pc: Pc, kind: string, at: nat)
    requires Fit(c, d, u, was, pc) && !pc.Invoking? && !pc.Emailing?
    ensures Fit(c, WithEvent(d, kind, at), u, was, pc)
  {
    hide WithEvent, Driving;
    EventOnly(d, kind, at);
  }

  lemma SavedEvent(s: System, u: Nonce, d: Case, kind: string, pc: Pc)
    requires Owns(s, u) && Fit(Own(s, u), d, u, s.tasks[u].pc, pc) && !pc.Invoking? && !pc.Emailing?
    ensures Works(s, Save(s, u, WithEvent(d, kind, s.now), pc), u)
  {
    hide Works, WithEvent, Fit;
    EventFits(Own(s, u), d, u, s.tasks[u].pc, pc, kind, s.now);
    SaveWorks(s, u, WithEvent(d, kind, s.now), pc, s.nextNonce);
  }

  lemma ClaimFits(c: Case, name: WriteName, context: Context, nonce: Nonce, u: Nonce, at: nat)
    requires c.owner == Some(u)
    ensures var e := ClaimEdit(c, name, PinnedTo(context), nonce, u, at);
      e.Changed? ==> var d := e.record.(updatedAt := at);
                     Fit(c, d, u, Claiming(name, context), Invoking(name, nonce, d, context))
  {
    hide AllCompleted;
  }

  lemma ClaimWorks(s: System, u: Nonce, name: WriteName, context: Context)
    requires Owns(s, u) && s.tasks[u].pc == Claiming(name, context)
    ensures Works(s, StepClaim(s, u, name, context), u)
  {
    hide Works, Save, Goto, ClaimEdit, Fit;
    var nonce := s.nextNonce;
    ClaimFits(Own(s, u), name, context, nonce, u, s.now);
    match ClaimEdit(Own(s, u), name, PinnedTo(context), nonce, u, s.now) {
      case Raised =>
        GotoWorks(s, u, Aborting, nonce + 1);
        LaterGoto(s, u, Aborting, nonce + 1);
      case Untouched =>
        var pc := match context case Registration => Aborting case Turn(_, _, _) => Taking case Closure(_) => Taking
                                case Farewell(g, _, _, _) => Notifying(g, false);
        GotoWorks(s, u, pc, nonce + 1);
        LaterGoto(s, u, pc, nonce + 1);
      case Changed(c) =>
        var d, pc := c.(updatedAt := s.now), Invoking(name, nonce, c.(updatedAt := s.now), context);
        SaveWorks(s, u, d, pc, nonce + 1);
        LaterSave(s, u, d, pc, nonce + 1);
    }
  }

  lemma LaterGoto(s: System, u: Nonce, pc: Pc, n: Nonce)
    requires u in s.tasks
    ensures Goto(s.(nextNonce := n), u, pc) == Goto(s, u, pc).(nextNonce := n)
  {
  }

  lemma LaterSave(s: System, u: Nonce, d: Case, pc: Pc, n: Nonce)
    requires u in s.tasks
    ensures Save(s.(nextNonce := n), u, d, pc) == Save(s, u, d, pc).(nextNonce := n)
  {
  }

  lemma CompleteWorks(s: System, u: Nonce, name: WriteName, nonce: Nonce, proof: Receipt, at: nat, context: Context)
    requires Owns(s, u) && s.tasks[u].pc == Completing(name, nonce, proof, at, context)
    ensures Works(s, StepComplete(s, u, name, nonce, proof, at, context), u)
  {
    hide Works, AfterWrite;
    AfterWriteGoesOn(name, proof, context);
    match CompleteEdit(Own(s, u), name, nonce, u, proof, at) {
      case Changed(c) => SaveWorks(s, u, c.(updatedAt := s.now), AfterWrite(name, proof, context), s.nextNonce);
      case _ => GotoWorks(s, u, Aborting, s.nextNonce);
    }
  }

  lemma AfterWriteGoesOn(name: WriteName, proof: Receipt, context: Context)
    ensures var pc := AfterWrite(name, proof, context);
      (Driving(pc) || pc.Aborting?) && Elsewhere(pc)
  {
  }

  lemma RegisterWorks(s: System, u: Nonce, proof: Receipt)
    requires Owns(s, u) && s.tasks[u].pc == Registering(proof)
    ensures Works(s, StepRegister(s, u, proof), u)
  {
    hide Works, WithEvent;
    var c := Own(s, u);
    if !proof.Reference? || Create !in c.writes || c.writes[Create].receipt != Some(proof) {
      GotoWorks(s, u, Aborting, s.nextNonce);
    } else {
      var collision := Collides(s.index, s.tasks[u].key, proof);
      hide Collides;
      var d := c.(caseId := proof.id, caseNumber := proof.number,
                  status := if collision then WriteOutcomeUnknown else Investigating, suspended := collision);
      SavedEvent(s, u, d, if collision then "case_reference_collision" else "case_registered",
                 if collision then Aborting else Taking);
    }
  }

  lemma TakeWorks(s: System, u: Nonce)
    requires Owns(s, u) && s.tasks[u].pc.Taking?
    ensures Works(s, StepTake(s, u), u)
  {
    hide Works;
    var c := TakeEdit(Own(s, u)).(updatedAt := s.now);
    var pc := if c.owner != Some(u) || c.work.None? then Done
              else if c.work.value.generation != c.generation then Taking
              else Starting(c.generation, c.inputComplete);
    SaveWorks(s, u, c, pc, s.nextNonce);
  }

  lemma RecordWorks(s: System, u: Nonce, g: nat, found: Investigation)
    requires Owns(s, u) && s.tasks[u].pc == Recording(g, found)
    ensures Works(s, StepRecord(s, u, g, found), u)
  {
    hide Works, WithEvent;
    match InvestigatedEdit(Own(s, u), g, found) {
      case Changed(d) =>
        SavedEvent(s, u, d, "case_investigated", AfterFindings(g, found, WithEvent(d, "case_investigated", s.now)));
      case _ => GotoWorks(s, u, Taking, s.nextNonce);
    }
  }

  lemma SaveChatWorks(s: System, u: Nonce, g: nat, found: Investigation, chatId: string)
    requires Owns(s, u) && s.tasks[u].pc == SavingChat(g, found, chatId)
    ensures Works(s, StepSaveChat(s, u, g, found, chatId), u)
  {
    hide Works, WithEvent;
    var d := ChatReadyEdit(Own(s, u), chatId);
    SavedEvent(s, u, d, "case_private_chat_ready",
               Claiming(Update(g), Turn(g, found, WithEvent(d, "case_private_chat_ready", s.now))));
  }

  lemma DeliverWorks(s: System, u: Nonce, g: nat, found: Investigation, messageId: string)
    requires Owns(s, u) && s.tasks[u].pc == Delivering(g, found, messageId)
    ensures Works(s, StepDeliver(s, u, g, found, messageId), u)
  {
    hide Works, WithEvent;
    if Delivery(g) in Own(s, u).writes {
      SavedEvent(s, u, DeliveredEdit(Own(s, u), g, found, messageId), "case_answer_delivered", Taking);
    } else {
      GotoWorks(s, u, Aborting, s.nextNonce);
    }
  }

  lemma NoteWorks(s: System, u: Nonce, g: nat, found: Investigation, snapshot: Case)
    requires Owns(s, u) && s.tasks[u].pc == Noting(g, found, snapshot)
    ensures Works(s, StepNote(s, u, g, found, snapshot), u)
  {
    hide Works, WithEvent;
    SavedEvent(s, u, Own(s, u), "case_updated",
               if snapshot.investigation.None? then Aborting else Claiming(Delivery(g), Turn(g, found, snapshot)));
  }

  lemma SettleWorks(s: System, u: Nonce, g: nat)
    requires Owns(s, u) && s.tasks[u].pc == Settling(g)
    ensures Works(s, StepSettle(s, u, g), u)
  {
    hide Works, WithEvent;
    var d := ClosedEdit(Own(s, u), g);
    var c := WithEvent(d, "case_close_readback", s.now);
    EventOnly(d, "case_close_readback", s.now);
    var pc := if c.owner != Some(u) then Done
              else if c.confirmation.Some? && c.confirmation.value.email then Emailing(g, c)
              else Claiming(ClosedDelivery, Farewell(g, false, false, c));
    SaveWorks(s, u, c, pc, s.nextNonce);
  }

  lemma StatusWorks(s: System, u: Nonce, g: nat, status: string, at: nat)
    requires Owns(s, u) && s.tasks[u].pc == SavingStatus(g, status, at)
    ensures Works(s, Save(s, u, ReadbackEdit(Own(s, u), status, at).(updatedAt := s.now),
                          if status == "Closed" then Settling(g) else Aborting), u)
  {
    hide Works;
    SaveWorks(s, u, ReadbackEdit(Own(s, u), status, at).(updatedAt := s.now),
              if status == "Closed" then Settling(g) else Aborting, s.nextNonce);
  }

  /** The edits that only move on. */
  lemma PlainWorks(s: System, u: Nonce)
    requires Owns(s, u)
    ensures var c := Own(s, u);
      match s.tasks[u].pc
      case Starting(g, complete) =>
        Works(s, Save(s, u, WithEvent(c, "case_investigation_started", s.now), Checking(g, complete)), u)
      case Blocking(_) => Works(s, Save(s, u, WithEvent(BlockedEdit(c), "case_investigation_blocked", s.now), Aborting), u)
      case Verifying(g) =>
        Works(s, Save(s, u, WithEvent(c.(status := VerifyingClose), "case_close_acknowledged", s.now), ReadingStatus(g)), u)
      case Notifying(g, told) =>
        Works(s, Save(s, u, WithEvent(NotifiedEdit(c, g, told), "case_closure_notice_recorded", s.now), Done), u)
      case _ => true
  {
    hide Works, WithEvent;
    var c := Own(s, u);
    match s.tasks[u].pc {
      case Starting(g, complete) => SavedEvent(s, u, c, "case_investigation_started", Checking(g, complete));
      case Blocking(_) => SavedEvent(s, u, BlockedEdit(c), "case_investigation_blocked", Aborting);
      case Verifying(g) => SavedEvent(s, u, c.(status := VerifyingClose), "case_close_acknowledged", ReadingStatus(g));
      case Notifying(g, told) => SavedEvent(s, u, NotifiedEdit(c, g, told), "case_closure_notice_recorded", Done);
      case _ =>
    }
  }

  lemma DriverWorks(s: System, u: Nonce)
    requires Owns(s, u) && Driving(s.tasks[u].pc)
    ensures Works(s, StepCommit(s, u), u)
  {
    hide Works, WithEvent, StepClaim, StepComplete, StepRegister, StepTake, StepRecord, StepSaveChat, StepNote, StepDeliver,
         StepSettle, Save, Goto;
    PlainWorks(s, u);
    match s.tasks[u].pc {
      case Claiming(name, context) => ClaimWorks(s, u, name, context);
      case Completing(name, nonce, proof, at, context) => CompleteWorks(s, u, name, nonce, proof, at, context);
      case Registering(proof) => RegisterWorks(s, u, proof);
      case Taking => TakeWorks(s, u);
      case Recording(g, found) => RecordWorks(s, u, g, found);
      case SavingChat(g, found, chatId) => SaveChatWorks(s, u, g, found, chatId);
      case Noting(g, found, snapshot) => NoteWorks(s, u, g, found, snapshot);
      case Delivering(g, found, messageId) => DeliverWorks(s, u, g, found, messageId);
      case SavingStatus(g, status, at) => StatusWorks(s, u, g, status, at);
      case Settling(g) => SettleWorks(s, u, g);
      case Starting(_, _) | Blocking(_) | Verifying(_) | Notifying(_, _) =>
      case _ => IdleWorks(s, u);
    }
  }

  lemma IdleWorks(s: System, u: Nonce)
    requires Owns(s, u) && Driving(s.tasks[u].pc)
    requires !s.tasks[u].pc.Starting? && !s.tasks[u].pc.Recording? && !s.tasks[u].pc.Delivering?
    requires !s.tasks[u].pc.SavingStatus?
    ensures Works(s, s, u)
  {
    hide Driving;
  }

  // ---------------------------------------------------------------- an accepted message

  /** The reply that message `m` puts at the end of queue and history of the case. */
  function ReplyOf(m: Inbound, at: nat, g: nat): Reply {
    Reply(g, m.safeText, at, Some(KeyOf(m)))
  }

  /** The message is queued word for word as the next turn, or the queue stays as it is. */
  predicate Queues(c: Case, d: Case, m: Inbound, at: nat) {
    || (d.generation == c.generation && d.replyHistory == c.replyHistory && d.pendingReplies == c.pendingReplies)
    || (&& d.generation == c.generation + 1
        && d.replyHistory == c.replyHistory + [ReplyOf(m, at, c.generation + 1)]
        && d.pendingReplies == c.pendingReplies + [ReplyOf(m, at, c.generation + 1)]
        && d.inputComplete == (c.inputComplete && m.safeText == m.text))
  }

  /** The message confirms the standing answer, as it was understood. */
  predicate Confirms(c: Case, d: Case, m: Inbound, at: nat, intent: Intent) {
    && (m.resolve || intent == ConfirmWithEmail || intent == ConfirmWithoutEmail) && c.resolution.Some? && c.owner.None?
    && d.confirmation == Some(Confirmation(m.text, at, KeyOf(m), c.generation, c.resolution.value.messageId,
                                           intent == ConfirmWithEmail))
  }

  /** What an accepted message, understood so, does to what the record holds. */
  predicate Hears(c: Case, d: Case, m: Inbound, at: nat, intent: Intent) {
    && d.work == c.work && d.latestReply == c.latestReply && d.lastDelivery == c.lastDelivery
    && d.investigationHistory == c.investigationHistory && d.closureReadback == c.closureReadback
    && (d.investigation == c.investigation || d.investigation.None?)
    && (d.inputComplete == c.inputComplete || (d.inputComplete == (c.inputComplete && m.safeText == m.text)
                                               && (d.generation == c.generation ==> d.suspended)))
    && (d.confirmation == c.confirmation || Confirms(c, d, m, at, intent))
    && Queues(c, d, m, at)
    && (d.activities == c.activities + [KeyOf(m)]
        || (d.activities == c.activities && d.generation == c.generation && d.inputComplete == c.inputComplete
            && d.confirmation == c.confirmation))
  }

  /** An accepted message gives an unowned case to its own handler, which then drives it; else the owner stays. */
  ghost predicate Taken(c: Case, d: Case, m: Inbound, at: nat, intent: Intent, step: Step, u: Nonce) {
    && (d.owner == c.owner || (c.owner.None? && d.owner == Some(u) && (step.StartClosing? || step.StartInvestigating?)))
    && (c.suspended ==> d.suspended) && d.writes == c.writes && Hears(c, d, m, at, intent)
  }

  lemma AcceptTakes(c: Case, m: Inbound, at: nat, intent: Intent, u: Nonce)
    ensures var (d, step) := AcceptEdit(c, m, at, intent, u); Taken(c, d, m, at, intent, step, u)
  {
    hide CanResolve, WithEvent, MaterialEdit, Taken, Hears;
    var d := c.(activities := c.activities + [KeyOf(m)]);
    OwnedCannotResolve(d, at);
    if |c.activities| >= MAX_ACTIVITY_RECEIPTS {
      var e := c.(suspended := true, resolution := None, lastOutcome := ActivityCapacity,
                  status := if c.status != WriteOutcomeUnknown then NeedsSpecialistReview else c.status);
      NotTaken(c, e, m, at, intent, Ignore, u);
      EventTaken(c, e, m, at, intent, Ignore, u, "case_capacity_blocked");
    } else if m.resolve && !CanResolve(d, at) {
      NotTaken(c, d, m, at, intent, Ignore, u);
      EventTaken(c, d, m, at, intent, Ignore, u, "case_resolution_rejected");
    } else if m.resolve || ((intent == ConfirmWithEmail || intent == ConfirmWithoutEmail) && CanResolve(d, at)) {
      var e := d.(owner := Some(u), status := Closing,
                  confirmation := Some(Confirmation(m.text, at, KeyOf(m), d.generation, d.resolution.value.messageId,
                                                    intent == ConfirmWithEmail)));
      NewlyTaken(c, d, e, m, at, intent, StartClosing, u);
      EventTaken(c, e, m, at, intent, StartClosing, u, "case_resolution_requested");
    } else if intent == SmallTalk {
      NotTaken(c, d, m, at, intent, Notice, u);
      EventTaken(c, d, m, at, intent, Notice, u, "case_chat_received");
    } else {
      MaterialTakes(c, d, m, at, intent, u);
    }
  }

  lemma NotTaken(c: Case, d: Case, m: Inbound, at: nat, intent: Intent, step: Step, u: Nonce)
    requires d == c.(suspended := d.suspended, resolution := d.resolution, lastOutcome := d.lastOutcome, status := d.status,
                     activities := d.activities)
    requires (c.suspended ==> d.suspended) && (d.activities == c.activities || d.activities == c.activities + [KeyOf(m)])
    ensures Taken(c, d, m, at, intent, step, u)
  {
  }

  lemma NewlyTaken(c: Case, d: Case, e: Case, m: Inbound, at: nat, intent: Intent, step: Step, u: Nonce)
    requires d == c.(activities := c.activities + [KeyOf(m)]) && c.owner.None? && step.StartClosing?
    requires e == d.(owner := Some(u), status := e.status, confirmation := e.confirmation) && Confirms(c, e, m, at, intent)
    ensures Taken(c, e, m, at, intent, step, u)
  {
  }

  lemma EventTaken(c: Case, d: Case, m: Inbound, at: nat, intent: Intent, step: Step, u: Nonce, kind: string)
    requires Taken(c, d, m, at, intent, step, u)
    ensures Taken(c, WithEvent(d, kind, at), m, at, intent, step, u)
  {
    hide WithEvent;
    EventOnly(d, kind, at);
  }

  lemma MaterialTakes(c: Case, d: Case, m: Inbound, at: nat, intent: Intent, u: Nonce)
    requires d == c.(activities := c.activities + [KeyOf(m)])
    ensures var (e, step) := MaterialEdit(d, m, at, u); Taken(c, e, m, at, intent, step, u)
  {
    hide QueueMaterial, WithEvent, Taken;
    QueueHears(c, d, m, at, intent);
    var f := QueueMaterial(d, m, at);
    if f.suspended {
      var e := f.(status := if f.status != WriteOutcomeUnknown then NeedsSpecialistReview else f.status);
      QueueTaken(c, f, e, m, at, intent, Ignore, u);
      EventTaken(c, e, m, at, intent, Ignore, u, "case_reply_received");
    } else if f.owner.None? {
      var e := f.(status := Investigating, owner := Some(u));
      QueueTaken(c, f, e, m, at, intent, StartInvestigating, u);
      EventTaken(c, e, m, at, intent, StartInvestigating, u, "case_reply_received");
    } else {
      QueueTaken(c, f, f.(status := Investigating), m, at, intent, Ignore, u);
      EventTaken(c, f.(status := Investigating), m, at, intent, Ignore, u, "case_reply_received");
    }
  }

  lemma QueueTaken(c: Case, f: Case, e: Case, m: Inbound, at: nat, intent: Intent, step: Step, u: Nonce)
    requires f.owner == c.owner && f.writes == c.writes && (c.suspended ==> f.suspended) && Hears(c, f, m, at, intent)
    requires e == f.(status := e.status, owner := e.owner)
    requires e.owner == f.owner || (f.owner.None? && e.owner == Some(u) && step.StartInvestigating?)
    ensures Taken(c, e, m, at, intent, step, u)
  {
  }

  lemma QueueHears(c: Case, d: Case, m: Inbound, at: nat, intent: Intent)
    requires d == c.(activities := c.activities + [KeyOf(m)])
    ensures var f := QueueMaterial(d, m, at);
      f.owner == c.owner && (c.suspended ==> f.suspended) && f.writes == c.writes && Hears(c, f, m, at, intent)
  {
    hide Confirms;
  }

  /** The state after a message was written into the record of case `k`. */
  function Arrived(s: System, u: Nonce, k: CaseKey, d: Case, step: Step): System {
    s.(index := s.index.(cases := s.index.cases[k := d]),
       tasks := s.tasks[u := Task(k, match step case Ignore => Done case Notice => Done case StartClosing => Confirming
                                                case StartInvestigating => Taking)])
  }

  /** A reading of a message counts only for the case it was made for. */
  function Understood(pc: Pc, k: CaseKey): Intent
    requires pc.Accepting?
  {
    if pc.intentKey == Some(k) then pc.intent else Information
  }

  /** The message of handler `u` was written into the record of case `k`. */
  ghost predicate Accepts(s: System, r: System, u: Nonce, k: CaseKey, d: Case, step: Step) {
    && u in s.tasks && s.tasks[u].pc.Accepting? && k in s.index.cases
    && Taken(s.index.cases[k], d, s.tasks[u].pc.msg, s.tasks[u].pc.receivedAt, Understood(s.tasks[u].pc, k), step, u)
    && r == Arrived(s, u, k, d, step)
  }

  /** What accepting a message does to the whole state. */
  lemma AcceptShape(s: System, u: Nonce)
    requires u in s.tasks && s.tasks[u].pc.Accepting?
    ensures var r := StepCommit(s, u);
      || (r.index == s.index && r.calls == s.calls && exists k :: r.tasks == s.tasks[u := Task(k, Done)])
      || exists k, d, step :: Accepts(s, r, u, k, d, step)
  {
    hide AcceptEdit, Target, Holders, Taken;
    var pc := s.tasks[u].pc;
    var (target, r) := (Target(s.index, pc.msg), StepCommit(s, u));
    if target.None? {
      assert r.tasks == s.tasks[u := Task(s.tasks[u].key, Done)];
    } else if Holders(s.index, KeyOf(pc.msg)) != {} {
      assert r.tasks == s.tasks[u := Task(target.value, Done)];
    } else {
      var understood := if pc.intentKey == Some(target.value) then pc.intent else Information;
      var (d, step) := AcceptEdit(s.index.cases[target.value], pc.msg, pc.receivedAt, understood, u);
      AcceptTakes(s.index.cases[target.value], pc.msg, pc.receivedAt, understood, u);
      assert Accepts(s, r, u, target.value, d, step);
    }
  }

  // ---------------------------------------------------------------- steps that write nothing

  lemma QuietIndex(s: System, a: Action)
    requires !a.Commit?
    ensures Next(s, a).index == s.index
  {
    hide Opaque, Blank, ProvesWrite, Project;
  }

  lemma NobodyMoves(s: System, u: Nonce)
    requires u in s.tasks ==> s.tasks[u].pc.Routing? || s.tasks[u].pc.Done?
    ensures StepCommit(s, u) == s
  {
  }

  lemma RunOne(s: System, before: seq<Action>, a: Action)
    ensures Run(s, before + [a]) == Next(Run(s, before), a)
  {
    hide Next;
    assert (before + [a])[..|before|] == before;
  }

  // ---------------------------------------------------------------- any step, seen from one case

  predicate SameContent(c: Case, d: Case) {
    && SameWords(c, d) && SameFindings(c, d) && d.inputComplete == c.inputComplete && d.confirmation == c.confirmation
    && d.lastDelivery == c.lastDelivery && d.closureReadback == c.closureReadback
  }

  ghost predicate Said(s: System, a: Action, key: CaseKey, c: Case, d: Case) {
    && a.Commit? && a.task in s.tasks && s.tasks[a.task].pc.Accepting?
    && Hears(c, d, s.tasks[a.task].pc.msg, s.tasks[a.task].pc.receivedAt, Understood(s.tasks[a.task].pc, key))
  }

  ghost predicate Drove(s: System, a: Action, key: CaseKey, c: Case, d: Case) {
    a.Commit? && Owns(s, a.task) && s.tasks[a.task].key == key && Handles(c, d, s.tasks[a.task].pc)
  }

  /** A case just admitted from an email: the first turn waits, with no words of the requester. */
  predicate Newborn(s: System, a: Action, key: CaseKey, d: Case) {
    && a.Commit? && a.task in s.tasks && s.tasks[a.task].pc.Admitting? && s.tasks[a.task].key == key
    && d.inputComplete == s.tasks[a.task].pc.complete && d.requesterId == s.tasks[a.task].pc.requesterId
    && d.conversationId == s.tasks[a.task].pc.conversationId
    && d.generation == 0 && d.replyHistory == [] && d.pendingReplies == [Reply(0, "", s.now, None)] && d.work.None?
    && d.latestReply.None? && d.investigation.None? && d.investigationHistory == [] && d.lastDelivery.None?
    && d.confirmation.None? && d.closureReadback.None?
  }

  /** The content of a case changes by an accepted message, by a step of its driver, or not at all. */
  ghost predicate Turns(s: System, a: Action, key: CaseKey, c: Case, d: Case) {
    SameContent(c, d) || Said(s, a, key, c, d) || Drove(s, a, key, c, d)
  }

  lemma NextCase(s: System, a: Action, key: CaseKey)
    requires Inv(s) && key in Next(s, a).index.cases
    ensures var d := Next(s, a).index.cases[key];
      if key in s.index.cases then Turns(s, a, key, s.index.cases[key], d) else Newborn(s, a, key, d)
  {
    hide Inv, StepCommit, Works, Turns;
    if a.Commit? {
      CommitCase(s, a.task, key);
    } else {
      hide Next;
      QuietIndex(s, a);
      StaysSame(s, a, key);
    }
  }

  lemma StaysSame(s: System, a: Action, key: CaseKey)
    ensures key in s.index.cases ==> Turns(s, a, key, s.index.cases[key], s.index.cases[key])
  {
  }

  lemma CommitCase(s: System, u: Nonce, key: CaseKey)
    requires Inv(s) && key in StepCommit(s, u).index.cases
    ensures var d := StepCommit(s, u).index.cases[key];
      if key in s.index.cases then Turns(s, Commit(u), key, s.index.cases[key], d) else Newborn(s, Commit(u), key, d)
  {
    hide Inv, StepCommit, Works, Turns, Newborn, Accepts;
    if u !in s.tasks {
      NobodyMoves(s, u);
      StaysSame(s, Commit(u), key);
    } else if s.tasks[u].pc.Admitting? {
      AdmitCase(s, u, key);
    } else if s.tasks[u].pc.Accepting? {
      AcceptShape(s, u);
      StaysSame(s, Commit(u), key);
      if k, d, step :| Accepts(s, StepCommit(s, u), u, k, d, step) {
        AcceptCase(s, StepCommit(s, u), u, k, d, step, key);
      }
    } else if s.tasks[u].pc.Aborting? {
      AbortCase(s, u, key);
    } else if Driving(s.tasks[u].pc) {
      DriverOwns(s, u);
      DriverWorks(s, u);
      DriverCase(s, StepCommit(s, u), u, key);
    } else {
      NobodyMoves(s, u);
      StaysSame(s, Commit(u), key);
    }
  }

  lemma AdmitCase(s: System, u: Nonce, key: CaseKey)
    requires u in s.tasks && s.tasks[u].pc.Admitting? && key in StepCommit(s, u).index.cases
    ensures var d := StepCommit(s, u).index.cases[key];
      if key in s.index.cases then Turns(s, Commit(u), key, s.index.cases[key], d) else Newborn(s, Commit(u), key, d)
  {
  }

  lemma AcceptCase(s: System, r: System, u: Nonce, k: CaseKey, d: Case, step: Step, key: CaseKey)
    requires Accepts(s, r, u, k, d, step) && key in r.index.cases
    ensures key in s.index.cases && Turns(s, Commit(u), key, s.index.cases[key], r.index.cases[key])
  {
    hide Hears;
  }

  lemma AbortCase(s: System, u: Nonce, key: CaseKey)
    requires u in s.tasks && s.tasks[u].pc.Aborting? && key in StepCommit(s, u).index.cases
    ensures key in s.index.cases && Turns(s, Commit(u), key, s.index.cases[key], StepCommit(s, u).index.cases[key])
  {
    hide MarkUnknown;
  }

  lemma DriverCase(s: System, r: System, u: Nonce, key: CaseKey)
    requires Works(s, r, u) && Owns(s, u) && key in r.index.cases
    ensures key in s.index.cases && Turns(s, Commit(u), key, s.index.cases[key], r.index.cases[key])
  {
    hide Handles, Follows, Holds;
  }

  // ---------------------------------------------------------------- any step, seen from one handler

  predicate Elsewhere(pc: Pc) {
    !pc.Starting? && !pc.Checking? && !pc.Recording? && !pc.Invoking? && !pc.Emailing?
    && !pc.SavingStatus?
  }

  /** A driver has committed and gone where its program says. */
  ghost predicate Advances(s: System, r: System, a: Action, t: Nonce) {
    && a == Commit(t) && Owns(s, t) && t in r.tasks && r.tasks[t].key == s.tasks[t].key && r.tasks[t].key in r.index.cases
    && Follows(r.index.cases[r.tasks[t].key], s.tasks[t].pc, r.tasks[t].pc)
  }

  /** The backend has returned its findings for the turn. */
  predicate Returns(s: System, r: System, a: Action, t: Nonce) {
    && a.Investigate? && a.task == t && a.found.Some? && t in s.tasks && s.tasks[t].pc.Checking? && t in r.tasks
    && r.tasks[t].key == s.tasks[t].key
    && r.tasks[t].pc == Recording(s.tasks[t].pc.turn,
                                  Project(a.found.value, s.tasks[t].pc.turn, s.tasks[t].pc.inputComplete))
  }

  /** The backend has been asked for the status of the case. */
  predicate ReadsBack(s: System, r: System, a: Action, t: Nonce) {
    && a.ReadStatus? && a.task == t && t in s.tasks && s.tasks[t].pc.ReadingStatus? && t in r.tasks
    && r.tasks[t].key == s.tasks[t].key && r.tasks[t].pc == SavingStatus(s.tasks[t].pc.turn, a.status, s.now)
  }

  ghost predicate TaskTurns(s: System, r: System, a: Action, t: Nonce)
    requires t in r.tasks
  {
    (t in s.tasks && r.tasks[t] == s.tasks[t]) || Elsewhere(r.tasks[t].pc) || Advances(s, r, a, t) || Returns(s, r, a, t)
    || ReadsBack(s, r, a, t)
  }

  lemma NextTask(s: System, a: Action, t: Nonce)
    requires Inv(s) && t in Next(s, a).tasks
    ensures TaskTurns(s, Next(s, a), a, t)
  {
    hide Inv, StepCommit, Works, TaskTurns;
    if a.Commit? {
      CommitTask(s, a.task, t);
    } else {
      QuietTask(s, a, t);
    }
  }

  lemma QuietTask(s: System, a: Action, t: Nonce)
    requires !a.Commit? && t in Next(s, a).tasks
    ensures TaskTurns(s, Next(s, a), a, t)
  {
    hide Opaque, Blank, ProvesWrite, Project, Advances;
  }

  lemma SameTask(s: System, r: System, a: Action, t: Nonce)
    requires t in r.tasks && t in s.tasks && r.tasks[t] == s.tasks[t]
    ensures TaskTurns(s, r, a, t)
  {
  }

  lemma CommitTask(s: System, u: Nonce, t: Nonce)
    requires Inv(s) && t in StepCommit(s, u).tasks
    ensures TaskTurns(s, StepCommit(s, u), Commit(u), t)
  {
    hide Inv, StepCommit, Works, TaskTurns, Accepts;
    if u !in s.tasks {
      NobodyMoves(s, u);
      SameTask(s, s, Commit(u), t);
    } else if s.tasks[u].pc.Admitting? || s.tasks[u].pc.Aborting? {
      EndsElsewhere(s, u, t);
    } else if s.tasks[u].pc.Accepting? {
      AcceptTask(s, u, t);
    } else if Driving(s.tasks[u].pc) {
      DriverOwns(s, u);
      DriverWorks(s, u);
      DriverTask(s, StepCommit(s, u), u, t);
    } else {
      NobodyMoves(s, u);
      SameTask(s, s, Commit(u), t);
    }
  }

  lemma EndsElsewhere(s: System, u: Nonce, t: Nonce)
    requires u in s.tasks && (s.tasks[u].pc.Admitting? || s.tasks[u].pc.Aborting?) && t in StepCommit(s, u).tasks
    ensures TaskTurns(s, StepCommit(s, u), Commit(u), t)
  {
    hide NewCase, AbortEdit, WithEvent, Advances, Returns;
  }

  lemma AcceptTask(s: System, u: Nonce, t: Nonce)
    requires u in s.tasks && s.tasks[u].pc.Accepting? && t in StepCommit(s, u).tasks
    ensures TaskTurns(s, StepCommit(s, u), Commit(u), t)
  {
    hide StepCommit, Advances, Returns, Taken;
    AcceptShape(s, u);
  }

  lemma DriverTask(s: System, r: System, u: Nonce, t: Nonce)
    requires Works(s, r, u) && Owns(s, u) && t in r.tasks
    ensures TaskTurns(s, r, Commit(u), t)
  {
    hide Handles, Follows, Holds, Returns;
  }
}
