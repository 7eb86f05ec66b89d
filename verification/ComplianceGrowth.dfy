/** What no step of any handler ever takes back. */
module ComplianceGrowth {
  import opened Options
  import opened ComplianceRecord
  import opened ComplianceIndex
  import opened ComplianceProtocol
  import opened ComplianceInvariant
  import opened ComplianceSteps
  import opened ComplianceTurns
  import opened ComplianceEdits
  import opened ComplianceArrivals
  import opened ComplianceRuns

  /** A claim is never replaced, and a receipt never changes. */
  predicate WriteGrows(w: Write, v: Write) {
    v.nonce == w.nonce && v.owner == w.owner && (w.status != Claimed ==> v == w)
  }

  ghost predicate Grows(c: Case, d: Case) {
    && d.key == c.key && d.requesterId == c.requesterId && d.conversationId == c.conversationId
    && d.generation >= c.generation && (c.suspended ==> d.suspended)
    && c.activities <= d.activities && c.replyHistory <= d.replyHistory
    && (c.caseId != "" ==> d.caseId == c.caseId && d.caseNumber == c.caseNumber)
    && (c.privateChatId != "" ==> d.privateChatId == c.privateChatId)
    && (c.salesforceStatus == "Closed" ==> d.salesforceStatus == "Closed")
    && (forall name <- c.writes :: name in d.writes && WriteGrows(c.writes[name], d.writes[name]))
  }

  ghost predicate IndexGrows(x: Index, y: Index) {
    x.order <= y.order && forall key <- x.cases :: key in y.cases && Grows(x.cases[key], y.cases[key])
  }

  lemma GrowsTransitive(a: Case, b: Case, c: Case)
    requires Grows(a, b) && Grows(b, c)
    ensures Grows(a, c)
  {
    forall name <- a.writes ensures name in c.writes && WriteGrows(a.writes[name], c.writes[name]) {
      assert name in b.writes && WriteGrows(b.writes[name], c.writes[name]);
    }
  }

  lemma IndexGrowsTransitive(x: Index, y: Index, z: Index)
    requires IndexGrows(x, y) && IndexGrows(y, z)
    ensures IndexGrows(x, z)
  {
    hide Grows;
    forall key <- x.cases ensures key in z.cases && Grows(x.cases[key], z.cases[key]) {
      GrowsTransitive(x.cases[key], y.cases[key], z.cases[key]);
    }
  }

  lemma OneGrows(x: Index, key: CaseKey, d: Case)
    requires key in x.cases && Grows(x.cases[key], d)
    ensures IndexGrows(x, x.(cases := x.cases[key := d]))
  {
  }

  lemma SameGrows(x: Index)
    ensures IndexGrows(x, x)
  {
  }

  lemma AcceptGrows(c: Case, m: Inbound, at: nat, intent: Intent, t: Nonce)
    ensures Grows(c, AcceptEdit(c, m, at, intent, t).0)
  {
    hide CanResolve, MaterialEdit, WithEvent, Grows;
    var d := c.(activities := c.activities + [KeyOf(m)]);
    OwnedCannotResolve(d, at);
    MaterialGrows(d, m, at, t);
    NoteGrows(c, m);
    GrowsTransitive(c, d, MaterialEdit(d, m, at, t).0);
    EventGrows(c, d, "case_resolution_rejected", at);
    EventGrows(c, d, "case_chat_received", at);
    if |c.activities| >= MAX_ACTIVITY_RECEIPTS {
      var e := c.(suspended := true, resolution := None, lastOutcome := ActivityCapacity,
                  status := if c.status != WriteOutcomeUnknown then NeedsSpecialistReview else c.status);
      SuspendGrows(c, e);
      EventGrows(c, e, "case_capacity_blocked", at);
    } else if CanResolve(d, at) {
      var e := d.(owner := Some(t), status := Closing,
                  confirmation := Some(Confirmation(m.text, at, KeyOf(m), d.generation, d.resolution.value.messageId,
                                                    intent == ConfirmWithEmail)));
      SuspendGrows(d, e);
      GrowsTransitive(c, d, e);
      EventGrows(c, e, "case_resolution_requested", at);
    }
  }

  lemma NoteGrows(c: Case, m: Inbound)
    ensures Grows(c, c.(activities := c.activities + [KeyOf(m)]))
  {
  }

  /** Fields outside the comparison may change freely; suspension may be set. */
  lemma SuspendGrows(c: Case, d: Case)
    requires d == c.(suspended := d.suspended, resolution := d.resolution, lastOutcome := d.lastOutcome, status := d.status,
                     owner := d.owner, confirmation := d.confirmation, work := d.work, latestReply := d.latestReply,
                     pendingReplies := d.pendingReplies, investigation := d.investigation,
                     investigationHistory := d.investigationHistory, closureReadback := d.closureReadback,
                     lastDelivery := d.lastDelivery, updatedAt := d.updatedAt)
    requires c.suspended ==> d.suspended
    ensures Grows(c, d)
  {
  }

  lemma EventGrows(c: Case, d: Case, kind: string, at: nat)
    requires Grows(c, d)
    ensures Grows(c, WithEvent(d, kind, at)) && Grows(c, d.(updatedAt := at))
  {
  }

  lemma MaterialGrows(c: Case, m: Inbound, at: nat, t: Nonce)
    ensures Grows(c, MaterialEdit(c, m, at, t).0)
  {
  }

  lemma AdmitGrows(x: Index, key: CaseKey, c: Case)
    requires key !in x.cases
    ensures IndexGrows(x, Index(x.order + [key], x.cases[key := c]))
  {
  }

  lemma StepAcceptGrows(s: System, t: Nonce, m: Inbound, at: nat, intent: Intent, intentKey: Option<CaseKey>)
    requires WellOrdered(s.index) && t in s.tasks
    ensures IndexGrows(s.index, StepAccept(s, t, m, at, intent, intentKey).index)
  {
    hide Grows, AcceptEdit, WellOrdered, IndexGrows;
    SameGrows(s.index);
    var target := Target(s.index, m);
    if target.Some? && Holders(s.index, KeyOf(m)) == {} {
      var key := target.value;
      var understood := if intentKey == Some(key) then intent else Information;
      AcceptGrows(s.index.cases[key], m, at, understood, t);
      OneGrows(s.index, key, AcceptEdit(s.index.cases[key], m, at, understood, t).0);
    }
  }

  // ---------------------------------------------------------------- the edits of a driver

  lemma ClaimGrows(c: Case, name: WriteName, generation: Option<nat>, nonce: Nonce, owner: Nonce, at: nat)
    ensures var e := ClaimEdit(c, name, generation, nonce, owner, at); e.Changed? ==> Grows(c, e.record)
  {
  }

  lemma CompleteGrows(c: Case, name: WriteName, nonce: Nonce, owner: Nonce, proof: Receipt, at: nat)
    ensures var e := CompleteEdit(c, name, nonce, owner, proof, at); e.Changed? ==> Grows(c, e.record)
  {
  }

  lemma AbortGrows(c: Case, owner: Nonce)
    ensures Grows(c, AbortEdit(c, owner))
  {
  }

  lemma StepClaimGrows(s: System, t: Nonce, name: WriteName, context: Context)
    requires Owns(s, t)
    ensures IndexGrows(s.index, StepClaim(s, t, name, context).index)
  {
    hide Grows, IndexGrows, ClaimEdit;
    SameGrows(s.index);
    ClaimGrows(Own(s, t), name, PinnedTo(context), s.nextNonce, t, s.now);
    var e := ClaimEdit(Own(s, t), name, PinnedTo(context), s.nextNonce, t, s.now);
    if e.Changed? {
      EventGrows(Own(s, t), e.record, "", s.now);
      OneGrows(s.index, s.tasks[t].key, e.record.(updatedAt := s.now));
    }
  }

  lemma StepCompleteGrows(s: System, t: Nonce, name: WriteName, nonce: Nonce, proof: Receipt, at: nat, context: Context)
    requires Owns(s, t)
    ensures IndexGrows(s.index, StepComplete(s, t, name, nonce, proof, at, context).index)
  {
    hide Grows, IndexGrows, CompleteEdit, AfterWrite;
    SameGrows(s.index);
    CompleteGrows(Own(s, t), name, nonce, t, proof, at);
    var e := CompleteEdit(Own(s, t), name, nonce, t, proof, at);
    if e.Changed? {
      EventGrows(Own(s, t), e.record, "", s.now);
      OneGrows(s.index, s.tasks[t].key, e.record.(updatedAt := s.now));
    }
  }

  /** An edit that saves `d`, stamped or with an event. */
  lemma SaveGrows(s: System, t: Nonce, d: Case, kind: string)
    requires Owns(s, t) && Grows(Own(s, t), d)
    ensures forall pc :: IndexGrows(s.index, Save(s, t, WithEvent(d, kind, s.now), pc).index)
    ensures forall pc :: IndexGrows(s.index, Save(s, t, d.(updatedAt := s.now), pc).index)
  {
    hide Grows, IndexGrows, WithEvent;
    EventGrows(Own(s, t), d, kind, s.now);
    OneGrows(s.index, s.tasks[t].key, WithEvent(d, kind, s.now));
    OneGrows(s.index, s.tasks[t].key, d.(updatedAt := s.now));
  }

  lemma StepRegisterGrows(s: System, t: Nonce, proof: Receipt)
    requires Owns(s, t) && Own(s, t).caseId == "" && !Own(s, t).suspended
    ensures IndexGrows(s.index, StepRegister(s, t, proof).index)
  {
    hide IndexGrows, WithEvent, Collides;
    SameGrows(s.index);
    var c := Own(s, t);
    if proof.Reference? {
      SaveGrows(s, t, c.(caseId := proof.id, caseNumber := proof.number, status := WriteOutcomeUnknown, suspended := true),
                "case_reference_collision");
      SaveGrows(s, t, c.(caseId := proof.id, caseNumber := proof.number, status := Investigating, suspended := false),
                "case_registered");
    }
  }

  lemma StepTakeGrows(s: System, t: Nonce)
    requires Owns(s, t)
    ensures IndexGrows(s.index, StepTake(s, t).index)
  {
    hide IndexGrows, WithEvent;
    SaveGrows(s, t, TakeEdit(Own(s, t)), "");
  }

  lemma StepRecordGrows(s: System, t: Nonce, g: nat, found: Investigation)
    requires Owns(s, t)
    ensures IndexGrows(s.index, StepRecord(s, t, g, found).index)
  {
    hide IndexGrows, WithEvent;
    SameGrows(s.index);
    match InvestigatedEdit(Own(s, t), g, found)
    case Changed(d) => SaveGrows(s, t, d, "case_investigated");
    case _ =>
  }

  lemma StepDeliverGrows(s: System, t: Nonce, g: nat, found: Investigation, messageId: string)
    requires Owns(s, t)
    ensures IndexGrows(s.index, StepDeliver(s, t, g, found, messageId).index)
  {
    hide IndexGrows, WithEvent;
    SameGrows(s.index);
    if Delivery(g) in Own(s, t).writes {
      SaveGrows(s, t, DeliveredEdit(Own(s, t), g, found, messageId), "case_answer_delivered");
    }
  }

  lemma StepSettleGrows(s: System, t: Nonce, g: nat)
    requires Owns(s, t)
    ensures IndexGrows(s.index, StepSettle(s, t, g).index)
  {
    hide IndexGrows, WithEvent;
    SaveGrows(s, t, ClosedEdit(Own(s, t), g), "case_close_readback");
  }

  lemma StepAbortGrows(s: System, t: Nonce)
    requires t in s.tasks
    ensures IndexGrows(s.index, StepAbort(s, t).index)
  {
    hide IndexGrows, WithEvent, AbortEdit, Grows;
    SameGrows(s.index);
    if Owns(s, t) {
      AbortGrows(Own(s, t), t);
      SaveGrows(s, t, AbortEdit(Own(s, t), t), "case_outcome_unknown");
    }
  }

  /** The edits that neither touch the writes nor the resource selectors. */
  lemma SmallGrows(s: System, t: Nonce)
    requires Owns(s, t)
    ensures var c := Own(s, t);
      && Grows(c, c) && Grows(c, BlockedEdit(c)) && Grows(c, c.(status := VerifyingClose))
      && (forall status, at :: Grows(c, ReadbackEdit(c, status, at)))
      && (forall g, told :: Grows(c, NotifiedEdit(c, g, told)))
      && (c.privateChatId == "" ==> forall chatId :: Grows(c, ChatReadyEdit(c, chatId)))
  {
  }

  /** Registration and the chat are recorded once: both are blank until then. */
  lemma FirstTime(s: System, t: Nonce)
    requires Inv(s) && Owns(s, t) && Driving(s.tasks[t].pc)
    ensures s.tasks[t].pc.Registering? ==> Own(s, t).caseId == "" && !Own(s, t).suspended
    ensures s.tasks[t].pc.SavingChat? ==> Own(s, t).privateChatId == ""
  {
    hide CaseInv, HasCall, Inv, Quiet, InTurn, Completion, PendingCall;
    OwnFacts(s, t);
  }

  lemma DriverGrows(s: System, t: Nonce)
    requires Inv(s) && WellOrdered(s.index) && Owns(s, t) && Driving(s.tasks[t].pc)
    ensures IndexGrows(s.index, StepCommit(s, t).index)
  {
    hide Inv, WellOrdered, StepClaim, StepComplete, StepRegister, StepTake, StepRecord, StepDeliver, StepSettle, Grows,
         IndexGrows, WithEvent, ChatReadyEdit, BlockedEdit, ReadbackEdit, NotifiedEdit;
    FirstTime(s, t);
    SmallGrows(s, t);
    SameGrows(s.index);
    var c := Own(s, t);
    match s.tasks[t].pc {
      case Claiming(name, context) => StepClaimGrows(s, t, name, context);
      case Completing(name, nonce, proof, at, context) => StepCompleteGrows(s, t, name, nonce, proof, at, context);
      case Registering(proof) => StepRegisterGrows(s, t, proof);
      case Taking => StepTakeGrows(s, t);
      case Starting(g, complete) => SaveGrows(s, t, c, "case_investigation_started");
      case Blocking(_) => SaveGrows(s, t, BlockedEdit(c), "case_investigation_blocked");
      case Recording(g, found) => StepRecordGrows(s, t, g, found);
      case SavingChat(g, found, chatId) => SaveGrows(s, t, ChatReadyEdit(c, chatId), "case_private_chat_ready");
      case Noting(g, found, snapshot) => SaveGrows(s, t, c, "case_updated");
      case Delivering(g, found, messageId) => StepDeliverGrows(s, t, g, found, messageId);
      case Verifying(g) => SaveGrows(s, t, c.(status := VerifyingClose), "case_close_acknowledged");
      case SavingStatus(g, status, at) => SaveGrows(s, t, ReadbackEdit(c, status, at), "");
      case Settling(g) => StepSettleGrows(s, t, g);
      case Notifying(g, told) => SaveGrows(s, t, NotifiedEdit(c, g, told), "case_closure_notice_recorded");
      case _ =>
    }
  }

  lemma NextGrows(s: System, a: Action)
    requires Inv(s) && WellOrdered(s.index)
    ensures IndexGrows(s.index, Next(s, a).index)
  {
    hide Inv, WellOrdered, IndexGrows, Grows, StepAccept, StepAbort, NewCase;
    SameGrows(s.index);
    if a.Commit? && a.task in s.tasks {
      var t, pc := a.task, s.tasks[a.task].pc;
      if pc.Admitting? {
        var c := NewCase(s.tasks[t].key, pc.requesterId, pc.conversationId, pc.complete, t, s.now);
        if s.tasks[t].key !in s.index.cases {
          AdmitGrows(s.index, s.tasks[t].key, c);
        }
      } else if pc.Accepting? {
        StepAcceptGrows(s, t, pc.msg, pc.receivedAt, pc.intent, pc.intentKey);
      } else if pc.Aborting? {
        StepAbortGrows(s, t);
      } else if Driving(pc) {
        DriverOwns(s, t);
        DriverGrows(s, t);
      }
    }
  }

  /** Over any run: cases stay admitted, in order, and no receipt, reply, reference or suspension is taken back. */
  lemma {:induction false} NothingIsForgotten(s: System, actions: seq<Action>)
    requires Inv(s)
    ensures IndexGrows(s.index, Run(s, actions).index)
  {
    hide Inv, IndexGrows, WellOrdered, Next;
    SameGrows(s.index);
    if actions != [] {
      var before := Run(s, actions[..|actions| - 1]);
      NothingIsForgotten(s, actions[..|actions| - 1]);
      RunKeeps(s, actions[..|actions| - 1]);
      NextGrows(before, actions[|actions| - 1]);
      IndexGrowsTransitive(s.index, before.index, Run(s, actions).index);
    }
  }
}
