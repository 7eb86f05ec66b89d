/** Messages that reach a case from outside: what `accept` keeps, for the record and for the driver it overtakes. */
module ComplianceArrivals {
  import opened Options
  import opened ComplianceRecord
  import opened ComplianceIndex
  import opened ComplianceProtocol
  import opened ComplianceInvariant
  import opened ComplianceKeeps

  /** What a message may do to a record, whatever it says. */
  ghost predicate Receives(c: Case, d: Case, m: Inbound, t: Nonce) {
    && d.key == c.key && d.requesterId == c.requesterId && d.conversationId == c.conversationId
    && d.caseId == c.caseId && d.caseNumber == c.caseNumber && d.privateChatId == c.privateChatId
    && d.salesforceStatus == c.salesforceStatus && d.writes == c.writes
    && d.generation >= c.generation && (c.suspended ==> d.suspended)
    && (d.activities == c.activities || d.activities == c.activities + [KeyOf(m)])
    && (d.investigation == c.investigation || d.investigation.None?)
    && (d.generation == c.generation || d.investigation.None?)
    && (d.owner == c.owner || (c.owner.None? && d.owner == Some(t)))
  }

  lemma AcceptReceives(c: Case, m: Inbound, at: nat, intent: Intent, t: Nonce)
    ensures Receives(c, AcceptEdit(c, m, at, intent, t).0, m, t)
  {
    hide CanResolve, MaterialEdit, WithEvent, Receives;
    var d := c.(activities := c.activities + [KeyOf(m)]);
    if |c.activities| >= MAX_ACTIVITY_RECEIPTS {
      var e := c.(suspended := true, resolution := None, lastOutcome := ActivityCapacity,
                  status := if c.status != WriteOutcomeUnknown then NeedsSpecialistReview else c.status);
      assert Receives(c, e, m, t) by { PlainlyReceives(c, e, m, t); }
      EventReceives(c, e, m, t, "case_capacity_blocked", at);
    } else {
      PlainlyReceives(c, d, m, t);
      EventReceives(c, d, m, t, "case_resolution_rejected", at);
      EventReceives(c, d, m, t, "case_chat_received", at);
      MaterialReceives(d, m, at, t);
      LaterReceives(c, d, MaterialEdit(d, m, at, t).0, m, t);
      OwnedCannotResolve(d, at);
      if CanResolve(d, at) {
        var e := d.(owner := Some(t), status := Closing,
                    confirmation := Some(Confirmation(m.text, at, KeyOf(m), d.generation,
                                                      d.resolution.value.messageId, intent == ConfirmWithEmail)));
        PlainlyReceives(c, e, m, t);
        EventReceives(c, e, m, t, "case_resolution_requested", at);
      }
    }
  }

  /** A message that leaves the turn alone. */
  lemma PlainlyReceives(c: Case, d: Case, m: Inbound, t: Nonce)
    requires d.key == c.key && d.requesterId == c.requesterId && d.conversationId == c.conversationId
    requires d.caseId == c.caseId && d.caseNumber == c.caseNumber && d.privateChatId == c.privateChatId
    requires d.salesforceStatus == c.salesforceStatus && d.writes == c.writes && d.generation == c.generation
    requires d.investigation == c.investigation && (c.suspended ==> d.suspended)
    requires d.activities == c.activities || d.activities == c.activities + [KeyOf(m)]
    requires d.owner == c.owner || (c.owner.None? && d.owner == Some(t))
    ensures Receives(c, d, m, t)
  {
  }

  lemma EventReceives(c: Case, d: Case, m: Inbound, t: Nonce, kind: string, at: nat)
    ensures Receives(c, d, m, t) ==> Receives(c, WithEvent(d, kind, at), m, t)
  {
  }

  lemma LaterReceives(c: Case, d: Case, e: Case, m: Inbound, t: Nonce)
    requires d == c.(activities := c.activities + [KeyOf(m)]) && Receives(d, e, m, t) && e.activities == d.activities
    ensures Receives(c, e, m, t)
  {
  }

  /** Nobody else can resolve a case while a driver owns it. */
  lemma OwnedCannotResolve(c: Case, at: nat)
    ensures CanResolve(c, at) ==> c.owner.None? && c.resolution.Some?
  {
    hide ReadyFindings, AllCompleted;
  }

  lemma MaterialReceives(c: Case, m: Inbound, at: nat, t: Nonce)
    ensures var d := MaterialEdit(c, m, at, t).0; Receives(c, d, m, t) && d.activities == c.activities
  {
  }

  /** Taking note of an activity for the first time. */
  lemma NoteActivity(c: Case, m: Inbound)
    requires CaseInv(c) && KeyOf(m) !in c.activities && |c.activities| < MAX_ACTIVITY_RECEIPTS
    ensures CaseInv(c.(activities := c.activities + [KeyOf(m)]))
  {
  }

  lemma CapacityKeeps(c: Case)
    requires CaseInv(c)
    ensures CaseInv(c.(suspended := true, resolution := None, lastOutcome := ActivityCapacity,
                       status := if c.status != WriteOutcomeUnknown then NeedsSpecialistReview else c.status))
  {
  }

  lemma MaterialKeeps(c: Case, m: Inbound, at: nat, t: Nonce)
    requires CaseInv(c)
    ensures CaseInv(MaterialEdit(c, m, at, t).0)
  {
    hide CaseInv, QueueMaterial, Queued;
    var f := QueueMaterial(c, m, at);
    QueueMaterialKeeps(c, m, at);
    var kind := "case_reply_received";
    if f.suspended {
      var status := if f.status != WriteOutcomeUnknown then NeedsSpecialistReview else f.status;
      StatusKeeps(f, status);
      QueuedSuspended(f.(status := status));
      EventKeeps(f.(status := status), kind, at);
    } else {
      var owner := if f.owner.None? then Some(t) else f.owner;
      StatusKeeps(f, Investigating);
      QueuedOwned(f.(status := Investigating), owner);
      EventKeeps(f.(status := Investigating, owner := owner), kind, at);
      assert f.owner.Some? ==> f.(status := Investigating, owner := owner) == f.(status := Investigating);
    }
  }

  /** Before its status is set, a record with new material has an owner, is suspended, or still has its queue. */
  ghost predicate Queued(c: Case) {
    QueueInv(c) && HistoryInv(c) && WritesInv(c) && ValidTargets(c) && AuthorityInv(c)
    && (c.owner.None? ==> Quiet(c)) && (!c.suspended ==> c.pendingReplies != [] && c.salesforceStatus == "")
  }

  lemma QueueMaterialQueues(c: Case, m: Inbound, at: nat)
    requires QueueInv(c) && WritesInv(c)
    ensures QueueInv(QueueMaterial(c, m, at)) && WritesInv(QueueMaterial(c, m, at))
  {
  }

  lemma QueueMaterialFiles(c: Case, m: Inbound, at: nat)
    requires HistoryInv(c) && ValidTargets(c)
    ensures HistoryInv(QueueMaterial(c, m, at)) && ValidTargets(QueueMaterial(c, m, at))
  {
    hide IsReference, Opaque;
  }

  lemma QueueMaterialKeeps(c: Case, m: Inbound, at: nat)
    requires CaseInv(c)
    ensures Queued(QueueMaterial(c, m, at))
  {
    hide QueueInv, HistoryInv, WritesInv, Quiet, IsReference, Opaque;
    var f := QueueMaterial(c, m, at);
    QueueMaterialQueues(c, m, at);
    QueueMaterialFiles(c, m, at);
    QuietSame(c, f);
  }

  lemma QuietSame(c: Case, d: Case)
    requires d.writes == c.writes && d.privateChatId == c.privateChatId && d.salesforceStatus == c.salesforceStatus
    ensures Quiet(c) ==> Quiet(d)
  {
  }

  lemma StatusKeeps(c: Case, status: Status)
    requires Queued(c) && status != Closed
    ensures Queued(c.(status := status))
  {
  }

  lemma QueuedSuspended(c: Case)
    requires Queued(c) && c.suspended
    ensures CaseInv(c)
  {
  }

  lemma QueuedOwned(c: Case, owner: Option<Nonce>)
    requires Queued(c) && owner.Some?
    ensures CaseInv(c.(owner := owner))
  {
  }

  lemma ConfirmKeeps(c: Case, m: Inbound, at: nat, t: Nonce, conf: Confirmation)
    requires CaseInv(c) && c.owner.None?
    ensures CaseInv(c.(owner := Some(t), status := Closing, confirmation := Some(conf)))
  {
  }

  lemma AcceptKeeps(c: Case, m: Inbound, at: nat, intent: Intent, t: Nonce)
    requires CaseInv(c) && KeyOf(m) !in c.activities
    ensures CaseInv(AcceptEdit(c, m, at, intent, t).0)
  {
    hide CaseInv, MaterialEdit, WithEvent, ReadyFindings;
    if |c.activities| >= MAX_ACTIVITY_RECEIPTS {
      CapacityKeeps(c);
      EventKeeps(c.(suspended := true, resolution := None, lastOutcome := ActivityCapacity,
                    status := if c.status != WriteOutcomeUnknown then NeedsSpecialistReview else c.status),
                 "case_capacity_blocked", at);
    } else {
      var d := c.(activities := c.activities + [KeyOf(m)]);
      NoteActivity(c, m);
      EventKeeps(d, "case_resolution_rejected", at);
      EventKeeps(d, "case_chat_received", at);
      MaterialKeeps(d, m, at, t);
      if CanResolve(d, at) {
        var conf := Confirmation(m.text, at, KeyOf(m), d.generation, d.resolution.value.messageId, intent == ConfirmWithEmail);
        ConfirmKeeps(d, m, at, t, conf);
        EventKeeps(d.(owner := Some(t), status := Closing, confirmation := Some(conf)), "case_resolution_requested", at);
      }
    }
  }

  // ---------------------------------------------------------------- the driver it overtakes

  /** A message for an owned case either leaves it alone, takes it out of service, or queues a new turn. */
  ghost predicate Overtakes(c: Case, d: Case) {
    && d.writes == c.writes && d.caseId == c.caseId && d.caseNumber == c.caseNumber
    && d.privateChatId == c.privateChatId && d.salesforceStatus == c.salesforceStatus && d.owner == c.owner
    && d.confirmation == c.confirmation && d.closureReadback == c.closureReadback
    && (c.suspended ==> d.suspended)
    && (|| (d.generation == c.generation && d.pendingReplies == c.pendingReplies && d.suspended == c.suspended
            && d.inputComplete == c.inputComplete && d.resolution == c.resolution && d.investigation == c.investigation)
        || (d.generation == c.generation && d.pendingReplies == c.pendingReplies && d.suspended && d.resolution.None?
            && (d.investigation == c.investigation || d.investigation.None?))
        || (d.generation == c.generation + 1 && |d.pendingReplies| == |c.pendingReplies| + 1
            && d.investigation.None? && d.resolution.None?))
  }

  lemma MaterialOvertakes(c: Case, m: Inbound, at: nat, t: Nonce)
    requires c.owner.Some?
    ensures Overtakes(c, MaterialEdit(c, m, at, t).0)
  {
  }

  lemma AcceptOvertakes(c: Case, m: Inbound, at: nat, intent: Intent, t: Nonce)
    requires c.owner.Some?
    ensures Overtakes(c, AcceptEdit(c, m, at, intent, t).0)
  {
    hide CanResolve, MaterialEdit;
    var d := c.(activities := c.activities + [KeyOf(m)]);
    OwnedCannotResolve(d, at);
    MaterialOvertakes(d, m, at, t);
  }

  /** Nothing a driver relies on is disturbed by a message. */
  lemma OvertakenDriver(c: Case, d: Case, u: Nonce, pc: Pc)
    requires CaseInv(c) && Overtakes(c, d) && PcInv(c, u, pc) && Driving(pc) && c.privateChatId != ""
    ensures PcInv(d, u, pc)
  {
    hide CaseInv, ReadyFindings, Opaque, ProvesWrite, ClaimFacts;
    ChatMeansRegistered(c);
  }

  lemma ChatMeansRegistered(c: Case)
    requires CaseInv(c) && c.privateChatId != ""
    ensures c.caseId != ""
  {
    hide QueueInv, HistoryInv, WritesInv, IdleInv, AuthorityInv;
  }

  // ---------------------------------------------------------------- the driver it starts

  lemma AcceptLands(c: Case, m: Inbound, at: nat, intent: Intent, t: Nonce)
    requires CaseInv(c) && c.privateChatId != ""
    ensures var (d, step) := AcceptEdit(c, m, at, intent, t);
      && (step == StartClosing ==> d.owner == Some(t) && PcInv(d, t, Confirming))
      && (step == StartInvestigating ==> d.owner == Some(t) && PcInv(d, t, Taking))
  {
    hide CaseInv, CanResolve, MaterialEdit, PcInv;
    ChatMeansRegistered(c);
    IdleFacts(c);
    var d := c.(activities := c.activities + [KeyOf(m)]);
    MaterialLands(d, m, at, t);
    if CanResolve(d, at) {
      OwnedCannotResolve(d, at);
      ConfirmLands(d, at, t, Confirmation(m.text, at, KeyOf(m), d.generation, d.resolution.value.messageId,
                                          intent == ConfirmWithEmail));
    }
  }

  lemma ConfirmLands(c: Case, at: nat, t: Nonce, conf: Confirmation)
    requires CanResolve(c, at) && IdleInv(c) && c.caseId != "" && c.privateChatId != ""
    requires c.salesforceStatus == "" || c.salesforceStatus == "Closed"
    requires conf.at == at && conf.generation == c.generation && conf.answerMessageId == c.resolution.value.messageId
    ensures PcInv(WithEvent(c.(owner := Some(t), status := Closing, confirmation := Some(conf)),
                            "case_resolution_requested", at), t, Confirming)
  {
    hide ReadyFindings;
  }

  lemma MaterialLands(c: Case, m: Inbound, at: nat, t: Nonce)
    requires IdleInv(c) && c.caseId != "" && (c.salesforceStatus == "" || c.salesforceStatus == "Closed")
    ensures var (d, step) := MaterialEdit(c, m, at, t);
      step != StartClosing && (step == StartInvestigating ==> d.owner == Some(t) && PcInv(d, t, Taking))
  {
  }

  lemma IdleFacts(c: Case)
    requires CaseInv(c)
    ensures IdleInv(c) && (c.salesforceStatus == "" || c.salesforceStatus == "Closed")
  {
    hide QueueInv, HistoryInv, WritesInv, IdleInv, AuthorityInv;
  }
}
