/** The plain edits of a driver: registration, findings, delivery, closure. */
module ComplianceEdits {
  import opened Options
  import opened ComplianceRecord
  import opened ComplianceIndex
  import opened ComplianceProtocol
  import opened ComplianceInvariant
  import opened ComplianceKeeps
  import opened ComplianceSteps
  import opened ComplianceTurns

  lemma EventPlain(b: Case, c: Case, kind: string, at: nat)
    requires Plain(b, c)
    ensures Plain(b, WithEvent(c, kind, at))
  {
    hide CaseInv;
    EventKeeps(c, kind, at);
  }

  /** Events are not part of what a handler relies on. */
  lemma EventPc(c: Case, t: Nonce, pc: Pc, kind: string, at: nat)
    requires PcInv(c, t, pc)
    ensures PcInv(WithEvent(c, kind, at), t, pc)
  {
    hide ReadyFindings, Opaque, ProvesWrite, ClaimFacts;
  }

  /** An edit that records an event and moves on. */
  lemma EventStep(s: System, t: Nonce, c: Case, kind: string, pc: Pc)
    requires Inv(s) && Owns(s, t) && Driving(s.tasks[t].pc) && Plain(Own(s, t), c)
    requires c.owner == Some(t) || c.owner.None?
    requires Internal(pc) || (pc.Emailing? && !HasEmail(s.calls, s.tasks[t].key))
    requires Driving(pc) ==> c.owner == Some(t) && PcInv(c, t, pc)
    ensures Inv(Save(s, t, WithEvent(c, kind, s.now), pc))
  {
    hide PcInv, HasEmail, Inv, Plain;
    EventPlain(Own(s, t), c, kind, s.now);
    if Driving(pc) {
      EventPc(c, t, pc, kind, s.now);
    }
    PlainStep(s, t, WithEvent(c, kind, s.now), pc);
  }

  lemma SamePlain(c: Case)
    requires CaseInv(c)
    ensures Plain(c, c)
  {
    hide CaseInv;
  }

  // ---------------------------------------------------------------- registration

  lemma RegisterStep(s: System, t: Nonce, proof: Receipt)
    requires Inv(s) && Owns(s, t) && s.tasks[t].pc == Registering(proof)
    ensures Inv(StepRegister(s, t, proof))
  {
    hide CaseInv, Inv, HasCall, HasEmail;
    OwnFacts(s, t);
    var b := Own(s, t);
    var collision := Collides(s.index, s.tasks[t].key, proof);
    RegisterKeeps(b, proof, collision);
    RegisteredFacts(b);
    var c := b.(caseId := proof.id, caseNumber := proof.number,
                status := if collision then WriteOutcomeUnknown else Investigating, suspended := collision);
    var kind := if collision then "case_reference_collision" else "case_registered";
    EventKeeps(c, kind, s.now);
    var pc := if collision then Aborting else Taking;
    SaveKeeps(s, t, WithEvent(c, kind, s.now), pc, s.nextNonce);
    assert StepRegister(s, t, proof) == Save(s, t, WithEvent(c, kind, s.now), pc).(nextNonce := s.nextNonce);
  }

  lemma RegisteredFacts(c: Case)
    requires CaseInv(c) && c.caseId == ""
    ensures c.salesforceStatus == "" && c.privateChatId == ""
  {
    hide QueueInv, HistoryInv, WritesInv, IdleInv, AuthorityInv, IsReference;
  }

  // ---------------------------------------------------------------- a turn

  lemma StartStep(s: System, t: Nonce)
    requires Inv(s) && Owns(s, t) && s.tasks[t].pc.Starting?
    ensures Inv(Save(s, t, WithEvent(Own(s, t), "case_investigation_started", s.now),
                     Checking(s.tasks[t].pc.turn, s.tasks[t].pc.inputComplete)))
  {
    hide CaseInv, Plain, Inv, HasEmail, HasCall, Quiet;
    OwnFacts(s, t);
    SamePlain(Own(s, t));
    EventStep(s, t, Own(s, t), "case_investigation_started", Checking(s.tasks[t].pc.turn, s.tasks[t].pc.inputComplete));
  }

  lemma BlockStep(s: System, t: Nonce)
    requires Inv(s) && Owns(s, t) && s.tasks[t].pc.Blocking?
    ensures Inv(Save(s, t, WithEvent(BlockedEdit(Own(s, t)), "case_investigation_blocked", s.now), Aborting))
  {
    hide CaseInv, Inv, HasEmail, HasCall, Quiet;
    OwnFacts(s, t);
    BlockedKeeps(Own(s, t));
    EventStep(s, t, BlockedEdit(Own(s, t)), "case_investigation_blocked", Aborting);
  }

  lemma RecordLands(c: Case, t: Nonce, g: nat, found: Investigation)
    requires CaseInv(c) && PcInv(c, t, Recording(g, found)) && c.owner == Some(t)
    ensures var e := InvestigatedEdit(c, g, found);
      && (e.Changed? ==> forall at: nat, kind ::
            PcInv(WithEvent(e.record, kind, at), t, AfterFindings(g, found, WithEvent(e.record, kind, at))))
      && (e.Changed? ==> Plain(c, e.record) && e.record.owner == c.owner)
      && (e.Untouched? ==> PcInv(c, t, Taking))
  {
    hide CaseInv;
    InvestigatedKeeps(c, g, found);
  }

  lemma RecordStep(s: System, t: Nonce, g: nat, found: Investigation)
    requires Inv(s) && Owns(s, t) && s.tasks[t].pc == Recording(g, found)
    ensures Inv(StepRecord(s, t, g, found))
  {
    hide CaseInv, PcInv, Inv, HasEmail, HasCall, Plain, InvestigatedEdit;
    OwnFacts(s, t);
    RecordLands(Own(s, t), t, g, found);
    match InvestigatedEdit(Own(s, t), g, found)
    case Changed(d) =>
      var c := WithEvent(d, "case_investigated", s.now);
      EventPlain(Own(s, t), d, "case_investigated", s.now);
      PlainStep(s, t, c, AfterFindings(g, found, c));
    case Raised =>
      InvestigateRaisesNever(Own(s, t), g, found);
    case Untouched =>
      QuietPending(s.calls, Task(s.tasks[t].key, Taking));
      GotoKeeps(s, t, Taking, s.nextNonce);
      assert Goto(s, t, Taking).(nextNonce := s.nextNonce) == Goto(s, t, Taking);
  }

  lemma InvestigateRaisesNever(c: Case, g: nat, found: Investigation)
    ensures !InvestigatedEdit(c, g, found).Raised?
  {
  }

  lemma SaveChatLands(c: Case, t: Nonce, g: nat, found: Investigation, chatId: string)
    requires CaseInv(c) && PcInv(c, t, SavingChat(g, found, chatId)) && c.owner == Some(t)
    ensures var d := ChatReadyEdit(c, chatId);
      && Plain(c, d) && d.owner == Some(t)
      && (forall at: nat, kind ::
            PcInv(WithEvent(d, kind, at), t, Claiming(Update(g), Turn(g, found, WithEvent(d, kind, at)))))
  {
    hide CaseInv;
    ChatReadyKeeps(c, chatId);
  }

  lemma SaveChatStep(s: System, t: Nonce, g: nat, found: Investigation, chatId: string)
    requires Inv(s) && Owns(s, t) && s.tasks[t].pc == SavingChat(g, found, chatId)
    ensures Inv(StepSaveChat(s, t, g, found, chatId))
  {
    hide CaseInv, PcInv, Inv, HasEmail, HasCall, Plain;
    OwnFacts(s, t);
    SaveChatLands(Own(s, t), t, g, found, chatId);
    var d := ChatReadyEdit(Own(s, t), chatId);
    EventPlain(Own(s, t), d, "case_private_chat_ready", s.now);
    var c := WithEvent(d, "case_private_chat_ready", s.now);
    PlainStep(s, t, c, Claiming(Update(g), Turn(g, found, c)));
  }

  /** The message is always composed: the held record carries the findings of the turn. */
  lemma NoteStep(s: System, t: Nonce, g: nat, found: Investigation, snapshot: Case)
    requires Inv(s) && Owns(s, t) && s.tasks[t].pc == Noting(g, found, snapshot)
    ensures snapshot.investigation == Some(found)
    ensures Inv(StepNote(s, t, g, found, snapshot))
  {
    hide CaseInv, Inv, HasEmail, HasCall, Plain;
    OwnFacts(s, t);
    SamePlain(Own(s, t));
    EventStep(s, t, Own(s, t), "case_updated", Claiming(Delivery(g), Turn(g, found, snapshot)));
  }

  lemma DeliverLands(c: Case, t: Nonce, g: nat, found: Investigation, messageId: string)
    requires CaseInv(c) && PcInv(c, t, Delivering(g, found, messageId)) && c.owner == Some(t)
    ensures Delivery(g) in c.writes
    ensures var d := DeliveredEdit(c, g, found, messageId);
            Plain(c, d) && d.owner == Some(t) && PcInv(d, t, Taking)
  {
    hide CaseInv;
    DeliveredKeeps(c, g, found, messageId);
  }

  lemma DeliverStep(s: System, t: Nonce, g: nat, found: Investigation, messageId: string)
    requires Inv(s) && Owns(s, t) && s.tasks[t].pc == Delivering(g, found, messageId)
    ensures Inv(StepDeliver(s, t, g, found, messageId))
  {
    hide CaseInv, PcInv, Inv, HasEmail, HasCall, Plain;
    OwnFacts(s, t);
    DeliverLands(Own(s, t), t, g, found, messageId);
    EventStep(s, t, DeliveredEdit(Own(s, t), g, found, messageId), "case_answer_delivered", Taking);
  }

  // ---------------------------------------------------------------- closure

  lemma VerifyStep(s: System, t: Nonce, g: nat)
    requires Inv(s) && Owns(s, t) && s.tasks[t].pc == Verifying(g)
    ensures Inv(Save(s, t, WithEvent(Own(s, t).(status := VerifyingClose), "case_close_acknowledged", s.now), ReadingStatus(g)))
  {
    hide CaseInv, Inv, HasEmail, HasCall;
    OwnFacts(s, t);
    var c := Own(s, t).(status := VerifyingClose);
    VerifyKeeps(Own(s, t));
    EventStep(s, t, c, "case_close_acknowledged", ReadingStatus(g));
  }

  lemma VerifyKeeps(c: Case)
    requires CaseInv(c)
    ensures CaseInv(c.(status := VerifyingClose))
  {
  }

  lemma SaveStatusStep(s: System, t: Nonce, g: nat, status: string, at: nat)
    requires Inv(s) && Owns(s, t) && s.tasks[t].pc == SavingStatus(g, status, at)
    ensures Inv(Save(s, t, ReadbackEdit(Own(s, t), status, at).(updatedAt := s.now),
                     if status == "Closed" then Settling(g) else Aborting))
  {
    hide CaseInv, Inv, HasEmail, HasCall;
    OwnFacts(s, t);
    ReadbackKeeps(Own(s, t), status, at);
    StampKeeps(ReadbackEdit(Own(s, t), status, at), s.now);
    PlainStep(s, t, ReadbackEdit(Own(s, t), status, at).(updatedAt := s.now),
              if status == "Closed" then Settling(g) else Aborting);
  }

  lemma NoEmailYet(s: System, key: CaseKey)
    requires CallsInv(s) && key in s.index.cases && s.index.cases[key].salesforceStatus != "Closed"
    ensures !HasEmail(s.calls, key)
  {
    hide ClaimFacts;
    forall i | 0 <= i < |s.calls| ensures !(s.calls[i].EmailCall? && s.calls[i].key == key) {
      assert CallInv(s.index, s.calls[i]);
    }
  }

  lemma SettleLands(c: Case, t: Nonce, g: nat, at: nat)
    requires CaseInv(c) && PcInv(c, t, Settling(g)) && c.owner == Some(t)
    ensures var d := WithEvent(ClosedEdit(c, g), "case_close_readback", at);
      && Plain(c, d) && (d.owner == Some(t) || d.owner.None?)
      && (d.owner == Some(t) ==>
            PcInv(d, t, Emailing(g, d)) && PcInv(d, t, Claiming(ClosedDelivery, Farewell(g, false, false, d))))
  {
    hide CaseInv;
    ClosedKeeps(c, g);
    FarewellFresh(c);
    var d := ClosedEdit(c, g);
    assert Plain(c, d);
    EventPlain(c, d, "case_close_readback", at);
  }

  /** Nobody is told of a closure before Salesforce is known to be closed. */
  lemma FarewellFresh(c: Case)
    requires CaseInv(c) && c.salesforceStatus == ""
    ensures ClosedDelivery !in c.writes
  {
  }
}
