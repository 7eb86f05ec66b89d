/** Each transform, applied where the protocol applies it, keeps what the protocol knows about a record. */
module ComplianceKeeps {
  import opened Options
  import opened ComplianceRecord
  import opened ComplianceIndex

  /** The parts of a record no driver ever touches, and the ones that only move one way. */
  ghost predicate Advances(c: Case, d: Case) {
    && d.key == c.key && d.requesterId == c.requesterId && d.conversationId == c.conversationId
    && d.activities == c.activities && d.generation == c.generation
    && (c.suspended ==> d.suspended)
    && (forall name <- c.writes :: name in d.writes && d.writes[name].nonce == c.writes[name].nonce)
  }

  lemma EventKeeps(c: Case, kind: string, at: nat)
    requires CaseInv(c)
    ensures CaseInv(WithEvent(c, kind, at)) && Advances(c, WithEvent(c, kind, at))
  {
  }

  lemma StampKeeps(c: Case, at: nat)
    requires CaseInv(c)
    ensures CaseInv(c.(updatedAt := at))
  {
  }

  /** Which claims leave the record valid. */
  ghost predicate Claimable(c: Case, name: WriteName) {
    && (name != Create ==> c.caseId != "")
    && (name.Delivery? || name == Close || name == ClosedDelivery ==> c.privateChatId != "")
    && (name.Update? || name.Delivery? ==> name.turn + |c.pendingReplies| <= c.generation)
    && c.owner.Some?
    && (name == Close ==> c.salesforceStatus == "")
    && (name == ClosedDelivery ==> c.salesforceStatus == "Closed")
  }

  lemma SameHistory(c: Case, d: Case)
    requires QueueInv(c) && HistoryInv(c) && d.generation == c.generation && d.replyHistory == c.replyHistory
    requires d.pendingReplies == c.pendingReplies && d.activities == c.activities && d.sequence == c.sequence
    requires d.timeline == c.timeline && d.investigationHistory == c.investigationHistory
    ensures QueueInv(d) && HistoryInv(d)
  {
  }

  /** The parts of the record invariant together. */
  lemma Together(c: Case)
    requires QueueInv(c) && HistoryInv(c) && WritesInv(c) && ValidTargets(c) && IdleInv(c) && AuthorityInv(c)
    ensures CaseInv(c)
  {
    hide QueueInv, HistoryInv, WritesInv, ValidTargets, IdleInv, AuthorityInv;
  }

  lemma Apart(c: Case)
    requires CaseInv(c)
    ensures QueueInv(c) && HistoryInv(c) && WritesInv(c) && ValidTargets(c) && IdleInv(c) && AuthorityInv(c)
  {
    hide QueueInv, HistoryInv, WritesInv, ValidTargets, IdleInv, AuthorityInv;
  }

  /** The record with one write newly claimed. */
  function WithClaim(c: Case, name: WriteName, nonce: Nonce, owner: Nonce, at: nat): Case {
    c.(writes := c.writes[name := Write(nonce, owner, Claimed, at, None, 0)], status := PendingStatus(name))
  }

  lemma ClaimWrites(c: Case, name: WriteName, nonce: Nonce, owner: Nonce, at: nat)
    requires WritesInv(c) && Claimable(c, name) && name !in c.writes && AllCompleted(c.writes)
    ensures WritesInv(WithClaim(c, name, nonce, owner, at))
  {
    hide ProvesWrite;
  }

  lemma ClaimTargets(c: Case, name: WriteName, nonce: Nonce, owner: Nonce, at: nat)
    requires ValidTargets(c) && Claimable(c, name) && name !in c.writes
    ensures ValidTargets(WithClaim(c, name, nonce, owner, at))
  {
    hide IsReference, Opaque;
  }

  lemma ClaimRest(c: Case, name: WriteName, nonce: Nonce, owner: Nonce, at: nat)
    requires IdleInv(c) && AuthorityInv(c) && Claimable(c, name) && name !in c.writes
    ensures IdleInv(WithClaim(c, name, nonce, owner, at)) && AuthorityInv(WithClaim(c, name, nonce, owner, at))
  {
  }

  lemma ClaimKeeps(c: Case, name: WriteName, generation: Option<nat>, nonce: Nonce, owner: Nonce, at: nat)
    requires CaseInv(c) && Claimable(c, name)
    ensures var e := ClaimEdit(c, name, generation, nonce, owner, at);
            e.Changed? ==> CaseInv(e.record) && Advances(c, e.record)
  {
    hide CaseInv, QueueInv, HistoryInv, WritesInv, ValidTargets, IdleInv, AuthorityInv, AllCompleted;
    var e := ClaimEdit(c, name, generation, nonce, owner, at);
    if e.Changed? {
      Apart(c);
      assert e.record == WithClaim(c, name, nonce, owner, at);
      ClaimWrites(c, name, nonce, owner, at);
      ClaimTargets(c, name, nonce, owner, at);
      ClaimRest(c, name, nonce, owner, at);
      SameHistory(c, e.record);
      Together(e.record);
    }
  }

  /** The record with one write completed. */
  function Completing(c: Case, name: WriteName, proof: Receipt, at: nat): Case
    requires name in c.writes
  {
    c.(writes := c.writes[name := c.writes[name].(status := Completed, receipt := Some(proof), completedAt := at)])
  }

  lemma CompletingWrites(c: Case, name: WriteName, proof: Receipt, at: nat)
    requires name in c.writes && WritesInv(c) && ProvesWrite(name, proof)
    ensures WritesInv(Completing(c, name, proof, at))
  {
    hide ProvesWrite;
  }

  lemma CompletingTargets(c: Case, name: WriteName, proof: Receipt, at: nat)
    requires name in c.writes && c.writes[name].status == Claimed && ValidTargets(c)
    ensures ValidTargets(Completing(c, name, proof, at))
  {
    hide IsReference, Opaque;
  }

  lemma CompletingRest(c: Case, name: WriteName, proof: Receipt, at: nat)
    requires name in c.writes && c.writes[name].status == Claimed && c.owner.Some? && AuthorityInv(c)
    ensures IdleInv(Completing(c, name, proof, at)) && AuthorityInv(Completing(c, name, proof, at))
  {
  }

  lemma CompleteKeeps(c: Case, name: WriteName, nonce: Nonce, owner: Nonce, proof: Receipt, at: nat)
    requires CaseInv(c) && ProvesWrite(name, proof) && c.owner.Some?
    ensures var e := CompleteEdit(c, name, nonce, owner, proof, at);
            e.Changed? ==> CaseInv(e.record) && Advances(c, e.record)
  {
    hide CaseInv, QueueInv, HistoryInv, WritesInv, ValidTargets, IdleInv, AuthorityInv, ProvesWrite;
    var e := CompleteEdit(c, name, nonce, owner, proof, at);
    if e.Changed? {
      Apart(c);
      assert e.record == Completing(c, name, proof, at);
      CompletingWrites(c, name, proof, at);
      CompletingTargets(c, name, proof, at);
      CompletingRest(c, name, proof, at);
      SameHistory(c, e.record);
      Together(e.record);
    }
  }

  lemma AbortKeeps(c: Case, owner: Nonce)
    requires CaseInv(c) && c.owner.Some?
    ensures CaseInv(AbortEdit(c, owner)) && Advances(c, AbortEdit(c, owner))
  {
  }

  lemma RegisterKeeps(c: Case, proof: Receipt, collision: bool)
    requires CaseInv(c) && c.caseId == "" && !c.suspended && c.owner.Some?
    requires ProvesWrite(Create, proof)
    requires Create in c.writes && c.writes[Create].status == Completed && c.writes[Create].receipt == Some(proof)
    ensures var d := c.(caseId := proof.id, caseNumber := proof.number,
                        status := if collision then WriteOutcomeUnknown else Investigating, suspended := collision);
            CaseInv(d) && Advances(c, d)
  {
  }

  lemma TakeKeeps(c: Case)
    requires CaseInv(c) && Quiet(c)
    requires c.suspended || c.salesforceStatus == "Closed" || c.pendingReplies != [] || DeliveredNow(c)
    ensures CaseInv(TakeEdit(c)) && Advances(c, TakeEdit(c))
  {
  }

  lemma BlockedKeeps(c: Case)
    requires CaseInv(c) && Quiet(c)
    ensures CaseInv(BlockedEdit(c)) && Advances(c, BlockedEdit(c))
  {
  }

  lemma InvestigatedKeeps(c: Case, g: nat, found: Investigation)
    requires CaseInv(c)
    ensures var e := InvestigatedEdit(c, g, found);
            e.Changed? ==> CaseInv(e.record) && Advances(c, e.record)
  {
  }

  lemma ChatReadyKeeps(c: Case, chatId: string)
    requires CaseInv(c) && c.privateChatId == "" && c.owner.Some? && Opaque(chatId)
    requires Chat in c.writes && c.writes[Chat].status == Completed && c.writes[Chat].receipt == Some(ChatOpened(chatId))
    ensures CaseInv(ChatReadyEdit(c, chatId)) && Advances(c, ChatReadyEdit(c, chatId))
  {
  }

  lemma DeliveredKeeps(c: Case, g: nat, found: Investigation, messageId: string)
    requires CaseInv(c) && c.owner.Some? && c.salesforceStatus == "" && g + |c.pendingReplies| == c.generation
    requires Delivery(g) in c.writes && c.writes[Delivery(g)].status == Completed
    requires c.writes[Delivery(g)].receipt == Some(MessageSent(messageId))
    ensures CaseInv(DeliveredEdit(c, g, found, messageId)) && Advances(c, DeliveredEdit(c, g, found, messageId))
  {
    var d := DeliveredEdit(c, g, found, messageId);
    assert Advances(c, d) by { hide QueueInv, HistoryInv, WritesInv, ValidTargets, IdleInv, AuthorityInv; }
    assert QueueInv(d) && HistoryInv(d) by { hide WritesInv, ValidTargets, IdleInv, AuthorityInv, Advances; }
    assert WritesInv(d) by { hide QueueInv, HistoryInv, ValidTargets, IdleInv, AuthorityInv, Advances; }
    assert ValidTargets(d) by { hide QueueInv, HistoryInv, WritesInv, IdleInv, AuthorityInv, Advances; }
    assert IdleInv(d) && AuthorityInv(d) by { hide HistoryInv, WritesInv, ValidTargets, Advances; }
    hide QueueInv, HistoryInv, WritesInv, ValidTargets, IdleInv, AuthorityInv, Advances, DeliveredEdit;
  }

  lemma ReadbackKeeps(c: Case, status: string, at: nat)
    requires CaseInv(c) && c.salesforceStatus == ""
    ensures CaseInv(ReadbackEdit(c, status, at)) && Advances(c, ReadbackEdit(c, status, at))
  {
  }

  lemma ClosedKeeps(c: Case, g: nat)
    requires CaseInv(c) && AllCompleted(c.writes) && c.privateChatId != ""
    requires Close in c.writes && c.closureReadback.Some? && c.closureReadback.value.status == "Closed"
    ensures CaseInv(ClosedEdit(c, g)) && Advances(c, ClosedEdit(c, g))
  {
  }

  lemma NotifiedKeeps(c: Case, g: nat, told: bool)
    requires CaseInv(c) && Quiet(c) && c.salesforceStatus == "Closed"
    ensures CaseInv(NotifiedEdit(c, g, told)) && Advances(c, NotifiedEdit(c, g, told))
  {
  }

  lemma NewCaseKeeps(key: CaseKey, requesterId: string, conversationId: string, complete: bool, owner: Nonce, at: nat)
    ensures CaseInv(NewCase(key, requesterId, conversationId, complete, owner, at))
  {
  }
}
