/** The case record as the service holds it: one dictionary that each transform edits in place, entry by entry.

    Every method is proved to turn the record into the one its specification function gives. */
module ComplianceCaseFile {
  import opened Options
  import opened ComplianceRecord

  datatype Verdict = Edited | Skipped | OwnershipLost

  class CaseFile {
    var record: Case

    constructor (key: CaseKey, requesterId: string, conversationId: string, complete: bool, owner: Nonce, at: nat)
      ensures record == NewCase(key, requesterId, conversationId, complete, owner, at)
    {
      record := Case(key, requesterId, conversationId, Received, Some(owner), "", "", "", 0, complete, false, [], map[],
                     0, [], [Reply(0, "", at, None)], [], [], None, None, None, None, None, None, None, "", Admitted,
                     at, at);
      new;
      Note("case_received", at);
    }

    /** `_event`. */
    method Note(kind: string, at: nat)
      modifies this
      ensures record == WithEvent(old(record), kind, at)
    {
      record := record.(sequence := record.sequence + 1);
      record := record.(timeline := record.timeline + [Event(record.sequence, kind, at, record.status)]);
      if |record.timeline| > MAX_TIMELINE_EVENTS {
        record := record.(timeline := record.timeline[|record.timeline| - MAX_TIMELINE_EVENTS..]);
      }
      record := record.(updatedAt := at);
    }

    method Claim(name: WriteName, pinned: Option<nat>, nonce: Nonce, claimant: Nonce, at: nat) returns (v: Verdict)
      modifies this
      ensures match ClaimEdit(old(record), name, pinned, nonce, claimant, at)
              case Changed(c) => v == Edited && record == c
              case Untouched => v == Skipped && record == old(record)
              case Raised => v == OwnershipLost && record == old(record)
    {
      if record.suspended || (pinned.Some? && record.generation != pinned.value) {
        return Skipped;
      }
      if name in record.writes || !AllCompleted(record.writes) {
        return OwnershipLost;
      }
      record := record.(writes := record.writes[name := Write(nonce, claimant, Claimed, at, None, 0)]);
      record := record.(status := PendingStatus(name));
      v := Edited;
    }

    method Complete(name: WriteName, nonce: Nonce, claimant: Nonce, proof: Receipt, at: nat) returns (v: Verdict)
      modifies this
      ensures match CompleteEdit(old(record), name, nonce, claimant, proof, at)
              case Changed(c) => v == Edited && record == c
              case _ => v == OwnershipLost && record == old(record)
    {
      if name !in record.writes {
        return OwnershipLost;
      }
      var write := record.writes[name];
      if write.owner != claimant || write.nonce != nonce || write.status != Claimed {
        return OwnershipLost;
      }
      write := write.(status := Completed, receipt := Some(proof), completedAt := at);
      record := record.(writes := record.writes[name := write]);
      v := Edited;
    }

    /** `unknown` inside `_abort`: one pass over the writes. */
    method Abort(claimant: Nonce)
      modifies this
      ensures record == AbortEdit(old(record), claimant)
    {
      var writes, left := record.writes, record.writes.Keys;
      while left != {}
        invariant left <= record.writes.Keys == writes.Keys && record == old(record)
        invariant forall name <- writes ::
          writes[name] == if name in left then record.writes[name] else MarkUnknown(record.writes[name], claimant)
        decreases left
      {
        var name :| name in left;
        if writes[name].status == Claimed && writes[name].owner == claimant {
          writes := writes[name := writes[name].(status := Unknown)];
        }
        left := left - {name};
      }
      assert writes == map name | name in record.writes :: MarkUnknown(record.writes[name], claimant);
      record := record.(writes := writes);
      record := record.(status := WriteOutcomeUnknown, suspended := true, resolution := None, lastOutcome := Interrupted);
    }

    method Take()
      modifies this
      ensures record == TakeEdit(old(record))
    {
      if record.suspended || record.salesforceStatus == "Closed" || |record.pendingReplies| == 0 {
        record := record.(owner := None, work := None);
      } else {
        var next := record.pendingReplies[0];
        record := record.(pendingReplies := record.pendingReplies[1..]);
        record := record.(work := Some(next), latestReply := if |next.text| > 0 then Some(next) else None);
        record := record.(status := Investigating, resolution := None);
      }
    }

    method Record(turn: nat, found: Investigation) returns (v: Verdict)
      modifies this
      ensures match InvestigatedEdit(old(record), turn, found)
              case Changed(c) => v == Edited && record == c
              case _ => v == Skipped && record == old(record)
    {
      if record.generation != turn || record.suspended {
        return Skipped;
      }
      record := record.(investigation := Some(found));
      var history := record.investigationHistory + [found];
      if |history| > MAX_INVESTIGATION_HISTORY {
        history := history[|history| - MAX_INVESTIGATION_HISTORY..];
      }
      record := record.(investigationHistory := history);
      v := Edited;
    }

    method Deliver(turn: nat, found: Investigation, messageId: string)
      requires Delivery(turn) in record.writes
      modifies this
      ensures record == DeliveredEdit(old(record), turn, found, messageId)
    {
      var write := record.writes[Delivery(turn)];
      record := record.(lastDelivery := Some(Contact(turn, messageId, write.completedAt)));
      if record.generation != turn || record.suspended {
        record := record.(resolution := None);
        return;
      }
      record := record.(resolution := if found.resolutionReady then Some(Resolution(turn, messageId, write.nonce)) else None);
      record := record.(status := if record.resolution.Some? then AwaitingConfirmation
                                  else if |found.questions| > 0 then WaitingForRequester else NeedsSpecialistReview);
      record := record.(lastOutcome := AnswerDelivered);
    }

    method Settle(turn: nat)
      modifies this
      ensures record == ClosedEdit(old(record), turn)
    {
      record := record.(salesforceStatus := "Closed", resolution := None);
      if record.generation != turn || |record.pendingReplies| > 0 || record.suspended {
        record := record.(status := NeedsSpecialistReview, suspended := true, owner := None,
                          lastOutcome := ClosedWithNewMaterial);
      } else {
        record := record.(status := Closed, lastOutcome := ClosureConfirmed);
      }
    }

    method Notify(turn: nat, told: bool)
      modifies this
      ensures record == NotifiedEdit(old(record), turn, told)
    {
      record := record.(owner := None);
      if record.generation == turn && !record.suspended && told {
        record := record.(status := Closed);
      } else {
        record := record.(status := NeedsSpecialistReview, suspended := true);
      }
    }

    /** `accept` from the receipt check on. */
    method Accept(m: Inbound, receivedAt: nat, intent: Intent, claimant: Nonce) returns (step: Step)
      modifies this
      ensures (record, step) == AcceptEdit(old(record), m, receivedAt, intent, claimant)
    {
      step := Ignore;
      if |record.activities| >= MAX_ACTIVITY_RECEIPTS {
        record := record.(suspended := true, resolution := None, lastOutcome := ActivityCapacity);
        if record.status != WriteOutcomeUnknown {
          record := record.(status := NeedsSpecialistReview);
        }
        Note("case_capacity_blocked", receivedAt);
        return;
      }
      record := record.(activities := record.activities + [KeyOf(m)]);
      var resolvable := CanResolve(record, receivedAt);
      if m.resolve && !resolvable {
        Note("case_resolution_rejected", receivedAt);
      } else if m.resolve || ((intent == ConfirmWithEmail || intent == ConfirmWithoutEmail) && resolvable) {
        record := record.(owner := Some(claimant), status := Closing,
                          confirmation := Some(Confirmation(m.text, receivedAt, KeyOf(m), record.generation,
                                                            record.resolution.value.messageId,
                                                            intent == ConfirmWithEmail)));
        step := StartClosing;
        Note("case_resolution_requested", receivedAt);
      } else if intent == SmallTalk {
        step := Notice;
        Note("case_chat_received", receivedAt);
      } else {
        step := AddMaterial(m, receivedAt, claimant);
      }
    }

    method AddMaterial(m: Inbound, receivedAt: nat, claimant: Nonce) returns (step: Step)
      modifies this
      ensures (record, step) == MaterialEdit(old(record), m, receivedAt, claimant)
    {
      step := Ignore;
      Queue(m, receivedAt);
      if record.suspended {
        if record.status != WriteOutcomeUnknown {
          record := record.(status := NeedsSpecialistReview);
        }
      } else {
        record := record.(status := Investigating);
        if record.owner.None? {
          record := record.(owner := Some(claimant));
          step := StartInvestigating;
        }
      }
      Note("case_reply_received", receivedAt);
    }

    /** The new turn: older findings and authority go, the reply joins the queue and the history. */
    method Queue(m: Inbound, receivedAt: nat)
      modifies this
      ensures record == QueueMaterial(old(record), m, receivedAt)
    {
      record := record.(resolution := None);
      record := record.(investigation := None);
      record := record.(inputComplete := record.inputComplete && m.safeText == m.text);
      if record.generation >= MAX_TURNS - 1 || |record.pendingReplies| >= MAX_PENDING_REPLIES {
        record := record.(suspended := true, lastOutcome := ClarificationCapacity);
      } else if !record.suspended {
        record := record.(generation := record.generation + 1);
        var reply := Reply(record.generation, m.safeText, receivedAt, Some(KeyOf(m)));
        record := record.(pendingReplies := record.pendingReplies + [reply]);
        record := record.(replyHistory := record.replyHistory + [reply]);
      }
      if record.salesforceStatus == "Closed" {
        record := record.(suspended := true, lastOutcome := MaterialAfterClosure);
      }
    }
  }
}
