/** What holds between the index, the handlers and the calls made so far, in every reachable state. */
module ComplianceInvariant {
  import opened Options
  import opened ComplianceRecord
  import opened ComplianceIndex
  import opened ComplianceProtocol

  // ---------------------------------------------------------------- calls

  ghost predicate IsCall(e: Call, key: CaseKey, name: WriteName) {
    e.WriteCall? && e.key == key && e.name == name
  }

  ghost predicate HasCall(calls: seq<Call>, key: CaseKey, name: WriteName) {
    exists i :: 0 <= i < |calls| && IsCall(calls[i], key, name)
  }

  ghost predicate HasEmail(calls: seq<Call>, key: CaseKey) {
    exists i :: 0 <= i < |calls| && calls[i].EmailCall? && calls[i].key == key
  }

  /** The same kind of call about the same case. */
  predicate SameEffect(a: Call, b: Call) {
    match (a, b)
    case (WriteCall(key, name, _, _, _), WriteCall(key', name', _, _, _)) => key == key' && name == name'
    case (EmailCall(key, _), EmailCall(key', _)) => key == key'
    case _ => false
  }

  // ---------------------------------------------------------------- handlers

  predicate Driving(pc: Pc) {
    !pc.Admitting? && !pc.Routing? && !pc.Accepting? && !pc.Aborting? && !pc.Done?
  }

  predicate Live(c: Case, g: nat) {
    c.generation == g && !c.suspended
  }

  /** The requester confirmed this very answer, after it was delivered, and nothing has happened since. */
  ghost predicate Justified(c: Case, g: nat) {
    && Live(c, g) && c.pendingReplies == [] && c.inputComplete
    && c.confirmation.Some? && c.confirmation.value.generation == g
    && c.investigation.Some? && c.investigation.value.generation == g && ReadyFindings(c.investigation.value)
    && Delivery(g) in c.writes && c.writes[Delivery(g)].status == Completed
    && c.writes[Delivery(g)].receipt == Some(MessageSent(c.confirmation.value.answerMessageId))
    && c.confirmation.value.at >= c.writes[Delivery(g)].completedAt
  }

  ghost predicate InTurn(c: Case, g: nat) {
    && g + |c.pendingReplies| == c.generation && c.caseId != "" && c.salesforceStatus == ""
    && c.resolution.None?
  }

  ghost predicate TurnFindings(c: Case, g: nat, found: Investigation) {
    && found.generation == g && (Live(c, g) ==> c.investigation == Some(found))
    && (c.generation == g && c.investigation.Some? ==> c.investigation == Some(found))
  }

  /** A turn past its chat: the held record addresses the case's own chat and carries the turn's findings. */
  ghost predicate Snapshot(c: Case, g: nat, found: Investigation, snapshot: Case) {
    && c.privateChatId != "" && snapshot.privateChatId == c.privateChatId && snapshot.caseNumber == c.caseNumber
    && (Live(c, g) ==> snapshot.investigation == Some(found))
  }

  /** Holds from before the claim of `name` until its receipt is saved. */
  ghost predicate ContextInv(c: Case, name: WriteName, context: Context) {
    match context
    case Registration =>
      && name == Create && c.caseId == "" && !c.suspended && c.pendingReplies != [] && c.salesforceStatus == ""
    case Turn(g, found, snapshot) =>
      && InTurn(c, g) && TurnFindings(c, g, found)
      && (match name
          case Chat => c.privateChatId == "" && Update(g) !in c.writes && Delivery(g) !in c.writes
          case Update(h) => h == g && Delivery(g) !in c.writes && Snapshot(c, g, found, snapshot)
          case Delivery(h) => h == g && Snapshot(c, g, found, snapshot) && snapshot.investigation == Some(found)
          case _ => false)
    case Closure(g) =>
      && name == Close && c.caseId != "" && c.privateChatId != "" && c.salesforceStatus == ""
      && g + |c.pendingReplies| == c.generation && c.confirmation.Some? && c.confirmation.value.generation == g
    case Farewell(g, _, _, snapshot) =>
      && name == ClosedDelivery && c.caseId != "" && c.privateChatId != "" && c.salesforceStatus == "Closed"
      && snapshot.privateChatId == c.privateChatId
  }

  /** Every write but `name`, which is claimed by the handler itself, has completed. */
  ghost predicate OnlyOpen(c: Case, t: Nonce, name: WriteName, nonce: Nonce) {
    && name in c.writes && c.writes[name].nonce == nonce && c.writes[name].owner == t
    && c.writes[name].status == Claimed
    && (forall other <- c.writes :: other != name ==> c.writes[other].status == Completed)
    && (c.privateChatId == "" && name != Chat ==> Chat !in c.writes)
    && (c.salesforceStatus == "" && name != Close ==> Close !in c.writes)
  }

  /** Once the update of a turn is claimed, the held record is known to carry that turn's findings. */
  predicate Composed(name: WriteName, context: Context) {
    context.Turn? && name != Chat ==> context.snapshot.investigation == Some(context.found)
  }

  /** What the record looked like when the claim of `name` was committed. */
  ghost predicate ClaimFacts(claimed: Case, name: WriteName, nonce: Nonce, context: Context) {
    && name in claimed.writes && claimed.writes[name].nonce == nonce
    && (forall other <- claimed.writes :: other != name ==> claimed.writes[other].status == Completed)
    && !claimed.suspended
    && (name == Close ==> context.Closure? && Justified(claimed, context.turn))
    && (name == ClosedDelivery ==> context.Farewell? && claimed.salesforceStatus == "Closed"
                                   && context.snapshot.privateChatId == claimed.privateChatId)
    && (name.Delivery? ==> context.Turn? && name.turn == context.turn == claimed.generation
                           && claimed.investigation == Some(context.found) == context.snapshot.investigation
                           && context.snapshot.privateChatId == claimed.privateChatId)
  }

  ghost predicate Completion(c: Case, name: WriteName, proof: Receipt) {
    name in c.writes && c.writes[name].status == Completed && c.writes[name].receipt == Some(proof)
  }

  ghost predicate AfterClose(c: Case) {
    && AllCompleted(c.writes) && Close in c.writes && c.caseId != "" && c.privateChatId != ""
    && c.salesforceStatus == ""
  }

  ghost predicate PcInv(c: Case, t: Nonce, pc: Pc) {
    match pc
    case Claiming(name, context) =>
      && Quiet(c) && name !in c.writes && ContextInv(c, name, context)
      && (context.Closure? && Live(c, context.turn) ==> Justified(c, context.turn))
    case Invoking(name, nonce, claimed, context) =>
      && OnlyOpen(c, t, name, nonce) && ContextInv(c, name, context) && Composed(name, context)
      && ClaimFacts(claimed, name, nonce, context)
    case Calling(name, nonce, claimed, context) =>
      OnlyOpen(c, t, name, nonce) && ContextInv(c, name, context) && Composed(name, context)
    case Completing(name, nonce, proof, at, context) =>
      && OnlyOpen(c, t, name, nonce) && ContextInv(c, name, context) && Composed(name, context)
      && ProvesWrite(name, proof)
    case Registering(proof) =>
      Quiet(c) && c.caseId == "" && !c.suspended && c.pendingReplies != [] && ProvesWrite(Create, proof)
      && Completion(c, Create, proof)
    case Taking =>
      && Quiet(c) && c.caseId != "" && c.salesforceStatus == ""
      && (c.suspended || c.pendingReplies != [] || DeliveredNow(c))
    case Starting(g, _) => Quiet(c) && InTurn(c, g) && Update(g) !in c.writes && Delivery(g) !in c.writes
    case Checking(g, _) => Quiet(c) && InTurn(c, g) && Update(g) !in c.writes && Delivery(g) !in c.writes
    case Blocking(g) => Quiet(c) && InTurn(c, g)
    case Recording(g, found) =>
      Quiet(c) && InTurn(c, g) && Update(g) !in c.writes && Delivery(g) !in c.writes && found.generation == g
    case SavingChat(g, found, chatId) =>
      && AllCompleted(c.writes) && Close !in c.writes && c.privateChatId == "" && Opaque(chatId)
      && InTurn(c, g) && TurnFindings(c, g, found)
      && Update(g) !in c.writes && Delivery(g) !in c.writes && Completion(c, Chat, ChatOpened(chatId))
    case Noting(g, found, snapshot) =>
      && Quiet(c) && InTurn(c, g) && TurnFindings(c, g, found) && Delivery(g) !in c.writes
      && Snapshot(c, g, found, snapshot) && snapshot.investigation == Some(found)
    case Delivering(g, found, messageId) =>
      && Quiet(c) && InTurn(c, g) && TurnFindings(c, g, found) && Completion(c, Delivery(g), MessageSent(messageId))
    case Confirming =>
      && Quiet(c) && c.confirmation.Some? && ContextInv(c, Close, Closure(c.confirmation.value.generation))
      && (Live(c, c.confirmation.value.generation) ==> Justified(c, c.confirmation.value.generation))
    case Verifying(g) => AfterClose(c)
    case ReadingStatus(g) => AfterClose(c)
    case SavingStatus(g, _, _) => AfterClose(c)
    case Settling(g) => AfterClose(c) && c.closureReadback.Some? && c.closureReadback.value.status == "Closed"
    case Emailing(g, snapshot) =>
      && Quiet(c) && c.salesforceStatus == "Closed" && ClosedDelivery !in c.writes
      && ContextInv(c, ClosedDelivery, Farewell(g, true, false, snapshot))
    case Notifying(g, told) => Quiet(c) && c.salesforceStatus == "Closed"
    case _ => true
  }

  /** Messages on their way in name a real chat; admissions name a bound requester. */
  ghost predicate Arriving(s: System, task: Task) {
    match task.pc
    case Admitting(conversationId, requesterId, _) =>
      requesterId in s.requesters && Opaque(task.key.messageId) && Opaque(conversationId)
    case Routing(m, _) => m.chatId != ""
    case Accepting(m, _, _, _) => m.chatId != ""
    case _ => true
  }

  ghost predicate TaskInv(s: System, t: Nonce)
    requires t in s.tasks
  {
    && t < s.nextNonce && Arriving(s, s.tasks[t])
    && (Driving(s.tasks[t].pc) ==> Owns(s, t) && PcInv(Own(s, t), t, s.tasks[t].pc))
  }

  // ---------------------------------------------------------------- the whole system

  ghost predicate CaseOk(requesters: set<string>, nextNonce: Nonce, key: CaseKey, c: Case) {
    && c.key == key && c.requesterId in requesters && Opaque(key.messageId) && Opaque(c.conversationId)
    && CaseInv(c) && (c.owner.Some? ==> c.owner.value < nextNonce)
  }

  ghost predicate CasesInv(s: System) {
    && WellOrdered(s.index) && |s.index.cases| <= MAX_CASES
    && (forall key <- s.index.cases :: CaseOk(s.requesters, s.nextNonce, key, s.index.cases[key]))
  }

  /** No activity receipt is held by two cases, and no two unsuspended cases share a Salesforce reference. */
  ghost predicate SeparationInv(x: Index) {
    && (forall a <- x.cases, b <- x.cases :: a != b ==>
          forall activity <- x.cases[a].activities :: activity !in x.cases[b].activities)
    && (forall a <- x.cases, b <- x.cases ::
          a != b && x.cases[a].caseId != "" && x.cases[b].caseId != "" && !x.cases[a].suspended && !x.cases[b].suspended
          ==> x.cases[a].caseId != x.cases[b].caseId && x.cases[a].caseNumber != x.cases[b].caseNumber)
  }

  ghost predicate TasksInv(s: System) {
    forall t <- s.tasks :: TaskInv(s, t)
  }

  /** What the log of calls says about the index. */
  ghost predicate CallInv(x: Index, e: Call) {
    && e.key in x.cases
    && var c := x.cases[e.key];
    && (e.WriteCall? ==>
          && e.name in c.writes && c.writes[e.name].nonce == e.nonce
          && ClaimFacts(e.claimed, e.name, e.nonce, e.context)
          && (e.name.Delivery? || e.name == ClosedDelivery ==>
                e.context.snapshot.privateChatId == c.privateChatId != "")
          && (e.name.Delivery? && c.generation == e.name.turn && c.investigation.Some? ==>
                c.investigation == Some(e.context.found)))
    && (e.EmailCall? ==> c.salesforceStatus == "Closed")
  }

  ghost predicate CallsInv(s: System) {
    && (forall i :: 0 <= i < |s.calls| ==> CallInv(s.index, s.calls[i]))
    && (forall i, j :: 0 <= i < j < |s.calls| ==> !SameEffect(s.calls[i], s.calls[j]))
    && (forall key <- s.index.cases :: forall name <- s.index.cases[key].writes ::
          s.index.cases[key].writes[name].status == Completed ==> HasCall(s.calls, key, name))
    && (forall t <- s.tasks :: PendingCall(s.calls, s.tasks[t]))
  }

  /** A handler about to call has not called; one that is waiting or holds a receipt has. */
  ghost predicate PendingCall(calls: seq<Call>, task: Task) {
    && (task.pc.Invoking? ==> !HasCall(calls, task.key, task.pc.name))
    && (task.pc.Calling? || task.pc.Completing? ==> HasCall(calls, task.key, task.pc.name))
    && (task.pc.Emailing? ==> !HasEmail(calls, task.key))
  }

  ghost predicate Inv(s: System) {
    CasesInv(s) && SeparationInv(s.index) && TasksInv(s) && CallsInv(s)
  }
}
