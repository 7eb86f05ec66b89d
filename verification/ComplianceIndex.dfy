/** The case index: routing a reply to a case, the checks every read makes, and the stronger facts the
    protocol keeps about each record. */
module ComplianceIndex {
  import opened Options
  import opened ComplianceRecord

  /** `order` is the order of admission, which a Python dictionary keeps. */
  datatype Index = Index(order: seq<CaseKey>, cases: map<CaseKey, Case>)

  predicate Distinct<T(==)>(items: seq<T>) {
    forall i, j :: 0 <= i < j < |items| ==> items[i] != items[j]
  }

  ghost predicate WellOrdered(x: Index) {
    && Distinct(x.order)
    && (forall key :: key in x.order <==> key in x.cases)
  }

  // ---------------------------------------------------------------- routing

  /** The keys, in order of admission, of the requester's cases in a chat that also pass `number`. */
  function Candidates(order: seq<CaseKey>, cases: map<CaseKey, Case>, m: Inbound): (keys: seq<CaseKey>)
    ensures forall key <- keys :: key in order && key in cases && cases[key].requesterId == m.requesterId
              && cases[key].privateChatId == m.chatId
              && (m.number.Some? ==> cases[key].caseNumber == m.number.value)
  {
    if order == [] then []
    else
      var key := order[|order| - 1];
      Candidates(order[..|order| - 1], cases, m)
      + (if key in cases && cases[key].requesterId == m.requesterId && cases[key].privateChatId == m.chatId
            && (m.number.Some? ==> cases[key].caseNumber == m.number.value) then [key] else [])
  }

  function LastContact(c: Case): nat {
    if c.lastDelivery.Some? then c.lastDelivery.value.at else c.createdAt
  }

  /** The open case most recently contacted; among equals the last admitted, as a stable sort leaves it. */
  function LatestOpen(keys: seq<CaseKey>, cases: map<CaseKey, Case>): (best: Option<CaseKey>)
    requires forall key <- keys :: key in cases
    ensures best.Some? ==> best.value in keys && cases[best.value].salesforceStatus != "Closed"
    ensures best.None? ==> forall key <- keys :: cases[key].salesforceStatus == "Closed"
    ensures best.Some? ==> forall key <- keys :: cases[key].salesforceStatus != "Closed"
                             ==> LastContact(cases[key]) <= LastContact(cases[best.value])
  {
    if keys == [] then None
    else
      var key := keys[|keys| - 1];
      var earlier := LatestOpen(keys[..|keys| - 1], cases);
      if cases[key].salesforceStatus == "Closed" then earlier
      else if earlier.Some? && LastContact(cases[key]) < LastContact(cases[earlier.value]) then earlier
      else Some(key)
  }

  /** `_target`. */
  function Target(x: Index, m: Inbound): (key: Option<CaseKey>)
    ensures key.Some? ==> key.value in x.cases && x.cases[key.value].requesterId == m.requesterId
                          && x.cases[key.value].privateChatId == m.chatId
    ensures key.Some? && m.number.Some? ==> x.cases[key.value].caseNumber == m.number.value
  {
    var keys := Candidates(x.order, x.cases, m);
    if |keys| == 1 then Some(keys[0])
    else if |keys| == 0 || m.number.Some? || m.commandLike then None
    else LatestOpen(keys, x.cases)
  }

  /** The cases that already hold the receipt of an activity. */
  function Holders(x: Index, activity: ActivityKey): set<CaseKey> {
    set key | key in x.cases && activity in x.cases[key].activities
  }

  datatype Accepted = Accepted(index: Index, key: Option<CaseKey>, handled: bool, step: Step)

  /** `accept` inside `handle_reply`. */
  function Accept(x: Index, m: Inbound, receivedAt: nat, intent: Intent, intentKey: Option<CaseKey>, owner: Nonce): Accepted
  {
    var target := Target(x, m);
    if target.None? then Accepted(x, None, false, Ignore)
    else
      var key := target.value;
      var previous := Holders(x, KeyOf(m));
      if previous != {} then Accepted(x, Some(key), previous == {key}, Ignore)
      else
        var understood := if intentKey == Some(key) then intent else Information;
        var (record, step) := AcceptEdit(x.cases[key], m, receivedAt, understood, owner);
        Accepted(x.(cases := x.cases[key := record]), Some(key), true, step)
  }

  // ---------------------------------------------------------------- what every read checks

  /** `_validate_targets`. */
  predicate ValidTargets(c: Case) {
    && (c.caseId != "" <==> c.caseNumber != "")
    && (c.caseId != "" ==>
          && Create in c.writes && c.writes[Create].status == Completed
          && c.writes[Create].receipt == Some(Reference(c.caseId, c.caseNumber))
          && IsReference(c.caseId) && IsReference(c.caseNumber))
    && (c.caseId == "" ==> forall name <- c.writes :: name == Create)
    && (c.privateChatId != "" ==>
          && Chat in c.writes && c.writes[Chat].status == Completed
          && c.writes[Chat].receipt == Some(ChatOpened(c.privateChatId)) && Opaque(c.privateChatId))
    && (c.privateChatId == "" ==>
          forall name <- c.writes :: !name.Delivery? && name != Close && name != ClosedDelivery)
    && (c.salesforceStatus == "" || c.salesforceStatus == "Closed")
    && (c.status == Closed ==> c.salesforceStatus == "Closed")
    && (c.salesforceStatus == "Closed" ==>
          && Close in c.writes && c.writes[Close].status == Completed
          && c.closureReadback.Some? && c.closureReadback.value.status == "Closed")
  }

  /** The loop body of `_index`. */
  predicate ValidRecord(requesters: set<string>, key: CaseKey, c: Case) {
    && c.requesterId in requesters && c.key == key && Opaque(key.messageId) && Opaque(c.conversationId)
    && c.generation < MAX_TURNS
    && |c.activities| <= MAX_ACTIVITY_RECEIPTS && Distinct(c.activities)
    && |c.pendingReplies| <= MAX_PENDING_REPLIES
    && |c.timeline| <= MAX_TIMELINE_EVENTS
    && |c.writes| <= 2 * MAX_TURNS + 4
    && |c.replyHistory| < MAX_TURNS
    && |c.investigationHistory| <= MAX_INVESTIGATION_HISTORY
    && (forall name <- c.writes ::
          && (c.writes[name].status == Completed ==> c.writes[name].receipt.Some?)
          && (name.Update? || name.Delivery? ==> name.turn <= c.generation))
    && ValidTargets(c)
  }

  /** `_index` returns instead of raising. */
  predicate ValidIndex(requesters: set<string>, x: Index) {
    && |x.cases| <= MAX_CASES
    && forall key <- x.cases :: ValidRecord(requesters, key, x.cases[key])
  }

  // ---------------------------------------------------------------- what the protocol keeps

  ghost predicate QueueInv(c: Case) {
    && c.generation < MAX_TURNS
    && |c.replyHistory| == c.generation
    && |c.pendingReplies| <= MAX_PENDING_REPLIES
    && |c.pendingReplies| <= c.generation + 1
    && (forall i :: 0 <= i < |c.pendingReplies| ==>
          c.pendingReplies[i].generation == c.generation + 1 - |c.pendingReplies| + i)
  }

  ghost predicate HistoryInv(c: Case) {
    && |c.activities| <= MAX_ACTIVITY_RECEIPTS && Distinct(c.activities)
    && |c.timeline| == (if c.sequence < MAX_TIMELINE_EVENTS then c.sequence else MAX_TIMELINE_EVENTS)
    && (forall i :: 0 <= i < |c.timeline| ==> c.timeline[i].sequence == c.sequence + 1 - |c.timeline| + i)
    && |c.investigationHistory| <= MAX_INVESTIGATION_HISTORY
  }

  ghost predicate WritesInv(c: Case) {
    && (forall name <- c.writes :: name.Update? || name.Delivery? ==> name.turn + |c.pendingReplies| <= c.generation)
    && (forall name <- c.writes :: c.writes[name].status == Completed ==>
          c.writes[name].receipt.Some? && ProvesWrite(name, c.writes[name].receipt.value))
    && (forall a <- c.writes, b <- c.writes ::
          c.writes[a].status != Completed && c.writes[b].status != Completed ==> a == b)
    && (ClosedDelivery in c.writes ==> c.salesforceStatus == "Closed")
  }

  ghost predicate DeliveredNow(c: Case) {
    Delivery(c.generation) in c.writes && c.writes[Delivery(c.generation)].status == Completed
  }

  /** No write is under way: the chat and the close have been claimed only if they took effect. */
  ghost predicate Quiet(c: Case) {
    && AllCompleted(c.writes)
    && (c.privateChatId == "" ==> Chat !in c.writes)
    && (c.salesforceStatus == "" ==> Close !in c.writes)
  }

  /** What a driver leaves behind when it lets go of a case. */
  ghost predicate IdleInv(c: Case) {
    c.owner.None? ==>
      && Quiet(c)
      && (!c.suspended && c.salesforceStatus == "" ==>
            (c.pendingReplies == [] && DeliveredNow(c)) || c.lastOutcome == ChecksFailed)
  }

  /** Standing closure authority always refers to the answer delivered last. */
  ghost predicate AuthorityInv(c: Case) {
    c.resolution.Some? && !c.suspended ==>
      && c.salesforceStatus == "" && c.pendingReplies == [] && DeliveredNow(c)
      && c.resolution.value.generation == c.generation
      && c.writes[Delivery(c.generation)].receipt == Some(MessageSent(c.resolution.value.messageId))
  }

  ghost predicate CaseInv(c: Case) {
    QueueInv(c) && HistoryInv(c) && WritesInv(c) && ValidTargets(c) && IdleInv(c) && AuthorityInv(c)
  }
}
