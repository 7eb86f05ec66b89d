/** The durable compliance case and the synchronous transforms that store updates apply to it.

    Hashes are modelled as injective constructors, so a case key is the immutable message id and an
    activity key is the triple it was hashed from. Clock readings are integers. */
module ComplianceRecord {
  import opened Options
  import opened ReceiptWindow

  const MAX_CASES := 100
  const MAX_TIMELINE_EVENTS := 50
  const MAX_TURNS := 32
  const MAX_ACTIVITY_RECEIPTS := 128
  const MAX_PENDING_REPLIES := 8
  const MAX_INVESTIGATION_HISTORY := 4

  type Nonce = nat
  datatype CaseKey = CaseKey(messageId: string)
  datatype ActivityKey = ActivityKey(requesterId: string, chatId: string, activityId: string)

  datatype Status =
    | Received | Creating | Investigating | OpeningPrivateChat | UpdatingCase | DeliveringAnswer
    | WaitingForRequester | AwaitingConfirmation | Closing | VerifyingClose | Closed | NotifyingClosure
    | NeedsSpecialistReview | WriteOutcomeUnknown

  datatype WriteName = Create | Chat | Update(turn: nat) | Delivery(turn: nat) | Close | ClosedDelivery
  datatype WriteStatus = Claimed | Completed | Unknown
  datatype Receipt =
    | Reference(id: string, number: string)
    | ChatOpened(chatId: string)
    | Acknowledged
    | MessageSent(messageId: string)
  datatype Write = Write(nonce: Nonce, owner: Nonce, status: WriteStatus, at: nat,
                         receipt: Option<Receipt>, completedAt: nat)

  datatype Reply = Reply(generation: nat, text: string, at: nat, activityKey: Option<ActivityKey>)
  datatype Evidence = Evidence(id: string, version: string)
  datatype Investigation = Investigation(generation: nat, answer: string, evidence: seq<Evidence>,
                                         questions: seq<string>, blockers: seq<string>, resolutionReady: bool)
  datatype Resolution = Resolution(generation: nat, messageId: string, deliveryNonce: Nonce)
  datatype Confirmation = Confirmation(text: string, at: nat, activityKey: ActivityKey, generation: nat,
                                       answerMessageId: string, email: bool)
  datatype Contact = Contact(generation: nat, messageId: string, at: nat)
  datatype Readback = Readback(status: string, at: nat)
  datatype Event = Event(sequence: nat, kind: string, at: nat, status: Status)
  datatype Outcome =
    | Admitted | Interrupted | ChecksFailed | AnswerDelivered | ActivityCapacity | ClarificationCapacity
    | MaterialAfterClosure | ClosedWithNewMaterial | ClosureConfirmed

  datatype Case = Case(
    key: CaseKey, requesterId: string, conversationId: string,
    status: Status, owner: Option<Nonce>, caseId: string, caseNumber: string, privateChatId: string,
    generation: nat, inputComplete: bool, suspended: bool,
    activities: seq<ActivityKey>, writes: map<WriteName, Write>,
    sequence: nat, timeline: seq<Event>,
    pendingReplies: seq<Reply>, replyHistory: seq<Reply>, investigationHistory: seq<Investigation>,
    work: Option<Reply>, latestReply: Option<Reply>, investigation: Option<Investigation>,
    resolution: Option<Resolution>, confirmation: Option<Confirmation>, lastDelivery: Option<Contact>,
    closureReadback: Option<Readback>, salesforceStatus: string, lastOutcome: Outcome,
    createdAt: nat, updatedAt: nat)

  /** What a transform handed to `_edit` does: change the record, return False, or raise. */
  datatype EditResult = Changed(record: Case) | Untouched | Raised

  // ---------------------------------------------------------------- texts and references

  predicate Blank(text: string) {
    forall i :: 0 <= i < |text| ==> text[i] in " \t\r\n"
  }

  predicate Opaque(text: string) {
    0 < |text| <= 512 && !Blank(text)
  }

  predicate IsReference(text: string) {
    && 0 < |text| <= 64
    && (forall i :: 0 <= i < |text| ==>
          'A' <= text[i] <= 'Z' || 'a' <= text[i] <= 'z' || '0' <= text[i] <= '9' || (i > 0 && text[i] in "_-"))
  }

  /** `_created`, `_ack` and the two lambda receipts: which returned values prove the write. */
  predicate ProvesWrite(name: WriteName, receipt: Receipt) {
    match name
    case Create => receipt.Reference? && IsReference(receipt.id) && IsReference(receipt.number)
    case Chat => receipt.ChatOpened? && Opaque(receipt.chatId)
    case Update(_) => receipt.Acknowledged?
    case Close => receipt.Acknowledged?
    case Delivery(_) => receipt.MessageSent? && Opaque(receipt.messageId)
    case ClosedDelivery => receipt.MessageSent? && Opaque(receipt.messageId)
  }

  function PendingStatus(name: WriteName): Status {
    match name
    case Create => Creating
    case Chat => OpeningPrivateChat
    case Update(_) => UpdatingCase
    case Delivery(_) => DeliveringAnswer
    case Close => Closing
    case ClosedDelivery => NotifyingClosure
  }

  // ---------------------------------------------------------------- investigation projection

  /** Backend findings after text compaction; `shortened` says that compaction changed or dropped something. */
  datatype Findings = Findings(answer: string, evidence: seq<Evidence>, questions: seq<string>,
                               blockers: seq<string>, resolutionReady: bool, shortened: bool)

  function Project(found: Findings, generation: nat, inputComplete: bool): Investigation {
    var blockers := found.blockers
      + (if found.shortened || !inputComplete then ["incomplete input or evidence"] else [])
      + (if found.evidence == [] then ["no verified versioned evidence"] else [])
      + (if Blank(found.answer) then ["no complete grounded answer"] else []);
    Investigation(generation, found.answer, found.evidence, found.questions, blockers,
                  found.resolutionReady && found.evidence != [] && !Blank(found.answer)
                  && found.questions == [] && blockers == [])
  }

  // ---------------------------------------------------------------- record transforms

  function WithEvent(c: Case, kind: string, at: nat): Case {
    var sequence := c.sequence + 1;
    c.(sequence := sequence,
       timeline := LastN(c.timeline + [Event(sequence, kind, at, c.status)], MAX_TIMELINE_EVENTS),
       updatedAt := at)
  }

  function NewCase(key: CaseKey, requesterId: string, conversationId: string, complete: bool,
                   owner: Nonce, at: nat): Case {
    WithEvent(Case(key, requesterId, conversationId, Received, Some(owner), "", "", "",
                   0, complete, false, [], map[], 0, [],
                   [Reply(0, "", at, None)], [], [], None, None, None, None, None, None, None, "", Admitted,
                   at, at),
              "case_received", at)
  }

  predicate AllCompleted(writes: map<WriteName, Write>) {
    forall name <- writes :: writes[name].status == Completed
  }

  /** `claim` inside `_write`. */
  function ClaimEdit(c: Case, name: WriteName, generation: Option<nat>, nonce: Nonce, owner: Nonce, at: nat): EditResult {
    if c.suspended || (generation.Some? && c.generation != generation.value) then Untouched
    else if name in c.writes || !AllCompleted(c.writes) then Raised
    else Changed(c.(writes := c.writes[name := Write(nonce, owner, Claimed, at, None, 0)],
                    status := PendingStatus(name)))
  }

  /** `complete` inside `_write`. */
  function CompleteEdit(c: Case, name: WriteName, nonce: Nonce, owner: Nonce, proof: Receipt, at: nat): EditResult {
    if name in c.writes && c.writes[name].owner == owner && c.writes[name].nonce == nonce
       && c.writes[name].status == Claimed
    then Changed(c.(writes := c.writes[name := c.writes[name].(status := Completed, receipt := Some(proof),
                                                              completedAt := at)]))
    else Raised
  }

  function MarkUnknown(w: Write, owner: Nonce): Write {
    if w.status == Claimed && w.owner == owner then w.(status := Unknown) else w
  }

  /** `unknown` inside `_abort`. */
  function AbortEdit(c: Case, owner: Nonce): Case {
    c.(writes := map name | name in c.writes :: MarkUnknown(c.writes[name], owner),
       status := WriteOutcomeUnknown, suspended := true, resolution := None, lastOutcome := Interrupted)
  }

  /** `take` inside `_take_work`. */
  function TakeEdit(c: Case): Case {
    if c.suspended || c.salesforceStatus == "Closed" || c.pendingReplies == [] then
      c.(owner := None, work := None)
    else
      var work := c.pendingReplies[0];
      c.(pendingReplies := c.pendingReplies[1..], work := Some(work),
         latestReply := if work.text != "" then Some(work) else None,
         status := Investigating, resolution := None)
  }

  function BlockedEdit(c: Case): Case {
    c.(status := NeedsSpecialistReview, owner := None, resolution := None, lastOutcome := ChecksFailed)
  }

  function InvestigatedEdit(c: Case, generation: nat, found: Investigation): EditResult {
    if c.generation != generation || c.suspended then Untouched
    else Changed(c.(investigation := Some(found),
                    investigationHistory := LastN(c.investigationHistory + [found], MAX_INVESTIGATION_HISTORY)))
  }

  function ChatReadyEdit(c: Case, chatId: string): Case {
    c.(privateChatId := chatId)
  }

  function DeliveredEdit(c: Case, generation: nat, found: Investigation, messageId: string): Case
    requires Delivery(generation) in c.writes
  {
    var w := c.writes[Delivery(generation)];
    var d := c.(lastDelivery := Some(Contact(generation, messageId, w.completedAt)));
    if d.generation != generation || d.suspended then d.(resolution := None)
    else if found.resolutionReady then
      d.(resolution := Some(Resolution(generation, messageId, w.nonce)), status := AwaitingConfirmation,
         lastOutcome := AnswerDelivered)
    else
      d.(resolution := None, lastOutcome := AnswerDelivered,
         status := if found.questions != [] then WaitingForRequester else NeedsSpecialistReview)
  }

  function ReadbackEdit(c: Case, status: string, at: nat): Case {
    c.(closureReadback := Some(Readback(status, at)))
  }

  /** `closed` inside `_close_case`. */
  function ClosedEdit(c: Case, generation: nat): Case {
    var d := c.(salesforceStatus := "Closed", resolution := None);
    if d.generation != generation || d.pendingReplies != [] || d.suspended then
      d.(status := NeedsSpecialistReview, suspended := true, owner := None, lastOutcome := ClosedWithNewMaterial)
    else
      d.(status := Closed, lastOutcome := ClosureConfirmed)
  }

  /** `notified` inside `_close_case`; `told` says whether the closing message has a receipt. */
  function NotifiedEdit(c: Case, generation: nat, told: bool): Case {
    var d := c.(owner := None);
    if d.generation == generation && !d.suspended && told then d.(status := Closed)
    else d.(status := NeedsSpecialistReview, suspended := true)
  }

  // ---------------------------------------------------------------- closure authority

  predicate ReadyFindings(found: Investigation) {
    && found.resolutionReady && !Blank(found.answer) && found.evidence != []
    && (forall i :: 0 <= i < |found.evidence| ==> found.evidence[i].id != "" && found.evidence[i].version != "")
    && found.blockers == [] && found.questions == []
  }

  /** `_can_resolve`. */
  predicate CanResolve(c: Case, receivedAt: nat) {
    && c.owner.None? && !c.suspended && c.pendingReplies == [] && c.status == AwaitingConfirmation
    && c.salesforceStatus != "Closed" && c.investigation.Some? && c.resolution.Some? && c.inputComplete
    && c.investigation.value.generation == c.generation && ReadyFindings(c.investigation.value)
    && c.resolution.value.generation == c.generation && Delivery(c.generation) in c.writes
    && var w := c.writes[Delivery(c.generation)];
    && w.status == Completed && w.nonce == c.resolution.value.deliveryNonce
    && w.receipt == Some(MessageSent(c.resolution.value.messageId))
    && c.resolution.value.messageId != "" && receivedAt >= w.completedAt
    && AllCompleted(c.writes)
  }

  // ---------------------------------------------------------------- replies

  /** One Teams message; the flags are what the service's regular expressions read off its text. */
  datatype Inbound = Inbound(requesterId: string, chatId: string, activityId: string, text: string,
                             safeText: string, number: Option<string>, resolve: bool, commandLike: bool)
  datatype Intent = Information | ConfirmWithEmail | ConfirmWithoutEmail | SmallTalk
  datatype Step = Ignore | Notice | StartClosing | StartInvestigating

  function KeyOf(m: Inbound): ActivityKey {
    ActivityKey(m.requesterId, m.chatId, m.activityId)
  }

  /** The part of `accept` after routing and replay checks: the new record and what the handler does next. */
  function AcceptEdit(c: Case, m: Inbound, receivedAt: nat, intent: Intent, owner: Nonce): (r: (Case, Step)) {
    if |c.activities| >= MAX_ACTIVITY_RECEIPTS then
      (WithEvent(c.(suspended := true, resolution := None, lastOutcome := ActivityCapacity,
                    status := if c.status != WriteOutcomeUnknown then NeedsSpecialistReview else c.status),
                 "case_capacity_blocked", receivedAt), Ignore)
    else
      var d := c.(activities := c.activities + [KeyOf(m)]);
      if m.resolve && !CanResolve(d, receivedAt) then
        (WithEvent(d, "case_resolution_rejected", receivedAt), Ignore)
      else if m.resolve || ((intent == ConfirmWithEmail || intent == ConfirmWithoutEmail) && CanResolve(d, receivedAt)) then
        assert CanResolve(d, receivedAt);
        (WithEvent(d.(owner := Some(owner), status := Closing,
                      confirmation := Some(Confirmation(m.text, receivedAt, KeyOf(m), d.generation,
                                                        d.resolution.value.messageId, intent == ConfirmWithEmail))),
                   "case_resolution_requested", receivedAt), StartClosing)
      else if intent == SmallTalk then
        (WithEvent(d, "case_chat_received", receivedAt), Notice)
      else
        MaterialEdit(d, m, receivedAt, owner)
  }

  /** Everything else is material, never implicit approval: it voids the findings and queues a new turn. */
  function QueueMaterial(c: Case, m: Inbound, receivedAt: nat): Case {
    var d := c.(resolution := None, investigation := None, inputComplete := c.inputComplete && m.safeText == m.text);
    var e :=
      if d.generation >= MAX_TURNS - 1 || |d.pendingReplies| >= MAX_PENDING_REPLIES then
        d.(suspended := true, lastOutcome := ClarificationCapacity)
      else if !d.suspended then
        var reply := Reply(d.generation + 1, m.safeText, receivedAt, Some(KeyOf(m)));
        d.(generation := d.generation + 1, pendingReplies := d.pendingReplies + [reply],
           replyHistory := d.replyHistory + [reply])
      else d;
    if e.salesforceStatus == "Closed" then e.(suspended := true, lastOutcome := MaterialAfterClosure) else e
  }

  function MaterialEdit(c: Case, m: Inbound, receivedAt: nat, owner: Nonce): (Case, Step) {
    var f := QueueMaterial(c, m, receivedAt);
    if f.suspended then
      (WithEvent(f.(status := if f.status != WriteOutcomeUnknown then NeedsSpecialistReview else f.status),
                 "case_reply_received", receivedAt), Ignore)
    else if f.owner.None? then
      (WithEvent(f.(status := Investigating, owner := Some(owner)), "case_reply_received", receivedAt), StartInvestigating)
    else
      (WithEvent(f.(status := Investigating), "case_reply_received", receivedAt), Ignore)
  }
}
