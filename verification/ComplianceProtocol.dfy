/** Every handler of the compliance service as a little program over the shared index.

    One store update is one atomic step and one backend call is two (it goes out, it comes back). Between any
    two steps other handlers run, replies arrive, the clock moves, a handler is interrupted (cancellation, a
    failed call or a failed store operation, before or after its commit) or its process is lost. */
module ComplianceProtocol {
  import opened Options
  import opened ComplianceRecord
  import opened ComplianceIndex

  /** What a handler still knows while one of its named writes is under way. */
  datatype Context =
    | Registration
    | Turn(turn: nat, found: Investigation, snapshot: Case)
    | Closure(turn: nat)
    | Farewell(turn: nat, wantsEmail: bool, emailed: bool, snapshot: Case)

  datatype Pc =
    | Admitting(conversationId: string, requesterId: string, complete: bool)
    | Routing(msg: Inbound, receivedAt: nat)
    | Accepting(msg: Inbound, receivedAt: nat, intent: Intent, intentKey: Option<CaseKey>)
    | Claiming(name: WriteName, context: Context)
    | Invoking(name: WriteName, nonce: Nonce, claimed: Case, context: Context)
    | Calling(name: WriteName, nonce: Nonce, claimed: Case, context: Context)
    | Completing(name: WriteName, nonce: Nonce, proof: Receipt, completedAt: nat, context: Context)
    | Registering(proof: Receipt)
    | Taking
    | Starting(turn: nat, inputComplete: bool)
    | Checking(turn: nat, inputComplete: bool)
    | Blocking(turn: nat)
    | Recording(turn: nat, found: Investigation)
    | SavingChat(turn: nat, found: Investigation, chatId: string)
    | Noting(turn: nat, found: Investigation, snapshot: Case)
    | Delivering(turn: nat, found: Investigation, messageId: string)
    | Confirming
    | Verifying(turn: nat)
    | ReadingStatus(turn: nat)
    | SavingStatus(turn: nat, status: string, at: nat)
    | Settling(turn: nat)
    | Emailing(turn: nat, snapshot: Case)
    | Notifying(turn: nat, told: bool)
    | Aborting
    | Done

  datatype Task = Task(key: CaseKey, pc: Pc)

  /** A call to the outside world; `claimed` is the record the claim returned. */
  datatype Call =
    | WriteCall(key: CaseKey, name: WriteName, nonce: Nonce, claimed: Case, context: Context)
    | EmailCall(key: CaseKey, snapshot: Case)

  datatype System = System(requesters: set<string>, index: Index, tasks: map<Nonce, Task>,
                           nextNonce: Nonce, now: nat, calls: seq<Call>)

  datatype Action =
    | Tick(elapsed: nat)
    | ReceiveEmail(messageId: string, conversationId: string, requesterId: string, complete: bool)
    | HandleReply(msg: Inbound)
    | ReadIntent(task: Nonce, intent: Intent, intentKey: Option<CaseKey>)
    | Commit(task: Nonce)
    | Invoke(task: Nonce)
    | Return(task: Nonce, value: Receipt)
    | Investigate(task: Nonce, found: Option<Findings>)
    | ReadRecord(task: Nonce)
    | ReadStatus(task: Nonce, status: string)
    | Email(task: Nonce, attempted: bool, sent: bool)
    | Interrupt(task: Nonce)
    | Crash(task: Nonce)

  function Initial(requesters: set<string>): System {
    System(requesters, Index([], map[]), map[], 0, 0, [])
  }

  // ---------------------------------------------------------------- moving one handler

  function Goto(s: System, t: Nonce, pc: Pc): System
    requires t in s.tasks
  {
    s.(tasks := s.tasks[t := s.tasks[t].(pc := pc)])
  }

  function Save(s: System, t: Nonce, c: Case, pc: Pc): System
    requires t in s.tasks
  {
    Goto(s.(index := s.index.(cases := s.index.cases[s.tasks[t].key := c])), t, pc)
  }

  predicate Owns(s: System, t: Nonce) {
    && t in s.tasks && s.tasks[t].key in s.index.cases
    && s.index.cases[s.tasks[t].key].owner == Some(t)
  }

  function Own(s: System, t: Nonce): Case
    requires Owns(s, t)
  {
    s.index.cases[s.tasks[t].key]
  }

  /** The turn a claim is pinned to; registration is pinned to none. */
  function PinnedTo(context: Context): Option<nat> {
    if context.Registration? then None else Some(context.turn)
  }

  /** `_write` up to the claim: a fresh nonce, the claim, and the check that the claim is this call's own. */
  function StepClaim(s: System, t: Nonce, name: WriteName, context: Context): System
    requires Owns(s, t)
  {
    var nonce := s.nextNonce;
    var s1 := s.(nextNonce := nonce + 1);
    match ClaimEdit(Own(s, t), name, PinnedTo(context), nonce, t, s.now)
    case Raised => Goto(s1, t, Aborting)
    case Untouched =>
      Goto(s1, t, match context
                  case Registration => Aborting
                  case Turn(_, _, _) => Taking
                  case Closure(_) => Taking
                  case Farewell(g, _, _, _) => Notifying(g, false))
    case Changed(c) =>
      Save(s1, t, c.(updatedAt := s.now), Invoking(name, nonce, c.(updatedAt := s.now), context))
  }

  /** Where a completed write leads. */
  function AfterWrite(name: WriteName, proof: Receipt, context: Context): Pc {
    match (context, name)
    case (Registration, _) => Registering(proof)
    case (Turn(g, found, _), Chat) => if proof.ChatOpened? then SavingChat(g, found, proof.chatId) else Aborting
    case (Turn(g, found, snapshot), Update(_)) => Noting(g, found, snapshot)
    case (Turn(g, found, _), Delivery(_)) => if proof.MessageSent? then Delivering(g, found, proof.messageId) else Aborting
    case (Closure(g), _) => Verifying(g)
    case (Farewell(g, _, _, _), _) => Notifying(g, true)
    case _ => Aborting
  }

  function StepComplete(s: System, t: Nonce, name: WriteName, nonce: Nonce, proof: Receipt, at: nat, context: Context): System
    requires Owns(s, t)
  {
    match CompleteEdit(Own(s, t), name, nonce, t, proof, at)
    case Changed(c) => Save(s, t, c.(updatedAt := s.now), AfterWrite(name, proof, context))
    case _ => Goto(s, t, Aborting)
  }

  predicate Collides(x: Index, key: CaseKey, proof: Receipt)
    requires proof.Reference?
  {
    exists other <- x.cases :: other != key
      && (x.cases[other].caseId == proof.id || x.cases[other].caseNumber == proof.number)
  }

  /** `registered` inside `_register`. */
  function StepRegister(s: System, t: Nonce, proof: Receipt): System
    requires Owns(s, t)
  {
    var c := Own(s, t);
    if !proof.Reference? || Create !in c.writes || c.writes[Create].receipt != Some(proof) then Goto(s, t, Aborting)
    else if Collides(s.index, s.tasks[t].key, proof) then
      Save(s, t, WithEvent(c.(caseId := proof.id, caseNumber := proof.number, status := WriteOutcomeUnknown,
                              suspended := true), "case_reference_collision", s.now), Aborting)
    else
      Save(s, t, WithEvent(c.(caseId := proof.id, caseNumber := proof.number, status := Investigating,
                              suspended := false), "case_registered", s.now), Taking)
  }

  /** `_take_work` and the test that follows it in `_drive`. */
  function StepTake(s: System, t: Nonce): System
    requires Owns(s, t)
  {
    var c := TakeEdit(Own(s, t)).(updatedAt := s.now);
    Save(s, t, c, if c.owner != Some(t) || c.work.None? then Done
                  else if c.work.value.generation != c.generation then Taking
                  else Starting(c.generation, c.inputComplete))
  }

  /** Where `_drive` goes once it holds findings for the current turn and the record as last returned. */
  function AfterFindings(g: nat, found: Investigation, c: Case): Pc {
    if c.privateChatId == "" then Claiming(Chat, Turn(g, found, c)) else Claiming(Update(g), Turn(g, found, c))
  }

  function StepRecord(s: System, t: Nonce, g: nat, found: Investigation): System
    requires Owns(s, t)
  {
    match InvestigatedEdit(Own(s, t), g, found)
    case Changed(d) =>
      var c := WithEvent(d, "case_investigated", s.now);
      Save(s, t, c, AfterFindings(g, found, c))
    case _ => Goto(s, t, Taking)
  }

  function StepSaveChat(s: System, t: Nonce, g: nat, found: Investigation, chatId: string): System
    requires Owns(s, t)
  {
    var c := WithEvent(ChatReadyEdit(Own(s, t), chatId), "case_private_chat_ready", s.now);
    Save(s, t, c, Claiming(Update(g), Turn(g, found, c)))
  }

  /** After `case_updated` the message is composed from the held record, which raises without findings. */
  function StepNote(s: System, t: Nonce, g: nat, found: Investigation, snapshot: Case): System
    requires Owns(s, t)
  {
    Save(s, t, WithEvent(Own(s, t), "case_updated", s.now),
         if snapshot.investigation.None? then Aborting else Claiming(Delivery(g), Turn(g, found, snapshot)))
  }

  function StepDeliver(s: System, t: Nonce, g: nat, found: Investigation, messageId: string): System
    requires Owns(s, t)
  {
    var c := Own(s, t);
    if Delivery(g) !in c.writes then Goto(s, t, Aborting)
    else Save(s, t, WithEvent(DeliveredEdit(c, g, found, messageId), "case_answer_delivered", s.now), Taking)
  }

  function StepSettle(s: System, t: Nonce, g: nat): System
    requires Owns(s, t)
  {
    var c := WithEvent(ClosedEdit(Own(s, t), g), "case_close_readback", s.now);
    Save(s, t, c,
         if c.owner != Some(t) then Done
         else if c.confirmation.Some? && c.confirmation.value.email then Emailing(g, c)
         else Claiming(ClosedDelivery, Farewell(g, false, false, c)))
  }

  function StepAdmit(s: System, t: Nonce, conversationId: string, requesterId: string, complete: bool): System
    requires t in s.tasks
  {
    var key := s.tasks[t].key;
    if key in s.index.cases then
      var c := s.index.cases[key];
      Goto(s, t, if c.requesterId != requesterId || c.conversationId != conversationId then Aborting else Done)
    else if |s.index.cases| >= MAX_CASES then Goto(s, t, Aborting)
    else
      var c := NewCase(key, requesterId, conversationId, complete, t, s.now);
      Goto(s.(index := Index(s.index.order + [key], s.index.cases[key := c])), t, Claiming(Create, Registration))
  }

  function StepAccept(s: System, t: Nonce, m: Inbound, receivedAt: nat, intent: Intent, intentKey: Option<CaseKey>): System
    requires t in s.tasks
  {
    var a := Accept(s.index, m, receivedAt, intent, intentKey, t);
    if a.key.None? then Goto(s, t, Done)
    else
      s.(index := a.index,
         tasks := s.tasks[t := Task(a.key.value, match a.step
                                                 case Ignore => Done
                                                 case Notice => Done
                                                 case StartClosing => Confirming
                                                 case StartInvestigating => Taking)])
  }

  function StepAbort(s: System, t: Nonce): System
    requires t in s.tasks
  {
    if Owns(s, t) then Save(s, t, WithEvent(AbortEdit(Own(s, t), t), "case_outcome_unknown", s.now), Done)
    else Goto(s, t, Done)
  }

  /** The handler's next store update commits. */
  function StepCommit(s: System, t: Nonce): System
  {
    if t !in s.tasks then s
    else
      var pc := s.tasks[t].pc;
      if pc.Admitting? then StepAdmit(s, t, pc.conversationId, pc.requesterId, pc.complete)
      else if pc.Accepting? then StepAccept(s, t, pc.msg, pc.receivedAt, pc.intent, pc.intentKey)
      else if pc.Aborting? then StepAbort(s, t)
      else if !Owns(s, t) then (if Edits(pc) then Goto(s, t, Aborting) else s)
      else
        match pc
        case Claiming(name, context) => StepClaim(s, t, name, context)
        case Completing(name, nonce, proof, at, context) => StepComplete(s, t, name, nonce, proof, at, context)
        case Registering(proof) => StepRegister(s, t, proof)
        case Taking => StepTake(s, t)
        case Starting(g, complete) =>
          Save(s, t, WithEvent(Own(s, t), "case_investigation_started", s.now), Checking(g, complete))
        case Blocking(_) => Save(s, t, WithEvent(BlockedEdit(Own(s, t)), "case_investigation_blocked", s.now), Aborting)
        case Recording(g, found) => StepRecord(s, t, g, found)
        case SavingChat(g, found, chatId) => StepSaveChat(s, t, g, found, chatId)
        case Noting(g, found, snapshot) => StepNote(s, t, g, found, snapshot)
        case Delivering(g, found, messageId) => StepDeliver(s, t, g, found, messageId)
        case Verifying(g) =>
          Save(s, t, WithEvent(Own(s, t).(status := VerifyingClose), "case_close_acknowledged", s.now), ReadingStatus(g))
        case SavingStatus(g, status, at) =>
          Save(s, t, ReadbackEdit(Own(s, t), status, at).(updatedAt := s.now),
               if status == "Closed" then Settling(g) else Aborting)
        case Settling(g) => StepSettle(s, t, g)
        case Notifying(g, told) =>
          Save(s, t, WithEvent(NotifiedEdit(Own(s, t), g, told), "case_closure_notice_recorded", s.now), Done)
        case _ => s
  }

  /** The program points whose next step is an `_edit`. */
  predicate Edits(pc: Pc) {
    pc.Claiming? || pc.Completing? || pc.Registering? || pc.Taking? || pc.Starting? || pc.Blocking?
    || pc.Recording? || pc.SavingChat? || pc.Noting? || pc.Delivering? || pc.Verifying? || pc.SavingStatus?
    || pc.Settling? || pc.Notifying?
  }

  // ---------------------------------------------------------------- the whole system

  function Next(s: System, a: Action): System
  {
    match a
    case Tick(elapsed) => s.(now := s.now + elapsed)
    case ReceiveEmail(messageId, conversationId, requesterId, complete) =>
      if Opaque(messageId) && Opaque(conversationId) && requesterId in s.requesters
      then Spawn(s, CaseKey(messageId), Admitting(conversationId, requesterId, complete)) else s
    case HandleReply(m) =>
      if m.requesterId in s.requesters && Opaque(m.chatId) && Opaque(m.activityId) && !Blank(m.text)
      then Spawn(s, CaseKey(""), Routing(m, s.now)) else s
    case ReadIntent(t, intent, intentKey) =>
      if t in s.tasks && s.tasks[t].pc.Routing?
      then Goto(s, t, Accepting(s.tasks[t].pc.msg, s.tasks[t].pc.receivedAt, intent, intentKey)) else s
    case Commit(t) => StepCommit(s, t)
    case Invoke(t) =>
      if t in s.tasks && s.tasks[t].pc.Invoking? then
        var p := s.tasks[t].pc;
        Goto(s.(calls := s.calls + [WriteCall(s.tasks[t].key, p.name, p.nonce, p.claimed, p.context)]),
             t, Calling(p.name, p.nonce, p.claimed, p.context))
      else s
    case Return(t, value) =>
      if t in s.tasks && s.tasks[t].pc.Calling? then
        var p := s.tasks[t].pc;
        Goto(s, t, if ProvesWrite(p.name, value) then Completing(p.name, p.nonce, value, s.now, p.context) else Aborting)
      else s
    case Investigate(t, found) =>
      if t in s.tasks && s.tasks[t].pc.Checking? then
        var p := s.tasks[t].pc;
        Goto(s, t, if found.None? then Blocking(p.turn) else Recording(p.turn, Project(found.value, p.turn, p.inputComplete)))
      else s
    case ReadRecord(t) =>
      if t in s.tasks && s.tasks[t].pc.Confirming? then
        if Owns(s, t) && Own(s, t).confirmation.Some?
        then Goto(s, t, Claiming(Close, Closure(Own(s, t).confirmation.value.generation)))
        else Goto(s, t, Aborting)
      else s
    case ReadStatus(t, status) =>
      if t in s.tasks && s.tasks[t].pc.ReadingStatus?
      then Goto(s, t, SavingStatus(s.tasks[t].pc.turn, status, s.now)) else s
    case Email(t, attempted, sent) =>
      if t in s.tasks && s.tasks[t].pc.Emailing? then
        var p := s.tasks[t].pc;
        Goto(if attempted then s.(calls := s.calls + [EmailCall(s.tasks[t].key, p.snapshot)]) else s, t,
             Claiming(ClosedDelivery, Farewell(p.turn, true, attempted && sent, p.snapshot)))
      else s
    case Interrupt(t) => if t in s.tasks && !s.tasks[t].pc.Done? then Goto(s, t, Aborting) else s
    case Crash(t) => if t in s.tasks then s.(tasks := s.tasks - {t}) else s
  }

  /** A new handler; its owner nonce is fresh. */
  function Spawn(s: System, key: CaseKey, pc: Pc): System {
    s.(tasks := s.tasks[s.nextNonce := Task(key, pc)], nextNonce := s.nextNonce + 1)
  }

  /** The state after a run from `s`; the last action comes last. */
  function Run(s: System, actions: seq<Action>): System {
    if actions == [] then s
    else Next(Run(s, actions[..|actions| - 1]), actions[|actions| - 1])
  }
}
