/** What the service gets done when nothing disturbs it: from an email to an answer, and on a confirmation to the
    closure. It shows that the states the safety theorems speak about are reached. */
module ComplianceProgress {
  import opened Options
  import opened ComplianceRecord
  import opened ComplianceIndex
  import opened ComplianceProtocol
  import opened ComplianceFindings

  ghost predicate Leads(s: System, z: System) {
    exists actions :: Run(s, actions) == z
  }

  lemma Here(s: System)
    ensures Leads(s, s)
  {
    assert Run(s, []) == s;
  }

  lemma Then(s: System, y: System, a: Action)
    requires Leads(s, y)
    ensures Leads(s, Next(y, a))
  {
    hide Next;
    var actions :| Run(s, actions) == y;
    assert (actions + [a])[..|actions|] == actions;
    assert Run(s, actions + [a]) == Next(y, a);
  }

  lemma {:induction false} RunConcat(s: System, before: seq<Action>, after: seq<Action>)
    ensures Run(s, before + after) == Run(Run(s, before), after)
  {
    hide Next;
    if after == [] {
      assert before + after == before;
    } else {
      RunConcat(s, before, after[..|after| - 1]);
      assert (before + after)[..|before + after| - 1] == before + after[..|after| - 1];
    }
  }

  lemma Via(s: System, y: System, z: System)
    requires Leads(s, y) && Leads(y, z)
    ensures Leads(s, z)
  {
    var before :| Run(s, before) == y;
    var after :| Run(y, after) == z;
    RunConcat(s, before, after);
  }

  // ---------------------------------------------------------------- one write

  function Written(c: Case, name: WriteName, nonce: Nonce, t: Nonce, proof: Receipt, now: nat): Case {
    c.(writes := c.writes[name := Write(nonce, t, Completed, now, Some(proof), now)],
       status := PendingStatus(name), updatedAt := now)
  }

  /** A driver about to claim a write that the record allows. */
  ghost predicate MayWrite(s: System, t: Nonce, name: WriteName, context: Context) {
    && Owns(s, t) && s.tasks[t].pc == Claiming(name, context)
    && var c := Own(s, t);
    && !c.suspended && AllCompleted(c.writes) && name !in c.writes
    && (PinnedTo(context).Some? ==> PinnedTo(context).value == c.generation)
  }

  /** Only this case and this handler have moved on. */
  ghost predicate Moved(s: System, z: System, t: Nonce, c: Case, pc: Pc) {
    && Leads(s, z) && Owns(s, t) && Owns(z, t) && Own(z, t) == c && z.tasks[t] == Task(s.tasks[t].key, pc)
    && z.index == s.index.(cases := s.index.cases[s.tasks[t].key := c])
    && z.now == s.now && z.requesters == s.requesters && z.nextNonce >= s.nextNonce && z.tasks.Keys == s.tasks.Keys
  }

  lemma MovedOn(s: System, y: System, z: System, t: Nonce, b: Case, c: Case, p: Pc, q: Pc)
    requires Moved(s, y, t, b, p) && Moved(y, z, t, c, q)
    ensures Moved(s, z, t, c, q)
  {
    Via(s, y, z);
  }

  /** An undisturbed write that the outside world answers is claimed, sent and receipted. */
  lemma WriteCompletes(s: System, t: Nonce, name: WriteName, context: Context, proof: Receipt) returns (z: System)
    requires MayWrite(s, t, name, context) && ProvesWrite(name, proof)
    ensures Moved(s, z, t, Written(Own(s, t), name, s.nextNonce, t, proof, s.now), AfterWrite(name, proof, context))
    ensures |z.calls| == |s.calls| + 1 && z.calls[|s.calls|].WriteCall? && z.calls[|s.calls|].name == name
    ensures z.nextNonce == s.nextNonce + 1
  {
    hide ProvesWrite, AllCompleted, AfterWrite, PendingStatus, StepCommit, Run;
    var c := Own(s, t);
    var claimed := c.(writes := c.writes[name := Write(s.nextNonce, t, Claimed, s.now, None, 0)],
                      status := PendingStatus(name), updatedAt := s.now);
    var s1 := Next(s, Commit(t));
    ClaimStep(s, t, name, context, claimed);
    var s2 := Next(s1, Invoke(t));
    var s3 := Next(s2, Return(t, proof));
    assert s3.tasks[t].pc == Completing(name, s.nextNonce, proof, s.now, context);
    z := Next(s3, Commit(t));
    CompleteStep(s3, t, claimed, name, s.nextNonce, proof, context);
    assert c.writes[name := claimed.writes[name]][name := Write(s.nextNonce, t, Completed, s.now, Some(proof), s.now)]
        == c.writes[name := Write(s.nextNonce, t, Completed, s.now, Some(proof), s.now)];
    FourSteps(s, t, proof);
  }

  lemma FourSteps(s: System, t: Nonce, proof: Receipt)
    ensures Leads(s, Next(Next(Next(Next(s, Commit(t)), Invoke(t)), Return(t, proof)), Commit(t)))
  {
    hide Next;
    Here(s);
    Then(s, s, Commit(t));
    Then(s, Next(s, Commit(t)), Invoke(t));
    Then(s, Next(Next(s, Commit(t)), Invoke(t)), Return(t, proof));
    Then(s, Next(Next(Next(s, Commit(t)), Invoke(t)), Return(t, proof)), Commit(t));
  }

  lemma ClaimStep(s: System, t: Nonce, name: WriteName, context: Context, claimed: Case)
    requires MayWrite(s, t, name, context)
    requires claimed == Own(s, t).(writes := Own(s, t).writes[name := Write(s.nextNonce, t, Claimed, s.now, None, 0)],
                                   status := PendingStatus(name), updatedAt := s.now)
    ensures Next(s, Commit(t)) ==
            Save(s.(nextNonce := s.nextNonce + 1), t, claimed, Invoking(name, s.nextNonce, claimed, context))
  {
    hide AllCompleted, PendingStatus;
  }

  lemma CompleteStep(s: System, t: Nonce, c: Case, name: WriteName, nonce: Nonce, proof: Receipt, context: Context)
    requires Owns(s, t) && Own(s, t) == c && s.tasks[t].pc == Completing(name, nonce, proof, s.now, context)
    requires name in c.writes && c.writes[name].owner == t && c.writes[name].nonce == nonce && c.writes[name].status == Claimed
    ensures Next(s, Commit(t)) ==
            Save(s, t, c.(writes := c.writes[name := c.writes[name].(status := Completed, receipt := Some(proof), completedAt := s.now)],
                          updatedAt := s.now), AfterWrite(name, proof, context))
  {
    hide AfterWrite;
  }

  /** One edit of the owned record. */
  lemma EditStep(s: System, t: Nonce, c: Case, pc: Pc)
    requires Owns(s, t) && Next(s, Commit(t)) == Save(s, t, c, pc) && c.owner == Some(t)
    ensures Moved(s, Next(s, Commit(t)), t, c, pc)
  {
    hide Next;
    Here(s);
    Then(s, s, Commit(t));
  }

  // ---------------------------------------------------------------- one turn

  /** A driver checking the records of the current turn, whose answer has not been written yet. */
  ghost predicate Checks(s: System, t: Nonce) {
    && Owns(s, t) && s.tasks[t].pc.Checking?
    && var (c, g) := (Own(s, t), s.tasks[t].pc.turn);
    && c.generation == g && !c.suspended && AllCompleted(c.writes)
    && Update(g) !in c.writes && Delivery(g) !in c.writes && (c.privateChatId == "" ==> Chat !in c.writes)
  }

  ghost predicate SameIdentity(c: Case, d: Case) {
    && d.key == c.key && d.requesterId == c.requesterId && d.caseId == c.caseId && d.caseNumber == c.caseNumber
    && d.generation == c.generation && d.suspended == c.suspended && d.pendingReplies == c.pendingReplies
    && d.salesforceStatus == c.salesforceStatus && d.activities == c.activities && d.inputComplete == c.inputComplete
    && d.owner == c.owner
  }

  /** The turn is answered by this message, and may be closed on it if its findings are ready. */
  ghost predicate Answered(c: Case, d: Case, found: Investigation, messageId: string, now: nat) {
    var g := c.generation;
    && SameIdentity(c, d) && AllCompleted(d.writes) && d.writes.Keys <= c.writes.Keys + {Chat, Update(g), Delivery(g)}
    && Delivery(g) in d.writes && d.writes[Delivery(g)].receipt == Some(MessageSent(messageId))
    && d.writes[Delivery(g)].completedAt == now
    && d.investigation == Some(found)
    && d.resolution == (if found.resolutionReady then Some(Resolution(g, messageId, d.writes[Delivery(g)].nonce)) else None)
    && d.status == (if found.resolutionReady then AwaitingConfirmation
                    else if found.questions != [] then WaitingForRequester else NeedsSpecialistReview)
  }

  /** Where a turn stands between two of its writes. */
  ghost predicate Underway(c: Case, d: Case, found: Investigation, names: set<WriteName>) {
    SameIdentity(c, d) && AllCompleted(d.writes) && d.writes.Keys <= c.writes.Keys + names && d.investigation == Some(found)
  }

  lemma FindingsFiled(s: System, t: Nonce, found: Findings) returns (z: System, d: Case)
    requires Checks(s, t)
    ensures var (c, p) := (Own(s, t), s.tasks[t].pc);
      var result := Project(found, p.turn, p.inputComplete);
      && Moved(s, z, t, d, AfterFindings(p.turn, result, d)) && Underway(c, d, result, {})
      && d.privateChatId == c.privateChatId && d.writes == c.writes && z.calls == s.calls
  {
    hide Project, AllCompleted;
    var (c, p) := (Own(s, t), s.tasks[t].pc);
    var result := Project(found, p.turn, p.inputComplete);
    var s1 := Next(s, Investigate(t, Some(found)));
    Here(s);
    Then(s, s, Investigate(t, Some(found)));
    assert Moved(s, s1, t, c, Recording(p.turn, result)) by { assert s.index.cases[s.tasks[t].key := c] == s.index.cases; }
    d := WithEvent(InvestigatedEdit(c, p.turn, result).record, "case_investigated", s.now);
    z := Next(s1, Commit(t));
    EditStep(s1, t, d, AfterFindings(p.turn, result, d));
    MovedOn(s, s1, z, t, c, d, Recording(p.turn, result), AfterFindings(p.turn, result, d));
  }

  lemma ChatOpens(s: System, t: Nonce, c: Case, found: Investigation, chatId: string) returns (z: System, d: Case)
    requires Owns(s, t) && Underway(c, Own(s, t), found, {}) && Own(s, t).privateChatId == ""
    requires MayWrite(s, t, Chat, Turn(c.generation, found, Own(s, t))) && Opaque(chatId)
    ensures Moved(s, z, t, d, Claiming(Update(c.generation), Turn(c.generation, found, d)))
    ensures Underway(c, d, found, {Chat}) && d.privateChatId == chatId
  {
    hide AllCompleted, Opaque;
    var context := Turn(c.generation, found, Own(s, t));
    var proof := ChatOpened(chatId);
    var s1 := WriteCompletes(s, t, Chat, context, proof);
    var b := Written(Own(s, t), Chat, s.nextNonce, t, proof, s.now);
    StillCompleted(Own(s, t).writes, Chat, b.writes[Chat]);
    d := WithEvent(ChatReadyEdit(b, chatId), "case_private_chat_ready", s.now);
    z := Next(s1, Commit(t));
    EditStep(s1, t, d, Claiming(Update(c.generation), Turn(c.generation, found, d)));
    MovedOn(s, s1, z, t, b, d, SavingChat(c.generation, found, chatId), Claiming(Update(c.generation), Turn(c.generation, found, d)));
  }

  lemma StillCompleted(writes: map<WriteName, Write>, name: WriteName, w: Write)
    requires AllCompleted(writes) && w.status == Completed
    ensures AllCompleted(writes[name := w])
  {
  }

  lemma CaseUpdates(s: System, t: Nonce, c: Case, found: Investigation, snapshot: Case) returns (z: System, d: Case)
    requires Owns(s, t) && Underway(c, Own(s, t), found, {Chat}) && snapshot.investigation.Some?
    requires MayWrite(s, t, Update(c.generation), Turn(c.generation, found, snapshot))
    ensures Moved(s, z, t, d, Claiming(Delivery(c.generation), Turn(c.generation, found, snapshot)))
    ensures Underway(c, d, found, {Chat, Update(c.generation)}) && d.privateChatId == Own(s, t).privateChatId
  {
    hide AllCompleted;
    var g := c.generation;
    var context := Turn(g, found, snapshot);
    var s1 := WriteCompletes(s, t, Update(g), context, Acknowledged);
    var b := Written(Own(s, t), Update(g), s.nextNonce, t, Acknowledged, s.now);
    StillCompleted(Own(s, t).writes, Update(g), b.writes[Update(g)]);
    d := WithEvent(b, "case_updated", s.now);
    z := Next(s1, Commit(t));
    EditStep(s1, t, d, Claiming(Delivery(g), context));
    MovedOn(s, s1, z, t, b, d, Noting(g, found, snapshot), Claiming(Delivery(g), context));
  }

  lemma AnswerArrives(s: System, t: Nonce, c: Case, found: Investigation, snapshot: Case, messageId: string)
    returns (z: System, d: Case)
    requires Owns(s, t) && Underway(c, Own(s, t), found, {Chat, Update(c.generation)}) && !c.suspended
    requires MayWrite(s, t, Delivery(c.generation), Turn(c.generation, found, snapshot)) && Opaque(messageId)
    ensures Moved(s, z, t, d, Taking)
    ensures Answered(c, d, found, messageId, s.now) && d.privateChatId == Own(s, t).privateChatId
  {
    hide AllCompleted, Opaque, MayWrite, Underway, Answered, Written, DeliveredEdit, WithEvent;
    var g := c.generation;
    var proof := MessageSent(messageId);
    var s1 := WriteCompletes(s, t, Delivery(g), Turn(g, found, snapshot), proof);
    var b := Written(Own(s, t), Delivery(g), s.nextNonce, t, proof, s.now);
    d := AnswerFiled(c, Own(s, t), found, messageId, s.nextNonce, t, s.now);
    z := Next(s1, Commit(t));
    DeliverNext(s1, t, b, g, found, messageId, d);
    EditStep(s1, t, d, Taking);
    MovedOn(s, s1, z, t, b, d, Delivering(g, found, messageId), Taking);
  }

  /** The record once the delivery is receipted and recorded. */
  lemma AnswerFiled(c: Case, was: Case, found: Investigation, messageId: string, nonce: Nonce, t: Nonce, now: nat) returns (d: Case)
    requires Underway(c, was, found, {Chat, Update(c.generation)}) && !c.suspended && was.owner == Some(t)
    ensures var b := Written(was, Delivery(c.generation), nonce, t, MessageSent(messageId), now);
      && Delivery(c.generation) in b.writes && b.owner == Some(t) && d.owner == Some(t)
      && d == WithEvent(DeliveredEdit(b, c.generation, found, messageId), "case_answer_delivered", now)
      && Answered(c, d, found, messageId, now) && d.privateChatId == was.privateChatId
  {
    hide AllCompleted;
    var b := Written(was, Delivery(c.generation), nonce, t, MessageSent(messageId), now);
    StillCompleted(was.writes, Delivery(c.generation), b.writes[Delivery(c.generation)]);
    d := WithEvent(DeliveredEdit(b, c.generation, found, messageId), "case_answer_delivered", now);
  }

  lemma DeliverNext(s: System, t: Nonce, b: Case, g: nat, found: Investigation, messageId: string, d: Case)
    requires Owns(s, t) && Own(s, t) == b && s.tasks[t].pc == Delivering(g, found, messageId) && Delivery(g) in b.writes
    requires d == WithEvent(DeliveredEdit(b, g, found, messageId), "case_answer_delivered", s.now)
    ensures Next(s, Commit(t)) == Save(s, t, d, Taking)
  {
    hide DeliveredEdit, WithEvent;
  }

  /** An undisturbed turn is answered: whatever the findings, the case is updated, the answer delivered, what was found is
      filed, and the authority to close stands exactly if the findings as returned allow it. */
  lemma UndisturbedTurnIsAnswered(s: System, t: Nonce, found: Findings, chatId: string, messageId: string)
    returns (z: System, d: Case)
    requires Checks(s, t) && Opaque(chatId) && Opaque(messageId)
    ensures var (c, p) := (Own(s, t), s.tasks[t].pc);
      && Moved(s, z, t, d, Taking)
      && Answered(c, d, Project(found, p.turn, p.inputComplete), messageId, s.now)
      && d.investigation.Some? && Files(found, p.inputComplete, d.investigation.value)
      && (d.resolution.Some? <==> Closable(found, p.inputComplete))
      && d.privateChatId == (if c.privateChatId == "" then chatId else c.privateChatId)
  {
    hide Project, AllCompleted, Opaque, Answered, MayWrite, Underway;
    var (c, p) := (Own(s, t), s.tasks[t].pc);
    var (g, result) := (p.turn, Project(found, p.turn, p.inputComplete));
    var s2, e := ChatIsOpen(s, t, found, chatId);
    var context := Turn(g, result, e);
    UnderwayGives(c, e, result);
    var s3, f := CaseUpdates(s2, t, c, result, e);
    MovedOn(s, s2, s3, t, e, f, Claiming(Update(g), context), Claiming(Delivery(g), context));
    DeliveryNext(s2, s3, t, c, f, result, e);
    z, d := AnswerArrives(s3, t, c, result, e, messageId);
    MovedOn(s, s3, z, t, f, d, Claiming(Delivery(g), context), Taking);
    ProjectionFiles(found, g, p.inputComplete);
    AnsweredOutcome(c, d, result, messageId, s.now);
  }

  lemma AnsweredOutcome(c: Case, d: Case, found: Investigation, messageId: string, now: nat)
    requires Answered(c, d, found, messageId, now)
    ensures d.investigation == Some(found) && (d.resolution.Some? <==> found.resolutionReady)
  {
    hide SameIdentity, AllCompleted;
  }

  lemma UnderwayGives(c: Case, d: Case, found: Investigation)
    requires Underway(c, d, found, {Chat})
    ensures d.investigation.Some?
  {
    hide SameIdentity, AllCompleted;
  }

  lemma DeliveryNext(s: System, z: System, t: Nonce, c: Case, d: Case, found: Investigation, snapshot: Case)
    requires Moved(s, z, t, d, Claiming(Delivery(c.generation), Turn(c.generation, found, snapshot)))
    requires Underway(c, d, found, {Chat, Update(c.generation)}) && Delivery(c.generation) !in c.writes && !c.suspended
    ensures MayWrite(z, t, Delivery(c.generation), Turn(c.generation, found, snapshot))
  {
    hide AllCompleted;
  }

  /** The findings are filed and the private chat is open, whether or not it was before. */
  lemma ChatIsOpen(s: System, t: Nonce, found: Findings, chatId: string) returns (z: System, d: Case)
    requires Checks(s, t) && Opaque(chatId)
    ensures var (c, p) := (Own(s, t), s.tasks[t].pc);
      var (g, result) := (p.turn, Project(found, p.turn, p.inputComplete));
      && Moved(s, z, t, d, Claiming(Update(g), Turn(g, result, d))) && Underway(c, d, result, {Chat})
      && MayWrite(z, t, Update(g), Turn(g, result, d))
      && d.privateChatId == (if c.privateChatId == "" then chatId else c.privateChatId)
  {
    hide Project, AllCompleted, Opaque, AfterFindings;
    var (c, p) := (Own(s, t), s.tasks[t].pc);
    var (g, result) := (p.turn, Project(found, p.turn, p.inputComplete));
    var s1, b := FindingsFiled(s, t, found);
    FirstChat(g, result, b);
    if c.privateChatId == "" {
      z, d := ChatOpens(s1, t, c, result, chatId);
      MovedOn(s, s1, z, t, b, d, Claiming(Chat, Turn(g, result, b)), Claiming(Update(g), Turn(g, result, d)));
    } else {
      z, d := s1, b;
    }
  }

  lemma FirstChat(g: nat, found: Investigation, c: Case)
    ensures AfterFindings(g, found, c) ==
            if c.privateChatId == "" then Claiming(Chat, Turn(g, found, c)) else Claiming(Update(g), Turn(g, found, c))
  {
  }

  // ---------------------------------------------------------------- from an email to the closure

  /** An email that the service accepts. */
  predicate Acceptable(requesters: set<string>, messageId: string, conversationId: string, requesterId: string) {
    Opaque(messageId) && Opaque(conversationId) && requesterId in requesters
  }

  /** The first case of the index, ready to be checked. */
  lemma EmailIsRegistered(requesters: set<string>, messageId: string, conversationId: string, requesterId: string,
                          id: string, number: string) returns (z: System, c: Case)
    requires Acceptable(requesters, messageId, conversationId, requesterId) && IsReference(id) && IsReference(number)
    ensures Leads(Initial(requesters), z) && Checks(z, 0) && Own(z, 0) == c
    ensures z.tasks == map[0 := Task(CaseKey(messageId), Checking(0, true))] && z.nextNonce > 0
    ensures z.index == Index([CaseKey(messageId)], map[CaseKey(messageId) := c]) && z.now == 0 && z.requesters == requesters
    ensures c.key == CaseKey(messageId) && c.requesterId == requesterId && c.caseNumber == number && c.generation == 0
    ensures c.pendingReplies == []
    ensures c.activities == [] && c.inputComplete && c.salesforceStatus == "" && c.privateChatId == "" && c.writes.Keys == {Create}
  {
    hide Opaque, IsReference, Next, NewCase, WithEvent, TakeEdit, Written, Checks, MayWrite, Initial, ProvesWrite, AllCompleted;
    var (s0, key, proof) := (Initial(requesters), CaseKey(messageId), Reference(id, number));
    var receive := ReceiveEmail(messageId, conversationId, requesterId, true);
    var s2 := Next(Next(s0, receive), Commit(0));
    Here(s0);
    Then(s0, s0, receive);
    Then(s0, Next(s0, receive), Commit(0));
    FirstAdmitted(requesters, messageId, conversationId, requesterId);
    ReferenceProves(id, number);
    var s3 := WriteCompletes(s2, 0, Create, Registration, proof);
    Via(s0, s2, s3);
    var b := Written(NewCase(key, requesterId, conversationId, true, 0, 0), Create, 1, 0, proof, 0);
    z, c := RegistrationStarts(s3, key, requesterId, conversationId, proof, b);
    Via(s0, s3, z);
  }

  /** From the receipt of the registration to the first check. */
  lemma RegistrationStarts(s: System, key: CaseKey, requesterId: string, conversationId: string, proof: Receipt, b: Case)
    returns (z: System, c: Case)
    requires proof.Reference? && b == Written(NewCase(key, requesterId, conversationId, true, 0, 0), Create, 1, 0, proof, 0)
    requires s.tasks == map[0 := Task(key, Registering(proof))] && s.index == Index([key], map[key := b]) && s.now == 0
    requires s.nextNonce > 0 && b.owner == Some(0)
    ensures Leads(s, z) && Checks(z, 0) && Own(z, 0) == c
    ensures z.tasks == map[0 := Task(key, Checking(0, true))] && z.nextNonce > 0
    ensures z.index == Index([key], map[key := c]) && z.now == 0 && z.requesters == s.requesters
    ensures c.key == key && c.requesterId == requesterId && c.caseNumber == proof.number && c.generation == 0
    ensures c.pendingReplies == [] && c.activities == [] && c.inputComplete && c.salesforceStatus == ""
    ensures c.privateChatId == "" && c.writes.Keys == {Create}
  {
    hide Next, NewCase, WithEvent, TakeEdit, Written, Checks, AllCompleted;
    var e := WithEvent(b.(caseId := proof.id, caseNumber := proof.number, status := Investigating, suspended := false),
                       "case_registered", 0);
    var f := TakeEdit(e).(updatedAt := 0);
    c := WithEvent(f, "case_investigation_started", 0);
    FirstFacts(key, requesterId, conversationId, proof, b, e, f, c);
    Here(s);
    RegisterOnly(s, b, proof, e);
    Then(s, s, Commit(0));
    var s4 := Next(s, Commit(0));
    TakesFirst(s4, e, f);
    Then(s, s4, Commit(0));
    var s5 := Next(s4, Commit(0));
    StartsFirst(s5, f, c);
    Then(s, s5, Commit(0));
    z := Next(s5, Commit(0));
    FirstChecks(z, c);
  }

  lemma ReferenceProves(id: string, number: string)
    requires IsReference(id) && IsReference(number)
    ensures ProvesWrite(Create, Reference(id, number))
  {
  }

  /** The record of a case on its way to the first check. */
  lemma FirstFacts(key: CaseKey, requesterId: string, conversationId: string, proof: Receipt, b: Case, e: Case, f: Case, c: Case)
    requires proof.Reference? && b == Written(NewCase(key, requesterId, conversationId, true, 0, 0), Create, 1, 0, proof, 0)
    requires e == WithEvent(b.(caseId := proof.id, caseNumber := proof.number, status := Investigating, suspended := false),
                            "case_registered", 0)
    requires f == TakeEdit(e).(updatedAt := 0) && c == WithEvent(f, "case_investigation_started", 0)
    ensures Create in b.writes && b.writes[Create].receipt == Some(proof) && b.owner == Some(0)
    ensures e.owner == Some(0) && e.pendingReplies == [Reply(0, "", 0, None)] && !e.suspended && e.salesforceStatus == ""
    ensures e.generation == 0 && e.inputComplete
    ensures f.owner == Some(0) && f.generation == 0 && f.inputComplete && f.work == Some(Reply(0, "", 0, None))
    ensures c.key == key && c.owner == Some(0) && !c.suspended && AllCompleted(c.writes) && c.writes.Keys == {Create}
    ensures c.requesterId == requesterId && c.caseNumber == proof.number && c.generation == 0 && c.pendingReplies == []
    ensures c.activities == [] && c.inputComplete && c.salesforceStatus == "" && c.privateChatId == ""
  {
  }

  lemma TakesFirst(s: System, e: Case, f: Case)
    requires Owns(s, 0) && Own(s, 0) == e && s.tasks[0].pc == Taking && s.now == 0
    requires f == TakeEdit(e).(updatedAt := 0) && f.owner == Some(0) && f.work.Some? && f.work.value.generation == f.generation
    ensures Next(s, Commit(0)) == Save(s, 0, f, Starting(f.generation, f.inputComplete))
  {
    hide TakeEdit;
  }

  lemma StartsFirst(s: System, f: Case, c: Case)
    requires Owns(s, 0) && Own(s, 0) == f && s.tasks[0].pc == Starting(0, true) && s.now == 0
    requires c == WithEvent(f, "case_investigation_started", 0)
    ensures Next(s, Commit(0)) == Save(s, 0, c, Checking(0, true))
  {
    hide WithEvent;
  }

  lemma FirstChecks(s: System, c: Case)
    requires Owns(s, 0) && Own(s, 0) == c && s.tasks[0].pc == Checking(0, true)
    requires c.generation == 0 && !c.suspended && AllCompleted(c.writes) && c.writes.Keys == {Create}
    ensures Checks(s, 0)
  {
  }

  lemma FirstAdmitted(requesters: set<string>, messageId: string, conversationId: string, requesterId: string)
    requires Acceptable(requesters, messageId, conversationId, requesterId)
    ensures var s := Next(Next(Initial(requesters), ReceiveEmail(messageId, conversationId, requesterId, true)), Commit(0));
      var a := NewCase(CaseKey(messageId), requesterId, conversationId, true, 0, 0);
      && MayWrite(s, 0, Create, Registration) && Own(s, 0) == a && s.tasks[0].key == CaseKey(messageId)
      && s.index == Index([CaseKey(messageId)], map[CaseKey(messageId) := a]) && s.now == 0 && s.requesters == requesters
      && s.tasks.Keys == {0} && s.nextNonce == 1
  {
    hide Opaque;
    var none: seq<CaseKey> := [];
    assert none + [CaseKey(messageId)] == [CaseKey(messageId)];
  }

  lemma RegisterOnly(s: System, b: Case, proof: Receipt, e: Case)
    requires Owns(s, 0) && Own(s, 0) == b && s.tasks[0].pc == Registering(proof) && proof.Reference? && s.now == 0
    requires Create in b.writes && b.writes[Create].receipt == Some(proof) && s.index.cases == map[s.tasks[0].key := b]
    requires e == WithEvent(b.(caseId := proof.id, caseNumber := proof.number, status := Investigating, suspended := false),
                            "case_registered", 0)
    ensures Next(s, Commit(0)) == Save(s, 0, e, Taking)
  {
    hide WithEvent;
  }

  /** A message in the chat of the case, from its requester, that confirms the answer in its own words or by command. */
  predicate Confirms(m: Inbound, intent: Intent, requesterId: string, chatId: string) {
    && m.requesterId == requesterId && m.chatId == chatId && m.number.None? && Opaque(m.activityId) && !Blank(m.text)
    && (m.resolve || intent == ConfirmWithEmail || intent == ConfirmWithoutEmail)
  }

  /** A case at rest whose answer may be confirmed, alone in the index. */
  ghost predicate Confirmable(s: System, key: CaseKey, c: Case) {
    && s.index == Index([key], map[key := c]) && c.key == key && CanResolve(c, s.now) && c.activities == []
    && Opaque(c.privateChatId) && c.requesterId in s.requesters && Close !in c.writes && s.nextNonce !in s.tasks
  }

  lemma ConfirmationIsAccepted(s: System, key: CaseKey, c: Case, m: Inbound, intent: Intent) returns (z: System, d: Case)
    requires Confirmable(s, key, c) && Confirms(m, intent, c.requesterId, c.privateChatId)
    ensures Leads(s, z) && z.calls == s.calls && s.nextNonce in z.tasks && z.tasks[s.nextNonce] == Task(key, Confirming)
    ensures z.index == Index([key], map[key := d]) && d.owner == Some(s.nextNonce) && d.confirmation.Some?
    ensures d.confirmation.value.generation == d.generation && !d.suspended && d.writes == c.writes
  {
    hide Next, CanResolve, AcceptEdit, Opaque, Blank, Target, Holders;
    var t := s.nextNonce;
    var s1 := Next(s, HandleReply(m));
    var s2 := Next(s1, ReadIntent(t, intent, Some(key)));
    z := Next(s2, Commit(t));
    Here(s);
    Then(s, s, HandleReply(m));
    Then(s, s1, ReadIntent(t, intent, Some(key)));
    Then(s, s2, Commit(t));
    ReplyArrives(s, key, c, m, intent);
    d := AcceptEdit(c, m, s.now, intent, t).0;
    ConfirmingAccept(c, m, s.now, intent, t, key, s);
    OnlyTarget(s, key, c, m);
    AcceptsAsTarget(s2, key, c, m, intent, t, s.now);
  }

  lemma ReplyArrives(s: System, key: CaseKey, c: Case, m: Inbound, intent: Intent)
    requires Confirmable(s, key, c) && Confirms(m, intent, c.requesterId, c.privateChatId)
    ensures var (t, s2) := (s.nextNonce, Next(Next(s, HandleReply(m)), ReadIntent(s.nextNonce, intent, Some(key))));
      && t in s2.tasks && s2.tasks[t] == Task(CaseKey(""), Accepting(m, s.now, intent, Some(key)))
      && s2.index == s.index && s2.calls == s.calls
  {
    hide Opaque, Blank, CanResolve;
  }

  lemma ConfirmingAccept(c: Case, m: Inbound, now: nat, intent: Intent, t: Nonce, key: CaseKey, s: System)
    requires Confirmable(s, key, c) && now == s.now && Confirms(m, intent, c.requesterId, c.privateChatId)
    ensures var (d, step) := AcceptEdit(c, m, now, intent, t);
      && step == StartClosing && d.owner == Some(t) && d.confirmation.Some? && d.confirmation.value.generation == d.generation
      && !d.suspended && d.writes == c.writes
  {
    hide Opaque, Blank, CanResolve;
    StillConfirmable(c, m, now);
  }

  lemma AcceptsAsTarget(s: System, key: CaseKey, c: Case, m: Inbound, intent: Intent, t: Nonce, at: nat)
    requires s.index == Index([key], map[key := c]) && t in s.tasks
    requires s.tasks[t] == Task(CaseKey(""), Accepting(m, at, intent, Some(key)))
    requires Target(s.index, m) == Some(key) && Holders(s.index, KeyOf(m)) == {}
    requires AcceptEdit(c, m, at, intent, t).1 == StartClosing
    ensures var z := Next(s, Commit(t));
      && z.calls == s.calls && t in z.tasks && z.tasks[t] == Task(key, Confirming)
      && z.index == Index([key], map[key := AcceptEdit(c, m, at, intent, t).0])
  {
    hide AcceptEdit, Target, Holders;
  }

  lemma OnlyTarget(s: System, key: CaseKey, c: Case, m: Inbound)
    requires Confirmable(s, key, c) && m.requesterId == c.requesterId && m.chatId == c.privateChatId && m.number.None?
    ensures Target(s.index, m) == Some(key) && Holders(s.index, KeyOf(m)) == {}
  {
    hide Opaque, CanResolve, LatestOpen;
    var order := [key];
    assert order[..0] == [];
    assert Candidates(order[..0], s.index.cases, m) == [];
    assert Candidates(order, s.index.cases, m) == [key];
  }

  lemma StillConfirmable(c: Case, m: Inbound, now: nat)
    requires CanResolve(c, now)
    ensures CanResolve(c.(activities := c.activities + [KeyOf(m)]), now)
    ensures c.resolution.Some? && !c.suspended
  {
    hide ReadyFindings, AllCompleted;
  }

  /** From a standing answer to the closure: any confirming message leads to the close being sent. */
  lemma ConfirmedAnswerCloses(s: System, key: CaseKey, c: Case, m: Inbound, intent: Intent) returns (z: System)
    requires Confirmable(s, key, c) && Confirms(m, intent, c.requesterId, c.privateChatId)
    ensures Leads(s, z) && |z.calls| == |s.calls| + 1 && z.calls[|s.calls|].WriteCall? && z.calls[|s.calls|].name == Close
    ensures z.calls[|s.calls|].key == key
  {
    hide Opaque, Blank, CanResolve, Target, StepCommit, Run, Confirms;
    var t := s.nextNonce;
    var s1, d := ConfirmationIsAccepted(s, key, c, m, intent);
    CanResolveCompleted(c, s.now);
    var s2 := Next(s1, ReadRecord(t));
    Then(s, s1, ReadRecord(t));
    var context := Closure(d.generation);
    assert MayWrite(s2, t, Close, context);
    var claimed := d.(writes := d.writes[Close := Write(s2.nextNonce, t, Claimed, s2.now, None, 0)],
                      status := PendingStatus(Close), updatedAt := s2.now);
    ClaimStep(s2, t, Close, context, claimed);
    var s3 := Next(s2, Commit(t));
    Then(s, s2, Commit(t));
    z := Next(s3, Invoke(t));
    Then(s, s3, Invoke(t));
  }

  lemma CanResolveCompleted(c: Case, now: nat)
    requires CanResolve(c, now)
    ensures AllCompleted(c.writes)
  {
    hide ReadyFindings;
  }

  /** The findings that allow a closure. */
  predicate Grounded(found: Findings) {
    Closable(found, true) && forall e <- found.evidence :: e.id != "" && e.version != ""
  }

  lemma GroundedIsReady(found: Findings)
    requires Grounded(found)
    ensures var r := Project(found, 0, true); r.resolutionReady && ReadyFindings(r) && r.generation == 0
  {
    hide Blank;
  }

  lemma AnsweredGives(s: System, c: Case, d: Case, found: Investigation, messageId: string)
    requires Checks(s, 0) && c == Own(s, 0) && c.writes.Keys == {Create} && c.generation == 0
    requires Answered(c, d, found, messageId, 0)
    ensures Close !in d.writes && d.owner == Some(0) && !d.suspended && !c.suspended
    ensures d.activities == c.activities && d.requesterId == c.requesterId && d.key == c.key
  {
    hide AllCompleted;
  }

  /** Letting go of an answered case leaves its answer open to confirmation. */
  lemma AnswerStands(c: Case, d: Case, found: Investigation, messageId: string, e: Case)
    requires Answered(c, d, found, messageId, 0) && found.resolutionReady && ReadyFindings(found) && found.generation == 0
    requires c.generation == 0 && c.pendingReplies == [] && c.inputComplete && c.salesforceStatus == "" && !d.suspended
    requires e == TakeEdit(d).(updatedAt := 0) && Opaque(messageId)
    ensures CanResolve(e, 0) && e == d.(owner := None, work := None, updatedAt := 0)
  {
    hide ReadyFindings, Blank;
  }

  lemma TakesNothing(s: System, d: Case, e: Case)
    requires Owns(s, 0) && Own(s, 0) == d && s.tasks[0].pc == Taking && s.now == 0
    requires e == TakeEdit(d).(updatedAt := 0) && e.owner.None?
    ensures Next(s, Commit(0)) == Save(s, 0, e, Done)
  {
  }

  /** Every acceptable email can be seen through to its closure: with any references, chat, message ids and grounded
      findings the outside world answers with, the confirming reply makes the service send the close. */
  lemma AnEmailCanBeSeenThrough(requesters: set<string>, messageId: string, conversationId: string, requesterId: string,
                                id: string, number: string, chatId: string, answerId: string, found: Findings,
                                m: Inbound, intent: Intent)
    requires Acceptable(requesters, messageId, conversationId, requesterId) && IsReference(id) && IsReference(number)
    requires Opaque(chatId) && Opaque(answerId) && Grounded(found) && Confirms(m, intent, requesterId, chatId)
    ensures exists actions :: var calls := Run(Initial(requesters), actions).calls;
      |calls| > 0 && var last := calls[|calls| - 1];
      last.WriteCall? && last.name == Close && last.key == CaseKey(messageId)
  {
    hide Opaque, IsReference, Blank, Answered, Checks, Project, Next, TakeEdit, CanResolve, Grounded, Initial, ReadyFindings;
    var s0 := Initial(requesters);
    var s1, c := EmailIsRegistered(requesters, messageId, conversationId, requesterId, id, number);
    var s2, d := UndisturbedTurnIsAnswered(s1, 0, found, chatId, answerId);
    Via(s0, s1, s2);
    var s3 := Next(s2, Commit(0));
    Then(s0, s2, Commit(0));
    var e := TakeEdit(d).(updatedAt := 0);
    var result := Project(found, 0, true);
    AnsweredGives(s1, c, d, result, answerId);
    GroundedIsReady(found);
    AnswerStands(c, d, result, answerId, e);
    TakesNothing(s2, d, e);
    var z := ConfirmedAnswerCloses(s3, CaseKey(messageId), e, m, intent);
    Via(s0, s3, z);
    var actions :| Run(s0, actions) == z;
  }
}
