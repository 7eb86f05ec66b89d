/** A run in which a failed check leaves a reply behind: it was accepted while the records were being checked. */
module ComplianceStranding {
  import opened Options
  import opened ComplianceRecord
  import opened ComplianceIndex
  import opened ComplianceProtocol
  import opened ComplianceProgress

  /** A free-text message in the chat of the case, from its requester. */
  predicate News(m: Inbound, requesterId: string, chatId: string) {
    && m.requesterId == requesterId && m.chatId == chatId && m.number.None? && !m.resolve
    && Opaque(m.chatId) && Opaque(m.activityId) && !Blank(m.text)
  }

  /** One case in the index, being driven, with room for another reply. */
  ghost predicate Driven(s: System, key: CaseKey, c: Case, pc: Pc) {
    && s.index == Index([key], map[key := c]) && c.key == key && c.requesterId in s.requesters
    && 0 in s.tasks && s.tasks[0] == Task(key, pc) && s.nextNonce > 0 && (forall t <- s.tasks :: t < s.nextNonce)
    && c.owner == Some(0) && !c.suspended && c.salesforceStatus == ""
    && c.generation < 2 && |c.pendingReplies| < 2 && |c.activities| == c.generation
  }

  /** A reply to a case that is being driven is queued for a new turn, and its own handler is done. */
  lemma ReplyIsQueued(s: System, key: CaseKey, c: Case, pc: Pc, m: Inbound) returns (z: System, d: Case)
    requires Driven(s, key, c, pc) && News(m, c.requesterId, c.privateChatId) && KeyOf(m) !in c.activities
    ensures Leads(s, z) && z.index == Index([key], map[key := d]) && z.requesters == s.requesters
    ensures z.tasks == s.tasks[s.nextNonce := Task(key, Done)] && z.nextNonce == s.nextNonce + 1 && z.now == s.now
    ensures SameCase(c, d) && d.generation == c.generation + 1 && d.activities == c.activities + [KeyOf(m)]
    ensures |d.pendingReplies| == |c.pendingReplies| + 1 && d.pendingReplies[..|c.pendingReplies|] == c.pendingReplies
    ensures d.pendingReplies[|c.pendingReplies|].generation == d.generation
  {
    hide Next, AcceptEdit, Opaque, Blank, Target, Holders, Run;
    var t := s.nextNonce;
    var s1 := Next(s, HandleReply(m));
    var s2 := Next(s1, ReadIntent(t, Information, None));
    z := Next(s2, Commit(t));
    Here(s);
    Then(s, s, HandleReply(m));
    Then(s, s1, ReadIntent(t, Information, None));
    Then(s, s2, Commit(t));
    NewsArrives(s, key, c, pc, m);
    d := AcceptEdit(c, m, s.now, Information, t).0;
    NewsIsQueued(c, m, s.now, t);
    NewsTarget(s, key, c, pc, m);
    NewsAccepted(s2, key, c, m, t, s.now);
  }

  ghost predicate SameCase(c: Case, d: Case) {
    && d.key == c.key && d.requesterId == c.requesterId && d.privateChatId == c.privateChatId && d.owner == c.owner
    && d.suspended == c.suspended && d.salesforceStatus == c.salesforceStatus && d.writes == c.writes
  }

  lemma NewsArrives(s: System, key: CaseKey, c: Case, pc: Pc, m: Inbound)
    requires Driven(s, key, c, pc) && News(m, c.requesterId, c.privateChatId)
    ensures var (t, z) := (s.nextNonce, Next(Next(s, HandleReply(m)), ReadIntent(s.nextNonce, Information, None)));
      z == s.(tasks := s.tasks[t := Task(CaseKey(""), Accepting(m, s.now, Information, None))], nextNonce := t + 1)
  {
    hide Opaque, Blank;
  }

  lemma NewsIsQueued(c: Case, m: Inbound, now: nat, t: Nonce)
    requires c.owner == Some(0) && !c.suspended && c.salesforceStatus == "" && c.generation < 2 && |c.pendingReplies| < 2
    requires |c.activities| < 2 && !m.resolve
    ensures var (d, step) := AcceptEdit(c, m, now, Information, t);
      && step == Ignore && SameCase(c, d) && d.generation == c.generation + 1 && d.activities == c.activities + [KeyOf(m)]
      && |d.pendingReplies| == |c.pendingReplies| + 1 && d.pendingReplies[..|c.pendingReplies|] == c.pendingReplies
      && d.pendingReplies[|c.pendingReplies|].generation == d.generation
  {
    hide CanResolve;
  }

  lemma NewsTarget(s: System, key: CaseKey, c: Case, pc: Pc, m: Inbound)
    requires Driven(s, key, c, pc) && News(m, c.requesterId, c.privateChatId) && KeyOf(m) !in c.activities
    ensures Target(s.index, m) == Some(key) && Holders(s.index, KeyOf(m)) == {}
  {
    hide Opaque, Blank, LatestOpen;
    var order := [key];
    assert order[..0] == [];
    assert Candidates(order[..0], s.index.cases, m) == [];
    assert Candidates(order, s.index.cases, m) == [key];
  }

  lemma NewsAccepted(s: System, key: CaseKey, c: Case, m: Inbound, t: Nonce, at: nat)
    requires s.index == Index([key], map[key := c]) && t in s.tasks
    requires s.tasks[t] == Task(CaseKey(""), Accepting(m, at, Information, None))
    requires Target(s.index, m) == Some(key) && Holders(s.index, KeyOf(m)) == {}
    requires AcceptEdit(c, m, at, Information, t).1 == Ignore
    ensures Next(s, Commit(t)) ==
            s.(index := Index([key], map[key := AcceptEdit(c, m, at, Information, t).0]), tasks := s.tasks[t := Task(key, Done)])
  {
    hide AcceptEdit, Target, Holders;
    assert map[key := c][key := AcceptEdit(c, m, at, Information, t).0] == map[key := AcceptEdit(c, m, at, Information, t).0];
  }

  /** The driver takes the queued reply and goes on to check the records. */
  lemma NextTurnChecks(s: System, key: CaseKey, c: Case) returns (z: System, d: Case)
    requires s.index == Index([key], map[key := c]) && c.key == key && 0 in s.tasks && s.tasks[0] == Task(key, Taking)
    requires c.owner == Some(0) && !c.suspended && c.salesforceStatus == "" && |c.pendingReplies| == 1
    requires c.pendingReplies[0].generation == c.generation
    ensures Leads(s, z) && z.index == Index([key], map[key := d]) && z.requesters == s.requesters && z.now == s.now
    ensures z.tasks == s.tasks[0 := Task(key, Checking(c.generation, c.inputComplete))] && z.nextNonce == s.nextNonce
    ensures SameCase(c, d) && d.generation == c.generation && d.activities == c.activities && d.pendingReplies == []
  {
    hide Next, Run;
    var s1 := Next(s, Commit(0));
    z := Next(s1, Commit(0));
    Here(s);
    Then(s, s, Commit(0));
    Then(s, s1, Commit(0));
    var e := TakeEdit(c).(updatedAt := s.now);
    TakesReply(s, key, c, e);
    d := WithEvent(e, "case_investigation_started", s.now);
    StartsCheck(s1, key, e, d, c.generation, c.inputComplete);
    assert s.tasks[0 := Task(key, Starting(c.generation, c.inputComplete))][0 := z.tasks[0]] == s.tasks[0 := z.tasks[0]];
  }

  lemma TakesReply(s: System, key: CaseKey, c: Case, e: Case)
    requires s.index == Index([key], map[key := c]) && 0 in s.tasks && s.tasks[0] == Task(key, Taking)
    requires c.owner == Some(0) && !c.suspended && c.salesforceStatus == "" && |c.pendingReplies| == 1
    requires c.pendingReplies[0].generation == c.generation && e == TakeEdit(c).(updatedAt := s.now)
    ensures SameCase(c, e) && e.generation == c.generation && e.activities == c.activities && e.pendingReplies == []
    ensures Next(s, Commit(0)) ==
            s.(index := Index([key], map[key := e]), tasks := s.tasks[0 := Task(key, Starting(c.generation, c.inputComplete))])
  {
    assert map[key := c][key := e] == map[key := e];
  }

  lemma StartsCheck(s: System, key: CaseKey, e: Case, d: Case, g: nat, complete: bool)
    requires s.index == Index([key], map[key := e]) && 0 in s.tasks && s.tasks[0] == Task(key, Starting(g, complete))
    requires e.owner == Some(0) && d == WithEvent(e, "case_investigation_started", s.now)
    ensures SameCase(e, d) && d.generation == e.generation && d.activities == e.activities && d.pendingReplies == e.pendingReplies
    ensures Next(s, Commit(0)) ==
            s.(index := Index([key], map[key := d]), tasks := s.tasks[0 := Task(key, Checking(g, complete))])
  {
    assert map[key := e][key := d] == map[key := d];
  }

  /** The check fails and the driver lets go of the case. */
  lemma CheckFails(s: System, key: CaseKey, c: Case, g: nat, complete: bool)
    requires s.index == Index([key], map[key := c]) && 0 in s.tasks && s.tasks[0] == Task(key, Checking(g, complete))
    requires c.owner == Some(0)
    ensures var y := Next(s, Investigate(0, None));
      && Leads(s, y) && Owns(y, 0) && Own(y, 0) == c && y.tasks[0] == Task(key, Blocking(g))
      && var z := StepCommit(y, 0);
         key in z.index.cases && z.index.cases[key].owner == None && z.index.cases[key].pendingReplies == c.pendingReplies
  {
    hide Run;
    Here(s);
    Then(s, s, Investigate(0, None));
  }

  /** Whatever the references, the chat, the findings and the two messages are: after the first answer a reply starts a
      second turn, another reply is accepted while its records are checked, the check fails, and the case is left with
      that reply queued and nobody driving it. */
  lemma AReplyCanBeStranded(requesters: set<string>, messageId: string, conversationId: string, requesterId: string,
                            id: string, number: string, chatId: string, answerId: string, found: Findings,
                            first: Inbound, second: Inbound)
    requires Acceptable(requesters, messageId, conversationId, requesterId) && IsReference(id) && IsReference(number)
    requires Opaque(chatId) && Opaque(answerId)
    requires News(first, requesterId, chatId) && News(second, requesterId, chatId) && KeyOf(first) != KeyOf(second)
    ensures exists actions :: var s := Run(Initial(requesters), actions);
      && Owns(s, 0) && s.tasks[0] == Task(CaseKey(messageId), Blocking(1)) && Own(s, 0).generation == 2
      && CaseKey(messageId) in StepCommit(s, 0).index.cases
      && var c := StepCommit(s, 0).index.cases[CaseKey(messageId)];
         c.owner == None && |c.pendingReplies| == 1 && c.pendingReplies[0].generation == 2
  {
    hide Opaque, IsReference, Answered, Checks, Project, Next, StepCommit, Initial, Run, Moved, Leads, News, Acceptable;
    var (s0, key) := (Initial(requesters), CaseKey(messageId));
    var s2, d := FirstAnswer(requesters, messageId, conversationId, requesterId, id, number, chatId, answerId, found);
    var s3, e := ReplyIsQueued(s2, key, d, Taking, first);
    Via(s0, s2, s3);
    var s4, f := NextTurnChecks(s3, key, e);
    Via(s0, s3, s4);
    var s5, g := ReplyIsQueued(s4, key, f, Checking(1, e.inputComplete), second);
    Via(s0, s4, s5);
    CheckFails(s5, key, g, 1, e.inputComplete);
    Via(s0, s5, Next(s5, Investigate(0, None)));
    LeadsByRun(s0, Next(s5, Investigate(0, None)));
  }

  lemma LeadsByRun(s: System, z: System)
    requires Leads(s, z)
    ensures exists actions :: Run(s, actions) == z
  {
  }

  /** The state right after the first answer has been delivered. */
  lemma FirstAnswer(requesters: set<string>, messageId: string, conversationId: string, requesterId: string,
                    id: string, number: string, chatId: string, answerId: string, found: Findings)
    returns (z: System, d: Case)
    requires Acceptable(requesters, messageId, conversationId, requesterId) && IsReference(id) && IsReference(number)
    requires Opaque(chatId) && Opaque(answerId)
    ensures Leads(Initial(requesters), z) && Driven(z, CaseKey(messageId), d, Taking)
    ensures d.requesterId == requesterId && d.privateChatId == chatId && d.generation == 0 && d.pendingReplies == []
    ensures d.activities == []
  {
    hide Opaque, IsReference, Answered, Checks, Project, Next, Initial, Run, Leads;
    var s0 := Initial(requesters);
    var s1, c := EmailIsRegistered(requesters, messageId, conversationId, requesterId, id, number);
    z, d := UndisturbedTurnIsAnswered(s1, 0, found, chatId, answerId);
    Via(s0, s1, z);
    AnsweredKeeps(s1, c, d, Project(found, 0, true), answerId);
    assert z.tasks == map[0 := Task(CaseKey(messageId), Taking)];
    assert map[c.key := c][c.key := d] == map[c.key := d];
  }

  lemma AnsweredKeeps(s: System, c: Case, d: Case, found: Investigation, answerId: string)
    requires Checks(s, 0) && c == Own(s, 0) && Answered(c, d, found, answerId, 0)
    ensures SameIdentity(c, d) && c.owner == Some(0) && !c.suspended
  {
    hide AllCompleted;
  }
}
