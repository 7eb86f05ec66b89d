/** The words of the requester on their way into the records check. */
module ComplianceWords {
  import opened Options
  import opened ComplianceRecord
  import opened ComplianceIndex
  import opened ComplianceProtocol
  import opened ComplianceInvariant
  import opened ComplianceSteps
  import opened ComplianceTurns
  import opened ComplianceArrivals
  import opened ComplianceRuns
  import opened ComplianceGrowth
  import opened ComplianceWorks

  // ---------------------------------------------------------------- one message

  /** Which messages start a new turn: free text with news in it, on a case in service with room for another turn. The reply
      queued for it, and the one entry added to the history, is the message word for word. */
  lemma MaterialIsQueued(c: Case, m: Inbound, at: nat, intent: Intent, t: Nonce)
    ensures var d := AcceptEdit(c, m, at, intent, t).0;
      var confirms := (intent == ConfirmWithEmail || intent == ConfirmWithoutEmail)
                      && CanResolve(c.(activities := c.activities + [KeyOf(m)]), at);
      var reply := Reply(c.generation + 1, m.safeText, at, Some(KeyOf(m)));
      if |c.activities| < 128 && !m.resolve && !confirms && intent != SmallTalk
         && c.generation < 31 && |c.pendingReplies| < 8 && !c.suspended
      then d.generation == c.generation + 1 && d.pendingReplies == c.pendingReplies + [reply]
           && d.replyHistory == c.replyHistory + [reply]
      else d.generation == c.generation && d.pendingReplies == c.pendingReplies && d.replyHistory == c.replyHistory
  {
    hide CanResolve, WithEvent, MaterialEdit;
    var d := c.(activities := c.activities + [KeyOf(m)]);
    OwnedCannotResolve(d, at);
    MaterialQueues(d, m, at, t);
    forall x: Case, kind: string ensures SameWords(x, WithEvent(x, kind, at)) {
      EventOnly(x, kind, at);
    }
  }

  lemma MaterialQueues(c: Case, m: Inbound, at: nat, t: Nonce)
    ensures var d := MaterialEdit(c, m, at, t).0;
      var reply := Reply(c.generation + 1, m.safeText, at, Some(KeyOf(m)));
      if c.generation < 31 && |c.pendingReplies| < 8 && !c.suspended
      then d.generation == c.generation + 1 && d.pendingReplies == c.pendingReplies + [reply]
           && d.replyHistory == c.replyHistory + [reply]
      else d.generation == c.generation && d.pendingReplies == c.pendingReplies && d.replyHistory == c.replyHistory
  {
  }

  // ---------------------------------------------------------------- every run

  /** In step `n` of the run message `m` was accepted and raised the case to the turn of this reply; the reply is its text, its
      time and its activity. */
  ghost predicate SaidAt(requesters: set<string>, actions: seq<Action>, n: nat, m: Inbound, key: CaseKey, r: Reply)
    requires n < |actions|
  {
    var s := Run(Initial(requesters), actions[..n]);
    && AcceptedAt(requesters, actions, n, m, key) && s.index.cases[key].generation + 1 == r.generation
    && r == Reply(r.generation, m.safeText, s.tasks[actions[n].task].pc.receivedAt, Some(KeyOf(m)))
  }

  /** In step `n` of the run message `m`, which had come in before, was accepted for this case. */
  ghost predicate AcceptedAt(requesters: set<string>, actions: seq<Action>, n: nat, m: Inbound, key: CaseKey)
    requires n < |actions|
  {
    var s := Run(Initial(requesters), actions[..n]);
    && actions[n].Commit? && actions[n].task in s.tasks && s.tasks[actions[n].task].pc.Accepting?
    && s.tasks[actions[n].task].pc.msg == m && HandleReply(m) in actions[..n]
    && key in s.index.cases && key in Next(s, actions[n]).index.cases
    && Next(s, actions[n]).index.cases[key].activities == s.index.cases[key].activities + [KeyOf(m)]
  }

  /** The first turn of a case has no words; every other one is what a message said, not shortened if it is to be whole. */
  ghost predicate Word(requesters: set<string>, actions: seq<Action>, key: CaseKey, r: Reply, whole: bool) {
    if r.generation == 0 then r.text == ""
    else exists n, m :: 0 <= n < |actions| && SaidAt(requesters, actions, n, m, key, r) && (whole ==> m.safeText == m.text)
  }

  /** Some message accepted for the case had to be shortened. */
  ghost predicate Shortened(requesters: set<string>, actions: seq<Action>, key: CaseKey) {
    exists n, m :: 0 <= n < |actions| && AcceptedAt(requesters, actions, n, m, key) && m.safeText != m.text
  }

  lemma WordLonger(requesters: set<string>, before: seq<Action>, a: Action, key: CaseKey, r: Reply, whole: bool)
    requires Word(requesters, before, key, r, whole)
    ensures Word(requesters, before + [a], key, r, whole) && Word(requesters, before + [a], key, r, false)
  {
    hide SaidAt;
    if r.generation > 0 {
      var n, m :| 0 <= n < |before| && SaidAt(requesters, before, n, m, key, r) && (whole ==> m.safeText == m.text);
      SaidLonger(requesters, before, a, n, m, key, r);
      assert SaidAt(requesters, before + [a], n, m, key, r);
    }
  }

  lemma SaidLonger(requesters: set<string>, before: seq<Action>, a: Action, n: nat, m: Inbound, key: CaseKey, r: Reply)
    requires n < |before| && SaidAt(requesters, before, n, m, key, r)
    ensures SaidAt(requesters, before + [a], n, m, key, r)
  {
    hide Run, Initial, Next;
    assert (before + [a])[..n] == before[..n];
  }

  lemma ShortenedLonger(requesters: set<string>, before: seq<Action>, a: Action, key: CaseKey)
    requires Shortened(requesters, before, key)
    ensures Shortened(requesters, before + [a], key)
  {
    hide Run, Initial, Next;
    var n, m :| 0 <= n < |before| && AcceptedAt(requesters, before, n, m, key) && m.safeText != m.text;
    assert (before + [a])[..n] == before[..n];
    assert AcceptedAt(requesters, before + [a], n, m, key);
  }

  /** The email that opened the case came in, complete or not. */
  ghost predicate Mailed(actions: seq<Action>, key: CaseKey, c: Case, complete: bool) {
    ReceiveEmail(key.messageId, c.conversationId, c.requesterId, complete) in actions
  }

  /** The input counts as complete only if the email and every message in the history are, and as incomplete only if one of
      them is not. */
  ghost predicate InputTrue(requesters: set<string>, actions: seq<Action>, key: CaseKey, c: Case) {
    if c.inputComplete then Mailed(actions, key, c, true)
    else Mailed(actions, key, c, false) || Shortened(requesters, actions, key)
  }

  ghost predicate CaseWords(requesters: set<string>, actions: seq<Action>, key: CaseKey, c: Case) {
    && (forall i :: 0 <= i < |c.replyHistory| ==>
          c.replyHistory[i].generation == i + 1 && Word(requesters, actions, key, c.replyHistory[i], c.inputComplete))
    && (forall i :: 0 <= i < |c.pendingReplies| ==> Word(requesters, actions, key, c.pendingReplies[i], false))
    && (c.work.Some? ==>
          && Word(requesters, actions, key, c.work.value, false)
          && c.latestReply == if c.work.value.text != "" then c.work else None)
    && InputTrue(requesters, actions, key, c)
  }

  /** A handler at the start of a turn has that turn as its work, and knows whether its input is complete unless another
      message came in since. */
  ghost predicate TaskWords(s: System, t: Nonce)
    requires t in s.tasks
  {
    s.tasks[t].pc.Starting? || s.tasks[t].pc.Checking? ==>
      && s.tasks[t].key in s.index.cases
      && var c := s.index.cases[s.tasks[t].key];
      && c.work.Some? && c.work.value.generation == s.tasks[t].pc.turn
      && (Live(c, s.tasks[t].pc.turn) ==> c.inputComplete == s.tasks[t].pc.inputComplete)
  }

  /** Every message and every email on its way has come in. */
  predicate Came(actions: seq<Action>, task: Task) {
    && (task.pc.Routing? || task.pc.Accepting? ==> HandleReply(task.pc.msg) in actions)
    && (task.pc.Admitting? ==>
          ReceiveEmail(task.key.messageId, task.pc.conversationId, task.pc.requesterId, task.pc.complete) in actions)
  }

  ghost predicate WordsInv(requesters: set<string>, actions: seq<Action>) {
    var s := Run(Initial(requesters), actions);
    && (forall key <- s.index.cases :: CaseWords(requesters, actions, key, s.index.cases[key]))
    && (forall t <- s.tasks :: TaskWords(s, t) && Came(actions, s.tasks[t]))
  }

  lemma InputStays(requesters: set<string>, before: seq<Action>, a: Action, key: CaseKey, c: Case, d: Case)
    requires InputTrue(requesters, before, key, c) && d.inputComplete == c.inputComplete
    requires d.requesterId == c.requesterId && d.conversationId == c.conversationId
    ensures InputTrue(requesters, before + [a], key, d)
  {
    hide Shortened;
    if Shortened(requesters, before, key) { ShortenedLonger(requesters, before, a, key); }
  }

  lemma SameCaseWords(requesters: set<string>, before: seq<Action>, a: Action, key: CaseKey, c: Case, d: Case)
    requires CaseWords(requesters, before, key, c) && (SameWords(c, d) || TakesWork(c, d)) && d.inputComplete == c.inputComplete
    requires d.requesterId == c.requesterId && d.conversationId == c.conversationId
    ensures CaseWords(requesters, before + [a], key, d)
  {
    hide Word, InputTrue;
    InputStays(requesters, before, a, key, c, d);
    forall r: Reply, whole: bool | Word(requesters, before, key, r, whole)
      ensures Word(requesters, before + [a], key, r, whole)
    {
      WordLonger(requesters, before, a, key, r, whole);
    }
  }

  lemma SaidCaseWords(requesters: set<string>, before: seq<Action>, a: Action, key: CaseKey, c: Case, d: Case)
    requires WordsInv(requesters, before) && Hearing(requesters, before, a, key, c, d)
    requires |c.replyHistory| == c.generation && d.requesterId == c.requesterId && d.conversationId == c.conversationId
    ensures CaseWords(requesters, before + [a], key, d)
  {
    hide Word, Run, Initial, Next, TaskWords, InputTrue, Confirms;
    var s := Run(Initial(requesters), before);
    var pc := s.tasks[a.task].pc;
    assert Came(before, s.tasks[a.task]);
    SaidInput(requesters, before, a, key, c, d);
    forall r: Reply, whole: bool | Word(requesters, before, key, r, whole)
      ensures Word(requesters, before + [a], key, r, whole) && Word(requesters, before + [a], key, r, false)
    {
      WordLonger(requesters, before, a, key, r, whole);
    }
    if d.generation != c.generation {
      NowSaid(requesters, before, a, key, c, d, pc.msg.safeText == pc.msg.text);
      NowSaid(requesters, before, a, key, c, d, false);
    }
  }

  /** This step accepts a message for the case. */
  ghost predicate Hearing(requesters: set<string>, before: seq<Action>, a: Action, key: CaseKey, c: Case, d: Case) {
    var s := Run(Initial(requesters), before);
    && Said(s, a, key, c, d) && key in s.index.cases && s.index.cases[key] == c
    && key in Next(s, a).index.cases && Next(s, a).index.cases[key] == d
  }

  lemma SaidInput(requesters: set<string>, before: seq<Action>, a: Action, key: CaseKey, c: Case, d: Case)
    requires Hearing(requesters, before, a, key, c, d) && Came(before, Run(Initial(requesters), before).tasks[a.task])
    requires InputTrue(requesters, before, key, c) && d.requesterId == c.requesterId && d.conversationId == c.conversationId
    ensures InputTrue(requesters, before + [a], key, d)
  {
    hide Run, Initial, Confirms, Next;
    var m := Run(Initial(requesters), before).tasks[a.task].pc.msg;
    if d.inputComplete == c.inputComplete {
      InputStays(requesters, before, a, key, c, d);
    } else {
      var all := before + [a];
      assert all[..|before|] == before && all[|before|] == a;
      assert AcceptedAt(requesters, all, |before|, m, key);
    }
  }

  lemma NowSaid(requesters: set<string>, before: seq<Action>, a: Action, key: CaseKey, c: Case, d: Case, whole: bool)
    requires Hearing(requesters, before, a, key, c, d) && d.generation != c.generation
    requires var pc := Run(Initial(requesters), before).tasks[a.task].pc;
      HandleReply(pc.msg) in before && (whole ==> pc.msg.safeText == pc.msg.text)
    ensures var pc := Run(Initial(requesters), before).tasks[a.task].pc;
      Word(requesters, before + [a], key, ReplyOf(pc.msg, pc.receivedAt, c.generation + 1), whole)
  {
    hide Run, Initial, Next, Confirms;
    var pc := Run(Initial(requesters), before).tasks[a.task].pc;
    var all := before + [a];
    assert all[..|before|] == before && all[|before|] == a;
    assert SaidAt(requesters, all, |before|, pc.msg, key, ReplyOf(pc.msg, pc.receivedAt, c.generation + 1));
  }

  lemma NewbornWords(requesters: set<string>, before: seq<Action>, a: Action, key: CaseKey, d: Case)
    requires var s := Run(Initial(requesters), before); Newborn(s, a, key, d) && Came(before, s.tasks[a.task])
    ensures CaseWords(requesters, before + [a], key, d)
  {
    hide SaidAt, Run, Initial, Shortened;
  }

  lemma NextCaseWords(requesters: set<string>, before: seq<Action>, a: Action, key: CaseKey)
    requires WordsInv(requesters, before) && key in Next(Run(Initial(requesters), before), a).index.cases
    ensures CaseWords(requesters, before + [a], key, Next(Run(Initial(requesters), before), a).index.cases[key])
  {
    hide Run, Initial, Next, CaseWords, TaskWords, Inv, WellOrdered, CaseInv, SameWords, TakesWork, Hears, Came, Grows,
         IndexGrows;
    var s := Run(Initial(requesters), before);
    var z := Next(s, a);
    ReachedKeeps(requesters, before);
    NextCase(s, a, key);
    if key in s.index.cases {
      var c, d := s.index.cases[key], z.index.cases[key];
      NextGrows(s, a);
      SameIdentity(s.index, z.index, key);
      if Said(s, a, key, c, d) {
        HistoryLength(s, key);
        SaidCaseWords(requesters, before, a, key, c, d);
      } else {
        SameCaseWords(requesters, before, a, key, c, d);
      }
    } else {
      NewbornWords(requesters, before, a, key, z.index.cases[key]);
    }
  }

  lemma SameIdentity(x: Index, y: Index, key: CaseKey)
    requires IndexGrows(x, y) && key in x.cases
    ensures key in y.cases && y.cases[key].requesterId == x.cases[key].requesterId
    ensures y.cases[key].conversationId == x.cases[key].conversationId
    ensures x.cases[key].suspended ==> y.cases[key].suspended
  {
  }

  lemma HistoryLength(s: System, key: CaseKey)
    requires Inv(s) && key in s.index.cases
    ensures |s.index.cases[key].replyHistory| == s.index.cases[key].generation
  {
    hide Inv, HistoryInv, WritesInv, IdleInv, AuthorityInv, IsReference;
    InvCases(s);
    CaseFacts(s, key);
  }

  lemma NextTaskWords(requesters: set<string>, before: seq<Action>, a: Action, t: Nonce)
    requires WordsInv(requesters, before) && t in Next(Run(Initial(requesters), before), a).tasks
    ensures TaskWords(Next(Run(Initial(requesters), before), a), t)
  {
    hide Run, Initial, Next, CaseWords, Inv, WellOrdered;
    var s := Run(Initial(requesters), before);
    ReachedKeeps(requesters, before);
    NextTask(s, a, t);
    var z := Next(s, a);
    if t in s.tasks && z.tasks[t] == s.tasks[t] && (s.tasks[t].pc.Starting? || s.tasks[t].pc.Checking?) {
      assert TaskWords(s, t);
      WorkStays(s, a, t);
      TurnReached(s, t);
    } else if Advances(s, z, a, t) && z.tasks[t].pc.Checking? {
      assert TaskWords(s, t);
      WorkStays(s, a, t);
      TurnReached(s, t);
    }
  }

  /** Nobody but its driver touches the work of a case in a turn, and only a further message its input. */
  lemma WorkStays(s: System, a: Action, t: Nonce)
    requires Inv(s) && WellOrdered(s.index) && t in s.tasks && (s.tasks[t].pc.Starting? || s.tasks[t].pc.Checking?)
    ensures var (key, z) := (s.tasks[t].key, Next(s, a));
      && key in s.index.cases && key in z.index.cases && z.index.cases[key].work == s.index.cases[key].work
      && (Live(z.index.cases[key], s.tasks[t].pc.turn) && s.tasks[t].pc.turn <= s.index.cases[key].generation ==>
            Live(s.index.cases[key], s.tasks[t].pc.turn)
            && z.index.cases[key].inputComplete == s.index.cases[key].inputComplete)
  {
    hide Inv, Next, Confirms, WellOrdered, Grows, IndexGrows;
    DriverOwns(s, t);
    var key := s.tasks[t].key;
    CasesStay(s, a, key);
    NextCase(s, a, key);
    NextGrows(s, a);
    SameIdentity(s.index, Next(s, a).index, key);
    if Drove(s, a, key, s.index.cases[key], Next(s, a).index.cases[key]) {
      assert a.task == t;
    }
  }

  lemma CasesStay(s: System, a: Action, key: CaseKey)
    requires Inv(s) && key in s.index.cases
    ensures key in Next(s, a).index.cases
  {
    hide Inv, StepCommit, Works, Accepts;
    if a.Commit? {
      var u := a.task;
      if u !in s.tasks {
        NobodyMoves(s, u);
      } else if s.tasks[u].pc.Admitting? || s.tasks[u].pc.Aborting? {
        EndsKeep(s, u, key);
      } else if s.tasks[u].pc.Accepting? {
        AcceptShape(s, u);
        if k, d, step :| Accepts(s, StepCommit(s, u), u, k, d, step) {
          ArrivedKeeps(s, StepCommit(s, u), u, k, d, step, key);
        }
      } else if Driving(s.tasks[u].pc) {
        DriverOwns(s, u);
        DriverWorks(s, u);
        WorksKeep(s, StepCommit(s, u), u, key);
      } else {
        NobodyMoves(s, u);
      }
    } else {
      hide Next;
      QuietIndex(s, a);
    }
  }

  lemma EndsKeep(s: System, u: Nonce, key: CaseKey)
    requires u in s.tasks && (s.tasks[u].pc.Admitting? || s.tasks[u].pc.Aborting?) && key in s.index.cases
    ensures key in StepCommit(s, u).index.cases
  {
    hide NewCase, AbortEdit, WithEvent;
  }

  lemma ArrivedKeeps(s: System, r: System, u: Nonce, k: CaseKey, d: Case, step: Step, key: CaseKey)
    requires Accepts(s, r, u, k, d, step) && key in s.index.cases
    ensures key in r.index.cases
  {
    hide Taken;
  }

  lemma WorksKeep(s: System, r: System, u: Nonce, key: CaseKey)
    requires Works(s, r, u) && key in s.index.cases
    ensures key in r.index.cases
  {
    hide Fit;
  }

  lemma NextCame(s: System, before: seq<Action>, a: Action, t: Nonce)
    requires Inv(s) && t in Next(s, a).tasks && forall u <- s.tasks :: Came(before, s.tasks[u])
    ensures Came(before + [a], Next(s, a).tasks[t])
  {
    hide StepCommit, Inv, Opaque, Blank, ProvesWrite, Project;
    if a.Commit? {
      CommitCame(s, a.task, t);
    }
  }

  predicate Inbounds(pc: Pc) {
    pc.Routing? || pc.Accepting? || pc.Admitting?
  }

  /** A commit never brings a handler to the arrival of a message or an email. */
  lemma CommitCame(s: System, u: Nonce, t: Nonce)
    requires Inv(s) && t in StepCommit(s, u).tasks
    ensures var task := StepCommit(s, u).tasks[t]; Inbounds(task.pc) ==> t in s.tasks && s.tasks[t] == task
  {
    hide Inv, StepCommit, Works;
    if u !in s.tasks {
      NobodyMoves(s, u);
    } else if s.tasks[u].pc.Admitting? || s.tasks[u].pc.Aborting? {
      EndsCame(s, u, t);
    } else if s.tasks[u].pc.Accepting? {
      hide Taken;
      AcceptShape(s, u);
    } else if Driving(s.tasks[u].pc) {
      DriverOwns(s, u);
      DriverWorks(s, u);
      WorksCame(s, StepCommit(s, u), u, t);
    } else {
      NobodyMoves(s, u);
    }
  }

  lemma EndsCame(s: System, u: Nonce, t: Nonce)
    requires u in s.tasks && (s.tasks[u].pc.Admitting? || s.tasks[u].pc.Aborting?) && t in StepCommit(s, u).tasks
    ensures var task := StepCommit(s, u).tasks[t]; Inbounds(task.pc) ==> t in s.tasks && s.tasks[t] == task
  {
    hide NewCase, AbortEdit, WithEvent;
  }

  lemma WorksCame(s: System, r: System, u: Nonce, t: Nonce)
    requires Works(s, r, u) && t in r.tasks
    ensures Inbounds(r.tasks[t].pc) ==> t in s.tasks && s.tasks[t] == r.tasks[t]
  {
    hide Handles, Follows;
  }

  lemma NextWords(requesters: set<string>, before: seq<Action>, a: Action)
    requires WordsInv(requesters, before)
    ensures WordsInv(requesters, before + [a])
  {
    hide Next, CaseWords, TaskWords, Inv, WellOrdered, Came, Initial, Run;
    var actions := before + [a];
    RunOne(Initial(requesters), before, a);
    var s := Run(Initial(requesters), before);
    var z := Next(s, a);
    ReachedKeeps(requesters, before);
    forall key | key in z.index.cases ensures CaseWords(requesters, actions, key, z.index.cases[key]) {
      NextCaseWords(requesters, before, a, key);
    }
    forall t | t in z.tasks ensures TaskWords(z, t) && Came(actions, z.tasks[t]) {
      NextTaskWords(requesters, before, a, t);
      NextCame(s, before, a, t);
    }
  }

  lemma {:induction false} ReachWords(requesters: set<string>, actions: seq<Action>)
    ensures WordsInv(requesters, actions)
  {
    hide WordsInv;
    if actions == [] {
      NoWords(requesters);
    } else {
      var (before, a) := (actions[..|actions| - 1], actions[|actions| - 1]);
      assert actions == before + [a];
      ReachWords(requesters, before);
      NextWords(requesters, before, a);
    }
  }

  lemma NoWords(requesters: set<string>)
    ensures WordsInv(requesters, [])
  {
  }

  /** In every run, whatever raises a case to a new turn is one accepted message that had come in; queue and history each get
      exactly one entry, and that entry is its text, its time and its activity. */
  lemma NewTurnsAreMessages(requesters: set<string>, actions: seq<Action>, a: Action, key: CaseKey)
    requires key in Run(Initial(requesters), actions).index.cases
    ensures var s := Run(Initial(requesters), actions);
      key in Next(s, a).index.cases &&
      var c, d := s.index.cases[key], Next(s, a).index.cases[key];
      d.generation != c.generation || d.replyHistory != c.replyHistory ==>
        && a.Commit? && a.task in s.tasks && s.tasks[a.task].pc.Accepting?
        && var pc := s.tasks[a.task].pc;
        && HandleReply(pc.msg) in actions
        && var reply := Reply(c.generation + 1, pc.msg.safeText, pc.receivedAt, Some(KeyOf(pc.msg)));
        && d.generation == c.generation + 1 && d.replyHistory == c.replyHistory + [reply]
        && d.pendingReplies == c.pendingReplies + [reply]
  {
    hide Run, Initial, Next, Inv, WellOrdered, CaseWords, TaskWords;
    var s := Run(Initial(requesters), actions);
    ReachedKeeps(requesters, actions);
    ReachWords(requesters, actions);
    CasesStay(s, a, key);
    NextCase(s, a, key);
    var c, d := s.index.cases[key], Next(s, a).index.cases[key];
    if Said(s, a, key, c, d) {
      assert Came(actions, s.tasks[a.task]);
    }
  }

  /** In every run, entry `i` of a case's history is what some accepted message said, and it raised the case to turn `i + 1`. */
  lemma EveryReplyWasSaid(requesters: set<string>, actions: seq<Action>, key: CaseKey, i: nat)
    requires var s := Run(Initial(requesters), actions); key in s.index.cases && i < |s.index.cases[key].replyHistory|
    ensures var r := Run(Initial(requesters), actions).index.cases[key].replyHistory[i];
      r.generation == i + 1 && exists n, m :: 0 <= n < |actions| && SaidAt(requesters, actions, n, m, key, r)
  {
    hide Run, Initial, SaidAt;
    ReachWords(requesters, actions);
    assert CaseWords(requesters, actions, key, Run(Initial(requesters), actions).index.cases[key]);
  }

  /** A message said this reply and did not have to be shortened. */
  ghost predicate SaidWhole(requesters: set<string>, actions: seq<Action>, key: CaseKey, r: Reply) {
    exists n, m :: 0 <= n < |actions| && SaidAt(requesters, actions, n, m, key, r) && m.safeText == m.text
  }

  /** In every run, the input of a case counts as complete only if its email came in complete and every message in its history
      was taken over whole, and as incomplete only if its email came in incomplete or some message was shortened. */
  lemma CompleteMeansWhole(requesters: set<string>, actions: seq<Action>, key: CaseKey)
    requires key in Run(Initial(requesters), actions).index.cases
    ensures var c := Run(Initial(requesters), actions).index.cases[key];
      if c.inputComplete then
        && ReceiveEmail(key.messageId, c.conversationId, c.requesterId, true) in actions
        && forall r <- c.replyHistory :: SaidWhole(requesters, actions, key, r)
      else
        || ReceiveEmail(key.messageId, c.conversationId, c.requesterId, false) in actions
        || exists n, m :: 0 <= n < |actions| && AcceptedAt(requesters, actions, n, m, key) && m.safeText != m.text
  {
    hide Run, Initial, SaidAt, AcceptedAt;
    ReachWords(requesters, actions);
    var c := Run(Initial(requesters), actions).index.cases[key];
    assert CaseWords(requesters, actions, key, c);
    forall r | c.inputComplete && r in c.replyHistory ensures SaidWhole(requesters, actions, key, r) {
      var i :| 0 <= i < |c.replyHistory| && c.replyHistory[i] == r;
      assert Word(requesters, actions, key, c.replyHistory[i], true);
    }
  }

  /** In every run, whoever starts or checks a turn works on the very reply that was accepted for it, and on no words at all
      in the first turn; the same reply stands as the latest one unless it is empty. While no further message came in, the
      check is told whether the input is complete. */
  lemma WorkIsTheReply(requesters: set<string>, actions: seq<Action>, t: Nonce)
    ensures var s := Run(Initial(requesters), actions);
      t in s.tasks && (s.tasks[t].pc.Starting? || s.tasks[t].pc.Checking?) ==>
        && s.tasks[t].key in s.index.cases
        && var c, g := s.index.cases[s.tasks[t].key], s.tasks[t].pc.turn;
        && c.work.Some? && c.work.value.generation == g && g <= |c.replyHistory|
        && c.latestReply == (if c.work.value.text != "" then c.work else None)
        && (g == 0 ==> c.work.value.text == "")
        && (g > 0 ==> exists n, m :: 0 <= n < |actions| && SaidAt(requesters, actions, n, m, s.tasks[t].key, c.work.value))
        && (Live(c, g) ==> s.tasks[t].pc.inputComplete == c.inputComplete)
  {
    hide Run, Initial, SaidAt, Inv, WellOrdered;
    ReachWords(requesters, actions);
    ReachedKeeps(requesters, actions);
    var s := Run(Initial(requesters), actions);
    if t in s.tasks && (s.tasks[t].pc.Starting? || s.tasks[t].pc.Checking?) {
      assert TaskWords(s, t);
      var key := s.tasks[t].key;
      assert CaseWords(requesters, actions, key, s.index.cases[key]);
      HistoryLength(s, key);
      TurnReached(s, t);
    }
  }

  lemma TurnReached(s: System, t: Nonce)
    requires Inv(s) && t in s.tasks && (s.tasks[t].pc.Starting? || s.tasks[t].pc.Checking?)
    ensures s.tasks[t].key in s.index.cases && s.tasks[t].pc.turn <= s.index.cases[s.tasks[t].key].generation
  {
    hide Inv, CaseInv, Quiet;
    DriverOwns(s, t);
    OwnFacts(s, t);
  }
}
