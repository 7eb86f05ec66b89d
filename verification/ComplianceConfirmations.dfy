/** Who asked for a closure, and how. */
module ComplianceConfirmations {
  import opened Options
  import opened ComplianceRecord
  import opened ComplianceIndex
  import opened ComplianceProtocol
  import opened ComplianceInvariant
  import opened ComplianceRuns
  import opened ComplianceWorks
  import opened ComplianceWords
  import opened ComplianceTheorems
  import opened ComplianceFindings

  /** In step `n` of the run message `m` was accepted for the case while its answer stood, and confirmed it: by the command, or
      as it was understood for this very case; the confirmation is its text, its time and its activity. */
  ghost predicate ConfirmedAt(requesters: set<string>, actions: seq<Action>, n: nat, m: Inbound, key: CaseKey, x: Confirmation)
    requires n < |actions|
  {
    && AcceptedAt(requesters, actions, n, m, key)
    && var s := Run(Initial(requesters), actions[..n]);
    && var (c, pc) := (s.index.cases[key], s.tasks[actions[n].task].pc);
    && var read := if pc.intentKey == Some(key) then pc.intent else Information;
    && (m.resolve || read == ConfirmWithEmail || read == ConfirmWithoutEmail) && c.resolution.Some?
    && x == Confirmation(m.text, pc.receivedAt, KeyOf(m), c.generation, c.resolution.value.messageId, read == ConfirmWithEmail)
  }

  ghost predicate Asked(requesters: set<string>, actions: seq<Action>, key: CaseKey, x: Option<Confirmation>) {
    x.Some? ==> exists n, m :: 0 <= n < |actions| && ConfirmedAt(requesters, actions, n, m, key, x.value)
  }

  lemma AskedLonger(requesters: set<string>, before: seq<Action>, a: Action, key: CaseKey, x: Option<Confirmation>)
    requires Asked(requesters, before, key, x)
    ensures Asked(requesters, before + [a], key, x)
  {
    hide Run, Initial, Next;
    if x.Some? {
      var n, m :| 0 <= n < |before| && ConfirmedAt(requesters, before, n, m, key, x.value);
      assert (before + [a])[..n] == before[..n];
      assert ConfirmedAt(requesters, before + [a], n, m, key, x.value);
    }
  }

  ghost predicate TaskAsked(requesters: set<string>, actions: seq<Action>, task: Task) {
    && (task.pc.Invoking? ==> Asked(requesters, actions, task.key, task.pc.claimed.confirmation))
    && (task.pc.Emailing? ==> EmailAsked(requesters, actions, task.key, task.pc.snapshot))
  }

  /** The confirmation asked for an email. */
  ghost predicate EmailAsked(requesters: set<string>, actions: seq<Action>, key: CaseKey, c: Case) {
    Asked(requesters, actions, key, c.confirmation) && c.confirmation.Some? && c.confirmation.value.email
  }

  ghost predicate CallAsked(requesters: set<string>, actions: seq<Action>, e: Call) {
    if e.WriteCall? then Asked(requesters, actions, e.key, e.claimed.confirmation)
    else EmailAsked(requesters, actions, e.key, e.snapshot)
  }

  ghost predicate AskedInv(requesters: set<string>, actions: seq<Action>) {
    var s := Run(Initial(requesters), actions);
    && (forall key <- s.index.cases :: Asked(requesters, actions, key, s.index.cases[key].confirmation))
    && (forall t <- s.tasks :: TaskAsked(requesters, actions, s.tasks[t]))
    && (forall i :: 0 <= i < |s.calls| ==> CallAsked(requesters, actions, s.calls[i]))
  }

  lemma NothingAsked(requesters: set<string>, actions: seq<Action>, key: CaseKey)
    ensures Asked(requesters, actions, key, None)
  {
  }

  lemma NextCaseAsked(requesters: set<string>, before: seq<Action>, a: Action, key: CaseKey)
    requires AskedInv(requesters, before) && WordsInv(requesters, before)
    requires key in Next(Run(Initial(requesters), before), a).index.cases
    ensures Asked(requesters, before + [a], key, Next(Run(Initial(requesters), before), a).index.cases[key].confirmation)
  {
    hide Run, Initial, Next, Asked, Inv, WellOrdered, SameWords, TakesWork, TaskAsked, CallAsked, Queues, Confirms, CaseWords,
         TaskWords;
    var s := Run(Initial(requesters), before);
    ReachedKeeps(requesters, before);
    NextCase(s, a, key);
    NothingAsked(requesters, before, key);
    var d := Next(s, a).index.cases[key];
    if key in s.index.cases && Said(s, a, key, s.index.cases[key], d) && d.confirmation != s.index.cases[key].confirmation {
      NowAsked(requesters, before, a, key, s.index.cases[key], d);
    } else {
      AskedLonger(requesters, before, a, key, d.confirmation);
    }
  }

  lemma NowAsked(requesters: set<string>, before: seq<Action>, a: Action, key: CaseKey, c: Case, d: Case)
    requires WordsInv(requesters, before) && Hearing(requesters, before, a, key, c, d) && d.confirmation != c.confirmation
    ensures Asked(requesters, before + [a], key, d.confirmation)
  {
    hide Run, Initial, Next, CaseWords, TaskWords, Queues;
    var s := Run(Initial(requesters), before);
    assert Came(before, s.tasks[a.task]);
    var all := before + [a];
    assert all[..|before|] == before && all[|before|] == a;
    assert ConfirmedAt(requesters, all, |before|, s.tasks[a.task].pc.msg, key, d.confirmation.value);
  }

  lemma NextTaskAsked(requesters: set<string>, before: seq<Action>, a: Action, t: Nonce)
    requires AskedInv(requesters, before) && WordsInv(requesters, before)
    requires t in Next(Run(Initial(requesters), before), a).tasks
    ensures TaskAsked(requesters, before + [a], Next(Run(Initial(requesters), before), a).tasks[t])
  {
    hide Run, Initial, Next, Asked, Inv, WellOrdered, CallAsked, Project, WordsInv;
    var s := Run(Initial(requesters), before);
    ReachedKeeps(requesters, before);
    NextTask(s, a, t);
    var z := Next(s, a);
    var task := z.tasks[t];
    if t in s.tasks && s.tasks[t] == task {
      assert TaskAsked(requesters, before, s.tasks[t]);
      if task.pc.Invoking? { AskedLonger(requesters, before, a, task.key, task.pc.claimed.confirmation); }
      if task.pc.Emailing? { AskedLonger(requesters, before, a, task.key, task.pc.snapshot.confirmation); }
    } else if Advances(s, z, a, t) {
      NextCaseAsked(requesters, before, a, task.key);
    }
  }

  lemma NextCallsAsked(requesters: set<string>, before: seq<Action>, a: Action)
    requires AskedInv(requesters, before)
    ensures var z := Next(Run(Initial(requesters), before), a);
      forall i :: 0 <= i < |z.calls| ==> CallAsked(requesters, before + [a], z.calls[i])
  {
    hide Run, Initial, Next, Asked, Inv, WellOrdered;
    var s := Run(Initial(requesters), before);
    ReachedKeeps(requesters, before);
    NextCalls(s, a);
    var z := Next(s, a);
    forall i | 0 <= i < |z.calls| ensures CallAsked(requesters, before + [a], z.calls[i]) {
      if i < |s.calls| {
        assert z.calls[i] == s.calls[i] && CallAsked(requesters, before, s.calls[i]);
      } else {
        assert TaskAsked(requesters, before, s.tasks[a.task]);
      }
      AskedLonger(requesters, before, a, z.calls[i].key,
                  if z.calls[i].WriteCall? then z.calls[i].claimed.confirmation else z.calls[i].snapshot.confirmation);
    }
  }

  lemma NextAsked(requesters: set<string>, before: seq<Action>, a: Action)
    requires AskedInv(requesters, before) && WordsInv(requesters, before)
    ensures AskedInv(requesters, before + [a])
  {
    hide Next, Asked, TaskAsked, CallAsked, Initial, Run, WordsInv;
    var actions := before + [a];
    RunOne(Initial(requesters), before, a);
    var z := Next(Run(Initial(requesters), before), a);
    forall key | key in z.index.cases ensures Asked(requesters, actions, key, z.index.cases[key].confirmation) {
      NextCaseAsked(requesters, before, a, key);
    }
    forall t | t in z.tasks ensures TaskAsked(requesters, actions, z.tasks[t]) {
      NextTaskAsked(requesters, before, a, t);
    }
    NextCallsAsked(requesters, before, a);
  }

  lemma {:induction false} ReachAsked(requesters: set<string>, actions: seq<Action>)
    ensures AskedInv(requesters, actions)
  {
    hide AskedInv, WordsInv;
    if actions == [] {
      NobodyAsked(requesters);
    } else {
      var (before, a) := (actions[..|actions| - 1], actions[|actions| - 1]);
      assert actions == before + [a];
      ReachAsked(requesters, before);
      ReachWords(requesters, before);
      NextAsked(requesters, before, a);
    }
  }

  lemma NobodyAsked(requesters: set<string>)
    ensures AskedInv(requesters, [])
  {
  }

  /** In every run, each close that is sent goes back to a message that had come in and was accepted for this very case as a
      confirmation of the answer then standing. */
  lemma ClosedOnRequest(requesters: set<string>, actions: seq<Action>, i: nat)
    ensures var s := Run(Initial(requesters), actions);
      i < |s.calls| && s.calls[i].WriteCall? && s.calls[i].name == Close ==>
        && s.calls[i].context.Closure? && s.calls[i].claimed.confirmation.Some?
        && s.calls[i].claimed.confirmation.value.generation == s.calls[i].context.turn
        && exists n, m :: 0 <= n < |actions|
             && ConfirmedAt(requesters, actions, n, m, s.calls[i].key, s.calls[i].claimed.confirmation.value)
  {
    hide Run, Initial, ConfirmedAt, AnswerSent;
    ReachAsked(requesters, actions);
    ClosedOnlyOnConfirmation(requesters, actions, i);
    var s := Run(Initial(requesters), actions);
    if i < |s.calls| && s.calls[i].WriteCall? && s.calls[i].name == Close {
      assert CallAsked(requesters, actions, s.calls[i]);
    }
  }

  /** In every run, a confirmation email goes out only for a case whose requester confirmed and was read as wanting one. */
  lemma EmailedOnlyIfAsked(requesters: set<string>, actions: seq<Action>, i: nat)
    ensures var s := Run(Initial(requesters), actions);
      i < |s.calls| && s.calls[i].EmailCall? ==>
        && s.calls[i].snapshot.confirmation.Some? && s.calls[i].snapshot.confirmation.value.email
        && exists n, m :: 0 <= n < |actions|
             && ConfirmedAt(requesters, actions, n, m, s.calls[i].key, s.calls[i].snapshot.confirmation.value)
  {
    hide Run, Initial, ConfirmedAt;
    ReachAsked(requesters, actions);
    var s := Run(Initial(requesters), actions);
    if i < |s.calls| && s.calls[i].EmailCall? {
      assert CallAsked(requesters, actions, s.calls[i]);
    }
  }
}
