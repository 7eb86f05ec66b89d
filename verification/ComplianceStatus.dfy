/** What the status and the timeline of a record show. */
module ComplianceStatus {
  import opened Options
  import opened ComplianceRecord
  import opened ComplianceIndex
  import opened ComplianceProtocol
  import opened ComplianceInvariant
  import opened ComplianceSteps
  import opened ComplianceTurns
  import opened ComplianceRuns
  import opened ComplianceWorks

  /** The status shown while a write is under way. */
  predicate Shows(name: WriteName, status: Status) {
    && (name == Create ==> status == Creating)
    && (name == Chat ==> status == OpeningPrivateChat)
    && (name.Update? ==> status == UpdatingCase)
    && (name.Delivery? ==> status == DeliveringAnswer)
    && (name == Close ==> status == Closing)
    && (name == ClosedDelivery ==> status == NotifyingClosure)
  }

  lemma ClaimShows(s: System, t: Nonce)
    requires Owns(s, t) && s.tasks[t].pc.Claiming?
    ensures var z := StepCommit(s, t);
      t in z.tasks && z.tasks[t].pc.Invoking? ==>
        && s.tasks[t].key in z.index.cases && z.tasks[t].pc.name == s.tasks[t].pc.name
        && Shows(s.tasks[t].pc.name, z.index.cases[s.tasks[t].key].status)
  {
    hide AllCompleted;
  }

  /** A write under way shows in the status; a turn that is taken shows as being investigated; a check that failed and an
      answer without authority show that a person is needed; a handler that failed shows that the outcome is unknown, and each
      of its open writes is unknown from then on. */
  lemma StatusTells(requesters: set<string>, actions: seq<Action>, t: Nonce)
    ensures var s := Run(Initial(requesters), actions);
      t in s.tasks && Owns(s, t) && (Driving(s.tasks[t].pc) || s.tasks[t].pc.Aborting?) ==>
        var (key, pc, z) := (s.tasks[t].key, s.tasks[t].pc, StepCommit(s, t));
        && key in z.index.cases && t in z.tasks
        && var (c, d, next) := (s.index.cases[key], z.index.cases[key], z.tasks[t].pc);
        && (pc.Claiming? && next.Invoking? ==> Shows(pc.name, d.status))
        && (pc.Taking? && d.work.Some? ==> d.status == Investigating && d.resolution == None)
        && (pc.Taking? && d.work.None? ==> d.status == c.status && d.resolution == c.resolution)
        && (pc.Blocking? ==> d.status == NeedsSpecialistReview && d.resolution == None && d.lastOutcome == ChecksFailed)
        && (pc.Verifying? ==> d.status == VerifyingClose)
        && (pc.Registering? && next.Taking? ==> d.status == Investigating && !d.suspended)
        && (pc.Aborting? ==> Aborted(c, d, t))
  {
    hide Run, Initial, StepCommit;
    var s := Run(Initial(requesters), actions);
    if t in s.tasks && Owns(s, t) && (Driving(s.tasks[t].pc) || s.tasks[t].pc.Aborting?) {
      Stays(s, t);
      var pc := s.tasks[t].pc;
      if pc.Claiming? {
        ClaimShows(s, t);
      } else if pc.Taking? || pc.Blocking? || pc.Verifying? {
        TurnShows(s, t);
      } else if pc.Registering? {
        RegisterShows(s, t);
      } else if pc.Aborting? {
        AbortShows(s, t);
      }
    }
  }

  /** The outcome is unknown, nothing more is done by itself, and no authority to close stands. */
  ghost predicate Aborted(c: Case, d: Case, t: Nonce) {
    && d.status == WriteOutcomeUnknown && d.suspended && d.resolution == None && d.lastOutcome == Interrupted
    && d.owner == c.owner && d.writes.Keys == c.writes.Keys
    && forall name <- c.writes ::
         if c.writes[name].status == Claimed && c.writes[name].owner == t
         then d.writes[name].status == Unknown && d.writes[name].nonce == c.writes[name].nonce
         else d.writes[name] == c.writes[name]
  }

  lemma Stays(s: System, t: Nonce)
    requires Owns(s, t) && (Driving(s.tasks[t].pc) || s.tasks[t].pc.Aborting?)
    ensures s.tasks[t].key in StepCommit(s, t).index.cases && t in StepCommit(s, t).tasks
  {
    hide StepCommit, Works;
    if s.tasks[t].pc.Aborting? {
      AbortShows(s, t);
    } else {
      DriverWorks(s, t);
      WorkedStays(s, StepCommit(s, t), t);
    }
  }

  lemma WorkedStays(s: System, r: System, t: Nonce)
    requires Works(s, r, t)
    ensures s.tasks[t].key in r.index.cases && t in r.tasks
  {
    hide Fit;
  }

  lemma TurnShows(s: System, t: Nonce)
    requires Owns(s, t) && (s.tasks[t].pc.Taking? || s.tasks[t].pc.Blocking? || s.tasks[t].pc.Verifying?)
    ensures s.tasks[t].key in StepCommit(s, t).index.cases
    ensures var (c, d, pc) := (Own(s, t), StepCommit(s, t).index.cases[s.tasks[t].key], s.tasks[t].pc);
      && (pc.Taking? && d.work.Some? ==> d.status == Investigating && d.resolution == None)
      && (pc.Taking? && d.work.None? ==> d.status == c.status && d.resolution == c.resolution)
      && (pc.Blocking? ==> d.status == NeedsSpecialistReview && d.resolution == None && d.lastOutcome == ChecksFailed)
      && (pc.Verifying? ==> d.status == VerifyingClose)
  {
  }

  lemma RegisterShows(s: System, t: Nonce)
    requires Owns(s, t) && s.tasks[t].pc.Registering?
    ensures s.tasks[t].key in StepCommit(s, t).index.cases && t in StepCommit(s, t).tasks
    ensures var d := StepCommit(s, t).index.cases[s.tasks[t].key];
      StepCommit(s, t).tasks[t].pc.Taking? ==> d.status == Investigating && !d.suspended
  {
    hide Collides;
  }

  lemma AbortShows(s: System, t: Nonce)
    requires Owns(s, t) && s.tasks[t].pc.Aborting?
    ensures s.tasks[t].key in StepCommit(s, t).index.cases && t in StepCommit(s, t).tasks
    ensures Aborted(Own(s, t), StepCommit(s, t).index.cases[s.tasks[t].key], t)
  {
    hide WithEvent;
    EventOnly(AbortEdit(Own(s, t), t), "case_outcome_unknown", s.now);
  }

  /** Each event is the latest entry of the timeline, numbered in turn and showing the status; the forty-nine before it stay. */
  lemma EventIsLogged(c: Case, kind: string, at: nat)
    requires HistoryInv(c)
    ensures var d := WithEvent(c, kind, at);
      var n := |d.timeline|;
      && d.sequence == c.sequence + 1 && n == (if d.sequence <= 50 then d.sequence else 50)
      && d.timeline[n - 1] == Event(d.sequence, kind, at, c.status)
      && d.timeline[..n - 1] == c.timeline[|c.timeline| + 1 - n..]
      && forall i :: 0 <= i < n ==> d.timeline[i].sequence == d.sequence + 1 - n + i
  {
    var all := c.timeline + [Event(c.sequence + 1, kind, at, c.status)];
    assert all[|c.timeline|] == Event(c.sequence + 1, kind, at, c.status);
  }

  // ---------------------------------------------------------------- closed only as read back

  /** In step `n` of the run the backend said this of the case when its close had been acknowledged. */
  ghost predicate ReadAt(requesters: set<string>, actions: seq<Action>, n: nat, key: CaseKey, status: string)
    requires n < |actions|
  {
    var s := Run(Initial(requesters), actions[..n]);
    && actions[n].ReadStatus? && actions[n].status == status && actions[n].task in s.tasks
    && s.tasks[actions[n].task].pc.ReadingStatus? && s.tasks[actions[n].task].key == key
  }

  ghost predicate WasRead(requesters: set<string>, actions: seq<Action>, key: CaseKey, status: string) {
    exists n :: 0 <= n < |actions| && ReadAt(requesters, actions, n, key, status)
  }

  lemma ReadLonger(requesters: set<string>, before: seq<Action>, a: Action, key: CaseKey, status: string)
    requires WasRead(requesters, before, key, status)
    ensures WasRead(requesters, before + [a], key, status)
  {
    hide Run, Initial;
    var n :| 0 <= n < |before| && ReadAt(requesters, before, n, key, status);
    assert (before + [a])[..n] == before[..n];
    assert ReadAt(requesters, before + [a], n, key, status);
  }

  ghost predicate CaseRead(requesters: set<string>, actions: seq<Action>, key: CaseKey, c: Case) {
    c.closureReadback.Some? ==> WasRead(requesters, actions, key, c.closureReadback.value.status)
  }

  ghost predicate TaskRead(requesters: set<string>, actions: seq<Action>, task: Task) {
    task.pc.SavingStatus? ==> WasRead(requesters, actions, task.key, task.pc.status)
  }

  ghost predicate ReadsInv(requesters: set<string>, actions: seq<Action>) {
    var s := Run(Initial(requesters), actions);
    && (forall key <- s.index.cases :: CaseRead(requesters, actions, key, s.index.cases[key]))
    && (forall t <- s.tasks :: TaskRead(requesters, actions, s.tasks[t]))
  }

  lemma NextCaseRead(requesters: set<string>, before: seq<Action>, a: Action, key: CaseKey)
    requires ReadsInv(requesters, before) && key in Next(Run(Initial(requesters), before), a).index.cases
    ensures CaseRead(requesters, before + [a], key, Next(Run(Initial(requesters), before), a).index.cases[key])
  {
    hide Run, Initial, Next, WasRead, Inv, WellOrdered, SameWords, TakesWork, SameFindings, FilesFindings, Contacts, Queues,
         Confirms;
    var s := Run(Initial(requesters), before);
    ReachedKeeps(requesters, before);
    NextCase(s, a, key);
    var d := Next(s, a).index.cases[key];
    if key in s.index.cases {
      assert CaseRead(requesters, before, key, s.index.cases[key]);
      if Drove(s, a, key, s.index.cases[key], d) { assert TaskRead(requesters, before, s.tasks[a.task]); }
    }
    if d.closureReadback.Some? { ReadLonger(requesters, before, a, key, d.closureReadback.value.status); }
  }

  lemma NextTaskRead(requesters: set<string>, before: seq<Action>, a: Action, t: Nonce)
    requires ReadsInv(requesters, before) && t in Next(Run(Initial(requesters), before), a).tasks
    ensures TaskRead(requesters, before + [a], Next(Run(Initial(requesters), before), a).tasks[t])
  {
    hide Run, Initial, Next, WasRead, Inv, WellOrdered, CaseRead;
    var s := Run(Initial(requesters), before);
    ReachedKeeps(requesters, before);
    NextTask(s, a, t);
    var z := Next(s, a);
    var task := z.tasks[t];
    if task.pc.SavingStatus? {
      if t in s.tasks && s.tasks[t] == task {
        assert TaskRead(requesters, before, s.tasks[t]);
        ReadLonger(requesters, before, a, task.key, task.pc.status);
      } else {
        NowRead(requesters, before, a, t);
      }
    }
  }

  lemma NowRead(requesters: set<string>, before: seq<Action>, a: Action, t: Nonce)
    requires var s := Run(Initial(requesters), before); ReadsBack(s, Next(s, a), a, t)
    ensures WasRead(requesters, before + [a], Run(Initial(requesters), before).tasks[t].key, a.status)
  {
    hide Run, Initial, Next;
    var all := before + [a];
    assert all[..|before|] == before && all[|before|] == a;
    assert ReadAt(requesters, all, |before|, Run(Initial(requesters), before).tasks[t].key, a.status);
  }

  lemma {:induction false} ReachReads(requesters: set<string>, actions: seq<Action>)
    ensures ReadsInv(requesters, actions)
  {
    hide Next, CaseRead, TaskRead;
    if actions != [] {
      var (before, a) := (actions[..|actions| - 1], actions[|actions| - 1]);
      assert actions == before + [a];
      ReachReads(requesters, before);
      NextReads(requesters, before, a);
    }
  }

  lemma NextReads(requesters: set<string>, before: seq<Action>, a: Action)
    requires ReadsInv(requesters, before)
    ensures ReadsInv(requesters, before + [a])
  {
    hide Next, CaseRead, TaskRead, Run, Initial;
    RunOne(Initial(requesters), before, a);
    var z := Next(Run(Initial(requesters), before), a);
    forall key | key in z.index.cases ensures CaseRead(requesters, before + [a], key, z.index.cases[key]) {
      NextCaseRead(requesters, before, a, key);
    }
    forall t | t in z.tasks ensures TaskRead(requesters, before + [a], z.tasks[t]) {
      NextTaskRead(requesters, before, a, t);
    }
  }

  /** In every run, whatever readback a record shows is what the backend said of the case after its close; and a case counts as
      closed at Salesforce only if the backend has said exactly that. */
  lemma ClosedAsReadBack(requesters: set<string>, actions: seq<Action>, key: CaseKey)
    requires key in Run(Initial(requesters), actions).index.cases
    ensures var c := Run(Initial(requesters), actions).index.cases[key];
      && (c.closureReadback.Some? ==>
            exists n :: 0 <= n < |actions| && ReadAt(requesters, actions, n, key, c.closureReadback.value.status))
      && (c.salesforceStatus == "Closed" ==> exists n :: 0 <= n < |actions| && ReadAt(requesters, actions, n, key, "Closed"))
  {
    hide Run, Initial, ReadAt, Inv, WellOrdered, CaseInv;
    ReachReads(requesters, actions);
    ReachedKeeps(requesters, actions);
    var s := Run(Initial(requesters), actions);
    assert CaseRead(requesters, actions, key, s.index.cases[key]);
    InvCases(s);
    CaseFacts(s, key);
    if s.index.cases[key].salesforceStatus == "Closed" { ClosedHasReadback(s.index.cases[key]); }
  }

  lemma ClosedHasReadback(c: Case)
    requires CaseInv(c) && c.salesforceStatus == "Closed"
    ensures c.closureReadback.Some? && c.closureReadback.value.status == "Closed"
  {
    hide QueueInv, HistoryInv, WritesInv, IdleInv, AuthorityInv, IsReference, Opaque;
  }
}
