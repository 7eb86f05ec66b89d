/** From what the backend found to what a case is closed on. */
module ComplianceFindings {
  import opened Options
  import opened ComplianceRecord
  import opened ComplianceIndex
  import opened ComplianceProtocol
  import opened ComplianceInvariant
  import opened ComplianceSteps
  import opened ComplianceTurns
  import opened ComplianceRuns
  import opened ComplianceWorks
  import opened ComplianceTheorems

  // ---------------------------------------------------------------- one projection

  /** The findings as they came allow the case to be closed: they say so themselves, nothing is missing or was cut, and no
      question or objection is open. */
  predicate Closable(raw: Findings, inputComplete: bool) {
    && raw.resolutionReady && !raw.shortened && inputComplete && raw.evidence != [] && !Blank(raw.answer)
    && raw.questions == [] && raw.blockers == []
  }

  /** Answer, evidence and questions are filed as found, objections are only added to, and the result counts as ready exactly
      if the findings allow it. */
  predicate Files(raw: Findings, inputComplete: bool, filed: Investigation) {
    && filed.answer == raw.answer && filed.evidence == raw.evidence && filed.questions == raw.questions
    && raw.blockers <= filed.blockers
    && (filed.blockers == [] <==>
        raw.blockers == [] && !raw.shortened && inputComplete && raw.evidence != [] && !Blank(raw.answer))
    && (filed.resolutionReady <==> Closable(raw, inputComplete))
  }

  lemma ProjectionFiles(raw: Findings, g: nat, inputComplete: bool)
    ensures var filed := Project(raw, g, inputComplete); filed.generation == g && Files(raw, inputComplete, filed)
  {
    hide Blank;
  }

  // ---------------------------------------------------------------- every run

  /** In step `n` of the run the backend returned the findings that were filed so, for this case and turn. */
  ghost predicate FoundAt(requesters: set<string>, actions: seq<Action>, n: nat, key: CaseKey, filed: Investigation)
    requires n < |actions|
  {
    var s, a := Run(Initial(requesters), actions[..n]), actions[n];
    && a.Investigate? && a.found.Some? && a.task in s.tasks && s.tasks[a.task].key == key
    && s.tasks[a.task].pc.Checking? && s.tasks[a.task].pc.turn == filed.generation
    && Files(a.found.value, s.tasks[a.task].pc.inputComplete, filed)
  }

  ghost predicate Sourced(requesters: set<string>, actions: seq<Action>, key: CaseKey, filed: Option<Investigation>) {
    filed.Some? ==> exists n :: 0 <= n < |actions| && FoundAt(requesters, actions, n, key, filed.value)
  }

  lemma SourcedLonger(requesters: set<string>, before: seq<Action>, a: Action, key: CaseKey, filed: Option<Investigation>)
    requires Sourced(requesters, before, key, filed)
    ensures Sourced(requesters, before + [a], key, filed)
  {
    hide Run, Initial, Files;
    if filed.Some? {
      var n :| 0 <= n < |before| && FoundAt(requesters, before, n, key, filed.value);
      assert (before + [a])[..n] == before[..n];
      assert FoundAt(requesters, before + [a], n, key, filed.value);
    }
  }

  ghost predicate CallSourced(requesters: set<string>, actions: seq<Action>, e: Call) {
    e.WriteCall? ==> Sourced(requesters, actions, e.key, e.claimed.investigation)
  }

  ghost predicate TaskSourced(requesters: set<string>, actions: seq<Action>, task: Task) {
    && (task.pc.Recording? ==> Sourced(requesters, actions, task.key, Some(task.pc.found)))
    && (task.pc.Invoking? ==> Sourced(requesters, actions, task.key, task.pc.claimed.investigation))
  }

  ghost predicate SourcesInv(requesters: set<string>, actions: seq<Action>) {
    var s := Run(Initial(requesters), actions);
    && (forall key <- s.index.cases :: Sourced(requesters, actions, key, s.index.cases[key].investigation))
    && (forall t <- s.tasks :: TaskSourced(requesters, actions, s.tasks[t]))
    && (forall i :: 0 <= i < |s.calls| ==> CallSourced(requesters, actions, s.calls[i]))
  }

  lemma NextCaseSourced(requesters: set<string>, before: seq<Action>, a: Action, key: CaseKey)
    requires SourcesInv(requesters, before) && key in Next(Run(Initial(requesters), before), a).index.cases
    ensures Sourced(requesters, before + [a], key, Next(Run(Initial(requesters), before), a).index.cases[key].investigation)
  {
    hide Run, Initial, Next, Sourced, Inv, WellOrdered, SameWords, TakesWork, CallSourced;
    var s := Run(Initial(requesters), before);
    ReachedKeeps(requesters, before);
    NextCase(s, a, key);
    NothingSourced(requesters, before, key);
    var d := Next(s, a).index.cases[key];
    if key in s.index.cases && Drove(s, a, key, s.index.cases[key], d) {
      assert TaskSourced(requesters, before, s.tasks[a.task]);
    }
    SourcedLonger(requesters, before, a, key, d.investigation);
  }

  lemma NothingSourced(requesters: set<string>, actions: seq<Action>, key: CaseKey)
    ensures Sourced(requesters, actions, key, None)
  {
  }

  lemma NextTaskSourced(requesters: set<string>, before: seq<Action>, a: Action, t: Nonce)
    requires SourcesInv(requesters, before) && t in Next(Run(Initial(requesters), before), a).tasks
    ensures TaskSourced(requesters, before + [a], Next(Run(Initial(requesters), before), a).tasks[t])
  {
    hide Run, Initial, Next, Sourced, Inv, WellOrdered, CallSourced, Project;
    var s := Run(Initial(requesters), before);
    ReachedKeeps(requesters, before);
    NextTask(s, a, t);
    var z := Next(s, a);
    var task := z.tasks[t];
    if Returns(s, z, a, t) {
      ReturnedIsSourced(requesters, before, a, t);
    } else if task.pc.Invoking? {
      if Advances(s, z, a, t) && !(t in s.tasks && s.tasks[t] == task) {
        NextCaseSourced(requesters, before, a, task.key);
      } else {
        assert TaskSourced(requesters, before, s.tasks[t]);
        SourcedLonger(requesters, before, a, task.key, task.pc.claimed.investigation);
      }
    } else if task.pc.Recording? {
      assert TaskSourced(requesters, before, s.tasks[t]);
      SourcedLonger(requesters, before, a, task.key, Some(task.pc.found));
    }
  }

  lemma ReturnedIsSourced(requesters: set<string>, before: seq<Action>, a: Action, t: Nonce)
    requires var s := Run(Initial(requesters), before); Returns(s, Next(s, a), a, t)
    ensures var z := Next(Run(Initial(requesters), before), a);
      z.tasks[t].pc.Recording? && Sourced(requesters, before + [a], z.tasks[t].key, Some(z.tasks[t].pc.found))
  {
    hide Run, Initial, Next, Files, Project;
    var s := Run(Initial(requesters), before);
    var pc := s.tasks[t].pc;
    ProjectionFiles(a.found.value, pc.turn, pc.inputComplete);
    var all := before + [a];
    assert all[..|before|] == before && all[|before|] == a;
    assert FoundAt(requesters, all, |before|, s.tasks[t].key, Project(a.found.value, pc.turn, pc.inputComplete));
  }

  /** A call goes out from a claim, or is the email of a closure. */
  lemma NextCalls(s: System, a: Action)
    requires Inv(s) && WellOrdered(s.index)
    ensures var z := Next(s, a);
      || z.calls == s.calls
      || (&& a.Email? && a.task in s.tasks && s.tasks[a.task].pc.Emailing? && |z.calls| == |s.calls| + 1
          && z.calls[..|s.calls|] == s.calls && z.calls[|s.calls|] == EmailCall(s.tasks[a.task].key, s.tasks[a.task].pc.snapshot))
      || (&& a.Invoke? && a.task in s.tasks && s.tasks[a.task].pc.Invoking? && |z.calls| == |s.calls| + 1
          && z.calls[..|s.calls|] == s.calls && z.calls[|s.calls|].WriteCall? && z.calls[|s.calls|].key == s.tasks[a.task].key
          && z.calls[|s.calls|].claimed == s.tasks[a.task].pc.claimed)
  {
    hide Inv, WellOrdered, StepCommit, Opaque, Blank, ProvesWrite, Project;
    if a.Commit? {
      CommitCalls(s, a.task);
    }
  }

  lemma CommitCalls(s: System, u: Nonce)
    requires WellOrdered(s.index)
    ensures StepCommit(s, u).calls == s.calls
  {
    hide WellOrdered, StepCommit;
    if u !in s.tasks {
      NobodyMoves(s, u);
    } else if s.tasks[u].pc.Claiming? && s.tasks[u].pc.name == Close {
      ClaimCalls(s, u);
    } else {
      CalmCommit(s, u);
    }
  }

  lemma ClaimCalls(s: System, u: Nonce)
    requires u in s.tasks && s.tasks[u].pc.Claiming?
    ensures StepCommit(s, u).calls == s.calls
  {
    hide ClaimEdit;
  }

  lemma NextCallsSourced(requesters: set<string>, before: seq<Action>, a: Action)
    requires SourcesInv(requesters, before)
    ensures var z := Next(Run(Initial(requesters), before), a);
      forall i :: 0 <= i < |z.calls| ==> CallSourced(requesters, before + [a], z.calls[i])
  {
    hide Run, Initial, Next, Sourced, Inv, WellOrdered;
    var s := Run(Initial(requesters), before);
    ReachedKeeps(requesters, before);
    NextCalls(s, a);
    var z := Next(s, a);
    forall i | 0 <= i < |z.calls| && z.calls[i].WriteCall?
      ensures Sourced(requesters, before + [a], z.calls[i].key, z.calls[i].claimed.investigation)
    {
      if i < |s.calls| {
        assert z.calls[i] == s.calls[i] && CallSourced(requesters, before, s.calls[i]);
      } else {
        assert TaskSourced(requesters, before, s.tasks[a.task]);
      }
      SourcedLonger(requesters, before, a, z.calls[i].key, z.calls[i].claimed.investigation);
    }
  }

  lemma NextSources(requesters: set<string>, before: seq<Action>, a: Action)
    requires SourcesInv(requesters, before)
    ensures SourcesInv(requesters, before + [a])
  {
    hide Next, Sourced, TaskSourced, CallSourced, Initial, Run;
    var actions := before + [a];
    RunOne(Initial(requesters), before, a);
    var z := Next(Run(Initial(requesters), before), a);
    forall key | key in z.index.cases ensures Sourced(requesters, actions, key, z.index.cases[key].investigation) {
      NextCaseSourced(requesters, before, a, key);
    }
    forall t | t in z.tasks ensures TaskSourced(requesters, actions, z.tasks[t]) {
      NextTaskSourced(requesters, before, a, t);
    }
    NextCallsSourced(requesters, before, a);
  }

  lemma {:induction false} ReachSources(requesters: set<string>, actions: seq<Action>)
    ensures SourcesInv(requesters, actions)
  {
    hide SourcesInv;
    if actions == [] {
      NoSources(requesters);
    } else {
      var (before, a) := (actions[..|actions| - 1], actions[|actions| - 1]);
      assert actions == before + [a];
      ReachSources(requesters, before);
      NextSources(requesters, before, a);
    }
  }

  lemma NoSources(requesters: set<string>)
    ensures SourcesInv(requesters, [])
  {
  }

  /** In every run, each close that is sent goes back to findings the backend returned for that very turn of the case, and
      those findings allow it: ready by their own word, complete, with an answer and with evidence that names its version,
      nothing open. */
  lemma ClosedOnFindings(requesters: set<string>, actions: seq<Action>, i: nat)
    ensures var s := Run(Initial(requesters), actions);
      i < |s.calls| && s.calls[i].WriteCall? && s.calls[i].name == Close ==>
        && s.calls[i].context.Closure? && s.calls[i].claimed.investigation.Some?
        && exists n :: 0 <= n < |actions| && var x := Run(Initial(requesters), actions[..n]);
             && FoundAt(requesters, actions, n, s.calls[i].key, s.calls[i].claimed.investigation.value)
             && x.tasks[actions[n].task].pc.turn == s.calls[i].context.turn
             && Closable(actions[n].found.value, x.tasks[actions[n].task].pc.inputComplete)
             && forall e <- actions[n].found.value.evidence :: e.id != "" && e.version != ""
  {
    hide Run, Initial, Closable, AnswerSent;
    ReachSources(requesters, actions);
    ClosedOnlyOnConfirmation(requesters, actions, i);
    var s := Run(Initial(requesters), actions);
    if i < |s.calls| && s.calls[i].WriteCall? && s.calls[i].name == Close {
      assert CallSourced(requesters, actions, s.calls[i]);
      var filed := s.calls[i].claimed.investigation.value;
      var n :| 0 <= n < |actions| && FoundAt(requesters, actions, n, s.calls[i].key, filed);
      assert Closable(actions[n].found.value, Run(Initial(requesters), actions[..n]).tasks[actions[n].task].pc.inputComplete);
    }
  }

  /** In every run, an answer that was not overtaken is offered for confirmation exactly if the findings returned for its turn
      allow a closure; else it waits for the requester if they left questions open, and for a specialist if they did not. */
  lemma OfferedIffFindingsAllow(requesters: set<string>, actions: seq<Action>, t: Nonce)
    ensures var s := Run(Initial(requesters), actions);
      t in s.tasks && s.tasks[t].pc.Delivering? && Owns(s, t) && Live(Own(s, t), s.tasks[t].pc.turn) ==>
        && s.tasks[t].key in StepCommit(s, t).index.cases
        && exists n :: 0 <= n < |actions| && var x := Run(Initial(requesters), actions[..n]);
             && FoundAt(requesters, actions, n, s.tasks[t].key, s.tasks[t].pc.found)
             && var raw, d := actions[n].found.value, StepCommit(s, t).index.cases[s.tasks[t].key];
             && (d.resolution.Some? <==> Closable(raw, x.tasks[actions[n].task].pc.inputComplete))
             && d.status == (if d.resolution.Some? then AwaitingConfirmation
                             else if raw.questions != [] then WaitingForRequester else NeedsSpecialistReview)
  {
    hide Run, Initial, Closable, Inv, WellOrdered, StepCommit, CaseInv, Quiet;
    ReachSources(requesters, actions);
    ReachedKeeps(requesters, actions);
    var s := Run(Initial(requesters), actions);
    if t in s.tasks && s.tasks[t].pc.Delivering? && Owns(s, t) && Live(Own(s, t), s.tasks[t].pc.turn) {
      DeliveryOutcome(s, t);
      var (key, filed) := (s.tasks[t].key, s.tasks[t].pc.found);
      assert Sourced(requesters, actions, key, s.index.cases[key].investigation);
      var n :| 0 <= n < |actions| && FoundAt(requesters, actions, n, key, filed);
      assert Files(actions[n].found.value, Run(Initial(requesters), actions[..n]).tasks[actions[n].task].pc.inputComplete, filed);
    }
  }

  lemma DeliveryOutcome(s: System, t: Nonce)
    requires Inv(s) && t in s.tasks && s.tasks[t].pc.Delivering? && Owns(s, t) && Live(Own(s, t), s.tasks[t].pc.turn)
    ensures var (key, found) := (s.tasks[t].key, s.tasks[t].pc.found);
      && s.index.cases[key].investigation == Some(found) && key in StepCommit(s, t).index.cases
      && var d := StepCommit(s, t).index.cases[key];
      && (d.resolution.Some? <==> found.resolutionReady)
      && d.status == (if found.resolutionReady then AwaitingConfirmation
                      else if found.questions != [] then WaitingForRequester else NeedsSpecialistReview)
  {
    hide Inv, CaseInv, Quiet;
    OwnFacts(s, t);
  }

  /** The findings on file are the last of those kept, of which there are at most four. */
  ghost predicate Kept(c: Case) {
    && |c.investigationHistory| <= 4
    && (c.investigation.Some? ==>
          c.investigationHistory != []
          && c.investigationHistory[|c.investigationHistory| - 1] == c.investigation.value)
  }

  lemma NextKept(s: System, a: Action, key: CaseKey)
    requires Inv(s) && key in Next(s, a).index.cases && (key in s.index.cases ==> Kept(s.index.cases[key]))
    ensures Kept(Next(s, a).index.cases[key])
  {
    hide Inv, Next, SameWords, TakesWork, Queues, Confirms;
    NextCase(s, a, key);
  }

  /** In every run, a case keeps the findings of its last turns, at most four, and those it goes by are the latest. */
  lemma {:induction false} FindingsAreKept(requesters: set<string>, actions: seq<Action>, key: CaseKey)
    requires key in Run(Initial(requesters), actions).index.cases
    ensures Kept(Run(Initial(requesters), actions).index.cases[key])
  {
    hide Next, Kept, Inv, WellOrdered;
    if actions != [] {
      var before := actions[..|actions| - 1];
      ReachedKeeps(requesters, before);
      if key in Run(Initial(requesters), before).index.cases { FindingsAreKept(requesters, before, key); }
      NextKept(Run(Initial(requesters), before), actions[|actions| - 1], key);
    }
  }

  /** Findings that come back for a turn in service are filed as they were projected, behind the last three before them. */
  lemma FindingsAreFiled(s: System, t: Nonce)
    requires Owns(s, t) && s.tasks[t].pc.Recording? && Live(Own(s, t), s.tasks[t].pc.turn)
    ensures var (key, found) := (s.tasks[t].key, s.tasks[t].pc.found);
      && key in StepCommit(s, t).index.cases
      && var (c, d) := (Own(s, t), StepCommit(s, t).index.cases[key]);
      && var n := |d.investigationHistory|;
      && d.investigation == Some(found) && n == (if |c.investigationHistory| < 4 then |c.investigationHistory| + 1 else 4)
      && d.investigationHistory[n - 1] == found
      && d.investigationHistory[..n - 1] == c.investigationHistory[|c.investigationHistory| + 1 - n..]
  {
    hide WithEvent, AfterFindings;
    var c := Own(s, t);
    var d := InvestigatedEdit(c, s.tasks[t].pc.turn, s.tasks[t].pc.found).record;
    EventOnly(d, "case_investigated", s.now);
    var all := c.investigationHistory + [s.tasks[t].pc.found];
    assert all[|c.investigationHistory|] == s.tasks[t].pc.found;
  }
}
