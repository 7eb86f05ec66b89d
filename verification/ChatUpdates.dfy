/** What the updates of a chat do to its document, and that nothing else ever changes it. */
module ChatUpdates {
  import opened Options
  import opened ReceiptWindow
  import opened ChatTrim
  import opened ChatJobs
  import opened ChatRuns

  // ---------------------------------------------------------------- one update

  /** A record that is broken off: it no longer runs and holds no result, and nobody waits for its announcement; a record that
      had ended keeps its status and its result. */
  predicate BrokenOff(t: Task, r: Task) {
    && r.id == t.id && r.gen == t.gen && r.mine == t.mine
    && (if t.status == Running then r.status == Interrupted && r.result == "" else r.status == t.status && r.result == t.result)
    && r.delivery == (if t.delivery == Pending then Broken else t.delivery)
  }

  /** Exactly the records chosen are broken off, all others stay. */
  ghost predicate Breaks(before: seq<Task>, after: seq<Task>, chosen: Task -> bool) {
    && |after| == |before|
    && forall i :: 0 <= i < |before| ==> if chosen(before[i]) then BrokenOff(before[i], after[i]) else after[i] == before[i]
  }

  /** A removal breaks every record off and closes the chat; an interruption breaks off the named records of this process; a
      recovery breaks off every record that no job of this process stands behind. */
  lemma InterruptionsBreakOff(ids: set<string>, live: bool, gen: nat, d: Doc)
    ensures var r := Apply(Interrupt(ids, true), live, gen, d);
      !r.active && r.removed && Breaks(d.tasks, r.tasks, (t: Task) => true) && r.recent == d.recent && r.summary == d.summary
    ensures var r := Apply(Interrupt(ids, false), live, gen, d);
      Breaks(d.tasks, r.tasks, (t: Task) => t.id in ids && t.mine) && r == d.(tasks := r.tasks)
    ensures var r := Apply(Recover(ids), live, gen, d);
      Breaks(d.tasks, r.tasks, (t: Task) => !t.mine || t.id !in ids) && r == d.(tasks := r.tasks)
  {
  }

  /** A new message stands last, and of the earlier ones the latest fifteen stay; a new summary takes the place of the old one
      and leaves up to sixteen messages alone. */
  lemma MessagesAreKept(text: string, gen: nat, d: Doc)
    requires d.active && |d.recent| <= 16
    ensures var r := Apply(Append(text), true, gen, d);
      r == d.(recent := r.recent) && StandsLast(d.recent, r.recent, Entry(text, gen))
    ensures Apply(Compact(text), true, gen, d) == d.(summary := Entry(text, gen))
  {
    hide LastN;
    RememberedLast(d.recent, Entry(text, gen));
    AllRemembered(d.recent);
  }

  predicate StandsLast(before: seq<Entry>, after: seq<Entry>, e: Entry) {
    && |after| == (if |before| < 16 then |before| + 1 else 16) && after[|after| - 1] == e && |before| + 1 >= |after|
    && after[..|after| - 1] == before[|before| + 1 - |after|..]
  }

  lemma RememberedLast(recent: seq<Entry>, e: Entry)
    requires |recent| <= 16
    ensures StandsLast(recent, Remember(recent, e), e)
  {
    var all := recent + [e];
    assert all[|recent|] == e;
    if |recent| < 16 {
      assert all[..|recent|] == recent;
    } else {
      assert all[1..][..15] == recent[1..];
    }
  }

  lemma AllRemembered(recent: seq<Entry>)
    requires |recent| <= 16
    ensures LastN(recent, MAX_RECENT) == recent
  {
  }

  /** A chat that is not served, or from which the agent was removed, takes no message, no summary, no new record and no
      result; only a welcome opens a chat again after a removal. */
  lemma ClosedChatTakesNothing(c: Change, live: bool, gen: nat, d: Doc)
    requires !live || !d.active
    ensures c.Append? || c.Persist? || c.Compact? || c.Finish? || c.Deliver? ==> Apply(c, live, gen, d) == d
    ensures var r := Apply(c, live, gen, d);
      && (r.active && !d.active ==> live && (c.Rejoin? || (c.Activate? && !d.removed)))
      && (d.removed && !r.removed ==> live && c.Rejoin?)
  {
    hide ValidTask, HasTask, Broke;
  }

  lemma OpensAndCloses(gen: nat, d: Doc)
    ensures Apply(Rejoin, true, gen, d) == d.(active := true, removed := false)
    ensures !d.removed ==> Apply(Activate, true, gen, d) == d.(active := true)
  {
  }

  /** The receipts of a chat are only ever added to. */
  lemma ReceiptsGrow(c: Change, live: bool, gen: nat, d: Doc)
    ensures var r := Apply(c, live, gen, d);
      && d.receipts <= r.receipts
      && (c.Receipt? ==> c.activity in r.receipts && |r.receipts| <= |d.receipts| + 1)
      && (!c.Receipt? ==> r.receipts == d.receipts)
  {
    hide ValidTask, HasTask, Broke, Trim, LastN;
  }

  // ---------------------------------------------------------------- every step is an update of what stands

  /** The swap would put one update of the document that stands. */
  ghost predicate Updates(d: Doc, w: Write) {
    exists live: bool, gen: nat :: w.result == Apply(w.change, live, gen, d)
  }

  ghost predicate UpdatesInv(s: System) {
    && Bases(s)
    && (s.write.Some? && s.write.value.base == s.version ==> Updates(s.doc, s.write.value))
    && (forall w <- s.orphans :: w.base == s.version ==> Updates(s.doc, w))
  }

  lemma QuietUpdates(s: System, r: System)
    requires UpdatesInv(s) && Quiet(s, r)
    ensures UpdatesInv(r)
  {
    hide Updates;
  }

  lemma NextUpdates(s: System, a: Action)
    requires UpdatesInv(s)
    ensures UpdatesInv(Next(s, a))
  {
    hide MayEvaluate, StepEvaluate, StepSwap, StepOrphan, TurnStep, JobStep, HoldingJobStep, CancelJobs, Quiet, UpdatesInv;
    if a.Evaluate? {
      if MayEvaluate(s, a.change) { EvaluateUpdates(s, a.change); }
    } else if a.Swap? {
      if s.write.Some? { SwapUpdates(s); }
    } else if a.OrphanLands? {
      if a.write in s.orphans { OrphanUpdates(s, a.write); }
    } else {
      OtherSteps(s, a);
      QuietUpdates(s, Next(s, a));
    }
  }

  lemma EvaluateUpdates(s: System, c: Change)
    requires UpdatesInv(s) && MayEvaluate(s, c)
    ensures UpdatesInv(StepEvaluate(s, c))
  {
    hide Effect, MayEvaluate, Apply;
    var live := Live(s, GenOf(s)) && !s.holder.ByRemoval?;
    NoWrite(s, c);
    if Apply(c, live, GenOf(s), s.doc) == s.doc {
      EffectQuiet(s, c, false);
      QuietUpdates(s, Effect(s, c, false));
    } else {
      assert Updates(s.doc, Write(s.version, Apply(c, live, GenOf(s), s.doc), c));
    }
  }

  lemma SwapUpdates(s: System)
    requires UpdatesInv(s) && s.write.Some?
    ensures UpdatesInv(StepSwap(s))
  {
    hide Updates, Effect;
    var w := s.write.value;
    if w.base == s.version {
      var out := s.(doc := w.result, version := s.version + 1, write := None);
      assert UpdatesInv(out);
      EffectQuiet(out, w.change, true);
      QuietUpdates(out, Effect(out, w.change, true));
    }
  }

  lemma OrphanUpdates(s: System, w: Write)
    requires UpdatesInv(s) && w in s.orphans
    ensures UpdatesInv(StepOrphan(s, w))
  {
    hide Updates;
  }

  lemma {:induction false} ReachUpdates(max: nat, doc: Doc, actions: seq<Action>)
    ensures UpdatesInv(Reach(Initial(max, doc), actions))
  {
    hide UpdatesInv, Next, Initial;
    if actions == [] {
      StartUpdates(max, doc);
    } else {
      ReachUpdates(max, doc, actions[..|actions| - 1]);
      NextUpdates(Reach(Initial(max, doc), actions[..|actions| - 1]), actions[|actions| - 1]);
    }
  }

  lemma StartUpdates(max: nat, doc: Doc)
    ensures UpdatesInv(Initial(max, doc))
  {
  }

  /** The landing swap of a step, from its holder or left behind. */
  predicate Lands(s: System, a: Action, w: Write) {
    || (a.Swap? && s.write == Some(w) && w.base == s.version)
    || (a.OrphanLands? && a.write == w && w in s.orphans && w.base == s.version)
  }

  /** In every run, whatever turns are cancelled and whatever swaps they leave behind: a step changes the document only as one
      whole update of the document as it stands. */
  lemma EveryWriteIsAnUpdate(max: nat, doc: Doc, actions: seq<Action>, a: Action)
    ensures var s := Reach(Initial(max, doc), actions);
      Next(s, a).doc != s.doc ==>
        exists w, live, gen :: Lands(s, a, w) && w.result == Next(s, a).doc == Apply(w.change, live, gen, s.doc)
  {
    hide Reach, Initial, Apply, Effect, CancelJobs, Quiet;
    ReachUpdates(max, doc, actions);
    var s := Reach(Initial(max, doc), actions);
    if a.Evaluate? {
      if MayEvaluate(s, a.change) { EvaluateKeepsDoc(s, a.change); }
    } else if a.Swap? {
      if s.write.Some? && s.write.value.base == s.version {
        SwapPuts(s);
        assert Lands(s, a, s.write.value) && Updates(s.doc, s.write.value);
      } else if s.write.Some? {
        SwapPuts(s);
      }
    } else if a.OrphanLands? {
      if a.write in s.orphans && a.write.base == s.version {
        assert Lands(s, a, a.write) && Updates(s.doc, a.write);
      }
    } else {
      OtherSteps(s, a);
      QuietDoc(s, Next(s, a));
    }
  }

  lemma QuietDoc(s: System, r: System)
    requires Quiet(s, r)
    ensures r.doc == s.doc
  {
  }

  lemma EvaluateKeepsDoc(s: System, c: Change)
    ensures StepEvaluate(s, c).doc == s.doc
  {
    hide Apply, Effect;
    EffectQuiet(s, c, false);
  }

  lemma SwapPuts(s: System)
    requires s.write.Some?
    ensures StepSwap(s).doc == if s.write.value.base == s.version then s.write.value.result else s.doc
  {
    hide Effect;
    var w := s.write.value;
    EffectQuiet(s.(doc := w.result, version := s.version + 1, write := None), w.change, true);
  }

  /** So in every run a chat that was left stays silent until the agent is welcomed again: no step adds a message, a summary or
      a record to it or ends one with a result, and no step forgets a receipt. */
  lemma RemovedChatStaysSilent(max: nat, doc: Doc, actions: seq<Action>, a: Action)
    ensures var s := Reach(Initial(max, doc), actions);
      var (d, r) := (s.doc, Next(s, a).doc);
      && d.receipts <= r.receipts
      && (d.removed && !r.removed ==> exists w :: Lands(s, a, w) && w.change.Rejoin?)
      && (!d.active && r != d ==>
            exists w :: Lands(s, a, w) && !w.change.Append? && !w.change.Persist? && !w.change.Compact? && !w.change.Finish?
                        && !w.change.Deliver?)
  {
    hide Reach, Initial, Next, Apply, Lands;
    var s := Reach(Initial(max, doc), actions);
    var (d, r) := (s.doc, Next(s, a).doc);
    EveryWriteIsAnUpdate(max, doc, actions, a);
    if r != d {
      var w, live, gen :| Lands(s, a, w) && w.result == r == Apply(w.change, live, gen, d);
      ReceiptsGrow(w.change, live, gen, d);
      RemovalHolds(w.change, live, gen, d);
      if !d.active { ClosedChatTakesNothing(w.change, live, gen, d); }
    }
  }

  lemma RemovalHolds(c: Change, live: bool, gen: nat, d: Doc)
    ensures d.removed && !Apply(c, live, gen, d).removed ==> c.Rejoin?
  {
    hide ValidTask, HasTask, Broke;
  }

  // ---------------------------------------------------------------- a job that nothing disturbs

  /** A job that was started and that nothing disturbs runs, saves its result and announces it. */
  lemma ReadyJobIsAnnounced(s: System, id: string, st: Status, result: string, ok: bool)
    requires s.holder.Free? && s.write.None? && id in s.jobs && s.jobs[id].phase.Ready? && Live(s, s.jobs[id].gen)
    requires s.doc.active && ValidTask(s.doc.tasks, id, s.jobs[id].gen) && (st.Completed? || st.Failed?)
    ensures var z := Next(Next(Next(Next(Next(Next(s, JobCheck(id)), RunnerDone(id, st, result)), JobTake(id)),
                                    Evaluate(Finish(id, st, result))), Swap), Announce(ok));
      && z.sent == s.sent + [(id, st, result)] && z.version == s.version + 1
      && exists t <- z.doc.tasks :: t.id == id && t.status == st && t.result == result
  {
    hide Next, ValidTask;
    var g := s.jobs[id].gen;
    var s1 := s.(jobs := s.jobs[id := Job(g, AtWork)]);
    assert Next(s, JobCheck(id)) == s1 by { Checked(s, id); }
    var s2 := s.(jobs := s.jobs[id := Job(g, Done(st, result))]);
    assert Next(s1, RunnerDone(id, st, result)) == s2 by {
      Returned(s1, id, st, result);
      assert s1.jobs[id := Job(g, Done(st, result))] == s2.jobs;
    }
    var s3 := s.(jobs := s.jobs[id := Job(g, Locked(st, result))], holder := ByJob(id));
    assert Next(s2, JobTake(id)) == s3 by {
      Took(s2, id, st, result);
      assert s2.jobs[id := Job(g, Locked(st, result))] == s3.jobs;
    }
    assert Live(s3, g);
    Finished(s3, id, st, result, g, ok);
  }

  lemma Checked(s: System, id: string)
    requires s.holder.Free? && id in s.jobs && s.jobs[id].phase.Ready? && Live(s, s.jobs[id].gen)
    requires s.doc.active && ValidTask(s.doc.tasks, id, s.jobs[id].gen)
    ensures Next(s, JobCheck(id)) == s.(jobs := s.jobs[id := Job(s.jobs[id].gen, AtWork)])
  {
    hide ValidTask;
  }

  lemma Returned(s: System, id: string, st: Status, result: string)
    requires id in s.jobs && s.jobs[id].phase.AtWork? && (st.Completed? || st.Failed?)
    ensures Next(s, RunnerDone(id, st, result)) == s.(jobs := s.jobs[id := Job(s.jobs[id].gen, Done(st, result))])
  {
  }

  lemma Took(s: System, id: string, st: Status, result: string)
    requires s.holder.Free? && id in s.jobs && s.jobs[id].phase == Done(st, result) && Live(s, s.jobs[id].gen)
    ensures Next(s, JobTake(id)) == s.(holder := ByJob(id), jobs := s.jobs[id := Job(s.jobs[id].gen, Locked(st, result))])
  {
  }

  lemma Finished(s: System, id: string, st: Status, result: string, g: nat, ok: bool)
    requires s.holder == ByJob(id) && s.write.None? && id in s.jobs && s.jobs[id] == Job(g, Locked(st, result)) && Live(s, g)
    requires s.doc.active && ValidTask(s.doc.tasks, id, g) && (st.Completed? || st.Failed?)
    ensures var z := Next(Next(Next(s, Evaluate(Finish(id, st, result))), Swap), Announce(ok));
      && z.sent == s.sent + [(id, st, result)] && z.version == s.version + 1
      && exists t <- z.doc.tasks :: t.id == id && t.status == st && t.result == result
  {
    hide Next, Apply, ValidTask;
    var d := Apply(Finish(id, st, result), true, g, s.doc);
    FinishWrites(s.doc, id, st, result, g);
    var s1 := s.(write := Some(Write(s.version, d, Finish(id, st, result))));
    assert Next(s, Evaluate(Finish(id, st, result))) == s1 by { Evaluated(s, id, st, result, g); }
    var s2 := s.(doc := d, version := s.version + 1, jobs := s.jobs[id := Job(g, Saved(st, result))],
                 finals := s.finals + {(id, st, result)});
    assert Next(s1, Swap) == s2 by { Swapped(s, id, st, result, g, d); }
    Announced(s2, id, st, result, g, ok);
  }

  lemma Evaluated(s: System, id: string, st: Status, result: string, g: nat)
    requires s.holder == ByJob(id) && s.write.None? && id in s.jobs && s.jobs[id] == Job(g, Locked(st, result)) && Live(s, g)
    requires Apply(Finish(id, st, result), true, g, s.doc) != s.doc
    ensures var d := Apply(Finish(id, st, result), true, g, s.doc);
      Next(s, Evaluate(Finish(id, st, result))) == s.(write := Some(Write(s.version, d, Finish(id, st, result))))
  {
    hide Apply, Effect;
  }

  lemma Swapped(s: System, id: string, st: Status, result: string, g: nat, d: Doc)
    requires s.write.None? && id in s.jobs && s.jobs[id] == Job(g, Locked(st, result))
    ensures Next(s.(write := Some(Write(s.version, d, Finish(id, st, result)))), Swap) ==
            s.(doc := d, version := s.version + 1, jobs := s.jobs[id := Job(g, Saved(st, result))],
               finals := s.finals + {(id, st, result)})
  {
  }

  lemma Announced(s: System, id: string, st: Status, result: string, g: nat, ok: bool)
    requires s.holder == ByJob(id) && s.write.None? && id in s.jobs && s.jobs[id] == Job(g, Saved(st, result)) && Live(s, g)
    ensures Next(s, Announce(ok)) == s.(sent := s.sent + [(id, st, result)], jobs := s.jobs[id := Job(g, Told(ok))])
  {
  }

  lemma FinishWrites(d: Doc, id: string, st: Status, result: string, g: nat)
    requires d.active && ValidTask(d.tasks, id, g) && (st.Completed? || st.Failed?)
    ensures var r := Apply(Finish(id, st, result), true, g, d);
      r != d && exists t <- r.tasks :: t.id == id && t.status == st && t.result == result
  {
    var r := Apply(Finish(id, st, result), true, g, d);
    var t :| t in d.tasks && t.id == id && t.mine && t.status.Running? && t.gen == g;
    var i :| 0 <= i < |d.tasks| && d.tasks[i] == t;
    assert r.tasks[i] in r.tasks && r.tasks[i].status == st;
    assert r.tasks[i] != d.tasks[i];
  }
}
