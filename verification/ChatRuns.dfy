/** Forgetting is final, announcements follow saved results, admissions are bounded. */
module ChatRuns {
  import opened Options
  import opened ReceiptWindow
  import opened ChatTrim
  import opened ChatJobs

  // ---------------------------------------------------------------- nothing forgotten comes back

  /** Everything the document holds was written in generation `f` or later. */
  ghost predicate Since(d: Doc, f: nat) {
    && (d.summary == BLANK || d.summary.gen >= f)
    && (forall e <- d.recent :: e.gen >= f)
    && (forall t <- d.tasks :: t.gen >= f)
  }

  ghost predicate LeftoversSince(s: System, f: nat) {
    forall w <- s.orphans :: w.base == s.version ==> Since(w.result, f)
  }

  ghost predicate Bases(s: System) {
    && (s.write.Some? ==> s.write.value.base <= s.version)
    && (forall w <- s.orphans :: w.base <= s.version)
  }

  /** Nothing older than generation `f` is in the document or can still get there. */
  ghost predicate SinceInv(s: System, f: nat) {
    && Bases(s) && f <= s.generation && Since(s.doc, f)
    && (s.write.Some? && s.write.value.base == s.version ==> Since(s.write.value.result, f))
    && LeftoversSince(s, f)
  }

  lemma LastNSubset<T>(items: seq<T>, n: nat)
    ensures forall x <- LastN(items, n) :: x in items
  {
  }

  lemma ChangeSince(c: Change, live: bool, gen: nat, d: Doc, f: nat)
    requires Since(d, f) && (live ==> gen >= f)
    ensures Since(Apply(c, live, gen, d), f)
  {
    hide LastN, Trim, Broke;
    var r := Apply(c, live, gen, d);
    if Allowed(c, live, gen, d) {
      match c {
        case Append(text) => LastNSubset(d.recent + [Entry(text, gen)], MAX_RECENT);
        case Persist(id) => PersistSince(d.tasks, Task(id, Running, gen, true, "", NotDue), f);
        case Finish(_, _, _) => MappedSince(d.tasks, r.tasks, f);
        case Deliver(_, _, notice) =>
          MappedSince(d.tasks, r.tasks, f);
          LastNSubset(d.recent + [Entry(notice, gen)], MAX_RECENT);
        case Compact(_) => LastNSubset(d.recent, MAX_RECENT);
        case Recover(_) =>
          BrokeKeeps();
          MappedSince(d.tasks, r.tasks, f);
        case Interrupt(_, _) =>
          BrokeKeeps();
          MappedSince(d.tasks, r.tasks, f);
        case Activate =>
        case Rejoin =>
        case Receipt(_) =>
        case Forget =>
      }
    }
  }

  lemma BrokeKeeps()
    ensures forall t: Task :: Broke(t).gen == t.gen && Broke(t).id == t.id && (Broke(t).status.Running? ==> false)
  {
  }

  lemma MappedSince(tasks: seq<Task>, after: seq<Task>, f: nat)
    requires |after| == |tasks| && forall i :: 0 <= i < |tasks| ==> after[i].gen == tasks[i].gen
    requires forall t <- tasks :: t.gen >= f
    ensures forall t <- after :: t.gen >= f
  {
  }

  lemma PersistSince(tasks: seq<Task>, t: Task, f: nat)
    requires (forall q <- tasks :: q.gen >= f) && t.gen >= f
    ensures forall q <- Trim(tasks + [t]) :: q.gen >= f
  {
    hide Dropped;
    var all := tasks + [t];
    if |all| > HISTORY_LIMIT {
      TrimSubset(all, |all| - HISTORY_LIMIT);
    }
  }

  /** Nothing is written; a swap on its way may be left behind. */
  ghost predicate Quiet(s: System, r: System) {
    && r.version == s.version && r.doc == s.doc && r.generation >= s.generation
    && (r.write == s.write || r.write.None?) && r.orphans <= Orphaned(s)
  }

  lemma QuietSince(s: System, r: System, f: nat)
    requires SinceInv(s, f) && Quiet(s, r)
    ensures SinceInv(r, f)
  {
    hide Since;
  }

  lemma EffectQuiet(s: System, c: Change, committed: bool)
    ensures Quiet(s, Effect(s, c, committed)) && Effect(s, c, committed).write == s.write
    ensures Effect(s, c, committed).orphans == s.orphans && Effect(s, c, committed).generation == s.generation
  {
  }

  lemma EvaluateSince(s: System, c: Change, f: nat)
    requires SinceInv(s, f) && MayEvaluate(s, c)
    ensures SinceInv(StepEvaluate(s, c), f)
  {
    hide Since, Effect, MayEvaluate, Apply;
    var live := Live(s, GenOf(s)) && !s.holder.ByRemoval?;
    NoWrite(s, c);
    if Apply(c, live, GenOf(s), s.doc) == s.doc {
      EffectQuiet(s, c, false);
      QuietSince(s, Effect(s, c, false), f);
    } else {
      ChangeSince(c, live, GenOf(s), s.doc, f);
    }
  }

  lemma NoWrite(s: System, c: Change)
    requires MayEvaluate(s, c)
    ensures s.write.None?
  {
  }

  lemma SwapSince(s: System, f: nat)
    requires SinceInv(s, f) && s.write.Some?
    ensures SinceInv(StepSwap(s), f)
  {
    hide Since, Effect;
    var w := s.write.value;
    if w.base == s.version {
      var out := s.(doc := w.result, version := s.version + 1, write := None);
      assert SinceInv(out, f);
      EffectQuiet(out, w.change, true);
      QuietSince(out, Effect(out, w.change, true), f);
    }
  }

  lemma OrphanSince(s: System, w: Write, f: nat)
    requires SinceInv(s, f) && w in s.orphans
    ensures SinceInv(StepOrphan(s, w), f)
  {
    hide Since;
  }

  lemma CancelQuiet(s: System)
    ensures Quiet(s, CancelJobs(s))
  {
    hide Cancellable;
  }

  lemma TurnQuiet(s: System, a: Action)
    requires s.holder.ByTurn?
    ensures Quiet(s, TurnStep(s, a))
  {
    hide CancelJobs, Live;
    if a.StartForget? {
      CancelQuiet(s.(generation := s.generation + 1, holder := s.holder.(forgetting := true)));
    }
  }

  lemma JobQuiet(s: System, id: string, a: Action)
    requires id in s.jobs
    ensures Quiet(s, JobStep(s, id, a))
    ensures s.holder == ByJob(id) ==> Quiet(s, HoldingJobStep(s, id, a))
  {
    hide Live, ValidTask;
  }

  lemma OtherSteps(s: System, a: Action)
    requires !a.Evaluate? && !a.Swap? && !a.OrphanLands?
    ensures Quiet(s, Next(s, a))
  {
    hide CancelJobs, TurnStep, JobStep, HoldingJobStep, StepEvaluate, StepSwap, StepOrphan, MayEvaluate, Orphaned;
    OrphansStay(s);
    match a {
      case Remove => CancelQuiet(s.(generation := s.generation + 1, removed := true));
      case JobCheck(id) => if id in s.jobs { JobQuiet(s, id, a); }
      case RunnerDone(id, _, _) => if id in s.jobs { JobQuiet(s, id, a); }
      case JobTake(id) => if id in s.jobs { JobQuiet(s, id, a); }
      case JobFails(id) => if id in s.jobs { JobQuiet(s, id, a); }
      case GiveUp(id) => if id in s.jobs { JobQuiet(s, id, a); }
      case OtherAdmit | OtherEnd | BeginTurn | BeginWelcome | BeginRemoval | EndRemoval | OrphanDies(_) =>
      case EndTurn | CancelTurn | Admit(_) | Launch | Abandon | StartForget | Announce(_) | EndJob | FailJob =>
        if s.holder.ByTurn? { TurnQuiet(s, a); }
        if s.holder.ByJob? && s.holder.id in s.jobs { JobQuiet(s, s.holder.id, a); }
    }
  }

  lemma OrphansStay(s: System)
    ensures s.orphans <= Orphaned(s) && (forall g: nat, r: bool :: Orphaned(s.(generation := g, removed := r)) == Orphaned(s))
  {
  }

  lemma NextSince(s: System, a: Action, f: nat)
    requires SinceInv(s, f)
    ensures SinceInv(Next(s, a), f)
  {
    hide SinceInv, MayEvaluate, StepEvaluate, StepSwap, StepOrphan, TurnStep, JobStep, HoldingJobStep, CancelJobs, Quiet;
    if a.Evaluate? {
      if MayEvaluate(s, a.change) { EvaluateSince(s, a.change, f); }
    } else if a.Swap? {
      if s.write.Some? { SwapSince(s, f); }
    } else if a.OrphanLands? {
      if a.write in s.orphans { OrphanSince(s, a.write, f); }
    } else {
      OtherSteps(s, a);
      QuietSince(s, Next(s, a), f);
    }
  }

  lemma {:induction false} ReachSince(s: System, actions: seq<Action>, f: nat)
    requires SinceInv(s, f)
    ensures SinceInv(Reach(s, actions), f)
  {
    hide SinceInv, Next;
    if actions != [] {
      ReachSince(s, actions[..|actions| - 1], f);
      NextSince(Reach(s, actions[..|actions| - 1]), actions[|actions| - 1], f);
    }
  }

  /** Everything was written in generation zero or later. */
  lemma NextBases(s: System, a: Action)
    requires Bases(s)
    ensures Bases(Next(s, a))
  {
    hide Next;
    assert SinceInv(s, 0);
    NextSince(s, a, 0);
  }

  // ---------------------------------------------------------------- a forgotten document is blank

  ghost predicate Blank(d: Doc) {
    d.summary == BLANK && d.recent == [] && d.tasks == []
  }

  ghost predicate BlankWrite(s: System) {
    s.write.Some? && s.write.value.change.Forget? ==> Blank(s.write.value.result)
  }

  lemma NextBlank(s: System, a: Action)
    requires BlankWrite(s)
    ensures BlankWrite(Next(s, a))
  {
    hide MayEvaluate, StepEvaluate, StepSwap, CancelJobs, TurnStep, JobStep, HoldingJobStep, Orphaned, Blank;
    if a.Evaluate? {
      if MayEvaluate(s, a.change) { EvaluateBlank(s, a.change); }
    } else if a.Swap? {
      if s.write.Some? { SwapBlank(s); }
    } else if !a.OrphanLands? {
      OtherSteps(s, a);
    }
  }

  lemma EvaluateBlank(s: System, c: Change)
    requires MayEvaluate(s, c)
    ensures BlankWrite(StepEvaluate(s, c))
  {
    hide Effect, MayEvaluate, Trim, Mapped, LastN, Broke;
    NoWrite(s, c);
    EffectQuiet(s, c, false);
  }

  lemma SwapBlank(s: System)
    requires s.write.Some?
    ensures BlankWrite(StepSwap(s))
  {
    hide Effect, Blank;
    EffectQuiet(s.(doc := s.write.value.result, version := s.version + 1, write := None), s.write.value.change, true);
  }

  lemma {:induction false} ReachBlank(max: nat, doc: Doc, actions: seq<Action>)
    ensures Bases(Reach(Initial(max, doc), actions)) && BlankWrite(Reach(Initial(max, doc), actions))
  {
    hide Bases, BlankWrite, Next, Initial;
    if actions == [] {
      StartBlank(max, doc);
    } else {
      var s := Reach(Initial(max, doc), actions[..|actions| - 1]);
      ReachBlank(max, doc, actions[..|actions| - 1]);
      NextBases(s, actions[|actions| - 1]);
      NextBlank(s, actions[|actions| - 1]);
    }
  }

  lemma StartBlank(max: nat, doc: Doc)
    ensures Bases(Initial(max, doc)) && BlankWrite(Initial(max, doc))
  {
  }

  // ---------------------------------------------------------------- forgetting is final

  /** This step completes a forgetting: it finds nothing to write, or its swap lands. */
  ghost predicate Forgets(s: System, a: Action) {
    || (a == Evaluate(Change.Forget) && MayEvaluate(s, Change.Forget) && Blank(s.doc))
    || (a.Swap? && s.write.Some? && s.write.value.change.Forget? && s.write.value.base == s.version)
  }

  /** Right after it the document is blank, and no swap of the chat itself is on its way. */
  lemma ForgottenState(s: System, a: Action)
    requires Bases(s) && BlankWrite(s) && Forgets(s, a)
    ensures var z := Next(s, a);
      && Blank(z.doc) && z.write.None? && z.generation == s.generation && z.orphans == s.orphans && Bases(z)
      && z.version == (if a.Swap? then s.version + 1 else s.version)
  {
    hide Effect, MayEvaluate;
    if a.Swap? {
      EffectQuiet(s.(doc := s.write.value.result, version := s.version + 1, write := None), Change.Forget, true);
    } else {
      NoWrite(s, Change.Forget);
      EffectQuiet(s, Change.Forget, false);
    }
  }

  /** In every run: nothing from before a forgetting ever comes back, whatever the chat does afterwards, if and only if
      no swap that a cancelled call left behind is still valid when the forgetting ends and holds something older. */
  lemma ForgettingIsFinalIff(max: nat, doc: Doc, actions: seq<Action>, a: Action)
    requires Forgets(Reach(Initial(max, doc), actions), a)
    ensures var s := Reach(Initial(max, doc), actions);
      var z := Next(s, a);
      (forall more: seq<Action> :: Since(Reach(z, more).doc, s.generation)) <==> LeftoversSince(z, s.generation)
  {
    hide Reach, Initial, Next, Since, Forgets;
    var s := Reach(Initial(max, doc), actions);
    var z := Next(s, a);
    var g := s.generation;
    ReachBlank(max, doc, actions);
    ForgottenState(s, a);
    if LeftoversSince(z, g) {
      assert SinceInv(z, g) by { BlankIsSince(z.doc, g); }
      forall more: seq<Action> ensures Since(Reach(z, more).doc, g) {
        ReachSince(z, more, g);
      }
    } else {
      var w :| w in z.orphans && w.base == z.version && !Since(w.result, g);
      LeftoverLands(z, w);
      assert !Since(Reach(z, [OrphanLands(w)]).doc, g);
    }
  }

  lemma BlankIsSince(d: Doc, f: nat)
    requires Blank(d)
    ensures Since(d, f)
  {
  }

  lemma LeftoverLands(s: System, w: Write)
    requires w in s.orphans && w.base == s.version
    ensures Reach(s, [OrphanLands(w)]).doc == w.result
  {
    hide Reach;
    var none: seq<Action> := [];
    assert none + [OrphanLands(w)] == [OrphanLands(w)];
    ReachNothing(s);
    ReachOne(s, none, OrphanLands(w));
  }

  /** So a forgetting that had something to write is always final. */
  lemma ForgettingThatWritesIsSafe(max: nat, doc: Doc, actions: seq<Action>, more: seq<Action>)
    requires Forgets(Reach(Initial(max, doc), actions), Swap)
    ensures var s := Reach(Initial(max, doc), actions);
      Since(Reach(Next(s, Swap), more).doc, s.generation)
  {
    hide Reach, Initial, Next, Since, Forgets;
    var s := Reach(Initial(max, doc), actions);
    ReachBlank(max, doc, actions);
    ForgottenState(s, Swap);
    ForgettingIsFinalIff(max, doc, actions, Swap);
  }

  lemma ReachOne(s: System, before: seq<Action>, a: Action)
    ensures Reach(s, before + [a]) == Next(Reach(s, before), a)
  {
    hide Next;
    assert (before + [a])[..|before|] == before;
  }

  /** The other case does happen: a message whose turn was cancelled while its swap was on its way comes back after
      a forgetting that found the chat empty and had recorded no receipt. */
  lemma LeftoverComesBack(max: nat, text: string)
    ensures var empty := Doc(BLANK, [], [], true, false, []);
      exists actions, more :: var s := Reach(Initial(max, empty), actions);
        && Forgets(s, Evaluate(Change.Forget)) && s.generation == 2
        && Reach(Next(s, Evaluate(Change.Forget)), more).doc.recent == [Entry(text, 1)]
  {
    hide Reach, Forgets;
    var empty := Doc(BLANK, [], [], true, false, []);
    var s0 := Initial(max, empty);
    var w := Write(0, empty.(recent := [Entry(text, 1)]), Append(text));
    var before := [BeginTurn, Evaluate(Append(text)), CancelTurn];
    var s3 := s0.(orphans := {w});
    assert Reach(s0, before) == s3 by { Cancelled(s0, text, w); }
    var forgetting := before + [BeginTurn] + [StartForget];
    ReachOne(s0, before, BeginTurn);
    ReachOne(s0, before + [BeginTurn], StartForget);
    ForgetsNothing(s3, w, empty);
    var z := Next(Reach(s0, forgetting), Evaluate(Change.Forget));
    LeftoverLands(z, w);
    assert Reach(z, [OrphanLands(w)]).doc.recent == [Entry(text, 1)];
  }

  lemma Cancelled(s0: System, text: string, w: Write)
    requires exists max: nat :: s0 == Initial(max, Doc(BLANK, [], [], true, false, []))
    requires w == Write(0, s0.doc.(recent := [Entry(text, 1)]), Append(text))
    ensures Reach(s0, [BeginTurn, Evaluate(Append(text)), CancelTurn]) == s0.(orphans := {w})
  {
    hide Reach, Next;
    ReachNothing(s0);
    ReachOne(s0, [], BeginTurn);
    ReachOne(s0, [BeginTurn], Evaluate(Append(text)));
    ReachOne(s0, [BeginTurn, Evaluate(Append(text))], CancelTurn);
    assert [] + [BeginTurn] == [BeginTurn];
    assert [BeginTurn] + [Evaluate(Append(text))] == [BeginTurn, Evaluate(Append(text))];
    assert [BeginTurn, Evaluate(Append(text))] + [CancelTurn] == [BeginTurn, Evaluate(Append(text)), CancelTurn];
    AppendLeftBehind(s0, text, w);
  }

  lemma AppendLeftBehind(s0: System, text: string, w: Write)
    requires s0.holder.Free? && !s0.removed && s0.generation == 1 && s0.write.None? && s0.orphans == {} && s0.jobs == map[]
    requires s0.doc.active && s0.doc.recent == [] && s0.version == 0
    requires w == Write(0, s0.doc.(recent := [Entry(text, 1)]), Append(text))
    ensures Next(Next(Next(s0, BeginTurn), Evaluate(Append(text))), CancelTurn) == s0.(orphans := {w})
  {
    var s1 := Next(s0, BeginTurn);
    assert s1 == s0.(holder := Turn(1));
    assert Apply(Append(text), true, 1, s0.doc) == w.result;
    assert Next(s1, Evaluate(Append(text))) == s1.(write := Some(w));
  }

  lemma ReachNothing(s: System)
    ensures Reach(s, []) == s
  {
  }

  lemma ForgetsNothing(s: System, w: Write, empty: Doc)
    requires empty.summary == BLANK && empty.recent == [] && empty.tasks == []
    requires s.doc == empty && s.holder.Free? && !s.removed && s.write.None? && s.orphans == {w} && w.base == s.version
    requires s.jobs == map[] && s.generation == 1
    ensures var t := Next(Next(s, BeginTurn), StartForget);
      && Forgets(t, Evaluate(Change.Forget)) && t.generation == 2
      && Next(t, Evaluate(Change.Forget)).orphans == {w} && Next(t, Evaluate(Change.Forget)).version == s.version
  {
    var s1 := Next(s, BeginTurn);
    var s2 := Next(s1, StartForget);
    assert s2.generation == 2 && s2.doc == empty && s2.holder == ByTurn(1, false, None, true);
    assert MayEvaluate(s2, Change.Forget);
    assert Apply(Change.Forget, false, 1, s2.doc) == s2.doc;
  }

  /** Any write of the turn itself, such as the receipt of its message, protects it. */
  lemma CommitLeavesNoSwapValid(s: System)
    requires Bases(s) && s.write.Some? && s.write.value.base == s.version
    ensures forall w <- Next(s, Swap).orphans :: w.base < Next(s, Swap).version
  {
    hide Since;
  }
}
