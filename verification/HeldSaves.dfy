/** Document changes held back while Word keeps the file open: a queue that grows while its front is being written.

    An upload either reaches the document or does not; how long the saver waits is left to chance. */
module HeldSaves {
  import opened Options

  const MAX_BATCHES := 6
  const MAX_FAILURES := 5

  type Batch = seq<string>

  /** `documentSave` of the case. */
  datatype Held = Held(edits: seq<Batch>, reply: string, told: bool)

  const NOTHING := Held([], "", false)

  // ---------------------------------------------------------------- the transforms

  /** `hold`; it refuses a seventh batch. */
  function Hold(held: Option<Held>, edits: Batch, reply: string, told: bool): Option<Option<Held>> {
    var current := if held.Some? then held.value else NOTHING;
    if edits != [] && |current.edits| >= MAX_BATCHES then None
    else Some(Some(Held(if edits != [] then current.edits + [edits] else current.edits,
                        if reply != "" then reply else current.reply, current.told || told)))
  }

  /** `saved`: what was queued while the save was in flight stays. */
  function SavedUp(held: Option<Held>, batches: seq<Batch>, reply: string): Option<Held> {
    var current := if held.Some? then held.value else NOTHING;
    var left := if |batches| <= |current.edits| then current.edits[|batches|..] else [];
    var later := if current.reply != reply then current.reply else "";
    if left != [] || later != "" then Some(current.(edits := left, reply := later)) else None
  }

  // ---------------------------------------------------------------- the saver and its callers

  /** Where the saver stands; `Settled` has recorded a save and will look again, `Leaving` has decided to return but is not
      done yet. */
  datatype Saver =
    | Absent
    | Top
    | Waiting
    | Saving(batches: seq<Batch>, reply: string)
    | Uploaded(batches: seq<Batch>, reply: string)
    | Settled
    | Dropping
    | Leaving

  datatype Upload = Written | Locked | Refused | Unreachable

  /** Who owes an index write: a caller that has queued, the saver, or any other update or reading of the case. */
  datatype Who = ByCaller(id: nat) | BySaver | ByOther(id: nat)

  /** `row` is what the stored index row of the case says of a held save, if it has a row; `owed` are the index writes still
      to come, each with what its owner has seen of the case. `callers` have queued a batch and are about to start the saver.
      `queued` lists the batches accepted and not dropped, `written` those in the document. */
  datatype System = System(held: Option<Held>, row: Option<bool>, owed: map<Who, bool>, saver: Saver, failures: nat,
                           callers: set<nat>, queued: seq<Batch>, written: seq<Batch>)

  /** `Touch` is any other update or reading of the case that writes its row afterwards, `Prune` the desk giving up the row of
      a finished case. `listed` says that the row is among those that a restart looks at. */
  datatype Action =
    | Queue(caller: nat, edits: Batch, reply: string, told: bool)
    | StartSaver(caller: nat)
    | CallerFails(caller: nat)
    | Index(who: Who)
    | Touch(other: nat)
    | DropRow(other: nat)
    | Prune
    | Look
    | TooLong
    | Retry
    | Send(upload: Upload)
    | Record
    | Again
    | Drop
    | Exit
    | Die
    | Crash
    | Resume(listed: bool)

  function Initial(): System {
    System(None, None, map[], Absent, 0, {}, [], [])
  }

  function EditsOf(held: Option<Held>): seq<Batch> {
    if held.Some? then held.value.edits else []
  }

  /** The owner of the index write has a copy of the case as it is now. */
  function Owe(s: System, who: Who): System {
    s.(owed := s.owed[who := s.held.Some?])
  }

  function StepQueue(s: System, c: nat, edits: Batch, reply: string, told: bool): System {
    var after := Hold(s.held, edits, reply, told);
    if c in s.callers || after.None? then s
    else Owe(s.(held := after.value, callers := s.callers + {c}, queued := if edits != [] then s.queued + [edits] else s.queued),
             ByCaller(c))
  }

  /** `_start_saver`: a task that is not done counts as there, even if it has already seen that nothing is held. */
  function StepStart(s: System, c: nat): System {
    var out := s.(callers := s.callers - {c});
    if s.saver.Absent? then out.(saver := Top, failures := 0) else out
  }

  function StepSend(s: System, u: Upload): System
    requires s.saver.Saving?
  {
    match u
    case Written => s.(saver := Uploaded(s.saver.batches, s.saver.reply), written := s.written + s.saver.batches)
    case Locked => s.(saver := Top)
    case Refused => s.(saver := Dropping)
    case Unreachable => s.(failures := s.failures + 1, saver := if s.failures + 1 < MAX_FAILURES then Top else Dropping)
  }

  /** An action that is not possible now changes nothing. */
  function Next(s: System, a: Action): System {
    match a
    case Queue(c, edits, reply, told) => StepQueue(s, c, edits, reply, told)
    case StartSaver(c) => if c in s.callers && ByCaller(c) !in s.owed then StepStart(s, c) else s
    case CallerFails(c) => if c in s.callers then s.(callers := s.callers - {c}, owed := s.owed - {ByCaller(c)}) else s
    case Index(who) => if who in s.owed then s.(row := Some(s.owed[who]), owed := s.owed - {who}) else s
    case Touch(u) => if ByOther(u) in s.owed then s else Owe(s, ByOther(u))
    case DropRow(u) => s.(owed := s.owed - {ByOther(u)})
    case Prune => s.(row := None)
    case Look => if s.saver.Top? then s.(saver := if s.held.Some? then Waiting else Leaving) else s
    case TooLong => if s.saver.Waiting? then s.(saver := Dropping) else s
    case Retry =>
      if s.saver.Waiting? then
        s.(saver := if s.held.Some? then Saving(s.held.value.edits, s.held.value.reply) else Leaving)
      else s
    case Send(u) => if s.saver.Saving? then StepSend(s, u) else s
    case Record =>
      if s.saver.Uploaded? then
        Owe(s.(held := SavedUp(s.held, s.saver.batches, s.saver.reply), saver := Settled, failures := 0), BySaver)
      else s
    case Again => if s.saver.Settled? && BySaver !in s.owed then s.(saver := Top) else s
    case Drop => if s.saver.Dropping? then Owe(s.(held := None, saver := Leaving, queued := s.written), BySaver) else s
    case Exit => if s.saver.Leaving? && BySaver !in s.owed then s.(saver := Absent) else s
    case Die => s.(saver := Absent, owed := s.owed - {BySaver})
    case Crash => s.(saver := Absent, callers := {}, owed := map[])
    case Resume(listed) =>
      if s.saver.Absent? && listed && s.row == Some(true) then s.(saver := Top, failures := 0) else s
  }

  function Reach(s: System, actions: seq<Action>): System {
    if actions == [] then s else Next(Reach(s, actions[..|actions| - 1]), actions[|actions| - 1])
  }

  // ---------------------------------------------------------------- conservation

  /** The batches the saver has in hand are still the front of the queue. */
  predicate InFront(s: System) {
    match s.saver
    case Saving(batches, _) => s.held.Some? && batches <= s.held.value.edits
    case Uploaded(batches, _) => s.held.Some? && batches <= s.held.value.edits
    case _ => true
  }

  /** What is still to be written: the held batches, less those that just went up. */
  function Remaining(s: System): seq<Batch>
    requires InFront(s)
  {
    if s.saver.Uploaded? then s.held.value.edits[|s.saver.batches|..] else EditsOf(s.held)
  }

  /** How many batches this step makes the next saver write a second time: those of a saver that dies between an upload
      and its record. */
  function RepeatsAt(s: System, a: Action): nat {
    if (a.Die? || a.Crash?) && s.saver.Uploaded? then |s.saver.batches| else 0
  }

  predicate Drops(s: System, a: Action) {
    a.Drop? && s.saver.Dropping?
  }

  /** The batches put back to be written again since the last drop. */
  function Repeated(actions: seq<Action>): nat {
    if actions == [] then 0
    else
      var before := actions[..|actions| - 1];
      var (s, a) := (Reach(Initial(), before), actions[|actions| - 1]);
      if Drops(s, a) then 0 else Repeated(before) + RepeatsAt(s, a)
  }

  /** With `extra` batches put back, the document and what remains exceed the queued batches by so many. */
  predicate HeldInv(s: System, extra: nat) {
    && InFront(s) && |EditsOf(s.held)| <= MAX_BATCHES
    && |s.written| + |Remaining(s)| == |s.queued| + extra
    && (extra == 0 ==> s.written + Remaining(s) == s.queued)
  }

  lemma QueueKeeps(s: System, extra: nat, c: nat, edits: Batch, reply: string, told: bool)
    requires HeldInv(s, extra)
    ensures HeldInv(StepQueue(s, c, edits, reply, told), extra)
  {
    var r := StepQueue(s, c, edits, reply, told);
    if r != s && edits != [] {
      assert Remaining(r) == Remaining(s) + [edits];
      assert s.written + (Remaining(s) + [edits]) == (s.written + Remaining(s)) + [edits];
    }
  }

  lemma SendKeeps(s: System, extra: nat, u: Upload)
    requires HeldInv(s, extra) && s.saver.Saving?
    ensures HeldInv(StepSend(s, u), extra)
  {
    if u.Written? {
      Rejoined(s.written, s.saver.batches, s.held.value.edits);
    }
  }

  lemma Rejoined(written: seq<Batch>, batches: seq<Batch>, edits: seq<Batch>)
    requires batches <= edits
    ensures written + edits == (written + batches) + edits[|batches|..]
  {
    assert edits == batches + edits[|batches|..];
  }

  lemma DeathKeeps(s: System, r: System, extra: nat)
    requires HeldInv(s, extra) && r.saver.Absent? && r.held == s.held && r.written == s.written && r.queued == s.queued
    ensures HeldInv(r, extra + if s.saver.Uploaded? then |s.saver.batches| else 0)
  {
    if s.saver.Uploaded? {
      var (edits, batches) := (s.held.value.edits, s.saver.batches);
      assert edits == batches + edits[|batches|..];
      if batches == [] {
        assert edits[|batches|..] == edits;
      }
    }
  }

  /** What is held, written and queued stays, and the saver has not just uploaded or recorded. */
  lemma RestKeeps(s: System, r: System, extra: nat)
    requires HeldInv(s, extra) && r.held == s.held && r.written == s.written && r.queued == s.queued
    requires r.saver == s.saver
             || (!s.saver.Uploaded? && !r.saver.Uploaded?
                 && (r.saver.Saving? ==> s.held.Some? && r.saver.batches == s.held.value.edits))
    ensures HeldInv(r, extra)
  {
  }

  lemma RecordKeeps(s: System, extra: nat)
    requires HeldInv(s, extra) && s.saver.Uploaded?
    ensures HeldInv(Next(s, Record), extra)
  {
  }

  lemma DropKeeps(s: System, extra: nat)
    requires HeldInv(s, extra) && s.saver.Dropping?
    ensures HeldInv(Next(s, Drop), 0)
  {
    assert s.written + [] == s.written;
  }

  lemma NextKeeps(s: System, extra: nat, a: Action)
    requires HeldInv(s, extra)
    ensures HeldInv(Next(s, a), if Drops(s, a) then 0 else extra + RepeatsAt(s, a))
  {
    hide HeldInv, StepQueue, StepSend, SavedUp;
    match a {
      case Queue(c, edits, reply, told) => QueueKeeps(s, extra, c, edits, reply, told);
      case Send(u) => if s.saver.Saving? { SendKeeps(s, extra, u); }
      case Record => if s.saver.Uploaded? { RecordKeeps(s, extra); }
      case Drop => if s.saver.Dropping? { DropKeeps(s, extra); }
      case Die | Crash => DeathKeeps(s, Next(s, a), extra);
      case Index(_) | Touch(_) | DropRow(_) | Prune => RestKeeps(s, Next(s, a), extra);
      case StartSaver(_) | CallerFails(_) | Look | TooLong | Retry | Again | Exit | Resume(_) => RestKeeps(s, Next(s, a), extra);
    }
  }

  lemma {:induction false} ReachKeeps(actions: seq<Action>)
    ensures HeldInv(Reach(Initial(), actions), Repeated(actions))
  {
    hide HeldInv, Next, Drops, RepeatsAt;
    if actions == [] {
      StartKeeps();
    } else {
      var before := actions[..|actions| - 1];
      ReachKeeps(before);
      NextKeeps(Reach(Initial(), before), Repeated(before), actions[|actions| - 1]);
    }
  }

  lemma StartKeeps()
    ensures HeldInv(Initial(), 0)
  {
  }

  /** In every run: the batches in the document followed by those still to be written are exactly the batches queued and
      not dropped, in order and each once, if and only if no saver has died between an upload of batches and its record
      since the last drop; otherwise just as many come on top as those uploads held. However many were queued while a
      save was in flight makes no difference. */
  lemma HeldEditsAreConserved(actions: seq<Action>)
    ensures var s := Reach(Initial(), actions);
      && InFront(s) && |EditsOf(s.held)| <= MAX_BATCHES
      && |s.written| + |Remaining(s)| == |s.queued| + Repeated(actions)
      && (s.written + Remaining(s) == s.queued <==> Repeated(actions) == 0)
  {
    hide Reach, Initial, Repeated;
    ReachKeeps(actions);
    var s := Reach(Initial(), actions);
    assert |s.written + Remaining(s)| == |s.written| + |Remaining(s)|;
  }

  /** So deaths and crashes anywhere else repeat nothing. */
  lemma {:induction false} OnlyThatDeathRepeats(actions: seq<Action>)
    requires forall n :: 0 <= n < |actions| && (actions[n].Die? || actions[n].Crash?) ==>
               !Reach(Initial(), actions[..n]).saver.Uploaded?
    ensures Repeated(actions) == 0
    ensures var s := Reach(Initial(), actions);
      InFront(s) && s.written + Remaining(s) == s.queued
  {
    hide Reach, Initial, Remaining;
    if actions != [] {
      var before := actions[..|actions| - 1];
      forall n | 0 <= n < |before| && (before[n].Die? || before[n].Crash?)
        ensures !Reach(Initial(), before[..n]).saver.Uploaded?
      {
        assert before[..n] == actions[..n];
      }
      OnlyThatDeathRepeats(before);
    }
    HeldEditsAreConserved(actions);
  }

  /** And such a death does repeat them: whoever takes over writes the same batches again, be it a restart that finds the
      case held or the saver of the next caller that queues. */
  lemma DeathAfterUploadWritesTwice(actions: seq<Action>, c: nat, edits: Batch, reply: string, told: bool)
    requires Reach(Initial(), actions).saver.Uploaded? && edits != []
    ensures var s := Reach(Initial(), actions);
      && s.held.Some? && s.saver.batches <= s.held.value.edits
      && (s.row == Some(true) ==>
            Saved(Next(Next(s, Crash), Resume(true))).written == s.written + s.held.value.edits)
      && (|s.held.value.edits| < MAX_BATCHES ==>
            Saved(Next(Next(Next(Next(s, Crash), Queue(c, edits, reply, told)), Index(ByCaller(c))), StartSaver(c))).written
            == s.written + (s.held.value.edits + [edits]))
  {
    hide Reach, Initial, SavedUp, Repeated, Saved, Next;
    ReachKeeps(actions);
    var was := Reach(Initial(), actions);
    var s := Next(was, Crash);
    CrashLeaves(was);
    UploadedIsHeld(was, Repeated(actions));
    if s.row == Some(true) {
      RestartSaves(s);
    }
    if |s.held.value.edits| < MAX_BATCHES {
      NextCallerSaves(s, c, edits, reply, told);
    }
  }

  lemma CrashLeaves(s: System)
    ensures Next(s, Crash) == s.(saver := Absent, callers := {}, owed := map[])
  {
  }

  lemma UploadedIsHeld(s: System, extra: nat)
    requires HeldInv(s, extra) && s.saver.Uploaded?
    ensures s.held.Some? && s.saver.batches <= s.held.value.edits
  {
  }

  lemma RestartSaves(s: System)
    requires s.saver.Absent? && s.held.Some? && s.row == Some(true)
    ensures Saved(Next(s, Resume(true))).written == s.written + s.held.value.edits
  {
  }

  /** The saver looks, waits once, and its upload succeeds. */
  function Saved(s: System): System {
    Next(Next(Next(s, Look), Retry), Send(Written))
  }

  lemma NextCallerSaves(s: System, c: nat, edits: Batch, reply: string, told: bool)
    requires s.saver.Absent? && s.callers == {} && s.owed == map[] && s.held.Some? && |s.held.value.edits| < MAX_BATCHES
    requires edits != []
    ensures var r := Saved(Next(Next(Next(s, Queue(c, edits, reply, told)), Index(ByCaller(c))), StartSaver(c)));
      r.written == s.written + (s.held.value.edits + [edits])
  {
    var s1 := Next(s, Queue(c, edits, reply, told));
    var s2 := Next(s1, Index(ByCaller(c)));
    var s3 := Next(s2, StartSaver(c));
    assert s3.saver == Top && s3.held == s1.held && s3.held.value.edits == s.held.value.edits + [edits];
  }

  // ---------------------------------------------------------------- somebody saves it

  /** A held save without a caller about to start the saver and without a saver that will look again. */
  predicate Abandoned(s: System) {
    s.held.Some? && s.callers == {} && (s.saver.Absent? || s.saver.Leaving?)
  }

  /** The last caller finds a saver that has already decided to return, or fails before it starts one; or the saver, or
      the whole process, is gone. */
  predicate Leaves(s: System, a: Action) {
    s.held.Some? &&
    match a
    case StartSaver(c) => s.callers == {c} && ByCaller(c) !in s.owed && s.saver.Leaving?
    case CallerFails(c) => s.callers == {c} && (s.saver.Absent? || s.saver.Leaving?)
    case Die => s.callers == {}
    case Crash => true
    case _ => false
  }

  /** Another batch or message is queued, or a restart finds the row of the case and the row says that a save is held. */
  predicate Rescues(s: System, a: Action) {
    match a
    case Queue(c, edits, _, _) => c !in s.callers && (edits != [] ==> |EditsOf(s.held)| < MAX_BATCHES)
    case Resume(listed) => s.saver.Absent? && listed && s.row == Some(true)
    case _ => false
  }

  lemma NextAbandoned(s: System, a: Action)
    ensures Abandoned(Next(s, a)) <==> Leaves(s, a) || (Abandoned(s) && !Rescues(s, a))
  {
    hide SavedUp;
    match a {
      case StartSaver(c) => LastCaller(s.callers, c);
      case CallerFails(c) => LastCaller(s.callers, c);
      case Queue(c, edits, reply, told) =>
      case Index(_) | Touch(_) | DropRow(_) | Prune =>
      case Look | TooLong | Retry | Send(_) | Record | Again | Drop | Exit | Die | Crash | Resume(_) =>
    }
  }

  lemma LastCaller(callers: set<nat>, c: nat)
    ensures c in callers ==> (callers - {c} == {} <==> callers == {c})
  {
    if c in callers && callers - {c} == {} {
      assert callers == (callers - {c}) + {c};
    }
  }

  /** Step `n` of the run leaves a held save behind and nothing later in the run takes it up. */
  predicate LeftFrom(actions: seq<Action>, n: nat)
    requires n < |actions|
  {
    && Leaves(Reach(Initial(), actions[..n]), actions[n])
    && forall m :: n < m < |actions| ==> !Rescues(Reach(Initial(), actions[..m]), actions[m])
  }

  lemma LeftLonger(before: seq<Action>, a: Action, n: nat)
    requires n < |before|
    ensures LeftFrom(before + [a], n) <==> LeftFrom(before, n) && !Rescues(Reach(Initial(), before), a)
  {
    hide Reach, Initial, Leaves, Rescues;
    var all := before + [a];
    assert all[..|before|] == before && forall m :: 0 <= m <= |before| ==> all[..m] == before[..m];
    assert all[|before|] == a;
  }

  lemma LeftLast(before: seq<Action>, a: Action)
    ensures LeftFrom(before + [a], |before|) <==> Leaves(Reach(Initial(), before), a)
  {
    hide Reach, Initial, Leaves, Rescues;
    assert (before + [a])[..|before|] == before;
  }

  /** In every run: a held save has nobody to save it exactly when some step left it so and no later step of the run
      queued again, nor restarted with a row that said so. */
  lemma {:induction false} AbandonedIff(actions: seq<Action>)
    ensures Abandoned(Reach(Initial(), actions)) <==> exists n :: 0 <= n < |actions| && LeftFrom(actions, n)
  {
    hide Next, Abandoned, Initial, Leaves, Rescues, LeftFrom;
    if actions == [] {
      StartHasNobody();
    } else {
      var (before, a) := (actions[..|actions| - 1], actions[|actions| - 1]);
      assert actions == before + [a];
      AbandonedIff(before);
      NextAbandoned(Reach(Initial(), before), a);
      LeftLast(before, a);
      forall n | 0 <= n < |before|
        ensures LeftFrom(actions, n) <==> LeftFrom(before, n) && !Rescues(Reach(Initial(), before), a)
      {
        LeftLonger(before, a, n);
      }
    }
  }

  lemma StartHasNobody()
    ensures !Abandoned(Initial())
  {
  }

  predicate Survives(a: Action) {
    !a.Die? && !a.Crash? && !a.CallerFails?
  }

  /** The last caller finds a saver that has seen that nothing is held but is not done yet. */
  predicate StartsTooLate(s: System, a: Action) {
    a.StartSaver? && s.callers == {a.caller} && ByCaller(a.caller) !in s.owed && s.saver.Leaving? && s.held.Some?
  }

  /** Without deaths and failures that is the one kind of step that leaves a held save with nobody to save it. */
  lemma StrandedIff(s: System, a: Action)
    requires Survives(a) && !Abandoned(s)
    ensures Abandoned(Next(s, a)) <==> StartsTooLate(s, a)
  {
    hide Next, Rescues;
    NextAbandoned(s, a);
  }

  lemma {:induction false} EveryHeldSaveHasASaver(actions: seq<Action>)
    requires forall a <- actions :: Survives(a)
    requires forall n :: 0 <= n < |actions| ==> !StartsTooLate(Reach(Initial(), actions[..n]), actions[n])
    ensures !Abandoned(Reach(Initial(), actions))
  {
    hide Reach, Initial, Abandoned, Rescues;
    AbandonedIff(actions);
    forall n | 0 <= n < |actions| ensures !LeftFrom(actions, n) {
      assert Survives(actions[n]) && !StartsTooLate(Reach(Initial(), actions[..n]), actions[n]);
    }
  }

  // ---------------------------------------------------------------- runs

  lemma ReachOne(before: seq<Action>, a: Action)
    ensures Reach(Initial(), before + [a]) == Next(Reach(Initial(), before), a)
  {
    hide Next, Initial;
    assert (before + [a])[..|before|] == before;
  }

  lemma ReachThree(before: seq<Action>, a: Action, b: Action, c: Action)
    ensures Reach(Initial(), before + [a] + [b] + [c]) == Next(Next(Next(Reach(Initial(), before), a), b), c)
  {
    hide Next, Initial, Reach;
    ReachOne(before, a);
    ReachOne(before + [a], b);
    ReachOne(before + [a] + [b], c);
  }

  lemma ReachNothing()
    ensures Reach(Initial(), []) == Initial()
  {
  }

  /** A batch is queued where none was held, its row is written, and its caller goes on to start the saver. */
  lemma QueueIndexStart(s: System, c: nat, edits: Batch)
    requires s.held.None? && s.callers == {} && ByCaller(c) !in s.owed && edits != []
    ensures var r := Next(Next(Next(s, Queue(c, edits, "", false)), Index(ByCaller(c))), StartSaver(c));
      r == s.(held := Some(Held([edits], "", false)), row := Some(true), queued := s.queued + [edits],
              saver := if s.saver.Absent? then Top else s.saver, failures := if s.saver.Absent? then 0 else s.failures)
  {
    var none: seq<Batch> := [];
    assert none + [edits] == [edits];
    assert s.owed[ByCaller(c) := true] - {ByCaller(c)} == s.owed;
    assert s.callers + {c} - {c} == s.callers;
  }

  lemma LookedTooLong(s: System)
    requires s.saver.Top? && s.held.Some? && s.owed == map[]
    ensures Next(Next(Next(s, Look), TooLong), Drop) ==
            s.(held := None, saver := Leaving, queued := s.written, owed := map[BySaver := false])
  {
  }

  /** It does happen: changes queued while the saver is still telling the requester about a dropped save stay held with
      no saver at all. */
  lemma QueuedDuringADropIsStranded(edits: Batch, later: Batch)
    requires edits != [] && later != []
    ensures exists actions :: (forall a <- actions :: Survives(a)) &&
              var s := Reach(Initial(), actions);
              s.held == Some(Held([later], "", false)) && s.saver.Absent? && s.callers == {} && Abandoned(s)
  {
    hide Next, Reach;
    var none: seq<Action> := [];
    var first := none + [Queue(0, edits, "", false)] + [Index(ByCaller(0))] + [StartSaver(0)];
    var second := first + [Look] + [TooLong] + [Drop];
    var third := second + [Index(BySaver)];
    var fourth := third + [Queue(1, later, "", false)] + [Index(ByCaller(1))] + [StartSaver(1)];
    ReachNothing();
    ReachThree(none, Queue(0, edits, "", false), Index(ByCaller(0)), StartSaver(0));
    QueueIndexStart(Initial(), 0, edits);
    ReachThree(first, Look, TooLong, Drop);
    LookedTooLong(Reach(Initial(), first));
    ReachOne(second, Index(BySaver));
    SaverIndexes(Reach(Initial(), second));
    ReachThree(third, Queue(1, later, "", false), Index(ByCaller(1)), StartSaver(1));
    QueueIndexStart(Reach(Initial(), third), 1, later);
    ReachOne(fourth, Exit);
    Exits(Reach(Initial(), fourth));
    forall a | a in fourth + [Exit] ensures Survives(a) {
    }
    assert Abandoned(Reach(Initial(), fourth + [Exit]));
  }

  lemma SaverIndexes(s: System)
    requires s.owed == map[BySaver := false]
    ensures Next(s, Index(BySaver)) == s.(row := Some(false), owed := map[])
  {
  }

  lemma Exits(s: System)
    requires s.saver.Leaving? && s.owed == map[]
    ensures Next(s, Exit) == s.(saver := Absent)
  {
  }

  // ---------------------------------------------------------------- the case, edited in place

  class CaseFile {
    var held: Option<Held>

    constructor ()
      ensures held == None
    {
      held := None;
    }

    /** The transform `hold`; the answer says whether a new held save was begun. */
    method HoldBack(edits: Batch, reply: string, told: bool) returns (ok: bool, began: bool)
      modifies this
      ensures ok <==> Hold(old(held), edits, reply, told).Some?
      ensures ok ==> held == Hold(old(held), edits, reply, told).value && (began <==> old(held).None?)
    {
      began := false;
      if held.None? {
        held := Some(NOTHING);
        began := true;
      }
      if edits != [] {
        if |held.value.edits| >= MAX_BATCHES {
          return false, began;
        }
        held := Some(held.value.(edits := held.value.edits + [edits]));
      }
      if reply != "" {
        held := Some(held.value.(reply := reply));
      }
      held := Some(held.value.(told := held.value.told || told));
      ok := true;
    }

    /** The transform `saved`. */
    method RecordSaved(batches: seq<Batch>, reply: string)
      modifies this
      ensures held == SavedUp(old(held), batches, reply)
    {
      var current := if held.Some? then held.value else NOTHING;
      var left := if |batches| <= |current.edits| then current.edits[|batches|..] else [];
      var later := if current.reply != reply then current.reply else "";
      if left != [] || later != "" {
        current := current.(edits := left);
        held := Some(current.(reply := later));
      } else {
        held := None;
      }
    }
  }
}
