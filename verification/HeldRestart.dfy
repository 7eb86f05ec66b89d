/** Restarts of held saves: which of them `resume` finds, and when the index row it reads tells the truth. */
module HeldRestart {
  import opened Options
  import opened HeldSaves

  /** After a crash a held save is taken up again, in every run, if and only if the restart looks at the row of the case and
      the row says that a save is held. */
  lemma ResumedIffRowSaysSo(actions: seq<Action>, listed: bool)
    requires Reach(Initial(), actions).held.Some?
    ensures var s := Reach(Initial(), actions);
      var resumed := Next(Next(s, Crash), Resume(listed));
      && resumed.held == s.held
      && (!Abandoned(resumed) <==> listed && s.row == Some(true))
      && (resumed.saver.Top? <==> listed && s.row == Some(true))
  {
    hide Reach, Initial, Hold, SavedUp;
  }

  // ---------------------------------------------------------------- when the row tells the truth

  /** The step changes or reads the case in a way that an index write follows, loses an index write that is owed, or gives
      up the row of a case with a held save. */
  predicate Comes(s: System, a: Action) {
    match a
    case Queue(c, edits, reply, told) => c !in s.callers && Hold(s.held, edits, reply, told).Some?
    case Touch(u) => ByOther(u) !in s.owed
    case Record => s.saver.Uploaded?
    case Drop => s.saver.Dropping?
    case CallerFails(c) => c in s.callers && ByCaller(c) in s.owed
    case DropRow(u) => ByOther(u) in s.owed
    case Die => BySaver in s.owed
    case Crash => true
    case _ => false
  }

  /** Nobody comes to the case, and nobody fails, while an index write for it is owed; and it keeps its row while a save is
      held. */
  predicate Prompt(s: System, a: Action) {
    (Comes(s, a) ==> s.owed == map[]) && (a.Prune? ==> s.held.None? && s.owed == map[])
  }

  ghost predicate RowInv(s: System) {
    && (forall who <- s.owed :: s.owed[who] == s.held.Some?)
    && (s.owed == map[] ==> (s.row == Some(true) <==> s.held.Some?))
    && (forall who <- s.owed, other <- s.owed :: who == other)
  }

  lemma NextRow(s: System, a: Action)
    requires RowInv(s) && Prompt(s, a)
    ensures RowInv(Next(s, a))
  {
    hide Hold, SavedUp, StepSend;
    match a {
      case Index(who) =>
        if who in s.owed {
          assert s.owed - {who} == map[];
        }
      case CallerFails(_) | DropRow(_) | Die => Unowed(s, a);
      case Send(u) => if s.saver.Saving? { SendFrame(s, u); }
      case Queue(c, edits, reply, told) =>
        var after := Hold(s.held, edits, reply, told);
        if c !in s.callers && after.Some? {
          OweRow(s, s.(held := after.value, callers := s.callers + {c},
                       queued := if edits != [] then s.queued + [edits] else s.queued), ByCaller(c));
        }
      case Touch(u) => if ByOther(u) !in s.owed { OweRow(s, s, ByOther(u)); }
      case Record =>
        if s.saver.Uploaded? {
          OweRow(s, s.(held := SavedUp(s.held, s.saver.batches, s.saver.reply), saver := Settled, failures := 0), BySaver);
        }
      case Drop =>
        if s.saver.Dropping? { OweRow(s, s.(held := None, saver := Leaving, queued := s.written), BySaver); }
      case Crash | StartSaver(_) | Prune =>
      case Look | TooLong | Retry | Again | Exit | Resume(_) =>
    }
  }

  lemma OweRow(s: System, out: System, who: Who)
    requires s.owed == map[] && out.owed == s.owed
    ensures RowInv(Owe(out, who))
  {
    assert who in Owe(out, who).owed;
  }

  lemma SendFrame(s: System, u: Upload)
    requires s.saver.Saving?
    ensures var r := StepSend(s, u); r.held == s.held && r.row == s.row && r.owed == s.owed
  {
  }

  /** Without an index write of its own, whoever fails leaves the owed ones alone. */
  lemma Unowed(s: System, a: Action)
    requires (a.CallerFails? || a.DropRow? || a.Die?) && Prompt(s, a)
    ensures Next(s, a).owed == s.owed && Next(s, a).row == s.row && Next(s, a).held == s.held
  {
    match a {
      case CallerFails(c) => if c in s.callers { assert s.owed - {ByCaller(c)} == s.owed; }
      case DropRow(u) => assert s.owed - {ByOther(u)} == s.owed;
      case Die => assert s.owed - {BySaver} == s.owed;
    }
  }

  lemma {:induction false} ReachRow(actions: seq<Action>)
    requires forall n :: 0 <= n < |actions| ==> Prompt(Reach(Initial(), actions[..n]), actions[n])
    ensures RowInv(Reach(Initial(), actions))
  {
    hide Next, RowInv, Initial, Prompt;
    if actions == [] {
      StartRow();
    } else {
      var before := actions[..|actions| - 1];
      forall n | 0 <= n < |before| ensures Prompt(Reach(Initial(), before[..n]), before[n]) {
        assert before[..n] == actions[..n];
      }
      ReachRow(before);
      NextRow(Reach(Initial(), before), actions[|before|]);
    }
  }

  lemma StartRow()
    ensures RowInv(Initial())
  {
  }

  /** As long as nobody comes to the case, fails or stops the process between an update of it and its index write, the row
      says exactly whether a save is held whenever no index write is owed; so a restart that looks at it takes every held
      save up again. */
  lemma PromptRunsResume(actions: seq<Action>)
    requires forall n :: 0 <= n < |actions| ==> Prompt(Reach(Initial(), actions[..n]), actions[n])
    requires Reach(Initial(), actions).owed == map[]
    ensures var s := Reach(Initial(), actions);
      (s.row == Some(true) <==> s.held.Some?) && !Abandoned(Next(Next(s, Crash), Resume(true)))
  {
    hide Reach, Initial, Prompt, Next;
    ReachRow(actions);
    var s := Reach(Initial(), actions);
    if s.held.Some? {
      ResumedIffRowSaysSo(actions, true);
    } else {
      NothingHeld(s);
    }
  }

  lemma NothingHeld(s: System)
    requires s.held.None?
    ensures !Abandoned(Next(Next(s, Crash), Resume(true)))
  {
  }

  // ---------------------------------------------------------------- held saves that a restart misses

  /** A process that stops between the queueing of changes and the index write, or a caller that is cancelled there, leaves
      a held save that no restart finds. */
  lemma StoppedBeforeTheIndex(edits: Batch)
    requires edits != []
    ensures Abandoned(Reach(Initial(), [Queue(0, edits, "", false), Crash, Resume(true)]))
    ensures Abandoned(Reach(Initial(), [Queue(0, edits, "", false), CallerFails(0), Resume(true)]))
  {
    hide Reach, Next;
    var none: seq<Action> := [];
    var queue := Queue(0, edits, "", false);
    ReachNothing();
    assert none + [queue] + [Crash] + [Resume(true)] == [queue, Crash, Resume(true)];
    assert none + [queue] + [CallerFails(0)] + [Resume(true)] == [queue, CallerFails(0), Resume(true)];
    ReachThree(none, queue, Crash, Resume(true));
    ReachThree(none, queue, CallerFails(0), Resume(true));
    NotIndexed(edits);
  }

  lemma NotIndexed(edits: Batch)
    requires edits != []
    ensures Abandoned(Next(Next(Next(Initial(), Queue(0, edits, "", false)), Crash), Resume(true)))
    ensures Abandoned(Next(Next(Next(Initial(), Queue(0, edits, "", false)), CallerFails(0)), Resume(true)))
  {
    var s := Next(Initial(), Queue(0, edits, "", false));
    assert s.held.Some? && s.callers == {0} && s.row == None;
  }

  /** An index write that comes late, with an older look at the case, hides a held save from the restart although its own
      row was written. */
  lemma LateRowHidesTheSave(edits: Batch)
    requires edits != []
    ensures exists actions :: (forall a <- actions :: Survives(a)) &&
              var s := Reach(Initial(), actions);
              s.held.Some? && s.owed == map[] && s.row == Some(false) && Abandoned(Next(Next(s, Crash), Resume(true)))
  {
    hide Reach, Next, Survives;
    var none: seq<Action> := [];
    var queue := Queue(0, edits, "", false);
    var first := none + [Touch(0)];
    var second := first + [queue] + [Index(ByCaller(0))] + [StartSaver(0)];
    var all := second + [Index(ByOther(0))];
    ReachNothing();
    ReachOne(none, Touch(0));
    Touches();
    ReachThree(first, queue, Index(ByCaller(0)), StartSaver(0));
    QueueIndexStart(Reach(Initial(), first), 0, edits);
    ReachOne(second, Index(ByOther(0)));
    OldRow(Reach(Initial(), second));
    ResumedIffRowSaysSo(all, true);
    forall a | a in all ensures Survives(a) {
      assert Survives(Touch(0)) && Survives(queue) && Survives(Index(ByCaller(0))) && Survives(StartSaver(0))
          && Survives(Index(ByOther(0))) by { AllSurvive(queue); }
    }
  }

  lemma Touches()
    ensures Next(Initial(), Touch(0)) == Initial().(owed := map[ByOther(0) := false])
  {
  }

  lemma OldRow(s: System)
    requires s.owed == map[ByOther(0) := false]
    ensures Next(s, Index(ByOther(0))) == s.(row := Some(false), owed := map[])
  {
  }

  lemma AllSurvive(queue: Action)
    requires queue.Queue?
    ensures Survives(Touch(0)) && Survives(queue) && Survives(Index(ByCaller(0))) && Survives(StartSaver(0))
            && Survives(Index(ByOther(0)))
  {
  }
}
