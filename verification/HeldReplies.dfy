/** Held saves: what becomes of a queued reply, of the promise to tell, and when a save is given up. */
module HeldReplies {
  import opened Options
  import opened HeldSaves

  // ---------------------------------------------------------------- what is queued

  /** Changes are refused exactly if six batches already wait; otherwise they stand last, and a reply takes the place of the one
      before it. */
  lemma SeventhBatchIsRefused(s: System, c: nat, edits: Batch, reply: string, told: bool)
    requires c !in s.callers
    ensures var (waiting, z) := (EditsOf(s.held), Next(s, Queue(c, edits, reply, told)));
      if edits != [] && |waiting| >= 6 then z == s
      else
        && z.held.Some? && c in z.callers
        && z.held.value.edits == (if edits != [] then waiting + [edits] else waiting)
        && z.held.value.reply == (if reply != "" then reply else if s.held.Some? then s.held.value.reply else "")
        && z.held.value.told == (told || (s.held.Some? && s.held.value.told))
  {
  }

  // ---------------------------------------------------------------- replies

  /** Step `n` of the run queued this reply. */
  ghost predicate RepliedAt(actions: seq<Action>, n: nat, reply: string)
    requires n < |actions|
  {
    Replies(Reach(Initial(), actions[..n]), actions[n]) && actions[n].reply == reply
  }

  predicate Replies(s: System, a: Action) {
    a.Queue? && a.caller !in s.callers && Hold(s.held, a.edits, a.reply, a.told).Some? && a.reply != ""
  }

  /** Step `m` of the run recorded a save that had this reply with it. */
  ghost predicate SavedAt(actions: seq<Action>, m: nat, reply: string)
    requires m < |actions|
  {
    var s := Reach(Initial(), actions[..m]);
    actions[m].Record? && s.saver.Uploaded? && s.saver.reply == reply
  }

  predicate Keeps(s: System, a: Action) {
    !Replies(s, a) && !Drops(s, a)
  }

  lemma NextReply(s: System, a: Action, reply: string)
    requires s.held.Some? && s.held.value.reply == reply && reply != "" && Keeps(s, a)
    ensures var r := Next(s, a);
      (r.held.Some? && r.held.value.reply == reply) || (a.Record? && s.saver.Uploaded? && s.saver.reply == reply)
  {
    if a.Send? && s.saver.Saving? { SendHolds(s, a.upload); }
    hide StepSend;
  }

  lemma SendHolds(s: System, u: Upload)
    requires s.saver.Saving?
    ensures StepSend(s, u).held == s.held
  {
  }

  lemma SavedLonger(before: seq<Action>, a: Action, m: nat, reply: string)
    requires m < |before| && SavedAt(before, m, reply)
    ensures SavedAt(before + [a], m, reply)
  {
    hide Reach, Initial;
    assert (before + [a])[..m] == before[..m];
  }

  /** In every run, a queued reply is still held or went out with a recorded save, as long as nobody queued another one and the
      save was not dropped. */
  lemma {:induction false} ReplyIsKept(actions: seq<Action>, n: nat, reply: string)
    requires n < |actions| && RepliedAt(actions, n, reply)
    requires forall m :: n < m < |actions| ==> Keeps(Reach(Initial(), actions[..m]), actions[m])
    ensures var s := Reach(Initial(), actions);
      || (s.held.Some? && s.held.value.reply == reply)
      || exists m :: n < m < |actions| && SavedAt(actions, m, reply)
  {
    hide Next, Initial, SavedAt, Keeps;
    var (before, a) := (actions[..|actions| - 1], actions[|actions| - 1]);
    assert actions == before + [a];
    if n == |before| {
      assert actions[..n] == before;
      NowReplied(Reach(Initial(), before), a);
    } else {
      assert before[..n] == actions[..n];
      forall m | n < m < |before| ensures Keeps(Reach(Initial(), before[..m]), before[m]) {
        assert before[..m] == actions[..m];
      }
      ReplyIsKept(before, n, reply);
      var s := Reach(Initial(), before);
      assert actions[..|before|] == before;
      if s.held.Some? && s.held.value.reply == reply {
        NextReply(s, a, reply);
        if a.Record? && s.saver.Uploaded? && s.saver.reply == reply { NowSaved(before, a, reply); }
      } else {
        var m :| n < m < |before| && SavedAt(before, m, reply);
        SavedLonger(before, a, m, reply);
      }
    }
  }

  lemma NowReplied(s: System, a: Action)
    requires Replies(s, a)
    ensures Next(s, a).held.Some? && Next(s, a).held.value.reply == a.reply
  {
  }

  lemma NowSaved(before: seq<Action>, a: Action, reply: string)
    requires var s := Reach(Initial(), before); a.Record? && s.saver.Uploaded? && s.saver.reply == reply
    ensures SavedAt(before + [a], |before|, reply)
  {
    hide Reach, Initial;
    assert (before + [a])[..|before|] == before;
  }

  // ---------------------------------------------------------------- the promise to tell

  lemma NextTold(s: System, a: Action)
    requires s.held.Some? && s.held.value.told && Next(s, a).held.Some?
    ensures Next(s, a).held.value.told
  {
    if a.Send? && s.saver.Saving? { SendHolds(s, a.upload); }
    hide StepSend;
  }

  /** Once the requester was told that a save is held, the promise to tell the outcome stays as long as one is held. */
  lemma {:induction false} PromiseIsKept(s: System, actions: seq<Action>, c: nat, edits: Batch, reply: string)
    requires c !in s.callers && Hold(s.held, edits, reply, true).Some?
    requires forall m :: 0 <= m <= |actions| ==> Reach(Next(s, Queue(c, edits, reply, true)), actions[..m]).held.Some?
    ensures var z := Reach(Next(s, Queue(c, edits, reply, true)), actions); z.held.Some? && z.held.value.told
  {
    hide Next;
    var z := Next(s, Queue(c, edits, reply, true));
    assert actions[..|actions|] == actions;
    if actions == [] {
      NowTold(s, c, edits, reply);
    } else {
      var before := actions[..|actions| - 1];
      forall m | 0 <= m <= |before| ensures Reach(z, before[..m]).held.Some? {
        assert before[..m] == actions[..m];
      }
      PromiseIsKept(s, before, c, edits, reply);
      NextTold(Reach(z, before), actions[|actions| - 1]);
    }
  }

  lemma NowTold(s: System, c: nat, edits: Batch, reply: string)
    requires c !in s.callers && Hold(s.held, edits, reply, true).Some?
    ensures var z := Next(s, Queue(c, edits, reply, true)); z.held.Some? && z.held.value.told
  {
  }

  // ---------------------------------------------------------------- giving up

  /** Uploads that did not reach the service, since the saver started or last recorded a save. */
  function Misses(actions: seq<Action>): nat {
    if actions == [] then 0
    else
      var before := actions[..|actions| - 1];
      var (s, a) := (Reach(Initial(), before), actions[|actions| - 1]);
      if s.saver.Absent? && Next(s, a).saver.Top? then 0
      else if s.saver.Uploaded? && a.Record? then 0
      else if s.saver.Saving? && a == Send(Unreachable) then Misses(before) + 1
      else Misses(before)
  }

  lemma {:induction false} FailuresAreMisses(actions: seq<Action>)
    ensures Reach(Initial(), actions).failures == Misses(actions)
  {
    if actions != [] {
      var (before, a) := (actions[..|actions| - 1], actions[|actions| - 1]);
      FailuresAreMisses(before);
      NextFailures(Reach(Initial(), before), a);
    }
  }

  lemma NextFailures(s: System, a: Action)
    ensures Next(s, a).failures ==
            if s.saver.Absent? && Next(s, a).saver.Top? then 0
            else if s.saver.Uploaded? && a.Record? then 0
            else if s.saver.Saving? && a == Send(Unreachable) then s.failures + 1 else s.failures
  {
    hide Hold, SavedUp;
  }

  /** In every run, a saver gives its save up exactly when it has waited too long, when the document cannot take the changes any
      more, or when the fifth upload since it started or last recorded a save does not reach the service. */
  lemma GivesUpIff(actions: seq<Action>, a: Action)
    requires !Reach(Initial(), actions).saver.Dropping?
    ensures var s := Reach(Initial(), actions);
      Next(s, a).saver.Dropping? <==>
      || (a.TooLong? && s.saver.Waiting?)
      || (s.saver.Saving? && (a == Send(Refused) || (a == Send(Unreachable) && Misses(actions) >= 4)))
  {
    hide Reach, Initial, Misses, Hold, SavedUp;
    FailuresAreMisses(actions);
  }
}
