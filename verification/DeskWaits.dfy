/** When a case that waits is woken: the clock reading of the call plus the delay it asked for. */
module DeskWaits {
  import opened Options
  import opened DeskCase
  import opened DeskInbox
  import opened DeskTimer

  /** A wait for somebody, or for the confirmation of a resolution, with the delay it asks for. */
  predicate Asks(c: Change, delay: Option<real>) {
    (c.WaitFor? && c.followUpAfter == delay && Supported(c)) || (c.Resolve? && c.confirmWithin == delay)
  }

  /** After a wait or a resolution of a known case the stored wake-up is the clock reading of the call plus the delay, and none
      if there is no delay or it is zero; the case waits, its events and its count of errors stay. */
  lemma WaitsAreTimed(d: Doc, c: Change, delay: Option<real>, now: real)
    requires d.file.Some? && Asks(c, delay)
    ensures var r := Step(d, Edit(c, now));
      && r.file.Some? && r.active && r.seen == d.seen
      && var (f, g) := (d.file.value, r.file.value);
      && g.nextWakeAt == (if delay == None || delay == Some(0.0) then None else Some(now + delay.value))
      && g.status == (if c.Resolve? then Resolved else Waiting)
      && g.waiting.Some? && g.waiting.value.since == now
      && g.waiting.value.party == (if c.Resolve? then "confirmation" else c.party)
      && g.wakeReason == (if g.nextWakeAt == None then "" else if c.Resolve? then "No reply after resolution: close the case"
                          else "Follow up: " + c.reason)
      && g.waiting.value.reason == (if c.Resolve? then "Resolved; waiting for the requester to confirm" else c.reason)
      && g.pending == f.pending && g.errors == f.errors && g.turns == f.turns && g.timeline == f.timeline
  {
  }

  /** Asking for a wake-up at a time stores that time and its reason; taking it away leaves all else as it is. */
  lemma WakeUpsAreSet(d: Doc, at: real, reason: string, now: real)
    requires d.file.Some?
    ensures var f := d.file.value;
      && Step(d, Edit(WakeAt(at, reason), now)) ==
         d.(file := Some(f.(nextWakeAt := Some(at), wakeReason := reason, updatedAt := now)),
            active := f.status !in {Closed, Escalated, Cancelled})
      && Step(d, Edit(ClearWake, now)) ==
         d.(file := Some(f.(nextWakeAt := None, updatedAt := now)), active := f.status !in {Closed, Escalated, Cancelled})
  {
  }

  // ---------------------------------------------------------------- no early wake-up

  /** Nobody sets or takes away the stored wake-up of the case in this step; the loop itself may clear it. */
  predicate KeepsWake(s: System, a: Action, k: string) {
    a.Commit? && a.key == k && a.updater !in s.rows ==> WakeOf(Step(DocOf(s, k), a.op)) == WakeOf(DocOf(s, k))
  }

  predicate Holding(loop: Loop, k: string) {
    (loop.Decided? || loop.Cleared?) && loop.key == k
  }

  ghost predicate OnTime(s: System, k: string, at: real) {
    && (WakeOf(DocOf(s, k)) == Some(at) || WakeOf(DocOf(s, k)) == None)
    && (Holding(s.loop, k) ==> at - 1.0 <= s.now)
  }

  lemma NextOnTime(s: System, a: Action, k: string, at: real)
    requires OnTime(s, k, at) && LoopInv(s) && KeepsWake(s, a, k)
    ensures OnTime(Next(s, a), k, at)
  {
    hide Put, StepAlias, StepIndex, StepGet, StepClear, StepFire, StepPop, StepAwake, StepSleep, StepRestart, Top, AllLater,
         TimerOp, MayFire, DocOf, WakeOf, Step, LoopInv;
    match a {
      case Tick(_) => TickWake(s, a, k, at);
      case Commit(u, q, op) =>
        if u !in s.rows {
          PutWake(s, u, q, op, k);
          SameWake(s, Put(s, u, q, op), k, at);
        }
      case Fire(u, text) => if MayFire(s, u) { FireOnTime(s, u, text, k, at); }
      case Clear(u) => if s.loop.Decided? && u !in s.rows { ClearOnTime(s, u, k, at); }
      case Get => if s.loop.Popped? { GetOnTime(s, k, at); }
      case Alias(_, _) | Index(_) | Fail(_) | Awake | Pop(_, _) | Sleep | Restart =>
        NoDocs(s, a);
        FreeLoop(s, Next(s, a), k, at);
    }
  }

  lemma TickWake(s: System, a: Action, k: string, at: real)
    requires OnTime(s, k, at) && a.Tick?
    ensures OnTime(Next(s, a), k, at)
  {
  }

  lemma SameWake(s: System, r: System, k: string, at: real)
    requires OnTime(s, k, at) && r.loop == s.loop && r.now == s.now && WakeOf(DocOf(r, k)) == WakeOf(DocOf(s, k))
    ensures OnTime(r, k, at)
  {
    hide DocOf, WakeOf;
  }

  /** No case changed, and the loop holds nothing new. */
  predicate NoNews(s: System, r: System) {
    r.docs == s.docs && r.now == s.now && (r.loop == s.loop || (!r.loop.Decided? && !r.loop.Cleared?))
  }

  lemma NoDocs(s: System, a: Action)
    requires a.Alias? || a.Index? || a.Fail? || a.Awake? || a.Pop? || a.Sleep? || a.Restart?
    ensures NoNews(s, Next(s, a))
  {
    hide NoNews, StepAlias, StepIndex, StepGet, StepClear, StepFire, StepSleep, StepAwake, StepPop, StepRestart, Top, AllLater,
         MayFire, Put;
    SameNoNews(s);
    match a {
      case Alias(u, k) => AliasNoDocs(s, u, k);
      case Index(u) => if u in s.rows { IndexNoDocs(s, u); }
      case Fail(u) => FailNoDocs(s, u);
      case Sleep => SleepNoDocs(s);
      case Awake => if s.loop.Sleeping? { AwakeNoDocs(s); }
      case Pop(due, key) => if s.loop.Draining? { PopNoDocs(s, due, key); }
      case Restart => RestartNoDocs(s);
    }
  }

  lemma SameNoNews(s: System)
    ensures NoNews(s, s)
  {
  }

  lemma FailNoDocs(s: System, u: nat)
    ensures NoNews(s, s.(rows := s.rows - {u}))
  {
  }

  lemma AwakeNoDocs(s: System)
    requires s.loop.Sleeping?
    ensures NoNews(s, StepAwake(s))
  {
  }

  lemma PopNoDocs(s: System, due: real, key: string)
    requires s.loop.Draining?
    ensures NoNews(s, StepPop(s, due, key))
  {
  }

  lemma RestartNoDocs(s: System)
    ensures NoNews(s, StepRestart(s))
  {
    hide Rebuilt;
  }

  lemma AliasNoDocs(s: System, u: nat, k: string)
    ensures NoNews(s, StepAlias(s, u, k))
  {
    hide DocOf, RowOf;
  }

  lemma IndexNoDocs(s: System, u: nat)
    requires u in s.rows
    ensures NoNews(s, StepIndex(s, u))
  {
  }

  lemma SleepNoDocs(s: System)
    ensures NoNews(s, StepSleep(s))
  {
    hide Delay;
  }

  lemma FreeLoop(s: System, r: System, k: string, at: real)
    requires OnTime(s, k, at) && NoNews(s, r)
    ensures OnTime(r, k, at)
  {
    hide WakeOf;
  }

  lemma GetOnTime(s: System, k: string, at: real)
    requires OnTime(s, k, at) && LoopInv(s) && s.loop.Popped?
    ensures OnTime(StepGet(s), k, at)
  {
  }

  lemma ClearOnTime(s: System, u: nat, k: string, at: real)
    requires OnTime(s, k, at) && s.loop.Decided?
    ensures OnTime(StepClear(s, u), k, at)
  {
    hide Step;
    ClearWakes(DocOf(s, s.loop.key), s.now);
  }

  lemma FireOnTime(s: System, u: nat, text: string, k: string, at: real)
    requires OnTime(s, k, at) && MayFire(s, u)
    ensures OnTime(StepFire(s, u, text), k, at)
  {
    hide WakeOf, DocOf, TimerOp;
    FireWake(s, u, text, k);
    PutWake(s, u, s.loop.key, TimerOp(s, text), k);
  }

  lemma PutWake(s: System, u: nat, q: string, op: Op, k: string)
    ensures var r := Put(s, u, q, op);
      && r.loop == s.loop && r.now == s.now
      && WakeOf(DocOf(r, k)) ==
         if q == k && Effective(DocOf(s, k), op) then WakeOf(Step(DocOf(s, k), op)) else WakeOf(DocOf(s, k))
  {
    hide Step, Effective;
  }

  lemma ClearWakes(d: Doc, now: real)
    ensures WakeOf(Step(d, Edit(ClearWake, now))) == None
  {
  }

  /** An arriving event leaves the wake-up of the case alone. */
  lemma FireWake(s: System, u: nat, text: string, k: string)
    requires MayFire(s, u)
    ensures WakeOf(DocOf(StepFire(s, u, text), k)) == WakeOf(DocOf(s, k))
  {
    hide TimerEvent, Log;
    PutWake(s, u, s.loop.key, TimerOp(s, text), k);
  }

  lemma {:induction false} StaysOnTime(now: real, actions: seq<Action>, n: nat, k: string, at: real)
    requires n < |actions| && OnTime(Reach(Initial(now), actions[..n + 1]), k, at)
    requires forall j :: n < j < |actions| ==> KeepsWake(Reach(Initial(now), actions[..j]), actions[j], k)
    ensures OnTime(Reach(Initial(now), actions), k, at)
  {
    hide Next, Initial, OnTime, KeepsWake, LoopInv;
    if |actions| == n + 1 {
      assert actions[..n + 1] == actions;
    } else {
      var (before, a) := (actions[..|actions| - 1], actions[|actions| - 1]);
      assert before[..n + 1] == actions[..n + 1];
      forall j | n < j < |before| ensures KeepsWake(Reach(Initial(now), before[..j]), before[j], k) {
        assert before[..j] == actions[..j];
      }
      StaysOnTime(now, before, n, k, at);
      ReachLoop(now, before);
      NextOnTime(Reach(Initial(now), before), a, k, at);
    }
  }

  /** In every run: after a case was told to wait for some time, the loop does not clear and submit its wake-up earlier than
      one second before the clock reading of that call plus the delay, unless it had read the case before the call, or
      another update sets or takes away the wake-up in between. */
  lemma NoEarlyWakeUp(now: real, actions: seq<Action>, n: nat, k: string, delay: real)
    requires n < |actions| && actions[n].Commit? && actions[n].key == k && actions[n].op.Edit?
    requires var s := Reach(Initial(now), actions[..n]);
      && actions[n].updater !in s.rows && DocOf(s, k).file.Some? && Asks(actions[n].op.change, Some(delay)) && !Holding(s.loop, k)
    requires forall j :: n < j < |actions| ==> KeepsWake(Reach(Initial(now), actions[..j]), actions[j], k)
    ensures var z := Reach(Initial(now), actions);
      Holding(z.loop, k) ==> delay != 0.0 && actions[n].op.now + delay - 1.0 <= z.now
  {
    hide Reach, Initial, KeepsWake, Next, OnTime;
    var (s, z) := (Reach(Initial(now), actions[..n]), Reach(Initial(now), actions));
    var at := if delay == 0.0 then z.now + 2.0 else actions[n].op.now + delay;
    StepOf(now, actions, n);
    JustAsked(s, actions[n], k, delay, at);
    StaysOnTime(now, actions, n, k, at);
    OnTimeHolds(z, k, at);
  }

  lemma OnTimeHolds(s: System, k: string, at: real)
    requires OnTime(s, k, at)
    ensures Holding(s.loop, k) ==> at - 1.0 <= s.now
  {
  }

  lemma JustAsked(s: System, a: Action, k: string, delay: real, at: real)
    requires a.Commit? && a.key == k && a.op.Edit? && a.updater !in s.rows && DocOf(s, k).file.Some?
    requires Asks(a.op.change, Some(delay)) && !Holding(s.loop, k) && (delay != 0.0 ==> at == a.op.now + delay)
    ensures OnTime(Next(s, a), k, at)
  {
    hide Step, Asks;
    PutWake(s, a.updater, k, a.op, k);
    WaitsAreTimed(DocOf(s, k), a.op.change, Some(delay), a.op.now);
    EffectiveEdit(DocOf(s, k), a.op);
  }

  lemma EffectiveEdit(d: Doc, op: Op)
    requires op.Edit? && d.file.Some?
    ensures !Effective(d, op) ==> Step(d, op) == d
  {
  }

  lemma StepOf(now: real, actions: seq<Action>, n: nat)
    requires n < |actions|
    ensures Reach(Initial(now), actions[..n + 1]) == Next(Reach(Initial(now), actions[..n]), actions[n])
  {
    hide Initial, Next;
    assert actions[..n + 1][..n] == actions[..n];
  }
}
