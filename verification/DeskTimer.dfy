/** The durable timers of the desk: a heap with stale entries against the wake-up each case has stored. */
module DeskTimer {
  import opened Options
  import opened DeskCase
  import opened DeskInbox

  /** The index row of a case, as the update before it or a later reading left the case. */
  datatype Row = Row(key: string, nextWakeAt: Option<real>, open: bool)

  /** Where the timer loop stands. `asOf` is the clock reading of this round, `seen` the wake-up read by `get`. */
  datatype Loop =
    | Draining(asOf: real)
    | Popped(asOf: real, due: real, key: string)
    | Decided(asOf: real, due: real, key: string, seen: real)
    | Cleared(asOf: real, due: real, key: string, updater: nat)
    | Sleeping(since: real, until: real)

  /** `docs` and `index` are stored; `rows` are the index writes still owed, each by the call that read or wrote the case.
      Once `Index` has stored its row it also pushes the heap entry. */
  datatype System = System(now: real, docs: map<string, Doc>, index: map<string, Row>, rows: map<nat, Row>,
                           agenda: multiset<(real, string)>, wake: bool, loop: Loop)

  datatype Action =
    | Tick(elapsed: real)
    | Commit(updater: nat, key: string, op: Op)
    | Alias(updater: nat, key: string)
    | Index(updater: nat)
    | Fail(updater: nat)
    | Awake
    | Pop(due: real, key: string)
    | Get
    | Clear(updater: nat)
    | Fire(updater: nat, text: string)
    | Sleep
    | Restart

  const LONGEST := 900.0
  const SHORTEST := 0.5

  function DocOf(s: System, k: string): Doc {
    if k in s.docs then s.docs[k] else EMPTY
  }

  predicate Open(d: Doc) {
    d.file.Some? && !Final(d.file.value.status)
  }

  function WakeOf(d: Doc): Option<real> {
    if d.file.Some? then d.file.value.nextWakeAt else None
  }

  /** The case is open and wants to be woken. */
  predicate Due(d: Doc) {
    Open(d) && Wakes(WakeOf(d))
  }

  predicate Near(a: real, b: real) {
    -1.0 <= a - b <= 1.0
  }

  function Decimal(n: nat): string {
    if n < 10 then ["0123456789"[n]] else Decimal(n / 10) + ["0123456789"[n % 10]]
  }

  /** `f"timer:{key}:{int(due)}"`; the conversion truncates toward zero. */
  function TimerId(key: string, due: real): string {
    "timer:" + key + ":" + if due >= 0.0 then Decimal(due.Floor)
                           else if due > -1.0 then "0" else "-" + Decimal((-due).Floor)
  }

  function TimerEvent(key: string, due: real, text: string, now: real): Event {
    Event(TimerId(key, due), "timer", "timer", "", "", text, now)
  }

  // ---------------------------------------------------------------- steps

  /** Ignored events, empty takes and refused updates write nothing and no index row follows. */
  predicate Effective(d: Doc, op: Op) {
    match op
    case Arrive(e, known, _, _) => !Ignored(d, e, known)
    case TakeAll => Pending(d) != []
    case Edit(c, now) => Update(d, c, now).Some?
  }

  function Put(s: System, u: nat, k: string, op: Op): System {
    if !Effective(DocOf(s, k), op) then s
    else
      var d := Step(DocOf(s, k), op);
      s.(docs := s.docs[k := d], rows := s.rows[u := RowOf(k, d)])
  }

  function RowOf(k: string, d: Doc): Row {
    Row(k, WakeOf(d), Open(d))
  }

  /** `alias` writes the row of the case as it reads it. */
  function StepAlias(s: System, u: nat, k: string): System {
    if DocOf(s, k).file.Some? then s.(rows := s.rows[u := RowOf(k, DocOf(s, k))]) else s
  }

  function StepIndex(s: System, u: nat): System
    requires u in s.rows
  {
    var row := s.rows[u];
    var out := s.(rows := s.rows - {u}, index := s.index[row.key := row]);
    if Wakes(row.nextWakeAt) && row.open then
      out.(agenda := s.agenda + multiset{(row.nextWakeAt.value, row.key)}, wake := true)
    else out
  }

  function StepGet(s: System): System
    requires s.loop.Popped?
  {
    var d := DocOf(s, s.loop.key);
    if Due(d) && Near(WakeOf(d).value, s.loop.due) then
      s.(loop := Decided(s.loop.asOf, s.loop.due, s.loop.key, WakeOf(d).value))
    else s.(loop := Draining(s.loop.asOf))
  }

  function StepClear(s: System, u: nat): System
    requires s.loop.Decided?
  {
    var (k, d) := (s.loop.key, Step(DocOf(s, s.loop.key), Edit(ClearWake, s.now)));
    s.(docs := s.docs[k := d], rows := s.rows[u := RowOf(k, d)], loop := Cleared(s.loop.asOf, s.loop.due, k, u))
  }

  function TimerOp(s: System, text: string): Op
    requires s.loop.Cleared?
  {
    Arrive(TimerEvent(s.loop.key, s.loop.due, text, s.now), false, "", s.now)
  }

  function StepFire(s: System, u: nat, text: string): System
    requires s.loop.Cleared?
  {
    Put(s, u, s.loop.key, TimerOp(s, text)).(loop := Draining(s.loop.asOf))
  }

  predicate Top(agenda: multiset<(real, string)>, due: real, key: string) {
    (due, key) in agenda && forall e <- agenda :: due <= e.0
  }

  predicate AllLater(agenda: multiset<(real, string)>, at: real) {
    forall e <- agenda :: e.0 > at
  }

  ghost function Delay(agenda: multiset<(real, string)>, now: real): real {
    if agenda == multiset{} then LONGEST
    else
      var due := Earliest(agenda);
      var wait := if due - now > SHORTEST then due - now else SHORTEST;
      if wait < LONGEST then wait else LONGEST
  }

  /** The time on top of the heap. */
  ghost function Earliest(agenda: multiset<(real, string)>): (due: real)
    requires agenda != multiset{}
    ensures forall e <- agenda :: due <= e.0
    ensures exists e :: e in agenda && e.0 == due
    decreases |agenda|
  {
    EarliestExists(agenda);
    var due :| IsEarliest(agenda, due);
    due
  }

  ghost predicate IsEarliest(agenda: multiset<(real, string)>, due: real) {
    (exists e :: e in agenda && e.0 == due) && forall e <- agenda :: due <= e.0
  }

  lemma EarliestExists(agenda: multiset<(real, string)>)
    requires agenda != multiset{}
    ensures exists due :: IsEarliest(agenda, due)
    decreases |agenda|
  {
    var e :| e in agenda;
    var rest := agenda - multiset{e};
    if rest == multiset{} {
      assert agenda == multiset{e};
      assert IsEarliest(agenda, e.0);
    } else {
      EarliestExists(rest);
      var due :| IsEarliest(rest, due);
      assert agenda == rest + multiset{e};
      assert IsEarliest(agenda, if due <= e.0 then due else e.0);
    }
  }

  function StepAwake(s: System): System
    requires s.loop.Sleeping?
  {
    s.(wake := false, loop := Draining(s.now))
  }

  function StepPop(s: System, due: real, key: string): System
    requires s.loop.Draining?
  {
    s.(agenda := s.agenda - multiset{(due, key)}, loop := Popped(s.loop.asOf, due, key))
  }

  ghost function StepSleep(s: System): System {
    s.(loop := Sleeping(s.now, s.now + Delay(s.agenda, s.now)))
  }

  function StepRestart(s: System): System {
    s.(rows := map[], agenda := Rebuilt(s.index), wake := false, loop := Draining(s.now))
  }

  /** An action that is not possible now changes nothing. */
  ghost function Next(s: System, a: Action): System {
    match a
    case Tick(elapsed) => if elapsed >= 0.0 then s.(now := s.now + elapsed) else s
    case Commit(u, k, op) => if u in s.rows then s else Put(s, u, k, op)
    case Alias(u, k) => if u in s.rows then s else StepAlias(s, u, k)
    case Index(u) => if u in s.rows then StepIndex(s, u) else s
    case Fail(u) => if s.loop.Cleared? && s.loop.updater == u then s else s.(rows := s.rows - {u})
    case Awake => if s.loop.Sleeping? && (s.wake || s.now >= s.loop.until) then StepAwake(s) else s
    case Pop(due, k) =>
      if s.loop.Draining? && Top(s.agenda, due, k) && due <= s.loop.asOf then StepPop(s, due, k) else s
    case Get => if s.loop.Popped? then StepGet(s) else s
    case Clear(u) => if s.loop.Decided? && u !in s.rows then StepClear(s, u) else s
    case Fire(u, text) => if MayFire(s, u) then StepFire(s, u, text) else s
    case Sleep => if s.loop.Draining? && AllLater(s.agenda, s.loop.asOf) then StepSleep(s) else s
    case Restart => StepRestart(s)
  }

  /** The index write of the clear comes first. */
  predicate MayFire(s: System, u: nat) {
    s.loop.Cleared? && s.loop.updater !in s.rows && u !in s.rows
  }

  /** `_rebuild_agenda`: from the stored rows, not from the cases. */
  function Rebuilt(index: map<string, Row>): multiset<(real, string)> {
    multiset(set k | k in index && Wakes(index[k].nextWakeAt) && index[k].open :: (index[k].nextWakeAt.value, k))
  }

  function Initial(now: real): System {
    System(now, map[], map[], map[], multiset{}, false, Draining(now))
  }

  ghost function Reach(s: System, actions: seq<Action>): System {
    if actions == [] then s else Next(Reach(s, actions[..|actions| - 1]), actions[|actions| - 1])
  }

  // ---------------------------------------------------------------- every wake-up is covered

  predicate InFlight(loop: Loop, at: real, k: string) {
    (loop.Popped? || loop.Decided?) && loop.key == k && loop.due == at
  }

  /** The stored wake-up of an open case is in the heap, on its way there, or in the hands of the loop. */
  ghost predicate Covered(s: System, k: string) {
    Due(DocOf(s, k)) ==>
      var at := WakeOf(DocOf(s, k)).value;
      || (at, k) in s.agenda
      || (exists u :: u in s.rows && s.rows[u] == Row(k, Some(at), true))
      || InFlight(s.loop, at, k)
  }

  /** The stored row of an open case shows the wake-up that is stored with the case. */
  ghost predicate Agrees(s: System, k: string) {
    Due(DocOf(s, k)) ==>
      k in s.index && s.index[k].open && s.index[k].nextWakeAt == WakeOf(DocOf(s, k))
  }

  /** This index write is all that would bring the wake-up of the case into the heap, and its owner fails. */
  predicate LosesRow(s: System, a: Action, k: string) {
    && a.Fail? && a.updater in s.rows && !(s.loop.Cleared? && s.loop.updater == a.updater) && Due(DocOf(s, k))
    && var at := WakeOf(DocOf(s, k)).value;
    && s.rows[a.updater] == Row(k, Some(at), true) && (at, k) !in s.agenda && !InFlight(s.loop, at, k)
    && forall u <- s.rows :: s.rows[u] == Row(k, Some(at), true) ==> u == a.updater
  }

  /** The step takes the wake-up of the case out of the timer. */
  ghost predicate Drops(s: System, a: Action, k: string) {
    (a.Restart? && !Agrees(s, k)) || LosesRow(s, a, k)
  }

  /** The case is updated or read, so that a row with its present wake-up is owed, or its wake-up is cleared. */
  predicate Revisits(s: System, a: Action, k: string) {
    match a
    case Commit(u, q, op) => q == k && u !in s.rows && Effective(DocOf(s, k), op)
    case Alias(u, q) => q == k && u !in s.rows && DocOf(s, k).file.Some?
    case Clear(u) => s.loop.Decided? && s.loop.key == k && u !in s.rows
    case Fire(u, text) => MayFire(s, u) && s.loop.key == k && Effective(DocOf(s, k), TimerOp(s, text))
    case _ => false
  }

  lemma PutCovers(s: System, u: nat, k: string, op: Op, q: string)
    requires u !in s.rows
    ensures Covered(Put(s, u, k, op), q) <==> Covered(s, q) || (q == k && Effective(DocOf(s, k), op))
  {
    hide Step, Effective;
    var r := Put(s, u, k, op);
    if !Effective(DocOf(s, k), op) {
      assert r == s;
    } else if q == k {
      assert u in r.rows;
    } else if Due(DocOf(s, q)) {
      OtherRows(s, r, u, q);
    }
  }

  /** One more owed row changes nothing for the other cases. */
  lemma OtherRows(s: System, r: System, u: nat, q: string)
    requires u !in s.rows && u in r.rows && r.rows == s.rows[u := r.rows[u]] && r.rows[u].key != q
    requires DocOf(r, q) == DocOf(s, q) && r.agenda == s.agenda
    requires forall at: real :: InFlight(s.loop, at, q) <==> InFlight(r.loop, at, q)
    ensures Covered(r, q) <==> Covered(s, q)
  {
    if Due(DocOf(s, q)) {
      var at := WakeOf(DocOf(s, q)).value;
      assert (exists v :: v in s.rows && s.rows[v] == Row(q, Some(at), true)) <==>
             (exists v :: v in r.rows && r.rows[v] == Row(q, Some(at), true)) by {
        if v :| v in s.rows && s.rows[v] == Row(q, Some(at), true) {
          assert v in r.rows && r.rows[v] == Row(q, Some(at), true);
        }
      }
    }
  }

  lemma AliasCovers(s: System, u: nat, k: string, q: string)
    requires u !in s.rows
    ensures Covered(StepAlias(s, u, k), q) <==> Covered(s, q) || (q == k && DocOf(s, k).file.Some?)
  {
    var r := StepAlias(s, u, k);
    if DocOf(s, k).file.Some? {
      if q == k {
        assert u in r.rows;
      } else {
        OtherRows(s, r, u, q);
      }
    }
  }

  lemma IndexCovers(s: System, u: nat, q: string)
    requires u in s.rows
    ensures Covered(StepIndex(s, u), q) <==> Covered(s, q)
  {
    var r := StepIndex(s, u);
    if Due(DocOf(s, q)) {
      var at := WakeOf(DocOf(s, q)).value;
      if v :| v in s.rows && s.rows[v] == Row(q, Some(at), true) {
        if v != u {
          assert v in r.rows && r.rows[v] == Row(q, Some(at), true);
        } else {
          assert (at, q) in r.agenda;
        }
      }
      if (at, q) in r.agenda && (at, q) !in s.agenda {
        assert s.rows[u] == Row(q, Some(at), true);
      }
      if v :| v in r.rows && r.rows[v] == Row(q, Some(at), true) {
        assert v in s.rows && s.rows[v] == Row(q, Some(at), true);
      }
    }
  }

  /** A restart covers a case exactly when its row agrees. */
  lemma RestartCovers(s: System, q: string)
    ensures Covered(StepRestart(s), q) <==> Agrees(s, q)
  {
    if Due(DocOf(s, q)) {
      var at := WakeOf(DocOf(s, q)).value;
      var entries := set k | k in s.index && Wakes(s.index[k].nextWakeAt) && s.index[k].open :: (s.index[k].nextWakeAt.value, k);
      if Agrees(s, q) {
        assert (s.index[q].nextWakeAt.value, q) in entries;
      }
      assert (at, q) in StepRestart(s).agenda <==> (at, q) in entries;
    }
  }

  lemma SameCovers(s: System, r: System, q: string)
    requires DocOf(r, q) == DocOf(s, q) && r.rows == s.rows
    requires forall at: real :: (at, q) in s.agenda || InFlight(s.loop, at, q) <==> (at, q) in r.agenda || InFlight(r.loop, at, q)
    ensures Covered(r, q) <==> Covered(s, q)
  {
  }

  lemma ClearCovers(s: System, u: nat, q: string)
    requires s.loop.Decided? && u !in s.rows
    ensures Covered(StepClear(s, u), q) <==> Covered(s, q) || q == s.loop.key
  {
    var r := StepClear(s, u);
    if q == s.loop.key {
      assert !Wakes(WakeOf(DocOf(r, q)));
    } else {
      hide Step;
      OtherRows(s, r, u, q);
    }
  }

  lemma GetCovers(s: System, q: string)
    requires s.loop.Popped?
    ensures Covered(StepGet(s), q) <==> Covered(s, q)
  {
  }

  lemma FireCovers(s: System, u: nat, text: string, q: string)
    requires s.loop.Cleared? && u !in s.rows
    ensures Covered(StepFire(s, u, text), q) <==>
            Covered(s, q) || (q == s.loop.key && Effective(DocOf(s, q), TimerOp(s, text)))
  {
    hide Covered, Put, Step, Effective, TimerOp;
    PutCovers(s, u, s.loop.key, TimerOp(s, text), q);
    PutLoop(s, u, s.loop.key, TimerOp(s, text));
    DrainingCovers(Put(s, u, s.loop.key, TimerOp(s, text)), s.loop.asOf, q);
  }

  lemma PutLoop(s: System, u: nat, k: string, op: Op)
    ensures var r := Put(s, u, k, op); r.loop == s.loop && r.now == s.now && r.agenda == s.agenda && r.wake == s.wake
  {
    hide Step, Effective;
  }

  lemma DrainingCovers(s: System, asOf: real, q: string)
    requires !s.loop.Popped? && !s.loop.Decided?
    ensures Covered(s.(loop := Draining(asOf)), q) <==> Covered(s, q)
  {
  }

  lemma PopCovers(s: System, due: real, k: string, q: string)
    requires s.loop.Draining? && (due, k) in s.agenda
    ensures Covered(StepPop(s, due, k), q) <==> Covered(s, q)
  {
    hide Covered;
    var r := StepPop(s, due, k);
    forall at: real
      ensures (at, q) in s.agenda || InFlight(s.loop, at, q) <==> (at, q) in r.agenda || InFlight(r.loop, at, q)
    {
      if (at, q) != (due, k) {
        assert r.agenda[(at, q)] == s.agenda[(at, q)];
      }
    }
    SameCovers(s, r, q);
  }

  lemma AwakeCovers(s: System, q: string)
    requires s.loop.Sleeping?
    ensures Covered(StepAwake(s), q) <==> Covered(s, q)
  {
  }

  lemma FailCovers(s: System, u: nat, q: string)
    ensures Covered(Next(s, Fail(u)), q) <==> Covered(s, q) && !LosesRow(s, Fail(u), q)
  {
    hide WakeOf;
    var r := Next(s, Fail(u));
    assert DocOf(r, q) == DocOf(s, q);
    if Due(DocOf(s, q)) && !(s.loop.Cleared? && s.loop.updater == u) {
      var at := WakeOf(DocOf(s, q)).value;
      var row := Row(q, Some(at), true);
      assert InFlight(r.loop, at, q) <==> InFlight(s.loop, at, q);
      if v :| v in s.rows && v != u && s.rows[v] == row {
        assert v in r.rows && r.rows[v] == row;
      } else {
        assert forall v <- r.rows :: r.rows[v] != row;
      }
    }
  }

  /** What every step makes of the coverage of a case: only a restart whose row does not agree, or the failure of the one
      index write that matters, takes it away. */
  lemma NextCovers(s: System, a: Action, q: string)
    ensures Covered(Next(s, a), q) <==>
            if a.Restart? then Agrees(s, q) else (Covered(s, q) && !LosesRow(s, a, q)) || Revisits(s, a, q)
  {
    hide Covered, Put, StepIndex, StepAlias, StepGet, StepClear, StepFire, Rebuilt, StepPop, StepAwake, StepRestart, AllLater,
         Delay, Effective, Agrees, LosesRow;
    OnlyFailures(s, a, q);
    match a {
      case Tick(_) => SameCovers(s, Next(s, a), q);
      case Commit(u, k, op) => if u !in s.rows { PutCovers(s, u, k, op, q); }
      case Alias(u, k) => if u !in s.rows { AliasCovers(s, u, k, q); }
      case Index(u) => if u in s.rows { IndexCovers(s, u, q); }
      case Fail(u) => FailCovers(s, u, q);
      case Awake => if s.loop.Sleeping? { AwakeCovers(s, q); }
      case Pop(due, k) => if s.loop.Draining? && Top(s.agenda, due, k) { PopCovers(s, due, k, q); }
      case Get => if s.loop.Popped? { GetCovers(s, q); }
      case Clear(u) => if s.loop.Decided? && u !in s.rows { ClearCovers(s, u, q); }
      case Fire(u, text) => if MayFire(s, u) { FireCovers(s, u, text, q); }
      case Sleep => SameCovers(s, Next(s, a), q);
      case Restart => RestartCovers(s, q);
    }
  }

  lemma OnlyFailures(s: System, a: Action, q: string)
    ensures !a.Fail? ==> !LosesRow(s, a, q)
  {
  }

  // ---------------------------------------------------------------- on time

  /** What the loop holds was due when it looked, and it never sleeps past an entry by more than half a second. */
  ghost predicate LoopInv(s: System) {
    match s.loop
    case Draining(asOf) => asOf <= s.now
    case Popped(asOf, due, _) => due <= asOf <= s.now
    case Decided(asOf, due, _, seen) => due <= asOf <= s.now && Near(seen, due)
    case Cleared(asOf, due, _, _) => due <= asOf <= s.now
    case Sleeping(since, until) =>
      since <= s.now && (s.wake || forall e <- s.agenda :: until <= e.0 || until <= since + SHORTEST)
  }

  lemma NextLoop(s: System, a: Action)
    requires LoopInv(s)
    ensures LoopInv(Next(s, a))
  {
    hide LoopInv, Put, StepAlias, StepIndex, StepGet, StepClear, StepFire, StepPop, StepAwake, StepSleep, StepRestart, Top,
         AllLater, TimerOp, MayFire;
    match a {
      case Tick(elapsed) => if elapsed >= 0.0 { TickLoop(s, elapsed); }
      case Commit(u, k, op) => if u !in s.rows { PutLoop(s, u, k, op); SameLoop(s, Put(s, u, k, op)); }
      case Alias(u, k) => if u !in s.rows { AliasLoop(s, u, k); }
      case Index(u) => if u in s.rows { IndexLoop(s, u); }
      case Fail(_) => SameLoop(s, Next(s, a));
      case Fire(u, text) => if MayFire(s, u) { FireLoop(s, u, text); }
      case Sleep => SleepLoop(s);
      case Awake | Pop(_, _) | Get | Clear(_) | Restart => OwnLoop(s, a);
    }
  }

  lemma TickLoop(s: System, elapsed: real)
    requires LoopInv(s) && elapsed >= 0.0
    ensures LoopInv(s.(now := s.now + elapsed))
  {
  }

  lemma SameLoop(s: System, r: System)
    requires LoopInv(s) && r.loop == s.loop && r.now == s.now && r.agenda == s.agenda && r.wake == s.wake
    ensures LoopInv(r)
  {
  }

  lemma AliasLoop(s: System, u: nat, k: string)
    requires LoopInv(s)
    ensures LoopInv(StepAlias(s, u, k))
  {
    hide LoopInv, DocOf;
    SameLoop(s, StepAlias(s, u, k));
  }

  lemma IndexLoop(s: System, u: nat)
    requires LoopInv(s) && u in s.rows
    ensures LoopInv(StepIndex(s, u))
  {
  }

  lemma FireLoop(s: System, u: nat, text: string)
    requires LoopInv(s) && MayFire(s, u)
    ensures LoopInv(StepFire(s, u, text))
  {
    hide Put, TimerOp;
    PutLoop(s, u, s.loop.key, TimerOp(s, text));
  }

  lemma SleepLoop(s: System)
    requires LoopInv(s)
    ensures LoopInv(StepSleep(s))
  {
    hide IsEarliest;
  }

  /** The steps of the loop itself. */
  lemma OwnLoop(s: System, a: Action)
    requires LoopInv(s) && (a.Awake? || a.Pop? || a.Get? || a.Clear? || a.Restart?)
    ensures LoopInv(Next(s, a))
  {
    hide Put, StepAlias, StepIndex, StepFire, StepSleep, Step, Rebuilt, AllLater, DocOf, RowOf, TimerOp, MayFire;
  }

  lemma Start(now: real, q: string)
    ensures Covered(Initial(now), q) && LoopInv(Initial(now))
  {
  }

  lemma {:induction false} ReachLoop(now: real, actions: seq<Action>)
    ensures LoopInv(Reach(Initial(now), actions))
  {
    hide Next, LoopInv, Initial;
    if actions == [] {
      Start(now, "");
    } else {
      ReachLoop(now, actions[..|actions| - 1]);
      NextLoop(Reach(Initial(now), actions[..|actions| - 1]), actions[|actions| - 1]);
    }
  }

  /** Step `n` of the run drops the wake-up of the case, and nobody comes back to the case later in the run, nor does a
      restart find an agreeing row. */
  ghost predicate LeftFrom(now: real, actions: seq<Action>, n: nat, k: string)
    requires n < |actions|
  {
    && Drops(Reach(Initial(now), actions[..n]), actions[n], k)
    && forall m :: n < m < |actions| ==>
         var s := Reach(Initial(now), actions[..m]);
         !Revisits(s, actions[m], k) && (actions[m].Restart? ==> !Agrees(s, k))
  }

  lemma LeftLonger(now: real, before: seq<Action>, a: Action, n: nat, k: string)
    requires n < |before|
    ensures LeftFrom(now, before + [a], n, k) <==>
            && LeftFrom(now, before, n, k)
            && var s := Reach(Initial(now), before);
               !Revisits(s, a, k) && (a.Restart? ==> !Agrees(s, k))
  {
    hide Reach, Initial, Revisits, Agrees, LosesRow;
    var all := before + [a];
    assert forall m :: 0 <= m <= |before| ==> all[..m] == before[..m];
    assert all[|before|] == a && before[..|before|] == before;
  }

  lemma LeftLast(now: real, before: seq<Action>, a: Action, k: string)
    ensures LeftFrom(now, before + [a], |before|, k) <==> Drops(Reach(Initial(now), before), a, k)
  {
    hide Reach, Initial, Revisits, Agrees, LosesRow;
    assert (before + [a])[..|before|] == before;
  }

  /** In every run: the stored wake-up of a case has dropped out of the timer exactly when some restart found a row that
      did not agree with the case, or its index write failed, and nobody has come back to the case since. */
  lemma {:induction false} UncoveredIff(now: real, actions: seq<Action>, k: string)
    ensures !Covered(Reach(Initial(now), actions), k) <==> exists n :: 0 <= n < |actions| && LeftFrom(now, actions, n, k)
  {
    hide Next, Covered, Initial, Revisits, Agrees, LosesRow, LeftFrom;
    if actions == [] {
      Start(now, k);
    } else {
      var (before, a) := (actions[..|actions| - 1], actions[|actions| - 1]);
      assert actions == before + [a];
      UncoveredIff(now, before, k);
      NextCovers(Reach(Initial(now), before), a, k);
      LeftLast(now, before, a, k);
      RevisitsIsNoRestart(Reach(Initial(now), before), a, k);
      LosesWhatItHad(Reach(Initial(now), before), a, k);
      forall n | 0 <= n < |before|
        ensures LeftFrom(now, actions, n, k) <==>
                && LeftFrom(now, before, n, k)
                && var s := Reach(Initial(now), before);
                   !Revisits(s, a, k) && (a.Restart? ==> !Agrees(s, k))
      {
        LeftLonger(now, before, a, n, k);
      }
    }
  }

  lemma RevisitsIsNoRestart(s: System, a: Action, k: string)
    ensures a.Restart? || a.Fail? ==> !Revisits(s, a, k)
  {
  }

  lemma LosesWhatItHad(s: System, a: Action, k: string)
    ensures LosesRow(s, a, k) ==> a.Fail? && Covered(s, k)
  {
    if LosesRow(s, a, k) {
      assert a.updater in s.rows;
    }
  }

  /** Every restart of the run found the row of the case agreeing with the case, and no index write that mattered failed. */
  ghost predicate NothingDropped(now: real, actions: seq<Action>, k: string) {
    forall n :: 0 <= n < |actions| ==> !Drops(Reach(Initial(now), actions[..n]), actions[n], k)
  }

  /** After every completed update: with no index write owed and the loop not holding an entry, the stored wake-up of an
      open case has an equal entry in the heap; and a sleeping loop that oversleeps it by more than half a second is free
      to wake. */
  lemma HeapRefinesWakeUps(now: real, actions: seq<Action>, k: string)
    requires NothingDropped(now, actions, k)
    requires var s := Reach(Initial(now), actions);
      s.rows == map[] && !s.loop.Popped? && !s.loop.Decided? && Due(DocOf(s, k))
    ensures var s := Reach(Initial(now), actions);
      var at := WakeOf(DocOf(s, k)).value;
      && (at, k) in s.agenda
      && (s.loop.Sleeping? && s.now >= at && s.now >= s.loop.since + SHORTEST ==> s.wake || s.now >= s.loop.until)
  {
    hide Reach, Initial, Next, Agrees, LosesRow, Revisits;
    UncoveredIff(now, actions, k);
    ReachLoop(now, actions);
  }

  // ---------------------------------------------------------------- when the rows agree

  /** An index write for the case is owed. */
  predicate Owed(s: System, k: string) {
    exists u <- s.rows :: s.rows[u].key == k
  }

  /** Nobody comes to the case, and neither the process stops nor an index write fails, while one is owed for it. */
  predicate Prompt(s: System, a: Action, k: string) {
    Revisits(s, a, k) || a.Restart? || (a.Fail? && a.updater in s.rows && s.rows[a.updater].key == k) ==> !Owed(s, k)
  }

  ghost predicate PromptInv(s: System, k: string) {
    && (forall u <- s.rows :: s.rows[u].key == k ==> s.rows[u] == RowOf(k, DocOf(s, k)))
    && (!Owed(s, k) && DocOf(s, k).file.Some? ==> k in s.index && s.index[k] == RowOf(k, DocOf(s, k)))
  }

  lemma NextPrompt(s: System, a: Action, k: string)
    requires PromptInv(s, k) && Prompt(s, a, k)
    ensures PromptInv(Next(s, a), k)
  {
    hide PromptInv, Put, StepAlias, StepIndex, StepGet, StepClear, StepFire, StepPop, StepAwake, StepRestart, AllLater, Top,
         Delay, Effective, TimerOp, Owed;
    match a {
      case Commit(u, q, op) => if u !in s.rows { PutPrompt(s, u, q, op, k); }
      case Alias(u, q) => if u !in s.rows { AliasPrompt(s, u, q, k); }
      case Clear(u) => if s.loop.Decided? && u !in s.rows { ClearPrompt(s, u, k); }
      case Fire(u, text) =>
        if MayFire(s, u) {
          PutPrompt(s, u, s.loop.key, TimerOp(s, text), k);
          var put := Put(s, u, s.loop.key, TimerOp(s, text));
          SamePrompt(put, put.(loop := Draining(s.loop.asOf)), k);
          FireIsPut(s, u, text);
        }
      case Index(u) => if u in s.rows { IndexPrompt(s, u, k); }
      case Fail(u) => FailPrompt(s, u, k);
      case Restart => RestartPrompt(s, k);
      case Tick(_) | Awake | Pop(_, _) | Get | Sleep =>
        LoopOnly(s, a);
        SamePrompt(s, Next(s, a), k);
    }
  }

  lemma FailPrompt(s: System, u: nat, k: string)
    requires PromptInv(s, k) && (u in s.rows && s.rows[u].key == k ==> !Owed(s, k))
    ensures PromptInv(Next(s, Fail(u)), k)
  {
    hide RowOf;
    var r := Next(s, Fail(u));
    if r != s && Owed(s, k) {
      var v :| v in s.rows && s.rows[v].key == k;
      assert v in r.rows && r.rows[v].key == k;
    }
  }

  lemma LoopOnly(s: System, a: Action)
    requires a.Tick? || a.Awake? || a.Pop? || a.Get? || a.Sleep?
    ensures var r := Next(s, a); r.docs == s.docs && r.rows == s.rows && r.index == s.index
  {
    hide Delay, AllLater, Top, StepGet, StepPop, StepAwake, StepSleep, Put, StepAlias, StepIndex, StepClear, StepFire, StepRestart,
         MayFire;
    if a.Get? && s.loop.Popped? { LoopGet(s); }
    if a.Pop? && s.loop.Draining? { LoopPop(s, a.due, a.key); }
    if a.Awake? && s.loop.Sleeping? { LoopAwake(s); }
    LoopSleep(s);
  }

  lemma LoopGet(s: System)
    requires s.loop.Popped?
    ensures var r := StepGet(s); r.docs == s.docs && r.rows == s.rows && r.index == s.index
  {
  }

  lemma LoopPop(s: System, due: real, key: string)
    requires s.loop.Draining?
    ensures var r := StepPop(s, due, key); r.docs == s.docs && r.rows == s.rows && r.index == s.index
  {
  }

  lemma LoopAwake(s: System)
    requires s.loop.Sleeping?
    ensures var r := StepAwake(s); r.docs == s.docs && r.rows == s.rows && r.index == s.index
  {
  }

  lemma LoopSleep(s: System)
    ensures var r := StepSleep(s); r.docs == s.docs && r.rows == s.rows && r.index == s.index
  {
    hide Delay;
  }

  lemma FireIsPut(s: System, u: nat, text: string)
    requires MayFire(s, u)
    ensures StepFire(s, u, text) == Put(s, u, s.loop.key, TimerOp(s, text)).(loop := Draining(s.loop.asOf))
  {
    hide Put, TimerOp;
  }

  lemma SamePrompt(s: System, r: System, k: string)
    requires PromptInv(s, k) && r.docs == s.docs && r.rows == s.rows && r.index == s.index
    ensures PromptInv(r, k)
  {
    hide RowOf;
  }

  lemma PutPrompt(s: System, u: nat, q: string, op: Op, k: string)
    requires PromptInv(s, k) && u !in s.rows && (q == k && Effective(DocOf(s, k), op) ==> !Owed(s, k))
    ensures PromptInv(Put(s, u, q, op), k)
  {
    hide Step, Effective, PromptInv, Owed;
    if Effective(DocOf(s, q), op) { OwesMore(s, Put(s, u, q, op), u, k); }
  }

  lemma AliasPrompt(s: System, u: nat, q: string, k: string)
    requires PromptInv(s, k) && u !in s.rows && (q == k && DocOf(s, k).file.Some? ==> !Owed(s, k))
    ensures PromptInv(StepAlias(s, u, q), k)
  {
    hide PromptInv, Owed;
    if DocOf(s, q).file.Some? { OwesMore(s, StepAlias(s, u, q), u, k); }
  }

  lemma ClearPrompt(s: System, u: nat, k: string)
    requires PromptInv(s, k) && s.loop.Decided? && u !in s.rows && (s.loop.key == k ==> !Owed(s, k))
    ensures PromptInv(StepClear(s, u), k)
  {
    hide Step, PromptInv, Owed;
    OwesMore(s, StepClear(s, u), u, k);
  }

  lemma RestartPrompt(s: System, k: string)
    requires PromptInv(s, k) && !Owed(s, k)
    ensures PromptInv(StepRestart(s), k)
  {
    hide Rebuilt, RowOf;
  }

  lemma OwesMore(s: System, r: System, u: nat, k: string)
    requires PromptInv(s, k) && u !in s.rows && u in r.rows && r.rows == s.rows[u := r.rows[u]] && r.index == s.index
    requires r.rows[u].key == k ==> !Owed(s, k) && r.rows[u] == RowOf(k, DocOf(r, k))
    requires r.rows[u].key != k ==> DocOf(r, k) == DocOf(s, k)
    ensures PromptInv(r, k)
  {
    if r.rows[u].key != k && Owed(s, k) {
      var v :| v in s.rows && s.rows[v].key == k;
      assert v in r.rows && r.rows[v].key == k;
    }
  }

  lemma IndexPrompt(s: System, u: nat, k: string)
    requires PromptInv(s, k) && u in s.rows
    ensures PromptInv(StepIndex(s, u), k)
  {
    var r := StepIndex(s, u);
    if s.rows[u].key != k && Owed(s, k) {
      var v :| v in s.rows && s.rows[v].key == k;
      assert v in r.rows && r.rows[v].key == k;
    }
  }

  lemma {:induction false} ReachPrompt(now: real, actions: seq<Action>, k: string)
    requires forall n :: 0 <= n < |actions| ==> Prompt(Reach(Initial(now), actions[..n]), actions[n], k)
    ensures PromptInv(Reach(Initial(now), actions), k)
  {
    hide Next, PromptInv, Initial, Prompt;
    if actions == [] {
      StartPrompt(now, k);
    } else {
      var before := actions[..|actions| - 1];
      forall n | 0 <= n < |before| ensures Prompt(Reach(Initial(now), before[..n]), before[n], k) {
        assert before[..n] == actions[..n];
      }
      ReachPrompt(now, before, k);
      NextPrompt(Reach(Initial(now), before), actions[|before|], k);
    }
  }

  lemma StartPrompt(now: real, k: string)
    ensures PromptInv(Initial(now), k)
  {
  }

  /** The rows agree at every restart, and no wake-up drops out, as long as nobody comes to the case and the process does
      not stop between an update of the case and its index write. */
  lemma PromptRunsKeepWakeUps(now: real, actions: seq<Action>, k: string)
    requires forall n :: 0 <= n < |actions| ==> Prompt(Reach(Initial(now), actions[..n]), actions[n], k)
    ensures NothingDropped(now, actions, k) && Covered(Reach(Initial(now), actions), k)
  {
    hide Reach, Initial, Covered, Revisits, Owed, RowOf, WakeOf, Agrees, LosesRow, PromptInv;
    forall n | 0 <= n < |actions| ensures !Drops(Reach(Initial(now), actions[..n]), actions[n], k) {
      forall m | 0 <= m < |actions[..n]| ensures Prompt(Reach(Initial(now), actions[..n][..m]), actions[..n][m], k) {
        assert actions[..n][..m] == actions[..m];
      }
      ReachPrompt(now, actions[..n], k);
      assert Prompt(Reach(Initial(now), actions[..n]), actions[n], k);
      PromptAgrees(Reach(Initial(now), actions[..n]), actions[n], k);
    }
    UncoveredIff(now, actions, k);
  }

  lemma PromptAgrees(s: System, a: Action, k: string)
    requires PromptInv(s, k) && Prompt(s, a, k)
    ensures !Drops(s, a, k)
  {
    hide Revisits;
  }

  /** And a process that stops between the two does drop it: whatever wake-up an open case is given, if the row shows
      another one, or none, at the restart, then nobody will be woken for the case until somebody comes back to it. */
  lemma StoppedBeforeTheIndex(s: System, u: nat, k: string, at: real, reason: string, now: real)
    requires u !in s.rows && Open(DocOf(s, k)) && at != 0.0
    requires k !in s.index || s.index[k].nextWakeAt != Some(at)
    ensures var z := Next(Next(s, Commit(u, k, Edit(WakeAt(at, reason), now))), Restart);
      WakeOf(DocOf(z, k)) == Some(at) && Due(DocOf(z, k)) && !Covered(z, k)
  {
    hide Covered, StepRestart;
    var r := Next(s, Commit(u, k, Edit(WakeAt(at, reason), now)));
    WakeStep(DocOf(s, k), Edit(WakeAt(at, reason), now));
    RestartCovers(r, k);
    RestartFrame(r);
  }

  lemma RestartFrame(s: System)
    ensures StepRestart(s).docs == s.docs && StepRestart(s).loop == Draining(s.now)
  {
  }

  // ---------------------------------------------------------------- what the loop clears and fires

  /** Step `n` of the run read the case: it was open and wanted a wake-up within one second of the entry, which was due. */
  ghost predicate ReadAt(now: real, actions: seq<Action>, n: nat, due: real, k: string)
    requires n < |actions|
  {
    var s := Reach(Initial(now), actions[..n]);
    && actions[n].Get? && s.loop.Popped? && s.loop.due == due && s.loop.key == k && due <= s.now
    && Due(DocOf(s, k)) && Near(WakeOf(DocOf(s, k)).value, due)
  }

  /** Step `n` of the run cleared the wake-up of the case for this entry. */
  ghost predicate ClearedAt(now: real, actions: seq<Action>, n: nat, due: real, k: string)
    requires n < |actions|
  {
    var s := Reach(Initial(now), actions[..n]);
    actions[n].Clear? && s.loop.Decided? && s.loop.due == due && s.loop.key == k
  }

  lemma OnlyGetDecides(s: System, a: Action)
    requires Next(s, a).loop.Decided? && LoopInv(s)
    ensures || Next(s, a).loop == s.loop
            || (a.Get? && s.loop.Popped? && s.loop.due == Next(s, a).loop.due && s.loop.key == Next(s, a).loop.key
                && s.loop.due <= s.now && Due(DocOf(s, s.loop.key)) && Near(WakeOf(DocOf(s, s.loop.key)).value, s.loop.due))
  {
    hide Step, Effective, Rebuilt, AllLater, Delay, Due, WakeOf, DocOf;
  }

  lemma OnlyClearClears(s: System, a: Action)
    requires Next(s, a).loop.Cleared?
    ensures || Next(s, a).loop == s.loop
            || (a.Clear? && s.loop.Decided? && s.loop.due == Next(s, a).loop.due && s.loop.key == Next(s, a).loop.key)
  {
    hide Step, Effective, Rebuilt, AllLater, Delay, Due, WakeOf, DocOf;
  }

  lemma {:induction false} DecidedWasRead(now: real, actions: seq<Action>)
    requires Reach(Initial(now), actions).loop.Decided?
    ensures var h := Reach(Initial(now), actions).loop;
      exists n :: 0 <= n < |actions| && ReadAt(now, actions, n, h.due, h.key)
  {
    hide Next, ReadAt, LoopInv;
    var (before, a) := (actions[..|actions| - 1], actions[|actions| - 1]);
    var (s, h) := (Reach(Initial(now), before), Reach(Initial(now), actions).loop);
    ReachLoop(now, before);
    OnlyGetDecides(s, a);
    if s.loop == h {
      DecidedWasRead(now, before);
      var n :| 0 <= n < |before| && ReadAt(now, before, n, h.due, h.key);
      ReadLonger(now, actions, |before|, n, h.due, h.key);
    } else {
      ReadNow(now, actions, |before|, h.due, h.key);
    }
  }

  lemma ReadLonger(now: real, actions: seq<Action>, m: nat, n: nat, due: real, k: string)
    requires n < m <= |actions|
    ensures ReadAt(now, actions[..m], n, due, k) <==> ReadAt(now, actions, n, due, k)
    ensures ClearedAt(now, actions[..m], n, due, k) <==> ClearedAt(now, actions, n, due, k)
  {
    hide Reach, Initial;
    assert actions[..m][..n] == actions[..n];
  }

  lemma ReadNow(now: real, actions: seq<Action>, n: nat, due: real, k: string)
    requires n < |actions| && actions[n].Get?
    requires var s := Reach(Initial(now), actions[..n]);
      s.loop.Popped? && s.loop.due == due && s.loop.key == k && due <= s.now && Due(DocOf(s, k))
      && Near(WakeOf(DocOf(s, k)).value, due)
    ensures ReadAt(now, actions, n, due, k)
  {
    hide Reach, Initial;
  }

  lemma ClearedNow(now: real, actions: seq<Action>, n: nat, due: real, k: string)
    requires n < |actions| && actions[n].Clear?
    requires var s := Reach(Initial(now), actions[..n]);
      s.loop.Decided? && s.loop.due == due && s.loop.key == k
    ensures ClearedAt(now, actions, n, due, k)
  {
    hide Reach, Initial;
  }

  lemma {:induction false} ClearedWasDecided(now: real, actions: seq<Action>)
    requires Reach(Initial(now), actions).loop.Cleared?
    ensures var h := Reach(Initial(now), actions).loop;
      exists n :: 0 <= n < |actions| && ClearedAt(now, actions, n, h.due, h.key)
  {
    hide Next, ClearedAt;
    var (before, a) := (actions[..|actions| - 1], actions[|actions| - 1]);
    var (s, h) := (Reach(Initial(now), before), Reach(Initial(now), actions).loop);
    OnlyClearClears(s, a);
    if s.loop == h {
      ClearedWasDecided(now, before);
      var n :| 0 <= n < |before| && ClearedAt(now, before, n, h.due, h.key);
      ReadLonger(now, actions, |before|, n, h.due, h.key);
    } else {
      ClearedNow(now, actions, |before|, h.due, h.key);
    }
  }

  /** In every run: whatever timer event the loop is about to submit, its time has come, its clear was a step of the run,
      and before that a step of the run read the case open and wanting a wake-up within one second of that time. */
  lemma FiresOnlyWhatIsDue(now: real, actions: seq<Action>)
    requires Reach(Initial(now), actions).loop.Cleared?
    ensures var s := Reach(Initial(now), actions);
      && s.loop.due <= s.now
      && exists n, m :: 0 <= n < m < |actions| && ReadAt(now, actions, n, s.loop.due, s.loop.key)
                        && ClearedAt(now, actions, m, s.loop.due, s.loop.key)
  {
    hide Reach, Initial, ReadAt;
    var h := Reach(Initial(now), actions).loop;
    ReachLoop(now, actions);
    ClearedWasDecided(now, actions);
    var m :| 0 <= m < |actions| && ClearedAt(now, actions, m, h.due, h.key);
    DecidedWasRead(now, actions[..m]);
    var n :| 0 <= n < m && ReadAt(now, actions[..m], n, h.due, h.key);
    ReadLonger(now, actions, m, n, h.due, h.key);
  }

  /** Once the wake-up is cleared the case gets its timer event, unless it was closed meanwhile or an event of the same
      second was admitted before. */
  lemma FireReachesTheCase(s: System, u: nat, text: string)
    requires MayFire(s, u) && DocOf(s, s.loop.key).file.Some?
    ensures var d := DocOf(Next(s, Fire(u, text)), s.loop.key);
      var e := TimerEvent(s.loop.key, s.loop.due, text, s.now);
      var was := DocOf(s, s.loop.key);
      if Open(was) && e.id !in was.seen
      then |Pending(d)| > 0 && Pending(d)[|Pending(d)| - 1] == Event(e.id, "timer", "timer", "", "", text, s.now)
      else d == was
  {
    hide TimerEvent, Admit;
    var was := DocOf(s, s.loop.key);
    var e := TimerEvent(s.loop.key, s.loop.due, text, s.now);
    TimerKind(s.loop.key, s.loop.due, text, s.now);
    TimerSays(s.loop.key, s.loop.due, text, s.now);
    if Open(was) && e.id !in was.seen {
      AdmitAppends(was.file.value, e, s.now);
    }
  }

  lemma TimerSays(key: string, due: real, text: string, now: real)
    ensures var e := TimerEvent(key, due, text, now); e == Event(e.id, "timer", "timer", "", "", text, now)
  {
    hide TimerId;
  }

  lemma TimerKind(key: string, due: real, text: string, now: real)
    ensures !Revives(TimerEvent(key, due, text, now))
  {
    hide TimerId;
  }

  lemma AdmitAppends(f: File, e: Event, now: real)
    ensures var p := Admit(f, e, now).pending; |p| > 0 && p[|p| - 1] == e
  {
    hide Log;
  }

  // ---------------------------------------------------------------- the wake-up that a clear can lose

  /** Clearing now would drop a wake-up that nobody has fired or will fire. */
  ghost predicate Loses(s: System) {
    s.loop.Decided? && WantsAnother(DocOf(s, s.loop.key), s.loop.due)
  }

  /** The case is open and wants to be woken, but not at about this time. */
  predicate WantsAnother(d: Doc, due: real) {
    Due(d) && !Near(WakeOf(d).value, due)
  }

  /** What others may do while the loop waits between its read and its clear. */
  predicate Meanwhile(a: Action) {
    a.Tick? || a.Commit? || a.Alias? || a.Index? || a.Fail?
  }

  predicate Touches(s: System, a: Action, k: string) {
    a.Commit? && a.key == k && a.updater !in s.rows && Effective(DocOf(s, k), a.op)
  }

  lemma MeanwhileStep(s: System, a: Action, k: string)
    requires Meanwhile(a)
    ensures Next(s, a).loop == s.loop
    ensures !Touches(s, a, k) ==> DocOf(Next(s, a), k) == DocOf(s, k)
  {
    hide Step, Effective;
  }

  /** Step `n` of the race is the last one to update the case, and leaves it wanting another wake-up. */
  ghost predicate LastWord(s: System, actions: seq<Action>, n: nat, k: string, due: real)
    requires n < |actions|
  {
    && Touches(Reach(s, actions[..n]), actions[n], k) && WantsAnother(DocOf(Reach(s, actions[..n + 1]), k), due)
    && forall m :: n < m < |actions| ==> !Touches(Reach(s, actions[..m]), actions[m], k)
  }

  lemma LastWordLonger(s: System, before: seq<Action>, a: Action, n: nat, k: string, due: real)
    requires n < |before|
    ensures LastWord(s, before + [a], n, k, due) <==> LastWord(s, before, n, k, due) && !Touches(Reach(s, before), a, k)
  {
    hide Reach, Touches, WantsAnother, DocOf;
    var all := before + [a];
    assert forall m :: 0 <= m <= |before| ==> all[..m] == before[..m];
    assert all[|before|] == a && before[..|before|] == before;
  }

  lemma LastWordNow(s: System, before: seq<Action>, a: Action, k: string, due: real)
    ensures LastWord(s, before + [a], |before|, k, due) <==>
            Touches(Reach(s, before), a, k) && WantsAnother(DocOf(Next(Reach(s, before), a), k), due)
  {
    hide Next, Touches, WantsAnother, DocOf;
    var all := before + [a];
    assert all[..|before|] == before && all[..|before| + 1] == all && all[|before|] == a;
  }

  lemma {:induction false} LossIsTheLastWord(s: System, actions: seq<Action>, k: string)
    requires s.loop.Decided? && s.loop.key == k && Near(WakeAtOrDue(s, k), s.loop.due)
    requires forall a <- actions :: Meanwhile(a)
    ensures Reach(s, actions).loop == s.loop
    ensures Loses(Reach(s, actions)) <==> exists n :: 0 <= n < |actions| && LastWord(s, actions, n, k, s.loop.due)
  {
    hide Next, Meanwhile, Touches, LastWord, Due, WakeOf;
    if actions != [] {
      var (before, a) := (actions[..|actions| - 1], actions[|actions| - 1]);
      assert actions == before + [a];
      LossIsTheLastWord(s, before, k);
      MeanwhileStep(Reach(s, before), a, k);
      LastWordNow(s, before, a, k, s.loop.due);
      forall n | 0 <= n < |before|
        ensures LastWord(s, actions, n, k, s.loop.due) <==>
                LastWord(s, before, n, k, s.loop.due) && !Touches(Reach(s, before), a, k)
      {
        LastWordLonger(s, before, a, n, k, s.loop.due);
      }
    }
  }

  function WakeAtOrDue(s: System, k: string): real
    requires s.loop.Decided?
  {
    if Due(DocOf(s, k)) then WakeOf(DocOf(s, k)).value else s.loop.due
  }

  /** Whatever others do between the loop's read and its clear: the clear drops a wake-up that nobody fires if and only if
      the last update of the case in between has left it open with a wake-up more than a second away from the entry. */
  lemma LossIff(s: System, actions: seq<Action>)
    requires s.loop.Popped? && StepGet(s).loop.Decided?
    requires forall a <- actions :: Meanwhile(a)
    ensures var d := StepGet(s);
      Loses(Reach(d, actions)) <==> exists n :: 0 <= n < |actions| && LastWord(d, actions, n, s.loop.key, s.loop.due)
  {
    hide Due, WakeOf, Next, Meanwhile, Reach, LastWord;
    GetDecides(s);
    LossIsTheLastWord(StepGet(s), actions, s.loop.key);
  }

  lemma GetDecides(s: System)
    requires s.loop.Popped? && StepGet(s).loop.Decided?
    ensures StepGet(s).docs == s.docs && StepGet(s).loop.key == s.loop.key && StepGet(s).loop.due == s.loop.due
    ensures Due(DocOf(s, s.loop.key)) && Near(WakeOf(DocOf(s, s.loop.key)).value, s.loop.due)
  {
  }

  /** And such an update does lose it: whoever asks an open case for a wake-up more than a second off while the loop is
      there, ends with no wake-up stored at all. */
  lemma RacingWakeIsLost(s: System, u: nat, at: real, reason: string, now: real)
    requires s.loop.Decided? && u !in s.rows && Open(DocOf(s, s.loop.key))
    requires at != 0.0 && !Near(at, s.loop.due)
    ensures var asked := Next(s, Commit(u, s.loop.key, Edit(WakeAt(at, reason), now)));
      && WakeOf(DocOf(asked, s.loop.key)) == Some(at)
      && Loses(asked)
      && forall v :: v !in asked.rows ==>
           var cleared := DocOf(Next(asked, Clear(v)), s.loop.key);
           Open(cleared) && WakeOf(cleared) == None
  {
    var k := s.loop.key;
    var d := DocOf(s, k);
    WakeStep(d, Edit(WakeAt(at, reason), now));
    var asked := Next(s, Commit(u, k, Edit(WakeAt(at, reason), now)));
    WakeStep(DocOf(asked, k), Edit(ClearWake, asked.now));
  }

  lemma WakeStep(d: Doc, op: Op)
    requires Open(d) && op.Edit? && (op.change.WakeAt? || op.change.ClearWake?)
    ensures Open(Step(d, op)) && WakeOf(Step(d, op)) == if op.change.WakeAt? then Some(op.change.at) else None
  {
  }

  // ---------------------------------------------------------------- whole runs that lose a wake-up

  lemma ReachOne(now: real, before: seq<Action>, a: Action)
    ensures Reach(Initial(now), before + [a]) == Next(Reach(Initial(now), before), a)
  {
    hide Next, Initial;
    assert (before + [a])[..|before|] == before;
  }

  lemma ReachNothing(now: real)
    ensures Reach(Initial(now), []) == Initial(now)
  {
  }

  function Opening(): Op {
    Arrive(Event("1", "record", "created", "", "", "", 0.0), true, "", 0.0)
  }

  /** A case is opened and its index row is written. */
  lemma OpenedCase(now: real, k: string)
    ensures var s := Next(Next(Initial(now), Commit(0, k, Opening())), Index(0));
      && Open(DocOf(s, k)) && WakeOf(DocOf(s, k)) == None && s.rows == map[] && s.index == map[k := Row(k, None, true)]
      && s.agenda == multiset{} && s.loop == Draining(now) && s.now == now
  {
    hide Log;
    var d := Step(EMPTY, Opening());
    var s1 := Next(Initial(now), Commit(0, k, Opening()));
    assert s1 == Initial(now).(docs := map[k := d], rows := map[0 := Row(k, None, true)]);
    assert s1.rows - {0} == map[];
  }

  /** It does happen that a restart forgets a wake-up: one set just before the process stopped. */
  lemma WakeUpIsForgotten(now: real, k: string, at: real)
    requires at != 0.0
    ensures exists actions :: var z := Reach(Initial(now), actions);
              Due(DocOf(z, k)) && WakeOf(DocOf(z, k)) == Some(at) && !Covered(z, k)
  {
    hide Next, Reach, Initial, Covered, DocOf, Due, WakeOf, Open;
    var none: seq<Action> := [];
    var two := none + [Commit(0, k, Opening())] + [Index(0)];
    var wake := Commit(1, k, Edit(WakeAt(at, "later"), now));
    ReachNothing(now);
    ReachOne(now, none, Commit(0, k, Opening()));
    ReachOne(now, none + [Commit(0, k, Opening())], Index(0));
    OpenedCase(now, k);
    ReachOne(now, two, wake);
    ReachOne(now, two + [wake], Restart);
    StoppedBeforeTheIndex(Reach(Initial(now), two), 1, k, at, "later", now);
    assert !Covered(Reach(Initial(now), two + [wake] + [Restart]), k);
  }

  /** The wake-up of an open case is due, popped and read. */
  lemma DueIsDecided(s: System, k: string, at: real)
    requires Open(DocOf(s, k)) && WakeOf(DocOf(s, k)) == None && s.rows == map[] && s.agenda == multiset{}
    requires s.loop == Draining(at) && at != 0.0
    ensures var y := Next(Next(Next(Next(s, Commit(1, k, Edit(WakeAt(at, "now"), at))), Index(1)), Pop(at, k)), Get);
      && y.loop == Decided(at, at, k, at) && y.rows == map[] && Open(DocOf(y, k)) && WakeOf(DocOf(y, k)) == Some(at)
  {
    hide Step;
    var op := Edit(WakeAt(at, "now"), at);
    WakeStep(DocOf(s, k), op);
    assert Effective(DocOf(s, k), op);
    var s1 := Next(s, Commit(1, k, op));
    assert s1.rows == map[1 := Row(k, Some(at), true)] && DocOf(s1, k) == Step(DocOf(s, k), op);
    var s2 := Next(s1, Index(1));
    assert s1.rows - {1} == map[];
    assert s2.agenda == multiset{(at, k)} && s2.rows == map[] && s2.docs == s1.docs && s2.loop == s.loop;
    var s3 := Next(s2, Pop(at, k));
    assert s3.loop == Popped(at, at, k) && s3.docs == s1.docs && s3.rows == map[];
  }

  /** It does happen that a clear loses a wake-up: one set, more than a second off, while the loop was between its read and
      its clear. */
  lemma WakeUpIsCleared(now: real, k: string, later: real)
    requires now != 0.0 && later != 0.0 && !Near(later, now)
    ensures exists actions :: var s := Reach(Initial(now), actions);
              && Loses(s) && s.loop.key == k && WakeOf(DocOf(s, k)) == Some(later)
              && var z := Next(s, Clear(3)); Open(DocOf(z, k)) && WakeOf(DocOf(z, k)) == None
  {
    hide Next, Reach, Initial, DocOf, Due, WakeOf, Open, Loses;
    var none: seq<Action> := [];
    var two := none + [Commit(0, k, Opening())] + [Index(0)];
    var wake := Commit(1, k, Edit(WakeAt(now, "now"), now));
    var six := two + [wake] + [Index(1)] + [Pop(now, k)] + [Get];
    var race := Commit(2, k, Edit(WakeAt(later, "later"), now));
    ReachNothing(now);
    ReachOne(now, none, Commit(0, k, Opening()));
    ReachOne(now, none + [Commit(0, k, Opening())], Index(0));
    OpenedCase(now, k);
    ReachOne(now, two, wake);
    ReachOne(now, two + [wake], Index(1));
    ReachOne(now, two + [wake] + [Index(1)], Pop(now, k));
    ReachOne(now, two + [wake] + [Index(1)] + [Pop(now, k)], Get);
    DueIsDecided(Reach(Initial(now), two), k, now);
    ReachOne(now, six, race);
    RacingWakeIsLost(Reach(Initial(now), six), 2, later, "later", now);
    RaceRows(Reach(Initial(now), six), k, race.op);
    assert Loses(Reach(Initial(now), six + [race]));
  }

  lemma RaceRows(s: System, k: string, op: Op)
    requires s.rows == map[]
    ensures 3 !in Next(s, Commit(2, k, op)).rows && Next(s, Commit(2, k, op)).loop == s.loop
  {
    hide Step, Effective;
  }

  // ---------------------------------------------------------------- stopped between the clear and its event

  predicate Quiet(a: Action, k: string) {
    a.Commit? ==> a.key != k
  }

  /** Nobody will be woken for the case any more. */
  ghost predicate Asleep(s: System, k: string, d: Doc) {
    && DocOf(s, k) == d && !Wakes(WakeOf(d)) && !(s.loop.Decided? && s.loop.key == k) && !(s.loop.Cleared? && s.loop.key == k)
  }

  lemma NextAsleep(s: System, a: Action, k: string, d: Doc)
    requires Asleep(s, k, d) && Quiet(a, k)
    ensures Asleep(Next(s, a), k, d)
  {
    hide Step, Effective, Rebuilt, AllLater, Delay;
  }

  lemma {:induction false} StaysAsleep(s: System, actions: seq<Action>, k: string, d: Doc)
    requires Asleep(s, k, d) && forall a <- actions :: Quiet(a, k)
    ensures Asleep(Reach(s, actions), k, d)
  {
    hide Next, Asleep, Quiet;
    if actions != [] {
      StaysAsleep(s, actions[..|actions| - 1], k, d);
      NextAsleep(Reach(s, actions[..|actions| - 1]), actions[|actions| - 1], k, d);
    }
  }

  /** A process that stops after the clear and before the event has been submitted drops the wake-up for good: whether
      or not the index row was written in between, nobody is woken for the case until somebody else updates it. */
  lemma StoppedBeforeTheEvent(s: System, u: nat, meanwhile: seq<Action>, later: seq<Action>)
    requires s.loop.Decided? && u !in s.rows && DocOf(s, s.loop.key).file.Some?
    requires forall a <- meanwhile :: Meanwhile(a) && Quiet(a, s.loop.key)
    requires forall a <- later :: Quiet(a, s.loop.key)
    ensures var k := s.loop.key;
      var z := Reach(Next(Reach(Next(s, Clear(u)), meanwhile), Restart), later);
      && !(z.loop.Cleared? && z.loop.key == k) && !Due(DocOf(z, k))
      && Pending(DocOf(z, k)) == Pending(DocOf(s, k)) && Open(DocOf(z, k)) == Open(DocOf(s, k))
  {
    hide Reach, Next, Quiet, Meanwhile;
    var (k, d) := (s.loop.key, Step(DocOf(s, s.loop.key), Edit(ClearWake, s.now)));
    var r := Next(s, Clear(u));
    ClearedDoc(s, u);
    KeepsDoc(r, meanwhile, k);
    var y := Next(Reach(r, meanwhile), Restart);
    RestartSleeps(Reach(r, meanwhile), k, d);
    StaysAsleep(y, later, k, d);
  }

  lemma ClearedDoc(s: System, u: nat)
    requires s.loop.Decided? && u !in s.rows && DocOf(s, s.loop.key).file.Some?
    ensures var d := Step(DocOf(s, s.loop.key), Edit(ClearWake, s.now));
      && DocOf(Next(s, Clear(u)), s.loop.key) == d && !Wakes(WakeOf(d)) && Pending(d) == Pending(DocOf(s, s.loop.key))
      && Open(d) == Open(DocOf(s, s.loop.key))
  {
  }

  lemma {:induction false} KeepsDoc(s: System, actions: seq<Action>, k: string)
    requires forall a <- actions :: Meanwhile(a) && Quiet(a, k)
    ensures DocOf(Reach(s, actions), k) == DocOf(s, k)
  {
    hide Next, DocOf, Effective;
    if actions != [] {
      KeepsDoc(s, actions[..|actions| - 1], k);
      MeanwhileStep(Reach(s, actions[..|actions| - 1]), actions[|actions| - 1], k);
    }
  }

  lemma RestartSleeps(s: System, k: string, d: Doc)
    requires DocOf(s, k) == d && !Wakes(WakeOf(d))
    ensures Asleep(Next(s, Restart), k, d)
  {
    hide Rebuilt;
  }
}
