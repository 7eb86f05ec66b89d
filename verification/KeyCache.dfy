/** The signing-key cache of the control plane: when it fetches, and how old a key set it serves can be. */
module KeyCache {
  import opened Options

  const TTL := 3600.0
  const COOLDOWN := 60.0

  /** `keys` names a parsed, nonempty key set. */
  datatype Cache = Cache(keys: Option<nat>, expiresAt: real, generation: nat, retryAfter: real, forceAfter: real)

  datatype Decision = Serve | Refuse | Fetch

  predicate Fresh(c: Cache, now: real) {
    c.keys.Some? && now < c.expiresAt
  }

  /** `_get_keys` up to the fetch. */
  function Decide(c: Cache, now: real, force: bool, observed: Option<nat>): Decision {
    if Fresh(c, now) && (!force || observed != Some(c.generation) || now < c.forceAfter) then Serve
    else if now < c.retryAfter then Refuse
    else Fetch
  }

  function Begin(c: Cache, now: real, force: bool): Cache {
    if force then c.(forceAfter := now + COOLDOWN) else c
  }

  /** How a fetch ends; a timeout or a malformed key set is a failure, a cancellation is not. */
  datatype Outcome = Fetched(keys: nat) | Failed | Cancelled

  function End(c: Cache, now: real, o: Outcome): Cache {
    match o
    case Fetched(keys) => c.(keys := Some(keys), expiresAt := now + TTL, retryAfter := 0.0, generation := c.generation + 1)
    case Failed => c.(retryAfter := now + COOLDOWN, generation := c.generation + 1)
    case Cancelled => c
  }

  // ---------------------------------------------------------------- runs

  /** `ended` and `cancelled` are the start times of the fetches so far, `storedAt` when the keys were stored. The lock
      lets only one call past the first line at a time. */
  datatype System = System(now: real, cache: Cache, storedAt: real, pending: Option<real>, ended: seq<real>, cancelled: seq<real>)

  datatype Action = Tick(elapsed: real) | Call(force: bool, observed: Option<nat>) | Done(outcome: Outcome)

  function Initial(now: real): System {
    System(now, Cache(None, 0.0, 0, 0.0, 0.0), 0.0, None, [], [])
  }

  function Next(s: System, a: Action): System {
    match a
    case Tick(elapsed) => if elapsed >= 0.0 then s.(now := s.now + elapsed) else s
    case Call(force, observed) =>
      if s.pending.Some? || Decide(s.cache, s.now, force, observed) != Fetch then s
      else s.(cache := Begin(s.cache, s.now, force), pending := Some(s.now))
    case Done(o) =>
      if s.pending.None? then s
      else
        var out := s.(cache := End(s.cache, s.now, o), pending := None,
                      storedAt := if o.Fetched? then s.now else s.storedAt);
        if o.Cancelled? then out.(cancelled := s.cancelled + [s.pending.value]) else out.(ended := s.ended + [s.pending.value])
  }

  function Reach(s: System, actions: seq<Action>): System {
    if actions == [] then s else Next(Reach(s, actions[..|actions| - 1]), actions[|actions| - 1])
  }

  // ---------------------------------------------------------------- how often it fetches

  /** No fetch can start before `t`. */
  predicate Blocked(s: System, t: real) {
    s.now >= t || s.cache.retryAfter >= t || (s.cache.keys.Some? && s.cache.expiresAt >= t && s.cache.forceAfter >= t)
  }

  /** No fetch for want of fresh keys can start before `t`. */
  predicate Settled(s: System, t: real) {
    s.now >= t || s.cache.retryAfter >= t || (s.cache.keys.Some? && s.cache.expiresAt >= t)
  }

  ghost predicate Spaced(starts: seq<real>) {
    && (forall i, j :: 0 <= i <= j < |starts| ==> starts[i] <= starts[j])
    && (forall i :: 0 <= i && i + 2 < |starts| ==> starts[i + 2] >= starts[i] + COOLDOWN)
  }

  ghost predicate SpacingInv(s: System) {
    var n := |s.ended|;
    && Spaced(s.ended) && (n >= 1 ==> s.ended[n - 1] <= s.now)
    && (n >= 1 ==> Settled(s, s.ended[n - 1] + COOLDOWN))
    && (n >= 2 ==> Blocked(s, s.ended[n - 2] + COOLDOWN))
    && (s.pending.Some? ==>
          var z := s.pending.value;
          && z <= s.now && Spaced(s.ended + [z])
          && (n >= 1 ==> z >= s.ended[n - 1] + COOLDOWN || (s.cache.keys.Some? && s.cache.forceAfter >= s.ended[n - 1] + COOLDOWN
                                                            && s.cache.expiresAt >= s.ended[n - 1] + COOLDOWN)))
  }

  lemma CallSpacing(s: System, force: bool, observed: Option<nat>)
    requires SpacingInv(s) && s.pending.None? && Decide(s.cache, s.now, force, observed) == Fetch
    ensures SpacingInv(Next(s, Call(force, observed)))
  {
    var all := s.ended + [s.now];
    assert forall i, j :: 0 <= i <= j < |all| ==> all[i] <= all[j];
  }

  lemma DoneSpacing(s: System, o: Outcome)
    requires SpacingInv(s) && s.pending.Some?
    ensures SpacingInv(Next(s, Done(o)))
  {
    hide Spaced;
  }

  lemma NextSpacing(s: System, a: Action)
    requires SpacingInv(s)
    ensures SpacingInv(Next(s, a))
  {
    match a {
      case Tick(_) =>
      case Call(force, observed) =>
        if s.pending.None? && Decide(s.cache, s.now, force, observed) == Fetch {
          CallSpacing(s, force, observed);
        }
      case Done(o) => if s.pending.Some? { DoneSpacing(s, o); }
    }
  }

  lemma {:induction false} ReachSpacing(now: real, actions: seq<Action>)
    ensures SpacingInv(Reach(Initial(now), actions))
  {
    hide SpacingInv, Next;
    if actions == [] {
      StartSpacing(now);
    } else {
      ReachSpacing(now, actions[..|actions| - 1]);
      NextSpacing(Reach(Initial(now), actions[..|actions| - 1]), actions[|actions| - 1]);
    }
  }

  lemma StartSpacing(now: real)
    ensures SpacingInv(Initial(now))
  {
  }

  /** How many of these starts lie in an interval. */
  function Within(starts: seq<real>, from: real, until: real): nat {
    if starts == [] then 0 else (if from <= starts[0] < until then 1 else 0) + Within(starts[1..], from, until)
  }

  lemma {:induction false} LateStarts(starts: seq<real>, from: real, until: real)
    requires forall i :: 0 <= i < |starts| ==> starts[i] >= until
    ensures Within(starts, from, until) == 0
  {
    if starts != [] { LateStarts(starts[1..], from, until); }
  }

  lemma {:induction false} SpacedWithin(starts: seq<real>, from: real, until: real)
    requires Spaced(starts) && until - from <= COOLDOWN
    ensures Within(starts, from, until) <= 2
  {
    if starts != [] {
      if from <= starts[0] && |starts| > 2 {
        var rest := starts[2..];
        assert starts[0 + 2] >= starts[0] + COOLDOWN;
        forall i | 0 <= i < |rest| ensures rest[i] >= until {
          assert rest[i] == starts[i + 2] >= starts[2];
        }
        LateStarts(rest, from, until);
        assert starts[1..][1..] == rest;
      } else if from > starts[0] {
        SpacedTail(starts);
        SpacedWithin(starts[1..], from, until);
      } else {
        FewStarts(starts, from, until);
      }
    }
  }

  lemma SpacedTail(starts: seq<real>)
    requires starts != [] && Spaced(starts)
    ensures Spaced(starts[1..])
  {
    var rest := starts[1..];
    forall i | 0 <= i && i + 2 < |rest| ensures rest[i + 2] >= rest[i] + COOLDOWN {
      assert starts[(i + 1) + 2] >= starts[i + 1] + COOLDOWN;
    }
  }

  lemma {:induction false} FewStarts(starts: seq<real>, from: real, until: real)
    ensures Within(starts, from, until) <= |starts|
  {
    if starts != [] { FewStarts(starts[1..], from, until); }
  }

  function Started(s: System): seq<real> {
    s.ended + if s.pending.Some? then [s.pending.value] else []
  }

  /** Whatever is asked for, by whomever, with any mix of failures: in less than sixty seconds at most two fetches start
      that are not cancelled. */
  lemma FetchesAreRare(now: real, actions: seq<Action>, from: real, until: real)
    requires until - from <= COOLDOWN
    ensures var s := Reach(Initial(now), actions);
      Within(Started(s), from, until) <= 2
  {
    hide Reach, Initial, Next, Blocked, Settled;
    ReachSpacing(now, actions);
    var s := Reach(Initial(now), actions);
    assert s.ended + [] == s.ended;
    SpacedWithin(Started(s), from, until);
  }

  function Flurry(n: nat): seq<Action> {
    if n == 0 then [] else Flurry(n - 1) + [Call(false, None)] + [Done(Cancelled)]
  }

  function Times(n: nat, t: real): seq<real> {
    if n == 0 then [] else Times(n - 1, t) + [t]
  }

  /** A cancelled fetch leaves nothing behind that would hold back the next one: without keys any number of fetches can
      start at the same instant, so the bound on all fetches holds only without cancellations. */
  lemma {:induction false} CancelledFetchesAreUnbounded(now: real, n: nat)
    requires now >= 0.0
    ensures var s := Reach(Initial(now), Flurry(n));
      s == Initial(now).(cancelled := Times(n, now)) && Within(s.cancelled, now, now + 1.0) == n
  {
    if n == 0 {
    } else {
      CancelledFetchesAreUnbounded(now, n - 1);
      var (before, call) := (Flurry(n - 1), [Call(false, None)]);
      var s := Reach(Initial(now), before);
      assert (before + call)[..|before|] == before;
      assert Flurry(n)[..|before| + 1] == before + call;
      assert Reach(Initial(now), before + call) == s.(pending := Some(now));
      WithinSnoc(Times(n - 1, now), now, now, now + 1.0);
    }
  }

  lemma {:induction false} WithinSnoc(starts: seq<real>, t: real, from: real, until: real)
    ensures Within(starts + [t], from, until) == Within(starts, from, until) + if from <= t < until then 1 else 0
  {
    if starts == [] {
      assert [t][1..] == [];
    } else {
      assert (starts + [t])[1..] == starts[1..] + [t];
      WithinSnoc(starts[1..], t, from, until);
    }
  }

  /** Whether this step starts a fetch. */
  predicate Starts(s: System, a: Action) {
    a.Call? && s.pending.None? && Decide(s.cache, s.now, a.force, a.observed) == Fetch
  }

  /** The start times of all fetches of a run, however they end. */
  function AllStarts(now: real, actions: seq<Action>): seq<real> {
    if actions == [] then []
    else
      var before := actions[..|actions| - 1];
      var s := Reach(Initial(now), before);
      AllStarts(now, before) + if Starts(s, actions[|actions| - 1]) then [s.now] else []
  }

  lemma NextStarts(s: System, a: Action, from: real, until: real)
    ensures var r := Next(s, a);
      Within(Started(r), from, until) + Within(r.cancelled, from, until) ==
      Within(Started(s), from, until) + Within(s.cancelled, from, until)
      + if Starts(s, a) && from <= s.now < until then 1 else 0
  {
    hide Within, Decide, Begin, End;
    assert s.ended + [] == s.ended;
    match a {
      case Tick(_) =>
      case Call(_, _) => WithinSnoc(s.ended, s.now, from, until);
      case Done(o) =>
        if s.pending.Some? {
          WithinSnoc(s.ended, s.pending.value, from, until);
          WithinSnoc(s.cancelled, s.pending.value, from, until);
          assert s.ended + [s.pending.value] + [] == s.ended + [s.pending.value];
        }
    }
  }

  /** Every fetch of the run is accounted for: it was cancelled, or it ended otherwise or is still out. */
  lemma {:induction false} EveryStartCounts(now: real, actions: seq<Action>, from: real, until: real)
    ensures var s := Reach(Initial(now), actions);
      Within(AllStarts(now, actions), from, until) == Within(Started(s), from, until) + Within(s.cancelled, from, until)
  {
    hide Next, Within, Starts, Started;
    if actions == [] {
      NothingStarted(now, from, until);
    } else {
      var before := actions[..|actions| - 1];
      var s := Reach(Initial(now), before);
      EveryStartCounts(now, before, from, until);
      NextStarts(s, actions[|before|], from, until);
      WithinSnoc(AllStarts(now, before), s.now, from, until);
      assert AllStarts(now, before) + [] == AllStarts(now, before);
    }
  }

  lemma NothingStarted(now: real, from: real, until: real)
    ensures Within(Started(Initial(now)), from, until) == 0 && Within(Initial(now).cancelled, from, until) == 0
    ensures Within([], from, until) == 0
  {
  }

  /** So in less than sixty seconds all fetches together are at most two more than those that were cancelled. */
  lemma AllFetchesAreBounded(now: real, actions: seq<Action>, from: real, until: real)
    requires until - from <= COOLDOWN
    ensures Within(AllStarts(now, actions), from, until) <= 2 + Within(Reach(Initial(now), actions).cancelled, from, until)
  {
    hide Reach, Initial, AllStarts, Started;
    EveryStartCounts(now, actions, from, until);
    FetchesAreRare(now, actions, from, until);
  }

  // ---------------------------------------------------------------- how old the keys it serves are

  lemma {:induction false} StoredInv(now: real, actions: seq<Action>)
    ensures var s := Reach(Initial(now), actions);
      s.cache.keys.Some? ==> s.cache.expiresAt == s.storedAt + TTL && s.storedAt <= s.now
  {
    if actions != [] {
      StoredInv(now, actions[..|actions| - 1]);
    }
  }

  /** A key set is only ever served in the 3600 seconds after it was stored. */
  lemma ServedKeysAreRecent(now: real, actions: seq<Action>, force: bool, observed: Option<nat>)
    requires var s := Reach(Initial(now), actions); Decide(s.cache, s.now, force, observed) == Serve
    ensures var s := Reach(Initial(now), actions);
      s.cache.keys.Some? && 0.0 <= s.now - s.storedAt < TTL
  {
    StoredInv(now, actions);
  }

  // ---------------------------------------------------------------- what a call gets, from what has happened

  /** In step `n` a fetch brought keys. */
  ghost predicate StoredAt(now: real, actions: seq<Action>, n: nat)
    requires n < |actions|
  {
    Reach(Initial(now), actions[..n]).pending.Some? && actions[n].Done? && actions[n].outcome.Fetched?
  }

  ghost predicate FailedAt(now: real, actions: seq<Action>, n: nat)
    requires n < |actions|
  {
    Reach(Initial(now), actions[..n]).pending.Some? && actions[n] == Done(Failed)
  }

  ghost predicate ForcedAt(now: real, actions: seq<Action>, n: nat)
    requires n < |actions|
  {
    Starts(Reach(Initial(now), actions[..n]), actions[n]) && actions[n].force
  }

  /** The clock when step `n` was taken. */
  ghost function Clock(now: real, actions: seq<Action>, n: nat): real
    requires n < |actions|
  {
    Reach(Initial(now), actions[..n]).now
  }

  /** Keys stored then are still in use at time `t`. */
  ghost predicate KeepsUntil(now: real, actions: seq<Action>, t: real) {
    exists n :: 0 <= n < |actions| && StoredAt(now, actions, n) && t < Clock(now, actions, n) + 3600.0
  }

  /** The fetch that failed in step `n` still counts at time `t`: it is less than a minute ago, and none has brought keys
      since. */
  ghost predicate FailsUntil(now: real, actions: seq<Action>, n: nat, t: real)
    requires n < |actions|
  {
    && FailedAt(now, actions, n) && t < Clock(now, actions, n) + 60.0
    && forall m :: n < m < |actions| ==> !StoredAt(now, actions, m)
  }

  ghost predicate RecentlyFailed(now: real, actions: seq<Action>, t: real) {
    exists n :: 0 <= n < |actions| && FailsUntil(now, actions, n, t)
  }

  /** A forced fetch started less than a minute before. */
  ghost predicate RecentlyForced(now: real, actions: seq<Action>, t: real) {
    exists n :: 0 <= n < |actions| && ForcedAt(now, actions, n) && t < Clock(now, actions, n) + 60.0
  }

  lemma Longer(now: real, before: seq<Action>, a: Action, n: nat)
    requires n < |before|
    ensures Clock(now, before + [a], n) == Clock(now, before, n)
    ensures StoredAt(now, before + [a], n) == StoredAt(now, before, n)
    ensures FailedAt(now, before + [a], n) == FailedAt(now, before, n)
    ensures ForcedAt(now, before + [a], n) == ForcedAt(now, before, n)
  {
    hide Reach, Initial, Starts;
    assert (before + [a])[..n] == before[..n];
  }

  lemma Lately(now: real, before: seq<Action>, a: Action)
    ensures var (s, all, n) := (Reach(Initial(now), before), before + [a], |before|);
      && Clock(now, all, n) == s.now
      && StoredAt(now, all, n) == (s.pending.Some? && a.Done? && a.outcome.Fetched?)
      && FailedAt(now, all, n) == (s.pending.Some? && a == Done(Failed))
      && ForcedAt(now, all, n) == (Starts(s, a) && a.force)
  {
    hide Reach, Initial, Starts;
    assert (before + [a])[..|before|] == before;
  }

  lemma {:induction false} ClockRuns(now: real, actions: seq<Action>)
    ensures forall n :: 0 <= n < |actions| ==> Clock(now, actions, n) <= Reach(Initial(now), actions).now
  {
    if actions != [] {
      var (before, a) := (actions[..|actions| - 1], actions[|actions| - 1]);
      assert actions == before + [a];
      ClockRuns(now, before);
      Lately(now, before, a);
      forall n | 0 <= n < |before| ensures Clock(now, actions, n) <= Reach(Initial(now), before).now {
        Longer(now, before, a, n);
      }
    }
  }

  lemma KeepsNext(now: real, before: seq<Action>, a: Action, t: real)
    ensures var s := Reach(Initial(now), before);
      KeepsUntil(now, before + [a], t) <==>
      KeepsUntil(now, before, t) || (s.pending.Some? && a.Done? && a.outcome.Fetched? && t < s.now + 3600.0)
  {
    hide Reach, Initial, StoredAt, Clock;
    var all := before + [a];
    Lately(now, before, a);
    forall n | 0 <= n < |before|
      ensures StoredAt(now, all, n) == StoredAt(now, before, n) && Clock(now, all, n) == Clock(now, before, n)
    {
      Longer(now, before, a, n);
    }
  }

  lemma FailsLonger(now: real, before: seq<Action>, a: Action, n: nat, t: real)
    requires n < |before|
    ensures FailsUntil(now, before + [a], n, t) <==> FailsUntil(now, before, n, t) && !StoredAt(now, before + [a], |before|)
  {
    hide Reach, Initial, StoredAt, FailedAt, Clock;
    Longer(now, before, a, n);
    forall m | n < m < |before| ensures StoredAt(now, before + [a], m) == StoredAt(now, before, m) {
      Longer(now, before, a, m);
    }
  }

  lemma FailedNext(now: real, before: seq<Action>, a: Action, t: real)
    ensures var s := Reach(Initial(now), before);
      RecentlyFailed(now, before + [a], t) <==>
      if s.pending.Some? && a.Done? && a.outcome.Fetched? then false
      else RecentlyFailed(now, before, t) || (s.pending.Some? && a == Done(Failed) && t < s.now + 60.0)
  {
    hide Reach, Initial, StoredAt, FailedAt, Clock, FailsUntil;
    var all := before + [a];
    Lately(now, before, a);
    JustFailed(now, before, a, t);
    forall n | 0 <= n < |before|
      ensures FailsUntil(now, all, n, t) <==> FailsUntil(now, before, n, t) && !StoredAt(now, all, |before|)
    {
      FailsLonger(now, before, a, n, t);
    }
  }

  lemma JustFailed(now: real, before: seq<Action>, a: Action, t: real)
    ensures var s := Reach(Initial(now), before);
      FailsUntil(now, before + [a], |before|, t) <==> s.pending.Some? && a == Done(Failed) && t < s.now + 60.0
  {
    hide Reach, Initial, StoredAt, FailedAt, Clock;
    Lately(now, before, a);
  }

  lemma ForcedNext(now: real, before: seq<Action>, a: Action, t: real)
    ensures var s := Reach(Initial(now), before);
      RecentlyForced(now, before + [a], t) <==>
      RecentlyForced(now, before, t) || (Starts(s, a) && a.force && t < s.now + 60.0)
  {
    hide Reach, Initial, ForcedAt, Clock, Starts;
    var all := before + [a];
    Lately(now, before, a);
    forall n | 0 <= n < |before|
      ensures ForcedAt(now, all, n) == ForcedAt(now, before, n) && Clock(now, all, n) == Clock(now, before, n)
    {
      Longer(now, before, a, n);
    }
  }

  /** No later than a minute after the present; keys stored expire no later than an hour after it. */
  ghost predicate Bounded(s: System) {
    && (s.cache.keys.Some? ==> s.cache.expiresAt <= s.now + TTL)
    && (s.cache.retryAfter <= s.now + COOLDOWN || s.cache.retryAfter == 0.0)
    && (s.cache.forceAfter <= s.now + COOLDOWN || s.cache.forceAfter == 0.0)
  }

  lemma {:induction false} CacheRemembers(now: real, actions: seq<Action>, t: real)
    requires t >= 0.0
    ensures var s := Reach(Initial(now), actions);
      && Bounded(s)
      && (s.cache.keys.Some? && t < s.cache.expiresAt <==> KeepsUntil(now, actions, t))
      && (t < s.cache.retryAfter <==> RecentlyFailed(now, actions, t))
      && (t < s.cache.forceAfter <==> RecentlyForced(now, actions, t))
  {
    hide KeepsUntil, RecentlyFailed, RecentlyForced, Decide;
    if actions == [] {
      NothingYet(now, t);
    } else {
      var (before, a) := (actions[..|actions| - 1], actions[|actions| - 1]);
      assert actions == before + [a];
      CacheRemembers(now, before, t);
      KeepsNext(now, before, a, t);
      FailedNext(now, before, a, t);
      ForcedNext(now, before, a, t);
    }
  }

  lemma NothingYet(now: real, t: real)
    ensures !KeepsUntil(now, [], t) && !RecentlyFailed(now, [], t) && !RecentlyForced(now, [], t)
  {
  }

  /** In every run, what a call gets follows from what has happened: keys are served in the hour after they were brought,
      unless the caller has seen their very generation, asks for newer ones and no forced fetch started in the last minute;
      else the call is refused for a minute after a failure; else it fetches. */
  lemma DecidedByHistory(now: real, actions: seq<Action>, force: bool, observed: Option<nat>)
    requires Reach(Initial(now), actions).now >= 0.0
    ensures var s := Reach(Initial(now), actions);
      var serves := KeepsUntil(now, actions, s.now)
                    && (!force || observed != Some(s.cache.generation) || RecentlyForced(now, actions, s.now));
      var d := Decide(s.cache, s.now, force, observed);
      && (d == Serve <==> serves)
      && (d == Refuse <==> !serves && RecentlyFailed(now, actions, s.now))
  {
    hide Reach, Initial, KeepsUntil, RecentlyFailed, RecentlyForced;
    CacheRemembers(now, actions, Reach(Initial(now), actions).now);
  }

  /** The last keys that were brought are these. */
  ghost predicate LastBrought(now: real, actions: seq<Action>, n: nat, keys: nat)
    requires n < |actions|
  {
    && StoredAt(now, actions, n) && actions[n].outcome.keys == keys
    && forall m :: n < m < |actions| ==> !StoredAt(now, actions, m)
  }

  lemma BroughtLonger(now: real, before: seq<Action>, a: Action, n: nat, keys: nat)
    requires n < |before| && LastBrought(now, before, n, keys) && !StoredAt(now, before + [a], |before|)
    ensures LastBrought(now, before + [a], n, keys)
  {
    hide StoredAt;
    Longer(now, before, a, n);
    forall m | n < m < |before| ensures !StoredAt(now, before + [a], m) {
      Longer(now, before, a, m);
    }
    assert (before + [a])[n] == before[n];
  }

  /** And the keys in the cache are the ones the last successful fetch brought. */
  lemma {:induction false} ServedKeysWereBrought(now: real, actions: seq<Action>)
    ensures var s := Reach(Initial(now), actions);
      s.cache.keys.Some? ==> exists n :: 0 <= n < |actions| && LastBrought(now, actions, n, s.cache.keys.value)
  {
    hide LastBrought, StoredAt, Decide;
    if actions != [] {
      var (before, a) := (actions[..|actions| - 1], actions[|actions| - 1]);
      assert actions == before + [a];
      var s := Reach(Initial(now), before);
      ServedKeysWereBrought(now, before);
      Lately(now, before, a);
      if s.pending.Some? && a.Done? && a.outcome.Fetched? {
        assert LastBrought(now, actions, |before|, a.outcome.keys) by { JustBrought(now, actions, |before|, a.outcome.keys); }
      } else if s.cache.keys.Some? {
        var n :| 0 <= n < |before| && LastBrought(now, before, n, s.cache.keys.value);
        BroughtLonger(now, before, a, n, s.cache.keys.value);
      }
    }
  }

  lemma JustBrought(now: real, actions: seq<Action>, n: nat, keys: nat)
    requires n + 1 == |actions| && StoredAt(now, actions, n) && actions[n] == Done(Fetched(keys))
    ensures LastBrought(now, actions, n, keys)
  {
    hide Reach, Initial;
  }

  // ---------------------------------------------------------------- the cache in place, and a validation

  /** What checking a token against a key set says. */
  datatype Check = NoSuchKey | BadSignature | Invalid | Good
  datatype Verdict = Accepted(keys: nat) | Denied

  /** One fetch as it will turn out: how long it takes and how it ends. */
  datatype Weather = Weather(elapsed: real, outcome: Outcome)

  /** What one call of `_get_keys` answers: a key set or nothing, and the generation it saw. */
  datatype Answer = Answer(keys: Option<nat>, generation: nat)

  predicate Verifies(check: nat -> Check, a: Answer) {
    a.keys.Some? && check(a.keys.value) == Good
  }

  /** The key set lacks the key, or its key does not fit the signature. */
  predicate Unsettled(check: nat -> Check, a: Answer) {
    a.keys.Some? && (check(a.keys.value) == NoSuchKey || check(a.keys.value) == BadSignature)
  }

  /** A call that nobody comes between. */
  function Answered(c: Cache, now: real, force: bool, observed: Option<nat>, w: Weather): Answer {
    match Decide(c, now, force, observed)
    case Serve => Answer(c.keys, c.generation)
    case Refuse => Answer(None, c.generation)
    case Fetch =>
      match w.outcome
      case Fetched(keys) => Answer(Some(keys), c.generation + 1)
      case Failed => Answer(None, c.generation + 1)
      case Cancelled => Answer(None, c.generation)
  }

  class Validator {
    var keys: Option<nat>
    var expiresAt: real
    var generation: nat
    var retryAfter: real
    var forceAfter: real
    var now: real
    var fetches: nat

    constructor (now: real)
      ensures Value() == Initial(now).cache && this.now == now && fetches == 0
    {
      keys, expiresAt, generation, retryAfter, forceAfter, fetches := None, 0.0, 0, 0.0, 0.0, 0;
      this.now := now;
    }

    function Value(): Cache
      reads this
    {
      Cache(keys, expiresAt, generation, retryAfter, forceAfter)
    }

    /** `_get_keys`; no keys means that it raised. */
    method GetKeys(force: bool, observed: Option<nat>, w: Weather) returns (got: Option<nat>, at: nat)
      requires w.elapsed >= 0.0
      modifies this
      ensures at == generation
      ensures match Decide(old(Value()), old(now), force, observed)
              case Serve => Value() == old(Value()) && got == keys && fetches == old(fetches) && now == old(now)
              case Refuse => Value() == old(Value()) && got == None && fetches == old(fetches) && now == old(now)
              case Fetch =>
                && fetches == old(fetches) + 1 && now == old(now) + w.elapsed
                && Value() == End(Begin(old(Value()), old(now), force), now, w.outcome)
                && got == if w.outcome.Fetched? then keys else None
    {
      at := generation;
      var current := keys.Some? && now < expiresAt;
      if current && (!force || observed != Some(generation) || now < forceAfter) {
        return keys, generation;
      }
      if now < retryAfter {
        return None, generation;
      }
      if force {
        forceAfter := now + COOLDOWN;
      }
      fetches := fetches + 1;
      now := now + w.elapsed;
      match w.outcome {
        case Cancelled => return None, generation;
        case Failed =>
          retryAfter := now + COOLDOWN;
          generation := generation + 1;
          return None, generation;
        case Fetched(found) =>
          keys := Some(found);
          expiresAt := now + TTL;
          retryAfter := 0.0;
          generation := generation + 1;
          return keys, generation;
      }
    }

    /** Other validations and the passing of time, while this one waits; their fetches are not counted here. */
    method Others(calls: seq<(bool, Option<nat>, Weather, real)>)
      modifies this
      ensures fetches == old(fetches) && generation >= old(generation)
      ensures calls == [] ==> Value() == old(Value()) && now == old(now)
    {
      for i := 0 to |calls|
        invariant fetches == old(fetches) && generation >= old(generation)
        invariant i == 0 ==> Value() == old(Value()) && now == old(now)
      {
        var (force, observed, w, pause) := calls[i];
        if w.elapsed >= 0.0 && pause >= 0.0 {
          now := now + pause;
          var mine := fetches;
          var _, _ := GetKeys(force, observed, w);
          fetches := mine;
        }
      }
    }

    /** The retry loop of `validate`; `calls` are the answers of the key cache that this validation got. One of its key sets
        verifies the token, or it is denied: because the cache raised, because a key set shows the token to be invalid, or
        because even the last key set does not settle it. The one retry is made exactly if the first key set does not settle
        it and nobody has replaced the keys since the start; one validation starts at most one fetch. */
    method Validate(check: nat -> Check, weather: seq<Weather>, others: seq<seq<(bool, Option<nat>, Weather, real)>>)
      returns (verdict: Verdict, ghost calls: seq<Answer>)
      requires |weather| == 2 && |others| == 2 && forall w <- weather :: w.elapsed >= 0.0
      modifies this
      ensures fetches <= old(fetches) + 1
      ensures 1 <= |calls| <= 2
      ensures |calls| == 2 <==> Unsettled(check, calls[0]) && calls[0].generation == old(generation)
      ensures verdict.Accepted? <==> exists i :: 0 <= i < |calls| && Verifies(check, calls[i])
      ensures verdict.Accepted? ==> calls[|calls| - 1].keys == Some(verdict.keys)
      ensures verdict.Denied? <==>
              var last := calls[|calls| - 1];
              last.keys.None? || check(last.keys.value) == Invalid || Unsettled(check, last)
      ensures others[0] == [] ==> calls[0] == Answered(old(Value()), old(now), false, None, weather[0])
      ensures others == [[], []] && |calls| == 2 && Fresh(old(Value()), old(now)) ==>
              calls[1] == Answered(old(Value()), old(now), true, Some(old(generation)), weather[1])
    {
      var starting := generation;
      Others(others[0]);
      var got, seen := GetKeys(false, None, weather[0]);
      calls := [Answer(got, seen)];
      if got.None? {
        return Denied, calls;
      }
      assert fetches == old(fetches) + 1 ==> seen != starting;
      for attempt := 0 to 2
        invariant got.Some?
        invariant attempt == 0 ==> fetches <= old(fetches) + 1 && (fetches == old(fetches) + 1 ==> seen != starting)
        invariant attempt == 0 ==> calls == [Answer(got, seen)]
        invariant attempt == 0 && others[0] == [] && Fresh(old(Value()), old(now)) ==>
                  Value() == old(Value()) && now == old(now)
        invariant attempt >= 1 ==> fetches <= old(fetches) + 1
        invariant attempt >= 1 ==> |calls| == 2 && Unsettled(check, calls[0]) && calls[0].generation == starting
        invariant attempt >= 1 ==> calls[1].keys == got
        invariant attempt == 2 ==> Unsettled(check, calls[1])
        invariant others[0] == [] ==> calls[0] == Answered(old(Value()), old(now), false, None, weather[0])
        invariant others == [[], []] && |calls| == 2 && Fresh(old(Value()), old(now)) ==>
                  calls[1] == Answered(old(Value()), old(now), true, Some(old(generation)), weather[1])
      {
        match check(got.value) {
          case Good =>
            assert Verifies(check, calls[attempt]);
            return Accepted(got.value), calls;
          case Invalid => return Denied, calls;
          case NoSuchKey =>
          case BadSignature =>
        }
        if attempt > 0 || seen != starting {
          return Denied, calls;
        }
        Others(others[1]);
        var newer;
        got, newer := GetKeys(true, Some(seen), weather[1]);
        calls := calls + [Answer(got, newer)];
        if got.None? {
          return Denied, calls;
        }
      }
      verdict := Denied;
    }
  }
}
