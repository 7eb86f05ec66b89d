/** Concurrent updates of one document behave like one update at a time. */
module StoreLinearizability {
  import opened Options
  import opened ConversationStore

  function VersionOf(version: Option<nat>): nat {
    match version case None => 0 case Some(v) => v
  }

  function RowVersion(row: Option<Row>): nat {
    match row case None => 0 case Some(r) => r.version
  }

  /** One run of the transform on `base` gave `result`, up to the time stamp, and left `flag` behind. */
  ghost predicate Produces(scope: Scope, t: Transform, base: Doc, result: Doc, flag: bool) {
    match Apply(t, base)
    case Raises => false
    case Candidate(doc, f) =>
      f == flag && result == doc.(updatedAt := result.updatedAt) && doc != base && ValidDoc(scope, doc)
  }

  /** The k-th commit is its transform applied to exactly what the k commits before it left behind. */
  ghost predicate CommitInv(s: System, k: nat)
    requires k < |s.history|
  {
    var c := s.history[k];
    && c.base == View(s.scope, s.ttl, s.history[..k], c.judgedAt)
    && (Produces(s.scope, c.transform, c.base, c.result, true) || Produces(s.scope, c.transform, c.base, c.result, false))
    && c.judgedAt <= c.result.updatedAt <= c.at <= s.now
    && (k > 0 ==> s.history[k - 1].at <= c.judgedAt)
  }

  ghost predicate HistoryInv(s: System) {
    && (s.row.None? <==> s.history == [])
    && (s.row.Some? ==> s.row.value == Row(|s.history|, s.history[|s.history| - 1].result))
    && (forall k :: 0 <= k < |s.history| ==> CommitInv(s, k))
  }

  /** A version read during the call, and what the document showed under it. */
  ghost predicate Snapshot(s: System, c: Client, version: Option<nat>, original: Doc, judgedAt: nat) {
    var v := VersionOf(version);
    && (version.Some? ==> v > 0) && c.attempt < s.maxAttempts
    && c.started + c.attempt <= v <= |s.history|
    && judgedAt <= s.now && (v > 0 ==> s.history[v - 1].at <= judgedAt)
    && original == View(s.scope, s.ttl, s.history[..v], judgedAt)
  }

  ghost predicate ClientInv(s: System, id: nat)
    requires id in s.clients
  {
    var c := s.clients[id];
    match c.phase
    case Reading => c.attempt < s.maxAttempts && c.started + c.attempt <= |s.history|
    case Fetched(row) =>
      && c.attempt < s.maxAttempts && c.started + c.attempt <= RowVersion(row) <= |s.history|
      && (row.Some? ==> RowVersion(row) > 0 && row.value.doc == s.history[RowVersion(row) - 1].result
                        && s.history[RowVersion(row) - 1].at <= s.now)
    case Judged(original, version, judgedAt) => Snapshot(s, c, version, original, judgedAt)
    case Swapping(candidate, original, version, judgedAt) =>
      && Snapshot(s, c, version, original, judgedAt)
      && Produces(s.scope, c.transform, original, candidate, c.flag)
      && judgedAt <= candidate.updatedAt <= s.now
    case Unchanged(doc, seenAt, judgedAt) =>
      && c.started <= seenAt <= |s.history| && doc == View(s.scope, s.ttl, s.history[..seenAt], judgedAt)
      && Apply(c.transform, doc) == Candidate(doc, c.flag)
    case Committed(doc, at) =>
      && c.started <= at < |s.history| && s.history[at].client == id && s.history[at].transform == c.transform
      && s.history[at].result == doc && Produces(s.scope, c.transform, s.history[at].base, doc, c.flag)
    case Conflicted => c.started + s.maxAttempts <= |s.history|
    case Failed => true
  }

  /** A call commits at most once, and has then returned or been given up. */
  ghost predicate OwnersInv(s: System) {
    forall k :: 0 <= k < |s.history| ==>
      && s.history[k].client in s.clients
      && var phase := s.clients[s.history[k].client].phase;
      phase.Failed? || (phase.Committed? && phase.at == k)
  }

  ghost predicate OnceInv(s: System) {
    forall i, j :: 0 <= i < j < |s.history| ==> s.history[i].client != s.history[j].client
  }

  ghost predicate Inv(s: System) {
    && s.maxAttempts > 0 && HistoryInv(s) && OwnersInv(s) && OnceInv(s)
    && (forall id <- s.clients :: ClientInv(s, id))
  }

  // ---------------------------------------------------------------- the steps

  lemma GotoKeeps(s: System, id: nat, c: Client)
    requires Inv(s) && id in s.clients && !s.clients[id].phase.Committed?
    requires !s.clients[id].phase.Failed?
    requires var z := s.(clients := s.clients[id := c]); ClientInv(z, id)
    requires !c.phase.Committed?
    ensures Inv(s.(clients := s.clients[id := c]))
  {
    hide View, ValidDoc, Apply;
    var z := s.(clients := s.clients[id := c]);
    forall u <- z.clients ensures ClientInv(z, u) {
      if u != id {
        assert ClientInv(s, u);
      }
    }
    forall k | 0 <= k < |z.history| ensures CommitInv(z, k) {
      assert CommitInv(s, k);
    }
  }

  lemma JudgeStep(s: System, id: nat)
    requires Inv(s) && id in s.clients && s.clients[id].phase.Fetched?
    ensures Inv(Next(s, Judge(id)))
  {
    hide ValidDoc, Apply;
    assert ClientInv(s, id);
    var row := s.clients[id].phase.row;
    if row.Some? {
      var v := row.value.version;
      assert s.history[..v][|s.history[..v]| - 1] == s.history[v - 1];
    }
    GotoKeeps(s, id, Next(s, Judge(id)).clients[id]);
  }

  lemma TransformStep(s: System, id: nat)
    requires Inv(s) && id in s.clients && s.clients[id].phase.Judged?
    ensures Inv(Next(s, Transform(id)))
  {
    hide ValidDoc, Apply, View, Inv;
    var p := s.clients[id].phase;
    OneClient(s, id);
    var z := Next(s, Transform(id));
    TransformLands(s, id, p.original, p.version, p.judgedAt);
    GotoKeeps(s, id, z.clients[id]);
    assert z == s.(clients := s.clients[id := z.clients[id]]);
  }

  lemma OneClient(s: System, id: nat)
    requires Inv(s) && id in s.clients
    ensures ClientInv(s, id)
  {
    hide ClientInv, CommitInv;
  }

  lemma TransformLands(s: System, id: nat, original: Doc, version: Option<nat>, judgedAt: nat)
    requires id in s.clients && s.clients[id].phase == Judged(original, version, judgedAt) && ClientInv(s, id)
    ensures var z := StepTransform(s, id, original, version, judgedAt);
      id in z.clients && z == s.(clients := s.clients[id := z.clients[id]]) && ClientInv(z, id) && !z.clients[id].phase.Committed?
  {
    hide ValidDoc, Apply, View;
  }

  /** The history with one more commit. */
  lemma CommitKeepsHistory(s: System, z: System, e: Commit)
    requires HistoryInv(s) && z.history == s.history + [e] && z.scope == s.scope && z.ttl == s.ttl && z.now == s.now
    requires z.row == Some(Row(|s.history| + 1, e.result))
    requires e.base == View(s.scope, s.ttl, s.history, e.judgedAt) && e.judgedAt <= e.result.updatedAt <= e.at == s.now
    requires Produces(s.scope, e.transform, e.base, e.result, true) || Produces(s.scope, e.transform, e.base, e.result, false)
    requires s.history != [] ==> s.history[|s.history| - 1].at <= e.judgedAt
    ensures HistoryInv(z)
  {
    hide ValidDoc, Apply, View, Produces;
    forall k | 0 <= k < |z.history| ensures CommitInv(z, k) {
      if k < |s.history| {
        assert CommitInv(s, k);
        assert z.history[..k] == s.history[..k];
      } else {
        assert z.history[..k] == s.history;
      }
    }
  }

  lemma CommitKeepsClient(s: System, z: System, e: Commit, u: nat)
    requires u in s.clients && ClientInv(s, u) && u in z.clients && z.clients[u] == s.clients[u]
    requires z.history == s.history + [e] && z.scope == s.scope && z.ttl == s.ttl && z.now == s.now && z.maxAttempts == s.maxAttempts
    ensures ClientInv(z, u)
  {
    hide ValidDoc, Apply, View, Produces;
    assert forall v :: 0 <= v <= |s.history| ==> z.history[..v] == s.history[..v];
  }

  lemma CommitKeeps(s: System, id: nat, candidate: Doc, original: Doc, version: Option<nat>, judgedAt: nat)
    requires Inv(s) && id in s.clients && s.clients[id].phase == Swapping(candidate, original, version, judgedAt)
    requires (match s.row case None => None case Some(r) => Some(r.version)) == version
    ensures Inv(StepSwap(s, id, candidate, original, version, judgedAt))
  {
    hide ValidDoc, Apply, View, CommitInv, Produces;
    OneClient(s, id);
    var z := StepSwap(s, id, candidate, original, version, judgedAt);
    var e := Commit(id, s.clients[id].transform, judgedAt, original, candidate, s.now);
    assert z.history == s.history + [e];
    assert s.history[..|s.history|] == s.history;
    CommitKeepsHistory(s, z, e);
    forall u <- z.clients ensures ClientInv(z, u) {
      if u != id {
        OneClient(s, u);
        CommitKeepsClient(s, z, e, u);
      }
    }
  }

  lemma SwapStep(s: System, id: nat)
    requires Inv(s) && id in s.clients && s.clients[id].phase.Swapping?
    ensures Inv(Next(s, Swap(id)))
  {
    hide ValidDoc, Apply, View, Produces;
    assert ClientInv(s, id);
    var p := s.clients[id].phase;
    if (match s.row case None => None case Some(r) => Some(r.version)) == p.version {
      CommitKeeps(s, id, p.candidate, p.original, p.version, p.judgedAt);
    } else {
      assert VersionOf(p.version) < |s.history|;
      GotoKeeps(s, id, Next(s, Swap(id)).clients[id]);
    }
  }

  lemma LoseStep(s: System, id: nat)
    requires Inv(s) && id in s.clients
    ensures Inv(Goto(s, id, Failed))
  {
    hide ValidDoc, Apply, View, Produces;
    var z := Goto(s, id, Failed);
    forall u <- z.clients ensures ClientInv(z, u) {
      if u != id {
        assert ClientInv(s, u);
      }
    }
    forall k | 0 <= k < |z.history| ensures CommitInv(z, k) {
      assert CommitInv(s, k);
    }
  }

  lemma HistoryFrame(s: System, z: System)
    requires HistoryInv(s) && z == s.(clients := z.clients)
    ensures HistoryInv(z)
  {
    hide ValidDoc, Apply, View, Produces;
    forall k | 0 <= k < |z.history| ensures CommitInv(z, k) {
      assert CommitInv(s, k);
    }
  }

  lemma BeginStep(s: System, id: nat, t: Transform)
    requires Inv(s) && id !in s.clients
    ensures Inv(Next(s, Begin(id, t)))
  {
    hide ValidDoc, Apply, View, Produces, HistoryInv;
    var z := Next(s, Begin(id, t));
    HistoryFrame(s, z);
    forall u <- z.clients ensures ClientInv(z, u) {
      if u != id {
        assert ClientInv(s, u);
      }
    }
  }

  lemma TickStep(s: System, elapsed: nat)
    requires Inv(s)
    ensures Inv(Next(s, Tick(elapsed)))
  {
    hide ValidDoc, Apply, View, Produces;
    var z := Next(s, Tick(elapsed));
    forall u <- z.clients ensures ClientInv(z, u) {
      assert ClientInv(s, u);
    }
    forall k | 0 <= k < |z.history| ensures CommitInv(z, k) {
      assert CommitInv(s, k);
    }
  }

  lemma FetchStep(s: System, id: nat)
    requires Inv(s) && id in s.clients && s.clients[id].phase.Reading?
    ensures Inv(Next(s, Fetch(id)))
  {
    hide ValidDoc, Apply, View, Produces;
    assert ClientInv(s, id);
    if s.history != [] {
      assert CommitInv(s, |s.history| - 1);
    }
    GotoKeeps(s, id, Next(s, Fetch(id)).clients[id]);
  }

  lemma NextKeeps(s: System, a: Action)
    requires Inv(s)
    ensures Inv(Next(s, a))
  {
    hide Inv, StepJudge, StepTransform, StepSwap;
    match a
    case Tick(elapsed) => TickStep(s, elapsed);
    case Begin(id, t) => if id !in s.clients { BeginStep(s, id, t); }
    case Fetch(id) => if id in s.clients && s.clients[id].phase.Reading? { FetchStep(s, id); }
    case Judge(id) => if id in s.clients && s.clients[id].phase.Fetched? { JudgeStep(s, id); }
    case Transform(id) => if id in s.clients && s.clients[id].phase.Judged? { TransformStep(s, id); }
    case Swap(id) => if id in s.clients && s.clients[id].phase.Swapping? { SwapStep(s, id); }
    case Lose(id) => if id in s.clients { LoseStep(s, id); }
  }

  lemma {:induction false} RunKeeps(s: System, actions: seq<Action>)
    requires Inv(s)
    ensures Inv(Run(s, actions))
  {
    hide Inv, Next;
    if actions != [] {
      RunKeeps(s, actions[..|actions| - 1]);
      NextKeeps(Run(s, actions[..|actions| - 1]), actions[|actions| - 1]);
    }
  }

  // ---------------------------------------------------------------- what it means

  /** The stored document is the fold of the committed transforms, in commit order, and its version counts them. */
  lemma {:induction false} ReplayUpTo(s: System, k: nat)
    requires HistoryInv(s) && 0 < k <= |s.history|
    ensures Replay(s.scope, s.ttl, s.history[..k]) == Some(s.history[k - 1].result)
  {
    hide ValidDoc, Apply;
    var prefix := s.history[..k];
    assert CommitInv(s, k - 1);
    assert prefix[..k - 1] == s.history[..k - 1];
    if k > 1 {
      ReplayUpTo(s, k - 1);
      assert s.history[..k - 1][k - 2] == s.history[k - 2];
    }
  }

  lemma StateIsReplay(scope: Scope, ttl: nat, maxAttempts: nat, now: nat, actions: seq<Action>)
    requires maxAttempts > 0
    ensures var s := Run(Initial(scope, ttl, maxAttempts, now), actions);
      match Replay(scope, ttl, s.history)
      case None => s.row.None? && s.history == []
      case Some(doc) => s.row == Some(Row(|s.history|, doc))
  {
    hide ValidDoc, Apply, View, Produces, Run, CommitInv, ClientInv;
    var s := Run(Initial(scope, ttl, maxAttempts, now), actions);
    RunKeeps(Initial(scope, ttl, maxAttempts, now), actions);
    SameSettings(Initial(scope, ttl, maxAttempts, now), actions);
    if s.history != [] {
      ReplayUpTo(s, |s.history|);
      assert s.history[..|s.history|] == s.history;
    }
  }

  lemma {:induction false} SameSettings(s: System, actions: seq<Action>)
    ensures var z := Run(s, actions); z.scope == s.scope && z.ttl == s.ttl && z.maxAttempts == s.maxAttempts
  {
    hide ValidDoc, Apply;
    if actions != [] {
      SameSettings(s, actions[..|actions| - 1]);
    }
  }

  /** How a call of `update` ends: it took effect at one point between its start and its end, it saw a document it
      would not change at one such point, or every one of its attempts was beaten by another commit. */
  lemma EveryCallIsAtomic(scope: Scope, ttl: nat, maxAttempts: nat, now: nat, actions: seq<Action>, id: nat)
    requires maxAttempts > 0
    ensures var s := Run(Initial(scope, ttl, maxAttempts, now), actions);
      id in s.clients ==>
        var c := s.clients[id];
        && (c.phase.Committed? ==>
              && c.started <= c.phase.at < |s.history|
              && var e := s.history[c.phase.at];
              && e.client == id && e.result == c.phase.doc
              && e.base == View(scope, ttl, s.history[..c.phase.at], e.judgedAt)
              && Produces(scope, c.transform, e.base, e.result, c.flag)
              && (forall k :: 0 <= k < |s.history| && s.history[k].client == id ==> k == c.phase.at))
        && (c.phase.Unchanged? ==>
              && c.started <= c.phase.seenAt <= |s.history|
              && Apply(c.transform, View(scope, ttl, s.history[..c.phase.seenAt], c.phase.judgedAt))
                   == Candidate(c.phase.doc, c.flag)
              && c.phase.doc == View(scope, ttl, s.history[..c.phase.seenAt], c.phase.judgedAt)
              && (forall k :: 0 <= k < |s.history| ==> s.history[k].client != id))
        && (c.phase.Conflicted? ==>
              && |s.history| - c.started >= maxAttempts
              && (forall k :: 0 <= k < |s.history| ==> s.history[k].client != id))
  {
    hide ValidDoc, Apply, View, Produces;
    var s := Run(Initial(scope, ttl, maxAttempts, now), actions);
    RunKeeps(Initial(scope, ttl, maxAttempts, now), actions);
    SameSettings(Initial(scope, ttl, maxAttempts, now), actions);
    if id in s.clients {
      assert ClientInv(s, id);
      if s.clients[id].phase.Committed? {
        assert CommitInv(s, s.clients[id].phase.at);
      }
    }
  }

  lemma HistoryGrows(s: System, a: Action)
    ensures var (h, z) := (s.history, Next(s, a).history); z == h || (|z| == |h| + 1 && z[..|h|] == h)
  {
    hide ValidDoc, Apply;
  }

  /** Step `n` of the run is the one that committed number `k`. */
  ghost predicate CommitsAt(s: System, actions: seq<Action>, n: nat, k: nat)
    requires n < |actions|
  {
    var h := Run(s, actions).history;
    k < |h| && Run(s, actions[..n]).history == h[..k] && Run(s, actions[..n + 1]).history == h[..k + 1]
  }

  lemma {:induction false} EveryCommitHasItsStep(s: System, actions: seq<Action>, k: nat)
    requires s.history == [] && k < |Run(s, actions).history|
    ensures exists n :: 0 <= n < |actions| && CommitsAt(s, actions, n, k)
  {
    hide Next;
    var before := actions[..|actions| - 1];
    var (x, h) := (Run(s, before), Run(s, actions).history);
    HistoryGrows(x, actions[|actions| - 1]);
    assert x.history == h[..|x.history|];
    if k < |x.history| {
      EveryCommitHasItsStep(s, before, k);
      var n :| 0 <= n < |before| && CommitsAt(s, before, n, k);
      assert before[..n] == actions[..n] && before[..n + 1] == actions[..n + 1];
      assert x.history[..k] == h[..k] && x.history[..k + 1] == h[..k + 1];
      assert CommitsAt(s, actions, n, k);
    } else {
      assert actions[..|actions|] == actions && h[..k + 1] == h;
      assert CommitsAt(s, actions, |actions| - 1, k);
    }
  }

  /** A commit that finds its document expired starts from a fresh one, and still counts the storage version on: the
      step that commits number `k` turns a row of version `k` into one of version `k + 1`, expired or not. */
  lemma ExpiryKeepsTheVersion(scope: Scope, ttl: nat, maxAttempts: nat, now: nat, actions: seq<Action>, k: nat)
    requires maxAttempts > 0
    ensures var s0 := Initial(scope, ttl, maxAttempts, now);
      var s := Run(s0, actions);
      0 < k < |s.history| ==>
        var (e, before) := (s.history[k], s.history[k - 1]);
        && before.at <= e.judgedAt
        && e.base == (if e.judgedAt - before.result.updatedAt >= ttl then Fresh(scope, e.judgedAt) else before.result)
        && (exists n :: 0 <= n < |actions| && Run(s0, actions[..n]).row == Some(Row(k, before.result))
                        && Run(s0, actions[..n + 1]).row == Some(Row(k + 1, e.result)))
  {
    hide ValidDoc, Apply, Run, Inv, CommitsAt;
    var s0 := Initial(scope, ttl, maxAttempts, now);
    var s := Run(s0, actions);
    InitialIsKept(scope, ttl, maxAttempts, now);
    RunKeeps(s0, actions);
    SameSettings(s0, actions);
    if 0 < k < |s.history| {
      CommitBase(s, k);
      EveryCommitHasItsStep(s0, actions, k);
      var n :| 0 <= n < |actions| && CommitsAt(s0, actions, n, k);
      CommitRows(s0, actions, n, k);
    }
  }

  lemma InitialIsKept(scope: Scope, ttl: nat, maxAttempts: nat, now: nat)
    requires maxAttempts > 0
    ensures Inv(Initial(scope, ttl, maxAttempts, now))
  {
  }

  lemma CommitBase(s: System, k: nat)
    requires Inv(s) && 0 < k < |s.history|
    ensures var (e, before) := (s.history[k], s.history[k - 1]);
      && before.at <= e.judgedAt
      && e.base == (if e.judgedAt - before.result.updatedAt >= s.ttl then Fresh(s.scope, e.judgedAt) else before.result)
  {
    hide ValidDoc, Apply, ClientInv, Produces;
    assert CommitInv(s, k);
    assert s.history[..k][k - 1] == s.history[k - 1];
  }

  lemma CommitRows(s: System, actions: seq<Action>, n: nat, k: nat)
    requires Inv(s) && n < |actions| && k > 0 && CommitsAt(s, actions, n, k)
    ensures var h := Run(s, actions).history;
      && k < |h| && Run(s, actions[..n]).row == Some(Row(k, h[k - 1].result))
      && Run(s, actions[..n + 1]).row == Some(Row(k + 1, h[k].result))
  {
    hide Inv, Run;
    var h := Run(s, actions).history;
    RowOfRun(s, actions[..n], h[..k]);
    RowOfRun(s, actions[..n + 1], h[..k + 1]);
  }

  lemma RowOfRun(s: System, actions: seq<Action>, history: seq<Commit>)
    requires Inv(s) && Run(s, actions).history == history && history != []
    ensures Run(s, actions).row == Some(Row(|history|, history[|history| - 1].result))
  {
    hide Run, CommitInv, ClientInv;
    RunKeeps(s, actions);
  }

  // ---------------------------------------------------------------- what is read and what is stored

  /** A call that finds no document, or one that has not been updated for the time a document lives, works on an empty one; any
      other call works on the document as it is stored. */
  lemma MissingOrExpiredReadsBlank(s: System, c: nat, row: Option<Row>)
    requires c in s.clients
    ensures var z := StepJudge(s, c, row);
      && z.clients[c].phase.Judged? && z.row == s.row && z.history == s.history
      && z.clients[c].phase.original == (if row == None || s.now >= row.value.doc.updatedAt + s.ttl
                                         then Doc(1, s.scope, "", [], [], map[], false, false, s.now) else row.value.doc)
      && z.clients[c].phase.version == (if row == None then None else Some(row.value.version))
  {
  }

  /** In every run the stored document is one of its scope and within its bounds, and shows the time of its last update. */
  lemma StoredDocumentIsValid(scope: Scope, ttl: nat, maxAttempts: nat, now: nat, actions: seq<Action>)
    requires maxAttempts > 0
    ensures var s := Run(Initial(scope, ttl, maxAttempts, now), actions);
      s.row.Some? ==>
        var d := s.row.value.doc;
        && d.scope == scope && d.schemaVersion == 1 && |d.summary| <= 8000 && |d.recent| <= 16 && |d.seen| <= 512
        && (forall m <- d.recent :: |m.content| <= 8000 && m.role in {"user", "assistant", "system", "tool"})
        && d.updatedAt <= s.now
  {
    hide Run, Next, View, Apply;
    InitialIsKept(scope, ttl, maxAttempts, now);
    RunKeeps(Initial(scope, ttl, maxAttempts, now), actions);
    SameSettings(Initial(scope, ttl, maxAttempts, now), actions);
    var s := Run(Initial(scope, ttl, maxAttempts, now), actions);
    if s.row.Some? {
      assert CommitInv(s, |s.history| - 1);
    }
  }
}
