/** What the bounded list of receipts guarantees over any interleaving of updates. */
module StoreReceipts {
  import opened Options
  import opened ReceiptWindow
  import opened ConversationStore
  import opened StoreLinearizability

  /** Transforms passed in by callers do not write receipts or the welcome mark. */
  ghost predicate Disciplined(t: Transform) {
    t.Other? ==> forall d: Doc :: t.f(d).Some? ==> t.f(d).value.seen == d.seen && t.f(d).value.welcomed == d.welcomed
  }

  /** The receipt a commit newly recorded. */
  function NewId(e: Commit): Option<string> {
    match e.transform
    case ClaimActivity(id) => if id in e.base.seen then None else Some(id)
    case AppendExchange(id, _, _, _) => if id in e.base.seen then None else Some(id)
    case _ => None
  }

  /** The receipts newly recorded strictly between two commits. */
  function NewIds(history: seq<Commit>, i: nat, j: nat): set<string>
    requires j <= |history|
  {
    set k | i < k < j && NewId(history[k]).Some? :: NewId(history[k]).value
  }

  /** No commit from `i` to `j` found its document expired. */
  ghost predicate Unexpired(s: System, i: nat, j: nat)
    requires j < |s.history|
  {
    forall k :: i < k <= j ==> !Expired(s.history[k - 1].result, s.ttl, s.history[k].judgedAt)
  }

  lemma SeenStep(s: System, k: nat)
    requires HistoryInv(s) && k < |s.history| && Disciplined(s.history[k].transform)
    ensures var e := s.history[k];
      && NoRepeats(e.result.seen) && |e.result.seen| <= MAX_SEEN_IDS
      && e.result.seen == (match NewId(e) case None => e.base.seen case Some(id) => LastN(e.base.seen + [id], MAX_SEEN_IDS))
      && (NewId(e).Some? ==> NewId(e).value !in e.base.seen)
  {
    hide View;
    assert CommitInv(s, k);
  }

  lemma BaseIsPrevious(s: System, i: nat, j: nat, k: nat)
    requires HistoryInv(s) && j < |s.history| && Unexpired(s, i, j) && i < k <= j
    ensures s.history[k].base == s.history[k - 1].result
  {
    hide ValidDoc, Produces;
    assert CommitInv(s, k);
    assert s.history[..k][k - 1] == s.history[k - 1];
  }

  lemma {:induction false} WindowHolds(s: System, i: nat, j: nat, k: nat, x: string)
    requires HistoryInv(s) && i <= k <= j < |s.history| && Unexpired(s, i, j)
    requires forall n :: i <= n <= k ==> Disciplined(s.history[n].transform)
    requires NewId(s.history[i]) == Some(x)
    ensures Behind(s.history[k].result.seen, MAX_SEEN_IDS, x, NewIds(s.history, i, k + 1))
  {
    hide ValidDoc, View, HistoryInv, Unexpired, Disciplined, Behind, NewIds, Apply;
    SeenStep(s, k);
    var e := s.history[k];
    if k == i {
      LastIsBehind(e.result.seen, MAX_SEEN_IDS, x, NewIds(s.history, i, k + 1));
    } else {
      WindowHolds(s, i, j, k - 1, x);
      SeenStep(s, k - 1);
      BaseIsPrevious(s, i, j, k);
      NewIdsGrow(s.history, i, k);
      WindowMoves(e.base.seen, MAX_SEEN_IDS, NewId(e), x, NewIds(s.history, i, k), NewIds(s.history, i, k + 1));
    }
  }

  lemma NewIdsGrow(history: seq<Commit>, i: nat, k: nat)
    requires i < k < |history|
    ensures NewIds(history, i, k) <= NewIds(history, i, k + 1)
    ensures NewId(history[k]).Some? ==> NewId(history[k]).value in NewIds(history, i, k + 1)
  {
    hide NewId;
  }

  /** `claim_activity` returns True exactly when its own commit recorded the receipt. The flag is set afresh by every
      attempt, so an attempt that lost its swap leaves nothing behind. */
  lemma ClaimIsItsCommit(s: System, id: nat)
    requires Inv(s) && id in s.clients && s.clients[id].transform.ClaimActivity?
    ensures var (c, x) := (s.clients[id], s.clients[id].transform.id);
      && (c.phase.Committed? ==> c.flag && NewId(s.history[c.phase.at]) == Some(x))
      && (c.phase.Unchanged? ==> !c.flag && x in c.phase.doc.seen)
  {
    hide ValidDoc, View;
    assert ClientInv(s, id);
    if s.clients[id].phase.Unchanged? {
      RememberLists(s.clients[id].phase.doc.seen, s.clients[id].transform.id);
    }
  }

  lemma RememberLists(seen: seq<string>, x: string)
    ensures x in Remember(seen, x)
  {
    if x !in seen {
      var next := Remember(seen, x);
      assert next[|next| - 1] == x;
    }
  }

  ghost predicate ClaimedTwiceBy(s: System, a: nat, b: nat, x: string) {
    && a in s.clients && b in s.clients && a != b
    && s.clients[a].transform == ClaimActivity(x) && s.clients[b].transform == ClaimActivity(x)
    && s.clients[a].phase.Committed? && s.clients[b].phase.Committed?
    && s.clients[a].phase.at <= s.clients[b].phase.at < |s.history|
    && (forall k :: 0 <= k < |s.history| ==> Disciplined(s.history[k].transform))
  }

  /** Two claims of one activity both succeed only if the document expired in between or at least 512 other
      activities were newly recorded in between. */
  lemma ClaimedTwice(scope: Scope, ttl: nat, maxAttempts: nat, now: nat, actions: seq<Action>, a: nat, b: nat, x: string)
    requires maxAttempts > 0
    requires ClaimedTwiceBy(Run(Initial(scope, ttl, maxAttempts, now), actions), a, b, x)
    ensures var s := Run(Initial(scope, ttl, maxAttempts, now), actions);
      var (i, j) := (s.clients[a].phase.at, s.clients[b].phase.at);
      Unexpired(s, i, j) ==> |NewIds(s.history, i, j) - {x}| >= 512
  {
    hide ValidDoc, View, Unexpired, Disciplined;
    var s := Run(Initial(scope, ttl, maxAttempts, now), actions);
    RunKeeps(Initial(scope, ttl, maxAttempts, now), actions);
    var i, j := s.clients[a].phase.at, s.clients[b].phase.at;
    if Unexpired(s, i, j) {
      ClaimIsItsCommit(s, a);
      ClaimIsItsCommit(s, b);
      OneClient(s, a);
      OneClient(s, b);
      assert i != j;
      Evicted(s, i, j, x);
    }
  }

  lemma Evicted(s: System, i: nat, j: nat, x: string)
    requires HistoryInv(s) && i < j < |s.history| && Unexpired(s, i, j)
    requires forall n :: i <= n <= j ==> Disciplined(s.history[n].transform)
    requires NewId(s.history[i]) == Some(x) && NewId(s.history[j]) == Some(x)
    ensures |NewIds(s.history, i, j) - {x}| >= MAX_SEEN_IDS
  {
    hide ValidDoc, View, HistoryInv, Unexpired, Disciplined, NewIds, Apply, NoRepeats;
    WindowHolds(s, i, j, j - 1, x);
    BaseIsPrevious(s, i, j, j);
    SeenStep(s, j);
  }

  /** `mark_welcomed` succeeds at most once until the document expires. */
  lemma WelcomedOnce(s: System, a: nat, b: nat)
    requires Inv(s) && a in s.clients && b in s.clients && a != b
    requires s.clients[a].transform == MarkWelcomed && s.clients[b].transform == MarkWelcomed
    requires s.clients[a].phase.Committed? && s.clients[b].phase.Committed?
    requires s.clients[a].phase.at <= s.clients[b].phase.at < |s.history|
    requires forall k :: 0 <= k < |s.history| ==> Disciplined(s.history[k].transform)
    ensures !Unexpired(s, s.clients[a].phase.at, s.clients[b].phase.at)
  {
    hide ValidDoc, View, Unexpired, Disciplined;
    OneClient(s, a);
    OneClient(s, b);
    var i, j := s.clients[a].phase.at, s.clients[b].phase.at;
    if Unexpired(s, i, j) {
      StaysWelcomed(s, i, j, j - 1);
      BaseIsPrevious(s, i, j, j);
    }
  }

  lemma {:induction false} StaysWelcomed(s: System, i: nat, j: nat, k: nat)
    requires HistoryInv(s) && i <= k <= j < |s.history| && Unexpired(s, i, j)
    requires s.history[i].transform == MarkWelcomed
    requires forall n :: i <= n <= k ==> Disciplined(s.history[n].transform)
    ensures s.history[k].result.welcomed
  {
    hide ValidDoc, View, Unexpired;
    assert CommitInv(s, k);
    if k > i {
      StaysWelcomed(s, i, j, k - 1);
      BaseIsPrevious(s, i, j, k);
    }
  }

  /** `mark_welcomed` returns True exactly when its own commit turned the mark on. */
  lemma WelcomeIsItsCommit(s: System, id: nat)
    requires Inv(s) && id in s.clients && s.clients[id].transform.MarkWelcomed?
    ensures var c := s.clients[id];
      && (c.phase.Committed? ==> c.flag && !s.history[c.phase.at].base.welcomed && s.history[c.phase.at].result.welcomed)
      && (c.phase.Unchanged? ==> !c.flag && c.phase.doc.welcomed)
  {
    hide ValidDoc, View;
    assert ClientInv(s, id);
  }

  /** Storing a completed exchange again while it is still among the recent messages changes nothing. */
  lemma ExchangeIsIdempotent(d: Doc, id: string, user: Message, assistant: Message, summary: Option<string>)
    requires user.activityId == id && assistant.activityId == id
    ensures var t := AppendExchange(id, user, assistant, summary);
      var once := Apply(t, d).doc;
      && Apply(t, once) == Candidate(once, false)
      && (exists m <- once.recent :: m.activityId == id)
      && (|d.recent| <= MAX_RECENT_MESSAGES ==> |once.recent| <= MAX_RECENT_MESSAGES)
  {
    var t := AppendExchange(id, user, assistant, summary);
    var once := Apply(t, d).doc;
    if !(exists m <- d.recent :: m.activityId == id) {
      assert once.recent[|once.recent| - 1] == assistant;
    }
  }

  /** A new exchange ends the recent messages with what the user said and then what was answered; of what stood before, only
      the oldest messages fall out, and only beyond sixteen. Its activity counts as seen, and a summary replaces the old one
      only if there is a new one. */
  lemma ExchangeIsRecorded(d: Doc, id: string, user: Message, assistant: Message, summary: Option<string>)
    requires |d.recent| <= 16 && forall m <- d.recent :: m.activityId != id
    ensures var r := Apply(AppendExchange(id, user, assistant, summary), d).doc;
      var n := |r.recent|;
      && n >= 2 && r.recent[n - 2] == user && r.recent[n - 1] == assistant
      && n == (if |d.recent| <= 14 then |d.recent| + 2 else 16) && r.recent[..n - 2] == d.recent[|d.recent| + 2 - n..]
      && id in r.seen && r.summary == (if summary == None then d.summary else summary.value)
      && r.tasks == d.tasks && r.welcomed == d.welcomed && r.active == d.active
  {
    hide NoRepeats;
    var all := d.recent + [user, assistant];
    assert all[|d.recent|] == user && all[|d.recent| + 1] == assistant;
    assert (d.seen + [id])[|d.seen|] == id;
  }
}
