/** Which case a message reaches, and whether it counts as handled. */
module ComplianceRouting {
  import opened Options
  import opened ComplianceRecord
  import opened ComplianceIndex
  import opened ComplianceProtocol
  import opened ComplianceInvariant
  import opened ComplianceSteps
  import opened ComplianceTurns
  import opened ComplianceArrivals
  import opened ComplianceRuns
  import opened ComplianceGrowth
  import opened ComplianceWorks

  // ---------------------------------------------------------------- routing

  /** The case is one of the sender's in this chat, and the one named if the message names one. */
  predicate Belongs(c: Case, m: Inbound) {
    && c.requesterId == m.requesterId && c.privateChatId == m.chatId
    && (m.number.Some? ==> c.caseNumber == m.number.value)
  }

  ghost predicate Before(order: seq<CaseKey>, a: CaseKey, b: CaseKey) {
    exists i, j :: 0 <= i < j < |order| && order[i] == a && order[j] == b
  }

  /** Case `a` was contacted later than `b`, or as late and admitted later. */
  ghost predicate Outranks(x: Index, a: CaseKey, b: CaseKey)
    requires a in x.cases && b in x.cases
  {
    LastContact(x.cases[b]) < LastContact(x.cases[a])
    || (LastContact(x.cases[b]) == LastContact(x.cases[a]) && Before(x.order, b, a))
  }

  /** The open case of the sender that outranks all his other open ones. */
  ghost predicate Foremost(x: Index, m: Inbound, key: CaseKey)
    requires key in x.cases
  {
    && x.cases[key].salesforceStatus != "Closed"
    && forall other <- x.cases :: other != key && Belongs(x.cases[other], m) && x.cases[other].salesforceStatus != "Closed"
                                  ==> Outranks(x, key, other)
  }

  ghost predicate OnlyOne(x: Index, m: Inbound, key: CaseKey) {
    forall other <- x.cases :: Belongs(x.cases[other], m) ==> other == key
  }

  /** The candidates are the sender's cases in order of admission. */
  lemma {:induction false} CandidatesAre(order: seq<CaseKey>, cases: map<CaseKey, Case>, m: Inbound)
    requires Distinct(order) && forall key <- order :: key in cases
    ensures var keys := Candidates(order, cases, m);
      && (forall key :: key in keys <==> key in order && Belongs(cases[key], m))
      && (forall i, j :: 0 <= i < j < |keys| ==> Before(order, keys[i], keys[j]) && keys[i] != keys[j])
  {
    if order != [] {
      var (front, last) := (order[..|order| - 1], order[|order| - 1]);
      CandidatesAre(front, cases, m);
      var (before, keys) := (Candidates(front, cases, m), Candidates(order, cases, m));
      assert order == front + [last];
      forall i, j | 0 <= i < j < |keys| ensures Before(order, keys[i], keys[j]) && keys[i] != keys[j] {
        if j < |before| {
          assert Before(front, before[i], before[j]);
          BeforeLonger(front, last, before[i], before[j]);
        } else {
          assert keys[i] == before[i] && before[i] in front && keys[j] == last;
          BeforeLast(front, last, before[i]);
        }
      }
    }
  }

  lemma BeforeLonger(front: seq<CaseKey>, last: CaseKey, a: CaseKey, b: CaseKey)
    requires Before(front, a, b)
    ensures Before(front + [last], a, b)
  {
    var i, j :| 0 <= i < j < |front| && front[i] == a && front[j] == b;
    assert (front + [last])[i] == a && (front + [last])[j] == b;
  }

  lemma BeforeLast(front: seq<CaseKey>, last: CaseKey, a: CaseKey)
    requires a in front
    ensures Before(front + [last], a, last)
  {
    var i :| 0 <= i < |front| && front[i] == a;
    assert (front + [last])[i] == a && (front + [last])[|front|] == last;
  }

  /** Position `b` holds the key chosen: whatever is open behind it was contacted earlier. */
  predicate LastAt(keys: seq<CaseKey>, cases: map<CaseKey, Case>, b: nat, best: CaseKey)
    requires best in cases && forall key <- keys :: key in cases
  {
    && b < |keys| && keys[b] == best
    && forall i :: b < i < |keys| && cases[keys[i]].salesforceStatus != "Closed"
                   ==> LastContact(cases[keys[i]]) < LastContact(cases[best])
  }

  lemma LastLonger(keys: seq<CaseKey>, cases: map<CaseKey, Case>, b: nat, best: CaseKey)
    requires keys != [] && best in cases && forall key <- keys :: key in cases
    requires LastAt(keys[..|keys| - 1], cases, b, best)
    requires var last := cases[keys[|keys| - 1]];
      last.salesforceStatus == "Closed" || LastContact(last) < LastContact(cases[best])
    ensures LastAt(keys, cases, b, best)
  {
    hide LastContact;
    var front := keys[..|keys| - 1];
    assert forall i :: 0 <= i < |front| ==> keys[i] == front[i];
  }

  /** Among the open ones the choice falls on the latest contact, and among those on the last in order. */
  lemma {:induction false} LatestIsLast(keys: seq<CaseKey>, cases: map<CaseKey, Case>)
    requires forall key <- keys :: key in cases
    ensures var best := LatestOpen(keys, cases); best.Some? ==> exists b :: LastAt(keys, cases, b, best.value)
  {
    hide LastAt, LastContact;
    if keys != [] {
      var (front, last) := (keys[..|keys| - 1], keys[|keys| - 1]);
      LatestIsLast(front, cases);
      var (earlier, best) := (LatestOpen(front, cases), LatestOpen(keys, cases));
      if cases[last].salesforceStatus == "Closed"
         || (earlier.Some? && LastContact(cases[last]) < LastContact(cases[earlier.value]))
      {
        assert best == earlier;
        if best.Some? {
          var b :| LastAt(front, cases, b, best.value);
          LastLonger(keys, cases, b, best.value);
        }
      } else {
        assert best == Some(last);
        AtTheEnd(keys, cases);
      }
    }
  }

  lemma AtTheEnd(keys: seq<CaseKey>, cases: map<CaseKey, Case>)
    requires keys != [] && forall key <- keys :: key in cases
    ensures LastAt(keys, cases, |keys| - 1, keys[|keys| - 1])
  {
  }

  /** The choice among several is the foremost one. */
  lemma LatestIsForemost(x: Index, m: Inbound, keys: seq<CaseKey>)
    requires WellOrdered(x) && keys == Candidates(x.order, x.cases, m)
    ensures var best := LatestOpen(keys, x.cases);
      && (best.Some? ==> best.value in x.cases && Belongs(x.cases[best.value], m) && Foremost(x, m, best.value))
      && (best.None? ==> forall key <- x.cases :: Belongs(x.cases[key], m) ==> x.cases[key].salesforceStatus == "Closed")
  {
    hide LatestOpen, Candidates, LastAt, Outranks, LastContact, Before;
    CandidatesAre(x.order, x.cases, m);
    LatestIsLast(keys, x.cases);
    var best := LatestOpen(keys, x.cases);
    if best.Some? {
      var b :| LastAt(keys, x.cases, b, best.value);
      forall other <- x.cases | other != best.value && Belongs(x.cases[other], m)
                                && x.cases[other].salesforceStatus != "Closed"
        ensures Outranks(x, best.value, other)
      {
        var i :| 0 <= i < |keys| && keys[i] == other;
        ChosenOutranks(x, keys, b, best.value, i);
      }
    }
  }

  lemma ChosenOutranks(x: Index, keys: seq<CaseKey>, b: nat, best: CaseKey, i: nat)
    requires best in x.cases && (forall key <- keys :: key in x.cases) && LastAt(keys, x.cases, b, best)
    requires i < |keys| && keys[i] != best && x.cases[keys[i]].salesforceStatus != "Closed"
    requires LastContact(x.cases[keys[i]]) <= LastContact(x.cases[best])
    requires forall i, j :: 0 <= i < j < |keys| ==> Before(x.order, keys[i], keys[j])
    ensures Outranks(x, best, keys[i])
  {
    hide LastContact, Before;
    if i < b { assert Before(x.order, keys[i], keys[b]); }
  }

  lemma BeforeOnce(order: seq<CaseKey>, a: CaseKey, b: CaseKey)
    requires Distinct(order) && Before(order, a, b)
    ensures !Before(order, b, a)
  {
    var i, j :| 0 <= i < j < |order| && order[i] == a && order[j] == b;
    forall k, l | 0 <= k < l < |order| && order[k] == b ensures order[l] != a {
      assert k == j;
    }
  }

  lemma OneForemost(x: Index, m: Inbound, a: CaseKey, b: CaseKey)
    requires WellOrdered(x) && a in x.cases && b in x.cases && Belongs(x.cases[a], m) && Belongs(x.cases[b], m)
    requires Foremost(x, m, a) && Foremost(x, m, b)
    ensures a == b
  {
    hide Before, LastContact;
    if Before(x.order, a, b) { BeforeOnce(x.order, a, b); }
  }

  /** A message reaches exactly this case: the only one of its sender in its chat that it can mean, open or not; or, if there
      are several and it neither names a number nor looks like a command, the open one contacted last, and of two contacted at
      the same time the one admitted later. */
  lemma ReachesIff(x: Index, m: Inbound, key: CaseKey)
    requires WellOrdered(x)
    ensures Target(x, m) == Some(key) <==>
            && key in x.cases && Belongs(x.cases[key], m)
            && (OnlyOne(x, m, key) || (m.number.None? && !m.commandLike && Foremost(x, m, key)))
  {
    hide LatestOpen, Candidates;
    var keys := Candidates(x.order, x.cases, m);
    CandidatesAre(x.order, x.cases, m);
    LatestIsForemost(x, m, keys);
    var best := LatestOpen(keys, x.cases);
    hide Foremost;
    if |keys| == 1 {
      OneCandidate(x, m, keys, key);
    } else if |keys| > 1 {
      assert keys[0] != keys[1] && keys[0] in keys && keys[1] in keys;
      assert !OnlyOne(x, m, key);
      if best.Some? && key in x.cases && Belongs(x.cases[key], m) && Foremost(x, m, key) {
        OneForemost(x, m, key, best.value);
      }
      if best.None? && key in x.cases && Belongs(x.cases[key], m) { ClosedIsNotForemost(x, m, key); }
    }
  }

  lemma ClosedIsNotForemost(x: Index, m: Inbound, key: CaseKey)
    requires key in x.cases && x.cases[key].salesforceStatus == "Closed"
    ensures !Foremost(x, m, key)
  {
  }

  lemma OneCandidate(x: Index, m: Inbound, keys: seq<CaseKey>, key: CaseKey)
    requires |keys| == 1 && WellOrdered(x)
    requires forall k :: k in keys <==> k in x.order && Belongs(x.cases[k], m)
    ensures key == keys[0] <==> key in x.cases && Belongs(x.cases[key], m) && OnlyOne(x, m, key)
    ensures key in x.cases && Belongs(x.cases[key], m) ==> key == keys[0]
  {
    assert keys[0] in keys;
    if key in x.cases && Belongs(x.cases[key], m) { assert key in keys; }
  }

  /** A message is reported as handled if and only if it reaches a case and no other case already holds its activity. */
  lemma HandledIff(x: Index, m: Inbound, at: nat, intent: Intent, intentKey: Option<CaseKey>, t: Nonce)
    ensures Accept(x, m, at, intent, intentKey, t).handled <==>
            && Target(x, m).Some?
            && forall key <- x.cases :: key != Target(x, m).value ==> KeyOf(m) !in x.cases[key].activities
  {
    hide AcceptEdit, Target;
    var (target, held) := (Target(x, m), Holders(x, KeyOf(m)));
    assert forall key <- x.cases :: key in held <==> KeyOf(m) in x.cases[key].activities;
    if target.Some? && forall other <- held :: other == target.value {
      SingleHolder(held, target.value);
    }
  }

  lemma SingleHolder(held: set<CaseKey>, key: CaseKey)
    requires forall other <- held :: other == key
    ensures held == {} || held == {key}
  {
    assert held <= {key};
  }

  // ---------------------------------------------------------------- what "contacted" means

  /** The last contact of a case is the receipt of its delivery. */
  ghost predicate ContactTrue(c: Case) {
    c.lastDelivery.Some? ==>
      var contact := c.lastDelivery.value;
      && Delivery(contact.generation) in c.writes
      && c.writes[Delivery(contact.generation)].status == Completed
      && c.writes[Delivery(contact.generation)].receipt == Some(MessageSent(contact.messageId))
      && c.writes[Delivery(contact.generation)].completedAt == contact.at
  }

  lemma SameContact(c: Case, d: Case)
    requires ContactTrue(c) && d.lastDelivery == c.lastDelivery && Grows(c, d)
    ensures ContactTrue(d)
  {
  }

  lemma CaseGrew(x: Index, y: Index, key: CaseKey)
    requires IndexGrows(x, y) && key in x.cases
    ensures key in y.cases && Grows(x.cases[key], y.cases[key])
  {
    hide Grows;
  }

  lemma NextContact(s: System, a: Action, key: CaseKey)
    requires Inv(s) && WellOrdered(s.index) && key in Next(s, a).index.cases
    requires key in s.index.cases ==> ContactTrue(s.index.cases[key])
    ensures ContactTrue(Next(s, a).index.cases[key])
  {
    hide Inv, Next, WellOrdered, Grows, IndexGrows, Hears, SameWords, TakesWork, SameFindings, FilesFindings;
    NextCase(s, a, key);
    if key in s.index.cases {
      var (c, d) := (s.index.cases[key], Next(s, a).index.cases[key]);
      NextGrows(s, a);
      CaseGrew(s.index, Next(s, a).index, key);
      if Drove(s, a, key, c, d) && Contacts(c, d, s.tasks[a.task].pc) {
        DeliveredReceipt(s, a.task);
        CompletedStays(c, d, Delivery(s.tasks[a.task].pc.turn));
      } else {
        if Said(s, a, key, c, d) { HearsNoContact(s, a, key, c, d); }
        SameContact(c, d);
      }
    }
  }

  lemma HearsNoContact(s: System, a: Action, key: CaseKey, c: Case, d: Case)
    requires Said(s, a, key, c, d)
    ensures d.lastDelivery == c.lastDelivery
  {
  }

  lemma CompletedStays(c: Case, d: Case, name: WriteName)
    requires Grows(c, d) && name in c.writes && c.writes[name].status == Completed
    ensures name in d.writes && d.writes[name] == c.writes[name]
  {
  }

  lemma DeliveredReceipt(s: System, t: Nonce)
    requires Inv(s) && Owns(s, t) && s.tasks[t].pc.Delivering?
    ensures Completion(Own(s, t), Delivery(s.tasks[t].pc.turn), MessageSent(s.tasks[t].pc.messageId))
  {
    hide Inv, CaseInv, Quiet, InTurn, TurnFindings;
    OwnFacts(s, t);
  }

  /** In every run, the contact time that decides which case a plain message reaches is that of a message that was sent for
      the case and receipted. */
  lemma {:induction false} ContactIsAReceipt(requesters: set<string>, actions: seq<Action>, key: CaseKey)
    requires key in Run(Initial(requesters), actions).index.cases
    ensures ContactTrue(Run(Initial(requesters), actions).index.cases[key])
  {
    hide Next, ContactTrue, Inv, WellOrdered;
    if actions != [] {
      var (before, a) := (actions[..|actions| - 1], actions[|actions| - 1]);
      ReachedKeeps(requesters, before);
      if key in Run(Initial(requesters), before).index.cases { ContactIsAReceipt(requesters, before, key); }
      NextContact(Run(Initial(requesters), before), a, key);
    }
  }
}
