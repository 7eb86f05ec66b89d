/** Every step of every handler keeps the invariant. */
module ComplianceSteps {
  import opened Options
  import opened ComplianceRecord
  import opened ComplianceIndex
  import opened ComplianceProtocol
  import opened ComplianceInvariant
  import opened ComplianceKeeps

  // ---------------------------------------------------------------- framing

  /** A driver is alone on its case. */
  lemma OneDriver(s: System, t: Nonce, u: Nonce)
    requires TasksInv(s) && t in s.tasks && u in s.tasks && t != u
    requires Driving(s.tasks[t].pc) && Driving(s.tasks[u].pc)
    ensures s.tasks[t].key != s.tasks[u].key
  {
    assert TaskInv(s, t) && TaskInv(s, u);
  }

  /** The record keeps its Salesforce reference, is out of service, or shares its reference with no other case. */
  ghost predicate KeepsReference(x: Index, key: CaseKey, c: Case)
    requires key in x.cases
  {
    || (c.caseId == x.cases[key].caseId && c.caseNumber == x.cases[key].caseNumber)
    || c.suspended
    || (forall other <- x.cases :: other != key ==>
          x.cases[other].caseId != c.caseId && x.cases[other].caseNumber != c.caseNumber)
  }

  /** What a driver may do to its own record. */
  ghost predicate OwnChange(s: System, t: Nonce, c: Case)
    requires Owns(s, t)
  {
    var b := Own(s, t);
    && Advances(b, c) && CaseInv(c) && KeepsReference(s.index, s.tasks[t].key, c)
    && (b.privateChatId != "" ==> c.privateChatId == b.privateChatId)
    && (b.salesforceStatus == "Closed" ==> c.salesforceStatus == "Closed")
    && (c.owner == Some(t) || c.owner.None?)
    && (c.investigation == b.investigation || Delivery(c.generation) !in b.writes)
    && (forall name <- c.writes :: c.writes[name].status == Completed ==> HasCall(s.calls, c.key, name))
  }

  ghost predicate Lands(s: System, t: Nonce, c: Case, pc: Pc) {
    && t in s.tasks && !pc.Admitting? && !pc.Routing? && !pc.Accepting?
    && (Driving(pc) ==> c.owner == Some(t) && PcInv(c, t, pc))
    && PendingCall(s.calls, Task(s.tasks[t].key, pc))
  }

  /** Overwriting an entry leaves the keys and the count alone. */
  lemma OverwriteKeys<K, V>(m: map<K, V>, k: K, v: V)
    requires k in m
    ensures m[k := v].Keys == m.Keys && |m[k := v]| == |m|
  {
    assert m[k := v].Keys == m.Keys;
    assert |m[k := v]| == |m[k := v].Keys| && |m| == |m.Keys|;
  }

  lemma SaveKeepsCases(s: System, t: Nonce, c: Case, pc: Pc, n: nat)
    requires CasesInv(s) && Owns(s, t) && t < s.nextNonce <= n && OwnChange(s, t, c)
    ensures CasesInv(Save(s, t, c, pc).(nextNonce := n))
  {
    hide CaseInv, Opaque;
    OverwriteKeys(s.index.cases, s.tasks[t].key, c);
    var z := Save(s, t, c, pc).(nextNonce := n);
    forall key <- z.index.cases ensures CaseOk(z.requesters, z.nextNonce, key, z.index.cases[key]) {
      assert CaseOk(s.requesters, s.nextNonce, key, s.index.cases[key]);
    }
  }

  lemma SaveKeepsSeparation(s: System, t: Nonce, c: Case, pc: Pc)
    requires SeparationInv(s.index) && Owns(s, t) && OwnChange(s, t, c)
    ensures SeparationInv(Save(s, t, c, pc).index)
  {
    hide CaseInv;
  }

  lemma SaveKeepsCalls(s: System, t: Nonce, c: Case, pc: Pc, n: nat)
    requires CasesInv(s) && CallsInv(s) && Owns(s, t) && OwnChange(s, t, c) && Lands(s, t, c, pc)
    ensures CallsInv(Save(s, t, c, pc).(nextNonce := n))
  {
    hide CaseInv;
    hide PcInv;
    hide ClaimFacts;
    hide HasCall;
    hide HasEmail;
    var z := Save(s, t, c, pc).(nextNonce := n);
    var key := s.tasks[t].key;
    assert CaseOk(s.requesters, s.nextNonce, key, s.index.cases[key]);
    forall i | 0 <= i < |z.calls| ensures CallInv(z.index, z.calls[i]) {
      assert CallInv(s.index, s.calls[i]);
      if s.calls[i].key == key {
        SaveKeepsCall(s, t, c, s.calls[i], z.index);
      }
    }
    forall k <- z.index.cases, name <- z.index.cases[k].writes | z.index.cases[k].writes[name].status == Completed
      ensures HasCall(z.calls, k, name)
    {
      if k != key {
        assert name in s.index.cases[k].writes;
      }
    }
    forall u <- z.tasks ensures PendingCall(z.calls, z.tasks[u]) {
      if u != t {
        assert PendingCall(s.calls, s.tasks[u]);
      }
    }
  }

  lemma SaveKeepsCall(s: System, t: Nonce, c: Case, e: Call, x: Index)
    requires Owns(s, t) && OwnChange(s, t, c) && CallInv(s.index, e) && e.key == s.tasks[t].key
    requires e.key in x.cases && x.cases[e.key] == c
    ensures CallInv(x, e)
  {
    hide CaseInv;
    hide ClaimFacts;
  }

  lemma SaveKeepsTasks(s: System, t: Nonce, c: Case, pc: Pc, n: nat)
    requires TasksInv(s) && Owns(s, t) && n >= s.nextNonce && OwnChange(s, t, c) && Lands(s, t, c, pc)
    ensures TasksInv(Save(s, t, c, pc).(nextNonce := n))
  {
    hide CaseInv;
    hide PcInv;
    var z := Save(s, t, c, pc).(nextNonce := n);
    forall u <- z.tasks ensures TaskInv(z, u) {
      assert TaskInv(s, u);
    }
  }

  lemma TaskBelow(s: System, t: Nonce)
    requires TasksInv(s) && t in s.tasks
    ensures t < s.nextNonce
  {
    hide PcInv;
    assert TaskInv(s, t);
  }

  lemma SaveKeeps(s: System, t: Nonce, c: Case, pc: Pc, n: nat)
    requires Inv(s) && Owns(s, t) && n >= s.nextNonce && OwnChange(s, t, c) && Lands(s, t, c, pc)
    ensures Inv(Save(s, t, c, pc).(nextNonce := n))
  {
    hide CasesInv, SeparationInv, TasksInv, CallsInv, OwnChange, Lands;
    assert t < s.nextNonce by { TaskBelow(s, t); }
    SaveKeepsCases(s, t, c, pc, n);
    SaveKeepsSeparation(s, t, c, pc);
    SaveKeepsCalls(s, t, c, pc, n);
    SaveKeepsTasks(s, t, c, pc, n);
  }

  lemma MoreNonces(s: System, n: nat)
    requires CasesInv(s) && n >= s.nextNonce
    ensures CasesInv(s.(nextNonce := n))
  {
    hide CaseInv, Opaque, WellOrdered;
    forall key <- s.index.cases ensures CaseOk(s.requesters, n, key, s.index.cases[key]) {
      assert CaseOk(s.requesters, s.nextNonce, key, s.index.cases[key]);
    }
  }

  /** Moving a handler without touching the index. */
  lemma GotoKeeps(s: System, t: Nonce, pc: Pc, n: nat)
    requires Inv(s) && t in s.tasks && n >= s.nextNonce
    requires PendingCall(s.calls, Task(s.tasks[t].key, pc)) && Arriving(s, Task(s.tasks[t].key, pc))
    requires Driving(pc) ==> Owns(s, t) && PcInv(Own(s, t), t, pc)
    ensures Inv(Goto(s, t, pc).(nextNonce := n))
  {
    hide CaseInv, CaseOk, PcInv, CallInv, SeparationInv, HasCall, HasEmail, WellOrdered, SameEffect;
    MoreNonces(s, n);
    var z := Goto(s, t, pc).(nextNonce := n);
    GotoKeepsTasks(s, t, pc, n);
    forall u <- z.tasks ensures PendingCall(z.calls, z.tasks[u]) {
      if u != t {
        assert PendingCall(s.calls, s.tasks[u]);
      }
    }
  }

  lemma GotoKeepsTasks(s: System, t: Nonce, pc: Pc, n: nat)
    requires TasksInv(s) && t in s.tasks && n >= s.nextNonce && Arriving(s, Task(s.tasks[t].key, pc))
    requires Driving(pc) ==> Owns(s, t) && PcInv(Own(s, t), t, pc)
    ensures TasksInv(Goto(s, t, pc).(nextNonce := n))
  {
    hide CaseInv, PcInv;
    var z := Goto(s, t, pc).(nextNonce := n);
    forall u <- z.tasks ensures TaskInv(z, u) {
      assert TaskInv(s, u);
    }
  }
}
