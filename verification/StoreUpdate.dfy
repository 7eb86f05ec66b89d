/** `Store.update` as the loop it is, while other clients run between any two of its steps. */
module StoreUpdate {
  import opened Options
  import opened ConversationStore
  import opened StoreLinearizability

  datatype Outcome = Returned(doc: Doc) | Raised | ConcurrentUpdate

  /** The client an action belongs to; ticks belong to nobody. */
  function Actor(a: Action): Option<nat> {
    match a
    case Tick(_) => None
    case Begin(c, _) => Some(c)
    case Fetch(c) => Some(c)
    case Judge(c) => Some(c)
    case Transform(c) => Some(c)
    case Swap(c) => Some(c)
    case Lose(c) => Some(c)
  }

  lemma RunAppend(s: System, before: seq<Action>, a: Action)
    ensures Run(s, before + [a]) == Next(Run(s, before), a)
  {
    assert (before + [a])[..|before|] == before;
  }

  lemma OthersLeave(s: System, a: Action, me: nat)
    requires Actor(a) != Some(me) && me in s.clients
    ensures me in Next(s, a).clients && Next(s, a).clients[me] == s.clients[me]
    ensures Next(s, a).maxAttempts == s.maxAttempts
  {
    hide Apply, ValidDoc;
  }

  lemma RunNothing(s: System)
    ensures Run(s, []) == s
  {
  }

  class Store {
    var s: System
    ghost var trace: seq<Action>

    /** One atomic step of the shared document. */
    method Step(ghost start: System, a: Action)
      requires s == Run(start, trace)
      modifies this
      ensures s == Next(old(s), a) && s == Run(start, trace)
    {
      RunAppend(start, trace, a);
      s := Next(s, a);
      trace := trace + [a];
    }

    /** Whatever everybody else does while this call waits. */
    method Wait(ghost start: System, me: nat, script: seq<Action>)
      requires me in s.clients && s == Run(start, trace)
      modifies this
      ensures me in s.clients && s.clients[me] == old(s).clients[me] && s.maxAttempts == old(s).maxAttempts
      ensures s == Run(start, trace)
    {
      for i := 0 to |script|
        invariant me in s.clients && s.clients[me] == old(s).clients[me] && s.maxAttempts == old(s).maxAttempts
        invariant s == Run(start, trace)
      {
        if Actor(script[i]) != Some(me) {
          OthersLeave(s, script[i], me);
          Step(start, script[i]);
        }
      }
    }

    function Pause(script: seq<seq<Action>>, i: nat): seq<Action> {
      if i < |script| then script[i] else []
    }

    /** `_snapshot`, with others running between the read and the check for expiry. */
    method Snapshot(ghost start: System, me: nat, script: seq<Action>) returns (original: Doc)
      requires s == Run(start, trace) && me in s.clients && s.clients[me].phase == Reading
      modifies this
      ensures s == Run(start, trace) && s.maxAttempts == old(s).maxAttempts && me in s.clients
      ensures s.clients[me] == old(s).clients[me].(phase := s.clients[me].phase)
      ensures s.clients[me].phase.Judged? && s.clients[me].phase.original == original
    {
      hide Run, Expired, Fresh;
      Step(start, Fetch(me));
      Wait(start, me, script);
      Step(start, Judge(me));
      original := s.clients[me].phase.original;
    }

    /** One run of the transform and the decision whether there is anything to write. */
    method Change(ghost start: System, me: nat, t: Transform, original: Doc) returns (outcome: Option<Outcome>, flag: bool)
      requires s == Run(start, trace) && me in s.clients && s.clients[me].transform == t
      requires s.clients[me].phase.Judged? && s.clients[me].phase.original == original
      modifies this
      ensures s == Run(start, trace) && s.maxAttempts == old(s).maxAttempts && me in s.clients
      ensures s.clients[me] == old(s).clients[me].(phase := s.clients[me].phase, flag := s.clients[me].flag)
      ensures outcome == None ==> s.clients[me].phase.Swapping? && s.clients[me].flag == flag
      ensures outcome != None ==> EndsWith(s.clients[me], outcome.value, flag)
    {
      hide Run, Apply, ValidDoc;
      var result := Apply(t, original);
      Step(start, Transform(me));
      if result.Raises? || !ValidDoc(s.scope, result.doc) {
        return Some(Raised), false;
      }
      flag := result.flag;
      if result.doc == original {
        return Some(Returned(original)), flag;
      }
      outcome := None;
    }

    /** One turn of the loop: read, decode, transform, compare and swap. No outcome means that the swap was lost. */
    method Attempt(ghost start: System, me: nat, t: Transform, n: nat, script: seq<seq<Action>>)
      returns (outcome: Option<Outcome>, flag: bool)
      requires s == Run(start, trace) && n < s.maxAttempts && me in s.clients
      requires s.clients[me].transform == t && s.clients[me].attempt == n && s.clients[me].phase == Reading
      modifies this
      ensures s == Run(start, trace) && s.maxAttempts == old(s).maxAttempts && me in s.clients
      ensures s.clients[me].transform == t && s.clients[me].started == old(s).clients[me].started
      ensures outcome == None ==>
                if n + 1 < s.maxAttempts then s.clients[me].attempt == n + 1 && s.clients[me].phase == Reading
                else s.clients[me].phase == Conflicted
      ensures outcome != None ==> EndsWith(s.clients[me], outcome.value, flag)
    {
      hide Run;
      Wait(start, me, Pause(script, 4 * n));
      var original := Snapshot(start, me, Pause(script, 4 * n + 1));
      outcome, flag := Change(start, me, t, original);
      if outcome == None {
        var candidate := s.clients[me].phase.candidate;
        Wait(start, me, Pause(script, 4 * n + 2));
        Step(start, Swap(me));
        if s.clients[me].phase.Committed? {
          return Some(Returned(candidate)), flag;
        }
        Wait(start, me, Pause(script, 4 * n + 3));
      }
    }

    /** `update`: only a lost swap tries again. The call is one client of the document, so it ends the way
        `EveryCallIsAtomic` says a client ends. */
    method Update(me: nat, t: Transform, script: seq<seq<Action>>) returns (outcome: Outcome, flag: bool)
      requires me !in s.clients
      modifies this
      ensures exists more :: s == Run(old(s), more)
      ensures me in s.clients && s.clients[me].transform == t && s.clients[me].started == |old(s).history|
      ensures old(s).maxAttempts > 0 ==> EndsWith(s.clients[me], outcome, flag)
    {
      hide Run;
      ghost var start := s;
      RunNothing(start);
      trace := [];
      Step(start, Begin(me, t));
      flag := false;
      var attempts := s.maxAttempts;
      for attempt := 0 to attempts
        invariant s == Run(start, trace) && s.maxAttempts == attempts && me in s.clients
        invariant s.clients[me].transform == t && s.clients[me].started == |start.history|
        invariant attempt < attempts ==> s.clients[me].attempt == attempt && s.clients[me].phase == Reading
        invariant attempt == attempts > 0 ==> s.clients[me].phase == Conflicted
      {
        var done;
        done, flag := Attempt(start, me, t, attempt, script);
        if done != None {
          return done.value, flag;
        }
      }
      outcome := ConcurrentUpdate;
    }
  }

  /** How a call that answers `outcome` has ended for the document. */
  ghost predicate EndsWith(c: Client, outcome: Outcome, flag: bool) {
    match outcome
    case Returned(doc) =>
      c.flag == flag && ((c.phase.Committed? && c.phase.doc == doc) || (c.phase.Unchanged? && c.phase.doc == doc))
    case Raised => c.phase == Failed
    case ConcurrentUpdate => c.phase == Conflicted
  }
}
