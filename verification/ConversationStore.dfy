/** The conversation store: one versioned document, optimistic updates with bounded retries, and expiry.

    Compression, JSON text and the two storage backends are reduced to a row that a compare-and-swap replaces. */
module ConversationStore {
  import opened Options
  import opened JsonValue
  import opened ReceiptWindow

  const MAX_CONTENT_CHARS := 8_000
  const MAX_RECENT_MESSAGES := 16
  const MAX_SEEN_IDS := 512
  const SCHEMA_VERSION := 1

  datatype Scope = Scope(tenantId: string, agentId: string, conversationId: string)
  datatype Message = Message(role: string, content: string, senderId: string, activityId: string, at: nat)
  datatype Doc = Doc(schemaVersion: int, scope: Scope, summary: string, recent: seq<Message>, seen: seq<string>,
                     tasks: map<string, Json>, welcomed: bool, active: bool, updatedAt: nat)

  function Fresh(scope: Scope, now: nat): Doc {
    Doc(SCHEMA_VERSION, scope, "", [], [], map[], false, false, now)
  }

  predicate ValidIdentifier(id: string) {
    0 < |id| <= 512 && exists i :: 0 <= i < |id| && id[i] !in " \t\r\n"
  }

  /** `_validate_state`: schema, identity and field bounds. */
  predicate ValidDoc(scope: Scope, d: Doc) {
    && d.schemaVersion == SCHEMA_VERSION && d.scope == scope && |d.summary| <= MAX_CONTENT_CHARS
    && |d.recent| <= MAX_RECENT_MESSAGES
    && (forall m <- d.recent :: m.role in {"user", "assistant", "system", "tool"} && |m.content| <= MAX_CONTENT_CHARS
                                && ValidIdentifier(m.senderId) && ValidIdentifier(m.activityId))
    && |d.seen| <= MAX_SEEN_IDS && NoRepeats(d.seen) && (forall id <- d.seen :: ValidIdentifier(id))
    && (forall id <- d.tasks :: ValidIdentifier(id) && d.tasks[id].Object?)
  }

  predicate Expired(d: Doc, ttl: nat, now: nat) {
    now - d.updatedAt >= ttl
  }

  // ---------------------------------------------------------------- transforms

  function Remember(seen: seq<string>, id: string): seq<string> {
    if id in seen then seen else LastN(seen + [id], MAX_SEEN_IDS)
  }

  /** The transforms of the public helpers, and any other one a caller may pass; it may raise. */
  datatype Transform =
    | ClaimActivity(id: string)
    | MarkWelcomed
    | AppendExchange(activityId: string, user: Message, assistant: Message, summary: Option<string>)
    | Other(f: Doc -> Option<Doc>)

  /** One call of a transform: the candidate document and what it left in the variable of its enclosing function. */
  datatype Attempt = Raises | Candidate(doc: Doc, flag: bool)

  function Apply(t: Transform, d: Doc): Attempt {
    match t
    case ClaimActivity(id) =>
      if id in d.seen then Candidate(d, false) else Candidate(d.(seen := Remember(d.seen, id)), true)
    case MarkWelcomed => Candidate(d.(welcomed := true), !d.welcomed)
    case AppendExchange(id, user, assistant, summary) =>
      if exists m <- d.recent :: m.activityId == id then Candidate(d, false)
      else Candidate(d.(recent := LastN(d.recent + [user, assistant], MAX_RECENT_MESSAGES), seen := Remember(d.seen, id),
                        summary := if summary.Some? then summary.value else d.summary), true)
    case Other(f) => if f(d).None? then Raises else Candidate(f(d).value, false)
  }

  // ---------------------------------------------------------------- clients of one document

  datatype Row = Row(version: nat, doc: Doc)

  /** Where one call of `update` stands. */
  datatype Phase =
    | Reading
    | Fetched(row: Option<Row>)
    | Judged(original: Doc, version: Option<nat>, judgedAt: nat)
    | Swapping(candidate: Doc, original: Doc, version: Option<nat>, judgedAt: nat)
    | Unchanged(doc: Doc, seenAt: nat, judgedAt: nat)
    | Committed(doc: Doc, at: nat)
    | Conflicted
    | Failed

  /** `started` is how many commits the document had when the call began; `flag` is the captured variable. */
  datatype Client = Client(transform: Transform, attempt: nat, flag: bool, started: nat, phase: Phase)

  /** One successful swap: which call made it, what it was applied to and when that was judged current. */
  datatype Commit = Commit(client: nat, transform: Transform, judgedAt: nat, base: Doc, result: Doc, at: nat)

  datatype System = System(scope: Scope, ttl: nat, maxAttempts: nat, now: nat, row: Option<Row>,
                           clients: map<nat, Client>, history: seq<Commit>)

  datatype Action =
    | Tick(elapsed: nat)
    | Begin(client: nat, transform: Transform)
    | Fetch(client: nat)
    | Judge(client: nat)
    | Transform(client: nat)
    | Swap(client: nat)
    | Lose(client: nat)

  function Initial(scope: Scope, ttl: nat, maxAttempts: nat, now: nat): System {
    System(scope, ttl, maxAttempts, now, None, map[], [])
  }

  function Goto(s: System, c: nat, phase: Phase): System
    requires c in s.clients
  {
    s.(clients := s.clients[c := s.clients[c].(phase := phase)])
  }

  /** `_snapshot` once the row is decoded: an expired document reads as fresh but keeps its version. */
  function StepJudge(s: System, c: nat, row: Option<Row>): System
    requires c in s.clients
  {
    match row
    case None => Goto(s, c, Judged(Fresh(s.scope, s.now), None, s.now))
    case Some(r) =>
      Goto(s, c, Judged(if Expired(r.doc, s.ttl, s.now) then Fresh(s.scope, s.now) else r.doc, Some(r.version), s.now))
  }

  /** The transform runs on a copy; a candidate that is the original is not written. */
  function StepTransform(s: System, c: nat, original: Doc, version: Option<nat>, judgedAt: nat): System
    requires c in s.clients
  {
    match Apply(s.clients[c].transform, original)
    case Raises => Goto(s, c, Failed)
    case Candidate(doc, flag) =>
      var s1 := s.(clients := s.clients[c := s.clients[c].(flag := flag)]);
      if !ValidDoc(s.scope, doc) then Goto(s1, c, Failed)
      else if doc == original then
        Goto(s1, c, Unchanged(original, match version case None => 0 case Some(v) => v, judgedAt))
      else Goto(s1, c, Swapping(doc.(updatedAt := s.now), original, version, judgedAt))
  }

  /** The compare-and-swap, and what the retry loop does when it loses. */
  function StepSwap(s: System, c: nat, candidate: Doc, original: Doc, version: Option<nat>, judgedAt: nat): System
    requires c in s.clients
  {
    var current := match s.row case None => None case Some(r) => Some(r.version);
    if current == version then
      var next := match version case None => 1 case Some(v) => v + 1;
      Goto(s.(row := Some(Row(next, candidate)),
              history := s.history + [Commit(c, s.clients[c].transform, judgedAt, original, candidate, s.now)]),
           c, Committed(candidate, |s.history|))
    else if s.clients[c].attempt + 1 < s.maxAttempts then
      s.(clients := s.clients[c := s.clients[c].(attempt := s.clients[c].attempt + 1, phase := Reading)])
    else Goto(s, c, Conflicted)
  }

  function Next(s: System, a: Action): System {
    match a
    case Tick(elapsed) => s.(now := s.now + elapsed)
    case Begin(c, t) =>
      if c in s.clients then s else s.(clients := s.clients[c := Client(t, 0, false, |s.history|, Reading)])
    case Fetch(c) =>
      if c in s.clients && s.clients[c].phase.Reading? then Goto(s, c, Fetched(s.row)) else s
    case Judge(c) =>
      if c in s.clients && s.clients[c].phase.Fetched? then StepJudge(s, c, s.clients[c].phase.row) else s
    case Transform(c) =>
      if c in s.clients && s.clients[c].phase.Judged? then
        var p := s.clients[c].phase;
        StepTransform(s, c, p.original, p.version, p.judgedAt)
      else s
    case Swap(c) =>
      if c in s.clients && s.clients[c].phase.Swapping? then
        var p := s.clients[c].phase;
        StepSwap(s, c, p.candidate, p.original, p.version, p.judgedAt)
      else s
    case Lose(c) => if c in s.clients then Goto(s, c, Failed) else s
  }

  function Run(s: System, actions: seq<Action>): System {
    if actions == [] then s
    else Next(Run(s, actions[..|actions| - 1]), actions[|actions| - 1])
  }

  // ---------------------------------------------------------------- the sequential meaning

  /** What a read shows after the commits in `history`, judged at a given time. */
  function View(scope: Scope, ttl: nat, history: seq<Commit>, judgedAt: nat): Doc {
    if history == [] then Fresh(scope, judgedAt)
    else
      var last := history[|history| - 1].result;
      if Expired(last, ttl, judgedAt) then Fresh(scope, judgedAt) else last
  }

  /** One update at a time, in the order of the commits: each transform applied to what the previous one left. */
  function Replay(scope: Scope, ttl: nat, history: seq<Commit>): Option<Doc> {
    if history == [] then None
    else
      var c := history[|history| - 1];
      var before := Replay(scope, ttl, history[..|history| - 1]);
      var base :=
        if before.None? || Expired(before.value, ttl, c.judgedAt) then Fresh(scope, c.judgedAt) else before.value;
      match Apply(c.transform, base)
      case Raises => None
      case Candidate(doc, _) => Some(doc.(updatedAt := c.result.updatedAt))
  }
}
