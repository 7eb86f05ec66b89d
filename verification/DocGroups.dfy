/** The edited body as groups: each original paragraph followed by what was inserted behind it. */
module DocGroups {
  import opened Options
  import opened DocText
  import opened DocTree
  import opened DocRuns
  import opened DocPhrase
  import opened DocParagraph
  import opened DocBody

  datatype Group = Group(first: Para, made: seq<Para>)

  function Members(g: Group): seq<Para> {
    [g.first] + g.made
  }

  function LastOf(g: Group): Para {
    if g.made == [] then g.first else g.made[|g.made| - 1]
  }

  function Flatten(groups: seq<Group>): seq<Para> {
    if groups == [] then [] else Members(groups[0]) + Flatten(groups[1..])
  }

  function Firsts(groups: seq<Group>): seq<Para> {
    if groups == [] then [] else [groups[0].first] + Firsts(groups[1..])
  }

  /** The simple form of an edit: it touches only the group of its target. */
  datatype Grouped = Grouped(groups: seq<Group>, next: nat, made: nat)

  function WithNodes(g: Group, nodes: seq<Node>): Group {
    g.(first := g.first.(nodes := nodes))
  }

  function GroupEdit(g: Grouped, e: Edit): Option<Grouped> {
    if !GoodText(e.text) || e.target >= |g.groups| then None
    else
      var group := g.groups[e.target];
      match e.mode
      case InsertAfter =>
        FirstsAt(g.groups, e.target);
        var blocks := Blocks(e.text);
        if blocks == [] then None
        else
          var created := Created(blocks, BodyTemplate(Firsts(g.groups), e.target), g.next, g.made);
          Some(Grouped(g.groups[e.target := group.(made := group.made + created)], g.next + 2 * |blocks|, g.made + |blocks|))
      case ReplaceText =>
        (match Replace(Marked(group.first), group.first.nodes, e.find, e.text, g.next)
         case Refused(_) => None
         case Done(nodes, next) => Some(g.(groups := g.groups[e.target := WithNodes(group, nodes)], next := next)))
      case AppendText =>
        Some(g.(groups := g.groups[e.target := WithNodes(group, Append(group.first.nodes, e.text, g.next))], next := g.next + 1))
      case UnknownMode => None
  }

  lemma {:induction false} FirstsAt(groups: seq<Group>, t: nat)
    requires t < |groups|
    ensures |Firsts(groups)| == |groups| && Firsts(groups)[t] == groups[t].first
  {
    if t > 0 {
      FirstsAt(groups[1..], t - 1);
    } else if |groups| > 1 {
      FirstsAt(groups[1..], 0);
    }
  }

  // ---------------------------------------------------------------- the flat operations on a flattened body

  predicate Absent(eid: nat, paras: seq<Para>) {
    forall p <- paras :: p.eid != eid
  }

  lemma {:induction false} PassOver(a: seq<Para>, b: seq<Para>, eid: nat, made: seq<Para>, nodes: seq<Node>)
    requires Absent(eid, a)
    ensures InsertAt(a + b, eid, made) == a + InsertAt(b, eid, made)
    ensures FindPara(a + b, eid) == FindPara(b, eid)
    ensures SetNodes(a + b, eid, nodes) == a + SetNodes(b, eid, nodes)
  {
    hide InsertAt, FindPara, SetNodes;
    if a == [] {
      assert a + b == b;
    } else {
      PassOver(a[1..], b, eid, made, nodes);
      PassOne(a + b, eid, made, nodes);
      assert (a + b)[1..] == a[1..] + b && (a + b)[0] == a[0];
      assert a == [a[0]] + a[1..];
    }
  }

  lemma PassOne(body: seq<Para>, eid: nat, made: seq<Para>, nodes: seq<Node>)
    requires body != [] && body[0].eid != eid
    ensures InsertAt(body, eid, made) == [body[0]] + InsertAt(body[1..], eid, made)
    ensures FindPara(body, eid) == FindPara(body[1..], eid)
    ensures SetNodes(body, eid, nodes) == [body[0]] + SetNodes(body[1..], eid, nodes)
  {
  }

  lemma InsertHere(g: Group, rest: seq<Para>, made: seq<Para>)
    requires g.made != [] ==> Absent(LastOf(g).eid, Members(g)[..|g.made|])
    ensures InsertAt(Members(g) + rest, LastOf(g).eid, made) == Members(g.(made := g.made + made)) + rest
  {
    var (before, last) := (Members(g)[..|g.made|], LastOf(g));
    assert Members(g) + rest == before + ([last] + rest);
    if g.made == [] {
      assert before == [];
    }
    PassOver(before, [last] + rest, last.eid, made, []);
    assert ([last] + rest)[1..] == rest;
    assert before + ([last] + made + rest) == Members(g.(made := g.made + made)) + rest;
  }

  lemma {:induction false} InsertInGroup(groups: seq<Group>, t: nat, made: seq<Para>)
    requires t < |groups|
    requires forall i :: 0 <= i < t ==> Absent(LastOf(groups[t]).eid, Members(groups[i]))
    requires groups[t].made != [] ==> Absent(LastOf(groups[t]).eid, Members(groups[t])[..|groups[t].made|])
    ensures InsertAt(Flatten(groups), LastOf(groups[t]).eid, made) ==
            Flatten(groups[t := groups[t].(made := groups[t].made + made)])
  {
    hide Members, InsertAt, Absent, LastOf;
    var g := groups[t].(made := groups[t].made + made);
    if t == 0 {
      InsertHere(groups[0], Flatten(groups[1..]), made);
      assert groups[0 := g][1..] == groups[1..];
    } else {
      assert groups[t] == groups[1..][t - 1];
      InsertInGroup(groups[1..], t - 1, made);
      PassOver(Members(groups[0]), Flatten(groups[1..]), LastOf(groups[t]).eid, made, []);
      assert groups[t := g][1..] == groups[1..][t - 1 := g];
    }
  }

  lemma {:induction false} SetInGroup(groups: seq<Group>, t: nat, nodes: seq<Node>)
    requires t < |groups|
    requires forall i :: 0 <= i < t ==> Absent(groups[t].first.eid, Members(groups[i]))
    ensures FindPara(Flatten(groups), groups[t].first.eid) == Some(groups[t].first)
    ensures SetNodes(Flatten(groups), groups[t].first.eid, nodes) == Flatten(groups[t := WithNodes(groups[t], nodes)])
  {
    hide Absent;
    var g := WithNodes(groups[t], nodes);
    if t == 0 {
      var all := Flatten(groups);
      assert all[0] == groups[0].first && all[1..] == groups[0].made + Flatten(groups[1..]);
      assert groups[0 := g][1..] == groups[1..];
      assert Flatten(groups[0 := g]) == [g.first] + all[1..];
    } else {
      hide Members, WithNodes, SetNodes, FindPara;
      assert groups[t] == groups[1..][t - 1];
      SetInGroup(groups[1..], t - 1, nodes);
      PassOver(Members(groups[0]), Flatten(groups[1..]), groups[t].first.eid, [], nodes);
      assert groups[t := g][1..] == groups[1..][t - 1 := g];
    }
  }

  lemma {:induction false} OriginalsPass(a: seq<Para>, b: seq<Para>, n: nat)
    requires forall p <- a :: p.eid >= n
    ensures Originals(a + b, n) == Originals(b, n)
  {
    if a == [] {
      assert a + b == b;
    } else {
      OriginalsPass(a[1..], b, n);
      assert (a + b)[1..] == a[1..] + b && (a + b)[0] == a[0];
    }
  }

  lemma {:induction false} OriginalsAreFirsts(groups: seq<Group>, n: nat)
    requires forall g <- groups :: g.first.eid < n && forall p <- g.made :: p.eid >= n
    ensures Originals(Flatten(groups), n) == Firsts(groups)
  {
    if groups != [] {
      var (g, rest) := (groups[0], Flatten(groups[1..]));
      OriginalsAreFirsts(groups[1..], n);
      OriginalsPass(g.made, rest, n);
      assert Flatten(groups) == [g.first] + (g.made + rest);
      assert Flatten(groups)[1..] == g.made + rest;
    }
  }

  // ---------------------------------------------------------------- identities

  /** Group `i` starts with element `i`; everything made later has an identity of its own. */
  ghost predicate Proper(groups: seq<Group>, n: nat, made: nat) {
    && |groups| == n <= made
    && (forall i :: 0 <= i < n ==> groups[i].first.eid == i)
    && (forall i, j :: 0 <= i < n && 0 <= j < |groups[i].made| ==> n <= groups[i].made[j].eid < made)
    && OwnIds(groups)
  }

  ghost predicate OwnIds(groups: seq<Group>) {
    forall i, k :: 0 <= i < |groups| && 0 <= k < |groups| ==> Apart(groups[i].made, groups[k].made, i == k)
  }

  ghost predicate Apart(a: seq<Para>, b: seq<Para>, same: bool) {
    forall j, l :: 0 <= j < |a| && 0 <= l < |b| && a[j].eid == b[l].eid ==> same && j == l
  }

  ghost predicate LastOk(groups: seq<Group>, last: map<nat, nat>) {
    forall i :: 0 <= i < |groups| ==> (if i in last then last[i] else i) == LastOf(groups[i]).eid
  }

  lemma FirstIsAlone(groups: seq<Group>, n: nat, made: nat, t: nat)
    requires Proper(groups, n, made) && t < n
    ensures |groups| == n && groups[t].first.eid == t
    ensures forall i :: 0 <= i < t ==> Absent(groups[t].first.eid, Members(groups[i]))
    ensures forall g <- groups :: g.first.eid < n && forall p <- g.made :: p.eid >= n
  {
  }

  lemma LastIsAlone(groups: seq<Group>, n: nat, made: nat, t: nat)
    requires Proper(groups, n, made) && t < n
    ensures forall i :: 0 <= i < t ==> Absent(LastOf(groups[t]).eid, Members(groups[i]))
    ensures groups[t].made != [] ==> Absent(LastOf(groups[t]).eid, Members(groups[t])[..|groups[t].made|])
  {
    var m := |groups[t].made|;
    if m > 0 {
      assert LastOf(groups[t]) == groups[t].made[m - 1];
      forall p | p in Members(groups[t])[..m] ensures p.eid != groups[t].made[m - 1].eid {
        var j :| 0 <= j < m && Members(groups[t])[j] == p;
        if j > 0 { assert p == groups[t].made[j - 1]; }
      }
    }
  }

  lemma SetKeepsProper(groups: seq<Group>, n: nat, made: nat, t: nat, nodes: seq<Node>)
    requires Proper(groups, n, made) && t < n
    ensures Proper(groups[t := WithNodes(groups[t], nodes)], n, made)
  {
    hide Apart;
    var g := groups[t := WithNodes(groups[t], nodes)];
    forall i | 0 <= i < n ensures g[i].made == groups[i].made && g[i].first.eid == groups[i].first.eid {
    }
  }

  lemma SetKeepsLast(groups: seq<Group>, t: nat, nodes: seq<Node>, last: map<nat, nat>)
    requires LastOk(groups, last) && t < |groups|
    ensures LastOk(groups[t := WithNodes(groups[t], nodes)], last)
  {
  }

  lemma InsertKeepsProper(groups: seq<Group>, n: nat, made: nat, t: nat, created: seq<Para>)
    requires Proper(groups, n, made) && t < n
    requires forall j :: 0 <= j < |created| ==> created[j].eid == made + j
    ensures Proper(groups[t := groups[t].(made := groups[t].made + created)], n, made + |created|)
  {
    var g := groups[t := groups[t].(made := groups[t].made + created)];
    var m := |groups[t].made|;
    assert forall i :: 0 <= i < n && i != t ==> g[i] == groups[i];
    assert forall j :: 0 <= j < |g[t].made| ==> g[t].made[j] == if j < m then groups[t].made[j] else created[j - m];
  }

  lemma InsertKeepsLast(groups: seq<Group>, made: nat, t: nat, created: seq<Para>, last: map<nat, nat>)
    requires t < |groups| && LastOk(groups, last) && created != [] && created[|created| - 1].eid == made + |created| - 1
    ensures LastOk(groups[t := groups[t].(made := groups[t].made + created)], last[t := made + |created| - 1])
  {
  }

  // ---------------------------------------------------------------- the body refines the groups

  ghost predicate Refines(s: State, n: nat, g: Grouped) {
    && Proper(g.groups, n, g.made) && LastOk(g.groups, s.last)
    && s.body == Flatten(g.groups) && s.next == g.next && s.made == g.made
  }

  lemma NodesRefine(s: State, n: nat, g: Grouped, t: nat, nodes: seq<Node>, next: nat)
    requires Refines(s, n, g) && t < n
    ensures |g.groups| == n && FindPara(s.body, t) == Some(g.groups[t].first)
    ensures Refines(s.(body := SetNodes(s.body, t, nodes), next := next), n,
                    g.(groups := g.groups[t := WithNodes(g.groups[t], nodes)], next := next))
  {
    hide Proper, LastOk, Flatten, FindPara, SetNodes, WithNodes, Absent, Members;
    FirstIsAlone(g.groups, n, g.made, t);
    SetInGroup(g.groups, t, nodes);
    SetKeepsProper(g.groups, n, g.made, t, nodes);
    SetKeepsLast(g.groups, t, nodes, s.last);
  }

  /** One edit of the flat body, which finds its place through the last paragraph of each anchor, does what the edit of
      the group does. */
  lemma EditRefines(s: State, n: nat, g: Grouped, e: Edit)
    requires Refines(s, n, g) && e.target < n
    ensures ApplyEdit(s, n, e).Some? <==> GroupEdit(g, e).Some?
    ensures ApplyEdit(s, n, e).Some? ==> Refines(ApplyEdit(s, n, e).value, n, GroupEdit(g, e).value)
  {
    hide Flatten, Blocks, Replace, Append, Created, SetNodes, FindPara, GoodText, Marked, ApplyInsert, WithNodes, Firsts,
         BodyTemplate, Proper, LastOk;
    NodesRefine(s, n, g, e.target, [], 0);
    match e.mode {
      case InsertAfter => if GoodText(e.text) { InsertRefines(s, n, g, e); }
      case ReplaceText =>
        var p := g.groups[e.target].first;
        var r := Replace(Marked(p), p.nodes, e.find, e.text, s.next);
        if r.Done? {
          NodesRefine(s, n, g, e.target, r.nodes, r.next);
        }
      case AppendText =>
        NodesRefine(s, n, g, e.target, Append(g.groups[e.target].first.nodes, e.text, s.next), s.next + 1);
      case UnknownMode =>
    }
  }

  lemma InsertRefines(s: State, n: nat, g: Grouped, e: Edit)
    requires Refines(s, n, g) && e.target < n && e.mode == InsertAfter && GoodText(e.text)
    ensures ApplyInsert(s, n, e).Some? <==> GroupEdit(g, e).Some?
    ensures ApplyInsert(s, n, e).Some? ==> Refines(ApplyInsert(s, n, e).value, n, GroupEdit(g, e).value)
  {
    hide Flatten, Blocks, Created, InsertAt, Originals, BodyTemplate, GoodText, Firsts, Proper, LastOf, Absent, Members;
    var t := e.target;
    FirstIsAlone(g.groups, n, g.made, t);
    OriginalsAreFirsts(g.groups, n);
    FirstsAt(g.groups, t);
    var blocks := Blocks(e.text);
    if blocks != [] {
      var template := BodyTemplate(Firsts(g.groups), t);
      var created := Created(blocks, template, s.next, s.made);
      CreatedShape(blocks, template, s.next, s.made);
      LastIsAlone(g.groups, n, g.made, t);
      InsertInGroup(g.groups, t, created);
      InsertKeepsProper(g.groups, n, g.made, t, created);
      hide LastOk;
      InsertKeepsLast(g.groups, s.made, t, created, s.last);
    }
  }
}
