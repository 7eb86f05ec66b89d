/** A bounded list of receipts, oldest dropped first: what it takes for an entry to fall out. */
module ReceiptWindow {
  import opened Options

  predicate NoRepeats(ids: seq<string>) {
    forall i, j :: 0 <= i < j < |ids| ==> ids[i] != ids[j]
  }

  function LastN<T>(items: seq<T>, n: nat): seq<T> {
    if |items| <= n then items else items[|items| - n..]
  }

  lemma CountDistinct(ids: seq<string>)
    requires NoRepeats(ids)
    ensures |set id | id in ids| == |ids|
  {
    if ids != [] {
      var n := |ids| - 1;
      CountDistinct(ids[..n]);
      assert (set id | id in ids) == (set id | id in ids[..n]) + {ids[n]};
    }
  }

  lemma Subset<T>(a: set<T>, b: set<T>)
    requires a <= b
    ensures |a| <= |b|
  {
    assert b == a + (b - a);
  }

  /** `x` is listed and everything behind it was recorded later, or at least `limit` others were. */
  ghost predicate Behind(seen: seq<string>, limit: nat, x: string, newer: set<string>) {
    || (exists p :: 0 <= p < |seen| && seen[p] == x && forall q :: p < q < |seen| ==> seen[q] in newer)
    || |newer - {x}| >= limit
  }

  lemma LastIsBehind(seen: seq<string>, limit: nat, x: string, newer: set<string>)
    requires seen != [] && seen[|seen| - 1] == x
    ensures Behind(seen, limit, x, newer)
  {
  }

  /** One more step: the window stays, slides, or `x` falls out behind `limit` others. */
  lemma WindowMoves(seen: seq<string>, limit: nat, id: Option<string>, x: string, earlier: set<string>, newer: set<string>)
    requires |seen| <= limit && NoRepeats(seen) && (id.Some? ==> id.value !in seen && id.value in newer)
    requires earlier <= newer && Behind(seen, limit, x, earlier)
    ensures Behind(match id case None => seen case Some(n) => LastN(seen + [n], limit), limit, x, newer)
  {
    if |earlier - {x}| >= limit {
      Subset(earlier - {x}, newer - {x});
    } else {
      var p :| 0 <= p < |seen| && seen[p] == x && forall q :: p < q < |seen| ==> seen[q] in earlier;
      if id.Some? {
        WindowSlides(seen, limit, id.value, p, x, earlier, newer);
      }
    }
  }

  lemma WindowSlides(seen: seq<string>, limit: nat, id: string, p: nat, x: string, earlier: set<string>, newer: set<string>)
    requires p < |seen| <= limit && seen[p] == x && NoRepeats(seen) && id !in seen
    requires earlier <= newer && id in newer && forall q :: p < q < |seen| ==> seen[q] in earlier
    ensures Behind(LastN(seen + [id], limit), limit, x, newer)
  {
    var next := LastN(seen + [id], limit);
    if |seen| < limit {
      assert next[p] == x;
    } else if p > 0 {
      assert next[p - 1] == x;
    } else {
      assert next == seen[1..] + [id];
      CountDistinct(next);
      var listed := set y | y in next;
      Subset(listed, newer - {x});
    }
  }
}
