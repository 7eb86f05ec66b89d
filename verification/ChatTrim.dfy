/** The bounded history of task records. */
module ChatTrim {
  const HISTORY_LIMIT := 20

  datatype Status = Running | Completed | Failed | Interrupted
  datatype Delivery = NotDue | Pending | Sent | NotSent | Broken

  /** `gen` is the generation of the chat that started the task; `mine` says that this process did. */
  datatype Task = Task(id: string, status: Status, gen: nat, mine: bool, result: string, delivery: Delivery)

  function RunningOf(tasks: seq<Task>): seq<Task> {
    if tasks == [] then []
    else (if tasks[0].status.Running? then [tasks[0]] else []) + RunningOf(tasks[1..])
  }

  function FinishedOf(tasks: seq<Task>): seq<Task> {
    if tasks == [] then []
    else (if tasks[0].status.Running? then [] else [tasks[0]]) + FinishedOf(tasks[1..])
  }

  /** Drop up to `over` records that are not running, oldest first. */
  function Dropped(tasks: seq<Task>, over: nat): seq<Task> {
    if tasks == [] || over == 0 then tasks
    else if tasks[0].status.Running? then [tasks[0]] + Dropped(tasks[1..], over)
    else Dropped(tasks[1..], over - 1)
  }

  /** `_trim_tasks` on the records in order of creation. */
  function Trim(tasks: seq<Task>): seq<Task> {
    if |tasks| <= HISTORY_LIMIT then tasks else Dropped(tasks, |tasks| - HISTORY_LIMIT)
  }

  lemma {:induction false} SplitsUp(tasks: seq<Task>)
    ensures |tasks| == |RunningOf(tasks)| + |FinishedOf(tasks)|
  {
    if tasks != [] { SplitsUp(tasks[1..]); }
  }

  lemma {:induction false} DroppedSpec(tasks: seq<Task>, over: nat)
    ensures var (d, f) := (Dropped(tasks, over), FinishedOf(tasks));
      && RunningOf(d) == RunningOf(tasks)
      && FinishedOf(d) == (if over <= |f| then f[over..] else [])
      && |d| == |RunningOf(tasks)| + (if over <= |f| then |f| - over else 0)
  {
    if tasks != [] && over > 0 {
      if tasks[0].status.Running? {
        DroppedSpec(tasks[1..], over);
        assert Dropped(tasks, over)[1..] == Dropped(tasks[1..], over);
      } else {
        DroppedSpec(tasks[1..], over - 1);
        assert FinishedOf(tasks)[1..] == FinishedOf(tasks[1..]);
      }
    } else {
      SplitsUp(tasks);
    }
  }

  /** How many records that are not running are kept. */
  function Room(tasks: seq<Task>): (n: nat)
    ensures n <= |FinishedOf(tasks)|
  {
    SplitsUp(tasks);
    var (r, f) := (|RunningOf(tasks)|, |FinishedOf(tasks)|);
    if r + f <= HISTORY_LIMIT then f else if r <= HISTORY_LIMIT then HISTORY_LIMIT - r else 0
  }

  /** Every running record stays, in order; of the others exactly the newest that fit the limit stay; and the history
      meets the limit exactly when no more records than that are running. */
  lemma TrimSpec(tasks: seq<Task>)
    ensures var f := FinishedOf(tasks);
      && RunningOf(Trim(tasks)) == RunningOf(tasks)
      && FinishedOf(Trim(tasks)) == f[|f| - Room(tasks)..]
      && (|Trim(tasks)| <= HISTORY_LIMIT <==> |RunningOf(tasks)| <= HISTORY_LIMIT)
  {
    hide Dropped, RunningOf, FinishedOf;
    var f := FinishedOf(tasks);
    SplitsUp(tasks);
    if |tasks| > HISTORY_LIMIT {
      DroppedSpec(tasks, |tasks| - HISTORY_LIMIT);
      assert f[|f|..] == [];
    } else {
      assert f[0..] == f;
    }
  }

  lemma {:induction false} TrimSubset(tasks: seq<Task>, over: nat)
    ensures forall t <- Dropped(tasks, over) :: t in tasks
    ensures forall t <- tasks :: t.status.Running? ==> t in Dropped(tasks, over)
  {
    if tasks != [] && over > 0 {
      TrimSubset(tasks[1..], if tasks[0].status.Running? then over else over - 1);
    }
  }

  lemma {:induction false} DroppedSnoc(done: seq<Task>, t: Task, over: nat)
    ensures Dropped(done + [t], over) ==
            Dropped(done, over) + if over > |FinishedOf(done)| && !t.status.Running? then [] else [t]
  {
    if done == [] {
      assert [t][1..] == [];
    } else if over > 0 {
      assert (done + [t])[1..] == done[1..] + [t];
      DroppedSnoc(done[1..], t, if done[0].status.Running? then over else over - 1);
    }
  }

  /** The loop of `_trim_tasks`: it walks over a copy of the list and deletes from the list itself. */
  method TrimTasks(items: seq<Task>) returns (tasks: seq<Task>)
    ensures tasks == Trim(items)
  {
    hide Dropped, FinishedOf;
    tasks := items;
    ghost var over := if |items| > HISTORY_LIMIT then |items| - HISTORY_LIMIT else 0;
    var kept := 0;
    ghost var gone := 0;
    assert items[..0] == [];
    NothingDropped(over);
    for i := 0 to |items|
      invariant kept + gone == i && kept <= |tasks|
      invariant tasks[..kept] == Dropped(items[..i], over) && tasks[kept..] == items[i..]
      invariant gone == if over <= |FinishedOf(items[..i])| then over else |FinishedOf(items[..i])|
    {
      assert |tasks| == kept + (|items| - i) by { assert |tasks[kept..]| == |items[i..]|; }
      if |tasks| <= HISTORY_LIMIT {
        StopHere(items, i, over);
        assert tasks == tasks[..kept] + tasks[kept..];
        return;
      }
      assert items[..i + 1] == items[..i] + [items[i]];
      DroppedSnoc(items[..i], items[i], over);
      FinishedSnoc(items[..i], items[i]);
      assert tasks[kept] == items[i] by { assert tasks[kept..][0] == items[i..][0]; }
      assert tasks[kept + 1..] == items[i + 1..] by { assert tasks[kept..][1..] == items[i..][1..]; }
      if items[i].status.Running? {
        assert tasks[..kept + 1] == tasks[..kept] + [items[i]];
        kept := kept + 1;
      } else {
        var shorter := tasks[..kept] + tasks[kept + 1..];
        assert shorter[..kept] == tasks[..kept] && shorter[kept..] == tasks[kept + 1..];
        tasks := shorter;
        gone := gone + 1;
      }
    }
    assert items[..|items|] == items && tasks[kept..] == [];
    assert tasks[..kept] + tasks[kept..] == tasks;
    if over == 0 { DroppedNone(items); }
  }

  lemma NothingDropped(over: nat)
    ensures Dropped([], over) == [] && FinishedOf([]) == []
  {
  }

  lemma StopHere(items: seq<Task>, i: nat, over: nat)
    requires i <= |items| && over <= |FinishedOf(items[..i])|
    requires over == if |items| > HISTORY_LIMIT then |items| - HISTORY_LIMIT else 0
    ensures Dropped(items[..i], over) + items[i..] == Trim(items)
  {
    hide Dropped, FinishedOf;
    DroppedAll(items[..i], items[i..], over);
    assert items[..i] + items[i..] == items;
    DroppedNone(items);
  }

  lemma DroppedNone(items: seq<Task>)
    ensures Dropped(items, 0) == items
  {
  }

  lemma {:induction false} FinishedSnoc(done: seq<Task>, t: Task)
    ensures FinishedOf(done + [t]) == FinishedOf(done) + if t.status.Running? then [] else [t]
  {
    if done == [] {
      assert [t][1..] == [];
    } else {
      assert (done + [t])[1..] == done[1..] + [t];
      FinishedSnoc(done[1..], t);
    }
  }

  /** Once enough is dropped nothing later is. */
  lemma {:induction false} DroppedAll(done: seq<Task>, rest: seq<Task>, over: nat)
    requires over <= |FinishedOf(done)|
    ensures Dropped(done + rest, over) == Dropped(done, over) + rest
  {
    if done == [] {
      assert done + rest == rest;
    } else if over > 0 {
      assert (done + rest)[1..] == done[1..] + rest;
      DroppedAll(done[1..], rest, if done[0].status.Running? then over else over - 1);
    }
  }
}
