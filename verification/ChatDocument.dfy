/** The state of a chat as its transforms edit it, record by record. */
module ChatDocument {
  import opened Options
  import opened ReceiptWindow
  import opened ChatTrim
  import opened ChatJobs

  class State {
    var doc: Doc

    constructor (doc: Doc)
      ensures this.doc == doc
    {
      this.doc := doc;
    }

    /** The transform `append`. */
    method AppendEntry(text: string, live: bool, gen: nat)
      modifies this
      ensures doc == Apply(Append(text), live, gen, old(doc))
    {
      if live && doc.active {
        doc := doc.(recent := doc.recent + [Entry(text, gen)]);
        doc := doc.(recent := LastN(doc.recent, MAX_RECENT));
      }
    }

    /** The transform `persist`: add the record and trim the history. */
    method PersistRecord(id: string, live: bool, gen: nat) returns (admitted: bool)
      modifies this
      ensures doc == Apply(Persist(id), live, gen, old(doc)) && (admitted <==> live && old(doc).active)
    {
      hide Trim;
      admitted := live && doc.active;
      if admitted {
        var tasks := TrimTasks(doc.tasks + [Task(id, Running, gen, true, "", NotDue)]);
        doc := doc.(tasks := tasks);
      }
    }

    /** The transform `finish`. */
    method FinishRecord(id: string, status: Status, result: string, live: bool, gen: nat) returns (committed: bool)
      modifies this
      ensures doc == Apply(Finish(id, status, result), live, gen, old(doc))
      ensures committed <==> live && old(doc).active && ValidTask(old(doc).tasks, id, gen)
    {
      committed := live && doc.active && ValidTask(doc.tasks, id, gen);
      if committed {
        ghost var f := (t: Task) => if t.id == id then t.(status := status, result := result, delivery := Pending) else t;
        for i := 0 to |doc.tasks|
          invariant doc == old(doc).(tasks := doc.tasks) && |doc.tasks| == |old(doc).tasks|
          invariant forall k :: 0 <= k < i ==> doc.tasks[k] == f(old(doc).tasks[k])
          invariant forall k :: i <= k < |doc.tasks| ==> doc.tasks[k] == old(doc).tasks[k]
        {
          if doc.tasks[i].id == id {
            doc := doc.(tasks := doc.tasks[i := doc.tasks[i].(status := status, result := result, delivery := Pending)]);
          }
        }
        assert doc.tasks == Mapped(old(doc).tasks, f);
        assert doc == Changed(Finish(id, status, result), gen, old(doc));
      }
    }

    /** The loop shared by `recover` and `interrupt`: break off every record that matches. */
    method BreakOff(matching: Task -> bool)
      modifies this
      ensures doc == old(doc).(tasks := Mapped(old(doc).tasks, (t: Task) => if matching(t) then Broke(t) else t))
    {
      ghost var f := (t: Task) => if matching(t) then Broke(t) else t;
      for i := 0 to |doc.tasks|
        invariant doc == old(doc).(tasks := doc.tasks) && |doc.tasks| == |old(doc).tasks|
        invariant forall k :: 0 <= k < i ==> doc.tasks[k] == f(old(doc).tasks[k])
        invariant forall k :: i <= k < |doc.tasks| ==> doc.tasks[k] == old(doc).tasks[k]
      {
        var record := doc.tasks[i];
        if matching(record) {
          if record.status.Running? {
            record := record.(status := Interrupted, result := "");
          }
          if record.delivery.Pending? {
            record := record.(delivery := Broken);
          }
          doc := doc.(tasks := doc.tasks[i := record]);
        }
      }
      assert doc.tasks == Mapped(old(doc).tasks, f);
    }

    /** The transform `recover`. */
    method RecoverRecords(admitted: set<string>)
      modifies this
      ensures forall live: bool, gen: nat :: doc == Apply(Recover(admitted), live, gen, old(doc))
    {
      BreakOff((t: Task) => !t.mine || t.id !in admitted);
      assert doc.tasks == Changed(Recover(admitted), 0, old(doc)).tasks;
      assert forall live: bool, gen: nat :: Apply(Recover(admitted), live, gen, old(doc)) == Changed(Recover(admitted), 0, old(doc));
    }

    /** The transform `interrupt`. */
    method InterruptRecords(ids: set<string>, all: bool)
      modifies this
      ensures forall live: bool, gen: nat :: doc == Apply(Interrupt(ids, all), live, gen, old(doc))
    {
      if all {
        doc := doc.(active := false);
        doc := doc.(removed := true);
      }
      BreakOff((t: Task) => all || (t.id in ids && t.mine));
      assert doc.tasks == Changed(Interrupt(ids, all), 0, old(doc)).tasks;
      assert forall live: bool, gen: nat ::
          Apply(Interrupt(ids, all), live, gen, old(doc)) == Changed(Interrupt(ids, all), 0, old(doc));
    }

    /** The transform `forget`. */
    method ForgetAll()
      modifies this
      ensures forall live: bool, gen: nat :: doc == Apply(Change.Forget, live, gen, old(doc))
    {
      doc := doc.(summary := BLANK);
      doc := doc.(recent := []);
      doc := doc.(tasks := []);
    }
  }
}
