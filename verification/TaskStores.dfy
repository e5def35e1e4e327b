/** Task records and the two stores that keep them: a map with an insertion order, and a list
    document searched from the front. Both answer like one list with upsert. */
module TaskStores {
  import opened Wrappers

  datatype Status = Queued | Running | Succeeded | Failed | Cancelled {
    predicate Terminal() {
      Succeeded? || Failed? || Cancelled?
    }

    function Rank(): nat {
      match this
      case Queued => 0
      case Running => 1
      case _ => 2
    }
  }

  datatype Reason = NoError | Interrupted | QueueFull | Stopped | RunError(text: string)

  datatype Task = Task(
    id: string,
    goal: string,
    status: Status,
    result: string,
    error: Reason,
    createdAt: nat,
    startedAt: nat,
    finishedAt: nat)

  // ---- the list with upsert ----

  function Find(list: seq<Task>, id: string): (r: Option<Task>)
    ensures r.Some? ==> r.value in list && r.value.id == id
  {
    if list == [] then None
    else if list[0].id == id then Some(list[0])
    else Find(list[1..], id)
  }

  function Upsert(list: seq<Task>, t: Task): (out: seq<Task>)
    ensures out != []
  {
    if list == [] then [t]
    else if list[0].id == t.id then [t] + list[1..]
    else [list[0]] + Upsert(list[1..], t)
  }

  predicate DistinctIds(list: seq<Task>) {
    forall i, j :: 0 <= i < j < |list| ==> list[i].id != list[j].id
  }

  lemma {:induction false} FindNone(list: seq<Task>, id: string)
    ensures Find(list, id).None? <==> forall i :: 0 <= i < |list| ==> list[i].id != id
  {
    if list != [] {
      FindNone(list[1..], id);
      assert forall i :: 0 < i < |list| ==> list[i] == list[1..][i - 1];
    }
  }

  /** An upsert changes what Get answers for its own id, and for no other. */
  lemma {:induction false} FindAfterUpsert(list: seq<Task>, t: Task, id: string)
    ensures Find(Upsert(list, t), id) == if id == t.id then Some(t) else Find(list, id)
  {
    if list != [] {
      if list[0].id == t.id {
        assert Upsert(list, t)[1..] == list[1..];
      } else {
        assert Upsert(list, t)[1..] == Upsert(list[1..], t);
        FindAfterUpsert(list[1..], t, id);
      }
    }
  }

  /** An upsert replaces in place or appends; it never reorders. */
  lemma {:induction false} UpsertShape(list: seq<Task>, t: Task)
    ensures Find(list, t.id).None? ==> Upsert(list, t) == list + [t]
    ensures Find(list, t.id).Some? ==>
              && |Upsert(list, t)| == |list|
              && forall i :: 0 <= i < |list| ==> Upsert(list, t)[i].id == list[i].id
  {
    if list != [] && list[0].id != t.id {
      UpsertShape(list[1..], t);
    }
  }

  lemma UpsertKeepsDistinct(list: seq<Task>, t: Task)
    requires DistinctIds(list)
    ensures DistinctIds(Upsert(list, t))
  {
    UpsertShape(list, t);
    FindNone(list, t.id);
  }

  function UpsertAll(list: seq<Task>, ts: seq<Task>): seq<Task> {
    if ts == [] then list else Upsert(UpsertAll(list, ts[..|ts| - 1]), ts[|ts| - 1])
  }

  // ---- a map with an order answers like the list ----

  predicate Ordered(tasks: map<string, Task>, order: seq<string>) {
    && (forall i :: 0 <= i < |order| ==> order[i] in tasks && tasks[order[i]].id == order[i])
    && (forall i, j :: 0 <= i < j < |order| ==> order[i] != order[j])
    && (forall id :: id in tasks ==> id in order)
  }

  /** The tasks in insertion order. */
  function Listed(tasks: map<string, Task>, order: seq<string>): (list: seq<Task>)
    requires Ordered(tasks, order)
    ensures |list| == |order|
    ensures forall i :: 0 <= i < |order| ==> list[i] == tasks[order[i]]
  {
    seq(|order|, i requires 0 <= i < |order| => tasks[order[i]])
  }

  function Extended(order: seq<string>, id: string): seq<string> {
    if id in order then order else order + [id]
  }

  lemma {:induction false} UpsertReplaces(list: seq<Task>, t: Task, i: nat)
    requires i < |list| && DistinctIds(list) && list[i].id == t.id
    ensures Upsert(list, t) == list[i := t]
  {
    if i > 0 {
      UpsertReplaces(list[1..], t, i - 1);
      assert list[0].id != t.id;
      assert [list[0]] + list[1..][i - 1 := t] == list[i := t];
    }
  }

  lemma AppendedTo(tasks: map<string, Task>, order: seq<string>, t: Task)
    requires Ordered(tasks, order) && t.id !in order
    ensures Ordered(tasks[t.id := t], order + [t.id])
    ensures Listed(tasks[t.id := t], order + [t.id]) == Upsert(Listed(tasks, order), t)
  {
    FindNone(Listed(tasks, order), t.id);
    UpsertShape(Listed(tasks, order), t);
  }

  lemma ReplacedIn(tasks: map<string, Task>, order: seq<string>, t: Task, i: nat)
    requires Ordered(tasks, order) && i < |order| && order[i] == t.id
    ensures Ordered(tasks[t.id := t], order)
    ensures Listed(tasks[t.id := t], order) == Upsert(Listed(tasks, order), t)
  {
    UpsertReplaces(Listed(tasks, order), t, i);
    assert Listed(tasks[t.id := t], order) == Listed(tasks, order)[i := t];
  }

  /** Updating the map and extending the order is an upsert on the list. */
  lemma ListedAfterUpsert(tasks: map<string, Task>, order: seq<string>, t: Task)
    requires Ordered(tasks, order)
    ensures Ordered(tasks[t.id := t], Extended(order, t.id))
    ensures Listed(tasks[t.id := t], Extended(order, t.id)) == Upsert(Listed(tasks, order), t)
  {
    if t.id in order {
      var i :| 0 <= i < |order| && order[i] == t.id;
      ReplacedIn(tasks, order, t, i);
    } else {
      AppendedTo(tasks, order, t);
    }
  }

  lemma FindInListed(tasks: map<string, Task>, order: seq<string>, id: string)
    requires Ordered(tasks, order)
    ensures Find(Listed(tasks, order), id) == if id in tasks then Some(tasks[id]) else None
  {
    var list := Listed(tasks, order);
    if id in tasks {
      var i :| 0 <= i < |order| && order[i] == id;
      FindAt(list, i);
    } else {
      FindNone(list, id);
    }
  }

  lemma {:induction false} FindAt(list: seq<Task>, i: nat)
    requires i < |list| && DistinctIds(list)
    ensures Find(list, list[i].id) == Some(list[i])
  {
    if i > 0 {
      FindAt(list[1..], i - 1);
    }
  }

  // ---- the stores ----

  class MemoryStore {
    var tasks: map<string, Task>
    var order: seq<string>

    ghost predicate Valid()
      reads this
    {
      Ordered(tasks, order)
    }

    function Contents(): seq<Task>
      requires Valid()
      reads this
    {
      Listed(tasks, order)
    }

    constructor ()
      ensures Valid() && Contents() == []
    {
      tasks, order := map[], [];
    }

    method Put(t: Task)
      requires Valid()
      modifies this
      ensures Valid() && Contents() == Upsert(old(Contents()), t)
    {
      ListedAfterUpsert(tasks, order, t);
      if t.id !in tasks {
        order := order + [t.id];
      }
      tasks := tasks[t.id := t];
    }

    method Get(id: string) returns (r: Option<Task>)
      requires Valid()
      ensures r == Find(Contents(), id)
    {
      FindInListed(tasks, order, id);
      r := if id in tasks then Some(tasks[id]) else None;
    }

    method List() returns (out: seq<Task>)
      requires Valid()
      ensures out == Contents()
    {
      out := [];
      for i := 0 to |order|
        invariant out == Contents()[..i]
      {
        if order[i] in tasks {
          out := out + [tasks[order[i]]];
        }
      }
    }
  }

  /** The JSON document is modelled as its list of tasks; `writes` tells whether a write works. */
  class FileStore {
    var doc: seq<Task>

    constructor ()
      ensures doc == []
    {
      doc := [];
    }

    method Put(t: Task, writes: bool) returns (ok: bool)
      modifies this
      ensures ok == writes
      ensures doc == if writes then Upsert(old(doc), t) else old(doc)
    {
      var tasks := doc;
      var found := false;
      var i := 0;
      while i < |tasks| && !found
        invariant 0 <= i <= |doc| && |tasks| == |doc|
        invariant !found ==> tasks == doc && Upsert(doc, t) == doc[..i] + Upsert(doc[i..], t)
        invariant found ==> tasks == Upsert(doc, t)
      {
        if tasks[i].id == t.id {
          assert tasks[i := t] == doc[..i] + ([t] + doc[i..][1..]);
          tasks := tasks[i := t];
          found := true;
        } else {
          assert doc[i..][1..] == doc[i + 1..];
          assert doc[..i] + ([doc[i]] + Upsert(doc[i + 1..], t)) ==
                 doc[..i + 1] + Upsert(doc[i + 1..], t);
        }
        i := i + 1;
      }
      if !found {
        assert doc[i..] == [] && doc[..i] == doc;
        tasks := tasks + [t];
      }
      if writes {
        doc := tasks;
      }
      ok := writes;
    }

    method Get(id: string) returns (r: Option<Task>)
      ensures r == Find(doc, id)
    {
      var i := 0;
      while i < |doc|
        invariant 0 <= i <= |doc| && Find(doc, id) == Find(doc[i..], id)
      {
        if doc[i].id == id {
          return Some(doc[i]);
        }
        i := i + 1;
      }
      r := None;
    }
  }

  /** After the same Puts both stores list the same tasks and answer every Get alike. */
  method StoresAgree(ts: seq<Task>, id: string)
    returns (memoryList: seq<Task>, fileList: seq<Task>, fromMemory: Option<Task>, fromFile: Option<Task>)
    ensures memoryList == fileList == UpsertAll([], ts)
    ensures fromMemory == fromFile == Find(UpsertAll([], ts), id)
  {
    var memory := new MemoryStore();
    var file := new FileStore();
    for i := 0 to |ts|
      invariant fresh(memory) && fresh(file) && memory.Valid()
      invariant memory.Contents() == file.doc == UpsertAll([], ts[..i])
    {
      assert ts[..i + 1][..i] == ts[..i];
      memory.Put(ts[i]);
      var ok := file.Put(ts[i], true);
    }
    assert ts[..|ts|] == ts;
    memoryList := memory.List();
    fileList := file.doc;
    fromMemory := memory.Get(id);
    fromFile := file.Get(id);
  }
}
