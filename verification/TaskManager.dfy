/** The Manager object: fields updated in place, one method per critical section. Each method is
    proved against the function of Tasks that the system model runs as one step. */
module TaskManager {
  import opened TaskStores
  import opened Wrappers
  import Tasks
  import Text

  const DEFAULT_QUEUE: nat := 64

  function Capacity(queueSize: int): (n: nat)
    ensures n > 0
  {
    if queueSize <= 0 then DEFAULT_QUEUE else queueSize
  }

  method TrimGoal(goal: string) returns (s: string)
    ensures s == Tasks.TrimGoal(goal)
  {
    s := goal;
    while |s| > 0 && Tasks.Blank(s[0])
      invariant Text.StripLeft(Tasks.Blank, s) == Text.StripLeft(Tasks.Blank, goal)
    {
      s := s[1..];
    }
    ghost var left := s;
    while |s| > 0
      invariant Text.StripRight(Tasks.Blank, s) == Text.StripRight(Tasks.Blank, left)
    {
      if !Tasks.Blank(s[|s| - 1]) {
        break;
      }
      s := s[..|s| - 1];
    }
  }

  datatype SubmitError = EmptyGoal | Refused(reason: Reason)

  class Manager {
    const capacity: nat
    var tasks: map<string, Task>
    var order: seq<string>
    var cancels: set<string>
    var cancelled: set<string>
    var queue: seq<string>
    var stopped: bool
    var store: seq<Task>

    function View(): Tasks.Shared
      reads this
    {
      Tasks.Shared(tasks, order, cancels, cancelled, queue, stopped, store)
    }

    /** NewManager over a store; `readable` tells whether its list can be read. */
    constructor (list: seq<Task>, readable: bool, queueSize: int, saves: string -> bool)
      ensures capacity == if queueSize <= 0 then 64 else queueSize
      ensures View() == if readable then Tasks.Restore(list, |list|, capacity, saves) else Tasks.Empty(list)
    {
      capacity := Capacity(queueSize);
      tasks, order, cancels, cancelled, queue, stopped, store := map[], [], {}, {}, [], false, list;
      new;
      if readable {
        for i := 0 to |list|
          invariant View() == Tasks.Restore(list, i, capacity, saves)
        {
          RestoreTask(list[i], saves);
        }
      }
    }

    /** The loop body of restoreLocked. */
    method RestoreTask(t: Task, saves: string -> bool)
      modifies this
      ensures View() == Tasks.RestoreOne(old(View()), capacity, saves, t)
    {
      var rec := t;
      if rec.status.Running? {
        rec := rec.(status := Failed, error := Interrupted);
      }
      tasks := tasks[rec.id := rec];
      order := order + [rec.id];
      if rec.status.Queued? && |queue| < capacity {
        queue := queue + [rec.id];
      }
      if rec.status.Failed? && rec.error.Interrupted? {
        Persist(rec, saves(rec.id));
      }
    }

    method Persist(t: Task, saved: bool)
      modifies this`store
      ensures store == if saved then Upsert(old(store), t) else old(store)
    {
      if saved {
        store := Upsert(store, t);
      }
    }

    /** Submit with nothing in between its locked section and its select; `takeSlot` is the
        choice select makes when the manager is stopped and the queue has room. */
    method Submit(goal: string, id: string, now: nat, saved: bool, savedAgain: bool, takeSlot: bool)
      returns (t: Option<Task>, err: Option<SubmitError>)
      modifies this
      ensures Tasks.TrimGoal(goal) == "" ==>
                t.None? && err == Some(EmptyGoal) && View() == old(View())
      ensures Tasks.TrimGoal(goal) != "" ==>
                var registered := Tasks.Register(old(View()), id, Tasks.TrimGoal(goal), now, saved);
                var room := |old(queue)| < capacity && (old(stopped) ==> takeSlot);
                var reason := if old(stopped) then Stopped else QueueFull;
                && View() == (if room then registered.(queue := registered.queue + [id])
                              else Tasks.SetTerminal(registered, id, Failed, "", reason, now, savedAgain))
                && err == (if room then None else Some(Refused(reason)))
                && t == Some(View().tasks[id])
      ensures t.Some? ==>
                && t.value.id == id && t.value.goal == Tasks.TrimGoal(goal) && t.value.createdAt == now
                && (if err.None? then t.value.status.Queued?
                    else t.value.status.Failed? && err == Some(Refused(t.value.error)))
    {
      var trimmed := TrimGoal(goal);
      if trimmed == "" {
        return None, Some(EmptyGoal);
      }
      Register(id, trimmed, now, saved);
      if |queue| < capacity && (!stopped || takeSlot) {
        queue := queue + [id];
        err := None;
      } else {
        var reason := if stopped then Stopped else QueueFull;
        SetTerminal(id, Failed, "", reason, now, savedAgain);
        err := Some(Refused(reason));
      }
      t := Some(tasks[id]);
    }

    method Register(id: string, goal: string, now: nat, saved: bool)
      modifies this
      ensures View() == Tasks.Register(old(View()), id, goal, now, saved)
    {
      var rec := Task(id, goal, Queued, "", NoError, now, 0, 0);
      tasks := tasks[id := rec];
      order := order + [id];
      Persist(rec, saved);
    }

    method SetTerminal(id: string, status: Status, result: string, reason: Reason, now: nat, saved: bool)
      requires id in tasks ==> tasks[id].id == id
      modifies this
      ensures View() == Tasks.SetTerminal(old(View()), id, status, result, reason, now, saved)
    {
      if id !in tasks {
        return;
      }
      var rec := tasks[id].(status := status, result := result, error := reason, finishedAt := now);
      tasks := tasks[id := rec];
      Persist(rec, saved);
    }

    method Cancel(id: string, now: nat, saved: bool) returns (reply: Tasks.CancelReply)
      requires id in tasks ==> tasks[id].id == id
      modifies this
      ensures (View(), reply) == Tasks.Cancel(old(View()), id, now, saved)
    {
      if id !in tasks {
        return Tasks.NotFound;
      }
      var rec := tasks[id];
      match rec.status {
        case Succeeded | Failed | Cancelled =>
          reply := Tasks.AlreadyFinished(rec);
        case Queued =>
          rec := rec.(status := Cancelled, finishedAt := now);
          tasks := tasks[id := rec];
          Persist(rec, saved);
          reply := Tasks.CancelRequested(rec);
        case Running =>
          if id in cancels {
            cancelled := cancelled + {id};
          }
          reply := Tasks.CancelRequested(rec);
      }
    }

    /** runOne up to the call of the runner. */
    method BeginRun(id: string, now: nat, saved: bool) returns (goal: Option<string>)
      requires id in tasks ==> tasks[id].id == id
      modifies this
      ensures (View(), goal) == Tasks.Begin(old(View()), id, now, saved)
    {
      if id !in tasks || tasks[id].status.Cancelled? || !tasks[id].status.Queued? {
        return None;
      }
      var rec := tasks[id].(status := Running, startedAt := now);
      tasks := tasks[id := rec];
      Persist(rec, saved);
      cancelled := cancelled - {id};
      cancels := cancels + {id};
      goal := Some(rec.goal);
    }

    /** runOne after the runner returned, up to its deferred cleanup. */
    method EndRun(id: string, result: string, error: Option<string>, now: nat, saved: bool)
      requires id in tasks ==> tasks[id].id == id
      modifies this
      ensures View() == Tasks.End(old(View()), id, result, error, now, saved)
    {
      if id !in tasks {
        return;
      }
      var ctxDone := stopped || id in cancelled;
      var rec := tasks[id];
      if ctxDone && rec.status.Running? && error.Some? {
        rec := rec.(status := Cancelled, error := RunError(error.value), finishedAt := now);
      } else if rec.status.Cancelled? {
        rec := rec.(finishedAt := now);
      } else {
        rec := rec.(finishedAt := now);
        if error.Some? {
          rec := rec.(status := if ctxDone then Cancelled else Failed, error := RunError(error.value));
        } else {
          rec := rec.(status := Succeeded, result := result, error := NoError);
        }
      }
      tasks := tasks[id := rec];
      Persist(rec, saved);
    }

    /** The deferred cleanup of runOne. */
    method Release(id: string)
      modifies this
      ensures View() == Tasks.Close(old(View()), id)
    {
      cancelled := cancelled + {id};
      cancels := cancels - {id};
    }

    /** Stop up to the wait for the workers: the root context ends, then every registered cancel
        function is called and removed. */
    method Stop()
      modifies this
      ensures View() == Tasks.StopAll(old(View()).(stopped := true))
    {
      stopped := true;
      ghost var all := cancels;
      while cancels != {}
        invariant cancels <= all && cancelled + cancels == old(cancelled) + all
        invariant View().(cancels := {}, cancelled := {}) ==
                  old(View()).(cancels := {}, cancelled := {}, stopped := true)
        decreases |cancels|
      {
        var id :| id in cancels;
        cancelled := cancelled + {id};
        cancels := cancels - {id};
      }
    }

    method Get(id: string) returns (t: Option<Task>)
      ensures t == if id in tasks then Some(tasks[id]) else None
    {
      t := if id in tasks then Some(tasks[id]) else None;
    }

    /** The tasks in creation order. */
    method List() returns (out: seq<Task>)
      requires Ordered(tasks, order)
      ensures out == Listed(tasks, order)
    {
      out := [];
      for i := 0 to |order|
        invariant out == Listed(tasks, order)[..i]
      {
        if order[i] in tasks {
          out := out + [tasks[order[i]]];
        }
      }
    }
  }
}
