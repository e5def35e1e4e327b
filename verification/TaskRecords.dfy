/** What the records say over a whole run: the goal and the time a task was submitted with, what its
    runner is given, in which order tasks are taken from the queue, and what a cancel is answered. */
module TaskRecords {
  import opened TaskStores
  import opened Tasks
  import opened TaskSystem
  import opened Wrappers

  // ---- a task keeps the goal and the creation time it was submitted with ----

  predicate Says(t: Task, goal: string, createdAt: nat) {
    t.goal == goal && t.createdAt == createdAt
  }

  predicate StoreSays(list: seq<Task>, id: string, goal: string, createdAt: nat) {
    forall i :: 0 <= i < |list| && list[i].id == id ==> Says(list[i], goal, createdAt)
  }

  predicate RecordsSay(sh: Shared, id: string, goal: string, createdAt: nat) {
    (id in sh.tasks ==> Says(sh.tasks[id], goal, createdAt)) && StoreSays(sh.store, id, goal, createdAt)
  }

  predicate RunnersGet(s: System, id: string, goal: string) {
    && (forall w :: 0 <= w < |s.workers| && s.workers[w].Begun? && s.workers[w].id == id ==> s.workers[w].goal == goal)
    && |s.goals| == |s.starts|
    && (forall k :: 0 <= k < |s.starts| && s.starts[k] == id ==> s.goals[k] == goal)
  }

  /** Wherever the id occurs, in memory, in the store, with a worker or in a runner call, it comes
      with this goal and this creation time. */
  predicate Keeps(s: System, id: string, goal: string, createdAt: nat) {
    RecordsSay(s.sh, id, goal, createdAt) && RunnersGet(s, id, goal)
  }

  /** Only known ids are run. */
  ghost predicate Known(s: System) {
    && |s.goals| == |s.starts|
    && (forall k :: 0 <= k < |s.starts| ==> s.starts[k] in s.used)
    && (forall w :: 0 <= w < |s.workers| && s.workers[w].Begun? ==> s.workers[w].id in s.used)
  }

  lemma WriteKeepsOrigin(s: System, a: Action)
    requires Enabled(s, a) && !a.Restart? && !a.Submit? && Ordered(s.sh.tasks, s.sh.order)
    ensures var t := Write(s, a);
            t.Some? ==> t.value.id in s.sh.tasks
                        && Says(t.value, s.sh.tasks[t.value.id].goal, s.sh.tasks[t.value.id].createdAt)
  {
  }

  lemma UpsertSays(list: seq<Task>, t: Task, id: string, goal: string, createdAt: nat)
    requires StoreSays(list, id, goal, createdAt) && (t.id == id ==> Says(t, goal, createdAt))
    ensures StoreSays(Upsert(list, t), id, goal, createdAt)
  {
    UpsertElements(list, t);
  }

  lemma WroteSays(before: Shared, after: Shared, t: Option<Task>, saved: bool, id: string, goal: string,
                  createdAt: nat)
    requires Wrote(before, after, t, saved) && RecordsSay(before, id, goal, createdAt)
    requires t.Some? && t.value.id == id ==> Says(t.value, goal, createdAt)
    ensures RecordsSay(after, id, goal, createdAt)
  {
    if t.Some? {
      UpsertSays(before.store, t.value, id, goal, createdAt);
    }
  }

  lemma StepKnows(s: System, a: Action)
    requires Inv(s) && Enabled(s, a) && Known(s)
    ensures Known(Step(s, a)) && s.used <= Step(s, a).used
  {
    if !a.Restart? {
      StepRecords(s, a);
      StepHands(s, a);
    }
  }

  lemma LoadedSays(sh: Shared, list: seq<Task>, saves: string -> bool, id: string, goal: string, createdAt: nat)
    requires Loaded(sh, list, |list|) && Rewritten(sh.store, list, |list|, saves)
    requires StoreSays(list, id, goal, createdAt)
    ensures RecordsSay(sh, id, goal, createdAt)
  {
    if id in sh.tasks {
      var i :| 0 <= i < |sh.order| && sh.order[i] == id;
      assert sh.tasks[list[i].id] == Recovered(list[i]);
    }
    forall i | 0 <= i < |sh.store| && sh.store[i].id == id
      ensures Says(sh.store[i], goal, createdAt)
    {
      assert list[i].id == id;
    }
  }

  lemma RestoreSays(list: seq<Task>, capacity: nat, saves: string -> bool, id: string, goal: string, createdAt: nat)
    requires DistinctIds(list) && StoreSays(list, id, goal, createdAt)
    ensures RecordsSay(Restore(list, |list|, capacity, saves), id, goal, createdAt)
  {
    RestoreLoads(list, |list|, capacity, saves);
    RestoreRewrites(list, |list|, capacity, saves);
    LoadedSays(Restore(list, |list|, capacity, saves), list, saves, id, goal, createdAt);
  }

  lemma RestartKeeps(s: System, a: Action, id: string, goal: string, createdAt: nat)
    requires DistinctIds(s.sh.store) && Enabled(s, a) && a.Restart? && Keeps(s, id, goal, createdAt)
    ensures Keeps(Step(s, a), id, goal, createdAt)
  {
    RestoreSays(s.sh.store, a.capacity, a.saves, id, goal, createdAt);
  }

  lemma StepKeepsRecords(s: System, a: Action, id: string, goal: string, createdAt: nat)
    requires Inv(s) && Enabled(s, a) && !a.Restart? && id in s.used && RecordsSay(s.sh, id, goal, createdAt)
    ensures RecordsSay(Step(s, a).sh, id, goal, createdAt)
  {
    StepWrites(s, a);
    if !a.Submit? {
      WriteKeepsOrigin(s, a);
    }
    WroteSays(s.sh, Step(s, a).sh, Write(s, a), Saved(a), id, goal, createdAt);
  }

  lemma StepKeepsRunners(s: System, a: Action, id: string, goal: string, createdAt: nat)
    requires Inv(s) && Enabled(s, a) && !a.Restart? && Keeps(s, id, goal, createdAt)
    ensures RunnersGet(Step(s, a), id, goal)
  {
    StepRecords(s, a);
    StepHands(s, a);
    if a.Begin? {
      WriteKeepsOrigin(s, a);
    }
  }

  lemma StepKeeps(s: System, a: Action, id: string, goal: string, createdAt: nat)
    requires Inv(s) && Enabled(s, a) && id in s.used && Keeps(s, id, goal, createdAt)
    ensures Keeps(Step(s, a), id, goal, createdAt)
  {
    if a.Restart? {
      RestartKeeps(s, a, id, goal, createdAt);
    } else {
      StepKeepsRecords(s, a, id, goal, createdAt);
      StepKeepsRunners(s, a, id, goal, createdAt);
    }
  }

  /** A submitted task starts out with the goal and the time of its Submit. */
  lemma SubmitSays(s: System, a: Action)
    requires Inv(s) && Enabled(s, a) && a.Submit? && Known(s)
    ensures Keeps(Step(s, a), a.id, a.goal, a.now) && a.id in Step(s, a).sh.tasks && a.id in Step(s, a).used
  {
    StepRecords(s, a);
    StepHands(s, a);
    StepWrites(s, a);
    assert StoreSays(s.sh.store, a.id, a.goal, a.now);
    WroteSays(s.sh, Step(s, a).sh, Some(Fresh(a.id, a.goal, a.now)), a.saved, a.id, a.goal, a.now);
  }

  lemma {:induction false} RunKeeps(s: System, run: seq<Action>, id: string, goal: string, createdAt: nat)
    requires Inv(s) && Known(s) && Enables(s, run) && id in s.used && Keeps(s, id, goal, createdAt)
    ensures Keeps(Exec(s, run), id, goal, createdAt)
    decreases |run|
  {
    if run != [] {
      StepKeepsInv(s, run[0]);
      StepKnows(s, run[0]);
      StepKeeps(s, run[0], id, goal, createdAt);
      RunKeeps(Step(s, run[0]), run[1..], id, goal, createdAt);
    }
  }

  lemma {:induction false} RunKeepsSubmitted(s: System, run: seq<Action>, i: nat)
    requires Inv(s) && Known(s) && Enables(s, run) && i < |run| && run[i].Submit?
    ensures Keeps(Exec(s, run), run[i].id, run[i].goal, run[i].now)
    decreases |run|
  {
    StepKeepsInv(s, run[0]);
    StepKnows(s, run[0]);
    if i == 0 {
      SubmitSays(s, run[0]);
      RunKeeps(Step(s, run[0]), run[1..], run[0].id, run[0].goal, run[0].now);
    } else {
      RunKeepsSubmitted(Step(s, run[0]), run[1..], i - 1);
    }
  }

  /** Every known id comes from the first store or from a Submit. */
  lemma {:induction false} IdsAreSubmitted(s: System, run: seq<Action>, id: string)
    requires Inv(s) && Enables(s, run) && id in Exec(s, run).used
    ensures id in s.used || exists i :: 0 <= i < |run| && run[i].Submit? && run[i].id == id
    decreases |run|
  {
    if run != [] {
      var s', rest := Step(s, run[0]), run[1..];
      StepKeepsInv(s, run[0]);
      IdsAreSubmitted(s', rest, id);
      if id !in s'.used {
        var i :| 0 <= i < |rest| && rest[i].Submit? && rest[i].id == id;
        assert run[i + 1] == rest[i];
      } else if !run[0].Restart? {
        StepRecords(s, run[0]);
      }
    }
  }

  lemma FirstKeeps(list: seq<Task>, capacity: nat, workers: nat, readable: bool, saves: string -> bool, i: nat)
    requires DistinctIds(list) && capacity > 0 && workers > 0 && i < |list|
    ensures var s := First(list, capacity, workers, readable, saves);
            Keeps(s, list[i].id, list[i].goal, list[i].createdAt) && list[i].id in s.used
  {
    assert list[i] in list;
    RestoreSays(list, capacity, saves, list[i].id, list[i].goal, list[i].createdAt);
  }

  /** Over every run from the first manager on, crashes and restarts included: a task submitted in
      the run has, in memory, in the store and in every call of its runner, the goal of its own
      Submit, and its creation time; a task of the first store keeps those it had; and every task
      is one or the other. */
  lemma GoalsAreSubmitted(list: seq<Task>, capacity: nat, workers: nat, readable: bool, saves: string -> bool,
                          run: seq<Action>)
    requires DistinctIds(list) && capacity > 0 && workers > 0
    requires Enables(First(list, capacity, workers, readable, saves), run)
    ensures var s := Exec(First(list, capacity, workers, readable, saves), run);
            && (forall i :: 0 <= i < |run| && run[i].Submit? ==> Keeps(s, run[i].id, run[i].goal, run[i].now))
            && (forall i :: 0 <= i < |list| ==> Keeps(s, list[i].id, list[i].goal, list[i].createdAt))
  {
    var first := First(list, capacity, workers, readable, saves);
    FirstInv(list, capacity, workers, readable, saves);
    forall i | 0 <= i < |run| && run[i].Submit?
      ensures Keeps(Exec(first, run), run[i].id, run[i].goal, run[i].now)
    {
      RunKeepsSubmitted(first, run, i);
    }
    forall i | 0 <= i < |list|
      ensures Keeps(Exec(first, run), list[i].id, list[i].goal, list[i].createdAt)
    {
      FirstKeeps(list, capacity, workers, readable, saves, i);
      RunKeeps(first, run, list[i].id, list[i].goal, list[i].createdAt);
    }
  }

  predicate Submitted(run: seq<Action>, id: string) {
    exists i :: 0 <= i < |run| && run[i].Submit? && run[i].id == id
  }

  predicate StoredFirst(list: seq<Task>, id: string) {
    exists i :: 0 <= i < |list| && list[i].id == id
  }

  lemma EveryTaskWasSubmitted(list: seq<Task>, capacity: nat, workers: nat, readable: bool, saves: string -> bool,
                              run: seq<Action>, id: string)
    requires DistinctIds(list) && capacity > 0 && workers > 0
    requires Enables(First(list, capacity, workers, readable, saves), run)
    ensures var s := Exec(First(list, capacity, workers, readable, saves), run);
            id in s.sh.tasks || Find(s.sh.store, id).Some? || id in s.starts ==>
              Submitted(run, id) || StoredFirst(list, id)
  {
    var first := First(list, capacity, workers, readable, saves);
    var s := Exec(first, run);
    FirstInv(list, capacity, workers, readable, saves);
    RunKeepsInv(first, run);
    RunKnows(first, run);
    if id in s.used {
      IdsAreSubmitted(first, run, id);
    }
  }

  lemma {:induction false} RunKnows(s: System, run: seq<Action>)
    requires Inv(s) && Known(s) && Enables(s, run)
    ensures Known(Exec(s, run))
    decreases |run|
  {
    if run != [] {
      StepKeepsInv(s, run[0]);
      StepKnows(s, run[0]);
      RunKnows(Step(s, run[0]), run[1..]);
    }
  }

  // ---- starting ----

  /** A task starts only when the worker that holds it begins it; the worker then has its goal. */
  lemma EveryStartHasAWorker(s: System, a: Action, id: string)
    requires Inv(s) && Enabled(s, a) && !a.Restart? && id in s.sh.tasks && s.sh.tasks[id].status.Queued?
    ensures id in Step(s, a).sh.tasks
    ensures var t, t' := s.sh.tasks[id], Step(s, a).sh.tasks[id];
            && (t'.status.Running? <==> a.Begin? && s.workers[a.w].id == id)
            && (t'.status.Running? ==>
                  && t' == t.(status := Running, startedAt := a.now)
                  && Step(s, a).workers[a.w] == Begun(id, t.goal))
  {
    StepAdvances(s, a, id);
    StepIsLawful(s, a);
    StepWrites(s, a);
    StepHands(s, a);
  }

  // ---- the queue is first in, first out ----

  function Sent(run: seq<Action>): seq<string> {
    if run == [] then [] else (if run[0].Send? then [run[0].id] else []) + Sent(run[1..])
  }

  /** The ids the workers receive, in order. */
  function Taken(s: System, run: seq<Action>): seq<string>
    requires Enables(s, run)
    decreases |run|
  {
    if run == [] then []
    else
      var s' := Step(s, run[0]);
      (if run[0].Take? then [s'.workers[run[0].w].id] else []) + Taken(s', run[1..])
  }

  lemma StepQueues(s: System, a: Action)
    requires Enabled(s, a) && !a.Restart?
    ensures Step(s, a).sh.queue == if a.Send? then s.sh.queue + [a.id] else if a.Take? then s.sh.queue[1..]
                                   else s.sh.queue
    ensures a.Take? ==> s.sh.queue == [Step(s, a).workers[a.w].id] + s.sh.queue[1..]
  {
  }

  lemma GroupQueue(queue: seq<string>, sent: seq<string>, later: seq<string>, taken: seq<string>, rest: seq<string>,
                   queue': seq<string>, final: seq<string>)
    requires queue + sent == taken + queue' && queue' + later == rest + final
    ensures queue + (sent + later) == (taken + rest) + final
  {
    assert queue + (sent + later) == (queue + sent) + later;
    assert (taken + queue') + later == taken + (queue' + later);
  }

  /** Between crashes, what waited in the queue and what was sent is what workers received, followed
      by what still waits. */
  lemma {:induction false} FirstInFirstOut(s: System, run: seq<Action>)
    requires Enables(s, run) && NoRestart(run)
    ensures s.sh.queue + Sent(run) == Taken(s, run) + Exec(s, run).sh.queue
    decreases |run|
  {
    if run != [] {
      var a, s' := run[0], Step(s, run[0]);
      StepQueues(s, a);
      FirstInFirstOut(s', run[1..]);
      GroupQueue(s.sh.queue, if a.Send? then [a.id] else [], Sent(run[1..]),
                 if a.Take? then [s'.workers[a.w].id] else [], Taken(s', run[1..]), s'.sh.queue,
                 Exec(s, run).sh.queue);
    }
  }

  /** The ids of the tasks stored as queued, in order. */
  function QueuedIds(list: seq<Task>): seq<string> {
    if list == [] then []
    else QueuedIds(list[..|list| - 1]) +
         (if list[|list| - 1].status.Queued? then [list[|list| - 1].id] else [])
  }

  function Upto(ids: seq<string>, n: nat): seq<string> {
    if |ids| > n then ids[..n] else ids
  }

  lemma UptoGrows(ids: seq<string>, id: string, n: nat)
    ensures Upto(ids + [id], n) == if |Upto(ids, n)| < n then Upto(ids, n) + [id] else Upto(ids, n)
  {
  }

  /** A restore requeues the first of the queued tasks, in stored order, as many as the queue holds. */
  lemma {:induction false} RestoreQueuesInOrder(list: seq<Task>, n: nat, capacity: nat, saves: string -> bool)
    requires n <= |list|
    ensures Restore(list, n, capacity, saves).queue == Upto(QueuedIds(list[..n]), capacity)
  {
    if n > 0 {
      RestoreQueuesInOrder(list, n - 1, capacity, saves);
      assert list[..n][..n - 1] == list[..n - 1];
      UptoGrows(QueuedIds(list[..n - 1]), list[n - 1].id, capacity);
    }
  }

  // ---- what a cancel is answered ----

  /** A cancel is refused exactly for an unknown and for a finished task. Otherwise a task that had
      not started is cancelled, and the context of one that runs has ended. */
  lemma CancelIsAnswered(s: System, id: string, now: nat, saved: bool)
    requires Inv(s)
    ensures var (sh, reply) := Tasks.Cancel(s.sh, id, now, saved);
            && (reply.NotFound? <==> id !in s.sh.tasks)
            && (reply.AlreadyFinished? <==> id in s.sh.tasks && s.sh.tasks[id].status.Terminal())
            && (!reply.CancelRequested? ==> sh == s.sh)
            && (reply.AlreadyFinished? ==> reply.task == s.sh.tasks[id])
            && (reply.CancelRequested? ==>
                  && id in sh.tasks && reply.task == sh.tasks[id]
                  && if s.sh.tasks[id].status.Queued? then
                       reply.task == s.sh.tasks[id].(status := Cancelled, finishedAt := now)
                     else reply.task == s.sh.tasks[id] && reply.task.status.Running? && ContextDone(sh, id))
  {
    assert id in s.sh.tasks && s.sh.tasks[id].status.Running? ==> id in s.sh.cancels || s.sh.stopped;
  }
}
