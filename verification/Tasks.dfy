/** The task manager: a bounded queue, workers, cancellation and a store written inside every
    critical section. Each mutex-protected section is one function on the shared state; the
    functions are the steps of the system in TaskSystem and the contracts of the Manager. */
module Tasks {
  import opened Wrappers
  import opened TaskStores
  import Text

  /** What the mutex, the queue channel and the contexts hold. `cancels` are the ids with a
      registered cancel function, `cancelled` those whose own context was cancelled, `stopped`
      says that the root context is. `store` is the persisted list. */
  datatype Shared = Shared(
    tasks: map<string, Task>,
    order: seq<string>,
    cancels: set<string>,
    cancelled: set<string>,
    queue: seq<string>,
    stopped: bool,
    store: seq<Task>)

  function Empty(store: seq<Task>): Shared {
    Shared(map[], [], {}, {}, [], false, store)
  }

  /** Updates a record and persists it; `saved` tells whether the store write works. */
  function Record(sh: Shared, t: Task, saved: bool): Shared {
    sh.(tasks := sh.tasks[t.id := t], store := if saved then Upsert(sh.store, t) else sh.store)
  }

  predicate ContextDone(sh: Shared, id: string) {
    sh.stopped || id in sh.cancelled
  }

  // ---- trimGoal ----

  predicate Blank(c: char) {
    c == ' ' || c == '\t' || c == '\n'
  }

  function TrimGoal(s: string): string {
    Text.Strip(Blank, s)
  }

  /** A goal is trimmed to nothing exactly when it is blank throughout. */
  lemma BlankGoal(s: string)
    ensures TrimGoal(s) == "" <==> forall i :: 0 <= i < |s| ==> Blank(s[i])
  {
    Text.NothingLeftIffBlank(Blank, s);
  }

  /** Of any other goal the text between the blanks at its ends is left, to the last rune. */
  lemma TrimGoalCuts(s: string) returns (i: nat, j: nat)
    ensures i <= j <= |s| && TrimGoal(s) == s[i..j]
    ensures forall k :: 0 <= k < i ==> s[k] in " \t\n"
    ensures forall k :: j <= k < |s| ==> s[k] in " \t\n"
    ensures i < j ==> s[i] !in " \t\n" && s[j - 1] !in " \t\n"
  {
    i, j := Text.StripCuts(Blank, s);
    assert forall k :: 0 <= k < i ==> Blank(s[..i][k]);
    forall k | j <= k < |s|
      ensures Blank(s[k])
    {
      assert s[k] == s[j..][k - j];
    }
  }

  // ---- the critical sections ----

  function Fresh(id: string, goal: string, now: nat): Task {
    Task(id, goal, Queued, "", NoError, now, 0, 0)
  }

  /** Submit, the locked part. */
  function Register(sh: Shared, id: string, goal: string, now: nat, saved: bool): Shared {
    Record(sh, Fresh(id, goal, now), saved).(order := sh.order + [id])
  }

  /** setTerminal: overwrites whatever the record says. */
  function SetTerminal(sh: Shared, id: string, status: Status, result: string, reason: Reason, now: nat, saved: bool)
    : Shared
  {
    if id !in sh.tasks then sh
    else Record(sh, sh.tasks[id].(status := status, result := result, error := reason, finishedAt := now), saved)
  }

  datatype CancelReply = NotFound | AlreadyFinished(task: Task) | CancelRequested(task: Task)

  function Cancel(sh: Shared, id: string, now: nat, saved: bool): (Shared, CancelReply) {
    if id !in sh.tasks then (sh, NotFound)
    else
      var t := sh.tasks[id];
      if t.status.Terminal() then (sh, AlreadyFinished(t))
      else if t.status.Queued? then
        var c := t.(status := Cancelled, finishedAt := now);
        (Record(sh, c, saved), CancelRequested(c))
      else (if id in sh.cancels then sh.(cancelled := sh.cancelled + {id}) else sh, CancelRequested(t))
  }

  /** runOne up to the runner call: only a queued task is started, with its goal. */
  function Begin(sh: Shared, id: string, now: nat, saved: bool): (Shared, Option<string>) {
    if id !in sh.tasks || !sh.tasks[id].status.Queued? then (sh, None)
    else
      (Record(sh, sh.tasks[id].(status := Running, startedAt := now), saved)
         .(cancels := sh.cancels + {id}, cancelled := sh.cancelled - {id}),
       Some(sh.tasks[id].goal))
  }

  /** What the runner returned becomes the final record. */
  function Ended(t: Task, ctxDone: bool, result: string, error: Option<string>, now: nat): Task {
    if ctxDone && t.status.Running? && error.Some? then
      t.(status := Cancelled, error := RunError(error.value), finishedAt := now)
    else if t.status.Cancelled? then t.(finishedAt := now)
    else if error.Some? then
      t.(status := if ctxDone then Cancelled else Failed, error := RunError(error.value), finishedAt := now)
    else t.(status := Succeeded, result := result, error := NoError, finishedAt := now)
  }

  function End(sh: Shared, id: string, result: string, error: Option<string>, now: nat, saved: bool): Shared {
    if id !in sh.tasks then sh
    else Record(sh, Ended(sh.tasks[id], ContextDone(sh, id), result, error, now), saved)
  }

  /** The deferred cleanup of runOne. */
  function Close(sh: Shared, id: string): Shared {
    sh.(cancelled := sh.cancelled + {id}, cancels := sh.cancels - {id})
  }

  /** Stop, after the root context is cancelled: the locked loop over the cancel functions. */
  function StopAll(sh: Shared): Shared {
    sh.(cancelled := sh.cancelled + sh.cancels, cancels := {})
  }

  // ---- restore ----

  function Recovered(t: Task): Task {
    if t.status.Running? then t.(status := Failed, error := Interrupted) else t
  }

  predicate NeedsSave(t: Task) {
    t.status.Failed? && t.error.Interrupted?
  }

  /** One iteration of restoreLocked; `saves` tells which ids the store accepts. */
  function RestoreOne(sh: Shared, capacity: nat, saves: string -> bool, t: Task): Shared {
    var r := Recovered(t);
    sh.(tasks := sh.tasks[r.id := r],
        order := sh.order + [r.id],
        queue := if r.status.Queued? && |sh.queue| < capacity then sh.queue + [r.id] else sh.queue,
        store := Resaved(sh.store, r, saves))
  }

  function Resaved(store: seq<Task>, r: Task, saves: string -> bool): seq<Task> {
    if NeedsSave(r) && saves(r.id) then Upsert(store, r) else store
  }

  /** A new manager after the first n stored tasks. */
  function Restore(list: seq<Task>, n: nat, capacity: nat, saves: string -> bool): Shared
    requires n <= |list|
  {
    if n == 0 then Empty(list)
    else RestoreOne(Restore(list, n - 1, capacity, saves), capacity, saves, list[n - 1])
  }

  /** The store after the first n tasks: interrupted tasks are rewritten in place. */
  predicate Rewritten(store: seq<Task>, list: seq<Task>, n: nat, saves: string -> bool) {
    && |store| == |list|
    && forall i :: 0 <= i < |list| ==>
         store[i] == if i < n && (NeedsSave(Recovered(list[i])) ==> saves(list[i].id)) then Recovered(list[i])
                     else list[i]
  }

  lemma RewriteOne(store: seq<Task>, list: seq<Task>, n: nat, saves: string -> bool)
    requires n < |list| && DistinctIds(list) && Rewritten(store, list, n, saves)
    ensures Rewritten(Resaved(store, Recovered(list[n]), saves), list, n + 1, saves)
  {
    forall i, j | 0 <= i < j < |store|
      ensures store[i].id != store[j].id
    {
      assert store[i].id == list[i].id && store[j].id == list[j].id;
    }
    UpsertReplaces(store, Recovered(list[n]), n);
  }

  lemma RestoreStores(list: seq<Task>, n: nat, capacity: nat, saves: string -> bool)
    requires n < |list|
    ensures Restore(list, n + 1, capacity, saves).store ==
            Resaved(Restore(list, n, capacity, saves).store, Recovered(list[n]), saves)
  {
  }

  /** The store that the first n restored tasks leave. */
  ghost predicate RestoreRewrote(list: seq<Task>, n: nat, capacity: nat, saves: string -> bool)
    requires n <= |list|
  {
    Rewritten(Restore(list, n, capacity, saves).store, list, n, saves)
  }

  lemma RestoreRewritesOne(list: seq<Task>, n: nat, capacity: nat, saves: string -> bool)
    requires n < |list| && DistinctIds(list)
    requires RestoreRewrote(list, n, capacity, saves)
    ensures RestoreRewrote(list, n + 1, capacity, saves)
  {
    RewriteOne(Restore(list, n, capacity, saves).store, list, n, saves);
    RestoreStores(list, n, capacity, saves);
  }

  lemma {:induction false} RestoreRewritesAll(list: seq<Task>, n: nat, capacity: nat, saves: string -> bool)
    requires n <= |list| && DistinctIds(list)
    ensures RestoreRewrote(list, n, capacity, saves)
  {
    if n == 0 {
      assert Restore(list, 0, capacity, saves) == Empty(list);
    } else {
      var m := n - 1;
      RestoreRewritesAll(list, m, capacity, saves);
      RestoreRewritesOne(list, m, capacity, saves);
    }
  }

  lemma RestoreRewrites(list: seq<Task>, n: nat, capacity: nat, saves: string -> bool)
    requires n <= |list| && DistinctIds(list)
    ensures Rewritten(Restore(list, n, capacity, saves).store, list, n, saves)
  {
    RestoreRewritesAll(list, n, capacity, saves);
  }

  /** The map and the order after the first n tasks. */
  predicate Loaded(sh: Shared, list: seq<Task>, n: nat)
    requires n <= |list|
  {
    && |sh.order| == n
    && (forall i :: 0 <= i < n ==> sh.order[i] == list[i].id && list[i].id in sh.tasks)
    && (forall i :: 0 <= i < n ==> sh.tasks[list[i].id] == Recovered(list[i]))
    && (forall id :: id in sh.tasks ==> id in sh.order)
    && sh.cancels == sh.cancelled == {} && !sh.stopped
  }

  lemma LoadOne(sh: Shared, list: seq<Task>, n: nat, t: Task)
    requires n < |list| && DistinctIds(list) && Loaded(sh, list, n) && t == Recovered(list[n])
    ensures Loaded(sh.(tasks := sh.tasks[t.id := t], order := sh.order + [t.id]), list, n + 1)
  {
    var after := sh.(tasks := sh.tasks[t.id := t], order := sh.order + [t.id]);
    assert after.order[n] == t.id;
    forall id | id in after.tasks
      ensures id in after.order
    {
      assert id in sh.order + [t.id];
    }
  }

  lemma {:induction false} RestoreLoads(list: seq<Task>, n: nat, capacity: nat, saves: string -> bool)
    requires n <= |list| && DistinctIds(list)
    ensures Loaded(Restore(list, n, capacity, saves), list, n)
  {
    if n > 0 {
      RestoreLoads(list, n - 1, capacity, saves);
      LoadOne(Restore(list, n - 1, capacity, saves), list, n - 1, Recovered(list[n - 1]));
    }
  }

  lemma LoadedIsOrdered(sh: Shared, list: seq<Task>)
    requires DistinctIds(list) && Loaded(sh, list, |list|)
    ensures Ordered(sh.tasks, sh.order)
  {
  }

  /** The queue holds restored ids, each queued, each once, and never more than fit. */
  predicate Requeued(sh: Shared, capacity: nat) {
    && |sh.queue| <= capacity
    && (forall id :: id in sh.queue ==> id in sh.tasks && sh.tasks[id].status.Queued?)
    && (forall i, j :: 0 <= i < j < |sh.queue| ==> sh.queue[i] != sh.queue[j])
  }

  lemma RequeueOne(sh: Shared, capacity: nat, t: Task)
    requires Requeued(sh, capacity) && t.id !in sh.tasks
    ensures Requeued(sh.(tasks := sh.tasks[t.id := t],
                         queue := if t.status.Queued? && |sh.queue| < capacity then sh.queue + [t.id] else sh.queue),
                     capacity)
  {
  }

  lemma NotYetLoaded(list: seq<Task>, n: nat, capacity: nat, saves: string -> bool)
    requires n < |list| && DistinctIds(list)
    ensures list[n].id !in Restore(list, n, capacity, saves).tasks
  {
    RestoreLoads(list, n, capacity, saves);
    assert list[n].id !in Restore(list, n, capacity, saves).order;
  }

  lemma {:induction false} RestoreRequeues(list: seq<Task>, n: nat, capacity: nat, saves: string -> bool)
    requires n <= |list| && DistinctIds(list)
    ensures Requeued(Restore(list, n, capacity, saves), capacity)
  {
    if n > 0 {
      RestoreRequeues(list, n - 1, capacity, saves);
      NotYetLoaded(list, n - 1, capacity, saves);
      RequeueOne(Restore(list, n - 1, capacity, saves), capacity, Recovered(list[n - 1]));
    }
  }
}
