/** When the runner of a task can be started once more: what a crash at any moment, and a new
    manager over the store it left, make of a task that has been begun. */
module TaskRestarts {
  import opened TaskStores
  import opened Tasks
  import opened TaskSystem
  import opened Wrappers

  predicate StoredQueued(s: System, id: string) {
    Find(s.sh.store, id).Some? && Find(s.sh.store, id).value.status.Queued?
  }

  predicate LoadedQueued(s: System, id: string) {
    id in s.sh.tasks && s.sh.tasks[id].status.Queued?
  }

  /** A worker has begun the task and is about to call its runner. */
  predicate AboutToStart(s: System, id: string) {
    exists w :: 0 <= w < |s.workers| && s.workers[w].Begun? && s.workers[w].id == id
  }

  /** How often the runner has been called for a task. */
  function Calls(s: System, id: string): nat {
    multiset(s.starts)[id]
  }

  /** Every write of a Running record works. */
  predicate RunningSaved(run: seq<Action>) {
    forall i :: 0 <= i < |run| && run[i].Begin? ==> run[i].saved
  }

  /** Some continuation in which every write of a Running record works calls the runner again. */
  ghost predicate StartsAgain(s: System, id: string) {
    exists run :: Enables(s, run) && RunningSaved(run) && Calls(Exec(s, run), id) > Calls(s, id)
  }

  // ---- the store after a restart ----

  predicate QueuedIn(list: seq<Task>, id: string) {
    exists i :: 0 <= i < |list| && list[i].id == id && list[i].status.Queued?
  }

  lemma FindQueued(list: seq<Task>, id: string)
    requires DistinctIds(list)
    ensures Find(list, id).Some? && Find(list, id).value.status.Queued? <==> QueuedIn(list, id)
  {
    if i :| 0 <= i < |list| && list[i].id == id && list[i].status.Queued? {
      FindAt(list, i);
    }
  }

  lemma RewrittenQueued(store: seq<Task>, list: seq<Task>, saves: string -> bool, id: string)
    requires Rewritten(store, list, |list|, saves)
    ensures QueuedIn(store, id) <==> QueuedIn(list, id)
  {
    if i :| 0 <= i < |list| && list[i].id == id && list[i].status.Queued? {
      assert store[i] == list[i];
    }
  }

  lemma LoadedQueuedIn(sh: Shared, list: seq<Task>, id: string)
    requires DistinctIds(list) && Loaded(sh, list, |list|)
    ensures id in sh.tasks && sh.tasks[id].status.Queued? <==> QueuedIn(list, id)
  {
    if id in sh.tasks {
      var i :| 0 <= i < |sh.order| && sh.order[i] == id;
      assert sh.tasks[list[i].id] == Recovered(list[i]);
    }
  }

  lemma RestartQueues(s: System, a: Action, id: string)
    requires Inv(s) && Enabled(s, a) && a.Restart?
    ensures StoredQueued(Step(s, a), id) <==> StoredQueued(s, id)
    ensures LoadedQueued(Step(s, a), id) <==> a.readable && StoredQueued(s, id)
  {
    var list := s.sh.store;
    if a.readable {
      RestoreLoads(list, |list|, a.capacity, a.saves);
      RestoreRewrites(list, |list|, a.capacity, a.saves);
      RestartKeepsBooks(s, a);
      FindQueued(Step(s, a).sh.store, id);
      RewrittenQueued(Step(s, a).sh.store, list, a.saves, id);
      LoadedQueuedIn(Step(s, a).sh, list, id);
      FindQueued(list, id);
    }
  }

  // ---- a begun task that is queued in memory is queued in the store ----

  ghost predicate Tracked(s: System) {
    && (forall id :: id in s.starts ==> id in s.begun)
    && (forall w :: 0 <= w < |s.workers| && s.workers[w].Begun? ==> s.workers[w].id in s.begun)
    && (forall id :: id in s.begun && LoadedQueued(s, id) ==> StoredQueued(s, id))
  }

  lemma OnlySubmitWritesQueued(s: System, a: Action)
    requires Inv(s) && Enabled(s, a) && !a.Restart?
    ensures Write(s, a).Some? && Write(s, a).value.status.Queued? ==> a.Submit? && a.id == Write(s, a).value.id
  {
    StepIsLawful(s, a);
  }

  /** A write makes queued only what it writes as queued, in memory and in the store. */
  lemma WriteQueues(s: System, a: Action, id: string)
    requires Inv(s) && Enabled(s, a) && !a.Restart?
    ensures LoadedQueued(Step(s, a), id) ==> LoadedQueued(s, id) || (a.Submit? && a.id == id)
    ensures StoredQueued(Step(s, a), id) ==> StoredQueued(s, id) || (a.Submit? && a.id == id)
    ensures LoadedQueued(Step(s, a), id) && StoredQueued(s, id) ==> StoredQueued(Step(s, a), id)
  {
    StepWrites(s, a);
    OnlySubmitWritesQueued(s, a);
    WriteQueuesOnly(s.sh, Step(s, a).sh, Write(s, a), Saved(a), id);
  }

  lemma WriteQueuesOnly(before: Shared, after: Shared, t: Option<Task>, saved: bool, id: string)
    requires Wrote(before, after, t, saved)
    ensures t.None? || t.value.id != id ==> after.tasks.Keys * {id} == before.tasks.Keys * {id}
    ensures t.None? || t.value.id != id ==> id in before.tasks ==> after.tasks[id] == before.tasks[id]
    ensures t.None? || t.value.id != id ==> Find(after.store, id) == Find(before.store, id)
    ensures t.Some? && t.value.id == id ==> id in after.tasks && after.tasks[id] == t.value
    ensures t.Some? && t.value.id == id ==> Find(after.store, id) == if saved then t else Find(before.store, id)
  {
    if t.Some? {
      FindAfterUpsert(before.store, t.value, id);
    }
  }

  lemma BeginQueuesNothing(s: System, a: Action, id: string)
    requires Inv(s) && Enabled(s, a) && a.Begin? && Write(s, a).Some? && s.workers[a.w].id == id
    ensures !LoadedQueued(Step(s, a), id)
  {
    StepWrites(s, a);
  }

  lemma StepKeepsTracked(s: System, a: Action)
    requires Inv(s) && Enabled(s, a) && Tracked(s)
    ensures Tracked(Step(s, a))
  {
    var s' := Step(s, a);
    if a.Restart? {
      forall id | id in s.begun && LoadedQueued(s', id)
        ensures StoredQueued(s', id)
      {
        RestartQueues(s, a, id);
      }
    } else {
      StepRecords(s, a);
      StepHands(s, a);
      forall id | id in s'.begun && LoadedQueued(s', id)
        ensures StoredQueued(s', id)
      {
        WriteQueues(s, a, id);
        if id !in s.begun {
          BeginQueuesNothing(s, a, id);
        }
      }
    }
  }

  lemma {:induction false} RunKeepsTracked(s: System, run: seq<Action>)
    requires Inv(s) && Tracked(s) && Enables(s, run)
    ensures Inv(Exec(s, run)) && Tracked(Exec(s, run))
    decreases |run|
  {
    if run != [] {
      StepKeepsInv(s, run[0]);
      StepKeepsTracked(s, run[0]);
      RunKeepsTracked(Step(s, run[0]), run[1..]);
    }
  }

  // ---- a begun task that is queued nowhere never starts again ----

  ghost predicate Spent(s: System, id: string) {
    id in s.begun && !LoadedQueued(s, id) && !StoredQueued(s, id) && !AboutToStart(s, id)
  }

  lemma StepKeepsSpent(s: System, a: Action, id: string)
    requires Inv(s) && Enabled(s, a) && Spent(s, id)
    ensures Spent(Step(s, a), id) && Calls(Step(s, a), id) == Calls(s, id)
  {
    if a.Restart? {
      RestartQueues(s, a, id);
    } else {
      StepRecords(s, a);
      StepHands(s, a);
      WriteQueues(s, a, id);
      if a.Call? {
        assert s.workers[a.w].Begun?;
      }
    }
  }

  lemma {:induction false} RunKeepsSpent(s: System, run: seq<Action>, id: string)
    requires Inv(s) && Enables(s, run) && Spent(s, id)
    ensures Calls(Exec(s, run), id) == Calls(s, id)
    decreases |run|
  {
    if run != [] {
      StepKeepsSpent(s, run[0], id);
      StepKeepsInv(s, run[0]);
      RunKeepsSpent(Step(s, run[0]), run[1..], id);
    }
  }

  // ---- a task queued in the store starts after a crash ----

  lemma {:induction false} RestoreFits(list: seq<Task>, n: nat, capacity: nat, saves: string -> bool)
    requires n <= |list|
    ensures |Restore(list, n, capacity, saves).queue| <= n
  {
    if n > 0 {
      RestoreFits(list, n - 1, capacity, saves);
    }
  }

  /** With room for every stored task a restore requeues all that are queued. */
  lemma {:induction false} RestoreRequeuesAll(list: seq<Task>, n: nat, capacity: nat, saves: string -> bool, i: nat)
    requires i < n <= |list| && n <= capacity && list[i].status.Queued?
    ensures list[i].id in Restore(list, n, capacity, saves).queue
  {
    RestoreFits(list, n - 1, capacity, saves);
    if i < n - 1 {
      RestoreRequeuesAll(list, n - 1, capacity, saves, i);
    }
  }

  predicate IdleFrom(s: System, w: nat, n: nat) {
    w + n <= |s.workers| && forall v :: w <= v < w + n ==> s.workers[v].Idle?
  }

  /** Idle workers take tasks from the queue until one of them holds the task at position k; then
      that one begins it and calls its runner. */
  function TakeUntil(w: nat, k: nat): seq<Action>
    decreases k
  {
    if k == 0 then [Take(w)] + ([Begin(w, 0, true)] + ([Call(w)] + []))
    else [Take(w)] + TakeUntil(w + 1, k - 1)
  }

  lemma Prepend(s: System, a: Action, rest: seq<Action>)
    requires Enabled(s, a) && Enables(Step(s, a), rest)
    ensures Enables(s, [a] + rest) && Exec(s, [a] + rest) == Exec(Step(s, a), rest)
  {
    assert ([a] + rest)[0] == a && ([a] + rest)[1..] == rest;
  }

  lemma {:induction false} TakeUntilSavesRunning(w: nat, k: nat)
    ensures RunningSaved(TakeUntil(w, k))
    decreases k
  {
    if k > 0 {
      TakeUntilSavesRunning(w + 1, k - 1);
    }
  }

  lemma TakeAndStart(s: System, w: nat, id: string)
    requires s.sh.queue != [] && s.sh.queue[0] == id && IdleFrom(s, w, 1) && LoadedQueued(s, id)
    ensures Enables(s, TakeUntil(w, 0)) && Exec(s, TakeUntil(w, 0)).starts == s.starts + [id]
  {
    var taken := Step(s, Take(w));
    var begun := Step(taken, Begin(w, 0, true));
    assert begun.workers[w].Begun? && begun.workers[w].id == id;
    var called := Step(begun, Call(w));
    Prepend(begun, Call(w), []);
    Prepend(taken, Begin(w, 0, true), [Call(w)] + []);
    Prepend(s, Take(w), [Begin(w, 0, true)] + ([Call(w)] + []));
  }

  lemma {:induction false} TakesAndStarts(s: System, w: nat, k: nat, id: string)
    requires k < |s.sh.queue| && s.sh.queue[k] == id && IdleFrom(s, w, k + 1) && LoadedQueued(s, id)
    ensures Enables(s, TakeUntil(w, k)) && Exec(s, TakeUntil(w, k)).starts == s.starts + [id]
    decreases k
  {
    if k == 0 {
      TakeAndStart(s, w, id);
    } else {
      var taken := Step(s, Take(w));
      TakesAndStarts(taken, w + 1, k - 1, id);
      Prepend(s, Take(w), TakeUntil(w + 1, k - 1));
    }
  }

  lemma MoreCalls(starts: seq<string>, id: string)
    ensures multiset(starts + [id])[id] == multiset(starts)[id] + 1
  {
  }

  /** A crash, and a manager with room and a worker for every stored task. */
  function Crash(s: System): Action {
    Restart(|s.sh.store| + 1, |s.sh.store| + 1, true, _ => true)
  }

  lemma RestoreQueues(list: seq<Task>, capacity: nat, saves: string -> bool, id: string) returns (k: nat)
    requires QueuedIn(list, id) && |list| <= capacity
    ensures var queue := Restore(list, |list|, capacity, saves).queue;
            k < |queue| <= |list| && queue[k] == id
  {
    var i :| 0 <= i < |list| && list[i].id == id && list[i].status.Queued?;
    RestoreRequeuesAll(list, |list|, capacity, saves, i);
    RestoreFits(list, |list|, capacity, saves);
    var queue := Restore(list, |list|, capacity, saves).queue;
    k :| 0 <= k < |queue| && queue[k] == id;
  }

  lemma CrashRestores(s: System)
    ensures var s' := Step(s, Crash(s));
            && s'.sh == Restore(s.sh.store, |s.sh.store|, |s.sh.store| + 1, Crash(s).saves)
            && IdleFrom(s', 0, |s.sh.store| + 1) && s'.starts == s.starts
  {
  }

  lemma RestoredStarts(s: System, list: seq<Task>, saves: string -> bool, id: string) returns (k: nat)
    requires s.sh == Restore(list, |list|, |list| + 1, saves) && IdleFrom(s, 0, |list| + 1)
    requires QueuedIn(list, id) && LoadedQueued(s, id)
    ensures Enables(s, TakeUntil(0, k)) && Exec(s, TakeUntil(0, k)).starts == s.starts + [id]
  {
    k := RestoreQueues(list, |list| + 1, saves, id);
    TakesAndStarts(s, 0, k, id);
  }

  lemma CrashStarts(s: System, id: string) returns (k: nat)
    requires QueuedIn(s.sh.store, id) && LoadedQueued(Step(s, Crash(s)), id)
    ensures Enables(Step(s, Crash(s)), TakeUntil(0, k))
    ensures Exec(Step(s, Crash(s)), TakeUntil(0, k)).starts == s.starts + [id]
  {
    CrashRestores(s);
    k := RestoredStarts(Step(s, Crash(s)), s.sh.store, Crash(s).saves, id);
  }

  lemma StartsAfter(s: System, a: Action, rest: seq<Action>, id: string)
    requires Enabled(s, a) && !a.Begin? && Enables(Step(s, a), rest) && RunningSaved(rest)
    requires Exec(Step(s, a), rest).starts == s.starts + [id]
    ensures StartsAgain(s, id)
  {
    Prepend(s, a, rest);
    MoreCalls(s.starts, id);
    assert RunningSaved([a] + rest);
  }

  lemma StoredQueuedStarts(s: System, id: string)
    requires Inv(s) && StoredQueued(s, id)
    ensures StartsAgain(s, id)
  {
    RestartQueues(s, Crash(s), id);
    FindQueued(s.sh.store, id);
    var k := CrashStarts(s, id);
    TakeUntilSavesRunning(0, k);
    StartsAfter(s, Crash(s), TakeUntil(0, k), id);
  }

  lemma AboutToStartStarts(s: System, id: string)
    requires AboutToStart(s, id)
    ensures StartsAgain(s, id)
  {
    var w :| 0 <= w < |s.workers| && s.workers[w].Begun? && s.workers[w].id == id;
    StartsAfter(s, Call(w), [], id);
  }

  // ---- the main result ----

  /** In every reachable state, whatever writes were lost before: a task that has been begun can be
      started again, with every further write of a Running record working, if and only if the
      store lists it as queued or a worker that has begun it is yet to call its runner. Otherwise
      no continuation at all starts it again. */
  lemma StartsAgainIff(list: seq<Task>, capacity: nat, workers: nat, readable: bool, saves: string -> bool,
                       before: seq<Action>, id: string)
    requires DistinctIds(list) && capacity > 0 && workers > 0
    requires Enables(First(list, capacity, workers, readable, saves), before)
    requires id in Exec(First(list, capacity, workers, readable, saves), before).begun
    ensures var s := Exec(First(list, capacity, workers, readable, saves), before);
            && (StartsAgain(s, id) <==> StoredQueued(s, id) || AboutToStart(s, id))
            && (!StartsAgain(s, id) ==> forall run :: Enables(s, run) ==> Calls(Exec(s, run), id) == Calls(s, id))
  {
    var first := First(list, capacity, workers, readable, saves);
    FirstInv(list, capacity, workers, readable, saves);
    RunKeepsTracked(first, before);
    BegunStartsAgainIff(Exec(first, before), id);
  }

  lemma BegunStartsAgainIff(s: System, id: string)
    requires Inv(s) && Tracked(s) && id in s.begun
    ensures StartsAgain(s, id) <==> StoredQueued(s, id) || AboutToStart(s, id)
    ensures !StartsAgain(s, id) ==> forall run :: Enables(s, run) ==> Calls(Exec(s, run), id) == Calls(s, id)
  {
    if StoredQueued(s, id) {
      StoredQueuedStarts(s, id);
    } else if AboutToStart(s, id) {
      AboutToStartStarts(s, id);
    } else {
      forall run | Enables(s, run)
        ensures Calls(Exec(s, run), id) == Calls(s, id)
      {
        RunKeepsSpent(s, run, id);
      }
    }
  }
}
