/** The task manager under every interleaving of its goroutines, with crashes. Each locked section,
    channel operation and context event is one step; a restart keeps only the store. */
module TaskSystem {
  import opened TaskStores
  import opened Tasks
  import opened Wrappers

  /** The three kinds of places a task can be in: waiting for a worker (a Submit not yet sent, the
      queue, a worker's hands, left over by a restore), being run, or being cleaned up. */
  datatype Kind = Waits | Runs | Ends

  /** Where a worker goroutine is between two steps. */
  datatype Worker =
    | Idle
    | Holding(id: string)
    | Begun(id: string, goal: string)
    | InRunner(id: string)
    | Closing(id: string)
    | Exited
  {
    predicate Has(kind: Kind, task: string) {
      match kind
      case Waits => Holding? && id == task
      case Runs => (Begun? || InRunner?) && id == task
      case Ends => Closing? && id == task
    }
  }

  /** A Submit that has registered its task but has not returned. */
  datatype Submission = Sending | Refused(reason: Reason)

  /** `overflow` are the tasks a restore left queued without a place in the queue. The rest is
      history: the ids ever used, the tasks ever begun, the runner calls in order with the goal each
      was given, whether every write of a Running record worked, and whether every store access
      since the last complete restore did. */
  datatype System = System(
    sh: Shared,
    capacity: nat,
    workers: seq<Worker>,
    submits: map<string, Submission>,
    overflow: set<string>,
    used: set<string>,
    begun: set<string>,
    starts: seq<string>,
    goals: seq<string>,
    runningSaved: bool,
    agreed: bool)

  datatype Action =
    | Submit(id: string, goal: string, now: nat, saved: bool)
    | Send(id: string)
    | Refuse(id: string, reason: Reason)
    | Fail(id: string, now: nat, saved: bool)
    | Cancel(id: string, now: nat, saved: bool)
    | Take(w: nat)
    | Exit(w: nat)
    | Begin(w: nat, now: nat, saved: bool)
    | Call(w: nat)
    | Finish(w: nat, result: string, error: Option<string>, now: nat, saved: bool)
    | Release(w: nat)
    | StopRoot
    | StopCancels
    | Restart(capacity: nat, workers: nat, readable: bool, saves: string -> bool)

  predicate At(s: System, w: nat) {
    w < |s.workers|
  }

  /** What can happen next. New ids are fresh; select never takes its default branch while
      another is ready; a worker only takes from a non-empty queue. */
  predicate Enabled(s: System, a: Action) {
    match a
    case Submit(id, _, _, _) => id !in s.used
    case Send(id) => id in s.submits && s.submits[id].Sending? && |s.sh.queue| < s.capacity
    case Refuse(id, reason) =>
      && id in s.submits && s.submits[id].Sending?
      && if s.sh.stopped then reason.Stopped? else reason.QueueFull? && |s.sh.queue| >= s.capacity
    case Fail(id, _, _) => id in s.submits && s.submits[id].Refused?
    case Cancel(_, _, _) => true
    case Take(w) => At(s, w) && s.workers[w].Idle? && s.sh.queue != []
    case Exit(w) => At(s, w) && s.workers[w].Idle? && s.sh.stopped
    case Begin(w, _, _) => At(s, w) && s.workers[w].Holding?
    case Call(w) => At(s, w) && s.workers[w].Begun?
    case Finish(w, _, _, _, _) => At(s, w) && s.workers[w].InRunner?
    case Release(w) => At(s, w) && s.workers[w].Closing?
    case StopRoot => true
    case StopCancels => s.sh.stopped
    case Restart(capacity, workers, _, _) => capacity > 0 && workers > 0
  }

  function Step(s: System, a: Action): System
    requires Enabled(s, a)
  {
    match a
    case Submit(id, goal, now, saved) =>
      s.(sh := Register(s.sh, id, goal, now, saved), submits := s.submits[id := Sending],
         used := s.used + {id}, agreed := s.agreed && saved)
    case Send(id) =>
      s.(sh := s.sh.(queue := s.sh.queue + [id]), submits := s.submits - {id})
    case Refuse(id, reason) => s.(submits := s.submits[id := Refused(reason)])
    case Fail(id, now, saved) =>
      s.(sh := SetTerminal(s.sh, id, Failed, "", s.submits[id].reason, now, saved), submits := s.submits - {id},
         agreed := s.agreed && saved)
    case Cancel(id, now, saved) =>
      s.(sh := Tasks.Cancel(s.sh, id, now, saved).0, agreed := s.agreed && saved)
    case Take(w) =>
      s.(sh := s.sh.(queue := s.sh.queue[1..]), workers := s.workers[w := Holding(s.sh.queue[0])])
    case Exit(w) => s.(workers := s.workers[w := Exited])
    case Begin(w, now, saved) =>
      var id := s.workers[w].id;
      var (sh, goal) := Tasks.Begin(s.sh, id, now, saved);
      if goal.Some? then
        s.(sh := sh, workers := s.workers[w := Begun(id, goal.value)], begun := s.begun + {id},
           runningSaved := s.runningSaved && saved, agreed := s.agreed && saved)
      else s.(workers := s.workers[w := Idle])
    case Call(w) =>
      s.(workers := s.workers[w := InRunner(s.workers[w].id)], starts := s.starts + [s.workers[w].id],
         goals := s.goals + [s.workers[w].goal])
    case Finish(w, result, error, now, saved) =>
      s.(sh := End(s.sh, s.workers[w].id, result, error, now, saved),
         workers := s.workers[w := Closing(s.workers[w].id)], agreed := s.agreed && saved)
    case Release(w) =>
      s.(sh := Close(s.sh, s.workers[w].id), workers := s.workers[w := Idle])
    case StopRoot => s.(sh := s.sh.(stopped := true))
    case StopCancels => s.(sh := StopAll(s.sh))
    case Restart(capacity, workers, readable, saves) => Restarted(s, capacity, workers, readable, saves)
  }

  /** Every interrupted task could be rewritten. */
  predicate AllRewritten(list: seq<Task>, saves: string -> bool) {
    forall i :: 0 <= i < |list| ==> NeedsSave(Recovered(list[i])) ==> saves(list[i].id)
  }

  /** A crash and a new manager over the same store. */
  function Restarted(s: System, capacity: nat, workers: nat, readable: bool, saves: string -> bool): System {
    var list := s.sh.store;
    var sh := if readable then Restore(list, |list|, capacity, saves) else Empty(list);
    s.(sh := sh, capacity := capacity, workers := seq(workers, _ => Idle), submits := map[],
       overflow := (set id | id in sh.tasks && sh.tasks[id].status.Queued? && id !in sh.queue),
       agreed := readable && AllRewritten(list, saves))
  }

  /** The first manager, over a store that an earlier one may have left. */
  function First(list: seq<Task>, capacity: nat, workers: nat, readable: bool, saves: string -> bool): System {
    Restarted(System(Empty(list), 0, [], map[], {}, (set t | t in list :: t.id), {}, [], [], true, false),
              capacity, workers, readable, saves)
  }

  predicate Enables(s: System, run: seq<Action>)
    decreases |run|
  {
    run == [] || (Enabled(s, run[0]) && Enables(Step(s, run[0]), run[1..]))
  }

  function Exec(s: System, run: seq<Action>): System
    requires Enables(s, run)
    decreases |run|
  {
    if run == [] then s else Exec(Step(s, run[0]), run[1..])
  }

  // ---- every step but a restart writes at most one record and moves at most one task ----

  /** The record a step writes. */
  function Write(s: System, a: Action): Option<Task>
    requires Enabled(s, a)
  {
    match a
    case Submit(id, goal, now, _) => Some(Fresh(id, goal, now))
    case Fail(id, now, _) =>
      if id in s.sh.tasks then
        Some(s.sh.tasks[id].(status := Failed, result := "", error := s.submits[id].reason, finishedAt := now))
      else None
    case Cancel(id, now, _) =>
      if id in s.sh.tasks && s.sh.tasks[id].status.Queued? then
        Some(s.sh.tasks[id].(status := Cancelled, finishedAt := now))
      else None
    case Begin(w, now, _) =>
      var id := s.workers[w].id;
      if id in s.sh.tasks && s.sh.tasks[id].status.Queued? then
        Some(s.sh.tasks[id].(status := Running, startedAt := now))
      else None
    case Finish(w, result, error, now, _) =>
      var id := s.workers[w].id;
      if id in s.sh.tasks then Some(Ended(s.sh.tasks[id], ContextDone(s.sh, id), result, error, now)) else None
    case _ => None
  }

  predicate Saved(a: Action) {
    match a
    case Submit(_, _, _, saved) => saved
    case Fail(_, _, saved) => saved
    case Cancel(_, _, saved) => saved
    case Begin(_, _, saved) => saved
    case Finish(_, _, _, _, saved) => saved
    case _ => true
  }

  /** Tasks, order and store after writing a record. */
  predicate Wrote(before: Shared, after: Shared, t: Option<Task>, saved: bool) {
    match t
    case None => after.tasks == before.tasks && after.order == before.order && after.store == before.store
    case Some(t) =>
      && after.tasks == before.tasks[t.id := t]
      && after.order == Extended(before.order, t.id)
      && after.store == if saved then Upsert(before.store, t) else before.store
  }

  lemma CancelWrites(s: System, a: Action)
    requires a.Cancel? && Enabled(s, a) && Ordered(s.sh.tasks, s.sh.order) && s.sh.tasks.Keys <= s.used
    ensures Wrote(s.sh, Step(s, a).sh, Write(s, a), Saved(a))
  {
  }

  lemma BeginWrites(s: System, a: Action)
    requires a.Begin? && Enabled(s, a) && Ordered(s.sh.tasks, s.sh.order) && s.sh.tasks.Keys <= s.used
    ensures Wrote(s.sh, Step(s, a).sh, Write(s, a), Saved(a))
  {
  }

  lemma FinishWrites(s: System, a: Action)
    requires a.Finish? && Enabled(s, a) && Ordered(s.sh.tasks, s.sh.order) && s.sh.tasks.Keys <= s.used
    ensures Wrote(s.sh, Step(s, a).sh, Write(s, a), Saved(a))
  {
  }

  lemma StepWrites(s: System, a: Action)
    requires Enabled(s, a) && !a.Restart? && Ordered(s.sh.tasks, s.sh.order) && s.sh.tasks.Keys <= s.used
    ensures Wrote(s.sh, Step(s, a).sh, Write(s, a), Saved(a))
  {
    match a {
      case Submit(_, _, _, _) =>
      case Fail(_, _, _) =>
      case Cancel(_, _, _) => CancelWrites(s, a);
      case Begin(_, _, _) => BeginWrites(s, a);
      case Finish(_, _, _, _, _) => FinishWrites(s, a);
      case _ =>
    }
  }

  /** A task leaves one kind of place for another. */
  datatype Move = Move(id: string, from: Option<Kind>, to: Option<Kind>) {
    function Change(kind: Kind, task: string): int {
      if task != id then 0
      else (if to == Some(kind) then 1 else 0) - (if from == Some(kind) then 1 else 0)
    }
  }

  function Moved(s: System, a: Action): Move
    requires Enabled(s, a)
  {
    match a
    case Submit(id, _, _, _) => Move(id, None, Some(Waits))
    case Fail(id, _, _) => Move(id, Some(Waits), None)
    case Begin(w, _, _) => Move(s.workers[w].id, Some(Waits), if Write(s, a).Some? then Some(Runs) else None)
    case Finish(w, _, _, _, _) => Move(s.workers[w].id, Some(Runs), Some(Ends))
    case Release(w) => Move(s.workers[w].id, Some(Ends), None)
    case _ => Move("", None, None)
  }

  /** In how many workers' hands a task is. */
  function Held(workers: seq<Worker>, kind: Kind, id: string): nat {
    if workers == [] then 0
    else Held(workers[..|workers| - 1], kind, id) + if workers[|workers| - 1].Has(kind, id) then 1 else 0
  }

  /** In how many places of a kind a task is. */
  function Count(s: System, kind: Kind, id: string): nat {
    Held(s.workers, kind, id) + if kind == Waits then Parked(s.submits.Keys, s.sh.queue, s.overflow, id) else 0
  }

  function Parked(submits: set<string>, queue: seq<string>, overflow: set<string>, id: string): nat {
    (if id in submits then 1 else 0) + multiset(queue)[id] + (if id in overflow then 1 else 0)
  }

  lemma {:induction false} HeldAfterUpdate(workers: seq<Worker>, w: nat, x: Worker, kind: Kind, id: string)
    requires w < |workers|
    ensures Held(workers[w := x], kind, id) ==
            Held(workers, kind, id) + (if x.Has(kind, id) then 1 else 0) - (if workers[w].Has(kind, id) then 1 else 0)
  {
    var n := |workers| - 1;
    if w < n {
      HeldAfterUpdate(workers[..n], w, x, kind, id);
      assert workers[w := x][..n] == workers[..n][w := x];
    } else {
      assert workers[w := x][..n] == workers[..n];
    }
  }

  /** The worker a step concerns, and what it becomes. */
  function Hand(s: System, a: Action): Option<(nat, Worker)>
    requires Enabled(s, a)
  {
    match a
    case Take(w) => Some((w, Holding(s.sh.queue[0])))
    case Exit(w) => Some((w, Exited))
    case Begin(w, _, _) => Some((w, if Write(s, a).Some? then Begun(s.workers[w].id, Write(s, a).value.goal) else Idle))
    case Call(w) => Some((w, InRunner(s.workers[w].id)))
    case Finish(w, _, _, _, _) => Some((w, Closing(s.workers[w].id)))
    case Release(w) => Some((w, Idle))
    case _ => None
  }

  lemma StepHands(s: System, a: Action)
    requires Enabled(s, a) && !a.Restart?
    ensures var hand := Hand(s, a);
            if hand.None? then Step(s, a).workers == s.workers
            else hand.value.0 < |s.workers| && Step(s, a).workers == s.workers[hand.value.0 := hand.value.1]
  {
  }

  lemma TakeParks(s: System, a: Action, id: string)
    requires Enabled(s, a) && a.Take?
    ensures var s' := Step(s, a);
            Parked(s'.submits.Keys, s'.sh.queue, s'.overflow, id) ==
            Parked(s.submits.Keys, s.sh.queue, s.overflow, id) - (if s.sh.queue[0] == id then 1 else 0)
  {
    assert s.sh.queue == [s.sh.queue[0]] + s.sh.queue[1..];
  }

  lemma OtherParks(s: System, a: Action, id: string)
    requires Enabled(s, a) && !a.Restart? && !a.Submit? && !a.Fail? && !a.Send? && !a.Take?
    ensures var s' := Step(s, a);
            Parked(s'.submits.Keys, s'.sh.queue, s'.overflow, id) == Parked(s.submits.Keys, s.sh.queue, s.overflow, id)
  {
    match a {
      case Refuse(_, _) =>
      case Cancel(_, _, _) =>
      case Begin(_, _, _) =>
      case Finish(_, _, _, _, _) =>
      case _ =>
    }
  }

  lemma StepParks(s: System, a: Action, id: string)
    requires Enabled(s, a) && !a.Restart? && s.submits.Keys <= s.used
    ensures var s' := Step(s, a);
            Parked(s'.submits.Keys, s'.sh.queue, s'.overflow, id) ==
            Parked(s.submits.Keys, s.sh.queue, s.overflow, id)
            + (if (a.Submit? && a.id == id) then 1 else 0)
            - (if (a.Fail? && a.id == id) || (a.Take? && s.sh.queue[0] == id) then 1 else 0)
  {
    match a {
      case Submit(_, _, _, _) =>
      case Fail(_, _, _) =>
      case Send(_) =>
      case Take(_) => TakeParks(s, a, id);
      case _ => OtherParks(s, a, id);
    }
  }

  function HandChange(workers: seq<Worker>, hand: Option<(nat, Worker)>, kind: Kind, id: string): int {
    if hand.None? || hand.value.0 >= |workers| then 0
    else
      (if hand.value.1.Has(kind, id) then 1 else 0) - (if workers[hand.value.0].Has(kind, id) then 1 else 0)
  }

  lemma StepHolds(s: System, a: Action, kind: Kind, id: string)
    requires Enabled(s, a) && !a.Restart?
    ensures Held(Step(s, a).workers, kind, id) ==
            Held(s.workers, kind, id) + HandChange(s.workers, Hand(s, a), kind, id)
  {
    StepHands(s, a);
    match Hand(s, a) {
      case None =>
      case Some(h) => HeldAfterUpdate(s.workers, h.0, h.1, kind, id);
    }
  }

  /** The places of a task other than workers' hands change as its one move and its hand say. */
  lemma MoveIsParkAndHand(s: System, a: Action, kind: Kind, id: string)
    requires Enabled(s, a) && !a.Restart? && s.submits.Keys <= s.used
    ensures Moved(s, a).Change(kind, id) ==
            HandChange(s.workers, Hand(s, a), kind, id)
            + (if kind == Waits && a.Submit? && a.id == id then 1 else 0)
            - (if kind == Waits && ((a.Fail? && a.id == id) || (a.Take? && s.sh.queue[0] == id)) then 1 else 0)
  {
  }

  /** A step changes the census by its one move. */
  lemma StepMoves(s: System, a: Action, kind: Kind, id: string)
    requires Enabled(s, a) && !a.Restart? && s.submits.Keys <= s.used
    ensures Count(Step(s, a), kind, id) == Count(s, kind, id) + Moved(s, a).Change(kind, id)
  {
    MoveIsParkAndHand(s, a, kind, id);
    StepHolds(s, a, kind, id);
    StepParks(s, a, id);
  }

  /** The history a step adds. */
  lemma StepRecords(s: System, a: Action)
    requires Enabled(s, a) && !a.Restart?
    ensures var s' := Step(s, a); var begins := a.Begin? && Write(s, a).Some?;
            && s'.used == (if a.Submit? then s.used + {a.id} else s.used)
            && s'.begun == (if begins then s.begun + {s.workers[a.w].id} else s.begun)
            && s'.starts == (if a.Call? then s.starts + [s.workers[a.w].id] else s.starts)
            && s'.goals == (if a.Call? then s.goals + [s.workers[a.w].goal] else s.goals)
            && s'.runningSaved == (s.runningSaved && (begins ==> Saved(a)))
            && (s'.agreed ==> s.agreed && (Write(s, a).Some? ==> Saved(a)))
            && s'.submits.Keys <= (if a.Submit? then s.submits.Keys + {a.id} else s.submits.Keys)
            && s'.capacity == s.capacity
  {
    match a {
      case Submit(_, _, _, _) =>
      case Begin(_, _, _) =>
      case Call(_) =>
      case _ =>
    }
  }

  // ---- what holds after every step ----

  /** Map, order, store and used ids fit together. */
  ghost predicate Books(sh: Shared, submits: set<string>, used: set<string>) {
    && Ordered(sh.tasks, sh.order)
    && DistinctIds(sh.store)
    && sh.tasks.Keys <= used && submits <= used
    && forall i :: 0 <= i < |sh.store| ==> sh.store[i].id in used
  }

  /** The store is the list of the tasks in memory. */
  ghost predicate Agrees(sh: Shared) {
    Ordered(sh.tasks, sh.order) && sh.store == Listed(sh.tasks, sh.order)
  }

  /** A task with w waiting places, r runners and c cleanups is in at most one place, and the place
      fits its status; a queued task does wait somewhere, a running one is run. */
  predicate Placed(tasks: map<string, Task>, id: string, w: nat, r: nat, c: nat) {
    && w + r + c <= 1
    && (w + r + c > 0 ==> id in tasks)
    && (w > 0 ==> tasks[id].status.Queued? || tasks[id].status.Cancelled?)
    && (r > 0 ==> tasks[id].status.Running?)
    && (c > 0 ==> tasks[id].status.Terminal())
    && (id in tasks && tasks[id].status.Queued? ==> w == 1)
    && (id in tasks && tasks[id].status.Running? ==> r == 1)
  }

  ghost predicate Census(s: System) {
    forall id :: Placed(s.sh.tasks, id, Count(s, Waits, id), Count(s, Runs, id), Count(s, Ends, id))
  }

  /** Whoever runs can be cancelled. */
  ghost predicate Cancellable(sh: Shared) {
    forall id :: id in sh.tasks && sh.tasks[id].status.Running? ==> id in sh.cancels || sh.stopped
  }

  /** A begun task is never queued again, neither in memory nor in the store. */
  ghost predicate Once(sh: Shared, begun: set<string>) {
    && (forall id :: id in begun && id in sh.tasks ==> !sh.tasks[id].status.Queued?)
    && (forall i :: 0 <= i < |sh.store| && sh.store[i].id in begun ==> !sh.store[i].status.Queued?)
  }

  predicate NoRepeats(ids: seq<string>) {
    forall i, j :: 0 <= i < j < |ids| ==> ids[i] != ids[j]
  }

  /** Runner calls belong to begun tasks, come once, and never before a worker is about to. */
  ghost predicate Starts(s: System) {
    && (forall id :: id in s.starts ==> id in s.begun)
    && (forall w :: 0 <= w < |s.workers| && s.workers[w].Begun? ==>
          s.workers[w].id in s.begun && s.workers[w].id !in s.starts)
    && NoRepeats(s.starts)
  }

  ghost predicate Inv(s: System) {
    && Books(s.sh, s.submits.Keys, s.used) && s.begun <= s.used
    && (s.agreed ==> Agrees(s.sh))
    && Census(s)
    && Cancellable(s.sh)
    && (s.runningSaved ==> Once(s.sh, s.begun) && Starts(s))
  }

  lemma {:induction false} UpsertElements(list: seq<Task>, t: Task)
    ensures forall i :: 0 <= i < |Upsert(list, t)| ==> Upsert(list, t)[i] == t || Upsert(list, t)[i] in list
  {
    if list != [] && list[0].id != t.id {
      UpsertElements(list[1..], t);
    }
  }

  lemma WriteKeepsBooks(before: Shared, after: Shared, t: Option<Task>, saved: bool, submits: set<string>,
                        submits': set<string>, used: set<string>, used': set<string>)
    requires Books(before, submits, used) && Wrote(before, after, t, saved)
    requires used <= used' && submits' <= used' && (t.Some? ==> t.value.id in used')
    ensures Books(after, submits', used')
    ensures Agrees(before) && saved ==> Agrees(after)
  {
    if t.Some? {
      ListedAfterUpsert(before.tasks, before.order, t.value);
      UpsertKeepsDistinct(before.store, t.value);
      UpsertElements(before.store, t.value);
    }
  }

  lemma StepKeepsBooks(s: System, a: Action)
    requires Enabled(s, a) && !a.Restart?
    requires Books(s.sh, s.submits.Keys, s.used) && (s.agreed ==> Agrees(s.sh)) && s.begun <= s.used
    ensures var s' := Step(s, a);
            Books(s'.sh, s'.submits.Keys, s'.used) && (s'.agreed ==> Agrees(s'.sh)) && s'.begun <= s'.used
  {
    StepWrites(s, a);
    StepRecords(s, a);
    WriteKeepsBooks(s.sh, Step(s, a).sh, Write(s, a), Saved(a) || Write(s, a).None?, s.submits.Keys,
                    Step(s, a).submits.Keys, s.used, Step(s, a).used);
  }

  lemma {:induction false} HeldByWorker(workers: seq<Worker>, w: nat, kind: Kind, id: string)
    requires w < |workers| && workers[w].Has(kind, id)
    ensures Held(workers, kind, id) > 0
  {
    if w < |workers| - 1 {
      HeldByWorker(workers[..|workers| - 1], w, kind, id);
    }
  }

  lemma {:induction false} HoldingWorker(workers: seq<Worker>, kind: Kind, id: string) returns (w: nat)
    requires Held(workers, kind, id) > 0
    ensures w < |workers| && workers[w].Has(kind, id)
  {
    var n := |workers| - 1;
    if workers[n].Has(kind, id) {
      w := n;
    } else {
      w := HoldingWorker(workers[..n], kind, id);
    }
  }

  /** The task a step moves is where it moves from. */
  lemma MovedFrom(s: System, a: Action)
    requires Enabled(s, a) && Moved(s, a).from.Some?
    ensures Count(s, Moved(s, a).from.value, Moved(s, a).id) > 0
  {
    match a {
      case Begin(w, _, _) => HeldByWorker(s.workers, w, Waits, s.workers[w].id);
      case Finish(w, _, _, _, _) => HeldByWorker(s.workers, w, Runs, s.workers[w].id);
      case Release(w) => HeldByWorker(s.workers, w, Ends, s.workers[w].id);
      case _ =>
    }
  }

  /** The only ways a record and its place change together. */
  predicate Lawful(tasks: map<string, Task>, t: Option<Task>, m: Move) {
    match (m.from, m.to)
    case (None, Some(Waits)) => t.Some? && t.value.id == m.id && t.value.status.Queued? && m.id !in tasks
    case (Some(Waits), None) =>
      if t.Some? then t.value.id == m.id && t.value.status.Failed?
      else m.id in tasks && !tasks[m.id].status.Queued?
    case (Some(Waits), Some(Runs)) => t.Some? && t.value.id == m.id && t.value.status.Running?
    case (Some(Runs), Some(Ends)) => t.Some? && t.value.id == m.id && t.value.status.Terminal()
    case (Some(Ends), None) => t.None?
    case (None, None) =>
      t.Some? ==> t.value.status.Cancelled? && t.value.id in tasks && tasks[t.value.id].status.Queued?
    case _ => false
  }

  lemma StepIsLawful(s: System, a: Action)
    requires Enabled(s, a) && !a.Restart? && Census(s) && Books(s.sh, s.submits.Keys, s.used)
    ensures Lawful(s.sh.tasks, Write(s, a), Moved(s, a))
  {
    var m := Moved(s, a);
    assert Placed(s.sh.tasks, m.id, Count(s, Waits, m.id), Count(s, Runs, m.id), Count(s, Ends, m.id));
    if m.from.Some? {
      MovedFrom(s, a);
    }
  }

  lemma LawfulKeepsPlaced(tasks: map<string, Task>, t: Option<Task>, m: Move, id: string, w: nat, r: nat, c: nat,
                          w': nat, r': nat, c': nat)
    requires Lawful(tasks, t, m) && Placed(tasks, id, w, r, c)
    requires w' == w + m.Change(Waits, id) && r' == r + m.Change(Runs, id) && c' == c + m.Change(Ends, id)
    ensures Placed(if t.Some? then tasks[t.value.id := t.value] else tasks, id, w', r', c')
  {
  }

  lemma StepKeepsCensus(s: System, a: Action)
    requires Enabled(s, a) && !a.Restart? && Census(s) && Books(s.sh, s.submits.Keys, s.used)
    ensures Census(Step(s, a))
  {
    StepIsLawful(s, a);
    StepWrites(s, a);
    var s' := Step(s, a);
    forall id
      ensures Placed(s'.sh.tasks, id, Count(s', Waits, id), Count(s', Runs, id), Count(s', Ends, id))
    {
      StepMoves(s, a, Waits, id);
      StepMoves(s, a, Runs, id);
      StepMoves(s, a, Ends, id);
      LawfulKeepsPlaced(s.sh.tasks, Write(s, a), Moved(s, a), id, Count(s, Waits, id), Count(s, Runs, id),
                        Count(s, Ends, id), Count(s', Waits, id), Count(s', Runs, id), Count(s', Ends, id));
    }
  }

  lemma BeginContexts(s: System, w: nat, now: nat, saved: bool)
    requires Enabled(s, Begin(w, now, saved)) && Write(s, Begin(w, now, saved)).Some?
    ensures var s', id := Step(s, Begin(w, now, saved)), s.workers[w].id;
            && s'.sh.stopped == s.sh.stopped && s'.sh.cancels == s.sh.cancels + {id}
            && s'.sh.cancelled == s.sh.cancelled - {id}
  {
  }

  lemma OtherContexts(s: System, a: Action)
    requires Enabled(s, a) && !a.Restart? && !(a.Begin? && Write(s, a).Some?)
    ensures var s' := Step(s, a);
            && s'.sh.stopped == (s.sh.stopped || a.StopRoot?)
            && s'.sh.cancels == (if a.Release? then s.sh.cancels - {s.workers[a.w].id}
                                 else if a.StopCancels? then {} else s.sh.cancels)
            && s.sh.cancelled <= s'.sh.cancelled
  {
    match a {
      case Cancel(_, _, _) =>
      case _ =>
    }
  }

  lemma StepContexts(s: System, a: Action)
    requires Enabled(s, a) && !a.Restart?
    ensures var s' := Step(s, a); var begins := a.Begin? && Write(s, a).Some?;
            && s'.sh.stopped == (s.sh.stopped || a.StopRoot?)
            && s'.sh.cancels == (if begins then s.sh.cancels + {s.workers[a.w].id}
                                 else if a.Release? then s.sh.cancels - {s.workers[a.w].id}
                                 else if a.StopCancels? then {} else s.sh.cancels)
            && (forall id :: id in s.sh.cancelled && !(begins && id == s.workers[a.w].id) ==> id in s'.sh.cancelled)
  {
    if a.Begin? && Write(s, a).Some? {
      BeginContexts(s, a.w, a.now, a.saved);
    } else {
      OtherContexts(s, a);
    }
  }

  lemma StepKeepsCancellable(s: System, a: Action)
    requires Enabled(s, a) && !a.Restart? && Census(s) && Books(s.sh, s.submits.Keys, s.used) && Cancellable(s.sh)
    ensures Cancellable(Step(s, a).sh)
  {
    StepIsLawful(s, a);
    StepWrites(s, a);
    StepContexts(s, a);
    if a.Release? {
      MovedFrom(s, a);
      var id := Moved(s, a).id;
      assert Placed(s.sh.tasks, id, Count(s, Waits, id), Count(s, Runs, id), Count(s, Ends, id));
    }
  }

  lemma {:induction false} UpsertWrites(list: seq<Task>, t: Task)
    requires DistinctIds(list)
    ensures forall i :: 0 <= i < |Upsert(list, t)| && Upsert(list, t)[i].id == t.id ==> Upsert(list, t)[i] == t
  {
    if list != [] && list[0].id != t.id {
      UpsertWrites(list[1..], t);
    }
  }

  lemma WriteKeepsOnce(before: Shared, after: Shared, t: Option<Task>, saved: bool, begun: set<string>,
                       begun': set<string>)
    requires Once(before, begun) && Wrote(before, after, t, saved) && DistinctIds(before.store)
    requires begun' == begun || (t.Some? && saved && begun' == begun + {t.value.id})
    requires t.Some? && t.value.id in begun' ==> !t.value.status.Queued?
    ensures Once(after, begun')
  {
    if t.Some? {
      UpsertElements(before.store, t.value);
      UpsertWrites(before.store, t.value);
    }
  }

  lemma StepKeepsOnce(s: System, a: Action)
    requires Enabled(s, a) && !a.Restart? && Inv(s) && Step(s, a).runningSaved
    ensures Once(Step(s, a).sh, Step(s, a).begun)
  {
    StepIsLawful(s, a);
    StepWrites(s, a);
    StepRecords(s, a);
    WriteKeepsOnce(s.sh, Step(s, a).sh, Write(s, a), Saved(a), s.begun, Step(s, a).begun);
  }

  lemma {:induction false} HeldTwice(workers: seq<Worker>, v: nat, w: nat, kind: Kind, id: string)
    requires v < w < |workers| && workers[v].Has(kind, id) && workers[w].Has(kind, id)
    ensures Held(workers, kind, id) >= 2
  {
    if w < |workers| - 1 {
      HeldTwice(workers[..|workers| - 1], v, w, kind, id);
    } else {
      HeldByWorker(workers[..w], v, kind, id);
    }
  }

  lemma OneRunner(s: System, v: nat, w: nat)
    requires Census(s) && v < |s.workers| && w < |s.workers| && v != w
    requires s.workers[v].Begun? && s.workers[w].Begun?
    ensures s.workers[v].id != s.workers[w].id
  {
    var id := s.workers[w].id;
    assert Placed(s.sh.tasks, id, Count(s, Waits, id), Count(s, Runs, id), Count(s, Ends, id));
    if s.workers[v].id == id {
      HeldTwice(s.workers, if v < w then v else w, if v < w then w else v, Runs, id);
    }
  }

  lemma StepKeepsStarts(s: System, a: Action)
    requires Enabled(s, a) && !a.Restart? && Inv(s) && Step(s, a).runningSaved
    ensures Starts(Step(s, a))
  {
    StepRecords(s, a);
    StepHands(s, a);
    if a.Call? {
      forall v | 0 <= v < |s.workers| && v != a.w && s.workers[v].Begun?
        ensures s.workers[v].id != s.workers[a.w].id
      {
        OneRunner(s, v, a.w);
      }
    }
  }

  lemma {:induction false} IdleHoldNothing(n: nat, kind: Kind, id: string)
    ensures Held(seq(n, _ => Idle), kind, id) == 0
  {
    if n > 0 {
      IdleHoldNothing(n - 1, kind, id);
      assert seq(n, _ => Idle)[..n - 1] == seq(n - 1, _ => Idle);
    }
  }

  lemma {:induction false} DistinctCounts(ids: seq<string>, id: string)
    requires NoRepeats(ids)
    ensures multiset(ids)[id] <= 1
  {
    if ids != [] {
      var n := |ids| - 1;
      DistinctCounts(ids[..n], id);
      assert ids == ids[..n] + [ids[n]];
      assert ids[n] !in ids[..n];
    }
  }

  lemma LoadedBooks(sh: Shared, list: seq<Task>, saves: string -> bool, used: set<string>)
    requires DistinctIds(list) && forall i :: 0 <= i < |list| ==> list[i].id in used
    requires Loaded(sh, list, |list|) && Rewritten(sh.store, list, |list|, saves)
    ensures Books(sh, {}, used) && (AllRewritten(list, saves) ==> Agrees(sh))
  {
    LoadedIsOrdered(sh, list);
    forall i | 0 <= i < |list|
      ensures sh.store[i].id == list[i].id
    {
    }
  }

  lemma RestartKeepsBooks(s: System, a: Action)
    requires Enabled(s, a) && a.Restart? && Inv(s)
    ensures var s' := Step(s, a);
            Books(s'.sh, s'.submits.Keys, s'.used) && s'.begun <= s'.used && (s'.agreed ==> Agrees(s'.sh))
  {
    if a.readable {
      RestoreLoads(s.sh.store, |s.sh.store|, a.capacity, a.saves);
      RestoreRewrites(s.sh.store, |s.sh.store|, a.capacity, a.saves);
      LoadedBooks(Step(s, a).sh, s.sh.store, a.saves, s.used);
    }
  }

  /** A restore leaves nothing running, and nothing twice in the queue. */
  lemma RestoredStates(list: seq<Task>, capacity: nat, saves: string -> bool)
    requires DistinctIds(list)
    ensures var sh := Restore(list, |list|, capacity, saves);
            && Requeued(sh, capacity)
            && forall id :: id in sh.tasks ==> !sh.tasks[id].status.Running?
  {
    RestoreLoads(list, |list|, capacity, saves);
    RestoreRequeues(list, |list|, capacity, saves);
  }

  lemma RestartKeepsCensus(s: System, a: Action)
    requires Enabled(s, a) && a.Restart? && Inv(s)
    ensures Census(Step(s, a)) && Cancellable(Step(s, a).sh)
  {
    var s' := Step(s, a);
    if a.readable {
      RestoredStates(s.sh.store, a.capacity, a.saves);
    }
    forall id
      ensures Placed(s'.sh.tasks, id, Count(s', Waits, id), Count(s', Runs, id), Count(s', Ends, id))
    {
      IdleHoldNothing(a.workers, Waits, id);
      IdleHoldNothing(a.workers, Runs, id);
      IdleHoldNothing(a.workers, Ends, id);
      DistinctCounts(s'.sh.queue, id);
    }
  }

  lemma LoadedKeepsOnce(sh: Shared, list: seq<Task>, saves: string -> bool, begun: set<string>)
    requires Loaded(sh, list, |list|) && Rewritten(sh.store, list, |list|, saves)
    requires forall i :: 0 <= i < |list| && list[i].id in begun ==> !list[i].status.Queued?
    ensures Once(sh, begun)
  {
    forall id | id in begun && id in sh.tasks
      ensures !sh.tasks[id].status.Queued?
    {
      var i :| 0 <= i < |sh.order| && sh.order[i] == id;
      assert sh.tasks[list[i].id] == Recovered(list[i]);
    }
  }

  lemma RestoreKeepsOnce(list: seq<Task>, capacity: nat, saves: string -> bool, begun: set<string>)
    requires DistinctIds(list)
    requires forall i :: 0 <= i < |list| && list[i].id in begun ==> !list[i].status.Queued?
    ensures Once(Restore(list, |list|, capacity, saves), begun)
  {
    RestoreLoads(list, |list|, capacity, saves);
    RestoreRewrites(list, |list|, capacity, saves);
    LoadedKeepsOnce(Restore(list, |list|, capacity, saves), list, saves, begun);
  }

  lemma RestartKeepsOnce(s: System, a: Action)
    requires Enabled(s, a) && a.Restart? && Inv(s) && s.runningSaved
    ensures Once(Step(s, a).sh, Step(s, a).begun)
  {
    if a.readable {
      RestoreKeepsOnce(s.sh.store, a.capacity, a.saves, s.begun);
    }
  }

  lemma RestartKeepsStarts(s: System, a: Action)
    requires Enabled(s, a) && a.Restart? && Starts(s)
    ensures Starts(Step(s, a))
  {
  }

  lemma StepKeepsInv(s: System, a: Action)
    requires Enabled(s, a) && Inv(s)
    ensures Inv(Step(s, a))
  {
    if a.Restart? {
      RestartKeepsBooks(s, a);
      RestartKeepsCensus(s, a);
      if s.runningSaved {
        RestartKeepsOnce(s, a);
        RestartKeepsStarts(s, a);
      }
    } else {
      StepKeepsBooks(s, a);
      StepKeepsCensus(s, a);
      StepKeepsCancellable(s, a);
      StepRecords(s, a);
      if Step(s, a).runningSaved {
        StepKeepsOnce(s, a);
        StepKeepsStarts(s, a);
      }
    }
  }

  lemma FirstInv(list: seq<Task>, capacity: nat, workers: nat, readable: bool, saves: string -> bool)
    requires DistinctIds(list) && capacity > 0 && workers > 0
    ensures Inv(First(list, capacity, workers, readable, saves))
  {
    var bare := System(Empty(list), 0, [], map[], {}, (set t | t in list :: t.id), {}, [], [], true, false);
    StepKeepsInv(bare, Restart(capacity, workers, readable, saves));
  }

  lemma {:induction false} RunKeepsInv(s: System, run: seq<Action>)
    requires Inv(s) && Enables(s, run)
    ensures Inv(Exec(s, run))
    decreases |run|
  {
    if run != [] {
      StepKeepsInv(s, run[0]);
      RunKeepsInv(Step(s, run[0]), run[1..]);
    }
  }

  // ---- the main results, over every run with any number of crashes ----

  /** At every lock release after a complete restore, if every write since worked, the store
      lists exactly the tasks in memory, in creation order. */
  lemma StoreAgrees(list: seq<Task>, capacity: nat, workers: nat, readable: bool, saves: string -> bool,
                    run: seq<Action>)
    requires DistinctIds(list) && capacity > 0 && workers > 0
    requires Enables(First(list, capacity, workers, readable, saves), run)
    ensures var s := Exec(First(list, capacity, workers, readable, saves), run);
            s.agreed ==>
              && Ordered(s.sh.tasks, s.sh.order) && s.sh.store == Listed(s.sh.tasks, s.sh.order)
              && forall id :: Find(s.sh.store, id) == if id in s.sh.tasks then Some(s.sh.tasks[id]) else None
  {
    FirstInv(list, capacity, workers, readable, saves);
    RunKeepsInv(First(list, capacity, workers, readable, saves), run);
    var s := Exec(First(list, capacity, workers, readable, saves), run);
    if s.agreed {
      forall id
        ensures Find(s.sh.store, id) == if id in s.sh.tasks then Some(s.sh.tasks[id]) else None
      {
        FindInListed(s.sh.tasks, s.sh.order, id);
      }
    }
  }

  /** Across any number of crashes each task's runner starts at most once, as long as every write
      of a Running record works; other writes may fail. */
  lemma RunnerStartsAtMostOnce(list: seq<Task>, capacity: nat, workers: nat, readable: bool, saves: string -> bool,
                               run: seq<Action>)
    requires DistinctIds(list) && capacity > 0 && workers > 0
    requires Enables(First(list, capacity, workers, readable, saves), run)
    ensures var s := Exec(First(list, capacity, workers, readable, saves), run);
            s.runningSaved ==> NoRepeats(s.starts)
  {
    FirstInv(list, capacity, workers, readable, saves);
    RunKeepsInv(First(list, capacity, workers, readable, saves), run);
  }

  predicate InHands(s: System, w: nat, id: string) {
    w < |s.workers| && (s.workers[w].Has(Waits, id) || s.workers[w].Has(Runs, id) || s.workers[w].Has(Ends, id))
  }

  lemma {:induction false} TwiceInQueue(queue: seq<string>, i: nat, j: nat)
    requires i < j < |queue| && queue[i] == queue[j]
    ensures multiset(queue)[queue[i]] >= 2
  {
    var n := |queue| - 1;
    assert queue == queue[..n] + [queue[n]];
    if j < n {
      TwiceInQueue(queue[..n], i, j);
    } else {
      assert queue[..n][i] in queue[..n];
    }
  }

  lemma InHandsCounts(s: System, w: nat, id: string)
    requires InHands(s, w, id)
    ensures Held(s.workers, Waits, id) + Held(s.workers, Runs, id) + Held(s.workers, Ends, id) > 0
  {
    var kind := if s.workers[w].Has(Waits, id) then Waits else if s.workers[w].Has(Runs, id) then Runs else Ends;
    HeldByWorker(s.workers, w, kind, id);
  }

  lemma {:induction false} InTwoHands(workers: seq<Worker>, v: nat, w: nat, j: Kind, k: Kind, id: string)
    requires v < w < |workers| && workers[v].Has(j, id) && workers[w].Has(k, id)
    ensures Held(workers, Waits, id) + Held(workers, Runs, id) + Held(workers, Ends, id) >= 2
  {
    HeldByWorker(workers, v, j, id);
    HeldByWorker(workers, w, k, id);
    if j == k {
      HeldTwice(workers, v, w, k, id);
    }
  }

  /** In every reachable state an id is in at most one of: a Submit not yet sent, the queue (once),
      one worker's hands, the overflow of a restore. A queued task is in one of them, a running
      task in one worker's hands. */
  lemma EachTaskInOnePlace(s: System, id: string)
    requires Inv(s)
    ensures id in s.submits ==> id !in s.sh.queue && id !in s.overflow
    ensures id in s.sh.queue ==> id !in s.overflow
    ensures id in s.submits || id in s.sh.queue || id in s.overflow ==> forall w :: !InHands(s, w, id)
    ensures forall v, w :: InHands(s, v, id) && InHands(s, w, id) ==> v == w
    ensures forall i, j :: 0 <= i < j < |s.sh.queue| && s.sh.queue[i] == id ==> s.sh.queue[j] != id
    ensures id in s.sh.tasks && s.sh.tasks[id].status.Queued? ==>
              id in s.submits || id in s.sh.queue || id in s.overflow || exists w: nat :: InHands(s, w, id)
    ensures id in s.sh.tasks && s.sh.tasks[id].status.Running? ==>
              exists w: nat :: InHands(s, w, id) && s.workers[w].Has(Runs, id)
  {
    assert Placed(s.sh.tasks, id, Count(s, Waits, id), Count(s, Runs, id), Count(s, Ends, id));
    forall w | InHands(s, w, id)
      ensures Held(s.workers, Waits, id) + Held(s.workers, Runs, id) + Held(s.workers, Ends, id) > 0
    {
      InHandsCounts(s, w, id);
    }
    forall v, w | InHands(s, v, id) && InHands(s, w, id)
      ensures v == w
    {
      OneHand(s, v, w, id);
    }
    forall i, j | 0 <= i < j < |s.sh.queue| && s.sh.queue[i] == id
      ensures s.sh.queue[j] != id
    {
      if s.sh.queue[j] == id {
        TwiceInQueue(s.sh.queue, i, j);
      }
    }
    SomeHand(s, id);
  }

  lemma OneHand(s: System, v: nat, w: nat, id: string)
    requires Census(s) && InHands(s, v, id) && InHands(s, w, id)
    ensures v == w
  {
    assert Placed(s.sh.tasks, id, Count(s, Waits, id), Count(s, Runs, id), Count(s, Ends, id));
    var j := if s.workers[v].Has(Waits, id) then Waits else if s.workers[v].Has(Runs, id) then Runs else Ends;
    var k := if s.workers[w].Has(Waits, id) then Waits else if s.workers[w].Has(Runs, id) then Runs else Ends;
    if v < w {
      InTwoHands(s.workers, v, w, j, k, id);
    } else if w < v {
      InTwoHands(s.workers, w, v, k, j, id);
    }
  }

  lemma SomeHand(s: System, id: string)
    ensures Held(s.workers, Waits, id) > 0 ==> exists w: nat :: InHands(s, w, id)
    ensures Held(s.workers, Runs, id) > 0 ==> exists w: nat :: InHands(s, w, id) && s.workers[w].Has(Runs, id)
  {
    if Held(s.workers, Waits, id) > 0 {
      var w := HoldingWorker(s.workers, Waits, id);
      assert InHands(s, w, id);
    }
    if Held(s.workers, Runs, id) > 0 {
      var w := HoldingWorker(s.workers, Runs, id);
      assert InHands(s, w, id) && s.workers[w].Has(Runs, id);
    }
  }

  /** After a crash a task is what it was, unless it was running: then it has failed. */
  lemma RestoredTask(s: System, a: Action, id: string)
    requires Inv(s) && Enabled(s, a) && id in s.sh.tasks && a.Restart? && s.agreed && a.readable
    ensures id in Step(s, a).sh.tasks
    ensures var t := s.sh.tasks[id];
            Step(s, a).sh.tasks[id] == if t.status.Running? then t.(status := Failed, error := Interrupted) else t
  {
    RestoreLoads(s.sh.store, |s.sh.store|, a.capacity, a.saves);
    var i :| 0 <= i < |s.sh.order| && s.sh.order[i] == id;
    assert s.sh.store[i] == s.sh.tasks[id];
  }

  /** The status changes there are. */
  predicate Advances(from: Status, to: Status) {
    match from
    case Queued => !to.Queued?
    case Running => to.Terminal()
    case Cancelled => to.Failed?
    case _ => false
  }

  lemma StepAdvances(s: System, a: Action, id: string)
    requires Inv(s) && Enabled(s, a) && id in s.sh.tasks && !a.Restart?
    ensures id in Step(s, a).sh.tasks
    ensures var t, t' := s.sh.tasks[id], Step(s, a).sh.tasks[id];
            t' != t ==> Advances(t.status, t'.status) && (t.status.Cancelled? ==> a.Fail? && a.id == id)
  {
    StepIsLawful(s, a);
    StepWrites(s, a);
    var m := Moved(s, a);
    assert Placed(s.sh.tasks, m.id, Count(s, Waits, m.id), Count(s, Runs, m.id), Count(s, Ends, m.id));
    if m.from.Some? {
      MovedFrom(s, a);
    }
  }

  /** No step lets a task's status rank drop, and none forgets a task; a restart neither, when
      the store agrees and can be read. */
  lemma RankNeverDrops(s: System, a: Action, id: string)
    requires Inv(s) && Enabled(s, a) && id in s.sh.tasks
    requires a.Restart? ==> s.agreed && a.readable
    ensures id in Step(s, a).sh.tasks
    ensures s.sh.tasks[id].status.Rank() <= Step(s, a).sh.tasks[id].status.Rank()
  {
    if a.Restart? {
      RestoredTask(s, a, id);
    } else {
      StepAdvances(s, a, id);
    }
  }

  /** A terminal record changes only in one way: a refused Submit marks as failed a task that a
      concurrent Cancel had cancelled. */
  lemma TerminalStays(s: System, a: Action, id: string)
    requires Inv(s) && Enabled(s, a) && id in s.sh.tasks && s.sh.tasks[id].status.Terminal()
    requires a.Restart? ==> s.agreed && a.readable
    ensures id in Step(s, a).sh.tasks
    ensures var t, t' := s.sh.tasks[id], Step(s, a).sh.tasks[id];
            t' != t ==> a.Fail? && a.id == id && t.status.Cancelled? && t'.status.Failed?
  {
    if a.Restart? {
      RestoredTask(s, a, id);
    } else {
      StepAdvances(s, a, id);
    }
  }

  /** The ways a task can end, and the record each of them leaves. */
  predicate EndsBy(s: System, a: Action, id: string, t: Task, ended: Task) {
    match a
    case Cancel(c, now, _) =>
      c == id && t.status.Queued? && ended == t.(status := Cancelled, finishedAt := now)
    case Fail(f, now, _) =>
      && f == id && id in s.submits && s.submits[id].Refused?
      && ended == t.(status := Failed, result := "", error := s.submits[id].reason, finishedAt := now)
    case Finish(w, result, error, now, _) =>
      && At(s, w) && s.workers[w] == InRunner(id) && t.status.Running?
      && if error.None? then ended == t.(status := Succeeded, result := result, error := NoError, finishedAt := now)
         else ended == t.(status := if ContextDone(s.sh, id) then Cancelled else Failed,
                          error := RunError(error.value), finishedAt := now)
    case _ => false
  }

  /** A task ends only by a cancel while queued, by a refused Submit, or by its own runner; its
      record then says so: success with the runner's result exactly when the runner returned no
      error, cancelled rather than failed exactly when its context had ended. */
  lemma EveryEndHasACause(s: System, a: Action, id: string)
    requires Inv(s) && Enabled(s, a) && !a.Restart? && id in s.sh.tasks && !s.sh.tasks[id].status.Terminal()
    ensures id in Step(s, a).sh.tasks
    ensures var t, t' := s.sh.tasks[id], Step(s, a).sh.tasks[id];
            t'.status.Terminal() ==> EndsBy(s, a, id, t, t')
  {
    StepAdvances(s, a, id);
    StepIsLawful(s, a);
    StepWrites(s, a);
    if a.Finish? {
      MovedFrom(s, a);
      var m := Moved(s, a).id;
      assert Placed(s.sh.tasks, m, Count(s, Waits, m), Count(s, Runs, m), Count(s, Ends, m));
    }
  }

  /** A run whose restarts all happen over a readable store that agrees. */
  predicate Sound(s: System, run: seq<Action>)
    requires Enables(s, run)
    decreases |run|
  {
    run == [] || ((run[0].Restart? ==> s.agreed && run[0].readable) && Sound(Step(s, run[0]), run[1..]))
  }

  lemma {:induction false} RankNeverDropsInRun(s: System, run: seq<Action>, id: string)
    requires Inv(s) && Enables(s, run) && Sound(s, run) && id in s.sh.tasks
    ensures id in Exec(s, run).sh.tasks
    ensures s.sh.tasks[id].status.Rank() <= Exec(s, run).sh.tasks[id].status.Rank()
    decreases |run|
  {
    if run != [] {
      RankNeverDrops(s, run[0], id);
      StepKeepsInv(s, run[0]);
      RankNeverDropsInRun(Step(s, run[0]), run[1..], id);
    }
  }

  // ---- cancelling a running task ----

  predicate NoRestart(run: seq<Action>) {
    forall i :: 0 <= i < |run| ==> !run[i].Restart?
  }

  /** What a cancelled runner's task looks like from then on. */
  predicate WasCancelled(s: System, id: string) {
    && id in s.sh.tasks && Count(s, Waits, id) == 0
    && match s.sh.tasks[id].status
       case Running => ContextDone(s.sh, id)
       case Cancelled => true
       case Succeeded => true
       case _ => false
  }

  lemma StepKeepsCancelled(s: System, a: Action, id: string)
    requires Inv(s) && Enabled(s, a) && !a.Restart? && WasCancelled(s, id)
    ensures WasCancelled(Step(s, a), id)
  {
    StepAdvances(s, a, id);
    StepMoves(s, a, Waits, id);
    StepIsLawful(s, a);
    StepWrites(s, a);
    StepContexts(s, a);
    if Moved(s, a).from.Some? {
      MovedFrom(s, a);
    }
  }

  lemma {:induction false} RunKeepsCancelled(s: System, run: seq<Action>, id: string)
    requires Inv(s) && Enables(s, run) && NoRestart(run) && WasCancelled(s, id)
    ensures WasCancelled(Exec(s, run), id)
    decreases |run|
  {
    if run != [] {
      StepKeepsCancelled(s, run[0], id);
      StepKeepsInv(s, run[0]);
      RunKeepsCancelled(Step(s, run[0]), run[1..], id);
    }
  }

  /** Cancelling a running task, even after Stop has emptied the cancel functions, leaves its
      context cancelled for as long as it runs, and it never ends as failed. */
  lemma CancelReachesTheRunner(s: System, id: string, now: nat, saved: bool, run: seq<Action>)
    requires Inv(s) && id in s.sh.tasks && s.sh.tasks[id].status.Running?
    requires Enables(Step(s, Cancel(id, now, saved)), run) && NoRestart(run)
    ensures var s' := Exec(Step(s, Cancel(id, now, saved)), run);
            && id in s'.sh.tasks
            && (s'.sh.tasks[id].status.Running? ==> ContextDone(s'.sh, id))
            && (s'.sh.tasks[id].status.Terminal() ==> !s'.sh.tasks[id].status.Failed?)
  {
    var a := Action.Cancel(id, now, saved);
    assert Placed(s.sh.tasks, id, Count(s, Waits, id), Count(s, Runs, id), Count(s, Ends, id));
    assert WasCancelled(Step(s, a), id);
    StepKeepsInv(s, a);
    RunKeepsCancelled(Step(s, a), run, id);
  }

  // ---- why the write of a Running record matters ----

  lemma {:induction false} ExecAppend(s: System, r: seq<Action>, q: seq<Action>)
    requires Enables(s, r) && Enables(Exec(s, r), q)
    ensures Enables(s, r + q) && Exec(s, r + q) == Exec(Exec(s, r), q)
    decreases |r|
  {
    if r == [] {
      assert r + q == q;
    } else {
      assert (r + q)[0] == r[0] && (r + q)[1..] == r[1..] + q;
      ExecAppend(Step(s, r[0]), r[1..], q);
    }
  }

  /** The only worker takes the only queued task and calls its runner. */
  function StartIt(saved: bool): seq<Action> {
    [Take(0)] + [Begin(0, 2, saved)] + [Call(0)]
  }

  lemma StartsIt(s: System, id: string, saved: bool)
    requires s.workers == [Idle] && s.sh.queue == [id]
    requires id in s.sh.tasks && s.sh.tasks[id].id == id && s.sh.tasks[id].status.Queued?
    ensures Enables(s, StartIt(saved))
    ensures Exec(s, StartIt(saved)).starts == s.starts + [id]
    ensures !saved ==> Exec(s, StartIt(saved)).sh.store == s.sh.store
  {
    var taken := Step(s, Take(0));
    var begun := Step(taken, Begin(0, 2, saved));
    ExecAppend(s, [Take(0)], [Begin(0, 2, saved)]);
    ExecAppend(s, [Take(0)] + [Begin(0, 2, saved)], [Call(0)]);
  }

  /** A task whose Running record is lost: started, crash, started again. */
  function LostWrite(id: string): seq<Action> {
    [Submit(id, "goal", 1, true)] + [Send(id)] + StartIt(false) + [Restart(1, 1, true, _ => true)] + StartIt(true)
  }

  lemma LostWriteStartsTwice(id: string)
    ensures var s := First([], 1, 1, true, _ => true);
            Enables(s, LostWrite(id)) && Exec(s, LostWrite(id)).starts == [id, id]
  {
    var s := First([], 1, 1, true, _ => true);
    var submit, restart := Submit(id, "goal", 1, true), Restart(1, 1, true, _ => true);
    var sent := Step(Step(s, submit), Send(id));
    ExecAppend(s, [submit], [Send(id)]);
    StartsIt(sent, id, false);
    ExecAppend(s, [submit] + [Send(id)], StartIt(false));
    var crashed := Exec(sent, StartIt(false));
    QueuedIsRequeued(crashed, Fresh(id, "goal", 1), restart);
    ExecAppend(s, [submit] + [Send(id)] + StartIt(false), [restart]);
    StartsIt(Step(crashed, restart), id, true);
    ExecAppend(s, [submit] + [Send(id)] + StartIt(false) + [restart], StartIt(true));
  }

  lemma QueuedIsRequeued(s: System, t: Task, a: Action)
    requires s.sh.store == [t] && t.status.Queued?
    requires a.Restart? && a.capacity == a.workers == 1 && a.readable
    ensures var s' := Step(s, a);
            && s'.workers == [Idle] && s'.sh.queue == [t.id] && t.id in s'.sh.tasks && s'.sh.tasks[t.id] == t
            && s'.starts == s.starts
  {
    assert Restore([t], 0, 1, a.saves) == Empty([t]);
    assert Restore([t], 1, 1, a.saves) == RestoreOne(Empty([t]), 1, a.saves, t);
  }
}
