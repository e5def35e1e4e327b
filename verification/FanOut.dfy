/** The concurrent fan-out of one tool_calls batch: one goroutine per call, a counting
    semaphore, a result slot per call, and a join. A schedule is any sequence of enabled
    steps of the goroutines. */
module FanOut {
  import opened Llm
  import opened Wrappers
  import Conversation

  /** Where the goroutine of a call is. */
  datatype Phase = Waiting | Admitted | Running | Stored | Announced | Released | Finished {
    function Rank(): nat {
      match this
      case Waiting => 0
      case Admitted => 1
      case Running => 2
      case Stored => 3
      case Announced => 4
      case Released => 5
      case Finished => 6
    }

    /** Holding a slot of the semaphore. */
    predicate Active() {
      1 <= Rank() <= 4
    }

    function Next(): (p: Phase)
      ensures Finished? ==> p == Finished
      ensures !Finished? ==> p.Rank() == Rank() + 1
    {
      match this
      case Waiting => Admitted
      case Admitted => Running
      case Running => Stored
      case Stored => Announced
      case Announced => Released
      case Released => Finished
      case Finished => Finished
    }
  }

  datatype Event = ToolStart(call: nat) | ToolEnd(call: nat)

  datatype State = State(phases: seq<Phase>, taken: nat, out: seq<Option<string>>, events: seq<Event>)

  /** The number of slots: zero or negative, or more than the calls, means one per call. */
  function Slots(maxToolConcurrency: int, calls: nat): nat {
    if maxToolConcurrency <= 0 || maxToolConcurrency > calls then calls else maxToolConcurrency
  }

  function Init(calls: nat): State {
    State(seq(calls, _ => Waiting), 0, seq(calls, _ => None), [])
  }

  /** Goroutine i can take its next step: only entering the semaphore can block. */
  predicate Enabled(s: State, slots: nat, i: nat) {
    i < |s.phases| == |s.out| && !s.phases[i].Finished? &&
    (s.phases[i].Waiting? ==> s.taken < slots) && (s.phases[i].Announced? ==> s.taken > 0)
  }

  /** The next step of goroutine i; `results` are the capped tool results. */
  function Step(s: State, slots: nat, results: nat -> string, i: nat): State
    requires Enabled(s, slots, i)
  {
    var moved := s.(phases := s.phases[i := s.phases[i].Next()]);
    match s.phases[i]
    case Waiting => moved.(taken := s.taken + 1)
    case Admitted => moved.(events := s.events + [ToolStart(i)])
    case Running => moved.(out := s.out[i := Some(results(i))])
    case Stored => moved.(events := s.events + [ToolEnd(i)])
    case Announced => moved.(taken := s.taken - 1)
    case Released => moved
    case Finished => s
  }

  /** Runs a schedule: the goroutine to move, step by step. */
  predicate Schedule(s: State, slots: nat, results: nat -> string, schedule: seq<nat>)
    decreases |schedule|
  {
    schedule == [] ||
    (Enabled(s, slots, schedule[0]) && Schedule(Step(s, slots, results, schedule[0]), slots, results, schedule[1..]))
  }

  function Exec(s: State, slots: nat, results: nat -> string, schedule: seq<nat>): State
    requires Schedule(s, slots, results, schedule)
    decreases |schedule|
  {
    if schedule == [] then s else Exec(Step(s, slots, results, schedule[0]), slots, results, schedule[1..])
  }

  function ActiveCount(phases: seq<Phase>): nat {
    if phases == [] then 0
    else ActiveCount(phases[..|phases| - 1]) + if phases[|phases| - 1].Active() then 1 else 0
  }

  function Progress(phases: seq<Phase>): nat {
    if phases == [] then 0 else Progress(phases[..|phases| - 1]) + phases[|phases| - 1].Rank()
  }

  /** What holds of slot, semaphore and events at every moment of every schedule. */
  ghost predicate Inv(s: State, slots: nat, results: nat -> string) {
    && |s.out| == |s.phases|
    && s.taken == ActiveCount(s.phases) <= slots
    && (forall i :: 0 <= i < |s.phases| ==> CallInv(s, results, i))
    && (forall e :: e in s.events ==> e.call < |s.phases|)
  }

  /** Slot and events of one call, by how far its goroutine is. */
  predicate CallInv(s: State, results: nat -> string, i: nat)
    requires i < |s.phases| == |s.out|
  {
    && s.out[i] == (if s.phases[i].Rank() >= 3 then Some(results(i)) else None)
    && multiset(s.events)[ToolStart(i)] == (if s.phases[i].Rank() >= 2 then 1 else 0)
    && multiset(s.events)[ToolEnd(i)] == (if s.phases[i].Rank() >= 4 then 1 else 0)
  }

  lemma {:induction false} CountsAfterUpdate(phases: seq<Phase>, i: nat, p: Phase)
    requires i < |phases|
    ensures ActiveCount(phases[i := p]) ==
            ActiveCount(phases) + (if p.Active() then 1 else 0) - (if phases[i].Active() then 1 else 0)
    ensures Progress(phases[i := p]) == Progress(phases) + p.Rank() - phases[i].Rank()
  {
    var n := |phases| - 1;
    if i < n {
      CountsAfterUpdate(phases[..n], i, p);
      assert phases[i := p][..n] == phases[..n][i := p];
    } else {
      assert phases[i := p][..n] == phases[..n];
    }
  }

  lemma {:induction false} CountsAtStart(n: nat)
    ensures var phases := seq(n, _ => Waiting); ActiveCount(phases) == 0 && Progress(phases) == 0
  {
    if n > 0 {
      CountsAtStart(n - 1);
      assert seq(n, _ => Waiting)[..n - 1] == seq(n - 1, _ => Waiting);
    }
  }

  lemma StepKeepsCall(s: State, slots: nat, results: nat -> string, i: nat, k: nat)
    requires Inv(s, slots, results) && Enabled(s, slots, i) && k < |s.phases|
    ensures var s' := Step(s, slots, results, i);
            |s'.out| == |s'.phases| == |s.phases| && CallInv(s', results, k)
  {
    assert CallInv(s, results, k);
  }

  lemma StepKeepsInv(s: State, slots: nat, results: nat -> string, i: nat)
    requires Inv(s, slots, results) && Enabled(s, slots, i)
    ensures Inv(Step(s, slots, results, i), slots, results)
    ensures Progress(Step(s, slots, results, i).phases) == Progress(s.phases) + 1
  {
    CountsAfterUpdate(s.phases, i, s.phases[i].Next());
    forall k | 0 <= k < |s.phases|
      ensures |Step(s, slots, results, i).out| == |Step(s, slots, results, i).phases| == |s.phases|
      ensures CallInv(Step(s, slots, results, i), results, k)
    {
      StepKeepsCall(s, slots, results, i, k);
    }
  }

  lemma ExecKeepsInv(s: State, slots: nat, results: nat -> string, schedule: seq<nat>)
    requires Inv(s, slots, results) && Schedule(s, slots, results, schedule)
    ensures Inv(Exec(s, slots, results, schedule), slots, results)
    ensures Progress(Exec(s, slots, results, schedule).phases) == Progress(s.phases) + |schedule|
    decreases |schedule|
  {
    if schedule != [] {
      StepKeepsInv(s, slots, results, schedule[0]);
      ExecKeepsInv(Step(s, slots, results, schedule[0]), slots, results, schedule[1..]);
    }
  }

  lemma InitInv(calls: nat, slots: nat, results: nat -> string)
    ensures Inv(Init(calls), slots, results) && Progress(Init(calls).phases) == 0
  {
    CountsAtStart(calls);
  }

  /** In every reachable state at most `slots` calls are between start and release. */
  lemma NeverMoreThanSlots(calls: nat, slots: nat, results: nat -> string, schedule: seq<nat>)
    requires Schedule(Init(calls), slots, results, schedule)
    ensures ActiveCount(Exec(Init(calls), slots, results, schedule).phases) <= slots
  {
    InitInv(calls, slots, results);
    ExecKeepsInv(Init(calls), slots, results, schedule);
  }

  predicate AllFinished(s: State) {
    forall i :: 0 <= i < |s.phases| ==> s.phases[i].Finished?
  }

  lemma {:induction false} ActiveExists(phases: seq<Phase>) returns (i: nat)
    requires ActiveCount(phases) > 0
    ensures i < |phases| && phases[i].Active()
  {
    var n := |phases| - 1;
    if phases[n].Active() {
      i := n;
    } else {
      i := ActiveExists(phases[..n]);
    }
  }

  /** No deadlock: until every goroutine has finished, some goroutine can move. */
  lemma SomeStepEnabled(s: State, slots: nat, results: nat -> string) returns (i: nat)
    requires Inv(s, slots, results) && slots > 0 && !AllFinished(s)
    ensures Enabled(s, slots, i)
  {
    var k: nat :| k < |s.phases| && !s.phases[k].Finished?;
    if s.taken > 0 {
      i := ActiveExists(s.phases);
    } else {
      i := k;
      if s.phases[k].Announced? {
        CountsAfterUpdate(s.phases, k, Waiting);
      }
    }
  }

  lemma {:induction false} ProgressBound(phases: seq<Phase>)
    ensures Progress(phases) <= 6 * |phases|
    ensures Progress(phases) == 6 * |phases| <==> forall i :: 0 <= i < |phases| ==> phases[i].Finished?
  {
    if phases != [] {
      ProgressBound(phases[..|phases| - 1]);
    }
  }

  /** Every schedule ends: it has six steps per call exactly when all have finished. */
  lemma SchedulesEnd(calls: nat, slots: nat, results: nat -> string, schedule: seq<nat>)
    requires Schedule(Init(calls), slots, results, schedule)
    ensures |schedule| <= 6 * calls
    ensures |schedule| == 6 * calls <==> AllFinished(Exec(Init(calls), slots, results, schedule))
  {
    var s := Exec(Init(calls), slots, results, schedule);
    InitInv(calls, slots, results);
    ExecKeepsInv(Init(calls), slots, results, schedule);
    SizesStay(Init(calls), slots, results, schedule);
    ProgressBound(s.phases);
  }

  lemma {:induction false} SizesStay(s: State, slots: nat, results: nat -> string, schedule: seq<nat>)
    requires Schedule(s, slots, results, schedule)
    ensures |Exec(s, slots, results, schedule).phases| == |s.phases|
    decreases |schedule|
  {
    if schedule != [] {
      SizesStay(Step(s, slots, results, schedule[0]), slots, results, schedule[1..]);
    }
  }

  lemma FinishedCalls(s: State, slots: nat, results: nat -> string)
    requires Inv(s, slots, results) && AllFinished(s)
    ensures forall i :: 0 <= i < |s.phases| ==> s.out[i] == Some(results(i))
    ensures forall i :: 0 <= i < |s.phases| ==>
              multiset(s.events)[ToolStart(i)] == 1 && multiset(s.events)[ToolEnd(i)] == 1
  {
    forall i | 0 <= i < |s.phases|
      ensures s.out[i] == Some(results(i))
      ensures multiset(s.events)[ToolStart(i)] == 1 && multiset(s.events)[ToolEnd(i)] == 1
    {
      assert CallInv(s, results, i) && s.phases[i].Finished?;
    }
  }

  /** At the join slot i holds what is kept of the result of call i and every call has exactly one
      start and one end event, so the messages appended follow the call order, whatever the
      order of completion. */
  lemma JoinFollowsCallOrder(cfg: Conversation.Config, env: Conversation.Env, turn: nat, calls: seq<ToolCall>,
                             slots: nat, schedule: seq<nat>)
    requires var results := (i: nat) => Conversation.CapToolResult(cfg, env.toolResult(turn, i));
             && Schedule(Init(|calls|), slots, results, schedule)
             && AllFinished(Exec(Init(|calls|), slots, results, schedule))
    ensures var results := (i: nat) => Conversation.CapToolResult(cfg, env.toolResult(turn, i));
            var s := Exec(Init(|calls|), slots, results, schedule);
            var msgs := Conversation.ToolMessages(cfg, env, turn, calls);
            && |s.out| == |calls| == |msgs|
            && forall i :: 0 <= i < |calls| ==>
                 && s.out[i].Some? && msgs[i] == ToolMessage(calls[i], s.out[i].value)
                 && Conversation.CappedFrom(cfg.maxToolResultChars, env.toolResult(turn, i), s.out[i].value)
                 && multiset(s.events)[ToolStart(i)] == 1 && multiset(s.events)[ToolEnd(i)] == 1
  {
    var results := (i: nat) => Conversation.CapToolResult(cfg, env.toolResult(turn, i));
    InitInv(|calls|, slots, results);
    ExecKeepsInv(Init(|calls|), slots, results, schedule);
    SizesStay(Init(|calls|), slots, results, schedule);
    FinishedCalls(Exec(Init(|calls|), slots, results, schedule), slots, results);
    forall i | 0 <= i < |calls|
      ensures Conversation.CappedFrom(cfg.maxToolResultChars, env.toolResult(turn, i), results(i))
    {
      Conversation.CapKeeps(cfg, env.toolResult(turn, i));
    }
  }

  // ---- how many at once ----

  /** The first n goroutines enter the semaphore one after the other. */
  function EnterAll(n: nat): seq<nat> {
    seq(n, i requires 0 <= i < n => i)
  }

  lemma {:induction false} ScheduleConcat(s: State, slots: nat, results: nat -> string, a: seq<nat>, i: nat)
    requires Schedule(s, slots, results, a) && Enabled(Exec(s, slots, results, a), slots, i)
    ensures Schedule(s, slots, results, a + [i])
    ensures Exec(s, slots, results, a + [i]) == Step(Exec(s, slots, results, a), slots, results, i)
    decreases |a|
  {
    if a == [] {
      assert (a + [i])[1..] == [];
    } else {
      assert (a + [i])[0] == a[0] && (a + [i])[1..] == a[1..] + [i];
      ScheduleConcat(Step(s, slots, results, a[0]), slots, results, a[1..], i);
    }
  }

  lemma {:induction false} TheyEnter(calls: nat, slots: nat, results: nat -> string, n: nat)
    requires n <= slots && n <= calls
    ensures Schedule(Init(calls), slots, results, EnterAll(n))
    ensures var s := Exec(Init(calls), slots, results, EnterAll(n));
            && s.taken == n && |s.phases| == |s.out| == calls
            && forall i :: n <= i < calls ==> s.phases[i].Waiting?
  {
    if n > 0 {
      TheyEnter(calls, slots, results, n - 1);
      ScheduleConcat(Init(calls), slots, results, EnterAll(n - 1), n - 1);
      assert EnterAll(n - 1) + [n - 1] == EnterAll(n);
    }
  }

  /** The most calls there can be at once: the configured number, or all when that is zero, negative
      or more than there are. No schedule exceeds it, and some schedule reaches it. */
  lemma MostAtOnce(maxToolConcurrency: int, calls: nat, results: nat -> string, schedule: seq<nat>)
    requires Schedule(Init(calls), Slots(maxToolConcurrency, calls), results, schedule)
    ensures var most := if 0 < maxToolConcurrency < calls then maxToolConcurrency else calls;
            var slots := Slots(maxToolConcurrency, calls);
            && ActiveCount(Exec(Init(calls), slots, results, schedule).phases) <= most
            && Schedule(Init(calls), slots, results, EnterAll(most))
            && ActiveCount(Exec(Init(calls), slots, results, EnterAll(most)).phases) == most
  {
    var most := if 0 < maxToolConcurrency < calls then maxToolConcurrency else calls;
    NeverMoreThanSlots(calls, Slots(maxToolConcurrency, calls), results, schedule);
    TheyEnter(calls, Slots(maxToolConcurrency, calls), results, most);
    InitInv(calls, Slots(maxToolConcurrency, calls), results);
    ExecKeepsInv(Init(calls), Slots(maxToolConcurrency, calls), results, EnterAll(most));
  }

  // ---- the batch in memory ----

  class Batch {
    const slots: nat
    const results: nat -> string
    var phases: array<Phase>
    var out: array<Option<string>>
    var taken: nat
    var events: seq<Event>

    ghost predicate Valid()
      reads this
    {
      phases as object != out as object && phases.Length == out.Length
    }

    function View(): State
      reads this, phases, out
    {
      State(phases[..], taken, out[..], events)
    }

    constructor (calls: nat, slots: nat, results: nat -> string)
      ensures Valid() && fresh(phases) && fresh(out)
      ensures this.slots == slots && this.results == results && View() == Init(calls)
    {
      this.slots, this.results := slots, results;
      phases := new Phase[calls](_ => Waiting);
      out := new Option<string>[calls](_ => None);
      taken, events := 0, [];
      new;
      assert phases[..] == seq(calls, _ => Waiting);
      assert out[..] == seq(calls, _ => None);
    }

    /** The next step of goroutine i. */
    method Move(i: nat)
      requires Valid() && Enabled(View(), slots, i)
      modifies this`taken, this`events, phases, out
      ensures Valid() && View() == Step(old(View()), slots, results, i)
    {
      ghost var before := View();
      var phase := phases[i];
      assert before.phases[i] == phase;
      phases[i] := phase.Next();
      match phase {
        case Waiting => taken := taken + 1;
        case Admitted => events := events + [ToolStart(i)];
        case Running => out[i] := Some(results(i));
        case Stored => events := events + [ToolEnd(i)];
        case Announced => taken := taken - 1;
        case Released =>
      }
      assert phases[..] == before.phases[i := phase.Next()];
    }

    /** One scheduling decision: the proposed goroutine if it can move, else the first that can. */
    method Advance(proposal: nat)
      requires Valid() && Inv(View(), slots, results) && slots > 0 && !AllFinished(View())
      modifies this`taken, this`events, phases, out
      ensures Valid() && Inv(View(), slots, results)
      ensures |View().phases| == |old(View()).phases|
      ensures Progress(View().phases) == Progress(old(View()).phases) + 1
    {
      var i := proposal;
      if !Enabled(View(), slots, i) {
        i := FirstEnabled(View(), slots, results);
      }
      StepKeepsInv(View(), slots, results, i);
      Move(i);
    }

    /** Runs until every goroutine has finished; `pick` proposes who moves next. */
    method RunAll(pick: nat -> nat)
      requires Valid() && Inv(View(), slots, results) && slots > 0
      modifies this`taken, this`events, phases, out
      ensures Valid() && Inv(View(), slots, results) && AllFinished(View())
      ensures |View().phases| == |old(View()).phases|
    {
      ghost var calls := |View().phases|;
      var any := Unfinished(View());
      while any
        invariant Valid() && Inv(View(), slots, results) && |View().phases| == calls
        invariant any <==> !AllFinished(View())
        decreases 6 * calls - Progress(View().phases)
      {
        ProgressBound(View().phases);
        Advance(pick(Progress(View().phases)));
        any := Unfinished(View());
      }
    }
  }

  method FirstEnabled(s: State, slots: nat, results: nat -> string) returns (i: nat)
    requires Inv(s, slots, results) && slots > 0 && !AllFinished(s)
    ensures Enabled(s, slots, i)
  {
    ghost var some := SomeStepEnabled(s, slots, results);
    i := 0;
    while !Enabled(s, slots, i)
      invariant i <= some
      decreases some - i
    {
      i := i + 1;
    }
  }

  method Unfinished(s: State) returns (any: bool)
    ensures any <==> !AllFinished(s)
  {
    any := false;
    for i := 0 to |s.phases|
      invariant any <==> exists k :: 0 <= k < i && !s.phases[k].Finished?
    {
      if !s.phases[i].Finished? {
        any := true;
      }
    }
  }

  /** executeToolCalls under an arbitrary scheduler: `pick` proposes who moves next. It always
      ends, and the results come back aligned with the calls. */
  method ExecuteToolCalls(calls: nat, maxToolConcurrency: int, results: nat -> string, pick: nat -> nat)
    returns (out: seq<Option<string>>, events: seq<Event>)
    ensures |out| == calls
    ensures forall i :: 0 <= i < calls ==> out[i] == Some(results(i))
    ensures forall i :: 0 <= i < calls ==>
              multiset(events)[ToolStart(i)] == 1 && multiset(events)[ToolEnd(i)] == 1
  {
    if calls == 0 {
      return [], [];
    }
    var batch := new Batch(calls, Slots(maxToolConcurrency, calls), results);
    InitInv(calls, batch.slots, results);
    batch.RunAll(pick);
    FinishedCalls(batch.View(), batch.slots, results);
    out, events := batch.View().out, batch.View().events;
  }
}
