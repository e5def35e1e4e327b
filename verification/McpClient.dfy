/** Request/response correlation of one MCP connection (section 5 of the JSON-RPC 2.0
    specification): any number of concurrent calls, one reader, and a server that may answer in
    any order, twice, unasked or never. Locked sections, channel operations and the atomic
    counter are the steps. */
module McpClient {
  import opened Wrappers
  import Text

  /** `failure` is set by an error response and by the reader's own failure. */
  datatype Response = Response(key: string, result: string, failure: Option<string>)

  datatype Result = Answer(response: Response) | WriteError(text: string) | ContextError(text: string)

  /** Where a call is. */
  datatype Call =
    | Numbered
    | WriteFailed(text: string)
    | Waiting
    | Cancelling(text: string)
    | Returned(result: Result)

  datatype Reader = Reading | Sending(call: nat, response: Response) | Failing(error: string) | Dead

  /** `pending` maps a key to the call whose channel it holds; `slots` are the channels. */
  datatype State = State(
    pending: map<string, nat>,
    nextID: nat,
    closed: bool,
    calls: map<nat, Call>,
    slots: map<nat, Option<Response>>,
    reader: Reader)

  datatype Action =
    | Number
    | Write(call: nat, failure: Option<string>)
    | DropUnwritten(call: nat)
    | Cancel(call: nat, error: string)
    | DropCancelled(call: nat)
    | Receive(call: nat)
    | Look(response: Response)
    | Send
    | ReadError(error: string)
    | FailAll
    | Close

  function Key(call: nat): string {
    Text.Decimal(call)
  }

  function Init(): State {
    State(map[], 0, false, map[], map[], Reading)
  }

  predicate IsAt(s: State, call: nat) {
    call in s.calls && call in s.slots
  }

  /** A send needs room in the channel, a receive needs a value. */
  predicate Enabled(s: State, a: Action) {
    match a
    case Number => !s.closed
    case Write(call, _) => IsAt(s, call) && s.calls[call].Numbered?
    case DropUnwritten(call) => IsAt(s, call) && s.calls[call].WriteFailed?
    case Cancel(call, _) => IsAt(s, call) && s.calls[call].Waiting?
    case DropCancelled(call) => IsAt(s, call) && s.calls[call].Cancelling?
    case Receive(call) => IsAt(s, call) && s.calls[call].Waiting? && s.slots[call].Some?
    case Look(_) => s.reader.Reading?
    case Send => s.reader.Sending? && s.reader.call in s.slots && s.slots[s.reader.call].None?
    case ReadError(_) => s.reader.Reading?
    case FailAll =>
      s.reader.Failing? && forall key :: key in s.pending ==> s.pending[key] in s.slots && s.slots[s.pending[key]].None?
    case Close => true
  }

  function Step(s: State, a: Action): State
    requires Enabled(s, a)
  {
    match a
    case Number =>
      var n := s.nextID + 1;
      s.(nextID := n, calls := s.calls[n := Numbered], slots := s.slots[n := None])
    case Write(call, failure) =>
      s.(pending := s.pending[Key(call) := call],
         calls := s.calls[call := if failure.Some? then WriteFailed(failure.value) else Waiting])
    case DropUnwritten(call) =>
      s.(pending := s.pending - {Key(call)}, calls := s.calls[call := Returned(WriteError(s.calls[call].text))])
    case Cancel(call, error) => s.(calls := s.calls[call := Cancelling(error)])
    case DropCancelled(call) =>
      s.(pending := s.pending - {Key(call)}, calls := s.calls[call := Returned(ContextError(s.calls[call].text))])
    case Receive(call) =>
      s.(slots := s.slots[call := None], calls := s.calls[call := Returned(Answer(s.slots[call].value))])
    case Look(response) =>
      if response.key in s.pending then
        s.(pending := s.pending - {response.key}, reader := Sending(s.pending[response.key], response))
      else s
    case Send => s.(slots := s.slots[s.reader.call := Some(s.reader.response)], reader := Reading)
    case ReadError(error) => s.(reader := Failing(error))
    case FailAll =>
      s.(slots := Failed(s.pending, s.slots, s.reader.error), pending := map[], reader := Dead)
    case Close => s.(closed := true)
  }

  /** The channels after failAll: every pending call gets an error under its own key. */
  function Failed(pending: map<string, nat>, slots: map<nat, Option<Response>>, error: string)
    : map<nat, Option<Response>>
  {
    map call | call in slots ::
      if Key(call) in pending && pending[Key(call)] == call then Some(Response(Key(call), "", Some(error)))
      else slots[call]
  }

  predicate Enables(s: State, run: seq<Action>)
    decreases |run|
  {
    run == [] || (Enabled(s, run[0]) && Enables(Step(s, run[0]), run[1..]))
  }

  function Exec(s: State, run: seq<Action>): State
    requires Enables(s, run)
    decreases |run|
  {
    if run == [] then s else Exec(Step(s, run[0]), run[1..])
  }

  // ---- what holds after every step ----

  /** Whose response the reader is about to send. */
  predicate SendingTo(s: State, call: nat) {
    s.reader.Sending? && s.reader.call == call
  }

  /** One call: it is pending under its key, or has been looked up, or has its response in the
      channel, or none of them; a response on its way to it carries its key. */
  predicate CallInv(s: State, call: nat)
    requires IsAt(s, call)
  {
    var held := Key(call) in s.pending && s.pending[Key(call)] == call;
    && call <= s.nextID
    && (held ==> s.slots[call].None? && !SendingTo(s, call))
    && (SendingTo(s, call) ==> s.slots[call].None? && s.reader.response.key == Key(call))
    && (s.slots[call].Some? ==> s.slots[call].value.key == Key(call))
    && match s.calls[call]
       case Numbered => !held && s.slots[call].None? && !SendingTo(s, call)
       case Waiting => held || s.slots[call].Some? || SendingTo(s, call)
       case WriteFailed(_) => true
       case Cancelling(_) => true
       case Returned(r) =>
         !held && (r.Answer? ==> r.response.key == Key(call) && s.slots[call].None? && !SendingTo(s, call))
  }

  ghost predicate Inv(s: State) {
    && s.calls.Keys == s.slots.Keys
    && (forall call :: call in s.calls ==> CallInv(s, call))
    && (forall key :: key in s.pending ==> s.pending[key] in s.calls && Key(s.pending[key]) == key)
    && (s.reader.Sending? ==> s.reader.call in s.calls)
  }

  lemma KeysDiffer(m: nat, n: nat)
    requires m != n
    ensures Key(m) != Key(n)
  {
    if Key(m) == Key(n) {
      Text.DecimalInjective(m, n);
    }
  }

  /** The call an action is about, if it is about one. */
  function Subject(s: State, a: Action): Option<nat> {
    match a
    case Number => Some(s.nextID + 1)
    case Write(call, _) => Some(call)
    case DropUnwritten(call) => Some(call)
    case Cancel(call, _) => Some(call)
    case DropCancelled(call) => Some(call)
    case Receive(call) => Some(call)
    case Look(response) => if response.key in s.pending then Some(s.pending[response.key]) else None
    case Send => if s.reader.Sending? then Some(s.reader.call) else None
    case _ => None
  }

  lemma SubjectKeepsInv(s: State, a: Action, call: nat)
    requires Inv(s) && Enabled(s, a) && Subject(s, a) == Some(call)
    ensures IsAt(Step(s, a), call) && CallInv(Step(s, a), call)
  {
    match a {
      case Number =>
      case Write(_, _) =>
      case Receive(_) =>
      case Look(_) =>
      case Send =>
      case _ =>
    }
  }

  /** Adding and dropping a key leaves the other calls alone. */
  lemma KeyStepKeepsOthers(s: State, a: Action, call: nat)
    requires Inv(s) && Enabled(s, a) && call in s.calls && Subject(s, a) != Some(call)
    requires a.Write? || a.DropUnwritten? || a.DropCancelled?
    ensures IsAt(Step(s, a), call) && CallInv(Step(s, a), call)
  {
    KeysDiffer(a.call, call);
  }

  lemma FailAllKeepsInv(s: State, call: nat)
    requires Inv(s) && Enabled(s, FailAll) && call in s.calls
    ensures IsAt(Step(s, FailAll), call) && CallInv(Step(s, FailAll), call)
  {
  }

  lemma OthersKeepInv(s: State, a: Action, call: nat)
    requires Inv(s) && Enabled(s, a) && call in s.calls && Subject(s, a) != Some(call)
    ensures IsAt(Step(s, a), call) && CallInv(Step(s, a), call)
  {
    match a {
      case Write(_, _) => KeyStepKeepsOthers(s, a, call);
      case DropUnwritten(_) => KeyStepKeepsOthers(s, a, call);
      case DropCancelled(_) => KeyStepKeepsOthers(s, a, call);
      case FailAll => FailAllKeepsInv(s, call);
      case Look(_) =>
      case _ =>
    }
  }

  lemma PendingStaysKeyed(s: State, a: Action, key: string)
    requires Inv(s) && Enabled(s, a) && key in Step(s, a).pending
    ensures Step(s, a).pending[key] in Step(s, a).calls && Key(Step(s, a).pending[key]) == key
  {
    match a {
      case Write(_, _) =>
      case Look(_) =>
      case FailAll =>
      case _ =>
    }
  }

  lemma StepKeepsTables(s: State, a: Action)
    requires Inv(s) && Enabled(s, a)
    ensures var s' := Step(s, a);
            && s'.calls.Keys == s'.slots.Keys
            && s'.calls.Keys == (if a.Number? then s.calls.Keys + {s.nextID + 1} else s.calls.Keys)
            && (forall key :: key in s'.pending ==> s'.pending[key] in s'.calls && Key(s'.pending[key]) == key)
            && (s'.reader.Sending? ==> s'.reader.call in s'.calls)
  {
    StepKeepsKeys(s, a);
    forall key | key in Step(s, a).pending
      ensures Step(s, a).pending[key] in Step(s, a).calls && Key(Step(s, a).pending[key]) == key
    {
      PendingStaysKeyed(s, a, key);
    }
  }

  lemma StepKeepsKeys(s: State, a: Action)
    requires Inv(s) && Enabled(s, a)
    ensures var s' := Step(s, a);
            && s'.calls.Keys == s'.slots.Keys
            && s'.calls.Keys == (if a.Number? then s.calls.Keys + {s.nextID + 1} else s.calls.Keys)
            && (s'.reader.Sending? ==> s'.reader.call in s'.calls)
  {
    match a {
      case Look(_) =>
      case FailAll =>
      case _ =>
    }
  }

  lemma StepKeepsInv(s: State, a: Action)
    requires Inv(s) && Enabled(s, a)
    ensures Inv(Step(s, a))
  {
    StepKeepsTables(s, a);
    forall call | call in Step(s, a).calls
      ensures CallInv(Step(s, a), call)
    {
      if Subject(s, a) == Some(call) {
        SubjectKeepsInv(s, a, call);
      } else {
        OthersKeepInv(s, a, call);
      }
    }
  }

  lemma {:induction false} RunKeepsInv(s: State, run: seq<Action>)
    requires Inv(s) && Enables(s, run)
    ensures Inv(Exec(s, run))
    decreases |run|
  {
    if run != [] {
      StepKeepsInv(s, run[0]);
      RunKeepsInv(Step(s, run[0]), run[1..]);
    }
  }

  // ---- the main results ----

  /** Where a response came from: the server sent it, or the reader failed. */
  ghost predicate Sent(r: Response, call: nat, log: seq<Action>) {
    Look(r) in log || exists e :: ReadError(e) in log && r == Response(Key(call), "", Some(e))
  }

  ghost predicate ResultTraced(result: Result, call: nat, log: seq<Action>) {
    match result
    case Answer(r) => Sent(r, call, log)
    case WriteError(t) => Write(call, Some(t)) in log
    case ContextError(t) => Cancel(call, t) in log
  }

  ghost predicate CallTraced(s: State, call: nat, log: seq<Action>)
    requires IsAt(s, call)
  {
    && (s.slots[call].Some? ==> Sent(s.slots[call].value, call, log))
    && match s.calls[call]
       case WriteFailed(t) => Write(call, Some(t)) in log
       case Cancelling(t) => Cancel(call, t) in log
       case Returned(result) => ResultTraced(result, call, log)
       case _ => true
  }

  ghost predicate Traced(s: State, log: seq<Action>) {
    && s.calls.Keys == s.slots.Keys
    && (forall call :: call in s.calls ==> CallTraced(s, call, log))
    && (s.reader.Sending? ==> Look(s.reader.response) in log)
    && (s.reader.Failing? ==> ReadError(s.reader.error) in log)
  }

  lemma LongerLog(s: State, call: nat, log: seq<Action>, a: Action)
    requires IsAt(s, call) && CallTraced(s, call, log)
    ensures CallTraced(s, call, log + [a])
  {
  }

  lemma StepKeepsSlotTrace(s: State, a: Action, log: seq<Action>, call: nat)
    requires Inv(s) && Enabled(s, a) && Traced(s, log) && call in s.calls && a in log
    ensures call in Step(s, a).slots
    ensures Step(s, a).slots[call].Some? ==> Sent(Step(s, a).slots[call].value, call, log)
  {
    assert CallTraced(s, call, log);
    match a {
      case FailAll =>
      case Number =>
      case Send =>
      case _ =>
    }
  }

  lemma StepKeepsCallTrace(s: State, a: Action, log: seq<Action>, call: nat)
    requires Inv(s) && Enabled(s, a) && Traced(s, log) && call in s.calls && a in log
    ensures IsAt(Step(s, a), call) && CallTraced(Step(s, a), call, log)
  {
    assert CallTraced(s, call, log);
    StepKeepsSlotTrace(s, a, log, call);
    match a {
      case Number => assert CallInv(s, call);
      case _ =>
    }
  }

  lemma StepKeepsTrace(s: State, a: Action, log: seq<Action>)
    requires Inv(s) && Enabled(s, a) && Traced(s, log)
    ensures Traced(Step(s, a), log + [a])
  {
    StepKeepsTables(s, a);
    forall call | call in s.calls
      ensures CallTraced(s, call, log + [a])
    {
      LongerLog(s, call, log, a);
    }
    forall call | call in s.calls
      ensures IsAt(Step(s, a), call) && CallTraced(Step(s, a), call, log + [a])
    {
      StepKeepsCallTrace(s, a, log + [a], call);
    }
  }

  lemma {:induction false} RunKeepsTrace(s: State, run: seq<Action>, log: seq<Action>)
    requires Inv(s) && Enables(s, run) && Traced(s, log)
    ensures Traced(Exec(s, run), log + run)
    decreases |run|
  {
    if run == [] {
      assert log + run == log;
    } else {
      StepKeepsTrace(s, run[0], log);
      StepKeepsInv(s, run[0]);
      RunKeepsTrace(Step(s, run[0]), run[1..], log + [run[0]]);
      assert log + [run[0]] + run[1..] == log + run;
    }
  }

  /** Whatever the server does, a call that has returned brought a response under its own key,
      sent by the server or made by a failed reader, or else its own write error, or the error of
      its own context. */
  lemma EveryCallGetsItsOwn(run: seq<Action>, call: nat)
    requires Enables(Init(), run) && call in Exec(Init(), run).calls && Exec(Init(), run).calls[call].Returned?
    ensures var result := Exec(Init(), run).calls[call].result;
            && (result.Answer? ==> result.response.key == Key(call) && Sent(result.response, call, run))
            && (result.WriteError? ==> Write(call, Some(result.text)) in run)
            && (result.ContextError? ==> Cancel(call, result.text) in run)
  {
    RunKeepsInv(Init(), run);
    RunKeepsTrace(Init(), run, []);
    assert [] + run == run;
    assert CallInv(Exec(Init(), run), call);
  }

  /** No send ever blocks: a pending key has an empty channel, and so has whoever the reader is
      about to answer. */
  lemma SendsNeverBlock(run: seq<Action>)
    requires Enables(Init(), run)
    ensures var s := Exec(Init(), run);
            && (s.reader.Sending? ==> Enabled(s, Send))
            && (s.reader.Failing? ==> Enabled(s, FailAll))
  {
    RunKeepsInv(Init(), run);
    var s := Exec(Init(), run);
    if s.reader.Sending? {
      assert CallInv(s, s.reader.call);
    }
    forall key | key in s.pending
      ensures s.pending[key] in s.slots && s.slots[s.pending[key]].None?
    {
      assert CallInv(s, s.pending[key]);
    }
  }

  // ---- which calls can still be answered ----

  /** Its response is in the channel or about to be, or it is pending and the reader lives. */
  predicate Answerable(s: State, call: nat)
    requires IsAt(s, call)
  {
    s.slots[call].Some? || SendingTo(s, call) || !s.reader.Dead?
  }

  predicate NoCancel(run: seq<Action>, call: nat) {
    forall i :: 0 <= i < |run| ==> !(run[i].Cancel? && run[i].call == call)
  }

  lemma StepStaysUnanswered(s: State, a: Action, call: nat)
    requires Inv(s) && Enabled(s, a) && IsAt(s, call) && s.calls[call].Waiting? && !Answerable(s, call)
    requires !(a.Cancel? && a.call == call)
    ensures IsAt(Step(s, a), call) && Step(s, a).calls[call].Waiting? && !Answerable(Step(s, a), call)
  {
    assert CallInv(s, call);
    if a.Number? {
      assert call <= s.nextID;
    }
  }

  lemma {:induction false} StaysUnanswered(s: State, run: seq<Action>, call: nat)
    requires Inv(s) && Enables(s, run) && IsAt(s, call) && s.calls[call].Waiting? && !Answerable(s, call)
    requires NoCancel(run, call)
    ensures IsAt(Exec(s, run), call) && Exec(s, run).calls[call].Waiting?
    decreases |run|
  {
    if run != [] {
      StepStaysUnanswered(s, run[0], call);
      StepKeepsInv(s, run[0]);
      StaysUnanswered(Step(s, run[0]), run[1..], call);
    }
  }

  /** The next step towards an answer, and how many there are. */
  function Towards(s: State, call: nat): (Action, nat)
    requires IsAt(s, call)
  {
    if s.slots[call].Some? then (Receive(call), 0)
    else
      match s.reader
      case Sending(c, _) => (Send, if c == call then 1 else 3)
      case Failing(_) => (FailAll, 1)
      case _ => (Look(Response(Key(call), "", None)), 2)
  }

  lemma Approach(s: State, call: nat)
    requires Inv(s) && IsAt(s, call) && s.calls[call].Waiting? && Answerable(s, call)
    ensures var (a, n) := Towards(s, call);
            && Enabled(s, a) && IsAt(Step(s, a), call) && !a.Cancel?
            && if n == 0 then Step(s, a).calls[call].Returned?
               else Step(s, a).calls[call].Waiting? && Answerable(Step(s, a), call) && Towards(Step(s, a), call).1 < n
  {
    assert CallInv(s, call);
    if s.reader.Sending? {
      assert CallInv(s, s.reader.call);
    }
    forall key | key in s.pending
      ensures s.pending[key] in s.slots && s.slots[s.pending[key]].None?
    {
      assert CallInv(s, s.pending[key]);
    }
  }

  lemma {:induction false} SomeRunAnswers(s: State, call: nat) returns (run: seq<Action>)
    requires Inv(s) && IsAt(s, call) && s.calls[call].Waiting? && Answerable(s, call)
    ensures Enables(s, run) && NoCancel(run, call)
    ensures call in Exec(s, run).calls && Exec(s, run).calls[call].Returned?
    decreases Towards(s, call).1
  {
    var (a, n) := Towards(s, call);
    Approach(s, call);
    var rest := [];
    if n > 0 {
      StepKeepsInv(s, a);
      rest := SomeRunAnswers(Step(s, a), call);
    }
    run := [a] + rest;
    assert run[1..] == rest;
  }

  /** A waiting call can return without its own context ending exactly when its response is on the
      way or the reader is alive: one that starts after the reader's death waits for ever. */
  lemma AnswerableIff(s: State, call: nat)
    requires Inv(s) && IsAt(s, call) && s.calls[call].Waiting?
    ensures Answerable(s, call) <==>
            exists run :: Enables(s, run) && NoCancel(run, call) &&
              call in Exec(s, run).calls && Exec(s, run).calls[call].Returned?
  {
    if Answerable(s, call) {
      var run := SomeRunAnswers(s, call);
    } else {
      forall run | Enables(s, run) && NoCancel(run, call)
        ensures IsAt(Exec(s, run), call) && Exec(s, run).calls[call].Waiting?
      {
        StaysUnanswered(s, run, call);
      }
    }
  }

  lemma Prepend(s: State, a: Action, rest: seq<Action>)
    requires Enabled(s, a) && Enables(Step(s, a), rest)
    ensures Enables(s, [a] + rest) && Exec(s, [a] + rest) == Exec(Step(s, a), rest)
  {
    assert ([a] + rest)[1..] == rest;
  }

  /** The stream fails, every pending call is answered, and then a call is made. */
  function LateCall(error: string): seq<Action> {
    [ReadError(error)] + ([FailAll] + ([Number] + ([Write(1, None)] + [])))
  }

  lemma LateCallIsWritten(error: string)
    ensures Enables(Init(), LateCall(error))
    ensures var s := Exec(Init(), LateCall(error));
            IsAt(s, 1) && s.calls[1].Waiting? && s.slots[1].None? && s.reader.Dead?
  {
    var s1 := Step(Init(), ReadError(error));
    var s2 := Step(s1, FailAll);
    var s3 := Step(s2, Number);
    assert s3.calls[1] == Numbered && s3.slots[1] == None;
    var s4 := Step(s3, Write(1, None));
    assert s4.calls[1] == Waiting;
    var r3 := [Write(1, None)] + [];
    var r2 := [Number] + r3;
    Prepend(s3, Write(1, None), []);
    Prepend(s2, Number, r3);
    Prepend(s1, FailAll, r2);
    Prepend(Init(), ReadError(error), [FailAll] + r2);
  }

  /** The failing case is reached from the start: a call made after the reader's death is never
      answered, whatever the server sends and whoever else calls. */
  lemma LateCallIsNeverAnswered(error: string, run: seq<Action>)
    requires Enables(Init(), LateCall(error)) && Enables(Exec(Init(), LateCall(error)), run) && NoCancel(run, 1)
    ensures var s := Exec(Exec(Init(), LateCall(error)), run); 1 in s.calls && s.calls[1].Waiting?
  {
    LateCallIsWritten(error);
    RunKeepsInv(Init(), LateCall(error));
    StaysUnanswered(Exec(Init(), LateCall(error)), run, 1);
  }
}
