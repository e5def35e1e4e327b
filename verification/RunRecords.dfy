/** What a record of the registry says, told by the actions of the whole run. */
module RunRecords {
  import opened Runs
  import opened RunSystem
  import opened Wrappers
  import Llm

  /** The action is an annotation of the run. */
  predicate Notes(a: Action, id: string) {
    a.Annotate? && a.id == id
  }

  predicate SameOrigin(r: Record, r': Record) {
    r'.session == r.session && r'.input == r.input && r'.startedAt == r.startedAt
  }

  lemma StepKeepsOrigin(s: System, a: Action, id: string)
    requires Inv(s) && Enabled(s, a) && id in s.reg.byID && id in Step(s, a).reg.byID
    ensures var r, r' := s.reg.byID[id], Step(s, a).reg.byID[id];
            SameOrigin(r, r') && r'.channelError == if Notes(a, id) then a.channelError else r.channelError
  {
    if a.Finish? {
      FinishKeepsRecords(s, a);
    }
  }

  /** An evicted record does not come back: ids are never used twice. */
  lemma {:induction false} GoneStaysGone(s: System, run: seq<Action>, id: string)
    requires Inv(s) && Enables(s, run) && id in s.used && id !in s.reg.byID
    ensures id !in Exec(s, run).reg.byID
    decreases |run|
  {
    if run != [] {
      if run[0].Finish? {
        FinishKeepsRecords(s, run[0]);
      }
      StepKeepsInv(s, run[0]);
      GoneStaysGone(Step(s, run[0]), run[1..], id);
    }
  }

  lemma StaysUntilTheEnd(s: System, run: seq<Action>, id: string)
    requires Inv(s) && Enables(s, run) && run != [] && id in s.reg.byID && id in Exec(s, run).reg.byID
    ensures id in Step(s, run[0]).reg.byID
  {
    StepKeepsInv(s, run[0]);
    if id !in Step(s, run[0]).reg.byID {
      GoneStaysGone(Step(s, run[0]), run[1..], id);
    }
  }

  lemma {:induction false} RunNotes(s: System, run: seq<Action>, id: string) returns (k: int)
    requires Inv(s) && Enables(s, run) && id in s.reg.byID && id in Exec(s, run).reg.byID
    ensures -1 <= k < |run| && forall l :: k < l < |run| ==> !Notes(run[l], id)
    ensures var r, r' := s.reg.byID[id], Exec(s, run).reg.byID[id];
            && SameOrigin(r, r')
            && if k < 0 then r'.channelError == r.channelError
               else run[k].Annotate? && run[k].id == id && r'.channelError == run[k].channelError
    decreases |run|
  {
    k := -1;
    if run != [] {
      StaysUntilTheEnd(s, run, id);
      StepKeepsInv(s, run[0]);
      StepKeepsOrigin(s, run[0], id);
      var rest := run[1..];
      var m := RunNotes(Step(s, run[0]), rest, id);
      assert forall l :: 0 < l < |run| ==> run[l] == rest[l - 1];
      k := if m >= 0 then m + 1 else if Notes(run[0], id) then 0 else -1;
    }
  }

  // ---- how it ended ----

  predicate Ends(a: Action, id: string) {
    a.Finish? && a.id == id
  }

  lemma StepKeepsRunning(s: System, a: Action, id: string)
    requires Inv(s) && Enabled(s, a) && id in s.reg.byID && id in Step(s, a).reg.byID
    requires s.reg.byID[id].status.Running? && !Ends(a, id)
    ensures Step(s, a).reg.byID[id].status.Running?
  {
    if a.Finish? {
      FinishKeepsRecords(s, a);
    }
  }

  lemma EndsOnce(s: System, a: Action, id: string)
    requires Inv(s) && Enabled(s, a) && Ends(a, id)
    ensures id in s.reg.byID && s.reg.byID[id].status.Running?
  {
    assert id in s.active <==> RunningIn(s.reg.byID, id);
  }

  lemma {:induction false} RunKeepsOutcome(s: System, run: seq<Action>, id: string)
    requires Inv(s) && Enables(s, run) && id in s.reg.byID && id in Exec(s, run).reg.byID
    requires !s.reg.byID[id].status.Running?
    ensures var r, r' := s.reg.byID[id], Exec(s, run).reg.byID[id];
            r' == r.(channelError := r'.channelError)
    ensures forall l :: 0 <= l < |run| ==> !Ends(run[l], id)
    decreases |run|
  {
    if run != [] {
      StaysUntilTheEnd(s, run, id);
      StepKeepsInv(s, run[0]);
      RecordsAreStable(s, run[0], id);
      if Ends(run[0], id) {
        EndsOnce(s, run[0], id);
      }
      var rest := run[1..];
      RunKeepsOutcome(Step(s, run[0]), rest, id);
      assert forall l :: 0 < l < |run| ==> run[l] == rest[l - 1];
    }
  }

  lemma {:induction false} RunOutcome(s: System, run: seq<Action>, id: string) returns (k: int)
    requires Inv(s) && Enables(s, run) && id in s.reg.byID && id in Exec(s, run).reg.byID
    requires s.reg.byID[id].status.Running?
    ensures -1 <= k < |run| && forall l :: 0 <= l < |run| ==> (Ends(run[l], id) <==> l == k)
    ensures var r := Exec(s, run).reg.byID[id];
            if k < 0 then r.status.Running?
            else run[k].Finish? && TellsOutcome(r, run[k].outcome, run[k].now)
    decreases |run|
  {
    k := -1;
    if run != [] {
      var s', rest := Step(s, run[0]), run[1..];
      StaysUntilTheEnd(s, run, id);
      StepKeepsInv(s, run[0]);
      assert forall l :: 0 < l < |run| ==> run[l] == rest[l - 1];
      if Ends(run[0], id) {
        k := 0;
        OutcomeIsRecorded(s, run[0]);
        RunKeepsOutcome(s', rest, id);
      } else {
        StepKeepsRunning(s, run[0], id);
        var m := RunOutcome(s', rest, id);
        k := if m >= 0 then m + 1 else -1;
      }
    }
  }

  // ---- the whole story ----

  lemma StartRegisters(s: System, a: Action, id: string)
    requires Inv(s) && Enabled(s, a) && id !in s.reg.byID && id in Step(s, a).reg.byID
    ensures a.Start? && a.id == id
    ensures var r := Step(s, a).reg.byID[id];
            && r.session == a.session && r.input == a.input && r.startedAt == a.now && r.status.Running?
            && r.channelError == "" && r.finishedAt == 0 && r.usage == Llm.NO_USAGE
  {
    if a.Finish? {
      FinishKeepsRecords(s, a);
    }
  }

  /** The story of a run: i is its Start, j its end if it has ended, k its last annotation if there is
      one. */
  predicate Story(run: seq<Action>, id: string, r: Record, i: nat, j: int, k: int) {
    && i < |run| && -1 <= j < |run| && -1 <= k < |run|
    && run[i].Start? && run[i].id == id
    && r.session == run[i].session && r.input == run[i].input && r.startedAt == run[i].now
    && (if j < 0 then r.status.Running?
        else i < j && run[j].Finish? && run[j].id == id && TellsOutcome(r, run[j].outcome, run[j].now))
    && (if k < 0 then r.channelError == ""
        else i < k && run[k].Annotate? && run[k].id == id && r.channelError == run[k].channelError)
    && (forall l :: i < l < |run| ==> (Ends(run[l], id) <==> l == j))
    && (forall l :: i < l < |run| && k < l ==> !Notes(run[l], id))
  }

  lemma StoryLater(first: Action, rest: seq<Action>, id: string, r: Record, i: nat, j: int, k: int)
    requires Story(rest, id, r, i, j, k)
    ensures Story([first] + rest, id, r, i + 1, if j < 0 then -1 else j + 1, if k < 0 then -1 else k + 1)
  {
    var run := [first] + rest;
    assert forall l :: 0 < l < |run| ==> run[l] == rest[l - 1];
  }

  lemma StoryFromStart(s: System, run: seq<Action>, id: string) returns (j: int, k: int)
    requires Inv(s) && Enables(s, run) && run != [] && id !in s.reg.byID
    requires id in Step(s, run[0]).reg.byID && id in Exec(s, run).reg.byID
    ensures Story(run, id, Exec(s, run).reg.byID[id], 0, j, k)
  {
    var rest := run[1..];
    StepKeepsInv(s, run[0]);
    StartRegisters(s, run[0], id);
    var m := RunOutcome(Step(s, run[0]), rest, id);
    var n := RunNotes(Step(s, run[0]), rest, id);
    j, k := if m < 0 then -1 else m + 1, if n < 0 then -1 else n + 1;
    assert forall l :: 0 < l < |run| ==> run[l] == rest[l - 1];
  }

  lemma {:induction false} EveryRecordHasAStory(s: System, run: seq<Action>, id: string)
    returns (i: nat, j: int, k: int)
    requires Inv(s) && Enables(s, run) && id !in s.reg.byID && id in Exec(s, run).reg.byID
    ensures Story(run, id, Exec(s, run).reg.byID[id], i, j, k)
    decreases |run|
  {
    StepKeepsInv(s, run[0]);
    if id in Step(s, run[0]).reg.byID {
      i := 0;
      j, k := StoryFromStart(s, run, id);
    } else {
      i, j, k := EveryRecordHasAStory(Step(s, run[0]), run[1..], id);
      StoryLater(run[0], run[1..], id, Exec(s, run).reg.byID[id], i, j, k);
      assert [run[0]] + run[1..] == run;
      i, j, k := i + 1, if j < 0 then -1 else j + 1, if k < 0 then -1 else k + 1;
    }
  }

  /** In every interleaving each record tells its run: the session, the input and the time of its own
      Start, the outcome of its own finish once that has happened, and the channel error of the last
      annotation since. */
  lemma RecordsTellTheirRuns(maxRecords: int, run: seq<Action>, id: string) returns (i: nat, j: int, k: int)
    requires Enables(Init(maxRecords), run) && id in Exec(Init(maxRecords), run).reg.byID
    ensures Story(run, id, Exec(Init(maxRecords), run).reg.byID[id], i, j, k)
  {
    i, j, k := EveryRecordHasAStory(Init(maxRecords), run, id);
  }
}
