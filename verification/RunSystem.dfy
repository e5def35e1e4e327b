/** The run registry under every interleaving of Start, finish, Cancel and Annotate. */
module RunSystem {
  import opened Wrappers
  import opened Runs
  import Llm

  /** `active` are the runner goroutines with the session each was started for, `cancelled` the
      runs whose context was cancelled through Cancel. History: the ids used and the latest time. */
  datatype System = System(
    reg: Registry,
    active: map<string, string>,
    cancelled: set<string>,
    used: set<string>,
    last: nat)

  datatype Action =
    | Start(id: string, session: string, input: string, now: nat)
    | Finish(id: string, outcome: Outcome, now: nat, order: seq<string>)
    | Cancel(id: string)
    | Annotate(id: string, channelError: string)

  /** Ids are fresh, a runner finishes once, a cancelled context stays cancelled. */
  ghost predicate Enabled(s: System, a: Action) {
    match a
    case Start(id, _, _, _) => id !in s.used
    case Finish(id, o, now, order) =>
      && id in s.active
      && (id in s.cancelled ==> o.ctxError.Some?)
      && (id in s.reg.byID ==> Listing(order, Close(s.reg, id, s.active[id], o, now).byID))
    case Cancel(_) => true
    case Annotate(_, _) => true
  }

  function Latest(last: nat, now: nat): nat {
    if last < now then now else last
  }

  function Step(s: System, a: Action): System {
    match a
    case Start(id, session, input, now) =>
      var (reg, reply) := Runs.Start(s.reg, id, session, input, now);
      System(reg, if reply.Registered? then s.active[id := session] else s.active, s.cancelled,
             s.used + {id}, Latest(s.last, now))
    case Finish(id, o, now, order) =>
      s.(reg := Runs.Finish(s.reg, id, if id in s.active then s.active[id] else "", o, now, order),
         active := s.active - {id}, last := Latest(s.last, now))
    case Cancel(id) =>
      s.(cancelled := if Runs.Cancel(s.reg, id).Requested? then s.cancelled + {id} else s.cancelled)
    case Annotate(id, channelError) => s.(reg := Runs.Annotate(s.reg, id, channelError))
  }

  ghost predicate Enables(s: System, run: seq<Action>)
    decreases |run|
  {
    run == [] || (Enabled(s, run[0]) && Enables(Step(s, run[0]), run[1..]))
  }

  function Exec(s: System, run: seq<Action>): System
    decreases |run|
  {
    if run == [] then s else Exec(Step(s, run[0]), run[1..])
  }

  function Init(maxRecords: int): System {
    System(NewRegistry(maxRecords), map[], {}, {}, 0)
  }

  // ---- what holds after every step ----

  predicate RunningIn(byID: map<string, Record>, id: string) {
    id in byID && byID[id].status.Running?
  }

  /** bySession pairs the busy sessions one to one with the running records. */
  ghost predicate Paired(reg: Registry) {
    && (forall session :: session in reg.bySession ==>
          RunningIn(reg.byID, reg.bySession[session]) && reg.byID[reg.bySession[session]].session == session)
    && (forall id :: RunningIn(reg.byID, id) ==>
          reg.byID[id].session in reg.bySession && reg.bySession[reg.byID[id].session] == id)
  }

  /** The goroutines are those of the running records. */
  ghost predicate Manned(s: System) {
    forall id ::
      && (id in s.active <==> RunningIn(s.reg.byID, id))
      && (id in s.active ==> s.active[id] == s.reg.byID[id].session)
  }

  /** Nothing of an outcome is there yet. */
  predicate Blank(r: Record) {
    r.output == "" && r.error == "" && !r.chatError
  }

  ghost predicate Known(s: System) {
    forall id :: id in s.reg.byID ==>
      && s.reg.byID[id].id == id && id in s.used
      && s.reg.byID[id].startedAt <= s.last && s.reg.byID[id].finishedAt <= s.last
      && (s.reg.byID[id].status.Running? ==> Blank(s.reg.byID[id]))
  }

  predicate Bounded(reg: Registry) {
    |FinishedIDs(reg.byID)| <= reg.Max()
  }

  ghost predicate Inv(s: System) {
    Paired(s.reg) && Manned(s) && Known(s) && Bounded(s.reg)
  }

  lemma StartKeepsPaired(reg: Registry, id: string, session: string, input: string, now: nat)
    requires Paired(reg) && Bounded(reg) && id !in reg.byID
    ensures Paired(Runs.Start(reg, id, session, input, now).0) && Bounded(Runs.Start(reg, id, session, input, now).0)
  {
    assert FinishedIDs(Runs.Start(reg, id, session, input, now).0.byID) == FinishedIDs(reg.byID);
  }

  lemma StartKeepsManned(s: System, a: Action)
    requires Inv(s) && Enabled(s, a) && a.Start?
    ensures Manned(Step(s, a))
  {
    var after := Step(s, a);
    forall id
      ensures id in after.active <==> RunningIn(after.reg.byID, id)
      ensures id in after.active ==> after.active[id] == after.reg.byID[id].session
    {
      assert id in s.active <==> RunningIn(s.reg.byID, id);
    }
  }

  lemma StartKeepsKnown(s: System, a: Action)
    requires Inv(s) && Enabled(s, a) && a.Start?
    ensures Known(Step(s, a))
  {
  }

  lemma StartKeepsInv(s: System, a: Action)
    requires Inv(s) && Enabled(s, a) && a.Start?
    ensures Inv(Step(s, a))
  {
    StartKeepsPaired(s.reg, a.id, a.session, a.input, a.now);
    StartKeepsManned(s, a);
    StartKeepsKnown(s, a);
  }

  /** Before its eviction a finish ends one running record. */
  lemma CloseEndsOne(reg: Registry, id: string, o: Outcome, now: nat)
    requires Paired(reg) && RunningIn(reg.byID, id)
    ensures var closed := Close(reg, id, reg.byID[id].session, o, now);
            && Paired(closed)
            && FinishedIDs(closed.byID) == FinishedIDs(reg.byID) + {id}
            && closed.byID.Keys == reg.byID.Keys
            && (forall other :: other in reg.byID && other != id ==> closed.byID[other] == reg.byID[other])
            && closed.byID[id] == Runs.Ended(reg.byID[id], o, now)
  {
  }

  lemma EvictKeepsPaired(reg: Registry, order: seq<string>)
    requires Paired(reg) && Listing(order, reg.byID)
    ensures Paired(reg.(byID := Evict(reg.byID, reg.Max(), order)))
    ensures Bounded(reg.(byID := Evict(reg.byID, reg.Max(), order)))
  {
    EvictsOldest(reg.byID, reg.Max(), order);
  }

  /** The registry just before the eviction of a finish. */
  function Closed(s: System, a: Action): Registry
    requires a.Finish? && a.id in s.active && a.id in s.reg.byID
  {
    Close(s.reg, a.id, s.active[a.id], a.outcome, a.now)
  }

  lemma FinishKeepsPaired(s: System, a: Action)
    requires Inv(s) && Enabled(s, a) && a.Finish?
    ensures Paired(Step(s, a).reg) && Bounded(Step(s, a).reg)
  {
    CloseEndsOne(s.reg, a.id, a.outcome, a.now);
    EvictKeepsPaired(Closed(s, a), a.order);
  }

  /** What a finish leaves of the records. */
  lemma FinishKeepsRecords(s: System, a: Action)
    requires Inv(s) && Enabled(s, a) && a.Finish?
    ensures var after := Step(s, a).reg.byID;
            && after.Keys <= s.reg.byID.Keys
            && (forall id :: id in after && id != a.id ==> after[id] == s.reg.byID[id])
            && (a.id in after ==> after[a.id] == Runs.Ended(s.reg.byID[a.id], a.outcome, a.now))
            && (forall id :: RunningIn(s.reg.byID, id) && id != a.id ==> id in after)
  {
    CloseEndsOne(s.reg, a.id, a.outcome, a.now);
    EvictsOldest(Closed(s, a).byID, Closed(s, a).Max(), a.order);
  }

  lemma FinishKeepsManned(s: System, a: Action)
    requires Inv(s) && Enabled(s, a) && a.Finish?
    ensures Manned(Step(s, a))
  {
    FinishKeepsRecords(s, a);
    var after := Step(s, a);
    forall id
      ensures id in after.active <==> RunningIn(after.reg.byID, id)
      ensures id in after.active ==> after.active[id] == after.reg.byID[id].session
    {
      assert id in s.active <==> RunningIn(s.reg.byID, id);
    }
  }

  lemma FinishKeepsInv(s: System, a: Action)
    requires Inv(s) && Enabled(s, a) && a.Finish?
    ensures Inv(Step(s, a))
  {
    FinishKeepsPaired(s, a);
    FinishKeepsManned(s, a);
  }

  lemma AnnotateKeepsPaired(reg: Registry, id: string, channelError: string)
    requires Paired(reg) && Bounded(reg)
    ensures Paired(Runs.Annotate(reg, id, channelError)) && Bounded(Runs.Annotate(reg, id, channelError))
  {
    assert FinishedIDs(Runs.Annotate(reg, id, channelError).byID) == FinishedIDs(reg.byID);
  }

  lemma AnnotateKeepsInv(s: System, a: Action)
    requires Inv(s) && a.Annotate?
    ensures Inv(Step(s, a))
  {
    AnnotateKeepsPaired(s.reg, a.id, a.channelError);
  }

  lemma StepKeepsInv(s: System, a: Action)
    requires Inv(s) && Enabled(s, a)
    ensures Inv(Step(s, a))
  {
    match a {
      case Start(_, _, _, _) => StartKeepsInv(s, a);
      case Finish(_, _, _, _) => FinishKeepsInv(s, a);
      case Annotate(_, _) => AnnotateKeepsInv(s, a);
      case Cancel(_) =>
    }
  }

  lemma {:induction false} RunKeepsInv(s: System, run: seq<Action>)
    requires Inv(s) && Enables(s, run)
    ensures Inv(Exec(s, run))
    decreases |run|
  {
    if run != [] {
      StepKeepsInv(s, run[0]);
      RunKeepsInv(Step(s, run[0]), run[1..]);
    }
  }

  // ---- the main results ----

  function RunningIDs(byID: map<string, Record>): set<string> {
    set id | id in byID && byID[id].status.Running?
  }

  lemma {:induction false} SameSize(m: map<string, string>, values: set<string>)
    requires forall k :: k in m ==> m[k] in values
    requires forall v :: v in values ==> exists k :: k in m && m[k] == v
    requires forall j, k :: j in m && k in m && m[j] == m[k] ==> j == k
    ensures |m| == |values|
    decreases |m|
  {
    if m != map[] {
      var k :| k in m;
      var rest := m - {k};
      assert m.Keys == rest.Keys + {k};
      assert |m.Keys| == |rest.Keys| + 1;
      assert |m| == |m.Keys| && |rest| == |rest.Keys|;
      forall v | v in values - {m[k]}
        ensures exists j :: j in rest && rest[j] == v
      {
        var j :| j in m && m[j] == v;
        assert j in rest && rest[j] == v;
      }
      SameSize(rest, values - {m[k]});
    } else {
      assert values == {};
    }
  }

  /** In every interleaving: no session has two runs going, InFlight counts the running records,
      finished records are bounded, and every running record has its goroutine. */
  lemma SessionsAreExclusive(maxRecords: int, run: seq<Action>)
    requires Enables(Init(maxRecords), run)
    ensures var s := Exec(Init(maxRecords), run);
            && (forall j, k :: j in s.active && k in s.active && s.active[j] == s.active[k] ==> j == k)
            && |s.reg.bySession| == |RunningIDs(s.reg.byID)|
            && |FinishedIDs(s.reg.byID)| <= s.reg.Max()
            && s.active.Keys == RunningIDs(s.reg.byID)
  {
    RunKeepsInv(Init(maxRecords), run);
    var s := Exec(Init(maxRecords), run);
    forall id | id in RunningIDs(s.reg.byID)
      ensures exists k :: k in s.reg.bySession && s.reg.bySession[k] == id
    {
      assert RunningIn(s.reg.byID, id);
      assert s.reg.byID[id].session in s.reg.bySession;
    }
    SameSize(s.reg.bySession, RunningIDs(s.reg.byID));
  }

  /** Running records are never evicted, and terminal ones never change but for their channel
      error, until a finish evicts them. */
  lemma RecordsAreStable(s: System, a: Action, id: string)
    requires Inv(s) && Enabled(s, a) && id in s.reg.byID
    ensures var r, after := s.reg.byID[id], Step(s, a).reg.byID;
            if id in after then
              !r.status.Running? ==> after[id] == r.(channelError := after[id].channelError)
            else a.Finish? && (r.status.Running? ==> a.id == id)
  {
    if a.Finish? {
      FinishKeepsRecords(s, a);
    }
  }

  /** An ended context beats the runner's error, which beats its output; output and error exclude
      each other. */
  predicate TellsOutcome(r: Record, o: Outcome, now: nat) {
    && r.usage == o.usage && r.finishedAt == now
    && (o.ctxError.Some? ==>
          && r.status.Cancelled? && r.output == "" && !r.chatError
          && r.error == if o.failure.Some? then o.failure.value.text else o.ctxError.value)
    && (o.ctxError.None? && o.failure.Some? ==>
          && r.status.Failed? && r.output == ""
          && r.error == o.failure.value.text && r.chatError == o.failure.value.fromChat)
    && (o.ctxError.None? && o.failure.None? ==>
          r.status.Succeeded? && r.output == o.output && r.error == "" && !r.chatError)
  }

  /** The record a finish leaves tells the outcome. */
  lemma OutcomeIsRecorded(s: System, a: Action)
    requires Inv(s) && Enabled(s, a) && a.Finish? && a.id in Step(s, a).reg.byID
    ensures var r := Step(s, a).reg.byID[a.id];
            r.session == s.active[a.id] && TellsOutcome(r, a.outcome, a.now)
  {
    FinishKeepsRecords(s, a);
    assert a.id in s.active <==> RunningIn(s.reg.byID, a.id);
  }

  /** Start is refused exactly when the session has a run going, and names that run. */
  lemma ConflictIffBusy(s: System, id: string, session: string, input: string, now: nat)
    requires Inv(s)
    ensures var (reg, reply) := Runs.Start(s.reg, id, session, input, now);
            && (reply.Conflict? <==> exists busy :: RunningIn(s.reg.byID, busy) && s.reg.byID[busy].session == session)
            && (reply.Conflict? ==>
                  reg == s.reg && RunningIn(s.reg.byID, reply.runID) && s.reg.byID[reply.runID].session == session)
  {
    if session in s.reg.bySession {
      assert RunningIn(s.reg.byID, s.reg.bySession[session]);
    }
  }

  /** What a finish evicts is no younger than any finished record it keeps. */
  lemma OldestGoFirst(s: System, a: Action, gone: string, kept: string)
    requires Inv(s) && Enabled(s, a) && a.Finish?
    requires gone in s.reg.byID && gone !in Step(s, a).reg.byID && kept in FinishedIDs(Step(s, a).reg.byID)
    ensures TimeOf(Closed(s, a).byID, gone) <= TimeOf(Step(s, a).reg.byID, kept)
  {
    GoneIsOlder(Closed(s, a).byID, Closed(s, a).Max(), a.order, gone, kept);
  }

  lemma GoneIsOlder(byID: map<string, Record>, max: nat, order: seq<string>, gone: string, kept: string)
    requires Listing(order, byID)
    requires gone in byID && gone !in Evict(byID, max, order) && kept in FinishedIDs(Evict(byID, max, order))
    ensures TimeOf(byID, gone) <= TimeOf(Evict(byID, max, order), kept)
  {
    EvictsOldest(byID, max, order);
  }

  /** A run whose context was cancelled: running, or ended as cancelled, or evicted. */
  predicate Doomed(s: System, id: string) {
    && id in s.cancelled && id in s.used
    && (id in s.reg.byID ==> s.reg.byID[id].status.Running? || s.reg.byID[id].status.Cancelled?)
  }

  lemma StepKeepsDoomed(s: System, a: Action, id: string)
    requires Inv(s) && Enabled(s, a) && Doomed(s, id)
    ensures Doomed(Step(s, a), id)
  {
    if a.Finish? {
      FinishKeepsRecords(s, a);
    }
  }

  lemma {:induction false} RunKeepsDoomed(s: System, run: seq<Action>, id: string)
    requires Inv(s) && Enables(s, run) && Doomed(s, id)
    ensures Doomed(Exec(s, run), id)
    decreases |run|
  {
    if run != [] {
      StepKeepsDoomed(s, run[0], id);
      StepKeepsInv(s, run[0]);
      RunKeepsDoomed(Step(s, run[0]), run[1..], id);
    }
  }

  /** Once Cancel has found a run running, whatever happens next it never ends as succeeded or
      failed, even if its runner returned a result. */
  lemma CancelIsFinal(s: System, id: string, run: seq<Action>)
    requires Inv(s) && RunningIn(s.reg.byID, id) && Enables(Step(s, Cancel(id)), run)
    ensures var after := Exec(Step(s, Cancel(id)), run).reg.byID;
            id in after && !after[id].status.Running? ==> after[id].status.Cancelled?
  {
    StepKeepsInv(s, Action.Cancel(id));
    RunKeepsDoomed(Step(s, Action.Cancel(id)), run, id);
  }

  // ---- does a run survive its own eviction? ----

  lemma {:induction false} Oldest(byID: map<string, Record>, ids: set<string>) returns (first: string)
    requires ids != {} && ids <= byID.Keys
    ensures first in ids && forall id :: id in ids ==> TimeOf(byID, first) <= TimeOf(byID, id)
    decreases |ids|
  {
    var id :| id in ids;
    if ids == {id} {
      first := id;
    } else {
      var rest := ids - {id};
      assert rest != {};
      first := Oldest(byID, rest);
      if TimeOf(byID, id) < TimeOf(byID, first) {
        first := id;
      }
    }
  }

  /** The ids listed oldest first. */
  ghost predicate Lists(order: seq<string>, byID: map<string, Record>, ids: set<string>) {
    && (forall id :: id in order <==> id in ids)
    && (forall i, j :: 0 <= i < j < |order| ==> order[i] != order[j])
    && (forall i, j :: 0 <= i < j < |order| ==> TimeOf(byID, order[i]) <= TimeOf(byID, order[j]))
  }

  lemma {:induction false} SomeOrder(byID: map<string, Record>, ids: set<string>) returns (order: seq<string>)
    requires ids <= byID.Keys
    ensures Lists(order, byID, ids)
    decreases |ids|
  {
    if ids == {} {
      order := [];
    } else {
      var first := Oldest(byID, ids);
      var rest := SomeOrder(byID, ids - {first});
      order := PutFirst(byID, ids - {first}, rest, first);
    }
  }

  lemma PutFirst(byID: map<string, Record>, ids: set<string>, rest: seq<string>, first: string)
    returns (order: seq<string>)
    requires Lists(rest, byID, ids) && first !in ids
    requires forall id :: id in ids ==> TimeOf(byID, first) <= TimeOf(byID, id)
    ensures order == [first] + rest && Lists(order, byID, ids + {first})
  {
    order := [first] + rest;
    forall j | 0 < j < |order|
      ensures order[j] in ids
    {
      assert order[j] in rest;
    }
  }

  /** Some finished run is strictly older than t. */
  ghost predicate SomeOlder(byID: map<string, Record>, t: nat) {
    exists other :: other in FinishedIDs(byID) && TimeOf(byID, other) < t
  }

  /** A finished run survives every way the eviction may break ties exactly when there is room, or
      some other finished run is strictly older. */
  lemma SurvivesIff(byID: map<string, Record>, max: nat, id: string)
    requires max > 0 && id in FinishedIDs(byID) && |FinishedIDs(byID)| <= max + 1
    ensures (forall order :: Listing(order, byID) ==> id in Evict(byID, max, order)) <==>
            (|FinishedIDs(byID)| <= max || SomeOlder(byID, TimeOf(byID, id)))
  {
    var room := |FinishedIDs(byID)| <= max;
    var older := SomeOlder(byID, TimeOf(byID, id));
    if room || older {
      forall order | Listing(order, byID)
        ensures id in Evict(byID, max, order)
      {
        StaysListed(byID, max, id, order);
      }
    } else {
      var others := FinishedIDs(byID) - {id};
      var rest := SomeOrder(byID, others);
      var order := PutFirst(byID, others, rest, id);
      assert others + {id} == FinishedIDs(byID);
      assert Listing(order, byID);
      EvictionCounts(byID, max, order);
      assert id in order[..Extra(order, max)];
    }
  }

  lemma StaysListed(byID: map<string, Record>, max: nat, id: string, order: seq<string>)
    requires Listing(order, byID) && id in FinishedIDs(byID) && |FinishedIDs(byID)| <= max + 1
    requires |FinishedIDs(byID)| <= max ||
             SomeOlder(byID, TimeOf(byID, id))
    ensures id in Evict(byID, max, order)
  {
    EvictionCounts(byID, max, order);
    if |order| == max + 1 {
      assert order[..1] == [order[0]];
    } else {
      assert order[..Extra(order, max)] == [];
    }
  }

  lemma OlderAfterClose(before: map<string, Record>, after: map<string, Record>, id: string)
    requires FinishedIDs(after) == FinishedIDs(before) + {id} && id in after && before.Keys == after.Keys
    requires forall other :: other in before && other != id ==> after[other] == before[other]
    requires id !in FinishedIDs(before)
    ensures SomeOlder(after, TimeOf(after, id)) <==> SomeOlder(before, TimeOf(after, id))
  {
    forall other | other in FinishedIDs(before)
      ensures TimeOf(after, other) == TimeOf(before, other)
    {
    }
  }

  lemma FinishEvicts(s: System, id: string, o: Outcome, now: nat, order: seq<string>)
    requires Manned(s) && id in s.active && (id in s.cancelled ==> o.ctxError.Some?)
    ensures var closed := Close(s.reg, id, s.active[id], o, now);
            && (Enabled(s, Finish(id, o, now, order)) <==> Listing(order, closed.byID))
            && Step(s, Finish(id, o, now, order)).reg.byID == Evict(closed.byID, closed.Max(), order)
  {
  }

  /** A run survives its own finish, however ties are broken, exactly when fewer than the maximum
      have finished, or one of them is strictly older. */
  lemma SurvivesOwnFinishIff(s: System, id: string, o: Outcome, now: nat)
    requires Inv(s) && id in s.active && (id in s.cancelled ==> o.ctxError.Some?)
    ensures var max := if s.reg.maxRecords <= 0 then 512 else s.reg.maxRecords;
            (forall order :: Enabled(s, Finish(id, o, now, order)) ==>
               id in Step(s, Finish(id, o, now, order)).reg.byID) <==>
            (|FinishedIDs(s.reg.byID)| < max ||
             SomeOlder(s.reg.byID, Time(Runs.Ended(s.reg.byID[id], o, now))))
  {
    var closed := Close(s.reg, id, s.active[id], o, now);
    CloseEndsOne(s.reg, id, o, now);
    assert id !in FinishedIDs(s.reg.byID);
    SurvivesIff(closed.byID, closed.Max(), id);
    OlderAfterClose(s.reg.byID, closed.byID, id);
    forall order
      ensures Enabled(s, Finish(id, o, now, order)) <==> Listing(order, closed.byID)
      ensures Step(s, Finish(id, o, now, order)).reg.byID == Evict(closed.byID, closed.Max(), order)
    {
      FinishEvicts(s, id, o, now, order);
    }
  }

  /** With a clock that has moved on since the last time it was read, a run always survives the
      eviction it causes. */
  lemma StrictClockKeepsTheRun(s: System, a: Action)
    requires Inv(s) && Enabled(s, a) && a.Finish? && a.now > s.last
    ensures a.id in Step(s, a).reg.byID
  {
    var closed := Closed(s, a);
    CloseEndsOne(s.reg, a.id, a.outcome, a.now);
    if |FinishedIDs(closed.byID)| > closed.Max() {
      var other :| other in FinishedIDs(s.reg.byID);
      assert TimeOf(closed.byID, other) < TimeOf(closed.byID, a.id);
    }
    StaysListed(closed.byID, closed.Max(), a.id, a.order);
  }

  lemma Prepend(s: System, a: Action, rest: seq<Action>)
    requires Enabled(s, a) && Enables(Step(s, a), rest)
    ensures Enables(s, [a] + rest) && Exec(s, [a] + rest) == Exec(Step(s, a), rest)
  {
    assert ([a] + rest)[1..] == rest;
  }

  const DONE := Outcome("", Llm.NO_USAGE, None, None)

  /** Two runs finish at the same reading of the clock, and the sort lists the later one first. */
  function TiedFinishes(a: string, b: string, now: nat): seq<Action> {
    [Start(a, a, "", now)] +
    ([Start(b, b, "", now)] + ([Finish(a, DONE, now, [a])] + ([Finish(b, DONE, now, [b, a])] + [])))
  }

  function TwoGoing(a: string, b: string, now: nat): Registry {
    Registry(map[a := Started(a, a, "", now), b := Started(b, b, "", now)], map[a := a, b := b], 1)
  }

  function OneGoing(a: string, b: string, now: nat): Registry {
    Registry(map[a := Ended(Started(a, a, "", now), DONE, now), b := Started(b, b, "", now)], map[b := b], 1)
  }

  lemma FirstCloses(a: string, b: string, now: nat)
    requires a != b
    ensures Close(TwoGoing(a, b, now), a, a, DONE, now) == OneGoing(a, b, now)
    ensures FinishedIDs(OneGoing(a, b, now).byID) == {a}
  {
    assert map[a := a, b := b] - {a} == map[b := b];
  }

  lemma OneFits(byID: map<string, Record>, a: string)
    requires FinishedIDs(byID) == {a}
    ensures Listing([a], byID) && Evict(byID, 1, [a]) == byID
  {
    assert [a][..0] == [];
  }

  lemma FirstOfTwoFinishes(s: System, a: string, b: string, now: nat)
    requires a != b && s.cancelled == {} && s.active == map[a := a, b := b] && s.reg == TwoGoing(a, b, now)
    ensures Enabled(s, Finish(a, DONE, now, [a]))
    ensures var s' := Step(s, Finish(a, DONE, now, [a]));
            s'.reg == OneGoing(a, b, now) && s'.active == map[b := b] && s'.cancelled == {}
  {
    FirstCloses(a, b, now);
    OneFits(OneGoing(a, b, now).byID, a);
  }

  lemma SecondEvictsItself(s: System, a: string, b: string, now: nat)
    requires a != b && s.cancelled == {} && s.active == map[b := b]
    requires s.reg == OneGoing(a, b, now)
    ensures Enabled(s, Finish(b, DONE, now, [b, a]))
    ensures b !in Step(s, Finish(b, DONE, now, [b, a])).reg.byID
  {
    var closed := Close(s.reg, b, b, DONE, now);
    assert FinishedIDs(closed.byID) == {a, b};
    assert Listing([b, a], closed.byID);
    assert [b, a][..1] == [b];
  }

  /** The failing case is reached from the start: with room for one record, a run that finishes at
      the same time as another can be evicted by its own finish. */
  lemma OwnFinishEvicts(a: string, b: string, now: nat)
    requires a != b
    ensures Enables(Init(1), TiedFinishes(a, b, now)) && b !in Exec(Init(1), TiedFinishes(a, b, now)).reg.byID
  {
    var s1 := Step(Init(1), Start(a, a, "", now));
    var s2 := Step(s1, Start(b, b, "", now));
    assert s2.reg == TwoGoing(a, b, now);
    FirstOfTwoFinishes(s2, a, b, now);
    var s3 := Step(s2, Finish(a, DONE, now, [a]));
    SecondEvictsItself(s3, a, b, now);
    var r3 := [Finish(b, DONE, now, [b, a])] + [];
    var r2 := [Finish(a, DONE, now, [a])] + r3;
    Prepend(s3, Finish(b, DONE, now, [b, a]), []);
    Prepend(s2, Finish(a, DONE, now, [a]), r3);
    Prepend(s1, Start(b, b, "", now), r2);
    Prepend(Init(1), Start(a, a, "", now), [Start(b, b, "", now)] + r2);
  }
}
