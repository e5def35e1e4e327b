/** The run registry: live and finished runs by id, the running one by session, and eviction of
    the oldest finished ones. Each locked section is one function on the registry. */
module Runs {
  import opened Wrappers
  import opened Llm

  datatype Status = Running | Succeeded | Failed | Cancelled

  /** Zero times stand for the zero time. */
  datatype Record = Record(
    id: string,
    session: string,
    input: string,
    output: string,
    error: string,
    status: Status,
    chatError: bool,
    channelError: string,
    usage: Usage,
    startedAt: nat,
    finishedAt: nat)

  datatype Registry = Registry(byID: map<string, Record>, bySession: map<string, string>, maxRecords: int) {
    function Max(): (n: nat)
      ensures n > 0
    {
      if maxRecords <= 0 then 512 else maxRecords
    }
  }

  function NewRegistry(maxRecords: int): Registry {
    Registry(map[], map[], maxRecords)
  }

  function Started(id: string, session: string, input: string, now: nat): Record {
    Record(id, session, input, "", "", Running, false, "", NO_USAGE, now, 0)
  }

  datatype StartReply = Conflict(runID: string) | Registered(record: Record)

  /** Start, the locked part: one running run per session. */
  function Start(g: Registry, id: string, session: string, input: string, now: nat): (Registry, StartReply) {
    if session in g.bySession then (g, Conflict(g.bySession[session]))
    else
      var r := Started(id, session, input, now);
      (g.(byID := g.byID[id := r], bySession := g.bySession[session := id]), Registered(r))
  }

  datatype Failure = Failure(text: string, fromChat: bool)

  /** What the runner returned, and the error of its context if that has ended. */
  datatype Outcome = Outcome(output: string, usage: Usage, failure: Option<Failure>, ctxError: Option<string>)

  function Ended(r: Record, o: Outcome, now: nat): (e: Record)
    ensures !e.status.Running? && (o.ctxError.Some? <==> e.status.Cancelled?)
    ensures e.status.Succeeded? <==> o.ctxError.None? && o.failure.None?
  {
    var f := r.(finishedAt := now, usage := o.usage);
    if o.ctxError.Some? then
      f.(status := Cancelled, error := if o.failure.Some? then o.failure.value.text else o.ctxError.value)
    else if o.failure.Some? then
      f.(status := Failed, error := o.failure.value.text, chatError := o.failure.value.fromChat)
    else f.(status := Succeeded, output := o.output)
  }

  function Time(r: Record): nat {
    if r.finishedAt == 0 then r.startedAt else r.finishedAt
  }

  function TimeOf(byID: map<string, Record>, id: string): nat {
    if id in byID then Time(byID[id]) else 0
  }

  function FinishedIDs(byID: map<string, Record>): set<string> {
    set id | id in byID && !byID[id].status.Running?
  }

  /** The finished runs, oldest first; sort.Slice may break ties in any way. */
  ghost predicate Listing(order: seq<string>, byID: map<string, Record>) {
    && (forall id :: id in order <==> id in FinishedIDs(byID))
    && (forall i, j :: 0 <= i < j < |order| ==> order[i] != order[j])
    && (forall i, j :: 0 <= i < j < |order| ==> TimeOf(byID, order[i]) <= TimeOf(byID, order[j]))
  }

  function Extra(order: seq<string>, max: nat): nat {
    if |order| > max then |order| - max else 0
  }

  function Evict(byID: map<string, Record>, max: nat, order: seq<string>): map<string, Record> {
    byID - (set id | id in order[..Extra(order, max)])
  }

  /** finish up to the eviction. */
  function Close(g: Registry, id: string, session: string, o: Outcome, now: nat): Registry
    requires id in g.byID
  {
    g.(byID := g.byID[id := Ended(g.byID[id], o, now)],
       bySession := if session in g.bySession && g.bySession[session] == id then g.bySession - {session}
                    else g.bySession)
  }

  /** finish; `order` is what the sort of the eviction yields. */
  function Finish(g: Registry, id: string, session: string, o: Outcome, now: nat, order: seq<string>): Registry {
    if id !in g.byID then g
    else
      var closed := Close(g, id, session, o, now);
      closed.(byID := Evict(closed.byID, closed.Max(), order))
  }

  /** The only annotation there is: a channel delivery error. */
  function Annotate(g: Registry, id: string, channelError: string): Registry {
    if id !in g.byID then g else g.(byID := g.byID[id := g.byID[id].(channelError := channelError)])
  }

  datatype CancelReply = NotFound | AlreadyFinished(record: Record) | Requested

  function Cancel(g: Registry, id: string): CancelReply {
    if id !in g.byID then NotFound
    else if !g.byID[id].status.Running? then AlreadyFinished(g.byID[id])
    else Requested
  }

  // ---- cardinalities ----

  lemma {:induction false} ListedOnce(order: seq<string>, ids: set<string>)
    requires forall id :: id in order <==> id in ids
    requires forall i, j :: 0 <= i < j < |order| ==> order[i] != order[j]
    ensures |order| == |ids|
  {
    if order != [] {
      var n := |order| - 1;
      assert order == order[..n] + [order[n]];
      assert order[n] !in order[..n];
      forall id
        ensures id in order[..n] <==> id in ids - {order[n]}
      {
        assert id in order <==> id in order[..n] || id == order[n];
      }
      ListedOnce(order[..n], ids - {order[n]});
    }
  }

  /** The finished runs that an eviction keeps are the rest of the order. */
  lemma KeptOrder(byID: map<string, Record>, max: nat, order: seq<string>)
    requires Listing(order, byID)
    ensures var rest := order[Extra(order, max)..];
            forall id :: id in rest <==> id in FinishedIDs(Evict(byID, max, order))
  {
    var extra := Extra(order, max);
    forall id
      ensures id in order[extra..] <==> id in order && id !in order[..extra]
    {
      assert id in order <==> id in order[..extra] + order[extra..] by {
        assert order == order[..extra] + order[extra..];
      }
      if id in order[extra..] {
        var i :| extra <= i < |order| && order[i] == id;
      }
    }
  }

  lemma EvictionCounts(byID: map<string, Record>, max: nat, order: seq<string>)
    requires Listing(order, byID)
    ensures |order| == |FinishedIDs(byID)|
    ensures |FinishedIDs(Evict(byID, max, order))| == |order| - Extra(order, max)
  {
    ListedOnce(order, FinishedIDs(byID));
    KeptOrder(byID, max, order);
    ListedOnce(order[Extra(order, max)..], FinishedIDs(Evict(byID, max, order)));
  }

  /** An eviction removes the surplus, the oldest first, and nothing that runs. */
  lemma EvictsOldest(byID: map<string, Record>, max: nat, order: seq<string>)
    requires Listing(order, byID)
    ensures var kept := Evict(byID, max, order);
            && kept.Keys <= byID.Keys
            && (forall id :: id in kept ==> kept[id] == byID[id])
            && (forall id :: id in byID && byID[id].status.Running? ==> id in kept)
            && (forall id, gone :: id in FinishedIDs(kept) && gone in byID && gone !in kept ==>
                  TimeOf(byID, gone) <= TimeOf(byID, id))
            && |FinishedIDs(kept)| == if |FinishedIDs(byID)| > max then max else |FinishedIDs(byID)|
  {
    var kept, extra := Evict(byID, max, order), Extra(order, max);
    EvictionCounts(byID, max, order);
    KeptOrder(byID, max, order);
    forall id | id in byID && byID[id].status.Running?
      ensures id !in order[..extra]
    {
      assert id !in order;
    }
    forall id, gone | id in FinishedIDs(kept) && gone in byID && gone !in kept
      ensures TimeOf(byID, gone) <= TimeOf(byID, id)
    {
      assert id in order[extra..] && gone in order[..extra];
    }
  }
}
