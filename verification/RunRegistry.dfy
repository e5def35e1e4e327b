/** The Registry object: two maps updated in place, one method per locked section, each proved
    against the function of Runs that the system model runs as one step. */
module RunRegistry {
  import opened Wrappers
  import opened Llm
  import Text
  import Runs

  class Registry {
    var byID: map<string, Runs.Record>
    var bySession: map<string, string>
    const maxRecords: int

    function View(): Runs.Registry
      reads this
    {
      Runs.Registry(byID, bySession, maxRecords)
    }

    constructor (maxRecords: int)
      ensures View() == Runs.NewRegistry(maxRecords)
    {
      this.maxRecords := maxRecords;
      byID, bySession := map[], map[];
    }

    /** Start up to the goroutine; `minted` names the session when the caller's name is blank. */
    method Start(id: string, sessionID: string, minted: string, input: string, now: nat)
      returns (reply: Runs.StartReply)
      modifies this
      ensures var session := if Text.AllSpaces(sessionID) then "s_" + minted else sessionID;
              (View(), reply) == Runs.Start(old(View()), id, session, input, now)
    {
      var session := sessionID;
      Text.BlankIffNothingLeft(sessionID);
      if Text.TrimSpace(sessionID) == "" {
        session := "s_" + minted;
      }
      if session in bySession {
        return Runs.Conflict(bySession[session]);
      }
      var rec := Runs.Record(id, session, input, "", "", Runs.Running, false, "", NO_USAGE, now, 0);
      byID := byID[id := rec];
      bySession := bySession[session := id];
      reply := Runs.Registered(rec);
    }

    method Get(id: string) returns (r: Option<Runs.Record>)
      ensures r == if id in byID then Some(byID[id]) else None
    {
      r := if id in byID then Some(byID[id]) else None;
    }

    /** The locked part of Cancel: a running run's context is to be cancelled. */
    method Cancel(id: string) returns (reply: Runs.CancelReply)
      ensures reply == Runs.Cancel(View(), id)
    {
      if id !in byID {
        return Runs.NotFound;
      }
      var snap := byID[id];
      if !snap.status.Running? {
        return Runs.AlreadyFinished(snap);
      }
      reply := Runs.Requested;
    }

    method Annotate(id: string, channelError: string)
      modifies this
      ensures View() == Runs.Annotate(old(View()), id, channelError)
    {
      if id in byID {
        byID := byID[id := byID[id].(channelError := channelError)];
      }
    }

    method InFlight() returns (n: nat)
      ensures n == |bySession|
    {
      n := |bySession|;
    }

    /** `order` is the outcome of sorting the finished runs by time. */
    method Finish(id: string, session: string, o: Runs.Outcome, now: nat, order: seq<string>)
      requires id in byID ==> Runs.Listing(order, Runs.Close(View(), id, session, o, now).byID)
      modifies this
      ensures View() == Runs.Finish(old(View()), id, session, o, now, order)
    {
      if id !in byID {
        return;
      }
      var rec := byID[id].(finishedAt := now, usage := o.usage);
      if o.ctxError.Some? {
        rec := rec.(status := Runs.Cancelled);
        if o.failure.Some? {
          rec := rec.(error := o.failure.value.text);
        } else {
          rec := rec.(error := o.ctxError.value);
        }
      } else if o.failure.Some? {
        rec := rec.(status := Runs.Failed, error := o.failure.value.text, chatError := o.failure.value.fromChat);
      } else {
        rec := rec.(status := Runs.Succeeded, output := o.output);
      }
      byID := byID[id := rec];
      if session in bySession && bySession[session] == id {
        bySession := bySession - {session};
      }
      EvictLocked(order);
    }

    /** Counts the finished runs and removes the surplus from the front of their order. */
    method EvictLocked(order: seq<string>)
      requires Runs.Listing(order, byID)
      modifies this
      ensures View() == old(View()).(byID := Runs.Evict(old(byID), old(View()).Max(), order))
    {
      var max := View().Max();
      var finished := Finished();
      Runs.ListedOnce(order, finished);
      var extra := |finished| - max;
      if extra <= 0 {
        assert order[..Runs.Extra(order, max)] == [];
        assert byID - {} == byID;
        return;
      }
      for i := 0 to extra
        invariant byID == old(byID) - (set id | id in order[..i])
        invariant bySession == old(bySession)
      {
        assert order[..i + 1] == order[..i] + [order[i]];
        byID := byID - {order[i]};
      }
    }

    method Finished() returns (ids: set<string>)
      ensures ids == Runs.FinishedIDs(byID)
    {
      ids := {};
      var rest := byID.Keys;
      while rest != {}
        invariant rest <= byID.Keys
        invariant ids == (set id | id in byID && id !in rest && !byID[id].status.Running?)
        decreases |rest|
      {
        var id :| id in rest;
        rest := rest - {id};
        if !byID[id].status.Running? {
          ids := ids + {id};
        }
      }
    }
  }
}
