/** The Client object: its fields updated in place, one method per locked section, channel
    operation or counter update. Each is proved against the step of McpClient that it performs;
    the ghost parameters say where the goroutines are. */
module McpConnection {
  import opened Wrappers
  import opened McpClient

  /** Every pending key is that of a call with a channel. */
  predicate Keyed(pending: map<string, nat>, slots: map<nat, Option<Response>>) {
    forall key :: key in pending ==> pending[key] in slots && Key(pending[key]) == key
  }

  class Client {
    var pending: map<string, nat>
    var nextID: nat
    var closed: bool
    var slots: map<nat, Option<Response>>

    ghost function View(calls: map<nat, Call>, reader: Reader): State
      reads this
    {
      State(pending, nextID, closed, calls, slots, reader)
    }

    constructor ()
      ensures View(map[], Reading) == Init()
    {
      pending, nextID, closed, slots := map[], 0, false, map[];
    }

    /** The beginning of call: refused when the client is closed. */
    method Number(ghost calls: map<nat, Call>, ghost reader: Reader) returns (id: Option<nat>)
      modifies this
      ensures old(closed) ==> id.None? && View(calls, reader) == old(View(calls, reader))
      ensures !old(closed) ==>
                id.Some? && View(calls[id.value := Numbered], reader) == Step(old(View(calls, reader)), Action.Number)
    {
      if closed {
        return None;
      }
      nextID := nextID + 1;
      slots := slots[nextID := None];
      id := Some(nextID);
    }

    /** Registers the channel and writes the request; `failure` is the error of the write. */
    method Write(call: nat, failure: Option<string>, ghost calls: map<nat, Call>, ghost reader: Reader)
      requires Enabled(View(calls, reader), Action.Write(call, failure))
      modifies this
      ensures var after := Step(old(View(calls, reader)), Action.Write(call, failure));
              View(after.calls, after.reader) == after
    {
      pending := pending[Key(call) := call];
    }

    /** Gives up on a call that could not be written, or whose context has ended. */
    method Drop(call: nat)
      modifies this
      ensures pending == old(pending) - {Key(call)}
      ensures unchanged(`nextID, `closed, `slots)
    {
      pending := pending - {Key(call)};
    }

    /** Receives from the call's channel. */
    method Receive(call: nat, ghost calls: map<nat, Call>, ghost reader: Reader) returns (r: Response)
      requires Enabled(View(calls, reader), Action.Receive(call))
      modifies this
      ensures View(calls[call := Returned(Answer(r))], reader) == Step(old(View(calls, reader)), Action.Receive(call))
    {
      r := slots[call].value;
      slots := slots[call := None];
    }

    /** The locked lookup of the read loop. */
    method Look(response: Response, ghost calls: map<nat, Call>) returns (to: Option<nat>)
      modifies this
      ensures View(calls, if to.Some? then McpClient.Sending(to.value, response) else Reading) ==
              Step(old(View(calls, Reading)), Action.Look(response))
    {
      to := None;
      if response.key in pending {
        to := Some(pending[response.key]);
        pending := pending - {response.key};
      }
    }

    /** Sends on a channel with room. */
    method Send(call: nat, response: Response, ghost calls: map<nat, Call>)
      requires Enabled(View(calls, McpClient.Sending(call, response)), Action.Send)
      modifies this
      ensures View(calls, Reading) == Step(old(View(calls, McpClient.Sending(call, response))), Action.Send)
    {
      slots := slots[call := Some(response)];
    }

    method FailOne(key: string, error: string)
      requires key in pending
      modifies `pending, `slots
      ensures pending == old(pending) - {key}
      ensures slots == old(slots)[old(pending)[key] := Some(Response(key, "", Some(error)))]
    {
      slots := slots[pending[key] := Some(Response(key, "", Some(error)))];
      pending := pending - {key};
    }

    /** Every pending call is answered with the reader's error and forgotten. */
    method FailAll(error: string)
      requires Keyed(pending, slots)
      modifies `pending, `slots
      ensures pending == map[] && slots == Failed(old(pending), old(slots), error)
    {
      ghost var done: map<string, nat> := map[];
      ghost var before, all := slots, pending;
      while pending != map[]
        invariant Halfway(done, pending, all, slots, before, error)
        decreases |pending.Keys|
      {
        var key :| key in pending;
        FailsOneMore(done, pending, all, slots, before, error, key);
        SmallerSet(pending.Keys - {key}, pending.Keys);
        done := done[key := pending[key]];
        FailOne(key, error);
      }
      HalfwayAtLast(done, all, slots, before, error);
    }

    method Close()
      modifies this
      ensures closed && unchanged(`pending, `nextID, `slots)
    {
      closed := true;
    }
  }

  lemma FailedOneMore(done: map<string, nat>, slots: map<nat, Option<Response>>, error: string, call: nat)
    requires call in slots
    ensures Failed(done[Key(call) := call], slots, error) ==
            Failed(done, slots, error)[call := Some(Response(Key(call), "", Some(error)))]
  {
    forall other | other != call
      ensures Key(other) != Key(call)
    {
      KeysDiffer(other, call);
    }
  }

  /** Half-way through failAll: `done` is answered, `rest` is still pending. */
  ghost predicate Halfway(done: map<string, nat>, rest: map<string, nat>, all: map<string, nat>,
                          slots: map<nat, Option<Response>>, before: map<nat, Option<Response>>, error: string)
  {
    done + rest == all && Keyed(rest, slots) && slots == Failed(done, before, error)
  }

  lemma HalfwayAtLast(done: map<string, nat>, all: map<string, nat>, slots: map<nat, Option<Response>>,
                      before: map<nat, Option<Response>>, error: string)
    requires Halfway(done, map[], all, slots, before, error)
    ensures slots == Failed(all, before, error)
  {
    assert done + map[] == done;
  }

  lemma FailsOneMore(done: map<string, nat>, rest: map<string, nat>, all: map<string, nat>,
                     slots: map<nat, Option<Response>>, before: map<nat, Option<Response>>, error: string, key: string)
    requires Halfway(done, rest, all, slots, before, error) && key in rest
    ensures Halfway(done[key := rest[key]], rest - {key}, all,
                    slots[rest[key] := Some(Response(key, "", Some(error)))], before, error)
  {
    FailedOneMore(done, before, error, rest[key]);
    assert done[key := rest[key]] + (rest - {key}) == done + rest;
  }

  lemma SmallerSet(a: set<string>, b: set<string>)
    requires a < b
    ensures |a| < |b|
  {
    assert b == a + (b - a);
    assert |b| == |a| + |b - a|;
  }
}
