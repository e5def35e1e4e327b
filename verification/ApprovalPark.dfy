/** The Park object: the map of waiting approvals and their one-slot channels, updated in place. */
module ApprovalPark {
  import opened Wrappers
  import opened Approvals

  class Park {
    var wait: map<string, int>
    var slots: map<string, Option<bool>>

    ghost function View(askers: map<string, Asker>, deciders: seq<Decider>): State
      reads this
    {
      State(wait, slots, askers, deciders)
    }

    constructor ()
      ensures View(map[], []) == Init()
    {
      wait, slots := map[], map[];
    }

    /** Approve up to its select. */
    method Ask(id: string, deadline: int, ghost askers: map<string, Asker>, ghost deciders: seq<Decider>)
      requires id !in askers
      modifies this
      ensures View(askers[id := Waiting], deciders) == Step(old(View(askers, deciders)), Action.Ask(id, deadline))
    {
      slots := slots[id := None];
      wait := wait[id := deadline];
    }

    method Drop(id: string)
      modifies this
      ensures wait == old(wait) - {id} && unchanged(`slots)
    {
      wait := wait - {id};
    }

    /** The receiving branch of Approve's select. */
    method Receive(id: string, ghost askers: map<string, Asker>, ghost deciders: seq<Decider>) returns (allow: bool)
      requires Enabled(View(askers, deciders), Action.Receive(id))
      modifies this
      ensures View(askers[id := Returned(Answered(allow))], deciders) ==
              Step(old(View(askers, deciders)), Action.Receive(id))
    {
      allow := slots[id].value;
      slots := slots[id := None];
    }

    /** Decide without interruption: the removal, then the send unless it is too late. */
    method Decide(id: string, allow: bool, now: int, ghost askers: map<string, Asker>, ghost deciders: seq<Decider>)
      returns (reply: Reply)
      requires Inv(View(askers, deciders))
      modifies this
      ensures var removed := Step(old(View(askers, deciders)), Remove(id, allow));
              if old(id in wait) then
                && Enabled(removed, Send(|deciders|, now))
                && View(askers, deciders + [Replied(id, allow, reply)]) == Step(removed, Send(|deciders|, now))
              else View(askers, deciders + [Replied(id, allow, reply)]) == removed
      ensures reply == (if old(id !in wait) then Unknown else if now > old(wait)[id] then Expired else Accepted)
    {
      if id !in wait {
        return Unknown;
      }
      assert Untaken(View(askers, deciders), id);
      var deadline := wait[id];
      wait := wait - {id};
      if now > deadline {
        return Expired;
      }
      slots := slots[id := Some(allow)];
      reply := Accepted;
    }
  }
}
