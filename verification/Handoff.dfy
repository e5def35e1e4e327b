/** Handoff: a tool whose call runs a specialist agent. The recursion Run, tool batch, handoff,
    child Run ends because a child can no longer hand off and every Run has finitely many turns. */
module Handoff {
  import Text

  const HANDOFF := "handoff"

  datatype Specialist = Specialist(name: string, tools: seq<string>)

  // ---- the roster ----

  function AddSpecialist(byName: map<string, Specialist>, spec: Specialist): map<string, Specialist> {
    var name := Text.TrimSpace(spec.name);
    if name == "" then byName else byName[name := spec]
  }

  function Roster(specs: seq<Specialist>): map<string, Specialist> {
    if specs == [] then map[] else AddSpecialist(Roster(specs[..|specs| - 1]), specs[|specs| - 1])
  }

  /** Position i holds the last specialist of that name, white space around it aside. */
  predicate LastNamed(specs: seq<Specialist>, name: string, i: int) {
    && 0 <= i < |specs| && Text.TrimSpace(specs[i].name) == name
    && forall j :: i < j < |specs| ==> Text.TrimSpace(specs[j].name) != name
  }

  lemma LastNamedGrows(specs: seq<Specialist>, spec: Specialist, name: string)
    ensures (exists i :: LastNamed(specs + [spec], name, i)) <==>
              Text.TrimSpace(spec.name) == name || exists i :: LastNamed(specs, name, i)
  {
    var all := specs + [spec];
    if Text.TrimSpace(spec.name) == name {
      assert LastNamed(all, name, |specs|);
    } else {
      forall i | LastNamed(specs, name, i)
        ensures LastNamed(all, name, i)
      {
      }
      forall i | LastNamed(all, name, i)
        ensures LastNamed(specs, name, i)
      {
        assert forall j :: 0 <= j < |specs| ==> all[j] == specs[j];
      }
    }
  }

  /** A name is on the roster if and only if it is not blank and some specialist has it; it stands
      for the last one that has. */
  lemma {:induction false} RosterHasLast(specs: seq<Specialist>, name: string)
    ensures name in Roster(specs) <==> name != "" && exists i :: LastNamed(specs, name, i)
    ensures forall i :: name in Roster(specs) && LastNamed(specs, name, i) ==> Roster(specs)[name] == specs[i]
  {
    if specs != [] {
      var n := |specs| - 1;
      RosterHasLast(specs[..n], name);
      LastNamedGrows(specs[..n], specs[n], name);
      assert specs[..n] + [specs[n]] == specs;
      forall i | name in Roster(specs) && LastNamed(specs, name, i)
        ensures Roster(specs)[name] == specs[i]
      {
        if i < n {
          assert Text.TrimSpace(specs[n].name) != name;
          assert LastNamed(specs[..n], name, i);
        }
      }
    }
  }

  method NewRoster(specs: seq<Specialist>) returns (byName: map<string, Specialist>)
    ensures byName == Roster(specs)
    ensures forall name :: name in byName <==> name != "" && exists i :: LastNamed(specs, name, i)
    ensures forall name, i :: name in byName && LastNamed(specs, name, i) ==> byName[name] == specs[i]
  {
    byName := map[];
    for i := 0 to |specs|
      invariant byName == Roster(specs[..i])
    {
      assert specs[..i + 1][..i] == specs[..i];
      byName := AddSpecialist(byName, specs[i]);
    }
    assert specs[..|specs|] == specs;
    forall name
      ensures name in byName <==> name != "" && exists i :: LastNamed(specs, name, i)
      ensures forall i :: name in byName && LastNamed(specs, name, i) ==> byName[name] == specs[i]
    {
      RosterHasLast(specs, name);
    }
  }

  /** The tools a specialist gets: never the handoff tool, and only the allowed ones if any
      are named. */
  predicate Granted(allow: seq<string>, tool: string) {
    tool != HANDOFF && (allow == [] || tool in allow)
  }

  function FilterTools(all: seq<string>, allow: seq<string>): (out: seq<string>)
    ensures forall t :: t in out <==> t in all && Granted(allow, t)
  {
    if all == [] then []
    else
      var t := all[|all| - 1];
      assert all == all[..|all| - 1] + [t];
      FilterTools(all[..|all| - 1], allow) + if Granted(allow, t) then [t] else []
  }

  /** filterTools. */
  method FilterToolsLoop(all: seq<string>, allow: seq<string>) returns (out: seq<string>)
    ensures out == FilterTools(all, allow)
  {
    var allowSet: set<string> := {};
    for i := 0 to |allow|
      invariant allowSet == set t | t in allow[..i]
    {
      assert allow[..i + 1] == allow[..i] + [allow[i]];
      allowSet := allowSet + {allow[i]};
    }
    assert allow[..|allow|] == allow;
    out := [];
    for i := 0 to |all|
      invariant out == FilterTools(all[..i], allow)
    {
      assert all[..i + 1][..i] == all[..i];
      if all[i] != HANDOFF && (allowSet == {} || all[i] in allowSet) {
        assert allow != [] ==> allow[0] in allowSet;
        out := out + [all[i]];
      }
    }
    assert all[..|all|] == all;
  }

  // ---- the recursion ----

  /** A tool call with its decoded arguments; a bad argument text decodes to blanks. */
  datatype Call = Call(name: string, agent: string, goal: string)

  datatype Reply = Done | ChatFailed | Plain | Batch(calls: seq<Call>)

  /** What every agent of the tree observes: a place is the path of turns and call positions
      from the root. `Done` is a finished context, seen before the Chat call. */
  type Env = seq<nat> -> Reply

  /** Chat calls made, children started, and how deep agents were nested. */
  datatype Cost = Cost(chats: nat, children: nat, depth: nat) {
    function Add(other: Cost): Cost {
      Cost(chats + other.chats, children + other.children, if depth < other.depth then other.depth else depth)
    }
  }

  predicate CanHandOff(tools: seq<string>) {
    HANDOFF in tools
  }

  /** The call starts a specialist: the tool is there, both arguments are, and the name is known. */
  predicate Starts(roster: map<string, Specialist>, tools: seq<string>, call: Call) {
    && call.name == HANDOFF && CanHandOff(tools)
    && Text.TrimSpace(call.agent) in roster && Text.TrimSpace(call.goal) != ""
  }

  /** The cost of a Run from a given turn on. */
  function Turns(roster: map<string, Specialist>, maxTurns: nat, tools: seq<string>, env: Env,
                 place: seq<nat>, turn: nat): Cost
    decreases CanHandOff(tools), maxTurns + 1 - turn, 1, 0
  {
    if turn > maxTurns then Cost(0, 0, 0)
    else
      match env(place + [turn])
      case Done => Cost(0, 0, 0)
      case ChatFailed => Cost(1, 0, 0)
      case Plain => Cost(1, 0, 0)
      case Batch(calls) =>
        Cost(1, 0, 0)
          .Add(Calls(roster, maxTurns, tools, env, place + [turn], turn, calls, 0))
          .Add(Turns(roster, maxTurns, tools, env, place, turn + 1))
  }

  /** The cost of the calls of one batch from position i on. */
  function Calls(roster: map<string, Specialist>, maxTurns: nat, tools: seq<string>, env: Env,
                 place: seq<nat>, turn: nat, calls: seq<Call>, i: nat): Cost
    requires turn <= maxTurns && i <= |calls|
    decreases CanHandOff(tools), maxTurns + 1 - turn, 0, |calls| - i
  {
    if i == |calls| then Cost(0, 0, 0)
    else
      var rest := Calls(roster, maxTurns, tools, env, place, turn, calls, i + 1);
      if Starts(roster, tools, calls[i]) then
        Nested(Turns(roster, maxTurns, ChildTools(roster, tools, calls[i]), env, place + [i], 1)).Add(rest)
      else rest
  }

  /** The cost of a child, seen from the call that started it. */
  function Nested(child: Cost): Cost {
    Cost(child.chats, 1 + child.children, 1 + child.depth)
  }

  function ChildTools(roster: map<string, Specialist>, tools: seq<string>, call: Call): (out: seq<string>)
    requires Starts(roster, tools, call)
    ensures !CanHandOff(out)
  {
    FilterTools(tools, roster[Text.TrimSpace(call.agent)].tools)
  }

  /** Without the handoff tool a Run starts no child and makes at most one Chat call a turn. */
  lemma {:induction false} NoHandoffNoChild(roster: map<string, Specialist>, maxTurns: nat, tools: seq<string>,
                                            env: Env, place: seq<nat>, turn: nat)
    requires !CanHandOff(tools) && turn <= maxTurns + 1
    ensures var c := Turns(roster, maxTurns, tools, env, place, turn);
            c.children == 0 && c.depth == 0 && c.chats <= maxTurns + 1 - turn
    decreases maxTurns + 1 - turn
  {
    if turn <= maxTurns && env(place + [turn]).Batch? {
      NoHandoffNoCost(roster, maxTurns, tools, env, place + [turn], turn, env(place + [turn]).calls, 0);
      NoHandoffNoChild(roster, maxTurns, tools, env, place, turn + 1);
    }
  }

  lemma {:induction false} NoHandoffNoCost(roster: map<string, Specialist>, maxTurns: nat, tools: seq<string>, env: Env,
                                           place: seq<nat>, turn: nat, calls: seq<Call>, i: nat)
    requires !CanHandOff(tools) && turn <= maxTurns && i <= |calls|
    ensures Calls(roster, maxTurns, tools, env, place, turn, calls, i) == Cost(0, 0, 0)
    decreases |calls| - i
  {
    if i < |calls| {
      NoHandoffNoCost(roster, maxTurns, tools, env, place, turn, calls, i + 1);
    }
  }

  lemma OneChildMore(maxTurns: nat, child: Cost, rest: Cost)
    requires child.children == 0 && child.depth == 0 && child.chats <= maxTurns
    requires rest.chats <= maxTurns * rest.children && rest.depth <= 1
    ensures var c := Nested(child).Add(rest); c.chats <= maxTurns * c.children && c.depth <= 1
  {
    assert maxTurns * (1 + rest.children) == maxTurns + maxTurns * rest.children;
  }

  /** The calls of a batch cost at most one full Run for every child they start. */
  lemma {:induction false} BatchCost(roster: map<string, Specialist>, maxTurns: nat, tools: seq<string>, env: Env,
                                     place: seq<nat>, turn: nat, calls: seq<Call>, i: nat)
    requires turn <= maxTurns && i <= |calls|
    ensures var c := Calls(roster, maxTurns, tools, env, place, turn, calls, i);
            c.chats <= maxTurns * c.children && c.depth <= 1
    decreases |calls| - i
  {
    if i < |calls| {
      BatchCost(roster, maxTurns, tools, env, place, turn, calls, i + 1);
      if Starts(roster, tools, calls[i]) {
        NoHandoffNoChild(roster, maxTurns, ChildTools(roster, tools, calls[i]), env, place + [i], 1);
        var child := Turns(roster, maxTurns, ChildTools(roster, tools, calls[i]), env, place + [i], 1);
        OneChildMore(maxTurns, child, Calls(roster, maxTurns, tools, env, place, turn, calls, i + 1));
      }
    }
  }

  lemma OneTurnMore(maxTurns: nat, left: nat, batch: Cost, rest: Cost)
    requires batch.chats <= maxTurns * batch.children && batch.depth <= 1
    requires rest.chats <= left + maxTurns * rest.children && rest.depth <= 1
    ensures var c := Cost(1, 0, 0).Add(batch).Add(rest); c.chats <= left + 1 + maxTurns * c.children && c.depth <= 1
  {
    assert maxTurns * (batch.children + rest.children) == maxTurns * batch.children + maxTurns * rest.children;
  }

  lemma TurnOfBatch(roster: map<string, Specialist>, maxTurns: nat, tools: seq<string>, env: Env,
                    place: seq<nat>, turn: nat)
    requires turn <= maxTurns && env(place + [turn]).Batch?
    ensures Turns(roster, maxTurns, tools, env, place, turn) ==
            Cost(1, 0, 0)
              .Add(Calls(roster, maxTurns, tools, env, place + [turn], turn, env(place + [turn]).calls, 0))
              .Add(Turns(roster, maxTurns, tools, env, place, turn + 1))
  {
  }

  lemma TurnWithoutBatch(roster: map<string, Specialist>, maxTurns: nat, tools: seq<string>, env: Env,
                         place: seq<nat>, turn: nat)
    requires turn > maxTurns || !env(place + [turn]).Batch?
    ensures var c := Turns(roster, maxTurns, tools, env, place, turn);
            c.chats <= (if turn > maxTurns then 0 else 1) && c.children == 0 && c.depth == 0
  {
  }

  /** For every behaviour of model and tools: agents nest at most one deep, and the Chat calls
      of the whole tree number at most maxTurns times (1 + handoffs that started a child). */
  lemma {:induction false} HandoffIsBounded(roster: map<string, Specialist>, maxTurns: nat, tools: seq<string>,
                                            env: Env, place: seq<nat>, turn: nat)
    requires turn <= maxTurns + 1
    ensures var c := Turns(roster, maxTurns, tools, env, place, turn);
            c.chats <= (maxTurns + 1 - turn) + maxTurns * c.children && c.depth <= 1
    decreases maxTurns + 1 - turn
  {
    if turn > maxTurns || !env(place + [turn]).Batch? {
      TurnWithoutBatch(roster, maxTurns, tools, env, place, turn);
    } else {
      var calls := env(place + [turn]).calls;
      BatchCost(roster, maxTurns, tools, env, place + [turn], turn, calls, 0);
      HandoffIsBounded(roster, maxTurns, tools, env, place, turn + 1);
      TurnOfBatch(roster, maxTurns, tools, env, place, turn);
      OneTurnMore(maxTurns, maxTurns - turn, Calls(roster, maxTurns, tools, env, place + [turn], turn, calls, 0),
                  Turns(roster, maxTurns, tools, env, place, turn + 1));
    }
  }

  /** The bound for a whole Run, from its first turn. */
  lemma RunIsBounded(roster: map<string, Specialist>, maxTurns: nat, tools: seq<string>, env: Env)
    ensures var c := Turns(roster, maxTurns, tools, env, [], 1);
            c.chats <= maxTurns * (1 + c.children) && c.depth <= 1
  {
    HandoffIsBounded(roster, maxTurns, tools, env, [], 1);
  }
}
