/** Exactly which calls start a specialist, with which tools, and how many Chat calls a whole Run
    makes with all its specialists. */
module HandoffLaws {
  import opened Handoff
  import Text

  // ---- which call, which tools ----

  /** The agent has the handoff tool, the call is of it, names a specialist, white space aside, and
      its goal is not blank. */
  predicate WellFormed(specs: seq<Specialist>, tools: seq<string>, call: Call) {
    && call.name == "handoff" && "handoff" in tools
    && !Text.AllSpaces(call.agent) && !Text.AllSpaces(call.goal)
    && exists i :: 0 <= i < |specs| && Text.TrimSpace(specs[i].name) == Text.TrimSpace(call.agent)
  }

  lemma {:induction false} SomeLast(specs: seq<Specialist>, name: string, i: nat)
    requires i < |specs| && Text.TrimSpace(specs[i].name) == name
    ensures exists j :: LastNamed(specs, name, j)
  {
    var n := |specs| - 1;
    assert specs[..n] + [specs[n]] == specs;
    LastNamedGrows(specs[..n], specs[n], name);
    if i < n {
      SomeLast(specs[..n], name, i);
    }
  }

  /** A handoff call starts a specialist if and only if it is well formed. */
  lemma StartsIff(specs: seq<Specialist>, tools: seq<string>, call: Call)
    ensures Starts(Roster(specs), tools, call) <==> WellFormed(specs, tools, call)
  {
    var name := Text.TrimSpace(call.agent);
    Text.BlankIffNothingLeft(call.agent);
    Text.BlankIffNothingLeft(call.goal);
    RosterHasLast(specs, name);
    if i :| 0 <= i < |specs| && Text.TrimSpace(specs[i].name) == name {
      SomeLast(specs, name, i);
    }
  }

  /** The positions of the tools a specialist gets. */
  predicate GrantedAt(all: seq<string>, allow: seq<string>, at: seq<nat>) {
    && (forall j, k :: 0 <= j < k < |at| ==> at[j] < at[k])
    && (forall k :: 0 <= k < |at| ==> at[k] < |all|)
    && (forall i :: 0 <= i < |all| ==> (i in at <==> all[i] != "handoff" && (allow == [] || all[i] in allow)))
  }

  lemma GrantedGrows(all: seq<string>, allow: seq<string>, t: string, at: seq<nat>)
    requires GrantedAt(all, allow, at)
    ensures GrantedAt(all + [t], allow, if Granted(allow, t) then at + [|all|] else at)
  {
    assert forall i :: i in at + [|all|] <==> i in at || i == |all|;
  }

  /** The tools kept are those at these positions. */
  predicate KeptAt(all: seq<string>, at: seq<nat>, out: seq<string>) {
    |out| == |at| && forall k :: 0 <= k < |at| ==> at[k] < |all| && out[k] == all[at[k]]
  }

  lemma KeptGrows(all: seq<string>, t: string, at: seq<nat>, out: seq<string>)
    requires KeptAt(all, at, out)
    ensures KeptAt(all + [t], at, out) && KeptAt(all + [t], at + [|all|], out + [t])
  {
  }

  /** A specialist gets the tools allowed to it, in the order of the agent's, and never handoff. */
  lemma {:induction false} FilterKeepsOrder(all: seq<string>, allow: seq<string>) returns (at: seq<nat>)
    ensures GrantedAt(all, allow, at) && KeptAt(all, at, FilterTools(all, allow))
  {
    at := [];
    if all != [] {
      var init, t := all[..|all| - 1], all[|all| - 1];
      at := FilterKeepsOrder(init, allow);
      GrantedGrows(init, allow, t, at);
      KeptGrows(init, t, at, FilterTools(init, allow));
      assert all == init + [t];
      at := if Granted(allow, t) then at + [|init|] else at;
    }
  }

  /** The tools of the child are those allowed to the last specialist of the name called. */
  lemma ChildToolsAre(specs: seq<Specialist>, tools: seq<string>, call: Call) returns (i: int, at: seq<nat>)
    requires Starts(Roster(specs), tools, call)
    ensures LastNamed(specs, Text.TrimSpace(call.agent), i)
    ensures GrantedAt(tools, specs[i].tools, at) && KeptAt(tools, at, ChildTools(Roster(specs), tools, call))
  {
    var name := Text.TrimSpace(call.agent);
    RosterHasLast(specs, name);
    i :| LastNamed(specs, name, i);
    at := FilterKeepsOrder(tools, specs[i].tools);
  }

  // ---- the turns of one agent ----

  /** What the agent at a place observes, turn by turn. */
  function At(env: Env, place: seq<nat>): nat -> Reply {
    (turn: nat) => env(place + [turn])
  }

  /** The agent calls Chat in exactly n turns: all but the last brought a batch, and after the last
      one it answered, failed, ran out of turns or found its context done. */
  predicate OwnTurns(maxTurns: nat, seen: nat -> Reply, turn: nat, n: nat) {
    && turn + n <= maxTurns + 1
    && (forall t: nat :: turn <= t < turn + n ==> !seen(t).Done?)
    && (forall t: nat :: turn <= t < turn + n - 1 ==> seen(t).Batch?)
    && (n == 0 || seen(turn + n - 1).Batch? ==> turn + n == maxTurns + 1 || seen(turn + n).Done?)
  }

  lemma OneTurnEarlier(maxTurns: nat, seen: nat -> Reply, turn: nat, n: nat)
    requires OwnTurns(maxTurns, seen, turn + 1, n) && seen(turn).Batch?
    ensures OwnTurns(maxTurns, seen, turn, n + 1)
  {
  }

  lemma LastTurn(maxTurns: nat, seen: nat -> Reply, turn: nat)
    requires turn <= maxTurns + 1 && (turn <= maxTurns ==> !seen(turn).Batch?)
    ensures OwnTurns(maxTurns, seen, turn, if turn > maxTurns || seen(turn).Done? then 0 else 1)
  {
  }

  lemma {:induction false} ChildTurns(roster: map<string, Specialist>, maxTurns: nat, tools: seq<string>, env: Env,
                                      place: seq<nat>, turn: nat)
    returns (n: nat)
    requires !CanHandOff(tools) && turn <= maxTurns + 1
    ensures OwnTurns(maxTurns, At(env, place), turn, n)
    ensures Turns(roster, maxTurns, tools, env, place, turn) == Cost(n, 0, 0)
    decreases maxTurns + 1 - turn
  {
    if turn <= maxTurns && env(place + [turn]).Batch? {
      NoHandoffNoCost(roster, maxTurns, tools, env, place + [turn], turn, env(place + [turn]).calls, 0);
      n := ChildTurns(roster, maxTurns, tools, env, place, turn + 1);
      OneTurnEarlier(maxTurns, At(env, place), turn, n);
      n := n + 1;
    } else {
      LastTurn(maxTurns, At(env, place), turn);
      n := if turn > maxTurns || env(place + [turn]).Done? then 0 else 1;
    }
  }

  // ---- the children of one batch ----

  function Sum(counts: seq<nat>): nat {
    if counts == [] then 0 else counts[0] + Sum(counts[1..])
  }

  lemma {:induction false} SumConcat(a: seq<nat>, b: seq<nat>)
    ensures Sum(a + b) == Sum(a) + Sum(b)
  {
    if a == [] {
      assert a + b == b;
    } else {
      assert (a + b)[1..] == a[1..] + b;
      SumConcat(a[1..], b);
    }
  }

  /** One count for each child, and each is right for that child. */
  predicate Each<T(!new)>(right: (T, nat) -> bool, children: seq<T>, own: seq<nat>) {
    |own| == |children| && forall k :: 0 <= k < |children| ==> right(children[k], own[k])
  }

  lemma EachConcat<T(!new)>(right: (T, nat) -> bool, a: seq<T>, m: seq<nat>, b: seq<T>, n: seq<nat>)
    requires Each(right, a, m) && Each(right, b, n)
    ensures Each(right, a + b, m + n) && Sum(m + n) == Sum(m) + Sum(n)
  {
    SumConcat(m, n);
  }

  /** The cost of this many Chat calls with children one level deep. */
  function Spent(chats: nat, children: nat): Cost {
    Cost(chats, children, if children == 0 then 0 else 1)
  }

  lemma SpentAdds(a: nat, m: nat, b: nat, n: nat)
    ensures Spent(a, m).Add(Spent(b, n)) == Spent(a + b, m + n)
  {
  }

  function StartsWith(roster: map<string, Specialist>, tools: seq<string>): Call -> bool {
    (call: Call) => Starts(roster, tools, call)
  }

  /** The positions from i on of the calls that start a specialist. */
  predicate StartsAt(starts: Call -> bool, calls: seq<Call>, i: nat, at: seq<nat>) {
    && (forall j, k :: 0 <= j < k < |at| ==> at[j] < at[k])
    && (forall k :: 0 <= k < |at| ==> i <= at[k] < |calls| && starts(calls[at[k]]))
    && (forall j :: i <= j < |calls| && starts(calls[j]) ==> j in at)
  }

  /** How many Chat calls the child of the call at a position makes. */
  function Took(maxTurns: nat, env: Env, place: seq<nat>): (nat, nat) -> bool {
    (i: nat, n: nat) => OwnTurns(maxTurns, At(env, place + [i]), 1, n)
  }

  lemma OneStartMore(starts: Call -> bool, calls: seq<Call>, i: nat, at: seq<nat>)
    requires i < |calls| && starts(calls[i]) && StartsAt(starts, calls, i + 1, at)
    ensures StartsAt(starts, calls, i, [i] + at)
  {
    assert forall j :: j in [i] + at <==> j == i || j in at;
  }

  lemma OneChildMore(right: (nat, nat) -> bool, i: nat, n: nat, at: seq<nat>, own: seq<nat>)
    requires right(i, n) && Each(right, at, own)
    ensures Each(right, [i] + at, [n] + own) && Sum([n] + own) == n + Sum(own)
  {
    EachConcat(right, [i], [n], at, own);
  }

  lemma CallStarts(roster: map<string, Specialist>, maxTurns: nat, tools: seq<string>, env: Env, place: seq<nat>,
                   turn: nat, calls: seq<Call>, i: nat)
    returns (n: nat)
    requires turn <= maxTurns && i < |calls| && Starts(roster, tools, calls[i])
    ensures Took(maxTurns, env, place)(i, n)
    ensures Calls(roster, maxTurns, tools, env, place, turn, calls, i) ==
            Spent(n, 1).Add(Calls(roster, maxTurns, tools, env, place, turn, calls, i + 1))
  {
    n := ChildTurns(roster, maxTurns, ChildTools(roster, tools, calls[i]), env, place + [i], 1);
  }

  /** What the calls of a batch from position i on cost. */
  predicate BatchCosts(cost: Cost, starts: Call -> bool, took: (nat, nat) -> bool, calls: seq<Call>, i: nat,
                       at: seq<nat>, own: seq<nat>) {
    cost == Spent(Sum(own), |at|) && StartsAt(starts, calls, i, at) && Each(took, at, own)
  }

  lemma BatchAdds(rest: Cost, starts: Call -> bool, took: (nat, nat) -> bool, calls: seq<Call>, i: nat,
                  at: seq<nat>, own: seq<nat>, n: nat)
    requires BatchCosts(rest, starts, took, calls, i + 1, at, own)
    requires i < |calls| && starts(calls[i]) && took(i, n)
    ensures BatchCosts(Spent(n, 1).Add(rest), starts, took, calls, i, [i] + at, [n] + own)
  {
    OneStartMore(starts, calls, i, at);
    OneChildMore(took, i, n, at, own);
    SpentAdds(n, 1, Sum(own), |at|);
  }

  lemma BatchSkips(rest: Cost, starts: Call -> bool, took: (nat, nat) -> bool, calls: seq<Call>, i: nat,
                   at: seq<nat>, own: seq<nat>)
    requires i < |calls| && BatchCosts(rest, starts, took, calls, i + 1, at, own) && !starts(calls[i])
    ensures BatchCosts(rest, starts, took, calls, i, at, own)
  {
  }

  lemma {:induction false} BatchStarts(roster: map<string, Specialist>, maxTurns: nat, tools: seq<string>, env: Env,
                                       place: seq<nat>, turn: nat, calls: seq<Call>, i: nat)
    returns (at: seq<nat>, own: seq<nat>)
    requires turn <= maxTurns && i <= |calls|
    ensures BatchCosts(Calls(roster, maxTurns, tools, env, place, turn, calls, i), StartsWith(roster, tools),
                       Took(maxTurns, env, place), calls, i, at, own)
    decreases |calls| - i
  {
    at, own := [], [];
    if i < |calls| {
      at, own := BatchStarts(roster, maxTurns, tools, env, place, turn, calls, i + 1);
      var rest := Calls(roster, maxTurns, tools, env, place, turn, calls, i + 1);
      if Starts(roster, tools, calls[i]) {
        var n := CallStarts(roster, maxTurns, tools, env, place, turn, calls, i);
        BatchAdds(rest, StartsWith(roster, tools), Took(maxTurns, env, place), calls, i, at, own, n);
        at, own := [i] + at, [n] + own;
      } else {
        BatchSkips(rest, StartsWith(roster, tools), Took(maxTurns, env, place), calls, i, at, own);
      }
    }
  }

  // ---- the whole tree ----

  /** A call of a batch, by its turn and its position. */
  datatype Handed = Handed(turn: nat, call: nat) {
    predicate Before(other: Handed) {
      turn < other.turn || (turn == other.turn && call < other.call)
    }
  }

  predicate IsStart(starts: Call -> bool, seen: nat -> Reply, h: Handed) {
    var reply := seen(h.turn);
    reply.Batch? && h.call < |reply.calls| && starts(reply.calls[h.call])
  }

  /** Exactly the calls of these n turns that start a specialist, in order. */
  ghost predicate StartsOf(starts: Call -> bool, seen: nat -> Reply, turn: nat, n: nat, started: seq<Handed>) {
    && (forall j, k :: 0 <= j < k < |started| ==> started[j].Before(started[k]))
    && (forall k :: 0 <= k < |started| ==>
          turn <= started[k].turn < turn + n && IsStart(starts, seen, started[k]))
    && (forall h: Handed :: turn <= h.turn < turn + n && IsStart(starts, seen, h) ==> h in started)
  }

  function TookIn(maxTurns: nat, env: Env, place: seq<nat>): (Handed, nat) -> bool {
    (h: Handed, n: nat) => OwnTurns(maxTurns, At(env, place + [h.turn] + [h.call]), 1, n)
  }

  function OfTurn(turn: nat, at: seq<nat>): (started: seq<Handed>)
    ensures |started| == |at| && forall k :: 0 <= k < |at| ==> started[k] == Handed(turn, at[k])
  {
    seq(|at|, k requires 0 <= k < |at| => Handed(turn, at[k]))
  }

  lemma EachOfTurn(maxTurns: nat, env: Env, place: seq<nat>, turn: nat, at: seq<nat>, own: seq<nat>)
    requires Each(Took(maxTurns, env, place + [turn]), at, own)
    ensures Each(TookIn(maxTurns, env, place), OfTurn(turn, at), own)
  {
    forall k | 0 <= k < |at|
      ensures TookIn(maxTurns, env, place)(OfTurn(turn, at)[k], own[k])
    {
      assert Took(maxTurns, env, place + [turn])(at[k], own[k]);
    }
  }

  lemma BatchOfTurn(starts: Call -> bool, seen: nat -> Reply, turn: nat, at: seq<nat>)
    requires seen(turn).Batch? && StartsAt(starts, seen(turn).calls, 0, at)
    ensures StartsOf(starts, seen, turn, 1, OfTurn(turn, at))
  {
    forall h: Handed | turn <= h.turn < turn + 1 && IsStart(starts, seen, h)
      ensures h in OfTurn(turn, at)
    {
      var k :| 0 <= k < |at| && at[k] == h.call;
      assert OfTurn(turn, at)[k] == h;
    }
  }

  lemma TurnsJoin(starts: Call -> bool, seen: nat -> Reply, turn: nat, n: nat, first: seq<Handed>, later: seq<Handed>)
    requires StartsOf(starts, seen, turn, 1, first)
    requires StartsOf(starts, seen, turn + 1, n, later)
    ensures StartsOf(starts, seen, turn, n + 1, first + later)
  {
    assert forall h :: h in first + later <==> h in first || h in later;
  }

  /** What the turns from one on cost: n own Chat calls and the calls of the specialists started. */
  ghost predicate Costs(cost: Cost, maxTurns: nat, starts: Call -> bool, seen: nat -> Reply,
                        took: (Handed, nat) -> bool, turn: nat, n: nat, started: seq<Handed>, own: seq<nat>) {
    && cost == Spent(n + Sum(own), |started|)
    && OwnTurns(maxTurns, seen, turn, n)
    && StartsOf(starts, seen, turn, n, started)
    && Each(took, started, own)
  }

  /** What one turn costs, without those after it. */
  ghost predicate TurnCosts(cost: Cost, starts: Call -> bool, seen: nat -> Reply, took: (Handed, nat) -> bool,
                            turn: nat, started: seq<Handed>, own: seq<nat>) {
    && cost == Spent(1 + Sum(own), |started|) && seen(turn).Batch?
    && StartsOf(starts, seen, turn, 1, started) && Each(took, started, own)
  }

  lemma OneTurn(roster: map<string, Specialist>, maxTurns: nat, tools: seq<string>, env: Env, place: seq<nat>,
                turn: nat)
    returns (cost: Cost, started: seq<Handed>, own: seq<nat>)
    requires turn <= maxTurns && env(place + [turn]).Batch?
    ensures TurnCosts(cost, StartsWith(roster, tools), At(env, place), TookIn(maxTurns, env, place), turn, started, own)
    ensures Turns(roster, maxTurns, tools, env, place, turn) ==
            cost.Add(Turns(roster, maxTurns, tools, env, place, turn + 1))
  {
    var at;
    at, own := BatchStarts(roster, maxTurns, tools, env, place + [turn], turn, env(place + [turn]).calls, 0);
    started := OfTurn(turn, at);
    cost := Spent(1 + Sum(own), |started|);
    TurnOfBatch(roster, maxTurns, tools, env, place, turn);
    SpentAdds(1, 0, Sum(own), |started|);
    BatchOfTurn(StartsWith(roster, tools), At(env, place), turn, at);
    EachOfTurn(maxTurns, env, place, turn, at, own);
  }

  lemma TurnsAdd(cost: Cost, rest: Cost, maxTurns: nat, starts: Call -> bool, seen: nat -> Reply,
                 took: (Handed, nat) -> bool, turn: nat, first: seq<Handed>, ownFirst: seq<nat>, n: nat,
                 later: seq<Handed>, ownLater: seq<nat>)
    requires turn <= maxTurns && TurnCosts(cost, starts, seen, took, turn, first, ownFirst)
    requires Costs(rest, maxTurns, starts, seen, took, turn + 1, n, later, ownLater)
    ensures Costs(cost.Add(rest), maxTurns, starts, seen, took, turn, n + 1, first + later, ownFirst + ownLater)
  {
    OneTurnEarlier(maxTurns, seen, turn, n);
    TurnsJoin(starts, seen, turn, n, first, later);
    EachConcat(took, first, ownFirst, later, ownLater);
    SpentAdds(1 + Sum(ownFirst), |first|, n + Sum(ownLater), |later|);
  }

  lemma NoTurn(roster: map<string, Specialist>, maxTurns: nat, tools: seq<string>, env: Env, place: seq<nat>,
               turn: nat, took: (Handed, nat) -> bool)
    returns (n: nat)
    requires turn <= maxTurns + 1 && (turn <= maxTurns ==> !env(place + [turn]).Batch?)
    ensures Costs(Turns(roster, maxTurns, tools, env, place, turn), maxTurns, StartsWith(roster, tools), At(env, place),
                  took, turn, n, [], [])
  {
    LastTurn(maxTurns, At(env, place), turn);
    n := if turn > maxTurns || env(place + [turn]).Done? then 0 else 1;
  }

  lemma TurnAndRest(roster: map<string, Specialist>, maxTurns: nat, tools: seq<string>, env: Env, place: seq<nat>,
                    turn: nat, m: nat, later: seq<Handed>, ownLater: seq<nat>)
    returns (n: nat, started: seq<Handed>, own: seq<nat>)
    requires turn <= maxTurns && env(place + [turn]).Batch?
    requires Costs(Turns(roster, maxTurns, tools, env, place, turn + 1), maxTurns, StartsWith(roster, tools),
                   At(env, place), TookIn(maxTurns, env, place), turn + 1, m, later, ownLater)
    ensures Costs(Turns(roster, maxTurns, tools, env, place, turn), maxTurns, StartsWith(roster, tools), At(env, place),
                  TookIn(maxTurns, env, place), turn, n, started, own)
  {
    var cost, first, ownFirst := OneTurn(roster, maxTurns, tools, env, place, turn);
    var rest := Turns(roster, maxTurns, tools, env, place, turn + 1);
    n, started, own := m + 1, first + later, ownFirst + ownLater;
    TurnsAdd(cost, rest, maxTurns, StartsWith(roster, tools), At(env, place), TookIn(maxTurns, env, place), turn, first,
             ownFirst, m, later, ownLater);
  }

  /** Whatever model and tools do: the specialists started are exactly the well-formed handoff calls
      of the turns the agent reaches, one level deep, and the Chat calls of the whole tree are the
      agent's own turns and those of each specialist. */
  lemma {:induction false} HandoffsStart(roster: map<string, Specialist>, maxTurns: nat, tools: seq<string>, env: Env,
                                         place: seq<nat>, turn: nat)
    returns (n: nat, started: seq<Handed>, own: seq<nat>)
    requires turn <= maxTurns + 1
    ensures Costs(Turns(roster, maxTurns, tools, env, place, turn), maxTurns, StartsWith(roster, tools), At(env, place),
                  TookIn(maxTurns, env, place), turn, n, started, own)
    decreases maxTurns + 1 - turn
  {
    if turn <= maxTurns && env(place + [turn]).Batch? {
      var m, later, ownLater := HandoffsStart(roster, maxTurns, tools, env, place, turn + 1);
      n, started, own := TurnAndRest(roster, maxTurns, tools, env, place, turn, m, later, ownLater);
    } else {
      n := NoTurn(roster, maxTurns, tools, env, place, turn, TookIn(maxTurns, env, place));
      started, own := [], [];
    }
  }
}
