/** Parked approvals: a tool call waits on a one-slot channel until Decide, its context or the
    expiry timer ends the wait. Locked sections, channel operations and timer events are steps. */
module Approvals {
  import opened Wrappers

  datatype Ending = Answered(allow: bool) | ContextEnded | TimedOut

  /** Where an Approve call is; after select chose the context or the timer it still has to drop
      its entry. */
  datatype Asker = Waiting | Dropping(why: Ending) | Returned(how: Ending)

  datatype Reply = Accepted | Unknown | Expired

  /** Where a Decide call is: it holds the entry it removed, or it has returned. */
  datatype Decider = Holding(id: string, allow: bool, deadline: int) | Replied(id: string, allow: bool, reply: Reply)

  /** `wait` maps an id to its deadline, `slots` are the channels. */
  datatype State = State(
    wait: map<string, int>,
    slots: map<string, Option<bool>>,
    askers: map<string, Asker>,
    deciders: seq<Decider>)

  datatype Action =
    | Ask(id: string, deadline: int)
    | GiveUp(id: string, why: Ending)
    | Drop(id: string)
    | Receive(id: string)
    | Remove(id: string, allow: bool)
    | Send(decider: nat, now: int)

  function Init(): State {
    State(map[], map[], map[], [])
  }

  predicate IsAt(s: State, id: string) {
    id in s.askers && id in s.slots
  }

  predicate Holds(s: State, d: nat) {
    d < |s.deciders| && s.deciders[d].Holding?
  }

  /** Ids are fresh; a receive needs a value and a send needs room. */
  predicate Enabled(s: State, a: Action) {
    match a
    case Ask(id, _) => id !in s.askers
    case GiveUp(id, why) => IsAt(s, id) && s.askers[id].Waiting? && !why.Answered?
    case Drop(id) => IsAt(s, id) && s.askers[id].Dropping?
    case Receive(id) => IsAt(s, id) && s.askers[id].Waiting? && s.slots[id].Some?
    case Remove(_, _) => true
    case Send(d, now) =>
      Holds(s, d) && (now <= s.deciders[d].deadline ==>
        s.deciders[d].id in s.slots && s.slots[s.deciders[d].id].None?)
  }

  function Step(s: State, a: Action): State
    requires Enabled(s, a)
  {
    match a
    case Ask(id, deadline) =>
      s.(wait := s.wait[id := deadline], slots := s.slots[id := None], askers := s.askers[id := Waiting])
    case GiveUp(id, why) => s.(askers := s.askers[id := Dropping(why)])
    case Drop(id) => s.(wait := s.wait - {id}, askers := s.askers[id := Returned(s.askers[id].why)])
    case Receive(id) =>
      s.(slots := s.slots[id := None], askers := s.askers[id := Returned(Answered(s.slots[id].value))])
    case Remove(id, allow) =>
      if id in s.wait then
        s.(wait := s.wait - {id}, deciders := s.deciders + [Holding(id, allow, s.wait[id])])
      else s.(deciders := s.deciders + [Replied(id, allow, Unknown)])
    case Send(d, now) =>
      var h := s.deciders[d];
      if now > h.deadline then s.(deciders := s.deciders[d := Replied(h.id, h.allow, Expired)])
      else s.(slots := s.slots[h.id := Some(h.allow)], deciders := s.deciders[d := Replied(h.id, h.allow, Accepted)])
  }

  predicate Enables(s: State, run: seq<Action>)
    decreases |run|
  {
    run == [] || (Enabled(s, run[0]) && Enables(Step(s, run[0]), run[1..]))
  }

  function Exec(s: State, run: seq<Action>): State
    requires Enables(s, run)
    decreases |run|
  {
    if run == [] then s else Exec(Step(s, run[0]), run[1..])
  }

  // ---- what holds after every step ----

  /** The decider got past the removal of this id. */
  predicate Took(s: State, d: nat, id: string) {
    d < |s.deciders| && s.deciders[d].id == id && (s.deciders[d].Holding? || !s.deciders[d].reply.Unknown?)
  }

  predicate AcceptedBy(s: State, d: nat, id: string, allow: bool) {
    d < |s.deciders| && s.deciders[d] == Replied(id, allow, Accepted)
  }

  predicate GaveUp(s: State, id: string) {
    id in s.askers && (s.askers[id].Dropping? || (s.askers[id].Returned? && !s.askers[id].how.Answered?))
  }

  /** A waiting id has an empty channel and nobody has taken it. */
  ghost predicate Untaken(s: State, id: string)
    requires IsAt(s, id)
  {
    id in s.wait ==> s.slots[id].None? && !s.askers[id].Returned? && forall d: nat :: !Took(s, d, id)
  }

  /** What is in the channel, or was received from it, is an accepted decision. */
  ghost predicate Delivered(s: State, id: string)
    requires IsAt(s, id)
  {
    && (s.slots[id].Some? ==> exists d: nat :: AcceptedBy(s, d, id, s.slots[id].value))
    && (s.askers[id].Dropping? ==> !s.askers[id].why.Answered?)
    && (s.askers[id].Returned? && s.askers[id].how.Answered? ==>
          s.slots[id].None? && exists d: nat :: AcceptedBy(s, d, id, s.askers[id].how.allow))
  }

  /** Nobody else has taken the id of a decider that has. */
  ghost predicate OnlyTaker(s: State, d: nat)
    requires d < |s.deciders|
  {
    var id := s.deciders[d].id;
    Took(s, d, id) ==> IsAt(s, id) && forall e: nat :: Took(s, e, id) ==> e == d
  }

  /** A decider about to send finds an empty channel; an accepted decision has been received, can
      be, or came too late. */
  ghost predicate Decided(s: State, d: nat)
    requires d < |s.deciders| && OnlyTaker(s, d)
  {
    var id, allow := s.deciders[d].id, s.deciders[d].allow;
    && (s.deciders[d].Holding? ==>
          Took(s, d, id) && s.slots[id].None? && (s.askers[id].Waiting? || GaveUp(s, id)))
    && (AcceptedBy(s, d, id, allow) ==>
          Took(s, d, id) &&
          (|| GaveUp(s, id)
           || s.askers[id] == Returned(Answered(allow))
           || (s.askers[id].Waiting? && s.slots[id] == Some(allow))))
  }

  ghost predicate Inv(s: State) {
    && s.askers.Keys == s.slots.Keys
    && (forall id :: id in s.wait ==> id in s.askers)
    && (forall id :: id in s.askers ==> Untaken(s, id) && Delivered(s, id))
    && (forall d :: 0 <= d < |s.deciders| ==> OnlyTaker(s, d) && Decided(s, d))
  }

  /** Only a removal adds a decider past removal, and accepted replies stay. */
  lemma DecidersAfter(s: State, a: Action)
    requires Enabled(s, a)
    ensures forall e: nat, id :: Took(Step(s, a), e, id) ==>
              Took(s, e, id) || (a.Remove? && e == |s.deciders| && id == a.id && id in s.wait)
    ensures forall e: nat, id, v :: AcceptedBy(s, e, id, v) ==> AcceptedBy(Step(s, a), e, id, v)
  {
  }

  lemma TakenIsKnown(s: State, d: nat, id: string)
    requires Inv(s)
    ensures Took(s, d, id) ==> IsAt(s, id)
  {
    if d < |s.deciders| {
      assert OnlyTaker(s, d);
    }
  }

  lemma StepKeepsUntaken(s: State, a: Action, id: string)
    requires Inv(s) && Enabled(s, a) && id in Step(s, a).askers
    ensures IsAt(Step(s, a), id) && Untaken(Step(s, a), id)
  {
    DecidersAfter(s, a);
    if id in s.askers {
      assert Untaken(s, id);
    } else {
      forall d: nat
        ensures !Took(s, d, id)
      {
        TakenIsKnown(s, d, id);
      }
    }
    if a.Send? {
      assert Took(s, a.decider, s.deciders[a.decider].id);
    }
  }

  lemma StepKeepsDelivered(s: State, a: Action, id: string)
    requires Inv(s) && Enabled(s, a) && id in Step(s, a).askers
    ensures IsAt(Step(s, a), id) && Delivered(Step(s, a), id)
  {
    DecidersAfter(s, a);
    if id in s.askers {
      assert Delivered(s, id);
    }
    if a.Send? {
      assert OnlyTaker(s, a.decider) && Decided(s, a.decider);
      if a.now <= s.deciders[a.decider].deadline {
        assert AcceptedBy(Step(s, a), a.decider, s.deciders[a.decider].id, s.deciders[a.decider].allow);
      }
    }
  }

  lemma StepKeepsOnlyTaker(s: State, a: Action, d: nat)
    requires Inv(s) && Enabled(s, a) && d < |Step(s, a).deciders|
    ensures OnlyTaker(Step(s, a), d)
  {
    DecidersAfter(s, a);
    if d < |s.deciders| {
      assert OnlyTaker(s, d);
    }
    if a.Remove? && a.id in s.wait {
      assert Untaken(s, a.id);
    }
  }

  /** What OnlyTaker and Decided say of a decider, for the step of another kind or decider. */
  lemma OthersStayDecided(s: State, a: Action, d: nat)
    requires Inv(s) && Enabled(s, a) && d < |s.deciders|
    requires a.Send? ==> a.decider != d
    requires OnlyTaker(Step(s, a), d)
    ensures Decided(Step(s, a), d)
  {
    assert OnlyTaker(s, d) && Decided(s, d);
    if a.Send? {
      assert OnlyTaker(s, a.decider) && Decided(s, a.decider);
    }
    if a.Receive? {
      assert Delivered(s, a.id);
    }
  }

  lemma SenderIsDecided(s: State, d: nat, now: int)
    requires Inv(s) && Enabled(s, Send(d, now))
    requires OnlyTaker(Step(s, Send(d, now)), d)
    ensures Decided(Step(s, Send(d, now)), d)
  {
    assert OnlyTaker(s, d) && Decided(s, d);
  }

  lemma RemoverIsDecided(s: State, id: string, allow: bool)
    requires Inv(s)
    requires OnlyTaker(Step(s, Remove(id, allow)), |s.deciders|)
    ensures Decided(Step(s, Remove(id, allow)), |s.deciders|)
  {
    if id in s.wait {
      assert Untaken(s, id) && Delivered(s, id);
    }
  }

  lemma StepKeepsDecided(s: State, a: Action, d: nat)
    requires Inv(s) && Enabled(s, a) && d < |Step(s, a).deciders|
    requires OnlyTaker(Step(s, a), d)
    ensures Decided(Step(s, a), d)
  {
    if d == |s.deciders| {
      RemoverIsDecided(s, a.id, a.allow);
    } else if a.Send? && a.decider == d {
      SenderIsDecided(s, d, a.now);
    } else {
      OthersStayDecided(s, a, d);
    }
  }

  lemma StepKeepsInv(s: State, a: Action)
    requires Inv(s) && Enabled(s, a)
    ensures Inv(Step(s, a))
  {
    forall id | id in Step(s, a).askers
      ensures IsAt(Step(s, a), id) && Untaken(Step(s, a), id) && Delivered(Step(s, a), id)
    {
      StepKeepsUntaken(s, a, id);
      StepKeepsDelivered(s, a, id);
    }
    forall d | 0 <= d < |Step(s, a).deciders|
      ensures OnlyTaker(Step(s, a), d) && Decided(Step(s, a), d)
    {
      StepKeepsOnlyTaker(s, a, d);
      StepKeepsDecided(s, a, d);
    }
  }

  lemma {:induction false} RunKeepsInv(s: State, run: seq<Action>)
    requires Inv(s) && Enables(s, run)
    ensures Inv(Exec(s, run))
    decreases |run|
  {
    if run != [] {
      StepKeepsInv(s, run[0]);
      RunKeepsInv(Step(s, run[0]), run[1..]);
    }
  }

  // ---- giving up, read off the run ----

  /** In this run the select of this Approve takes the context or the timer. */
  ghost predicate GivesUp(run: seq<Action>, id: string) {
    exists why :: GiveUp(id, why) in run
  }

  lemma StepGivesUp(s: State, a: Action, id: string)
    requires Inv(s) && Enabled(s, a)
    ensures GaveUp(Step(s, a), id) <==> GaveUp(s, id) || (a.GiveUp? && a.id == id)
  {
    if id in s.askers {
      assert Delivered(s, id);
    }
  }

  lemma {:induction false} RunGivesUp(s: State, run: seq<Action>, id: string)
    requires Inv(s) && Enables(s, run)
    ensures GaveUp(Exec(s, run), id) <==> GaveUp(s, id) || GivesUp(run, id)
    decreases |run|
  {
    if run != [] {
      StepKeepsInv(s, run[0]);
      StepGivesUp(s, run[0], id);
      RunGivesUp(Step(s, run[0]), run[1..], id);
      GivesUpFirst(run, id);
    }
  }

  lemma GivesUpFirst(run: seq<Action>, id: string)
    requires run != []
    ensures GivesUp(run, id) <==> (run[0].GiveUp? && run[0].id == id) || GivesUp(run[1..], id)
  {
    if run[0].GiveUp? && run[0].id == id {
      assert GiveUp(id, run[0].why) in run;
    }
    forall why | GiveUp(id, why) in run
      ensures GiveUp(id, why) == run[0] || GiveUp(id, why) in run[1..]
    {
    }
  }

  // ---- the main results ----

  /** In every interleaving at most one Decide gets past the removal of an id, and its send never
      blocks, whatever the time. */
  lemma OneDecision(run: seq<Action>, d: nat, e: nat, id: string, now: int)
    requires Enables(Init(), run) && Took(Exec(Init(), run), d, id)
    ensures Took(Exec(Init(), run), e, id) ==> e == d
    ensures Holds(Exec(Init(), run), d) ==> Enabled(Exec(Init(), run), Send(d, now))
  {
    RunKeepsInv(Init(), run);
    assert OnlyTaker(Exec(Init(), run), d) && Decided(Exec(Init(), run), d);
  }

  /** Approve returns an answer if and only if its select took neither the context nor the timer
      and the Decide that took its id was called with that answer; once it has returned its id is no
      longer waited for. */
  lemma ApprovalWasDecided(run: seq<Action>, id: string)
    requires Enables(Init(), run) && id in Exec(Init(), run).askers && Exec(Init(), run).askers[id].Returned?
    ensures var s := Exec(Init(), run);
            && id !in s.wait
            && forall v :: s.askers[id].how == Answered(v) <==>
                 !GivesUp(run, id) && exists d: nat :: AcceptedBy(s, d, id, v)
  {
    RunKeepsInv(Init(), run);
    RunGivesUp(Init(), run, id);
    var s := Exec(Init(), run);
    assert Untaken(s, id) && Delivered(s, id);
    forall v, d: nat | AcceptedBy(s, d, id, v)
      ensures GaveUp(s, id) || s.askers[id].how == Answered(v)
    {
      assert OnlyTaker(s, d) && Decided(s, d);
      assert Took(s, d, id);
    }
  }

  /** An accepted decision has been delivered or is in the channel of a waiting Approve, unless the
      select of its Approve took the context or the timer, be it before or after the decision. */
  lemma AcceptedDecisionIsDeliveredOrLate(run: seq<Action>, d: nat, id: string, v: bool)
    requires Enables(Init(), run) && AcceptedBy(Exec(Init(), run), d, id, v)
    ensures var s := Exec(Init(), run);
            && IsAt(s, id)
            && (s.askers[id] == Returned(Answered(v)) || (s.askers[id].Waiting? && s.slots[id] == Some(v))
                <==> !GivesUp(run, id))
  {
    RunKeepsInv(Init(), run);
    RunGivesUp(Init(), run, id);
    assert OnlyTaker(Exec(Init(), run), d) && Decided(Exec(Init(), run), d);
    assert Took(Exec(Init(), run), d, id);
  }

  /** The exact condition: Approve reports an accepted decision if and only if its select did not
      take the context or the timer; otherwise it denies what Decide reported as done. */
  lemma AcceptedIsReportedIff(run: seq<Action>, d: nat, id: string, v: bool)
    requires Enables(Init(), run) && AcceptedBy(Exec(Init(), run), d, id, v)
    requires id in Exec(Init(), run).askers && Exec(Init(), run).askers[id].Returned?
    ensures var how := Exec(Init(), run).askers[id].how;
            && (how == Answered(v) <==> !GivesUp(run, id))
            && (how.ContextEnded? || how.TimedOut? <==> GivesUp(run, id))
  {
    AcceptedDecisionIsDeliveredOrLate(run, d, id, v);
    RunGivesUp(Init(), run, id);
  }

  // ---- the deadline ----

  /** Wherever the id waits or is held, it is with this deadline. */
  predicate Due(s: State, id: string, deadline: int) {
    && id in s.askers && (id in s.wait ==> s.wait[id] == deadline)
    && forall d :: 0 <= d < |s.deciders| && s.deciders[d].Holding? && s.deciders[d].id == id ==>
         s.deciders[d].deadline == deadline
  }

  lemma StepKeepsDue(s: State, a: Action, id: string, deadline: int)
    requires Enabled(s, a) && Due(s, id, deadline)
    ensures Due(Step(s, a), id, deadline)
  {
  }

  lemma {:induction false} RunKeepsDue(s: State, run: seq<Action>, id: string, deadline: int)
    requires Enables(s, run) && Due(s, id, deadline)
    ensures Due(Exec(s, run), id, deadline)
    decreases |run|
  {
    if run != [] {
      StepKeepsDue(s, run[0], id, deadline);
      RunKeepsDue(Step(s, run[0]), run[1..], id, deadline);
    }
  }

  lemma AskedIsDue(s: State, id: string, deadline: int)
    requires Inv(s) && Enabled(s, Ask(id, deadline))
    ensures Due(Step(s, Ask(id, deadline)), id, deadline)
  {
    forall d: nat | d < |s.deciders| && s.deciders[d].Holding?
      ensures s.deciders[d].id in s.askers
    {
      assert OnlyTaker(s, d);
    }
  }

  lemma {:induction false} RunAsksDue(s: State, run: seq<Action>, i: nat)
    requires Inv(s) && Enables(s, run) && i < |run| && run[i].Ask?
    ensures Due(Exec(s, run), run[i].id, run[i].deadline)
    decreases |run|
  {
    StepKeepsInv(s, run[0]);
    if i == 0 {
      AskedIsDue(s, run[0].id, run[0].deadline);
      RunKeepsDue(Step(s, run[0]), run[1..], run[0].id, run[0].deadline);
    } else {
      RunAsksDue(Step(s, run[0]), run[1..], i - 1);
    }
  }

  /** After any run, a Decide that got past the removal is answered as expired exactly when it sends
      after the deadline its Approve was parked with, and as accepted otherwise; one that finds nothing
      parked is answered as unknown. */
  lemma ExpiresAfterDeadline(run: seq<Action>, i: nat, d: nat, now: int)
    requires Enables(Init(), run) && i < |run| && run[i].Ask?
    requires Holds(Exec(Init(), run), d) && Exec(Init(), run).deciders[d].id == run[i].id
    ensures var s, deadline := Exec(Init(), run), run[i].deadline;
            && Enabled(s, Send(d, now))
            && Step(s, Send(d, now)).deciders[d] ==
               Replied(run[i].id, s.deciders[d].allow, if now > deadline then Expired else Accepted)
  {
    RunKeepsInv(Init(), run);
    RunAsksDue(Init(), run, i);
    assert OnlyTaker(Exec(Init(), run), d) && Decided(Exec(Init(), run), d);
    OneDecision(run, d, d, run[i].id, now);
  }

  /** A Decide takes what waits, and finds nothing exactly when nobody waits under that id: never asked,
      returned, given up and dropped, or taken by another Decide. */
  lemma UnknownIff(run: seq<Action>, id: string, allow: bool)
    requires Enables(Init(), run)
    ensures var s := Exec(Init(), run);
            var decider := Step(s, Remove(id, allow)).deciders[|s.deciders|];
            && decider.id == id && decider.allow == allow
            && (decider == Replied(id, allow, Unknown) <==> id !in s.wait)
            && (decider.Holding? <==> id in s.wait)
            && (id !in s.askers || s.askers[id].Returned? || (exists d: nat :: Took(s, d, id)) ==> id !in s.wait)
  {
    RunKeepsInv(Init(), run);
    RunKeepsWaiters(Init(), run);
    var s := Exec(Init(), run);
    if id in s.askers {
      assert Untaken(s, id);
    }
  }

  /** Only those who asked wait. */
  ghost predicate WaitersAsked(s: State) {
    forall id :: id in s.wait ==> id in s.askers
  }

  lemma {:induction false} RunKeepsWaiters(s: State, run: seq<Action>)
    requires WaitersAsked(s) && Enables(s, run)
    ensures WaitersAsked(Exec(s, run))
    decreases |run|
  {
    if run != [] {
      RunKeepsWaiters(Step(s, run[0]), run[1..]);
    }
  }

  lemma Prepend(s: State, a: Action, rest: seq<Action>)
    requires Enabled(s, a) && Enables(Step(s, a), rest)
    ensures Enables(s, [a] + rest) && Exec(s, [a] + rest) == Exec(Step(s, a), rest)
  {
    assert ([a] + rest)[1..] == rest;
  }

  /** The answer is in the channel when the context ends, and the select takes the context. */
  function LosingSelect(id: string): seq<Action> {
    [Ask(id, 5)] + ([Remove(id, true)] + ([Send(0, 3)] + ([GiveUp(id, ContextEnded)] + ([Drop(id)] + []))))
  }

  /** Decide reports success, before the deadline, for an approval that Approve denies. */
  lemma AcceptedButDenied(id: string)
    ensures Enables(Init(), LosingSelect(id))
    ensures var s := Exec(Init(), LosingSelect(id));
            AcceptedBy(s, 0, id, true) && id in s.askers && s.askers[id] == Returned(ContextEnded)
  {
    var s1 := Step(Init(), Ask(id, 5));
    var s2 := Step(s1, Remove(id, true));
    var s3 := Step(s2, Send(0, 3));
    var s4 := Step(s3, GiveUp(id, ContextEnded));
    var s5 := Step(s4, Drop(id));
    assert AcceptedBy(s5, 0, id, true) && id in s5.askers && s5.askers[id] == Returned(ContextEnded);
    var r4 := [Drop(id)] + [];
    var r3 := [GiveUp(id, ContextEnded)] + r4;
    var r2 := [Send(0, 3)] + r3;
    Prepend(s4, Drop(id), []);
    Prepend(s3, GiveUp(id, ContextEnded), r4);
    Prepend(s2, Send(0, 3), r3);
    Prepend(s1, Remove(id, true), r2);
    Prepend(Init(), Ask(id, 5), [Remove(id, true)] + r2);
  }
}
