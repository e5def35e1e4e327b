/** What a turn loop does, told by what the provider, the context and the tools did: when it stops
    and why, every Chat request word for word, what it adds to the conversation, what it costs. */
module LoopLaws {
  import opened Llm
  import opened History
  import opened Wrappers
  import opened Conversation
  import opened Grammar
  import Fold
  import Profile

  // ---- when it stops, and why ----

  /** Entered at turn `from`, the loop stops at turn t: all replies before it came and, the last one
      aside, asked for tools. It stops because the last one did not, or else because t is beyond
      the limit (8 when not positive), because the context has ended, or because the call failed. */
  ghost predicate StopsAt(cfg: Config, env: Env, from: nat, t: nat, outcome: Outcome) {
    var limit := if cfg.maxTurns <= 0 then 8 else cfg.maxTurns;
    && from <= t && (t > from ==> t <= limit + 1)
    && (forall u :: from <= u < t ==> !env.cancelled(u) && !env.reply(u).failed)
    && (forall u :: from <= u < t - 1 ==> env.reply(u).message.toolCalls != [])
    && if outcome.Answer? then
         t > from && env.reply(t - 1).message.toolCalls == [] && outcome.text == env.reply(t - 1).message.content
       else
         && (t > from ==> env.reply(t - 1).message.toolCalls != [])
         && (outcome.TooManyTurns? || outcome.ContextDone? || outcome.ChatFailed?)
         && (outcome.TooManyTurns? <==> t > limit)
         && (outcome.ContextDone? <==> t <= limit && env.cancelled(t))
         && (outcome.ChatFailed? <==> t <= limit && !env.cancelled(t) && env.reply(t).failed)
  }

  /** How many replies came: one for every Chat request but a failed one. */
  function RepliesIn(end: LoopEnd, before: nat): int {
    |end.requests| - before - if end.outcome.ChatFailed? then 1 else 0
  }

  lemma StopsOneLater(cfg: Config, env: Env, from: nat, t: nat, outcome: Outcome)
    requires from <= MaxTurns(cfg) && !env.cancelled(from) && !env.reply(from).failed
    requires env.reply(from).message.toolCalls != []
    requires StopsAt(cfg, env, from + 1, t, outcome)
    ensures StopsAt(cfg, env, from, t, outcome)
  {
  }

  lemma StopsHere(cfg: Config, env: Env, messages: seq<Message>, usage: Usage, turn: nat, requests: seq<seq<Message>>)
    requires turn > MaxTurns(cfg) || env.cancelled(turn) || env.reply(turn).failed ||
             env.reply(turn).message.toolCalls == []
    ensures var end := TurnLoop(cfg, env, messages, usage, turn, requests);
            && requests <= end.requests && RepliesIn(end, |requests|) >= 0
            && StopsAt(cfg, env, turn, turn + RepliesIn(end, |requests|), end.outcome)
  {
    if turn > MaxTurns(cfg) || env.cancelled(turn) {
      LoopDoesNotCall(cfg, env, messages, usage, turn, requests);
    } else {
      LoopStops(cfg, env, messages, usage, turn, requests);
    }
  }

  /** The loop stops exactly there, after at most one Chat call a turn. */
  lemma {:induction false} LoopStopsAt(cfg: Config, env: Env, messages: seq<Message>, usage: Usage, turn: nat,
                                       requests: seq<seq<Message>>)
    ensures var end := TurnLoop(cfg, env, messages, usage, turn, requests);
            && requests <= end.requests && RepliesIn(end, |requests|) >= 0
            && StopsAt(cfg, env, turn, turn + RepliesIn(end, |requests|), end.outcome)
    decreases MaxTurns(cfg) + 1 - turn
  {
    if turn > MaxTurns(cfg) || env.cancelled(turn) || env.reply(turn).failed ||
       env.reply(turn).message.toolCalls == []
    {
      StopsHere(cfg, env, messages, usage, turn, requests);
    } else {
      var next, spent, asked := LoopGoesOn(cfg, env, messages, usage, turn, requests);
      LoopStopsAt(cfg, env, next, spent, turn + 1, asked);
      var end := TurnLoop(cfg, env, next, spent, turn + 1, asked);
      LongerPrefix(requests, asked, end.requests);
      StopsOneLater(cfg, env, turn, turn + 1 + RepliesIn(end, |asked|), end.outcome);
    }
  }

  lemma LongerPrefix<T>(a: seq<T>, b: seq<T>, c: seq<T>)
    requires a <= b <= c
    ensures a <= c
  {
  }

  // ---- what is said ----

  predicate ToolReplies(cfg: Config, env: Env, turn: nat, calls: seq<ToolCall>, msgs: seq<Message>) {
    |msgs| == |calls| && forall i :: 0 <= i < |calls| ==> ToolReply(cfg, env, turn, calls, i, msgs[i])
  }

  /** What turns `from` up to `to` leave in the conversation: each reply of the provider, followed by
      one message for each of its calls, in call order, with what is kept of the result. */
  ghost predicate Heard(cfg: Config, env: Env, from: nat, to: nat, msgs: seq<Message>)
    decreases to - from
  {
    if from >= to then msgs == []
    else
      var m := env.reply(from).message;
      var n := 1 + |m.toolCalls|;
      && n <= |msgs| && msgs[0] == m
      && ToolReplies(cfg, env, from, m.toolCalls, msgs[1..n])
      && Heard(cfg, env, from + 1, to, msgs[n..])
  }

  lemma HeardFirst(cfg: Config, env: Env, from: nat, to: nat, rest: seq<Message>)
    requires from < to && Heard(cfg, env, from + 1, to, rest)
    ensures var m := env.reply(from).message;
            Heard(cfg, env, from, to, [m] + ToolMessages(cfg, env, from, m.toolCalls) + rest)
  {
    var m := env.reply(from).message;
    var replies := ToolMessages(cfg, env, from, m.toolCalls);
    var msgs := [m] + replies + rest;
    ToolMessagesHoldResults(cfg, env, from, m.toolCalls);
    assert msgs[1 + |m.toolCalls|..] == rest;
    assert msgs[1..1 + |m.toolCalls|] == replies;
  }

  /** The Chat request of turn `at`: the system messages, the profile block of that moment if there
      is one, the finished turns, and the turn at hand as far as it was said by then. */
  ghost predicate RequestSays(cfg: Config, env: Env, core: seq<Message>, past: seq<seq<Message>>, open: seq<Message>,
                              from: nat, at: nat, said: seq<Message>, request: seq<Message>) {
    exists p :: |open| <= p <= |said| && Heard(cfg, env, from, at, said[|open|..p]) &&
      request == core + (if env.profile(at) == "" then [] else [SystemMessage(env.profile(at))])
                 + (Flatten(past) + said[..p])
  }

  /** All requests from the n-th on. */
  ghost predicate RequestsSay(cfg: Config, env: Env, core: seq<Message>, past: seq<seq<Message>>, open: seq<Message>,
                              from: nat, n: nat, requests: seq<seq<Message>>, said: seq<Message>) {
    forall k :: n <= k < |requests| ==>
      RequestSays(cfg, env, core, past, open, from, from + (k - n), said, requests[k])
  }

  /** What a loop entered at turn `from` has said, `n` requests after the Run began. */
  ghost predicate LoopSaid(cfg: Config, env: Env, core: seq<Message>, past: seq<seq<Message>>, open: seq<Message>,
                           from: nat, n: nat, end: LoopEnd, said: seq<Message>) {
    && RepliesIn(end, n) >= 0
    && open <= said && Heard(cfg, env, from, from + RepliesIn(end, n), said[|open|..])
    && WithoutProfiles(end.messages) == core + (Flatten(past) + said)
    && RequestsSay(cfg, env, core, past, open, from, n, end.requests, said)
  }

  /** A refreshed profile sits between the system messages and the turns. */
  lemma RefreshedIs(core: seq<Message>, past: seq<seq<Message>>, open: seq<Message>, messages: seq<Message>,
                    block: Profile.RenderedBlock)
    requires InTurn(core, past, open, messages)
    ensures Inject(messages, block) ==
            core + (if block == "" then [] else [SystemMessage(block)]) + (Flatten(past) + open)
  {
    TurnShapes(open);
    PastHasNoSystem(past, open);
    InjectBetween(messages, core, Flatten(past) + open, block);
  }

  lemma NowSays(cfg: Config, env: Env, core: seq<Message>, past: seq<seq<Message>>, open: seq<Message>,
                messages: seq<Message>, turn: nat, said: seq<Message>)
    requires InTurn(core, past, open, messages) && open <= said
    ensures RequestSays(cfg, env, core, past, open, turn, turn, said, Inject(messages, env.profile(turn)))
  {
    RefreshedIs(core, past, open, messages, env.profile(turn));
    var p := |open|;
    assert said[|open|..p] == [] && said[..p] == open;
  }

  lemma MiddleOf(said: seq<Message>, open: seq<Message>, batch: seq<Message>, p: nat)
    requires open + batch <= said && |open + batch| <= p <= |said|
    ensures said[|open|..p] == batch + said[|open + batch|..p]
  {
    assert said[..|open + batch|] == open + batch;
    assert said[|open|..|open + batch|] == batch;
  }

  /** A reply and the answers to its calls. */
  function Batch(cfg: Config, env: Env, turn: nat): seq<Message> {
    [env.reply(turn).message] + ToolMessages(cfg, env, turn, env.reply(turn).message.toolCalls)
  }

  lemma LaterHeard(cfg: Config, env: Env, open: seq<Message>, batch: seq<Message>, from: nat, to: nat,
                   said: seq<Message>, p: nat)
    requires from < to && batch == Batch(cfg, env, from) && open + batch <= said && |open + batch| <= p <= |said|
    requires Heard(cfg, env, from + 1, to, said[|open + batch|..p])
    ensures Heard(cfg, env, from, to, said[|open|..p])
  {
    HeardFirst(cfg, env, from, to, said[|open + batch|..p]);
    MiddleOf(said, open, batch, p);
  }

  lemma LaterSays(cfg: Config, env: Env, core: seq<Message>, past: seq<seq<Message>>, open: seq<Message>,
                  batch: seq<Message>, from: nat, at: nat, said: seq<Message>, request: seq<Message>)
    requires from < at && batch == Batch(cfg, env, from) && open + batch <= said
    requires RequestSays(cfg, env, core, past, open + batch, from + 1, at, said, request)
    ensures RequestSays(cfg, env, core, past, open, from, at, said, request)
  {
    var next := open + batch;
    var p :| |next| <= p <= |said| && Heard(cfg, env, from + 1, at, said[|next|..p]) &&
      request == core + (if env.profile(at) == "" then [] else [SystemMessage(env.profile(at))])
                 + (Flatten(past) + said[..p]);
    LaterHeard(cfg, env, open, batch, from, at, said, p);
  }

  lemma RequestsSayOneMore(cfg: Config, env: Env, core: seq<Message>, past: seq<seq<Message>>, open: seq<Message>,
                           batch: seq<Message>, messages: seq<Message>, from: nat, n: nat,
                           requests: seq<seq<Message>>, said: seq<Message>)
    requires InTurn(core, past, open, messages) && open + batch <= said && batch == Batch(cfg, env, from)
    requires n < |requests| && requests[n] == Inject(messages, env.profile(from))
    requires RequestsSay(cfg, env, core, past, open + batch, from + 1, n + 1, requests, said)
    ensures RequestsSay(cfg, env, core, past, open, from, n, requests, said)
  {
    assert open <= said;
    forall k | n <= k < |requests|
      ensures RequestSays(cfg, env, core, past, open, from, from + (k - n), said, requests[k])
    {
      if k == n {
        NowSays(cfg, env, core, past, open, messages, from, said);
      } else {
        assert from + 1 + (k - (n + 1)) == from + (k - n);
        LaterSays(cfg, env, core, past, open, batch, from, from + (k - n), said, requests[k]);
      }
    }
  }

  lemma SaidOneMore(cfg: Config, env: Env, core: seq<Message>, past: seq<seq<Message>>, open: seq<Message>,
                    batch: seq<Message>, messages: seq<Message>, from: nat, n: nat, end: LoopEnd, said: seq<Message>)
    requires InTurn(core, past, open, messages) && batch == Batch(cfg, env, from)
    requires n < |end.requests| && end.requests[n] == Inject(messages, env.profile(from))
    requires LoopSaid(cfg, env, core, past, open + batch, from + 1, n + 1, end, said)
    ensures LoopSaid(cfg, env, core, past, open, from, n, end, said)
  {
    RequestsSayOneMore(cfg, env, core, past, open, batch, messages, from, n, end.requests, said);
    assert said[|open + batch|..] == said[|open + batch|..|said|];
    LaterHeard(cfg, env, open, batch, from, from + RepliesIn(end, n), said, |said|);
    assert said[|open|..|said|] == said[|open|..];
  }

  lemma FailedSaid(cfg: Config, env: Env, core: seq<Message>, past: seq<seq<Message>>, open: seq<Message>,
                   messages: seq<Message>, turn: nat, end: LoopEnd, n: nat)
    requires InTurn(core, past, open, messages)
    requires end.messages == Inject(messages, env.profile(turn)) && RepliesIn(end, n) == 0
    requires RequestsSay(cfg, env, core, past, open, turn, n, end.requests, open)
    ensures LoopSaid(cfg, env, core, past, open, turn, n, end, open)
  {
    RefreshStep(core, past, open, messages, env.profile(turn));
  }

  lemma AnswerSaid(cfg: Config, env: Env, core: seq<Message>, past: seq<seq<Message>>, open: seq<Message>,
                   messages: seq<Message>, turn: nat, end: LoopEnd, n: nat)
    requires InTurn(core, past, open, messages) && env.reply(turn).message.toolCalls == []
    requires end.messages == Inject(messages, env.profile(turn)) + [env.reply(turn).message] && RepliesIn(end, n) == 1
    requires RequestsSay(cfg, env, core, past, open, turn, n, end.requests, open + [env.reply(turn).message])
    ensures LoopSaid(cfg, env, core, past, open, turn, n, end, open + [env.reply(turn).message])
  {
    var answer := env.reply(turn).message;
    RefreshStep(core, past, open, messages, env.profile(turn));
    AnswerStep(core, past, open, Inject(messages, env.profile(turn)), answer);
    HeardFirst(cfg, env, turn, turn + 1, []);
    assert [answer] + ToolMessages(cfg, env, turn, []) + [] == [answer] == (open + [answer])[|open|..];
  }

  lemma LastSaid(cfg: Config, env: Env, core: seq<Message>, past: seq<seq<Message>>, open: seq<Message>,
                 messages: seq<Message>, usage: Usage, turn: nat, requests: seq<seq<Message>>)
    returns (said: seq<Message>)
    requires InTurn(core, past, open, messages) && turn <= MaxTurns(cfg) && !env.cancelled(turn)
    requires env.reply(turn).failed || env.reply(turn).message.toolCalls == []
    ensures LoopSaid(cfg, env, core, past, open, turn, |requests|,
                     TurnLoop(cfg, env, messages, usage, turn, requests), said)
  {
    var end := TurnLoop(cfg, env, messages, usage, turn, requests);
    said := if env.reply(turn).failed then open else open + [env.reply(turn).message];
    LoopStops(cfg, env, messages, usage, turn, requests);
    NowSays(cfg, env, core, past, open, messages, turn, said);
    if env.reply(turn).failed {
      FailedSaid(cfg, env, core, past, open, messages, turn, end, |requests|);
    } else {
      AnswerSaid(cfg, env, core, past, open, messages, turn, end, |requests|);
    }
  }

  /** A batch leaves the turn open, and the loop goes on with it. */
  lemma GoesOnInTurn(cfg: Config, env: Env, core: seq<Message>, past: seq<seq<Message>>, open: seq<Message>,
                     messages: seq<Message>, usage: Usage, turn: nat, requests: seq<seq<Message>>)
    returns (next: seq<Message>, spent: Usage, asked: seq<seq<Message>>)
    requires InTurn(core, past, open, messages) && turn <= MaxTurns(cfg) && !env.cancelled(turn)
    requires !env.reply(turn).failed && env.reply(turn).message.toolCalls != []
    ensures InTurn(core, past, open + Batch(cfg, env, turn), next)
    ensures asked == requests + [Inject(messages, env.profile(turn))]
    ensures TurnLoop(cfg, env, messages, usage, turn, requests) == TurnLoop(cfg, env, next, spent, turn + 1, asked)
  {
    var request, caller := Inject(messages, env.profile(turn)), env.reply(turn).message;
    RefreshStep(core, past, open, messages, env.profile(turn));
    BatchStep(core, past, open, request, caller, ToolMessages(cfg, env, turn, caller.toolCalls));
    next, spent, asked := LoopGoesOn(cfg, env, messages, usage, turn, requests);
  }

  lemma NothingSaid(cfg: Config, env: Env, core: seq<Message>, past: seq<seq<Message>>, open: seq<Message>,
                    messages: seq<Message>, usage: Usage, turn: nat, requests: seq<seq<Message>>)
    requires InTurn(core, past, open, messages) && (turn > MaxTurns(cfg) || env.cancelled(turn))
    ensures LoopSaid(cfg, env, core, past, open, turn, |requests|,
                     TurnLoop(cfg, env, messages, usage, turn, requests), open)
  {
    LoopDoesNotCall(cfg, env, messages, usage, turn, requests);
  }

  /** Every request of the loop, and what it adds, word for word. */
  lemma {:induction false} LoopSays(cfg: Config, env: Env, core: seq<Message>, past: seq<seq<Message>>,
      open: seq<Message>, messages: seq<Message>, usage: Usage, turn: nat, requests: seq<seq<Message>>)
    returns (said: seq<Message>)
    requires InTurn(core, past, open, messages)
    ensures LoopSaid(cfg, env, core, past, open, turn, |requests|,
                     TurnLoop(cfg, env, messages, usage, turn, requests), said)
    decreases MaxTurns(cfg) + 1 - turn
  {
    if turn > MaxTurns(cfg) || env.cancelled(turn) {
      said := open;
      NothingSaid(cfg, env, core, past, open, messages, usage, turn, requests);
    } else if env.reply(turn).failed || env.reply(turn).message.toolCalls == [] {
      said := LastSaid(cfg, env, core, past, open, messages, usage, turn, requests);
    } else {
      var next, spent, asked := GoesOnInTurn(cfg, env, core, past, open, messages, usage, turn, requests);
      var batch, end := Batch(cfg, env, turn), TurnLoop(cfg, env, next, spent, turn + 1, asked);
      said := LoopSays(cfg, env, core, past, open + batch, next, spent, turn + 1, asked);
      LoopStopsAt(cfg, env, next, spent, turn + 1, asked);
      assert end.requests[|requests|] == asked[|requests|];
      SaidOneMore(cfg, env, core, past, open, batch, messages, turn, |requests|, end, said);
    }
  }

  /** A reply without calls is the last thing heard. */
  lemma {:induction false} HeardLast(cfg: Config, env: Env, from: nat, to: nat, msgs: seq<Message>)
    requires from < to && Heard(cfg, env, from, to, msgs) && env.reply(to - 1).message.toolCalls == []
    ensures msgs != [] && msgs[|msgs| - 1] == env.reply(to - 1).message
    decreases |msgs|
  {
    var n := 1 + |env.reply(from).message.toolCalls|;
    if from + 1 < to {
      HeardLast(cfg, env, from + 1, to, msgs[n..]);
    }
  }

  // ---- what it costs ----

  /** The sum over n turns. */
  function Sum(f: nat -> int, turn: nat, n: nat): int {
    if n == 0 then 0 else Sum(f, turn, n - 1) + f(turn + n - 1)
  }

  /** The tokens of a Chat call, a missing total filled in with prompt and completion. */
  function TotalOf(u: Usage): int {
    if u.total == 0 && (u.prompt > 0 || u.completion > 0) then u.prompt + u.completion else u.total
  }

  /** The calls it stands for, at least one when it cost anything. */
  function CallsOf(u: Usage): int {
    if u.calls <= 0 && (u.prompt > 0 || u.completion > 0 || u.total > 0) then 1 else u.calls
  }

  /** Prompt, completion, total and calls each add up over the turns. */
  lemma {:induction false} SpentAddsUp(env: Env, turn: nat, n: nat)
    ensures var spent := Spent(env, turn, n);
            && spent.prompt == Sum((u: nat) => env.reply(u).usage.prompt, turn, n)
            && spent.completion == Sum((u: nat) => env.reply(u).usage.completion, turn, n)
            && spent.total == Sum((u: nat) => TotalOf(env.reply(u).usage), turn, n)
            && spent.calls == Sum((u: nat) => CallsOf(env.reply(u).usage), turn, n)
  {
    if n > 0 {
      SpentAddsUp(env, turn, n - 1);
    }
  }
}
