/** What every Run, Reset and RestoreSession keeps: the committed history is one system
    message, at most one summary, and whole finished turns; every Chat request has the same
    form with the profile block in its place and the last turn still open. */
module Grammar {
  import opened Llm
  import opened History
  import opened Wrappers
  import opened Conversation
  import Fold
  import Profile
  import Summary
  import Text

  predicate MainSystem(m: Message) {
    m.role == System && !Summary.IsSummary(m) && !IsProfile(m)
  }

  /** One system message and at most one summary. */
  predicate CommittedPrefix(p: seq<Message>) {
    p != [] && MainSystem(p[0]) && Summary.OptionalSummary(p[1..])
  }

  /** The same, with at most one profile block at the end. */
  predicate RequestPrefix(p: seq<Message>) {
    CommittedPrefix(p) || (|p| >= 2 && IsProfile(p[|p| - 1]) && CommittedPrefix(p[..|p| - 1]))
  }

  predicate Committed(keep: Option<nat>, h: seq<Message>) {
    h == [] ||
    (&& CommittedPrefix(Prefix(h))
     && TurnsOf(h) != [] && Fold.AllClosed(TurnsOf(h))
     && (keep.Some? ==> Fold.Folded(TurnsOf(h), keep.value)))
  }

  predicate ChatRequest(msgs: seq<Message>) {
    && RequestPrefix(Prefix(msgs))
    && TurnsOf(msgs) != []
    && Fold.AllClosed(TurnsOf(msgs)[..|TurnsOf(msgs)| - 1])
    && OpenTurn(TurnsOf(msgs)[|TurnsOf(msgs)| - 1])
  }

  predicate AllRequests(requests: seq<seq<Message>>) {
    forall i :: 0 <= i < |requests| ==> ChatRequest(requests[i])
  }

  // ---- the two markers never meet ----

  lemma MarkersDiffer(s: string)
    ensures !(Profile.MARKER <= s && Summary.MARKER <= s)
  {
    assert Profile.MARKER[1] == 'u' && Summary.MARKER[1] == 'c';
  }

  // ---- filtering and injecting the profile ----

  predicate NoProfiles(msgs: seq<Message>) {
    forall i :: 0 <= i < |msgs| ==> !IsProfile(msgs[i])
  }

  lemma {:induction false} WithoutProfilesKeeps(msgs: seq<Message>)
    requires NoProfiles(msgs)
    ensures WithoutProfiles(msgs) == msgs
  {
    if msgs != [] {
      WithoutProfilesKeeps(msgs[1..]);
    }
  }

  predicate IsSlot(slot: seq<Message>) {
    slot == [] || (|slot| == 1 && IsProfile(slot[0]))
  }

  lemma SlotIsFiltered(core: seq<Message>, slot: seq<Message>, rest: seq<Message>)
    requires IsSlot(slot) && NoProfiles(core) && NoProfiles(rest)
    ensures WithoutProfiles(core + slot + rest) == core + rest
  {
    assert WithoutProfiles(slot) == [] by {
      assert slot != [] ==> slot[1..] == [];
    }
    WithoutProfilesConcat(core + slot, rest);
    WithoutProfilesConcat(core, slot);
    WithoutProfilesKeeps(core);
    WithoutProfilesKeeps(rest);
    assert core + [] == core;
  }

  lemma FirstOf(core: seq<Message>, slot: seq<Message>, rest: seq<Message>)
    requires core != []
    ensures [core[0]] + (core[1..] + slot + rest) == core + slot + rest
  {
  }

  /** The profile goes between the system messages and the turns. */
  lemma {:induction false} InjectBetween(messages: seq<Message>, core: seq<Message>, rest: seq<Message>,
                                         block: Profile.RenderedBlock)
    requires WithoutProfiles(messages) == core + rest
    requires forall i :: 0 <= i < |core| ==> core[i].role == System
    requires NoSystem(rest)
    ensures Inject(messages, block) == core + Slot(block) + rest
    decreases |messages|
  {
    if messages != [] {
      if IsProfile(messages[0]) {
        InjectBetween(messages[1..], core, rest, block);
      } else if core != [] {
        HeadAndTail(messages[0], WithoutProfiles(messages[1..]), core, rest);
        InjectBetween(messages[1..], core[1..], rest, block);
        FirstOf(core, Slot(block), rest);
      } else {
        assert core + rest == rest && rest[0] == messages[0];
        assert core + Slot(block) == Slot(block);
      }
    }
  }

  lemma HeadAndTail(head: Message, tail: seq<Message>, core: seq<Message>, rest: seq<Message>)
    requires [head] + tail == core + rest && core != []
    ensures head == core[0] && tail == core[1..] + rest
  {
    assert head == ([head] + tail)[0] == (core + rest)[0];
    assert tail == ([head] + tail)[1..] == (core + rest)[1..];
  }

  /** System messages that the profile filter leaves alone. */
  predicate PlainSystem(core: seq<Message>) {
    forall i :: 0 <= i < |core| ==> core[i].role == System && !IsProfile(core[i])
  }

  lemma CoreIsPlainSystem(core: seq<Message>)
    requires CommittedPrefix(core)
    ensures PlainSystem(core)
  {
    if |core| == 2 {
      assert core[1] == core[1..][0];
      MarkersDiffer(core[1].content);
    }
  }

  // ---- the turn loop ----

  lemma FlattenOne(past: seq<seq<Message>>, turn: seq<Message>)
    ensures Flatten(past + [turn]) == Flatten(past) + turn
  {
    FlattenAppend(past, [turn]);
    assert Flatten([turn]) == turn;
  }

  /** A prefix, finished turns and an open turn make a Chat request. */
  lemma RequestFits(core: seq<Message>, slot: seq<Message>, past: seq<seq<Message>>, open: seq<Message>)
    requires CommittedPrefix(core) && IsSlot(slot) && Fold.AllClosed(past) && OpenTurn(open)
    ensures ChatRequest(core + slot + (Flatten(past) + open))
  {
    CoreIsPlainSystem(core);
    assert if slot == [] then core + slot == core else (core + slot)[..|core|] == core;
    RequestOf(core + slot, past, open);
  }

  lemma RequestOf(prefix: seq<Message>, past: seq<seq<Message>>, open: seq<Message>)
    requires RequestPrefix(prefix) && NoUser(prefix) && Fold.AllClosed(past) && OpenTurn(open)
    ensures ChatRequest(prefix + (Flatten(past) + open))
  {
    var turns := past + [open];
    Fold.ClosedTurnsAreShaped(past);
    TurnShapes(open);
    FlattenOne(past, open);
    SplitAfterJoin(prefix, turns);
    assert turns[..|turns| - 1] == past;
  }

  /** The working copy of a Run in progress: the system messages and finished turns, the open turn of
      this Run, and perhaps a profile block somewhere, which the filter takes out. */
  ghost predicate InTurn(core: seq<Message>, past: seq<seq<Message>>, open: seq<Message>, messages: seq<Message>) {
    && PlainSystem(core) && Fold.AllClosed(past) && OpenTurn(open)
    && WithoutProfiles(messages) == core + (Flatten(past) + open)
  }

  lemma PastHasNoSystem(past: seq<seq<Message>>, turn: seq<Message>)
    requires Fold.AllClosed(past) && NoSystem(turn)
    ensures NoSystem(Flatten(past) + turn)
  {
    Fold.ClosedTurnsAreShaped(past);
  }

  /** Refreshing the profile gives a well-formed request if the system messages are. */
  lemma RefreshStep(core: seq<Message>, past: seq<seq<Message>>, open: seq<Message>, messages: seq<Message>,
                    block: Profile.RenderedBlock)
    requires InTurn(core, past, open, messages)
    ensures InTurn(core, past, open, Inject(messages, block))
    ensures CommittedPrefix(core) ==> ChatRequest(Inject(messages, block))
  {
    var slot, rest := Slot(block), Flatten(past) + open;
    TurnShapes(open);
    PastHasNoSystem(past, open);
    InjectBetween(messages, core, rest, block);
    SlotIsFiltered(core, slot, rest);
    if CommittedPrefix(core) {
      RequestFits(core, slot, past, open);
    }
  }

  lemma Reassociate(a: seq<Message>, b: seq<Message>, c: seq<Message>, d: seq<Message>)
    ensures a + (b + c) + d == a + (b + (c + d))
  {
  }

  lemma AppendToTurn(core: seq<Message>, past: seq<Message>, open: seq<Message>, messages: seq<Message>,
                     more: seq<Message>)
    requires WithoutProfiles(messages) == core + (past + open)
    requires NoSystem(more)
    ensures WithoutProfiles(messages + more) == core + (past + (open + more))
  {
    WithoutProfilesConcat(messages, more);
    WithoutProfilesKeeps(more);
    Reassociate(core, past, open, more);
  }

  /** A batch of calls and its replies leave the turn open. */
  lemma BatchStep(core: seq<Message>, past: seq<seq<Message>>, open: seq<Message>, messages: seq<Message>,
                  caller: Message, replies: seq<Message>)
    requires InTurn(core, past, open, messages)
    requires IsCalling(caller) && Replies(caller.toolCalls, replies)
    ensures InTurn(core, past, open + ([caller] + replies), messages + [caller] + replies)
  {
    RoundsAppend(open[1..], caller, replies);
    assert (open + ([caller] + replies))[1..] == open[1..] + [caller] + replies;
    AppendToTurn(core, Flatten(past), open, messages, [caller] + replies);
    assert messages + ([caller] + replies) == messages + [caller] + replies;
  }

  /** A plain answer closes it. */
  lemma AnswerStep(core: seq<Message>, past: seq<seq<Message>>, open: seq<Message>, messages: seq<Message>,
                   answer: Message)
    requires InTurn(core, past, open, messages) && IsPlainAssistant(answer)
    ensures ClosedTurn(open + [answer])
    ensures WithoutProfiles(messages + [answer]) == core + (Flatten(past) + (open + [answer]))
  {
    AppendToTurn(core, Flatten(past), open, messages, [answer]);
    assert (open + [answer])[..|open|] == open;
  }

  /** The text answered is that of the last message. */
  lemma {:induction false} AnswerIsLastMessage(cfg: Config, env: Env, messages: seq<Message>, usage: Usage,
                                               turn: nat, requests: seq<seq<Message>>)
    ensures var end := TurnLoop(cfg, env, messages, usage, turn, requests);
            end.outcome.Answer? ==>
              && end.messages != [] && IsPlainAssistant(end.messages[|end.messages| - 1])
              && end.outcome == Answer(end.messages[|end.messages| - 1].content)
    decreases MaxTurns(cfg) + 1 - turn
  {
    if turn <= MaxTurns(cfg) && !env.cancelled(turn) && !env.reply(turn).failed {
      var request, reply := Inject(messages, env.profile(turn)), env.reply(turn);
      if reply.message.toolCalls != [] {
        AnswerIsLastMessage(cfg, env,
          request + [reply.message] + ToolMessages(cfg, env, turn, reply.message.toolCalls),
          usage.Add(reply.usage.Normalized()), turn + 1, requests + [request]);
      }
    }
  }

  /** The usage of n Chat calls from a given turn on, one a turn. */
  function Spent(env: Env, turn: nat, n: nat): Usage {
    if n == 0 then NO_USAGE else Spent(env, turn, n - 1).Add(env.reply(turn + n - 1).usage.Normalized())
  }

  lemma {:induction false} SpentFirst(env: Env, turn: nat, n: nat)
    requires n > 0
    ensures Spent(env, turn, n) == env.reply(turn).usage.Normalized().Add(Spent(env, turn + 1, n - 1))
  {
    if n > 1 {
      SpentFirst(env, turn, n - 1);
    }
  }

  lemma AddInTwo(a: Usage, b: Usage, c: Usage)
    ensures a.Add(b).Add(c) == a.Add(b.Add(c))
  {
  }

  lemma SpentOneMore(env: Env, usage: Usage, turn: nat, n: nat)
    ensures usage.Add(env.reply(turn).usage.Normalized()).Add(Spent(env, turn + 1, n)) ==
            usage.Add(Spent(env, turn, n + 1))
  {
    AddInTwo(usage, env.reply(turn).usage.Normalized(), Spent(env, turn + 1, n));
    SpentFirst(env, turn, n + 1);
  }

  lemma SpentOnce(env: Env, usage: Usage, turn: nat)
    ensures usage.Add(env.reply(turn).usage.Normalized()) == usage.Add(Spent(env, turn, 1))
  {
    assert Spent(env, turn, 1) == Spent(env, turn, 0).Add(env.reply(turn).usage.Normalized());
  }

  /** From a turn on the loop made some calls, at most one a turn, and its usage counts them. */
  ghost predicate CountsCalls(cfg: Config, env: Env, usage: Usage, turn: nat, requests: nat, end: LoopEnd) {
    && requests <= |end.requests| <= requests + MaxTurns(cfg) + 1 - turn
    && end.usage == usage.Add(Spent(env, turn, |end.requests| - requests))
  }

  lemma CountsOneMore(cfg: Config, env: Env, usage: Usage, turn: nat, requests: nat, end: LoopEnd)
    requires CountsCalls(cfg, env, usage.Add(env.reply(turn).usage.Normalized()), turn + 1, requests + 1, end)
    ensures CountsCalls(cfg, env, usage, turn, requests, end)
  {
    SpentOneMore(env, usage, turn, |end.requests| - requests - 1);
  }

  lemma {:induction false} LoopCounts(cfg: Config, env: Env, messages: seq<Message>, usage: Usage,
                                      turn: nat, requests: seq<seq<Message>>)
    requires turn <= MaxTurns(cfg) + 1
    ensures CountsCalls(cfg, env, usage, turn, |requests|, TurnLoop(cfg, env, messages, usage, turn, requests))
    decreases MaxTurns(cfg) + 1 - turn
  {
    if turn > MaxTurns(cfg) || env.cancelled(turn) {
      LoopDoesNotCall(cfg, env, messages, usage, turn, requests);
    } else if env.reply(turn).failed || env.reply(turn).message.toolCalls == [] {
      LoopStops(cfg, env, messages, usage, turn, requests);
      SpentOnce(env, usage, turn);
    } else {
      var next, spent, asked := LoopGoesOn(cfg, env, messages, usage, turn, requests);
      LoopCounts(cfg, env, next, spent, turn + 1, asked);
      CountsOneMore(cfg, env, usage, turn, |requests|, TurnLoop(cfg, env, next, spent, turn + 1, asked));
    }
  }

  /** The loop makes at most one Chat call a turn, and its usage counts every one of them, the
      failed one too. */
  lemma LoopCountsEveryCall(cfg: Config, env: Env, messages: seq<Message>, usage: Usage, turn: nat,
                            requests: seq<seq<Message>>)
    requires turn <= MaxTurns(cfg) + 1
    ensures var end := TurnLoop(cfg, env, messages, usage, turn, requests);
            && |requests| <= |end.requests| <= |requests| + MaxTurns(cfg) + 1 - turn
            && end.usage == usage.Add(Spent(env, turn, |end.requests| - |requests|))
  {
    LoopCounts(cfg, env, messages, usage, turn, requests);
  }

  lemma LoopDoesNotCall(cfg: Config, env: Env, messages: seq<Message>, usage: Usage, turn: nat,
                        requests: seq<seq<Message>>)
    requires turn > MaxTurns(cfg) || env.cancelled(turn)
    ensures var end := TurnLoop(cfg, env, messages, usage, turn, requests);
            && end.outcome == (if turn > MaxTurns(cfg) then TooManyTurns else ContextDone)
            && end.requests == requests && end.usage == usage && end.messages == messages
  {
  }

  lemma LoopStops(cfg: Config, env: Env, messages: seq<Message>, usage: Usage, turn: nat, requests: seq<seq<Message>>)
    requires turn <= MaxTurns(cfg) && !env.cancelled(turn)
    requires env.reply(turn).failed || env.reply(turn).message.toolCalls == []
    ensures var end := TurnLoop(cfg, env, messages, usage, turn, requests);
            var request := Inject(messages, env.profile(turn));
            && end.requests == requests + [request] && end.usage == usage.Add(env.reply(turn).usage.Normalized())
            && end.outcome == (if env.reply(turn).failed then ChatFailed else Answer(env.reply(turn).message.content))
            && end.messages == if env.reply(turn).failed then request else request + [env.reply(turn).message]
  {
  }

  lemma LoopGoesOn(cfg: Config, env: Env, messages: seq<Message>, usage: Usage, turn: nat, requests: seq<seq<Message>>)
    returns (next: seq<Message>, spent: Usage, asked: seq<seq<Message>>)
    requires turn <= MaxTurns(cfg) && !env.cancelled(turn)
    requires !env.reply(turn).failed && env.reply(turn).message.toolCalls != []
    ensures var request, reply := Inject(messages, env.profile(turn)), env.reply(turn);
            && next == request + [reply.message] + ToolMessages(cfg, env, turn, reply.message.toolCalls)
            && spent == usage.Add(reply.usage.Normalized())
            && asked == requests + [request]
    ensures TurnLoop(cfg, env, messages, usage, turn, requests) == TurnLoop(cfg, env, next, spent, turn + 1, asked)
  {
    var request, reply := Inject(messages, env.profile(turn)), env.reply(turn);
    next := request + [reply.message] + ToolMessages(cfg, env, turn, reply.message.toolCalls);
    spent := usage.Add(reply.usage.Normalized());
    asked := requests + [request];
  }

  /** The requests fit if the system messages do, and an answer has closed the open turn. */
  ghost predicate LoopFits(core: seq<Message>, past: seq<seq<Message>>, open: seq<Message>,
                           requests: seq<seq<Message>>, end: LoopEnd, closed: seq<Message>) {
    && (CommittedPrefix(core) && AllRequests(requests) ==> AllRequests(end.requests))
    && (end.outcome.Answer? ==>
          && ClosedTurn(closed) && open <= closed
          && WithoutProfiles(end.messages) == core + (Flatten(past) + closed))
  }

  lemma FitsOneMore(core: seq<Message>, past: seq<seq<Message>>, open: seq<Message>, more: seq<Message>,
                    requests: seq<seq<Message>>, request: seq<Message>, end: LoopEnd, closed: seq<Message>)
    requires CommittedPrefix(core) ==> ChatRequest(request)
    requires LoopFits(core, past, open + more, requests + [request], end, closed)
    ensures LoopFits(core, past, open, requests, end, closed)
  {
    if CommittedPrefix(core) && AllRequests(requests) {
      assert AllRequests(requests + [request]);
    }
  }

  lemma StopFits(cfg: Config, env: Env, core: seq<Message>, past: seq<seq<Message>>, open: seq<Message>,
                 messages: seq<Message>, usage: Usage, turn: nat, requests: seq<seq<Message>>)
    requires InTurn(core, past, open, messages) && turn <= MaxTurns(cfg) && !env.cancelled(turn)
    requires env.reply(turn).failed || env.reply(turn).message.toolCalls == []
    ensures LoopFits(core, past, open, requests, TurnLoop(cfg, env, messages, usage, turn, requests),
                     open + [env.reply(turn).message])
  {
    RefreshStep(core, past, open, messages, env.profile(turn));
    LoopStops(cfg, env, messages, usage, turn, requests);
    if !env.reply(turn).failed {
      AnswerStep(core, past, open, Inject(messages, env.profile(turn)), env.reply(turn).message);
    }
  }

  lemma {:induction false} LoopFitsGrammar(cfg: Config, env: Env, core: seq<Message>, past: seq<seq<Message>>,
      open: seq<Message>, messages: seq<Message>, usage: Usage, turn: nat, requests: seq<seq<Message>>)
    returns (closed: seq<Message>)
    requires InTurn(core, past, open, messages)
    ensures LoopFits(core, past, open, requests, TurnLoop(cfg, env, messages, usage, turn, requests), closed)
    decreases MaxTurns(cfg) + 1 - turn
  {
    if turn > MaxTurns(cfg) || env.cancelled(turn) {
      closed := [];
      LoopDoesNotCall(cfg, env, messages, usage, turn, requests);
    } else if env.reply(turn).failed || env.reply(turn).message.toolCalls == [] {
      closed := open + [env.reply(turn).message];
      StopFits(cfg, env, core, past, open, messages, usage, turn, requests);
    } else {
      var request, caller := Inject(messages, env.profile(turn)), env.reply(turn).message;
      var batch := [caller] + ToolMessages(cfg, env, turn, caller.toolCalls);
      RefreshStep(core, past, open, messages, env.profile(turn));
      BatchStep(core, past, open, request, caller, ToolMessages(cfg, env, turn, caller.toolCalls));
      var next, spent, asked := LoopGoesOn(cfg, env, messages, usage, turn, requests);
      closed := LoopFitsGrammar(cfg, env, core, past, open + batch, next, spent, turn + 1, asked);
      FitsOneMore(core, past, open, batch, requests, request,
                  TurnLoop(cfg, env, next, spent, turn + 1, asked), closed);
    }
  }

  /** Whatever the provider, the tools and the profile do, every request of the loop fits the
      grammar, and an answer closes the open turn without touching what came before. */
  lemma LoopKeepsGrammar(cfg: Config, env: Env, core: seq<Message>, past: seq<seq<Message>>,
      open: seq<Message>, messages: seq<Message>, usage: Usage, turn: nat, requests: seq<seq<Message>>)
    returns (closed: seq<Message>)
    requires InTurn(core, past, open, messages)
    ensures CommittedPrefix(core) && AllRequests(requests) ==>
              AllRequests(TurnLoop(cfg, env, messages, usage, turn, requests).requests)
    ensures var end := TurnLoop(cfg, env, messages, usage, turn, requests);
            end.outcome.Answer? ==>
              && ClosedTurn(closed) && open <= closed
              && WithoutProfiles(end.messages) == core + (Flatten(past) + closed)
  {
    closed := LoopFitsGrammar(cfg, env, core, past, open, messages, usage, turn, requests);
  }
}
