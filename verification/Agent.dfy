/** The agent object: methods that update its history and usage in place, each proved against
    the transition of Conversation it implements. */
module AgentObject {
  import opened Llm
  import opened History
  import opened Conversation
  import Fold
  import Summary
  import Text

  class Agent {
    const cfg: Config
    var history: seq<Message>
    var lastUsage: Usage
    var sessionUsage: Usage
    var saved: seq<Message>
    var running: bool

    function State(): Session
      reads this
    {
      Session(history, lastUsage, sessionUsage, saved)
    }

    constructor (cfg: Config, saved: seq<Message>)
      ensures this.cfg == cfg && State() == Session([], NO_USAGE, NO_USAGE, saved) && !running
    {
      this.cfg := cfg;
      history, lastUsage, sessionUsage, this.saved, running := [], NO_USAGE, NO_USAGE, saved, false;
    }

    /** Run: works on a copy and commits only when the model answers without tool calls. */
    method Run(input: string, env: Env) returns (outcome: Outcome, requests: seq<seq<Message>>)
      modifies this
      ensures !old(running) ==> RunResult(State(), outcome, requests) == Conversation.Run(cfg, old(State()), input, env)
      ensures old(running) ==> State() == old(State()) && !outcome.Answer? && requests == []
      ensures running == old(running)
    {
      requests := [];
      if !cfg.hasProvider {
        return NoProvider, requests;
      }
      if Text.TrimSpace(input) == "" {
        return EmptyInput, requests;
      }
      if running {
        return AlreadyRunning, requests;
      }
      var messages := SessionMessages(cfg, history, env.profile(0)) + [UserMessage(input)];
      var runUsage := NO_USAGE;
      ghost var end := RunLoop(cfg, history, input, env);
      for turn := 1 to MaxTurns(cfg) + 1
        invariant TurnLoop(cfg, env, messages, runUsage, turn, requests) == end
        invariant State() == old(State()) && running == old(running)
      {
        if env.cancelled(turn) {
          lastUsage := runUsage;
          return ContextDone, requests;
        }
        messages := UpsertProfile(messages, env.profile(turn));
        var reply := env.reply(turn);
        requests := requests + [messages];
        runUsage := runUsage.Add(reply.usage.Normalized());
        if reply.failed {
          lastUsage := runUsage;
          return ChatFailed, requests;
        }
        messages := messages + [reply.message];
        if |reply.message.toolCalls| == 0 {
          CommitHistory(messages, env);
          lastUsage := runUsage;
          sessionUsage := sessionUsage.Add(runUsage);
          return Answer(Text.TrimSpace(reply.message.content)), requests;
        }
        messages := messages + ToolMessages(cfg, env, turn, reply.message.toolCalls);
      }
      lastUsage := runUsage;
      outcome := TooManyTurns;
    }

    method CommitHistory(messages: seq<Message>, env: Env)
      modifies `history, `saved
      ensures history == Commit(cfg, env, messages)
      ensures saved == if cfg.hasSessions && env.saves then history else old(saved)
    {
      var stripped := StripProfileMessages(messages);
      var folded := Fold.FoldOldTurns(stripped, cfg.keepRecentFullTurns);
      history := folded;
      TrimHistory(env);
      if cfg.hasSessions && env.saves {
        saved := history;
      }
    }

    method TrimRound(env: Env, asked: nat) returns (droppedTurns: nat)
      modifies `history
      ensures history == Round(cfg.maxHistoryMessages, SummariserOf(cfg, env), old(history), asked)
      ensures droppedTurns == Trim(old(history), cfg.maxHistoryMessages).droppedTurns
    {
      var prevBody := Summary.ExtractBody(history);
      var kept, dropped, n := TrimByUserTurns(history, cfg.maxHistoryMessages);
      ghost var t := TrimResult(kept, dropped, n);
      assert t == Trim(history, cfg.maxHistoryMessages);
      if n == 0 {
        return 0;
      }
      var body := Summary.FinalizeSummary(cfg.style, cfg.policy, prevBody, dropped, env.compress(asked));
      assert body == SummariserOf(cfg, env)(prevBody, dropped, asked);
      var next := Summary.UpsertSummary(kept, body);
      history := next;
      droppedTurns := n;
    }

    /** The second phase of trimHistory: rounds while the list is still over the cap. */
    method TrimWhileOver(env: Env)
      modifies `history
      ensures history == TrimMore(cfg.maxHistoryMessages, SummariserOf(cfg, env), old(history), 1)
    {
      ghost var summarise := SummariserOf(cfg, env);
      ghost var result := TrimMore(cfg.maxHistoryMessages, summarise, history, 1);
      var asked := 1;
      while cfg.maxHistoryMessages > 0 && |history| > cfg.maxHistoryMessages
        invariant TrimMore(cfg.maxHistoryMessages, summarise, history, asked) == result
        decreases UserCount(history)
      {
        var n := TrimRound(env, asked);
        if n == 0 {
          break;
        }
        asked := asked + 1;
      }
    }

    /** trimHistory: trims and inserts the summary, which may call for more trimming. */
    method TrimHistory(env: Env)
      modifies `history
      ensures history == Conversation.TrimHistory(cfg, env, old(history))
    {
      if cfg.maxHistoryMessages <= 0 || |history| <= cfg.maxHistoryMessages {
        return;
      }
      var n := TrimRound(env, 0);
      if n > 0 {
        TrimWhileOver(env);
      }
    }

    method Reset(deletes: bool)
      modifies this
      ensures State() == Conversation.Reset(cfg, old(State()), deletes) && running == old(running)
    {
      history := [];
      lastUsage := NO_USAGE;
      sessionUsage := NO_USAGE;
      if cfg.hasSessions && deletes {
        saved := [];
      }
    }

    method RestoreSession(loads: bool)
      modifies `history
      ensures State() == Conversation.Restore(cfg, old(State()), loads)
    {
      if cfg.hasSessions && loads {
        history := saved;
      }
    }
  }
}
