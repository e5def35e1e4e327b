/** The conversation engine: what one Run, Reset or RestoreSession does to an agent's session.
    The provider, the tools, the profile memory and the summary model are oracles. */
module Conversation {
  import opened Llm
  import opened History
  import opened Wrappers
  import Fold
  import Profile
  import Summary
  import Text

  const DEFAULT_MAX_TURNS := 8
  const DEFAULT_MAX_TOOL_RESULT_CHARS := 4096

  datatype Config = Config(
    hasProvider: bool,
    hasSessions: bool,
    systemPrompt: string,
    maxTurns: int,
    maxToolResultChars: int,
    maxHistoryMessages: int,
    keepRecentFullTurns: int,
    policy: Summary.Policy,
    style: Summary.Style)

  /** The provider answers with the assistant role. */
  type AssistantMessage = m: Message | m.role == Assistant witness Message(Assistant, "", [], "", "")

  datatype Reply = Reply(failed: bool, message: AssistantMessage, usage: Usage)

  /** Everything a Run observes from outside, by turn: whether the context is done, the chat
      reply, the rendered profile block (Profile.Block of the memory of the moment, empty when
      the agent has none; index 0 is the one seen before the first turn), the result of the i-th
      call of a turn, the answers of the summary model in the order it is asked, and whether the
      session store accepts the save. */
  datatype Env = Env(
    cancelled: nat -> bool,
    reply: nat -> Reply,
    profile: nat -> Profile.RenderedBlock,
    toolResult: (nat, nat) -> string,
    compress: nat -> Summary.CompressReply,
    saves: bool)

  function MaxTurns(cfg: Config): (n: nat)
    ensures n > 0
  {
    if cfg.maxTurns <= 0 then DEFAULT_MAX_TURNS else cfg.maxTurns
  }

  /** The first line of the default prompt stands for the whole of it. */
  function SystemPrompt(cfg: Config): string {
    if cfg.systemPrompt == "" then "You are a helpful assistant with tools." else cfg.systemPrompt
  }

  // ---- the profile block ----

  predicate IsProfile(m: Message) {
    m.role == System && Profile.MARKER <= m.content
  }

  /** stripProfileMessages. */
  function WithoutProfiles(msgs: seq<Message>): (out: seq<Message>)
    ensures |out| <= |msgs|
  {
    if msgs == [] then []
    else if IsProfile(msgs[0]) then WithoutProfiles(msgs[1..])
    else [msgs[0]] + WithoutProfiles(msgs[1..])
  }

  function Slot(block: Profile.RenderedBlock): seq<Message> {
    if block == "" then [] else [SystemMessage(block)]
  }

  /** What upsertProfile does: old blocks go, the new one follows the leading system messages. */
  function Inject(msgs: seq<Message>, block: Profile.RenderedBlock): seq<Message> {
    if msgs == [] then Slot(block)
    else if IsProfile(msgs[0]) then Inject(msgs[1..], block)
    else if msgs[0].role == System then [msgs[0]] + Inject(msgs[1..], block)
    else Slot(block) + WithoutProfiles(msgs)
  }

  function LeadingSystems(msgs: seq<Message>): (n: nat)
    ensures n <= |msgs|
  {
    if msgs == [] || msgs[0].role != System then 0 else 1 + LeadingSystems(msgs[1..])
  }

  lemma InsertionCons(m: Message, rest: seq<Message>, slot: seq<Message>)
    requires m.role == System
    ensures var all := [m] + rest; var at := LeadingSystems(rest);
            all[..LeadingSystems(all)] + slot + all[LeadingSystems(all)..] == [m] + (rest[..at] + slot + rest[at..])
  {
    var all := [m] + rest;
    assert all[1..] == rest;
  }

  lemma InsertionFirst(m: Message, rest: seq<Message>, slot: seq<Message>)
    requires m.role != System
    ensures var all := [m] + rest;
            all[..LeadingSystems(all)] + slot + all[LeadingSystems(all)..] == slot + all
  {
  }

  lemma {:induction false} InjectIsInsertion(msgs: seq<Message>, block: Profile.RenderedBlock)
    ensures var filtered := WithoutProfiles(msgs);
            var at := LeadingSystems(filtered);
            Inject(msgs, block) == filtered[..at] + Slot(block) + filtered[at..]
  {
    if msgs != [] {
      InjectIsInsertion(msgs[1..], block);
      var rest := WithoutProfiles(msgs[1..]);
      if !IsProfile(msgs[0]) {
        if msgs[0].role == System {
          InsertionCons(msgs[0], rest, Slot(block));
        } else {
          InsertionFirst(msgs[0], rest, Slot(block));
        }
      }
    }
  }

  lemma {:induction false} WithoutProfilesConcat(a: seq<Message>, b: seq<Message>)
    ensures WithoutProfiles(a + b) == WithoutProfiles(a) + WithoutProfiles(b)
  {
    if a == [] {
      assert a + b == b;
    } else {
      assert (a + b)[1..] == a[1..] + b;
      WithoutProfilesConcat(a[1..], b);
    }
  }

  /** stripProfileMessages, as a loop. */
  method StripProfileMessages(msgs: seq<Message>) returns (out: seq<Message>)
    ensures out == WithoutProfiles(msgs)
  {
    out := [];
    for i := 0 to |msgs|
      invariant out == WithoutProfiles(msgs[..i])
    {
      assert msgs[..i + 1] == msgs[..i] + [msgs[i]];
      WithoutProfilesConcat(msgs[..i], [msgs[i]]);
      if !IsProfile(msgs[i]) {
        out := out + [msgs[i]];
      }
    }
    assert msgs[..|msgs|] == msgs;
  }

  method LeadingSystemsLoop(msgs: seq<Message>) returns (at: nat)
    ensures at == LeadingSystems(msgs)
  {
    at := 0;
    while at < |msgs| && msgs[at].role == System
      invariant at <= |msgs| && LeadingSystems(msgs) == at + LeadingSystems(msgs[at..])
    {
      at := at + 1;
    }
  }

  /** upsertProfile: filter, find the place, insert. */
  method UpsertProfile(msgs: seq<Message>, block: Profile.RenderedBlock) returns (out: seq<Message>)
    ensures out == Inject(msgs, block)
  {
    InjectIsInsertion(msgs, block);
    var filtered := StripProfileMessages(msgs);
    if block == "" {
      assert filtered == filtered[..LeadingSystems(filtered)] + [] + filtered[LeadingSystems(filtered)..];
      return filtered;
    }
    var insertAt := LeadingSystemsLoop(filtered);
    out := filtered[..insertAt] + [SystemMessage(block)] + filtered[insertAt..];
  }

  // ---- one Run ----

  /** sessionMessages: the working copy, with the system prompt on first use. */
  function SessionMessages(cfg: Config, history: seq<Message>, block: Profile.RenderedBlock): seq<Message> {
    Inject(if history != [] then history else [SystemMessage(SystemPrompt(cfg))], block)
  }

  function CapToolResult(cfg: Config, result: string): string {
    if cfg.maxToolResultChars < 0 then result
    else Text.Truncated(result, if cfg.maxToolResultChars == 0 then DEFAULT_MAX_TOOL_RESULT_CHARS
                                else cfg.maxToolResultChars)
  }

  /** A beginning of the text and the marker, together of exactly the size of the cap whenever the
      marker leaves room for a rune. */
  predicate Cut(cap: int, text: string, marker: string, content: string) {
    var kept := |content| - |marker|;
    && 0 < kept <= |text| && content == text[..kept] + marker
    && |content| == if cap > |marker| then cap else cap + |marker|
  }

  /** What is kept of a tool result under a cap, 4096 when it is 0 and none when it is negative: all
      of it, or a beginning and the marker that tells its original length. */
  predicate CappedFrom(max: int, result: string, content: string) {
    var cap := if max == 0 then 4096 else max;
    if max < 0 || |result| <= cap then content == result
    else Cut(cap, result, "\n...[truncated, original " + Text.Decimal(|result|) + " chars]", content)
  }

  lemma TruncatedIsCut(text: string, cap: int)
    requires 0 < cap < |text|
    ensures Cut(cap, text, Text.TruncationMarker(|text|), Text.Truncated(text, cap))
  {
    Text.TruncatedLength(text, cap);
  }

  lemma CapKeeps(cfg: Config, result: string)
    ensures CappedFrom(cfg.maxToolResultChars, result, CapToolResult(cfg, result))
  {
    var cap := if cfg.maxToolResultChars == 0 then 4096 else cfg.maxToolResultChars;
    if cfg.maxToolResultChars >= 0 && |result| > cap {
      TruncatedIsCut(result, cap);
      Text.MarkerText(|result|);
    }
  }

  /** The joined batch: one tool message per call, in call order. */
  function ToolMessages(cfg: Config, env: Env, turn: nat, calls: seq<ToolCall>): (msgs: seq<Message>)
    ensures Replies(calls, msgs)
  {
    var msgs := seq(|calls|, i requires 0 <= i < |calls| =>
      ToolMessage(calls[i], CapToolResult(cfg, env.toolResult(turn, i))));
    assert forall i :: 0 <= i < |calls| ==>
      msgs[i] == ToolMessage(calls[i], CapToolResult(cfg, env.toolResult(turn, i)));
    msgs
  }

  /** The message that answers call i of a turn: under its id and name, with what is kept of its
      result. */
  predicate ToolReply(cfg: Config, env: Env, turn: nat, calls: seq<ToolCall>, i: nat, msg: Message)
    requires i < |calls|
  {
    && msg.role == Tool && msg.toolCalls == []
    && msg.toolCallId == calls[i].id && msg.name == calls[i].name
    && CappedFrom(cfg.maxToolResultChars, env.toolResult(turn, i), msg.content)
  }

  /** Whatever the tools return, the batch holds their results, one for one and in call order. */
  lemma ToolMessagesHoldResults(cfg: Config, env: Env, turn: nat, calls: seq<ToolCall>)
    ensures var msgs := ToolMessages(cfg, env, turn, calls);
            |msgs| == |calls| && forall i :: 0 <= i < |calls| ==> ToolReply(cfg, env, turn, calls, i, msgs[i])
  {
    forall i | 0 <= i < |calls|
      ensures ToolReply(cfg, env, turn, calls, i, ToolMessages(cfg, env, turn, calls)[i])
    {
      CapKeeps(cfg, env.toolResult(turn, i));
    }
  }

  datatype Outcome =
    | Answer(text: string)
    | NoProvider | EmptyInput | AlreadyRunning
    | ContextDone | ChatFailed | TooManyTurns

  datatype LoopEnd = LoopEnd(outcome: Outcome, messages: seq<Message>, usage: Usage, requests: seq<seq<Message>>)

  /** The turn loop from a given turn on. `requests` are the Chat requests sent so far. */
  function TurnLoop(cfg: Config, env: Env, messages: seq<Message>, usage: Usage, turn: nat,
                    requests: seq<seq<Message>>): LoopEnd
    decreases MaxTurns(cfg) + 1 - turn
  {
    if turn > MaxTurns(cfg) then LoopEnd(TooManyTurns, messages, usage, requests)
    else if env.cancelled(turn) then LoopEnd(ContextDone, messages, usage, requests)
    else
      var request := Inject(messages, env.profile(turn));
      var reply := env.reply(turn);
      var spent := usage.Add(reply.usage.Normalized());
      if reply.failed then LoopEnd(ChatFailed, request, spent, requests + [request])
      else
        var answered := request + [reply.message];
        if reply.message.toolCalls == [] then
          LoopEnd(Answer(reply.message.content), answered, spent, requests + [request])
        else
          TurnLoop(cfg, env, answered + ToolMessages(cfg, env, turn, reply.message.toolCalls),
                   spent, turn + 1, requests + [request])
  }

  // ---- commit ----

  function UserCount(msgs: seq<Message>): nat {
    if msgs == [] then 0 else UserCount(msgs[..|msgs| - 1]) + if msgs[|msgs| - 1].role == User then 1 else 0
  }

  lemma {:induction false} UserCountConcat(a: seq<Message>, b: seq<Message>)
    ensures UserCount(a + b) == UserCount(a) + UserCount(b)
  {
    if b == [] {
      assert a + b == a;
    } else {
      assert (a + b)[..|a + b| - 1] == a + b[..|b| - 1];
      UserCountConcat(a, b[..|b| - 1]);
    }
  }

  lemma {:induction false} UserCountOfFiltered(msgs: seq<Message>)
    ensures UserCount(Summary.WithoutSummaries(msgs)) == UserCount(msgs)
  {
    if msgs != [] {
      var init, last := msgs[..|msgs| - 1], msgs[|msgs| - 1];
      UserCountOfFiltered(init);
      var kept := Summary.WithoutSummaries(init);
      if Summary.IsSummary(last) {
        assert Summary.WithoutSummaries(msgs) == kept;
      } else {
        assert (kept + [last])[..|kept|] == kept;
      }
    }
  }

  lemma UserCountOfUpsert(msgs: seq<Message>, body: string)
    ensures UserCount(Summary.Upsert(msgs, body)) == UserCount(msgs)
  {
    UserCountOfFiltered(msgs);
    var filtered := Summary.WithoutSummaries(msgs);
    var sticky := Summary.SummaryMessage(body);
    var at := if filtered != [] && filtered[0].role == System then 1 else 0;
    UserCountConcat(filtered[..at], [sticky]);
    UserCountConcat(filtered[..at] + [sticky], filtered[at..]);
    UserCountConcat(filtered[..at], filtered[at..]);
    assert filtered[..at] + filtered[at..] == filtered;
    assert [sticky][..0] == [];
  }

  lemma {:induction false} UserCountOfTurns(turns: seq<seq<Message>>)
    requires AllShaped(turns)
    ensures UserCount(Flatten(turns)) >= |turns|
  {
    if turns != [] {
      UserCountOfTurns(turns[1..]);
      UserCountConcat(turns[0], Flatten(turns[1..]));
      UserCountConcat(turns[0][..1], turns[0][1..]);
      assert turns[0] == turns[0][..1] + turns[0][1..];
      assert turns[0][..1][..0] == [];
    }
  }

  /** Every turn dropped takes a user message with it, and the summary put in its place brings none
      back; so the loop ends. */
  lemma TrimDropsUsers(msgs: seq<Message>, max: int, body: string)
    ensures UserCount(Trim(msgs, max).kept) + Trim(msgs, max).droppedTurns <= UserCount(msgs)
    ensures UserCount(Summary.Upsert(Trim(msgs, max).kept, body)) + Trim(msgs, max).droppedTurns <= UserCount(msgs)
  {
    var t := Trim(msgs, max);
    TrimShape(msgs, max);
    TrimConserves(msgs, max);
    JoinAfterSplit(msgs);
    var prefix, rest := Prefix(msgs), t.kept[|Prefix(msgs)|..];
    UserCountOfTurns(TurnsOf(msgs)[..t.droppedTurns]);
    UserCountConcat(prefix, t.dropped + rest);
    UserCountConcat(t.dropped, rest);
    UserCountConcat(prefix, rest);
    assert t.kept == prefix + rest;
    UserCountOfUpsert(t.kept, body);
  }

  /** Writes the summary body from the previous body, the dropped messages, and the number of
      times it was asked before in this commit. */
  type Summariser = (string, seq<Message>, nat) -> string

  function SummariserOf(cfg: Config, env: Env): Summariser {
    (prevBody: string, dropped: seq<Message>, asked: nat) =>
      Summary.Finalize(cfg.style, cfg.policy, prevBody, dropped, env.compress(asked))
  }

  /** One round of trimming: whole turns go, and what they said goes into the summary. */
  function Round(max: int, summarise: Summariser, history: seq<Message>, asked: nat): (next: seq<Message>)
    ensures Trim(history, max).droppedTurns > 0 ==> UserCount(next) < UserCount(history)
  {
    var t := Trim(history, max);
    if t.droppedTurns == 0 then history
    else
      var body := summarise(Summary.ExtractBody(history), t.dropped, asked);
      TrimDropsUsers(history, max, body);
      Summary.Upsert(t.kept, body)
  }

  predicate OverCap(max: int, history: seq<Message>) {
    0 < max < |history|
  }

  /** Rounds while over the cap: inserting the first summary may push the list over it again. */
  function TrimMore(max: int, summarise: Summariser, history: seq<Message>, asked: nat): seq<Message>
    decreases UserCount(history)
  {
    if !OverCap(max, history) || Trim(history, max).droppedTurns == 0 then history
    else TrimMore(max, summarise, Round(max, summarise, history, asked), asked + 1)
  }

  function TrimHistory(cfg: Config, env: Env, history: seq<Message>): seq<Message> {
    TrimMore(cfg.maxHistoryMessages, SummariserOf(cfg, env), history, 0)
  }

  function Commit(cfg: Config, env: Env, messages: seq<Message>): seq<Message> {
    TrimHistory(cfg, env, Fold.FoldOld(WithoutProfiles(messages), cfg.keepRecentFullTurns))
  }

  // ---- sessions ----

  /** An agent's session. `saved` is the stored transcript; empty when there is none. */
  datatype Session = Session(history: seq<Message>, lastUsage: Usage, sessionUsage: Usage, saved: seq<Message>)

  datatype RunResult = RunResult(session: Session, outcome: Outcome, requests: seq<seq<Message>>)

  function RunLoop(cfg: Config, history: seq<Message>, input: string, env: Env): LoopEnd {
    TurnLoop(cfg, env, SessionMessages(cfg, history, env.profile(0)) + [UserMessage(input)], NO_USAGE, 1, [])
  }

  function Run(cfg: Config, s: Session, input: string, env: Env): RunResult {
    if !cfg.hasProvider then RunResult(s, NoProvider, [])
    else if Text.TrimSpace(input) == "" then RunResult(s, EmptyInput, [])
    else
      var end := RunLoop(cfg, s.history, input, env);
      if !end.outcome.Answer? then RunResult(s.(lastUsage := end.usage), end.outcome, end.requests)
      else
        var history := Commit(cfg, env, end.messages);
        RunResult(
          Session(history, end.usage, s.sessionUsage.Add(end.usage),
                  if cfg.hasSessions && env.saves then history else s.saved),
          Answer(Text.TrimSpace(end.outcome.text)), end.requests)
  }

  /** Reset; `deletes` tells whether the store really deletes the transcript. */
  function Reset(cfg: Config, s: Session, deletes: bool): Session {
    Session([], NO_USAGE, NO_USAGE, if cfg.hasSessions && deletes then [] else s.saved)
  }

  /** RestoreSession; `loads` tells whether the store answers. */
  function Restore(cfg: Config, s: Session, loads: bool): Session {
    if cfg.hasSessions && loads then s.(history := s.saved) else s
  }
}
