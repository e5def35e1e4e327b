/** The laws of a session: one Run, and then every sequence of Runs, Resets and restores. */
module SessionLaws {
  import opened Llm
  import opened History
  import opened Wrappers
  import opened Conversation
  import opened Grammar
  import opened LoopLaws
  import Fold
  import Profile
  import Summary
  import Text
  import TrimLaws

  /** A system prompt that neither marker can claim. */
  predicate PlainPrompt(cfg: Config) {
    MainSystem(SystemMessage(SystemPrompt(cfg)))
  }

  function Keep(cfg: Config): Option<nat> {
    Fold.KeepFull(cfg.keepRecentFullTurns)
  }

  /** The history is within its cap, unless a single turn alone exceeds it. */
  predicate FitsCap(cfg: Config, h: seq<Message>) {
    cfg.maxHistoryMessages > 0 ==> |h| <= cfg.maxHistoryMessages || |TurnsOf(h)| == 1
  }

  predicate GoodHistory(cfg: Config, h: seq<Message>) {
    h == [] || (Committed(Keep(cfg), h) && FitsCap(cfg, h))
  }

  predicate GoodSession(cfg: Config, s: Session) {
    GoodHistory(cfg, s.history) && GoodHistory(cfg, s.saved)
  }

  // ---- where a Run starts ----

  function Core(cfg: Config, h: seq<Message>): seq<Message> {
    if h != [] then Prefix(h) else WithoutProfiles([SystemMessage(SystemPrompt(cfg))])
  }

  function Past(h: seq<Message>): seq<seq<Message>> {
    if h != [] then TurnsOf(h) else []
  }

  /** What the filter leaves of the messages a Run starts from. */
  lemma StartIsCore(cfg: Config, h: seq<Message>)
    requires h != [] ==> PlainSystem(Prefix(h)) && Fold.AllClosed(TurnsOf(h))
    ensures WithoutProfiles(if h != [] then h else [SystemMessage(SystemPrompt(cfg))]) ==
            Core(cfg, h) + Flatten(Past(h))
  {
    if h == [] {
      assert Core(cfg, h) + Flatten(Past(h)) == Core(cfg, h);
    } else {
      Fold.ClosedTurnsAreShaped(TurnsOf(h));
      JoinAfterSplit(h);
      WithoutProfilesKeeps(Prefix(h));
      WithoutProfilesKeeps(Flatten(TurnsOf(h)));
      WithoutProfilesConcat(Prefix(h), Flatten(TurnsOf(h)));
    }
  }

  lemma CoreIsPlain(cfg: Config, h: seq<Message>)
    requires h != [] ==> PlainSystem(Prefix(h))
    ensures PlainSystem(Core(cfg, h))
  {
    assert [SystemMessage(SystemPrompt(cfg))][1..] == [];
  }

  /** A Run starts inside a new open turn that holds just the input. */
  lemma RunStarts(cfg: Config, h: seq<Message>, input: string, block: Profile.RenderedBlock)
    requires h != [] ==> PlainSystem(Prefix(h)) && Fold.AllClosed(TurnsOf(h))
    ensures InTurn(Core(cfg, h), Past(h), [UserMessage(input)],
                   SessionMessages(cfg, h, block) + [UserMessage(input)])
  {
    StartIsCore(cfg, h);
    CoreIsPlain(cfg, h);
    FirstRequest(if h != [] then h else [SystemMessage(SystemPrompt(cfg))], Core(cfg, h), Past(h), input, block);
  }

  lemma FirstRequest(messages: seq<Message>, core: seq<Message>, past: seq<seq<Message>>, input: string,
                     block: Profile.RenderedBlock)
    requires WithoutProfiles(messages) == core + Flatten(past) && PlainSystem(core) && Fold.AllClosed(past)
    ensures InTurn(core, past, [UserMessage(input)], Inject(messages, block) + [UserMessage(input)])
  {
    Fold.ClosedTurnsAreShaped(past);
    InjectBetween(messages, core, Flatten(past), block);
    SlotIsFiltered(core, Slot(block), Flatten(past));
    assert Flatten(past) == Flatten(past) + [];
    AppendToTurn(core, Flatten(past), [], Inject(messages, block), [UserMessage(input)]);
    assert [] + [UserMessage(input)] == [UserMessage(input)];
  }

  // ---- what a commit leaves ----

  /** All folded turns if they fit, otherwise those that do with the summary. */
  function FittingTurns(max: int, core: seq<Message>, folded: seq<seq<Message>>): seq<seq<Message>> {
    if max <= 0 || |core + Flatten(folded)| <= max || |folded| == 1 then folded
    else folded[DropCount(2, folded, max)..]
  }

  /** The turns that survive a commit. */
  function KeptTurns(cfg: Config, core: seq<Message>, turns: seq<seq<Message>>): seq<seq<Message>> {
    FittingTurns(cfg.maxHistoryMessages, core, Fold.FoldedTurns(turns, cfg.keepRecentFullTurns))
  }

  /** The kept turns are the newest of the turns there were, all but the newest keepRecent of them
      folded. */
  ghost predicate FoldedSuffix(keepRecent: int, turns: seq<seq<Message>>, kept: seq<seq<Message>>) {
    exists folded: seq<seq<Message>> :: Fold.FoldedFrom(turns, folded, keepRecent) &&
      |kept| <= |folded| && kept == folded[|folded| - |kept|..]
  }

  lemma KeptIsFoldedSuffix(cfg: Config, core: seq<Message>, turns: seq<seq<Message>>)
    requires Fold.AllClosed(turns) && turns != []
    ensures FoldedSuffix(cfg.keepRecentFullTurns, turns, KeptTurns(cfg, core, turns))
  {
    var folded, kept := Fold.FoldedTurns(turns, cfg.keepRecentFullTurns), KeptTurns(cfg, core, turns);
    Fold.FoldLeaves(turns, cfg.keepRecentFullTurns);
    Fold.FoldKeepsGrammar(turns, cfg.keepRecentFullTurns);
    assert kept == folded[|folded| - |kept|..];
  }

  lemma CommitFolds(cfg: Config, env: Env, messages: seq<Message>, core: seq<Message>, turns: seq<seq<Message>>)
    requires WithoutProfiles(messages) == core + Flatten(turns)
    requires NoUser(core) && Fold.AllClosed(turns) && turns != []
    ensures Commit(cfg, env, messages) ==
            TrimHistory(cfg, env, core + Flatten(Fold.FoldedTurns(turns, cfg.keepRecentFullTurns)))
  {
    Fold.FoldOldOfTurns(core, turns, cfg.keepRecentFullTurns);
  }

  lemma JoinedIsGood(cfg: Config, prefix: seq<Message>, turns: seq<seq<Message>>)
    requires CommittedPrefix(prefix) && Fold.AllClosed(turns) && turns != []
    requires Keep(cfg).Some? ==> Fold.Folded(turns, Keep(cfg).value)
    requires !OverCap(cfg.maxHistoryMessages, prefix + Flatten(turns)) || |turns| == 1
    ensures GoodHistory(cfg, prefix + Flatten(turns))
    ensures Prefix(prefix + Flatten(turns)) == prefix && TurnsOf(prefix + Flatten(turns)) == turns
  {
    Fold.ClosedTurnsAreShaped(turns);
    CoreIsPlainSystem(prefix);
    SplitAfterJoin(prefix, turns);
  }

  lemma UntrimmedIsGood(cfg: Config, summarise: Summariser, core: seq<Message>, folded: seq<seq<Message>>)
    requires CommittedPrefix(core) && Fold.AllClosed(folded) && folded != []
    requires Keep(cfg).Some? ==> Fold.Folded(folded, Keep(cfg).value)
    requires !OverCap(cfg.maxHistoryMessages, core + Flatten(folded)) || |folded| == 1
    ensures var h := TrimMore(cfg.maxHistoryMessages, summarise, core + Flatten(folded), 0);
            && GoodHistory(cfg, h) && h != [] && TurnsOf(h) == folded && Prefix(h) == core
  {
    CoreIsPlainSystem(core);
    if |folded| == 1 {
      TrimLaws.NoRoundNeeded(cfg.maxHistoryMessages, summarise, core, folded, 0);
    }
    JoinedIsGood(cfg, core, folded);
  }

  lemma FoldedIsGood(cfg: Config, summarise: Summariser, core: seq<Message>, folded: seq<seq<Message>>)
    requires CommittedPrefix(core) && Fold.AllClosed(folded) && folded != []
    requires Keep(cfg).Some? ==> Fold.Folded(folded, Keep(cfg).value)
    ensures var h := TrimMore(cfg.maxHistoryMessages, summarise, core + Flatten(folded), 0);
            && GoodHistory(cfg, h) && h != []
            && TurnsOf(h) == FittingTurns(cfg.maxHistoryMessages, core, folded)
            && Prefix(h) != [] && Prefix(h)[0] == core[0]
  {
    if !OverCap(cfg.maxHistoryMessages, core + Flatten(folded)) || |folded| == 1 {
      UntrimmedIsGood(cfg, summarise, core, folded);
    } else {
      TrimmedIsGood(cfg, summarise, core, folded);
    }
  }

  /** A commit keeps the system message, keeps whole turns from the newest back, and leaves a
      good history. */
  lemma CommitIsGood(cfg: Config, env: Env, messages: seq<Message>, core: seq<Message>, turns: seq<seq<Message>>)
    requires WithoutProfiles(messages) == core + Flatten(turns)
    requires CommittedPrefix(core) && Fold.AllClosed(turns) && turns != []
    ensures var h := Commit(cfg, env, messages);
            && GoodHistory(cfg, h) && h != []
            && TurnsOf(h) == KeptTurns(cfg, core, turns)
            && Prefix(h) != [] && Prefix(h)[0] == core[0]
  {
    CoreIsPlainSystem(core);
    CommitFolds(cfg, env, messages, core, turns);
    Fold.FoldKeepsGrammar(turns, cfg.keepRecentFullTurns);
    FoldedIsGood(cfg, SummariserOf(cfg, env), core, Fold.FoldedTurns(turns, cfg.keepRecentFullTurns));
  }

  lemma TrimmedIs(max: int, summarise: Summariser, core: seq<Message>, folded: seq<seq<Message>>, d: nat)
    returns (body: string)
    requires CommittedPrefix(core) && Fold.AllClosed(folded) && |folded| > 1 && d == DropCount(2, folded, max)
    requires OverCap(max, core + Flatten(folded))
    ensures d < |folded|
    ensures TrimMore(max, summarise, core + Flatten(folded), 0) ==
            TrimLaws.SummarySlot(core[0], body) + Flatten(folded[d..])
  {
    assert core == [core[0]] + core[1..];
    TrimLaws.TrimOverCap(max, summarise, core[0], core[1..], folded);
    body := TrimLaws.TrimSummary(max, summarise, Summary.ExtractBody(core + Flatten(folded)), |core|, folded);
  }

  lemma TrimmedIsGood(cfg: Config, summarise: Summariser, core: seq<Message>, folded: seq<seq<Message>>)
    requires CommittedPrefix(core) && Fold.AllClosed(folded) && |folded| > 1
    requires Keep(cfg).Some? ==> Fold.Folded(folded, Keep(cfg).value)
    requires OverCap(cfg.maxHistoryMessages, core + Flatten(folded))
    ensures var h := TrimMore(cfg.maxHistoryMessages, summarise, core + Flatten(folded), 0);
            && GoodHistory(cfg, h) && h != []
            && TurnsOf(h) == folded[DropCount(2, folded, cfg.maxHistoryMessages)..]
            && Prefix(h)[0] == core[0]
  {
    var max, d := cfg.maxHistoryMessages, DropCount(2, folded, cfg.maxHistoryMessages);
    var body := TrimmedIs(max, summarise, core, folded, d);
    DropCountIsLeast(2, folded, max);
    SuffixIsGood(cfg, core[0], body, folded, d);
  }

  /** A system message, a summary and the newest turns that fit beside them. */
  lemma SuffixIsGood(cfg: Config, system: Message, body: string, turns: seq<seq<Message>>, d: nat)
    requires MainSystem(system) && Fold.AllClosed(turns) && d < |turns|
    requires Keep(cfg).Some? ==> Fold.Folded(turns, Keep(cfg).value)
    requires 2 + Size(turns[d..]) <= cfg.maxHistoryMessages || d == |turns| - 1
    ensures var h := TrimLaws.SummarySlot(system, body) + Flatten(turns[d..]);
            && GoodHistory(cfg, h) && h != [] && TurnsOf(h) == turns[d..] && Prefix(h)[0] == system
  {
    JoinedIsGood(cfg, TrimLaws.SummarySlot(system, body), turns[d..]);
  }

  // ---- one Run ----

  /** The loop of a Run sends only requests that fit, and ends with the open turn closed. */
  lemma LoopOfRun(cfg: Config, s: Session, input: string, env: Env) returns (turn: seq<Message>)
    requires PlainPrompt(cfg) && Committed(None, s.history)
    ensures CommittedPrefix(Core(cfg, s.history)) && Fold.AllClosed(Past(s.history))
    ensures AllRequests(RunLoop(cfg, s.history, input, env).requests)
    ensures var end := RunLoop(cfg, s.history, input, env);
            end.outcome.Answer? ==>
              && ClosedTurn(turn) && turn[0] == UserMessage(input)
              && WithoutProfiles(end.messages) == Core(cfg, s.history) + Flatten(Past(s.history) + [turn])
  {
    var h := s.history;
    var core, past := Core(cfg, h), Past(h);
    assert CommittedPrefix(core) && Fold.AllClosed(past) by {
      assert [SystemMessage(SystemPrompt(cfg))][1..] == [];
    }
    CoreIsPlainSystem(core);
    RunStarts(cfg, h, input, env.profile(0));
    turn := LoopKeepsGrammar(cfg, env, core, past, [UserMessage(input)],
                             SessionMessages(cfg, h, env.profile(0)) + [UserMessage(input)], NO_USAGE, 1, []);
    FlattenOne(past, turn);
  }

  /** The turns a commit keeps are the newest of the folded ones: none is folded when the number of
      recent turns is negative or not exceeded, otherwise all but that many, and all but one when it
      is 0. */
  lemma CommitFoldsOldTurns(cfg: Config, env: Env, messages: seq<Message>, core: seq<Message>,
                            turns: seq<seq<Message>>)
    requires WithoutProfiles(messages) == core + Flatten(turns)
    requires CommittedPrefix(core) && Fold.AllClosed(turns) && turns != []
    ensures FoldedSuffix(cfg.keepRecentFullTurns, turns, TurnsOf(Commit(cfg, env, messages)))
  {
    CommitIsGood(cfg, env, messages, core, turns);
    KeptIsFoldedSuffix(cfg, core, turns);
  }

  /** What an answered Run commits. */
  lemma CommitOfRun(cfg: Config, s: Session, input: string, env: Env, turn: seq<Message>)
    requires CommittedPrefix(Core(cfg, s.history)) && Fold.AllClosed(Past(s.history)) && ClosedTurn(turn)
    requires WithoutProfiles(RunLoop(cfg, s.history, input, env).messages) ==
             Core(cfg, s.history) + Flatten(Past(s.history) + [turn])
    ensures var h := Commit(cfg, env, RunLoop(cfg, s.history, input, env).messages);
            && GoodHistory(cfg, h) && h != []
            && TurnsOf(h) == KeptTurns(cfg, Core(cfg, s.history), Past(s.history) + [turn])
            && TurnsOf(h) != [] && TurnsOf(h)[|TurnsOf(h)| - 1] == turn
            && Prefix(h) != [] && Prefix(h)[0] == Core(cfg, s.history)[0]
  {
    var core, past := Core(cfg, s.history), Past(s.history);
    CommitIsGood(cfg, env, RunLoop(cfg, s.history, input, env).messages, core, past + [turn]);
    NewestTurnSurvives(cfg, core, past, turn);
  }

  /** A Run either fails and leaves history, session usage and transcript untouched, or
      commits: the new turn starts with the input, survives verbatim as the newest turn, and the
      history is good, even where the old one only fits the grammar. Every Chat request it sent fits
      the grammar. */
  lemma RunKeepsSession(cfg: Config, s: Session, input: string, env: Env) returns (turn: seq<Message>)
    requires PlainPrompt(cfg) && Committed(None, s.history)
    ensures var r := Run(cfg, s, input, env);
            && AllRequests(r.requests)
            && (!r.outcome.Answer? ==>
                  r.session.history == s.history && r.session.sessionUsage == s.sessionUsage
                  && r.session.saved == s.saved)
            && (r.outcome.Answer? ==>
                  && ClosedTurn(turn) && turn[0] == UserMessage(input)
                  && GoodHistory(cfg, r.session.history) && r.session.history != []
                  && TurnsOf(r.session.history) == KeptTurns(cfg, Core(cfg, s.history), Past(s.history) + [turn])
                  && TurnsOf(r.session.history)[|TurnsOf(r.session.history)| - 1] == turn
                  && Prefix(r.session.history)[0] == Core(cfg, s.history)[0]
                  && r.session.sessionUsage == s.sessionUsage.Add(r.session.lastUsage)
                  && r.session.saved == if cfg.hasSessions && env.saves then r.session.history else s.saved)
  {
    turn := LoopOfRun(cfg, s, input, env);
    if RunLoop(cfg, s.history, input, env).outcome.Answer? {
      CommitOfRun(cfg, s, input, env, turn);
    }
  }

  lemma NewestTurnSurvives(cfg: Config, core: seq<Message>, past: seq<seq<Message>>, turn: seq<Message>)
    requires Fold.AllClosed(past) && ClosedTurn(turn)
    ensures var kept := KeptTurns(cfg, core, past + [turn]);
            kept != [] && kept[|kept| - 1] == turn
  {
    Fold.FoldKeepsGrammar(past + [turn], cfg.keepRecentFullTurns);
  }

  /** The usage of the first n Chat calls: prompt, completion, total and calls each add up. */
  ghost predicate AddsUp(env: Env, n: nat, u: Usage) {
    && u.prompt == Sum((t: nat) => env.reply(t).usage.prompt, 1, n)
    && u.completion == Sum((t: nat) => env.reply(t).usage.completion, 1, n)
    && u.total == Sum((t: nat) => TotalOf(env.reply(t).usage), 1, n)
    && u.calls == Sum((t: nat) => CallsOf(env.reply(t).usage), 1, n)
  }

  /** A Run with n Chat requests ends where its turns stop, with the trimmed text of the last reply or
      with the reason. */
  ghost predicate EndsWhereItStops(cfg: Config, env: Env, n: nat, outcome: Outcome) {
    exists end: Outcome :: StopsAt(cfg, env, 1, if end.ChatFailed? then n else n + 1, end) &&
      outcome == if end.Answer? then Answer(Text.TrimSpace(end.text)) else end
  }

  lemma LoopOfRunStops(cfg: Config, h: seq<Message>, input: string, env: Env)
    ensures var end := RunLoop(cfg, h, input, env);
            && StopsAt(cfg, env, 1, if end.outcome.ChatFailed? then |end.requests| else |end.requests| + 1, end.outcome)
            && AddsUp(env, |end.requests|, end.usage)
  {
    var messages := SessionMessages(cfg, h, env.profile(0)) + [UserMessage(input)];
    LoopStopsAt(cfg, env, messages, NO_USAGE, 1, []);
    LoopCountsEveryCall(cfg, env, messages, NO_USAGE, 1, []);
    SpentAddsUp(env, 1, |RunLoop(cfg, h, input, env).requests|);
  }

  /** What a Run makes of its loop. */
  lemma RunIsLoop(cfg: Config, s: Session, input: string, env: Env)
    requires cfg.hasProvider && !Text.AllSpaces(input)
    ensures var r, end := Run(cfg, s, input, env), RunLoop(cfg, s.history, input, env);
            && r.requests == end.requests && r.session.lastUsage == end.usage
            && r.outcome == (if end.outcome.Answer? then Answer(Text.TrimSpace(end.outcome.text)) else end.outcome)
            && (end.outcome.Answer? ==> r.session.history == Commit(cfg, env, end.messages))
  {
    Text.BlankIffNothingLeft(input);
  }

  /** When and how a Run ends, and what it costs. Without a provider or input it refuses and changes
      nothing; otherwise it ends where its turns stop, and its usage adds up over every Chat
      request, a failed one included. */
  lemma RunEnds(cfg: Config, s: Session, input: string, env: Env)
    ensures var r := Run(cfg, s, input, env);
            if !cfg.hasProvider then r == RunResult(s, NoProvider, [])
            else if Text.AllSpaces(input) then r == RunResult(s, EmptyInput, [])
            else EndsWhereItStops(cfg, env, |r.requests|, r.outcome) && AddsUp(env, |r.requests|, r.session.lastUsage)
  {
    Text.BlankIffNothingLeft(input);
    if cfg.hasProvider && !Text.AllSpaces(input) {
      RunIsLoop(cfg, s, input, env);
      LoopOfRunStops(cfg, s.history, input, env);
    }
  }

  /** What a Run starts from: the history, or the configured prompt. */
  lemma CoreIsPrompt(cfg: Config, h: seq<Message>)
    requires PlainPrompt(cfg) && Committed(None, h)
    ensures h != [] ==> Core(cfg, h) == Prefix(h) && Past(h) == TurnsOf(h)
    ensures h == [] ==> |Core(cfg, h)| == 1 && Core(cfg, h)[0].role == System && Past(h) == []
    ensures h == [] && cfg.systemPrompt != "" ==> Core(cfg, h) == [SystemMessage(cfg.systemPrompt)]
  {
    assert [SystemMessage(SystemPrompt(cfg))][1..] == [];
  }

  /** What was said in a Run of n replies: the input, and then reply by reply with the tool results. */
  ghost predicate SaidInRun(cfg: Config, env: Env, input: string, n: int, said: seq<Message>) {
    n >= 0 && said != [] && said[0] == UserMessage(input) && Heard(cfg, env, 1, 1 + n, said[1..])
  }

  /** Everything a Run sends, word for word: each Chat request is the system messages of the history,
      or the configured prompt, the profile block of that moment, the finished turns of the
      history, and the input with all replies and tool results so far. */
  lemma RunAsks(cfg: Config, s: Session, input: string, env: Env)
    returns (core: seq<Message>, past: seq<seq<Message>>, said: seq<Message>)
    requires PlainPrompt(cfg) && Committed(None, s.history) && cfg.hasProvider && !Text.AllSpaces(input)
    ensures core == Core(cfg, s.history) && past == Past(s.history)
    ensures s.history != [] ==> core == Prefix(s.history) && past == TurnsOf(s.history)
    ensures s.history == [] ==> |core| == 1 && core[0].role == System && past == []
    ensures s.history == [] && cfg.systemPrompt != "" ==> core == [SystemMessage(cfg.systemPrompt)]
    ensures var r := Run(cfg, s, input, env);
            && SaidInRun(cfg, env, input, |r.requests| - (if r.outcome.ChatFailed? then 1 else 0), said)
            && RequestsSay(cfg, env, core, past, [UserMessage(input)], 1, 0, r.requests, said)
    ensures WithoutProfiles(RunLoop(cfg, s.history, input, env).messages) == core + (Flatten(past) + said)
  {
    core, past := Core(cfg, s.history), Past(s.history);
    CoreIsPrompt(cfg, s.history);
    RunIsLoop(cfg, s, input, env);
    said := RunSaid(cfg, s.history, input, env);
  }

  /** What an answered Run with n Chat requests leaves: its newest turn is the input with all replies
      and tool results, its older ones are the newest of those there were, folded as configured,
      and its text is that of the last reply. */
  ghost predicate Left(cfg: Config, env: Env, input: string, past: seq<seq<Message>>, said: seq<Message>,
                       outcome: Outcome, n: nat, h: seq<Message>) {
    && SaidInRun(cfg, env, input, n, said)
    && TurnsOf(h) != [] && TurnsOf(h)[|TurnsOf(h)| - 1] == said
    && FoldedSuffix(cfg.keepRecentFullTurns, past + [said], TurnsOf(h))
    && outcome == Answer(Text.TrimSpace(said[|said| - 1].content))
  }

  lemma LoopLeaves(cfg: Config, s: Session, input: string, env: Env, said: seq<Message>)
    requires PlainPrompt(cfg) && Committed(None, s.history) && RunLoop(cfg, s.history, input, env).outcome.Answer?
    requires var end := RunLoop(cfg, s.history, input, env);
             && SaidInRun(cfg, env, input, |end.requests|, said)
             && WithoutProfiles(end.messages) == Core(cfg, s.history) + (Flatten(Past(s.history)) + said)
    ensures var end := RunLoop(cfg, s.history, input, env);
            Left(cfg, env, input, Past(s.history), said, Answer(Text.TrimSpace(end.outcome.text)), |end.requests|,
                 Commit(cfg, env, end.messages))
  {
    SaidIsNewest(cfg, s, input, env, said);
    AnswerIsSaid(cfg, s.history, input, env, said);
  }

  lemma RunLeaves(cfg: Config, s: Session, input: string, env: Env)
    returns (past: seq<seq<Message>>, said: seq<Message>)
    requires PlainPrompt(cfg) && Committed(None, s.history) && Run(cfg, s, input, env).outcome.Answer?
    ensures past == if s.history != [] then TurnsOf(s.history) else []
    ensures var r := Run(cfg, s, input, env);
            Left(cfg, env, input, past, said, r.outcome, |r.requests|, r.session.history)
  {
    Text.BlankIffNothingLeft(input);
    RunIsLoop(cfg, s, input, env);
    var core;
    core, past, said := RunAsks(cfg, s, input, env);
    LoopLeaves(cfg, s, input, env, said);
  }

  lemma RunSaid(cfg: Config, h: seq<Message>, input: string, env: Env) returns (said: seq<Message>)
    requires PlainPrompt(cfg) && Committed(None, h)
    ensures LoopSaid(cfg, env, Core(cfg, h), Past(h), [UserMessage(input)], 1, 0, RunLoop(cfg, h, input, env), said)
    ensures said != [] && said[0] == UserMessage(input)
  {
    if h != [] {
      CoreIsPlainSystem(Prefix(h));
    }
    RunStarts(cfg, h, input, env.profile(0));
    said := LoopSays(cfg, env, Core(cfg, h), Past(h), [UserMessage(input)],
                     SessionMessages(cfg, h, env.profile(0)) + [UserMessage(input)], NO_USAGE, 1, []);
    assert said[0] == [UserMessage(input)][0];
  }

  lemma SameTail(a: seq<Message>, b: seq<Message>, x: seq<Message>, y: seq<Message>)
    requires a + (b + x) == a + (b + y)
    ensures x == y
  {
    assert (a + (b + x))[|a| + |b|..] == x;
    assert (a + (b + y))[|a| + |b|..] == y;
  }

  /** What was said is the turn that closes, which survives as the newest. */
  lemma SaidIsNewest(cfg: Config, s: Session, input: string, env: Env, said: seq<Message>)
    requires PlainPrompt(cfg) && Committed(None, s.history) && RunLoop(cfg, s.history, input, env).outcome.Answer?
    requires WithoutProfiles(RunLoop(cfg, s.history, input, env).messages) ==
             Core(cfg, s.history) + (Flatten(Past(s.history)) + said)
    ensures var h := Commit(cfg, env, RunLoop(cfg, s.history, input, env).messages);
            && TurnsOf(h) != [] && TurnsOf(h)[|TurnsOf(h)| - 1] == said
            && FoldedSuffix(cfg.keepRecentFullTurns, Past(s.history) + [said], TurnsOf(h))
  {
    var turn := LoopOfRun(cfg, s, input, env);
    FlattenOne(Past(s.history), turn);
    SameTail(Core(cfg, s.history), Flatten(Past(s.history)), said, turn);
    CommitOfRun(cfg, s, input, env, turn);
    KeptIsFoldedSuffix(cfg, Core(cfg, s.history), Past(s.history) + [turn]);
  }

  lemma AnswerIsSaid(cfg: Config, h: seq<Message>, input: string, env: Env, said: seq<Message>)
    requires var end := RunLoop(cfg, h, input, env);
             end.outcome.Answer? && SaidInRun(cfg, env, input, |end.requests|, said)
    ensures |said| > 1 && RunLoop(cfg, h, input, env).outcome.text == said[|said| - 1].content
  {
    var end := RunLoop(cfg, h, input, env);
    LoopOfRunStops(cfg, h, input, env);
    HeardLast(cfg, env, 1, 1 + |end.requests|, said[1..]);
  }

  // ---- every sequence of operations ----

  datatype Op = RunOp(input: string, env: Env) | ResetOp(deletes: bool) | RestoreOp(loads: bool)

  function Step(cfg: Config, s: Session, op: Op): Session {
    match op
    case RunOp(input, env) => Run(cfg, s, input, env).session
    case ResetOp(deletes) => Reset(cfg, s, deletes)
    case RestoreOp(loads) => Restore(cfg, s, loads)
  }

  function Exec(cfg: Config, s: Session, ops: seq<Op>): Session {
    if ops == [] then s else Step(cfg, Exec(cfg, s, ops[..|ops| - 1]), ops[|ops| - 1])
  }

  /** The Chat requests of a whole sequence of operations. */
  function Requests(cfg: Config, s: Session, ops: seq<Op>): seq<seq<Message>> {
    if ops == [] then []
    else
      var before, op := ops[..|ops| - 1], ops[|ops| - 1];
      Requests(cfg, s, before) +
        if op.RunOp? then Run(cfg, Exec(cfg, s, before), op.input, op.env).requests else []
  }

  /** A session whose history and transcript fit the grammar, under whatever limits they were
      saved. */
  predicate GrammaticalSession(s: Session) {
    Committed(None, s.history) && Committed(None, s.saved)
  }

  lemma StepKeepsSession(cfg: Config, s: Session, op: Op)
    requires PlainPrompt(cfg) && GrammaticalSession(s)
    ensures GrammaticalSession(Step(cfg, s, op))
    ensures GoodSession(cfg, s) ==> GoodSession(cfg, Step(cfg, s, op))
    ensures op.RunOp? ==> AllRequests(Run(cfg, s, op.input, op.env).requests)
  {
    if op.RunOp? {
      var turn := RunKeepsSession(cfg, s, op.input, op.env);
    }
  }

  /** After any sequence of Runs, successful or not, Resets and restores, the history and the
      stored transcript fit the grammar, and so does every Chat request ever sent. */
  lemma {:induction false} EverySessionFits(cfg: Config, s: Session, ops: seq<Op>)
    requires PlainPrompt(cfg) && GrammaticalSession(s)
    ensures GrammaticalSession(Exec(cfg, s, ops))
    ensures AllRequests(Requests(cfg, s, ops))
  {
    if ops != [] {
      EverySessionFits(cfg, s, ops[..|ops| - 1]);
      StepKeepsSession(cfg, Exec(cfg, s, ops[..|ops| - 1]), ops[|ops| - 1]);
    }
  }

  /** A session that starts good, an empty one for example, stays good: it also keeps the cap and
      the fold. */
  lemma {:induction false} EverySessionIsGood(cfg: Config, s: Session, ops: seq<Op>)
    requires PlainPrompt(cfg) && GoodSession(cfg, s)
    ensures GoodSession(cfg, Exec(cfg, s, ops))
    ensures AllRequests(Requests(cfg, s, ops))
  {
    EverySessionFits(cfg, s, ops);
    if ops != [] {
      EverySessionIsGood(cfg, s, ops[..|ops| - 1]);
      StepKeepsSession(cfg, Exec(cfg, s, ops[..|ops| - 1]), ops[|ops| - 1]);
    }
  }

  /** A transcript that only fits the grammar, saved under other limits, is good from the first
      answered Run after its restore on. */
  lemma OldTranscriptBecomesGood(cfg: Config, s: Session, ops: seq<Op>, input: string, env: Env)
    requires PlainPrompt(cfg) && GrammaticalSession(s)
    ensures var r := Run(cfg, Exec(cfg, s, ops), input, env);
            r.outcome.Answer? ==>
              && GoodHistory(cfg, r.session.history)
              && (cfg.hasSessions && env.saves ==> GoodSession(cfg, r.session))
  {
    EverySessionFits(cfg, s, ops);
    var turn := RunKeepsSession(cfg, Exec(cfg, s, ops), input, env);
  }

  /** The usage of the Runs that answered since the last Reset. */
  function Answered(cfg: Config, s: Session, ops: seq<Op>): seq<Usage> {
    if ops == [] then []
    else
      var before := ops[..|ops| - 1];
      AnsweredAfter(cfg, Exec(cfg, s, before), ops[|ops| - 1], Answered(cfg, s, before))
  }

  function AnsweredAfter(cfg: Config, s: Session, op: Op, us: seq<Usage>): seq<Usage> {
    match op
    case RunOp(input, env) =>
      var r := Run(cfg, s, input, env);
      if r.outcome.Answer? then us + [r.session.lastUsage] else us
    case ResetOp(_) => []
    case RestoreOp(_) => us
  }

  function Total(us: seq<Usage>): Usage {
    if us == [] then NO_USAGE else Total(us[..|us| - 1]).Add(us[|us| - 1])
  }

  lemma TotalAfter(us: seq<Usage>, u: Usage)
    ensures Total(us + [u]) == Total(us).Add(u)
  {
    assert (us + [u])[..|us|] == us;
  }

  lemma StepAddsUsage(cfg: Config, s: Session, op: Op, us: seq<Usage>)
    requires s.sessionUsage == Total(us)
    ensures Step(cfg, s, op).sessionUsage == Total(AnsweredAfter(cfg, s, op, us))
  {
    if op.RunOp? {
      TotalAfter(us, Run(cfg, s, op.input, op.env).session.lastUsage);
    }
  }

  /** Session usage counts exactly the Runs that answered since the last Reset. */
  lemma {:induction false} SessionUsageIsTotal(cfg: Config, s: Session, ops: seq<Op>)
    requires s.sessionUsage == NO_USAGE
    ensures Exec(cfg, s, ops).sessionUsage == Total(Answered(cfg, s, ops))
  {
    if ops != [] {
      var before := ops[..|ops| - 1];
      SessionUsageIsTotal(cfg, s, before);
      StepAddsUsage(cfg, Exec(cfg, s, before), ops[|ops| - 1], Answered(cfg, s, before));
    }
  }

  // ---- when a restore changes nothing ----

  /** Restoring is a no-op if and only if there is no store, the store does not answer, or what it
      answers is the history; an empty store answers the empty transcript. */
  lemma RestoreIsNoOpIff(cfg: Config, s: Session, loads: bool)
    ensures Restore(cfg, s, loads) == s <==> !cfg.hasSessions || !loads || s.saved == s.history
    ensures s.saved == [] ==>
              (Restore(cfg, s, loads) == s <==> !cfg.hasSessions || !loads || s.history == [])
  {
  }

  /** Right after an answered Run the store gives back the session, unless the save of that Run was
      lost and the transcript from before it differs. */
  lemma RestoreAfterRunIff(cfg: Config, s: Session, input: string, env: Env, loads: bool)
    requires Run(cfg, s, input, env).outcome.Answer?
    ensures var r := Run(cfg, s, input, env).session;
            Restore(cfg, r, loads) == r <==> !cfg.hasSessions || !loads || env.saves || s.saved == r.history
  {
  }

  /** The failing case is reached by one answered Run whose save is lost: the restore then forgets
      the whole conversation. */
  lemma RestoreForgets(cfg: Config, s: Session, input: string, env: Env)
    requires PlainPrompt(cfg) && cfg.hasSessions && !env.saves && s.history == s.saved == []
    requires Run(cfg, s, input, env).outcome.Answer?
    ensures var r := Run(cfg, s, input, env).session;
            r.history != [] && Restore(cfg, r, true).history == []
  {
    var turn := RunKeepsSession(cfg, s, input, env);
  }

  /** A saved session comes back after a Reset that leaves the transcript, and no other does. */
  lemma SavedSessionComesBack(cfg: Config, s: Session, input: string, env: Env, deletes: bool)
    requires cfg.hasSessions && env.saves && Run(cfg, s, input, env).outcome.Answer?
    ensures var r := Run(cfg, s, input, env).session;
            Restore(cfg, Reset(cfg, r, deletes), true) ==
            Session(if deletes then [] else r.history, NO_USAGE, NO_USAGE, if deletes then [] else r.history)
  {
  }

  // ---- exactly when the grammar holds ----

  lemma FirstCommit(cfg: Config, env: Env, messages: seq<Message>, core: seq<Message>, turn: seq<Message>)
    requires WithoutProfiles(messages) == core + turn && NoUser(core) && ClosedTurn(turn)
    ensures Commit(cfg, env, messages) == core + turn
  {
    FlattenOne([], turn);
    assert [] + [turn] == [turn];
    assert Flatten([turn]) == turn;
    CommitFolds(cfg, env, messages, core, [turn]);
    Fold.FoldKeepsGrammar([turn], cfg.keepRecentFullTurns);
    assert Fold.FoldedTurns([turn], cfg.keepRecentFullTurns) == [turn];
    TrimLaws.NoRoundNeeded(cfg.maxHistoryMessages, SummariserOf(cfg, env), core, [turn], 0);
  }

  lemma FirstLoop(cfg: Config, input: string, env: Env) returns (turn: seq<Message>)
    requires RunLoop(cfg, [], input, env).outcome.Answer?
    ensures ClosedTurn(turn) && WithoutProfiles(RunLoop(cfg, [], input, env).messages) == Core(cfg, []) + turn
  {
    RunStarts(cfg, [], input, env.profile(0));
    var start := SessionMessages(cfg, [], env.profile(0)) + [UserMessage(input)];
    turn := LoopKeepsGrammar(cfg, env, Core(cfg, []), [], [UserMessage(input)], start, NO_USAGE, 1, []);
    assert Flatten([]) + turn == turn;
  }

  /** The first history of a session, for any system prompt: what the filter leaves of the
      prompt, and the finished turn. */
  lemma FirstHistory(cfg: Config, s: Session, input: string, env: Env) returns (turn: seq<Message>)
    requires s.history == [] && Run(cfg, s, input, env).outcome.Answer?
    ensures ClosedTurn(turn)
    ensures Run(cfg, s, input, env).session.history == WithoutProfiles([SystemMessage(SystemPrompt(cfg))]) + turn
  {
    turn := FirstLoop(cfg, input, env);
    CoreIsPlain(cfg, []);
    FirstCommit(cfg, env, RunLoop(cfg, [], input, env).messages, Core(cfg, []), turn);
  }

  lemma PlainCoreIff(cfg: Config, core: seq<Message>)
    requires core == WithoutProfiles([SystemMessage(SystemPrompt(cfg))])
    ensures NoUser(core) && (CommittedPrefix(core) <==> PlainPrompt(cfg))
  {
    var prompt := SystemMessage(SystemPrompt(cfg));
    assert [prompt][1..] == [];
    assert core == if IsProfile(prompt) then [] else [prompt];
  }

  lemma OneTurnIsCommittedIff(keep: Option<nat>, core: seq<Message>, turn: seq<Message>)
    requires NoUser(core) && ClosedTurn(turn) && (keep.Some? ==> keep.value > 0)
    ensures Committed(keep, core + turn) <==> CommittedPrefix(core)
  {
    TurnShapes(turn);
    assert Flatten([turn]) == turn;
    SplitAfterJoin(core, [turn]);
  }

  /** A session starts well-formed exactly when the system prompt begins with neither marker:
      a prompt that looks like a profile block is stripped from the history, and one that looks
      like a summary is taken for the summary. */
  lemma GrammarNeedsPlainPrompt(cfg: Config, s: Session, input: string, env: Env)
    requires s.history == [] && Run(cfg, s, input, env).outcome.Answer?
    ensures Committed(Keep(cfg), Run(cfg, s, input, env).session.history) <==> PlainPrompt(cfg)
  {
    var turn := FirstHistory(cfg, s, input, env);
    var core := WithoutProfiles([SystemMessage(SystemPrompt(cfg))]);
    PlainCoreIff(cfg, core);
    OneTurnIsCommittedIff(Keep(cfg), core, turn);
  }

  /** A provider that answers at once. */
  function Answering(saves: bool): Env {
    Env(_ => false, _ => Reply(false, Message(Assistant, "ok", [], "", ""), NO_USAGE), _ => "", (_, _) => "",
        _ => Summary.ChatFailed, saves)
  }

  lemma AnsweringAnswers(cfg: Config, s: Session, saves: bool)
    requires cfg.hasProvider
    ensures Run(cfg, s, "hi", Answering(saves)).outcome.Answer?
  {
    var env := Answering(saves);
    assert Text.TrimSpace("hi") != "" by {
      Text.TrimSpaceFixed("hi");
    }
    var messages := SessionMessages(cfg, s.history, env.profile(0)) + [UserMessage("hi")];
    assert TurnLoop(cfg, env, messages, NO_USAGE, 1, []).outcome.Answer?;
  }

  const EMPTY_SESSION := Session([], NO_USAGE, NO_USAGE, [])

  /** A prompt that is itself the profile marker does break the grammar, in the first Run. */
  lemma MarkerPromptBreaksGrammar(cfg: Config, saves: bool)
    requires cfg.hasProvider && cfg.systemPrompt == Profile.MARKER
    ensures Run(cfg, EMPTY_SESSION, "hi", Answering(saves)).outcome.Answer?
    ensures !Committed(Keep(cfg), Run(cfg, EMPTY_SESSION, "hi", Answering(saves)).session.history)
  {
    AnsweringAnswers(cfg, EMPTY_SESSION, saves);
    GrammarNeedsPlainPrompt(cfg, EMPTY_SESSION, "hi", Answering(saves));
  }

  lemma ExecOne(cfg: Config, s: Session, op: Op)
    ensures Exec(cfg, s, [op]) == Step(cfg, s, op)
  {
    assert [op][..0] == [];
  }

  lemma ForgottenAfterOne(cfg: Config, input: string, env: Env)
    requires PlainPrompt(cfg) && cfg.hasSessions && !env.saves && Run(cfg, EMPTY_SESSION, input, env).outcome.Answer?
    ensures var s := Exec(cfg, EMPTY_SESSION, [RunOp(input, env)]);
            s.history != [] && Restore(cfg, s, true).history == []
  {
    ExecOne(cfg, EMPTY_SESSION, RunOp(input, env));
    RestoreForgets(cfg, EMPTY_SESSION, input, env);
  }

  /** And a lost save does let a restore forget the conversation. */
  lemma LostSaveForgets(cfg: Config)
    requires cfg.hasProvider && cfg.hasSessions && PlainPrompt(cfg)
    ensures var s := Exec(cfg, EMPTY_SESSION, [RunOp("hi", Answering(false))]);
            s.history != [] && Restore(cfg, s, true).history == []
  {
    AnsweringAnswers(cfg, EMPTY_SESSION, false);
    ForgottenAfterOne(cfg, "hi", Answering(false));
  }

  // ---- tool results ----

  /** Every tool message appended under the default cap is at most 4096 runes. */
  lemma ToolMessagesAreCapped(cfg: Config, env: Env, turn: nat, calls: seq<ToolCall>, i: nat)
    requires cfg.maxToolResultChars == 0 && i < |calls|
    requires |env.toolResult(turn, i)| <= Text.MAX_INT
    ensures |ToolMessages(cfg, env, turn, calls)[i].content| <= DEFAULT_MAX_TOOL_RESULT_CHARS
  {
    Text.TruncatedFits(env.toolResult(turn, i), DEFAULT_MAX_TOOL_RESULT_CHARS);
  }
}
