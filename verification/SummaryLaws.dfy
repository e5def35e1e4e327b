/** What the sticky summary of a session says after any sequence of operations: of which dropped
    messages it is the summary, and how long it can get. */
module SummaryLaws {
  import opened Llm
  import opened History
  import opened Wrappers
  import opened Conversation
  import opened Grammar
  import opened SessionLaws
  import opened Summary
  import opened Distinct
  import Fold
  import Text
  import TrimLaws

  // ---- bounds that hold of a list of dropped messages hold of what was dropped first ----

  /** The facts of these messages fit the summary: no tool name breaks a line, at most twelve are
      distinct, and the text stays under the rune cap. */
  predicate Bounded(st: Style, dropped: seq<Message>) {
    && GoodNames(dropped)
    && |Dedupe(BulletKey(st), Facts(dropped))| <= MAX_BULLETS
    && Fits(st, Bullets(st, [], dropped))
  }

  lemma {:induction false} DedupeExtends(key: string -> string, a: seq<string>, b: seq<string>)
    ensures Dedupe(key, a) <= Dedupe(key, a + b)
  {
    if b == [] {
      assert a + b == a;
    } else {
      DedupeExtends(key, a, b[..|b| - 1]);
      assert (a + b)[..|a + b| - 1] == a + b[..|b| - 1];
    }
  }

  lemma {:induction false} FewerBulletsAreShorter(st: Style, bullets: seq<string>, k: nat)
    requires GoodStyle(st) && GoodBullets(bullets) && k <= |bullets|
    ensures |Rendering(st, bullets[..k])| <= |Rendering(st, bullets)|
  {
    if k < |bullets| {
      var init := bullets[..|bullets| - 1];
      RenderingGrows(st, bullets);
      FewerBulletsAreShorter(st, init, k);
      assert init[..k] == bullets[..k];
    } else {
      assert bullets[..k] == bullets;
    }
  }

  lemma AllBullets(st: Style, dropped: seq<Message>)
    requires |Dedupe(BulletKey(st), Facts(dropped))| <= MAX_BULLETS
    ensures Bullets(st, [], dropped) == Dedupe(BulletKey(st), Facts(dropped))
  {
    assert [] + Facts(dropped) == Facts(dropped);
  }

  lemma BulletsBefore(st: Style, before: seq<Message>, batch: seq<Message>)
    requires |Dedupe(BulletKey(st), Facts(before + batch))| <= MAX_BULLETS
    requires |Dedupe(BulletKey(st), Facts(before))| <= MAX_BULLETS
    ensures Bullets(st, [], before) <= Bullets(st, [], before + batch)
  {
    AllBullets(st, before);
    AllBullets(st, before + batch);
    CollectConcat(FactOf, before, batch);
    DedupeExtends(BulletKey(st), Facts(before), Facts(batch));
  }

  lemma FewerBulletsFit(st: Style, fewer: seq<string>, bullets: seq<string>)
    requires GoodStyle(st) && GoodBullets(bullets) && fewer <= bullets && Fits(st, bullets)
    ensures Fits(st, fewer)
  {
    assert bullets[..|fewer|] == fewer;
    FewerBulletsAreShorter(st, bullets, |fewer|);
  }

  lemma BoundedBefore(st: Style, before: seq<Message>, batch: seq<Message>)
    requires GoodStyle(st) && Bounded(st, before + batch)
    ensures Bounded(st, before)
  {
    PrefixFacts(st, before, batch);
    BulletsBefore(st, before, batch);
    BulletsAreGood(st, [], before + batch);
    FewerBulletsFit(st, Bullets(st, [], before), Bullets(st, [], before + batch));
  }

  // ---- the summary of everything dropped so far ----

  /** The summary the extractive rules write of these messages at once; none of none. */
  function SummaryOf(st: Style, dropped: seq<Message>): string {
    if dropped == [] then "" else Build(st, "", dropped)
  }

  lemma SummaryOfSome(st: Style, dropped: seq<Message>)
    requires dropped != []
    ensures SummaryOf(st, dropped) == Build(st, "", dropped)
  {
  }

  lemma RenderIsTrimmed(st: Style, bullets: seq<string>)
    requires GoodStyle(st) && GoodBullets(bullets) && Fits(st, bullets)
    ensures Text.TrimSpace(Render(st, bullets)) == Render(st, bullets)
  {
    RenderingIsJoined(st, bullets);
    Text.TrimSpaceFixed(Rendering(st, bullets));
  }

  lemma SummaryIsTrimmed(st: Style, dropped: seq<Message>)
    requires GoodStyle(st) && GoodNames(dropped) && Fits(st, Bullets(st, [], dropped))
    ensures Text.TrimSpace(SummaryOf(st, dropped)) == SummaryOf(st, dropped)
  {
    if dropped != [] {
      SummaryOfSome(st, dropped);
      BuildFromEmpty(st, dropped);
      BulletsAreGood(st, [], dropped);
      RenderIsTrimmed(st, Bullets(st, [], dropped));
    }
  }

  lemma SummariseFirst(st: Style, batch: seq<Message>)
    requires batch != []
    ensures Build(st, SummaryOf(st, []), batch) == SummaryOf(st, [] + batch)
  {
    assert [] + batch == batch;
  }

  lemma SummariseAgain(st: Style, before: seq<Message>, batch: seq<Message>)
    requires GoodStyle(st) && GoodNames(before) && before != []
    requires |Dedupe(BulletKey(st), Facts(before + batch))| <= MAX_BULLETS
    requires Fits(st, Bullets(st, [], before))
    ensures Build(st, SummaryOf(st, before), batch) == SummaryOf(st, before + batch)
  {
    SummaryOfSome(st, before);
    SummaryOfSome(st, before + batch);
    OneMoreTrim(st, before, batch);
  }

  lemma SummariseMore(st: Style, before: seq<Message>, batch: seq<Message>)
    requires GoodStyle(st) && Bounded(st, before + batch) && batch != []
    ensures Build(st, SummaryOf(st, before), batch) == SummaryOf(st, before + batch)
  {
    if before == [] {
      SummariseFirst(st, batch);
    } else {
      BoundedBefore(st, before, batch);
      SummariseAgain(st, before, batch);
    }
  }

  /** The summary model is not asked. */
  ghost predicate Extractive(cfg: Config) {
    GoodStyle(cfg.style) && (!cfg.policy.hasProvider || cfg.policy.disabled)
  }

  // ---- trimming one conversation ----

  /** The messages the trim loop drops, round after round. */
  function DroppedIn(max: int, summarise: Summariser, h: seq<Message>, asked: nat): seq<Message>
    decreases UserCount(h)
  {
    if !OverCap(max, h) || Trim(h, max).droppedTurns == 0 then []
    else Trim(h, max).dropped + DroppedIn(max, summarise, Round(max, summarise, h, asked), asked + 1)
  }

  lemma {:induction false} ExtractNothing(msgs: seq<Message>)
    requires NoSummaries(msgs)
    ensures ExtractBody(msgs) == ""
  {
    if msgs != [] {
      ExtractNothing(msgs[1..]);
    }
  }

  lemma {:induction false} ExtractFirst(a: seq<Message>, b: seq<Message>)
    requires NoSummaries(b)
    ensures ExtractBody(a + b) == ExtractBody(a)
  {
    if a == [] {
      assert a + b == b;
      ExtractNothing(b);
    } else {
      assert (a + b)[1..] == a[1..] + b;
      ExtractFirst(a[1..], b);
    }
  }

  lemma ExtractOfCore(core: seq<Message>, turns: seq<seq<Message>>)
    requires Fold.AllClosed(turns)
    ensures ExtractBody(core + Flatten(turns)) == ExtractBody(core)
  {
    TrimLaws.RestHasNoSummary(turns, 0);
    assert turns[0..] == turns;
    ExtractFirst(core, Flatten(turns));
  }

  lemma NoMoreRounds(max: int, summarise: Summariser, core: seq<Message>, turns: seq<seq<Message>>, asked: nat)
    requires NoUser(core) && Fold.AllClosed(turns) && turns != []
    requires !OverCap(max, core + Flatten(turns)) || DropCount(|core|, turns, max) == 0
    ensures TrimMore(max, summarise, core + Flatten(turns), asked) == core + Flatten(turns)
    ensures DroppedIn(max, summarise, core + Flatten(turns), asked) == []
  {
    Fold.ClosedTurnsAreShaped(turns);
    if OverCap(max, core + Flatten(turns)) {
      TrimLaws.TrimOfTurns(core, turns, max);
    }
  }

  lemma RoundGoesOn(max: int, summarise: Summariser, h: seq<Message>, asked: nat)
    requires OverCap(max, h) && Trim(h, max).droppedTurns > 0
    ensures TrimMore(max, summarise, h, asked) == TrimMore(max, summarise, Round(max, summarise, h, asked), asked + 1)
    ensures DroppedIn(max, summarise, h, asked) ==
            Trim(h, max).dropped + DroppedIn(max, summarise, Round(max, summarise, h, asked), asked + 1)
  {
  }

  lemma CoreBatch(max: int, core: seq<Message>, turns: seq<seq<Message>>, lead: nat)
    requires NoUser(core) && Fold.AllClosed(turns) && turns != [] && OverCap(max, core + Flatten(turns))
    requires lead == |core|
    ensures Trim(core + Flatten(turns), max).dropped == Flatten(turns[..DropCount(lead, turns, max)])
  {
    Fold.ClosedTurnsAreShaped(turns);
    TrimLaws.TrimOfTurns(core, turns, max);
  }

  lemma DroppedBatch(max: int, system: Message, sticky: seq<Message>, turns: seq<seq<Message>>, lead: nat)
    requires TrimLaws.Trimmable(max, system, sticky, turns, lead)
    ensures Trim([system] + sticky + Flatten(turns), max).dropped == Flatten(turns[..DropCount(lead, turns, max)])
  {
    CoreBatch(max, [system] + sticky, turns, lead);
  }

  lemma BatchIsSome(turns: seq<seq<Message>>, d: nat)
    requires Fold.AllClosed(turns) && 0 < d <= |turns|
    ensures Flatten(turns[..d]) != []
  {
    assert turns[..d][0] == turns[0];
  }

  // ---- what a summary carries over a round, it carries over a session ----

  /** `P(body, dropped)`: the body is right for these dropped messages, in that order. A summariser
      carries P when the body it writes is right for those messages and the new ones. */
  ghost predicate Carries(summarise: Summariser, P: (string, seq<Message>) -> bool) {
    forall body, before, batch, asked :: batch != [] && P(body, before) ==>
      P(Text.TrimSpace(summarise(body, batch, asked)), before + batch)
  }

  lemma NextSlot(system: Message, body: string, turns: seq<seq<Message>>)
    requires !IsSummary(system)
    ensures IsSummary(SummaryMessage(body))
    ensures TrimLaws.SummarySlot(system, body) == [system] + [SummaryMessage(body)]
    ensures ExtractBody(TrimLaws.SummarySlot(system, body) + Flatten(turns)) == Text.TrimSpace(body)
  {
    BodyOfSummaryMessage(body);
    ExtractAfterUpsert(system, Flatten(turns), body);
  }

  /** One round: a batch of turns goes, the summary of it takes its slot, and the loop goes on. */
  lemma OneRound(max: int, summarise: Summariser, system: Message, sticky: seq<Message>, turns: seq<seq<Message>>,
                 lead: nat, asked: nat)
    returns (rest: seq<seq<Message>>, batch: seq<Message>)
    requires TrimLaws.Trimmable(max, system, sticky, turns, lead)
    ensures batch != [] && Fold.AllClosed(rest) && 0 < |rest| < |turns|
    ensures Flatten(turns) == batch + Flatten(rest)
    ensures var h := [system] + sticky + Flatten(turns);
            var next := TrimLaws.SummarySlot(system, summarise(ExtractBody(h), batch, asked)) + Flatten(rest);
            && TrimMore(max, summarise, h, asked) == TrimMore(max, summarise, next, asked + 1)
            && DroppedIn(max, summarise, h, asked) == batch + DroppedIn(max, summarise, next, asked + 1)
  {
    var d := DropCount(lead, turns, max);
    batch, rest := Flatten(turns[..d]), turns[d..];
    FlattenSplit(turns, d);
    BatchIsSome(turns, d);
    TrimLaws.RoundOnConversation(max, summarise, system, sticky, turns, lead, asked);
    DroppedBatch(max, system, sticky, turns, lead);
    RoundGoesOn(max, summarise, [system] + sticky + Flatten(turns), asked);
  }

  /** What is left to trim still carries P, and what is left to drop comes after. */
  lemma RoundCarries(max: int, summarise: Summariser, P: (string, seq<Message>) -> bool, system: Message,
                     sticky: seq<Message>, turns: seq<seq<Message>>, lead: nat, asked: nat, before: seq<Message>)
    returns (slot: Message, rest: seq<seq<Message>>, batch: seq<Message>)
    requires Carries(summarise, P) && TrimLaws.Trimmable(max, system, sticky, turns, lead)
    requires P(ExtractBody([system] + sticky + Flatten(turns)), before)
    ensures IsSummary(slot) && Fold.AllClosed(rest) && 0 < |rest| < |turns|
    ensures Flatten(turns) == batch + Flatten(rest)
    ensures var h, next := [system] + sticky + Flatten(turns), [system] + [slot] + Flatten(rest);
            && P(ExtractBody(next), before + batch)
            && TrimMore(max, summarise, h, asked) == TrimMore(max, summarise, next, asked + 1)
            && DroppedIn(max, summarise, h, asked) == batch + DroppedIn(max, summarise, next, asked + 1)
  {
    rest, batch := OneRound(max, summarise, system, sticky, turns, lead, asked);
    var body := summarise(ExtractBody([system] + sticky + Flatten(turns)), batch, asked);
    slot := SummaryMessage(body);
    NextSlot(system, body, rest);
  }

  lemma {:induction false} TrimCarries(max: int, summarise: Summariser, P: (string, seq<Message>) -> bool,
      system: Message, sticky: seq<Message>, turns: seq<seq<Message>>, asked: nat, before: seq<Message>)
    requires Carries(summarise, P) && system.role == System && !IsSummary(system) && OptionalSummary(sticky)
    requires Fold.AllClosed(turns) && turns != []
    requires P(ExtractBody([system] + sticky + Flatten(turns)), before)
    ensures var h := [system] + sticky + Flatten(turns);
            P(ExtractBody(TrimMore(max, summarise, h, asked)), before + DroppedIn(max, summarise, h, asked))
    decreases |turns|
  {
    var h, lead := [system] + sticky + Flatten(turns), 1 + |sticky|;
    if !OverCap(max, h) || DropCount(lead, turns, max) == 0 {
      NoMoreRounds(max, summarise, [system] + sticky, turns, asked);
      assert before + [] == before;
    } else {
      var slot, rest, batch := RoundCarries(max, summarise, P, system, sticky, turns, lead, asked, before);
      TrimCarries(max, summarise, P, system, [slot], rest, asked + 1, before + batch);
      Regroup(before, batch, DroppedIn(max, summarise, [system] + [slot] + Flatten(rest), asked + 1));
    }
  }

  lemma NothingDropped(max: int, summarise: Summariser, core: seq<Message>, turns: seq<seq<Message>>, asked: nat)
    requires NoUser(core) && Fold.AllClosed(turns) && turns != []
    requires !OverCap(max, core + Flatten(turns)) || DropCount(|core|, turns, max) == 0
    ensures var h := core + Flatten(turns);
            Flatten(turns) == DroppedIn(max, summarise, h, asked) + Flatten(TurnsOf(TrimMore(max, summarise, h, asked)))
  {
    NoMoreRounds(max, summarise, core, turns, asked);
    Fold.ClosedTurnsAreShaped(turns);
    SplitAfterJoin(core, turns);
    assert [] + Flatten(turns) == Flatten(turns);
  }

  lemma GroupFirst(first: seq<Message>, rest: seq<Message>, later: seq<Message>, kept: seq<Message>)
    requires rest == later + kept
    ensures first + rest == first + later + kept
  {
  }

  /** Nothing is lost in between: what the loop drops and the turns it keeps are the turns there
      were. */
  lemma {:induction false} DroppedIsTheRest(max: int, summarise: Summariser, system: Message, sticky: seq<Message>,
                                            turns: seq<seq<Message>>, asked: nat)
    requires system.role == System && !IsSummary(system) && OptionalSummary(sticky)
    requires Fold.AllClosed(turns) && turns != []
    ensures var h := [system] + sticky + Flatten(turns);
            Flatten(turns) == DroppedIn(max, summarise, h, asked) + Flatten(TurnsOf(TrimMore(max, summarise, h, asked)))
    decreases |turns|
  {
    var h, lead := [system] + sticky + Flatten(turns), 1 + |sticky|;
    if !OverCap(max, h) || DropCount(lead, turns, max) == 0 {
      NothingDropped(max, summarise, [system] + sticky, turns, asked);
    } else {
      var slot, rest, batch := RoundCarries(max, summarise, (_, _) => true, system, sticky, turns, lead, asked, []);
      var next := [system] + [slot] + Flatten(rest);
      DroppedIsTheRest(max, summarise, system, [slot], rest, asked + 1);
      GroupFirst(batch, Flatten(rest), DroppedIn(max, summarise, next, asked + 1),
                 Flatten(TurnsOf(TrimMore(max, summarise, next, asked + 1))));
    }
  }

  // ---- one Run ----

  /** What the commit of a Run drops. */
  function RunDrops(cfg: Config, s: Session, input: string, env: Env): seq<Message> {
    DroppedIn(cfg.maxHistoryMessages, SummariserOf(cfg, env),
              Fold.FoldOld(WithoutProfiles(RunLoop(cfg, s.history, input, env).messages), cfg.keepRecentFullTurns), 0)
  }

  lemma CoreTells(cfg: Config, h: seq<Message>)
    requires PlainPrompt(cfg) && Committed(None, h)
    ensures CommittedPrefix(Core(cfg, h)) && ExtractBody(Core(cfg, h)) == ExtractBody(h)
  {
    if h == [] {
      assert [SystemMessage(SystemPrompt(cfg))][1..] == [];
    } else {
      JoinAfterSplit(h);
      ExtractOfCore(Prefix(h), TurnsOf(h));
    }
  }

  lemma CoreCarries(max: int, summarise: Summariser, P: (string, seq<Message>) -> bool, core: seq<Message>,
                    turns: seq<seq<Message>>, before: seq<Message>)
    requires Carries(summarise, P) && CommittedPrefix(core) && P(ExtractBody(core), before)
    requires Fold.AllClosed(turns) && turns != []
    ensures var h := core + Flatten(turns);
            P(ExtractBody(TrimMore(max, summarise, h, 0)), before + DroppedIn(max, summarise, h, 0))
  {
    ExtractOfCore(core, turns);
    assert core == [core[0]] + core[1..];
    TrimCarries(max, summarise, P, core[0], core[1..], turns, 0, before);
  }

  lemma CommitCarries(cfg: Config, env: Env, P: (string, seq<Message>) -> bool, messages: seq<Message>,
                      core: seq<Message>, turns: seq<seq<Message>>, before: seq<Message>)
    requires Carries(SummariserOf(cfg, env), P) && CommittedPrefix(core) && P(ExtractBody(core), before)
    requires WithoutProfiles(messages) == core + Flatten(turns) && Fold.AllClosed(turns) && turns != []
    ensures var folded := Fold.FoldOld(WithoutProfiles(messages), cfg.keepRecentFullTurns);
            P(ExtractBody(Commit(cfg, env, messages)),
              before + DroppedIn(cfg.maxHistoryMessages, SummariserOf(cfg, env), folded, 0))
  {
    var folded := Fold.FoldedTurns(turns, cfg.keepRecentFullTurns);
    CoreIsPlainSystem(core);
    Fold.FoldOldOfTurns(core, turns, cfg.keepRecentFullTurns);
    Fold.FoldKeepsGrammar(turns, cfg.keepRecentFullTurns);
    CoreCarries(cfg.maxHistoryMessages, SummariserOf(cfg, env), P, core, folded, before);
  }

  lemma RunCarries(cfg: Config, P: (string, seq<Message>) -> bool, s: Session, input: string, env: Env,
                   before: seq<Message>)
    requires PlainPrompt(cfg) && Committed(None, s.history) && Carries(SummariserOf(cfg, env), P)
    requires P(ExtractBody(s.history), before) && Run(cfg, s, input, env).outcome.Answer?
    ensures P(ExtractBody(Run(cfg, s, input, env).session.history), before + RunDrops(cfg, s, input, env))
  {
    var turn := LoopOfRun(cfg, s, input, env);
    CoreTells(cfg, s.history);
    CommitCarries(cfg, env, P, RunLoop(cfg, s.history, input, env).messages, Core(cfg, s.history),
                  Past(s.history) + [turn], before);
  }

  // ---- every sequence of operations ----

  /** The messages dropped from the history so far, and from the stored transcript. */
  datatype Ledger = Ledger(current: seq<Message>, stored: seq<Message>)

  function Entered(cfg: Config, s: Session, op: Op, l: Ledger): Ledger {
    match op
    case RunOp(input, env) =>
      if !Run(cfg, s, input, env).outcome.Answer? then l
      else
        var dropped := l.current + RunDrops(cfg, s, input, env);
        Ledger(dropped, if cfg.hasSessions && env.saves then dropped else l.stored)
    case ResetOp(deletes) => Ledger([], if cfg.hasSessions && deletes then [] else l.stored)
    case RestoreOp(loads) => if cfg.hasSessions && loads then Ledger(l.stored, l.stored) else l
  }

  /** The ledger of a session that starts empty. */
  function LedgerOf(cfg: Config, ops: seq<Op>): Ledger {
    if ops == [] then Ledger([], [])
    else
      var before := ops[..|ops| - 1];
      Entered(cfg, Exec(cfg, EMPTY_SESSION, before), ops[|ops| - 1], LedgerOf(cfg, before))
  }

  ghost predicate Right(P: (string, seq<Message>) -> bool, s: Session, l: Ledger) {
    P(ExtractBody(s.history), l.current) && P(ExtractBody(s.saved), l.stored)
  }

  lemma StepCarries(cfg: Config, P: (string, seq<Message>) -> bool, s: Session, op: Op, l: Ledger)
    requires PlainPrompt(cfg) && GrammaticalSession(s) && Right(P, s, l) && P("", [])
    requires op.RunOp? ==> Carries(SummariserOf(cfg, op.env), P)
    ensures Right(P, Step(cfg, s, op), Entered(cfg, s, op, l))
  {
    if op.RunOp? && Run(cfg, s, op.input, op.env).outcome.Answer? {
      RunCarries(cfg, P, s, op.input, op.env, l.current);
    }
  }

  lemma {:induction false} EverySummaryIsRight(cfg: Config, P: (string, seq<Message>) -> bool, ops: seq<Op>)
    requires PlainPrompt(cfg) && P("", [])
    requires forall i :: 0 <= i < |ops| && ops[i].RunOp? ==> Carries(SummariserOf(cfg, ops[i].env), P)
    ensures Right(P, Exec(cfg, EMPTY_SESSION, ops), LedgerOf(cfg, ops))
  {
    if ops != [] {
      var before := ops[..|ops| - 1];
      EverySummaryIsRight(cfg, P, before);
      EverySessionFits(cfg, EMPTY_SESSION, before);
      StepCarries(cfg, P, Exec(cfg, EMPTY_SESSION, before), ops[|ops| - 1], LedgerOf(cfg, before));
    }
  }

  // ---- the summary tells everything dropped so far ----

  /** The body is, word for word, the summary of these messages written at once, as far as that
      summary keeps all of them. */
  predicate Tells(st: Style, body: string, dropped: seq<Message>) {
    Bounded(st, dropped) ==> body == SummaryOf(st, dropped)
  }

  lemma ExtractiveTells(cfg: Config, env: Env, body: string, before: seq<Message>, batch: seq<Message>, asked: nat)
    requires Extractive(cfg) && Tells(cfg.style, body, before) && batch != []
    ensures Tells(cfg.style, Text.TrimSpace(SummariserOf(cfg, env)(body, batch, asked)), before + batch)
  {
    if Bounded(cfg.style, before + batch) {
      BoundedBefore(cfg.style, before, batch);
      SummariseMore(cfg.style, before, batch);
      SummaryIsTrimmed(cfg.style, before + batch);
      NotCompressed(cfg, body, batch, env.compress(asked));
    }
  }

  lemma NotCompressed(cfg: Config, body: string, batch: seq<Message>, reply: CompressReply)
    requires Extractive(cfg)
    ensures Finalize(cfg.style, cfg.policy, body, batch, reply) == Build(cfg.style, body, batch)
  {
  }

  /** Without the summary model, after any sequence of Runs, Resets and restores the sticky summary
      is, word for word, the summary of all messages dropped since the last Reset, as if they had
      been dropped at once; the condition is that their facts fit it. */
  lemma SummaryTellsAllDropped(cfg: Config, ops: seq<Op>)
    requires PlainPrompt(cfg) && Extractive(cfg)
    ensures Tells(cfg.style, ExtractBody(Exec(cfg, EMPTY_SESSION, ops).history), LedgerOf(cfg, ops).current)
    ensures Tells(cfg.style, ExtractBody(Exec(cfg, EMPTY_SESSION, ops).saved), LedgerOf(cfg, ops).stored)
  {
    var P := (body, dropped) => Tells(cfg.style, body, dropped);
    forall i | 0 <= i < |ops| && ops[i].RunOp?
      ensures Carries(SummariserOf(cfg, ops[i].env), P)
    {
      forall body, before, batch, asked | batch != [] && P(body, before)
        ensures P(Text.TrimSpace(SummariserOf(cfg, ops[i].env)(body, batch, asked)), before + batch)
      {
        ExtractiveTells(cfg, ops[i].env, body, before, batch, asked);
      }
    }
    assert P("", []);
    EverySummaryIsRight(cfg, P, ops);
  }

  // ---- and it stays short ----

  /** Four gibirunes: longer names and headers than any tool has. */
  const NAME_LIMIT := 0x1_0000_0000

  predicate ShortNames(st: Style, dropped: seq<Message>) {
    |st.header| <= NAME_LIMIT && forall i :: 0 <= i < |dropped| ==> |dropped[i].name| <= NAME_LIMIT
  }

  predicate ShortBullet(b: string) {
    |b| <= NAME_LIMIT + 100
  }

  lemma {:induction false} LinesAreShort(s: string)
    ensures forall i :: 0 <= i < |Text.SplitLines(s)| ==> |Text.SplitLines(s)[i]| <= |s|
  {
    if s != [] {
      LinesAreShort(s[1..]);
    }
  }

  lemma TrimPrefixShortens(s: string, prefix: string)
    ensures |TrimPrefix(s, prefix)| <= |s|
  {
  }

  lemma ParsedLineIsShort(line: string)
    ensures |ParseLine(line)| <= |line|
  {
    TrimSpaceShortens(line);
    TrimPrefixShortens(Text.TrimSpace(line), "- ");
    TrimSpaceShortens(TrimPrefix(Text.TrimSpace(line), "- "));
  }

  lemma BodyWithoutHeadersIsShort(st: Style, body: string)
    ensures |WithoutHeaders(st, body)| <= |body|
  {
    var once := TrimPrefix(Text.TrimSpace(body), st.header);
    TrimSpaceShortens(body);
    TrimPrefixShortens(Text.TrimSpace(body), st.header);
    TrimSpaceShortens(once);
    TrimPrefixShortens(Text.TrimSpace(once), st.legacy);
    TrimSpaceShortens(TrimPrefix(Text.TrimSpace(once), st.legacy));
  }

  lemma ParsedBulletsAreShort(st: Style, body: string)
    requires |body| <= MAX_SUMMARY_RUNES
    ensures forall i :: 0 <= i < |Parse(st, body)| ==> ShortBullet(Parse(st, body)[i])
  {
    var text := WithoutHeaders(st, body);
    var lines := Text.SplitLines(text);
    BodyWithoutHeadersIsShort(st, body);
    LinesAreShort(text);
    forall i | 0 <= i < |lines|
      ensures ShortBullet(ParseLine(lines[i]))
    {
      ParsedLineIsShort(lines[i]);
    }
    CollectHolds(ParseLine, lines, b => ShortBullet(b));
  }

  lemma FactIsShort(m: Message)
    requires |m.name| <= NAME_LIMIT
    ensures ShortBullet(FactOf(m))
  {
    Text.ClipOneLineShape(m.content, MAX_FACT_RUNES);
  }

  lemma FactsAreShort(st: Style, dropped: seq<Message>)
    requires ShortNames(st, dropped)
    ensures forall i :: 0 <= i < |Facts(dropped)| ==> ShortBullet(Facts(dropped)[i])
  {
    forall i | 0 <= i < |dropped|
      ensures ShortBullet(FactOf(dropped[i]))
    {
      FactIsShort(dropped[i]);
    }
    CollectHolds(FactOf, dropped, b => ShortBullet(b));
  }

  lemma BulletsAreShort(st: Style, prev: seq<string>, dropped: seq<Message>)
    requires forall i :: 0 <= i < |prev| ==> ShortBullet(prev[i])
    requires ShortNames(st, dropped)
    ensures forall i :: 0 <= i < |Bullets(st, prev, dropped)| ==> ShortBullet(Bullets(st, prev, dropped)[i])
  {
    FactsAreShort(st, dropped);
    DedupeHolds(BulletKey(st), prev + Facts(dropped), b => ShortBullet(b));
  }

  lemma {:induction false} ItemsAreShort(bullets: seq<string>)
    requires forall i :: 0 <= i < |bullets| ==> ShortBullet(bullets[i])
    ensures |Terminated(Items(bullets))| <= |bullets| * (NAME_LIMIT + 103)
  {
    if bullets != [] {
      var n := |bullets| - 1;
      ItemsAreShort(bullets[..n]);
      assert Items(bullets)[..n] == Items(bullets[..n]);
    }
  }

  lemma RenderingIsText(st: Style, bullets: seq<string>)
    requires |st.header| <= NAME_LIMIT && |bullets| <= MAX_BULLETS
    requires forall i :: 0 <= i < |bullets| ==> ShortBullet(bullets[i])
    ensures |Rendering(st, bullets)| <= Text.MAX_INT
  {
    ItemsAreShort(bullets);
    TrimSpaceShortens(st.header + "\n" + Terminated(Items(bullets)));
  }

  predicate Short(st: Style, body: string, dropped: seq<Message>) {
    ShortNames(st, dropped) ==> |body| <= MAX_SUMMARY_RUNES
  }

  lemma SummariserIsShort(cfg: Config, env: Env, body: string, before: seq<Message>, batch: seq<Message>, asked: nat)
    requires Short(cfg.style, body, before)
    ensures Short(cfg.style, Text.TrimSpace(SummariserOf(cfg, env)(body, batch, asked)), before + batch)
  {
    if ShortNames(cfg.style, before + batch) {
      assert forall i :: 0 <= i < |before| ==> before[i] == (before + batch)[i];
      assert forall i :: 0 <= i < |batch| ==> batch[i] == (before + batch)[|before| + i];
      ParsedBulletsAreShort(cfg.style, body);
      BulletsAreShort(cfg.style, Parse(cfg.style, body), batch);
      RenderingIsText(cfg.style, Bullets(cfg.style, Parse(cfg.style, body), batch));
      FinalizeFits(cfg.style, cfg.policy, body, batch, env.compress(asked));
    }
  }

  /** Whatever the summary model answers, after any sequence of Runs, Resets and restores the sticky
      summary has at most 512 runes, in the history and in the stored transcript. */
  lemma SummaryStaysShort(cfg: Config, ops: seq<Op>)
    requires PlainPrompt(cfg)
    ensures Short(cfg.style, ExtractBody(Exec(cfg, EMPTY_SESSION, ops).history), LedgerOf(cfg, ops).current)
    ensures Short(cfg.style, ExtractBody(Exec(cfg, EMPTY_SESSION, ops).saved), LedgerOf(cfg, ops).stored)
  {
    var P := (body, dropped) => Short(cfg.style, body, dropped);
    forall i | 0 <= i < |ops| && ops[i].RunOp?
      ensures Carries(SummariserOf(cfg, ops[i].env), P)
    {
      forall body, before, batch, asked | batch != [] && P(body, before)
        ensures P(Text.TrimSpace(SummariserOf(cfg, ops[i].env)(body, batch, asked)), before + batch)
      {
        SummariserIsShort(cfg, ops[i].env, body, before, batch, asked);
      }
    }
    assert P("", []);
    EverySummaryIsRight(cfg, P, ops);
  }
}
