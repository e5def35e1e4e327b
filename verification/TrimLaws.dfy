/** The two-phase trim of a commit in closed form: on a conversation it keeps exactly the
    longest suffix of whole turns that fits beside the system message and one summary. */
module TrimLaws {
  import opened Llm
  import opened History
  import opened Conversation
  import Fold
  import Summary
  import Text

  /** Trimming a split list by turns. */
  lemma TrimOfTurns(prefix: seq<Message>, turns: seq<seq<Message>>, max: int)
    requires NoUser(prefix) && AllShaped(turns) && turns != []
    requires 0 < max < |prefix + Flatten(turns)|
    ensures var d := DropCount(|prefix|, turns, max);
            Trim(prefix + Flatten(turns), max) ==
            TrimResult(prefix + Flatten(turns[d..]), Flatten(turns[..d]), d)
  {
    SplitAfterJoin(prefix, turns);
  }

  /** A conversation over the cap with a system message, at most one summary, and turns to give;
      `lead` counts the messages before the turns. */
  predicate Trimmable(max: int, system: Message, sticky: seq<Message>, turns: seq<seq<Message>>, lead: nat) {
    && system.role == System && !Summary.IsSummary(system) && Summary.OptionalSummary(sticky)
    && Fold.AllClosed(turns) && turns != []
    && lead == 1 + |sticky|
    && OverCap(max, [system] + sticky + Flatten(turns)) && DropCount(lead, turns, max) > 0
  }

  /** A round on a conversation: d turns go and the summary takes its slot. */
  lemma RoundOnConversation(max: int, summarise: Summariser, system: Message, sticky: seq<Message>,
                            turns: seq<seq<Message>>, lead: nat, asked: nat)
    requires Trimmable(max, system, sticky, turns, lead)
    ensures var h, d := [system] + sticky + Flatten(turns), DropCount(lead, turns, max);
            && Trim(h, max).droppedTurns == d
            && Round(max, summarise, h, asked) ==
               SummarySlot(system, summarise(Summary.ExtractBody(h), Flatten(turns[..d]), asked)) + Flatten(turns[d..])
  {
    var h, d := [system] + sticky + Flatten(turns), DropCount(lead, turns, max);
    var body := summarise(Summary.ExtractBody(h), Flatten(turns[..d]), asked);
    Fold.ClosedTurnsAreShaped(turns);
    TrimOfTurns([system] + sticky, turns, max);
    RestHasNoSummary(turns, d);
    Summary.UpsertOnConversation(system, sticky, Flatten(turns[d..]), body);
  }

  lemma RestHasNoSummary(turns: seq<seq<Message>>, d: nat)
    requires Fold.AllClosed(turns) && d <= |turns|
    ensures Summary.NoSummaries(Flatten(turns[d..]))
  {
    Fold.ClosedTurnsAreShaped(turns[d..]);
  }

  lemma NoRoundNeeded(max: int, summarise: Summariser, prefix: seq<Message>, turns: seq<seq<Message>>, asked: nat)
    requires NoUser(prefix) && Fold.AllClosed(turns) && turns != []
    requires DropCount(|prefix|, turns, max) == 0
    ensures TrimMore(max, summarise, prefix + Flatten(turns), asked) == prefix + Flatten(turns)
  {
    Fold.ClosedTurnsAreShaped(turns);
    if OverCap(max, prefix + Flatten(turns)) {
      TrimOfTurns(prefix, turns, max);
    }
  }

  /** After a trim the suffix needs no further one. */
  lemma DropCountSettles(lead: nat, turns: seq<seq<Message>>, max: int)
    ensures DropCount(lead, turns[DropCount(lead, turns, max)..], max) == 0
  {
    DropCountResumes(lead, lead, turns, max);
  }

  function SummarySlot(system: Message, body: string): seq<Message> {
    [system, Summary.SummaryMessage(body)]
  }

  lemma NoRoundAfter(max: int, summarise: Summariser, system: Message, body: string, turns: seq<seq<Message>>,
                     asked: nat)
    requires system.role == System && Fold.AllClosed(turns) && turns != [] && DropCount(2, turns, max) == 0
    ensures TrimMore(max, summarise, SummarySlot(system, body) + Flatten(turns), asked) ==
            SummarySlot(system, body) + Flatten(turns)
  {
    NoRoundNeeded(max, summarise, SummarySlot(system, body), turns, asked);
  }

  /** A round that leaves room for the summary is the last one. */
  lemma LastRound(max: int, summarise: Summariser, system: Message, sticky: seq<Message>,
                  turns: seq<seq<Message>>, lead: nat, asked: nat)
    requires Trimmable(max, system, sticky, turns, lead)
    requires DropCount(2, turns[DropCount(lead, turns, max)..], max) == 0
    ensures var h, d := [system] + sticky + Flatten(turns), DropCount(lead, turns, max);
            TrimMore(max, summarise, h, asked) ==
            SummarySlot(system, summarise(Summary.ExtractBody(h), Flatten(turns[..d]), asked)) + Flatten(turns[d..])
  {
    var h, d := [system] + sticky + Flatten(turns), DropCount(lead, turns, max);
    RoundOnConversation(max, summarise, system, sticky, turns, lead, asked);
    NoRoundAfter(max, summarise, system, summarise(Summary.ExtractBody(h), Flatten(turns[..d]), asked), turns[d..],
                 asked + 1);
  }

  lemma SecondRound(max: int, summarise: Summariser, system: Message, sticky: seq<Message>, turns: seq<seq<Message>>)
    requires system.role == System && !Summary.IsSummary(system) && |sticky| == 1 && Summary.IsSummary(sticky[0])
    requires Fold.AllClosed(turns) && turns != [] && max > 0 && DropCount(2, turns, max) > 0
    ensures var h, d := [system] + sticky + Flatten(turns), DropCount(2, turns, max);
            TrimMore(max, summarise, h, 1) ==
            SummarySlot(system, summarise(Summary.ExtractBody(h), Flatten(turns[..d]), 1)) + Flatten(turns[d..])
  {
    DropCountSettles(2, turns, max);
    LastRound(max, summarise, system, sticky, turns, 2, 1);
  }

  /** Once the summary is in place one more round is enough. */
  lemma SecondPhase(max: int, summarise: Summariser, system: Message, body: string, turns: seq<seq<Message>>)
    requires system.role == System && !Summary.IsSummary(system)
    requires Fold.AllClosed(turns) && turns != [] && max > 0
    ensures TrimMore(max, summarise, SummarySlot(system, body) + Flatten(turns), 1) ==
            SummarySlot(system, SecondBody(max, summarise, body, turns)) + Flatten(turns[DropCount(2, turns, max)..])
  {
    if DropCount(2, turns, max) == 0 {
      NoRoundNeeded(max, summarise, SummarySlot(system, body), turns, 1);
      assert turns[0..] == turns;
    } else {
      var sticky := [Summary.SummaryMessage(body)];
      Summary.BodyOfSummaryMessage(body);
      Summary.ExtractAfterUpsert(system, Flatten(turns), body);
      assert [system] + sticky == SummarySlot(system, body);
      SecondRound(max, summarise, system, sticky, turns);
    }
  }

  /** The summary after the second phase: only rewritten when more turns had to go. */
  function SecondBody(max: int, summarise: Summariser, body: string, turns: seq<seq<Message>>): string {
    var more := DropCount(2, turns, max);
    if more == 0 then body else summarise(Text.TrimSpace(body), Flatten(turns[..more]), 1)
  }

  /** The summary written when turns are dropped: in one go when the first phase already
      leaves room for it, otherwise in two, the second building on the first. */
  function TrimSummary(max: int, summarise: Summariser, prevBody: string, lead: nat, turns: seq<seq<Message>>): string
  {
    var first := DropCount(lead, turns, max);
    SecondBody(max, summarise, summarise(prevBody, Flatten(turns[..first]), 0), turns[first..])
  }

  /** The first round leaves the newer turns after the system message and the summary. */
  lemma FirstPhase(max: int, summarise: Summariser, system: Message, sticky: seq<Message>,
                   turns: seq<seq<Message>>, lead: nat)
    requires Trimmable(max, system, sticky, turns, lead)
    ensures var h, first := [system] + sticky + Flatten(turns), DropCount(lead, turns, max);
            var body := summarise(Summary.ExtractBody(h), Flatten(turns[..first]), 0);
            TrimMore(max, summarise, h, 0) ==
            TrimMore(max, summarise, SummarySlot(system, body) + Flatten(turns[first..]), 1)
  {
    RoundOnConversation(max, summarise, system, sticky, turns, lead, 0);
  }

  /** Dropping in two phases drops as many turns as the second alone. */
  lemma SuffixOfSuffix(lead: nat, turns: seq<seq<Message>>, max: int)
    requires lead <= 2
    ensures var rest := turns[DropCount(lead, turns, max)..];
            rest[DropCount(2, rest, max)..] == turns[DropCount(2, turns, max)..]
  {
    DropCountResumes(lead, 2, turns, max);
    var first := DropCount(lead, turns, max);
    DropDrop(turns, first, DropCount(2, turns[first..], max));
  }

  /** The two phases one after the other. */
  lemma BothPhases(max: int, summarise: Summariser, system: Message, sticky: seq<Message>,
                   turns: seq<seq<Message>>, lead: nat)
    requires Trimmable(max, system, sticky, turns, lead) && max > 0
    ensures var h, rest := [system] + sticky + Flatten(turns), turns[DropCount(lead, turns, max)..];
            TrimMore(max, summarise, h, 0) ==
            SummarySlot(system, TrimSummary(max, summarise, Summary.ExtractBody(h), lead, turns))
            + Flatten(rest[DropCount(2, rest, max)..])
  {
    var h, first := [system] + sticky + Flatten(turns), DropCount(lead, turns, max);
    FirstPhase(max, summarise, system, sticky, turns, lead);
    var body := summarise(Summary.ExtractBody(h), Flatten(turns[..first]), 0);
    SecondPhase(max, summarise, system, body, turns[first..]);
  }

  lemma DropsSome(lead: nat, turns: seq<seq<Message>>, max: int)
    requires lead <= 2 && |turns| > 1 && lead + Size(turns) > max
    ensures DropCount(lead, turns, max) > 0
    ensures 0 < DropCount(2, turns, max) < |turns|
  {
  }

  /** When the conversation is over the cap and has turns to give: it keeps the system
      message, one summary, and the newest turns from DropCount(2, ..) on, which by
      DropCountIsLeast and DropCountUnique is the longest suffix of whole turns that fits the
      cap together with the summary slot, or the newest turn alone when none fits. */
  lemma TrimOverCap(max: int, summarise: Summariser, system: Message, sticky: seq<Message>, turns: seq<seq<Message>>)
    requires system.role == System && !Summary.IsSummary(system) && Summary.OptionalSummary(sticky)
    requires Fold.AllClosed(turns) && |turns| > 1
    requires 0 < max < |[system] + sticky + Flatten(turns)|
    ensures var h, d := [system] + sticky + Flatten(turns), DropCount(2, turns, max);
            && 0 < d < |turns|
            && TrimMore(max, summarise, h, 0) ==
               SummarySlot(system, TrimSummary(max, summarise, Summary.ExtractBody(h), 1 + |sticky|, turns))
               + Flatten(turns[d..])
  {
    var lead := 1 + |sticky|;
    DropsSome(lead, turns, max);
    BothPhases(max, summarise, system, sticky, turns, lead);
    SuffixOfSuffix(lead, turns, max);
  }

  /** Otherwise nothing changes: the list fits, or its only turn is the newest one. */
  lemma TrimLeavesAlone(max: int, summarise: Summariser, system: Message, sticky: seq<Message>,
                        turns: seq<seq<Message>>)
    requires system.role == System && Summary.OptionalSummary(sticky)
    requires Fold.AllClosed(turns) && turns != []
    requires max <= 0 || |[system] + sticky + Flatten(turns)| <= max || |turns| == 1
    ensures var h := [system] + sticky + Flatten(turns); TrimMore(max, summarise, h, 0) == h
  {
    if |turns| == 1 {
      NoRoundNeeded(max, summarise, [system] + sticky, turns, 0);
    }
  }
}
