/** Which facts of which messages the sticky summary lists, and when the model's text takes its
    place, told by the messages themselves. */
module SummaryFacts {
  import opened Llm
  import opened Wrappers
  import opened Distinct
  import opened Summary
  import opened Text
  import Conversation
  import SessionLaws
  import SummaryLaws

  // ---- facts ----

  /** The messages that leave a fact: questions, tool results and short answers that say something. */
  predicate LeavesFact(m: Message) {
    !AllSpaces(m.content) &&
    (m.role == User || m.role == Tool || (m.role == Assistant && |TrimSpace(m.content)| <= 80))
  }

  /** The fact is who said it, and the content on one line of at most 64 runes. */
  predicate IsFactOf(fact: string, m: Message) {
    var said := ClipOneLine(m.content, 64);
    match m.role
    case User => fact == "user: " + said
    case Tool => fact == "tool:" + (if m.name == "" then "tool" else m.name) + ": " + said
    case Assistant => fact == "asst: " + said
    case System => false
  }

  lemma FactOfMessage(m: Message)
    ensures FactOf(m) != "" <==> LeavesFact(m)
    ensures LeavesFact(m) ==> IsFactOf(FactOf(m), m)
  {
    ClippedToNothingIff(m.content, MAX_FACT_RUNES);
    BlankIffNothingLeft(m.content);
    if m.role == Tool {
      var name := if m.name == "" then "tool" else m.name;
      assert "tool:" + name + ": " + ClipOneLine(m.content, 64) == ("tool:" + name) + ": " + ClipOneLine(m.content, 64);
    }
  }

  /** The positions, in order, of the messages that leave a fact. */
  ghost predicate FactPositions(msgs: seq<Message>, at: seq<nat>) {
    && Ascending(at)
    && (forall k :: 0 <= k < |at| ==> at[k] < |msgs|)
    && (forall i :: 0 <= i < |msgs| ==> (i in at <==> LeavesFact(msgs[i])))
  }

  /** The facts of the messages at these positions. */
  predicate FactsAre(msgs: seq<Message>, at: seq<nat>, facts: seq<string>) {
    |at| == |facts| && forall k :: 0 <= k < |at| ==> at[k] < |msgs| && IsFactOf(facts[k], msgs[at[k]])
  }

  lemma OnePositionMore(at: seq<nat>, n: nat)
    ensures forall i :: i in at + [n] <==> i in at || i == n
  {
  }

  lemma PositionsGrow(msgs: seq<Message>, m: Message, at: seq<nat>)
    requires FactPositions(msgs, at)
    ensures FactPositions(msgs + [m], if LeavesFact(m) then at + [|msgs|] else at)
  {
    OnePositionMore(at, |msgs|);
    assert |msgs| !in at;
  }

  lemma FactsGrow(msgs: seq<Message>, m: Message, at: seq<nat>, facts: seq<string>, fact: string)
    requires FactsAre(msgs, at, facts)
    ensures FactsAre(msgs + [m], at, facts)
    ensures IsFactOf(fact, m) ==> FactsAre(msgs + [m], at + [|msgs|], facts + [fact])
  {
  }

  lemma FactsAppend(msgs: seq<Message>, m: Message)
    ensures Facts(msgs + [m]) == Facts(msgs) + if LeavesFact(m) then [FactOf(m)] else []
    ensures LeavesFact(m) ==> IsFactOf(FactOf(m), m)
  {
    FactOfMessage(m);
    assert (msgs + [m])[..|msgs|] == msgs;
  }

  lemma OneFactMore(msgs: seq<Message>, m: Message, at: seq<nat>) returns (next: seq<nat>)
    requires FactPositions(msgs, at) && FactsAre(msgs, at, Facts(msgs))
    ensures FactPositions(msgs + [m], next) && FactsAre(msgs + [m], next, Facts(msgs + [m]))
  {
    next := if LeavesFact(m) then at + [|msgs|] else at;
    PositionsGrow(msgs, m, at);
    FactsAppend(msgs, m);
    FactsGrow(msgs, m, at, Facts(msgs), FactOf(m));
  }

  /** The facts of a list of messages are those of exactly the messages that leave one, in message
      order. */
  lemma {:induction false} FactsOfMessages(msgs: seq<Message>) returns (at: seq<nat>)
    ensures FactPositions(msgs, at) && FactsAre(msgs, at, Facts(msgs))
  {
    at := [];
    if msgs != [] {
      var init, m := msgs[..|msgs| - 1], msgs[|msgs| - 1];
      at := FactsOfMessages(init);
      at := OneFactMore(init, m, at);
      assert init + [m] == msgs;
    }
  }

  // ---- bullets ----

  /** Equal up to the white space around them and to lower-casing. */
  predicate SameText(lower: char -> char, a: string, b: string) {
    SameUnder(lower, TrimSpace(a), TrimSpace(b))
  }

  lemma SameKeyIff(st: Style, a: string, b: string)
    ensures BulletKey(st)(a) == BulletKey(st)(b) <==> SameText(st.lower, a, b)
    ensures BulletKey(st)(a) == "" <==> AllSpaces(a)
  {
    BlankIffNothingLeft(a);
    SameUnderIff(st.lower, TrimSpace(a), TrimSpace(b));
  }

  predicate FirstOfItsText(lower: char -> char, texts: seq<string>, i: nat)
    requires i < |texts|
  {
    !AllSpaces(texts[i]) && forall j :: 0 <= j < i ==> !SameText(lower, texts[j], texts[i])
  }

  lemma FirstOfItsTextIff(st: Style, texts: seq<string>, i: nat)
    requires i < |texts|
    ensures FirstMention(BulletKey(st), texts, i) <==> FirstOfItsText(st.lower, texts, i)
  {
    forall j | 0 <= j <= i
      ensures BulletKey(st)(texts[j]) == BulletKey(st)(texts[i]) <==> SameText(st.lower, texts[j], texts[i])
    {
      SameKeyIff(st, texts[j], texts[i]);
    }
    SameKeyIff(st, texts[i], texts[i]);
  }

  /** The bullets after a trim: of the old ones and the new facts, those said first, the newest twelve
      of them, in order. */
  lemma BulletsAreNewest(st: Style, prev: seq<string>, dropped: seq<Message>) returns (at: seq<nat>)
    ensures var texts := prev + Facts(dropped);
            && Ascending(at) && NewestAt(texts, at, 12, Bullets(st, prev, dropped))
            && forall i :: 0 <= i < |texts| ==> (i in at <==> FirstOfItsText(st.lower, texts, i))
  {
    var texts := prev + Facts(dropped);
    at := NewestFirstMentions(BulletKey(st), texts, 12);
    forall i | 0 <= i < |texts|
      ensures FirstMention(BulletKey(st), texts, i) <==> FirstOfItsText(st.lower, texts, i)
    {
      FirstOfItsTextIff(st, texts, i);
    }
  }

  // ---- the summary of a session ----

  lemma FactsSaySomething(fact: string, m: Message)
    requires IsFactOf(fact, m)
    ensures !AllSpaces(fact)
  {
    assert !IsSpace(fact[0]);
  }

  lemma FactIsAmong(dropped: seq<Message>, m: Message) returns (fact: string)
    requires m in dropped && LeavesFact(m)
    ensures fact in Facts(dropped) && IsFactOf(fact, m)
  {
    var at := FactsOfMessages(dropped);
    var i :| 0 <= i < |dropped| && dropped[i] == m;
    var j :| 0 <= j < |at| && at[j] == i;
    fact := Facts(dropped)[j];
  }

  lemma TextIsListed(st: Style, texts: seq<string>, text: string) returns (k: nat)
    requires text in texts && !AllSpaces(text)
    ensures k < |Dedupe(BulletKey(st), texts)| && SameText(st.lower, Dedupe(BulletKey(st), texts)[k], text)
  {
    var i :| 0 <= i < |texts| && texts[i] == text;
    SameKeyIff(st, text, text);
    var bullets := Dedupe(BulletKey(st), texts);
    ListedIffMentioned(BulletKey(st), texts, text);
    k :| 0 <= k < |bullets| && BulletKey(st)(bullets[k]) == BulletKey(st)(text);
    SameKeyIff(st, bullets[k], text);
  }

  /** The text of a summary: the header, and a line for every bullet. */
  lemma SummaryIsLines(st: Style, dropped: seq<Message>)
    requires GoodStyle(st) && SummaryLaws.Bounded(st, dropped) && dropped != []
    ensures SummaryLaws.SummaryOf(st, dropped) ==
            Join([st.header] + Items(Dedupe(BulletKey(st), Facts(dropped))), "\n")
  {
    SummaryLaws.SummaryOfSome(st, dropped);
    BuildFromEmpty(st, dropped);
    SummaryLaws.AllBullets(st, dropped);
    BulletsAreGood(st, [], dropped);
    RenderingIsJoined(st, Bullets(st, [], dropped));
  }

  /** Without the summary model, after any sequence of Runs, Resets and restores, every dropped
      message that leaves a fact is told on a line of the sticky summary, up to white space and case;
      the condition is that all facts fit it. */
  lemma EveryDroppedFactIsTold(cfg: Conversation.Config, ops: seq<SessionLaws.Op>, m: Message)
    returns (bullets: seq<string>, fact: string, k: nat)
    requires SessionLaws.PlainPrompt(cfg) && SummaryLaws.Extractive(cfg)
    requires m in SummaryLaws.LedgerOf(cfg, ops).current && LeavesFact(m)
    requires SummaryLaws.Bounded(cfg.style, SummaryLaws.LedgerOf(cfg, ops).current)
    ensures ExtractBody(SessionLaws.Exec(cfg, SessionLaws.EMPTY_SESSION, ops).history) ==
            Join([cfg.style.header] + Items(bullets), "\n")
    ensures IsFactOf(fact, m) && k < |bullets| && SameText(cfg.style.lower, bullets[k], fact)
  {
    var dropped := SummaryLaws.LedgerOf(cfg, ops).current;
    bullets := Dedupe(BulletKey(cfg.style), Facts(dropped));
    SummaryLaws.SummaryTellsAllDropped(cfg, ops);
    SummaryIsLines(cfg.style, dropped);
    fact := FactIsAmong(dropped, m);
    FactsSaySomething(fact, m);
    k := TextIsListed(cfg.style, Facts(dropped), fact);
  }

  // ---- reading a body back ----

  /** A line writes a bullet with a dash, or bare. */
  predicate Writes(line: string, bullet: string) {
    line == "- " + bullet || (line == bullet && !("- " <= bullet))
  }

  predicate AllWrite(lines: seq<string>, bullets: seq<string>) {
    |lines| == |bullets| && forall i :: 0 <= i < |lines| ==> Writes(lines[i], bullets[i])
  }

  lemma LineIsRead(line: string, bullet: string)
    requires Writes(line, bullet) && GoodBullet(bullet)
    ensures Trimmed(line) && line != "" && '\n' !in line && ParseLine(line) == bullet
  {
  }

  lemma LinesAreRead(lines: seq<string>, bullets: seq<string>)
    requires AllWrite(lines, bullets) && GoodBullets(bullets)
    ensures forall i :: 0 <= i < |lines| ==> Trimmed(lines[i]) && lines[i] != "" && '\n' !in lines[i]
    ensures Collect(ParseLine, lines) == bullets
  {
    forall i | 0 <= i < |lines|
      ensures Trimmed(lines[i]) && lines[i] != "" && '\n' !in lines[i]
      ensures ParseLine(lines[i]) == bullets[i] && bullets[i] != ""
    {
      LineIsRead(lines[i], bullets[i]);
    }
    CollectEach(ParseLine, lines, bullets);
  }

  lemma HeaderIsCut(header: string, text: string)
    requires text != "" && Trimmed(text)
    ensures TrimSpace(TrimPrefix(header + ("\n" + text), header)) == text
  {
    TrimSpaceAround("\n", text, "");
    assert "\n" + text + "" == "\n" + text;
  }

  lemma TrimmedUnder(header: string, text: string)
    requires GoodBullet(header) && text != "" && Trimmed(text)
    ensures Trimmed(header + ("\n" + text)) && header + ("\n" + text) != ""
    ensures TrimSpace(header + ("\n" + text)) == header + ("\n" + text)
  {
    TrimSpaceFixed(header + ("\n" + text));
  }

  /** Under the header, the legacy header or none, text that is not itself a header is left. */
  lemma HeadIsDropped(st: Style, head: string, text: string)
    requires GoodStyle(st) && st.header[0] != st.legacy[0]
    requires head == "" || head == st.header + "\n" || head == st.legacy + "\n"
    requires text != "" && Trimmed(text) && !(st.header <= text) && !(st.legacy <= text)
    ensures Trimmed(head + text) && WithoutHeaders(st, head + text) == text
  {
    TrimSpaceFixed(text);
    if head == "" {
      assert head + text == text;
    } else {
      var header := if head == st.header + "\n" then st.header else st.legacy;
      assert head + text == header + ("\n" + text);
      TrimmedUnder(header, text);
      HeaderIsCut(header, text);
      assert header == st.legacy ==> (head + text)[0] != st.header[0];
    }
  }

  /** A body reads back as its bullets, whatever its header is and whether its lines have dashes. */
  lemma EveryBodyReads(st: Style, head: string, lines: seq<string>, bullets: seq<string>)
    requires GoodStyle(st) && st.header[0] != st.legacy[0]
    requires head == "" || head == st.header + "\n" || head == st.legacy + "\n"
    requires lines != [] && AllWrite(lines, bullets) && GoodBullets(bullets)
    requires !(st.header <= Join(lines, "\n")) && !(st.legacy <= Join(lines, "\n"))
    ensures Parse(st, head + Join(lines, "\n")) == bullets
  {
    LinesAreRead(lines, bullets);
    JoinEnds(lines, "\n");
    HeadIsDropped(st, head, Join(lines, "\n"));
    ParseLines(st, head + Join(lines, "\n"), lines, bullets);
  }

  // ---- the text of the model ----

  /** Whether the model is asked about a draft, and answers something of use: the agent has a provider
      and does not refuse, the draft has the minimum of runes (180 when it is 0, none when it is
      negative), and the answer has 1 to 1024 runes. */
  predicate Compresses(policy: Policy, draft: string, reply: CompressReply) {
    var least := if policy.minDraftRunes == 0 then 180 else policy.minDraftRunes;
    && policy.hasProvider && !policy.disabled && 0 <= least <= |draft| && !AllSpaces(draft)
    && reply.ChatText? && 1 <= |TrimSpace(reply.content)| <= 1024
  }

  lemma DecidedIff(policy: Policy, draft: string, reply: CompressReply) returns (text: string)
    ensures var body := Decided(policy, draft, reply);
            if Compresses(policy, draft, reply) then
              var out := TrimSpace(reply.content);
              && body == Truncated(text, 512) && Contains(text, "Lossy memory")
              && text in {out, HeaderText(Compressed) + "\n" + out}
              && (text == out <==> Contains(out, "Lossy memory") && out[0] != '-')
            else body == draft
  {
    BlankIffNothingLeft(draft);
    text := "";
    if !AllSpaces(draft) {
      text := CompressIff(draft, reply);
    }
  }

  /** The body is the model's text if and only if the model was asked and answered something of use;
      otherwise it is the draft. */
  lemma FinalizeIff(st: Style, policy: Policy, prevBody: string, dropped: seq<Message>, reply: CompressReply)
    returns (text: string)
    ensures var draft, body := Build(st, prevBody, dropped), Finalize(st, policy, prevBody, dropped, reply);
            if Compresses(policy, draft, reply) then
              var out := TrimSpace(reply.content);
              && body == Truncated(text, 512) && Contains(text, "Lossy memory")
              && text in {out, HeaderText(Compressed) + "\n" + out}
              && (text == out <==> Contains(out, "Lossy memory") && out[0] != '-')
            else body == draft
  {
    text := DecidedIff(policy, Build(st, prevBody, dropped), reply);
  }
}
