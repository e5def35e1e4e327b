/** The sticky conversation summary: extracting facts from dropped turns, rendering them as
    bullets, parsing them back, and the optional compression by the model. */
module Summary {
  import opened Llm
  import opened Wrappers
  import opened Text
  import opened Distinct

  const MARKER := "[conversation_summary]"

  const MAX_SUMMARY_RUNES := 512
  const MAX_BULLETS := 12
  const MAX_FACT_RUNES := 64
  const MAX_ASSISTANT_RUNES := 80
  const DEFAULT_MIN_DRAFT_RUNES := 180

  /** The first line of a summary, as the extractive summary writes it today, as it once
      wrote it, and as it is put before the model's own text. */
  datatype Header = Extractive | Legacy | Compressed

  function HeaderWords(h: Header): seq<string> {
    match h
    case Extractive =>
      ["Lossy", "memory", "of", "trimmed", "turns", "(not", "full", "transcript).", "Prefer", "these", "facts:"]
    case Legacy =>
      ["Earlier", "turns", "were", "removed", "to", "free", "context.", "Retain", "these", "facts:"]
    case Compressed =>
      ["Lossy", "memory", "of", "trimmed", "turns", "(LLM-compressed):"]
  }

  function HeaderText(h: Header): string {
    Join(HeaderWords(h), " ")
  }

  /** What the summary text depends on: the two header lines and the rune-wise lower-casing. */
  datatype Style = Style(header: string, legacy: string, lower: char -> char)

  function StyleWith(lower: char -> char): Style {
    Style(HeaderText(Extractive), HeaderText(Legacy), lower)
  }

  ghost predicate GoodStyle(st: Style) {
    && GoodBullet(st.header) && GoodBullet(st.legacy)
    && st.legacy[0] != '-' && st.header[0] != '.' && st.legacy[0] != '.'
  }

  function TrimPrefix(s: string, prefix: string): string {
    if prefix <= s then s[|prefix|..] else s
  }

  // ---- facts ----

  function FormatFact(kind: string, content: string): string {
    var t := ClipOneLine(content, MAX_FACT_RUNES);
    if t == "" then "" else kind + ": " + t
  }

  /** The fact a dropped message leaves behind, or the empty text. */
  function FactOf(m: Message): string {
    match m.role
    case User => FormatFact("user", m.content)
    case Tool => FormatFact("tool:" + (if m.name == "" then "tool" else m.name), m.content)
    case Assistant =>
      if m.toolCalls != [] && TrimSpace(m.content) == "" then ""
      else if |TrimSpace(m.content)| > MAX_ASSISTANT_RUNES then ""
      else FormatFact("asst", m.content)
    case System => ""
  }

  function Facts(dropped: seq<Message>): seq<string> {
    Collect(FactOf, dropped)
  }

  method FactsFromDropped(dropped: seq<Message>) returns (facts: seq<string>)
    ensures facts == Facts(dropped)
  {
    facts := CollectInOnePass(FactOf, dropped);
  }

  // ---- deduping ----

  /** The key bullets are compared by: trimmed and lower-cased. */
  function BulletKey(st: Style): string -> string {
    b => MapRunes(st.lower, TrimSpace(b))
  }

  method DedupeBullets(st: Style, bullets: seq<string>) returns (out: seq<string>)
    ensures out == Dedupe(BulletKey(st), bullets)
  {
    out := DedupeInOnePass(BulletKey(st), bullets);
  }

  /** The bullets of a summary that follows one with bullets `prev` after `dropped` left: the
      last twelve first mentions, in first-mention order (Distinct.NewestFirstMentions). */
  function Bullets(st: Style, prev: seq<string>, dropped: seq<Message>): seq<string> {
    LastN(Dedupe(BulletKey(st), prev + Facts(dropped)), MAX_BULLETS)
  }

  // ---- rendering and parsing ----

  function Items(bullets: seq<string>): (items: seq<string>)
    ensures |items| == |bullets|
    ensures forall i :: 0 <= i < |bullets| ==> items[i] == "- " + bullets[i]
  {
    seq(|bullets|, i requires 0 <= i < |bullets| => "- " + bullets[i])
  }

  function Terminated(lines: seq<string>): string {
    if lines == [] then "" else Terminated(lines[..|lines| - 1]) + lines[|lines| - 1] + "\n"
  }

  /** The text before capping. */
  function Rendering(st: Style, bullets: seq<string>): string {
    TrimSpace(st.header + "\n" + Terminated(Items(bullets)))
  }

  function ParseLine(line: string): string {
    TrimSpace(TrimPrefix(TrimSpace(line), "- "))
  }

  function WithoutHeaders(st: Style, body: string): string {
    TrimSpace(TrimPrefix(TrimSpace(TrimPrefix(TrimSpace(body), st.header)), st.legacy))
  }

  /** The bullets of a summary body written under either header. */
  function Parse(st: Style, body: string): seq<string> {
    if TrimSpace(body) == "" then [] else Collect(ParseLine, SplitLines(WithoutHeaders(st, body)))
  }

  method ParseSummaryBullets(st: Style, body: string) returns (out: seq<string>)
    ensures out == Parse(st, body)
  {
    if TrimSpace(body) == "" {
      return [];
    }
    var lines := SplitLines(WithoutHeaders(st, body));
    out := CollectInOnePass(ParseLine, lines);
  }

  /** A bullet that survives rendering: one non-empty trimmed line. */
  predicate GoodBullet(b: string) {
    b != "" && Trimmed(b) && '\n' !in b
  }

  predicate GoodBullets(bullets: seq<string>) {
    forall i :: 0 <= i < |bullets| ==> GoodBullet(bullets[i])
  }

  lemma {:induction false} TerminatedIsJoined(first: string, lines: seq<string>)
    ensures first + "\n" + Terminated(lines) == Join([first] + lines, "\n") + "\n"
    decreases |lines|
  {
    if lines == [] {
    } else {
      TerminatedIsJoinedHead(lines);
      assert ([first] + lines)[1..] == lines;
      TerminatedIsJoined(lines[0], lines[1..]);
      assert [lines[0]] + lines[1..] == lines;
    }
  }

  lemma {:induction false} TerminatedIsJoinedHead(lines: seq<string>)
    requires lines != []
    ensures Terminated(lines) == lines[0] + "\n" + Terminated(lines[1..])
  {
    if |lines| > 1 {
      var init := lines[..|lines| - 1];
      TerminatedIsJoinedHead(init);
      assert init[1..] == lines[1..][..|lines[1..]| - 1];
    }
  }

  lemma {:induction false} JoinEnds(lines: seq<string>, separator: string)
    requires lines != [] && lines[0] != "" && lines[|lines| - 1] != ""
    ensures Join(lines, separator) != ""
    ensures Join(lines, separator)[0] == lines[0][0]
    ensures var last := lines[|lines| - 1];
            Join(lines, separator)[|Join(lines, separator)| - 1] == last[|last| - 1]
  {
    if |lines| > 1 {
      if |lines| > 2 || lines[1] != "" {
        JoinEndsLast(lines[1..], separator);
      }
    }
  }

  lemma {:induction false} JoinEndsLast(lines: seq<string>, separator: string)
    requires lines != [] && lines[|lines| - 1] != ""
    ensures Join(lines, separator) != ""
    ensures var last := lines[|lines| - 1];
            Join(lines, separator)[|Join(lines, separator)| - 1] == last[|last| - 1]
  {
    if |lines| > 1 {
      JoinEndsLast(lines[1..], separator);
    }
  }

  lemma HeaderIsLine(words: seq<string>)
    requires words != [] && Words(words)
    ensures GoodBullet(Join(words, " ")) && Join(words, " ")[0] == words[0][0]
  {
    JoinedWordsAreOneLine(words);
    JoinEnds(words, " ");
  }

  /** Visible ASCII. */
  predicate Visible(word: string) {
    word != "" && forall i :: 0 <= i < |word| ==> '!' <= word[i] <= '~'
  }

  lemma ExtractiveIsVisible(i: nat)
    requires i < |HeaderWords(Extractive)|
    ensures Visible(HeaderWords(Extractive)[i])
  {
  }

  lemma LegacyIsVisible(i: nat)
    requires i < |HeaderWords(Legacy)|
    ensures Visible(HeaderWords(Legacy)[i])
  {
  }

  lemma CompressedIsVisible(i: nat)
    requires i < |HeaderWords(Compressed)|
    ensures Visible(HeaderWords(Compressed)[i])
  {
  }

  lemma HeaderIsMadeOfWords(h: Header)
    ensures HeaderWords(h) != [] && Words(HeaderWords(h))
    ensures HeaderWords(h)[0][0] == 'L' || HeaderWords(h)[0][0] == 'E'
  {
    var words := HeaderWords(h);
    forall i | 0 <= i < |words|
      ensures words[i] != [] && NoSpaces(words[i])
    {
      match h {
        case Extractive => ExtractiveIsVisible(i);
        case Legacy => LegacyIsVisible(i);
        case Compressed => CompressedIsVisible(i);
      }
    }
  }

  lemma StyleIsGood(lower: char -> char)
    ensures GoodStyle(StyleWith(lower))
  {
    HeaderIsMadeOfWords(Extractive);
    HeaderIsMadeOfWords(Legacy);
    HeaderIsLine(HeaderWords(Extractive));
    HeaderIsLine(HeaderWords(Legacy));
  }

  lemma RenderingIsJoined(st: Style, bullets: seq<string>)
    requires GoodStyle(st) && GoodBullets(bullets)
    ensures Rendering(st, bullets) == Join([st.header] + Items(bullets), "\n")
    ensures Trimmed(Rendering(st, bullets)) && Rendering(st, bullets) != ""
  {
    var lines := [st.header] + Items(bullets);
    TerminatedIsJoined(st.header, Items(bullets));
    JoinEnds(lines, "\n");
    TrimSpaceAround("", Join(lines, "\n"), "\n");
    assert "" + Join(lines, "\n") + "\n" == Join(lines, "\n") + "\n";
  }

  lemma ParseItems(bullets: seq<string>)
    requires GoodBullets(bullets)
    ensures Collect(ParseLine, Items(bullets)) == bullets
  {
    forall i | 0 <= i < |bullets|
      ensures ParseLine(Items(bullets)[i]) == bullets[i] && bullets[i] != ""
    {
    }
    CollectEach(ParseLine, Items(bullets), bullets);
  }

  lemma StripHeaderLine(st: Style, items: string)
    requires GoodStyle(st)
    requires items != "" && Trimmed(items) && items[0] == '-'
    requires Trimmed(st.header + "\n" + items)
    ensures WithoutHeaders(st, st.header + "\n" + items) == items
  {
    assert TrimPrefix(st.header + "\n" + items, st.header) == "\n" + items;
    TrimSpaceAround("\n", items, "");
    assert "\n" + items + "" == "\n" + items;
  }

  lemma StripHeader(st: Style, bullets: seq<string>)
    requires GoodStyle(st) && GoodBullets(bullets)
    ensures WithoutHeaders(st, Rendering(st, bullets)) == Join(Items(bullets), "\n")
  {
    RenderingIsJoined(st, bullets);
    if bullets == [] {
      assert TrimPrefix(st.header, st.header) == "";
    } else {
      var items := Items(bullets);
      assert ([st.header] + items)[1..] == items;
      JoinEnds(items, "\n");
      StripHeaderLine(st, Join(items, "\n"));
    }
  }

  /** Reading a body whose lines below the headers are known. */
  lemma ParseLines(st: Style, body: string, lines: seq<string>, bullets: seq<string>)
    requires body != "" && Trimmed(body) && WithoutHeaders(st, body) == Join(lines, "\n")
    requires lines != [] && forall i :: 0 <= i < |lines| ==> '\n' !in lines[i]
    requires Collect(ParseLine, lines) == bullets
    ensures Parse(st, body) == bullets
  {
    TrimSpaceFixed(body);
    SplitJoinedLines(lines);
  }

  lemma HeaderAlone(st: Style)
    requires GoodStyle(st)
    ensures Rendering(st, []) == st.header
  {
    RenderingIsJoined(st, []);
  }

  lemma ParseHeaderAlone(st: Style)
    requires GoodStyle(st)
    ensures Parse(st, st.header) == []
  {
    assert TrimPrefix(st.header, st.header) == "";
    assert Collect(ParseLine, [""]) == [] by {
      assert [""][..0] == [];
    }
    ParseLines(st, st.header, [""], []);
  }

  /** Parsing a rendered summary returns its bullets. */
  lemma ParseRendering(st: Style, bullets: seq<string>)
    requires GoodStyle(st) && GoodBullets(bullets)
    ensures Parse(st, Rendering(st, bullets)) == bullets
  {
    if bullets == [] {
      HeaderAlone(st);
      ParseHeaderAlone(st);
    } else {
      RenderingIsJoined(st, bullets);
      StripHeader(st, bullets);
      ParseItems(bullets);
      ParseLines(st, Rendering(st, bullets), Items(bullets), bullets);
    }
  }

  // ---- buildConversationSummary ----

  function Render(st: Style, bullets: seq<string>): string {
    Truncated(Rendering(st, bullets), MAX_SUMMARY_RUNES)
  }

  function Build(st: Style, prevBody: string, dropped: seq<Message>): string {
    Render(st, Bullets(st, Parse(st, prevBody), dropped))
  }

  method WriteBullets(header: string, bullets: seq<string>) returns (text: string)
    ensures text == header + "\n" + Terminated(Items(bullets))
  {
    var lines := "";
    for i := 0 to |bullets|
      invariant lines == Terminated(Items(bullets[..i]))
    {
      assert Items(bullets[..i + 1])[..i] == Items(bullets[..i]);
      lines := lines + ("- " + bullets[i]) + "\n";
    }
    assert bullets[..|bullets|] == bullets;
    text := header + "\n" + lines;
  }

  method RenderBullets(st: Style, bullets: seq<string>) returns (summary: string)
    ensures summary == Render(st, bullets)
  {
    var text := WriteBullets(st.header, bullets);
    var capped, cut := TruncateRunes(TrimSpace(text), MAX_SUMMARY_RUNES);
    summary := capped;
  }

  method BuildConversationSummary(st: Style, prevBody: string, dropped: seq<Message>)
    returns (summary: string)
    ensures summary == Build(st, prevBody, dropped)
  {
    var bullets := ParseSummaryBullets(st, prevBody);
    var facts := FactsFromDropped(dropped);
    bullets := DedupeBullets(st, bullets + facts);
    if |bullets| > MAX_BULLETS {
      bullets := bullets[|bullets| - MAX_BULLETS..];
    }
    assert bullets == Bullets(st, Parse(st, prevBody), dropped);
    summary := RenderBullets(st, bullets);
  }

  /** A tool name that cannot break a bullet into two lines. */
  predicate GoodNames(dropped: seq<Message>) {
    forall i :: 0 <= i < |dropped| && dropped[i].role == Tool ==> '\n' !in dropped[i].name
  }

  lemma FactIsGood(kind: string, content: string)
    requires kind != "" && !IsSpace(kind[0]) && '\n' !in kind
    ensures FormatFact(kind, content) == "" || GoodBullet(FormatFact(kind, content))
  {
    var t := ClipOneLine(content, MAX_FACT_RUNES);
    ClipOneLineShape(content, MAX_FACT_RUNES);
    if t != "" {
      var fact := kind + ": " + t;
      assert fact[|fact| - 1] == t[|t| - 1];
    }
  }

  lemma FactOfIsGood(m: Message)
    requires m.role == Tool ==> '\n' !in m.name
    ensures FactOf(m) == "" || GoodBullet(FactOf(m))
  {
    match m.role
    case User => FactIsGood("user", m.content);
    case Tool => FactIsGood("tool:" + (if m.name == "" then "tool" else m.name), m.content);
    case Assistant => FactIsGood("asst", m.content);
    case System =>
  }

  lemma {:induction false} FactsAreGood(dropped: seq<Message>)
    requires GoodNames(dropped)
    ensures GoodBullets(Facts(dropped))
  {
    forall i | 0 <= i < |dropped|
      ensures FactOf(dropped[i]) == "" || GoodBullet(FactOf(dropped[i]))
    {
      FactOfIsGood(dropped[i]);
    }
    CollectHolds(FactOf, dropped, b => GoodBullet(b));
  }

  lemma BulletsAreGood(st: Style, prev: seq<string>, dropped: seq<Message>)
    requires GoodBullets(prev) && GoodNames(dropped)
    ensures GoodBullets(Bullets(st, prev, dropped))
  {
    FactsAreGood(dropped);
    var all := prev + Facts(dropped);
    DedupeHolds(BulletKey(st), all, b => GoodBullet(b));
  }

  /** No rune of the rendering was cut. */
  predicate Fits(st: Style, bullets: seq<string>) {
    |Rendering(st, bullets)| <= MAX_SUMMARY_RUNES
  }

  /** While the rendering fits the cap, the next trim reads back the very bullets written. */
  lemma SummaryRoundTrip(st: Style, bullets: seq<string>)
    requires GoodStyle(st) && GoodBullets(bullets) && Fits(st, bullets)
    ensures Parse(st, Render(st, bullets)) == bullets
  {
    ParseRendering(st, bullets);
  }

  lemma RenderingGrows(st: Style, bullets: seq<string>)
    requires GoodStyle(st) && GoodBullets(bullets) && bullets != []
    ensures var n := |bullets| - 1;
            Rendering(st, bullets) == Rendering(st, bullets[..n]) + ("\n" + ("- " + bullets[n]))
  {
    var n := |bullets| - 1;
    RenderingIsJoined(st, bullets);
    RenderingIsJoined(st, bullets[..n]);
    assert [st.header] + Items(bullets) == ([st.header] + Items(bullets[..n])) + ["- " + bullets[n]];
    JoinAppend([st.header] + Items(bullets[..n]), "- " + bullets[n], "\n");
  }

  // ---- what the rune cap cuts ----

  predicate IsNewest(b: string, bullets: seq<string>) {
    bullets != [] && bullets[|bullets| - 1] == b
  }

  /** The text is this line, or ends in it. */
  predicate EndsInLine(text: string, line: string) {
    var at := |text| - |line|;
    at >= 0 && text[at..] == line && (at > 0 ==> text[at - 1] == '\n')
  }

  lemma LastLineAt(text: string, line: string, k: nat)
    requires EndsInLine(text, line) && k < |line|
    ensures text[|text| - |line| + k] == line[k]
  {
    assert text[|text| - |line|..][k] == line[k];
  }

  lemma DropKeepsLastLine(text: string, line: string, k: nat)
    requires EndsInLine(text, line) && k <= |text| - |line|
    ensures EndsInLine(text[k..], line)
  {
    var at := |text| - |line|;
    assert text[k..][at - k..] == text[at..];
  }

  lemma SpacesBeforeLine(text: string, line: string, i: nat, j: nat)
    requires EndsInLine(text, line) && line != "" && Trimmed(line)
    requires i <= j <= |text| && AllSpaces(text[..i]) && AllSpaces(text[j..])
    ensures i <= |text| - |line| && j == |text|
  {
    LastLineAt(text, line, 0);
    LastLineAt(text, line, |line| - 1);
    SpaceIn(text, 0, i, |text| - |line|);
    SpaceIn(text, j, |text|, |text| - 1);
  }

  lemma SpaceIn(s: string, i: nat, j: nat, k: nat)
    requires i <= j <= |s| && k < |s| && AllSpaces(s[i..j])
    ensures i <= k < j ==> IsSpace(s[k])
  {
    assert forall m :: 0 <= m < j - i ==> s[i..j][m] == s[i + m];
  }

  lemma MiddleKeepsLastLine(text: string, line: string, i: nat, j: nat, middle: string)
    requires EndsInLine(text, line) && line != "" && Trimmed(line)
    requires i <= j <= |text| && AllSpaces(text[..i]) && AllSpaces(text[j..]) && middle == text[i..j]
    ensures EndsInLine(middle, line)
  {
    SpacesBeforeLine(text, line, i, j);
    DropKeepsLastLine(text, line, i);
    assert middle == text[i..];
  }

  lemma TrimSpaceKeepsLastLine(text: string, line: string)
    requires EndsInLine(text, line) && line != "" && Trimmed(line)
    ensures EndsInLine(TrimSpace(text), line)
  {
    var i, j := TrimSpaceCuts(text);
    MiddleKeepsLastLine(text, line, i, j, TrimSpace(text));
  }

  lemma PrefixAt(prefix: string, text: string, k: nat)
    requires prefix <= text && k < |text|
    ensures k < |prefix| ==> text[k] == prefix[k] && text[k] in prefix
  {
  }

  lemma PrefixEndsBeforeLine(text: string, line: string, prefix: string)
    requires EndsInLine(text, line) && line != "" && prefix != "" && '\n' !in prefix && prefix[0] != line[0]
    requires prefix <= text
    ensures |prefix| <= |text| - |line|
  {
    var at := |text| - |line|;
    LastLineAt(text, line, 0);
    PrefixAt(prefix, text, 0);
    PrefixAt(prefix, text, if at > 0 then at - 1 else 0);
  }

  lemma TrimPrefixKeepsLastLine(text: string, line: string, prefix: string)
    requires EndsInLine(text, line) && line != "" && prefix != "" && '\n' !in prefix && prefix[0] != line[0]
    ensures EndsInLine(TrimPrefix(text, prefix), line)
  {
    if prefix <= text {
      PrefixEndsBeforeLine(text, line, prefix);
      DropKeepsLastLine(text, line, |prefix|);
    }
  }

  lemma {:induction false} SplitLastLine(text: string, line: string)
    requires EndsInLine(text, line) && '\n' !in line
    ensures var lines := SplitLines(text);
            lines[|lines| - 1] == line && (text != line ==> |lines| > 1)
  {
    if text == line {
      SplitOneLine(line);
    } else {
      var at := |text| - |line|;
      assert text[1..][at - 1..] == text[at..];
      SplitLastLine(text[1..], line);
      if at == 1 {
        assert text[1..] == line;
      }
    }
  }

  lemma HeadersLeaveLastLine(st: Style, body: string, line: string)
    requires GoodStyle(st) && GoodBullet(line) && line[0] == '.' && EndsInLine(body, line)
    ensures EndsInLine(WithoutHeaders(st, body), line)
  {
    TrimSpaceKeepsLastLine(body, line);
    TrimPrefixKeepsLastLine(TrimSpace(body), line, st.header);
    var once := TrimPrefix(TrimSpace(body), st.header);
    TrimSpaceKeepsLastLine(once, line);
    TrimPrefixKeepsLastLine(TrimSpace(once), line, st.legacy);
    TrimSpaceKeepsLastLine(TrimPrefix(TrimSpace(once), st.legacy), line);
  }

  lemma CollectEndsIn<T>(f: T -> string, xs: seq<T>)
    requires xs != [] && f(xs[|xs| - 1]) != ""
    ensures Collect(f, xs) != [] && Collect(f, xs)[|Collect(f, xs)| - 1] == f(xs[|xs| - 1])
  {
  }

  lemma MarkerParsesToItself(line: string)
    requires GoodBullet(line) && line[0] == '.'
    ensures ParseLine(line) == line
  {
    TrimSpaceFixed(line);
  }

  lemma LastLineIsCollected(text: string, line: string)
    requires GoodBullet(line) && line[0] == '.' && EndsInLine(text, line)
    ensures IsNewest(line, Collect(ParseLine, SplitLines(text)))
  {
    SplitLastLine(text, line);
    MarkerParsesToItself(line);
    CollectEndsIn(ParseLine, SplitLines(text));
  }

  lemma ParseIsCollect(st: Style, body: string, text: string)
    requires TrimSpace(body) != "" && WithoutHeaders(st, body) == text
    ensures Parse(st, body) == Collect(ParseLine, SplitLines(text))
  {
  }

  /** A body that ends in a line which is no header and no item reads that line back last. */
  lemma LastLineIsReadBack(st: Style, body: string, line: string)
    requires GoodStyle(st) && GoodBullet(line) && line[0] == '.' && EndsInLine(body, line)
    ensures IsNewest(line, Parse(st, body))
  {
    TrimSpaceKeepsLastLine(body, line);
    HeadersLeaveLastLine(st, body, line);
    ParseIsCollect(st, body, WithoutHeaders(st, body));
    LastLineIsCollected(WithoutHeaders(st, body), line);
  }

  /** A cut text tells the next trim, as its newest bullet, how long it was. */
  lemma CutReadsBackMarker(st: Style, bullets: seq<string>)
    requires GoodStyle(st) && !Fits(st, bullets)
    ensures IsNewest(MarkerLine(|Rendering(st, bullets)|), Parse(st, Render(st, bullets)))
  {
    var n := |Rendering(st, bullets)|;
    MarkerIsOneLine(n);
    LastLineIsReadBack(st, Render(st, bullets), MarkerLine(n));
  }

  /** The whole text survives the cap if and only if it fits it. */
  lemma WholeTextIsKeptIff(st: Style, bullets: seq<string>)
    requires |Rendering(st, bullets)| <= MAX_INT
    ensures Rendering(st, bullets) <= Render(st, bullets) <==> Fits(st, bullets)
  {
    TruncatedFits(Rendering(st, bullets), MAX_SUMMARY_RUNES);
  }

  /** The newest bullet is still the newest bullet the next trim reads back if and only if the text
      fits the cap, or that bullet spells the very marker the cap puts in its place. */
  lemma NewestIsReadBackIff(st: Style, bullets: seq<string>, newest: string)
    requires GoodStyle(st) && GoodBullets(bullets) && IsNewest(newest, bullets)
    ensures IsNewest(newest, Parse(st, Render(st, bullets))) <==>
              Fits(st, bullets) || newest == MarkerLine(|Rendering(st, bullets)|)
  {
    if Fits(st, bullets) {
      SummaryRoundTrip(st, bullets);
    } else {
      CutReadsBackMarker(st, bullets);
    }
  }

  /** A fact never spells the marker, so the newest fact of a trim is the newest bullet of the next
      one if and only if the text fits the cap. */
  lemma NewestFactIsKeptIff(st: Style, prev: seq<string>, dropped: seq<Message>, m: Message, bullets: seq<string>)
    requires GoodStyle(st) && GoodBullets(prev) && GoodNames(dropped) && bullets == Bullets(st, prev, dropped)
    requires m in dropped && IsNewest(FactOf(m), bullets)
    ensures IsNewest(FactOf(m), Parse(st, Render(st, bullets))) <==> Fits(st, bullets)
    ensures Parse(st, Render(st, bullets)) == bullets <==> Fits(st, bullets)
  {
    BulletsAreGood(st, prev, dropped);
    FactStartsWithKind(m);
    BulletIsKeptIff(st, bullets, FactOf(m));
  }

  lemma BulletIsKeptIff(st: Style, bullets: seq<string>, newest: string)
    requires GoodStyle(st) && GoodBullets(bullets) && IsNewest(newest, bullets) && newest[0] != '.'
    ensures IsNewest(newest, Parse(st, Render(st, bullets))) <==> Fits(st, bullets)
    ensures Parse(st, Render(st, bullets)) == bullets <==> Fits(st, bullets)
  {
    NewestIsReadBackIff(st, bullets, newest);
    MarkerIsOneLine(|Rendering(st, bullets)|);
    if Fits(st, bullets) {
      SummaryRoundTrip(st, bullets);
    }
  }

  lemma FactStartsWithKind(m: Message)
    requires FactOf(m) != ""
    ensures FactOf(m)[0] != '.'
  {
  }

  /** Over the cap the end of the text goes, which is where the newest facts are: a newest
      bullet that starts beyond the kept runes leaves only its length behind. */
  lemma CapCutsNewestBullet(st: Style, bullets: seq<string>)
    requires GoodStyle(st) && bullets != [] && GoodBullets(bullets) && !Fits(st, bullets)
    requires |Rendering(st, bullets[..|bullets| - 1])| >= KeptRunes(|Rendering(st, bullets)|, MAX_SUMMARY_RUNES)
    ensures var all, older := Rendering(st, bullets), Rendering(st, bullets[..|bullets| - 1]);
            Render(st, bullets) == older[..KeptRunes(|all|, MAX_SUMMARY_RUNES)] + TruncationMarker(|all|)
  {
    RenderingGrows(st, bullets);
  }

  // ---- a trim whose text does not fit ----

  function Repeat(c: char, n: nat): string {
    seq(n, i requires 0 <= i < n => c)
  }

  /** One question of 64 equal letters for each letter. */
  function LongQuestions(letters: string): seq<Message> {
    seq(|letters|, i requires 0 <= i < |letters| => UserMessage(Repeat(letters[i], MAX_FACT_RUNES)))
  }

  function LongFacts(letters: string): seq<string> {
    seq(|letters|, i requires 0 <= i < |letters| => "user: " + Repeat(letters[i], MAX_FACT_RUNES))
  }

  lemma ClipWord(word: string, max: int)
    requires word != "" && NoSpaces(word) && |word| <= max
    ensures ClipOneLine(word, max) == word
  {
    TrimSpaceFixed(word);
    var n := WordLength(word);
    assert n == |word|;
    assert word[..n] == word && word[n..] == "";
    assert Fields("") == [];
    assert Fields(word) == [word];
  }

  lemma FactsOfLongQuestions(letters: string)
    requires NoSpaces(letters)
    ensures Facts(LongQuestions(letters)) == LongFacts(letters)
  {
    forall i | 0 <= i < |letters|
      ensures FactOf(LongQuestions(letters)[i]) == LongFacts(letters)[i]
    {
      ClipWord(Repeat(letters[i], MAX_FACT_RUNES), MAX_FACT_RUNES);
    }
    CollectEach(FactOf, LongQuestions(letters), LongFacts(letters));
  }

  lemma LongFactsAreGood(letters: string)
    requires NoSpaces(letters)
    ensures GoodBullets(LongFacts(letters))
  {
    FactsOfLongQuestions(letters);
    FactsAreGood(LongQuestions(letters));
  }

  predicate RuneIs(s: string, at: nat, rune: char) {
    at < |s| && s[at] == rune
  }

  lemma KeyRune(st: Style, text: string, at: nat)
    requires Trimmed(text) && at < |text|
    ensures RuneIs(BulletKey(st)(text), at, st.lower(text[at]))
  {
    TrimSpaceFixed(text);
  }

  lemma LetterAtSix(letters: string, i: nat)
    requires i < |letters|
    ensures RuneIs(LongFacts(letters)[i], 6, letters[i])
  {
  }

  lemma KeyAtLetter(st: Style, letters: string, i: nat)
    requires NoSpaces(letters) && i < |letters|
    ensures RuneIs(BulletKey(st)(LongFacts(letters)[i]), 6, st.lower(letters[i]))
  {
    LongFactsAreGood(letters);
    LetterAtSix(letters, i);
    KeyRune(st, LongFacts(letters)[i], 6);
  }

  predicate DistinctLetters(st: Style, letters: string) {
    NoSpaces(letters) && forall i, j :: 0 <= i < j < |letters| ==> st.lower(letters[i]) != st.lower(letters[j])
  }

  /** The keys have these runes at a position. */
  predicate RunesAt(key: string -> string, texts: seq<string>, at: nat, runes: string) {
    |runes| == |texts| && forall i :: 0 <= i < |texts| ==> RuneIs(key(texts[i]), at, runes[i])
  }

  predicate NoRuneTwice(runes: string) {
    forall i, j :: 0 <= i < j < |runes| ==> runes[i] != runes[j]
  }

  /** Texts whose keys differ in one rune are distinct. */
  lemma DistinctAtRune(key: string -> string, texts: seq<string>, at: nat, runes: string)
    requires RunesAt(key, texts, at, runes) && NoRuneTwice(runes)
    ensures Dedupe(key, texts) == texts
  {
    forall i, j | 0 <= i < j < |texts|
      ensures key(texts[i]) != key(texts[j])
    {
      assert key(texts[i])[at] != key(texts[j])[at];
    }
    DedupeFixed(key, texts);
  }

  lemma LettersAreAtSix(st: Style, letters: string)
    requires NoSpaces(letters)
    ensures RunesAt(BulletKey(st), LongFacts(letters), 6, MapRunes(st.lower, letters))
  {
    forall i | 0 <= i < |letters|
      ensures RuneIs(BulletKey(st)(LongFacts(letters)[i]), 6, MapRunes(st.lower, letters)[i])
    {
      KeyAtLetter(st, letters, i);
    }
  }

  lemma LoweredOnce(lower: char -> char, letters: string)
    requires forall i, j :: 0 <= i < j < |letters| ==> lower(letters[i]) != lower(letters[j])
    ensures NoRuneTwice(MapRunes(lower, letters))
  {
    var runes := MapRunes(lower, letters);
    assert forall i :: 0 <= i < |runes| ==> runes[i] == lower(letters[i]);
  }

  lemma LongFactsAreDistinct(st: Style, letters: string)
    requires DistinctLetters(st, letters)
    ensures Dedupe(BulletKey(st), LongFacts(letters)) == LongFacts(letters)
  {
    LettersAreAtSix(st, letters);
    LoweredOnce(st.lower, letters);
    DistinctAtRune(BulletKey(st), LongFacts(letters), 6, MapRunes(st.lower, letters));
  }

  lemma {:induction false} LengthOfLongFacts(st: Style, letters: string)
    requires GoodStyle(st) && NoSpaces(letters)
    ensures |Rendering(st, LongFacts(letters))| == |st.header| + 73 * |letters|
  {
    LongFactsAreGood(letters);
    if letters == "" {
      RenderingIsJoined(st, []);
      assert LongFacts(letters) == [];
      assert Items([]) == [];
    } else {
      var n := |letters| - 1;
      LengthOfLongFacts(st, letters[..n]);
      assert LongFacts(letters)[..n] == LongFacts(letters[..n]);
      RenderingGrows(st, LongFacts(letters));
    }
  }

  lemma DedupedFacts(st: Style, facts: seq<string>, dropped: seq<Message>)
    requires Facts(dropped) == facts && Dedupe(BulletKey(st), facts) == facts && |facts| <= MAX_BULLETS
    ensures Bullets(st, [], dropped) == facts
  {
    assert [] + Facts(dropped) == facts;
  }

  lemma LongQuestionsAreBullets(st: Style, letters: string)
    requires |letters| <= MAX_BULLETS && DistinctLetters(st, letters)
    ensures Bullets(st, [], LongQuestions(letters)) == LongFacts(letters)
  {
    FactsOfLongQuestions(letters);
    LongFactsAreDistinct(st, letters);
    DedupedFacts(st, LongFacts(letters), LongQuestions(letters));
  }

  /** The text of n such questions has one header and 73 runes for each: with the seventh it is over
      the cap, and the newest question is lost. */
  lemma LongQuestionsAreKeptIff(st: Style, letters: string, newest: string)
    requires GoodStyle(st) && |letters| <= MAX_BULLETS && DistinctLetters(st, letters)
    requires IsNewest(newest, LongFacts(letters))
    ensures IsNewest(newest, Parse(st, Build(st, "", LongQuestions(letters)))) <==>
              |st.header| + 73 * |letters| <= MAX_SUMMARY_RUNES
  {
    var facts := LongFacts(letters);
    LongQuestionsAreBullets(st, letters);
    LengthOfLongFacts(st, letters);
    BuildFromEmpty(st, LongQuestions(letters));
    LongFactsAreGood(letters);
    assert newest[0] == 'u';
    BulletIsKeptIff(st, facts, newest);
  }

  lemma JoinIsNoShorter(words: seq<string>)
    requires words != []
    ensures |Join(words, " ")| >= |words[0]|
  {
  }

  /** A list of dropped messages whose newest fact is lost, under the header lines in use. */
  lemma SeventhLongQuestionIsLost(lower: char -> char)
    requires DistinctLetters(StyleWith(lower), "abcdefg")
    ensures var st, newest := StyleWith(lower), "user: " + Repeat('g', MAX_FACT_RUNES);
            && IsNewest(newest, Bullets(st, [], LongQuestions("abcdefg")))
            && !IsNewest(newest, Parse(st, Build(st, "", LongQuestions("abcdefg"))))
  {
    var st, newest := StyleWith(lower), "user: " + Repeat('g', MAX_FACT_RUNES);
    var letters := "abcdefg";
    StyleIsGood(lower);
    JoinIsNoShorter(HeaderWords(Extractive));
    assert letters[6] == 'g';
    LongQuestionsAreKeptIff(st, letters, newest);
    LongQuestionsAreBullets(st, letters);
  }

  // ---- successive trims ----

  /** While the distinct facts fit the bullet bound, two trims keep the bullets of one. */
  lemma SuccessiveBullets(st: Style, prev: seq<string>, first: seq<Message>, second: seq<Message>)
    requires |Dedupe(BulletKey(st), prev + Facts(first + second))| <= MAX_BULLETS
    ensures Bullets(st, Bullets(st, prev, first), second) == Bullets(st, prev, first + second)
  {
    CollectConcat(FactOf, first, second);
    DedupeInTwo(BulletKey(st), prev, Facts(first), Facts(second), MAX_BULLETS);
  }

  /** The text after trimming away the batches one after the other. */
  function BuildAll(st: Style, body: string, batches: seq<seq<Message>>): string {
    if batches == [] then body
    else Build(st, BuildAll(st, body, batches[..|batches| - 1]), batches[|batches| - 1])
  }

  function Messages(batches: seq<seq<Message>>): seq<Message> {
    if batches == [] then [] else Messages(batches[..|batches| - 1]) + batches[|batches| - 1]
  }

  /** Every text on the way fits the rune cap, so the next trim reads it back unharmed. */
  predicate AllFit(st: Style, batches: seq<seq<Message>>) {
    batches == [] || (AllFit(st, batches[..|batches| - 1]) && Fits(st, Bullets(st, [], Messages(batches))))
  }

  lemma BuildFromEmpty(st: Style, dropped: seq<Message>)
    ensures Build(st, "", dropped) == Render(st, Bullets(st, [], dropped))
  {
    assert Parse(st, "") == [];
  }

  lemma SuccessiveBulletsFromEmpty(st: Style, before: seq<Message>, batch: seq<Message>)
    requires |Dedupe(BulletKey(st), Facts(before + batch))| <= MAX_BULLETS
    ensures Bullets(st, Bullets(st, [], before), batch) == Bullets(st, [], before + batch)
  {
    assert [] + Facts(before + batch) == Facts(before + batch);
    SuccessiveBullets(st, [], before, batch);
  }

  lemma OneMoreTrim(st: Style, before: seq<Message>, batch: seq<Message>)
    requires GoodStyle(st) && GoodNames(before)
    requires |Dedupe(BulletKey(st), Facts(before + batch))| <= MAX_BULLETS
    requires Fits(st, Bullets(st, [], before))
    ensures Build(st, Build(st, "", before), batch) == Build(st, "", before + batch)
  {
    BuildFromEmpty(st, before);
    BuildFromEmpty(st, before + batch);
    BulletsAreGood(st, [], before);
    SummaryRoundTrip(st, Bullets(st, [], before));
    SuccessiveBulletsFromEmpty(st, before, batch);
  }

  lemma PrefixFacts(st: Style, before: seq<Message>, batch: seq<Message>)
    requires GoodNames(before + batch)
    ensures GoodNames(before)
    ensures |Dedupe(BulletKey(st), Facts(before))| <= |Dedupe(BulletKey(st), Facts(before + batch))|
  {
    assert forall i :: 0 <= i < |before| ==> before[i] == (before + batch)[i];
    CollectConcat(FactOf, before, batch);
    DedupeGrows(BulletKey(st), Facts(before), Facts(batch));
  }

  /** Summarising in any number of successive trims writes, word for word, the summary of
      summarising everything at once, as long as the distinct facts fit the bullet bound and
      the texts read back fit the rune cap. */
  lemma {:induction false} SuccessiveTrimsEqualOne(st: Style, batches: seq<seq<Message>>)
    requires GoodStyle(st) && batches != [] && GoodNames(Messages(batches))
    requires |Dedupe(BulletKey(st), Facts(Messages(batches)))| <= MAX_BULLETS
    requires AllFit(st, batches[..|batches| - 1])
    ensures BuildAll(st, "", batches) == Build(st, "", Messages(batches))
  {
    var before, batch := batches[..|batches| - 1], batches[|batches| - 1];
    if before == [] {
      assert Messages(batches) == batch;
    } else {
      PrefixFacts(st, Messages(before), batch);
      SuccessiveTrimsEqualOne(st, before);
      OneMoreTrim(st, Messages(before), batch);
    }
  }

  // ---- the sticky message ----

  predicate IsSummary(m: Message) {
    m.role == System && MARKER <= m.content
  }

  function SummaryMessage(body: string): Message {
    SystemMessage(MARKER + "\n" + TrimSpace(body))
  }

  /** extractSummaryBody: the text after the marker of the first summary, or empty. */
  function ExtractBody(msgs: seq<Message>): string {
    if msgs == [] then ""
    else if IsSummary(msgs[0]) then TrimSpace(msgs[0].content[|MARKER|..])
    else ExtractBody(msgs[1..])
  }

  function WithoutSummaries(msgs: seq<Message>): (out: seq<Message>)
    ensures |out| <= |msgs|
  {
    if msgs == [] then []
    else
      var last := msgs[|msgs| - 1];
      WithoutSummaries(msgs[..|msgs| - 1]) + if IsSummary(last) then [] else [last]
  }

  /** Puts the message after a leading system message, or first. */
  function InsertAfterSystem(msgs: seq<Message>, m: Message): seq<Message> {
    var at := if msgs != [] && msgs[0].role == System then 1 else 0;
    msgs[..at] + [m] + msgs[at..]
  }

  function Upsert(msgs: seq<Message>, body: string): seq<Message> {
    InsertAfterSystem(WithoutSummaries(msgs), SummaryMessage(body))
  }

  /** upsertSummary. */
  method UpsertSummary(msgs: seq<Message>, body: string) returns (out: seq<Message>)
    ensures out == Upsert(msgs, body)
  {
    var filtered := [];
    for i := 0 to |msgs|
      invariant filtered == WithoutSummaries(msgs[..i])
    {
      assert msgs[..i + 1][..i] == msgs[..i];
      if !IsSummary(msgs[i]) {
        filtered := filtered + [msgs[i]];
      }
    }
    assert msgs[..|msgs|] == msgs;
    var at := 0;
    if |filtered| > 0 && filtered[0].role == System {
      at := 1;
    }
    out := filtered[..at] + [SummaryMessage(body)] + filtered[at..];
  }

  predicate NoSummaries(msgs: seq<Message>) {
    forall i :: 0 <= i < |msgs| ==> !IsSummary(msgs[i])
  }

  lemma {:induction false} WithoutSummariesKeeps(msgs: seq<Message>)
    requires NoSummaries(msgs)
    ensures WithoutSummaries(msgs) == msgs
  {
    if msgs != [] {
      var init, last := msgs[..|msgs| - 1], msgs[|msgs| - 1];
      WithoutSummariesKeeps(init);
      assert init + [last] == msgs;
    }
  }

  lemma {:induction false} WithoutSummariesConcat(a: seq<Message>, b: seq<Message>)
    ensures WithoutSummaries(a + b) == WithoutSummaries(a) + WithoutSummaries(b)
  {
    if b == [] {
      assert a + b == a;
    } else {
      assert (a + b)[..|a + b| - 1] == a + b[..|b| - 1];
      WithoutSummariesConcat(a, b[..|b| - 1]);
    }
  }

  /** At most one summary, right after the system message. */
  predicate OptionalSummary(msgs: seq<Message>) {
    msgs == [] || (|msgs| == 1 && IsSummary(msgs[0]))
  }

  lemma FilterConversation(system: Message, sticky: seq<Message>, rest: seq<Message>)
    requires !IsSummary(system) && OptionalSummary(sticky) && NoSummaries(rest)
    ensures WithoutSummaries([system] + sticky + rest) == [system] + rest
  {
    WithoutSummariesConcat([system] + sticky, rest);
    WithoutSummariesConcat([system], sticky);
    WithoutSummariesKeeps([system]);
    WithoutSummariesKeeps(rest);
    assert sticky != [] ==> sticky[..0] == [];
  }

  /** On a conversation the new summary takes the place of the old one, or the slot after
      the system message. */
  lemma UpsertOnConversation(system: Message, sticky: seq<Message>, rest: seq<Message>, body: string)
    requires system.role == System && !IsSummary(system)
    requires OptionalSummary(sticky) && NoSummaries(rest)
    ensures Upsert([system] + sticky + rest, body) == [system, SummaryMessage(body)] + rest
  {
    FilterConversation(system, sticky, rest);
  }

  lemma BodyOfSummaryMessage(body: string)
    ensures IsSummary(SummaryMessage(body))
    ensures TrimSpace(SummaryMessage(body).content[|MARKER|..]) == TrimSpace(body)
  {
    var text := TrimSpace(body);
    TrimSpaceIdempotent(body);
    assert SummaryMessage(body).content[|MARKER|..] == "\n" + text;
    if text != "" {
      TrimSpaceAround("\n", text, "");
      assert "\n" + text + "" == "\n" + text;
    }
  }

  /** The body read back is the body written, up to surrounding white space. */
  lemma ExtractAfterUpsert(system: Message, rest: seq<Message>, body: string)
    requires !IsSummary(system)
    ensures ExtractBody([system, SummaryMessage(body)] + rest) == TrimSpace(body)
  {
    var msgs := [system, SummaryMessage(body)] + rest;
    assert msgs[1..] == [SummaryMessage(body)] + rest;
    BodyOfSummaryMessage(body);
  }

  // ---- compression by the model (summary_llm) ----

  /** What the summary Chat call answers. */
  datatype CompressReply = ChatFailed | ChatText(content: string)

  datatype Policy = Policy(hasProvider: bool, disabled: bool, minDraftRunes: int)

  predicate Contains(s: string, word: string) {
    exists i {:trigger s[i..]} :: 0 <= i <= |s| && word <= s[i..]
  }

  /** The model's text under the header line, unless it has that already and is no bare list. */
  function WithHeader(out: string): string {
    if !Contains(out, "Lossy memory") || "-" <= out then HeaderText(Compressed) + "\n" + out else out
  }

  function Compress(draft: string, reply: CompressReply): Option<string> {
    if TrimSpace(draft) == "" || reply.ChatFailed? then None
    else
      var out := TrimSpace(reply.content);
      if out == "" || |out| > 2 * MAX_SUMMARY_RUNES then None
      else
        Some(Truncated(WithHeader(out), MAX_SUMMARY_RUNES))
  }

  predicate WantsCompression(policy: Policy, draft: string) {
    var min := if policy.minDraftRunes == 0 then DEFAULT_MIN_DRAFT_RUNES else policy.minDraftRunes;
    policy.hasProvider && !policy.disabled && min >= 0 && |draft| >= min
  }

  /** The model's text for a draft, or the draft. */
  function Decided(policy: Policy, draft: string, reply: CompressReply): string {
    if !WantsCompression(policy, draft) then draft
    else
      var compressed := Compress(draft, reply);
      if compressed.Some? then compressed.value else draft
  }

  function Finalize(st: Style, policy: Policy, prevBody: string, dropped: seq<Message>, reply: CompressReply): string
  {
    Decided(policy, Build(st, prevBody, dropped), reply)
  }

  method FinalizeSummary(st: Style, policy: Policy, prevBody: string, dropped: seq<Message>, reply: CompressReply)
    returns (body: string)
    ensures body == Finalize(st, policy, prevBody, dropped, reply)
  {
    var draft := BuildConversationSummary(st, prevBody, dropped);
    if !WantsCompression(policy, draft) {
      return draft;
    }
    var compressed := Compress(draft, reply);
    body := if compressed.Some? then compressed.value else draft;
  }

  lemma TrimSpaceShortens(s: string)
    ensures |TrimSpace(s)| <= |s|
  {
    var i, j := TrimSpaceCuts(s);
  }

  lemma CompressedHeaderSaysLossy()
    ensures "Lossy memory" <= HeaderText(Compressed)
  {
    var words := HeaderWords(Compressed);
    var rest := words[1..];
    assert Join(words, " ") == "Lossy" + " " + Join(rest, " ");
    assert Join(rest, " ") == "memory" + " " + Join(rest[1..], " ");
    assert "Lossy" + " " + "memory" == "Lossy memory";
  }

  /** An answer is used exactly when the call worked and brought 1 to 1024 runes. What is used then
      ends in that answer and says that it is lossy; it is the answer alone exactly when the answer
      said so itself and is not a bare list; and it is cut to the cap. */
  lemma CompressIff(draft: string, reply: CompressReply) returns (text: string)
    requires TrimSpace(draft) != ""
    ensures Compress(draft, reply).Some? <==>
              reply.ChatText? && 1 <= |TrimSpace(reply.content)| <= 2 * MAX_SUMMARY_RUNES
    ensures Compress(draft, reply).Some? ==>
              var out := TrimSpace(reply.content);
              && Compress(draft, reply).value == Truncated(text, MAX_SUMMARY_RUNES)
              && Contains(text, "Lossy memory")
              && text in {out, HeaderText(Compressed) + "\n" + out}
              && (text == out <==> Contains(out, "Lossy memory") && out[0] != '-')
  {
    text := "";
    if Compress(draft, reply).Some? {
      var out := TrimSpace(reply.content);
      text := WithHeader(out);
      CompressedHeaderSaysLossy();
      assert text[0..] == text;
    }
  }

  /** Whatever the model answers, the sticky summary body is at most 512 runes. */
  lemma FinalizeFits(st: Style, policy: Policy, prevBody: string, dropped: seq<Message>, reply: CompressReply)
    requires |Rendering(st, Bullets(st, Parse(st, prevBody), dropped))| <= MAX_INT
    ensures var body := Finalize(st, policy, prevBody, dropped, reply);
            |body| <= MAX_SUMMARY_RUNES && |TrimSpace(body)| <= MAX_SUMMARY_RUNES
  {
    TruncatedFits(Rendering(st, Bullets(st, Parse(st, prevBody), dropped)), MAX_SUMMARY_RUNES);
    var draft := Build(st, prevBody, dropped);
    CompressFits(draft, reply);
    TrimSpaceShortens(Finalize(st, policy, prevBody, dropped, reply));
  }

  lemma CompressFits(draft: string, reply: CompressReply)
    ensures Compress(draft, reply).Some? ==> |Compress(draft, reply).value| <= MAX_SUMMARY_RUNES
  {
    if Compress(draft, reply).Some? {
      var out := TrimSpace(reply.content);
      TruncatedFits(HeaderText(Compressed) + "\n" + out, MAX_SUMMARY_RUNES);
      TruncatedFits(out, MAX_SUMMARY_RUNES);
    }
  }
}
