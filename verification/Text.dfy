/** Text as the source sees it: sequences of runes, trimming, one-line clipping, decimal
    numbers and the truncation marker that caps tool results and the sticky summary. */
module Text {

  /** unicode.IsSpace. */
  predicate IsSpace(c: char) {
    || c == ' '
    || '\t' <= c <= '\r'
    || c == '\U{0085}' || c == '\U{00A0}' || c == '\U{1680}'
    || '\U{2000}' <= c <= '\U{200A}'
    || c == '\U{2028}' || c == '\U{2029}' || c == '\U{202F}' || c == '\U{205F}' || c == '\U{3000}'
  }

  predicate NoSpaces(s: string) {
    forall i :: 0 <= i < |s| ==> !IsSpace(s[i])
  }

  predicate AllSpaces(s: string) {
    forall i :: 0 <= i < |s| ==> IsSpace(s[i])
  }

  /** Neither end is white space. */
  predicate Trimmed(s: string) {
    s != [] ==> !IsSpace(s[0]) && !IsSpace(s[|s| - 1])
  }

  // ---- strings.TrimSpace ----

  function TrimLeft(s: string): (r: string)
    ensures |r| <= |s|
    ensures r != [] ==> !IsSpace(r[0])
  {
    if s != [] && IsSpace(s[0]) then TrimLeft(s[1..]) else s
  }

  function TrimRight(s: string): string {
    if s != [] && IsSpace(s[|s| - 1]) then TrimRight(s[..|s| - 1]) else s
  }

  function TrimSpace(s: string): string {
    TrimRight(TrimLeft(s))
  }

  lemma {:induction false} TrimLeftCuts(s: string) returns (k: nat)
    ensures k <= |s| && TrimLeft(s) == s[k..] && AllSpaces(s[..k])
  {
    if s != [] && IsSpace(s[0]) {
      var j := TrimLeftCuts(s[1..]);
      k := j + 1;
      assert s[..k] == [s[0]] + s[1..][..j];
      assert s[k..] == s[1..][j..];
    } else {
      k := 0;
      assert s[k..] == s;
    }
  }

  lemma {:induction false} TrimRightCuts(s: string) returns (k: nat)
    ensures k <= |s| && TrimRight(s) == s[..k] && AllSpaces(s[k..])
    ensures TrimRight(s) != [] ==> !IsSpace(TrimRight(s)[|TrimRight(s)| - 1])
  {
    if s != [] && IsSpace(s[|s| - 1]) {
      var init := s[..|s| - 1];
      k := TrimRightCuts(init);
      assert s[k..] == init[k..] + [s[|s| - 1]];
      assert s[..k] == init[..k];
    } else {
      k := |s|;
      assert s[..k] == s;
    }
  }

  /** TrimSpace cuts white space off both ends and leaves a trimmed middle. */
  lemma TrimSpaceCuts(s: string) returns (i: nat, j: nat)
    ensures i <= j <= |s| && TrimSpace(s) == s[i..j]
    ensures AllSpaces(s[..i]) && AllSpaces(s[j..])
    ensures Trimmed(TrimSpace(s))
  {
    i := TrimLeftCuts(s);
    var k := TrimRightCuts(TrimLeft(s));
    j := i + k;
    assert s[i..][..k] == s[i..j];
    assert s[i..][k..] == s[j..];
  }

  /** Trimming leaves nothing of exactly the texts that are white space throughout. */
  lemma BlankIffNothingLeft(s: string)
    ensures TrimSpace(s) == "" <==> AllSpaces(s)
  {
    var i, j := TrimSpaceCuts(s);
    if i == j {
      forall k | 0 <= k < |s|
        ensures IsSpace(s[k])
      {
        if k < i {
          assert s[..i][k] == s[k];
        } else {
          assert s[j..][k - j] == s[k];
        }
      }
    }
  }

  lemma TrimSpaceFixed(s: string)
    requires Trimmed(s)
    ensures TrimSpace(s) == s
  {
  }

  lemma TrimSpaceIdempotent(s: string)
    ensures Trimmed(TrimSpace(s)) && TrimSpace(TrimSpace(s)) == TrimSpace(s)
  {
    var i, j := TrimSpaceCuts(s);
    TrimSpaceFixed(TrimSpace(s));
  }

  /** White space around a trimmed, non-empty text is exactly what TrimSpace removes. */
  lemma {:induction false} TrimSpaceAround(before: string, s: string, after: string)
    requires AllSpaces(before) && AllSpaces(after)
    requires s != [] && Trimmed(s)
    ensures TrimSpace(before + s + after) == s
    decreases |before| + |after|
  {
    if before != [] {
      var t := before + s + after;
      assert t[0] == before[0];
      assert t[1..] == before[1..] + s + after;
      TrimSpaceAround(before[1..], s, after);
    } else if after != [] {
      assert before + s + after == s + after;
      assert TrimLeft(s + after) == s + after;
      var t := s + after;
      assert t[..|t| - 1] == s + after[..|after| - 1];
      TrimSpaceAround(before, s, after[..|after| - 1]);
      assert before + s + after[..|after| - 1] == s + after[..|after| - 1];
      assert TrimLeft(s + after[..|after| - 1]) == s + after[..|after| - 1];
    } else {
      assert before + s + after == s;
    }
  }

  lemma AllSpacesAt(s: string, k: nat, i: nat)
    requires k <= i < |s| && AllSpaces(s[k..])
    ensures IsSpace(s[i])
  {
    assert s[k..][i - k] == s[i];
  }

  /** A trimmed, non-empty beginning stays the beginning. */
  lemma TrimSpaceKeepsPrefix(p: string, s: string)
    requires p != "" && Trimmed(p)
    ensures p <= TrimSpace(p + s)
  {
    assert TrimLeft(p + s) == p + s;
    var k := TrimRightCuts(p + s);
    if k < |p| {
      AllSpacesAt(p + s, k, |p| - 1);
    }
  }

  /** What is left of a text stays the beginning of what is left of a longer one. */
  lemma TrimSpaceGrows(a: string, b: string)
    requires TrimSpace(a) != ""
    ensures TrimSpace(a) <= TrimSpace(a + b)
  {
    var i, j := TrimSpaceCuts(a);
    var p, rest := a[i..j], a[j..] + b;
    TrimSpaceIdempotent(a);
    assert a + b == a[..i] + (p + rest);
    SpacesBefore(a[..i], p + rest);
    TrimSpaceKeepsPrefix(p, rest);
  }

  lemma {:induction false} SpacesBefore(before: string, s: string)
    requires AllSpaces(before)
    ensures TrimSpace(before + s) == TrimSpace(s)
  {
    if before == [] {
      assert before + s == s;
    } else {
      assert (before + s)[1..] == before[1..] + s;
      SpacesBefore(before[1..], s);
    }
  }

  // ---- trimming other sets of characters ----

  function StripLeft(blank: char -> bool, s: string): (r: string)
    ensures |r| <= |s|
  {
    if s != [] && blank(s[0]) then StripLeft(blank, s[1..]) else s
  }

  function StripRight(blank: char -> bool, s: string): (r: string)
    ensures |r| <= |s|
  {
    if s != [] && blank(s[|s| - 1]) then StripRight(blank, s[..|s| - 1]) else s
  }

  function Strip(blank: char -> bool, s: string): string {
    StripRight(blank, StripLeft(blank, s))
  }

  predicate AllBlank(blank: char -> bool, s: string) {
    forall i :: 0 <= i < |s| ==> blank(s[i])
  }

  lemma {:induction false} StripBlank(blank: char -> bool, s: string)
    ensures StripLeft(blank, s) == "" <==> AllBlank(blank, s)
    ensures StripLeft(blank, s) != "" ==> !blank(StripLeft(blank, s)[0])
  {
    if s != [] && blank(s[0]) {
      StripBlank(blank, s[1..]);
      assert forall i :: 0 < i < |s| ==> s[i] == s[1..][i - 1];
    }
  }

  lemma {:induction false} StripRightKeepsFirst(blank: char -> bool, s: string)
    requires s != [] && !blank(s[0])
    ensures StripRight(blank, s) != []
  {
    if blank(s[|s| - 1]) {
      StripRightKeepsFirst(blank, s[..|s| - 1]);
    }
  }

  /** Stripping leaves nothing of exactly the texts that are blank throughout. */
  lemma NothingLeftIffBlank(blank: char -> bool, s: string)
    ensures Strip(blank, s) == "" <==> AllBlank(blank, s)
  {
    StripBlank(blank, s);
    if StripLeft(blank, s) != "" {
      StripRightKeepsFirst(blank, StripLeft(blank, s));
    }
  }

  lemma {:induction false} StripLeftCuts(blank: char -> bool, s: string) returns (i: nat)
    ensures i <= |s| && StripLeft(blank, s) == s[i..] && AllBlank(blank, s[..i])
  {
    i := 0;
    if s != [] && blank(s[0]) {
      var k := StripLeftCuts(blank, s[1..]);
      i := k + 1;
      assert forall n :: 0 < n < i ==> s[n] == s[1..][..k][n - 1];
    }
  }

  lemma {:induction false} StripRightCuts(blank: char -> bool, s: string) returns (j: nat)
    ensures j <= |s| && StripRight(blank, s) == s[..j] && AllBlank(blank, s[j..])
    ensures j > 0 ==> !blank(s[j - 1])
  {
    j := |s|;
    if s != [] && blank(s[|s| - 1]) {
      j := StripRightCuts(blank, s[..|s| - 1]);
      assert forall n :: j <= n < |s| - 1 ==> s[n] == s[..|s| - 1][j..][n - j];
    }
  }

  /** Stripping cuts off blanks at both ends, and all of them. */
  lemma StripCuts(blank: char -> bool, s: string) returns (i: nat, j: nat)
    ensures i <= j <= |s| && Strip(blank, s) == s[i..j]
    ensures AllBlank(blank, s[..i]) && AllBlank(blank, s[j..])
    ensures i < j ==> !blank(s[i]) && !blank(s[j - 1])
  {
    i := StripLeftCuts(blank, s);
    StripBlank(blank, s);
    var k := StripRightCuts(blank, s[i..]);
    j := i + k;
    assert s[i..][..k] == s[i..j] && s[i..][k..] == s[j..];
  }

  /** Applies a rune mapping, such as lower-casing, to every rune. */
  function MapRunes(f: char -> char, s: string): (t: string)
    ensures |t| == |s|
  {
    seq(|s|, i requires 0 <= i < |s| => f(s[i]))
  }

  /** Equal rune by rune under a mapping, as strings.EqualFold compares under case folding. */
  predicate SameUnder(f: char -> char, a: string, b: string) {
    |a| == |b| && forall i :: 0 <= i < |a| ==> f(a[i]) == f(b[i])
  }

  lemma SameUnderIff(f: char -> char, a: string, b: string)
    ensures MapRunes(f, a) == MapRunes(f, b) <==> SameUnder(f, a, b)
    ensures MapRunes(f, a) == "" <==> a == ""
  {
    var u, v := MapRunes(f, a), MapRunes(f, b);
    assert forall i :: 0 <= i < |a| ==> u[i] == f(a[i]);
    assert forall i :: 0 <= i < |b| ==> v[i] == f(b[i]);
    if SameUnder(f, a, b) {
      assert u == v;
    }
  }

  // ---- strings.Fields and strings.Join ----

  function WordLength(s: string): (n: nat)
    ensures n <= |s| && NoSpaces(s[..n])
    ensures s != [] && !IsSpace(s[0]) ==> n > 0
    ensures n < |s| ==> IsSpace(s[n])
  {
    if s == [] || IsSpace(s[0]) then 0
    else
      var n := WordLength(s[1..]);
      assert s[..1 + n] == [s[0]] + s[1..][..n];
      1 + n
  }

  function Fields(s: string): seq<string>
    decreases |s|
  {
    var t := TrimLeft(s);
    if t == [] then []
    else
      var n := WordLength(t);
      [t[..n]] + Fields(t[n..])
  }

  function Join(parts: seq<string>, separator: string): string {
    if parts == [] then ""
    else if |parts| == 1 then parts[0]
    else parts[0] + separator + Join(parts[1..], separator)
  }

  predicate Words(parts: seq<string>) {
    forall i :: 0 <= i < |parts| ==> parts[i] != [] && NoSpaces(parts[i])
  }

  lemma {:induction false} FieldsAreWords(s: string)
    ensures Words(Fields(s))
    decreases |s|
  {
    var t := TrimLeft(s);
    if t != [] {
      FieldsAreWords(t[WordLength(t)..]);
    }
  }

  lemma {:induction false} JoinAppend(lines: seq<string>, last: string, separator: string)
    requires lines != []
    ensures Join(lines + [last], separator) == Join(lines, separator) + separator + last
  {
    if |lines| > 1 {
      assert (lines + [last])[1..] == lines[1..] + [last];
      JoinAppend(lines[1..], last, separator);
    } else {
      assert (lines + [last])[1..] == [last];
    }
  }

  // ---- lines ----

  /** strings.Split(s, "\n"). */
  function SplitLines(s: string): (lines: seq<string>)
    ensures |lines| >= 1
  {
    if s == [] then [""]
    else
      var rest := SplitLines(s[1..]);
      if s[0] == '\n' then [""] + rest else [[s[0]] + rest[0]] + rest[1..]
  }

  lemma {:induction false} SplitFirstLine(line: string, rest: string)
    requires '\n' !in line
    ensures SplitLines(line + "\n" + rest) == [line] + SplitLines(rest)
  {
    var s := line + "\n" + rest;
    if line == [] {
      assert s[1..] == rest;
    } else {
      assert s[0] == line[0] && line == [line[0]] + line[1..];
      assert s[1..] == line[1..] + "\n" + rest;
      SplitFirstLine(line[1..], rest);
    }
  }

  lemma {:induction false} SplitOneLine(line: string)
    requires '\n' !in line
    ensures SplitLines(line) == [line]
  {
    if line != [] {
      assert line == [line[0]] + line[1..];
      SplitOneLine(line[1..]);
    }
  }

  /** Splitting undoes joining with newlines. */
  lemma {:induction false} SplitJoinedLines(lines: seq<string>)
    requires lines != []
    requires forall i :: 0 <= i < |lines| ==> '\n' !in lines[i]
    ensures SplitLines(Join(lines, "\n")) == lines
  {
    if |lines| == 1 {
      SplitOneLine(lines[0]);
    } else {
      SplitJoinedLines(lines[1..]);
      SplitFirstLine(lines[0], Join(lines[1..], "\n"));
    }
  }

  /** Joining undoes splitting. */
  lemma {:induction false} JoinSplitLines(s: string)
    ensures Join(SplitLines(s), "\n") == s
  {
    if s != [] {
      JoinSplitLines(s[1..]);
      var rest := SplitLines(s[1..]);
      if s[0] == '\n' {
        assert ([""] + rest)[1..] == rest;
      } else {
        var lines := [[s[0]] + rest[0]] + rest[1..];
        assert lines[1..] == rest[1..];
      }
    }
  }

  /** A line: trimmed, and its only white space is the plain blank. */
  predicate OneLine(s: string) {
    Trimmed(s) && forall i :: 0 <= i < |s| && IsSpace(s[i]) ==> s[i] == ' '
  }

  lemma {:induction false} JoinedWordsAreOneLine(parts: seq<string>)
    requires Words(parts)
    ensures OneLine(Join(parts, " "))
    ensures parts != [] ==> Join(parts, " ") != []
  {
    if |parts| > 1 {
      assert Words(parts[1..]);
      JoinedWordsAreOneLine(parts[1..]);
    }
  }

  /** clipOneLine: white space runs become one blank, and the text is cut after max runes. */
  function ClipOneLine(s: string, max: int): string {
    var line := Join(Fields(TrimSpace(s)), " ");
    if line == "" then ""
    else if max > 0 && |line| > max then line[..max] + "\U{2026}"
    else line
  }

  lemma ClipOneLineShape(s: string, max: int)
    ensures OneLine(ClipOneLine(s, max))
    ensures max > 0 ==> |ClipOneLine(s, max)| <= max + 1
  {
    FieldsAreWords(TrimSpace(s));
    JoinedWordsAreOneLine(Fields(TrimSpace(s)));
  }

  // ---- what clipping keeps ----

  /** The words with these gaps around and between them. */
  function Spread(words: seq<string>, gaps: seq<string>): string
    requires |gaps| == |words| + 1
  {
    if words == [] then gaps[0] else gaps[0] + words[0] + Spread(words[1..], gaps[1..])
  }

  /** White space, and some of it between any two words. */
  predicate Gaps(gaps: seq<string>) {
    && (forall i :: 0 <= i < |gaps| ==> AllSpaces(gaps[i]))
    && (forall i :: 0 < i < |gaps| - 1 ==> gaps[i] != "")
  }

  lemma GapsCons(gap: string, gaps: seq<string>)
    requires AllSpaces(gap) && Gaps(gaps) && (|gaps| > 1 ==> gaps[0] != "")
    ensures Gaps([gap] + gaps)
  {
  }

  lemma SpreadCons(word: string, words: seq<string>, gap: string, gaps: seq<string>)
    requires |gaps| == |words| + 1
    ensures Spread([word] + words, [gap] + gaps) == gap + word + Spread(words, gaps)
  {
    assert ([word] + words)[1..] == words && ([gap] + gaps)[1..] == gaps;
  }

  lemma FirstField(s: string) returns (gap: string, word: string, rest: string)
    requires TrimLeft(s) != ""
    ensures AllSpaces(gap) && s == gap + word + rest && |rest| < |s|
    ensures word != "" && NoSpaces(word) && (rest != "" ==> IsSpace(rest[0]))
    ensures Fields(s) == [word] + Fields(rest)
    ensures IsSpace(s[0]) ==> gap != ""
  {
    var k := TrimLeftCuts(s);
    var t := TrimLeft(s);
    var n := WordLength(t);
    gap, word, rest := s[..k], t[..n], t[n..];
    assert s == s[..k] + t && t == word + rest;
    assert gap + word + rest == gap + (word + rest);
    assert k == 0 ==> t[0] == s[0];
  }

  lemma {:induction false} BlankHasNoFields(s: string)
    ensures TrimLeft(s) == "" <==> Fields(s) == []
    ensures TrimLeft(s) == "" ==> AllSpaces(s)
  {
    var k := TrimLeftCuts(s);
    assert TrimLeft(s) == "" ==> s[..k] == s;
  }

  /** Splitting at white space finds the words of a text. */
  lemma {:induction false} FieldsSpread(s: string) returns (gaps: seq<string>)
    ensures |gaps| == |Fields(s)| + 1 && Gaps(gaps) && s == Spread(Fields(s), gaps)
    ensures s != "" && IsSpace(s[0]) ==> gaps[0] != ""
    decreases |s|
  {
    BlankHasNoFields(s);
    if TrimLeft(s) == "" {
      gaps := [s];
    } else {
      var gap, word, rest := FirstField(s);
      var tail := FieldsSpread(rest);
      BlankHasNoFields(rest);
      assert |tail| > 1 ==> rest != "";
      gaps := [gap] + tail;
      GapsCons(gap, tail);
      SpreadCons(word, Fields(rest), gap, tail);
    }
  }

  lemma Around(before: string, gap: string, word: string, rest: string, after: string)
    ensures (before + gap) + word + ("" + rest + after) == before + (gap + word + rest) + after
  {
  }

  lemma {:induction false} SpreadMore(before: string, words: seq<string>, gaps: seq<string>, after: string)
    returns (wider: seq<string>)
    requires |gaps| == |words| + 1 && Gaps(gaps) && AllSpaces(before) && AllSpaces(after)
    ensures |wider| == |gaps| && Gaps(wider) && (gaps[0] != "" ==> wider[0] != "")
    ensures Spread(words, wider) == before + Spread(words, gaps) + after
    decreases |words|
  {
    if words == [] {
      wider := [before + gaps[0] + after];
    } else {
      var word, rest, gap, later := words[0], words[1..], gaps[0], gaps[1..];
      var tail := SpreadMore("", rest, later, after);
      wider := [before + gap] + tail;
      GapsCons(before + gap, tail);
      assert words == [word] + rest;
      SpreadCons(word, rest, before + gap, tail);
      Around(before, gap, word, Spread(rest, later), after);
    }
  }

  lemma WordsOfTrimmed(s: string, trimmed: string, i: nat, j: nat) returns (gaps: seq<string>)
    requires i <= j <= |s| && trimmed == s[i..j] && AllSpaces(s[..i]) && AllSpaces(s[j..])
    ensures |gaps| == |Fields(trimmed)| + 1 && Gaps(gaps) && s == Spread(Fields(trimmed), gaps)
  {
    var inner := FieldsSpread(trimmed);
    gaps := SpreadMore(s[..i], Fields(trimmed), inner, s[j..]);
    assert s == s[..i] + s[i..j] + s[j..];
  }

  /** A clipped text is the words of the text in order, one blank apart, all of them or the first
      `max` runes of that and an ellipsis. */
  lemma ClipKeepsWords(s: string, max: int) returns (words: seq<string>, gaps: seq<string>)
    ensures Words(words) && |gaps| == |words| + 1 && Gaps(gaps) && s == Spread(words, gaps)
    ensures var line := Join(words, " ");
            ClipOneLine(s, max) == if 0 < max < |line| then line[..max] + "\U{2026}" else line
  {
    words := Fields(TrimSpace(s));
    FieldsAreWords(TrimSpace(s));
    var i, j := TrimSpaceCuts(s);
    gaps := WordsOfTrimmed(s, TrimSpace(s), i, j);
  }

  /** Nothing is left of exactly the blank texts. */
  lemma ClippedToNothingIff(s: string, max: int)
    ensures ClipOneLine(s, max) == "" <==> AllSpaces(s)
  {
    BlankIffNothingLeft(s);
    TrimSpaceIdempotent(s);
    FieldsAreWords(TrimSpace(s));
    JoinedWordsAreOneLine(Fields(TrimSpace(s)));
  }

  // ---- decimal numbers ----

  function Digits(n: nat): (ds: seq<nat>)
    ensures |ds| >= 1
    ensures forall i :: 0 <= i < |ds| ==> ds[i] <= 9
  {
    if n < 10 then [n] else Digits(n / 10) + [n % 10]
  }

  function Value(ds: seq<nat>): nat {
    if ds == [] then 0 else 10 * Value(ds[..|ds| - 1]) + ds[|ds| - 1]
  }

  lemma {:induction false} DigitsRoundTrip(n: nat)
    ensures Value(Digits(n)) == n
  {
    if n >= 10 {
      DigitsRoundTrip(n / 10);
      assert Digits(n)[..|Digits(n)| - 1] == Digits(n / 10);
    } else {
      assert Digits(n)[..0] == [];
    }
  }

  function Pow10(k: nat): (p: nat)
    ensures p >= 1
  {
    if k == 0 then 1 else 10 * Pow10(k - 1)
  }

  lemma {:induction false} DigitsBound(n: nat, k: nat)
    requires k >= 1 && n < Pow10(k)
    ensures |Digits(n)| <= k
  {
    if n >= 10 {
      assert k > 1;
      DigitsBound(n / 10, k - 1);
    }
  }

  function DigitChar(d: nat): (c: char)
    requires d <= 9
    ensures !IsSpace(c)
  {
    '0' + d as char
  }

  function Decimal(n: nat): (s: string)
    ensures |s| == |Digits(n)|
  {
    var ds := Digits(n);
    seq(|ds|, i requires 0 <= i < |ds| => DigitChar(ds[i]))
  }

  lemma DecimalInjective(m: nat, n: nat)
    requires Decimal(m) == Decimal(n)
    ensures m == n
  {
    var dm, dn := Digits(m), Digits(n);
    forall i | 0 <= i < |dm|
      ensures dm[i] == dn[i]
    {
      assert Decimal(m)[i] == Decimal(n)[i];
      assert DigitChar(dm[i]) as int == '0' as int + dm[i];
      assert DigitChar(dn[i]) as int == '0' as int + dn[i];
    }
    assert dm == dn;
    DigitsRoundTrip(m);
    DigitsRoundTrip(n);
  }

  // ---- truncateRunes ----

  /** What a cut text says of its original length. */
  function MarkerLine(length: nat): (s: string)
    ensures |s| == 31 + |Digits(length)|
  {
    "...[truncated, original " + Decimal(length) + " chars]"
  }

  function TruncationMarker(length: nat): (s: string)
    ensures |s| == 32 + |Digits(length)|
  {
    "\n" + MarkerLine(length)
  }

  lemma MarkerText(length: nat)
    ensures TruncationMarker(length) == "\n...[truncated, original " + Decimal(length) + " chars]"
  {
  }

  lemma MarkerIsOneLine(length: nat)
    ensures Trimmed(MarkerLine(length)) && '\n' !in MarkerLine(length) && MarkerLine(length)[0] == '.'
  {
    var digits := Decimal(length);
    forall i | 0 <= i < |digits|
      ensures digits[i] != '\n'
    {
      assert !IsSpace(digits[i]);
    }
  }

  /** How many runes of a cut text are kept before the marker. */
  function KeptRunes(length: nat, max: int): (keep: nat)
    requires 0 < max < length
    ensures keep <= max
  {
    if max > 32 && |TruncationMarker(length)| < max then max - |TruncationMarker(length)| else max
  }

  function Truncated(s: string, max: int): string {
    if max <= 0 || |s| <= max then s
    else s[..KeptRunes(|s|, max)] + TruncationMarker(|s|)
  }

  /** truncateRunes, with the loop that copies the kept runes one by one. */
  method TruncateRunes(s: string, max: int) returns (out: string, cut: bool)
    ensures out == Truncated(s, max)
    ensures cut <==> 0 < max < |s|
  {
    if max <= 0 || |s| <= max {
      return s, false;
    }
    var suffix := TruncationMarker(|s|);
    var keep := max;
    if keep > 32 {
      if |suffix| < keep {
        keep := max - |suffix|;
      }
    }
    out := "";
    var n := 0;
    while n < |s| && n < keep
      invariant 0 <= n <= keep && n <= |s|
      invariant out == s[..n]
    {
      out := out + [s[n]];
      n := n + 1;
    }
    out := out + suffix;
    cut := true;
  }

  /** The exact size of a cut text: max when the marker fits under the cap with a rune to
      spare, otherwise the marker on top of max runes. Either way it is a prefix plus marker. */
  lemma TruncatedLength(s: string, max: int)
    requires 0 < max < |s|
    ensures var digits := |Digits(|s|)|;
            |Truncated(s, max)| == if max > 32 + digits then max else max + 32 + digits
    ensures var kept := |Truncated(s, max)| - |TruncationMarker(|s|)|;
            0 < kept <= |s| && Truncated(s, max) == s[..kept] + TruncationMarker(|s|)
  {
  }

  /** The number of runes of any text the source can hold is a 64-bit int. */
  const MAX_INT := 0x7FFF_FFFF_FFFF_FFFF

  /** Under any cap above 51 runes a capped text really fits the cap. */
  lemma TruncatedFits(s: string, max: int)
    requires max > 51 && |s| <= MAX_INT
    ensures |Truncated(s, max)| <= max
  {
    if |s| > max {
      assert Pow10(6) == 1_000_000;
      assert Pow10(12) == 1_000_000_000_000;
      assert Pow10(18) == 1_000_000_000_000_000_000;
      DigitsBound(|s|, 19);
      TruncatedLength(s, max);
    }
  }

  /** Below that the cap is exceeded: the smallest cut text is already 33 runes over. */
  lemma SmallCapOverflows(s: string, max: int)
    requires 0 < max < |s|
    ensures |Truncated(s, max)| <= max <==> max > 32 + |Digits(|s|)|
  {
    TruncatedLength(s, max);
  }

  // ---- clipRunes ----

  function ClipRunes(s: string, max: int): (r: string)
    ensures max > 0 ==> |r| <= max
  {
    var t := TrimSpace(s);
    if max <= 0 || |t| <= max then t else t[..max]
  }
}
