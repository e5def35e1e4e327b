/** The framing of the server's messages: a header block with a content length (the header part
    of the base protocol in the Language Server Protocol 3.17 specification), or one message per
    line. A byte is a character below '\U{0100}'; nothing here depends on that. */
module Framing {
  import opened Wrappers
  import opened Text

  const MAX_BODY := 16 * 1024 * 1024

  predicate Gap(c: char) {
    c == ' ' || c == '\r' || c == '\n' || c == '\t'
  }

  predicate AsciiSpace(c: char) {
    c == ' ' || '\t' <= c <= '\r'
  }

  function Lower(c: char): char {
    if 'A' <= c <= 'Z' then c - 'A' + 'a' else c
  }

  /** Starts with the name of the length header, in any case. */
  predicate IsLengthHeader(s: string) {
    |s| >= 15 && MapRunes(Lower, s[..15]) == "content-length:"
  }

  // ---- bytes.TrimSpace and strings.TrimSpace, on UTF-8 ----

  /** U+0085 and U+00A0. */
  predicate SpaceOfTwo(a: char, b: char) {
    a == '\U{00C2}' && (b == '\U{0085}' || b == '\U{00A0}')
  }

  /** U+1680, U+2000 to U+200A, U+2028, U+2029, U+202F, U+205F and U+3000. */
  predicate SpaceOfThree(a: char, b: char, c: char) {
    || (a == '\U{00E1}' && b == '\U{009A}' && c == '\U{0080}')
    || (a == '\U{00E2}' && b == '\U{0080}' &&
        ('\U{0080}' <= c <= '\U{008A}' || c == '\U{00A8}' || c == '\U{00A9}' || c == '\U{00AF}'))
    || (a == '\U{00E2}' && b == '\U{0081}' && c == '\U{009F}')
    || (a == '\U{00E3}' && b == '\U{0080}' && c == '\U{0080}')
  }

  /** How many bytes the white space rune takes that the text starts with; 0 if there is none. */
  function LeadingSpace(s: string): (n: nat)
    ensures n <= |s|
  {
    if |s| >= 1 && AsciiSpace(s[0]) then 1
    else if |s| >= 2 && SpaceOfTwo(s[0], s[1]) then 2
    else if |s| >= 3 && SpaceOfThree(s[0], s[1], s[2]) then 3
    else 0
  }

  function TrailingSpace(s: string): (n: nat)
    ensures n <= |s|
  {
    if |s| >= 1 && AsciiSpace(s[|s| - 1]) then 1
    else if |s| >= 2 && SpaceOfTwo(s[|s| - 2], s[|s| - 1]) then 2
    else if |s| >= 3 && SpaceOfThree(s[|s| - 3], s[|s| - 2], s[|s| - 1]) then 3
    else 0
  }

  function TrimStart(s: string): string
    decreases |s|
  {
    if LeadingSpace(s) == 0 then s else TrimStart(s[LeadingSpace(s)..])
  }

  function TrimEnd(s: string): string
    decreases |s|
  {
    if TrailingSpace(s) == 0 then s else TrimEnd(s[..|s| - TrailingSpace(s)])
  }

  function TrimBytes(s: string): string {
    TrimEnd(TrimStart(s))
  }

  /** No white space rune at either end. */
  predicate TrimmedBytes(s: string) {
    s != "" && LeadingSpace(s) == 0 && TrailingSpace(s) == 0
  }

  predicate AsciiSpaces(s: string) {
    forall i :: 0 <= i < |s| ==> AsciiSpace(s[i])
  }

  /** ASCII at the ends that is no white space. */
  lemma AsciiEndsAreTrimmed(s: string)
    requires s != "" && s[0] < '\U{0080}' && s[|s| - 1] < '\U{0080}'
    requires !AsciiSpace(s[0]) && !AsciiSpace(s[|s| - 1])
    ensures TrimmedBytes(s)
  {
  }

  lemma SpaceAfterStartsNothing(s: string, after: string)
    requires s != "" && LeadingSpace(s) == 0 && AsciiSpaces(after)
    ensures LeadingSpace(s + after) == 0
  {
    assert (s + after)[0] == s[0];
    assert |s| >= 2 ==> (s + after)[1] == s[1];
    assert |s| >= 3 ==> (s + after)[2] == s[2];
    assert |s| < 2 && |s + after| >= 2 ==> AsciiSpace((s + after)[1]);
    assert |s| < 3 && |s + after| >= 3 ==> AsciiSpace((s + after)[2]);
  }

  lemma {:induction false} TrimStartAround(before: string, s: string)
    requires AsciiSpaces(before) && s != "" && LeadingSpace(s) == 0
    ensures TrimStart(before + s) == s
  {
    if before == "" {
      assert before + s == s;
    } else {
      assert (before + s)[0] == before[0];
      assert (before + s)[1..] == before[1..] + s;
      TrimStartAround(before[1..], s);
    }
  }

  lemma {:induction false} TrimEndAround(s: string, after: string)
    requires AsciiSpaces(after) && s != "" && TrailingSpace(s) == 0
    ensures TrimEnd(s + after) == s
  {
    if after == "" {
      assert s + after == s;
    } else {
      var n := |s + after| - 1;
      assert (s + after)[n] == after[|after| - 1];
      assert (s + after)[..n] == s + after[..|after| - 1];
      TrimEndAround(s, after[..|after| - 1]);
    }
  }

  /** Trimming removes exactly the ASCII white space around a text that is trimmed itself. */
  lemma TrimAround(before: string, s: string, after: string)
    requires AsciiSpaces(before) && AsciiSpaces(after) && TrimmedBytes(s)
    ensures TrimBytes(before + s + after) == s
  {
    assert before + s + after == before + (s + after);
    SpaceAfterStartsNothing(s, after);
    TrimStartAround(before, s + after);
    TrimEndAround(s, after);
  }

  lemma {:induction false} AsciiSpacesVanish(s: string)
    requires AsciiSpaces(s)
    ensures TrimBytes(s) == ""
  {
    if s != "" {
      AsciiSpacesVanish(s[1..]);
    }
  }

  lemma {:induction false} TrimStartTrims(s: string)
    ensures TrimStart(s) == "" || LeadingSpace(TrimStart(s)) == 0
    decreases |s|
  {
    if LeadingSpace(s) > 0 {
      TrimStartTrims(s[LeadingSpace(s)..]);
    }
  }

  lemma {:induction false} TrimEndTrims(s: string)
    requires s == "" || LeadingSpace(s) == 0
    ensures TrimEnd(s) == "" || TrimmedBytes(TrimEnd(s))
    decreases |s|
  {
    if TrailingSpace(s) > 0 {
      TrimEndTrims(s[..|s| - TrailingSpace(s)]);
    }
  }

  /** What is left has no white space rune at either end. */
  lemma TrimBytesTrims(s: string)
    ensures TrimBytes(s) == "" || TrimmedBytes(TrimBytes(s))
  {
    TrimStartTrims(s);
    TrimEndTrims(TrimStart(s));
  }

  // ---- strconv.Atoi ----

  predicate IsDigit(c: char) {
    '0' <= c <= '9'
  }

  function DecimalValue(s: string): nat
    requires forall i :: 0 <= i < |s| ==> IsDigit(s[i])
  {
    if s == [] then 0
    else
      assert IsDigit(s[|s| - 1]);
      10 * DecimalValue(s[..|s| - 1]) + (s[|s| - 1] as int - '0' as int)
  }

  function Atoi(s: string): Option<int> {
    var digits := if s != [] && (s[0] == '-' || s[0] == '+') then s[1..] else s;
    if digits == [] || exists i :: 0 <= i < |digits| && !IsDigit(digits[i]) then None
    else
      var n: int := if s[0] == '-' then -(DecimalValue(digits) as int) else DecimalValue(digits);
      if -MAX_INT - 1 <= n <= MAX_INT then Some(n) else None
  }

  lemma {:induction false} DecimalDigits(n: nat)
    ensures forall i :: 0 <= i < |Decimal(n)| ==> IsDigit(Decimal(n)[i])
    ensures DecimalValue(Decimal(n)) == n
  {
    var s := Decimal(n);
    if n < 10 {
      assert s[..|s| - 1] == [];
      assert s[0] == DigitChar(n);
    } else {
      DecimalDigits(n / 10);
      assert s[..|s| - 1] == Decimal(n / 10);
      assert s[|s| - 1] == DigitChar(n % 10);
    }
  }

  /** Reading back a printed number. */
  lemma AtoiDecimal(n: nat)
    ensures Atoi(Decimal(n)) == if n <= MAX_INT then Some(n) else None
  {
    DecimalDigits(n);
    assert IsDigit(Decimal(n)[0]);
  }

  // ---- reading ----

  datatype Error = EndOfStream | BadLength | MissingLength | TooLarge | ShortBody

  datatype Read = Message(body: string, rest: string) | Failed(error: Error)

  /** ReadBytes and ReadString up to a newline: the length of the line with its newline, if any. */
  function LineLength(s: string): (n: nat)
    ensures n <= |s|
    ensures n > 0 ==> s[n - 1] == '\n'
    ensures n == 0 ==> '\n' !in s
  {
    if s == [] then 0
    else if s[0] == '\n' then 1
    else
      var n := LineLength(s[1..]);
      if n == 0 then 0 else n + 1
  }

  /** One header line: the length after it. */
  function HeaderLength(line: string, length: int): Option<int> {
    if !IsLengthHeader(line) then Some(length)
    else
      var n := Atoi(TrimBytes(line[15..]));
      if n.Some? then n else Atoi(TrimBytes(MapRunes(Lower, line)[15..]))
  }

  function ReadBody(s: string, length: int): Read {
    if length <= 0 then Failed(MissingLength)
    else if length > MAX_BODY then Failed(TooLarge)
    else if |s| < length then Failed(ShortBody)
    else Message(s[..length], s[length..])
  }

  /** readLSP: header lines up to an empty one, the last length counts; then the body. */
  function ReadHeaders(s: string, length: int): (r: Read)
    ensures r.Message? ==> |r.rest| < |s|
    decreases |s|
  {
    var n := LineLength(s);
    if n == 0 then Failed(EndOfStream)
    else
      var line := TrimBytes(s[..n]);
      if line == "" then ReadBody(s[n..], length)
      else
        var next := HeaderLength(line, length);
        if next.None? then Failed(BadLength) else ReadHeaders(s[n..], next.value)
  }

  function ReadLine(s: string): (r: Read)
    requires s != []
    ensures r.Message? && |r.rest| < |s|
  {
    var n := if LineLength(s) == 0 then |s| else LineLength(s);
    Message(TrimBytes(s[..n]), s[n..])
  }

  /** readMsg: blanks and newlines are skipped, then the first bytes tell the kind of message. */
  function ReadMessage(s: string): (r: Read)
    ensures r.Message? ==> |r.rest| < |s|
    decreases |s|
  {
    if s == [] then Failed(EndOfStream)
    else if Gap(s[0]) then ReadMessage(s[1..])
    else if IsLengthHeader(s) then ReadHeaders(s, 0)
    else ReadLine(s)
  }

  /** A way of reading one message that always consumes something. */
  type MessageReader = f: string -> Read | forall s :: f(s).Message? ==> |f(s).rest| < |s|
    witness s => Failed(EndOfStream)

  datatype Reading = Reading(bodies: seq<string>, error: Error)

  function Before(bodies: seq<string>, r: Reading): Reading {
    Reading(bodies + r.bodies, r.error)
  }

  /** The reader's loop: the messages until the stream fails, empty ones skipped. */
  function Drain(read: MessageReader, s: string): Reading
    decreases |s|
  {
    match read(s)
    case Failed(e) => Reading([], e)
    case Message(body, rest) => if body == "" then Drain(read, rest) else Before([body], Drain(read, rest))
  }

  function ReadAll(s: string): Reading {
    Drain(ReadMessage, s)
  }

  // ---- writing ----

  function LengthLine(n: nat): string {
    "Content-Length: " + Decimal(n) + "\r\n"
  }

  /** writeMsg. */
  function Frame(body: string): string {
    LengthLine(|body|) + "\r\n" + body
  }

  // ---- round trip ----

  lemma {:induction false} LineEnds(line: string, rest: string)
    requires '\n' !in line
    ensures LineLength(line + "\n" + rest) == |line| + 1
  {
    var s := line + "\n" + rest;
    if line != [] {
      assert s[1..] == line[1..] + "\n" + rest;
      LineEnds(line[1..], rest);
    }
  }

  lemma SpaceFree(n: nat)
    ensures var d := Decimal(n);
            d != [] && '\n' !in d && (forall i :: 0 <= i < |d| ==> d[i] < '\U{0080}' && !AsciiSpace(d[i]))
  {
    DecimalDigits(n);
    forall i | 0 <= i < |Decimal(n)|
      ensures Decimal(n)[i] < '\U{0080}' && !AsciiSpace(Decimal(n)[i])
    {
      assert IsDigit(Decimal(n)[i]);
    }
  }

  /** A header name that is read in any case, here as it is written. */
  predicate GoodName(name: string) {
    && |name| == 16 && IsLengthHeader(name) && name[15] == ' ' && '\n' !in name
    && name[0] < '\U{0080}' && !AsciiSpace(name[0])
  }

  lemma WrittenNameInLowerCase(i: nat)
    requires i < 15
    ensures Lower("Content-Length: "[i]) == "content-length:"[i]
  {
    var name, lower := "Content-Length: ", "content-length:";
    if i < 5 {
      assert name[0] == 'C' && name[1] == 'o' && name[2] == 'n' && name[3] == 't' && name[4] == 'e';
      assert lower[0] == 'c' && lower[1] == 'o' && lower[2] == 'n' && lower[3] == 't' && lower[4] == 'e';
    } else if i < 10 {
      assert name[5] == 'n' && name[6] == 't' && name[7] == '-' && name[8] == 'L' && name[9] == 'e';
      assert lower[5] == 'n' && lower[6] == 't' && lower[7] == '-' && lower[8] == 'l' && lower[9] == 'e';
    } else {
      assert name[10] == 'n' && name[11] == 'g' && name[12] == 't' && name[13] == 'h' && name[14] == ':';
      assert lower[10] == 'n' && lower[11] == 'g' && lower[12] == 't' && lower[13] == 'h' && lower[14] == ':';
    }
  }

  lemma WrittenNameIsGood()
    ensures GoodName("Content-Length: ")
  {
    var name := "Content-Length: ";
    var lowered := MapRunes(Lower, name[..15]);
    forall i | 0 <= i < 15
      ensures lowered[i] == "content-length:"[i]
    {
      WrittenNameInLowerCase(i);
    }
    assert lowered == "content-length:";
  }

  /** The name and a printed length, on their line and on their own. */
  lemma TrimLengthLine(name: string, n: nat)
    requires GoodName(name)
    ensures TrimBytes(name + Decimal(n) + "\r\n") == name + Decimal(n)
    ensures TrimBytes((name + Decimal(n))[15..]) == Decimal(n)
  {
    var line := name + Decimal(n);
    SpaceFree(n);
    AsciiEndsAreTrimmed(line);
    assert "" + line + "\r\n" == line + "\r\n";
    TrimAround("", line, "\r\n");
    assert line[15..] == " " + Decimal(n) + "";
    AsciiEndsAreTrimmed(Decimal(n));
    TrimAround(" ", Decimal(n), "");
  }

  /** A length line sets the length. */
  lemma ReadLengthLine(name: string, n: nat, rest: string, length: int)
    requires GoodName(name) && n <= MAX_INT
    ensures ReadHeaders(name + Decimal(n) + "\r\n" + rest, length) == ReadHeaders(rest, n)
  {
    var line := name + Decimal(n);
    var s := line + "\r\n" + rest;
    SpaceFree(n);
    assert s == line + "\r" + "\n" + rest;
    LineEnds(line + "\r", rest);
    var k := LineLength(s);
    assert s[..k] == line + "\r\n" && s[k..] == rest;
    TrimLengthLine(name, n);
    assert line[..15] == name[..15];
    AtoiDecimal(n);
  }

  /** An empty line ends the headers. */
  lemma ReadEmptyLine(rest: string, length: int)
    ensures ReadHeaders("\r\n" + rest, length) == ReadBody(rest, length)
  {
    var s := "\r\n" + rest;
    assert s == "\r" + "\n" + rest;
    LineEnds("\r", rest);
    assert s[..2] == "\r\n" && s[2..] == rest;
    AsciiSpacesVanish("\r\n");
  }

  /** A frame comes back whole, whatever its body and whatever follows, exactly when the body has
      at least one byte and at most 16 MiB. */
  lemma FrameRoundTrip(body: string, rest: string)
    requires |body| <= MAX_INT
    ensures ReadMessage(Frame(body) + rest) ==
            if |body| == 0 then Failed(MissingLength)
            else if |body| > MAX_BODY then Failed(TooLarge)
            else Message(body, rest)
  {
    WrittenNameIsGood();
    FrameHeaders("Content-Length: ", body, rest);
  }

  lemma FrameHeaders(name: string, body: string, rest: string)
    requires GoodName(name) && |body| <= MAX_INT
    ensures ReadMessage(name + Decimal(|body|) + "\r\n" + "\r\n" + body + rest) == ReadBody(body + rest, |body|)
    ensures |body| > 0 && |body| <= MAX_BODY ==> ReadBody(body + rest, |body|) == Message(body, rest)
  {
    var s := name + Decimal(|body|) + "\r\n" + "\r\n" + body + rest;
    assert s == name + Decimal(|body|) + "\r\n" + ("\r\n" + (body + rest));
    assert s[..15] == name[..15] && s[0] == name[0];
    ReadLengthLine(name, |body|, "\r\n" + (body + rest), 0);
    ReadEmptyLine(body + rest, |body|);
  }

  /** A message on a line of its own that readMsg takes for one. */
  predicate PlainLine(text: string) {
    TrimmedBytes(text) && '\n' !in text && !IsLengthHeader(text)
  }

  lemma LineRoundTrip(text: string, rest: string)
    requires PlainLine(text)
    ensures ReadMessage(text + "\n" + rest) == Message(text, rest)
  {
    var s := text + "\n" + rest;
    LineEnds(text, rest);
    assert s[..|text| + 1] == "" + text + "\n" && s[|text| + 1..] == rest;
    TrimAround("", text, "\n");
    NotAHeader(text, rest);
  }

  lemma NotAHeader(text: string, rest: string)
    requires '\n' !in text && !IsLengthHeader(text)
    ensures !IsLengthHeader(text + "\n" + rest)
  {
    var s := text + "\n" + rest;
    if |text| >= 15 {
      assert s[..15] == text[..15];
    } else if |s| >= 15 {
      NewlineIsNoHeader(s, |text|);
    }
  }

  lemma NewlineIsNoHeader(s: string, k: nat)
    requires k < 15 <= |s| && s[k] == '\n'
    ensures !IsLengthHeader(s)
  {
    assert MapRunes(Lower, s[..15])[k] == Lower(s[k]) == '\n';
    assert '\n' !in "content-length:";
  }

  /** What a peer may put on the wire. */
  datatype Wire = Framed(body: string) | Line(text: string) {
    predicate Sendable() {
      match this
      case Framed(body) => 1 <= |body| <= MAX_BODY
      case Line(text) => PlainLine(text)
    }

    function Encoded(): string {
      match this
      case Framed(body) => Frame(body)
      case Line(text) => text + "\n"
    }

    function Payload(): string {
      match this
      case Framed(body) => body
      case Line(text) => text
    }
  }

  function EncodeAll(wires: seq<Wire>): string {
    if wires == [] then "" else wires[0].Encoded() + EncodeAll(wires[1..])
  }

  function Payloads(wires: seq<Wire>): (bodies: seq<string>)
    ensures |bodies| == |wires|
    ensures forall i :: 0 <= i < |wires| ==> bodies[i] == wires[i].Payload()
  {
    if wires == [] then [] else [wires[0].Payload()] + Payloads(wires[1..])
  }

  lemma ReadWire(w: Wire, rest: string)
    requires w.Sendable()
    ensures ReadMessage(w.Encoded() + rest) == Message(w.Payload(), rest)
  {
    match w {
      case Framed(body) => FrameRoundTrip(body, rest);
      case Line(text) => LineRoundTrip(text, rest);
    }
  }

  predicate AllSendable(wires: seq<Wire>) {
    forall i :: 0 <= i < |wires| ==> wires[i].Sendable()
  }

  lemma EncodeFirst(wires: seq<Wire>, rest: string)
    requires wires != []
    ensures EncodeAll(wires) + rest == wires[0].Encoded() + (EncodeAll(wires[1..]) + rest)
  {
  }

  lemma BeforeFirst(body: string, bodies: seq<string>, r: Reading)
    ensures Before([body], Before(bodies, r)) == Before([body] + bodies, r)
  {
    assert [body] + (bodies + r.bodies) == [body] + bodies + r.bodies;
  }

  lemma BeforeNothing(r: Reading)
    ensures Before([], r) == r
  {
    assert [] + r.bodies == r.bodies;
  }

  lemma DrainFirst(read: MessageReader, s: string, body: string, rest: string)
    requires read(s) == Message(body, rest) && body != ""
    ensures Drain(read, s) == Before([body], Drain(read, rest))
  {
  }

  /** A reader that reads back any one message reads back any list of them. */
  lemma {:induction false} DrainRoundTrip(read: MessageReader, wires: seq<Wire>, rest: string)
    requires forall w: Wire, tail :: w.Sendable() ==> read(w.Encoded() + tail) == Message(w.Payload(), tail)
    requires AllSendable(wires)
    ensures Drain(read, EncodeAll(wires) + rest) == Before(Payloads(wires), Drain(read, rest))
  {
    if wires == [] {
      assert EncodeAll(wires) + rest == rest;
      BeforeNothing(Drain(read, rest));
    } else {
      var w, tail := wires[0], EncodeAll(wires[1..]) + rest;
      EncodeFirst(wires, rest);
      DrainFirst(read, w.Encoded() + tail, w.Payload(), tail);
      DrainRoundTrip(read, wires[1..], rest);
      BeforeFirst(w.Payload(), Payloads(wires[1..]), Drain(read, rest));
    }
  }

  /** Any mix of frames and plain lines is read back exactly, up to whatever follows. */
  lemma StreamRoundTrip(wires: seq<Wire>, rest: string)
    requires AllSendable(wires)
    ensures ReadAll(EncodeAll(wires) + rest) == Before(Payloads(wires), ReadAll(rest))
  {
    forall w: Wire, tail | w.Sendable()
      ensures ReadMessage(w.Encoded() + tail) == Message(w.Payload(), tail)
    {
      ReadWire(w, tail);
    }
    DrainRoundTrip(ReadMessage, wires, rest);
  }

  lemma DrainFails(read: MessageReader, s: string)
    requires read(s).Failed?
    ensures Drain(read, s) == Reading([], read(s).error)
  {
  }

  function Frames(bodies: seq<string>): seq<Wire> {
    seq(|bodies|, i requires 0 <= i < |bodies| => Framed(bodies[i]))
  }

  predicate InRange(bodies: seq<string>) {
    forall i :: 0 <= i < |bodies| ==> 1 <= |bodies[i]| <= MAX_BODY
  }

  lemma PayloadsOfFrames(bodies: seq<string>)
    ensures Payloads(Frames(bodies)) == bodies
  {
  }

  lemma {:induction false} EncodeAppend(a: seq<Wire>, b: seq<Wire>)
    ensures EncodeAll(a + b) == EncodeAll(a) + EncodeAll(b)
  {
    if a == [] {
      assert a + b == b;
    } else {
      assert (a + b)[1..] == a[1..] + b;
      EncodeAppend(a[1..], b);
    }
  }

  /** Reading what was written gives back exactly the bodies written and then the end of the stream
      if and only if every body has 1 byte to 16 MiB. */
  lemma FramesRoundTripIff(bodies: seq<string>)
    requires forall i :: 0 <= i < |bodies| ==> |bodies[i]| <= MAX_INT
    ensures ReadAll(EncodeAll(Frames(bodies))) == Reading(bodies, EndOfStream) <==> InRange(bodies)
  {
    if InRange(bodies) {
      StreamRoundTrip(Frames(bodies), "");
      DrainFails(ReadMessage, "");
      assert EncodeAll(Frames(bodies)) + "" == EncodeAll(Frames(bodies));
      PayloadsOfFrames(bodies);
    } else {
      var k := FirstOutOfRange(bodies);
      BreaksAt(bodies, k);
    }
  }

  lemma {:induction false} FirstOutOfRange(bodies: seq<string>) returns (k: nat)
    requires !InRange(bodies)
    ensures k < |bodies| && InRange(bodies[..k]) && !(1 <= |bodies[k]| <= MAX_BODY)
  {
    var n := |bodies| - 1;
    if InRange(bodies[..n]) {
      k := n;
    } else {
      k := FirstOutOfRange(bodies[..n]);
      assert bodies[..n][..k] == bodies[..k];
    }
  }

  lemma SplitFrames(bodies: seq<string>, k: nat)
    requires k < |bodies|
    ensures EncodeAll(Frames(bodies)) ==
            EncodeAll(Frames(bodies[..k])) + (Frame(bodies[k]) + EncodeAll(Frames(bodies[k + 1..])))
  {
    var good, bad := Frames(bodies[..k]), [Framed(bodies[k])];
    assert Frames(bodies) == good + (bad + Frames(bodies[k + 1..]));
    EncodeAppend(good, bad + Frames(bodies[k + 1..]));
    assert (bad + Frames(bodies[k + 1..]))[1..] == Frames(bodies[k + 1..]);
  }

  lemma BadFrameFails(body: string, rest: string)
    requires !(1 <= |body| <= MAX_BODY) && |body| <= MAX_INT
    ensures ReadAll(Frame(body) + rest) == Reading([], if |body| == 0 then MissingLength else TooLarge)
  {
    FrameRoundTrip(body, rest);
    DrainFails(ReadMessage, Frame(body) + rest);
  }

  lemma EncodeOneMore(bodies: seq<string>, i: nat)
    requires i < |bodies|
    ensures EncodeAll(Frames(bodies[..i + 1])) == EncodeAll(Frames(bodies[..i])) + Framed(bodies[i]).Encoded()
  {
    var last := [Framed(bodies[i])];
    assert Frames(bodies[..i + 1]) == Frames(bodies[..i]) + last;
    EncodeAppend(Frames(bodies[..i]), last);
    assert EncodeAll(last) == Framed(bodies[i]).Encoded() + "";
  }

  /** The first body out of range ends the reading with an error. */
  lemma BreaksAt(bodies: seq<string>, k: nat)
    requires k < |bodies| && InRange(bodies[..k]) && !(1 <= |bodies[k]| <= MAX_BODY) && |bodies[k]| <= MAX_INT
    ensures ReadAll(EncodeAll(Frames(bodies))) ==
            Reading(bodies[..k], if |bodies[k]| == 0 then MissingLength else TooLarge)
  {
    var rest := EncodeAll(Frames(bodies[k + 1..]));
    SplitFrames(bodies, k);
    StreamRoundTrip(Frames(bodies[..k]), Frame(bodies[k]) + rest);
    BadFrameFails(bodies[k], rest);
    PayloadsOfFrames(bodies[..k]);
  }
}
