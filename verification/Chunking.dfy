/** Splitting a document into chunks: headings and blank lines separate blocks, and a block longer
    than the rune budget is cut into pieces. */
module Chunking {
  import opened Text

  datatype Chunk = Chunk(id: string, path: string, text: string)

  function MaxRunes(max: int): (n: nat)
    ensures n > 0
  {
    if max <= 0 then 480 else max
  }

  // ---- the runes that matter ----

  /** The runes that are not white space, in order. */
  function NonSpace(s: string): string {
    if s == [] then ""
    else NonSpace(s[..|s| - 1]) + if IsSpace(s[|s| - 1]) then "" else [s[|s| - 1]]
  }

  lemma {:induction false} NonSpaceConcat(a: string, b: string)
    ensures NonSpace(a + b) == NonSpace(a) + NonSpace(b)
  {
    if b == [] {
      assert a + b == a;
    } else {
      assert (a + b)[..|a + b| - 1] == a + b[..|b| - 1];
      NonSpaceConcat(a, b[..|b| - 1]);
    }
  }

  lemma {:induction false} NonSpaceOfSpaces(s: string)
    requires AllSpaces(s)
    ensures NonSpace(s) == ""
  {
    if s != [] {
      NonSpaceOfSpaces(s[..|s| - 1]);
    }
  }

  lemma TrimmingKeepsNonSpace(s: string)
    ensures NonSpace(TrimSpace(s)) == NonSpace(s)
  {
    var i, j := TrimSpaceCuts(s);
    assert s == s[..i] + (s[i..j] + s[j..]);
    NonSpaceConcat(s[..i], s[i..j] + s[j..]);
    NonSpaceConcat(s[i..j], s[j..]);
    NonSpaceOfSpaces(s[..i]);
    NonSpaceOfSpaces(s[j..]);
  }

  function Concat(parts: seq<string>): string {
    if parts == [] then "" else Concat(parts[..|parts| - 1]) + parts[|parts| - 1]
  }

  lemma {:induction false} ConcatAppend(a: seq<string>, b: seq<string>)
    ensures Concat(a + b) == Concat(a) + Concat(b)
  {
    if b == [] {
      assert a + b == a;
    } else {
      var init, last := b[..|b| - 1], b[|b| - 1];
      assert (a + b)[..|a + b| - 1] == a + init;
      ConcatAppend(a, init);
      assert (Concat(a) + Concat(init)) + last == Concat(a) + (Concat(init) + last);
    }
  }

  // ---- strings.ReplaceAll(text, "\r\n", "\n") ----

  function UnixNewlines(s: string): string {
    if |s| >= 2 && s[0] == '\r' && s[1] == '\n' then "\n" + UnixNewlines(s[2..])
    else if s == [] then ""
    else [s[0]] + UnixNewlines(s[1..])
  }

  lemma ReplacedHead(head: string, s: string, t: string)
    requires NonSpace(t) == NonSpace(s)
    ensures NonSpace(head + t) == NonSpace(head + s)
  {
    NonSpaceConcat(head, t);
    NonSpaceConcat(head, s);
  }

  lemma DroppedReturn(s: string)
    ensures NonSpace("\r\n" + s) == NonSpace("\n" + s)
  {
    NonSpaceConcat("\r\n", s);
    NonSpaceConcat("\n", s);
    NonSpaceOfSpaces("\r\n");
    NonSpaceOfSpaces("\n");
  }

  lemma {:induction false} NewlinesKeepNonSpace(s: string)
    ensures NonSpace(UnixNewlines(s)) == NonSpace(s)
  {
    if |s| >= 2 && s[0] == '\r' && s[1] == '\n' {
      NewlinesKeepNonSpace(s[2..]);
      ReplacedHead("\n", s[2..], UnixNewlines(s[2..]));
      DroppedReturn(s[2..]);
      assert s == "\r\n" + s[2..];
    } else if s != [] {
      NewlinesKeepNonSpace(s[1..]);
      ReplacedHead([s[0]], s[1..], UnixNewlines(s[1..]));
      assert s == [s[0]] + s[1..];
    }
  }

  // ---- splitBlocks ----

  /** The blocks so far and the one being built. */
  datatype Blocks = Blocks(done: seq<string>, cur: string)

  function Flush(b: Blocks): Blocks {
    var s := TrimSpace(b.cur);
    Blocks(if s != "" then b.done + [s] else b.done, "")
  }

  predicate IsHeading(line: string) {
    TrimSpace(line) != "" && TrimSpace(line)[0] == '#'
  }

  function AddLine(b: Blocks, line: string): Blocks {
    if IsHeading(line) then Flush(b).(cur := TrimSpace(line) + "\n")
    else if TrimSpace(line) == "" then Flush(b)
    else b.(cur := (if b.cur != "" then b.cur + "\n" else b.cur) + line)
  }

  function AddLines(lines: seq<string>): Blocks {
    if lines == [] then Blocks([], "") else AddLine(AddLines(lines[..|lines| - 1]), lines[|lines| - 1])
  }

  function SplitBlocks(text: string): seq<string> {
    Flush(AddLines(SplitLines(text))).done
  }

  method SplitIntoBlocks(text: string) returns (blocks: seq<string>)
    ensures blocks == SplitBlocks(text)
  {
    var lines := SplitLines(text);
    blocks := [];
    var cur := "";
    for i := 0 to |lines|
      invariant Blocks(blocks, cur) == AddLines(lines[..i])
    {
      assert lines[..i + 1][..i] == lines[..i];
      var trim := TrimSpace(lines[i]);
      if trim != "" && trim[0] == '#' {
        blocks := FlushTo(blocks, cur);
        cur := trim + "\n";
      } else if trim == "" {
        blocks := FlushTo(blocks, cur);
        cur := "";
      } else {
        if |cur| > 0 {
          cur := cur + "\n";
        }
        cur := cur + lines[i];
      }
    }
    assert lines[..|lines|] == lines;
    blocks := FlushTo(blocks, cur);
  }

  method FlushTo(blocks: seq<string>, cur: string) returns (out: seq<string>)
    ensures Blocks(out, "") == Flush(Blocks(blocks, cur))
  {
    out := blocks;
    var s := TrimSpace(cur);
    if s != "" {
      out := out + [s];
    }
  }

  // ---- splitRunes ----

  function Pieces(s: string, max: nat): (pieces: seq<string>)
    requires max > 0
    ensures forall i :: 0 <= i < |pieces| ==> 1 <= |pieces[i]| <= max
    ensures forall i :: 0 <= i < |pieces| - 1 ==> |pieces[i]| == max
    decreases |s|
  {
    if s == [] then []
    else if |s| <= max then [s]
    else [s[..max]] + Pieces(s[max..], max)
  }

  lemma ConcatCons(head: string, tail: seq<string>)
    ensures Concat([head] + tail) == head + Concat(tail)
  {
    ConcatAppend([head], tail);
    assert [head][..0] == [];
    assert Concat([head]) == head;
  }

  lemma {:induction false} PiecesConcat(s: string, max: nat)
    requires max > 0
    ensures Concat(Pieces(s, max)) == s
    decreases |s|
  {
    if |s| > max {
      PiecesConcat(s[max..], max);
      ConcatCons(s[..max], Pieces(s[max..], max));
    } else if s != [] {
      ConcatCons(s, []);
      assert [s] + [] == [s];
    }
  }

  method SplitRunes(s: string, max: nat) returns (out: seq<string>)
    requires max > 0 && s != ""
    ensures out == Pieces(s, max)
  {
    if |s| <= max {
      return [s];
    }
    var runes := s;
    out := [];
    while |runes| > 0
      invariant Pieces(s, max) == out + Pieces(runes, max)
      decreases |runes|
    {
      var n := max;
      if n > |runes| {
        n := |runes|;
      }
      assert n == |runes| ==> runes[..n] == runes && Pieces(runes, max) == [runes];
      out := out + [runes[..n]];
      runes := runes[n..];
    }
  }

  // ---- ChunkDocument ----

  function AllPieces(blocks: seq<string>, max: nat): seq<string>
    requires max > 0
  {
    if blocks == [] then []
    else AllPieces(blocks[..|blocks| - 1], max) + Pieces(TrimSpace(blocks[|blocks| - 1]), max)
  }

  function ChunkID(path: string, n: nat): string {
    path + "#" + Decimal(n)
  }

  function Numbered(path: string, texts: seq<string>): seq<Chunk> {
    seq(|texts|, i requires 0 <= i < |texts| => Chunk(ChunkID(path, i + 1), path, texts[i]))
  }

  function ChunkTexts(text: string, max: int): seq<string> {
    AllPieces(SplitBlocks(UnixNewlines(text)), MaxRunes(max))
  }

  function Chunks(path: string, text: string, max: int): seq<Chunk> {
    Numbered(path, ChunkTexts(text, max))
  }

  method AddPieces(path: string, chunks: seq<Chunk>, ghost texts: seq<string>, pieces: seq<string>)
    returns (out: seq<Chunk>)
    requires chunks == Numbered(path, texts)
    ensures out == Numbered(path, texts + pieces)
  {
    out := chunks;
    assert texts + pieces[..0] == texts;
    for k := 0 to |pieces|
      invariant out == Numbered(path, texts + pieces[..k])
    {
      assert texts + pieces[..k + 1] == texts + pieces[..k] + [pieces[k]];
      out := out + [Chunk(ChunkID(path, |out| + 1), path, pieces[k])];
    }
    assert pieces[..|pieces|] == pieces;
  }

  lemma AllPiecesNext(blocks: seq<string>, i: nat, max: nat)
    requires max > 0 && i < |blocks|
    ensures AllPieces(blocks[..i + 1], max) == AllPieces(blocks[..i], max) + Pieces(TrimSpace(blocks[i]), max)
    ensures TrimSpace(blocks[i]) == "" ==> AllPieces(blocks[..i + 1], max) == AllPieces(blocks[..i], max)
  {
    assert blocks[..i + 1][..i] == blocks[..i];
  }

  method ChunkDocument(path: string, text: string, max: int) returns (out: seq<Chunk>)
    ensures out == Chunks(path, text, max)
  {
    var blocks := SplitIntoBlocks(UnixNewlines(text));
    ghost var texts := [];
    out := [];
    for i := 0 to |blocks|
      invariant texts == AllPieces(blocks[..i], MaxRunes(max)) && out == Numbered(path, texts)
    {
      AllPiecesNext(blocks, i, MaxRunes(max));
      var block := TrimSpace(blocks[i]);
      if block != "" {
        var pieces := SplitRunes(block, MaxRunes(max));
        out := AddPieces(path, out, texts, pieces);
        texts := texts + pieces;
      }
    }
    assert blocks[..|blocks|] == blocks;
  }

  // ---- nothing but white space is lost ----

  lemma FlushKeepsNonSpace(b: Blocks)
    ensures NonSpace(Concat(Flush(b).done)) == NonSpace(Concat(b.done)) + NonSpace(b.cur)
  {
    var s := TrimSpace(b.cur);
    TrimmingKeepsNonSpace(b.cur);
    if s != "" {
      assert (b.done + [s])[..|b.done|] == b.done;
      NonSpaceConcat(Concat(b.done), s);
    } else {
      assert NonSpace(b.cur) == "";
    }
  }

  /** What the blocks so far hold. */
  function Held(b: Blocks): string {
    NonSpace(Concat(b.done)) + NonSpace(b.cur)
  }

  lemma NewlineAddsNothing(s: string)
    ensures NonSpace(s + "\n") == NonSpace(s)
  {
    NonSpaceConcat(s, "\n");
    NonSpaceOfSpaces("\n");
  }

  lemma GlueKeepsNonSpace(cur: string, line: string)
    ensures NonSpace((if cur != "" then cur + "\n" else cur) + line) == NonSpace(cur) + NonSpace(line)
  {
    NewlineAddsNothing(cur);
    NonSpaceConcat(if cur != "" then cur + "\n" else cur, line);
  }

  lemma FlushedHolds(b: Blocks)
    ensures Flush(b).cur == "" && Held(Flush(b)) == Held(b)
  {
    FlushKeepsNonSpace(b);
  }

  lemma HeadingHolds(flushed: Blocks, heading: string)
    requires flushed.cur == ""
    ensures Held(flushed.(cur := heading + "\n")) == Held(flushed) + NonSpace(heading)
  {
    NewlineAddsNothing(heading);
  }

  lemma GlueHolds(b: Blocks, line: string)
    ensures Held(b.(cur := (if b.cur != "" then b.cur + "\n" else b.cur) + line)) == Held(b) + NonSpace(line)
  {
    GlueKeepsNonSpace(b.cur, line);
  }

  lemma AddLineKeepsNonSpace(b: Blocks, line: string)
    ensures Held(AddLine(b, line)) == Held(b) + NonSpace(line)
  {
    FlushedHolds(b);
    TrimmingKeepsNonSpace(line);
    HeadingHolds(Flush(b), TrimSpace(line));
    GlueHolds(b, line);
  }

  lemma {:induction false} AddLinesKeepsNonSpace(lines: seq<string>)
    ensures Held(AddLines(lines)) == NonSpace(Concat(lines))
  {
    if lines != [] {
      var n := |lines| - 1;
      AddLinesKeepsNonSpace(lines[..n]);
      AddLineKeepsNonSpace(AddLines(lines[..n]), lines[n]);
      NonSpaceConcat(Concat(lines[..n]), lines[n]);
    }
  }

  lemma {:induction false} JoinKeepsNonSpace(lines: seq<string>)
    ensures NonSpace(Join(lines, "\n")) == NonSpace(Concat(lines))
  {
    if lines != [] {
      var head, tail := lines[0], lines[1..];
      assert lines == [head] + tail;
      ConcatCons(head, tail);
      NonSpaceConcat(head, Concat(tail));
      if tail != [] {
        JoinKeepsNonSpace(tail);
        NewlineAddsNothing(head);
        NonSpaceConcat(head + "\n", Join(tail, "\n"));
      }
    }
  }

  lemma BlocksKeepNonSpace(text: string)
    ensures NonSpace(Concat(SplitBlocks(text))) == NonSpace(text)
  {
    AddLinesKeepsNonSpace(SplitLines(text));
    JoinKeepsNonSpace(SplitLines(text));
    FlushKeepsNonSpace(AddLines(SplitLines(text)));
    JoinSplitLines(text);
  }

  lemma {:induction false} AllPiecesKeepNonSpace(blocks: seq<string>, max: nat)
    requires max > 0
    ensures NonSpace(Concat(AllPieces(blocks, max))) == NonSpace(Concat(blocks))
  {
    if blocks != [] {
      var n := |blocks| - 1;
      var pieces := Pieces(TrimSpace(blocks[n]), max);
      AllPiecesKeepNonSpace(blocks[..n], max);
      ConcatAppend(AllPieces(blocks[..n], max), pieces);
      PiecesConcat(TrimSpace(blocks[n]), max);
      TrimmingKeepsNonSpace(blocks[n]);
      NonSpaceConcat(Concat(AllPieces(blocks[..n], max)), Concat(pieces));
      NonSpaceConcat(Concat(blocks[..n]), blocks[n]);
    }
  }

  function Texts(chunks: seq<Chunk>): (texts: seq<string>)
    ensures |texts| == |chunks|
  {
    seq(|chunks|, i requires 0 <= i < |chunks| => chunks[i].text)
  }

  /** Chunking loses nothing but white space: the other runes of the document are those of the
      chunks, in order. */
  lemma NothingButSpaceIsLost(path: string, text: string, max: int)
    ensures NonSpace(Concat(Texts(Chunks(path, text, max)))) == NonSpace(text)
  {
    assert Texts(Chunks(path, text, max)) == ChunkTexts(text, max);
    AllPiecesKeepNonSpace(SplitBlocks(UnixNewlines(text)), MaxRunes(max));
    BlocksKeepNonSpace(UnixNewlines(text));
    NewlinesKeepNonSpace(text);
  }

  lemma {:induction false} AllPiecesFit(blocks: seq<string>, max: nat)
    requires max > 0
    ensures forall i :: 0 <= i < |AllPieces(blocks, max)| ==> 1 <= |AllPieces(blocks, max)[i]| <= max
  {
    if blocks != [] {
      AllPiecesFit(blocks[..|blocks| - 1], max);
    }
  }

  /** Every chunk has 1 to the maximum number of runes, and they are numbered 1 to n. */
  lemma ChunksFit(path: string, text: string, max: int)
    ensures forall i :: 0 <= i < |Chunks(path, text, max)| ==>
              var c := Chunks(path, text, max)[i];
              && 1 <= |c.text| <= (if max <= 0 then 480 else max)
              && c.id == path + "#" + Decimal(i + 1) && c.path == path
  {
    TextsFit(text, max);
    forall i | 0 <= i < |ChunkTexts(text, max)|
      ensures Chunks(path, text, max)[i] == Chunk(path + "#" + Decimal(i + 1), path, ChunkTexts(text, max)[i])
    {
      NumberedAt(path, ChunkTexts(text, max), i);
    }
  }

  lemma NumberedAt(path: string, texts: seq<string>, i: nat)
    requires i < |texts|
    ensures Numbered(path, texts)[i] == Chunk(path + "#" + Decimal(i + 1), path, texts[i])
  {
  }

  lemma TextsFit(text: string, max: int)
    ensures forall i :: 0 <= i < |ChunkTexts(text, max)| ==> 1 <= |ChunkTexts(text, max)[i]| <= MaxRunes(max)
  {
    AllPiecesFit(SplitBlocks(UnixNewlines(text)), MaxRunes(max));
  }

  // ---- what separates blocks, and what does not ----

  function AddLinesTo(b: Blocks, lines: seq<string>): Blocks {
    if lines == [] then b else AddLine(AddLinesTo(b, lines[..|lines| - 1]), lines[|lines| - 1])
  }

  lemma {:induction false} AddLinesSplit(a: seq<string>, b: seq<string>)
    ensures AddLines(a + b) == AddLinesTo(AddLines(a), b)
  {
    if b == [] {
      assert a + b == a;
    } else {
      assert (a + b)[..|a + b| - 1] == a + b[..|b| - 1];
      AddLinesSplit(a, b[..|b| - 1]);
    }
  }

  function After(done: seq<string>, b: Blocks): Blocks {
    Blocks(done + b.done, b.cur)
  }

  lemma {:induction false} AddLinesAfter(done: seq<string>, b: Blocks, lines: seq<string>)
    ensures AddLinesTo(After(done, b), lines) == After(done, AddLinesTo(b, lines))
  {
    if lines != [] {
      AddLinesAfter(done, b, lines[..|lines| - 1]);
    }
  }

  /** A separator starts over, whatever came before. */
  lemma SeparatorFlushes(b: Blocks, line: string)
    requires IsHeading(line) || TrimSpace(line) == ""
    ensures AddLine(b, line) == After(Flush(b).done, AddLine(Blocks([], ""), line))
  {
    assert Flush(Blocks([], "")) == Blocks([], "");
    assert Flush(b).done + [] == Flush(b).done;
  }

  /** A heading or a blank line separates: the blocks are those of the lines before it and those of
      the rest. */
  lemma SeparatorsSeparate(before: seq<string>, line: string, rest: seq<string>)
    requires IsHeading(line) || TrimSpace(line) == ""
    ensures Flush(AddLines(before + [line] + rest)).done ==
            Flush(AddLines(before)).done + Flush(AddLines([line] + rest)).done
  {
    AddLinesSplit(before + [line], rest);
    AddLinesSplit(before, [line]);
    AddLinesSplit([line], rest);
    assert [line][..0] == [];
    assert AddLinesTo(AddLines(before), [line]) == AddLine(AddLines(before), line);
    assert AddLines([line]) == AddLine(Blocks([], ""), line);
    SeparatorFlushes(AddLines(before), line);
    AddLinesAfter(Flush(AddLines(before)).done, AddLine(Blocks([], ""), line), rest);
  }

  predicate TextLines(lines: seq<string>) {
    forall i :: 0 <= i < |lines| ==> !IsHeading(lines[i]) && TrimSpace(lines[i]) != ""
  }

  lemma AddLinesLast(lines: seq<string>, last: string)
    ensures AddLines(lines + [last]) == AddLine(AddLines(lines), last)
  {
    assert (lines + [last])[..|lines|] == lines;
  }

  /** One more line of text goes on with the block. */
  lemma GlueLine(text: string, line: string)
    requires TrimSpace(text) != "" && !IsHeading(line) && TrimSpace(line) != ""
    ensures AddLine(Blocks([], text), line) == Blocks([], text + "\n" + line)
    ensures TrimSpace(text + "\n" + line) != ""
  {
    assert text + "\n" + line == text + ("\n" + line);
    TrimSpaceGrows(text, "\n" + line);
  }

  /** Lines of text in a row make one block: the lines joined by newlines, trimmed. */
  lemma {:induction false} TextLinesGlue(lines: seq<string>)
    requires lines != [] && TextLines(lines)
    ensures AddLines(lines) == Blocks([], Join(lines, "\n"))
    ensures TrimSpace(Join(lines, "\n")) != ""
  {
    var n := |lines| - 1;
    var init, last := lines[..n], lines[n];
    assert lines == init + [last];
    if n == 0 {
      AddLinesLast([], last);
      assert AddLine(Blocks([], ""), last) == Blocks([], last);
    } else {
      TextLinesGlue(init);
      AddLinesLast(init, last);
      JoinAppend(init, last, "\n");
      GlueLine(Join(init, "\n"), last);
    }
  }

  lemma ParagraphIsOneBlock(lines: seq<string>)
    requires lines != [] && TextLines(lines)
    requires forall i :: 0 <= i < |lines| ==> '\n' !in lines[i]
    ensures SplitBlocks(Join(lines, "\n")) == [TrimSpace(Join(lines, "\n"))]
  {
    SplitJoinedLines(lines);
    TextLinesGlue(lines);
  }

  // ---- headings begin chunks ----

  /** The heading lines, trimmed. */
  function Headings(lines: seq<string>): seq<string> {
    if lines == [] then []
    else
      var line := lines[|lines| - 1];
      Headings(lines[..|lines| - 1]) + if IsHeading(line) then [TrimSpace(line)] else []
  }

  predicate StartsAsHeading(block: string) {
    block != "" && block[0] == '#'
  }

  /** The blocks that start as headings do. */
  function Headed(blocks: seq<string>): seq<string> {
    if blocks == [] then []
    else
      var b := blocks[|blocks| - 1];
      Headed(blocks[..|blocks| - 1]) + if StartsAsHeading(b) then [b] else []
  }

  predicate BeginWith(blocks: seq<string>, heads: seq<string>) {
    |blocks| == |heads| && forall i :: 0 <= i < |heads| ==> heads[i] <= blocks[i]
  }

  /** After any number of lines: the headings begin the blocks that would be there if the current
      one ended now, and a block that has been begun has something in it. */
  predicate HeadsKept(b: Blocks, heads: seq<string>) {
    BeginWith(Headed(Flush(b).done), heads) && (b.cur != "" ==> TrimSpace(b.cur) != "")
  }

  lemma HeadingKeepsHeads(flushed: Blocks, heads: seq<string>, heading: string)
    requires BeginWith(Headed(flushed.done), heads)
    requires StartsAsHeading(heading) && Trimmed(heading)
    ensures HeadsKept(flushed.(cur := heading + "\n"), heads + [heading])
  {
    TrimSpaceAround("", heading, "\n");
    assert "" + heading + "\n" == heading + "\n";
  }

  lemma NextTextLine(b: Blocks, heads: seq<string>, more: string)
    requires HeadsKept(b, heads) && b.cur != ""
    ensures HeadsKept(b.(cur := b.cur + more), heads)
  {
    TrimSpaceGrows(b.cur, more);
    var before, after := TrimSpace(b.cur), TrimSpace(b.cur + more);
    assert before[0] == after[0];
  }

  lemma FirstTextLine(b: Blocks, heads: seq<string>, line: string)
    requires HeadsKept(b, heads) && b.cur == "" && !IsHeading(line) && TrimSpace(line) != ""
    ensures HeadsKept(b.(cur := line), heads)
  {
    assert Flush(b).done == b.done;
    assert (b.done + [TrimSpace(line)])[..|b.done|] == b.done;
  }

  lemma TextKeepsHeads(b: Blocks, heads: seq<string>, line: string)
    requires HeadsKept(b, heads) && !IsHeading(line) && TrimSpace(line) != ""
    ensures HeadsKept(b.(cur := (if b.cur != "" then b.cur + "\n" else b.cur) + line), heads)
  {
    if b.cur == "" {
      assert b.cur + line == line;
      FirstTextLine(b, heads, line);
    } else {
      NextTextLine(b, heads, "\n" + line);
      assert b.cur + "\n" + line == b.cur + ("\n" + line);
    }
  }

  lemma AddLineKeepsHeads(b: Blocks, heads: seq<string>, line: string)
    requires HeadsKept(b, heads)
    ensures HeadsKept(AddLine(b, line), heads + if IsHeading(line) then [TrimSpace(line)] else [])
  {
    if IsHeading(line) {
      TrimSpaceIdempotent(line);
      HeadingKeepsHeads(Flush(b), heads, TrimSpace(line));
    } else {
      assert heads + [] == heads;
      if TrimSpace(line) == "" {
      } else {
        TextKeepsHeads(b, heads, line);
      }
    }
  }

  lemma {:induction false} AddLinesKeepsHeads(lines: seq<string>)
    ensures HeadsKept(AddLines(lines), Headings(lines))
  {
    if lines != [] {
      var n := |lines| - 1;
      AddLinesKeepsHeads(lines[..n]);
      AddLineKeepsHeads(AddLines(lines[..n]), Headings(lines[..n]), lines[n]);
    }
  }

  /** The heading lines and the blocks that start as headings correspond one to one, in order, and
      each heading begins its block. */
  lemma HeadingsBeginBlocks(text: string)
    ensures BeginWith(Headed(SplitBlocks(text)), Headings(SplitLines(text)))
  {
    AddLinesKeepsHeads(SplitLines(text));
  }

  predicate Increasing(at: seq<nat>) {
    forall i, j :: 0 <= i < j < |at| ==> at[i] < at[j]
  }

  /** The heads are the blocks at these positions. */
  ghost predicate HeadsAt(blocks: seq<string>, heads: seq<string>, at: seq<nat>) {
    && |at| == |heads| && Increasing(at)
    && forall i :: 0 <= i < |at| ==> at[i] < |blocks| && blocks[at[i]] == heads[i]
  }

  lemma HeadsAtGrows(blocks: seq<string>, b: string, heads: seq<string>, at: seq<nat>)
    requires HeadsAt(blocks, heads, at)
    ensures HeadsAt(blocks + [b], heads, at) && HeadsAt(blocks + [b], heads + [b], at + [|blocks|])
  {
  }

  lemma {:induction false} HeadedAt(blocks: seq<string>) returns (at: seq<nat>)
    ensures HeadsAt(blocks, Headed(blocks), at)
  {
    if blocks == [] {
      at := [];
    } else {
      var n := |blocks| - 1;
      var init, b := blocks[..n], blocks[n];
      at := HeadedAt(init);
      HeadsAtGrows(init, b, Headed(init), at);
      assert init + [b] == blocks;
      if StartsAsHeading(b) {
        at := at + [n];
      } else {
        assert Headed(blocks) == Headed(init);
      }
    }
  }

  function Clip(s: string, max: nat): string {
    if |s| <= max then s else s[..max]
  }

  lemma FirstPiece(s: string, max: nat)
    requires max > 0 && s != ""
    ensures Pieces(s, max) != [] && Pieces(s, max)[0] == Clip(s, max)
  {
  }

  lemma {:induction false} PiecesBefore(blocks: seq<string>, j: nat, max: nat)
    requires max > 0 && j <= |blocks|
    ensures AllPieces(blocks[..j], max) <= AllPieces(blocks, max)
  {
    if j == |blocks| {
      assert blocks[..j] == blocks;
    } else {
      var init := blocks[..|blocks| - 1];
      assert init[..j] == blocks[..j];
      PiecesBefore(init, j, max);
    }
  }

  lemma AfterPrefix(all: seq<string>, before: seq<string>, next: seq<string>)
    requires before + next <= all && next != []
    ensures |before| < |all| && all[|before|] == next[0]
  {
    assert (before + next)[|before|] == next[0];
  }

  /** The pieces of a block begin where those of the blocks before it end. */
  lemma BlockBeginsChunk(blocks: seq<string>, j: nat, max: nat)
    requires max > 0 && j < |blocks| && TrimSpace(blocks[j]) != ""
    ensures var k := |AllPieces(blocks[..j], max)|;
            k < |AllPieces(blocks, max)| && AllPieces(blocks, max)[k] == Clip(TrimSpace(blocks[j]), max)
  {
    var block := TrimSpace(blocks[j]);
    FirstPiece(block, max);
    AllPiecesNext(blocks, j, max);
    PiecesBefore(blocks, j + 1, max);
    AfterPrefix(AllPieces(blocks, max), AllPieces(blocks[..j], max), Pieces(block, max));
  }

  predicate AllTrimmed(blocks: seq<string>) {
    forall i :: 0 <= i < |blocks| ==> blocks[i] != "" && Trimmed(blocks[i])
  }

  lemma FlushedAreTrimmed(b: Blocks)
    requires AllTrimmed(b.done)
    ensures AllTrimmed(Flush(b).done)
  {
    TrimSpaceIdempotent(b.cur);
  }

  lemma {:induction false} BlocksAreTrimmed(lines: seq<string>)
    ensures AllTrimmed(AddLines(lines).done)
  {
    if lines != [] {
      BlocksAreTrimmed(lines[..|lines| - 1]);
      FlushedAreTrimmed(AddLines(lines[..|lines| - 1]));
    }
  }

  lemma SplitAreTrimmed(text: string)
    ensures AllTrimmed(SplitBlocks(text))
  {
    BlocksAreTrimmed(SplitLines(text));
    FlushedAreTrimmed(AddLines(SplitLines(text)));
  }

  lemma {:induction false} PiecesOfShort(blocks: seq<string>, max: nat)
    requires max > 0 && AllTrimmed(blocks) && forall i :: 0 <= i < |blocks| ==> |blocks[i]| <= max
    ensures AllPieces(blocks, max) == blocks
  {
    if blocks != [] {
      var n := |blocks| - 1;
      PiecesOfShort(blocks[..n], max);
      assert blocks == blocks[..n] + [blocks[n]];
      TrimSpaceFixed(blocks[n]);
    }
  }

  lemma TextsOfChunks(path: string, text: string, max: int)
    ensures Texts(Chunks(path, text, max)) == AllPieces(SplitBlocks(UnixNewlines(text)), if max <= 0 then 480 else max)
  {
  }

  /** Blocks within the maximum are chunks as they are: only longer ones are cut. */
  lemma BlocksThatFitAreChunks(path: string, text: string, max: int)
    requires var limit := if max <= 0 then 480 else max;
             forall i :: 0 <= i < |SplitBlocks(UnixNewlines(text))| ==> |SplitBlocks(UnixNewlines(text))[i]| <= limit
    ensures Texts(Chunks(path, text, max)) == SplitBlocks(UnixNewlines(text))
  {
    SplitAreTrimmed(UnixNewlines(text));
    TextsOfChunks(path, text, max);
    PiecesOfShort(SplitBlocks(UnixNewlines(text)), if max <= 0 then 480 else max);
  }

  /** A later block begins at a later piece. */
  lemma LaterBlockLaterPiece(blocks: seq<string>, i: nat, j: nat, max: nat)
    requires max > 0 && i < j <= |blocks| && TrimSpace(blocks[i]) != ""
    ensures |AllPieces(blocks[..i], max)| < |AllPieces(blocks[..j], max)|
  {
    assert blocks[..j][..i] == blocks[..i];
    BlockBeginsChunk(blocks[..j], i, max);
  }

  lemma HeadsBeginPieces(blocks: seq<string>, heads: seq<string>, max: nat) returns (at: seq<nat>)
    requires max > 0 && BeginWith(Headed(blocks), heads)
    requires AllTrimmed(blocks)
    ensures |at| == |heads| && Increasing(at)
    ensures forall i :: 0 <= i < |at| ==>
              at[i] < |AllPieces(blocks, max)| && Clip(heads[i], max) <= AllPieces(blocks, max)[at[i]]
  {
    var js := HeadedAt(blocks);
    at := seq(|js|, i requires 0 <= i < |js| => |AllPieces(blocks[..js[i]], max)|);
    forall i | 0 <= i < |js|
      ensures TrimSpace(blocks[js[i]]) == blocks[js[i]]
      ensures at[i] < |AllPieces(blocks, max)| && Clip(heads[i], max) <= AllPieces(blocks, max)[at[i]]
    {
      TrimSpaceFixed(blocks[js[i]]);
      BlockBeginsChunk(blocks, js[i], max);
    }
    forall i, j | 0 <= i < j < |js|
      ensures at[i] < at[j]
    {
      LaterBlockLaterPiece(blocks, js[i], js[j], max);
    }
  }

  /** Every heading line begins a chunk of its own, up to the rune budget, and the chunks come in the
      order of the headings. */
  lemma HeadingsBeginChunks(text: string, max: int) returns (at: seq<nat>)
    ensures var heads := Headings(SplitLines(UnixNewlines(text)));
            && |at| == |heads| && Increasing(at)
            && forall i :: 0 <= i < |at| ==>
                 at[i] < |ChunkTexts(text, max)| && Clip(heads[i], MaxRunes(max)) <= ChunkTexts(text, max)[at[i]]
  {
    var unix := UnixNewlines(text);
    HeadingsBeginBlocks(unix);
    SplitAreTrimmed(unix);
    at := HeadsBeginPieces(SplitBlocks(unix), Headings(SplitLines(unix)), MaxRunes(max));
  }
}
