/** Folding old user turns: the tool trail goes, the question and the final answer stay. */
module Fold {
  import opened Llm
  import opened History
  import opened Wrappers
  import Text

  const DEFAULT_KEEP_RECENT := 1
  const MAX_BIT_RUNES := 40

  function ToolBit(m: Message): string {
    (if m.name == "" then "tool" else m.name) + "\U{2192}" + Text.ClipOneLine(m.content, MAX_BIT_RUNES)
  }

  /** One short note per tool message, in order. */
  function ToolBits(msgs: seq<Message>): seq<string> {
    if msgs == [] then []
    else
      var m := msgs[|msgs| - 1];
      ToolBits(msgs[..|msgs| - 1]) + if m.role == Tool then [ToolBit(m)] else []
  }

  /** The last assistant message without tool calls. */
  function LastPlain(msgs: seq<Message>): Option<Message> {
    if msgs == [] then None
    else
      var m := msgs[|msgs| - 1];
      if IsPlainAssistant(m) then Some(m) else LastPlain(msgs[..|msgs| - 1])
  }

  function Digest(bits: seq<string>): string {
    "[folded tools: " + Text.Join(bits, "; ") + "]"
  }

  function FoldTurn(turn: seq<Message>): seq<Message> {
    if turn == [] || turn[0].role != User then turn
    else
      var bits, last := ToolBits(turn[1..]), LastPlain(turn[1..]);
      if last.Some? then
        var answer := last.value;
        [turn[0],
         if Text.TrimSpace(answer.content) == "" && bits != [] then answer.(content := Digest(bits)) else answer]
      else if bits != [] then
        [turn[0], Message(Assistant, Digest(bits), [], "", "")]
      else [turn[0]]
  }

  lemma ToolBitsNext(turn: seq<Message>, i: nat)
    requires 1 <= i < |turn|
    ensures ToolBits(turn[1..i + 1]) ==
            ToolBits(turn[1..i]) + if turn[i].role == Tool then [ToolBit(turn[i])] else []
  {
    assert turn[1..i + 1][..i - 1] == turn[1..i];
  }

  lemma LastPlainNext(turn: seq<Message>, i: nat)
    requires 1 <= i < |turn|
    ensures LastPlain(turn[1..i + 1]) == if IsPlainAssistant(turn[i]) then Some(turn[i]) else LastPlain(turn[1..i])
  {
    assert turn[1..i + 1][..i - 1] == turn[1..i];
  }

  /** foldOneUserTurn. */
  method FoldOneUserTurn(turn: seq<Message>) returns (out: seq<Message>)
    ensures out == FoldTurn(turn)
  {
    if |turn| == 0 {
      return turn;
    }
    var user := turn[0];
    if user.role != User {
      return turn;
    }
    var finalAsst: Option<Message> := None;
    var toolBits := [];
    var i := 1;
    while i < |turn|
      invariant 1 <= i <= |turn|
      invariant toolBits == ToolBits(turn[1..i])
      invariant finalAsst == LastPlain(turn[1..i])
    {
      var m := turn[i];
      ToolBitsNext(turn, i);
      LastPlainNext(turn, i);
      if m.role == Tool {
        toolBits := toolBits + [ToolBit(m)];
      } else if m.role == Assistant {
        if |m.toolCalls| == 0 {
          finalAsst := Some(m);
        }
      }
      i := i + 1;
    }
    assert turn[1..|turn|] == turn[1..];
    out := [user];
    if finalAsst.Some? {
      var answer := finalAsst.value;
      if Text.TrimSpace(answer.content) == "" && |toolBits| > 0 {
        answer := answer.(content := Digest(toolBits));
      }
      return out + [answer];
    }
    if |toolBits| > 0 {
      out := out + [Message(Assistant, Digest(toolBits), [], "", "")];
    }
  }

  /** A finished turn folds to exactly its user message and a plain answer, which is the old
      answer word for word unless that was blank. */
  lemma FoldClosedTurn(turn: seq<Message>)
    requires ClosedTurn(turn)
    ensures var f, answer := FoldTurn(turn), turn[|turn| - 1];
            && |f| == 2 && ClosedTurn(f) && f[0] == turn[0]
            && f[1].(content := answer.content) == answer
            && (Text.TrimSpace(answer.content) != "" ==> f[1] == answer)
  {
    assert turn[1..][|turn[1..]| - 1] == turn[|turn| - 1];
    assert LastPlain(turn[1..]) == Some(turn[|turn| - 1]);
    var f := FoldTurn(turn);
    assert f[..1][1..] == [];
  }

  /** Folding a folded turn changes nothing. */
  lemma FoldPair(turn: seq<Message>)
    requires ClosedTurn(turn) && |turn| == 2
    ensures FoldTurn(turn) == turn
  {
    assert turn[1..] == [turn[1]];
    assert ToolBits([turn[1]]) == [] by {
      assert [turn[1]][..0] == [];
    }
  }

  // ---- foldOldTurns ----

  /** How many of the newest turns keep their tool trail; None switches folding off. */
  function KeepFull(keepRecent: int): Option<nat> {
    if keepRecent < 0 then None else if keepRecent == 0 then Some(DEFAULT_KEEP_RECENT) else Some(keepRecent)
  }

  function FoldTurns(turns: seq<seq<Message>>, cut: nat): (out: seq<seq<Message>>)
    requires cut <= |turns|
    ensures |out| == |turns|
    ensures forall i :: 0 <= i < |turns| ==> out[i] == if i < cut then FoldTurn(turns[i]) else turns[i]
  {
    seq(|turns|, i requires 0 <= i < |turns| => if i < cut then FoldTurn(turns[i]) else turns[i])
  }

  function FoldOld(msgs: seq<Message>, keepRecent: int): seq<Message> {
    var turns := TurnsOf(msgs);
    if keepRecent < 0 || |turns| <= KeepFull(keepRecent).value then msgs
    else Prefix(msgs) + Flatten(FoldTurns(turns, |turns| - KeepFull(keepRecent).value))
  }

  lemma FoldNone(turns: seq<seq<Message>>)
    ensures FoldTurns(turns, 0) == turns
  {
  }

  lemma FoldOneMore(turns: seq<seq<Message>>, i: nat)
    requires i < |turns|
    ensures FoldTurns(turns, i)[i] == turns[i]
    ensures FoldTurns(turns, i)[i := FoldTurn(turns[i])] == FoldTurns(turns, i + 1)
  {
  }

  /** foldOldTurns: replaces turns[i] in place for all but the newest turns. */
  method FoldOldTurns(msgs: seq<Message>, keepRecent: int) returns (out: seq<Message>)
    ensures out == FoldOld(msgs, keepRecent)
  {
    if keepRecent < 0 {
      return msgs;
    }
    var keep := keepRecent;
    if keep == 0 {
      keep := DEFAULT_KEEP_RECENT;
    }
    var prefix, turns := SplitUserTurns(msgs);
    if |turns| <= keep {
      return msgs;
    }
    ghost var all := turns;
    var cut := |turns| - keep;
    FoldNone(turns);
    var i := 0;
    while i < cut
      invariant 0 <= i <= cut < |all|
      invariant turns == FoldTurns(all, i)
    {
      FoldOneMore(all, i);
      var turn := FoldOneUserTurn(turns[i]);
      turns := turns[i := turn];
      i := i + 1;
    }
    out := prefix + Flatten(turns);
  }

  predicate AllClosed(turns: seq<seq<Message>>) {
    forall i :: 0 <= i < |turns| ==> ClosedTurn(turns[i])
  }

  /** All but the newest `keep` turns are just a question and an answer. */
  predicate Folded(turns: seq<seq<Message>>, keep: nat) {
    forall i :: 0 <= i < |turns| - keep ==> |turns[i]| == 2
  }

  lemma ClosedTurnsAreShaped(turns: seq<seq<Message>>)
    requires AllClosed(turns)
    ensures AllShaped(turns) && NoSystem(Flatten(turns))
  {
    forall i | 0 <= i < |turns|
      ensures TurnShaped(turns[i]) && NoSystem(turns[i])
    {
      TurnShapes(turns[i]);
    }
    FlattenNoSystem(turns);
  }

  lemma FoldTurnsKeepsClosed(turns: seq<seq<Message>>, cut: nat)
    requires cut <= |turns| && AllClosed(turns)
    ensures var out := FoldTurns(turns, cut);
            && AllClosed(out)
            && (forall i :: 0 <= i < cut ==> |out[i]| == 2)
            && (forall i :: 0 <= i < |turns| ==> out[i][0] == turns[i][0])
  {
    var out := FoldTurns(turns, cut);
    forall i | 0 <= i < |turns|
      ensures ClosedTurn(out[i]) && out[i][0] == turns[i][0] && (i < cut ==> |out[i]| == 2)
    {
      FoldClosedTurn(turns[i]);
    }
  }

  /** The turns a fold leaves behind. */
  function FoldedTurns(turns: seq<seq<Message>>, keepRecent: int): seq<seq<Message>> {
    if keepRecent < 0 || |turns| <= KeepFull(keepRecent).value then turns
    else FoldTurns(turns, |turns| - KeepFull(keepRecent).value)
  }

  lemma FoldOldOfTurns(prefix: seq<Message>, turns: seq<seq<Message>>, keepRecent: int)
    requires NoUser(prefix) && AllClosed(turns)
    ensures FoldOld(prefix + Flatten(turns), keepRecent) == prefix + Flatten(FoldedTurns(turns, keepRecent))
  {
    ClosedTurnsAreShaped(turns);
    SplitAfterJoin(prefix, turns);
  }

  /** Folding keeps the grammar, folds every old turn, and leaves the newest turns verbatim. */
  lemma FoldKeepsGrammar(turns: seq<seq<Message>>, keepRecent: int)
    requires AllClosed(turns)
    ensures var out := FoldedTurns(turns, keepRecent);
            && AllClosed(out) && |out| == |turns|
            && (keepRecent >= 0 ==> Folded(out, KeepFull(keepRecent).value))
            && (forall i :: 0 <= i < |turns| ==> out[i][0] == turns[i][0])
            && (turns != [] ==> out[|turns| - 1] == turns[|turns| - 1])
  {
    if keepRecent >= 0 && |turns| > KeepFull(keepRecent).value {
      FoldTurnsKeepsClosed(turns, |turns| - KeepFull(keepRecent).value);
    }
  }

  // ---- what folding leaves, turn by turn ----

  /** The newest keepRecent turns are left alone; all when it is negative, and never none. */
  predicate LeftAlone(keepRecent: int, n: nat, i: int) {
    keepRecent < 0 || i >= n - keepRecent || i == n - 1
  }

  /** These are the positions of the tool messages, in order. */
  predicate ToolsAt(msgs: seq<Message>, at: seq<nat>) {
    && (forall k :: 0 <= k < |at| ==> at[k] < |msgs| && msgs[at[k]].role == Tool)
    && (forall j, k :: 0 <= j < k < |at| ==> at[j] < at[k])
    && (forall i :: 0 <= i < |msgs| && msgs[i].role == Tool ==> i in at)
  }

  /** One note for each of them: its name, or "tool", and its content on one line of 40 runes. */
  predicate NotesAt(msgs: seq<Message>, at: seq<nat>, notes: seq<string>) {
    && |notes| == |at|
    && forall k :: 0 <= k < |at| ==>
         && at[k] < |msgs|
         && notes[k] == (if msgs[at[k]].name == "" then "tool" else msgs[at[k]].name) + "\U{2192}"
                        + Text.ClipOneLine(msgs[at[k]].content, 40)
  }

  ghost predicate TellsTools(msgs: seq<Message>, content: string) {
    exists at: seq<nat>, notes: seq<string> ::
      ToolsAt(msgs, at) && NotesAt(msgs, at, notes) && content == "[folded tools: " + Text.Join(notes, "; ") + "]"
  }

  /** The question and the answer of a finished turn, word for word; only a blank answer of a turn
      that called tools says instead what the tools returned. */
  ghost predicate FoldedPair(turn: seq<Message>, pair: seq<Message>)
    requires turn != []
  {
    var answer := turn[|turn| - 1];
    && |pair| == 2 && pair[0] == turn[0] && pair[1].(content := answer.content) == answer
    && if Text.TrimSpace(answer.content) == "" && exists m :: m in turn && m.role == Tool
       then TellsTools(turn[1..], pair[1].content)
       else pair[1] == answer
  }

  /** Every turn is left alone or folded to such a pair, as keepRecent says. */
  ghost predicate FoldedFrom(turns: seq<seq<Message>>, out: seq<seq<Message>>, keepRecent: int) {
    && |out| == |turns|
    && forall i :: 0 <= i < |turns| ==>
         if LeftAlone(keepRecent, |turns|, i) then out[i] == turns[i]
         else turns[i] != [] && FoldedPair(turns[i], out[i])
  }

  lemma ToolsAtGrows(msgs: seq<Message>, m: Message, at: seq<nat>)
    requires ToolsAt(msgs, at)
    ensures ToolsAt(msgs + [m], if m.role == Tool then at + [|msgs|] else at)
  {
    assert forall i :: i in at + [|msgs|] <==> i in at || i == |msgs|;
  }

  lemma NotesAtGrow(msgs: seq<Message>, m: Message, at: seq<nat>, notes: seq<string>)
    requires NotesAt(msgs, at, notes)
    ensures NotesAt(msgs + [m], at, notes) && NotesAt(msgs + [m], at + [|msgs|], notes + [ToolBit(m)])
  {
  }

  lemma ToolsGrow(msgs: seq<Message>, m: Message, at: seq<nat>, notes: seq<string>)
    requires ToolsAt(msgs, at) && NotesAt(msgs, at, notes)
    ensures m.role != Tool ==> ToolsAt(msgs + [m], at) && NotesAt(msgs + [m], at, notes)
    ensures m.role == Tool ==>
              ToolsAt(msgs + [m], at + [|msgs|]) && NotesAt(msgs + [m], at + [|msgs|], notes + [ToolBit(m)])
  {
    ToolsAtGrows(msgs, m, at);
    NotesAtGrow(msgs, m, at, notes);
  }

  lemma {:induction false} BitsAreNotes(msgs: seq<Message>) returns (at: seq<nat>)
    ensures ToolsAt(msgs, at) && NotesAt(msgs, at, ToolBits(msgs))
  {
    if msgs == [] {
      at := [];
    } else {
      var init, m := msgs[..|msgs| - 1], msgs[|msgs| - 1];
      at := BitsAreNotes(init);
      ToolsGrow(init, m, at, ToolBits(init));
      assert init + [m] == msgs;
      if m.role == Tool {
        at := at + [|init|];
      } else {
        assert ToolBits(msgs) == ToolBits(init);
      }
    }
  }

  lemma ToolInTurn(turn: seq<Message>, at: seq<nat>)
    requires turn != [] && turn[0].role == User && ToolsAt(turn[1..], at)
    ensures at != [] <==> exists m :: m in turn && m.role == Tool
  {
    var tail := turn[1..];
    assert turn == [turn[0]] + tail;
    if at != [] {
      assert tail[at[0]] in turn;
    }
  }

  lemma FoldMakesPair(turn: seq<Message>)
    requires ClosedTurn(turn)
    ensures FoldedPair(turn, FoldTurn(turn))
  {
    var tail, answer := turn[1..], turn[|turn| - 1];
    var at := BitsAreNotes(tail);
    assert tail[|tail| - 1] == answer;
    assert LastPlain(tail) == Some(answer);
    ToolInTurn(turn, at);
    if Text.TrimSpace(answer.content) == "" && at != [] {
      assert TellsTools(tail, Digest(ToolBits(tail)));
    }
  }

  lemma FoldLeaves(turns: seq<seq<Message>>, keepRecent: int)
    requires AllClosed(turns)
    ensures FoldedFrom(turns, FoldedTurns(turns, keepRecent), keepRecent)
  {
    forall i | 0 <= i < |turns| && !LeftAlone(keepRecent, |turns|, i)
      ensures turns[i] != [] && FoldedPair(turns[i], FoldTurn(turns[i]))
    {
      FoldMakesPair(turns[i]);
    }
  }

  /** Folding a conversation of finished turns leaves its prefix, and every turn as said. */
  lemma FoldOldLeaves(prefix: seq<Message>, turns: seq<seq<Message>>, keepRecent: int)
    requires NoUser(prefix) && AllClosed(turns)
    ensures var out := FoldOld(prefix + Flatten(turns), keepRecent);
            Prefix(out) == prefix && FoldedFrom(turns, TurnsOf(out), keepRecent)
  {
    FoldOldOfTurns(prefix, turns, keepRecent);
    FoldLeaves(turns, keepRecent);
    FoldKeepsGrammar(turns, keepRecent);
    ClosedTurnsAreShaped(FoldedTurns(turns, keepRecent));
    SplitAfterJoin(prefix, FoldedTurns(turns, keepRecent));
  }
}
