/** Chat messages, token usage, and the protocol grammar a conversation must keep. */
module Llm {
  datatype Role = System | User | Assistant | Tool

  datatype ToolCall = ToolCall(id: string, kind: string, name: string, arguments: string)

  datatype Message = Message(
    role: Role,
    content: string,
    toolCalls: seq<ToolCall>,
    toolCallId: string,
    name: string)

  function SystemMessage(content: string): Message {
    Message(System, content, [], "", "")
  }

  function UserMessage(content: string): Message {
    Message(User, content, [], "", "")
  }

  /** The reply to one tool call: the result of a tool under the id and name of the call. */
  function ToolMessage(call: ToolCall, content: string): Message {
    Message(Tool, content, [], call.id, call.name)
  }

  datatype Usage = Usage(prompt: int, completion: int, total: int, calls: int) {
    function Add(other: Usage): Usage {
      Usage(prompt + other.prompt, completion + other.completion, total + other.total, calls + other.calls)
    }

    function Normalized(): Usage {
      var counted := calls <= 0 && (prompt > 0 || completion > 0 || total > 0);
      var summed := total == 0 && (prompt > 0 || completion > 0);
      Usage(prompt, completion, if summed then prompt + completion else total, if counted then 1 else calls)
    }
  }

  const NO_USAGE := Usage(0, 0, 0, 0)

  // ---- the grammar ----

  predicate IsCalling(m: Message) {
    m.role == Assistant && m.toolCalls != []
  }

  predicate IsPlainAssistant(m: Message) {
    m.role == Assistant && m.toolCalls == []
  }

  /** The messages answer the calls one for one, in call order, under each call's id and name. */
  predicate Replies(calls: seq<ToolCall>, msgs: seq<Message>) {
    && |msgs| == |calls|
    && forall i :: 0 <= i < |calls| ==>
         && msgs[i].role == Tool
         && msgs[i].toolCallId == calls[i].id
         && msgs[i].name == calls[i].name
  }

  /** Zero or more rounds of an assistant with calls followed by exactly its replies. */
  predicate Rounds(msgs: seq<Message>)
    decreases |msgs|
  {
    msgs == [] ||
    (&& IsCalling(msgs[0])
     && |msgs| > |msgs[0].toolCalls|
     && Replies(msgs[0].toolCalls, msgs[1..1 + |msgs[0].toolCalls|])
     && Rounds(msgs[1 + |msgs[0].toolCalls|..]))
  }

  /** A user turn still waiting for the final answer. */
  predicate OpenTurn(turn: seq<Message>) {
    turn != [] && turn[0].role == User && Rounds(turn[1..])
  }

  /** A finished user turn: user, rounds, and one plain assistant message at the end. */
  predicate ClosedTurn(turn: seq<Message>) {
    |turn| >= 2 && IsPlainAssistant(turn[|turn| - 1]) && OpenTurn(turn[..|turn| - 1])
  }

  /** One user message, first. */
  predicate TurnShaped(turn: seq<Message>) {
    turn != [] && turn[0].role == User && forall i :: 1 <= i < |turn| ==> turn[i].role != User
  }

  /** Only the roles a turn may hold: no system message can hide inside one. */
  predicate NoSystem(msgs: seq<Message>) {
    forall i :: 0 <= i < |msgs| ==> msgs[i].role != System
  }

  lemma {:induction false} RoundsRoles(msgs: seq<Message>)
    requires Rounds(msgs)
    ensures forall i :: 0 <= i < |msgs| ==> msgs[i].role == Tool || IsCalling(msgs[i])
    decreases |msgs|
  {
    if msgs != [] {
      var n := 1 + |msgs[0].toolCalls|;
      RoundsRoles(msgs[n..]);
      forall i | 0 <= i < |msgs|
        ensures msgs[i].role == Tool || IsCalling(msgs[i])
      {
        if 1 <= i < n {
          assert msgs[1..n][i - 1].role == Tool;
        } else if n <= i {
          assert msgs[n..][i - n] == msgs[i];
        }
      }
    }
  }

  lemma RoundsFrom(msgs: seq<Message>, n: nat)
    requires msgs != [] && IsCalling(msgs[0]) && n == 1 + |msgs[0].toolCalls| <= |msgs|
    requires Replies(msgs[0].toolCalls, msgs[1..n]) && Rounds(msgs[n..])
    ensures Rounds(msgs)
  {
  }

  lemma CutConcat<T>(a: seq<T>, b: seq<T>, n: nat)
    requires 1 <= n <= |a|
    ensures (a + b)[0] == a[0] && (a + b)[1..n] == a[1..n] && (a + b)[n..] == a[n..] + b
  {
  }

  lemma {:induction false} RoundsConcat(msgs: seq<Message>, more: seq<Message>)
    requires Rounds(msgs) && Rounds(more)
    ensures Rounds(msgs + more)
    decreases |msgs|
  {
    if msgs == [] {
      assert msgs + more == more;
    } else {
      var n := 1 + |msgs[0].toolCalls|;
      RoundsConcat(msgs[n..], more);
      CutConcat(msgs, more, n);
      RoundsFrom(msgs + more, n);
    }
  }

  lemma RoundAlone(caller: Message, replies: seq<Message>)
    requires IsCalling(caller) && Replies(caller.toolCalls, replies)
    ensures Rounds([caller] + replies)
  {
    var round, n := [caller] + replies, 1 + |caller.toolCalls|;
    assert round[1..n] == replies;
    assert round[n..] == [];
    RoundsFrom(round, n);
  }

  lemma RoundsAppend(msgs: seq<Message>, caller: Message, replies: seq<Message>)
    requires Rounds(msgs) && IsCalling(caller) && Replies(caller.toolCalls, replies)
    ensures Rounds(msgs + [caller] + replies)
  {
    RoundAlone(caller, replies);
    RoundsConcat(msgs, [caller] + replies);
    assert msgs + [caller] + replies == msgs + ([caller] + replies);
  }

  /** An open turn has the shape of a turn, and so has the turn a plain answer closes. */
  lemma TurnShapes(turn: seq<Message>)
    ensures OpenTurn(turn) ==> TurnShaped(turn) && NoSystem(turn)
    ensures ClosedTurn(turn) ==> TurnShaped(turn) && NoSystem(turn)
  {
    if OpenTurn(turn) {
      RoundsRoles(turn[1..]);
      forall i | 1 <= i < |turn|
        ensures turn[i].role != User && turn[i].role != System
      {
        assert turn[i] == turn[1..][i - 1];
      }
    }
    if ClosedTurn(turn) {
      var open := turn[..|turn| - 1];
      RoundsRoles(open[1..]);
      forall i | 1 <= i < |turn| - 1
        ensures turn[i].role != User && turn[i].role != System
      {
        assert turn[i] == open[1..][i - 1];
      }
    }
  }
}
