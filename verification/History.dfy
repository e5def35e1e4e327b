/** Splitting a message list into user turns, and dropping the oldest turns under a cap. */
module History {
  import opened Llm

  /** Number of messages before the first user message. */
  function LeadLength(msgs: seq<Message>): (n: nat)
    ensures n <= |msgs|
    ensures forall i :: 0 <= i < n ==> msgs[i].role != User
    ensures n < |msgs| ==> msgs[n].role == User
  {
    if msgs == [] || msgs[0].role == User then 0 else 1 + LeadLength(msgs[1..])
  }

  function Prefix(msgs: seq<Message>): seq<Message> {
    msgs[..LeadLength(msgs)]
  }

  function Body(msgs: seq<Message>): (body: seq<Message>)
    ensures body != [] ==> body[0].role == User
  {
    msgs[LeadLength(msgs)..]
  }

  /** Cuts a list that starts with a user message at every user message. */
  function Turns(body: seq<Message>): seq<seq<Message>>
    requires body != [] ==> body[0].role == User
    decreases |body|
  {
    if body == [] then []
    else
      var n := 1 + LeadLength(body[1..]);
      [body[..n]] + Turns(body[n..])
  }

  function TurnsOf(msgs: seq<Message>): seq<seq<Message>> {
    Turns(Body(msgs))
  }

  function Flatten(turns: seq<seq<Message>>): (msgs: seq<Message>)
    ensures turns != [] && turns[0] != [] ==> msgs != [] && msgs[0] == turns[0][0]
  {
    if turns == [] then [] else turns[0] + Flatten(turns[1..])
  }

  /** countMessages. */
  function Size(turns: seq<seq<Message>>): (n: nat)
    ensures n == |Flatten(turns)|
  {
    |Flatten(turns)|
  }

  predicate AllShaped(turns: seq<seq<Message>>) {
    forall i :: 0 <= i < |turns| ==> TurnShaped(turns[i])
  }

  predicate NoUser(msgs: seq<Message>) {
    forall i :: 0 <= i < |msgs| ==> msgs[i].role != User
  }

  // ---- splitting and joining are inverse ----

  lemma {:induction false} LeadLengthAt(lead: seq<Message>, rest: seq<Message>)
    requires NoUser(lead)
    requires rest != [] ==> rest[0].role == User
    ensures LeadLength(lead + rest) == |lead|
  {
    if lead == [] {
      assert lead + rest == rest;
    } else {
      assert (lead + rest)[1..] == lead[1..] + rest;
      LeadLengthAt(lead[1..], rest);
    }
  }

  lemma TurnsCons(turn: seq<Message>, rest: seq<Message>)
    requires TurnShaped(turn) && (rest != [] ==> rest[0].role == User)
    ensures Turns(turn + rest) == [turn] + Turns(rest)
  {
    var body := turn + rest;
    assert body[1..] == turn[1..] + rest;
    LeadLengthAt(turn[1..], rest);
    assert body[..|turn|] == turn;
    assert body[|turn|..] == rest;
  }

  lemma FlattenCons(turn: seq<Message>, turns: seq<seq<Message>>)
    ensures Flatten([turn] + turns) == turn + Flatten(turns)
  {
    assert ([turn] + turns)[1..] == turns;
  }

  /** The first turn of a body: cut before the next user message. */
  lemma FirstTurn(body: seq<Message>) returns (n: nat)
    requires body != [] && body[0].role == User
    ensures 0 < n <= |body| && TurnShaped(body[..n]) && (n < |body| ==> body[n].role == User)
    ensures body[..n] + body[n..] == body
  {
    n := 1 + LeadLength(body[1..]);
    assert n < |body| ==> body[n] == body[1..][n - 1];
    forall i | 1 <= i < n
      ensures body[i].role != User
    {
      assert body[i] == body[1..][i - 1];
    }
  }

  lemma {:induction false} FlattenTurns(body: seq<Message>)
    requires body != [] ==> body[0].role == User
    ensures Flatten(Turns(body)) == body && AllShaped(Turns(body))
    decreases |body|
  {
    if body != [] {
      var n := FirstTurn(body);
      var turn, rest := body[..n], body[n..];
      FlattenTurns(rest);
      TurnsCons(turn, rest);
      FlattenCons(turn, Turns(rest));
    }
  }

  /** Splitting loses nothing: the prefix and the turns make up the list again. */
  lemma JoinAfterSplit(msgs: seq<Message>)
    ensures Prefix(msgs) + Flatten(TurnsOf(msgs)) == msgs
    ensures NoUser(Prefix(msgs)) && AllShaped(TurnsOf(msgs))
  {
    FlattenTurns(Body(msgs));
  }

  lemma {:induction false} TurnsFlatten(turns: seq<seq<Message>>)
    requires AllShaped(turns)
    ensures Turns(Flatten(turns)) == turns
  {
    if turns != [] {
      var turn, rest := turns[0], turns[1..];
      assert turns == [turn] + rest;
      TurnsFlatten(rest);
      FlattenStartsWithUser(rest);
      TurnsCons(turn, Flatten(rest));
    }
  }

  lemma FlattenStartsWithUser(turns: seq<seq<Message>>)
    requires AllShaped(turns)
    ensures Flatten(turns) != [] ==> Flatten(turns)[0].role == User
  {
  }

  /** Joining loses nothing either: whole turns come back as they were. */
  lemma SplitAfterJoin(prefix: seq<Message>, turns: seq<seq<Message>>)
    requires NoUser(prefix) && AllShaped(turns)
    ensures Prefix(prefix + Flatten(turns)) == prefix
    ensures TurnsOf(prefix + Flatten(turns)) == turns
  {
    LeadLengthAt(prefix, Flatten(turns));
    assert Body(prefix + Flatten(turns)) == Flatten(turns);
    TurnsFlatten(turns);
  }

  lemma Regroup<T>(a: seq<T>, b: seq<T>, c: seq<T>)
    ensures (a + b) + c == a + (b + c)
  {
  }

  lemma DropDrop<T>(s: seq<T>, a: nat, b: nat)
    requires a + b <= |s|
    ensures s[a..][b..] == s[a + b..]
  {
  }

  lemma TakeMore<T>(s: seq<T>, a: nat)
    requires a < |s|
    ensures s[..a] + [s[a]] == s[..a + 1]
  {
  }

  lemma {:induction false} FlattenAppend(a: seq<seq<Message>>, b: seq<seq<Message>>)
    ensures Flatten(a + b) == Flatten(a) + Flatten(b)
  {
    if a == [] {
      assert a + b == b;
    } else {
      assert a + b == [a[0]] + (a[1..] + b);
      FlattenAppend(a[1..], b);
      Regroup(a[0], Flatten(a[1..]), Flatten(b));
    }
  }

  lemma {:induction false} FlattenNoSystem(turns: seq<seq<Message>>)
    requires forall i :: 0 <= i < |turns| ==> NoSystem(turns[i])
    ensures NoSystem(Flatten(turns))
  {
    if turns != [] {
      FlattenNoSystem(turns[1..]);
    }
  }

  lemma TurnAt(msgs: seq<Message>, i: nat, j: nat)
    requires i < j <= |msgs| && msgs[i].role == User
    requires forall k :: i < k < j ==> msgs[k].role != User
    requires j < |msgs| ==> msgs[j].role == User
    ensures Turns(msgs[i..]) == [msgs[i..j]] + Turns(msgs[j..])
  {
    var body := msgs[i..];
    assert body[1..] == msgs[i + 1..j] + msgs[j..];
    LeadLengthAt(msgs[i + 1..j], msgs[j..]);
    assert body[..j - i] == msgs[i..j];
    assert body[j - i..] == msgs[j..];
  }

  /** The inner scan of splitUserTurns. */
  method NextUser(msgs: seq<Message>, start: nat) returns (i: nat)
    requires start <= |msgs|
    ensures start <= i <= |msgs|
    ensures forall k :: start <= k < i ==> msgs[k].role != User
    ensures i < |msgs| ==> msgs[i].role == User
  {
    i := start;
    while i < |msgs| && msgs[i].role != User
      invariant start <= i <= |msgs|
      invariant forall k :: start <= k < i ==> msgs[k].role != User
    {
      i := i + 1;
    }
  }

  /** splitUserTurns. */
  method SplitUserTurns(msgs: seq<Message>) returns (prefix: seq<Message>, turns: seq<seq<Message>>)
    ensures prefix == Prefix(msgs) && turns == TurnsOf(msgs)
  {
    var i := NextUser(msgs, 0);
    prefix := msgs[..i];
    turns := [];
    while i < |msgs|
      invariant 0 <= i <= |msgs|
      invariant i < |msgs| ==> msgs[i].role == User
      invariant turns + Turns(msgs[i..]) == TurnsOf(msgs)
    {
      var j := NextUser(msgs, i + 1);
      TurnAt(msgs, i, j);
      Regroup(turns, [msgs[i..j]], Turns(msgs[j..]));
      turns := turns + [msgs[i..j]];
      i := j;
    }
  }

  // ---- trimByUserTurns ----

  /** The number of oldest turns the trim drops: the least number that lets the rest fit
      beside `lead` other messages, but never the newest turn. */
  function DropCount(lead: nat, turns: seq<seq<Message>>, max: int): (d: nat)
    ensures turns != [] ==> d < |turns|
    ensures turns == [] ==> d == 0
  {
    if |turns| > 1 && lead + Size(turns) > max then 1 + DropCount(lead, turns[1..], max) else 0
  }

  /** DropCount keeps the longest suffix of whole turns that fits, or only the newest turn. */
  lemma {:induction false} DropCountIsLeast(lead: nat, turns: seq<seq<Message>>, max: int)
    requires turns != []
    ensures var d := DropCount(lead, turns, max);
            && (lead + Size(turns[d..]) <= max || d == |turns| - 1)
            && forall e :: 0 <= e < d ==> lead + Size(turns[e..]) > max
  {
    if |turns| > 1 && lead + Size(turns) > max {
      var d := DropCount(lead, turns[1..], max);
      DropCountIsLeast(lead, turns[1..], max);
      assert turns[1..][d..] == turns[1 + d..];
      forall e | 0 <= e < 1 + d
        ensures lead + Size(turns[e..]) > max
      {
        if e == 0 {
          assert turns[0..] == turns;
        } else {
          assert turns[e..] == turns[1..][e - 1..];
        }
      }
    } else {
      assert turns[0..] == turns;
    }
  }

  lemma {:induction false} SizeShrinks(turns: seq<seq<Message>>, d: nat)
    requires d <= |turns|
    ensures Size(turns[d..]) <= Size(turns)
  {
    if d > 0 {
      SizeShrinks(turns[1..], d - 1);
      assert turns[1..][d - 1..] == turns[d..];
    } else {
      assert turns[0..] == turns;
    }
  }

  /** Conversely: the number of dropped turns is fixed by those two facts. */
  lemma DropCountUnique(lead: nat, turns: seq<seq<Message>>, max: int, d: nat)
    requires turns != [] && d < |turns|
    requires lead + Size(turns[d..]) <= max || d == |turns| - 1
    requires forall e :: 0 <= e < d ==> lead + Size(turns[e..]) > max
    ensures d == DropCount(lead, turns, max)
  {
    DropCountIsLeast(lead, turns, max);
  }

  /** Trimming beside a longer prefix goes on from where the first trim stopped. */
  lemma {:induction false} DropCountResumes(lead: nat, more: nat, turns: seq<seq<Message>>, max: int)
    requires lead <= more
    ensures var d := DropCount(lead, turns, max);
            DropCount(more, turns, max) == d + DropCount(more, turns[d..], max)
  {
    if |turns| > 1 && lead + Size(turns) > max {
      DropCountResumes(lead, more, turns[1..], max);
      var d := DropCount(lead, turns[1..], max);
      assert turns[1..][d..] == turns[1 + d..];
    } else {
      assert turns[0..] == turns;
    }
  }

  datatype TrimResult = TrimResult(kept: seq<Message>, dropped: seq<Message>, droppedTurns: nat)

  function Trim(msgs: seq<Message>, max: int): TrimResult {
    var turns := TurnsOf(msgs);
    if max <= 0 || |msgs| <= max || turns == [] then TrimResult(msgs, [], 0)
    else
      var d := DropCount(|Prefix(msgs)|, turns, max);
      TrimResult(Prefix(msgs) + Flatten(turns[d..]), Flatten(turns[..d]), d)
  }

  /** trimByUserTurns: drops turns one by one while the list is over the cap. */
  method TrimByUserTurns(msgs: seq<Message>, max: int)
    returns (out: seq<Message>, dropped: seq<Message>, droppedTurns: nat)
    ensures TrimResult(out, dropped, droppedTurns) == Trim(msgs, max)
  {
    if max <= 0 || |msgs| <= max {
      return msgs, [], 0;
    }
    var prefix, turns := SplitUserTurns(msgs);
    if |turns| == 0 {
      return msgs, [], 0;
    }
    ghost var all := turns;
    var removed := [];
    droppedTurns := 0;
    while |turns| > 1 && |prefix| + Size(turns) > max
      invariant droppedTurns <= |all| && turns == all[droppedTurns..] && turns != []
      invariant removed == all[..droppedTurns]
      invariant DropCount(|prefix|, all, max) == droppedTurns + DropCount(|prefix|, turns, max)
      decreases |turns|
    {
      TakeMore(all, droppedTurns);
      DropDrop(all, droppedTurns, 1);
      removed := removed + [turns[0]];
      turns := turns[1..];
      droppedTurns := droppedTurns + 1;
    }
    dropped := Flatten(removed);
    out := prefix + Flatten(turns);
  }

  lemma TrimShape(msgs: seq<Message>, max: int)
    ensures var t := Trim(msgs, max);
            && t.droppedTurns <= |TurnsOf(msgs)|
            && t.kept == Prefix(msgs) + Flatten(TurnsOf(msgs)[t.droppedTurns..])
            && t.dropped == Flatten(TurnsOf(msgs)[..t.droppedTurns])
  {
    JoinAfterSplit(msgs);
    assert TurnsOf(msgs)[0..] == TurnsOf(msgs);
  }

  /** What the trim keeps splits into the old prefix and a suffix of the old turns: no turn
      is split or reordered, and the newest one stays. */
  lemma TrimKeepsTurns(msgs: seq<Message>, max: int)
    ensures var t := Trim(msgs, max);
            && t.droppedTurns <= |TurnsOf(msgs)|
            && Prefix(t.kept) == Prefix(msgs)
            && TurnsOf(t.kept) == TurnsOf(msgs)[t.droppedTurns..]
            && (TurnsOf(msgs) != [] ==> t.droppedTurns < |TurnsOf(msgs)|)
  {
    TrimShape(msgs, max);
    JoinAfterSplit(msgs);
    var rest := TurnsOf(msgs)[Trim(msgs, max).droppedTurns..];
    assert AllShaped(rest);
    SplitAfterJoin(Prefix(msgs), rest);
  }

  lemma FlattenSplit(turns: seq<seq<Message>>, d: nat)
    requires d <= |turns|
    ensures Flatten(turns[..d]) + Flatten(turns[d..]) == Flatten(turns)
  {
    assert turns[..d] + turns[d..] == turns;
    FlattenAppend(turns[..d], turns[d..]);
  }

  lemma Rejoin(msgs: seq<Message>, t: TrimResult)
    requires t.droppedTurns <= |TurnsOf(msgs)|
    requires t.kept == Prefix(msgs) + Flatten(TurnsOf(msgs)[t.droppedTurns..])
    requires t.dropped == Flatten(TurnsOf(msgs)[..t.droppedTurns])
    ensures Prefix(msgs) <= t.kept
    ensures Prefix(msgs) + (t.dropped + t.kept[|Prefix(msgs)|..]) == msgs
  {
    FlattenSplit(TurnsOf(msgs), t.droppedTurns);
    JoinAfterSplit(msgs);
  }

  /** Nothing is lost: the dropped turns go exactly between the prefix and the kept turns. */
  lemma TrimConserves(msgs: seq<Message>, max: int)
    ensures var t := Trim(msgs, max);
            && Prefix(msgs) <= t.kept
            && Prefix(msgs) + (t.dropped + t.kept[|Prefix(msgs)|..]) == msgs
  {
    TrimShape(msgs, max);
    Rejoin(msgs, Trim(msgs, max));
  }
}
