/** Reassembly of a streamed chat response: content and tool calls arrive in fragments, the
    fragments of different calls interleaved. */
module StreamAssembly {
  import opened Llm
  import opened Wrappers

  datatype CallDelta = CallDelta(index: int, id: string, kind: string, name: string, arguments: string)

  datatype Delta = Delta(role: string, content: string, calls: seq<CallDelta>)

  datatype Counts = Counts(prompt: int, completion: int, total: int)

  datatype Chunk = Chunk(choices: seq<Delta>, usage: Option<Counts>)

  /** `deltas` are the texts handed to the caller as they came. */
  datatype Acc = Acc(role: string, content: string, tools: map<int, ToolCall>, usage: Usage, deltas: seq<string>)

  const NOTHING_YET := Acc("", "", map[], NO_USAGE, [])

  // ---- apply ----

  const NEW_CALL := ToolCall("", "function", "", "")

  /** Non-empty parts replace what is there; argument text is appended. */
  function Updated(cur: ToolCall, d: CallDelta): ToolCall {
    ToolCall(
      if d.id != "" then d.id else cur.id,
      if d.kind != "" then d.kind else cur.kind,
      if d.name != "" then d.name else cur.name,
      cur.arguments + d.arguments)
  }

  function ApplyCall(tools: map<int, ToolCall>, d: CallDelta): map<int, ToolCall> {
    tools[d.index := Updated(if d.index in tools then tools[d.index] else NEW_CALL, d)]
  }

  function ApplyCalls(tools: map<int, ToolCall>, ds: seq<CallDelta>): map<int, ToolCall> {
    if ds == [] then tools else ApplyCall(ApplyCalls(tools, ds[..|ds| - 1]), ds[|ds| - 1])
  }

  function UsageOf(c: Counts): Usage {
    Usage(c.prompt, c.completion,
          if c.total == 0 && (c.prompt > 0 || c.completion > 0) then c.prompt + c.completion else c.total, 1)
  }

  /** Only the first choice is read. */
  function First(chunk: Chunk): Delta {
    if chunk.choices == [] then Delta("", "", []) else chunk.choices[0]
  }

  function Apply(a: Acc, chunk: Chunk): Acc {
    var d := First(chunk);
    Acc(if d.role != "" then d.role else a.role,
        a.content + d.content,
        ApplyCalls(a.tools, d.calls),
        if chunk.usage.Some? then UsageOf(chunk.usage.value) else a.usage,
        if d.content != "" then a.deltas + [d.content] else a.deltas)
  }

  function ApplyAll(a: Acc, chunks: seq<Chunk>): Acc {
    if chunks == [] then a else Apply(ApplyAll(a, chunks[..|chunks| - 1]), chunks[|chunks| - 1])
  }

  // ---- message ----

  datatype Assembled = Assembled(role: string, content: string, calls: seq<ToolCall>)

  function Kinded(call: ToolCall): ToolCall {
    if call.kind == "" then call.(kind := "function") else call
  }

  /** The calls with an index in 0 .. n, in index order. */
  function CallsBelow(tools: map<int, ToolCall>, n: nat): seq<ToolCall> {
    if n == 0 then []
    else CallsBelow(tools, n - 1) + if n - 1 in tools then [Kinded(tools[n - 1])] else []
  }

  predicate Bounded(tools: map<int, ToolCall>, n: nat) {
    forall i :: i in tools ==> i < n
  }

  lemma {:induction false} SameAboveBound(tools: map<int, ToolCall>, m: nat, n: nat)
    requires Bounded(tools, m) && m <= n
    ensures CallsBelow(tools, n) == CallsBelow(tools, m)
  {
    if m < n {
      SameAboveBound(tools, m, n - 1);
    }
  }

  lemma HasElement(keys: set<int>)
    ensures keys == {} || exists i :: i in keys
  {
    if forall i :: i !in keys {
      assert keys == {};
    }
  }

  ghost function Bound(keys: set<int>): (n: nat)
    ensures forall i :: i in keys ==> i < n
  {
    if keys == {} then 0
    else
      assert exists i :: i in keys by { HasElement(keys); }
      var i :| i in keys;
      var n := Bound(keys - {i});
      assert forall j :: j in keys ==> j == i || j in keys - {i};
      if i < n then n else i + 1
  }

  ghost function MessageOf(a: Acc): Assembled {
    Assembled(if a.role == "" then "assistant" else a.role, a.content, CallsBelow(a.tools, Bound(a.tools.Keys)))
  }

  /** The accumulator of a stream, its fields updated chunk by chunk. */
  class StreamAcc {
    var role: string
    var content: string
    var tools: map<int, ToolCall>
    var usage: Usage
    var deltas: seq<string>

    function View(): Acc
      reads this
    {
      Acc(role, content, tools, usage, deltas)
    }

    constructor ()
      ensures View() == NOTHING_YET
    {
      role, content, tools, usage, deltas := "", "", map[], NO_USAGE, [];
    }

    method ApplyChunk(chunk: Chunk)
      modifies this
      ensures View() == Apply(old(View()), chunk)
    {
      if chunk.usage.Some? {
        var u := chunk.usage.value;
        usage := Usage(u.prompt, u.completion, u.total, 1);
        if usage.total == 0 && (usage.prompt > 0 || usage.completion > 0) {
          usage := usage.(total := usage.prompt + usage.completion);
        }
      }
      if chunk.choices == [] {
        return;
      }
      var d := chunk.choices[0];
      if d.role != "" {
        role := d.role;
      }
      if d.content != "" {
        content := content + d.content;
        deltas := deltas + [d.content];
      }
      AddCalls(d.calls);
    }

    method AddCalls(calls: seq<CallDelta>)
      modifies `tools
      ensures tools == ApplyCalls(old(tools), calls)
    {
      for i := 0 to |calls|
        invariant tools == ApplyCalls(old(tools), calls[..i])
      {
        assert calls[..i + 1][..i] == calls[..i];
        AddCall(calls[i]);
      }
      assert calls[..|calls|] == calls;
    }

    method AddCall(tc: CallDelta)
      modifies `tools
      ensures tools == ApplyCall(old(tools), tc)
    {
      var cur := if tc.index in tools then tools[tc.index] else ToolCall("", "function", "", "");
      if tc.id != "" {
        cur := cur.(id := tc.id);
      }
      if tc.kind != "" {
        cur := cur.(kind := tc.kind);
      }
      if tc.name != "" {
        cur := cur.(name := tc.name);
      }
      if tc.arguments != "" {
        cur := cur.(arguments := cur.arguments + tc.arguments);
      } else {
        assert cur.arguments + tc.arguments == cur.arguments;
      }
      tools := tools[tc.index := cur];
    }

    method Message() returns (msg: Assembled)
      ensures msg == MessageOf(View())
    {
      msg := Assembled(if role == "" then "assistant" else role, content, []);
      var max := MaxIndex();
      var calls := [];
      for i := 0 to max + 1
        invariant calls == CallsBelow(tools, i)
      {
        if i in tools {
          var tc := tools[i];
          if tc.kind == "" {
            tc := tc.(kind := "function");
          }
          calls := calls + [tc];
        }
      }
      var b := Bound(tools.Keys);
      SameAboveBound(tools, if b < max + 1 then b else max + 1, if b < max + 1 then max + 1 else b);
      msg := msg.(calls := calls);
    }

    method MaxIndex() returns (max: int)
      ensures max >= -1 && Bounded(tools, max + 1)
    {
      max := -1;
      var rest := tools.Keys;
      while rest != {}
        invariant max >= -1 && forall i :: i in tools && i !in rest ==> i <= max
        decreases |rest|
      {
        HasElement(rest);
        var i :| i in rest;
        rest := rest - {i};
        if i > max {
          max := i;
        }
      }
    }
  }

  /** A whole stream of chunks. */
  method AssembleStream(chunks: seq<Chunk>) returns (msg: Assembled, usage: Usage, deltas: seq<string>)
    ensures var a := ApplyAll(NOTHING_YET, chunks);
            msg == MessageOf(a) && usage == a.usage && deltas == a.deltas
  {
    var acc := new StreamAcc();
    for i := 0 to |chunks|
      invariant fresh(acc) && acc.View() == ApplyAll(NOTHING_YET, chunks[..i])
    {
      assert chunks[..i + 1][..i] == chunks[..i];
      acc.ApplyChunk(chunks[i]);
    }
    assert chunks[..|chunks|] == chunks;
    msg := acc.Message();
    usage, deltas := acc.usage, acc.deltas;
  }

  // ---- each call depends only on its own fragments ----

  /** The call fragments of a stream, in order of arrival: those of each chunk's first choice. */
  function CallDeltas(chunks: seq<Chunk>): seq<CallDelta> {
    if chunks == [] then []
    else
      var choices := chunks[|chunks| - 1].choices;
      CallDeltas(chunks[..|chunks| - 1]) + if choices == [] then [] else choices[0].calls
  }

  function Contents(chunks: seq<Chunk>): string {
    if chunks == [] then ""
    else
      var choices := chunks[|chunks| - 1].choices;
      Contents(chunks[..|chunks| - 1]) + if choices == [] then "" else choices[0].content
  }

  function Concat(parts: seq<string>): string {
    if parts == [] then "" else Concat(parts[..|parts| - 1]) + parts[|parts| - 1]
  }

  /** The fragments of one call. */
  function Of(ds: seq<CallDelta>, index: int): seq<CallDelta> {
    if ds == [] then []
    else Of(ds[..|ds| - 1], index) + if ds[|ds| - 1].index == index then [ds[|ds| - 1]] else []
  }

  /** A call put together from its fragments. */
  function Assemble(ds: seq<CallDelta>): ToolCall {
    if ds == [] then NEW_CALL else Updated(Assemble(ds[..|ds| - 1]), ds[|ds| - 1])
  }

  lemma {:induction false} ApplyCallsConcat(tools: map<int, ToolCall>, a: seq<CallDelta>, b: seq<CallDelta>)
    ensures ApplyCalls(tools, a + b) == ApplyCalls(ApplyCalls(tools, a), b)
  {
    if b == [] {
      assert a + b == a;
    } else {
      assert (a + b)[..|a + b| - 1] == a + b[..|b| - 1];
      ApplyCallsConcat(tools, a, b[..|b| - 1]);
    }
  }

  /** A stream leaves its content, and the calls of its fragments; the texts handed on as they
      came make up the same content. */
  lemma {:induction false} StreamLeaves(chunks: seq<Chunk>)
    ensures var a := ApplyAll(NOTHING_YET, chunks);
            && a.content == Contents(chunks) == Concat(a.deltas)
            && a.tools == ApplyCalls(map[], CallDeltas(chunks))
  {
    if chunks != [] {
      var n := |chunks| - 1;
      StreamLeaves(chunks[..n]);
      ApplyCallsConcat(map[], CallDeltas(chunks[..n]), First(chunks[n]).calls);
      var before, d := ApplyAll(NOTHING_YET, chunks[..n]), First(chunks[n]);
      if d.content != "" {
        assert (before.deltas + [d.content])[..|before.deltas|] == before.deltas;
      } else {
        assert before.content + d.content == before.content;
      }
    }
  }

  predicate NoUsageAfter(chunks: seq<Chunk>, k: nat) {
    forall l :: k < l < |chunks| ==> chunks[l].usage.None?
  }

  lemma UsageOfLast(chunks: seq<Chunk>)
    requires chunks != []
    ensures var last := chunks[|chunks| - 1];
            ApplyAll(NOTHING_YET, chunks).usage ==
            if last.usage.Some? then UsageOf(last.usage.value) else ApplyAll(NOTHING_YET, chunks[..|chunks| - 1]).usage
  {
  }

  lemma {:induction false} UsageStays(chunks: seq<Chunk>, k: nat)
    requires k < |chunks| && NoUsageAfter(chunks, k)
    ensures ApplyAll(NOTHING_YET, chunks).usage == ApplyAll(NOTHING_YET, chunks[..k + 1]).usage
  {
    var n := |chunks| - 1;
    if k < n {
      UsageOfLast(chunks);
      UsageStays(chunks[..n], k);
      assert chunks[..n][..k + 1] == chunks[..k + 1];
    } else {
      assert chunks[..k + 1] == chunks;
    }
  }

  /** The usage is that of the last chunk that has any, as one Chat call, with a missing total
      filled in. */
  lemma LastUsageCounts(chunks: seq<Chunk>, k: nat)
    requires k < |chunks| && chunks[k].usage.Some? && NoUsageAfter(chunks, k)
    ensures var usage, u := ApplyAll(NOTHING_YET, chunks).usage, chunks[k].usage.value;
            && usage.calls == 1 && usage.prompt == u.prompt && usage.completion == u.completion
            && (u.total != 0 ==> usage.total == u.total)
            && (u.total == 0 && u.prompt >= 0 && u.completion >= 0 ==> usage.total == u.prompt + u.completion)
  {
    UsageStays(chunks, k);
    UsageOfLast(chunks[..k + 1]);
  }

  /** The call at an index is assembled from the fragments with that index, and from no other. */
  lemma {:induction false} CallFromFragments(ds: seq<CallDelta>, index: int)
    ensures var tools := ApplyCalls(map[], ds);
            && (index in tools <==> Of(ds, index) != [])
            && (index in tools ==> tools[index] == Assemble(Of(ds, index)))
  {
    if ds != [] {
      var n := |ds| - 1;
      CallFromFragments(ds[..n], index);
      if ds[n].index == index {
        assert Of(ds, index)[..|Of(ds, index)| - 1] == Of(ds[..n], index);
      } else {
        assert Of(ds, index) == Of(ds[..n], index);
      }
    }
  }

  /** Streams with the same content and, call by call, the same fragments in the same order give
      the same message, however the fragments are interleaved and cut into chunks. */
  lemma InterleavingDoesNotMatter(a: seq<Chunk>, b: seq<Chunk>)
    requires Contents(a) == Contents(b)
    requires forall i :: Of(CallDeltas(a), i) == Of(CallDeltas(b), i)
    ensures MessageOf(ApplyAll(NOTHING_YET, a)).content == MessageOf(ApplyAll(NOTHING_YET, b)).content
    ensures MessageOf(ApplyAll(NOTHING_YET, a)).calls == MessageOf(ApplyAll(NOTHING_YET, b)).calls
  {
    StreamLeaves(a);
    StreamLeaves(b);
    SameCalls(CallDeltas(a), CallDeltas(b));
  }

  lemma SameCalls(a: seq<CallDelta>, b: seq<CallDelta>)
    requires forall i :: Of(a, i) == Of(b, i)
    ensures ApplyCalls(map[], a) == ApplyCalls(map[], b)
  {
    var s, t := ApplyCalls(map[], a), ApplyCalls(map[], b);
    forall i
      ensures (i in s <==> i in t) && (i in s ==> s[i] == t[i])
    {
      CallFromFragments(a, i);
      CallFromFragments(b, i);
    }
  }

  // ---- the role ----

  /** The role a chunk brings, or none. */
  predicate BringsRole(chunk: Chunk, role: string) {
    chunk.choices != [] && chunk.choices[0].role == role != ""
  }

  lemma {:induction false} LastRole(chunks: seq<Chunk>) returns (k: int)
    ensures -1 <= k < |chunks|
    ensures forall l, role :: k < l < |chunks| ==> !BringsRole(chunks[l], role)
    ensures var role := ApplyAll(NOTHING_YET, chunks).role;
            if k < 0 then role == "" else BringsRole(chunks[k], role)
  {
    k := -1;
    if chunks != [] {
      var n := |chunks| - 1;
      k := LastRole(chunks[..n]);
      assert forall l :: 0 <= l < n ==> chunks[..n][l] == chunks[l];
      if chunks[n].choices != [] && chunks[n].choices[0].role != "" {
        k := n;
      }
    }
  }

  /** The message has the role that came last, and is the assistant's if none came. */
  lemma LastRoleCounts(chunks: seq<Chunk>) returns (k: int)
    ensures -1 <= k < |chunks|
    ensures forall l, role :: k < l < |chunks| ==> !BringsRole(chunks[l], role)
    ensures var role := MessageOf(ApplyAll(NOTHING_YET, chunks)).role;
            if k < 0 then role == "assistant" else BringsRole(chunks[k], role)
  {
    k := LastRole(chunks);
  }

  // ---- reassembly ----

  function Arguments(ds: seq<CallDelta>): seq<string> {
    seq(|ds|, i requires 0 <= i < |ds| => ds[i].arguments)
  }

  predicate AgreesWith(d: CallDelta, call: ToolCall) {
    (d.id == "" || d.id == call.id) && (d.kind == "" || d.kind == call.kind) && (d.name == "" || d.name == call.name)
  }

  /** The fragments spell out the call: its argument text in order, and every other part at least
      once unless it is the default. */
  predicate Spells(ds: seq<CallDelta>, call: ToolCall) {
    && ds != []
    && Concat(Arguments(ds)) == call.arguments
    && (forall k :: 0 <= k < |ds| ==> AgreesWith(ds[k], call))
    && (call.id == "" || exists k :: 0 <= k < |ds| && ds[k].id == call.id)
    && (call.kind == "function" || exists k :: 0 <= k < |ds| && ds[k].kind == call.kind != "")
    && (call.name == "" || exists k :: 0 <= k < |ds| && ds[k].name == call.name)
  }

  /** The last non-empty value of a part. */
  function LastSet(part: CallDelta -> string, ds: seq<CallDelta>, default: string): string {
    if ds == [] then default
    else if part(ds[|ds| - 1]) != "" then part(ds[|ds| - 1])
    else LastSet(part, ds[..|ds| - 1], default)
  }

  function IdPart(d: CallDelta): string { d.id }

  function KindPart(d: CallDelta): string { d.kind }

  function NamePart(d: CallDelta): string { d.name }

  lemma {:induction false} AssembleParts(ds: seq<CallDelta>)
    ensures Assemble(ds) ==
            ToolCall(LastSet(IdPart, ds, ""), LastSet(KindPart, ds, "function"), LastSet(NamePart, ds, ""),
                     Concat(Arguments(ds)))
  {
    if ds != [] {
      AssembleParts(ds[..|ds| - 1]);
      assert Arguments(ds)[..|ds| - 1] == Arguments(ds[..|ds| - 1]);
    }
  }

  lemma {:induction false} OnlyValue(part: CallDelta -> string, ds: seq<CallDelta>, value: string, default: string)
    requires forall k :: 0 <= k < |ds| ==> part(ds[k]) == "" || part(ds[k]) == value
    requires value == default || exists k :: 0 <= k < |ds| && part(ds[k]) == value != ""
    ensures LastSet(part, ds, default) == value
  {
    if ds != [] && part(ds[|ds| - 1]) == "" {
      OnlyValue(part, ds[..|ds| - 1], value, default);
    }
  }

  lemma SpelledCall(ds: seq<CallDelta>, call: ToolCall)
    requires Spells(ds, call)
    ensures Assemble(ds) == call
  {
    AssembleParts(ds);
    OnlyValue(IdPart, ds, call.id, "");
    OnlyValue(KindPart, ds, call.kind, "function");
    OnlyValue(NamePart, ds, call.name, "");
  }

  lemma CallsInOrder(calls: map<int, ToolCall>, n: nat) returns (ix: seq<int>)
    requires forall i :: i in calls ==> 0 <= i < n && calls[i].kind != ""
    ensures forall j, k :: 0 <= j < k < |ix| ==> ix[j] < ix[k]
    ensures forall i :: i in ix <==> i in calls
    ensures |CallsBelow(calls, n)| == |ix| == |calls|
    ensures forall k :: 0 <= k < |ix| ==> ix[k] in calls && CallsBelow(calls, n)[k] == calls[ix[k]]
  {
    ix := CallsAscend(calls, n);
    assert forall k :: 0 <= k < |ix| ==> ix[k] in ix;
    AscendingCount(ix, calls.Keys);
  }

  /** Any stream that spells out the content and, index by index, the calls of a message is
      reassembled to that message: its calls word for word, in ascending order of index. */
  lemma Reassembles(chunks: seq<Chunk>, content: string, calls: map<int, ToolCall>) returns (ix: seq<int>)
    requires Contents(chunks) == content
    requires forall i :: i in calls ==> 0 <= i && Spells(Of(CallDeltas(chunks), i), calls[i]) && calls[i].kind != ""
    requires forall i :: i !in calls ==> Of(CallDeltas(chunks), i) == []
    ensures forall j, k :: 0 <= j < k < |ix| ==> ix[j] < ix[k]
    ensures forall i :: i in ix <==> i in calls
    ensures var msg := MessageOf(ApplyAll(NOTHING_YET, chunks));
            && msg.content == content && |msg.calls| == |ix| == |calls|
            && forall k :: 0 <= k < |ix| ==> ix[k] in calls && msg.calls[k] == calls[ix[k]]
    ensures Concat(ApplyAll(NOTHING_YET, chunks).deltas) == content
  {
    StreamLeaves(chunks);
    CallsSpelled(CallDeltas(chunks), calls);
    ix := CallsInOrder(calls, Bound(calls.Keys));
  }

  lemma CallsSpelled(ds: seq<CallDelta>, calls: map<int, ToolCall>)
    requires forall i :: i in calls ==> Spells(Of(ds, i), calls[i]) && calls[i].kind != ""
    requires forall i :: i !in calls ==> Of(ds, i) == []
    ensures ApplyCalls(map[], ds) == calls
  {
    var tools := ApplyCalls(map[], ds);
    forall i
      ensures (i in tools <==> i in calls) && (i in tools ==> tools[i] == calls[i])
    {
      CallFromFragments(ds, i);
      if i in calls {
        SpelledCall(Of(ds, i), calls[i]);
      }
    }
  }

  // ---- the order of the calls, and negative indexes ----

  /** The calls of the message are those with a non-negative index, in strictly ascending order, each
      with the id, the name and the arguments assembled for it; a missing kind is "function". */
  lemma {:induction false} CallsAscend(tools: map<int, ToolCall>, n: nat) returns (ix: seq<int>)
    ensures forall i :: i in ix <==> i in tools && 0 <= i < n
    ensures forall j, k :: 0 <= j < k < |ix| ==> ix[j] < ix[k]
    ensures |CallsBelow(tools, n)| == |ix|
    ensures forall k :: 0 <= k < |ix| ==>
              var call, tool := CallsBelow(tools, n)[k], tools[ix[k]];
              && call.id == tool.id && call.name == tool.name && call.arguments == tool.arguments
              && call.kind == if tool.kind == "" then "function" else tool.kind
  {
    ix := [];
    if n > 0 {
      ix := CallsAscend(tools, n - 1);
      if n - 1 in tools {
        assert forall k :: 0 <= k < |ix| ==> ix[k] in ix;
        assert forall i :: i in ix + [n - 1] <==> i in ix || i == n - 1;
        ix := ix + [n - 1];
      }
    }
  }

  lemma {:induction false} AscendingCount(ix: seq<int>, keys: set<int>)
    requires forall k :: 0 <= k < |ix| ==> ix[k] in keys
    requires forall j, k :: 0 <= j < k < |ix| ==> ix[j] < ix[k]
    ensures |ix| <= |keys|
    ensures |ix| == |keys| <==> forall i :: i in keys ==> i in ix
  {
    if ix == [] {
      if keys != {} {
        HasElement(keys);
      }
    } else {
      var n := |ix| - 1;
      AscendingCount(ix[..n], keys - {ix[n]});
      assert ix == ix[..n] + [ix[n]];
      assert ix[n] !in ix[..n];
    }
  }

  lemma KeptIff(tools: map<int, ToolCall>, n: nat)
    requires Bounded(tools, n)
    ensures |CallsBelow(tools, n)| == |tools.Keys| <==> forall i :: i in tools ==> i >= 0
  {
    var ix := CallsAscend(tools, n);
    AscendingCount(ix, tools.Keys);
  }

  /** No call is lost exactly when no fragment came with a negative index. */
  lemma NoCallLostIff(chunks: seq<Chunk>)
    ensures var a := ApplyAll(NOTHING_YET, chunks);
            |MessageOf(a).calls| == |a.tools.Keys| <==>
            forall k :: 0 <= k < |CallDeltas(chunks)| ==> CallDeltas(chunks)[k].index >= 0
  {
    StreamLeaves(chunks);
    var tools := ApplyAll(NOTHING_YET, chunks).tools;
    KeptIff(tools, Bound(tools.Keys));
    IndexesOf(CallDeltas(chunks));
  }

  lemma {:induction false} IndexesOf(ds: seq<CallDelta>)
    ensures (forall i :: i in ApplyCalls(map[], ds) ==> i >= 0) <==> (forall k :: 0 <= k < |ds| ==> ds[k].index >= 0)
  {
    if ds != [] {
      var n := |ds| - 1;
      IndexesOf(ds[..n]);
      assert ApplyCalls(map[], ds).Keys == ApplyCalls(map[], ds[..n]).Keys + {ds[n].index};
      assert forall k :: 0 <= k < n ==> ds[k] == ds[..n][k];
    }
  }
}
