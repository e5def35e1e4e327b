/** Lists of texts that are distinct under a key (case folding, trimming), and lists of
    that kind that roll under a bound. Summary bullets and profile fields are both of this
    kind. A text with the empty key is never listed. */
module Distinct {

  predicate Listed(key: string -> string, xs: seq<string>, x: string) {
    exists i :: 0 <= i < |xs| && key(xs[i]) == key(x)
  }

  predicate PairwiseDistinct(key: string -> string, xs: seq<string>) {
    forall i, j :: 0 <= i < j < |xs| ==> key(xs[i]) != key(xs[j])
  }

  /** Keeps the first mention of every key. */
  function Dedupe(key: string -> string, xs: seq<string>): (out: seq<string>)
    ensures |out| <= |xs|
  {
    if xs == [] then []
    else
      var out := Dedupe(key, xs[..|xs| - 1]);
      var x := xs[|xs| - 1];
      if key(x) == "" || Listed(key, out, x) then out else out + [x]
  }

  /** dedupeBullets: one pass with the set of keys seen so far. */
  method DedupeInOnePass(key: string -> string, xs: seq<string>) returns (out: seq<string>)
    ensures out == Dedupe(key, xs)
  {
    var seen: set<string> := {};
    out := [];
    for i := 0 to |xs|
      invariant out == Dedupe(key, xs[..i])
      invariant forall k :: 0 <= k < |out| ==> key(out[k]) in seen
      invariant forall s :: s in seen ==> exists k :: 0 <= k < |out| && key(out[k]) == s
    {
      assert xs[..i + 1][..i] == xs[..i];
      var k := key(xs[i]);
      ghost var before := out;
      if k != "" && k !in seen {
        assert !Listed(key, out, xs[i]);
        seen := seen + {k};
        out := out + [xs[i]];
        assert forall j :: 0 <= j < |before| ==> out[j] == before[j];
        assert key(out[|before|]) == k;
      }
    }
    assert xs[..|xs|] == xs;
  }

  /** Applies f to every element and keeps the results that are not empty. */
  function Collect<T>(f: T -> string, xs: seq<T>): seq<string> {
    if xs == [] then []
    else
      var t := f(xs[|xs| - 1]);
      Collect(f, xs[..|xs| - 1]) + if t != "" then [t] else []
  }

  method CollectInOnePass<T>(f: T -> string, xs: seq<T>) returns (out: seq<string>)
    ensures out == Collect(f, xs)
  {
    out := [];
    for i := 0 to |xs|
      invariant out == Collect(f, xs[..i])
    {
      assert xs[..i + 1][..i] == xs[..i];
      var t := f(xs[i]);
      if t != "" {
        out := out + [t];
      }
    }
    assert xs[..|xs|] == xs;
  }

  lemma {:induction false} CollectConcat<T>(f: T -> string, a: seq<T>, b: seq<T>)
    ensures Collect(f, a + b) == Collect(f, a) + Collect(f, b)
  {
    if b == [] {
      assert a + b == a;
    } else {
      assert (a + b)[..|a + b| - 1] == a + b[..|b| - 1];
      CollectConcat(f, a, b[..|b| - 1]);
    }
  }

  lemma {:induction false} CollectHolds<T>(f: T -> string, xs: seq<T>, good: string -> bool)
    requires forall i :: 0 <= i < |xs| ==> f(xs[i]) == "" || good(f(xs[i]))
    ensures forall i :: 0 <= i < |Collect(f, xs)| ==> good(Collect(f, xs)[i])
  {
    if xs != [] {
      CollectHolds(f, xs[..|xs| - 1], good);
    }
  }

  function LastN(xs: seq<string>, n: nat): (out: seq<string>)
    ensures |out| <= n && |out| <= |xs|
  {
    if |xs| > n then xs[|xs| - n..] else xs
  }

  /** Position i holds the first mention of its key. */
  predicate FirstMention(key: string -> string, xs: seq<string>, i: nat)
    requires i < |xs|
  {
    key(xs[i]) != "" && forall j :: 0 <= j < i ==> key(xs[j]) != key(xs[i])
  }

  /** The last element is a first mention exactly when its key is not listed yet. */
  lemma NewMention(key: string -> string, xs: seq<string>)
    requires xs != []
    ensures var n := |xs| - 1;
            FirstMention(key, xs, n) <==> key(xs[n]) != "" && !Listed(key, Dedupe(key, xs[..n]), xs[n])
  {
    var n := |xs| - 1;
    if key(xs[n]) != "" {
      ListedIffMentioned(key, xs[..n], xs[n]);
    }
  }

  /** `out` lists exactly the first mentions of xs, in order: `at` gives their positions. */
  ghost predicate Mentions(key: string -> string, xs: seq<string>, out: seq<string>, at: seq<nat>) {
    && |at| == |out|
    && (forall k :: 0 <= k < |at| ==> at[k] < |xs| && out[k] == xs[at[k]])
    && (forall k, l :: 0 <= k < l < |at| ==> at[k] < at[l])
    && (forall i :: 0 <= i < |xs| ==> (i in at <==> FirstMention(key, xs, i)))
  }

  lemma MentionBefore(key: string -> string, xs: seq<string>, x: string, i: nat)
    requires i < |xs|
    ensures FirstMention(key, xs + [x], i) <==> FirstMention(key, xs, i)
  {
    assert forall j :: 0 <= j <= i ==> (xs + [x])[j] == xs[j];
  }

  lemma MentionsGrow(key: string -> string, xs: seq<string>, x: string, out: seq<string>, at: seq<nat>)
    requires Mentions(key, xs, out, at)
    ensures if FirstMention(key, xs + [x], |xs|) then Mentions(key, xs + [x], out + [x], at + [|xs|])
            else Mentions(key, xs + [x], out, at)
  {
    forall i | 0 <= i < |xs|
      ensures FirstMention(key, xs + [x], i) <==> FirstMention(key, xs, i)
    {
      MentionBefore(key, xs, x, i);
    }
    assert forall i :: i in at + [|xs|] <==> i in at || i == |xs|;
  }

  /** Dedupe lists exactly the first mentions, in order: `at` gives their positions. */
  lemma DedupeIsFirstMentions(key: string -> string, xs: seq<string>) returns (at: seq<nat>)
    ensures |at| == |Dedupe(key, xs)|
    ensures forall k :: 0 <= k < |at| ==> at[k] < |xs| && Dedupe(key, xs)[k] == xs[at[k]]
    ensures forall k, l :: 0 <= k < l < |at| ==> at[k] < at[l]
    ensures forall i :: 0 <= i < |xs| ==> (i in at <==> FirstMention(key, xs, i))
  {
    at := MentionsOfDedupe(key, xs);
  }

  lemma {:induction false} MentionsOfDedupe(key: string -> string, xs: seq<string>) returns (at: seq<nat>)
    ensures Mentions(key, xs, Dedupe(key, xs), at)
  {
    if xs == [] {
      at := [];
    } else {
      var n := |xs| - 1;
      var init := xs[..n];
      at := MentionsOfDedupe(key, init);
      MentionsGrow(key, init, xs[n], Dedupe(key, init), at);
      NewMention(key, xs);
      assert init + [xs[n]] == xs;
      if FirstMention(key, xs, n) {
        at := at + [n];
      }
    }
  }

  /** The last n of the texts at these positions, in order. */
  predicate NewestAt(xs: seq<string>, at: seq<nat>, n: nat, kept: seq<string>) {
    && |kept| == (if |at| > n then n else |at|)
    && forall k :: 0 <= k < |kept| ==>
         var i := at[|at| - |kept| + k]; i < |xs| && kept[k] == xs[i]
  }

  predicate Ascending(at: seq<nat>) {
    forall j, k :: 0 <= j < k < |at| ==> at[j] < at[k]
  }

  /** The newest n of them: again first mentions, again in order. */
  lemma NewestFirstMentions(key: string -> string, xs: seq<string>, n: nat) returns (at: seq<nat>)
    ensures forall i :: 0 <= i < |xs| ==> (i in at <==> FirstMention(key, xs, i))
    ensures Ascending(at) && NewestAt(xs, at, n, LastN(Dedupe(key, xs), n))
  {
    at := DedupeIsFirstMentions(key, xs);
  }

  /** What f makes of each element, when that is never nothing. */
  lemma {:induction false} CollectEach<T>(f: T -> string, xs: seq<T>, ys: seq<string>)
    requires |xs| == |ys| && forall i :: 0 <= i < |xs| ==> f(xs[i]) == ys[i] && ys[i] != ""
    ensures Collect(f, xs) == ys
  {
    if xs != [] {
      var n := |xs| - 1;
      CollectEach(f, xs[..n], ys[..n]);
      assert ys == ys[..n] + [ys[n]];
    }
  }

  /** Deduping forgets no key. */
  lemma {:induction false} ListedIffMentioned(key: string -> string, xs: seq<string>, x: string)
    requires key(x) != ""
    ensures Listed(key, Dedupe(key, xs), x) <==> Listed(key, xs, x)
  {
    if xs != [] {
      var n := |xs| - 1;
      var init, last := xs[..n], xs[n];
      ListedIffMentioned(key, init, x);
      var out := Dedupe(key, init);
      ListedAppend(key, init, last, x);
      ListedAppend(key, out, last, x);
      assert init + [last] == xs;
    }
  }

  lemma ListedAppend(key: string -> string, xs: seq<string>, y: string, x: string)
    ensures Listed(key, xs + [y], x) <==> Listed(key, xs, x) || key(y) == key(x)
  {
    var all := xs + [y];
    assert all[|xs|] == y;
    if Listed(key, xs, x) {
      var i :| 0 <= i < |xs| && key(xs[i]) == key(x);
      assert all[i] == xs[i];
    }
    if Listed(key, all, x) {
      var i :| 0 <= i < |all| && key(all[i]) == key(x);
      assert i < |xs| ==> all[i] == xs[i];
    }
  }

  lemma DistinctAppend(key: string -> string, xs: seq<string>, x: string)
    requires PairwiseDistinct(key, xs) && !Listed(key, xs, x)
    ensures PairwiseDistinct(key, xs + [x])
  {
  }

  lemma {:induction false} DedupeIsDistinct(key: string -> string, xs: seq<string>)
    ensures PairwiseDistinct(key, Dedupe(key, xs))
    ensures forall i :: 0 <= i < |Dedupe(key, xs)| ==> key(Dedupe(key, xs)[i]) != ""
  {
    if xs != [] {
      var n := |xs| - 1;
      DedupeIsDistinct(key, xs[..n]);
      if !Listed(key, Dedupe(key, xs[..n]), xs[n]) {
        DistinctAppend(key, Dedupe(key, xs[..n]), xs[n]);
      }
    }
  }

  /** What holds of every text listed holds of every text kept. */
  lemma {:induction false} DedupeHolds(key: string -> string, xs: seq<string>, good: string -> bool)
    requires forall i :: 0 <= i < |xs| ==> good(xs[i])
    ensures forall i :: 0 <= i < |Dedupe(key, xs)| ==> good(Dedupe(key, xs)[i])
  {
    if xs != [] {
      DedupeHolds(key, xs[..|xs| - 1], good);
    }
  }

  /** A list already distinct and without empty keys is left alone. */
  lemma {:induction false} DedupeFixed(key: string -> string, xs: seq<string>)
    requires PairwiseDistinct(key, xs)
    requires forall i :: 0 <= i < |xs| ==> key(xs[i]) != ""
    ensures Dedupe(key, xs) == xs
  {
    if xs != [] {
      DedupeFixed(key, xs[..|xs| - 1]);
    }
  }

  /** Deduping in two goes is deduping once. */
  lemma {:induction false} DedupeConcat(key: string -> string, a: seq<string>, b: seq<string>)
    ensures Dedupe(key, Dedupe(key, a) + b) == Dedupe(key, a + b)
  {
    if b == [] {
      DedupeIsDistinct(key, a);
      DedupeFixed(key, Dedupe(key, a));
      assert Dedupe(key, a) + b == Dedupe(key, a);
      assert a + b == a;
    } else {
      var n := |b| - 1;
      DedupeConcat(key, a, b[..n]);
      assert (a + b)[..|a + b| - 1] == a + b[..n];
      var left := Dedupe(key, a) + b;
      assert left[..|left| - 1] == Dedupe(key, a) + b[..n];
    }
  }

  lemma {:induction false} DedupeGrows(key: string -> string, a: seq<string>, b: seq<string>)
    ensures |Dedupe(key, a)| <= |Dedupe(key, a + b)|
  {
    if b == [] {
      assert a + b == a;
    } else {
      DedupeGrows(key, a, b[..|b| - 1]);
      assert (a + b)[..|a + b| - 1] == a + b[..|b| - 1];
    }
  }

  // ---- rolling under a bound ----

  /** Appends a text whose key is new and lets the oldest entry fall off over the bound. */
  function AddRolling(key: string -> string, xs: seq<string>, x: string, max: nat): seq<string> {
    if key(x) == "" || Listed(key, xs, x) then xs else LastN(xs + [x], max)
  }

  function AddAll(key: string -> string, xs: seq<string>, ws: seq<string>, max: nat): seq<string>
    decreases |ws|
  {
    if ws == [] then xs else AddAll(key, AddRolling(key, xs, ws[0], max), ws[1..], max)
  }

  lemma {:induction false} AddAllLast(key: string -> string, xs: seq<string>, ws: seq<string>, w: string, max: nat)
    ensures AddAll(key, xs, ws + [w], max) == AddRolling(key, AddAll(key, xs, ws, max), w, max)
    decreases |ws|
  {
    if ws == [] {
      assert (ws + [w])[1..] == [];
    } else {
      assert (ws + [w])[1..] == ws[1..] + [w];
      AddAllLast(key, AddRolling(key, xs, ws[0], max), ws[1..], w, max);
    }
  }

  predicate Rolling(key: string -> string, xs: seq<string>, max: nat) {
    |xs| <= max && PairwiseDistinct(key, xs)
  }

  lemma AddKeepsRolling(key: string -> string, xs: seq<string>, x: string, max: nat)
    requires Rolling(key, xs, max)
    ensures Rolling(key, AddRolling(key, xs, x, max), max)
  {
    if !Listed(key, xs, x) {
      assert PairwiseDistinct(key, xs + [x]);
    }
  }

  /** While the distinct texts fit the bound, rolling never drops one: the list is the
      first mentions of everything written so far. */
  lemma {:induction false} RollingIsDedupe(key: string -> string, before: seq<string>, ws: seq<string>, max: nat)
    requires |Dedupe(key, before + ws)| <= max
    ensures AddAll(key, Dedupe(key, before), ws, max) == Dedupe(key, before + ws)
    decreases |ws|
  {
    if ws == [] {
      assert before + ws == before;
    } else {
      var w := ws[0];
      var next := before + [w];
      assert next + ws[1..] == before + ws;
      DedupeGrows(key, next, ws[1..]);
      RollingIsDedupe(key, next, ws[1..], max);
    }
  }

  lemma DedupeInTwoGoes(key: string -> string, a: seq<string>, b: seq<string>, n: nat)
    requires |Dedupe(key, a + b)| <= n
    ensures LastN(Dedupe(key, LastN(Dedupe(key, a), n) + b), n) == Dedupe(key, a + b)
  {
    DedupeGrows(key, a, b);
    DedupeConcat(key, a, b);
  }

  /** While the distinct keys fit the bound, deduping in two goes is deduping in one. */
  lemma DedupeInTwo(key: string -> string, prev: seq<string>, a: seq<string>, b: seq<string>, n: nat)
    requires |Dedupe(key, prev + (a + b))| <= n
    ensures LastN(Dedupe(key, LastN(Dedupe(key, prev + a), n) + b), n) == LastN(Dedupe(key, prev + (a + b)), n)
  {
    var pa := prev + a;
    assert prev + (a + b) == pa + b;
    DedupeInTwoGoes(key, pa, b, n);
  }
}
