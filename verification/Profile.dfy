/** The structured profile that survives history trims: bounded, deduplicated fields that
    parallel tool calls write under one mutex. */
module Profile {
  import opened Text
  import opened Distinct

  const MARKER := "[user_profile]"
  const MAX_LIKES := 12
  const MAX_NOTES := 16
  const MAX_NOTE_RUNES := 120
  const MAX_LIKE_RUNES := 40
  const MAX_NAME_RUNES := 40

  datatype View = View(name: string, likes: seq<string>, notes: seq<string>)

  const EMPTY := View("", [], [])

  /** One field write, the unit every tool call is made of. */
  datatype Write = SetName(value: string) | AddLike(value: string) | AddNote(value: string)

  /** strings.EqualFold compares rune by rune under simple case folding. */
  function FoldKey(fold: char -> char): string -> string {
    s => MapRunes(fold, s)
  }

  function ExactKey(): string -> string {
    s => s
  }

  function Apply(fold: char -> char, v: View, w: Write): View {
    match w
    case SetName(value) => v.(name := ClipRunes(value, MAX_NAME_RUNES))
    case AddLike(value) =>
      v.(likes := AddRolling(FoldKey(fold), v.likes, ClipRunes(value, MAX_LIKE_RUNES), MAX_LIKES))
    case AddNote(value) =>
      v.(notes := AddRolling(ExactKey(), v.notes, ClipRunes(value, MAX_NOTE_RUNES), MAX_NOTES))
  }

  function ApplyAll(fold: char -> char, v: View, ws: seq<Write>): View {
    if ws == [] then v else Apply(fold, ApplyAll(fold, v, ws[..|ws| - 1]), ws[|ws| - 1])
  }

  predicate Bounded(xs: seq<string>, max: nat) {
    forall i :: 0 <= i < |xs| ==> xs[i] != "" && |xs[i]| <= max
  }

  ghost predicate Good(fold: char -> char, v: View) {
    && |v.name| <= MAX_NAME_RUNES
    && Rolling(FoldKey(fold), v.likes, MAX_LIKES) && Bounded(v.likes, MAX_LIKE_RUNES)
    && Rolling(ExactKey(), v.notes, MAX_NOTES) && Bounded(v.notes, MAX_NOTE_RUNES)
  }

  lemma ApplyKeepsGood(fold: char -> char, v: View, w: Write)
    requires Good(fold, v)
    ensures Good(fold, Apply(fold, v, w))
  {
    match w
    case SetName(value) =>
    case AddLike(value) => AddKeepsRolling(FoldKey(fold), v.likes, ClipRunes(value, MAX_LIKE_RUNES), MAX_LIKES);
    case AddNote(value) => AddKeepsRolling(ExactKey(), v.notes, ClipRunes(value, MAX_NOTE_RUNES), MAX_NOTES);
  }

  /** Every interleaving of writes keeps the profile bounded, deduplicated and clipped. */
  lemma {:induction false} EveryInterleavingIsGood(fold: char -> char, ws: seq<Write>)
    ensures Good(fold, ApplyAll(fold, EMPTY, ws))
  {
    if ws != [] {
      EveryInterleavingIsGood(fold, ws[..|ws| - 1]);
      ApplyKeepsGood(fold, ApplyAll(fold, EMPTY, ws[..|ws| - 1]), ws[|ws| - 1]);
    }
  }

  // ---- the final notes do not depend on the order of the writes ----

  /** The note texts written, as stored. */
  function Notes(ws: seq<Write>): seq<string> {
    if ws == [] then []
    else
      var last := ws[|ws| - 1];
      Notes(ws[..|ws| - 1]) + if last.AddNote? then [ClipRunes(last.value, MAX_NOTE_RUNES)] else []
  }

  function DistinctNotes(ws: seq<Write>): set<string> {
    set n | n in Notes(ws) && n != ""
  }

  lemma {:induction false} DedupeElements(xs: seq<string>)
    ensures (set x | x in Dedupe(ExactKey(), xs)) == (set x | x in xs && x != "")
    ensures |Dedupe(ExactKey(), xs)| == |set x | x in xs && x != ""|
  {
    if xs != [] {
      var init, x := xs[..|xs| - 1], xs[|xs| - 1];
      var out := Dedupe(ExactKey(), init);
      DedupeElements(init);
      var before := set y | y in init && y != "";
      assert xs == init + [x];
      if x == "" || x in out {
        assert x != "" ==> x in set y | y in out;
        assert (set y | y in xs && y != "") == before;
      } else {
        assert x !in set y | y in out;
        assert (set y | y in xs && y != "") == before + {x};
        assert (set y | y in out + [x]) == (set y | y in out) + {x};
      }
    }
  }

  /** The notes are what rolling additions make of the texts written, other writes left out. */
  lemma {:induction false} NotesAreRolled(fold: char -> char, ws: seq<Write>)
    ensures ApplyAll(fold, EMPTY, ws).notes == AddAll(ExactKey(), [], Notes(ws), MAX_NOTES)
  {
    if ws != [] {
      var init, last := ws[..|ws| - 1], ws[|ws| - 1];
      NotesAreRolled(fold, init);
      if last.AddNote? {
        AddAllLast(ExactKey(), [], Notes(init), ClipRunes(last.value, MAX_NOTE_RUNES), MAX_NOTES);
      } else {
        assert Notes(ws) == Notes(init);
      }
    }
  }

  lemma NotesRoll(fold: char -> char, ws: seq<Write>)
    requires |DistinctNotes(ws)| <= MAX_NOTES
    ensures ApplyAll(fold, EMPTY, ws).notes == Dedupe(ExactKey(), Notes(ws))
  {
    NotesAreRolled(fold, ws);
    DedupeElements(Notes(ws));
    assert [] + Notes(ws) == Notes(ws);
    RollingIsDedupe(ExactKey(), [], Notes(ws), MAX_NOTES);
  }

  /** When the distinct notes fit the bound, all of them are kept, whatever the order: two
      interleavings of the same notes end with the same set. */
  lemma NoteOrderDoesNotMatter(fold: char -> char, ws: seq<Write>, other: seq<Write>)
    requires DistinctNotes(ws) == DistinctNotes(other) && |DistinctNotes(ws)| <= MAX_NOTES
    ensures (set n | n in ApplyAll(fold, EMPTY, ws).notes) == DistinctNotes(ws)
    ensures (set n | n in ApplyAll(fold, EMPTY, other).notes) == DistinctNotes(ws)
    ensures |ApplyAll(fold, EMPTY, ws).notes| == |DistinctNotes(ws)|
  {
    NotesRoll(fold, ws);
    NotesRoll(fold, other);
    DedupeElements(Notes(ws));
    DedupeElements(Notes(other));
  }

  // ---- the block injected before each Chat ----

  predicate IsEmpty(v: View) {
    v.name == "" && v.likes == [] && v.notes == []
  }

  function NoteLines(notes: seq<string>): string {
    if notes == [] then ""
    else NoteLines(notes[..|notes| - 1]) + "  - " + notes[|notes| - 1] + "\n"
  }

  function IntroWords(v: View): seq<string> {
    ["Durable", "user", "profile", "(structured", "fields;", "prefer", "over", "chat", "fluff):"]
  }

  function FieldLines(v: View): string {
    (if v.name != "" then "- name: " + v.name + "\n" else "") +
    (if v.likes != [] then "- likes: " + Join(v.likes, "; ") + "\n" else "") +
    (if v.notes != [] then "- notes:\n" + NoteLines(v.notes) else "")
  }

  /** The marker lets the next Chat replace the block and the commit strip it. */
  type RenderedBlock = b: string | b == "" || MARKER <= b witness ""

  function Details(v: View): string {
    "\n" + Join(IntroWords(v), " ") + "\n" + FieldLines(v)
  }

  lemma MarkerStays(text: string)
    ensures MARKER != "" && MARKER <= TrimSpace(MARKER + text)
  {
    TrimSpaceKeepsPrefix(MARKER, text);
  }

  /** RenderSystemBlock. */
  function Block(v: View): (b: RenderedBlock)
    ensures b == "" <==> IsEmpty(v)
  {
    if IsEmpty(v) then ""
    else
      var text := Details(v);
      MarkerStays(text);
      TrimSpace(MARKER + text)
  }

  // ---- the object ----

  class Memory {
    const fold: char -> char
    var name: string
    var likes: seq<string>
    var notes: seq<string>

    function Snapshot(): View
      reads this
    {
      View(name, likes, notes)
    }

    constructor (fold: char -> char)
      ensures this.fold == fold && Snapshot() == EMPTY
    {
      this.fold := fold;
      name, likes, notes := "", [], [];
    }

    method SetName(v: string)
      modifies `name
      ensures Snapshot() == Apply(fold, old(Snapshot()), Write.SetName(v))
    {
      name := ClipRunes(v, MAX_NAME_RUNES);
    }

    method AddLike(v: string)
      modifies `likes
      ensures Snapshot() == Apply(fold, old(Snapshot()), Write.AddLike(v))
    {
      var like := ClipRunes(v, MAX_LIKE_RUNES);
      if like == "" {
        return;
      }
      for i := 0 to |likes|
        invariant forall k :: 0 <= k < i ==> FoldKey(fold)(likes[k]) != FoldKey(fold)(like)
      {
        if FoldKey(fold)(likes[i]) == FoldKey(fold)(like) {
          return;
        }
      }
      likes := likes + [like];
      if |likes| > MAX_LIKES {
        likes := likes[|likes| - MAX_LIKES..];
      }
    }

    method AddNote(v: string)
      modifies `notes
      ensures Snapshot() == Apply(fold, old(Snapshot()), Write.AddNote(v))
    {
      var note := ClipRunes(v, MAX_NOTE_RUNES);
      if note == "" {
        return;
      }
      for i := 0 to |notes|
        invariant forall k :: 0 <= k < i ==> notes[k] != note
      {
        if notes[i] == note {
          return;
        }
      }
      notes := notes + [note];
      if |notes| > MAX_NOTES {
        notes := notes[|notes| - MAX_NOTES..];
      }
    }

    method AddLikes(values: seq<string>) returns (any: bool)
      modifies `likes
      ensures Snapshot() == ApplyAll(fold, old(Snapshot()), LikeWrites(values))
      ensures any <==> LikeWrites(values) != []
    {
      any := false;
      for i := 0 to |values|
        invariant Snapshot() == ApplyAll(fold, old(Snapshot()), LikeWrites(values[..i]))
        invariant any <==> LikeWrites(values[..i]) != []
      {
        LikeWritesStep(fold, old(Snapshot()), values, i);
        var like := TrimSpace(values[i]);
        if like != "" {
          AddLike(like);
          any := true;
        }
      }
      assert values[..|values|] == values;
    }

    method AddNotes(values: seq<string>) returns (any: bool)
      modifies `notes
      ensures Snapshot() == ApplyAll(fold, old(Snapshot()), NoteWrites(values))
      ensures any <==> NoteWrites(values) != []
    {
      any := false;
      for i := 0 to |values|
        invariant Snapshot() == ApplyAll(fold, old(Snapshot()), NoteWrites(values[..i]))
        invariant any <==> NoteWrites(values[..i]) != []
      {
        NoteWritesStep(fold, old(Snapshot()), values, i);
        var note := TrimSpace(values[i]);
        if note != "" {
          AddNote(note);
          any := true;
        }
      }
      assert values[..|values|] == values;
    }

    /** ApplyPatch: blank fields are skipped, and a patch without any other field is an error. */
    method ApplyPatch(newName: string, newLikes: seq<string>, newNotes: seq<string>) returns (ok: bool)
      modifies this
      ensures Snapshot() == ApplyAll(fold, old(Snapshot()), PatchWrites(newName, newLikes, newNotes))
      ensures ok <==> PatchWrites(newName, newLikes, newNotes) != []
    {
      var named := TrimSpace(newName) != "";
      if named {
        SetName(TrimSpace(newName));
      }
      assert Snapshot() == ApplyAll(fold, old(Snapshot()), NameWrites(newName));
      var liked := AddLikes(newLikes);
      ApplyAllConcat(fold, old(Snapshot()), NameWrites(newName), LikeWrites(newLikes));
      var noted := AddNotes(newNotes);
      ApplyAllConcat(fold, old(Snapshot()), NameWrites(newName) + LikeWrites(newLikes), NoteWrites(newNotes));
      ok := named || liked || noted;
    }

    method Clear()
      modifies this
      ensures Snapshot() == EMPTY
    {
      name, likes, notes := "", [], [];
    }
  }

  function LikeWrites(values: seq<string>): seq<Write> {
    if values == [] then []
    else
      var v := TrimSpace(values[|values| - 1]);
      LikeWrites(values[..|values| - 1]) + if v != "" then [Write.AddLike(v)] else []
  }

  function NoteWrites(values: seq<string>): seq<Write> {
    if values == [] then []
    else
      var v := TrimSpace(values[|values| - 1]);
      NoteWrites(values[..|values| - 1]) + if v != "" then [Write.AddNote(v)] else []
  }

  lemma LikeWritesStep(fold: char -> char, v: View, values: seq<string>, i: nat)
    requires i < |values|
    ensures var before, t := LikeWrites(values[..i]), TrimSpace(values[i]);
            LikeWrites(values[..i + 1]) == if t != "" then before + [Write.AddLike(t)] else before
    ensures ApplyAll(fold, v, LikeWrites(values[..i + 1])) ==
            var before, t := ApplyAll(fold, v, LikeWrites(values[..i])), TrimSpace(values[i]);
            if t != "" then Apply(fold, before, Write.AddLike(t)) else before
  {
    var next := values[..i + 1];
    assert next[..|next| - 1] == values[..i] && next[|next| - 1] == values[i];
    var before, t := LikeWrites(values[..i]), TrimSpace(values[i]);
    if t != "" {
      assert (before + [Write.AddLike(t)])[..|before|] == before;
    }
  }

  lemma NoteWritesStep(fold: char -> char, v: View, values: seq<string>, i: nat)
    requires i < |values|
    ensures var before, t := NoteWrites(values[..i]), TrimSpace(values[i]);
            NoteWrites(values[..i + 1]) == if t != "" then before + [Write.AddNote(t)] else before
    ensures ApplyAll(fold, v, NoteWrites(values[..i + 1])) ==
            var before, t := ApplyAll(fold, v, NoteWrites(values[..i])), TrimSpace(values[i]);
            if t != "" then Apply(fold, before, Write.AddNote(t)) else before
  {
    var next := values[..i + 1];
    assert next[..|next| - 1] == values[..i] && next[|next| - 1] == values[i];
    var before, t := NoteWrites(values[..i]), TrimSpace(values[i]);
    if t != "" {
      assert (before + [Write.AddNote(t)])[..|before|] == before;
    }
  }

  function NameWrites(name: string): seq<Write> {
    if TrimSpace(name) != "" then [Write.SetName(TrimSpace(name))] else []
  }

  /** The single writes a patch stands for; they happen under one lock. */
  function PatchWrites(name: string, likes: seq<string>, notes: seq<string>): seq<Write> {
    NameWrites(name) + LikeWrites(likes) + NoteWrites(notes)
  }

  lemma {:induction false} ApplyAllConcat(fold: char -> char, v: View, a: seq<Write>, b: seq<Write>)
    ensures ApplyAll(fold, v, a + b) == ApplyAll(fold, ApplyAll(fold, v, a), b)
  {
    if b == [] {
      assert a + b == a;
    } else {
      assert (a + b)[..|a + b| - 1] == a + b[..|b| - 1];
      ApplyAllConcat(fold, v, a, b[..|b| - 1]);
    }
  }
}
