/** What a profile holds after any interleaving of writes, told by the values written. */
module ProfileLaws {
  import opened Distinct
  import opened Profile
  import opened Text

  /** Clipping keeps the text between the white space at the ends, whole or the first `max` runes. */
  lemma ClipRunesKeeps(value: string, max: nat)
    requires max > 0
    ensures var t := TrimSpace(value);
            && ClipRunes(value, max) <= t
            && |ClipRunes(value, max)| == (if |t| <= max then |t| else max)
    ensures ClipRunes(value, max) == "" <==> AllSpaces(value)
  {
    BlankIffNothingLeft(value);
  }

  // ---- the name ----

  predicate NoNameAfter(ws: seq<Write>, k: nat) {
    forall l :: k < l < |ws| ==> !ws[l].SetName?
  }

  /** The name is the last one written, clipped to 40 runes. */
  lemma {:induction false} LastNameCounts(fold: char -> char, ws: seq<Write>, k: nat)
    requires k < |ws| && ws[k].SetName? && NoNameAfter(ws, k)
    ensures ApplyAll(fold, EMPTY, ws).name == ClipRunes(ws[k].value, 40)
  {
    if k < |ws| - 1 {
      LastNameCounts(fold, ws[..|ws| - 1], k);
    }
  }

  // ---- one write ----

  /** A list with one more entry, without its oldest if there are too many. */
  function Pushed(xs: seq<string>, x: string, max: nat): seq<string>
    requires 0 < max
  {
    if |xs| < max then xs + [x] else xs[|xs| - (max - 1)..] + [x]
  }

  /** A like is added at the end unless it is blank or there up to folding; the thirteenth pushes the
      oldest out. */
  lemma LikeIsWritten(fold: char -> char, v: View, value: string)
    ensures var x := ClipRunes(value, 40);
            Apply(fold, v, AddLike(value)) ==
            v.(likes := if AllSpaces(value) || (exists k :: 0 <= k < |v.likes| && SameUnder(fold, v.likes[k], x))
                        then v.likes else Pushed(v.likes, x, 12))
  {
    var x := ClipRunes(value, 40);
    ClipRunesKeeps(value, 40);
    SameUnderIff(fold, x, x);
    forall k | 0 <= k < |v.likes|
      ensures FoldKey(fold)(v.likes[k]) == FoldKey(fold)(x) <==> SameUnder(fold, v.likes[k], x)
    {
      SameUnderIff(fold, v.likes[k], x);
    }
    assert Listed(FoldKey(fold), v.likes, x) <==> exists k :: 0 <= k < |v.likes| && SameUnder(fold, v.likes[k], x);
    PushedIsLast(v.likes, x, 12);
  }

  lemma PushedIsLast(xs: seq<string>, x: string, max: nat)
    requires 0 < max
    ensures LastN(xs + [x], max) == Pushed(xs, x, max)
  {
  }

  /** A note is added at the end unless it is blank or there; the seventeenth pushes the oldest out. */
  lemma NoteIsWritten(fold: char -> char, v: View, value: string)
    ensures var x := ClipRunes(value, 120);
            Apply(fold, v, AddNote(value)) ==
            v.(notes := if AllSpaces(value) || x in v.notes then v.notes else Pushed(v.notes, x, 16))
  {
    ClipRunesKeeps(value, 120);
    PushedIsLast(v.notes, ClipRunes(value, 120), 16);
    assert Listed(ExactKey(), v.notes, ClipRunes(value, 120)) <==> ClipRunes(value, 120) in v.notes;
  }

  // ---- all writes ----

  /** What each write says about a field, nothing if it is a write of another. */
  function Texts(text: Write -> string, ws: seq<Write>): (texts: seq<string>)
    ensures |texts| == |ws|
    ensures forall i :: 0 <= i < |ws| ==> texts[i] == text(ws[i])
  {
    seq(|ws|, i requires 0 <= i < |ws| => text(ws[i]))
  }

  function LikeText(w: Write): string {
    if w.AddLike? then ClipRunes(w.value, 40) else ""
  }

  function NoteText(w: Write): string {
    if w.AddNote? then ClipRunes(w.value, 120) else ""
  }

  lemma OneMore(key: string -> string, text: Write -> string, ws: seq<Write>, max: nat)
    requires ws != []
    ensures var init, last := ws[..|ws| - 1], ws[|ws| - 1];
            AddAll(key, [], Texts(text, ws), max) ==
            AddRolling(key, AddAll(key, [], Texts(text, init), max), text(last), max)
  {
    var init, last := ws[..|ws| - 1], ws[|ws| - 1];
    AddAllLast(key, [], Texts(text, init), text(last), max);
    assert Texts(text, ws) == Texts(text, init) + [text(last)];
  }

  lemma {:induction false} LikesAreAdded(fold: char -> char, ws: seq<Write>)
    ensures ApplyAll(fold, EMPTY, ws).likes == AddAll(FoldKey(fold), [], Texts(LikeText, ws), 12)
  {
    if ws != [] {
      var init, last := ws[..|ws| - 1], ws[|ws| - 1];
      LikesAreAdded(fold, init);
      OneMore(FoldKey(fold), LikeText, ws, 12);
      LikeIsAdded(fold, ApplyAll(fold, EMPTY, init), last);
    }
  }

  lemma LikeIsAdded(fold: char -> char, v: View, w: Write)
    ensures Apply(fold, v, w).likes == AddRolling(FoldKey(fold), v.likes, LikeText(w), 12)
  {
  }

  lemma {:induction false} NotesAreAdded(fold: char -> char, ws: seq<Write>)
    ensures ApplyAll(fold, EMPTY, ws).notes == AddAll(ExactKey(), [], Texts(NoteText, ws), 16)
  {
    if ws != [] {
      var init, last := ws[..|ws| - 1], ws[|ws| - 1];
      NotesAreAdded(fold, init);
      OneMore(ExactKey(), NoteText, ws, 16);
      NoteIsAdded(fold, ApplyAll(fold, EMPTY, init), last);
    }
  }

  lemma NoteIsAdded(fold: char -> char, v: View, w: Write)
    ensures Apply(fold, v, w).notes == AddRolling(ExactKey(), v.notes, NoteText(w), 16)
  {
  }

  /** The positions, in order, at which a predicate holds. */
  predicate Lists(at: seq<nat>, n: nat, has: nat -> bool) {
    && (forall j, k :: 0 <= j < k < |at| ==> at[j] < at[k])
    && (forall k :: 0 <= k < |at| ==> at[k] < n)
    && (forall i :: 0 <= i < n ==> (i in at <==> has(i)))
  }

  lemma RolledIsDedupe(key: string -> string, texts: seq<string>, max: nat)
    requires |Dedupe(key, texts)| <= max
    ensures AddAll(key, [], texts, max) == Dedupe(key, texts)
  {
    assert [] + texts == texts;
    RollingIsDedupe(key, [], texts, max);
  }

  /** The entries are the texts at these positions. */
  predicate TakenFrom(texts: seq<string>, at: seq<nat>, out: seq<string>) {
    |out| == |at| && forall k :: 0 <= k < |at| ==> at[k] < |texts| && out[k] == texts[at[k]]
  }

  lemma MentionsAt(key: string -> string, texts: seq<string>) returns (at: seq<nat>)
    ensures Lists(at, |texts|, (i: nat) => i < |texts| && FirstMention(key, texts, i))
    ensures TakenFrom(texts, at, Dedupe(key, texts))
  {
    at := DedupeIsFirstMentions(key, texts);
  }

  lemma RolledAt(key: string -> string, texts: seq<string>, max: nat) returns (at: seq<nat>)
    ensures Lists(at, |texts|, (i: nat) => i < |texts| && FirstMention(key, texts, i))
    ensures |at| <= max ==> TakenFrom(texts, at, AddAll(key, [], texts, max))
  {
    at := MentionsAt(key, texts);
    if |at| <= max {
      RolledIsDedupe(key, texts, max);
    }
  }

  /** The write brings a like that no earlier write brought, up to folding. */
  predicate NewLike(fold: char -> char, ws: seq<Write>, i: nat) {
    && i < |ws| && ws[i].AddLike? && !AllSpaces(ws[i].value)
    && forall j :: 0 <= j < i && ws[j].AddLike? ==>
         !SameUnder(fold, ClipRunes(ws[j].value, 40), ClipRunes(ws[i].value, 40))
  }

  lemma NewLikeIff(fold: char -> char, ws: seq<Write>, i: nat)
    requires i < |ws|
    ensures FirstMention(FoldKey(fold), Texts(LikeText, ws), i) <==> NewLike(fold, ws, i)
  {
    var texts := Texts(LikeText, ws);
    if ws[i].AddLike? {
      ClipRunesKeeps(ws[i].value, 40);
    }
    forall j | 0 <= j <= i
      ensures FoldKey(fold)(texts[j]) == FoldKey(fold)(texts[i]) <==> SameUnder(fold, texts[j], texts[i])
      ensures FoldKey(fold)(texts[j]) == "" <==> texts[j] == ""
    {
      SameUnderIff(fold, texts[j], texts[i]);
    }
  }

  /** While at most twelve different likes have been written, the likes are all of them, as first
      written and clipped, in that order, whatever was written in between. */
  lemma LikesAreThoseWritten(fold: char -> char, ws: seq<Write>) returns (at: seq<nat>)
    ensures Lists(at, |ws|, (i: nat) => NewLike(fold, ws, i))
    ensures |at| <= 12 ==>
              var likes := ApplyAll(fold, EMPTY, ws).likes;
              && |likes| == |at|
              && forall k :: 0 <= k < |at| ==>
                   at[k] < |ws| && ws[at[k]].AddLike? && likes[k] == ClipRunes(ws[at[k]].value, 40)
  {
    LikesAreAdded(fold, ws);
    at := RolledAt(FoldKey(fold), Texts(LikeText, ws), 12);
    forall i | 0 <= i < |ws|
      ensures FirstMention(FoldKey(fold), Texts(LikeText, ws), i) <==> NewLike(fold, ws, i)
    {
      NewLikeIff(fold, ws, i);
    }
    assert forall k :: 0 <= k < |at| ==> at[k] in at;
  }

  /** The write brings a note that no earlier write brought. */
  predicate NewNote(ws: seq<Write>, i: nat) {
    && i < |ws| && ws[i].AddNote? && !AllSpaces(ws[i].value)
    && forall j :: 0 <= j < i && ws[j].AddNote? ==> ClipRunes(ws[j].value, 120) != ClipRunes(ws[i].value, 120)
  }

  lemma NewNoteIff(ws: seq<Write>, i: nat)
    requires i < |ws|
    ensures FirstMention(ExactKey(), Texts(NoteText, ws), i) <==> NewNote(ws, i)
  {
    if ws[i].AddNote? {
      ClipRunesKeeps(ws[i].value, 120);
    }
  }

  /** While at most sixteen different notes have been written, the notes are all of them. */
  lemma NotesAreThoseWritten(fold: char -> char, ws: seq<Write>) returns (at: seq<nat>)
    ensures Lists(at, |ws|, (i: nat) => NewNote(ws, i))
    ensures |at| <= 16 ==>
              var notes := ApplyAll(fold, EMPTY, ws).notes;
              && |notes| == |at|
              && forall k :: 0 <= k < |at| ==>
                   at[k] < |ws| && ws[at[k]].AddNote? && notes[k] == ClipRunes(ws[at[k]].value, 120)
  {
    NotesAreAdded(fold, ws);
    at := RolledAt(ExactKey(), Texts(NoteText, ws), 16);
    forall i | 0 <= i < |ws|
      ensures FirstMention(ExactKey(), Texts(NoteText, ws), i) <==> NewNote(ws, i)
    {
      NewNoteIff(ws, i);
    }
    assert forall k :: 0 <= k < |at| ==> at[k] in at;
  }

  // ---- patches ----

  function AsLikes(values: seq<string>): seq<Write> {
    seq(|values|, i requires 0 <= i < |values| => AddLike(values[i]))
  }

  function AsNotes(values: seq<string>): seq<Write> {
    seq(|values|, i requires 0 <= i < |values| => AddNote(values[i]))
  }

  /** Trimming the values first, and leaving out blank ones, makes no difference. */
  lemma SkippedIsNothing(fold: char -> char, v: View, value: string)
    ensures var t := TrimSpace(value);
            && Apply(fold, v, AddLike(value)) == (if t != "" then Apply(fold, v, AddLike(t)) else v)
            && Apply(fold, v, AddNote(value)) == (if t != "" then Apply(fold, v, AddNote(t)) else v)
            && Apply(fold, v, SetName(value)) == Apply(fold, v, SetName(t))
  {
    TrimSpaceIdempotent(value);
  }

  lemma {:induction false} LikesOfPatch(fold: char -> char, v: View, values: seq<string>)
    ensures ApplyAll(fold, v, LikeWrites(values)) == ApplyAll(fold, v, AsLikes(values))
  {
    if values != [] {
      var n := |values| - 1;
      LikesOfPatch(fold, v, values[..n]);
      assert AsLikes(values)[..n] == AsLikes(values[..n]);
      LikeWritesStep(fold, v, values, n);
      assert values[..n + 1] == values;
      SkippedIsNothing(fold, ApplyAll(fold, v, AsLikes(values[..n])), values[n]);
    }
  }

  lemma {:induction false} NotesOfPatch(fold: char -> char, v: View, values: seq<string>)
    ensures ApplyAll(fold, v, NoteWrites(values)) == ApplyAll(fold, v, AsNotes(values))
  {
    if values != [] {
      var n := |values| - 1;
      NotesOfPatch(fold, v, values[..n]);
      assert AsNotes(values)[..n] == AsNotes(values[..n]);
      NoteWritesStep(fold, v, values, n);
      assert values[..n + 1] == values;
      SkippedIsNothing(fold, ApplyAll(fold, v, AsNotes(values[..n])), values[n]);
    }
  }

  /** A patch writes its name, unless that is blank, then all its likes and notes as given. */
  lemma PatchWritesAll(fold: char -> char, v: View, name: string, likes: seq<string>, notes: seq<string>)
    ensures var named := if AllSpaces(name) then v else Apply(fold, v, SetName(name));
            ApplyAll(fold, v, PatchWrites(name, likes, notes)) ==
            ApplyAll(fold, ApplyAll(fold, named, AsLikes(likes)), AsNotes(notes))
  {
    var named := ApplyAll(fold, v, NameWrites(name));
    BlankIffNothingLeft(name);
    SkippedIsNothing(fold, v, name);
    ApplyAllConcat(fold, v, NameWrites(name) + LikeWrites(likes), NoteWrites(notes));
    ApplyAllConcat(fold, v, NameWrites(name), LikeWrites(likes));
    LikesOfPatch(fold, named, likes);
    NotesOfPatch(fold, ApplyAll(fold, named, AsLikes(likes)), notes);
  }

  predicate AllAreBlank(values: seq<string>) {
    forall i :: 0 <= i < |values| ==> AllSpaces(values[i])
  }

  lemma AllBlankButLast(values: seq<string>)
    requires values != []
    ensures AllAreBlank(values) <==> AllAreBlank(values[..|values| - 1]) && TrimSpace(values[|values| - 1]) == ""
  {
    BlankIffNothingLeft(values[|values| - 1]);
    assert values == values[..|values| - 1] + [values[|values| - 1]];
  }

  lemma {:induction false} NothingWrittenIff(values: seq<string>)
    ensures LikeWrites(values) == [] <==> AllAreBlank(values)
    ensures NoteWrites(values) == [] <==> AllAreBlank(values)
  {
    if values != [] {
      NothingWrittenIff(values[..|values| - 1]);
      AllBlankButLast(values);
    }
  }

  /** A patch is refused exactly when all of it is blank. */
  lemma EmptyPatchIff(name: string, likes: seq<string>, notes: seq<string>)
    ensures PatchWrites(name, likes, notes) == [] <==> AllSpaces(name) && AllAreBlank(likes) && AllAreBlank(notes)
  {
    BlankIffNothingLeft(name);
    NothingWrittenIff(likes);
    NothingWrittenIff(notes);
  }

  // ---- the block ----

  /** Lines, each with its end. */
  function Lines(lines: seq<string>): string {
    if lines == [] then "" else Lines(lines[..|lines| - 1]) + (lines[|lines| - 1] + "\n")
  }

  function NoteItems(notes: seq<string>): seq<string> {
    seq(|notes|, i requires 0 <= i < |notes| => "  - " + notes[i])
  }

  function NameItems(v: View): seq<string> {
    if v.name == "" then [] else ["- name: " + v.name]
  }

  function LikeItems(v: View): seq<string> {
    if v.likes == [] then [] else ["- likes: " + Join(v.likes, "; ")]
  }

  function AllNoteItems(v: View): seq<string> {
    if v.notes == [] then [] else ["- notes:"] + NoteItems(v.notes)
  }

  lemma {:induction false} LinesConcat(a: seq<string>, b: seq<string>)
    ensures Lines(a + b) == Lines(a) + Lines(b)
  {
    if b == [] {
      assert a + b == a;
    } else {
      assert (a + b)[..|a + b| - 1] == a + b[..|b| - 1];
      LinesConcat(a, b[..|b| - 1]);
    }
  }

  lemma OneLineOf(line: string)
    ensures Lines([line]) == line + "\n"
  {
    assert [line][..0] == [];
  }

  lemma {:induction false} NoteLinesAre(notes: seq<string>)
    ensures NoteLines(notes) == Lines(NoteItems(notes))
  {
    if notes != [] {
      var n := |notes| - 1;
      NoteLinesAre(notes[..n]);
      assert NoteItems(notes)[..n] == NoteItems(notes[..n]);
      assert NoteLines(notes[..n]) + "  - " + notes[n] + "\n" == NoteLines(notes[..n]) + ("  - " + notes[n] + "\n");
    }
  }

  lemma NameLineIs(v: View)
    ensures Lines(NameItems(v)) == if v.name != "" then "- name: " + v.name + "\n" else ""
  {
    OneLineOf("- name: " + v.name);
  }

  lemma LikeLineIs(v: View)
    ensures Lines(LikeItems(v)) == if v.likes != [] then "- likes: " + Join(v.likes, "; ") + "\n" else ""
  {
    OneLineOf("- likes: " + Join(v.likes, "; "));
  }

  lemma AllNoteLinesAre(v: View)
    ensures Lines(AllNoteItems(v)) == if v.notes != [] then "- notes:\n" + NoteLines(v.notes) else ""
  {
    OneLineOf("- notes:");
    NoteLinesAre(v.notes);
    LinesConcat(["- notes:"], NoteItems(v.notes));
  }

  lemma FieldLinesAre(v: View)
    ensures FieldLines(v) == Lines(NameItems(v) + LikeItems(v) + AllNoteItems(v))
  {
    NameLineIs(v);
    LikeLineIs(v);
    AllNoteLinesAre(v);
    LinesConcat(NameItems(v) + LikeItems(v), AllNoteItems(v));
    LinesConcat(NameItems(v), LikeItems(v));
  }

  lemma BlockHolds(v: View, fields: string)
    requires v != EMPTY && FieldLines(v) == fields
    ensures Block(v) == TrimSpace(MARKER + ("\n" + Join(IntroWords(v), " ") + "\n" + fields))
  {
  }

  /** The block of a profile that is not empty: the marker, an introduction, and a line for each field
      that is set, one for every note. */
  lemma BlockSaysTheFields(v: View)
    requires v != EMPTY
    ensures var fields := Lines(NameItems(v) + LikeItems(v) + AllNoteItems(v));
            Block(v) == TrimSpace(MARKER + ("\n" + Join(IntroWords(v), " ") + "\n" + fields))
  {
    FieldLinesAre(v);
    BlockHolds(v, Lines(NameItems(v) + LikeItems(v) + AllNoteItems(v)));
  }
}
