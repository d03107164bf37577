/** The journal's note list: filtering by category, the display order, and
    the new lists produced by adding, pinning and deleting notes. Identifiers
    and timestamps come from the caller. */
module Journal {
  import Text
  import Seqs

  datatype Note = Note(id: string, timestamp: int, noteType: string, text: string, pinned: bool)

  /** Whether a note passes the category filter. */
  predicate Shown(filter: string, note: Note)
  {
    filter == "all" || note.noteType == filter
  }

  /** The notes of the chosen category, in list order. */
  function FilterNotes(notes: seq<Note>, filter: string): (r: seq<Note>)
    ensures filter == "all" ==> r == notes
    ensures forall i :: 0 <= i < |r| ==> r[i] in notes && (filter == "all" || r[i].noteType == filter)
    ensures forall i :: 0 <= i < |notes| && (filter == "all" || notes[i].noteType == filter) ==> notes[i] in r
    ensures forall n :: multiset(r)[n] == if Shown(filter, n) then multiset(notes)[n] else 0
  {
    var keep := (n: Note) => Shown(filter, n);
    FilterCounts(notes, keep);
    Seqs.Filter(notes, keep)
  }

  lemma FilterCounts(notes: seq<Note>, keep: Note -> bool)
    ensures forall n :: multiset(Seqs.Filter(notes, keep))[n] == if keep(n) then multiset(notes)[n] else 0
  {
    forall n ensures multiset(Seqs.Filter(notes, keep))[n] == if keep(n) then multiset(notes)[n] else 0 {
      Seqs.FilterMultiplicity(notes, keep, n);
    }
  }

  /** The comparator of the display order: pinned notes before unpinned ones,
      then newer before older. `a` may be listed before `b`. */
  predicate Precedes(a: Note, b: Note)
  {
    (a.pinned && !b.pinned) || (a.pinned == b.pinned && a.timestamp >= b.timestamp)
  }

  predicate InDisplayOrder(s: seq<Note>)
  {
    forall i, j :: 0 <= i < j < |s| ==> Precedes(s[i], s[j])
  }

  /** `x` placed before the first note it may precede. */
  function Insert(x: Note, s: seq<Note>): seq<Note>
  {
    if s == [] || Precedes(x, s[0]) then [x] + s else [s[0]] + Insert(x, s[1..])
  }

  /** The sort in `renderJournal`, as an insertion sort. */
  function SortNotes(s: seq<Note>): seq<Note>
  {
    if s == [] then [] else Insert(s[0], SortNotes(s[1..]))
  }

  /** `x` may be listed before every note of `s`. */
  predicate PrecedesAll(x: Note, s: seq<Note>)
  {
    forall j :: 0 <= j < |s| ==> Precedes(x, s[j])
  }

  lemma {:induction false} InsertCount(x: Note, s: seq<Note>)
    ensures multiset(Insert(x, s)) == multiset(s) + multiset{x}
  {
    if s != [] && !Precedes(x, s[0]) {
      InsertCount(x, s[1..]);
      assert s == [s[0]] + s[1..];
    }
  }

  /** A note that precedes `x` and all of `s` precedes all of `Insert(x, s)`. */
  lemma {:induction false} InsertPrecededBy(y: Note, x: Note, s: seq<Note>)
    requires Precedes(y, x) && PrecedesAll(y, s)
    ensures PrecedesAll(y, Insert(x, s))
  {
    if s != [] && !Precedes(x, s[0]) {
      InsertPrecededBy(y, x, s[1..]);
    }
  }

  lemma ConsInOrder(x: Note, s: seq<Note>)
    requires PrecedesAll(x, s) && InDisplayOrder(s)
    ensures InDisplayOrder([x] + s)
  {
    var r := [x] + s;
    forall i, j | 0 <= i < j < |r| ensures Precedes(r[i], r[j]) {
      if i == 0 {
        assert r[j] == s[j - 1];
      } else {
        assert r[i] == s[i - 1] && r[j] == s[j - 1];
      }
    }
  }

  lemma {:induction false} InsertKeepsOrder(x: Note, s: seq<Note>)
    requires InDisplayOrder(s)
    ensures InDisplayOrder(Insert(x, s))
    ensures multiset(Insert(x, s)) == multiset(s) + multiset{x}
  {
    InsertCount(x, s);
    if s == [] || Precedes(x, s[0]) {
      forall j | 0 <= j < |s| ensures Precedes(x, s[j]) {
        if j > 0 {
          assert Precedes(s[0], s[j]);
        }
      }
      ConsInOrder(x, s);
    } else {
      assert InDisplayOrder(s[1..]);
      InsertKeepsOrder(x, s[1..]);
      assert PrecedesAll(s[0], s[1..]) by {
        forall j | 0 <= j < |s[1..]| ensures Precedes(s[0], s[1..][j]) {
          assert s[1..][j] == s[j + 1];
        }
      }
      InsertPrecededBy(s[0], x, s[1..]);
      ConsInOrder(s[0], Insert(x, s[1..]));
    }
  }

  /** The display order lists the same notes, sorted by the comparator. */
  lemma {:induction false} SortNotesSorts(s: seq<Note>)
    ensures InDisplayOrder(SortNotes(s))
    ensures multiset(SortNotes(s)) == multiset(s)
  {
    if s != [] {
      SortNotesSorts(s[1..]);
      InsertKeepsOrder(s[0], SortNotes(s[1..]));
      assert s == [s[0]] + s[1..];
    }
  }

  /** `renderJournal`: the notes to list, in the order they are listed. */
  function RenderOrder(notes: seq<Note>, filter: string): seq<Note>
  {
    SortNotes(FilterNotes(notes, filter))
  }

  /** The listed notes are exactly the notes of the category; every pinned
      note comes before every unpinned one, and within each group newer
      notes come first. */
  lemma RenderOrderPinnedFirst(notes: seq<Note>, filter: string)
    ensures forall n :: multiset(RenderOrder(notes, filter))[n] == if Shown(filter, n) then multiset(notes)[n] else 0
    ensures var r := RenderOrder(notes, filter);
      forall i, j :: 0 <= i < j < |r| ==> (r[i].pinned || !r[j].pinned)
    ensures var r := RenderOrder(notes, filter);
      forall i, j :: 0 <= i < j < |r| && r[i].pinned == r[j].pinned ==> r[i].timestamp >= r[j].timestamp
  {
    SortNotesSorts(FilterNotes(notes, filter));
  }

  /** The category of a new note: the active filter, or "general" when the
      filter is "all" or missing. */
  function NewNoteType(activeFilter: string): string
  {
    if activeFilter == "all" || activeFilter == "" then "general" else activeFilter
  }

  /** `addNote`: a blank entry changes nothing; otherwise an unpinned note with
      the trimmed text is put in front of the list. */
  function AddNote(notes: seq<Note>, rawText: string, activeFilter: string, id: string, timestamp: int): (r: seq<Note>)
    ensures Text.Trim(rawText) == [] ==> r == notes
    ensures Text.Trim(rawText) != [] ==> |r| == |notes| + 1 && r[1..] == notes
    ensures Text.Trim(rawText) != [] ==>
      && r[0].id == id && r[0].timestamp == timestamp && r[0].text == Text.Trim(rawText)
      && !r[0].pinned && r[0].text != []
      && r[0].noteType == (if activeFilter == "all" || activeFilter == "" then "general" else activeFilter)
  {
    var text := Text.Trim(rawText);
    if text == [] then notes
    else [Note(id, timestamp, NewNoteType(activeFilter), text, false)] + notes
  }

  /** A note added while a category filter is active passes that filter and
      comes first in the filtered list, ahead of the older notes of its
      category. The display sort may still move pinned notes ahead of it. */
  lemma AddedNoteIsShown(notes: seq<Note>, rawText: string, activeFilter: string, id: string, timestamp: int)
    requires Text.Trim(rawText) != [] && activeFilter != ""
    ensures var r := AddNote(notes, rawText, activeFilter, id, timestamp);
      FilterNotes(r, activeFilter) == [r[0]] + FilterNotes(notes, activeFilter)
  {
    var r := AddNote(notes, rawText, activeFilter, id, timestamp);
    assert r == [r[0]] + notes;
  }

  /** The pin button: flip `pinned` on the notes with the given id. */
  function TogglePin(notes: seq<Note>, id: string): (r: seq<Note>)
    ensures |r| == |notes|
    ensures forall i :: 0 <= i < |r| ==>
      && r[i].id == notes[i].id && r[i].timestamp == notes[i].timestamp
      && r[i].noteType == notes[i].noteType && r[i].text == notes[i].text
      && r[i].pinned == (if notes[i].id == id then !notes[i].pinned else notes[i].pinned)
  {
    if notes == [] then []
    else
      var n := notes[0];
      [if n.id == id then n.(pinned := !n.pinned) else n] + TogglePin(notes[1..], id)
  }

  /** Pinning twice restores the list. */
  lemma TogglePinTwice(notes: seq<Note>, id: string)
    ensures TogglePin(TogglePin(notes, id), id) == notes
  {
    var r := TogglePin(TogglePin(notes, id), id);
    assert |r| == |notes|;
    forall i | 0 <= i < |r| ensures r[i] == notes[i] {
    }
  }

  /** The delete button, once confirmed: drop the notes with the given id. */
  function DeleteNote(notes: seq<Note>, id: string, confirmed: bool): (r: seq<Note>)
    ensures !confirmed ==> r == notes
    ensures confirmed ==> forall i :: 0 <= i < |r| ==> r[i].id != id && r[i] in notes
    ensures confirmed ==> forall n :: multiset(r)[n] == if n.id == id then 0 else multiset(notes)[n]
  {
    if confirmed then
      var keep := (n: Note) => n.id != id;
      FilterCounts(notes, keep);
      Seqs.Filter(notes, keep)
    else notes
  }

  /** Deleting keeps the survivors in order: deleting from a concatenation is
      deleting from each part. */
  lemma DeleteNoteKeepsOrder(a: seq<Note>, b: seq<Note>, id: string)
    ensures DeleteNote(a + b, id, true) == DeleteNote(a, id, true) + DeleteNote(b, id, true)
  {
    Seqs.FilterAppend(a, b, (n: Note) => n.id != id);
  }

  /** Deleting a note just added under a fresh id gives back the old list. */
  lemma DeleteUndoesAdd(notes: seq<Note>, rawText: string, activeFilter: string, id: string, timestamp: int)
    requires forall i :: 0 <= i < |notes| ==> notes[i].id != id
    ensures DeleteNote(AddNote(notes, rawText, activeFilter, id, timestamp), id, true) == notes
  {
    var r := AddNote(notes, rawText, activeFilter, id, timestamp);
    if Text.Trim(rawText) != [] {
      assert r == [r[0]] + notes;
    }
  }
}
