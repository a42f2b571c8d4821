/**
 * Notes: one ordered list, newest first, with pinning, deletion, a
 * case-insensitive search and a display order that puts pinned notes first.
 */
module Notes {
  import opened Wrappers
  import opened Text
  import Seqs
  import Store

  /** `Date.now().toString()` at creation; supplied by the caller. */
  type NoteId = string

  datatype Note = Note(id: NoteId, title: string, content: string, pinned: bool, createdAt: string, color: string)

  /** The modal's `currentNote` buffer. */
  datatype Draft = Draft(title: string, content: string)

  const EmptyDraft := Draft("", "")

  /** Every new note gets this colour class. */
  const DefaultColor := "bg-yellow-100 dark:bg-yellow-900/20"

  /** `addNote`'s guard: refused only when both title and content are blank. */
  predicate Accepts(d: Draft) {
    Trim(d.title) != "" || Trim(d.content) != ""
  }

  /** `addNote`: an accepted draft becomes an unpinned note at the front, text kept untrimmed. */
  function AddNoteTo(notes: seq<Note>, d: Draft, id: NoteId, createdAt: string): (r: seq<Note>)
    ensures !Accepts(d) ==> r == notes
    ensures Accepts(d) ==> && |r| == |notes| + 1 && r[1..] == notes
                           && r[0] == Note(id, d.title, d.content, false, createdAt, DefaultColor)
  {
    if !Accepts(d) then notes
    else [Note(id, d.title, d.content, false, createdAt, DefaultColor)] + notes
  }

  /** `deleteNote`'s filter. */
  function Without(notes: seq<Note>, id: NoteId): (r: seq<Note>)
    ensures forall i :: 0 <= i < |r| ==> r[i].id != id && r[i] in notes
    ensures forall i :: 0 <= i < |notes| && notes[i].id != id ==> notes[i] in r
  {
    Seqs.Filter(notes, (n: Note) => n.id != id)
  }

  function FlipPinIfId(n: Note, id: NoteId): Note {
    if n.id == id then n.(pinned := !n.pinned) else n
  }

  /** `togglePin`'s map: flips `pinned` on exactly the notes carrying id. */
  function PinToggled(notes: seq<Note>, id: NoteId): (r: seq<Note>)
    ensures |r| == |notes|
    ensures forall i :: 0 <= i < |notes| ==>
      r[i] == if notes[i].id == id then notes[i].(pinned := !notes[i].pinned) else notes[i]
  {
    Seqs.Map(notes, (n: Note) => FlipPinIfId(n, id))
  }

  /** The search test: the lower-cased query occurs in the lower-cased title or content. */
  predicate MatchesQuery(n: Note, query: string) {
    Includes(Lower(n.title), Lower(query)) || Includes(Lower(n.content), Lower(query))
  }

  /** `filteredNotes`. */
  function Filtered(notes: seq<Note>, query: string): (r: seq<Note>)
    ensures forall i :: 0 <= i < |r| ==> r[i] in notes && MatchesQuery(r[i], query)
    ensures forall i :: 0 <= i < |notes| && MatchesQuery(notes[i], query) ==> notes[i] in r
  {
    Seqs.Filter(notes, (n: Note) => MatchesQuery(n, query))
  }

  predicate IsPinned(n: Note) {
    n.pinned
  }

  predicate IsUnpinned(n: Note) {
    !n.pinned
  }

  /** `displayNotes`: the pinned notes, then the others. */
  function Display(notes: seq<Note>): (r: seq<Note>)
    ensures |r| == |notes|
    ensures multiset(r) == multiset(notes)
    ensures forall i, j :: 0 <= i < j < |r| && r[j].pinned ==> r[i].pinned
  {
    Seqs.FilterPartition(notes, IsPinned, IsUnpinned);
    Seqs.Filter(notes, IsPinned) + Seqs.Filter(notes, IsUnpinned)
  }

  /** Searching keeps the matching notes in their stored order. */
  lemma FilteredIsSubsequence(notes: seq<Note>, query: string)
    ensures Seqs.IsSubsequence(Filtered(notes, query), notes)
  {
    Seqs.FilterIsSubsequence(notes, (n: Note) => MatchesQuery(n, query));
  }

  /** An empty query keeps every note. */
  lemma EmptyQueryKeepsAll(notes: seq<Note>)
    ensures Filtered(notes, "") == notes
  {
    forall i | 0 <= i < |notes|
      ensures MatchesQuery(notes[i], "")
    {
      IncludesTrivial(Lower(notes[i].title));
    }
    Seqs.FilterKeepsAll(notes, (n: Note) => MatchesQuery(n, ""));
  }

  /** The query is compared case-insensitively: upper and lower case queries find the same notes. */
  lemma {:induction false} SearchIgnoresCase(notes: seq<Note>, q1: string, q2: string)
    requires Lower(q1) == Lower(q2)
    ensures Filtered(notes, q1) == Filtered(notes, q2)
    decreases |notes|
  {
    if |notes| > 0 {
      SearchIgnoresCase(notes[1..], q1, q2);
    }
  }

  /**
   * Within each group the display keeps the order of its input: the pinned
   * notes of the display are the pinned notes of the input, in order, and
   * likewise for the others.
   */
  lemma DisplayKeepsGroupOrder(notes: seq<Note>)
    ensures Seqs.Filter(Display(notes), IsPinned) == Seqs.Filter(notes, IsPinned)
    ensures Seqs.Filter(Display(notes), IsUnpinned) == Seqs.Filter(notes, IsUnpinned)
  {
    var pinned := Seqs.Filter(notes, IsPinned);
    var others := Seqs.Filter(notes, IsUnpinned);
    Seqs.FilterConcat(pinned, others, IsPinned);
    Seqs.FilterConcat(pinned, others, IsUnpinned);
    Seqs.FilterIdempotent(notes, IsPinned);
    Seqs.FilterIdempotent(notes, IsUnpinned);
    Seqs.FilterDropsAll(pinned, IsUnpinned);
    Seqs.FilterDropsAll(others, IsPinned);
  }

  /** Deleting an id no note carries leaves the list as it is. */
  lemma DeleteAbsentIsNoop(notes: seq<Note>, id: NoteId)
    requires forall i :: 0 <= i < |notes| ==> notes[i].id != id
    ensures Without(notes, id) == notes
  {
    Seqs.FilterKeepsAll(notes, (n: Note) => n.id != id);
  }

  /** Deletion keeps the surviving notes in their stored order. */
  lemma DeleteKeepsOrder(notes: seq<Note>, id: NoteId)
    ensures Seqs.IsSubsequence(Without(notes, id), notes)
  {
    Seqs.FilterIsSubsequence(notes, (n: Note) => n.id != id);
  }

  /** Adding a note with a fresh id and deleting that id restores the list. */
  lemma AddThenDeleteRestores(notes: seq<Note>, d: Draft, id: NoteId, createdAt: string)
    requires forall i :: 0 <= i < |notes| ==> notes[i].id != id
    ensures Without(AddNoteTo(notes, d, id, createdAt), id) == notes
  {
    var note := Note(id, d.title, d.content, false, createdAt, DefaultColor);
    if Accepts(d) {
      Seqs.FilterConcat([note], notes, (n: Note) => n.id != id);
    }
    DeleteAbsentIsNoop(notes, id);
  }

  /** Pinning twice gives back the list. */
  lemma PinInvolution(notes: seq<Note>, id: NoteId)
    ensures PinToggled(PinToggled(notes, id), id) == notes
  {
    var twice := PinToggled(PinToggled(notes, id), id);
    assert forall i :: 0 <= i < |notes| ==> twice[i] == notes[i];
  }

  /** A draft with only a title, or only content, is accepted. */
  lemma OneNonBlankFieldSuffices(d: Draft)
    requires !IsBlank(d.title) || !IsBlank(d.content)
    ensures Accepts(d)
  {
  }

  /** The Notes view: the stored list, the search box and the new-note modal. */
  class NotesPage {
    var notes: seq<Note>
    var searchQuery: string
    var isModalOpen: bool
    var currentNote: Draft

    constructor (stored: Option<seq<Note>>)
      ensures notes == Store.Initial(stored, [])
      ensures searchQuery == "" && !isModalOpen && currentNote == EmptyDraft
    {
      notes := Store.Initial(stored, []);
      searchQuery := "";
      isModalOpen := false;
      currentNote := EmptyDraft;
    }

    /**
     * `filteredNotes`, a read-only projection of the stored list: exactly the
     * notes the search box lets through, and all of them when the box is empty.
     */
    function FilteredNotes(): (r: seq<Note>)
      reads this
      ensures forall i :: 0 <= i < |r| ==> r[i] in notes && MatchesQuery(r[i], searchQuery)
      ensures forall i :: 0 <= i < |notes| && MatchesQuery(notes[i], searchQuery) ==> notes[i] in r
      ensures searchQuery == "" ==> r == notes
    {
      assert searchQuery == "" ==> Filtered(notes, searchQuery) == notes by {
        if searchQuery == "" { EmptyQueryKeepsAll(notes); }
      }
      Filtered(notes, searchQuery)
    }

    /** `displayNotes`, a read-only projection: the search result, pinned notes first. */
    function DisplayNotes(): (r: seq<Note>)
      reads this
      ensures multiset(r) == multiset(FilteredNotes())
      ensures forall i, j :: 0 <= i < j < |r| && r[j].pinned ==> r[i].pinned
    {
      Display(FilteredNotes())
    }

    method SetSearchQuery(q: string)
      modifies this
      ensures searchQuery == q
      ensures notes == old(notes) && isModalOpen == old(isModalOpen) && currentNote == old(currentNote)
    {
      searchQuery := q;
    }

    method OpenModal()
      modifies this
      ensures isModalOpen
      ensures notes == old(notes) && searchQuery == old(searchQuery) && currentNote == old(currentNote)
    {
      isModalOpen := true;
    }

    method CloseModal()
      modifies this
      ensures !isModalOpen
      ensures notes == old(notes) && searchQuery == old(searchQuery) && currentNote == old(currentNote)
    {
      isModalOpen := false;
    }

    /** The modal's title and content inputs. */
    method EditDraft(title: string, content: string)
      modifies this
      ensures currentNote == Draft(title, content)
      ensures notes == old(notes) && searchQuery == old(searchQuery) && isModalOpen == old(isModalOpen)
    {
      currentNote := Draft(title, content);
    }

    /** `addNote`: a refused draft changes nothing; an accepted one is stored, the draft cleared and the modal closed. */
    method AddNote(id: NoteId, createdAt: string)
      modifies this
      ensures notes == AddNoteTo(old(notes), old(currentNote), id, createdAt)
      ensures !Accepts(old(currentNote)) ==> currentNote == old(currentNote) && isModalOpen == old(isModalOpen)
      ensures Accepts(old(currentNote)) ==> currentNote == EmptyDraft && !isModalOpen
      ensures searchQuery == old(searchQuery)
    {
      if Trim(currentNote.title) == "" && Trim(currentNote.content) == "" {
        return;
      }
      var newNote := Note(id, currentNote.title, currentNote.content, false, createdAt, DefaultColor);
      notes := Store.Next(notes, Store.Replace([newNote] + notes));
      currentNote := EmptyDraft;
      isModalOpen := false;
    }

    method DeleteNote(id: NoteId)
      modifies this
      ensures notes == Without(old(notes), id)
      ensures searchQuery == old(searchQuery) && isModalOpen == old(isModalOpen) && currentNote == old(currentNote)
    {
      notes := Store.Next(notes, Store.Replace(Without(notes, id)));
    }

    method TogglePin(id: NoteId)
      modifies this
      ensures notes == PinToggled(old(notes), id)
      ensures searchQuery == old(searchQuery) && isModalOpen == old(isModalOpen) && currentNote == old(currentNote)
    {
      notes := Store.Next(notes, Store.Replace(PinToggled(notes, id)));
    }
  }
}
