/**
 * The journal: one entry per calendar day, stored in a map. The view edits
 * a draft of today's entry field by field and writes it into the map only
 * on save.
 */
module Journal {
  import opened Wrappers
  import Seqs
  import Store

  /** A calendar day as `toISOString().split('T')[0]` writes it; supplied by the caller. */
  type Date = string

  /** An image as the data URL the file reader produced. */
  type Image = string

  datatype Entry = Entry(title: string, content: string, images: seq<Image>, mood: string)

  /** The `journal_entries` value. */
  type Entries = map<Date, Entry>

  /** The draft for a day that has no stored entry. */
  const BlankEntry := Entry("", "", [], "neutral")

  /** The six mood buttons. */
  const Moods: seq<string> := ["\U{1F60A}", "\U{1F610}", "\U{1F614}", "\U{1F621}", "\U{1F634}", "\U{1F929}"]

  /** The draft the view starts with: today's stored entry, or the blank one. */
  function InitialDraft(entries: Entries, today: Date): (d: Entry)
    ensures today in entries ==> d == entries[today]
    ensures today !in entries ==> d == BlankEntry
  {
    if today in entries then entries[today] else BlankEntry
  }

  /** `handleSave`: today's entry becomes the draft; every other day keeps its entry. */
  function Save(entries: Entries, today: Date, draft: Entry): (r: Entries)
    ensures r.Keys == entries.Keys + {today}
    ensures r[today] == draft
    ensures forall d :: d in entries && d != today ==> r[d] == entries[d]
  {
    entries[today := draft]
  }

  /** The file reader's result appended to the draft's images. */
  function WithImage(e: Entry, img: Image): (r: Entry)
    ensures r.images == e.images + [img]
    ensures r.title == e.title && r.content == e.content && r.mood == e.mood
  {
    e.(images := e.images + [img])
  }

  /** `removeImage`: the image at index goes; an index outside the list removes nothing. */
  function WithoutImage(e: Entry, index: int): (r: Entry)
    ensures 0 <= index < |e.images| ==> r.images == e.images[..index] + e.images[index + 1..]
    ensures !(0 <= index < |e.images|) ==> r.images == e.images
    ensures r.title == e.title && r.content == e.content && r.mood == e.mood
  {
    Seqs.DropPositionSpec(e.images, index, 0);
    e.(images := Seqs.DropPosition(e.images, index, 0))
  }

  /** Saving the same draft twice leaves the map saving it once leaves. */
  lemma SaveIdempotent(entries: Entries, today: Date, draft: Entry)
    ensures Save(Save(entries, today, draft), today, draft) == Save(entries, today, draft)
  {
  }

  /** Saving the draft the view started with does not change a day that already had an entry. */
  lemma SaveUneditedDraft(entries: Entries, today: Date)
    requires today in entries
    ensures Save(entries, today, InitialDraft(entries, today)) == entries
  {
  }

  /** Adding an image and removing it at its index restores the draft. */
  lemma AddThenRemoveImage(e: Entry, img: Image)
    ensures WithoutImage(WithImage(e, img), |e.images|) == e
  {
    var added := WithImage(e, img);
    assert added.images[..|e.images|] == e.images;
  }

  /** The Journal view: the stored entries, today's draft and the "Saved!" indicator. */
  class JournalPage {
    var entries: Entries
    var currentEntry: Entry
    var isSaved: bool

    /** Mounting: the store starts from its stored copy or `{}`, the draft from today's entry. */
    constructor (stored: Option<Entries>, today: Date)
      ensures entries == Store.Initial(stored, map[])
      ensures currentEntry == InitialDraft(entries, today)
      ensures !isSaved
    {
      var loaded := Store.Initial(stored, map[]);
      entries := loaded;
      currentEntry := InitialDraft(loaded, today);
      isSaved := false;
    }

    /** `handleSave`, writing through the setter with a function of the previous map. */
    method HandleSave(today: Date)
      modifies this
      ensures entries == Save(old(entries), today, old(currentEntry))
      ensures currentEntry == old(currentEntry) && isSaved
    {
      var draft := currentEntry;
      entries := Store.Next(entries, Store.Update((prev: Entries) => prev[today := draft]));
      isSaved := true;
    }

    /** The delayed reset of the "Saved!" indicator. */
    method SavedTimerElapsed()
      modifies this
      ensures !isSaved
      ensures entries == old(entries) && currentEntry == old(currentEntry)
    {
      isSaved := false;
    }

    /** `handleImageUpload` once the reader is done: no file, no change; otherwise one image at the end. */
    method HandleImageUpload(file: Option<Image>)
      modifies this
      ensures file.None? ==> currentEntry == old(currentEntry)
      ensures file.Some? ==> currentEntry == WithImage(old(currentEntry), file.value)
      ensures entries == old(entries) && isSaved == old(isSaved)
    {
      if file.Some? {
        var img := file.value;
        currentEntry := Store.Next(currentEntry, Store.Update((prev: Entry) => prev.(images := prev.images + [img])));
      }
    }

    method RemoveImage(index: int)
      modifies this
      ensures currentEntry == WithoutImage(old(currentEntry), index)
      ensures entries == old(entries) && isSaved == old(isSaved)
    {
      currentEntry := Store.Next(currentEntry, Store.Update((prev: Entry) => WithoutImage(prev, index)));
    }

    /**
     * A click on the k-th mood button: the picker offers only the listed moods;
     * only the mood of the draft changes, and nothing is stored.
     */
    method SetMood(k: nat)
      requires k < |Moods|
      modifies this
      ensures currentEntry == old(currentEntry).(mood := Moods[k]) && currentEntry.mood in Moods
      ensures entries == old(entries) && isSaved == old(isSaved)
    {
      var mood := Moods[k];
      currentEntry := Store.Next(currentEntry, Store.Update((prev: Entry) => prev.(mood := mood)));
    }

    method SetTitle(title: string)
      modifies this
      ensures currentEntry == old(currentEntry).(title := title)
      ensures entries == old(entries) && isSaved == old(isSaved)
    {
      currentEntry := Store.Next(currentEntry, Store.Update((prev: Entry) => prev.(title := title)));
    }

    method SetContent(content: string)
      modifies this
      ensures currentEntry == old(currentEntry).(content := content)
      ensures entries == old(entries) && isSaved == old(isSaved)
    {
      currentEntry := Store.Next(currentEntry, Store.Update((prev: Entry) => prev.(content := content)));
    }
  }
}
