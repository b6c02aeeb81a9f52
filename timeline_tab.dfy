/**
 * The timeline tab of the dashboard: a newest-first copy of the stored
 * timeline, the form that adds or edits an entry, and the local list updates
 * that follow each storage call.
 */
module TimelineDashboard {
  import opened Wrappers
  import opened Storage
  import Seqs
  import Chronology

  /** The guard of `handleSubmit`: title, description, date and image are all required. */
  predicate MissingEntryFields(title: string, description: string, date: string, image: string)
  {
    title == "" || description == "" || date == "" || image == ""
  }

  /** The edit the local list applies to the entry being edited. */
  function LocalEntryEdit(title: string, description: string, date: string, image: string): TimelineEntry -> TimelineEntry
  {
    (e: TimelineEntry) => e.(title := title, description := description, date := date, image := image)
  }

  /** The updates `handleSubmit` sends to `updateTimelineEntry`. */
  function EntryFormUpdates(title: string, description: string, date: string, image: string): EntryUpdates
  {
    EntryUpdates(Some(title), Some(description), Some(date), Some(image))
  }

  /** With distinct entry ids, the local edit and the stored update agree. */
  lemma LocalEntryEditMatchesStorage(d: UserData, id: string, title: string, description: string,
                                     date: string, image: string)
    requires Seqs.DistinctIds(d.timeline, EntryId) && Seqs.HasId(d.timeline, EntryId, id)
    ensures ReplaceEntry(d, id, EntryFormUpdates(title, description, date, image)).Success?
    ensures ReplaceEntry(d, id, EntryFormUpdates(title, description, date, image)).value.0.timeline
         == Seqs.MapId(d.timeline, EntryId, id, LocalEntryEdit(title, description, date, image))
  {
    var u := EntryFormUpdates(title, description, date, image);
    var edit := LocalEntryEdit(title, description, date, image);
    var found := Seqs.FindIndex(d.timeline, EntryId, id);
    assert found.Some?;
    var k := found.value;
    var stored := d.timeline[k := MergeEntry(d.timeline[k], u)];
    assert ReplaceEntry(d, id, u).value.0.timeline == stored;
    var local := Seqs.MapId(d.timeline, EntryId, id, edit);
    forall i | 0 <= i < |d.timeline| ensures stored[i] == local[i] {
      if i == k {
        assert local[i] == edit(d.timeline[k]);
      } else {
        assert EntryId(d.timeline[i]) != EntryId(d.timeline[k]);
      }
    }
  }

  /**
   * Adding an entry older than the head of the loaded list prepends it all
   * the same, and the local list is then no longer newest first.
   */
  lemma PrependedOlderEntryUnsorts(e: TimelineEntry, entries: seq<TimelineEntry>, dateKey: string -> int)
    requires |entries| > 0 && dateKey(e.date) < dateKey(entries[0].date)
    ensures !Chronology.NewestFirst([e] + entries, dateKey)
  {
    var s := [e] + entries;
    assert s[0] == e && s[1] == entries[0];
  }

  class TimelineTab {
    var entries: seq<TimelineEntry>
    var isDialogOpen: bool
    var isDeleteDialogOpen: bool
    var editMode: bool
    var currentEntry: Option<TimelineEntry>
    var entryToDelete: Option<string>
    var title: string
    var description: string
    var date: string
    var image: string
    const storage: StorageService
    /** The time value of a date string, as `new Date(date).getTime()` gives it. */
    const dateKey: string -> int

    constructor (storage: StorageService, dateKey: string -> int)
      ensures this.storage == storage && this.dateKey == dateKey
      ensures entries == [] && !isDialogOpen && !isDeleteDialogOpen && !editMode
      ensures currentEntry == None && entryToDelete == None
      ensures title == "" && description == "" && date == "" && image == ""
    {
      this.storage := storage;
      this.dateKey := dateKey;
      entries := [];
      isDialogOpen, isDeleteDialogOpen, editMode := false, false, false;
      currentEntry, entryToDelete := None, None;
      title, description, date, image := "", "", "", "";
    }

    predicate FormIsReset()
      reads this
    {
      title == "" && description == "" && date == "" && image == "" && currentEntry == None && !editMode
    }

    /** The effect on the context document: a sorted copy, newest first, of its timeline. */
    method Load(userData: Option<UserData>)
      modifies this`entries
      ensures userData.Some? ==> entries == Chronology.SortNewestFirst(userData.value.timeline, dateKey)
      ensures userData.Some? ==>
        Chronology.NewestFirst(entries, dateKey) && multiset(entries) == multiset(userData.value.timeline)
      ensures userData.None? ==> entries == old(entries)
    {
      if userData.Some? {
        entries := Chronology.SortNewestFirst(userData.value.timeline, dateKey);
      }
    }

    /** `resetForm`. */
    method ResetForm()
      modifies this`title, this`description, this`date, this`image, this`currentEntry, this`editMode
      ensures FormIsReset()
    {
      title, description, date, image := "", "", "", "";
      currentEntry := None;
      editMode := false;
    }

    /** The "Add Entry" buttons: an empty form in a newly opened dialog. */
    method OpenNewEntry()
      modifies this`title, this`description, this`date, this`image, this`currentEntry,
               this`editMode, this`isDialogOpen
      ensures FormIsReset() && isDialogOpen
    {
      ResetForm();
      isDialogOpen := true;
    }

    /** `handleEditEntry`. */
    method EditEntry(e: TimelineEntry)
      modifies this`title, this`description, this`date, this`image, this`currentEntry,
               this`editMode, this`isDialogOpen
      ensures currentEntry == Some(e) && editMode && isDialogOpen
      ensures title == e.title && description == e.description && date == e.date && image == e.image
    {
      currentEntry := Some(e);
      title, description, date, image := e.title, e.description, e.date, e.image;
      editMode := true;
      isDialogOpen := true;
    }

    /** `handleDeleteConfirm`. */
    method ConfirmDelete(id: string)
      modifies this`entryToDelete, this`isDeleteDialogOpen
      ensures entryToDelete == Some(id) && isDeleteDialogOpen
    {
      entryToDelete := Some(id);
      isDeleteDialogOpen := true;
    }

    /** `handleDeleteEntry`: delete in storage, then filter the local list if that did not throw. */
    method DeleteEntry()
      modifies this`entries, this`isDeleteDialogOpen, this`entryToDelete, storage
      ensures old(entryToDelete).None? || old(entryToDelete).value == "" ==>
        entries == old(entries) && isDeleteDialogOpen == old(isDeleteDialogOpen)
        && entryToDelete == old(entryToDelete) && storage.slot == old(storage.slot)
      ensures old(entryToDelete).Some? && old(entryToDelete).value != "" ==>
        var id := old(entryToDelete).value;
        var (r, slot') := DeleteEntryOn(old(storage.slot), id);
        storage.slot == slot'
        && entries == (if r.Success? then Seqs.RemoveId(old(entries), EntryId, id) else old(entries))
        && !isDeleteDialogOpen && entryToDelete == None
    {
      if entryToDelete.None? || entryToDelete.value == "" {
        return;
      }
      var id := entryToDelete.value;
      var r := storage.DeleteTimelineEntry(id);
      if r.Success? {
        entries := Seqs.RemoveId(entries, EntryId, id);
      }
      isDeleteDialogOpen := false;
      entryToDelete := None;
    }

    /**
     * `handleSubmit`. A missing field changes nothing. In edit mode the entry is
     * updated in storage and in the local list; otherwise a new entry with id
     * `newId` is saved and prepended locally, so the local list need not stay
     * newest first. On a thrown error the tab is left as it was.
     */
    method Submit(newId: string, now: int)
      modifies this, storage
      ensures MissingEntryFields(old(title), old(description), old(date), old(image)) ==>
        unchanged(this) && storage.slot == old(storage.slot)
      ensures !MissingEntryFields(old(title), old(description), old(date), old(image)) ==>
        if old(editMode) && old(currentEntry).Some? then
          var id := old(currentEntry).value.id;
          var (r, slot') := UpdateEntryOn(old(storage.slot), id,
            EntryFormUpdates(old(title), old(description), old(date), old(image)));
          storage.slot == slot'
          && (r.Success? ==>
                entries == Seqs.MapId(old(entries), EntryId, id,
                  LocalEntryEdit(old(title), old(description), old(date), old(image)))
                && !isDialogOpen && FormIsReset())
          && (r.Failure? ==> unchanged(this))
        else
          var (r, slot') := SaveEntryOn(old(storage.slot),
            EntryInput(old(title), old(description), old(date), old(image)), newId, now);
          storage.slot == slot'
          && (r.Success? ==> entries == [r.value] + old(entries) && !isDialogOpen && FormIsReset())
          && (r.Failure? ==> unchanged(this))
      ensures isDeleteDialogOpen == old(isDeleteDialogOpen) && entryToDelete == old(entryToDelete)
    {
      if MissingEntryFields(title, description, date, image) {
        return;
      }
      if editMode && currentEntry.Some? {
        SubmitEdit(currentEntry.value.id);
      } else {
        SubmitNew(newId, now);
      }
    }

    /** The edit branch of `handleSubmit`. */
    method SubmitEdit(id: string)
      modifies this, storage
      ensures
        var (r, slot') := UpdateEntryOn(old(storage.slot), id,
          EntryFormUpdates(old(title), old(description), old(date), old(image)));
        storage.slot == slot'
        && (r.Success? ==>
              entries == Seqs.MapId(old(entries), EntryId, id,
                LocalEntryEdit(old(title), old(description), old(date), old(image)))
              && !isDialogOpen && FormIsReset())
        && (r.Failure? ==> unchanged(this))
      ensures isDeleteDialogOpen == old(isDeleteDialogOpen) && entryToDelete == old(entryToDelete)
    {
      var edit := LocalEntryEdit(title, description, date, image);
      var r := storage.UpdateTimelineEntry(id, EntryFormUpdates(title, description, date, image));
      if r.Failure? {
        return;
      }
      entries := Seqs.MapId(entries, EntryId, id, edit);
      isDialogOpen := false;
      ResetForm();
    }

    /** The add branch of `handleSubmit`, with `newId` from `generateId`. */
    method SubmitNew(newId: string, now: int)
      modifies this, storage
      ensures
        var (r, slot') := SaveEntryOn(old(storage.slot),
          EntryInput(old(title), old(description), old(date), old(image)), newId, now);
        storage.slot == slot'
        && (r.Success? ==> entries == [r.value] + old(entries) && !isDialogOpen && FormIsReset())
        && (r.Failure? ==> unchanged(this))
      ensures isDeleteDialogOpen == old(isDeleteDialogOpen) && entryToDelete == old(entryToDelete)
    {
      var r := storage.SaveTimelineEntry(EntryInput(title, description, date, image), newId, now);
      if r.Failure? {
        return;
      }
      entries := [r.value] + entries;
      isDialogOpen := false;
      ResetForm();
    }
  }
}
