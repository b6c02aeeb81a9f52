/**
 * The public timeline page: the session's entries sorted newest first, shown
 * as a grid or in columns.
 */
module TimelinePage {
  import opened Wrappers
  import opened Storage
  import Chronology
  import opened ListPage

  class TimelineView {
    var entries: seq<TimelineEntry>
    var layout: ListLayout
    const dateKey: string -> int

    constructor (dateKey: string -> int)
      ensures this.dateKey == dateKey && entries == [] && layout == MasonryView
    {
      this.dateKey := dateKey;
      entries := [];
      layout := MasonryView;
    }

    /** The effect on the session document. */
    method Load(userData: Option<UserData>)
      modifies this`entries, this`layout
      ensures userData.Some? ==>
        && Chronology.NewestFirst(entries, dateKey)
        && multiset(entries) == multiset(userData.value.timeline)
        && entries == Chronology.SortNewestFirst(userData.value.timeline, dateKey)
        && layout == DisplayLayout(userData.value.layoutPreferences.timelineLayout)
      ensures userData.None? ==> entries == old(entries) && layout == old(layout)
    {
      if userData.Some? {
        entries := Chronology.SortNewestFirst(userData.value.timeline, dateKey);
        layout := DisplayLayout(userData.value.layoutPreferences.timelineLayout);
      }
    }

    /** The grid and masonry buttons. */
    method SetLayout(l: ListLayout)
      modifies this`layout
      ensures layout == l
    {
      layout := l;
    }
  }
}
