/**
 * The portfolio document store: the `UserData` document, the sample content a
 * new user starts with, and `StorageService`, which keeps the one document
 * under a single local-storage key and rewrites it whole on every change.
 *
 * The storage key and its JSON text are abstracted to a `Slot`: nothing
 * stored, a document that parses, or text that `JSON.parse` rejects.
 * Clocks and generated ids are parameters of the operations.
 */
module Storage {
  import opened Wrappers
  import Seqs

  datatype User = User(id: string, username: string, email: string, createdAt: int)

  datatype Project = Project(
    id: string, title: string, description: string, date: string,
    coverImage: string, images: seq<string>, createdAt: int, updatedAt: int)

  datatype TimelineEntry = TimelineEntry(
    id: string, title: string, description: string, date: string,
    image: string, createdAt: int)

  /** The three layouts of the about section: "vertical", "horizontal" and "carousel". */
  datatype AboutLayout = Vertical | Horizontal | AboutCarousel

  datatype AboutSection = AboutSection(content: string, image: string, layout: AboutLayout)

  /** The three layouts of the project and timeline lists. */
  datatype Layout = Grid | Masonry | Carousel

  datatype LayoutPreferences = LayoutPreferences(
    projectLayout: Layout, timelineLayout: Layout, showSampleContent: bool)

  datatype UserData = UserData(
    user: User, projects: seq<Project>, timeline: seq<TimelineEntry>,
    about: AboutSection, layoutPreferences: LayoutPreferences)

  /** The fields a caller supplies to `saveProject` (everything but id and timestamps). */
  datatype ProjectInput = ProjectInput(
    title: string, description: string, date: string, coverImage: string, images: seq<string>)

  /** The fields a caller supplies to `saveTimelineEntry`. */
  datatype EntryInput = EntryInput(title: string, description: string, date: string, image: string)

  /** A partial project: `None` is a key that the update object does not carry. */
  datatype ProjectUpdates = ProjectUpdates(
    title: Option<string>, description: Option<string>, date: Option<string>,
    coverImage: Option<string>, images: Option<seq<string>>)

  /** A partial timeline entry. */
  datatype EntryUpdates = EntryUpdates(
    title: Option<string>, description: Option<string>, date: Option<string>, image: Option<string>)

  /** A partial set of layout preferences. */
  datatype PreferenceUpdates = PreferenceUpdates(
    projectLayout: Option<Layout>, timelineLayout: Option<Layout>, showSampleContent: Option<bool>)

  /** What the storage key holds. */
  datatype Slot = Empty | Stored(data: UserData) | Corrupt

  /**
   * The errors the service throws: the two "not found" messages, "No user
   * logged in", a JSON parse error, and the two ways `uploadImage` rejects.
   */
  datatype StorageError =
    | NoUserLoggedIn | ProjectNotFound | TimelineEntryNotFound | ParseFailure
    | ConversionFailure | ReadFailure

  /** What the file reader reports for `readAsDataURL`: a string result, a non-string result, or an error. */
  datatype ReaderOutcome = TextResult(text: string) | OtherResult | ReaderError

  const StorageKey: string := "msjhatial-design-data"

  function ProjectId(p: Project): string { p.id }
  function EntryId(e: TimelineEntry): string { e.id }

  // ---------------------------------------------------------------------
  // Sample content. `loadedAt` is the clock reading when the module loaded.
  // ---------------------------------------------------------------------

  /** The common prefix of the sample images' addresses. */
  const Unsplash: string := "https://images.unsplash.com/photo-"

  /** The sample projects' and entries' descriptions. */
  const BrandDescription: string := "A comprehensive brand identity for a tech startup focusing on sustainable solutions."
  const MobileDescription: string := "User interface and experience design for a health and wellness mobile application."
  const GraduationDescription: string := "Completed my Bachelor of Arts in Graphic Design with honors."
  const ClientDescription: string := "Completed my first major client project with excellent feedback."

  const Day: int := 24 * 60 * 60 * 1000

  function SampleProjects(loadedAt: int): seq<Project>
  {
    [ Project("sample-project-1", "Brand Identity Design",
        BrandDescription,
        "2023-12-01", Unsplash + "1649972904349-6e44c42644a7",
        [ Unsplash + "1649972904349-6e44c42644a7",
          Unsplash + "1488590528505-98d2b5aba04b",
          Unsplash + "1518770660439-4636190af475" ],
        loadedAt - 7 * Day, loadedAt - 2 * Day),
      Project("sample-project-2", "UI/UX for Mobile App",
        MobileDescription,
        "2023-11-15", Unsplash + "1461749280684-dccba630e2f6",
        [ Unsplash + "1461749280684-dccba630e2f6",
          Unsplash + "1486312338219-ce68d2c6f44d" ],
        loadedAt - 14 * Day, loadedAt - 10 * Day) ]
  }

  function SampleTimeline(loadedAt: int): seq<TimelineEntry>
  {
    [ TimelineEntry("sample-timeline-1", "Graduated Design School",
        GraduationDescription,
        "2022-05-15", Unsplash + "1581091226825-a6a2a5aee158", loadedAt),
      TimelineEntry("sample-timeline-2", "First Client Project",
        ClientDescription,
        "2022-06-30", Unsplash + "1485827404703-89b55fcc595e", loadedAt) ]
  }

  const AboutIntro: string := "# About Me\n\nI am a passionate designer with a keen eye "
    + "for detail and a love for creating meaningful digital experiences. "
  const AboutExpertise: string := "With expertise in UI/UX design, branding, and visual "
    + "communication, I help businesses connect with their audiences "
    + "through thoughtful and intentional design.\n\n"
  const AboutApproach: string := "## My Approach\n\nI believe in user-centered design that "
    + "not only looks beautiful but also solves real problems. "
  const AboutProcess: string := "Every project starts with deep research and understanding "
    + "of the users' needs before moving into the creative process."

  const SampleAbout: AboutSection := AboutSection(
    AboutIntro + AboutExpertise + AboutApproach + AboutProcess,
    Unsplash + "1526374965328-7f61d4dc18c5",
    Vertical)

  const SamplePreferences: LayoutPreferences := LayoutPreferences(Grid, Masonry, true)

  function SampleData(loadedAt: int): UserData
  {
    UserData(User("sample-user", "Demo User", "demo@example.com", loadedAt),
      SampleProjects(loadedAt), SampleTimeline(loadedAt), SampleAbout, SamplePreferences)
  }

  // ---------------------------------------------------------------------
  // Clock readings as text, as a template string renders them.
  // ---------------------------------------------------------------------

  function NatToDecimal(n: nat): (s: string)
    ensures |s| >= 1 && forall i :: 0 <= i < |s| ==> '0' <= s[i] <= '9'
  {
    if n < 10 then ["0123456789"[n]] else NatToDecimal(n / 10) + ["0123456789"[n % 10]]
  }

  function IntToDecimal(i: int): string
  {
    if i < 0 then "-" + NatToDecimal(-i) else NatToDecimal(i)
  }

  // ---------------------------------------------------------------------
  // The document transitions behind each operation.
  // ---------------------------------------------------------------------

  /** `getCurrentUser`: the stored document, none, or the parse error. */
  function Read(slot: Slot): (r: Result<Option<UserData>, StorageError>)
    ensures r == Success(None) <==> slot == Empty
    ensures forall d :: r == Success(Some(d)) <==> slot == Stored(d)
    ensures r.Failure? <==> slot == Corrupt
    ensures r.Failure? ==> r.error == ParseFailure
  {
    match slot
    case Empty => Success(None)
    case Stored(d) => Success(Some(d))
    case Corrupt => Failure(ParseFailure)
  }

  /** The read every mutator starts with: a missing document is "No user logged in". */
  function RequireUser(slot: Slot): (r: Result<UserData, StorageError>)
    ensures r.Success? <==> slot.Stored?
    ensures r.Success? ==> r.value == slot.data
    ensures slot == Empty ==> r == Failure(NoUserLoggedIn)
    ensures slot == Corrupt ==> r == Failure(ParseFailure)
  {
    match Read(slot)
    case Failure(e) => Failure(e)
    case Success(None) => Failure(NoUserLoggedIn)
    case Success(Some(d)) => Success(d)
  }

  /** The document `createUser` builds: a new user on the sample content. */
  function NewUserData(username: string, email: string, now: int, sample: UserData): (d: UserData)
    ensures d.user.username == username && d.user.email == email && d.user.createdAt == now
    ensures d.user.id == "user-" + IntToDecimal(now)
    ensures d.projects == sample.projects && d.timeline == sample.timeline
    ensures d.about == sample.about && d.layoutPreferences == sample.layoutPreferences
  {
    UserData(User("user-" + IntToDecimal(now), username, email, now),
      sample.projects, sample.timeline, sample.about, sample.layoutPreferences)
  }

  /** A new user's document carries the two sample projects and entries and the default layouts. */
  lemma NewUserShape(username: string, email: string, now: int, loadedAt: int)
    ensures var d := NewUserData(username, email, now, SampleData(loadedAt));
      |d.projects| == 2 && |d.timeline| == 2
      && d.projects[0].id == "sample-project-1" && d.projects[1].id == "sample-project-2"
      && d.timeline[0].id == "sample-timeline-1" && d.timeline[1].id == "sample-timeline-2"
      && d.about == SampleAbout
      && d.layoutPreferences == LayoutPreferences(Grid, Masonry, true)
  {
  }

  function NewProject(input: ProjectInput, id: string, now: int): Project
  {
    Project(id, input.title, input.description, input.date, input.coverImage, input.images, now, now)
  }

  function NewEntry(input: EntryInput, id: string, now: int): TimelineEntry
  {
    TimelineEntry(id, input.title, input.description, input.date, input.image, now)
  }

  /** `unshift` of a project: the new project heads the list and nothing else changes. */
  function PrependProject(d: UserData, p: Project): (r: UserData)
    ensures |r.projects| == |d.projects| + 1
    ensures r.projects[0] == p && r.projects[1..] == d.projects
    ensures r.(projects := d.projects) == d
  {
    d.(projects := [p] + d.projects)
  }

  /** `unshift` of a timeline entry. */
  function PrependEntry(d: UserData, e: TimelineEntry): (r: UserData)
    ensures |r.timeline| == |d.timeline| + 1
    ensures r.timeline[0] == e && r.timeline[1..] == d.timeline
    ensures r.(timeline := d.timeline) == d
  {
    d.(timeline := [e] + d.timeline)
  }

  /** `{...p, ...updates, updatedAt: now}`. */
  function MergeProject(p: Project, u: ProjectUpdates, now: int): (r: Project)
    ensures r.id == p.id && r.createdAt == p.createdAt && r.updatedAt == now
    ensures r.title == (if u.title.Some? then u.title.value else p.title)
    ensures r.description == (if u.description.Some? then u.description.value else p.description)
    ensures r.date == (if u.date.Some? then u.date.value else p.date)
    ensures r.coverImage == (if u.coverImage.Some? then u.coverImage.value else p.coverImage)
    ensures r.images == (if u.images.Some? then u.images.value else p.images)
  {
    Project(p.id,
      if u.title.Some? then u.title.value else p.title,
      if u.description.Some? then u.description.value else p.description,
      if u.date.Some? then u.date.value else p.date,
      if u.coverImage.Some? then u.coverImage.value else p.coverImage,
      if u.images.Some? then u.images.value else p.images,
      p.createdAt, now)
  }

  /** `{...e, ...updates}`: no timestamp is touched. */
  function MergeEntry(e: TimelineEntry, u: EntryUpdates): (r: TimelineEntry)
    ensures r.id == e.id && r.createdAt == e.createdAt
    ensures r.title == (if u.title.Some? then u.title.value else e.title)
    ensures r.description == (if u.description.Some? then u.description.value else e.description)
    ensures r.date == (if u.date.Some? then u.date.value else e.date)
    ensures r.image == (if u.image.Some? then u.image.value else e.image)
    ensures u == EntryUpdates(None, None, None, None) ==> r == e
  {
    TimelineEntry(e.id,
      if u.title.Some? then u.title.value else e.title,
      if u.description.Some? then u.description.value else e.description,
      if u.date.Some? then u.date.value else e.date,
      if u.image.Some? then u.image.value else e.image,
      e.createdAt)
  }

  /**
   * The body of `updateProject` after the read: find the first project with
   * the id, merge the updates into it, store it back at the same index.
   */
  function ReplaceProject(d: UserData, id: string, u: ProjectUpdates, now: int): (r: Result<(UserData, Project), StorageError>)
    ensures r.Failure? <==> !Seqs.HasId(d.projects, ProjectId, id)
    ensures r.Failure? ==> r.error == ProjectNotFound
    ensures r.Success? ==>
      var (d', p) := r.value;
      exists k :: 0 <= k < |d.projects| && d.projects[k].id == id
        && (forall j :: 0 <= j < k ==> d.projects[j].id != id)
        && p == MergeProject(d.projects[k], u, now)
        && d'.projects == d.projects[k := p]
    ensures r.Success? ==> r.value.0.(projects := d.projects) == d
  {
    match Seqs.FindIndex(d.projects, ProjectId, id)
    case None => Failure(ProjectNotFound)
    case Some(k) =>
      var p := MergeProject(d.projects[k], u, now);
      Success((d.(projects := d.projects[k := p]), p))
  }

  /** The body of `updateTimelineEntry` after the read. */
  function ReplaceEntry(d: UserData, id: string, u: EntryUpdates): (r: Result<(UserData, TimelineEntry), StorageError>)
    ensures r.Failure? <==> !Seqs.HasId(d.timeline, EntryId, id)
    ensures r.Failure? ==> r.error == TimelineEntryNotFound
    ensures r.Success? ==>
      var (d', e) := r.value;
      exists k :: 0 <= k < |d.timeline| && d.timeline[k].id == id
        && (forall j :: 0 <= j < k ==> d.timeline[j].id != id)
        && e == MergeEntry(d.timeline[k], u)
        && d'.timeline == d.timeline[k := e]
    ensures r.Success? ==> r.value.0.(timeline := d.timeline) == d
  {
    match Seqs.FindIndex(d.timeline, EntryId, id)
    case None => Failure(TimelineEntryNotFound)
    case Some(k) =>
      var e := MergeEntry(d.timeline[k], u);
      Success((d.(timeline := d.timeline[k := e]), e))
  }

  /** `userData.projects.filter(p => p.id !== id)`. */
  function DropProject(d: UserData, id: string): (r: UserData)
    ensures forall p :: p in r.projects <==> p in d.projects && p.id != id
    ensures r.(projects := d.projects) == d
    ensures !Seqs.HasId(d.projects, ProjectId, id) ==> r == d
  {
    d.(projects := Seqs.RemoveId(d.projects, ProjectId, id))
  }

  /** `userData.timeline.filter(e => e.id !== id)`. */
  function DropEntry(d: UserData, id: string): (r: UserData)
    ensures forall e :: e in r.timeline <==> e in d.timeline && e.id != id
    ensures r.(timeline := d.timeline) == d
    ensures !Seqs.HasId(d.timeline, EntryId, id) ==> r == d
  {
    d.(timeline := Seqs.RemoveId(d.timeline, EntryId, id))
  }

  /** `{...prefs, ...updates}`: the keys given overwrite, the others stay. */
  function MergePreferences(prefs: LayoutPreferences, u: PreferenceUpdates): (r: LayoutPreferences)
    ensures r.projectLayout == (if u.projectLayout.Some? then u.projectLayout.value else prefs.projectLayout)
    ensures r.timelineLayout == (if u.timelineLayout.Some? then u.timelineLayout.value else prefs.timelineLayout)
    ensures r.showSampleContent == (if u.showSampleContent.Some? then u.showSampleContent.value else prefs.showSampleContent)
    ensures u == PreferenceUpdates(None, None, None) ==> r == prefs
  {
    LayoutPreferences(
      if u.projectLayout.Some? then u.projectLayout.value else prefs.projectLayout,
      if u.timelineLayout.Some? then u.timelineLayout.value else prefs.timelineLayout,
      if u.showSampleContent.Some? then u.showSampleContent.value else prefs.showSampleContent)
  }

  /** Merging the same update twice is merging it once. */
  lemma MergePreferencesIdempotent(prefs: LayoutPreferences, u: PreferenceUpdates)
    ensures MergePreferences(MergePreferences(prefs, u), u) == MergePreferences(prefs, u)
  {
  }

  /**
   * With distinct project ids, deleting a project that exists shortens the
   * list by one, and a second delete of the same id leaves the document as it is.
   */
  lemma DeleteProjectTwice(d: UserData, id: string)
    requires Seqs.DistinctIds(d.projects, ProjectId) && Seqs.HasId(d.projects, ProjectId, id)
    ensures |DropProject(d, id).projects| == |d.projects| - 1
    ensures DropProject(DropProject(d, id), id) == DropProject(d, id)
  {
    Seqs.RemovePresentDistinct(d.projects, ProjectId, id);
  }

  // ---------------------------------------------------------------------
  // Each mutator on the stored slot: read, fail if there is no document,
  // apply the transition, write the whole document back. The pair is the
  // returned value or thrown error, and the slot afterwards.
  // ---------------------------------------------------------------------

  /** `saveProject` on the slot. */
  function SaveProjectOn(slot: Slot, input: ProjectInput, id: string, now: int): (out: (Result<Project, StorageError>, Slot))
    ensures out.0.Failure? <==> !slot.Stored?
    ensures out.0.Failure? ==> out.0.error == RequireUser(slot).error && out.1 == slot
    ensures out.0.Success? ==>
      out.0.value == NewProject(input, id, now) && out.1 == Stored(PrependProject(slot.data, out.0.value))
  {
    match RequireUser(slot)
    case Failure(e) => (Failure(e), slot)
    case Success(d) =>
      var p := NewProject(input, id, now);
      (Success(p), Stored(PrependProject(d, p)))
  }

  /** `updateProject` on the slot. */
  function UpdateProjectOn(slot: Slot, id: string, u: ProjectUpdates, now: int): (out: (Result<Project, StorageError>, Slot))
    ensures out.0.Failure? <==> !slot.Stored? || !Seqs.HasId(slot.data.projects, ProjectId, id)
    ensures out.0.Failure? ==> out.1 == slot
    ensures !slot.Stored? ==> out.0.error == RequireUser(slot).error
    ensures slot.Stored? && out.0.Failure? ==> out.0.error == ProjectNotFound
    ensures out.0.Success? ==>
      var (d', p) := ReplaceProject(slot.data, id, u, now).value;
      out.0.value == p && out.1 == Stored(d')
  {
    match RequireUser(slot)
    case Failure(e) => (Failure(e), slot)
    case Success(d) =>
      match ReplaceProject(d, id, u, now)
      case Failure(e) => (Failure(e), slot)
      case Success((d', p)) => (Success(p), Stored(d'))
  }

  /** `deleteProject` on the slot: an absent id is not an error. */
  function DeleteProjectOn(slot: Slot, id: string): (out: (Result<(), StorageError>, Slot))
    ensures out.0.Failure? <==> !slot.Stored?
    ensures out.0.Failure? ==> out.0.error == RequireUser(slot).error && out.1 == slot
    ensures out.0.Success? ==> out.1 == Stored(DropProject(slot.data, id))
  {
    match RequireUser(slot)
    case Failure(e) => (Failure(e), slot)
    case Success(d) => (Success(()), Stored(DropProject(d, id)))
  }

  /** `saveTimelineEntry` on the slot. */
  function SaveEntryOn(slot: Slot, input: EntryInput, id: string, now: int): (out: (Result<TimelineEntry, StorageError>, Slot))
    ensures out.0.Failure? <==> !slot.Stored?
    ensures out.0.Failure? ==> out.0.error == RequireUser(slot).error && out.1 == slot
    ensures out.0.Success? ==>
      out.0.value == NewEntry(input, id, now) && out.1 == Stored(PrependEntry(slot.data, out.0.value))
  {
    match RequireUser(slot)
    case Failure(e) => (Failure(e), slot)
    case Success(d) =>
      var e := NewEntry(input, id, now);
      (Success(e), Stored(PrependEntry(d, e)))
  }

  /** `updateTimelineEntry` on the slot. */
  function UpdateEntryOn(slot: Slot, id: string, u: EntryUpdates): (out: (Result<TimelineEntry, StorageError>, Slot))
    ensures out.0.Failure? <==> !slot.Stored? || !Seqs.HasId(slot.data.timeline, EntryId, id)
    ensures out.0.Failure? ==> out.1 == slot
    ensures !slot.Stored? ==> out.0.error == RequireUser(slot).error
    ensures slot.Stored? && out.0.Failure? ==> out.0.error == TimelineEntryNotFound
    ensures out.0.Success? ==>
      var (d', e) := ReplaceEntry(slot.data, id, u).value;
      out.0.value == e && out.1 == Stored(d')
  {
    match RequireUser(slot)
    case Failure(e) => (Failure(e), slot)
    case Success(d) =>
      match ReplaceEntry(d, id, u)
      case Failure(e) => (Failure(e), slot)
      case Success((d', e)) => (Success(e), Stored(d'))
  }

  /** `deleteTimelineEntry` on the slot. */
  function DeleteEntryOn(slot: Slot, id: string): (out: (Result<(), StorageError>, Slot))
    ensures out.0.Failure? <==> !slot.Stored?
    ensures out.0.Failure? ==> out.0.error == RequireUser(slot).error && out.1 == slot
    ensures out.0.Success? ==> out.1 == Stored(DropEntry(slot.data, id))
  {
    match RequireUser(slot)
    case Failure(e) => (Failure(e), slot)
    case Success(d) => (Success(()), Stored(DropEntry(d, id)))
  }

  /** `updateAbout` on the slot: only `about` changes. */
  function UpdateAboutOn(slot: Slot, about: AboutSection): (out: (Result<(), StorageError>, Slot))
    ensures out.0.Failure? <==> !slot.Stored?
    ensures out.0.Failure? ==> out.0.error == RequireUser(slot).error && out.1 == slot
    ensures out.0.Success? ==>
      out.1.Stored? && out.1.data.about == about && out.1.data.(about := slot.data.about) == slot.data
  {
    match RequireUser(slot)
    case Failure(e) => (Failure(e), slot)
    case Success(d) => (Success(()), Stored(d.(about := about)))
  }

  /** `updateLayoutPreferences` on the slot: only the preferences change, by a shallow merge. */
  function UpdatePreferencesOn(slot: Slot, u: PreferenceUpdates): (out: (Result<(), StorageError>, Slot))
    ensures out.0.Failure? <==> !slot.Stored?
    ensures out.0.Failure? ==> out.0.error == RequireUser(slot).error && out.1 == slot
    ensures out.0.Success? ==>
      && out.1.Stored?
      && out.1.data.layoutPreferences == MergePreferences(slot.data.layoutPreferences, u)
      && out.1.data.(layoutPreferences := slot.data.layoutPreferences) == slot.data
  {
    match RequireUser(slot)
    case Failure(e) => (Failure(e), slot)
    case Success(d) => (Success(()), Stored(d.(layoutPreferences := MergePreferences(d.layoutPreferences, u))))
  }

  /**
   * `uploadImage`: the data URL the reader produced, or the rejection
   * "Failed to convert image to base64" for a non-string result, or the
   * reader's own error.
   */
  function UploadImage(read: ReaderOutcome): (r: Result<string, StorageError>)
    ensures r.Success? <==> read.TextResult?
    ensures r.Success? ==> r.value == read.text
    ensures read.OtherResult? ==> r == Failure(ConversionFailure)
    ensures read.ReaderError? ==> r == Failure(ReadFailure)
  {
    match read
    case TextResult(text) => Success(text)
    case OtherResult => Failure(ConversionFailure)
    case ReaderError => Failure(ReadFailure)
  }

  /** With no document stored, every mutator throws "No user logged in" and writes nothing. */
  lemma NoUserNoWrite(input: ProjectInput, entry: EntryInput, id: string, now: int,
                      pu: ProjectUpdates, eu: EntryUpdates, about: AboutSection, lu: PreferenceUpdates)
    ensures SaveProjectOn(Empty, input, id, now) == (Failure(NoUserLoggedIn), Empty)
    ensures UpdateProjectOn(Empty, id, pu, now) == (Failure(NoUserLoggedIn), Empty)
    ensures DeleteProjectOn(Empty, id) == (Failure(NoUserLoggedIn), Empty)
    ensures SaveEntryOn(Empty, entry, id, now) == (Failure(NoUserLoggedIn), Empty)
    ensures UpdateEntryOn(Empty, id, eu) == (Failure(NoUserLoggedIn), Empty)
    ensures DeleteEntryOn(Empty, id) == (Failure(NoUserLoggedIn), Empty)
    ensures UpdateAboutOn(Empty, about) == (Failure(NoUserLoggedIn), Empty)
    ensures UpdatePreferencesOn(Empty, lu) == (Failure(NoUserLoggedIn), Empty)
  {
  }

  /** The single `UserData` document under the storage key, read and rewritten whole. */
  class StorageService {
    /** What `localStorage` holds under the key. */
    var slot: Slot
    /** The module-level `sampleData`, evaluated once when the module loads. */
    const sample: UserData

    constructor (initial: Slot, loadedAt: int)
      ensures slot == initial && sample == SampleData(loadedAt)
    {
      slot := initial;
      sample := SampleData(loadedAt);
    }

    /** `getCurrentUser`. */
    method GetCurrentUser() returns (r: Result<Option<UserData>, StorageError>)
      ensures r == Read(slot)
    {
      match slot
      case Empty => r := Success(None);
      case Stored(d) => r := Success(Some(d));
      case Corrupt => r := Failure(ParseFailure);
    }

    /** The read every mutator starts with, throwing "No user logged in" on an empty key. */
    method RequireCurrentUser() returns (r: Result<UserData, StorageError>)
      ensures r == RequireUser(slot)
    {
      var current := GetCurrentUser();
      if current.Failure? {
        r := Failure(current.error);
      } else if current.value.None? {
        r := Failure(NoUserLoggedIn);
      } else {
        r := Success(current.value.value);
      }
    }

    /** `createUser`: overwrites whatever was stored, unconditionally. */
    method CreateUser(username: string, email: string, now: int) returns (d: UserData)
      modifies this
      ensures d == NewUserData(username, email, now, sample)
      ensures slot == Stored(d)
    {
      d := UserData(User("user-" + IntToDecimal(now), username, email, now),
        sample.projects, sample.timeline, sample.about, sample.layoutPreferences);
      SaveUserData(d);
    }

    /** `saveUserData`. */
    method SaveUserData(d: UserData)
      modifies this
      ensures slot == Stored(d)
    {
      slot := Stored(d);
    }

    /** `clearUserData`: removes the key; harmless when it is already gone. */
    method ClearUserData()
      modifies this
      ensures slot == Empty
    {
      slot := Empty;
    }

    /** `saveProject`, with `generateId()` as `id` and `Date.now()` as `now`. */
    method SaveProject(input: ProjectInput, id: string, now: int) returns (r: Result<Project, StorageError>)
      modifies this
      ensures (r, slot) == SaveProjectOn(old(slot), input, id, now)
    {
      var current := RequireCurrentUser();
      if current.Failure? {
        return Failure(current.error);
      }
      var d := current.value;
      var p := Project(id, input.title, input.description, input.date, input.coverImage, input.images, now, now);
      d := d.(projects := [p] + d.projects);
      SaveUserData(d);
      r := Success(p);
    }

    /** `updateProject`: replaces only the first project with the id. */
    method UpdateProject(id: string, u: ProjectUpdates, now: int) returns (r: Result<Project, StorageError>)
      modifies this
      ensures (r, slot) == UpdateProjectOn(old(slot), id, u, now)
    {
      var current := RequireCurrentUser();
      if current.Failure? {
        return Failure(current.error);
      }
      var d := current.value;
      var k := Seqs.FindIndex(d.projects, ProjectId, id);
      if k.None? {
        return Failure(ProjectNotFound);
      }
      var p := MergeProject(d.projects[k.value], u, now);
      d := d.(projects := d.projects[k.value := p]);
      SaveUserData(d);
      r := Success(p);
    }

    /** `deleteProject`: removes every project with the id. */
    method DeleteProject(id: string) returns (r: Result<(), StorageError>)
      modifies this
      ensures (r, slot) == DeleteProjectOn(old(slot), id)
    {
      var current := RequireCurrentUser();
      if current.Failure? {
        return Failure(current.error);
      }
      var d := current.value;
      d := d.(projects := Seqs.RemoveId(d.projects, ProjectId, id));
      SaveUserData(d);
      r := Success(());
    }

    /** `saveTimelineEntry`. */
    method SaveTimelineEntry(input: EntryInput, id: string, now: int) returns (r: Result<TimelineEntry, StorageError>)
      modifies this
      ensures (r, slot) == SaveEntryOn(old(slot), input, id, now)
    {
      var current := RequireCurrentUser();
      if current.Failure? {
        return Failure(current.error);
      }
      var d := current.value;
      var e := TimelineEntry(id, input.title, input.description, input.date, input.image, now);
      d := d.(timeline := [e] + d.timeline);
      SaveUserData(d);
      r := Success(e);
    }

    /** `updateTimelineEntry`: replaces only the first entry with the id, stamping nothing. */
    method UpdateTimelineEntry(id: string, u: EntryUpdates) returns (r: Result<TimelineEntry, StorageError>)
      modifies this
      ensures (r, slot) == UpdateEntryOn(old(slot), id, u)
    {
      var current := RequireCurrentUser();
      if current.Failure? {
        return Failure(current.error);
      }
      var d := current.value;
      var k := Seqs.FindIndex(d.timeline, EntryId, id);
      if k.None? {
        return Failure(TimelineEntryNotFound);
      }
      var e := MergeEntry(d.timeline[k.value], u);
      d := d.(timeline := d.timeline[k.value := e]);
      SaveUserData(d);
      r := Success(e);
    }

    /** `deleteTimelineEntry`. */
    method DeleteTimelineEntry(id: string) returns (r: Result<(), StorageError>)
      modifies this
      ensures (r, slot) == DeleteEntryOn(old(slot), id)
    {
      var current := RequireCurrentUser();
      if current.Failure? {
        return Failure(current.error);
      }
      var d := current.value;
      d := d.(timeline := Seqs.RemoveId(d.timeline, EntryId, id));
      SaveUserData(d);
      r := Success(());
    }

    /** `updateAbout`. */
    method UpdateAbout(about: AboutSection) returns (r: Result<(), StorageError>)
      modifies this
      ensures (r, slot) == UpdateAboutOn(old(slot), about)
    {
      var current := RequireCurrentUser();
      if current.Failure? {
        return Failure(current.error);
      }
      var d := current.value;
      d := d.(about := about);
      SaveUserData(d);
      r := Success(());
    }

    /** `updateLayoutPreferences`. */
    method UpdateLayoutPreferences(u: PreferenceUpdates) returns (r: Result<(), StorageError>)
      modifies this
      ensures (r, slot) == UpdatePreferencesOn(old(slot), u)
    {
      var current := RequireCurrentUser();
      if current.Failure? {
        return Failure(current.error);
      }
      var d := current.value;
      d := d.(layoutPreferences := MergePreferences(d.layoutPreferences, u));
      SaveUserData(d);
      r := Success(());
    }
  }

  /**
   * Saving a document and reading it back yields that document; after a
   * clear the read yields none, and clearing again changes nothing.
   */
  method SaveReadClearScenario(s: StorageService, d: UserData)
      returns (back: Result<Option<UserData>, StorageError>,
               afterClear: Result<Option<UserData>, StorageError>,
               afterSecondClear: Result<Option<UserData>, StorageError>)
    modifies s
    ensures back == Success(Some(d))
    ensures afterClear == Success(None) && afterSecondClear == Success(None)
    ensures s.slot == Empty
  {
    s.SaveUserData(d);
    back := s.GetCurrentUser();
    s.ClearUserData();
    afterClear := s.GetCurrentUser();
    s.ClearUserData();
    afterSecondClear := s.GetCurrentUser();
  }
}
