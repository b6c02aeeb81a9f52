/**
 * The about tab of the dashboard: a local copy of the about section, edited
 * field by field and saved both to storage and to the session.
 */
module AboutDashboard {
  import opened Wrappers
  import opened Storage
  import opened Auth

  /** The section the tab shows before the session's one is loaded. */
  const BlankAbout: AboutSection := AboutSection("", "", Vertical)

  /**
   * Session and storage after `handleSave` as written: `updateAbout` puts the
   * section into the stored document, then `updateUserData` writes the
   * session's copy with the section over it. A failed read (no document, or
   * an unreadable one) is caught and changes nothing.
   */
  function SaveAboutOn(session: Option<UserData>, slot: Slot, about: AboutSection): (out: (Option<UserData>, Slot))
    ensures !slot.Stored? ==> out == (session, slot)
    ensures slot.Stored? && session.None? ==> out == (None, UpdateAboutOn(slot, about).1)
    ensures slot.Stored? && session.Some? ==>
      out.0 == Some(session.value.(about := about)) && out.1 == Stored(session.value.(about := about))
  {
    var (r, written) := UpdateAboutOn(slot, about);
    if r.Failure? then (session, slot)
    else if session.Some? then
      var d := session.value.(about := about);
      (Some(d), Stored(d))
    else (session, written)
  }

  /**
   * A project saved since login is in storage but not in the session, so
   * saving the about section drops it.
   */
  lemma AboutSaveDropsNewProject(d: UserData, p: Project, about: AboutSection)
    requires p !in d.projects
    ensures var out := SaveAboutOn(Some(d), Stored(PrependProject(d, p)), about);
      out.1.Stored? && p !in out.1.data.projects
  {
  }

  /**
   * The save as evidently intended: `updateAbout` alone writes storage, and
   * the session is given the document it wrote.
   */
  function SaveAboutFreshOn(session: Option<UserData>, slot: Slot, about: AboutSection): (out: (Option<UserData>, Slot))
    ensures !slot.Stored? ==> out == (session, slot)
    ensures slot.Stored? ==> out.1 == UpdateAboutOn(slot, about).1 && out.0 == Some(out.1.data)
  {
    var (r, written) := UpdateAboutOn(slot, about);
    if r.Failure? then (session, slot) else (Some(written.data), written)
  }

  /** With the intended save, storage keeps everything but the section, and the session agrees with it. */
  lemma FreshAboutSaveKeepsNewProject(d: UserData, p: Project, about: AboutSection)
    ensures var out := SaveAboutFreshOn(Some(d), Stored(PrependProject(d, p)), about);
      out.1.Stored? && p in out.1.data.projects && out.1.data.about == about && out.0 == Some(out.1.data)
  {
    var out := SaveAboutFreshOn(Some(d), Stored(PrependProject(d, p)), about);
    assert out.1.data.projects == PrependProject(d, p).projects;
    assert out.1.data.projects[0] == p;
  }

  class AboutTab {
    var about: AboutSection
    var preview: bool
    var modalOpen: bool
    const auth: AuthProvider

    constructor (auth: AuthProvider)
      ensures this.auth == auth && about == BlankAbout && !preview && !modalOpen
    {
      this.auth := auth;
      about := BlankAbout;
      preview, modalOpen := false, false;
    }

    /** The effect on the session document: adopt its about section. */
    method Load()
      modifies this`about
      ensures auth.userData.Some? ==> about == auth.userData.value.about
      ensures auth.userData.None? ==> about == old(about)
    {
      if auth.userData.Some? {
        about := auth.userData.value.about;
      }
    }

    /** `handleContentChange`. */
    method SetContent(content: string)
      modifies this`about
      ensures about == old(about).(content := content)
    {
      about := about.(content := content);
    }

    /** `handleImageUploaded`. */
    method SetImage(image: string)
      modifies this`about
      ensures about == old(about).(image := image)
    {
      about := about.(image := image);
    }

    /** `handleLayoutChange`. */
    method SetLayout(layout: AboutLayout)
      modifies this`about
      ensures about == old(about).(layout := layout)
    {
      about := about.(layout := layout);
    }

    method TogglePreview()
      modifies this`preview
      ensures preview == !old(preview)
    {
      preview := !preview;
    }

    /** The preview modal's open state: the "Preview Profile" button opens it, the modal's own close sets it. */
    method SetModalOpen(open: bool)
      modifies this`modalOpen
      ensures modalOpen == open
    {
      modalOpen := open;
    }

    /** `handleSave` as written. */
    method Save()
      modifies auth, auth.storage
      ensures (auth.userData, auth.storage.slot) == SaveAboutOn(old(auth.userData), old(auth.storage.slot), about)
      ensures auth.isLoading == old(auth.isLoading)
    {
      var r := auth.storage.UpdateAbout(about);
      if r.Failure? {
        return;
      }
      if auth.userData.Some? {
        var updated := auth.userData.value.(about := about);
        auth.UpdateUserData(updated);
      }
    }

    /** The save as evidently intended: the session takes the document `updateAbout` wrote. */
    method SaveFresh()
      modifies auth, auth.storage
      ensures (auth.userData, auth.storage.slot) == SaveAboutFreshOn(old(auth.userData), old(auth.storage.slot), about)
      ensures auth.isLoading == old(auth.isLoading)
    {
      var r := auth.storage.UpdateAbout(about);
      if r.Failure? {
        return;
      }
      auth.UpdateUserData(auth.storage.slot.data);
    }
  }
}
