/**
 * The settings tab of the dashboard: account name and email, the two list
 * layouts and the sample-content switch, loaded from the session's document
 * and saved back as a rebuilt document; and the reset, which logs out.
 */
module SettingsDashboard {
  import opened Wrappers
  import opened Storage
  import opened Auth

  /** The `settings` state. */
  datatype Settings = Settings(
    username: string, email: string,
    projectLayout: Layout, timelineLayout: Layout, showSampleContent: bool)

  const DefaultSettings: Settings := Settings("", "", Grid, Masonry, true)

  /** The settings the effect reads out of a document. */
  function SettingsOf(d: UserData): Settings
  {
    Settings(d.user.username, d.user.email,
      d.layoutPreferences.projectLayout, d.layoutPreferences.timelineLayout,
      d.layoutPreferences.showSampleContent)
  }

  /**
   * The document `handleSaveSettings` builds: name and email replaced inside
   * the user, the preferences replaced as a whole, everything else kept.
   */
  function ApplySettings(d: UserData, s: Settings): (r: UserData)
    ensures r.projects == d.projects && r.timeline == d.timeline && r.about == d.about
    ensures r.user.id == d.user.id && r.user.createdAt == d.user.createdAt
    ensures SettingsOf(r) == s
  {
    d.(user := d.user.(username := s.username, email := s.email),
       layoutPreferences := LayoutPreferences(s.projectLayout, s.timelineLayout, s.showSampleContent))
  }

  /** Saving the settings just loaded from a document rebuilds that same document. */
  lemma ApplyOwnSettings(d: UserData)
    ensures ApplySettings(d, SettingsOf(d)) == d
  {
  }

  /** A second save replaces the first one's settings entirely. */
  lemma ApplySettingsTwice(d: UserData, s: Settings, t: Settings)
    ensures ApplySettings(ApplySettings(d, s), t) == ApplySettings(d, t)
  {
  }

  /**
   * The storage slot after `handleSaveSettings` as written: the session's
   * copy of the document, with the settings applied, replaces whatever
   * storage holds; without a session nothing is written.
   */
  function SaveSettingsOn(session: Option<UserData>, slot: Slot, s: Settings): (r: Slot)
    ensures session.None? ==> r == slot
    ensures session.Some? ==> r.Stored? && r.data.projects == session.value.projects
    ensures session.Some? ==> r.data.timeline == session.value.timeline && SettingsOf(r.data) == s
  {
    match session
    case None => slot
    case Some(d) => Stored(ApplySettings(d, s))
  }

  /**
   * The project tab writes a new project to storage only, so the session
   * still holds the document without it; a settings save then writes the
   * session's copy back and the project is gone.
   */
  lemma SettingsSaveDropsNewProject(d: UserData, p: Project, s: Settings)
    requires p !in d.projects
    ensures var after := SaveSettingsOn(Some(d), Stored(PrependProject(d, p)), s);
      after.Stored? && p !in after.data.projects
  {
  }

  /**
   * The save as evidently intended: the settings are applied to the document
   * storage holds now, and the session is given the result. An unreadable or
   * missing document, or no session, changes nothing.
   */
  function SaveSettingsFreshOn(session: Option<UserData>, slot: Slot, s: Settings): (out: (Option<UserData>, Slot))
    ensures session.None? || !slot.Stored? ==> out == (session, slot)
    ensures session.Some? && slot.Stored? ==>
      && out.1.Stored? && out.0 == Some(out.1.data)
      && out.1.data.projects == slot.data.projects && out.1.data.timeline == slot.data.timeline
      && out.1.data.about == slot.data.about && SettingsOf(out.1.data) == s
  {
    if session.Some? && slot.Stored? then
      var d := ApplySettings(slot.data, s);
      (Some(d), Stored(d))
    else (session, slot)
  }

  /** With the intended save, a project saved since login survives. */
  lemma FreshSettingsSaveKeepsNewProject(d: UserData, p: Project, s: Settings)
    ensures var out := SaveSettingsFreshOn(Some(d), Stored(PrependProject(d, p)), s);
      out.1.Stored? && p in out.1.data.projects && out.0 == Some(out.1.data)
  {
    var out := SaveSettingsFreshOn(Some(d), Stored(PrependProject(d, p)), s);
    assert out.1.data.projects[0] == p;
  }

  class SettingsTab {
    var settings: Settings
    var isResetDialogOpen: bool
    const auth: AuthProvider

    constructor (auth: AuthProvider)
      ensures this.auth == auth && settings == DefaultSettings && !isResetDialogOpen
    {
      this.auth := auth;
      settings := DefaultSettings;
      isResetDialogOpen := false;
    }

    /** The effect on the session document. */
    method Load()
      modifies this`settings
      ensures auth.userData.Some? ==> settings == SettingsOf(auth.userData.value)
      ensures auth.userData.None? ==> settings == old(settings)
    {
      if auth.userData.Some? {
        settings := SettingsOf(auth.userData.value);
      }
    }

    method SetUsername(username: string)
      modifies this`settings
      ensures settings == old(settings).(username := username)
    {
      settings := settings.(username := username);
    }

    method SetEmail(email: string)
      modifies this`settings
      ensures settings == old(settings).(email := email)
    {
      settings := settings.(email := email);
    }

    method SetProjectLayout(layout: Layout)
      modifies this`settings
      ensures settings == old(settings).(projectLayout := layout)
    {
      settings := settings.(projectLayout := layout);
    }

    method SetTimelineLayout(layout: Layout)
      modifies this`settings
      ensures settings == old(settings).(timelineLayout := layout)
    {
      settings := settings.(timelineLayout := layout);
    }

    method SetShowSampleContent(show: bool)
      modifies this`settings
      ensures settings == old(settings).(showSampleContent := show)
    {
      settings := settings.(showSampleContent := show);
    }

    /** `handleSaveSettings` as written: storage only; the session keeps its copy. */
    method SaveSettings()
      modifies auth.storage
      ensures auth.storage.slot == SaveSettingsOn(auth.userData, old(auth.storage.slot), settings)
    {
      if auth.userData.Some? {
        auth.storage.SaveUserData(ApplySettings(auth.userData.value, settings));
      }
    }

    /** The save as evidently intended: re-read storage, apply, and give the session the result. */
    method SaveSettingsFresh()
      modifies auth, auth.storage
      ensures (auth.userData, auth.storage.slot) == SaveSettingsFreshOn(old(auth.userData), old(auth.storage.slot), settings)
      ensures auth.isLoading == old(auth.isLoading)
    {
      if auth.userData.None? {
        return;
      }
      var current := auth.storage.GetCurrentUser();
      if current.Failure? || current.value.None? {
        return;
      }
      auth.UpdateUserData(ApplySettings(current.value.value, settings));
    }

    method OpenResetDialog()
      modifies this`isResetDialogOpen
      ensures isResetDialogOpen
    {
      isResetDialogOpen := true;
    }

    /** `handleResetPortfolio`: log out, which removes the stored document, and close the dialog. */
    method ResetPortfolio()
      modifies auth, auth.storage, this`isResetDialogOpen
      ensures auth.userData == None && auth.storage.slot == Empty && !isResetDialogOpen
    {
      auth.Logout();
      isResetDialogOpen := false;
    }
  }
}
