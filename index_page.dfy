/**
 * The home page: the hero links, which depend on the session, and for a
 * logged-in visitor the previews of the about section, the first three
 * projects and the three newest timeline entries.
 */
module Home {
  import opened Wrappers
  import opened Storage
  import Seqs
  import Chronology

  const PreviewCount: nat := 3

  /** The projects previewed: the first three in list order, or none without a document. */
  function RecentProjects(userData: Option<UserData>): (r: seq<Project>)
    ensures userData.None? ==> r == []
    ensures userData.Some? ==>
      && |r| == (if |userData.value.projects| < 3 then |userData.value.projects| else 3)
      && r == userData.value.projects[..|r|]
  {
    match userData
    case None => []
    case Some(d) => Seqs.Take(d.projects, PreviewCount)
  }

  /** The entries previewed: a sorted copy cut to three, or none without a document. */
  function RecentEntries(userData: Option<UserData>, dateKey: string -> int): (r: seq<TimelineEntry>)
    ensures userData.None? ==> r == []
    ensures userData.Some? ==>
      && |r| == (if |userData.value.timeline| < 3 then |userData.value.timeline| else 3)
      && Chronology.NewestFirst(r, dateKey)
      && multiset(r) <= multiset(userData.value.timeline)
  {
    match userData
    case None => []
    case Some(d) =>
      var sorted := Chronology.SortNewestFirst(d.timeline, dateKey);
      var r := Seqs.Take(sorted, PreviewCount);
      assert sorted == r + sorted[|r|..];
      assert multiset(sorted) == multiset(r) + multiset(sorted[|r|..]);
      r
  }

  /** No entry left out of the preview is newer than one shown. */
  lemma RecentEntriesAreNewest(d: UserData, dateKey: string -> int)
    ensures var shown := RecentEntries(Some(d), dateKey);
      forall x, y :: x in shown && y in multiset(d.timeline) - multiset(shown) ==> dateKey(x.date) >= dateKey(y.date)
  {
    Chronology.NewestPrefix(d.timeline, dateKey, PreviewCount);
  }

  /** The previews section needs both a session and a document. */
  predicate ShowPreviews(isAuthenticated: bool, userData: Option<UserData>)
  {
    isAuthenticated && userData.Some?
  }

  /** The about preview needs some content or an image. */
  predicate ShowAboutPreview(userData: Option<UserData>)
  {
    userData.Some? && (userData.value.about.content != "" || userData.value.about.image != "")
  }

  /** The two hero links: the dashboard or the login page, then the portfolio. */
  function HeroLinks(isAuthenticated: bool): (r: seq<string>)
    ensures |r| == 2 && r[1] == "/portfolio"
    ensures r[0] == (if isAuthenticated then "/dashboard" else "/login")
  {
    if isAuthenticated then ["/dashboard", "/portfolio"] else ["/login", "/portfolio"]
  }

  /** A new user's home page previews the two sample projects and, with its about text, the about section. */
  lemma NewUserHome(username: string, email: string, now: int, loadedAt: int)
    ensures var d := NewUserData(username, email, now, SampleData(loadedAt));
      RecentProjects(Some(d)) == d.projects && ShowAboutPreview(Some(d))
  {
    NewUserShape(username, email, now, loadedAt);
  }
}
