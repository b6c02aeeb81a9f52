/**
 * What the timeline and portfolio pages share: the two layouts a list page
 * can show, the carousel preference falling back to the grid, and the login
 * prompt shown without a session.
 */
module ListPage {
  import opened Wrappers
  import opened Storage

  /** The layouts a list page offers. */
  datatype ListLayout = GridView | MasonryView

  /** A stored layout preference as a page layout: the carousel is shown as a grid. */
  function DisplayLayout(l: Layout): (r: ListLayout)
    ensures r == MasonryView <==> l == Masonry
  {
    match l
    case Grid => GridView
    case Masonry => MasonryView
    case Carousel => GridView
  }

  /** The prompt shows when there is neither a document nor a session. */
  predicate ShowLoginPrompt(userData: Option<UserData>, isAuthenticated: bool)
  {
    userData.None? && !isAuthenticated
  }

  /** With the session's own flag, the prompt shows exactly when there is no document. */
  lemma LoginPromptIffNoDocument(userData: Option<UserData>)
    ensures ShowLoginPrompt(userData, userData.Some?) <==> userData.None?
  {
  }
}
