/**
 * The public portfolio page: the session's projects as a grid or in
 * columns, and a videos tab that always shows three fixed sample videos.
 */
module PortfolioPage {
  import opened Wrappers
  import opened Storage
  import opened ListPage
  import Gallery

  datatype PortfolioTab = ProjectsTab | VideosTab

  /** The one embed address all three videos share, written around its host. */
  const YoutubeEmbed: string := "https://www." + "youtube.com" + "/embed/dQw4w9WgXcQ"

  /** The sample videos' descriptions. */
  const ShowcaseDescription: string := "A video presentation of our recent brand identity project, showcasing the design process and final deliverables."
  const ProcessDescription: string := "A walkthrough of our design process for mobile applications, from wireframing to final implementation."
  const TestimonialDescription: string := "Our client shares their experience working with us on their recent rebrand project."

  /** The videos tab's list; it does not come from storage. */
  const PortfolioVideos: seq<Gallery.VideoItem> := [
    Gallery.VideoItem("video-1", "Brand Identity Showcase",
      ShowcaseDescription,
      YoutubeEmbed, "https://images.unsplash.com/photo-1611162616475-46b635cb6868", false),
    Gallery.VideoItem("video-2", "UI/UX Design Process",
      ProcessDescription,
      YoutubeEmbed, "https://images.unsplash.com/photo-1626785774573-4b799315345d", false),
    Gallery.VideoItem("video-3", "Client Testimonial",
      TestimonialDescription,
      YoutubeEmbed, "https://images.unsplash.com/photo-1596443686812-2f45229eebc3", false)
  ]

  /** The videos tab's list: the same three videos whatever the session holds. */
  function ShownVideos(userData: Option<UserData>): (r: seq<Gallery.VideoItem>)
    ensures |r| == 3 && r[0].id == "video-1" && r[1].id == "video-2" && r[2].id == "video-3"
    ensures forall i :: 0 <= i < |r| ==> r[i].embedUrl == YoutubeEmbed
  {
    PortfolioVideos
  }

  /** Every portfolio video is a YouTube embed and plays in an `<iframe>`. */
  lemma PortfolioVideosPlayInFrame()
    ensures forall i :: 0 <= i < |PortfolioVideos| ==> Gallery.PlayerFor(PortfolioVideos[i]) == Gallery.IFrame
  {
    forall i | 0 <= i < |PortfolioVideos|
      ensures Gallery.PlayerFor(PortfolioVideos[i]) == Gallery.IFrame
    {
      EmbedPlaysInFrame(PortfolioVideos[i]);
    }
  }

  lemma EmbedPlaysInFrame(v: Gallery.VideoItem)
    requires v.embedUrl == YoutubeEmbed
    ensures Gallery.PlayerFor(v) == Gallery.IFrame
  {
    Gallery.YouTubeUrlPlaysInFrame(v, "https://www.", "/embed/dQw4w9WgXcQ");
  }

  class PortfolioView {
    var projects: seq<Project>
    var layout: ListLayout
    var activeTab: PortfolioTab

    constructor ()
      ensures projects == [] && layout == GridView && activeTab == ProjectsTab
    {
      projects := [];
      layout := GridView;
      activeTab := ProjectsTab;
    }

    /** The effect on the session document: projects in stored order. */
    method Load(userData: Option<UserData>)
      modifies this`projects, this`layout
      ensures userData.Some? ==>
        projects == userData.value.projects
        && layout == DisplayLayout(userData.value.layoutPreferences.projectLayout)
      ensures userData.None? ==> projects == old(projects) && layout == old(layout)
    {
      if userData.Some? {
        projects := userData.value.projects;
        layout := DisplayLayout(userData.value.layoutPreferences.projectLayout);
      }
    }

    /** The grid and masonry buttons, shown on the projects tab. */
    method SetLayout(l: ListLayout)
      requires activeTab == ProjectsTab
      modifies this`layout
      ensures layout == l
    {
      layout := l;
    }

    method SetActiveTab(t: PortfolioTab)
      modifies this`activeTab
      ensures activeTab == t
    {
      activeTab := t;
    }
  }
}
