/** The public projects section: the project list read from local storage
    (with two built-in projects as the fallback), the category filter, the
    split into featured and other projects, and what each card shows. */
module Projects {
  import opened Common
  import opened Browser
  import opened Entities
  import opened Display

  type Project = Record<ProjectData>

  /** The category key that disables the filter. */
  const AllCategory := "All"

  /** The filter buttons, in order. */
  const Categories := ["All", "ML", "AI", "Data Science", "Deep Learning"]

  /** The picture a card shows when its project has no image. */
  const FallbackImage := "https://images.unsplash.com/photo-1677442136019-21780ecad995?w=500&h=300&fit=crop"

  /** The link placeholder that hides a demo or code button. */
  const PlaceholderUrl := "#"

  /** The built-in projects shown while nothing is saved or the saved list
      does not parse. */
  const DefaultProjects: seq<Project> := [
    Record("1", ProjectData(
      "Neural Style Transfer",
      "AI-powered artistic style transformation using deep neural networks",
      "Advanced implementation of neural style transfer using TensorFlow and PyTorch. Combines content and style images to create unique artistic renditions with real-time processing capabilities.",
      "Deep Learning",
      ["Python", "TensorFlow", "PyTorch", "OpenCV", "Flask"],
      "https://images.unsplash.com/photo-1541961017774-22349e4a1262?w=500&h=300&fit=crop",
      "#", "#", true)),
    Record("2", ProjectData(
      "Predictive Analytics Dashboard",
      "Real-time business intelligence with machine learning predictions",
      "Comprehensive dashboard for business analytics featuring predictive models, real-time data visualization, and automated reporting systems built with modern web technologies.",
      "Data Science",
      ["React", "D3.js", "Python", "Scikit-learn", "PostgreSQL"],
      "https://images.unsplash.com/photo-1551288049-bebda4e38f71?w=500&h=300&fit=crop",
      "#", "#", true))
  ]

  function InCategory(category: string): Project -> bool {
    (p: Project) => p.data.category == category
  }

  function IsFeatured(): Project -> bool {
    (p: Project) => p.data.featured
  }

  function NotFeatured(): Project -> bool {
    (p: Project) => !p.data.featured
  }

  /** `filteredProjects`: every project under "All", otherwise exactly the
      projects of the selected category, in their stored order. */
  function Filtered(projects: seq<Project>, selected: string): (r: seq<Project>)
    ensures selected == AllCategory ==> r == projects
    ensures selected != AllCategory ==>
      forall p :: p in r <==> p in projects && p.data.category == selected
    ensures |r| <= |projects|
  {
    if selected == AllCategory then projects
    else
      FilterMembers(projects, InCategory(selected));
      Filter(projects, InCategory(selected))
  }

  /** `featuredProjects`. */
  function Featured(filtered: seq<Project>): (r: seq<Project>)
    ensures forall p :: p in r <==> p in filtered && p.data.featured
  {
    FilterMembers(filtered, IsFeatured());
    Filter(filtered, IsFeatured())
  }

  /** `otherProjects`. */
  function Others(filtered: seq<Project>): (r: seq<Project>)
    ensures forall p :: p in r <==> p in filtered && !p.data.featured
  {
    FilterMembers(filtered, NotFeatured());
    Filter(filtered, NotFeatured())
  }

  /** The two grids together show every filtered project exactly as often
      as it is listed: nothing is lost and nothing is shown twice. */
  lemma FeaturedOthersPartition(filtered: seq<Project>)
    ensures multiset(Featured(filtered)) + multiset(Others(filtered)) == multiset(filtered)
    ensures |Featured(filtered)| + |Others(filtered)| == |filtered|
  {
    FilterPartition(filtered, IsFeatured(), NotFeatured());
  }

  /** The "no results" message shows exactly when neither grid has a card,
      which is when no stored project is in the selected category (or,
      under "All", when nothing is stored). */
  lemma NoResultsIff(projects: seq<Project>, selected: string)
    ensures |Filtered(projects, selected)| == 0 <==>
      |Featured(Filtered(projects, selected))| == 0 && |Others(Filtered(projects, selected))| == 0
    ensures |Filtered(projects, selected)| == 0 <==>
      forall p :: p in projects ==> selected != AllCategory && p.data.category != selected
  {
    var f := Filtered(projects, selected);
    FeaturedOthersPartition(f);
    if |f| > 0 {
      assert f[0] in f;
    }
    if selected != AllCategory && |f| == 0 {
      forall p | p in projects ensures p.data.category != selected {
        assert p !in f;
      }
    }
    if |projects| > 0 {
      assert projects[0] in projects;
    }
  }

  /** `url && url !== '#'`: whether a demo or code button is shown. */
  predicate ShowsLink(url: string) {
    url != "" && url != PlaceholderUrl
  }

  /** What one card shows. */
  datatype CardView = CardView(image: string, text: string, demoButton: bool, githubButton: bool, badges: TechView)

  /** A featured card: the image or the fallback picture, the long
      description while the pointer is over the card, and a button for each
      real link. */
  function FeaturedCard(p: Project, hovered: Option<string>): (v: CardView)
    ensures p.data.imageUrl != "" ==> v.image == p.data.imageUrl
    ensures p.data.imageUrl == "" ==> v.image == FallbackImage
    ensures hovered == Some(p.id) ==> v.text == p.data.longDescription
    ensures hovered != Some(p.id) ==> v.text == p.data.description
    ensures v.demoButton <==> p.data.demoUrl != "" && p.data.demoUrl != "#"
    ensures v.githubButton <==> p.data.githubUrl != "" && p.data.githubUrl != "#"
    ensures v.badges.badges == p.data.technologies
  {
    CardView(
      Or(p.data.imageUrl, FallbackImage),
      if hovered == Some(p.id) then p.data.longDescription else p.data.description,
      ShowsLink(p.data.demoUrl), ShowsLink(p.data.githubUrl),
      TechView(p.data.technologies, None))
  }

  /** A compact card: always the short description, at most three badges
      and a "+n" badge for the rest. */
  function CompactCard(p: Project): (v: CardView)
    ensures p.data.imageUrl != "" ==> v.image == p.data.imageUrl
    ensures p.data.imageUrl == "" ==> v.image == FallbackImage
    ensures v.text == p.data.description
    ensures v.demoButton <==> p.data.demoUrl != "" && p.data.demoUrl != "#"
    ensures v.githubButton <==> p.data.githubUrl != "" && p.data.githubUrl != "#"
    ensures v.badges == TechBadges(p.data.technologies)
  {
    CardView(Or(p.data.imageUrl, FallbackImage), p.data.description,
      ShowsLink(p.data.demoUrl), ShowsLink(p.data.githubUrl), TechBadges(p.data.technologies))
  }

  /** The section's state and its reactions to the page's events. */
  class ProjectsSection {
    const window: Window
    const codec: Codec<seq<Project>>
    const defaults: seq<Project>
    var projects: seq<Project>
    var selectedCategory: string
    var hoveredProject: Option<string>

    /** Mounting: the defaults and "All", then the first load. */
    constructor (w: Window, c: Codec<seq<Project>>)
      ensures window == w && codec == c && defaults == DefaultProjects
      ensures projects == LoadOrDefaults(DefaultProjects, GetItem(w.storage, ProjectsKey), c, DefaultProjects)
      ensures selectedCategory == AllCategory && hoveredProject == None
    {
      window := w;
      codec := c;
      defaults := DefaultProjects;
      projects := DefaultProjects;
      selectedCategory := AllCategory;
      hoveredProject := None;
      new;
      LoadProjects();
    }

    /** `loadProjects`: a saved list replaces the current one, one that
        does not parse brings back the defaults, and nothing saved leaves
        the list as it is. */
    method LoadProjects()
      modifies this
      ensures projects == LoadOrDefaults(old(projects), GetItem(window.storage, ProjectsKey), codec, defaults)
      ensures selectedCategory == old(selectedCategory) && hoveredProject == old(hoveredProject)
    {
      var saved := GetItem(window.storage, ProjectsKey);
      if saved.Some? && saved.value != "" {
        var parsed := codec.decode(saved.value);
        if parsed.Some? {
          projects := parsed.value;
        } else {
          projects := defaults;
        }
      }
    }

    /** The `storage` listener: only a change to the projects key reloads. */
    method HandleStorageChange(key: Option<string>)
      modifies this
      ensures key == Some(ProjectsKey) ==>
        projects == LoadOrDefaults(old(projects), GetItem(window.storage, ProjectsKey), codec, defaults)
      ensures key != Some(ProjectsKey) ==> projects == old(projects)
      ensures selectedCategory == old(selectedCategory) && hoveredProject == old(hoveredProject)
    {
      if key == Some(ProjectsKey) {
        LoadProjects();
      }
    }

    /** The same-tab `portfolioProjectsUpdated` listener. */
    method HandleProjectsUpdate()
      modifies this
      ensures projects == LoadOrDefaults(old(projects), GetItem(window.storage, ProjectsKey), codec, defaults)
      ensures selectedCategory == old(selectedCategory) && hoveredProject == old(hoveredProject)
    {
      LoadProjects();
    }

    /** A category button. */
    method SelectCategory(category: string)
      modifies this
      ensures selectedCategory == category && projects == old(projects) && hoveredProject == old(hoveredProject)
    {
      selectedCategory := category;
    }

    /** `onMouseEnter` (`Some(id)`) and `onMouseLeave` (`None`). */
    method SetHovered(id: Option<string>)
      modifies this
      ensures hoveredProject == id && projects == old(projects) && selectedCategory == old(selectedCategory)
    {
      hoveredProject := id;
    }
  }

  /** The list the admin panel saves is the list the section shows after
      the update event, whatever it showed before. */
  lemma SectionShowsSavedList(s: Storage, current: seq<Project>, saved: seq<Project>, codec: Codec<seq<Project>>)
    requires RoundTrips(codec, saved)
    ensures LoadOrDefaults(current, GetItem(s[ProjectsKey := codec.encode(saved)], ProjectsKey), codec, DefaultProjects) == saved
  {
    LoadAfterWrite(current, saved, codec, DefaultProjects);
  }

  /** Deleting every project in the admin panel stores the empty list
      (the key is written, not removed), so the section then shows no
      card in either grid, under every category, and the "no results"
      message. */
  lemma DeleteAllShowsNoResults(s: Storage, current: seq<Project>, codec: Codec<seq<Project>>, selected: string)
    requires RoundTrips(codec, [])
    ensures var shown := LoadOrDefaults(current, GetItem(s[ProjectsKey := codec.encode([])], ProjectsKey), codec, DefaultProjects);
      shown == [] && |Filtered(shown, selected)| == 0 &&
      |Featured(Filtered(shown, selected))| == 0 && |Others(Filtered(shown, selected))| == 0
  {
    LoadAfterWrite(current, [], codec, DefaultProjects);
    NoResultsIff([], selected);
  }

  /** A key that is missing (never written: the admin panel writes the
      key on every change and never removes it) reads as nothing saved,
      so a reload keeps what is shown. */
  lemma RemovedKeyKeepsList(s: Storage, current: seq<Project>, codec: Codec<seq<Project>>)
    ensures LoadOrDefaults(current, GetItem(s - {ProjectsKey}, ProjectsKey), codec, DefaultProjects) == current
  {
  }
}
