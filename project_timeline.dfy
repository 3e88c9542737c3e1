/** The project timeline: entries read from local storage (six built-in
    entries as the fallback), alternating sides, a status badge per entry,
    one entry expanded at a time, and cards that fade in once the
    intersection observer reports them on screen. */
module Timeline {
  import opened Common
  import opened Browser
  import opened Entities
  import opened Display

  type TimelineProject = Record<TimelineData>

  /** The built-in entries. An absent demo or code link is "". */
  const DefaultTimeline: seq<TimelineProject> := [
    Record("1", TimelineData(
      "AI-Powered Medical Diagnosis System",
      "Deep learning model for early disease detection using medical imaging with 94% accuracy.",
      "2024-01", "Healthcare AI", ["PyTorch", "OpenCV", "FastAPI", "Docker"],
      "https://images.unsplash.com/photo-1559757148-5c350d0d3c56?w=400&h=200&fit=crop",
      "completed", "10,000+ patients screened", "#", "#")),
    Record("2", TimelineData(
      "Real-time Fraud Detection Engine",
      "Machine learning system processing 1M+ transactions per second with sub-millisecond latency.",
      "2023-11", "FinTech", ["Apache Kafka", "TensorFlow", "Redis", "Kubernetes"],
      "https://images.unsplash.com/photo-1563013544-824ae1b704d3?w=400&h=200&fit=crop",
      "completed", "$2M+ fraud prevented", "#", "#")),
    Record("3", TimelineData(
      "Autonomous Drone Navigation",
      "Computer vision and reinforcement learning for autonomous drone flight in complex environments.",
      "2023-08", "Robotics", ["ROS", "OpenCV", "PyTorch", "CUDA"],
      "https://images.unsplash.com/photo-1473968512647-3e447244af8f?w=400&h=200&fit=crop",
      "completed", "99.2% navigation accuracy", "#", "")),
    Record("4", TimelineData(
      "Climate Change Prediction Model",
      "Advanced time series forecasting using satellite data and weather patterns.",
      "2023-05", "Climate Science", ["Prophet", "Pandas", "Plotly", "AWS"],
      "https://images.unsplash.com/photo-1569163139394-de44cb5894c4?w=400&h=200&fit=crop",
      "completed", "Published in Nature AI", "", "#")),
    Record("5", TimelineData(
      "Neural Architecture Search Platform",
      "Automated ML pipeline for discovering optimal neural network architectures.",
      "2024-03", "AutoML", ["PyTorch", "Ray", "MLflow", "Kubernetes"],
      "https://images.unsplash.com/photo-1677442136019-21780ecad995?w=400&h=200&fit=crop",
      "in-progress", "40% faster model training", "", "#")),
    Record("6", TimelineData(
      "Quantum-Classical Hybrid AI",
      "Exploring quantum computing applications in machine learning optimization.",
      "2024-06", "Quantum AI", ["Qiskit", "PennyLane", "TensorFlow Quantum"],
      "https://images.unsplash.com/photo-1635070041078-e363dbe005cb?w=400&h=200&fit=crop",
      "planned", "Research collaboration", "", "#"))
  ]

  /** The colour of a status badge: one per known status, gray otherwise. */
  function Hue(status: string): (r: string)
    ensures r == "gray" <==> !KnownStatus(status)
  {
    if status == "completed" then "green"
    else if status == "in-progress" then "yellow"
    else if status == "planned" then "blue"
    else "gray"
  }

  /** The badge classes for a colour, e.g.
      `bg-green-500/20 text-green-400 border-green-500/30`. */
  function BadgeStyle(hue: string): string {
    "bg-" + hue + "-500/20 text-" + hue + "-400 border-" + hue + "-500/30"
  }

  /** `getStatusColor`: green, yellow and blue for the three known
      statuses, gray for any other. */
  function StatusColor(status: string): (r: string)
    ensures status == "completed" ==> r == BadgeStyle("green")
    ensures status == "in-progress" ==> r == BadgeStyle("yellow")
    ensures status == "planned" ==> r == BadgeStyle("blue")
    ensures !KnownStatus(status) ==> r == BadgeStyle("gray")
  {
    BadgeStyle(Hue(status))
  }

  /** Different colours give different badge classes. */
  lemma BadgeStyleInjective(a: string, b: string)
    requires BadgeStyle(a) == BadgeStyle(b)
    ensures a == b
  {
    assert |BadgeStyle(a)| == 3 * |a| + 35;
    assert |BadgeStyle(b)| == 3 * |b| + 35;
    assert BadgeStyle(a)[3..3 + |a|] == a;
    assert BadgeStyle(b)[3..3 + |b|] == b;
  }

  /** `getStatusIcon`: one icon per known status, a question mark for
      any other. */
  function StatusIcon(status: string): (r: string)
    ensures status == "completed" ==> r == "✅"
    ensures status == "in-progress" ==> r == "🚧"
    ensures status == "planned" ==> r == "📋"
    ensures !KnownStatus(status) ==> r == "❓"
  {
    if status == "completed" then "✅"
    else if status == "in-progress" then "🚧"
    else if status == "planned" then "📋"
    else "❓"
  }

  predicate KnownStatus(status: string) {
    status == "completed" || status == "in-progress" || status == "planned"
  }

  /** The badge tells the three statuses apart, by colour and by icon, and
      every other status gets the gray question-mark badge. */
  lemma StatusBadgesDistinguish(s: string, t: string)
    requires KnownStatus(s) && KnownStatus(t) && s != t
    ensures StatusColor(s) != StatusColor(t) && StatusIcon(s) != StatusIcon(t)
    ensures StatusColor(s) != StatusColor("") && StatusIcon(s) != StatusIcon("")
  {
    assert StatusIcon("completed")[0] == '✅';
    assert StatusIcon("in-progress")[0] == '🚧';
    assert StatusIcon("planned")[0] == '📋';
    assert StatusIcon("")[0] == '❓';
    if StatusColor(s) == StatusColor(t) {
      BadgeStyleInjective(Hue(s), Hue(t));
    }
    if StatusColor(s) == StatusColor("") {
      BadgeStyleInjective(Hue(s), Hue(""));
    }
  }

  /** Every status other than the three known ones gets the same gray
      question-mark badge, which no known status has. */
  lemma UnknownStatusBadge(s: string, u: string)
    requires KnownStatus(s) && !KnownStatus(u)
    ensures StatusColor(u) == StatusColor("") && StatusIcon(u) == StatusIcon("")
    ensures StatusColor(s) != StatusColor(u) && StatusIcon(s) != StatusIcon(u)
  {
    StatusBadgesDistinguish(s, if s == "completed" then "planned" else "completed");
  }

  /** `index % 2 === 0`: the card's side. */
  function IsLeft(index: nat): bool {
    index % 2 == 0
  }

  /** Consecutive entries sit on opposite sides, the first on the left. */
  lemma SidesAlternate(index: nat)
    ensures IsLeft(index) != IsLeft(index + 1)
    ensures IsLeft(0)
  {
  }

  /** A click on a card: it closes the selected card and selects any other. */
  function ToggleSelection(selected: Option<string>, id: string): (r: Option<string>)
    ensures selected == Some(id) ==> r == None
    ensures selected != Some(id) ==> r == Some(id)
  {
    if selected == Some(id) then None else Some(id)
  }

  /** Two clicks on the same card restore the selection when that card was
      selected or nothing was. */
  lemma ToggleTwice(selected: Option<string>, id: string)
    requires selected == None || selected == Some(id)
    ensures ToggleSelection(ToggleSelection(selected, id), id) == selected
  {
  }

  /** What one timeline card shows. */
  datatype TimelineCard = TimelineCard(
    left: bool, shown: bool, ring: bool,
    statusColor: string, statusIcon: string,
    badges: TechView, allTechnologies: Option<seq<string>>,
    demoButton: bool, githubButton: bool)

  /** The card of entry `index`: its side, whether it has faded in, the
      selection ring and the full technology list of the expanded card, and a
      button for each link that is set. */
  function Card(p: TimelineProject, index: nat, visible: set<string>, selected: Option<string>): (c: TimelineCard)
    ensures c.left <==> index % 2 == 0
    ensures c.shown <==> p.id in visible
    ensures c.ring <==> selected == Some(p.id)
    ensures c.allTechnologies.Some? <==> c.ring
    ensures c.allTechnologies.Some? ==> c.allTechnologies.value == p.data.technologies
    ensures c.badges == TechBadges(p.data.technologies)
    ensures c.demoButton <==> p.data.demoUrl != ""
    ensures c.githubButton <==> p.data.githubUrl != ""
  {
    var isSelected := selected == Some(p.id);
    TimelineCard(IsLeft(index), p.id in visible, isSelected,
      StatusColor(p.data.status), StatusIcon(p.data.status),
      TechBadges(p.data.technologies), if isSelected then Some(p.data.technologies) else None,
      p.data.demoUrl != "", p.data.githubUrl != "")
  }

  /** At most one card is expanded at a time: the one whose id is selected. */
  lemma OneCardExpanded(ps: seq<TimelineProject>, visible: set<string>, selected: Option<string>, i: nat, j: nat)
    requires UniqueIds(ps) && i < j < |ps|
    ensures !(Card(ps[i], i, visible, selected).ring && Card(ps[j], j, visible, selected).ring)
  {
  }

  /** The mounted list: a saved list replaces the defaults; one that does
      not parse, or nothing saved, leaves the defaults. */
  function MountedTimeline(s: Storage, codec: Codec<seq<TimelineProject>>): (r: seq<TimelineProject>)
    ensures !Truthy(GetItem(s, TimelineKey)) ==> r == DefaultTimeline
    ensures Truthy(GetItem(s, TimelineKey)) && codec.decode(s[TimelineKey]).Some? ==> r == codec.decode(s[TimelineKey]).value
    ensures Truthy(GetItem(s, TimelineKey)) && codec.decode(s[TimelineKey]).None? ==> r == DefaultTimeline
  {
    LoadOrDefaults(DefaultTimeline, GetItem(s, TimelineKey), codec, DefaultTimeline)
  }

  /** The ids in a list, as a set. */
  function IdSet(rs: seq<TimelineProject>): (r: set<string>)
    ensures forall id :: id in r <==> id in Ids(rs)
  {
    var r := set x | x in rs :: x.id;
    assert forall id :: id in r ==> id in Ids(rs) by {
      forall id | id in r ensures id in Ids(rs) {
        var x :| x in rs && x.id == id;
        var i :| 0 <= i < |rs| && rs[i] == x;
        assert Ids(rs)[i] == id;
      }
    }
    r
  }

  const DefaultIds := {"1", "2", "3", "4", "5", "6"}

  /** The built-in entries' ids. */
  lemma DefaultTimelineIds()
    ensures IdSet(DefaultTimeline) == DefaultIds
  {
    var ids := Ids(DefaultTimeline);
    assert ids[0] == "1" && ids[1] == "2" && ids[2] == "3" && ids[3] == "4" && ids[4] == "5" && ids[5] == "6";
    assert forall id :: id in ids ==> id in DefaultIds;
  }

  /** AS WRITTEN: the observer is attached once, right after the first
      render, so it watches the elements of the built-in entries whatever
      list the load then puts in their place. */
  function ObservedAsWritten(loaded: seq<TimelineProject>): (r: set<string>)
    ensures r == DefaultIds
  {
    DefaultTimelineIds();
    IdSet(DefaultTimeline)
  }

  /** An id longer than one character is not a built-in id. */
  lemma NotDefaultId(id: string)
    requires |id| > 1
    ensures id !in DefaultIds
  {
  }

  /** An entry the admin panel creates gets the id `timeline_` followed by
      the time of its creation, which no built-in entry has: as written, no
      observer report ever names it, so its card never fades in, whatever
      list was loaded. */
  lemma AddedEntryNeverShown(now: string, loaded: seq<TimelineProject>, visible: set<string>, entries: seq<ObserverEntry>)
    requires visible <= ObservedAsWritten(loaded)
    requires forall e :: e in entries ==> e.targetId in ObservedAsWritten(loaded)
    ensures "timeline_" + now !in visible + IntersectingIds(entries)
  {
    var id := "timeline_" + now;
    NotDefaultId(id);
    assert forall e :: e in entries ==> e.targetId != id;
  }

  /** CORRECTED: the observer watches the elements of the list on screen,
      which it does when it is attached again each time the list changes. */
  function Observed(loaded: seq<TimelineProject>): (r: set<string>)
    ensures forall p :: p in loaded ==> p.id in r
    ensures forall id :: id in r ==> id in Ids(loaded)
  {
    IdSet(loaded)
  }

  /** With the corrected observer, every listed entry fades in once it is
      reported on screen. */
  lemma EveryEntryCanBeShown(loaded: seq<TimelineProject>, i: nat, visible: set<string>)
    requires i < |loaded|
    ensures var entries := [ObserverEntry(true, loaded[i].id)];
      (forall e :: e in entries ==> e.targetId in Observed(loaded)) &&
      (loaded[i].id != "" ==> loaded[i].id in visible + IntersectingIds(entries))
  {
    assert loaded[i] in loaded;
    var e := ObserverEntry(true, loaded[i].id);
    assert e in [e];
  }

  /** The timeline's state. */
  class TimelineSection {
    const window: Window
    const codec: Codec<seq<TimelineProject>>
    var projects: seq<TimelineProject>
    var visible: set<string>
    var selected: Option<string>
    /** The ids of the elements the observer watches. */
    var observed: set<string>

    /** Only watched elements are ever reported, so only they are visible. */
    ghost predicate Valid()
      reads this
    {
      visible <= observed
    }

    /** Mounting: load the list, then attach the observer. This is the
        CORRECTED effect, which watches the loaded entries (`Observed`);
        the program as written watches only the built-in entries
        (`ObservedAsWritten`), so a saved entry with a new id is never
        reported (`AddedEntryNeverShown`). */
    constructor (w: Window, c: Codec<seq<TimelineProject>>)
      ensures Valid() && window == w && codec == c
      ensures projects == MountedTimeline(w.storage, c)
      ensures observed == Observed(projects) && visible == {} && selected == None
    {
      window := w;
      codec := c;
      projects := MountedTimeline(w.storage, c);
      visible := {};
      selected := None;
      observed := Observed(MountedTimeline(w.storage, c));
    }

    /** The observer callback. */
    method ObserverFired(entries: seq<ObserverEntry>)
      requires Valid()
      requires forall e :: e in entries ==> e.targetId in observed
      modifies this
      ensures Valid()
      ensures visible == old(visible) + IntersectingIds(entries)
      ensures projects == old(projects) && selected == old(selected) && observed == old(observed)
    {
      visible := AccumulateVisible(visible, entries);
    }

    /** A click on the card with this id. */
    method ClickCard(id: string)
      requires Valid()
      modifies this
      ensures Valid()
      ensures selected == ToggleSelection(old(selected), id)
      ensures projects == old(projects) && visible == old(visible) && observed == old(observed)
    {
      selected := ToggleSelection(selected, id);
    }
  }
}
