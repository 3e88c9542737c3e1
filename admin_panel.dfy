/** The admin panel: a login gate over five editable lists (projects,
    skills, radar skills, timeline entries, certifications) and a profile,
    all mirrored into local storage so that the public sections can read
    them back.

    Every list is handled by identical code in the source, so one generic
    class `Collection` models a list's state slice (`items`, the entry
    being edited, whether its form is shown) with its save, delete and
    load handlers. A failing `localStorage.setItem` is the parameter
    `writeOk`: the source has already replaced the list in memory when the
    write throws, and its `catch` only shows a toast. */
module AdminPanel {
  import opened Common
  import opened Text
  import opened Browser
  import opened Entities

  const LoginDenied := "Acceso denegado: credenciales incorrectas"

  /** One list of the panel and its editing state. */
  class Collection<D> {
    const window: Window
    const key: string
    const idPrefix: string
    const updateEvent: Option<string>
    const codec: Codec<seq<Record<D>>>

    var items: seq<Record<D>>
    var editing: Option<Record<D>>
    var showForm: bool

    constructor (window: Window, key: string, idPrefix: string, updateEvent: Option<string>, codec: Codec<seq<Record<D>>>)
      ensures this.window == window && this.key == key && this.idPrefix == idPrefix
      ensures this.updateEvent == updateEvent && this.codec == codec
      ensures items == [] && editing.None? && !showForm
    {
      this.window := window;
      this.key := key;
      this.idPrefix := idPrefix;
      this.updateEvent := updateEvent;
      this.codec := codec;
      items := [];
      editing := None;
      showForm := false;
    }

    /** The events a successful write announces. */
    function Announced(): seq<string> {
      if updateEvent.Some? then [updateEvent.value] else []
    }

    /** The "new" button: opens the form, nothing else changes. */
    method StartCreate()
      modifies this
      ensures showForm && editing == old(editing) && items == old(items)
    {
      showForm := true;
    }

    /** The edit button of an entry: the entry becomes the one edited. */
    method StartEdit(r: Record<D>)
      modifies this
      ensures showForm && editing == Some(r) && items == old(items)
    {
      editing := Some(r);
      showForm := true;
    }

    /** The cancel button of the form. */
    method Cancel()
      modifies this
      ensures !showForm && editing.None? && items == old(items)
    {
      showForm := false;
      editing := None;
    }

    /** `saveProject` and its twins. The list becomes `Upsert` of the old
        list (replace on edit, append on create); when the write succeeds
        local storage holds exactly the new list, the form closes and the
        update event, if this list has one, is dispatched; when it fails,
        storage, form and events are left as they were. */
    method Save(data: D, now: string, writeOk: bool)
      modifies this, window
      ensures items == Upsert(old(items), old(editing), data, idPrefix + now)
      ensures writeOk ==> window.storage == old(window.storage)[key := codec.encode(items)]
      ensures writeOk ==> !showForm && editing.None? && window.events == old(window.events) + Announced()
      ensures !writeOk ==> window.storage == old(window.storage) && window.events == old(window.events)
      ensures !writeOk ==> showForm == old(showForm) && editing == old(editing)
    {
      var updated := Upsert(items, editing, data, idPrefix + now);
      items := updated;
      if !writeOk {
        return;
      }
      window.SetItem(key, codec.encode(updated));
      showForm := false;
      editing := None;
      if updateEvent.Some? {
        window.DispatchEvent(updateEvent.value);
      }
    }

    /** `deleteProject` and its twins: the list keeps the entries whose id
        differs; on a successful write storage holds the new list and the
        update event is dispatched. */
    method Delete(id: string, writeOk: bool)
      modifies this, window
      ensures items == RemoveById(old(items), id)
      ensures editing == old(editing) && showForm == old(showForm)
      ensures writeOk ==> window.storage == old(window.storage)[key := codec.encode(items)]
      ensures writeOk ==> window.events == old(window.events) + Announced()
      ensures !writeOk ==> window.storage == old(window.storage) && window.events == old(window.events)
    {
      items := RemoveById(items, id);
      if !writeOk {
        return;
      }
      window.SetItem(key, codec.encode(items));
      if updateEvent.Some? {
        window.DispatchEvent(updateEvent.value);
      }
    }
  }

  /** The panel's content, as `loadData` sets it. */
  datatype Content = Content(
    projects: seq<Record<ProjectData>>,
    skills: seq<Record<SkillData>>,
    profile: Option<Fields>,
    certifications: seq<Record<CertificationData>>,
    radarSkills: seq<Record<RadarSkillData>>,
    timeline: seq<Record<TimelineData>>)

  /** `savedProfile ? JSON.parse(savedProfile) : null`, `None` when the
      parse throws. */
  function ParseProfile(saved: Option<string>, codec: Codec<Fields>): (r: Option<Option<Fields>>)
    ensures !Truthy(saved) ==> r == Some(None)
    ensures Truthy(saved) && codec.decode(saved.value).None? ==> r.None?
    ensures Truthy(saved) && codec.decode(saved.value).Some? ==> r == Some(codec.decode(saved.value))
  {
    if !Truthy(saved) then Some(None)
    else match codec.decode(saved.value)
      case None => None
      case Some(f) => Some(Some(f))
  }

  /** `{ ...profile, ...data, id: profile?.id || freshId }`. */
  function MergeProfile(profile: Option<Fields>, data: Fields, freshId: string): (r: Fields)
    ensures r.Keys == (if profile.Some? then profile.value.Keys else {}) + data.Keys + {"id"}
    ensures profile.Some? && Field(profile.value, "id") != "" ==> r["id"] == profile.value["id"]
    ensures profile.None? || Field(profile.value, "id") == "" ==> r["id"] == freshId
    ensures forall k :: k in data && k != "id" ==> r[k] == data[k]
    ensures profile.Some? ==> forall k :: k in profile.value && k !in data && k != "id" ==> r[k] == profile.value[k]
  {
    var base := if profile.Some? then profile.value else map[];
    var id := if profile.Some? then Or(Field(profile.value, "id"), freshId) else freshId;
    base + data + map["id" := id]
  }

  /** The fields the profile form edits. */
  const ProfileFormFields := ["name", "title_en", "title_es", "description_en", "description_es",
    "resumeUrl", "githubUrl", "linkedinUrl", "twitterUrl", "email", "phone", "location"]

  /** The profile form's initial data: each edited field of the profile,
      or "" when the profile has none. */
  function ProfileFormData(profile: Option<Fields>): (r: Fields)
    ensures r.Keys == set k | k in ProfileFormFields
    ensures forall k :: k in r ==> r[k] == (if profile.Some? then Field(profile.value, k) else "")
  {
    map k | k in ProfileFormFields :: if profile.Some? then Field(profile.value, k) else ""
  }

  /** Submitting the profile form unchanged keeps every field of the
      profile (a missing field reading as ""), keeps its id when it has
      one, and gives it a fresh id otherwise. */
  lemma ResubmitProfileKeepsFields(profile: Option<Fields>, freshId: string)
    ensures var r := MergeProfile(profile, ProfileFormData(profile), freshId);
      (forall k :: k != "id" ==> Field(r, k) == (if profile.Some? then Field(profile.value, k) else "")) &&
      (profile.Some? && Field(profile.value, "id") != "" ==> r["id"] == profile.value["id"])
  {
    var data := ProfileFormData(profile);
    var r := MergeProfile(profile, data, freshId);
    forall k | k != "id" ensures Field(r, k) == (if profile.Some? then Field(profile.value, k) else "") {
      if k in data {
      } else if profile.Some? && k in profile.value {
      }
    }
  }

  /** The admin panel component. */
  class Panel {
    const window: Window
    const projects: Collection<ProjectData>
    const skills: Collection<SkillData>
    const radarSkills: Collection<RadarSkillData>
    const timeline: Collection<TimelineData>
    const certifications: Collection<CertificationData>
    const profileCodec: Codec<Fields>

    var profile: Option<Fields>
    var isOpen: bool
    var isLoggedIn: bool
    var loginUser: string
    var loginPassword: string
    var loginError: string

    /** The lists share this panel's window and are distinct objects. */
    ghost predicate Valid() {
      && projects.window == window && skills.window == window && radarSkills.window == window
      && timeline.window == window && certifications.window == window
      && projects.key == ProjectsKey && skills.key == SkillsKey && radarSkills.key == RadarSkillsKey
      && timeline.key == TimelineKey && certifications.key == CertificationsKey
      && projects as object != skills && projects as object != radarSkills && projects as object != timeline
      && projects as object != certifications && skills as object != radarSkills && skills as object != timeline
      && skills as object != certifications && radarSkills as object != timeline
      && radarSkills as object != certifications && timeline as object != certifications
    }

    /** The panel's content right now. */
    function Current(): Content
      reads this, projects, skills, radarSkills, timeline, certifications
    {
      Content(projects.items, skills.items, profile, certifications.items, radarSkills.items, timeline.items)
    }

    /** No list's form changes: the entry being edited and whether the
        form is shown are those of the previous state, for all five lists. */
    twostate predicate FormsUnchanged()
      reads projects, skills, radarSkills, timeline, certifications
    {
      && projects.editing == old(projects.editing) && projects.showForm == old(projects.showForm)
      && skills.editing == old(skills.editing) && skills.showForm == old(skills.showForm)
      && radarSkills.editing == old(radarSkills.editing) && radarSkills.showForm == old(radarSkills.showForm)
      && timeline.editing == old(timeline.editing) && timeline.showForm == old(timeline.showForm)
      && certifications.editing == old(certifications.editing)
      && certifications.showForm == old(certifications.showForm)
    }

    /** What `loadData` leaves: the stored lists are parsed in order
        (projects, skills, profile, certifications, radar skills, timeline),
        a missing or empty value giving the empty list (no profile), and
        the first parse that throws stops the rest, so that every later
        item keeps its value. */
    function AfterLoad(c: Content, st: Storage): Content {
      match ParseOr(GetItem(st, ProjectsKey), projects.codec, [])
      case None => c
      case Some(ps) =>
        var c1 := c.(projects := ps);
        match ParseOr(GetItem(st, SkillsKey), skills.codec, [])
        case None => c1
        case Some(ss) =>
          var c2 := c1.(skills := ss);
          match ParseProfile(GetItem(st, ProfileKey), profileCodec)
          case None => c2
          case Some(pf) =>
            var c3 := c2.(profile := pf);
            match ParseOr(GetItem(st, CertificationsKey), certifications.codec, [])
            case None => c3
            case Some(cs) =>
              var c4 := c3.(certifications := cs);
              match ParseOr(GetItem(st, RadarSkillsKey), radarSkills.codec, [])
              case None => c4
              case Some(rs) =>
                var c5 := c4.(radarSkills := rs);
                match ParseOr(GetItem(st, TimelineKey), timeline.codec, [])
                case None => c5
                case Some(ts) => c5.(timeline := ts)
    }

    constructor (window: Window, projectsCodec: Codec<seq<Record<ProjectData>>>,
                 skillsCodec: Codec<seq<Record<SkillData>>>, radarCodec: Codec<seq<Record<RadarSkillData>>>,
                 timelineCodec: Codec<seq<Record<TimelineData>>>, certCodec: Codec<seq<Record<CertificationData>>>,
                 profileCodec: Codec<Fields>)
      ensures Valid() && this.window == window
      ensures fresh(projects) && fresh(skills) && fresh(radarSkills) && fresh(timeline) && fresh(certifications)
      ensures isLoggedIn <==> GetItem(window.storage, LoggedInKey) == Some("true")
      ensures !isOpen && loginUser == "" && loginPassword == "" && loginError == ""
      ensures Current() == Content([], [], None, [], [], [])
      ensures projects.codec == projectsCodec && skills.codec == skillsCodec && radarSkills.codec == radarCodec
      ensures timeline.codec == timelineCodec && certifications.codec == certCodec && this.profileCodec == profileCodec
      ensures projects.updateEvent == Some(ProjectsUpdatedEvent)
      ensures skills.updateEvent.None? && radarSkills.updateEvent.None?
      ensures timeline.updateEvent.None? && certifications.updateEvent.None?
      ensures projects.idPrefix == "proj_" && skills.idPrefix == "skill_" && radarSkills.idPrefix == "radar_"
      ensures timeline.idPrefix == "timeline_" && certifications.idPrefix == "cert_"
    {
      this.window := window;
      projects := new Collection(window, ProjectsKey, "proj_", Some(ProjectsUpdatedEvent), projectsCodec);
      skills := new Collection(window, SkillsKey, "skill_", None, skillsCodec);
      radarSkills := new Collection(window, RadarSkillsKey, "radar_", None, radarCodec);
      timeline := new Collection(window, TimelineKey, "timeline_", None, timelineCodec);
      certifications := new Collection(window, CertificationsKey, "cert_", None, certCodec);
      this.profileCodec := profileCodec;
      profile := None;
      isOpen := false;
      isLoggedIn := GetItem(window.storage, LoggedInKey) == Some("true");
      loginUser := "";
      loginPassword := "";
      loginError := "";
    }

    /** `loadData`. */
    method LoadData()
      requires Valid()
      modifies this, projects, skills, radarSkills, timeline, certifications
      ensures Current() == AfterLoad(old(Current()), window.storage)
      ensures isOpen == old(isOpen) && isLoggedIn == old(isLoggedIn) && loginError == old(loginError)
      ensures loginUser == old(loginUser) && loginPassword == old(loginPassword)
      ensures FormsUnchanged()
    {
      var st := window.storage;
      match ParseOr(GetItem(st, ProjectsKey), projects.codec, []) {
        case None => return;
        case Some(ps) => projects.items := ps;
      }
      match ParseOr(GetItem(st, SkillsKey), skills.codec, []) {
        case None => return;
        case Some(ss) => skills.items := ss;
      }
      match ParseProfile(GetItem(st, ProfileKey), profileCodec) {
        case None => return;
        case Some(pf) => profile := pf;
      }
      match ParseOr(GetItem(st, CertificationsKey), certifications.codec, []) {
        case None => return;
        case Some(cs) => certifications.items := cs;
      }
      match ParseOr(GetItem(st, RadarSkillsKey), radarSkills.codec, []) {
        case None => return;
        case Some(rs) => radarSkills.items := rs;
      }
      match ParseOr(GetItem(st, TimelineKey), timeline.codec, []) {
        case None => return;
        case Some(ts) => timeline.items := ts;
      }
    }

    /** The effect that loads the data once the panel is logged in. */
    method Mount()
      requires Valid()
      modifies this, projects, skills, radarSkills, timeline, certifications
      ensures isLoggedIn ==> Current() == AfterLoad(old(Current()), window.storage)
      ensures !isLoggedIn ==> Current() == old(Current())
      ensures isLoggedIn == old(isLoggedIn) && isOpen == old(isOpen)
      ensures FormsUnchanged()
    {
      if isLoggedIn {
        LoadData();
      }
    }

    /** The login form's two inputs. */
    method SetCredentials(user: string, password: string)
      modifies this
      ensures loginUser == user && loginPassword == password
      ensures isLoggedIn == old(isLoggedIn) && isOpen == old(isOpen) && loginError == old(loginError)
      ensures profile == old(profile)
    {
      loginUser := user;
      loginPassword := password;
    }

    /** `handleLogin`. The configured credentials are parameters (`None`
        for an unset variable). Login succeeds iff both typed values equal
        them; it then stores the flag, clears the error, opens the panel
        and loads the data. Otherwise only the error message is set. */
    method HandleLogin(adminUser: Option<string>, adminPassword: Option<string>)
      requires Valid()
      modifies this, window, projects, skills, radarSkills, timeline, certifications
      ensures var ok := adminUser == Some(old(loginUser)) && adminPassword == Some(old(loginPassword));
        ok ==> (isLoggedIn && isOpen && loginError == "" &&
                window.storage == old(window.storage)[LoggedInKey := "true"] &&
                Current() == AfterLoad(old(Current()), window.storage))
      ensures var ok := adminUser == Some(old(loginUser)) && adminPassword == Some(old(loginPassword));
        !ok ==> (loginError == LoginDenied && isLoggedIn == old(isLoggedIn) && isOpen == old(isOpen) &&
                 window.storage == old(window.storage) && Current() == old(Current()))
      ensures window.events == old(window.events)
      ensures loginUser == old(loginUser) && loginPassword == old(loginPassword)
      ensures FormsUnchanged()
    {
      if adminUser == Some(loginUser) && adminPassword == Some(loginPassword) {
        isLoggedIn := true;
        window.SetItem(LoggedInKey, "true");
        loginError := "";
        isOpen := true;
        LoadData();
      } else {
        loginError := LoginDenied;
      }
    }

    /** `handleLogout`: the flag is removed and the panel closes. */
    method HandleLogout()
      modifies this, window
      ensures !isLoggedIn && !isOpen
      ensures window.storage == old(window.storage) - {LoggedInKey}
      ensures window.events == old(window.events)
      ensures profile == old(profile)
    {
      isLoggedIn := false;
      window.RemoveItem(LoggedInKey);
      isOpen := false;
    }

    /** `saveProfile`: the submitted fields override the profile's, the
        other fields stay, and the id is kept or created; a successful
        write stores exactly the new profile. */
    method SaveProfile(data: Fields, now: string, writeOk: bool)
      modifies this, window
      ensures profile == Some(MergeProfile(old(profile), data, "profile_" + now))
      ensures writeOk ==> window.storage == old(window.storage)[ProfileKey := profileCodec.encode(profile.value)]
      ensures !writeOk ==> window.storage == old(window.storage)
      ensures window.events == old(window.events)
      ensures isLoggedIn == old(isLoggedIn) && isOpen == old(isOpen)
    {
      var updated := MergeProfile(profile, data, "profile_" + now);
      profile := Some(updated);
      if writeOk {
        window.SetItem(ProfileKey, profileCodec.encode(updated));
      }
    }
  }

  /** After a load, each item holds its parsed value when it and every
      item before it parsed, and its old value otherwise: the first read
      that fails leaves the content as the earlier reads made it. */
  lemma AfterLoadStopsAtFirstError(p: Panel, c: Content, st: Storage)
    ensures var pr := ParseOr(GetItem(st, ProjectsKey), p.projects.codec, []);
      var r := p.AfterLoad(c, st);
      (pr.None? ==> r == c) &&
      (pr.Some? ==> r.projects == pr.value)
    ensures var pr := ParseOr(GetItem(st, ProjectsKey), p.projects.codec, []);
      var sk := ParseOr(GetItem(st, SkillsKey), p.skills.codec, []);
      var r := p.AfterLoad(c, st);
      (pr.Some? && sk.None? ==> r == c.(projects := pr.value)) &&
      (pr.Some? && sk.Some? ==> r.skills == sk.value)
    ensures var pr := ParseOr(GetItem(st, ProjectsKey), p.projects.codec, []);
      var sk := ParseOr(GetItem(st, SkillsKey), p.skills.codec, []);
      var pf := ParseProfile(GetItem(st, ProfileKey), p.profileCodec);
      var r := p.AfterLoad(c, st);
      (pr.Some? && sk.Some? && pf.None? ==> r == c.(projects := pr.value, skills := sk.value)) &&
      (pr.Some? && sk.Some? && pf.Some? ==> r.profile == pf.value)
    ensures var pr := ParseOr(GetItem(st, ProjectsKey), p.projects.codec, []);
      var sk := ParseOr(GetItem(st, SkillsKey), p.skills.codec, []);
      var pf := ParseProfile(GetItem(st, ProfileKey), p.profileCodec);
      var cs := ParseOr(GetItem(st, CertificationsKey), p.certifications.codec, []);
      var r := p.AfterLoad(c, st);
      (pr.Some? && sk.Some? && pf.Some? && cs.None? ==>
        r == c.(projects := pr.value, skills := sk.value, profile := pf.value)) &&
      (pr.Some? && sk.Some? && pf.Some? && cs.Some? ==> r.certifications == cs.value)
    ensures var pr := ParseOr(GetItem(st, ProjectsKey), p.projects.codec, []);
      var sk := ParseOr(GetItem(st, SkillsKey), p.skills.codec, []);
      var pf := ParseProfile(GetItem(st, ProfileKey), p.profileCodec);
      var cs := ParseOr(GetItem(st, CertificationsKey), p.certifications.codec, []);
      var rs := ParseOr(GetItem(st, RadarSkillsKey), p.radarSkills.codec, []);
      var r := p.AfterLoad(c, st);
      (pr.Some? && sk.Some? && pf.Some? && cs.Some? && rs.None? ==>
        r == c.(projects := pr.value, skills := sk.value, profile := pf.value, certifications := cs.value)) &&
      (pr.Some? && sk.Some? && pf.Some? && cs.Some? && rs.Some? ==> r.radarSkills == rs.value)
    ensures var pr := ParseOr(GetItem(st, ProjectsKey), p.projects.codec, []);
      var sk := ParseOr(GetItem(st, SkillsKey), p.skills.codec, []);
      var pf := ParseProfile(GetItem(st, ProfileKey), p.profileCodec);
      var cs := ParseOr(GetItem(st, CertificationsKey), p.certifications.codec, []);
      var rs := ParseOr(GetItem(st, RadarSkillsKey), p.radarSkills.codec, []);
      var ts := ParseOr(GetItem(st, TimelineKey), p.timeline.codec, []);
      var r := p.AfterLoad(c, st);
      (pr.Some? && sk.Some? && pf.Some? && cs.Some? && rs.Some? && ts.None? ==>
        r == c.(projects := pr.value, skills := sk.value, profile := pf.value,
                certifications := cs.value, radarSkills := rs.value)) &&
      (pr.Some? && sk.Some? && pf.Some? && cs.Some? && rs.Some? && ts.Some? ==>
        r == Content(pr.value, sk.value, pf.value, cs.value, rs.value, ts.value))
  {
  }

  /** Storage that holds exactly what the panel wrote is read back whole:
      when every list was written by its codec, and the profile too, a
      load restores all of them, whatever the panel held before. */
  lemma LoadAfterSaves(p: Panel, c: Content, st: Storage, saved: Content)
    requires saved.profile.Some?
    requires RoundTrips(p.projects.codec, saved.projects) && RoundTrips(p.skills.codec, saved.skills)
    requires RoundTrips(p.profileCodec, saved.profile.value)
    requires RoundTrips(p.certifications.codec, saved.certifications)
    requires RoundTrips(p.radarSkills.codec, saved.radarSkills) && RoundTrips(p.timeline.codec, saved.timeline)
    requires GetItem(st, ProjectsKey) == Some(p.projects.codec.encode(saved.projects))
    requires GetItem(st, SkillsKey) == Some(p.skills.codec.encode(saved.skills))
    requires GetItem(st, ProfileKey) == Some(p.profileCodec.encode(saved.profile.value))
    requires GetItem(st, CertificationsKey) == Some(p.certifications.codec.encode(saved.certifications))
    requires GetItem(st, RadarSkillsKey) == Some(p.radarSkills.codec.encode(saved.radarSkills))
    requires GetItem(st, TimelineKey) == Some(p.timeline.codec.encode(saved.timeline))
    ensures p.AfterLoad(c, st) == saved
  {
  }

  /** The technology tag list of the project and timeline forms, with the
      text typed into its input. */
  predicate Distinct(xs: seq<string>) {
    forall i, j :: 0 <= i < j < |xs| ==> xs[i] != xs[j]
  }

  /** `addTechnology` adds the typed text only when, trimmed, it is
      non-empty and not yet in the list. */
  predicate AcceptsTechnology(techs: seq<string>, input: string) {
    Trim(input) != "" && Trim(input) !in techs
  }

  /** The list after `addTechnology`: the trimmed input at the end when it
      is accepted, the same list otherwise. */
  function WithTechnology(techs: seq<string>, input: string): (r: seq<string>)
    ensures |techs| <= |r| <= |techs| + 1 && r[..|techs|] == techs
    ensures |r| == |techs| + 1 <==> AcceptsTechnology(techs, input)
    ensures |r| == |techs| + 1 ==> r[|techs|] == Trim(input)
    ensures Distinct(techs) ==> Distinct(r)
  {
    if AcceptsTechnology(techs, input) then techs + [Trim(input)] else techs
  }

  /** Adding the same text twice adds it once. */
  lemma WithTechnologyIdempotent(techs: seq<string>, input: string)
    ensures WithTechnology(WithTechnology(techs, input), input) == WithTechnology(techs, input)
  {
    if AcceptsTechnology(techs, input) {
      assert Trim(input) in WithTechnology(techs, input);
    }
  }

  /** The list after `removeTechnology`: every entry equal to `tech` is
      gone, the others stay in order. */
  function WithoutTechnology(techs: seq<string>, tech: string): (r: seq<string>)
    ensures tech !in r
    ensures forall t :: t in r <==> t in techs && t != tech
    ensures Distinct(techs) ==> Distinct(r)
  {
    FilterMembers(techs, (t: string) => t != tech);
    var r := Filter(techs, (t: string) => t != tech);
    if Distinct(techs) then
      DistinctFilter(techs, (t: string) => t != tech);
      r
    else r
  }

  lemma {:induction false} DistinctFilter(xs: seq<string>, p: string -> bool)
    requires Distinct(xs)
    ensures Distinct(Filter(xs, p))
  {
    if xs != [] {
      DistinctFilter(xs[1..], p);
      FilterMembers(xs[1..], p);
      assert xs[0] !in xs[1..];
    }
  }

  /** Adding an accepted technology and then removing it restores the list. */
  lemma AddThenRemove(techs: seq<string>, input: string)
    requires AcceptsTechnology(techs, input)
    ensures WithoutTechnology(WithTechnology(techs, input), Trim(input)) == techs
  {
    var p := (t: string) => t != Trim(input);
    FilterConcat(techs, [Trim(input)], p);
    FilterKeepsAll(techs, p);
  }

  /** The technology input of `ProjectForm` and `TimelineProjectForm`
      (identical code in both forms): the tag list in the form data and
      the text being typed. The other form fields are untouched by it. */
  class TechListEditor {
    var technologies: seq<string>
    var techInput: string

    constructor (initial: seq<string>)
      ensures technologies == initial && techInput == ""
    {
      technologies := initial;
      techInput := "";
    }

    method SetInput(text: string)
      modifies this
      ensures techInput == text && technologies == old(technologies)
    {
      techInput := text;
    }

    /** `addTechnology`: an accepted input is appended and cleared; a
        rejected one leaves list and input as they were. */
    method AddTechnology()
      modifies this
      ensures technologies == WithTechnology(old(technologies), old(techInput))
      ensures techInput == if AcceptsTechnology(old(technologies), old(techInput)) then "" else old(techInput)
    {
      var t := Trim(techInput);
      if t != "" && t !in technologies {
        technologies := technologies + [t];
        techInput := "";
      }
    }

    /** `removeTechnology`. */
    method RemoveTechnology(tech: string)
      modifies this
      ensures technologies == WithoutTechnology(old(technologies), tech)
      ensures techInput == old(techInput)
    {
      technologies := Filter(technologies, (t: string) => t != tech);
    }
  }

  /** `ProjectForm`'s initial data: the edited project's fields, with
      category 'ML' and empty values for a new project. */
  function InitialProjectForm(p: Option<ProjectData>): (d: ProjectData)
    ensures p.None? ==> d == ProjectData("", "", "", "ML", [], "", "", "", false)
    ensures p.Some? && p.value.category != "" ==> d == p.value
    ensures p.Some? && p.value.category == "" ==> d == p.value.(category := "ML")
  {
    match p
    case None => ProjectData("", "", "", "ML", [], "", "", "", false)
    case Some(v) => v.(category := Or(v.category, "ML"))
  }

  /** `TimelineProjectForm`'s initial data: status 'completed' for a new
      entry or one without a status. */
  function InitialTimelineForm(p: Option<TimelineData>): (d: TimelineData)
    ensures p.None? ==> d == TimelineData("", "", "", "", [], "", "completed", "", "", "")
    ensures p.Some? && p.value.status != "" ==> d == p.value
    ensures p.Some? && p.value.status == "" ==> d == p.value.(status := "completed")
  {
    match p
    case None => TimelineData("", "", "", "", [], "", "completed", "", "", "")
    case Some(v) => v.(status := Or(v.status, "completed"))
  }

  /** `CertificationForm`'s initial data; a new certification gets the
      current year (a parameter here) and the trophy icon. */
  function InitialCertificationForm(c: Option<CertificationData>, currentYear: string): (d: CertificationData)
    ensures c.None? ==> d == CertificationData("", "", currentYear, "🏆")
    ensures c.Some? ==> d.title == c.value.title && d.issuer == c.value.issuer
    ensures c.Some? && c.value.year != "" ==> d.year == c.value.year
    ensures c.Some? && c.value.year == "" ==> d.year == currentYear
    ensures c.Some? && c.value.icon != "" ==> d.icon == c.value.icon
    ensures c.Some? && c.value.icon == "" ==> d.icon == "🏆"
  {
    match c
    case None => CertificationData("", "", currentYear, "🏆")
    case Some(v) => v.(year := Or(v.year, currentYear), icon := Or(v.icon, "🏆"))
  }

  /** `SkillForm`'s initial data as written: `skill?.level || 50` treats a
      stored level 0 as missing. */
  function InitialSkillFormAsWritten(s: Option<SkillData>): (d: SkillData)
    ensures s.None? ==> d == SkillData("", 50, "Programming", "⚡")
    ensures s.Some? && s.value.level == 0 ==> d.level == 50
    ensures s.Some? && s.value.level != 0 ==> d.level == s.value.level
    ensures s.Some? ==> d.name == s.value.name
    ensures s.Some? && s.value.category != "" ==> d.category == s.value.category
    ensures s.Some? && s.value.category == "" ==> d.category == "Programming"
    ensures s.Some? && s.value.icon != "" ==> d.icon == s.value.icon
    ensures s.Some? && s.value.icon == "" ==> d.icon == "⚡"
  {
    match s
    case None => SkillData("", 50, "Programming", "⚡")
    case Some(v) => SkillData(v.name, if v.level != 0 then v.level else 50,
                              Or(v.category, "Programming"), Or(v.icon, "⚡"))
  }

  /** Opening a skill of level 0 for editing shows level 50, so saving it
      unchanged raises it to 50. */
  lemma SkillLevelZeroLost()
    ensures var s := SkillData("Python", 0, "Programming", "⚡");
      InitialSkillFormAsWritten(Some(s)) != s && InitialSkillFormAsWritten(Some(s)).level == 50
  {
  }

  /** `SkillForm`'s initial data as intended: the default level only for a
      new skill. */
  function InitialSkillForm(s: Option<SkillData>): (d: SkillData)
    ensures s.None? ==> d == SkillData("", 50, "Programming", "⚡")
    ensures s.Some? ==> d.level == s.value.level
    ensures s.Some? && s.value.category != "" && s.value.icon != "" ==> d == s.value
    ensures s.Some? && s.value.category == "" ==> d.category == "Programming"
    ensures s.Some? && s.value.icon == "" ==> d.icon == "⚡"
  {
    match s
    case None => SkillData("", 50, "Programming", "⚡")
    case Some(v) => v.(category := Or(v.category, "Programming"), icon := Or(v.icon, "⚡"))
  }

  /** `RadarSkillForm`'s initial data as written: `radarSkill?.level || 80`
      treats a stored level 0 as missing. */
  function InitialRadarFormAsWritten(r: Option<RadarSkillData>): (d: RadarSkillData)
    ensures r.None? ==> d == RadarSkillData("", 80, "", "#00D4FF")
    ensures r.Some? && r.value.level == 0 ==> d.level == 80
    ensures r.Some? && r.value.level != 0 ==> d.level == r.value.level
    ensures r.Some? ==> d.skill == r.value.skill && d.category == r.value.category
    ensures r.Some? && r.value.color != "" ==> d.color == r.value.color
    ensures r.Some? && r.value.color == "" ==> d.color == "#00D4FF"
  {
    match r
    case None => RadarSkillData("", 80, "", "#00D4FF")
    case Some(v) => RadarSkillData(v.skill, if v.level != 0 then v.level else 80, v.category, Or(v.color, "#00D4FF"))
  }

  /** Opening a radar skill of level 0 (the form's minimum) shows level 80. */
  lemma RadarLevelZeroLost()
    ensures var s := RadarSkillData("Python", 0, "ML", "#00D4FF");
      InitialRadarFormAsWritten(Some(s)) != s && InitialRadarFormAsWritten(Some(s)).level == 80
  {
  }

  /** `RadarSkillForm`'s initial data as intended. */
  function InitialRadarForm(r: Option<RadarSkillData>): (d: RadarSkillData)
    ensures r.None? ==> d == RadarSkillData("", 80, "", "#00D4FF")
    ensures r.Some? ==> d.level == r.value.level
    ensures r.Some? && r.value.color != "" ==> d == r.value
    ensures r.Some? && r.value.color == "" ==> d == r.value.(color := "#00D4FF")
  {
    match r
    case None => RadarSkillData("", 80, "", "#00D4FF")
    case Some(v) => v.(color := Or(v.color, "#00D4FF"))
  }

  /** Saving an edited entry with the data it already holds leaves the
      list as it was. */
  lemma SaveSameDataIsNoOp<D>(rs: seq<Record<D>>, i: nat, freshId: string)
    requires i < |rs| && rs[i].id != "" && UniqueIds(rs)
    ensures Upsert(rs, Some(rs[i]), rs[i].data, freshId) == rs
  {
    var r := Upsert(rs, Some(rs[i]), rs[i].data, freshId);
    forall j | 0 <= j < |rs| ensures r[j] == rs[j] {
      if rs[j].id == rs[i].id {
        assert j == i;
      }
    }
  }

  /** With the corrected form, opening a complete skill and saving it
      unchanged leaves the list as it was, whatever its level. */
  lemma SaveUnchangedEditIsNoOp(rs: seq<Record<SkillData>>, i: nat, freshId: string)
    requires i < |rs| && rs[i].id != "" && UniqueIds(rs)
    requires rs[i].data.category != "" && rs[i].data.icon != ""
    ensures Upsert(rs, Some(rs[i]), InitialSkillForm(Some(rs[i].data)), freshId) == rs
  {
    SaveSameDataIsNoOp(rs, i, freshId);
  }

  /** With the form as written the same holds only for a non-zero level;
      a skill at level 0 is saved back at level 50. */
  lemma SaveUnchangedEditAsWritten(rs: seq<Record<SkillData>>, i: nat, freshId: string)
    requires i < |rs| && rs[i].id != "" && UniqueIds(rs)
    requires rs[i].data.category != "" && rs[i].data.icon != ""
    ensures rs[i].data.level != 0 ==>
      Upsert(rs, Some(rs[i]), InitialSkillFormAsWritten(Some(rs[i].data)), freshId) == rs
    ensures rs[i].data.level == 0 ==>
      Upsert(rs, Some(rs[i]), InitialSkillFormAsWritten(Some(rs[i].data)), freshId)[i].data.level == 50
  {
    if rs[i].data.level != 0 {
      assert InitialSkillFormAsWritten(Some(rs[i].data)) == rs[i].data;
      SaveSameDataIsNoOp(rs, i, freshId);
    }
  }
}
