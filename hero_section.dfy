/** The hero section: the profile merged from local storage over built-in
    defaults, the title and description in the current language, the
    typewriter that writes the title out one character per tick, and the
    buttons shown only for the links the profile has. */
module Hero {
  import opened Common
  import opened Browser

  /** The profile before anything saved is merged in. */
  const DefaultProfile: Fields := map[
    "name" := "Tu Nombre",
    "title" := "AI & Data Science Visionary",
    "title_en" := "",
    "title_es" := "",
    "description" := "Especialista en inteligencia artificial y ciencia de datos con pasión por crear soluciones innovadoras.",
    "description_en" := "",
    "description_es" := "",
    "resumeUrl" := "",
    "githubUrl" := "",
    "linkedinUrl" := "",
    "email" := ""
  ]

  const Spanish := "es"

  /** The mounted profile: what is saved, merged over the defaults; a
      missing or unparsable entry leaves the defaults. */
  function MountedProfile(s: Storage, codec: Codec<Fields>): (p: Fields)
    ensures DefaultProfile.Keys <= p.Keys
    ensures !Truthy(GetItem(s, ProfileKey)) || codec.decode(s[ProfileKey]).None? ==> p == DefaultProfile
    ensures Truthy(GetItem(s, ProfileKey)) && codec.decode(s[ProfileKey]).Some? ==>
      var saved := codec.decode(s[ProfileKey]).value;
      p.Keys == DefaultProfile.Keys + saved.Keys &&
      (forall k :: k in saved ==> p[k] == saved[k]) &&
      (forall k :: k in DefaultProfile && k !in saved ==> p[k] == DefaultProfile[k])
  {
    MergeSaved(DefaultProfile, GetItem(s, ProfileKey), codec)
  }

  /** `language === 'es' ? (p[base_es] || p[base]) : (p[base_en] || p[base])`:
      the text in the current language when it is set, the base text otherwise. */
  function Localized(p: Fields, base: string, language: string): (r: string)
    ensures var own := Field(p, base + (if language == Spanish then "_es" else "_en"));
      (own != "" ==> r == own) && (own == "" ==> r == Field(p, base))
  {
    if language == Spanish then Or(Field(p, base + "_es"), Field(p, base))
    else Or(Field(p, base + "_en"), Field(p, base))
  }

  /** `currentTitle`. */
  function CurrentTitle(p: Fields, language: string): (r: string)
    ensures var own := Field(p, if language == Spanish then "title_es" else "title_en");
      (own != "" ==> r == own) && (own == "" ==> r == Field(p, "title"))
  {
    assert "title" + "_es" == "title_es" && "title" + "_en" == "title_en";
    Localized(p, "title", language)
  }

  /** `currentDescription`. */
  function CurrentDescription(p: Fields, language: string): (r: string)
    ensures var own := Field(p, if language == Spanish then "description_es" else "description_en");
      (own != "" ==> r == own) && (own == "" ==> r == Field(p, "description"))
  {
    assert "description" + "_es" == "description_es" && "description" + "_en" == "description_en";
    Localized(p, "description", language)
  }

  /** With nothing saved, both languages show the default title and description. */
  lemma DefaultTexts(language: string)
    ensures CurrentTitle(DefaultProfile, language) == "AI & Data Science Visionary"
    ensures CurrentDescription(DefaultProfile, language) == DefaultProfile["description"]
  {
  }

  /** A profile the admin panel saved is what the hero shows: every saved
      field overrides the default, every other field keeps its default,
      and a saved Spanish title is the Spanish heading. */
  lemma HeroShowsSavedProfile(s: Storage, codec: Codec<Fields>, saved: Fields)
    requires RoundTrips(codec, saved)
    ensures MountedProfile(s[ProfileKey := codec.encode(saved)], codec) == DefaultProfile + saved
    ensures Field(saved, "title_es") != "" ==>
      CurrentTitle(MountedProfile(s[ProfileKey := codec.encode(saved)], codec), Spanish) == saved["title_es"]
  {
    var p := MountedProfile(s[ProfileKey := codec.encode(saved)], codec);
    assert p == DefaultProfile + saved;
  }

  /** The hero's link buttons: a link is shown exactly when its field is set,
      and the e-mail link is a `mailto:` link. */
  datatype Links = Links(resume: Option<string>, github: Option<string>, linkedin: Option<string>, email: Option<string>)

  function LinkIf(url: string): (r: Option<string>)
    ensures r.Some? <==> url != ""
    ensures r.Some? ==> r.value == url
  {
    if url != "" then Some(url) else None
  }

  function HeroLinks(p: Fields): (r: Links)
    ensures r.resume.Some? <==> Field(p, "resumeUrl") != ""
    ensures r.github.Some? <==> Field(p, "githubUrl") != ""
    ensures r.linkedin.Some? <==> Field(p, "linkedinUrl") != ""
    ensures r.email.Some? <==> Field(p, "email") != ""
    ensures r.email.Some? ==> r.email.value == "mailto:" + p["email"]
  {
    Links(LinkIf(Field(p, "resumeUrl")), LinkIf(Field(p, "githubUrl")), LinkIf(Field(p, "linkedinUrl")),
      if Field(p, "email") != "" then Some("mailto:" + Field(p, "email")) else None)
  }

  /** With nothing saved the hero shows no link buttons. */
  lemma DefaultProfileHasNoLinks()
    ensures HeroLinks(DefaultProfile) == Links(None, None, None, None)
  {
  }

  /** The typing effect: each run of the 100 ms interval shows one more
      character of the title until all of it shows, then the interval stops. */
  class Typewriter {
    var title: string
    var index: nat
    var displayText: string
    var running: bool

    /** What is shown is always the first `index` characters of the title. */
    ghost predicate Valid()
      reads this
    {
      index <= |title| && displayText == title[..index]
    }

    constructor (t: string)
      ensures Valid() && title == t && displayText == "" && running
    {
      title := t;
      index := 0;
      displayText := "";
      running := true;
    }

    /** The effect re-run when `currentTitle` changes: the text is cleared
        and a new interval starts from the first character. */
    method Restart(t: string)
      modifies this
      ensures Valid() && title == t && index == 0 && displayText == "" && running
    {
      title := t;
      index := 0;
      displayText := "";
      running := true;
    }

    /** One run of the interval. */
    method Tick()
      requires Valid()
      modifies this
      ensures Valid() && title == old(title)
      ensures old(running) && old(index) < |title| ==> index == old(index) + 1 && running
      ensures old(running) && old(index) == |title| ==> !running && displayText == title
      ensures !old(running) ==> index == old(index) && !running
      ensures |old(displayText)| <= |displayText|
    {
      if !running {
        return;
      }
      if index < |title| {
        displayText := title[..index + 1];
        index := index + 1;
      } else {
        running := false;
      }
    }
  }
}
