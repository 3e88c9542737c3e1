/** The skills section: skills grouped under four category cards, each
    skill's bar filled to its level once the observer reports it on screen,
    and the certification cards. Skills and certifications are read from
    local storage together, under one error handler. */
module Skills {
  import opened Common
  import opened Browser
  import opened Entities
  import opened Display

  const DefaultSkills: seq<SkillData> := [
    SkillData("Python", 95, "Programming", "🐍"),
    SkillData("TensorFlow", 90, "ML/AI", "🧠"),
    SkillData("Docker", 80, "Tools", "🐳"),
    SkillData("Pandas", 95, "Data", "🐼")
  ]

  const DefaultCertifications: seq<CertificationData> := [
    CertificationData("AWS Certified Machine Learning", "Amazon Web Services", "2024", "🏆"),
    CertificationData("TensorFlow Developer Certificate", "Google", "2023", "🥇"),
    CertificationData("Data Science Specialization", "Johns Hopkins University", "2023", "🎓")
  ]

  /** The category cards, in order; the admin panel's category picker
      offers the same four. */
  const SkillCategories := ["Programming", "ML/AI", "Tools", "Data"]

  /** What the section shows. */
  datatype SkillsContent = SkillsContent(skills: seq<SkillData>, certifications: seq<CertificationData>)

  /** The mount effect. Nothing saved under a key keeps that key's
      defaults; both lists read back as saved when both parse; and since
      one handler covers both reads, a parse error in either list brings
      back the defaults of both. */
  function MountedSkills(s: Storage, skillCodec: Codec<seq<SkillData>>, certCodec: Codec<seq<CertificationData>>): (r: SkillsContent)
    ensures ParseOr(GetItem(s, SkillsKey), skillCodec, DefaultSkills).Some? &&
            ParseOr(GetItem(s, CertificationsKey), certCodec, DefaultCertifications).Some? ==>
      r.skills == ParseOr(GetItem(s, SkillsKey), skillCodec, DefaultSkills).value &&
      r.certifications == ParseOr(GetItem(s, CertificationsKey), certCodec, DefaultCertifications).value
    ensures ParseOr(GetItem(s, SkillsKey), skillCodec, DefaultSkills).None? ||
            ParseOr(GetItem(s, CertificationsKey), certCodec, DefaultCertifications).None? ==>
      r == SkillsContent(DefaultSkills, DefaultCertifications)
  {
    match ParseOr(GetItem(s, SkillsKey), skillCodec, DefaultSkills)
    case None => SkillsContent(DefaultSkills, DefaultCertifications)
    case Some(skills) =>
      match ParseOr(GetItem(s, CertificationsKey), certCodec, DefaultCertifications)
      case None => SkillsContent(DefaultSkills, DefaultCertifications)
      case Some(certs) => SkillsContent(skills, certs)
  }

  /** Saved skills that parse are still discarded when the saved
      certifications do not. */
  lemma BadCertificationsDiscardSkills(s: Storage, skillCodec: Codec<seq<SkillData>>, certCodec: Codec<seq<CertificationData>>)
    requires Truthy(GetItem(s, SkillsKey)) && skillCodec.decode(s[SkillsKey]).Some?
    requires Truthy(GetItem(s, CertificationsKey)) && certCodec.decode(s[CertificationsKey]).None?
    ensures MountedSkills(s, skillCodec, certCodec).skills == DefaultSkills
  {
  }

  /** The entries' fields without their ids: the section's `Skill` and
      `Certification` have no `id`, so it renders only these. */
  function DataOf<D>(rs: seq<Record<D>>): (r: seq<D>)
    ensures |r| == |rs|
    ensures forall i :: 0 <= i < |rs| ==> r[i] == rs[i].data
  {
    seq(|rs|, i requires 0 <= i < |rs| => rs[i].data)
  }

  /** The section's parser reads what the admin panel's serializer wrote
      as the entries' fields, and the text written is not empty. */
  ghost predicate ReadsAsData<D>(panel: Codec<seq<Record<D>>>, section: Codec<seq<D>>, rs: seq<Record<D>>) {
    section.decode(panel.encode(rs)) == Some(DataOf(rs)) && panel.encode(rs) != ""
  }

  /** What the admin panel saved for both lists, written with the panel's
      own serializer of id-carrying entries, is what the section shows. */
  lemma SectionShowsPanelSkills(s: Storage, panelSkills: Codec<seq<Record<SkillData>>>,
                                panelCerts: Codec<seq<Record<CertificationData>>>,
                                skillCodec: Codec<seq<SkillData>>, certCodec: Codec<seq<CertificationData>>,
                                skills: seq<Record<SkillData>>, certs: seq<Record<CertificationData>>)
    requires ReadsAsData(panelSkills, skillCodec, skills) && ReadsAsData(panelCerts, certCodec, certs)
    ensures var st := s[SkillsKey := panelSkills.encode(skills)][CertificationsKey := panelCerts.encode(certs)];
      MountedSkills(st, skillCodec, certCodec) == SkillsContent(DataOf(skills), DataOf(certs))
  {
    var st := s[SkillsKey := panelSkills.encode(skills)][CertificationsKey := panelCerts.encode(certs)];
    assert GetItem(st, SkillsKey) == Some(panelSkills.encode(skills));
  }

  /** Lists written with the section's own serializer read back as
      written, both of them. */
  lemma SectionShowsSavedSkills(s: Storage, skillCodec: Codec<seq<SkillData>>, certCodec: Codec<seq<CertificationData>>,
                                skills: seq<SkillData>, certs: seq<CertificationData>)
    requires RoundTrips(skillCodec, skills) && RoundTrips(certCodec, certs)
    ensures var st := s[SkillsKey := skillCodec.encode(skills)][CertificationsKey := certCodec.encode(certs)];
      MountedSkills(st, skillCodec, certCodec) == SkillsContent(skills, certs)
  {
    var st := s[SkillsKey := skillCodec.encode(skills)][CertificationsKey := certCodec.encode(certs)];
    assert GetItem(st, SkillsKey) == Some(skillCodec.encode(skills));
  }

  function InCategory(category: string): SkillData -> bool {
    (sk: SkillData) => sk.category == category
  }

  /** The skills on one category card, in stored order. */
  function Group(skills: seq<SkillData>, category: string): (r: seq<SkillData>)
    ensures forall sk :: sk in r <==> sk in skills && sk.category == category
  {
    FilterMembers(skills, InCategory(category));
    Filter(skills, InCategory(category))
  }

  /** The four cards. */
  function Groups(skills: seq<SkillData>): (r: seq<seq<SkillData>>)
    ensures |r| == |SkillCategories|
    ensures forall i :: 0 <= i < |r| ==> r[i] == Group(skills, SkillCategories[i])
  {
    seq(|SkillCategories|, i requires 0 <= i < |SkillCategories| => Group(skills, SkillCategories[i]))
  }

  /** A skill is on a card exactly when its category is one of the four,
      and then on exactly one card. */
  lemma SkillShownIff(skills: seq<SkillData>, sk: SkillData)
    ensures (exists i :: 0 <= i < |Groups(skills)| && sk in Groups(skills)[i]) <==>
      sk in skills && sk.category in SkillCategories
    ensures forall i, j :: 0 <= i < j < |Groups(skills)| ==> !(sk in Groups(skills)[i] && sk in Groups(skills)[j])
  {
    var g := Groups(skills);
    if sk in skills && sk.category in SkillCategories {
      var i :| 0 <= i < |SkillCategories| && SkillCategories[i] == sk.category;
      assert sk in g[i];
    }
  }

  /** The bar: empty until the skill is reported on screen, then its level. */
  function ProgressValue(sk: SkillData, visible: set<string>): (v: int)
    ensures sk.name !in visible ==> v == 0
    ensures sk.name in visible ==> v == sk.level
  {
    if sk.name in visible then sk.level else 0
  }

  /** The section's state. */
  class SkillsSection {
    var skills: seq<SkillData>
    var certifications: seq<CertificationData>
    var visibleSkills: set<string>

    constructor (s: Storage, skillCodec: Codec<seq<SkillData>>, certCodec: Codec<seq<CertificationData>>)
      ensures SkillsContent(skills, certifications) == MountedSkills(s, skillCodec, certCodec)
      ensures visibleSkills == {}
    {
      var c := MountedSkills(s, skillCodec, certCodec);
      skills := c.skills;
      certifications := c.certifications;
      visibleSkills := {};
    }

    /** The observer callback, keyed by skill name. Bars only ever fill. */
    method ObserverFired(entries: seq<ObserverEntry>)
      modifies this
      ensures visibleSkills == old(visibleSkills) + IntersectingIds(entries)
      ensures forall sk :: ProgressValue(sk, old(visibleSkills)) != 0 ==> ProgressValue(sk, visibleSkills) == sk.level
      ensures skills == old(skills) && certifications == old(certifications)
    {
      visibleSkills := AccumulateVisible(visibleSkills, entries);
    }
  }
}
