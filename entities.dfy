/** The content entities the admin panel edits and the sections display,
    and the two list rules every admin collection applies to them:
    replace-by-id on edit, and delete-by-id through a filter.

    Every saved entry is built as `{ ...formData, id }`, so an entry is
    its form data plus an id: `Record(id, data)`. Optional text fields
    hold "" when absent; the site tests them with `||` and `&&`, which
    treat `undefined` and "" alike. */
module Entities {
  import opened Common

  datatype Record<D> = Record(id: string, data: D)

  datatype ProjectData = ProjectData(
    title: string,
    description: string,
    longDescription: string,
    category: string,
    technologies: seq<string>,
    imageUrl: string,
    demoUrl: string,
    githubUrl: string,
    featured: bool)

  datatype SkillData = SkillData(name: string, level: int, category: string, icon: string)

  datatype CertificationData = CertificationData(title: string, issuer: string, year: string, icon: string)

  datatype RadarSkillData = RadarSkillData(skill: string, level: int, category: string, color: string)

  datatype TimelineData = TimelineData(
    title: string,
    description: string,
    date: string,
    category: string,
    technologies: seq<string>,
    image: string,
    status: string,
    impact: string,
    demoUrl: string,
    githubUrl: string)

  /** The ids of a list, in order. */
  function Ids<D>(rs: seq<Record<D>>): (r: seq<string>)
    ensures |r| == |rs|
    ensures forall i :: 0 <= i < |rs| ==> r[i] == rs[i].id
  {
    seq(|rs|, i requires 0 <= i < |rs| => rs[i].id)
  }

  /** No two entries share an id. */
  predicate UniqueIds<D>(rs: seq<Record<D>>) {
    forall i, j :: 0 <= i < j < |rs| ==> rs[i].id != rs[j].id
  }

  /** `list.map(p => p.id === id ? rec : p)`: same length, every entry
      with that id replaced by `rec`, every other entry untouched. */
  function ReplaceById<D>(rs: seq<Record<D>>, id: string, rec: Record<D>): (r: seq<Record<D>>)
    ensures |r| == |rs|
    ensures forall i :: 0 <= i < |rs| && rs[i].id == id ==> r[i] == rec
    ensures forall i :: 0 <= i < |rs| && rs[i].id != id ==> r[i] == rs[i]
  {
    if rs == [] then []
    else [if rs[0].id == id then rec else rs[0]] + ReplaceById(rs[1..], id, rec)
  }

  /** `list.filter(p => p.id !== id)`: delete keeps exactly the entries
      whose id differs, so the deleted id is gone. */
  function RemoveById<D>(rs: seq<Record<D>>, id: string): (r: seq<Record<D>>)
    ensures forall i :: 0 <= i < |r| ==> r[i] in rs && r[i].id != id
    ensures forall i :: 0 <= i < |rs| && rs[i].id != id ==> rs[i] in r
    ensures id !in Ids(r)
    ensures |r| <= |rs|
  {
    Filter(rs, (x: Record<D>) => x.id != id)
  }

  /** Delete keeps the survivors in their original order: deleting from a
      concatenation deletes from each part. */
  lemma RemoveByIdConcat<D>(a: seq<Record<D>>, b: seq<Record<D>>, id: string)
    ensures RemoveById(a + b, id) == RemoveById(a, id) + RemoveById(b, id)
  {
    FilterConcat(a, b, (x: Record<D>) => x.id != id);
  }

  /** Deleting an id that is not present changes nothing. */
  lemma RemoveAbsentId<D>(rs: seq<Record<D>>, id: string)
    requires id !in Ids(rs)
    ensures RemoveById(rs, id) == rs
  {
    forall x | x in rs ensures x.id != id {
      var i :| 0 <= i < |rs| && rs[i] == x;
      assert Ids(rs)[i] == x.id;
    }
    FilterKeepsAll(rs, (x: Record<D>) => x.id != id);
  }

  /** Deleting twice is deleting once. */
  lemma RemoveTwice<D>(rs: seq<Record<D>>, id: string)
    ensures RemoveById(RemoveById(rs, id), id) == RemoveById(rs, id)
  {
    FilterIdempotent(rs, (x: Record<D>) => x.id != id);
  }

  /** Creating an entry with a fresh id and then deleting it restores the list. */
  lemma RemoveAfterAppend<D>(rs: seq<Record<D>>, rec: Record<D>)
    requires rec.id !in Ids(rs)
    ensures RemoveById(rs + [rec], rec.id) == rs
  {
    RemoveByIdConcat(rs, [rec], rec.id);
    RemoveAbsentId(rs, rec.id);
    assert RemoveById([rec], rec.id) == [];
  }

  /** Delete keeps ids unique. */
  lemma RemoveKeepsUnique<D>(rs: seq<Record<D>>, id: string)
    requires UniqueIds(rs)
    ensures UniqueIds(RemoveById(rs, id))
    decreases |rs|
  {
    if rs != [] {
      RemoveKeepsUnique(rs[1..], id);
      RemoveByIdConcat([rs[0]], rs[1..], id);
      assert [rs[0]] + rs[1..] == rs;
      forall x | x in RemoveById(rs[1..], id) ensures x.id != rs[0].id {
        var j :| 0 <= j < |rs[1..]| && rs[1..][j] == x;
        assert rs[j + 1] == x;
      }
    }
  }

  /** An edit keeps ids unique when the new record keeps the edited id or
      takes an id not yet in use; with the edited id kept, the ids are
      exactly the old ones. */
  lemma ReplaceKeepsUnique<D>(rs: seq<Record<D>>, id: string, rec: Record<D>)
    requires UniqueIds(rs)
    requires rec.id == id || rec.id !in Ids(rs)
    ensures UniqueIds(ReplaceById(rs, id, rec))
    ensures rec.id == id ==> Ids(ReplaceById(rs, id, rec)) == Ids(rs)
  {
    var r := ReplaceById(rs, id, rec);
    forall i, j | 0 <= i < j < |r| ensures r[i].id != r[j].id {
      assert Ids(rs)[i] == rs[i].id && Ids(rs)[j] == rs[j].id;
    }
  }

  /** A create with an id not yet in use keeps ids unique. */
  lemma AppendKeepsUnique<D>(rs: seq<Record<D>>, rec: Record<D>)
    requires UniqueIds(rs) && rec.id !in Ids(rs)
    ensures UniqueIds(rs + [rec])
  {
    forall i | 0 <= i < |rs| ensures rs[i].id != rec.id {
      assert Ids(rs)[i] == rs[i].id;
    }
  }

  /** `editing?.id || prefix + now`: the id a save gives its entry. */
  function SavedId<D>(editing: Option<Record<D>>, freshId: string): (id: string)
    ensures editing.Some? && editing.value.id != "" ==> id == editing.value.id
    ensures editing.None? || editing.value.id == "" ==> id == freshId
  {
    if editing.Some? && editing.value.id != "" then editing.value.id else freshId
  }

  /** The list a save produces: with an entry being edited, every entry with
      the edited id is replaced by the new record; otherwise the new record
      is appended at the end. The new record is the form data plus the id,
      so an edit replaces the old entry rather than merging into it. */
  function Upsert<D>(rs: seq<Record<D>>, editing: Option<Record<D>>, data: D, freshId: string): (r: seq<Record<D>>)
    ensures editing.Some? ==> |r| == |rs|
    ensures editing.Some? ==> forall i :: 0 <= i < |rs| ==>
      r[i] == if rs[i].id == editing.value.id then Record(SavedId(editing, freshId), data) else rs[i]
    ensures editing.None? ==> |r| == |rs| + 1 && r[..|rs|] == rs && r[|rs|] == Record(freshId, data)
  {
    var rec := Record(SavedId(editing, freshId), data);
    if editing.Some? then ReplaceById(rs, editing.value.id, rec) else rs + [rec]
  }

  /** A save keeps ids unique, provided the fresh id is not yet in use. */
  lemma UpsertKeepsUnique<D>(rs: seq<Record<D>>, editing: Option<Record<D>>, data: D, freshId: string)
    requires UniqueIds(rs) && freshId !in Ids(rs)
    ensures UniqueIds(Upsert(rs, editing, data, freshId))
  {
    var rec := Record(SavedId(editing, freshId), data);
    if editing.Some? {
      ReplaceKeepsUnique(rs, editing.value.id, rec);
    } else {
      AppendKeepsUnique(rs, rec);
    }
  }

  /** Saving an edit of a listed entry leaves that entry holding exactly the
      submitted data under the same id. */
  lemma EditThenLookup<D>(rs: seq<Record<D>>, i: nat, data: D, freshId: string)
    requires i < |rs| && rs[i].id != ""
    ensures Upsert(rs, Some(rs[i]), data, freshId)[i] == Record(rs[i].id, data)
  {
  }
}
