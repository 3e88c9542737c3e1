/** Rendering rules shared by the project cards and the timeline cards:
    the truncated technology badge row, and the "seen so far" set that
    the intersection observer callbacks grow. */
module Display {
  import opened Common

  /** How many technology badges a compact card shows before the "+n" badge. */
  const MaxBadges := 3

  /** The badge row of a compact card: the technologies shown, and the
      count on the trailing "+n" badge when there is one. */
  datatype TechView = TechView(badges: seq<string>, more: Option<nat>)

  /** `techs.slice(0, 3)` followed by `+{techs.length - 3}` when
      `techs.length > 3`. */
  function TechBadges(techs: seq<string>): (v: TechView)
    ensures |v.badges| == Min(MaxBadges, |techs|)
    ensures v.badges == techs[..|v.badges|]
    ensures v.more.Some? <==> |techs| > MaxBadges
    ensures v.more.Some? ==> |v.badges| + v.more.value == |techs|
  {
    if |techs| > MaxBadges then TechView(techs[..MaxBadges], Some(|techs| - MaxBadges))
    else TechView(techs, None)
  }

  /** Every technology is accounted for exactly once: shown as a badge or
      counted in the "+n" badge, and what is shown followed by what is
      counted is the whole list. */
  lemma TechBadgesAccount(techs: seq<string>)
    ensures var v := TechBadges(techs);
      v.badges + techs[|v.badges|..] == techs &&
      (v.more.None? ==> v.badges == techs)
  {
  }

  /** One `IntersectionObserverEntry`: whether the element came into view,
      and its data attribute naming the entry ("" when it has none). */
  datatype ObserverEntry = ObserverEntry(isIntersecting: bool, targetId: string)

  /** The ids a batch of entries makes visible. */
  function IntersectingIds(entries: seq<ObserverEntry>): (r: set<string>)
    ensures forall e :: e in entries && e.isIntersecting && e.targetId != "" ==> e.targetId in r
    ensures forall id :: id in r ==> id != "" && exists e :: e in entries && e.isIntersecting && e.targetId == id
  {
    set e | e in entries && e.isIntersecting && e.targetId != "" :: e.targetId
  }

  /** The observer callback: `entries.forEach` adding each intersecting
      element's id to the visible set. The set only grows, and it grows by
      exactly the ids of the intersecting entries. */
  method AccumulateVisible(visible: set<string>, entries: seq<ObserverEntry>) returns (r: set<string>)
    ensures visible <= r
    ensures r == visible + IntersectingIds(entries)
  {
    r := visible;
    for i := 0 to |entries|
      invariant r == visible + IntersectingIds(entries[..i])
    {
      var e := entries[i];
      assert entries[..i + 1] == entries[..i] + [e];
      if e.isIntersecting {
        if e.targetId != "" {
          r := r + {e.targetId};
        }
      }
    }
    assert entries[..|entries|] == entries;
  }
}
