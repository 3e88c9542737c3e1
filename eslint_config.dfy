/** The `lucide/no-invalid-icon-import` lint rule: an import of a name
    that is not a lucide-react icon is reported, with up to three
    suggestions ranked by Levenshtein distance on the lower-cased names.

    The distance is specified by `Dist`, a recursive definition over
    prefixes, and computed by `Distance`, which fills the dynamic
    programming table in nested loops as the rule does. The ranking
    pipeline (`map`, `filter`, `sort`, `slice`) is a chain of pure
    functions over the scores. */
module IconLint {
  import opened Common
  import opened Text

  /** Largest distance at which an icon is still suggested. */
  const Threshold: nat := 3

  /** How many suggestions are listed at most. */
  const MaxSuggestions: nat := 3

  /** The package whose imports the rule checks. */
  const LucidePackage := "lucide-react"

  function Min3(x: nat, y: nat, z: nat): (m: nat)
    ensures m <= x && m <= y && m <= z
    ensures m == x || m == y || m == z
  {
    if x <= y && x <= z then x else if y <= z then y else z
  }

  function Max(x: nat, y: nat): nat {
    if x >= y then x else y
  }

  function Abs(x: int): nat {
    if x >= 0 then x else -x
  }

  /** Levenshtein distance between the first `i` characters of `a` and
      the first `j` characters of `b`: the table cell `dp[i][j]`. The
      first column and row count the characters of the other prefix; a
      cell whose two last characters match copies the diagonal cell, any
      other cell is one more than the least of its three neighbours. */
  function PrefixDist(a: string, b: string, i: nat, j: nat): nat
    requires i <= |a| && j <= |b|
    decreases i + j
  {
    if i == 0 then j
    else if j == 0 then i
    else if a[i - 1] == b[j - 1] then PrefixDist(a, b, i - 1, j - 1)
    else 1 + Min3(PrefixDist(a, b, i - 1, j), PrefixDist(a, b, i, j - 1), PrefixDist(a, b, i - 1, j - 1))
  }

  /** The distance between two whole strings: the bottom-right cell. */
  function Dist(a: string, b: string): nat {
    PrefixDist(a, b, |a|, |b|)
  }

  /** Fills row `i` of the table from row `i - 1`, left to right. */
  method FillRow(dp: array2<nat>, a: string, b: string, i: nat)
    requires dp.Length0 == |a| + 1 && dp.Length1 == |b| + 1
    requires 1 <= i <= |a|
    requires forall p, q {:trigger dp[p, q]} :: 0 <= p < i && 0 <= q <= |b| ==> dp[p, q] == PrefixDist(a, b, p, q)
    requires dp[i, 0] == PrefixDist(a, b, i, 0)
    modifies dp
    ensures forall p, q {:trigger dp[p, q]} :: 0 <= p <= i && 0 <= q <= |b| ==> dp[p, q] == PrefixDist(a, b, p, q)
    ensures forall p, q :: i < p <= |a| && 0 <= q <= |b| ==> dp[p, q] == old(dp[p, q])
  {
    for j := 1 to |b| + 1
      invariant forall p, q {:trigger dp[p, q]} :: 0 <= p < i && 0 <= q <= |b| ==> dp[p, q] == PrefixDist(a, b, p, q)
      invariant forall q {:trigger dp[i, q]} :: 0 <= q < j ==> dp[i, q] == PrefixDist(a, b, i, q)
      invariant forall p, q :: i < p <= |a| && 0 <= q <= |b| ==> dp[p, q] == old(dp[p, q])
    {
      if a[i - 1] == b[j - 1] {
        dp[i, j] := dp[i - 1, j - 1];
      } else {
        dp[i, j] := 1 + Min3(dp[i - 1, j], dp[i, j - 1], dp[i - 1, j - 1]);
      }
    }
  }

  /** The `distance` helper: base column, base row, then the table row by
      row; the answer is the bottom-right cell. */
  method Distance(a: string, b: string) returns (d: nat)
    ensures d == Dist(a, b)
  {
    var dp := new nat[|a| + 1, |b| + 1];
    for i := 0 to |a| + 1
      invariant forall p :: 0 <= p < i ==> dp[p, 0] == PrefixDist(a, b, p, 0)
    {
      dp[i, 0] := i;
    }
    for j := 0 to |b| + 1
      invariant forall p :: 0 <= p <= |a| ==> dp[p, 0] == PrefixDist(a, b, p, 0)
      invariant forall q :: 0 <= q < j ==> dp[0, q] == PrefixDist(a, b, 0, q)
    {
      dp[0, j] := j;
    }
    for i := 1 to |a| + 1
      invariant forall p, q {:trigger dp[p, q]} :: 0 <= p < i && 0 <= q <= |b| ==> dp[p, q] == PrefixDist(a, b, p, q)
      invariant forall p :: i <= p <= |a| ==> dp[p, 0] == PrefixDist(a, b, p, 0)
    {
      FillRow(dp, a, b, i);
    }
    d := dp[|a|, |b|];
  }

  /** The first column and the first row: the distance from the empty
      string is the length of the other string. */
  lemma DistEmpty(a: string, b: string)
    ensures Dist("", b) == |b|
    ensures Dist(a, "") == |a|
  {
  }

  lemma {:induction false} PrefixDistSelf(a: string, i: nat)
    requires i <= |a|
    ensures PrefixDist(a, a, i, i) == 0
  {
    if i > 0 {
      PrefixDistSelf(a, i - 1);
    }
  }

  /** A string is at distance 0 from itself. */
  lemma DistSelf(a: string)
    ensures Dist(a, a) == 0
  {
    PrefixDistSelf(a, |a|);
  }

  lemma {:induction false} PrefixDistZeroIff(a: string, b: string, i: nat, j: nat)
    requires i <= |a| && j <= |b|
    ensures PrefixDist(a, b, i, j) == 0 <==> i == j && a[..i] == b[..j]
    decreases i + j
  {
    if i > 0 && j > 0 {
      assert a[..i] == a[..i - 1] + [a[i - 1]];
      assert b[..j] == b[..j - 1] + [b[j - 1]];
      if a[i - 1] == b[j - 1] {
        PrefixDistZeroIff(a, b, i - 1, j - 1);
        if a[..i] == b[..j] {
          assert a[..i - 1] == a[..i][..i - 1];
          assert b[..j - 1] == b[..j][..j - 1];
        }
      } else if i == j {
        assert a[..i][i - 1] != b[..j][j - 1];
      }
    }
  }

  /** Distance 0 means equal strings, and only then. */
  lemma DistZeroIff(a: string, b: string)
    ensures Dist(a, b) == 0 <==> a == b
  {
    PrefixDistZeroIff(a, b, |a|, |b|);
    assert a[..|a|] == a && b[..|b|] == b;
  }

  /** The distance never exceeds the longer length. */
  lemma {:induction false} DistUpper(a: string, b: string, i: nat, j: nat)
    requires i <= |a| && j <= |b|
    ensures PrefixDist(a, b, i, j) <= Max(i, j)
    decreases i + j
  {
    if i > 0 && j > 0 {
      DistUpper(a, b, i - 1, j - 1);
    }
  }

  /** The distance is at least the difference of the lengths. */
  lemma {:induction false} DistLower(a: string, b: string, i: nat, j: nat)
    requires i <= |a| && j <= |b|
    ensures PrefixDist(a, b, i, j) >= Abs(i - j)
    decreases i + j
  {
    if i > 0 && j > 0 {
      DistLower(a, b, i - 1, j - 1);
      if a[i - 1] != b[j - 1] {
        DistLower(a, b, i - 1, j);
        DistLower(a, b, i, j - 1);
      }
    }
  }

  /** The distance does not depend on the order of its arguments. */
  lemma {:induction false} DistSymmetric(a: string, b: string, i: nat, j: nat)
    requires i <= |a| && j <= |b|
    ensures PrefixDist(a, b, i, j) == PrefixDist(b, a, j, i)
    decreases i + j
  {
    if i > 0 && j > 0 {
      DistSymmetric(a, b, i - 1, j - 1);
      if a[i - 1] != b[j - 1] {
        DistSymmetric(a, b, i - 1, j);
        DistSymmetric(a, b, i, j - 1);
      }
    }
  }

  /** An icon with its distance from the imported name. */
  datatype Scored = Scored(icon: string, score: nat)

  /** The score of one icon: the distance between the lower-cased name
      and the lower-cased icon. */
  function Score(name: string, icon: string): nat {
    Dist(ToLower(name), ToLower(icon))
  }

  /** `icons.map(icon => ({ icon, score }))`. */
  function ScoreAll(name: string, icons: seq<string>): (r: seq<Scored>)
    ensures |r| == |icons|
    ensures forall i :: 0 <= i < |icons| ==> r[i] == Scored(icons[i], Score(name, icons[i]))
  {
    seq(|icons|, i requires 0 <= i < |icons| => Scored(icons[i], Score(name, icons[i])))
  }

  /** The scoring loop, each score computed by the table. */
  method ScoreIcons(name: string, icons: seq<string>) returns (scored: seq<Scored>)
    ensures scored == ScoreAll(name, icons)
  {
    var lname := ToLower(name);
    scored := [];
    for k := 0 to |icons|
      invariant |scored| == k
      invariant forall i :: 0 <= i < k ==> scored[i] == Scored(icons[i], Score(name, icons[i]))
    {
      var d := Distance(lname, ToLower(icons[k]));
      scored := scored + [Scored(icons[k], d)];
    }
  }

  /** `filter(r => r.score <= threshold)`. */
  predicate WithinThreshold(s: Scored) {
    s.score <= Threshold
  }

  /** The entries with one given score, as a filter predicate. */
  function HasScore(k: nat): Scored -> bool {
    (s: Scored) => s.score == k
  }

  predicate SortedByScore(xs: seq<Scored>) {
    forall i, j :: 0 <= i < j < |xs| ==> xs[i].score <= xs[j].score
  }

  /** Puts `x` in front of the first entry whose score is not smaller, so
      that `x` stays ahead of the entries with the same score. */
  function Insert(x: Scored, xs: seq<Scored>): (r: seq<Scored>)
    ensures multiset(r) == multiset(xs) + multiset{x}
    ensures |r| == |xs| + 1
  {
    if xs == [] || x.score <= xs[0].score then [x] + xs
    else
      assert xs == [xs[0]] + xs[1..];
      [xs[0]] + Insert(x, xs[1..])
  }

  /** `sort((a, b) => a.score - b.score)`. `Array.prototype.sort` is
      stable, so entries with equal scores keep their order. */
  function SortByScore(xs: seq<Scored>): (r: seq<Scored>)
    ensures multiset(r) == multiset(xs)
    ensures |r| == |xs|
  {
    if xs == [] then []
    else
      assert xs == [xs[0]] + xs[1..];
      Insert(xs[0], SortByScore(xs[1..]))
  }

  lemma {:induction false} InsertSorted(x: Scored, xs: seq<Scored>)
    requires SortedByScore(xs)
    ensures SortedByScore(Insert(x, xs))
    decreases |xs|
  {
    if xs != [] && x.score > xs[0].score {
      InsertSorted(x, xs[1..]);
      var r := Insert(x, xs[1..]);
      forall e | e in r ensures xs[0].score <= e.score {
        assert e in multiset(r);
        if e != x {
          assert e in multiset(xs[1..]);
        }
      }
    }
  }

  /** The sorted entries are in non-decreasing score order. */
  lemma {:induction false} SortSorted(xs: seq<Scored>)
    ensures SortedByScore(SortByScore(xs))
    decreases |xs|
  {
    if xs != [] {
      SortSorted(xs[1..]);
      InsertSorted(xs[0], SortByScore(xs[1..]));
    }
  }

  lemma {:induction false} InsertStable(x: Scored, xs: seq<Scored>, k: nat)
    requires SortedByScore(xs)
    ensures Filter(Insert(x, xs), HasScore(k)) == (if x.score == k then [x] else []) + Filter(xs, HasScore(k))
    decreases |xs|
  {
    if xs == [] || x.score <= xs[0].score {
      FilterConcat([x], xs, HasScore(k));
    } else {
      InsertStable(x, xs[1..], k);
      FilterConcat([xs[0]], Insert(x, xs[1..]), HasScore(k));
      FilterConcat([xs[0]], xs[1..], HasScore(k));
      assert [xs[0]] + xs[1..] == xs;
    }
  }

  /** Stability: for every score, the entries with that score appear in
      the sorted list in the order they had before sorting. */
  lemma {:induction false} SortStable(xs: seq<Scored>, k: nat)
    ensures Filter(SortByScore(xs), HasScore(k)) == Filter(xs, HasScore(k))
    decreases |xs|
  {
    if xs != [] {
      SortStable(xs[1..], k);
      SortSorted(xs[1..]);
      InsertStable(xs[0], SortByScore(xs[1..]), k);
      FilterConcat([xs[0]], xs[1..], HasScore(k));
      assert [xs[0]] + xs[1..] == xs;
    }
  }

  /** The icons of the scored list are the given icons, with their scores. */
  lemma ScoredMember(name: string, icons: seq<string>, e: Scored)
    requires e in ScoreAll(name, icons)
    ensures e.icon in icons && e.score == Score(name, e.icon)
  {
    var k :| 0 <= k < |ScoreAll(name, icons)| && ScoreAll(name, icons)[k] == e;
  }

  /** The candidates within the threshold, best first: exactly the scored
      icons within the threshold, in non-decreasing score order. */
  function Ranked(name: string, icons: seq<string>): (r: seq<Scored>)
    ensures forall e :: e in r <==> e in ScoreAll(name, icons) && WithinThreshold(e)
    ensures SortedByScore(r)
  {
    var kept := Filter(ScoreAll(name, icons), WithinThreshold);
    FilterMembers(ScoreAll(name, icons), WithinThreshold);
    SortSorted(kept);
    var r := SortByScore(kept);
    assert forall e :: e in r <==> e in multiset(r);
    r
  }

  /** Every ranked candidate is one of the icons, with its own score, and
      lies within the threshold. */
  lemma RankedScores(name: string, icons: seq<string>)
    ensures forall i :: 0 <= i < |Ranked(name, icons)| ==>
      var e := Ranked(name, icons)[i];
      e.icon in icons && e.score == Score(name, e.icon) && e.score <= Threshold
  {
    var ranked := Ranked(name, icons);
    forall i | 0 <= i < |ranked|
      ensures ranked[i].icon in icons && ranked[i].score == Score(name, ranked[i].icon)
    {
      ScoredMember(name, icons, ranked[i]);
    }
  }

  /** `slice(0, 3).map(r => r.icon)`. */
  function Suggestions(name: string, icons: seq<string>): (r: seq<string>)
    ensures |r| == Min(MaxSuggestions, |Ranked(name, icons)|)
    ensures forall i :: 0 <= i < |r| ==> r[i] == Ranked(name, icons)[i].icon
  {
    var ranked := Ranked(name, icons);
    var top := ranked[..Min(MaxSuggestions, |ranked|)];
    seq(|top|, i requires 0 <= i < |top| => top[i].icon)
  }

  /** Every suggestion is one of the icons and lies within the threshold,
      suggestions come best first, and there are at most three. */
  lemma SuggestionsSound(name: string, icons: seq<string>)
    ensures var r := Suggestions(name, icons);
      |r| <= MaxSuggestions &&
      (forall i :: 0 <= i < |r| ==> r[i] in icons && Score(name, r[i]) <= Threshold) &&
      (forall i, j :: 0 <= i < j < |r| ==> Score(name, r[i]) <= Score(name, r[j]))
  {
    RankedScores(name, icons);
  }

  /** With fewer than three suggestions, every icon within the threshold
      is suggested; an icon within the threshold is left out only when
      three icons at least as close are listed. */
  lemma SuggestionsComplete(name: string, icons: seq<string>, k: nat)
    requires k < |icons| && Score(name, icons[k]) <= Threshold
    ensures var r := Suggestions(name, icons);
      |r| < MaxSuggestions ==> icons[k] in r
    ensures var r := Suggestions(name, icons);
      icons[k] !in r ==> |r| == MaxSuggestions && forall i :: 0 <= i < |r| ==> Score(name, r[i]) <= Score(name, icons[k])
  {
    var ranked := Ranked(name, icons);
    var e := ScoreAll(name, icons)[k];
    assert e in ranked;
    var p :| 0 <= p < |ranked| && ranked[p] == e;
    var r := Suggestions(name, icons);
    RankedScores(name, icons);
    if p < MaxSuggestions {
      assert r[p] == icons[k];
    }
  }

  /** Lower-casing the name first changes nothing: the comparison is
      case-insensitive. */
  lemma SuggestionsIgnoreCase(name: string, other: string, icons: seq<string>)
    requires ToLower(name) == ToLower(other)
    ensures Suggestions(name, icons) == Suggestions(other, icons)
  {
    assert ScoreAll(name, icons) == ScoreAll(other, icons);
  }

  /** The text `suggestClosestIcon` returns, given the icon list. */
  function SuggestionText(name: string, icons: seq<string>): (r: string)
  {
    if icons == [] then ""
    else
      var s := Suggestions(name, icons);
      if s == [] then "" else "Did you mean: " + Join(s, ", ") + "?"
  }

  /** The text is empty exactly when there are no icons or none is within
      the threshold; otherwise it lists the suggestions, best first. */
  lemma SuggestionTextEmptyIff(name: string, icons: seq<string>)
    ensures SuggestionText(name, icons) == "" <==>
      icons == [] || forall i :: 0 <= i < |icons| ==> Score(name, icons[i]) > Threshold
    ensures SuggestionText(name, icons) != "" ==>
      var s := Suggestions(name, icons);
      s != [] && SuggestionText(name, icons) == "Did you mean: " + Join(s, ", ") + "?"
  {
    var ranked := Ranked(name, icons);
    if exists i :: 0 <= i < |icons| && Score(name, icons[i]) <= Threshold {
      var i :| 0 <= i < |icons| && Score(name, icons[i]) <= Threshold;
      assert ScoreAll(name, icons)[i] in ranked;
    } else if ranked != [] {
      RankedScores(name, icons);
    }
  }

  /** One import specifier of an `import ... from` declaration. */
  datatype Specifier =
    | ImportSpecifier(imported: Option<string>)
    | ImportDefaultSpecifier
    | ImportNamespaceSpecifier

  /** A lint report: the position of the specifier and its message. */
  datatype Report = Report(index: nat, message: string)

  /** The specifiers the rule objects to: named imports whose name is
      present, non-empty and not an icon. */
  predicate Invalid(s: Specifier, icons: seq<string>) {
    s.ImportSpecifier? && s.imported.Some? && s.imported.value != "" && s.imported.value !in icons
  }

  /** `specifier.imported?.name`, "" when there is none. */
  function ImportedName(s: Specifier): string {
    if s.ImportSpecifier? && s.imported.Some? then s.imported.value else ""
  }

  function ReportMessage(name: string, icons: seq<string>): string {
    "'" + name + "' is not a valid lucide-react icon. " + SuggestionText(name, icons)
  }

  /** The reports for the first `n` specifiers, in specifier order. */
  function ReportsBefore(specs: seq<Specifier>, icons: seq<string>, n: nat): (r: seq<Report>)
    requires n <= |specs|
    ensures forall i :: 0 <= i < |r| ==> r[i].index < n && Invalid(specs[r[i].index], icons)
    ensures forall i :: 0 <= i < |r| ==> r[i].message == ReportMessage(ImportedName(specs[r[i].index]), icons)
    ensures forall i, j :: 0 <= i < j < |r| ==> r[i].index < r[j].index
    ensures forall k :: 0 <= k < n && Invalid(specs[k], icons) ==>
      Report(k, ReportMessage(ImportedName(specs[k]), icons)) in r
  {
    if n == 0 then []
    else
      var prev := ReportsBefore(specs, icons, n - 1);
      var s := specs[n - 1];
      if Invalid(s, icons) then prev + [Report(n - 1, ReportMessage(ImportedName(s), icons))]
      else prev
  }

  /** The reports of one declaration: none for another package or an empty
      icon list; otherwise one per invalid specifier. */
  function Reports(source: string, specs: seq<Specifier>, icons: seq<string>): seq<Report> {
    if source != LucidePackage || icons == [] then [] else ReportsBefore(specs, icons, |specs|)
  }

  /** A specifier is reported iff the source is lucide-react, the icon
      list is non-empty and the specifier names a non-icon; reports come
      in specifier order and carry the suggestion text. */
  lemma ReportedIff(source: string, specs: seq<Specifier>, icons: seq<string>, k: nat)
    requires k < |specs|
    ensures (exists i :: 0 <= i < |Reports(source, specs, icons)| && Reports(source, specs, icons)[i].index == k)
      <==> source == LucidePackage && icons != [] && Invalid(specs[k], icons)
    ensures forall i :: 0 <= i < |Reports(source, specs, icons)| && Reports(source, specs, icons)[i].index == k ==>
      Reports(source, specs, icons)[i].message == ReportMessage(ImportedName(specs[k]), icons)
  {
    var r := Reports(source, specs, icons);
    if source == LucidePackage && icons != [] && Invalid(specs[k], icons) {
      var i :| 0 <= i < |r| && r[i] == Report(k, ReportMessage(ImportedName(specs[k]), icons));
      assert r[i].index == k;
    }
  }

  /** The module-level icon cache: `lucideIcons` and `lucideIconsLoaded`. */
  class IconRegistry {
    var icons: seq<string>
    var loaded: bool

    constructor ()
      ensures icons == [] && !loaded
    {
      icons := [];
      loaded := false;
    }

    /** `loadLucideIcons`: only the first call loads. `available` is what
        `require('lucide-react')` yields (its export names), `None` when
        the package cannot be loaded, which leaves the list empty. */
    method LoadIcons(available: Option<seq<string>>)
      modifies this
      ensures loaded
      ensures old(loaded) ==> icons == old(icons)
      ensures !old(loaded) ==> icons == (if available.Some? then available.value else [])
    {
      if loaded {
        return;
      }
      match available {
        case Some(names) => icons := names;
        case None => icons := [];
      }
      loaded := true;
    }

    /** `suggestClosestIcon`: loads the icons if needed, then ranks them. */
    method SuggestClosestIcon(name: string, available: Option<seq<string>>) returns (text: string)
      modifies this
      ensures loaded
      ensures old(loaded) ==> icons == old(icons)
      ensures !old(loaded) ==> icons == (if available.Some? then available.value else [])
      ensures text == SuggestionText(name, icons)
    {
      if !loaded {
        LoadIcons(available);
      }
      if |icons| == 0 {
        return "";
      }
      var scored := ScoreIcons(name, icons);
      var ranked := SortByScore(Filter(scored, WithinThreshold));
      var top := ranked[..Min(MaxSuggestions, |ranked|)];
      var names := seq(|top|, i requires 0 <= i < |top| => top[i].icon);
      text := if |names| > 0 then "Did you mean: " + Join(names, ", ") + "?" else "";
    }

    /** The `ImportDeclaration` visitor: for a lucide-react import, loads the
        icons if needed and reports each invalid specifier in order. */
    method ImportDeclaration(source: string, specs: seq<Specifier>, available: Option<seq<string>>)
      returns (reports: seq<Report>)
      modifies this
      ensures source != LucidePackage ==> reports == [] && icons == old(icons) && loaded == old(loaded)
      ensures source == LucidePackage ==> loaded
      ensures source == LucidePackage && old(loaded) ==> icons == old(icons)
      ensures source == LucidePackage && !old(loaded) ==> icons == (if available.Some? then available.value else [])
      ensures reports == Reports(source, specs, icons)
    {
      if source != LucidePackage {
        return [];
      }
      if !loaded {
        LoadIcons(available);
      }
      if |icons| == 0 {
        return [];
      }
      ghost var loadedIcons := icons;
      reports := [];
      for k := 0 to |specs|
        invariant loaded && icons == loadedIcons
        invariant reports == ReportsBefore(specs, icons, k)
      {
        var s := specs[k];
        if s.ImportSpecifier? {
          var name := s.imported;
          if name.Some? && name.value != "" && name.value !in icons {
            var suggestion := SuggestClosestIcon(name.value, available);
            reports := reports + [Report(k, "'" + name.value + "' is not a valid lucide-react icon. " + suggestion)];
          }
        }
      }
    }
  }
}
