/** The browser the components run in, reduced to what they observe:
    local storage as a map from key to text, the custom events dispatched
    on `window`, and the two ways the display components read a stored
    value back (replace with fallback, or merge over defaults).
    `JSON.stringify`/`JSON.parse` are a `Codec`: a pair of functions that
    the model does not look inside. */
module Browser {
  import opened Common

  type Storage = map<string, string>

  const ProjectsKey := "portfolio_projects"
  const SkillsKey := "portfolio_skills"
  const ProfileKey := "portfolio_profile"
  const CertificationsKey := "portfolio_certifications"
  const RadarSkillsKey := "portfolio_skills_radar"
  const TimelineKey := "portfolio_timeline"
  const LoggedInKey := "admin_logged_in"

  /** Same-tab notification that the project list changed. */
  const ProjectsUpdatedEvent := "portfolioProjectsUpdated"

  /** `JSON.stringify` and a `JSON.parse` that fails with `None`. */
  datatype Codec<!T> = Codec(encode: T -> string, decode: string -> Option<T>)

  /** Parsing what was written gives back the value, and what is written
      is never the empty string (JSON text never is). */
  ghost predicate RoundTrips<T>(c: Codec<T>, x: T) {
    c.decode(c.encode(x)) == Some(x) && c.encode(x) != ""
  }

  /** `localStorage.getItem(key)`: `None` plays the part of `null`. */
  function GetItem(s: Storage, key: string): (r: Option<string>)
    ensures r.Some? <==> key in s
    ensures r.Some? ==> r.value == s[key]
  {
    if key in s then Some(s[key]) else None
  }

  /** The `if (saved)` test: a missing key and an empty string are both false. */
  predicate Truthy(saved: Option<string>) {
    saved.Some? && saved.value != ""
  }

  /** How the projects section and the timeline read their list:
      nothing saved keeps the current list, a parse error falls back to
      the defaults, otherwise the parsed list replaces the current one. */
  function LoadOrDefaults<T>(current: T, saved: Option<string>, codec: Codec<T>, defaults: T): (r: T)
    ensures !Truthy(saved) ==> r == current
    ensures Truthy(saved) && codec.decode(saved.value).None? ==> r == defaults
    ensures Truthy(saved) && codec.decode(saved.value).Some? ==> r == codec.decode(saved.value).value
  {
    if !Truthy(saved) then current
    else match codec.decode(saved.value)
      case None => defaults
      case Some(v) => v
  }

  /** What the admin panel writes, a display component reads back. */
  lemma LoadAfterWrite<T>(current: T, x: T, codec: Codec<T>, defaults: T)
    requires RoundTrips(codec, x)
    ensures LoadOrDefaults(current, Some(codec.encode(x)), codec, defaults) == x
  {
  }

  /** `saved ? JSON.parse(saved) : empty`: `None` when the parse throws. */
  function ParseOr<T>(saved: Option<string>, codec: Codec<T>, empty: T): (r: Option<T>)
    ensures !Truthy(saved) ==> r == Some(empty)
    ensures Truthy(saved) ==> r == codec.decode(saved.value)
  {
    if Truthy(saved) then codec.decode(saved.value) else Some(empty)
  }

  /** How the hero and contact sections read the profile:
      `{ ...prev, ...JSON.parse(saved) }`, and on a parse error or with
      nothing saved the previous fields stay. */
  function MergeSaved(prev: Fields, saved: Option<string>, codec: Codec<Fields>): (r: Fields)
    ensures prev.Keys <= r.Keys
    ensures !Truthy(saved) || codec.decode(saved.value).None? ==> r == prev
    ensures Truthy(saved) && codec.decode(saved.value).Some? ==>
      var parsed := codec.decode(saved.value).value;
      r.Keys == prev.Keys + parsed.Keys &&
      (forall k :: k in parsed ==> r[k] == parsed[k]) &&
      (forall k :: k in prev && k !in parsed ==> r[k] == prev[k])
  {
    if !Truthy(saved) then prev
    else match codec.decode(saved.value)
      case None => prev
      case Some(parsed) => prev + parsed
  }

  /** `window`: local storage and the custom events dispatched so far. */
  class Window {
    var storage: Storage
    var events: seq<string>

    constructor (initial: Storage)
      ensures storage == initial && events == []
    {
      storage := initial;
      events := [];
    }

    /** `localStorage.setItem(key, value)`. */
    method SetItem(key: string, value: string)
      modifies this
      ensures storage == old(storage)[key := value]
      ensures events == old(events)
    {
      storage := storage[key := value];
    }

    /** `localStorage.removeItem(key)`. */
    method RemoveItem(key: string)
      modifies this
      ensures storage == old(storage) - {key}
      ensures events == old(events)
    {
      storage := storage - {key};
    }

    /** `window.dispatchEvent(new CustomEvent(name))`. */
    method DispatchEvent(name: string)
      modifies this
      ensures events == old(events) + [name]
      ensures storage == old(storage)
    {
      events := events + [name];
    }
  }
}
