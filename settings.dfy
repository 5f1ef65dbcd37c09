/** The user settings the pages read from local storage, and the location text built from them. */
module Settings {
  import opened Wrappers
  import opened Js

  datatype Location = Location(prefecture: string, city: string, town: Option<string>)

  /** A stored settings blob; transport and age group may be absent. */
  datatype UserSettings = UserSettings(location: Location, transport: Option<string>, ageGroup: Option<string>)

  /**
   * What reading the stored blob gives: nothing stored, a blob that `JSON.parse`
   * rejects or that has no location object (reading it throws), or settings.
   */
  datatype StoredSettings = NotStored | Unreadable | Readable(settings: UserSettings)

  /** The settings of a blob that could be read; None when nothing is stored. */
  function Found(stored: StoredSettings): (r: Option<UserSettings>)
    requires !stored.Unreadable?
    ensures r.Some? <==> stored.Readable?
    ensures r.Some? ==> r.value == stored.settings
  {
    if stored.Readable? then Some(stored.settings) else None
  }

  /** The blob the setup page writes: prefecture, city and age group, never a town or a transport. */
  function SetupSettings(prefecture: string, city: string, ageGroup: string): (s: UserSettings)
    ensures s.location.town.None? && s.transport.None? && s.ageGroup == Some(ageGroup)
    ensures s.location.prefecture == prefecture && s.location.city == city
  {
    UserSettings(Location(prefecture, city, None), None, Some(ageGroup))
  }

  /** `${prefecture} ${city} ${town || ''}`. */
  function LocationText(loc: Location): (r: string)
    ensures Truthy(Some(r))
    ensures |r| == |loc.prefecture| + |loc.city| + 2 + if Truthy(loc.town) then |loc.town.value| else 0
    ensures r[..|loc.prefecture|] == loc.prefecture && r[|loc.prefecture|] == ' '
    ensures r[|loc.prefecture| + 1..|loc.prefecture| + 1 + |loc.city|] == loc.city
    ensures r[|loc.prefecture| + 1 + |loc.city|] == ' '
    ensures !Truthy(loc.town) ==> r[|r| - 1] == ' '
    ensures Truthy(loc.town) ==> r[|r| - |loc.town.value|..] == loc.town.value
  {
    loc.prefecture + " " + loc.city + " " + Or(loc.town, "")
  }

  /** The setup page's settings give a location that ends in a space, since there is no town. */
  lemma SetupLocationEndsInSpace(prefecture: string, city: string, ageGroup: string)
    ensures LocationText(SetupSettings(prefecture, city, ageGroup).location)
         == prefecture + " " + city + " "
  {
  }
}
