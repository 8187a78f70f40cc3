/** The second Map class, which repeats the version and size tables. */
module LegacyMap {
  import opened Cursor
  import opened Outcomes
  import MapView

  function LegacyVersionOf(code: U32): (r: Outcome<MapView.Version>)
    ensures r.Raised? ==> r.failure == UnknownVersion(code) && IsMapError(r.failure)
  {
    if code == 0x0E then Value(MapView.RoE)
    else if code == 0x15 then Value(MapView.AB)
    else if code == 0x1C then Value(MapView.SoD)
    else Raised(UnknownVersion(code))
  }

  function LegacySizeOf(code: U32): (r: Outcome<MapView.SizeClass>)
    ensures r.Raised? ==> r.failure == UnknownSize(code) && IsMapError(r.failure)
  {
    if code == 36 then Value(MapView.S)
    else if code == 72 then Value(MapView.M)
    else if code == 108 then Value(MapView.L)
    else if code == 144 then Value(MapView.XL)
    else Raised(UnknownSize(code))
  }

  /** Both copies of the tables give the same symbol, or the same error,
      for every code. */
  lemma TablesAgree(code: U32)
    ensures LegacyVersionOf(code) == MapView.VersionOf(code)
    ensures LegacySizeOf(code) == MapView.SizeOf(code)
  {
  }
}
