/**
  Properties of Trip that relate several calls: the copy constructor and the
  two independent bike flags.
 */
module TripProperties {
  import opened Wrappers
  import opened JavaInts
  import opened Trips

  /** The copy is equal to its source. */
  lemma CopyEqualsSource(t: Trip)
    ensures CopyOf(t) == t
  {
  }

  /** Editing the copy's headsign leaves the source as it was: the edited
      copy differs from the source in the headsign alone. */
  lemma CopyIsIndependent(t: Trip, h: Option<string>)
    ensures GetTripHeadsign(SetTripHeadsign(CopyOf(t), h)) == h
    ensures SameExcept(t, SetTripHeadsign(CopyOf(t), h), TripHeadsign)
    ensures h != GetTripHeadsign(t) ==> SetTripHeadsign(CopyOf(t), h) != t
  {
  }

  /** Writes to the two bike flags commute, and each reads back what was
      written to it and not what was written to the other. */
  lemma BikeFlagsIndependent(t: Trip, legacy: Int32, current: Int32)
    ensures SetBikesAllowed(SetTripBikesAllowed(t, legacy), current)
         == SetTripBikesAllowed(SetBikesAllowed(t, current), legacy)
    ensures GetTripBikesAllowed(SetBikesAllowed(SetTripBikesAllowed(t, legacy), current)) == legacy
    ensures GetBikesAllowed(SetTripBikesAllowed(SetBikesAllowed(t, current), legacy)) == current
  {
  }

  /** No validation: out-of-range codes are stored as given. */
  lemma FlagsStoredVerbatim(t: Trip)
    ensures GetBikesAllowed(SetBikesAllowed(t, 7)) == 7
    ensures GetWheelchairAccessible(SetWheelchairAccessible(t, -1)) == -1
  {
  }
}
