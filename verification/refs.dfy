/**
  Entities a StopTime or Trip points at but does not own (Stop, Trip, Route)
  and the composite identifier of globally scoped entities. Their classes are
  not part of this model: a reference is only an identity handle, and a
  Java `null` reference is `None` at the use site.
 */
module Refs {

  /** Composite key: an agency (namespace) and an id local to it. */
  datatype AgencyAndId = AgencyAndId(agencyId: string, id: string)

  /** Identity of a Trip object held by a StopTime. */
  datatype TripRef = TripRef(handle: nat)

  /** Identity of a Stop object held by a StopTime. */
  datatype StopRef = StopRef(handle: nat)

  /** Identity of a Route object held by a Trip. */
  datatype RouteRef = RouteRef(handle: nat)
}
