/**
  The Trip record: one scheduled vehicle run. A plain record with no
  validation and no delegation; Java `null` fields are `None`.
 */
module Trips {
  import opened Wrappers
  import opened JavaInts
  import opened Refs

  datatype Trip = Trip(
    id: Option<AgencyAndId>,
    route: Option<RouteRef>,
    serviceId: Option<AgencyAndId>,
    tripShortName: Option<string>,
    tripHeadsign: Option<string>,
    routeShortName: Option<string>,
    directionId: Option<string>,
    blockId: Option<string>,
    shapeId: Option<AgencyAndId>,
    wheelchairAccessible: Int32,
    tripBikesAllowed: Int32,  // deprecated; independent of bikesAllowed
    bikesAllowed: Int32)      // 0 unknown, 1 allowed, 2 not allowed (not enforced)

  /** Names of the fields of a Trip. */
  datatype Field =
    | Id | Route | ServiceId | TripShortName | TripHeadsign | RouteShortName
    | DirectionId | BlockId | ShapeId | WheelchairAccessible | TripBikesAllowed
    | BikesAllowed

  /** The content of one field, whatever its type. */
  datatype Value =
    | KeyVal(key: Option<AgencyAndId>)
    | RouteVal(route: Option<RouteRef>)
    | TextVal(text: Option<string>)
    | IntVal(i: int)

  /** Raw read of field `n`. */
  function Read(t: Trip, n: Field): Value {
    match n
    case Id => KeyVal(t.id)
    case Route => RouteVal(t.route)
    case ServiceId => KeyVal(t.serviceId)
    case TripShortName => TextVal(t.tripShortName)
    case TripHeadsign => TextVal(t.tripHeadsign)
    case RouteShortName => TextVal(t.routeShortName)
    case DirectionId => TextVal(t.directionId)
    case BlockId => TextVal(t.blockId)
    case ShapeId => KeyVal(t.shapeId)
    case WheelchairAccessible => IntVal(t.wheelchairAccessible)
    case TripBikesAllowed => IntVal(t.tripBikesAllowed)
    case BikesAllowed => IntVal(t.bikesAllowed)
  }

  /** `a` and `b` agree on every field except possibly `n`. */
  ghost predicate SameExcept(a: Trip, b: Trip, n: Field) {
    forall m: Field :: m != n ==> Read(a, m) == Read(b, m)
  }

  /** Two trips that agree on every field are the same trip. */
  lemma ReadDeterminesTrip(a: Trip, b: Trip)
    requires forall m: Field :: Read(a, m) == Read(b, m)
    ensures a == b
  {
    assert Read(a, Id) == Read(b, Id);
    assert Read(a, Route) == Read(b, Route);
    assert Read(a, ServiceId) == Read(b, ServiceId);
    assert Read(a, TripShortName) == Read(b, TripShortName);
    assert Read(a, TripHeadsign) == Read(b, TripHeadsign);
    assert Read(a, RouteShortName) == Read(b, RouteShortName);
    assert Read(a, DirectionId) == Read(b, DirectionId);
    assert Read(a, BlockId) == Read(b, BlockId);
    assert Read(a, ShapeId) == Read(b, ShapeId);
    assert Read(a, WheelchairAccessible) == Read(b, WheelchairAccessible);
    assert Read(a, TripBikesAllowed) == Read(b, TripBikesAllowed);
    assert Read(a, BikesAllowed) == Read(b, BikesAllowed);
  }

  /** `new Trip()`: all references and strings null, the three flags 0. */
  function NewTrip(): (r: Trip)
    ensures GetWheelchairAccessible(r) == 0
    ensures GetTripBikesAllowed(r) == 0 && GetBikesAllowed(r) == 0
    ensures GetId(r).None? && GetRoute(r).None? && GetServiceId(r).None?
    ensures GetShapeId(r).None?
    ensures GetTripShortName(r).None? && GetTripHeadsign(r).None?
    ensures GetRouteShortName(r).None? && GetDirectionId(r).None? && GetBlockId(r).None?
  {
    Trip(None, None, None, None, None, None, None, None, None, 0, 0, 0)
  }

  /** `new Trip(obj)`: a field-for-field copy. */
  function CopyOf(t: Trip): (r: Trip)
    ensures forall n: Field :: Read(r, n) == Read(t, n)
  {
    Trip(t.id, t.route, t.serviceId, t.tripShortName, t.tripHeadsign,
         t.routeShortName, t.directionId, t.blockId, t.shapeId,
         t.wheelchairAccessible, t.tripBikesAllowed, t.bikesAllowed)
  }

  function GetId(t: Trip): Option<AgencyAndId> { t.id }

  function SetId(t: Trip, v: Option<AgencyAndId>): (r: Trip)
    ensures GetId(r) == v
    ensures SameExcept(t, r, Id)
  {
    t.(id := v)
  }

  function GetRoute(t: Trip): Option<RouteRef> { t.route }

  function SetRoute(t: Trip, v: Option<RouteRef>): (r: Trip)
    ensures GetRoute(r) == v
    ensures SameExcept(t, r, Route)
  {
    t.(route := v)
  }

  function GetServiceId(t: Trip): Option<AgencyAndId> { t.serviceId }

  function SetServiceId(t: Trip, v: Option<AgencyAndId>): (r: Trip)
    ensures GetServiceId(r) == v
    ensures SameExcept(t, r, ServiceId)
  {
    t.(serviceId := v)
  }

  function GetTripShortName(t: Trip): Option<string> { t.tripShortName }

  function SetTripShortName(t: Trip, v: Option<string>): (r: Trip)
    ensures GetTripShortName(r) == v
    ensures SameExcept(t, r, TripShortName)
  {
    t.(tripShortName := v)
  }

  function GetTripHeadsign(t: Trip): Option<string> { t.tripHeadsign }

  function SetTripHeadsign(t: Trip, v: Option<string>): (r: Trip)
    ensures GetTripHeadsign(r) == v
    ensures SameExcept(t, r, TripHeadsign)
  {
    t.(tripHeadsign := v)
  }

  function GetRouteShortName(t: Trip): Option<string> { t.routeShortName }

  function SetRouteShortName(t: Trip, v: Option<string>): (r: Trip)
    ensures GetRouteShortName(r) == v
    ensures SameExcept(t, r, RouteShortName)
  {
    t.(routeShortName := v)
  }

  function GetDirectionId(t: Trip): Option<string> { t.directionId }

  function SetDirectionId(t: Trip, v: Option<string>): (r: Trip)
    ensures GetDirectionId(r) == v
    ensures SameExcept(t, r, DirectionId)
  {
    t.(directionId := v)
  }

  function GetBlockId(t: Trip): Option<string> { t.blockId }

  function SetBlockId(t: Trip, v: Option<string>): (r: Trip)
    ensures GetBlockId(r) == v
    ensures SameExcept(t, r, BlockId)
  {
    t.(blockId := v)
  }

  function GetShapeId(t: Trip): Option<AgencyAndId> { t.shapeId }

  function SetShapeId(t: Trip, v: Option<AgencyAndId>): (r: Trip)
    ensures GetShapeId(r) == v
    ensures SameExcept(t, r, ShapeId)
  {
    t.(shapeId := v)
  }

  /** Stores any `int`: values outside {0, 1, 2} are kept as given. */
  function SetWheelchairAccessible(t: Trip, v: Int32): (r: Trip)
    ensures GetWheelchairAccessible(r) == v
    ensures SameExcept(t, r, WheelchairAccessible)
  {
    t.(wheelchairAccessible := v)
  }

  function GetWheelchairAccessible(t: Trip): Int32 { t.wheelchairAccessible }

  /** The deprecated flag; never synchronised with `bikesAllowed`. */
  function SetTripBikesAllowed(t: Trip, v: Int32): (r: Trip)
    ensures GetTripBikesAllowed(r) == v
    ensures GetBikesAllowed(r) == GetBikesAllowed(t)
    ensures SameExcept(t, r, TripBikesAllowed)
  {
    t.(tripBikesAllowed := v)
  }

  function GetTripBikesAllowed(t: Trip): Int32 { t.tripBikesAllowed }

  function GetBikesAllowed(t: Trip): Int32 { t.bikesAllowed }

  /** Stores any `int`: values outside {0, 1, 2} are kept as given; the
      deprecated flag is left alone. */
  function SetBikesAllowed(t: Trip, v: Int32): (r: Trip)
    ensures GetBikesAllowed(r) == v
    ensures GetTripBikesAllowed(r) == GetTripBikesAllowed(t)
    ensures SameExcept(t, r, BikesAllowed)
  {
    t.(bikesAllowed := v)
  }
}
