/**
  The StopTime record: one scheduled visit of a trip at a stop.

  A StopTime keeps its own field store and may have a proxy attached. While a
  proxy is attached every accessor and mutator is forwarded to it and the
  record's own fields are left alone; the one exception is `SetPickupType`,
  which also writes the own field. The proxy is modelled as a second plain
  field store of the same shape (one level of indirection).
 */
module StopTimes {
  import opened Wrappers
  import opened JavaInts
  import opened Refs

  /** Marks an arrival time, departure time or shape distance as unset. */
  const MissingValue: Int32 := -999

  /** Distance travelled along the trip's shape (a Java `double` in the
      system; an integer carrying the same sentinel here). */
  type Distance = int

  /** Every stored field of a StopTime, and equally of a proxy's store. */
  datatype Fields = Fields(
    id: Int32,
    trip: Option<TripRef>,
    stop: Option<StopRef>,
    arrivalTime: Int32,
    departureTime: Int32,
    timepoint: Int32,
    stopSequence: Int32,
    stopHeadsign: Option<string>,
    routeShortName: Option<string>,
    pickupType: Int32,
    dropOffType: Int32,
    shapeDistTraveled: Distance)

  /** A StopTime: its own fields and the optional proxy store. */
  datatype StopTime = ST(own: Fields, proxy: Option<Fields>)

  /** Names of the stored fields, for stating what an operation leaves alone. */
  datatype Field =
    | Id | Trip | Stop | ArrivalTime | DepartureTime | Timepoint | StopSequence
    | StopHeadsign | RouteShortName | PickupType | DropOffType | ShapeDistTraveled

  /** The content of one field, whatever its type. */
  datatype Value =
    | IntVal(i: int)
    | TripVal(t: Option<TripRef>)
    | StopVal(s: Option<StopRef>)
    | TextVal(text: Option<string>)

  /** Raw read of field `n` of a store. */
  function Read(f: Fields, n: Field): Value {
    match n
    case Id => IntVal(f.id)
    case Trip => TripVal(f.trip)
    case Stop => StopVal(f.stop)
    case ArrivalTime => IntVal(f.arrivalTime)
    case DepartureTime => IntVal(f.departureTime)
    case Timepoint => IntVal(f.timepoint)
    case StopSequence => IntVal(f.stopSequence)
    case StopHeadsign => TextVal(f.stopHeadsign)
    case RouteShortName => TextVal(f.routeShortName)
    case PickupType => IntVal(f.pickupType)
    case DropOffType => IntVal(f.dropOffType)
    case ShapeDistTraveled => IntVal(f.shapeDistTraveled)
  }

  /** `a` and `b` agree on every field except possibly `n`. */
  ghost predicate SameExcept(a: Fields, b: Fields, n: Field) {
    forall m: Field :: m != n ==> Read(a, m) == Read(b, m)
  }

  /** Two stores that agree on every field are the same store. */
  lemma ReadDeterminesFields(a: Fields, b: Fields)
    requires forall m: Field :: Read(a, m) == Read(b, m)
    ensures a == b
  {
    assert Read(a, Id) == Read(b, Id);
    assert Read(a, Trip) == Read(b, Trip);
    assert Read(a, Stop) == Read(b, Stop);
    assert Read(a, ArrivalTime) == Read(b, ArrivalTime);
    assert Read(a, DepartureTime) == Read(b, DepartureTime);
    assert Read(a, Timepoint) == Read(b, Timepoint);
    assert Read(a, StopSequence) == Read(b, StopSequence);
    assert Read(a, StopHeadsign) == Read(b, StopHeadsign);
    assert Read(a, RouteShortName) == Read(b, RouteShortName);
    assert Read(a, PickupType) == Read(b, PickupType);
    assert Read(a, DropOffType) == Read(b, DropOffType);
    assert Read(a, ShapeDistTraveled) == Read(b, ShapeDistTraveled);
  }

  /** The store that currently answers reads: the proxy when one is attached. */
  function Effective(st: StopTime): Fields {
    match st.proxy
    case Some(p) => p
    case None => st.own
  }

  /** A write through `st` to field `n` produced `r`: with no proxy only own
      field `n` may change; with a proxy only the proxy's field `n` may change
      and the own fields are untouched. Attachment never changes. */
  ghost predicate WritesOnlyEffective(st: StopTime, r: StopTime, n: Field) {
    match st.proxy
    case None => r.proxy.None? && SameExcept(st.own, r.own, n)
    case Some(p) => r.proxy.Some? && r.own == st.own && SameExcept(p, r.proxy.value, n)
  }

  // ---------------------------------------------------------------------
  // Construction

  /** `new StopTime()`: no proxy, times and distance unset, everything else
      zero or null. */
  function NewStopTime(): (r: StopTime)
    ensures GetProxy(r).None?
    ensures !IsArrivalTimeSet(r) && !IsDepartureTimeSet(r) && !IsShapeDistTraveledSet(r)
    ensures GetArrivalTime(r) == MissingValue && GetDepartureTime(r) == MissingValue
    ensures GetShapeDistTraveled(r) == MissingValue
    ensures GetTimepoint(r) == 0 && GetId(r) == 0 && GetStopSequence(r) == 0
    ensures GetPickupType(r) == 0 && GetDropOffType(r) == 0
    ensures GetTrip(r).None? && GetStop(r).None?
    ensures GetStopHeadsign(r).None? && GetRouteShortName(r).None?
  {
    ST(Fields(0, None, None, MissingValue, MissingValue, 0, 0, None, None, 0, 0, MissingValue), None)
  }

  /** `new StopTime(st)`: copies the source's own raw fields, never consults
      its proxy, and yields a record with no proxy. */
  function CopyOf(st: StopTime): (r: StopTime)
    ensures GetProxy(r).None?
    ensures forall n: Field :: Observe(r, n) == Read(st.own, n)
  {
    ST(st.own, None)
  }

  // ---------------------------------------------------------------------
  // Accessors (each forwards to the proxy when one is attached)

  function GetId(st: StopTime): Int32 {
    match st.proxy
    case Some(p) => p.id
    case None => st.own.id
  }

  function SetId(st: StopTime, v: Int32): (r: StopTime)
    ensures GetId(r) == v
    ensures WritesOnlyEffective(st, r, Id)
  {
    match st.proxy
    case Some(p) => st.(proxy := Some(p.(id := v)))
    case None => st.(own := st.own.(id := v))
  }

  function GetTrip(st: StopTime): Option<TripRef> {
    match st.proxy
    case Some(p) => p.trip
    case None => st.own.trip
  }

  function SetTrip(st: StopTime, v: Option<TripRef>): (r: StopTime)
    ensures GetTrip(r) == v
    ensures WritesOnlyEffective(st, r, Trip)
  {
    match st.proxy
    case Some(p) => st.(proxy := Some(p.(trip := v)))
    case None => st.(own := st.own.(trip := v))
  }

  function GetStopSequence(st: StopTime): Int32 {
    match st.proxy
    case Some(p) => p.stopSequence
    case None => st.own.stopSequence
  }

  function SetStopSequence(st: StopTime, v: Int32): (r: StopTime)
    ensures GetStopSequence(r) == v
    ensures WritesOnlyEffective(st, r, StopSequence)
  {
    match st.proxy
    case Some(p) => st.(proxy := Some(p.(stopSequence := v)))
    case None => st.(own := st.own.(stopSequence := v))
  }

  function GetStop(st: StopTime): Option<StopRef> {
    match st.proxy
    case Some(p) => p.stop
    case None => st.own.stop
  }

  function SetStop(st: StopTime, v: Option<StopRef>): (r: StopTime)
    ensures GetStop(r) == v
    ensures WritesOnlyEffective(st, r, Stop)
  {
    match st.proxy
    case Some(p) => st.(proxy := Some(p.(stop := v)))
    case None => st.(own := st.own.(stop := v))
  }

  /** Arrival time, in seconds since midnight; the sentinel when unset. */
  function GetArrivalTime(st: StopTime): Int32 {
    match st.proxy
    case Some(p) => p.arrivalTime
    case None => st.own.arrivalTime
  }

  function IsArrivalTimeSet(st: StopTime): (r: bool)
    ensures r <==> GetArrivalTime(st) != MissingValue
  {
    match st.proxy
    case Some(p) => p.arrivalTime != MissingValue
    case None => st.own.arrivalTime != MissingValue
  }

  /** Stores any value, the sentinel included (which then reads as unset). */
  function SetArrivalTime(st: StopTime, v: Int32): (r: StopTime)
    ensures GetArrivalTime(r) == v
    ensures IsArrivalTimeSet(r) <==> v != MissingValue
    ensures WritesOnlyEffective(st, r, ArrivalTime)
  {
    match st.proxy
    case Some(p) => st.(proxy := Some(p.(arrivalTime := v)))
    case None => st.(own := st.own.(arrivalTime := v))
  }

  function ClearArrivalTime(st: StopTime): (r: StopTime)
    ensures !IsArrivalTimeSet(r)
    ensures GetArrivalTime(r) == MissingValue
    ensures WritesOnlyEffective(st, r, ArrivalTime)
  {
    match st.proxy
    case Some(p) => st.(proxy := Some(p.(arrivalTime := MissingValue)))
    case None => st.(own := st.own.(arrivalTime := MissingValue))
  }

  /** Departure time, in seconds since midnight; the sentinel when unset. */
  function GetDepartureTime(st: StopTime): Int32 {
    match st.proxy
    case Some(p) => p.departureTime
    case None => st.own.departureTime
  }

  function IsDepartureTimeSet(st: StopTime): (r: bool)
    ensures r <==> GetDepartureTime(st) != MissingValue
  {
    match st.proxy
    case Some(p) => p.departureTime != MissingValue
    case None => st.own.departureTime != MissingValue
  }

  function SetDepartureTime(st: StopTime, v: Int32): (r: StopTime)
    ensures GetDepartureTime(r) == v
    ensures IsDepartureTimeSet(r) <==> v != MissingValue
    ensures WritesOnlyEffective(st, r, DepartureTime)
  {
    match st.proxy
    case Some(p) => st.(proxy := Some(p.(departureTime := v)))
    case None => st.(own := st.own.(departureTime := v))
  }

  function ClearDepartureTime(st: StopTime): (r: StopTime)
    ensures !IsDepartureTimeSet(r)
    ensures GetDepartureTime(r) == MissingValue
    ensures WritesOnlyEffective(st, r, DepartureTime)
  {
    match st.proxy
    case Some(p) => st.(proxy := Some(p.(departureTime := MissingValue)))
    case None => st.(own := st.own.(departureTime := MissingValue))
  }

  /** 1 if the stop time is an exact timepoint, 0 if interpolated. */
  function GetTimepoint(st: StopTime): Int32 {
    match st.proxy
    case Some(p) => p.timepoint
    case None => st.own.timepoint
  }

  function SetTimepoint(st: StopTime, v: Int32): (r: StopTime)
    ensures GetTimepoint(r) == v
    ensures WritesOnlyEffective(st, r, Timepoint)
  {
    match st.proxy
    case Some(p) => st.(proxy := Some(p.(timepoint := v)))
    case None => st.(own := st.own.(timepoint := v))
  }

  function GetStopHeadsign(st: StopTime): Option<string> {
    match st.proxy
    case Some(p) => p.stopHeadsign
    case None => st.own.stopHeadsign
  }

  function SetStopHeadsign(st: StopTime, v: Option<string>): (r: StopTime)
    ensures GetStopHeadsign(r) == v
    ensures WritesOnlyEffective(st, r, StopHeadsign)
  {
    match st.proxy
    case Some(p) => st.(proxy := Some(p.(stopHeadsign := v)))
    case None => st.(own := st.own.(stopHeadsign := v))
  }

  function GetRouteShortName(st: StopTime): Option<string> {
    match st.proxy
    case Some(p) => p.routeShortName
    case None => st.own.routeShortName
  }

  function SetRouteShortName(st: StopTime, v: Option<string>): (r: StopTime)
    ensures GetRouteShortName(r) == v
    ensures WritesOnlyEffective(st, r, RouteShortName)
  {
    match st.proxy
    case Some(p) => st.(proxy := Some(p.(routeShortName := v)))
    case None => st.(own := st.own.(routeShortName := v))
  }

  function GetPickupType(st: StopTime): Int32 {
    match st.proxy
    case Some(p) => p.pickupType
    case None => st.own.pickupType
  }

  /** Forwards to the proxy but, lacking an early return, then also writes
      the own field: the one mutator that touches both stores. */
  function SetPickupType(st: StopTime, v: Int32): (r: StopTime)
    ensures GetPickupType(r) == v
    ensures r.own.pickupType == v
    ensures SameExcept(st.own, r.own, PickupType)
    ensures r.proxy.Some? == st.proxy.Some?
    ensures st.proxy.Some? ==> r.proxy.value.pickupType == v
    ensures st.proxy.Some? ==> SameExcept(st.proxy.value, r.proxy.value, PickupType)
  {
    var forwarded := match st.proxy
      case Some(p) => st.(proxy := Some(p.(pickupType := v)))
      case None => st;
    forwarded.(own := forwarded.own.(pickupType := v))
  }

  function GetDropOffType(st: StopTime): Int32 {
    match st.proxy
    case Some(p) => p.dropOffType
    case None => st.own.dropOffType
  }

  function SetDropOffType(st: StopTime, v: Int32): (r: StopTime)
    ensures GetDropOffType(r) == v
    ensures WritesOnlyEffective(st, r, DropOffType)
  {
    match st.proxy
    case Some(p) => st.(proxy := Some(p.(dropOffType := v)))
    case None => st.(own := st.own.(dropOffType := v))
  }

  function GetShapeDistTraveled(st: StopTime): Distance {
    match st.proxy
    case Some(p) => p.shapeDistTraveled
    case None => st.own.shapeDistTraveled
  }

  function IsShapeDistTraveledSet(st: StopTime): (r: bool)
    ensures r <==> GetShapeDistTraveled(st) != MissingValue
  {
    match st.proxy
    case Some(p) => p.shapeDistTraveled != MissingValue
    case None => st.own.shapeDistTraveled != MissingValue
  }

  function SetShapeDistTraveled(st: StopTime, v: Distance): (r: StopTime)
    ensures GetShapeDistTraveled(r) == v
    ensures IsShapeDistTraveledSet(r) <==> v != MissingValue
    ensures WritesOnlyEffective(st, r, ShapeDistTraveled)
  {
    match st.proxy
    case Some(p) => st.(proxy := Some(p.(shapeDistTraveled := v)))
    case None => st.(own := st.own.(shapeDistTraveled := v))
  }

  function ClearShapeDistTraveled(st: StopTime): (r: StopTime)
    ensures !IsShapeDistTraveledSet(r)
    ensures GetShapeDistTraveled(r) == MissingValue
    ensures WritesOnlyEffective(st, r, ShapeDistTraveled)
  {
    match st.proxy
    case Some(p) => st.(proxy := Some(p.(shapeDistTraveled := MissingValue)))
    case None => st.(own := st.own.(shapeDistTraveled := MissingValue))
  }

  /** Reads field `n` through the public getters, as a caller sees it. */
  function Observe(st: StopTime, n: Field): (v: Value)
    ensures v == Read(Effective(st), n)
    ensures st.proxy.Some? ==> v == Read(st.proxy.value, n)
    ensures st.proxy.None? ==> v == Read(st.own, n)
  {
    match n
    case Id => IntVal(GetId(st))
    case Trip => TripVal(GetTrip(st))
    case Stop => StopVal(GetStop(st))
    case ArrivalTime => IntVal(GetArrivalTime(st))
    case DepartureTime => IntVal(GetDepartureTime(st))
    case Timepoint => IntVal(GetTimepoint(st))
    case StopSequence => IntVal(GetStopSequence(st))
    case StopHeadsign => TextVal(GetStopHeadsign(st))
    case RouteShortName => TextVal(GetRouteShortName(st))
    case PickupType => IntVal(GetPickupType(st))
    case DropOffType => IntVal(GetDropOffType(st))
    case ShapeDistTraveled => IntVal(GetShapeDistTraveled(st))
  }

  // ---------------------------------------------------------------------
  // Ordering

  /** `compareTo`: the Java `int` difference of the effective stop sequences
      (wrapping on overflow). Zero exactly on equal sequences; the exact
      difference, and so the order of the sequences, whenever the difference
      fits in an `int`. */
  function CompareTo(a: StopTime, b: StopTime): (r: Int32)
    ensures r == 0 <==> GetStopSequence(a) == GetStopSequence(b)
    ensures InInt32(GetStopSequence(a) - GetStopSequence(b)) ==>
      r == GetStopSequence(a) - GetStopSequence(b)
    ensures InInt32(GetStopSequence(a) - GetStopSequence(b)) ==>
      (r < 0 <==> GetStopSequence(a) < GetStopSequence(b)) &&
      (r > 0 <==> GetStopSequence(a) > GetStopSequence(b))
  {
    Sub32(GetStopSequence(a), GetStopSequence(b))
  }

  // ---------------------------------------------------------------------
  // Proxy attachment (never itself redirected)

  /** Attaches `p` (or detaches, with `None`); the own fields are kept. */
  function SetProxy(st: StopTime, p: Option<Fields>): (r: StopTime)
    ensures GetProxy(r) == p
    ensures r.own == st.own
  {
    st.(proxy := p)
  }

  function GetProxy(st: StopTime): Option<Fields> {
    st.proxy
  }
}
