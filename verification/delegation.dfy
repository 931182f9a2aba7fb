/**
  Sequences of calls made through a StopTime's public mutators: the model of
  a caller that keeps using its reference while a proxy may be attached.

  Transparency: running calls on a proxied record changes the proxy exactly
  as running them on a plain record whose fields are the proxy's changes
  that record, and every getter reads the same in both. The own fields stay
  as they were, except for the pickup type that `SetPickupType` also writes.
 */
module Delegation {
  import opened Wrappers
  import opened JavaInts
  import opened Refs
  import opened StopTimes

  /** One call to a redirected mutator of StopTime. */
  datatype Call =
    | WriteId(id: Int32)
    | WriteTrip(trip: Option<TripRef>)
    | WriteStop(stop: Option<StopRef>)
    | WriteStopSequence(sequence: Int32)
    | WriteArrivalTime(arrival: Int32)
    | EraseArrivalTime
    | WriteDepartureTime(departure: Int32)
    | EraseDepartureTime
    | WriteTimepoint(timepoint: Int32)
    | WriteStopHeadsign(headsign: Option<string>)
    | WriteRouteShortName(name: Option<string>)
    | WritePickupType(pickup: Int32)
    | WriteDropOffType(dropOff: Int32)
    | WriteShapeDistTraveled(dist: Distance)
    | EraseShapeDistTraveled

  /** Makes one call on `st`. */
  function Perform(st: StopTime, c: Call): StopTime {
    match c
    case WriteId(v) => SetId(st, v)
    case WriteTrip(v) => SetTrip(st, v)
    case WriteStop(v) => SetStop(st, v)
    case WriteStopSequence(v) => SetStopSequence(st, v)
    case WriteArrivalTime(v) => SetArrivalTime(st, v)
    case EraseArrivalTime => ClearArrivalTime(st)
    case WriteDepartureTime(v) => SetDepartureTime(st, v)
    case EraseDepartureTime => ClearDepartureTime(st)
    case WriteTimepoint(v) => SetTimepoint(st, v)
    case WriteStopHeadsign(v) => SetStopHeadsign(st, v)
    case WriteRouteShortName(v) => SetRouteShortName(st, v)
    case WritePickupType(v) => SetPickupType(st, v)
    case WriteDropOffType(v) => SetDropOffType(st, v)
    case WriteShapeDistTraveled(v) => SetShapeDistTraveled(st, v)
    case EraseShapeDistTraveled => ClearShapeDistTraveled(st)
  }

  /** The pickup type last written by `calls`, or `prior` if none writes it. */
  function LastPickup(calls: seq<Call>, prior: Int32): Int32
    decreases |calls|
  {
    if |calls| == 0 then prior
    else LastPickup(calls[1..], if calls[0].WritePickupType? then calls[0].pickup else prior)
  }

  /** No call in `calls` is a `SetPickupType`. */
  predicate NoPickupWrites(calls: seq<Call>) {
    forall i :: 0 <= i < |calls| ==> !calls[i].WritePickupType?
  }

  /** With no pickup write the own pickup type is never touched. */
  lemma {:induction false} LastPickupWithoutWrites(calls: seq<Call>, prior: Int32)
    requires NoPickupWrites(calls)
    ensures LastPickup(calls, prior) == prior
    decreases |calls|
  {
    if |calls| > 0 {
      assert !calls[0].WritePickupType?;
      assert NoPickupWrites(calls[1..]) by {
        forall i | 0 <= i < |calls[1..]| ensures !calls[1..][i].WritePickupType? {
          assert calls[1..][i] == calls[i + 1];
        }
      }
      LastPickupWithoutWrites(calls[1..], prior);
    }
  }

  /** Makes the calls in order. Attachment never changes; under a proxy the
      own fields change only in the pickup type, which ends as the last one
      written. */
  function Run(st: StopTime, calls: seq<Call>): (r: StopTime)
    ensures r.proxy.Some? <==> st.proxy.Some?
    ensures st.proxy.Some? ==> SameExcept(st.own, r.own, PickupType)
    ensures st.proxy.Some? ==> r.own.pickupType == LastPickup(calls, st.own.pickupType)
    decreases |calls|
  {
    if |calls| == 0 then st else Run(Perform(st, calls[0]), calls[1..])
  }

  /** One call on a proxied record does to the proxy what it does to the own
      fields of a plain record holding the proxy's values. */
  lemma PerformIsTransparent(own: Fields, p: Fields, c: Call)
    ensures Perform(ST(own, Some(p)), c).proxy == Some(Perform(ST(p, None), c).own)
    ensures Perform(ST(p, None), c).proxy.None?
  {
  }

  /** Transparency of the proxy for any sequence of calls: the proxy evolves
      as a plain record would, and every getter reads the same as on that
      plain record. */
  lemma {:induction false} RunIsTransparent(own: Fields, p: Fields, calls: seq<Call>)
    ensures Run(ST(own, Some(p)), calls).proxy == Some(Run(ST(p, None), calls).own)
    ensures forall n: Field ::
      Observe(Run(ST(own, Some(p)), calls), n) == Observe(Run(ST(p, None), calls), n)
    decreases |calls|
  {
    if |calls| > 0 {
      var c := calls[0];
      PerformIsTransparent(own, p, c);
      var proxied := Perform(ST(own, Some(p)), c);
      var plain := Perform(ST(p, None), c);
      assert proxied == ST(proxied.own, Some(plain.own));
      assert plain == ST(plain.own, None);
      RunIsTransparent(proxied.own, plain.own, calls[1..]);
    }
  }

  /** Attach a proxy, make calls that do not set the pickup type, detach: the
      record is back to its own fields exactly as they were. */
  lemma DetachAfterProxiedCallsRestoresOwn(st: StopTime, p: Fields, calls: seq<Call>)
    requires NoPickupWrites(calls)
    ensures SetProxy(Run(SetProxy(st, Some(p)), calls), None) == ST(st.own, None)
  {
    var attached := SetProxy(st, Some(p));
    var r := Run(attached, calls);
    LastPickupWithoutWrites(calls, st.own.pickupType);
    forall n: Field ensures Read(r.own, n) == Read(st.own, n) {
    }
    ReadDeterminesFields(r.own, st.own);
  }

  /** With pickup writes among the calls, detaching shows the own pickup type
      changed to the last value written through the proxy, and nothing else. */
  lemma DetachAfterProxiedCallsLeaksPickup(st: StopTime, p: Fields, calls: seq<Call>)
    ensures SetProxy(Run(SetProxy(st, Some(p)), calls), None)
         == ST(st.own.(pickupType := LastPickup(calls, st.own.pickupType)), None)
  {
    var attached := SetProxy(st, Some(p));
    var r := Run(attached, calls);
    var expected := st.own.(pickupType := LastPickup(calls, st.own.pickupType));
    forall n: Field ensures Read(r.own, n) == Read(expected, n) {
    }
    ReadDeterminesFields(r.own, expected);
  }
}
