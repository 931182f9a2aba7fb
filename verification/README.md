# StopTime and Trip records of the GTFS model

A Dafny model of two entity classes of the OneBusAway GTFS loader: `StopTime` and `Trip`.
A `StopTime` is one scheduled visit of a trip at a stop. A `Trip` is one scheduled vehicle run.

The interesting part is StopTime's proxy. A `StopTimeProxy` can be attached to a StopTime at
run time. From then on every getter, setter and clear is forwarded to the proxy, and the
record's own fields lie dormant, apart from the pickup type, which `setPickupType` also
writes (see below). Callers holding the record notice nothing. Three fields
(arrival time, departure time, shape distance) use the sentinel `MISSING_VALUE = -999` for
"unset". Each of them has an `is…Set`/get/set/clear quartet. `compareTo` orders records by
their effective stop sequence, computed as a Java `int` subtraction that wraps on overflow.
The copy constructor deliberately reads the raw own fields and yields a record with no proxy.

Trip is a plain record with twelve fields, a field-for-field copy constructor, and two bike
flags stored independently (the deprecated `tripBikesAllowed` and `bikesAllowed`).

Modelling choices:
- Records are immutable datatypes. Every setter is a pure function returning the updated record.
- A StopTime is `ST(own, proxy)`. Both `own` and the optional proxy are plain field stores of
  the same shape (`StopTimes.Fields`), so only one level of indirection is modelled.
- Java `null` references and strings are `Option` values. Referenced Trip, Stop and Route
  objects are identity handles (module `Refs`).
- Java `int` is the subset type `Int32`. `compareTo`'s subtraction wraps explicitly (`JavaInts.Sub32`).
- "Nothing else changes" is stated with a per-field read function `Read(store, field)` and
  the predicate `SameExcept`. Both records have them.
- `StopTimes.WritesOnlyEffective` states the forwarding discipline. With no proxy, only the
  named own field may change. With a proxy, only the proxy's named field may change, and the
  own fields are untouched.
- Module `Delegation` models a caller that keeps making calls through the record. It proves
  that the proxy evolves exactly as a plain record would. It also proves that detaching the
  proxy gives back the own fields, changed only by the pickup-type quirk.

`setProxy`'s documentation (StopTime.java:311-316) says that once a proxy is set, every
interaction with the stop time is redirected through it. `setPickupType`, however, has no `return`
after forwarding, so with a proxy attached it writes both the proxy and the own field
(`StopTimes.SetPickupType`, `StopTimeProperties.ProxiedSetPickupTypeWritesBoth`,
`Delegation.DetachAfterProxiedCallsLeaksPickup`).

## Model

| member | source | states |
|---|---|---|
| `StopTimes.NewStopTime` | GtfsLoader/src/org/onebusaway/gtfs/model/StopTime.java:25-55 | a fresh record has no proxy; arrival, departure and shape distance are unset and read -999; timepoint, id, sequence, pickup and drop-off are 0; references and strings are null |
| `StopTimes.CopyOf` | GtfsLoader/src/org/onebusaway/gtfs/model/StopTime.java:57-70 | the copy has no proxy, and each of its getters returns the source's own raw field, whatever proxy the source has |
| `StopTimes.SetId` | GtfsLoader/src/org/onebusaway/gtfs/model/StopTime.java:72-85 | `getId` afterwards returns the value written; the write lands only in the effective store (the proxy when attached, own fields otherwise) and changes no other field |
| `StopTimes.SetTrip` | GtfsLoader/src/org/onebusaway/gtfs/model/StopTime.java:87-100 | read-after-write for the trip reference; only the effective store's trip field changes |
| `StopTimes.SetStopSequence` | GtfsLoader/src/org/onebusaway/gtfs/model/StopTime.java:102-115 | read-after-write for the stop sequence; only the effective store's sequence changes, so a proxied record's own sequence is kept |
| `StopTimes.SetStop` | GtfsLoader/src/org/onebusaway/gtfs/model/StopTime.java:117-130 | read-after-write for the stop reference; only the effective store's stop field changes |
| `StopTimes.IsArrivalTimeSet` | GtfsLoader/src/org/onebusaway/gtfs/model/StopTime.java:132-147 | true exactly when the arrival time the getter returns, from the proxy if attached, differs from -999 |
| `StopTimes.SetArrivalTime` | GtfsLoader/src/org/onebusaway/gtfs/model/StopTime.java:142-155 | the getter returns the value written; the field reads as set iff the value is not -999; only the effective store's arrival time changes |
| `StopTimes.ClearArrivalTime` | GtfsLoader/src/org/onebusaway/gtfs/model/StopTime.java:157-163 | whatever the prior value, the arrival time reads unset and -999 afterwards; no other field and not the other store changes |
| `StopTimes.IsDepartureTimeSet` | GtfsLoader/src/org/onebusaway/gtfs/model/StopTime.java:165-180 | true exactly when the effective departure time differs from -999 |
| `StopTimes.SetDepartureTime` | GtfsLoader/src/org/onebusaway/gtfs/model/StopTime.java:175-188 | read-after-write; set iff the value is not -999; only the effective store's departure time changes |
| `StopTimes.ClearDepartureTime` | GtfsLoader/src/org/onebusaway/gtfs/model/StopTime.java:190-196 | the departure time reads unset and -999 afterwards; nothing else changes |
| `StopTimes.SetTimepoint` | GtfsLoader/src/org/onebusaway/gtfs/model/StopTime.java:198-216 | read-after-write for the timepoint flag; only the effective store's timepoint changes |
| `StopTimes.SetStopHeadsign` | GtfsLoader/src/org/onebusaway/gtfs/model/StopTime.java:218-231 | read-after-write for the headsign override; only the effective store's headsign changes |
| `StopTimes.SetRouteShortName` | GtfsLoader/src/org/onebusaway/gtfs/model/StopTime.java:233-246 | read-after-write for the route short name override; only the effective store's field changes |
| `StopTimes.SetPickupType` | GtfsLoader/src/org/onebusaway/gtfs/model/StopTime.java:248-260 | the getter returns the value written; the own pickup type becomes that value even with a proxy attached; a proxy's pickup type becomes it too; no other field of either store changes |
| `StopTimes.SetDropOffType` | GtfsLoader/src/org/onebusaway/gtfs/model/StopTime.java:262-275 | read-after-write for the drop-off type; only the effective store's field changes |
| `StopTimes.IsShapeDistTraveledSet` | GtfsLoader/src/org/onebusaway/gtfs/model/StopTime.java:277-289 | true exactly when the effective shape distance differs from -999 |
| `StopTimes.SetShapeDistTraveled` | GtfsLoader/src/org/onebusaway/gtfs/model/StopTime.java:284-297 | read-after-write; set iff the value is not -999; only the effective store's distance changes |
| `StopTimes.ClearShapeDistTraveled` | GtfsLoader/src/org/onebusaway/gtfs/model/StopTime.java:299-305 | the shape distance reads unset and -999 afterwards; nothing else changes |
| `StopTimes.Observe` | GtfsLoader/src/org/onebusaway/gtfs/model/StopTime.java:72-305 | every getter answers from the proxy's store when one is attached and from the own fields otherwise |
| `StopTimes.CompareTo` | GtfsLoader/src/org/onebusaway/gtfs/model/StopTime.java:307-309 | zero exactly when the effective stop sequences are equal; whenever their difference fits in an `int`, the result is that difference, so negative (positive) exactly when the first is smaller (larger) |
| `StopTimes.SetProxy` | GtfsLoader/src/org/onebusaway/gtfs/model/StopTime.java:311-323 | `getProxy` returns what was attached (never redirected), and the own fields are kept |
| `StopTimeProperties.ProxiedSetPickupTypeWritesBoth` | GtfsLoader/src/org/onebusaway/gtfs/model/StopTime.java:255-260 | with a proxy, both the proxy's and the own pickup type become the value; the write breaks the forwarding discipline exactly when the own value differed |
| `StopTimeProperties.DirectSetPickupTypeWritesOwnOnly` | GtfsLoader/src/org/onebusaway/gtfs/model/StopTime.java:255-260 | without a proxy, setPickupType changes only the own pickup type |
| `StopTimeProperties.ProxiedSetDropOffTypeKeepsOwn` | GtfsLoader/src/org/onebusaway/gtfs/model/StopTime.java:269-275 | with a proxy, setDropOffType (which does return early) leaves the own fields identical |
| `StopTimeProperties.ProxiedSetStopSequenceExample` | GtfsLoader/src/org/onebusaway/gtfs/model/StopTime.java:109-115 | on a proxied record, setting sequence 42 makes the proxy's sequence 42 and keeps the own sequence |
| `StopTimeProperties.SentinelWriteReadsUnset` | GtfsLoader/src/org/onebusaway/gtfs/model/StopTime.java:132-305 | writing -999 directly into a sentinel field makes it read unset, with or without a proxy |
| `StopTimeProperties.ClearIsSentinelWrite` | GtfsLoader/src/org/onebusaway/gtfs/model/StopTime.java:149-305 | each clear is the same as setting the field to -999 |
| `StopTimeProperties.CompareToFaithfulOnNonNegative` | GtfsLoader/src/org/onebusaway/gtfs/model/StopTime.java:307-309 | for non-negative stop sequences, the sign of compareTo is exactly the order of the effective sequences |
| `StopTimeProperties.CompareToAntisymmetric` | GtfsLoader/src/org/onebusaway/gtfs/model/StopTime.java:307-309 | for non-negative sequences, `a.compareTo(b) < 0` iff `b.compareTo(a) > 0`, and ties are symmetric |
| `StopTimeProperties.CompareToTransitive` | GtfsLoader/src/org/onebusaway/gtfs/model/StopTime.java:307-309 | for non-negative sequences, compareTo is transitive |
| `StopTimeProperties.CompareToExample` | GtfsLoader/src/org/onebusaway/gtfs/model/StopTime.java:307-309 | sequences 3 and 7 compare negative one way and positive the other; a record compares 0 with itself |
| `StopTimeProperties.CompareToOverflowInvertsOrder` | GtfsLoader/src/org/onebusaway/gtfs/model/StopTime.java:307-309 | with sequences -2147483648 and 1 the wrapped subtraction is positive although the first sequence is smaller |
| `StopTimeProperties.CompareToIgnoresOwnWhenProxied` | GtfsLoader/src/org/onebusaway/gtfs/model/StopTime.java:307-309 | on a proxied record the own fields have no effect on compareTo in either argument position |
| `StopTimeProperties.CopyIgnoresProxy` | GtfsLoader/src/org/onebusaway/gtfs/model/StopTime.java:57-70 | the copy does not depend on the source's proxy |
| `StopTimeProperties.CopyOfDirectReadsSame` | GtfsLoader/src/org/onebusaway/gtfs/model/StopTime.java:57-70 | a copy of an un-proxied record reads the same as it through every getter |
| `StopTimeProperties.CopyOfProxiedReadsOwn` | GtfsLoader/src/org/onebusaway/gtfs/model/StopTime.java:57-70 | when the proxy's fields differ from the own fields, some getter reads differently on the copy than on the source |
| `StopTimeProperties.DetachReadsOwn` | GtfsLoader/src/org/onebusaway/gtfs/model/StopTime.java:317-323 | after `setProxy(null)` every getter reads the own fields as they stand |
| `StopTimeProperties.AttachReadsProxy` | GtfsLoader/src/org/onebusaway/gtfs/model/StopTime.java:317-323 | after `setProxy(p)` every getter reads p's fields |
| `Delegation.Run` | GtfsLoader/src/org/onebusaway/gtfs/model/StopTime.java:72-305 | a sequence of mutator calls never changes proxy attachment; under a proxy the own fields change only in the pickup type, which ends as the last value setPickupType wrote |
| `Delegation.PerformIsTransparent` | GtfsLoader/src/org/onebusaway/gtfs/model/StopTime.java:72-305 | one call on a proxied record does to the proxy what it does to the own fields of a plain record holding the proxy's values |
| `Delegation.RunIsTransparent` | GtfsLoader/src/org/onebusaway/gtfs/model/StopTime.java:72-305 | for any call sequence, the proxy ends as such a plain record would, and every getter reads the same on both |
| `Delegation.DetachAfterProxiedCallsRestoresOwn` | GtfsLoader/src/org/onebusaway/gtfs/model/StopTime.java:317-323 | attaching a proxy, making calls other than setPickupType, then detaching gives back exactly the original own fields |
| `Delegation.DetachAfterProxiedCallsLeaksPickup` | GtfsLoader/src/org/onebusaway/gtfs/model/StopTime.java:255-260 | for any calls made under a proxy, after detaching, the own fields differ from the originals at most in the pickup type, which holds the last value written |
| `Trips.NewTrip` | GtfsLoader/src/org/onebusaway/gtfs/model/Trip.java:23-53 | a fresh trip has wheelchairAccessible, tripBikesAllowed and bikesAllowed all 0 and every reference and string null |
| `Trips.CopyOf` | GtfsLoader/src/org/onebusaway/gtfs/model/Trip.java:55-68 | the copy agrees with the source on all twelve fields |
| `Trips.SetId` | GtfsLoader/src/org/onebusaway/gtfs/model/Trip.java:70-76 | read-after-write for the id; every other field unchanged |
| `Trips.SetRoute` | GtfsLoader/src/org/onebusaway/gtfs/model/Trip.java:78-84 | read-after-write for the route; every other field unchanged |
| `Trips.SetServiceId` | GtfsLoader/src/org/onebusaway/gtfs/model/Trip.java:86-92 | read-after-write for the service id; every other field unchanged |
| `Trips.SetTripShortName` | GtfsLoader/src/org/onebusaway/gtfs/model/Trip.java:94-100 | read-after-write for the short name; every other field unchanged |
| `Trips.SetTripHeadsign` | GtfsLoader/src/org/onebusaway/gtfs/model/Trip.java:102-108 | read-after-write for the headsign; every other field unchanged |
| `Trips.SetRouteShortName` | GtfsLoader/src/org/onebusaway/gtfs/model/Trip.java:110-116 | read-after-write for the route short name; every other field unchanged |
| `Trips.SetDirectionId` | GtfsLoader/src/org/onebusaway/gtfs/model/Trip.java:118-124 | read-after-write for the direction id; every other field unchanged |
| `Trips.SetBlockId` | GtfsLoader/src/org/onebusaway/gtfs/model/Trip.java:126-132 | read-after-write for the block id; every other field unchanged |
| `Trips.SetShapeId` | GtfsLoader/src/org/onebusaway/gtfs/model/Trip.java:134-140 | read-after-write for the shape id; every other field unchanged |
| `Trips.SetWheelchairAccessible` | GtfsLoader/src/org/onebusaway/gtfs/model/Trip.java:142-148 | any `int` is stored and read back verbatim; every other field unchanged |
| `Trips.SetTripBikesAllowed` | GtfsLoader/src/org/onebusaway/gtfs/model/Trip.java:150-158 | read-after-write for the deprecated flag; bikesAllowed and every other field unchanged |
| `Trips.SetBikesAllowed` | GtfsLoader/src/org/onebusaway/gtfs/model/Trip.java:160-173 | any `int` is stored and read back verbatim; the deprecated tripBikesAllowed and every other field unchanged |
| `TripProperties.CopyEqualsSource` | GtfsLoader/src/org/onebusaway/gtfs/model/Trip.java:55-68 | the copy is equal to its source |
| `TripProperties.CopyIsIndependent` | GtfsLoader/src/org/onebusaway/gtfs/model/Trip.java:55-68 | setting the headsign on a copy changes only the copy's headsign; the copy then differs from the source if the headsign differs |
| `TripProperties.BikeFlagsIndependent` | GtfsLoader/src/org/onebusaway/gtfs/model/Trip.java:150-173 | writes to the two bike flags commute, and each flag reads back only what was written to it |
| `TripProperties.FlagsStoredVerbatim` | GtfsLoader/src/org/onebusaway/gtfs/model/Trip.java:142-173 | out-of-domain codes (7, -1) are stored and read back unchanged |

## Left out

- `toString` of both classes: string rendering. StopTime's version dereferences the Stop and Trip it points at, and those classes are not part of this model.
- `IdentityBean`, `StopTimeProxy`, `Stop`, `Route`, `AgencyAndId`: their classes are not part of this model. References are identity handles. A proxy is a plain field store whose `is…Set` uses the same -999 test.
- Proxy chains (a proxy that is itself a proxied StopTime): only one level of indirection is modelled.
- `shapeDistTraveled` is a `double` in the code. Here it is an integer with the same -999 sentinel; IEEE rounding and NaN are not modelled.
- `StopTimes.SetId`: takes an `int`, not a nullable `Integer`. Passing `null` to an un-proxied record throws on unboxing, and that is not modelled.
- `StopTimes.SetProxy`: `getProxy` returns the proxy store's current contents rather than an object reference. Object identity and aliasing of a proxy shared between records are not modelled.
- `StopTimes.CompareTo`: the contract gives the exact result only when the difference of the sequences fits in an `int`. On overflow the wrapped value is given by `JavaInts.Sub32`, not by the contract. `StopTimeProperties.CompareToOverflowInvertsOrder` shows the inversion.
- `Trips.CopyOf`: the copy's independence from its source is structural, because records are values. Java object aliasing is not modelled.
- `serialVersionUID`, the `transient` marker on the proxy field, and thread safety: none of them has observable behaviour in a single-threaded model.
- Sorting a trip's stop times by `compareTo` is done by the loader that builds each trip's stop-time list. That loader is not part of this model; the comparator laws it relies on are proved (`StopTimeProperties.CompareToAntisymmetric`, `StopTimeProperties.CompareToTransitive`).
