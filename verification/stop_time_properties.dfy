/**
  Properties of single StopTime operations: the pickup-type quirk, the
  ordering, the copy constructor and proxy attachment.
 */
module StopTimeProperties {
  import opened Wrappers
  import opened JavaInts
  import opened StopTimes

  // ---------------------------------------------------------------------
  // setPickupType

  /** With a proxy attached, `SetPickupType` writes the proxy and the own
      field alike, so it breaks the forwarding discipline whenever the own
      field held a different value. */
  lemma ProxiedSetPickupTypeWritesBoth(st: StopTime, v: Int32)
    requires st.proxy.Some?
    ensures SetPickupType(st, v).proxy.value.pickupType == v
    ensures SetPickupType(st, v).own.pickupType == v
    ensures st.own.pickupType != v <==> !WritesOnlyEffective(st, SetPickupType(st, v), PickupType)
  {
  }

  /** Without a proxy, `SetPickupType` is an ordinary own-field write. */
  lemma DirectSetPickupTypeWritesOwnOnly(st: StopTime, v: Int32)
    requires st.proxy.None?
    ensures WritesOnlyEffective(st, SetPickupType(st, v), PickupType)
  {
  }

  /** Every other mutator leaves the own fields alone under a proxy; the
      drop-off type, the pickup type's sibling, is the contrast case. */
  lemma ProxiedSetDropOffTypeKeepsOwn(st: StopTime, v: Int32)
    requires st.proxy.Some?
    ensures SetDropOffType(st, v).own == st.own
    ensures SetDropOffType(st, v).proxy.value.dropOffType == v
  {
  }

  /** Setting the stop sequence through a proxied record lands in the proxy
      and leaves the record's own stop sequence as it was. */
  lemma ProxiedSetStopSequenceExample(st: StopTime)
    requires st.proxy.Some?
    ensures SetStopSequence(st, 42).proxy.value.stopSequence == 42
    ensures SetStopSequence(st, 42).own.stopSequence == st.own.stopSequence
  {
  }

  // ---------------------------------------------------------------------
  // Sentinel fields

  /** Writing the sentinel itself reads back as unset, for both times and the
      shape distance, with or without a proxy. */
  lemma SentinelWriteReadsUnset(st: StopTime)
    ensures !IsArrivalTimeSet(SetArrivalTime(st, MissingValue))
    ensures !IsDepartureTimeSet(SetDepartureTime(st, MissingValue))
    ensures !IsShapeDistTraveledSet(SetShapeDistTraveled(st, MissingValue))
  {
  }

  /** Clearing is the same as writing the sentinel. */
  lemma ClearIsSentinelWrite(st: StopTime)
    ensures ClearArrivalTime(st) == SetArrivalTime(st, MissingValue)
    ensures ClearDepartureTime(st) == SetDepartureTime(st, MissingValue)
    ensures ClearShapeDistTraveled(st) == SetShapeDistTraveled(st, MissingValue)
  {
  }

  // ---------------------------------------------------------------------
  // Ordering

  /** GTFS stop sequences are non-negative; on them `compareTo` never
      overflows. */
  predicate NonNegativeSequence(st: StopTime) {
    GetStopSequence(st) >= 0
  }

  /** On non-negative sequences the sign of `compareTo` is exactly the order
      of the effective stop sequences. */
  lemma CompareToFaithfulOnNonNegative(a: StopTime, b: StopTime)
    requires NonNegativeSequence(a) && NonNegativeSequence(b)
    ensures CompareTo(a, b) < 0 <==> GetStopSequence(a) < GetStopSequence(b)
    ensures CompareTo(a, b) == 0 <==> GetStopSequence(a) == GetStopSequence(b)
    ensures CompareTo(a, b) > 0 <==> GetStopSequence(a) > GetStopSequence(b)
  {
  }

  /** The `Comparable` sign symmetry, on non-negative sequences. */
  lemma CompareToAntisymmetric(a: StopTime, b: StopTime)
    requires NonNegativeSequence(a) && NonNegativeSequence(b)
    ensures CompareTo(a, b) < 0 <==> CompareTo(b, a) > 0
    ensures CompareTo(a, b) == 0 <==> CompareTo(b, a) == 0
  {
  }

  /** The `Comparable` transitivity, on non-negative sequences. */
  lemma CompareToTransitive(a: StopTime, b: StopTime, c: StopTime)
    requires NonNegativeSequence(a) && NonNegativeSequence(b) && NonNegativeSequence(c)
    requires CompareTo(a, b) < 0 && CompareTo(b, c) < 0
    ensures CompareTo(a, c) < 0
  {
  }

  /** A record with sequence 3 sorts before one with sequence 7. */
  lemma CompareToExample(a: StopTime, b: StopTime)
    requires GetStopSequence(a) == 3 && GetStopSequence(b) == 7
    ensures CompareTo(a, b) < 0 && CompareTo(b, a) > 0
    ensures CompareTo(a, a) == 0
  {
  }

  /** Outside the GTFS domain the wrapping subtraction inverts the order:
      the most negative sequence compares above sequence 1. */
  lemma CompareToOverflowInvertsOrder(a: StopTime, b: StopTime)
    requires GetStopSequence(a) == Int32Min && GetStopSequence(b) == 1
    ensures GetStopSequence(a) < GetStopSequence(b)
    ensures CompareTo(a, b) > 0
  {
  }

  /** Ordering uses the effective sequence: under a proxy the own stop
      sequence has no say in the comparison. */
  lemma CompareToIgnoresOwnWhenProxied(a: StopTime, b: StopTime, own: Fields)
    requires a.proxy.Some?
    ensures CompareTo(a.(own := own), b) == CompareTo(a, b)
    ensures CompareTo(b, a.(own := own)) == CompareTo(b, a)
  {
  }

  // ---------------------------------------------------------------------
  // Copy constructor

  /** The copy does not depend on the source's proxy at all. */
  lemma CopyIgnoresProxy(st: StopTime, p: Option<Fields>)
    ensures CopyOf(st.(proxy := p)) == CopyOf(st)
  {
  }

  /** Copying an un-proxied record gives one that reads the same through
      every getter. */
  lemma CopyOfDirectReadsSame(st: StopTime)
    requires st.proxy.None?
    ensures forall n: Field :: Observe(CopyOf(st), n) == Observe(st, n)
  {
  }

  /** Copying a proxied record reads the own fields, not the proxy: whenever
      the two stores differ, the copy reads differently from the source. */
  lemma CopyOfProxiedReadsOwn(st: StopTime)
    requires st.proxy.Some? && st.proxy.value != st.own
    ensures exists n: Field :: Observe(CopyOf(st), n) != Observe(st, n)
  {
    if forall n: Field :: Observe(CopyOf(st), n) == Observe(st, n) {
      forall n: Field ensures Read(st.own, n) == Read(st.proxy.value, n) {
        assert Observe(CopyOf(st), n) == Observe(st, n);
      }
      ReadDeterminesFields(st.own, st.proxy.value);
      assert false;
    }
  }

  // ---------------------------------------------------------------------
  // Proxy attachment

  /** Detaching restores direct access to the own fields as they stand. */
  lemma DetachReadsOwn(st: StopTime)
    ensures GetProxy(SetProxy(st, None)).None?
    ensures forall n: Field :: Observe(SetProxy(st, None), n) == Read(st.own, n)
  {
  }

  /** Attaching a proxy makes every getter answer from it. */
  lemma AttachReadsProxy(st: StopTime, p: Fields)
    ensures forall n: Field :: Observe(SetProxy(st, Some(p)), n) == Read(p, n)
  {
  }
}
