/**
 * The facade between the NITZ state machine and the time / time zone
 * detection services (NewTimeServiceHelperImpl). Time suggestions are always
 * forwarded; a zone suggestion is forwarded only when it differs from the
 * last one forwarded.
 *
 * The downstream services are modelled as one ghost trace of emissions; the
 * pure functions Apply and Replay say what that trace is for a sequence of
 * calls, and the lemmas below say what that means: the forwarded zones are the
 * offered zones with consecutive duplicates removed, every time suggestion is
 * forwarded, and a metrics event accompanies exactly those with a UTC time.
 */
module TimeServiceHelper {
  import opened Wrappers
  import opened NitzTypes

  /** A call made to the helper by the state machine. */
  datatype HelperCall =
    | SuggestTime(time: TimeSuggestion)
    | SuggestZone(zone: ZoneSuggestion)

  /** A call made by the helper to a downstream service. */
  datatype Emission =
    | TimeDetectorSuggest(time: TimeSuggestion)     // TimeDetector.suggestPhoneTime
    | ZoneDetectorSuggest(zone: ZoneSuggestion)     // TimeZoneDetector.suggestPhoneTimeZone
    | MetricsNitzEvent(phoneId: int, utcMillis: int) // TelephonyMetrics.writeNITZEvent

  /** The helper's field together with everything it has emitted so far. */
  datatype HelperState = HelperState(lastSuggestedTimeZone: Option<ZoneSuggestion>, sent: seq<Emission>)

  /**
   * A new zone suggestion must be sent exactly when it is not the one sent
   * last; with nothing sent yet, every suggestion must be sent.
   */
  predicate ShouldSendNewTimeZoneSuggestion(oldSuggestion: Option<ZoneSuggestion>, newSuggestion: ZoneSuggestion)
    ensures ShouldSendNewTimeZoneSuggestion(oldSuggestion, newSuggestion) <==> oldSuggestion != Some(newSuggestion)
    ensures oldSuggestion.None? ==> ShouldSendNewTimeZoneSuggestion(oldSuggestion, newSuggestion)
  {
    if oldSuggestion.None? then true else newSuggestion != oldSuggestion.value
  }

  /** What suggestDeviceTime emits: the metrics event (when there is a UTC time), then the suggestion. */
  function TimeEmissions(phoneId: int, t: TimeSuggestion): seq<Emission>
  {
    (if t.utcTime.Some? then [MetricsNitzEvent(phoneId, t.utcTime.value.utcMillis)] else [])
    + [TimeDetectorSuggest(t)]
  }

  /** The effect of one call on the helper. */
  function Apply(phoneId: int, h: HelperState, c: HelperCall): HelperState
  {
    match c
    case SuggestTime(t) => h.(sent := h.sent + TimeEmissions(phoneId, t))
    case SuggestZone(z) =>
      if ShouldSendNewTimeZoneSuggestion(h.lastSuggestedTimeZone, z)
      then HelperState(Some(z), h.sent + [ZoneDetectorSuggest(z)])
      else h
  }

  /** The helper's state after a freshly constructed helper receives `calls`. */
  function Replay(phoneId: int, calls: seq<HelperCall>): HelperState
  {
    if calls == [] then HelperState(None, [])
    else Apply(phoneId, Replay(phoneId, calls[..|calls| - 1]), calls[|calls| - 1])
  }

  // ---------------------------------------------------------------------
  // Projections of the call and emission traces

  function ZonesOffered(calls: seq<HelperCall>): seq<ZoneSuggestion>
  {
    if calls == [] then []
    else ZonesOffered(calls[..|calls| - 1])
         + (if calls[|calls| - 1].SuggestZone? then [calls[|calls| - 1].zone] else [])
  }

  function TimesOffered(calls: seq<HelperCall>): seq<TimeSuggestion>
  {
    if calls == [] then []
    else TimesOffered(calls[..|calls| - 1])
         + (if calls[|calls| - 1].SuggestTime? then [calls[|calls| - 1].time] else [])
  }

  function ZonesSent(sent: seq<Emission>): seq<ZoneSuggestion>
  {
    if sent == [] then []
    else ZonesSent(sent[..|sent| - 1])
         + (if sent[|sent| - 1].ZoneDetectorSuggest? then [sent[|sent| - 1].zone] else [])
  }

  function TimesSent(sent: seq<Emission>): seq<TimeSuggestion>
  {
    if sent == [] then []
    else TimesSent(sent[..|sent| - 1])
         + (if sent[|sent| - 1].TimeDetectorSuggest? then [sent[|sent| - 1].time] else [])
  }

  function MetricsSent(sent: seq<Emission>): seq<Emission>
  {
    if sent == [] then []
    else MetricsSent(sent[..|sent| - 1])
         + (if sent[|sent| - 1].MetricsNitzEvent? then [sent[|sent| - 1]] else [])
  }

  /** The metrics events due for a sequence of time suggestions: one per suggestion with a UTC time. */
  function MetricsDue(phoneId: int, times: seq<TimeSuggestion>): seq<Emission>
  {
    if times == [] then []
    else MetricsDue(phoneId, times[..|times| - 1])
         + (var t := times[|times| - 1];
            if t.utcTime.Some? then [MetricsNitzEvent(phoneId, t.utcTime.value.utcMillis)] else [])
  }

  lemma {:induction false} SentProjectionsDistribute(a: seq<Emission>, b: seq<Emission>)
    ensures ZonesSent(a + b) == ZonesSent(a) + ZonesSent(b)
    ensures TimesSent(a + b) == TimesSent(a) + TimesSent(b)
    ensures MetricsSent(a + b) == MetricsSent(a) + MetricsSent(b)
    decreases |b|
  {
    if b == [] {
      assert a + b == a;
    } else {
      var b' := b[..|b| - 1];
      assert (a + b)[..|a + b| - 1] == a + b';
      assert (a + b)[|a + b| - 1] == b[|b| - 1];
      SentProjectionsDistribute(a, b');
    }
  }

  // ---------------------------------------------------------------------
  // Reference definition: remove consecutive duplicates

  /** `s` with every element equal to its predecessor removed. */
  function Dedup(s: seq<ZoneSuggestion>): (r: seq<ZoneSuggestion>)
    ensures |r| <= |s|
    ensures s != [] ==> r != [] && r[0] == s[0] && r[|r| - 1] == s[|s| - 1]
    decreases |s|
  {
    if |s| <= 1 then s
    else if s[0] == s[1] then Dedup(s[1..])
    else [s[0]] + Dedup(s[1..])
  }

  ghost predicate NoAdjacentDuplicates(s: seq<ZoneSuggestion>)
  {
    forall i :: 0 <= i < |s| - 1 ==> s[i] != s[i + 1]
  }

  /** Appending one element to the input appends it to the output unless it repeats the last one. */
  lemma {:induction false} DedupSnoc(s: seq<ZoneSuggestion>, z: ZoneSuggestion)
    ensures Dedup(s + [z]) == if s != [] && s[|s| - 1] == z then Dedup(s) else Dedup(s) + [z]
    decreases |s|
  {
    if |s| == 0 {
      assert s + [z] == [z];
    } else if |s| == 1 {
      assert (s + [z])[1..] == [z];
    } else {
      assert (s + [z])[1..] == s[1..] + [z];
      DedupSnoc(s[1..], z);
    }
  }

  /** The output never holds two equal suggestions in a row. */
  lemma {:induction false} DedupHasNoAdjacentDuplicates(s: seq<ZoneSuggestion>)
    ensures NoAdjacentDuplicates(Dedup(s))
    decreases |s|
  {
    if |s| > 1 {
      DedupHasNoAdjacentDuplicates(s[1..]);
    }
  }

  /** Every offered suggestion is forwarded at some point, and nothing else is. */
  lemma {:induction false} DedupKeepsElements(s: seq<ZoneSuggestion>, z: ZoneSuggestion)
    ensures z in Dedup(s) <==> z in s
    decreases |s|
  {
    if |s| > 1 {
      DedupKeepsElements(s[1..], z);
      assert s == [s[0]] + s[1..];
    }
  }

  /** A sequence without adjacent duplicates is left as it is. */
  lemma {:induction false} DedupOfNoAdjacentDuplicates(s: seq<ZoneSuggestion>)
    requires NoAdjacentDuplicates(s)
    ensures Dedup(s) == s
    decreases |s|
  {
    if |s| > 1 {
      assert s[0] != s[1];
      DedupOfNoAdjacentDuplicates(s[1..]);
    }
  }

  /** De-duplicating twice is the same as de-duplicating once. */
  lemma DedupIdempotent(s: seq<ZoneSuggestion>)
    ensures Dedup(Dedup(s)) == Dedup(s)
  {
    DedupHasNoAdjacentDuplicates(s);
    DedupOfNoAdjacentDuplicates(Dedup(s));
  }

  // ---------------------------------------------------------------------
  // What the helper does to a whole sequence of calls

  /** What one call adds to each projection of the emission trace. */
  lemma ApplyProjections(phoneId: int, h: HelperState, c: HelperCall)
    ensures c.SuggestTime? ==>
              && ZonesSent(Apply(phoneId, h, c).sent) == ZonesSent(h.sent)
              && TimesSent(Apply(phoneId, h, c).sent) == TimesSent(h.sent) + [c.time]
              && MetricsSent(Apply(phoneId, h, c).sent) == MetricsSent(h.sent) + MetricsDue(phoneId, [c.time])
    ensures c.SuggestZone? && ShouldSendNewTimeZoneSuggestion(h.lastSuggestedTimeZone, c.zone) ==>
              && ZonesSent(Apply(phoneId, h, c).sent) == ZonesSent(h.sent) + [c.zone]
              && TimesSent(Apply(phoneId, h, c).sent) == TimesSent(h.sent)
              && MetricsSent(Apply(phoneId, h, c).sent) == MetricsSent(h.sent)
  {
    match c
    case SuggestTime(t) =>
      var e := TimeEmissions(phoneId, t);
      SentProjectionsDistribute(h.sent, e);
      assert [t][..0] == [];
      if t.utcTime.Some? {
        var m := MetricsNitzEvent(phoneId, t.utcTime.value.utcMillis);
        assert [m][..0] == [];
        assert ZonesSent([m]) == [] && TimesSent([m]) == [] && MetricsSent([m]) == [m];
        assert e[..1] == [m];
        assert ZonesSent(e) == [] && TimesSent(e) == [t] && MetricsSent(e) == [m];
      } else {
        assert e[..0] == [];
      }
    case SuggestZone(z) =>
      var e := [ZoneDetectorSuggest(z)];
      SentProjectionsDistribute(h.sent, e);
      assert e[..0] == [];
  }

  /**
   * The zone detector receives exactly the offered zone suggestions with
   * consecutive duplicates removed, and the helper's field holds the last
   * suggestion offered (so it is null only while nothing has been offered).
   */
  lemma {:induction false} ReplayForwardsDedup(phoneId: int, calls: seq<HelperCall>)
    ensures ZonesSent(Replay(phoneId, calls).sent) == Dedup(ZonesOffered(calls))
    ensures Replay(phoneId, calls).lastSuggestedTimeZone == LastOf(ZonesOffered(calls))
    decreases |calls|
  {
    if calls != [] {
      var prefix := calls[..|calls| - 1];
      var c := calls[|calls| - 1];
      var h := Replay(phoneId, prefix);
      assert Replay(phoneId, calls) == Apply(phoneId, h, c);
      ReplayForwardsDedup(phoneId, prefix);
      ApplyProjections(phoneId, h, c);
      if c.SuggestZone? {
        assert ZonesOffered(calls) == ZonesOffered(prefix) + [c.zone];
        DedupSnoc(ZonesOffered(prefix), c.zone);
      } else {
        assert ZonesOffered(calls) == ZonesOffered(prefix);
      }
    }
  }

  /** Every time suggestion is forwarded, in order and without de-duplication. */
  lemma {:induction false} ReplayForwardsAllTimes(phoneId: int, calls: seq<HelperCall>)
    ensures TimesSent(Replay(phoneId, calls).sent) == TimesOffered(calls)
    decreases |calls|
  {
    if calls != [] {
      var prefix := calls[..|calls| - 1];
      var c := calls[|calls| - 1];
      var h := Replay(phoneId, prefix);
      assert Replay(phoneId, calls) == Apply(phoneId, h, c);
      ReplayForwardsAllTimes(phoneId, prefix);
      ApplyProjections(phoneId, h, c);
    }
  }

  /** A metrics event is recorded for exactly the time suggestions that carry a UTC time, with that time. */
  lemma {:induction false} ReplayRecordsMetrics(phoneId: int, calls: seq<HelperCall>)
    ensures MetricsSent(Replay(phoneId, calls).sent) == MetricsDue(phoneId, TimesOffered(calls))
    decreases |calls|
  {
    if calls != [] {
      var prefix := calls[..|calls| - 1];
      var c := calls[|calls| - 1];
      var h := Replay(phoneId, prefix);
      assert Replay(phoneId, calls) == Apply(phoneId, h, c);
      ReplayRecordsMetrics(phoneId, prefix);
      ApplyProjections(phoneId, h, c);
      if c.SuggestTime? {
        var ts := TimesOffered(calls);
        assert ts == TimesOffered(prefix) + [c.time];
        assert ts[..|ts| - 1] == TimesOffered(prefix);
        assert [c.time][..0] == [];
      } else {
        assert TimesOffered(calls) == TimesOffered(prefix);
      }
    }
  }

  /** The first zone suggestion ever offered is forwarded. */
  lemma FirstZoneAlwaysForwarded(phoneId: int, calls: seq<HelperCall>, z: ZoneSuggestion)
    requires ZonesOffered(calls) == []
    ensures Replay(phoneId, calls + [SuggestZone(z)])
         == HelperState(Some(z), Replay(phoneId, calls).sent + [ZoneDetectorSuggest(z)])
  {
    ReplayForwardsDedup(phoneId, calls);
    assert (calls + [SuggestZone(z)])[..|calls|] == calls;
  }

  /** A zone suggestion equal to the last one offered changes nothing and emits nothing. */
  lemma RepeatedZoneNotForwarded(phoneId: int, calls: seq<HelperCall>, z: ZoneSuggestion)
    requires LastOf(ZonesOffered(calls)) == Some(z)
    ensures Replay(phoneId, calls + [SuggestZone(z)]) == Replay(phoneId, calls)
  {
    ReplayForwardsDedup(phoneId, calls);
    assert (calls + [SuggestZone(z)])[..|calls|] == calls;
  }

  /** Offering the same zone suggestion twice in a row emits no more than offering it once. */
  lemma OfferedTwiceForwardedOnce(phoneId: int, calls: seq<HelperCall>, z: ZoneSuggestion)
    ensures Replay(phoneId, calls + [SuggestZone(z), SuggestZone(z)])
         == Replay(phoneId, calls + [SuggestZone(z)])
  {
    var once := calls + [SuggestZone(z)];
    assert calls + [SuggestZone(z), SuggestZone(z)] == once + [SuggestZone(z)];
    assert once[..|calls|] == calls;
    assert ZonesOffered(once) == ZonesOffered(calls) + [z];
    RepeatedZoneNotForwarded(phoneId, once, z);
  }

  /** Once a zone suggestion has been recorded, the field never goes back to null. */
  lemma {:induction false} LastSuggestedNeverReset(phoneId: int, calls: seq<HelperCall>, more: seq<HelperCall>)
    requires Replay(phoneId, calls).lastSuggestedTimeZone.Some?
    ensures Replay(phoneId, calls + more).lastSuggestedTimeZone.Some?
    decreases |more|
  {
    if more != [] {
      var more' := more[..|more| - 1];
      assert (calls + more)[..|calls + more| - 1] == calls + more';
      LastSuggestedNeverReset(phoneId, calls, more');
    } else {
      assert calls + more == calls;
    }
  }

  // ---------------------------------------------------------------------
  // The helper object

  class NewTimeServiceHelperImpl {
    const phoneId: int

    /** The last zone suggestion sent to the time zone detector, if any. */
    var lastSuggestedTimeZone: Option<ZoneSuggestion>

    /** Every call the helper has received. */
    ghost var calls: seq<HelperCall>
    /** Every call the helper has made to the downstream services. */
    ghost var sent: seq<Emission>

    ghost predicate Valid()
      reads this
    {
      Replay(phoneId, calls) == HelperState(lastSuggestedTimeZone, sent)
    }

    constructor (phoneId: int)
      ensures Valid() && this.phoneId == phoneId
      ensures calls == [] && sent == [] && lastSuggestedTimeZone == None
    {
      this.phoneId := phoneId;
      lastSuggestedTimeZone := None;
      calls := [];
      sent := [];
    }

    /** Forwards a time suggestion, recording a metrics event first when it has a UTC time. */
    method SuggestDeviceTime(t: TimeSuggestion)
      requires Valid()
      modifies this
      ensures Valid()
      ensures calls == old(calls) + [SuggestTime(t)]
      ensures lastSuggestedTimeZone == old(lastSuggestedTimeZone)
      ensures t.utcTime.Some? ==>
                sent == old(sent) + [MetricsNitzEvent(phoneId, t.utcTime.value.utcMillis), TimeDetectorSuggest(t)]
      ensures t.utcTime.None? ==> sent == old(sent) + [TimeDetectorSuggest(t)]
    {
      if t.utcTime.Some? {
        sent := sent + [MetricsNitzEvent(phoneId, t.utcTime.value.utcMillis)];
      }
      sent := sent + [TimeDetectorSuggest(t)];
      calls := calls + [SuggestTime(t)];
      assert calls[..|calls| - 1] == old(calls);
    }

    /** Forwards a zone suggestion unless it equals the last one forwarded. */
    method MaybeSuggestDeviceTimeZone(z: ZoneSuggestion)
      requires Valid()
      modifies this
      ensures Valid()
      ensures calls == old(calls) + [SuggestZone(z)]
      ensures old(lastSuggestedTimeZone) != Some(z) ==>
                lastSuggestedTimeZone == Some(z) && sent == old(sent) + [ZoneDetectorSuggest(z)]
      ensures old(lastSuggestedTimeZone) == Some(z) ==>
                lastSuggestedTimeZone == old(lastSuggestedTimeZone) && sent == old(sent)
    {
      var oldSuggestion := lastSuggestedTimeZone;
      if ShouldSendNewTimeZoneSuggestion(oldSuggestion, z) {
        sent := sent + [ZoneDetectorSuggest(z)];
        lastSuggestedTimeZone := Some(z);
      }
      calls := calls + [SuggestZone(z)];
      assert calls[..|calls| - 1] == old(calls);
    }
  }
}
