/**
 * The per-phone NITZ state machine (NewNitzStateMachineImpl). It keeps the
 * latest accepted NITZ signal and the detected country. A round of time zone
 * detection asks the injected suggester for a suggestion and passes it to the
 * helper. It runs on every country-unavailable event, on a country-detected
 * event only when the country changed, on every accepted NITZ signal, and on
 * network-unavailable and airplane-mode events only when a signal was cached
 * (airplane mode clears the country even when it runs nothing). Only an
 * accepted NITZ signal with a payload also passes a time suggestion.
 *
 * Handle is the specification of one event: the new state and the calls made
 * to the helper. The class's handlers are proved to follow it, and the lemmas
 * below state what it promises.
 */
module NitzStateMachine {
  import opened Wrappers
  import opened NitzTypes
  import opened TimeServiceHelper

  /**
   * The injected collaborators. The filter is NitzSignalInputFilterPredicate;
   * the suggester is TimeZoneSuggester, returning None where it throws.
   */
  datatype Config = Config(
    phoneId: int,
    filter: (Option<Signal>, Signal) -> bool,
    suggester: (int, Country, Option<Signal>) -> Option<ZoneSuggestion>)

  /** The machine's detection state: mLatestNitzSignal and mCountryIsoCode. */
  datatype MachineState = MachineState(latestNitzSignal: Option<Signal>, countryIsoCode: Country)

  /** The state of a newly constructed machine. */
  const Initial := MachineState(None, NoCountry)

  datatype Event =
    | NetworkAvailable
    | NetworkUnavailable
    | CountryDetected(iso: string)
    | CountryUnavailable
    | NitzReceived(signal: Signal)
    | AirplaneModeChanged(on: bool)

  /** The outcome of handling events: the new state and the helper calls made, in order. */
  datatype Outcome = Outcome(state: MachineState, calls: seq<HelperCall>)

  /** The calls made by one round of time zone detection; none when the suggester throws. */
  function ZoneDetection(cfg: Config, country: Country, signal: Option<Signal>): seq<HelperCall>
  {
    match cfg.suggester(cfg.phoneId, country, signal)
    case None => []
    case Some(z) => [SuggestZone(z)]
  }

  /** The time suggestion built from a signal's reference time and its payload's UTC time. */
  function NitzTimeSuggestion(phoneId: int, referenceTimeMillis: int, value: NitzData): TimeSuggestion
  {
    TimeSuggestion(phoneId, Some(TimedMillis(referenceTimeMillis, value.currentTimeMillis)))
  }

  /**
   * The calls made by one round of time detection: none without a signal
   * (withdrawal is not supported) and none when the payload is null (the
   * null check throws and the exception is swallowed).
   */
  function TimeDetection(cfg: Config, signal: Option<Signal>): seq<HelperCall>
  {
    match signal
    case None => []
    case Some(s) =>
      match s.value
      case None => []
      case Some(v) => [SuggestTime(NitzTimeSuggestion(cfg.phoneId, s.referenceTimeMillis, v))]
  }

  /** clearNetworkStateAndRerunDetection: nothing to do without a signal, else forget it and re-detect. */
  function ClearNetworkStateStep(cfg: Config, st: MachineState): Outcome
  {
    if st.latestNitzSignal.None? then Outcome(st, [])
    else
      Outcome(st.(latestNitzSignal := None),
              ZoneDetection(cfg, st.countryIsoCode, None) + TimeDetection(cfg, None))
  }

  /** The effect of one event. */
  function Handle(cfg: Config, st: MachineState, e: Event): Outcome
  {
    match e
    case NetworkAvailable => Outcome(st, [])
    case NetworkUnavailable => ClearNetworkStateStep(cfg, st)
    case CountryDetected(iso) =>
      Outcome(st.(countryIsoCode := Code(iso)),
              if st.countryIsoCode != Code(iso)
              then ZoneDetection(cfg, Code(iso), st.latestNitzSignal)
              else [])
    case CountryUnavailable =>
      Outcome(st.(countryIsoCode := NoCountry), ZoneDetection(cfg, NoCountry, st.latestNitzSignal))
    case NitzReceived(s) =>
      if !cfg.filter(st.latestNitzSignal, s) then Outcome(st, [])
      else
        Outcome(st.(latestNitzSignal := Some(s)),
                ZoneDetection(cfg, st.countryIsoCode, Some(s)) + TimeDetection(cfg, Some(s)))
    case AirplaneModeChanged(_) =>
      ClearNetworkStateStep(cfg, st.(countryIsoCode := NoCountry))
  }

  /** The effect of a sequence of events, handled in arrival order. */
  function Run(cfg: Config, st: MachineState, events: seq<Event>): Outcome
  {
    if events == [] then Outcome(st, [])
    else
      var before := Run(cfg, st, events[..|events| - 1]);
      var step := Handle(cfg, before.state, events[|events| - 1]);
      Outcome(step.state, before.calls + step.calls)
  }

  // ---------------------------------------------------------------------
  // One event at a time

  /** handleNetworkAvailable changes nothing and calls nothing. */
  lemma NetworkAvailableIsNoOp(cfg: Config, st: MachineState)
    ensures Handle(cfg, st, NetworkAvailable) == Outcome(st, [])
  {
  }

  /** handleNetworkUnavailable without a cached signal changes nothing and calls nothing. */
  lemma NetworkUnavailableWithoutSignalIsNoOp(cfg: Config, st: MachineState)
    requires st.latestNitzSignal.None?
    ensures Handle(cfg, st, NetworkUnavailable) == Outcome(st, [])
  {
  }

  /**
   * handleNetworkUnavailable with a cached signal forgets it, keeps the
   * country, and makes at most one call: the zone suggestion for the
   * country without a signal. No time suggestion is made.
   */
  lemma NetworkUnavailableWithSignal(cfg: Config, st: MachineState)
    requires st.latestNitzSignal.Some?
    ensures var o := Handle(cfg, st, NetworkUnavailable);
      && o.state == MachineState(None, st.countryIsoCode)
      && o.calls == ZoneDetection(cfg, st.countryIsoCode, None)
      && |o.calls| <= 1
      && TimesOffered(o.calls) == []
  {
    var calls := ZoneDetection(cfg, st.countryIsoCode, None);
    assert calls + [] == calls;
    if calls != [] {
      assert calls[..0] == [];
    }
  }

  /**
   * handleCountryDetected always records the country, and re-runs zone
   * detection (with the new country and the cached signal) only when the
   * country changed.
   */
  lemma CountryDetectedEffect(cfg: Config, st: MachineState, iso: string)
    ensures var o := Handle(cfg, st, CountryDetected(iso));
      && o.state == MachineState(st.latestNitzSignal, Code(iso))
      && (st.countryIsoCode == Code(iso) ==> o.calls == [])
      && (st.countryIsoCode != Code(iso) ==> o.calls == ZoneDetection(cfg, Code(iso), st.latestNitzSignal))
  {
  }

  /** Delivering the same country twice in a row: the second delivery changes nothing and calls nothing. */
  lemma CountryDetectedTwice(cfg: Config, st: MachineState, iso: string)
    ensures var first := Handle(cfg, st, CountryDetected(iso));
      Handle(cfg, first.state, CountryDetected(iso)) == Outcome(first.state, [])
  {
  }

  /**
   * handleCountryUnavailable clears the country, keeps the signal, and always
   * re-runs zone detection with no country, even when none was set.
   */
  lemma CountryUnavailableEffect(cfg: Config, st: MachineState)
    ensures var o := Handle(cfg, st, CountryUnavailable);
      && o.state == MachineState(st.latestNitzSignal, NoCountry)
      && o.calls == ZoneDetection(cfg, NoCountry, st.latestNitzSignal)
  {
  }

  /** A signal the filter rejects changes nothing and calls nothing. */
  lemma NitzRejected(cfg: Config, st: MachineState, s: Signal)
    requires !cfg.filter(st.latestNitzSignal, s)
    ensures Handle(cfg, st, NitzReceived(s)) == Outcome(st, [])
  {
  }

  /**
   * An accepted signal becomes the cached one (so its payload is the cached
   * NITZ data), the country is kept, the zone suggestion for (country, signal)
   * is offered first, and then the time suggestion carrying exactly the
   * signal's reference time and its payload's UTC time.
   */
  lemma NitzAccepted(cfg: Config, st: MachineState, s: Signal)
    requires cfg.filter(st.latestNitzSignal, s)
    ensures var o := Handle(cfg, st, NitzReceived(s));
      && o.state == MachineState(Some(s), st.countryIsoCode)
      && o.calls == ZoneDetection(cfg, st.countryIsoCode, Some(s)) + TimeDetection(cfg, Some(s))
      && (s.value.Some? ==>
            o.calls[|o.calls| - 1]
            == SuggestTime(TimeSuggestion(cfg.phoneId,
                 Some(TimedMillis(s.referenceTimeMillis, s.value.value.currentTimeMillis)))))
  {
  }

  /**
   * A suggester failure while handling an accepted signal does not undo the
   * new state and does not stop time detection.
   */
  lemma NitzAcceptedSuggesterFails(cfg: Config, st: MachineState, s: Signal)
    requires cfg.filter(st.latestNitzSignal, s)
    requires cfg.suggester(cfg.phoneId, st.countryIsoCode, Some(s)).None?
    requires s.value.Some?
    ensures Handle(cfg, st, NitzReceived(s))
         == Outcome(MachineState(Some(s), st.countryIsoCode),
                    [SuggestTime(NitzTimeSuggestion(cfg.phoneId, s.referenceTimeMillis, s.value.value))])
  {
  }

  /**
   * handleAirplaneModeChanged clears both the country and the signal, whether
   * airplane mode goes on or off. Without a cached signal nothing is called;
   * with one, only the zone suggestion for (no country, no signal).
   */
  lemma AirplaneModeClearsState(cfg: Config, st: MachineState, on: bool)
    ensures var o := Handle(cfg, st, AirplaneModeChanged(on));
      && o.state == Initial
      && (st.latestNitzSignal.None? ==> o.calls == [])
      && (st.latestNitzSignal.Some? ==> o.calls == ZoneDetection(cfg, NoCountry, None))
  {
    assert ZoneDetection(cfg, NoCountry, None) + [] == ZoneDetection(cfg, NoCountry, None);
  }

  /** Turning airplane mode on and then off: the second toggle changes nothing and calls nothing. */
  lemma AirplaneModeToggleSecondIsSilent(cfg: Config, st: MachineState, on1: bool, on2: bool)
    ensures var first := Handle(cfg, st, AirplaneModeChanged(on1));
      Handle(cfg, first.state, AirplaneModeChanged(on2)) == Outcome(Initial, [])
  {
    AirplaneModeClearsState(cfg, st, on1);
  }

  /**
   * Airplane mode clears the country but re-runs no detection when no signal
   * is cached, so a zone suggestion made for a detected country is never
   * withdrawn by toggling airplane mode on and off: it stays the helper's
   * last suggested zone.
   */
  lemma AirplaneModeKeepsCountryZone(cfg: Config, iso: string)
    ensures var o := Run(cfg, Initial, [CountryDetected(iso), AirplaneModeChanged(true), AirplaneModeChanged(false)]);
      && o.state == Initial
      && o.calls == ZoneDetection(cfg, Code(iso), None)
      && Replay(cfg.phoneId, o.calls).lastSuggestedTimeZone == cfg.suggester(cfg.phoneId, Code(iso), None)
  {
    var events := [CountryDetected(iso), AirplaneModeChanged(true), AirplaneModeChanged(false)];
    var calls := ZoneDetection(cfg, Code(iso), None);
    assert events[..2][..1] == [CountryDetected(iso)];
    assert events[..2] == [CountryDetected(iso), AirplaneModeChanged(true)];
    assert Run(cfg, Initial, [CountryDetected(iso)]) == Outcome(MachineState(None, Code(iso)), calls);
    AirplaneModeClearsState(cfg, MachineState(None, Code(iso)), true);
    AirplaneModeClearsState(cfg, Initial, false);
    assert calls + [] + [] == calls;
    if calls != [] {
      assert calls[..0] == [];
    }
  }

  /** Zone detection offers at most one call, a zone suggestion. */
  lemma ZoneDetectionOffersOneZone(cfg: Config, country: Country, signal: Option<Signal>)
    ensures var calls := ZoneDetection(cfg, country, signal);
      && |calls| <= 1
      && (forall k :: 0 <= k < |calls| ==> calls[k].SuggestZone?)
      && TimesOffered(calls) == []
  {
    var calls := ZoneDetection(cfg, country, signal);
    if calls != [] {
      assert calls[..0] == [];
    }
  }

  /** Time detection for a signal offers exactly the suggestion built from its payload, if it has one. */
  lemma TimeDetectionOffers(cfg: Config, s: Signal)
    ensures var calls := TimeDetection(cfg, Some(s));
      && ZonesOffered(calls) == []
      && TimesOffered(calls)
         == if s.value.Some?
            then [NitzTimeSuggestion(cfg.phoneId, s.referenceTimeMillis, s.value.value)]
            else []
  {
    var calls := TimeDetection(cfg, Some(s));
    if calls != [] {
      assert calls[..0] == [];
    }
  }

  /** The time suggestions offered for an accepted NITZ signal. */
  lemma AcceptedNitzTimes(cfg: Config, st: MachineState, s: Signal)
    requires cfg.filter(st.latestNitzSignal, s)
    ensures TimesOffered(Handle(cfg, st, NitzReceived(s)).calls)
         == if s.value.Some?
            then [NitzTimeSuggestion(cfg.phoneId, s.referenceTimeMillis, s.value.value)]
            else []
  {
    var zs := ZoneDetection(cfg, st.countryIsoCode, Some(s));
    var ts := TimeDetection(cfg, Some(s));
    assert Handle(cfg, st, NitzReceived(s)).calls == zs + ts;
    ZoneDetectionOffersOneZone(cfg, st.countryIsoCode, Some(s));
    TimeDetectionOffers(cfg, s);
    OfferedTimesDistribute(zs, ts);
  }

  /** Only an accepted NITZ signal with a payload leads to a time suggestion. */
  lemma StepTimes(cfg: Config, st: MachineState, e: Event)
    ensures TimesOffered(Handle(cfg, st, e).calls)
         == if e.NitzReceived? && cfg.filter(st.latestNitzSignal, e.signal) && e.signal.value.Some?
            then [NitzTimeSuggestion(cfg.phoneId, e.signal.referenceTimeMillis, e.signal.value.value)]
            else []
  {
    if e.NitzReceived? {
      if cfg.filter(st.latestNitzSignal, e.signal) {
        AcceptedNitzTimes(cfg, st, e.signal);
      }
    } else if e.CountryDetected? {
      ZoneDetectionOffersOneZone(cfg, Code(e.iso), st.latestNitzSignal);
    } else if e.CountryUnavailable? {
      ZoneDetectionOffersOneZone(cfg, NoCountry, st.latestNitzSignal);
    } else if e.NetworkUnavailable? || e.AirplaneModeChanged? {
      var country := if e.AirplaneModeChanged? then NoCountry else st.countryIsoCode;
      var zs := ZoneDetection(cfg, country, None);
      ZoneDetectionOffersOneZone(cfg, country, None);
      assert zs + [] == zs;
    }
  }

  /**
   * Every event makes at most two calls, and a zone suggestion is always
   * offered before a time suggestion.
   */
  lemma ZoneBeforeTime(cfg: Config, st: MachineState, e: Event)
    ensures var calls := Handle(cfg, st, e).calls;
      && |calls| <= 2
      && forall i, j :: 0 <= i < |calls| && 0 <= j < |calls| && calls[i].SuggestTime? && calls[j].SuggestZone?
           ==> j < i
  {
    var calls := Handle(cfg, st, e).calls;
    match e
    case NitzReceived(s) =>
      var zs := ZoneDetection(cfg, st.countryIsoCode, Some(s));
      ZoneDetectionOffersOneZone(cfg, st.countryIsoCode, Some(s));
      if cfg.filter(st.latestNitzSignal, s) {
        var ts := TimeDetection(cfg, Some(s));
        assert calls == zs + ts;
        assert forall k :: 0 <= k < |ts| ==> ts[k].SuggestTime?;
        assert forall k :: 0 <= k < |calls| ==> (k < |zs| <==> calls[k].SuggestZone?);
      }
    case CountryDetected(iso) =>
      ZoneDetectionOffersOneZone(cfg, Code(iso), st.latestNitzSignal);
    case CountryUnavailable =>
      ZoneDetectionOffersOneZone(cfg, NoCountry, st.latestNitzSignal);
    case NetworkUnavailable =>
      ZoneDetectionOffersOneZone(cfg, st.countryIsoCode, None);
      assert ZoneDetection(cfg, st.countryIsoCode, None) + [] == ZoneDetection(cfg, st.countryIsoCode, None);
    case AirplaneModeChanged(_) =>
      ZoneDetectionOffersOneZone(cfg, NoCountry, None);
      assert ZoneDetection(cfg, NoCountry, None) + [] == ZoneDetection(cfg, NoCountry, None);
    case NetworkAvailable =>
  }

  /**
   * The country after an event depends only on the country before it, never
   * on the cached signal (for airplane mode it is always NoCountry).
   */
  lemma CountryIndependentOfSignal(cfg: Config, st1: MachineState, st2: MachineState, e: Event)
    requires st1.countryIsoCode == st2.countryIsoCode
    ensures Handle(cfg, st1, e).state.countryIsoCode == Handle(cfg, st2, e).state.countryIsoCode
  {
  }

  // ---------------------------------------------------------------------
  // Sequences of events

  lemma RunSnoc(cfg: Config, st: MachineState, events: seq<Event>, e: Event)
    ensures var before := Run(cfg, st, events);
      var step := Handle(cfg, before.state, e);
      Run(cfg, st, events + [e]) == Outcome(step.state, before.calls + step.calls)
  {
    assert (events + [e])[..|events|] == events;
  }

  /** Losing the network never changes the country, whatever came before. */
  lemma NetworkUnavailablePreservesCountry(cfg: Config, st: MachineState, events: seq<Event>)
    ensures Run(cfg, st, events + [NetworkUnavailable]).state.countryIsoCode
         == Run(cfg, st, events).state.countryIsoCode
  {
    RunSnoc(cfg, st, events, NetworkUnavailable);
  }

  /**
   * A cached signal is never invented: starting from a fresh machine, the
   * signal held after any events is one that arrived in a NITZ event and was
   * accepted by the filter given the signal cached at that moment.
   */
  lemma {:induction false} CachedSignalWasAccepted(cfg: Config, events: seq<Event>)
    requires Run(cfg, Initial, events).state.latestNitzSignal.Some?
    ensures var s := Run(cfg, Initial, events).state.latestNitzSignal.value;
      exists i :: 0 <= i < |events| && events[i] == NitzReceived(s)
                  && cfg.filter(Run(cfg, Initial, events[..i]).state.latestNitzSignal, s)
    decreases |events|
  {
    var n := |events|;
    var prefix := events[..n - 1];
    var before := Run(cfg, Initial, prefix);
    var e := events[n - 1];
    var s := Run(cfg, Initial, events).state.latestNitzSignal.value;
    if e.NitzReceived? && cfg.filter(before.state.latestNitzSignal, e.signal) {
      assert events[..n - 1] == prefix;
      assert e == NitzReceived(s);
    } else {
      assert before.state.latestNitzSignal == Some(s);
      CachedSignalWasAccepted(cfg, prefix);
      var i :| 0 <= i < |prefix| && prefix[i] == NitzReceived(s)
               && cfg.filter(Run(cfg, Initial, prefix[..i]).state.latestNitzSignal, s);
      assert prefix[..i] == events[..i];
    }
  }

  /** The time suggestions that the NITZ signals among `events` could give rise to. */
  function SignalTimes(phoneId: int, events: seq<Event>): set<TimeSuggestion>
  {
    set e | e in events && e.NitzReceived? && e.signal.value.Some?
      :: NitzTimeSuggestion(phoneId, e.signal.referenceTimeMillis, e.signal.value.value)
  }

  /**
   * Every time suggestion the machine makes carries the reference time and
   * UTC time of a NITZ signal that arrived among the events.
   */
  lemma {:induction false} TimeSuggestionsComeFromSignals(cfg: Config, st: MachineState, events: seq<Event>)
    ensures forall t :: t in TimesOffered(Run(cfg, st, events).calls) ==> t in SignalTimes(cfg.phoneId, events)
    decreases |events|
  {
    if events != [] {
      var prefix := events[..|events| - 1];
      var e := events[|events| - 1];
      var before := Run(cfg, st, prefix);
      var step := Handle(cfg, before.state, e);
      TimeSuggestionsComeFromSignals(cfg, st, prefix);
      OfferedTimesDistribute(before.calls, step.calls);
      StepTimes(cfg, before.state, e);
      assert events == prefix + [e];
      assert SignalTimes(cfg.phoneId, prefix) <= SignalTimes(cfg.phoneId, events);
    }
  }

  lemma {:induction false} OfferedTimesDistribute(a: seq<HelperCall>, b: seq<HelperCall>)
    ensures TimesOffered(a + b) == TimesOffered(a) + TimesOffered(b)
    ensures ZonesOffered(a + b) == ZonesOffered(a) + ZonesOffered(b)
    decreases |b|
  {
    if b == [] {
      assert a + b == a;
    } else {
      var b' := b[..|b| - 1];
      assert (a + b)[..|a + b| - 1] == a + b';
      assert (a + b)[|a + b| - 1] == b[|b| - 1];
      OfferedTimesDistribute(a, b');
    }
  }

  /**
   * End to end: when the helper has received exactly the machine's calls, the
   * time zone detector has received the machine's zone suggestions with
   * consecutive duplicates removed, and the time detector every time suggestion.
   */
  lemma EndToEnd(cfg: Config, helperPhoneId: int, events: seq<Event>)
    ensures var calls := Run(cfg, Initial, events).calls;
      var h := Replay(helperPhoneId, calls);
      && ZonesSent(h.sent) == Dedup(ZonesOffered(calls))
      && TimesSent(h.sent) == TimesOffered(calls)
      && NoAdjacentDuplicates(ZonesSent(h.sent))
  {
    var calls := Run(cfg, Initial, events).calls;
    ReplayForwardsDedup(helperPhoneId, calls);
    ReplayForwardsAllTimes(helperPhoneId, calls);
    DedupHasNoAdjacentDuplicates(ZonesOffered(calls));
  }

  // ---------------------------------------------------------------------
  // The machine object

  class NewNitzStateMachineImpl {
    const phoneId: int
    const nitzSignalInputFilter: (Option<Signal>, Signal) -> bool
    const timeZoneSuggester: (int, Country, Option<Signal>) -> Option<ZoneSuggestion>
    const helper: NewTimeServiceHelperImpl

    var latestNitzSignal: Option<Signal>
    var countryIsoCode: Country

    ghost predicate Valid()
      reads this, helper
    {
      helper.Valid()
    }

    ghost function Cfg(): Config
    {
      Config(phoneId, nitzSignalInputFilter, timeZoneSuggester)
    }

    function State(): MachineState
      reads this
    {
      MachineState(latestNitzSignal, countryIsoCode)
    }

    constructor (phoneId: int,
                 nitzSignalInputFilter: (Option<Signal>, Signal) -> bool,
                 timeZoneSuggester: (int, Country, Option<Signal>) -> Option<ZoneSuggestion>,
                 helper: NewTimeServiceHelperImpl)
      requires helper.Valid()
      ensures Valid() && State() == Initial
      ensures Cfg() == Config(phoneId, nitzSignalInputFilter, timeZoneSuggester)
      ensures this.helper == helper
    {
      this.phoneId := phoneId;
      this.nitzSignalInputFilter := nitzSignalInputFilter;
      this.timeZoneSuggester := timeZoneSuggester;
      this.helper := helper;
      latestNitzSignal := None;
      countryIsoCode := NoCountry;
    }

    /** getCachedNitzData: the payload of the latest accepted signal, if any. */
    method GetCachedNitzData() returns (data: Option<NitzData>)
      ensures latestNitzSignal.Some? ==> data == latestNitzSignal.value.value
      ensures latestNitzSignal.None? ==> data.None?
    {
      data := if latestNitzSignal.Some? then latestNitzSignal.value.value else None;
    }

    method DoTimeZoneDetection(country: Country, signal: Option<Signal>)
      requires Valid()
      modifies helper
      ensures Valid()
      ensures helper.calls == old(helper.calls) + ZoneDetection(Cfg(), country, signal)
    {
      var suggestion := timeZoneSuggester(phoneId, country, signal);
      match suggestion {
        case None =>
          // The suggester threw: the exception is logged and swallowed.
        case Some(z) =>
          helper.MaybeSuggestDeviceTimeZone(z);
      }
    }

    method DoTimeDetection(signal: Option<Signal>)
      requires Valid()
      modifies helper
      ensures Valid()
      ensures helper.calls == old(helper.calls) + TimeDetection(Cfg(), signal)
    {
      if signal.None? {
        return;
      }
      var s := signal.value;
      if s.value.None? {
        // The null check on the payload throws: the exception is logged and swallowed.
        return;
      }
      var suggestion := NitzTimeSuggestion(phoneId, s.referenceTimeMillis, s.value.value);
      helper.SuggestDeviceTime(suggestion);
    }

    method ClearNetworkStateAndRerunDetection()
      requires Valid()
      modifies this, helper
      ensures Valid()
      ensures var o := ClearNetworkStateStep(Cfg(), old(State()));
        State() == o.state && helper.calls == old(helper.calls) + o.calls
    {
      if latestNitzSignal.None? {
        return;
      }
      latestNitzSignal := None;
      var country := countryIsoCode;
      DoTimeZoneDetection(country, None);
      DoTimeDetection(None);
    }

    method HandleNetworkAvailable()
      ensures State() == old(State())
    {
    }

    method HandleNetworkUnavailable()
      requires Valid()
      modifies this, helper
      ensures Valid()
      ensures var o := Handle(Cfg(), old(State()), NetworkUnavailable);
        State() == o.state && helper.calls == old(helper.calls) + o.calls
      ensures countryIsoCode == old(countryIsoCode) && latestNitzSignal.None?
      ensures old(latestNitzSignal).None? ==> helper.calls == old(helper.calls)
    {
      ClearNetworkStateAndRerunDetection();
    }

    method HandleCountryDetected(iso: string)
      requires Valid()
      modifies this, helper
      ensures Valid()
      ensures var o := Handle(Cfg(), old(State()), CountryDetected(iso));
        State() == o.state && helper.calls == old(helper.calls) + o.calls
      ensures countryIsoCode == Code(iso) && latestNitzSignal == old(latestNitzSignal)
      ensures old(countryIsoCode) == Code(iso) ==> helper.calls == old(helper.calls)
    {
      var oldCountryIsoCode := countryIsoCode;
      countryIsoCode := Code(iso);
      if oldCountryIsoCode != countryIsoCode {
        DoTimeZoneDetection(Code(iso), latestNitzSignal);
      }
    }

    method HandleCountryUnavailable()
      requires Valid()
      modifies this, helper
      ensures Valid()
      ensures var o := Handle(Cfg(), old(State()), CountryUnavailable);
        State() == o.state && helper.calls == old(helper.calls) + o.calls
      ensures countryIsoCode == NoCountry && latestNitzSignal == old(latestNitzSignal)
    {
      countryIsoCode := NoCountry;
      DoTimeZoneDetection(NoCountry, latestNitzSignal);
    }

    method HandleNitzReceived(s: Signal)
      requires Valid()
      modifies this, helper
      ensures Valid()
      ensures var o := Handle(Cfg(), old(State()), NitzReceived(s));
        State() == o.state && helper.calls == old(helper.calls) + o.calls
      ensures countryIsoCode == old(countryIsoCode)
      ensures !nitzSignalInputFilter(old(latestNitzSignal), s) ==>
                latestNitzSignal == old(latestNitzSignal) && helper.calls == old(helper.calls)
      ensures nitzSignalInputFilter(old(latestNitzSignal), s) ==>
                latestNitzSignal == Some(s)
    {
      var previousNitzSignal := latestNitzSignal;
      if !nitzSignalInputFilter(previousNitzSignal, s) {
        return;
      }
      latestNitzSignal := Some(s);
      var country := countryIsoCode;
      DoTimeZoneDetection(country, Some(s));
      DoTimeDetection(Some(s));
    }

    method HandleAirplaneModeChanged(on: bool)
      requires Valid()
      modifies this, helper
      ensures Valid()
      ensures var o := Handle(Cfg(), old(State()), AirplaneModeChanged(on));
        State() == o.state && helper.calls == old(helper.calls) + o.calls
      ensures State() == Initial
      ensures old(latestNitzSignal).None? ==> helper.calls == old(helper.calls)
    {
      countryIsoCode := NoCountry;
      ClearNetworkStateAndRerunDetection();
    }
  }
}
