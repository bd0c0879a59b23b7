# NITZ time and time zone detection — a Dafny model

This project models the per-phone NITZ detection logic of Android telephony:

- `NewNitzStateMachineImpl` keeps the latest accepted NITZ signal and the
  detected network country. It reacts to six events: network available or
  unavailable, country detected or unavailable, NITZ received, and airplane mode
  changed. Some events run a round of time zone detection: the machine asks an
  injected time zone suggester for a zone suggestion and passes it to the time
  service helper.
  - Country unavailable always runs one.
  - Country detected runs one only when the country changed.
  - An accepted NITZ signal always runs one.
  - Network unavailable and airplane mode run one only when a signal was
    cached; without one they return early. Airplane mode still clears the
    country in that case, and nothing is sent.
  - An accepted NITZ signal with a payload is the only event that also passes
    a time suggestion.
- `NewTimeServiceHelperImpl` is the facade in front of the time detector,
  the time zone detector and telephony metrics. It forwards every time
  suggestion and records a metrics event for each one that has a UTC time. It
  forwards a zone suggestion only when it differs from the last one it
  forwarded.

Files:

- `wrappers.dfy`: `Option` and `LastOf`.
- `nitz_types.dfy` (module `NitzTypes`): the values involved.
  - The tri-state country is `NoCountry | Code(iso)`. `Code("")` is the
    test network.
  - NITZ data and signals are `NitzData` and `Signal`.
  - Zone and time suggestions are `ZoneSuggestion` and `TimeSuggestion`.
  - Debug info is left out, so datatype equality compares only the
    meaningful fields.
- `time_service_helper.dfy` (module `TimeServiceHelper`): the helper.
  - It defines the class with its `lastSuggestedTimeZone` field.
  - The downstream services are one ghost trace, `sent`. The calls the
    helper received are a second ghost trace, `calls`.
  - `Apply` and `Replay` are pure specifications. The class invariant
    `Valid()` ties both fields to `Replay(calls)`.
  - `Dedup`, a front-to-back "remove consecutive duplicates" function, is the
    independent reference definition for the forwarded zones.
- `nitz_state_machine.dfy` (module `NitzStateMachine`): the state machine.
  - It defines the class with its fields `latestNitzSignal` and
    `countryIsoCode`.
  - `Handle` specifies one event as (new state, helper calls). `Run`
    specifies a sequence of events.
  - Every handler method is proved to follow `Handle`, and lemmas state the
    properties of `Handle` and `Run`.

Modelling decisions:

- The NITZ input filter and the time zone suggester are passed to the
  constructor as deterministic function values. The suggester returns `None`
  where the Java suggester throws. The state machine swallows that exception,
  so that detection round offers nothing.
- A signal's payload is optional (`Signal.value: Option<NitzData>`), because
  `doTimeDetection` null-checks it and swallows the resulting exception.
- The time detector, the time zone detector and the metrics service appear
  only as entries of the helper's ghost trace `sent`.

## Model

| member | source | states |
|---|---|---|
| `TimeServiceHelper.ShouldSendNewTimeZoneSuggestion` | src/java/com/android/internal/telephony/nitz/NewTimeServiceHelperImpl.java:89-98 | a suggestion must be sent iff it differs from the last one sent; with none sent yet it must always be sent |
| `TimeServiceHelper.Dedup` | src/java/com/android/internal/telephony/nitz/NewTimeServiceHelperImpl.java:78-98 | removing consecutive duplicates never lengthens the sequence and keeps its first and last element |
| `TimeServiceHelper.DedupSnoc` | src/java/com/android/internal/telephony/nitz/NewTimeServiceHelperImpl.java:81-86 | offering one more suggestion appends it to the de-duplicated output unless it equals the previous one |
| `TimeServiceHelper.DedupHasNoAdjacentDuplicates` | src/java/com/android/internal/telephony/nitz/NewTimeServiceHelperImpl.java:78-98 | the de-duplicated sequence never holds two equal suggestions in a row |
| `TimeServiceHelper.DedupKeepsElements` | src/java/com/android/internal/telephony/nitz/NewTimeServiceHelperImpl.java:78-98 | a suggestion appears in the de-duplicated output iff it was offered |
| `TimeServiceHelper.DedupOfNoAdjacentDuplicates` | src/java/com/android/internal/telephony/nitz/NewTimeServiceHelperImpl.java:81-86 | a sequence without adjacent duplicates passes through unchanged |
| `TimeServiceHelper.DedupIdempotent` | src/java/com/android/internal/telephony/nitz/NewTimeServiceHelperImpl.java:81-86 | de-duplicating twice gives the same result as de-duplicating once |
| `TimeServiceHelper.ReplayForwardsDedup` | src/java/com/android/internal/telephony/nitz/NewTimeServiceHelperImpl.java:78-98 | for any call sequence, the zone detector receives the offered zone suggestions with consecutive duplicates removed, and `mLastSuggestedTimeZone` is the last suggestion offered (null iff none offered) |
| `TimeServiceHelper.ReplayForwardsAllTimes` | src/java/com/android/internal/telephony/nitz/NewTimeServiceHelperImpl.java:65-75 | for any call sequence, the time detector receives every time suggestion, in order, with no de-duplication |
| `TimeServiceHelper.ReplayRecordsMetrics` | src/java/com/android/internal/telephony/nitz/NewTimeServiceHelperImpl.java:70-73 | metrics events are recorded for exactly the time suggestions with a UTC time, each carrying the phone id and that UTC value |
| `TimeServiceHelper.FirstZoneAlwaysForwarded` | src/java/com/android/internal/telephony/nitz/NewTimeServiceHelperImpl.java:81-95 | the first zone suggestion ever offered is forwarded and becomes the last suggested one |
| `TimeServiceHelper.RepeatedZoneNotForwarded` | src/java/com/android/internal/telephony/nitz/NewTimeServiceHelperImpl.java:81-97 | a zone suggestion equal to the last one offered emits nothing and leaves the field unchanged |
| `TimeServiceHelper.OfferedTwiceForwardedOnce` | src/java/com/android/internal/telephony/nitz/NewTimeServiceHelperImpl.java:81-86 | offering a zone suggestion twice in a row has the same effect as offering it once |
| `TimeServiceHelper.LastSuggestedNeverReset` | src/java/com/android/internal/telephony/nitz/NewTimeServiceHelperImpl.java:84-85 | once `mLastSuggestedTimeZone` is set, no later calls make it null again |
| `TimeServiceHelper.NewTimeServiceHelperImpl.constructor` | src/java/com/android/internal/telephony/nitz/NewTimeServiceHelperImpl.java:48-62 | a new helper has no previous zone suggestion, has received nothing and has sent nothing |
| `TimeServiceHelper.NewTimeServiceHelperImpl.SuggestDeviceTime` | src/java/com/android/internal/telephony/nitz/NewTimeServiceHelperImpl.java:65-75 | records a metrics event (iff there is a UTC time), then forwards the suggestion; the zone field is unchanged; the invariant is kept |
| `TimeServiceHelper.NewTimeServiceHelperImpl.MaybeSuggestDeviceTimeZone` | src/java/com/android/internal/telephony/nitz/NewTimeServiceHelperImpl.java:78-87 | forwards and records the suggestion iff it differs from the last one forwarded, otherwise changes nothing downstream; the invariant is kept |
| `NitzStateMachine.NetworkAvailableIsNoOp` | src/java/com/android/internal/telephony/nitz/NewNitzStateMachineImpl.java:162-166 | network available changes no state and makes no calls |
| `NitzStateMachine.NetworkUnavailableWithoutSignalIsNoOp` | src/java/com/android/internal/telephony/nitz/NewNitzStateMachineImpl.java:168-181 | network unavailable with no cached signal changes no state and makes no calls |
| `NitzStateMachine.NetworkUnavailableWithSignal` | src/java/com/android/internal/telephony/nitz/NewNitzStateMachineImpl.java:183-198 | with a cached signal it clears the signal, keeps the country, offers at most one call (the zone suggestion for the country and no signal), and offers no time suggestion |
| `NitzStateMachine.CountryDetectedEffect` | src/java/com/android/internal/telephony/nitz/NewNitzStateMachineImpl.java:201-215 | the country always becomes the new one; zone detection for the new country and the cached signal runs iff the country changed |
| `NitzStateMachine.CountryDetectedTwice` | src/java/com/android/internal/telephony/nitz/NewNitzStateMachineImpl.java:208-214 | the second of two equal country detections changes nothing and calls nothing |
| `NitzStateMachine.CountryUnavailableEffect` | src/java/com/android/internal/telephony/nitz/NewNitzStateMachineImpl.java:217-228 | the country becomes null, the signal is kept, and zone detection for no country and the cached signal always runs |
| `NitzStateMachine.NitzRejected` | src/java/com/android/internal/telephony/nitz/NewNitzStateMachineImpl.java:237-241 | a signal the filter rejects changes no state and makes no calls |
| `NitzStateMachine.NitzAccepted` | src/java/com/android/internal/telephony/nitz/NewNitzStateMachineImpl.java:243-254 | an accepted signal becomes the cached one and the country is kept; the calls are the zone detection for (country, signal) followed by time detection; the final call is the time suggestion (reference time, payload UTC time) |
| `NitzStateMachine.NitzAcceptedSuggesterFails` | src/java/com/android/internal/telephony/nitz/NewNitzStateMachineImpl.java:281-337 | when the suggester throws for an accepted signal, the new state stays and only the time suggestion is made |
| `NitzStateMachine.AirplaneModeClearsState` | src/java/com/android/internal/telephony/nitz/NewNitzStateMachineImpl.java:256-276 | for both values of `on`, the country and the signal are cleared; with no cached signal nothing is called, otherwise only zone detection for (no country, no signal) runs |
| `NitzStateMachine.AirplaneModeKeepsCountryZone` | src/java/com/android/internal/telephony/nitz/NewNitzStateMachineImpl.java:174-181 | after country detected, airplane mode on, airplane mode off, the state is the initial one, yet the only call ever made is the zone detection for the country; the helper's last suggested zone stays the suggester's answer for that country, because clearing the country alone reruns nothing |
| `NitzStateMachine.AirplaneModeToggleSecondIsSilent` | tests/telephonytests/src/com/android/internal/telephony/nitz/NewNitzStateMachineImplTest.java:305-329 | a second airplane-mode toggle straight after a first one changes nothing and calls nothing |
| `NitzStateMachine.ZoneDetectionOffersOneZone` | src/java/com/android/internal/telephony/nitz/NewNitzStateMachineImpl.java:281-304 | one round of zone detection offers at most one call, and it is a zone suggestion |
| `NitzStateMachine.StepTimes` | src/java/com/android/internal/telephony/nitz/NewNitzStateMachineImpl.java:309-337 | an event offers a time suggestion iff it is an accepted NITZ signal with a payload; that suggestion is (reference time, payload UTC time) |
| `NitzStateMachine.ZoneBeforeTime` | src/java/com/android/internal/telephony/nitz/NewNitzStateMachineImpl.java:248-253 | every event makes at most two calls, and a zone suggestion always comes before a time suggestion |
| `NitzStateMachine.CountryIndependentOfSignal` | src/java/com/android/internal/telephony/nitz/NewNitzStateMachineImpl.java:201-228 | the country after any event depends only on the country before it, not on the cached signal |
| `NitzStateMachine.NetworkUnavailablePreservesCountry` | src/java/com/android/internal/telephony/nitz/NewNitzStateMachineImpl.java:168-199 | whatever events came before, a final network-unavailable event leaves the country as it was |
| `NitzStateMachine.CachedSignalWasAccepted` | src/java/com/android/internal/telephony/nitz/NewNitzStateMachineImpl.java:237-244 | starting from a new machine, any cached signal arrived in a NITZ event and was accepted by the filter, given the signal cached at that moment |
| `NitzStateMachine.TimeSuggestionsComeFromSignals` | src/java/com/android/internal/telephony/nitz/NewNitzStateMachineImpl.java:309-329 | every time suggestion made over any event sequence carries the reference time and UTC time of a NITZ signal among those events |
| `NitzStateMachine.EndToEnd` | src/java/com/android/internal/telephony/nitz/NewTimeServiceHelperImpl.java:64-98 | feeding the machine's calls to a new helper gives the zone detector the machine's zone suggestions without consecutive duplicates, and gives the time detector every time suggestion |
| `NitzStateMachine.NewNitzStateMachineImpl.constructor` | src/java/com/android/internal/telephony/nitz/NewNitzStateMachineImpl.java:151-160 | a new machine has no signal and no country, and keeps the injected filter, suggester and helper |
| `NitzStateMachine.NewNitzStateMachineImpl.GetCachedNitzData` | src/java/com/android/internal/telephony/nitz/NewNitzStateMachineImpl.java:352-355 | returns the payload of the cached signal, and null when no signal is cached |
| `NitzStateMachine.NewNitzStateMachineImpl.DoTimeZoneDetection` | src/java/com/android/internal/telephony/nitz/NewNitzStateMachineImpl.java:281-304 | offers the suggester's suggestion to the helper; when the suggester throws, offers nothing |
| `NitzStateMachine.NewNitzStateMachineImpl.DoTimeDetection` | src/java/com/android/internal/telephony/nitz/NewNitzStateMachineImpl.java:309-337 | offers nothing without a signal or with a null payload; otherwise offers the time suggestion built from the signal |
| `NitzStateMachine.NewNitzStateMachineImpl.ClearNetworkStateAndRerunDetection` | src/java/com/android/internal/telephony/nitz/NewNitzStateMachineImpl.java:174-199 | returns early when no signal is cached; otherwise clears the signal and re-runs detection without it |
| `NitzStateMachine.NewNitzStateMachineImpl.HandleNetworkAvailable` | src/java/com/android/internal/telephony/nitz/NewNitzStateMachineImpl.java:162-166 | the state is unchanged (the method may modify nothing) |
| `NitzStateMachine.NewNitzStateMachineImpl.HandleNetworkUnavailable` | src/java/com/android/internal/telephony/nitz/NewNitzStateMachineImpl.java:168-172 | follows `Handle`; the country is kept and the signal becomes null; with no signal before, no calls are made |
| `NitzStateMachine.NewNitzStateMachineImpl.HandleCountryDetected` | src/java/com/android/internal/telephony/nitz/NewNitzStateMachineImpl.java:201-215 | follows `Handle`; the country is set and the signal is kept; a repeated country makes no calls |
| `NitzStateMachine.NewNitzStateMachineImpl.HandleCountryUnavailable` | src/java/com/android/internal/telephony/nitz/NewNitzStateMachineImpl.java:217-228 | follows `Handle`; the country becomes null and the signal is kept |
| `NitzStateMachine.NewNitzStateMachineImpl.HandleNitzReceived` | src/java/com/android/internal/telephony/nitz/NewNitzStateMachineImpl.java:230-254 | follows `Handle`; the country is kept; a rejected signal changes nothing and calls nothing; an accepted one becomes the cached signal |
| `NitzStateMachine.NewNitzStateMachineImpl.HandleAirplaneModeChanged` | src/java/com/android/internal/telephony/nitz/NewNitzStateMachineImpl.java:256-276 | follows `Handle`; the state becomes (no signal, no country); with no signal before, no calls are made |

## Left out

- The real NITZ input filter (`NitzSignalInputFilterPredicateFactory`) and the real
  suggester (`TimeZoneSuggesterImpl` with `TimeZoneLookupHelper`) are not part of
  this model. Both are arbitrary deterministic functions supplied to the constructor.
  So no rate-limiting, duplicate-rejection or zone-lookup rule is encoded.
  Filter determinism holds because the filter is a mathematical function.
- `createInstance` and the helper's constructor only wire up the Phone, Context
  and system services. Only the phone id is kept.
- Logging (`Rlog`), `dumpState`, `dumpLogs` and the two 30-entry `LocalLog`
  buffers are diagnostics and are left out.
- The debug-info strings added to suggestions are left out. They are excluded
  from equality in the source too.
- The time detector, the time zone detector and `TelephonyMetrics` are foreign
  services. They are represented only by the ghost trace `sent`. An exception
  thrown by one of them is not modelled. Only two failures are modelled:
  - the suggester throwing;
  - the null payload in `doTimeDetection`.
- Null arguments to the handlers (`Objects.requireNonNull` on `@NonNull`
  parameters) cannot occur, because Dafny's `string` and `Signal` have no null.
  The exception the source would throw to its caller is therefore not modelled.
- The source's `long` values are unbounded `int`s. The core does no arithmetic
  on them, so no wrap-around can arise.
- Single-threaded, serialized event delivery is assumed, as in the source.
  Concurrency is not modelled.
- The time suggestion with no UTC time: the helper forwards it to the time
  detector, as `suggestDeviceTime` does unconditionally. The state machine never
  builds such a suggestion.
- `VendorSubscriptionInfoUpdater` and the SIM records test exercise classes whose
  source is not part of this model, so both are left out.
