# Neurovex core logic in Dafny

Neurovex is a brain-computer-interface demo. A browser front end and a Python back end share the work:

- **Browser pipeline.** EEG samples flow through a 64-sample aggregator (`js/signal-analyzer.js`) and a threshold classifier (`js/brain-states.js`), then reach a safety gate (`js/safety.js`). The gate emits `{safe, reason}` verdicts.
- **Global store.** A key/value store notifies its listeners after every assignment (`stitch/js/stitch-state.js`). Two writers feed it:
  - the back-end stream handler, which maps each payload to one batch update (`js/stream-manager.js`);
  - the headband driver (`js/hardware-interface.js`), which frames serial lines, keeps a bounded sample buffer, tracks connection and real-data flags, and runs a fake-data timer until real data arrives.
- **Back end.** It has a relative-power classifier (`backend/eeg/ai_engine.py`) and a safety manager with an emergency latch (`backend/safety/manager.py`). It drives two actuators, a smart bulb and an RC car (`backend/hardware/*.py`), and keeps a WebSocket registry (`backend/core/websocket.py`). The standalone simulator has its own ratio classifier (`hardware_simulator.py`).

Each core file becomes one Dafny module, in the form that file takes:

- **Pure rule chains become functions.** These are `BrainStates`, `AIEngine`, `HardwareSimulator`, the payload mapping in `StreamManager`, and the line splitting in `SerialFraming`.
- **Objects whose fields the code updates become classes.** Each method states the fields it changes and their new values, including the store's listener calls:
  - `SignalAnalyzer.Analyzer`, `Safety.SafetyGate`, `BackendSafety.SafetyManager`, `Bulb.SmartBulb` and `Car.RCCar`;
  - `Connections.ConnectionManager`, `Stitch.StitchState`, `SerialFraming.SerialReader` and `HardwareInterface.HardwareDriver`.
- **Loops the code runs are methods with loop invariants.** `AverageBands`, `Smooth`, `NotifyListeners` and `UpdateBatch` are proved equal to specification functions. `ForwardLines` is proved to leave the sample history, the store and the listener log exactly as handing the parsed non-blank lines to `processEEGData` one by one would (`Kept`, `StoreAfter`, `NoticesAfter`).

Shared helper modules:

- `Numeric`: clamping, Python `int()`, and `Math.round` as floor(x + 0.5).
- `Fifo`: the push-then-shift window used for both the 64-sample window and the 1000-entry buffer.
- `JsValue`: JavaScript values, truthiness, `||`, property reads and `Number()`.
- `Wrappers`: `Option`.

All arithmetic is exact over `real`. Event dispatch is the returned value of a handler.

Dispatch order is modelled where it is fixed:

- The store's listener calls are appended to a `log`. Each entry records the listener, a snapshot of the store at that call, the key and the value.
- The browser pipeline's two gate verdicts are kept in separate fields of `Pipeline.TickOutput`. Their relative order depends on the order in which the scripts register their listeners.

Behaviour the model keeps as the code has it:

- The aggregator in `js/signal-analyzer.js` does not clamp the quality it averages.
- It does not reject a sample without some band: that band contributes 0 to its sum.
- The simulator's classifier raises `ZeroDivisionError` when a rule divides by a zero alpha or beta. The model states this as the `DivisionByZero` outcome rather than as a precondition. `HardwareSimulator.PositiveBandsDetermined` proves that positive alpha and beta never reach it.

## Model

| member | source | states |
|---|---|---|
| Numeric.Clamp | js/brain-states.js:12 | the result lies in [lo, hi], equals x inside the range and the nearer bound outside it |
| Numeric.ClampInt | backend/hardware/bulb.py:9 | `max(0, min(100, level))` on integers: within bounds, x itself when already inside |
| Numeric.Trunc | backend/eeg/ai_engine.py:41 | Python `int()` truncates toward zero: for x >= 0 the result is the floor, for x < 0 the ceiling |
| Numeric.JsRound | js/stream-manager.js:87 | `Math.round` lands within half a unit of its argument (halves go up) |
| Fifo.Push | js/signal-analyzer.js:8-9 | push then one shift past capacity: grows by at most one, evicts only the oldest, newest entry last, length min(n+1, cap) |
| Fifo.Recent | js/signal-analyzer.js:15 | `slice(-n)`: the last min(len, n) entries, in order |
| Fifo.PushKeepsRecent | js/signal-analyzer.js:3-9 | pushing onto the window of a history's last cap entries gives the window of the extended history, so the window is always the newest min(count, cap) samples |
| JsValue.Or | js/stream-manager.js:80 | the logical-or default idiom yields a when a is truthy and b otherwise |
| JsValue.Prop | js/stream-manager.js:80 | a property read on a non-nullish value gives the object's field or undefined |
| JsValue.OptProp | js/stream-manager.js:102 | `v?.name` is undefined on null/undefined, else the plain property read |
| JsValue.ToNumber | js/stream-manager.js:87 | `Number()`: numbers kept; null, a whitespace-only string and `[]` give 0; undefined, objects and arrays of two or more elements give NaN |
| JsValue.SingletonNumber | js/stream-manager.js:87 | a one-element array converts as its element does for numbers, strings, arrays and null; `[undefined]` gives 0 and `[true]` NaN |
| SignalAnalyzer.Magnitude | js/signal-analyzer.js:12 | a sample adds the absolute value of a band it carries, 0 for one it lacks; never negative |
| SignalAnalyzer.SumAbs | js/signal-analyzer.js:12 | the accumulated band power over a window is non-negative |
| SignalAnalyzer.MeanBands | js/signal-analyzer.js:11-13 | each of exactly the five output bands is the mean absolute power over the whole window, and is non-negative |
| SignalAnalyzer.Qualities | js/signal-analyzer.js:15 | the quality map keeps length and order of the samples |
| SignalAnalyzer.Summarize | js/signal-analyzer.js:11-16 | the `analyzer:data` payload: band means over the window, quality the mean of only the newest min(len, 8) qualities |
| SignalAnalyzer.AverageBands | js/signal-analyzer.js:11-13 | the `forEach` accumulation and the division loop compute exactly the per-band means |
| SignalAnalyzer.Smooth | js/signal-analyzer.js:4 | `smooth` (reduce, then divide by length) is the arithmetic mean of a non-empty list |
| SignalAnalyzer.Analyzer.constructor | js/signal-analyzer.js:3 | the window starts empty |
| SignalAnalyzer.Analyzer.Ingest | js/signal-analyzer.js:6-16 | after n samples the window is the newest min(n, 64) of them with the new one last, and the dispatched aggregate summarizes that non-empty window |
| SignalAnalyzer.MeanAbsConstant | js/signal-analyzer.js:11-13 | a window whose samples all have magnitude v in a band averages to v in that band |
| SignalAnalyzer.QualityWithinBounds | js/signal-analyzer.js:15 | the smoothed quality stays within any range that contains every quality in the window |
| SignalAnalyzer.RecentQualitiesWithin | js/signal-analyzer.js:15 | the newest eight qualities lie in any range that contains all of the window's qualities |
| SignalAnalyzer.MeanWithin | js/signal-analyzer.js:4 | the mean `smooth` computes lies in any range that contains every element |
| SignalAnalyzer.QualityConstant | js/signal-analyzer.js:15 | a window of identical qualities q smooths to q |
| BrainStates.Classify | js/brain-states.js:4-14 | confidence always lies in [0, 1] and `safe` holds exactly when confidence exceeds 0.25 |
| BrainStates.ClassifyRules | js/brain-states.js:7-12 | first match wins: Focus exactly when its rule holds; Fatigue exactly when both powers are below 0.06; Relax otherwise. Each reason holds exactly when its rule fires, and "" when none does. Confidence is the base (0.8, 0.75, 0.85 or 0.5) times quality, clamped |
| BrainStates.ClassifyIgnoresOtherBands | js/brain-states.js:6-12 | two aggregates agreeing on alpha, beta and quality classify identically; gamma, theta and delta never matter |
| BrainStates.NoQualityIsUnsafe | js/brain-states.js:12-13 | quality 0 or below gives confidence 0 and an unsafe result |
| BrainStates.LowQualityIsUnsafe | js/brain-states.js:7-13 | a quality of at most 0.29 can never yield a safe classification |
| Safety.SafetyGate.constructor | js/safety.js:3 | headband connected, no emergency, threshold 0.45 |
| Safety.SafetyGate.Evaluate | js/safety.js:7-12 | safe exactly when connected and not emergency-stopped, with reason "ok" exactly when safe, else "disabled" |
| Safety.SafetyGate.OnAnalyzerData | js/safety.js:14-19 | quality below the threshold gives poor_signal without consulting the flags; otherwise the evaluate verdict. Safe exactly when quality, connection and emergency flag all allow it |
| Safety.SafetyGate.OnBrainState | js/safety.js:21-25 | a verdict is emitted exactly for a Fatigue classification, and it is {false, fatigue_detected} |
| Safety.SafetyGate.ToggleEmergency | js/safety.js:27 | sets the emergency flag, changes no other field, and returns the evaluate verdict of the new state |
| Safety.EmergencyRoundTrip | js/safety.js:27 | on a connected gate, toggling on reports "disabled" and toggling off again ends with {true, "ok"} |
| Pipeline.Tick | js/signal-analyzer.js:6-16 | one sample through the window, the classifier and both gate handlers; the gate's state is never written |
| Pipeline.SteadyFocusWindow | js/brain-states.js:8-13 | a window of samples with beta 0.25, alpha 0.05 and quality 0.9 classifies as Focus with confidence 0.72, is safe, passes the default gate with "ok", and emits no fatigue verdict |
| BackendSafety.SafetyManager.constructor | backend/safety/manager.py:4-7 | the emergency flag starts clear |
| BackendSafety.SafetyManager.ValidateSignal | backend/safety/manager.py:9-20 | a signal is accepted exactly when the latch is clear and quality is at least 80 |
| BackendSafety.SafetyManager.CheckFatigueLockout | backend/safety/manager.py:22-28 | the lockout is active exactly when fatigue is strictly above 80 |
| BackendSafety.SafetyManager.TriggerEmergencyStop | backend/safety/manager.py:30-33 | the latch is set, whatever it was |
| BackendSafety.SafetyManager.ResetEmergencyStop | backend/safety/manager.py:35-37 | the latch is cleared, whatever it was |
| BackendSafety.SafetyManager.IsSafeToActuate | backend/safety/manager.py:39-47 | refused whenever the latch is set. Otherwise refused exactly for "accelerate" with stress (0 when absent) above 70 |
| BackendSafety.EmergencyLatch | backend/safety/manager.py:30-47 | a (repeated) trigger refuses every signal and command; a (repeated) reset restores exactly the checks that do not depend on the latch |
| AIEngine.Analyze | backend/eeg/ai_engine.py:16-73 | confidence lies in [0, 1]. The state is "unknown" exactly when total power is 0, and then confidence is 0 with the no-signal reason. The state is always one of the six names |
| AIEngine.Decide | backend/eeg/ai_engine.py:30-73 | with non-zero total, confidence lies in [0.5, 1] and the state is one of the five rule outcomes |
| AIEngine.AnalyzeRules | backend/eeg/ai_engine.py:36-73 | each state holds exactly when its rule fires and all earlier rules do not. Confidence is min(2 rel_beta, 1) for focus, min(2 rel_alpha, 1) for relax, min(2.5 rel_theta, 1) for fatigue, 0.85 for stress and 0.5 for neutral |
| AIEngine.ScaleGet | backend/eeg/ai_engine.py:16-20 | `get(key, 0)` of a scaled dict is the scaled value (0 for a missing key) |
| AIEngine.ScaleTotal | backend/eeg/ai_engine.py:22 | the total of a scaled dict is the scaled total |
| AIEngine.ScaleKeepsShare | backend/eeg/ai_engine.py:31-33 | scaling all values by c > 0 keeps every relative power |
| AIEngine.ScaleInvariant | backend/eeg/ai_engine.py:31-33 | only relative powers matter: scaling every value by a positive factor leaves state, confidence and reason unchanged |
| HardwareSimulator.DetermineBrainState | hardware_simulator.py:93-113 | confidence never exceeds 95. A division failure happens only with a zero alpha or beta. The state is focus, fatigue, relaxed or neutral |
| HardwareSimulator.PositiveBandsDetermined | hardware_simulator.py:99-111 | with positive alpha and beta no division fails and confidence lies in [50, 95]. Each state holds exactly when its rule is the first to fire |
| HardwareSimulator.ZeroAlphaFails | hardware_simulator.py:100-102 | zero alpha with beta above zero and theta reaches the focus division and fails |
| Bulb.ColorFor | backend/hardware/bulb.py:15-26 | focus selects cool_white, relax warm_amber, stress red; any other state keeps the current colour |
| Bulb.SmartBulb.constructor | backend/hardware/bulb.py:2-5 | brightness 0, colour "warm", state "off" |
| Bulb.SmartBulb.SetBrightness | backend/hardware/bulb.py:7-13 | brightness becomes the level clamped to 0..100, the bulb is on exactly when lit, and the colour is unchanged |
| Bulb.SmartBulb.SetColorFromState | backend/hardware/bulb.py:15-26 | the colour follows the colour table; brightness and on/off state are unchanged |
| Bulb.SmartBulb.GetStatus | backend/hardware/bulb.py:28-34 | the status reports the device name and exactly the current fields |
| Bulb.StatusConsistent | backend/hardware/bulb.py:7-13 | every status of a bulb reports a brightness in 0..100 and "on" exactly when the brightness is positive |
| Car.RCCar.constructor | backend/hardware/car.py:2-4 | speed 0, direction "stop" |
| Car.RCCar.Drive | backend/hardware/car.py:6-17 | focus below 30 stops the car; otherwise speed is the focus level, unclamped, and direction the command |
| Car.RCCar.Stop | backend/hardware/car.py:19-21 | speed 0 and direction "stop" |
| Car.RCCar.GetStatus | backend/hardware/car.py:23-28 | the status reports the device name and the current speed and direction |
| Car.StatusSpeedGated | backend/hardware/car.py:12-21 | a reported speed is 0 (and then direction "stop") or at least 30 |
| Car.StopTwice | backend/hardware/car.py:19-21 | stopping is idempotent: two stops report the same stopped status |
| Connections.IndexOf | backend/core/websocket.py:18 | the first position holding the socket |
| Connections.RemoveFirst | backend/core/websocket.py:18 | `list.remove` drops exactly the first occurrence and shortens the list by one |
| Connections.AfterConnect | backend/core/websocket.py:11-13 | the socket is appended to the user's list, created empty when absent; the user set gains only that user |
| Connections.ConnectFrame | backend/core/websocket.py:9-13 | `connect` leaves every other user's list as it was and never leaves a user with an empty list |
| Connections.AfterDisconnect | backend/core/websocket.py:16-20 | an unknown user is a no-op. Otherwise the first occurrence is removed and the user is dropped once the list is empty. No user is added |
| Connections.DisconnectFrame | backend/core/websocket.py:15-20 | `disconnect` leaves every other user's list as it was and never leaves a user with an empty list |
| Connections.ConnectionManager.constructor | backend/core/websocket.py:5-7 | the registry starts empty |
| Connections.ConnectionManager.Connect | backend/core/websocket.py:9-13 | the registry becomes `AfterConnect` of the old one and keeps the no-empty-list invariant |
| Connections.ConnectionManager.Disconnect | backend/core/websocket.py:15-20 | the registry becomes `AfterDisconnect` of the old one and keeps the no-empty-list invariant |
| Connections.RemoveAppended | backend/core/websocket.py:13-18 | removing a socket appended to a list that lacked it gives the list back |
| Connections.ConnectThenDisconnect | backend/core/websocket.py:11-20 | connecting a socket the user did not hold and disconnecting it restores the registry exactly |
| Stitch.InitialData | stitch/js/stitch-state.js:8-29 | the initial store has exactly the nine documented keys: disconnected, not real hardware, demo mode, no user or device |
| Stitch.Notices | stitch/js/stitch-state.js:68-70 | one call per listener, in subscription order, each with the same store, key and value |
| Stitch.StitchState.constructor | stitch/js/stitch-state.js:6-31 | initial data, no listeners, no calls made |
| Stitch.StitchState.Get | stitch/js/stitch-state.js:44-46 | an absent or empty key returns the whole store; any other key its entry, undefined when missing |
| Stitch.StitchState.Subscribe | stitch/js/stitch-state.js:64-66 | the callback is appended to the listeners |
| Stitch.StitchState.NotifyListeners | stitch/js/stitch-state.js:68-70 | the loop calls every listener once, in order, with the live store, key and value |
| Stitch.StitchState.Update | stitch/js/stitch-state.js:58-60 | a single update sets the key, leaves all others, then notifies every listener with the updated store |
| Stitch.StitchState.UpdateBatch | stitch/js/stitch-state.js:50-56 | a batch assigns keys one at a time in key order and notifies after each assignment |
| Stitch.ApplyFrame | stitch/js/stitch-state.js:49-61 | a key is present after a batch exactly when it was before or is named. A key the batch does not name keeps its value |
| Stitch.ApplyLastWins | stitch/js/stitch-state.js:52-54 | a key named once ends with the value the batch gives it |
| Stitch.BatchNoticesLength | stitch/js/stitch-state.js:52-55 | a batch makes one listener call per key per listener |
| Stitch.BatchNoticeAt | stitch/js/stitch-state.js:50-56 | the j-th call for the i-th key comes from the j-th listener and sees the store with keys 0..i already assigned |
| StreamManager.Percent | js/stream-manager.js:87-89 | a mismatched state gives the fallback. A matching state gives `Math.round(confidence * 100)`, a whole number within 0.5 of confidence times 100, or NaN when confidence is not numeric |
| StreamManager.BandsObject | js/stream-manager.js:91-97 | exactly the five band keys, each the payload's value or 0 |
| StreamManager.HandleData | js/stream-manager.js:64-111 | a null or undefined payload throws, even with real hardware connected. Otherwise connected real hardware means no update. Otherwise exactly the payload batch is written |
| StreamManager.OnMessage | js/stream-manager.js:34-41 | the store changes only on an update outcome, by exactly that batch, and every listener is called after each of its assignments; a throw or skip leaves store and listener log untouched |
| StreamManager.PayloadKeysDistinct | js/stream-manager.js:85-105 | the seven keys of the update object are distinct |
| StreamManager.UpdateEffect | js/stream-manager.js:85-105 | after the update: isRealHardware is false; deviceStatus is "connected" exactly when `status.connected` is truthy; missing signal, hardware and channel count become `[]`, `{}` and 0; bands and brain states hold their mapped values |
| StreamManager.UpdateKeepsOtherKeys | js/stream-manager.js:85-105 | store keys the update object does not name keep their values |
| StreamManager.BandDefaults | js/stream-manager.js:91-97 | a missing or falsy band is stored as 0, a truthy one as is |
| StreamManager.FocusPercent | js/stream-manager.js:86-90 | an analysis object (whatever other fields, such as `reason`, it carries) with state "focus" and confidence in [0, 1] gives a whole focus percentage in [0, 100] and keeps the stress and fatigue defaults 20 and 10 |
| SerialFraming.Split | js/hardware-interface.js:349 | `split('\n')` gives at least one piece, none holding a newline, and joining them with '\n' gives the text back |
| SerialFraming.SplitJoin | js/hardware-interface.js:349 | splitting newline-free pieces joined with '\n' gives the pieces back |
| SerialFraming.NonBlank | js/hardware-interface.js:352-356 | no forwarded line is blank, there are no more of them than input lines, and input without blank lines is forwarded whole |
| SerialFraming.NonBlankMembers | js/hardware-interface.js:352-356 | a line is forwarded exactly when it is an input line whose `trim()` is non-empty |
| SerialFraming.SerialReader.constructor | js/hardware-interface.js:341 | the carry-over buffer starts empty |
| SerialFraming.SerialReader.Frame | js/hardware-interface.js:348-350 | the kept buffer holds no newline, the returned lines hold none, and lines plus buffer rejoined with '\n' equal the old buffer followed by the chunk |
| SerialFraming.NoNewlineNoLines | js/hardware-interface.js:348-350 | when buffer plus chunk has no newline, no line is emitted |
| HardwareInterface.EegData | js/hardware-interface.js:415-421 | a string goes through the parser; null, arrays and objects are used as they are; other values leave `eegData` undefined |
| HardwareInterface.Stamp | js/hardware-interface.js:425-427 | an object without a truthy timestamp gets the clock value; one with a truthy timestamp is unchanged |
| HardwareInterface.StampKeepsFields | js/hardware-interface.js:425-427 | stamping adds at most `timestamp` and leaves every other field |
| HardwareInterface.ProcessCases | js/hardware-interface.js:423-447 | falsy data is ignored, an object or array is stamped and buffered, and any other truthy value throws (caught by the method). A buffered object has a truthy timestamp for a non-zero clock |
| HardwareInterface.SampleBatch | js/hardware-interface.js:438-446 | the update object sets deviceStatus "connected", copies the isRealHardware flag, and defaults a missing channel list to `[]` |
| HardwareInterface.HardwareDriver.constructor | js/hardware-interface.js:7-16 | all flags false, no device info, empty buffer, no fake-data timer |
| HardwareInterface.HardwareDriver.StartFakeDataGeneration | js/hardware-interface.js:617-627 | a no-op while a timer runs; otherwise the new handle is recorded. Afterwards exactly one timer is running, however often it is called |
| HardwareInterface.HardwareDriver.StopFakeDataGeneration | js/hardware-interface.js:632-638 | the running timer, if any, is cleared and the handle nulled; no timer is left running |
| HardwareInterface.HardwareDriver.ProcessEegData | js/hardware-interface.js:404-451 | truthy input with a source other than "fake" sets hasRealData and stops fake data. A buffered sample is pushed (at most 1000 kept, oldest evicted) and written to the store with every listener called after each key. Otherwise buffer, store and listener log are untouched. The connection flags never change |
| HardwareInterface.HardwareDriver.Accept | js/hardware-interface.js:423-447 | once `eegData` is known: an object or array is stamped, pushed onto the bounded buffer and written to the store, with the listener calls of that batch update; anything else leaves buffer, store and listener log untouched |
| HardwareInterface.HardwareDriver.Publish | js/hardware-interface.js:438-445 | `window.StitchState.update(batch)`: the store becomes the batch applied key by key, and the log gains each listener's call after each key |
| HardwareInterface.HardwareDriver.NoteSource | js/hardware-interface.js:409-413 | the real-data check: sets hasRealData and stops the fake timer exactly for real input |
| HardwareInterface.HardwareDriver.BufferSample | js/hardware-interface.js:430-435 | push then shift past 1000: the buffer stays the newest at most 1000 samples received |
| HardwareInterface.HardwareDriver.SerialRead | js/hardware-interface.js:343-356 | one read: the returned lines are newline-free and rejoin with the kept buffer to the old buffer plus the chunk. Sample history, store and listener log then change exactly as the parsed non-blank lines handed on in order dictate. Forwarding any line marks real data and stops the fake timer; the connection flags and device info are unchanged |
| HardwareInterface.HardwareDriver.ForwardLines | js/hardware-interface.js:352-356 | given the parser's value for each line, the sample history grows by `Kept` of the non-blank lines' values (`Forwarded`), in order. The store and the listener log become `StoreAfter` and `NoticesAfter` of them. Any non-blank line marks real data and stops the fake timer; without one, those two are unchanged |
| HardwareInterface.HardwareDriver.ForwardLine | js/hardware-interface.js:353-354 | a blank line changes nothing. A non-blank line counts as real data and stops the fake timer, and its parsed value's buffering, store update and listener calls take place |
| HardwareInterface.ParseAll | js/hardware-interface.js:352-354 | the parser applied to each line, in order |
| HardwareInterface.LineValue | js/hardware-interface.js:353 | a line hands on nothing exactly when its `trim()` is empty |
| HardwareInterface.ForwardedParse | js/hardware-interface.js:352-354 | with the parser applied to every line, the loop hands on exactly the parser's values of the non-blank lines, in order |
| HardwareInterface.KeptAppend | js/hardware-interface.js:352-356 | handing on two runs of values buffers what the first buffers, then what the second does |
| HardwareInterface.StoreAfterAppend | js/hardware-interface.js:352-356 | handing on two runs of values leaves the store as the second run does from where the first left it |
| HardwareInterface.NoticesAfterAppend | js/hardware-interface.js:352-356 | the listener calls of two runs are those of the first, then those of the second on the store the first left |
| HardwareInterface.KeptObjects | js/hardware-interface.js:423-434 | when every value handed on is an object, each one is buffered, stamped, in order |
| HardwareInterface.HardwareDriver.FakeTick | js/hardware-interface.js:621-626 | while real hardware is attached and no real data arrived, the stamped fake sample is buffered and published (with isRealHardware true) and its listener calls made; otherwise nothing changes. A fake sample never sets hasRealData nor stops the timer, and the connection flags and device info are unchanged |
| HardwareInterface.HardwareDriver.Disconnect | js/hardware-interface.js:521-544 | clears the three flags and device info, stops fake data, and writes the disconnect update with its listener calls. The real-hardware check is then false. The sample buffer is not cleared |
| HardwareInterface.HardwareDriver.OnDeviceOpened | js/hardware-interface.js:222-242 | a device that opened sets connected and real-hardware, clears hasRealData, records the device info, writes the store update with its listener calls and ensures a fake timer runs |
| HardwareInterface.BufferBound | js/hardware-interface.js:430-435 | the kept window holds at most 1000 samples, the newest 1000 once that many arrived |
| HardwareInterface.NonBlankLineIsReal | js/hardware-interface.js:409 | every non-blank serial line counts as real data |
| HardwareInterface.FakeSourceNotReal | js/hardware-interface.js:409-413 | a sample with source "fake" never counts as real; any other truthy sample does |

## Left out

- DOM event dispatch, WebSocket connect/reconnect, `onopen`/`onclose` store updates, Bluetooth/Serial/HID/WebSocket device detection and `send_json`/broadcast: network and browser I/O. Handlers return the events they would dispatch.
- `StitchState.init` (localStorage) and `simulateHardwareCycle` (clock and randomness) are not part of this model.
- `generateFakeData`, `simulateRealData`, `parseSerialData` and `TextDecoder`: a fake sample, the parser's result and the decoded text are parameters. `Date.now() / 1000` is the `now` parameter and `setInterval` handles are the `handle` parameter.
- The `connect*` methods other than their common tail (`OnDeviceOpened`), `detectionInterval` and its clearing in `disconnect`: device discovery is I/O.
- Console logging and the Python `print` calls; `settings` and `last_heartbeat` in the safety manager, which are set and never read.
- `window.StitchState` is taken to be present; the `window.HardwareInterface` check in `handleData` is the `hasRealHardware` parameter.
- Aliasing: the driver stamps the caller's object in place, and the store keeps live references to values. Values are immutable in the model.
- Reentrant listeners (a listener that itself updates the store) are not modelled. Listeners are opaque ids, and their calls are recorded.
- Throwing listeners: a listener that throws aborts `notifyListeners`'s `forEach` and with it the rest of a batch update (the remaining keys stay unassigned). Every modelled listener returns normally.
- Sample band maps cannot carry keys other than the five bands. The source's `for..in` would then produce NaN-valued extra keys.
- AIEngine.Analyze: `round(confidence, 2)` is omitted; confidence is the exact value before rounding, and the reason text is the datatype with the truncated percentage.
- StreamManager.Percent: a confidence that is a numeric string (or an array holding one number's string or a number) is coerced as `JsValue.ToNumber` says; `Math.round` returning -0 is not distinguished from 0.
- JsValue.ToNumber: a string holding a numeric literal (`"0.5"`, `" 1e2 "`, `"0x10"`) is treated as NaN, since parsing numeric literals from text is not modelled; whitespace-only strings do give 0. The same holds for a one-element array holding such a string.
- HardwareInterface.Stamp: an array `eegData` is buffered without the `timestamp` property the source attaches to it, since model arrays carry no properties.
- Stitch.StitchState.Get: keys are strings; a falsy non-string key (0, false, null) is not modelled.
- HardwareInterface.HardwareDriver.IsRealHardwareConnected carries no contract of its own. Its conjunction of the three flags is used by the `Disconnect`, `OnDeviceOpened` and `FakeTick` rows.
- Integer widths and IEEE floating point: arithmetic is exact over `real` and `int`, and comparisons are exact.
