# ISS pass notifier: decision logic

This project models the decision logic of `iss_notification.py`. The program polls the
OpenNotify service for upcoming International Space Station passes over an observer. It
sorts the time until the next rise into a proximity state. It can also send that state
over a serial line to a microcontroller that drives LEDs.

The model covers four parts:

- `IssStates` holds the seven states and their one-byte serial codes (`Leds.State`). It also
  holds the threshold table `iss_states` and the if/elif chain that classifies a
  time-to-rise `d` into a band `(state, poll interval)`.
- `Leds` holds the three-byte command `$ code !` that `sendState` writes and its inverse. It
  also has a `Leds` class whose `configured` flag gates the write. The bytes written are kept
  as a ghost log of sent states.
- `Arguments` holds the ordered bounds checks `main` runs on latitude, longitude, altitude and
  pass count, each with its own exit code.
- `PollLoop` holds one iteration of the `while True` loop as a pure transition `Next` over
  the four loop variables (`last_state`, `curr_state`, `update_freq`, `last_pass`), and a
  finite run `Run` of it. A `PollLoop` class holds those variables as fields. Its `Step`
  method is proved to follow `Next`, and its `Poll` method runs `Step` over a sequence of
  observations and is proved to follow `Run`. The class invariant keeps a ghost log of
  emitted states in which no state repeats back to back and TEST never appears.

The clock (`time.time()`), the HTTP fetch and the outcome of each serial write are inputs, one `Observation` per iteration.
Each iteration returns its sleep (`Immediate` or `Sleep(seconds)`) instead of sleeping.

Where the code differs from what its table and messages suggest, the model follows the code:

- At `d == 0` no branch of the chain fires, because the last test is `d > 0`. The state and
  interval keep their previous values, yet `last_pass` is still overwritten with the fetched
  pass. So a pass rising this very second is not classified: the state stays what the
  previous fetch made it (IMMINENT when that fetch was 1 to 60 s ahead, RECEDING when it is
  the first fetch).
- A response whose `message` is not `"success"` gives an empty dict. The loop then goes
  straight to the next fetch with no sleep, not after a 10-second wait.
- The altitude check accepts 0, although its error text says the range starts at 1.
- A latitude or longitude of exactly -999 given on the command line counts as missing
  (exit code 3), because -999 is also the default.

## Model

| member | source | states |
|---|---|---|
| IssStates.IssStateTable | iss_notification.py:40-46 | The table has a row for exactly the five classifiable states, none for OVERHEAD or TEST |
| IssStates.Code | iss_notification.py:57-64 | Each state has its fixed code 0x41..0x46, and TEST alone has 0x5A |
| IssStates.FromCode | iss_notification.py:57-64 | Looking a byte up gives the state with that code, or nothing when no state has it |
| IssStates.CodeInjective | iss_notification.py:57-64 | The codes are pairwise distinct, so a code decodes back to its unique state |
| IssStates.Classify | iss_notification.py:261-275 | A band is found exactly when d > 0; its state is a table row, its interval is that row's interval, and d lies above that row's lower bound |
| IssStates.ClassifyIsGreatestBand | iss_notification.py:40-46 | The chain picks a state exactly when that state's lower bound is the greatest table bound below d |
| IssStates.BandsDisjoint | iss_notification.py:40-46 | No time-to-rise lies in two bands of the table |
| IssStates.ClassifyBoundaries | iss_notification.py:261-275 | d > 2700 gives (RECEDING, 120), 901..2700 gives (APPROACHING, 60), 301..900 gives (CLOSING, 30), 61..300 gives (INCOMING, 15) and 1..60 gives (IMMINENT, 5); d <= 0 gives no band |
| IssStates.ClassifyNeverOverheadOrTest | iss_notification.py:261-275 | Classification never yields OVERHEAD or TEST |
| Leds.Frame | iss_notification.py:96-101 | The command is three bytes: 0x24, the state's code, 0x21 |
| Leds.Unframe | iss_notification.py:52-64 | A three-byte command decodes to a state only if it is exactly that state's frame |
| Leds.UnframeFrame | iss_notification.py:96-101 | Decoding the frame of a state gives back that state |
| Leds.Frames | iss_notification.py:104 | The line carries three bytes per state sent |
| Leds.ParseFrames | iss_notification.py:93-109 | The bytes on the line decode back to exactly the states that were sent, in order |
| Leds.Leds.constructor | iss_notification.py:55-67 | A new notifier is not configured and has sent nothing |
| Leds.Leds.Setup | iss_notification.py:69-84 | `configured` and the result are whether the port opened; nothing is sent |
| Leds.Leds.SendState | iss_notification.py:93-109 | When configured and the write succeeds, exactly the frame of the state is appended to the line. A failed write appends nothing and reports an error. When not configured, nothing is written and no error is reported |
| Arguments.Validate | iss_notification.py:196-210 | The first failing check decides the code: missing lat/lon gives 3, latitude outside [-80, 80] gives 4, longitude outside [-180, 180] gives 5, altitude outside [0, 10000] gives 6, pass count outside [1, 100] gives 7; each as an if-and-only-if |
| Arguments.AcceptedInRange | iss_notification.py:196-210 | The checks pass exactly when every parameter is inside its range |
| Arguments.ZeroAltitudeAccepted | iss_notification.py:205-207 | Altitude 0 is accepted with every in-range latitude, longitude and pass count |
| PollLoop.Init | iss_notification.py:218-224 | The loop starts with last state TEST, current state RECEDING, interval 120 and no pass on record |
| PollLoop.Next | iss_notification.py:241-331 | After an iteration, the last state is the state emitted, or is unchanged when nothing was emitted; a state emitted becomes the current state |
| PollLoop.NextKeepsInv | iss_notification.py:300-314 | Each iteration keeps the loop invariant (current state never TEST; last state equals current state except before the first emission). It never emits TEST and never emits the state last emitted |
| PollLoop.FailedFetchChangesNothing | iss_notification.py:326-331 | A non-success response changes no variable, emits nothing and does not sleep |
| PollLoop.AheadOfPass | iss_notification.py:259-277 | For d >= 0 the fetched pass becomes the last pass. For d > 0 the band sets state, interval and sleep. For d == 0 state and interval are kept |
| PollLoop.PassUnderWay | iss_notification.py:253-258 | For d < 0 the last pass is kept. With none on record the interval is 600 and the state is unchanged; otherwise the state is OVERHEAD and the interval is the recorded pass's duration |
| PollLoop.WrongPassCount | iss_notification.py:307-324 | With the wrong pass count, OVERHEAD turns into RECEDING (both current and last) and RECEDING is emitted once; otherwise nothing changes; the sleep is 10 either way |
| PollLoop.EmitsOnChange | iss_notification.py:300-304 | A response with the requested count emits exactly when the new current state differs from the last state emitted |
| PollLoop.FirstMatchEmits | iss_notification.py:300-304 | The first response with the requested count always emits a state |
| PollLoop.Run | iss_notification.py:241-331 | A run over k observations yields k delays |
| PollLoop.WrittenAllWritesOk | iss_notification.py:300-314 | When every serial write succeeds, the states written to the line over a run are exactly the states the loop emitted |
| PollLoop.LogInvNext | iss_notification.py:300-314 | An iteration keeps the loop variables consistent with the emission log extended by what it emits: the invariant holds, no state repeats back to back, TEST is never logged, and the last state is the last logged state |
| PollLoop.RunEmitsChangesOnly | iss_notification.py:300-314 | Over any run, no state is emitted twice in a row and TEST is never emitted. The first emission differs from the last state before the run, and the final last state is the last emission |
| PollLoop.PollLoop.constructor | iss_notification.py:218-237 | The fields take the initial loop values. TEST is sent once when serial output is on and the program is not quiet |
| PollLoop.PollLoop.Emit | iss_notification.py:300-304 | The last state is set to the emitted state whether or not serial is on; the state is sent only when serial is on |
| PollLoop.PollLoop.Step | iss_notification.py:241-331 | The fields, the delay, the emission log and the states sent over serial follow Next, and the invariant is kept |
| PollLoop.PollLoop.Poll | iss_notification.py:241-331 | Running Step once per observation gives the final variables, the delays and the emissions of Run. The states appended to the serial log are Run's written states (the emissions whose write succeeded) when serial is on, and none when it is off |

## Left out

- HTTP retrieval (`NotifyAPI.getPassData`): the fetch is an input, either `Failed` for an empty dict or the `response` list. JSON decoding is not modelled. Neither are the exits 8 and 9 on connection or unknown errors, nor a success answer without a `response` key, which would crash the program.
- pyserial transport: opening and closing the port (`Leds.setup`, `Leds.close`) is reduced to a boolean outcome. Each `ser.write` is reduced to a boolean `writeOk`. A failed write is taken to put no bytes on the line.
- The Python program creates the `Leds` object only when `-s` is given. The model always has one, left unconfigured and never written to when serial output is off.
- Arguments.AcceptedInRange: latitude and longitude are reals, so NaN is not represented. In the source, `-t nan` or `-n nan` gives a float NaN, every comparison on it is false, all checks pass and the program polls with a NaN coordinate.
- Command-line parsing with `getopt`, `float()` and `int()`, and its exit codes 0, 1 and 2: library parsing, not logic. `Validate` takes the already-parsed values.
- All console output, including the time formatting and the effect of `quiet` on printing. `quiet` is kept only where it changes behaviour: it suppresses the initial TEST send.
- `time.sleep`: each iteration returns its delay instead of sleeping.
- The 5-second pause after the initial TEST send is not modelled: the constructor returns no delay.
- The `KeyboardInterrupt` shutdown path (closing the port and exiting): this is signal handling.
- The loop never ends in the source. `Run` and `Poll` model any finite prefix of it.
- led_test.py: its `Leds` class is a copy of the one modelled here, and its `main` is a hardware test driver.
- PollLoop.Run: a pass duration is an unbounded integer. If the service reported a negative duration, line 257 would set a negative interval, `time.sleep` would raise at line 306, and the program would stop, because only `KeyboardInterrupt` is caught. `Next` then returns `Sleep` of that negative value, and `Run` and `Poll` carry on with later observations, which the program never reaches. The model does not represent this stop.
- PollLoop.Run: its own contract states only the number of delays. What a run emits and writes is stated by RunEmitsChangesOnly and WrittenAllWritesOk, and Poll ties it to the class.
