# AF2Location core in Dafny

AF2Location is an Android app. It receives XGPS sentences from the Aerofly FS 2
flight simulator over UDP and injects them as mock GPS locations. All of its
logic is in `UdpLocationService.kt`. This project models three parts of that
file and proves properties of them:

- **The XGPS parser** (module `XgpsParser`, `xgps.dfy`). It is the inline parse of the receive loop, written as the pure function `ParsePayload` from the received bytes to an optional `Fix`; `ParseText` is its part after decoding and trimming. A fix holds longitude, latitude, altitude, bearing and speed. The steps match the source:
  - US-ASCII decoding, where every byte of 0x80 or above becomes U+FFFD;
  - Kotlin's `trim()`, which strips `Char.isWhitespace` characters;
  - `startsWith("XGPS")`;
  - `substringAfter(",")`, which gives back the whole text when there is no comma;
  - Kotlin's `split(",")`, which keeps empty fields, trailing ones included;
  - the five-field check;
  - `toDoubleOrNull() ?: 0.0` on each of the first five fields.
- **`KalmanLatLong`** (module `Kalman`, `kalman.dfy`). It is a class with the source's four mutable fields and the methods `SetState` and `Process`. Each method is proved against the pure functions `SetStateResult` and `Step`. The filter's promises are proved as lemmas about `Step` and about `Run` (the trace of a sequence of calls):
  - seeding on the first call;
  - the variance stays in bounds;
  - the timestamp handling;
  - every estimate moves part of the way towards its measurement, by exactly the gain.
- **The ingest loop and the session guard**:
  - `UdpServer` (`udp_server.dfy`) holds the `runUdpServer` receive loop as a method over the sequence of receive outcomes. It runs the real `KalmanLatLong` object and is proved equal to `Replay`, the fold of the per-datagram body. The lemmas prove that a session is parse, then filter, then build: one location per accepted datagram, in order.
  - `LocationService` (`location_service.dfy`) holds the `isRunning` guard of `onStartCommand` and `onDestroy`, as a class whose methods are proved against the pure transition functions `StartCommand` and `Destroy`, plus an invariant over any sequence of lifecycle calls.

`Wrappers` (`wrappers.dfy`) holds the `Option` type, used for Kotlin's nullable values.

Inputs the code reads from outside become parameters:
- `toDoubleOrNull` is the parameter `num: string -> Option<real>`. The decimal grammar is not modelled.
- The two readings of `System.currentTimeMillis()` and `SystemClock.elapsedRealtimeNanos()` are fields of each `Datagram`.
- Whether `setTestProviderLocation` threw is the flag `sinkAccepts` of each `Datagram`.
- Whether `socket.receive` delivered a datagram or threw is a `Receive` value.

## Model

| member | source | states |
|---|---|---|
| XgpsParser.DecodeAsciiAt | app/src/main/java/com/ashkorehennessy/af2location/UdpLocationService.kt:116 | US-ASCII decoding keeps each byte below 0x80 as its character and turns every other byte into U+FFFD, one character per byte |
| XgpsParser.DecodeEncode | app/src/main/java/com/ashkorehennessy/af2location/UdpLocationService.kt:116 | decoding the bytes of an ASCII text gives that text back |
| XgpsParser.Trim | app/src/main/java/com/ashkorehennessy/af2location/UdpLocationService.kt:116 | `trim()`: the result neither starts nor ends with whitespace, and the input is the result framed by whitespace on both sides |
| XgpsParser.TrimmedIsFixed | app/src/main/java/com/ashkorehennessy/af2location/UdpLocationService.kt:116 | trimming a text already free of outer whitespace changes nothing |
| XgpsParser.SubstringAfter | app/src/main/java/com/ashkorehennessy/af2location/UdpLocationService.kt:119 | `substringAfter(",")` is the text after the first comma, or the whole text when there is no comma |
| XgpsParser.Split | app/src/main/java/com/ashkorehennessy/af2location/UdpLocationService.kt:119 | `split(",")` gives at least one field, none with a comma, and joining the fields with commas gives the input back |
| XgpsParser.SplitJoin | app/src/main/java/com/ashkorehennessy/af2location/UdpLocationService.kt:119 | splitting comma-free fields joined by commas gives the same fields back, empty ones included |
| XgpsParser.SplitCount | app/src/main/java/com/ashkorehennessy/af2location/UdpLocationService.kt:119-120 | the number of fields is the number of commas plus one |
| XgpsParser.FieldValue | app/src/main/java/com/ashkorehennessy/af2location/UdpLocationService.kt:121-125 | a field is its parsed number when it parses and 0 otherwise |
| XgpsParser.AcceptedIff | app/src/main/java/com/ashkorehennessy/af2location/UdpLocationService.kt:118-120 | a trimmed text yields a fix exactly when it starts with `XGPS` and holds at least five commas |
| XgpsParser.ParseSentence | app/src/main/java/com/ashkorehennessy/af2location/UdpLocationService.kt:118-125 | for `XGPS…,f0,f1,…`: fewer than five fields are rejected; otherwise fields 0 to 4 give longitude, latitude, altitude, bearing and speed by position, each on its own, and later fields are ignored |
| XgpsParser.ParseAsciiPayload | app/src/main/java/com/ashkorehennessy/af2location/UdpLocationService.kt:116-125 | the payload of an ASCII sentence parses as its trimmed text |
| XgpsParser.NoCommaRejected | app/src/main/java/com/ashkorehennessy/af2location/UdpLocationService.kt:119-120 | a text with no comma becomes one field and is rejected |
| XgpsParser.ExampleBadField | app/src/main/java/com/ashkorehennessy/af2location/UdpLocationService.kt:121-125 | `XGPS1,12.5,abc,100,90,5` is accepted, with the unparsable latitude turned into 0 and the other fields kept |
| XgpsParser.ExampleEmptyFields | app/src/main/java/com/ashkorehennessy/af2location/UdpLocationService.kt:119-125 | `XGPS,,,,,` is accepted as five empty fields, each of which fails to parse and becomes 0 |
| XgpsParser.ExampleTooFewFields | app/src/main/java/com/ashkorehennessy/af2location/UdpLocationService.kt:120 | a sentence with four fields is rejected |
| XgpsParser.ExampleLowerCaseTag | app/src/main/java/com/ashkorehennessy/af2location/UdpLocationService.kt:118 | the tag check is case-sensitive: `xgps,…` is rejected |
| Kalman.SeedStep | app/src/main/java/com/ashkorehennessy/af2location/UdpLocationService.kt:206-209 | on an unseeded filter, `process` returns the measurement unchanged and leaves lat, lng, variance 225 and the given timestamp |
| Kalman.SetStateSeeds | app/src/main/java/com/ashkorehennessy/af2location/UdpLocationService.kt:198-203 | after `setState` the variance is not negative, so the next `process` does not re-seed |
| Kalman.StepVariance | app/src/main/java/com/ashkorehennessy/af2location/UdpLocationService.kt:211-222 | on a seeded filter the time update never lowers the variance; afterwards 0 ≤ variance < 225, and the variance is strictly below its prior value whenever that value was positive |
| Kalman.StepTime | app/src/main/java/com/ashkorehennessy/af2location/UdpLocationService.kt:211-215 | the variance grows by duration·5·5/1000 and the timestamp is overwritten exactly when the new timestamp is later; otherwise both stay; so the stored timestamp never decreases |
| Kalman.StepCorrects | app/src/main/java/com/ashkorehennessy/af2location/UdpLocationService.kt:217-224 | the pair returned is the stored estimate; on each axis the new estimate lies between the old estimate and the measurement, strictly when the prior variance is positive and the two differ; the fraction of the way covered is the gain |
| Kalman.RunPrefix | app/src/main/java/com/ashkorehennessy/af2location/UdpLocationService.kt:205-225 | later calls never change what earlier calls returned |
| Kalman.RunInvariant | app/src/main/java/com/ashkorehennessy/af2location/UdpLocationService.kt:198-224 | after any non-empty sequence of calls on a new filter, 0 < variance ≤ 225, the last value returned is the stored estimate, and the stored timestamp is the latest timestamp seen |
| Kalman.RunFirstIsRaw | app/src/main/java/com/ashkorehennessy/af2location/UdpLocationService.kt:206-209 | the first call on a new filter returns its raw measurement |
| Kalman.RunInterpolates | app/src/main/java/com/ashkorehennessy/af2location/UdpLocationService.kt:217-224 | each later output lies between the previous output and its own measurement on each axis, strictly when they differ |
| Kalman.KalmanLatLong.constructor | app/src/main/java/com/ashkorehennessy/af2location/UdpLocationService.kt:188-196 | a new filter is at 0, 0 with variance −1 and timestamp 0 |
| Kalman.KalmanLatLong.SetState | app/src/main/java/com/ashkorehennessy/af2location/UdpLocationService.kt:198-203 | the fields become the given position and timestamp, and the square of the given accuracy |
| Kalman.KalmanLatLong.Process | app/src/main/java/com/ashkorehennessy/af2location/UdpLocationService.kt:205-225 | the new fields and the returned pair are those of `Step` on the old fields, and the variance is then not negative |
| UdpServer.Payload | app/src/main/java/com/ashkorehennessy/af2location/UdpLocationService.kt:109-116 | the payload is the datagram cut to the 1024-byte buffer: the whole datagram when it fits, otherwise exactly its first 1024 bytes |
| UdpServer.RunUdpServer | app/src/main/java/com/ashkorehennessy/af2location/UdpLocationService.kt:109-153 | the loop hands to the sink, in order, exactly the locations that replaying the datagrams received before the first failed receive produces |
| UdpServer.ReplayIsParseThenFilter | app/src/main/java/com/ashkorehennessy/af2location/UdpLocationService.kt:111-149 | one location per accepted datagram, in arrival order, and none for rejected ones (not even a filter update); each location is the filter's output for that datagram's raw latitude, longitude and clock, with its raw altitude, bearing and speed and the fixed accuracies; the sink keeps exactly those it accepted |
| UdpServer.FirstFixIsRaw | app/src/main/java/com/ashkorehennessy/af2location/UdpLocationService.kt:129-133 | the first location of a session carries the raw latitude and longitude of the first accepted datagram |
| UdpServer.ConsecutiveFixesApproach | app/src/main/java/com/ashkorehennessy/af2location/UdpLocationService.kt:129-133 | each later location lies, on each axis, between the previous location and its own raw position, strictly when they differ |
| UdpServer.SinkFailuresDoNotMatter | app/src/main/java/com/ashkorehennessy/af2location/UdpLocationService.kt:145-147 | whether the sink throws changes neither the locations built nor the filter |
| UdpServer.FailureEndsSession | app/src/main/java/com/ashkorehennessy/af2location/UdpLocationService.kt:114-153 | a failed receive ends the loop: nothing after it is processed |
| LocationService.RequestedPort | app/src/main/java/com/ashkorehennessy/af2location/UdpLocationService.kt:44 | the port is the intent's `PORT` extra, or 49002 when the intent is missing or has no such extra |
| LocationService.StartWhileRunning | app/src/main/java/com/ashkorehennessy/af2location/UdpLocationService.kt:46-58 | a start request while `isRunning` launches nothing, changes nothing and answers sticky |
| LocationService.StartWhenIdle | app/src/main/java/com/ashkorehennessy/af2location/UdpLocationService.kt:44-58 | a start request with no session sets `isRunning` and launches one server on the requested port |
| LocationService.StopLaunchesNothing | app/src/main/java/com/ashkorehennessy/af2location/UdpLocationService.kt:39-42 | a stop request launches nothing, leaves the flag unchanged, asks the system to stop and answers not sticky |
| LocationService.StickyUnlessStopped | app/src/main/java/com/ashkorehennessy/af2location/UdpLocationService.kt:39-58 | the answer is sticky exactly when the request is not a stop |
| LocationService.StartIdempotent | app/src/main/java/com/ashkorehennessy/af2location/UdpLocationService.kt:46-56 | repeating the same start request changes nothing more |
| LocationService.DestroyClears | app/src/main/java/com/ashkorehennessy/af2location/UdpLocationService.kt:61-64 | destroy clears `isRunning` and cancels the job, so no server is left |
| LocationService.ApplyGuarded | app/src/main/java/com/ashkorehennessy/af2location/UdpLocationService.kt:38-64 | every start or destroy call keeps the guard invariant: at most one server, and a server only while `isRunning` |
| LocationService.AtMostOneServer | app/src/main/java/com/ashkorehennessy/af2location/UdpLocationService.kt:38-64 | for any sequence of start, stop and destroy calls on a new service, at most one server is ever running |
| LocationService.FlagTracksServer | app/src/main/java/com/ashkorehennessy/af2location/UdpLocationService.kt:38-59 | until the service is destroyed, `isRunning` holds exactly when one server is running |
| LocationService.FirstStartPicksPort | app/src/main/java/com/ashkorehennessy/af2location/UdpLocationService.kt:44-56 | the first start request that is not a stop fixes the only server and its port; later requests do not change it |
| LocationService.StopsChangeNoServers | app/src/main/java/com/ashkorehennessy/af2location/UdpLocationService.kt:39-42 | stop requests alone leave the service idle |
| LocationService.UdpLocationService.OnStartCommand | app/src/main/java/com/ashkorehennessy/af2location/UdpLocationService.kt:38-59 | the fields and the answer are those of `StartCommand` on the old fields, and the guard invariant is kept |
| LocationService.UdpLocationService.OnDestroy | app/src/main/java/com/ashkorehennessy/af2location/UdpLocationService.kt:61-64 | the fields are those of `Destroy` on the old fields, and the guard invariant is kept |

## Left out

- Floating point: `lat`, `lng` and the fix fields are `Double`, and `variance`, bearing and speed are `Float`. All of them are modelled as exact reals. Rounding, the `toFloat()` narrowing of bearing and speed, and NaN or infinite inputs are not modelled.
- The decimal grammar of `toDoubleOrNull` is the parameter `num`. The model fixes only what the code does with its result.
- Integer widths: the `Long` timestamps and the port are unbounded integers. Overflow of `timeStamp - timeStampMilliseconds` is not modelled.
- I/O and concurrency:
  - socket creation, `reuseAddress` and `bind`;
  - the coroutine scope and its dispatcher;
  - the `isActive` check of the loop.

  The loop ends at the first failed receive or when its input runs out. Cancellation by `onDestroy` is the end of the input. Cancellation also appears as the cleared server list in `LocationService`.
- The reuse of one mutable `DatagramPacket` buffer is modelled as truncating each datagram to 1024 bytes. Because `packet.length` is reset on each receive, no bytes from an earlier datagram are visible.
- Clock reads are inputs carried by each datagram.
- The Android plumbing is not modelled:
  - the notification channel and notification;
  - `startForeground`;
  - toasts and logging;
  - `removeTestProvider` in `onDestroy`;
  - `addTestProvider`, `setTestProviderEnabled` and their error handling at the start of `runUdpServer` (lines 78-101);
  - `onBind`.

  `stopSelf()` is modelled only as the `stopRequested` flag. The system's later call of `onDestroy` is a separate `Destroyed` event.
- A server that ends on its own is not modelled, for example after a bind failure, a loop error or the `SecurityException` path. In the source, `isRunning` then stays true, so later start requests launch nothing until the service is destroyed. The model's servers end only through `onDestroy`.
- The `flags` and `startId` arguments of `onStartCommand` are not modelled, because the source never reads them.
- MainActivity.kt is not part of this model. It only builds the start and stop intents.
