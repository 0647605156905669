# ElectionNeedle control logic in Dafny

ElectionNeedle is an ESP32 appliance. It shows the probability of a prediction market
as the angle of a servo needle. It polls the market API every five seconds while it is
joined to a WiFi network (client mode). When it has no working credentials, it serves a
captive configuration portal from its own access point (AP mode).

This project models the device's control logic in `main.cpp`:

- `needle.dfy` (module `Needle`): the angle expression
  `map(round(p * 100), 0, 100, MIN_ANGLE, MAX_ANGLE)` with `MIN_ANGLE = 180` and
  `MAX_ANGLE = 0`. It uses Arduino's integer `map` formula with C's truncating division
  and C's `round`, which rounds halves away from zero.
- `probability.dfy` (module `Probability`): the rule by which a polled quote replaces
  `currentProbability`. The link must be up, the status must be 200, the body must parse,
  and the quote must differ by strictly more than 0.01.
- `connectivity.dfy` (module `Connectivity`): the wait loop of `connectWiFi`, with its
  20000 ms timeout and 500 ms status checks. It also holds the wrapping 32-bit `millis()`
  arithmetic that decides when a poll is due.
- `controller.dfy` (module `Device`): class `Controller`. It holds the `DeviceState`
  fields, the `Preferences` store (a `map<string, string>`), the radio mode, a
  `restarted` flag and a ghost log of servo writes. Its methods are `setup`, one pass of
  `loop`, `connectWiFi`, `setupAP`, `updateProbability`, `handleUpdateSlug` and
  `handleConfigure`. `Valid()` states an invariant that boot, each pass of the loop and
  both handlers keep:
  - the mode flag agrees with the radio;
  - the slug in use is the persisted slug;
  - client mode runs on the persisted, non-empty credentials;
  - a restart happens only from client mode.

  `connectWiFi`, `setupAP` and `updateProbability` are steps inside those operations and
  do not keep it on their own. A failed connect leaves the radio in station mode until
  `setupAP` or the configure handler re-arms the access point.
- `scenarios.dfy` (module `Scenarios`): client code that drives the controller through the
  device's use (first boot, joining, changing the market, a failed configuration, the
  update threshold) using only the contracts.
- `wrappers.dfy` (module `Wrappers`): `Option`.

The hardware and the network are oracle parameters:
- `attempt: nat -> bool` says whether `WiFi.status()` reports a connection a given number
  of milliseconds after `WiFi.begin`;
- `Fetch(linkUp, httpCode, parsed)` is one poll of the API;
- `testStatus` is the status of the slug-validation GET;
- `now` and `afterPoll` are `millis()` readings;
- `linkUp` is the run loop's link check;
- the request fields are `Option<string>`.

Where the intended behaviour (probability kept in [0, 1], angle clamped) differs from
the code, the model follows the code:
- The angle is not clamped. A percentage outside 0..100 gives an angle outside 0..180
  (`Needle.NoClamp`).
- The probability is not kept in [0, 1]. Any parsed value more than 0.01 away is adopted
  (`Probability.NoClamp`). It stays in [0, 1] only if the API's values do
  (`Probability.UnitIntervalKept`).
- A failed `handleConfigure` does not set `isAPMode`; it only re-arms the access point.
  The flag stays set because the handler only runs in AP mode.
- A submitted slug is not checked for being non-empty. Only the API's status decides.

## Model

| member | source | states |
|---|---|---|
| `Needle.TruncDiv` | ElectionNeedle/code/src/main.cpp:210 | the quotient of `map`'s division truncates toward zero: for a positive divisor, `q*d` lies within one divisor of `n` on the side of zero |
| `Needle.Round` | ElectionNeedle/code/src/main.cpp:210 | `round` returns the nearest integer, with ties rounded away from zero (up for non-negative arguments, down for negative ones) |
| `Needle.Angle` | ElectionNeedle/code/src/main.cpp:16-17 | the map `(x - 0) * (0 - 180) / (100 - 0) + 180` with truncating division; for a percentage x in 0..100 it equals `180 - floor(180x/100)` |
| `Needle.Percent` | ElectionNeedle/code/src/main.cpp:210 | `round(p * 100)`; a probability in [0, 1] gives a percentage in 0..100 |
| `Needle.AngleOf` | ElectionNeedle/code/src/main.cpp:224 | the angle of a probability, as written to the servo and reported; in 0..180 for every probability in [0, 1] |
| `Needle.TieRoundsUp` | ElectionNeedle/code/src/main.cpp:210 | a tie is rounded away from zero: p = 0.125 is 13 % and angle 157, not the 159 of 12 % |
| `Needle.AngleBounds` | ElectionNeedle/code/src/main.cpp:210 | for x in 0..100 the angle lies in 0..180 |
| `Needle.AngleLandmarks` | ElectionNeedle/code/src/main.cpp:16-18 | 0 % maps to 180, 50 % to the default angle 90, and 100 % to 0 |
| `Needle.AngleAntitone` | ElectionNeedle/code/src/main.cpp:210 | the angle is non-increasing in the percentage, for every integer |
| `Needle.AngleOfAntitone` | ElectionNeedle/code/src/main.cpp:224 | a larger probability never gives a larger angle |
| `Needle.NoClamp` | ElectionNeedle/code/src/main.cpp:210 | nothing clamps: 101 % gives -1 and -1 % gives 181 |
| `Probability.Quote` | ElectionNeedle/code/src/main.cpp:194-206 | a poll delivers a quote iff the link is up, the status is 200 and the body parsed; the quote is the parsed value |
| `Probability.Replaces` | ElectionNeedle/code/src/main.cpp:208 | a replacement needs the link up, status 200 and a parsed quote, and the quote differs from the current value |
| `Probability.Next` | ElectionNeedle/code/src/main.cpp:208-209 | the new probability is the old one, or the quote when that is more than 0.01 away, and then it differs from the old one |
| `Probability.ChangedIff` | ElectionNeedle/code/src/main.cpp:193-215 | the probability changes iff link up, status 200, body parsed and the distance is strictly above 0.01 (both directions) |
| `Probability.FailedPollKeeps` | ElectionNeedle/code/src/main.cpp:194-205 | link down, a non-200 status or an unparsable body keep the prior value |
| `Probability.ThresholdBoundary` | ElectionNeedle/code/src/main.cpp:208 | a quote at distance exactly 0.01 is ignored; one at a greater distance, in either direction, is adopted |
| `Probability.NextIdempotent` | ElectionNeedle/code/src/main.cpp:208-209 | the same poll result seen twice changes nothing the second time |
| `Probability.NoSmallSteps` | ElectionNeedle/code/src/main.cpp:208-209 | the value either stays or moves by more than 0.01 |
| `Probability.UnitIntervalKept` | ElectionNeedle/code/src/main.cpp:206-209 | a value in [0, 1] stays in [0, 1] when the API's quotes do |
| `Probability.NoClamp` | ElectionNeedle/code/src/main.cpp:206-209 | a quote of 1.5 is adopted as it is |
| `Connectivity.WaitForLink` | ElectionNeedle/code/src/main.cpp:178-190 | the wait loop ends at the first status check that sees the link, or at 20000 ms; it reports a connection iff the link is up at some check within the timeout |
| `Connectivity.Elapsed` | ElectionNeedle/code/src/main.cpp:118 | `now - lastUpdate` on `unsigned long` is the unique value in [0, 2^32) that brings `lastUpdate` to `now` modulo 2^32 |
| `Connectivity.ElapsedAcrossWrap` | ElectionNeedle/code/src/main.cpp:118 | the elapsed time is the plain difference without a wrap, and is counted across the wrap otherwise |
| `Connectivity.PollDue` | ElectionNeedle/code/src/main.cpp:118 | a poll is due once at least 5000 ms have elapsed on the wrapping clock; without a wrap that is the plain difference |
| `Connectivity.PollDueAfterRollover` | ElectionNeedle/code/src/main.cpp:118 | for every last-poll time and every delay k below 2^32, a poll is due k ms later, wrapped or not, iff k >= 5000 |
| `Device.GetString` | ElectionNeedle/code/src/main.cpp:79-81 | `Preferences.getString` gives the stored value, or the default when the key is absent |
| `Device.PutThenGet` | ElectionNeedle/code/src/main.cpp:265 | a key written with `putString` reads back the value written, and every other key reads as before |
| `Device.Controller.Boot` | ElectionNeedle/code/src/main.cpp:77-107 | credentials and slug are read from the store (the slug defaults to "will-trump-win-the-2024-election"); probability 0.5; client mode iff the stored ssid is non-empty and the link comes up, else AP mode; the invariant holds |
| `Device.Controller.ConnectWiFi` | ElectionNeedle/code/src/main.cpp:170-191 | switches the radio to station mode; succeeds iff the link comes up within the timeout; success clears `isAPMode`, failure leaves it unchanged; nothing else changes |
| `Device.Controller.SetupAP` | ElectionNeedle/code/src/main.cpp:136-161 | sets `isAPMode` and the access-point radio mode, nothing else |
| `Device.Controller.UpdateProbability` | ElectionNeedle/code/src/main.cpp:193-218 | the probability becomes `Probability.Next` of the old one; exactly when it is replaced, the new angle is written to the servo |
| `Device.Controller.Tick` | ElectionNeedle/code/src/main.cpp:110-134 | polls exactly when in client mode with at least 5000 ms elapsed on the wrapping clock, then stamps `lastUpdate`; with the link down in client mode, reconnects once and ends in AP mode iff that fails; keeps the invariant |
| `Device.Controller.HandleUpdateSlug` | ElectionNeedle/code/src/main.cpp:245-280 | a missing slug or a non-200 test GET gives 400 and changes nothing; a 200 adopts and persists the slug, then runs exactly one poll |
| `Device.Controller.HandleConfigure` | ElectionNeedle/code/src/main.cpp:282-314 | a missing ssid gives 400 and changes nothing; otherwise the credentials are overwritten in memory first; on connect they are persisted and the device restarts; on failure nothing is persisted and AP mode and the access point stay up |
| `Device.Controller.Reboot` | ElectionNeedle/code/src/main.cpp:296-305 | after the restart, boot reads back the credentials and slug that were in use, so it repeats the same connect attempt |

## Left out

- The servo driver, PWM timers and `servo.write` are not modelled as hardware. Writes are a ghost log, and whether the servo attached is a boot parameter.
- The WiFi radio, `DNSServer`, mDNS, `WebServer` route registration and request dispatch (`server.handleClient`) are left out. The handlers are methods that the environment calls between ticks. `WiFi.localIP()` in the replies is omitted.
- `HTTPClient` with `WiFiClientSecure` and its trust-all TLS setting are left out. A GET is an oracle status code.
- `Arduino_JSON` parsing is an `Option<real>`. `None` covers both a body that does not parse and a `probability` field that is not a number. In the second case the source compares against the coerced value, and that comparison fails the threshold.
- Floating point: probabilities are exact reals, so double rounding of `p * 100` and of the 0.01 comparison is not modelled.
- `Needle.ArduinoMap` is given only an increasing input range. The device calls it only with 0..100, and an empty range would divide by zero.
- 32-bit `long` overflow in `map` and the conversion of `round`'s double to `long` are not modelled. They matter only for probabilities far outside [0, 1].
- `Connectivity.WaitForLink`: the clock advances exactly by the 500 ms delays. Time spent inside `WiFi.status()` and `millis()` is not counted, and the second status reading after the loop is taken at the same instant as the last check.
- `delay`, `Serial` logging (`log`) and `ESP.restart()` as a platform call are left out. A restart is the terminal `restarted` flag, and `Reboot` runs boot again.
- The `handleRoot` and `handleStatus` bodies and the HTML templates are left out. Only their angle expression is modelled, as `Needle.AngleOf`.
- The CAD conversion script is unrelated to the device logic.
