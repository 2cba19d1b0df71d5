# ESP_Slave single-arm controller, modelled in Dafny

This project models the decision logic in the ESP32 firmware `src/main.cpp` of
ESP_Slave. The firmware controls one arm of an intersection. It keeps a vehicle
count, a pedestrian count and four mirror strings, one per cloud feed (traffic,
priority, pedestrian and timer). The MQTT callback updates only the timer mirror.
`loop()` runs `controlTrafficLight()` whenever the timer mirror reads exactly `"5"`,
and that rule publishes flags read from the other three mirrors.

The file also defines `detectVehicle(isPriority)` and `detectPedestrian()`, but
nothing in it calls them. The only controller call is `controlTrafficLight()` in
`loop()` (src/main.cpp:340). If `detectVehicle` were called, it would update the
traffic mirror (and the priority mirror for a priority vehicle) and publish.
`detectPedestrian` updates the pedestrian mirror and publishes nothing. As the
file is wired, the traffic, priority and pedestrian mirrors keep their start-up
value `""`. So every run of `controlTrafficLight()` publishes nothing
(`InitialControlSilent`). The model still covers both detection functions,
because they define what the mirrors can hold once something calls them.

Before any of that, a captive portal collects Wi-Fi and Adafruit IO credentials
into the ESP32 Preferences store. The boot code then decides whether the device
is provisioned.

Modules, one per component of the file:

- `DecimalText` (decimal.dfy) models the Arduino `String` conversions the controller
  uses. `NatToString` is `String(n)` for a non-negative count. `ToInt` is
  `String::toInt()`, read the way C's `atol` reads text: leading white space is
  skipped, one sign is accepted, then the leading digits are read, and the result is
  0 when there are none. The key fact is `ToInt(NatToString(n)) == n`.
- `Feeds` (feeds.dfy) models the feed names `<username>/feeds/<direction>.<signal>`.
  The four names of one arm are pairwise distinct. A name determines its signal and
  its prefix. The topic the MQTT callback compares against is the timer feed.
- `Provisioning` (provisioning.dfy) models the Preferences namespace as a map from
  string to string. It covers `credentialsExist()`, the `/save` handler (as written,
  and as evidently intended, see "## Findings") and the boot decision in `setup()`.
- `Controller` (controller.dfy) models the controller as the class `ArmController`.
  Its fields are the two counters, the four mirror strings and a log of every
  `post_Setup(feed, value)` call, with the methods `DetectVehicle`,
  `DetectPedestrian`, `ControlTrafficLight`, `Callback` and `Loop`. The publishes of
  `controlTrafficLight()` are given by the function `ControlPublishes`.
  `MirrorInvariant` is an invariant the methods preserve. It says what the mirrors
  can hold, which makes it possible to state what the notify rule does in terms of
  the counters.

The code has two quirks, and both are modelled as written:

- `detectPedestrian()` stores the count before raising it. So the pedestrian flag
  read by `controlTrafficLight()` is 1 only after exactly two detections
  (`MirrorFlags`).
- The pedestrian flag is published to the `.priority` feed (`feed2`). The priority
  flag is published to the `.pedestrian` feed (`feed3`).

Three things the code does that a reader might not expect:

- The MQTT callback updates only the timer mirror. The traffic, priority and
  pedestrian mirrors are written only by the detection functions, which the file
  never calls.
- The pedestrian mirror holds the count before it is raised.
- The controller serves one arm. It compares no directions and keeps no repeat
  counter.

## Model

| member | source | states |
|---|---|---|
| `DecimalText.NatToString` | src/main.cpp:228 | `String(n)` is a non-empty string of decimal digits with no leading zero, one digit exactly when n < 10 |
| `DecimalText.DigitsValueOfNatToString` | src/main.cpp:228 | reading the digits of `String(n)` in base ten gives back n |
| `DecimalText.ToInt` | src/main.cpp:249-257 | `String::toInt()` read as `atol` reads it: the empty mirror reads as 0, and a non-empty all-digit text reads as its base-ten value; its other cases are stated by `ToIntOfNatToString`, `ToIntWithoutDigits` and `ToIntOfFlags` |
| `DecimalText.ToIntOfNatToString` | src/main.cpp:251-258 | `String(n).toInt() == n` for every non-negative n, which is how the counts written to the mirrors are read back |
| `DecimalText.NatToStringInjective` | src/main.cpp:243 | two counts render to the same text iff they are equal |
| `DecimalText.ToIntWithoutDigits` | src/main.cpp:251-257 | text with no digit after its white space and optional sign, the empty mirror included, reads as 0 and never fails |
| `DecimalText.ToIntOfFlags` | src/main.cpp:231 | the two flag texts the code writes read as `"" -> 0` and `"1" -> 1` |
| `Feeds.FeedName` | src/main.cpp:276-279 | a feed name starts with the user name, ends in its signal's suffix, and is the arm prefix followed by that suffix |
| `Feeds.FeedNameInjective` | src/main.cpp:276-279 | equal feed names have the same signal and the same `<username>/feeds/<direction>` prefix |
| `Feeds.BuildFeeds` | src/main.cpp:276-279 | `feed1`..`feed4` are the traffic, priority, pedestrian and timer names of the arm, and are pairwise distinct |
| `Feeds.TimerTopicIsTimerFeed` | src/main.cpp:219 | the callback's topic string equals `feed4` and no other feed of the arm |
| `Provisioning.GetString` | src/main.cpp:203-207 | `getString(key, "")` returns the stored value of a present key, and a non-empty result comes only from a present key |
| `Provisioning.CredentialsExist` | src/main.cpp:201-210 | true iff each of the five keys reads non-empty, an absent key reading as `""`; true implies all five keys are stored |
| `Provisioning.HasAllParams` | src/main.cpp:175 | holds iff all five of `ssid`, `password`, `aio_direction`, `aio_username` and `aio_key` are POST parameters |
| `Provisioning.PutCredentials` | src/main.cpp:182-186 | the five `putString` calls add exactly the five credential keys, each holding its given value, and leave every other key unchanged |
| `Provisioning.SaveCredentials` | src/main.cpp:172-195 | 400 with store and globals unchanged and no restart iff some of the five form fields is missing; otherwise 200 and restart, with ssid, password and direction from the form, user name and key from the current globals, exactly the five keys added, other keys unchanged |
| `Provisioning.Setup` | src/main.cpp:264-279 | boots provisioned iff credentials exist, and then with the five stored non-empty values loaded and the feeds rebuilt from the stored user name and direction; otherwise starts the portal |
| `Provisioning.SaveAsWrittenNeverProvisions` | src/main.cpp:184-185 | from an unprovisioned store and the empty boot globals, no request to `/save` leads to a provisioned boot |
| `Provisioning.SaveAsWrittenExample` | src/main.cpp:184-185 | a complete non-empty form is answered 200, yet the stored credentials fail `credentialsExist()` |
| `Provisioning.SaveCredentialsIntended` | src/main.cpp:175-186 | the handler storing all five submitted values: 400 iff a field is missing, otherwise globals equal the submitted values, exactly the five keys are added, each holding its submitted value, and other keys are unchanged |
| `Provisioning.ProvisioningRoundTrip` | src/main.cpp:175-186 | with the intended handler, a complete form followed by the restart boots provisioned iff every value is non-empty, with exactly the submitted values and their feeds |
| `Controller.ControlPublishes` | src/main.cpp:248-259 | at most three publishes, one per true condition: pedestrian flag first to the priority feed, priority flag to the pedestrian feed, the vehicle count last to the traffic feed; with distinct feeds each publish is present iff its condition holds |
| `Controller.InitialControlSilent` | src/main.cpp:71-72 | in the start-up state, with every mirror empty, the notify rule publishes nothing |
| `Controller.MirrorFlags` | src/main.cpp:242-257 | under the mirror invariant, the pedestrian flag reads 1 iff exactly two pedestrians were detected, the priority flag reads 1 iff it is `"1"`, and the traffic mirror reads above 1 iff a vehicle was detected (the count is above its start value 7) |
| `Controller.ControlUnderInvariant` | src/main.cpp:248-259 | under the mirror invariant, the notify rule's publishes in terms of the counters and the priority mirror: `(feed2, "1")` iff exactly two pedestrians were detected, `(feed3, "1")` iff the priority mirror is `"1"`, and `(feed1, String(vehicleCount))` iff a vehicle was detected, in that order |
| `Controller.VehicleKeepsInvariant` | src/main.cpp:226-232 | a vehicle detection keeps the mirror invariant: the raised count with its rendering in the traffic mirror, and the priority mirror set to `"1"` for a priority vehicle |
| `Controller.ExpiryIsTextual` | src/main.cpp:337 | the trigger compares text: `"05"` and `" 5"` read as 5 but are not `"5"` |
| `Controller.ArmController.constructor` | src/main.cpp:71-72 | vehicle count 7, pedestrian count 0, all four mirrors empty, no publishes, feeds built from the user name and direction, invariant established |
| `Controller.ArmController.Post` | src/main.cpp:99 | a `post_Setup(feed, value)` call appends exactly `(feed, value)` to the publish log |
| `Controller.ArmController.RecordVehicle` | src/main.cpp:227-231 | the state changes of `detectVehicle`: count raised by one, traffic mirror its rendering (reading back as the count), priority `"1"` only for a priority vehicle, invariant kept; nothing else changes |
| `Controller.ArmController.DetectVehicle` | src/main.cpp:226-240 | vehicle count raised by one, traffic mirror its rendering (reading back as the count), priority set to `"1"` only for a priority vehicle, other state unchanged; log gains `(feed2, "1")` for a priority vehicle, then `(feed1, traffic)` |
| `Controller.ArmController.DetectPedestrian` | src/main.cpp:242-246 | pedestrian mirror takes the rendering of the count before the raise, the count rises by one, nothing is published, everything else unchanged |
| `Controller.ArmController.ControlTrafficLight` | src/main.cpp:248-259 | only the publish log changes, and it gains exactly `ControlPublishes` of the current state |
| `Controller.ArmController.Callback` | src/main.cpp:212-224 | the timer mirror takes the payload iff the topic is the timer feed; nothing else changes |
| `Controller.ArmController.Loop` | src/main.cpp:314-341 | after delivering at most one message, the notify rule runs iff the timer mirror is exactly `"5"`; otherwise nothing is published; counters and other mirrors unchanged |

## Left out

- `Wifi_Setup` (src/main.cpp:74-97): the station connection wait, the 10 s timeout, clearing the store and the restart are hardware and timing.
- `post_Setup` (src/main.cpp:99-123): the HTTP POST, its URL with the fixed `Thorgan` account segment, its headers, the JSON body and the response logging are kept only as the `(feed, value)` publish event.
- `get_Setup` (src/main.cpp:125-159): it is an HTTP GET with JSON parsing by a library whose behaviour is not visible. The file never calls it.
- `start_access_point` (src/main.cpp:161-199): the soft access point, the route registration and the `GET /` form page are left out. Only the `/save` decision is modelled, and the restart after it is a boolean in the result.
- MQTT transport (src/main.cpp:282-283, 292-308, 315-335): connect, subscribe, reconnect with random client ids and the 5 s back-off are left out. `Loop` takes the message `client.loop()` delivers, if any, as a parameter.
- All `Serial` output and the `delay` calls are left out.
- Integer widths: the `int` counters are `nat` here, so their overflow is not modelled. The `long` overflow of `toInt` on very long digit strings is not modelled either.
- `ToInt`: the library routine behind `String::toInt()` is not part of this model. It is taken to be C's `atol` in the "C" locale.
- The MQTT payload is taken as text. The byte-to-`char` conversion of `String(payload, length)` is not modelled, including what an embedded NUL byte or a non-ASCII byte would do.
- Preferences: `begin`/`end` on the "wifiCreds" namespace are not modelled. The namespace is one map.
- Form parameters: the `/save` form is a map from parameter name to value. Repeated parameters and parameters sent in the query string rather than the POST body are not modelled.
- `ArmController` is built for the provisioned boot, from the stored user name and direction. What the controller does in the unprovisioned boot is not modelled.
- `Controller.ArmController.ControlTrafficLight`: it carries no `Valid()` requirement or result. Its frame (`modifies this`published`) and `Valid()`'s reads clause together show that it preserves the invariant, and `Loop` proves this.

## Findings

| source | as written | input that shows it | evidently intended | confidence | as-written member | corrected member |
|---|---|---|---|---|---|---|
| src/main.cpp:184-185 | `/save` stores the global `aio_username` and `aio_key`, not the submitted values. The portal runs only when the device boots unprovisioned, and on that boot `setup()` never assigns those globals, so they are empty. The saved store therefore always fails `credentialsExist()` and the device comes back up in portal mode. | an empty store, then `/save` with ssid=`home`, password=`secret`, aio_username=`alice`, aio_key=`k`, aio_direction=`north`: the answer is 200, but `aio_username` and `aio_key` are stored as `""` | store `request->getParam("aio_username")` and `request->getParam("aio_key")` | high (not executed) | `Provisioning.SaveAsWrittenNeverProvisions` | `Provisioning.ProvisioningRoundTrip` |
