# BLE sample apps: connection control and simulated sensors

This project models the sequential logic of three Zephyr Bluetooth LE sample
apps. The Bluetooth stack, the kernel and the board are left abstract.

- **Central** (`apps/central`). It scans for a peripheral that advertises the
  complete local name `buggy-device` and connects to it. After a successful
  connection it asks for an MTU exchange. It restarts scanning after a failed
  connection and after the tracked connection drops. All of its state is the
  `default_conn` pointer. The model is a pure step function,
  `Central.Step(state, event, replies)`. It returns the new state and the list
  of stack calls made. `replies` holds the synchronous return code of every
  stack call the callback can make, and the handle `bt_conn_le_create` hands
  back on success. The state also holds an abstract count of the connection
  references the app holds.
- **Discovery filter** (`eir_found`/`device_found`). It is modelled as the
  `eir_found` callback driven by a callback-directed parser, which stands for
  the stack's `bt_data_parse`. Its verdict is proved equal to a reference
  predicate, `AdFilter.HasTargetName`: the target name is non-empty, and some
  complete-name element carries exactly its bytes.
- **Coded-PHY heart-rate peripheral** (`apps/peripheral_hr_coded`). Covers its
  advertising payload, the advertising work, the notification work, and the
  connection callbacks. Every disconnect queues advertising again.
- **Plain heart-rate peripheral** (`apps/peripheral_hr`). It advertises once
  at boot. Its main loop notifies a heart rate and a battery level every
  second. Its connection callbacks only log.
- **Counters** (`hrs_notify`/`bas_notify`). The heart rate is a `uint8_t`
  that counts up from 90 or 100 and resets on reaching 160. The battery level
  counts down and is written as 100 instead of 0. `uint8_t` wrap-around is
  explicit (`Ble.Inc8`, `Ble.Dec8`).

Each app is modelled as "one event in, state out plus a list of calls out".
Kernel work items and the main loop's iterations are events too. Calls into the
stack and the kernel become values of a `Command` datatype. Their return codes
are inputs.

For the central, `Central.ScannerAfter` models whether the stack is scanning,
as the controller's calls and their return codes leave it. `Central.Deliverable`
states the environment assumption: advertising reports arrive only while the
stack is scanning. Under that assumption, `Central.RunKeepsConsistent` proves
two things along every run from boot:

- no connection is tracked while scanning;
- the app holds exactly one reference for the tracked connection, and none
  when no connection is tracked.

### Where the code and the design description differ

The model follows the code in each case below.

- `device_found` has no guard against a second match while a connection is
  pending. If the stack accepted a second `bt_conn_le_create` while
  `default_conn` is still set, the app would overwrite `default_conn` and leak
  the first reference (`Central.SecondMatchLeaksReference`, where the connect
  call's return code is 0). Whether `bt_conn_le_create` accepts a non-NULL
  out-parameter is up to the stack and is not part of this model. Within the
  app's own code, only the scan stop before connecting keeps a second report
  from arriving.
- `security_changed` records nothing. A callback for another connection
  returns at once; for the tracked connection, an error and a new level are
  only logged.
- The failure branch of `connected` releases `default_conn` without comparing
  it with the failed connection.
- The plain peripheral does not advertise again after a disconnect.
- In both peripherals, notifications run from boot onwards, whether or not a
  central is connected. No disconnect cancels them.

## Model

| member | source | states |
|---|---|---|
| `AdFilter.EirFound` | apps/central/src/main.c:24-45 | every branch tells the parser to continue; the flag becomes set exactly when it was already set or the element is a complete name equal to the non-empty target |
| `AdFilter.ParseFindsName` | apps/central/src/main.c:28-44 | parsing with `AdFilter.DataParse` (the parser loop, which stops when the callback says so) and `eir_found` visits every element; the final flag is the initial flag OR'ed with the reference predicate, so once set it is never cleared |
| `AdFilter.ParseConcat` | apps/central/src/main.c:42-44 | since the callback always continues, parsing `a + b` is parsing `b` from the state `a` leaves |
| `AdFilter.LongnameOk` | apps/central/src/main.c:50-59 | the flag `device_found` reads, after parsing from a zero-initialised state, is set iff some complete-name element equals the non-empty target byte for byte |
| `AdFilter.EmptyNameNeverMatches` | apps/central/src/main.c:30-32 | an empty target name never matches |
| `AdFilter.LongnameOkConcat` | apps/central/src/main.c:28-44 | the verdict over a concatenation is the OR of the verdicts over the parts |
| `AdFilter.LongnameOkOrderIrrelevant` | apps/central/src/main.c:28-44 | any rearrangement of the elements gets the same verdict |
| `AdFilter.ShouldConnect` | apps/central/src/main.c:55-59 | connect iff the report is connectable undirected or directed AND carries the target name; other report types never match |
| `Central.StartScanning` | apps/central/src/main.c:78-98 | one scan-start call with active scanning, duplicates not filtered, fast interval 0x60 and window 0x30; no retry |
| `Central.OnBoot` | apps/central/src/main.c:177-191 | the stack is enabled first; scanning starts exactly once iff enabling succeeded |
| `Central.OnDeviceFound` | apps/central/src/main.c:47-76 | non-connectable reports cause nothing; calls are made iff the target name is present, and a report without it changes nothing; scan stop comes first and once; a failed stop is the only call and changes nothing; a synchronous connect failure restarts scanning exactly once with the state kept; a successful connect stores the new handle and takes one reference |
| `Central.OnConnected` | apps/central/src/main.c:113-138 | on error: releases whatever `default_conn` holds (no comparison with `conn`), clears it, restarts scanning once; on success: state kept; for the tracked connection exactly the MTU exchange request, followed by a disconnect with reason 0x3b iff that request is rejected; for any other connection no call; never a scan restart |
| `Central.OnDisconnected` | apps/central/src/main.c:140-155 | a disconnect of another connection changes nothing and calls nothing; the tracked one is released once, cleared, and scanning restarts once |
| `Central.OnMtuExchanged` | apps/central/src/main.c:100-109 | state kept; no call iff the exchange succeeded, otherwise exactly a disconnect with reason 0x3b |
| `Central.OnSecurityChanged` | apps/central/src/main.c:157-169 | no state change and no call, whatever the handle, level or error |
| `Central.Step` | apps/central/src/main.c:171-175 | no event starts scanning twice, and a scan start is always the last call; a connection callback that restarts scanning leaves nothing tracked; only connection creation, `connected` and `disconnected` move `default_conn` |
| `Central.DeviceFoundKeepsConsistent` | apps/central/src/main.c:59-74 | a report delivered while scanning with nothing tracked leaves the controller consistent with the scanner |
| `Central.ConnectedKeepsConsistent` | apps/central/src/main.c:119-137 | `connected` preserves the consistency invariant |
| `Central.DisconnectedKeepsConsistent` | apps/central/src/main.c:147-154 | `disconnected` preserves the consistency invariant |
| `Central.StepKeepsConsistent` | apps/central/src/main.c:47-169 | every deliverable event preserves: scanning implies no tracked connection, and references held = 1 iff a connection is tracked |
| `Central.RunKeepsConsistent` | apps/central/src/main.c:113-155 | along every admissible run from boot the invariant holds, so the reference count stays in {0, 1}: each connection's reference is released exactly once |
| `Central.SecondMatchLeaksReference` | apps/central/src/main.c:67-69 | if the stack accepts the connect call (return code 0), a match while a connection is tracked overwrites `default_conn` and leaves two references held |
| `Central.ConnectionCycle` | apps/central/src/main.c:47-155 | boot, match, connect, MTU exchange and disconnect issue exactly: enable + scan start, stop + connect, MTU exchange, nothing, release + scan start, ending in the initial state |
| `Counters.HeartRateNext` | apps/peripheral_hr_coded/src/main.c:126-133 | built on the `uint8_t` increment `Ble.Inc8` (255 wraps to 0); one update never yields 160 and keeps a value in [floor, 159] in range: +1 below 159, back to the floor after 159 |
| `Counters.HeartRateAfter` | apps/peripheral_hr_coded/src/main.c:126-133 | the value after any number of updates from the floor lies in [floor, 159], and equals the floor only right after 159 |
| `Counters.HeartRateClimbs` | apps/peripheral_hr/src/main.c:99-105 | from the floor the value after k < 160 - floor updates is floor + k |
| `Counters.HeartRateStep` | apps/peripheral_hr/src/main.c:102-105 | consecutive values differ by exactly 1 except at the reset from 159 to the floor |
| `Counters.HeartRatePeriodic` | apps/peripheral_hr/src/main.c:102-105 | the sequence repeats with period 160 - floor |
| `Counters.HeartRateFirstReturn` | apps/peripheral_hr/src/main.c:102-105 | within one period the value never returns to the floor, so no shorter period exists |
| `Counters.BatteryNext` | apps/peripheral_hr/src/main.c:84-95 | built on the `uint8_t` decrement `Ble.Dec8` (0 wraps to 255); never writes 0; keeps [1, 100] in range; level - 1 from 2 upwards, 1 becomes 100, and 0 wraps to 255 |
| `Counters.BatteryAfter` | apps/peripheral_hr_coded/src/main.c:109-122 | from a level in [1, 100] every later level stays in [1, 100] |
| `Counters.BatteryDrains` | apps/peripheral_hr_coded/src/main.c:115-118 | below the start level each update subtracts exactly one |
| `Counters.BatteryAfterAdd` | apps/peripheral_hr_coded/src/main.c:111-121 | m + k updates are k updates from the level after m |
| `Counters.BatteryPeriodic` | apps/peripheral_hr_coded/src/main.c:115-118 | the battery sequence repeats with period 100 |
| `Ble.Uuid16Encode` | apps/peripheral_hr_coded/src/main.c:43-45 | a 16-bit UUID becomes two bytes, low byte first, that decode back to the UUID |
| `PeripheralHrCoded.Payload` | apps/peripheral_hr_coded/src/main.c:41-47 | three elements: flags 0x06, the complete 16-bit UUID list with the bytes 0d 18 0f 18 0a 18 (heart rate, battery, device information, little-endian), and the complete device name without NUL |
| `PeripheralHrCoded.OnBoot` | apps/peripheral_hr_coded/src/main.c:168-197 | nothing if board init fails; only the enable if enabling fails; otherwise enable, queue advertising, arm the notify work with no delay |
| `PeripheralHrCoded.OnConnected` | apps/peripheral_hr_coded/src/main.c:55-80 | no call; a failed connection returns with nothing changed; a good one lights the connection LED |
| `PeripheralHrCoded.OnDisconnected` | apps/peripheral_hr_coded/src/main.c:82-89 | whatever the reason, queues advertising exactly once and turns the LED off |
| `PeripheralHrCoded.OnAdvertisingWork` | apps/peripheral_hr_coded/src/main.c:96-107 | exactly one advertising start with connectable fast-interval-2 parameters and the app's payload; no retry on failure |
| `PeripheralHrCoded.OnNotifyWork` | apps/peripheral_hr_coded/src/main.c:136-143 | requires the positive level `bas_notify` asserts; notifies the next heart rate, then writes the next battery level, then re-arms in 1000 ms; keeps the counters in range |
| `PeripheralHrCoded.Step` | apps/peripheral_hr_coded/src/main.c:55-143 | only the notify work moves the counters; an event is a disconnect iff its calls are exactly one advertising submission; `connected` makes no call |
| `PeripheralHrCoded.Run` | apps/peripheral_hr_coded/src/main.c:111-113 | from in-range counters every run keeps them in range, so the positive-level assertion holds at every notify tick |
| `PeripheralHrCoded.RunCountersFollowTicks` | apps/peripheral_hr_coded/src/main.c:124-143 | after any run from boot the counters are the n-th values of their sequences, n = number of notify ticks; connection events do not touch them |
| `PeripheralHrCoded.StepNotifiesInRange` | apps/peripheral_hr_coded/src/main.c:136-143 | one step from in-range counters notifies only in-range values |
| `PeripheralHrCoded.RunNotifiesInRange` | apps/peripheral_hr_coded/src/main.c:124-133 | every notified heart rate lies in [100, 159] and every battery level in [1, 100] |
| `PeripheralHrCoded.StepSubmitsOnDisconnect` | apps/peripheral_hr_coded/src/main.c:82-89 | outside boot, a step queues advertising once if it is a disconnect and never otherwise |
| `PeripheralHrCoded.AdvertisingPerDisconnect` | apps/peripheral_hr_coded/src/main.c:82-89 | after boot, the number of advertising submissions equals the number of disconnects |
| `PeripheralHrCoded.FirstHeartRate` | apps/peripheral_hr_coded/src/main.c:126-133 | the first notified heart rate is 101 |
| `PeripheralHrCoded.HeartRatePeriod60` | apps/peripheral_hr_coded/src/main.c:128-131 | the heart-rate sequence has period 60 and no shorter one |
| `PeripheralHrCoded.PayloadMatchesCentral` | apps/peripheral_hr_coded/src/main.c:27-47 | the central's filter accepts the payload iff the device name is `buggy-device` |
| `PeripheralHr.BtReady` | apps/peripheral_hr/src/main.c:56-69 | exactly one advertising start: connectable, name used and forced into the advertising data, interval 1600-1920, flags 0x06 as the only element; no retry |
| `PeripheralHr.OnBoot` | apps/peripheral_hr/src/main.c:147-153 | the stack is enabled first; `main` returns if that fails; otherwise `bt_ready` starts advertising once |
| `PeripheralHr.OnLoopTick` | apps/peripheral_hr/src/main.c:162-170 | sleep 1000 ms, notify the next heart rate, write the next battery level; counters stay in range; a level of 0 read back is written as 255 |
| `PeripheralHr.Step` | apps/peripheral_hr/src/main.c:37-54 | connection events change nothing and call nothing; outside boot nothing enables the stack or starts advertising |
| `PeripheralHr.Run` | apps/peripheral_hr/src/main.c:162-170 | in-range counters stay in range along every run |
| `PeripheralHr.RunCountersFollowTicks` | apps/peripheral_hr/src/main.c:97-108 | after any run from boot the counters are the n-th values of their sequences, n = number of loop iterations |
| `PeripheralHr.RunAfterBootOnlyNotifies` | apps/peripheral_hr/src/main.c:153-170 | once booted the app only sleeps and notifies: advertising starts once, at boot, and never again |
| `PeripheralHr.StepNotifiesInRange` | apps/peripheral_hr/src/main.c:162-170 | one step from in-range counters notifies only in-range values |
| `PeripheralHr.RunNotifiesInRange` | apps/peripheral_hr/src/main.c:99-107 | every notified heart rate lies in [90, 159] and every battery level in [1, 100] |
| `PeripheralHr.HeartRatePeriod70` | apps/peripheral_hr/src/main.c:102-105 | the heart-rate sequence has period 70 and no shorter one |

## Left out

- UART setup and its callbacks, including the delayed UART init work of the plain peripheral. This is board I/O. In the coded peripheral, LED and UART init failures are folded into one `boardErr` return code, because they only decide whether `main` goes on.
- The run-status LED blinking loop and the `dk_*` calls. Only the connection-status LED of the coded peripheral is kept, as a boolean.
- Logging, `printk`, `bt_addr_le_to_str`, and the connection-info and PHY printing in `connected`. These are output only.
- The behaviour of the stack itself: `bt_enable`, the radio, how `bt_data_parse` handles its buffer, and GATT. The parser is kept only as a loop that calls the callback and stops when the callback says so. The stack's return codes are inputs.
- The RSSI and the address of a report. The address is passed to the connect call as an opaque value.
- `bt_conn_le_create`: only its return code and the handle it stores are modelled.
- Kernel scheduling (`k_work_*`, `k_sleep`) and the interleaving of the main loop with callbacks. Each work run and each loop iteration is one event, and (re)arming is a command. Whether a queued work item really runs is up to the environment.
- `auth_cancel` and `bt_conn_auth_cb_register`. They only log or register.
- The value of `CONFIG_BT_DEVICE_NAME` is build configuration and is not part of this model. It is a parameter (`deviceName`).
- The battery service's initial level is not part of this model. The lemmas take any start level in [1, 100].
- How the stack inserts the device name into the plain peripheral's advertising data is not modelled. The model records only the name options and the flags-only payload.
- PeripheralHr.OnLoopTick: the state's battery level is the last level the app wrote, which assumes `bt_bas_set_battery_level` stores any value it is given. The battery service is not part of this model; a service that rejects levels above 100 would keep its old level after the 255 is written. The written value itself (`SetBatteryLevel(255)`) follows from the app's code alone.
- Central.SecondMatchLeaksReference: shows the leak only for a stack that accepts `bt_conn_le_create` while `default_conn` is already set (its return code is an input, here 0). A stack that rejects that call would take the connect-failure path instead.
- Central.Released: `bt_conn_unref(NULL)` (reachable in the model only when `connected` reports an error while nothing is tracked) is modelled as releasing nothing. The stack's behaviour for a NULL reference is not part of this model.
- Central.RunKeepsConsistent: holds under the environment assumption `Central.Deliverable`: reports only while scanning, and boot first. Without that assumption a second match leaks a reference, as `Central.SecondMatchLeaksReference` shows.
