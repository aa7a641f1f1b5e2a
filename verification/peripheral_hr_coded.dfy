/** The coded-PHY heart-rate peripheral: its advertising payload, `connected`,
    `disconnected`, the advertising work `start_advertising_coded`, the
    notification work `notify_work_handler` and the Bluetooth part of `main`. */
module PeripheralHrCoded {
  import opened Ble
  import Counters
  import AdFilter

  /** The heart rate's initial value and reset value. */
  const HeartRateFloor: uint8 := 100

  /** Delay between notification ticks, in milliseconds. */
  const NotifyIntervalMs: nat := 1000

  /** Connectable advertising at the second fast interval pair. */
  const AdvFastIntMin2: nat := 0x00a0
  const AdvFastIntMax2: nat := 0x00f0
  const AppAdvParams := AdvParams({Connectable}, AdvFastIntMin2, AdvFastIntMax2)

  /** The advertising payload: flags, the complete list of the heart rate,
      battery and device information service UUIDs, and the complete device
      name (without its NUL). */
  function Payload(deviceName: seq<uint8>): (ad: seq<AdElement>)
    ensures |ad| == 3
    ensures ad[0] == AdElement(AdTypeFlags, [AdFlagGeneral + AdFlagNoBrEdr])
    // Heart rate 0x180d, battery 0x180f and device information 0x180a, low byte first.
    ensures ad[1] == AdElement(AdTypeUuid16All, [0x0d, 0x18, 0x0f, 0x18, 0x0a, 0x18])
    ensures ad[2] == AdElement(AdTypeNameComplete, deviceName)
  {
    [ AdElement(AdTypeFlags, [AdFlagGeneral + AdFlagNoBrEdr]),
      AdElement(AdTypeUuid16All,
                Uuid16Encode(UuidHeartRateService) + Uuid16Encode(UuidBatteryService)
                + Uuid16Encode(UuidDeviceInformationService)),
      AdElement(AdTypeNameComplete, deviceName) ]
  }

  /** Calls into the stack and the kernel's work queue. */
  datatype Command =
    | EnableStack
    | SubmitAdvertising                               // queue `start_advertising_coded`
    | StartAdvertising(params: AdvParams, ad: seq<AdElement>)
    | ScheduleNotify(delayMs: nat)                    // first arming of the notify work
    | RescheduleNotify(delayMs: nat)                  // re-arming from the notify work
    | NotifyHeartRate(bpm: uint8)
    | SetBatteryLevel(level: uint8)

  /** Boot, connection callbacks and the two work items running. */
  datatype Event =
    | Boot
    | Connected(conn: Handle, err: uint8)
    | Disconnected(conn: Handle, reason: uint8)
    | AdvertisingWork
    | NotifyWork

  /** Return codes: board initialisation (LEDs and UART together), stack
      enable, and advertising start. */
  datatype Replies = Replies(boardErr: int, enableErr: int, advStartErr: int)

  /** The stored heart rate, the battery service's stored level, and whether
      the connection-status LED is lit. */
  datatype State = State(heartRate: uint8, battery: uint8, conLed: bool)

  /** The state at boot; the battery service's initial level is its own. */
  function Initial(battery: uint8): State
  {
    State(HeartRateFloor, battery, false)
  }

  /** The counters stay where the updates keep them. */
  ghost predicate Sane(s: State)
  {
    HeartRateFloor <= s.heartRate < Counters.HeartRateCeiling && 1 <= s.battery <= Counters.BatteryFull
  }

  datatype Transition = Transition(state: State, cmds: seq<Command>)

  /** `main`, once the board is up: enable the stack, then queue advertising
      and arm the notification work with no delay. */
  function OnBoot(s: State, r: Replies): (t: Transition)
    ensures t.state == s
    ensures r.boardErr != 0 ==> t.cmds == []
    ensures r.boardErr == 0 && r.enableErr != 0 ==> t.cmds == [EnableStack]
    ensures r.boardErr == 0 && r.enableErr == 0 ==> t.cmds == [EnableStack, SubmitAdvertising, ScheduleNotify(0)]
  {
    if r.boardErr != 0 then Transition(s, [])
    else if r.enableErr != 0 then Transition(s, [EnableStack])
    else Transition(s, [EnableStack, SubmitAdvertising, ScheduleNotify(0)])
  }

  /** `connected`: no stack call; a failed connection returns before the LED. */
  function OnConnected(s: State, conn: Handle, err: uint8): (t: Transition)
    ensures t.cmds == []
    ensures err != 0 ==> t.state == s
    ensures err == 0 ==> t.state == s.(conLed := true)
  {
    if err != 0 then Transition(s, [])
    else Transition(s.(conLed := true), [])
  }

  /** `disconnected`: whatever the reason, queue advertising once. */
  function OnDisconnected(s: State, conn: Handle, reason: uint8): (t: Transition)
    ensures t.cmds == [SubmitAdvertising]
    ensures t.state == s.(conLed := false)
  {
    Transition(s.(conLed := false), [SubmitAdvertising])
  }

  /** `start_advertising_coded`: one advertising start; a failure is only logged. */
  function OnAdvertisingWork(s: State, deviceName: seq<uint8>): (t: Transition)
    ensures t.state == s
    ensures t.cmds == [StartAdvertising(AppAdvParams, Payload(deviceName))]
  {
    Transition(s, [StartAdvertising(AppAdvParams, Payload(deviceName))])
  }

  /** `notify_work_handler`: heart rate, then battery, then re-arm in 1000 ms.
      `bas_notify` asserts that the stored level is positive. */
  function OnNotifyWork(s: State): (t: Transition)
    requires s.battery > 0
    ensures Sane(s) ==> Sane(t.state)
    ensures t.state.conLed == s.conLed
    // The heart rate is updated before the battery level, each by its counter.
    ensures t.state.heartRate == Counters.HeartRateNext(HeartRateFloor, s.heartRate)
    ensures t.state.battery == Counters.BatteryNext(s.battery)
    ensures |t.cmds| == 3 && t.cmds[2] == RescheduleNotify(NotifyIntervalMs)
    ensures t.cmds[0] == NotifyHeartRate(t.state.heartRate) && t.cmds[1] == SetBatteryLevel(t.state.battery)
  {
    var hr := Counters.HeartRateNext(HeartRateFloor, s.heartRate);
    var level := Counters.BatteryNext(s.battery);
    Transition(State(hr, level, s.conLed), [NotifyHeartRate(hr), SetBatteryLevel(level), RescheduleNotify(NotifyIntervalMs)])
  }

  /** The app: one event, the return codes, the new state and the calls made. */
  function Step(s: State, ev: Event, r: Replies, deviceName: seq<uint8>): (t: Transition)
    requires ev.NotifyWork? ==> s.battery > 0
    ensures Sane(s) ==> Sane(t.state)
    // Only the notification work moves the counters.
    ensures !ev.NotifyWork? ==> t.state.heartRate == s.heartRate && t.state.battery == s.battery
    // Every disconnect, and nothing else, queues advertising and nothing more.
    ensures ev.Disconnected? <==> t.cmds == [SubmitAdvertising]
    // Connection events never reach the stack.
    ensures ev.Connected? ==> t.cmds == []
  {
    match ev
    case Boot => OnBoot(s, r)
    case Connected(conn, err) => OnConnected(s, conn, err)
    case Disconnected(conn, reason) => OnDisconnected(s, conn, reason)
    case AdvertisingWork => OnAdvertisingWork(s, deviceName)
    case NotifyWork => OnNotifyWork(s)
  }

  /** Every notified value lies in its counter's range. */
  predicate NotifiesInRange(cmds: seq<Command>)
  {
    forall i :: 0 <= i < |cmds| ==>
      && (cmds[i].NotifyHeartRate? ==> HeartRateFloor <= cmds[i].bpm < Counters.HeartRateCeiling)
      && (cmds[i].SetBatteryLevel? ==> 1 <= cmds[i].level <= Counters.BatteryFull)
  }

  lemma ConcatNotifiesInRange(a: seq<Command>, b: seq<Command>)
    requires NotifiesInRange(a) && NotifiesInRange(b)
    ensures NotifiesInRange(a + b)
  {
  }

  /** One input of a run: an event and the return codes it meets. */
  datatype Input = Input(ev: Event, replies: Replies)

  /** Feeds the inputs one by one; the final state and every call made. */
  function Run(s: State, trace: seq<Input>, deviceName: seq<uint8>): (t: Transition)
    requires Sane(s)
    ensures Sane(t.state)
    decreases |trace|
  {
    if |trace| == 0 then Transition(s, [])
    else
      var before := Run(s, trace[..|trace| - 1], deviceName);
      var last := trace[|trace| - 1];
      var t := Step(before.state, last.ev, last.replies, deviceName);
      Transition(t.state, before.cmds + t.cmds)
  }

  /** Number of notification ticks in the trace. */
  function Ticks(trace: seq<Input>): nat
  {
    if |trace| == 0 then 0
    else Ticks(trace[..|trace| - 1]) + (if trace[|trace| - 1].ev.NotifyWork? then 1 else 0)
  }

  /** Number of disconnects in the trace. */
  function Disconnects(trace: seq<Input>): nat
  {
    if |trace| == 0 then 0
    else Disconnects(trace[..|trace| - 1]) + (if trace[|trace| - 1].ev.Disconnected? then 1 else 0)
  }

  /** The trace starts after boot. */
  predicate NoBoot(trace: seq<Input>)
  {
    forall i :: 0 <= i < |trace| ==> !trace[i].ev.Boot?
  }

  /** The counters depend only on how many notification ticks have run, not on
      connection events: after any run from boot they are the `n`-th values of
      their sequences. Together with `Sane` this shows the battery assertion
      never fails from a valid initial level. */
  lemma {:induction false} RunCountersFollowTicks(battery: uint8, trace: seq<Input>, deviceName: seq<uint8>)
    requires 1 <= battery <= Counters.BatteryFull
    ensures Run(Initial(battery), trace, deviceName).state.heartRate == Counters.HeartRateAfter(HeartRateFloor, Ticks(trace))
    ensures Run(Initial(battery), trace, deviceName).state.battery == Counters.BatteryAfter(battery, Ticks(trace))
    decreases |trace|
  {
    if |trace| > 0 {
      var prefix := trace[..|trace| - 1];
      var last := trace[|trace| - 1];
      RunCountersFollowTicks(battery, prefix, deviceName);
      var before := Run(Initial(battery), prefix, deviceName);
      var t := Step(before.state, last.ev, last.replies, deviceName);
      assert Run(Initial(battery), trace, deviceName).state == t.state;
      if last.ev.NotifyWork? {
        assert Ticks(trace) == Ticks(prefix) + 1;
        assert t == OnNotifyWork(before.state);
      } else {
        assert Ticks(trace) == Ticks(prefix);
      }
    }
  }

  /** Every notified heart rate lies in [100, 159] and every written battery
      level in [1, 100], along any run from in-range counters. */
  lemma {:induction false} RunNotifiesInRange(s: State, trace: seq<Input>, deviceName: seq<uint8>)
    requires Sane(s)
    ensures NotifiesInRange(Run(s, trace, deviceName).cmds)
    decreases |trace|
  {
    if |trace| > 0 {
      var prefix := trace[..|trace| - 1];
      var last := trace[|trace| - 1];
      RunNotifiesInRange(s, prefix, deviceName);
      var before := Run(s, prefix, deviceName);
      var t := Step(before.state, last.ev, last.replies, deviceName);
      assert Run(s, trace, deviceName).cmds == before.cmds + t.cmds;
      StepNotifiesInRange(before.state, last.ev, last.replies, deviceName);
      ConcatNotifiesInRange(before.cmds, t.cmds);
    }
  }

  /** One step from in-range counters notifies only in-range values. */
  lemma StepNotifiesInRange(s: State, ev: Event, r: Replies, deviceName: seq<uint8>)
    requires Sane(s)
    ensures NotifiesInRange(Step(s, ev, r, deviceName).cmds)
  {
  }

  /** Number of advertising submissions among the calls. */
  function Submissions(cmds: seq<Command>): nat
    decreases |cmds|
  {
    if |cmds| == 0 then 0
    else Submissions(cmds[..|cmds| - 1]) + (if cmds[|cmds| - 1] == SubmitAdvertising then 1 else 0)
  }

  lemma {:induction false} SubmissionsConcat(a: seq<Command>, b: seq<Command>)
    ensures Submissions(a + b) == Submissions(a) + Submissions(b)
    decreases |b|
  {
    if |b| > 0 {
      SubmissionsConcat(a, b[..|b| - 1]);
      assert (a + b)[..|a + b| - 1] == a + b[..|b| - 1];
    } else {
      assert a + b == a;
    }
  }

  /** Outside boot, a step queues advertising once if it is a disconnect and
      never otherwise. */
  lemma StepSubmitsOnDisconnect(s: State, ev: Event, r: Replies, deviceName: seq<uint8>)
    requires !ev.Boot? && (ev.NotifyWork? ==> s.battery > 0)
    ensures Submissions(Step(s, ev, r, deviceName).cmds) == if ev.Disconnected? then 1 else 0
  {
    var t := Step(s, ev, r, deviceName);
    match ev
    case Disconnected(_, _) =>
      assert t.cmds[..0] == [];
    case Connected(_, _) =>
    case AdvertisingWork =>
      assert t.cmds[..0] == [];
    case NotifyWork =>
      var c := t.cmds;
      assert c[..2][..1][..0] == [];
      assert Submissions(c[..2][..1]) == 0;
      assert Submissions(c[..2]) == 0;
  }

  /** After boot, advertising is queued exactly once per disconnect. */
  lemma {:induction false} AdvertisingPerDisconnect(s: State, trace: seq<Input>, deviceName: seq<uint8>)
    requires Sane(s) && NoBoot(trace)
    ensures Submissions(Run(s, trace, deviceName).cmds) == Disconnects(trace)
    decreases |trace|
  {
    if |trace| > 0 {
      var prefix := trace[..|trace| - 1];
      var last := trace[|trace| - 1];
      assert NoBoot(prefix) by {
        forall i | 0 <= i < |prefix| ensures !prefix[i].ev.Boot? {
          assert prefix[i] == trace[i];
        }
      }
      AdvertisingPerDisconnect(s, prefix, deviceName);
      var before := Run(s, prefix, deviceName);
      var t := Step(before.state, last.ev, last.replies, deviceName);
      assert Run(s, trace, deviceName).cmds == before.cmds + t.cmds;
      SubmissionsConcat(before.cmds, t.cmds);
      StepSubmitsOnDisconnect(before.state, last.ev, last.replies, deviceName);
    }
  }

  /** The first notification after boot reports 101. */
  lemma FirstHeartRate(s: State)
    requires s.heartRate == HeartRateFloor && s.battery > 0
    ensures OnNotifyWork(s).cmds[0] == NotifyHeartRate(101)
  {
  }

  /** The heart-rate sequence repeats every 60 ticks, and not sooner. */
  lemma HeartRatePeriod60(n: nat, k: nat)
    requires 0 < k < 60
    ensures Counters.HeartRateAfter(HeartRateFloor, n + 60) == Counters.HeartRateAfter(HeartRateFloor, n)
    ensures Counters.HeartRateAfter(HeartRateFloor, k) != Counters.HeartRateAfter(HeartRateFloor, 0)
  {
    Counters.HeartRatePeriodic(HeartRateFloor, n);
    Counters.HeartRateFirstReturn(HeartRateFloor, k);
  }

  /** The central connects to this peripheral exactly when it is built with
      the name the central looks for. */
  lemma PayloadMatchesCentral(deviceName: seq<uint8>)
    ensures AdFilter.ShouldConnect(AdvTypeAdvInd, Payload(deviceName), AdFilter.ScanName) <==> deviceName == AdFilter.ScanName
  {
  }
}
