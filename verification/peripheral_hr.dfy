/** The plain heart-rate peripheral: `connected` and `disconnected` (which
    only log), `bt_ready`, and the notification loop of `main`. */
module PeripheralHr {
  import opened Ble
  import Counters

  /** The heart rate's initial value and reset value. */
  const HeartRateFloor: uint8 := 90

  /** The sleep at the top of each loop iteration, in milliseconds. */
  const LoopPeriodMs: nat := 1000

  /** Connectable advertising with the device name forced into the
      advertising data, at 1 s to 1.2 s. */
  const AppAdvParams := AdvParams({UseName, ForceNameInAd, Connectable}, 1600, 1920)

  /** The advertising payload the app supplies: flags only; the stack adds
      the device name because of the name options. */
  const AppPayload: seq<AdElement> := [AdElement(AdTypeFlags, [AdFlagGeneral + AdFlagNoBrEdr])]

  /** Calls into the stack and the kernel. */
  datatype Command =
    | EnableStack
    | StartAdvertising(params: AdvParams, ad: seq<AdElement>)
    | Sleep(ms: nat)
    | NotifyHeartRate(bpm: uint8)
    | SetBatteryLevel(level: uint8)

  /** Boot, connection callbacks, and one iteration of the main loop. */
  datatype Event =
    | Boot
    | Connected(conn: Handle, err: uint8)
    | Disconnected(conn: Handle, reason: uint8)
    | LoopTick

  /** Return codes of stack enable and advertising start. */
  datatype Replies = Replies(enableErr: int, advStartErr: int)

  /** The stored heart rate and the battery service's stored level. */
  datatype State = State(heartRate: uint8, battery: uint8)

  /** The state at boot; the battery service's initial level is its own. */
  function Initial(battery: uint8): State
  {
    State(HeartRateFloor, battery)
  }

  /** The counters stay where the updates keep them. */
  ghost predicate Sane(s: State)
  {
    HeartRateFloor <= s.heartRate < Counters.HeartRateCeiling && 1 <= s.battery <= Counters.BatteryFull
  }

  datatype Transition = Transition(state: State, cmds: seq<Command>)

  /** `bt_ready`: one connectable advertising start at 1 s to 1.2 s with the
      device name forced into the flags-only advertising data; a failure is
      only logged, never retried. */
  function BtReady(): (cmds: seq<Command>)
    ensures |cmds| == 1 && cmds[0].StartAdvertising?
    ensures cmds[0].params.options == {UseName, ForceNameInAd, Connectable}
    ensures cmds[0].params.intervalMin == 1600 && cmds[0].params.intervalMax == 1920
    ensures cmds[0].ad == [AdElement(AdTypeFlags, [0x06])]
  {
    [StartAdvertising(AppAdvParams, AppPayload)]
  }

  /** `main` up to the loop: enable the stack and return on failure, otherwise
      call `bt_ready`. */
  function OnBoot(s: State, r: Replies): (t: Transition)
    ensures t.state == s
    ensures r.enableErr != 0 <==> t.cmds == [EnableStack]
    ensures r.enableErr == 0 <==> t.cmds == [EnableStack, StartAdvertising(AppAdvParams, AppPayload)]
  {
    if r.enableErr != 0 then Transition(s, [EnableStack])
    else Transition(s, [EnableStack] + BtReady())
  }

  /** One loop iteration: sleep 1 s, then `hrs_notify`, then `bas_notify`,
      whatever the connection state. There is no positive-level check, so a
      level of 0 read back is written as 255. The state takes the service's
      stored level to be the last level written. */
  function OnLoopTick(s: State): (t: Transition)
    ensures Sane(s) ==> Sane(t.state)
    ensures t.state.heartRate == Counters.HeartRateNext(HeartRateFloor, s.heartRate)
    ensures t.state.battery == Counters.BatteryNext(s.battery)
    ensures s.battery == 0 ==> t.state.battery == 255 && SetBatteryLevel(255) in t.cmds
    ensures t.cmds == [Sleep(LoopPeriodMs), NotifyHeartRate(t.state.heartRate), SetBatteryLevel(t.state.battery)]
  {
    var hr := Counters.HeartRateNext(HeartRateFloor, s.heartRate);
    var level := Counters.BatteryNext(s.battery);
    Transition(State(hr, level), [Sleep(LoopPeriodMs), NotifyHeartRate(hr), SetBatteryLevel(level)])
  }

  /** The app: one event, the return codes, the new state and the calls made. */
  function Step(s: State, ev: Event, r: Replies): (t: Transition)
    ensures Sane(s) ==> Sane(t.state)
    // Connection events only log: no call, in particular no re-advertising.
    ensures ev.Connected? || ev.Disconnected? ==> t == Transition(s, [])
    // Outside boot the app only sleeps and notifies.
    ensures !ev.Boot? ==> OnlyNotifies(t.cmds)
  {
    match ev
    case Boot => OnBoot(s, r)
    case Connected(_, _) => Transition(s, [])
    case Disconnected(_, _) => Transition(s, [])
    case LoopTick => OnLoopTick(s)
  }

  /** The calls are all sleeps and notifications. */
  predicate OnlyNotifies(cmds: seq<Command>)
  {
    forall i :: 0 <= i < |cmds| ==> cmds[i].Sleep? || cmds[i].NotifyHeartRate? || cmds[i].SetBatteryLevel?
  }

  /** Every notified value lies in its counter's range. */
  predicate NotifiesInRange(cmds: seq<Command>)
  {
    forall i :: 0 <= i < |cmds| ==>
      && (cmds[i].NotifyHeartRate? ==> HeartRateFloor <= cmds[i].bpm < Counters.HeartRateCeiling)
      && (cmds[i].SetBatteryLevel? ==> 1 <= cmds[i].level <= Counters.BatteryFull)
  }

  /** One input of a run: an event and the return codes it meets. */
  datatype Input = Input(ev: Event, replies: Replies)

  /** Feeds the inputs one by one; the final state and every call made. */
  function Run(s: State, trace: seq<Input>): (t: Transition)
    ensures Sane(s) ==> Sane(t.state)
    decreases |trace|
  {
    if |trace| == 0 then Transition(s, [])
    else
      var before := Run(s, trace[..|trace| - 1]);
      var last := trace[|trace| - 1];
      var t := Step(before.state, last.ev, last.replies);
      Transition(t.state, before.cmds + t.cmds)
  }

  /** Number of loop iterations in the trace. */
  function Ticks(trace: seq<Input>): nat
  {
    if |trace| == 0 then 0
    else Ticks(trace[..|trace| - 1]) + (if trace[|trace| - 1].ev.LoopTick? then 1 else 0)
  }

  /** The trace starts after boot. */
  predicate NoBoot(trace: seq<Input>)
  {
    forall i :: 0 <= i < |trace| ==> !trace[i].ev.Boot?
  }

  /** After any run from boot the counters are the `n`-th values of their
      sequences, `n` the number of loop iterations: connection events do not
      touch them. */
  lemma {:induction false} RunCountersFollowTicks(battery: uint8, trace: seq<Input>)
    requires 1 <= battery <= Counters.BatteryFull
    ensures Run(Initial(battery), trace).state.heartRate == Counters.HeartRateAfter(HeartRateFloor, Ticks(trace))
    ensures Run(Initial(battery), trace).state.battery == Counters.BatteryAfter(battery, Ticks(trace))
    decreases |trace|
  {
    if |trace| > 0 {
      var prefix := trace[..|trace| - 1];
      var last := trace[|trace| - 1];
      RunCountersFollowTicks(battery, prefix);
      var before := Run(Initial(battery), prefix);
      assert Run(Initial(battery), trace).state == Step(before.state, last.ev, last.replies).state;
      match last.ev
      case LoopTick =>
        assert Ticks(trace) == Ticks(prefix) + 1;
      case Boot =>
        assert Ticks(trace) == Ticks(prefix);
      case Connected(_, _) =>
        assert Ticks(trace) == Ticks(prefix);
      case Disconnected(_, _) =>
        assert Ticks(trace) == Ticks(prefix);
    }
  }

  lemma ConcatOnlyNotifies(a: seq<Command>, b: seq<Command>)
    requires OnlyNotifies(a) && OnlyNotifies(b)
    ensures OnlyNotifies(a + b)
  {
  }

  lemma ConcatNotifiesInRange(a: seq<Command>, b: seq<Command>)
    requires NotifiesInRange(a) && NotifiesInRange(b)
    ensures NotifiesInRange(a + b)
  {
  }

  /** Once booted, the app never calls the stack except to notify: advertising
      is started exactly once, at boot, and never restarted. */
  lemma {:induction false} RunAfterBootOnlyNotifies(s: State, trace: seq<Input>)
    requires NoBoot(trace)
    ensures OnlyNotifies(Run(s, trace).cmds)
    decreases |trace|
  {
    if |trace| > 0 {
      var prefix := trace[..|trace| - 1];
      var last := trace[|trace| - 1];
      assert NoBoot(prefix) by {
        forall i | 0 <= i < |prefix| ensures !prefix[i].ev.Boot? {
          assert prefix[i] == trace[i];
        }
      }
      RunAfterBootOnlyNotifies(s, prefix);
      var before := Run(s, prefix);
      var t := Step(before.state, last.ev, last.replies);
      assert Run(s, trace).cmds == before.cmds + t.cmds;
      assert !last.ev.Boot?;
      ConcatOnlyNotifies(before.cmds, t.cmds);
    }
  }

  /** One step from in-range counters notifies only in-range values. */
  lemma StepNotifiesInRange(s: State, ev: Event, r: Replies)
    requires Sane(s)
    ensures NotifiesInRange(Step(s, ev, r).cmds)
  {
  }

  /** Every notified heart rate lies in [90, 159] and every written battery
      level in [1, 100], along any run from in-range counters. */
  lemma {:induction false} RunNotifiesInRange(s: State, trace: seq<Input>)
    requires Sane(s)
    ensures NotifiesInRange(Run(s, trace).cmds)
    decreases |trace|
  {
    if |trace| > 0 {
      var prefix := trace[..|trace| - 1];
      var last := trace[|trace| - 1];
      RunNotifiesInRange(s, prefix);
      var before := Run(s, prefix);
      var t := Step(before.state, last.ev, last.replies);
      assert Run(s, trace).cmds == before.cmds + t.cmds;
      StepNotifiesInRange(before.state, last.ev, last.replies);
      ConcatNotifiesInRange(before.cmds, t.cmds);
    }
  }

  /** The heart-rate sequence repeats every 70 iterations, and not sooner. */
  lemma HeartRatePeriod70(n: nat, k: nat)
    requires 0 < k < 70
    ensures Counters.HeartRateAfter(HeartRateFloor, n + 70) == Counters.HeartRateAfter(HeartRateFloor, n)
    ensures Counters.HeartRateAfter(HeartRateFloor, k) != Counters.HeartRateAfter(HeartRateFloor, 0)
  {
    Counters.HeartRatePeriodic(HeartRateFloor, n);
    Counters.HeartRateFirstReturn(HeartRateFloor, k);
  }
}
