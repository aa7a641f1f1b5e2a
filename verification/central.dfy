/** The central app's connection controller: `start_scan`, `device_found`,
    `connected`, `disconnected`, `mtu_exchange_cb`, `security_changed` and the
    boot sequence of `main`, as one pure step function from a callback and the
    stack's synchronous return codes to the new state and the stack calls made. */
module Central {
  import opened Ble
  import AdFilter

  datatype ScanType = Passive | Active

  /** Scan parameters: type, whether the controller drops duplicate reports,
      and interval and window in units of 0.625 ms. */
  datatype ScanParams = ScanParams(scanType: ScanType, filterDuplicates: bool, interval: nat, window: nat)

  const ScanFastInterval: nat := 0x0060
  const ScanFastWindow: nat := 0x0030

  /** The parameters `start_scan` always uses: active scanning, duplicates
      reported, fast interval and window. */
  const AppScanParams := ScanParams(Active, false, ScanFastInterval, ScanFastWindow)

  /** Calls into the stack, in the order the controller makes them. */
  datatype Command =
    | EnableStack
    | StartScan(params: ScanParams)
    | StopScan
    | CreateConnection(peer: Addr)
    | ExchangeMtu(conn: Handle)
    | Disconnect(conn: Handle, reason: uint8)
    | Unref(target: Option<Handle>)

  /** Boot (`main`) and the callbacks the stack delivers. */
  datatype Event =
    | Boot
    | DeviceFound(peer: Addr, rssi: int, advType: uint8, ad: seq<AdElement>)
    | Connected(conn: Handle, err: uint8)
    | Disconnected(conn: Handle, reason: uint8)
    | MtuExchanged(conn: Handle, err: uint8)
    | SecurityChanged(conn: Handle, level: nat, securityErr: nat)

  /** The synchronous return codes of the stack calls one callback can make,
      and the handle `bt_conn_le_create` stores on success. */
  datatype Replies = Replies(
    enableErr: int,
    startScanErr: int,
    stopScanErr: int,
    createErr: int,
    created: Handle,
    exchangeMtuErr: int)

  /** `default_conn`, and the number of connection references the app holds. */
  datatype State = State(defaultConn: Option<Handle>, refs: int)

  const Init := State(None, 0)

  datatype Transition = Transition(state: State, cmds: seq<Command>)

  /** The reference count after `bt_conn_unref(c)`; unreferencing NULL
      releases nothing. */
  function Released(refs: int, c: Option<Handle>): int
  {
    if c.Some? then refs - 1 else refs
  }

  /** `start_scan`: one scan-start call; a failure is only logged. */
  function StartScanning(): (cmds: seq<Command>)
    ensures |cmds| == 1 && cmds[0].StartScan?
    ensures cmds[0].params.scanType == Active && !cmds[0].params.filterDuplicates
    ensures cmds[0].params.interval == ScanFastInterval && cmds[0].params.window == ScanFastWindow
  {
    [StartScan(AppScanParams)]
  }

  /** `main`: enable the stack, then start scanning once if that worked. */
  function OnBoot(s: State, r: Replies): (t: Transition)
    ensures t.state == s
    ensures |t.cmds| > 0 && t.cmds[0] == EnableStack
    ensures r.enableErr != 0 <==> t.cmds == [EnableStack]
    ensures r.enableErr == 0 <==> t.cmds == [EnableStack, StartScan(AppScanParams)]
  {
    if r.enableErr != 0 then Transition(s, [EnableStack])
    else Transition(s, [EnableStack] + StartScanning())
  }

  /** `device_found`. */
  function OnDeviceFound(s: State, peer: Addr, advType: uint8, ad: seq<AdElement>, r: Replies): (t: Transition)
    // Non-connectable reports are ignored, whatever their payload.
    ensures !AdFilter.IsConnectable(advType) ==> t == Transition(s, [])
    // Some call is made exactly when the report carries the target name.
    ensures t.cmds != [] <==> AdFilter.IsConnectable(advType) && AdFilter.HasTargetName(ad, AdFilter.ScanName)
    // On a match scanning is stopped first, and only once.
    ensures t.cmds != [] ==> t.cmds[0] == StopScan && StopScan !in t.cmds[1..]
    // A failed scan stop ends the callback: no connect, no restart.
    ensures r.stopScanErr != 0 ==> t.state == s && CreateConnection(peer) !in t.cmds && StartScan(AppScanParams) !in t.cmds
    // A synchronous connect failure restarts scanning exactly once and keeps the state.
    ensures t.cmds != [] && r.stopScanErr == 0 && r.createErr != 0 ==>
      t.state == s && t.cmds == [StopScan, CreateConnection(peer), StartScan(AppScanParams)]
    // A successful connect stores the new handle and takes its reference.
    ensures t.cmds != [] && r.stopScanErr == 0 && r.createErr == 0 ==>
      t.state == State(Some(r.created), s.refs + 1) && t.cmds == [StopScan, CreateConnection(peer)]
    // Nothing else moves the state: no call, no change.
    ensures t.state != s ==> t.state.defaultConn == Some(r.created)
    ensures t.cmds == [] ==> t.state == s
    // A failed scan stop is the only call.
    ensures t.cmds != [] && r.stopScanErr != 0 ==> t == Transition(s, [StopScan])
  {
    if AdFilter.IsConnectable(advType) then
      if AdFilter.ShouldConnect(advType, ad, AdFilter.ScanName) then
        if r.stopScanErr != 0 then Transition(s, [StopScan])
        else if r.createErr != 0 then Transition(s, [StopScan, CreateConnection(peer)] + StartScanning())
        else Transition(State(Some(r.created), s.refs + 1), [StopScan, CreateConnection(peer)])
      else Transition(s, [])
    else Transition(s, [])
  }

  /** `connected`. */
  function OnConnected(s: State, conn: Handle, err: uint8, r: Replies): (t: Transition)
    // A failed connection releases whatever `default_conn` holds, without
    // comparing it with `conn`, clears it and restarts scanning exactly once.
    ensures err != 0 ==> t.state == State(None, Released(s.refs, s.defaultConn))
    ensures err != 0 ==> t.cmds == [Unref(s.defaultConn), StartScan(AppScanParams)]
    // A successful connection keeps the state.
    ensures err == 0 ==> t.state == s
    // The MTU exchange is requested only for the connection the app created.
    ensures err == 0 ==> (ExchangeMtu(conn) in t.cmds <==> s.defaultConn == Some(conn))
    ensures err == 0 && s.defaultConn != Some(conn) ==> t.cmds == []
    // A rejected exchange request is followed by a disconnect, and only then.
    ensures err == 0 && s.defaultConn == Some(conn) ==>
      (Disconnect(conn, HciErrUnacceptConnParam) in t.cmds <==> r.exchangeMtuErr != 0)
    ensures err == 0 ==> StartScan(AppScanParams) !in t.cmds
    // The exchange is requested first; a disconnect follows only if it is rejected.
    ensures err == 0 && s.defaultConn == Some(conn) ==>
      t.cmds == [ExchangeMtu(conn)] + (if r.exchangeMtuErr != 0 then [Disconnect(conn, HciErrUnacceptConnParam)] else [])
  {
    if err != 0 then
      Transition(State(None, Released(s.refs, s.defaultConn)), [Unref(s.defaultConn)] + StartScanning())
    else if s.defaultConn == Some(conn) then
      if r.exchangeMtuErr != 0 then
        Transition(s, [ExchangeMtu(conn), Disconnect(conn, HciErrUnacceptConnParam)])
      else Transition(s, [ExchangeMtu(conn)])
    else Transition(s, [])
  }

  /** `disconnected`. */
  function OnDisconnected(s: State, conn: Handle): (t: Transition)
    // A disconnect of any other connection is ignored.
    ensures s.defaultConn != Some(conn) ==> t == Transition(s, [])
    // The tracked connection is released once, cleared, and scanning restarts once.
    ensures s.defaultConn == Some(conn) ==>
      t.state == State(None, s.refs - 1) && t.cmds == [Unref(Some(conn)), StartScan(AppScanParams)]
  {
    if s.defaultConn != Some(conn) then Transition(s, [])
    else Transition(State(None, Released(s.refs, s.defaultConn)), [Unref(s.defaultConn)] + StartScanning())
  }

  /** `mtu_exchange_cb`. */
  function OnMtuExchanged(s: State, conn: Handle, err: uint8): (t: Transition)
    ensures t.state == s
    ensures err == 0 <==> t.cmds == []
    ensures err != 0 ==> t.cmds == [Disconnect(conn, HciErrUnacceptConnParam)]
  {
    if err != 0 then Transition(s, [Disconnect(conn, HciErrUnacceptConnParam)])
    else Transition(s, [])
  }

  /** `security_changed`: a callback for another connection returns at once;
      for the tracked one, an error and a new level are only logged. */
  function OnSecurityChanged(s: State, conn: Handle, level: nat, err: nat): (t: Transition)
    ensures t.state == s && t.cmds == []
  {
    if s.defaultConn != Some(conn) then Transition(s, [])
    else if err != 0 then Transition(s, [])
    else Transition(s, [])
  }

  /** The controller: one event, the stack's return codes, the new state and
      the calls made. */
  function Step(s: State, ev: Event, r: Replies): (t: Transition)
    // No step starts scanning twice: a failed start is never retried.
    ensures StartScan(AppScanParams) in t.cmds ==>
      t.cmds[|t.cmds| - 1] == StartScan(AppScanParams) && StartScan(AppScanParams) !in t.cmds[..|t.cmds| - 1]
    // A connection callback that restarts scanning leaves no connection tracked.
    ensures (ev.Connected? || ev.Disconnected?) && StartScan(AppScanParams) in t.cmds ==> t.state.defaultConn.None?
    // Only a new connection, a failed connection or the tracked disconnect
    // move `default_conn`.
    ensures t.state.defaultConn != s.defaultConn ==> ev.DeviceFound? || ev.Connected? || ev.Disconnected?
  {
    match ev
    case Boot => OnBoot(s, r)
    case DeviceFound(peer, _, advType, ad) => OnDeviceFound(s, peer, advType, ad, r)
    case Connected(conn, err) => OnConnected(s, conn, err, r)
    case Disconnected(conn, _) => OnDisconnected(s, conn)
    case MtuExchanged(conn, err) => OnMtuExchanged(s, conn, err)
    case SecurityChanged(conn, level, err) => OnSecurityChanged(s, conn, level, err)
  }

  // ---------------------------------------------------------------------
  // The stack's scanner as the controller's calls leave it, and the
  // invariant the controller keeps together with it.

  /** Whether the stack scans after one call with the given return codes. */
  function ScanEffect(scanning: bool, c: Command, r: Replies): bool
  {
    match c
    case StartScan(_) => if r.startScanErr == 0 then true else scanning
    case StopScan => if r.stopScanErr == 0 then false else scanning
    case _ => scanning
  }

  /** Whether the stack scans after a sequence of calls. */
  function ScannerAfter(scanning: bool, cmds: seq<Command>, r: Replies): bool
    decreases |cmds|
  {
    if |cmds| == 0 then scanning else ScannerAfter(ScanEffect(scanning, cmds[0], r), cmds[1..], r)
  }

  /** While scanning no connection is tracked, and the app holds exactly one
      reference for a tracked connection and none otherwise. */
  ghost predicate Consistent(s: State, scanning: bool)
  {
    && (scanning ==> s.defaultConn.None?)
    && s.refs == (if s.defaultConn.Some? then 1 else 0)
  }

  /** What the stack may deliver: reports only while scanning, and boot only
      before anything else. */
  ghost predicate Deliverable(s: State, scanning: bool, ev: Event)
  {
    && (ev.DeviceFound? ==> scanning)
    && (ev.Boot? ==> s == Init && !scanning)
  }

  /** One input of a run: an event and the return codes of the calls it makes. */
  datatype Input = Input(ev: Event, replies: Replies)

  /** Controller state, scanner state and all calls made after a run. */
  datatype Outcome = Outcome(state: State, scanning: bool, cmds: seq<Command>)

  /** Feeds the inputs one by one, starting from `s` with the scanner as given. */
  function Run(s: State, scanning: bool, trace: seq<Input>): Outcome
    decreases |trace|
  {
    if |trace| == 0 then Outcome(s, scanning, [])
    else
      var o := Run(s, scanning, trace[..|trace| - 1]);
      var last := trace[|trace| - 1];
      var t := Step(o.state, last.ev, last.replies);
      Outcome(t.state, ScannerAfter(o.scanning, t.cmds, last.replies), o.cmds + t.cmds)
  }

  /** Every input of the run was deliverable in the state it arrived in. */
  ghost predicate Admissible(s: State, scanning: bool, trace: seq<Input>)
    decreases |trace|
  {
    |trace| == 0 ||
    (var prefix := trace[..|trace| - 1];
     var o := Run(s, scanning, prefix);
     Admissible(s, scanning, prefix) && Deliverable(o.state, o.scanning, trace[|trace| - 1].ev))
  }

  /** Calls other than scan start and stop leave the scanner as it was. */
  lemma {:induction false} ScannerUntouched(scanning: bool, cmds: seq<Command>, r: Replies)
    requires forall i :: 0 <= i < |cmds| ==> !cmds[i].StartScan? && !cmds[i].StopScan?
    ensures ScannerAfter(scanning, cmds, r) == scanning
    decreases |cmds|
  {
    if |cmds| > 0 {
      ScannerUntouched(scanning, cmds[1..], r);
    }
  }

  lemma DeviceFoundKeepsConsistent(s: State, peer: Addr, advType: uint8, ad: seq<AdElement>, r: Replies)
    requires Consistent(s, true)
    ensures var t := OnDeviceFound(s, peer, advType, ad, r); Consistent(t.state, ScannerAfter(true, t.cmds, r))
  {
    var t := OnDeviceFound(s, peer, advType, ad, r);
    if t.cmds == [] {
    } else if r.stopScanErr != 0 {
      assert t.cmds == [StopScan];
      assert ScannerAfter(true, t.cmds, r) == ScannerAfter(true, [], r);
    } else if r.createErr != 0 {
      assert t.cmds[1..][1..] == [StartScan(AppScanParams)];
    } else {
      assert t.cmds[1..] == [CreateConnection(peer)];
      ScannerUntouched(false, t.cmds[1..], r);
    }
  }

  lemma ConnectedKeepsConsistent(s: State, scanning: bool, conn: Handle, err: uint8, r: Replies)
    requires Consistent(s, scanning)
    ensures var t := OnConnected(s, conn, err, r); Consistent(t.state, ScannerAfter(scanning, t.cmds, r))
  {
    var t := OnConnected(s, conn, err, r);
    if err == 0 {
      ScannerUntouched(scanning, t.cmds, r);
    } else {
      assert t.cmds[1..] == [StartScan(AppScanParams)];
    }
  }

  lemma DisconnectedKeepsConsistent(s: State, scanning: bool, conn: Handle, r: Replies)
    requires Consistent(s, scanning)
    ensures var t := OnDisconnected(s, conn); Consistent(t.state, ScannerAfter(scanning, t.cmds, r))
  {
  }

  /** One deliverable step keeps the controller consistent with the scanner. */
  lemma StepKeepsConsistent(s: State, scanning: bool, ev: Event, r: Replies)
    requires Consistent(s, scanning) && Deliverable(s, scanning, ev)
    ensures Consistent(Step(s, ev, r).state, ScannerAfter(scanning, Step(s, ev, r).cmds, r))
  {
    var t := Step(s, ev, r);
    match ev
    case Boot =>
      if r.enableErr == 0 {
        assert t.cmds[1..] == [StartScan(AppScanParams)];
      } else {
        ScannerUntouched(scanning, t.cmds, r);
      }
    case DeviceFound(peer, _, advType, ad) =>
      DeviceFoundKeepsConsistent(s, peer, advType, ad, r);
    case Connected(conn, err) =>
      ConnectedKeepsConsistent(s, scanning, conn, err, r);
    case Disconnected(conn, _) =>
      DisconnectedKeepsConsistent(s, scanning, conn, r);
    case MtuExchanged(conn, err) =>
      ScannerUntouched(scanning, t.cmds, r);
    case SecurityChanged(_, _, _) =>
  }

  /** Along every admissible run from boot the controller stays consistent:
      the app never holds more than one connection reference and never
      releases one it does not hold. */
  lemma {:induction false} RunKeepsConsistent(trace: seq<Input>)
    requires Admissible(Init, false, trace)
    ensures Consistent(Run(Init, false, trace).state, Run(Init, false, trace).scanning)
    ensures 0 <= Run(Init, false, trace).state.refs <= 1
    decreases |trace|
  {
    if |trace| > 0 {
      var prefix := trace[..|trace| - 1];
      RunKeepsConsistent(prefix);
      var o := Run(Init, false, prefix);
      var last := trace[|trace| - 1];
      StepKeepsConsistent(o.state, o.scanning, last.ev, last.replies);
    }
  }

  /** Without the scanner's protection, and if the stack accepts the connect
      call (return code 0), a second match while a connection is tracked
      overwrites `default_conn` and leaves the first reference held. */
  lemma SecondMatchLeaksReference()
    ensures
      var ad := [AdElement(AdTypeNameComplete, AdFilter.ScanName)];
      var r := Replies(0, 0, 0, 0, Handle(2), 0);
      var t := Step(State(Some(Handle(1)), 1), DeviceFound(Addr(7), -40, AdvTypeAdvInd, ad), r);
      t.state == State(Some(Handle(2)), 2) && !Consistent(t.state, false)
  {
  }

  /** A connect, MTU exchange and disconnect cycle, all calls succeeding. */
  lemma ConnectionCycle(peer: Addr, h: Handle, reason: uint8)
    ensures
      var ok := Replies(0, 0, 0, 0, h, 0);
      var ad := [AdElement(AdTypeFlags, [0x06]), AdElement(AdTypeNameComplete, AdFilter.ScanName)];
      var s1 := Step(Init, Boot, ok);
      var s2 := Step(s1.state, DeviceFound(peer, -60, AdvTypeAdvInd, ad), ok);
      var s3 := Step(s2.state, Connected(h, 0), ok);
      var s4 := Step(s3.state, MtuExchanged(h, 0), ok);
      var s5 := Step(s4.state, Disconnected(h, reason), ok);
      && s1.cmds == [EnableStack, StartScan(AppScanParams)]
      && s2.cmds == [StopScan, CreateConnection(peer)] && s2.state == State(Some(h), 1)
      && s3.cmds == [ExchangeMtu(h)] && s4.cmds == [] && s4.state == State(Some(h), 1)
      && s5.cmds == [Unref(Some(h)), StartScan(AppScanParams)] && s5.state == Init
  {
    var ad := [AdElement(AdTypeFlags, [0x06]), AdElement(AdTypeNameComplete, AdFilter.ScanName)];
    assert ad[1].data == AdFilter.ScanName;
    assert AdFilter.HasTargetName(ad, AdFilter.ScanName);
  }
}
