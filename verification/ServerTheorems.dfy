/** What holds whenever the server waits for the next event. */
module ServerTheorems {
  import opened Types
  import opened Cameras
  import opened Fleets
  import opened Servers

  // ---- the invariant -----------------------------------------------------------------

  /** A session's subscriptions belong to a connection, and its sender runs
      whenever it has any. */
  predicate SessionOk(s: Session) {
    && s.sink == s.connected
    && (s.active ==> s.connected)
    && (s.subs != map[] ==> s.active)
    && (s.connected ==> s.pressure == s.socketPressure)
  }

  predicate Agreement(s: Server) {
    && Consistent(s.fleet)
    && (s.system.Running? ==> AllIn(s.fleet, Running))
    && (s.system.Configured? ==> AllIn(s.fleet, Configured))
    && (s.system.Idle? ==> !AnyRunning(s.fleet))
    && (s.fleet == [] ==> s.system.Idle?)
    && s.session.Some? == s.watchdog == s.system.Running?
  }

  predicate Inv(s: Server) {
    && Agreement(s) && SessionOk(s.commander) && SessionOk(s.observer)
    && (s.commander.subs != map[] ==> s.system.Running?)
  }

  lemma ConfigureKeeps(s: Server, config: nat, hw: nat -> Hardware)
    requires Inv(s) && s.system.Idle?
    ensures Inv(s.HandleConfigure(config, hw).0)
  {
    ConfigureConsistent(s.fleet, config, hw, 0);
    if s.fleet != [] && !AnyRunning(s.fleet) && AllIn(s.fleet, Idle) {
      var n := ConfigureSplits(s.fleet, config, hw, 0);
    } else if s.fleet != [] && !AnyRunning(s.fleet) {
      var k :| 0 <= k < |s.fleet| && !s.fleet[k].state.Idle?;
      ConfigureBlocked(s.fleet, config, hw, 0, k);
    }
    hide ConfigureFrom, Consistent;
  }

  lemma LifecycleKeeps(s: Server, c: Command)
    requires Inv(s) && (c.Unconfigure? || c.StartCameras? || c.StopCameras?)
    requires IsCommandAllowed(c, s.system, Commander)
    ensures Inv(s.Handle(Commander, c).0)
  {
    if c.Unconfigure? { UnconfigureEnds(s.fleet); }
    else if c.StartCameras? { StartAllOrNone(s.fleet, c.startHw, 0); }
    else { StopEnds(s.fleet); }
    hide Consistent, StartFrom, StoppedAll, UnconfiguredAll;
  }

  lemma FleetKeeps(s: Server, found: nat, lens: Option<int>, exposure: Option<int>, duration: Option<int>)
    requires Agreement(s)
    ensures Agreement(s.Set(lens, exposure, duration).0)
    ensures Agreement(s.(fleet := Discovered(s.fleet, found)))
  {
  }

  lemma HandleKeeps(s: Server, role: Role, c: Command)
    requires Inv(s) && s.Of(role).connected
    ensures Inv(s.Handle(role, c).0)
  {
    if !IsCommandPermitted(c, role) {
    } else if c.Configure? {
      if s.system.Idle? { ConfigureKeeps(s, c.config, c.confHw); }
      hide Agreement, Server.HandleConfigure;
    } else if c.Unconfigure? || c.StartCameras? || c.StopCameras? {
      if IsCommandAllowed(c, s.system, Commander) { LifecycleKeeps(s, c); }
    } else {
      FleetKeeps(s, if c.Discover? then c.found else 0,
                 if c.SetLensPosition? then c.lens else None,
                 if c.SetExposureTime? then c.exposure else None,
                 if c.SetFrameDuration? then c.duration else None);
      hide Consistent, AllIn, AnyRunning;
    }
  }

  lemma StepKeeps(s: Server, e: Event)
    requires Inv(s) && Possible(s, e)
    ensures Inv(Step(s, e))
  {
    hide Consistent, AllIn, AnyRunning;
    if e.Message? {
      HandleKeeps(s, e.role, e.command);
      hide Inv, Server.Handle;
    }
  }

  lemma {:induction false} RunKeeps(s: Server, es: seq<Event>)
    requires Inv(s) && IsRun(s, es)
    ensures Inv(After(s, es))
    decreases |es|
  {
    hide Inv, Step, Possible;
    if es != [] {
      StepKeeps(s, es[0]);
      RunKeeps(Step(s, es[0]), es[1..]);
    }
  }

  lemma BootHolds()
    ensures Inv(Boot())
  {
  }

  // ---- lifecycle ------------------------------------------------------------------------

  /** After any sequence of events, with any hardware: the system state and the
      camera states agree, a camera holds its libcamera handle exactly while it is
      not idle, capture, the processor's session and the watchdog run together, and
      frames are processed only while they do. */
  lemma LifecycleAgreement(es: seq<Event>)
    requires IsRun(Boot(), es)
    ensures var s := After(Boot(), es);
            && (s.system.Running? ==> s.fleet != [] && AllIn(s.fleet, Running))
            && (s.system.Configured? ==> s.fleet != [] && AllIn(s.fleet, Configured))
            && (s.system.Idle? ==> !AnyRunning(s.fleet))
            && s.session.Some? == s.watchdog == s.system.Running?
            && (s.Processing() ==> s.system.Running?)
            && (s.system.Running? && !s.Processing() ==> s.session == Some(NoMode))
            && (forall i :: 0 <= i < |s.fleet| ==>
                  && s.fleet[i].acquires - s.fleet[i].releases == (if s.fleet[i].state.Idle? then 0 else 1)
                  && s.fleet[i].streaming == s.fleet[i].connected == s.fleet[i].state.Running?)
  {
    BootHolds();
    RunKeeps(Boot(), es);
  }

  /** At the end of the process every handle goes back. */
  lemma ShutdownReleases(es: seq<Event>, i: nat)
    requires IsRun(Boot(), es) && i < |After(Boot(), es).fleet|
    ensures var c := After(Boot(), es).fleet[i].Destroyed(); c.acquires == c.releases && !c.streaming
  {
    BootHolds();
    RunKeeps(Boot(), es);
    assert After(Boot(), es).fleet[i].Consistent();
  }

  // ---- streams --------------------------------------------------------------------------

  /** A commander is subscribed only while the cameras run; so stop_stream is
      refused outside RUNNING although its handler does not look at the state. */
  lemma CommanderStreamsOnlyRunning(es: seq<Event>, r: StreamRequest)
    requires IsRun(Boot(), es)
    ensures var s := After(Boot(), es);
            && (s.commander.subs != map[] ==> s.system.Running?)
            && (!s.system.Running? ==> s.Handle(Commander, StopStream(r)) == (s, Error))
  {
    BootHolds();
    RunKeeps(Boot(), es);
    hide Agreement, SessionOk;
  }

  /** While a client is connected its sender and its socket agree on backpressure;
      a client that is not connected has neither subscriptions nor a sender. */
  lemma SessionsAgree(es: seq<Event>, role: Role)
    requires IsRun(Boot(), es)
    ensures var c := After(Boot(), es).Of(role);
            && (c.connected ==> c.pressure == c.socketPressure && c.sink)
            && (!c.connected ==> c.subs == map[] && !c.active && !c.sink)
            && (c.subs != map[] ==> c.active)
  {
    BootHolds();
    RunKeeps(Boot(), es);
    hide Agreement;
  }

  lemma {:induction false} SomeRuns(f: Fleet, n: nat)
    requires 0 < n <= |f| && AllIn(f, Running)
    ensures RunningIds(f, n) != []
  {
    if n > 1 { SomeRuns(f, n - 1); }
  }

  /** A trigger that names no camera goes to every running one, each once, in order. */
  lemma {:induction false} RunningExactly(f: Fleet, n: nat)
    requires n <= |f|
    ensures var ids := RunningIds(f, n);
            && (forall i :: i in ids <==> 0 <= i < n && f[i].state.Running?)
            && (forall j, k :: 0 <= j < k < |ids| ==> ids[j] < ids[k])
  {
    if n > 0 {
      RunningExactly(f, n - 1);
      var rest := RunningIds(f, n - 1);
      forall j | 0 <= j < |rest| ensures rest[j] < n - 1 { assert rest[j] in rest; }
    }
  }

  /** The trigger names no camera, or, cut down to 32 bits, a known one. */
  predicate Names(t: TriggerTarget, cameras: nat) {
    t.OneCamera? ==> 0 <= t.cameraId && t.cameraId % 0x1_0000_0000 < cameras
  }

  /** In every reachable state a commander's trigger, on all cameras or on one, is accepted
      if and only if the cameras run, it names none that is unknown, the configured mode is
      TRIGGER, the session was not started in mode NONE and no other trigger is pending;
      otherwise it is an error, and asking changes nothing. */
  lemma TriggerAcceptedExactly(es: seq<Event>, target: TriggerTarget, busy: bool)
    requires IsRun(Boot(), es)
    ensures var s := After(Boot(), es); var (t, r) := s.Handle(Commander, TriggerCapture(target, busy));
            && t == s && (r.Later? || r.Error?)
            && (r.Later? <==> && s.system.Running? && Names(target, |s.fleet|)
                              && s.mode.Trigger? && s.session != Some(NoMode) && !busy)
  {
    LifecycleAgreement(es);
    var s := After(Boot(), es);
    hide IsRun, After;
    if s.system.Running? { SomeRuns(s.fleet, |s.fleet|); }
  }

  predicate SetsFlag(e: Event, role: Role) { e.Message? && e.role == role && e.command.SetHeaderOnly? }

  lemma OtherCommands(s: Server, role: Role, c: Command)
    requires !c.StartStream? && !c.StopStream? && !c.StopCameras? && !c.SetHeaderOnly?
    ensures s.Handle(role, c).0.commander == s.commander && s.Handle(role, c).0.observer == s.observer
  {
    hide Server.HandleConfigure, Server.HandleUnconfigure, Server.HandleStartCameras, Server.Set, Discovered;
  }

  lemma FlagStep(s: Server, e: Event, role: Role)
    requires Possible(s, e) && !SetsFlag(e, role)
    ensures Step(s, e).Of(role).headerOnly == s.Of(role).headerOnly
  {
    if e.Message? {
      var c := e.command;
      if c.StartStream? || c.StopStream? || c.StopCameras? || c.SetHeaderOnly? {
        hide IsCommandAllowed, StoppedAll;
      } else {
        OtherCommands(s, e.role, c);
        hide Server.Handle;
      }
    }
  }

  /** The last value the role set, if it ever did. */
  function LastFlag(es: seq<Event>, role: Role): Option<bool> {
    if es == [] then None
    else
      var later := LastFlag(es[1..], role);
      if later.Some? then later
      else if SetsFlag(es[0], role) then es[0].command.flag
      else None
  }

  lemma FlagSet(s: Server, e: Event, role: Role)
    requires Possible(s, e) && SetsFlag(e, role)
    ensures Step(s, e).Of(role).headerOnly ==
            if e.command.flag.Some? then e.command.flag.value else s.Of(role).headerOnly
  {
  }

  /** A role's header-only flag is what its own set_header_only last made it, over
      every connection, start and stop in between. */
  lemma {:induction false} HeaderOnlyIsLast(s: Server, es: seq<Event>, role: Role)
    requires IsRun(s, es)
    ensures After(s, es).Of(role).headerOnly ==
            var last := LastFlag(es, role); if last.Some? then last.value else s.Of(role).headerOnly
    decreases |es|
  {
    hide Step, Possible;
    if es != [] {
      if SetsFlag(es[0], role) { FlagSet(s, es[0], role); } else { FlagStep(s, es[0], role); }
      HeaderOnlyIsLast(Step(s, es[0]), es[1..], role);
    }
  }

  /** A new connection starts with the flag off if and only if the role's last
      set_header_only was off or there was none. */
  lemma NewConnectionFlag(es: seq<Event>, role: Role)
    requires IsRun(Boot(), es) && !After(Boot(), es).Of(role).connected
    ensures var s := Step(After(Boot(), es), Connect(role));
            && s.Of(role).connected
            && (!s.Of(role).headerOnly <==> LastFlag(es, role) != Some(true))
  {
    HeaderOnlyIsLast(Boot(), es, role);
  }

  /** So the second client can inherit the first one's flag. */
  lemma SecondClientInherits(role: Role) returns (es: seq<Event>)
    ensures es == [Connect(role), Message(role, SetHeaderOnly(Some(true))), Disconnect(role)]
    ensures IsRun(Boot(), es)
    ensures var s := After(Boot(), es); !s.Of(role).connected && Step(s, Connect(role)).Of(role).headerOnly
  {
    es := [Connect(role), Message(role, SetHeaderOnly(Some(true))), Disconnect(role)];
    ThreeSteps(Boot(), es[0], es[1], es[2]);
  }

  // ---- backpressure ----------------------------------------------------------------------

  predicate Raises(e: Event, role: Role) { e.Drained? && e.role == role && e.buffered > HIGH_WATER }

  predicate Lowers(e: Event, role: Role) { e.Drained? && e.role == role && e.buffered <= LOW_WATER }

  /** The last drain of the role outside the band between the marks. */
  function LastMark(es: seq<Event>, role: Role): Option<bool> {
    if es == [] then None
    else
      var later := LastMark(es[1..], role);
      if later.Some? then later
      else if Raises(es[0], role) then Some(true)
      else if Lowers(es[0], role) then Some(false)
      else None
  }

  lemma PressureStep(s: Server, e: Event, role: Role)
    requires Possible(s, e) && e != Connect(role)
    ensures Step(s, e).Of(role).socketPressure ==
            if Raises(e, role) then true else if Lowers(e, role) then false
            else s.Of(role).socketPressure
  {
    if e.Message? {
      var c := e.command;
      if c.StartStream? || c.StopStream? || c.StopCameras? || c.SetHeaderOnly? {
        hide IsCommandAllowed, StoppedAll;
      } else {
        OtherCommands(s, e.role, c);
        hide Server.Handle;
      }
    }
  }

  /** Hysteresis over a whole connection: whatever happens in between, the flag is
      up if and only if the last drain that left the band between the marks was
      above the high one. */
  lemma {:induction false} HysteresisExactly(s: Server, es: seq<Event>, role: Role)
    requires IsRun(s, es) && Connect(role) !in es
    ensures After(s, es).Of(role).socketPressure ==
            var last := LastMark(es, role); if last.Some? then last.value else s.Of(role).socketPressure
    decreases |es|
  {
    hide Step, Possible;
    if es != [] {
      PressureStep(s, es[0], role);
      HysteresisExactly(Step(s, es[0]), es[1..], role);
    }
  }

  // ---- the observer -----------------------------------------------------------------------

  predicate AllBy(es: seq<Event>, role: Role) { forall i :: 0 <= i < |es| ==> es[i].role == role }

  /** Nothing but the observer's own session, and the discovery cache while it is
      still empty, differs. */
  predicate Harmless(s: Server, t: Server) {
    && t == s.(observer := t.observer, fleet := t.fleet)
    && (t.fleet == s.fleet || (s.fleet == [] && forall i :: 0 <= i < |t.fleet| ==> t.fleet[i] == NewCam()))
  }

  lemma ObserverStep(s: Server, e: Event)
    requires Possible(s, e) && e.role.Observer?
    ensures Harmless(s, Step(s, e))
  {
  }

  /** Whatever an observer does, in whatever order, changes neither the system
      state nor the processing mode, no camera that was known, and nothing of the
      commander's session. */
  lemma {:induction false} ObserverIsHarmless(s: Server, es: seq<Event>)
    requires IsRun(s, es) && AllBy(es, Observer)
    ensures Harmless(s, After(s, es))
    decreases |es|
  {
    hide Step, Possible;
    if es != [] {
      ObserverStep(s, es[0]);
      ObserverIsHarmless(Step(s, es[0]), es[1..]);
    }
  }

  // ---- a failed configuration ---------------------------------------------------------------

  /** Some camera is configured although the system is idle. */
  predicate Stuck(s: Server) { s.system.Idle? && exists i :: 0 <= i < |s.fleet| && !s.fleet[i].state.Idle? }

  lemma StuckStep(s: Server, e: Event)
    requires Inv(s) && Stuck(s) && Possible(s, e)
    ensures Stuck(Step(s, e))
  {
    var k :| 0 <= k < |s.fleet| && !s.fleet[k].state.Idle?;
    if e.Message? && e.command.Configure? {
      ConfigureBlocked(s.fleet, e.command.config, e.command.confHw, 0, k);
      var f := ConfiguredAll(s.fleet, e.command.config, e.command.confHw).0;
      assert !f[k].state.Idle?;
    } else {
      assert !Step(s, e).fleet[k].state.Idle?;
    }
  }

  lemma {:induction false} StuckForever(s: Server, es: seq<Event>)
    requires Inv(s) && Stuck(s) && IsRun(s, es)
    ensures Stuck(After(s, es))
    decreases |es|
  {
    hide Inv, Stuck, Step, Possible;
    if es != [] {
      StepKeeps(s, es[0]);
      StuckStep(s, es[0]);
      StuckForever(Step(s, es[0]), es[1..]);
    }
  }

  /** A `configure` that fails at camera `n` leaves cameras 0 to `n - 1` configured
      and the rest idle, in a system that stays IDLE. */
  lemma PartialConfigure(s: Server, config: nat, hw: nat -> Hardware) returns (n: nat)
    requires Inv(s) && s.system.Idle? && s.fleet != [] && AllIn(s.fleet, Idle)
    ensures n <= |s.fleet|
    ensures var (t, reply) := s.Handle(Commander, Configure(config, hw));
            && |t.fleet| == |s.fleet|
            && (forall j :: 0 <= j < n ==> t.fleet[j].state.Configured?)
            && (forall j :: n <= j < |s.fleet| ==> t.fleet[j].state.Idle?)
            && t.system == (if n == |s.fleet| then Configured else Idle)
            && (Stuck(t) <==> 0 < n < |s.fleet|)
  {
    n := ConfigureSplits(s.fleet, config, hw, 0);
    var t := s.Handle(Commander, Configure(config, hw)).0;
    hide ConfigureFrom;
    if 0 < n { assert !t.fleet[0].state.Idle?; }
  }

  // ---- the way out ----------------------------------------------------------------------------

  function Good(): Hardware {
    Hardware(true, true, true, true, None, true, true, true, 0, i => true, true, i => true)
  }

  function Bad(): Hardware { Good().(acquires := false) }

  function SecondFails(i: nat): Hardware { if i == 0 then Good() else Bad() }

  ghost predicate Reaches(s: Server, es: seq<Event>, state: CameraState) {
    IsRun(s, es) && After(s, es).system == state
  }

  lemma ThreeSteps(s: Server, a: Event, b: Event, c: Event)
    requires Possible(s, a) && Possible(Step(s, a), b) && Possible(Step(Step(s, a), b), c)
    ensures IsRun(s, [a, b, c]) && After(s, [a, b, c]) == Step(Step(Step(s, a), b), c)
  {
    hide Step, Possible;
    var t := Step(s, a);
    var u := Step(t, b);
    assert [a, b, c][1..] == [b, c] && [b, c][1..] == [c] && [c][1..] == [];
    var v := Step(u, c);
    assert IsRun(v, []) && After(v, []) == v;
    assert IsRun(u, [c]) && After(u, [c]) == v;
    assert IsRun(t, [b, c]) && After(t, [b, c]) == v;
  }

  /** Connecting and discovering leave the system idle and find a camera. */
  lemma Prepared(s: Server, found: nat)
    requires Inv(s) && s.system.Idle? && 0 < found
    ensures var t := Step(s, Connect(Commander));
            var u := Step(t, Message(Commander, Discover(found)));
            && t.commander.connected && u.commander.connected
            && u.system.Idle? && u.fleet == Discovered(s.fleet, found) && u.fleet != []
  {
  }

  /** An idle system can still be configured if and only if no camera was left
      configured by a failed attempt. */
  lemma ConfigurableExactly(s: Server)
    requires Inv(s) && s.system.Idle?
    ensures (exists es :: Reaches(s, es, Configured)) <==> !Stuck(s)
  {
    if Stuck(s) {
      forall es | Reaches(s, es, Configured) ensures false {
        StuckForever(s, es);
      }
    } else {
      var a, b, c := Connect(Commander), Message(Commander, Discover(1)),
                     Message(Commander, Configure(0, i => Good()));
      Prepared(s, 1);
      var u := Step(Step(s, a), b);
      StepKeeps(s, a);
      StepKeeps(Step(s, a), b);
      assert AllIn(u.fleet, Idle);
      AllGood(u.fleet, 0, 0);
      ThreeSteps(s, a, b, c);
      assert Reaches(s, [a, b, c], Configured);
    }
  }

  lemma {:induction false} AllGood(f: Fleet, config: nat, i: nat)
    requires i <= |f| && forall j :: i <= j < |f| ==> f[j].state.Idle?
    ensures ConfigureFrom(f, config, k => Good(), i).1
    decreases |f| - i
  {
    if i < |f| {
      var c := f[i].(settings := f[i].settings.(config := config)).Configure(Good());
      assert c.1;
      AllGood(f[i := c.0], config, i + 1);
    }
  }

  /** It takes one camera that fails behind one that does not. */
  lemma StuckIsReachable() returns (es: seq<Event>)
    ensures IsRun(Boot(), es) && Stuck(After(Boot(), es))
  {
    var hw := SecondFails;
    var a, b, c := Connect(Commander), Message(Commander, Discover(2)),
                   Message(Commander, Configure(0, hw));
    assert hw(0) == Good() && hw(1) == Bad();
    BootHolds();
    Prepared(Boot(), 2);
    ThreeSteps(Boot(), a, b, c);
    es := [a, b, c];
    var u := Step(Step(Boot(), a), b);
    assert u.fleet == [NewCam(), NewCam()];
    var first := u.fleet[0].(settings := u.fleet[0].settings.(config := 0)).Configure(hw(0));
    assert first.1 && first.0.state.Configured?;
    var f := u.fleet[0 := first.0];
    var second := f[1].(settings := f[1].settings.(config := 0)).Configure(hw(1));
    assert !second.1;
    assert ConfigureFrom(f, 0, hw, 1) == (f[1 := second.0], false);
    assert ConfigureFrom(u.fleet, 0, hw, 0) == (f[1 := second.0], false);
    assert !After(Boot(), es).fleet[0].state.Idle?;
  }
}
