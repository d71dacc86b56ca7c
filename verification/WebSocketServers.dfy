/** The server as the object it is in the source: one event loop that calls these
    methods one after the other. Each is tied to the step of module Servers that
    the theorems are about. */
module WebSocketServers {
  import opened Types
  import opened Cameras
  import opened Fleets
  import opened Servers

  class WebSocketServer {
    const manager: CameraManager
    var systemState: CameraState
    var mode: ProcessMode
    var session: Option<ProcessMode>
    var watchdog: bool
    var commander: Session
    var observer: Session

    ghost predicate Valid()
      reads this, manager
    {
      manager.Valid()
    }

    ghost function View(): Server
      reads this, manager, manager.cameras
    {
      Server(systemState, manager.View(), mode, session, watchdog, commander, observer)
    }

    constructor ()
      ensures Valid() && View() == Boot() && fresh(manager)
    {
      manager := new CameraManager();
      systemState, mode, session, watchdog := Idle, NoMode, None, false;
      commander, observer := Empty(), Empty();
    }

    method SessionOf(role: Role) returns (s: Session)
      ensures s == View().Of(role)
    {
      s := if role.Commander? then commander else observer;
    }

    method SetSession(role: Role, s: Session)
      modifies this`commander, this`observer
      ensures View() == old(View()).With(role, s)
    {
      if role.Commander? { commander := s; } else { observer := s; }
    }

    method HandleConfigure(config: nat, hw: nat -> Hardware) returns (r: Reply)
      requires Valid()
      modifies this`systemState, manager.cameras
      ensures Valid() && (View(), r) == old(View()).HandleConfigure(config, hw)
    {
      var ok := manager.ConfigureAll(config, hw);
      if !ok { return Error; }
      systemState := Configured;
      return Status;
    }

    method HandleUnconfigure() returns (r: Reply)
      requires Valid()
      modifies this`systemState, manager.cameras
      ensures Valid() && (View(), r) == old(View()).HandleUnconfigure()
    {
      var ok := manager.UnconfigureAll();
      if !ok { return Error; }
      systemState := Idle;
      return Status;
    }

    /** The processor is started first; every refusal behind that stops it again. */
    method HandleStartCameras(feasible: bool, hw: nat -> Hardware) returns (r: Reply)
      requires Valid() && session.None?
      modifies this`systemState, this`session, this`watchdog, manager.cameras
      ensures Valid() && (View(), r) == old(View()).HandleStartCameras(feasible, hw)
    {
      session := Some(mode);
      if !feasible {
        session := None;
        return Error;
      }
      var ok := manager.StartAll(hw);
      if !ok {
        session := None;
        return Error;
      }
      systemState, watchdog := Running, true;
      return Status;
    }

    method HandleStopCameras() returns (r: Reply)
      requires Valid()
      modifies this`systemState, this`session, this`watchdog, this`commander, manager.cameras
      ensures Valid() && (View(), r) == old(View()).HandleStopCameras()
    {
      watchdog := false;
      commander := commander.StopAllStreaming();
      var ok := manager.StopAll();
      session := None;
      systemState := Configured;
      return Status;
    }

    method HandleStartStream(role: Role, request: StreamRequest) returns (r: Reply)
      requires Valid()
      modifies this`commander, this`observer
      ensures Valid() && (View(), r) == old(View()).HandleStartStream(role, request)
    {
      if request.BadRequest? { return Error; }
      if request.Camera() >= |manager.cameras| { return Error; }
      var s := SessionOf(role);
      SetSession(role, s.Subscribe(request.Camera(), request.options));
      return Status;
    }

    method HandleStopStream(role: Role, request: StreamRequest) returns (r: Reply)
      requires Valid()
      modifies this`commander, this`observer
      ensures Valid() && (View(), r) == old(View()).HandleStopStream(role, request)
    {
      if request.BadRequest? { return Error; }
      var s := SessionOf(role);
      if request.Camera() !in s.subs { return Error; }
      SetSession(role, s.Unsubscribe(request.Camera()));
      return Status;
    }

    /** The cameras that run, for a trigger without a camera id. */
    method RunningCameras() returns (ids: seq<nat>)
      requires Valid()
      ensures ids == RunningIds(manager.View(), |manager.View()|)
    {
      ids := [];
      var i := 0;
      while i < |manager.cameras|
        invariant i <= |manager.cameras| && ids == RunningIds(manager.View(), i)
      {
        if manager.cameras[i].state.Running? { ids := ids + [i]; }
        i := i + 1;
      }
    }

    method HandleTriggerCapture(target: TriggerTarget, busy: bool) returns (r: Reply)
      requires Valid()
      ensures (View(), r) == View().HandleTriggerCapture(target, busy)
    {
      if !mode.Trigger? { return Error; }
      var ids: seq<nat>;
      if target.OneCamera? {
        if target.cameraId < 0 { return Error; }
        var id := target.cameraId % 0x1_0000_0000;
        if id >= |manager.cameras| || !manager.cameras[id].state.Running? { return Error; }
        ids := [id];
      } else {
        ids := RunningCameras();
        if ids == [] { return Error; }
      }
      var enabled := session.Some? && !session.value.NoMode?;
      return if enabled && !busy then Later else Error;
    }

    /** The fan-out of one of the three capture controls. */
    method HandleSet(lens: Option<int>, exposure: Option<int>, duration: Option<int>) returns (r: Reply)
      requires Valid()
      modifies manager.cameras
      ensures Valid() && (View(), r) == old(View()).Set(lens, exposure, duration)
    {
      if lens.None? && exposure.None? && duration.None? { return Error; }
      var i := 0;
      ghost var wanted := WithSettings(old(manager.View()), lens, exposure, duration);
      while i < |manager.cameras|
        invariant i <= |manager.cameras|
        invariant forall j :: 0 <= j < i ==> manager.cameras[j].View() == wanted[j]
        invariant forall j :: i <= j < |manager.cameras| ==>
                    manager.cameras[j].View() == old(manager.View())[j]
      {
        var s := manager.cameras[i].settings;
        manager.cameras[i].SetSettings(
          s.(lens := Pick(lens, s.lens), exposure := Pick(exposure, s.exposure),
             duration := Pick(duration, s.duration)));
        i := i + 1;
      }
      assert manager.View() == wanted;
      return Status;
    }

    /** The dispatch of one text message. */
    method OnMessage(role: Role, c: Command) returns (r: Reply)
      requires Valid() && (session.Some? ==> systemState.Running?)
      modifies this, manager, manager.cameras
      ensures Valid() && (View(), r) == old(View()).Handle(role, c)
    {
      if !IsCommandPermitted(c, role) { return Forbidden; }
      if !c.StopStream? && !IsCommandAllowed(c, systemState, role) { return Error; }
      hide *;
      r := Dispatch(role, c);
    }

    /** The handler of a command that passed the gates. */
    method Dispatch(role: Role, c: Command) returns (r: Reply)
      requires Valid() && (session.Some? ==> systemState.Running?)
      requires IsCommandPermitted(c, role) && (c.StopStream? || IsCommandAllowed(c, systemState, role))
      modifies this, manager, manager.cameras
      ensures Valid() && (View(), r) == old(View()).Handle(role, c)
    {
      hide Server.HandleConfigure, Server.HandleUnconfigure, Server.HandleStartCameras,
           Server.HandleStopCameras, Server.HandleStartStream, Server.HandleStopStream, Server.Set,
           Server.HandleTriggerCapture, Discovered, IsCommandPermitted;
      match c {
        case Malformed => r := Error;
        case Discover(found) => manager.DiscoverCameras(found); r := Info;
        case Configure(config, hw) => r := HandleConfigure(config, hw);
        case Unconfigure => r := HandleUnconfigure();
        case SetProcessMode(None) => r := Error;
        case SetProcessMode(Some(m)) => mode := m; r := Status;
        case StartCameras(feasible, hw) => r := HandleStartCameras(feasible, hw);
        case StopCameras => r := HandleStopCameras();
        case StartStream(q) => r := HandleStartStream(role, q);
        case StopStream(q) => r := HandleStopStream(role, q);
        case ResetFrameCounts => r := Status;
        case SetHeaderOnly(None) => r := Error;
        case SetHeaderOnly(Some(b)) =>
          var s := SessionOf(role);
          SetSession(role, s.(headerOnly := b));
          r := Status;
        case SetLensPosition(v) => r := HandleSet(v, None, None);
        case SetExposureTime(v) => r := HandleSet(None, v, None);
        case SetFrameDuration(v) => r := HandleSet(None, None, v);
        case TriggerCapture(target, busy) => r := HandleTriggerCapture(target, busy);
        case GetFocusRegion(known) => r := if known then Info else Error;
        case GetState | GetLimits => r := Info;
      }
    }

    /** Nothing but the role's own session differs from `before`. */
    ghost predicate OnlySession(before: Server, role: Role)
      reads this, manager, manager.cameras
    {
      View() == before.With(role, View().Of(role))
    }

    /** `upgrade` and `open`; false is the 503 reply, which changes nothing. The new
        client starts without backpressure and takes over what its predecessor
        left: the header-only flag, and subscriptions if there were any, which its
        sender then serves at once. */
    method OnConnect(role: Role) returns (accepted: bool)
      requires Valid()
      modifies this`commander, this`observer
      ensures Valid() && View() == Step(old(View()), Connect(role)) && OnlySession(old(View()), role)
      ensures accepted <==> !old(View()).Of(role).connected
      ensures !accepted ==> View() == old(View())
      ensures accepted ==>
                var before, now := old(View()).Of(role), View().Of(role);
                && now.connected && now.sink && !now.pressure && !now.socketPressure
                && now.subs == before.subs && now.headerOnly == before.headerOnly
                && (now.active <==> before.active || before.subs != map[])
    {
      var s := SessionOf(role);
      if s.connected { return false; }
      s := s.(connected := true, sink := true);
      s := s.(pressure := false, socketPressure := false);
      if !s.active && s.subs != map[] { s := s.(active := true); }
      SetSession(role, s);
      return true;
    }

    /** `drain`: the flag rises above the high mark, falls at or below the low one,
        and stays in between; the sender is told whenever it changes. */
    method OnDrain(role: Role, buffered: nat)
      requires Valid() && View().Of(role).connected
      modifies this`commander, this`observer
      ensures Valid() && View() == Step(old(View()), Drained(role, buffered)) && OnlySession(old(View()), role)
      ensures var before, now := old(View()).Of(role), View().Of(role);
              && now.socketPressure == (if buffered > HIGH_WATER then true
                                        else if buffered <= LOW_WATER then false
                                        else before.socketPressure)
              && now.pressure == (if now.socketPressure == before.socketPressure then before.pressure
                                  else now.socketPressure)
    {
      var s := SessionOf(role);
      var pressed := if s.socketPressure then buffered > LOW_WATER else buffered > HIGH_WATER;
      if pressed != s.socketPressure {
        s := s.(socketPressure := pressed, pressure := pressed);
      }
      SetSession(role, s);
    }

    /** `close`: the role's slot is free again, without subscription, sender or sink. */
    method OnClose(role: Role)
      requires Valid() && View().Of(role).connected
      modifies this`commander, this`observer
      ensures Valid() && View() == Step(old(View()), Disconnect(role)) && OnlySession(old(View()), role)
      ensures var now := View().Of(role);
              now.subs == map[] && !now.sink && !now.connected && !now.active
      ensures View().Of(role).headerOnly == old(View()).Of(role).headerOnly
    {
      var s := SessionOf(role);
      s := s.(subs := map[]);
      if s.active { s := s.(active := false); }
      s := s.(sink := false);
      s := s.(connected := false);
      SetSession(role, s);
    }
  }
}
