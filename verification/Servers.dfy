/** The server's command handlers on their one event loop
    (src/websocket_server.cpp:64-304, 392-437, 538-729, 1010-1038), the gates in
    front of them (src/command_parser.cpp:86-145) and the parts of a streaming
    session the handlers touch (src/stream_manager.cpp:44-190).

    JSON parsing is left to `Malformed` and the `Bad` requests, the capacity
    estimate to the `feasible` flag of start_cameras. */
module Servers {
  import opened Types
  import opened Cameras
  import opened Fleets

  datatype Role = Commander | Observer

  datatype StreamRequest = BadRequest | StreamRequest(cameraId: nat, options: nat)
  {
    /** The 64-bit id of the message, cast to 32 bits. */
    function Camera(): u32
      requires StreamRequest?
    {
      cameraId % 0x1_0000_0000
    }
  }

  /** The optional camera id of trigger_capture, a signed 64-bit number. */
  datatype TriggerTarget = AllCameras | OneCamera(cameraId: int)

  /** `busy` says whether a trigger is pending in the frame processor. */
  datatype Command =
    | Malformed
    | Discover(found: nat)
    | GetState
    | Configure(config: nat, confHw: nat -> Hardware)
    | Unconfigure
    | SetProcessMode(mode: Option<ProcessMode>)
    | TriggerCapture(target: TriggerTarget, busy: bool)
    | StartCameras(feasible: bool, startHw: nat -> Hardware)
    | StopCameras
    | StartStream(start: StreamRequest)
    | StopStream(stop: StreamRequest)
    | ResetFrameCounts
    | SetHeaderOnly(flag: Option<bool>)
    | SetLensPosition(lens: Option<int>)
    | SetExposureTime(exposure: Option<int>)
    | SetFrameDuration(duration: Option<int>)
    | GetLimits
    | GetFocusRegion(known: bool)

  /** `Later`: no answer now, the result follows when the trigger is complete. */
  datatype Reply = Status | Info | Error | Forbidden | Later

  predicate IsCommandPermitted(c: Command, role: Role) {
    if role.Commander? then true
    else
      match c
      case Malformed | Discover(_) | GetState | StartStream(_) | StopStream(_) | SetHeaderOnly(_)
           | GetLimits | GetFocusRegion(_) => true
      case _ => false
  }

  predicate IsCommandAllowed(c: Command, s: CameraState, role: Role) {
    match c
    case Malformed | Discover(_) | GetState | SetProcessMode(_) | ResetFrameCounts | SetHeaderOnly(_) => true
    case Configure(_, _) => s.Idle?
    case Unconfigure | StartCameras(_, _) => s.Configured?
    case StartStream(_) | StopStream(_) => role.Observer? || s.Running?
    case StopCameras | TriggerCapture(_, _) => s.Running?
    case _ => s.Configured? || s.Running?
  }

  // ---- a client's session -----------------------------------------------------------

  const HIGH_WATER: nat := 512 * 1024
  const LOW_WATER: nat := 128 * 1024

  /** `pressure` is the sender's flag, `socketPressure` the drain handler's. */
  datatype Session = Session(
    connected: bool, sink: bool, subs: map<u32, nat>, headerOnly: bool,
    active: bool, pressure: bool, socketPressure: bool)
  {
    function Open(): Session {
      this.(connected := true, sink := true, pressure := false, socketPressure := false,
            active := active || subs != map[])
    }

    function Close(): Session {
      StopAllStreaming().(sink := false, connected := false)
    }

    function Subscribe(camera: u32, options: nat): Session {
      this.(subs := subs[camera := options], active := active || sink)
    }

    function Unsubscribe(camera: u32): Session { this.(subs := subs - {camera}) }

    function StopAllStreaming(): Session { this.(subs := map[], active := false) }

    function Pressed(buffered: nat): bool {
      buffered > (if socketPressure then LOW_WATER else HIGH_WATER)
    }

    function Drain(buffered: nat): Session {
      if Pressed(buffered) == socketPressure then this
      else this.(socketPressure := Pressed(buffered), pressure := Pressed(buffered))
    }
  }

  // ---- the server -------------------------------------------------------------------

  /** `mode` is the configured processing mode; `session` the one the frame
      processor was started in, while it has not been stopped since. */
  datatype Server = Server(
    system: CameraState, fleet: Fleet, mode: ProcessMode, session: Option<ProcessMode>, watchdog: bool,
    commander: Session, observer: Session)
  {
    /** The processor takes frames: `start` in mode NONE leaves it disabled. */
    predicate Processing() { session.Some? && !session.value.NoMode? }

    function Of(role: Role): Session { if role.Commander? then commander else observer }

    function With(role: Role, s: Session): Server {
      if role.Commander? then this.(commander := s) else this.(observer := s)
    }

    function HandleConfigure(config: nat, hw: nat -> Hardware): (r: (Server, Reply))
      ensures r.0 == this.(fleet := r.0.fleet, system := r.0.system)
    {
      var (f, ok) := ConfiguredAll(fleet, config, hw);
      if ok then (this.(fleet := f, system := Configured), Status)
      else (this.(fleet := f), Error)
    }

    function HandleUnconfigure(): (r: (Server, Reply))
      ensures r.0 == this.(fleet := r.0.fleet, system := r.0.system)
    {
      var (f, ok) := UnconfiguredAll(fleet);
      if ok then (this.(fleet := f, system := Idle), Status) else (this.(fleet := f), Error)
    }

    function HandleStartCameras(feasible: bool, hw: nat -> Hardware): (r: (Server, Reply))
      ensures r.0.commander == commander && r.0.observer == observer && r.0.mode == mode
    {
      if !feasible then (this, Error)
      else
        var (f, ok) := StartFrom(fleet, hw, 0);
        if ok then (this.(fleet := f, system := Running, session := Some(mode), watchdog := true), Status)
        else (this.(fleet := f), Error)
    }

    function HandleStopCameras(): (Server, Reply) {
      (this.(watchdog := false, commander := commander.StopAllStreaming(),
             fleet := StoppedAll(fleet), session := None, system := Configured), Status)
    }

    function HandleStartStream(role: Role, r: StreamRequest): (Server, Reply) {
      if r.BadRequest? || r.Camera() >= |fleet| then (this, Error)
      else (With(role, Of(role).Subscribe(r.Camera(), r.options)), Status)
    }

    function HandleStopStream(role: Role, r: StreamRequest): (Server, Reply) {
      if r.BadRequest? || r.Camera() !in Of(role).subs then (this, Error)
      else (With(role, Of(role).Unsubscribe(r.Camera())), Status)
    }

    /** `armTrigger` looks at the configured mode and whether the processor takes
        frames, not at the mode it was started in. */
    function HandleTriggerCapture(target: TriggerTarget, busy: bool): (Server, Reply) {
      if !mode.Trigger? then (this, Error)
      else if Targets(fleet, target) == [] then (this, Error)
      else if !Processing() || busy then (this, Error)
      else (this, Later)
    }

    function Set(lens: Option<int>, exposure: Option<int>, duration: Option<int>): (r: (Server, Reply))
      ensures r.0 == this.(fleet := r.0.fleet)
    {
      if lens.None? && exposure.None? && duration.None? then (this, Error)
      else (this.(fleet := WithSettings(fleet, lens, exposure, duration)), Status)
    }

    /** The dispatch of one text message. `handleStopStream` has no state test. */
    function Handle(role: Role, c: Command): (Server, Reply) {
      if !IsCommandPermitted(c, role) then (this, Forbidden)
      else if !c.StopStream? && !IsCommandAllowed(c, system, role) then (this, Error)
      else
        match c
        case Malformed => (this, Error)
        case Discover(found) => (this.(fleet := Discovered(fleet, found)), Info)
        case Configure(config, hw) => HandleConfigure(config, hw)
        case Unconfigure => HandleUnconfigure()
        case SetProcessMode(None) => (this, Error)
        case SetProcessMode(Some(m)) => (this.(mode := m), Status)
        case StartCameras(feasible, hw) => HandleStartCameras(feasible, hw)
        case StopCameras => HandleStopCameras()
        case StartStream(r) => HandleStartStream(role, r)
        case StopStream(r) => HandleStopStream(role, r)
        case ResetFrameCounts => (this, Status)
        case SetHeaderOnly(None) => (this, Error)
        case SetHeaderOnly(Some(b)) => (With(role, Of(role).(headerOnly := b)), Status)
        case SetLensPosition(v) => Set(v, None, None)
        case SetExposureTime(v) => Set(None, v, None)
        case SetFrameDuration(v) => Set(None, None, v)
        case TriggerCapture(target, busy) => HandleTriggerCapture(target, busy)
        case GetFocusRegion(known) => (this, if known then Info else Error)
        case GetState | GetLimits => (this, Info)
    }
  }

  /** The running ones of the first `n` cameras. */
  function RunningIds(f: Fleet, n: nat): seq<nat>
    requires n <= |f|
  {
    if n == 0 then []
    else RunningIds(f, n - 1) + (if f[n - 1].state.Running? then [n - 1] else [])
  }

  /** The cameras a trigger is armed on, none if the request is refused. */
  function Targets(f: Fleet, target: TriggerTarget): seq<nat> {
    match target
    case AllCameras => RunningIds(f, |f|)
    case OneCamera(id) =>
      var c := id % 0x1_0000_0000;
      if id < 0 || c >= |f| || !f[c].state.Running? then [] else [c]
  }

  function Pick(o: Option<int>, d: int): int { if o.Some? then o.value else d }

  function WithSettings(f: Fleet, lens: Option<int>, exposure: Option<int>, duration: Option<int>): (g: Fleet)
    ensures |g| == |f|
  {
    seq(|f|, i requires 0 <= i < |f| =>
      f[i].(settings := f[i].settings.(lens := Pick(lens, f[i].settings.lens),
                                       exposure := Pick(exposure, f[i].settings.exposure),
                                       duration := Pick(duration, f[i].settings.duration))))
  }

  // ---- runs -------------------------------------------------------------------------------

  datatype Event =
    | Connect(role: Role)
    | Disconnect(role: Role)
    | Drained(role: Role, buffered: nat)
    | Message(role: Role, command: Command)

  /** A connection attempt is refused with 503 while the role's slot is taken. */
  predicate Possible(s: Server, e: Event) { !e.Connect? ==> s.Of(e.role).connected }

  function Step(s: Server, e: Event): Server
    requires Possible(s, e)
  {
    match e
    case Connect(r) => if s.Of(r).connected then s else s.With(r, s.Of(r).Open())
    case Disconnect(r) => s.With(r, s.Of(r).Close())
    case Drained(r, n) => s.With(r, s.Of(r).Drain(n))
    case Message(r, c) => s.Handle(r, c).0
  }

  function Empty(): Session { Session(false, false, map[], false, false, false, false) }

  function Boot(): Server { Server(Idle, [], NoMode, None, false, Empty(), Empty()) }

  predicate IsRun(s: Server, es: seq<Event>)
    decreases |es|
  {
    es == [] || (Possible(s, es[0]) && IsRun(Step(s, es[0]), es[1..]))
  }

  function After(s: Server, es: seq<Event>): Server
    requires IsRun(s, es)
    decreases |es|
  {
    if es == [] then s else After(Step(s, es[0]), es[1..])
  }
}
