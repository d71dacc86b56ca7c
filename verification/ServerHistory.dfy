/** What the answers say: which requests succeed, and what the successful ones of a run
    have made of subscriptions, modes and settings (src/websocket_server.cpp:114-215,
    392-730, src/stream_manager.cpp:77-158). */
module ServerHistory {
  import opened Types
  import opened Cameras
  import opened Fleets
  import opened Servers
  import opened ServerTheorems

  /** The event is a request of this role that is answered with success. */
  predicate Granted(s: Server, e: Event, role: Role) {
    e.Message? && e.role == role && s.Handle(role, e.command).1.Status?
  }

  // ---- subscriptions ----------------------------------------------------------------------

  /** What event `e` makes of the role's subscription to camera `c`: a granted start_stream
      of `c` sets its options; a granted stop_stream of `c`, a granted stop_cameras of the
      role itself and its disconnect end it. */
  function Subscribed(before: Option<nat>, s: Server, e: Event, role: Role, c: u32): Option<nat> {
    if e == Disconnect(role) then None
    else if !Granted(s, e, role) then before
    else
      match e.command
      case StartStream(StreamRequest(id, options)) => if id % 0x1_0000_0000 == c then Some(options) else before
      case StopStream(StreamRequest(id, _)) => if id % 0x1_0000_0000 == c then None else before
      case StopCameras => None
      case _ => before
  }

  function Subscription(before: Option<nat>, s: Server, es: seq<Event>, role: Role, c: u32): Option<nat>
    requires IsRun(s, es)
    decreases |es|
  {
    if es == [] then before
    else Subscription(Subscribed(before, s, es[0], role, c), Step(s, es[0]), es[1..], role, c)
  }

  function Options(subs: map<u32, nat>, c: u32): Option<nat> { if c in subs then Some(subs[c]) else None }

  lemma SubscribeStep(s: Server, e: Event, role: Role, c: u32)
    requires Possible(s, e)
    ensures Options(Step(s, e).Of(role).subs, c) == Subscribed(Options(s.Of(role).subs, c), s, e, role, c)
  {
    if e.Message? {
      var k := e.command;
      if k.StartStream? || k.StopStream? || k.StopCameras? || k.SetHeaderOnly? {
        hide StoppedAll;
      } else {
        OtherCommands(s, e.role, k);
        hide Server.Handle;
      }
    }
  }

  lemma {:induction false} SubscribedFrom(s: Server, es: seq<Event>, role: Role, c: u32)
    requires IsRun(s, es)
    ensures Options(After(s, es).Of(role).subs, c) == Subscription(Options(s.Of(role).subs, c), s, es, role, c)
    decreases |es|
  {
    hide Step, Possible, Options, Subscribed;
    if es != [] {
      SubscribeStep(s, es[0], role, c);
      SubscribedFrom(Step(s, es[0]), es[1..], role, c);
    }
  }

  /** In every run a role is subscribed to a camera, with these options, if and only if its
      last granted start or stop of that camera was a start with them, and it has neither
      disconnected nor, as the commander, stopped the cameras since. */
  lemma SubscribedExactly(es: seq<Event>, role: Role, c: u32, options: nat)
    requires IsRun(Boot(), es)
    ensures var subs := After(Boot(), es).Of(role).subs;
            c in subs && subs[c] == options <==> Subscription(None, Boot(), es, role, c) == Some(options)
  {
    SubscribedFrom(Boot(), es, role, c);
    hide IsRun, After, Subscription;
  }

  /** Nothing but the role's subscription to camera `c` and its sender differs. */
  ghost predicate OnlyCamera(s: Server, t: Server, role: Role, c: u32) {
    && t == s.With(role, s.Of(role).(subs := t.Of(role).subs, active := t.Of(role).active))
    && forall d: u32 :: d != c ==> Options(t.Of(role).subs, d) == Options(s.Of(role).subs, d)
  }

  /** start_stream succeeds exactly for a well-formed request that names a known camera,
      the commander's in RUNNING only; it touches nothing but the role's subscription to
      that camera and its sender, which runs from then on if there is a sink; an error
      touches nothing. */
  lemma StartStreamReply(s: Server, role: Role, q: StreamRequest)
    ensures var (t, r) := s.Handle(role, StartStream(q));
            && (r.Status? <==> && q.StreamRequest? && q.cameraId % 0x1_0000_0000 < |s.fleet|
                               && (role.Observer? || s.system.Running?))
            && (if r.Status? then && OnlyCamera(s, t, role, q.cameraId % 0x1_0000_0000)
                                  && t.Of(role).active == (s.Of(role).active || s.Of(role).sink)
                             else r.Error? && t == s)
  {
    var t := s.Handle(role, StartStream(q)).0;
    hide Options;
    if t != s {
      forall d: u32 | d != q.cameraId % 0x1_0000_0000
        ensures Options(t.Of(role).subs, d) == Options(s.Of(role).subs, d)
      {
        StartStreamKeeps(s, role, q, d);
      }
    }
  }

  lemma StartStreamKeeps(s: Server, role: Role, q: StreamRequest, d: u32)
    requires q.StreamRequest? && d != q.cameraId % 0x1_0000_0000
    ensures Options(s.Handle(role, StartStream(q)).0.Of(role).subs, d) == Options(s.Of(role).subs, d)
  {
    hide ConfiguredAll, UnconfiguredAll, StartFrom, StoppedAll, WithSettings, Discovered, Targets;
  }

  /** stop_stream succeeds exactly for a request that names a camera the role is
      subscribed to, and touches nothing but that subscription. */
  lemma StopStreamReply(s: Server, role: Role, q: StreamRequest)
    ensures var (t, r) := s.Handle(role, StopStream(q));
            && (r.Status? <==> q.StreamRequest? && q.cameraId % 0x1_0000_0000 in s.Of(role).subs)
            && (if r.Status? then && OnlyCamera(s, t, role, q.cameraId % 0x1_0000_0000)
                                  && t.Of(role).active == s.Of(role).active
                             else r.Error? && t == s)
  {
    var t := s.Handle(role, StopStream(q)).0;
    hide Options;
    if t != s {
      forall d: u32 | d != q.cameraId % 0x1_0000_0000
        ensures Options(t.Of(role).subs, d) == Options(s.Of(role).subs, d)
      {
        StopStreamKeeps(s, role, q, d);
      }
    }
  }

  lemma StopStreamKeeps(s: Server, role: Role, q: StreamRequest, d: u32)
    requires q.StreamRequest? && d != q.cameraId % 0x1_0000_0000
    ensures Options(s.Handle(role, StopStream(q)).0.Of(role).subs, d) == Options(s.Of(role).subs, d)
  {
    var t := s.Handle(role, StopStream(q)).0;
    assert t == s || t.Of(role).subs == s.Of(role).subs - {q.Camera()} by { hide Options; }
    hide Server.Handle;
  }

  // ---- modes, cameras and settings ------------------------------------------------------------

  /** The configured mode, the mode the running session was started in, how many cameras
      are known, and the three capture controls. */
  datatype Book = Book(mode: ProcessMode, session: Option<ProcessMode>, cameras: nat,
                       lens: int, exposure: int, duration: int)

  const BLANK := Book(NoMode, None, 0, -1, -1, 0)

  /** What a granted request writes into the book; discovery counts until it finds some. */
  function Noted(b: Book, s: Server, e: Event): Book {
    if !e.Message? then b
    else if e.command.Discover? then b.(cameras := if b.cameras == 0 then e.command.found else b.cameras)
    else if !Granted(s, e, Commander) then b
    else
      match e.command
      case SetProcessMode(Some(m)) => b.(mode := m)
      case StartCameras(_, _) => b.(session := Some(b.mode))
      case StopCameras => b.(session := None)
      case SetLensPosition(Some(v)) => b.(lens := v)
      case SetExposureTime(Some(v)) => b.(exposure := v)
      case SetFrameDuration(Some(v)) => b.(duration := v)
      case _ => b
  }

  function BookOf(b: Book, s: Server, es: seq<Event>): Book
    requires IsRun(s, es)
    decreases |es|
  {
    if es == [] then b else BookOf(Noted(b, s, es[0]), Step(s, es[0]), es[1..])
  }

  predicate Dialled(c: Cam, b: Book) {
    c.settings.lens == b.lens && c.settings.exposure == b.exposure && c.settings.duration == b.duration
  }

  predicate Kept(s: Server, b: Book) {
    && s.mode == b.mode && s.session == b.session && |s.fleet| == b.cameras
    && (forall i :: 0 <= i < |s.fleet| ==> Dialled(s.fleet[i], b))
    && (s.fleet == [] ==> b.lens == b.exposure == -1 && b.duration == 0)
  }

  lemma {:induction false} ConfigureDials(f: Fleet, config: nat, hw: nat -> Hardware, i: nat, b: Book)
    requires i <= |f| && forall j :: 0 <= j < |f| ==> Dialled(f[j], b)
    ensures var g := ConfigureFrom(f, config, hw, i).0;
            |g| == |f| && forall j :: 0 <= j < |g| ==> Dialled(g[j], b)
    decreases |f| - i
  {
    if i < |f| {
      var (c, ok) := f[i].(settings := f[i].settings.(config := config)).Configure(hw(i));
      assert Dialled(c, b);
      hide Cam.Configure;
      if ok { ConfigureDials(f[i := c], config, hw, i + 1, b); }
    }
  }

  lemma {:induction false} StartDials(f: Fleet, hw: nat -> Hardware, i: nat, b: Book)
    requires i <= |f| && forall j :: 0 <= j < |f| ==> Dialled(f[j], b)
    ensures var g := StartFrom(f, hw, i).0;
            |g| == |f| && forall j :: 0 <= j < |g| ==> Dialled(g[j], b)
    decreases |f| - i
  {
    if i < |f| {
      var (c, ok) := f[i].Start(hw(i));
      assert Dialled(c, b);
      hide Cam.Start;
      if ok { StartDials(f[i := c], hw, i + 1, b); }
    }
  }

  lemma BookStep(s: Server, b: Book, e: Event)
    requires Inv(s) && Kept(s, b) && Possible(s, e)
    ensures Kept(Step(s, e), Noted(b, s, e))
  {
    if e.Message? {
      var k := e.command;
      if k.Configure? || k.StartCameras? { LifecycleNoted(s, b, e); } else { RequestNoted(s, b, e); }
      hide Server.Handle, Inv, Kept;
    } else {
      hide Inv, Server.Handle, Session.Drain;
    }
  }

  lemma LifecycleNoted(s: Server, b: Book, e: Event)
    requires Kept(s, b) && e.Message? && (e.command.Configure? || e.command.StartCameras?)
    ensures Kept(s.Handle(e.role, e.command).0, Noted(b, s, e))
  {
    var k := e.command;
    if k.Configure? {
      ConfigureDials(s.fleet, k.config, k.confHw, 0, b);
    } else {
      StartDials(s.fleet, k.startHw, 0, b);
    }
    hide ConfigureFrom, StartFrom, AnyRunning;
  }

  lemma RequestNoted(s: Server, b: Book, e: Event)
    requires Inv(s) && Kept(s, b) && e.Message? && !e.command.Configure? && !e.command.StartCameras?
    ensures Kept(s.Handle(e.role, e.command).0, Noted(b, s, e))
  {
    var k := e.command;
    if k.SetLensPosition? || k.SetExposureTime? || k.SetFrameDuration? {
      ControlNoted(s, b, e);
    } else if k.Discover? || k.Unconfigure? || k.StopCameras? {
      hide ConfiguredAll, StartFrom, SessionOk, Consistent, WithSettings;
    } else {
      hide ConfiguredAll, StartFrom, SessionOk, Consistent, WithSettings, Discovered, UnconfiguredAll, StoppedAll;
    }
  }

  lemma ControlNoted(s: Server, b: Book, e: Event)
    requires Inv(s) && Kept(s, b) && e.Message?
    requires e.command.SetLensPosition? || e.command.SetExposureTime? || e.command.SetFrameDuration?
    ensures Kept(s.Handle(e.role, e.command).0, Noted(b, s, e))
  {
    if s.fleet == [] { NoControlYet(s, e.role, e.command); }
    hide ConfiguredAll, StartFrom, SessionOk, Consistent, Discovered, UnconfiguredAll, StoppedAll, Inv;
  }

  /** Without cameras the system is idle and takes no control. */
  lemma NoControlYet(s: Server, role: Role, c: Command)
    requires Inv(s) && s.fleet == [] && (c.SetLensPosition? || c.SetExposureTime? || c.SetFrameDuration?)
    ensures !s.Handle(role, c).1.Status?
  {
    hide Server.Set;
  }

  lemma {:induction false} BookKeptFrom(s: Server, b: Book, es: seq<Event>)
    requires Inv(s) && Kept(s, b) && IsRun(s, es)
    ensures Kept(After(s, es), BookOf(b, s, es))
    decreases |es|
  {
    hide Inv, Kept, Step, Possible, Noted;
    if es != [] {
      StepKeeps(s, es[0]);
      BookStep(s, b, es[0]);
      BookKeptFrom(Step(s, es[0]), Noted(b, s, es[0]), es[1..]);
    }
  }

  /** In every run the configured mode is the last one granted, the session runs in the mode
      that was configured when the cameras were started, the cameras are those of the first
      discovery that found any, and every one of them has the lens position, exposure and
      frame duration last granted. */
  lemma BookKept(es: seq<Event>)
    requires IsRun(Boot(), es)
    ensures var s, b := After(Boot(), es), BookOf(BLANK, Boot(), es);
            && s.mode == b.mode && s.session == b.session && |s.fleet| == b.cameras
            && forall i :: 0 <= i < |s.fleet| ==>
                 && s.fleet[i].settings.lens == b.lens
                 && s.fleet[i].settings.exposure == b.exposure
                 && s.fleet[i].settings.duration == b.duration
  {
    BootHolds();
    BookKeptFrom(Boot(), BLANK, es);
    hide IsRun, After, BookOf, Inv;
  }

  // ---- which requests are granted ----------------------------------------------------------------

  /** Everything one camera needs for `configure` works out. */
  predicate Configures(hw: Hardware) {
    && hw.acquires && hw.generates && hw.native && hw.valid && hw.accepts
    && hw.allocates && hw.allocatesRaw
    && forall b :: 0 <= b < hw.buffers ==> hw.prepares(b)
  }

  /** And for `start`, with this many requests. */
  predicate Starts(hw: Hardware, requests: nat) {
    hw.starts && forall q :: 0 <= q < requests ==> hw.queues(q)
  }

  lemma {:induction false} ConfigureExactly(f: Fleet, config: nat, hw: nat -> Hardware, i: nat)
    requires i <= |f| && forall j :: i <= j < |f| ==> f[j].state.Idle?
    ensures var (g, ok) := ConfigureFrom(f, config, hw, i);
            && (ok <==> forall j :: i <= j < |f| ==> Configures(hw(j)))
            && |g| == |f| && (forall j :: 0 <= j < i ==> g[j] == f[j])
            && (ok ==> forall j :: i <= j < |f| ==> Opened(g[j], config, hw(j)))
    decreases |f| - i
  {
    if i < |f| {
      var (c, ok) := f[i].(settings := f[i].settings.(config := config)).Configure(hw(i));
      assert ok <==> Configures(hw(i));
      assert ok ==> Opened(c, config, hw(i));
      hide Cam.Configure, Configures, Opened;
      if ok { ConfigureExactly(f[i := c], config, hw, i + 1); }
    }
  }

  /** The camera is configured as asked, or as the library adjusted it, with a request
      for each of its buffers. */
  predicate Opened(c: Cam, config: nat, hw: Hardware) {
    && c.state.Configured? && c.requests == hw.buffers
    && c.settings.config == (if hw.adjusted.Some? then hw.adjusted.value else config)
  }

  lemma {:induction false} StartExactly(f: Fleet, hw: nat -> Hardware, i: nat)
    requires i <= |f| && forall j :: i <= j < |f| ==> f[j].state.Configured?
    ensures StartFrom(f, hw, i).1 <==> forall j :: i <= j < |f| ==> Starts(hw(j), f[j].requests)
    decreases |f| - i
  {
    if i < |f| {
      var (c, ok) := f[i].Start(hw(i));
      assert ok <==> Starts(hw(i), f[i].requests);
      hide Cam.Start, Starts;
      if ok { StartExactly(f[i := c], hw, i + 1); }
    }
  }

  predicate AllConfigure(s: Server, hw: nat -> Hardware) {
    forall i :: 0 <= i < |s.fleet| ==> Configures(hw(i))
  }

  predicate AllStart(s: Server, hw: nat -> Hardware) {
    forall i :: 0 <= i < |s.fleet| ==> Starts(hw(i), s.fleet[i].requests)
  }

  /** In every state that can be reached: configure succeeds exactly in IDLE, with cameras
      that are all idle and hardware that works out for every one of them, and then opens
      each as asked. */
  lemma ConfigureReply(s: Server, config: nat, hw: nat -> Hardware)
    requires Inv(s)
    ensures var (t, r) := s.Handle(Commander, Configure(config, hw));
            && (r.Status? <==> s.system.Idle? && s.fleet != [] && AllIn(s.fleet, Idle) && AllConfigure(s, hw))
            && (r.Status? ==> && t.system.Configured? && |t.fleet| == |s.fleet|
                              && forall i :: 0 <= i < |t.fleet| ==> Opened(t.fleet[i], config, hw(i)))
            && (!r.Status? ==> r.Error? && t.system == s.system)
  {
    if s.system.Idle? && s.fleet != [] {
      if AllIn(s.fleet, Idle) {
        ConfigureExactly(s.fleet, config, hw, 0);
      } else {
        var k :| 0 <= k < |s.fleet| && !s.fleet[k].state.Idle?;
        ConfigureBlocked(s.fleet, config, hw, 0, k);
      }
    }
    hide ConfigureFrom, Consistent, Configures, Opened, SessionOk;
  }

  /** start_cameras succeeds exactly in CONFIGURED, if the capacity estimate allows it and
      every camera starts with all its requests queued; unconfigure exactly in CONFIGURED,
      stop_cameras exactly in RUNNING; each has the state it says, and an error leaves the
      state alone. */
  lemma LifecycleReplies(s: Server, feasible: bool, hw: nat -> Hardware)
    requires Inv(s)
    ensures var (t, r) := s.Handle(Commander, StartCameras(feasible, hw));
            && (r.Status? <==> s.system.Configured? && feasible && AllStart(s, hw))
            && (if r.Status? then t.system.Running? else r.Error? && t.system == s.system)
    ensures var (t, r) := s.Handle(Commander, Unconfigure);
            && (r.Status? <==> s.system.Configured?)
            && (if r.Status? then t.system.Idle? else r.Error? && t.system == s.system)
    ensures var (t, r) := s.Handle(Commander, StopCameras);
            && (r.Status? <==> s.system.Running?)
            && (if r.Status? then t.system.Configured? else r.Error? && t.system == s.system)
  {
    if s.system.Configured? {
      StartExactly(s.fleet, hw, 0);
      UnconfigureEnds(s.fleet);
    }
    hide StartFrom, UnconfiguredAll, StoppedAll, Consistent, Starts, SessionOk;
  }

  /** A capture control is set exactly if the request carries a value and the cameras are
      configured; a mode exactly if it parses; the flag exactly if it is well-formed. */
  lemma ControlReplies(s: Server, v: Option<int>, m: Option<ProcessMode>, b: Option<bool>, role: Role)
    ensures s.Handle(Commander, SetLensPosition(v)).1.Status? <==> v.Some? && !s.system.Idle?
    ensures s.Handle(Commander, SetExposureTime(v)).1.Status? <==> v.Some? && !s.system.Idle?
    ensures s.Handle(Commander, SetFrameDuration(v)).1.Status? <==> v.Some? && !s.system.Idle?
    ensures s.Handle(Commander, SetProcessMode(m)).1.Status? <==> m.Some?
    ensures s.Handle(role, SetHeaderOnly(b)).1.Status? <==> b.Some?
    ensures s.Handle(Commander, ResetFrameCounts) == (s, Status)
    ensures s.Handle(role, Malformed) == (s, Error)
  {
    hide WithSettings;
  }

  /** An observer is forbidden exactly the requests that configure, run or steer the
      system, a commander none; a forbidden request changes nothing. What only reads is
      answered. */
  lemma ForbiddenExactly(s: Server, c: Command, role: Role, known: bool, found: nat)
    ensures s.Handle(role, c).1.Forbidden? <==>
              role.Observer? && (|| c.Configure? || c.Unconfigure? || c.StartCameras? || c.StopCameras?
                                 || c.SetProcessMode? || c.TriggerCapture? || c.ResetFrameCounts?
                                 || c.SetLensPosition? || c.SetExposureTime? || c.SetFrameDuration?)
    ensures s.Handle(role, c).1.Forbidden? ==> s.Handle(role, c).0 == s
    ensures s.Handle(role, GetState) == (s, Info)
    ensures s.Handle(role, GetLimits) == (s, if s.system.Idle? then Error else Info)
    ensures s.Handle(role, GetFocusRegion(known)) == (s, if s.system.Idle? || !known then Error else Info)
    ensures s.Handle(role, Discover(found)).1 == Info
  {
    hide Server.HandleConfigure, Server.HandleUnconfigure, Server.HandleStartCameras, Server.Set, Discovered,
         Server.HandleStopCameras;
    RepliesOf(s, c, role);
  }

  lemma RepliesOf(s: Server, c: Command, role: Role)
    ensures IsCommandPermitted(c, role) ==> !s.Handle(role, c).1.Forbidden?
  {
    hide ConfiguredAll, UnconfiguredAll, StartFrom, StoppedAll, WithSettings, Discovered;
  }
}
