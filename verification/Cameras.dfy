/** One camera's lifecycle and the resources it holds (src/camera.cpp:36-251,
    269-418). Whatever libcamera decides is an argument. */
module Cameras {
  import opened Types

  datatype CameraState = Idle | Configured | Running

  /** What one attempt to configure or start the camera meets. */
  datatype Hardware = Hardware(
    acquires: bool, generates: bool, native: bool, valid: bool, adjusted: Option<nat>,
    accepts: bool, allocates: bool, allocatesRaw: bool,
    buffers: nat, prepares: nat -> bool,
    starts: bool, queues: nat -> bool)

  datatype Settings = Settings(config: nat, lens: int, exposure: int, duration: int)

  datatype Cam = Cam(
    state: CameraState, settings: Settings,
    acquired: bool, hasConfig: bool, hasBuffers: bool, requests: nat,
    streaming: bool, connected: bool,
    acquires: nat, releases: nat)
  {
    /** What is held in each state, and the books of `acquire` and `release`. */
    predicate Consistent() {
      && acquired == !state.Idle?
      && acquires == releases + (if acquired then 1 else 0)
      && (streaming == connected == state.Running?)
      && hasConfig == hasBuffers == !state.Idle?
      && (state.Idle? ==> requests == 0)
    }

    function Acquired(): Cam { this.(acquired := true, acquires := acquires + 1) }

    /** `releaseConfiguredResources`. */
    function Released(): Cam {
      this.(requests := 0, hasBuffers := false, hasConfig := false, acquired := false,
            releases := if acquired then releases + 1 else releases)
    }

    /** The steps of `configure` behind the acquisition, up to the buffers. */
    predicate Negotiates(hw: Hardware) {
      hw.generates && hw.native && hw.valid && hw.accepts && hw.allocates && hw.allocatesRaw
    }

    function Adjusted(hw: Hardware): Settings {
      if hw.generates && hw.native && hw.valid && hw.adjusted.Some?
      then settings.(config := hw.adjusted.value) else settings
    }

    predicate AllPrepared(hw: Hardware) { forall i :: 0 <= i < hw.buffers ==> hw.prepares(i) }

    function Configure(hw: Hardware): (Cam, bool) {
      if !state.Idle? || !hw.acquires then (this, false)
      else
        var c := Acquired().(settings := Adjusted(hw));
        if !Negotiates(hw) || !AllPrepared(hw) then (c.Released(), false)
        else (c.(hasConfig := true, hasBuffers := true, requests := hw.buffers, state := Configured), true)
    }

    predicate AllQueued(hw: Hardware) { forall i :: 0 <= i < requests ==> hw.queues(i) }

    function Start(hw: Hardware): (Cam, bool) {
      if !state.Configured? then (this, false)
      else if !hw.starts || !AllQueued(hw) then (this.(streaming := false, connected := false), false)
      else (this.(streaming := true, connected := true, state := Running), true)
    }

    function Stop(): Cam {
      if !state.Running? then this
      else this.(streaming := false, connected := false, state := Configured)
    }

    function Unconfigure(): (Cam, bool) {
      if state.Running? then (this, false)
      else if state.Idle? then (this, true)
      else (Released().(state := Idle), true)
    }

    /** The destructor: `stop`, then `unconfigure`. */
    function Destroyed(): Cam { Stop().Unconfigure().0 }
  }

  function NewCam(): Cam {
    Cam(Idle, Settings(0, -1, -1, 0), false, false, false, 0, false, false, 0, 0)
  }

  /** Every operation, whatever the hardware does, keeps the camera's resources
      in step with its state. */
  lemma StaysConsistent(c: Cam, hw: Hardware)
    requires c.Consistent()
    ensures c.Configure(hw).0.Consistent() && c.Start(hw).0.Consistent()
    ensures c.Stop().Consistent() && c.Unconfigure().0.Consistent()
    ensures c.Configure(hw).1 <==> c.state.Idle? && c.Configure(hw).0.state.Configured?
    ensures !c.Configure(hw).1 ==> c.Configure(hw).0.state == c.state
    ensures c.Destroyed().Consistent() && c.Destroyed().acquires == c.Destroyed().releases
  {
  }

  class Camera {
    var state: CameraState
    var settings: Settings
    var acquired: bool
    var hasConfig: bool
    var hasBuffers: bool
    var requests: nat
    var streaming: bool
    var connected: bool
    ghost var acquires: nat
    ghost var releases: nat

    ghost function View(): Cam
      reads this
    {
      Cam(state, settings, acquired, hasConfig, hasBuffers, requests, streaming, connected,
          acquires, releases)
    }

    constructor ()
      ensures View() == NewCam()
    {
      state, settings := Idle, Settings(0, -1, -1, 0);
      acquired, hasConfig, hasBuffers, requests := false, false, false, 0;
      streaming, connected := false, false;
      acquires, releases := 0, 0;
    }

    method ReleaseConfiguredResources()
      modifies this
      ensures View() == old(View()).Released()
    {
      requests := 0;
      hasBuffers := false;
      hasConfig := false;
      if acquired {
        releases := releases + 1;
        acquired := false;
      }
    }

    /** Raw mode, validation, configuration and buffer allocation. */
    method Negotiate(hw: Hardware) returns (ok: bool)
      requires state.Idle?
      modifies this`settings, this`hasConfig, this`hasBuffers
      ensures ok == old(View()).Negotiates(hw)
      ensures settings == old(View()).Adjusted(hw)
      ensures ok ==> hasConfig && hasBuffers
    {
      if !hw.generates { return false; }
      hasConfig := true;
      if !hw.native { return false; }
      if !hw.valid { return false; }
      if hw.adjusted.Some? { settings := settings.(config := hw.adjusted.value); }
      if !hw.accepts { return false; }
      hasBuffers := true;
      if !hw.allocates { return false; }
      return hw.allocatesRaw;
    }

    /** `configure` succeeds exactly for an idle camera for which every step works out, and
        then holds a request for each buffer; a camera that was acquired and fails later
        gives everything back, but keeps a configuration the library adjusted. */
    method Configure(hw: Hardware) returns (ok: bool)
      modifies this
      ensures (View(), ok) == old(View()).Configure(hw)
      ensures var tried := old(state).Idle? && hw.acquires; var valid := hw.generates && hw.native && hw.valid;
              && (ok <==> tried && valid && hw.accepts && hw.allocates && hw.allocatesRaw
                          && forall b :: 0 <= b < hw.buffers ==> hw.prepares(b))
              && (ok ==> state.Configured? && acquired && hasConfig && hasBuffers && requests == hw.buffers)
              && (!ok ==> state == old(state))
              && (!ok && tried ==> !acquired && !hasConfig && !hasBuffers && requests == 0)
              && (!tried ==> View() == old(View()))
              && acquires == old(acquires) + (if tried then 1 else 0)
              && releases == old(releases) + (if tried && !ok then 1 else 0)
              && settings == (if tried && valid && hw.adjusted.Some?
                              then old(settings).(config := hw.adjusted.value) else old(settings))
    {
      if !state.Idle? { return false; }
      if !hw.acquires { return false; }
      acquires := acquires + 1;
      acquired := true;
      ok := Negotiate(hw);
      if !ok {
        ReleaseConfiguredResources();
        return false;
      }
      requests := 0;
      var i := 0;
      while i < hw.buffers
        invariant i <= hw.buffers && requests == i
        invariant forall j :: 0 <= j < i ==> hw.prepares(j)
        invariant View() == old(View()).Acquired().(settings := old(View()).Adjusted(hw), hasConfig := true,
                                                   hasBuffers := true, requests := i)
      {
        if !hw.prepares(i) {
          ReleaseConfiguredResources();
          return false;
        }
        requests := requests + 1;
        i := i + 1;
      }
      state := Configured;
      return true;
    }

    /** `start` succeeds exactly for a configured camera that starts and takes all its
        requests; otherwise it stays as it was, and nothing is left streaming of it. */
    method Start(hw: Hardware) returns (ok: bool)
      modifies this
      ensures (View(), ok) == old(View()).Start(hw)
      ensures ok <==> old(state).Configured? && hw.starts
                      && forall q :: 0 <= q < old(requests) ==> hw.queues(q)
      ensures ok ==> state.Running? && streaming && connected
      ensures !ok ==> state == old(state) && (old(state).Configured? ==> !streaming && !connected)
      ensures settings == old(settings) && requests == old(requests) && acquired == old(acquired)
    {
      if !state.Configured? { return false; }
      connected := true;
      if !hw.starts {
        streaming, connected := false, false;
        return false;
      }
      streaming := true;
      var i := 0;
      while i < requests
        invariant i <= requests
        invariant forall j :: 0 <= j < i ==> hw.queues(j)
        invariant View() == old(View()).(connected := true, streaming := true)
      {
        if !hw.queues(i) {
          streaming, connected := false, false;
          return false;
        }
        i := i + 1;
      }
      state := Running;
      return true;
    }

    method Stop() returns (ok: bool)
      modifies this
      ensures ok && View() == old(View()).Stop()
      ensures if old(state).Running? then state.Configured? && !streaming && !connected
              else View() == old(View())
      ensures settings == old(settings) && requests == old(requests) && acquired == old(acquired)
    {
      if !state.Running? { return true; }
      streaming := false;
      connected := false;
      state := Configured;
      return true;
    }

    /** `unconfigure` gives back what a configured camera holds; only a running one refuses. */
    method Unconfigure() returns (ok: bool)
      modifies this
      ensures (View(), ok) == old(View()).Unconfigure()
      ensures ok <==> !old(state).Running?
      ensures if old(state).Configured?
              then && state.Idle? && !acquired && !hasConfig && !hasBuffers && requests == 0
                   && releases == old(releases) + (if old(acquired) then 1 else 0)
              else View() == old(View())
      ensures settings == old(settings) && acquires == old(acquires)
    {
      if state.Running? { return false; }
      if state.Idle? { return true; }
      ReleaseConfiguredResources();
      state := Idle;
      return true;
    }

    method SetSettings(s: Settings)
      modifies this`settings
      ensures View() == old(View()).(settings := s)
    {
      settings := s;
    }
  }
}
