/** All cameras together (src/camera_manager.cpp:19-130, 153-172): loops over the
    cameras, some of which end at the first failure. */
module Fleets {
  import opened Cameras

  type Fleet = seq<Cam>

  predicate AnyRunning(f: Fleet) { exists i :: 0 <= i < |f| && f[i].state.Running? }

  predicate AllIn(f: Fleet, s: CameraState) { forall i :: 0 <= i < |f| ==> f[i].state == s }

  predicate Consistent(f: Fleet) { forall i :: 0 <= i < |f| ==> f[i].Consistent() }

  function ConfigureFrom(f: Fleet, config: nat, hw: nat -> Hardware, i: nat): (Fleet, bool)
    requires i <= |f|
    decreases |f| - i
  {
    if i == |f| then (f, true)
    else
      var (c, ok) := f[i].(settings := f[i].settings.(config := config)).Configure(hw(i));
      if ok then ConfigureFrom(f[i := c], config, hw, i + 1) else (f[i := c], false)
  }

  function ConfiguredAll(f: Fleet, config: nat, hw: nat -> Hardware): (Fleet, bool) {
    if f == [] || AnyRunning(f) then (f, false) else ConfigureFrom(f, config, hw, 0)
  }

  function StoppedAll(f: Fleet): (g: Fleet)
    ensures |g| == |f|
  {
    seq(|f|, i requires 0 <= i < |f| => f[i].Stop())
  }

  function StartFrom(f: Fleet, hw: nat -> Hardware, i: nat): (Fleet, bool)
    requires i <= |f|
    decreases |f| - i
  {
    if i == |f| then (f, true)
    else
      var (c, ok) := f[i].Start(hw(i));
      if ok then StartFrom(f[i := c], hw, i + 1) else (StoppedAll(f[i := c]), false)
  }

  function UnconfiguredAll(f: Fleet): (g: (Fleet, bool))
    ensures |g.0| == |f|
  {
    (seq(|f|, i requires 0 <= i < |f| => f[i].Unconfigure().0),
     forall i :: 0 <= i < |f| ==> f[i].Unconfigure().1)
  }

  /** `discoverCameras`: `found` matching cameras, or none if the library fails. */
  function Discovered(f: Fleet, found: nat): Fleet {
    if f != [] then f else seq(found, _ => NewCam())
  }

  // ---- the manager --------------------------------------------------------------------

  class CameraManager {
    var cameras: seq<Camera>

    ghost predicate Valid()
      reads this
    {
      forall i, j :: 0 <= i < j < |cameras| ==> cameras[i] != cameras[j]
    }

    ghost function View(): (f: Fleet)
      reads this, cameras
      ensures |f| == |cameras|
    {
      seq(|cameras|, i requires 0 <= i < |cameras| reads this, cameras => cameras[i].View())
    }

    constructor ()
      ensures Valid() && cameras == []
    {
      cameras := [];
    }

    /** One camera's methods leave the others alone. */
    twostate lemma OneChanged(i: nat)
      requires i < |cameras| && Valid() && cameras == old(cameras)
      requires forall j :: 0 <= j < |cameras| && j != i ==> cameras[j].View() == old(cameras[j].View())
      ensures View() == old(View())[i := cameras[i].View()]
    {
    }

    method DiscoverCameras(found: nat)
      requires Valid()
      modifies this
      ensures Valid() && View() == Discovered(old(View()), found)
      ensures forall c :: c in cameras ==> c in old(cameras) || fresh(c)
    {
      if cameras != [] { return; }
      var i := 0;
      while i < found
        invariant i == |cameras| <= found && Valid()
        invariant forall c :: c in cameras ==> fresh(c)
        invariant forall j :: 0 <= j < i ==> cameras[j].View() == NewCam()
      {
        var c := new Camera();
        cameras := cameras + [c];
        i := i + 1;
      }
    }

    method ConfigureAll(config: nat, hw: nat -> Hardware) returns (ok: bool)
      requires Valid()
      modifies cameras
      ensures (View(), ok) == ConfiguredAll(old(View()), config, hw)
    {
      if cameras == [] { return false; }
      var k := 0;
      while k < |cameras|
        invariant k <= |cameras| && forall j :: 0 <= j < k ==> !View()[j].state.Running?
        invariant View() == old(View())
      {
        if cameras[k].state.Running? {
          assert View()[k].state.Running?;
          return false;
        }
        k := k + 1;
      }
      var i := 0;
      while i < |cameras|
        invariant i <= |cameras|
        invariant ConfigureFrom(old(View()), config, hw, 0) == ConfigureFrom(View(), config, hw, i)
      {
        ghost var before := View();
        label turn:
        cameras[i].SetSettings(cameras[i].settings.(config := config));
        var done := cameras[i].Configure(hw(i));
        OneChanged@turn(i);
        if !done { return false; }
        i := i + 1;
      }
      return true;
    }

    method StopAll() returns (ok: bool)
      requires Valid()
      modifies cameras
      ensures ok && View() == StoppedAll(old(View()))
    {
      ok := true;
      var i := 0;
      while i < |cameras|
        invariant i <= |cameras| && ok
        invariant forall j :: 0 <= j < i ==> cameras[j].View() == old(View())[j].Stop()
        invariant forall j :: i <= j < |cameras| ==> cameras[j].View() == old(View())[j]
      {
        var done := cameras[i].Stop();
        if !done { ok := false; }
        i := i + 1;
      }
    }

    method StartAll(hw: nat -> Hardware) returns (ok: bool)
      requires Valid()
      modifies cameras
      ensures (View(), ok) == StartFrom(old(View()), hw, 0)
    {
      var i := 0;
      while i < |cameras|
        invariant i <= |cameras|
        invariant StartFrom(old(View()), hw, 0) == StartFrom(View(), hw, i)
      {
        label turn:
        var done := cameras[i].Start(hw(i));
        OneChanged@turn(i);
        if !done {
          var stopped := StopAll();
          return false;
        }
        i := i + 1;
      }
      return true;
    }

    method UnconfigureAll() returns (ok: bool)
      requires Valid()
      modifies cameras
      ensures (View(), ok) == UnconfiguredAll(old(View()))
    {
      ok := true;
      var i := 0;
      while i < |cameras|
        invariant i <= |cameras|
        invariant ok <==> forall j :: 0 <= j < i ==> old(View())[j].Unconfigure().1
        invariant forall j :: 0 <= j < i ==> cameras[j].View() == old(View())[j].Unconfigure().0
        invariant forall j :: i <= j < |cameras| ==> cameras[j].View() == old(View())[j]
      {
        var done := cameras[i].Unconfigure();
        if !done { ok := false; }
        i := i + 1;
      }
      assert View() == UnconfiguredAll(old(View())).0;
    }
  }

  // ---- what the loops leave behind ------------------------------------------------------

  /** `configureAll` over idle cameras: the first failure, if any, splits the
      cameras into configured ones in front of it and idle ones from it on. */
  lemma {:induction false} ConfigureSplits(f: Fleet, config: nat, hw: nat -> Hardware, i: nat) returns (n: nat)
    requires i <= |f| && (forall j :: i <= j < |f| ==> f[j].state.Idle?)
    ensures i <= n <= |f|
    ensures var (g, ok) := ConfigureFrom(f, config, hw, i);
            && |g| == |f| && (ok <==> n == |f|)
            && (forall j :: 0 <= j < i ==> g[j] == f[j])
            && (forall j :: i <= j < n ==> g[j].state.Configured?)
            && (forall j :: n <= j < |f| ==> g[j].state.Idle?)
    decreases |f| - i
  {
    if i == |f| {
      n := i;
    } else {
      var c := f[i].(settings := f[i].settings.(config := config));
      StaysConsistentState(c, hw(i));
      hide Cam.Configure;
      if c.Configure(hw(i)).1 {
        n := ConfigureSplits(f[i := c.Configure(hw(i)).0], config, hw, i + 1);
      } else {
        n := i;
      }
    }
  }

  lemma StaysConsistentState(c: Cam, hw: Hardware)
    ensures c.Configure(hw).1 ==> c.state.Idle? && c.Configure(hw).0.state.Configured?
    ensures !c.Configure(hw).1 ==> c.Configure(hw).0.state == c.state
  {
  }

  /** A camera that is not idle ends `configureAll` with a failure, whatever the
      hardware does, and keeps its state. */
  lemma {:induction false} ConfigureBlocked(f: Fleet, config: nat, hw: nat -> Hardware, i: nat, k: nat)
    requires i <= k < |f| && !f[k].state.Idle?
    ensures var (g, ok) := ConfigureFrom(f, config, hw, i);
            !ok && |g| == |f| && g[k].state == f[k].state
    decreases k - i
  {
    var c := f[i].(settings := f[i].settings.(config := config));
    StaysConsistentState(c, hw(i));
    hide Cam.Configure;
    if c.Configure(hw(i)).1 { ConfigureBlocked(f[i := c.Configure(hw(i)).0], config, hw, i + 1, k); }
  }

  lemma {:induction false} ConfigureConsistent(f: Fleet, config: nat, hw: nat -> Hardware, i: nat)
    requires i <= |f| && Consistent(f)
    ensures Consistent(ConfigureFrom(f, config, hw, i).0)
    ensures !AnyRunning(f) ==> !AnyRunning(ConfigureFrom(f, config, hw, i).0)
    decreases |f| - i
  {
    if i < |f| {
      var c := f[i].(settings := f[i].settings.(config := config));
      StaysConsistent(c, hw(i));
      StaysConsistentState(c, hw(i));
      hide Cam.Configure;
      if c.Configure(hw(i)).1 { ConfigureConsistent(f[i := c.Configure(hw(i)).0], config, hw, i + 1); }
    }
  }

  /** `startAll` over configured cameras: all of them run, or none. */
  lemma {:induction false} StartAllOrNone(f: Fleet, hw: nat -> Hardware, i: nat)
    requires i <= |f| && Consistent(f)
    requires forall j :: 0 <= j < i ==> f[j].state.Running?
    requires forall j :: i <= j < |f| ==> f[j].state.Configured?
    ensures var (g, ok) := StartFrom(f, hw, i);
            Consistent(g) && |g| == |f| && AllIn(g, if ok then Running else Configured)
    decreases |f| - i
  {
    if i < |f| {
      var (c, ok) := f[i].Start(hw(i));
      StaysConsistent(f[i], hw(i));
      assert ok ==> c.state.Running?;
      assert !ok ==> c.state.Configured?;
      hide Cam.Start;
      if ok { StartAllOrNone(f[i := c], hw, i + 1); }
      else {
        StopEnds(f[i := c]);
      }
    }
  }

  lemma StopEnds(f: Fleet)
    requires Consistent(f)
    ensures Consistent(StoppedAll(f)) && !AnyRunning(StoppedAll(f))
    ensures forall i :: 0 <= i < |f| ==>
              StoppedAll(f)[i].state == if f[i].state.Running? then Configured else f[i].state
  {
  }

  lemma UnconfigureEnds(f: Fleet)
    requires Consistent(f) && AllIn(f, Configured)
    ensures var (g, ok) := UnconfiguredAll(f); ok && Consistent(g) && AllIn(g, Idle)
  {
  }
}
