/** When a trigger's acknowledgement can overtake one of its own frames
    (src/frame_processor.cpp:406-458). */
module TriggerRace {
  import opened Types
  import opened Triggers
  import opened TriggerSafety
  import opened TriggerTheorems

  // ---- the property ---------------------------------------------------------------

  /** The `i`-th delivery is a completed request for `cameras` of a session that
      saves or does not. */
  ghost predicate Answers(w: World, i: nat, cameras: set<u32>, save: bool) {
    && i < |w.fired| && !w.fired[i].1.cancelled && w.fired[i].0 < |w.armed|
    && w.armed[w.fired[i].0].cameras == cameras && w.armed[w.fired[i].0].save == save
  }

  /** At its delivery every frame that was to be saved is queued or refused. */
  ghost predicate AllSettled(w: World, i: nat)
    requires i < |w.fired|
  {
    var (s, r) := w.fired[i];
    forall k :: 0 <= k < |r.captures| && r.captures[k].saved ==> Settled(w, s, r.captures[k])
  }

  ghost predicate AnsweredSettled(n: nat, acts: seq<Action>, i: nat, cameras: set<u32>, save: bool) {
    IsRun(Init(n), acts) && Answers(After(Init(n), acts), i, cameras, save) ==>
      AllSettled(After(Init(n), acts), i)
  }

  /** No acknowledgement for `cameras` ever overtakes a frame of its own. */
  ghost predicate NeverOvertakes(cameras: set<u32>, save: bool) {
    forall n, acts, i :: AnsweredSettled(n, acts, i, cameras, save)
  }

  // ---- where it holds -----------------------------------------------------------------

  lemma OneCapture(r: TriggerResult, a: Armed)
    requires ResultOk(a, r) && |a.cameras| == 1
    ensures |r.captures| <= 1
  {
    if |r.captures| >= 2 {
      var c, d := r.captures[0].camera, r.captures[1].camera;
      assert CaptureOk(a, r.captures[0]) && CaptureOk(a, r.captures[1]);
      assert {c, d} <= a.cameras;
      Cardinality({c, d}, a.cameras);
    }
  }

  lemma {:induction false} Cardinality(s: set<u32>, t: set<u32>)
    requires s <= t
    ensures |s| <= |t|
  {
    if s != {} {
      var x :| x in s;
      Cardinality(s - {x}, t - {x});
    }
  }

  lemma SettledWhenAlone(n: nat, acts: seq<Action>, i: nat, cameras: set<u32>, save: bool)
    requires !save || |cameras| == 1
    ensures AnsweredSettled(n, acts, i, cameras, save)
  {
    if IsRun(Init(n), acts) && Answers(After(Init(n), acts), i, cameras, save) {
      var w := After(Init(n), acts);
      var (s, r) := w.fired[i];
      ReachedHanded(n, acts);
      assert Resolves(w, w.fired[i]);
      if save {
        OneCapture(r, w.armed[s]);
        assert LastSettled(w, s, r);
      } else {
        assert forall k :: 0 <= k < |r.captures| ==> CaptureOk(w.armed[s], r.captures[k]);
      }
    }
  }

  // ---- where it fails -----------------------------------------------------------------

  /** A trigger is pending in a session that saves, all settling frames are through,
      and thread `t` has nothing in hand. */
  predicate Serving(w: World, t: nat) {
    && 0 < t < |w.threads| && w.threads[t].Free? && w.armed != []
    && w.mem.pending.Some? && w.mem.save && w.mem.pending.value.waiting != map[]
    && forall c :: c in w.mem.pending.value.waiting ==> w.mem.pending.value.waiting[c] == 0
  }

  /** What one thread can do alone: `v` is `w` after thread `t` has captured the
      cameras still waited for and delivered the result. */
  predicate ServedBy(w: World, v: World, t: nat)
    requires w.mem.pending.Some? && w.armed != []
  {
    && t < |w.threads| && v.threads == w.threads && v.refused == w.refused
    && |v.armed| == |w.armed| && |v.fired| == |w.fired| + 1
    && (forall s :: 0 <= s < |w.armed| ==>
          v.armed[s].cameras == w.armed[s].cameras && v.armed[s].save == w.armed[s].save)
    && var (s, r) := v.fired[|w.fired|];
       s + 1 == |w.armed| && !r.cancelled && w.mem.pending.value.captures <= r.captures
  }

  lemma ServeOne(w: World, t: nat, c: u32) returns (acts: seq<Action>)
    requires Serving(w, t) && c in w.mem.pending.value.waiting
    ensures IsRun(w, acts)
    ensures var p := w.mem.pending.value; var v := After(w, acts);
            && v.threads == w.threads && v.refused == w.refused && |v.armed| == |w.armed|
            && (forall s :: 0 <= s < |w.armed| ==>
                  v.armed[s].cameras == w.armed[s].cameras && v.armed[s].save == w.armed[s].save)
            && if p.waiting - {c} == map[] then
                 v.fired == w.fired + [(|w.armed| - 1, TriggerResult(p.id, p.captures + [Capture(c, 0, true)], false))]
               else
                 && v.fired == w.fired && Serving(v, t)
                 && v.mem.pending.value.waiting == p.waiting - {c}
                 && v.mem.pending.value.captures == p.captures + [Capture(c, 0, true)]
  {
    var p := w.mem.pending.value;
    var w1 := Apply(w, Frame(t, c, 0));
    One(w, Frame(t, c, 0));
    acts := [Frame(t, c, 0)];
    assert w1.threads[t].Queueing?;
    var w2 := Apply(w1, Store(t, true));
    One(w1, Store(t, true));
    Concat(w, acts, [Store(t, true)]);
    acts := acts + [Store(t, true)];
    if p.waiting - {c} == map[] {
      var w3 := Apply(w2, Fire(t));
      One(w2, Fire(t));
      Concat(w, acts, [Fire(t)]);
      acts := acts + [Fire(t)];
      assert w3.threads == w.threads;
    } else {
      assert w2.threads == w.threads;
    }
  }

  lemma {:induction false} ServeRest(w: World, t: nat) returns (acts: seq<Action>)
    requires Serving(w, t)
    ensures IsRun(w, acts) && ServedBy(w, After(w, acts), t)
    decreases w.mem.pending.value.waiting.Keys
  {
    var p := w.mem.pending.value;
    var c :| c in p.waiting;
    acts := ServeOne(w, t, c);
    hide Enabled, Apply, IsRun, After;
    var v := After(w, acts);
    if p.waiting - {c} != map[] {
      assert (p.waiting - {c}).Keys == p.waiting.Keys - {c};
      var rest := ServeRest(v, t);
      Concat(w, acts, rest);
      acts := acts + rest;
    }
  }

  /** The elements of a set in some order. */
  lemma {:induction false} Listed(s: set<u32>) returns (l: seq<u32>)
    ensures forall c :: c in l <==> c in s
    decreases s
  {
    if s == {} {
      l := [];
    } else {
      var x :| x in s;
      var r := Listed(s - {x});
      l := [x] + r;
    }
  }

  /** A saving session with a fresh trigger over `cameras`. */
  lemma ArmedOver(cameras: set<u32>) returns (acts: seq<Action>)
    requires cameras != {}
    ensures IsRun(Init(2), acts)
    ensures var w := After(Init(2), acts);
            && w.threads == [Free, Free, Free] && w.fired == [] && |w.armed| == 1
            && w.armed[0].cameras == cameras && w.armed[0].save
            && Serving(w, 2) && w.mem.pending.value.waiting.Keys == cameras
            && w.mem.pending.value.captures == []
  {
    var list := Listed(cameras);
    assert (set c | c in list) == cameras;
    var w1 := Apply(Init(2), Start(Trigger, true));
    One(Init(2), Start(Trigger, true));
    var c :| c in cameras;
    assert c in list;
    One(w1, Arm(list, 0));
    Concat(Init(2), [Start(Trigger, true)], [Arm(list, 0)]);
    acts := [Start(Trigger, true)] + [Arm(list, 0)];
    var w := Apply(w1, Arm(list, 0));
    assert w.mem.pending.value.waiting.Keys == (set x | x in list);
    assert c in w.mem.pending.value.waiting;
  }

  /** With two cameras armed the acknowledgement can be out while the frame of one of
      them is still in a thread's hand: the thread of that camera pauses behind the
      lock, another one serves the rest. */
  lemma AckCanOvertake(cameras: set<u32>, a: u32) returns (acts: seq<Action>)
    requires a in cameras && |cameras| >= 2
    ensures IsRun(Init(2), acts)
    ensures var w := After(Init(2), acts);
            && Answers(w, 0, cameras, true)
            && Capture(a, 0, true) in w.fired[0].1.captures
            && !Settled(w, w.fired[0].0, Capture(a, 0, true))
  {
    var before := ArmedOver(cameras);
    var w := After(Init(2), before);
    var p := w.mem.pending.value;
    var v := Apply(w, Frame(1, a, 0));
    if p.waiting - {a} == map[] {
      assert p.waiting.Keys - {a} == (p.waiting - {a}).Keys == {};
      assert cameras <= {a};
      Cardinality(cameras, {a});
      assert false;
    }
    One(w, Frame(1, a, 0));
    Concat(Init(2), before, [Frame(1, a, 0)]);
    acts := before + [Frame(1, a, 0)];
    assert Serving(v, 2) && v.threads[1].Queueing? && v.mem.pending.value.captures == [Capture(a, 0, true)];
    assert Holds(v.threads[1], 0, Capture(a, 0, true));
    hide Apply, Enabled;
    var rest := ServeRest(v, 2);
    Concat(Init(2), acts, rest);
    acts := acts + rest;
    var x := After(Init(2), acts);
    ReachedHanded(2, acts);
    hide Inv, HandedInv;
    assert x.fired[0].1.captures[0] == Capture(a, 0, true);
    assert Holds(x.threads[1], 0, Capture(a, 0, true));
  }

  // ---- the condition --------------------------------------------------------------------

  /** For the cameras of a request: in every run of every processor its
      acknowledgement finds all frames settled, if and only if nothing is saved or
      only one camera was asked for. */
  lemma OvertakingExactly(cameras: set<u32>, save: bool)
    requires cameras != {}
    ensures NeverOvertakes(cameras, save) <==> !save || |cameras| == 1
  {
    if !save || |cameras| == 1 {
      forall n, acts, i ensures AnsweredSettled(n, acts, i, cameras, save) {
        SettledWhenAlone(n, acts, i, cameras, save);
      }
    } else {
      var a :| a in cameras;
      AtLeastTwo(cameras, a);
      var acts := AckCanOvertake(cameras, a);
      var w := After(Init(2), acts);
      assert !AllSettled(w, 0);
      assert !AnsweredSettled(2, acts, 0, cameras, save);
    }
  }

  lemma AtLeastTwo(cameras: set<u32>, a: u32)
    requires a in cameras && |cameras| != 1
    ensures |cameras| >= 2
  {
    assert |cameras| == |cameras - {a}| + 1;
  }
}
