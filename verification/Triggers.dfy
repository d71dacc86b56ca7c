/** TRIGGER mode (src/frame_processor.hpp:159-174, src/frame_processor.cpp:204-223,
    376-458): one capture request at a time, armed over a set of cameras, resolved
    by a callback once every camera has delivered or capture stops.

    The locked sections are functions on `TriggerMem`; the capture threads and
    the control thread that run them are a step system. */
module Triggers {
  import opened Types

  datatype Capture = Capture(camera: u32, frameId: nat, saved: bool)

  datatype TriggerResult = TriggerResult(id: u32, captures: seq<Capture>, cancelled: bool)

  datatype Pending = Pending(id: u32, waiting: map<u32, nat>, captures: seq<Capture>)

  datatype Handled =
    | Ignored
    | Skipped
    | Taken(capture: Capture, finished: Option<TriggerResult>)

  datatype TriggerMem = TriggerMem(
    enabled: bool, mode: ProcessMode, save: bool, nextId: u32, pending: Option<Pending>)
  {
    /** `armTrigger`: the new trigger's id, or None when it cannot be armed. */
    function Arm(cameras: seq<u32>, skip: int): (TriggerMem, Option<u32>) {
      if !enabled || !mode.Trigger? || cameras == [] || pending.Some? then (this, None)
      else
        var p := Pending(nextId, map c | c in cameras :: Max(0, skip), []);
        (this.(nextId := (nextId + 1) % 0x1_0000_0000, pending := Some(p)), Some(nextId))
    }

    /** The locked part of `handleTriggerFrame`. */
    function Handle(camera: u32, frameId: nat): (TriggerMem, Handled) {
      if pending.None? || camera !in pending.value.waiting then (this, Ignored)
      else
        var p := pending.value;
        if p.waiting[camera] > 0 then
          (this.(pending := Some(p.(waiting := p.waiting[camera := p.waiting[camera] - 1]))), Skipped)
        else
          var capture := Capture(camera, frameId, save);
          var q := p.(waiting := p.waiting - {camera}, captures := p.captures + [capture]);
          if q.waiting == map[]
          then (this.(pending := None), Taken(capture, Some(TriggerResult(q.id, q.captures, false))))
          else (this.(pending := Some(q)), Taken(capture, None))
    }

    /** `stop` takes the trigger that can no longer complete. */
    function Abandon(): (TriggerMem, Option<TriggerResult>) {
      (this.(enabled := false, pending := None),
       if pending.None? then None
       else Some(TriggerResult(pending.value.id, pending.value.captures, true)))
    }

    /** `start` drops a pending trigger without resolving it and keeps the ids going. */
    function Start(m: ProcessMode, s: bool): TriggerMem {
      TriggerMem(!m.NoMode?, m, s, nextId, if m.NoMode? then pending else None)
    }
  }

  // ---- the threads ----------------------------------------------------------------

  /** What a thread carries out of the lock: a frame to store, a result to deliver,
      or both. `serial` counts the armed triggers. */
  datatype Hand =
    | Free
    | Queueing(serial: nat, capture: Capture, finished: Option<TriggerResult>)
    | Firing(serial: nat, result: TriggerResult)

  datatype Armed = Armed(id: u32, cameras: set<u32>, skip: nat, save: bool, history: seq<(u32, nat)>)

  /** `queued` and `refused` say what became of the captured frames that were to be
      saved: pushed into the write queue, or dropped for want of backlog budget. */
  datatype World = World(
    mem: TriggerMem,
    threads: seq<Hand>,
    armed: seq<Armed>,
    fired: seq<(nat, TriggerResult)>,
    queued: seq<(nat, Capture)>,
    refused: seq<(nat, Capture)>)

  /** Thread 0 is the control thread; the others capture. `Store` is the end of the
      reservation and, if it was granted, of the push; module TriggerPool says when
      it is granted. */
  datatype Action =
    | Start(mode: ProcessMode, save: bool)
    | Arm(cameras: seq<u32>, skip: int)
    | Frame(thread: nat, camera: u32, frameId: nat)
    | Store(thread: nat, granted: bool)
    | Fire(thread: nat)
    | Stop

  predicate Enabled(w: World, a: Action) {
    match a
    case Start(_, _) => w.threads != [] && w.threads[0].Free? && !w.mem.enabled
    case Arm(_, _) => w.threads != [] && w.threads[0].Free?
    case Frame(t, _, _) => 0 < t < |w.threads| && w.threads[t].Free?
    case Store(t, _) => t < |w.threads| && w.threads[t].Queueing?
    case Fire(t) => t < |w.threads| && w.threads[t].Firing?
    case Stop => w.threads != [] && w.threads[0].Free?
  }

  function NextHand(serial: nat, h: Handled): Hand {
    match h
    case Taken(capture, finished) =>
      if capture.saved then Queueing(serial, capture, finished)
      else if finished.Some? then Firing(serial, finished.value)
      else Free
    case _ => Free
  }

  /** The hand once its frame has been stored or dropped. */
  function Relieved(h: Hand): Hand
    requires h.Queueing?
  {
    if h.finished.Some? then Firing(h.serial, h.finished.value) else Free
  }

  /** Frames a camera's handler consumes while a trigger is armed. */
  function Noted(w: World, camera: u32, frameId: nat): seq<Armed> {
    if w.mem.pending.None? || w.armed == [] then w.armed
    else
      var last := |w.armed| - 1;
      w.armed[last := w.armed[last].(history := w.armed[last].history + [(camera, frameId)])]
  }

  function Apply(w: World, a: Action): World
    requires Enabled(w, a)
  {
    match a
    case Start(m, s) => w.(mem := w.mem.Start(m, s))
    case Arm(cameras, skip) =>
      var (m, id) := w.mem.Arm(cameras, skip);
      if id.None? then w
      else w.(mem := m,
              armed := w.armed + [Armed(id.value, (set c | c in cameras), Max(0, skip), w.mem.save, [])])
    case Frame(t, camera, frameId) =>
      var (m, h) := w.mem.Handle(camera, frameId);
      w.(mem := m,
         armed := Noted(w, camera, frameId),
         threads := w.threads[t := NextHand(Max(0, |w.armed| - 1), h)])
    case Store(t, granted) =>
      var one := (w.threads[t].serial, w.threads[t].capture);
      w.(queued := if granted then w.queued + [one] else w.queued,
         refused := if granted then w.refused else w.refused + [one],
         threads := w.threads[t := Relieved(w.threads[t])])
    case Fire(t) =>
      var h := w.threads[t];
      w.(fired := w.fired + [(h.serial, h.result)], threads := w.threads[t := Free])
    case Stop =>
      var (m, r) := w.mem.Abandon();
      w.(mem := m,
         threads := w.threads[0 := if r.None? then Free else Firing(Max(0, |w.armed| - 1), r.value)])
  }

  function Init(n: nat): World {
    World(TriggerMem(false, NoMode, false, 1, None), seq(n + 1, _ => Free), [], [], [], [])
  }

  predicate IsRun(w: World, acts: seq<Action>)
    decreases |acts|
  {
    acts == [] || (Enabled(w, acts[0]) && IsRun(Apply(w, acts[0]), acts[1..]))
  }

  function After(w: World, acts: seq<Action>): World
    requires IsRun(w, acts)
    decreases |acts|
  {
    if acts == [] then w else After(Apply(w, acts[0]), acts[1..])
  }

  lemma {:induction false} Concat(w: World, a: seq<Action>, b: seq<Action>)
    requires IsRun(w, a) && IsRun(After(w, a), b)
    ensures IsRun(w, a + b) && After(w, a + b) == After(After(w, a), b)
    decreases |a|
  {
    hide Enabled, Apply;
    if a == [] {
      assert a + b == b;
    } else {
      assert (a + b)[1..] == a[1..] + b;
      Concat(Apply(w, a[0]), a[1..], b);
    }
  }

  lemma One(w: World, a: Action)
    requires Enabled(w, a)
    ensures IsRun(w, [a]) && After(w, [a]) == Apply(w, a)
  {
    hide Enabled, Apply;
    assert [a][1..] == [];
    assert IsRun(Apply(w, a), []) && After(Apply(w, a), []) == Apply(w, a);
  }
}
