/** The slot a camera's newest frame is published in and the consumers that read
    it through cursors of their own (src/camera.cpp:361-367, 545-556, 684-691). The
    detector's slots (src/frame_processor.cpp:236-243, 535-544,
    src/frame_processor.hpp:279-292) are one such slot per camera, except that all
    of them draw their numbers from one counter. */
module Publication {
  import opened Types
  import ProcessorMemory

  /** A frame is identified by the moment it was published: its index in `log`. */
  datatype Slot<F> = Slot(frame: Option<F>, seqNo: nat, counter: nat)
  {
    function Publish(f: F): Slot<F> { Slot(Some(f), counter + 1, counter + 1) }

    /** Another camera takes a number of the shared counter. */
    function Advance(): Slot<F> { this.(counter := counter + 1) }

    function Clear(): Slot<F> { this.(frame := None) }

    /** The frame and the new cursor, if there is one the cursor has not seen. */
    function Take(cursor: nat): Option<(F, nat)> {
      if frame.None? || seqNo <= cursor then None else Some((frame.value, seqNo))
    }
  }

  class FrameSlot<F> {
    var latestFrame: Option<F>
    var latestSeq: nat

    ghost function View(): Slot<F>
      reads this
    {
      Slot(latestFrame, latestSeq, latestSeq)
    }

    constructor ()
      ensures View() == Slot(None, 0, 0)
    {
      latestFrame, latestSeq := None, 0;
    }

    method Publish(f: F)
      modifies this
      ensures View() == old(View()).Publish(f)
    {
      latestFrame := Some(f);
      latestSeq := latestSeq + 1;
    }

    method GetFrameForStreaming(lastSeen: nat) returns (frame: Option<F>, seen: nat)
      ensures View().Take(lastSeen) == if frame.Some? then Some((frame.value, seen)) else None
      ensures frame.None? ==> seen == lastSeen
    {
      if latestFrame.None? || latestSeq <= lastSeen { return None, lastSeen; }
      return latestFrame, latestSeq;
    }
  }

  // ---- runs --------------------------------------------------------------------------

  datatype Event<F> = Publish(frame: F) | Advance | Clear | Take(consumer: nat)

  /** `log` is what was published, with its numbers; `cleared` how much of it when
      the slot was last emptied; `got` what each consumer received, as indices. */
  datatype World<F> = World(
    slot: Slot<F>, cursors: seq<nat>, log: seq<(F, nat)>, cleared: nat, got: seq<seq<nat>>)

  predicate Enabled<F>(w: World<F>, e: Event<F>) {
    e.Take? ==> e.consumer < |w.cursors| && e.consumer < |w.got|
  }

  function Step<F>(w: World<F>, e: Event<F>): World<F>
    requires Enabled(w, e)
  {
    match e
    case Publish(f) =>
      w.(slot := w.slot.Publish(f), log := w.log + [(f, w.slot.Publish(f).seqNo)])
    case Advance => w.(slot := w.slot.Advance())
    case Clear => w.(slot := w.slot.Clear(), cleared := |w.log|)
    case Take(c) =>
      match w.slot.Take(w.cursors[c])
      case None => w
      case Some((f, n)) =>
        w.(cursors := w.cursors[c := n], got := w.got[c := w.got[c] + [Max(0, |w.log| - 1)]])
  }

  predicate IsRun<F>(w: World<F>, es: seq<Event<F>>)
    decreases |es|
  {
    es == [] || (Enabled(w, es[0]) && IsRun(Step(w, es[0]), es[1..]))
  }

  function After<F>(w: World<F>, es: seq<Event<F>>): World<F>
    requires IsRun(w, es)
    decreases |es|
  {
    if es == [] then w else After(Step(w, es[0]), es[1..])
  }

  function Init<F>(consumers: nat): World<F> {
    World(Slot(None, 0, 0), seq(consumers, _ => 0), [], 0, seq(consumers, _ => []))
  }

  // ---- the invariant -------------------------------------------------------------------

  predicate Increasing(s: seq<nat>) { forall i, j :: 0 <= i < j < |s| ==> s[i] < s[j] }

  /** The newest index a consumer has, -1 if none. */
  function Newest(got: seq<nat>): int { if got == [] then -1 else got[|got| - 1] }

  function NumberOf<F>(log: seq<(F, nat)>, i: int): nat
    requires i < |log|
  {
    if i < 0 then 0 else log[i].1
  }

  predicate Numbered<F>(w: World<F>) {
    && (forall i, j :: 0 <= i < j < |w.log| ==> w.log[i].1 < w.log[j].1)
    && (forall i :: 0 <= i < |w.log| ==> 0 < w.log[i].1 <= w.slot.counter)
  }

  predicate SlotOk<F(==)>(w: World<F>) {
    && w.cleared <= |w.log|
    && (w.slot.frame.Some? <==> w.cleared < |w.log|)
    && (w.slot.frame.Some? ==> w.log[|w.log| - 1] == (w.slot.frame.value, w.slot.seqNo))
  }

  predicate ConsumersOk<F>(w: World<F>) {
    && |w.cursors| == |w.got|
    && forall c :: 0 <= c < |w.got| ==>
         && Increasing(w.got[c]) && -1 <= Newest(w.got[c]) < |w.log|
         && w.cursors[c] == NumberOf(w.log, Newest(w.got[c]))
  }

  predicate Inv<F(==)>(w: World<F>) { Numbered(w) && SlotOk(w) && ConsumersOk(w) }

  /** A consumer receives a frame exactly if something was published since the slot
      was last emptied and it does not have the newest of it; and then it receives
      that newest one. */
  lemma TakesNewestExactly<F>(w: World<F>, c: nat)
    requires Inv(w) && c < |w.got|
    ensures var t := w.slot.Take(w.cursors[c]); var last := |w.log| - 1;
            && (t.Some? <==> w.cleared <= last && Newest(w.got[c]) < last)
            && (t.Some? ==> t.value == w.log[last])
  {
    var n := Newest(w.got[c]);
    if w.slot.frame.Some? && 0 <= n < |w.log| - 1 { assert w.log[n].1 < w.log[|w.log| - 1].1; }
  }

  lemma StepKeeps<F>(w: World<F>, e: Event<F>)
    requires Inv(w) && Enabled(w, e)
    ensures Inv(Step(w, e))
  {
    if e.Take? { TakesNewestExactly(w, e.consumer); }
    var v := Step(w, e);
    forall c | 0 <= c < |v.got|
      ensures Increasing(v.got[c]) && -1 <= Newest(v.got[c]) < |v.log|
      ensures v.cursors[c] == NumberOf(v.log, Newest(v.got[c]))
    {
      assert Increasing(w.got[c]) && -1 <= Newest(w.got[c]) < |w.log|;
      assert w.cursors[c] == NumberOf(w.log, Newest(w.got[c]));
    }
  }

  lemma {:induction false} RunKeeps<F>(w: World<F>, es: seq<Event<F>>)
    requires Inv(w) && IsRun(w, es)
    ensures Inv(After(w, es))
    decreases |es|
  {
    hide Inv, Step, Enabled;
    if es != [] {
      StepKeeps(w, es[0]);
      RunKeeps(Step(w, es[0]), es[1..]);
    }
  }

  /** In every run a consumer's receipts are frames in the order of publication, no
      frame twice; and what it would be given next is exactly the newest frame
      published since the slot was last emptied, if it does not have it yet. */
  lemma ConsumersSeeNewestOnce<F>(n: nat, es: seq<Event<F>>, c: nat)
    requires IsRun(Init<F>(n), es) && c < n
    ensures var w := After(Init<F>(n), es);
            && |w.got| == |w.cursors| == n
            && Increasing(w.got[c]) && Newest(w.got[c]) < |w.log|
            && var t := w.slot.Take(w.cursors[c]); var last := |w.log| - 1;
               && (t.Some? <==> w.cleared <= last && Newest(w.got[c]) < last)
               && (t.Some? ==> t.value == w.log[last])
  {
    var w := After(Init<F>(n), es);
    RunKeeps(Init<F>(n), es);
    SameConsumers(Init<F>(n), es);
    TakesNewestExactly(w, c);
  }

  lemma {:induction false} SameConsumers<F>(w: World<F>, es: seq<Event<F>>)
    requires IsRun(w, es)
    ensures var v := After(w, es);
            |v.got| == |w.got| && |v.cursors| == |w.cursors|
    decreases |es|
  {
    if es != [] { SameConsumers(Step(w, es[0]), es[1..]); }
  }

  /** The same but for what consumer `c` has received. */
  ghost predicate Alike<F(!new)>(w: World<F>, v: World<F>, c: nat) {
    && w.slot == v.slot && w.log == v.log && w.cleared == v.cleared
    && |w.got| == |v.got| == |w.cursors| == |v.cursors|
    && forall d :: 0 <= d < |w.got| && d != c ==> w.got[d] == v.got[d] && w.cursors[d] == v.cursors[d]
  }

  function Without<F>(es: seq<Event<F>>, c: nat): seq<Event<F>> {
    if es == [] then []
    else if es[0].Take? && es[0].consumer == c then Without(es[1..], c)
    else [es[0]] + Without(es[1..], c)
  }

  /** No consumer affects another: leaving out all of `c`'s reads changes nothing
      for anybody else. */
  lemma {:induction false} ConsumersIndependent<F(!new)>(w: World<F>, v: World<F>, es: seq<Event<F>>, c: nat)
    requires IsRun(w, es) && Alike(w, v, c)
    ensures IsRun(v, Without(es, c)) && Alike(After(w, es), After(v, Without(es, c)), c)
    decreases |es|
  {
    if es != [] {
      var e := es[0];
      if e.Take? && e.consumer == c {
        ConsumersIndependent(Step(w, e), v, es[1..], c);
      } else {
        assert ([e] + Without(es[1..], c))[1..] == Without(es[1..], c);
        ConsumersIndependent(Step(w, e), Step(v, e), es[1..], c);
      }
    }
  }

  // ---- the detector's slots ---------------------------------------------------------------

  /** Camera `c`'s share of the detector's slots. */
  function ShareOf(m: ProcessorMemory.Memory, c: u32, last: nat): Slot<ProcessorMemory.Frame> {
    if c in m.slots then Slot(Some(m.slots[c].frame), m.slots[c].seqNo, m.slotCounter)
    else Slot(None, last, m.slotCounter)
  }
}
