/** The turn-taking of the streaming loop (src/stream_manager.cpp:256-270,
    303-323, 400-439): one index runs around the subscribed cameras, across
    passes; a pass ends with the first frame that goes out. */
module Scheduling {
  import opened Types

  /** What one look at a camera comes to: nothing to send (not due, no new frame,
      gone), a send that fails, a send that succeeds. */
  datatype Look = Nothing | Failed | Went

  function Next(n: nat, i: nat): (j: nat)
    requires i < n
    ensures j < n
  {
    if i + 1 == n then 0 else i + 1
  }

  lemma NextIsModulo(n: nat, i: nat)
    requires i < n
    ensures Next(n, i) == (i + 1) % n
  {
  }

  /** Looks until `p` is looked at, from index `i` on. */
  function Distance(n: nat, i: nat, p: nat): nat
    requires i < n && p < n
  {
    if i <= p then p - i else p + n - i
  }

  /** The cameras a series of looks tries to send, by position. */
  function Attempts(n: nat, i: nat, looks: seq<Look>): seq<nat>
    requires i < n
    decreases |looks|
  {
    if looks == [] then []
    else (if looks[0].Nothing? then [] else [i]) + Attempts(n, Next(n, i), looks[1..])
  }

  function IndexAfter(n: nat, i: nat, looks: seq<Look>): (j: nat)
    requires i < n
    ensures j < n
    decreases |looks|
  {
    if looks == [] then i else IndexAfter(n, Next(n, i), looks[1..])
  }

  /** Each look is at the camera the index has come to. */
  ghost predicate Observed(n: nat, i: nat, look: (nat, nat) -> Look, looks: seq<Look>)
    requires i < n
  {
    forall k :: 0 <= k < |looks| ==> looks[k] == look(k, IndexAfter(n, i, looks[..k]))
  }

  lemma ObservedNext(n: nat, i: nat, look: (nat, nat) -> Look, looks: seq<Look>, l: Look)
    requires i < n && Observed(n, i, look, looks) && l == look(|looks|, IndexAfter(n, i, looks))
    ensures Observed(n, i, look, looks + [l])
  {
    forall k | 0 <= k < |looks + [l]|
      ensures (looks + [l])[k] == look(k, IndexAfter(n, i, (looks + [l])[..k]))
    {
      assert (looks + [l])[..k] == looks[..k];
      if k == |looks| { assert looks[..k] == looks; }
    }
  }

  /** The camera at `p` has something to send whenever it is looked at. */
  predicate Ready(n: nat, i: nat, p: nat, looks: seq<Look>)
    requires i < n
    decreases |looks|
  {
    looks == [] || ((i == p ==> !looks[0].Nothing?) && Ready(n, Next(n, i), p, looks[1..]))
  }

  /** A pass ends with the first frame that goes out, or has looked at every camera. */
  predicate IsPass(n: nat, looks: seq<Look>) {
    && |looks| <= n
    && (forall k :: 0 <= k < |looks| - 1 ==> !looks[k].Went?)
    && (|looks| == n || (looks != [] && looks[|looks| - 1].Went?))
  }

  /** What a run of passes tries, each starting where the one before ended. */
  function AllAttempts(n: nat, i: nat, passes: seq<seq<Look>>): seq<nat>
    requires i < n
    decreases |passes|
  {
    if passes == [] then []
    else Attempts(n, i, passes[0]) + AllAttempts(n, IndexAfter(n, i, passes[0]), passes[1..])
  }

  function AllAfter(n: nat, i: nat, passes: seq<seq<Look>>): (j: nat)
    requires i < n
    ensures j < n
    decreases |passes|
  {
    if passes == [] then i else AllAfter(n, IndexAfter(n, i, passes[0]), passes[1..])
  }

  lemma {:induction false} OnePassMore(n: nat, i: nat, passes: seq<seq<Look>>, looks: seq<Look>)
    requires i < n
    ensures AllAfter(n, i, passes + [looks]) == IndexAfter(n, AllAfter(n, i, passes), looks)
    ensures AllAttempts(n, i, passes + [looks]) ==
            AllAttempts(n, i, passes) + Attempts(n, AllAfter(n, i, passes), looks)
    decreases |passes|
  {
    hide Attempts, IndexAfter;
    if passes == [] {
      assert (passes + [looks])[1..] == [];
    } else {
      assert (passes + [looks])[1..] == passes[1..] + [looks];
      OnePassMore(n, IndexAfter(n, i, passes[0]), passes[1..], looks);
    }
  }

  /** The loop's own state and one pass of it. */
  class StreamLoop {
    var cameraOrder: seq<u32>
    var currentIndex: nat

    ghost predicate Valid()
      reads this
    {
      currentIndex < |cameraOrder| || currentIndex == 0
    }

    constructor ()
      ensures Valid() && cameraOrder == []
    {
      cameraOrder, currentIndex := [], 0;
    }

    method UpdateOrder(keys: seq<u32>)
      requires Valid()
      modifies this
      ensures Valid() && cameraOrder == keys
      ensures currentIndex == if keys == old(cameraOrder) then old(currentIndex) else 0
    {
      if keys != cameraOrder {
        cameraOrder := keys;
        currentIndex := 0;
      }
    }

    /** `look(k, p)` is what look number `k`, at position `p`, comes to. */
    method Pass(look: (nat, nat) -> Look) returns (ghost looks: seq<Look>, attempted: seq<nat>, found: bool)
      requires Valid() && cameraOrder != []
      modifies this`currentIndex
      ensures Valid() && currentIndex == IndexAfter(|cameraOrder|, old(currentIndex), looks)
      ensures attempted == Attempts(|cameraOrder|, old(currentIndex), looks)
      ensures IsPass(|cameraOrder|, looks) && Observed(|cameraOrder|, old(currentIndex), look, looks)
      ensures found <==> looks != [] && looks[|looks| - 1].Went?
    {
      var n := |cameraOrder|;
      looks, attempted, found := [], [], false;
      var checked := 0;
      while checked < n && !found
        invariant Valid() && checked == |looks| <= n && currentIndex < n
        invariant currentIndex == IndexAfter(n, old(currentIndex), looks)
        invariant attempted == Attempts(n, old(currentIndex), looks)
        invariant Observed(n, old(currentIndex), look, looks)
        invariant found <==> looks != [] && looks[|looks| - 1].Went?
        invariant forall k :: 0 <= k < |looks| - 1 ==> !looks[k].Went?
        decreases n - checked
      {
        var position := currentIndex;
        NextIsModulo(n, currentIndex);
        currentIndex := (currentIndex + 1) % n;
        var what := look(checked, position);
        checked := checked + 1;
        Extends(n, old(currentIndex), looks, what);
        ObservedNext(n, old(currentIndex), look, looks, what);
        looks := looks + [what];
        if what.Nothing? { continue; }
        attempted := attempted + [position];
        if what.Went? { found := true; }
      }
    }

    /** `count` turns of the streaming loop while the subscriptions stay `keys`;
        `look(m, k, p)` is look number `k`, at position `p`, of turn `m`. */
    method Run(keys: seq<u32>, count: nat, look: nat -> (nat, nat) -> Look)
      returns (ghost passes: seq<seq<Look>>, attempted: seq<nat>)
      requires Valid() && keys != []
      modifies this
      ensures Valid() && cameraOrder == keys && |passes| == count
      ensures forall m :: 0 <= m < count ==> IsPass(|keys|, passes[m])
      ensures var start := if keys == old(cameraOrder) then old(currentIndex) else 0;
              && attempted == AllAttempts(|keys|, start, passes)
              && currentIndex == AllAfter(|keys|, start, passes)
    {
      UpdateOrder(keys);
      ghost var start := currentIndex;
      passes, attempted := [], [];
      hide Attempts, IndexAfter, IsPass, Observed;
      for m := 0 to count
        invariant Valid() && cameraOrder == keys && |passes| == m
        invariant forall q :: 0 <= q < m ==> IsPass(|keys|, passes[q])
        invariant attempted == AllAttempts(|keys|, start, passes)
        invariant currentIndex == AllAfter(|keys|, start, passes)
      {
        UpdateOrder(keys);
        var looks, tried, _ := Pass(look(m));
        OnePassMore(|keys|, start, passes, looks);
        passes := passes + [looks];
        attempted := attempted + tried;
      }
    }
  }

  lemma {:induction false} Extends(n: nat, i: nat, looks: seq<Look>, l: Look)
    requires i < n
    ensures IndexAfter(n, i, looks + [l]) == Next(n, IndexAfter(n, i, looks))
    ensures Attempts(n, i, looks + [l]) ==
            Attempts(n, i, looks) + (if l.Nothing? then [] else [IndexAfter(n, i, looks)])
    decreases |looks|
  {
    if looks == [] {
      assert (looks + [l])[1..] == [];
    } else {
      assert (looks + [l])[1..] == looks[1..] + [l];
      Extends(n, Next(n, i), looks[1..], l);
    }
  }

  /** Passes only cut the looks into pieces: two series, one behind the other. */
  lemma {:induction false} Continues(n: nat, i: nat, a: seq<Look>, b: seq<Look>)
    requires i < n
    ensures Attempts(n, i, a + b) == Attempts(n, i, a) + Attempts(n, IndexAfter(n, i, a), b)
    ensures IndexAfter(n, i, a + b) == IndexAfter(n, IndexAfter(n, i, a), b)
    decreases |a|
  {
    if a == [] {
      assert a + b == b;
    } else {
      assert (a + b)[1..] == a[1..] + b;
      Continues(n, Next(n, i), a[1..], b);
    }
  }

  /** A camera that always has something to send is tried within as many attempts
      as it is looks away, so within `n`. */
  lemma {:induction false} ReadyIsAttempted(n: nat, i: nat, p: nat, looks: seq<Look>)
    requires i < n && p < n && Ready(n, i, p, looks)
    requires |Attempts(n, i, looks)| > Distance(n, i, p)
    ensures Distance(n, i, p) < n
    ensures p in Attempts(n, i, looks)[..Distance(n, i, p) + 1]
    decreases |looks|
  {
    var all, rest := Attempts(n, i, looks), Attempts(n, Next(n, i), looks[1..]);
    if i != p {
      assert Distance(n, Next(n, i), p) == Distance(n, i, p) - 1;
      ReadyIsAttempted(n, Next(n, i), p, looks[1..]);
      if looks[0].Nothing? {
        assert all == rest;
      } else {
        assert all[1..] == rest;
        assert all[..Distance(n, i, p) + 1][1..] == rest[..Distance(n, i, p)];
      }
    } else {
      assert all[0] == p;
    }
  }

  /** The camera at `p` has something to send in every pass of a run. */
  predicate ReadyThroughout(n: nat, i: nat, p: nat, passes: seq<seq<Look>>)
    requires i < n
    decreases |passes|
  {
    passes == [] ||
    (Ready(n, i, p, passes[0]) && ReadyThroughout(n, IndexAfter(n, i, passes[0]), p, passes[1..]))
  }

  function Joined(passes: seq<seq<Look>>): seq<Look> {
    if passes == [] then [] else passes[0] + Joined(passes[1..])
  }

  lemma {:induction false} ReadyContinues(n: nat, i: nat, p: nat, a: seq<Look>, b: seq<Look>)
    requires i < n && Ready(n, i, p, a) && Ready(n, IndexAfter(n, i, a), p, b)
    ensures Ready(n, i, p, a + b)
    decreases |a|
  {
    if a == [] {
      assert a + b == b;
    } else {
      assert (a + b)[1..] == a[1..] + b;
      ReadyContinues(n, Next(n, i), p, a[1..], b);
    }
  }

  /** A run of passes tries what its looks, joined, try. */
  lemma {:induction false} PassesJoin(n: nat, i: nat, p: nat, passes: seq<seq<Look>>)
    requires i < n && ReadyThroughout(n, i, p, passes)
    ensures AllAttempts(n, i, passes) == Attempts(n, i, Joined(passes))
    ensures Ready(n, i, p, Joined(passes))
    decreases |passes|
  {
    hide Attempts, IndexAfter, Ready;
    if passes == [] {
      NoLooks(n, i, p);
    } else {
      var j := IndexAfter(n, i, passes[0]);
      PassesJoin(n, j, p, passes[1..]);
      Continues(n, i, passes[0], Joined(passes[1..]));
      ReadyContinues(n, i, p, passes[0], Joined(passes[1..]));
    }
  }

  lemma NoLooks(n: nat, i: nat, p: nat)
    requires i < n
    ensures Attempts(n, i, []) == [] && Ready(n, i, p, [])
  {
  }

  /** Across passes: while the subscriptions stay as they are, a camera that always
      has something to send is among the first attempts of the run, as many as it
      is looks away from where the run starts, however the passes are cut. */
  lemma ReadyAcrossPasses(n: nat, i: nat, p: nat, passes: seq<seq<Look>>)
    requires i < n && p < n && ReadyThroughout(n, i, p, passes)
    requires |AllAttempts(n, i, passes)| > Distance(n, i, p)
    ensures Distance(n, i, p) < n
    ensures p in AllAttempts(n, i, passes)[..Distance(n, i, p) + 1]
  {
    PassesJoin(n, i, p, passes);
    ReadyIsAttempted(n, i, p, Joined(passes));
  }

  lemma {:induction false} LooksAtReady(n: nat, i: nat, p: nat, looks: seq<Look>)
    requires i < n && p < n && Ready(n, i, p, looks) && |looks| > Distance(n, i, p)
    ensures Attempts(n, i, looks) != []
    decreases |looks|
  {
    if i != p { LooksAtReady(n, Next(n, i), p, looks[1..]); }
  }

  lemma {:induction false} WentIsAttempt(n: nat, i: nat, looks: seq<Look>)
    requires i < n && looks != [] && looks[|looks| - 1].Went?
    ensures Attempts(n, i, looks) != []
    decreases |looks|
  {
    if looks[0].Nothing? { WentIsAttempt(n, Next(n, i), looks[1..]); }
  }

  lemma PassTries(n: nat, i: nat, p: nat, looks: seq<Look>)
    requires i < n && p < n && Ready(n, i, p, looks) && IsPass(n, looks)
    ensures Attempts(n, i, looks) != []
  {
    if |looks| == n { LooksAtReady(n, i, p, looks); } else { WentIsAttempt(n, i, looks); }
  }

  lemma {:induction false} EachPassTries(n: nat, i: nat, p: nat, passes: seq<seq<Look>>)
    requires i < n && p < n && ReadyThroughout(n, i, p, passes)
    requires forall m :: 0 <= m < |passes| ==> IsPass(n, passes[m])
    ensures |AllAttempts(n, i, passes)| >= |passes|
    decreases |passes|
  {
    hide Attempts, IndexAfter, Ready, IsPass;
    if passes != [] {
      PassTries(n, i, p, passes[0]);
      EachPassTries(n, IndexAfter(n, i, passes[0]), p, passes[1..]);
    }
  }

  /** So a camera that stays ready is tried within as many passes as it is looks
      away, at most `n`, whatever the other cameras do. */
  lemma ReadyWithinPasses(n: nat, i: nat, p: nat, passes: seq<seq<Look>>)
    requires i < n && p < n && ReadyThroughout(n, i, p, passes)
    requires forall m :: 0 <= m < |passes| ==> IsPass(n, passes[m])
    requires |passes| > Distance(n, i, p)
    ensures |passes| <= |AllAttempts(n, i, passes)|
    ensures p in AllAttempts(n, i, passes)[..Distance(n, i, p) + 1]
  {
    EachPassTries(n, i, p, passes);
    ReadyAcrossPasses(n, i, p, passes);
  }

  /** Every camera is looked at within `n` looks, ready or not: no failing or slow
      camera can keep another from its turn. */
  lemma {:induction false} EveryCameraLookedAt(n: nat, i: nat, p: nat, looks: seq<Look>)
    requires i < n && p < n && |looks| >= Distance(n, i, p)
    ensures IndexAfter(n, i, looks[..Distance(n, i, p)]) == p
    decreases |looks|
  {
    if i != p {
      var d := Distance(n, i, p);
      assert looks[..d][1..] == looks[1..][..d - 1];
      EveryCameraLookedAt(n, Next(n, i), p, looks[1..]);
    } else {
      assert looks[..0] == [];
    }
  }
}
