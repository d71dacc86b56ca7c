/** Value types shared by the model: the processing modes and the small
    generic datatypes every other module uses (src/types.hpp). */
module Types {
  datatype Option<+T> = None | Some(value: T)

  datatype Result<+T, +E> = Ok(value: T) | Err(error: E)

  datatype ProcessMode =
    | NoMode | Buffer | Batch | Trigger
    | Checkerboard | Checkerboard2x2 | Aruco | Aruco2x2
  {
    predicate IsDetector() {
      Checkerboard? || Checkerboard2x2? || Aruco? || Aruco2x2?
    }

    predicate UsesWriterPool() {
      Batch? || Trigger? || IsDetector()
    }
  }

  type byte = b: int | 0 <= b < 0x100
  type u32 = n: int | 0 <= n < 0x1_0000_0000
  type u64 = n: int | 0 <= n < 0x1_0000_0000_0000_0000
  type i32 = n: int | -0x8000_0000 <= n < 0x8000_0000

  const SIZE_MODULUS: nat := 0x1_0000_0000_0000_0000

  /** `size_t` addition. */
  function AddSize(a: nat, b: nat): (r: nat)
    ensures a + b < SIZE_MODULUS ==> r == a + b
  {
    (a + b) % SIZE_MODULUS
  }

  function Max(a: int, b: int): int { if a < b then b else a }

  function Min(a: int, b: int): int { if a < b then a else b }
}

/** Sums over finite sequences and how one update changes them. */
module Sums {
  function Sum(s: seq<nat>): nat {
    if s == [] then 0 else s[0] + Sum(s[1..])
  }

  lemma {:induction false} SumUpdate(s: seq<nat>, i: nat, v: nat)
    requires i < |s|
    ensures Sum(s[i := v]) == Sum(s) - s[i] + v
    ensures s[i] <= Sum(s)
  {
    if i == 0 {
      assert s[0 := v][1..] == s[1..];
    } else {
      assert s[i := v][1..] == s[1..][i - 1 := v];
      SumUpdate(s[1..], i - 1, v);
    }
  }

  lemma {:induction false} SumConcat(s: seq<nat>, t: seq<nat>)
    ensures Sum(s + t) == Sum(s) + Sum(t)
  {
    if s == [] {
      assert s + t == t;
    } else {
      assert (s + t)[1..] == s[1..] + t;
      SumConcat(s[1..], t);
    }
  }

  lemma {:induction false} SumZero(s: seq<nat>)
    requires forall i :: 0 <= i < |s| ==> s[i] == 0
    ensures Sum(s) == 0
  {
    if s != [] { SumZero(s[1..]); }
  }

  /** Summands that change by at most `d` each change the sum by at most `|s| * d`. */
  lemma {:induction false} SumGrowth(s: seq<nat>, t: seq<nat>)
    requires |s| == |t|
    requires forall i :: 0 <= i < |s| ==> t[i] <= 1
    ensures Sum(t) <= Sum(s) + |s|
  {
    if s != [] { SumGrowth(s[1..], t[1..]); }
  }
}

/** Products of natural numbers, one fact at a time. */
module Products {
  lemma Monotone(a: nat, b: nat, c: nat)
    requires a <= b
    ensures a * c <= b * c
  {
  }

  lemma Next(a: nat, c: nat)
    ensures (a + 1) * c == a * c + c
    ensures c * (a + 1) == c * a + c
  {
  }

  lemma Distributes(a: nat, b: nat, c: nat)
    ensures a * (b + c) == a * b + a * c
  {
  }
}
