/** Packed little-endian records: what a `__attribute__((packed))` struct puts on
    the wire and what Python's `struct` takes off it. */
module Packing {
  import opened Types

  /** The number of values a field of `k` bytes can hold. */
  function Range(k: nat): (r: nat)
    ensures r >= 1
  {
    if k == 0 then 1 else 0x100 * Range(k - 1)
  }

  lemma Ranges()
    ensures Range(1) == 0x100 && Range(2) == 0x1_0000
    ensures Range(4) == 0x1_0000_0000 && Range(8) == 0x1_0000_0000_0000_0000
  {
    assert Range(3) == 0x100 * Range(2);
    assert Range(5) == 0x100 * Range(4);
    assert Range(7) == 0x100 * Range(6);
  }

  /** The low `k` bytes of `n`, least significant first. */
  function LE(n: nat, k: nat): (b: seq<byte>)
    ensures |b| == k
  {
    if k == 0 then [] else [n % 0x100] + LE(n / 0x100, k - 1)
  }

  function FromLE(b: seq<byte>): (n: nat)
    ensures n < Range(|b|)
  {
    if b == [] then 0 else b[0] + 0x100 * FromLE(b[1..])
  }

  lemma DivideTwice(n: nat, r: nat)
    requires r >= 1
    ensures n % 0x100 + 0x100 * ((n / 0x100) % r) == n % (0x100 * r)
  {
    var m, q, s := n / 0x100, n / 0x100 / r, (n / 0x100) % r;
    assert m == q * r + s;
    assert n == q * (0x100 * r) + (0x100 * s + n % 0x100) by {
      assert 0x100 * (q * r) == q * (0x100 * r);
    }
    assert 0 <= 0x100 * s + n % 0x100 < 0x100 * r;
    Remainder(n, 0x100 * r, q, 0x100 * s + n % 0x100);
  }

  lemma Remainder(n: nat, d: nat, q: nat, s: nat)
    requires s < d && n == q * d + s
    ensures n % d == s
  {
    Split(n, d);
    OneQuotient(d, q, s, n / d, n % d);
  }

  lemma Split(n: nat, d: nat)
    requires d >= 1
    ensures n == (n / d) * d + n % d
  {
  }

  lemma AtLeast(p: nat, d: nat)
    ensures p == 0 || p * d >= d
  {
  }

  lemma {:induction false} OneQuotient(d: nat, q: nat, s: nat, p: nat, t: nat)
    requires s < d && t < d && q * d + s == p * d + t
    ensures q == p && s == t
  {
    AtLeast(p, d);
    AtLeast(q, d);
    if q != 0 && p != 0 {
      assert (q - 1) * d + s == (p - 1) * d + t;
      OneQuotient(d, q - 1, s, p - 1, t);
    }
  }

  /** Printing a number into `k` bytes and reading it back truncates it. */
  lemma {:induction false} Truncates(n: nat, k: nat)
    ensures FromLE(LE(n, k)) == n % Range(k)
  {
    if k > 0 {
      Truncates(n / 0x100, k - 1);
      assert LE(n, k)[1..] == LE(n / 0x100, k - 1);
      DivideTwice(n, Range(k - 1));
    }
  }

  /** `i` as a 32-bit two's complement pattern, and back. */
  function Pattern(i: i32): u32 { if i < 0 then i + 0x1_0000_0000 else i }

  function Signed(n: nat): int { if n < 0x8000_0000 then n else n - 0x1_0000_0000 }

  // ---- records --------------------------------------------------------------------

  datatype Field = Field(width: nat, value: nat)

  function Pack(fs: seq<Field>): (b: seq<byte>)
    ensures |b| == Total(Widths(fs))
  {
    if fs == [] then []
    else
      assert Widths(fs)[1..] == Widths(fs[1..]);
      LE(fs[0].value, fs[0].width) + Pack(fs[1..])
  }

  function Widths(fs: seq<Field>): (w: seq<nat>)
    ensures |w| == |fs|
  {
    seq(|fs|, i requires 0 <= i < |fs| => fs[i].width)
  }

  /** What survives of `n` in a field of `k` bytes. */
  function Kept(n: nat, k: nat): nat { n % Range(k) }

  lemma KeptIs(n: nat)
    ensures Kept(n, 1) == n % 0x100 && Kept(n, 2) == n % 0x1_0000
    ensures Kept(n, 4) == n % 0x1_0000_0000 && Kept(n, 8) == n % 0x1_0000_0000_0000_0000
  {
    Ranges();
    hide Range;
  }

  lemma KeptByte(n: byte)
    ensures Kept(n, 1) == n
  {
    KeptIs(n);
    hide Kept;
  }

  lemma KeptU32(n: u32)
    ensures Kept(n, 4) == n
  {
    KeptIs(n);
    hide Kept;
  }

  lemma KeptU64(n: u64)
    ensures Kept(n, 8) == n
  {
    KeptIs(n);
    hide Kept;
  }

  /** What survives of the values of `fs` in their fields. */
  function Values(fs: seq<Field>): (v: seq<nat>)
    ensures |v| == |fs|
  {
    seq(|fs|, i requires 0 <= i < |fs| => Kept(fs[i].value, fs[i].width))
  }

  function Total(widths: seq<nat>): nat {
    if widths == [] then 0 else widths[0] + Total(widths[1..])
  }

  /** `struct.unpack_from`. */
  function Unpack(widths: seq<nat>, data: seq<byte>, pos: nat): (v: seq<nat>)
    requires pos + Total(widths) <= |data|
    ensures |v| == |widths|
    ensures forall i :: 0 <= i < |v| ==> v[i] < Range(widths[i])
  {
    if widths == [] then []
    else [FromLE(data[pos..pos + widths[0]])] + Unpack(widths[1..], data, pos + widths[0])
  }

  /** Unpacking a packed record wherever it stands in a message. */
  lemma {:induction false} UnpackPack(fs: seq<Field>, data: seq<byte>, pos: nat)
    requires pos + Total(Widths(fs)) <= |data|
    requires data[pos..pos + Total(Widths(fs))] == Pack(fs)
    ensures Unpack(Widths(fs), data, pos) == Values(fs)
  {
    hide *;
    if fs == [] {
      NoFields(fs, data, pos);
    } else {
      PackHead(fs);
      TotalOf(Widths(fs));
      var w, end := fs[0].width, pos + Total(Widths(fs));
      Cut(data, pos, end, LE(fs[0].value, w), Pack(fs[1..]));
      Truncates(fs[0].value, w);
      KeptRange(fs[0].value, w);
      UnpackPack(fs[1..], data, pos + w);
      UnpackHead(Widths(fs), data, pos);
    }
  }

  lemma NoFields(fs: seq<Field>, data: seq<byte>, pos: nat)
    requires fs == [] && pos <= |data|
    ensures Total(Widths(fs)) == 0 && Unpack(Widths(fs), data, pos) == Values(fs)
  {
  }

  lemma TotalOf(widths: seq<nat>)
    requires widths != []
    ensures Total(widths) == widths[0] + Total(widths[1..])
  {
  }

  lemma KeptRange(n: nat, k: nat)
    ensures Kept(n, k) == n % Range(k)
  {
  }

  lemma UnpackHead(widths: seq<nat>, data: seq<byte>, pos: nat)
    requires widths != [] && pos + Total(widths) <= |data|
    ensures Unpack(widths, data, pos) ==
            [FromLE(data[pos..pos + widths[0]])] + Unpack(widths[1..], data, pos + widths[0])
  {
    hide FromLE, Range;
  }

  lemma PackHead(fs: seq<Field>)
    requires fs != []
    ensures Pack(fs) == LE(fs[0].value, fs[0].width) + Pack(fs[1..])
    ensures Widths(fs) == [fs[0].width] + Widths(fs[1..])
    ensures Widths(fs)[1..] == Widths(fs[1..])
    ensures Values(fs) == [Kept(fs[0].value, fs[0].width)] + Values(fs[1..])
  {
    assert Widths(fs)[1..] == Widths(fs[1..]);
    hide Range, LE;
  }

  lemma Cut(data: seq<byte>, pos: nat, end: nat, a: seq<byte>, b: seq<byte>)
    requires pos <= end <= |data| && data[pos..end] == a + b
    ensures end == pos + |a| + |b|
    ensures data[pos..pos + |a|] == a && data[pos + |a|..end] == b
  {
    assert data[pos..pos + |a|] == (a + b)[..|a|];
    assert data[pos + |a|..end] == (a + b)[|a|..];
  }

  // ---- what was read is what was printed --------------------------------------------

  /** A record of these widths and values. */
  function Zipped(widths: seq<nat>, values: seq<nat>): (fs: seq<Field>)
    requires |widths| == |values|
    ensures |fs| == |widths| && Widths(fs) == widths
  {
    seq(|widths|, i requires 0 <= i < |widths| => Field(widths[i], values[i]))
  }

  predicate InRange(widths: seq<nat>, values: seq<nat>) {
    |values| == |widths| && forall i :: 0 <= i < |values| ==> values[i] < Range(widths[i])
  }

  lemma LowByte(x: byte, m: nat, k: nat)
    ensures LE(x + 0x100 * m, k + 1) == [x] + LE(m, k)
  {
    assert (x + 0x100 * m) % 0x100 == x && (x + 0x100 * m) / 0x100 == m;
  }

  lemma ReadHead(b: seq<byte>)
    requires b != []
    ensures FromLE(b) == b[0] + 0x100 * FromLE(b[1..])
  {
    hide Range;
  }

  lemma {:induction false} PrintsRead(b: seq<byte>)
    ensures LE(FromLE(b), |b|) == b
  {
    if b != [] {
      ReadHead(b);
      hide FromLE, LE, Range;
      PrintsRead(b[1..]);
      LowByte(b[0], FromLE(b[1..]), |b| - 1);
      assert b == [b[0]] + b[1..];
    }
  }

  lemma ZippedTail(widths: seq<nat>, values: seq<nat>)
    requires |widths| == |values| && widths != []
    ensures Zipped(widths, values)[0] == Field(widths[0], values[0])
    ensures Zipped(widths, values)[1..] == Zipped(widths[1..], values[1..])
  {
  }

  lemma Rejoin(data: seq<byte>, i: nat, j: nat, k: nat)
    requires i <= j <= k <= |data|
    ensures data[i..k] == data[i..j] + data[j..k]
  {
  }

  /** The first field comes back as the bytes it was read from. */
  lemma FirstBack(widths: seq<nat>, data: seq<byte>, pos: nat)
    requires widths != [] && pos + Total(widths) <= |data|
    ensures pos + widths[0] + Total(widths[1..]) == pos + Total(widths)
    ensures Pack(Zipped(widths, Unpack(widths, data, pos))) ==
            data[pos..pos + widths[0]]
            + Pack(Zipped(widths[1..], Unpack(widths[1..], data, pos + widths[0])))
  {
    TotalOf(widths);
    UnpackHead(widths, data, pos);
    PrintsRead(data[pos..pos + widths[0]]);
    var first, rest := FromLE(data[pos..pos + widths[0]]), Unpack(widths[1..], data, pos + widths[0]);
    hide *;
    ZippedFirst(widths, first, rest);
  }

  lemma ZippedFirst(widths: seq<nat>, first: nat, rest: seq<nat>)
    requires widths != [] && |rest| + 1 == |widths|
    ensures Pack(Zipped(widths, [first] + rest)) == LE(first, widths[0]) + Pack(Zipped(widths[1..], rest))
  {
    var fs := Zipped(widths, [first] + rest);
    assert ([first] + rest)[1..] == rest;
    ZippedTail(widths, [first] + rest);
    hide *;
    PackHead(fs);
  }

  lemma {:induction false} PackUnpacked(widths: seq<nat>, data: seq<byte>, pos: nat)
    requires pos + Total(widths) <= |data|
    ensures Pack(Zipped(widths, Unpack(widths, data, pos))) == data[pos..pos + Total(widths)]
  {
    hide *;
    if widths == [] {
      NothingBack(data, pos);
    } else {
      FirstBack(widths, data, pos);
      PackUnpacked(widths[1..], data, pos + widths[0]);
      Rejoin(data, pos, pos + widths[0], pos + Total(widths));
    }
  }

  lemma NothingBack(data: seq<byte>, pos: nat)
    requires pos <= |data|
    ensures Total([]) == 0 && Pack(Zipped([], Unpack([], data, pos))) == [] == data[pos..pos + Total([])]
  {
  }

  /** A reader takes these values off the wire exactly if a printer puts them there. */
  lemma UnpackExactly(widths: seq<nat>, data: seq<byte>, pos: nat, values: seq<nat>)
    requires pos + Total(widths) <= |data|
    ensures Unpack(widths, data, pos) == values <==>
              InRange(widths, values) && data[pos..pos + Total(widths)] == Pack(Zipped(widths, values))
  {
    PackUnpacked(widths, data, pos);
    assert InRange(widths, Unpack(widths, data, pos));
    if InRange(widths, values) && data[pos..pos + Total(widths)] == Pack(Zipped(widths, values)) {
      UnpackPack(Zipped(widths, values), data, pos);
      KeepsInRange(widths, values);
    }
    hide Unpack, Pack, Range, Total;
  }

  lemma KeepsInRange(widths: seq<nat>, values: seq<nat>)
    requires InRange(widths, values)
    ensures Values(Zipped(widths, values)) == values
  {
    forall i | 0 <= i < |values| ensures Kept(values[i], widths[i]) == values[i] {
      Small(values[i], Range(widths[i]));
    }
    hide Range;
  }

  lemma Small(n: nat, r: nat)
    requires n < r
    ensures n % r == n
  {
  }
}
