/** The name a saved frame gets (src/frame_processor_helpers.cpp:47-52) and what
    the converter reads back from it (tools/yuv420_convert.cpp:69-83). */
module FileNames {
  import opened Types

  // ---- decimal numbers ------------------------------------------------------------------

  function Digit(d: nat): char
    requires d < 10
  {
    "0123456789"[d]
  }

  predicate IsDigit(c: char) { '0' <= c <= '9' }

  function DigitValue(c: char): nat
    requires IsDigit(c)
  {
    c as int - '0' as int
  }

  /** `stream << n`. */
  function Decimal(n: nat): (s: string)
    ensures s != [] && forall i :: 0 <= i < |s| ==> IsDigit(s[i])
  {
    if n < 10 then [Digit(n)] else Decimal(n / 10) + [Digit(n % 10)]
  }

  function Value(s: string): nat
    requires forall i :: 0 <= i < |s| ==> IsDigit(s[i])
  {
    if s == [] then 0 else Value(s[..|s| - 1]) * 10 + DigitValue(s[|s| - 1])
  }

  lemma {:induction false} DecimalValue(n: nat)
    ensures Value(Decimal(n)) == n
  {
    if n < 10 {
      assert Value([Digit(n)]) == Value([]) * 10 + DigitValue(Digit(n));
    } else {
      DecimalValue(n / 10);
      var s := Decimal(n / 10) + [Digit(n % 10)];
      assert s[..|s| - 1] == Decimal(n / 10);
    }
  }

  // ---- `std::stoul` -----------------------------------------------------------------------

  predicate IsSpace(c: char) {
    c == ' ' || c == '\t' || c == '\n' || c == '\r' || c as int == 11 || c as int == 12
  }

  function SkipSpaces(s: string): string {
    if s != [] && IsSpace(s[0]) then SkipSpaces(s[1..]) else s
  }

  /** How many digits `s` starts with. */
  function DigitRun(s: string): (n: nat)
    ensures n <= |s| && forall i :: 0 <= i < n ==> IsDigit(s[i])
  {
    if s == [] || !IsDigit(s[0]) then 0
    else
      var n := DigitRun(s[1..]);
      assert forall i :: 0 < i < n + 1 ==> s[i] == s[1..][i - 1];
      n + 1
  }

  /** The number at the start of `s`, behind spaces and a sign; nothing if there is
      no digit or it does not fit 64 bits. What follows the digits is ignored. */
  function Stoul(s: string): Option<nat> { SignedNumber(SkipSpaces(s)) }

  function SignedNumber(t: string): Option<nat> {
    var u := if t != [] && (t[0] == '-' || t[0] == '+') then t[1..] else t;
    match Unsigned(u)
    case None => None
    case Some(v) => if t[0] == '-' then Some((SIZE_MODULUS - v) % SIZE_MODULUS) else Some(v)
  }

  /** The digits `u` starts with, as a number of 64 bits. */
  function Unsigned(u: string): (v: Option<nat>)
    ensures v.Some? ==> u != [] && IsDigit(u[0])
  {
    var n := DigitRun(u);
    if n == 0 || Value(u[..n]) >= SIZE_MODULUS then None else Some(Value(u[..n]))
  }

  lemma {:induction false} AllDigits(s: string)
    requires forall i :: 0 <= i < |s| ==> IsDigit(s[i])
    ensures DigitRun(s) == |s|
  {
    if s != [] { AllDigits(s[1..]); }
  }

  lemma StoulDecimal(n: u32)
    ensures Stoul(Decimal(n)) == Some(n)
  {
    var s := Decimal(n);
    AllDigits(s);
    DecimalValue(n);
    assert IsDigit(s[0]);
    assert SkipSpaces(s) == s;
    assert s[..|s|] == s;
  }

  // ---- paths --------------------------------------------------------------------------------

  /** The last position of `c` in `s`, -1 if none. */
  function LastOf(s: string, c: char): (i: int)
    ensures -1 <= i < |s| && (i >= 0 ==> s[i] == c)
    ensures forall j :: i < j < |s| ==> s[j] != c
  {
    if s == [] then -1
    else if s[|s| - 1] == c then |s| - 1
    else LastOf(s[..|s| - 1], c)
  }

  /** `path.stem()`: the last component without its last extension. */
  function Stem(path: string): string {
    var name := path[LastOf(path, '/') + 1..];
    var dot := LastOf(name, '.');
    if dot <= 0 || name == ".." then name else name[..dot]
  }

  /** `makeFilename`. */
  function MakeFilename(dir: string, camera: u32, frame: u32): string {
    dir + "/cam" + Decimal(camera) + "-" + Decimal(frame) + ".yuv"
  }

  /** The first position of `c` in `s` from `from` on. */
  function FindFrom(s: string, c: char, from: nat): (i: int)
    requires from <= |s|
    ensures i == -1 || (from <= i < |s| && s[i] == c && forall j :: from <= j < i ==> s[j] != c)
    ensures i == -1 ==> forall j :: from <= j < |s| ==> s[j] != c
    decreases |s| - from
  {
    if from == |s| then -1 else if s[from] == c then from else FindFrom(s, c, from + 1)
  }

  /** `parseYuvStem`. */
  function ParseYuvStem(stem: string): Option<(u32, u32)> {
    if |stem| < 3 || stem[..3] != "cam" then None
    else
      var dash := FindFrom(stem, '-', 3);
      if dash == -1 then None
      else
        match Stoul(stem[3..dash])
        case None => None
        case Some(a) =>
          match Stoul(stem[dash + 1..])
          case None => None
          case Some(b) => Some((a % 0x1_0000_0000, b % 0x1_0000_0000))
  }

  predicate AllNumeric(s: string) { forall i :: 0 <= i < |s| ==> IsDigit(s[i]) }

  /** An extension with its dot, as `path.extension()` gives it. */
  predicate Extension(ext: string) {
    ext != [] && ext[0] == '.' && forall i :: 0 < i < |ext| ==> ext[i] != '.' && ext[i] != '/'
  }

  /** What stands in front of the last component of a path. */
  predicate Prefix(s: string) { s == [] || s[|s| - 1] == '/' }

  lemma StemOfFilename(dir: string, camera: u32, frame: u32)
    ensures Stem(MakeFilename(dir, camera, frame)) == "cam" + Decimal(camera) + "-" + Decimal(frame)
  {
    var a, b := Decimal(camera), Decimal(frame);
    YuvNames(dir);
    NamesNumbers(camera, frame);
    hide *;
    StemOf(dir + "/", a, b, ".yuv");
    MakeFilenameIs(dir, camera, frame);
    Regroup(dir, "cam" + a + "-" + b);
    assert "cam" + a + "-" + b + ".yuv" == ("cam" + a + "-" + b) + ".yuv";
  }

  lemma YuvNames(dir: string)
    ensures Prefix(dir + "/") && Extension(".yuv")
  {
  }

  lemma MakeFilenameIs(dir: string, camera: u32, frame: u32)
    ensures MakeFilename(dir, camera, frame) ==
            dir + ("/" + ("cam" + Decimal(camera) + "-" + Decimal(frame) + ".yuv"))
  {
    hide Decimal;
    var a, b := Decimal(camera), Decimal(frame);
    assert "/cam" == "/" + "cam";
    assert dir + "/cam" + a + "-" + b + ".yuv" == dir + ("/" + ("cam" + a + "-" + b + ".yuv"));
  }

  lemma Regroup(dir: string, stem: string)
    ensures dir + ("/" + (stem + ".yuv")) == (dir + "/") + (stem + ".yuv")
  {
  }

  lemma StemOf(prefix: string, a: string, b: string, ext: string)
    requires Prefix(prefix) && AllNumeric(a) && AllNumeric(b) && Extension(ext)
    ensures Stem(prefix + ("cam" + a + "-" + b + ext)) == "cam" + a + "-" + b
  {
    var stem := "cam" + a + "-" + b;
    NoSlash(a, b);
    assert |stem| > 3;
    hide AllNumeric, LastOf, Prefix, Extension;
    Plain(stem, ext);
    LastComponent(prefix, stem + ext);
    WithoutExtension(stem, ext);
    assert stem + ext != "..";
  }

  lemma Plain(stem: string, ext: string)
    requires Extension(ext) && forall i :: 0 <= i < |stem| ==> stem[i] != '/'
    ensures forall i :: 0 <= i < |stem + ext| ==> (stem + ext)[i] != '/'
  {
  }

  lemma LastComponent(prefix: string, name: string)
    requires Prefix(prefix) && forall i :: 0 <= i < |name| ==> name[i] != '/'
    ensures var path := prefix + name; path[LastOf(path, '/') + 1..] == name
  {
    hide LastOf;
    var path := prefix + name;
    assert forall j :: |prefix| <= j < |path| ==> path[j] == name[j - |prefix|];
    if prefix == [] { NoneIs(path, '/'); } else { LastIs(path, '/', |prefix| - 1); }
  }

  lemma WithoutExtension(stem: string, ext: string)
    requires Extension(ext) && forall i :: 0 <= i < |stem| ==> stem[i] != '.'
    ensures LastOf(stem + ext, '.') == |stem| && (stem + ext)[..|stem|] == stem
  {
    hide LastOf;
    LastIs(stem + ext, '.', |stem|);
  }

  lemma NoneIs(s: string, c: char)
    requires forall j :: 0 <= j < |s| ==> s[j] != c
    ensures LastOf(s, c) == -1
  {
  }

  lemma NoSlash(a: string, b: string)
    requires AllNumeric(a) && AllNumeric(b)
    ensures var stem := "cam" + a + "-" + b;
            forall i :: 0 <= i < |stem| ==> stem[i] != '/' && stem[i] != '.'
  {
    var stem := "cam" + a + "-" + b;
    forall i | 0 <= i < |stem| ensures stem[i] != '/' && stem[i] != '.' {
      if 3 <= i < 3 + |a| { assert stem[i] == a[i - 3]; }
      if 4 + |a| <= i { assert stem[i] == b[i - 4 - |a|]; }
    }
  }

  lemma LastIs(s: string, c: char, i: nat)
    requires i < |s| && s[i] == c && forall j :: i < j < |s| ==> s[j] != c
    ensures LastOf(s, c) == i
  {
  }

  lemma DashAt(a: string, b: string)
    requires AllNumeric(a)
    ensures var stem := "cam" + a + "-" + b;
            && stem[..3] == "cam" && FindFrom(stem, '-', 3) == 3 + |a|
            && stem[3..3 + |a|] == a && stem[4 + |a|..] == b
  {
    var stem := "cam" + a + "-" + b;
    assert forall j :: 3 <= j < 3 + |a| ==> stem[j] == a[j - 3];
    assert stem[3 + |a|] == '-';
    hide FindFrom;
    var i := FindFrom(stem, '-', 3);
    assert i != -1;
  }

  /** The converter reads back exactly the ids a frame was saved under, for every
      directory name and all 32-bit ids. */
  lemma FilenameRoundTrip(dir: string, camera: u32, frame: u32)
    ensures ParseYuvStem(Stem(MakeFilename(dir, camera, frame))) == Some((camera, frame))
  {
    StemOfFilename(dir, camera, frame);
    hide *;
    NamesNumbers(camera, frame);
  }

  lemma DecimalNumeric(n: nat)
    ensures AllNumeric(Decimal(n))
  {
  }

  lemma NamesNumbers(camera: u32, frame: u32)
    ensures ParseYuvStem("cam" + Decimal(camera) + "-" + Decimal(frame)) == Some((camera, frame))
    ensures AllNumeric(Decimal(camera)) && AllNumeric(Decimal(frame))
  {
    hide *;
    DecimalNumeric(camera);
    DecimalNumeric(frame);
    StoulDecimal(camera);
    StoulDecimal(frame);
    DashAt(Decimal(camera), Decimal(frame));
    ParseAt("cam" + Decimal(camera) + "-" + Decimal(frame), 3 + |Decimal(camera)|, camera, frame);
  }

  lemma ParseAt(stem: string, dash: nat, camera: u32, frame: u32)
    requires 3 <= dash < |stem| && stem[..3] == "cam" && FindFrom(stem, '-', 3) == dash
    requires Stoul(stem[3..dash]) == Some(camera) && Stoul(stem[dash + 1..]) == Some(frame)
    ensures ParseYuvStem(stem) == Some((camera, frame))
  {
    hide Stoul, FindFrom;
  }

  /** So no two frames share a file of one directory. */
  lemma FilenamesDiffer(dir: string, camera: u32, frame: u32, camera': u32, frame': u32)
    ensures MakeFilename(dir, camera, frame) == MakeFilename(dir, camera', frame')
            <==> camera == camera' && frame == frame'
  {
    FilenameRoundTrip(dir, camera, frame);
    FilenameRoundTrip(dir, camera', frame');
    hide *;
  }

  // ---- every other name ---------------------------------------------------------------------

  /** `u` is digits, as many as there are, then anything; their number fits 64 bits. */
  predicate IsUnsigned(u: string, digits: string, rest: string, v: nat) {
    && u == digits + rest && digits != [] && AllNumeric(digits) && (rest == [] || !IsDigit(rest[0]))
    && v == Value(digits) < SIZE_MODULUS
  }

  /** `s` is blanks, perhaps a sign, and such a number; a minus sign takes it from 2^64. */
  ghost predicate IsNumber(s: string, blank: string, sign: string, u: string, v: nat) {
    && s == blank + (sign + u) && (forall i :: 0 <= i < |blank| ==> IsSpace(blank[i]))
    && (sign == "" || sign == "+" || sign == "-")
    && exists digits, rest, m ::
         IsUnsigned(u, digits, rest, m) && v == if sign == "-" then (SIZE_MODULUS - m) % SIZE_MODULUS else m
  }

  ghost predicate Spells(s: string, v: nat) {
    exists blank, sign, u :: IsNumber(s, blank, sign, u, v)
  }

  lemma {:induction false} SkipIs(s: string) returns (blank: string)
    ensures s == blank + SkipSpaces(s) && forall i :: 0 <= i < |blank| ==> IsSpace(blank[i])
  {
    if s != [] && IsSpace(s[0]) {
      blank := SkipIs(s[1..]);
      assert s == [s[0]] + s[1..];
      blank := [s[0]] + blank;
    } else {
      blank := [];
    }
  }

  lemma {:induction false} SkipsTo(blank: string, t: string)
    requires t != [] && !IsSpace(t[0]) && forall i :: 0 <= i < |blank| ==> IsSpace(blank[i])
    ensures SkipSpaces(blank + t) == t
  {
    if blank == [] {
      assert blank + t == t;
    } else {
      assert (blank + t)[1..] == blank[1..] + t;
      SkipsTo(blank[1..], t);
    }
  }

  lemma {:induction false} RunsTo(digits: string, rest: string)
    requires AllNumeric(digits) && (rest == [] || !IsDigit(rest[0]))
    ensures DigitRun(digits + rest) == |digits|
  {
    if digits == [] {
      assert digits + rest == rest;
    } else {
      assert (digits + rest)[1..] == digits[1..] + rest;
      RunsTo(digits[1..], rest);
    }
  }

  lemma {:induction false} RunEnds(s: string)
    ensures DigitRun(s) < |s| ==> !IsDigit(s[DigitRun(s)])
  {
    if s != [] && IsDigit(s[0]) { RunEnds(s[1..]); }
  }

  lemma UnsignedExactly(u: string, v: nat)
    ensures Unsigned(u) == Some(v) <==> exists digits, rest :: IsUnsigned(u, digits, rest, v)
  {
    var n := DigitRun(u);
    RunEnds(u);
    assert u == u[..n] + u[n..];
    hide DigitRun, Value;
    if Unsigned(u) == Some(v) { assert IsUnsigned(u, u[..n], u[n..], v); }
    forall digits, rest | IsUnsigned(u, digits, rest, v) ensures Unsigned(u) == Some(v) {
      RunsTo(digits, rest);
      assert u[..|digits|] == digits;
    }
  }

  /** The converter reads a number exactly where one is spelled. */
  lemma StoulExactly(s: string, v: nat)
    ensures Stoul(s) == Some(v) <==> Spells(s, v)
  {
    if Stoul(s) == Some(v) { StoulSpells(s, v); }
    if Spells(s, v) {
      var blank, sign, u :| IsNumber(s, blank, sign, u, v);
      SpelledStoul(s, blank, sign, u, v);
    }
    hide Stoul, Spells;
  }

  lemma StoulSpells(s: string, v: nat)
    requires Stoul(s) == Some(v)
    ensures Spells(s, v)
  {
    hide SkipSpaces, Unsigned, IsUnsigned;
    var blank := SkipIs(s);
    var t := SkipSpaces(s);
    var signed := t[0] == '-' || t[0] == '+';
    var sign, u := if signed then t[..1] else "", if signed then t[1..] else t;
    assert t == sign + u;
    var m := Unsigned(u).value;
    UnsignedExactly(u, m);
    var digits, rest :| IsUnsigned(u, digits, rest, m);
    assert IsNumber(s, blank, sign, u, v);
  }

  lemma SpelledStoul(s: string, blank: string, sign: string, u: string, v: nat)
    requires IsNumber(s, blank, sign, u, v)
    ensures Stoul(s) == Some(v)
  {
    assert s == blank + (sign + u) && forall i :: 0 <= i < |blank| ==> IsSpace(blank[i]);
    var digits, rest, m :|
      IsUnsigned(u, digits, rest, m) && v == if sign == "-" then (SIZE_MODULUS - m) % SIZE_MODULUS else m;
    UnsignedExactly(u, m);
    assert u[0] == digits[0] && IsDigit(u[0]);
    hide IsUnsigned, Unsigned, SkipSpaces, SignedNumber, IsSpace, IsNumber;
    SignsNumber(sign, u, m);
    assert !IsSpace((sign + u)[0]) by { FirstOf(sign, u); }
    SkipsTo(blank, sign + u);
  }

  lemma FirstOf(sign: string, u: string)
    requires (sign == "" || sign == "+" || sign == "-") && u != [] && IsDigit(u[0])
    ensures !IsSpace((sign + u)[0])
  {
  }

  lemma SignsNumber(sign: string, u: string, m: nat)
    requires (sign == "" || sign == "+" || sign == "-") && Unsigned(u) == Some(m)
    ensures SignedNumber(sign + u) == Some(if sign == "-" then (SIZE_MODULUS - m) % SIZE_MODULUS else m)
  {
    assert IsDigit(u[0]);
    hide Unsigned;
    var t := sign + u;
    if sign == "" { assert t == u; } else { assert t[0] == sign[0] && t[1..] == u; }
  }

  /** `stem` is "cam", a number without a dash, a dash and another number. */
  ghost predicate NamesFrame(stem: string, a: string, b: string, camera: u32, frame: u32) {
    && stem == "cam" + (a + ("-" + b)) && '-' !in a
    && (exists m: nat :: Spells(a, m) && m % 0x1_0000_0000 == camera)
    && (exists n: nat :: Spells(b, n) && n % 0x1_0000_0000 == frame)
  }

  /** The converter takes a file for this camera's frame if and only if its name spells
      these two numbers, each cut down to 32 bits. */
  lemma ParsesExactly(stem: string, camera: u32, frame: u32)
    ensures ParseYuvStem(stem) == Some((camera, frame)) <==>
              exists a, b :: NamesFrame(stem, a, b, camera, frame)
  {
    if ParseYuvStem(stem) == Some((camera, frame)) {
      ParsedNames(stem, camera, frame);
    }
    forall a, b | NamesFrame(stem, a, b, camera, frame)
      ensures ParseYuvStem(stem) == Some((camera, frame))
    {
      NamedParses(stem, a, b, camera, frame);
    }
    hide ParseYuvStem, NamesFrame;
  }

  lemma ParsedNames(stem: string, camera: u32, frame: u32)
    requires ParseYuvStem(stem) == Some((camera, frame))
    ensures exists a, b :: NamesFrame(stem, a, b, camera, frame)
  {
    hide Stoul, FindFrom, Spells;
    var dash := FindFrom(stem, '-', 3);
    var a, b := stem[3..dash], stem[dash + 1..];
    StoulExactly(a, Stoul(a).value);
    StoulExactly(b, Stoul(b).value);
    assert stem == "cam" + (a + ("-" + b));
    assert NamesFrame(stem, a, b, camera, frame);
  }

  lemma NamedParses(stem: string, a: string, b: string, camera: u32, frame: u32)
    requires NamesFrame(stem, a, b, camera, frame)
    ensures ParseYuvStem(stem) == Some((camera, frame))
  {
    hide Stoul, FindFrom, Spells;
    var m: nat :| Spells(a, m) && m % 0x1_0000_0000 == camera;
    var n: nat :| Spells(b, n) && n % 0x1_0000_0000 == frame;
    StoulExactly(a, m);
    StoulExactly(b, n);
    var dash := 3 + |a|;
    assert stem[..3] == "cam" && stem[3..dash] == a && stem[dash] == '-' && stem[dash + 1..] == b;
    assert forall j :: 3 <= j < dash ==> stem[j] == a[j - 3];
  }
}
