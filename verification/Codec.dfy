/**
 * The binary format: fixed-width integers (most significant byte first), byte strings and arrays behind a 32-bit
 * length. The functions specify what is written and read; the classes write and read step by step.
 */
module Codec {
  import opened Base

  // ---- Integers ----

  /** The low `width` bytes of `n`, most significant first. */
  function Digits(n: nat, width: nat): (b: Bytes)
    ensures |b| == width
  {
    if width == 0 then [] else Digits(n / 256, width - 1) + [(n % 256) as byte]
  }

  function Value(b: Bytes): nat {
    if b == [] then 0 else Value(b[..|b| - 1]) * 256 + b[|b| - 1] as nat
  }

  /** The number of values that `width` bytes can hold. */
  function Capacity(width: nat): nat {
    if width == 0 then 1 else 256 * Capacity(width - 1)
  }

  lemma {:induction false} ValueOfDigits(n: nat, width: nat)
    requires n < Capacity(width)
    ensures Value(Digits(n, width)) == n
  {
    if width > 0 {
      ValueOfDigits(n / 256, width - 1);
      var b := Digits(n, width);
      assert b[..width - 1] == Digits(n / 256, width - 1);
    }
  }

  /** A signed number as an unsigned one of the same width, and back. */
  function ToUnsigned(i: int, limit: nat): int {
    if i < 0 then i + limit else i
  }

  function ToSigned(n: nat, limit: nat): int {
    if n < limit / 2 then n else n - limit
  }

  const U64_LIMIT: nat := 0x1_0000_0000_0000_0000

  // ---- Formats ----

  /** How values of a type are written, and read from the front of some bytes. Reading too few bytes gives None. */
  datatype Format<!T> = Format(write: T -> Bytes, read: Bytes -> Option<(T, Bytes)>)

  /** Reading what was written for `x` gives `x` back, and leaves what follows it untouched. */
  ghost predicate RoundTrips<T(!new)>(f: Format<T>, x: T) {
    forall rest :: f.read(f.write(x) + rest) == Some((x, rest))
  }

  function Take(count: nat, b: Bytes): Option<(Bytes, Bytes)> {
    if count <= |b| then Some((b[..count], b[count..])) else None
  }

  function WriteInt(n: nat, width: nat): Bytes {
    Digits(n, width)
  }

  function ReadInt(b: Bytes, width: nat): (r: Option<(nat, Bytes)>) {
    match Take(width, b)
    case None => None
    case Some((digits, rest)) => Some((Value(digits), rest))
  }

  lemma TakeBack(a: Bytes, rest: Bytes)
    ensures Take(|a|, a + rest) == Some((a, rest))
  {
    assert (a + rest)[..|a|] == a && (a + rest)[|a|..] == rest;
  }

  lemma IntBack(n: nat, width: nat, rest: Bytes)
    requires n < Capacity(width)
    ensures ReadInt(WriteInt(n, width) + rest, width) == Some((n, rest))
  {
    TakeBack(Digits(n, width), rest);
    ValueOfDigits(n, width);
  }

  lemma Capacities()
    ensures Capacity(4) == U32_LIMIT && Capacity(8) == U64_LIMIT
  {
  }

  function ReadSigned(b: Bytes, width: nat, limit: nat): Option<(int, Bytes)> {
    match ReadInt(b, width)
    case None => None
    case Some((n, rest)) => Some((ToSigned(n, limit), rest))
  }

  /** Every integer of the four types comes back from what was written for it, whatever follows. */
  lemma IntegersRoundTrip(u: u32, v: u64, i: int, j: i64, rest: Bytes)
    requires -0x8000_0000 <= i < 0x8000_0000
    ensures ReadInt(WriteInt(u, 4) + rest, 4) == Some((u, rest))
    ensures ReadInt(WriteInt(v, 8) + rest, 8) == Some((v, rest))
    ensures ReadSigned(WriteInt(ToUnsigned(i, U32_LIMIT), 4) + rest, 4, U32_LIMIT) == Some((i, rest))
    ensures ReadSigned(WriteInt(ToUnsigned(j, U64_LIMIT), 8) + rest, 8, U64_LIMIT) == Some((j, rest))
  {
    Capacities();
    IntBack(u, 4, rest);
    IntBack(v, 8, rest);
    IntBack(ToUnsigned(i, U32_LIMIT), 4, rest);
    IntBack(ToUnsigned(j, U64_LIMIT), 8, rest);
  }

  /** A negative number is written as the one that is larger by the whole range: its two's complement. */
  lemma TwosComplement(i: int, j: i64)
    requires -0x8000_0000 <= i < 0x8000_0000
    ensures 0 <= ToUnsigned(i, U32_LIMIT) < U32_LIMIT && ToUnsigned(i, U32_LIMIT) - i in {0, 0x1_0000_0000}
    ensures 0 <= ToUnsigned(j, U64_LIMIT) < U64_LIMIT && ToUnsigned(j, U64_LIMIT) - j in {0, 0x1_0000_0000_0000_0000}
    ensures WriteInt(ToUnsigned(-1, U32_LIMIT), 4) == [0xFF, 0xFF, 0xFF, 0xFF]
  {
    var n := 0xFFFF_FFFF;
    assert Digits(n, 4) == Digits(n / 256, 3) + [0xFF] && Digits(n / 256, 3) == Digits(n / 256 / 256, 2) + [0xFF];
    assert Digits(0xFFFF, 2) == Digits(0xFF, 1) + [0xFF] && Digits(0xFF, 1) == Digits(0, 0) + [0xFF];
  }

  // ---- Strings and arrays ----

  function WriteString(s: Bytes): Bytes {
    WriteInt(AsU32(|s|), 4) + s
  }

  function ReadString(b: Bytes): Option<(Bytes, Bytes)> {
    match ReadInt(b, 4)
    case None => None
    case Some((size, rest)) => Take(size, rest)
  }

  const STRINGS: Format<Bytes> := Format(WriteString, ReadString)

  /** A string comes back if and only if its length fits the 32-bit prefix. */
  lemma StringRoundTripIff(s: Bytes)
    ensures RoundTrips(STRINGS, s) <==> |s| < U32_LIMIT
  {
    Capacities();
    forall rest
      ensures ReadString(WriteString(s) + rest) == Take(AsU32(|s|), s + rest)
    {
      IntBack(AsU32(|s|), 4, s + rest);
      ConcatAssociates(WriteInt(AsU32(|s|), 4), s, rest);
    }
    if |s| < U32_LIMIT {
      forall rest
        ensures STRINGS.read(STRINGS.write(s) + rest) == Some((s, rest))
      {
        TakeBack(s, rest);
      }
    } else {
      assert STRINGS.read(STRINGS.write(s) + []) != Some((s, []));
    }
  }

  function WriteElements<T>(f: Format<T>, xs: seq<T>): Bytes {
    if xs == [] then [] else WriteElements(f, xs[..|xs| - 1]) + f.write(xs[|xs| - 1])
  }

  function ReadElements<T>(f: Format<T>, count: nat, b: Bytes): (r: Option<(seq<T>, Bytes)>)
    ensures r.Some? ==> |r.value.0| == count
  {
    if count == 0 then Some(([], b))
    else match ReadElements(f, count - 1, b)
      case None => None
      case Some((xs, rest)) =>
        match f.read(rest)
        case None => None
        case Some((x, left)) => Some((xs + [x], left))
  }

  function WriteArray<T>(f: Format<T>, xs: seq<T>): Bytes {
    WriteInt(AsU32(|xs|), 4) + WriteElements(f, xs)
  }

  function ReadArray<T>(f: Format<T>, b: Bytes): Option<(seq<T>, Bytes)> {
    match ReadInt(b, 4)
    case None => None
    case Some((count, rest)) => ReadElements(f, count, rest)
  }

  function Arrays<T>(f: Format<T>): Format<seq<T>> {
    Format(xs => WriteArray(f, xs), b => ReadArray(f, b))
  }

  lemma {:induction false} ElementsBack<T(!new)>(f: Format<T>, xs: seq<T>, rest: Bytes)
    requires forall x :: x in xs ==> RoundTrips(f, x)
    ensures ReadElements(f, |xs|, WriteElements(f, xs) + rest) == Some((xs, rest))
    decreases |xs|
  {
    if xs == [] {
      assert [] + rest == rest;
    } else {
      var init, last := xs[..|xs| - 1], xs[|xs| - 1];
      ElementsBack(f, init, f.write(last) + rest);
      assert |init| == |xs| - 1 && init + [last] == xs;
      assert last in xs && f.read(f.write(last) + rest) == Some((last, rest));
      ConcatAssociates(WriteElements(f, init), f.write(last), rest);
    }
  }

  /** An array of elements that come back comes back itself if and only if its length fits the 32-bit prefix. */
  lemma ArrayRoundTripIff<T(!new)>(f: Format<T>, xs: seq<T>)
    requires forall x :: x in xs ==> RoundTrips(f, x)
    ensures RoundTrips(Arrays(f), xs) <==> |xs| < U32_LIMIT
  {
    Capacities();
    forall rest
      ensures ReadArray(f, WriteArray(f, xs) + rest) == ReadElements(f, AsU32(|xs|), WriteElements(f, xs) + rest)
    {
      IntBack(AsU32(|xs|), 4, WriteElements(f, xs) + rest);
      ConcatAssociates(WriteInt(AsU32(|xs|), 4), WriteElements(f, xs), rest);
    }
    if |xs| < U32_LIMIT {
      forall rest
        ensures Arrays(f).read(Arrays(f).write(xs) + rest) == Some((xs, rest))
      {
        ElementsBack(f, xs, rest);
      }
    } else {
      assert Arrays(f).read(Arrays(f).write(xs) + []) != Some((xs, []));
    }
  }

  // ---- Layout ----

  /** A string is its length, most significant byte first, and then its bytes as they are. */
  lemma StringLayout(s: Bytes)
    requires |s| < U32_LIMIT
    ensures var w := WriteString(s);
            |w| == 4 + |s| && Value(w[..4]) == |s| && w[4..] == s
  {
    Capacities();
    ValueOfDigits(|s|, 4);
    assert WriteString(s)[..4] == Digits(|s|, 4);
  }

  /** The elements of an array follow its length one after the other, in order. */
  lemma {:induction false} ElementsConcat<T>(f: Format<T>, a: seq<T>, b: seq<T>)
    ensures WriteElements(f, a + b) == WriteElements(f, a) + WriteElements(f, b)
    ensures |b| == 1 ==> WriteElements(f, b) == f.write(b[0])
    decreases |b|
  {
    if b == [] {
      assert a + b == a;
    } else {
      var init, last := b[..|b| - 1], b[|b| - 1];
      ElementsConcat(f, a, init);
      assert (a + b)[..|a + b| - 1] == a + init;
      ConcatAssociates(WriteElements(f, a), WriteElements(f, init), f.write(last));
    }
    if |b| == 1 {
      assert b[..0] == [];
    }
  }

  /** Reading fails exactly when there are too few bytes: for the number, or for what the length says. */
  lemma TooFew(b: Bytes, width: nat)
    ensures ReadInt(b, width).None? <==> |b| < width
    ensures ReadString(b).None? <==> |b| < 4 || |b| - 4 < Value(b[..4])
  {
  }

  // ---- Sizes ----

  function StringSize(s: Bytes): nat {
    4 + |s|
  }

  /** The size that the program gives for an array of elements of a fixed size. */
  function ArraySize<T>(xs: seq<T>, elementSize: nat): nat {
    |xs| * elementSize
  }

  lemma {:induction false} ElementsSize<T>(f: Format<T>, xs: seq<T>, elementSize: nat)
    requires forall x :: |f.write(x)| == elementSize
    ensures |WriteElements(f, xs)| == |xs| * elementSize
    decreases |xs|
  {
    if xs != [] {
      ElementsSize(f, xs[..|xs| - 1], elementSize);
      assert |xs| * elementSize == (|xs| - 1) * elementSize + elementSize;
    }
  }

  /** What is written has the size given for it, but for arrays, whose size leaves out the four bytes of the length. */
  lemma WrittenSize<T>(s: Bytes, f: Format<T>, xs: seq<T>, elementSize: nat)
    requires forall x :: |f.write(x)| == elementSize
    ensures forall n :: |WriteInt(n, 4)| == 4 && |WriteInt(n, 8)| == 8
    ensures |WriteString(s)| == StringSize(s)
    ensures |WriteArray(f, xs)| == ArraySize(xs, elementSize) + 4
  {
    ElementsSize(f, xs, elementSize);
  }
}
