/** The binary writer and reader as the program has them: streams with a position that moves with every byte. */
module CodecStreams {
  import opened Base
  import opened Codec

  class BinaryWriter {
    /** Everything written to the underlying stream. */
    var out: Bytes
    var pos: nat

    constructor ()
      ensures out == [] && pos == 0
    {
      out := [];
      pos := 0;
    }

    /** Exactly `b` was written, and the position moved by as many bytes. */
    ghost predicate Wrote(before: Bytes, start: nat, b: Bytes)
      reads this
    {
      out == before + b && pos == start + |b|
    }

    method Write(buffer: Bytes) returns (length: nat)
      modifies this
      ensures Wrote(old(out), old(pos), buffer) && length == |buffer|
    {
      out := out + buffer;
      pos := pos + |buffer|;
      length := |buffer|;
    }

    method WriteU32(number: u32)
      modifies this
      ensures Wrote(old(out), old(pos), WriteInt(number, 4))
    {
      var buffer: Bytes := [
        (number / 0x100_0000 % 256) as byte,
        (number / 0x1_0000 % 256) as byte,
        (number / 0x100 % 256) as byte,
        (number % 256) as byte];
      Digits4(number);
      var _ := Write(buffer);
    }

    method WriteI32(number: int)
      requires -0x8000_0000 <= number < 0x8000_0000
      modifies this
      ensures Wrote(old(out), old(pos), WriteInt(ToUnsigned(number, U32_LIMIT), 4))
    {
      WriteU32(ToUnsigned(number, U32_LIMIT));
    }

    method WriteU64(number: u64)
      modifies this
      ensures Wrote(old(out), old(pos), WriteInt(number, 8))
    {
      var buffer: Bytes := [
        (number / 0x100_0000_0000_0000 % 256) as byte,
        (number / 0x1_0000_0000_0000 % 256) as byte,
        (number / 0x100_0000_0000 % 256) as byte,
        (number / 0x1_0000_0000 % 256) as byte,
        (number / 0x100_0000 % 256) as byte,
        (number / 0x1_0000 % 256) as byte,
        (number / 0x100 % 256) as byte,
        (number % 256) as byte];
      Digits8(number);
      var _ := Write(buffer);
    }

    method WriteI64(number: i64)
      modifies this
      ensures Wrote(old(out), old(pos), WriteInt(ToUnsigned(number, U64_LIMIT), 8))
    {
      WriteU64(ToUnsigned(number, U64_LIMIT));
    }

    method WriteString(s: Bytes)
      modifies this
      ensures Wrote(old(out), old(pos), Codec.WriteString(s))
    {
      WriteU32(AsU32(|s|));
      var _ := Write(s);
    }

    method WriteTypedArray<I>(format: Format<I>, items: seq<I>)
      modifies this
      ensures Wrote(old(out), old(pos), WriteArray(format, items))
    {
      WriteU32(AsU32(|items|));
      ghost var head := WriteInt(AsU32(|items|), 4);
      for i := 0 to |items|
        invariant Wrote(old(out), old(pos), head + WriteElements(format, items[..i]))
      {
        OneElementMore(head, format, items, i);
        var _ := Write(format.write(items[i]));
      }
      assert items[..|items|] == items;
    }
  }

  class BinaryReader {
    /** What the underlying stream still holds. */
    var rest: Bytes
    var pos: nat

    constructor (input: Bytes)
      ensures rest == input && pos == 0
    {
      rest := input;
      pos := 0;
    }

    /**
     * The stream is where reading by `expected` leaves it, and the position moved by the bytes consumed. When there are
     * too few bytes, where the program panics, there is no result.
     */
    ghost predicate Consumed<T>(before: Bytes, start: nat, expected: Option<(T, Bytes)>, result: Option<T>)
      reads this
    {
      match expected
      case None => result == None
      case Some((x, left)) => result == Some(x) && rest == left && pos == start + |before| - |left|
    }

    method Read(count: nat) returns (buffer: Option<Bytes>)
      modifies this
      ensures Consumed(old(rest), old(pos), Take(count, old(rest)), buffer)
    {
      if count > |rest| {
        return None;
      }
      buffer := Some(rest[..count]);
      rest := rest[count..];
      pos := pos + count;
    }

    method ReadU32() returns (value: Option<nat>)
      modifies this
      ensures Consumed(old(rest), old(pos), ReadInt(old(rest), 4), value)
      ensures value.Some? ==> value.value < U32_LIMIT
    {
      var data := Read(4);
      if data.None? {
        return None;
      }
      var d := data.value;
      Value4(d);
      assert d[..4] == d;
      value := Some(d[0] as nat * 0x100_0000 + d[1] as nat * 0x1_0000 + d[2] as nat * 0x100 + d[3] as nat);
    }

    method ReadI32() returns (value: Option<int>)
      modifies this
      ensures Consumed(old(rest), old(pos), ReadSigned(old(rest), 4, U32_LIMIT), value)
    {
      var n := ReadU32();
      value := if n.None? then None else Some(ToSigned(n.value, U32_LIMIT));
    }

    method ReadU64() returns (value: Option<nat>)
      modifies this
      ensures Consumed(old(rest), old(pos), ReadInt(old(rest), 8), value)
    {
      var data := Read(8);
      if data.None? {
        return None;
      }
      var d := data.value;
      Value8(d);
      value := Some(
        d[0] as nat * 0x100_0000_0000_0000 + d[1] as nat * 0x1_0000_0000_0000
        + d[2] as nat * 0x100_0000_0000 + d[3] as nat * 0x1_0000_0000
        + d[4] as nat * 0x100_0000 + d[5] as nat * 0x1_0000 + d[6] as nat * 0x100 + d[7] as nat);
    }

    method ReadI64() returns (value: Option<int>)
      modifies this
      ensures Consumed(old(rest), old(pos), ReadSigned(old(rest), 8, U64_LIMIT), value)
    {
      var n := ReadU64();
      value := if n.None? then None else Some(ToSigned(n.value, U64_LIMIT));
    }

    method ReadSizedString() returns (value: Option<Bytes>)
      modifies this
      ensures Consumed(old(rest), old(pos), ReadString(old(rest)), value)
    {
      var size := ReadU32();
      if size.None? {
        return None;
      }
      value := Read(size.value);
    }

    method ReadTypedArray<I(!new)>(format: Format<I>) returns (value: Option<seq<I>>)
      requires forall b :: format.read(b).Some? ==> |format.read(b).value.1| <= |b|
      modifies this
      ensures Consumed(old(rest), old(pos), ReadArray(format, old(rest)), value)
    {
      var count := ReadU32();
      if count.None? {
        return None;
      }
      ghost var elements := rest;
      var vector: seq<I> := [];
      for i := 0 to count.value
        invariant ReadElements(format, i, elements) == Some((vector, rest))
        invariant |rest| <= |old(rest)| && pos == old(pos) + |old(rest)| - |rest|
      {
        var element := format.read(rest);
        if element.None? {
          ReadFails(format, i + 1, count.value, elements);
          return None;
        }
        pos := pos + |rest| - |element.value.1|;
        rest := element.value.1;
        vector := vector + [element.value.0];
      }
      value := Some(vector);
    }
  }

  lemma OneElementMore<T>(head: Bytes, f: Format<T>, xs: seq<T>, i: nat)
    requires i < |xs|
    ensures head + WriteElements(f, xs[..i + 1]) == head + WriteElements(f, xs[..i]) + f.write(xs[i])
  {
    assert xs[..i + 1][..i] == xs[..i];
    ConcatAssociates(head, WriteElements(f, xs[..i]), f.write(xs[i]));
  }

  /** An array whose first elements cannot be read cannot be read. */
  lemma {:induction false} ReadFails<T>(f: Format<T>, some: nat, all: nat, b: Bytes)
    requires some <= all && ReadElements(f, some, b).None?
    ensures ReadElements(f, all, b).None?
    decreases all - some
  {
    if some < all {
      ReadFails(f, some, all - 1, b);
    }
  }

  /** Shifting by eight bits, one byte at a time. */
  lemma Digits4(n: nat)
    ensures Digits(n, 4) == [
      (n / 0x100_0000 % 256) as byte, (n / 0x1_0000 % 256) as byte, (n / 0x100 % 256) as byte, (n % 256) as byte]
  {
    var a := n / 256;
    var b := a / 256;
    var c := b / 256;
    assert b == n / 0x1_0000 && c == n / 0x100_0000;
    assert Digits(c, 1) == Digits(c / 256, 0) + [(c % 256) as byte];
    assert Digits(b, 2) == Digits(c, 1) + [(b % 256) as byte];
    assert Digits(a, 3) == Digits(b, 2) + [(a % 256) as byte];
    assert Digits(n, 4) == Digits(a, 3) + [(n % 256) as byte];
  }

  lemma Digits8(n: nat)
    ensures Digits(n, 8) == [
      (n / 0x100_0000_0000_0000 % 256) as byte, (n / 0x1_0000_0000_0000 % 256) as byte,
      (n / 0x100_0000_0000 % 256) as byte, (n / 0x1_0000_0000 % 256) as byte,
      (n / 0x100_0000 % 256) as byte, (n / 0x1_0000 % 256) as byte, (n / 0x100 % 256) as byte, (n % 256) as byte]
  {
    var high := n / 0x1_0000_0000;
    Digits4(high);
    ShiftAgain(n);
    var a := n / 256;
    var b := a / 256;
    var c := b / 256;
    assert Digits(c, 5) == Digits(high, 4) + [(c % 256) as byte];
    assert Digits(b, 6) == Digits(c, 5) + [(b % 256) as byte];
    assert Digits(a, 7) == Digits(b, 6) + [(a % 256) as byte];
    assert Digits(n, 8) == Digits(a, 7) + [(n % 256) as byte];
  }

  lemma ShiftAgain(n: nat)
    ensures n / 0x1_0000_0000 / 0x100 == n / 0x100_0000_0000
    ensures n / 0x1_0000_0000 / 0x1_0000 == n / 0x1_0000_0000_0000
    ensures n / 0x1_0000_0000 / 0x100_0000 == n / 0x100_0000_0000_0000
    ensures n / 256 / 256 == n / 0x1_0000
    ensures n / 256 / 256 / 256 == n / 0x100_0000
    ensures n / 256 / 256 / 256 / 256 == n / 0x1_0000_0000
  {
  }

  lemma Value4(d: Bytes)
    requires |d| >= 4
    ensures Value(d[..4]) == d[0] as nat * 0x100_0000 + d[1] as nat * 0x1_0000 + d[2] as nat * 0x100 + d[3] as nat
  {
    assert d[..1][..0] == [];
    assert Value(d[..1]) == d[0] as nat;
    ValueNext(d, 1);
    ValueNext(d, 2);
    ValueNext(d, 3);
  }

  lemma ValueNext(d: Bytes, k: nat)
    requires k < |d|
    ensures Value(d[..k + 1]) == Value(d[..k]) * 256 + d[k] as nat
  {
    assert d[..k + 1][..k] == d[..k];
  }

  lemma Value8(d: Bytes)
    requires |d| == 8
    ensures Value(d) ==
            d[0] as nat * 0x100_0000_0000_0000 + d[1] as nat * 0x1_0000_0000_0000
            + d[2] as nat * 0x100_0000_0000 + d[3] as nat * 0x1_0000_0000
            + d[4] as nat * 0x100_0000 + d[5] as nat * 0x1_0000 + d[6] as nat * 0x100 + d[7] as nat
  {
    Value4(d);
    ValueNext(d, 4);
    ValueNext(d, 5);
    ValueNext(d, 6);
    ValueNext(d, 7);
    assert d[..8] == d;
  }
}
