/** Machine-level vocabulary shared by every module. */
module Base {

  newtype byte = n: int | 0 <= n < 256

  type Bytes = seq<byte>

  const U32_LIMIT: nat := 0x1_0000_0000

  const I64_MIN: int := -0x8000_0000_0000_0000

  type u32 = n: int | 0 <= n < 0x1_0000_0000

  type u64 = n: int | 0 <= n < 0x1_0000_0000_0000_0000

  type i64 = n: int | -0x8000_0000_0000_0000 <= n < 0x8000_0000_0000_0000

  /** The hash function (Xxh3 in the program). A streaming hasher is modelled by the bytes fed to it so far. */
  type Digest = Bytes -> u64

  datatype Option<+T> = None | Some(value: T)

  function Min(a: int, b: int): int {
    if a <= b then a else b
  }

  /** An `as u32` cast: the low 32 bits. */
  function AsU32(n: nat): (r: u32)
    ensures n < U32_LIMIT ==> r == n
    ensures U32_LIMIT <= n < 2 * U32_LIMIT ==> r == n - U32_LIMIT
  {
    if n < U32_LIMIT then n else AsU32(n - U32_LIMIT)
  }

  /** The cast loses whole multiples of 2^32 and nothing else. */
  lemma {:induction false} CastLoses(n: nat) returns (k: nat)
    ensures n == AsU32(n) + k * U32_LIMIT
  {
    if n < U32_LIMIT {
      k := 0;
    } else {
      var j := CastLoses(n - U32_LIMIT);
      k := j + 1;
    }
  }

  /** The bytes of a list of blocks, end to end. */
  function Flat(parts: seq<Bytes>): Bytes {
    if parts == [] then [] else parts[0] + Flat(parts[1..])
  }

  lemma {:induction false} FlatConcat(a: seq<Bytes>, b: seq<Bytes>)
    ensures Flat(a + b) == Flat(a) + Flat(b)
  {
    if a == [] {
      assert a + b == b;
    } else {
      FlatConcat(a[1..], b);
      assert (a + b)[0] == a[0] && (a + b)[1..] == a[1..] + b;
      ConcatAssociates(a[0], Flat(a[1..]), Flat(b));
    }
  }

  lemma FlatAppend(parts: seq<Bytes>, last: Bytes)
    ensures Flat(parts + [last]) == Flat(parts) + last
  {
    FlatConcat(parts, [last]);
    assert Flat([last]) == last + Flat([]);
  }

  /** A slice that lies within `a` does not see what follows `a`. */
  lemma SliceOfPrefix(a: Bytes, b: Bytes, from: nat, to: nat)
    requires from <= to <= |a|
    ensures (a + b)[from..to] == a[from..to]
  {
  }

  lemma ConcatAssociates<T>(a: seq<T>, b: seq<T>, c: seq<T>)
    ensures a + b + c == a + (b + c)
  {
  }
}
