/** The byte cursor under every record of the map layout: little-endian
    reads over an already decompressed byte stream. The stream is a list of
    bytes still to be read; a read takes it and gives back its value and the
    stream after it, so the stream position is the input size minus the size
    of what is left. Each read is paired with a writer that puts a value in
    front of a stream: `PutU32(n, t)` is the stream that yields the four
    bytes of `n` and then goes on as `t`. */
module Cursor {

  type Byte = x: int | 0 <= x < 0x100
  type U16 = x: int | 0 <= x < 0x1_0000
  type U32 = x: int | 0 <= x < 0x1_0000_0000
  /** The body of a length-prefixed string: its length must fit the uint32 prefix. */
  type LString = b: seq<Byte> | |b| < 0x1_0000_0000

  datatype Option<+T> = None | Some(value: T)

  /** The unread part of the input. */
  datatype Stream = End | Next(head: Byte, tail: Stream)

  datatype Parsed<+T> = Parsed(value: T, rest: Stream)

  /** Outcome of a read: the value and the unread rest of the stream, or the
      end-of-stream failure of a read that found too few bytes left. */
  datatype Result<+T> = Ok(value: T, rest: Stream) | Err {
    predicate IsFailure() { Err? }
    function PropagateFailure<U>(): Result<U> requires Err? { Err }
    function Extract(): Parsed<T> requires Ok? { Parsed(value, rest) }
  }

  // ---------------------------------------------------------------------
  // Streams and the bytes they yield
  // ---------------------------------------------------------------------

  /** The number of bytes left. */
  function Size(t: Stream): nat
  {
    match t
    case End => 0
    case Next(_, rest) => 1 + Size(rest)
  }

  /** The stream yielding `e` and then `t`. */
  function Feed(e: seq<Byte>, t: Stream): Stream
    decreases |e|
  {
    if e == [] then t else Next(e[0], Feed(e[1..], t))
  }

  /** The whole input: a byte string and nothing after it. */
  function Input(bytes: seq<Byte>): Stream
  {
    Feed(bytes, End)
  }

  /** The bytes a stream yields. */
  function Flatten(t: Stream): (e: seq<Byte>)
    ensures |e| == Size(t)
  {
    match t
    case End => []
    case Next(b, rest) => [b] + Flatten(rest)
  }

  lemma {:induction false} InputFlatten(t: Stream)
    ensures Input(Flatten(t)) == t
  {
    match t
    case End =>
    case Next(b, rest) =>
      InputFlatten(rest);
      assert Flatten(t)[1..] == Flatten(rest);
  }

  lemma {:induction false} FeedSize(e: seq<Byte>, t: Stream)
    ensures Size(Feed(e, t)) == |e| + Size(t)
    decreases |e|
  {
    if e != [] {
      FeedSize(e[1..], t);
    }
  }

  /** Two streams that start with byte strings of one length agree on them
      and on what follows exactly when they are equal. */
  lemma {:induction false} FeedSplit(a: seq<Byte>, t: Stream, b: seq<Byte>, u: Stream)
    requires Feed(a, t) == Feed(b, u) && |a| == |b|
    ensures a == b && t == u
    decreases |a|
  {
    if a != [] {
      FeedSplit(a[1..], t, b[1..], u);
      assert a == [a[0]] + a[1..];
      assert b == [b[0]] + b[1..];
    }
  }

  /** The stream yielding `s` and then `u`. */
  function Cat(s: Stream, u: Stream): (r: Stream)
    ensures Size(r) == Size(s) + Size(u)
  {
    match s
    case End => u
    case Next(b, rest) => Next(b, Cat(rest, u))
  }

  lemma NextCat(b: Byte, s: Stream, u: Stream)
    ensures Cat(Next(b, s), u) == Next(b, Cat(s, u))
  {
  }

  lemma {:induction false} FeedCat(e: seq<Byte>, t: Stream, u: Stream)
    ensures Cat(Feed(e, t), u) == Feed(e, Cat(t, u))
    decreases |e|
  {
    if e != [] {
      FeedCat(e[1..], t, u);
    }
  }

  lemma {:induction false} FeedAppend(a: seq<Byte>, b: seq<Byte>, t: Stream)
    ensures Feed(a + b, t) == Feed(a, Feed(b, t))
    decreases |a|
  {
    if a == [] {
      assert a + b == b;
    } else {
      assert (a + b)[0] == a[0] && (a + b)[1..] == a[1..] + b;
      FeedAppend(a[1..], b, t);
    }
  }

  /** The input of two byte strings one after the other is the first
      input followed by the second. */
  lemma InputAppend(a: seq<Byte>, b: seq<Byte>)
    ensures Input(a + b) == Cat(Input(a), Input(b))
  {
    FeedAppend(a, b, End);
    FeedCat(a, End, Input(b));
  }

  // ---------------------------------------------------------------------
  // Fixed-width integers, least significant byte first
  // ---------------------------------------------------------------------

  /** uint8 */
  function U8(t: Stream): (r: Result<Byte>)
    ensures r.Ok? <==> Size(t) >= 1
    ensures r.Ok? ==> t == Next(r.value, r.rest)
  {
    match t
    case End => Err
    case Next(b, rest) => Ok(b, rest)
  }

  lemma U8RoundTrip(x: Byte, t: Stream)
    ensures U8(Next(x, t)) == Ok(x, t)
  {
  }

  /** The two bytes of a uint16, low byte first, in front of `t`. */
  function PutU16(n: U16, t: Stream): Stream
  {
    Next(n % 0x100, Next(n / 0x100, t))
  }

  /** The four bytes of a uint32, low half first, in front of `t`. */
  function PutU32(n: U32, t: Stream): Stream
  {
    PutU16(n % 0x1_0000, PutU16(n / 0x1_0000, t))
  }

  /** uint16, little-endian */
  function U16LE(t: Stream): (r: Result<U16>)
    ensures r.Ok? <==> Size(t) >= 2
    ensures r.Ok? ==> t == PutU16(r.value, r.rest)
  {
    match t
    case Next(lo, Next(hi, rest)) => Ok(lo + 0x100 * hi, rest)
    case _ => Err
  }

  /** uint32, little-endian */
  function U32LE(t: Stream): (r: Result<U32>)
    ensures r.Ok? <==> Size(t) >= 4
    ensures r.Ok? ==> t == PutU32(r.value, r.rest)
  {
    match U16LE(t)
    case Err => Err
    case Ok(lo, t1) =>
      PutU16Size(lo, t1);
      match U16LE(t1)
      case Err => Err
      case Ok(hi, t2) =>
        JoinU16(lo, hi);
        Ok(lo + 0x1_0000 * hi, t2)
  }

  /** Two uint16 halves make a uint32 that splits back into them. */
  lemma JoinU16(lo: U16, hi: U16)
    ensures lo + 0x1_0000 * hi < 0x1_0000_0000
    ensures (lo + 0x1_0000 * hi) % 0x1_0000 == lo
    ensures (lo + 0x1_0000 * hi) / 0x1_0000 == hi
  {
  }

  lemma U16RoundTrip(n: U16, t: Stream)
    ensures U16LE(PutU16(n, t)) == Ok(n, t)
  {
  }

  lemma U32RoundTrip(n: U32, t: Stream)
    ensures U32LE(PutU32(n, t)) == Ok(n, t)
  {
    U16RoundTrip(n % 0x1_0000, PutU16(n / 0x1_0000, t));
    U16RoundTrip(n / 0x1_0000, t);
  }

  lemma PutU16Size(n: U16, t: Stream)
    ensures Size(PutU16(n, t)) == 2 + Size(t)
  {
  }

  lemma PutU32Size(n: U32, t: Stream)
    ensures Size(PutU32(n, t)) == 4 + Size(t)
  {
    PutU16Size(n / 0x1_0000, t);
    PutU16Size(n % 0x1_0000, PutU16(n / 0x1_0000, t));
  }

  /** Writers only put bytes in front of their continuation, so what
      follows it can be appended before or after writing. */
  lemma PutU16Cat(n: U16, t: Stream, u: Stream)
    ensures Cat(PutU16(n, t), u) == PutU16(n, Cat(t, u))
  {
  }

  lemma PutU32Cat(n: U32, t: Stream, u: Stream)
    ensures Cat(PutU32(n, t), u) == PutU32(n, Cat(t, u))
  {
    PutU16Cat(n / 0x1_0000, t, u);
    PutU16Cat(n % 0x1_0000, PutU16(n / 0x1_0000, t), u);
  }

  // ---------------------------------------------------------------------
  // Length-prefixed strings: a uint32 byte count, then that many bytes
  // ---------------------------------------------------------------------

  function PutStr(b: LString, t: Stream): Stream
  {
    PutU32(|b|, Feed(b, t))
  }

  lemma PutStrSize(b: LString, t: Stream)
    ensures Size(PutStr(b, t)) == 4 + |b| + Size(t)
  {
    FeedSize(b, t);
    PutU32Size(|b|, Feed(b, t));
  }

  lemma PutStrCat(b: LString, t: Stream, u: Stream)
    ensures Cat(PutStr(b, t), u) == PutStr(b, Cat(t, u))
  {
    FeedCat(b, t, u);
    PutU32Cat(|b|, Feed(b, t), u);
  }

  /** A uint32 size followed by a string of exactly that many bytes; the
      read fails unless the whole size prefix and the whole body are there. */
  function Str(t: Stream): (r: Result<LString>)
    ensures r.Ok? ==> t == PutStr(r.value, r.rest)
  {
    var n :- U32LE(t);
    var body :- Bytes(n.rest, n.value);
    Ok(body.value, body.rest)
  }

  lemma StrRoundTrip(b: LString, t: Stream)
    ensures Str(PutStr(b, t)) == Ok(b, t)
  {
    U32RoundTrip(|b|, Feed(b, t));
    BytesRoundTrip(b, t);
  }

  /** The string read fails exactly when the size prefix or the body it
      announces is missing. */
  lemma StrNeeds(t: Stream)
    ensures Str(t).Ok? <==> U32LE(t).Ok? && U32LE(t).value <= Size(U32LE(t).rest)
  {
  }

  // ---------------------------------------------------------------------
  // Arrays of uint8: `n` single-byte reads
  // ---------------------------------------------------------------------

  function Bytes(t: Stream, n: nat): (r: Result<seq<Byte>>)
    ensures r.Ok? <==> n <= Size(t)
    ensures r.Ok? ==> |r.value| == n && t == Feed(r.value, r.rest)
  {
    if n == 0 then Ok([], t)
    else
      var b :- U8(t);
      var rest :- Bytes(b.rest, n - 1);
      assert ([b.value] + rest.value)[1..] == rest.value;
      Ok([b.value] + rest.value, rest.rest)
  }

  lemma BytesRoundTrip(b: seq<Byte>, t: Stream)
    ensures Bytes(Feed(b, t), |b|) == Ok(b, t)
  {
    FeedSize(b, t);
    var r := Bytes(Feed(b, t), |b|);
    FeedSplit(r.value, r.rest, b, t);
  }

  /** Prefixes the elements already read to the result of reading the rest. */
  function Prepend<T>(acc: seq<T>, r: Result<seq<T>>): Result<seq<T>>
  {
    match r
    case Ok(v, rest) => Ok(acc + v, rest)
    case Err => Err
  }

  lemma PrependNothing<T>(r: Result<seq<T>>)
    ensures Prepend([], r) == r
  {
    if r.Ok? {
      assert [] + r.value == r.value;
    }
  }

  lemma PrependAssoc<T>(a: seq<T>, b: seq<T>, r: Result<seq<T>>)
    ensures Prepend(a, Prepend(b, r)) == Prepend(a + b, r)
  {
    if r.Ok? {
      assert a + (b + r.value) == (a + b) + r.value;
    }
  }

  /** The stream loop behind an array of uint8. */
  method ReadBytes(t: Stream, n: nat) returns (r: Result<seq<Byte>>)
    ensures r == Bytes(t, n)
  {
    var acc: seq<Byte> := [];
    var rest := t;
    var left := n;
    PrependNothing(Bytes(t, n));
    while left > 0
      invariant Bytes(t, n) == Prepend(acc, Bytes(rest, left))
    {
      var b := U8(rest);
      if b.Err? {
        return Err;
      }
      PrependAssoc(acc, [b.value], Bytes(b.rest, left - 1));
      acc, rest, left := acc + [b.value], b.rest, left - 1;
    }
    assert acc + [] == acc;
    r := Ok(acc, rest);
  }

  // ---------------------------------------------------------------------
  // Arrays of records: `n` reads of one element reader, one after the other
  // ---------------------------------------------------------------------

  /** `n` elements read by `f`, in order. */
  function Many<T>(f: Stream -> Result<T>, t: Stream, n: nat): (r: Result<seq<T>>)
    ensures r.Ok? ==> |r.value| == n
    decreases n
  {
    if n == 0 then Ok([], t)
    else
      var x :- f(t);
      var xs :- Many(f, x.rest, n - 1);
      Ok([x.value] + xs.value, xs.rest)
  }

  /** The elements `xs`, each written by `put`, in front of `t`. */
  function PutMany<T>(put: (T, Stream) -> Stream, xs: seq<T>, t: Stream): Stream
  {
    if xs == [] then t else put(xs[0], PutMany(put, xs[1..], t))
  }

  lemma {:induction false} PutManyCat<T>(put: (T, Stream) -> Stream, xs: seq<T>, t: Stream, u: Stream)
    requires forall x, s :: Cat(put(x, s), u) == put(x, Cat(s, u))
    ensures Cat(PutMany(put, xs, t), u) == PutMany(put, xs, Cat(t, u))
    decreases |xs|
  {
    if xs != [] {
      PutManyCat(put, xs[1..], t, u);
    }
  }

  /** An array reader built on a sound element reader accepts exactly the
      writing of the elements it returns. */
  lemma {:induction false} ManySound<T>(f: Stream -> Result<T>, put: (T, Stream) -> Stream, t: Stream, n: nat)
    requires forall s :: f(s).Ok? ==> s == put(f(s).value, f(s).rest)
    ensures Many(f, t, n).Ok? ==> t == PutMany(put, Many(f, t, n).value, Many(f, t, n).rest)
    decreases n
  {
    if n > 0 && Many(f, t, n).Ok? {
      var x := f(t);
      ManySound(f, put, x.rest, n - 1);
      var xs := Many(f, x.rest, n - 1);
      assert ([x.value] + xs.value)[1..] == xs.value;
    }
  }

  /** Every element an array reader returns was returned by its element
      reader, so a property all element reads establish holds of each. */
  lemma {:induction false} ManyAll<T>(f: Stream -> Result<T>, p: T -> bool, t: Stream, n: nat)
    requires forall s :: f(s).Ok? ==> p(f(s).value)
    ensures Many(f, t, n).Ok? ==> forall k :: 0 <= k < n ==> p(Many(f, t, n).value[k])
    decreases n
  {
    if n > 0 && Many(f, t, n).Ok? {
      var x := f(t);
      ManyAll(f, p, x.rest, n - 1);
      var xs := Many(f, x.rest, n - 1);
      assert forall k :: 1 <= k < n ==> ([x.value] + xs.value)[k] == xs.value[k - 1];
    }
  }

  /** Elements that the element reader reads back from their own writing
      are read back as an array. */
  lemma {:induction false} ManyRoundTrip<T>(f: Stream -> Result<T>, put: (T, Stream) -> Stream, xs: seq<T>, t: Stream)
    requires forall k, s :: 0 <= k < |xs| ==> f(put(xs[k], s)) == Ok(xs[k], s)
    ensures Many(f, PutMany(put, xs, t), |xs|) == Ok(xs, t)
  {
    if xs != [] {
      var tail := PutMany(put, xs[1..], t);
      assert f(put(xs[0], tail)) == Ok(xs[0], tail);
      assert forall k, s :: 0 <= k < |xs[1..]| ==> f(put(xs[1..][k], s)) == Ok(xs[1..][k], s) by {
        forall k, s | 0 <= k < |xs[1..]|
          ensures f(put(xs[1..][k], s)) == Ok(xs[1..][k], s)
        {
          assert xs[1..][k] == xs[k + 1];
        }
      }
      ManyRoundTrip(f, put, xs[1..], t);
      assert [xs[0]] + xs[1..] == xs;
    }
  }

  /** The sum of `size` over the elements. */
  function SumOf<T>(size: T -> nat, xs: seq<T>): nat
  {
    if xs == [] then 0 else size(xs[0]) + SumOf(size, xs[1..])
  }

  /** An array of elements each taking `size` bytes takes their sum. */
  lemma {:induction false} PutManySize<T>(put: (T, Stream) -> Stream, size: T -> nat, xs: seq<T>, t: Stream)
    requires forall x, s :: Size(put(x, s)) == size(x) + Size(s)
    ensures Size(PutMany(put, xs, t)) == SumOf(size, xs) + Size(t)
  {
    if xs != [] {
      PutManySize(put, size, xs[1..], t);
    }
  }

  /** An array of `n` elements read by a reader that takes exactly `k`
      bytes, and fails only when fewer are left, succeeds exactly when
      `k * n` bytes are left and then takes all of them. */
  lemma {:induction false} ManyFixed<T>(f: Stream -> Result<T>, k: nat, t: Stream, n: nat)
    requires forall s :: f(s).Ok? <==> k <= Size(s)
    requires forall s :: f(s).Ok? ==> Size(s) == k + Size(f(s).rest)
    ensures Many(f, t, n).Ok? <==> k * n <= Size(t)
    ensures Many(f, t, n).Ok? ==> Size(t) == k * n + Size(Many(f, t, n).rest)
    decreases n
  {
    if n > 0 {
      assert k * n == k + k * (n - 1);
      if f(t).Ok? {
        ManyFixed(f, k, f(t).rest, n - 1);
      }
    }
  }

  /** What one turn of the array loop keeps. */
  lemma ManyStep<T>(f: Stream -> Result<T>, t: Stream, n: nat, acc: seq<T>, rest: Stream, left: nat)
    requires left > 0 && f(rest).Ok?
    requires Many(f, t, n) == Prepend(acc, Many(f, rest, left))
    ensures Many(f, t, n) == Prepend(acc + [f(rest).value], Many(f, f(rest).rest, left - 1))
  {
    PrependAssoc(acc, [f(rest).value], Many(f, f(rest).rest, left - 1));
  }

  /** The stream loop behind every count-driven array of records. */
  method ReadMany<T>(f: Stream -> Result<T>, t: Stream, n: nat) returns (r: Result<seq<T>>)
    ensures r == Many(f, t, n)
  {
    var acc: seq<T> := [];
    var rest := t;
    var left := n;
    PrependNothing(Many(f, t, n));
    while left > 0
      invariant Many(f, t, n) == Prepend(acc, Many(f, rest, left))
    {
      var x := f(rest);
      if x.Err? {
        return Err;
      }
      ManyStep(f, t, n, acc, rest, left);
      acc, rest, left := acc + [x.value], x.rest, left - 1;
    }
    assert acc + [] == acc;
    r := Ok(acc, rest);
  }

  // ---------------------------------------------------------------------
  // Arrays of bit1: each byte read gives eight flags
  // ---------------------------------------------------------------------

  /** The low `k` bits of `b`, least significant first. */
  function ToBits(b: nat, k: nat): (r: seq<bool>)
    ensures |r| == k
  {
    if k == 0 then [] else [b % 2 == 1] + ToBits(b / 2, k - 1)
  }

  function Pow2(k: nat): (r: nat)
    ensures r >= 1
  {
    if k == 0 then 1 else 2 * Pow2(k - 1)
  }

  /** The number whose bits, least significant first, are `bs`. */
  function FromBits(bs: seq<bool>): (r: nat)
    ensures r < Pow2(|bs|)
  {
    if bs == [] then 0 else (if bs[0] then 1 else 0) + 2 * FromBits(bs[1..])
  }

  lemma {:induction false} FromToBits(b: nat, k: nat)
    requires b < Pow2(k)
    ensures FromBits(ToBits(b, k)) == b
  {
    if k > 0 {
      FromToBits(b / 2, k - 1);
      assert ToBits(b, k)[1..] == ToBits(b / 2, k - 1);
    }
  }

  lemma {:induction false} ToFromBits(bs: seq<bool>)
    ensures ToBits(FromBits(bs), |bs|) == bs
  {
    if bs != [] {
      ToFromBits(bs[1..]);
      var x := if bs[0] then 1 else 0;
      assert (x + 2 * FromBits(bs[1..])) / 2 == FromBits(bs[1..]);
    }
  }

  lemma Pow2Of8()
    ensures Pow2(8) == 0x100
  {
  }

  /** The flags of a run of bytes, eight per byte, in byte order. */
  function Unpack(bytes: seq<Byte>): (r: seq<bool>)
    ensures |r| == 8 * |bytes|
  {
    if bytes == [] then [] else ToBits(bytes[0], 8) + Unpack(bytes[1..])
  }

  /** The bytes holding a run of flags, eight per byte. */
  function Pack(bits: seq<bool>): (r: seq<Byte>)
    decreases |bits|
  {
    if |bits| < 8 then []
    else
      Pow2Of8();
      [FromBits(bits[..8])] + Pack(bits[8..])
  }

  lemma {:induction false} PackUnpack(bytes: seq<Byte>)
    ensures Pack(Unpack(bytes)) == bytes
  {
    if bytes != [] {
      var u := Unpack(bytes);
      assert u[..8] == ToBits(bytes[0], 8);
      assert u[8..] == Unpack(bytes[1..]);
      Pow2Of8();
      FromToBits(bytes[0], 8);
      PackUnpack(bytes[1..]);
    }
  }

  lemma {:induction false} UnpackPack(bits: seq<bool>)
    requires |bits| % 8 == 0
    ensures |Pack(bits)| == |bits| / 8
    ensures Unpack(Pack(bits)) == bits
    decreases |bits|
  {
    if |bits| >= 8 {
      UnpackPack(bits[8..]);
      Pow2Of8();
      ToFromBits(bits[..8]);
      var pk := Pack(bits);
      assert pk[0] == FromBits(bits[..8]);
      assert pk[1..] == Pack(bits[8..]);
      assert bits == bits[..8] + bits[8..];
    }
  }

  /** The bytes holding a run of flags, in front of `t`. */
  function PutBits(bits: seq<bool>, t: Stream): Stream
  {
    Feed(Pack(bits), t)
  }

  /** array of `8 * n` bit1 flags, occupying `n` bytes. */
  function Bitset(t: Stream, n: nat): (r: Result<seq<bool>>)
    ensures r.Ok? <==> n <= Size(t)
    ensures r.Ok? ==> |r.value| == 8 * n && t == PutBits(r.value, r.rest)
  {
    var raw :- Bytes(t, n);
    PackUnpack(raw.value);
    Ok(Unpack(raw.value), raw.rest)
  }

  lemma BitsetRoundTrip(bits: seq<bool>, t: Stream)
    requires |bits| % 8 == 0
    ensures Bitset(PutBits(bits, t), |bits| / 8) == Ok(bits, t)
  {
    UnpackPack(bits);
    BytesRoundTrip(Pack(bits), t);
  }

  lemma PutBitsSize(bits: seq<bool>, t: Stream)
    requires |bits| % 8 == 0
    ensures Size(PutBits(bits, t)) == |bits| / 8 + Size(t)
  {
    UnpackPack(bits);
    FeedSize(Pack(bits), t);
  }

  lemma PutBitsCat(bits: seq<bool>, t: Stream, u: Stream)
    ensures Cat(PutBits(bits, t), u) == PutBits(bits, Cat(t, u))
  {
    FeedCat(Pack(bits), t, u);
  }

  function PutOptBits(o: Option<seq<bool>>, t: Stream): Stream
  {
    if o.Some? then PutBits(o.value, t) else t
  }

  lemma PutOptBitsCat(o: Option<seq<bool>>, t: Stream, u: Stream)
    ensures Cat(PutOptBits(o, t), u) == PutOptBits(o, Cat(t, u))
  {
    if o.Some? {
      PutBitsCat(o.value, t, u);
    }
  }

  /** array of bit1 read only when `cond` holds. */
  function OptBitset(t: Stream, cond: bool, n: nat): (r: Result<Option<seq<bool>>>)
    ensures r.Err? <==> cond && Size(t) < n
    ensures r.Ok? ==> (r.value.Some? <==> cond) && (r.value.Some? ==> |r.value.value| == 8 * n)
    ensures r.Ok? ==> t == PutOptBits(r.value, r.rest)
  {
    if cond then
      var bits :- Bitset(t, n);
      Ok(Some(bits.value), bits.rest)
    else Ok(None, t)
  }

  lemma OptBitsetRoundTrip(cond: bool, o: Option<seq<bool>>, n: nat, t: Stream)
    requires o.Some? <==> cond
    requires o.Some? ==> |o.value| == 8 * n
    ensures OptBitset(PutOptBits(o, t), cond, n) == Ok(o, t)
  {
    if o.Some? {
      BitsetRoundTrip(o.value, t);
    }
  }

  lemma PutOptBitsSize(o: Option<seq<bool>>, t: Stream)
    requires o.Some? ==> |o.value| % 8 == 0
    ensures Size(PutOptBits(o, t)) == (if o.Some? then |o.value| / 8 else 0) + Size(t)
  {
    if o.Some? {
      PutBitsSize(o.value, t);
    }
  }

  method ReadBitset(t: Stream, n: nat) returns (r: Result<seq<bool>>)
    ensures r == Bitset(t, n)
  {
    var raw := ReadBytes(t, n);
    if raw.Err? {
      return Err;
    }
    r := Ok(Unpack(raw.value), raw.rest);
  }

  // ---------------------------------------------------------------------
  // Fields guarded by a presence predicate
  // ---------------------------------------------------------------------

  function PutOptU8(o: Option<Byte>, t: Stream): Stream
  {
    if o.Some? then Next(o.value, t) else t
  }

  lemma PutOptU8Cat(o: Option<Byte>, t: Stream, u: Stream)
    ensures Cat(PutOptU8(o, t), u) == PutOptU8(o, Cat(t, u))
  {
  }

  /** uint8 read only when `cond` holds. */
  function OptU8(t: Stream, cond: bool): (r: Result<Option<Byte>>)
    ensures r.Err? <==> cond && Size(t) < 1
    ensures r.Ok? ==> (r.value.Some? <==> cond) && t == PutOptU8(r.value, r.rest)
  {
    if cond then
      var b :- U8(t);
      Ok(Some(b.value), b.rest)
    else Ok(None, t)
  }

  lemma OptU8RoundTrip(cond: bool, o: Option<Byte>, t: Stream)
    requires o.Some? <==> cond
    ensures OptU8(PutOptU8(o, t), cond) == Ok(o, t)
  {
  }

  function PutOptU32(o: Option<U32>, t: Stream): Stream
  {
    if o.Some? then PutU32(o.value, t) else t
  }

  lemma PutOptU32Cat(o: Option<U32>, t: Stream, u: Stream)
    ensures Cat(PutOptU32(o, t), u) == PutOptU32(o, Cat(t, u))
  {
    if o.Some? {
      PutU32Cat(o.value, t, u);
    }
  }

  /** uint32 read only when `cond` holds. */
  function OptU32(t: Stream, cond: bool): (r: Result<Option<U32>>)
    ensures r.Err? <==> cond && Size(t) < 4
    ensures r.Ok? ==> (r.value.Some? <==> cond) && t == PutOptU32(r.value, r.rest)
  {
    if cond then
      var n :- U32LE(t);
      Ok(Some(n.value), n.rest)
    else Ok(None, t)
  }

  lemma OptU32RoundTrip(cond: bool, o: Option<U32>, t: Stream)
    requires o.Some? <==> cond
    ensures OptU32(PutOptU32(o, t), cond) == Ok(o, t)
  {
    if o.Some? {
      U32RoundTrip(o.value, t);
    }
  }

  lemma PutOptU32Size(o: Option<U32>, t: Stream)
    ensures Size(PutOptU32(o, t)) == (if o.Some? then 4 else 0) + Size(t)
  {
    if o.Some? {
      PutU32Size(o.value, t);
    }
  }
}
