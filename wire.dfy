/**
  The primitive encoders of the save format (the Serialization helpers) and
  the writer and reader cursors over a byte stream.

  Every 32-bit quantity is four bytes, least significant first; a signed
  integer is written as its two's-complement pattern, a single as its bit
  pattern, a Vector3 as its three singles and a string as its byte length
  followed by its UTF-8 bytes. Every decoder is given the bytes that remain
  and returns the value and the bytes after it, or None when the stream ends
  too early (where BinaryReader throws EndOfStreamException).
 */
module Wire {
  import opened Wrappers
  import opened Numeric

  type Bytes = seq<Byte>

  function EncodeUInt32(v: UInt32): (r: Bytes)
    ensures |r| == 4
  {
    var t1 := v / 0x100;
    var t2 := t1 / 0x100;
    var t3 := t2 / 0x100;
    [v % 0x100, t1 % 0x100, t2 % 0x100, t3]
  }

  /** The little-endian value of four bytes. */
  function Word(b0: Byte, b1: Byte, b2: Byte, b3: Byte): UInt32
  {
    b0 as int + 0x100 * (b1 as int + 0x100 * (b2 as int + 0x100 * b3 as int))
  }

  function DecodeUInt32(s: Bytes): (r: Option<(UInt32, Bytes)>)
    ensures r.Some? <==> |s| >= 4
    ensures r.Some? ==> r.value.1 == s[4..]
  {
    if |s| < 4 then None
    else Some((Word(s[0], s[1], s[2], s[3]), s[4..]))
  }

  lemma UInt32RoundTrip(v: UInt32, rest: Bytes)
    ensures DecodeUInt32(EncodeUInt32(v) + rest) == Some((v, rest))
  {
    var s := EncodeUInt32(v) + rest;
    assert s[4..] == rest;
    var t1 := v / 0x100;
    var t2 := t1 / 0x100;
    assert v == v % 0x100 + 0x100 * t1;
    assert t1 == t1 % 0x100 + 0x100 * t2;
    assert t2 == t2 % 0x100 + 0x100 * (t2 / 0x100);
  }

  function EncodeInt32(x: Int32): (r: Bytes)
    ensures |r| == 4
  {
    EncodeUInt32(ToUnsigned(x))
  }

  function DecodeInt32(s: Bytes): (r: Option<(Int32, Bytes)>)
    ensures r.Some? <==> |s| >= 4
    ensures r.Some? ==> r.value.1 == s[4..]
  {
    var (u, rest) :- DecodeUInt32(s);
    Some((ToSigned(u), rest))
  }

  lemma Int32RoundTrip(x: Int32, rest: Bytes)
    ensures DecodeInt32(EncodeInt32(x) + rest) == Some((x, rest))
  {
    UInt32RoundTrip(ToUnsigned(x), rest);
  }

  function EncodeSingle(f: Single): (r: Bytes)
    ensures |r| == 4
  {
    EncodeUInt32(f.bits)
  }

  function DecodeSingle(s: Bytes): (r: Option<(Single, Bytes)>)
    ensures r.Some? <==> |s| >= 4
    ensures r.Some? ==> r.value.1 == s[4..]
  {
    var (u, rest) :- DecodeUInt32(s);
    Some((Single(u), rest))
  }

  lemma SingleRoundTrip(f: Single, rest: Bytes)
    ensures DecodeSingle(EncodeSingle(f) + rest) == Some((f, rest))
  {
    UInt32RoundTrip(f.bits, rest);
  }

  function EncodeVector3(v: Vector3): (r: Bytes)
    ensures |r| == 12
  {
    EncodeSingle(v.x) + EncodeSingle(v.y) + EncodeSingle(v.z)
  }

  function DecodeVector3(s: Bytes): (r: Option<(Vector3, Bytes)>)
    ensures r.Some? <==> |s| >= 12
  {
    var (x, r1) :- DecodeSingle(s);
    var (y, r2) :- DecodeSingle(r1);
    var (z, r3) :- DecodeSingle(r2);
    Some((Vector3(x, y, z), r3))
  }

  lemma Vector3RoundTrip(v: Vector3, rest: Bytes)
    ensures DecodeVector3(EncodeVector3(v) + rest) == Some((v, rest))
  {
    var s := EncodeVector3(v) + rest;
    assert s == EncodeSingle(v.x) + (EncodeSingle(v.y) + (EncodeSingle(v.z) + rest));
    SingleRoundTrip(v.x, EncodeSingle(v.y) + (EncodeSingle(v.z) + rest));
    SingleRoundTrip(v.y, EncodeSingle(v.z) + rest);
    SingleRoundTrip(v.z, rest);
  }

  /** A length-prefixed UTF-8 string; the text is kept as its bytes. */
  function EncodeString(text: Bytes): (r: Bytes)
    requires |text| <= MaxInt32
    ensures |r| == 4 + |text|
  {
    EncodeInt32(|text|) + text
  }

  function DecodeString(s: Bytes): (r: Option<(Bytes, Bytes)>)
    ensures r.Some? ==> |s| >= 4 + |r.value.0| && r.value.1 == s[4 + |r.value.0|..]
  {
    var (n, rest) :- DecodeInt32(s);
    if n < 0 || |rest| < n then None else Some((rest[..n], rest[n..]))
  }

  lemma StringRoundTrip(text: Bytes, rest: Bytes)
    requires |text| <= MaxInt32
    ensures DecodeString(EncodeString(text) + rest) == Some((text, rest))
  {
    var s := EncodeString(text) + rest;
    assert s == EncodeInt32(|text|) + (text + rest);
    Int32RoundTrip(|text|, text + rest);
    assert (text + rest)[..|text|] == text;
    assert (text + rest)[|text|..] == rest;
  }

  /** A run of items, each written by `enc`, in order. */
  function EncodeList<T>(enc: T -> Bytes, xs: seq<T>): Bytes
    decreases |xs|
  {
    if |xs| == 0 then [] else EncodeList(enc, xs[..|xs| - 1]) + enc(xs[|xs| - 1])
  }

  lemma {:induction false} EncodeListLength<T>(enc: T -> Bytes, xs: seq<T>, k: nat)
    requires forall x :: |enc(x)| == k
    ensures |EncodeList(enc, xs)| == k * |xs|
    decreases |xs|
  {
    if |xs| > 0 {
      EncodeListLength(enc, xs[..|xs| - 1], k);
    }
  }

  /** Reads `n` items with `dec`, one after the other, as a counted loop does. */
  function DecodeList<T>(dec: Bytes -> Option<(T, Bytes)>, s: Bytes, n: nat): (r: Option<(seq<T>, Bytes)>)
    ensures r.Some? ==> |r.value.0| == n
  {
    if n == 0 then Some(([], s))
    else
      var (xs, rest) :- DecodeList(dec, s, n - 1);
      var (x, rest') :- dec(rest);
      Some((xs + [x], rest'))
  }

  /** `dec` reads back exactly what `enc` wrote and leaves what follows. */
  ghost predicate Inverse<T(!new)>(enc: T -> Bytes, dec: Bytes -> Option<(T, Bytes)>)
  {
    forall x: T, rest: Bytes :: dec(enc(x) + rest) == Some((x, rest))
  }

  /** One more pass of a counted read loop. */
  lemma ListStep<T>(dec: Bytes -> Option<(T, Bytes)>, s: Bytes, n: nat, xs: seq<T>, r1: Bytes, x: T, r2: Bytes)
    requires DecodeList(dec, s, n) == Some((xs, r1)) && dec(r1) == Some((x, r2))
    ensures DecodeList(dec, s, n + 1) == Some((xs + [x], r2))
  {
  }

  /** A counted loop that runs out of input stops the whole read: later passes change nothing. */
  lemma {:induction false} ListFailurePersists<T>(dec: Bytes -> Option<(T, Bytes)>, s: Bytes, m: nat, n: nat)
    requires m <= n && DecodeList(dec, s, m).None?
    ensures DecodeList(dec, s, n).None?
    decreases n
  {
    if m < n {
      ListFailurePersists(dec, s, m, n - 1);
    }
  }

  lemma {:induction false} ListRoundTrip<T(!new)>(enc: T -> Bytes, dec: Bytes -> Option<(T, Bytes)>, xs: seq<T>, rest: Bytes)
    requires Inverse(enc, dec)
    ensures DecodeList(dec, EncodeList(enc, xs) + rest, |xs|) == Some((xs, rest))
    decreases |xs|
  {
    if |xs| > 0 {
      var init, last := xs[..|xs| - 1], xs[|xs| - 1];
      var tail := enc(last) + rest;
      var s := EncodeList(enc, xs) + rest;
      assert s == EncodeList(enc, init) + tail;
      ListRoundTrip(enc, dec, init, tail);
      assert DecodeList(dec, s, |xs| - 1) == Some((init, tail));
      assert dec(enc(last) + rest) == Some((last, rest));
      assert init + [last] == xs;
    } else {
      assert EncodeList(enc, xs) + rest == rest;
    }
  }

  lemma Int32Inverse()
    ensures Inverse(EncodeInt32, DecodeInt32)
  {
    forall x: Int32, rest: Bytes
      ensures DecodeInt32(EncodeInt32(x) + rest) == Some((x, rest))
    {
      Int32RoundTrip(x, rest);
    }
  }

  // Regrouping a concatenation of fields from the left to the right, so
  // that each field's decoder sees its own bytes first.

  lemma Regroup3(a: Bytes, b: Bytes, rest: Bytes)
    ensures a + b + rest == a + (b + rest)
  {
  }

  lemma Regroup4(a: Bytes, b: Bytes, c: Bytes, d: Bytes, rest: Bytes)
    ensures a + b + c + d + rest == a + (b + (c + (d + rest)))
  {
  }

  lemma Regroup7(a: Bytes, b: Bytes, c: Bytes, d: Bytes, e: Bytes, f: Bytes, g: Bytes, rest: Bytes)
    ensures a + b + c + d + e + f + g + rest == a + (b + (c + (d + (e + (f + (g + rest))))))
  {
  }

  lemma Regroup10(a: Bytes, b: Bytes, c: Bytes, d: Bytes, e: Bytes, f: Bytes, g: Bytes, h: Bytes,
                  i: Bytes, j: Bytes, rest: Bytes)
    ensures a + b + c + d + e + f + g + h + i + j + rest
         == a + (b + (c + (d + (e + (f + (g + (h + (i + (j + rest)))))))))
  {
    Regroup7(a + b + c, d, e, f, g, h, i, j + rest);
    Regroup3(a, b, c + (d + (e + (f + (g + (h + (i + (j + rest))))))));
  }

  lemma EncodeListSnoc<T>(enc: T -> Bytes, xs: seq<T>, i: nat)
    requires i < |xs|
    ensures EncodeList(enc, xs[..i + 1]) == EncodeList(enc, xs[..i]) + enc(xs[i])
  {
    assert xs[..i + 1][..i] == xs[..i];
  }

  lemma Append4(o: Bytes, a: Bytes, b: Bytes, c: Bytes, d: Bytes)
    ensures o + a + b + c + d == o + (a + b + c + d)
  {
  }

  lemma Append7(o: Bytes, a: Bytes, b: Bytes, c: Bytes, d: Bytes, e: Bytes, f: Bytes, g: Bytes)
    ensures o + a + b + c + d + e + f + g == o + (a + b + c + d + e + f + g)
  {
    Regroup7(a, b, c, d, e, f, g, []);
    Regroup7(o + a, b, c, d, e, f, g, []);
    assert a + b + c + d + e + f + g + [] == a + b + c + d + e + f + g;
    assert o + a + b + c + d + e + f + g + [] == o + a + b + c + d + e + f + g;
  }

  /** Appending fields one at a time appends their concatenation. */
  lemma Append10(o: Bytes, a: Bytes, b: Bytes, c: Bytes, d: Bytes, e: Bytes, f: Bytes, g: Bytes,
                 h: Bytes, i: Bytes, j: Bytes)
    ensures o + a + b + c + d + e + f + g + h + i + j == o + (a + b + c + d + e + f + g + h + i + j)
  {
    Regroup10(a, b, c, d, e, f, g, h, i, j, []);
    Regroup10(o + a, b, c, d, e, f, g, h, i, j, []);
    assert a + b + c + d + e + f + g + h + i + j + [] == a + b + c + d + e + f + g + h + i + j;
    assert o + a + b + c + d + e + f + g + h + i + j + [] == o + a + b + c + d + e + f + g + h + i + j;
  }

  lemma Snoc<T>(xs: seq<T>)
    requires |xs| > 0
    ensures xs[..|xs| - 1] + [xs[|xs| - 1]] == xs
  {
  }

  /**
    A BinaryWriter over a stream that accepts at most `capacity` bytes.
    `intended` is everything the writer has been asked to write. A write
    that does not fit fails (the stream throws): it and every later write
    are dropped and `failed` stays set, which is what an exception that
    aborts the rest of the save leaves behind.
   */
  class Writer {
    const capacity: nat
    var data: Bytes
    var failed: bool
    ghost var intended: Bytes

    ghost predicate Valid()
      reads this
    {
      && data <= intended
      && |data| <= capacity
      && failed == (|intended| > capacity)
      && (!failed ==> data == intended)
    }

    constructor (capacity: nat)
      ensures Valid() && this.capacity == capacity
      ensures data == [] && intended == [] && !failed
    {
      this.capacity := capacity;
      data := [];
      failed := false;
      intended := [];
    }

    method Put(e: Bytes)
      requires Valid()
      modifies this
      ensures Valid()
      ensures intended == old(intended) + e
      ensures data == if !old(failed) && |old(data)| + |e| <= capacity then old(data) + e else old(data)
    {
      if !failed && |data| + |e| <= capacity {
        data := data + e;
      } else {
        failed := true;
      }
      intended := intended + e;
    }

    method WriteUInt32(v: UInt32)
      requires Valid()
      modifies this
      ensures Valid() && intended == old(intended) + EncodeUInt32(v)
    {
      Put(EncodeUInt32(v));
    }

    method WriteInt32(x: Int32)
      requires Valid()
      modifies this
      ensures Valid() && intended == old(intended) + EncodeInt32(x)
    {
      Put(EncodeInt32(x));
    }

    method WriteSingle(f: Single)
      requires Valid()
      modifies this
      ensures Valid() && intended == old(intended) + EncodeSingle(f)
    {
      Put(EncodeSingle(f));
    }

    method WriteVector3(v: Vector3)
      requires Valid()
      modifies this
      ensures Valid() && intended == old(intended) + EncodeVector3(v)
    {
      WriteSingle(v.x);
      WriteSingle(v.y);
      WriteSingle(v.z);
    }

    method WriteStringUTF8(text: Bytes)
      requires Valid() && |text| <= MaxInt32
      modifies this
      ensures Valid() && intended == old(intended) + EncodeString(text)
    {
      WriteInt32(|text|);
      Put(text);
    }
  }

  /** A BinaryReader: a cursor `pos` into the bytes of a stream. */
  class Reader {
    const data: Bytes
    var pos: nat

    ghost predicate Valid()
      reads this
    {
      pos <= |data|
    }

    /** What is still unread. */
    function Rest(): Bytes
      reads this
      requires Valid()
    {
      data[pos..]
    }

    constructor (data: Bytes)
      ensures Valid() && this.data == data && Rest() == data
    {
      this.data := data;
      pos := 0;
    }

    method ReadUInt32() returns (r: Option<UInt32>)
      requires Valid()
      modifies this
      ensures Valid()
      ensures DecodeUInt32(old(Rest())) == if r.Some? then Some((r.value, Rest())) else None
    {
      if |data| - pos < 4 {
        return None;
      }
      r := Some(Word(data[pos], data[pos + 1], data[pos + 2], data[pos + 3]));
      pos := pos + 4;
      assert old(Rest())[4..] == Rest();
    }

    method ReadInt32() returns (r: Option<Int32>)
      requires Valid()
      modifies this
      ensures Valid()
      ensures DecodeInt32(old(Rest())) == if r.Some? then Some((r.value, Rest())) else None
    {
      var u := ReadUInt32();
      if u.None? {
        return None;
      }
      r := Some(ToSigned(u.value));
    }

    method ReadSingle() returns (r: Option<Single>)
      requires Valid()
      modifies this
      ensures Valid()
      ensures DecodeSingle(old(Rest())) == if r.Some? then Some((r.value, Rest())) else None
    {
      var u := ReadUInt32();
      if u.None? {
        return None;
      }
      r := Some(Single(u.value));
    }

    method ReadVector3() returns (r: Option<Vector3>)
      requires Valid()
      modifies this
      ensures Valid()
      ensures DecodeVector3(old(Rest())) == if r.Some? then Some((r.value, Rest())) else None
    {
      var x := ReadSingle();
      if x.None? {
        return None;
      }
      var y := ReadSingle();
      if y.None? {
        return None;
      }
      var z := ReadSingle();
      if z.None? {
        return None;
      }
      r := Some(Vector3(x.value, y.value, z.value));
    }

    method ReadStringUTF8() returns (r: Option<Bytes>)
      requires Valid()
      modifies this
      ensures Valid()
      ensures DecodeString(old(Rest())) == if r.Some? then Some((r.value, Rest())) else None
    {
      var n := ReadInt32();
      if n.None? || n.value < 0 || |data| - pos < n.value {
        return None;
      }
      ghost var before := Rest();
      r := Some(data[pos..pos + n.value]);
      pos := pos + n.value;
      assert before[..n.value] == r.value;
      assert before[n.value..] == Rest();
    }
  }
}
