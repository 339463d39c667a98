/** The hand-written protobuf encoding of thinking signatures and its reader (internal/emulation/signature.go).
    Base64 around it, random bytes and the ECDSA signature itself are left out. */
module Signature {
  import opened Options

  type byte = x: nat | x < 256
  type Bytes = seq<byte>

  const UINT64 := 0x1_0000_0000_0000_0000

  // ---------------------------------------------------------------- varints

  function Pow128(i: nat): nat {
    if i == 0 then 1 else 128 * Pow128(i - 1)
  }

  /** x shifted left by 7 i bits. */
  function Shl(x: nat, i: nat): nat {
    if i == 0 then x else 128 * Shl(x, i - 1)
  }

  /** Base 128, least significant group first; all bytes but the last have the high bit set. */
  function Varint(v: nat): (b: Bytes)
    ensures b != []
  {
    if v < 128 then [v] else [v % 128 + 128] + Varint(v / 128)
  }

  method AppendVarint(dst: Bytes, value: nat) returns (r: Bytes)
    ensures r == dst + Varint(value)
  {
    r := dst;
    var v := value;
    while v >= 128
      invariant r + Varint(v) == dst + Varint(value)
    {
      assert r + Varint(v) == r + [v % 128 + 128] + Varint(v / 128);
      r := r + [v % 128 + 128];
      v := v / 128;
    }
    r := r + [v];
  }

  /** Reads on from byte i with the value of the bytes before it. The groups do not overlap, so the
      source's bitwise or is an addition; it keeps 64 bits. At most ten bytes are read. */
  function ReadFrom(b: Bytes, i: nat, acc: nat): (r: Option<(nat, nat)>)
    ensures r.Some? ==> i < r.value.1 <= |b| && r.value.0 < UINT64
    decreases 10 - i
  {
    if i >= |b| || i >= 10 then None
    else
      var v := (acc + Shl(b[i] % 128, i)) % UINT64;
      if b[i] < 128 then Some((v, i + 1)) else ReadFrom(b, i + 1, v)
  }

  function ReadVarint(b: Bytes): (r: Option<(nat, nat)>)
    ensures r.Some? ==> 0 < r.value.1 <= |b| && r.value.0 < UINT64
  {
    ReadFrom(b, 0, 0)
  }

  /** The value and the number of bytes read; (0, 0) if there is no varint. */
  method ConsumeVarint(b: Bytes) returns (v: nat, n: nat)
    ensures ReadVarint(b) == if n > 0 then Some((v, n)) else None
    ensures n == 0 ==> v == 0
  {
    v := 0;
    var i := 0;
    while i < |b| && i < 10
      invariant i <= |b| && i <= 10
      invariant ReadVarint(b) == ReadFrom(b, i, v)
    {
      v := (v + Shl(b[i] % 128, i)) % UINT64;
      if b[i] < 128 {
        return v, i + 1;
      }
      i := i + 1;
    }
    return 0, 0;
  }

  lemma {:induction false} VarintLength(v: nat, k: nat)
    requires v < Pow128(k) && k > 0
    ensures |Varint(v)| <= k
  {
    if v >= 128 {
      assert v / 128 < Pow128(k - 1);
      VarintLength(v / 128, k - 1);
    }
  }

  lemma {:induction false} ShlSplit(v: nat, i: nat)
    ensures Shl(v % 128, i) + Shl(v / 128, i + 1) == Shl(v, i)
  {
    if i > 0 {
      ShlSplit(v, i - 1);
    }
  }

  // One turn of the reading loop, when nothing overflows.
  lemma ReadOne(b: Bytes, i: nat, acc: nat, x: nat)
    requires i < |b| && i < 10 && x == Shl(b[i] % 128, i) && acc + x < UINT64
    ensures ReadFrom(b, i, acc) == if b[i] < 128 then Some((acc + x, i + 1)) else ReadFrom(b, i + 1, acc + x)
  {
  }

  lemma {:induction false} HeadOf(b: Bytes, i: nat, v: nat, rest: Bytes)
    requires i <= |b| && b[i..] == Varint(v) + rest
    ensures i < |b| && b[i] % 128 == v % 128 && (b[i] < 128 <==> v < 128)
    ensures v >= 128 ==> b[i + 1..] == Varint(v / 128) + rest && |Varint(v)| == 1 + |Varint(v / 128)|
    ensures v < 128 ==> |Varint(v)| == 1
  {
    assert |b[i..]| > 0;
    assert b[i] == b[i..][0] == Varint(v)[0];
    if v >= 128 {
      assert b[i + 1..] == b[i..][1..];
    }
  }

  lemma {:induction false} ReadBack(b: Bytes, i: nat, acc: nat, v: nat, rest: Bytes)
    requires i <= |b| && b[i..] == Varint(v) + rest
    requires i + |Varint(v)| <= 10 && acc + Shl(v, i) < UINT64
    ensures ReadFrom(b, i, acc) == Some((acc + Shl(v, i), i + |Varint(v)|))
    decreases v
  {
    ShlSplit(v, i);
    HeadOf(b, i, v, rest);
    var x := Shl(v % 128, i);
    ReadOne(b, i, acc, x);
    if v >= 128 {
      ReadBack(b, i + 1, acc + x, v / 128, rest);
    }
  }

  /** Reading a printed varint gives it back, with its length, whatever follows. */
  lemma {:induction false} VarintRoundTrip(v: nat, rest: Bytes)
    requires v < UINT64
    ensures ReadVarint(Varint(v) + rest) == Some((v, |Varint(v)|))
  {
    assert Pow128(4) == 128 * 128 * 128 * 128;
    assert Pow128(8) == 128 * 128 * 128 * 128 * Pow128(4);
    assert Pow128(10) == 128 * 128 * Pow128(8);
    VarintLength(v, 10);
    var b := Varint(v) + rest;
    assert b[0..] == b;
    ReadBack(b, 0, 0, v, rest);
  }

  // ---------------------------------------------------------------- fields

  datatype Field = VarintField(number: nat, value: nat) | BytesField(number: nat, data: Bytes)

  // Numbers 1 to 15 have a one-byte tag; lengths fit an int.
  predicate Encodable(f: Field) {
    && 1 <= f.number <= 15
    && (f.VarintField? ==> f.value < UINT64)
    && (f.BytesField? ==> |f.data| < UINT64 / 2)
  }

  function TagByte(f: Field): byte {
    (f.number * 8) % 256 + (if f.BytesField? then 2 else 0)
  }

  function EncodeField(f: Field): Bytes {
    match f
    case VarintField(_, v) => [TagByte(f)] + Varint(v)
    case BytesField(_, d) => [TagByte(f)] + Varint(|d|) + d
  }

  function Encode(fs: seq<Field>): Bytes {
    if fs == [] then [] else EncodeField(fs[0]) + Encode(fs[1..])
  }

  lemma Regrouped(a: Bytes, b: Bytes, c: Bytes, d: Bytes)
    ensures ((a + b) + c) + d == a + (b + c + d)
  {
  }

  method AppendBytes(dst: Bytes, field: nat, data: Bytes) returns (r: Bytes)
    ensures r == dst + EncodeField(BytesField(field, data))
  {
    var tag: byte := (field * 8) % 256 + 2;
    r := dst + [tag];
    r := AppendVarint(r, |data|);
    r := r + data;
    Regrouped(dst, [tag], Varint(|data|), data);
  }

  method AppendVarintField(dst: Bytes, field: nat, v: nat) returns (r: Bytes)
    ensures r == dst + EncodeField(VarintField(field, v))
  {
    r := dst + [(field * 8) % 256];
    r := AppendVarint(r, v);
  }

  /** How many bytes a value of the given wire type takes. */
  function SkipValue(b: Bytes, typ: nat): (r: Option<nat>)
    ensures r.Some? ==> r.value <= |b|
  {
    if typ == 0 then (if ReadVarint(b).Some? then Some(ReadVarint(b).value.1) else None)
    else if typ == 1 then (if |b| < 8 then None else Some(8))
    else if typ == 2 then
      var r := ReadVarint(b);
      if r.None? || r.value.1 + r.value.0 > |b| then None else Some(r.value.1 + r.value.0)
    else if typ == 5 then (if |b| < 4 then None else Some(4))
    else None
  }

  method SkipProtobufValue(b: Bytes, typ: nat) returns (n: nat, ok: bool)
    ensures SkipValue(b, typ) == if ok then Some(n) else None
  {
    match typ {
      case 0 =>
        var v;
        v, n := ConsumeVarint(b);
        return n, n > 0;
      case 1 =>
        if |b| < 8 {
          return 0, false;
        }
        return 8, true;
      case 2 =>
        var ln;
        ln, n := ConsumeVarint(b);
        if n == 0 || n + ln > |b| {
          return 0, false;
        }
        return n + ln, true;
      case 5 =>
        if |b| < 4 {
          return 0, false;
        }
        return 4, true;
      case _ =>
    }
    return 0, false;
  }

  /** What one field met on a walk means for a lookup: the end, the value looked for, or on to an offset. */
  datatype Turn<T> = Stop | Found(value: T) | Next(off: nat)

  // The value after a tag that has another wire type than the one looked for.
  function SkipTurn<T>(msg: Bytes, p: nat, typ: nat): (t: Turn<T>)
    requires p <= |msg|
    ensures t.Next? ==> p <= t.off <= |msg|
  {
    var skip := SkipValue(msg[p..], typ);
    if skip.None? then Stop else Next(p + skip.value)
  }

  function BytesTurn(msg: Bytes, p: nat, hit: bool): (t: Turn<Bytes>)
    requires p <= |msg|
    ensures t.Next? ==> p <= t.off <= |msg|
  {
    var len := ReadVarint(msg[p..]);
    if len.None? || p + len.value.1 + len.value.0 > |msg| then Stop
    else
      var q := p + len.value.1;
      if hit then Found(msg[q..q + len.value.0]) else Next(q + len.value.0)
  }

  function VarintTurn(msg: Bytes, p: nat, hit: bool): (t: Turn<nat>)
    requires p <= |msg|
    ensures t.Next? ==> p <= t.off <= |msg|
  {
    var v := ReadVarint(msg[p..]);
    if v.None? then Stop else if hit then Found(v.value.0) else Next(p + v.value.1)
  }

  function BytesAt(msg: Bytes, off: nat, field: nat): (t: Turn<Bytes>)
    requires off < |msg|
    ensures t.Next? ==> off < t.off <= |msg|
  {
    var tag := ReadVarint(msg[off..]);
    if tag.None? then Stop
    else if tag.value.0 % 8 != 2 then SkipTurn(msg, off + tag.value.1, tag.value.0 % 8)
    else BytesTurn(msg, off + tag.value.1, tag.value.0 / 8 == field)
  }

  function VarintAt(msg: Bytes, off: nat, field: nat): (t: Turn<nat>)
    requires off < |msg|
    ensures t.Next? ==> off < t.off <= |msg|
  {
    var tag := ReadVarint(msg[off..]);
    if tag.None? then Stop
    else if tag.value.0 % 8 != 0 then SkipTurn(msg, off + tag.value.1, tag.value.0 % 8)
    else VarintTurn(msg, off + tag.value.1, tag.value.0 / 8 == field)
  }

  /** The first length-delimited field with a number, walking any bytes from an offset. */
  function FindBytes(msg: Bytes, off: nat, field: nat): Option<Bytes>
    requires off <= |msg|
    decreases |msg| - off
  {
    if off == |msg| then None
    else
      match BytesAt(msg, off, field)
      case Stop => None
      case Found(v) => Some(v)
      case Next(q) => FindBytes(msg, q, field)
  }

  /** The first varint field with a number. */
  function FindVarint(msg: Bytes, off: nat, field: nat): Option<nat>
    requires off <= |msg|
    decreases |msg| - off
  {
    if off == |msg| then None
    else
      match VarintAt(msg, off, field)
      case Stop => None
      case Found(v) => Some(v)
      case Next(q) => FindVarint(msg, q, field)
  }

  // One turn of the lookup loops of protobufBytesField and protobufVarintField.
  method BytesStep(msg: Bytes, start: nat, field: nat) returns (t: Turn<Bytes>)
    requires start < |msg|
    ensures t == BytesAt(msg, start, field)
  {
    var tag, n := ConsumeVarint(msg[start..]);
    if n == 0 {
      return Stop;
    }
    var off := start + n;
    if tag % 8 != 2 {
      var skip, ok := SkipProtobufValue(msg[off..], tag % 8);
      return if !ok then Stop else Next(off + skip);
    }
    t := BytesValue(msg, off, tag / 8 == field);
  }

  method BytesValue(msg: Bytes, start: nat, hit: bool) returns (t: Turn<Bytes>)
    requires start <= |msg|
    ensures t == BytesTurn(msg, start, hit)
  {
    var off := start;
    var ln, n := ConsumeVarint(msg[off..]);
    if n == 0 || off + n + ln > |msg| {
      return Stop;
    }
    off := off + n;
    var val := msg[off..off + ln];
    off := off + ln;
    return if hit then Found(val) else Next(off);
  }

  method VarintStep(msg: Bytes, start: nat, field: nat) returns (t: Turn<nat>)
    requires start < |msg|
    ensures t == VarintAt(msg, start, field)
  {
    var tag, n := ConsumeVarint(msg[start..]);
    if n == 0 {
      return Stop;
    }
    var off := start + n;
    if tag % 8 != 0 {
      var skip, ok := SkipProtobufValue(msg[off..], tag % 8);
      return if !ok then Stop else Next(off + skip);
    }
    var v;
    v, n := ConsumeVarint(msg[off..]);
    if n == 0 {
      return Stop;
    }
    off := off + n;
    return if tag / 8 == field then Found(v) else Next(off);
  }

  method ProtobufBytesField(msg: Bytes, field: nat) returns (r: Option<Bytes>)
    ensures r == FindBytes(msg, 0, field)
  {
    var off := 0;
    while off < |msg|
      invariant off <= |msg| && FindBytes(msg, 0, field) == FindBytes(msg, off, field)
    {
      var t := BytesStep(msg, off, field);
      match t {
        case Stop => return None;
        case Found(v) => return Some(v);
        case Next(q) => off := q;
      }
    }
    return None;
  }

  method ProtobufVarintField(msg: Bytes, field: nat) returns (r: Option<nat>)
    ensures r == FindVarint(msg, 0, field)
  {
    var off := 0;
    while off < |msg|
      invariant off <= |msg| && FindVarint(msg, 0, field) == FindVarint(msg, off, field)
    {
      var t := VarintStep(msg, off, field);
      match t {
        case Stop => return None;
        case Found(v) => return Some(v);
        case Next(q) => off := q;
      }
    }
    return None;
  }

  // ---------------------------------------------------------------- reading back

  /** The first bytes field with a number. */
  function FirstBytes(fs: seq<Field>, number: nat): Option<Bytes> {
    if fs == [] then None
    else if fs[0].BytesField? && fs[0].number == number then Some(fs[0].data)
    else FirstBytes(fs[1..], number)
  }

  function FirstVarint(fs: seq<Field>, number: nat): Option<nat> {
    if fs == [] then None
    else if fs[0].VarintField? && fs[0].number == number then Some(fs[0].value)
    else FirstVarint(fs[1..], number)
  }

  ghost predicate AllEncodable(fs: seq<Field>) {
    forall i :: 0 <= i < |fs| ==> Encodable(fs[i])
  }

  // What follows the tag of an encoded field.
  function Rest(f: Field, rest: Bytes): Bytes {
    if f.BytesField? then Varint(|f.data|) + (f.data + rest) else Varint(f.value) + rest
  }

  lemma TagParts(f: Field)
    requires Encodable(f)
    ensures TagByte(f) / 8 == f.number && TagByte(f) % 8 == (if f.BytesField? then 2 else 0) && TagByte(f) < 128
  {
  }

  lemma TagFirst(f: Field, rest: Bytes)
    requires Encodable(f)
    ensures EncodeField(f) + rest == [TagByte(f)] + Rest(f, rest)
  {
  }

  lemma TailOf(b: byte, rest: Bytes)
    ensures ([b] + rest)[1..] == rest
  {
  }

  lemma ReadTag(f: Field, rest: Bytes)
    requires Encodable(f)
    ensures ReadVarint(EncodeField(f) + rest) == Some((TagByte(f) as nat, 1))
    ensures (EncodeField(f) + rest)[1..] == Rest(f, rest)
  {
    TagParts(f);
    TagFirst(f, rest);
    TailOf(TagByte(f), Rest(f, rest));
    VarintRoundTrip(TagByte(f), Rest(f, rest));
    assert Varint(TagByte(f)) == [TagByte(f)];
  }

  lemma Slices(a: Bytes, d: Bytes, rest: Bytes)
    ensures var b, m := a + (d + rest), |a|;
            m + |d| <= |b| && b[m..m + |d|] == d && b[m + |d|..] == rest
  {
  }

  lemma {:induction false} ReadBytes(data: Bytes, rest: Bytes)
    requires |data| < UINT64
    ensures var b, m := Varint(|data|) + (data + rest), |Varint(|data|)|;
            && ReadVarint(b) == Some((|data|, m)) && SkipValue(b, 2) == Some(m + |data|)
            && m + |data| <= |b| && b[m..m + |data|] == data && b[m + |data|..] == rest
  {
    Slices(Varint(|data|), data, rest);
    VarintRoundTrip(|data|, data + rest);
  }

  lemma {:induction false} ReadValue(v: nat, rest: Bytes)
    requires v < UINT64
    ensures var b, m := Varint(v) + rest, |Varint(v)|;
            && ReadVarint(b) == Some((v, m)) && SkipValue(b, 0) == Some(m) && b[m..] == rest
  {
    VarintRoundTrip(v, rest);
  }

  lemma {:induction false} BytesBehind(msg: Bytes, p: nat, data: Bytes, rest: Bytes, hit: bool)
    requires |data| < UINT64 && p <= |msg| && msg[p..] == Varint(|data|) + (data + rest)
    ensures var next := p + |Varint(|data|)| + |data|;
            && next <= |msg| && msg[next..] == rest
            && BytesTurn(msg, p, hit) == (if hit then Found(data) else Next(next))
            && SkipTurn<nat>(msg, p, 2) == Next(next)
  {
    ReadBytes(data, rest);
    var m := |Varint(|data|)|;
    assert msg[p..][m..m + |data|] == msg[p + m..p + m + |data|];
    assert msg[p..][m + |data|..] == msg[p + m + |data|..];
  }

  lemma {:induction false} VarintBehind(msg: Bytes, p: nat, v: nat, rest: Bytes, hit: bool)
    requires v < UINT64 && p <= |msg| && msg[p..] == Varint(v) + rest
    ensures var next := p + |Varint(v)|;
            && next <= |msg| && msg[next..] == rest
            && VarintTurn(msg, p, hit) == (if hit then Found(v) else Next(next))
            && SkipTurn<Bytes>(msg, p, 0) == Next(next)
  {
    ReadValue(v, rest);
    assert msg[p..][|Varint(v)|..] == msg[p + |Varint(v)|..];
  }

  lemma AfterTag(msg: Bytes, off: nat, f: Field, rest: Bytes)
    requires Encodable(f) && off < |msg| && msg[off..] == EncodeField(f) + rest
    ensures msg[off + 1..] == Rest(f, rest)
    ensures ReadVarint(msg[off..]) == Some((TagByte(f) as nat, 1))
  {
    ReadTag(f, rest);
    assert msg[off + 1..] == msg[off..][1..];
  }

  // A walk after a tag, in terms of the kind of field it announces.
  lemma TurnsAfter(msg: Bytes, off: nat, f: Field, number: nat)
    requires Encodable(f) && off < |msg| && ReadVarint(msg[off..]) == Some((TagByte(f) as nat, 1))
    ensures BytesAt(msg, off, number)
            == if f.BytesField? then BytesTurn(msg, off + 1, f.number == number) else SkipTurn(msg, off + 1, 0)
    ensures VarintAt(msg, off, number)
            == if f.VarintField? then VarintTurn(msg, off + 1, f.number == number) else SkipTurn(msg, off + 1, 2)
  {
    TagParts(f);
  }

  // What walking over an encoded field does to each lookup: it is found, or the walk goes on behind it.
  ghost predicate Walked(msg: Bytes, off: nat, f: Field, rest: Bytes, number: nat, next: nat)
    requires off < |msg|
  {
    && off < next <= |msg| && msg[next..] == rest
    && BytesAt(msg, off, number) == (if f.BytesField? && f.number == number then Found(f.data) else Next(next))
    && VarintAt(msg, off, number) == (if f.VarintField? && f.number == number then Found(f.value) else Next(next))
  }

  lemma BytesWalked(msg: Bytes, off: nat, f: Field, rest: Bytes, number: nat) returns (next: nat)
    requires Encodable(f) && f.BytesField? && off < |msg| && msg[off..] == EncodeField(f) + rest
    ensures Walked(msg, off, f, rest, number, next)
  {
    AfterTag(msg, off, f, rest);
    TurnsAfter(msg, off, f, number);
    BytesBehind(msg, off + 1, f.data, rest, f.number == number);
    next := off + 1 + |Varint(|f.data|)| + |f.data|;
  }

  lemma VarintWalked(msg: Bytes, off: nat, f: Field, rest: Bytes, number: nat) returns (next: nat)
    requires Encodable(f) && f.VarintField? && off < |msg| && msg[off..] == EncodeField(f) + rest
    ensures Walked(msg, off, f, rest, number, next)
  {
    AfterTag(msg, off, f, rest);
    TurnsAfter(msg, off, f, number);
    VarintBehind(msg, off + 1, f.value, rest, f.number == number);
    next := off + 1 + |Varint(f.value)|;
  }

  /** Walking over an encoded field finds it, or goes on behind it. */
  lemma FindInField(msg: Bytes, off: nat, f: Field, rest: Bytes, number: nat) returns (next: nat)
    requires Encodable(f) && off < |msg| && msg[off..] == EncodeField(f) + rest
    ensures Walked(msg, off, f, rest, number, next)
  {
    if f.BytesField? {
      next := BytesWalked(msg, off, f, rest, number);
    } else {
      next := VarintWalked(msg, off, f, rest, number);
    }
  }

  lemma {:induction false} LookupsFrom(msg: Bytes, off: nat, fs: seq<Field>, number: nat)
    requires AllEncodable(fs) && off <= |msg| && msg[off..] == Encode(fs)
    ensures FindBytes(msg, off, number) == FirstBytes(fs, number)
    ensures FindVarint(msg, off, number) == FirstVarint(fs, number)
    decreases |fs|
  {
    if fs == [] {
      assert |msg[off..]| == 0;
    } else {
      assert |msg[off..]| > 0;
      var next := FindInField(msg, off, fs[0], Encode(fs[1..]), number);
      LookupsFrom(msg, next, fs[1..], number);
    }
  }

  /** On any concatenation of encoded fields each lookup finds the first field of that number and wire
      type, and nothing if there is none. */
  lemma {:induction false} LookupsExact(fs: seq<Field>, number: nat)
    requires AllEncodable(fs)
    ensures FindBytes(Encode(fs), 0, number) == FirstBytes(fs, number)
    ensures FindVarint(Encode(fs), 0, number) == FirstVarint(fs, number)
  {
    assert Encode(fs)[0..] == Encode(fs);
    LookupsFrom(Encode(fs), 0, fs, number);
  }

  // ---------------------------------------------------------------- signatures

  const CHANNEL_ID := 16
  const SIGNATURE_VERSION := 2
  const THINKING: Bytes := [116, 104, 105, 110, 107, 105, 110, 103]

  function ChannelFields(model: Bytes, contextId: Bytes, ecdsa: Bytes): seq<Field> {
    [VarintField(1, CHANNEL_ID), VarintField(3, SIGNATURE_VERSION), BytesField(5, ecdsa)]
    + (if model != [] then [BytesField(6, model)] else [])
    + [VarintField(7, 1), BytesField(8, THINKING), BytesField(11, contextId)]
  }

  function ContainerFields(channel: Bytes, nonce: Bytes, session: Bytes, digest: Bytes, meta: Bytes): seq<Field> {
    [BytesField(1, channel), BytesField(2, nonce), BytesField(3, session), BytesField(4, digest), BytesField(5, meta)]
  }

  lemma {:induction false} EncodeConcat(fs: seq<Field>, gs: seq<Field>)
    ensures Encode(fs + gs) == Encode(fs) + Encode(gs)
  {
    if fs == [] {
      assert fs + gs == gs;
    } else {
      assert (fs + gs)[0] == fs[0] && (fs + gs)[1..] == fs[1..] + gs;
      EncodeConcat(fs[1..], gs);
    }
  }

  lemma {:induction false} EncodeSnoc(fs: seq<Field>, f: Field)
    ensures Encode(fs + [f]) == Encode(fs) + EncodeField(f)
  {
    EncodeConcat(fs, [f]);
    assert [f][1..] == [];
  }

  /** A message under construction, field by field. */
  class Builder {
    var bytes: Bytes
    ghost var fields: seq<Field>

    ghost predicate Valid()
      reads this
    {
      bytes == Encode(fields)
    }

    constructor ()
      ensures Valid() && fields == []
    {
      bytes, fields := [], [];
    }

    method AddBytes(field: nat, data: Bytes)
      requires Valid()
      modifies this
      ensures Valid() && fields == old(fields) + [BytesField(field, data)]
    {
      EncodeSnoc(fields, BytesField(field, data));
      bytes := AppendBytes(bytes, field, data);
      fields := fields + [BytesField(field, data)];
    }

    method AddVarint(field: nat, v: nat)
      requires Valid()
      modifies this
      ensures Valid() && fields == old(fields) + [VarintField(field, v)]
    {
      EncodeSnoc(fields, VarintField(field, v));
      bytes := AppendVarintField(bytes, field, v);
      fields := fields + [VarintField(field, v)];
    }
  }

  method GenerateChannel(model: Bytes, contextId: Bytes, ecdsa: Bytes) returns (channel: Bytes)
    ensures channel == Encode(ChannelFields(model, contextId, ecdsa))
  {
    var b := new Builder();
    b.AddVarint(1, CHANNEL_ID);
    b.AddVarint(3, SIGNATURE_VERSION);
    b.AddBytes(5, ecdsa);
    if model != [] {
      b.AddBytes(6, model);
    }
    b.AddVarint(7, 1);
    b.AddBytes(8, THINKING);
    b.AddBytes(11, contextId);
    assert b.fields == ChannelFields(model, contextId, ecdsa);
    return b.bytes;
  }

  /** Everything random comes in as a parameter. */
  datatype Secrets = Secrets(nonce: Bytes, session: Bytes, digest: Bytes, meta: Bytes, ecdsa: Bytes)

  function Body(model: Bytes, contextId: Bytes, x: Secrets): Bytes {
    var channel := Encode(ChannelFields(model, contextId, x.ecdsa));
    Encode([BytesField(2, Encode(ContainerFields(channel, x.nonce, x.session, x.digest, x.meta))), VarintField(3, 1)])
  }

  method GenerateThinkingSignature(model: Bytes, contextId: Bytes, x: Secrets) returns (body: Bytes)
    ensures body == Body(model, contextId, x)
  {
    var channel := GenerateChannel(model, contextId, x.ecdsa);
    var inner := new Builder();
    inner.AddBytes(1, channel);
    inner.AddBytes(2, x.nonce);
    inner.AddBytes(3, x.session);
    inner.AddBytes(4, x.digest);
    inner.AddBytes(5, x.meta);
    assert inner.fields == ContainerFields(channel, x.nonce, x.session, x.digest, x.meta);
    var outer := new Builder();
    outer.AddBytes(2, inner.bytes);
    outer.AddVarint(3, 1);
    assert outer.fields == [BytesField(2, inner.bytes), VarintField(3, 1)];
    return outer.bytes;
  }

  datatype Info = Info(channelId: nat, channelLen: nat, model: Bytes, blockKind: Bytes, contextId: Bytes, hasChannel: bool)

  const NO_INFO := Info(0, 0, [], [], [], false)

  function OrEmpty(b: Option<Bytes>): Bytes {
    if b.Some? then b.value else []
  }

  method InspectThinkingSignature(raw: Bytes) returns (info: Info)
    ensures info == Inspected(raw)
  {
    info := NO_INFO;
    if |raw| == 0 || raw[0] != 0x12 {
      return;
    }
    var container := ProtobufBytesField(raw, 2);
    if container.None? {
      return;
    }
    var channel := ProtobufBytesField(container.value, 1);
    if channel.None? {
      return;
    }
    info := info.(channelLen := |channel.value|);
    var id := ProtobufVarintField(channel.value, 1);
    if id.Some? {
      info := info.(channelId := id.value, hasChannel := true);
    }
    var model := ProtobufBytesField(channel.value, 6);
    if model.Some? {
      info := info.(model := model.value);
    }
    var kind := ProtobufBytesField(channel.value, 8);
    if kind.Some? {
      info := info.(blockKind := kind.value);
    }
    var ctx := ProtobufBytesField(channel.value, 11);
    if ctx.Some? {
      info := info.(contextId := ctx.value);
    }
  }

  /** What inspection reads out of the channel message. */
  function ChannelInfo(c: Bytes): Info {
    var id := FindVarint(c, 0, 1);
    Info(if id.Some? then id.value else 0, |c|, OrEmpty(FindBytes(c, 0, 6)), OrEmpty(FindBytes(c, 0, 8)),
         OrEmpty(FindBytes(c, 0, 11)), id.Some?)
  }

  function Inspected(raw: Bytes): Info {
    if raw == [] || raw[0] != 0x12 || FindBytes(raw, 0, 2).None? then NO_INFO
    else
      var channel := FindBytes(FindBytes(raw, 0, 2).value, 0, 1);
      if channel.None? then NO_INFO else ChannelInfo(channel.value)
  }

  // A field is no longer than the message it is in.
  lemma {:induction false} FieldLengths(fs: seq<Field>)
    ensures forall i :: 0 <= i < |fs| && fs[i].BytesField? ==> |fs[i].data| <= |Encode(fs)|
  {
    if fs != [] {
      FieldLengths(fs[1..]);
      forall i | 0 <= i < |fs| && fs[i].BytesField?
        ensures |fs[i].data| <= |Encode(fs)|
      {
        if i > 0 {
          assert fs[i] == fs[1..][i - 1];
        }
      }
    }
  }

  lemma ChannelRead(model: Bytes, contextId: Bytes, ecdsa: Bytes)
    requires |Encode(ChannelFields(model, contextId, ecdsa))| < UINT64 / 2
    ensures ChannelInfo(Encode(ChannelFields(model, contextId, ecdsa)))
            == Info(16, |Encode(ChannelFields(model, contextId, ecdsa))|, model, THINKING, contextId, true)
  {
    var fs := ChannelFields(model, contextId, ecdsa);
    FieldLengths(fs);
    LookupsExact(fs, 1);
    LookupsExact(fs, 6);
    LookupsExact(fs, 8);
    LookupsExact(fs, 11);
    ChannelFirsts(model, contextId, ecdsa, 6);
    ChannelFirsts(model, contextId, ecdsa, 8);
    ChannelFirsts(model, contextId, ecdsa, 11);
  }

  lemma {:induction false} FirstOf(f: Field, fs: seq<Field>, number: nat)
    ensures FirstBytes([f] + fs, number)
            == (if f.BytesField? && f.number == number then Some(f.data) else FirstBytes(fs, number))
    ensures FirstVarint([f] + fs, number)
            == (if f.VarintField? && f.number == number then Some(f.value) else FirstVarint(fs, number))
  {
    assert ([f] + fs)[1..] == fs;
  }

  // The fields after the ecdsa signature.
  lemma LaterFirsts(model: Bytes, contextId: Bytes, number: nat)
    requires number != 1
    ensures var gs := (if model != [] then [BytesField(6, model)] else [])
                      + [VarintField(7, 1), BytesField(8, THINKING), BytesField(11, contextId)];
            FirstBytes(gs, number)
            == (if number == 6 && model != [] then Some(model) else if number == 8 then Some(THINKING)
                else if number == 11 then Some(contextId) else None)
  {
    var ctx := [BytesField(11, contextId)];
    var kind := [BytesField(8, THINKING)] + ctx;
    var rest := [VarintField(7, 1)] + kind;
    assert rest == [VarintField(7, 1), BytesField(8, THINKING), BytesField(11, contextId)];
    FirstOf(BytesField(11, contextId), [], number);
    assert ctx == ctx + [];
    FirstOf(BytesField(8, THINKING), ctx, number);
    FirstOf(VarintField(7, 1), kind, number);
    FirstOf(BytesField(6, model), rest, number);
    assert [] + rest == rest;
  }

  lemma {:induction false} ChannelFirsts(model: Bytes, contextId: Bytes, ecdsa: Bytes, number: nat)
    requires number == 6 || number == 8 || number == 11
    ensures var fs := ChannelFields(model, contextId, ecdsa);
            && FirstVarint(fs, 1) == Some(16)
            && FirstBytes(fs, number)
               == (if number == 8 then Some(THINKING) else if number == 11 then Some(contextId)
                   else if model != [] then Some(model) else None)
  {
    var gs := (if model != [] then [BytesField(6, model)] else [])
              + [VarintField(7, 1), BytesField(8, THINKING), BytesField(11, contextId)];
    var two := [BytesField(5, ecdsa)] + gs;
    var one := [VarintField(3, SIGNATURE_VERSION)] + two;
    assert ChannelFields(model, contextId, ecdsa) == [VarintField(1, CHANNEL_ID)] + one;
    LaterFirsts(model, contextId, number);
    FirstOf(BytesField(5, ecdsa), gs, number);
    FirstOf(VarintField(3, SIGNATURE_VERSION), two, number);
    FirstOf(VarintField(1, CHANNEL_ID), one, number);
    FirstOf(VarintField(1, CHANNEL_ID), one, 1);
  }

  lemma ContainerRead(channel: Bytes, x: Secrets)
    requires |Encode(ContainerFields(channel, x.nonce, x.session, x.digest, x.meta))| < UINT64 / 2
    ensures |channel| < UINT64 / 2
    ensures FindBytes(Encode(ContainerFields(channel, x.nonce, x.session, x.digest, x.meta)), 0, 1) == Some(channel)
  {
    var cs := ContainerFields(channel, x.nonce, x.session, x.digest, x.meta);
    FieldLengths(cs);
    assert cs[0].data == channel;
    LookupsExact(cs, 1);
  }

  lemma BodyRead(container: Bytes)
    requires |container| < UINT64 / 2
    ensures var raw := Encode([BytesField(2, container), VarintField(3, 1)]);
            raw != [] && raw[0] == 0x12 && FindBytes(raw, 0, 2) == Some(container)
  {
    var os := [BytesField(2, container), VarintField(3, 1)];
    LookupsExact(os, 2);
    assert FirstBytes(os, 2) == Some(container);
    assert Encode(os) == EncodeField(os[0]) + Encode(os[1..]);
    TagFirst(os[0], []);
    assert EncodeField(os[0])[0] == TagByte(os[0]) == 0x12;
  }

  /** Through three nested messages, inspecting a generated signature recovers channel 16, the model,
      the block kind and the context id. */
  lemma InspectGenerated(model: Bytes, contextId: Bytes, x: Secrets)
    requires |Body(model, contextId, x)| < UINT64 / 2
    ensures Inspected(Body(model, contextId, x))
            == Info(16, |Encode(ChannelFields(model, contextId, x.ecdsa))|, model, THINKING, contextId, true)
  {
    var channel := Encode(ChannelFields(model, contextId, x.ecdsa));
    var container := Encode(ContainerFields(channel, x.nonce, x.session, x.digest, x.meta));
    var os := [BytesField(2, container), VarintField(3, 1)];
    FieldLengths(os);
    assert os[0].data == container;
    BodyRead(container);
    ContainerRead(channel, x);
    ChannelRead(model, contextId, x.ecdsa);
  }
}
