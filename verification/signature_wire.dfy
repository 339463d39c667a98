/** What the bytes of thinking signatures mean: varints digit by digit, messages as the fields they hold, whatever
    the bytes, and a signature as everything that went into it. */
module SignatureWire {
  import opened Options
  import opened Signature

  // ---------------------------------------------------------------- varints

  /** The number spelled by the first n bytes, seven bits each, least significant first. */
  function Value(b: Bytes, n: nat): nat
    requires n <= |b|
  {
    if n == 0 then 0 else b[0] % 128 + 128 * Value(b[1..], n - 1)
  }

  /** The first n bytes, ten at most, are a varint: all but the last go on. It keeps 64 bits. */
  predicate Spells(b: Bytes, v: nat, n: nat) {
    && 0 < n <= |b| && n <= 10
    && (forall i :: 0 <= i < n - 1 ==> b[i] >= 128)
    && b[n - 1] < 128 && v == Value(b, n) % UINT64
  }

  lemma {:induction false} ShlSum(x: nat, y: nat, i: nat)
    ensures Shl(x, i) + Shl(y, i + 1) == Shl(x + 128 * y, i)
  {
    if i > 0 {
      ShlSum(x, y, i - 1);
    }
  }

  lemma Wrapped(a: nat, x: nat, y: nat)
    ensures ((a + x) % UINT64 + y) % UINT64 == (a + (x + y)) % UINT64
  {
  }

  // Reading on from byte i meets the end of the varint n bytes later.
  lemma {:induction false} ReadOn(b: Bytes, i: nat, acc: nat, n: nat)
    requires 0 < n && i + n <= |b| && i + n <= 10 && b[i + n - 1] < 128
    requires forall j :: i <= j < i + n - 1 ==> b[j] >= 128
    ensures ReadFrom(b, i, acc) == Some(((acc + Shl(Value(b[i..], n), i)) % UINT64, i + n))
    decreases n
  {
    var x := Shl(b[i] % 128, i);
    assert b[i..][0] == b[i] && b[i..][1..] == b[i + 1..];
    if n > 1 {
      var y := Value(b[i + 1..], n - 1);
      ReadOn(b, i + 1, (acc + x) % UINT64, n - 1);
      ShlSum(b[i] % 128, y, i);
      Wrapped(acc, x, Shl(y, i + 1));
    }
  }

  // Where reading on ends, if it does.
  lemma {:induction false} ReadEnds(b: Bytes, i: nat, acc: nat)
    requires ReadFrom(b, i, acc).Some?
    ensures var m := ReadFrom(b, i, acc).value.1;
            i < m <= |b| && m <= 10 && b[m - 1] < 128 && forall j :: i <= j < m - 1 ==> b[j] >= 128
    decreases 10 - i
  {
    if b[i] >= 128 {
      ReadEnds(b, i + 1, (acc + Shl(b[i] % 128, i)) % UINT64);
    }
  }

  /** A varint is read exactly where there is one, as what it spells. */
  lemma {:induction false} ReadExact(b: Bytes, v: nat, n: nat)
    ensures ReadVarint(b) == Some((v, n)) <==> Spells(b, v, n)
  {
    assert b[0..] == b;
    if ReadVarint(b).Some? {
      ReadEnds(b, 0, 0);
      ReadOn(b, 0, 0, ReadVarint(b).value.1);
    }
    if Spells(b, v, n) {
      ReadOn(b, 0, 0, n);
    }
  }

  /** A printed varint spells its number, in no more bytes than needed. */
  lemma {:induction false} VarintSpelled(v: nat)
    ensures var b := Varint(v);
            && Value(b, |b|) == v && b[|b| - 1] < 128 && (forall i :: 0 <= i < |b| - 1 ==> b[i] >= 128)
            && (|b| > 1 ==> b[|b| - 1] > 0)
  {
    if v >= 128 {
      var b := Varint(v);
      VarintSpelled(v / 128);
      assert b[1..] == Varint(v / 128);
    }
  }

  // ---------------------------------------------------------------- fields

  /** The bytes of a field, as protobuf lays them out. */
  lemma {:induction false} FieldBytes(number: nat, v: nat, d: Bytes)
    requires 1 <= number <= 15
    ensures 8 * number + 2 < 256
    ensures EncodeField(VarintField(number, v)) == [8 * number] + Varint(v)
    ensures EncodeField(BytesField(number, d)) == [8 * number + 2] + Varint(|d|) + d
  {
    var a: byte, b: byte := 8 * number, 8 * number + 2;
    assert TagByte(VarintField(number, v)) == a && TagByte(BytesField(number, d)) == b;
    assert EncodeField(VarintField(number, v)) == [a] + Varint(v);
    assert EncodeField(BytesField(number, d)) == [b] + Varint(|d|) + d;
  }

  /** The two examples of protobuf's own description of its encoding: field 1 with the number 150, and field 2
      with the text "testing". */
  lemma KnownBytes()
    ensures EncodeField(VarintField(1, 150)) == [0x08, 0x96, 0x01]
    ensures EncodeField(BytesField(2, [0x74, 0x65, 0x73, 0x74, 0x69, 0x6e, 0x67]))
            == [0x12, 0x07, 0x74, 0x65, 0x73, 0x74, 0x69, 0x6e, 0x67]
  {
    assert Varint(150) == [0x96] + Varint(1);
  }

  /** A field of any number and wire type; of fixed-width ones only that they are there. */
  datatype Raw = RawVarint(number: nat, value: nat) | RawBytes(number: nat, data: Bytes) | RawFixed(number: nat, width: nat)

  /** The field at an offset, and where the next one starts; none if the bytes are no field. */
  function RawAt(msg: Bytes, off: nat): (r: Option<(Raw, nat)>)
    requires off <= |msg|
    ensures r.Some? ==> off < r.value.1 <= |msg|
  {
    var tag := ReadVarint(msg[off..]);
    if tag.None? then None
    else
      var number, typ, p := tag.value.0 / 8, tag.value.0 % 8, off + tag.value.1;
      var v := ReadVarint(msg[p..]);
      if typ == 0 && v.Some? then Some((RawVarint(number, v.value.0), p + v.value.1))
      else if typ == 2 && v.Some? && p + v.value.1 + v.value.0 <= |msg| then
        var q := p + v.value.1;
        Some((RawBytes(number, msg[q..q + v.value.0]), q + v.value.0))
      else if typ == 1 && p + 8 <= |msg| then Some((RawFixed(number, 8), p + 8))
      else if typ == 5 && p + 4 <= |msg| then Some((RawFixed(number, 4), p + 4))
      else None
  }

  /** The fields of any bytes, up to the first that is malformed. */
  function Parsed(msg: Bytes, off: nat): seq<Raw>
    requires off <= |msg|
    decreases |msg| - off
  {
    var r := RawAt(msg, off);
    if r.None? then [] else [r.value.0] + Parsed(msg, r.value.1)
  }

  /** The value of the first field that answers to the number. */
  function FirstData(ws: seq<Raw>, number: nat): Option<Bytes> {
    if ws == [] then None else if ws[0].RawBytes? && ws[0].number == number then Some(ws[0].data) else FirstData(ws[1..], number)
  }

  function FirstValue(ws: seq<Raw>, number: nat): Option<nat> {
    if ws == [] then None else if ws[0].RawVarint? && ws[0].number == number then Some(ws[0].value) else FirstValue(ws[1..], number)
  }

  // One field of the walk, for both lookups.
  lemma {:induction false} OneField(msg: Bytes, off: nat, number: nat)
    requires off < |msg|
    ensures BytesAt(msg, off, number)
            == match RawAt(msg, off)
               case None => Stop
               case Some((w, next)) => if w.RawBytes? && w.number == number then Found(w.data) else Next(next)
    ensures VarintAt(msg, off, number)
            == match RawAt(msg, off)
               case None => Stop
               case Some((w, next)) => if w.RawVarint? && w.number == number then Found(w.value) else Next(next)
  {
  }

  /** Each lookup, in any bytes, finds the first field of its number and wire type before the first malformed one, and
      nothing if there is none. */
  lemma {:induction false} LookupsAnywhere(msg: Bytes, off: nat, number: nat)
    requires off <= |msg|
    ensures FindBytes(msg, off, number) == FirstData(Parsed(msg, off), number)
    ensures FindVarint(msg, off, number) == FirstValue(Parsed(msg, off), number)
    decreases |msg| - off
  {
    if off < |msg| {
      OneField(msg, off, number);
      var r := RawAt(msg, off);
      if r.Some? {
        LookupsAnywhere(msg, r.value.1, number);
        assert ([r.value.0] + Parsed(msg, r.value.1))[1..] == Parsed(msg, r.value.1);
      }
    }
  }

  // ---------------------------------------------------------------- signatures

  /** The container of a signature holds everything that was put into it. */
  lemma {:induction false} ContainerHolds(channel: Bytes, x: Secrets)
    requires |Encode(ContainerFields(channel, x.nonce, x.session, x.digest, x.meta))| < UINT64 / 2
    ensures var c := Encode(ContainerFields(channel, x.nonce, x.session, x.digest, x.meta));
            && FindBytes(c, 0, 1) == Some(channel) && FindBytes(c, 0, 2) == Some(x.nonce) && FindBytes(c, 0, 3) == Some(x.session)
            && FindBytes(c, 0, 4) == Some(x.digest) && FindBytes(c, 0, 5) == Some(x.meta)
  {
    var fs := ContainerFields(channel, x.nonce, x.session, x.digest, x.meta);
    FieldLengths(fs);
    assert fs[0].data == channel && fs[1].data == x.nonce && fs[2].data == x.session && fs[3].data == x.digest && fs[4].data == x.meta;
    FirstOfFive(channel, x);
    LookupsExact(fs, 1);
    LookupsExact(fs, 2);
    LookupsExact(fs, 3);
    LookupsExact(fs, 4);
    LookupsExact(fs, 5);
  }

  lemma FirstOfFive(channel: Bytes, x: Secrets)
    ensures var fs := ContainerFields(channel, x.nonce, x.session, x.digest, x.meta);
            && FirstBytes(fs, 1) == Some(channel) && FirstBytes(fs, 2) == Some(x.nonce) && FirstBytes(fs, 3) == Some(x.session)
            && FirstBytes(fs, 4) == Some(x.digest) && FirstBytes(fs, 5) == Some(x.meta)
  {
    var e := [BytesField(5, x.meta)];
    var d := [BytesField(4, x.digest)] + e;
    var c := [BytesField(3, x.session)] + d;
    var b := [BytesField(2, x.nonce)] + c;
    assert ContainerFields(channel, x.nonce, x.session, x.digest, x.meta) == [BytesField(1, channel)] + b;
    assert e == e + [];
    forall n: nat
      ensures FirstBytes(e, n) == if n == 5 then Some(x.meta) else None
      ensures FirstBytes(d, n) == if n == 4 then Some(x.digest) else FirstBytes(e, n)
      ensures FirstBytes(c, n) == if n == 3 then Some(x.session) else FirstBytes(d, n)
      ensures FirstBytes(b, n) == if n == 2 then Some(x.nonce) else FirstBytes(c, n)
      ensures FirstBytes([BytesField(1, channel)] + b, n) == if n == 1 then Some(channel) else FirstBytes(b, n)
    {
      FirstOf(BytesField(5, x.meta), [], n);
      FirstOf(BytesField(4, x.digest), e, n);
      FirstOf(BytesField(3, x.session), d, n);
      FirstOf(BytesField(2, x.nonce), c, n);
      FirstOf(BytesField(1, channel), b, n);
    }
  }

  // The fields of the channel, by number.
  lemma FirstsOfChannel(model: Bytes, contextId: Bytes, ecdsa: Bytes)
    ensures var fs := ChannelFields(model, contextId, ecdsa);
            && FirstVarint(fs, 1) == Some(16) && FirstVarint(fs, 3) == Some(2) && FirstVarint(fs, 7) == Some(1)
            && FirstBytes(fs, 5) == Some(ecdsa)
  {
    var last := [BytesField(8, THINKING), BytesField(11, contextId)];
    var seven := [VarintField(7, 1)] + last;
    var gs := (if model != [] then [BytesField(6, model)] else []) + seven;
    var two := [BytesField(5, ecdsa)] + gs;
    var one := [VarintField(3, 2)] + two;
    assert ChannelFields(model, contextId, ecdsa) == [VarintField(1, 16)] + one;
    FirstOf(VarintField(1, 16), one, 1);
    FirstOf(VarintField(1, 16), one, 3);
    FirstOf(VarintField(1, 16), one, 7);
    FirstOf(VarintField(1, 16), one, 5);
    FirstOf(VarintField(3, 2), two, 3);
    FirstOf(VarintField(3, 2), two, 7);
    FirstOf(VarintField(3, 2), two, 5);
    FirstOf(BytesField(5, ecdsa), gs, 5);
    FirstOf(BytesField(5, ecdsa), gs, 7);
    FirstOf(BytesField(6, model), seven, 7);
    assert [] + seven == seven;
    FirstOf(VarintField(7, 1), last, 7);
  }

  /** And so does its channel: id 16, version 2, the ecdsa signature, the model if there is one, block kind 1 by
      the name of "thinking", and the context id. */
  lemma {:induction false} ChannelHolds(model: Bytes, contextId: Bytes, ecdsa: Bytes)
    requires |Encode(ChannelFields(model, contextId, ecdsa))| < UINT64 / 2
    ensures var c := Encode(ChannelFields(model, contextId, ecdsa));
            && FindVarint(c, 0, 1) == Some(16) && FindVarint(c, 0, 3) == Some(2) && FindBytes(c, 0, 5) == Some(ecdsa)
            && FindBytes(c, 0, 6) == (if model != [] then Some(model) else None) && FindVarint(c, 0, 7) == Some(1)
            && FindBytes(c, 0, 8) == Some(THINKING) && FindBytes(c, 0, 11) == Some(contextId)
  {
    var fs := ChannelFields(model, contextId, ecdsa);
    FieldLengths(fs);
    FirstsOfChannel(model, contextId, ecdsa);
    ChannelFirsts(model, contextId, ecdsa, 6);
    ChannelFirsts(model, contextId, ecdsa, 8);
    ChannelFirsts(model, contextId, ecdsa, 11);
    LookupsExact(fs, 1);
    LookupsExact(fs, 3);
    LookupsExact(fs, 5);
    LookupsExact(fs, 6);
    LookupsExact(fs, 7);
    LookupsExact(fs, 8);
    LookupsExact(fs, 11);
  }

  // The container is read back out of the body.
  lemma {:induction false} BodyHolds(container: Bytes)
    requires |Encode([BytesField(2, container), VarintField(3, 1)])| < UINT64 / 2
    ensures |container| < UINT64 / 2
    ensures var b := Encode([BytesField(2, container), VarintField(3, 1)]);
            FindBytes(b, 0, 2) == Some(container) && FindVarint(b, 0, 3) == Some(1)
  {
    var fs := [BytesField(2, container), VarintField(3, 1)];
    FieldLengths(fs);
    assert fs[0].data == container;
    LookupsExact(fs, 2);
    LookupsExact(fs, 3);
    FirstOf(BytesField(2, container), [VarintField(3, 1)], 3);
    FirstOf(BytesField(2, container), [VarintField(3, 1)], 2);
    FirstOf(VarintField(3, 1), [], 3);
    assert fs == [BytesField(2, container)] + [VarintField(3, 1)] && [VarintField(3, 1)] == [VarintField(3, 1)] + [];
  }

  /** Nothing that goes into a signature is lost: two signatures are the same only if the model, the context id and
      everything random are. */
  lemma {:induction false} BodyInjective(model: Bytes, contextId: Bytes, x: Secrets, model': Bytes, contextId': Bytes, x': Secrets)
    requires Body(model, contextId, x) == Body(model', contextId', x') && |Body(model, contextId, x)| < UINT64 / 2
    ensures model == model' && contextId == contextId' && x == x'
  {
    var channel, channel' := Encode(ChannelFields(model, contextId, x.ecdsa)), Encode(ChannelFields(model', contextId', x'.ecdsa));
    BodyHolds(Encode(ContainerFields(channel, x.nonce, x.session, x.digest, x.meta)));
    BodyHolds(Encode(ContainerFields(channel', x'.nonce, x'.session, x'.digest, x'.meta)));
    ContainerHolds(channel, x);
    ContainerHolds(channel', x');
    ContainerRead(channel, x);
    ChannelHolds(model, contextId, x.ecdsa);
    ChannelHolds(model', contextId', x'.ecdsa);
  }
}
