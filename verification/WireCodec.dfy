/** The data path's wire format: a fixed little-endian header with length prefixes,
    followed by the K and V payloads. */
module WireCodec {
  import opened Blocks
  import opened Numbers

  const SCHEMA_VERSION: nat := 1
  const MAGIC: nat := 0x424B564D
  const HEADER_BYTES: nat := 52
  const TWO_64: nat := 0x1_0000_0000_0000_0000

  // ------------------------------------------------ little-endian integers

  function Pow256(n: nat): (p: nat)
    ensures p > 0
  {
    if n == 0 then 1 else 256 * Pow256(n - 1)
  }

  ghost function ToLE(value: nat, width: nat): (bytes: seq<Byte>)
    ensures |bytes| == width
  {
    if width == 0 then [] else [value % 256] + ToLE(value / 256, width - 1)
  }

  ghost function FromLE(bytes: seq<Byte>): nat {
    if bytes == [] then 0 else bytes[0] + 256 * FromLE(bytes[1..])
  }

  lemma {:induction false} FromToLE(value: nat, width: nat)
    requires value < Pow256(width)
    ensures FromLE(ToLE(value, width)) == value
  {
    if width > 0 {
      FromToLE(value / 256, width - 1);
      assert ToLE(value, width)[1..] == ToLE(value / 256, width - 1);
    }
  }

  lemma {:induction false} ToFromLE(bytes: seq<Byte>)
    ensures FromLE(bytes) < Pow256(|bytes|) && ToLE(FromLE(bytes), |bytes|) == bytes
  {
    if bytes != [] {
      ToFromLE(bytes[1..]);
      assert FromLE(bytes) % 256 == bytes[0] && FromLE(bytes) / 256 == FromLE(bytes[1..]);
      assert bytes == [bytes[0]] + bytes[1..];
    }
  }

  // ------------------------------------------------ records of fields

  ghost function Width(widths: seq<nat>): nat {
    if widths == [] then 0 else widths[0] + Width(widths[1..])
  }

  ghost predicate Fits(widths: seq<nat>, values: seq<nat>) {
    |values| == |widths| && forall i :: 0 <= i < |widths| ==> values[i] < Pow256(widths[i])
  }

  ghost function Pack(widths: seq<nat>, values: seq<nat>): (bytes: seq<Byte>)
    requires |widths| == |values|
    ensures |bytes| == Width(widths)
  {
    if widths == [] then [] else ToLE(values[0], widths[0]) + Pack(widths[1..], values[1..])
  }

  ghost function Unpack(widths: seq<nat>, bytes: seq<Byte>): (values: seq<nat>)
    requires |bytes| == Width(widths)
    ensures |values| == |widths|
  {
    if widths == [] then []
    else [FromLE(bytes[..widths[0]])] + Unpack(widths[1..], bytes[widths[0]..])
  }

  lemma FitsCons(widths: seq<nat>, value: nat, rest: seq<nat>)
    requires widths != [] && value < Pow256(widths[0]) && Fits(widths[1..], rest)
    ensures Fits(widths, [value] + rest)
  {
    var values := [value] + rest;
    forall i | 0 <= i < |widths| ensures values[i] < Pow256(widths[i]) {
      if i > 0 {
        assert values[i] == rest[i - 1] && widths[i] == widths[1..][i - 1];
      }
    }
  }

  lemma PackCons(widths: seq<nat>, value: nat, rest: seq<nat>)
    requires widths != [] && |rest| == |widths| - 1
    ensures Pack(widths, [value] + rest) == ToLE(value, widths[0]) + Pack(widths[1..], rest)
  {
    assert ([value] + rest)[1..] == rest;
  }

  lemma UnpackCons(widths: seq<nat>, head: seq<Byte>, tail: seq<Byte>)
    requires widths != [] && |head| == widths[0] && |tail| == Width(widths[1..])
    ensures Unpack(widths, head + tail) == [FromLE(head)] + Unpack(widths[1..], tail)
  {
    assert (head + tail)[..widths[0]] == head && (head + tail)[widths[0]..] == tail;
  }

  lemma {:induction false} UnpackPack(widths: seq<nat>, values: seq<nat>)
    requires Fits(widths, values)
    ensures Unpack(widths, Pack(widths, values)) == values
  {
    if widths != [] {
      assert values == [values[0]] + values[1..];
      PackCons(widths, values[0], values[1..]);
      UnpackCons(widths, ToLE(values[0], widths[0]), Pack(widths[1..], values[1..]));
      FromToLE(values[0], widths[0]);
      UnpackPack(widths[1..], values[1..]);
    }
  }

  lemma {:induction false} PackUnpack(widths: seq<nat>, bytes: seq<Byte>)
    requires |bytes| == Width(widths)
    ensures Fits(widths, Unpack(widths, bytes)) && Pack(widths, Unpack(widths, bytes)) == bytes
  {
    if widths != [] {
      var head, tail := bytes[..widths[0]], bytes[widths[0]..];
      assert bytes == head + tail;
      ToFromLE(head);
      PackUnpack(widths[1..], tail);
      UnpackCons(widths, head, tail);
      FitsCons(widths, FromLE(head), Unpack(widths[1..], tail));
      PackCons(widths, FromLE(head), Unpack(widths[1..], tail));
    }
  }

  /** A packed record can be told apart from whatever follows it. */
  lemma PackedPrefix(widths: seq<nat>, values: seq<nat>, payload: seq<Byte>)
    requires Fits(widths, values)
    ensures var bytes, n := Pack(widths, values) + payload, Width(widths);
            |bytes| >= n && Unpack(widths, bytes[..n]) == values && bytes[n..] == payload
  {
    var bytes, n := Pack(widths, values) + payload, Width(widths);
    assert bytes[..n] == Pack(widths, values);
    UnpackPack(widths, values);
  }

  /** Any string long enough is its record, packed again, and the rest. */
  lemma RepackPrefix(widths: seq<nat>, bytes: seq<Byte>, n: nat)
    requires n == Width(widths) && n <= |bytes|
    ensures var values := Unpack(widths, bytes[..n]);
            Fits(widths, values) && Pack(widths, values) + bytes[n..] == bytes
  {
    PackUnpack(widths, bytes[..n]);
    assert bytes == bytes[..n] + bytes[n..];
  }

  // ------------------------------------------------ the block header

  /** Total length, magic, version, dtype, hash, layer, tokens, heads, head dim, K length, V length. */
  const WIDTHS: seq<nat> := [8, 4, 2, 2, 8, 4, 4, 2, 2, 8, 8]

  lemma WidthCons(w: nat, rest: seq<nat>, all: seq<nat>)
    requires all == [w] + rest
    ensures Width(all) == w + Width(rest)
  {
    assert all[1..] == rest;
  }

  lemma TailWidth()
    ensures Width([4, 4, 2, 2, 8, 8]) == 28
  {
    WidthCons(8, [], [8]);
    WidthCons(8, [8], [8, 8]);
    WidthCons(2, [8, 8], [2, 8, 8]);
    WidthCons(2, [2, 8, 8], [2, 2, 8, 8]);
    WidthCons(4, [2, 2, 8, 8], [4, 2, 2, 8, 8]);
    WidthCons(4, [4, 2, 2, 8, 8], [4, 4, 2, 2, 8, 8]);
  }

  lemma FrontWidth()
    ensures Width([8, 4, 2, 2, 8]) == 24
  {
    WidthCons(8, [], [8]);
    WidthCons(2, [8], [2, 8]);
    WidthCons(2, [2, 8], [2, 2, 8]);
    WidthCons(4, [2, 2, 8], [4, 2, 2, 8]);
    WidthCons(8, [4, 2, 2, 8], [8, 4, 2, 2, 8]);
  }

  lemma {:induction false} WidthPlus(a: seq<nat>, b: seq<nat>)
    ensures Width(a + b) == Width(a) + Width(b)
  {
    if a == [] {
      assert a + b == b;
    } else {
      WidthPlus(a[1..], b);
      assert (a + b)[1..] == a[1..] + b;
    }
  }

  lemma HeaderWidth()
    ensures Width(WIDTHS) == HEADER_BYTES && |WIDTHS| == 11
  {
    FrontWidth();
    TailWidth();
    WidthPlus([8, 4, 2, 2, 8], [4, 4, 2, 2, 8, 8]);
    assert WIDTHS == [8, 4, 2, 2, 8] + [4, 4, 2, 2, 8, 8];
  }

  /** The field values of a block's header. */
  function HeaderOf(block: KVCacheBlock): (values: seq<nat>)
    ensures |values| == 11
  {
    [HEADER_BYTES + |block.kPayload| + |block.vPayload|, MAGIC, block.key.version, block.dtype,
     block.key.hashId, block.key.layer, block.numTokens, block.numHeads, block.headDim,
     |block.kPayload|, |block.vPayload|]
  }

  /** Every field of the block is in the range of its type, and so is its encoded length. */
  ghost predicate Representable(block: KVCacheBlock) {
    Fits(WIDTHS, HeaderOf(block))
  }

  ghost function Encode(block: KVCacheBlock): seq<Byte> {
    Pack(WIDTHS, HeaderOf(block)) + block.kPayload + block.vPayload
  }

  /** `Undefined` stands for payload ranges beyond the end of the input. */
  datatype Decoded = Accepted(block: KVCacheBlock) | Rejected | Undefined

  ghost function BlockOf(values: seq<nat>, payload: seq<Byte>): KVCacheBlock
    requires |values| == 11 && values[9] + values[10] == |payload|
  {
    KVCacheBlock(BlockKey(values[4], values[5], values[2]), values[6], values[7], values[8], values[3],
                 payload[..values[9]], payload[values[9]..])
  }

  /** The decision on a header's values, given the length of the whole string. */
  ghost function DecodeWith(values: seq<nat>, payload: seq<Byte>): Decoded
    requires |values| == 11
  {
    var size := HEADER_BYTES + |payload|;
    if values[0] != size || values[1] != MAGIC || values[2] != SCHEMA_VERSION then Rejected
    else if (HEADER_BYTES + values[9] + values[10]) % TWO_64 != size then Rejected
    else if HEADER_BYTES + values[9] + values[10] != size then Undefined
    else Accepted(BlockOf(values, payload))
  }

  ghost function HeaderIn(bytes: seq<Byte>): (values: seq<nat>)
    requires |bytes| >= HEADER_BYTES
    ensures |values| == 11
  {
    HeaderWidth();
    Unpack(WIDTHS, bytes[..HEADER_BYTES])
  }

  ghost function Decode(bytes: seq<Byte>): Decoded {
    if |bytes| < HEADER_BYTES then Rejected
    else DecodeWith(HeaderIn(bytes), bytes[HEADER_BYTES..])
  }

  lemma Pow256Of8()
    ensures Pow256(8) == TWO_64
  {
    assert Pow256(4) == 256 * 256 * 256 * 256;
    assert Pow256(8) == 256 * 256 * 256 * 256 * Pow256(4);
  }

  lemma EncodeParts(block: KVCacheBlock)
    requires Representable(block)
    ensures |Encode(block)| >= HEADER_BYTES && HeaderIn(Encode(block)) == HeaderOf(block)
    ensures Encode(block)[HEADER_BYTES..] == block.kPayload + block.vPayload
  {
    HeaderWidth();
    PackedPrefix(WIDTHS, HeaderOf(block), block.kPayload + block.vPayload);
    var header := Pack(WIDTHS, HeaderOf(block));
    assert header + block.kPayload + block.vPayload == header + (block.kPayload + block.vPayload);
  }

  lemma DecodeHeader(block: KVCacheBlock)
    requires block.key.version == SCHEMA_VERSION && HeaderOf(block)[0] < TWO_64
    ensures DecodeWith(HeaderOf(block), block.kPayload + block.vPayload) == Accepted(block)
  {
    var payload := block.kPayload + block.vPayload;
    assert payload[..|block.kPayload|] == block.kPayload && payload[|block.kPayload|..] == block.vPayload;
  }

  /** Every block of the current schema version survives the round trip. */
  lemma DecodeEncode(block: KVCacheBlock)
    requires Representable(block) && block.key.version == SCHEMA_VERSION
    ensures Decode(Encode(block)) == Accepted(block)
  {
    EncodeParts(block);
    Pow256Of8();
    assert HeaderOf(block)[0] < Pow256(WIDTHS[0]);
    DecodeHeader(block);
  }

  lemma HeaderOfDecoded(values: seq<nat>, payload: seq<Byte>)
    requires |values| == 11 && DecodeWith(values, payload).Accepted?
    ensures var block := DecodeWith(values, payload).block;
            HeaderOf(block) == values && block.key.version == SCHEMA_VERSION &&
            block.kPayload + block.vPayload == payload
  {
  }

  lemma EncodeFrom(bytes: seq<Byte>, block: KVCacheBlock)
    requires |bytes| >= HEADER_BYTES && HeaderOf(block) == HeaderIn(bytes)
    requires block.kPayload + block.vPayload == bytes[HEADER_BYTES..]
    ensures Representable(block) && Encode(block) == bytes
  {
    HeaderWidth();
    RepackPrefix(WIDTHS, bytes, HEADER_BYTES);
    var header := Pack(WIDTHS, HeaderOf(block));
    assert header + block.kPayload + block.vPayload == header + (block.kPayload + block.vPayload);
  }

  /** Any byte string that is accepted is the encoding of the block it yields. */
  lemma EncodeDecode(bytes: seq<Byte>)
    requires Decode(bytes).Accepted?
    ensures var block := Decode(bytes).block;
            Representable(block) && block.key.version == SCHEMA_VERSION && Encode(block) == bytes
  {
    HeaderOfDecoded(HeaderIn(bytes), bytes[HEADER_BYTES..]);
    EncodeFrom(bytes, Decode(bytes).block);
  }

  /** The codec is a bijection between blocks of the current version and accepted strings. */
  lemma CodecBijection(bytes: seq<Byte>, block: KVCacheBlock)
    ensures Decode(bytes) == Accepted(block) <==>
            Representable(block) && block.key.version == SCHEMA_VERSION && bytes == Encode(block)
  {
    if Decode(bytes).Accepted? {
      EncodeDecode(bytes);
    }
    if Representable(block) && block.key.version == SCHEMA_VERSION {
      DecodeEncode(block);
    }
  }

  /** Encodings are unique, whatever the schema version. */
  lemma EncodeInjective(a: KVCacheBlock, b: KVCacheBlock)
    requires Representable(a) && Representable(b) && Encode(a) == Encode(b)
    ensures a == b
  {
    EncodeParts(a);
    EncodeParts(b);
    var va, vb := HeaderOf(a), HeaderOf(b);
    assert va[2] == vb[2] && va[3] == vb[3] && va[4] == vb[4] && va[5] == vb[5] && va[6] == vb[6];
    assert va[7] == vb[7] && va[8] == vb[8] && va[9] == vb[9];
    var payload := a.kPayload + a.vPayload;
    assert payload[..va[9]] == a.kPayload && payload[va[9]..] == a.vPayload;
    assert payload[..vb[9]] == b.kPayload && payload[vb[9]..] == b.vPayload;
  }

  /** A block of another schema version is refused. */
  lemma OtherVersionRejected(block: KVCacheBlock)
    requires Representable(block) && block.key.version != SCHEMA_VERSION
    ensures Decode(Encode(block)) == Rejected
  {
    EncodeParts(block);
    assert HeaderOf(block)[2] != SCHEMA_VERSION;
  }

  /** The decoder leaves its input only when the sum of the lengths wraps around: every string
      whose length sum does not wrap is accepted or rejected. */
  lemma DecodeDefined(bytes: seq<Byte>)
    requires |bytes| < TWO_64
    ensures Decode(bytes) == Undefined <==>
            |bytes| >= HEADER_BYTES &&
            var h := HeaderIn(bytes);
            h[0] == |bytes| && h[1] == MAGIC && h[2] == SCHEMA_VERSION &&
            HEADER_BYTES + h[9] + h[10] >= TWO_64 && (HEADER_BYTES + h[9] + h[10]) % TWO_64 == |bytes|
  {
    if |bytes| >= HEADER_BYTES {
      var sum := HEADER_BYTES + HeaderIn(bytes)[9] + HeaderIn(bytes)[10];
      assert sum < TWO_64 ==> sum % TWO_64 == sum;
    }
  }

  // ------------------------------------------------ the layout

  /** The bytes from `offset` on are the digits of `value`, least significant first. */
  ghost predicate FieldAt(bytes: seq<Byte>, offset: nat, width: nat, value: nat) {
    offset + width <= |bytes| && forall i :: 0 <= i < width ==> bytes[offset + i] == value / Pow256(i) % 256
  }

  lemma {:induction false} ToLEDigits(value: nat, width: nat, i: nat)
    requires i < width
    ensures ToLE(value, width)[i] == value / Pow256(i) % 256
  {
    if i > 0 {
      ToLEDigits(value / 256, width - 1, i - 1);
      DivTwice(value, Pow256(i - 1));
    }
  }

  lemma DivTwice(value: nat, p: nat)
    requires p > 0
    ensures value / 256 / p == value / (256 * p)
  {
    var q, rest := value / 256 / p, value / 256 % p;
    assert value == 256 * (q * p + rest) + value % 256;
    assert 256 * (q * p) == q * (256 * p);
    assert value == q * (256 * p) + (256 * rest + value % 256);
    assert 256 * rest + value % 256 < 256 * p;
    OneQuotient(value, 256 * p, q, 256 * rest + value % 256);
  }

  /** Field `i` of a record starts where the fields before it end. */
  lemma {:induction false} PackedField(widths: seq<nat>, values: seq<nat>, rest: seq<Byte>, i: nat)
    requires i < |widths| == |values|
    ensures FieldAt(Pack(widths, values) + rest, Width(widths[..i]), widths[i], values[i])
    decreases |widths|
  {
    var bytes, w := Pack(widths, values) + rest, widths[0];
    assert bytes == ToLE(values[0], w) + (Pack(widths[1..], values[1..]) + rest);
    if i == 0 {
      forall j | 0 <= j < w ensures bytes[j] == values[0] / Pow256(j) % 256 {
        ToLEDigits(values[0], w, j);
      }
      assert widths[..0] == [];
    } else {
      PackedField(widths[1..], values[1..], rest, i - 1);
      assert widths[..i][1..] == widths[1..][..i - 1];
      var tail, offset := Pack(widths[1..], values[1..]) + rest, Width(widths[1..][..i - 1]);
      forall j | 0 <= j < widths[i] ensures bytes[w + offset + j] == values[i] / Pow256(j) % 256 {
        assert bytes[w + offset + j] == tail[offset + j];
      }
    }
  }

  lemma Offsets()
    ensures Width(WIDTHS[..0]) == 0 && Width(WIDTHS[..1]) == 8 && Width(WIDTHS[..2]) == 12 && Width(WIDTHS[..3]) == 14
    ensures Width(WIDTHS[..4]) == 16 && Width(WIDTHS[..5]) == 24 && Width(WIDTHS[..6]) == 28 && Width(WIDTHS[..7]) == 32
    ensures Width(WIDTHS[..8]) == 34 && Width(WIDTHS[..9]) == 36 && Width(WIDTHS[..10]) == 44
  {
    NextOffset(0);
    NextOffset(1);
    NextOffset(2);
    NextOffset(3);
    NextOffset(4);
    NextOffset(5);
    NextOffset(6);
    NextOffset(7);
    NextOffset(8);
    NextOffset(9);
    assert WIDTHS[..0] == [];
  }

  lemma NextOffset(i: nat)
    requires i < |WIDTHS|
    ensures Width(WIDTHS[..i + 1]) == Width(WIDTHS[..i]) + WIDTHS[i]
  {
    WidthPlus(WIDTHS[..i], [WIDTHS[i]]);
    assert WIDTHS[..i + 1] == WIDTHS[..i] + [WIDTHS[i]];
    assert Width([WIDTHS[i]]) == WIDTHS[i] + Width([WIDTHS[i]][1..]);
  }

  /** The wire layout: where every field of a block is, digit by digit. */
  lemma EncodeLayout(block: KVCacheBlock)
    ensures var bytes := Encode(block);
            FieldAt(bytes, 0, 8, |bytes|) && FieldAt(bytes, 8, 4, 0x424B564D) &&
            FieldAt(bytes, 12, 2, block.key.version) && FieldAt(bytes, 14, 2, block.dtype) &&
            FieldAt(bytes, 16, 8, block.key.hashId) && FieldAt(bytes, 24, 4, block.key.layer) &&
            FieldAt(bytes, 28, 4, block.numTokens) && FieldAt(bytes, 32, 2, block.numHeads) &&
            FieldAt(bytes, 34, 2, block.headDim) && FieldAt(bytes, 36, 8, |block.kPayload|) &&
            FieldAt(bytes, 44, 8, |block.vPayload|) && bytes[52..] == block.kPayload + block.vPayload
  {
    HeaderWidth();
    Offsets();
    var header, payload := HeaderOf(block), block.kPayload + block.vPayload;
    assert Encode(block) == Pack(WIDTHS, header) + payload;
    forall i | 0 <= i < 11 ensures FieldAt(Encode(block), Width(WIDTHS[..i]), WIDTHS[i], header[i]) {
      PackedField(WIDTHS, header, payload, i);
    }
  }

  /** A header alone, whose payload lengths add up to a whole turn of the 64-bit sum. */
  const WRAPPING: seq<nat> := [HEADER_BYTES, MAGIC, SCHEMA_VERSION, 0, 0, 0, 0, 0, 0, TWO_64 - 1, 1]

  lemma Pow256Least(n: nat)
    ensures n >= 2 ==> Pow256(n) > 0xFFFF
    ensures n >= 4 ==> Pow256(n) > 0xFFFF_FFFF
  {
    if n >= 4 {
      assert Pow256(n) == 256 * 256 * 256 * 256 * Pow256(n - 4);
    } else if n >= 2 {
      assert Pow256(n) == 256 * 256 * Pow256(n - 2);
    }
  }

  lemma WrappingFits()
    ensures Fits(WIDTHS, WRAPPING)
  {
    Pow256Of8();
    Pow256Least(4);
    Pow256Least(2);
  }

  /** Its values pass every check, although the string ends with the header. */
  lemma WrappingEscapes(values: seq<nat>)
    requires values == WRAPPING
    ensures DecodeWith(values, []) == Undefined
  {
  }

  /** The decoder can be driven beyond its input. */
  lemma DecodeMayEscape()
    ensures Decode(Pack(WIDTHS, WRAPPING)) == Undefined
  {
    HeaderWidth();
    WrappingFits();
    PackedPrefix(WIDTHS, WRAPPING, []);
    var bytes := Pack(WIDTHS, WRAPPING);
    assert bytes + [] == bytes && |bytes| == HEADER_BYTES;
    WrappingEscapes(HeaderIn(bytes));
  }

  // ------------------------------------------------ the operations

  /** Append an integer, least significant byte first. */
  method AppendLE(out: seq<Byte>, value: nat, width: nat) returns (r: seq<Byte>)
    ensures r == out + ToLE(value, width)
  {
    r := out;
    var rest := value;
    for i := 0 to width
      invariant r + ToLE(rest, width - i) == out + ToLE(value, width)
    {
      ghost var tail := ToLE(rest / 256, width - i - 1);
      assert r + ([rest % 256] + tail) == (r + [rest % 256]) + tail;
      r, rest := r + [rest % 256], rest / 256;
    }
  }

  /** Read an integer of the given width at an offset. */
  method ReadLE(bytes: seq<Byte>, offset: nat, width: nat) returns (value: nat)
    requires offset + width <= |bytes|
    ensures value == FromLE(bytes[offset..offset + width])
  {
    value := 0;
    var i := width;
    while i > 0
      invariant 0 <= i <= width
      invariant value == FromLE(bytes[offset + i..offset + width])
    {
      i := i - 1;
      assert bytes[offset + i..offset + width][1..] == bytes[offset + i + 1..offset + width];
      value := bytes[offset + i] + 256 * value;
    }
  }

  method AppendFields(widths: seq<nat>, values: seq<nat>) returns (bytes: seq<Byte>)
    requires |widths| == |values|
    ensures bytes == Pack(widths, values)
  {
    bytes := [];
    for i := 0 to |widths|
      invariant bytes + Pack(widths[i..], values[i..]) == Pack(widths, values)
    {
      ghost var tail := Pack(widths[i + 1..], values[i + 1..]);
      assert widths[i..][1..] == widths[i + 1..] && values[i..][1..] == values[i + 1..];
      assert bytes + (ToLE(values[i], widths[i]) + tail) == (bytes + ToLE(values[i], widths[i])) + tail;
      bytes := AppendLE(bytes, values[i], widths[i]);
    }
  }

  /** One more field read from a string that starts at the next field. */
  lemma UnpackNext(widths: seq<nat>, bytes: seq<Byte>, i: nat, off: nat)
    requires i < |widths| && off <= |bytes| && |bytes| - off == Width(widths[i..])
    ensures off + widths[i] <= |bytes| && |bytes| - off - widths[i] == Width(widths[i + 1..])
    ensures Unpack(widths[i..], bytes[off..]) ==
            [FromLE(bytes[off..off + widths[i]])] + Unpack(widths[i + 1..], bytes[off + widths[i]..])
  {
    assert widths[i..][1..] == widths[i + 1..];
    assert Width(widths[i..]) == widths[i] + Width(widths[i + 1..]);
    assert bytes[off..] == bytes[off..off + widths[i]] + bytes[off + widths[i]..];
    UnpackCons(widths[i..], bytes[off..off + widths[i]], bytes[off + widths[i]..]);
  }

  method ReadFields(widths: seq<nat>, bytes: seq<Byte>) returns (values: seq<nat>)
    requires |bytes| == Width(widths)
    ensures values == Unpack(widths, bytes)
  {
    values := [];
    var off: nat := 0;
    assert widths[0..] == widths && bytes[0..] == bytes;
    for i := 0 to |widths|
      invariant off <= |bytes| && |bytes| - off == Width(widths[i..])
      invariant values + Unpack(widths[i..], bytes[off..]) == Unpack(widths, bytes)
    {
      UnpackNext(widths, bytes, i, off);
      ghost var tail := Unpack(widths[i + 1..], bytes[off + widths[i]..]);
      var value := ReadLE(bytes, off, widths[i]);
      assert values + ([value] + tail) == (values + [value]) + tail;
      values, off := values + [value], off + widths[i];
    }
  }

  method Serialize(block: KVCacheBlock) returns (bytes: seq<Byte>)
    ensures bytes == Encode(block)
  {
    bytes := AppendFields(WIDTHS, HeaderOf(block));
    bytes := bytes + block.kPayload + block.vPayload;
  }

  /** Check the header's values and take the payload apart. */
  method Check(values: seq<nat>, bytes: seq<Byte>) returns (r: Decoded)
    requires |values| == 11 && |bytes| >= HEADER_BYTES
    ensures r == DecodeWith(values, bytes[HEADER_BYTES..])
  {
    var total, magic, version, kLength, vLength := values[0], values[1], values[2], values[9], values[10];
    if total != |bytes| || magic != MAGIC || version != SCHEMA_VERSION {
      return Rejected;
    }
    if (HEADER_BYTES + kLength + vLength) % TWO_64 != |bytes| {
      return Rejected;
    }
    if HEADER_BYTES + kLength + vLength != |bytes| {
      return Undefined;
    }
    var split := HEADER_BYTES + kLength;
    assert bytes[HEADER_BYTES..][..kLength] == bytes[HEADER_BYTES..split];
    assert bytes[HEADER_BYTES..][kLength..] == bytes[split..];
    var key := BlockKey(values[4], values[5], version);
    r := Accepted(KVCacheBlock(key, values[6], values[7], values[8], values[3], bytes[HEADER_BYTES..split],
                               bytes[split..]));
  }

  method Deserialize(bytes: seq<Byte>) returns (r: Decoded)
    ensures r == Decode(bytes)
  {
    if |bytes| < HEADER_BYTES {
      return Rejected;
    }
    HeaderWidth();
    var values := ReadFields(WIDTHS, bytes[..HEADER_BYTES]);
    r := Check(values, bytes);
  }
}
