/** The Protocol Buffers wire format: base-128 varints and tagged records
    (sections "Base 128 Varints" and "Length-Delimited Records" of the Protocol
    Buffers encoding specification). */
module Wire {
  import opened Wrappers

  newtype byte = x: int | 0 <= x < 256
  type bytes = seq<byte>

  const TWO_TO_THE_31: int := 0x8000_0000
  const TWO_TO_THE_32: int := 0x1_0000_0000
  const TWO_TO_THE_64: int := 0x1_0000_0000_0000_0000

  // A serialized message is smaller than 2 GiB.
  const SIZE_LIMIT: int := TWO_TO_THE_31

  type uint64 = n: nat | n < TWO_TO_THE_64
  type int32 = n: int | -TWO_TO_THE_31 <= n < TWO_TO_THE_31

  // ---------------------------------------------------------------- varints

  function EncodeVarint(n: nat): (b: bytes)
    ensures 0 < |b|
  {
    if n < 128 then [n as byte] else [(n % 128 + 128) as byte] + EncodeVarint(n / 128)
  }

  /** Reads a varint of at most `limit` bytes; the result carries the unread input. */
  function ReadVarint(b: bytes, limit: nat): (r: Option<(nat, bytes)>)
    ensures r.Some? ==> |r.value.1| < |b|
    decreases limit
  {
    if limit == 0 || b == [] then
      None
    else if b[0] < 128 then
      Some((b[0] as nat, b[1..]))
    else
      var (high, rest) :- ReadVarint(b[1..], limit - 1);
      Some((b[0] as nat - 128 + 128 * high, rest))
  }

  ghost function VarintBound(limit: nat): nat {
    if limit == 0 then 1 else 128 * VarintBound(limit - 1)
  }

  lemma {:induction false} VarintRoundTrip(n: nat, limit: nat, rest: bytes)
    requires 0 < limit && n < VarintBound(limit)
    ensures ReadVarint(EncodeVarint(n) + rest, limit) == Some((n, rest))
    decreases limit
  {
    var b := EncodeVarint(n) + rest;
    if n < 128 {
      assert b[1..] == rest;
    } else {
      assert b[1..] == EncodeVarint(n / 128) + rest;
      assert limit > 1 by { assert VarintBound(1) == 128; }
      VarintRoundTrip(n / 128, limit - 1, rest);
    }
  }

  /** The value of base-128 digits, the lowest first. */
  function Digits(b: bytes): nat {
    if b == [] then 0 else b[0] as nat % 128 + 128 * Digits(b[1..])
  }

  /** A varint has seven bits of the number in each byte, the lowest first, and the
      high bit set in all bytes but the last. */
  lemma {:induction false} VarintIsBase128(n: nat)
    ensures Digits(EncodeVarint(n)) == n
    ensures forall i | 0 <= i < |EncodeVarint(n)| :: EncodeVarint(n)[i] < 128 <==> i == |EncodeVarint(n)| - 1
  {
    if n >= 128 {
      VarintIsBase128(n / 128);
      var b := EncodeVarint(n);
      assert b[1..] == EncodeVarint(n / 128);
    } else {
      assert Digits(EncodeVarint(n)[1..]) == 0;
    }
  }

  // ---------------------------------------------------------------- records

  /** The two kinds of record the modelled messages use. */
  datatype Field = VarintField(num: nat, value: uint64) | BytesField(num: nat, data: bytes)

  function SerializeField(f: Field): bytes {
    match f
    case VarintField(num, value) => EncodeVarint(8 * num) + EncodeVarint(value)
    case BytesField(num, data) => EncodeVarint(8 * num + 2) + EncodeVarint(|data|) + data
  }

  function SerializeFields(fs: seq<Field>): bytes {
    if fs == [] then [] else SerializeField(fs[0]) + SerializeFields(fs[1..])
  }

  /** Drops `n` bytes of a fixed-width record the modelled messages do not use. */
  function Skip(b: bytes, n: nat): Option<(Option<Field>, bytes)> {
    if |b| < n then None else Some((None, b[n..]))
  }

  /** Reads what follows a tag; other wire types than these are refused. */
  function ReadValue(num: nat, wireType: nat, body: bytes): (r: Option<(Option<Field>, bytes)>)
    ensures r.Some? ==> |r.value.1| <= |body|
  {
    if wireType == 0 then
      var (value, rest) :- ReadVarint(body, 10);
      Some((Some(VarintField(num, value % TWO_TO_THE_64)), rest))
    else if wireType == 2 then
      var (length, rest) :- ReadVarint(body, 10);
      if SIZE_LIMIT <= length || |rest| < length then
        None
      else
        Some((Some(BytesField(num, rest[..length])), rest[length..]))
    else if wireType == 1 then
      Skip(body, 8)
    else if wireType == 5 then
      Skip(body, 4)
    else
      None
  }

  function ReadField(b: bytes): (r: Option<(Option<Field>, bytes)>)
    ensures r.Some? ==> |r.value.1| < |b|
  {
    var (tag, body) :- ReadVarint(b, 5);
    if tag / 8 == 0 || TWO_TO_THE_32 <= tag then None else ReadValue(tag / 8, tag % 8, body)
  }

  function ParseFields(b: bytes): Option<seq<Field>>
    decreases |b|
  {
    if b == [] then
      Some([])
    else
      var (field, rest) :- ReadField(b);
      var fields :- ParseFields(rest);
      Some(if field.Some? then [field.value] + fields else fields)
  }

  /** The records of the modelled messages have small field numbers. */
  predicate Writable(f: Field) {
    0 < f.num < 16
  }

  lemma VarintBounds()
    ensures VarintBound(5) == 34359738368
    ensures VarintBound(10) == 1180591620717411303424
  {
  }

  lemma TagRoundTrip(num: nat, wireType: nat, body: bytes)
    requires 0 < num < 16 && wireType < 8
    ensures ReadField(EncodeVarint(8 * num + wireType) + body) == ReadValue(num, wireType, body)
  {
    VarintBounds();
    VarintRoundTrip(8 * num + wireType, 5, body);
    assert (8 * num + wireType) / 8 == num && (8 * num + wireType) % 8 == wireType;
  }

  lemma VarintFieldRoundTrip(num: nat, value: uint64, rest: bytes)
    requires 0 < num < 16
    ensures ReadField(SerializeField(VarintField(num, value)) + rest) == Some((Some(VarintField(num, value)), rest))
  {
    var tag, body := EncodeVarint(8 * num), EncodeVarint(value) + rest;
    assert tag + EncodeVarint(value) + rest == tag + body;
    TagRoundTrip(num, 0, body);
    VarintValueRoundTrip(num, value, rest);
  }

  lemma VarintValueRoundTrip(num: nat, value: uint64, rest: bytes)
    ensures ReadValue(num, 0, EncodeVarint(value) + rest) == Some((Some(VarintField(num, value)), rest))
  {
    LongVarintRoundTrip(value, rest);
    IsOwnResidue(value);
  }

  /** Ten bytes hold any 64-bit value. */
  lemma LongVarintRoundTrip(value: uint64, rest: bytes)
    ensures ReadVarint(EncodeVarint(value) + rest, 10) == Some((value, rest))
  {
    LongVarintFits(value);
    VarintRoundTrip(value, 10, rest);
  }

  lemma LongVarintFits(value: uint64)
    ensures value < VarintBound(10)
  {
    VarintBounds();
  }

  lemma IsOwnResidue(value: uint64)
    ensures value % TWO_TO_THE_64 == value
  {
  }

  lemma BytesFieldRoundTrip(num: nat, data: bytes, rest: bytes)
    requires 0 < num < 16 && |data| < SIZE_LIMIT
    ensures ReadField(SerializeField(BytesField(num, data)) + rest) == Some((Some(BytesField(num, data)), rest))
  {
    var tag, length, body := EncodeVarint(8 * num + 2), EncodeVarint(|data|), EncodeVarint(|data|) + (data + rest);
    assert tag + length + data + rest == tag + body;
    TagRoundTrip(num, 2, body);
    BytesValueRoundTrip(num, data, rest);
  }

  lemma BytesValueRoundTrip(num: nat, data: bytes, rest: bytes)
    requires |data| < SIZE_LIMIT
    ensures ReadValue(num, 2, EncodeVarint(|data|) + (data + rest)) == Some((Some(BytesField(num, data)), rest))
  {
    LongVarintRoundTrip(|data|, data + rest);
    assert (data + rest)[..|data|] == data && (data + rest)[|data|..] == rest;
  }

  /** Fixed-width records of eight and of four bytes are passed over; the remaining
      wire types are refused. */
  lemma OtherWireTypes(num: nat, wireType: nat, data: bytes, rest: bytes)
    requires 0 < num < 16 && wireType < 8
    ensures (wireType == 1 && |data| == 8) || (wireType == 5 && |data| == 4) ==>
              ReadField(EncodeVarint(8 * num + wireType) + (data + rest)) == Some((None, rest))
    ensures wireType in {3, 4, 6, 7} ==> ReadField(EncodeVarint(8 * num + wireType) + (data + rest)) == None
  {
    TagRoundTrip(num, wireType, data + rest);
    assert (data + rest)[|data|..] == rest;
  }

  /** Whatever is written can be read back, record for record. */
  lemma {:induction false} FieldsRoundTrip(fs: seq<Field>)
    requires forall f <- fs :: Writable(f)
    requires |SerializeFields(fs)| < SIZE_LIMIT
    ensures ParseFields(SerializeFields(fs)) == Some(fs)
  {
    if fs != [] {
      assert fs[0] in fs && fs == [fs[0]] + fs[1..];
      match fs[0] {
        case VarintField(num, value) => VarintFieldRoundTrip(num, value, SerializeFields(fs[1..]));
        case BytesField(num, data) => BytesFieldRoundTrip(num, data, SerializeFields(fs[1..]));
      }
      FieldsRoundTrip(fs[1..]);
    }
  }

  lemma {:induction false} ReadVarintExtends(b: bytes, more: bytes, limit: nat)
    requires ReadVarint(b, limit).Some?
    ensures ReadVarint(b + more, limit)
            == Some((ReadVarint(b, limit).value.0, ReadVarint(b, limit).value.1 + more))
    decreases limit
  {
    assert (b + more)[1..] == b[1..] + more;
    if b[0] >= 128 {
      ReadVarintExtends(b[1..], more, limit - 1);
    }
  }

  lemma ReadValueExtends(num: nat, wireType: nat, body: bytes, more: bytes)
    requires ReadValue(num, wireType, body).Some?
    ensures ReadValue(num, wireType, body + more)
            == Some((ReadValue(num, wireType, body).value.0, ReadValue(num, wireType, body).value.1 + more))
  {
    if wireType == 0 {
      ReadVarintExtends(body, more, 10);
    } else if wireType == 2 {
      ReadBytesExtends(num, body, more);
    } else {
      SkipExtends(body, more, if wireType == 1 then 8 else 4);
    }
  }

  lemma ReadBytesExtends(num: nat, body: bytes, more: bytes)
    requires ReadValue(num, 2, body).Some?
    ensures ReadValue(num, 2, body + more)
            == Some((ReadValue(num, 2, body).value.0, ReadValue(num, 2, body).value.1 + more))
  {
    ReadVarintExtends(body, more, 10);
    var (length, rest) := ReadVarint(body, 10).value;
    assert (rest + more)[..length] == rest[..length] && (rest + more)[length..] == rest[length..] + more;
  }

  lemma SkipExtends(body: bytes, more: bytes, n: nat)
    requires Skip(body, n).Some?
    ensures Skip(body + more, n) == Some((None, Skip(body, n).value.1 + more))
    ensures Skip(body, n).value.0 == None
  {
    assert (body + more)[n..] == body[n..] + more;
  }

  lemma ReadFieldExtends(b: bytes, more: bytes)
    requires ReadField(b).Some?
    ensures ReadField(b + more) == Some((ReadField(b).value.0, ReadField(b).value.1 + more))
  {
    var (tag, body) := ReadVarint(b, 5).value;
    ReadVarintExtends(b, more, 5);
    ReadValueExtends(tag / 8, tag % 8, body, more);
  }

  /** Concatenated messages parse to the records of one and then of the other. */
  lemma {:induction false} ParseConcat(a: bytes, b: bytes)
    requires ParseFields(a).Some? && ParseFields(b).Some?
    ensures ParseFields(a + b) == Some(ParseFields(a).value + ParseFields(b).value)
    decreases |a|
  {
    if a == [] {
      assert a + b == b;
      assert ParseFields(a).value + ParseFields(b).value == ParseFields(b).value;
    } else {
      var (field, rest) := ReadField(a).value;
      ReadFieldExtends(a, b);
      ParseConcat(rest, b);
      ParseStep(a + b, field, rest + b, ParseFields(rest).value + ParseFields(b).value);
      KeptFirst(field, ParseFields(rest).value, ParseFields(b).value);
    }
  }

  lemma ParseStep(b: bytes, field: Option<Field>, rest: bytes, fields: seq<Field>)
    requires b != [] && ReadField(b) == Some((field, rest)) && ParseFields(rest) == Some(fields)
    ensures ParseFields(b) == Some(if field.Some? then [field.value] + fields else fields)
  {
  }

  lemma KeptFirst(field: Option<Field>, xs: seq<Field>, ys: seq<Field>)
    ensures (if field.Some? then [field.value] + (xs + ys) else xs + ys)
            == (if field.Some? then [field.value] + xs else xs) + ys
  {
    if field.Some? {
      assert [field.value] + (xs + ys) == [field.value] + xs + ys;
    }
  }

  /** Merging: of a singular field the last occurrence counts, repeated ones add up. */
  lemma MergedFields(a: seq<Field>, b: seq<Field>, num: nat)
    ensures AllBytes(a + b, num) == AllBytes(a, num) + AllBytes(b, num)
    ensures LastBytes(a + b, num) == if AllBytes(b, num) == [] then LastBytes(a, num) else LastBytes(b, num)
    ensures LastVarint(a + b, num) == if AllVarints(b, num) == [] then LastVarint(a, num) else LastVarint(b, num)
  {
    AllBytesConcat(a, b, num);
    AllVarintsConcat(a, b, num);
  }

  lemma {:induction false} ParsedIsShorter(b: bytes, f: Field)
    requires ParseFields(b).Some? && f in ParseFields(b).value && f.BytesField?
    ensures |f.data| < |b|
    decreases |b|
  {
    var (field, rest) := ReadField(b).value;
    if field != Some(f) {
      ParsedIsShorter(rest, f);
    }
  }

  /** A nested message is no longer than the message around it. */
  lemma {:induction false} NestedFits(fs: seq<Field>, f: Field)
    requires f in fs && f.BytesField?
    ensures |f.data| <= |SerializeFields(fs)|
  {
    if f != fs[0] {
      NestedFits(fs[1..], f);
    }
  }

  // ------------------------------------------------- reading a record list

  function BytesOf(f: Field, num: nat): seq<bytes> {
    if f.BytesField? && f.num == num then [f.data] else []
  }

  function VarintsOf(f: Field, num: nat): seq<uint64> {
    if f.VarintField? && f.num == num then [f.value] else []
  }

  /** The payloads of every length-delimited record numbered `num`, in order. */
  function AllBytes(fs: seq<Field>, num: nat): seq<bytes> {
    if fs == [] then
      []
    else
      BytesOf(fs[0], num) + AllBytes(fs[1..], num)
  }

  function AllVarints(fs: seq<Field>, num: nat): seq<uint64> {
    if fs == [] then
      []
    else
      VarintsOf(fs[0], num) + AllVarints(fs[1..], num)
  }

  function Last<T>(s: seq<T>, default: T): T {
    if s == [] then default else s[|s| - 1]
  }

  /** A singular scalar keeps its last occurrence. */
  function LastBytes(fs: seq<Field>, num: nat): bytes {
    Last(AllBytes(fs, num), [])
  }

  function LastVarint(fs: seq<Field>, num: nat): uint64 {
    Last(AllVarints(fs, num), 0)
  }

  function Join(parts: seq<bytes>): bytes {
    if parts == [] then [] else parts[0] + Join(parts[1..])
  }

  /** A singular message, if it is there at all. Each occurrence has to parse, and all
      are merged, which is parsing their concatenation. */
  function Submessage<T>(fs: seq<Field>, num: nat, parse: bytes -> Option<T>): Option<Option<T>> {
    var parts := AllBytes(fs, num);
    if parts == [] then
      Some(None)
    else if exists part <- parts :: parse(part).None? then
      None
    else
      var merged :- parse(Join(parts));
      Some(Some(merged))
  }

  // Default values are not written.
  function BytesIfSet(num: nat, data: bytes): seq<Field> {
    if data == [] then [] else [BytesField(num, data)]
  }

  function VarintIfSet(num: nat, value: uint64): seq<Field> {
    if value == 0 then [] else [VarintField(num, value)]
  }

  function Repeated(num: nat, parts: seq<bytes>): seq<Field> {
    if parts == [] then [] else [BytesField(num, parts[0])] + Repeated(num, parts[1..])
  }

  // ------------------------------------------- a message as one part per field

  /** A message is written field by field: part `i` holds the records numbered `i + 1`. */
  predicate Numbered(parts: seq<seq<Field>>) {
    && |parts| < 15
    && forall i, f | 0 <= i < |parts| && f in parts[i] :: f.num == i + 1 && Writable(f)
  }

  function Flatten(parts: seq<seq<Field>>): seq<Field> {
    if parts == [] then [] else Flatten(parts[..|parts| - 1]) + parts[|parts| - 1]
  }

  function MessageBytes(parts: seq<seq<Field>>): bytes {
    SerializeFields(Flatten(parts))
  }

  lemma {:induction false} AllBytesConcat(xs: seq<Field>, ys: seq<Field>, num: nat)
    ensures AllBytes(xs + ys, num) == AllBytes(xs, num) + AllBytes(ys, num)
  {
    if xs == [] {
      assert xs + ys == ys;
    } else {
      assert (xs + ys)[0] == xs[0] && (xs + ys)[1..] == xs[1..] + ys;
      AllBytesConcat(xs[1..], ys, num);
      assert AllBytes(xs + ys, num) == BytesOf(xs[0], num) + (AllBytes(xs[1..], num) + AllBytes(ys, num));
    }
  }

  lemma {:induction false} AllVarintsConcat(xs: seq<Field>, ys: seq<Field>, num: nat)
    ensures AllVarints(xs + ys, num) == AllVarints(xs, num) + AllVarints(ys, num)
  {
    if xs == [] {
      assert xs + ys == ys;
    } else {
      assert (xs + ys)[0] == xs[0] && (xs + ys)[1..] == xs[1..] + ys;
      AllVarintsConcat(xs[1..], ys, num);
      assert AllVarints(xs + ys, num) == VarintsOf(xs[0], num) + (AllVarints(xs[1..], num) + AllVarints(ys, num));
    }
  }

  lemma {:induction false} OthersAreNotRead(fs: seq<Field>, num: nat)
    requires forall f <- fs :: f.num != num
    ensures AllBytes(fs, num) == [] && AllVarints(fs, num) == []
  {
    if fs != [] {
      assert fs[0] in fs;
      OthersAreNotRead(fs[1..], num);
    }
  }

  lemma {:induction false} FlattenHolds(parts: seq<seq<Field>>, f: Field)
    ensures f in Flatten(parts) <==> exists i :: 0 <= i < |parts| && f in parts[i]
  {
    if parts != [] {
      var last := |parts| - 1;
      FlattenHolds(parts[..last], f);
      if f in Flatten(parts[..last]) {
        var i :| 0 <= i < last && f in parts[..last][i];
        assert f in parts[i];
      }
    }
  }

  lemma OtherPartIsNotRead(parts: seq<seq<Field>>, i: nat, num: nat)
    requires Numbered(parts) && i < |parts| && num != i + 1
    ensures AllBytes(parts[i], num) == [] && AllVarints(parts[i], num) == []
  {
    OthersAreNotRead(parts[i], num);
  }

  lemma FrontIsNumbered(parts: seq<seq<Field>>)
    requires Numbered(parts) && parts != []
    ensures Numbered(parts[..|parts| - 1])
  {
    var front := parts[..|parts| - 1];
    forall i, f: Field | 0 <= i < |front| && f in front[i]
      ensures f.num == i + 1 && Writable(f)
    {
      assert f in parts[i];
    }
  }

  /** The records of one field are read from its own part alone. */
  lemma {:induction false} PartIsRead(parts: seq<seq<Field>>, num: nat)
    requires Numbered(parts) && 0 < num
    ensures AllBytes(Flatten(parts), num) == if num <= |parts| then AllBytes(parts[num - 1], num) else []
    ensures AllVarints(Flatten(parts), num) == if num <= |parts| then AllVarints(parts[num - 1], num) else []
  {
    if parts != [] {
      var last := |parts| - 1;
      var front, part := parts[..last], parts[last];
      FrontIsNumbered(parts);
      PartIsRead(front, num);
      AllBytesConcat(Flatten(front), part, num);
      AllVarintsConcat(Flatten(front), part, num);
      assert Flatten(parts) == Flatten(front) + part;
      if num != last + 1 {
        OtherPartIsNotRead(parts, last, num);
        assert num <= last ==> front[num - 1] == parts[num - 1];
      }
    }
  }

  /** Whatever is written part by part parses to the same records. */
  lemma MessageRoundTrip(parts: seq<seq<Field>>)
    requires Numbered(parts)
    requires |MessageBytes(parts)| < SIZE_LIMIT
    ensures ParseFields(MessageBytes(parts)) == Some(Flatten(parts))
  {
    forall f | f in Flatten(parts)
      ensures Writable(f)
    {
      FlattenHolds(parts, f);
    }
    FieldsRoundTrip(Flatten(parts));
  }

  /** A nested payload is no longer than its message. */
  lemma PartFits(parts: seq<seq<Field>>, i: nat, data: bytes)
    requires i < |parts| && BytesField(i + 1, data) in parts[i]
    ensures |data| <= |MessageBytes(parts)|
  {
    FlattenHolds(parts, BytesField(i + 1, data));
    NestedFits(Flatten(parts), BytesField(i + 1, data));
  }

  // ---------------------------------------------------- reading back one part

  lemma BytesAreRead(parts: seq<seq<Field>>, num: nat, data: bytes)
    requires Numbered(parts) && 0 < num <= |parts| && parts[num - 1] == BytesIfSet(num, data)
    ensures LastBytes(Flatten(parts), num) == data
  {
    PartIsRead(parts, num);
    assert [BytesField(num, data)][1..] == [];
  }

  lemma VarintIsRead(parts: seq<seq<Field>>, num: nat, value: uint64)
    requires Numbered(parts) && 0 < num <= |parts| && parts[num - 1] == VarintIfSet(num, value)
    ensures LastVarint(Flatten(parts), num) == value
  {
    PartIsRead(parts, num);
    assert [VarintField(num, value)][1..] == [];
  }

  lemma SubmessageIsRead<T>(parts: seq<seq<Field>>, num: nat, data: bytes, parse: bytes -> Option<T>, m: T)
    requires Numbered(parts) && 0 < num <= |parts|
    requires parts[num - 1] == [BytesField(num, data)] && parse(data) == Some(m)
    ensures Submessage(Flatten(parts), num, parse) == Some(Some(m))
  {
    OneIsRead(parts, num, data);
    OneIsMerged(Flatten(parts), num, data, parse, m);
  }

  lemma OneIsRead(parts: seq<seq<Field>>, num: nat, data: bytes)
    requires Numbered(parts) && 0 < num <= |parts|
    requires parts[num - 1] == [BytesField(num, data)]
    ensures AllBytes(Flatten(parts), num) == [data]
  {
    PartIsRead(parts, num);
    assert [BytesField(num, data)][1..] == [];
  }

  lemma OneIsMerged<T>(fs: seq<Field>, num: nat, data: bytes, parse: bytes -> Option<T>, m: T)
    requires AllBytes(fs, num) == [data] && parse(data) == Some(m)
    ensures Submessage(fs, num, parse) == Some(Some(m))
  {
    assert Join([data]) == data + Join([data][1..]) == data;
  }

  /** Two occurrences that parse are merged: they are parsed as one message. */
  lemma TwoAreMerged<T>(fs: seq<Field>, num: nat, a: bytes, b: bytes, parse: bytes -> Option<T>)
    requires AllBytes(fs, num) == [a, b]
    ensures Submessage(fs, num, parse)
            == if parse(a).None? || parse(b).None? || parse(a + b).None? then None else Some(parse(a + b))
  {
    assert [a, b][0] == a && [a, b][1] == b;
    assert Join([a, b][1..]) == b + Join([b][1..]) == b;
  }

  lemma OneIsRefused<T>(fs: seq<Field>, num: nat, data: bytes, parse: bytes -> Option<T>)
    requires AllBytes(fs, num) == [data] && parse(data) == None
    ensures Submessage(fs, num, parse) == None
  {
    assert data in AllBytes(fs, num);
  }

  lemma NoSubmessageIsRead<T>(parts: seq<seq<Field>>, num: nat, parse: bytes -> Option<T>)
    requires Numbered(parts) && 0 < num <= |parts| && parts[num - 1] == []
    ensures Submessage(Flatten(parts), num, parse) == Some(None)
  {
    PartIsRead(parts, num);
  }

  lemma ListIsRead(parts: seq<seq<Field>>, num: nat, items: seq<bytes>)
    requires Numbered(parts) && 0 < num <= |parts| && parts[num - 1] == Repeated(num, items)
    ensures AllBytes(Flatten(parts), num) == items
  {
    PartIsRead(parts, num);
    RepeatedIsRead(num, items);
  }

  lemma RepeatedIsRead(num: nat, parts: seq<bytes>)
    ensures AllBytes(Repeated(num, parts), num) == parts
    ensures forall f <- Repeated(num, parts) :: f.BytesField? && f.num == num
    ensures forall i | 0 <= i < |parts| :: BytesField(num, parts[i]) in Repeated(num, parts)
  {
    RepeatedAre(num, parts);
    RepeatedBytes(num, parts);
    forall i | 0 <= i < |parts|
      ensures BytesField(num, parts[i]) in Repeated(num, parts)
    {
      assert Repeated(num, parts)[i] == BytesField(num, parts[i]);
    }
  }

  lemma {:induction false} RepeatedAre(num: nat, parts: seq<bytes>)
    ensures |Repeated(num, parts)| == |parts|
    ensures forall i | 0 <= i < |parts| :: Repeated(num, parts)[i] == BytesField(num, parts[i])
  {
    if parts != [] {
      RepeatedAre(num, parts[1..]);
    }
  }

  lemma {:induction false} RepeatedBytes(num: nat, parts: seq<bytes>)
    ensures AllBytes(Repeated(num, parts), num) == parts
  {
    if parts != [] {
      RepeatedBytes(num, parts[1..]);
      assert Repeated(num, parts)[1..] == Repeated(num, parts[1..]);
    }
  }
}
