/** The edge-batching codec: a big-endian unit count, then length-prefixed units, decoded
    exactly. */
module Batch {
  import opened Wrappers

  type Byte = b: int | 0 <= b < 256
  type Bytes = seq<Byte>

  const COUNT_OVERHEAD: nat := 4
  const UNIT_OVERHEAD: nat := 4
  const U32_MAX: nat := 0xFFFF_FFFF

  datatype Malformed =
    | Truncated(expected: nat, got: nat)
    | ZeroCount
    | CountOverflow(count: nat, remaining: nat)
    | LengthOverflow(len: nat, remaining: nat)
    | TrailingBytes(count: nat)

  // ---- The u32 prefix --------------------------------------------------------------------

  function PutU32(n: nat): (b: Bytes)
    requires n <= U32_MAX
    ensures |b| == 4
  {
    [n / 0x100_0000, n / 0x1_0000 % 0x100, n / 0x100 % 0x100, n % 0x100]
  }

  function GetU32(b: Bytes): (n: nat)
    requires |b| == 4
    ensures n <= U32_MAX
  {
    var b0: int, b1: int, b2: int, b3: int := b[0], b[1], b[2], b[3];
    b0 * 0x100_0000 + b1 * 0x1_0000 + b2 * 0x100 + b3
  }

  lemma PutGet(b: Bytes)
    requires |b| == 4
    ensures PutU32(GetU32(b)) == b
  {
    var n := GetU32(b);
    var b0: int, b1: int, b2: int := b[0], b[1], b[2];
    assert n / 0x100 == b0 * 0x1_0000 + b1 * 0x100 + b2;
    assert n / 0x1_0000 == b0 * 0x100 + b1;
  }

  lemma GetPut(n: nat)
    requires n <= U32_MAX
    ensures GetU32(PutU32(n)) == n
  {
    assert n / 0x1_0000 == n / 0x100 / 0x100 && n / 0x100_0000 == n / 0x1_0000 / 0x100;
  }

  /** The number a byte string spells, most significant byte first. */
  function BigEndian(b: Bytes): nat {
    if b == [] then 0 else BigEndian(b[..|b| - 1]) * 256 + b[|b| - 1]
  }

  lemma PrefixIsBigEndian(b: Bytes)
    requires |b| == 4
    ensures GetU32(b) == BigEndian(b)
  {
    var b3, b2, b1 := b[..3], b[..2], b[..1];
    var x0: int, x1: int, x2: int := b[0], b[1], b[2];
    assert b3[..2] == b2 && b2[..1] == b1 && b1[..0] == [];
    assert BigEndian(b1) == x0;
    assert BigEndian(b2) == x0 * 256 + x1;
    assert BigEndian(b3) == (x0 * 256 + x1) * 256 + x2;
  }

  // ---- The layout ------------------------------------------------------------------------

  predicate Encodable(us: seq<Bytes>) {
    |us| <= U32_MAX && forall u :: u in us ==> |u| <= U32_MAX
  }

  function EncodeUnits(us: seq<Bytes>): Bytes
    requires Encodable(us)
  {
    if us == [] then [] else PutU32(|us[0]|) + us[0] + EncodeUnits(us[1..])
  }

  function Encode(us: seq<Bytes>): Bytes
    requires Encodable(us)
  {
    PutU32(|us|) + EncodeUnits(us)
  }

  /** The encoded length of a body holding units of these lengths. */
  function EncodedLen(us: seq<Bytes>): nat { COUNT_OVERHEAD + UnitsLen(us) }

  function UnitsLen(us: seq<Bytes>): nat {
    if us == [] then 0 else UNIT_OVERHEAD + |us[0]| + UnitsLen(us[1..])
  }

  lemma {:induction false} EncodeUnitsLen(us: seq<Bytes>)
    requires Encodable(us)
    ensures |EncodeUnits(us)| == UnitsLen(us) >= UNIT_OVERHEAD * |us|
  {
    if us != [] { EncodeUnitsLen(us[1..]); }
  }

  lemma {:induction false} UnitsLenConcat(a: seq<Bytes>, b: seq<Bytes>)
    ensures UnitsLen(a + b) == UnitsLen(a) + UnitsLen(b)
  {
    if a == [] {
      assert a + b == b;
    } else {
      UnitsLenConcat(a[1..], b);
      assert (a + b)[0] == a[0] && (a + b)[1..] == a[1..] + b;
    }
  }

  lemma {:induction false} FitsEncodable(us: seq<Bytes>)
    requires UnitsLen(us) <= U32_MAX
    ensures Encodable(us) && |us| <= UnitsLen(us)
  {
    if us != [] {
      FitsEncodable(us[1..]);
      assert us == [us[0]] + us[1..];
    }
  }

  // ---- Decoding --------------------------------------------------------------------------

  /** Exactly `left` units, ending exactly at the end of `tail`. */
  function ParseUnits(tail: Bytes, left: nat): Result<seq<Bytes>, Malformed> {
    if left == 0 then
      if tail == [] then Ok([]) else Err(TrailingBytes(|tail|))
    else if |tail| < UNIT_OVERHEAD then Err(Truncated(UNIT_OVERHEAD, |tail|))
    else
      var len, rest := GetU32(tail[..UNIT_OVERHEAD]), tail[UNIT_OVERHEAD..];
      if len > |rest| then Err(LengthOverflow(len, |rest|))
      else
        match ParseUnits(rest[len..], left - 1)
        case Err(e) => Err(e)
        case Ok(us) => Ok([rest[..len]] + us)
  }

  function Parse(buf: Bytes): Result<seq<Bytes>, Malformed> {
    if |buf| < COUNT_OVERHEAD then Err(Truncated(COUNT_OVERHEAD, |buf|))
    else
      var count, units := GetU32(buf[..COUNT_OVERHEAD]), buf[COUNT_OVERHEAD..];
      if count == 0 then Err(ZeroCount)
      else if count * UNIT_OVERHEAD > |units| then Err(CountOverflow(count, |units|))
      else ParseUnits(units, count)
  }

  lemma {:induction false} ParseUnitsEncoded(us: seq<Bytes>)
    requires Encodable(us)
    ensures ParseUnits(EncodeUnits(us), |us|) == Ok(us)
  {
    hide PutU32, GetU32;
    if us != [] {
      var u, tail := us[0], EncodeUnits(us);
      var rest := tail[UNIT_OVERHEAD..];
      GetPut(|u|);
      assert tail[..UNIT_OVERHEAD] == PutU32(|u|);
      assert rest == u + EncodeUnits(us[1..]);
      assert rest[..|u|] == u && rest[|u|..] == EncodeUnits(us[1..]);
      ParseUnitsEncoded(us[1..]);
      assert us == [u] + us[1..];
    }
  }

  lemma {:induction false} ParsedUnitsEncode(tail: Bytes, left: nat)
    requires left <= U32_MAX && ParseUnits(tail, left).Ok?
    ensures
      var us := ParseUnits(tail, left).value;
      |us| == left && Encodable(us) && EncodeUnits(us) == tail
  {
    hide PutU32, GetU32, EncodeUnits;
    if left > 0 {
      var len, rest := GetU32(tail[..UNIT_OVERHEAD]), tail[UNIT_OVERHEAD..];
      ParsedUnitsEncode(rest[len..], left - 1);
      PutGet(tail[..UNIT_OVERHEAD]);
      EncodeFirst(tail, rest[..len], ParseUnits(rest[len..], left - 1).value);
    } else {
      EncodeNone();
    }
  }

  lemma EncodeNone()
    ensures EncodeUnits([]) == []
  {}

  /** A unit's prefix, the unit, and the rest's encoding make the whole encoding. */
  lemma EncodeFirst(tail: Bytes, u: Bytes, more: seq<Bytes>)
    requires |u| <= U32_MAX && |more| < U32_MAX && Encodable(more)
    requires |tail| >= UNIT_OVERHEAD + |u| && tail[..UNIT_OVERHEAD] == PutU32(|u|)
    requires tail[UNIT_OVERHEAD..][..|u|] == u && tail[UNIT_OVERHEAD..][|u|..] == EncodeUnits(more)
    ensures Encodable([u] + more) && EncodeUnits([u] + more) == tail
  {
    hide PutU32;
    var rest := tail[UNIT_OVERHEAD..];
    assert tail == tail[..UNIT_OVERHEAD] + rest && rest == rest[..|u|] + rest[|u|..];
    assert ([u] + more)[1..] == more;
    assert PutU32(|u|) + (u + EncodeUnits(more)) == PutU32(|u|) + u + EncodeUnits(more);
  }

  /** Decoding inverts encoding on every non-empty batch. */
  lemma RoundTrip(us: seq<Bytes>)
    requires us != [] && Encodable(us)
    ensures Parse(Encode(us)) == Ok(us)
  {
    var buf := Encode(us);
    assert buf[..COUNT_OVERHEAD] == PutU32(|us|) && buf[COUNT_OVERHEAD..] == EncodeUnits(us);
    GetPut(|us|);
    EncodeUnitsLen(us);
    ParseUnitsEncoded(us);
  }

  /** Decoding is exact: whatever parses is the one canonical encoding of what it parsed to. */
  lemma Canonical(buf: Bytes)
    requires Parse(buf).Ok?
    ensures
      var us := Parse(buf).value;
      us != [] && Encodable(us) && Encode(us) == buf
  {
    var count := GetU32(buf[..COUNT_OVERHEAD]);
    ParsedUnitsEncode(buf[COUNT_OVERHEAD..], count);
    PutGet(buf[..COUNT_OVERHEAD]);
  }

  /** THE LAYOUT: a big-endian count, then each unit behind its big-endian length. */
  lemma LayoutIs(us: seq<Bytes>)
    requires us != [] && Encodable(us)
    ensures
      var body := Encode(us);
      && |body| >= 8 + |us[0]| && BigEndian(body[..4]) == |us| && BigEndian(body[4..8]) == |us[0]|
      && body[8..8 + |us[0]|] == us[0] && body[8 + |us[0]|..] == EncodeUnits(us[1..])
  {
    hide PutU32, GetU32, BigEndian, EncodeUnits;
    var body, u, rest := Encode(us), us[0], EncodeUnits(us[1..]);
    EncodeHead(us);
    assert body == PutU32(|us|) + (PutU32(|u|) + u + rest);
    assert body[..4] == PutU32(|us|) && body[4..8] == PutU32(|u|);
    assert body[8..8 + |u|] == u && body[8 + |u|..] == rest;
    GetPut(|us|);
    GetPut(|u|);
    PrefixIsBigEndian(body[..4]);
    PrefixIsBigEndian(body[4..8]);
  }

  lemma EncodeHead(us: seq<Bytes>)
    requires us != [] && Encodable(us)
    ensures EncodeUnits(us) == PutU32(|us[0]|) + us[0] + EncodeUnits(us[1..])
  {}

  /** Where the units stop decoding, and what is said there: after whole units `us`, with `left`
      more declared. */
  lemma {:induction false} UnitsBreak(us: seq<Bytes>, tail: Bytes, left: nat)
    requires Encodable(us)
    ensures left == 0 && tail != [] ==> ParseUnits(EncodeUnits(us) + tail, |us| + left) == Err(TrailingBytes(|tail|))
    ensures left > 0 && |tail| < 4 ==> ParseUnits(EncodeUnits(us) + tail, |us| + left) == Err(Truncated(4, |tail|))
    ensures left > 0 && |tail| >= 4 && BigEndian(tail[..4]) > |tail| - 4 ==>
      ParseUnits(EncodeUnits(us) + tail, |us| + left) == Err(LengthOverflow(BigEndian(tail[..4]), |tail| - 4))
  {
    hide PutU32, GetU32, BigEndian;
    if us == [] {
      assert EncodeUnits(us) + tail == tail;
      if |tail| >= 4 { PrefixIsBigEndian(tail[..4]); }
    } else {
      UnitsBreak(us[1..], tail, left);
      OneUnitOff(us[0], EncodeUnits(us[1..]) + tail, |us| - 1 + left);
      assert EncodeUnits(us) + tail == PutU32(|us[0]|) + us[0] + (EncodeUnits(us[1..]) + tail);
    }
  }

  lemma OneUnitOff(u: Bytes, rest: Bytes, left: nat)
    requires |u| <= U32_MAX
    ensures ParseUnits(rest, left).Err? ==> ParseUnits(PutU32(|u|) + u + rest, left + 1) == Err(ParseUnits(rest, left).error)
  {
    hide PutU32, GetU32;
    var all := PutU32(|u|) + u + rest;
    assert all[..UNIT_OVERHEAD] == PutU32(|u|) && all[UNIT_OVERHEAD..] == u + rest;
    assert (u + rest)[|u|..] == rest;
    GetPut(|u|);
  }

  /** EVERY MALFORMED BODY is refused with what is wrong where it goes wrong: no count, a zero
      count, a count the bytes cannot hold; and after the last whole unit, bytes left over, no
      room for a length, or a length past the end. */
  lemma ErrorsAreExact(buf: Bytes, us: seq<Bytes>, tail: Bytes)
    ensures |buf| < 4 ==> Parse(buf) == Err(Truncated(4, |buf|))
    ensures |buf| >= 4 && BigEndian(buf[..4]) == 0 ==> Parse(buf) == Err(ZeroCount)
    ensures |buf| >= 4 && BigEndian(buf[..4]) * 4 > |buf| - 4 ==>
      Parse(buf) == Err(CountOverflow(BigEndian(buf[..4]), |buf| - 4))
    ensures
      && |buf| >= 4 && 0 < BigEndian(buf[..4]) * 4 <= |buf| - 4 && Encodable(us) && |us| <= BigEndian(buf[..4])
      && buf[4..] == EncodeUnits(us) + tail ==>
        && (|us| == BigEndian(buf[..4]) && tail != [] ==> Parse(buf) == Err(TrailingBytes(|tail|)))
        && (|us| < BigEndian(buf[..4]) && |tail| < 4 ==> Parse(buf) == Err(Truncated(4, |tail|)))
        && (|us| < BigEndian(buf[..4]) && |tail| >= 4 && BigEndian(tail[..4]) > |tail| - 4 ==>
              Parse(buf) == Err(LengthOverflow(BigEndian(tail[..4]), |tail| - 4)))
  {
    hide GetU32, BigEndian, ParseUnits, EncodeUnits;
    if |buf| >= 4 {
      PrefixIsBigEndian(buf[..4]);
      var count := BigEndian(buf[..4]);
      if Encodable(us) && |us| <= count { UnitsBreak(us, tail, count - |us|); }
    }
  }

  // ---- The view and the builder ----------------------------------------------------------

  /** A validated body: the bytes after the count prefix, and the count. */
  datatype View = View(units: Bytes, count: nat)

  /** Validation without copying: one pass over the length prefixes. */
  method ParseView(buf: Bytes) returns (r: Result<View, Malformed>)
    ensures match Parse(buf)
      case Err(e) => r == Err(e)
      case Ok(us) => r == Ok(View(buf[COUNT_OVERHEAD..], |us|))
  {
    if |buf| < COUNT_OVERHEAD { return Err(Truncated(COUNT_OVERHEAD, |buf|)); }
    var units := buf[COUNT_OVERHEAD..];
    var count := GetU32(buf[..COUNT_OVERHEAD]);
    if count == 0 { return Err(ZeroCount); }
    if count * UNIT_OVERHEAD > |units| { return Err(CountOverflow(count, |units|)); }
    var tail, left: nat := units, count;
    while left > 0
      invariant left <= count
      invariant match ParseUnits(tail, left)
        case Err(e) => Parse(buf) == Err(e)
        case Ok(us) => Parse(buf).Ok? && |Parse(buf).value| == |us| + (count - left)
    {
      if |tail| < UNIT_OVERHEAD { return Err(Truncated(UNIT_OVERHEAD, |tail|)); }
      var len, rest := GetU32(tail[..UNIT_OVERHEAD]), tail[UNIT_OVERHEAD..];
      if len > |rest| { return Err(LengthOverflow(len, |rest|)); }
      tail, left := rest[len..], left - 1;
    }
    if tail != [] { return Err(TrailingBytes(|tail|)); }
    r := Ok(View(units, count));
  }

  /** The walk over a validated view, unit by unit. */
  method Walk(view: View) returns (us: seq<Bytes>)
    requires ParseUnits(view.units, view.count).Ok?
    ensures us == ParseUnits(view.units, view.count).value
  {
    us := [];
    var tail, left := view.units, view.count;
    while left > 0
      invariant ParseUnits(tail, left).Ok?
      invariant us + ParseUnits(tail, left).value == ParseUnits(view.units, view.count).value
    {
      var len, rest := GetU32(tail[..UNIT_OVERHEAD]), tail[UNIT_OVERHEAD..];
      assert us + ParseUnits(tail, left).value == us + [rest[..len]] + ParseUnits(rest[len..], left - 1).value;
      us := us + [rest[..len]];
      tail, left := rest[len..], left - 1;
    }
    assert us + [] == us;
  }

  /** Accumulates units into one body under a byte budget. */
  class BatchBuilder {
    var buf: Bytes
    var count: nat
    const budget: nat
    ghost var pushed: seq<Bytes>

    ghost predicate Valid()
      reads this
    {
      && budget <= U32_MAX
      && count == |pushed|
      && (pushed != [] ==> EncodedLen(pushed) <= budget)
      && Encodable(pushed)
      && buf == [0, 0, 0, 0] + EncodeUnits(pushed)
    }

    constructor (limit: nat)
      ensures Valid() && pushed == [] && budget == if limit <= U32_MAX then limit else U32_MAX
    {
      buf, count, pushed := [0, 0, 0, 0], 0, [];
      budget := if limit <= U32_MAX then limit else U32_MAX;
    }

    /** Admits the unit exactly when the body including it still fits. */
    method Push(unit: Bytes) returns (ok: bool)
      requires Valid()
      modifies this
      ensures Valid()
      ensures ok == (EncodedLen(old(pushed) + [unit]) <= budget)
      ensures pushed == if ok then old(pushed) + [unit] else old(pushed)
    {
      EncodeUnitsLen(pushed);
      UnitsLenConcat(pushed, [unit]);
      if |buf| + UNIT_OVERHEAD + |unit| > budget { return false; }
      FitsEncodable(pushed + [unit]);
      EncodeSnoc(pushed, unit);
      buf := buf + PutU32(|unit|) + unit;
      pushed, count := pushed + [unit], count + 1;
      ok := true;
    }

    /** Seals the body, refusing an empty batch. */
    method Finish() returns (r: Result<Bytes, ()>)
      requires Valid()
      modifies this`buf
      ensures r == if old(pushed) == [] then Err(()) else Ok(Encode(old(pushed)))
    {
      if count == 0 { return Err(()); }
      buf := PutU32(count) + buf[COUNT_OVERHEAD..];
      r := Ok(buf);
    }
  }

  lemma {:induction false} EncodeSnoc(us: seq<Bytes>, u: Bytes)
    requires Encodable(us + [u])
    ensures Encodable(us)
    ensures EncodeUnits(us + [u]) == EncodeUnits(us) + PutU32(|u|) + u
  {
    hide PutU32;
    forall v | v in us ensures v in us + [u] {}
    assert u in us + [u];
    if us == [] {
      assert us + [u] == [u] && [u][1..] == [];
      assert EncodeUnits([u]) == PutU32(|u|) + u + EncodeUnits([]);
    } else {
      assert (us + [u])[0] == us[0] && (us + [u])[1..] == us[1..] + [u];
      EncodeSnoc(us[1..], u);
    }
  }
}
