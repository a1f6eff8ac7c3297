/** The protobuf wire format as the audit consumer reads it: varints, length-delimited
    bytes, skipping, and a generic fold over the fields of one message. */
module Wire {

  type Byte = n: int | 0 <= n < 0x100 witness 0
  type Bytes = seq<Byte>

  /** Number of values of a Go uint64. */
  const U64: int := 0x1_0000_0000_0000_0000

  datatype Error = Truncated | BadVarint | BadWireType | WireMismatch | BadCompression

  datatype Result<+T> = Ok(value: T) | Err(error: Error) {
    predicate IsFailure() { Err? }
    function PropagateFailure<U>(): Result<U> requires Err? { Err(error) }
    function Extract(): T requires Ok? { value }
  }

  // ---------- Go's unsigned shift and or, on naturals ----------

  function Pow2(n: nat): (p: int)
    ensures p > 0
  {
    if n == 0 then 1 else 2 * Pow2(n - 1)
  }

  function Pow128(n: nat): (p: int)
    ensures p > 0
  {
    if n == 0 then 1 else 128 * Pow128(n - 1)
  }

  /** Bitwise or, bit by bit from the low end. */
  function BitOr(a: nat, b: nat): nat
    decreases a + b
  {
    if a == 0 && b == 0 then 0
    else (if a % 2 == 1 || b % 2 == 1 then 1 else 0) + 2 * BitOr(a / 2, b / 2)
  }

  /** Left shift of a uint64: bits pushed past bit 63 are lost. */
  function Shl64(x: nat, s: nat): nat {
    (x * Pow2(s)) % U64
  }

  lemma {:induction false} Pow2Is128(n: nat)
    ensures Pow2(7 * n) == Pow128(n)
  {
    if n > 0 {
      Pow2Is128(n - 1);
      var m := 7 * n;
      assert Pow2(m) == 2 * Pow2(m - 1) == 4 * Pow2(m - 2) == 8 * Pow2(m - 3);
      assert Pow2(m - 3) == 2 * Pow2(m - 4) == 4 * Pow2(m - 5) == 8 * Pow2(m - 6) == 16 * Pow2(m - 7);
    }
  }

  lemma {:induction false} OrWithZero(x: nat)
    ensures BitOr(0, x) == x
    decreases x
  {
    if x > 0 { OrWithZero(x / 2); }
  }

  /** Or-ing a value into bits that are all clear adds it. */
  lemma {:induction false} OrIntoClearBits(a: nat, x: nat, s: nat)
    requires a < Pow2(s)
    ensures BitOr(a, x * Pow2(s)) == a + x * Pow2(s)
  {
    if s == 0 {
      OrWithZero(x);
    } else if a == 0 {
      OrWithZero(x * Pow2(s));
    } else {
      var half := x * Pow2(s - 1);
      assert x * Pow2(s) == 2 * half;
      OrIntoClearBits(a / 2, x, s - 1);
    }
  }

  // ---------- varint ----------

  /** What the bytes from `off` denote as a varint, `index` bytes of it being already consumed.
      The value is the remaining groups, least significant first; the second part is the offset after it. */
  function VarintAt(b: Bytes, off: nat, index: nat): (r: Result<(nat, nat)>)
    requires off <= |b| && index <= 10
    decreases 10 - index
  {
    if index == 10 then Err(BadVarint)
    else if off >= |b| then Err(Truncated)
    else if b[off] < 0x80 then
      if index == 9 && b[off] > 1 then Err(BadVarint) else Ok((b[off], off + 1))
    else
      var (rest, next) :- VarintAt(b, off + 1, index + 1);
      Ok((b[off] - 0x80 + 0x80 * rest, next))
  }

  /** The sum of the 7-bit groups times 128^i. */
  function GroupSum(groups: Bytes): (v: nat) {
    if groups == [] then 0 else groups[0] % 0x80 + 0x80 * GroupSum(groups[1..])
  }

  /** n bytes from `off`, all but the last with the continuation bit. */
  ghost predicate Terminated(b: Bytes, off: nat, n: nat) {
    && 0 < n && off + n <= |b|
    && b[off + n - 1] < 0x80
    && forall k :: off <= k < off + n - 1 ==> b[k] >= 0x80
  }

  lemma {:induction false} VarintProgress(b: Bytes, off: nat, index: nat)
    requires off <= |b| && index <= 10
    ensures var r := VarintAt(b, off, index); r.Ok? ==> off < r.value.1 <= |b| && r.value.1 <= off + 10 - index
    decreases 10 - index
  {
    if index < 10 && off < |b| && b[off] >= 0x80 {
      VarintProgress(b, off + 1, index + 1);
    }
  }

  /** A terminated group sequence is accepted exactly when it has at most ten bytes and its sum
      fits 64 bits; the accepted value is that sum. */
  lemma VarintIsGroupSum(b: Bytes, off: nat, n: nat)
    requires Terminated(b, off, n)
    ensures var s := GroupSum(b[off..off + n]);
      VarintAt(b, off, 0) == if n <= 10 && s < U64 then Ok((s, off + n)) else Err(BadVarint)
  {
    VarintTail(b, off, n, 0);
    assert Pow128(10) == 64 * U64 by { Pow128Ten(); }
  }

  lemma Pow128Ten()
    ensures Pow128(9) == 0x8000_0000_0000_0000 && Pow128(10) == 0x40_0000_0000_0000_0000
  {
    assert Pow128(3) == 0x20_0000;
    assert Pow128(6) == 0x20_0000 * 0x20_0000;
  }

  lemma {:induction false} VarintTail(b: Bytes, off: nat, n: nat, index: nat)
    requires Terminated(b, off, n) && index <= 10
    ensures var s := GroupSum(b[off..off + n]);
      && VarintAt(b, off, index)
         == (if index + n <= 10 && s * Pow128(index) < U64 then Ok((s, off + n)) else Err(BadVarint))
      && s < Pow128(n)
    decreases n
  {
    var g := b[off..off + n];
    Pow128Ten();
    if index < 10 {
      if n == 1 {
        assert g[1..] == [] && GroupSum(g) == b[off];
        SmallGroupFits(b[off], index);
      } else {
        assert g[1..] == b[off + 1..off + 1 + (n - 1)];
        VarintTail(b, off + 1, n - 1, index + 1);
        var rest := GroupSum(g[1..]);
        var s := GroupSum(g);
        assert s == b[off] - 0x80 + 0x80 * rest;
        LowGroupKeepsFit(b[off] - 0x80, rest, index, n);
      }
    } else {
      if n > 1 {
        assert g[1..] == b[off + 1..off + 1 + (n - 1)];
        SumBound(g);
      }
    }
  }

  lemma {:induction false} SumBound(g: Bytes)
    ensures GroupSum(g) < Pow128(|g|)
  {
    if g != [] { SumBound(g[1..]); }
  }

  lemma {:induction false} Pow128Grows(m: nat, n: nat)
    requires m <= n
    ensures Pow128(m) <= Pow128(n)
    decreases n - m
  {
    if m < n { Pow128Grows(m + 1, n); }
  }

  /** A final group at place `index` fits unless it is the tenth and above one. */
  lemma SmallGroupFits(x: nat, index: nat)
    requires x < 0x80 && index < 10
    ensures x * Pow128(index) < U64 <==> !(index == 9 && x > 1)
  {
    Pow128Ten();
    if index < 9 {
      Pow128Grows(index, 8);
      assert x * Pow128(index) <= 0x7f * Pow128(8) by { MulMono(x, 0x7f, Pow128(index), Pow128(8)); }
    }
  }

  lemma MulMono(a: nat, b: nat, c: nat, d: nat)
    requires a <= b && c <= d
    ensures a * c <= b * d
  {
  }

  /** Prepending a low group does not change whether a longer number fits. */
  lemma LowGroupKeepsFit(low: nat, rest: nat, index: nat, n: nat)
    requires low < 0x80 && index < 10 && n > 1
    ensures index + n <= 10 ==>
      ((low + 0x80 * rest) * Pow128(index) < U64 <==> rest * Pow128(index + 1) < U64)
  {
    if index + n <= 10 {
      Pow128Ten();
      var p := Pow128(index);
      assert (low + 0x80 * rest) * p == low * p + rest * (0x80 * p);
      var q := Pow128(index + 1);
      assert q == 0x80 * p && low * p < q by { MulMono(low, 0x7f, p, p); }
      Pow128DividesU64(index + 1);
      var k := U64 / q;
      assert U64 == k * q by { assert U64 % q == 0; }
      if rest * q < U64 {
        assert rest < k by { if rest >= k { MulMono(k, rest, q, q); } }
        assert (rest + 1) * q <= k * q by { MulMono(rest + 1, k, q, q); }
      }
    }
  }

  lemma Pow128DividesU64(n: nat)
    requires n <= 9
    ensures U64 % Pow128(n) == 0
  {
    Pow128Ten();
    assert Pow128(8) == 0x100_0000_0000_0000;
    assert Pow128(7) == 0x2_0000_0000_0000;
    assert Pow128(5) == 0x8_0000_0000;
    assert Pow128(4) == 0x1000_0000;
    assert Pow128(2) == 0x4000 && Pow128(1) == 0x80;
  }

  /** The canonical encoder of the protobuf specification, section "Base 128 Varints". */
  function EncodeVarint(v: nat): (b: Bytes)
    ensures |b| > 0
  {
    if v < 0x80 then [v] else [v % 0x80 + 0x80] + EncodeVarint(v / 0x80)
  }

  /** varint inverts the canonical encoder on every uint64, whatever follows it. */
  lemma VarintRoundTrip(v: nat, before: Bytes, after: Bytes)
    requires v < U64
    ensures VarintAt(before + EncodeVarint(v) + after, |before|, 0) == Ok((v, |before| + |EncodeVarint(v)|))
  {
    var e, b := EncodeVarint(v), before + EncodeVarint(v) + after;
    EncodeIsTerminated(v);
    assert b[|before|..|before| + |e|] == e;
    assert Terminated(b, |before|, |e|) by {
      forall k | |before| <= k < |before| + |e| ensures b[k] == e[k - |before|] {}
    }
    EncodeLength(v, 10);
    VarintIsGroupSum(b, |before|, |e|);
  }

  lemma {:induction false} EncodeIsTerminated(v: nat)
    ensures Terminated(EncodeVarint(v), 0, |EncodeVarint(v)|)
    ensures GroupSum(EncodeVarint(v)) == v
  {
    var e := EncodeVarint(v);
    if v < 0x80 {
      assert e[1..] == [];
    } else {
      EncodeIsTerminated(v / 0x80);
      assert e[1..] == EncodeVarint(v / 0x80);
      forall k | 0 <= k < |e| - 1 ensures e[k] >= 0x80 {
        if k > 0 { assert e[k] == e[1..][k - 1]; }
      }
    }
  }

  lemma {:induction false} EncodeLength(v: nat, n: nat)
    requires n > 0 && v < U64 && v < Pow128(n)
    ensures |EncodeVarint(v)| <= n
    decreases n
  {
    if v >= 0x80 {
      assert n > 1;
      EncodeLength(v / 0x80, n - 1);
    }
  }

  // ---------- fields ----------

  /** One field on the wire, by wire type. */
  datatype Field =
    | VarintField(num: nat, v: nat)
    | Fixed64Field(num: nat, raw: Bytes)
    | BytesField(num: nat, data: Bytes)
    | Fixed32Field(num: nat, raw: Bytes)
  {
    function WireType(): nat {
      match this
      case VarintField(_, _) => 0
      case Fixed64Field(_, _) => 1
      case BytesField(_, _) => 2
      case Fixed32Field(_, _) => 5
    }

    ghost predicate Valid() {
      && num * 8 + 7 < U64
      && match this
         case VarintField(_, v) => v < U64
         case Fixed64Field(_, raw) => |raw| == 8
         case BytesField(_, data) => |data| < U64
         case Fixed32Field(_, raw) => |raw| == 4
    }

    function Body(): Bytes {
      match this
      case VarintField(_, v) => EncodeVarint(v)
      case Fixed64Field(_, raw) => raw
      case BytesField(_, data) => EncodeVarint(|data|) + data
      case Fixed32Field(_, raw) => raw
    }

    function Tag(): Bytes {
      EncodeVarint(num * 8 + WireType())
    }

    /** Tag, then payload: section "Message Structure". */
    function Encode(): Bytes {
      Tag() + Body()
    }
  }

  function EncodeAll(fs: seq<Field>): Bytes {
    if fs == [] then [] else fs[0].Encode() + EncodeAll(fs[1..])
  }

  /** How a decoder treats a field number: read a varint (wire type 0 demanded), read bytes
      (wire type 2 demanded), read bytes whatever the wire type says, or skip. */
  datatype Kind = IntKind | BytesKind | AnyBytesKind | SkipKind

  datatype Item = IntItem(v: nat) | BytesItem(data: Bytes) | SkippedItem

  function BytesAt(b: Bytes, off: nat): Result<(Bytes, nat)>
    requires off <= |b|
  {
    VarintProgress(b, off, 0);
    var (length, next) :- VarintAt(b, off, 0);
    if length > |b| - next then Err(Truncated) else Ok((b[next..next + length], next + length))
  }

  function SkipAt(b: Bytes, off: nat, wire: nat): Result<nat>
    requires off <= |b|
  {
    match wire
    case 0 => var (_, next) :- VarintAt(b, off, 0); Ok(next)
    case 1 => if |b| - off < 8 then Err(Truncated) else Ok(off + 8)
    case 2 => var (_, next) :- BytesAt(b, off); Ok(next)
    case 5 => if |b| - off < 4 then Err(Truncated) else Ok(off + 4)
    case _ => Err(BadWireType)
  }

  /** The field at `off`: its number, its payload under `kind`, and the offset after it. */
  function FieldAt(b: Bytes, off: nat, kind: nat -> Kind): (r: Result<(nat, Item, nat)>)
    requires off <= |b|
    ensures r.Ok? ==> off < r.value.2 <= |b|
  {
    VarintProgress(b, off, 0);
    var (tag, start) :- VarintAt(b, off, 0);
    VarintProgress(b, start, 0);
    var num, wire := tag / 8, tag % 8;
    match kind(num)
    case IntKind =>
      if wire != 0 then Err(WireMismatch)
      else var (v, next) :- VarintAt(b, start, 0); Ok((num, IntItem(v), next))
    case BytesKind =>
      if wire != 2 then Err(WireMismatch)
      else var (data, next) :- BytesAt(b, start); Ok((num, BytesItem(data), next))
    case AnyBytesKind =>
      var (data, next) :- BytesAt(b, start); Ok((num, BytesItem(data), next))
    case SkipKind =>
      var next :- SkipAt(b, start, wire); Ok((num, SkippedItem, next))
  }

  /** A whole message: every field from `off` to the end folded into `acc`. */
  function Fold<T>(b: Bytes, off: nat, kind: nat -> Kind, step: (T, nat, Item) -> Result<T>, acc: T): Result<T>
    requires off <= |b|
    decreases |b| - off
  {
    if off == |b| then Ok(acc)
    else
      var (num, item, next) :- FieldAt(b, off, kind);
      var acc' :- step(acc, num, item);
      Fold(b, next, kind, step, acc')
  }

  // ---------- decoding what was encoded ----------

  /** The field is one its decoder can read: the wire type is the one the kind demands. */
  ghost predicate WellTyped(f: Field, kind: nat -> Kind) {
    && f.Valid()
    && (kind(f.num).IntKind? ==> f.VarintField?)
    && (kind(f.num).BytesKind? || kind(f.num).AnyBytesKind? ==> f.BytesField?)
  }

  function ItemOf(f: Field, kind: nat -> Kind): Item {
    if kind(f.num).IntKind? && f.VarintField? then IntItem(f.v)
    else if (kind(f.num).BytesKind? || kind(f.num).AnyBytesKind?) && f.BytesField? then BytesItem(f.data)
    else SkippedItem
  }

  ghost function FoldFields<T>(fs: seq<Field>, kind: nat -> Kind, step: (T, nat, Item) -> Result<T>, acc: T): Result<T> {
    if fs == [] then Ok(acc)
    else
      var acc' :- step(acc, fs[0].num, ItemOf(fs[0], kind));
      FoldFields(fs[1..], kind, step, acc')
  }

  lemma Regroup(a: Bytes, b: Bytes, c: Bytes, d: Bytes)
    ensures a + (b + c) + d == (a + b) + c + d
    ensures a + (b + c) + d == a + b + (c + d)
  {
  }

  lemma SliceAfter(a: Bytes, b: Bytes, c: Bytes)
    ensures (a + b + c)[|a|..|a| + |b|] == b
  {
  }

  lemma BytesRoundTrip(data: Bytes, before: Bytes, after: Bytes)
    requires |data| < U64
    ensures BytesAt(before + (EncodeVarint(|data|) + data) + after, |before|)
         == Ok((data, |before| + |EncodeVarint(|data|)| + |data|))
  {
    var e := EncodeVarint(|data|);
    Regroup(before, e, data, after);
    VarintRoundTrip(|data|, before, data + after);
    SliceAfter(before + e, data, after);
  }

  /** A field split into its tag bytes and its payload bytes, each reading back, reads back. */
  lemma FieldFromParts(f: Field, kind: nat -> Kind, b: Bytes, off: nat, start: nat, next: nat)
    requires WellTyped(f, kind)
    requires off <= start <= next <= |b|
    requires VarintAt(b, off, 0) == Ok((f.num * 8 + f.WireType(), start))
    requires f.VarintField? ==> VarintAt(b, start, 0) == Ok((f.v, next))
    requires f.BytesField? ==> BytesAt(b, start) == Ok((f.data, next))
    requires f.Fixed64Field? ==> next == start + 8
    requires f.Fixed32Field? ==> next == start + 4
    ensures FieldAt(b, off, kind) == Ok((f.num, ItemOf(f, kind), next))
  {
    var tag := f.num * 8 + f.WireType();
    assert tag / 8 == f.num && tag % 8 == f.WireType();
  }

  lemma TagRoundTrip(tag: nat, before: Bytes, body: Bytes, after: Bytes)
    requires tag < U64
    ensures VarintAt(before + (EncodeVarint(tag) + body) + after, |before|, 0) == Ok((tag, |before| + |EncodeVarint(tag)|))
  {
    Regroup(before, EncodeVarint(tag), body, after);
    VarintRoundTrip(tag, before, body + after);
  }

  lemma VarintPayload(v: nat, before: Bytes, tag: Bytes, after: Bytes)
    requires v < U64
    ensures var start := |before| + |tag|;
      VarintAt(before + (tag + EncodeVarint(v)) + after, start, 0) == Ok((v, start + |EncodeVarint(v)|))
  {
    Regroup(before, tag, EncodeVarint(v), after);
    VarintRoundTrip(v, before + tag, after);
  }

  lemma BytesPayload(data: Bytes, before: Bytes, tag: Bytes, after: Bytes)
    requires |data| < U64
    ensures var start, e := |before| + |tag|, EncodeVarint(|data|);
      BytesAt(before + (tag + (e + data)) + after, start) == Ok((data, start + |e + data|))
  {
    Regroup(before, tag, EncodeVarint(|data|) + data, after);
    BytesRoundTrip(data, before + tag, after);
  }

  lemma FieldRoundTrip(f: Field, before: Bytes, after: Bytes, kind: nat -> Kind)
    requires WellTyped(f, kind)
    ensures FieldAt(before + f.Encode() + after, |before|, kind)
         == Ok((f.num, ItemOf(f, kind), |before| + |f.Encode()|))
  {
    hide VarintAt, BytesAt, SkipAt, EncodeVarint, FieldAt;
    TagRoundTrip(f.num * 8 + f.WireType(), before, f.Body(), after);
    if f.VarintField? { VarintPayload(f.v, before, f.Tag(), after); }
    if f.BytesField? { BytesPayload(f.data, before, f.Tag(), after); }
    FieldFromParts(f, kind, before + f.Encode() + after, |before|, |before| + |f.Tag()|, |before| + |f.Encode()|);
  }

  /** Folding the encoded bytes is folding the fields. */
  lemma {:induction false} FoldRoundTrip<T>(
    fs: seq<Field>, before: Bytes, kind: nat -> Kind, step: (T, nat, Item) -> Result<T>, acc: T)
    requires forall f :: f in fs ==> WellTyped(f, kind)
    ensures Fold(before + EncodeAll(fs), |before|, kind, step, acc) == FoldFields(fs, kind, step, acc)
    decreases |fs|
  {
    hide FieldAt, EncodeVarint, VarintAt;
    if fs == [] {
      assert before + EncodeAll(fs) == before;
    } else {
      var f, rest := fs[0], EncodeAll(fs[1..]);
      assert before + EncodeAll(fs) == before + f.Encode() + rest by { Reassociate(before, f.Encode(), rest); }
      FieldRoundTrip(f, before, rest, kind);
      FoldOne(before + EncodeAll(fs), |before|, kind, step, acc, f, |before + f.Encode()|);
      var s := step(acc, f.num, ItemOf(f, kind));
      if s.Ok? {
        FoldRoundTrip(fs[1..], before + f.Encode(), kind, step, s.value);
      }
    }
  }

  /** Folding from a field that reads back applies the step to it and goes on after it. */
  lemma FoldOne<T>(b: Bytes, off: nat, kind: nat -> Kind, step: (T, nat, Item) -> Result<T>, acc: T, f: Field, next: nat)
    requires off < next <= |b|
    requires FieldAt(b, off, kind) == Ok((f.num, ItemOf(f, kind), next))
    ensures var s := step(acc, f.num, ItemOf(f, kind));
      Fold(b, off, kind, step, acc) == if s.Ok? then Fold(b, next, kind, step, s.value) else Err(s.error)
  {
    hide FieldAt;
  }

  lemma Reassociate(a: Bytes, b: Bytes, c: Bytes)
    ensures a + (b + c) == a + b + c
  {
  }

  // ---------- the reader object ----------

  /** A cursor over one message. Every call keeps the offset within the buffer; a call that
      fails leaves it somewhere within the buffer, and no caller reads on after a failure. */
  class Reader {
    const b: Bytes
    var off: nat

    constructor (data: Bytes)
      ensures b == data && off == 0
    {
      b := data;
      off := 0;
    }

    ghost predicate Valid()
      reads this
    {
      off <= |b|
    }

    predicate Done()
      requires Valid()
      reads this
    {
      off >= |b|
    }

    /** At most ten bytes, accumulated with or and shift as in the source. */
    method Varint() returns (r: Result<nat>)
      requires Valid()
      modifies this`off
      ensures Valid() && old(off) <= off
      ensures match VarintAt(b, old(off), 0)
              case Ok((v, next)) => r == Ok(v) && off == next
              case Err(e) => r == Err(e)
    {
      var value: nat := 0;
      var shift: nat := 0;
      ghost var start := off;
      for index := 0 to 10
        invariant off == start + index <= |b|
        invariant shift == 7 * index
        invariant Accumulated(b, start, value, index)
      {
        if off >= |b| {
          return Err(Truncated);
        }
        var current := b[off];
        off := off + 1;
        if current < 0x80 {
          if index == 9 && current > 1 {
            return Err(BadVarint);
          }
          OrShifted(value, current, index);
          return Ok(BitOr(value, Shl64(current, shift)));
        }
        GroupRead(b, start, value, index);
        value := BitOr(value, Shl64(current % 0x80, shift));
        shift := shift + 7;
      }
      return Err(BadVarint);
    }

    method Bytes() returns (r: Result<Bytes>)
      requires Valid()
      modifies this`off
      ensures Valid() && old(off) <= off
      ensures match BytesAt(b, old(off))
              case Ok((data, next)) => r == Ok(data) && off == next
              case Err(e) => r == Err(e)
    {
      VarintProgress(b, off, 0);
      var length := Varint();
      if length.Err? {
        return Err(length.error);
      }
      if length.value > |b| - off {
        return Err(Truncated);
      }
      r := Ok(b[off..off + length.value]);
      off := off + length.value;
    }

    method Skip(wire: nat) returns (r: Result<()>)
      requires Valid()
      modifies this`off
      ensures Valid() && old(off) <= off
      ensures match SkipAt(b, old(off), wire)
              case Ok(next) => r == Ok(()) && off == next
              case Err(e) => r == Err(e)
    {
      match wire {
        case 0 =>
          var v := Varint();
          r := if v.Err? then Err(v.error) else Ok(());
        case 1 =>
          if |b| - off < 8 { return Err(Truncated); }
          off := off + 8;
          r := Ok(());
        case 2 =>
          var v := Bytes();
          r := if v.Err? then Err(v.error) else Ok(());
        case 5 =>
          if |b| - off < 4 { return Err(Truncated); }
          off := off + 4;
          r := Ok(());
        case _ =>
          r := Err(BadWireType);
      }
    }

    method NextField() returns (r: Result<(nat, nat)>)
      requires Valid()
      modifies this`off
      ensures Valid() && old(off) <= off
      ensures match VarintAt(b, old(off), 0)
              case Ok((tag, next)) => r == Ok((tag / 8, tag % 8)) && off == next && off > old(off)
              case Err(e) => r == Err(e)
    {
      VarintProgress(b, off, 0);
      var tag := Varint();
      r := if tag.Err? then Err(tag.error) else Ok((tag.value / 8, tag.value % 8));
    }

    /** One field: its tag, then its payload as `kind` says. */
    method Field(kind: nat -> Kind) returns (r: Result<(nat, Item)>)
      requires Valid()
      modifies this`off
      ensures Valid() && old(off) <= off
      ensures match FieldAt(b, old(off), kind)
              case Ok((num, item, next)) => r == Ok((num, item)) && off == next
              case Err(e) => r == Err(e)
    {
      var tag := NextField();
      if tag.Err? {
        return Err(tag.error);
      }
      var (num, wire) := tag.value;
      match kind(num) {
        case IntKind =>
          if wire != 0 { return Err(WireMismatch); }
          var v := Varint();
          r := if v.Err? then Err(v.error) else Ok((num, IntItem(v.value)));
        case BytesKind =>
          if wire != 2 { return Err(WireMismatch); }
          var v := Bytes();
          r := if v.Err? then Err(v.error) else Ok((num, BytesItem(v.value)));
        case AnyBytesKind =>
          var v := Bytes();
          r := if v.Err? then Err(v.error) else Ok((num, BytesItem(v.value)));
        case SkipKind =>
          var v := Skip(wire);
          r := if v.Err? then Err(v.error) else Ok((num, SkippedItem));
      }
    }
  }

  /** One or-and-shift step of the loop adds the group at its place, and no bit is lost. */
  lemma OrShifted(value: nat, group: nat, index: nat)
    requires index < 10 && value < Pow128(index) && group < 0x80 && (index == 9 ==> group <= 1)
    ensures BitOr(value, Shl64(group, 7 * index)) == value + group * Pow128(index)
  {
    var s := 7 * index;
    assert Pow2(s) == Pow128(index) by { Pow2Is128(index); }
    assert Shl64(group, s) == group * Pow2(s) by { FitsUnshifted(group, index, s); }
    OrIntoClearBits(value, group, s);
  }

  lemma FitsUnshifted(group: nat, index: nat, s: nat)
    requires index < 10 && group < 0x80 && (index == 9 ==> group <= 1) && Pow2(s) == Pow128(index)
    ensures Shl64(group, s) == group * Pow2(s)
  {
    SmallGroupFits(group, index);
  }

  /** The loop state of `Varint`: `index` continuation bytes from `start` are folded into `value`. */
  ghost predicate Accumulated(b: Bytes, start: nat, value: nat, index: nat) {
    && start + index <= |b| && index <= 10
    && (index < 10 ==> value < Pow128(index))
    && (index < 10 ==> VarintAt(b, start, 0) == Continue(value, index, VarintAt(b, start + index, index)))
    && (index == 10 ==> VarintAt(b, start, 0) == Err(BadVarint))
  }

  /** Reading one more continuation byte keeps the loop state. */
  lemma GroupRead(b: Bytes, start: nat, value: nat, index: nat)
    requires Accumulated(b, start, value, index) && index < 10
    requires start + index < |b| && b[start + index] >= 0x80
    ensures Accumulated(b, start, BitOr(value, Shl64(b[start + index] % 0x80, 7 * index)), index + 1)
  {
    var group := b[start + index] % 0x80;
    var rest := VarintAt(b, start + index + 1, index + 1);
    assert VarintAt(b, start + index, index) == Prepend(group, rest);
    if index < 9 {
      OrShifted(value, group, index);
      NextGroup(value, group, index, rest);
    }
  }

  /** The varint whose first `index` groups denote `value` and whose remaining ones are `rest`. */
  ghost function Continue(value: nat, index: nat, rest: Result<(nat, nat)>): Result<(nat, nat)> {
    match rest
    case Ok((v, next)) => Ok((value + v * Pow128(index), next))
    case Err(e) => Err(e)
  }

  lemma NextGroup(value: nat, group: nat, index: nat, rest: Result<(nat, nat)>)
    requires value < Pow128(index) && group < 0x80
    ensures value + group * Pow128(index) < Pow128(index + 1)
    ensures Continue(value, index, Prepend(group, rest)) == Continue(value + group * Pow128(index), index + 1, rest)
  {
    MulMono(group, 0x7f, Pow128(index), Pow128(index));
    if rest.Ok? {
      var v := rest.value.0;
      assert (group + 0x80 * v) * Pow128(index) == group * Pow128(index) + v * (0x80 * Pow128(index));
    }
  }

  ghost function Prepend(group: nat, rest: Result<(nat, nat)>): Result<(nat, nat)> {
    match rest
    case Ok((v, next)) => Ok((group + 0x80 * v, next))
    case Err(e) => Err(e)
  }
}
