/** Object headers as they travel: how the outstation writes them and how a master walks a
    fragment back into them. */
module Wire {
  import opened Protocol
  import opened Joining

  const RESPONSE_HEADER_SIZE := 4
  const OBJECT_HEADER_SIZE := 3
  const TIME48_SIZE := 6
  const REQUEST_HEADER_SIZE := 2
  const DEFAULT_MAX_FRAGMENT := 2048

  // ---------- Little-endian integers ----------

  function LE16(n: int): seq<Octet>
    requires 0 <= n < 0x1_0000
  {
    [n % 0x100, n / 0x100]
  }

  function ReadLE16(s: seq<Octet>): Index16
    requires |s| >= 2
  {
    var low: int, high: int := s[0], s[1];
    low + 0x100 * high
  }

  /** The low `k` octets of `n`, least significant first. */
  function LittleEndian(n: nat, k: nat): (s: seq<Octet>)
    ensures |s| == k
  {
    if k == 0 then [] else [n % 0x100] + LittleEndian(n / 0x100, k - 1)
  }

  function ReadLittleEndian(s: seq<Octet>): nat {
    if s == [] then 0 else s[0] + 0x100 * ReadLittleEndian(s[1..])
  }

  function Pow256(k: nat): nat {
    if k == 0 then 1 else 0x100 * Pow256(k - 1)
  }

  lemma {:induction false} LittleEndianRoundTrip(n: nat, k: nat)
    requires n < Pow256(k)
    ensures ReadLittleEndian(LittleEndian(n, k)) == n
  {
    if k > 0 { LittleEndianRoundTrip(n / 0x100, k - 1); }
  }

  // ---------- Qualifiers and ranges ----------

  datatype Prefix = PrefixNone | PrefixIndex1 | PrefixIndex2 | PrefixIndex4 | PrefixSize2 {
    function Octets(): nat {
      match this
      case PrefixNone => 0
      case PrefixIndex1 => 1
      case PrefixIndex2 => 2
      case PrefixIndex4 => 4
      case PrefixSize2 => 2
    }

    function Code(): Octet {
      match this
      case PrefixNone => 0
      case PrefixIndex1 => 1
      case PrefixIndex2 => 2
      case PrefixIndex4 => 3
      case PrefixSize2 => 5
    }

    predicate IsIndex() {
      PrefixIndex1? || PrefixIndex2? || PrefixIndex4?
    }
  }

  function PrefixOf(code: int): Option<Prefix> {
    match code
    case 0 => Some(PrefixNone)
    case 1 => Some(PrefixIndex1)
    case 2 => Some(PrefixIndex2)
    case 3 => Some(PrefixIndex4)
    case 5 => Some(PrefixSize2)
    case _ => None
  }

  datatype RangeSpec = StartStop8 | StartStop16 | Count8 | Count16 | Variable {
    function Octets(): nat {
      match this
      case StartStop8 => 2
      case StartStop16 => 4
      case Count8 => 1
      case Count16 => 2
      case Variable => 1
    }

    function Code(): Octet {
      match this
      case StartStop8 => 0
      case StartStop16 => 1
      case Count8 => 7
      case Count16 => 8
      case Variable => 11
    }
  }

  function SpecOf(code: int): Option<RangeSpec> {
    match code
    case 0 => Some(StartStop8)
    case 1 => Some(StartStop16)
    case 7 => Some(Count8)
    case 8 => Some(Count16)
    case 11 => Some(Variable)
    case _ => None
  }

  /** An inclusive index range, or a plain count of objects. */
  datatype Range = StartStop(start: nat, stop: nat) | Count(count: nat) {
    function Objects(): nat {
      match this
      case StartStop(start, stop) => if start <= stop then stop - start + 1 else 0
      case Count(count) => count
    }
  }

  datatype ObjectHeader = ObjectHeader(
    group: Octet, variation: Octet, prefix: Prefix, spec: RangeSpec, range: Range, data: seq<Octet>)

  function Size(h: ObjectHeader): nat {
    OBJECT_HEADER_SIZE + h.spec.Octets() + |h.data|
  }

  // ---------- Writing ----------

  function RangeOctets(spec: RangeSpec, range: Range): (s: seq<Octet>)
    ensures |s| == spec.Octets()
  {
    var (a, b) := match range case StartStop(start, stop) => (start, stop) case Count(count) => (count, 0);
    match spec
    case StartStop8 => [a % 0x100, b % 0x100]
    case StartStop16 => LE16(a % 0x1_0000) + LE16(b % 0x1_0000)
    case Count8 => [a % 0x100]
    case Count16 => LE16(a % 0x1_0000)
    case Variable => [a % 0x100]
  }

  function Encode(h: ObjectHeader): (s: seq<Octet>)
    ensures |s| == Size(h)
  {
    [h.group, h.variation, h.prefix.Code() * 0x10 + h.spec.Code()] + RangeOctets(h.spec, h.range) + h.data
  }

  function Encodings(hs: seq<ObjectHeader>): (es: seq<seq<Octet>>)
    ensures |es| == |hs|
  {
    seq(|hs|, i requires 0 <= i < |hs| => Encode(hs[i]))
  }

  /** A fragment's object section: its headers, one after another. */
  function EncodeAll(hs: seq<ObjectHeader>): seq<Octet> {
    Flatten(Encodings(hs))
  }

  function TotalSize(hs: seq<ObjectHeader>): nat {
    if hs == [] then 0 else TotalSize(hs[..|hs| - 1]) + Size(hs[|hs| - 1])
  }

  lemma {:induction false} EncodedSize(hs: seq<ObjectHeader>)
    ensures |EncodeAll(hs)| == TotalSize(hs)
  {
    if hs != [] {
      var init, last := hs[..|hs| - 1], hs[|hs| - 1];
      EncodedSize(init);
      assert Encodings(hs) == Encodings(init) + [Encode(last)];
      FlattenSnoc(Encodings(init), Encode(last));
    }
  }

  // ---------- Reading ----------

  /** How many bits one object of a group and variation takes, where that is fixed. */
  type Sizes = map<(Octet, Octet), nat>

  function SizeBits(sizes: Sizes, group: Octet, variation: Octet): Option<nat> {
    if group in {110, 111, 112, 113} then Some(8 * variation)
    else if (group, variation) in sizes then Some(sizes[(group, variation)])
    else None
  }

  /** Walks `count` objects, each behind its own two-octet size. */
  function SizePrefixedLen(count: nat, buf: seq<Octet>): Option<nat> {
    if count == 0 then Some(0)
    else if |buf| < 2 || |buf| < 2 + ReadLE16(buf) then None
    else
      var n := 2 + ReadLE16(buf);
      match SizePrefixedLen(count - 1, buf[n..])
      case None => None
      case Some(m) => Some(n + m)
  }

  function CheckFits(total: nat, buf: seq<Octet>): Option<nat> {
    if total > |buf| then None else Some(total)
  }

  /** How many octets of `buf` are the data of a response header. */
  function DataLen(
    sizes: Sizes, group: Octet, variation: Octet, prefix: Prefix, count: nat, buf: seq<Octet>): Option<nat>
  {
    if prefix == PrefixSize2 && count > 0 then
      if variation != 0 then SizePrefixedLen(count, buf) else None
    else if variation == 0 || count == 0 then Some(0)
    else
      match SizeBits(sizes, group, variation)
      case None => None
      case Some(bits) =>
        if bits == 0 then Some(0)
        else if bits < 8 then
          if prefix != PrefixNone then None else CheckFits((count * bits + 7) / 8, buf)
        else if bits % 8 != 0 then None
        else CheckFits(count * (prefix.Octets() + bits / 8), buf)
  }

  function ParseRange(spec: RangeSpec, buf: seq<Octet>): Option<Range>
    requires |buf| >= spec.Octets()
  {
    match spec
    case StartStop8 => if buf[0] <= buf[1] then Some(StartStop(buf[0], buf[1])) else None
    case StartStop16 =>
      var start, stop := ReadLE16(buf), ReadLE16(buf[2..]);
      if start <= stop then Some(StartStop(start, stop)) else None
    case Count8 => Some(Count(buf[0]))
    case Count16 => Some(Count(ReadLE16(buf)))
    case Variable => Some(Count(buf[0]))
  }

  datatype Parsed = Parsed(h: ObjectHeader, used: nat)

  /** What follows a header's fixed three octets: its range field and its data. */
  function ParseAfterQualifier(
    sizes: Sizes, group: Octet, variation: Octet, prefix: Prefix, spec: RangeSpec, rest: seq<Octet>): (r: Option<Parsed>)
    ensures r.Some? ==> 0 < r.value.used <= OBJECT_HEADER_SIZE + |rest|
  {
    if |rest| < spec.Octets() then None
    else
      match ParseRange(spec, rest)
      case None => None
      case Some(range) =>
        var data := rest[spec.Octets()..];
        match DataLen(sizes, group, variation, prefix, range.Objects(), data)
        case None => None
        case Some(n) =>
          if n <= |data| then
            Some(Parsed(ObjectHeader(group, variation, prefix, spec, range, data[..n]),
                        OBJECT_HEADER_SIZE + spec.Octets() + n))
          else None
  }

  function ParseHeader(sizes: Sizes, buf: seq<Octet>): (r: Option<Parsed>)
    ensures r.Some? ==> 0 < r.value.used <= |buf|
  {
    if |buf| < OBJECT_HEADER_SIZE then None
    else
      match (PrefixOf(buf[2] / 0x10), SpecOf(buf[2] % 0x10))
      case (Some(prefix), Some(spec)) =>
        ParseAfterQualifier(sizes, buf[0], buf[1], prefix, spec, buf[OBJECT_HEADER_SIZE..])
      case _ => None
  }

  function ParseObjects(sizes: Sizes, buf: seq<Octet>): Option<seq<ObjectHeader>>
    decreases |buf|
  {
    if buf == [] then Some([])
    else
      match ParseHeader(sizes, buf)
      case None => None
      case Some(p) =>
        match ParseObjects(sizes, buf[p.used..])
        case None => None
        case Some(hs) => Some([p.h] + hs)
  }

  // ---------- Walking a fragment recovers what was written ----------

  predicate RangeFits(spec: RangeSpec, range: Range) {
    match spec
    case StartStop8 => range.StartStop? && range.start <= range.stop <= 0xFF
    case StartStop16 => range.StartStop? && range.start <= range.stop <= 0xFFFF
    case Count8 => range.Count? && range.count <= 0xFF
    case Count16 => range.Count? && range.count <= 0xFFFF
    case Variable => range.Count? && range.count <= 0xFF
  }

  /** A header a parser can delimit: its range fits the field and its data is exactly as long
      as the size table says. */
  predicate WellFormed(sizes: Sizes, h: ObjectHeader) {
    && RangeFits(h.spec, h.range)
    && DataLen(sizes, h.group, h.variation, h.prefix, h.range.Objects(), h.data) == Some(|h.data|)
  }

  lemma LE16RoundTrip(n: Index16, rest: seq<Octet>)
    ensures ReadLE16(LE16(n) + rest) == n
  {
  }

  lemma WideRangeRoundTrip(start: Index16, stop: Index16, rest: seq<Octet>)
    requires start <= stop
    ensures ParseRange(StartStop16, LE16(start) + LE16(stop) + rest) == Some(StartStop(start, stop))
  {
    LE16RoundTrip(start, LE16(stop) + rest);
    LE16RoundTrip(stop, rest);
    var buf := LE16(start) + LE16(stop) + rest;
    assert buf == LE16(start) + (LE16(stop) + rest);
    assert buf[2..] == LE16(stop) + rest;
  }

  lemma RangeRoundTrip(spec: RangeSpec, range: Range, rest: seq<Octet>)
    requires RangeFits(spec, range)
    ensures ParseRange(spec, RangeOctets(spec, range) + rest) == Some(range)
  {
    RangeOctetsExact(spec, range);
    match spec
    case StartStop16 => WideRangeRoundTrip(range.start, range.stop, rest);
    case Count16 => LE16RoundTrip(range.count, rest);
    case _ =>
  }

  /** A range that fits its field is written without losing anything. */
  lemma RangeOctetsExact(spec: RangeSpec, range: Range)
    requires RangeFits(spec, range)
    ensures RangeOctets(spec, range) ==
      match spec
      case StartStop8 => [range.start, range.stop]
      case StartStop16 => LE16(range.start) + LE16(range.stop)
      case Count8 => [range.count]
      case Count16 => LE16(range.count)
      case Variable => [range.count]
  {
  }

  lemma {:induction false} SizePrefixedGrows(count: nat, buf: seq<Octet>, rest: seq<Octet>)
    requires SizePrefixedLen(count, buf).Some?
    ensures SizePrefixedLen(count, buf + rest) == SizePrefixedLen(count, buf)
  {
    if count > 0 {
      var n := 2 + ReadLE16(buf);
      SizePrefixedGrows(count - 1, buf[n..], rest);
      assert (buf + rest)[n..] == buf[n..] + rest;
    }
  }

  lemma DataLenGrows(
    sizes: Sizes, group: Octet, variation: Octet, prefix: Prefix, count: nat, buf: seq<Octet>, rest: seq<Octet>)
    requires DataLen(sizes, group, variation, prefix, count, buf).Some?
    ensures DataLen(sizes, group, variation, prefix, count, buf + rest) ==
            DataLen(sizes, group, variation, prefix, count, buf)
  {
    if prefix == PrefixSize2 && count > 0 { SizePrefixedGrows(count, buf, rest); }
  }

  lemma QualifierRoundTrip(prefix: Prefix, spec: RangeSpec)
    ensures var q := prefix.Code() * 0x10 + spec.Code();
      0 <= q < 0x100 && PrefixOf(q / 0x10) == Some(prefix) && SpecOf(q % 0x10) == Some(spec)
  {
  }

  lemma EncodeSlices(h: ObjectHeader, rest: seq<Octet>)
    ensures var buf := Encode(h) + rest;
      && buf[..3] == [h.group, h.variation, h.prefix.Code() * 0x10 + h.spec.Code()]
      && buf[3..] == RangeOctets(h.spec, h.range) + (h.data + rest)
  {
  }

  lemma AfterQualifierRoundTrip(sizes: Sizes, h: ObjectHeader, rest: seq<Octet>)
    requires WellFormed(sizes, h)
    ensures ParseAfterQualifier(sizes, h.group, h.variation, h.prefix, h.spec,
              RangeOctets(h.spec, h.range) + (h.data + rest)) == Some(Parsed(h, Size(h)))
  {
    var range, data := RangeOctets(h.spec, h.range), h.data + rest;
    RangeRoundTrip(h.spec, h.range, data);
    assert (range + data)[h.spec.Octets()..] == data;
    DataLenGrows(sizes, h.group, h.variation, h.prefix, h.range.Objects(), h.data, rest);
    assert data[..|h.data|] == h.data;
  }

  lemma HeaderRoundTrip(sizes: Sizes, h: ObjectHeader, rest: seq<Octet>)
    requires WellFormed(sizes, h)
    ensures ParseHeader(sizes, Encode(h) + rest) == Some(Parsed(h, Size(h)))
  {
    hide ParseAfterQualifier, PrefixOf, SpecOf, RangeOctets, Encode;
    var buf := Encode(h) + rest;
    EncodeSlices(h, rest);
    assert buf[0] == buf[..3][0] && buf[1] == buf[..3][1] && buf[2] == buf[..3][2];
    QualifierRoundTrip(h.prefix, h.spec);
    AfterQualifierRoundTrip(sizes, h, rest);
  }

  lemma ParseCons(sizes: Sizes, h: ObjectHeader, rest: seq<Octet>, tail: seq<ObjectHeader>)
    requires WellFormed(sizes, h)
    requires ParseObjects(sizes, rest) == Some(tail)
    ensures ParseObjects(sizes, Encode(h) + rest) == Some([h] + tail)
  {
    HeaderRoundTrip(sizes, h, rest);
    assert (Encode(h) + rest)[Size(h)..] == rest;
  }

  lemma EncodeCons(hs: seq<ObjectHeader>)
    requires hs != []
    ensures EncodeAll(hs) == Encode(hs[0]) + EncodeAll(hs[1..])
  {
    FlattenCons(Encodings(hs));
    assert Encodings(hs)[1..] == Encodings(hs[1..]);
  }

  ghost predicate AllWellFormed(sizes: Sizes, hs: seq<ObjectHeader>) {
    forall h :: h in hs ==> WellFormed(sizes, h)
  }

  /** Parsing the octets of well-formed headers gives the headers back. */
  lemma {:induction false} ParseEncodeAll(sizes: Sizes, hs: seq<ObjectHeader>)
    requires AllWellFormed(sizes, hs)
    ensures ParseObjects(sizes, EncodeAll(hs)) == Some(hs)
  {
    if hs == [] {
      assert Encodings(hs) == [];
    } else {
      var h, rest := hs[0], hs[1..];
      assert AllWellFormed(sizes, rest);
      ParseEncodeAll(sizes, rest);
      EncodeCons(hs);
      assert h in hs;
      ParseCons(sizes, h, EncodeAll(rest), rest);
      assert [h] + rest == hs;
    }
  }

  // ---------- What a walk returns is well formed ----------

  lemma {:induction false} SizePrefixedShrinks(count: nat, buf: seq<Octet>, n: nat)
    requires SizePrefixedLen(count, buf) == Some(n)
    ensures n <= |buf| && SizePrefixedLen(count, buf[..n]) == Some(n)
  {
    if count > 0 {
      var m := 2 + ReadLE16(buf);
      SizePrefixedShrinks(count - 1, buf[m..], n - m);
      assert buf[..n][m..] == buf[m..][..n - m];
    }
  }

  lemma DataLenShrinks(
    sizes: Sizes, group: Octet, variation: Octet, prefix: Prefix, count: nat, buf: seq<Octet>, n: nat)
    requires DataLen(sizes, group, variation, prefix, count, buf) == Some(n)
    ensures n <= |buf| && DataLen(sizes, group, variation, prefix, count, buf[..n]) == Some(n)
  {
    if prefix == PrefixSize2 && count > 0 { SizePrefixedShrinks(count, buf, n); }
  }

  lemma ParsedHeaderWellFormed(sizes: Sizes, buf: seq<Octet>)
    requires ParseHeader(sizes, buf).Some?
    ensures WellFormed(sizes, ParseHeader(sizes, buf).value.h)
  {
    hide DataLen, SpecOf, PrefixOf;
    var h := ParseHeader(sizes, buf).value.h;
    var data := buf[OBJECT_HEADER_SIZE..][h.spec.Octets()..];
    DataLenShrinks(sizes, h.group, h.variation, h.prefix, h.range.Objects(), data, |h.data|);
  }

  /** Whatever octets parse, the headers they parse into could have been written. */
  lemma {:induction false} ParsedWellFormed(sizes: Sizes, buf: seq<Octet>)
    requires ParseObjects(sizes, buf).Some?
    ensures AllWellFormed(sizes, ParseObjects(sizes, buf).value)
    decreases |buf|
  {
    hide ParseHeader, WellFormed;
    if buf != [] {
      ParsedHeaderWellFormed(sizes, buf);
      ParsedWellFormed(sizes, buf[ParseHeader(sizes, buf).value.used..]);
    }
  }
}
