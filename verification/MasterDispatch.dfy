/** How a master decodes the object headers of one fragment. */
module MasterDispatch {
  import opened Protocol
  import opened Events
  import opened Wire
  import opened ObjectTable
  import P = Packed

  /** One decoded object: where it belongs, its octets, and the time a relative-time variation
      resolves to. */
  datatype Decoded = Decoded(group: Octet, variation: Octet, index: nat, value: seq<Octet>, time: Timestamp)

  /** Resolves an offset against the fragment's common time of occurrence. Without one the
      offset means nothing. */
  function RelativeTime(cto: Timestamp, offset: Index16): Timestamp {
    match cto
    case NoTime => NoTime
    case At(ns) => At(ns + offset * NS_PER_MS)
  }

  function ReadPrefix(buf: seq<Octet>, width: nat): nat
    requires |buf| >= width
  {
    if width == 1 then buf[0]
    else if width == 2 then ReadLE16(buf)
    else if width == 4 then ReadLittleEndian(buf[..4])
    else 0
  }

  function ParseObject(c: Codec, group: Octet, variation: Octet, index: nat, obj: seq<Octet>, cto: Timestamp): Decoded {
    if (group, variation) in c.relative && |obj| >= 2 then
      var n := |obj| - 2;
      Decoded(group, variation, index, obj[..n], RelativeTime(cto, ReadLE16(obj[n..])))
    else
      Decoded(group, variation, index, obj, NoTime)
  }

  /** Walks the objects from number `i` on, taking each index from the range or a prefix. */
  function DecodeObjects(
    c: Codec, h: ObjectHeader, size: nat, prefixLen: nat, cto: Timestamp, i: nat, data: seq<Octet>): seq<Decoded>
    decreases h.range.Objects() - i
  {
    if i >= h.range.Objects() || |data| < prefixLen + size then []
    else
      var index :=
        if prefixLen > 0 then ReadPrefix(data, prefixLen)
        else if h.range.StartStop? then h.range.start + i else i;
      [ParseObject(c, h.group, h.variation, index, data[prefixLen..prefixLen + size], cto)]
      + DecodeObjects(c, h, size, prefixLen, cto, i + 1, data[prefixLen + size..])
  }

  /** The objects of a free-format header, with their size prefixes stripped; none when a size
      runs past the end. */
  function FreeFormatObjects(data: seq<Octet>): Option<seq<seq<Octet>>>
    decreases |data|
  {
    if data == [] then Some([])
    else if |data| < 2 || |data| < 2 + ReadLE16(data) then None
    else
      var n := 2 + ReadLE16(data);
      match FreeFormatObjects(data[n..])
      case None => None
      case Some(rest) => Some([data[2..n]] + rest)
  }

  function Datasets(group: Octet, variation: Octet, objs: seq<seq<Octet>>): seq<Decoded> {
    if objs == [] then [] else [Decoded(group, variation, 0, objs[0], NoTime)] + Datasets(group, variation, objs[1..])
  }

  function DispatchedSize(c: Codec, group: Octet, variation: Octet): nat {
    if group in {110, 111, 112, 113} then variation else SizeOctets(c, group, variation)
  }

  /** The bits a value takes in a bit-packed variation. */
  function PackedWidth(c: Codec, group: Octet, variation: Octet): Option<P.Width> {
    if (group, variation) in c.sizes && c.sizes[(group, variation)] in {1, 2}
    then Some(c.sizes[(group, variation)]) else None
  }

  function DecodePacked(c: Codec, h: ObjectHeader): seq<Decoded> {
    var width := PackedWidth(c, h.group, h.variation);
    if width.None? then []
    else
      var start := if h.range.StartStop? then h.range.start else 0;
      seq(h.range.Objects(), i requires 0 <= i < h.range.Objects() =>
        PackedValue(h, start + i, P.ValueAt(h.data, width.value, i)))
  }

  function PackedValue(h: ObjectHeader, index: nat, value: nat): Decoded {
    Decoded(h.group, h.variation, index, [value % 0x100], NoTime)
  }

  function DispatchHeader(c: Codec, h: ObjectHeader, cto: Timestamp): seq<Decoded> {
    if h.data == [] then []
    else if 85 <= h.group <= 88 then
      match FreeFormatObjects(h.data)
      case None => []
      case Some(objs) => if h.prefix == PrefixSize2 then Datasets(h.group, h.variation, objs) else []
    else
      var size := DispatchedSize(c, h.group, h.variation);
      if size == 0 then DecodePacked(c, h)
      else
        var prefixLen := if h.prefix.IsIndex() then h.prefix.Octets() else 0;
        DecodeObjects(c, h, size, prefixLen, cto, 0, h.data)
  }

  predicate IsCto(h: ObjectHeader) {
    h.group == 51 && |h.data| >= TIME48_SIZE
  }

  /** The common time of occurrence in force after a header. */
  function CtoAfter(h: ObjectHeader, cto: Timestamp): Timestamp {
    if IsCto(h) then At(ReadLittleEndian(h.data[..TIME48_SIZE]) * NS_PER_MS) else cto
  }

  function DeliverHeader(c: Codec, h: ObjectHeader, cto: Timestamp): seq<Decoded> {
    if IsCto(h) then [] else DispatchHeader(c, h, cto)
  }

  /** Everything one fragment delivers, in order. Each fragment is resolved on its own. */
  function Deliver(c: Codec, hs: seq<ObjectHeader>, cto: Timestamp): seq<Decoded> {
    if hs == [] then []
    else
      DeliverHeader(c, hs[0], cto) + Deliver(c, hs[1..], CtoAfter(hs[0], cto))
  }

  function DeliverFragment(c: Codec, octets: seq<Octet>): seq<Decoded> {
    match ParseObjects(c.sizes, octets)
    case None => []
    case Some(hs) => Deliver(c, hs, NoTime)
  }

  function CtoAfterAll(hs: seq<ObjectHeader>, cto: Timestamp): Timestamp {
    if hs == [] then cto else CtoAfterAll(hs[1..], CtoAfter(hs[0], cto))
  }

  lemma {:induction false} DeliverConcat(c: Codec, a: seq<ObjectHeader>, b: seq<ObjectHeader>, cto: Timestamp)
    ensures Deliver(c, a + b, cto) == Deliver(c, a, cto) + Deliver(c, b, CtoAfterAll(a, cto))
  {
    hide DeliverHeader, CtoAfter;
    if a == [] {
      assert a + b == b;
    } else {
      DeliverConcat(c, a[1..], b, CtoAfter(a[0], cto));
      assert (a + b)[1..] == a[1..] + b;
    }
  }

  /** The decoding loop a master runs over one header. */
  method DecodeRun(c: Codec, h: ObjectHeader, size: nat, prefixLen: nat, cto: Timestamp) returns (out: seq<Decoded>)
    ensures out == DecodeObjects(c, h, size, prefixLen, cto, 0, h.data)
  {
    hide ParseObject, ReadPrefix;
    out := [];
    var off: nat, i: nat := 0, 0;
    while i < h.range.Objects() && off + prefixLen + size <= |h.data|
      invariant i <= h.range.Objects() && off <= |h.data|
      invariant DecodeObjects(c, h, size, prefixLen, cto, 0, h.data)
             == out + DecodeObjects(c, h, size, prefixLen, cto, i, h.data[off..])
    {
      var rest := h.data[off..];
      var index := if h.range.StartStop? then h.range.start + i else i;
      if prefixLen > 0 { index := ReadPrefix(rest, prefixLen); }
      var obj := ParseObject(c, h.group, h.variation, index, rest[prefixLen..prefixLen + size], cto);
      assert rest[prefixLen + size..] == h.data[off + prefixLen + size..];
      ghost var later := DecodeObjects(c, h, size, prefixLen, cto, i + 1, rest[prefixLen + size..]);
      assert out + ([obj] + later) == (out + [obj]) + later;
      out, off, i := out + [obj], off + prefixLen + size, i + 1;
    }
  }
}
