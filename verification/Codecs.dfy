/** Self-delimiting encodings: dataset descriptors, directory listings and attribute integers. */
module Codecs {
  import opened Protocol
  import T = ObjectTable
  import opened Wire

  // ---------- Dataset descriptors ----------

  datatype Element = Element(code: Octet, dataType: Octet, maxLength: Octet, ancillary: seq<Octet>)

  const MAX_ANCILLARY := 252

  function ElementOctets(e: Element): seq<Octet>
    requires |e.ancillary| <= MAX_ANCILLARY
  {
    [3 + |e.ancillary|, e.code, e.dataType, e.maxLength] + e.ancillary
  }

  /** Encodes elements one after another, refusing one too long for its length octet. */
  function AppendElements(es: seq<Element>): Option<seq<Octet>> {
    if es == [] then Some([])
    else if |es[0].ancillary| > MAX_ANCILLARY then None
    else
      match AppendElements(es[1..])
      case None => None
      case Some(rest) => Some(ElementOctets(es[0]) + rest)
  }

  function ParseElements(data: seq<Octet>): Option<seq<Element>> {
    if data == [] then Some([])
    else
      var n: int := data[0];
      if n < 3 || n >= |data| then None
      else
        match ParseElements(data[n + 1..])
        case None => None
        case Some(rest) => Some([Element(data[1], data[2], data[3], data[4..n + 1])] + rest)
  }

  /** What is printed parses back, whenever it can be printed. */
  lemma {:induction false} PrintThenParse(es: seq<Element>)
    requires AppendElements(es).Some?
    ensures ParseElements(AppendElements(es).value) == Some(es)
  {
    if es != [] {
      PrintThenParse(es[1..]);
      var e, rest := es[0], AppendElements(es[1..]).value;
      var data := ElementOctets(e) + rest;
      var n := 3 + |e.ancillary|;
      assert data[n + 1..] == rest && data[4..n + 1] == e.ancillary;
      assert es == [e] + es[1..];
    }
  }

  /** What parses prints back, octet for octet. */
  lemma {:induction false} ParseThenPrint(data: seq<Octet>)
    requires ParseElements(data).Some?
    ensures AppendElements(ParseElements(data).value) == Some(data)
  {
    if data != [] {
      var n: int := data[0];
      ParseThenPrint(data[n + 1..]);
      var es := ParseElements(data).value;
      assert es[1..] == ParseElements(data[n + 1..]).value;
      assert data == [data[0], data[1], data[2], data[3]] + data[4..n + 1] + data[n + 1..];
    }
  }

  /** What is left to parse, after elements already parsed. */
  function Onto(out: seq<Element>, rest: Option<seq<Element>>): Option<seq<Element>> {
    match rest
    case None => None
    case Some(es) => Some(out + es)
  }

  /** The parsing loop. */
  method ParseDescriptor(input: seq<Octet>) returns (r: Option<seq<Element>>)
    ensures r == ParseElements(input)
  {
    var data, out: seq<Element> := input, [];
    OntoNothing(ParseElements(input));
    while |data| > 0
      invariant ParseElements(input) == Onto(out, ParseElements(data))
    {
      var n: int := data[0];
      if n < 3 || n >= |data| { return None; }
      var e := Element(data[1], data[2], data[3], data[4..n + 1]);
      Reassociate(out, e, ParseElements(data[n + 1..]));
      out := out + [e];
      data := data[n + 1..];
    }
    assert out + [] == out;
    return Some(out);
  }

  lemma OntoNothing(rest: Option<seq<Element>>)
    ensures Onto([], rest) == rest
  {
    if rest.Some? { assert [] + rest.value == rest.value; }
  }

  lemma Reassociate(out: seq<Element>, e: Element, rest: Option<seq<Element>>)
    ensures rest.Some? ==> out + ([e] + rest.value) == (out + [e]) + rest.value
  {
  }

  // ---------- Directory listings ----------

  const DESCRIPTOR_SIZE := 20
  const UINT48: nat := 0x1_0000_0000_0000

  /** One file as a directory reports it. `created` is in nanoseconds since the start of 1970,
      before or after; a file with no creation time has none. */
  datatype Descriptor = Descriptor(
    name: seq<Octet>, kind: nat, size: nat, created: Option<int>, permissions: nat, requestId: nat)

  predicate InRange(d: Descriptor) {
    d.kind < 0x1_0000 && d.size < 0x1_0000_0000 && d.permissions < 0x1_0000 && d.requestId < 0x1_0000
  }

  /** A creation time on the wire: whole milliseconds, clamped to 48 bits, and zero for none. */
  function WireCreated(created: Option<int>): (ms: nat)
    ensures ms < UINT48
  {
    match created
    case None => 0
    case Some(ns) => T.WireTime(T.FloorMs(ns))
  }

  function Fixed(d: Descriptor): (s: seq<Octet>)
    ensures |s| == DESCRIPTOR_SIZE
  {
    LittleEndian(DESCRIPTOR_SIZE, 2) + LittleEndian(|d.name| % 0x1_0000, 2) + LittleEndian(d.kind, 2)
    + LittleEndian(d.size, 4) + LittleEndian(WireCreated(d.created), 6)
    + LittleEndian(d.permissions, 2) + LittleEndian(d.requestId, 2)
  }

  function AppendDescriptor(d: Descriptor): seq<Octet> {
    Fixed(d) + d.name
  }

  /** The string an object points at; none when it lies inside the fixed part or past the end. */
  function SliceString(buf: seq<Octet>, offset: nat, size: nat, fixed: nat): Option<seq<Octet>> {
    if size == 0 then Some([])
    else if offset < fixed || offset + size > |buf| then None
    else Some(buf[offset..offset + size])
  }

  datatype Entry = Entry(d: Descriptor, used: nat)

  function FileTime(ms: nat): Option<int> {
    if ms == 0 then None else Some(ms * T.NS_PER_MS)
  }

  /** One descriptor and how far it reaches, which is never less than its fixed part. */
  function ParseEntry(buf: seq<Octet>): (r: Option<Entry>)
    ensures r.Some? ==> r.value.used >= DESCRIPTOR_SIZE
  {
    if |buf| < DESCRIPTOR_SIZE then None
    else
      var offset, size := ReadLittleEndian(buf[..2]), ReadLittleEndian(buf[2..4]);
      match SliceString(buf, offset, size, DESCRIPTOR_SIZE)
      case None => None
      case Some(name) =>
        Some(Entry(Descriptor(name, ReadLittleEndian(buf[4..6]), ReadLittleEndian(buf[6..10]),
                              FileTime(ReadLittleEndian(buf[10..16])), ReadLittleEndian(buf[16..18]),
                              ReadLittleEndian(buf[18..20])),
                   if offset + size > DESCRIPTOR_SIZE then offset + size else DESCRIPTOR_SIZE))
  }

  function ParseDirectory(data: seq<Octet>): Option<seq<Descriptor>>
    decreases |data|
  {
    if data == [] then Some([])
    else
      match ParseEntry(data)
      case None => None
      case Some(e) =>
        match ParseDirectory(if e.used < |data| then data[e.used..] else [])
        case None => None
        case Some(rest) => Some([e.d] + rest)
  }

  lemma Widths()
    ensures Pow256(2) == 0x1_0000 && Pow256(4) == 0x1_0000_0000 && Pow256(6) == UINT48
  {
    assert Pow256(3) == 0x100_0000;
    assert Pow256(5) == 0x100_0000_0000;
  }

  /** The fields of a descriptor, read back from its fixed part whatever follows. */
  lemma FieldsBack(d: Descriptor, tail: seq<Octet>)
    requires InRange(d)
    ensures var buf := Fixed(d) + tail;
      && ReadLittleEndian(buf[..2]) == DESCRIPTOR_SIZE && ReadLittleEndian(buf[2..4]) == |d.name| % 0x1_0000
      && ReadLittleEndian(buf[4..6]) == d.kind && ReadLittleEndian(buf[6..10]) == d.size
      && ReadLittleEndian(buf[10..16]) == WireCreated(d.created)
      && ReadLittleEndian(buf[16..18]) == d.permissions && ReadLittleEndian(buf[18..20]) == d.requestId
  {
    hide LittleEndian, ReadLittleEndian, Pow256;
    Widths();
    LittleEndianRoundTrip(DESCRIPTOR_SIZE, 2);
    LittleEndianRoundTrip(|d.name| % 0x1_0000, 2);
    LittleEndianRoundTrip(d.kind, 2);
    LittleEndianRoundTrip(d.size, 4);
    LittleEndianRoundTrip(WireCreated(d.created), 6);
    LittleEndianRoundTrip(d.permissions, 2);
    LittleEndianRoundTrip(d.requestId, 2);
    FieldsAt(d, tail);
  }

  lemma FieldsAt(d: Descriptor, tail: seq<Octet>)
    ensures var buf := Fixed(d) + tail;
      && buf[..2] == LittleEndian(DESCRIPTOR_SIZE, 2) && buf[2..4] == LittleEndian(|d.name| % 0x1_0000, 2)
      && buf[4..6] == LittleEndian(d.kind, 2) && buf[6..10] == LittleEndian(d.size, 4)
      && buf[10..16] == LittleEndian(WireCreated(d.created), 6)
      && buf[16..18] == LittleEndian(d.permissions, 2) && buf[18..20] == LittleEndian(d.requestId, 2)
  {
    hide LittleEndian;
  }

  /** A creation time that comes back: a whole number of milliseconds, after the start of 1970,
      which stands for none, and no later than 48 bits reach. */
  predicate TimeListable(created: Option<int>) {
    created.Some? ==> created.value % T.NS_PER_MS == 0 && 0 < T.FloorMs(created.value) < UINT48
  }

  lemma TimeBackIff(created: Option<int>)
    ensures FileTime(WireCreated(created)) == created <==> TimeListable(created)
  {
  }

  /** What survives a listing: a name of at most 65535 octets, and a creation time that does. */
  predicate Listable(d: Descriptor) {
    |d.name| <= 0xFFFF && TimeListable(d.created)
  }

  /** One entry comes back, wherever it is in the listing, if and only if it is listable, and then
      is read to its end. */
  lemma EntryRoundTrip(d: Descriptor, tail: seq<Octet>)
    requires InRange(d)
    ensures var r := ParseEntry(AppendDescriptor(d) + tail);
      && (r.Some? && r.value.d == d <==> Listable(d))
      && (Listable(d) ==> r == Some(Entry(d, DESCRIPTOR_SIZE + |d.name|)))
  {
    hide LittleEndian, ReadLittleEndian, Fixed, FileTime, TimeListable;
    var buf := AppendDescriptor(d) + tail;
    assert buf == Fixed(d) + (d.name + tail);
    FieldsBack(d, d.name + tail);
    TimeBackIff(d.created);
    var size := |d.name| % 0x1_0000;
    assert buf[DESCRIPTOR_SIZE..DESCRIPTOR_SIZE + |d.name|] == d.name;
    assert size > 0 ==> buf[DESCRIPTOR_SIZE..DESCRIPTOR_SIZE + size] == d.name[..size];
  }

  function Listing(ds: seq<Descriptor>): seq<Octet> {
    if ds == [] then [] else AppendDescriptor(ds[0]) + Listing(ds[1..])
  }

  /** A directory's contents list the files they were made from if and only if every one of them
      is listable. */
  lemma {:induction false} ListingRoundTrip(ds: seq<Descriptor>)
    requires forall i :: 0 <= i < |ds| ==> InRange(ds[i])
    ensures ParseDirectory(Listing(ds)) == Some(ds) <==> forall i :: 0 <= i < |ds| ==> Listable(ds[i])
  {
    hide ParseEntry, InRange, Listable, Fixed;
    if ds != [] {
      var rest := ds[1..];
      ListingRoundTrip(rest);
      EntryRoundTrip(ds[0], Listing(rest));
      var data := Listing(ds);
      assert |AppendDescriptor(ds[0])| == DESCRIPTOR_SIZE + |ds[0].name|;
      assert data[DESCRIPTOR_SIZE + |ds[0].name|..] == Listing(rest);
      assert ds == [ds[0]] + rest;
      assert forall i :: 0 <= i < |rest| ==> rest[i] == ds[i + 1];
      if ParseDirectory(data) == Some(ds) {
        var e := ParseEntry(data).value;
        var later := ParseDirectory(if e.used < |data| then data[e.used..] else []);
        assert ([e.d] + later.value)[0] == ds[0] && ([e.d] + later.value)[1..] == rest;
        assert later == Some(rest);
        forall i | 0 <= i < |ds| ensures Listable(ds[i]) {
          if i > 0 { assert Listable(rest[i - 1]); }
        }
      }
    }
  }

  /** On any input, every entry of a listing takes at least twenty octets, so there are never
      more entries than that allows. */
  lemma {:induction false} EntriesTakeRoom(data: seq<Octet>)
    requires ParseDirectory(data).Some?
    ensures DESCRIPTOR_SIZE * |ParseDirectory(data).value| <= |data| + DESCRIPTOR_SIZE - 1
    ensures data == [] <==> ParseDirectory(data).value == []
    decreases |data|
  {
    hide SliceString, ReadLittleEndian, FileTime;
    if data != [] {
      var e := ParseEntry(data).value;
      if e.used < |data| { EntriesTakeRoom(data[e.used..]); }
    }
  }

  // ---------- Attribute integers ----------

  /** The octets a width takes, and the numbers it holds. */
  predicate Holds(width: nat, signed: bool, v: int) {
    match width
    case 1 => if signed then -0x80 <= v < 0x80 else 0 <= v < 0x100
    case 2 => if signed then -0x8000 <= v < 0x8000 else 0 <= v < 0x1_0000
    case 4 => if signed then -0x8000_0000 <= v < 0x8000_0000 else 0 <= v < 0x1_0000_0000
    case 8 => -0x8000_0000_0000_0000 <= v < 0x8000_0000_0000_0000
    case _ => false
  }

  function NarrowWidth(v: int, signed: bool): nat {
    if Holds(1, signed, v) then 1 else if Holds(2, signed, v) then 2 else if Holds(4, signed, v) then 4 else 8
  }

  function Range(width: nat): nat {
    match width
    case 1 => 0x100
    case 2 => 0x1_0000
    case 4 => 0x1_0000_0000
    case _ => 0x1_0000_0000_0000_0000
  }

  /** The narrowest encoding of a 64-bit number. */
  function AppendNarrowInt(v: int, signed: bool): seq<Octet>
    requires Holds(8, true, v)
  {
    var width := NarrowWidth(v, signed);
    LittleEndian(if v < 0 then v + Range(width) else v, width)
  }

  /** A number as its width and sign say, held in 64 bits; none for a width nobody expects. */
  function ParseInt(s: seq<Octet>, signed: bool): Option<int> {
    if |s| != 1 && |s| != 2 && |s| != 4 && |s| != 8 then None
    else
      var n := ReadLittleEndian(s);
      if (signed || |s| == 8) && n >= Range(|s|) / 2 then Some(n - Range(|s|)) else Some(n)
  }

  lemma RangeIsPower(width: nat)
    requires width == 1 || width == 2 || width == 4 || width == 8
    ensures Range(width) == Pow256(width)
  {
    Widths();
    assert Pow256(1) == 0x100 && Pow256(7) == 0x100 * Pow256(6) && Pow256(8) == 0x100 * Pow256(7);
  }

  /** Every 64-bit integer comes back, signed or not, from the narrowest width that holds it. */
  lemma NarrowIntRoundTrip(v: int, signed: bool)
    requires Holds(8, true, v)
    ensures ParseInt(AppendNarrowInt(v, signed), signed) == Some(v)
    ensures forall w: nat :: w < |AppendNarrowInt(v, signed)| ==> !Holds(w, signed, v)
  {
    hide LittleEndian, ReadLittleEndian, Pow256;
    var width := NarrowWidth(v, signed);
    var n := if v < 0 then v + Range(width) else v;
    RangeIsPower(width);
    LittleEndianRoundTrip(n, width);
  }

  // ---------- Attribute lists ----------

  const ATTRIBUTE_LIST: Octet := 254
  const EXTENDED_LIST: Octet := 255

  datatype Item = Item(variation: Octet, writable: bool)

  /** Two octets for each attribute a device implements. */
  function ListOctets(items: seq<Item>): (s: seq<Octet>)
    ensures |s| == 2 * |items|
  {
    if items == [] then []
    else ListOctets(items[..|items| - 1]) + [items[|items| - 1].variation, if items[|items| - 1].writable then 1 else 0]
  }

  function ItemAt(s: seq<Octet>, i: nat): Item
    requires 2 * i + 1 < |s|
  {
    Item(s[2 * i], s[2 * i + 1] % 2 == 1)
  }

  /** A list in the plain form when it fits, and otherwise in the extended one, whose length
      counts from 256. */
  function AppendList(octets: seq<Octet>): Option<seq<Octet>> {
    if |octets| % 2 != 0 || |octets| > 511 then None
    else if |octets| > 255 then Some([EXTENDED_LIST, |octets| - 256] + octets)
    else Some([ATTRIBUTE_LIST, |octets|] + octets)
  }

  /** The value of an attribute and how far it reaches. */
  function ParseValue(buf: seq<Octet>): Option<(seq<Octet>, nat)> {
    if |buf| < 2 then None
    else
      var length: int := buf[1];
      var size := length + if buf[0] == EXTENDED_LIST then 256 else 0;
      if 2 + size > |buf| then None else Some((buf[2..2 + size], 2 + size))
  }

  lemma {:induction false} ItemsBack(items: seq<Item>, i: nat)
    requires i < |items|
    ensures ItemAt(ListOctets(items), i) == items[i]
  {
    if i < |items| - 1 { ItemsBack(items[..|items| - 1], i); }
  }

  /** A list of attributes can be sent if and only if it has at most 255 of them, and then every
      one comes back, whatever follows it. */
  lemma ListRoundTrip(items: seq<Item>, rest: seq<Octet>)
    ensures AppendList(ListOctets(items)).Some? <==> |items| <= 255
    ensures |items| <= 255 ==>
      var sent := AppendList(ListOctets(items)).value;
      && ParseValue(sent + rest) == Some((ListOctets(items), |sent|))
      && forall i :: 0 <= i < |items| ==> ItemAt(ListOctets(items), i) == items[i]
  {
    hide ListOctets;
    var octets := ListOctets(items);
    forall i | 0 <= i < |items| ensures ItemAt(octets, i) == items[i] { ItemsBack(items, i); }
    if |items| <= 255 {
      var sent := AppendList(octets).value;
      assert (sent + rest)[2..2 + |octets|] == octets;
    }
  }
}
