/** Object sizes, time fields and relative times, as both ends of a link know them. */
module ObjectTable {
  import opened Protocol
  import opened Events
  import opened Wire

  // ---------- Time ----------

  const NS_PER_MS := 1_000_000
  const MAX_DNP3_TIME := 0xFFFF_FFFF_FFFF

  /** The millisecond an instant falls in. */
  function FloorMs(ns: int): int {
    ns / NS_PER_MS
  }

  /** Whole milliseconds of a duration, truncated toward zero. */
  function Milliseconds(d: int): int {
    if d >= 0 then d / NS_PER_MS else -((-d) / NS_PER_MS)
  }

  /** A millisecond as the 48 bits on the wire, clamped at both ends. */
  function WireTime(ms: int): nat {
    if ms < 0 then 0 else if ms > MAX_DNP3_TIME then MAX_DNP3_TIME else ms
  }

  predicate Representable(ms: int) {
    0 <= ms <= MAX_DNP3_TIME
  }

  /** The sixteen-bit offset of an event from a common time of occurrence. */
  function RelativeOffset(time: Timestamp, base: int): Index16 {
    match time
    case NoTime => 0
    case At(ns) =>
      var delta := Milliseconds(ns - base * NS_PER_MS);
      if delta < 0 then 0 else if delta > 0xFFFF then 0xFFFF else delta
  }

  // ---------- The object table ----------

  /** The object table and the fixed-layout encoders. `write` gives the octets of one object
      except the trailing offset of a relative-time variation. */
  datatype Codec = Codec(
    sizes: Sizes, relative: set<(Octet, Octet)>,
    write: (Octet, Octet, Measurement, Timestamp) -> seq<Octet>)

  function SizeOctets(c: Codec, group: Octet, variation: Octet): nat {
    if (group, variation) in c.sizes && c.sizes[(group, variation)] % 8 == 0
    then c.sizes[(group, variation)] / 8 else 0
  }

  ghost predicate ValidCodec(c: Codec) {
    && (51, 1) in c.sizes && c.sizes[(51, 1)] == 48
    && (51, 2) in c.sizes && c.sizes[(51, 2)] == 48
    && (forall g: Octet, v: Octet, m, t {:trigger c.write(g, v, m, t)} :: SizeOctets(c, g, v) > 0 ==>
          |c.write(g, v, m, t)| + (if (g, v) in c.relative then 2 else 0) == SizeOctets(c, g, v))
    && (forall g: Octet :: SizeOctets(c, g, 0) == 0)
    && (forall p :: p in c.relative ==> p.0 !in {110, 111, 112, 113})
  }
}
