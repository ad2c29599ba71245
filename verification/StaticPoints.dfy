/** What the points of a database are reported as: the variation each is reported in, so that no
    flag is hidden, and octet strings, whose variation is their length. */
module StaticPoints {
  import opened Protocol
  import E = Events
  import opened Joining
  import opened Wire
  import opened EventFragments
  import opened ObjectTable
  import opened MasterDispatch
  import opened StaticRanges
  import opened StaticMeaning

  // ---------- The variation a point is reported in ----------

  const ONLINE: Octet := 0x01

  /** The variation that carries the same value with flags, for one that carries none. */
  function WithFlags(kind: E.PointType, variation: Octet): Option<Octet> {
    match kind
    case Binary => if variation == 1 then Some(2) else None
    case DoubleBit => if variation == 1 then Some(2) else None
    case BinaryOutput => if variation == 1 then Some(2) else None
    case Counter => if variation == 5 then Some(1) else if variation == 6 then Some(2) else None
    case FrozenCounter => if variation == 9 then Some(1) else if variation == 10 then Some(2) else None
    case Analog => if variation == 3 then Some(1) else if variation == 4 then Some(2) else None
    case FrozenAnalog => if variation == 5 then Some(1) else if variation == 6 then Some(2) else None
    case _ => None
  }

  /** A point's flags without the bits that carry the state of a binary. */
  function Quality(kind: E.PointType, flags: Octet): Octet {
    match kind
    case Binary => flags % 0x80
    case BinaryOutput => flags % 0x80
    case DoubleBit => flags % 0x40
    case _ => flags
  }

  /** A point as the database has it. `encode` is what it is written as in each variation. */
  datatype Stored = Stored(flags: Octet, configured: Octet, encode: Octet -> Cell)

  /** The variation asked for, or the one configured when none is; but the one with flags instead
      of one without when the point is not normal. */
  function ReportVariation(kind: E.PointType, p: Stored, requested: Octet): Octet {
    var v := if requested != 0 then requested else p.configured;
    var flagged := WithFlags(kind, v);
    if flagged.Some? && Quality(kind, p.flags) != ONLINE then flagged.value else v
  }

  function PointOf(kind: E.PointType, group: Octet, p: Stored, requested: Octet): Point {
    var v := ReportVariation(kind, p, requested);
    Point(group, v, p.encode(v))
  }

  function PointsOf(kind: E.PointType, group: Octet, ps: seq<Stored>, requested: Octet): seq<Point> {
    seq(|ps|, i requires 0 <= i < |ps| => PointOf(kind, group, ps[i], requested))
  }

  /** No read hides a flag. Whatever range and variation a master asks for, everything it decodes
      in a variation without flags is a point whose flags are normal; and a normal point, or one
      asked for with its flags, comes in the variation asked for. */
  lemma NoFlagHidden(c: Codec, maxFragment: int, kind: E.PointType, group: Octet, ps: seq<Stored>,
                     requested: Octet, start: Index16, stop: Index16)
    requires ValidDb(c, PointsOf(kind, group, ps, requested))
    ensures Consistent(PointsOf(kind, group, ps, requested))
    ensures var db := PointsOf(kind, group, ps, requested);
      var ds := Shown(c, Done(BuildStatic(NewBuilder(maxFragment), db, start, stop, false)));
      forall k :: 0 <= k < |ds| ==>
        && start <= ds[k].index < |ps|
        && var p := ps[ds[k].index];
           && ds[k] == Seen(PointOf(kind, group, p, requested), ds[k].index)
           && (WithFlags(kind, ds[k].variation).Some? ==> Quality(kind, p.flags) == ONLINE)
           && (|| Quality(kind, p.flags) == ONLINE
               || WithFlags(kind, if requested != 0 then requested else p.configured).None? ==>
                 ds[k].variation == if requested != 0 then requested else p.configured)
  {
    hide Shown, Done, BuildStatic, Seen, ValidDb, Consistent, Expected, AllFit, SeenAll, EncodeAll, Clipped, PointOf;
    var db := PointsOf(kind, group, ps, requested);
    StaticRangeReported(c, maxFragment, db, start, stop, false);
    var ds := Shown(c, Done(BuildStatic(NewBuilder(maxFragment), db, start, stop, false)));
    forall k | 0 <= k < |ds|
      ensures start <= ds[k].index < |ps|
      ensures ds[k] == Seen(PointOf(kind, group, ps[ds[k].index], requested), ds[k].index)
      ensures ds[k].variation == ReportVariation(kind, ps[ds[k].index], requested)
    {
      SeenVariation(kind, group, ps[ds[k].index], requested, ds[k].index);
    }
  }

  lemma SeenVariation(kind: E.PointType, group: Octet, p: Stored, requested: Octet, index: nat)
    ensures Seen(PointOf(kind, group, p, requested), index).variation == ReportVariation(kind, p, requested)
  {
  }

  // ---------- Octet strings ----------

  /** The octets a string is reported as: its own, or one zero octet when it has none. */
  function Padded(text: seq<Octet>): (data: seq<Octet>)
    ensures data != [] && |data| == if text == [] then 1 else |text|
  {
    if text == [] then [0] else text
  }

  /** A string as a point: its length is its variation. */
  function StringPoint(text: seq<Octet>): Point
    requires |text| <= 0xFF
  {
    Point(110, |Padded(text)|, Octets(Padded(text)))
  }

  function StringPoints(texts: seq<seq<Octet>>): seq<Point>
    requires forall t :: t in texts ==> |t| <= 0xFF
  {
    seq(|texts|, i requires 0 <= i < |texts| => StringPoint(texts[i]))
  }

  lemma StringsValid(c: Codec, texts: seq<seq<Octet>>)
    requires ValidCodec(c) && |texts| <= 0x1_0000 && forall t :: t in texts ==> |t| <= 0xFF
    ensures ValidDb(c, StringPoints(texts))
  {
    forall i | 0 <= i < |texts| ensures ValidPoint(c, StringPoints(texts)[i]) {
      var p := StringPoint(texts[i]);
      assert (p.group, p.variation) !in c.relative;
      assert SizeBits(c.sizes, 110, p.variation) == Some(8 * p.variation);
    }
  }

  /** What a master makes of string `i`. */
  function SeenString(text: seq<Octet>, index: nat): Decoded
    requires |text| <= 0xFF
  {
    Decoded(110, |Padded(text)|, index, Padded(text), E.NoTime)
  }

  /** Whether a string fits a fragment of its own. */
  predicate StringFits(max: nat, text: seq<Octet>) {
    |Padded(text)| + HEADER_OVERHEAD + RESPONSE_HEADER_SIZE <= max
  }

  lemma StringCellFits(max: nat, text: seq<Octet>)
    requires |text| <= 0xFF
    ensures CellFits(max, StringPoint(text).cell) <==> StringFits(max, text)
  {
    var n, room := |Padded(text)|, max - RESPONSE_HEADER_SIZE - HEADER_OVERHEAD;
    if room >= n { assert room / n >= 1; } else if room >= 0 { assert room / n == 0; } else { assert room / n < 0; }
  }

  /** Where a report of the strings from `i` through `stop` ends: at the first there is not, or
      that is too long for a fragment. */
  function ReportEnd(texts: seq<seq<Octet>>, i: nat, stop: nat, max: nat): (m: nat)
    ensures m == i || (i < m <= |texts| && m <= stop + 1)
    ensures forall k :: i <= k < m ==> StringFits(max, texts[k])
    ensures m < |texts| && m <= stop ==> !StringFits(max, texts[m])
    decreases |texts| - i
  {
    if i < |texts| && i <= stop && StringFits(max, texts[i]) then ReportEnd(texts, i + 1, stop, max) else i
  }

  /** The strings of a range come back: every one before the end of the report, once, in order, at
      its own index, with its own octets, an empty one as a single zero octet. */
  lemma StringsReported(c: Codec, maxFragment: int, texts: seq<seq<Octet>>, start: Index16, stop: Index16)
    requires ValidCodec(c) && |texts| <= 0x1_0000 && forall t :: t in texts ==> |t| <= 0xFF
    ensures Consistent(StringPoints(texts))
    ensures var b := NewBuilder(maxFragment);
      var ds := Shown(c, Done(BuildStatic(b, StringPoints(texts), start, stop, true)));
      && |ds| == ReportEnd(texts, start, stop, b.max) - start
      && forall k :: 0 <= k < |ds| ==> ds[k] == SeenString(texts[start + k], start + k)
  {
    hide Shown, Done, BuildStatic, ValidDb, Consistent, CellFits, StringFits, Faithful, EncodeAll, ValidCodec, Reported,
         ReportEnd, StringPoints, Clipped;
    var db, max := StringPoints(texts), NewBuilder(maxFragment).max;
    StringsValid(c, texts);
    StaticRangeReported(c, maxFragment, db, start, stop, true);
    StringsExpected(texts, start, stop, max);
    var m := ReportEnd(texts, start, stop, max);
    if m <= |texts| { SeenStrings(texts, start, m); }
  }

  lemma SeenStrings(texts: seq<seq<Octet>>, i: nat, j: nat)
    requires (forall t :: t in texts ==> |t| <= 0xFF) && i <= j <= |texts|
    ensures var ds := SeenAll(StringPoints(texts)[i..j], i);
      |ds| == j - i && forall k :: 0 <= k < |ds| ==> ds[k] == SeenString(texts[i + k], i + k)
  {
  }

  lemma StringsExpected(texts: seq<seq<Octet>>, start: nat, stop: nat, max: nat)
    requires forall t :: t in texts ==> |t| <= 0xFF
    ensures var db, m := StringPoints(texts), ReportEnd(texts, start, stop, max);
      Expected(db, start, Clipped(db, stop), max, true) == if m <= |texts| then SeenAll(db[start..m], start) else []
  {
    hide CellFits, StringFits, Reported, ReportEnd, SeenAll;
    var db, m := StringPoints(texts), ReportEnd(texts, start, stop, max);
    var end := Clipped(db, stop);
    forall i | 0 <= i < |texts| ensures CellFits(max, db[i].cell) <==> StringFits(max, texts[i]) {
      StringCellFits(max, texts[i]);
    }
    if start <= end && m <= end {
      ReportedUntil(db, start, m, end, max);
    } else if start <= end {
      ReportedInFull(db, start, end, max, true);
    } else if start <= |texts| {
      assert db[start..start] == [];
      SeenNone(start);
    }
  }

  /** A master can tell two strings apart unless one is empty and the other a single zero octet. */
  lemma StringsToldApart(a: seq<Octet>, b: seq<Octet>, index: nat)
    requires |a| <= 0xFF && |b| <= 0xFF
    ensures SeenString(a, index) == SeenString(b, index) <==> a == b || {a, b} == {[], [0]}
  {
    if a != b && SeenString(a, index) == SeenString(b, index) {
      assert a == [] || b == [];
    }
    if {a, b} == {[], [0]} {
      assert a in {a, b} && b in {a, b} && [] in {a, b} && [0] in {a, b};
      assert (a == [] || a == [0]) && (b == [] || b == [0]);
    }
  }
}
