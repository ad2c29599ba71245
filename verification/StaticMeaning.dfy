/** Reporting a static range preserves it: what a master decodes, fragment by fragment, is each
    point once, in order, at its own index. */
module StaticMeaning {
  import opened Protocol
  import opened Events
  import opened Joining
  import opened Wire
  import opened ObjectTable
  import opened MasterDispatch
  import opened EventFragments
  import opened StaticRanges
  import EM = EventMeaning
  import P = Packed

  /** A point as the object table has it: a static variation, with octets of the size listed or
      a value of the bits listed, or one the table cannot encode. */
  ghost predicate ValidPoint(c: Codec, p: Point) {
    && p.variation > 0 && p.group != 51 && !(85 <= p.group <= 88) && (p.group, p.variation) !in c.relative
    && match p.cell
       case Octets(data) => data != [] && SizeBits(c.sizes, p.group, p.variation) == Some(8 * |data|)
       case Small(bits, value) =>
         && value < P.Base(bits) && p.group !in {110, 111, 112, 113}
         && SizeBits(c.sizes, p.group, p.variation) == Some(bits)
       case Unknown => SizeBits(c.sizes, p.group, p.variation) in {None, Some(0)}
  }

  ghost predicate ValidDb(c: Codec, db: seq<Point>) {
    |db| <= 0x1_0000 && forall i :: 0 <= i < |db| ==> ValidPoint(c, db[i])
  }

  lemma ValidIsConsistent(c: Codec, db: seq<Point>)
    requires ValidDb(c, db)
    ensures Consistent(db)
  {
    forall i, j | 0 <= i < |db| && 0 <= j < |db| && Agree(db[i], db[j]) ensures SameForm(db[i].cell, db[j].cell) {
      assert ValidPoint(c, db[i]) && ValidPoint(c, db[j]);
    }
  }

  /** What a master should see of a point. */
  function Seen(p: Point, index: nat): Decoded {
    Decoded(p.group, p.variation, index, if p.cell.Small? then [p.cell.value % 0x100] else CellOctets(p), NoTime)
  }

  function SeenAll(ps: seq<Point>, start: nat): seq<Decoded> {
    seq(|ps|, i requires 0 <= i < |ps| => Seen(ps[i], start + i))
  }

  lemma SeenCons(ps: seq<Point>, start: nat)
    requires ps != []
    ensures SeenAll(ps, start) == [Seen(ps[0], start)] + SeenAll(ps[1..], start + 1)
  {
    hide Seen;
  }

  lemma SeenNone(start: nat)
    ensures SeenAll([], start) == []
  {
  }

  lemma SeenSplit(db: seq<Point>, idx: nat, n: nat, last: nat)
    requires idx <= n <= last < |db|
    ensures SeenAll(db[idx..last + 1], idx) == SeenAll(db[idx..n + 1], idx) + SeenAll(db[n + 1..last + 1], n + 1)
  {
    hide Seen;
  }

  // ---------- One header ----------

  ghost predicate ValidRun(c: Codec, ps: seq<Point>, start: nat) {
    OneForm(ps) && start + |ps| <= 0x1_0000 && forall p :: p in ps ==> ValidPoint(c, p)
  }

  lemma {:induction false} DataLength(ps: seq<Point>)
    requires OneForm(ps) && ps[0].cell.Octets?
    ensures |Flatten(AllOctets(ps))| == |ps| * |ps[0].cell.data|
  {
    forall i | 0 <= i < |ps| ensures |AllOctets(ps)[i]| == |ps[0].cell.data| { assert ps[i] in ps; }
    FlattenEven(AllOctets(ps), |ps[0].cell.data|);
  }

  lemma HeaderWellFormed(c: Codec, ps: seq<Point>, start: nat)
    requires ValidRun(c, ps, start)
    ensures WellFormed(c.sizes, RangeHeader(ps, start))
  {
    hide Flatten, P.Pack;
    var h := RangeHeader(ps, start);
    assert ps[0] in ps && ValidPoint(c, ps[0]);
    assert h.range.Objects() == |ps|;
    if ps[0].cell.Octets? {
      DataLength(ps);
    } else {
      ValuesAreDigits(ps);
    }
  }

  lemma ValuesAreDigits(ps: seq<Point>)
    requires OneForm(ps) && ps[0].cell.Small?
    ensures P.Digits(AllValues(ps), ps[0].cell.bits)
  {
    forall i | 0 <= i < |ps| ensures AllValues(ps)[i] < P.Base(ps[0].cell.bits) { assert ps[i] in ps; }
  }

  lemma AllOctetsCons(ps: seq<Point>)
    requires ps != []
    ensures Flatten(AllOctets(ps)) == CellOctets(ps[0]) + Flatten(AllOctets(ps[1..]))
  {
    FlattenCons(AllOctets(ps));
    assert AllOctets(ps)[1..] == AllOctets(ps[1..]);
  }

  ghost predicate Plain(ps: seq<Point>, h: ObjectHeader, size: nat) {
    forall k :: 0 <= k < |ps| ==>
      ps[k].cell.Octets? && |ps[k].cell.data| == size && ps[k].group == h.group && ps[k].variation == h.variation
  }

  lemma PlainNext(ps: seq<Point>, h: ObjectHeader, size: nat)
    requires Plain(ps, h, size) && ps != []
    ensures Plain(ps[1..], h, size)
    ensures ps[0].cell.Octets? && |ps[0].cell.data| == size && ps[0].group == h.group && ps[0].variation == h.variation
  {
  }

  /** The objects from number `i` on decode to the points from there on. */
  lemma {:induction false} ObjectsSeen(
      c: Codec, h: ObjectHeader, ps: seq<Point>, start: nat, i: nat, size: nat, cto: Timestamp)
    requires (h.group, h.variation) !in c.relative && size > 0 && h.range.StartStop? && h.range.start == start
    requires h.range.Objects() == i + |ps| && Plain(ps, h, size)
    ensures DecodeObjects(c, h, size, 0, cto, i, Flatten(AllOctets(ps))) == SeenAll(ps, start + i)
    decreases |ps|
  {
    if ps == [] {
      SeenNone(start + i);
    } else {
      hide SeenAll, Seen, Flatten, AllOctets, DecodeObjects, Plain, CellOctets;
      PlainNext(ps, h, size);
      AllOctetsCons(ps);
      ObjectsSeen(c, h, ps[1..], start, i + 1, size, cto);
      FirstSeen(c, h, ps[0], start, i, size, cto, Flatten(AllOctets(ps[1..])));
      SeenCons(ps, start + i);
    }
  }

  lemma FirstSeen(c: Codec, h: ObjectHeader, p: Point, start: nat, i: nat, size: nat, cto: Timestamp, more: seq<Octet>)
    requires (h.group, h.variation) !in c.relative && size > 0 && h.range.StartStop? && h.range.start == start
    requires i < h.range.Objects()
    requires p.cell.Octets? && |p.cell.data| == size && p.group == h.group && p.variation == h.variation
    ensures DecodeObjects(c, h, size, 0, cto, i, CellOctets(p) + more)
         == [Seen(p, start + i)] + DecodeObjects(c, h, size, 0, cto, i + 1, more)
  {
    var data := CellOctets(p) + more;
    assert data[0..0 + size] == p.cell.data && data[0 + size..] == more;
  }

  /** A header shows the master exactly its points, whatever common time is in force. */
  lemma HeaderSeen(c: Codec, ps: seq<Point>, start: nat, cto: Timestamp)
    requires ValidRun(c, ps, start)
    ensures var h := RangeHeader(ps, start); !IsCto(h) && DispatchHeader(c, h, cto) == SeenAll(ps, start)
  {
    hide Flatten, P.Pack, DecodeObjects, FreeFormatObjects, P.ValueAt;
    var h := RangeHeader(ps, start);
    assert ps[0] in ps && ValidPoint(c, ps[0]);
    if ps[0].cell.Octets? {
      var size := |ps[0].cell.data|;
      DataLength(ps);
      ProductPositive(|ps|, size);
      assert DispatchedSize(c, h.group, h.variation) == size;
      assert Plain(ps, h, size) by {
        assert forall k :: 0 <= k < |ps| ==> ps[k] in ps;
      }
      ObjectsSeen(c, h, ps, start, 0, size, cto);
    } else {
      PackedSeen(c, ps, start);
    }
  }

  lemma ProductPositive(a: nat, b: nat)
    requires a >= 1 && b >= 1
    ensures a * b >= 1
  {
  }

  lemma PackedSeen(c: Codec, ps: seq<Point>, start: nat)
    requires ValidRun(c, ps, start) && ps[0].cell.Small?
    ensures var h := RangeHeader(ps, start);
      h.data != [] && DispatchedSize(c, h.group, h.variation) == 0 && DecodePacked(c, h) == SeenAll(ps, start)
  {
    hide P.Pack, P.ValueAt;
    var h, bits := RangeHeader(ps, start), ps[0].cell.bits;
    assert ps[0] in ps && ValidPoint(c, ps[0]);
    ValuesAreDigits(ps);
    P.PackedRoundTrip(AllValues(ps), bits);
    assert PackedWidth(c, h.group, h.variation) == Some(bits);
    forall i | 0 <= i < |ps| ensures DecodePacked(c, h)[i] == Seen(ps[i], start + i) {
      assert ps[i] in ps;
      assert P.Unpack(h.data, bits, |ps|)[i] == AllValues(ps)[i];
    }
  }

  // ---------- The builder ----------

  /** Everything a master has of the finished fragments, each decoded on its own. */
  function DecodedBy(c: Codec, bodies: seq<Body>): seq<Decoded> {
    if bodies == [] then []
    else DecodedBy(c, bodies[..|bodies| - 1]) + Deliver(c, bodies[|bodies| - 1].headers, NoTime)
  }

  function AllSeen(c: Codec, b: Builder): seq<Decoded> {
    DecodedBy(c, b.finished) + Deliver(c, b.cur.headers, NoTime)
  }

  ghost predicate BodyOk(c: Codec, max: nat, body: Body) {
    AllWellFormed(c.sizes, body.headers) && EM.BodyFits(max, body)
  }

  ghost predicate BuilderOk(c: Codec, b: Builder) {
    (forall body :: body in b.finished ==> BodyOk(c, b.max, body)) && BodyOk(c, b.max, b.cur)
  }

  lemma FlushSeen(c: Codec, b: Builder)
    requires BuilderOk(c, b)
    ensures BuilderOk(c, Flush(b)) && AllSeen(c, Flush(b)) == AllSeen(c, b) && Flush(b).max == b.max
    ensures Room(Flush(b)) == b.max - RESPONSE_HEADER_SIZE
  {
    hide BodyOk;
    EmptyBodyOk(c, b.max);
    var f := b.finished + [b.cur];
    assert f[..|b.finished|] == b.finished;
  }

  lemma EmptyBodyOk(c: Codec, max: nat)
    ensures BodyOk(c, max, EMPTY_BODY)
  {
  }

  lemma AddSeen(c: Codec, b: Builder, h: ObjectHeader, ds: seq<Decoded>)
    requires BuilderOk(c, b) && WellFormed(c.sizes, h) && Size(h) <= Room(b) && !IsCto(h)
    requires forall cto :: DispatchHeader(c, h, cto) == ds
    ensures var b' := AddHeader(b, h, []); BuilderOk(c, b') && AllSeen(c, b') == AllSeen(c, b) + ds && b'.max == b.max
  {
    hide Deliver, DispatchHeader, WellFormed, Size, IsCto;
    var cto := CtoAfterAll(b.cur.headers, NoTime);
    EM.TotalSizeConcat(b.cur.headers, [h]);
    assert TotalSize([h]) == Size(h) by { assert [h][..0] == []; }
    DeliverConcat(c, b.cur.headers, [h], NoTime);
    EM.DeliverOne(c, h, cto);
    assert DispatchHeader(c, h, cto) == ds;
  }

  // ---------- Room ----------

  lemma ChunkFits(b: Builder, ps: seq<Point>, start: nat)
    requires OneForm(ps) && |ps| <= Capacity(Room(b), ps[0].cell)
    ensures Size(RangeHeader(ps, start)) <= Room(b)
  {
    hide Flatten, P.Pack, Room;
    var avail := Room(b) - HEADER_OVERHEAD;
    if ps[0].cell.Octets? {
      DataLength(ps);
      QuotientBounds(avail, |ps[0].cell.data|, |ps|);
    } else {
      ValuesAreDigits(ps);
    }
  }

  lemma CapacityGrows(room: int, more: int, cell: Cell)
    requires room <= more
    ensures Capacity(room, cell) >= 1 ==> Capacity(more, cell) >= 1
  {
    if cell.Octets? && cell.data != [] && Capacity(room, cell) >= 1 {
      QuotientBounds(room - HEADER_OVERHEAD, |cell.data|, 1);
      QuotientPositive(more - HEADER_OVERHEAD, |cell.data|);
    }
  }

  lemma SameCapacity(room: int, c: Cell, d: Cell)
    requires SameForm(c, d)
    ensures Capacity(room, c) == Capacity(room, d)
  {
  }

  // ---------- Runs ----------

  ghost predicate ValidPoints(c: Codec, db: seq<Point>, idx: nat, last: nat) {
    last < |db| <= 0x1_0000 && forall i :: idx <= i <= last ==> ValidPoint(c, db[i])
  }

  lemma {:induction false} ReportRunSeen(c: Codec, b: Builder, db: seq<Point>, idx: nat, last: nat)
    requires BuilderOk(c, b) && idx <= last && RunOk(db, idx, last) && ValidPoints(c, db, idx, last)
    ensures var b' := ReportRun(b, db, idx, last);
      && BuilderOk(c, b') && b'.max == b.max
      && AllSeen(c, b') == AllSeen(c, b) + if CellFits(b.max, db[idx].cell) then SeenAll(db[idx..last + 1], idx) else []
    decreases last - idx
  {
    hide BuilderOk, AllSeen, ValidPoint, OneForm, Capacity, Room, Flush, AddHeader, RangeHeader, SeenAll;
    var cell := db[idx].cell;
    FlushSeen(c, b);
    RoomBound(c, b);
    CapacityGrows(Room(b), b.max - RESPONSE_HEADER_SIZE, cell);
    var b1 := Ready(b, cell);
    var cap := Capacity(Room(b1), cell);
    if cap >= 1 {
      var n := if idx + cap - 1 < last then idx + cap - 1 else last;
      RunOkPart(db, idx, last, idx, n);
      ChunkSeen(c, b1, db, idx, n);
      if n < last {
        var b2 := AddHeader(b1, RangeHeader(db[idx..n + 1], idx), []);
        RunOkPart(db, idx, last, n + 1, last);
        LaterFits(db, idx, last, n + 1, b.max);
        ReportRunSeen(c, b2, db, n + 1, last);
        SeenSplit(db, idx, n, last);
      }
    }
  }

  lemma RoomBound(c: Codec, b: Builder)
    ensures Room(b) <= b.max - RESPONSE_HEADER_SIZE
  {
  }

  lemma LaterFits(db: seq<Point>, idx: nat, last: nat, i: nat, max: nat)
    requires RunOk(db, idx, last) && idx <= i <= last
    ensures CellFits(max, db[i].cell) == CellFits(max, db[idx].cell)
  {
    var run := db[idx..last + 1];
    assert run[0] == db[idx] && run[i - idx] == db[i] && db[i] in run && db[idx] in run;
  }

  lemma ChunkSeen(c: Codec, b: Builder, db: seq<Point>, idx: nat, n: nat)
    requires BuilderOk(c, b) && RunOk(db, idx, n) && ValidPoints(c, db, idx, n)
    requires n - idx + 1 <= Capacity(Room(b), db[idx].cell)
    ensures var b' := AddHeader(b, RangeHeader(db[idx..n + 1], idx), []);
      BuilderOk(c, b') && AllSeen(c, b') == AllSeen(c, b) + SeenAll(db[idx..n + 1], idx) && b'.max == b.max
  {
    hide BuilderOk, AllSeen, ValidPoint, Capacity, Room, AddHeader, RangeHeader, DispatchHeader, WellFormed, OneForm,
         IsCto;
    var ps := db[idx..n + 1];
    forall p | p in ps ensures ValidPoint(c, p) {
      var k :| 0 <= k < |ps| && ps[k] == p;
      assert p == db[idx + k];
    }
    ChunkFits(b, ps, idx);
    HeaderWellFormed(c, ps, idx);
    HeaderSeen(c, ps, idx, NoTime);
    forall cto ensures DispatchHeader(c, RangeHeader(ps, idx), cto) == SeenAll(ps, idx) { HeaderSeen(c, ps, idx, cto); }
    AddSeen(c, b, RangeHeader(ps, idx), SeenAll(ps, idx));
  }

  // ---------- Ranges ----------

  /** What is to be reported of points `idx` through `stop`: every point that fits a fragment,
      or, when one that does not ends the report, those before it. */
  function Reported(db: seq<Point>, idx: nat, stop: nat, max: nat, strict: bool): seq<Decoded>
    requires idx <= stop ==> stop < |db|
    decreases stop + 1 - idx
  {
    if idx > stop then []
    else if CellFits(max, db[idx].cell) then [Seen(db[idx], idx)] + Reported(db, idx + 1, stop, max, strict)
    else if strict && !db[idx].cell.Unknown? then []
    else Reported(db, idx + 1, stop, max, strict)
  }

  /** Points `idx` through `end` all fit a fragment, or none does. */
  ghost predicate Alike(db: seq<Point>, idx: nat, end: nat, max: nat) {
    idx <= end < |db| && forall i :: idx <= i <= end ==>
      CellFits(max, db[i].cell) == CellFits(max, db[end].cell) && db[i].cell.Unknown? == db[end].cell.Unknown?
  }

  lemma AlikeNext(db: seq<Point>, idx: nat, end: nat, max: nat)
    requires Alike(db, idx, end, max)
    ensures CellFits(max, db[idx].cell) == CellFits(max, db[end].cell) && db[idx].cell.Unknown? == db[end].cell.Unknown?
    ensures idx < end ==> Alike(db, idx + 1, end, max)
  {
    hide CellFits;
  }

  /** A whole run is reported alike. */
  lemma {:induction false} ReportedRun(db: seq<Point>, idx: nat, end: nat, stop: nat, max: nat, strict: bool)
    requires Alike(db, idx, end, max) && idx <= end <= stop < |db|
    ensures Reported(db, idx, stop, max, strict) ==
      if CellFits(max, db[end].cell) then SeenAll(db[idx..end + 1], idx) + Reported(db, end + 1, stop, max, strict)
      else if strict && !db[end].cell.Unknown? then []
      else Reported(db, end + 1, stop, max, strict)
    decreases end - idx
  {
    hide CellFits, SeenAll, Seen, Alike;
    AlikeNext(db, idx, end, max);
    SeenFirst(db, idx, end);
    if idx < end {
      ReportedRun(db, idx + 1, end, stop, max, strict);
      Regroup([Seen(db[idx], idx)], SeenAll(db[idx + 1..end + 1], idx + 1), Reported(db, end + 1, stop, max, strict));
    }
  }

  lemma Regroup(a: seq<Decoded>, b: seq<Decoded>, c: seq<Decoded>)
    ensures a + (b + c) == a + b + c
  {
  }

  lemma SeenFirst(db: seq<Point>, idx: nat, end: nat)
    requires idx <= end < |db|
    ensures SeenAll(db[idx..end + 1], idx)
         == [Seen(db[idx], idx)] + if idx < end then SeenAll(db[idx + 1..end + 1], idx + 1) else []
  {
    hide Seen;
    SeenCons(db[idx..end + 1], idx);
    assert db[idx..end + 1][1..] == db[idx + 1..end + 1];
  }

  lemma RunAlike(db: seq<Point>, idx: nat, stop: nat, max: nat, i: nat)
    requires Consistent(db) && idx <= stop < |db| && idx <= i <= RunEnd(db, db[idx], idx, stop)
    ensures CellFits(max, db[i].cell) == CellFits(max, db[idx].cell) && db[i].cell.Unknown? == db[idx].cell.Unknown?
  {
    assert Agree(db[idx], db[i]);
    SameCapacity(max - RESPONSE_HEADER_SIZE, db[idx].cell, db[i].cell);
  }

  lemma RunsAlike(db: seq<Point>, idx: nat, stop: nat, max: nat)
    requires Consistent(db) && idx <= stop < |db|
    ensures Alike(db, idx, RunEnd(db, db[idx], idx, stop), max)
  {
    hide CellFits, Consistent;
    var end := RunEnd(db, db[idx], idx, stop);
    forall i | idx <= i <= end
      ensures CellFits(max, db[i].cell) == CellFits(max, db[idx].cell) && db[i].cell.Unknown? == db[idx].cell.Unknown?
    {
      RunAlike(db, idx, stop, max, i);
    }
  }

  lemma UnknownUnfit(max: nat, cell: Cell)
    requires cell.Unknown?
    ensures !CellFits(max, cell)
  {
  }

  lemma {:induction false} BuildRangeSeen(c: Codec, b: Builder, db: seq<Point>, idx: nat, stop: nat, strict: bool)
    requires BuilderOk(c, b) && ValidDb(c, db) && Consistent(db) && (idx <= stop ==> stop < |db|)
    ensures var b' := BuildRange(b, db, idx, stop, strict);
      BuilderOk(c, b') && b'.max == b.max && AllSeen(c, b') == AllSeen(c, b) + Reported(db, idx, stop, b.max, strict)
    decreases stop + 1 - idx
  {
    hide BuilderOk, AllSeen, ValidPoint, CellFits, ReportRun, Consistent, RunOk, SeenAll, Seen, Agree, Alike, RunEnd;
    if idx <= stop {
      var end := RunEnd(db, db[idx], idx, stop);
      RunsAlike(db, idx, stop, b.max);
      AlikeNext(db, idx, end, b.max);
      ReportedRun(db, idx, end, stop, b.max, strict);
      if db[idx].cell.Unknown? {
        UnknownUnfit(b.max, db[idx].cell);
        BuildRangeSeen(c, b, db, end + 1, stop, strict);
      } else {
        RunIsOneForm(db, idx, stop);
        ReportRunSeen(c, b, db, idx, end);
        if !(strict && !CellFits(b.max, db[idx].cell)) {
          BuildRangeSeen(c, ReportRun(b, db, idx, end), db, end + 1, stop, strict);
        }
      }
    }
  }

  // ---------- The whole response ----------

  /** Each index, once, in order. */
  ghost predicate Ascending(ds: seq<Decoded>) {
    forall i, j :: 0 <= i < j < |ds| ==> ds[i].index < ds[j].index
  }

  /** A report of points from `idx` on: ascending, each as it should be seen. */
  ghost predicate Faithful(db: seq<Point>, ds: seq<Decoded>, idx: nat) {
    Ascending(ds) && forall k :: 0 <= k < |ds| ==> idx <= ds[k].index < |db| && ds[k] == Seen(db[ds[k].index], ds[k].index)
  }

  lemma FaithfulCons(db: seq<Point>, ds: seq<Decoded>, idx: nat)
    requires Faithful(db, ds, idx + 1) && idx < |db|
    ensures Faithful(db, [Seen(db[idx], idx)] + ds, idx) && Faithful(db, ds, idx)
  {
  }

  lemma {:induction false} ReportedAscends(db: seq<Point>, idx: nat, stop: nat, max: nat, strict: bool)
    requires idx <= stop ==> stop < |db|
    ensures Faithful(db, Reported(db, idx, stop, max, strict), idx)
    decreases stop + 1 - idx
  {
    hide CellFits, Seen, Faithful;
    if idx <= stop {
      ReportedAscends(db, idx + 1, stop, max, strict);
      FaithfulCons(db, Reported(db, idx + 1, stop, max, strict), idx);
    }
    FaithfulNone(db, idx);
  }

  lemma FaithfulNone(db: seq<Point>, idx: nat)
    ensures Faithful(db, [], idx)
  {
  }

  ghost predicate AllFit(db: seq<Point>, idx: nat, stop: int, max: nat) {
    forall i :: idx <= i <= stop && i < |db| ==> CellFits(max, db[i].cell)
  }

  /** When every point fits, every point is reported. */
  lemma {:induction false} ReportedInFull(db: seq<Point>, idx: nat, stop: nat, max: nat, strict: bool)
    requires idx <= stop ==> stop < |db|
    requires AllFit(db, idx, stop, max)
    ensures Reported(db, idx, stop, max, strict) == if idx <= stop then SeenAll(db[idx..stop + 1], idx) else []
    decreases stop + 1 - idx
  {
    hide CellFits, Seen, SeenAll;
    if idx <= stop {
      ReportedInFull(db, idx + 1, stop, max, strict);
      SeenFirst(db, idx, stop);
    }
  }

  /** What the bodies of a response show, each decoded from its own octets. */
  function Shown(c: Codec, bodies: seq<Body>): seq<Decoded> {
    if bodies == [] then []
    else Shown(c, bodies[..|bodies| - 1]) + DeliverFragment(c, EncodeAll(bodies[|bodies| - 1].headers))
  }

  lemma {:induction false} ShownIsDecoded(c: Codec, max: nat, bodies: seq<Body>)
    requires forall body :: body in bodies ==> BodyOk(c, max, body)
    ensures Shown(c, bodies) == DecodedBy(c, bodies)
  {
    hide Deliver, EncodeAll, WellFormed;
    if bodies != [] {
      var last := bodies[|bodies| - 1];
      assert last in bodies;
      ShownIsDecoded(c, max, bodies[..|bodies| - 1]);
      ParseEncodeAll(c.sizes, last.headers);
    }
  }

  lemma DoneDecoded(c: Codec, b: Builder)
    requires BuilderOk(c, b)
    ensures (forall body :: body in Done(b) ==> BodyOk(c, b.max, body)) && DecodedBy(c, Done(b)) == AllSeen(c, b)
  {
    hide BodyOk;
    FlushSeen(c, b);
    EmptyBodyOk(c, b.max);
    var f := Flush(b).finished;
    assert Deliver(c, [], NoTime) == [];
    assert [EMPTY_BODY][..0] == [];
    if f == [] { assert DecodedBy(c, [EMPTY_BODY]) == []; }
  }

  /** A static read preserves the range. For every database of at most 65536 points, requested
      range and fragment size: every fragment is within the limit, and what a master decodes,
      each fragment alone, is every point of the range that exists and whose encoding fits a
      fragment (or, where one that does not fit ends the report, every one before it), once each,
      ascending, at its own index, in its own variation, with its own octets or bits. */
  lemma StaticRangeReported(c: Codec, maxFragment: int, db: seq<Point>, start: Index16, stop: Index16, strict: bool)
    requires ValidDb(c, db)
    ensures Consistent(db)
    ensures var b := NewBuilder(maxFragment);
      var bodies := Done(BuildStatic(b, db, start, stop, strict));
      var end := Clipped(db, stop);
      && (forall body :: body in bodies ==> body.headers == [] || |EncodeAll(body.headers)| + RESPONSE_HEADER_SIZE <= b.max)
      && Shown(c, bodies) == Expected(db, start, end, b.max, strict)
      && Faithful(db, Shown(c, bodies), start)
      && (AllFit(db, start, end, b.max) ==>
            Shown(c, bodies) == if start <= end then SeenAll(db[start..end + 1], start) else [])
  {
    hide BuildStatic, Done, Shown, BodyOk, ValidPoint, SeenAll, EncodeAll, Faithful, AllFit, Expected, Consistent;
    ValidIsConsistent(c, db);
    var b := NewBuilder(maxFragment);
    var built := BuildStatic(b, db, start, stop, strict);
    StaticSeen(c, b, db, start, stop, strict);
    DoneDecoded(c, built);
    ShownIsDecoded(c, b.max, Done(built));
    forall body | body in Done(built)
      ensures body.headers == [] || |EncodeAll(body.headers)| + RESPONSE_HEADER_SIZE <= b.max
    {
      BodyWithinLimit(c, b.max, body);
    }
    ExpectedShape(db, start, Clipped(db, stop), b.max, strict);
  }

  /** The last point of a range that ends at `stop` and exists. */
  function Clipped(db: seq<Point>, stop: nat): (end: int)
    ensures end < |db|
  {
    if stop >= |db| then |db| - 1 else stop
  }

  /** What should be reported of a range already clipped to the points there are. */
  function Expected(db: seq<Point>, start: nat, end: int, max: nat, strict: bool): seq<Decoded>
    requires end < |db|
  {
    if start <= end then Reported(db, start, end, max, strict) else []
  }

  lemma ExpectedShape(db: seq<Point>, start: nat, end: int, max: nat, strict: bool)
    requires end < |db|
    ensures Faithful(db, Expected(db, start, end, max, strict), start)
    ensures AllFit(db, start, end, max) ==>
      Expected(db, start, end, max, strict) == if start <= end then SeenAll(db[start..end + 1], start) else []
  {
    hide Reported, SeenAll, AllFit, Faithful;
    FaithfulNone(db, start);
    if start <= end {
      ReportedAscends(db, start, end, max, strict);
      if AllFit(db, start, end, max) { ReportedInFull(db, start, end, max, strict); }
    }
  }

  /** A report that one point ends is that of the range before it. */
  lemma {:induction false} ReportedUntil(db: seq<Point>, idx: nat, m: nat, stop: nat, max: nat)
    requires idx <= m <= stop < |db| && AllFit(db, idx, m - 1, max)
    requires !CellFits(max, db[m].cell) && !db[m].cell.Unknown?
    ensures Reported(db, idx, stop, max, true) == SeenAll(db[idx..m], idx)
    decreases m - idx
  {
    hide CellFits, Seen, SeenAll;
    if idx < m {
      ReportedUntil(db, idx + 1, m, stop, max);
      SeenFirst(db, idx, m - 1);
      if idx == m - 1 { SeenNone(m); assert db[m..m] == []; }
    } else {
      SeenNone(idx);
      assert db[idx..idx] == [];
    }
  }

  lemma StaticSeen(c: Codec, b: Builder, db: seq<Point>, start: Index16, stop: Index16, strict: bool)
    requires ValidDb(c, db) && Consistent(db) && b.finished == [] && b.cur == EMPTY_BODY
    ensures var built := BuildStatic(b, db, start, stop, strict);
      && BuilderOk(c, built) && built.max == b.max
      && AllSeen(c, built) == Expected(db, start, Clipped(db, stop), b.max, strict)
  {
    hide BuildRange, BodyOk, ValidPoint, AllSeen, Consistent;
    EmptyBodyOk(c, b.max);
    StartsEmpty(c, b);
    if db != [] { BuildRangeSeen(c, b, db, start, Clipped(db, stop), strict); }
  }

  lemma StartsEmpty(c: Codec, b: Builder)
    requires b.finished == [] && b.cur == EMPTY_BODY
    ensures AllSeen(c, b) == []
  {
  }

  lemma BodyWithinLimit(c: Codec, max: nat, body: Body)
    requires BodyOk(c, max, body)
    ensures body.headers == [] || |EncodeAll(body.headers)| + RESPONSE_HEADER_SIZE <= max
  {
    hide EncodeAll;
    EncodedSize(body.headers);
  }
}
