/** How the outstation reports the static values of one point type over an index range: runs of
    points that share a variation, split over fragments. */
module StaticRanges {
  import opened Protocol
  import opened Joining
  import opened Wire
  import opened EventFragments
  import P = Packed

  /** What one point is written as: whole octets, a few bits shared with its neighbours, or
      nothing when its variation has no encoding. */
  datatype Cell = Octets(data: seq<Octet>) | Small(bits: P.Width, value: nat) | Unknown

  /** A point as it is to be reported: in the variation picked for it. */
  datatype Point = Point(group: Octet, variation: Octet, cell: Cell)

  predicate Agree(p: Point, q: Point) {
    p.group == q.group && p.variation == q.variation
  }

  /** The last of the points from `end` on that agree with `p`, up to `stop`. */
  function RunEnd(db: seq<Point>, p: Point, end: nat, stop: nat): (e: nat)
    requires end <= stop < |db|
    ensures end <= e <= stop
    ensures forall i :: end < i <= e ==> Agree(db[i], p)
    decreases stop - end
  {
    if end < stop && Agree(db[end + 1], p) then RunEnd(db, p, end + 1, stop) else end
  }

  /** The worst a header costs before its data. */
  const HEADER_OVERHEAD := OBJECT_HEADER_SIZE + 4

  /** How many cells like this one fit in the octets left. */
  function Capacity(room: int, cell: Cell): int {
    match cell
    case Octets(data) => if data == [] then 0 else (room - HEADER_OVERHEAD) / |data|
    case Small(bits, _) => (room - HEADER_OVERHEAD) * 8 / bits
    case Unknown => 0
  }

  function CellOctets(p: Point): seq<Octet> {
    if p.cell.Octets? then p.cell.data else []
  }

  function CellValue(p: Point): nat {
    if p.cell.Small? then p.cell.value else 0
  }

  function AllOctets(ps: seq<Point>): seq<seq<Octet>> {
    seq(|ps|, i requires 0 <= i < |ps| => CellOctets(ps[i]))
  }

  function AllValues(ps: seq<Point>): seq<nat> {
    seq(|ps|, i requires 0 <= i < |ps| => CellValue(ps[i]))
  }

  /** The points of one header: the same variation, and cells of one form. */
  ghost predicate OneForm(ps: seq<Point>) {
    && ps != [] && !ps[0].cell.Unknown?
    && forall p :: p in ps ==>
      && Agree(p, ps[0])
      && match ps[0].cell
         case Octets(data) => data != [] && p.cell.Octets? && |p.cell.data| == |data|
         case Small(bits, _) => p.cell.Small? && p.cell.bits == bits && p.cell.value < P.Base(bits)
         case Unknown => true
  }

  function ChunkData(ps: seq<Point>): seq<Octet>
    requires OneForm(ps)
  {
    if ps[0].cell.Octets? then Flatten(AllOctets(ps))
    else P.Pack(AllValues(ps), ps[0].cell.bits)
  }

  /** A header for points `start` on, with the narrowest range that holds them. */
  function RangeHeader(ps: seq<Point>, start: nat): ObjectHeader
    requires OneForm(ps)
  {
    var stop := start + |ps| - 1;
    ObjectHeader(ps[0].group, ps[0].variation, PrefixNone, if stop <= 0xFF then StartStop8 else StartStop16,
                 StartStop(start, stop), ChunkData(ps))
  }

  ghost predicate RunOk(db: seq<Point>, idx: nat, last: nat) {
    idx <= last < |db| && OneForm(db[idx..last + 1])
  }

  lemma RunOkPart(db: seq<Point>, idx: nat, last: nat, i: nat, j: nat)
    requires RunOk(db, idx, last) && idx <= i <= j <= last
    ensures RunOk(db, i, j)
    ensures db[i].cell.Octets? == db[idx].cell.Octets? && Capacity(0, db[i].cell) == Capacity(0, db[idx].cell)
  {
    var run, part := db[idx..last + 1], db[i..j + 1];
    assert forall p :: p in part ==> p in run;
    assert db[i] in run && db[idx] in run && part[0] == db[i] && run[0] == db[idx];
  }

  /** The builder with the current fragment ended if not one cell fits it. */
  function Ready(b: Builder, cell: Cell): Builder {
    if Capacity(Room(b), cell) < 1 then Flush(b) else b
  }

  /** Reports points `idx` through `last`, as many to a header as the fragment has room for,
      and gives up when one does not fit an empty fragment. */
  function ReportRun(b: Builder, db: seq<Point>, idx: nat, last: nat): Builder
    requires idx <= last ==> RunOk(db, idx, last)
    decreases last + 1 - idx
  {
    if idx > last then b
    else
      var cell := db[idx].cell;
      var b1 := Ready(b, cell);
      var cap := Capacity(Room(b1), cell);
      if cap < 1 then b1
      else
        var n := if idx + cap - 1 < last then idx + cap - 1 else last;
        RunOkPart(db, idx, last, idx, n);
        if n < last then RunOkPart(db, idx, last, n + 1, last);
          ReportRun(AddHeader(b1, RangeHeader(db[idx..n + 1], idx), []), db, n + 1, last)
        else AddHeader(b1, RangeHeader(db[idx..n + 1], idx), [])
  }

  /** Whether a cell fits a fragment of its own. */
  predicate CellFits(max: nat, cell: Cell) {
    Capacity(max - RESPONSE_HEADER_SIZE, cell) >= 1
  }

  /** Points whose variation decides the form of their cell. */
  ghost predicate Consistent(db: seq<Point>) {
    forall i, j :: 0 <= i < |db| && 0 <= j < |db| && Agree(db[i], db[j]) ==> SameForm(db[i].cell, db[j].cell)
  }

  ghost predicate SameForm(c: Cell, d: Cell) {
    match c
    case Octets(data) => data != [] && d.Octets? && |d.data| == |data|
    case Small(bits, _) => d.Small? && d.bits == bits && d.value < P.Base(bits)
    case Unknown => d.Unknown?
  }

  lemma RunIsOneForm(db: seq<Point>, idx: nat, stop: nat)
    requires Consistent(db) && idx <= stop < |db| && !db[idx].cell.Unknown?
    ensures RunOk(db, idx, RunEnd(db, db[idx], idx, stop))
  {
    var run := db[idx..RunEnd(db, db[idx], idx, stop) + 1];
    forall p | p in run
      ensures Agree(p, run[0]) && SameForm(run[0].cell, p.cell)
    {
      var k :| 0 <= k < |run| && run[k] == p;
      assert p == db[idx + k] && Agree(db[idx], db[idx + k]);
    }
  }

  /** The points of an index range, run by run. `strict` is how octet strings are reported: one
      that does not fit ends the report, where other types go on to the next run. */
  function BuildRange(b: Builder, db: seq<Point>, idx: nat, stop: nat, strict: bool): Builder
    requires Consistent(db) && (idx <= stop ==> stop < |db|)
    decreases stop + 1 - idx
  {
    if idx > stop then b
    else
      var end := RunEnd(db, db[idx], idx, stop);
      if db[idx].cell.Unknown? then BuildRange(b, db, end + 1, stop, strict)
      else
        RunIsOneForm(db, idx, stop);
        var b' := ReportRun(b, db, idx, end);
        if strict && !CellFits(b.max, db[idx].cell) then b' else BuildRange(b', db, end + 1, stop, strict)
  }

  /** A requested range, clipped to the points there are. */
  function BuildStatic(b: Builder, db: seq<Point>, start: Index16, stop: Index16, strict: bool): Builder
    requires Consistent(db)
  {
    if db == [] then b
    else BuildRange(b, db, start, if stop >= |db| then |db| - 1 else stop, strict)
  }

  // ---------- The loops ----------

  /** The octets of one header's points. */
  method EncodeChunk(ps: seq<Point>) returns (data: seq<Octet>)
    requires OneForm(ps)
    ensures data == ChunkData(ps)
  {
    hide Flatten, P.Pack;
    if ps[0].cell.Octets? {
      data := [];
      assert AllOctets(ps[..0]) == [];
      FlattenEven(AllOctets(ps[..0]), 0);
      for i := 0 to |ps|
        invariant data == Flatten(AllOctets(ps[..i]))
      {
        assert AllOctets(ps[..i + 1]) == AllOctets(ps[..i]) + [CellOctets(ps[i])];
        FlattenSnoc(AllOctets(ps[..i]), CellOctets(ps[i]));
        data := data + CellOctets(ps[i]);
      }
      assert ps[..|ps|] == ps;
    } else {
      var values: seq<nat> := [];
      for i := 0 to |ps|
        invariant values == AllValues(ps[..i])
      {
        values := values + [CellValue(ps[i])];
      }
      assert ps[..|ps|] == ps;
      forall i | 0 <= i < |ps| ensures values[i] < P.Base(ps[0].cell.bits) { assert ps[i] in ps; }
      data := P.AppendPacked([], values, ps[0].cell.bits);
    }
  }

  lemma NextChunk(b: Builder, db: seq<Point>, idx: nat, last: nat, cap: int, n: nat)
    requires RunOk(db, idx, last) && cap == Capacity(Room(Ready(b, db[idx].cell)), db[idx].cell)
    requires cap >= 1 && n == if idx + cap - 1 < last then idx + cap - 1 else last
    ensures RunOk(db, idx, n) && (n < last ==> RunOk(db, n + 1, last))
    ensures ReportRun(b, db, idx, last)
         == ReportRun(AddHeader(Ready(b, db[idx].cell), RangeHeader(db[idx..n + 1], idx), []), db, n + 1, last)
  {
    hide Capacity, Room, Ready, AddHeader, RangeHeader, OneForm;
    RunOkPart(db, idx, last, idx, n);
    if n < last { RunOkPart(db, idx, last, n + 1, last); }
  }

  /** One run, chunk by chunk. */
  method EmitPoints(rb: ResponseBuilder, db: seq<Point>, start: nat, last: nat)
    requires rb.Valid() && start <= last && RunOk(db, start, last)
    modifies rb`fragments, rb`cur, rb`model
    ensures rb.Valid() && rb.model == ReportRun(old(rb.model), db, start, last)
  {
    hide Capacity, Room, Flush, AddHeader, OneForm, RunOk, ReportRun;
    var idx := start;
    while idx <= last
      invariant start <= idx <= last + 1 && rb.Valid() && (idx <= last ==> RunOk(db, idx, last))
      invariant ReportRun(old(rb.model), db, start, last) == ReportRun(rb.model, db, idx, last)
      decreases last + 1 - idx
    {
      InRange(db, idx, last);
      ghost var was := rb.model;
      var cell := db[idx].cell;
      var room := rb.RoomLeft();
      if Capacity(room, cell) < 1 { rb.FlushCurrent(); }
      assert rb.model == Ready(was, cell);
      room := rb.RoomLeft();
      var cap := Capacity(room, cell);
      if cap < 1 {
        NoChunk(was, db, idx, last);
        return;
      }
      var n := if idx + cap - 1 < last then idx + cap - 1 else last;
      NextChunk(was, db, idx, last, cap, n);
      var h := ChunkHeader(db, idx, n);
      rb.AppendHeader(h, []);
      idx := n + 1;
    }
    RunDone(rb.model, db, idx, last);
  }

  method ChunkHeader(db: seq<Point>, idx: nat, n: nat) returns (h: ObjectHeader)
    requires RunOk(db, idx, n)
    ensures h == RangeHeader(db[idx..n + 1], idx)
  {
    hide OneForm, ChunkData;
    var ps := db[idx..n + 1];
    var data := EncodeChunk(ps);
    Nonempty(ps);
    h := ObjectHeader(ps[0].group, ps[0].variation, PrefixNone, if n <= 0xFF then StartStop8 else StartStop16,
                      StartStop(idx, n), data);
  }

  lemma Nonempty(ps: seq<Point>)
    requires OneForm(ps)
    ensures ps != []
  {
  }

  lemma InRange(db: seq<Point>, idx: nat, last: nat)
    requires RunOk(db, idx, last)
    ensures last < |db|
  {
  }

  lemma RunDone(b: Builder, db: seq<Point>, idx: nat, last: nat)
    requires idx > last
    ensures ReportRun(b, db, idx, last) == b
  {
  }

  lemma NoChunk(b: Builder, db: seq<Point>, idx: nat, last: nat)
    requires RunOk(db, idx, last) && Capacity(Room(Ready(b, db[idx].cell)), db[idx].cell) < 1
    ensures ReportRun(b, db, idx, last) == Ready(b, db[idx].cell)
  {
    hide Capacity, Room, Ready, AddHeader, RangeHeader;
  }

  /** A range, run by run. */
  method EmitRange(rb: ResponseBuilder, db: seq<Point>, start: Index16, requested: Index16, strict: bool)
    requires rb.Valid() && Consistent(db)
    modifies rb`fragments, rb`cur, rb`model
    ensures rb.Valid() && rb.model == BuildStatic(old(rb.model), db, start, requested, strict)
  {
    hide ReportRun, CellFits, RunEnd, RunOk, Consistent;
    if |db| == 0 { return; }
    var stop: nat := if requested >= |db| then |db| - 1 else requested;
    var idx: nat := start;
    while idx <= stop
      invariant rb.Valid() && rb.model.max == rb.max
      invariant BuildRange(old(rb.model), db, start, stop, strict) == BuildRange(rb.model, db, idx, stop, strict)
      decreases stop + 1 - idx
    {
      var end := FindEnd(db, idx, stop);
      if !db[idx].cell.Unknown? {
        RunIsOneForm(db, idx, stop);
        var misfit := strict && !CellFits(rb.max, db[idx].cell);
        EmitPoints(rb, db, idx, end);
        if misfit { return; }
      }
      idx := end + 1;
    }
  }

  /** The last point of the run that starts at `idx`. */
  method FindEnd(db: seq<Point>, idx: nat, stop: nat) returns (end: nat)
    requires idx <= stop < |db|
    ensures end == RunEnd(db, db[idx], idx, stop)
  {
    end := idx;
    while end < stop && Agree(db[end + 1], db[idx])
      invariant idx <= end <= stop && RunEnd(db, db[idx], idx, stop) == RunEnd(db, db[idx], end, stop)
    {
      end := end + 1;
    }
  }
}
