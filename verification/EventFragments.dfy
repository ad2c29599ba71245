/** How selected events become response fragments, and how a master reads one fragment back. */
module EventFragments {
  import opened Protocol
  import opened Joining
  import opened Events
  import opened Wire
  import opened ObjectTable

  /** Whether an event's offset from the base is expressible without clamping. */
  predicate InWindow(e: Event, base: int) {
    e.time.At? ==> 0 <= Milliseconds(e.time.ns - base * NS_PER_MS) <= 0xFFFF
  }

  datatype Env = Env(codec: Codec, synchronized: bool, now: int)

  // ---------- What an event object is made of ----------

  function EventGroup(kind: PointType): Octet {
    match kind
    case Binary => 2
    case DoubleBit => 4
    case BinaryOutput => 11
    case Counter => 22
    case FrozenCounter => 23
    case FrozenAnalog => 33
    case Dataset => 88
    case SecurityStatistic => 122
    case VirtualTerminal => 113
    case Analog => 32
    case AnalogOutput => 42
    case OctetString => 111
    case BinaryCommand => 13
    case AnalogCommand => 43
  }

  predicate LengthIsVariation(kind: PointType) {
    kind == OctetString || kind == VirtualTerminal
  }

  function ObjectSize(c: Codec, e: Event): nat {
    if LengthIsVariation(e.kind) then e.variation else SizeOctets(c, EventGroup(e.kind), e.variation)
  }

  predicate IsRelative(c: Codec, e: Event) {
    !LengthIsVariation(e.kind) && (EventGroup(e.kind), e.variation) in c.relative
  }

  function Bytes(m: Measurement): seq<Octet> {
    match m
    case Reading(_, _) => []
    case Octets(bytes) => bytes
  }

  /** Octets padded with zeros or cut to a length. */
  function PadTo(bytes: seq<Octet>, n: nat): (s: seq<Octet>)
    ensures |s| == n
  {
    if |bytes| >= n then bytes[..n] else bytes + seq(n - |bytes|, _ => 0)
  }

  /** An event's object octets, less a relative-time offset. */
  function FixedPart(c: Codec, e: Event): seq<Octet> {
    if LengthIsVariation(e.kind) then PadTo(Bytes(e.value), e.variation)
    else c.write(EventGroup(e.kind), e.variation, e.value, e.time)
  }

  // ---------- Bodies and the builder ----------

  /** One fragment's object section, with the events its headers report. */
  datatype Body = Body(headers: seq<ObjectHeader>, carried: seq<Event>)

  const EMPTY_BODY := Body([], [])

  datatype Builder = Builder(max: nat, finished: seq<Body>, cur: Body)

  function NewBuilder(maxFragment: int): Builder {
    Builder(if maxFragment <= 0 then DEFAULT_MAX_FRAGMENT else maxFragment, [], EMPTY_BODY)
  }

  /** Octets left in the current fragment after the response header. */
  function Room(b: Builder): int {
    b.max - RESPONSE_HEADER_SIZE - TotalSize(b.cur.headers)
  }

  function Flush(b: Builder): Builder {
    if b.cur.headers == [] then b else b.(finished := b.finished + [b.cur], cur := EMPTY_BODY)
  }

  function AddHeader(b: Builder, h: ObjectHeader, events: seq<Event>): Builder {
    var b' := if Size(h) > Room(b) then Flush(b) else b;
    b'.(cur := Body(b'.cur.headers + [h], b'.cur.carried + events))
  }

  function Done(b: Builder): (bodies: seq<Body>)
    ensures bodies != []
  {
    var f := Flush(b).finished;
    if f == [] then [EMPTY_BODY] else f
  }

  // ---------- Building event runs ----------

  /** A run of consecutive events under one group and variation, and the index width that
      every event in it needs. */
  datatype Run = Run(group: Octet, variation: Octet, size: nat, relative: bool, wide: bool)

  function PerObject(r: Run): nat {
    (if r.wide then 2 else 1) + r.size
  }

  const CTO_SIZE := 10

  /** What a header of the run costs before its first object, common time included. */
  function Overhead(r: Run): nat {
    OBJECT_HEADER_SIZE + (if r.wide then 2 else 1) + if r.relative then CTO_SIZE else 0
  }

  function MaxCount(r: Run): nat {
    if r.wide then 0xFFFF else 0xFF
  }

  function EncodeEvent(c: Codec, r: Run, base: int, e: Event): seq<Octet> {
    (if r.wide then LE16(e.index) else [e.index % 0x100])
    + FixedPart(c, e)
    + (if r.relative then LE16(RelativeOffset(e.time, base)) else [])
  }

  function EncodeEvents(c: Codec, r: Run, base: int, chunk: seq<Event>): (es: seq<seq<Octet>>)
    ensures |es| == |chunk|
  {
    seq(|chunk|, k requires 0 <= k < |chunk| => EncodeEvent(c, r, base, chunk[k]))
  }

  function CtoHeader(env: Env, base: int): ObjectHeader {
    ObjectHeader(51, if env.synchronized then 1 else 2, PrefixNone, Count8, Count(1),
                 LittleEndian(WireTime(base), TIME48_SIZE))
  }

  function RunHeader(env: Env, r: Run, base: int, chunk: seq<Event>): ObjectHeader {
    ObjectHeader(r.group, r.variation, if r.wide then PrefixIndex2 else PrefixIndex1,
                 if r.wide then Count16 else Count8, Count(|chunk|),
                 Flatten(EncodeEvents(env.codec, r, base, chunk)))
  }

  /** The common time of occurrence, in milliseconds, for a run starting at `e`. */
  function EventBase(env: Env, e: Event): int {
    FloorMs(if e.time.At? then e.time.ns else env.now)
  }

  /** How many events from the front are within the window of `base`. */
  function Within(events: seq<Event>, base: int): (n: nat)
    ensures n <= |events|
  {
    if events == [] || !InWindow(events[0], base) then 0 else 1 + Within(events[1..], base)
  }

  /** At least one: a run's first event is its own base. */
  function EventsWithinWindow(events: seq<Event>, base: int): (n: nat)
    requires events != []
    ensures 1 <= n <= |events|
  {
    var n := Within(events, base);
    if n == 0 then 1 else n
  }

  function Min(a: int, b: int): int {
    if a < b then a else b
  }

  predicate Fits(b: Builder, r: Run) {
    Room(b) - Overhead(r) >= PerObject(r)
  }

  /** How many of the run's remaining events go under the next header. */
  function ChunkLen(env: Env, b: Builder, r: Run, run: seq<Event>): (n: nat)
    requires run != [] && r.size > 0 && Fits(b, r)
    ensures 1 <= n <= |run| && n <= MaxCount(r)
  {
    QuotientPositive(Room(b) - Overhead(r), PerObject(r));
    var n := Min(Min((Room(b) - Overhead(r)) / PerObject(r), |run|), MaxCount(r));
    if r.relative then EventsWithinWindow(run[..n], EventBase(env, run[0])) else n
  }

  lemma QuotientPositive(avail: int, per: int)
    requires avail >= per > 0
    ensures 1 <= avail / per
  {
  }

  lemma QuotientBounds(avail: int, per: int, n: int)
    requires per > 0 && n <= avail / per
    ensures n * per <= avail < (avail / per + 1) * per
  {
    assert n * per <= (avail / per) * per;
  }

  /** The chunk fits what the fragment has left. */
  lemma ChunkFits(env: Env, b: Builder, r: Run, run: seq<Event>)
    requires run != [] && r.size > 0 && Fits(b, r)
    ensures Overhead(r) + ChunkLen(env, b, r, run) * PerObject(r) <= Room(b)
  {
    QuotientBounds(Room(b) - Overhead(r), PerObject(r), ChunkLen(env, b, r, run));
  }

  /** The headers of one chunk: its common time, when it needs one, and its events. */
  function AddChunk(env: Env, b: Builder, r: Run, chunk: seq<Event>): Builder
    requires chunk != []
  {
    var base := EventBase(env, chunk[0]);
    var b' := if r.relative then AddHeader(b, CtoHeader(env, base), []) else b;
    AddHeader(b', RunHeader(env, r, base, chunk), chunk)
  }

  datatype Built = Built(b: Builder, sent: seq<Event>, unsent: seq<Event>)

  function BuildRun(env: Env, b: Builder, r: Run, run: seq<Event>): Built
    requires r.size > 0
    decreases |run|
  {
    if run == [] then Built(b, [], [])
    else
      var b' := if Fits(b, r) then b else Flush(b);
      if !Fits(b', r) then Built(b', [], run)
      else
        var n := ChunkLen(env, b', r, run);
        var rest := BuildRun(env, AddChunk(env, b', r, run[..n]), r, run[n..]);
        rest.(sent := run[..n] + rest.sent)
  }

  /** How many events from the front share the first one's group and variation. */
  function RunLength(events: seq<Event>, group: Octet, variation: Octet): (n: nat)
    ensures n <= |events|
  {
    if events != [] && EventGroup(events[0].kind) == group && events[0].variation == variation
    then 1 + RunLength(events[1..], group, variation) else 0
  }

  predicate Wide(run: seq<Event>) {
    exists e :: e in run && e.index > 0xFF
  }

  function RunOf(c: Codec, e: Event, run: seq<Event>): Run {
    Run(EventGroup(e.kind), e.variation, ObjectSize(c, e), IsRelative(c, e), Wide(run))
  }

  function DatasetHeader(e: Event): ObjectHeader
    requires |Bytes(e.value)| <= 0xFFFF
  {
    ObjectHeader(88, 1, PrefixSize2, Variable, Count(1), LE16(|Bytes(e.value)|) + Bytes(e.value))
  }

  predicate DatasetFits(b: Builder, e: Event) {
    |Bytes(e.value)| <= 0xFFFF && Size(DatasetHeader(e)) + RESPONSE_HEADER_SIZE <= b.max
  }

  function BuildEvents(env: Env, b: Builder, events: seq<Event>): Built
    decreases |events|
  {
    if events == [] then Built(b, [], [])
    else
      var e := events[0];
      if e.kind == Dataset then
        if DatasetFits(b, e) then
          var rest := BuildEvents(env, AddHeader(b, DatasetHeader(e), [e]), events[1..]);
          rest.(sent := [e] + rest.sent)
        else
          var rest := BuildEvents(env, b, events[1..]);
          rest.(unsent := [e] + rest.unsent)
      else if ObjectSize(env.codec, e) == 0 then
        var rest := BuildEvents(env, b, events[1..]);
        rest.(unsent := [e] + rest.unsent)
      else
        var n := RunLength(events, EventGroup(e.kind), e.variation);
        var first := BuildRun(env, b, RunOf(env.codec, e, events[..n]), events[..n]);
        var rest := BuildEvents(env, first.b, events[n..]);
        Built(rest.b, first.sent + rest.sent, first.unsent + rest.unsent)
  }

  // ---------- The builder as the outstation runs it ----------

  lemma AppendedOctets(hs: seq<ObjectHeader>, h: ObjectHeader)
    ensures EncodeAll(hs + [h]) == EncodeAll(hs) + Encode(h)
  {
    hide Encode;
    assert Encodings(hs + [h]) == Encodings(hs) + [Encode(h)];
    FlattenSnoc(Encodings(hs), Encode(h));
  }

  /** Octets accumulated into fragments; `model` is the same builder header by header. */
  class ResponseBuilder {
    const max: nat
    var fragments: seq<seq<Octet>>
    var cur: seq<Octet>
    ghost var model: Builder

    ghost predicate Valid()
      reads this
    {
      && model.max == max
      && |fragments| == |model.finished|
      && (forall k :: 0 <= k < |fragments| ==> fragments[k] == EncodeAll(model.finished[k].headers))
      && cur == EncodeAll(model.cur.headers)
    }

    constructor (maxFragment: int)
      ensures Valid() && model == NewBuilder(maxFragment)
    {
      max := if maxFragment <= 0 then DEFAULT_MAX_FRAGMENT else maxFragment;
      fragments, cur := [], [];
      model := NewBuilder(maxFragment);
      new;
      assert Encodings([]) == [];
    }

    method RoomLeft() returns (room: int)
      requires Valid()
      ensures room == Room(model)
    {
      EncodedSize(model.cur.headers);
      room := max - RESPONSE_HEADER_SIZE - |cur|;
    }

    method FlushCurrent()
      requires Valid()
      modifies this`fragments, this`cur, this`model
      ensures Valid() && model == Flush(old(model))
    {
      hide EncodeAll;
      EncodedSize(model.cur.headers);
      model := Flush(model);
      if |cur| > 0 {
        fragments, cur := fragments + [cur], [];
        EncodeNone();
      }
    }

    method AppendHeader(h: ObjectHeader, ghost events: seq<Event>)
      requires Valid()
      modifies this`fragments, this`cur, this`model
      ensures Valid() && model == AddHeader(old(model), h, events)
    {
      hide EncodeAll, Encode, Size;
      var room := RoomLeft();
      if Size(h) > room { FlushCurrent(); }
      AppendedOctets(model.cur.headers, h);
      cur := cur + Encode(h);
      model := model.(cur := Body(model.cur.headers + [h], model.cur.carried + events));
    }

    /** Every accumulated fragment body; a response with no objects still has one. */
    method Finish() returns (bodies: seq<seq<Octet>>)
      requires Valid()
      modifies this`fragments, this`cur, this`model
      ensures var done := Done(old(model));
        |bodies| == |done| && forall k :: 0 <= k < |done| ==> bodies[k] == EncodeAll(done[k].headers)
    {
      hide EncodeAll;
      FlushCurrent();
      EncodeNone();
      bodies := if fragments == [] then [[]] else fragments;
    }
  }

  lemma EncodeNone()
    ensures EncodeAll([]) == []
  {
    assert Encodings([]) == [];
  }

  /** Splits one run of events over as many headers and fragments as it needs. */
  method EmitRun(env: Env, b: ResponseBuilder, r: Run, run: seq<Event>) returns (unsent: seq<Event>)
    requires b.Valid() && r.size > 0
    modifies b
    ensures b.Valid()
    ensures var built := BuildRun(env, old(b.model), r, run); b.model == built.b && unsent == built.unsent
  {
    hide AddHeader, Flush, RunHeader, CtoHeader, EncodeAll, Room, ChunkLen, Overhead, PerObject, EventBase;
    unsent := [];
    var i := 0;
    while i < |run|
      invariant 0 <= i <= |run| && b.Valid()
      invariant var whole, rest := BuildRun(env, old(b.model), r, run), BuildRun(env, b.model, r, run[i..]);
        whole.b == rest.b && whole.unsent == rest.unsent
    {
      var rest := run[i..];
      var room := b.RoomLeft();
      if room - Overhead(r) < PerObject(r) {
        b.FlushCurrent();
        room := b.RoomLeft();
        if room - Overhead(r) < PerObject(r) {
          return rest;
        }
      }
      var n := NextChunk(env, b, r, rest);
      EmitChunk(env, b, r, rest[..n]);
      assert rest[n..] == run[i + n..];
      i := i + n;
    }
  }

  method NextChunk(env: Env, b: ResponseBuilder, r: Run, run: seq<Event>) returns (n: nat)
    requires b.Valid() && run != [] && r.size > 0 && Fits(b.model, r)
    ensures n == ChunkLen(env, b.model, r, run)
  {
    var avail := b.RoomLeft();
    avail := avail - Overhead(r);
    QuotientPositive(avail, PerObject(r));
    n := Min(Min(avail / PerObject(r), |run|), MaxCount(r));
    if r.relative { n := EventsWithinWindow(run[..n], EventBase(env, run[0])); }
  }

  method EmitChunk(env: Env, b: ResponseBuilder, r: Run, chunk: seq<Event>)
    requires b.Valid() && chunk != []
    modifies b
    ensures b.Valid() && b.model == AddChunk(env, old(b.model), r, chunk)
  {
    hide AddHeader, RunHeader, CtoHeader, EncodeAll;
    var base := EventBase(env, chunk[0]);
    if r.relative { b.AppendHeader(CtoHeader(env, base), []); }
    b.AppendHeader(RunHeader(env, r, base, chunk), chunk);
  }

  /** One turn of the loop over events. */
  lemma BuildEventsTurn(env: Env, b: Builder, events: seq<Event>)
    requires events != []
    ensures var e, built := events[0], BuildEvents(env, b, events);
      if e.kind == Dataset && DatasetFits(b, e) then
        var rest := BuildEvents(env, AddHeader(b, DatasetHeader(e), [e]), events[1..]);
        built.b == rest.b && built.unsent == rest.unsent
      else if e.kind == Dataset || ObjectSize(env.codec, e) == 0 then
        var rest := BuildEvents(env, b, events[1..]);
        built.b == rest.b && built.unsent == [e] + rest.unsent
      else
        var n := RunLength(events, EventGroup(e.kind), e.variation);
        var first := BuildRun(env, b, RunOf(env.codec, e, events[..n]), events[..n]);
        var rest := BuildEvents(env, first.b, events[n..]);
        built.b == rest.b && built.unsent == first.unsent + rest.unsent
  {
    hide AddHeader, BuildRun, DatasetHeader;
  }

  /** Appends the events and returns the ones no encoding or no fragment can carry. */
  method EmitEvents(env: Env, b: ResponseBuilder, events: seq<Event>) returns (unsent: seq<Event>)
    requires b.Valid()
    modifies b
    ensures b.Valid()
    ensures var built := BuildEvents(env, old(b.model), events); b.model == built.b && unsent == built.unsent
  {
    hide AddHeader, BuildRun, BuildEvents, EncodeAll, Size, DatasetHeader, RunLength, EventGroup;
    unsent := [];
    var i := 0;
    while i < |events|
      invariant 0 <= i <= |events| && b.Valid()
      invariant var whole, rest := BuildEvents(env, old(b.model), events), BuildEvents(env, b.model, events[i..]);
        whole.b == rest.b && whole.unsent == unsent + rest.unsent
    {
      var e, later := events[i], events[i..];
      assert later[1..] == events[i + 1..];
      BuildEventsTurn(env, b.model, later);
      if e.kind == Dataset {
        if |Bytes(e.value)| <= 0xFFFF && Size(DatasetHeader(e)) + RESPONSE_HEADER_SIZE <= b.max {
          b.AppendHeader(DatasetHeader(e), [e]);
        } else {
          unsent := unsent + [e];
        }
        i := i + 1;
      } else if ObjectSize(env.codec, e) == 0 {
        unsent := unsent + [e];
        i := i + 1;
      } else {
        var n := SameEncoding(later);
        var lost := EmitRun(env, b, RunOf(env.codec, e, later[..n]), later[..n]);
        unsent := unsent + lost;
        assert later[n..] == events[i + n..];
        i := i + n;
      }
    }
    BuildEventsNone(env, b.model);
  }

  lemma BuildEventsNone(env: Env, b: Builder)
    ensures BuildEvents(env, b, []) == Built(b, [], [])
  {
  }

  /** How many events from the front share the first one's encoding. */
  method SameEncoding(events: seq<Event>) returns (n: nat)
    requires events != []
    ensures 1 <= n == RunLength(events, EventGroup(events[0].kind), events[0].variation)
  {
    hide EventGroup;
    var group, variation := EventGroup(events[0].kind), events[0].variation;
    n := 0;
    while n < |events| && EventGroup(events[n].kind) == group && events[n].variation == variation
      invariant n <= |events|
      invariant RunLength(events, group, variation) == n + RunLength(events[n..], group, variation)
    {
      assert events[n..][1..] == events[n + 1..];
      n := n + 1;
    }
  }
}
