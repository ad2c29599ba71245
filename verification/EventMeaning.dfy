/** Fragment building preserves meaning: what the events become on the wire decodes, one
    fragment at a time, to the events themselves. */
module EventMeaning {
  import opened Protocol
  import opened Joining
  import opened Events
  import opened Wire
  import opened ObjectTable
  import opened EventFragments
  import opened MasterDispatch

  // ---------- Sent and unsent partition the input ----------

  /** `a` and `b` split `whole` between them, each keeping its order. */
  ghost predicate Interleaves(whole: seq<Event>, a: seq<Event>, b: seq<Event>) {
    if whole == [] then a == [] && b == []
    else
      || (a != [] && a[0] == whole[0] && Interleaves(whole[1..], a[1..], b))
      || (b != [] && b[0] == whole[0] && Interleaves(whole[1..], a, b[1..]))
  }

  lemma {:induction false} InterleavesPrefix(a: seq<Event>, b: seq<Event>)
    ensures Interleaves(a + b, a, b)
  {
    if a != [] {
      InterleavesPrefix(a[1..], b);
      assert (a + b)[1..] == a[1..] + b;
    } else if b != [] {
      InterleavesPrefix([], b[1..]);
      assert ([] + b)[1..] == [] + b[1..];
    }
  }

  lemma {:induction false} InterleavesConcat(
    w: seq<Event>, a: seq<Event>, b: seq<Event>, w': seq<Event>, a': seq<Event>, b': seq<Event>)
    requires Interleaves(w, a, b) && Interleaves(w', a', b')
    ensures Interleaves(w + w', a + a', b + b')
    decreases |w|
  {
    if w == [] {
      assert w + w' == w' && a + a' == a' && b + b' == b';
    } else if a != [] && a[0] == w[0] && Interleaves(w[1..], a[1..], b) {
      InterleavesConcat(w[1..], a[1..], b, w', a', b');
      assert (w + w')[1..] == w[1..] + w' && (a + a')[1..] == a[1..] + a';
    } else {
      InterleavesConcat(w[1..], a, b[1..], w', a', b');
      assert (w + w')[1..] == w[1..] + w' && (b + b')[1..] == b[1..] + b';
    }
  }

  lemma {:induction false} InterleavesIds(w: seq<Event>, a: seq<Event>, b: seq<Event>)
    requires Interleaves(w, a, b)
    ensures Ids(w) == Ids(a) + Ids(b)
    ensures multiset(w) == multiset(a) + multiset(b)
    decreases |w|
  {
    if w != [] {
      IdsCons(w);
      if a != [] && a[0] == w[0] && Interleaves(w[1..], a[1..], b) {
        InterleavesIds(w[1..], a[1..], b);
        IdsCons(a);
      } else {
        InterleavesIds(w[1..], a, b[1..]);
        IdsCons(b);
      }
    }
  }

  lemma IdsCons(es: seq<Event>)
    requires es != []
    ensures Ids(es) == {es[0].num} + Ids(es[1..])
    ensures multiset(es) == multiset{es[0]} + multiset(es[1..])
  {
    assert es == [es[0]] + es[1..];
    assert forall x :: x in es <==> x == es[0] || x in es[1..];
  }

  lemma {:induction false} RunPartition(env: Env, b: Builder, r: Run, run: seq<Event>)
    requires r.size > 0
    ensures var built := BuildRun(env, b, r, run); built.sent + built.unsent == run
    decreases |run|
  {
    hide AddChunk, ChunkLen, Fits, Flush;
    if run != [] {
      var b' := if Fits(b, r) then b else Flush(b);
      if Fits(b', r) {
        var n := ChunkLen(env, b', r, run);
        RunPartition(env, AddChunk(env, b', r, run[..n]), r, run[n..]);
        assert run == run[..n] + run[n..];
      }
    }
  }

  /** Every event is either encoded or reported as never encodable, and none is both. */
  lemma {:induction false} SentAndUnsentPartition(env: Env, b: Builder, events: seq<Event>)
    ensures var built := BuildEvents(env, b, events); Interleaves(events, built.sent, built.unsent)
    decreases |events|
  {
    hide BuildRun, AddHeader, DatasetHeader;
    if events != [] {
      var e := events[0];
      if e.kind == Dataset {
        var b' := if DatasetFits(b, e) then AddHeader(b, DatasetHeader(e), [e]) else b;
        SentAndUnsentPartition(env, b', events[1..]);
        HeadPartition(env, b, b', events);
      } else if ObjectSize(env.codec, e) == 0 {
        SentAndUnsentPartition(env, b, events[1..]);
        HeadPartition(env, b, b, events);
      } else {
        var n := RunLength(events, EventGroup(e.kind), e.variation);
        var r := RunOf(env.codec, e, events[..n]);
        var first := BuildRun(env, b, r, events[..n]);
        var rest := BuildEvents(env, first.b, events[n..]);
        RunPartition(env, b, r, events[..n]);
        InterleavesPrefix(first.sent, first.unsent);
        SentAndUnsentPartition(env, first.b, events[n..]);
        InterleavesConcat(events[..n], first.sent, first.unsent, events[n..], rest.sent, rest.unsent);
        assert events[..n] + events[n..] == events;
      }
    }
  }

  lemma HeadPartition(env: Env, b: Builder, b': Builder, events: seq<Event>)
    requires events != []
    requires var built, rest := BuildEvents(env, b, events), BuildEvents(env, b', events[1..]);
      && Interleaves(events[1..], rest.sent, rest.unsent)
      && (|| (built.sent == [events[0]] + rest.sent && built.unsent == rest.unsent)
          || (built.sent == rest.sent && built.unsent == [events[0]] + rest.unsent))
    ensures var built := BuildEvents(env, b, events); Interleaves(events, built.sent, built.unsent)
  {
    var built, rest := BuildEvents(env, b, events), BuildEvents(env, b', events[1..]);
    assert ([events[0]] + rest.sent)[1..] == rest.sent;
    assert ([events[0]] + rest.unsent)[1..] == rest.unsent;
  }

  // ---------- One object comes back as the event it encodes ----------

  /** What makes an event belong under a run's headers. */
  ghost predicate OfRun(c: Codec, r: Run, e: Event) {
    && EventGroup(e.kind) == r.group && e.variation == r.variation && e.kind != Dataset
    && ObjectSize(c, e) == r.size && IsRelative(c, e) == r.relative
    && (r.wide || e.index <= 0xFF)
  }

  /** A common time as a master reads it. */
  function ReadBase(base: int): Timestamp {
    At(WireTime(base) * NS_PER_MS)
  }

  /** What a decoded object must say to report `e`: its own group, variation and full index,
      its own octets, and, when relative, its unclamped offset from the common time. */
  ghost predicate Faithful(c: Codec, e: Event, base: int, d: Decoded) {
    if e.kind == Dataset then d == Decoded(88, 1, 0, Bytes(e.value), NoTime)
    else
      && d.group == EventGroup(e.kind) && d.variation == e.variation && d.index == e.index
      && d.value == FixedPart(c, e)
      && (IsRelative(c, e) ==>
            InWindow(e, base) && d.time == RelativeTime(ReadBase(base), RelativeOffset(e.time, base)))
  }

  ghost predicate Matched(c: Codec, es: seq<Event>, bases: seq<int>, ds: seq<Decoded>) {
    |es| == |bases| == |ds| && forall k :: 0 <= k < |es| ==> Faithful(c, es[k], bases[k], ds[k])
  }

  function Repeat(base: int, n: nat): seq<int> {
    seq(n, _ => base)
  }

  lemma FixedPartLength(c: Codec, r: Run, e: Event)
    requires ValidCodec(c) && OfRun(c, r, e) && r.size > 0
    ensures |FixedPart(c, e)| + (if r.relative then 2 else 0) == r.size
  {
  }

  lemma EncodedLength(c: Codec, r: Run, base: int, e: Event)
    requires ValidCodec(c) && OfRun(c, r, e) && r.size > 0
    ensures |EncodeEvent(c, r, base, e)| == PerObject(r)
  {
    FixedPartLength(c, r, e);
  }

  predicate WithinAMillisecond(t: Timestamp, ns: int) {
    t.At? && -NS_PER_MS < t.ns - ns < NS_PER_MS
  }

  /** Whether clamping a common time leaves a time relative to it near enough: the common time is
      not clamped, or is clamped by one millisecond, toward the part of one the offset leaves off. */
  predicate TimeKept(base: int, ns: int) {
    || Representable(base)
    || (base == -1 && ns >= base * NS_PER_MS && ns % NS_PER_MS != 0)
    || (base == MAX_DNP3_TIME + 1 && ns < base * NS_PER_MS)
  }

  /** The offset of an event in the window is not clamped, and it resolves to within a
      millisecond if and only if `TimeKept`. */
  lemma WindowTimeExact(e: Event, base: int)
    requires e.time.At? && InWindow(e, base)
    ensures RelativeOffset(e.time, base) == Milliseconds(e.time.ns - base * NS_PER_MS)
    ensures WithinAMillisecond(RelativeTime(ReadBase(base), RelativeOffset(e.time, base)), e.time.ns) <==>
            TimeKept(base, e.time.ns)
  {
    var delta := e.time.ns - base * NS_PER_MS;
    var off := Milliseconds(delta);
    var clamped := WireTime(base) - base;
    assert RelativeTime(ReadBase(base), off).ns - e.time.ns == clamped * NS_PER_MS + (off * NS_PER_MS - delta);
  }

  ghost predicate CtoSuits(r: Run, base: int, cto: Timestamp) {
    r.relative ==> cto == ReadBase(base)
  }

  lemma ParsedObjectFaithful(c: Codec, r: Run, base: int, e: Event, cto: Timestamp)
    requires ValidCodec(c) && OfRun(c, r, e) && r.size > 0
    requires CtoSuits(r, base, cto) && (r.relative ==> InWindow(e, base))
    ensures var obj := FixedPart(c, e) + (if r.relative then LE16(RelativeOffset(e.time, base)) else []);
      |obj| == r.size && Faithful(c, e, base, ParseObject(c, r.group, r.variation, e.index, obj, cto))
  {
    FixedPartLength(c, r, e);
    var fixed := FixedPart(c, e);
    if r.relative {
      var off := RelativeOffset(e.time, base);
      var obj := fixed + LE16(off);
      assert obj[..|obj| - 2] == fixed;
      LE16RoundTrip(off, []);
      assert obj[|obj| - 2..] == LE16(off) + [];
    } else {
      assert (r.group, r.variation) !in c.relative;
    }
  }

  lemma IndexRoundTrip(c: Codec, r: Run, base: int, e: Event, rest: seq<Octet>)
    requires OfRun(c, r, e)
    ensures var buf, n := EncodeEvent(c, r, base, e) + rest, if r.wide then 2 else 1;
      |buf| >= n && ReadPrefix(buf, n) == e.index
  {
    var tail := FixedPart(c, e) + (if r.relative then LE16(RelativeOffset(e.time, base)) else []) + rest;
    if r.wide {
      LE16RoundTrip(e.index, tail);
      assert EncodeEvent(c, r, base, e) + rest == LE16(e.index) + tail;
    } else {
      assert EncodeEvent(c, r, base, e) + rest == [e.index % 0x100] + tail;
    }
  }

  lemma ObjectSlice(c: Codec, r: Run, base: int, e: Event, rest: seq<Octet>)
    requires ValidCodec(c) && OfRun(c, r, e) && r.size > 0
    ensures var buf, n := EncodeEvent(c, r, base, e) + rest, if r.wide then 2 else 1;
      && |buf| >= PerObject(r)
      && buf[n..n + r.size] == FixedPart(c, e) + (if r.relative then LE16(RelativeOffset(e.time, base)) else [])
      && buf[n + r.size..] == rest
  {
    EncodedLength(c, r, base, e);
    FixedPartLength(c, r, e);
  }

  // ---------- One header comes back as its chunk ----------

  ghost predicate ChunkOk(c: Codec, r: Run, base: int, chunk: seq<Event>) {
    && r.size > 0
    && (forall e :: e in chunk ==> OfRun(c, r, e))
    && (r.relative ==> forall e :: e in chunk ==> InWindow(e, base))
  }

  lemma {:induction false} ObjectsDecode(
    c: Codec, r: Run, base: int, h: ObjectHeader, cto: Timestamp, rest: seq<Event>, i: nat)
    requires ValidCodec(c) && ChunkOk(c, r, base, rest) && CtoSuits(r, base, cto)
    requires h.group == r.group && h.variation == r.variation && h.range.Objects() == i + |rest|
    ensures Matched(c, rest, Repeat(base, |rest|),
      DecodeObjects(c, h, r.size, if r.wide then 2 else 1, cto, i, Flatten(EncodeEvents(c, r, base, rest))))
    decreases |rest|
  {
    hide ChunkOk, OfRun, EncodeEvent, EncodeEvents, ParseObject, Faithful, InWindow, ValidCodec;
    if rest != [] {
      var n := if r.wide then 2 else 1;
      var e, later := rest[0], rest[1..];
      ChunkOkCons(c, r, base, rest);
      ObjectsDecode(c, r, base, h, cto, later, i + 1);
      var buf := EncodeEvent(c, r, base, e) + Flatten(EncodeEvents(c, r, base, later));
      EventsCons(c, r, base, rest);
      IndexRoundTrip(c, r, base, e, Flatten(EncodeEvents(c, r, base, later)));
      ObjectSlice(c, r, base, e, Flatten(EncodeEvents(c, r, base, later)));
      ParsedObjectFaithful(c, r, base, e, cto);
      assert [base] + Repeat(base, |later|) == Repeat(base, |rest|);
      MatchedCons(c, e, base, later, Repeat(base, |later|),
        ParseObject(c, r.group, r.variation, e.index, buf[n..n + r.size], cto),
        DecodeObjects(c, h, r.size, n, cto, i + 1, buf[n + r.size..]));
      assert [e] + later == rest;
    } else {
      assert EncodeEvents(c, r, base, rest) == [];
    }
  }

  lemma ChunkOkCons(c: Codec, r: Run, base: int, es: seq<Event>)
    requires ChunkOk(c, r, base, es) && es != []
    ensures OfRun(c, r, es[0]) && r.size > 0 && (r.relative ==> InWindow(es[0], base))
    ensures ChunkOk(c, r, base, es[1..])
  {
    hide OfRun, InWindow;
    assert es[0] in es;
    assert forall x :: x in es[1..] ==> x in es;
  }

  lemma EventsCons(c: Codec, r: Run, base: int, es: seq<Event>)
    requires es != []
    ensures Flatten(EncodeEvents(c, r, base, es)) ==
            EncodeEvent(c, r, base, es[0]) + Flatten(EncodeEvents(c, r, base, es[1..]))
  {
    hide EncodeEvent;
    FlattenCons(EncodeEvents(c, r, base, es));
    assert EncodeEvents(c, r, base, es)[1..] == EncodeEvents(c, r, base, es[1..]);
  }

  lemma MatchedCons(c: Codec, e: Event, base: int, es: seq<Event>, bases: seq<int>, d: Decoded, ds: seq<Decoded>)
    requires Faithful(c, e, base, d) && Matched(c, es, bases, ds)
    ensures Matched(c, [e] + es, [base] + bases, [d] + ds)
  {
    hide Faithful;
  }

  lemma MatchedConcat(
    c: Codec, es: seq<Event>, bases: seq<int>, ds: seq<Decoded>, es': seq<Event>, bases': seq<int>, ds': seq<Decoded>)
    requires Matched(c, es, bases, ds) && Matched(c, es', bases', ds')
    ensures Matched(c, es + es', bases + bases', ds + ds')
  {
    hide Faithful;
  }

  lemma {:induction false} ChunkDataLength(c: Codec, r: Run, base: int, chunk: seq<Event>)
    requires ValidCodec(c) && ChunkOk(c, r, base, chunk)
    ensures |Flatten(EncodeEvents(c, r, base, chunk))| == |chunk| * PerObject(r)
    decreases |chunk|
  {
    hide ChunkOk, EncodeEvent, EncodeEvents, ValidCodec, PerObject;
    if chunk != [] {
      ChunkOkCons(c, r, base, chunk);
      ChunkDataLength(c, r, base, chunk[1..]);
      EventsCons(c, r, base, chunk);
      EncodedLength(c, r, base, chunk[0]);
      ProductStep(|chunk|, PerObject(r));
    } else {
      assert EncodeEvents(c, r, base, chunk) == [];
    }
  }

  lemma ProductStep(n: int, per: int)
    ensures n * per == per + (n - 1) * per
  {
  }

  lemma RunHeaderDelivers(env: Env, r: Run, base: int, chunk: seq<Event>, cto: Timestamp)
    requires ValidCodec(env.codec) && ChunkOk(env.codec, r, base, chunk) && CtoSuits(r, base, cto)
    requires chunk != []
    ensures var h := RunHeader(env, r, base, chunk);
      && !IsCto(h)
      && Matched(env.codec, chunk, Repeat(base, |chunk|), DispatchHeader(env.codec, h, cto))
  {
    hide DecodeObjects, EncodeEvents, Flatten, Faithful;
    var c, h := env.codec, RunHeader(env, r, base, chunk);
    assert chunk[0] in chunk;
    ChunkDataLength(c, r, base, chunk);
    assert |chunk| * PerObject(r) >= 1 by { ProductPositive(|chunk|, PerObject(r)); }
    ObjectsDecode(c, r, base, h, cto, chunk, 0);
    EventGroupRange(chunk[0].kind);
    assert DispatchedSize(c, r.group, r.variation) == r.size;
  }

  lemma ProductPositive(a: int, b: int)
    requires a >= 1 && b >= 1
    ensures a * b >= 1
  {
  }

  lemma EventGroupRange(kind: PointType)
    requires kind != Dataset
    ensures EventGroup(kind) != 51 && !(85 <= EventGroup(kind) <= 88)
    ensures EventGroup(kind) in {110, 111, 112, 113} <==> LengthIsVariation(kind)
  {
  }

  lemma RunHeaderWellFormed(env: Env, r: Run, base: int, chunk: seq<Event>)
    requires ValidCodec(env.codec) && ChunkOk(env.codec, r, base, chunk)
    requires 0 < |chunk| <= MaxCount(r)
    ensures WellFormed(env.codec.sizes, RunHeader(env, r, base, chunk))
    ensures Size(RunHeader(env, r, base, chunk)) ==
            OBJECT_HEADER_SIZE + (if r.wide then 2 else 1) + |chunk| * PerObject(r)
  {
    hide EncodeEvents, Flatten;
    var c, h := env.codec, RunHeader(env, r, base, chunk);
    var e := chunk[0];
    assert e in chunk;
    ChunkDataLength(c, r, base, chunk);
    EventGroupRange(e.kind);
    assert r.variation != 0;
    assert SizeBits(c.sizes, r.group, r.variation) == Some(8 * r.size);
  }

  // ---------- The common time of occurrence ----------

  /** A common time is read as the nearest 48 bits can hold: as it was, if and only if it fits. */
  lemma CtoExact(env: Env, base: int)
    ensures var h := CtoHeader(env, base);
      && IsCto(h) && CtoAfter(h, NoTime) == ReadBase(base)
      && (ReadBase(base) == At(base * NS_PER_MS) <==> Representable(base))
  {
    var h, ms := CtoHeader(env, base), WireTime(base);
    assert h.data[..TIME48_SIZE] == LittleEndian(ms, TIME48_SIZE);
    assert Pow256(TIME48_SIZE) == 0x1_0000_0000_0000 by { Pow256Six(); }
    LittleEndianRoundTrip(ms, TIME48_SIZE);
  }

  lemma Pow256Six()
    ensures Pow256(6) == 0x1_0000_0000_0000
  {
    assert Pow256(3) == 0x100_0000;
  }

  lemma CtoWellFormed(env: Env, base: int)
    requires ValidCodec(env.codec)
    ensures WellFormed(env.codec.sizes, CtoHeader(env, base)) && Size(CtoHeader(env, base)) == CTO_SIZE
  {
    hide LittleEndian;
  }

  // ---------- The builder keeps every body deliverable on its own ----------

  ghost predicate BodyFits(max: nat, body: Body) {
    body.headers == [] || TotalSize(body.headers) + RESPONSE_HEADER_SIZE <= max
  }

  ghost predicate BodyOk(c: Codec, max: nat, body: Body) {
    && AllWellFormed(c.sizes, body.headers)
    && BodyFits(max, body)
    && |body.carried| == |Deliver(c, body.headers, NoTime)|
  }

  /** What the bodies deliver, each read with no other to hand. */
  function DeliveredAll(c: Codec, bodies: seq<Body>): seq<Decoded> {
    if bodies == [] then []
    else DeliveredAll(c, bodies[..|bodies| - 1]) + Deliver(c, bodies[|bodies| - 1].headers, NoTime)
  }

  function AllDelivered(c: Codec, b: Builder): seq<Decoded> {
    DeliveredAll(c, b.finished) + Deliver(c, b.cur.headers, NoTime)
  }

  ghost predicate BuilderOk(c: Codec, b: Builder, bases: seq<int>) {
    && (forall body :: body in b.finished ==> BodyOk(c, b.max, body))
    && BodyOk(c, b.max, b.cur)
    && Matched(c, AllCarried(b), bases, AllDelivered(c, b))
  }

  function Carried(bodies: seq<Body>): seq<Event> {
    if bodies == [] then [] else Carried(bodies[..|bodies| - 1]) + bodies[|bodies| - 1].carried
  }

  /** Every event the builder has encoded so far, in order. */
  function AllCarried(b: Builder): seq<Event> {
    Carried(b.finished) + b.cur.carried
  }

  lemma EmptyBodyOk(c: Codec, max: nat)
    ensures BodyOk(c, max, EMPTY_BODY)
  {
  }

  lemma FlushOk(c: Codec, b: Builder, bases: seq<int>)
    requires BuilderOk(c, b, bases)
    ensures BuilderOk(c, Flush(b), bases) && AllCarried(Flush(b)) == AllCarried(b) && Flush(b).max == b.max
  {
    hide BodyOk, Matched, Deliver;
    EmptyBodyOk(c, b.max);
    var f := b.finished + [b.cur];
    assert f[..|b.finished|] == b.finished;
    DeliverNone(c);
    assert AllCarried(Flush(b)) == AllCarried(b);
    assert AllDelivered(c, Flush(b)) == AllDelivered(c, b);
  }

  lemma DeliverNone(c: Codec)
    ensures Deliver(c, [], NoTime) == []
  {
  }

  ghost predicate DeliversAnyhow(c: Codec, hs: seq<ObjectHeader>, es: seq<Event>, bases: seq<int>) {
    forall cto :: Matched(c, es, bases, Deliver(c, hs, cto))
  }

  function Append(b: Builder, hs: seq<ObjectHeader>, es: seq<Event>): Builder {
    b.(cur := Body(b.cur.headers + hs, b.cur.carried + es))
  }

  lemma {:induction false} TotalSizeConcat(a: seq<ObjectHeader>, b: seq<ObjectHeader>)
    ensures TotalSize(a + b) == TotalSize(a) + TotalSize(b)
  {
    if b == [] {
      assert a + b == a;
    } else {
      TotalSizeConcat(a, b[..|b| - 1]);
      assert (a + b)[..|a + b| - 1] == a + b[..|b| - 1];
    }
  }

  lemma AppendOk(c: Codec, b: Builder, bases: seq<int>, hs: seq<ObjectHeader>, es: seq<Event>, more: seq<int>)
    requires BuilderOk(c, b, bases)
    requires AllWellFormed(c.sizes, hs) && DeliversAnyhow(c, hs, es, more)
    requires TotalSize(hs) <= Room(b)
    ensures BuilderOk(c, Append(b, hs, es), bases + more)
    ensures AllCarried(Append(b, hs, es)) == AllCarried(b) + es
  {
    hide Faithful, Deliver, WellFormed, DeliveredAll, Carried;
    var now := Deliver(c, hs, CtoAfterAll(b.cur.headers, NoTime));
    TotalSizeConcat(b.cur.headers, hs);
    DeliverConcat(c, b.cur.headers, hs, NoTime);
    assert Matched(c, es, more, now);
    MatchedConcat(c, AllCarried(b), bases, AllDelivered(c, b), es, more, now);
    assert AllDelivered(c, Append(b, hs, es)) == AllDelivered(c, b) + now;
  }

  /** A builder whose empty fragment carries nothing. */
  ghost predicate Tidy(b: Builder) {
    b.cur.headers == [] ==> b.cur.carried == []
  }

  lemma AddCarries(b: Builder, h: ObjectHeader, es: seq<Event>)
    requires Tidy(b)
    ensures var b' := AddHeader(b, h, es); Tidy(b') && AllCarried(b') == AllCarried(b) + es
  {
    hide Size, Room;
    FlushTidy(b);
  }

  lemma FlushTidy(b: Builder)
    requires Tidy(b)
    ensures Tidy(Flush(b)) && AllCarried(Flush(b)) == AllCarried(b)
  {
    var f := b.finished + [b.cur];
    assert f[..|b.finished|] == b.finished;
  }

  lemma {:induction false} BuildRunCarries(env: Env, b: Builder, r: Run, run: seq<Event>)
    requires r.size > 0 && Tidy(b)
    ensures var built := BuildRun(env, b, r, run);
      Tidy(built.b) && AllCarried(built.b) == AllCarried(b) + built.sent
    decreases |run|
  {
    hide ChunkLen, Fits, Flush, AddHeader, RunHeader, CtoHeader, AllCarried, EventBase;
    if run != [] {
      FlushTidy(b);
      var b' := if Fits(b, r) then b else Flush(b);
      if Fits(b', r) {
        var n := ChunkLen(env, b', r, run);
        var base := EventBase(env, run[..n][0]);
        AddCarries(b', CtoHeader(env, base), []);
        var b1 := if r.relative then AddHeader(b', CtoHeader(env, base), []) else b';
        AddCarries(b1, RunHeader(env, r, base, run[..n]), run[..n]);
        BuildRunCarries(env, AddChunk(env, b', r, run[..n]), r, run[n..]);
      }
    }
  }

  /** The bodies carry exactly the events reported as sent, in order. */
  lemma {:induction false} BuildEventsCarries(env: Env, b: Builder, events: seq<Event>)
    requires Tidy(b)
    ensures var built := BuildEvents(env, b, events);
      Tidy(built.b) && AllCarried(built.b) == AllCarried(b) + built.sent
    decreases |events|
  {
    hide Tidy, AllCarried, BuildRun, AddHeader, DatasetHeader, EventGroup;
    if events != [] {
      var c, e := env.codec, events[0];
      if e.kind == Dataset {
        if DatasetFits(b, e) { AddCarries(b, DatasetHeader(e), [e]); }
        BuildEventsCarries(env, if DatasetFits(b, e) then AddHeader(b, DatasetHeader(e), [e]) else b, events[1..]);
      } else if ObjectSize(c, e) == 0 {
        BuildEventsCarries(env, b, events[1..]);
      } else {
        var n := RunLength(events, EventGroup(e.kind), e.variation);
        var r := RunOf(c, e, events[..n]);
        BuildRunCarries(env, b, r, events[..n]);
        BuildEventsCarries(env, BuildRun(env, b, r, events[..n]).b, events[n..]);
      }
    }
  }

  lemma DoneCarries(b: Builder)
    requires Tidy(b)
    ensures Carried(Done(b)) == AllCarried(b)
  {
    var f := b.finished + [b.cur];
    assert f[..|b.finished|] == b.finished;
    assert Carried([EMPTY_BODY]) == [] + EMPTY_BODY.carried;
  }

  // ---------- Chunks ----------

  function ChunkHeaders(env: Env, r: Run, chunk: seq<Event>): seq<ObjectHeader>
    requires chunk != []
  {
    var base := EventBase(env, chunk[0]);
    (if r.relative then [CtoHeader(env, base)] else []) + [RunHeader(env, r, base, chunk)]
  }

  lemma AddChunkAppends(env: Env, b: Builder, r: Run, chunk: seq<Event>)
    requires ValidCodec(env.codec) && 0 < |chunk| <= MaxCount(r)
    requires ChunkOk(env.codec, r, EventBase(env, chunk[0]), chunk)
    requires Overhead(r) + |chunk| * PerObject(r) <= Room(b)
    ensures AddChunk(env, b, r, chunk) == Append(b, ChunkHeaders(env, r, chunk), chunk)
    ensures TotalSize(ChunkHeaders(env, r, chunk)) == Overhead(r) + |chunk| * PerObject(r)
    ensures AllWellFormed(env.codec.sizes, ChunkHeaders(env, r, chunk))
  {
    hide RunHeader, CtoHeader, WellFormed, ChunkOk, Size;
    var base := EventBase(env, chunk[0]);
    var cto, h := CtoHeader(env, base), RunHeader(env, r, base, chunk);
    CtoWellFormed(env, base);
    RunHeaderWellFormed(env, r, base, chunk);
    TotalSizeConcat(b.cur.headers, [cto]);
    assert TotalSize([cto]) == Size(cto) && TotalSize([h]) == Size(h);
    TotalSizeConcat([cto], [h]);
    assert b.cur.carried + [] == b.cur.carried;
    assert (b.cur.headers + [cto]) + [h] == b.cur.headers + ([cto] + [h]);
    assert [] + [h] == [h];
  }

  lemma ChunkDelivers(env: Env, r: Run, chunk: seq<Event>)
    requires ValidCodec(env.codec) && chunk != []
    requires ChunkOk(env.codec, r, EventBase(env, chunk[0]), chunk)
    ensures DeliversAnyhow(env.codec, ChunkHeaders(env, r, chunk), chunk, Repeat(EventBase(env, chunk[0]), |chunk|))
  {
    hide Matched, RunHeader, CtoHeader, ChunkOk, DispatchHeader, Repeat, ReadBase;
    var c, base := env.codec, EventBase(env, chunk[0]);
    var h := RunHeader(env, r, base, chunk);
    forall cto ensures Matched(c, chunk, Repeat(base, |chunk|), Deliver(c, ChunkHeaders(env, r, chunk), cto)) {
      if r.relative {
        CtoExact(env, base);
        var resolved := CtoAfter(CtoHeader(env, base), cto);
        assert resolved == CtoAfter(CtoHeader(env, base), NoTime);
        RunHeaderDelivers(env, r, base, chunk, resolved);
        DeliverPair(c, CtoHeader(env, base), h, cto);
      } else {
        RunHeaderDelivers(env, r, base, chunk, cto);
        DeliverOne(c, h, cto);
        assert [] + [h] == [h];
      }
    }
  }

  lemma DeliverOne(c: Codec, h: ObjectHeader, cto: Timestamp)
    requires !IsCto(h)
    ensures Deliver(c, [h], cto) == DispatchHeader(c, h, cto)
  {
    hide DispatchHeader;
    assert [h][1..] == [];
  }

  lemma DeliverPair(c: Codec, g: ObjectHeader, h: ObjectHeader, cto: Timestamp)
    requires IsCto(g) && !IsCto(h)
    ensures Deliver(c, [g] + [h], cto) == DispatchHeader(c, h, CtoAfter(g, cto))
  {
    hide DispatchHeader, CtoAfter;
    assert ([g] + [h])[1..] == [h];
    DeliverOne(c, h, CtoAfter(g, cto));
  }

  lemma FirstInWindow(env: Env, e: Event)
    ensures InWindow(e, EventBase(env, e))
  {
  }

  lemma {:induction false} WithinAll(events: seq<Event>, base: int)
    ensures forall k :: 0 <= k < Within(events, base) ==> InWindow(events[k], base)
    decreases |events|
  {
    if events != [] { WithinAll(events[1..], base); }
  }

  lemma ChunkInWindow(env: Env, b: Builder, r: Run, run: seq<Event>)
    requires run != [] && r.size > 0 && Fits(b, r) && r.relative
    ensures var n := ChunkLen(env, b, r, run);
      forall k :: 0 <= k < n ==> InWindow(run[k], EventBase(env, run[0]))
  {
    hide InWindow;
    var base := EventBase(env, run[0]);
    QuotientPositive(Room(b) - Overhead(r), PerObject(r));
    var n := Min(Min((Room(b) - Overhead(r)) / PerObject(r), |run|), MaxCount(r));
    FirstInWindow(env, run[0]);
    WithinAll(run[..n], base);
  }

  ghost predicate RunOk(env: Env, r: Run, run: seq<Event>) {
    r.size > 0 && forall e :: e in run ==> OfRun(env.codec, r, e)
  }

  /** The common time of each event a run encodes: that of the first event of its chunk. */
  function RunBases(env: Env, b: Builder, r: Run, run: seq<Event>): seq<int>
    requires r.size > 0
    decreases |run|
  {
    if run == [] then []
    else
      var b' := if Fits(b, r) then b else Flush(b);
      if !Fits(b', r) then []
      else
        var n := ChunkLen(env, b', r, run);
        Repeat(EventBase(env, run[0]), n) + RunBases(env, AddChunk(env, b', r, run[..n]), r, run[n..])
  }

  lemma NextChunkOk(env: Env, b: Builder, bases: seq<int>, r: Run, run: seq<Event>)
    requires ValidCodec(env.codec) && BuilderOk(env.codec, b, bases) && RunOk(env, r, run)
    requires run != [] && Fits(b, r)
    ensures var n := ChunkLen(env, b, r, run);
      var b' := AddChunk(env, b, r, run[..n]);
      && BuilderOk(env.codec, b', bases + Repeat(EventBase(env, run[0]), n))
      && AllCarried(b') == AllCarried(b) + run[..n] && b'.max == b.max
  {
    hide ValidCodec, BuilderOk, ChunkLen, OfRun, InWindow, AddChunk, ChunkHeaders, EventBase, Room, Fits, Overhead,
         PerObject, MaxCount, AllCarried, Repeat;
    var n := ChunkLen(env, b, r, run);
    var chunk := run[..n];
    ChunkFits(env, b, r, run);
    if r.relative { ChunkInWindow(env, b, r, run); }
    assert forall e :: e in chunk ==> e in run;
    assert ChunkOk(env.codec, r, EventBase(env, chunk[0]), chunk);
    AddChunkAppends(env, b, r, chunk);
    ChunkDelivers(env, r, chunk);
    AppendOk(env.codec, b, bases, ChunkHeaders(env, r, chunk), chunk, Repeat(EventBase(env, run[0]), n));
  }

  lemma RunOkSuffix(env: Env, r: Run, run: seq<Event>, n: nat)
    requires RunOk(env, r, run) && n <= |run|
    ensures RunOk(env, r, run[n..])
  {
    hide OfRun;
    assert forall e :: e in run[n..] ==> e in run;
  }

  lemma {:induction false} BuildRunOk(env: Env, b: Builder, bases: seq<int>, r: Run, run: seq<Event>)
    requires ValidCodec(env.codec) && BuilderOk(env.codec, b, bases) && r.size > 0 && RunOk(env, r, run)
    ensures var built := BuildRun(env, b, r, run);
      && BuilderOk(env.codec, built.b, bases + RunBases(env, b, r, run))
      && AllCarried(built.b) == AllCarried(b) + built.sent && built.b.max == b.max
    decreases |run|
  {
    hide ValidCodec, BuilderOk, RunOk, ChunkLen, AddChunk, Fits, AllCarried, Flush, Repeat, EventBase;
    assert bases + [] == bases;
    if run != [] {
      FlushOk(env.codec, b, bases);
      var b' := if Fits(b, r) then b else Flush(b);
      if Fits(b', r) {
        var n := ChunkLen(env, b', r, run);
        var here := Repeat(EventBase(env, run[0]), n);
        NextChunkOk(env, b', bases, r, run);
        RunOkSuffix(env, r, run, n);
        var next := AddChunk(env, b', r, run[..n]);
        BuildRunOk(env, next, bases + here, r, run[n..]);
        assert (bases + here) + RunBases(env, next, r, run[n..]) == bases + (here + RunBases(env, next, r, run[n..]));
      }
    }
  }

  // ---------- Whole event lists ----------

  lemma EventGroupInjective(k: PointType, k': PointType)
    requires EventGroup(k) == EventGroup(k')
    ensures k == k'
  {
  }

  lemma {:induction false} RunShares(events: seq<Event>, group: Octet, variation: Octet)
    ensures forall k :: 0 <= k < RunLength(events, group, variation) ==>
      EventGroup(events[k].kind) == group && events[k].variation == variation
    decreases |events|
  {
    hide EventGroup;
    if events != [] { RunShares(events[1..], group, variation); }
  }

  lemma RunOfOk(env: Env, events: seq<Event>)
    requires events != [] && events[0].kind != Dataset && ObjectSize(env.codec, events[0]) > 0
    ensures var e := events[0];
      var run := events[..RunLength(events, EventGroup(e.kind), e.variation)];
      RunOk(env, RunOf(env.codec, e, run), run)
  {
    hide EventGroup;
    var c, e := env.codec, events[0];
    var run := events[..RunLength(events, EventGroup(e.kind), e.variation)];
    RunShares(events, EventGroup(e.kind), e.variation);
    forall x | x in run ensures OfRun(c, RunOf(c, e, run), x) && x in events {
      EventGroupInjective(x.kind, e.kind);
    }
  }

  lemma SizedObject(bytes: seq<Octet>)
    requires |bytes| <= 0xFFFF
    ensures var data := LE16(|bytes|) + bytes;
      && SizePrefixedLen(1, data) == Some(|data|)
      && FreeFormatObjects(data) == Some([bytes])
  {
    var data := LE16(|bytes|) + bytes;
    LE16RoundTrip(|bytes|, bytes);
    assert ReadLE16(data) == |bytes|;
    assert data[|data|..] == [];
    assert data[2..] == bytes && data[2..|data|] == data[2..];
    assert SizePrefixedLen(0, data[|data|..]) == Some(0);
    assert FreeFormatObjects(data[|data|..]) == Some([]);
    assert [bytes] + [] == [bytes];
  }

  lemma DatasetDelivers(c: Codec, e: Event)
    requires e.kind == Dataset && |Bytes(e.value)| <= 0xFFFF
    ensures WellFormed(c.sizes, DatasetHeader(e))
    ensures DeliversAnyhow(c, [DatasetHeader(e)], [e], [0])
  {
    hide FreeFormatObjects, SizePrefixedLen;
    var h, bytes := DatasetHeader(e), Bytes(e.value);
    SizedObject(bytes);
    forall cto ensures Matched(c, [e], [0], Deliver(c, [h], cto)) {
      DeliverOne(c, h, cto);
      var none: seq<seq<Octet>> := [bytes][1..];
      assert none == [];
      assert Datasets(88, 1, [bytes]) == [Decoded(88, 1, 0, bytes, NoTime)];
    }
  }

  lemma AddDatasetOk(c: Codec, b: Builder, bases: seq<int>, e: Event)
    requires BuilderOk(c, b, bases) && e.kind == Dataset && DatasetFits(b, e)
    ensures var b' := AddHeader(b, DatasetHeader(e), [e]);
      BuilderOk(c, b', bases + [0]) && AllCarried(b') == AllCarried(b) + [e] && b'.max == b.max
  {
    hide BuilderOk, AllCarried, DatasetHeader, WellFormed, DeliversAnyhow;
    var h := DatasetHeader(e);
    DatasetDelivers(c, e);
    FlushOk(c, b, bases);
    var b' := if Size(h) > Room(b) then Flush(b) else b;
    assert TotalSize([h]) == Size(h);
    AppendOk(c, b', bases, [h], [e], [0]);
  }

  /** The common time of each event that is encoded. A data set has none. */
  function Bases(env: Env, b: Builder, events: seq<Event>): seq<int>
    decreases |events|
  {
    if events == [] then []
    else
      var e := events[0];
      if e.kind == Dataset then
        if DatasetFits(b, e) then [0] + Bases(env, AddHeader(b, DatasetHeader(e), [e]), events[1..])
        else Bases(env, b, events[1..])
      else if ObjectSize(env.codec, e) == 0 then Bases(env, b, events[1..])
      else
        var n := RunLength(events, EventGroup(e.kind), e.variation);
        var r := RunOf(env.codec, e, events[..n]);
        RunBases(env, b, r, events[..n]) + Bases(env, BuildRun(env, b, r, events[..n]).b, events[n..])
  }

  lemma {:induction false} BuildEventsOk(env: Env, b: Builder, bases: seq<int>, events: seq<Event>)
    requires ValidCodec(env.codec) && BuilderOk(env.codec, b, bases)
    ensures var built := BuildEvents(env, b, events);
      && BuilderOk(env.codec, built.b, bases + Bases(env, b, events))
      && AllCarried(built.b) == AllCarried(b) + built.sent && built.b.max == b.max
    decreases |events|
  {
    hide ValidCodec, BuilderOk, AllCarried, BuildRun, RunBases, RunOk, AddHeader, DatasetHeader, ObjectSize, EventGroup;
    assert bases + [] == bases;
    if events != [] {
      var c, e := env.codec, events[0];
      if e.kind == Dataset {
        if DatasetFits(b, e) {
          AddDatasetOk(c, b, bases, e);
          var b' := AddHeader(b, DatasetHeader(e), [e]);
          BuildEventsOk(env, b', bases + [0], events[1..]);
          assert (bases + [0]) + Bases(env, b', events[1..]) == bases + ([0] + Bases(env, b', events[1..]));
        } else {
          BuildEventsOk(env, b, bases, events[1..]);
        }
      } else if ObjectSize(c, e) == 0 {
        BuildEventsOk(env, b, bases, events[1..]);
      } else {
        var n := RunLength(events, EventGroup(e.kind), e.variation);
        var r := RunOf(c, e, events[..n]);
        RunOfOk(env, events);
        BuildRunOk(env, b, bases, r, events[..n]);
        var here, b' := RunBases(env, b, r, events[..n]), BuildRun(env, b, r, events[..n]).b;
        BuildEventsOk(env, b', bases + here, events[n..]);
        assert (bases + here) + Bases(env, b', events[n..]) == bases + (here + Bases(env, b', events[n..]));
      }
    }
  }

  /** What a fragment's octets deliver to a master, read with no other fragment to hand. */
  function DeliveredBy(c: Codec, body: Body): seq<Decoded> {
    DeliverFragment(c, EncodeAll(body.headers))
  }

  function DeliveredByAll(c: Codec, bodies: seq<Body>): seq<Decoded> {
    if bodies == [] then [] else DeliveredByAll(c, bodies[..|bodies| - 1]) + DeliveredBy(c, bodies[|bodies| - 1])
  }

  lemma BodyDelivers(c: Codec, max: nat, body: Body)
    requires BodyOk(c, max, body)
    ensures DeliveredBy(c, body) == Deliver(c, body.headers, NoTime) && |DeliveredBy(c, body)| == |body.carried|
    ensures body.headers == [] || |EncodeAll(body.headers)| + RESPONSE_HEADER_SIZE <= max
  {
    hide Deliver, EncodeAll;
    ParseEncodeAll(c.sizes, body.headers);
    EncodedSize(body.headers);
  }

  lemma {:induction false} BodiesDeliver(c: Codec, max: nat, bodies: seq<Body>)
    requires forall body :: body in bodies ==> BodyOk(c, max, body)
    ensures DeliveredByAll(c, bodies) == DeliveredAll(c, bodies)
  {
    hide Deliver, DeliveredBy, BodyOk;
    if bodies != [] {
      var last := bodies[|bodies| - 1];
      assert last in bodies;
      BodyDelivers(c, max, last);
      BodiesDeliver(c, max, bodies[..|bodies| - 1]);
    }
  }

  lemma DoneOk(c: Codec, b: Builder, bases: seq<int>)
    requires BuilderOk(c, b, bases) && Tidy(b)
    ensures forall body :: body in Done(b) ==> BodyOk(c, b.max, body)
    ensures DeliveredAll(c, Done(b)) == AllDelivered(c, b)
  {
    hide BodyOk, Matched;
    EmptyBodyOk(c, b.max);
    var f := b.finished + [b.cur];
    assert f[..|b.finished|] == b.finished;
    var one := [EMPTY_BODY];
    assert one[..0] == [] && DeliveredAll(c, one[..0]) == [];
  }

  /** Fragmentation preserves meaning. For every event list and fragment size: the encoded and
      the unsent events split the input between them, in order; the fragments carry exactly the
      encoded ones, once each and in order; every non-empty fragment is within the limit; and a
      master that decodes each fragment alone gets from it as many objects as it carries events,
      each at its event's own index, with its own octets, and its own offset from the common time
      of its chunk. */
  lemma {:induction false} FragmentsPreserveMeaning(env: Env, maxFragment: int, events: seq<Event>)
    requires ValidCodec(env.codec)
    ensures var start := NewBuilder(maxFragment);
      var built := BuildEvents(env, start, events);
      var bodies := Done(built.b);
      && Interleaves(events, built.sent, built.unsent)
      && Carried(bodies) == built.sent
      && (forall body :: body in bodies ==>
            && (body.headers == [] || |EncodeAll(body.headers)| + RESPONSE_HEADER_SIZE <= start.max)
            && |DeliveredBy(env.codec, body)| == |body.carried|)
      && Matched(env.codec, built.sent, Bases(env, start, events), DeliveredByAll(env.codec, bodies))
  {
    hide BuildEvents, Bases, ValidCodec, Interleaves, BodyOk, EncodeAll, DeliveredBy, Matched, Done, DeliveredByAll,
         DeliveredAll;
    var c, start := env.codec, NewBuilder(maxFragment);
    EmptyBodyOk(c, start.max);
    NothingMatched(c, start);
    var built := BuildEvents(env, start, events);
    SentAndUnsentPartition(env, start, events);
    BuildEventsOk(env, start, [], events);
    BuildEventsCarries(env, start, events);
    DoneOk(c, built.b, [] + Bases(env, start, events));
    DoneCarries(built.b);
    BodiesDeliver(c, start.max, Done(built.b));
    assert [] + Bases(env, start, events) == Bases(env, start, events);
    assert AllCarried(built.b) == built.sent;
    forall body | body in Done(built.b)
      ensures body.headers == [] || |EncodeAll(body.headers)| + RESPONSE_HEADER_SIZE <= start.max
      ensures |DeliveredBy(c, body)| == |body.carried|
    {
      BodyDelivers(c, start.max, body);
    }
  }

  lemma NothingMatched(c: Codec, b: Builder)
    requires b.finished == [] && b.cur == EMPTY_BODY
    ensures AllCarried(b) == [] && Matched(c, AllCarried(b), [], AllDelivered(c, b))
  {
  }

  // ---------- Which times come back ----------

  /** The events whose time the wire carries as an offset. */
  predicate Timed(c: Codec, e: Event) {
    e.kind != Dataset && IsRelative(c, e) && e.time.At?
  }

  /** Every relative time a master decodes is within a millisecond of its event's if and only if
      the common time of each is kept by clamping, or misses by one millisecond in the right
      direction. Every other field comes back whatever the times are. */
  lemma TimesComeBackIff(env: Env, maxFragment: int, events: seq<Event>)
    requires ValidCodec(env.codec)
    ensures var start := NewBuilder(maxFragment);
      var built, bases := BuildEvents(env, start, events), Bases(env, start, events);
      var ds := DeliveredByAll(env.codec, Done(built.b));
      && |ds| == |bases| == |built.sent|
      && (forall k :: 0 <= k < |ds| && Timed(env.codec, built.sent[k]) ==>
            (WithinAMillisecond(ds[k].time, built.sent[k].time.ns) <==> TimeKept(bases[k], built.sent[k].time.ns)))
  {
    hide BuildEvents, Bases, ValidCodec, Done, DeliveredByAll, DeliveredBy, Carried, Interleaves, EncodeAll,
         WithinAMillisecond,
         TimeKept, ReadBase, RelativeTime, RelativeOffset, InWindow, FixedPart, IsRelative;
    var start := NewBuilder(maxFragment);
    var built, bases := BuildEvents(env, start, events), Bases(env, start, events);
    FragmentsPreserveMeaning(env, maxFragment, events);
    var ds := DeliveredByAll(env.codec, Done(built.b));
    forall k | 0 <= k < |ds| && Timed(env.codec, built.sent[k])
      ensures WithinAMillisecond(ds[k].time, built.sent[k].time.ns) <==> TimeKept(bases[k], built.sent[k].time.ns)
    {
      assert Faithful(env.codec, built.sent[k], bases[k], ds[k]);
      WindowTimeExact(built.sent[k], bases[k]);
    }
  }

  /** Whether each of the events, should it lead a chunk, gives a common time 48 bits hold. */
  ghost predicate TimesRepresentable(env: Env, events: seq<Event>) {
    forall e :: e in events && IsRelative(env.codec, e) ==> Representable(EventBase(env, e))
  }

  ghost predicate BasesHeld(c: Codec, es: seq<Event>, bases: seq<int>) {
    |es| == |bases| && forall k :: 0 <= k < |es| && Timed(c, es[k]) ==> Representable(bases[k])
  }

  lemma BasesHeldConcat(c: Codec, es: seq<Event>, bases: seq<int>, es': seq<Event>, bases': seq<int>)
    requires BasesHeld(c, es, bases) && BasesHeld(c, es', bases')
    ensures BasesHeld(c, es + es', bases + bases')
  {
    hide Timed, Representable;
  }

  lemma ChunkBaseHeld(env: Env, r: Run, run: seq<Event>, n: nat)
    requires RunOk(env, r, run) && TimesRepresentable(env, run) && 0 < n <= |run|
    ensures BasesHeld(env.codec, run[..n], Repeat(EventBase(env, run[0]), n))
  {
    hide EventBase, Representable;
    forall k | 0 <= k < n && Timed(env.codec, run[k]) ensures Representable(EventBase(env, run[0])) {
      assert OfRun(env.codec, r, run[k]) && OfRun(env.codec, r, run[0]);
    }
  }

  lemma TimesSuffix(env: Env, events: seq<Event>, n: nat)
    requires TimesRepresentable(env, events) && n <= |events|
    ensures TimesRepresentable(env, events[..n]) && TimesRepresentable(env, events[n..])
  {
    hide Representable, EventBase, IsRelative;
    assert forall x :: x in events[n..] || x in events[..n] ==> x in events;
  }

  lemma {:induction false} RunBasesHeld(env: Env, b: Builder, r: Run, run: seq<Event>)
    requires r.size > 0 && RunOk(env, r, run) && TimesRepresentable(env, run)
    ensures BasesHeld(env.codec, BuildRun(env, b, r, run).sent, RunBases(env, b, r, run))
    decreases |run|
  {
    hide ChunkLen, Fits, Flush, AddChunk, EventBase, RunOk, TimesRepresentable, Repeat, Timed, Representable;
    if run != [] {
      var b' := if Fits(b, r) then b else Flush(b);
      if Fits(b', r) {
        var n := ChunkLen(env, b', r, run);
        var next := AddChunk(env, b', r, run[..n]);
        RunOkSuffix(env, r, run, n);
        TimesSuffix(env, run, n);
        RunBasesHeld(env, next, r, run[n..]);
        ChunkBaseHeld(env, r, run, n);
        BasesHeldConcat(env.codec, run[..n], Repeat(EventBase(env, run[0]), n),
                        BuildRun(env, next, r, run[n..]).sent, RunBases(env, next, r, run[n..]));
      }
    }
  }

  lemma {:induction false} EventBasesHeld(env: Env, b: Builder, events: seq<Event>)
    requires TimesRepresentable(env, events)
    ensures BasesHeld(env.codec, BuildEvents(env, b, events).sent, Bases(env, b, events))
    decreases |events|
  {
    hide BuildRun, RunBases, RunOk, AddHeader, DatasetHeader, ObjectSize, EventGroup, TimesRepresentable,
         Representable, BasesHeld;
    assert BasesHeld(env.codec, [], []) by { NoneHeld(env.codec); }
    if events != [] {
      var c, e := env.codec, events[0];
      TimesSuffix(env, events, 1);
      if e.kind == Dataset {
        if DatasetFits(b, e) {
          var b' := AddHeader(b, DatasetHeader(e), [e]);
          EventBasesHeld(env, b', events[1..]);
          DatasetHeld(c, e);
          BasesHeldConcat(c, [e], [0], BuildEvents(env, b', events[1..]).sent, Bases(env, b', events[1..]));
        } else {
          EventBasesHeld(env, b, events[1..]);
        }
      } else if ObjectSize(c, e) == 0 {
        EventBasesHeld(env, b, events[1..]);
      } else {
        var n := RunLength(events, EventGroup(e.kind), e.variation);
        var r := RunOf(c, e, events[..n]);
        RunOfOk(env, events);
        TimesSuffix(env, events, n);
        RunBasesHeld(env, b, r, events[..n]);
        var first := BuildRun(env, b, r, events[..n]);
        EventBasesHeld(env, first.b, events[n..]);
        BasesHeldConcat(c, first.sent, RunBases(env, b, r, events[..n]),
                        BuildEvents(env, first.b, events[n..]).sent, Bases(env, first.b, events[n..]));
      }
    }
  }

  lemma NoneHeld(c: Codec)
    ensures BasesHeld(c, [], [])
  {
  }

  lemma DatasetHeld(c: Codec, e: Event)
    requires e.kind == Dataset
    ensures BasesHeld(c, [e], [0])
  {
  }

  /** If 48 bits hold the millisecond of every event with a relative time, every relative time
      comes back within a millisecond, however the events are split over chunks and fragments. */
  lemma RepresentableTimesComeBack(env: Env, maxFragment: int, events: seq<Event>)
    requires ValidCodec(env.codec) && TimesRepresentable(env, events)
    ensures var built := BuildEvents(env, NewBuilder(maxFragment), events);
      var ds := DeliveredByAll(env.codec, Done(built.b));
      && |ds| == |built.sent|
      && forall k :: 0 <= k < |ds| && Timed(env.codec, built.sent[k]) ==>
           WithinAMillisecond(ds[k].time, built.sent[k].time.ns)
  {
    hide BuildEvents, Bases, ValidCodec, Done, DeliveredByAll, WithinAMillisecond, Timed, TimesRepresentable;
    EventBasesHeld(env, NewBuilder(maxFragment), events);
    TimesComeBackIff(env, maxFragment, events);
  }

  /** An event sent alone is its own common time: its time comes back if and only if it is not
      past the last millisecond 48 bits hold, and is after the one before the first. */
  lemma LoneTimeComesBackIff(env: Env, maxFragment: int, e: Event)
    requires ValidCodec(env.codec) && Timed(env.codec, e)
    ensures var built := BuildEvents(env, NewBuilder(maxFragment), [e]);
      var ds := DeliveredByAll(env.codec, Done(built.b));
      built.sent == [e] ==>
        && |ds| == 1
        && (WithinAMillisecond(ds[0].time, e.time.ns) <==> -NS_PER_MS < e.time.ns < (MAX_DNP3_TIME + 1) * NS_PER_MS)
  {
    hide BuildRun, Done, DeliveredByAll, WithinAMillisecond, ValidCodec, RunBases;
    var start := NewBuilder(maxFragment);
    TimesComeBackIff(env, maxFragment, [e]);
    if BuildEvents(env, start, [e]).sent == [e] {
      LoneBase(env, start, e);
    }
  }

  lemma LoneBase(env: Env, b: Builder, e: Event)
    requires e.kind != Dataset && BuildEvents(env, b, [e]).sent == [e]
    ensures Bases(env, b, [e]) == [EventBase(env, e)]
  {
    hide AddChunk, Fits, Flush, ChunkLen, EventBase, ObjectSize, BuildRun, RunBases, EventGroup;
    var es := [e];
    assert es[1..] == [] && es[..1] == es;
    assert RunLength(es[1..], EventGroup(e.kind), e.variation) == 0;
    if ObjectSize(env.codec, e) > 0 {
      var r := RunOf(env.codec, e, es);
      LoneRunBase(env, b, r, e);
      assert Bases(env, b, es) == RunBases(env, b, r, es) + Bases(env, BuildRun(env, b, r, es).b, es[1..]);
      assert BuildEvents(env, b, es).sent
          == BuildRun(env, b, r, es).sent + BuildEvents(env, BuildRun(env, b, r, es).b, es[1..]).sent;
    }
  }

  lemma LoneRunBase(env: Env, b: Builder, r: Run, e: Event)
    requires r.size > 0
    ensures BuildRun(env, b, r, [e]).sent == [e] ==> RunBases(env, b, r, [e]) == [EventBase(env, e)]
  {
    hide AddChunk, Fits, Flush, EventBase;
    var run := [e];
    assert run[1..] == [] && run[..1] == run;
    assert Repeat(EventBase(env, e), 1) == [EventBase(env, e)];
  }
}
