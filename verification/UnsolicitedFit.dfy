/** How many selected events fit the single fragment of an unsolicited response. */
module UnsolicitedFit {
  import opened Protocol
  import opened Events
  import opened Wire
  import opened ObjectTable
  import opened EventFragments
  import opened EventMeaning

  function FragmentCount(env: Env, maxFragment: int, events: seq<Event>): nat {
    |Done(BuildEvents(env, NewBuilder(maxFragment), events).b)|
  }

  /** Whether the events are built into one fragment. */
  predicate FitsOne(env: Env, maxFragment: int, events: seq<Event>) {
    FragmentCount(env, maxFragment, events) == 1
  }

  // ---------- What a list of events needs when nothing interrupts it ----------

  /** Octets a run takes in one fragment of any size: one header per window of relative times. */
  function RunNeed(env: Env, r: Run, run: seq<Event>): nat
    decreases |run|
  {
    if run == [] then 0
    else
      var w := if r.relative then EventsWithinWindow(run, EventBase(env, run[0])) else |run|;
      Overhead(r) + w * PerObject(r) + RunNeed(env, r, run[w..])
  }

  function Need(env: Env, max: nat, events: seq<Event>): nat
    decreases |events|
  {
    if events == [] then 0
    else
      var e := events[0];
      if e.kind == Dataset then
        (if |Bytes(e.value)| <= 0xFFFF && Size(DatasetHeader(e)) + RESPONSE_HEADER_SIZE <= max
         then Size(DatasetHeader(e)) else 0) + Need(env, max, events[1..])
      else if ObjectSize(env.codec, e) == 0 then Need(env, max, events[1..])
      else
        var n := RunLength(events, EventGroup(e.kind), e.variation);
        RunNeed(env, RunOf(env.codec, e, events[..n]), events[..n]) + Need(env, max, events[n..])
  }

  /** Octets of objects a fragment can hold. */
  function Capacity(max: nat): nat {
    if max < RESPONSE_HEADER_SIZE then 0 else max - RESPONSE_HEADER_SIZE
  }

  /** Whether an event alone fits an empty fragment with a two-octet index. */
  predicate FitsAlone(env: Env, max: nat, e: Event) {
    e.kind != Dataset && ObjectSize(env.codec, e) > 0 ==>
      var r := Run(EventGroup(e.kind), e.variation, ObjectSize(env.codec, e), IsRelative(env.codec, e), true);
      Overhead(r) + PerObject(r) + RESPONSE_HEADER_SIZE <= max
  }

  /** What a caller can check before asking how many events fit: few enough for one header's
      one-octet count, and each able to travel alone. */
  predicate Searchable(env: Env, max: nat, events: seq<Event>) {
    |events| <= 0xFF && forall e :: e in events ==> FitsAlone(env, max, e)
  }

  ghost predicate RunShape(env: Env, max: nat, r: Run, run: seq<Event>) {
    && r.size > 0
    && (forall e :: e in run ==> OfRun(env.codec, r, e))
    && |run| <= 0xFF
    && Overhead(r) + PerObject(r) + RESPONSE_HEADER_SIZE <= max
  }

  // ---------- A run against the room that is left ----------

  function Used(b: Builder): nat {
    TotalSize(b.cur.headers)
  }

  /** Building went on in the same fragment, or started another. */
  ghost predicate SameFragment(b: Builder, b': Builder, more: nat) {
    b'.finished == b.finished && Used(b') == Used(b) + more
  }

  ghost predicate NewFragment(b: Builder, b': Builder) {
    |b'.finished| > |b.finished| && b'.cur.headers != [] && Used(b') + RESPONSE_HEADER_SIZE <= b'.max
  }

  lemma ChunkUsed(env: Env, b: Builder, r: Run, run: seq<Event>)
    requires ValidCodec(env.codec) && RunShape(env, b.max, r, run) && run != [] && Fits(b, r)
    ensures var n := ChunkLen(env, b, r, run);
      var b' := AddChunk(env, b, r, run[..n]);
      && SameFragment(b, b', Overhead(r) + n * PerObject(r))
      && b'.cur.headers != [] && b'.max == b.max
      && Used(b') + RESPONSE_HEADER_SIZE <= b'.max
  {
    hide ValidCodec, ChunkLen, OfRun, InWindow, AddChunk, EventBase, Overhead, PerObject, MaxCount, ChunkHeaders;
    var n := ChunkLen(env, b, r, run);
    var chunk := run[..n];
    ChunkFits(env, b, r, run);
    if r.relative { ChunkInWindow(env, b, r, run); }
    assert forall e :: e in chunk ==> e in run;
    assert ChunkOk(env.codec, r, EventBase(env, chunk[0]), chunk);
    AddChunkAppends(env, b, r, chunk);
    TotalSizeConcat(b.cur.headers, ChunkHeaders(env, r, chunk));
    SomeHeaders(env, r, chunk);
  }

  lemma SomeHeaders(env: Env, r: Run, chunk: seq<Event>)
    requires chunk != []
    ensures ChunkHeaders(env, r, chunk) != []
  {
  }

  lemma {:induction false} WithinPrefix(events: seq<Event>, base: int, n: nat)
    requires n <= |events|
    ensures Within(events[..n], base) == Min(n, Within(events, base))
    decreases |events|
  {
    hide InWindow;
    if n > 0 && InWindow(events[0], base) {
      WithinPrefix(events[1..], base, n - 1);
      assert events[..n][1..] == events[1..][..n - 1];
    }
  }

  function WindowLen(env: Env, r: Run, run: seq<Event>): (w: nat)
    requires run != []
    ensures 1 <= w <= |run|
  {
    if r.relative then EventsWithinWindow(run, EventBase(env, run[0])) else |run|
  }

  /** A chunk is the whole window when the room allows it, and otherwise all the room allows. */
  lemma ChunkIsWindowOrRoom(env: Env, b: Builder, r: Run, run: seq<Event>)
    requires run != [] && r.size > 0 && |run| <= 0xFF && Fits(b, r)
    ensures var n, w, avail := ChunkLen(env, b, r, run), WindowLen(env, r, run), Room(b) - Overhead(r);
      (n == w && w * PerObject(r) <= avail) || (n < w && avail < (n + 1) * PerObject(r))
  {
    hide InWindow, EventBase, Overhead, Room;
    var avail, per := Room(b) - Overhead(r), PerObject(r);
    var n, w := ChunkLen(env, b, r, run), WindowLen(env, r, run);
    QuotientPositive(avail, per);
    var q := avail / per;
    QuotientBounds(avail, per, q);
    if r.relative {
      WithinPrefix(run, EventBase(env, run[0]), Min(q, |run|));
      FirstInWindow(env, run[0]);
    }
    assert n == Min(q, w);
    QuotientBounds(avail, per, n);
  }

  lemma RunNeedUnfold(env: Env, r: Run, run: seq<Event>)
    requires run != []
    ensures var w := WindowLen(env, r, run);
      RunNeed(env, r, run) == Overhead(r) + w * PerObject(r) + RunNeed(env, r, run[w..])
  {
  }

  lemma ProductGrows(a: nat, b: nat, per: nat)
    requires a <= b
    ensures a * per <= b * per
  {
  }

  /** A run that does not fit the room left starts another fragment. */
  lemma {:induction false} RunOverflows(env: Env, b: Builder, r: Run, run: seq<Event>)
    requires ValidCodec(env.codec) && RunShape(env, b.max, r, run) && run != []
    requires !Fits(b, r) && b.cur.headers != []
    ensures NewFragment(b, BuildRun(env, b, r, run).b) && BuildRun(env, b, r, run).b.max == b.max
  {
    hide ValidCodec, RunShape, BuildRun;
    var f := Flush(b);
    assert Used(f) == 0 && |f.finished| == |b.finished| + 1;
    FlushedFits(env, b, r, run);
    BuildRunUnfold(env, b, r, run);
    var n := ChunkLen(env, f, r, run);
    ChunkUsed(env, f, r, run);
    RunShapeSuffix(env, b.max, r, run, n);
    RunContinues(env, AddChunk(env, f, r, run[..n]), r, run[n..]);
  }

  lemma FlushedFits(env: Env, b: Builder, r: Run, run: seq<Event>)
    requires RunShape(env, b.max, r, run)
    ensures b.cur.headers != [] ==> Fits(Flush(b), r) && RunShape(env, Flush(b).max, r, run)
  {
  }

  lemma RunShapeSuffix(env: Env, max: nat, r: Run, run: seq<Event>, n: nat)
    requires RunShape(env, max, r, run) && n <= |run|
    ensures RunShape(env, max, r, run[n..])
  {
    hide OfRun;
    assert forall e :: e in run[n..] ==> e in run;
  }

  lemma BuildRunUnfold(env: Env, b: Builder, r: Run, run: seq<Event>)
    requires run != [] && r.size > 0
    ensures var b' := if Fits(b, r) then b else Flush(b);
      Fits(b', r) ==>
        BuildRun(env, b, r, run).b ==
        BuildRun(env, AddChunk(env, b', r, run[..ChunkLen(env, b', r, run)]), r, run[ChunkLen(env, b', r, run)..]).b
  {
    hide AddChunk, ChunkLen, Fits, Flush;
  }

  /** Whatever is left of a run, the fragments already finished stay, and the current one is
      never left empty behind them. */
  lemma {:induction false} RunContinues(env: Env, b: Builder, r: Run, run: seq<Event>)
    requires ValidCodec(env.codec) && r.size > 0 && RunShape(env, b.max, r, run)
    requires b.cur.headers != [] && Used(b) + RESPONSE_HEADER_SIZE <= b.max
    ensures var b' := BuildRun(env, b, r, run).b;
      && |b'.finished| >= |b.finished| && b'.cur.headers != []
      && Used(b') + RESPONSE_HEADER_SIZE <= b'.max && b'.max == b.max
    decreases |run|
  {
    hide ValidCodec, RunShape, BuildRun, AddChunk, ChunkLen, Fits;
    if run == [] {
      BuildRunNone(env, b, r);
    } else {
      FlushedFits(env, b, r, run);
      BuildRunUnfold(env, b, r, run);
      var b' := if Fits(b, r) then b else Flush(b);
      var n := ChunkLen(env, b', r, run);
      ChunkUsed(env, b', r, run);
      RunShapeSuffix(env, b.max, r, run, n);
      RunContinues(env, AddChunk(env, b', r, run[..n]), r, run[n..]);
    }
  }

  lemma BuildRunNone(env: Env, b: Builder, r: Run)
    requires r.size > 0
    ensures BuildRun(env, b, r, []) == Built(b, [], [])
  {
  }

  /** A run stays in the current fragment exactly when its need fits what is left. */
  lemma {:induction false} RunExact(env: Env, b: Builder, r: Run, run: seq<Event>)
    requires ValidCodec(env.codec) && r.size > 0 && RunShape(env, b.max, r, run)
    ensures var b' := BuildRun(env, b, r, run).b;
      && b'.max == b.max
      && (Used(b) + RunNeed(env, r, run) <= Capacity(b.max) ==> SameFragment(b, b', RunNeed(env, r, run)))
      && (Used(b) + RunNeed(env, r, run) > Capacity(b.max) && Used(b) <= Capacity(b.max) ==> NewFragment(b, b'))
    decreases |run|
  {
    hide ValidCodec, RunShape, BuildRun, RunNeed, AddChunk, ChunkLen, OfRun, WindowLen, PerObject, Overhead;
    if run == [] {
      BuildRunNone(env, b, r);
      RunNeedNone(env, r);
    } else if Fits(b, r) {
      RunExactFits(env, b, r, run);
    } else if Used(b) <= Capacity(b.max) {
      RunNeedAtLeast(env, b.max, r, run);
      if b.cur.headers != [] { RunOverflows(env, b, r, run); }
    } else {
      RunNeedAtLeast(env, b.max, r, run);
      RunKeepsMax(env, b, r, run);
    }
  }

  lemma RunNeedNone(env: Env, r: Run)
    ensures RunNeed(env, r, []) == 0
  {
  }

  lemma RunNeedAtLeast(env: Env, max: nat, r: Run, run: seq<Event>)
    requires run != [] && RunShape(env, max, r, run)
    ensures RunNeed(env, r, run) >= Overhead(r) + PerObject(r)
    ensures Overhead(r) + PerObject(r) <= Capacity(max) == max - RESPONSE_HEADER_SIZE
  {
    hide Overhead, PerObject, WindowLen;
    RunNeedUnfold(env, r, run);
    ProductGrows(1, WindowLen(env, r, run), PerObject(r));
  }

  lemma {:induction false} RunKeepsMax(env: Env, b: Builder, r: Run, run: seq<Event>)
    requires r.size > 0
    ensures BuildRun(env, b, r, run).b.max == b.max
    decreases |run|
  {
    hide ChunkLen, Fits, RunHeader, CtoHeader;
    if run != [] {
      var b' := if Fits(b, r) then b else Flush(b);
      if Fits(b', r) {
        var n := ChunkLen(env, b', r, run);
        RunKeepsMax(env, AddChunk(env, b', r, run[..n]), r, run[n..]);
      }
    }
  }

  lemma {:induction false} RunExactFits(env: Env, b: Builder, r: Run, run: seq<Event>)
    requires ValidCodec(env.codec) && r.size > 0 && RunShape(env, b.max, r, run) && run != [] && Fits(b, r)
    ensures var b' := BuildRun(env, b, r, run).b;
      && b'.max == b.max
      && (Used(b) + RunNeed(env, r, run) <= Capacity(b.max) ==> SameFragment(b, b', RunNeed(env, r, run)))
      && (Used(b) + RunNeed(env, r, run) > Capacity(b.max) ==> NewFragment(b, b'))
    decreases |run|, 0
  {
    hide ValidCodec, RunShape, BuildRun, RunNeed, AddChunk, ChunkLen, OfRun, WindowLen, PerObject, Overhead;
    var n, w := ChunkLen(env, b, r, run), WindowLen(env, r, run);
    var b1 := AddChunk(env, b, r, run[..n]);
    BuildRunUnfold(env, b, r, run);
    ChunkUsed(env, b, r, run);
    RunShapeSuffix(env, b.max, r, run, n);
    RunShapeFacts(env, b.max, r, run);
    RunNeedUnfold(env, r, run);
    ChunkIsWindowOrRoom(env, b, r, run);
    if n == w {
      RunExact(env, b1, r, run[n..]);
    } else {
      ProductGrows(n + 1, w, PerObject(r));
      ProductStep(n + 1, PerObject(r));
      RunOverflows(env, b1, r, run[n..]);
    }
  }

  lemma RunShapeFacts(env: Env, max: nat, r: Run, run: seq<Event>)
    requires RunShape(env, max, r, run)
    ensures |run| <= 0xFF && RESPONSE_HEADER_SIZE <= max
  {
  }

  // ---------- A list of events against the room that is left ----------

  lemma RunOfShape(env: Env, max: nat, events: seq<Event>)
    requires events != [] && events[0].kind != Dataset && ObjectSize(env.codec, events[0]) > 0
    requires Searchable(env, max, events)
    ensures var e := events[0];
      var run := events[..RunLength(events, EventGroup(e.kind), e.variation)];
      RunShape(env, max, RunOf(env.codec, e, run), run) && run != []
  {
    hide EventGroup;
    var c, e := env.codec, events[0];
    var run := events[..RunLength(events, EventGroup(e.kind), e.variation)];
    RunShares(events, EventGroup(e.kind), e.variation);
    assert e in events;
    forall x | x in run ensures OfRun(c, RunOf(c, e, run), x) {
      EventGroupInjective(x.kind, e.kind);
    }
  }

  lemma SearchableSuffix(env: Env, max: nat, events: seq<Event>, n: nat)
    requires Searchable(env, max, events) && n <= |events|
    ensures Searchable(env, max, events[n..]) && Searchable(env, max, events[..n])
  {
    hide FitsAlone;
    assert forall e :: e in events[n..] ==> e in events;
  }

  /** Events appended behind a started fragment never leave it empty. */
  lemma {:induction false} EventsContinue(env: Env, b: Builder, events: seq<Event>)
    requires ValidCodec(env.codec) && Searchable(env, b.max, events)
    requires b.cur.headers != [] && Used(b) + RESPONSE_HEADER_SIZE <= b.max
    ensures var b' := BuildEvents(env, b, events).b;
      |b'.finished| >= |b.finished| && b'.cur.headers != []
    decreases |events|
  {
    hide ValidCodec, Searchable, RunShape, BuildEvents, BuildRun, ObjectSize, EventGroup, RunOf, RunLength,
         DatasetHeader, Size;
    if events == [] {
      BuildEventsNone(env, b);
    } else {
      var c, e := env.codec, events[0];
      BuildEventsTurn(env, b, events);
      SearchableSuffix(env, b.max, events, 1);
      if e.kind == Dataset && DatasetFits(b, e) {
        DatasetUsed(b, e);
        EventsContinue(env, AddHeader(b, DatasetHeader(e), [e]), events[1..]);
      } else if e.kind == Dataset || ObjectSize(c, e) == 0 {
        EventsContinue(env, b, events[1..]);
      } else {
        var n := RunLength(events, EventGroup(e.kind), e.variation);
        var r := RunOf(c, e, events[..n]);
        RunOfShape(env, b.max, events);
        RunSizePositive(env, b.max, r, events[..n]);
        RunContinues(env, b, r, events[..n]);
        SearchableSuffix(env, b.max, events, n);
        EventsContinue(env, BuildRun(env, b, r, events[..n]).b, events[n..]);
      }
    }
  }

  lemma RunSizePositive(env: Env, max: nat, r: Run, run: seq<Event>)
    requires RunShape(env, max, r, run)
    ensures r.size > 0
  {
  }

  lemma DatasetUsed(b: Builder, e: Event)
    requires e.kind == Dataset && DatasetFits(b, e)
    ensures var b', h := AddHeader(b, DatasetHeader(e), [e]), DatasetHeader(e);
      && b'.max == b.max && b'.cur.headers != [] && |b'.finished| >= |b.finished|
      && (Used(b) + Size(h) <= Capacity(b.max) ==> SameFragment(b, b', Size(h)))
      && (Used(b) + Size(h) > Capacity(b.max) ==> NewFragment(b, b'))
      && (Used(b) <= Capacity(b.max) ==> Used(b') + RESPONSE_HEADER_SIZE <= b'.max)
  {
    hide Size, DatasetHeader;
    var h := DatasetHeader(e);
    TotalSizeConcat(b.cur.headers, [h]);
    assert TotalSize([h]) == Size(h);
    assert [] + [h] == [h];
  }

  /** A list stays in the current fragment exactly when its need fits what is left. */
  lemma {:induction false} EventsExact(env: Env, b: Builder, events: seq<Event>)
    requires ValidCodec(env.codec) && Searchable(env, b.max, events) && Used(b) <= Capacity(b.max)
    ensures var b' := BuildEvents(env, b, events).b;
      if Used(b) + Need(env, b.max, events) <= Capacity(b.max) then b'.finished == b.finished
      else |b'.finished| > |b.finished| && b'.cur.headers != []
    decreases |events|
  {
    hide ValidCodec, Searchable, RunShape, BuildEvents, BuildRun, ObjectSize, EventGroup, RunOf, RunLength,
         DatasetHeader, Size, Need, RunNeed;
    if events == [] {
      BuildEventsNone(env, b);
      NeedNone(env, b.max);
    } else {
      var c, e := env.codec, events[0];
      BuildEventsTurn(env, b, events);
      NeedTurn(env, b.max, events);
      SearchableSuffix(env, b.max, events, 1);
      if e.kind == Dataset && DatasetFits(b, e) {
        var b' := AddHeader(b, DatasetHeader(e), [e]);
        DatasetUsed(b, e);
        if SameFragment(b, b', Size(DatasetHeader(e))) { EventsExact(env, b', events[1..]); }
        else { EventsContinue(env, b', events[1..]); }
      } else if e.kind == Dataset || ObjectSize(c, e) == 0 {
        EventsExact(env, b, events[1..]);
      } else {
        var n := RunLength(events, EventGroup(e.kind), e.variation);
        var r := RunOf(c, e, events[..n]);
        RunOfShape(env, b.max, events);
        RunSizePositive(env, b.max, r, events[..n]);
        RunExact(env, b, r, events[..n]);
        SearchableSuffix(env, b.max, events, n);
        var b' := BuildRun(env, b, r, events[..n]).b;
        if Used(b) + RunNeed(env, r, events[..n]) <= Capacity(b.max) { EventsExact(env, b', events[n..]); }
        else { EventsContinue(env, b', events[n..]); }
      }
    }
  }

  lemma NeedNone(env: Env, max: nat)
    ensures Need(env, max, []) == 0
  {
  }

  lemma NeedTurn(env: Env, max: nat, events: seq<Event>)
    requires events != []
    ensures var e, need := events[0], Need(env, max, events);
      if e.kind == Dataset then
        var fits := |Bytes(e.value)| <= 0xFFFF && Size(DatasetHeader(e)) + RESPONSE_HEADER_SIZE <= max;
        need == (if fits then Size(DatasetHeader(e)) else 0) + Need(env, max, events[1..])
      else if ObjectSize(env.codec, e) == 0 then need == Need(env, max, events[1..])
      else
        var n := RunLength(events, EventGroup(e.kind), e.variation);
        need == RunNeed(env, RunOf(env.codec, e, events[..n]), events[..n]) + Need(env, max, events[n..])
  {
    hide RunNeed, Size, DatasetHeader;
  }

  /** One fragment is enough exactly when the need is within a fragment's capacity. */
  lemma FitsOneExact(env: Env, maxFragment: int, events: seq<Event>)
    requires ValidCodec(env.codec) && Searchable(env, NewBuilder(maxFragment).max, events)
    ensures var max := NewBuilder(maxFragment).max;
      FitsOne(env, maxFragment, events) <==> Need(env, max, events) <= Capacity(max)
  {
    hide ValidCodec, Searchable, BuildEvents, Need;
    EventsExact(env, NewBuilder(maxFragment), events);
  }

  // ---------- More events need no less ----------

  predicate NoNarrower(r: Run, r': Run) {
    r.size == r'.size && r.relative == r'.relative && (r.wide ==> r'.wide)
  }

  lemma {:induction false} WithinSnoc(run: seq<Event>, x: Event, base: int)
    ensures Within(run, base) < |run| ==> Within(run + [x], base) == Within(run, base)
    ensures Within(run, base) == |run| ==> Within(run + [x], base) >= |run|
    decreases |run|
  {
    hide InWindow;
    if run != [] {
      WithinSnoc(run[1..], x, base);
      assert (run + [x])[1..] == run[1..] + [x];
    }
  }

  lemma WindowSnoc(env: Env, r: Run, r': Run, run: seq<Event>, x: Event)
    requires run != [] && NoNarrower(r, r')
    ensures var w, w' := WindowLen(env, r, run), WindowLen(env, r', run + [x]);
      w' == w || (w == |run| && w' == |run| + 1)
  {
    hide EventBase, InWindow;
    WithinSnoc(run, x, EventBase(env, run[0]));
  }

  lemma {:induction false} RunNeedGrows(env: Env, r: Run, r': Run, run: seq<Event>, x: Event)
    requires NoNarrower(r, r')
    ensures RunNeed(env, r, run) <= RunNeed(env, r', run + [x])
    decreases |run|
  {
    hide RunNeed, EventsWithinWindow, EventBase;
    if run == [] {
      RunNeedNone(env, r);
    } else {
      var more := run + [x];
      var w, w' := WindowLen(env, r, run), WindowLen(env, r', more);
      WindowSnoc(env, r, r', run, x);
      RunNeedUnfold(env, r, run);
      RunNeedUnfold(env, r', more);
      ProductsGrow(w, w', PerObject(r), PerObject(r'));
      if w' == w {
        assert more[w'..] == run[w..] + [x];
        RunNeedGrows(env, r, r', run[w..], x);
      } else {
        assert run[w..] == [];
        RunNeedNone(env, r);
      }
    }
  }

  lemma ProductsGrow(a: nat, b: nat, p: nat, q: nat)
    requires a <= b && p <= q
    ensures a * p <= b * q
  {
    assert a * p <= b * p;
    assert b * p <= b * q;
  }

  lemma {:induction false} RunLengthSnoc(events: seq<Event>, x: Event, group: Octet, variation: Octet)
    ensures var n, n' := RunLength(events, group, variation), RunLength(events + [x], group, variation);
      if n < |events| then n' == n else n <= n' <= n + 1
    decreases |events|
  {
    hide EventGroup;
    if events != [] {
      RunLengthSnoc(events[1..], x, group, variation);
      assert (events + [x])[1..] == events[1..] + [x];
    } else {
      assert (events + [x])[1..] == [];
    }
  }

  lemma {:induction false} NeedGrows(env: Env, max: nat, events: seq<Event>, x: Event)
    ensures Need(env, max, events) <= Need(env, max, events + [x])
    decreases |events|
  {
    hide Need, RunNeed, DatasetHeader, Size, EventGroup, ObjectSize, RunLength;
    if events == [] {
      NeedNone(env, max);
    } else {
      var e, more := events[0], events + [x];
      NeedTurn(env, max, events);
      NeedTurn(env, max, more);
      assert more[1..] == events[1..] + [x];
      if e.kind == Dataset || ObjectSize(env.codec, e) == 0 {
        NeedGrows(env, max, events[1..], x);
      } else {
        NeedGrowsInRun(env, max, events, x);
      }
    }
  }

  lemma {:induction false} NeedGrowsInRun(env: Env, max: nat, events: seq<Event>, x: Event)
    requires events != [] && events[0].kind != Dataset && ObjectSize(env.codec, events[0]) > 0
    ensures Need(env, max, events) <= Need(env, max, events + [x])
    decreases |events|, 0
  {
    hide Need, RunNeed, EventGroup, ObjectSize, RunLength, IsRelative;
    var c, e, more := env.codec, events[0], events + [x];
    var n, n' := RunLength(events, EventGroup(e.kind), e.variation), RunLength(more, EventGroup(e.kind), e.variation);
    NeedTurn(env, max, events);
    NeedTurn(env, max, more);
    RunLengthSnoc(events, x, EventGroup(e.kind), e.variation);
    RunLengthPositive(events);
    if n == n' {
      assert more[..n'] == events[..n] && more[n'..] == events[n..] + [x];
      NeedGrows(env, max, events[n..], x);
    } else {
      assert events[..n] == events && more[..n'] == events + [x] && events[n..] == [];
      NeedNone(env, max);
      assert forall y :: y in events ==> y in more;
      RunNeedGrows(env, RunOf(c, e, events), RunOf(c, e, more), events, x);
    }
  }

  lemma RunLengthPositive(events: seq<Event>)
    requires events != []
    ensures 1 <= RunLength(events, EventGroup(events[0].kind), events[0].variation)
  {
  }

  lemma {:induction false} NeedMonotone(env: Env, max: nat, events: seq<Event>, k: nat, m: nat)
    requires k <= m <= |events|
    ensures Need(env, max, events[..k]) <= Need(env, max, events[..m])
    decreases m - k
  {
    hide Need;
    if k < m {
      NeedGrows(env, max, events[..k], events[k]);
      assert events[..k] + [events[k]] == events[..k + 1];
      NeedMonotone(env, max, events, k + 1, m);
    }
  }

  /** A prefix of a list that fits one fragment fits one fragment. */
  lemma FitsOneMonotone(env: Env, maxFragment: int, events: seq<Event>, k: nat, m: nat)
    requires ValidCodec(env.codec) && Searchable(env, NewBuilder(maxFragment).max, events)
    requires k <= m <= |events| && FitsOne(env, maxFragment, events[..m])
    ensures FitsOne(env, maxFragment, events[..k])
  {
    hide ValidCodec, Searchable, FitsOne, Need;
    var max := NewBuilder(maxFragment).max;
    SearchableSuffix(env, max, events, k);
    SearchableSuffix(env, max, events, m);
    FitsOneExact(env, maxFragment, events[..k]);
    FitsOneExact(env, maxFragment, events[..m]);
    NeedMonotone(env, max, events, k, m);
  }

  /** One event alone is never more than one fragment, whatever it is. */
  lemma OneEventFits(env: Env, maxFragment: int, e: Event)
    requires ValidCodec(env.codec)
    ensures FitsOne(env, maxFragment, [e])
  {
    hide ValidCodec, BuildRun, DatasetHeader, EventGroup;
    var b := NewBuilder(maxFragment);
    BuildEventsTurn(env, b, [e]);
    assert [e][1..] == [];
    if e.kind == Dataset || ObjectSize(env.codec, e) == 0 {
      if e.kind == Dataset && DatasetFits(b, e) { BuildEventsNone(env, AddHeader(b, DatasetHeader(e), [e])); }
      BuildEventsNone(env, b);
    } else {
      var n := RunLength([e], EventGroup(e.kind), e.variation);
      assert n == 1 && [e][..1] == [e];
      var r := RunOf(env.codec, e, [e]);
      assert e in [e];
      OneEventRun(env, b, r, e);
      BuildEventsNone(env, BuildRun(env, b, r, [e]).b);
    }
  }

  lemma OneEventRun(env: Env, b: Builder, r: Run, e: Event)
    requires ValidCodec(env.codec) && r.size > 0 && OfRun(env.codec, r, e)
    requires b.finished == [] && b.cur.headers == []
    ensures BuildRun(env, b, r, [e]).b.finished == []
  {
    hide ValidCodec, OfRun, AddChunk, ChunkLen;
    if Fits(b, r) {
      var n := ChunkLen(env, b, r, [e]);
      assert n == 1 && [e][..1] == [e] && [e][1..] == [];
      ChunkUsed(env, b, r, [e]);
      BuildRunNone(env, AddChunk(env, b, r, [e]), r);
    }
  }

  // ---------- The search ----------

  /** Bisection for a fitting prefix between `lo`, which fits, and `hi`. */
  function FitSearch(env: Env, maxFragment: int, events: seq<Event>, lo: nat, hi: nat): (n: nat)
    requires lo <= hi <= |events|
    ensures lo <= n <= hi
    decreases hi - lo
  {
    if lo >= hi then lo
    else
      var mid := (lo + hi + 1) / 2;
      if FitsOne(env, maxFragment, events[..mid]) then FitSearch(env, maxFragment, events, mid, hi)
      else FitSearch(env, maxFragment, events, lo, mid - 1)
  }

  function FitCount(env: Env, maxFragment: int, events: seq<Event>): (n: nat)
    requires events != []
    ensures 1 <= n <= |events|
  {
    FitSearch(env, maxFragment, events, 1, |events|)
  }

  lemma {:induction false} FitSearchFits(env: Env, maxFragment: int, events: seq<Event>, lo: nat, hi: nat)
    requires lo <= hi <= |events| && FitsOne(env, maxFragment, events[..lo])
    ensures FitsOne(env, maxFragment, events[..FitSearch(env, maxFragment, events, lo, hi)])
    decreases hi - lo
  {
    hide FitsOne;
    if lo < hi {
      var mid := (lo + hi + 1) / 2;
      if FitsOne(env, maxFragment, events[..mid]) {
        FitSearchFits(env, maxFragment, events, mid, hi);
      } else {
        FitSearchFits(env, maxFragment, events, lo, mid - 1);
      }
    }
  }

  lemma {:induction false} FitSearchLargest(env: Env, maxFragment: int, events: seq<Event>, lo: nat, hi: nat, m: nat)
    requires ValidCodec(env.codec) && Searchable(env, NewBuilder(maxFragment).max, events)
    requires lo <= hi <= |events| && FitSearch(env, maxFragment, events, lo, hi) < m <= hi
    ensures !FitsOne(env, maxFragment, events[..m])
    decreases hi - lo
  {
    hide ValidCodec, Searchable, FitsOne;
    if lo < hi {
      var mid := (lo + hi + 1) / 2;
      if FitsOne(env, maxFragment, events[..mid]) {
        FitSearchLargest(env, maxFragment, events, mid, hi, m);
      } else if m < mid {
        FitSearchLargest(env, maxFragment, events, lo, mid - 1, m);
      } else if FitsOne(env, maxFragment, events[..m]) {
        FitsOneMonotone(env, maxFragment, events, mid, m);
      }
    }
  }

  /** The prefix found always fits one fragment; and when the events are few and each could
      travel alone, no longer prefix does. */
  lemma FitCountIsLargest(env: Env, maxFragment: int, events: seq<Event>)
    requires ValidCodec(env.codec) && events != []
    ensures var n := FitCount(env, maxFragment, events);
      && FitsOne(env, maxFragment, events[..n])
      && (Searchable(env, NewBuilder(maxFragment).max, events) ==>
            forall m :: n < m <= |events| ==> !FitsOne(env, maxFragment, events[..m]))
  {
    hide ValidCodec, FitsOne, Searchable;
    OneEventFits(env, maxFragment, events[0]);
    assert events[..1] == [events[0]];
    FitSearchFits(env, maxFragment, events, 1, |events|);
    if Searchable(env, NewBuilder(maxFragment).max, events) {
      forall m | FitCount(env, maxFragment, events) < m <= |events|
        ensures !FitsOne(env, maxFragment, events[..m])
      {
        FitSearchLargest(env, maxFragment, events, 1, |events|, m);
      }
    }
  }

  /** The search as the outstation runs it, building each candidate prefix. */
  method EventsThatFit(env: Env, maxFragment: int, events: seq<Event>) returns (n: nat)
    requires events != []
    ensures n == FitCount(env, maxFragment, events)
  {
    hide FitsOne;
    var lo, hi := 1, |events|;
    while lo < hi
      invariant 1 <= lo <= hi <= |events|
      invariant FitSearch(env, maxFragment, events, lo, hi) == FitCount(env, maxFragment, events)
      decreases hi - lo
    {
      var mid := (lo + hi + 1) / 2;
      var fits := BuildsOne(env, maxFragment, events[..mid]);
      if fits { lo := mid; } else { hi := mid - 1; }
    }
    n := lo;
  }

  /** Builds the events into a scratch response and counts its fragments. */
  method BuildsOne(env: Env, maxFragment: int, events: seq<Event>) returns (fits: bool)
    ensures fits == FitsOne(env, maxFragment, events)
  {
    hide BuildEvents, Done;
    var b := new ResponseBuilder(maxFragment);
    var _ := EmitEvents(env, b, events);
    var bodies := b.Finish();
    fits := |bodies| == 1;
  }
}
