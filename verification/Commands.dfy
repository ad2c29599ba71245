/** Control requests: how a master packs commands into object headers, how the outstation walks
    them through its handler and echoes a status on each, and how the master reads those back. */
module Commands {
  import opened Protocol
  import opened Joining
  import opened Wire
  import opened MasterDispatch
  import opened Outstation

  type Status = Octet

  const SUCCESS: Status := 0
  const TIMEOUT: Status := 1
  const NO_SELECT: Status := 2
  const NOT_SUPPORTED: Status := 4
  const TOO_MANY_OPS: Status := 8

  // ---------- The command objects of a request ----------

  /** The octets of one command object, status included; zero for anything that is not one. */
  function CommandSize(group: Octet, variation: Octet): nat {
    match (group, variation)
    case (12, 1) => 11
    case (41, 1) => 5
    case (41, 2) => 3
    case (41, 3) => 5
    case (41, 4) => 9
    case _ => 0
  }

  predicate Accepted(h: ObjectHeader) {
    CommandSize(h.group, h.variation) > 0 && h.prefix.IsIndex()
  }

  function Stride(h: ObjectHeader): nat {
    h.prefix.Octets() + CommandSize(h.group, h.variation)
  }

  function Min(a: nat, b: nat): nat {
    if a < b then a else b
  }

  /** How many whole objects of `stride` octets a header claims and carries. */
  function Whole(count: nat, stride: nat, data: seq<Octet>): nat
    requires stride > 0
  {
    Min(count, |data| / stride)
  }

  lemma SliceBound(k: nat, count: nat, stride: nat, data: seq<Octet>)
    requires stride > 0 && k < Whole(count, stride, data)
    ensures k * stride + stride == (k + 1) * stride <= |data|
  {
    var n := |data| / stride;
    ProductGrows(k + 1, n, stride);
    assert n * stride <= |data|;
  }

  lemma ProductGrows(a: nat, b: nat, c: nat)
    requires a <= b
    ensures a * c <= b * c
  {
  }

  function ObjectAt(k: nat, count: nat, stride: nat, data: seq<Octet>): (s: seq<Octet>)
    requires stride > 0 && k < Whole(count, stride, data)
    ensures |s| == stride
  {
    SliceBound(k, count, stride, data);
    data[k * stride..k * stride + stride]
  }

  /** One command as a request names it. Its index may be wider than any point. */
  datatype Control = Control(group: Octet, variation: Octet, index: nat, raw: seq<Octet>)

  function ControlOf(h: ObjectHeader, obj: seq<Octet>): Control
    requires Accepted(h) && |obj| == Stride(h)
  {
    var n := h.prefix.Octets();
    Control(h.group, h.variation, ReadPrefix(obj[..n], n), obj[n..])
  }

  function ControlsIn(h: ObjectHeader): (cs: seq<Control>)
    ensures |cs| == if Accepted(h) then Whole(h.range.Objects(), Stride(h), h.data) else 0
  {
    if !Accepted(h) then []
    else
      var count, stride := h.range.Objects(), Stride(h);
      seq(Whole(count, stride, h.data),
          k requires 0 <= k < Whole(count, stride, h.data) => ControlOf(h, ObjectAt(k, count, stride, h.data)))
  }

  function AllControls(hs: seq<ObjectHeader>): seq<Control> {
    if hs == [] then [] else AllControls(hs[..|hs| - 1]) + ControlsIn(hs[|hs| - 1])
  }

  // ---------- The outstation carries them out ----------

  datatype Kind = Selecting | Direct | AfterSelect | DirectNoAck

  /** A call of the command handler and its answer. */
  datatype Call = Call(control: Control, kind: Kind, status: Status)

  /** The device behind the outstation: which outputs it has, its limit on controls in one
      request (none when zero), and its handler, which may answer from all it has been asked. */
  datatype Device = Device(
    has: (Octet, Index16) -> bool, maxControls: int, answer: (seq<Call>, Control, Kind) -> Status)

  datatype Tally = Tally(calls: seq<Call>, statuses: seq<Status>)

  predicate Known(dev: Device, c: Control) {
    c.index <= 0xFFFF && dev.has(c.group, c.index)
  }

  /** A request as it is carried out: what the handler was asked in earlier requests, the kind
      of call, and what the selection said. */
  datatype Order = Order(dev: Device, before: seq<Call>, kind: Kind, gate: Status)

  /** One more command, after those of `t`: refused before the handler sees it, or answered by
      the handler. */
  function JudgeOne(o: Order, t: Tally, c: Control): Tally {
    if !Known(o.dev, c) then t.(statuses := t.statuses + [NOT_SUPPORTED])
    else if o.dev.maxControls > 0 && |t.statuses| + 1 > o.dev.maxControls then
      t.(statuses := t.statuses + [TOO_MANY_OPS])
    else if o.gate != SUCCESS then t.(statuses := t.statuses + [o.gate])
    else
      var status := o.dev.answer(o.before + t.calls, c, o.kind);
      Tally(t.calls + [Call(c, o.kind, status)], t.statuses + [status])
  }

  function Judge(o: Order, cs: seq<Control>): (t: Tally)
    ensures |t.statuses| == |cs|
  {
    if cs == [] then Tally([], [])
    else JudgeOne(o, Judge(o, cs[..|cs| - 1]), cs[|cs| - 1])
  }

  /** An object with its last octet, the status, filled in. */
  function Stamped(obj: seq<Octet>, status: Status): (s: seq<Octet>)
    requires |obj| > 0
    ensures |s| == |obj|
  {
    obj[..|obj| - 1] + [status]
  }

  function StampedObjects(h: ObjectHeader, statuses: seq<Status>): (parts: seq<seq<Octet>>)
    requires Accepted(h) && |statuses| <= Whole(h.range.Objects(), Stride(h), h.data)
    ensures |parts| == |statuses| && forall k :: 0 <= k < |parts| ==> |parts[k]| == Stride(h)
  {
    var count, stride := h.range.Objects(), Stride(h);
    seq(|statuses|, k requires 0 <= k < |statuses| => Stamped(ObjectAt(k, count, stride, h.data), statuses[k]))
  }

  /** The echo of one header: as many objects as it carried, each with its status. */
  function EchoOf(h: ObjectHeader, statuses: seq<Status>): ObjectHeader
    requires Accepted(h) && |statuses| == Whole(h.range.Objects(), Stride(h), h.data)
  {
    h.(range := if h.range.Count? then Count(|statuses|) else h.range, data := Flatten(StampedObjects(h, statuses)))
  }

  /** The echo of a request: its command headers, each taking the next statuses. */
  function Echo(hs: seq<ObjectHeader>, statuses: seq<Status>): seq<ObjectHeader>
    requires |statuses| == |AllControls(hs)|
  {
    if hs == [] then []
    else
      var init, h := hs[..|hs| - 1], hs[|hs| - 1];
      var n := |AllControls(init)|;
      Echo(init, statuses[..n]) + if Accepted(h) then [EchoOf(h, statuses[n..])] else []
  }

  function ErrorOf(h: ObjectHeader): set<Iin> {
    if CommandSize(h.group, h.variation) == 0 then {ObjectUnknown}
    else if !h.prefix.IsIndex() then {ParameterError}
    else {}
  }

  function Unknowns(dev: Device, cs: seq<Control>): set<Iin> {
    if forall c :: c in cs ==> Known(dev, c) then {} else {ParameterError}
  }

  function Errors(dev: Device, hs: seq<ObjectHeader>): set<Iin> {
    if hs == [] then {}
    else
      var init, h := hs[..|hs| - 1], hs[|hs| - 1];
      Errors(dev, init) + ErrorOf(h) + Unknowns(dev, ControlsIn(h))
  }

  // ---------- The walk ----------

  datatype Walked = Walked(tally: Tally, body: seq<ObjectHeader>, errors: set<Iin>)

  /** What walking a request does, said without the walk. */
  function CarriedOut(o: Order, hs: seq<ObjectHeader>): Walked {
    var t := Judge(o, AllControls(hs));
    Walked(t, Echo(hs, t.statuses), Errors(o.dev, hs))
  }

  lemma JudgeSnoc(o: Order, cs: seq<Control>, c: Control)
    ensures Judge(o, cs + [c])
         == JudgeOne(o, Judge(o, cs), c)
  {
    hide JudgeOne;
    assert (cs + [c])[..|cs|] == cs;
  }

  /** The walk of one header, `k` objects in. */
  ghost predicate Walking(
    o: Order, h: ObjectHeader, earlier: seq<Control>, k: nat, t: Tally, echo: seq<Octet>, errors: set<Iin>)
  {
    && Accepted(h) && k <= |ControlsIn(h)|
    && t == Judge(o, earlier + ControlsIn(h)[..k])
    && echo == Flatten(StampedObjects(h, t.statuses[|earlier|..]))
    && errors == Unknowns(o.dev, ControlsIn(h)[..k])
  }

  lemma WalkBegins(o: Order, h: ObjectHeader, earlier: seq<Control>, t: Tally)
    requires Accepted(h) && t == Judge(o, earlier)
    ensures Walking(o, h, earlier, 0, t, [], {})
  {
    assert earlier + ControlsIn(h)[..0] == earlier;
    assert StampedObjects(h, []) == [];
  }

  lemma WalkStep(
      o: Order, h: ObjectHeader, earlier: seq<Control>, k: nat, t: Tally, echo: seq<Octet>, errors: set<Iin>, obj: seq<Octet>)
    requires Walking(o, h, earlier, k, t, echo, errors) && k < |ControlsIn(h)|
    requires obj == ObjectAt(k, h.range.Objects(), Stride(h), h.data)
    ensures var c := ControlOf(h, obj);
      var t' := JudgeOne(o, t, c);
      && |t'.statuses| > 0
      && Walking(o, h, earlier, k + 1, t', echo + Stamped(obj, t'.statuses[|t'.statuses| - 1]),
                 errors + if Known(o.dev, c) then {} else {ParameterError})
  {
    hide JudgeOne, Judge, Stamped, ReadPrefix, Known, Flatten, StampedObjects, ObjectAt;
    var cs, c := ControlsIn(h), ControlOf(h, obj);
    assert c == cs[k];
    var t' := JudgeOne(o, t, c);
    JudgeSnoc(o, earlier + cs[..k], c);
    assert earlier + cs[..k] + [c] == earlier + cs[..k + 1];
    JudgeGrows(o, t, c);
    assert t'.statuses[|earlier|..] == t.statuses[|earlier|..] + [t'.statuses[|t'.statuses| - 1]];
    StampedSnoc(h, t.statuses[|earlier|..], t'.statuses[|t'.statuses| - 1]);
    assert cs[..k + 1] == cs[..k] + [c];
  }

  /** The loop over one header: each object through the checks and the handler, its echo with
      the status over its last octet. */
  method WalkHeader(o: Order, h: ObjectHeader, ghost earlier: seq<Control>, t0: Tally)
    returns (t: Tally, echo: seq<Octet>, echoed: nat, errors: set<Iin>)
    requires Accepted(h) && t0 == Judge(o, earlier)
    ensures echoed == |ControlsIn(h)| && Walking(o, h, earlier, echoed, t, echo, errors)
  {
    hide JudgeOne, Judge, Stamped, ReadPrefix, Known, Walking, ObjectAt, ControlsIn, Whole;
    var size, prefixLen := CommandSize(h.group, h.variation), h.prefix.Octets();
    t, echo, echoed, errors := t0, [], 0, {};
    var off: nat := 0;
    WalkBegins(o, h, earlier, t0);
    while echoed < h.range.Objects() && off + prefixLen + size <= |h.data|
      invariant off == echoed * Stride(h) && echoed <= |ControlsIn(h)|
      invariant Walking(o, h, earlier, echoed, t, echo, errors)
      decreases h.range.Objects() - echoed
    {
      MoreToCome(h, echoed);
      var obj := h.data[off..off + prefixLen + size];
      WalkStep(o, h, earlier, echoed, t, echo, errors, obj);
      var c := ControlOf(h, obj);
      t := JudgeOne(o, t, c);
      errors := errors + if Known(o.dev, c) then {} else {ParameterError};
      echo := echo + Stamped(obj, t.statuses[|t.statuses| - 1]);
      off := off + prefixLen + size;
      echoed := echoed + 1;
    }
    NoMore(h, echoed);
  }

  /** The loop goes on exactly while another whole object is there. */
  lemma MoreToCome(h: ObjectHeader, k: nat)
    requires Accepted(h) && k < h.range.Objects() && k * Stride(h) + Stride(h) <= |h.data|
    ensures k < |ControlsIn(h)| && k < Whole(h.range.Objects(), Stride(h), h.data)
    ensures (k + 1) * Stride(h) == k * Stride(h) + Stride(h)
    ensures ObjectAt(k, h.range.Objects(), Stride(h), h.data) == h.data[k * Stride(h)..k * Stride(h) + Stride(h)]
  {
    var stride := Stride(h);
    if |h.data| / stride < k + 1 {
      ProductGrows(|h.data| / stride + 1, k + 1, stride);
    }
  }

  lemma NoMore(h: ObjectHeader, k: nat)
    requires Accepted(h) && k <= |ControlsIn(h)|
    requires k >= h.range.Objects() || k * Stride(h) + Stride(h) > |h.data|
    ensures k == |ControlsIn(h)|
  {
    if k < |ControlsIn(h)| { SliceBound(k, h.range.Objects(), Stride(h), h.data); }
  }

  lemma JudgeGrows(o: Order, t: Tally, c: Control)
    ensures var t' := JudgeOne(o, t, c);
      |t'.statuses| == |t.statuses| + 1 && t'.statuses[..|t.statuses|] == t.statuses
  {
  }

  lemma StampedSnoc(h: ObjectHeader, statuses: seq<Status>, status: Status)
    requires Accepted(h) && |statuses| < Whole(h.range.Objects(), Stride(h), h.data)
    ensures Flatten(StampedObjects(h, statuses + [status]))
         == Flatten(StampedObjects(h, statuses)) + Stamped(ObjectAt(|statuses|, h.range.Objects(), Stride(h), h.data), status)
  {
    hide Stamped, ObjectAt;
    var obj := Stamped(ObjectAt(|statuses|, h.range.Objects(), Stride(h), h.data), status);
    assert StampedObjects(h, statuses + [status]) == StampedObjects(h, statuses) + [obj];
    FlattenSnoc(StampedObjects(h, statuses), obj);
  }

  lemma ExecuteNothing(o: Order)
    ensures CarriedOut(o, []) == Walked(Tally([], []), [], {})
  {
  }

  /** One more header that is not a walkable command: nothing but an indication. */
  lemma ExecuteSkips(o: Order, hs: seq<ObjectHeader>, h: ObjectHeader)
    requires !Accepted(h)
    ensures var w := CarriedOut(o, hs); CarriedOut(o, hs + [h]) == w.(errors := w.errors + ErrorOf(h))
  {
    hide Judge, Known;
    assert (hs + [h])[..|hs|] == hs;
    var t := Judge(o, AllControls(hs));
    assert AllControls(hs + [h]) == AllControls(hs);
    assert t.statuses[..|AllControls(hs)|] == t.statuses;
  }

  /** One more command header, walked. */
  lemma {:induction false} ExecuteWalks(
    o: Order, hs: seq<ObjectHeader>, h: ObjectHeader, k: nat, t: Tally, echo: seq<Octet>, errors: set<Iin>)
    requires Accepted(h) && k == |ControlsIn(h)| && Walking(o, h, AllControls(hs), k, t, echo, errors)
    ensures var w := CarriedOut(o, hs);
      CarriedOut(o, hs + [h]) == Walked(t,
        w.body + [h.(range := if h.range.Count? then Count(k) else h.range, data := echo)], w.errors + errors)
  {
    hide Known, Flatten, StampedObjects, ControlsIn, JudgeOne;
    var cs, more := AllControls(hs), ControlsIn(h);
    assert (hs + [h])[..|hs|] == hs && more[..k] == more;
    JudgePrefix(o, cs, more);
  }

  /** What was said of the earlier commands stands. */
  lemma {:induction false} JudgePrefix(o: Order, cs: seq<Control>, more: seq<Control>)
    ensures var t, t' := Judge(o, cs), Judge(o, cs + more);
      t'.statuses[..|cs|] == t.statuses && |t.calls| <= |t'.calls| && t'.calls[..|t.calls|] == t.calls
  {
    hide Known;
    if more == [] {
      assert cs + more == cs;
    } else {
      JudgePrefix(o, cs, more[..|more| - 1]);
      assert (cs + more)[..|cs + more| - 1] == cs + more[..|more| - 1];
    }
  }

  /** The walk over a whole request. */
  method ExecuteCommands(o: Order, hs: seq<ObjectHeader>) returns (w: Walked)
    ensures w == CarriedOut(o, hs)
  {
    hide CarriedOut, Walking, Judge, ControlsIn;
    w := Walked(Tally([], []), [], {});
    ExecuteNothing(o);
    assert hs[..0] == [];
    for i := 0 to |hs|
      invariant w == CarriedOut(o, hs[..i])
    {
      var h := hs[i];
      assert hs[..i + 1] == hs[..i] + [h];
      if !Accepted(h) {
        ExecuteSkips(o, hs[..i], h);
        w := w.(errors := w.errors + ErrorOf(h));
      } else {
        TallyOf(o, hs[..i]);
        var t, echo, echoed, errors := WalkHeader(o, h, AllControls(hs[..i]), w.tally);
        ExecuteWalks(o, hs[..i], h, echoed, t, echo, errors);
        var range := if h.range.Count? then Count(echoed) else h.range;
        w := Walked(t, w.body + [h.(range := range, data := echo)], w.errors + errors);
      }
    }
    assert hs[..|hs|] == hs;
  }

  lemma TallyOf(o: Order, hs: seq<ObjectHeader>)
    ensures CarriedOut(o, hs).tally == Judge(o, AllControls(hs))
  {
  }

  // ---------- The master reads the echo ----------

  /** What the master takes for a command object; it also knows pattern controls. */
  function MasterSize(group: Octet, variation: Octet): nat {
    if group == 12 && variation == 2 then 11 else CommandSize(group, variation)
  }

  function MasterStride(h: ObjectHeader): nat {
    (if h.prefix.IsIndex() then h.prefix.Octets() else 0) + MasterSize(h.group, h.variation)
  }

  function StatusesIn(h: ObjectHeader): seq<Status> {
    if MasterSize(h.group, h.variation) == 0 then []
    else
      var count, stride := h.range.Objects(), MasterStride(h);
      seq(Whole(count, stride, h.data),
          k requires 0 <= k < Whole(count, stride, h.data) => ObjectAt(k, count, stride, h.data)[stride - 1])
  }

  function AllStatuses(hs: seq<ObjectHeader>): seq<Status> {
    if hs == [] then [] else AllStatuses(hs[..|hs| - 1]) + StatusesIn(hs[|hs| - 1])
  }

  lemma AllStatusesSnoc(hs: seq<ObjectHeader>, i: nat)
    requires i < |hs|
    ensures AllStatuses(hs[..i + 1]) == AllStatuses(hs[..i]) + StatusesIn(hs[i])
  {
    hide StatusesIn;
    assert hs[..i + 1][..i] == hs[..i];
  }

  /** The statuses of one header, object by object. */
  method ReadStatuses(h: ObjectHeader) returns (out: seq<Status>)
    ensures out == StatusesIn(h)
  {
    out := [];
    if MasterSize(h.group, h.variation) == 0 { return; }
    var stride, off := MasterStride(h), 0;
    ghost var n := Whole(h.range.Objects(), stride, h.data);
    while |out| < h.range.Objects() && off + stride <= |h.data|
      invariant off == |out| * stride && |out| <= n
      invariant out == StatusesIn(h)[..|out|]
      decreases h.range.Objects() - |out|
    {
      AnotherWhole(|out|, h.range.Objects(), stride, h.data);
      assert ObjectAt(|out|, h.range.Objects(), stride, h.data) == h.data[off..off + stride];
      out := out + [h.data[off + stride - 1]];
      off := off + stride;
    }
    if |out| < n { SliceBound(|out|, h.range.Objects(), stride, h.data); }
  }

  lemma AnotherWhole(k: nat, count: nat, stride: nat, data: seq<Octet>)
    requires stride > 0 && k < count && k * stride + stride <= |data|
    ensures k < Whole(count, stride, data) && (k + 1) * stride == k * stride + stride
  {
    if |data| / stride < k + 1 { ProductGrows(|data| / stride + 1, k + 1, stride); }
  }

  /** The statuses of a whole echo. */
  method ParseCommandStatuses(hs: seq<ObjectHeader>) returns (out: seq<Status>)
    ensures out == AllStatuses(hs)
  {
    hide StatusesIn;
    out := [];
    for i := 0 to |hs|
      invariant out == AllStatuses(hs[..i])
    {
      AllStatusesSnoc(hs, i);
      var more := ReadStatuses(hs[i]);
      out := out + more;
    }
    assert hs[..|hs|] == hs;
  }

  lemma EvenWhole(n: nat, stride: nat)
    requires stride > 0
    ensures (n * stride) / stride == n
  {
    var q := (n * stride) / stride;
    assert q * stride <= n * stride < q * stride + stride;
    assert (q + 1) * stride == q * stride + stride;
    if q < n { ProductGrows(q + 1, n, stride); }
    if n < q { ProductGrows(n + 1, q, stride); }
  }

  /** One header's echo gives back exactly its statuses. */
  lemma EchoOfReadsBack(h: ObjectHeader, statuses: seq<Status>)
    requires Accepted(h) && |statuses| == |ControlsIn(h)|
    ensures StatusesIn(EchoOf(h, statuses)) == statuses
  {
    hide ObjectAt, ControlOf, Flatten;
    var e, parts, stride := EchoOf(h, statuses), StampedObjects(h, statuses), Stride(h);
    FlattenEven(parts, stride);
    EvenWhole(|parts|, stride);
    var count := e.range.Objects();
    assert Whole(count, stride, e.data) == |statuses|;
    forall k | 0 <= k < |statuses| ensures StatusesIn(e)[k] == statuses[k] {
      ObjectOfEcho(parts, count, stride, k);
    }
  }

  lemma ObjectOfEcho(parts: seq<seq<Octet>>, count: nat, stride: nat, k: nat)
    requires stride > 0 && forall i :: 0 <= i < |parts| ==> |parts[i]| == stride
    requires k < |parts| == Whole(count, stride, Flatten(parts))
    ensures ObjectAt(k, count, stride, Flatten(parts)) == parts[k]
  {
    FlattenSlice(parts, stride, k);
  }

  /** The master reads off the echo of any request, whatever it held, the status each of its
      commands was given, in order. */
  lemma {:induction false} EchoReadsBack(hs: seq<ObjectHeader>, statuses: seq<Status>)
    requires |statuses| == |AllControls(hs)|
    ensures AllStatuses(Echo(hs, statuses)) == statuses
  {
    hide StatusesIn, EchoOf, ControlsIn;
    if hs != [] {
      var init, h := hs[..|hs| - 1], hs[|hs| - 1];
      var n := |AllControls(init)|;
      EchoReadsBack(init, statuses[..n]);
      var before := Echo(init, statuses[..n]);
      if Accepted(h) {
        EchoOfReadsBack(h, statuses[n..]);
        assert (before + [EchoOf(h, statuses[n..])])[..|before|] == before;
      } else {
        NotAccepted(h);
        assert before + [] == before;
      }
      assert statuses[..n] + statuses[n..] == statuses;
    }
  }

  lemma NotAccepted(h: ObjectHeader)
    requires !Accepted(h)
    ensures ControlsIn(h) == []
  {
  }

  // ---------- ... and over the wire ----------

  /** A size table that has the command objects at their sizes. */
  ghost predicate Sized(sizes: Sizes) {
    forall g: Octet, v: Octet :: CommandSize(g, v) > 0 ==> (g, v) in sizes && sizes[(g, v)] == 8 * CommandSize(g, v)
  }

  /** A command header that parsed carries as many objects as it says, and no more. */
  lemma ParsedExactly(sizes: Sizes, h: ObjectHeader)
    requires Sized(sizes) && Accepted(h) && WellFormed(sizes, h)
    ensures |ControlsIn(h)| == h.range.Objects() && |h.data| == h.range.Objects() * Stride(h)
  {
    assert SizeBits(sizes, h.group, h.variation) == Some(8 * CommandSize(h.group, h.variation));
    EvenWhole(h.range.Objects(), Stride(h));
  }

  lemma EchoOfWellFormed(sizes: Sizes, h: ObjectHeader, statuses: seq<Status>)
    requires Sized(sizes) && Accepted(h) && WellFormed(sizes, h) && |statuses| == |ControlsIn(h)|
    ensures WellFormed(sizes, EchoOf(h, statuses))
  {
    hide ControlsIn, ObjectAt, Stamped, Flatten;
    ParsedExactly(sizes, h);
    FlattenEven(StampedObjects(h, statuses), Stride(h));
    assert SizeBits(sizes, h.group, h.variation) == Some(8 * CommandSize(h.group, h.variation));
  }

  lemma {:induction false} EchoWellFormed(sizes: Sizes, hs: seq<ObjectHeader>, statuses: seq<Status>)
    requires Sized(sizes) && AllWellFormed(sizes, hs) && |statuses| == |AllControls(hs)|
    ensures AllWellFormed(sizes, Echo(hs, statuses))
  {
    hide WellFormed, EchoOf, ControlsIn, Accepted, Sized;
    if hs != [] {
      var init, h := hs[..|hs| - 1], hs[|hs| - 1];
      assert h in hs;
      var n := |AllControls(init)|;
      EchoWellFormed(sizes, init, statuses[..n]);
      if Accepted(h) { EchoOfWellFormed(sizes, h, statuses[n..]); }
    }
  }

  /** From the octets of any request that parses to the statuses the master ends up with: one
      for each command in it, as the outstation judged them. */
  lemma StatusesReachTheMaster(sizes: Sizes, o: Order, raw: seq<Octet>)
    requires Sized(sizes) && ParseObjects(sizes, raw).Some?
    ensures var hs := ParseObjects(sizes, raw).value;
      var w := CarriedOut(o, hs);
      && ParseObjects(sizes, EncodeAll(w.body)) == Some(w.body)
      && AllStatuses(w.body) == Judge(o, AllControls(hs)).statuses
  {
    hide ParseObjects, Echo, Judge, AllControls, AllStatuses, Errors;
    var hs := ParseObjects(sizes, raw).value;
    var statuses := Judge(o, AllControls(hs)).statuses;
    ParsedWellFormed(sizes, raw);
    EchoWellFormed(sizes, hs, statuses);
    ParseEncodeAll(sizes, Echo(hs, statuses));
    EchoReadsBack(hs, statuses);
  }
}
