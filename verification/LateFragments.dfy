/** Successive requests of the master over channels that keep order but may be slow: a fragment of
    one response that arrives during the next. */
module LateFragments {
  import opened Protocol
  import opened Events
  import opened Wire
  import opened ObjectTable
  import opened EventFragments
  import opened Outstation
  import opened OutstationRuns
  import opened OutstationSafety
  import opened OutstationLimits
  import opened ResponseSeries
  import EB = EventBuffers

  /** Both ends. `io` is what the outstation has done, and `delivered` every fragment the master has
      taken, for whichever request. */
  datatype System = System(
    s: State, io: seq<Io>, t: Series, down: seq<Fragment>, up: seq<Received>, delivered: seq<Fragment>)

  datatype Move = Raises(raised: seq<Event>) | Asks(r: Received, seqNo: SeqNum) | GivesUp | ToOutstation | ToMaster

  /** The fragments that answer requests, in the order they were sent. */
  function Answers(io: seq<Io>): seq<Fragment> {
    if io == [] then []
    else if SolicitedSent(io[0]) then [io[0].f] + Answers(io[1..])
    else Answers(io[1..])
  }

  /** A message reaches the outstation, which then sends on what it can. */
  function Heard(c: Config, s: State, r: Received): Out {
    var out := Handle(c, s, QUIET, r);
    var more := AdvanceResponse(c, out.s, QUIET);
    Out(more.s, out.io + more.io)
  }

  function Next(c: Config, y: System, m: Move): System {
    match m
    case Raises(raised) => y.(s := y.s.(buf := Raise(y.s.buf, raised)))
    case Asks(r, seqNo) => if y.t.outcome.Waiting? then y else y.(t := Begin(seqNo), up := y.up + [r])
    case GivesUp => y.(t := Take(y.t, TimesOut))
    case ToOutstation =>
      if y.up == [] then y
      else
        var out := Heard(c, y.s, y.up[0]);
        y.(s := out.s, io := y.io + out.io, down := y.down + Answers(out.io), up := y.up[1..])
    case ToMaster =>
      if y.down == [] then y
      else
        var f := y.down[0];
        var r := OnSolicited(y.t, f);
        y.(t := r.t, down := y.down[1..],
           up := y.up + (if r.confirm.Some? then [ConfirmMessage(1, false, r.confirm.value)] else []),
           delivered := y.delivered + r.t.delivered[Min(|y.t.delivered|, |r.t.delivered|)..])
  }

  function Min(a: nat, b: nat): nat {
    if a < b then a else b
  }

  function Reached(c: Config, y: System, ms: seq<Move>): System
    decreases |ms|
  {
    if ms == [] then y else Reached(c, Next(c, y, ms[0]), ms[1..])
  }

  /** Nothing sent yet: a master with no request in flight and an outstation just connected. */
  function Fresh(): System {
    System(Connected(EB.Empty(2), {}, {}), [], Series(0, false, 0, [], Complete), [], [], [])
  }

  /** An event the outstation has removed as confirmed is in nothing the master was delivered. */
  ghost predicate Undelivered(y: System, num: nat) {
    && (exists x :: x in y.io && x.Removed? && num in x.nums)
    && forall f :: f in y.delivered ==> num !in Ids(f.body.carried)
  }

  // ---------- The one confirmation that does it ----------

  /** A response of one fragment with events awaits its confirmation, the master has had nothing of
      it, and a later fragment of an earlier response under the same number arrives: the master
      confirms it without delivering anything, and the outstation takes that for its own and drops
      the events. */
  lemma LateFragmentConfirms(c: Config, s: State, f: Fragment)
    requires !f.fir && f.con && s.p.awaiting && s.p.confirmSeq == f.seqNo && s.p.hasEvents
    requires s.p.index == |s.p.bodies| == 1
    ensures OnSolicited(Begin(f.seqNo), f) == Reply(Begin(f.seqNo), Some(f.seqNo))
    ensures Handle(c, s, QUIET, ConfirmMessage(1, false, f.seqNo)).io
         == [GotConfirm(false, f.seqNo), Removed(SelectedIds(s.buf.events))]
  {
    hide Handle, AdvanceResponse;
    ConfirmOne(c, s, QUIET, 1, f.seqNo);
  }

  // ---------- A run ----------

  /** The two events of the run, and which of them are selected. */
  function Two(one: bool, two: bool): seq<Event> {
    [SmallEvent(Class1).(num := 1, selected := one), SmallEvent(Class2).(num := 2, selected := two)]
  }

  const STATIC := ObjectHeader(1, 2, PrefixNone, StartStop8, StartStop(0, 0), [1])

  /** A read of one event of a class, and of something static in a fragment of its own. */
  function ReadOne(seqNo: SeqNum, cls: EventClass, split: bool): Received {
    Received(1, false, false, [0xC0 + seqNo, FUNC_READ],
             EventRead([ReadItem(ByClass({cls}), 1, None)], if split then [OpFlush, OpAdd(STATIC)] else [], {}))
  }

  lemma ReadOneParses(seqNo: SeqNum, cls: EventClass, split: bool)
    ensures AsksToRead(ReadOne(seqNo, cls, split), Header(true, true, false, false, seqNo, FUNC_READ))
  {
  }

  lemma TwoRaisedAre()
    ensures Raise(EB.Empty(2), [SmallEvent(Class1), SmallEvent(Class2)]).events == Two(false, false)
    ensures EB.Valid(Raise(EB.Empty(2), [SmallEvent(Class1), SmallEvent(Class2)]))
  {
    TwoWait(Class1, Class2);
    var events := [SmallEvent(Class1), SmallEvent(Class2)];
    assert events[..1] == [SmallEvent(Class1)] && events[..1][..0] == [];
    assert Raise(EB.Empty(2), events[..1]) == EB.Add(EB.Empty(2), SmallEvent(Class1));
  }

  lemma EligibleOne(cls: EventClass)
    requires cls == Class1 || cls == Class2
    ensures EB.Eligible(ByClass({cls}), Two(false, false)[0]) <==> cls == Class1
    ensures EB.Eligible(ByClass({cls}), Two(false, false)[1]) <==> cls == Class2
  {
    assert Class1 in {Class1} * {Class1} && Class2 in {Class2} * {Class2};
    assert {Class1} * {Class2} == {} && {Class2} * {Class1} == {};
  }

  /** What a read of one class takes of the two. */
  lemma TakesOne(cls: EventClass)
    requires cls == Class1 || cls == Class2
    ensures var i := if cls == Class1 then 0 else 1;
      && EB.Taken(Two(false, false), ByClass({cls}), 1) == [Two(true, true)[i]]
      && EB.Marked(Two(false, false), ByClass({cls}), 1) == Two(cls == Class1, cls == Class2)
  {
    var es, q := Two(false, false), ByClass({cls});
    assert es[..1] == [es[0]] && es[..1][..0] == [];
    EligibleOne(cls);
    assert EB.Taken([], q, 1) == [] && EB.Marked([], q, 1) == [];
    assert EB.Taken(es[..1], q, 1) == if cls == Class1 then [Two(true, true)[0]] else [];
    assert EB.Marked(es[..1], q, 1) == [es[0].(selected := cls == Class1)];
  }

  /** The bodies a read of one event is answered with. */
  function BodiesFor(e: Event, split: bool): seq<Body>
    requires |Bytes(e.value)| <= 0xFFFF
  {
    [Body([DatasetHeader(e)], [e])] + if split then [Body([STATIC], [])] else []
  }

  lemma BuildsOne(c: Config, env: Env, e: Event)
    requires Roomy(c) && Small(e)
    ensures var built := BuildEvents(env, NewBuilder(c.maxTx), [e]);
      built.sent == [e] && built.unsent == [] && built.b == NewBuilder(c.maxTx).(cur := Body([DatasetHeader(e)], [e]))
  {
    var b, h := NewBuilder(c.maxTx), DatasetHeader(e);
    assert Size(h) == 6 && TotalSize([]) == 0;
    assert [e][1..] == [];
    assert BuildEvents(env, AddHeader(b, h, [e]), []) == Built(AddHeader(b, h, [e]), [], []);
    assert [] + [h] == [h] && [] + [e] == [e];
  }

  lemma FragmentsOf(c: Config, e: Event, split: bool)
    requires Small(e)
    ensures var b := NewBuilder(c.maxTx).(cur := Body([DatasetHeader(e)], [e]));
      Done(ApplyOps(b, ReadOne(0, Class1, split).content.later)) == BodiesFor(e, split)
  {
    var b := NewBuilder(c.maxTx).(cur := Body([DatasetHeader(e)], [e]));
    var one := [b.cur];
    assert [] + one == one;
    if split {
      var ops := [OpFlush, OpAdd(STATIC)];
      assert ops[..1] == [OpFlush] && ops[..1][..0] == [];
      assert ApplyOps(b, ops[..1][..0]) == b;
      assert ApplyOps(b, ops[..1]) == Flush(b) == b.(finished := one, cur := EMPTY_BODY);
      var b' := Flush(b);
      assert AddHeader(b', STATIC, []) == b'.(cur := Body([STATIC], []));
      assert ApplyOps(b, ops) == b'.(cur := Body([STATIC], []));
    } else {
      assert one + [] == one;
    }
  }

  /** The read taken up, with neither event selected or the response before it abandoned. */
  lemma ReadOneIs(c: Config, s: State, seqNo: SeqNum, cls: EventClass, split: bool)
    requires Roomy(c) && (cls == Class1 || cls == Class2) && !s.u.awaiting && (s.p.bodies == [] ==> !s.p.awaiting)
    requires !IsRepeat(s, ReadOne(seqNo, cls, split)) && EB.Valid(s.buf)
    requires AbandonResponse(s).buf.events == Two(false, false)
    ensures var out := Handle(c, s, QUIET, ReadOne(seqNo, cls, split));
      var e := Two(true, true)[if cls == Class1 then 0 else 1];
      var bodies := BodiesFor(e, split);
      && |out.io| == 3 && !out.io[0].Sent? && !out.io[1].Sent? && !out.io[0].Removed? && !out.io[1].Removed?
      && out.io[2].Sent? && FragmentOf(out.io[2].f, bodies, seqNo, 0)
      && out.s.p.bodies == bodies && out.s.p.seqNo == seqNo && out.s.p.hasEvents
      && out.s.p.awaiting && out.s.p.index == 1 && out.s.p.confirmSeq == seqNo && out.s.u == s.u
      && out.s.buf.events == Two(cls == Class1, cls == Class2) && EB.Valid(out.s.buf)
      && out.s.last.frag == ReadOne(seqNo, cls, split).frag
  {
    hide Handle, SendFragments, BuildEvents, ApplyOps, Done, FragmentOf, EB.Valid, ParseRequestHeader, EB.Unselect,
         SelectItems,
         AfterSelecting, Two, BodiesFor, ReadBuilt;
    var r, h := ReadOne(seqNo, cls, split), Header(true, true, false, false, seqNo, FUNC_READ);
    var s1 := AbandonResponse(Remember(s, r));
    ReadOneParses(seqNo, cls, split);
    ReadIs(c, s, QUIET, r, h);
    UnselectClears(s.buf);
    var e := OneBuilt(c, s, s1, seqNo, cls, split);
    var s2 := s1.(buf := AfterSelecting(c, s1, QUIET, r), iin := s1.iin + r.content.errors);
    FirstSent(c, s2, QUIET, r, seqNo, BodiesFor(e, split));
    SendQuiet(c, s2, QUIET, r, seqNo, BodiesFor(e, split), true);
  }

  /** What it selects and builds. */
  lemma OneBuilt(c: Config, s: State, s1: State, seqNo: SeqNum, cls: EventClass, split: bool) returns (e: Event)
    requires Roomy(c) && (cls == Class1 || cls == Class2) && EB.Valid(s1.buf) && s1.synchronized == s.synchronized
    requires s1.buf == AbandonResponse(s).buf && s1.buf.events == Two(false, false)
    ensures var r := ReadOne(seqNo, cls, split);
      var built, sel := ReadBuilt(c, s, QUIET, r), SelectItems(s1.buf, r.content.items);
      && e == Two(true, true)[if cls == Class1 then 0 else 1] && Small(e)
      && |built.unsent| < |sel.events| && Done(ApplyOps(built.b, r.content.later)) == BodiesFor(e, split)
      && EB.Valid(AfterSelecting(c, s1, QUIET, r))
      && AfterSelecting(c, s1, QUIET, r).events == Two(cls == Class1, cls == Class2)
  {
    hide BuildEvents, ApplyOps, Done, EB.Valid, EB.Discard, EB.Taken, EB.Marked, AbandonResponse, SelectItems,
         BodiesFor;
    var r := ReadOne(seqNo, cls, split);
    e := Two(true, true)[if cls == Class1 then 0 else 1];
    ReadSelects(c, s1, QUIET, r);
    TakesOne(cls);
    SelectsOne(s1.buf, cls);
    SameEnv(c, s, s1, QUIET);
    BuildsOne(c, EnvOf(c, s, QUIET), e);
    FragmentsOf(c, e, split);
    DiscardNone(EB.Select(s1.buf, ByClass({cls}), 1));
  }

  lemma SelectsOne(b: EB.Buffer, cls: EventClass)
    requires b.events == Two(false, false) && (cls == Class1 || cls == Class2)
    ensures var sel := SelectItems(b, [ReadItem(ByClass({cls}), 1, None)]);
      && sel.events == [Two(true, true)[if cls == Class1 then 0 else 1]]
      && sel.buf == EB.Select(b, ByClass({cls}), 1)
  {
    hide EB.Taken, EB.Marked;
    TakesOne(cls);
    var items := [ReadItem(ByClass({cls}), 1, None)];
    assert items[..0] == [];
    assert SelectItems(b, []) == Selected(b, []);
  }

  lemma {:induction false} WithoutNone(es: seq<Event>)
    ensures EB.Without(es, {}) == es
  {
    if es != [] { WithoutNone(es[..|es| - 1]); }
  }

  lemma DiscardNone(b: EB.Buffer)
    ensures EB.Discard(b, []).events == b.events
  {
    WithoutNone(b.events);
    assert Ids([]) == {};
  }

  predicate FirstOfFive(f: Fragment) {
    f.fir && !f.fin && f.con && f.seqNo == 5 && Ids(f.body.carried) == {1}
  }

  predicate SecondOfFive(f: Fragment) {
    !f.fir && f.con && f.seqNo == 6
  }

  /** From both events waiting to the second fragment of request 5 on its way: the first, which
      carries event 1, has been delivered. */
  lemma FirstHalf(c: Config, s: State)
    requires Roomy(c) && s.p == Pending([], 0, 0, false, false, 0, 0) && !s.u.awaiting && !s.last.valid
    requires EB.Valid(s.buf) && s.buf.events == Two(false, false)
    ensures var asked := Heard(c, s, ReadOne(5, Class1, true));
      var moved := Heard(c, asked.s, ConfirmMessage(1, false, 5));
      && |Answers(asked.io)| == 1 && |Answers(moved.io)| == 1
      && FirstOfFive(Answers(asked.io)[0]) && SecondOfFive(Answers(moved.io)[0])
      && moved.s.p.bodies != [] && moved.s.p.hasEvents && moved.s.p.awaiting && !moved.s.u.awaiting
      && moved.s.buf.events == Two(true, false) && EB.Valid(moved.s.buf) && moved.s.last.frag == ReadOne(5, Class1, true).frag
  {
    hide Handle, AdvanceResponse, EB.Valid, FragmentOf;
    ReadOneIs(c, s, 5, Class1, true);
    var out := Handle(c, s, QUIET, ReadOne(5, Class1, true));
    var e := Two(true, true)[0];
    NoMoreYet(c, out.s);
    FragmentIs(out.io[2].f, BodiesFor(e, true), 5, 0);
    ThreeAnswers(out.io);
    assert out.io + [] == out.io;
    ConfirmOne(c, out.s, QUIET, 1, 5);
    ConfirmKeepsRest(c, out.s, 5);
    var got := Handle(c, out.s, QUIET, ConfirmMessage(1, false, 5));
    var next := AdvanceResponse(c, got.s, QUIET);
    FragmentIs(next.io[0].f, BodiesFor(e, true), 5, 1);
    TwoAnswers(got.io + next.io);
    assert Ids([e]) == {1};
  }

  lemma FragmentIs(f: Fragment, bodies: seq<Body>, seqNo: SeqNum, i: nat)
    requires i < |bodies| && FragmentOf(f, bodies, seqNo, i)
    ensures f.fir == (i == 0) && f.fin == (i == |bodies| - 1) && f.con && !f.uns
    ensures f.seqNo == SeqPlus(seqNo, i) && f.body == bodies[i]
  {
  }

  lemma NoMoreYet(c: Config, s: State)
    requires s.p.awaiting
    ensures AdvanceResponse(c, s, QUIET) == Out(s, [])
  {
  }

  lemma ThreeAnswers(io: seq<Io>)
    requires |io| == 3 && !io[0].Sent? && !io[1].Sent? && io[2].Sent? && !io[2].f.uns
    ensures Answers(io) == [io[2].f]
  {
    LastAnswer(io[2..]);
    assert io[1..][1..] == io[2..] && io[1..][0] == io[1];
  }

  lemma TwoAnswers(io: seq<Io>)
    requires |io| == 2 && !io[0].Sent? && io[1].Sent? && !io[1].f.uns
    ensures Answers(io) == [io[1].f]
  {
    LastAnswer(io[1..]);
  }

  lemma LastAnswer(io: seq<Io>)
    requires |io| == 1 && SolicitedSent(io[0])
    ensures Answers(io) == [io[0].f]
  {
    assert io[1..] == [] && Answers([]) == [];
  }

  /** A confirmation that lets the next fragment go leaves everything else. */
  lemma ConfirmKeepsRest(c: Config, s: State, seqNo: SeqNum)
    requires s.p.awaiting && s.p.confirmSeq == seqNo && s.p.index < |s.p.bodies|
    ensures var out := Heard(c, s, ConfirmMessage(1, false, seqNo)).s; out.last == s.last && out.u == s.u && out.buf == s.buf
  {
    hide ParseRequestHeader, CurrentIin, EB.Confirm;
    ConfirmParses(1, false, seqNo);
  }

  /** From there, with request 6 taken up, a fragment of request 5's response under number 6 costs
      event 2. */
  lemma SecondHalf(c: Config, s: State, g: Fragment)
    requires Roomy(c) && s.p.bodies != [] && s.p.hasEvents && s.p.awaiting && !s.u.awaiting
    requires s.buf.events == Two(true, false) && EB.Valid(s.buf) && s.last.frag == ReadOne(5, Class1, true).frag
    requires !g.fir && g.con && g.seqNo == 6
    ensures var asked := Heard(c, s, ReadOne(6, Class2, false));
      && |Answers(asked.io)| == 1
      && OnSolicited(Begin(6), g) == Reply(Begin(6), Some(6))
      && Removed({2}) in Heard(c, asked.s, ConfirmMessage(1, false, 6)).io
  {
    hide Handle, AdvanceResponse, EB.Valid, FragmentOf;
    FreedTwo(s);
    assert ReadOne(6, Class2, false).frag[0] != ReadOne(5, Class1, true).frag[0];
    ReadOneIs(c, s, 6, Class2, false);
    var out := Handle(c, s, QUIET, ReadOne(6, Class2, false));
    NoMoreYet(c, out.s);
    FragmentIs(out.io[2].f, BodiesFor(Two(true, true)[1], false), 6, 0);
    ThreeAnswers(out.io);
    assert out.io + [] == out.io;
    LateFragmentConfirms(c, out.s, g);
    SecondSelected();
    var ack := Handle(c, out.s, QUIET, ConfirmMessage(1, false, 6));
    assert ack.io[1] == Removed({2});
  }

  lemma FreedTwo(s: State)
    requires s.p.bodies != [] && s.p.hasEvents && s.buf.events == Two(true, false)
    ensures AbandonResponse(s).buf.events == Two(false, false)
  {
    var es := Two(true, false);
    assert es[0] in es && es[1] in es;
    assert EB.Freed(es, Ids(es)) == Two(false, false);
  }

  lemma SecondSelected()
    ensures SelectedIds(Two(false, true)) == {2}
  {
    var es := Two(false, true);
    assert es[1] in es && es[1].selected;
  }

  /** The run: request 5 is answered in two fragments, the second of which is late. */
  const RUN: seq<Move> := [
    Raises([SmallEvent(Class1), SmallEvent(Class2)]), Asks(ReadOne(5, Class1, true), 5), ToOutstation, ToMaster, ToOutstation,
    GivesUp, Asks(ReadOne(6, Class2, false), 6), ToOutstation, ToMaster, ToOutstation]

  lemma RunAt(c: Config, y: System, k: nat)
    requires k < |RUN|
    ensures Reached(c, y, RUN[k..]) == Reached(c, Next(c, y, RUN[k]), RUN[k + 1..])
  {
    hide Next;
    assert RUN[k..][0] == RUN[k] && RUN[k..][1..] == RUN[k + 1..];
  }

  /** No number has to come round for it. The second fragment of the response to request 5 is late;
      the master gives up and asks again under 6, which is that fragment's number too; it confirms
      the fragment, and the outstation drops an event the master was never delivered. */
  lemma LateFragmentLosesOne(c: Config)
    requires Roomy(c)
    ensures Undelivered(Reached(c, Fresh(), RUN), 2)
  {
    hide Heard, Raise, EB.Valid, Reached, OnSolicited, Answers, ConfirmMessage, ReadOne, Two, Next;
    var y0 := Fresh();
    TwoRaisedAre();
    var s0 := y0.s.(buf := Raise(EB.Empty(2), [SmallEvent(Class1), SmallEvent(Class2)]));
    FirstHalf(c, s0);
    var asked := Heard(c, s0, ReadOne(5, Class1, true));
    var moved := Heard(c, asked.s, ConfirmMessage(1, false, 5));
    var f, g := Answers(asked.io)[0], Answers(moved.io)[0];
    SecondHalf(c, moved.s, g);
    var again := Heard(c, moved.s, ReadOne(6, Class2, false));
    var last := Heard(c, again.s, ConfirmMessage(1, false, 6));
    var t1 := Series(5, true, 5, [f], Waiting);
    FirstTaken(f);
    var y1 := System(s0, [], y0.t, [], [], []);
    var y2 := System(s0, [], Begin(5), [], [ReadOne(5, Class1, true)], []);
    var y3 := System(asked.s, asked.io, Begin(5), [f], [], []);
    var y4 := System(asked.s, asked.io, t1, [], [ConfirmMessage(1, false, 5)], [f]);
    var y5 := System(moved.s, asked.io + moved.io, t1, [g], [], [f]);
    var y6 := y5.(t := t1.(outcome := Failed));
    var y7 := y6.(t := Begin(6), up := [ReadOne(6, Class2, false)]);
    var y8 := System(again.s, y5.io + again.io, Begin(6), [g] + Answers(again.io), [], [f]);
    var y9 := y8.(down := Answers(again.io), up := [ConfirmMessage(1, false, 6)]);
    var y10 := y9.(s := last.s, io := y8.io + last.io, down := Answers(again.io) + Answers(last.io), up := []);
    Opening(c, y0, y1, y2, y3, y4, asked, f);
    Middle(c, y4, y5, y6, y7, y8, moved, again, g);
    Closing(c, y8, y9, y10, g, Answers(again.io), last);
    Along(c, y0, y1, y2, y3, y4, y5, y6, y7, y8, y9, y10);
    assert Removed({2}) in y10.io;
  }

  lemma Along(
    c: Config, y0: System, y1: System, y2: System, y3: System, y4: System, y5: System, y6: System, y7: System, y8: System,
    y9: System, y10: System)
    requires Next(c, y0, RUN[0]) == y1 && Next(c, y1, RUN[1]) == y2 && Next(c, y2, RUN[2]) == y3
    requires Next(c, y3, RUN[3]) == y4
    requires Next(c, y4, RUN[4]) == y5 && Next(c, y5, RUN[5]) == y6 && Next(c, y6, RUN[6]) == y7
    requires Next(c, y7, RUN[7]) == y8
    requires Next(c, y8, RUN[8]) == y9 && Next(c, y9, RUN[9]) == y10
    ensures Reached(c, y0, RUN) == y10
  {
    hide Next, Reached;
    assert RUN[0..] == RUN && RUN[10..] == [];
    RunAt(c, y0, 0);
    RunAt(c, y1, 1);
    RunAt(c, y2, 2);
    RunAt(c, y3, 3);
    RunAt(c, y4, 4);
    RunAt(c, y5, 5);
    RunAt(c, y6, 6);
    RunAt(c, y7, 7);
    RunAt(c, y8, 8);
    RunAt(c, y9, 9);
    NothingLeft(c, y10);
  }

  lemma NothingLeft(c: Config, y: System)
    ensures Reached(c, y, []) == y
  {
  }

  lemma FirstTaken(f: Fragment)
    requires f.fir && !f.fin && f.con && f.seqNo == 5
    ensures OnSolicited(Begin(5), f) == Reply(Series(5, true, 5, [f], Waiting), Some(5))
  {
    assert [] + [f] == [f];
  }

  lemma Opening(c: Config, y0: System, y1: System, y2: System, y3: System, y4: System, asked: Out, f: Fragment)
    requires y0 == Fresh() && y1 == y0.(s := y1.s)
    requires y1.s == y0.s.(buf := Raise(EB.Empty(2), [SmallEvent(Class1), SmallEvent(Class2)]))
    requires y2 == y1.(t := Begin(5), up := [ReadOne(5, Class1, true)])
    requires asked == Heard(c, y1.s, ReadOne(5, Class1, true)) && Answers(asked.io) == [f]
    requires y3 == System(asked.s, asked.io, Begin(5), [f], [], [])
    requires OnSolicited(Begin(5), f) == Reply(y4.t, Some(5)) && y4.t.delivered == [f]
    requires y4 == y3.(t := y4.t, down := [], up := [ConfirmMessage(1, false, 5)], delivered := [f])
    ensures Next(c, y0, RUN[0]) == y1 && Next(c, y1, RUN[1]) == y2 && Next(c, y2, RUN[2]) == y3
    ensures Next(c, y3, RUN[3]) == y4
  {
    hide Heard, Raise, OnSolicited, Answers, ConfirmMessage;
    assert [] + asked.io == asked.io && [] + [f] == [f] && [f][1..] == [] && [f][0..] == [f];
  }

  lemma Middle(
    c: Config, y4: System, y5: System, y6: System, y7: System, y8: System, moved: Out, again: Out, g: Fragment)
    requires y4.up == [ConfirmMessage(1, false, 5)] && y4.down == [] && y4.t.outcome.Waiting?
    requires moved == Heard(c, y4.s, ConfirmMessage(1, false, 5)) && Answers(moved.io) == [g]
    requires y5 == y4.(s := moved.s, io := y4.io + moved.io, down := [g], up := [])
    requires y6 == y5.(t := y5.t.(outcome := Failed))
    requires y7 == y6.(t := Begin(6), up := [ReadOne(6, Class2, false)])
    requires again == Heard(c, y7.s, ReadOne(6, Class2, false))
    requires y8 == y7.(s := again.s, io := y7.io + again.io, down := [g] + Answers(again.io), up := [])
    ensures Next(c, y4, RUN[4]) == y5 && Next(c, y5, RUN[5]) == y6 && Next(c, y6, RUN[6]) == y7
    ensures Next(c, y7, RUN[7]) == y8
  {
    hide Heard, Answers, ConfirmMessage, ReadOne;
    assert [] + [g] == [g];
  }

  lemma Closing(c: Config, y8: System, y9: System, y10: System, g: Fragment, rest: seq<Fragment>, last: Out)
    requires y8.t == Begin(6) && y8.down == [g] + rest && y8.up == []
    requires OnSolicited(Begin(6), g) == Reply(Begin(6), Some(6))
    requires y9 == y8.(down := rest, up := [ConfirmMessage(1, false, 6)])
    requires last == Heard(c, y9.s, ConfirmMessage(1, false, 6))
    requires y10 == y9.(s := last.s, io := y9.io + last.io, down := rest + Answers(last.io), up := [])
    ensures Next(c, y8, RUN[8]) == y9 && Next(c, y9, RUN[9]) == y10
  {
    hide OnSolicited, ConfirmMessage, Heard, Answers;
    assert ([g] + rest)[1..] == rest;
    var none: seq<Fragment> := [];
    assert none[0..] == [] && y8.delivered + [] == y8.delivered;
  }
}
