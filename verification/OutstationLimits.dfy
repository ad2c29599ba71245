/** Where the guarantee that no event is lost ends: a read in the gap before a retry, a read sent
    to everyone, and a request that does not parse. For each, when an event is lost and a run in
    which one is. */
module OutstationLimits {
  import opened Protocol
  import opened Events
  import opened Wire
  import opened ObjectTable
  import opened EventFragments
  import opened EventMeaning
  import opened Unsolicited
  import opened Outstation
  import opened OutstationRuns
  import opened OutstationSafety
  import EB = EventBuffers
  import UF = UnsolicitedFit

  // ---------- What a confirmation justifies ----------

  lemma {:induction false} CarriedWhere(bodies: seq<Body>, num: nat)
    ensures num in Ids(Carried(bodies)) <==> exists i :: 0 <= i < |bodies| && num in Ids(bodies[i].carried)
  {
    if bodies != [] {
      var init, last := bodies[..|bodies| - 1], bodies[|bodies| - 1];
      CarriedWhere(init, num);
      IdsConcat(Carried(init), last.carried);
      if num in Ids(Carried(init)) {
        var i :| 0 <= i < |init| && num in Ids(init[i].carried);
        assert bodies[i] == init[i];
      }
      forall i | 0 <= i < |init| && num in Ids(bodies[i].carried) ensures num in Ids(Carried(init)) {
        assert init[i] == bodies[i];
      }
    }
  }

  /** A response whose last fragment has just been confirmed, the others before it. */
  ghost predicate WhollyConfirmed(io: seq<Io>, bodies: seq<Body>, seqNo: SeqNum, m: Marks) {
    && bodies != [] && |m.ackAt| == |bodies|
    && Paced(io, bodies, seqNo, m.sentAt, m.ackAt)
    && m.ackAt[|m.ackAt| - 1] == |io| - 1
  }

  /** Where two complete responses place a fragment, it is a fragment of both. */
  lemma SameStart(
      io: seq<Io>, bodies: seq<Body>, seqNo: SeqNum, m: Marks, bodies': seq<Body>, seqNo': SeqNum, m': Marks)
    requires WhollyConfirmed(io, bodies, seqNo, m) && WhollyConfirmed(io, bodies', seqNo', m')
    requires m.sentAt[0] <= m'.sentAt[0]
    ensures m.sentAt[0] == m'.sentAt[0]
  {
    var k := m'.sentAt[0];
    assert FragmentOf(io[k].f, bodies', seqNo', 0) && SolicitedSent(io[k]);
    var i :| 0 <= i < |m.sentAt| && m.sentAt[i] == k;
    assert FragmentOf(io[m.sentAt[i]].f, bodies, seqNo, i);
  }

  lemma SameBody(
      io: seq<Io>, bodies: seq<Body>, seqNo: SeqNum, m: Marks, bodies': seq<Body>, seqNo': SeqNum, m': Marks, j: nat)
    requires WhollyConfirmed(io, bodies, seqNo, m) && WhollyConfirmed(io, bodies', seqNo', m') && j < |bodies'|
    ensures exists i :: 0 <= i < |bodies| && bodies[i] == bodies'[j]
  {
    if m.sentAt[0] <= m'.sentAt[0] { SameStart(io, bodies, seqNo, m, bodies', seqNo', m'); }
    else { SameStart(io, bodies', seqNo', m', bodies, seqNo, m); }
    Later(io, bodies', seqNo', m', j);
    var k := m'.sentAt[j];
    assert FragmentOf(io[k].f, bodies', seqNo', j) && SolicitedSent(io[k]);
    var i :| 0 <= i < |m.sentAt| && m.sentAt[i] == k;
    assert FragmentOf(io[m.sentAt[i]].f, bodies, seqNo, i);
  }

  lemma {:induction false} Later(io: seq<Io>, bodies: seq<Body>, seqNo: SeqNum, m: Marks, j: nat)
    requires Paced(io, bodies, seqNo, m.sentAt, m.ackAt) && j < |m.ackAt|
    ensures m.sentAt[0] <= m.sentAt[j]
  {
    hide FragmentOf, AloneSince;
    if j > 0 {
      Later(io, bodies, seqNo, m, j - 1);
      assert m.sentAt[j - 1] < m.ackAt[j - 1] < m.sentAt[j];
    }
  }

  /** A whole response confirmed justifies removing exactly the events it carried. */
  lemma JustifiedExactly(io: seq<Io>, bodies: seq<Body>, seqNo: SeqNum, m: Marks, num: nat)
    requires WhollyConfirmed(io, bodies, seqNo, m)
    ensures Justified(io, num) <==> num in Ids(Carried(bodies))
  {
    hide Paced, FragmentOf, Carried;
    if num in Ids(Carried(bodies)) { FullyConfirmed(io, num, bodies, seqNo, m); }
    if Justified(io, num) {
      LastIsSolicited(io, bodies, seqNo, m);
      var bodies': seq<Body>, seqNo': SeqNum, sentAt: seq<nat>, ackAt: seq<nat>
        :| SolicitedProof(io, num, bodies', seqNo', sentAt, ackAt);
      CarriedWhere(bodies', num);
      var j :| 0 <= j < |bodies'| && num in Ids(bodies'[j].carried);
      SameBody(io, bodies, seqNo, m, bodies', seqNo', Marks(sentAt, ackAt, 0), j);
      CarriedWhere(bodies, num);
    }
  }

  lemma LastIsSolicited(io: seq<Io>, bodies: seq<Body>, seqNo: SeqNum, m: Marks)
    requires WhollyConfirmed(io, bodies, seqNo, m)
    ensures io != [] && io[|io| - 1].GotConfirm? && !io[|io| - 1].uns
  {
    hide FragmentOf, AloneSince;
  }

  lemma NothingLostIff(io: seq<Io>, x: Io)
    ensures NothingLost(io + [x]) <==> NothingLost(io) && (x.Removed? ==> forall num :: num in x.nums ==> Justified(io, num))
  {
    hide Justified;
    var all := io + [x];
    assert all[..|io|] == io;
    assert forall k :: 0 <= k <= |io| ==> all[..k] == io[..k];
    if NothingLost(all) {
      forall k, num | 0 <= k < |io| && io[k].Removed? && num in io[k].nums ensures Justified(io[..k], num) {
        assert all[k] == io[k];
      }
      if x.Removed? {
        forall num | num in x.nums ensures Justified(io, num) { assert all[|io|] == x; }
      }
    } else if NothingLost(io) && (x.Removed? ==> forall num :: num in x.nums ==> Justified(io, num)) {
      NothingLostAdd(io, x);
    }
  }

  // ---------- A response sent and wholly confirmed ----------

  /** The master confirms the fragments from `from` on as they come. */
  function ConfirmTurns(w: World, source: nat, seqNo: SeqNum, from: nat, n: nat): seq<Turn>
    decreases n - from
  {
    if from >= n then []
    else
      [Turn(w, Receive(ConfirmMessage(source, false, SeqPlus(seqNo, from)))), Turn(w, Advance)]
      + ConfirmTurns(w, source, seqNo, from + 1, n)
  }

  lemma {:induction false} ServeCons(c: Config, s: State, t: Turn, rest: seq<Turn>)
    ensures var first := Do(c, s, t.w, t.step);
      var more := Serve(c, first.s, rest);
      Serve(c, s, [t] + rest) == Out(more.s, first.io + more.io)
    decreases |rest|
  {
    hide Do;
    if rest == [] {
      assert [t] + rest == [t] && [t][..0] == [];
      assert Serve(c, s, [t][..0]) == Out(s, []);
    } else {
      var init := rest[..|rest| - 1];
      ServeCons(c, s, t, init);
      assert ([t] + rest)[..|rest|] == [t] + init;
    }
  }

  /** Fragment `i` of an event-carrying response awaits its confirmation, the ones before it
      having got theirs. */
  ghost predicate Awaiting(s: State, io: seq<Io>, m: Marks, bodies: seq<Body>, seqNo: SeqNum, i: nat) {
    && i < |bodies| && s.p.bodies == bodies && s.p.seqNo == seqNo && s.p.hasEvents
    && s.p.awaiting && s.p.index == i + 1 && s.p.confirmSeq == SeqPlus(seqNo, i)
    && Paced(io, bodies, seqNo, m.sentAt, m.ackAt) && |m.sentAt| == i + 1 && |m.ackAt| == i
  }

  /** The confirmation awaited, and the fragment after it if there is one. */
  lemma ConfirmOne(c: Config, s: State, w: World, source: nat, seqNo: SeqNum)
    requires s.p.awaiting && s.p.confirmSeq == seqNo && !w.busy && s.p.hasEvents && 1 <= s.p.index <= |s.p.bodies|
    ensures var out := Handle(c, s, w, ConfirmMessage(source, false, seqNo));
      var got := GotConfirm(false, seqNo);
      var next := AdvanceResponse(c, out.s, w);
      if s.p.index == |s.p.bodies| then
        out.io == [got, Removed(SelectedIds(s.buf.events))] && next == Out(out.s, [])
      else
        && out.io == [got] && |next.io| == 1 && next.io[0].Sent?
        && FragmentOf(next.io[0].f, s.p.bodies, s.p.seqNo, s.p.index)
        && next.s.buf == s.buf
        && next.s.p == s.p.(index := s.p.index + 1, awaiting := true, confirmSeq := SeqPlus(s.p.seqNo, s.p.index),
                            deadline := next.s.p.deadline)
  {
    hide ParseRequestHeader, CurrentIin, EB.Confirm;
    ConfirmParses(source, false, seqNo);
  }

  /** From there to the end: nothing is lost if and only if everything selected is carried. */
  lemma {:induction false} ConfirmRest(
    c: Config, s: State, w: World, source: nat, io: seq<Io>, m: Marks, bodies: seq<Body>, seqNo: SeqNum, i: nat)
    requires Awaiting(s, io, m, bodies, seqNo, i) && !w.busy && NothingLost(io)
    ensures NothingLost(io + Serve(c, s, ConfirmTurns(w, source, seqNo, i, |bodies|)).io)
       <==> SelectedIds(s.buf.events) <= Ids(Carried(bodies))
    decreases |bodies| - i
  {
    hide Paced, FragmentOf, NothingLost, Carried, Handle, AdvanceResponse, Serve;
    var seqI := SeqPlus(seqNo, i);
    var msg := ConfirmMessage(source, false, seqI);
    var out := Handle(c, s, w, msg);
    var next := AdvanceResponse(c, out.s, w);
    var got := GotConfirm(false, seqI);
    var more := ConfirmTurns(w, source, seqNo, i + 1, |bodies|);
    ConfirmOne(c, s, w, source, seqI);
    ServeCons(c, s, Turn(w, Receive(msg)), [Turn(w, Advance)] + more);
    ServeCons(c, out.s, Turn(w, Advance), more);
    assert [Turn(w, Receive(msg)), Turn(w, Advance)] + more == [Turn(w, Receive(msg))] + ([Turn(w, Advance)] + more);
    var rest := Serve(c, next.s, more).io;
    PacedAck(io, bodies, seqNo, m.sentAt, m.ackAt);
    NothingLostIff(io, got);
    var io1, m1 := io + [got], m.(ackAt := m.ackAt + [|io|]);
    if i + 1 == |bodies| {
      ServeNone(c, next.s, more);
      var gone := Removed(SelectedIds(s.buf.events));
      assert io + ([got, gone] + ([] + [])) == io1 + [gone];
      NothingLostIff(io1, gone);
      forall num ensures Justified(io1, num) <==> num in Ids(Carried(bodies)) {
        JustifiedExactly(io1, bodies, seqNo, m1, num);
      }
    } else {
      var f := next.io[0].f;
      PacedSend(io1, f, bodies, seqNo, m1.sentAt, m1.ackAt);
      NothingLostIff(io1, Sent(f));
      var io2 := io1 + [Sent(f)];
      ConfirmRest(c, next.s, w, source, io2, m1.(sentAt := m1.sentAt + [|io1|]), bodies, seqNo, i + 1);
      assert next.io == [Sent(f)];
      assert io + ([got] + (next.io + rest)) == io2 + rest;
    }
  }

  lemma ServeNone(c: Config, s: State, turns: seq<Turn>)
    requires turns == []
    ensures Serve(c, s, turns) == Out(s, [])
  {
  }

  /** A response with events started from any state and then wholly confirmed. */
  lemma StartedThenConfirmed(c: Config, s: State, w: World, r: Received, seqNo: SeqNum, bodies: seq<Body>, io: seq<Io>)
    requires !r.broadcast && !s.p.awaiting && bodies != [] && !w.busy && NothingLost(io)
    ensures var out := SendFragments(c, s, w, r, seqNo, bodies, true);
      && out.s.p.bodies == bodies
      && (NothingLost(io + (out.io + Serve(c, out.s, ConfirmTurns(w, r.source, seqNo, 0, |bodies|)).io))
          <==> SelectedIds(s.buf.events) <= Ids(Carried(bodies)))
  {
    hide NothingLost, Carried, Serve, ConfirmTurns, SendFragments, Paced, FragmentOf;
    var out := SendFragments(c, s, w, r, seqNo, bodies, true);
    FirstSent(c, s, w, r, seqNo, bodies);
    var f := out.io[0].f;
    PacedNone(io, bodies, seqNo);
    PacedSend(io, f, bodies, seqNo, [], []);
    NothingLostIff(io, Sent(f));
    var rest := Serve(c, out.s, ConfirmTurns(w, r.source, seqNo, 0, |bodies|)).io;
    assert [] + [|io|] == [|io|];
    ConfirmRest(c, out.s, w, r.source, io + [Sent(f)], Marks([|io|], [], 0), bodies, seqNo, 0);
    assert out.io == [Sent(f)];
    assert io + (out.io + rest) == (io + [Sent(f)]) + rest;
  }

  lemma PacedNone(io: seq<Io>, bodies: seq<Body>, seqNo: SeqNum)
    ensures Paced(io, bodies, seqNo, [], [])
  {
  }

  lemma FirstSent(c: Config, s: State, w: World, r: Received, seqNo: SeqNum, bodies: seq<Body>)
    requires !r.broadcast && !s.p.awaiting && bodies != [] && !w.busy
    ensures var out := SendFragments(c, s, w, r, seqNo, bodies, true);
      && |out.io| == 1 && out.io[0].Sent? && FragmentOf(out.io[0].f, bodies, seqNo, 0)
      && out.s.buf == s.buf && out.s.u == s.u && out.s.deferred == s.deferred
      && out.s.p.bodies == bodies && out.s.p.seqNo == seqNo && out.s.p.hasEvents
      && out.s.p.awaiting && out.s.p.index == 1 && out.s.p.confirmSeq == SeqPlus(seqNo, 0)
  {
    hide CurrentIin;
  }

  // ---------- When a read is answered with events ----------

  /** Whether objects of a run fit an empty fragment. */
  predicate RunFits(max: nat, r: Run) {
    max - RESPONSE_HEADER_SIZE - Overhead(r) >= PerObject(r)
  }

  /** Some event of the list has an encoding that fits an empty fragment, its index as wide as
      the others of its run need. */
  predicate SomeFit(env: Env, max: nat, events: seq<Event>)
    decreases |events|
  {
    if events == [] then false
    else
      var e := events[0];
      if e.kind == Dataset then
        (|Bytes(e.value)| <= 0xFFFF && Size(DatasetHeader(e)) + RESPONSE_HEADER_SIZE <= max) || SomeFit(env, max, events[1..])
      else if ObjectSize(env.codec, e) == 0 then SomeFit(env, max, events[1..])
      else
        var n := RunLength(events, EventGroup(e.kind), e.variation);
        RunFits(max, RunOf(env.codec, e, events[..n])) || SomeFit(env, max, events[n..])
  }

  lemma RunSentIff(env: Env, b: Builder, r: Run, run: seq<Event>)
    requires r.size > 0 && run != []
    ensures BuildRun(env, b, r, run).sent != [] <==> RunFits(b.max, r)
  {
    hide ChunkLen, AddChunk, Overhead, PerObject;
    FlushedRoom(b);
  }

  lemma FlushedRoom(b: Builder)
    ensures Room(Flush(b)) == b.max - RESPONSE_HEADER_SIZE >= Room(b)
  {
  }

  /** Something is sent if and only if some event fits, whatever the builder holds already. */
  lemma {:induction false} SentIffSomeFit(env: Env, b: Builder, events: seq<Event>)
    ensures BuildEvents(env, b, events).sent != [] <==> SomeFit(env, b.max, events)
    decreases |events|
  {
    hide AddHeader, BuildRun, DatasetHeader, RunFits, ObjectSize, EventGroup, RunOf;
    if events != [] {
      var c, e := env.codec, events[0];
      if e.kind == Dataset {
        AddHeaderMax(b, e);
        SentIffSomeFit(env, if DatasetFits(b, e) then AddHeader(b, DatasetHeader(e), [e]) else b, events[1..]);
      } else if ObjectSize(c, e) == 0 {
        SentIffSomeFit(env, b, events[1..]);
      } else {
        var n := RunLength(events, EventGroup(e.kind), e.variation);
        var r := RunOf(c, e, events[..n]);
        assert r.size > 0 by { RunSize(c, e, events[..n]); }
        RunSentIff(env, b, r, events[..n]);
        UF.RunKeepsMax(env, b, r, events[..n]);
        SentIffSomeFit(env, BuildRun(env, b, r, events[..n]).b, events[n..]);
      }
    }
  }

  lemma RunSize(c: Codec, e: Event, run: seq<Event>)
    ensures RunOf(c, e, run).size == ObjectSize(c, e)
  {
  }

  lemma AddHeaderMax(b: Builder, e: Event)
    ensures DatasetFits(b, e) ==> AddHeader(b, DatasetHeader(e), [e]).max == b.max
  {
  }

  // ---------- A read answered and wholly confirmed ----------

  lemma DistinctConcat(a: seq<Event>, b: seq<Event>)
    requires Distinct(a) && Distinct(b) && Ids(a) !! Ids(b)
    ensures Distinct(a + b)
  {
    var c := a + b;
    forall i, j | 0 <= i < j < |c| ensures c[i].num != c[j].num {
      if i < |a| <= j {
        assert a[i] in a && b[j - |a|] in b;
        assert a[i].num in Ids(a) && b[j - |a|].num in Ids(b);
      }
    }
  }

  lemma RevariedDistinct(events: seq<Event>, variation: Option<Octet>)
    requires Distinct(events)
    ensures Distinct(Revaried(events, variation))
  {
  }

  /** A read selects events that were not selected, each once. */
  lemma {:induction false} SelectItemsFresh(b: EB.Buffer, items: seq<ReadItem>)
    requires EB.Valid(b)
    ensures var sel := SelectItems(b, items); Distinct(sel.events) && Ids(sel.events) !! SelectedIds(b.events)
  {
    hide EB.Taken, Revaried, EB.Marked, Distinct;
    if items == [] {
      NoneDistinct();
    } else {
      var init, item := items[..|items| - 1], items[|items| - 1];
      var before := SelectItems(b, init);
      SelectItemsFresh(b, init);
      SelectItemsMarks(b, init);
      TakenFresh(before.buf.events, item.query, item.limit);
      EB.TakenOrdered(before.buf.events, item.query, item.limit);
      var taken := EB.Taken(before.buf.events, item.query, item.limit);
      OrderedDistinct(taken);
      RevariedIds(taken, item.variation);
      RevariedDistinct(taken, item.variation);
      DistinctConcat(before.events, Revaried(taken, item.variation));
      IdsConcat(before.events, Revaried(taken, item.variation));
    }
  }

  lemma NoneDistinct()
    ensures Distinct([])
  {
  }

  /** The buffer once a read has selected and given up what cannot be sent. */
  function AfterSelecting(c: Config, s: State, w: World, r: Received): EB.Buffer
    requires r.content.EventRead?
  {
    var sel := SelectItems(s.buf, r.content.items);
    var built := BuildEvents(EnvOf(c, s, w), NewBuilder(c.maxTx), sel.events);
    if sel.events == [] then sel.buf else EB.Discard(sel.buf, built.unsent)
  }

  /** What a read leaves selected: what was, and what it sends, with nothing in common. */
  lemma ReadSelects(c: Config, s: State, w: World, r: Received)
    requires r.content.EventRead? && EB.Valid(s.buf)
    ensures var sent := BuildEvents(EnvOf(c, s, w), NewBuilder(c.maxTx), SelectItems(s.buf, r.content.items).events).sent;
      && EB.Valid(AfterSelecting(c, s, w, r))
      && SelectedIds(AfterSelecting(c, s, w, r).events) == SelectedIds(s.buf.events) + Ids(sent)
      && SelectedIds(s.buf.events) !! Ids(sent)
  {
    hide SelectItems, BuildEvents, EnvOf, EB.Discard, EB.Valid, Interleaves, Distinct;
    var sel, env := SelectItems(s.buf, r.content.items), EnvOf(c, s, w);
    var built := BuildEvents(env, NewBuilder(c.maxTx), sel.events);
    SelectItemsMarks(s.buf, r.content.items);
    SelectItemsFresh(s.buf, r.content.items);
    BuiltFromNothing(env, c.maxTx, sel.events);
    SentAndUnsentPartition(env, NewBuilder(c.maxTx), sel.events);
    DistinctParts(sel.events, built.sent, built.unsent);
    DiscardLeaves(sel.buf, built.unsent);
    Remaining(SelectedIds(s.buf.events), Ids(built.sent), Ids(built.unsent));
  }

  /** The request of a read a master sends: one fragment, asking for no confirmation. */
  predicate AsksToRead(r: Received, h: Header) {
    ParseRequestHeader(r.frag) == Some(h) && h.fir && h.fin && !h.con && !h.uns && h.func == FUNC_READ
    && !r.broadcast && !r.content.Malformed?
  }

  /** A read and the confirmations of everything it is answered with. */
  function AnsweredTurns(c: Config, s: State, w: World, r: Received, seqNo: SeqNum): seq<Turn> {
    [Turn(w, Receive(r))] + ConfirmTurns(w, r.source, seqNo, 0, |Handle(c, s, w, r).s.p.bodies|)
  }

  /** The bodies a new read is answered with carry what was sent. */
  lemma ReadCarries(c: Config, s: State, w: World, r: Received)
    requires r.content.EventRead?
    ensures var built := BuildEvents(EnvOf(c, s, w), NewBuilder(c.maxTx), SelectItems(s.buf, r.content.items).events);
      Carried(Done(ApplyOps(built.b, r.content.later))) == built.sent
  {
    hide SelectItems, BuildEvents, EnvOf, ApplyOps, Done, AllCarried, Tidy;
    var events := SelectItems(s.buf, r.content.items).events;
    var built := BuildEvents(EnvOf(c, s, w), NewBuilder(c.maxTx), events);
    BuiltFromNothing(EnvOf(c, s, w), c.maxTx, events);
    OpsCarry(built.b, r.content.later);
    DoneCarries(ApplyOps(built.b, r.content.later));
  }

  /** What handling a new read comes to. */
  lemma ReadIs(c: Config, s: State, w: World, r: Received, h: Header)
    requires AsksToRead(r, h) && r.content.EventRead? && !IsRepeat(s, r) && !s.u.awaiting
    ensures var s1 := AbandonResponse(Remember(s, r));
      var built := ReadBuilt(c, s, w, r);
      var s2 := s1.(buf := AfterSelecting(c, s1, w, r), iin := s1.iin + r.content.errors);
      var hasEvents := |built.unsent| < |SelectItems(s1.buf, r.content.items).events|;
      var out := SendFragments(c, s2, w, r, h.seqNo, Done(ApplyOps(built.b, r.content.later)), hasEvents);
      Handle(c, s, w, r) == Out(out.s, [Asked(r.source, r.frag), Executed(r.source, r.frag)] + out.io)
  {
    hide SendFragments, SelectItems, BuildEvents, ApplyOps, Done, ParseRequestHeader, EB.Unselect, EB.Discard;
  }

  /** From any state, a new read answered with events and wholly confirmed loses nothing if and
      only if nothing was selected when it was taken up. */
  lemma ReadThenConfirmed(c: Config, s: State, w: World, r: Received, h: Header, io: seq<Io>)
    requires AsksToRead(r, h) && r.content.EventRead? && !IsRepeat(s, r) && !s.u.awaiting && !w.busy
    requires EB.Valid(s.buf) && (s.p.bodies == [] ==> !s.p.awaiting) && NothingLost(io)
    requires ReadBuilt(c, s, w, r).sent != []
    ensures var bodies := Handle(c, s, w, r).s.p.bodies;
      && Carried(bodies) == ReadBuilt(c, s, w, r).sent
      && (NothingLost(io + Serve(c, s, AnsweredTurns(c, s, w, r, h.seqNo)).io)
          <==> SelectedIds(AbandonResponse(s).buf.events) == {})
  {
    hide SendFragments, SelectItems, BuildEvents, ApplyOps, Done, ParseRequestHeader, EB.Valid, EB.Unselect, EB.Discard,
         Handle, Serve, NothingLost, Carried, EnvOf, AfterSelecting;
    var s1 := AbandonResponse(Remember(s, r));
    var sel, built := SelectItems(s1.buf, r.content.items), ReadBuilt(c, s, w, r);
    UnselectClears(s.buf);
    assert s1.buf == AbandonResponse(s).buf;
    SameEnv(c, s, s1, w);
    ReadSelects(c, s1, w, r);
    ReadCarries(c, s1, w, r);
    ReadIs(c, s, w, r, h);
    BuiltFromNothing(EnvOf(c, s, w), c.maxTx, sel.events);
    var bodies := Done(ApplyOps(built.b, r.content.later));
    var s2 := s1.(buf := AfterSelecting(c, s1, w, r), iin := s1.iin + r.content.errors);
    var asked, ran := Asked(r.source, r.frag), Executed(r.source, r.frag);
    NothingLostIff(io, asked);
    NothingLostIff(io + [asked], ran);
    var io1 := io + [asked] + [ran];
    StartedThenConfirmed(c, s2, w, r, h.seqNo, bodies, io1);
    var out := SendFragments(c, s2, w, r, h.seqNo, bodies, true);
    var turns := ConfirmTurns(w, r.source, h.seqNo, 0, |bodies|);
    ServeCons(c, s, Turn(w, Receive(r)), turns);
    var rest := Serve(c, out.s, turns).io;
    assert io + ([asked, ran] + out.io + rest) == io1 + (out.io + rest);
    NoneOf(SelectedIds(s1.buf.events), Ids(built.sent));
  }

  lemma SameEnv(c: Config, s: State, s1: State, w: World)
    requires s1.synchronized == s.synchronized
    ensures EnvOf(c, s1, w) == EnvOf(c, s, w)
  {
  }

  lemma NoneOf(before: set<nat>, sent: set<nat>)
    requires before !! sent
    ensures before + sent <= sent <==> before == {}
  {
    if before + sent <= sent { assert forall x :: x in before ==> x in before + sent; }
  }

  /** The same of a repeat: it loses nothing if and only if the stored answer carries everything
      selected. */
  lemma RepeatThenConfirmed(c: Config, s: State, w: World, r: Received, h: Header, io: seq<Io>)
    requires AsksToRead(r, h) && IsRepeat(s, r) && !s.u.awaiting && !w.busy && NothingLost(io)
    requires s.last.hasEvents && s.last.bodies != []
    ensures Handle(c, s, w, r).s.p.bodies == s.last.bodies
    ensures NothingLost(io + Serve(c, s, AnsweredTurns(c, s, w, r, h.seqNo)).io)
       <==> SelectedIds(s.buf.events) <= Ids(Carried(s.last.bodies))
  {
    hide SendFragments, ParseRequestHeader, Serve, NothingLost, Carried;
    var bodies := s.last.bodies;
    var s1 := s.(p := s.p.(awaiting := false, bodies := [], index := 0), iin := s.iin + s.last.errors);
    var out := SendFragments(c, s1, w, r, h.seqNo, bodies, true);
    var asked := Asked(r.source, r.frag);
    assert Handle(c, s, w, r) == Out(out.s, [asked] + out.io);
    NothingLostIff(io, asked);
    StartedThenConfirmed(c, s1, w, r, h.seqNo, bodies, io + [asked]);
    var turns := ConfirmTurns(w, r.source, h.seqNo, 0, |bodies|);
    hide Handle;
    ServeCons(c, s, Turn(w, Receive(r)), turns);
    var rest := Serve(c, out.s, turns).io;
    assert io + ([asked] + out.io + rest) == io + [asked] + (out.io + rest);
  }

  // ---------- The gap before a retry ----------

  /** A read answered with events, in any state reached without loss: once its response is wholly
      confirmed, an event has been lost if and only if it was a gap read. */
  lemma GapReadLoses(c: Config, s: State, w: World, r: Received, h: Header, io: seq<Io>, m: Marks)
    requires Safe(s, io, m) && AsksToRead(r, h) && AnswersEvents(c, s, w, r) && !s.u.awaiting && !w.busy
    ensures NothingLost(io + Serve(c, s, AnsweredTurns(c, s, w, r, h.seqNo)).io) <==> !GapRead(c, s, w, r)
    ensures GapRead(c, s, w, r) ==> UnsEvents(s)
  {
    hide Handle, Serve, NothingLost, Carried, ParseRequestHeader, EB.Valid, ReadBuilt, Marked, UnsolShape, LastShape,
         AbandonResponse, AnsweredTurns;
    if GapRead(c, s, w, r) { GapIsUnsolicited(c, s, w, r, io, m); }
    if IsRepeat(s, r) {
      RepeatThenConfirmed(c, s, w, r, h, io);
    } else {
      ReadThenConfirmed(c, s, w, r, h, io);
    }
  }

  // ---------- An unsolicited report confirmed ----------

  /** A confirmation of the unsolicited response last sent justifies removing exactly what that
      carried. */
  lemma JustifiedByReport(io: seq<Io>, at: nat, f: Fragment, num: nat)
    requires at < |io| && io[at] == Sent(f) && f.uns && forall k :: at < k < |io| ==> !UnsolicitedSent(io[k])
    ensures Justified(io + [GotConfirm(true, f.seqNo)], num) <==> num in Ids(f.body.carried)
  {
    hide Paced, Carried;
    var all := io + [GotConfirm(true, f.seqNo)];
    assert all[at] == io[at];
    if num in Ids(f.body.carried) {
      assert UnsolicitedProof(all, num, at);
    }
    forall bodies, seqNo, sentAt, ackAt ensures !SolicitedProof(all, num, bodies, seqNo, sentAt, ackAt) {
      if SolicitedProof(all, num, bodies, seqNo, sentAt, ackAt) { AckIsSolicited(all, bodies, seqNo, sentAt, ackAt); }
    }
    if exists sentAt :: UnsolicitedProof(all, num, sentAt) {
      var sentAt :| UnsolicitedProof(all, num, sentAt);
      assert sentAt == at;
    }
  }

  lemma AckIsSolicited(io: seq<Io>, bodies: seq<Body>, seqNo: SeqNum, sentAt: seq<nat>, ackAt: seq<nat>)
    requires Paced(io, bodies, seqNo, sentAt, ackAt) && ackAt != []
    ensures ackAt[|ackAt| - 1] < |io| && io[ackAt[|ackAt| - 1]].GotConfirm? && !io[ackAt[|ackAt| - 1]].uns
  {
  }

  /** The response `f`, last reported, awaits its confirmation. */
  ghost predicate AwaitsReport(s: State, io: seq<Io>, at: nat, f: Fragment) {
    && at < |io| && io[at] == Sent(f) && f.uns && (forall k :: at < k < |io| ==> !UnsolicitedSent(io[k]))
    && s.u.awaiting && s.u.nullConfirmed && s.u.awaitSeq == f.seqNo
  }

  /** When it is confirmed, nothing is lost if and only if it carried all that is selected. */
  lemma ReportConfirmed(c: Config, s: State, w: World, source: nat, io: seq<Io>, at: nat, f: Fragment)
    requires AwaitsReport(s, io, at, f) && NothingLost(io)
    ensures NothingLost(io + Handle(c, s, w, ConfirmMessage(source, true, f.seqNo)).io)
       <==> SelectedIds(s.buf.events) <= Ids(f.body.carried)
  {
    hide NothingLost, Justified, ParseRequestHeader, EB.Confirm;
    ConfirmParses(source, true, f.seqNo);
    var got, gone := GotConfirm(true, f.seqNo), Removed(SelectedIds(s.buf.events));
    assert Handle(c, s, w, ConfirmMessage(source, true, f.seqNo)).io == [got] + [gone];
    NothingLostIff(io, got);
    NothingLostIff(io + [got], gone);
    assert io + ([got] + [gone]) == io + [got] + [gone];
    forall num ensures Justified(io + [got], num) <==> num in Ids(f.body.carried) { JustifiedByReport(io, at, f, num); }
  }

  /** A tick at which a new unsolicited response goes out. */
  predicate Reporting(c: Config, s: State, w: World) {
    Decide(s.u, c.pace, s.p.bodies != [], w.now).Report? && PollUnsolicited(c, s, w).io != []
  }

  /** That tick, and the confirmation of what it sent. */
  function ReportTurns(c: Config, s: State, w: World, source: nat): seq<Turn> {
    [Turn(w, UnsolicitedTick),
     Turn(w, Receive(ConfirmMessage(source, true, PollUnsolicited(c, s, w).s.u.seqNo)))]
  }

  lemma ReportIs(c: Config, s: State, w: World)
    requires ValidCodec(c.codec) && EB.Valid(s.buf) && Reporting(c, s, w)
    ensures var out := PollUnsolicited(c, s, w);
      && |out.io| == 1 && out.io[0].Sent? && out.io[0].f.uns && out.io[0].f.seqNo == out.s.u.seqNo == out.s.u.awaitSeq
      && out.s.u.awaiting && out.s.u.nullConfirmed && s.p.bodies == []
      && SelectedIds(out.s.buf.events) == SelectedIds(s.buf.events) + Ids(out.io[0].f.body.carried)
      && SelectedIds(s.buf.events) !! Ids(out.io[0].f.body.carried)
  {
    hide UF.FitCount, BuildEvents, CurrentIin, Done, EB.Taken, EB.Select, EB.Discard, EB.Release, ValidCodec, EB.Valid,
         HeldBack;
    TransmissionIsExact(c, s.(u := s.u.(firstEventAt := None)), w, ByClass(s.unsolClasses));
  }

  /** From any state, a new unsolicited response confirmed loses nothing if and only if nothing was
      selected when it was sent. */
  lemma ReportThenConfirmed(c: Config, s: State, w: World, source: nat, io: seq<Io>)
    requires ValidCodec(c.codec) && EB.Valid(s.buf) && Reporting(c, s, w) && NothingLost(io)
    ensures NothingLost(io + Serve(c, s, ReportTurns(c, s, w, source)).io) <==> SelectedIds(s.buf.events) == {}
  {
    hide ValidCodec, EB.Valid, NothingLost, PollUnsolicited, Handle, Serve, ConfirmMessage, Decide;
    var out := PollUnsolicited(c, s, w);
    ReportIs(c, s, w);
    var f := out.io[0].f;
    NothingLostIff(io, Sent(f));
    var io1 := io + [Sent(f)];
    ReportConfirmed(c, out.s, w, source, io1, |io|, f);
    NoneOf(SelectedIds(s.buf.events), Ids(f.body.carried));
    var turns := ReportTurns(c, s, w, source);
    var ack := Handle(c, out.s, w, ConfirmMessage(source, true, f.seqNo));
    assert turns == [turns[0]] + [turns[1]] && [turns[1]] + [] == [turns[1]];
    ServeCons(c, s, turns[0], [turns[1]]);
    ServeCons(c, out.s, turns[1], []);
    ServeNone(c, ack.s, []);
    assert out.io == [Sent(f)];
    assert io + (out.io + (ack.io + [])) == io1 + ack.io;
  }

  // ---------- The next response confirmed ----------

  /** The next response confirmed: a new read answered with events, or a new unsolicited report. */
  datatype Following = ByRead(r: Received, h: Header) | ByReport(source: nat)

  ghost predicate Able(c: Config, s: State, w: World, x: Following) {
    match x
    case ByRead(r, h) =>
      && AsksToRead(r, h) && r.content.EventRead? && !IsRepeat(s, r) && !s.u.awaiting && !w.busy
      && ReadBuilt(c, s, w, r).sent != []
    case ByReport(_) => ValidCodec(c.codec) && Reporting(c, s, w)
  }

  function LaterTurns(c: Config, s: State, w: World, x: Following): seq<Turn> {
    match x
    case ByRead(r, h) => AnsweredTurns(c, s, w, r, h.seqNo)
    case ByReport(source) => ReportTurns(c, s, w, source)
  }

  /** From any state, the next response confirmed loses nothing if and only if nothing is selected
      but for a response it abandons. */
  lemma LaterLoses(c: Config, s: State, w: World, x: Following, io: seq<Io>)
    requires Able(c, s, w, x) && NothingLost(io)
    requires EB.Valid(s.buf) && (s.p.bodies == [] ==> !s.p.awaiting)
    ensures NothingLost(io + Serve(c, s, LaterTurns(c, s, w, x)).io) <==> SelectedIds(AbandonResponse(s).buf.events) == {}
  {
    hide ValidCodec, EB.Valid, NothingLost, Serve, AnsweredTurns, ReportTurns, ReadBuilt, PollUnsolicited;
    match x
    case ByRead(r, h) => ReadThenConfirmed(c, s, w, r, h, io);
    case ByReport(source) => ReportThenConfirmed(c, s, w, source, io);
  }

  // ---------- A read sent to everyone ----------

  /** A read sent to everyone. */
  predicate BroadcastsRead(r: Received, h: Header) {
    ParseRequestHeader(r.frag) == Some(h) && h.fir && h.fin && !h.con && !h.uns && h.func == FUNC_READ
    && r.broadcast && r.content.EventRead?
  }

  /** It selects and is not answered. */
  lemma BroadcastReadIs(c: Config, s: State, w: World, r: Received, h: Header)
    requires BroadcastsRead(r, h) && !IsRepeat(s, r)
    ensures var out, s1 := Handle(c, s, w, r), AbandonResponse(Remember(s, r));
      && out.io == [Asked(r.source, r.frag), Executed(r.source, r.frag)]
      && out.s.buf == AfterSelecting(c, s1, w, r) && out.s.p == s1.p && out.s.u == s.u
  {
    hide SelectItems, BuildEvents, ApplyOps, Done, ParseRequestHeader, EB.Unselect, EB.Discard;
  }

  /** What it adds to the selection, and when that is anything: when one of the events it selects
      has an encoding that fits a fragment. */
  lemma BroadcastSelects(c: Config, s: State, w: World, r: Received, h: Header)
    requires BroadcastsRead(r, h) && !IsRepeat(s, r) && EB.Valid(s.buf)
    ensures var before, s1 := AbandonResponse(s).buf, Handle(c, s, w, r).s;
      var added := Ids(ReadBuilt(c, s, w, r).sent);
      && EB.Valid(s1.buf) && s1.p.bodies == [] && (s.p.bodies != [] || !s.p.awaiting ==> !s1.p.awaiting)
      && SelectedIds(s1.buf.events) == SelectedIds(before.events) + added && SelectedIds(before.events) !! added
      && (BroadcastRead(c, s, w, r) <==> !(added <= Reported(s)))
      && (added != {} <==> SomeFit(EnvOf(c, s, w), NewBuilder(c.maxTx).max, SelectItems(before, r.content.items).events))
  {
    hide Handle, SelectItems, BuildEvents, SomeFit, EB.Valid, AfterSelecting, ParseRequestHeader, EB.Unselect;
    var s0 := AbandonResponse(Remember(s, r));
    var sel := SelectItems(s0.buf, r.content.items).events;
    UnselectClears(s.buf);
    BroadcastReadIs(c, s, w, r, h);
    ReadSelects(c, s0, w, r);
    SameEnv(c, s, s0, w);
    SentIffSomeFit(EnvOf(c, s, w), NewBuilder(c.maxTx), sel);
    IdsEmpty(BuildEvents(EnvOf(c, s, w), NewBuilder(c.maxTx), sel).sent);
  }

  /** A broadcast read taken up with nothing selected. However the unsolicited exchange then stands,
      once the next response is confirmed an event has been lost if and only if one that the
      broadcast read selects has an encoding that fits a fragment. */
  lemma BroadcastReadLoses(
    c: Config, s: State, w: World, r: Received, h: Header, u: Unsol<Body>, io: seq<Io>, w': World, x: Following)
    requires BroadcastsRead(r, h) && !IsRepeat(s, r) && NothingLost(io)
    requires EB.Valid(s.buf) && (s.p.bodies == [] ==> !s.p.awaiting) && SelectedIds(AbandonResponse(s).buf.events) == {}
    requires Able(c, Handle(c, s, w, r).s.(u := u), w', x)
    ensures var s1 := Handle(c, s, w, r).s.(u := u);
      && (NothingLost(io + Serve(c, s1, LaterTurns(c, s1, w', x)).io) <==>
            !SomeFit(EnvOf(c, s, w), NewBuilder(c.maxTx).max, SelectItems(AbandonResponse(s).buf, r.content.items).events))
      && (!UnsEvents(s) ==>
            (NothingLost(io + Serve(c, s1, LaterTurns(c, s1, w', x)).io) <==> !BroadcastRead(c, s, w, r)))
  {
    hide Handle, Serve, NothingLost, LaterTurns, Able, SelectItems, SomeFit, EB.Valid, ReadBuilt, ValidCodec,
         BroadcastRead;
    var s1 := Handle(c, s, w, r).s.(u := u);
    BroadcastSelects(c, s, w, r, h);
    LaterLoses(c, s1, w', x, io);
  }

  /** A broadcast read while an unsolicited response awaits its confirmation, which is not held
      back: once that comes, an event has been lost if and only if the read selected one that the
      response does not carry. */
  lemma BroadcastWhileAwaitingLoses(
    c: Config, s: State, w: World, r: Received, h: Header, io: seq<Io>, m: Marks, w': World, source: nat)
    requires Safe(s, io, m) && s.u.awaiting && s.u.nullConfirmed && BroadcastsRead(r, h) && !IsRepeat(s, r)
    ensures var turns := [Turn(w, Receive(r)), Turn(w', Receive(ConfirmMessage(source, true, s.u.seqNo)))];
      NothingLost(io + Serve(c, s, turns).io) <==> !BroadcastRead(c, s, w, r)
  {
    hide Handle, Serve, NothingLost, SelectItems, SomeFit, EB.Valid, ReadBuilt, BroadcastRead, ConfirmMessage,
         LastShape, Paced,
         ParseRequestHeader;
    var out := Handle(c, s, w, r);
    BroadcastSelects(c, s, w, r, h);
    BroadcastReadIs(c, s, w, r, h);
    NothingAbandoned(s, io, m);
    var asked, ran := Asked(r.source, r.frag), Executed(r.source, r.frag);
    NothingLostIff(io, asked);
    NothingLostIff(io + [asked], ran);
    var io1, f := io + [asked] + [ran], io[m.unsAt].f;
    assert AwaitsReport(out.s, io1, m.unsAt, f);
    ReportConfirmed(c, out.s, w', source, io1, m.unsAt, f);
    var turns := [Turn(w, Receive(r)), Turn(w', Receive(ConfirmMessage(source, true, s.u.seqNo)))];
    var ack := Handle(c, out.s, w', ConfirmMessage(source, true, f.seqNo));
    assert turns == [turns[0]] + [turns[1]] && [turns[1]] + [] == [turns[1]];
    ServeCons(c, s, turns[0], [turns[1]]);
    ServeCons(c, out.s, turns[1], []);
    ServeNone(c, ack.s, []);
    assert io + ([asked, ran] + (ack.io + [])) == io1 + ack.io;
  }

  lemma NothingAbandoned(s: State, io: seq<Io>, m: Marks)
    requires Safe(s, io, m) && s.u.awaiting
    ensures AbandonResponse(s).buf == s.buf
  {
  }

  lemma IdsEmpty(es: seq<Event>)
    ensures Ids(es) == {} <==> es == []
  {
    if es != [] { assert es[0].num in Ids(es); }
  }

  // ---------- A request that does not parse ----------

  /** It takes the place of the response in progress and hands nothing back. */
  lemma MalformedIs(c: Config, s: State, w: World, r: Received, h: Header)
    requires AnsweredMalformed(r, h) && !(s.u.awaiting && h.func == FUNC_READ)
    ensures var out := Handle(c, s, w, r);
      && (forall x :: x in out.io ==> x.Sent?) && |out.io| <= 1
      && out.s.buf == s.buf && out.s.u == s.u && out.s.last.frag == s.last.frag
      && !SolEvents(out.s) && (out.s.p.bodies == [] ==> !out.s.p.awaiting)
  {
    hide CurrentIin, ParseRequestHeader, NoReply;
  }

  /** A malformed request answered in any state reached without loss. However the unsolicited
      exchange then stands, once the next response is confirmed an event has been lost if and only
      if one was selected when the request arrived: unless an unsolicited response has events in
      hand, if and only if a response in progress had events selected. */
  lemma MalformedRequestLoses(
    c: Config, s: State, w: World, r: Received, h: Header, io: seq<Io>, m: Marks, u: Unsol<Body>, io': seq<Io>,
    w': World, x: Following)
    requires Safe(s, io, m) && NothingLost(io')
    requires AnsweredMalformed(r, h) && !(s.u.awaiting && h.func == FUNC_READ)
    requires Able(c, Handle(c, s, w, r).s.(u := u), w', x)
    ensures var s1 := Handle(c, s, w, r).s.(u := u);
      && (NothingLost(io' + Serve(c, s1, LaterTurns(c, s1, w', x)).io) <==> SelectedIds(s.buf.events) == {})
      && (!UnsEvents(s) ==> (SelectedIds(s.buf.events) == {} <==> !MalformedOver(s, r)))
  {
    hide Handle, Serve, NothingLost, LaterTurns, Able, EB.Valid, ParseRequestHeader, EB.Unselect, ValidCodec, Marked,
         UnsolShape,
         LastShape, Carried;
    var s1 := Handle(c, s, w, r).s.(u := u);
    MalformedIs(c, s, w, r, h);
    assert AbandonResponse(s1).buf == s.buf;
    LaterLoses(c, s1, w', x, io');
  }

  // ---------- Runs in which an event is lost ----------

  /** An event any codec and any fragment of ten octets has room for. */
  predicate Small(e: Event) {
    e.kind == Dataset && Bytes(e.value) == []
  }

  ghost predicate AllSmall(es: seq<Event>) {
    forall i :: 0 <= i < |es| ==> Small(es[i])
  }

  function SmallEvent(cls: EventClass): Event {
    Event(Dataset, 0, {cls}, 1, NoTime, Octets([]), false, 0)
  }

  predicate Roomy(c: Config) {
    c.maxTx <= 0 || c.maxTx >= 10
  }

  lemma SmallFits(env: Env, max: nat, events: seq<Event>)
    requires events != [] && Small(events[0]) && max >= 10
    ensures SomeFit(env, max, events)
  {
  }

  lemma {:induction false} TakenSome(es: seq<Event>, q: Query, limit: int, i: nat)
    requires i < |es| && EB.Eligible(q, es[i]) && limit >= 1
    ensures EB.Taken(es, q, limit) != []
  {
    if i < |es| - 1 { TakenSome(es[..|es| - 1], q, limit, i); }
  }

  lemma {:induction false} TakenSmall(es: seq<Event>, q: Query, limit: int)
    requires AllSmall(es)
    ensures AllSmall(EB.Taken(es, q, limit))
  {
    if es != [] { TakenSmall(es[..|es| - 1], q, limit); }
  }

  function ReadOf(source: nat, seqNo: SeqNum, cls: EventClass, broadcast: bool): Received {
    Received(source, broadcast, false, [0xC0 + seqNo, FUNC_READ],
             EventRead([ReadItem(ByClass({cls}), UNSOLICITED_LIMIT, None)], [], {}))
  }

  lemma ReadParses(source: nat, seqNo: SeqNum, cls: EventClass, broadcast: bool)
    ensures ParseRequestHeader(ReadOf(source, seqNo, cls, broadcast).frag)
         == Some(Header(true, true, false, false, seqNo, FUNC_READ))
  {
  }

  /** Waiting in the buffer: unselected, of the class, and small. */
  ghost predicate Waits(b: EB.Buffer, cls: EventClass) {
    AllSmall(b.events) && exists i :: 0 <= i < |b.events| && !b.events[i].selected && b.events[i].classes == {cls}
  }

  lemma WaitingTaken(b: EB.Buffer, cls: EventClass)
    requires Waits(b, cls)
    ensures var taken := EB.Taken(b.events, ByClass({cls}), UNSOLICITED_LIMIT); taken != [] && AllSmall(taken)
  {
    hide EB.Taken;
    var i :| 0 <= i < |b.events| && !b.events[i].selected && b.events[i].classes == {cls};
    assert {cls} * {cls} == {cls};
    TakenSome(b.events, ByClass({cls}), UNSOLICITED_LIMIT, i);
    TakenSmall(b.events, ByClass({cls}), UNSOLICITED_LIMIT);
  }

  lemma ReadOfSelects(b: EB.Buffer, r: Received, cls: EventClass)
    requires Waits(b, cls) && r.content == ReadOf(0, 0, cls, false).content
    ensures var sel := SelectItems(b, r.content.items);
      && sel.buf == EB.Select(b, ByClass({cls}), UNSOLICITED_LIMIT)
      && sel.events == EB.Taken(b.events, ByClass({cls}), UNSOLICITED_LIMIT)
      && sel.events != [] && AllSmall(sel.events)
  {
    hide EB.Taken, EB.Select, AllSmall;
    var items := r.content.items;
    assert items[..0] == [];
    assert SelectItems(b, items[..0]) == Selected(b, []);
    WaitingTaken(b, cls);
  }

  /** A read of the class is answered with events. */
  lemma WaitingSent(c: Config, s: State, w: World, r: Received, cls: EventClass)
    requires Roomy(c) && Waits(AbandonResponse(s).buf, cls) && r.content == ReadOf(0, 0, cls, false).content
    ensures ReadBuilt(c, s, w, r).sent != []
    ensures SomeFit(EnvOf(c, s, w), NewBuilder(c.maxTx).max, SelectItems(AbandonResponse(s).buf, r.content.items).events)
  {
    hide BuildEvents, SelectItems, SomeFit, EB.Taken, EB.Select, Waits;
    ReadOfSelects(AbandonResponse(s).buf, r, cls);
    var sel := SelectItems(AbandonResponse(s).buf, r.content.items).events;
    SmallFits(EnvOf(c, s, w), NewBuilder(c.maxTx).max, sel);
    SentIffSomeFit(EnvOf(c, s, w), NewBuilder(c.maxTx), sel);
  }

  /** Selecting one class, and giving up or releasing any of those selected, leaves another. */
  lemma OthersWait(b: EB.Buffer, cls: EventClass, other: EventClass, limit: int)
    requires Waits(b, other) && cls != other
    ensures Waits(EB.Select(b, ByClass({cls}), limit), other)
  {
    hide EB.Marked;
    EB.MarkedShape(b.events, ByClass({cls}), limit);
    var i :| 0 <= i < |b.events| && !b.events[i].selected && b.events[i].classes == {other};
    assert {other} * {cls} == {};
    assert EB.Marked(b.events, ByClass({cls}), limit)[i] == b.events[i];
  }

  lemma DiscardWait(b: EB.Buffer, gone: seq<Event>, cls: EventClass)
    requires Waits(b, cls)
    ensures Waits(EB.Discard(b, gone), cls)
  {
    hide EB.Without, Small;
    EB.WithoutShape(b.events, Ids(gone));
    var i :| 0 <= i < |b.events| && !b.events[i].selected && b.events[i].classes == {cls};
    var kept := EB.Without(b.events, Ids(gone));
    assert b.events[i] in kept;
    var j :| 0 <= j < |kept| && kept[j] == b.events[i];
    forall k | 0 <= k < |kept| ensures Small(kept[k]) {
      assert kept[k] in kept;
      var l :| 0 <= l < |b.events| && b.events[l] == kept[k];
    }
  }

  lemma ReleaseWait(b: EB.Buffer, events: seq<Event>, cls: EventClass)
    requires Waits(b, cls)
    ensures Waits(EB.Release(b, events), cls)
  {
    var i :| 0 <= i < |b.events| && !b.events[i].selected && b.events[i].classes == {cls};
    var freed := EB.Release(b, events).events;
    assert !freed[i].selected && freed[i].classes == {cls};
  }

  lemma SelectingWait(c: Config, s: State, w: World, r: Received, cls: EventClass, other: EventClass)
    requires Waits(s.buf, cls) && Waits(s.buf, other) && cls != other && r.content == ReadOf(0, 0, cls, false).content
    ensures Waits(AfterSelecting(c, s, w, r), other)
  {
    hide Waits, BuildEvents, EB.Discard, EB.Select, EB.Taken, SelectItems;
    ReadOfSelects(s.buf, r, cls);
    OthersWait(s.buf, cls, other, UNSOLICITED_LIMIT);
    var built := BuildEvents(EnvOf(c, s, w), NewBuilder(c.maxTx), SelectItems(s.buf, r.content.items).events);
    DiscardWait(EB.Select(s.buf, ByClass({cls}), UNSOLICITED_LIMIT), built.unsent, other);
  }

  /** Two events of different classes, added to an empty buffer. */
  lemma TwoWait(one: EventClass, two: EventClass)
    requires one != two
    ensures var b := Raise(EB.Empty(2), [SmallEvent(one), SmallEvent(two)]);
      EB.Valid(b) && SelectedIds(b.events) == {} && Waits(b, one) && Waits(b, two)
  {
    var events := [SmallEvent(one), SmallEvent(two)];
    assert events[..1] == [SmallEvent(one)] && events[..1][..0] == [];
    assert Raise(EB.Empty(2), []) == EB.Empty(2);
    assert Raise(EB.Empty(2), events[..1]) == EB.Add(EB.Empty(2), SmallEvent(one));
    var b := Raise(EB.Empty(2), events);
    assert b == EB.Add(EB.Add(EB.Empty(2), SmallEvent(one)), SmallEvent(two));
    assert b.events == [SmallEvent(one).(num := 1), SmallEvent(two).(num := 2)];
    assert !b.events[0].selected && b.events[0].classes == {one};
    assert !b.events[1].selected && b.events[1].classes == {two};
  }

  lemma {:induction false} ServeConcat(c: Config, s: State, a: seq<Turn>, b: seq<Turn>)
    ensures var first := Serve(c, s, a);
      var more := Serve(c, first.s, b);
      Serve(c, s, a + b) == Out(more.s, first.io + more.io)
    decreases |b|
  {
    hide Do;
    if b == [] {
      assert a + b == a;
      assert Serve(c, s, a).io + [] == Serve(c, s, a).io;
    } else {
      ServeConcat(c, s, a, b[..|b| - 1]);
      assert (a + b)[..|a + b| - 1] == a + b[..|b| - 1];
      var first := Serve(c, s, a);
      var most := Serve(c, first.s, b[..|b| - 1]);
      var t := b[|b| - 1];
      assert first.io + (most.io + Do(c, most.s, t.w, t.step).io) == first.io + most.io + Do(c, most.s, t.w, t.step).io;
    }
  }

  const QUIET := World(0, 0, false)

  /** A connection with one event of each of two classes waiting. */
  lemma TwoRaised(c: Config, classes: set<EventClass>)
    ensures var start := Connected(EB.Empty(2), {}, classes);
      Serve(c, start, [Turn(QUIET, Update([SmallEvent(Class1), SmallEvent(Class2)]))])
      == Out(start.(buf := Raise(EB.Empty(2), [SmallEvent(Class1), SmallEvent(Class2)])), [])
  {
    hide Raise;
    var start := Connected(EB.Empty(2), {}, classes);
    var t := Turn(QUIET, Update([SmallEvent(Class1), SmallEvent(Class2)]));
    ServeCons(c, start, t, []);
    assert [t] + [] == [t];
    ServeNone(c, Do(c, start, t.w, t.step).s, []);
  }

  /** A run of any outstation in which a broadcast read loses an event. */
  lemma BroadcastReadLosesOne(c: Config) returns (turns: seq<Turn>)
    requires Roomy(c)
    ensures !NothingLost(Serve(c, Connected(EB.Empty(2), {}, {}), turns).io)
  {
    hide Serve, NothingLost, Handle, SomeFit, Waits, EB.Valid, Raise, AnsweredTurns, AfterSelecting, ReadBuilt,
         SelectItems, BuildEvents;
    var start := Connected(EB.Empty(2), {}, {});
    var raise := [Turn(QUIET, Update([SmallEvent(Class1), SmallEvent(Class2)]))];
    var s := Serve(c, start, raise).s;
    TwoRaised(c, {});
    TwoWait(Class1, Class2);
    var r, next := ReadOf(1, 0, Class1, true), ReadOf(1, 1, Class2, false);
    ReadParses(1, 0, Class1, true);
    ReadParses(1, 1, Class2, false);
    var h, hn := Header(true, true, false, false, 0, FUNC_READ), Header(true, true, false, false, 1, FUNC_READ);
    BroadcastReadIs(c, s, QUIET, r, h);
    var s1 := Handle(c, s, QUIET, r).s;
    SelectingWait(c, AbandonResponse(Remember(s, r)), QUIET, r, Class1, Class2);
    WaitingSent(c, s, QUIET, r, Class1);
    WaitingSent(c, s1, QUIET, next, Class2);
    NotARepeat(c, s, QUIET, r, next);
    var io := Handle(c, s, QUIET, r).io;
    NothingRemoved(io);
    BroadcastReadLoses(c, s, QUIET, r, h, s1.u, io, QUIET, ByRead(next, hn));
    var later := AnsweredTurns(c, s1, QUIET, next, 1);
    ServeCons(c, s, Turn(QUIET, Receive(r)), later);
    ServeConcat(c, start, raise, [Turn(QUIET, Receive(r))] + later);
    turns := raise + ([Turn(QUIET, Receive(r))] + later);
    assert Serve(c, start, turns).io == io + Serve(c, s1, later).io;
  }

  /** A request handled before another does not make that one a repeat. */
  lemma NotARepeat(c: Config, s: State, w: World, r: Received, next: Received)
    requires r.frag != next.frag && ParseRequestHeader(r.frag).Some? && !r.content.Malformed? && !s.u.awaiting
    requires var h := ParseRequestHeader(r.frag).value; h.fir && h.fin && !h.con && !h.uns && h.func == FUNC_READ
    ensures !IsRepeat(Handle(c, s, w, r).s, next)
  {
    hide Execute, ReplayResponse, ParseRequestHeader, RejectMalformed, OnUnsolicitedConfirm, Outstation.OnConfirm;
    var h := ParseRequestHeader(r.frag).value;
    ExecuteQuiet(c, s, w, r, h);
    ReplayKeepsLast(c, s, w, r, h.seqNo);
  }

  lemma ReplayKeepsLast(c: Config, s: State, w: World, r: Received, seqNo: SeqNum)
    ensures ReplayResponse(c, s, w, r, seqNo).s.last.frag == s.last.frag
  {
    hide SendFragments;
    SendQuiet(c, s.(p := s.p.(awaiting := false, bodies := [], index := 0), iin := s.iin + s.last.errors), w, r, seqNo,
              s.last.bodies, s.last.hasEvents);
  }

  /** A new read answered with events: what is selected, and what is still waiting. */
  lemma ReadTakesUp(c: Config, s: State, w: World, r: Received, h: Header, cls: EventClass, other: EventClass)
    requires AsksToRead(r, h) && !IsRepeat(s, r) && !s.u.awaiting && !w.busy && Roomy(c) && s.p.bodies == []
    requires !s.p.awaiting
    requires EB.Valid(s.buf) && Waits(s.buf, cls) && Waits(s.buf, other) && cls != other
    requires r.content == ReadOf(0, 0, cls, false).content
    ensures var out := Handle(c, s, w, r);
      && EB.Valid(out.s.buf) && SelectedIds(out.s.buf.events) != {} && Waits(out.s.buf, other)
      && out.s.u == s.u && out.s.last.frag == r.frag && (forall x :: x in out.io ==> !x.Removed?)
  {
    hide SendFragments, SelectItems, BuildEvents, ApplyOps, Done, ParseRequestHeader, EB.Valid, Handle, Waits,
         AfterSelecting, SomeFit;
    var s1 := AbandonResponse(Remember(s, r));
    ReadIs(c, s, w, r, h);
    WaitingSent(c, s, w, r, cls);
    ReadSelects(c, s1, w, r);
    SelectingWait(c, s1, w, r, cls, other);
    IdsEmpty(ReadBuilt(c, s, w, r).sent);
    BuiltFromNothing(EnvOf(c, s, w), c.maxTx, SelectItems(s.buf, r.content.items).events);
    var bodies := Done(ApplyOps(ReadBuilt(c, s, w, r).b, r.content.later));
    var s2 := s1.(buf := AfterSelecting(c, s1, w, r), iin := s1.iin + r.content.errors);
    FirstSent(c, s2, w, r, h.seqNo, bodies);
    SendQuiet(c, s2, w, r, h.seqNo, bodies, true);
  }

  lemma {:induction false} NothingRemoved(io: seq<Io>)
    requires forall x :: x in io ==> !x.Removed?
    ensures NothingLost(io)
  {
    hide Justified;
    assert forall k :: 0 <= k < |io| ==> io[k] in io;
  }

  /** A malformed request with something selected, and then a read of something else. */
  lemma MalformedThenRead(c: Config, s: State, bad: Received, hb: Header, next: Received, hn: Header, io: seq<Io>)
    requires Roomy(c) && AnsweredMalformed(bad, hb) && !s.u.awaiting && EB.Valid(s.buf)
    requires SelectedIds(s.buf.events) != {}
    requires AsksToRead(next, hn) && next.frag != s.last.frag && Waits(s.buf, Class2)
    requires next.content == ReadOf(0, 0, Class2, false).content && forall x :: x in io ==> !x.Removed?
    ensures var refused := Handle(c, s, QUIET, bad).s;
      var turns := [Turn(QUIET, Receive(bad))] + AnsweredTurns(c, refused, QUIET, next, hn.seqNo);
      !NothingLost(io + Serve(c, s, turns).io)
  {
    hide Serve, NothingLost, Handle, Waits, EB.Valid, AnsweredTurns, ReadBuilt, SomeFit, SelectItems, AnsweredMalformed,
         ParseRequestHeader;
    var refused := Handle(c, s, QUIET, bad);
    MalformedIs(c, s, QUIET, bad, hb);
    assert AbandonResponse(refused.s).buf == s.buf;
    WaitingSent(c, refused.s, QUIET, next, Class2);
    NothingRemoved(io + refused.io);
    LaterLoses(c, refused.s, QUIET, ByRead(next, hn), io + refused.io);
    var rest := AnsweredTurns(c, refused.s, QUIET, next, hn.seqNo);
    ServeCons(c, s, Turn(QUIET, Receive(bad)), rest);
    var last := Serve(c, refused.s, rest).io;
    assert io + (refused.io + last) == io + refused.io + last;
  }

  /** A run of any outstation in which a request that does not parse loses an event. */
  lemma MalformedRequestLosesOne(c: Config) returns (turns: seq<Turn>)
    requires Roomy(c)
    ensures !NothingLost(Serve(c, Connected(EB.Empty(2), {}, {}), turns).io)
  {
    hide Serve, NothingLost, Handle, Waits, EB.Valid, Raise, AnsweredTurns, ReadBuilt, SomeFit, SelectItems;
    var start := Connected(EB.Empty(2), {}, {});
    var raise := [Turn(QUIET, Update([SmallEvent(Class1), SmallEvent(Class2)]))];
    var s := Serve(c, start, raise).s;
    TwoRaised(c, {});
    TwoWait(Class1, Class2);
    var first, next := ReadOf(1, 0, Class1, false), ReadOf(1, 2, Class2, false);
    var bad := Received(1, false, false, [0xC1, FUNC_READ], Malformed(ParameterError));
    ReadParses(1, 0, Class1, false);
    ReadParses(1, 1, Class1, false);
    ReadParses(1, 2, Class2, false);
    var h, hb, hn := Header(true, true, false, false, 0, FUNC_READ), Header(true, true, false, false, 1, FUNC_READ),
                     Header(true, true, false, false, 2, FUNC_READ);
    ReadTakesUp(c, s, QUIET, first, h, Class1, Class2);
    var mid := Handle(c, s, QUIET, first);
    assert first.frag[0] != next.frag[0];
    MalformedThenRead(c, mid.s, bad, hb, next, hn, mid.io);
    var later := [Turn(QUIET, Receive(bad))] + AnsweredTurns(c, Handle(c, mid.s, QUIET, bad).s, QUIET, next, 2);
    ServeCons(c, s, Turn(QUIET, Receive(first)), later);
    ServeConcat(c, start, raise, [Turn(QUIET, Receive(first))] + later);
    turns := raise + ([Turn(QUIET, Receive(first))] + later);
    assert Serve(c, start, turns).io == mid.io + Serve(c, mid.s, later).io;
  }

  // ---------- ... and one for the gap ----------

  /** An outstation that reports what is queued at once and repeats what goes unconfirmed. */
  predicate Reports(c: Config) {
    c.pace.enabled && c.pace.holdTime <= 0 && c.pace.maxRetries >= 1
  }

  /** It announces itself and the master confirms. */
  lemma Announced(c: Config, s: State)
    requires Reports(c) && s.u == Reset() && s.p.bodies == [] && s.deferred.None?
    ensures var first := PollUnsolicited(c, s, QUIET).s;
      var s' := Handle(c, first, QUIET, ConfirmMessage(1, true, 1)).s;
      && s'.buf == s.buf && s'.p == s.p && s'.last == s.last && s'.deferred.None? && s'.unsolClasses == s.unsolClasses
      && s'.u.nullConfirmed && !s'.u.awaiting && s'.u.kept.None? && s'.u.retries == 0 && s'.u.nextAllowed.None?
  {
    hide ParseRequestHeader, CurrentIin, EB.Confirm;
    ConfirmParses(1, true, 1);
  }

  /** It reports the event of one class. */
  lemma ReportedOne(c: Config, s: State)
    requires Reports(c) && ValidCodec(c.codec) && Roomy(c) && s.p.bodies == [] && s.deferred.None?
    requires s.unsolClasses == {Class1}
    requires s.u.nullConfirmed && !s.u.awaiting && s.u.kept.None? && s.u.retries == 0 && s.u.nextAllowed.None?
    requires EB.Valid(s.buf) && SelectedIds(s.buf.events) == {} && Waits(s.buf, Class1) && Waits(s.buf, Class2)
    ensures var s' := PollUnsolicited(c, s, QUIET).s;
      && s'.u.kept.Some? && s'.u.nullConfirmed && s'.u.awaiting && s'.u.retries == 0 && s'.u.deadline == c.pace.confirmTimeout
      && s'.p == s.p && s'.last == s.last && s'.deferred.None?
      && SelectedIds(s'.buf.events) == Ids(s'.u.kept.value.carried) != {} && Waits(s'.buf, Class2)
  {
    hide Waits, EB.Valid, BuildEvents, UF.FitCount, EB.Taken, EB.Select, EB.Discard, EB.Release, Done, CurrentIin,
         ValidCodec, SomeFit;
    var q := ByClass({Class1});
    var events, env := EB.Taken(s.buf.events, q, UNSOLICITED_LIMIT), EnvOf(c, s, QUIET);
    WaitingTaken(s.buf, Class1);
    SomeQueued(s.buf, Class1);
    var fit := UF.FitCount(env, c.maxTx, events);
    TransmissionIsExact(c, s.(u := s.u.(firstEventAt := None)), QUIET, q);
    SmallFits(env, NewBuilder(c.maxTx).max, events[..fit]);
    SentIffSomeFit(env, NewBuilder(c.maxTx), events[..fit]);
    IdsEmpty(BuildEvents(env, NewBuilder(c.maxTx), events[..fit]).sent);
    OthersWait(s.buf, Class1, Class2, UNSOLICITED_LIMIT);
    ReleaseWait(EB.Select(s.buf, q, UNSOLICITED_LIMIT), events[fit..], Class2);
    DiscardWait(EB.Release(EB.Select(s.buf, q, UNSOLICITED_LIMIT), events[fit..]),
                BuildEvents(env, NewBuilder(c.maxTx), events[..fit]).unsent, Class2);
  }

  lemma SomeQueued(b: EB.Buffer, cls: EventClass)
    requires Waits(b, cls)
    ensures (set i | 0 <= i < |b.events| && b.events[i].classes * {cls} != {}) != {}
  {
    hide Small;
    var k :| 0 <= k < |b.events| && !b.events[k].selected && b.events[k].classes == {cls};
    assert b.events[k].classes * {cls} == {cls};
    var queued := set i | 0 <= i < |b.events| && b.events[i].classes * {cls} != {};
    assert k in queued;
  }

  /** The confirmation does not come in time. */
  lemma TimedOut(c: Config, s: State)
    requires Reports(c) && s.u.kept.Some? && s.u.nullConfirmed && s.u.awaiting && s.u.retries == 0
    requires s.u.deadline == c.pace.confirmTimeout && s.deferred.None?
    ensures var s' := PollUnsolicited(c, s, QUIET.(now := c.pace.confirmTimeout)).s;
      UnsEvents(s') && !s'.u.awaiting && s'.p == s.p && s'.last == s.last && s'.buf == s.buf
  {
    hide ReportEvents, SendNullUnsolicited, CurrentIin, EB.Unselect;
  }

  /** The turns up to an event being reported, */
  function ToTheReport(): seq<Turn> {
    [Turn(QUIET, Update([SmallEvent(Class1), SmallEvent(Class2)])), Turn(QUIET, UnsolicitedTick),
     Turn(QUIET, Receive(ConfirmMessage(1, true, 1))), Turn(QUIET, UnsolicitedTick)]
  }

  /** ... and up to the gap. */
  function ToTheGap(c: Config): seq<Turn> {
    ToTheReport() + [Turn(QUIET.(now := c.pace.confirmTimeout), UnsolicitedTick)]
  }

  lemma ReachesTheReport(c: Config)
    requires Reports(c) && ValidCodec(c.codec) && Roomy(c)
    ensures var s' := Serve(c, Connected(EB.Empty(2), {}, {Class1}), ToTheReport()).s;
      && UnsEvents(s') && s'.u.awaiting && s'.u.retries == 0 && s'.u.deadline == c.pace.confirmTimeout && s'.deferred.None?
      && s'.p.bodies == [] && !s'.p.awaiting && !s'.last.valid
      && SelectedIds(s'.buf.events) == Ids(s'.u.kept.value.carried) != {} && Waits(s'.buf, Class2)
  {
    hide Serve, Waits, EB.Valid, Raise, PollUnsolicited, Handle, ValidCodec;
    var start := Connected(EB.Empty(2), {}, {Class1});
    var ts := ToTheReport();
    TwoRaised(c, {Class1});
    TwoWait(Class1, Class2);
    assert ts[..1] == [Turn(QUIET, Update([SmallEvent(Class1), SmallEvent(Class2)]))];
    var s0 := Serve(c, start, ts[..1]).s;
    assert ts == ts[..1] + ts[1..];
    ServeConcat(c, start, ts[..1], ts[1..]);
    Announced(c, s0);
    ServeThree(c, s0, ts[1..]);
    ReportedOne(c, Handle(c, PollUnsolicited(c, s0, QUIET).s, QUIET, ConfirmMessage(1, true, 1)).s);
  }

  lemma ReachesTheGap(c: Config)
    requires Reports(c) && ValidCodec(c.codec) && Roomy(c)
    ensures var s' := Serve(c, Connected(EB.Empty(2), {}, {Class1}), ToTheGap(c)).s;
      && UnsEvents(s') && !s'.u.awaiting && s'.p.bodies == [] && !s'.p.awaiting && !s'.last.valid
      && SelectedIds(s'.buf.events) != {} && Waits(s'.buf, Class2)
  {
    hide Serve, Waits, PollUnsolicited, ValidCodec;
    var start, t := Connected(EB.Empty(2), {}, {Class1}), Turn(QUIET.(now := c.pace.confirmTimeout), UnsolicitedTick);
    var s := Serve(c, start, ToTheReport()).s;
    ReachesTheReport(c);
    TimedOut(c, s);
    ServeConcat(c, start, ToTheReport(), [t]);
    assert [t] + [] == [t];
    ServeCons(c, s, t, []);
    ServeNone(c, Do(c, s, t.w, t.step).s, []);
  }

  lemma ServeThree(c: Config, s: State, ts: seq<Turn>)
    requires |ts| == 3
    ensures var s1 := Do(c, s, ts[0].w, ts[0].step).s;
      var s2 := Do(c, s1, ts[1].w, ts[1].step).s;
      Serve(c, s, ts).s == Do(c, s2, ts[2].w, ts[2].step).s
  {
    hide Do, Serve;
    var s1 := Do(c, s, ts[0].w, ts[0].step).s;
    var s2 := Do(c, s1, ts[1].w, ts[1].step).s;
    assert ts == [ts[0]] + ts[1..] && ts[1..] == [ts[1]] + ts[2..] && ts[2..] == [ts[2]] + [];
    ServeCons(c, s, ts[0], ts[1..]);
    ServeCons(c, s1, ts[1], ts[2..]);
    ServeCons(c, s2, ts[2], []);
    ServeNone(c, Do(c, s2, ts[2].w, ts[2].step).s, []);
  }

  /** A run of any reporting outstation in which the confirmation of a report removes an event that
      only a broadcast read selected. */
  lemma BroadcastWhileAwaitingLosesOne(c: Config) returns (turns: seq<Turn>)
    requires Reports(c) && ValidCodec(c.codec) && Roomy(c)
    ensures !NothingLost(Serve(c, Connected(EB.Empty(2), {}, {Class1}), turns).io)
  {
    hide Serve, NothingLost, Handle, Waits, EB.Valid, ReadBuilt, SomeFit, ValidCodec, Safe, SelectItems, ConfirmMessage;
    var start := Connected(EB.Empty(2), {}, {Class1});
    var before := Serve(c, start, ToTheReport());
    ReachesTheReport(c);
    EmptySafe();
    ReportInScope(c, start);
    var m := ServeKeeps(c, start, ToTheReport(), Marks([], [], 0));
    SafeSelection(before.s, before.io, m);
    var r, h := ReadOf(1, 0, Class2, true), Header(true, true, false, false, 0, FUNC_READ);
    ReadParses(1, 0, Class2, true);
    NothingAbandoned(before.s, before.io, m);
    WaitingSent(c, before.s, QUIET, r, Class2);
    BroadcastSelects(c, before.s, QUIET, r, h);
    IdsEmpty(ReadBuilt(c, before.s, QUIET, r).sent);
    OnlyNone(Ids(ReadBuilt(c, before.s, QUIET, r).sent), SelectedIds(before.s.buf.events));
    BroadcastWhileAwaitingLoses(c, before.s, QUIET, r, h, before.io, m, QUIET, 1);
    var later := [Turn(QUIET, Receive(r)), Turn(QUIET, Receive(ConfirmMessage(1, true, before.s.u.seqNo)))];
    ServeConcat(c, start, ToTheReport(), later);
    turns := ToTheReport() + later;
  }

  lemma OnlyNone(a: set<nat>, b: set<nat>)
    requires a !! b
    ensures a <= b <==> a == {}
  {
    if a <= b { assert forall x :: x in a ==> x in b; }
  }

  /** A run of any reporting outstation in which a read in the gap loses an event. */
  lemma GapReadLosesOne(c: Config) returns (turns: seq<Turn>)
    requires Reports(c) && ValidCodec(c.codec) && Roomy(c)
    ensures !NothingLost(Serve(c, Connected(EB.Empty(2), {}, {Class1}), turns).io)
  {
    hide Serve, NothingLost, Handle, Waits, EB.Valid, AnsweredTurns, ReadBuilt, SomeFit, ValidCodec, Safe;
    var start := Connected(EB.Empty(2), {}, {Class1});
    var ts := ToTheGap(c);
    var before := Serve(c, start, ts);
    ReachesTheGap(c);
    EmptySafe();
    GapInScope(c, start);
    var m := ServeKeeps(c, start, ts, Marks([], [], 0));
    var r := ReadOf(1, 0, Class2, false);
    ReadParses(1, 0, Class2, false);
    var h := Header(true, true, false, false, 0, FUNC_READ);
    WaitingSent(c, before.s, QUIET, r, Class2);
    GapReadLoses(c, before.s, QUIET, r, h, before.io, m);
    var later := AnsweredTurns(c, before.s, QUIET, r, 0);
    ServeConcat(c, start, ts, later);
    turns := ts + later;
  }

  lemma EmptySafe()
    ensures Safe(Connected(EB.Empty(2), {}, {Class1}), [], Marks([], [], 0))
  {
    hide Safe;
    ConnectedSafe(EB.Empty(2), {}, {Class1});
  }

  lemma ReportInScope(c: Config, start: State)
    ensures RunInScope(c, start, ToTheReport())
  {
    hide Serve, ParseRequestHeader, AnswersEvents;
    ConfirmParses(1, true, 1);
  }

  lemma GapInScope(c: Config, start: State)
    ensures RunInScope(c, start, ToTheGap(c))
  {
    hide Serve, ParseRequestHeader, AnswersEvents;
    ConfirmParses(1, true, 1);
  }
}
