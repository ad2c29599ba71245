/** No event leaves the buffer by confirmation unless the master confirmed every fragment of a
    response, or the unsolicited response, that carried it. */
module OutstationSafety {
  import opened Protocol
  import opened Events
  import opened ObjectTable
  import opened EventFragments
  import opened EventMeaning
  import opened Unsolicited
  import opened Outstation
  import opened OutstationRuns
  import EB = EventBuffers
  import UF = UnsolicitedFit

  // ---------- What justifies a removal ----------

  ghost predicate FragmentOf(f: Fragment, bodies: seq<Body>, seqNo: SeqNum, i: nat)
    requires i < |bodies|
  {
    && f.fir == (i == 0) && f.fin == (i == |bodies| - 1) && f.con && !f.uns
    && f.seqNo == SeqPlus(seqNo, i) && f.body == bodies[i]
  }

  predicate SolicitedSent(x: Io) {
    x.Sent? && !x.f.uns
  }

  predicate UnsolicitedSent(x: Io) {
    x.Sent? && x.f.uns
  }

  /** Fragments of a response went out at `sentAt`, each confirmed at `ackAt` under its own
      sequence number before the next went out, and since the first of them nothing else that
      answers a request has gone out. */
  ghost predicate Paced(io: seq<Io>, bodies: seq<Body>, seqNo: SeqNum, sentAt: seq<nat>, ackAt: seq<nat>) {
    && |ackAt| <= |sentAt| <= |bodies|
    && (forall i :: 0 <= i < |sentAt| ==>
          sentAt[i] < |io| && io[sentAt[i]].Sent? && FragmentOf(io[sentAt[i]].f, bodies, seqNo, i))
    && (forall i :: 0 <= i < |ackAt| ==>
          sentAt[i] < ackAt[i] < |io| && io[ackAt[i]] == GotConfirm(false, SeqPlus(seqNo, i)))
    && (forall i :: 0 <= i < |ackAt| && i + 1 < |sentAt| ==> ackAt[i] < sentAt[i + 1])
    && (sentAt != [] ==> AloneSince(io, sentAt))
  }

  /** From the first of `sentAt` on, only those places hold fragments that answer a request. */
  ghost predicate AloneSince(io: seq<Io>, sentAt: seq<nat>)
    requires sentAt != []
  {
    forall k :: sentAt[0] <= k < |io| && SolicitedSent(io[k]) ==> k in sentAt
  }

  /** What has just arrived is the confirmation of the last fragment of a response that carried
      the event, the others having been confirmed before it. */
  ghost predicate SolicitedProof(
    io: seq<Io>, num: nat, bodies: seq<Body>, seqNo: SeqNum, sentAt: seq<nat>, ackAt: seq<nat>)
  {
    && bodies != [] && |ackAt| == |bodies|
    && Paced(io, bodies, seqNo, sentAt, ackAt)
    && ackAt[|ackAt| - 1] == |io| - 1
    && num in Ids(Carried(bodies))
  }

  /** What has just arrived is the confirmation, under its own number, of the last unsolicited
      response sent, and that carried the event. */
  ghost predicate UnsolicitedProof(io: seq<Io>, num: nat, sentAt: nat) {
    && sentAt < |io| - 1
    && UnsolicitedSent(io[sentAt]) && num in Ids(io[sentAt].f.body.carried)
    && (forall k :: sentAt < k < |io| ==> !UnsolicitedSent(io[k]))
    && io[|io| - 1] == GotConfirm(true, io[sentAt].f.seqNo)
  }

  ghost predicate Justified(io: seq<Io>, num: nat) {
    || (exists bodies, seqNo, sentAt, ackAt :: SolicitedProof(io, num, bodies, seqNo, sentAt, ackAt))
    || (exists sentAt :: UnsolicitedProof(io, num, sentAt))
  }

  /** Every removal in the history was justified by what came before it. */
  ghost predicate NothingLost(io: seq<Io>) {
    forall k, num :: 0 <= k < |io| && io[k].Removed? && num in io[k].nums ==> Justified(io[..k], num)
  }

  // ---------- The invariant ----------

  /** A data-carrying unsolicited response is held for confirmation or retry. */
  predicate UnsEvents(s: State) {
    s.u.kept.Some? && s.u.nullConfirmed
  }

  /** The events an unsolicited response in hand answers for. */
  function Reported(s: State): set<nat> {
    if UnsEvents(s) then Ids(s.u.kept.value.carried) else {}
  }

  /** The events some response in progress answers for. */
  ghost function Owned(s: State): set<nat> {
    if SolEvents(s) then Ids(Carried(s.p.bodies)) else Reported(s)
  }

  ghost predicate SelectionOwned(s: State) {
    && EB.Valid(s.buf)
    && SelectedIds(s.buf.events) <= Owned(s)
  }

  /** Where a response in progress has got to. One that carries no events may have taken the place
      of another that was awaiting a confirmation. */
  ghost predicate PendingShape(p: Pending) {
    && (p.bodies == [] ==> p.index == 0 && !p.awaiting)
    && (p.bodies != [] ==> if p.awaiting then p.index <= |p.bodies| else p.index < |p.bodies|)
    && (p.bodies != [] && p.hasEvents && p.awaiting ==> 1 <= p.index && p.confirmSeq == SeqPlus(p.seqNo, p.index - 1))
  }

  ghost predicate UnsolShape(s: State) {
    && Consistent(s.u)
    && (s.u.kept.Some? && !s.u.nullConfirmed ==> s.u.kept.value.carried == [])
    && (s.deferred.Some? && !s.u.awaiting && s.u.nullConfirmed ==> s.u.kept.None?)
    && (s.deferred.Some? ==> !s.deferred.value.broadcast)
  }

  ghost predicate LastShape(s: State) {
    && Excluded(s)
    && (SolEvents(s) ==> s.last.bodies == s.p.bodies && s.last.hasEvents)
  }

  /** Where in the history the fragments of the response in progress, their confirmations and
      the unsolicited response kept are. */
  datatype Marks = Marks(sentAt: seq<nat>, ackAt: seq<nat>, unsAt: nat)

  ghost predicate Marked(s: State, io: seq<Io>, m: Marks) {
    && (SolEvents(s) ==>
          && Paced(io, s.p.bodies, s.p.seqNo, m.sentAt, m.ackAt)
          && |m.sentAt| == s.p.index && |m.ackAt| == s.p.index - (if s.p.awaiting then 1 else 0))
    && (s.u.kept.Some? ==>
          && m.unsAt < |io| && io[m.unsAt].Sent? && io[m.unsAt].f.uns
          && io[m.unsAt].f.seqNo == s.u.seqNo && io[m.unsAt].f.body == s.u.kept.value
          && forall k :: m.unsAt < k < |io| ==> !UnsolicitedSent(io[k]))
  }

  ghost predicate Safe(s: State, io: seq<Io>, m: Marks) {
    && SelectionOwned(s) && PendingShape(s.p) && UnsolShape(s) && LastShape(s)
    && Marked(s, io, m) && NothingLost(io)
  }

  // ---------- The scope of the guarantee ----------

  /** What building the answer to a new read sends and leaves unsent. */
  function ReadBuilt(c: Config, s: State, w: World, r: Received): Built
    requires r.content.EventRead?
  {
    BuildEvents(EnvOf(c, s, w), NewBuilder(c.maxTx), SelectItems(AbandonResponse(s).buf, r.content.items).events)
  }

  /** A read would be answered with events, new or stored. */
  predicate AnswersEvents(c: Config, s: State, w: World, r: Received) {
    if IsRepeat(s, r) then s.last.hasEvents && s.last.bodies != []
    else r.content.EventRead? && ReadBuilt(c, s, w, r).sent != []
  }

  /** A read, not held back, that is answered with events while something is selected which the
      answer does not carry. In a safe state that is the events of an unsolicited response that has
      timed out and is yet to be sent again. */
  ghost predicate GapRead(c: Config, s: State, w: World, r: Received) {
    && Dispatchable(r) && IsRead(r.frag) && !r.broadcast && !s.u.awaiting && AnswersEvents(c, s, w, r)
    && if IsRepeat(s, r) then !(SelectedIds(s.buf.events) <= Ids(Carried(s.last.bodies)))
       else SelectedIds(AbandonResponse(s).buf.events) != {}
  }

  /** A read sent to everyone that selects events nothing answers for. */
  predicate BroadcastRead(c: Config, s: State, w: World, r: Received) {
    && Dispatchable(r) && IsRead(r.frag) && r.broadcast && r.content.EventRead? && !IsRepeat(s, r)
    && !(Ids(ReadBuilt(c, s, w, r).sent) <= Reported(s))
  }

  /** A request that does not parse and is answered all the same. */
  predicate AnsweredMalformed(r: Received, h: Header) {
    ParseRequestHeader(r.frag) == Some(h) && h.fir && h.fin && r.content.Malformed? && !r.broadcast
    && !IsResponse(h.func) && h.func != FUNC_CONFIRM && !NoReply(h.func)
  }

  /** One that is answered over a response in progress whose events are selected, and left so. */
  predicate MalformedOver(s: State, r: Received) {
    && ParseRequestHeader(r.frag).Some? && AnsweredMalformed(r, ParseRequestHeader(r.frag).value)
    && SolEvents(s) && !(SelectedIds(s.buf.events) <= Reported(s))
  }

  /** The requests that cost an event, and no others. */
  ghost predicate Losing(c: Config, s: State, w: World, r: Received) {
    GapRead(c, s, w, r) || BroadcastRead(c, s, w, r) || MalformedOver(s, r)
  }

  /** No such request is taken up. A read held back costs none when it is resumed. */
  ghost predicate StepInScope(c: Config, s: State, t: Turn) {
    match t.step
    case Receive(r) => !Losing(c, s, t.w, r)
    case Resume => s.deferred.Some? && !s.u.awaiting ==> !MalformedOver(s, s.deferred.value)
    case _ => true
  }

  // ---------- Histories only grow ----------

  lemma AloneGrows(io: seq<Io>, more: seq<Io>, sentAt: seq<nat>)
    requires sentAt != [] && AloneSince(io, sentAt) && forall x :: x in more ==> !SolicitedSent(x)
    ensures AloneSince(io + more, sentAt)
  {
    hide SolicitedSent;
  }

  lemma PacedGrows(io: seq<Io>, more: seq<Io>, bodies: seq<Body>, seqNo: SeqNum, sentAt: seq<nat>, ackAt: seq<nat>)
    requires Paced(io, bodies, seqNo, sentAt, ackAt) && forall x :: x in more ==> !SolicitedSent(x)
    ensures Paced(io + more, bodies, seqNo, sentAt, ackAt)
  {
    hide FragmentOf, AloneSince;
    if sentAt != [] { AloneGrows(io, more, sentAt); }
  }

  /** Adding entries that are not removals keeps the history good. */
  lemma NothingLostAdd(io: seq<Io>, x: Io)
    requires NothingLost(io)
    requires x.Removed? ==> forall num :: num in x.nums ==> Justified(io, num)
    ensures NothingLost(io + [x])
  {
    hide Justified;
    forall k, num | 0 <= k < |io + [x]| && (io + [x])[k].Removed? && num in (io + [x])[k].nums
      ensures Justified((io + [x])[..k], num)
    {
      assert (io + [x])[..k] == io[..k];
      if k == |io| { assert io[..k] == io; }
    }
  }

  lemma MarkedGrows(s: State, io: seq<Io>, m: Marks, x: Io)
    requires Marked(s, io, m) && !(SolEvents(s) && SolicitedSent(x)) && !(s.u.kept.Some? && UnsolicitedSent(x))
    ensures Marked(s, io + [x], m)
  {
    hide Paced;
    if SolEvents(s) { PacedGrows(io, [x], s.p.bodies, s.p.seqNo, m.sentAt, m.ackAt); }
  }

  lemma SafeLog(s: State, io: seq<Io>, m: Marks, x: Io)
    requires Safe(s, io, m) && !x.Removed? && !(SolEvents(s) && SolicitedSent(x))
    requires !(s.u.kept.Some? && UnsolicitedSent(x))
    ensures Safe(s, io + [x], m)
  {
    hide SelectionOwned, PendingShape, UnsolShape, LastShape, Marked, NothingLost;
    MarkedGrows(s, io, m, x);
    NothingLostAdd(io, x);
  }

  // ---------- The buffer under the operations a session applies ----------

  lemma ConfirmClears(b: EB.Buffer)
    requires EB.Valid(b)
    ensures EB.Valid(EB.Confirm(b)) && SelectedIds(EB.Confirm(b).events) == {}
  {
    EB.ApplyValid(b, EB.OpConfirm);
    EB.WithoutShape(b.events, Ids(b.events));
  }

  lemma UnselectClears(b: EB.Buffer)
    requires EB.Valid(b)
    ensures EB.Valid(EB.Unselect(b)) && SelectedIds(EB.Unselect(b).events) == {}
  {
    EB.ApplyValid(b, EB.OpUnselect);
    EB.FreedShape(b.events, Ids(b.events));
  }

  lemma ResetClears(b: EB.Buffer)
    requires EB.Valid(b)
    ensures EB.Valid(EB.Reset(b)) && SelectedIds(EB.Reset(b).events) == {}
  {
  }

  lemma AddKeeps(b: EB.Buffer, e: Event)
    requires EB.Valid(b)
    ensures EB.Valid(EB.Add(b, e)) && SelectedIds(EB.Add(b, e).events) <= SelectedIds(b.events)
  {
    EB.ApplyValid(b, EB.OpAdd(e));
    forall n | n in SelectedIds(EB.Add(b, e).events) ensures n in SelectedIds(b.events) {
      var x :| x in EB.Add(b, e).events && x.selected && x.num == n;
      assert x in b.events;
    }
  }

  lemma {:induction false} RaiseKeeps(b: EB.Buffer, events: seq<Event>)
    requires EB.Valid(b)
    ensures EB.Valid(Raise(b, events)) && SelectedIds(Raise(b, events).events) <= SelectedIds(b.events)
  {
    hide EB.Valid, EB.Add;
    if events != [] {
      RaiseKeeps(b, events[..|events| - 1]);
      AddKeeps(Raise(b, events[..|events| - 1]), events[|events| - 1]);
    }
  }

  lemma RevariedIds(events: seq<Event>, variation: Option<Octet>)
    ensures Ids(Revaried(events, variation)) == Ids(events)
  {
    var r := Revaried(events, variation);
    assert forall i :: 0 <= i < |events| ==> r[i].num == events[i].num;
    assert forall i :: 0 <= i < |events| ==> events[i] in events && r[i] in r;
    forall n | n in Ids(events) ensures n in Ids(r) {
      var i :| 0 <= i < |events| && events[i].num == n;
      assert r[i] in r;
    }
  }

  lemma IdsConcat(a: seq<Event>, b: seq<Event>)
    ensures Ids(a + b) == Ids(a) + Ids(b)
  {
    assert forall x :: x in a + b <==> x in a || x in b;
  }

  /** The events a read selects are the ones newly marked in the buffer. */
  lemma {:induction false} SelectItemsMarks(b: EB.Buffer, items: seq<ReadItem>)
    requires EB.Valid(b)
    ensures var sel := SelectItems(b, items);
      EB.Valid(sel.buf) && SelectedIds(sel.buf.events) == SelectedIds(b.events) + Ids(sel.events)
  {
    hide EB.Valid, Revaried, EB.Taken;
    if items != [] {
      var item, before := items[|items| - 1], SelectItems(b, items[..|items| - 1]);
      SelectItemsMarks(b, items[..|items| - 1]);
      EB.SelectValid(before.buf, item.query, item.limit);
      EB.SelectedAfterSelect(before.buf.events, item.query, item.limit);
      var taken := EB.Taken(before.buf.events, item.query, item.limit);
      RevariedIds(taken, item.variation);
      IdsConcat(before.events, Revaried(taken, item.variation));
    }
  }

  lemma DiscardLeaves(b: EB.Buffer, events: seq<Event>)
    requires EB.Valid(b)
    ensures EB.Valid(EB.Discard(b, events))
    ensures SelectedIds(EB.Discard(b, events).events) == SelectedIds(b.events) - Ids(events)
  {
    EB.ApplyValid(b, EB.OpDiscard(events));
    EB.WithoutShape(b.events, Ids(events));
  }

  lemma {:induction false} OpsCarry(b: Builder, ops: seq<BuilderOp>)
    requires Tidy(b)
    ensures Tidy(ApplyOps(b, ops)) && AllCarried(ApplyOps(b, ops)) == AllCarried(b)
  {
    hide Tidy, AllCarried, AddHeader, Flush;
    if ops != [] {
      OpsCarry(b, ops[..|ops| - 1]);
      var before, op := ApplyOps(b, ops[..|ops| - 1]), ops[|ops| - 1];
      match op
      case OpAdd(h) =>
        AddCarries(before, h, []);
        assert AllCarried(before) + [] == AllCarried(before);
      case OpFlush => FlushTidy(before);
    }
  }

  // ---------- Transmission is exact ----------

  lemma BuiltFromNothing(env: Env, maxFragment: int, events: seq<Event>)
    ensures var built := BuildEvents(env, NewBuilder(maxFragment), events);
      && Tidy(built.b) && AllCarried(built.b) == built.sent
      && Ids(events) == Ids(built.sent) + Ids(built.unsent)
      && |events| == |built.sent| + |built.unsent|
  {
    hide BuildEvents, Interleaves;
    var start := NewBuilder(maxFragment);
    var built := BuildEvents(env, start, events);
    SentAndUnsentPartition(env, start, events);
    InterleavesIds(events, built.sent, built.unsent);
    assert |multiset(events)| == |multiset(built.sent)| + |multiset(built.unsent)|;
    BuildEventsCarries(env, start, events);
  }

  ghost predicate Distinct(es: seq<Event>) {
    forall i, j :: 0 <= i < j < |es| ==> es[i].num != es[j].num
  }

  lemma OrderedDistinct(es: seq<Event>)
    requires EB.Ordered(es)
    ensures Distinct(es)
  {
  }

  lemma {:induction false} DistinctParts(w: seq<Event>, a: seq<Event>, b: seq<Event>)
    requires Interleaves(w, a, b) && Distinct(w)
    ensures Ids(a) !! Ids(b)
    decreases |w|
  {
    if w != [] {
      assert Distinct(w[1..]);
      FirstIsAlone(w);
      IdsCons(w);
      if a != [] && a[0] == w[0] && Interleaves(w[1..], a[1..], b) {
        DistinctParts(w[1..], a[1..], b);
        InterleavesIds(w[1..], a[1..], b);
        IdsCons(a);
      } else {
        DistinctParts(w[1..], a, b[1..]);
        InterleavesIds(w[1..], a, b[1..]);
        IdsCons(b);
      }
    }
  }

  lemma FirstIsAlone(w: seq<Event>)
    requires Distinct(w) && w != []
    ensures w[0].num !in Ids(w[1..])
  {
    forall e | e in w[1..] ensures e.num != w[0].num {
      var i :| 0 <= i < |w[1..]| && w[1..][i] == e;
      assert w[i + 1] == e;
    }
  }

  lemma TakenFresh(es: seq<Event>, q: Query, limit: int)
    requires EB.Ordered(es)
    ensures Ids(EB.Taken(es, q, limit)) !! SelectedIds(es)
  {
    hide EB.Taken;
    forall t | t in EB.Taken(es, q, limit) ensures t.num !in SelectedIds(es) {
      EB.TakenShape(es, q, limit, t);
      var i :| 0 <= i < |es| && es[i] == t.(selected := false);
      forall x | x in es && x.num == t.num ensures !x.selected {
        var j :| 0 <= j < |es| && es[j] == x;
      }
    }
  }

  lemma Remaining(before: set<nat>, sent: set<nat>, unsent: set<nat>)
    requires sent !! unsent && before !! (sent + unsent)
    ensures before + (sent + unsent) - unsent == before + sent
  {
  }

  /** An unsolicited transmission adds to what is selected exactly the events its single body
      carries, none of which was selected before. */
  lemma TransmissionIsExact(c: Config, s: State, w: World, q: Query)
    requires ValidCodec(c.codec) && EB.Valid(s.buf)
    requires EB.Taken(s.buf.events, q, UNSOLICITED_LIMIT) != []
    ensures var events := EB.Taken(s.buf.events, q, UNSOLICITED_LIMIT);
      var s' := s.(buf := EB.Select(s.buf, q, UNSOLICITED_LIMIT));
      var out := SendEventsUnsolicited(c, s', w, events);
      && EB.Valid(out.s.buf) && out.s.u.kept.Some?
      && SelectedIds(out.s.buf.events) == SelectedIds(s.buf.events) + Ids(out.s.u.kept.value.carried)
      && SelectedIds(s.buf.events) !! Ids(out.s.u.kept.value.carried)
      && out.s.u.kept.value.carried
         == BuildEvents(EnvOf(c, s, w), NewBuilder(c.maxTx), events[..UF.FitCount(EnvOf(c, s, w), c.maxTx, events)]).sent
  {
    hide ValidCodec, EB.Valid, BuildEvents, UF.FitCount, UF.FitsOne, EB.Taken, EB.Marked, EB.Discard, Done, AllCarried,
         Interleaves, Distinct, EB.Ordered;
    var env := EnvOf(c, s, w);
    var events := EB.Taken(s.buf.events, q, UNSOLICITED_LIMIT);
    var fit := UF.FitCount(env, c.maxTx, events);
    var some := events[..fit];
    var built := BuildEvents(env, NewBuilder(c.maxTx), some);
    EB.SelectThenRelease(s.buf, q, UNSOLICITED_LIMIT, fit);
    EB.SelectValid(s.buf, q, fit);
    EB.SelectedAfterSelect(s.buf.events, q, fit);
    var kept := EB.Select(s.buf, q, fit);
    DiscardLeaves(kept, built.unsent);
    BuiltFromNothing(env, c.maxTx, some);
    SentAndUnsentPartition(env, NewBuilder(c.maxTx), some);
    ValidOrdered(s.buf);
    EB.TakenOrdered(s.buf.events, q, fit);
    OrderedDistinct(some);
    DistinctParts(some, built.sent, built.unsent);
    TakenFresh(s.buf.events, q, fit);
    Remaining(SelectedIds(s.buf.events), Ids(built.sent), Ids(built.unsent));
    UF.FitCountIsLargest(env, c.maxTx, events);
    OneBodyCarriesAll(env, c.maxTx, some);
  }

  lemma ValidOrdered(b: EB.Buffer)
    requires EB.Valid(b)
    ensures EB.Ordered(b.events)
  {
  }

  lemma OneBodyCarriesAll(env: Env, maxFragment: int, events: seq<Event>)
    requires UF.FitsOne(env, maxFragment, events)
    ensures var built := BuildEvents(env, NewBuilder(maxFragment), events);
      Done(built.b)[0].carried == built.sent
  {
    hide BuildEvents, AllCarried, Done;
    var built := BuildEvents(env, NewBuilder(maxFragment), events);
    BuiltFromNothing(env, maxFragment, events);
    DoneCarries(built.b);
    var bodies := Done(built.b);
    assert bodies == [bodies[0]];
    assert bodies[..0] == [];
    assert Carried(bodies) == [] + bodies[0].carried;
  }

  // ---------- Each operation keeps the invariant ----------

  /** Closing out a response whose every fragment is confirmed, or that carried no events. */
  lemma FinishKeeps(s: State, io: seq<Io>, m: Marks)
    requires SelectionOwned(s) && UnsolShape(s) && LastShape(s) && NothingLost(io)
    requires s.p.bodies != [] && !s.p.awaiting && Marked(s.(p := s.p.(bodies := [])), io, m)
    requires s.p.hasEvents ==>
      && Paced(io, s.p.bodies, s.p.seqNo, m.sentAt, m.ackAt) && |m.ackAt| == |s.p.bodies|
      && m.ackAt[|m.ackAt| - 1] == |io| - 1
    ensures var out := FinishResponse(s); Safe(out.s, io + out.io, m)
  {
    hide EB.Valid, Paced, Carried, EB.Confirm, NothingLost, Justified;
    var out := FinishResponse(s);
    assert io + [] == io;
    if s.p.hasEvents {
      var x := Removed(SelectedIds(s.buf.events));
      ConfirmClears(s.buf);
      forall num | num in x.nums ensures Justified(io, num) {
        FullyConfirmed(io, num, s.p.bodies, s.p.seqNo, m);
      }
      NothingLostAdd(io, x);
      MarkedGrows(out.s, io, m, x);
    }
  }

  lemma FullyConfirmed(io: seq<Io>, num: nat, bodies: seq<Body>, seqNo: SeqNum, m: Marks)
    requires bodies != [] && Paced(io, bodies, seqNo, m.sentAt, m.ackAt) && |m.ackAt| == |bodies|
    requires m.ackAt[|m.ackAt| - 1] == |io| - 1
    requires num in Ids(Carried(bodies))
    ensures Justified(io, num)
  {
    assert SolicitedProof(io, num, bodies, seqNo, m.sentAt, m.ackAt);
  }

  lemma PacedSend(io: seq<Io>, f: Fragment, bodies: seq<Body>, seqNo: SeqNum, sentAt: seq<nat>, ackAt: seq<nat>)
    requires Paced(io, bodies, seqNo, sentAt, ackAt) && |ackAt| == |sentAt| < |bodies|
    requires FragmentOf(f, bodies, seqNo, |sentAt|)
    ensures Paced(io + [Sent(f)], bodies, seqNo, sentAt + [|io|], ackAt)
  {
    hide FragmentOf, AloneSince;
    AloneSends(io, f, sentAt);
  }

  lemma AloneSends(io: seq<Io>, f: Fragment, sentAt: seq<nat>)
    requires sentAt != [] ==> AloneSince(io, sentAt)
    ensures AloneSince(io + [Sent(f)], sentAt + [|io|])
  {
    hide SolicitedSent;
  }

  lemma PacedAck(io: seq<Io>, bodies: seq<Body>, seqNo: SeqNum, sentAt: seq<nat>, ackAt: seq<nat>)
    requires Paced(io, bodies, seqNo, sentAt, ackAt) && |sentAt| == |ackAt| + 1
    ensures Paced(io + [GotConfirm(false, SeqPlus(seqNo, |ackAt|))], bodies, seqNo, sentAt, ackAt + [|io|])
  {
    hide FragmentOf, AloneSince;
    AloneGrows(io, [GotConfirm(false, SeqPlus(seqNo, |ackAt|))], sentAt);
  }

  lemma AdvanceKeeps(c: Config, s: State, w: World, io: seq<Io>, m: Marks) returns (m': Marks)
    requires Safe(s, io, m)
    ensures var out := AdvanceResponse(c, s, w); Safe(out.s, io + out.io, m')
  {
    hide SelectionOwned, UnsolShape, LastShape, NothingLost, Paced, CurrentIin, FinishResponse;
    m' := m;
    var out := AdvanceResponse(c, s, w);
    assert io + [] == io;
    if s.p.bodies != [] && !s.p.awaiting && !w.busy {
      var i := s.p.index;
      var f := out.io[0].f;
      if f.con {
        SentKeeps(s, out.s, io, m, f);
        m' := m.(sentAt := m.sentAt + [|io|]);
      } else {
        SafeLog(s, io, m, Sent(f));
        var s1 := s.(p := s.p.(index := i + 1));
        LastFragmentSent(s, s1, io + [Sent(f)], m);
        FinishKeeps(s1, io + [Sent(f)], m);
        assert (io + [Sent(f)]) + FinishResponse(s1).io == io + out.io;
      }
    }
  }

  /** A last fragment that needs no confirmation carries no events. */
  lemma LastFragmentSent(s: State, s1: State, io: seq<Io>, m: Marks)
    requires Safe(s, io, m) && s.p.bodies != [] && !s.p.awaiting && !s.p.hasEvents
    requires s1 == s.(p := s.p.(index := s.p.index + 1))
    ensures SelectionOwned(s1) && UnsolShape(s1) && LastShape(s1)
    ensures Marked(s1.(p := s1.p.(bodies := [])), io, m)
  {
    hide EB.Valid, Paced, Consistent;
  }

  lemma SentKeeps(s: State, s': State, io: seq<Io>, m: Marks, f: Fragment)
    requires Safe(s, io, m) && s.p.bodies != [] && !s.p.awaiting
    requires FragmentOf(f, s.p.bodies, s.p.seqNo, s.p.index)
    requires s' == s.(p := s'.p) && s'.p == s.p.(index := s.p.index + 1, awaiting := true,
                        confirmSeq := SeqPlus(s.p.seqNo, s.p.index), deadline := s'.p.deadline)
    ensures Safe(s', io + [Sent(f)], m.(sentAt := m.sentAt + [|io|]))
  {
    hide EB.Valid, Consistent, NothingLost, Paced;
    NothingLostAdd(io, Sent(f));
    if SolEvents(s) { PacedSend(io, f, s.p.bodies, s.p.seqNo, m.sentAt, m.ackAt); }
  }

  lemma OnConfirmKeeps(s: State, io: seq<Io>, m: Marks, seqNo: SeqNum) returns (m': Marks)
    requires Safe(s, io, m)
    ensures var out := Outstation.OnConfirm(s, seqNo);
      Safe(out.s, io + ([GotConfirm(false, seqNo)] + out.io), m')
  {
    hide SelectionOwned, UnsolShape, LastShape, NothingLost, Paced, FinishResponse;
    m' := m;
    var x, out := GotConfirm(false, seqNo), Outstation.OnConfirm(s, seqNo);
    assert io + ([x] + out.io) == (io + [x]) + out.io;
    assert (io + [x]) + [] == io + [x];
    SafeLog(s, io, m, x);
    if s.p.awaiting && seqNo == s.p.confirmSeq {
      var s1 := s.(p := s.p.(awaiting := false));
      m' := m.(ackAt := m.ackAt + [|io|]);
      AckKeeps(s, s1, io, m, x);
      if s1.p.index >= |s1.p.bodies| { FinishKeeps(s1, io + [x], m'); }
    }
  }

  lemma AckKeeps(s: State, s1: State, io: seq<Io>, m: Marks, x: Io)
    requires Safe(s, io, m) && s.p.awaiting && x == GotConfirm(false, s.p.confirmSeq)
    requires s1 == s.(p := s.p.(awaiting := false))
    ensures var m' := m.(ackAt := m.ackAt + [|io|]);
      && SelectionOwned(s1) && UnsolShape(s1) && LastShape(s1) && NothingLost(io + [x])
      && (SolEvents(s1) ==> Paced(io + [x], s1.p.bodies, s1.p.seqNo, m'.sentAt, m'.ackAt) && |m'.ackAt| == s1.p.index)
      && Marked(s1.(p := s1.p.(bodies := [])), io + [x], m')
      && Marked(s1, io + [x], m')
  {
    hide EB.Valid, Consistent, NothingLost, Paced;
    NothingLostAdd(io, x);
    if SolEvents(s) { PacedAck(io, s.p.bodies, s.p.seqNo, m.sentAt, m.ackAt); }
  }

  lemma OnUnsolicitedConfirmKeeps(s: State, io: seq<Io>, m: Marks, seqNo: SeqNum)
    requires Safe(s, io, m)
    ensures var out := OnUnsolicitedConfirm(s, seqNo);
      Safe(out.s, io + ([GotConfirm(true, seqNo)] + out.io), m)
  {
    hide EB.Valid, Paced, NothingLost, Justified, EB.Confirm, Carried;
    var x, out := GotConfirm(true, seqNo), OnUnsolicitedConfirm(s, seqNo);
    var io1 := io + [x];
    assert io + ([x] + out.io) == io1 + out.io;
    assert io1 + [] == io1;
    SafeLog(s, io, m, x);
    if Accepts(s.u, seqNo) && s.u.nullConfirmed {
      var gone := Removed(SelectedIds(s.buf.events));
      ConfirmClears(s.buf);
      forall num | num in gone.nums ensures Justified(io1, num) {
        UnsolicitedConfirmed(io1, num, m.unsAt);
      }
      NothingLostAdd(io1, gone);
    }
  }

  lemma UnsolicitedConfirmed(io: seq<Io>, num: nat, sentAt: nat)
    requires UnsolicitedProof(io, num, sentAt)
    ensures Justified(io, num)
  {
  }

  lemma TimeoutKeeps(s: State, w: World, io: seq<Io>, m: Marks)
    requires Safe(s, io, m)
    ensures Safe(CheckConfirmTimeout(s, w), io, m)
  {
    hide EB.Valid, Paced, NothingLost, EB.Unselect, Carried, Consistent;
    UnselectClears(s.buf);
  }

  lemma UpdateKeeps(s: State, raised: seq<Event>, io: seq<Io>, m: Marks)
    requires Safe(s, io, m)
    ensures Safe(s.(buf := Raise(s.buf, raised)), io, m)
  {
    hide EB.Valid, Paced, NothingLost, Raise, Carried, Consistent;
    RaiseKeeps(s.buf, raised);
  }

  /** A response started and nothing of it sent yet. */
  function Begun(s: State, seqNo: SeqNum, bodies: seq<Body>, hasEvents: bool): State {
    s.(p := s.p.(bodies := bodies, index := 0, seqNo := seqNo, hasEvents := hasEvents),
       last := s.last.(bodies := bodies, hasEvents := hasEvents, errors := s.iin * REQUEST_ERRORS))
  }

  /** Starting a response with nothing selected but what it, or one still kept, carries. */
  lemma StartKeeps(s: State, io: seq<Io>, m: Marks, seqNo: SeqNum, bodies: seq<Body>, hasEvents: bool)
    requires EB.Valid(s.buf) && UnsolShape(s) && NothingLost(io)
    requires bodies != []
    requires Marked(s.(p := s.p.(bodies := [])), io, m)
    requires if hasEvents
      then !s.p.awaiting && !s.u.awaiting && s.last.valid && IsRead(s.last.frag)
           && SelectedIds(s.buf.events) <= Ids(Carried(bodies))
      else SelectedIds(s.buf.events) <= Reported(s)
    ensures Safe(Begun(s, seqNo, bodies, hasEvents), io, Marks([], [], m.unsAt))
  {
    hide EB.Valid, NothingLost, Carried, Consistent, IsRead;
  }

  lemma SendKeeps(
    c: Config, s: State, w: World, r: Received, seqNo: SeqNum, bodies: seq<Body>, hasEvents: bool, io: seq<Io>, m: Marks)
    returns (m': Marks)
    requires !r.broadcast && Safe(Begun(s, seqNo, bodies, hasEvents), io, m)
    ensures var out := SendFragments(c, s, w, r, seqNo, bodies, hasEvents); Safe(out.s, io + out.io, m')
  {
    hide Safe, AdvanceResponse;
    m' := AdvanceKeeps(c, Begun(s, seqNo, bodies, hasEvents), w, io, m);
  }

  lemma AbandonKeeps(s: State, r: Received, io: seq<Io>, m: Marks)
    requires Safe(s, io, m)
    ensures var s1 := AbandonResponse(Remember(s, r));
      && Safe(s1, io, m) && s1.p.bodies == [] && s1.u == s.u
      && s1.last.valid && s1.last.source == r.source && s1.last.frag == r.frag && s1.deferred == s.deferred
  {
    hide EB.Valid, Paced, NothingLost, EB.Unselect, Carried, Consistent, IsRead, ParseRequestHeader;
    UnselectClears(s.buf);
  }

  lemma NothingSelected(s: State, io: seq<Io>, m: Marks)
    requires Safe(s, io, m) && !SolEvents(s) && !UnsEvents(s)
    ensures SelectedIds(s.buf.events) == {} && EB.Valid(s.buf)
  {
  }

  /** What a read leaves selected: what was, and what it sends. */
  lemma ReadLeaves(c: Config, s: State, w: World, r: Received)
    requires EB.Valid(s.buf) && r.content.EventRead? && s.p.bodies == []
    ensures var built := ReadBuilt(c, s, w, r);
      var sel := SelectItems(s.buf, r.content.items);
      var buf := if sel.events == [] then sel.buf else EB.Discard(sel.buf, built.unsent);
      && EB.Valid(buf) && SelectedIds(buf.events) <= SelectedIds(s.buf.events) + Ids(built.sent)
      && Carried(Done(ApplyOps(built.b, r.content.later))) == built.sent
      && |sel.events| == |built.sent| + |built.unsent|
  {
    hide EB.Valid, Carried, SelectItems, BuildEvents, ApplyOps, Done, EB.Discard, AllCarried, Tidy, EnvOf;
    var sel, built := SelectItems(s.buf, r.content.items), ReadBuilt(c, s, w, r);
    SelectItemsMarks(s.buf, r.content.items);
    BuiltFromNothing(EnvOf(c, s, w), c.maxTx, sel.events);
    OpsCarry(built.b, r.content.later);
    DoneCarries(ApplyOps(built.b, r.content.later));
    DiscardLeaves(sel.buf, built.unsent);
  }

  lemma OnReadKeeps(
      c: Config, s: State, w: World, r: Received, seqNo: SeqNum, io: seq<Io>, m: Marks) returns (m': Marks)
    requires Safe(s, io, m) && s.p.bodies == [] && (!r.broadcast ==> !s.u.awaiting)
    requires r.content.EventRead? && IsRead(r.frag) && s.last.valid && s.last.frag == r.frag
    requires if r.broadcast then Ids(ReadBuilt(c, s, w, r).sent) <= Reported(s)
             else ReadBuilt(c, s, w, r).sent != [] ==> SelectedIds(s.buf.events) == {}
    ensures var out := OnRead(c, s, w, r, seqNo); Safe(out.s, io + out.io, m')
  {
    hide EB.Valid, Paced, NothingLost, Carried, Consistent, IsRead, SelectItems, BuildEvents, ApplyOps, Done,
         SendFragments,
         EB.Discard, EnvOf;
    var sel, built := SelectItems(s.buf, r.content.items), ReadBuilt(c, s, w, r);
    var bodies := Done(ApplyOps(built.b, r.content.later));
    SafeSelection(s, io, m);
    ReadLeaves(c, s, w, r);
    var buf := if sel.events == [] then sel.buf else EB.Discard(sel.buf, built.unsent);
    var hasEvents := |built.unsent| < |sel.events|;
    var s1 := s.(buf := buf, iin := s.iin + r.content.errors);
    m' := m;
    assert io + [] == io;
    if r.broadcast {
      BufferKeeps(s, s1, io, m);
      NotSentBroadcast(c, s1, w, r, seqNo, bodies, hasEvents);
    } else {
      StartKeeps(s1, io, m, seqNo, bodies, hasEvents);
      m' := SendKeeps(c, s1, w, r, seqNo, bodies, hasEvents, io, Marks([], [], m.unsAt));
    }
  }

  lemma NotSentBroadcast(c: Config, s: State, w: World, r: Received, seqNo: SeqNum, bodies: seq<Body>, hasEvents: bool)
    requires r.broadcast
    ensures SendFragments(c, s, w, r, seqNo, bodies, hasEvents) == Out(s, [])
  {
  }

  /** With no more selected than was or is answered for, and other indications. */
  lemma BufferKeeps(s: State, s': State, io: seq<Io>, m: Marks)
    requires Safe(s, io, m)
    requires s' == s.(buf := s'.buf, iin := s'.iin, broadcastConfirm := s'.broadcastConfirm, unsolClasses := s'.unsolClasses)
    requires EB.Valid(s'.buf)
    requires SelectedIds(s'.buf.events) <= SelectedIds(s.buf.events) + if s.p.bodies == [] then Reported(s) else {}
    ensures Safe(s', io, m)
  {
    hide EB.Valid, Paced, NothingLost, Carried, Consistent, IsRead;
  }

  lemma OnEffectKeeps(c: Config, s: State, w: World, r: Received, seqNo: SeqNum, func: Octet, io: seq<Io>, m: Marks)
    returns (m': Marks)
    requires Safe(s, io, m) && s.p.bodies == [] && r.content.Effect?
    ensures var out := OnEffect(c, s, w, r, seqNo, func); Safe(out.s, io + out.io, m')
  {
    hide EB.Valid, Paced, NothingLost, Carried, Consistent, IsRead, SendFragments, Raise, EB.Reset, NoReply,
         UnsolShape, LastShape;
    var x := r.content;
    var from := if x.wipe then EB.Reset(s.buf) else s.buf;
    SafeSelection(s, io, m);
    ResetClears(s.buf);
    RaiseKeeps(from, x.raised);
    var s' := s.(buf := Raise(from, x.raised), iin := s.iin + x.errors,
                 unsolClasses := if x.classes.Some? then x.classes.value else s.unsolClasses);
    BufferKeeps(s, s', io, m);
    m' := m;
    assert io + [] == io;
    if !(NoReply(func) || r.broadcast || x.reply == []) {
      StartKeeps(s', io, m, seqNo, PlainBodies(x.reply), false);
      m' := SendKeeps(c, s', w, r, seqNo, PlainBodies(x.reply), false, io, Marks([], [], m.unsAt));
    }
  }

  lemma ReplayKeeps(
      c: Config, s: State, w: World, r: Received, seqNo: SeqNum, io: seq<Io>, m: Marks) returns (m': Marks)
    requires Safe(s, io, m) && IsRepeat(s, r)
    requires IsRead(r.frag) && !r.broadcast ==> !s.u.awaiting
    requires s.last.hasEvents && s.last.bodies != [] && !r.broadcast ==>
      SelectedIds(s.buf.events) <= Ids(Carried(s.last.bodies))
    ensures var out := ReplayResponse(c, s, w, r, seqNo); Safe(out.s, io + out.io, m')
  {
    hide EB.Valid, Paced, NothingLost, Carried, Consistent, IsRead, SendFragments;
    m' := m;
    assert io + [] == io;
    if s.last.bodies != [] && !r.broadcast {
      var s1 := s.(p := s.p.(awaiting := false, bodies := [], index := 0), iin := s.iin + s.last.errors);
      StartKeeps(s1, io, m, seqNo, s.last.bodies, s.last.hasEvents);
      m' := SendKeeps(c, s1, w, r, seqNo, s.last.bodies, s.last.hasEvents, io, Marks([], [], m.unsAt));
    }
  }

  lemma ExecuteKeeps(c: Config, s: State, w: World, r: Received, h: Header, io: seq<Io>, m: Marks) returns (m': Marks)
    requires Safe(s, io, m) && Dispatchable(r) && ParseRequestHeader(r.frag) == Some(h)
    requires !IsRepeat(s, r) && !Losing(c, s, w, r) && (IsRead(r.frag) && !r.broadcast ==> !s.u.awaiting)
    ensures var out := Execute(c, s, w, r, h); Safe(out.s, io + out.io, m')
  {
    hide Safe, OnRead, OnEffect, AbandonResponse, Remember, ParseRequestHeader, EB.Valid, ReadBuilt;
    AbandonKeeps(s, r, io, m);
    var s1 := AbandonResponse(Remember(s, r));
    SameBuilt(c, s, w, r, s1);
    SafeSelection(s1, io, m);
    var s2 := if r.broadcast then s1.(iin := s1.iin + {Broadcast}, broadcastConfirm := r.mandatoryConfirm) else s1;
    BufferKeeps(s1, s2, io, m);
    SameBuilt(c, s, w, r, s2);
    m' := m;
    assert io + [] == io;
    if r.content.EventRead? && h.func == FUNC_READ {
      m' := OnReadKeeps(c, s2, w, r, h.seqNo, io, m);
    } else if r.content.Effect? {
      m' := OnEffectKeeps(c, s2, w, r, h.seqNo, h.func, io, m);
    }
  }

  /** Remembering a request changes nothing of what a read would be answered with. */
  lemma SameBuilt(c: Config, s: State, w: World, r: Received, s': State)
    requires var s1 := AbandonResponse(Remember(s, r));
      s' == s1.(iin := s'.iin, broadcastConfirm := s'.broadcastConfirm)
    ensures s'.buf == AbandonResponse(s).buf
    ensures r.content.EventRead? ==> ReadBuilt(c, s', w, r) == ReadBuilt(c, s, w, r)
  {
    hide BuildEvents, SelectItems, EB.Unselect;
  }

  /** A malformed request, refused or answered. */
  lemma RejectKeeps(c: Config, s: State, w: World, r: Received, io: seq<Io>, m: Marks) returns (m': Marks)
    requires Safe(s, io, m) && r.content.Malformed? && !MalformedOver(s, r)
    ensures var out := RejectMalformed(c, s, w, r); Safe(out.s, io + out.io, m')
  {
    hide EB.Valid, Paced, NothingLost, Carried, Consistent, IsRead, SendFragments, ParseRequestHeader, NoReply,
         UnsolShape;
    var hdr := ParseRequestHeader(r.frag);
    IinKeeps(s, s.iin + {ParameterError}, io, m);
    IinKeeps(s, s.iin + {r.content.error}, io, m);
    m' := m;
    assert io + [] == io;
    if hdr.Some? && AnsweredMalformed(r, hdr.value) {
      var s' := s.(iin := s.iin + {r.content.error});
      StartKeeps(s', io, m, hdr.value.seqNo, [EMPTY_BODY], false);
      m' := SendKeeps(c, s', w, r, hdr.value.seqNo, [EMPTY_BODY], false, io, Marks([], [], m.unsAt));
    }
  }

  /** In a safe state a read costs an event only in the gap. */
  lemma GapIsUnsolicited(c: Config, s: State, w: World, r: Received, io: seq<Io>, m: Marks)
    requires Safe(s, io, m) && GapRead(c, s, w, r)
    ensures UnsEvents(s)
  {
    hide EB.Valid, Paced, NothingLost, Carried, Consistent, IsRead, EB.Unselect, AnswersEvents, Dispatchable;
    UnselectClears(s.buf);
  }

  lemma IinKeeps(s: State, iin: set<Iin>, io: seq<Io>, m: Marks)
    requires Safe(s, io, m)
    ensures Safe(s.(iin := iin), io, m)
  {
    hide EB.Valid, Paced, NothingLost, Carried, Consistent, IsRead;
  }

  lemma DispatchKeeps(c: Config, s: State, w: World, r: Received, io: seq<Io>, m: Marks) returns (m': Marks)
    requires Safe(s, io, m) && !Losing(c, s, w, r) && (IsRead(r.frag) && !r.broadcast ==> !s.u.awaiting)
    ensures var out := Dispatch(c, s, w, r); Safe(out.s, io + out.io, m')
  {
    hide Safe, Execute, ReplayResponse, OnUnsolicitedConfirm, Outstation.OnConfirm, ParseRequestHeader, IsRead,
         ReadBuilt,
         RejectMalformed, Carried, AbandonResponse;
    m' := m;
    assert io + [] == io;
    IinKeeps(s, s.iin + {ParameterError}, io, m);
    var hdr := ParseRequestHeader(r.frag);
    if r.content.Malformed? {
      m' := RejectKeeps(c, s, w, r, io, m);
    } else if hdr.Some? && hdr.value.fir && hdr.value.fin {
      var h := hdr.value;
      if h.func == FUNC_CONFIRM {
        if |r.frag| <= 2 {
          if h.uns { OnUnsolicitedConfirmKeeps(s, io, m, h.seqNo); }
          else { m' := OnConfirmKeeps(s, io, m, h.seqNo); }
        }
      } else if !h.con && !h.uns {
        var asked, ran := Asked(r.source, r.frag), Executed(r.source, r.frag);
        SafeLog(s, io, m, asked);
        if IsRepeat(s, r) {
          RepeatOfRead(s, r, io, m);
          m' := ReplayKeeps(c, s, w, r, h.seqNo, io + [asked], m);
          var out := ReplayResponse(c, s, w, r, h.seqNo);
          assert (io + [asked]) + out.io == io + ([asked] + out.io);
        } else {
          SafeLog(s, io + [asked], m, ran);
          m' := ExecuteKeeps(c, s, w, r, h, io + [asked] + [ran], m);
          var out := Execute(c, s, w, r, h);
          assert (io + [asked] + [ran]) + out.io == io + ([asked, ran] + out.io);
        }
      }
    }
  }

  /** Only a read is ever answered again with events. */
  lemma RepeatOfRead(s: State, r: Received, io: seq<Io>, m: Marks)
    requires Safe(s, io, m) && IsRepeat(s, r)
    ensures s.last.hasEvents ==> IsRead(r.frag)
  {
    hide IsRead;
  }

  lemma DeferKeeps(s: State, r: Received, io: seq<Io>, m: Marks)
    requires Safe(s, io, m)
    ensures var (held, s') := DeferRead(s, r);
      && Safe(s', io, m) && s'.u == s.u && s'.p == s.p
      && (!held && IsRead(r.frag) && !r.broadcast ==> !s.u.awaiting)
  {
    hide EB.Valid, Paced, NothingLost, Carried, Consistent, ParseRequestHeader;
  }

  /** A request that is not held back finds the state as it was, but for a read held before. */
  lemma DeferSame(s: State, r: Received)
    ensures var s' := DeferRead(s, r).1; s' == s.(deferred := s'.deferred)
    ensures !s.u.awaiting ==> DeferRead(s, r) == (false, s)
  {
    hide ParseRequestHeader;
  }

  lemma HandleKeeps(c: Config, s: State, w: World, r: Received, io: seq<Io>, m: Marks) returns (m': Marks)
    requires Safe(s, io, m) && !Losing(c, s, w, r)
    ensures var out := Handle(c, s, w, r); Safe(out.s, io + out.io, m')
  {
    hide Safe, Dispatch, DeferRead, Losing;
    DeferKeeps(s, r, io, m);
    DeferSame(s, r);
    var (held, s') := DeferRead(s, r);
    m' := m;
    assert io + [] == io;
    if !held {
      LosingSame(c, s, s', w, r);
      m' := DispatchKeeps(c, s', w, r, io, m);
    }
  }

  /** What is held back has no part in what a request costs. */
  lemma LosingSame(c: Config, s: State, s': State, w: World, r: Received)
    requires s' == s.(deferred := s'.deferred)
    ensures Losing(c, s', w, r) == Losing(c, s, w, r)
  {
    hide BuildEvents, SelectItems, EB.Unselect, Carried, ParseRequestHeader, NoReply;
  }

  lemma ResumeKeeps(c: Config, s: State, w: World, io: seq<Io>, m: Marks) returns (m': Marks)
    requires Safe(s, io, m) && (s.deferred.Some? && !s.u.awaiting ==> !MalformedOver(s, s.deferred.value))
    ensures var out := ResumeDeferredRead(c, s, w); Safe(out.s, io + out.io, m')
  {
    hide Safe, Handle, AdvanceResponse, GapRead, BroadcastRead, MalformedOver;
    m' := m;
    assert io + [] == io;
    if s.deferred.Some? && !s.u.awaiting {
      var r, s1 := s.deferred.value, s.(deferred := None);
      UndeferKeeps(s, io, m);
      if GapRead(c, s, w, r) { GapIsUnsolicited(c, s, w, r, io, m); }
      assert !BroadcastRead(c, s, w, r) by { NotBroadcast(c, s, w, r); }
      LosingSame(c, s, s1, w, r);
      m' := HandleKeeps(c, s1, w, r, io, m);
      var mid := Handle(c, s1, w, r);
      m' := AdvanceKeeps(c, mid.s, w, io + mid.io, m');
      assert (io + mid.io) + AdvanceResponse(c, mid.s, w).io == io + (mid.io + AdvanceResponse(c, mid.s, w).io);
    }
  }

  lemma UndeferKeeps(s: State, io: seq<Io>, m: Marks)
    requires Safe(s, io, m) && s.deferred.Some? && !s.u.awaiting
    ensures Safe(s.(deferred := None), io, m)
    ensures !s.deferred.value.broadcast && !UnsEvents(s)
  {
    hide EB.Valid, Paced, NothingLost, Carried, Consistent, IsRead;
  }

  lemma NotBroadcast(c: Config, s: State, w: World, r: Received)
    requires !r.broadcast
    ensures !BroadcastRead(c, s, w, r)
  {
  }

  // ---------- Unsolicited steps ----------

  lemma UnsolTimeoutKeeps(c: Config, s: State, w: World, io: seq<Io>, m: Marks)
    requires Safe(s, io, m) && s.u.awaiting
    ensures var waiting := s.deferred.Some?;
      Safe(s.(u := OnTimeout(s.u, c.pace, waiting, w.now),
              buf := if GivesUp(s.u, c.pace, waiting) then EB.Unselect(s.buf) else s.buf), io, m)
  {
    hide EB.Valid, Paced, NothingLost, Carried, EB.Unselect, IsRead;
    UnselectClears(s.buf);
  }

  lemma RetryKeeps(c: Config, s: State, w: World, io: seq<Io>, m: Marks)
    requires Safe(s, io, m) && s.u.kept.Some? && !s.u.awaiting && s.p.bodies == []
    ensures var s' := s.(u := OnRetry(s.u, c.pace, w.now));
      Safe(s', io + [UnsolFragment(s', s.u.kept.value)], m.(unsAt := |io|))
  {
    hide EB.Valid, Paced, NothingLost, Carried, IsRead, CurrentIin;
    var s' := s.(u := OnRetry(s.u, c.pace, w.now));
    NothingLostAdd(io, UnsolFragment(s', s.u.kept.value));
  }

  /** Transmitting a new body while nothing else is in progress. */
  lemma NewBodyKeeps(c: Config, s: State, s': State, w: World, body: Body, isNull: bool, io: seq<Io>, m: Marks)
    requires Safe(s, io, m) && s.u.kept.None? && !s.u.awaiting && s.p.bodies == []
    requires isNull == !s.u.nullConfirmed && (isNull ==> body.carried == [])
    requires s' == s.(buf := s'.buf, u := OnSend(s.u.(firstEventAt := s'.u.firstEventAt), c.pace, body, isNull, w.now))
    requires EB.Valid(s'.buf) && SelectedIds(s'.buf.events) <= Ids(body.carried)
    ensures Safe(s', io + [UnsolFragment(s', body)], m.(unsAt := |io|))
  {
    hide EB.Valid, Paced, NothingLost, Carried, IsRead, CurrentIin;
    NothingLostAdd(io, UnsolFragment(s', body));
  }

  lemma ReportKeeps(c: Config, s: State, w: World, io: seq<Io>, m: Marks) returns (m': Marks)
    requires ValidCodec(c.codec) && Safe(s, io, m)
    requires s.u.kept.None? && !s.u.awaiting && s.p.bodies == [] && s.u.nullConfirmed
    ensures var out := ReportEvents(c, s, w); Safe(out.s, io + out.io, m')
  {
    hide EB.Valid, Paced, NothingLost, Carried, IsRead, CurrentIin, UF.FitCount, BuildEvents, Done, EB.Taken,
         EB.Marked, EB.Discard, EB.Release, ValidCodec, HeldBack, UnsolFragment;
    m' := m;
    assert io + [] == io;
    NothingSelected(s, io, m);
    var out := ReportEvents(c, s, w);
    var q := ByClass(s.unsolClasses);
    var events := EB.Taken(s.buf.events, q, UNSOLICITED_LIMIT);
    var s1 := s.(u := s.u.(firstEventAt := None));
    var s2 := s1.(buf := EB.Select(s.buf, q, UNSOLICITED_LIMIT));
    if out.io == [] {
      if out.s == s2 {
        EB.SelectValid(s.buf, q, UNSOLICITED_LIMIT);
        EB.SelectedAfterSelect(s.buf.events, q, UNSOLICITED_LIMIT);
        if events == [] { IdleSelectKeeps(s, s2, io, m); }
      } else {
        assert out.s == s.(u := out.s.u);
      }
    } else {
      TransmissionIsExact(c, s1, w, q);
      m' := m.(unsAt := |io|);
      NewBodyKeeps(c, s, out.s, w, out.s.u.kept.value, false, io, m);
    }
  }

  lemma IdleSelectKeeps(s: State, s2: State, io: seq<Io>, m: Marks)
    requires Safe(s, io, m) && s2 == s.(buf := s2.buf, u := s.u.(firstEventAt := s2.u.firstEventAt))
    requires EB.Valid(s2.buf) && SelectedIds(s2.buf.events) <= SelectedIds(s.buf.events)
    ensures Safe(s2, io, m)
  {
    hide EB.Valid, Paced, NothingLost, Carried, IsRead;
  }

  lemma PollKeeps(c: Config, s: State, w: World, io: seq<Io>, m: Marks) returns (m': Marks)
    requires ValidCodec(c.codec) && Safe(s, io, m)
    ensures var out := PollUnsolicited(c, s, w); Safe(out.s, io + out.io, m')
  {
    hide SelectionOwned, LastShape, Marked, NothingLost, ValidCodec, ReportEvents, OnTimeout, GivesUp, OnRetry,
         UnsolFragment;
    m' := m;
    assert io + [] == io;
    match Decide(s.u, c.pace, s.p.bodies != [], w.now)
    case Idle =>
    case TimeOut => UnsolTimeoutKeeps(c, s, w, io, m);
    case Retry =>
      m' := m.(unsAt := |io|);
      RetryKeeps(c, s, w, io, m);
    case SendNull =>
      NothingSelected(s, io, m);
      m' := m.(unsAt := |io|);
      NewBodyKeeps(c, s, SendNullUnsolicited(c, s, w).s, w, EMPTY_BODY, true, io, m);
    case Report => m' := ReportKeeps(c, s, w, io, m);
  }

  lemma StepKeeps(c: Config, s: State, w: World, step: Step, io: seq<Io>, m: Marks) returns (m': Marks)
    requires ValidCodec(c.codec) && Safe(s, io, m) && StepInScope(c, s, Turn(w, step))
    ensures var out := Do(c, s, w, step); Safe(out.s, io + out.io, m')
  {
    hide Safe, ValidCodec, Handle, AdvanceResponse, ResumeDeferredRead, PollUnsolicited, CheckConfirmTimeout, Raise,
         Losing,
         MalformedOver;
    m' := m;
    assert io + [] == io;
    match step
    case Receive(r) => m' := HandleKeeps(c, s, w, r, io, m);
    case Advance => m' := AdvanceKeeps(c, s, w, io, m);
    case Resume => m' := ResumeKeeps(c, s, w, io, m);
    case ConfirmTick => TimeoutKeeps(s, w, io, m);
    case UnsolicitedTick => m' := PollKeeps(c, s, w, io, m);
    case Update(raised) => UpdateKeeps(s, raised, io, m);
    case ClockSet(on) => ClockKeeps(s, on, io, m);
  }

  lemma ClockKeeps(s: State, on: bool, io: seq<Io>, m: Marks)
    requires Safe(s, io, m)
    ensures Safe(s.(synchronized := on), io, m)
  {
    hide EB.Valid, Paced, NothingLost, Carried, Consistent, IsRead;
  }

  // ---------- Whole runs ----------

  /** Every request of the run is in scope in the state that receives it. */
  ghost predicate RunInScope(c: Config, s: State, turns: seq<Turn>) {
    forall k :: 0 <= k < |turns| ==> StepInScope(c, Serve(c, s, turns[..k]).s, turns[k])
  }

  lemma ConnectedSafe(buf: EB.Buffer, iin: set<Iin>, classes: set<EventClass>)
    requires EB.Valid(buf) && SelectedIds(buf.events) == {}
    ensures Safe(Connected(buf, iin, classes), [], Marks([], [], 0))
  {
    hide EB.Valid;
  }

  lemma {:induction false} ServeKeeps(c: Config, s: State, turns: seq<Turn>, m: Marks) returns (m': Marks)
    requires ValidCodec(c.codec) && Safe(s, [], m) && RunInScope(c, s, turns)
    ensures var out := Serve(c, s, turns); Safe(out.s, out.io, m')
  {
    hide Safe, ValidCodec, Do, StepInScope;
    m' := m;
    if turns != [] {
      var init, t := turns[..|turns| - 1], turns[|turns| - 1];
      assert forall k :: 0 <= k < |init| ==> init[..k] == turns[..k];
      m' := ServeKeeps(c, s, init, m);
      var before := Serve(c, s, init);
      m' := StepKeeps(c, before.s, t.w, t.step, before.io, m');
    }
  }

  /** No event is lost. Over every run of a connection that starts with nothing selected and takes
      up no request that costs an event (a read answered with events in the gap between an
      unsolicited timeout and its retry, a broadcast read of events that can be sent, a malformed
      request answered over a response that carries events): an event leaves the buffer by
      confirmation only after every fragment of one response that carried it was confirmed under
      that fragment's own sequence number, or after an unsolicited response that carried it was.
      And whenever no response carrying events is in progress, nothing is selected. */
  lemma {:induction false} EventsAreNeverLost(
    c: Config, buf: EB.Buffer, iin: set<Iin>, classes: set<EventClass>, turns: seq<Turn>)
    requires ValidCodec(c.codec) && EB.Valid(buf) && SelectedIds(buf.events) == {}
    requires RunInScope(c, Connected(buf, iin, classes), turns)
    ensures var out := Serve(c, Connected(buf, iin, classes), turns);
      && NothingLost(out.io)
      && (!SolEvents(out.s) && !UnsEvents(out.s) ==> SelectedIds(out.s.buf.events) == {})
      && SelectedIds(out.s.buf.events) <= Owned(out.s)
  {
    hide Serve, RunInScope, ValidCodec, NothingLost;
    ConnectedSafe(buf, iin, classes);
    var m := ServeKeeps(c, Connected(buf, iin, classes), turns, Marks([], [], 0));
  }

  // ---------- Solicited-only and unsolicited-only runs ----------

  lemma SendKeepsUnsol(c: Config, s: State, w: World, r: Received, seqNo: SeqNum, bodies: seq<Body>, hasEvents: bool)
    ensures var s' := SendFragments(c, s, w, r, seqNo, bodies, hasEvents).s; s'.u == s.u && s'.deferred == s.deferred
  {
    hide AdvanceResponse;
    AdvanceExcludes(c, Begun(s, seqNo, bodies, hasEvents), w);
  }

  lemma ExecuteKeepsUnsol(c: Config, s: State, w: World, r: Received, h: Header)
    ensures var s' := Execute(c, s, w, r, h).s; s'.u == s.u && s'.deferred == s.deferred
  {
    hide SendFragments, BuildEvents, SelectItems, ApplyOps, Done, Raise, PlainBodies, EnvOf;
    var s1 := AbandonResponse(Remember(s, r));
    var s2 := if r.broadcast then s1.(iin := s1.iin + {Broadcast}, broadcastConfirm := r.mandatoryConfirm) else s1;
    if r.content.EventRead? && h.func == FUNC_READ {
      var sel := SelectItems(s2.buf, r.content.items);
      var built := BuildEvents(EnvOf(c, s2, w), NewBuilder(c.maxTx), sel.events);
      var buf := if sel.events == [] then sel.buf else EB.Discard(sel.buf, built.unsent);
      SendKeepsUnsol(c, s2.(buf := buf, iin := s2.iin + r.content.errors), w, r, h.seqNo,
                     Done(ApplyOps(built.b, r.content.later)), |built.unsent| < |sel.events|);
    } else if r.content.Effect? {
      var x := r.content;
      var s' := s2.(buf := Raise(if x.wipe then EB.Reset(s2.buf) else s2.buf, x.raised), iin := s2.iin + x.errors,
                    unsolClasses := if x.classes.Some? then x.classes.value else s2.unsolClasses);
      SendKeepsUnsol(c, s', w, r, h.seqNo, PlainBodies(x.reply), false);
    }
  }

  /** With nothing kept, a request leaves nothing kept. */
  lemma HandleKeepsNothing(c: Config, s: State, w: World, r: Received)
    requires s.u.kept.None?
    ensures Handle(c, s, w, r).s.u.kept.None?
  {
    hide SendFragments, Execute, ParseRequestHeader, EB.Confirm;
    var hdr := ParseRequestHeader(r.frag);
    var (_, s0) := DeferRead(s, r);
    if hdr.Some? {
      var h := hdr.value;
      ExecuteKeepsUnsol(c, s0, w, r, h);
      if r.content.Malformed? {
        SendKeepsUnsol(c, s0.(iin := s0.iin + {r.content.error}), w, r, h.seqNo, [EMPTY_BODY], false);
      }
      var s1 := s0.(p := s0.p.(awaiting := false, bodies := [], index := 0), iin := s0.iin + s0.last.errors);
      SendKeepsUnsol(c, s1, w, r, h.seqNo, s0.last.bodies, s0.last.hasEvents);
    }
  }

  /** With nothing unsolicited awaiting confirmation, a request is not held back. */
  lemma HandleHoldsNothing(c: Config, s: State, w: World, r: Received)
    requires !s.u.awaiting && s.deferred.None?
    ensures var s' := Handle(c, s, w, r).s; !s'.u.awaiting && s'.deferred.None?
  {
    hide SendFragments, Execute, ParseRequestHeader, EB.Confirm, NoReply;
    var hdr := ParseRequestHeader(r.frag);
    if hdr.Some? {
      var h := hdr.value;
      ExecuteKeepsUnsol(c, s, w, r, h);
      if r.content.Malformed? {
        SendKeepsUnsol(c, s.(iin := s.iin + {r.content.error}), w, r, h.seqNo, [EMPTY_BODY], false);
      }
      var s1 := s.(p := s.p.(awaiting := false, bodies := [], index := 0), iin := s.iin + s.last.errors);
      SendKeepsUnsol(c, s1, w, r, h.seqNo, s.last.bodies, s.last.hasEvents);
    }
  }

  lemma UnsolicitedOffStep(c: Config, s: State, w: World, step: Step)
    requires !c.pace.enabled && s.u.kept.None?
    ensures Do(c, s, w, step).s.u.kept.None?
  {
    hide AdvanceResponse, Handle, Raise, ReportEvents;
    match step
    case Receive(r) => HandleKeepsNothing(c, s, w, r);
    case Resume =>
      if s.deferred.Some? {
        HandleKeepsNothing(c, s.(deferred := None), w, s.deferred.value);
        AdvanceExcludes(c, Handle(c, s.(deferred := None), w, s.deferred.value).s, w);
      }
    case Advance => AdvanceExcludes(c, s, w);
    case _ =>
  }

  lemma {:induction false} UnsolicitedOffRun(c: Config, s: State, turns: seq<Turn>)
    requires !c.pace.enabled && s.u.kept.None?
    ensures Serve(c, s, turns).s.u.kept.None?
  {
    hide Do;
    if turns != [] {
      UnsolicitedOffRun(c, s, turns[..|turns| - 1]);
      var t := turns[|turns| - 1];
      UnsolicitedOffStep(c, Serve(c, s, turns[..|turns| - 1]).s, t.w, t.step);
    }
  }

  /** No broadcast read or malformed request costs an event. */
  ghost predicate NoneLeaks(c: Config, s: State, turns: seq<Turn>) {
    forall k :: 0 <= k < |turns| && turns[k].step.Receive? ==>
      var s1, r := Serve(c, s, turns[..k]).s, turns[k].step.r;
      !BroadcastRead(c, s1, turns[k].w, r) && !MalformedOver(s1, r)
  }

  /** With unsolicited reporting off there is no gap, and nothing is ever held back. */
  lemma {:induction false} OffKeeps(c: Config, s: State, turns: seq<Turn>, m: Marks) returns (m': Marks)
    requires ValidCodec(c.codec) && Safe(s, [], m) && NoneLeaks(c, s, turns)
    requires !c.pace.enabled && s.u.kept.None? && !s.u.awaiting && s.deferred.None?
    ensures var out := Serve(c, s, turns); Safe(out.s, out.io, m') && !out.s.u.awaiting && out.s.deferred.None?
  {
    hide Safe, ValidCodec, Do, GapRead, BroadcastRead, MalformedOver;
    m' := m;
    if turns != [] {
      var init, t := turns[..|turns| - 1], turns[|turns| - 1];
      assert forall k :: 0 <= k < |init| ==> init[..k] == turns[..k];
      m' := OffKeeps(c, s, init, m);
      var before := Serve(c, s, init);
      UnsolicitedOffRun(c, s, init);
      if t.step.Receive? && GapRead(c, before.s, t.w, t.step.r) {
        GapIsUnsolicited(c, before.s, t.w, t.step.r, before.io, m');
      }
      m' := StepKeeps(c, before.s, t.w, t.step, before.io, m');
      OffStep(c, before.s, t.w, t.step);
    }
  }

  lemma OffStep(c: Config, s: State, w: World, step: Step)
    requires !c.pace.enabled && s.u.kept.None? && !s.u.awaiting && s.deferred.None?
    ensures var s' := Do(c, s, w, step).s; !s'.u.awaiting && s'.deferred.None?
  {
    hide AdvanceResponse, Handle, Raise, ReportEvents;
    match step
    case Receive(r) => HandleHoldsNothing(c, s, w, r);
    case Advance => AdvanceExcludes(c, s, w);
    case _ =>
  }

  /** With unsolicited reporting off, over every run without a broadcast read or a malformed
      request that costs an event: an event leaves only when a whole response that carried it was
      confirmed. */
  lemma SolicitedOnlyRuns(c: Config, buf: EB.Buffer, iin: set<Iin>, classes: set<EventClass>, turns: seq<Turn>)
    requires ValidCodec(c.codec) && EB.Valid(buf) && SelectedIds(buf.events) == {}
    requires !c.pace.enabled && NoneLeaks(c, Connected(buf, iin, classes), turns)
    ensures var out := Serve(c, Connected(buf, iin, classes), turns);
      && NothingLost(out.io)
      && (!SolEvents(out.s) ==> SelectedIds(out.s.buf.events) == {})
  {
    hide Serve, ValidCodec, NothingLost, EB.Valid, NoneLeaks, PendingShape, UnsolShape, LastShape, Marked;
    var s := Connected(buf, iin, classes);
    ConnectedSafe(buf, iin, classes);
    var m := OffKeeps(c, s, turns, Marks([], [], 0));
    UnsolicitedOffRun(c, s, turns);
  }

  // ---------- Without reads ----------

  ghost predicate Plain(bodies: seq<Body>) {
    forall i :: 0 <= i < |bodies| ==> bodies[i].carried == []
  }

  /** Nothing that answers a request carries an event, and no read is held back. */
  ghost predicate Eventless(s: State) {
    Plain(s.p.bodies) && Plain(s.last.bodies) && s.deferred.None? && !SolEvents(s) && !s.last.hasEvents
  }

  ghost predicate AnswersPlain(io: seq<Io>) {
    forall x :: x in io && SolicitedSent(x) ==> x.f.body.carried == []
  }

  lemma AdvancePlain(c: Config, s: State, w: World)
    requires Eventless(s)
    ensures var out := AdvanceResponse(c, s, w); Eventless(out.s) && AnswersPlain(out.io)
  {
    hide CurrentIin, EB.Confirm, SeqPlus;
  }

  lemma SendPlain(c: Config, s: State, w: World, r: Received, seqNo: SeqNum, bodies: seq<Body>, hasEvents: bool)
    requires Eventless(s) && Plain(bodies) && !hasEvents
    ensures var out := SendFragments(c, s, w, r, seqNo, bodies, hasEvents); Eventless(out.s) && AnswersPlain(out.io)
  {
    hide AdvanceResponse;
    AdvancePlain(c,
      s.(p := s.p.(bodies := bodies, index := 0, seqNo := seqNo, hasEvents := hasEvents),
         last := s.last.(bodies := bodies, hasEvents := hasEvents, errors := s.iin * REQUEST_ERRORS)), w);
  }

  lemma ExecutePlain(c: Config, s: State, w: World, r: Received, h: Header)
    requires Eventless(s) && h.func != FUNC_READ
    ensures var out := Execute(c, s, w, r, h); Eventless(out.s) && AnswersPlain(out.io)
  {
    hide SendFragments, Raise, NoReply, EB.Reset, EB.Unselect;
    var s1 := AbandonResponse(Remember(s, r));
    var s2 := if r.broadcast then s1.(iin := s1.iin + {Broadcast}, broadcastConfirm := r.mandatoryConfirm) else s1;
    if r.content.Effect? {
      var x := r.content;
      var s' := s2.(buf := Raise(if x.wipe then EB.Reset(s2.buf) else s2.buf, x.raised), iin := s2.iin + x.errors,
                    unsolClasses := if x.classes.Some? then x.classes.value else s2.unsolClasses);
      SendPlain(c, s', w, r, h.seqNo, PlainBodies(x.reply), false);
    }
  }

  lemma HandlePlain(c: Config, s: State, w: World, r: Received)
    requires Eventless(s) && !IsRead(r.frag)
    ensures var out := Handle(c, s, w, r); Eventless(out.s) && AnswersPlain(out.io)
  {
    hide SendFragments, Execute, ParseRequestHeader, EB.Confirm, NoReply;
    var hdr := ParseRequestHeader(r.frag);
    var (_, s0) := DeferRead(s, r);
    if hdr.Some? {
      var h := hdr.value;
      ExecutePlain(c, s0, w, r, h);
      if r.content.Malformed? {
        SendPlain(c, s0.(iin := s0.iin + {r.content.error}), w, r, h.seqNo, [EMPTY_BODY], false);
      }
      var s1 := s0.(p := s0.p.(awaiting := false, bodies := [], index := 0), iin := s0.iin + s0.last.errors);
      SendPlain(c, s1, w, r, h.seqNo, s0.last.bodies, s0.last.hasEvents);
    }
  }

  lemma PollPlain(c: Config, s: State, w: World)
    requires Eventless(s)
    ensures var out := PollUnsolicited(c, s, w); Eventless(out.s) && AnswersPlain(out.io)
  {
    hide UF.FitCount, BuildEvents, CurrentIin, Done, EB.Select, EB.Discard, EB.Release, EB.Unselect;
  }

  lemma StepPlain(c: Config, s: State, w: World, step: Step)
    requires Eventless(s) && (step.Receive? ==> !IsRead(step.r.frag))
    ensures var out := Do(c, s, w, step); Eventless(out.s) && AnswersPlain(out.io)
  {
    hide Handle, AdvanceResponse, PollUnsolicited, Raise, IsRead;
    match step
    case Receive(r) => HandlePlain(c, s, w, r);
    case Advance => AdvancePlain(c, s, w);
    case UnsolicitedTick => PollPlain(c, s, w);
    case _ =>
  }

  ghost predicate NoReads(turns: seq<Turn>) {
    forall k :: 0 <= k < |turns| && turns[k].step.Receive? ==> !IsRead(turns[k].step.r.frag)
  }

  lemma {:induction false} RunPlain(c: Config, s: State, turns: seq<Turn>)
    requires Eventless(s) && NoReads(turns)
    ensures var out := Serve(c, s, turns); Eventless(out.s) && AnswersPlain(out.io)
  {
    hide Do, Eventless, IsRead;
    if turns != [] {
      RunPlain(c, s, turns[..|turns| - 1]);
      var t := turns[|turns| - 1];
      StepPlain(c, Serve(c, s, turns[..|turns| - 1]).s, t.w, t.step);
    }
  }

  lemma {:induction false} PlainCarriesNothing(bodies: seq<Body>)
    requires Plain(bodies)
    ensures Carried(bodies) == []
  {
    if bodies != [] { PlainCarriesNothing(bodies[..|bodies| - 1]); }
  }

  /** No solicited response justifies a removal when none carries an event. */
  lemma NoSolicitedProof(io: seq<Io>, num: nat, bodies: seq<Body>, seqNo: SeqNum, sentAt: seq<nat>, ackAt: seq<nat>)
    requires AnswersPlain(io)
    ensures !SolicitedProof(io, num, bodies, seqNo, sentAt, ackAt)
  {
    hide Carried, AloneSince;
    if SolicitedProof(io, num, bodies, seqNo, sentAt, ackAt) {
      forall i | 0 <= i < |bodies| ensures bodies[i].carried == [] {
        assert io[sentAt[i]] in io && FragmentOf(io[sentAt[i]].f, bodies, seqNo, i);
      }
      PlainCarriesNothing(bodies);
    }
  }

  /** Without reads no request costs an event. */
  lemma NoReadsInScope(c: Config, s: State, turns: seq<Turn>)
    requires Eventless(s) && NoReads(turns)
    ensures RunInScope(c, s, turns)
  {
    hide IsRead, ParseRequestHeader, ReadBuilt, AnswersEvents, AnsweredMalformed, Carried;
    forall k | 0 <= k < |turns| ensures StepInScope(c, Serve(c, s, turns[..k]).s, turns[k]) {
      RunPlain(c, s, turns[..k]);
    }
  }

  /** Over every run without reads, whatever else arrives, an event leaves only when the unsolicited
      response last sent carried it and has just been confirmed under its own number. */
  lemma UnsolicitedOnlyRuns(c: Config, buf: EB.Buffer, iin: set<Iin>, classes: set<EventClass>, turns: seq<Turn>)
    requires ValidCodec(c.codec) && EB.Valid(buf) && SelectedIds(buf.events) == {} && NoReads(turns)
    ensures var io := Serve(c, Connected(buf, iin, classes), turns).io;
      forall k, num :: 0 <= k < |io| && io[k].Removed? && num in io[k].nums ==>
        exists sentAt :: UnsolicitedProof(io[..k], num, sentAt)
  {
    hide Serve, ValidCodec, EB.Valid, IsRead, SolicitedProof, UnsolicitedProof, RunInScope;
    var s := Connected(buf, iin, classes);
    NoReadsInScope(c, s, turns);
    EventsAreNeverLost(c, buf, iin, classes, turns);
    RunPlain(c, s, turns);
    var io := Serve(c, s, turns).io;
    forall k, num | 0 <= k < |io| && io[k].Removed? && num in io[k].nums
      ensures exists sentAt :: UnsolicitedProof(io[..k], num, sentAt)
    {
      assert Justified(io[..k], num);
      assert AnswersPlain(io[..k]);
      forall bodies, seqNo, sentAt, ackAt ensures !SolicitedProof(io[..k], num, bodies, seqNo, sentAt, ackAt) {
        NoSolicitedProof(io[..k], num, bodies, seqNo, sentAt, ackAt);
      }
    }
  }

  lemma SafeSelection(s: State, io: seq<Io>, m: Marks)
    requires Safe(s, io, m)
    ensures SelectionOwned(s) && PendingShape(s.p)
  {
  }
}
