/** A connection that drops and is made again: what the outstation session forgets, and which
    events that loses. */
module Reconnection {
  import opened Protocol
  import opened Events
  import opened ObjectTable
  import opened EventFragments
  import opened Unsolicited
  import opened Outstation
  import opened OutstationRuns
  import opened OutstationSafety
  import opened OutstationLimits
  import EB = EventBuffers

  /** What a new connection starts from: no request to repeat, no read held back and nothing
      unsolicited. The buffer and a response in progress are left as they are. */
  function Reconnected(s: State): State {
    s.(last := s.last.(valid := false), deferred := None, u := Reset())
  }

  /** The events a response was to carry that nothing now answers for. */
  predicate Orphans(s: State) {
    !SolEvents(s) && SelectedIds(s.buf.events) != {}
  }

  lemma AbandonsOrphans(s: State, u: Unsol<Body>)
    requires EB.Valid(s.buf)
    ensures SelectedIds(AbandonResponse(Reconnected(s).(u := u)).buf.events) == {} <==> !Orphans(s)
  {
    hide EB.Valid, EB.Unselect;
    UnselectClears(s.buf);
  }

  /** A connection drops in any state reached without loss, and another is made. However its
      unsolicited exchange has gone since, once the next response is confirmed, to a read or
      unsolicited, an event has been lost if and only if one was selected, when the connection
      dropped, for an unsolicited response: it was never confirmed, and no longer is anybody's. */
  lemma ReconnectLoses(
    c: Config, s: State, io: seq<Io>, m: Marks, u: Unsol<Body>, io': seq<Io>, w: World, x: Following)
    requires Safe(s, io, m) && NothingLost(io') && Able(c, Reconnected(s).(u := u), w, x)
    ensures var s' := Reconnected(s).(u := u);
      && (NothingLost(io' + Serve(c, s', LaterTurns(c, s', w, x)).io) <==> !Orphans(s))
      && (Orphans(s) ==> UnsEvents(s) && SelectedIds(s.buf.events) <= Ids(s.u.kept.value.carried))
  {
    hide Serve, NothingLost, Handle, LaterTurns, Able, EB.Valid, Marked, UnsolShape, LastShape, AbandonResponse;
    AbandonsOrphans(s, u);
    LaterLoses(c, Reconnected(s).(u := u), w, x, io');
  }

  // ---------- A run ----------

  lemma {:induction false} NoneRemoved(io: seq<Io>, more: seq<Io>)
    requires NothingLost(io) && forall x :: x in more ==> !x.Removed?
    ensures NothingLost(io + more)
  {
    hide NothingLost;
    if more == [] {
      assert io + more == io;
    } else {
      var init, x := more[..|more| - 1], more[|more| - 1];
      NoneRemoved(io, init);
      NothingLostIff(io + init, x);
      assert x in more && io + init + [x] == io + more;
    }
  }

  /** Announcing itself again removes nothing. */
  lemma AnnouncedQuietly(c: Config, s: State)
    requires Reports(c) && s.u == Reset() && s.p.bodies == [] && s.deferred.None?
    ensures var first := PollUnsolicited(c, s, QUIET);
      var ack := Handle(c, first.s, QUIET, ConfirmMessage(1, true, 1));
      && (forall x :: x in first.io ==> !x.Removed?) && (forall x :: x in ack.io ==> !x.Removed?)
      && ack.s == s.(u := ack.s.u)
  {
    hide ParseRequestHeader, CurrentIin, EB.Confirm;
    ConfirmParses(1, true, 1);
  }

  const AGAIN: seq<Turn> := [Turn(QUIET, UnsolicitedTick), Turn(QUIET, Receive(ConfirmMessage(1, true, 1)))]

  lemma ServeTwo(c: Config, s: State)
    ensures var first := PollUnsolicited(c, s, QUIET);
      var ack := Handle(c, first.s, QUIET, ConfirmMessage(1, true, 1));
      Serve(c, s, AGAIN) == Out(ack.s, first.io + ack.io)
  {
    hide PollUnsolicited, Handle, ConfirmMessage, Serve;
    var first := PollUnsolicited(c, s, QUIET);
    var ack := Handle(c, first.s, QUIET, ConfirmMessage(1, true, 1));
    assert AGAIN == [AGAIN[0]] + AGAIN[1..] && AGAIN[1..] == [AGAIN[1]] + [];
    ServeCons(c, s, AGAIN[0], AGAIN[1..]);
    ServeCons(c, first.s, AGAIN[1], []);
    ServeNone(c, ack.s, []);
    assert ack.io + [] == ack.io;
  }

  /** A run of any reporting outstation, over two connections, in which an event sent once and
      never confirmed is lost. */
  lemma ReconnectLosesOne(c: Config) returns (before: seq<Turn>, after: seq<Turn>)
    requires Reports(c) && ValidCodec(c.codec) && Roomy(c)
    ensures var first := Serve(c, Connected(EB.Empty(2), {}, {Class1}), before);
      !NothingLost(first.io + Serve(c, Reconnected(first.s), after).io)
  {
    hide Serve, NothingLost, Handle, PollUnsolicited, Waits, EB.Valid, AnsweredTurns, ReadBuilt, ValidCodec, Marked,
         UnsolShape,
         LastShape, AbandonResponse;
    var start := Connected(EB.Empty(2), {}, {Class1});
    before := ToTheGap(c);
    var first := Serve(c, start, before);
    ReachesTheGap(c);
    EmptySafe();
    GapInScope(c, start);
    var m := ServeKeeps(c, start, before, Marks([], [], 0));
    var s1 := Reconnected(first.s);
    AnnouncedQuietly(c, s1);
    Announced(c, s1);
    ServeTwo(c, s1);
    var again := Serve(c, s1, AGAIN);
    NoneRemoved(first.io, again.io);
    var r, h := ReadOf(1, 0, Class2, false), Header(true, true, false, false, 0, FUNC_READ);
    ReadParses(1, 0, Class2, false);
    assert again.s == Reconnected(first.s).(u := again.s.u);
    assert AbandonResponse(again.s).buf == first.s.buf by { NothingToAbandon(again.s); }
    WaitingSent(c, again.s, QUIET, r, Class2);
    ReconnectLoses(c, first.s, first.io, m, again.s.u, first.io + again.io, QUIET, ByRead(r, h));
    var rest := AnsweredTurns(c, again.s, QUIET, r, 0);
    ServeConcat(c, s1, AGAIN, rest);
    after := AGAIN + rest;
    assert first.io + (again.io + Serve(c, again.s, rest).io) == first.io + again.io + Serve(c, again.s, rest).io;
  }

  lemma NothingToAbandon(s: State)
    requires s.p.bodies == []
    ensures AbandonResponse(s).buf == s.buf
  {
  }
}
