/** How the master takes a response that comes in several fragments: which it accepts, which it
    discards and which it confirms, whoever is sending. */
module ResponseSeries {
  import opened Protocol
  import opened EventFragments
  import opened Outstation

  datatype Outcome = Waiting | Complete | Failed

  /** The request in flight, as far as its response is concerned. */
  datatype Series = Series(seqNo: SeqNum, started: bool, respSeq: SeqNum, delivered: seq<Fragment>, outcome: Outcome)

  /** A request just sent under a number. */
  function Begin(seqNo: SeqNum): Series {
    Series(seqNo, false, 0, [], Waiting)
  }

  datatype Verdict = Stale | Repeat | Next

  /** Where a fragment stands in the series: the first must begin it, a later one must follow
      the last accepted, and one carrying that one's number repeats it. */
  function Judge(t: Series, f: Fragment): Verdict {
    if !t.started || f.fir then
      if f.seqNo != t.seqNo then Stale
      else if !t.started && f.fir then Next
      else Repeat
    else if f.seqNo == t.respSeq then Repeat
    else if f.seqNo == SeqPlus(t.respSeq, 1) then Next
    else Stale
  }

  datatype Reply = Reply(t: Series, confirm: Option<SeqNum>)

  /** A solicited fragment arrives. A repeat is confirmed again but not delivered. */
  function OnSolicited(t: Series, f: Fragment): Reply {
    if !t.outcome.Waiting? then Reply(t, None)
    else
      var confirm := if f.con then Some(f.seqNo) else None;
      match Judge(t, f)
      case Stale => Reply(t, None)
      case Repeat => Reply(t, confirm)
      case Next =>
        Reply(t.(started := true, respSeq := f.seqNo, delivered := t.delivered + [f],
                 outcome := if f.fin then Complete else Waiting), confirm)
  }

  /** What may happen to a request in flight. `Garbled` is a response that does not parse,
      under the number in its header. */
  datatype Input = Arrives(f: Fragment) | Garbled(seqNo: SeqNum) | TimesOut

  function Take(t: Series, x: Input): Series {
    if !t.outcome.Waiting? then t
    else
      match x
      case Arrives(f) => OnSolicited(t, f).t
      case Garbled(seqNo) => if seqNo == t.seqNo then t.(outcome := Failed) else t
      case TimesOut => t.(outcome := Failed)
  }

  function TakeAll(t: Series, xs: seq<Input>): Series {
    if xs == [] then t else Take(TakeAll(t, xs[..|xs| - 1]), xs[|xs| - 1])
  }

  /** A series: consecutive numbers from the request's, FIR on the first and only there, FIN on
      nothing but the last, and the request complete exactly when that one arrived. */
  ghost predicate InSeries(t: Series) {
    && (forall i :: 0 <= i < |t.delivered| ==>
          && t.delivered[i].seqNo == SeqPlus(t.seqNo, i)
          && (t.delivered[i].fir <==> i == 0)
          && (t.delivered[i].fin ==> i == |t.delivered| - 1))
    && (t.outcome.Complete? <==> t.delivered != [] && t.delivered[|t.delivered| - 1].fin)
    && t.started == (t.delivered != [])
    && (t.started ==> t.respSeq == t.delivered[|t.delivered| - 1].seqNo)
  }

  lemma SeqSuccessor(s: SeqNum, k: nat)
    ensures SeqPlus(SeqPlus(s, k), 1) == SeqPlus(s, k + 1)
  {
  }

  lemma OnSolicitedKeeps(t: Series, f: Fragment)
    requires InSeries(t)
    ensures InSeries(OnSolicited(t, f).t)
  {
    if t.outcome.Waiting? && Judge(t, f).Next? && t.started {
      SeqSuccessor(t.seqNo, |t.delivered| - 1);
    }
  }

  /** Whatever the peer sends, in whatever order, the fragments accepted for a request form a
      series, and only a FIN accepted into it completes the request. */
  lemma {:induction false} AcceptedFormASeries(seqNo: SeqNum, xs: seq<Input>)
    ensures InSeries(TakeAll(Begin(seqNo), xs)) && TakeAll(Begin(seqNo), xs).seqNo == seqNo
  {
    hide InSeries, Judge;
    if xs == [] {
      BeginInSeries(seqNo);
    } else {
      AcceptedFormASeries(seqNo, xs[..|xs| - 1]);
      TakeKeeps(TakeAll(Begin(seqNo), xs[..|xs| - 1]), xs[|xs| - 1]);
    }
  }

  /** The confirmations the master sends on the way. */
  function Confirms(t: Series, xs: seq<Input>): seq<SeqNum> {
    if xs == [] then []
    else
      var before, t', x := Confirms(t, xs[..|xs| - 1]), TakeAll(t, xs[..|xs| - 1]), xs[|xs| - 1];
      if x.Arrives? && OnSolicited(t', x.f).confirm.Some? then before + [OnSolicited(t', x.f).confirm.value] else before
  }

  /** What leaves a request as it was when it was sent, and unanswered: anything under another
      number, and a later fragment that asks for no confirmation. */
  predicate Passes(seqNo: SeqNum, x: Input) {
    match x
    case Arrives(f) => f.seqNo != seqNo || (!f.fir && !f.con)
    case Garbled(n) => n != seqNo
    case TimesOut => false
  }

  lemma NeverBack(t: Series, x: Input, seqNo: SeqNum)
    ensures Take(t, x) == Begin(seqNo) && (x.Arrives? ==> OnSolicited(t, x.f).confirm.None?) <==>
            t == Begin(seqNo) && Passes(seqNo, x)
  {
  }

  /** What is left over from earlier exchanges does nothing to a new request, and makes the master
      confirm nothing, if and only if none of it is under the new request's number and either a
      first fragment, or one that asks for a confirmation, or garbled. */
  lemma {:induction false} StaleDoesNothingIff(seqNo: SeqNum, xs: seq<Input>)
    ensures TakeAll(Begin(seqNo), xs) == Begin(seqNo) && Confirms(Begin(seqNo), xs) == [] <==>
            forall i :: 0 <= i < |xs| ==> Passes(seqNo, xs[i])
  {
    hide Take, Passes, OnSolicited;
    if xs != [] {
      var init, x := xs[..|xs| - 1], xs[|xs| - 1];
      var t := TakeAll(Begin(seqNo), init);
      StaleDoesNothingIff(seqNo, init);
      NeverBack(t, x, seqNo);
      if (forall i :: 0 <= i < |init| ==> Passes(seqNo, init[i])) && Passes(seqNo, x) {
        forall i | 0 <= i < |xs| ensures Passes(seqNo, xs[i]) { if i < |init| { assert Passes(seqNo, init[i]); } }
      }
      if forall i :: 0 <= i < |xs| ==> Passes(seqNo, xs[i]) {
        forall i | 0 <= i < |init| ensures Passes(seqNo, init[i]) { assert Passes(seqNo, xs[i]); }
        assert Passes(seqNo, xs[|xs| - 1]);
      }
    }
  }

  /** A first fragment that is under its number is delivered as the start of the answer, and a later
      one that asks for a confirmation is given it and not delivered. */
  lemma StaleTaken(seqNo: SeqNum, stale: seq<Input>, f: Fragment)
    requires (forall i :: 0 <= i < |stale| ==> Passes(seqNo, stale[i])) && !Passes(seqNo, Arrives(f))
    ensures var all := stale + [Arrives(f)];
      && TakeAll(Begin(seqNo), all).delivered == (if f.fir then [f] else [])
      && Confirms(Begin(seqNo), all) == if f.con then [seqNo] else []
  {
    StaleDoesNothingIff(seqNo, stale);
    assert (stale + [Arrives(f)])[..|stale|] == stale;
    assert [] + [f] == [f];
    assert [] + [seqNo] == [seqNo];
  }

  lemma BeginInSeries(seqNo: SeqNum)
    ensures InSeries(Begin(seqNo))
  {
  }

  lemma TakeKeeps(t: Series, x: Input)
    requires InSeries(t)
    ensures InSeries(Take(t, x)) && Take(t, x).seqNo == t.seqNo
  {
    if t.outcome.Waiting? && x.Arrives? { OnSolicitedKeeps(t, x.f); }
  }
}

/** One exchange of the master with this outstation: the whole outstation session on one side,
    the series on the other, and a channel each way that keeps order and may lose or repeat. */
module Exchange {
  import opened Protocol
  import opened EventFragments
  import opened Outstation
  import opened ResponseSeries
  import opened Events
  import EB = EventBuffers
  import UF = UnsolicitedFit
  import U = Unsolicited

  // ---------- The two ends and the channels ----------

  /** A fragment on its way down. `i` is its place in the response; neither end reads it. */
  datatype Down = Down(f: Fragment, i: nat)

  /** What the master sends: the request, then confirmations. */
  datatype Up = Ask | Confirm(seqNo: SeqNum, i: nat)

  datatype System = System(s: State, t: Series, down: seq<Down>, up: seq<Up>, top: nat)

  /** The request as the outstation receives it: one the master would build, unicast and well
      formed, and not a confirmation. */
  predicate IsRequest(ask: Received, seqNo: SeqNum) {
    var h := ParseRequestHeader(ask.frag);
    && h.Some? && h.value.fir && h.value.fin && !h.value.con && !h.value.uns
    && h.value.seqNo == seqNo && h.value.func != FUNC_CONFIRM && !IsResponse(h.value.func)
    && !ask.broadcast && !ask.content.Malformed?
  }

  function Solicited(io: seq<Io>): seq<Fragment> {
    if io == [] then []
    else
      var before := Solicited(io[..|io| - 1]);
      var x := io[|io| - 1];
      if x.Sent? && !x.f.uns then before + [x.f] else before
  }

  /** The fragments a step sent, each with its place: FIR restarts the response, and anything
      else is the one the session had reached. */
  function Placed(fs: seq<Fragment>, index: nat): seq<Down> {
    seq(|fs|, k requires 0 <= k < |fs| => Down(fs[k], if fs[k].fir then 0 else index))
  }

  function Max(a: nat, b: nat): nat {
    if a < b then b else a
  }

  /** One more than the highest place sent. */
  function Top(ds: seq<Down>, top: nat): nat {
    if ds == [] then top else Max(Top(ds[..|ds| - 1], top), ds[|ds| - 1].i + 1)
  }

  function After(y: System, out: Out): System {
    var ds := Placed(Solicited(out.io), y.s.p.index);
    y.(s := out.s, down := y.down + ds, top := Top(ds, y.top))
  }

  /** A message reaches the outstation, its ticker fires, the application updates it, or the
      master confirms something unsolicited; the three worlds are those of the three parts of a
      turn of the outstation's loop. */
  datatype Move =
    | OutstationReceives(w: World, w2: World, w3: World)
    | OutstationTicks(w: World, w2: World, w3: World)
    | OutstationUpdates(raised: seq<Event>)
    | UnsolicitedConfirmed(seqNo: SeqNum, w: World, w2: World, w3: World)
    | MasterReceives
    | MasterGivesUp
    | LoseDown(k: nat) | LoseUp(k: nat) | RepeatDown(k: nat) | RepeatUp(k: nat)

  function Dropped<T>(xs: seq<T>, k: nat): seq<T> {
    if k < |xs| then xs[..k] + xs[k + 1..] else xs
  }

  function Doubled<T>(xs: seq<T>, k: nat): seq<T> {
    if k < |xs| then xs[..k + 1] + xs[k..] else xs
  }

  function Served(c: Config, y: System, r: Received, w: World, w2: World, w3: World): System {
    var y1 := After(y, Handle(c, y.s, w, r));
    var y2 := After(y1, AdvanceResponse(c, y1.s, w2));
    After(y2, ResumeDeferredRead(c, y2.s, w3))
  }

  function Ticked(c: Config, y: System, w: World, w2: World, w3: World): System {
    var y1 := After(y, Out(CheckConfirmTimeout(y.s, w), []));
    var y2 := After(y1, PollUnsolicited(c, y1.s, w2));
    After(y2, ResumeDeferredRead(c, y2.s, w3))
  }

  function Next(c: Config, ask: Received, y: System, m: Move): System {
    match m
    case OutstationReceives(w, w2, w3) =>
      if y.up == [] then y
      else
        var r := if y.up[0].Ask? then ask else ConfirmMessage(ask.source, false, y.up[0].seqNo);
        Served(c, y.(up := y.up[1..]), r, w, w2, w3)
    case OutstationTicks(w, w2, w3) => Ticked(c, y, w, w2, w3)
    case OutstationUpdates(raised) => y.(s := y.s.(buf := Raise(y.s.buf, raised)))
    case UnsolicitedConfirmed(seqNo, w, w2, w3) =>
      Served(c, y, ConfirmMessage(ask.source, true, seqNo), w, w2, w3)
    case MasterReceives =>
      if y.down == [] then y
      else
        var d := y.down[0];
        var r := OnSolicited(y.t, d.f);
        y.(t := r.t, down := y.down[1..],
           up := y.up + if r.confirm.Some? then [Confirm(r.confirm.value, d.i)] else [])
    case MasterGivesUp => y.(t := Take(y.t, TimesOut))
    case LoseDown(k) => y.(down := Dropped(y.down, k))
    case LoseUp(k) => y.(up := Dropped(y.up, k))
    case RepeatDown(k) => y.(down := Doubled(y.down, k))
    case RepeatUp(k) => y.(up := Doubled(y.up, k))
  }

  function Reached(c: Config, ask: Received, y: System, ms: seq<Move>): System {
    if ms == [] then y else Next(c, ask, Reached(c, ask, y, ms[..|ms| - 1]), ms[|ms| - 1])
  }

  /** An exchange begins: the request has just been sent, the channels hold nothing else, and
      the outstation is neither part way through sending an older response nor holding an older
      read, and did not last act on this very request. */
  predicate Starts(y: System, ask: Received, seqNo: SeqNum) {
    && IsRequest(ask, seqNo)
    && y.t == Begin(seqNo) && y.down == [] && y.up == [Ask] && y.top == 0
    && (if y.s.p.bodies == [] then !y.s.p.awaiting else y.s.p.awaiting)
    && y.s.deferred.None? && !IsRepeat(y.s, ask)
  }

  // ---------- What each step of the outstation sends ----------

  ghost predicate Piece(bodies: seq<Body>, seqNo: SeqNum, i: nat, f: Fragment) {
    && i < |bodies| && f.body == bodies[i] && f.seqNo == SeqPlus(seqNo, i)
    && (f.fir <==> i == 0) && (f.fin <==> i == |bodies| - 1) && (!f.fin ==> f.con)
  }

  predicate Idle(p: Pending) {
    p.bodies == [] && !p.awaiting
  }

  /** The response moved on by at most one fragment. */
  ghost predicate Advanced(p: Pending, busy: bool, p': Pending, fs: seq<Fragment>) {
    if p.bodies == [] || p.awaiting || busy then p' == p && fs == []
    else if p.index >= |p.bodies| then Idle(p') && fs == []
    else
      && |fs| == 1 && Piece(p.bodies, p.seqNo, p.index, fs[0])
      && (if fs[0].con then
            p' == p.(index := p.index + 1, awaiting := true, confirmSeq := fs[0].seqNo, deadline := p'.deadline)
          else fs[0].fin && Idle(p'))
  }

  lemma SolicitedOne(x: Io)
    ensures Solicited([x]) == if x.Sent? && !x.f.uns then [x.f] else []
  {
    assert [x][..0] == [];
  }

  lemma {:induction false} SolicitedConcat(a: seq<Io>, b: seq<Io>)
    ensures Solicited(a + b) == Solicited(a) + Solicited(b)
  {
    if b == [] {
      assert a + b == a;
    } else {
      SolicitedConcat(a, b[..|b| - 1]);
      assert (a + b)[..|a + b| - 1] == a + b[..|b| - 1];
    }
  }

  /** The rest of what the exchange depends on is as it was. */
  predicate SameRest(s: State, s': State) {
    s'.last == s.last && s'.deferred == s.deferred && s'.u == s.u
  }

  lemma FinishShape(s: State)
    requires !s.p.awaiting
    ensures var out := FinishResponse(s);
      Idle(out.s.p) && Solicited(out.io) == [] && SameRest(s, out.s)
  {
    hide EB.Confirm;
    if s.p.hasEvents { SolicitedOne(Removed(Events.SelectedIds(s.buf.events))); }
  }

  lemma AdvanceShape(c: Config, s: State, w: World)
    ensures var out := AdvanceResponse(c, s, w);
      Advanced(s.p, w.busy, out.s.p, Solicited(out.io)) && SameRest(s, out.s)
  {
    hide CurrentIin, FinishResponse;
    var out := AdvanceResponse(c, s, w);
    if s.p.bodies == [] || s.p.awaiting || w.busy {
    } else if s.p.index >= |s.p.bodies| {
      FinishShape(s);
    } else {
      var next := s.(p := s.p.(index := s.p.index + 1));
      FinishShape(next);
      SolicitedOne(out.io[0]);
      if !out.io[0].f.con { SolicitedConcat([out.io[0]], FinishResponse(next).io); }
    }
  }

  /** A response to the request started, or started again, from its first fragment. */
  ghost predicate Launched(bodies: seq<Body>, seqNo: SeqNum, busy: bool, p: Pending, fs: seq<Fragment>) {
    if bodies == [] then Idle(p) && fs == []
    else if busy then p.bodies == bodies && p.seqNo == seqNo && p.index == 0 && !p.awaiting && fs == []
    else
      && |fs| == 1 && Piece(bodies, seqNo, 0, fs[0])
      && (if fs[0].con then
            p.bodies == bodies && p.seqNo == seqNo && p.index == 1 && p.awaiting && p.confirmSeq == fs[0].seqNo
          else fs[0].fin && Idle(p))
  }

  lemma SendShape(c: Config, s: State, w: World, ask: Received, seqNo: SeqNum, bodies: seq<Body>, hasEvents: bool)
    requires !ask.broadcast && !s.p.awaiting
    ensures var out := SendFragments(c, s, w, ask, seqNo, bodies, hasEvents);
      && Launched(bodies, seqNo, w.busy, out.s.p, Solicited(out.io))
      && out.s.last.bodies == bodies && out.s.deferred == s.deferred && out.s.u == s.u
      && out.s.last.valid == s.last.valid && out.s.last.source == s.last.source && out.s.last.frag == s.last.frag
  {
    hide AdvanceResponse;
    var s' := s.(p := s.p.(bodies := bodies, index := 0, seqNo := seqNo, hasEvents := hasEvents),
                 last := s.last.(bodies := bodies, hasEvents := hasEvents, errors := s.iin * REQUEST_ERRORS));
    AdvanceShape(c, s', w);
  }

  /** What the request does when it is not held back: answers, from the first fragment, with
      the bodies now stored for it, or leaves everything as it was when nothing is stored. */
  ghost predicate Answered(s: State, ask: Received, seqNo: SeqNum, busy: bool, out: Out) {
    && IsRepeat(out.s, ask) && out.s.deferred == s.deferred && out.s.u == s.u
    && (IsRepeat(s, ask) ==> out.s.last.bodies == s.last.bodies)
    && (if IsRepeat(s, ask) && s.last.bodies == [] then out.s.p == s.p && Solicited(out.io) == []
        else Launched(out.s.last.bodies, seqNo, busy, out.s.p, Solicited(out.io)))
  }

  ghost predicate Settled(p: Pending) {
    p.bodies == [] ==> !p.awaiting
  }

  lemma ExecuteShape(c: Config, s: State, w: World, ask: Received, h: Header)
    requires Settled(s.p) && !ask.broadcast
    ensures var out := Execute(c, s, w, ask, h);
      && IsRepeat(out.s, ask) && out.s.deferred == s.deferred && out.s.u == s.u
      && Launched(out.s.last.bodies, h.seqNo, w.busy, out.s.p, Solicited(out.io))
  {
    hide SendFragments, Launched, SelectItems, BuildEvents, ApplyOps, EB.Unselect, EB.Discard, Raise, EB.Reset,
         Solicited;
    var s1 := AbandonResponse(Remember(s, ask));
    IdleIsLaunched(s1.p, h.seqNo, w.busy);
    if ask.content.EventRead? && h.func == FUNC_READ {
      var sel := SelectItems(s1.buf, ask.content.items);
      var built := BuildEvents(EnvOf(c, s1, w), NewBuilder(c.maxTx), sel.events);
      var buf := if sel.events == [] then sel.buf else EB.Discard(sel.buf, built.unsent);
      SendShape(c, s1.(buf := buf, iin := s1.iin + ask.content.errors), w, ask, h.seqNo,
                Done(ApplyOps(built.b, ask.content.later)), |built.unsent| < |sel.events|);
    } else if ask.content.Effect? {
      var x := ask.content;
      var s' := s1.(buf := Raise(if x.wipe then EB.Reset(s1.buf) else s1.buf, x.raised), iin := s1.iin + x.errors,
                    unsolClasses := if x.classes.Some? then x.classes.value else s1.unsolClasses);
      SendShape(c, s', w, ask, h.seqNo, PlainBodies(x.reply), false);
    }
  }

  lemma IdleIsLaunched(p: Pending, seqNo: SeqNum, busy: bool)
    requires Idle(p)
    ensures Launched([], seqNo, busy, p, []) && Solicited([]) == []
  {
  }

  /** What is not a solicited fragment adds nothing. */
  lemma SolicitedAfter(x: Io, io: seq<Io>)
    requires !x.Sent?
    ensures Solicited([x] + io) == Solicited(io)
  {
    SolicitedOne(x);
    SolicitedConcat([x], io);
  }

  lemma DispatchShape(c: Config, s: State, w: World, ask: Received, seqNo: SeqNum)
    requires IsRequest(ask, seqNo) && Settled(s.p)
    ensures Answered(s, ask, seqNo, w.busy, Dispatch(c, s, w, ask))
  {
    hide Execute, SendFragments, Launched, Solicited, OnConfirm, OnUnsolicitedConfirm, RejectMalformed;
    var h := ParseRequestHeader(ask.frag).value;
    var asked := Asked(ask.source, ask.frag);
    SolicitedNone();
    if IsRepeat(s, ask) {
      SolicitedAfter(asked, ReplayResponse(c, s, w, ask, h.seqNo).io);
      if s.last.bodies != [] {
        SendShape(c, s.(p := s.p.(awaiting := false, bodies := [], index := 0), iin := s.iin + s.last.errors),
                  w, ask, h.seqNo, s.last.bodies, s.last.hasEvents);
      }
    } else {
      var run := Executed(ask.source, ask.frag);
      var io := Execute(c, s, w, ask, h).io;
      SolicitedAfter(run, io);
      SolicitedAfter(asked, [run] + io);
      assert [asked] + ([run] + io) == [asked, run] + io;
      ExecuteShape(c, s, w, ask, h);
    }
  }

  lemma SolicitedNone()
    ensures Solicited([]) == []
  {
  }

  /** A confirmation: taken if it names the fragment awaited, and ignored otherwise. */
  lemma ConfirmShape(c: Config, s: State, w: World, ask: Received, seqNo: SeqNum)
    ensures var out := Handle(c, s, w, ConfirmMessage(ask.source, false, seqNo));
      && Solicited(out.io) == [] && SameRest(s, out.s)
      && (if !s.p.awaiting || seqNo != s.p.confirmSeq then out.s.p == s.p
          else if s.p.index >= |s.p.bodies| then Idle(out.s.p)
          else out.s.p == s.p.(awaiting := false))
  {
    hide Solicited, FinishResponse, ParseRequestHeader;
    ConfirmParses(ask.source, false, seqNo);
    SolicitedNone();
    SolicitedAfter(GotConfirm(false, seqNo), OnConfirm(s, seqNo).io);
    FinishShape(s.(p := s.p.(awaiting := false)));
  }

  lemma UnsolicitedConfirmShape(c: Config, s: State, w: World, ask: Received, seqNo: SeqNum)
    ensures var out := Handle(c, s, w, ConfirmMessage(ask.source, true, seqNo));
      && Solicited(out.io) == [] && out.s.p == s.p && out.s.last == s.last && out.s.deferred == s.deferred
      && (out.s.u.awaiting ==> s.u.awaiting)
  {
    hide Solicited, ParseRequestHeader, EB.Confirm;
    ConfirmParses(ask.source, true, seqNo);
    SolicitedNone();
    var io := OnUnsolicitedConfirm(s, seqNo).io;
    SolicitedAfter(GotConfirm(true, seqNo), io);
    if io != [] { SolicitedOne(io[0]); }
  }

  /** The request, held back behind an unsolicited response or answered. */
  lemma AskShape(c: Config, s: State, w: World, ask: Received, seqNo: SeqNum)
    requires IsRequest(ask, seqNo) && Settled(s.p) && (s.deferred.Some? ==> s.u.awaiting)
    ensures var out := Handle(c, s, w, ask);
      if s.u.awaiting && IsRead(ask) then out == Out(s.(deferred := Some(ask)), [])
      else Answered(s.(deferred := None), ask, seqNo, w.busy, out)
  {
    hide Answered, Dispatch, ParseRequestHeader;
    assert s.deferred.None? ==> s == s.(deferred := None);
    DispatchShape(c, s.(deferred := None), w, ask, seqNo);
  }

  predicate IsRead(ask: Received) {
    var h := ParseRequestHeader(ask.frag);
    h.Some? && h.value.func == FUNC_READ
  }

  /** A response just started moves no further in the same turn. */
  lemma ResumeShape(c: Config, s: State, w: World, ask: Received, seqNo: SeqNum)
    requires IsRequest(ask, seqNo) && Settled(s.p) && s.deferred == Some(ask) && !s.u.awaiting
    requires IsRepeat(s, ask) ==> Idle(s.p)
    ensures Answered(s.(deferred := None), ask, seqNo, w.busy, ResumeDeferredRead(c, s, w))
  {
    hide AdvanceResponse, Dispatch, ParseRequestHeader, Solicited;
    var s' := s.(deferred := None);
    var out := Handle(c, s', w, ask);
    assert out == Dispatch(c, s', w, ask);
    DispatchShape(c, s', w, ask, seqNo);
    AdvanceShape(c, out.s, w);
    var more := AdvanceResponse(c, out.s, w);
    assert more.s.p == out.s.p && Solicited(more.io) == [];
    SolicitedConcat(out.io, more.io);
  }

  lemma PollShape(c: Config, s: State, w: World)
    ensures var out := PollUnsolicited(c, s, w);
      && Solicited(out.io) == [] && out.s.p == s.p && out.s.last == s.last && out.s.deferred == s.deferred
      && (out.s.u.awaiting ==> s.u.awaiting || s.p.bodies == [])
  {
    hide EB.Select, EB.Taken, BuildEvents, UF.FitCount, EB.Discard, EB.Release, EB.Unselect, Done, HeldBack,
         CurrentIin, U.GivesUp;
    var out := PollUnsolicited(c, s, w);
    SolicitedNone();
    assert out.io == [] || (|out.io| == 1 && out.io[0].Sent? && out.io[0].f.uns);
    if out.io != [] {
      SolicitedOne(out.io[0]);
      assert out.io == [out.io[0]];
    }
  }

  // ---------- The invariant ----------

  /** The response to the request, once it has been carried out. */
  ghost function Answer(y: System, ask: Received): seq<Body> {
    if IsRepeat(y.s, ask) then y.s.last.bodies else []
  }

  function Place(u: Up): int {
    if u.Ask? then -1 else u.i
  }

  /** Where the outstation is: awaiting the confirmation of the furthest fragment it has sent,
      about to send the first, or done with all the master has taken. */
  ghost predicate At(p: Pending, seqNo: SeqNum, top: nat, n: nat, up: seq<Up>) {
    if p.awaiting then p.index == top >= 1 && p.confirmSeq == SeqPlus(seqNo, top - 1)
    else
      || (p.index == 0 && top <= 1)
      || (p.index == top >= 1 && n == top && forall k :: 0 <= k < |up| ==> Place(up[k]) >= top - 1)
  }

  ghost predicate SenderOk(y: System, ask: Received, seqNo: SeqNum) {
    var p, all, n := y.s.p, Answer(y, ask), |y.t.delivered|;
    && n <= y.top <= n + 1 && y.top <= |all|
    && Settled(p)
    && (y.s.deferred.Some? ==>
          y.s.deferred.value == ask && IsRead(ask) && y.top <= 1 && (IsRepeat(y.s, ask) ==> Idle(p)))
    && (IsRepeat(y.s, ask) && IsRead(ask) && p.bodies != [] ==> !y.s.u.awaiting)
    && (if !IsRepeat(y.s, ask) then p.bodies == [] || p.awaiting
        else Idle(p) || (p.bodies == all && all != [] && p.seqNo == seqNo && At(p, seqNo, y.top, n, y.up)))
  }

  /** Fragments in flight are pieces of the response, in order, and none is older than the last
      the master accepted. */
  ghost predicate DownOk(y: System, ask: Received, seqNo: SeqNum) {
    && (forall k :: 0 <= k < |y.down| ==>
          && |y.t.delivered| - 1 <= y.down[k].i < y.top
          && Piece(Answer(y, ask), seqNo, y.down[k].i, y.down[k].f))
    && (forall j, k :: 0 <= j < k < |y.down| ==> y.down[j].i <= y.down[k].i)
  }

  /** Messages going up are in order, and within two of the furthest fragment sent. */
  ghost predicate UpOk(y: System, seqNo: SeqNum) {
    && (forall k :: 0 <= k < |y.up| ==>
          && y.top - 2 <= Place(y.up[k]) < |y.t.delivered|
          && (y.up[k].Confirm? ==> y.up[k].seqNo == SeqPlus(seqNo, y.up[k].i)))
    && (forall j, k :: 0 <= j < k < |y.up| ==> Place(y.up[j]) <= Place(y.up[k]))
  }

  /** What the master has accepted is the beginning of the response. */
  ghost predicate MasterOk(y: System, ask: Received, seqNo: SeqNum) {
    var n := |y.t.delivered|;
    && y.t.seqNo == seqNo && InSeries(y.t)
    && (forall k :: 0 <= k < n ==> Piece(Answer(y, ask), seqNo, k, y.t.delivered[k]))
  }

  ghost predicate Inv(y: System, ask: Received, seqNo: SeqNum) {
    SenderOk(y, ask, seqNo) && DownOk(y, ask, seqNo) && UpOk(y, seqNo) && MasterOk(y, ask, seqNo)
  }

  /** Between turns a read held back is held behind an unsolicited response. */
  ghost predicate Parked(y: System) {
    y.s.deferred.Some? ==> y.s.u.awaiting
  }

  // ---------- The master keeps it ----------

  lemma SeqApart(s: SeqNum, a: nat, b: nat)
    requires a <= b < a + SEQ_MODULUS && SeqPlus(s, a) == SeqPlus(s, b)
    ensures a == b
  {
  }

  /** The head of the channel is either the last fragment accepted or the next one. */
  lemma HeadJudged(y: System, ask: Received, seqNo: SeqNum)
    requires Inv(y, ask, seqNo) && |y.down| > 0 && y.t.outcome.Waiting?
    ensures var n := |y.t.delivered|;
      && (y.down[0].i == n || y.down[0].i == n - 1)
      && Judge(y.t, y.down[0].f) == (if y.down[0].i == n then Verdict.Next else Verdict.Repeat)
  {
    hide IsRepeat, UpOk, At, Answer, Settled;
    var n, f := |y.t.delivered|, y.down[0].f;
    if y.t.started {
      SeqSuccessor(seqNo, n - 1);
      if y.down[0].i == n && f.seqNo == y.t.respSeq { SeqApart(seqNo, n - 1, n); }
    }
  }

  lemma MasterTakes(y: System, ask: Received, seqNo: SeqNum, c: Config)
    requires Inv(y, ask, seqNo) && |y.down| > 0
    ensures MasterOk(Next(c, ask, y, MasterReceives), ask, seqNo)
  {
    hide IsRepeat, UpOk, At, Settled, Judge, InSeries;
    OnSolicitedKeeps(y.t, y.down[0].f);
    if y.t.outcome.Waiting? { HeadJudged(y, ask, seqNo); }
  }

  lemma MasterReplies(y: System, ask: Received, seqNo: SeqNum, c: Config)
    requires Inv(y, ask, seqNo) && |y.down| > 0
    ensures var y' := Next(c, ask, y, MasterReceives); SenderOk(y', ask, seqNo) && DownOk(y', ask, seqNo) && UpOk(y', seqNo)
  {
    hide IsRepeat, Judge, InSeries, Idle, Settled;
    if y.t.outcome.Waiting? { HeadJudged(y, ask, seqNo); }
  }

  lemma MasterKeeps(c: Config, y: System, ask: Received, seqNo: SeqNum)
    requires Inv(y, ask, seqNo)
    ensures Inv(Next(c, ask, y, MasterReceives), ask, seqNo)
  {
    hide SenderOk, DownOk, UpOk, MasterOk, OnSolicited;
    if |y.down| > 0 {
      MasterTakes(y, ask, seqNo, c);
      MasterReplies(y, ask, seqNo, c);
    }
  }

  lemma GiveUpKeeps(c: Config, y: System, ask: Received, seqNo: SeqNum)
    requires Inv(y, ask, seqNo)
    ensures Inv(Next(c, ask, y, MasterGivesUp), ask, seqNo)
  {
    hide IsRepeat, At, Idle, Settled, Piece;
  }

  // ---------- The channels keep it ----------

  lemma LoseDownKeeps(c: Config, y: System, ask: Received, seqNo: SeqNum, k: nat)
    requires Inv(y, ask, seqNo)
    ensures Inv(Next(c, ask, y, LoseDown(k)), ask, seqNo)
  {
    hide IsRepeat, IsRead, Idle, Settled, Piece, InSeries, At;
  }

  lemma RepeatDownKeeps(c: Config, y: System, ask: Received, seqNo: SeqNum, k: nat)
    requires Inv(y, ask, seqNo)
    ensures Inv(Next(c, ask, y, RepeatDown(k)), ask, seqNo)
  {
    hide IsRepeat, IsRead, Idle, Settled, Piece, InSeries, At;
  }

  lemma LoseUpKeeps(c: Config, y: System, ask: Received, seqNo: SeqNum, k: nat)
    requires Inv(y, ask, seqNo)
    ensures Inv(Next(c, ask, y, LoseUp(k)), ask, seqNo)
  {
    hide IsRepeat, IsRead, Idle, Settled, Piece, InSeries;
  }

  lemma RepeatUpKeeps(c: Config, y: System, ask: Received, seqNo: SeqNum, k: nat)
    requires Inv(y, ask, seqNo)
    ensures Inv(Next(c, ask, y, RepeatUp(k)), ask, seqNo)
  {
    hide IsRepeat, IsRead, Idle, Settled, Piece, InSeries;
  }

  // ---------- The outstation keeps it ----------

  lemma AfterNone(y: System, out: Out)
    requires Solicited(out.io) == []
    ensures After(y, out) == y.(s := out.s)
  {
    hide Solicited;
    assert y.down + [] == y.down;
  }

  lemma AfterOne(y: System, out: Out, i: nat)
    requires |Solicited(out.io)| == 1 && i == (if Solicited(out.io)[0].fir then 0 else y.s.p.index)
    ensures After(y, out) == y.(s := out.s, down := y.down + [Down(Solicited(out.io)[0], i)], top := Max(y.top, i + 1))
  {
    hide Solicited;
    var d := Down(Solicited(out.io)[0], i);
    assert Placed(Solicited(out.io), y.s.p.index) == [d];
    assert [d][..0] == [];
    assert Top([d], y.top) == Max(Top([], y.top), i + 1);
  }

  /** A step that leaves the response alone, or drops it. */
  lemma QuietKeeps(y: System, ask: Received, seqNo: SeqNum, out: Out)
    requires Inv(y, ask, seqNo) && Solicited(out.io) == []
    requires out.s.last == y.s.last && out.s.deferred == y.s.deferred
    requires out.s.p == y.s.p || Idle(out.s.p)
    requires out.s.u.awaiting ==> y.s.u.awaiting || out.s.p.bodies == []
    ensures Inv(After(y, out), ask, seqNo)
  {
    hide Solicited, Piece, InSeries, At, After, IsRead;
    AfterNone(y, out);
  }

  /** Holding the request back: nothing of its response is in progress. */
  lemma HoldKeeps(y: System, ask: Received, seqNo: SeqNum)
    requires Inv(y, ask, seqNo) && IsRead(ask) && y.s.u.awaiting && y.top <= 1
    ensures var y' := After(y, Out(y.s.(deferred := Some(ask)), [])); Inv(y', ask, seqNo) && Parked(y')
  {
    hide Solicited, Piece, InSeries, At, After, IsRead;
    SolicitedNone();
    AfterNone(y, Out(y.s.(deferred := Some(ask)), []));
  }

  /** A fragment sent: the next after all the master has taken, or the first again. */
  ghost predicate Due(y: System, i: nat) {
    || (i == 0 && y.top <= 1)
    || (i == y.top == |y.t.delivered| >= 1 && forall k :: 0 <= k < |y.up| ==> Place(y.up[k]) >= i - 1)
  }

  lemma SentKeeps(y: System, ask: Received, seqNo: SeqNum, s': State, f: Fragment, i: nat)
    requires DownOk(y, ask, seqNo) && UpOk(y, seqNo) && MasterOk(y, ask, seqNo)
    requires |y.t.delivered| <= y.top <= |y.t.delivered| + 1
    requires IsRepeat(s', ask) && (y.top > 0 ==> s'.last.bodies == Answer(y, ask))
    requires Due(y, i) && Piece(s'.last.bodies, seqNo, i, f) && s'.deferred.None? && (IsRead(ask) ==> !s'.u.awaiting)
    requires
      if f.con then
        && s'.p.bodies == s'.last.bodies && s'.p.seqNo == seqNo && s'.p.index == i + 1
        && s'.p.awaiting && s'.p.confirmSeq == f.seqNo
      else Idle(s'.p)
    requires y.top <= |s'.last.bodies|
    ensures Inv(y.(s := s', down := y.down + [Down(f, i)], top := Max(y.top, i + 1)), ask, seqNo)
  {
    hide InSeries, IsRepeat, IsRead;
  }

  lemma AdvanceKeeps(c: Config, y: System, ask: Received, seqNo: SeqNum, w: World)
    requires Inv(y, ask, seqNo)
    ensures Inv(After(y, AdvanceResponse(c, y.s, w)), ask, seqNo)
  {
    hide Solicited, InSeries, AdvanceResponse, After, IsRead, DownOk, UpOk, MasterOk;
    var out := AdvanceResponse(c, y.s, w);
    AdvanceShape(c, y.s, w);
    if Solicited(out.io) == [] {
      QuietKeeps(y, ask, seqNo, out);
    } else {
      AfterOne(y, out, y.s.p.index);
      SentKeeps(y, ask, seqNo, out.s, Solicited(out.io)[0], y.s.p.index);
    }
  }

  /** The request answered with nothing sent yet. */
  lemma WaitingToStart(y: System, ask: Received, seqNo: SeqNum, s': State)
    requires Inv(y, ask, seqNo) && y.top <= 1
    requires IsRepeat(s', ask) && (IsRepeat(y.s, ask) ==> s'.last.bodies == y.s.last.bodies)
    requires s'.deferred.None? && (IsRead(ask) ==> !s'.u.awaiting)
    requires Idle(s'.p)
      || (s'.p.bodies == s'.last.bodies != [] && s'.p.seqNo == seqNo && s'.p.index == 0 && !s'.p.awaiting)
    ensures Inv(y.(s := s'), ask, seqNo)
  {
    hide InSeries, IsRepeat, IsRead;
  }

  lemma AnswerKeeps(y: System, ask: Received, seqNo: SeqNum, busy: bool, out: Out)
    requires Inv(y, ask, seqNo) && y.top <= 1
    requires Answered(y.s.(deferred := None), ask, seqNo, busy, out) && (IsRead(ask) ==> !out.s.u.awaiting)
    ensures Inv(After(y, out), ask, seqNo) && Parked(After(y, out))
  {
    hide InSeries, Solicited, After, IsRead, At, DownOk, UpOk, MasterOk;
    if Solicited(out.io) == [] {
      AfterNone(y, out);
      WaitingToStart(y, ask, seqNo, out.s);
    } else {
      AfterOne(y, out, 0);
      SentKeeps(y, ask, seqNo, out.s, Solicited(out.io)[0], 0);
    }
  }

  lemma ResumeKeeps(c: Config, y: System, ask: Received, seqNo: SeqNum, w: World)
    requires Inv(y, ask, seqNo) && IsRequest(ask, seqNo)
    ensures var y' := After(y, ResumeDeferredRead(c, y.s, w)); Inv(y', ask, seqNo) && Parked(y')
  {
    hide InSeries, Solicited, After, At, DownOk, UpOk, MasterOk, Answered, Handle, AdvanceResponse, ParseRequestHeader;
    var out := ResumeDeferredRead(c, y.s, w);
    if y.s.deferred.None? || y.s.u.awaiting {
      SolicitedNone();
      QuietKeeps(y, ask, seqNo, out);
      AfterNone(y, out);
    } else {
      ResumeShape(c, y.s, w, ask, seqNo);
      AnsweredRest(y.s.(deferred := None), ask, seqNo, w.busy, out);
      AnswerKeeps(y, ask, seqNo, w.busy, out);
    }
  }

  lemma AnsweredRest(s: State, ask: Received, seqNo: SeqNum, busy: bool, out: Out)
    requires Answered(s, ask, seqNo, busy, out)
    ensures out.s.deferred == s.deferred && out.s.u == s.u
  {
    hide Launched;
  }

  /** The request arrives, or arrives again. */
  lemma AskKeeps(c: Config, y: System, ask: Received, seqNo: SeqNum, w: World)
    requires Inv(y, ask, seqNo) && Parked(y) && IsRequest(ask, seqNo) && y.top <= 1
    ensures Inv(After(y, Handle(c, y.s, w, ask)), ask, seqNo)
  {
    hide InSeries, Solicited, After, At, DownOk, UpOk, MasterOk, Answered, Handle, ParseRequestHeader, IsRead;
    AskShape(c, y.s, w, ask, seqNo);
    if y.s.u.awaiting && IsRead(ask) {
      HoldKeeps(y, ask, seqNo);
    } else {
      var out := Handle(c, y.s, w, ask);
      AnsweredRest(y.s.(deferred := None), ask, seqNo, w.busy, out);
      AnswerKeeps(y, ask, seqNo, w.busy, out);
    }
  }

  /** A confirmation arrives: it is taken exactly when it is for the furthest fragment sent. */
  lemma ConfirmKeeps(c: Config, y: System, ask: Received, seqNo: SeqNum, w: World)
    requires Inv(y, ask, seqNo) && |y.up| > 0 && y.up[0].Confirm?
    ensures Inv(After(y.(up := y.up[1..]), Handle(c, y.s, w, ConfirmMessage(ask.source, false, y.up[0].seqNo))), ask, seqNo)
  {
    hide InSeries, Solicited, After, Handle, IsRead, Piece;
    var m := y.up[0];
    var out := Handle(c, y.s, w, ConfirmMessage(ask.source, false, m.seqNo));
    var y1 := y.(up := y.up[1..]);
    ConfirmShape(c, y.s, w, ask, m.seqNo);
    UpTaken(y, ask, seqNo);
    if out.s.p == y.s.p || Idle(out.s.p) {
      QuietKeeps(y1, ask, seqNo, out);
    } else {
      AfterNone(y1, out);
      SeqApart(seqNo, m.i, y.top - 1);
    }
  }

  lemma UpTaken(y: System, ask: Received, seqNo: SeqNum)
    requires Inv(y, ask, seqNo) && |y.up| > 0
    ensures Inv(y.(up := y.up[1..]), ask, seqNo)
  {
    hide InSeries, IsRead, Piece, IsRepeat;
  }

  // ---------- Whole turns and whole runs ----------

  lemma ServedKeeps(c: Config, y: System, ask: Received, seqNo: SeqNum, r: Received, w: World, w2: World, w3: World)
    requires Inv(After(y, Handle(c, y.s, w, r)), ask, seqNo) && IsRequest(ask, seqNo)
    ensures Inv(Served(c, y, r, w, w2, w3), ask, seqNo) && Parked(Served(c, y, r, w, w2, w3))
  {
    hide Inv, After, Handle, AdvanceResponse, ResumeDeferredRead, IsRequest;
    var y1 := After(y, Handle(c, y.s, w, r));
    AdvanceKeeps(c, y1, ask, seqNo, w2);
    ResumeKeeps(c, After(y1, AdvanceResponse(c, y1.s, w2)), ask, seqNo, w3);
  }

  lemma TickedKeeps(c: Config, y: System, ask: Received, seqNo: SeqNum, w: World, w2: World, w3: World)
    requires Inv(y, ask, seqNo) && IsRequest(ask, seqNo)
    ensures Inv(Ticked(c, y, w, w2, w3), ask, seqNo) && Parked(Ticked(c, y, w, w2, w3))
  {
    hide Inv, After, PollUnsolicited, ResumeDeferredRead, IsRequest, EB.Unselect;
    SolicitedNone();
    var out := Out(CheckConfirmTimeout(y.s, w), []);
    var y1 := After(y, out);
    QuietKeeps(y, ask, seqNo, out);
    AfterNone(y, out);
    PollShape(c, y1.s, w2);
    QuietKeeps(y1, ask, seqNo, PollUnsolicited(c, y1.s, w2));
    ResumeKeeps(c, After(y1, PollUnsolicited(c, y1.s, w2)), ask, seqNo, w3);
  }

  lemma UpdateKeeps(c: Config, y: System, ask: Received, seqNo: SeqNum, raised: seq<Event>)
    requires Inv(y, ask, seqNo)
    ensures Inv(Next(c, ask, y, OutstationUpdates(raised)), ask, seqNo)
  {
    hide InSeries, IsRead, Piece, At, Raise;
  }

  lemma ReceiveKeeps(c: Config, y: System, ask: Received, seqNo: SeqNum, w: World, w2: World, w3: World)
    requires Inv(y, ask, seqNo) && Parked(y) && IsRequest(ask, seqNo)
    ensures var y' := Next(c, ask, y, OutstationReceives(w, w2, w3)); Inv(y', ask, seqNo) && Parked(y')
  {
    hide SenderOk, DownOk, MasterOk, After, Handle, Served, IsRequest;
    if |y.up| > 0 {
      var y1 := y.(up := y.up[1..]);
      UpTaken(y, ask, seqNo);
      if y.up[0].Ask? {
        AskKeeps(c, y1, ask, seqNo, w);
        ServedKeeps(c, y1, ask, seqNo, ask, w, w2, w3);
      } else {
        ConfirmKeeps(c, y, ask, seqNo, w);
        ServedKeeps(c, y1, ask, seqNo, ConfirmMessage(ask.source, false, y.up[0].seqNo), w, w2, w3);
      }
    }
  }

  lemma UnsolicitedConfirmedKeeps(
      c: Config, y: System, ask: Received, seqNo: SeqNum, n: SeqNum, w: World, w2: World, w3: World)
    requires Inv(y, ask, seqNo) && IsRequest(ask, seqNo)
    ensures var y' := Next(c, ask, y, UnsolicitedConfirmed(n, w, w2, w3)); Inv(y', ask, seqNo) && Parked(y')
  {
    hide Inv, After, Handle, Served, IsRequest;
    UnsolicitedConfirmShape(c, y.s, w, ask, n);
    QuietKeeps(y, ask, seqNo, Handle(c, y.s, w, ConfirmMessage(ask.source, true, n)));
    ServedKeeps(c, y, ask, seqNo, ConfirmMessage(ask.source, true, n), w, w2, w3);
  }

  lemma NextKeeps(c: Config, y: System, ask: Received, seqNo: SeqNum, m: Move)
    requires Inv(y, ask, seqNo) && Parked(y) && IsRequest(ask, seqNo)
    ensures var y' := Next(c, ask, y, m); Inv(y', ask, seqNo) && Parked(y')
  {
    hide Inv, Served, Ticked, IsRequest, OnSolicited;
    match m
    case OutstationReceives(w, w2, w3) => ReceiveKeeps(c, y, ask, seqNo, w, w2, w3);
    case OutstationTicks(w, w2, w3) => TickedKeeps(c, y, ask, seqNo, w, w2, w3);
    case OutstationUpdates(raised) => UpdateKeeps(c, y, ask, seqNo, raised);
    case UnsolicitedConfirmed(n, w, w2, w3) => UnsolicitedConfirmedKeeps(c, y, ask, seqNo, n, w, w2, w3);
    case MasterReceives => MasterKeeps(c, y, ask, seqNo);
    case MasterGivesUp => GiveUpKeeps(c, y, ask, seqNo);
    case LoseDown(k) => LoseDownKeeps(c, y, ask, seqNo, k);
    case LoseUp(k) => LoseUpKeeps(c, y, ask, seqNo, k);
    case RepeatDown(k) => RepeatDownKeeps(c, y, ask, seqNo, k);
    case RepeatUp(k) => RepeatUpKeeps(c, y, ask, seqNo, k);
  }

  lemma StartsInv(y: System, ask: Received, seqNo: SeqNum)
    requires Starts(y, ask, seqNo)
    ensures Inv(y, ask, seqNo) && Parked(y)
  {
  }

  lemma {:induction false} ReachedInv(c: Config, ask: Received, seqNo: SeqNum, y: System, ms: seq<Move>)
    requires Starts(y, ask, seqNo)
    ensures Inv(Reached(c, ask, y, ms), ask, seqNo) && Parked(Reached(c, ask, y, ms))
  {
    hide Inv, Parked, Next, IsRequest;
    if ms == [] {
      StartsInv(y, ask, seqNo);
    } else {
      ReachedInv(c, ask, seqNo, y, ms[..|ms| - 1]);
      NextKeeps(c, Reached(c, ask, y, ms[..|ms| - 1]), ask, seqNo, ms[|ms| - 1]);
    }
  }

  /** The bodies the master has delivered. */
  function Bodies(fs: seq<Fragment>): seq<Body> {
    seq(|fs|, i requires 0 <= i < |fs| => fs[i].body)
  }

  /** In every exchange, of any number of fragments, whatever the channels lose or repeat, and
      whatever else the outstation does meanwhile: what the master delivers is the beginning of
      the one response the outstation built for the request, in order and without a gap; and if
      the request completes, it is all of it. */
  lemma DeliveredIsAPrefix(c: Config, ask: Received, seqNo: SeqNum, y: System, ms: seq<Move>)
    requires Starts(y, ask, seqNo)
    ensures var e := Reached(c, ask, y, ms);
      && Bodies(e.t.delivered) <= Answer(e, ask)
      && (e.t.outcome.Complete? ==> IsRepeat(e.s, ask) && Bodies(e.t.delivered) == e.s.last.bodies)
  {
    hide Reached, Starts, SenderOk, DownOk, UpOk, Parked;
    ReachedInv(c, ask, seqNo, y, ms);
    var e := Reached(c, ask, y, ms);
    var n := |e.t.delivered|;
    if n > 0 { assert Piece(Answer(e, ask), seqNo, n - 1, e.t.delivered[n - 1]); }
  }

  /** A confirmation that closes a response out finds it sent to the end, and is the one awaited. */
  lemma ClosesOut(c: Config, s: State, w: World, source: nat, seqNo: SeqNum)
    ensures var io := Handle(c, s, w, ConfirmMessage(source, false, seqNo)).io;
      (exists x :: x in io && x.Removed?) ==> s.p.awaiting && s.p.confirmSeq == seqNo && s.p.index >= |s.p.bodies|
  {
    hide ParseRequestHeader, EB.Confirm;
    ConfirmParses(source, false, seqNo);
  }

  /** The other half. In every exchange, whatever the channels lose or repeat: when a confirmation
      makes the outstation remove the events of the response, the master has delivered every
      fragment of it. */
  lemma RemovedWasDelivered(c: Config, ask: Received, seqNo: SeqNum, y: System, ms: seq<Move>, w: World)
    requires Starts(y, ask, seqNo)
    requires var e := Reached(c, ask, y, ms); |e.up| > 0 && e.up[0].Confirm?
    ensures var e := Reached(c, ask, y, ms);
      var io := Handle(c, e.s, w, ConfirmMessage(ask.source, false, e.up[0].seqNo)).io;
      (exists x :: x in io && x.Removed?) ==> IsRepeat(e.s, ask) && Bodies(e.t.delivered) == e.s.p.bodies
  {
    hide Reached, Starts, Handle, Parked, DownOk, IsRead, InSeries, IsRequest;
    var e := Reached(c, ask, y, ms);
    ReachedInv(c, ask, seqNo, y, ms);
    var m, n := e.up[0], |e.t.delivered|;
    ClosesOut(c, e.s, w, ask.source, m.seqNo);
    var io := Handle(c, e.s, w, ConfirmMessage(ask.source, false, m.seqNo)).io;
    if exists x :: x in io && x.Removed? {
      SeqApart(seqNo, m.i, e.top - 1);
      assert n == e.top == |Answer(e, ask)|;
    }
  }
}
