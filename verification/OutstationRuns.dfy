/** What holds over every run of an outstation session, whatever arrives: the two kinds of
    confirmation never compete, and a repeated request is carried out once. */
module OutstationRuns {
  import opened Protocol
  import opened Events
  import opened EventFragments
  import opened Unsolicited
  import opened Outstation

  // ---------- Exclusion ----------

  /** A solicited response carrying events is in progress. */
  predicate SolEvents(s: State) {
    s.p.bodies != [] && s.p.hasEvents
  }

  predicate IsRead(frag: seq<Octet>) {
    var h := ParseRequestHeader(frag);
    h.Some? && h.value.func == FUNC_READ
  }

  /** Only a read is ever answered with events, so only a read can be answered with them again. */
  ghost predicate Excluded(s: State) {
    && (s.u.awaiting ==> !SolEvents(s))
    && (s.last.hasEvents ==> s.last.valid && IsRead(s.last.frag))
  }

  lemma AdvanceExcludes(c: Config, s: State, w: World)
    ensures var s' := AdvanceResponse(c, s, w).s;
      s'.u == s.u && s'.last == s.last && (SolEvents(s') ==> SolEvents(s)) && s'.deferred == s.deferred
  {
    hide CurrentIin;
  }

  lemma SendExcludes(c: Config, s: State, w: World, r: Received, seqNo: SeqNum, bodies: seq<Body>, hasEvents: bool)
    requires Excluded(s)
    requires hasEvents && !r.broadcast ==> !s.u.awaiting && s.last.valid && IsRead(s.last.frag)
    ensures var s' := SendFragments(c, s, w, r, seqNo, bodies, hasEvents).s;
      Excluded(s')
  {
    hide AdvanceResponse, IsRead;
    if !r.broadcast {
      AdvanceExcludes(c,
        s.(p := s.p.(bodies := bodies, index := 0, seqNo := seqNo, hasEvents := hasEvents),
           last := s.last.(bodies := bodies, hasEvents := hasEvents, errors := s.iin * REQUEST_ERRORS)), w);
    }
  }

  lemma ExecuteExcludes(c: Config, s: State, w: World, r: Received, h: Header)
    requires Excluded(s) && ParseRequestHeader(r.frag) == Some(h)
    requires h.func == FUNC_READ && !r.broadcast ==> !s.u.awaiting
    ensures Excluded(Execute(c, s, w, r, h).s)
  {
    hide SendFragments, BuildEvents, SelectItems, ApplyOps, Raise, Done, ParseRequestHeader, EnvOf, PlainBodies;
    var s1 := AbandonResponse(Remember(s, r));
    var s2 := if r.broadcast then s1.(iin := s1.iin + {Broadcast}, broadcastConfirm := r.mandatoryConfirm) else s1;
    assert Excluded(s2);
    if r.content.EventRead? && h.func == FUNC_READ {
      var sel := SelectItems(s2.buf, r.content.items);
      var built := BuildEvents(EnvOf(c, s2, w), NewBuilder(c.maxTx), sel.events);
      var buf := if sel.events == [] then sel.buf else EB.Discard(sel.buf, built.unsent);
      SendExcludes(c, s2.(buf := buf, iin := s2.iin + r.content.errors), w, r, h.seqNo,
                   Done(ApplyOps(built.b, r.content.later)), |built.unsent| < |sel.events|);
    } else if r.content.Effect? {
      var x := r.content;
      var buf := Raise(if x.wipe then EB.Reset(s2.buf) else s2.buf, x.raised);
      var s' := s2.(buf := buf, iin := s2.iin + x.errors,
                    unsolClasses := if x.classes.Some? then x.classes.value else s2.unsolClasses);
      SendExcludes(c, s', w, r, h.seqNo, PlainBodies(x.reply), false);
    }
  }

  lemma ReplayExcludes(c: Config, s: State, w: World, r: Received, seqNo: SeqNum)
    requires Excluded(s) && IsRepeat(s, r)
    requires IsRead(r.frag) && !r.broadcast ==> !s.u.awaiting
    ensures Excluded(ReplayResponse(c, s, w, r, seqNo).s)
  {
    hide SendFragments, IsRead;
    var s1 := s.(p := s.p.(awaiting := false, bodies := [], index := 0), iin := s.iin + s.last.errors);
    if !r.broadcast && s.last.bodies != [] {
      SendExcludes(c, s1, w, r, seqNo, s.last.bodies, s.last.hasEvents);
    }
  }

  lemma ConfirmExcludes(s: State, seqNo: SeqNum)
    requires Excluded(s)
    ensures Excluded(OnUnsolicitedConfirm(s, seqNo).s) && Excluded(Outstation.OnConfirm(s, seqNo).s)
  {
    hide IsRead;
  }

  lemma DispatchExcludes(c: Config, s: State, w: World, r: Received)
    requires Excluded(s)
    requires IsRead(r.frag) && !r.broadcast ==> !s.u.awaiting
    ensures Excluded(Dispatch(c, s, w, r).s)
  {
    hide SendFragments, Execute, ReplayResponse, OnUnsolicitedConfirm, Outstation.OnConfirm, ParseRequestHeader;
    var hdr := ParseRequestHeader(r.frag);
    if r.content.Malformed? {
      if hdr.Some? {
        SendExcludes(c, s.(iin := s.iin + {r.content.error}), w, r, hdr.value.seqNo, [EMPTY_BODY], false);
      }
    } else if hdr.Some? {
      var h := hdr.value;
      ConfirmExcludes(s, h.seqNo);
      if h.func != FUNC_CONFIRM && IsRepeat(s, r) { ReplayExcludes(c, s, w, r, h.seqNo); }
      if h.func != FUNC_CONFIRM { ExecuteExcludes(c, s, w, r, h); }
    }
  }

  lemma HandleExcludes(c: Config, s: State, w: World, r: Received)
    requires Excluded(s)
    ensures Excluded(Handle(c, s, w, r).s)
  {
    hide Dispatch, ParseRequestHeader;
    var (held, s') := DeferRead(s, r);
    if !held { DispatchExcludes(c, s', w, r); }
  }

  lemma PollExcludes(c: Config, s: State, w: World)
    requires Excluded(s)
    ensures Excluded(PollUnsolicited(c, s, w).s)
  {
    hide UF.FitCount, BuildEvents, CurrentIin, Done;
  }

  lemma StepExcludes(c: Config, s: State, w: World, step: Step)
    requires Excluded(s)
    ensures Excluded(Do(c, s, w, step).s)
  {
    hide Handle, AdvanceResponse, PollUnsolicited;
    match step
    case Receive(r) => HandleExcludes(c, s, w, r);
    case Advance => AdvanceExcludes(c, s, w);
    case Resume =>
      if s.deferred.Some? && !s.u.awaiting {
        var s1 := s.(deferred := None);
        HandleExcludes(c, s1, w, s.deferred.value);
        AdvanceExcludes(c, Handle(c, s1, w, s.deferred.value).s, w);
      }
    case UnsolicitedTick => PollExcludes(c, s, w);
    case _ =>
  }

  /** In every state a connection reaches, through deferral, retry, replay and resumption and
      whatever the peer sends, an unsolicited response awaiting confirmation and a solicited
      response carrying events are never in progress together. */
  lemma {:induction false} NeverBothAwaiting(
      c: Config, buf: EB.Buffer, iin: set<Iin>, classes: set<EventClass>, turns: seq<Turn>)
    ensures var s := Serve(c, Connected(buf, iin, classes), turns).s;
      Excluded(s) && !(s.u.awaiting && SolEvents(s))
  {
    hide Do;
    if turns != [] {
      NeverBothAwaiting(c, buf, iin, classes, turns[..|turns| - 1]);
      var t := turns[|turns| - 1];
      StepExcludes(c, Serve(c, Connected(buf, iin, classes), turns[..|turns| - 1]).s, t.w, t.step);
    }
  }

  // ---------- A repeated request is carried out once ----------

  datatype Key = Key(source: nat, frag: seq<Octet>)

  function AskedIn(io: seq<Io>): seq<Key> {
    if io == [] then []
    else
      var before, x := AskedIn(io[..|io| - 1]), io[|io| - 1];
      if x.Asked? then before + [Key(x.source, x.frag)] else before
  }

  function ExecutedIn(io: seq<Io>): seq<Key> {
    if io == [] then []
    else
      var before, x := ExecutedIn(io[..|io| - 1]), io[|io| - 1];
      if x.Executed? then before + [Key(x.source, x.frag)] else before
  }

  /** A list with each run of equal neighbours reduced to one. */
  function Squash(ks: seq<Key>): seq<Key> {
    if |ks| < 2 then ks
    else
      var init := ks[..|ks| - 1];
      if ks[|ks| - 1] == ks[|ks| - 2] then Squash(init) else Squash(init) + [ks[|ks| - 1]]
  }

  ghost predicate Quiet(io: seq<Io>) {
    forall x :: x in io ==> !x.Asked? && !x.Executed?
  }

  lemma {:induction false} QuietAdds(io: seq<Io>, more: seq<Io>)
    requires Quiet(more)
    ensures AskedIn(io + more) == AskedIn(io) && ExecutedIn(io + more) == ExecutedIn(io)
  {
    if more == [] {
      assert io + more == io;
    } else {
      QuietAdds(io, more[..|more| - 1]);
      assert (io + more)[..|io + more| - 1] == io + more[..|more| - 1];
    }
  }

  /** The request last acted on is the last one asked, and what has been carried out is what
      has been asked with back-to-back repeats removed. */
  ghost predicate Tallied(s: State, io: seq<Io>) {
    var asked := AskedIn(io);
    && ExecutedIn(io) == Squash(asked)
    && (s.last.valid <==> asked != [])
    && (s.last.valid ==> asked[|asked| - 1] == Key(s.last.source, s.last.frag))
  }

  lemma AdvanceQuiet(c: Config, s: State, w: World)
    ensures Quiet(AdvanceResponse(c, s, w).io) && AdvanceResponse(c, s, w).s.last == s.last
  {
    hide CurrentIin;
  }

  lemma SendQuiet(c: Config, s: State, w: World, r: Received, seqNo: SeqNum, bodies: seq<Body>, hasEvents: bool)
    ensures var out := SendFragments(c, s, w, r, seqNo, bodies, hasEvents);
      && Quiet(out.io) && out.s.last.valid == s.last.valid
      && out.s.last.source == s.last.source && out.s.last.frag == s.last.frag
  {
    hide AdvanceResponse;
    AdvanceQuiet(c,
      s.(p := s.p.(bodies := bodies, index := 0, seqNo := seqNo, hasEvents := hasEvents),
         last := s.last.(bodies := bodies, hasEvents := hasEvents, errors := s.iin * REQUEST_ERRORS)), w);
  }

  lemma ExecuteQuiet(c: Config, s: State, w: World, r: Received, h: Header)
    ensures var out := Execute(c, s, w, r, h);
      Quiet(out.io) && out.s.last.valid && out.s.last.source == r.source && out.s.last.frag == r.frag
  {
    hide SendFragments, BuildEvents, SelectItems, ApplyOps, Raise, Done;
    var s1 := AbandonResponse(Remember(s, r));
    var s2 := if r.broadcast then s1.(iin := s1.iin + {Broadcast}, broadcastConfirm := r.mandatoryConfirm) else s1;
    if r.content.EventRead? && h.func == FUNC_READ {
      var sel := SelectItems(s2.buf, r.content.items);
      var built := BuildEvents(EnvOf(c, s2, w), NewBuilder(c.maxTx), sel.events);
      var buf := if sel.events == [] then sel.buf else EB.Discard(sel.buf, built.unsent);
      SendQuiet(c, s2.(buf := buf, iin := s2.iin + r.content.errors), w, r, h.seqNo,
                Done(ApplyOps(built.b, r.content.later)), |built.unsent| < |sel.events|);
    } else if r.content.Effect? {
      var x := r.content;
      var buf := Raise(if x.wipe then EB.Reset(s2.buf) else s2.buf, x.raised);
      var s' := s2.(buf := buf, iin := s2.iin + x.errors,
                    unsolClasses := if x.classes.Some? then x.classes.value else s2.unsolClasses);
      SendQuiet(c, s', w, r, h.seqNo, PlainBodies(x.reply), false);
    }
  }

  lemma TallyQuiet(s: State, s': State, io: seq<Io>, more: seq<Io>)
    requires Tallied(s, io) && Quiet(more)
    requires s'.last.valid == s.last.valid && s'.last.source == s.last.source && s'.last.frag == s.last.frag
    ensures Tallied(s', io + more)
  {
    QuietAdds(io, more);
  }

  lemma TallyRepeat(s: State, s': State, io: seq<Io>, r: Received, more: seq<Io>)
    requires Tallied(s, io) && IsRepeat(s, r) && Quiet(more)
    requires s'.last.valid == s.last.valid && s'.last.source == s.last.source && s'.last.frag == s.last.frag
    ensures Tallied(s', io + ([Asked(r.source, r.frag)] + more))
  {
    var one := io + [Asked(r.source, r.frag)];
    assert one[..|one| - 1] == io;
    QuietAdds(one, more);
    assert one + more == io + ([Asked(r.source, r.frag)] + more);
    var asked := AskedIn(io);
    assert AskedIn(one)[..|asked|] == asked;
  }

  lemma TallyExecute(s: State, s': State, io: seq<Io>, r: Received, more: seq<Io>)
    requires Tallied(s, io) && !IsRepeat(s, r) && Quiet(more)
    requires s'.last.valid && s'.last.source == r.source && s'.last.frag == r.frag
    ensures Tallied(s', io + ([Asked(r.source, r.frag), Executed(r.source, r.frag)] + more))
  {
    var one := io + [Asked(r.source, r.frag)];
    var two := one + [Executed(r.source, r.frag)];
    assert one[..|one| - 1] == io && two[..|two| - 1] == one;
    QuietAdds(two, more);
    assert two + more == io + ([Asked(r.source, r.frag), Executed(r.source, r.frag)] + more);
    var asked := AskedIn(io);
    assert AskedIn(one)[..|asked|] == asked;
  }

  lemma DispatchTallies(c: Config, s: State, w: World, r: Received, io: seq<Io>)
    requires Tallied(s, io)
    ensures var out := Dispatch(c, s, w, r); Tallied(out.s, io + out.io)
  {
    hide SendFragments, Execute, ParseRequestHeader, Tallied;
    var hdr, out := ParseRequestHeader(r.frag), Dispatch(c, s, w, r);
    if r.content.Malformed? {
      if hdr.Some? { SendQuiet(c, s.(iin := s.iin + {r.content.error}), w, r, hdr.value.seqNo, [EMPTY_BODY], false); }
      TallyQuiet(s, out.s, io, out.io);
    } else if hdr.None? || !hdr.value.fir || !hdr.value.fin || hdr.value.func == FUNC_CONFIRM
              || hdr.value.con || hdr.value.uns {
      TallyQuiet(s, out.s, io, out.io);
    } else if IsRepeat(s, r) {
      var s1 := s.(p := s.p.(awaiting := false, bodies := [], index := 0), iin := s.iin + s.last.errors);
      SendQuiet(c, s1, w, r, hdr.value.seqNo, s.last.bodies, s.last.hasEvents);
      TallyRepeat(s, out.s, io, r, ReplayResponse(c, s, w, r, hdr.value.seqNo).io);
    } else {
      ExecuteQuiet(c, s, w, r, hdr.value);
      TallyExecute(s, out.s, io, r, Execute(c, s, w, r, hdr.value).io);
    }
  }

  lemma HandleTallies(c: Config, s: State, w: World, r: Received, io: seq<Io>)
    requires Tallied(s, io)
    ensures var out := Handle(c, s, w, r); Tallied(out.s, io + out.io)
  {
    hide Dispatch, ParseRequestHeader;
    var (held, s') := DeferRead(s, r);
    TallyQuiet(s, s', io, []);
    assert io + [] == io;
    if !held { DispatchTallies(c, s', w, r, io); }
  }

  lemma PollQuiet(c: Config, s: State, w: World)
    ensures var out := PollUnsolicited(c, s, w); Quiet(out.io) && out.s.last == s.last
  {
    hide UF.FitCount, BuildEvents, CurrentIin, Done;
  }

  lemma StepTallies(c: Config, s: State, w: World, step: Step, io: seq<Io>)
    requires Tallied(s, io)
    ensures var out := Do(c, s, w, step); Tallied(out.s, io + out.io)
  {
    hide Handle, AdvanceResponse, PollUnsolicited, Raise, Tallied;
    var out := Do(c, s, w, step);
    match step
    case Receive(r) => HandleTallies(c, s, w, r, io);
    case Advance =>
      AdvanceQuiet(c, s, w);
      TallyQuiet(s, out.s, io, out.io);
    case Resume =>
      if s.deferred.Some? && !s.u.awaiting {
        var s1 := s.(deferred := None);
        TallyQuiet(s, s1, io, []);
        assert io + [] == io;
        HandleTallies(c, s1, w, s.deferred.value, io);
        var mid := Handle(c, s1, w, s.deferred.value);
        AdvanceQuiet(c, mid.s, w);
        TallyQuiet(mid.s, out.s, io + mid.io, AdvanceResponse(c, mid.s, w).io);
        assert (io + mid.io) + AdvanceResponse(c, mid.s, w).io == io + out.io;
      } else {
        TallyQuiet(s, out.s, io, out.io);
      }
    case UnsolicitedTick =>
      PollQuiet(c, s, w);
      TallyQuiet(s, out.s, io, out.io);
    case _ => TallyQuiet(s, out.s, io, out.io);
  }

  /** Over every run of a connection, what is carried out is exactly what was asked with
      back-to-back repeats removed: any number of repeats of a request runs it once. */
  lemma {:induction false} RepeatsRunOnce(
      c: Config, buf: EB.Buffer, iin: set<Iin>, classes: set<EventClass>, turns: seq<Turn>)
    ensures var out := Serve(c, Connected(buf, iin, classes), turns);
      Tallied(out.s, out.io) && ExecutedIn(out.io) == Squash(AskedIn(out.io))
  {
    hide Do;
    if turns != [] {
      RepeatsRunOnce(c, buf, iin, classes, turns[..|turns| - 1]);
      var t, before := turns[|turns| - 1], Serve(c, Connected(buf, iin, classes), turns[..|turns| - 1]);
      StepTallies(c, before.s, t.w, t.step, before.io);
    }
  }

  // ---------- A repeated request is answered alike ----------

  /** A response awaiting a confirmation is still in progress. */
  predicate Orderly(s: State) {
    s.p.awaiting ==> s.p.bodies != []
  }

  /** A complete request, not a confirmation, that is not held back or discarded. */
  predicate Dispatched(s: State, r: Received, h: Header) {
    ParseRequestHeader(r.frag) == Some(h) && Dispatchable(r) && !r.broadcast && !(s.u.awaiting && h.func == FUNC_READ)
  }

  /** A fragment whose receipt goes on to the repeat check. */
  predicate Dispatchable(r: Received) {
    var h := ParseRequestHeader(r.frag);
    && !r.content.Malformed? && h.Some?
    && h.value.fir && h.value.fin && h.value.func != FUNC_CONFIRM && !h.value.con && !h.value.uns
  }

  predicate RepeatOf(r: Received, first: Received) {
    Dispatchable(r) && !r.broadcast && r.source == first.source && r.frag == first.frag
  }

  /** A confirmation, a repeat, or something to be ignored. */
  predicate Harmless(r: Received, first: Received) {
    RepeatOf(r, first) || (!r.content.Malformed? && !Dispatchable(r))
  }

  /** A step that dispatches no request but a repeat. */
  predicate Calm(s: State, first: Received, step: Step) {
    match step
    case Receive(r) => Harmless(r, first)
    case Resume => s.deferred.None? || Harmless(s.deferred.value, first)
    case _ => true
  }

  ghost predicate CalmRun(c: Config, s: State, first: Received, turns: seq<Turn>) {
    forall k :: 0 <= k < |turns| ==> Calm(Serve(c, s, turns[..k]).s, first, turns[k].step)
  }

  /** A response as it was first built, and the request errors it was first sent with. */
  datatype Answer = Answer(seqNo: SeqNum, bodies: seq<Body>, hasEvents: bool, errors: set<Iin>)

  /** The answer is stored for a repeat, with any request errors since, and no other response is
      in progress. */
  ghost predicate Answering(s: State, first: Received, a: Answer) {
    && s.last.valid && s.last.source == first.source && s.last.frag == first.frag
    && s.last.bodies == a.bodies && s.last.hasEvents == a.hasEvents
    && a.errors <= s.last.errors && a.errors <= REQUEST_ERRORS
    && (s.p.bodies == [] || (s.p.bodies == a.bodies && s.p.seqNo == a.seqNo && s.p.hasEvents == a.hasEvents))
    && Orderly(s)
  }

  /** Fragment `i` of an answer, sent now or as part of a repeat. */
  predicate IsPart(f: Fragment, a: Answer, i: nat) {
    && i < |a.bodies| && f.body == a.bodies[i] && f.seqNo == SeqPlus(a.seqNo, i)
    && f.fir == (i == 0) && f.fin == (i == |a.bodies| - 1) && !f.uns
  }

  /** Nothing is carried out, and nothing solicited is sent but fragments of the answer. */
  ghost predicate OnlyAnswers(io: seq<Io>, a: Answer) {
    forall x :: x in io ==> !x.Executed? && (x.Sent? && !x.f.uns ==> exists i :: IsPart(x.f, a, i))
  }

  lemma AdvanceAnswers(c: Config, s: State, w: World, first: Received, a: Answer)
    requires Answering(s, first, a)
    ensures var out := AdvanceResponse(c, s, w);
      && Answering(out.s, first, a) && OnlyAnswers(out.io, a)
      && out.s.u == s.u && out.s.deferred == s.deferred
  {
    hide CurrentIin, EB.Confirm, SeqPlus;
    if s.p.bodies != [] && !s.p.awaiting && !w.busy && s.p.index < |s.p.bodies| {
      assert IsPart(AdvanceResponse(c, s, w).io[0].f, a, s.p.index);
    }
  }

  /** What starting a response does: its first fragment goes out, or waits for the link. */
  ghost predicate Started(out: Out, w: World, a: Answer) {
    if w.busy then out.io == [] && out.s.p.bodies == a.bodies && out.s.p.index == 0
    else
      && out.io != [] && out.io[0].Sent? && IsPart(out.io[0].f, a, 0) && a.errors <= out.io[0].f.iin
      && (if out.io[0].f.con then out.s.p.bodies == a.bodies && out.s.p.index == 1 && out.s.p.awaiting
          else out.s.p.bodies == [])
      && (|a.bodies| > 1 || a.hasEvents ==> out.io[0].f.con)
  }

  lemma SendAnswers(
      c: Config, s: State, w: World, r: Received, seqNo: SeqNum, bodies: seq<Body>, hasEvents: bool, errors: set<Iin>)
    requires !r.broadcast && bodies != [] && !s.p.awaiting
    requires s.last.valid && errors <= s.iin * REQUEST_ERRORS
    ensures var out := SendFragments(c, s, w, r, seqNo, bodies, hasEvents);
      var a := Answer(seqNo, bodies, hasEvents, errors);
      && Answering(out.s, r.(source := s.last.source, frag := s.last.frag), a) && OnlyAnswers(out.io, a)
      && Started(out, w, a) && out.s.last.errors == s.iin * REQUEST_ERRORS && out.s.u == s.u && out.s.deferred == s.deferred
  {
    hide CurrentIin, EB.Confirm;
    var s1 := s.(p := s.p.(bodies := bodies, index := 0, seqNo := seqNo, hasEvents := hasEvents),
                 last := s.last.(bodies := bodies, hasEvents := hasEvents, errors := s.iin * REQUEST_ERRORS));
    var a := Answer(seqNo, bodies, hasEvents, errors);
    AdvanceAnswers(c, s1, w, r.(source := s.last.source, frag := s.last.frag), a);
    IinKeeps(s1);
    if !w.busy { assert IsPart(AdvanceResponse(c, s1, w).io[0].f, a, 0); }
  }

  lemma IinKeeps(s: State)
    ensures s.iin <= CurrentIin(s)
  {
  }

  /** A repeat starts the answer over, at its first fragment, and carries nothing out. */
  lemma RepeatAnswers(c: Config, s: State, w: World, r: Received, first: Received, h: Header, a: Answer)
    requires Answering(s, first, a) && RepeatOf(r, first) && ParseRequestHeader(r.frag) == Some(h) && a.seqNo == h.seqNo
    ensures var out := Dispatch(c, s, w, r);
      && Answering(out.s, first, a) && OnlyAnswers(out.io, a) && out.s.u == s.u && out.s.deferred == s.deferred
      && out.io != [] && out.io[0] == Asked(r.source, r.frag)
      && (a.bodies != [] ==> Started(Out(out.s, out.io[1..]), w, a))
  {
    hide SendFragments, ParseRequestHeader, IsPart;
    if s.last.bodies != [] {
      var s1 := s.(p := s.p.(awaiting := false, bodies := [], index := 0), iin := s.iin + s.last.errors);
      SendAnswers(c, s1, w, r, h.seqNo, s.last.bodies, s.last.hasEvents, a.errors);
    }
  }

  lemma ConfirmAnswers(s: State, seqNo: SeqNum, first: Received, a: Answer)
    requires Answering(s, first, a)
    ensures Answering(Outstation.OnConfirm(s, seqNo).s, first, a) && OnlyAnswers(Outstation.OnConfirm(s, seqNo).io, a)
    ensures Answering(OnUnsolicitedConfirm(s, seqNo).s, first, a) && OnlyAnswers(OnUnsolicitedConfirm(s, seqNo).io, a)
  {
    hide EB.Confirm;
  }

  lemma HandleAnswers(c: Config, s: State, w: World, r: Received, first: Received, h: Header, a: Answer)
    requires Answering(s, first, a) && Harmless(r, first) && ParseRequestHeader(first.frag) == Some(h)
    requires a.seqNo == h.seqNo
    ensures var out := Handle(c, s, w, r); Answering(out.s, first, a) && OnlyAnswers(out.io, a)
  {
    hide ParseRequestHeader, Execute, ReplayResponse, Outstation.OnConfirm, OnUnsolicitedConfirm, IsPart;
    var (held, s') := DeferRead(s, r);
    assert Answering(s', first, a);
    if !held {
      if RepeatOf(r, first) {
        RepeatAnswers(c, s', w, r, first, h, a);
      } else if ParseRequestHeader(r.frag).Some? {
        ConfirmAnswers(s', ParseRequestHeader(r.frag).value.seqNo, first, a);
      }
    }
  }

  lemma PollAnswers(c: Config, s: State, w: World, first: Received, a: Answer)
    requires Answering(s, first, a)
    ensures var out := PollUnsolicited(c, s, w); Answering(out.s, first, a) && OnlyAnswers(out.io, a)
  {
    hide UF.FitCount, BuildEvents, CurrentIin, Done, IsPart, EB.Select, EB.Discard, EB.Release, EB.Unselect;
  }

  lemma StepAnswers(c: Config, s: State, w: World, step: Step, first: Received, h: Header, a: Answer)
    requires Answering(s, first, a) && Calm(s, first, step) && ParseRequestHeader(first.frag) == Some(h)
    requires a.seqNo == h.seqNo
    ensures var out := Do(c, s, w, step); Answering(out.s, first, a) && OnlyAnswers(out.io, a)
  {
    hide Handle, AdvanceResponse, PollUnsolicited, Raise, ParseRequestHeader, IsPart, EB.Unselect, Harmless;
    match step
    case Receive(r) => HandleAnswers(c, s, w, r, first, h, a);
    case Advance => AdvanceAnswers(c, s, w, first, a);
    case Resume =>
      if s.deferred.Some? && !s.u.awaiting {
        var s1 := s.(deferred := None);
        HandleAnswers(c, s1, w, s.deferred.value, first, h, a);
        AdvanceAnswers(c, Handle(c, s1, w, s.deferred.value).s, w, first, a);
      }
    case UnsolicitedTick => PollAnswers(c, s, w, first, a);
    case _ =>
  }

  lemma {:induction false} RunAnswers(c: Config, s: State, turns: seq<Turn>, first: Received, h: Header, a: Answer)
    requires Answering(s, first, a) && CalmRun(c, s, first, turns)
    requires ParseRequestHeader(first.frag) == Some(h) && a.seqNo == h.seqNo
    ensures var out := Serve(c, s, turns); Answering(out.s, first, a) && OnlyAnswers(out.io, a)
  {
    hide Do, Calm, Answering, ParseRequestHeader, IsPart;
    if turns != [] {
      var init, t := turns[..|turns| - 1], turns[|turns| - 1];
      assert forall k :: 0 <= k < |init| ==> init[..k] == turns[..k];
      RunAnswers(c, s, init, first, h, a);
      StepAnswers(c, Serve(c, s, init).s, t.w, t.step, first, h, a);
    }
  }

  // ---------- The first answer ----------

  /** What a request that is not a repeat was answered with. */
  function AnswerOf(s: State, h: Header): Answer {
    Answer(h.seqNo, s.last.bodies, s.last.hasEvents, s.last.errors)
  }

  /** Ready to answer `r`, which is remembered and not yet answered. */
  predicate Remembered(s: State, r: Received) {
    s.last == Last(true, r.source, r.frag, [], false, {}) && s.p.bodies == [] && !s.p.awaiting && !r.broadcast
  }

  ghost predicate Answered(out: Out, w: World, r: Received, a: Answer) {
    && Answering(out.s, r, a) && OnlyAnswers(out.io, a)
    && if a.bodies == [] then out.io == [] && out.s.p.bodies == [] else Started(out, w, a)
  }

  lemma ReadAnswers(c: Config, s: State, w: World, r: Received, h: Header)
    requires Remembered(s, r) && r.content.EventRead?
    ensures var out := OnRead(c, s, w, r, h.seqNo); Answered(out, w, r, AnswerOf(out.s, h))
  {
    hide SendFragments, BuildEvents, SelectItems, ApplyOps, EnvOf, IsPart, EB.Discard, Started, OnlyAnswers;
    var sel := SelectItems(s.buf, r.content.items);
    var built := BuildEvents(EnvOf(c, s, w), NewBuilder(c.maxTx), sel.events);
    var buf := if sel.events == [] then sel.buf else EB.Discard(sel.buf, built.unsent);
    var s' := s.(buf := buf, iin := s.iin + r.content.errors);
    SendAnswers(c, s', w, r, h.seqNo, Done(ApplyOps(built.b, r.content.later)), |built.unsent| < |sel.events|,
                s'.iin * REQUEST_ERRORS);
  }

  lemma EffectAnswers(c: Config, s: State, w: World, r: Received, h: Header)
    requires Remembered(s, r) && r.content.Effect?
    ensures var out := OnEffect(c, s, w, r, h.seqNo, h.func); Answered(out, w, r, AnswerOf(out.s, h))
  {
    hide SendFragments, Raise, IsPart, NoReply, EB.Reset, Started;
    var x := r.content;
    var buf := Raise(if x.wipe then EB.Reset(s.buf) else s.buf, x.raised);
    var s' := s.(buf := buf, iin := s.iin + x.errors,
                 unsolClasses := if x.classes.Some? then x.classes.value else s.unsolClasses);
    if !NoReply(h.func) && x.reply != [] {
      SendAnswers(c, s', w, r, h.seqNo, PlainBodies(x.reply), false, s'.iin * REQUEST_ERRORS);
    }
  }

  lemma ExecuteAnswers(c: Config, s: State, w: World, r: Received, h: Header)
    requires Orderly(s) && !r.broadcast
    ensures var out := Execute(c, s, w, r, h); Answered(out, w, r, AnswerOf(out.s, h))
  {
    hide OnRead, OnEffect, IsPart, EB.Unselect, Started;
    var s1 := AbandonResponse(Remember(s, r));
    if r.content.EventRead? && h.func == FUNC_READ {
      ReadAnswers(c, s1, w, r, h);
    } else if r.content.Effect? {
      EffectAnswers(c, s1, w, r, h);
    }
  }

  /** What a request sends at once, after what it logs. */
  function SentBy(out: Out): Out {
    if |out.io| >= 2 && out.io[0].Asked? && out.io[1].Executed? then Out(out.s, out.io[2..])
    else if |out.io| >= 1 && out.io[0].Asked? then Out(out.s, out.io[1..])
    else out
  }

  lemma FirstAnswer(c: Config, s: State, w: World, r: Received, h: Header)
    requires Orderly(s) && Dispatched(s, r, h) && !IsRepeat(s, r)
    ensures var out := Handle(c, s, w, r);
      var a := AnswerOf(out.s, h);
      Answered(SentBy(out), w, r, a)
  {
    hide Execute, ParseRequestHeader, IsPart;
    var (held, s') := DeferRead(s, r);
    assert !held;
    ExecuteAnswers(c, s', w, r, h);
    var out := Execute(c, s', w, r, h);
    assert Handle(c, s, w, r).io == [Asked(r.source, r.frag), Executed(r.source, r.frag)] + out.io;
    assert SentBy(Handle(c, s, w, r)).io == out.io;
  }

  // ---------- Every state a connection reaches is orderly ----------

  lemma SendOrderly(c: Config, s: State, w: World, r: Received, seqNo: SeqNum, bodies: seq<Body>, hasEvents: bool)
    requires bodies != [] && Orderly(s)
    ensures Orderly(SendFragments(c, s, w, r, seqNo, bodies, hasEvents).s)
  {
    hide CurrentIin, EB.Confirm, SeqPlus;
  }

  lemma ExecuteOrderly(c: Config, s: State, w: World, r: Received, h: Header)
    requires Orderly(s)
    ensures Orderly(Execute(c, s, w, r, h).s)
  {
    hide SendFragments, BuildEvents, SelectItems, ApplyOps, Raise, EnvOf, NoReply, EB.Unselect, EB.Discard, EB.Reset;
    var s1 := AbandonResponse(Remember(s, r));
    var s2 := if r.broadcast then s1.(iin := s1.iin + {Broadcast}, broadcastConfirm := r.mandatoryConfirm) else s1;
    if r.content.EventRead? && h.func == FUNC_READ {
      var sel := SelectItems(s2.buf, r.content.items);
      var built := BuildEvents(EnvOf(c, s2, w), NewBuilder(c.maxTx), sel.events);
      var buf := if sel.events == [] then sel.buf else EB.Discard(sel.buf, built.unsent);
      SendOrderly(c, s2.(buf := buf, iin := s2.iin + r.content.errors), w, r, h.seqNo,
                  Done(ApplyOps(built.b, r.content.later)), |built.unsent| < |sel.events|);
    } else if r.content.Effect? && r.content.reply != [] {
      var x := r.content;
      var buf := Raise(if x.wipe then EB.Reset(s2.buf) else s2.buf, x.raised);
      SendOrderly(c, s2.(buf := buf, iin := s2.iin + x.errors,
                         unsolClasses := if x.classes.Some? then x.classes.value else s2.unsolClasses),
                  w, r, h.seqNo, PlainBodies(x.reply), false);
    }
  }

  lemma HandleOrderly(c: Config, s: State, w: World, r: Received)
    requires Orderly(s)
    ensures Orderly(Handle(c, s, w, r).s)
  {
    hide Execute, SendFragments, ParseRequestHeader, EB.Confirm, NoReply;
    var (held, s') := DeferRead(s, r);
    var hdr := ParseRequestHeader(r.frag);
    if !held && hdr.Some? {
      var h := hdr.value;
      if r.content.Malformed? { SendOrderly(c, s'.(iin := s'.iin + {r.content.error}), w, r, h.seqNo, [EMPTY_BODY], false); }
      ExecuteOrderly(c, s', w, r, h);
      if s'.last.bodies != [] {
        SendOrderly(c, s'.(p := s'.p.(awaiting := false, bodies := [], index := 0), iin := s'.iin + s'.last.errors),
                    w, r, h.seqNo, s'.last.bodies, s'.last.hasEvents);
      }
    }
  }

  lemma {:induction false} RunOrderly(
      c: Config, buf: EB.Buffer, iin: set<Iin>, classes: set<EventClass>, turns: seq<Turn>)
    ensures Orderly(Serve(c, Connected(buf, iin, classes), turns).s)
  {
    hide Handle, PollUnsolicited, Raise, CurrentIin, EB.Confirm, EB.Unselect;
    if turns != [] {
      RunOrderly(c, buf, iin, classes, turns[..|turns| - 1]);
      var t, s := turns[|turns| - 1], Serve(c, Connected(buf, iin, classes), turns[..|turns| - 1]).s;
      PollOrderly(c, s, t.w);
      match t.step
      case Receive(r) => HandleOrderly(c, s, t.w, r);
      case Resume =>
        if s.deferred.Some? { HandleOrderly(c, s.(deferred := None), t.w, s.deferred.value); }
      case _ =>
    }
  }

  lemma PollOrderly(c: Config, s: State, w: World)
    ensures PollUnsolicited(c, s, w).s.p == s.p
  {
    hide UF.FitCount, BuildEvents, CurrentIin, Done;
  }

  /** A request taken up: as it arrives, or, a read held back, when it is resumed. */
  function TakenUp(c: Config, s: State, w: World, r: Received, resumed: bool): Out {
    if resumed then ResumeDeferredRead(c, s, w) else Handle(c, s, w, r)
  }

  predicate IsTakenUp(s: State, r: Received, h: Header, resumed: bool) {
    Dispatched(s, r, h) && !IsRepeat(s, r) && (resumed ==> s.deferred == Some(r) && !s.u.awaiting)
  }

  lemma FirstTakenUp(c: Config, s: State, w: World, r: Received, h: Header, resumed: bool)
    requires Orderly(s) && IsTakenUp(s, r, h, resumed)
    ensures var out := TakenUp(c, s, w, r, resumed); Answered(SentBy(out), w, r, AnswerOf(out.s, h))
  {
    hide Handle, ParseRequestHeader, IsPart, OnlyAnswers;
    if resumed {
      var s1 := s.(deferred := None);
      FirstAnswer(c, s1, w, r, h);
      var out := Handle(c, s1, w, r);
      NothingFurther(c, out.s, w);
      assert out.io + [] == out.io;
    } else {
      FirstAnswer(c, s, w, r, h);
    }
  }

  lemma NothingFurther(c: Config, s: State, w: World)
    requires w.busy || s.p.awaiting || s.p.bodies == []
    ensures AdvanceResponse(c, s, w) == Out(s, [])
  {
  }

  /** Any number of repeats of a request are answered alike. From any state a connection
      reaches, let a request be taken up, as it arrives or resumed, and let anything follow but
      another request or one that cannot be parsed: confirmations, repeats, repeats held back and
      resumed, timeouts, updates, unsolicited responses. Then nothing further is carried out; every
      solicited fragment sent is a fragment of the answer the request got, at its place in it; and a
      further repeat starts that answer over from its first fragment, as the request did, with at
      least the request errors the request was told of. */
  lemma RepeatsAnswerAlike(
    c: Config, buf: EB.Buffer, iin: set<Iin>, classes: set<EventClass>, before: seq<Turn>,
    w: World, first: Received, h: Header, resumed: bool, turns: seq<Turn>, w': World, again: Received)
    requires var s := Serve(c, Connected(buf, iin, classes), before).s;
      var s1 := TakenUp(c, s, w, first, resumed).s;
      && IsTakenUp(s, first, h, resumed)
      && CalmRun(c, s1, first, turns)
      && RepeatOf(again, first) && Dispatched(Serve(c, s1, turns).s, again, h)
    ensures var s := Serve(c, Connected(buf, iin, classes), before).s;
      var answered := TakenUp(c, s, w, first, resumed);
      var a := AnswerOf(answered.s, h);
      var run := Serve(c, answered.s, turns);
      var out := Handle(c, run.s, w', again);
      && OnlyAnswers(SentBy(answered).io, a) && OnlyAnswers(run.io, a) && OnlyAnswers(out.io, a)
      && AnswerOf(out.s, h).(errors := a.errors) == a && a.errors <= out.s.last.errors
      && (a.bodies == [] ==> SentBy(answered).io == [])
      && (a.bodies != [] ==> Started(SentBy(answered), w, a) && Started(SentBy(out), w', a))
  {
    hide Serve, Handle, Started, IsPart, ParseRequestHeader, CalmRun, IsRepeat, Connected, TakenUp;
    var s := Serve(c, Connected(buf, iin, classes), before).s;
    RunOrderly(c, buf, iin, classes, before);
    FirstTakenUp(c, s, w, first, h, resumed);
    var answered := TakenUp(c, s, w, first, resumed);
    var a := AnswerOf(answered.s, h);
    SentByKeeps(answered);
    RunAnswers(c, answered.s, turns, first, h, a);
    RepeatStartsOver(c, Serve(c, answered.s, turns).s, w', again, first, h, a);
  }

  lemma SentByKeeps(out: Out)
    ensures SentBy(out).s == out.s
  {
  }

  lemma RepeatStartsOver(c: Config, s: State, w: World, r: Received, first: Received, h: Header, a: Answer)
    requires Answering(s, first, a) && RepeatOf(r, first) && Dispatched(s, r, h) && a.seqNo == h.seqNo
    ensures var out := Handle(c, s, w, r);
      && Answering(out.s, first, a) && OnlyAnswers(out.io, a)
      && (a.bodies != [] ==> Started(SentBy(out), w, a))
  {
    hide Dispatch, IsPart, ParseRequestHeader;
    var (held, s') := DeferRead(s, r);
    assert !held;
    RepeatAnswers(c, s', w, r, first, h, a);
    var out := Dispatch(c, s', w, r);
    assert |out.io| >= 2 ==> !out.io[1].Executed?;
  }

  /** The limit of it: a fragment that cannot be parsed is answered with an empty body, which
      then is what the request last acted on is taken to have been answered with. */
  lemma MalformedReplacesAnswer(c: Config, s: State, w: World, r: Received, h: Header)
    requires r.content.Malformed? && ParseRequestHeader(r.frag) == Some(h) && !r.broadcast && h.fir && h.fin
    requires h.func != FUNC_CONFIRM && !NoReply(h.func) && !IsResponse(h.func)
    ensures var s' := Dispatch(c, s, w, r).s;
      s'.last == s.last.(bodies := [EMPTY_BODY], hasEvents := false, errors := (s.iin + {r.content.error}) * REQUEST_ERRORS)
  {
    hide CurrentIin, ParseRequestHeader;
  }
}
