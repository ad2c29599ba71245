/** The outstation session as it updates its fields, each method proved against the step it
    specifies. */
module OutstationSession {
  import opened Protocol
  import opened Events
  import opened Wire
  import opened EventFragments
  import opened Unsolicited
  import opened Outstation
  import EB = EventBuffers
  import UF = UnsolicitedFit

  class Session {
    const cfg: Config
    const buffer: EB.EventBuffer

    /** The response in progress, and the request last acted on with its answer. */
    var pending: Pending
    var last: Last

    var unsol: Unsol<Body>
    var deferredRead: Option<Received>
    var iin: set<Iin>
    var broadcastConfirm: bool
    var unsolClasses: set<EventClass>
    var synchronized: bool

    /** Everything the session has sent, been confirmed and removed, in order. */
    var trace: seq<Io>

    ghost predicate Valid()
      reads this, buffer
    {
      EB.Valid(buffer.View())
    }

    function View(): State
      reads this, buffer
    {
      State(buffer.View(), pending, unsol, last, deferredRead, iin, broadcastConfirm, unsolClasses, synchronized)
    }

    /** A session as a connection starts to be served. */
    constructor (cfg: Config, buffer: EB.EventBuffer, iin: set<Iin>, classes: set<EventClass>)
      requires EB.Valid(buffer.View())
      ensures Valid() && View() == Connected(buffer.View(), iin, classes) && trace == []
      ensures this.cfg == cfg && this.buffer == buffer
    {
      this.cfg, this.buffer := cfg, buffer;
      pending := Pending([], 0, 0, false, false, 0, 0);
      last := Last(false, 0, [], [], false, {});
      unsol := Unsolicited.Reset();
      deferredRead := None;
      this.iin, broadcastConfirm, unsolClasses, synchronized := iin, false, classes, false;
      trace := [];
    }

    method Finish()
      requires Valid()
      modifies this, buffer
      ensures Valid()
      ensures var out := FinishResponse(old(View())); View() == out.s && trace == old(trace) + out.io
    {
      hide EB.Valid, EB.Confirm;
      var hasEvents := pending.hasEvents;
      pending := pending.(bodies := [], index := 0);
      if hasEvents {
        trace := trace + [Removed(SelectedIds(buffer.events))];
        var _ := buffer.ConfirmAll();
      }
      iin := iin - ({Broadcast} + REQUEST_ERRORS);
    }

    method Advance(w: World)
      requires Valid()
      modifies this, buffer
      ensures Valid()
      ensures var out := AdvanceResponse(cfg, old(View()), w); View() == out.s && trace == old(trace) + out.io
    {
      hide EB.Valid, CurrentIin, FinishResponse;
      if pending.bodies == [] || pending.awaiting || w.busy {
        return;
      }
      if pending.index >= |pending.bodies| {
        Finish();
        return;
      }
      var i := pending.index;
      var isLast := i == |pending.bodies| - 1;
      var needConfirm := !isLast || pending.hasEvents || (Broadcast in iin && broadcastConfirm);
      var seqNo := SeqPlus(pending.seqNo, i);
      trace := trace + [Sent(Fragment(i == 0, isLast, needConfirm, false, seqNo, CurrentIin(View()), pending.bodies[i]))];
      pending := pending.(index := i + 1);
      if needConfirm {
        pending := pending.(awaiting := true, confirmSeq := seqNo, deadline := w.wall + cfg.confirmTimeout);
      } else {
        Finish();
      }
    }

    method Start(w: World, r: Received, seqNo: SeqNum, bodies: seq<Body>, hasEvents: bool)
      requires Valid()
      modifies this, buffer
      ensures Valid()
      ensures var out := SendFragments(cfg, old(View()), w, r, seqNo, bodies, hasEvents);
        View() == out.s && trace == old(trace) + out.io
    {
      hide EB.Valid, AdvanceResponse;
      if r.broadcast {
        return;
      }
      pending := pending.(bodies := bodies, index := 0, seqNo := seqNo, hasEvents := hasEvents);
      last := last.(bodies := bodies, hasEvents := hasEvents, errors := iin * REQUEST_ERRORS);
      Advance(w);
    }

    method Abandon()
      requires Valid()
      modifies this, buffer
      ensures Valid() && View() == AbandonResponse(old(View())) && trace == old(trace)
    {
      hide EB.Valid, EB.Unselect;
      if pending.bodies == [] {
        return;
      }
      if pending.hasEvents {
        buffer.UnselectAll();
      }
      pending := pending.(awaiting := false, bodies := [], index := 0);
    }

    method CheckTimeout(w: World)
      requires Valid()
      modifies this, buffer
      ensures Valid() && View() == CheckConfirmTimeout(old(View()), w) && trace == old(trace)
    {
      hide EB.Valid, EB.Unselect;
      if !pending.awaiting || w.wall < pending.deadline {
        return;
      }
      pending := pending.(awaiting := false, bodies := [], index := 0);
      buffer.UnselectAll();
    }

    method Confirmed(seqNo: SeqNum)
      requires Valid()
      modifies this, buffer
      ensures Valid()
      ensures var out := Outstation.OnConfirm(old(View()), seqNo); View() == out.s && trace == old(trace) + out.io
    {
      hide EB.Valid, FinishResponse;
      if !pending.awaiting || seqNo != pending.confirmSeq {
        return;
      }
      pending := pending.(awaiting := false);
      if pending.index >= |pending.bodies| {
        Finish();
      }
    }

    method UnsolicitedConfirmed(seqNo: SeqNum)
      requires Valid()
      modifies this, buffer
      ensures Valid()
      ensures var out := OnUnsolicitedConfirm(old(View()), seqNo); View() == out.s && trace == old(trace) + out.io
    {
      hide EB.Valid, EB.Confirm;
      if !unsol.awaiting || seqNo != unsol.awaitSeq {
        return;
      }
      var wasNull := !unsol.nullConfirmed;
      unsol := unsol.(awaiting := false, retries := 0, kept := None, nullConfirmed := true);
      if !wasNull {
        trace := trace + [Removed(SelectedIds(buffer.events))];
        var _ := buffer.ConfirmAll();
      }
    }

    /** Selects each item's events in the request's order. */
    method SelectAll(items: seq<ReadItem>) returns (selected: seq<Event>)
      requires Valid()
      modifies buffer
      ensures Valid()
      ensures var sel := SelectItems(old(buffer.View()), items); buffer.View() == sel.buf && selected == sel.events
    {
      hide EB.Valid, EB.Taken, EB.Select, Revaried;
      selected := [];
      for k := 0 to |items|
        invariant Valid()
        invariant var sel := SelectItems(old(buffer.View()), items[..k]); buffer.View() == sel.buf && selected == sel.events
      {
        assert items[..k + 1][..k] == items[..k];
        var taken := buffer.SelectWhere(items[k].query, items[k].limit);
        selected := selected + Revaried(taken, items[k].variation);
      }
      assert items[..|items|] == items;
    }

    method Read(w: World, r: Received, seqNo: SeqNum)
      requires Valid() && r.content.EventRead?
      modifies this, buffer
      ensures Valid()
      ensures var out := OnRead(cfg, old(View()), w, r, seqNo); View() == out.s && trace == old(trace) + out.io
    {
      hide EB.Valid, SendFragments, BuildEvents, SelectItems, ApplyOps, Done, EB.Discard;
      var env := EnvOf(cfg, View(), w);
      var selected := SelectAll(r.content.items);
      var built := BuildEvents(env, NewBuilder(cfg.maxTx), selected);
      if selected != [] {
        buffer.DiscardSome(built.unsent);
      }
      iin := iin + r.content.errors;
      Start(w, r, seqNo, Done(ApplyOps(built.b, r.content.later)), |built.unsent| < |selected|);
    }

    /** Queues events in order, as an update to the database raises them. */
    method RaiseAll(raised: seq<Event>)
      requires Valid()
      modifies buffer
      ensures Valid() && buffer.View() == Raise(old(buffer.View()), raised)
    {
      hide EB.Valid, EB.Add;
      for k := 0 to |raised|
        invariant Valid() && buffer.View() == Raise(old(buffer.View()), raised[..k])
      {
        assert raised[..k + 1][..k] == raised[..k];
        buffer.Enqueue(raised[k]);
      }
      assert raised[..|raised|] == raised;
    }

    method CarryOut(w: World, r: Received, seqNo: SeqNum, func: Octet)
      requires Valid() && r.content.Effect?
      modifies this, buffer
      ensures Valid()
      ensures var out := OnEffect(cfg, old(View()), w, r, seqNo, func); View() == out.s && trace == old(trace) + out.io
    {
      hide EB.Valid, SendFragments, Raise, EB.Reset, PlainBodies;
      var x := r.content;
      if x.wipe {
        buffer.Wipe();
      }
      RaiseAll(x.raised);
      iin := iin + x.errors;
      if x.classes.Some? {
        unsolClasses := x.classes.value;
      }
      if !(NoReply(func) || r.broadcast || x.reply == []) {
        Start(w, r, seqNo, PlainBodies(x.reply), false);
      }
    }

    method Replay(w: World, r: Received, seqNo: SeqNum)
      requires Valid()
      modifies this, buffer
      ensures Valid()
      ensures var out := ReplayResponse(cfg, old(View()), w, r, seqNo); View() == out.s && trace == old(trace) + out.io
    {
      hide EB.Valid, SendFragments;
      if r.broadcast || last.bodies == [] {
        return;
      }
      pending := pending.(awaiting := false, bodies := [], index := 0);
      iin := iin + last.errors;
      Start(w, r, seqNo, last.bodies, last.hasEvents);
    }

    method Reject(w: World, r: Received)
      requires Valid() && r.content.Malformed?
      modifies this, buffer
      ensures Valid()
      ensures var out := RejectMalformed(cfg, old(View()), w, r); View() == out.s && trace == old(trace) + out.io
    {
      hide EB.Valid, SendFragments, ParseRequestHeader;
      var hdr := ParseRequestHeader(r.frag);
      if hdr.None? || IsResponse(hdr.value.func) {
        iin := iin + {ParameterError};
        return;
      }
      iin := iin + {r.content.error};
      var h := hdr.value;
      if h.func == FUNC_CONFIRM || NoReply(h.func) || r.broadcast || !h.fir || !h.fin {
        return;
      }
      Start(w, r, h.seqNo, [EMPTY_BODY], false);
    }

    method Run(w: World, r: Received, h: Header)
      requires Valid()
      modifies this, buffer
      ensures Valid()
      ensures var out := Execute(cfg, old(View()), w, r, h); View() == out.s && trace == old(trace) + out.io
    {
      hide EB.Valid, OnRead, OnEffect, AbandonResponse;
      last := Last(true, r.source, r.frag, [], false, {});
      Abandon();
      if r.broadcast {
        iin, broadcastConfirm := iin + {Broadcast}, r.mandatoryConfirm;
      }
      if r.content.EventRead? && h.func == FUNC_READ {
        Read(w, r, h.seqNo);
      } else if r.content.Effect? {
        CarryOut(w, r, h.seqNo, h.func);
      }
    }

    method DispatchRequest(w: World, r: Received)
      requires Valid()
      modifies this, buffer
      ensures Valid()
      ensures var out := Dispatch(cfg, old(View()), w, r); View() == out.s && trace == old(trace) + out.io
    {
      hide EB.Valid, Execute, ReplayResponse, RejectMalformed, OnUnsolicitedConfirm, Outstation.OnConfirm,
           ParseRequestHeader;
      if r.content.Malformed? {
        Reject(w, r);
        return;
      }
      var hdr := ParseRequestHeader(r.frag);
      if hdr.None? || !hdr.value.fir || !hdr.value.fin {
        iin := iin + {ParameterError};
        return;
      }
      var h := hdr.value;
      if h.func == FUNC_CONFIRM {
        if |r.frag| > 2 {
          return;
        }
        trace := trace + [GotConfirm(h.uns, h.seqNo)];
        if h.uns { UnsolicitedConfirmed(h.seqNo); } else { Confirmed(h.seqNo); }
        return;
      }
      if h.con || h.uns {
        return;
      }
      if last.valid && r.source == last.source && r.frag == last.frag {
        trace := trace + [Asked(r.source, r.frag)];
        Replay(w, r, h.seqNo);
        return;
      }
      trace := trace + [Asked(r.source, r.frag), Executed(r.source, r.frag)];
      Run(w, r, h);
    }

    /** Holds a read back while an unsolicited response awaits its confirmation. */
    method Defer(r: Received) returns (held: bool)
      requires Valid()
      modifies this`deferredRead
      ensures Valid() && (held, View()) == DeferRead(old(View()), r)
    {
      hide EB.Valid, ParseRequestHeader;
      if !unsol.awaiting || r.broadcast {
        return false;
      }
      var hdr := ParseRequestHeader(r.frag);
      if hdr.None? || IsResponse(hdr.value.func) || hdr.value.func == FUNC_CONFIRM {
        return false;
      }
      if hdr.value.func != FUNC_READ {
        deferredRead := None;
        return false;
      }
      deferredRead := Some(r);
      return true;
    }

    method HandleRequest(w: World, r: Received)
      requires Valid()
      modifies this, buffer
      ensures Valid()
      ensures var out := Handle(cfg, old(View()), w, r); View() == out.s && trace == old(trace) + out.io
    {
      hide EB.Valid, Dispatch, DeferRead;
      var held := Defer(r);
      if !held {
        DispatchRequest(w, r);
      }
    }

    method ResumeDeferred(w: World)
      requires Valid()
      modifies this, buffer
      ensures Valid()
      ensures var out := ResumeDeferredRead(cfg, old(View()), w); View() == out.s && trace == old(trace) + out.io
    {
      hide EB.Valid, Handle, AdvanceResponse;
      if deferredRead.None? || unsol.awaiting {
        return;
      }
      var r := deferredRead.value;
      deferredRead := None;
      HandleRequest(w, r);
      Advance(w);
    }

    /** Cuts the selected events to one fragment, hands the rest back, and transmits. */
    method SendUnsolicited(w: World, events: seq<Event>)
      requires Valid() && events != []
      modifies this, buffer
      ensures Valid()
      ensures var out := SendEventsUnsolicited(cfg, old(View()), w, events); View() == out.s && trace == old(trace) + out.io
    {
      hide EB.Valid, BuildEvents, UF.FitCount, Done, EB.Discard, EB.Release, CurrentIin;
      var env := EnvOf(cfg, View(), w);
      var fit := UF.EventsThatFit(env, cfg.maxTx, events);
      buffer.ReleaseSome(events[fit..]);
      var built := BuildEvents(env, NewBuilder(cfg.maxTx), events[..fit]);
      buffer.DiscardSome(built.unsent);
      var body := Done(built.b)[0];
      unsol := unsol.(seqNo := SeqPlus(unsol.seqNo, 1));
      trace := trace + [Sent(Fragment(true, true, true, true, unsol.seqNo, CurrentIin(View()), body))];
      SameIndications(View(), View().(u := OnSend(old(unsol), cfg.pace, body, false, w.now)));
      unsol := unsol.(awaiting := true, awaitSeq := unsol.seqNo, deadline := w.now + cfg.pace.confirmTimeout,
                      kept := Some(body));
    }

    method Report(w: World)
      requires Valid()
      modifies this, buffer
      ensures Valid()
      ensures var out := ReportEvents(cfg, old(View()), w); View() == out.s && trace == old(trace) + out.io
    {
      hide EB.Valid, SendEventsUnsolicited, EB.Taken, EB.Select;
      if unsolClasses == {} {
        return;
      }
      var pending := buffer.Count(unsolClasses);
      if pending == 0 {
        return;
      }
      if HeldBack(cfg, View(), w, pending) {
        if unsol.firstEventAt.None? {
          unsol := unsol.(firstEventAt := Some(w.now));
        }
        return;
      }
      unsol := unsol.(firstEventAt := None);
      var events := buffer.SelectWhere(ByClass(unsolClasses), UNSOLICITED_LIMIT);
      if events != [] {
        SendUnsolicited(w, events);
      }
    }

    method Poll(w: World)
      requires Valid()
      modifies this, buffer
      ensures Valid()
      ensures var out := PollUnsolicited(cfg, old(View()), w); View() == out.s && trace == old(trace) + out.io
    {
      hide EB.Valid, EB.Unselect, CurrentIin, ReportEvents;
      match Decide(unsol, cfg.pace, pending.bodies != [], w.now)
      case Idle =>
      case TimeOut =>
        if GivesUp(unsol, cfg.pace, deferredRead.Some?) {
          buffer.UnselectAll();
        }
        unsol := OnTimeout(unsol, cfg.pace, deferredRead.Some?, w.now);
      case Retry =>
        unsol := OnRetry(unsol, cfg.pace, w.now);
        trace := trace + [Sent(Fragment(true, true, true, true, unsol.seqNo, CurrentIin(View()), unsol.kept.value))];
      case SendNull =>
        unsol := OnSend(unsol, cfg.pace, EMPTY_BODY, true, w.now);
        trace := trace + [Sent(Fragment(true, true, true, true, unsol.seqNo, CurrentIin(View()), EMPTY_BODY))];
      case Report => Report(w);
    }

    method Turn(w: World, step: Step)
      requires Valid()
      modifies this, buffer
      ensures Valid()
      ensures var out := Do(cfg, old(View()), w, step); View() == out.s && trace == old(trace) + out.io
    {
      hide EB.Valid, Handle, AdvanceResponse, ResumeDeferredRead, CheckConfirmTimeout, PollUnsolicited, Raise;
      match step
      case Receive(r) => HandleRequest(w, r);
      case Advance => Advance(w);
      case Resume => ResumeDeferred(w);
      case ConfirmTick => CheckTimeout(w);
      case UnsolicitedTick => Poll(w);
      case Update(raised) => RaiseAll(raised);
      case ClockSet(on) => synchronized := on;
    }

    /** Serves a connection: the fields after any sequence of turns are those of the
        specification's run, and so is the trace. */
    method ServeAll(turns: seq<Turn>)
      requires Valid()
      modifies this, buffer
      ensures Valid()
      ensures var out := Serve(cfg, old(View()), turns); View() == out.s && trace == old(trace) + out.io
    {
      hide EB.Valid, Do;
      for k := 0 to |turns|
        invariant Valid()
        invariant var out := Serve(cfg, old(View()), turns[..k]); View() == out.s && trace == old(trace) + out.io
      {
        assert turns[..k + 1][..k] == turns[..k];
        Turn(turns[k].w, turns[k].step);
      }
      assert turns[..|turns|] == turns;
    }
  }

  lemma SameIndications(s: State, s': State)
    requires s.buf == s'.buf && s.iin == s'.iin
    ensures CurrentIin(s) == CurrentIin(s')
  {
  }
}
