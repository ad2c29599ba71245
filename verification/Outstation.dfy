/** The outstation session: requests, responses sent one fragment at a time, unsolicited
    responses, and the event buffer they share. */
module Outstation {
  import opened Protocol
  import opened Events
  import opened Wire
  import opened ObjectTable
  import opened EventFragments
  import opened Unsolicited
  import EB = EventBuffers
  import UF = UnsolicitedFit

  // ---------- Indications and fragments ----------

  datatype Iin =
    | Broadcast | Class1Events | Class2Events | Class3Events | DeviceRestart | EventBufferOverflow
    | NoFuncCodeSupport | ObjectUnknown | ParameterError | AlreadyExecuting

  /** The indications that answer one request and are cleared once reported. */
  const REQUEST_ERRORS: set<Iin> := {NoFuncCodeSupport, ObjectUnknown, ParameterError, AlreadyExecuting}

  datatype Fragment = Fragment(
    fir: bool, fin: bool, con: bool, uns: bool, seqNo: SeqNum, iin: set<Iin>, body: Body)

  // ---------- Requests ----------

  datatype Header = Header(fir: bool, fin: bool, con: bool, uns: bool, seqNo: SeqNum, func: Octet)

  const FUNC_CONFIRM: Octet := 0
  const FUNC_READ: Octet := 1

  predicate IsResponse(func: Octet) {
    func == 129 || func == 130 || func == 131
  }

  /** The functions an outstation executes without answering. */
  predicate NoReply(func: Octet) {
    func == 6 || func == 8 || func == 10 || func == 12 || func == 33
  }

  function ParseRequestHeader(frag: seq<Octet>): Option<Header> {
    if |frag| < 2 || (IsResponse(frag[1]) && |frag| < 4) then None
    else
      var control := frag[0];
      Some(Header(control / 0x80 % 2 == 1, control / 0x40 % 2 == 1, control / 0x20 % 2 == 1,
                  control / 0x10 % 2 == 1, control % 0x10, frag[1]))
  }

  /** One event selection a read asks for, and the variation it names, if any. */
  datatype ReadItem = ReadItem(query: Query, limit: int, variation: Option<Octet>)

  /** What building the static part of a response does to the builder. */
  datatype BuilderOp = OpAdd(h: ObjectHeader) | OpFlush

  /** What a request's object section asks for.
      - `Malformed`: it could not be parsed, with the indication that earns.
      - `EventRead`: a read of events and static points.
      - `Effect`: anything else, with what carrying it out does: events it raises, whether it
        empties the buffer, the classes it leaves enabled, the indications it sets and the
        bodies it answers with. */
  datatype Content =
    | Malformed(error: Iin)
    | EventRead(items: seq<ReadItem>, later: seq<BuilderOp>, errors: set<Iin>)
    | Effect(raised: seq<Event>, wipe: bool, classes: Option<set<EventClass>>, errors: set<Iin>,
             reply: seq<seq<ObjectHeader>>)

  datatype Received = Received(
    source: nat, broadcast: bool, mandatoryConfirm: bool, frag: seq<Octet>, content: Content)

  /** What happens outside the session, in order. */
  datatype Io =
    | Sent(f: Fragment)
    | GotConfirm(uns: bool, seqNo: SeqNum)
    | Removed(nums: set<nat>)          // events confirmed away
    | Asked(source: nat, frag: seq<Octet>)     // a request that reached the repeat check
    | Executed(source: nat, frag: seq<Octet>)  // a request that was carried out

  // ---------- State ----------

  datatype Config = Config(codec: Codec, maxTx: int, confirmTimeout: int, pace: Pace)

  /** A response in progress: its bodies, the next to go out, and the wait for a confirmation. */
  datatype Pending = Pending(
    bodies: seq<Body>, index: nat, seqNo: SeqNum, hasEvents: bool,
    awaiting: bool, confirmSeq: SeqNum, deadline: int)

  /** The request last acted on and what it was answered with. */
  datatype Last = Last(
    valid: bool, source: nat, frag: seq<Octet>, bodies: seq<Body>, hasEvents: bool, errors: set<Iin>)

  datatype State = State(
    buf: EB.Buffer, p: Pending, u: Unsol<Body>, last: Last, deferred: Option<Received>,
    iin: set<Iin>, broadcastConfirm: bool, unsolClasses: set<EventClass>, synchronized: bool)

  /** A new state and what the step did on the way to it. */
  datatype Out = Out(s: State, io: seq<Io>)

  /** What the environment supplies to a step: the clocks and whether the link is busy. */
  datatype World = World(now: int, wall: int, busy: bool)

  function EnvOf(c: Config, s: State, w: World): Env {
    Env(c.codec, s.synchronized, w.now)
  }

  function CurrentIin(s: State): set<Iin> {
    var waiting := set e | e in s.buf.events && !e.selected :: e.classes;
    s.iin
    + (if exists cs :: cs in waiting && Class1 in cs then {Class1Events} else {})
    + (if exists cs :: cs in waiting && Class2 in cs then {Class2Events} else {})
    + (if exists cs :: cs in waiting && Class3 in cs then {Class3Events} else {})
    + (if s.buf.overflow then {EventBufferOverflow} else {})
  }

  // ---------- Sending a response, one fragment at a time ----------

  /** Closes out a response: only now are the events it carried dropped. */
  function FinishResponse(s: State): Out {
    var done := s.(p := s.p.(bodies := [], index := 0), iin := s.iin - ({Broadcast} + REQUEST_ERRORS));
    if s.p.hasEvents then Out(done.(buf := EB.Confirm(s.buf)), [Removed(SelectedIds(s.buf.events))])
    else Out(done, [])
  }

  /** Sends the next fragment if nothing holds it back. */
  function AdvanceResponse(c: Config, s: State, w: World): Out {
    if s.p.bodies == [] || s.p.awaiting || w.busy then Out(s, [])
    else if s.p.index >= |s.p.bodies| then FinishResponse(s)
    else
      var i := s.p.index;
      var isLast := i == |s.p.bodies| - 1;
      var con := !isLast || s.p.hasEvents || (Broadcast in s.iin && s.broadcastConfirm);
      var seqNo := SeqPlus(s.p.seqNo, i);
      var sent := Sent(Fragment(i == 0, isLast, con, false, seqNo, CurrentIin(s), s.p.bodies[i]));
      if con then
        Out(s.(p := s.p.(index := i + 1, awaiting := true, confirmSeq := seqNo,
                         deadline := w.wall + c.confirmTimeout)), [sent])
      else
        var out := FinishResponse(s.(p := s.p.(index := i + 1)));
        Out(out.s, [sent] + out.io)
  }

  /** Starts a response and sends as much of it as can go now. A broadcast is never answered. */
  function SendFragments(
      c: Config, s: State, w: World, r: Received, seqNo: SeqNum, bodies: seq<Body>, hasEvents: bool): Out {
    if r.broadcast then Out(s, [])
    else
      AdvanceResponse(c,
        s.(p := s.p.(bodies := bodies, index := 0, seqNo := seqNo, hasEvents := hasEvents),
           last := s.last.(bodies := bodies, hasEvents := hasEvents, errors := s.iin * REQUEST_ERRORS)), w)
  }

  /** Gives up on a response in progress, handing its events back. */
  function AbandonResponse(s: State): State {
    if s.p.bodies == [] then s
    else
      s.(buf := if s.p.hasEvents then EB.Unselect(s.buf) else s.buf,
         p := s.p.(awaiting := false, bodies := [], index := 0))
  }

  function CheckConfirmTimeout(s: State, w: World): State {
    if !s.p.awaiting || w.wall < s.p.deadline then s
    else s.(p := s.p.(awaiting := false, bodies := [], index := 0), buf := EB.Unselect(s.buf))
  }

  function OnConfirm(s: State, seqNo: SeqNum): Out {
    if !s.p.awaiting || seqNo != s.p.confirmSeq then Out(s, [])
    else
      var s' := s.(p := s.p.(awaiting := false));
      if s'.p.index >= |s'.p.bodies| then FinishResponse(s') else Out(s', [])
  }

  // ---------- Reading ----------

  datatype Selected = Selected(buf: EB.Buffer, events: seq<Event>)

  function Revaried(events: seq<Event>, variation: Option<Octet>): seq<Event> {
    if variation.None? then events
    else seq(|events|, i requires 0 <= i < |events| => events[i].(variation := variation.value))
  }

  /** Selects for each item in turn. */
  function SelectItems(b: EB.Buffer, items: seq<ReadItem>): Selected {
    if items == [] then Selected(b, [])
    else
      var before := SelectItems(b, items[..|items| - 1]);
      var item := items[|items| - 1];
      Selected(EB.Select(before.buf, item.query, item.limit),
               before.events + Revaried(EB.Taken(before.buf.events, item.query, item.limit), item.variation))
  }

  function ApplyOps(b: Builder, ops: seq<BuilderOp>): Builder {
    if ops == [] then b
    else
      var before := ApplyOps(b, ops[..|ops| - 1]);
      match ops[|ops| - 1]
      case OpAdd(h) => AddHeader(before, h, [])
      case OpFlush => Flush(before)
  }

  /** Selects and builds events first, then the static data, and sends the result. */
  function OnRead(c: Config, s: State, w: World, r: Received, seqNo: SeqNum): Out
    requires r.content.EventRead?
  {
    var sel := SelectItems(s.buf, r.content.items);
    var built := BuildEvents(EnvOf(c, s, w), NewBuilder(c.maxTx), sel.events);
    var bodies := Done(ApplyOps(built.b, r.content.later));
    var buf := if sel.events == [] then sel.buf else EB.Discard(sel.buf, built.unsent);
    SendFragments(c, s.(buf := buf, iin := s.iin + r.content.errors), w, r, seqNo, bodies,
                  |built.unsent| < |sel.events|)
  }

  function Raise(b: EB.Buffer, events: seq<Event>): EB.Buffer {
    if events == [] then b else EB.Add(Raise(b, events[..|events| - 1]), events[|events| - 1])
  }

  function PlainBodies(reply: seq<seq<ObjectHeader>>): seq<Body> {
    seq(|reply|, i requires 0 <= i < |reply| => Body(reply[i], []))
  }

  /** Carries out any other request. */
  function OnEffect(c: Config, s: State, w: World, r: Received, seqNo: SeqNum, func: Octet): Out
    requires r.content.Effect?
  {
    var x := r.content;
    var buf := Raise(if x.wipe then EB.Reset(s.buf) else s.buf, x.raised);
    var s' := s.(buf := buf, iin := s.iin + x.errors,
                 unsolClasses := if x.classes.Some? then x.classes.value else s.unsolClasses);
    if NoReply(func) || r.broadcast || x.reply == [] then Out(s', [])
    else SendFragments(c, s', w, r, seqNo, PlainBodies(x.reply), false)
  }

  // ---------- Dispatch ----------

  /** Holds a read back while an unsolicited response awaits its confirmation; any other
      request discards a read held so. */
  function DeferRead(s: State, r: Received): (bool, State) {
    var hdr := ParseRequestHeader(r.frag);
    if !s.u.awaiting || r.broadcast || hdr.None? then (false, s)
    else if IsResponse(hdr.value.func) || hdr.value.func == FUNC_CONFIRM then (false, s)
    else if hdr.value.func != FUNC_READ then (false, s.(deferred := None))
    else (true, s.(deferred := Some(r)))
  }

  predicate IsRepeat(s: State, r: Received) {
    s.last.valid && r.source == s.last.source && r.frag == s.last.frag
  }

  /** Sends the stored response again from its first fragment, without carrying anything out. */
  function ReplayResponse(c: Config, s: State, w: World, r: Received, seqNo: SeqNum): Out {
    if r.broadcast || s.last.bodies == [] then Out(s, [])
    else
      SendFragments(c,
        s.(p := s.p.(awaiting := false, bodies := [], index := 0), iin := s.iin + s.last.errors),
        w, r, seqNo, s.last.bodies, s.last.hasEvents)
  }

  function Remember(s: State, r: Received): State {
    s.(last := Last(true, r.source, r.frag, [], false, {}))
  }

  function RejectMalformed(c: Config, s: State, w: World, r: Received): Out
    requires r.content.Malformed?
  {
    match ParseRequestHeader(r.frag)
    case None => Out(s.(iin := s.iin + {ParameterError}), [])
    case Some(h) =>
      if IsResponse(h.func) then Out(s.(iin := s.iin + {ParameterError}), [])
      else
        var s' := s.(iin := s.iin + {r.content.error});
        if h.func == FUNC_CONFIRM || NoReply(h.func) || r.broadcast || !h.fir || !h.fin then Out(s', [])
        else SendFragments(c, s', w, r, h.seqNo, [EMPTY_BODY], false)
  }

  function OnUnsolicitedConfirm(s: State, seqNo: SeqNum): Out {
    if !Accepts(s.u, seqNo) then Out(s, [])
    else
      var s' := s.(u := Unsolicited.OnConfirm(s.u, seqNo));
      if !s.u.nullConfirmed then Out(s', [])
      else Out(s'.(buf := EB.Confirm(s.buf)), [Removed(SelectedIds(s.buf.events))])
  }

  /** One request that reached the repeat check. */
  function Execute(c: Config, s: State, w: World, r: Received, h: Header): Out {
    var s1 := AbandonResponse(Remember(s, r));
    var s2 := if r.broadcast then s1.(iin := s1.iin + {Broadcast}, broadcastConfirm := r.mandatoryConfirm) else s1;
    if r.content.EventRead? && h.func == FUNC_READ then OnRead(c, s2, w, r, h.seqNo)
    else if r.content.Effect? then OnEffect(c, s2, w, r, h.seqNo, h.func)
    else Out(s2, [])
  }

  /** Dispatches one request fragment that is not held back. */
  function Dispatch(c: Config, s: State, w: World, r: Received): Out {
    var hdr := ParseRequestHeader(r.frag);
    if r.content.Malformed? then RejectMalformed(c, s, w, r)
    else if hdr.None? then Out(s.(iin := s.iin + {ParameterError}), [])
    else
      var h := hdr.value;
      if !h.fir || !h.fin then Out(s.(iin := s.iin + {ParameterError}), [])
      else if h.func == FUNC_CONFIRM then
        if |r.frag| > 2 then Out(s, [])
        else
          var out := if h.uns then OnUnsolicitedConfirm(s, h.seqNo) else OnConfirm(s, h.seqNo);
          Out(out.s, [GotConfirm(h.uns, h.seqNo)] + out.io)
      else if h.con || h.uns then Out(s, [])
      else if IsRepeat(s, r) then
        var out := ReplayResponse(c, s, w, r, h.seqNo);
        Out(out.s, [Asked(r.source, r.frag)] + out.io)
      else
        var out := Execute(c, s, w, r, h);
        Out(out.s, [Asked(r.source, r.frag), Executed(r.source, r.frag)] + out.io)
  }

  function Handle(c: Config, s: State, w: World, r: Received): Out {
    var (held, s') := DeferRead(s, r);
    if held then Out(s', []) else Dispatch(c, s', w, r)
  }

  /** Answers the deferred read, once nothing unsolicited is awaiting confirmation. */
  function ResumeDeferredRead(c: Config, s: State, w: World): Out {
    if s.deferred.None? || s.u.awaiting then Out(s, [])
    else
      var out := Handle(c, s.(deferred := None), w, s.deferred.value);
      var more := AdvanceResponse(c, out.s, w);
      Out(more.s, out.io + more.io)
  }

  // ---------- Unsolicited responses ----------

  function UnsolFragment(s: State, body: Body): Io {
    Sent(Fragment(true, true, true, true, s.u.seqNo, CurrentIin(s), body))
  }

  function SendNullUnsolicited(c: Config, s: State, w: World): Out {
    var s' := s.(u := OnSend(s.u, c.pace, EMPTY_BODY, true, w.now));
    Out(s', [UnsolFragment(s', EMPTY_BODY)])
  }

  /** Cuts the selected events to what one fragment holds, hands the rest back, and sends. */
  function SendEventsUnsolicited(c: Config, s: State, w: World, events: seq<Event>): Out
    requires events != []
  {
    var env := EnvOf(c, s, w);
    var fit := UF.FitCount(env, c.maxTx, events);
    var built := BuildEvents(env, NewBuilder(c.maxTx), events[..fit]);
    var buf := EB.Discard(EB.Release(s.buf, events[fit..]), built.unsent);
    var body := Done(built.b)[0];
    var s' := s.(buf := buf, u := OnSend(s.u, c.pace, body, false, w.now));
    Out(s', [UnsolFragment(s', body)])
  }

  predicate HeldBack(c: Config, s: State, w: World, pending: nat) {
    && c.pace.holdTime > 0
    && !(c.pace.maxEvents > 0 && pending >= c.pace.maxEvents)
    && w.now - (if s.u.firstEventAt.Some? then s.u.firstEventAt.value else w.now) < c.pace.holdTime
  }

  const UNSOLICITED_LIMIT := 64

  function ReportEvents(c: Config, s: State, w: World): Out {
    var queued := set i | 0 <= i < |s.buf.events| && s.buf.events[i].classes * s.unsolClasses != {};
    if s.unsolClasses == {} || queued == {} then Out(s, [])
    else if HeldBack(c, s, w, |queued|) then
      Out(if s.u.firstEventAt.None? then s.(u := s.u.(firstEventAt := Some(w.now))) else s, [])
    else
      var q := ByClass(s.unsolClasses);
      var s' := s.(u := s.u.(firstEventAt := None), buf := EB.Select(s.buf, q, UNSOLICITED_LIMIT));
      var events := EB.Taken(s.buf.events, q, UNSOLICITED_LIMIT);
      if events == [] then Out(s', []) else SendEventsUnsolicited(c, s', w, events)
  }

  /** The unsolicited part of a tick. */
  function PollUnsolicited(c: Config, s: State, w: World): Out {
    match Decide(s.u, c.pace, s.p.bodies != [], w.now)
    case Idle => Out(s, [])
    case TimeOut =>
      Out(s.(u := OnTimeout(s.u, c.pace, s.deferred.Some?, w.now),
             buf := if GivesUp(s.u, c.pace, s.deferred.Some?) then EB.Unselect(s.buf) else s.buf), [])
    case Retry =>
      var s' := s.(u := OnRetry(s.u, c.pace, w.now));
      Out(s', if s.u.kept.Some? then [UnsolFragment(s', s.u.kept.value)] else [])
    case SendNull => SendNullUnsolicited(c, s, w)
    case Report => ReportEvents(c, s, w)
  }

  /** A confirmation as the outstation receives it: two octets. */
  function ConfirmMessage(source: nat, uns: bool, seqNo: SeqNum): Received {
    var control := (if uns then 0xD0 else 0xC0) + seqNo;
    Received(source, false, false, [control, FUNC_CONFIRM], Effect([], false, None, {}, []))
  }

  lemma ConfirmParses(source: nat, uns: bool, seqNo: SeqNum)
    ensures ParseRequestHeader(ConfirmMessage(source, uns, seqNo).frag)
         == Some(Header(true, true, false, uns, seqNo, FUNC_CONFIRM))
  {
  }

  // ---------- Runs ----------

  /** One turn of the session's loop, or one part of it: several requests may arrive before the
      response is advanced and the deferred read resumed. */
  datatype Step =
    | Receive(r: Received) | Advance | Resume | ConfirmTick | UnsolicitedTick
    | Update(raised: seq<Event>) | ClockSet(synchronized: bool)

  function Do(c: Config, s: State, w: World, step: Step): Out {
    match step
    case Receive(r) => Handle(c, s, w, r)
    case Advance => AdvanceResponse(c, s, w)
    case Resume => ResumeDeferredRead(c, s, w)
    case ConfirmTick => Out(CheckConfirmTimeout(s, w), [])
    case UnsolicitedTick => PollUnsolicited(c, s, w)
    case Update(raised) => Out(s.(buf := Raise(s.buf, raised)), [])
    case ClockSet(on) => Out(s.(synchronized := on), [])
  }

  /** A connection as it starts to be served. */
  function Connected(buf: EB.Buffer, iin: set<Iin>, classes: set<EventClass>): State {
    State(buf, Pending([], 0, 0, false, false, 0, 0), Unsolicited.Reset(), Last(false, 0, [], [], false, {}),
          None, iin, false, classes, false)
  }

  datatype Turn = Turn(w: World, step: Step)

  function Serve(c: Config, s: State, turns: seq<Turn>): Out {
    if turns == [] then Out(s, [])
    else
      var before := Serve(c, s, turns[..|turns| - 1]);
      var t := turns[|turns| - 1];
      var out := Do(c, before.s, t.w, t.step);
      Out(out.s, before.io + out.io)
  }
}
