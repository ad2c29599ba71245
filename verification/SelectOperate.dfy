/** Select-before-operate: the outstation's selection, and what its command handler is asked over
    whole runs of requests. */
module SelectOperate {
  import opened Protocol
  import opened Wire
  import opened Commands
  import opened Outstation

  const FUNC_SELECT: Octet := 3
  const FUNC_OPERATE: Octet := 4
  const FUNC_DIRECT_OPERATE: Octet := 5
  const FUNC_DIRECT_OPERATE_NR: Octet := 6

  /** What a SELECT leaves behind for the OPERATE that follows. */
  datatype Selection = Selection(active: bool, objects: seq<Octet>, seqNo: SeqNum, expires: int)

  const NO_SELECTION := Selection(false, [], 0, 0)

  function Cleared(sel: Selection): Selection {
    sel.(active := false, objects := [])
  }

  /** Whether an operate corresponds to the live selection, and if not why. */
  function Matches(sel: Selection, objects: seq<Octet>, seqNo: SeqNum, now: int): Status {
    if !sel.active then NO_SELECT
    else if now > sel.expires then TIMEOUT
    else if seqNo != SeqPlus(sel.seqNo, 1) then NO_SELECT
    else if sel.objects != objects then NO_SELECT
    else SUCCESS
  }

  predicate AllSuccess(statuses: seq<Status>) {
    forall s :: s in statuses ==> s == SUCCESS
  }

  // ---------- Requests and what they do ----------

  /** A command request carried out, with the handler calls it made and the statuses it gave. */
  datatype Entry =
    | SelectDone(objects: seq<Octet>, seqNo: SeqNum, expires: int, calls: seq<Call>, statuses: seq<Status>)
    | OperateDone(objects: seq<Octet>, seqNo: SeqNum, at: int, calls: seq<Call>, statuses: seq<Status>)
    | DirectDone(calls: seq<Call>, statuses: seq<Status>)

  /** `asked` is every call the handler has had; `last` the request last acted on, on this
      connection. */
  datatype Controls = Controls(sel: Selection, asked: seq<Call>, last: Option<(nat, seq<Octet>)>, log: seq<Entry>)

  datatype Settings = Settings(sizes: Sizes, selectTimeout: int)

  /** A request as received; `parses` is for those that are not commands. */
  datatype Request = Request(source: nat, frag: seq<Octet>, parses: bool, now: int, dev: Device)

  predicate IsCommand(func: Octet) {
    FUNC_SELECT <= func <= FUNC_DIRECT_OPERATE_NR
  }

  function OnSelect(
      cfg: Settings, s: Controls, r: Request, seqNo: SeqNum, objects: seq<Octet>, hs: seq<ObjectHeader>): Controls {
    var t := CarriedOut(Order(r.dev, s.asked, Selecting, SUCCESS), hs).tally;
    var expires := r.now + cfg.selectTimeout;
    s.(sel := if AllSuccess(t.statuses) then Selection(true, objects, seqNo, expires) else Cleared(s.sel),
       asked := s.asked + t.calls,
       log := s.log + [SelectDone(objects, seqNo, expires, t.calls, t.statuses)])
  }

  function OnOperate(s: Controls, r: Request, seqNo: SeqNum, objects: seq<Octet>, hs: seq<ObjectHeader>): Controls {
    var gate := Matches(s.sel, objects, seqNo, r.now);
    var t := CarriedOut(Order(r.dev, s.asked, AfterSelect, gate), hs).tally;
    s.(sel := Cleared(s.sel), asked := s.asked + t.calls,
       log := s.log + [OperateDone(objects, seqNo, r.now, t.calls, t.statuses)])
  }

  function OnDirect(s: Controls, r: Request, kind: Kind, hs: seq<ObjectHeader>): Controls {
    var t := CarriedOut(Order(r.dev, s.asked, kind, SUCCESS), hs).tally;
    s.(asked := s.asked + t.calls, log := s.log + [DirectDone(t.calls, t.statuses)])
  }

  function OnCommand(cfg: Settings, s: Controls, r: Request, h: Header, hs: seq<ObjectHeader>): Controls
    requires |r.frag| >= 2
  {
    var objects := r.frag[2..];
    if h.func == FUNC_SELECT then OnSelect(cfg, s, r, h.seqNo, objects, hs)
    else if h.func == FUNC_OPERATE then OnOperate(s, r, h.seqNo, objects, hs)
    else OnDirect(s, r, if h.func == FUNC_DIRECT_OPERATE_NR then DirectNoAck else Direct, hs)
  }

  /** What a command request asks of the handler. */
  function OrderOf(s: Controls, r: Request, h: Header): Order
    requires |r.frag| >= 2
  {
    if h.func == FUNC_SELECT then Order(r.dev, s.asked, Selecting, SUCCESS)
    else if h.func == FUNC_OPERATE then Order(r.dev, s.asked, AfterSelect, Matches(s.sel, r.frag[2..], h.seqNo, r.now))
    else Order(r.dev, s.asked, if h.func == FUNC_DIRECT_OPERATE_NR then DirectNoAck else Direct, SUCCESS)
  }

  /** A request: one that does not parse is refused before anything else looks at it, a repeat
      of the last is answered from store, and the rest are carried out. */
  function OnRequest(cfg: Settings, s: Controls, r: Request): Controls {
    match ParseRequestHeader(r.frag)
    case None => s
    case Some(h) =>
      if !h.fir || !h.fin || h.con || h.uns || h.func == FUNC_CONFIRM then s
      else if !IsCommand(h.func) then if r.parses then s.(last := Some((r.source, r.frag))) else s
      else
        match ParseObjects(cfg.sizes, r.frag[2..])
        case None => s
        case Some(hs) =>
          if s.last == Some((r.source, r.frag)) then s
          else OnCommand(cfg, s.(last := Some((r.source, r.frag))), r, h, hs)
  }

  /** What a request is answered with, when it is a command carried out now and to be answered. */
  function ReplyTo(cfg: Settings, s: Controls, r: Request, broadcast: bool): Option<seq<ObjectHeader>> {
    match ParseRequestHeader(r.frag)
    case None => None
    case Some(h) =>
      if !h.fir || !h.fin || h.con || h.uns || !IsCommand(h.func) then None
      else
        match ParseObjects(cfg.sizes, r.frag[2..])
        case None => None
        case Some(hs) =>
          if s.last == Some((r.source, r.frag)) || broadcast || h.func == FUNC_DIRECT_OPERATE_NR then None
          else Some(CarriedOut(OrderOf(s, r, h), hs).body)
  }

  datatype Step = Requested(r: Request) | Reconnected

  function Next(cfg: Settings, s: Controls, step: Step): Controls {
    match step
    case Requested(r) => OnRequest(cfg, s, r)
    case Reconnected => s.(last := None)
  }

  function Run(cfg: Settings, s: Controls, steps: seq<Step>): Controls {
    if steps == [] then s else Next(cfg, Run(cfg, s, steps[..|steps| - 1]), steps[|steps| - 1])
  }

  const START := Controls(NO_SELECTION, [], None, [])

  // ---------- What the handler is asked ----------

  /** Every call of one request is for one of its commands and of the request's kind, and none
      is made at all when the selection refused it. */
  lemma {:induction false} CallsAreFor(o: Order, cs: seq<Control>)
    ensures forall x :: x in Judge(o, cs).calls ==> x.control in cs && x.kind == o.kind
    ensures o.gate != SUCCESS ==> Judge(o, cs).calls == []
  {
    hide Known;
    if cs != [] { CallsAreFor(o, cs[..|cs| - 1]); }
  }

  /** When every status is a success the handler was asked about every command, and agreed. */
  lemma {:induction false} AllAgreed(o: Order, cs: seq<Control>)
    requires AllSuccess(Judge(o, cs).statuses)
    ensures forall c :: c in cs ==> Call(c, o.kind, SUCCESS) in Judge(o, cs).calls
  {
    hide Known;
    if cs != [] {
      var init, c := cs[..|cs| - 1], cs[|cs| - 1];
      var t, t' := Judge(o, init), Judge(o, cs);
      assert t'.statuses[..|t.statuses|] == t.statuses;
      assert forall s :: s in t.statuses ==> s in t'.statuses;
      AllAgreed(o, init);
      assert t'.statuses[|t.statuses|] in t'.statuses;
      assert t'.calls == t.calls + [Call(c, o.kind, SUCCESS)];
    }
  }

  // ---------- Over whole runs ----------

  /** The last SELECT or OPERATE carried out. */
  function Latest(log: seq<Entry>): Option<Entry> {
    if log == [] then None
    else if log[|log| - 1].DirectDone? then Latest(log[..|log| - 1])
    else Some(log[|log| - 1])
  }

  /** An OPERATE was authorised by a SELECT: every status a success, the same octets, the next
      number, inside the window, and every point it operated one the handler had accepted. */
  ghost predicate Authorises(sel: Entry, op: Entry) {
    && sel.SelectDone? && op.OperateDone?
    && AllSuccess(sel.statuses) && sel.objects == op.objects
    && op.seqNo == SeqPlus(sel.seqNo, 1) && op.at <= sel.expires
    && (forall x :: x in op.calls ==> Call(x.control, Selecting, SUCCESS) in sel.calls)
  }

  /** Every OPERATE that reached the handler was authorised by the SELECT just before it, with
      no other SELECT or OPERATE between them. */
  ghost predicate EntryOk(log: seq<Entry>, j: nat)
    requires j < |log|
  {
    && (log[j].OperateDone? && log[j].calls != [] ==>
          Latest(log[..j]).Some? && Authorises(Latest(log[..j]).value, log[j]))
    && (forall x :: x in log[j].calls && x.kind == AfterSelect ==> log[j].OperateDone?)
  }

  ghost predicate LogOk(log: seq<Entry>) {
    forall j :: 0 <= j < |log| ==> EntryOk(log, j)
  }

  /** A live selection is the one the latest entry left. */
  ghost predicate SelectionOk(cfg: Settings, s: Controls) {
    s.sel.active ==>
      && Latest(s.log).Some? && Latest(s.log).value.SelectDone?
      && var e := Latest(s.log).value;
      && e.objects == s.sel.objects && e.seqNo == s.sel.seqNo && e.expires == s.sel.expires
      && AllSuccess(e.statuses)
      && ParseObjects(cfg.sizes, e.objects).Some?
      && forall c :: c in AllControls(ParseObjects(cfg.sizes, e.objects).value) ==> Call(c, Selecting, SUCCESS) in e.calls
  }

  ghost predicate Inv(cfg: Settings, s: Controls) {
    LogOk(s.log) && SelectionOk(cfg, s)
  }

  lemma LogSnoc(log: seq<Entry>, e: Entry)
    requires LogOk(log)
    requires e.OperateDone? && e.calls != [] ==> Latest(log).Some? && Authorises(Latest(log).value, e)
    requires forall x :: x in e.calls && x.kind == AfterSelect ==> e.OperateDone?
    ensures LogOk(log + [e]) && Latest(log + [e]) == if e.DirectDone? then Latest(log) else Some(e)
  {
    hide Authorises, Latest;
    forall j | 0 <= j < |log + [e]| ensures EntryOk(log + [e], j) {
      if j < |log| {
        assert (log + [e])[..j] == log[..j];
        assert EntryOk(log, j);
      } else {
        assert (log + [e])[..j] == log;
      }
    }
    LatestSnoc(log, e);
  }

  lemma LatestSnoc(log: seq<Entry>, e: Entry)
    ensures Latest(log + [e]) == if e.DirectDone? then Latest(log) else Some(e)
  {
    assert (log + [e])[..|log|] == log;
  }

  lemma SelectKeeps(cfg: Settings, s: Controls, r: Request, seqNo: SeqNum, objects: seq<Octet>, hs: seq<ObjectHeader>)
    requires Inv(cfg, s) && ParseObjects(cfg.sizes, objects) == Some(hs)
    ensures Inv(cfg, OnSelect(cfg, s, r, seqNo, objects, hs))
  {
    hide LogOk, Latest, Judge, AllControls, ParseObjects, Echo, Errors;
    var o := Order(r.dev, s.asked, Selecting, SUCCESS);
    var cs := AllControls(hs);
    var t := Judge(o, cs);
    CallsAreFor(o, cs);
    LogSnoc(s.log, SelectDone(objects, seqNo, r.now + cfg.selectTimeout, t.calls, t.statuses));
    if AllSuccess(t.statuses) { AllAgreed(o, cs); }
  }

  lemma OperateKeeps(cfg: Settings, s: Controls, r: Request, seqNo: SeqNum, objects: seq<Octet>, hs: seq<ObjectHeader>)
    requires Inv(cfg, s) && ParseObjects(cfg.sizes, objects) == Some(hs)
    ensures Inv(cfg, OnOperate(s, r, seqNo, objects, hs))
  {
    hide LogOk, Latest, Judge, AllControls, ParseObjects, Echo, Errors, AllSuccess;
    var o := Order(r.dev, s.asked, AfterSelect, Matches(s.sel, objects, seqNo, r.now));
    var t := Judge(o, AllControls(hs));
    CallsAreFor(o, AllControls(hs));
    LogSnoc(s.log, OperateDone(objects, seqNo, r.now, t.calls, t.statuses));
  }

  lemma DirectKeeps(cfg: Settings, s: Controls, r: Request, kind: Kind, hs: seq<ObjectHeader>)
    requires Inv(cfg, s) && kind != AfterSelect
    ensures Inv(cfg, OnDirect(s, r, kind, hs))
  {
    hide LogOk, Latest, Judge, AllControls, ParseObjects, Echo, Errors, AllSuccess;
    var o := Order(r.dev, s.asked, kind, SUCCESS);
    var t := Judge(o, AllControls(hs));
    CallsAreFor(o, AllControls(hs));
    LogSnoc(s.log, DirectDone(t.calls, t.statuses));
  }

  lemma RequestKeeps(cfg: Settings, s: Controls, r: Request)
    requires Inv(cfg, s)
    ensures Inv(cfg, OnRequest(cfg, s, r))
  {
    hide LogOk, Latest, ParseObjects, OnSelect, OnOperate, OnDirect, ParseRequestHeader;
    var hdr := ParseRequestHeader(r.frag);
    HeaderLength(r.frag);
    if hdr.Some? && ParseObjects(cfg.sizes, r.frag[2..]).Some? {
      var h, hs, s' := hdr.value, ParseObjects(cfg.sizes, r.frag[2..]).value, s.(last := Some((r.source, r.frag)));
      SelectKeeps(cfg, s', r, h.seqNo, r.frag[2..], hs);
      OperateKeeps(cfg, s', r, h.seqNo, r.frag[2..], hs);
      DirectKeeps(cfg, s', r, if h.func == FUNC_DIRECT_OPERATE_NR then DirectNoAck else Direct, hs);
    }
  }

  lemma HeaderLength(frag: seq<Octet>)
    ensures ParseRequestHeader(frag).Some? ==> |frag| >= 2
  {
  }

  /** Over every run of requests, repeats and reconnections: whenever an after-select operate
      reaches the handler, the SELECT or OPERATE carried out just before it was a SELECT that
      the handler accepted in full, with the same octets, one number earlier and still inside
      its window, and the points operated are ones accepted then. Nothing else makes an
      after-select call. So each SELECT authorises at most one OPERATE. */
  lemma {:induction false} SelectBeforeOperate(cfg: Settings, steps: seq<Step>)
    ensures Inv(cfg, Run(cfg, START, steps))
  {
    hide LogOk, SelectionOk, OnRequest;
    if steps == [] {
      StartOk(cfg);
    } else {
      SelectBeforeOperate(cfg, steps[..|steps| - 1]);
      var s := Run(cfg, START, steps[..|steps| - 1]);
      match steps[|steps| - 1]
      case Requested(r) => RequestKeeps(cfg, s, r);
      case Reconnected => ReconnectKeeps(cfg, s);
    }
  }

  lemma StartOk(cfg: Settings)
    ensures Inv(cfg, START)
  {
  }

  lemma ReconnectKeeps(cfg: Settings, s: Controls)
    requires Inv(cfg, s)
    ensures Inv(cfg, s.(last := None))
  {
  }

  /** Between two operates that reached the handler there is a SELECT accepted in full. */
  lemma OneOperatePerSelect(cfg: Settings, steps: seq<Step>, j: nat, k: nat)
    requires var log := Run(cfg, START, steps).log;
      j < k < |log| && log[j].OperateDone? && log[k].OperateDone? && log[k].calls != []
    ensures var log := Run(cfg, START, steps).log;
      exists i :: j < i < k && Authorises(log[i], log[k])
  {
    hide AllSuccess, SelectionOk, Run;
    var log := Run(cfg, START, steps).log;
    SelectBeforeOperate(cfg, steps);
    assert EntryOk(log, k);
    LatestWhere(log[..k], j);
    var i :| j <= i < k && Latest(log[..k]) == Some(log[..k][i]);
    assert Authorises(log[i], log[k]);
  }

  /** The latest entry is somewhere after any that is not direct. */
  lemma {:induction false} LatestWhere(log: seq<Entry>, j: nat)
    requires j < |log| && !log[j].DirectDone?
    ensures exists i :: j <= i < |log| && Latest(log) == Some(log[i])
  {
    if log[|log| - 1].DirectDone? { LatestWhere(log[..|log| - 1], j); }
  }

  /** The sequence works when it is followed: the OPERATE right after a SELECT accepted in full,
      with the same octets, the next number and inside the window, is let through, and the
      handler is asked exactly as if there had been no selection to check. */
  lemma OperateFollowsSelect(
      cfg: Settings, s: Controls, sel: Request, op: Request, seqNo: SeqNum, objects: seq<Octet>, hs: seq<ObjectHeader>)
    requires AllSuccess(CarriedOut(Order(sel.dev, s.asked, Selecting, SUCCESS), hs).tally.statuses)
    requires op.now <= sel.now + cfg.selectTimeout
    ensures var s1 := OnSelect(cfg, s, sel, seqNo, objects, hs);
      var s2 := OnOperate(s1, op, SeqPlus(seqNo, 1), objects, hs);
      && s2.log[|s1.log|].calls == Judge(Order(op.dev, s1.asked, AfterSelect, SUCCESS), AllControls(hs)).calls
      && !s2.sel.active
  {
    hide Judge, AllControls, Echo, Errors, AllSuccess;
  }

  // ---------- The session ----------

  /** The part of the outstation session that holds the selection. */
  class CommandSession {
    const cfg: Settings
    var sel: Selection
    var asked: seq<Call>
    var last: Option<(nat, seq<Octet>)>
    var iin: set<Iin>
    var log: seq<Entry>

    constructor (cfg: Settings)
      ensures this.cfg == cfg && View() == START && iin == {}
    {
      this.cfg := cfg;
      sel, asked, last, iin, log := NO_SELECTION, [], None, {}, [];
    }

    function View(): Controls
      reads this
    {
      Controls(sel, asked, last, log)
    }

    /** Whether every outcome is a success, as the loop over them finds. */
    static method AllOk(statuses: seq<Status>) returns (ok: bool)
      ensures ok == AllSuccess(statuses)
    {
      ok := true;
      for i := 0 to |statuses|
        invariant ok && AllSuccess(statuses[..i])
      {
        if statuses[i] != SUCCESS {
          assert statuses[i] in statuses;
          return false;
        }
        assert statuses[..i + 1] == statuses[..i] + [statuses[i]];
      }
      assert statuses[..|statuses|] == statuses;
    }

    method Selects(
        r: Request, seqNo: SeqNum, objects: seq<Octet>, hs: seq<ObjectHeader>) returns (body: seq<ObjectHeader>)
      modifies this
      ensures View() == OnSelect(cfg, old(View()), r, seqNo, objects, hs)
      ensures body == CarriedOut(Order(r.dev, old(asked), Selecting, SUCCESS), hs).body
      ensures iin == old(iin) + CarriedOut(Order(r.dev, old(asked), Selecting, SUCCESS), hs).errors
    {
      hide CarriedOut, AllSuccess;
      var w := ExecuteCommands(Order(r.dev, asked, Selecting, SUCCESS), hs);
      var allOk := AllOk(w.tally.statuses);
      var expires := r.now + cfg.selectTimeout;
      sel := if allOk then Selection(true, objects, seqNo, expires) else Cleared(sel);
      asked, iin := asked + w.tally.calls, iin + w.errors;
      log := log + [SelectDone(objects, seqNo, expires, w.tally.calls, w.tally.statuses)];
      body := w.body;
    }

    /** An OPERATE consumes the selection whether or not it matches. */
    method Operates(
        r: Request, seqNo: SeqNum, objects: seq<Octet>, hs: seq<ObjectHeader>) returns (body: seq<ObjectHeader>)
      modifies this
      ensures View() == OnOperate(old(View()), r, seqNo, objects, hs)
      ensures body == CarriedOut(Order(r.dev, old(asked), AfterSelect, Matches(old(sel), objects, seqNo, r.now)), hs).body
      ensures iin == old(iin)
        + CarriedOut(Order(r.dev, old(asked), AfterSelect, Matches(old(sel), objects, seqNo, r.now)), hs).errors
    {
      hide CarriedOut, Matches;
      var gate := Matches(sel, objects, seqNo, r.now);
      sel := Cleared(sel);
      var w := ExecuteCommands(Order(r.dev, asked, AfterSelect, gate), hs);
      asked, iin := asked + w.tally.calls, iin + w.errors;
      log := log + [OperateDone(objects, seqNo, r.now, w.tally.calls, w.tally.statuses)];
      body := w.body;
    }

    method OperatesDirectly(r: Request, kind: Kind, hs: seq<ObjectHeader>) returns (body: seq<ObjectHeader>)
      modifies this
      ensures View() == OnDirect(old(View()), r, kind, hs)
      ensures body == CarriedOut(Order(r.dev, old(asked), kind, SUCCESS), hs).body
      ensures iin == old(iin) + CarriedOut(Order(r.dev, old(asked), kind, SUCCESS), hs).errors
    {
      hide CarriedOut;
      var w := ExecuteCommands(Order(r.dev, asked, kind, SUCCESS), hs);
      asked, iin := asked + w.tally.calls, iin + w.errors;
      log := log + [DirectDone(w.tally.calls, w.tally.statuses)];
      body := w.body;
    }

    /** One command request that is not a repeat; `None` when it is not to be answered. */
    method CarryOut(
        r: Request, h: Header, hs: seq<ObjectHeader>, broadcast: bool) returns (reply: Option<seq<ObjectHeader>>)
      requires |r.frag| >= 2 && IsCommand(h.func)
      modifies this
      ensures View() == OnCommand(cfg, old(View()), r, h, hs)
      ensures iin == old(iin) + CarriedOut(OrderOf(old(View()), r, h), hs).errors
      ensures reply == if broadcast || h.func == FUNC_DIRECT_OPERATE_NR then None
                       else Some(CarriedOut(OrderOf(old(View()), r, h), hs).body)
    {
      hide OnSelect, OnOperate, OnDirect, CarriedOut, Matches;
      var body;
      if h.func == FUNC_SELECT {
        body := Selects(r, h.seqNo, r.frag[2..], hs);
      } else if h.func == FUNC_OPERATE {
        body := Operates(r, h.seqNo, r.frag[2..], hs);
      } else {
        body := OperatesDirectly(r, if h.func == FUNC_DIRECT_OPERATE_NR then DirectNoAck else Direct, hs);
      }
      reply := if broadcast || h.func == FUNC_DIRECT_OPERATE_NR then None else Some(body);
    }

    /** One request as it arrives. */
    method Receive(r: Request, broadcast: bool) returns (reply: Option<seq<ObjectHeader>>)
      modifies this
      ensures View() == OnRequest(cfg, old(View()), r)
      ensures reply == ReplyTo(cfg, old(View()), r, broadcast)
    {
      hide OnCommand, ParseObjects, CarriedOut;
      reply := None;
      var hdr := ParseRequestHeader(r.frag);
      if hdr.None? { return; }
      var h := hdr.value;
      if !h.fir || !h.fin || h.con || h.uns || h.func == FUNC_CONFIRM { return; }
      if !IsCommand(h.func) {
        if r.parses { last := Some((r.source, r.frag)); }
        return;
      }
      var objects := ParseObjects(cfg.sizes, r.frag[2..]);
      if objects.None? || last == Some((r.source, r.frag)) { return; }
      last := Some((r.source, r.frag));
      reply := CarryOut(r, h, objects.value, broadcast);
    }
  }
}
