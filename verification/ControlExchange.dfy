/** Select-and-operate, both ends: what a master may conclude from the statuses it is sent, when
    any of its requests may arrive more than once. */
module ControlExchange {
  import opened Protocol
  import opened Wire
  import opened Outstation
  import opened Commands
  import opened CommandRequests
  import opened SelectOperate

  /** A request as the master sends it. */
  function RequestOctets(func: Octet, seqNo: SeqNum, cmds: seq<Command>): seq<Octet> {
    [0xC0 + seqNo, func] + EncodeAll(Build(cmds))
  }

  /** When a copy of a request arrives, and the device it finds. */
  datatype Arrival = Arrival(now: int, dev: Device)

  /** One call: who calls, the number its select goes out under, its commands, and the arrivals of
      either request, the first and any further copies. `stored` is what the outstation last
      answered with, which it answers with again if this very select is what it last acted on. */
  datatype Attempt = Attempt(
    source: nat, seqNo: SeqNum, cmds: seq<Command>,
    select: Arrival, selectCopies: seq<Arrival>, operate: Arrival, operateCopies: seq<Arrival>, stored: seq<Status>)

  function Arrived(x: Attempt, func: Octet, a: Arrival): Request {
    Request(x.source, RequestOctets(func, if func == FUNC_SELECT then x.seqNo else SeqPlus(x.seqNo, 1), x.cmds),
            true, a.now, a.dev)
  }

  function Copies(x: Attempt, func: Octet, copies: seq<Arrival>): seq<SelectOperate.Step> {
    seq(|copies|, i requires 0 <= i < |copies| => Requested(Arrived(x, func, copies[i])))
  }

  /** The statuses the master reads out of a response. */
  function StatusesRead(sizes: Sizes, reply: Option<seq<ObjectHeader>>): seq<Status> {
    if reply.None? then []
    else
      match ParseObjects(sizes, EncodeAll(reply.value))
      case None => []
      case Some(hs) => AllStatuses(hs)
  }

  /** What the master takes for success: some status, and every one a success. */
  predicate Ok(statuses: seq<Status>) {
    statuses != [] && AllSuccess(statuses)
  }

  /** The outstation afterwards, and what the master read from either response. */
  datatype Outcome = Outcome(s: Controls, selected: seq<Status>, operated: Option<seq<Status>>)

  function SelectPass(cfg: Settings, s: Controls, x: Attempt): Controls {
    Run(cfg, OnRequest(cfg, s, Arrived(x, FUNC_SELECT, x.select)), Copies(x, FUNC_SELECT, x.selectCopies))
  }

  /** The select is taken for a repeat of the last request. */
  predicate Replayed(s: Controls, x: Attempt) {
    s.last == Some((x.source, RequestOctets(FUNC_SELECT, x.seqNo, x.cmds)))
  }

  /** Select, and operate if and only if the select was a success. */
  function Perform(cfg: Settings, s: Controls, x: Attempt): Outcome {
    var sel, op := Arrived(x, FUNC_SELECT, x.select), Arrived(x, FUNC_OPERATE, x.operate);
    var selected := if Replayed(s, x) then x.stored else StatusesRead(cfg.sizes, ReplyTo(cfg, s, sel, false));
    var s1 := SelectPass(cfg, s, x);
    if !Ok(selected) then Outcome(s1, selected, None)
    else
      Outcome(Run(cfg, OnRequest(cfg, s1, op), Copies(x, FUNC_OPERATE, x.operateCopies)), selected,
              Some(StatusesRead(cfg.sizes, ReplyTo(cfg, s1, op, false))))
  }

  /** One call of the handler for each command, in order, each answered with success. */
  function CallsFor(cmds: seq<Command>, kind: Kind): seq<Call> {
    seq(|cmds|, i requires 0 <= i < |cmds| => Call(Named(cmds[i]), kind, SUCCESS))
  }

  // ---------- The requests ----------

  lemma RequestParses(func: Octet, seqNo: SeqNum, cmds: seq<Command>)
    requires IsCommand(func)
    ensures var frag := RequestOctets(func, seqNo, cmds);
      ParseRequestHeader(frag) == Some(Header(true, true, false, false, seqNo, func)) && frag[2..] == EncodeAll(Build(cmds))
  {
    hide EncodeAll, Build;
  }

  ghost predicate Sound(cfg: Settings, cmds: seq<Command>) {
    Sized(cfg.sizes) && cmds != [] && (forall c :: c in cmds ==> Makes(c)) && RunsFit(cmds)
  }

  /** The command a request is when it arrives, and what it is answered with. */
  lemma Carried(cfg: Settings, s: Controls, x: Attempt, func: Octet, a: Arrival)
    requires Sound(cfg, x.cmds) && func in {FUNC_SELECT, FUNC_OPERATE}
    requires s.last != Some((x.source, Arrived(x, func, a).frag))
    ensures var r := Arrived(x, func, a);
      var h := Header(true, true, false, false, if func == FUNC_SELECT then x.seqNo else SeqPlus(x.seqNo, 1), func);
      && OnRequest(cfg, s, r) == OnCommand(cfg, s.(last := Some((r.source, r.frag))), r, h, Build(x.cmds))
      && StatusesRead(cfg.sizes, ReplyTo(cfg, s, r, false)) == Judge(OrderOf(s, r, h), NamedAll(x.cmds)).statuses
  {
    hide Build, EncodeAll, ParseObjects, Judge, RunsFit, Makes, Sized, NamedAll, OnCommand, OrderOf, AllStatuses,
         CarriedOut,
         ParseRequestHeader, AllControls;
    var r := Arrived(x, func, a);
    var h := Header(true, true, false, false, if func == FUNC_SELECT then x.seqNo else SeqPlus(x.seqNo, 1), func);
    RequestParses(func, h.seqNo, x.cmds);
    RequestSurvives(cfg.sizes, x.cmds);
    StatusesReachTheMaster(cfg.sizes, OrderOf(s, r, h), EncodeAll(Build(x.cmds)));
  }

  /** Copies of the request just carried out do nothing. */
  lemma {:induction false} CopiesIgnored(cfg: Settings, s: Controls, x: Attempt, func: Octet, copies: seq<Arrival>)
    requires Sound(cfg, x.cmds) && func in {FUNC_SELECT, FUNC_OPERATE}
    requires var n := if func == FUNC_SELECT then x.seqNo else SeqPlus(x.seqNo, 1);
      s.last == Some((x.source, RequestOctets(func, n, x.cmds)))
    ensures Run(cfg, s, Copies(x, func, copies)) == s
  {
    hide Build, EncodeAll, ParseObjects, RunsFit, Makes, Sized, OnCommand, RequestOctets, ParseRequestHeader;
    if copies != [] {
      var init, steps := copies[..|copies| - 1], Copies(x, func, copies);
      CopiesIgnored(cfg, s, x, func, init);
      assert steps[..|steps| - 1] == Copies(x, func, init);
      assert OnRequest(cfg, s, Arrived(x, func, copies[|copies| - 1])) == s;
    }
  }

  // ---------- What success means ----------

  /** When every status is a success, the handler was asked about each command once, in order. */
  lemma {:induction false} AskedOnce(o: Order, cmds: seq<Command>)
    requires AllSuccess(Judge(o, NamedAll(cmds)).statuses)
    ensures Judge(o, NamedAll(cmds)).calls == CallsFor(cmds, o.kind)
    ensures cmds != [] ==> o.gate == SUCCESS
  {
    hide Known, Named;
    if cmds != [] {
      var init, cs := cmds[..|cmds| - 1], NamedAll(cmds);
      assert cs[..|cs| - 1] == NamedAll(init);
      var t, t' := Judge(o, NamedAll(init)), Judge(o, cs);
      assert t'.statuses[..|t.statuses|] == t.statuses;
      assert forall s :: s in t.statuses ==> s in t'.statuses;
      assert t'.statuses[|t.statuses|] in t'.statuses;
      AskedOnce(o, init);
      assert CallsFor(cmds, o.kind) == CallsFor(init, o.kind) + [Call(Named(cmds[|cmds| - 1]), o.kind, SUCCESS)];
    }
  }

  /** What the select leaves: the calls it made, and a selection if and only if it succeeded. */
  lemma SelectLeaves(cfg: Settings, s: Controls, x: Attempt)
    requires Sound(cfg, x.cmds) && s.last != Some((x.source, RequestOctets(FUNC_SELECT, x.seqNo, x.cmds)))
    ensures var s1 := SelectPass(cfg, s, x);
      var t := Judge(Order(x.select.dev, s.asked, Selecting, SUCCESS), NamedAll(x.cmds));
      && s1.asked == s.asked + t.calls && s1.last == Some((x.source, RequestOctets(FUNC_SELECT, x.seqNo, x.cmds)))
      && StatusesRead(cfg.sizes, ReplyTo(cfg, s, Arrived(x, FUNC_SELECT, x.select), false)) == t.statuses
      && s1.sel.active == AllSuccess(t.statuses)
      && (s1.sel.active ==> s1.sel == Selection(true, EncodeAll(Build(x.cmds)), x.seqNo, x.select.now + cfg.selectTimeout))
  {
    hide Build, EncodeAll, Judge, RunsFit, Makes, Sized, NamedAll, AllControls, Echo, Errors, ReplyTo, OnRequest, Run,
         AllSuccess, StatusesRead;
    Carried(cfg, s, x, FUNC_SELECT, x.select);
    RequestSurvives(cfg.sizes, x.cmds);
    RequestParses(FUNC_SELECT, x.seqNo, x.cmds);
    CopiesIgnored(cfg, OnRequest(cfg, s, Arrived(x, FUNC_SELECT, x.select)), x, FUNC_SELECT, x.selectCopies);
  }

  lemma OperateLeaves(cfg: Settings, s: Controls, x: Attempt)
    requires Sound(cfg, x.cmds) && s.last != Some((x.source, RequestOctets(FUNC_OPERATE, SeqPlus(x.seqNo, 1), x.cmds)))
    ensures var op := Arrived(x, FUNC_OPERATE, x.operate);
      var s' := Run(cfg, OnRequest(cfg, s, op), Copies(x, FUNC_OPERATE, x.operateCopies));
      var gate := Matches(s.sel, EncodeAll(Build(x.cmds)), SeqPlus(x.seqNo, 1), x.operate.now);
      var t := Judge(Order(x.operate.dev, s.asked, AfterSelect, gate), NamedAll(x.cmds));
      && s'.asked == s.asked + t.calls && !s'.sel.active
      && StatusesRead(cfg.sizes, ReplyTo(cfg, s, op, false)) == t.statuses
  {
    hide Build, EncodeAll, Judge, RunsFit, Makes, Sized, NamedAll, AllControls, Echo, Errors, ReplyTo, OnRequest, Run,
         StatusesRead, Matches;
    Carried(cfg, s, x, FUNC_OPERATE, x.operate);
    RequestSurvives(cfg.sizes, x.cmds);
    RequestParses(FUNC_OPERATE, SeqPlus(x.seqNo, 1), x.cmds);
    CopiesIgnored(cfg, OnRequest(cfg, s, Arrived(x, FUNC_OPERATE, x.operate)), x, FUNC_OPERATE, x.operateCopies);
  }

  /** From any state of the outstation, however many copies of either request arrive:
      - a success means the handler was asked to select, and then to operate, each command of the
        list once, in order, and agreed every time, and was asked nothing else; but for a select
        that is taken for a repeat, for which it was asked before;
      - if the select was refused nothing is operated, and the operate is never sent;
      - an operate that arrives within the select's window is let through: its outcome is the
        handler's own; one that arrives later asks the handler nothing, and is not a success. */
  lemma SuccessMeansOnce(cfg: Settings, s: Controls, x: Attempt)
    requires Sound(cfg, x.cmds)
    ensures var out := Perform(cfg, s, x);
      var picked := if Replayed(s, x) then []
        else Judge(Order(x.select.dev, s.asked, Selecting, SUCCESS), NamedAll(x.cmds)).calls;
      && (out.operated.Some? <==> Ok(out.selected))
      && (forall y :: y in picked ==> y.kind == Selecting)
      && (out.operated.None? ==> out.s.asked == s.asked + picked)
      && (out.operated.Some? && !Replayed(s, x) ==> picked == CallsFor(x.cmds, Selecting))
      && (out.operated.Some? && Ok(out.operated.value) ==>
            |out.operated.value| == |x.cmds| && out.s.asked == s.asked + picked + CallsFor(x.cmds, AfterSelect))
  {
    hide Build, EncodeAll, Judge, RunsFit, Makes, Sized, AllControls, ReplyTo, OnRequest, Run, SelectPass,
         StatusesRead, AllSuccess,
         Replayed, RequestOctets;
    SelectedOnce(cfg, s, x);
    var s1 := SelectPass(cfg, s, x);
    if Ok(Perform(cfg, s, x).selected) {
      FunctionsDiffer(x);
      OperateLeaves(cfg, s1, x);
      var o := Order(x.operate.dev, s1.asked, AfterSelect,
                     Matches(s1.sel, EncodeAll(Build(x.cmds)), SeqPlus(x.seqNo, 1), x.operate.now));
      if AllSuccess(Judge(o, NamedAll(x.cmds)).statuses) { AskedOnce(o, x.cmds); }
    }
  }

  /** What the first pass asks the handler. */
  lemma SelectedOnce(cfg: Settings, s: Controls, x: Attempt)
    requires Sound(cfg, x.cmds)
    ensures var s1, out := SelectPass(cfg, s, x), Perform(cfg, s, x);
      var t := Judge(Order(x.select.dev, s.asked, Selecting, SUCCESS), NamedAll(x.cmds));
      && s1.last == Some((x.source, RequestOctets(FUNC_SELECT, x.seqNo, x.cmds)))
      && (if Replayed(s, x) then s1 == s
          else
            && out.selected == t.statuses && s1.asked == s.asked + t.calls
            && (Ok(out.selected) ==> t.calls == CallsFor(x.cmds, Selecting)))
      && (forall y :: y in t.calls ==> y.kind == Selecting)
  {
    hide Build, EncodeAll, Judge, RunsFit, Makes, Sized, AllControls, ReplyTo, OnRequest, Run, StatusesRead,
         AllSuccess, RequestOctets;
    var o := Order(x.select.dev, s.asked, Selecting, SUCCESS);
    CallsAreFor(o, NamedAll(x.cmds));
    if Replayed(s, x) {
      ReplayLeaves(cfg, s, x);
    } else {
      SelectLeaves(cfg, s, x);
      if AllSuccess(Judge(o, NamedAll(x.cmds)).statuses) { AskedOnce(o, x.cmds); }
    }
  }

  /** A select taken for a repeat leaves everything as it was. */
  lemma ReplayLeaves(cfg: Settings, s: Controls, x: Attempt)
    requires Sound(cfg, x.cmds) && Replayed(s, x)
    ensures SelectPass(cfg, s, x) == s
  {
    hide Build, EncodeAll, RunsFit, Makes, Sized, OnRequest, RequestOctets;
    var one := [x.select];
    CopiesIgnored(cfg, s, x, FUNC_SELECT, one);
    assert Copies(x, FUNC_SELECT, one)[..0] == [];
    assert Copies(x, FUNC_SELECT, one)[0] == Requested(Arrived(x, FUNC_SELECT, x.select));
    CopiesIgnored(cfg, s, x, FUNC_SELECT, x.selectCopies);
  }

  /** The window. After a select that succeeded now, an operate inside its window has the outcome
      the handler gives it, and one past it asks the handler nothing and is not a success. */
  lemma WindowDecides(cfg: Settings, s: Controls, x: Attempt)
    requires Sound(cfg, x.cmds) && !Replayed(s, x) && Ok(Perform(cfg, s, x).selected)
    ensures var out := Perform(cfg, s, x);
      var asked := s.asked + CallsFor(x.cmds, Selecting);
      var done := Judge(Order(x.operate.dev, asked, AfterSelect, SUCCESS), NamedAll(x.cmds));
      && out.operated.Some?
      && (if x.operate.now > x.select.now + cfg.selectTimeout
          then !Ok(out.operated.value) && out.s.asked == asked
          else out.operated.value == done.statuses && out.s.asked == asked + done.calls)
  {
    hide Build, EncodeAll, Judge, RunsFit, Makes, Sized, AllControls, ReplyTo, OnRequest, Run, SelectPass,
         StatusesRead, AllSuccess,
         RequestOctets;
    SelectLeaves(cfg, s, x);
    SelectedOnce(cfg, s, x);
    FunctionsDiffer(x);
    var s1 := SelectPass(cfg, s, x);
    OperateLeaves(cfg, s1, x);
    var o := Order(x.operate.dev, s1.asked, AfterSelect,
                   Matches(s1.sel, EncodeAll(Build(x.cmds)), SeqPlus(x.seqNo, 1), x.operate.now));
    CallsAreFor(o, NamedAll(x.cmds));
    if AllSuccess(Judge(o, NamedAll(x.cmds)).statuses) { AskedOnce(o, x.cmds); }
  }

  lemma FunctionsDiffer(x: Attempt)
    ensures RequestOctets(FUNC_SELECT, x.seqNo, x.cmds) != RequestOctets(FUNC_OPERATE, SeqPlus(x.seqNo, 1), x.cmds)
  {
    hide EncodeAll, Build;
    assert RequestOctets(FUNC_SELECT, x.seqNo, x.cmds)[1] != RequestOctets(FUNC_OPERATE, SeqPlus(x.seqNo, 1), x.cmds)[1];
  }
}
