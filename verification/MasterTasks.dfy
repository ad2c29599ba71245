/** The master session as a scheduler: what it queues, sends, completes and chains, and who is told
    the outcome. */
module MasterTasks {
  import opened Protocol
  import opened Outstation
  import opened ResponseSeries
  import opened Scheduler
  import opened Commands
  import opened SelectOperate

  const PRIORITY_STARTUP := 0
  const PRIORITY_COMMAND := 1

  /** The request in flight and its response so far. */
  datatype Flight = Flight(t: Task, series: Series)

  /** Requests on the wire, and completed responses with whether they carried command statuses
      that were all successes. A `successor` was sent straight after the task it follows. */
  datatype Event = Wired(seqNo: SeqNum, job: Job, successor: bool) | Answered(ok: bool)

  /** `line` is the queue in the order it will run; `submitted` and `scans` are every caller and
      periodic scan there has been, and `resolved` every caller told an outcome. */
  datatype Master = Master(
    line: seq<Task>, pushN: nat, inflight: Option<Flight>, seqNo: SeqNum, startupActive: bool, connected: bool,
    submitted: set<nat>, scans: set<nat>, resolved: multiset<nat>, trace: seq<Event>)

  const IDLE := Master([], 0, None, 0, false, false, {}, {}, multiset{}, [])

  // ---------- Queueing ----------

  function Push(s: Master, t: Task): Master {
    s.(pushN := s.pushN + 1, line := Insert(s.line, t.(order := s.pushN + 1)))
  }

  function Callers(ts: seq<Task>): multiset<nat> {
    if ts == [] then multiset{} else Callers(ts[..|ts| - 1]) + CallerOf(ts[|ts| - 1])
  }

  function CallerOf(t: Task): multiset<nat> {
    if t.caller.Some? then multiset{t.caller.value} else multiset{}
  }

  /** One startup step with `later` more to follow. */
  function StartupStep(later: nat): Task {
    Task(Other, PRIORITY_STARTUP, 0, None, true, later, false, false, None, 0, 0)
  }

  /** Drops every one-shot task, failing whoever waits on it, and queues the first of `steps`
      startup steps. */
  function StartupSequence(s: Master, steps: nat, now: int): Master
    requires steps >= 1
  {
    var cleared := s.(line := Kept(s.line), resolved := s.resolved + Callers(Dropped(s.line)));
    Push(cleared.(startupActive := true), StartupStep(steps - 1).(due := now))
  }

  function ObserveIin(s: Master, iin: set<Iin>, steps: nat, now: int): Master
    requires steps >= 1
  {
    if DeviceRestart in iin && !s.startupActive then StartupSequence(s, steps, now) else s
  }

  // ---------- Sending and completing ----------

  function CompleteTask(s: Master, t: Task, failed: bool, now: int): Master {
    var s1 := if t.startup && (failed || t.later == 0) then s.(startupActive := false) else s;
    var s2 := if t.period > 0 then Push(s1, t.(due := now + t.period, caller := None)) else s1;
    s2.(resolved := s2.resolved + CallerOf(t))
  }

  datatype Sending = Goes | Fails

  /** Sends a task under the next number, or completes it when it cannot be sent or will not be
      answered. */
  function SendTask(s: Master, t: Task, successor: bool, how: Sending, now: int): Master {
    var s1 := s.(seqNo := SeqPlus(s.seqNo, 1));
    if how.Fails? then CompleteTask(s1, t, true, now)
    else
      var s2 := s1.(trace := s1.trace + [Wired(s1.seqNo, t.job, successor)]);
      if t.noResponse then CompleteTask(s2.(inflight := None), t, false, now)
      else s2.(inflight := Some(Flight(t, Begin(s1.seqNo))))
  }

  function RunDueTask(s: Master, how: Sending, now: int): Master {
    if s.inflight.Some? || s.line == [] || s.line[0].due > now then s
    else SendTask(s.(line := s.line[1..]), s.line[0], false, how, now)
  }

  function FailInflight(s: Master, now: int): Master {
    if s.inflight.None? then s else CompleteTask(s.(inflight := None), s.inflight.value.t, true, now)
  }

  // ---------- Chaining ----------

  /** The statuses a response carried, over all its fragments. */
  function StatusesOf(fs: seq<Fragment>): seq<Status> {
    if fs == [] then [] else StatusesOf(fs[..|fs| - 1]) + AllStatuses(fs[|fs| - 1].body.headers)
  }

  /** Whether every command was reported a success, and there was one. */
  predicate ResultOk(fs: seq<Fragment>) {
    StatusesOf(fs) != [] && AllSuccess(StatusesOf(fs))
  }

  /** What a chained task of no particular kind goes on with. */
  datatype Follow = Follow(chained: bool, noResponse: bool)

  /** The task to run straight after one that succeeded: an operate after a select that was
      accepted in full, the next startup step, or whatever another chained task names. */
  function NextTask(t: Task, fs: seq<Fragment>, follow: Option<Follow>): Option<Task> {
    if t.startup then if t.later > 0 then Some(StartupStep(t.later - 1)) else None
    else if t.job.Selects? then
      if ResultOk(fs) then
        Some(Task(Operates(t.job.objects), PRIORITY_COMMAND, 0, None, false, 0, false, false, None, 0, 0))
      else None
    else if t.chained && follow.Some? then
      Some(Task(Other, t.priority, 0, None, false, 0, follow.value.chained, follow.value.noResponse, None, 0, 0))
    else None
  }

  /** The final fragment was accepted. `failure` is what the task itself made of the response. */
  function OnFinal(
      s: Master, t: Task, fs: seq<Fragment>, failure: bool, follow: Option<Follow>, how: Sending, now: int): Master {
    var s1 := s.(inflight := None, trace := s.trace + [Answered(ResultOk(fs))]);
    if failure then CompleteTask(s1, t, true, now)
    else
      match NextTask(t, fs, follow)
      case None => CompleteTask(s1, t, false, now)
      case Some(next) =>
        SendTask(CompleteTask(s1, t.(caller := None), false, now), next.(caller := t.caller), true, how, now)
  }

  function OnFragment(s: Master, f: Fragment, failure: bool, follow: Option<Follow>, how: Sending, now: int): Master {
    if s.inflight.None? then s
    else
      var x := s.inflight.value;
      var series := OnSolicited(x.series, f).t;
      if series.outcome.Complete? then OnFinal(s, x.t, series.delivered, failure, follow, how, now)
      else s.(inflight := Some(x.(series := series)))
  }

  // ---------- Runs ----------

  datatype Step =
    | Connect(steps: nat, now: int)
    | Submit(t: Task, now: int)
    | RunDue(how: Sending, now: int)
    | Receive(f: Fragment, failure: bool, follow: Option<Follow>, how: Sending, steps: nat, now: int)
    | ReceiveUnsolicited(iin: set<Iin>, steps: nat, now: int)
    | ReceiveGarbled(seqNo: SeqNum, now: int)
    | GiveUp(now: int)
    | Disconnect(now: int)

  /** What a caller may submit: a one-shot task someone new waits for, or a new periodic scan.
      An operate is never submitted on its own. */
  predicate Submittable(s: Master, t: Task) {
    && !t.startup && t.later == 0 && !t.job.Operates?
    && (t.caller.Some? ==> t.caller.value !in s.submitted)
    && (t.scan.Some? ==> t.scan.value !in s.scans && t.caller.None? && !t.chained && t.job.Other? && !t.noResponse)
    && (t.period > 0 <==> t.scan.Some?)
  }

  function Submitted(s: Master, t: Task, now: int): Master {
    Push(s.(submitted := s.submitted + (if t.caller.Some? then {t.caller.value} else {}),
            scans := s.scans + (if t.scan.Some? then {t.scan.value} else {})), t.(due := now))
  }

  function Next(s: Master, step: Step): Master {
    match step
    case Connect(steps, now) =>
      if s.connected || steps < 1 then s else StartupSequence(s.(connected := true), steps, now)
    case Submit(t, now) => if s.connected && Submittable(s, t) then Submitted(s, t, now) else s
    case RunDue(how, now) => if s.connected then RunDueTask(s, how, now) else s
    case Receive(f, failure, follow, how, steps, now) =>
      if !s.connected || steps < 1 then s
      else OnFragment(ObserveIin(s, f.iin, steps, now), f, failure, follow, how, now)
    case ReceiveUnsolicited(iin, steps, now) => if s.connected && steps >= 1 then ObserveIin(s, iin, steps, now) else s
    case ReceiveGarbled(seqNo, now) =>
      if s.inflight.Some? && s.inflight.value.series.seqNo == seqNo then FailInflight(s, now) else s
    case GiveUp(now) => FailInflight(s, now)
    case Disconnect(now) => FailInflight(s.(connected := false), now)
  }

  function Run(steps: seq<Step>): Master {
    if steps == [] then IDLE else Next(Run(steps[..|steps| - 1]), steps[|steps| - 1])
  }

  // ---------- What must balance ----------

  /** What is counted: tasks a caller waits on, tasks that are one periodic scan, or startup
      steps. */
  datatype Mark = WaitedOnBy(caller: nat) | IsScan(scan: nat) | IsStartup

  function Worth(t: Task, m: Mark): nat {
    var has :=
      match m
      case WaitedOnBy(caller) => t.caller == Some(caller)
      case IsScan(scan) => t.scan == Some(scan)
      case IsStartup => t.startup;
    if has then 1 else 0
  }

  function Total(ts: seq<Task>, m: Mark): nat {
    if ts == [] then 0 else Total(ts[..|ts| - 1], m) + Worth(ts[|ts| - 1], m)
  }

  /** How many tasks queued or in flight have the mark. */
  function Held(s: Master, m: Mark): nat {
    Total(s.line, m) + if s.inflight.Some? then Worth(s.inflight.value.t, m) else 0
  }

  /** How often the caller has been told an outcome. */
  function Told(s: Master, m: Mark): nat {
    if m.WaitedOnBy? then s.resolved[m.caller] else 0
  }

  /** How many there have to be: one for a caller that asked, one for a scan that was added, and
      one startup step while the flag is up. */
  function Owed(s: Master, m: Mark): nat {
    var owed :=
      match m
      case WaitedOnBy(caller) => caller in s.submitted
      case IsScan(scan) => scan in s.scans
      case IsStartup => s.startupActive;
    if owed then 1 else 0
  }

  /** What is held, with the caller already told, is exactly what is owed. `extra` is for a task
      taken out and not yet put anywhere. */
  ghost predicate Balanced(s: Master, extra: nat, m: Mark) {
    Held(s, m) + extra + Told(s, m) == Owed(s, m)
  }

  /** Tasks as they are made: a periodic scan is nothing else besides, and only a startup step
      has startup steps to follow. */
  ghost predicate Sound(t: Task) {
    && (t.period > 0 <==> t.scan.Some?)
    && (t.scan.Some? ==> !t.startup && t.caller.None? && !t.chained && t.job.Other?)
    && (t.startup ==> t.job.Other? && t.caller.None? && !t.noResponse)
    && (t.later > 0 ==> t.startup)
  }

  ghost predicate LineOk(s: Master) {
    && Sorted(s.line)
    && (forall t :: t in s.line ==> Sound(t) && !t.job.Operates? && t.order <= s.pushN)
    && (s.inflight.Some? ==> Sound(s.inflight.value.t))
  }

  /** A successor follows, under the next number, the request whose response had just been
      completed; an operate is one, after a select of the same objects that succeeded in full. */
  ghost predicate Follows(trace: seq<Event>, j: nat)
    requires j < |trace|
  {
    trace[j].Wired? && (trace[j].successor || trace[j].job.Operates?) ==>
      && j >= 2 && trace[j - 1].Answered? && trace[j - 2].Wired?
      && trace[j].seqNo == SeqPlus(trace[j - 2].seqNo, 1)
      && (trace[j].job.Operates? ==> trace[j - 1].ok && trace[j - 2].job == Selects(trace[j].job.objects))
  }

  ghost predicate TraceOk(s: Master) {
    && (forall j :: 0 <= j < |s.trace| ==> Follows(s.trace, j))
    && (s.inflight.Some? ==>
          && s.trace != [] && s.inflight.value.series.seqNo == s.seqNo
          && var last := s.trace[|s.trace| - 1];
          last.Wired? && last.seqNo == s.seqNo && last.job == s.inflight.value.t.job)
  }

  ghost predicate Inv(s: Master, m: Mark) {
    Balanced(s, 0, m) && LineOk(s) && TraceOk(s)
  }

  // ---------- Sums ----------

  lemma TotalNone(m: Mark)
    ensures Total([], m) == 0
  {
  }

  lemma TotalSnoc(ts: seq<Task>, t: Task, m: Mark)
    ensures Total(ts + [t], m) == Total(ts, m) + Worth(t, m)
  {
    assert (ts + [t])[..|ts|] == ts;
  }

  lemma {:induction false} TotalInsert(q: seq<Task>, t: Task, m: Mark)
    ensures Total(Insert(q, t), m) == Total(q, m) + Worth(t, m)
  {
    hide Less, Worth;
    if q == [] || Less(q[|q| - 1], t) {
      TotalSnoc(q, t, m);
    } else {
      var init, last := q[..|q| - 1], q[|q| - 1];
      TotalInsert(init, t, m);
      TotalSnoc(Insert(init, t), last, m);
    }
  }

  lemma {:induction false} TotalHead(q: seq<Task>, m: Mark)
    requires q != []
    ensures Total(q, m) == Total(q[1..], m) + Worth(q[0], m)
  {
    hide Worth;
    if |q| == 1 {
      assert q[..0] == [] && q[1..] == [];
    } else {
      var init, last := q[..|q| - 1], q[|q| - 1];
      TotalHead(init, m);
      assert q[1..] == init[1..] + [last];
      TotalSnoc(init[1..], last, m);
    }
  }

  lemma {:induction false} TotalSplit(q: seq<Task>, m: Mark)
    ensures Total(q, m) == Total(Kept(q), m) + Total(Dropped(q), m)
  {
    hide Worth, Total;
    if q == [] {
      TotalNone(m);
    } else {
      var init, last := q[..|q| - 1], q[|q| - 1];
      TotalSplit(init, m);
      assert q == init + [last];
      TotalSnoc(init, last, m);
      if last.period > 0 {
        TotalSnoc(Kept(init), last, m);
        assert Kept(q) == Kept(init) + [last] && Dropped(q) == Dropped(init);
      } else {
        TotalSnoc(Dropped(init), last, m);
        assert Kept(q) == Kept(init) && Dropped(q) == Dropped(init) + [last];
      }
    }
  }

  /** What a restart drops: callers and startup steps, but no scan. */
  lemma {:induction false} TotalOneShots(q: seq<Task>, m: Mark)
    requires forall t :: t in q ==> Sound(t) && t.period <= 0
    requires m != IsStartup
    ensures Total(q, m) == if m.WaitedOnBy? then Callers(q)[m.caller] else 0
  {
    if q != [] {
      assert q[|q| - 1] in q;
      TotalOneShots(q[..|q| - 1], m);
    }
  }

  lemma {:induction false} TotalPeriodic(q: seq<Task>, m: Mark)
    requires forall t :: t in q ==> Sound(t) && t.period > 0
    requires m == IsStartup
    ensures Total(q, m) == 0
  {
    if q != [] {
      assert q[|q| - 1] in q;
      TotalPeriodic(q[..|q| - 1], m);
    }
  }

  // ---------- Every step keeps the balance ----------

  lemma PushLine(s: Master, t: Task, m: Mark)
    requires LineOk(s) && Sound(t) && !t.job.Operates?
    ensures LineOk(Push(s, t)) && Total(Push(s, t).line, m) == Total(s.line, m) + Worth(t, m)
  {
    hide Less, Insert, Sorted, Total;
    var x := t.(order := s.pushN + 1);
    InsertSorted(s.line, x);
    TotalInsert(s.line, x, m);
    OrdersBounded(Insert(s.line, x), s.line, x);
  }

  lemma CompleteKeeps(s: Master, t: Task, failed: bool, now: int, m: Mark)
    requires Balanced(s, Worth(t, m), m) && LineOk(s) && TraceOk(s) && Sound(t) && s.inflight.None?
    requires t.startup ==> failed || t.later == 0
    ensures Inv(CompleteTask(s, t, failed, now), m)
  {
    hide Total, Sorted, Insert, Follows;
    if t.period > 0 { PushLine(s, t.(due := now + t.period, caller := None), m); }
  }

  lemma SendKeeps(s: Master, t: Task, successor: bool, how: Sending, now: int, m: Mark)
    requires Balanced(s, Worth(t, m), m) && LineOk(s) && TraceOk(s) && Sound(t) && s.inflight.None?
    requires Follows(s.trace + [Wired(SeqPlus(s.seqNo, 1), t.job, successor)], |s.trace|)
    ensures Inv(SendTask(s, t, successor, how, now), m)
  {
    hide Total, Sorted, CompleteTask, Follows, Worth;
    var s1 := s.(seqNo := SeqPlus(s.seqNo, 1));
    if how.Fails? {
      CompleteKeeps(s1, t, true, now, m);
    } else {
      var s2 := s1.(trace := s1.trace + [Wired(s1.seqNo, t.job, successor)]);
      TraceSnoc(s.trace, Wired(s1.seqNo, t.job, successor));
      if t.noResponse { CompleteKeeps(s2, t, false, now, m); }
    }
  }

  lemma TraceSnoc(trace: seq<Event>, e: Event)
    requires forall j :: 0 <= j < |trace| ==> Follows(trace, j)
    requires Follows(trace + [e], |trace|)
    ensures forall j :: 0 <= j < |trace + [e]| ==> Follows(trace + [e], j)
  {
    forall j | 0 <= j < |trace + [e]| ensures Follows(trace + [e], j) {
      if j < |trace| { assert Follows(trace, j); }
    }
  }

  lemma RunDueKeeps(s: Master, how: Sending, now: int, m: Mark)
    requires Inv(s, m)
    ensures Inv(RunDueTask(s, how, now), m)
  {
    hide Less, Total, SendTask, Worth, Sorted;
    if s.inflight.None? && s.line != [] && s.line[0].due <= now {
      var t, s1 := s.line[0], s.(line := s.line[1..]);
      TotalHead(s.line, m);
      RestSorted(s.line);
      assert t in s.line;
      SendKeeps(s1, t, false, how, now, m);
    }
  }

  lemma FailKeeps(s: Master, now: int, m: Mark)
    requires Inv(s, m)
    ensures Inv(FailInflight(s, now), m)
  {
    hide Total, Sorted, CompleteTask, Follows, Worth;
    if s.inflight.Some? { CompleteKeeps(s.(inflight := None), s.inflight.value.t, true, now, m); }
  }

  /** Starting over: what was queued goes, and a single startup step takes its place. */
  lemma StartupKeeps(s: Master, steps: nat, now: int, m: Mark)
    requires Inv(s, m) && steps >= 1 && (s.inflight.Some? ==> !s.inflight.value.t.startup)
    ensures Inv(StartupSequence(s, steps, now), m)
  {
    hide Total, Sorted, Follows, Kept, Dropped, Insert, Callers;
    var kept := s.(line := Kept(s.line), resolved := s.resolved + Callers(Dropped(s.line)), startupActive := true);
    TotalSplit(s.line, m);
    KeptSorted(s.line);
    KeptMembers(s.line);
    if m == IsStartup { TotalPeriodic(Kept(s.line), m); } else { TotalOneShots(Dropped(s.line), m); }
    PushLine(kept, StartupStep(steps - 1).(due := now), m);
  }

  lemma ObserveKeeps(s: Master, iin: set<Iin>, steps: nat, now: int, m: Mark)
    requires Inv(s, m) && Inv(s, IsStartup) && steps >= 1
    ensures Inv(ObserveIin(s, iin, steps, now), m)
  {
    hide Total, Sorted, Follows, StartupSequence;
    if DeviceRestart in iin && !s.startupActive { StartupKeeps(s, steps, now, m); }
  }

  /** A task handed on: completing it changes nothing, and its successor is worth the same. */
  lemma HandOn(s: Master, t: Task, fs: seq<Fragment>, follow: Option<Follow>, now: int, m: Mark)
    requires Sound(t) && NextTask(t, fs, follow).Some?
    ensures CompleteTask(s, t.(caller := None), false, now) == s
    ensures var next := NextTask(t, fs, follow).value.(caller := t.caller);
      && Sound(next) && Worth(next, m) == Worth(t, m)
      && (next.job.Operates? ==> ResultOk(fs) && t.job == Selects(next.job.objects))
  {
    hide ResultOk;
    assert s.resolved + multiset{} == s.resolved;
  }

  lemma FinalKeeps(s: Master, fs: seq<Fragment>, failure: bool, follow: Option<Follow>, how: Sending, now: int, m: Mark)
    requires Inv(s, m) && s.inflight.Some?
    ensures Inv(OnFinal(s, s.inflight.value.t, fs, failure, follow, how, now), m)
  {
    hide Total, Sorted, CompleteTask, SendTask, ResultOk, Worth, Sound, NextTask;
    var t := s.inflight.value.t;
    var s1 := s.(inflight := None, trace := s.trace + [Answered(ResultOk(fs))]);
    TraceSnoc(s.trace, Answered(ResultOk(fs)));
    if t.startup && NextTask(t, fs, follow).None? { LastStep(t, fs, follow); }
    if failure {
      CompleteKeeps(s1, t, true, now, m);
    } else if NextTask(t, fs, follow).None? {
      CompleteKeeps(s1, t, false, now, m);
    } else {
      HandOn(s1, t, fs, follow, now, m);
      SendKeeps(s1, NextTask(t, fs, follow).value.(caller := t.caller), true, how, now, m);
    }
  }

  lemma LastStep(t: Task, fs: seq<Fragment>, follow: Option<Follow>)
    requires NextTask(t, fs, follow).None? && t.startup
    ensures t.later == 0
  {
  }

  lemma FragmentKeeps(s: Master, f: Fragment, failure: bool, follow: Option<Follow>, how: Sending, now: int, m: Mark)
    requires Inv(s, m)
    ensures Inv(OnFragment(s, f, failure, follow, how, now), m)
  {
    hide Total, Sorted, OnFinal, Follows, ResponseSeries.Judge, Worth;
    if s.inflight.Some? {
      FinalKeeps(s, OnSolicited(s.inflight.value.series, f).t.delivered, failure, follow, how, now, m);
    }
  }

  lemma SubmitKeeps(s: Master, t: Task, now: int, m: Mark)
    requires Inv(s, m) && Submittable(s, t)
    ensures Inv(Submitted(s, t, now), m)
  {
    hide Total, Sorted, Insert, Follows;
    var s1 := s.(submitted := s.submitted + (if t.caller.Some? then {t.caller.value} else {}),
                 scans := s.scans + (if t.scan.Some? then {t.scan.value} else {}));
    PushLine(s1, t.(due := now), m);
  }

  lemma NextKeeps(s: Master, step: Step, m: Mark)
    requires Inv(s, m) && Inv(s, IsStartup) && (!s.connected ==> s.inflight.None?)
    ensures Inv(Next(s, step), m)
  {
    hide Inv, ObserveIin, OnFragment, FailInflight, RunDueTask, Submitted, StartupSequence;
    match step
    case Connect(steps, now) => ConnectKeeps(s, steps, now, m);
    case Submit(t, now) => if Submittable(s, t) { SubmitKeeps(s, t, now, m); }
    case RunDue(how, now) => RunDueKeeps(s, how, now, m);
    case Receive(f, failure, follow, how, steps, now) =>
      if s.connected && steps >= 1 {
        ObserveKeeps(s, f.iin, steps, now, m);
        FragmentKeeps(ObserveIin(s, f.iin, steps, now), f, failure, follow, how, now, m);
      }
    case ReceiveUnsolicited(iin, steps, now) => if steps >= 1 { ObserveKeeps(s, iin, steps, now, m); }
    case ReceiveGarbled(seqNo, now) => FailKeeps(s, now, m);
    case GiveUp(now) => FailKeeps(s, now, m);
    case Disconnect(now) => DisconnectKeeps(s, now, m);
  }

  lemma CompleteConnected(s: Master, t: Task, failed: bool, now: int)
    ensures var s' := CompleteTask(s, t, failed, now); s'.connected == s.connected && s'.inflight == s.inflight
  {
  }

  lemma SendConnected(s: Master, t: Task, successor: bool, how: Sending, now: int)
    ensures SendTask(s, t, successor, how, now).connected == s.connected
  {
  }

  lemma FragmentConnected(s: Master, f: Fragment, failure: bool, follow: Option<Follow>, how: Sending, now: int)
    ensures OnFragment(s, f, failure, follow, how, now).connected == s.connected
  {
    hide SendTask, CompleteTask, OnSolicited, ResultOk;
    if s.inflight.Some? {
      var t, fs := s.inflight.value.t, OnSolicited(s.inflight.value.series, f).t.delivered;
      var s1 := s.(inflight := None, trace := s.trace + [Answered(ResultOk(fs))]);
      CompleteConnected(s1, t, failure, now);
      CompleteConnected(s1, t.(caller := None), false, now);
      if NextTask(t, fs, follow).Some? {
        SendConnected(CompleteTask(s1, t.(caller := None), false, now), NextTask(t, fs, follow).value.(caller := t.caller),
                      true, how, now);
      }
    }
  }

  /** Nothing is in flight without a connection. */
  lemma NoFlightUnconnected(s: Master, step: Step)
    requires !s.connected ==> s.inflight.None?
    ensures !Next(s, step).connected ==> Next(s, step).inflight.None?
  {
    hide OnFragment, CompleteTask, SendTask, Kept, Dropped, Callers, Insert;
    match step
    case Receive(f, failure, follow, how, steps, now) =>
      if steps >= 1 { FragmentConnected(ObserveIin(s, f.iin, steps, now), f, failure, follow, how, now); }
    case RunDue(how, now) =>
      if s.line != [] { SendConnected(s.(line := s.line[1..]), s.line[0], false, how, now); }
    case Disconnect(now) =>
      if s.inflight.Some? { CompleteConnected(s.(connected := false, inflight := None), s.inflight.value.t, true, now); }
    case Connect(_, _) =>
    case Submit(_, _) =>
    case ReceiveUnsolicited(_, _, _) =>
    case ReceiveGarbled(_, now) =>
      if s.inflight.Some? { CompleteConnected(s.(inflight := None), s.inflight.value.t, true, now); }
    case GiveUp(now) =>
      if s.inflight.Some? { CompleteConnected(s.(inflight := None), s.inflight.value.t, true, now); }
  }

  lemma ConnectKeeps(s: Master, steps: nat, now: int, m: Mark)
    requires Inv(s, m) && (!s.connected ==> s.inflight.None?)
    ensures Inv(Next(s, Connect(steps, now)), m)
  {
    hide Total, Sorted, Follows, StartupSequence;
    if !s.connected && steps >= 1 { StartupKeeps(s.(connected := true), steps, now, m); }
  }

  lemma DisconnectKeeps(s: Master, now: int, m: Mark)
    requires Inv(s, m)
    ensures Inv(FailInflight(s.(connected := false), now), m)
  {
    hide Total, Sorted, Follows, FailInflight;
    FailKeeps(s.(connected := false), now, m);
  }

  /** Over every run of the session, across connections, restarts, failures and timeouts, for
      every caller and every scan: a caller waits on exactly one task or has been told exactly
      once; a periodic scan is in the queue or in flight exactly once; the startup flag is up
      exactly when one startup step is queued or in flight; the queue is in order; a successor
      is always the next request on the wire; and an operate follows only a select that
      succeeded in full. */
  lemma {:induction false} TasksAccounted(steps: seq<Step>, m: Mark)
    ensures Inv(Run(steps), m) && (!Run(steps).connected ==> Run(steps).inflight.None?)
  {
    hide Inv, Next;
    if steps == [] {
      IdleOk(m);
    } else {
      var before := Run(steps[..|steps| - 1]);
      TasksAccounted(steps[..|steps| - 1], m);
      TasksAccounted(steps[..|steps| - 1], IsStartup);
      NextKeeps(before, steps[|steps| - 1], m);
      NoFlightUnconnected(before, steps[|steps| - 1]);
    }
  }

  lemma IdleOk(m: Mark)
    ensures Inv(IDLE, m)
  {
    hide Inv;
    FreshOk(IDLE, m);
  }

  lemma FreshOk(s: Master, m: Mark)
    requires s.line == [] && s.inflight.None? && s.trace == [] && !s.startupActive
    requires s.submitted == {} && s.scans == {} && s.resolved == multiset{}
    ensures Inv(s, m)
  {
  }
}
