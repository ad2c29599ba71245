/** The master session's own steps, over its task queue. */
module MasterSession {
  import opened Protocol
  import opened Outstation
  import opened ResponseSeries
  import opened Scheduler
  import opened MasterTasks

  /** The session's fields other than the queue and the request in flight. */
  datatype Rest = Rest(
    seqNo: SeqNum, startupActive: bool, connected: bool,
    submitted: set<nat>, scans: set<nat>, resolved: multiset<nat>, trace: seq<Event>)

  class Session {
    const queue: TaskQueue
    var inflight: Option<Flight>
    var rest: Rest

    constructor ()
      ensures Valid() && View() == IDLE && fresh(queue)
    {
      queue := new TaskQueue();
      inflight, rest := None, Rest(0, false, false, {}, {}, multiset{}, []);
    }

    ghost predicate Valid()
      reads this, queue
    {
      queue.Valid()
    }

    ghost function View(): Master
      reads this, queue
    {
      Master(queue.line, queue.pushN, inflight, rest.seqNo, rest.startupActive, rest.connected,
             rest.submitted, rest.scans, rest.resolved, rest.trace)
    }

    /** Fails whoever waits on any of the tasks dropped. */
    method FinishAll(dropped: seq<Task>)
      modifies `rest
      ensures rest == old(rest).(resolved := old(rest).resolved + Callers(dropped))
    {
      var told: multiset<nat> := multiset{};
      for i := 0 to |dropped|
        invariant told == Callers(dropped[..i])
      {
        assert dropped[..i + 1][..i] == dropped[..i];
        told := told + CallerOf(dropped[i]);
      }
      assert dropped[..|dropped|] == dropped;
      rest := rest.(resolved := rest.resolved + told);
    }

    method Startup(steps: nat, now: int)
      requires Valid() && steps >= 1
      modifies this, queue
      ensures Valid() && View() == StartupSequence(old(View()), steps, now)
    {
      hide Kept, Dropped, Callers, Insert;
      ghost var was := queue.line;
      var dropped := queue.Clear();
      SameCallers(dropped, Dropped(was));
      FinishAll(dropped);
      rest := rest.(startupActive := true);
      queue.Push(StartupStep(steps - 1).(due := now));
    }

    method Observe(iin: set<Iin>, steps: nat, now: int)
      requires Valid() && steps >= 1
      modifies this, queue
      ensures Valid() && View() == ObserveIin(old(View()), iin, steps, now)
    {
      hide StartupSequence;
      if DeviceRestart in iin && !rest.startupActive { Startup(steps, now); }
    }

    method Complete(t: Task, failed: bool, now: int)
      requires Valid()
      modifies this, queue
      ensures Valid() && View() == CompleteTask(old(View()), t, failed, now)
    {
      hide Insert;
      if t.startup && (failed || t.later == 0) { rest := rest.(startupActive := false); }
      if t.period > 0 { queue.Push(t.(due := now + t.period, caller := None)); }
      rest := rest.(resolved := rest.resolved + CallerOf(t));
    }

    method Send(t: Task, successor: bool, how: Sending, now: int)
      requires Valid()
      modifies this, queue
      ensures Valid() && View() == SendTask(old(View()), t, successor, how, now)
    {
      hide CompleteTask;
      rest := rest.(seqNo := SeqPlus(rest.seqNo, 1));
      if how.Fails? {
        Complete(t, true, now);
        return;
      }
      rest := rest.(trace := rest.trace + [Wired(rest.seqNo, t.job, successor)]);
      if t.noResponse {
        inflight := None;
        Complete(t, false, now);
        return;
      }
      inflight := Some(Flight(t, Begin(rest.seqNo)));
    }

    method RunDue(how: Sending, now: int)
      requires Valid()
      modifies this, queue
      ensures Valid() && View() == RunDueTask(old(View()), how, now)
    {
      hide SendTask;
      if inflight.Some? { return; }
      var head := queue.Peek();
      if head.None? || head.value.due > now { return; }
      var t := queue.Pop();
      Send(t, false, how, now);
    }

    method Fail(now: int)
      requires Valid()
      modifies this, queue
      ensures Valid() && View() == FailInflight(old(View()), now)
    {
      hide CompleteTask;
      if inflight.None? { return; }
      var t := inflight.value.t;
      inflight := None;
      Complete(t, true, now);
    }

    method Final(t: Task, fs: seq<Fragment>, failure: bool, follow: Option<Follow>, how: Sending, now: int)
      requires Valid()
      modifies this, queue
      ensures Valid() && View() == OnFinal(old(View()), t, fs, failure, follow, how, now)
    {
      hide CompleteTask, SendTask, ResultOk, NextTask;
      inflight := None;
      rest := rest.(trace := rest.trace + [Answered(ResultOk(fs))]);
      if failure {
        Complete(t, true, now);
        return;
      }
      var next := NextTask(t, fs, follow);
      if next.None? {
        Complete(t, false, now);
      } else {
        Complete(t.(caller := None), false, now);
        Send(next.value.(caller := t.caller), true, how, now);
      }
    }

    /** A solicited fragment: judged against the series, and completing the request with the
        last one. Returns the number to confirm, if any. */
    method Take(
        f: Fragment, failure: bool, follow: Option<Follow>, how: Sending, now: int) returns (confirm: Option<SeqNum>)
      requires Valid()
      modifies this, queue
      ensures Valid() && View() == OnFragment(old(View()), f, failure, follow, how, now)
      ensures confirm == if old(inflight).None? then None else OnSolicited(old(inflight).value.series, f).confirm
    {
      hide OnFinal, OnSolicited;
      if inflight.None? { return None; }
      var x := inflight.value;
      var r := OnSolicited(x.series, f);
      confirm := r.confirm;
      if r.t.outcome.Complete? {
        Final(x.t, r.t.delivered, failure, follow, how, now);
      } else {
        inflight := Some(x.(series := r.t));
      }
    }

    method Enqueue(t: Task, now: int)
      requires Valid() && Submittable(View(), t)
      modifies this, queue
      ensures Valid() && View() == Submitted(old(View()), t, now)
    {
      hide Insert, Submittable;
      rest := rest.(submitted := rest.submitted + (if t.caller.Some? then {t.caller.value} else {}),
                    scans := rest.scans + (if t.scan.Some? then {t.scan.value} else {}));
      queue.Push(t.(due := now));
    }
  }

  /** Who waits does not depend on the order tasks are held in. */
  lemma SameCallers(a: seq<Task>, b: seq<Task>)
    requires multiset(a) == multiset(b)
    ensures Callers(a) == Callers(b)
  {
    CallersFrom(a, b);
  }

  lemma {:induction false} CallersFrom(a: seq<Task>, b: seq<Task>)
    requires multiset(a) == multiset(b)
    ensures Callers(a) == Callers(b)
    decreases |a|
  {
    if a == [] {
      EmptyAlike(a, b);
    } else {
      var init, t := a[..|a| - 1], a[|a| - 1];
      assert a == init + [t];
      assert t in multiset(b);
      var i :| 0 <= i < |b| && b[i] == t;
      var rest := b[..i] + b[i + 1..];
      Removed(b, i);
      Cancel(multiset(init), multiset(rest), t);
      CallersFrom(init, rest);
      CallersWithout(b, i);
    }
  }

  lemma Regroup(a: multiset<nat>, b: multiset<nat>, c: multiset<nat>)
    ensures a + b + c == a + c + b
  {
  }

  lemma Removed(b: seq<Task>, i: nat)
    requires i < |b|
    ensures multiset(b) == multiset(b[..i] + b[i + 1..]) + multiset{b[i]}
  {
    assert b == b[..i] + [b[i]] + b[i + 1..];
  }

  lemma {:induction false} CallersWithout(b: seq<Task>, i: nat)
    requires i < |b|
    ensures Callers(b) == Callers(b[..i] + b[i + 1..]) + CallerOf(b[i])
    decreases |b|
  {
    hide CallerOf;
    var init, last := b[..|b| - 1], b[|b| - 1];
    if i == |b| - 1 {
      assert b[..i] + b[i + 1..] == init;
    } else {
      CallersWithout(init, i);
      var rest := b[..i] + b[i + 1..];
      assert rest[..|rest| - 1] == init[..i] + init[i + 1..];
      Regroup(Callers(init[..i] + init[i + 1..]), CallerOf(b[i]), CallerOf(last));
    }
  }
}
