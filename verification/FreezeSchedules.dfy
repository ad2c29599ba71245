/** Freezes scheduled for a time, once or at an interval. */
module FreezeSchedules {
  import opened Protocol

  const MAX_SCHEDULES := 16

  type Ranges = seq<(Index16, Index16)>

  /** A scheduled freeze. `first` is the time asked for, and `stamps` the times it has run with. */
  datatype Schedule = Schedule(first: int, interval: nat, next: int, ranges: Ranges, stamps: seq<int>)

  datatype Answer = Scheduled | AlreadyExecuting | ParameterError

  /** `done` is every one-shot that has run. */
  datatype Freezes = Freezes(kept: seq<Schedule>, done: seq<Schedule>)

  const NONE := Freezes([], [])

  /** The whole number of intervals that takes `from` past `now`. */
  function Periods(from: int, now: int, interval: int): nat
    requires interval > 0 && from <= now
  {
    (now - from) / interval + 1
  }

  lemma PeriodsLand(from: int, now: int, interval: int)
    requires interval > 0 && from <= now
    ensures now < from + Periods(from, now, interval) * interval <= now + interval
  {
    var q := (now - from) / interval;
    assert q * interval <= now - from < q * interval + interval;
    assert (q + 1) * interval == q * interval + interval;
  }

  predicate SameFreeze(f: Schedule, next: int, interval: int, ranges: Ranges) {
    f.next == next && f.interval == interval && f.ranges == ranges
  }

  /** The time a freeze asked for now would first run: a past one is moved on if it repeats. */
  function FirstRun(first: int, interval: nat, now: int): Option<int> {
    if first >= now then Some(first)
    else if interval == 0 then None
    else Some(first + Periods(first, now, interval) * interval)
  }

  function OnFreezeAtTime(s: Freezes, first: int, interval: nat, ranges: Ranges, now: int): (Freezes, Answer) {
    match FirstRun(first, interval, now)
    case None => (s, ParameterError)
    case Some(next) =>
      if exists f :: f in s.kept && SameFreeze(f, next, interval, ranges) then (s, AlreadyExecuting)
      else if |s.kept| >= MAX_SCHEDULES then (s, ParameterError)
      else (s.(kept := s.kept + [Schedule(first, interval, next, ranges, [])]), Scheduled)
  }

  /** A schedule that ran, stamped with the time it was due however late the tick; a repeating
      one moves on to the first of its times that has not passed. */
  function Ran(f: Schedule, now: int): Schedule
    requires f.next <= now
  {
    var g := f.(stamps := f.stamps + [f.next]);
    if f.interval == 0 then g else g.(next := f.next + Periods(f.next, now, f.interval) * f.interval)
  }

  /** One tick over the first `k` schedules. */
  function Ticked(s: Freezes, now: int, k: nat): Freezes
    requires k <= |s.kept|
  {
    if k == 0 then s.(kept := [])
    else
      var t, f := Ticked(s, now, k - 1), s.kept[k - 1];
      if now < f.next then t.(kept := t.kept + [f])
      else if f.interval == 0 then t.(done := t.done + [Ran(f, now)])
      else t.(kept := t.kept + [Ran(f, now)])
  }

  // ---------- One schedule ----------

  /** A whole number of intervals past the first time. */
  ghost predicate OnBeat(f: Schedule, at: int) {
    exists n: nat :: at == f.first + n * f.interval
  }

  ghost predicate Rising(stamps: seq<int>) {
    forall i, j :: 0 <= i < j < |stamps| ==> stamps[i] < stamps[j]
  }

  /** A schedule still waiting: its next time and every time it has run are whole numbers of
      intervals past its first, strictly increasing; and a one-shot has not run. */
  ghost predicate Waiting(f: Schedule) {
    && OnBeat(f, f.next) && Rising(f.stamps + [f.next])
    && (forall i :: 0 <= i < |f.stamps| ==> OnBeat(f, f.stamps[i]))
    && (f.interval == 0 ==> f.stamps == [] && f.next == f.first)
  }

  /** A one-shot that ran, exactly once, at its time. */
  ghost predicate Spent(f: Schedule) {
    f.interval == 0 && f.stamps == [f.first]
  }

  lemma BeatAdds(f: Schedule, at: int, n: nat)
    requires OnBeat(f, at)
    ensures OnBeat(f, at + n * f.interval)
  {
    var m: nat :| at == f.first + m * f.interval;
    assert (m + n) * f.interval == m * f.interval + n * f.interval;
    assert at + n * f.interval == f.first + (m + n) * f.interval;
  }

  lemma RanKeeps(f: Schedule, now: int)
    requires Waiting(f) && f.next <= now
    ensures var g := Ran(f, now);
      if f.interval == 0 then Spent(g)
      else Waiting(g) && now < g.next <= now + f.interval && g.stamps == f.stamps + [f.next]
  {
    hide OnBeat;
    if f.interval > 0 {
      var g := Ran(f, now);
      PeriodsLand(f.next, now, f.interval);
      BeatAdds(f, f.next, Periods(f.next, now, f.interval));
      SameBeat(f, g, g.next);
      SameBeat(f, g, f.next);
      forall i | 0 <= i < |f.stamps| ensures OnBeat(g, f.stamps[i]) { SameBeat(f, g, f.stamps[i]); }
      RisingSnoc(f.stamps, f.next, g.next);
    }
  }

  lemma RisingSnoc(stamps: seq<int>, a: int, b: int)
    requires Rising(stamps + [a]) && a < b
    ensures Rising(stamps + [a] + [b])
  {
    var s := stamps + [a];
    assert forall i :: 0 <= i < |s| ==> s[i] <= s[|s| - 1];
  }

  lemma SameBeat(f: Schedule, g: Schedule, at: int)
    requires OnBeat(f, at) && g.first == f.first && g.interval == f.interval
    ensures OnBeat(g, at)
  {
  }

  // ---------- All of them ----------

  ghost predicate Inv(s: Freezes) {
    && |s.kept| <= MAX_SCHEDULES
    && (forall i :: 0 <= i < |s.kept| ==> Waiting(s.kept[i]))
    && (forall i :: 0 <= i < |s.done| ==> Spent(s.done[i]))
  }

  lemma ScheduleKeeps(s: Freezes, first: int, interval: nat, ranges: Ranges, now: int)
    requires Inv(s)
    ensures Inv(OnFreezeAtTime(s, first, interval, ranges, now).0)
  {
    hide Waiting, Spent;
    var run := FirstRun(first, interval, now);
    if run.Some? { FirstRunWaits(first, interval, ranges, now); }
  }

  lemma FirstRunWaits(first: int, interval: nat, ranges: Ranges, now: int)
    requires FirstRun(first, interval, now).Some?
    ensures var f := Schedule(first, interval, FirstRun(first, interval, now).value, ranges, []);
      Waiting(f) && now <= f.next && (first < now ==> f.next <= now + interval)
  {
    var f := Schedule(first, interval, FirstRun(first, interval, now).value, ranges, []);
    assert OnBeat(f, first) by { assert first == f.first + 0 * f.interval; }
    if first < now {
      PeriodsLand(first, now, interval);
      BeatAdds(f, first, Periods(first, now, interval));
    }
  }

  /** Where a schedule is after a tick: kept as it was if it was not due; among those done, run
      once more, if it was a one-shot; and otherwise kept, run once more. */
  ghost predicate Placed(t: Freezes, f: Schedule, now: int) {
    if now < f.next then f in t.kept
    else if f.interval == 0 then Ran(f, now) in t.done
    else Ran(f, now) in t.kept
  }

  /** After a tick, every schedule is where it should be and there are no others; every one kept
      is strictly later than now, one that was due is at most an interval ahead, and a one-shot
      that was due has run exactly once. */
  lemma {:induction false} TickKeeps(s: Freezes, now: int, k: nat)
    requires Inv(s) && k <= |s.kept|
    ensures var t := Ticked(s, now, k);
      && |t.kept| <= k && |t.kept| + |t.done| == k + |s.done| && Inv(t) && s.done <= t.done
      && (forall i :: 0 <= i < k ==> Placed(t, s.kept[i], now))
      && (forall i :: 0 <= i < |t.kept| ==> now < t.kept[i].next)
      && (forall i :: 0 <= i < |t.kept| ==> t.kept[i] in s.kept || t.kept[i].next <= now + t.kept[i].interval)
  {
    hide Waiting, Spent, Ran;
    if k > 0 {
      TickKeeps(s, now, k - 1);
      var f := s.kept[k - 1];
      if f.next <= now {
        RanKeeps(f, now);
        RanInterval(f, now);
      }
    }
  }

  lemma RanInterval(f: Schedule, now: int)
    requires f.next <= now
    ensures Ran(f, now).interval == f.interval
  {
  }

  // ---------- The session ----------

  class FreezeQueue {
    var s: Freezes

    constructor ()
      ensures s == NONE
    {
      s := NONE;
    }

    /** Queues a freeze, unless it is past, already queued, or one too many. */
    method Schedules(first: int, interval: nat, ranges: Ranges, now: int) returns (answer: Answer)
      modifies this
      ensures (s, answer) == OnFreezeAtTime(old(s), first, interval, ranges, now)
    {
      var next := first;
      if next < now {
        if interval == 0 { return ParameterError; }
        next := first + Periods(first, now, interval) * interval;
      }
      var i := 0;
      while i < |s.kept|
        invariant 0 <= i <= |s.kept| && s == old(s)
        invariant forall k :: 0 <= k < i ==> !SameFreeze(s.kept[k], next, interval, ranges)
      {
        if SameFreeze(s.kept[i], next, interval, ranges) { return AlreadyExecuting; }
        i := i + 1;
      }
      if |s.kept| >= MAX_SCHEDULES { return ParameterError; }
      s := s.(kept := s.kept + [Schedule(first, interval, next, ranges, [])]);
      answer := Scheduled;
    }

    /** Performs every freeze that has come due. */
    method RunFreezes(now: int)
      modifies this
      ensures s == Ticked(old(s), now, |old(s).kept|)
    {
      var was := s;
      var t := s.(kept := []);
      for k := 0 to |was.kept|
        invariant t == Ticked(was, now, k) && s == was
      {
        var f := was.kept[k];
        if now < f.next {
          t := t.(kept := t.kept + [f]);
        } else if f.interval == 0 {
          t := t.(done := t.done + [Ran(f, now)]);
        } else {
          t := t.(kept := t.kept + [Ran(f, now)]);
        }
      }
      s := t;
    }
  }

  datatype Step = Asked(first: int, interval: nat, ranges: Ranges, now: int) | Tick(now: int)

  function Run(steps: seq<Step>): Freezes {
    if steps == [] then NONE
    else
      var s := Run(steps[..|steps| - 1]);
      match steps[|steps| - 1]
      case Asked(first, interval, ranges, now) => OnFreezeAtTime(s, first, interval, ranges, now).0
      case Tick(now) => Ticked(s, now, |s.kept|)
  }

  /** Over every run: at most sixteen schedules are held, each is on its beat with strictly
      increasing stamps, and every one-shot gone has run exactly once. */
  lemma {:induction false} SchedulesKeepTime(steps: seq<Step>)
    ensures Inv(Run(steps))
  {
    hide Inv, OnFreezeAtTime, Ticked;
    if steps == [] {
      NoneOk();
    } else {
      var s := Run(steps[..|steps| - 1]);
      SchedulesKeepTime(steps[..|steps| - 1]);
      match steps[|steps| - 1]
      case Asked(first, interval, ranges, now) => ScheduleKeeps(s, first, interval, ranges, now);
      case Tick(now) => TickKeeps(s, now, |s.kept|);
    }
  }

  lemma NoneOk()
    ensures Inv(NONE)
  {
  }
}
