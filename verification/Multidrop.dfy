/** Several sessions on one line: which station a frame belongs to, and whose turn it is. */
module Multidrop {
  import opened Protocol

  type Address = Index16

  /** The addresses every outstation listens to, and those no station may take. */
  predicate IsBroadcast(a: Address) {
    a >= 0xFFFD
  }

  predicate IsReserved(a: Address) {
    0xFFF0 <= a <= 0xFFFB
  }

  datatype Station = Station(local: Address, remote: Address, master: bool)

  datatype Frame = Frame(dest: Address, src: Address)

  predicate Usable(s: Station) {
    !IsBroadcast(s.local) && !IsReserved(s.local)
  }

  /** Whether two stations could not be told apart. */
  predicate Conflicts(s: Station, o: Station) {
    s.local == o.local && (!s.master || !o.master || s.remote == o.remote)
  }

  /** A master takes the replies of its own outstation; an outstation whatever is addressed to
      it or to everyone. */
  predicate Matches(s: Station, f: Frame) {
    if s.master then f.dest == s.local && f.src == s.remote
    else f.dest == s.local || IsBroadcast(f.dest)
  }

  /** Two stations conflict exactly when some frame addressed to one station would be taken by
      both. */
  lemma ConflictIsAmbiguity(s: Station, o: Station)
    requires Usable(s) && Usable(o)
    ensures Conflicts(s, o) <==> exists f: Frame :: !IsBroadcast(f.dest) && Matches(s, f) && Matches(o, f)
  {
    if Conflicts(s, o) {
      var f := Frame(s.local, if s.master then s.remote else o.remote);
      assert !IsBroadcast(f.dest) && Matches(s, f) && Matches(o, f);
    }
  }

  // ---------- The bus ----------

  /** Stations each have a number, so that one can be taken off. `live` are those with a
      connection to deliver to. */
  datatype Bus = Bus(stations: seq<(nat, Station)>, closed: bool, live: set<nat>)

  function Add(b: Bus, id: nat, s: Station): (Bus, bool) {
    if !Usable(s) || b.closed then (b, false)
    else if exists i :: 0 <= i < |b.stations| && Conflicts(b.stations[i].1, s) then (b, false)
    else (b.(stations := b.stations + [(id, s)]), true)
  }

  /** The place of a station, or the number of stations when it is not there. */
  function IndexOf(stations: seq<(nat, Station)>, id: nat): (i: nat)
    ensures i <= |stations| && (i < |stations| ==> stations[i].0 == id)
  {
    if stations == [] || stations[0].0 == id then 0 else 1 + IndexOf(stations[1..], id)
  }

  function Remove(b: Bus, id: nat): Bus {
    var i := IndexOf(b.stations, id);
    if i < |b.stations| then b.(stations := b.stations[..i] + b.stations[i + 1..], live := b.live - {id}) else b
  }

  /** The stations a frame goes to, in order. */
  function Targets(stations: seq<(nat, Station)>, live: set<nat>, f: Frame): seq<(nat, Station)> {
    if stations == [] then []
    else
      var init, last := stations[..|stations| - 1], stations[|stations| - 1];
      Targets(init, live, f) + if Matches(last.1, f) && last.0 in live then [last] else []
  }

  ghost predicate Apart(stations: seq<(nat, Station)>) {
    && (forall i :: 0 <= i < |stations| ==> Usable(stations[i].1))
    && (forall i, j :: 0 <= i < j < |stations| ==> !Conflicts(stations[i].1, stations[j].1))
  }

  /** The whole line may also drop, and with it every connection; closing the bus drops it for good. */
  datatype Step = Adds(id: nat, s: Station) | Closes(id: nat) | Connects(id: nat) | Drops(id: nat) | LineDrops | Shuts

  function Run(steps: seq<Step>): Bus {
    if steps == [] then Bus([], false, {})
    else
      var b := Run(steps[..|steps| - 1]);
      match steps[|steps| - 1]
      case Adds(id, s) => Add(b, id, s).0
      case Closes(id) => Remove(b, id)
      case Connects(id) => if b.closed then b else b.(live := b.live + {id})
      case Drops(id) => b.(live := b.live - {id})
      case LineDrops => b.(live := {})
      case Shuts => b.(closed := true, live := {})
  }

  lemma {:induction false} StationsStayApart(steps: seq<Step>)
    ensures Apart(Run(steps).stations) && (Run(steps).closed ==> Run(steps).live == {})
  {
    if steps != [] { StationsStayApart(steps[..|steps| - 1]); }
  }

  lemma {:induction false} TargetsAre(stations: seq<(nat, Station)>, live: set<nat>, f: Frame)
    ensures forall t :: t in Targets(stations, live, f) <==> t in stations && t.0 in live && Matches(t.1, f)
    ensures |Targets(stations, live, f)| <= |stations|
  {
    if stations != [] {
      var init, last := stations[..|stations| - 1], stations[|stations| - 1];
      TargetsAre(init, live, f);
      assert stations == init + [last];
    }
  }

  lemma {:induction false} NoTargets(stations: seq<(nat, Station)>, live: set<nat>, f: Frame)
    requires forall i :: 0 <= i < |stations| ==> !Matches(stations[i].1, f)
    ensures Targets(stations, live, f) == []
  {
    if stations != [] { NoTargets(stations[..|stations| - 1], live, f); }
  }

  lemma {:induction false} NoneLive(stations: seq<(nat, Station)>, f: Frame)
    ensures Targets(stations, {}, f) == []
  {
    if stations != [] { NoneLive(stations[..|stations| - 1], f); }
  }

  lemma {:induction false} AtMostOneTarget(stations: seq<(nat, Station)>, live: set<nat>, f: Frame)
    requires Apart(stations) && !IsBroadcast(f.dest)
    ensures |Targets(stations, live, f)| <= 1
  {
    if stations != [] {
      var init, last := stations[..|stations| - 1], stations[|stations| - 1];
      AtMostOneTarget(init, live, f);
      if Matches(last.1, f) {
        forall i | 0 <= i < |init| ensures !Matches(init[i].1, f) {
          assert !Conflicts(stations[i].1, stations[|init|].1);
          ConflictIsAmbiguity(init[i].1, last.1);
        }
        NoTargets(init, live, f);
      }
    }
  }

  /** After any additions, removals, connections and drops: a frame for one address goes to at
      most one station, a broadcast to exactly the outstations connected, and on a bus that is
      closed nothing goes to anyone. */
  lemma FramesFindTheirStation(steps: seq<Step>, f: Frame)
    ensures var b := Run(steps);
      && (!IsBroadcast(f.dest) ==> |Targets(b.stations, b.live, f)| <= 1)
      && (forall t :: t in Targets(b.stations, b.live, f) <==>
            t in b.stations && t.0 in b.live && if IsBroadcast(f.dest) then !t.1.master else Matches(t.1, f))
      && (b.closed ==> Targets(b.stations, b.live, f) == [])
  {
    hide Run;
    var b := Run(steps);
    StationsStayApart(steps);
    TargetsAre(b.stations, b.live, f);
    if !IsBroadcast(f.dest) { AtMostOneTarget(b.stations, b.live, f); }
    if b.closed { NoneLive(b.stations, f); }
  }

  /** The bus as sessions use it. */
  class SharedBus {
    var bus: Bus

    constructor ()
      ensures bus == Bus([], false, {})
    {
      bus := Bus([], false, {});
    }

    /** Puts a station on the bus unless it cannot be told apart from one already there. */
    method AddStation(id: nat, s: Station) returns (ok: bool)
      modifies this
      ensures (bus, ok) == Add(old(bus), id, s)
    {
      if !Usable(s) || bus.closed { return false; }
      for i := 0 to |bus.stations|
        invariant bus == old(bus) && forall k :: 0 <= k < i ==> !Conflicts(bus.stations[k].1, s)
      {
        if Conflicts(bus.stations[i].1, s) { return false; }
      }
      bus := bus.(stations := bus.stations + [(id, s)]);
      ok := true;
    }

    /** The stations a frame is for. */
    method Route(f: Frame) returns (targets: seq<(nat, Station)>)
      ensures targets == Targets(bus.stations, bus.live, f)
    {
      targets := [];
      for i := 0 to |bus.stations|
        invariant targets == Targets(bus.stations[..i], bus.live, f)
      {
        assert bus.stations[..i + 1][..i] == bus.stations[..i];
        if Matches(bus.stations[i].1, f) && bus.stations[i].0 in bus.live { targets := targets + [bus.stations[i]]; }
      }
      assert bus.stations[..|bus.stations|] == bus.stations;
    }
  }

  // ---------- The line ----------

  /** Why a hold ended. */
  datatype Why = Released | Replied | Expired | Shut

  /** What happened on the line: a master took it, was heard from while holding it, or lost it. */
  datatype Event = Took(who: nat, at: int) | Heard(who: nat, at: int) | Lost(who: nat, at: int, why: Why)

  /** The line: who holds it and until when. */
  datatype Line = Line(holder: Option<nat>, until: int, closed: bool, log: seq<Event>)

  const FREE := Line(None, 0, false, [])

  datatype Move =
    | Acquire(who: nat, now: int) | Observe(who: nat, complete: bool, now: int) | Release(who: nat, now: int) | Shut(now: int)

  /** One call, at one time. An acquire that has to wait changes nothing, and is tried again. A
      turnaround that is not positive leaves the line to anyone at any time. */
  function Next(l: Line, period: int, m: Move): Line {
    match m
    case Acquire(who, now) =>
      if l.closed || period <= 0 then l
      else if l.holder.None? || l.holder.value == who then
        l.(holder := Some(who), until := now + period, log := l.log + [Took(who, now)])
      else if now >= l.until then
        l.(holder := Some(who), until := now + period,
           log := l.log + [Lost(l.holder.value, now, Expired), Took(who, now)])
      else l
    case Observe(who, complete, now) =>
      if l.holder != Some(who) || period <= 0 then l
      else if complete then l.(holder := None, log := l.log + [Lost(who, now, Replied)])
      else l.(until := now + period, log := l.log + [Heard(who, now)])
    case Release(who, now) =>
      if l.holder == Some(who) then l.(holder := None, log := l.log + [Lost(who, now, Released)]) else l
    case Shut(now) =>
      if l.holder.Some? then l.(holder := None, closed := true, log := l.log + [Lost(l.holder.value, now, Why.Shut)])
      else l.(closed := true)
  }

  function Played(period: int, ms: seq<Move>): Line {
    if ms == [] then FREE else Next(Played(period, ms[..|ms| - 1]), period, ms[|ms| - 1])
  }

  /** Whoever the log says has the line, and when it was last heard from. */
  function HolderOf(log: seq<Event>): Option<(nat, int)> {
    if log == [] then None
    else
      match log[|log| - 1]
      case Took(who, at) => Some((who, at))
      case Heard(who, at) => Some((who, at))
      case Lost(_, _, _) => None
  }

  /** Nobody takes the line while another has it; and a hold that expires was silent for a
      whole turnaround. */
  ghost predicate Orderly(log: seq<Event>, period: int, i: nat)
    requires i < |log|
  {
    var had := HolderOf(log[..i]);
    match log[i]
    case Took(who, _) => had.None? || had.value.0 == who
    case Heard(who, _) => had.Some? && had.value.0 == who
    case Lost(who, at, why) => had.Some? && had.value.0 == who && (why.Expired? ==> at >= had.value.1 + period)
  }

  ghost predicate LineOk(l: Line, period: int) {
    && (forall i :: 0 <= i < |l.log| ==> Orderly(l.log, period, i))
    && (match HolderOf(l.log)
        case None => l.holder.None?
        case Some(h) => l.holder == Some(h.0) && l.until == h.1 + period)
  }

  lemma LogSnoc(log: seq<Event>, period: int, e: Event)
    requires forall i :: 0 <= i < |log| ==> Orderly(log, period, i)
    requires Orderly(log + [e], period, |log|)
    ensures forall i :: 0 <= i < |log + [e]| ==> Orderly(log + [e], period, i)
  {
    hide HolderOf;
    forall i | 0 <= i < |log + [e]| ensures Orderly(log + [e], period, i) {
      if i < |log| {
        assert (log + [e])[..i] == log[..i];
        assert Orderly(log, period, i);
      }
    }
  }

  lemma AppendEvent(log: seq<Event>, period: int, e: Event)
    requires forall i :: 0 <= i < |log| ==> Orderly(log, period, i)
    requires var had := HolderOf(log);
      match e
      case Took(who, _) => had.None? || had.value.0 == who
      case Heard(who, _) => had.Some? && had.value.0 == who
      case Lost(who, at, why) => had.Some? && had.value.0 == who && (why.Expired? ==> at >= had.value.1 + period)
    ensures forall i :: 0 <= i < |log + [e]| ==> Orderly(log + [e], period, i)
  {
    assert (log + [e])[..|log|] == log;
    LogSnoc(log, period, e);
  }

  lemma NextKeeps(l: Line, period: int, m: Move)
    requires LineOk(l, period)
    ensures LineOk(Next(l, period, m), period)
  {
    hide Orderly;
    match m
    case Acquire(who, now) =>
      if !l.closed && period > 0 {
        if l.holder.None? || l.holder.value == who {
          AppendEvent(l.log, period, Took(who, now));
        } else if now >= l.until {
          var lost := Lost(l.holder.value, now, Expired);
          AppendEvent(l.log, period, lost);
          AppendEvent(l.log + [lost], period, Took(who, now));
          assert l.log + [lost, Took(who, now)] == l.log + [lost] + [Took(who, now)];
        }
      }
    case Observe(who, complete, now) =>
      if l.holder == Some(who) && period > 0 {
        AppendEvent(l.log, period, if complete then Lost(who, now, Replied) else Heard(who, now));
      }
    case Release(who, now) =>
      if l.holder == Some(who) { AppendEvent(l.log, period, Lost(who, now, Released)); }
    case Shut(now) =>
      if l.holder.Some? { AppendEvent(l.log, period, Lost(l.holder.value, now, Why.Shut)); }
  }

  /** Over every run, the line passes from one master to another only after a release, a whole
      reply to the holder, a turnaround of silence from it, or the bus shutting down. */
  lemma {:induction false} LinePassesInTurn(period: int, ms: seq<Move>)
    ensures LineOk(Played(period, ms), period)
  {
    hide LineOk, Next;
    if ms == [] {
      FreeOk(period);
    } else {
      LinePassesInTurn(period, ms[..|ms| - 1]);
      NextKeeps(Played(period, ms[..|ms| - 1]), period, ms[|ms| - 1]);
    }
  }

  lemma FreeOk(period: int)
    ensures LineOk(FREE, period)
  {
  }

  /** The arbiter. Times are what the clock reads at each call. */
  class Arbiter {
    const period: int
    var line: Line

    constructor (period: int)
      ensures this.period == period && line == FREE
    {
      this.period := period;
      line := FREE;
    }

    /** One attempt to take the line; false when the caller has to wait. */
    method TryAcquire(who: nat, now: int) returns (got: bool)
      modifies this
      ensures line == Next(old(line), period, Acquire(who, now))
      ensures got <==> period <= 0 || (line.holder == Some(who) && !line.closed)
      ensures !got ==> line == old(line)
    {
      if period <= 0 { return true; }
      if line.closed { return false; }
      if line.holder.None? || line.holder.value == who {
        line := line.(holder := Some(who), until := now + period, log := line.log + [Took(who, now)]);
        return true;
      }
      if now < line.until { return false; }
      line := line.(holder := Some(who), until := now + period,
                    log := line.log + [Lost(line.holder.value, now, Expired), Took(who, now)]);
      got := true;
    }

    method Observes(who: nat, complete: bool, now: int)
      modifies this
      ensures line == Next(old(line), period, Observe(who, complete, now))
    {
      if period <= 0 || line.holder != Some(who) { return; }
      if complete {
        line := line.(holder := None, log := line.log + [Lost(who, now, Replied)]);
      } else {
        line := line.(until := now + period, log := line.log + [Heard(who, now)]);
      }
    }

    method Releases(who: nat, now: int)
      modifies this
      ensures line == Next(old(line), period, Release(who, now))
    {
      if line.holder == Some(who) { line := line.(holder := None, log := line.log + [Lost(who, now, Released)]); }
    }
  }
}
