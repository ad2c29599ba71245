/** Which updates of an analog or a counter raise an event: those that move further than the
    deadband from the value last reported. */
module Deadbands {
  import opened Protocol

  /** A reading, which need not be a number. */
  datatype Reading = Num(x: real) | NaN

  /** One point. `raised` is the value of the last event it raised, if any. */
  datatype Point = Point(
    value: Reading, flags: int, deadband: real, reported: Reading, hasEvent: bool, raised: Option<Reading>)

  /** A frozen counter, which has no deadband: it reports what changed and whatever a freeze made. */
  datatype Snapshot = Snapshot(value: Reading, flags: int, raised: Option<Reading>)

  function Abs(x: real): real {
    if x < 0.0 then -x else x
  }

  /** Whether an update warrants an event, by the value last reported. */
  predicate ShouldReport(p: Point, v: Reading, flagsChanged: bool) {
    if !p.hasEvent || flagsChanged then true
    else if v.NaN? || p.reported.NaN? then v.NaN? != p.reported.NaN?
    else Abs(v.x - p.reported.x) > p.deadband
  }

  function Reported(p: Point, v: Reading): Point {
    p.(reported := v, raised := Some(v))
  }

  /** A point after an update, and whether that raised an event. */
  datatype Updated<T> = Updated(p: T, raises: bool)

  /** A new analog value: it is stored whatever it is, and reported if it moved far enough. */
  function SetAnalog(p: Point, v: Reading, flags: int): Updated<Point> {
    var report := ShouldReport(p, v, flags != p.flags);
    var stored := p.(value := v, flags := flags, hasEvent := true);
    Updated(if report then Reported(stored, v) else stored, report)
  }

  /** A frozen analog: a freeze reports whatever the deadband says. */
  function SetFrozenAnalog(p: Point, v: Reading, flags: int, freeze: bool): Updated<Point> {
    var u := SetAnalog(p, v, flags);
    if freeze && !u.raises then Updated(Reported(u.p, v), true) else u
  }

  /** A counter looks at the deadband only when something changed. */
  function SetCounter(p: Point, v: Reading, flags: int): Updated<Point> {
    if flags != p.flags || v != p.value then SetAnalog(p, v, flags) else Updated(p, false)
  }

  function SetFrozenCounter(p: Snapshot, v: Reading, flags: int, freeze: bool): Updated<Snapshot> {
    var report := freeze || v != p.value || flags != p.flags;
    Updated(Snapshot(v, flags, if report then Some(v) else p.raised), report)
  }

  // ---------- One point ----------

  predicate Near(a: Reading, b: Reading, deadband: real) {
    if a.NaN? || b.NaN? then a.NaN? && b.NaN? else Abs(a.x - b.x) <= deadband
  }

  /** A point that has reported is within its deadband of the event it last raised, and what it
      measures from is that event. */
  predicate Steady(p: Point) {
    && p.deadband >= 0.0
    && p.hasEvent == p.raised.Some?
    && (p.hasEvent ==> p.reported == p.raised.value && Near(p.value, p.raised.value, p.deadband))
  }

  predicate SteadySnapshot(p: Snapshot) {
    p.raised.Some? ==> p.raised.value == p.value
  }

  /** An update stores its value, and is silent if and only if the point has reported before, the
      flags are as they were, and the value is within the deadband of the last event raised. */
  lemma AnalogSteady(p: Point, v: Reading, flags: int)
    requires Steady(p)
    ensures var u := SetAnalog(p, v, flags);
      && Steady(u.p) && u.p.value == v
      && (!u.raises <==> p.hasEvent && flags == p.flags && Near(v, p.raised.value, p.deadband))
      && u.p.raised == if u.raises then Some(v) else p.raised
  {
  }

  lemma FrozenSteady(p: Point, v: Reading, flags: int, freeze: bool)
    requires Steady(p)
    ensures var u := SetFrozenAnalog(p, v, flags, freeze);
      Steady(u.p) && u.p.value == v && (freeze ==> u.raises && u.p.raised == Some(v))
  {
  }

  lemma CounterSteady(p: Point, v: Reading, flags: int)
    requires Steady(p)
    ensures Steady(SetCounter(p, v, flags).p) && SetCounter(p, v, flags).p.value == v
  {
  }

  // ---------- The whole database ----------

  datatype Db = Db(
    analog: seq<Point>, analogOut: seq<Point>, frozen: seq<Point>, counter: seq<Point>, frozenCounter: seq<Snapshot>)

  datatype Change =
    | UpdateAnalog(i: nat, v: Reading, flags: int)
    | UpdateAnalogOut(i: nat, v: Reading, flags: int)
    | UpdateFrozen(i: nat, v: Reading, flags: int)
    | UpdateCounter(i: nat, v: Reading, flags: int)
    | UpdateFrozenCounter(i: nat, v: Reading, flags: int)
    | FreezeAnalogs(start: nat, stop: nat, clear: bool)
    | FreezeCounters(start: nat, stop: nat, clear: bool)


  /** An index a freeze reaches: in its range, and with a point to freeze and one to freeze into. */
  predicate Reached(i: nat, start: nat, stop: nat, from: nat, into: nat) {
    start <= i <= stop && i < from && i < into
  }

  function FrozenInto(db: Db, start: nat, stop: nat): seq<Point> {
    seq(|db.frozen|, i requires 0 <= i < |db.frozen| =>
      if Reached(i, start, stop, |db.analog|, |db.frozen|)
      then SetFrozenAnalog(db.frozen[i], db.analog[i].value, db.analog[i].flags, true).p else db.frozen[i])
  }

  function ClearedAnalogs(db: Db, start: nat, stop: nat): seq<Point> {
    seq(|db.analog|, i requires 0 <= i < |db.analog| =>
      if Reached(i, start, stop, |db.analog|, |db.frozen|)
      then SetAnalog(db.analog[i], Num(0.0), db.analog[i].flags).p else db.analog[i])
  }

  function CountersInto(db: Db, start: nat, stop: nat): seq<Snapshot> {
    seq(|db.frozenCounter|, i requires 0 <= i < |db.frozenCounter| =>
      if Reached(i, start, stop, |db.counter|, |db.frozenCounter|)
      then SetFrozenCounter(db.frozenCounter[i], db.counter[i].value, db.counter[i].flags, true).p else db.frozenCounter[i])
  }

  function ClearedCounters(db: Db, start: nat, stop: nat): seq<Point> {
    seq(|db.counter|, i requires 0 <= i < |db.counter| =>
      if Reached(i, start, stop, |db.counter|, |db.frozenCounter|)
      then SetCounter(db.counter[i], Num(0.0), db.counter[i].flags).p else db.counter[i])
  }

  function Apply(db: Db, x: Change): Db {
    match x
    case UpdateAnalog(i, v, flags) =>
      if i < |db.analog| then db.(analog := db.analog[i := SetAnalog(db.analog[i], v, flags).p]) else db
    case UpdateAnalogOut(i, v, flags) =>
      if i < |db.analogOut| then db.(analogOut := db.analogOut[i := SetAnalog(db.analogOut[i], v, flags).p]) else db
    case UpdateFrozen(i, v, flags) =>
      if i < |db.frozen| then db.(frozen := db.frozen[i := SetFrozenAnalog(db.frozen[i], v, flags, false).p]) else db
    case UpdateCounter(i, v, flags) =>
      if i < |db.counter| then db.(counter := db.counter[i := SetCounter(db.counter[i], v, flags).p]) else db
    case UpdateFrozenCounter(i, v, flags) =>
      if i < |db.frozenCounter| then
        db.(frozenCounter := db.frozenCounter[i := SetFrozenCounter(db.frozenCounter[i], v, flags, false).p])
      else db
    case FreezeAnalogs(start, stop, clear) =>
      db.(frozen := FrozenInto(db, start, stop), analog := if clear then ClearedAnalogs(db, start, stop) else db.analog)
    case FreezeCounters(start, stop, clear) =>
      db.(frozenCounter := CountersInto(db, start, stop),
          counter := if clear then ClearedCounters(db, start, stop) else db.counter)
  }

  function After(db: Db, xs: seq<Change>): Db {
    if xs == [] then db else Apply(After(db, xs[..|xs| - 1]), xs[|xs| - 1])
  }

  ghost predicate AllSteady(ps: seq<Point>) {
    forall i :: 0 <= i < |ps| ==> Steady(ps[i])
  }

  /** Every analog, analog output, frozen analog and counter is within its deadband of the last
      event it raised, and every frozen counter is what it last reported. */
  ghost predicate SteadyDb(db: Db) {
    && AllSteady(db.analog) && AllSteady(db.analogOut) && AllSteady(db.frozen) && AllSteady(db.counter)
    && forall i :: 0 <= i < |db.frozenCounter| ==> SteadySnapshot(db.frozenCounter[i])
  }

  lemma FreezesSteady(db: Db, start: nat, stop: nat)
    requires SteadyDb(db)
    ensures AllSteady(FrozenInto(db, start, stop)) && AllSteady(ClearedAnalogs(db, start, stop))
    ensures AllSteady(ClearedCounters(db, start, stop))
  {
    hide Steady, SetAnalog, SetFrozenAnalog, SetCounter;
    forall i | 0 <= i < |db.frozen| ensures Steady(FrozenInto(db, start, stop)[i]) {
      if Reached(i, start, stop, |db.analog|, |db.frozen|) {
        FrozenSteady(db.frozen[i], db.analog[i].value, db.analog[i].flags, true);
      }
    }
    forall i | 0 <= i < |db.analog| ensures Steady(ClearedAnalogs(db, start, stop)[i]) {
      AnalogSteady(db.analog[i], Num(0.0), db.analog[i].flags);
    }
    forall i | 0 <= i < |db.counter| ensures Steady(ClearedCounters(db, start, stop)[i]) {
      CounterSteady(db.counter[i], Num(0.0), db.counter[i].flags);
    }
  }

  lemma ApplySteady(db: Db, x: Change)
    requires SteadyDb(db)
    ensures SteadyDb(Apply(db, x))
  {
    hide Steady, SetAnalog, SetFrozenAnalog, SetCounter, FrozenInto, ClearedAnalogs, ClearedCounters;
    match x
    case UpdateAnalog(i, v, flags) => if i < |db.analog| { AnalogSteady(db.analog[i], v, flags); }
    case UpdateAnalogOut(i, v, flags) => if i < |db.analogOut| { AnalogSteady(db.analogOut[i], v, flags); }
    case UpdateFrozen(i, v, flags) => if i < |db.frozen| { FrozenSteady(db.frozen[i], v, flags, false); }
    case UpdateCounter(i, v, flags) => if i < |db.counter| { CounterSteady(db.counter[i], v, flags); }
    case UpdateFrozenCounter(i, v, flags) =>
    case FreezeAnalogs(start, stop, clear) => FreezesSteady(db, start, stop);
    case FreezeCounters(start, stop, clear) => FreezesSteady(db, start, stop);
  }

  /** No point drifts. After every sequence of updates, freezes and clearing freezes, of any
      ranges and in however small steps, every point that has reported is within its deadband of
      the last event it raised. */
  lemma {:induction false} NeverDrifts(db: Db, xs: seq<Change>)
    requires SteadyDb(db)
    ensures SteadyDb(After(db, xs))
  {
    hide SteadyDb, Apply;
    if xs != [] {
      NeverDrifts(db, xs[..|xs| - 1]);
      ApplySteady(After(db, xs[..|xs| - 1]), xs[|xs| - 1]);
    }
  }

  // ---------- The database in place ----------

  class Database {
    const analog: array<Point>
    const frozen: array<Point>
    const counter: array<Point>
    const frozenCounter: array<Snapshot>

    /** Points of different kinds are kept apart. */
    ghost predicate Apart() {
      analog != frozen && analog != counter && frozen != counter
    }

    ghost function View(): Db
      reads analog, frozen, counter, frozenCounter
    {
      Db(analog[..], [], frozen[..], counter[..], frozenCounter[..])
    }

    constructor (a: seq<Point>, f: seq<Point>, c: seq<Point>, fc: seq<Snapshot>)
      ensures Apart() && View() == Db(a, [], f, c, fc)
      ensures fresh(analog) && fresh(frozen) && fresh(counter) && fresh(frozenCounter)
    {
      analog := new Point[|a|](i requires 0 <= i < |a| => a[i]);
      frozen := new Point[|f|](i requires 0 <= i < |f| => f[i]);
      counter := new Point[|c|](i requires 0 <= i < |c| => c[i]);
      frozenCounter := new Snapshot[|fc|](i requires 0 <= i < |fc| => fc[i]);
    }

    method SetAnalogAt(i: nat, v: Reading, flags: int) returns (raises: bool)
      requires Apart()
      modifies analog
      ensures View() == Apply(old(View()), UpdateAnalog(i, v, flags))
      ensures raises == (i < analog.Length && SetAnalog(old(analog[..])[i], v, flags).raises)
    {
      hide SetAnalog;
      if i >= analog.Length { return false; }
      var u := SetAnalog(analog[i], v, flags);
      analog[i] := u.p;
      raises := u.raises;
    }

    method SetCounterAt(i: nat, v: Reading, flags: int) returns (raises: bool)
      requires Apart()
      modifies counter
      ensures View() == Apply(old(View()), UpdateCounter(i, v, flags))
      ensures raises == (i < counter.Length && SetCounter(old(counter[..])[i], v, flags).raises)
    {
      hide SetCounter;
      if i >= counter.Length { return false; }
      var u := SetCounter(counter[i], v, flags);
      counter[i] := u.p;
      raises := u.raises;
    }

    method SetFrozenAt(i: nat, v: Reading, flags: int) returns (raises: bool)
      requires Apart()
      modifies frozen
      ensures View() == Apply(old(View()), UpdateFrozen(i, v, flags))
      ensures raises == (i < frozen.Length && SetFrozenAnalog(old(frozen[..])[i], v, flags, false).raises)
    {
      hide SetFrozenAnalog;
      if i >= frozen.Length { return false; }
      var u := SetFrozenAnalog(frozen[i], v, flags, false);
      frozen[i] := u.p;
      raises := u.raises;
    }

    /** Freezes a range of analogs, one after another, setting each to zero when `clear`. */
    method FreezeAnalogRange(start: nat, stop: nat, clear: bool)
      requires Apart()
      modifies analog, frozen
      ensures View() == Apply(old(View()), FreezeAnalogs(start, stop, clear))
    {
      hide SetAnalog, SetFrozenAnalog;
      ghost var db := View();
      var i := start;
      while i <= stop && i < analog.Length && i < frozen.Length
        invariant start <= i
        invariant forall k :: 0 <= k < frozen.Length ==>
          frozen[k] == if k < i then FrozenInto(db, start, stop)[k] else db.frozen[k]
        invariant forall k :: 0 <= k < analog.Length ==>
          analog[k] == if clear && k < i then ClearedAnalogs(db, start, stop)[k] else db.analog[k]
        decreases stop + 1 - i
      {
        var p := analog[i];
        frozen[i] := SetFrozenAnalog(frozen[i], p.value, p.flags, true).p;
        if clear { analog[i] := SetAnalog(p, Num(0.0), p.flags).p; }
        i := i + 1;
      }
      assert frozen[..] == FrozenInto(db, start, stop);
      assert clear ==> analog[..] == ClearedAnalogs(db, start, stop);
      assert !clear ==> analog[..] == db.analog;
    }

    /** The same of counters. */
    method FreezeCounterRange(start: nat, stop: nat, clear: bool)
      requires Apart()
      modifies counter, frozenCounter
      ensures View() == Apply(old(View()), FreezeCounters(start, stop, clear))
    {
      hide SetCounter, SetFrozenCounter;
      ghost var db := View();
      var i := start;
      while i <= stop && i < counter.Length && i < frozenCounter.Length
        invariant start <= i
        invariant forall k :: 0 <= k < frozenCounter.Length ==>
          frozenCounter[k] == if k < i then CountersInto(db, start, stop)[k] else db.frozenCounter[k]
        invariant forall k :: 0 <= k < counter.Length ==>
          counter[k] == if clear && k < i then ClearedCounters(db, start, stop)[k] else db.counter[k]
        decreases stop + 1 - i
      {
        var p := counter[i];
        frozenCounter[i] := SetFrozenCounter(frozenCounter[i], p.value, p.flags, true).p;
        if clear { counter[i] := SetCounter(p, Num(0.0), p.flags).p; }
        i := i + 1;
      }
      assert frozenCounter[..] == CountersInto(db, start, stop);
      assert clear ==> counter[..] == ClearedCounters(db, start, stop);
      assert !clear ==> counter[..] == db.counter;
    }
  }
}
