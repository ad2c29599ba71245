/** The outstation's event buffer: queued, selected into a response, and removed
    only once the master confirms. */
module EventBuffers {
  import opened Protocol
  import opened Events

  const DEFAULT_MAX_EVENTS: nat := 1000

  datatype Buffer = Buffer(
    events: seq<Event>, max: nat, overflow: bool,
    drops: nat, dropsAtSelect: nat, nextSeq: nat)

  // ---------- Specification of the operations ----------

  function Empty(maxEvents: int): Buffer {
    Buffer([], if maxEvents <= 0 then DEFAULT_MAX_EVENTS else maxEvents, false, 0, 0, 0)
  }

  function Add(b: Buffer, e: Event): Buffer {
    var full := |b.events| >= b.max && b.events != [];
    b.(events := (if full then b.events[1..] else b.events) + [e.(num := b.nextSeq + 1, selected := false)],
       overflow := b.overflow || full,
       drops := if full then b.drops + 1 else b.drops,
       nextSeq := b.nextSeq + 1)
  }

  predicate Eligible(q: Query, e: Event) {
    !e.selected && Matches(q, e)
  }

  /** The events a selection hands out, oldest first. */
  function Taken(es: seq<Event>, q: Query, limit: int): seq<Event> {
    if es == [] then []
    else
      var init, last := es[..|es| - 1], es[|es| - 1];
      var t := Taken(init, q, limit);
      if |t| < limit && Eligible(q, last) then t + [last.(selected := true)] else t
  }

  /** The buffer's events once a selection has marked what it took. */
  function Marked(es: seq<Event>, q: Query, limit: int): seq<Event> {
    if es == [] then []
    else
      var init, last := es[..|es| - 1], es[|es| - 1];
      Marked(init, q, limit) +
      [if |Taken(init, q, limit)| < limit && Eligible(q, last) then last.(selected := true) else last]
  }

  function Select(b: Buffer, q: Query, limit: int): Buffer {
    b.(events := Marked(b.events, q, limit), dropsAtSelect := b.drops)
  }

  /** The events that stay when those numbered in `gone` and selected leave. */
  function Without(es: seq<Event>, gone: set<nat>): seq<Event> {
    if es == [] then []
    else
      var init, last := es[..|es| - 1], es[|es| - 1];
      if last.selected && last.num in gone then Without(init, gone) else Without(init, gone) + [last]
  }

  /** The events with the selection mark cleared on those numbered in `ids`. */
  function Freed(es: seq<Event>, ids: set<nat>): seq<Event> {
    seq(|es|, i requires 0 <= i < |es| => if es[i].num in ids then es[i].(selected := false) else es[i])
  }

  function Confirm(b: Buffer): Buffer {
    var kept := Without(b.events, Ids(b.events));
    b.(events := kept,
       overflow := b.overflow && !(|kept| < |b.events| && b.drops == b.dropsAtSelect))
  }

  function Unselect(b: Buffer): Buffer {
    b.(events := Freed(b.events, Ids(b.events)))
  }

  function Release(b: Buffer, events: seq<Event>): Buffer {
    b.(events := Freed(b.events, Ids(events)))
  }

  function Discard(b: Buffer, events: seq<Event>): Buffer
  {
    var kept := Without(b.events, Ids(events));
    WithoutShrinks(b.events, Ids(events));
    b.(events := kept,
       overflow := b.overflow || |kept| < |b.events|,
       drops := b.drops + |b.events| - |kept|)
  }

  function Reset(b: Buffer): Buffer {
    b.(events := [], overflow := false)
  }

  function ClearOverflow(b: Buffer): Buffer {
    b.(overflow := false)
  }

  lemma {:induction false} WithoutShrinks(es: seq<Event>, gone: set<nat>)
    ensures |Without(es, gone)| <= |es|
  {
    if es != [] { WithoutShrinks(es[..|es| - 1], gone); }
  }

  // ---------- The buffer invariant ----------

  ghost predicate Ordered(es: seq<Event>) {
    forall i, j :: 0 <= i < j < |es| ==> es[i].num < es[j].num
  }

  ghost predicate Valid(b: Buffer) {
    && 0 < b.max
    && |b.events| <= b.max
    && Ordered(b.events)
    && (forall i :: 0 <= i < |b.events| ==> 1 <= b.events[i].num <= b.nextSeq)
  }

  // ---------- What each operation does to the events ----------

  lemma {:induction false} MarkedShape(es: seq<Event>, q: Query, limit: int)
    ensures |Marked(es, q, limit)| == |es|
    ensures forall i :: 0 <= i < |es| ==>
      Marked(es, q, limit)[i] == es[i] ||
      (Eligible(q, es[i]) && Marked(es, q, limit)[i] == es[i].(selected := true))
  {
    if es != [] { MarkedShape(es[..|es| - 1], q, limit); }
  }

  /** What a selection takes was eligible, and comes back marked. */
  lemma {:induction false} TakenShape(es: seq<Event>, q: Query, limit: int, t: Event)
    requires t in Taken(es, q, limit)
    ensures t.selected && t.(selected := false) in es && Matches(q, t)
  {
    var init, last := es[..|es| - 1], es[|es| - 1];
    if t in Taken(init, q, limit) {
      TakenShape(init, q, limit, t);
    } else {
      assert t == last.(selected := true) && t.(selected := false) == last;
    }
  }

  lemma {:induction false} TakenIds(es: seq<Event>, q: Query, limit: int)
    ensures Ids(Taken(es, q, limit)) <= Ids(es)
  {
    forall n | n in Ids(Taken(es, q, limit)) ensures n in Ids(es) {
      var t :| t in Taken(es, q, limit) && t.num == n;
      TakenShape(es, q, limit, t);
    }
  }

  /** What a selection takes comes back in buffer order. */
  lemma {:induction false} TakenOrdered(es: seq<Event>, q: Query, limit: int)
    requires Ordered(es)
    ensures Ordered(Taken(es, q, limit))
  {
    if es != [] {
      var init, last := es[..|es| - 1], es[|es| - 1];
      TakenOrdered(init, q, limit);
      TakenBelow(init, q, limit, last.num);
    }
  }

  lemma {:induction false} TakenBelow(es: seq<Event>, q: Query, limit: int, n: nat)
    requires forall i :: 0 <= i < |es| ==> es[i].num < n
    ensures forall i :: 0 <= i < |Taken(es, q, limit)| ==> Taken(es, q, limit)[i].num < n
  {
    if es != [] { TakenBelow(es[..|es| - 1], q, limit, n); }
  }

  lemma {:induction false} SelectedAfterSelect(es: seq<Event>, q: Query, limit: int)
    ensures SelectedIds(Marked(es, q, limit)) == SelectedIds(es) + Ids(Taken(es, q, limit))
  {
    if es != [] {
      var init, last := es[..|es| - 1], es[|es| - 1];
      SelectedAfterSelect(init, q, limit);
      SelectedSnoc(init, last);
      var mark := if |Taken(init, q, limit)| < limit && Eligible(q, last) then last.(selected := true) else last;
      SelectedSnoc(Marked(init, q, limit), mark);
      assert es == init + [last];
      assert Marked(es, q, limit) == Marked(init, q, limit) + [mark];
      IdsSnoc(Taken(init, q, limit), mark);
    }
  }

  lemma SelectedSnoc(es: seq<Event>, e: Event)
    ensures SelectedIds(es + [e]) == SelectedIds(es) + if e.selected then {e.num} else {}
  {
    assert forall x :: x in es + [e] <==> x in es || x == e;
  }

  lemma IdsSnoc(es: seq<Event>, e: Event)
    ensures Ids(es + [e]) == Ids(es) + {e.num}
  {
    assert forall x :: x in es + [e] <==> x in es || x == e;
  }

  lemma {:induction false} WithoutShape(es: seq<Event>, gone: set<nat>)
    ensures forall e :: e in Without(es, gone) <==> e in es && !(e.selected && e.num in gone)
    ensures Ordered(es) ==> Ordered(Without(es, gone))
    ensures SelectedIds(Without(es, gone)) == SelectedIds(es) - gone
  {
    if es != [] {
      var init, last := es[..|es| - 1], es[|es| - 1];
      WithoutShape(init, gone);
      assert es == init + [last];
    }
  }

  /** How many events leave. */
  lemma {:induction false} WithoutCount(es: seq<Event>, gone: set<nat>)
    requires Ordered(es)
    ensures |es| - |Without(es, gone)| == |SelectedIds(es) * gone|
  {
    if es != [] {
      WithoutCount(es[..|es| - 1], gone);
      LeavingCount(es, gone);
    }
  }

  lemma LeavingCount(es: seq<Event>, gone: set<nat>)
    requires Ordered(es) && es != []
    ensures var init, last := es[..|es| - 1], es[|es| - 1];
      |SelectedIds(es) * gone| ==
      |SelectedIds(init) * gone| + if last.selected && last.num in gone then 1 else 0
  {
    LastIsNew(es);
    var last, before := es[|es| - 1], SelectedIds(es[..|es| - 1]);
    IntersectGrows(before, gone, last.num);
  }

  lemma IntersectGrows(before: set<nat>, gone: set<nat>, n: nat)
    requires n !in before
    ensures |(before + {n}) * gone| == |before * gone| + if n in gone then 1 else 0
    ensures before + {} == before
  {
    if n in gone {
      assert (before + {n}) * gone == before * gone + {n};
    } else {
      assert (before + {n}) * gone == before * gone;
    }
  }

  /** Which numbers stay. */
  lemma {:induction false} WithoutIds(es: seq<Event>, gone: set<nat>)
    requires Ordered(es)
    ensures Ids(Without(es, gone)) == Ids(es) - (SelectedIds(es) * gone)
  {
    if es != [] {
      var init, last := es[..|es| - 1], es[|es| - 1];
      WithoutIds(init, gone);
      LastIsNew(es);
      IdsSnoc(Without(init, gone), last);
    }
  }

  lemma LastIsNew(es: seq<Event>)
    requires Ordered(es) && es != []
    ensures var init, last := es[..|es| - 1], es[|es| - 1];
      && last.num !in Ids(init)
      && last.num !in SelectedIds(init)
      && Ids(es) == Ids(init) + {last.num}
      && SelectedIds(es) == SelectedIds(init) + (if last.selected then {last.num} else {})
  {
    var init, last := es[..|es| - 1], es[|es| - 1];
    assert es == init + [last];
    SelectedSnoc(init, last);
    IdsSnoc(init, last);
  }

  lemma FreedShape(es: seq<Event>, ids: set<nat>)
    ensures Ids(Freed(es, ids)) == Ids(es)
    ensures SelectedIds(Freed(es, ids)) == SelectedIds(es) - ids
    ensures Ordered(es) ==> Ordered(Freed(es, ids))
  {
    var f := Freed(es, ids);
    assert forall i :: 0 <= i < |es| ==> f[i].num == es[i].num;
    forall n | n in Ids(es) ensures n in Ids(f) {
      var i :| 0 <= i < |es| && es[i].num == n;
      assert f[i] in f;
    }
    forall n | n in SelectedIds(es) - ids ensures n in SelectedIds(f) {
      var i :| 0 <= i < |es| && es[i].num == n && es[i].selected;
      assert f[i] in f;
    }
  }

  // ---------- Handing back a tail equals having selected less ----------

  lemma {:induction false} TakenPrefix(es: seq<Event>, q: Query, limit: int, k: int)
    requires 0 <= k <= limit
    ensures Taken(es, q, k) == (var t := Taken(es, q, limit); if |t| <= k then t else t[..k])
  {
    if es != [] { TakenPrefix(es[..|es| - 1], q, limit, k); }
  }

  function Tail(es: seq<Event>, q: Query, limit: int, k: nat): seq<Event> {
    var t := Taken(es, q, limit);
    if |t| <= k then [] else t[k..]
  }

  lemma FreedSnoc(es: seq<Event>, e: Event, ids: set<nat>)
    ensures Freed(es + [e], ids) == Freed(es, ids) + [if e.num in ids then e.(selected := false) else e]
  {
  }

  lemma FreedIgnores(es: seq<Event>, ids: set<nat>, n: nat)
    requires n !in Ids(es)
    ensures Freed(es, ids + {n}) == Freed(es, ids)
  {
    assert forall i :: 0 <= i < |es| ==> es[i] in es;
  }

  lemma {:induction false} MarkedIds(es: seq<Event>, q: Query, limit: int)
    ensures Ids(Marked(es, q, limit)) == Ids(es)
  {
    if es != [] {
      var init, last := es[..|es| - 1], es[|es| - 1];
      MarkedIds(init, q, limit);
      assert es == init + [last];
      IdsSnoc(init, last);
      IdsSnoc(Marked(init, q, limit), last);
      IdsSnoc(Marked(init, q, limit), last.(selected := true));
    }
  }

  lemma {:induction false} FreedTail(es: seq<Event>, q: Query, limit: int, k: nat)
    requires Ordered(es) && k <= limit
    ensures Freed(Marked(es, q, limit), Ids(Tail(es, q, limit, k))) == Marked(es, q, k)
  {
    if es != [] {
      var init, last := es[..|es| - 1], es[|es| - 1];
      FreedTail(init, q, limit, k);
      TakenPrefix(init, q, limit, k);
      LastIsNew(es);
      MarkedIds(init, q, limit);
      var m, inner := Marked(init, q, limit), Tail(init, q, limit, k);
      if |Taken(init, q, limit)| < limit && Eligible(q, last) {
        var mark := last.(selected := true);
        FreedSnoc(m, mark, Ids(Tail(es, q, limit, k)));
        if |Taken(init, q, limit)| >= k {
          assert Tail(es, q, limit, k) == inner + [mark];
          IdsSnoc(inner, mark);
          FreedIgnores(m, Ids(inner), last.num);
          assert mark.(selected := false) == last;
        } else {
          assert Tail(es, q, limit, k) == [] == inner;
        }
      } else {
        FreedSnoc(m, last, Ids(inner));
        TailIds(init, q, limit, k);
      }
    }
  }

  lemma TailIds(es: seq<Event>, q: Query, limit: int, k: nat)
    ensures Ids(Tail(es, q, limit, k)) <= Ids(es)
  {
    TakenIds(es, q, limit);
    assert forall e :: e in Tail(es, q, limit, k) ==> e in Taken(es, q, limit);
  }

  /** Selecting up to `limit` events and handing all but the first `k` back leaves the
      buffer exactly as selecting only `k` would have. */
  lemma {:induction false} SelectThenRelease(b: Buffer, q: Query, limit: int, k: nat)
    requires Valid(b)
    requires k <= |Taken(b.events, q, limit)|
    ensures Release(Select(b, q, limit), Taken(b.events, q, limit)[k..]) == Select(b, q, k)
    ensures Taken(b.events, q, k) == Taken(b.events, q, limit)[..k]
  {
    if limit > 0 {
      TakenSize(b.events, q, limit);
      FreedTail(b.events, q, limit, k);
      TakenPrefix(b.events, q, limit, k);
      assert Tail(b.events, q, limit, k) == Taken(b.events, q, limit)[k..];
    } else {
      ReleaseNothing(b, q, limit);
    }
  }

  lemma ReleaseNothing(b: Buffer, q: Query, limit: int)
    requires limit <= 0
    ensures Taken(b.events, q, limit) == [] == Taken(b.events, q, 0)
    ensures Release(Select(b, q, limit), []) == Select(b, q, 0)
  {
    NothingTaken(b.events, q, limit);
    NothingTaken(b.events, q, 0);
    assert Freed(b.events, {}) == b.events;
  }

  lemma {:induction false} TakenSize(es: seq<Event>, q: Query, limit: int)
    requires limit > 0
    ensures |Taken(es, q, limit)| <= limit
  {
    if es != [] { TakenSize(es[..|es| - 1], q, limit); }
  }

  lemma {:induction false} NothingTaken(es: seq<Event>, q: Query, limit: int)
    requires limit <= 0
    ensures Taken(es, q, limit) == [] && Marked(es, q, limit) == es
  {
    if es != [] { NothingTaken(es[..|es| - 1], q, limit); }
  }

  // ---------- Accounting over whole histories ----------

  datatype Op =
    | OpAdd(e: Event) | OpSelect(q: Query, limit: int) | OpConfirm | OpUnselect
    | OpRelease(events: seq<Event>) | OpDiscard(events: seq<Event>) | OpReset | OpClearOverflow

  function Apply(b: Buffer, op: Op): Buffer {
    match op
    case OpAdd(e) => Add(b, e)
    case OpSelect(q, limit) => Select(b, q, limit)
    case OpConfirm => Confirm(b)
    case OpUnselect => Unselect(b)
    case OpRelease(events) => Release(b, events)
    case OpDiscard(events) => Discard(b, events)
    case OpReset => Reset(b)
    case OpClearOverflow => ClearOverflow(b)
  }

  /** A buffer beside a record, by event number, of where every event went. */
  datatype Ledger = Ledger(
    buf: Buffer, added: seq<Event>, confirmed: set<nat>, lost: set<nat>, wiped: set<nat>)

  ghost function Record(l: Ledger, op: Op): Ledger {
    var b := l.buf;
    var l' := l.(buf := Apply(b, op));
    match op
    case OpAdd(e) =>
      l'.(added := l.added + [e],
          lost := if |b.events| >= b.max && b.events != [] then l.lost + {b.events[0].num} else l.lost)
    case OpConfirm => l'.(confirmed := l.confirmed + SelectedIds(b.events))
    case OpDiscard(events) => l'.(lost := l.lost + SelectedIds(b.events) * Ids(events))
    case OpReset => l'.(wiped := l.wiped + Ids(b.events))
    case _ => l'
  }

  ghost function History(maxEvents: int, ops: seq<Op>): Ledger {
    if ops == [] then Ledger(Empty(maxEvents), [], {}, {}, {})
    else Record(History(maxEvents, ops[..|ops| - 1]), ops[|ops| - 1])
  }

  function Upto(n: nat): set<nat> {
    if n == 0 then {} else Upto(n - 1) + {n}
  }

  lemma {:induction false} UptoShape(n: nat)
    ensures |Upto(n)| == n && forall k :: k in Upto(n) <==> 1 <= k <= n
  {
    if n > 0 { UptoShape(n - 1); }
  }

  ghost predicate Partition(whole: set<nat>, a: set<nat>, b: set<nat>, c: set<nat>, d: set<nat>) {
    && a !! b && a !! c && a !! d && b !! c && b !! d && c !! d
    && whole == a + b + c + d
  }

  /** Every number ever issued is in exactly one place, and the drop counter is exact. */
  ghost predicate Partitioned(l: Ledger) {
    && Partition(Upto(l.buf.nextSeq), Ids(l.buf.events), l.confirmed, l.lost, l.wiped)
    && |l.lost| == l.buf.drops
  }

  predicate Same(e: Event, f: Event) {
    e.(selected := false, num := 0) == f.(selected := false, num := 0)
  }

  /** What a held event carries is what was added under its number. */
  ghost predicate Intact(es: seq<Event>, added: seq<Event>) {
    forall e :: e in es ==> 1 <= e.num <= |added| && Same(e, added[e.num - 1])
  }

  // Each operation keeps the buffer invariant.

  lemma ValidFrom(b: Buffer, b': Buffer)
    requires Valid(b) && b'.max == b.max && b'.nextSeq == b.nextSeq
    requires |b'.events| <= |b.events| && Ordered(b'.events) && Ids(b'.events) <= Ids(b.events)
    ensures Valid(b')
  {
    forall i | 0 <= i < |b'.events| ensures 1 <= b'.events[i].num <= b'.nextSeq {
      assert b'.events[i] in b'.events;
      assert b'.events[i].num in Ids(b.events);
    }
  }

  lemma MarkedOrdered(es: seq<Event>, q: Query, limit: int)
    requires Ordered(es)
    ensures |Marked(es, q, limit)| == |es| && Ordered(Marked(es, q, limit))
  {
    MarkedShape(es, q, limit);
  }

  lemma SelectValid(b: Buffer, q: Query, limit: int)
    requires Valid(b)
    ensures Valid(Select(b, q, limit))
  {
    MarkedOrdered(b.events, q, limit);
    MarkedIds(b.events, q, limit);
    ValidFrom(b, Select(b, q, limit));
  }

  lemma FreedValid(b: Buffer, ids: set<nat>)
    requires Valid(b)
    ensures Valid(b.(events := Freed(b.events, ids)))
  {
    FreedShape(b.events, ids);
    ValidFrom(b, b.(events := Freed(b.events, ids)));
  }

  lemma WithoutValid(b: Buffer, gone: set<nat>)
    requires Valid(b)
    ensures Valid(b.(events := Without(b.events, gone)))
  {
    WithoutShrinks(b.events, gone);
    WithoutShape(b.events, gone);
    WithoutIds(b.events, gone);
    ValidFrom(b, b.(events := Without(b.events, gone)));
  }

  lemma ApplyValid(b: Buffer, op: Op)
    requires Valid(b)
    ensures Valid(Apply(b, op))
  {
    match op
    case OpSelect(q, limit) => SelectValid(b, q, limit);
    case OpConfirm => WithoutValid(b, Ids(b.events));
    case OpUnselect => FreedValid(b, Ids(b.events));
    case OpRelease(events) => FreedValid(b, Ids(events));
    case OpDiscard(events) => WithoutValid(b, Ids(events));
    case _ =>
  }

  // Each operation keeps the numbers partitioned.

  lemma AddIds(b: Buffer, e: Event)
    requires Valid(b)
    ensures var full := |b.events| >= b.max;
      && (full ==> b.events[0].num in Ids(b.events))
      && Ids(Add(b, e).events) ==
         Ids(b.events) - (if full then {b.events[0].num} else {}) + {b.nextSeq + 1}
  {
    var full := |b.events| >= b.max;
    var kept := if full then b.events[1..] else b.events;
    IdsSnoc(kept, e.(num := b.nextSeq + 1, selected := false));
    if full {
      assert b.events == [b.events[0]] + kept;
      assert b.events[0].num !in Ids(kept);
      assert Ids(b.events) == {b.events[0].num} + Ids(kept);
    }
  }

  /** Moving `x` out of the held part into the confirmed or the lost one keeps a partition. */
  lemma PartitionMove(
      whole: set<nat>, held: set<nat>, confirmed: set<nat>, lost: set<nat>, wiped: set<nat>, x: set<nat>)
    requires Partition(whole, held, confirmed, lost, wiped) && x <= held
    ensures Partition(whole, held - x, confirmed + x, lost, wiped)
    ensures Partition(whole, held - x, confirmed, lost + x, wiped)
    ensures |lost + x| == |lost| + |x|
  {
    assert (held - x) + x == held;
    assert lost !! x;
  }

  lemma PartitionGrow(whole: set<nat>, held: set<nat>, confirmed: set<nat>, lost: set<nat>, wiped: set<nat>, n: nat)
    requires Partition(whole, held, confirmed, lost, wiped) && n !in whole
    ensures Partition(whole + {n}, held + {n}, confirmed, lost, wiped)
  {
  }

  lemma PartitionAdd(
      whole: set<nat>, held: set<nat>, confirmed: set<nat>, lost: set<nat>, wiped: set<nat>, x: set<nat>, n: nat)
    requires Partition(whole, held, confirmed, lost, wiped) && x <= held && n !in whole
    ensures Partition(whole + {n}, held - x + {n}, confirmed, lost + x, wiped)
    ensures |lost + x| == |lost| + |x|
  {
    PartitionMove(whole, held, confirmed, lost, wiped, x);
    PartitionGrow(whole, held - x, confirmed, lost + x, wiped, n);
  }

  lemma PartitionedAdd(l: Ledger, e: Event)
    requires Valid(l.buf) && Partitioned(l)
    ensures Partitioned(Record(l, OpAdd(e)))
  {
    var b := l.buf;
    var x: set<nat> := if |b.events| >= b.max then {b.events[0].num} else {};
    AddIds(b, e);
    UptoShape(b.nextSeq);
    PartitionedAfterAdd(l, Record(l, OpAdd(e)), x);
  }

  lemma PartitionedAfterAdd(l: Ledger, l': Ledger, x: set<nat>)
    requires Partitioned(l) && x <= Ids(l.buf.events)
    requires l'.buf.nextSeq == l.buf.nextSeq + 1 && l'.buf.nextSeq !in Upto(l.buf.nextSeq)
    requires Ids(l'.buf.events) == Ids(l.buf.events) - x + {l'.buf.nextSeq}
    requires l'.lost == l.lost + x && l'.confirmed == l.confirmed && l'.wiped == l.wiped
    requires l'.buf.drops == l.buf.drops + |x|
    ensures Partitioned(l')
  {
    PartitionAdd(Upto(l.buf.nextSeq), Ids(l.buf.events), l.confirmed, l.lost, l.wiped, x, l'.buf.nextSeq);
  }

  lemma PartitionedConfirm(l: Ledger)
    requires Valid(l.buf) && Partitioned(l)
    ensures Partitioned(Record(l, OpConfirm))
  {
    var es := l.buf.events;
    var left := SelectedIds(es);
    WithoutIds(es, Ids(es));
    assert left * Ids(es) == left;
    PartitionMove(Upto(l.buf.nextSeq), Ids(es), l.confirmed, l.lost, l.wiped, left);
  }

  lemma PartitionedDiscard(l: Ledger, events: seq<Event>)
    requires Valid(l.buf) && Partitioned(l)
    ensures Partitioned(Record(l, OpDiscard(events)))
  {
    var es := l.buf.events;
    WithoutCount(es, Ids(events));
    WithoutIds(es, Ids(events));
    PartitionedAfterDiscard(l, Record(l, OpDiscard(events)), SelectedIds(es) * Ids(events));
  }

  lemma PartitionedAfterDiscard(l: Ledger, l': Ledger, left: set<nat>)
    requires Partitioned(l) && left <= Ids(l.buf.events)
    requires l'.buf.nextSeq == l.buf.nextSeq && Ids(l'.buf.events) == Ids(l.buf.events) - left
    requires l'.lost == l.lost + left && l'.confirmed == l.confirmed && l'.wiped == l.wiped
    requires l'.buf.drops == l.buf.drops + |left|
    ensures Partitioned(l')
  {
    PartitionMove(Upto(l.buf.nextSeq), Ids(l.buf.events), l.confirmed, l.lost, l.wiped, left);
  }

  lemma PartitionedReset(l: Ledger)
    requires Partitioned(l)
    ensures Partitioned(Record(l, OpReset))
  {
    var l' := Record(l, OpReset);
    assert Ids(l'.buf.events) == {};
    PartitionWipe(Upto(l.buf.nextSeq), Ids(l.buf.events), l.confirmed, l.lost, l.wiped);
  }

  lemma PartitionWipe(whole: set<nat>, held: set<nat>, confirmed: set<nat>, lost: set<nat>, wiped: set<nat>)
    requires Partition(whole, held, confirmed, lost, wiped)
    ensures Partition(whole, {}, confirmed, lost, wiped + held)
  {
  }

  lemma PartitionedRemark(l: Ledger, op: Op)
    requires Valid(l.buf) && Partitioned(l)
    requires op.OpSelect? || op.OpUnselect? || op.OpRelease? || op.OpClearOverflow?
    ensures Partitioned(Record(l, op))
  {
    var es, l' := l.buf.events, Record(l, op);
    assert Ids(l'.buf.events) == Ids(es) by {
      match op
      case OpSelect(q, limit) => MarkedIds(es, q, limit);
      case OpUnselect => FreedShape(es, Ids(es));
      case OpRelease(events) => FreedShape(es, Ids(events));
      case OpClearOverflow =>
    }
  }

  lemma PartitionedStep(l: Ledger, op: Op)
    requires Valid(l.buf) && Partitioned(l)
    ensures Partitioned(Record(l, op))
  {
    match op
    case OpAdd(e) => PartitionedAdd(l, e);
    case OpConfirm => PartitionedConfirm(l);
    case OpDiscard(events) => PartitionedDiscard(l, events);
    case OpReset => PartitionedReset(l);
    case _ => PartitionedRemark(l, op);
  }

  // Each operation keeps what a held event carries.

  lemma IntactMap(es: seq<Event>, es': seq<Event>, added: seq<Event>)
    requires Intact(es, added) && |es'| == |es|
    requires forall i :: 0 <= i < |es| ==> es'[i].num == es[i].num && Same(es[i], es'[i])
    ensures Intact(es', added)
  {
    forall e' | e' in es' ensures 1 <= e'.num <= |added| && Same(e', added[e'.num - 1]) {
      var i :| 0 <= i < |es'| && es'[i] == e';
      assert es[i] in es;
    }
  }

  lemma IntactAdd(b: Buffer, added: seq<Event>, e: Event)
    requires |added| == b.nextSeq && Intact(b.events, added)
    ensures Intact(Add(b, e).events, added + [e])
  {
    var mark := e.(num := b.nextSeq + 1, selected := false);
    forall x | x in Add(b, e).events
      ensures 1 <= x.num <= |added| + 1 && Same(x, (added + [e])[x.num - 1])
    {
      if x in b.events {
        assert Same(x, added[x.num - 1]);
      } else {
        assert x == mark;
      }
    }
  }

  lemma IntactStep(b: Buffer, added: seq<Event>, op: Op)
    requires !op.OpAdd? && Intact(b.events, added)
    ensures Intact(Apply(b, op).events, added)
  {
    match op
    case OpSelect(q, limit) =>
      MarkedShape(b.events, q, limit);
      IntactMap(b.events, Marked(b.events, q, limit), added);
    case OpConfirm => WithoutShape(b.events, Ids(b.events));
    case OpUnselect => IntactMap(b.events, Freed(b.events, Ids(b.events)), added);
    case OpRelease(events) => IntactMap(b.events, Freed(b.events, Ids(events)), added);
    case OpDiscard(events) => WithoutShape(b.events, Ids(events));
    case _ =>
  }

  ghost predicate Accounted(l: Ledger) {
    Valid(l.buf) && Partitioned(l) && |l.added| == l.buf.nextSeq && Intact(l.buf.events, l.added)
  }

  lemma AccountedStep(l: Ledger, op: Op)
    requires Accounted(l)
    ensures Accounted(Record(l, op))
  {
    ApplyValid(l.buf, op);
    PartitionedStep(l, op);
    if op.OpAdd? { IntactAdd(l.buf, l.added, op.e); } else { IntactStep(l.buf, l.added, op); }
  }

  /** Over every history of operations the buffer is within capacity and strictly ordered,
      every event number ever issued is in exactly one place (held, confirmed, lost or
      wiped), the drop counter is the number of lost events, and a held event is the one
      that was added under its number. */
  lemma {:induction false} HistoryIsAccounted(maxEvents: int, ops: seq<Op>)
    ensures Accounted(History(maxEvents, ops))
  {
    if ops != [] {
      HistoryIsAccounted(maxEvents, ops[..|ops| - 1]);
      AccountedStep(History(maxEvents, ops[..|ops| - 1]), ops[|ops| - 1]);
    }
  }

  /** Total added is held plus confirmed plus dropped plus wiped. */
  lemma {:induction false} Conservation(maxEvents: int, ops: seq<Op>)
    ensures var l := History(maxEvents, ops);
      |l.added| == |l.buf.events| + |l.confirmed| + l.buf.drops + |l.wiped|
  {
    var l := History(maxEvents, ops);
    HistoryIsAccounted(maxEvents, ops);
    OrderedCount(l.buf.events);
    UptoShape(l.buf.nextSeq);
  }

  lemma {:induction false} OrderedCount(es: seq<Event>)
    requires Ordered(es)
    ensures |Ids(es)| == |es|
  {
    if es != [] {
      OrderedCount(es[..|es| - 1]);
      LastIsNew(es);
    }
  }

  // ---------- The overflow latch ----------

  predicate KeepsLatch(op: Op) {
    !op.OpSelect? && !op.OpReset? && !op.OpClearOverflow?
  }

  lemma LatchStep(b: Buffer, op: Op)
    requires KeepsLatch(op)
    requires Latched(b)
    ensures Latched(Apply(b, op))
  {
    if op.OpDiscard? { WithoutShrinks(b.events, Ids(op.events)); }
  }

  lemma LossSetsLatch(b: Buffer, op: Op)
    requires Apply(b, op).drops > b.drops && b.dropsAtSelect <= b.drops
    ensures Latched(Apply(b, op))
  {
  }

  lemma {:induction false} DropsCoverSelect(maxEvents: int, ops: seq<Op>)
    ensures var b := History(maxEvents, ops).buf; b.dropsAtSelect <= b.drops
  {
    if ops != [] {
      DropsCoverSelect(maxEvents, ops[..|ops| - 1]);
      var b, op := History(maxEvents, ops[..|ops| - 1]).buf, ops[|ops| - 1];
      if op.OpDiscard? { WithoutShrinks(b.events, Ids(op.events)); }
    }
  }

  /** The buffer after a history. */
  ghost function After(maxEvents: int, ops: seq<Op>): Buffer {
    History(maxEvents, ops).buf
  }

  ghost predicate Latched(b: Buffer) {
    b.overflow && b.dropsAtSelect < b.drops
  }

  lemma {:induction false} LatchHolds(maxEvents: int, ops: seq<Op>, more: seq<Op>)
    requires Latched(After(maxEvents, ops))
    requires forall i :: 0 <= i < |more| ==> KeepsLatch(more[i])
    ensures Latched(After(maxEvents, ops + more))
  {
    if more == [] {
      assert ops + more == ops;
    } else {
      var init, last := more[..|more| - 1], more[|more| - 1];
      LatchHolds(maxEvents, ops, init);
      var whole := ops + more;
      assert whole[..|whole| - 1] == ops + init && whole[|whole| - 1] == last;
      LatchStep(After(maxEvents, ops + init), last);
    }
  }

  /** A loss that no later selection, reset or explicit clear follows is still indicated at
      the end, through any number of confirmations. */
  lemma {:induction false} LossStaysIndicated(maxEvents: int, ops: seq<Op>, loss: Op, more: seq<Op>)
    requires After(maxEvents, ops).drops < After(maxEvents, ops + [loss]).drops
    requires forall i :: 0 <= i < |more| ==> KeepsLatch(more[i])
    ensures After(maxEvents, ops + [loss] + more).overflow
  {
    assert (ops + [loss])[..|ops|] == ops;
    DropsCoverSelect(maxEvents, ops);
    LossSetsLatch(After(maxEvents, ops), loss);
    LatchHolds(maxEvents, ops + [loss], more);
  }

  // ---------- The buffer as the outstation updates it ----------

  /** The selection loop: marks eligible events from the front until `limit` are taken. */
  method MarkUpTo(was: seq<Event>, q: Query, limit: int) returns (es: seq<Event>, out: seq<Event>)
    ensures es == Marked(was, q, limit)
    ensures out == Taken(was, q, limit)
  {
    es, out := [], [];
    if limit <= 0 {
      NothingTaken(was, q, limit);
      return was, [];
    }
    var i := 0;
    while i < |was| && |out| < limit
      invariant 0 <= i <= |was|
      invariant out == Taken(was[..i], q, limit)
      invariant es == Marked(was[..i], q, limit)
    {
      assert was[..i + 1][..i] == was[..i];
      if !was[i].selected && Matches(q, was[i]) {
        var marked := was[i].(selected := true);
        es, out := es + [marked], out + [marked];
      } else {
        es := es + [was[i]];
      }
      i := i + 1;
    }
    RestUntouched(was, i, q, limit);
    es := es + was[i..];
  }

  class EventBuffer {
    var events: seq<Event>
    var max: nat
    var overflow: bool
    var drops: nat
    var dropsAtSelect: nat
    var nextSeq: nat

    function View(): Buffer
      reads this
    {
      Buffer(events, max, overflow, drops, dropsAtSelect, nextSeq)
    }

    constructor (maxEvents: int)
      ensures View() == Empty(maxEvents)
    {
      max := if maxEvents <= 0 then DEFAULT_MAX_EVENTS else maxEvents;
      events, overflow, drops, dropsAtSelect, nextSeq := [], false, 0, 0, 0;
    }

    /** Queues an event, discarding the oldest if the buffer is full. */
    method Enqueue(e: Event)
      requires Valid(View())
      modifies this
      ensures View() == Add(old(View()), e) && Valid(View())
    {
      if |events| >= max {
        events := events[1..];
        overflow := true;
        drops := drops + 1;
      }
      nextSeq := nextSeq + 1;
      events := events + [e.(num := nextSeq, selected := false)];
    }

    /** How many events of the mask are queued. */
    method Count(mask: set<EventClass>) returns (n: nat)
      ensures n == |Indices(events, mask)|
    {
      n := 0;
      for i := 0 to |events|
        invariant n == |Indices(events[..i], mask)|
      {
        IndicesSnoc(events, i, mask);
        if events[i].classes * mask != {} { n := n + 1; }
      }
      assert events[..|events|] == events;
    }

    /** Marks up to `limit` unselected events and returns copies of them, oldest first. */
    method SelectWhere(q: Query, limit: int) returns (out: seq<Event>)
      requires Valid(View())
      modifies this
      ensures View() == Select(old(View()), q, limit)
      ensures Valid(View())
      ensures out == Taken(old(events), q, limit)
    {
      SelectValid(View(), q, limit);
      var marked: seq<Event>;
      marked, out := MarkUpTo(events, q, limit);
      events, dropsAtSelect := marked, drops;
    }

    /** Removes every selected event, since the master has the response that carried them. */
    method ConfirmAll() returns (removed: nat)
      requires Valid(View())
      modifies this
      ensures View() == Confirm(old(View())) && Valid(View())
      ensures removed == |old(events)| - |events|
    {
      var all := Ids(events);
      WithoutValid(View(), all);
      var kept: seq<Event> := [];
      removed := 0;
      for i := 0 to |events|
        invariant kept == Without(events[..i], all) && removed + |kept| == i
      {
        assert events[..i + 1][..i] == events[..i];
        assert events[i] in events;
        if events[i].selected { removed := removed + 1; } else { kept := kept + [events[i]]; }
      }
      assert events[..|events|] == events;
      events := kept;
      if removed > 0 && drops == dropsAtSelect { overflow := false; }
    }

    /** Returns every selected event to the queue. */
    method UnselectAll()
      requires Valid(View())
      modifies this
      ensures View() == Unselect(old(View())) && Valid(View())
    {
      ghost var was, all := events, Ids(events);
      for i := 0 to |events|
        modifies this`events
        invariant |events| == |was|
        invariant events == Freed(was[..i], all) + was[i..]
      {
        assert was[i] in was;
        FreedStep(was, i, all);
        if events[i].selected { events := events[i := events[i].(selected := false)]; }
      }
      assert was[..|was|] == was;
      FreedValid(old(View()), all);
    }

    /** Returns the given events to the queue, touching no other selected event. */
    method ReleaseSome(given: seq<Event>)
      requires Valid(View())
      modifies this
      ensures View() == Release(old(View()), given) && Valid(View())
    {
      ghost var was, ids := events, Ids(given);
      for i := 0 to |events|
        modifies this`events
        invariant |events| == |was|
        invariant events == Freed(was[..i], ids) + was[i..]
      {
        FreedStep(was, i, ids);
        if events[i].selected && events[i].num in Ids(given) {
          events := events[i := events[i].(selected := false)];
        }
      }
      assert was[..|was|] == was;
      FreedValid(old(View()), ids);
    }

    /** Removes the given selected events because they can never be reported, and latches
        the loss. */
    method DiscardSome(given: seq<Event>)
      requires Valid(View())
      modifies this
      ensures View() == Discard(old(View()), given) && Valid(View())
    {
      var gone := Ids(given);
      WithoutValid(View(), gone);
      var kept: seq<Event>, n := [], 0;
      for i := 0 to |events|
        invariant kept == Without(events[..i], gone) && n + |kept| == i
      {
        assert events[..i + 1][..i] == events[..i];
        if events[i].selected && events[i].num in gone { n := n + 1; } else { kept := kept + [events[i]]; }
      }
      assert events[..|events|] == events;
      events := kept;
      if n > 0 {
        overflow := true;
        drops := drops + n;
      }
    }

    /** Empties the buffer, as a cold restart does. */
    method Wipe()
      requires Valid(View())
      modifies this
      ensures View() == Reset(old(View())) && Valid(View())
    {
      events := [];
      overflow := false;
    }
  }

  ghost function Indices(es: seq<Event>, mask: set<EventClass>): set<nat> {
    set i | 0 <= i < |es| && es[i].classes * mask != {}
  }

  lemma IndicesSnoc(es: seq<Event>, i: nat, mask: set<EventClass>)
    requires i < |es|
    ensures |Indices(es[..i + 1], mask)| ==
      |Indices(es[..i], mask)| + if es[i].classes * mask != {} then 1 else 0
  {
    var more: set<nat> := if es[i].classes * mask != {} then {i} else {};
    assert Indices(es[..i + 1], mask) == Indices(es[..i], mask) + more;
  }

  /** Once the limit is reached, or the buffer ends, nothing further is marked. */
  lemma {:induction false} RestUntouched(es: seq<Event>, i: nat, q: Query, limit: int)
    requires i <= |es|
    requires i == |es| || |Taken(es[..i], q, limit)| >= limit
    ensures Taken(es, q, limit) == Taken(es[..i], q, limit)
    ensures Marked(es, q, limit) == Marked(es[..i], q, limit) + es[i..]
  {
    if i == |es| {
      assert es[..i] == es;
    } else {
      var init := es[..|es| - 1];
      assert init[..i] == es[..i];
      RestUntouched(init, i, q, limit);
      assert es[i..] == init[i..] + [es[|es| - 1]];
    }
  }

  lemma FreedStep(was: seq<Event>, i: nat, ids: set<nat>)
    requires i < |was|
    ensures var now := Freed(was[..i], ids) + was[i..];
      && now[i] == was[i]
      && Freed(was[..i + 1], ids) + was[i + 1..] ==
         now[i := if was[i].selected && was[i].num in ids then was[i].(selected := false) else was[i]]
  {
    assert was[i].(selected := false) == was[i] || was[i].selected;
  }
}
