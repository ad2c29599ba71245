/** Values shared by both ends of a DNP3 application-layer exchange. */
module Protocol {

  type Octet = x: int | 0 <= x < 0x100
  type Index16 = x: int | 0 <= x < 0x1_0000

  /** The application sequence space: four bits. */
  const SEQ_MODULUS: nat := 16

  type SeqNum = x: int | 0 <= x < SEQ_MODULUS

  /** The sequence number `k` places after `s`. */
  function SeqPlus(s: SeqNum, k: nat): SeqNum {
    (s + k) % SEQ_MODULUS
  }

  datatype Option<+T> = None | Some(value: T)
}

/** Sequences of sequences, joined. */
module Joining {
  function Flatten<T>(parts: seq<seq<T>>): seq<T> {
    if parts == [] then [] else Flatten(parts[..|parts| - 1]) + parts[|parts| - 1]
  }

  function TotalLength<T>(parts: seq<seq<T>>): nat {
    if parts == [] then 0 else TotalLength(parts[..|parts| - 1]) + |parts[|parts| - 1]|
  }

  lemma {:induction false} FlattenLength<T>(parts: seq<seq<T>>)
    ensures |Flatten(parts)| == TotalLength(parts)
  {
    if parts != [] { FlattenLength(parts[..|parts| - 1]); }
  }

  lemma {:induction false} FlattenConcat<T>(a: seq<seq<T>>, b: seq<seq<T>>)
    ensures Flatten(a + b) == Flatten(a) + Flatten(b)
  {
    if b == [] {
      assert a + b == a;
    } else {
      FlattenConcat(a, b[..|b| - 1]);
      assert (a + b)[..|a + b| - 1] == a + b[..|b| - 1];
    }
  }

  lemma FlattenCons<T>(parts: seq<seq<T>>)
    requires parts != []
    ensures Flatten(parts) == parts[0] + Flatten(parts[1..])
  {
    FlattenConcat(parts[..1], parts[1..]);
    assert parts == parts[..1] + parts[1..];
    assert parts[..1][..0] == [];
    assert Flatten(parts[..1]) == parts[0];
  }

  lemma FlattenSnoc<T>(parts: seq<seq<T>>, last: seq<T>)
    ensures Flatten(parts + [last]) == Flatten(parts) + last
  {
    assert (parts + [last])[..|parts|] == parts;
  }

  /** Parts of equal length can be cut out again. */
  lemma {:induction false} FlattenEven<T>(parts: seq<seq<T>>, n: nat)
    requires forall i :: 0 <= i < |parts| ==> |parts[i]| == n
    ensures |Flatten(parts)| == |parts| * n
  {
    if parts != [] {
      FlattenEven(parts[..|parts| - 1], n);
      assert (|parts| - 1) * n + n == |parts| * n;
    }
  }

  lemma {:induction false} FlattenSlice<T>(parts: seq<seq<T>>, n: nat, k: nat)
    requires forall i :: 0 <= i < |parts| ==> |parts[i]| == n
    requires k < |parts|
    ensures k * n + n <= |Flatten(parts)| && Flatten(parts)[k * n..k * n + n] == parts[k]
  {
    var init := parts[..|parts| - 1];
    FlattenEven(init, n);
    FlattenEven(parts, n);
    if k < |init| {
      FlattenSlice(init, n, k);
    }
  }
}

/** Events as the outstation queues them. */
module Events {
  import opened Protocol

  datatype PointType =
    | Binary | DoubleBit | BinaryOutput | Counter | FrozenCounter | Analog | FrozenAnalog
    | AnalogOutput | OctetString | VirtualTerminal | Dataset | SecurityStatistic
    | BinaryCommand | AnalogCommand

  datatype EventClass = Class1 | Class2 | Class3

  /** An instant in nanoseconds since the UNIX epoch, or no usable time. */
  datatype Timestamp = NoTime | At(ns: int)

  /** What an event measured: a number with quality flags, or raw octets. */
  datatype Measurement = Reading(value: real, flags: Octet) | Octets(bytes: seq<Octet>)

  /** `selected` marks an event put into a response and not yet confirmed; `num`
      identifies the event within its buffer. */
  datatype Event = Event(
    kind: PointType, index: Index16, classes: set<EventClass>, variation: Octet,
    time: Timestamp, value: Measurement, selected: bool, num: nat)

  /** What a selection asks for: a mask of classes, or one kind of event. */
  datatype Query = ByClass(mask: set<EventClass>) | ByType(kind: PointType)

  predicate Matches(q: Query, e: Event) {
    match q
    case ByClass(mask) => e.classes * mask != {}
    case ByType(kind) => e.kind == kind
  }

  function Ids(es: seq<Event>): set<nat> {
    set e | e in es :: e.num
  }

  function SelectedIds(es: seq<Event>): set<nat> {
    set e | e in es && e.selected :: e.num
  }
}
