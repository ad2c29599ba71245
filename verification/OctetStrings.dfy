/** Octet string points. An event raised for one shares the point's storage, which the next update
    may overwrite: what a queued event then says, and when it still says what it did. */
module OctetStrings {
  import opened Protocol

  const MAX_LENGTH := 255

  function Truncated(v: seq<Octet>): (t: seq<Octet>)
    ensures |t| <= MAX_LENGTH
  {
    if |v| > MAX_LENGTH then v[..MAX_LENGTH] else v
  }

  /** A queued event's octets: where they are stored and how many there are. */
  datatype Slice = Slice(store: nat, len: nat)

  /** A point. `stores` is every piece of storage it has had, the last the one it writes to, each
      as long as its capacity; `held` the events it has raised. */
  datatype Strings = Strings(stores: seq<seq<Octet>>, len: nat, held: seq<Slice>)

  ghost predicate Valid(s: Strings) {
    && s.stores != [] && s.len <= |s.stores[|s.stores| - 1]|
    && forall i :: 0 <= i < |s.held| ==> s.held[i].store < |s.stores| && s.held[i].len <= |s.stores[s.held[i].store]|
  }

  const START := Strings([[]], 0, [])

  function Current(s: Strings): seq<Octet>
    requires s.stores != []
  {
    s.stores[|s.stores| - 1]
  }

  function Text(s: Strings): seq<Octet>
    requires Valid(s)
  {
    Current(s)[..s.len]
  }

  /** A new value, and how much the runtime allocates beyond it when it has to allocate. */
  datatype Change = Change(v: seq<Octet>, spare: nat)

  /** Writes over the storage if it is big enough, and otherwise into new storage. */
  function Stored(s: Strings, t: seq<Octet>, spare: nat): Strings
    requires Valid(s)
  {
    var was := Current(s);
    if |t| <= |was| then s.(stores := s.stores[|s.stores| - 1 := t + was[|t|..]], len := |t|)
    else s.(stores := s.stores + [t + seq(spare, _ => 0)], len := |t|)
  }

  /** An event is raised if the value differs, and holds the storage itself. */
  function Update(s: Strings, x: Change): (s': Strings)
    requires Valid(s)
    ensures Valid(s') && Text(s') == Truncated(x.v)
  {
    var t := Truncated(x.v);
    var s1 := Stored(s, t, x.spare);
    if t == Text(s) then s1 else s1.(held := s.held + [Slice(|s1.stores| - 1, |t|)])
  }

  predicate Within(s: Strings, h: Slice) {
    h.store < |s.stores| && h.len <= |s.stores[h.store]|
  }

  /** What a queued event would be sent with. */
  function Reads(s: Strings, h: Slice): seq<Octet>
    requires Within(s, h)
  {
    s.stores[h.store][..h.len]
  }

  // ---------- Later updates ----------

  /** The event says `text` now and after each of the updates. */
  ghost predicate Says(s: Strings, h: Slice, text: seq<Octet>, xs: seq<Change>)
    requires Valid(s)
    decreases |xs|
  {
    && Within(s, h) && Reads(s, h) == text
    && (xs != [] ==> Says(Update(s, xs[0]), h, text, xs[1..]))
  }

  /** Two values are the same on the octets both have. */
  predicate Agree(a: seq<Octet>, b: seq<Octet>) {
    forall i :: 0 <= i < |a| && i < |b| ==> a[i] == b[i]
  }

  /** Each update up to the first that outgrows storage of this capacity agrees with `text`. */
  predicate Undisturbed(text: seq<Octet>, capacity: nat, xs: seq<Change>) {
    xs == [] || |Truncated(xs[0].v)| > capacity || (Agree(Truncated(xs[0].v), text) && Undisturbed(text, capacity, xs[1..]))
  }

  /** Storage left behind is never written again. */
  lemma {:induction false} LeftBehind(s: Strings, h: Slice, xs: seq<Change>)
    requires Valid(s) && Within(s, h) && h.store < |s.stores| - 1
    ensures Says(s, h, Reads(s, h), xs)
    decreases |xs|
  {
    if xs != [] { LeftBehind(Update(s, xs[0]), h, xs[1..]); }
  }

  lemma WrittenOver(t: seq<Octet>, was: seq<Octet>, len: nat)
    requires |t| <= |was| && len <= |was|
    ensures (t + was[|t|..])[..len] == was[..len] <==> Agree(t, was[..len])
  {
    var written := t + was[|t|..];
    if written[..len] == was[..len] {
      forall i | 0 <= i < |t| && i < len ensures t[i] == was[..len][i] { assert written[..len][i] == t[i]; }
    }
    if Agree(t, was[..len]) {
      forall i | 0 <= i < len ensures written[i] == was[i] { if i < |t| { assert t[i] == was[..len][i]; } }
    }
  }

  /** An event in the point's current storage says the same after every one of any list of
      updates if and only if each update, up to the first that outgrows the storage, agrees with
      it on the octets they share. */
  lemma {:induction false} HeldStringKept(s: Strings, h: Slice, xs: seq<Change>)
    requires Valid(s) && Within(s, h) && h.store == |s.stores| - 1
    ensures Says(s, h, Reads(s, h), xs) <==> Undisturbed(Reads(s, h), |Current(s)|, xs)
    decreases |xs|
  {
    if xs != [] {
      var t, was, s' := Truncated(xs[0].v), Current(s), Update(s, xs[0]);
      hide Truncated, Agree, Undisturbed, Says;
      SaysNext(s, h, xs);
      UndisturbedNext(Reads(s, h), |was|, xs);
      if |t| > |was| {
        LeftBehind(s', h, xs[1..]);
      } else {
        WrittenOver(t, was, h.len);
        HeldStringKept(s', h, xs[1..]);
        SaysNow(s', h, Reads(s, h), xs[1..]);
      }
    }
  }

  lemma SaysNow(s: Strings, h: Slice, text: seq<Octet>, xs: seq<Change>)
    requires Valid(s)
    ensures Says(s, h, text, xs) ==> Within(s, h) && Reads(s, h) == text
  {
  }

  lemma SaysNext(s: Strings, h: Slice, xs: seq<Change>)
    requires Valid(s) && Within(s, h) && xs != []
    ensures Says(s, h, Reads(s, h), xs) <==> Says(Update(s, xs[0]), h, Reads(s, h), xs[1..])
  {
    hide Update;
  }

  lemma UndisturbedNext(text: seq<Octet>, capacity: nat, xs: seq<Change>)
    requires xs != []
    ensures Undisturbed(text, capacity, xs) <==>
      |Truncated(xs[0].v)| > capacity || (Agree(Truncated(xs[0].v), text) && Undisturbed(text, capacity, xs[1..]))
  {
  }

  /** Two updates of the same length: the event of the first, still queued, reads as the second. */
  lemma SecondOverwritesFirst(spare: nat)
    ensures var one := Update(START, Change([0x61, 0x62], spare));
      var two := Update(one, Change([0x63, 0x64], spare));
      |one.held| == 1 && Reads(one, one.held[0]) == [0x61, 0x62] && two.held[0] == one.held[0]
      && Reads(two, two.held[0]) == [0x63, 0x64]
  {
  }

  // ---------- The point ----------

  /** A point and the events it has raised, which hold its storage. `stores` is every array it has
      had and `places` which of them each event holds. */
  class OctetPoint {
    var value: array<Octet>
    var len: nat
    var events: seq<(array<Octet>, nat)>
    ghost var stores: seq<array<Octet>>
    ghost var places: seq<nat>

    ghost predicate Ok()
      reads this, set a | a in stores
    {
      && stores != [] && stores[|stores| - 1] == value && len <= value.Length
      && (forall i, j :: 0 <= i < j < |stores| ==> stores[i] != stores[j])
      && |places| == |events|
      && (forall i :: 0 <= i < |events| ==>
            places[i] < |stores| && stores[places[i]] == events[i].0 && events[i].1 <= events[i].0.Length)
    }

    ghost function Held(): seq<Slice>
      requires |places| == |events|
      reads this
    {
      var es, ps := events, places;
      seq(|es|, i requires 0 <= i < |es| => Slice(ps[i], es[i].1))
    }

    ghost function Contents(): seq<seq<Octet>>
      reads this, set a | a in stores
    {
      seq(|stores|, i requires 0 <= i < |stores| reads this, set a | a in stores => stores[i][..])
    }

    /** The point as a value. */
    ghost function View(): Strings
      requires Ok()
      reads this, set a | a in stores
    {
      Strings(Contents(), len, Held())
    }

    constructor ()
      ensures Ok() && fresh(value) && View() == START
    {
      value := new Octet[0];
      len, events, places := 0, [], [];
      new;
      stores := [value];
      assert value[..] == [];
    }

    /** Writes octets over the front of an array. */
    static method WriteOver(a: array<Octet>, t: seq<Octet>)
      requires |t| <= a.Length
      modifies a
      ensures a[..] == t + old(a[..])[|t|..]
    {
      for i := 0 to |t|
        invariant forall k :: 0 <= k < i ==> a[k] == t[k]
        invariant forall k :: i <= k < a.Length ==> a[k] == old(a[k])
      {
        a[i] := t[i];
      }
    }

    static method Allocated(t: seq<Octet>, spare: nat) returns (a: array<Octet>)
      ensures fresh(a) && a[..] == t + seq(spare, _ => 0)
    {
      a := new Octet[|t| + spare](i => if 0 <= i < |t| then t[i] else 0);
    }

    /** Puts the octets in the storage, if they fit it, or in new storage. */
    method Store(t: seq<Octet>, spare: nat)
      requires Ok() && Valid(View())
      modifies this`value, this`len, this`stores, value
      ensures Ok() && View() == Stored(old(View()), t, spare)
    {
      ghost var was, before := stores, Contents();
      if |t| <= value.Length {
        WriteOver(value, t);
        assert Contents() == before[|was| - 1 := t + before[|was| - 1][|t|..]];
      } else {
        var grown := Allocated(t, spare);
        stores := stores + [grown];
        value := grown;
        assert Contents() == before + [grown[..]];
      }
      len := |t|;
    }

    /** A new value. An event already raised changes with the storage it holds. */
    method UpdateText(x: Change)
      requires Ok() && Valid(View())
      modifies this, value
      ensures Ok() && View() == Update(old(View()), x)
    {
      hide Truncated, Valid;
      var t := Truncated(x.v);
      ViewText();
      var changed := value[..len] != t;
      Store(t, x.spare);
      if changed {
        ghost var held := Held();
        events, places := events + [(value, |t|)], places + [|stores| - 1];
        assert Held() == held + [Slice(|stores| - 1, |t|)];
      }
    }

    lemma ViewText()
      requires Ok() && Valid(View())
      ensures Text(View()) == value[..len]
    {
      assert Contents()[|stores| - 1] == value[..];
    }
  }
}
