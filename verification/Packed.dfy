/** Bit-packed objects: values of one or two bits sharing octets, lowest first. */
module Packed {
  import opened Protocol
  import opened Wire

  /** One bit per value, or two. */
  type Width = w: int | w == 1 || w == 2 witness 1

  /** How many values a digit can take, and how many share an octet. */
  function Base(bits: Width): nat {
    if bits == 1 then 2 else 4
  }

  function PerOctet(bits: Width): nat {
    if bits == 1 then 8 else 4
  }

  function PackedOctets(count: int, bits: Width): nat {
    if count <= 0 then 0 else (count * bits + 7) / 8
  }

  ghost predicate Digits(values: seq<nat>, bits: Width) {
    forall i :: 0 <= i < |values| ==> values[i] < Base(bits)
  }

  // ---------- Within one octet ----------

  function Low(v: nat, bits: Width): nat {
    if bits == 1 then v % 2 else v % 4
  }

  function High(v: nat, bits: Width): nat {
    if bits == 1 then v / 2 else v / 4
  }

  function Join(low: nat, high: nat, bits: Width): nat {
    low + if bits == 1 then 2 * high else 4 * high
  }

  /** Digits as a number, the first the least significant. */
  function Number(ds: seq<nat>, bits: Width): nat {
    if ds == [] then 0 else Join(ds[0], Number(ds[1..], bits), bits)
  }

  function Digit(v: nat, k: nat, bits: Width): nat
    decreases k
  {
    if k == 0 then Low(v, bits) else Digit(High(v, bits), k - 1, bits)
  }

  /** The bits of two digits of at most two bits, or-ed. */
  function OrDigits(a: nat, b: nat): nat {
    (if a % 2 == 1 || b % 2 == 1 then 1 else 0) + if a / 2 % 2 == 1 || b / 2 % 2 == 1 then 2 else 0
  }

  /** Ors a digit into place `k`. */
  function OrAt(v: nat, k: nat, d: nat, bits: Width): nat
    decreases k
  {
    if k == 0 then Join(OrDigits(Low(v, bits), d), High(v, bits), bits)
    else Join(Low(v, bits), OrAt(High(v, bits), k - 1, d, bits), bits)
  }

  /** How many numbers `k` digits make. */
  function Space(k: nat, bits: Width): nat {
    if k == 0 then 1 else if bits == 1 then 2 * Space(k - 1, bits) else 4 * Space(k - 1, bits)
  }

  lemma {:induction false} NumberBound(ds: seq<nat>, bits: Width)
    requires Digits(ds, bits)
    ensures Number(ds, bits) < Space(|ds|, bits)
  {
    if ds != [] {
      assert Digits(ds[1..], bits);
      NumberBound(ds[1..], bits);
    }
  }

  lemma {:induction false} SpaceGrows(a: nat, b: nat, bits: Width)
    requires a <= b
    ensures 1 <= Space(a, bits) <= Space(b, bits)
    decreases b
  {
    if a > 0 {
      SpaceGrows(a - 1, b - 1, bits);
    } else if b > 0 {
      SpaceGrows(0, b - 1, bits);
    }
  }

  lemma OctetHolds(bits: Width)
    ensures Space(PerOctet(bits), bits) == 0x100
  {
    assert Space(1, 1) == 2 && Space(2, 1) == 4 && Space(3, 1) == 8 && Space(4, 1) == 16;
    assert Space(5, 1) == 32 && Space(6, 1) == 64 && Space(7, 1) == 128;
    assert Space(1, 2) == 4 && Space(2, 2) == 16 && Space(3, 2) == 64;
  }

  /** A number's digits are those it was made of, and zeros beyond. */
  lemma {:induction false} DigitOfNumber(ds: seq<nat>, bits: Width, k: nat)
    requires Digits(ds, bits)
    ensures Digit(Number(ds, bits), k, bits) == if k < |ds| then ds[k] else 0
    decreases k
  {
    if ds == [] {
      if k > 0 { DigitOfNumber(ds, bits, k - 1); }
    } else {
      assert Digits(ds[1..], bits);
      if k > 0 { DigitOfNumber(ds[1..], bits, k - 1); }
    }
  }

  /** Or-ing a digit into the first free place appends it. */
  lemma {:induction false} OrAppends(ds: seq<nat>, d: nat, bits: Width)
    requires Digits(ds, bits) && d < Base(bits)
    ensures OrAt(Number(ds, bits), |ds|, d, bits) == Number(ds + [d], bits)
  {
    if ds == [] {
      assert [d][1..] == [];
      assert Number([d], bits) == d;
    } else {
      assert Digits(ds[1..], bits);
      OrAppends(ds[1..], d, bits);
      assert (ds + [d])[1..] == ds[1..] + [d];
    }
  }

  function OctetOf(ds: seq<nat>, bits: Width): Octet
    requires Digits(ds, bits) && |ds| <= PerOctet(bits)
  {
    NumberBound(ds, bits);
    SpaceGrows(|ds|, PerOctet(bits), bits);
    OctetHolds(bits);
    Number(ds, bits)
  }

  // ---------- A whole run ----------

  function Min(a: nat, b: nat): nat {
    if a < b then a else b
  }

  /** The octet value `i` goes in, and its place there. */
  function Which(i: nat, bits: Width): nat {
    if bits == 1 then i / 8 else i / 4
  }

  function Place(i: nat, bits: Width): nat {
    if bits == 1 then i % 8 else i % 4
  }

  /** The first value of octet `j`. */
  function First(j: nat, bits: Width): nat {
    if bits == 1 then 8 * j else 4 * j
  }

  /** The values that share octet `j`. */
  function Sharing(values: seq<nat>, bits: Width, j: nat): (ds: seq<nat>)
    ensures |ds| <= PerOctet(bits)
    ensures Digits(values, bits) ==> Digits(ds, bits)
  {
    values[Min(First(j, bits), |values|)..Min(First(j, bits) + PerOctet(bits), |values|)]
  }

  function Pack(values: seq<nat>, bits: Width): (s: seq<Octet>)
    requires Digits(values, bits)
    ensures |s| == PackedOctets(|values|, bits)
  {
    seq(PackedOctets(|values|, bits),
        j requires 0 <= j < PackedOctets(|values|, bits) => OctetOf(Sharing(values, bits, j), bits))
  }

  /** One value off the wire; past the end of the data it reads as zero. */
  function ValueAt(buf: seq<Octet>, bits: Width, i: nat): nat {
    if Which(i, bits) >= |buf| then 0 else Digit(buf[Which(i, bits)], Place(i, bits), bits)
  }

  function Unpack(buf: seq<Octet>, bits: Width, count: nat): seq<nat> {
    seq(count, i requires 0 <= i < count => ValueAt(buf, bits, i))
  }

  lemma WhichOctet(i: nat, n: nat, bits: Width)
    requires i < n
    ensures Which(i, bits) < PackedOctets(n, bits)
    ensures i == First(Which(i, bits), bits) + Place(i, bits) && Place(i, bits) < PerOctet(bits)
  {
  }

  /** What was packed is read back, value by value. */
  lemma PackedRoundTrip(values: seq<nat>, bits: Width)
    requires Digits(values, bits)
    ensures Unpack(Pack(values, bits), bits, |values|) == values
  {
    hide Sharing, Digit, OctetOf, PackedOctets, Which, Place, First;
    forall i | 0 <= i < |values| ensures ValueAt(Pack(values, bits), bits, i) == values[i] {
      WhichOctet(i, |values|, bits);
      ValueBack(values, bits, i);
    }
  }

  lemma ValueBack(values: seq<nat>, bits: Width, i: nat)
    requires Digits(values, bits) && i < |values|
    ensures Digit(OctetOf(Sharing(values, bits, Which(i, bits)), bits), Place(i, bits), bits) == values[i]
  {
    hide Digit, Number, Which, Place, First;
    WhichOctet(i, |values|, bits);
    DigitOfNumber(Sharing(values, bits, Which(i, bits)), bits, Place(i, bits));
  }

  // ---------- The loops ----------

  /** The values packed so far, with the octets still to come at zero. */
  ghost predicate Filled(out: seq<Octet>, values: seq<nat>, i: nat, bits: Width) {
    && Digits(values, bits) && i <= |values|
    && |out| == PackedOctets(|values|, bits)
    && forall j :: 0 <= j < |out| ==> out[j] == OctetOf(Sharing(values[..i], bits, j), bits)
  }

  /** Appends the packed values, or-ing each into the octet it belongs to. */
  method AppendPacked(dst: seq<Octet>, values: seq<nat>, bits: Width) returns (out: seq<Octet>)
    requires Digits(values, bits)
    ensures out == dst + Pack(values, bits)
  {
    hide OctetOf, Sharing, OrAt, PackedOctets;
    var n := PackedOctets(|values|, bits);
    var tail: seq<Octet> := seq(n, _ => 0);
    NothingPacked(tail, values, bits);
    var i := 0;
    while i < |values|
      invariant 0 <= i <= |values| && Filled(tail, values, i, bits)
    {
      WhichOctet(i, |values|, bits);
      OneMorePacked(tail, values, i, bits);
      var j := Which(i, bits);
      tail := tail[j := OrAt(tail[j], Place(i, bits), values[i], bits)];
      i := i + 1;
    }
    assert values[..|values|] == values;
    assert tail == Pack(values, bits);
    out := dst + tail;
  }

  lemma NothingPacked(tail: seq<Octet>, values: seq<nat>, bits: Width)
    requires Digits(values, bits) && |tail| == PackedOctets(|values|, bits) && forall j :: 0 <= j < |tail| ==> tail[j] == 0
    ensures Filled(tail, values, 0, bits)
  {
  }

  /** Only the octet the value belongs to changes, and it gains that value. */
  lemma OneMorePacked(tail: seq<Octet>, values: seq<nat>, i: nat, bits: Width)
    requires Filled(tail, values, i, bits) && i < |values| && Which(i, bits) < |tail|
    ensures var v := OrAt(tail[Which(i, bits)], Place(i, bits), values[i], bits);
      0 <= v < 0x100 && Filled(tail[Which(i, bits) := v], values, i + 1, bits)
  {
    hide OrAt, Number, PackedOctets, Sharing, Which, Place;
    var j := Which(i, bits);
    forall m | 0 <= m < |tail|
      ensures m != j ==> Sharing(values[..i + 1], bits, m) == Sharing(values[..i], bits, m)
    {
      SharingSnoc(values, i, m, bits);
    }
    SharingSnoc(values, i, j, bits);
    var ds := Sharing(values[..i], bits, j);
    OrAppends(ds, values[i], bits);
    assert Sharing(values[..i + 1], bits, j) == ds + [values[i]];
    assert OctetOf(ds + [values[i]], bits) == OrAt(tail[j], Place(i, bits), values[i], bits);
  }

  lemma SharingSnoc(values: seq<nat>, i: nat, m: nat, bits: Width)
    requires i < |values|
    ensures Sharing(values[..i + 1], bits, m)
         == if m == Which(i, bits) then Sharing(values[..i], bits, m) + [values[i]] else Sharing(values[..i], bits, m)
    ensures m == Which(i, bits) ==> |Sharing(values[..i], bits, m)| == Place(i, bits)
  {
    var lo, hi := First(m, bits), First(m, bits) + PerOctet(bits);
    assert lo <= i < hi <==> m == Which(i, bits);
    if lo <= i < hi {
      SliceSnoc(values, lo, i);
    } else if hi <= i {
      assert values[..i + 1][lo..hi] == values[..i][lo..hi];
    }
  }

  lemma SliceSnoc(values: seq<nat>, lo: nat, i: nat)
    requires lo <= i < |values|
    ensures values[..i + 1][lo..i + 1] == values[..i][lo..i] + [values[i]]
  {
  }
}
