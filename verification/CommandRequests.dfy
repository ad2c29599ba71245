/** How a master writes a list of commands as object headers, and what reaches the outstation. */
module CommandRequests {
  import opened Protocol
  import opened Joining
  import opened Wire
  import opened MasterDispatch
  import opened Commands

  datatype Command = Command(index: Index16, group: Octet, variation: Octet, data: seq<Octet>)

  /** What every command constructor makes: a known command object of its own size. */
  predicate Makes(c: Command) {
    CommandSize(c.group, c.variation) > 0 && |c.data| == CommandSize(c.group, c.variation)
  }

  predicate Alike(a: Command, b: Command) {
    a.group == b.group && a.variation == b.variation
  }

  /** How many commands at the front are of the kind of `c`. */
  function AlikeCount(cmds: seq<Command>, c: Command): (n: nat)
    ensures n <= |cmds|
  {
    if cmds == [] || !Alike(cmds[0], c) then 0 else 1 + AlikeCount(cmds[1..], c)
  }

  predicate Wide(run: seq<Command>) {
    exists c :: c in run && c.index > 0xFF
  }

  function Prefixed(wide: bool, c: Command): seq<Octet> {
    (if wide then LE16(c.index) else [c.index % 0x100]) + c.data
  }

  function PrefixedAll(wide: bool, run: seq<Command>): seq<seq<Octet>> {
    seq(|run|, k requires 0 <= k < |run| => Prefixed(wide, run[k]))
  }

  /** One header for a run of commands of a kind, with prefixes wide enough for them all. */
  function RunHeader(run: seq<Command>): ObjectHeader
    requires run != []
  {
    var wide := Wide(run);
    ObjectHeader(run[0].group, run[0].variation, if wide then PrefixIndex2 else PrefixIndex1,
                 if wide then Count16 else Count8, Count(|run|), Flatten(PrefixedAll(wide, run)))
  }

  function Build(cmds: seq<Command>): seq<ObjectHeader> {
    if cmds == [] then []
    else
      var n := AlikeCount(cmds, cmds[0]);
      [RunHeader(cmds[..n])] + Build(cmds[n..])
  }

  // ---------- The loops ----------

  /** The octets of one run. */
  method RunData(run: seq<Command>) returns (wide: bool, data: seq<Octet>)
    ensures wide == Wide(run) && data == Flatten(PrefixedAll(wide, run))
  {
    hide Flatten;
    wide := false;
    for k := 0 to |run|
      invariant wide <==> exists c :: c in run[..k] && c.index > 0xFF
    {
      assert run[..k + 1] == run[..k] + [run[k]];
      if run[k].index > 0xFF { wide := true; }
    }
    assert run[..|run|] == run;
    data := [];
    assert PrefixedAll(wide, run[..0]) == [];
    FlattenNone<Octet>();
    for k := 0 to |run|
      invariant data == Flatten(PrefixedAll(wide, run[..k]))
    {
      assert PrefixedAll(wide, run[..k + 1]) == PrefixedAll(wide, run[..k]) + [Prefixed(wide, run[k])];
      FlattenSnoc(PrefixedAll(wide, run[..k]), Prefixed(wide, run[k]));
      data := data + Prefixed(wide, run[k]);
    }
  }

  lemma FlattenNone<T>()
    ensures Flatten<T>([]) == []
  {
  }

  /** Where the run that starts at `i` ends. */
  method RunEnd(cmds: seq<Command>, i: nat) returns (j: nat)
    requires i < |cmds|
    ensures i < j <= |cmds| && j - i == AlikeCount(cmds[i..], cmds[i])
  {
    j := i;
    while j < |cmds| && Alike(cmds[j], cmds[i])
      invariant i <= j <= |cmds|
      invariant AlikeCount(cmds[i..], cmds[i]) == j - i + AlikeCount(cmds[j..], cmds[i])
    {
      assert cmds[j..][0] == cmds[j] && cmds[j..][1..] == cmds[j + 1..];
      j := j + 1;
    }
  }

  lemma BuildStep(cmds: seq<Command>, i: nat, j: nat)
    requires i < j <= |cmds| && j - i == AlikeCount(cmds[i..], cmds[i])
    ensures Build(cmds[i..]) == [RunHeader(cmds[i..j])] + Build(cmds[j..])
  {
    hide RunHeader;
    assert cmds[i..][..j - i] == cmds[i..j] && cmds[i..][j - i..] == cmds[j..];
  }

  /** Groups the commands into headers, failing when they outgrow the `room` in one request. */
  method BuildCommands(cmds: seq<Command>, room: int) returns (r: Option<seq<ObjectHeader>>)
    requires room >= 0
    ensures r == if TotalSize(Build(cmds)) <= room then Some(Build(cmds)) else None
  {
    hide RunHeader, Size, Build, AlikeCount;
    var hs: seq<ObjectHeader> := [];
    var i := 0;
    assert cmds[0..] == cmds && [] + Build(cmds) == Build(cmds);
    while i < |cmds|
      invariant 0 <= i <= |cmds|
      invariant Build(cmds) == hs + Build(cmds[i..]) && TotalSize(hs) <= room
    {
      var j := RunEnd(cmds, i);
      var wide, data := RunData(cmds[i..j]);
      var h := ObjectHeader(cmds[i].group, cmds[i].variation, if wide then PrefixIndex2 else PrefixIndex1,
                            if wide then Count16 else Count8, Count(j - i), data);
      HeaderIs(cmds[i..j], h, wide);
      BuildStep(cmds, i, j);
      SizeSnoc(hs, h);
      assert hs + ([h] + Build(cmds[j..])) == (hs + [h]) + Build(cmds[j..]);
      if TotalSize(hs) + Size(h) > room {
        SizePrefix(hs + [h], Build(cmds[j..]));
        return None;
      }
      hs := hs + [h];
      i := j;
    }
    BuildNothing(cmds[i..]);
    assert hs + [] == hs;
    return Some(hs);
  }

  lemma BuildNothing(cmds: seq<Command>)
    requires cmds == []
    ensures Build(cmds) == []
  {
  }

  lemma HeaderIs(run: seq<Command>, h: ObjectHeader, wide: bool)
    requires run != [] && wide == Wide(run)
    requires h == ObjectHeader(run[0].group, run[0].variation, if wide then PrefixIndex2 else PrefixIndex1,
                               if wide then Count16 else Count8, Count(|run|), Flatten(PrefixedAll(wide, run)))
    ensures h == RunHeader(run)
  {
  }

  lemma SizeSnoc(hs: seq<ObjectHeader>, h: ObjectHeader)
    ensures TotalSize(hs + [h]) == TotalSize(hs) + Size(h)
  {
    assert (hs + [h])[..|hs|] == hs;
  }

  lemma {:induction false} SizePrefix(a: seq<ObjectHeader>, b: seq<ObjectHeader>)
    ensures TotalSize(a + b) >= TotalSize(a)
  {
    if b == [] {
      assert a + b == a;
    } else {
      SizePrefix(a, b[..|b| - 1]);
      assert (a + b)[..|a + b| - 1] == a + b[..|b| - 1];
    }
  }

  // ---------- What the outstation makes of them ----------

  function Named(c: Command): Control {
    Control(c.group, c.variation, c.index, c.data)
  }

  function NamedAll(cmds: seq<Command>): seq<Control> {
    seq(|cmds|, k requires 0 <= k < |cmds| => Named(cmds[k]))
  }

  ghost predicate OneKind(run: seq<Command>) {
    run != [] && forall c :: c in run ==> Makes(c) && Alike(c, run[0])
  }

  lemma PrefixReads(wide: bool, c: Command)
    requires !wide ==> c.index <= 0xFF
    ensures var n := if wide then 2 else 1;
      var obj := Prefixed(wide, c);
      |obj| >= n && ReadPrefix(obj[..n], n) == c.index && obj[n..] == c.data
  {
    if wide {
      assert Prefixed(wide, c)[..2] == LE16(c.index);
      LE16RoundTrip(c.index, []);
      assert LE16(c.index) + [] == LE16(c.index);
    }
  }

  /** A run's header names exactly its commands. */
  lemma RunControls(run: seq<Command>)
    requires OneKind(run)
    ensures Accepted(RunHeader(run)) && ControlsIn(RunHeader(run)) == NamedAll(run)
  {
    hide ObjectAt, Flatten, ReadPrefix, Prefixed;
    var h, wide := RunHeader(run), Wide(run);
    var parts, stride := PrefixedAll(wide, run), Stride(h);
    assert run[0] in run;
    forall k | 0 <= k < |run| ensures |parts[k]| == stride { PrefixedSize(wide, run, k); }
    FlattenEven(parts, stride);
    EvenWhole(|run|, stride);
    forall k | 0 <= k < |run| ensures ControlsIn(h)[k] == Named(run[k]) {
      ObjectOfEcho(parts, |run|, stride, k);
      assert run[k] in run;
      PrefixReads(wide, run[k]);
    }
  }

  lemma PrefixedSize(wide: bool, run: seq<Command>, k: nat)
    requires OneKind(run) && k < |run|
    ensures |Prefixed(wide, run[k])| == (if wide then 2 else 1) + CommandSize(run[0].group, run[0].variation)
  {
    assert run[k] in run;
  }

  lemma {:induction false} AlikeFront(cmds: seq<Command>, c: Command)
    ensures forall k :: 0 <= k < AlikeCount(cmds, c) ==> Alike(cmds[k], c)
  {
    if cmds != [] && Alike(cmds[0], c) { AlikeFront(cmds[1..], c); }
  }

  /** The first run of a list of commands, and the rest. */
  lemma FirstRun(cmds: seq<Command>)
    requires cmds != [] && forall c :: c in cmds ==> Makes(c)
    ensures var n := AlikeCount(cmds, cmds[0]); n > 0 && OneKind(cmds[..n]) && forall c :: c in cmds[n..] ==> Makes(c)
  {
    AlikeFront(cmds, cmds[0]);
  }

  lemma {:induction false} ControlsConcat(a: seq<ObjectHeader>, b: seq<ObjectHeader>)
    ensures AllControls(a + b) == AllControls(a) + AllControls(b)
  {
    hide ControlsIn;
    if b == [] {
      assert a + b == a;
    } else {
      ControlsConcat(a, b[..|b| - 1]);
      assert (a + b)[..|a + b| - 1] == a + b[..|b| - 1];
    }
  }

  lemma ControlsOfOne(h: ObjectHeader)
    ensures AllControls([h]) == ControlsIn(h)
  {
    hide ControlsIn;
    assert [h][..0] == [];
  }

  /** The headers built name the commands given, each once and in order. */
  lemma {:induction false} BuiltNames(cmds: seq<Command>)
    requires forall c :: c in cmds ==> Makes(c)
    ensures AllControls(Build(cmds)) == NamedAll(cmds)
    decreases |cmds|
  {
    hide ControlsIn, RunHeader, OneKind, Makes;
    if cmds != [] {
      FirstRun(cmds);
      var n := AlikeCount(cmds, cmds[0]);
      BuiltNames(cmds[n..]);
      RunControls(cmds[..n]);
      ControlsConcat([RunHeader(cmds[..n])], Build(cmds[n..]));
      ControlsOfOne(RunHeader(cmds[..n]));
      assert NamedAll(cmds) == NamedAll(cmds[..n]) + NamedAll(cmds[n..]);
    }
  }

  // ---------- When the request survives the wire ----------

  /** Every run fits the count its header carries. */
  predicate RunsFit(cmds: seq<Command>) {
    if cmds == [] then true
    else
      var n := AlikeCount(cmds, cmds[0]);
      n <= (if Wide(cmds[..n]) then 0xFFFF else 0xFF) && RunsFit(cmds[n..])
  }

  lemma RunWellFormed(sizes: Sizes, run: seq<Command>)
    requires Sized(sizes) && OneKind(run)
    ensures WellFormed(sizes, RunHeader(run)) <==> |run| <= if Wide(run) then 0xFFFF else 0xFF
  {
    hide Flatten, Prefixed;
    var h, wide := RunHeader(run), Wide(run);
    assert run[0] in run;
    var parts, stride := PrefixedAll(wide, run), Stride(h);
    forall k | 0 <= k < |run| ensures |parts[k]| == stride { PrefixedSize(wide, run, k); }
    FlattenEven(parts, stride);
    assert SizeBits(sizes, h.group, h.variation) == Some(8 * CommandSize(h.group, h.variation));
  }

  lemma {:induction false} BuiltWellFormed(sizes: Sizes, cmds: seq<Command>)
    requires Sized(sizes) && forall c :: c in cmds ==> Makes(c)
    ensures AllWellFormed(sizes, Build(cmds)) <==> RunsFit(cmds)
    decreases |cmds|
  {
    hide WellFormed, RunHeader, OneKind, Makes, Sized;
    if cmds != [] {
      FirstRun(cmds);
      var n := AlikeCount(cmds, cmds[0]);
      BuiltWellFormed(sizes, cmds[n..]);
      RunWellFormed(sizes, cmds[..n]);
      assert Build(cmds)[0] == RunHeader(cmds[..n]);
      assert forall h :: h in Build(cmds) <==> h == RunHeader(cmds[..n]) || h in Build(cmds[n..]);
    }
  }

  /** The request parses back into the headers built if and only if every run fits its count:
      at most 255 commands of a kind in a row when all their indexes are below 256, and 65535
      otherwise. Then the outstation sees exactly the commands given, in order. */
  lemma RequestSurvives(sizes: Sizes, cmds: seq<Command>)
    requires Sized(sizes) && forall c :: c in cmds ==> Makes(c)
    ensures ParseObjects(sizes, EncodeAll(Build(cmds))) == Some(Build(cmds)) <==> RunsFit(cmds)
    ensures AllControls(Build(cmds)) == NamedAll(cmds)
  {
    hide ParseObjects, EncodeAll, Build, AllControls, Makes, Sized, RunsFit, AllWellFormed, NamedAll;
    BuiltWellFormed(sizes, cmds);
    BuiltNames(cmds);
    if RunsFit(cmds) {
      ParseEncodeAll(sizes, Build(cmds));
    } else if ParseObjects(sizes, EncodeAll(Build(cmds))) == Some(Build(cmds)) {
      ParsedWellFormed(sizes, EncodeAll(Build(cmds)));
    }
  }

  lemma {:induction false} AllAlike(cmds: seq<Command>, c: Command)
    requires forall x :: x in cmds ==> Alike(x, c)
    ensures AlikeCount(cmds, c) == |cmds|
  {
    if cmds != [] { AllAlike(cmds[1..], c); }
  }

  /** Analog outputs 0 through 255, set in one request. */
  function OneTooMany(): seq<Command> {
    seq(256, i requires 0 <= i < 256 => Command(i, 41, 2, [0, 0, 0]))
  }

  /** 256 commands of a kind fit a request fragment of the default size, and do not survive it. */
  lemma OneTooManyIsLost(sizes: Sizes)
    requires Sized(sizes)
    ensures var hs := Build(OneTooMany());
      && (forall c :: c in OneTooMany() ==> Makes(c))
      && TotalSize(hs) + REQUEST_HEADER_SIZE <= DEFAULT_MAX_FRAGMENT
      && ParseObjects(sizes, EncodeAll(hs)) != Some(hs)
  {
    hide ParseObjects, EncodeAll, Sized, AllControls, NamedAll, Flatten, Prefixed;
    var cmds := OneTooMany();
    AllAlike(cmds, cmds[0]);
    assert cmds[..256] == cmds && cmds[256..] == [];
    var h := RunHeader(cmds);
    assert Build(cmds) == [h] + Build(cmds[256..]) && [h] + [] == [h];
    assert [h][..0] == [] && TotalSize([h]) == Size(h);
    var parts := PrefixedAll(false, cmds);
    forall k | 0 <= k < |parts| ensures |parts[k]| == 4 { PrefixedSize(false, cmds, k); }
    FlattenEven(parts, 4);
    RequestSurvives(sizes, cmds);
  }

  /** A command request from the caller's list to the caller's result: the outstation judges
      each command given, in order, and the master ends up with those very statuses. */
  lemma CommandsRoundTrip(sizes: Sizes, o: Order, cmds: seq<Command>)
    requires Sized(sizes) && (forall c :: c in cmds ==> Makes(c)) && RunsFit(cmds)
    ensures var hs := ParseObjects(sizes, EncodeAll(Build(cmds)));
      && hs.Some?
      && var echo := ParseObjects(sizes, EncodeAll(CarriedOut(o, hs.value).body));
      && echo.Some?
      && AllStatuses(echo.value) == Judge(o, NamedAll(cmds)).statuses
      && |AllStatuses(echo.value)| == |cmds|
  {
    hide ParseObjects, EncodeAll, Build, AllControls, Makes, Sized, RunsFit, AllStatuses, CarriedOut;
    RequestSurvives(sizes, cmds);
    StatusesReachTheMaster(sizes, o, EncodeAll(Build(cmds)));
  }
}
