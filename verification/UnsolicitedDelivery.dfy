/** Unsolicited delivery with both parties: the outstation's reporting state, the master's
    duplicate detection, and a channel each way that keeps order and may lose messages. */
module UnsolicitedDelivery {
  import opened Protocol
  import opened Unsolicited

  /** An unsolicited response in flight. `n` counts the transmissions that were not retries; it
      is not on the wire and neither party reads it. */
  datatype Message<B> = Message(seqNo: SeqNum, body: B, n: nat)

  /** A confirmation in flight, for the response numbered `n`. */
  datatype Ack = Ack(seqNo: SeqNum, n: nat)

  /** The master's side: the number of the last response it saw, whatever connection that was
      on, and what it has handed to its application. */
  datatype Receiver<B> = Receiver(hasSeq: bool, lastSeq: SeqNum, delivered: seq<B>)

  /** The master takes a fragment: one with the number of the last is a repeat, confirmed again
      but not delivered again. */
  function OnUnsolicited<B>(m: Receiver<B>, seqNo: SeqNum, body: B): Receiver<B> {
    var duplicate := m.hasSeq && seqNo == m.lastSeq;
    Receiver(true, seqNo, if duplicate then m.delivered else m.delivered + [body])
  }

  datatype System<B> = System(
    u: Unsol<B>, m: Receiver<B>, down: seq<Message<B>>, up: seq<Ack>,
    sent: seq<B>,         // every body transmitted, once per transmission that was not a retry
    data: set<nat>,       // which of them carried data
    got: nat,             // the last one the master received, none when zero
    arrived: seq<nat>,    // which of them it delivered, in order
    confirmed: set<nat>)  // which of them the outstation saw confirmed

  datatype Step<B> =
    | Transmit(body: B, isNull: bool, now: int)
    | Repeat(now: int)
    | Expire(readWaiting: bool, now: int)
    | LoseDown(i: nat) | LoseUp(i: nat)
    | MasterReceives | OutstationReceives

  function Without<T>(s: seq<T>, i: nat): seq<T>
    requires i < |s|
  {
    s[..i] + s[i + 1..]
  }

  /** One step of either party or of the channel; a step that is not enabled changes nothing. */
  function Next<B>(s: System<B>, pace: Pace, step: Step<B>): System<B> {
    match step
    case Transmit(body, isNull, now) =>
      if s.u.awaiting || s.u.kept.Some? || isNull == s.u.nullConfirmed then s
      else
        var u := OnSend(s.u, pace, body, isNull, now);
        var n := |s.sent| + 1;
        s.(u := u, sent := s.sent + [body], data := if isNull then s.data else s.data + {n},
           down := s.down + [Message(u.seqNo, body, n)])
    case Repeat(now) =>
      if s.u.awaiting || s.u.kept.None? then s
      else
        s.(u := OnRetry(s.u, pace, now),
           down := s.down + [Message(s.u.seqNo, s.u.kept.value, |s.sent|)])
    case Expire(readWaiting, now) =>
      if s.u.awaiting then s.(u := OnTimeout(s.u, pace, readWaiting, now)) else s
    case LoseDown(i) => if i < |s.down| then s.(down := Without(s.down, i)) else s
    case LoseUp(i) => if i < |s.up| then s.(up := Without(s.up, i)) else s
    case MasterReceives =>
      if |s.down| == 0 then s
      else
        var x := s.down[0];
        var m := OnUnsolicited(s.m, x.seqNo, x.body);
        s.(m := m, down := s.down[1..], up := s.up + [Ack(x.seqNo, x.n)], got := x.n,
           arrived := if |m.delivered| == |s.m.delivered| then s.arrived else s.arrived + [x.n])
    case OutstationReceives =>
      if s.up == [] then s
      else
        var a := s.up[0];
        s.(u := OnConfirm(s.u, a.seqNo), up := s.up[1..],
           confirmed := if Accepts(s.u, a.seqNo) then s.confirmed + {|s.sent|} else s.confirmed)
  }

  /** A new connection: the outstation starts afresh, the channels are empty, and the master
      still has whatever number it last saw. */
  function Fresh<B>(hasSeq: bool, lastSeq: SeqNum): System<B> {
    System(Reset(), Receiver(hasSeq, lastSeq, []), [], [], [], {}, 0, [], {})
  }

  function Reached<B>(s: System<B>, pace: Pace, steps: seq<Step<B>>): System<B> {
    if steps == [] then s
    else Next(Reached(s, pace, steps[..|steps| - 1]), pace, steps[|steps| - 1])
  }

  // ---------- Fewer than sixteen apart ----------

  /** No response in flight is sixteen or more ahead of the last the master saw, and no
      confirmation in flight sixteen or more behind the last response transmitted. */
  ghost predicate Close<B(!new)>(s: System<B>) {
    && (s.got > 0 ==> forall i :: 0 <= i < |s.down| ==> s.down[i].n < s.got + SEQ_MODULUS)
    && (forall i :: 0 <= i < |s.up| ==> |s.sent| < s.up[i].n + SEQ_MODULUS)
  }

  ghost predicate AlwaysClose<B(!new)>(s: System<B>, pace: Pace, steps: seq<Step<B>>) {
    forall k :: 0 <= k < |steps| ==> Close(Reached(s, pace, steps[..k]))
  }

  // ---------- The invariant ----------

  ghost predicate Ascending(ns: seq<nat>) {
    forall i, j :: 0 <= i < j < |ns| ==> ns[i] < ns[j]
  }

  /** The outstation: its number counts transmissions, and what it keeps is the last body. */
  ghost predicate SenderOk<B(!new)>(s: System<B>) {
    && Consistent(s.u)
    && s.u.seqNo == |s.sent| % SEQ_MODULUS
    && (s.u.kept.Some? ==> s.sent != [] && s.u.kept.value == s.sent[|s.sent| - 1])
  }

  /** Responses in flight are in order, from the last one received to the last transmitted, and
      equal numbers carry equal bodies. */
  ghost predicate DownOk<B(!new)>(s: System<B>) {
    && (forall i :: 0 <= i < |s.down| ==>
          && 1 <= s.down[i].n <= |s.sent| && s.got <= s.down[i].n
          && s.down[i].seqNo == s.down[i].n % SEQ_MODULUS && s.down[i].body == s.sent[s.down[i].n - 1])
    && (forall i, j :: 0 <= i < j < |s.down| ==> s.down[i].n <= s.down[j].n)
  }

  ghost predicate UpOk<B(!new)>(s: System<B>) {
    forall i :: 0 <= i < |s.up| ==> 1 <= s.up[i].n <= s.got && s.up[i].seqNo == s.up[i].n % SEQ_MODULUS
  }

  ghost predicate ReceiverOk<B(!new)>(s: System<B>) {
    && s.got <= |s.sent|
    && (s.got > 0 ==> s.m.hasSeq && s.m.lastSeq == s.got % SEQ_MODULUS)
    && Ascending(s.arrived)
    && (forall i :: 0 <= i < |s.arrived| ==> 1 <= s.arrived[i] <= s.got)
    && |s.m.delivered| == |s.arrived|
    && (forall i :: 0 <= i < |s.arrived| ==> s.m.delivered[i] == s.sent[s.arrived[i] - 1])
  }

  /** Data flows only after the null response was confirmed; what the master received last it
      delivered, if it was data; and what was confirmed was delivered. */
  ghost predicate DataOk<B(!new)>(s: System<B>) {
    && (s.u.nullConfirmed ==> s.got > 0)
    && (s.data != {} ==> s.u.nullConfirmed)
    && (forall n :: n in s.data ==> 1 <= n <= |s.sent|)
    && (s.got in s.data ==> s.got in s.arrived)
    && (forall n :: n in s.confirmed ==> n <= |s.sent|)
    && (forall n :: n in s.confirmed && n in s.data ==> n in s.arrived)
  }

  ghost predicate Inv<B(!new)>(s: System<B>) {
    SenderOk(s) && DownOk(s) && UpOk(s) && ReceiverOk(s) && DataOk(s)
  }

  // ---------- Every step keeps it ----------

  lemma SeqCounts(n: nat)
    ensures SeqPlus(n % SEQ_MODULUS, 1) == (n + 1) % SEQ_MODULUS
  {
  }

  lemma TransmitKeeps<B(!new)>(s: System<B>, pace: Pace, body: B, isNull: bool, now: int)
    requires Inv(s)
    ensures Inv(Next(s, pace, Transmit(body, isNull, now)))
  {
    SeqCounts(|s.sent|);
  }

  lemma RepeatKeeps<B(!new)>(s: System<B>, pace: Pace, now: int)
    requires Inv(s)
    ensures Inv(Next(s, pace, Repeat(now)))
  {
  }

  lemma LoseDownKeeps<B(!new)>(s: System<B>, pace: Pace, i: nat)
    requires Inv(s)
    ensures Inv(Next(s, pace, LoseDown(i)))
  {
    hide Consistent, Ascending;
  }

  lemma LoseUpKeeps<B(!new)>(s: System<B>, pace: Pace, i: nat)
    requires Inv(s)
    ensures Inv(Next(s, pace, LoseUp(i)))
  {
    hide Consistent, Ascending;
  }

  /** Within sixteen, equal numbers on the wire are equal transmissions. */
  lemma SameSeqSameNumber(a: nat, b: nat)
    requires a <= b < a + SEQ_MODULUS && a % SEQ_MODULUS == b % SEQ_MODULUS
    ensures a == b
  {
  }

  /** The master takes a response for a repeat exactly when it is the one it last received. */
  lemma ClassifiedRight<B(!new)>(s: System<B>)
    requires Inv(s) && s.down != [] && s.got > 0 && Close(s)
    ensures (s.m.hasSeq && s.down[0].seqNo == s.m.lastSeq) <==> s.down[0].n == s.got
  {
    hide Consistent, SenderOk, UpOk, DataOk;
    if s.down[0].seqNo == s.m.lastSeq { SameSeqSameNumber(s.got, s.down[0].n); }
  }

  lemma MasterReceivesChannels<B(!new)>(s: System<B>, pace: Pace)
    requires Inv(s) && |s.down| > 0
    ensures var s' := Next(s, pace, MasterReceives); SenderOk(s') && DownOk(s') && UpOk(s')
  {
    hide Consistent, ReceiverOk, DataOk;
  }

  lemma AscendingSnoc(ns: seq<nat>, n: nat)
    requires Ascending(ns) && forall i :: 0 <= i < |ns| ==> ns[i] < n
    ensures Ascending(ns + [n]) && n in ns + [n]
  {
    assert (ns + [n])[|ns|] == n;
  }

  /** What the master hands over grows by the body received, if it grows at all. */
  lemma MasterReceivesOrder<B(!new)>(s: System<B>, pace: Pace)
    requires Inv(s) && |s.down| > 0 && (s.got > 0 ==> Close(s))
    ensures ReceiverOk(Next(s, pace, MasterReceives))
  {
    hide Consistent, Close, SenderOk, UpOk, DataOk;
    var x := s.down[0];
    if s.got > 0 { ClassifiedRight(s); }
    if !(s.m.hasSeq && x.seqNo == s.m.lastSeq) { AscendingSnoc(s.arrived, x.n); }
  }

  lemma MasterReceivesData<B(!new)>(s: System<B>, pace: Pace)
    requires Inv(s) && |s.down| > 0 && Close(s)
    ensures DataOk(Next(s, pace, MasterReceives))
  {
    hide Consistent, Close, SenderOk, UpOk;
    var s' := Next(s, pace, MasterReceives);
    var x := s.down[0];
    assert forall n :: n in s.arrived ==> n in s'.arrived;
    if s.got > 0 {
      ClassifiedRight(s);
      if x.n != s.got { assert s'.arrived[|s.arrived|] == x.n; }
    }
  }

  lemma MasterReceivesKeeps<B(!new)>(s: System<B>, pace: Pace)
    requires Inv(s) && Close(s)
    ensures Inv(Next(s, pace, MasterReceives))
  {
    hide Close, SenderOk, DownOk, UpOk, ReceiverOk, DataOk;
    if |s.down| > 0 {
      MasterReceivesChannels(s, pace);
      MasterReceivesOrder(s, pace);
      MasterReceivesData(s, pace);
    }
  }

  lemma OutstationReceivesKeeps<B(!new)>(s: System<B>, pace: Pace)
    requires Inv(s) && Close(s)
    ensures Inv(Next(s, pace, OutstationReceives))
  {
    if s.up != [] && Accepts(s.u, s.up[0].seqNo) { SameSeqSameNumber(s.up[0].n, |s.sent|); }
  }

  lemma StepKeeps<B(!new)>(s: System<B>, pace: Pace, step: Step<B>)
    requires Inv(s) && Close(s)
    ensures Inv(Next(s, pace, step))
  {
    hide Inv, Close;
    match step
    case Transmit(body, isNull, now) => TransmitKeeps(s, pace, body, isNull, now);
    case Repeat(now) => RepeatKeeps(s, pace, now);
    case Expire(readWaiting, now) => ExpireKeeps(s, pace, readWaiting, now);
    case LoseDown(i) => LoseDownKeeps(s, pace, i);
    case LoseUp(i) => LoseUpKeeps(s, pace, i);
    case MasterReceives => MasterReceivesKeeps(s, pace);
    case OutstationReceives => OutstationReceivesKeeps(s, pace);
  }

  lemma ExpireKeeps<B(!new)>(s: System<B>, pace: Pace, readWaiting: bool, now: int)
    requires Inv(s)
    ensures Inv(Next(s, pace, Expire(readWaiting, now)))
  {
  }

  lemma {:induction false} ReachedInv<B(!new)>(hasSeq: bool, lastSeq: SeqNum, pace: Pace, steps: seq<Step<B>>)
    requires AlwaysClose(Fresh(hasSeq, lastSeq), pace, steps)
    ensures Inv(Reached(Fresh(hasSeq, lastSeq), pace, steps))
  {
    hide Next, Close;
    var s := Fresh<B>(hasSeq, lastSeq);
    if steps == [] {
    } else {
      var init := steps[..|steps| - 1];
      assert forall k :: 0 <= k < |init| ==> init[..k] == steps[..k];
      ReachedInv<B>(hasSeq, lastSeq, pace, init);
      assert steps[..|init|] == init;
      StepKeeps(Reached(s, pace, init), pace, steps[|init|]);
    }
  }

  lemma OnceOnly(ns: seq<nat>, n: nat)
    requires Ascending(ns) && n in ns
    ensures multiset(ns)[n] == 1
  {
    var i :| 0 <= i < |ns| && ns[i] == n;
    assert ns == ns[..i] + [n] + ns[i + 1..];
    assert n !in ns[..i] && n !in ns[i + 1..];
  }

  /** What each party may rely on: the master hands over each transmission at most once, in
      order, with the body that was transmitted; and every data transmission the outstation saw
      confirmed was handed over exactly once. */
  ghost predicate ExactlyOnce<B(!new)>(s: System<B>) {
    && Ascending(s.arrived) && |s.m.delivered| == |s.arrived|
    && (forall i :: 0 <= i < |s.arrived| ==>
          1 <= s.arrived[i] <= |s.sent| && s.m.delivered[i] == s.sent[s.arrived[i] - 1])
    && (forall n :: n in s.confirmed && n in s.data ==> multiset(s.arrived)[n] == 1)
  }

  lemma InvIsExactlyOnce<B(!new)>(s: System<B>)
    requires ReceiverOk(s) && DataOk(s)
    ensures ExactlyOnce(s)
  {
    forall n | n in s.confirmed && n in s.data ensures multiset(s.arrived)[n] == 1 {
      OnceOnly(s.arrived, n);
    }
  }

  /** Over every run of a connection, whatever number the master had from the one before and
      whatever the channel loses. */
  lemma DeliveredExactlyOnce<B(!new)>(hasSeq: bool, lastSeq: SeqNum, pace: Pace, steps: seq<Step<B>>)
    requires AlwaysClose(Fresh(hasSeq, lastSeq), pace, steps)
    ensures ExactlyOnce(Reached(Fresh<B>(hasSeq, lastSeq), pace, steps))
  {
    hide Reached, AlwaysClose, ExactlyOnce, SenderOk, DownOk, UpOk, ReceiverOk, DataOk;
    ReachedInv<B>(hasSeq, lastSeq, pace, steps);
    InvIsExactlyOnce(Reached(Fresh<B>(hasSeq, lastSeq), pace, steps));
  }

  // ---------- Sixteen apart is where it fails ----------

  lemma SameSeq(a: nat, b: nat)
    ensures a % SEQ_MODULUS == b % SEQ_MODULUS <==> (b - a) % SEQ_MODULUS == 0
  {
  }

  /** Once the master has received something, a transmission it has not seen is taken for a
      repeat, and so confirmed without being delivered, if and only if it is a whole number of
      turns of the sequence space ahead. */
  lemma TakenForRepeat<B(!new)>(s: System<B>, pace: Pace)
    requires Inv(s) && s.down != [] && s.got > 0 && s.down[0].n != s.got
    ensures var s' := Next(s, pace, MasterReceives);
      && s'.up == s.up + [Ack(s.down[0].seqNo, s.down[0].n)]
      && (s'.m.delivered == s.m.delivered <==> (s.down[0].n - s.got) % SEQ_MODULUS == 0)
  {
    hide Consistent, UpOk, DataOk, Ascending;
    SameSeq(s.got, s.down[0].n);
  }

  /** A confirmation is taken for the response awaiting one if and only if it is a whole number
      of turns behind it, or for it. */
  lemma TakenForCurrent<B(!new)>(s: System<B>)
    requires Inv(s) && |s.up| > 0 && s.u.awaiting
    ensures Accepts(s.u, s.up[0].seqNo) <==> (|s.sent| - s.up[0].n) % SEQ_MODULUS == 0
  {
    hide DownOk, ReceiverOk, DataOk;
    SameSeq(s.up[0].n, |s.sent|);
  }

  /** Nothing in flight or awaited, one null response delivered and confirmed, and `k` data
      responses lost since. */
  ghost predicate Lossy<B(!new)>(s: System<B>, k: nat) {
    && !s.u.awaiting && s.u.kept.None? && s.u.nullConfirmed && s.u.seqNo == (1 + k) % SEQ_MODULUS
    && |s.sent| == 1 + k && s.down == [] && s.up == []
    && s.m.hasSeq && s.m.lastSeq == 1 && s.arrived == [1]
  }

  lemma LoseOne<B(!new)>(s: System<B>, pace: Pace, body: B, k: nat)
    requires Lossy(s, k)
    ensures Lossy(Next(Next(Next(s, pace, Transmit(body, false, 0)), pace, Expire(true, 0)), pace, LoseDown(0)), k + 1)
  {
    SeqCounts(1 + k);
  }

  lemma ReachedSnoc<B(!new)>(s: System<B>, pace: Pace, steps: seq<Step<B>>, step: Step<B>)
    ensures Reached(s, pace, steps + [step]) == Next(Reached(s, pace, steps), pace, step)
  {
    hide Next;
    assert (steps + [step])[..|steps|] == steps;
  }

  lemma ReachedSnoc3<B(!new)>(s: System<B>, pace: Pace, steps: seq<Step<B>>, x: Step<B>, y: Step<B>, z: Step<B>)
    ensures Reached(s, pace, steps + [x] + [y] + [z])
      == Next(Next(Next(Reached(s, pace, steps), pace, x), pace, y), pace, z)
  {
    hide Next, Reached;
    ReachedSnoc(s, pace, steps, x);
    ReachedSnoc(s, pace, steps + [x], y);
    ReachedSnoc(s, pace, steps + [x] + [y], z);
  }

  lemma {:induction false} LoseMany<B(!new)>(pace: Pace, body: B, k: nat) returns (steps: seq<Step<B>>)
    ensures Lossy(Reached(Fresh(false, 0), pace, steps), k)
  {
    hide Reached;
    var s := Fresh<B>(false, 0);
    if k == 0 {
      steps := [] + [Transmit(body, true, 0)] + [MasterReceives] + [OutstationReceives];
      ReachedSnoc3(s, pace, [], Transmit(body, true, 0), MasterReceives, OutstationReceives);
      ReachedNothing(s, pace);
    } else {
      hide Next, Lossy;
      var before := LoseMany(pace, body, k - 1);
      steps := before + [Transmit(body, false, 0)] + [Expire(true, 0)] + [LoseDown(0)];
      ReachedSnoc3(s, pace, before, Transmit(body, false, 0), Expire(true, 0), LoseDown(0));
      LoseOne(Reached(s, pace, before), pace, body, k - 1);
    }
  }

  lemma ReachedNothing<B(!new)>(s: System<B>, pace: Pace)
    ensures Reached(s, pace, []) == s
  {
  }

  /** Sixteen apart, the promise is broken: after fifteen data responses were lost and given up,
      the next is confirmed and never delivered. */
  lemma SixteenApartLoses<B(!new)>(pace: Pace, body: B) returns (steps: seq<Step<B>>)
    ensures !ExactlyOnce(Reached(Fresh(false, 0), pace, steps))
  {
    hide Reached;
    var s := Fresh<B>(false, 0);
    var before := LoseMany(pace, body, 15);
    var at := Reached(s, pace, before);
    var x, y, z := Transmit(body, false, 0), MasterReceives, OutstationReceives;
    steps := before + [x] + [y] + [z];
    ReachedSnoc3(s, pace, before, x, y, z);
    var t := Next(Next(Next(at, pace, x), pace, y), pace, z);
    assert 17 in t.confirmed && 17 in t.data && 17 !in t.arrived;
  }
}
