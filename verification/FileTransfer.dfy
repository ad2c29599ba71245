/** File transfer, both ends: the outstation's single transfer slot, the master's chain of open,
    blocks and close, and the block object between them. */
module FileTransfer {
  import opened Protocol
  import opened Wire

  // ---------- The block object ----------

  const LAST_BLOCK: nat := 0x8000_0000
  const UINT32: nat := 0x1_0000_0000

  /** One block of a file, or a request for one. */
  datatype Block = Block(handle: nat, number: nat, last: bool, data: seq<Octet>)

  /** The number goes in 31 bits, under the flag of the last block. */
  function EncodeBlock(b: Block): seq<Octet> {
    LittleEndian(b.handle % UINT32, 4)
    + LittleEndian(b.number % LAST_BLOCK + (if b.last then LAST_BLOCK else 0), 4)
    + b.data
  }

  function ParseBlock(s: seq<Octet>): Option<Block> {
    if |s| < 8 then None
    else
      var n := ReadLittleEndian(s[4..8]);
      Some(Block(ReadLittleEndian(s[..4]), n % LAST_BLOCK, n / LAST_BLOCK % 2 == 1, s[8..]))
  }

  lemma FourOctets()
    ensures Pow256(4) == UINT32
  {
    assert Pow256(3) == 0x100_0000;
  }

  lemma FlagApart(number: nat, last: bool)
    requires number < LAST_BLOCK
    ensures var n := number + if last then LAST_BLOCK else 0;
      n < UINT32 && n % LAST_BLOCK == number && (n / LAST_BLOCK % 2 == 1) == last
  {
  }

  /** A block comes back as it was, its number taken modulo two to the thirty-first. */
  lemma BlockRoundTrip(b: Block)
    requires b.handle < UINT32
    ensures ParseBlock(EncodeBlock(b)) == Some(b.(number := b.number % LAST_BLOCK))
  {
    hide LittleEndian, ReadLittleEndian, Pow256;
    var n := b.number % LAST_BLOCK + if b.last then LAST_BLOCK else 0;
    FourOctets();
    FlagApart(b.number % LAST_BLOCK, b.last);
    LittleEndianRoundTrip(b.handle, 4);
    LittleEndianRoundTrip(n, 4);
    var s := EncodeBlock(b);
    assert s[..4] == LittleEndian(b.handle, 4) && s[4..8] == LittleEndian(n, 4) && s[8..] == b.data;
  }

  // ---------- The outstation ----------

  datatype Mode = Reading | Writing

  datatype Status = Success | NotOpen | InvalidHandle | InvalidMode | BlockSequence | WriteBlockSize | TooManyOpen | Fatal

  /** The transfer in progress. `rest` is what is still to be read of a file being read, and
      `written` what has been accepted of one being written. */
  datatype Slot = Slot(
    handle: nat, mode: Mode, blockSize: nat, size: nat, number: nat, done: bool,
    rest: seq<Octet>, written: seq<Octet>, received: nat)

  /** `landed` is the last file whose write was closed as a success. */
  datatype Server = Server(slot: Option<Slot>, handleSeq: nat, landed: seq<Octet>)

  datatype OpenReply = Opened(handle: nat, blockSize: nat) | OpenRefused(status: Status)

  function Min(a: nat, b: nat): nat {
    if a < b then a else b
  }

  /** What the outstation is set to send at most: in one block, and in one fragment. */
  datatype Limits = Limits(maxBlock: nat, maxTx: int)

  /** The smaller of what either end allows, and no more than a fragment has room for. */
  function NegotiateBlockSize(limits: Limits, requested: nat): nat {
    var size := if requested > 0 && requested < limits.maxBlock then requested else limits.maxBlock;
    if limits.maxTx - 32 > 0 && size > limits.maxTx - 32 then limits.maxTx - 32 else size
  }

  /** The object header a block is answered in. */
  function BlockHeader(b: Block): ObjectHeader
    requires |EncodeBlock(b)| <= 0xFFFF
  {
    ObjectHeader(70, 5, PrefixSize2, Variable, Count(1), LE16(|EncodeBlock(b)|) + EncodeBlock(b))
  }

  /** A block that can be sent: its size fits its sixteen bits, and its response a fragment. */
  predicate Sendable(maxTx: int, b: Block) {
    |EncodeBlock(b)| <= 0xFFFF && Size(BlockHeader(b)) + RESPONSE_HEADER_SIZE <= maxTx
  }

  /** A block the master can put in a request. */
  predicate Requestable(maxTx: int, b: Block) {
    |EncodeBlock(b)| <= 0xFFFF && Size(BlockHeader(b)) + REQUEST_HEADER_SIZE <= maxTx
  }

  /** The most octets of data a size prefix leaves room for. */
  const MAX_BLOCK_DATA := 65527

  lemma BlockSizes(maxTx: int, b: Block)
    ensures Sendable(maxTx, b) <==> |b.data| <= MAX_BLOCK_DATA && |b.data| + 18 <= maxTx
    ensures Requestable(maxTx, b) <==> |b.data| <= MAX_BLOCK_DATA && |b.data| + 16 <= maxTx
    ensures BlockReply(b).Data? <==> |b.data| <= MAX_BLOCK_DATA
  {
    hide LittleEndian;
    assert |EncodeBlock(b)| == 8 + |b.data|;
  }

  /** A block of the size negotiated can be sent if and only if sixteen bits hold its size, and a
      fragment is of more than 32 octets or happens to hold it: so always, in fragments of 33 to
      65559 octets. */
  lemma NegotiatedBlockFits(limits: Limits, requested: nat, b: Block)
    requires |b.data| == NegotiateBlockSize(limits, requested)
    ensures Sendable(limits.maxTx, b) <==>
      |b.data| <= MAX_BLOCK_DATA && (limits.maxTx > 32 || |b.data| + 18 <= limits.maxTx)
    ensures 32 < limits.maxTx <= 65559 ==> Sendable(limits.maxTx, b)
  {
    hide Sendable;
    BlockSizes(limits.maxTx, b);
  }

  function OnOpen(s: Server, mode: Mode, blockSize: nat, size: nat, content: seq<Octet>): (Server, OpenReply) {
    if s.slot.Some? then (s, OpenRefused(TooManyOpen))
    else
      var handle := (s.handleSeq + 1) % UINT32;
      (s.(slot := Some(Slot(handle, mode, blockSize, size, 0, false, if mode.Reading? then content else [], [], 0)),
          handleSeq := handle),
       Opened(handle, blockSize))
  }

  /** The next block of what is left, and whether anything follows it. */
  function ReadBlock(slot: Slot): (seq<Octet>, bool) {
    (slot.rest[..Min(slot.blockSize, |slot.rest|)], |slot.rest| <= slot.blockSize)
  }

  /** `NoData` is an answer without an object: the block was too large for its size prefix. */
  datatype ReadReply = Data(b: Block) | NoData | ReadRefused(status: Status)

  /** Answers with a block, if its object can be made. */
  function BlockReply(b: Block): ReadReply {
    if |EncodeBlock(b)| > 0xFFFF then NoData else Data(b)
  }

  /** Serves the next block, if that is the one asked for. `broken` is a failure to read. */
  function OnRead(s: Server, handle: nat, number: nat, broken: bool): (Server, ReadReply) {
    if s.slot.None? then (s, ReadRefused(NotOpen))
    else
      var t := s.slot.value;
      if t.handle != handle then (s, ReadRefused(InvalidHandle))
      else if !t.mode.Reading? then (s, ReadRefused(InvalidMode))
      else if t.done then (s, ReadRefused(NotOpen))
      else if number != t.number then (s, ReadRefused(BlockSequence))
      else if broken then (s.(slot := None), ReadRefused(Fatal))
      else
        var (data, last) := ReadBlock(t);
        (s.(slot := Some(t.(number := (t.number + 1) % UINT32, done := last, rest := t.rest[|data|..]))),
         BlockReply(Block(handle, t.number, last, data)))
  }

  /** Accepts the next block, if it is the one expected. `broken` is a failure to write. */
  function OnWrite(s: Server, b: Block, broken: bool): (Server, Status) {
    if s.slot.None? then (s, NotOpen)
    else
      var t := s.slot.value;
      if t.handle != b.handle then (s, InvalidHandle)
      else if !t.mode.Writing? then (s, InvalidMode)
      else if b.number != t.number then (s, BlockSequence)
      else if |b.data| > t.blockSize then (s, WriteBlockSize)
      else if broken then (s.(slot := None), Fatal)
      else
        (s.(slot := Some(t.(number := (t.number + 1) % UINT32, done := b.last,
                            written := t.written + b.data, received := t.received + |b.data|))), Success)
  }

  /** Ends a transfer. A write that did not arrive whole is not reported as a success. `broken`
      is a failure to close. */
  function OnClose(s: Server, handle: nat, broken: bool): (Server, Status) {
    if s.slot.None? || s.slot.value.handle != handle then (s, InvalidHandle)
    else
      var t := s.slot.value;
      var incomplete := t.mode.Writing? && (!t.done || t.received != t.size);
      if broken || incomplete then (s.(slot := None), Fatal)
      else (s.(slot := None, landed := if t.mode.Writing? then t.written else s.landed), Success)
  }

  /** The outstation's transfer slot. */
  class FileServer {
    const limits: Limits
    var slot: Option<Slot>
    var handleSeq: nat
    var landed: seq<Octet>

    constructor (limits: Limits)
      ensures this.limits == limits && View() == Server(None, 0, [])
    {
      this.limits := limits;
      slot, handleSeq, landed := None, 0, [];
    }

    function View(): Server
      reads this
    {
      Server(slot, handleSeq, landed)
    }

    method Open(mode: Mode, requested: nat, size: nat, content: seq<Octet>) returns (reply: OpenReply)
      modifies this
      ensures (View(), reply) == OnOpen(old(View()), mode, NegotiateBlockSize(limits, requested), size, content)
    {
      if slot.Some? { return OpenRefused(TooManyOpen); }
      var blockSize := NegotiateBlockSize(limits, requested);
      handleSeq := (handleSeq + 1) % UINT32;
      slot := Some(Slot(handleSeq, mode, blockSize, size, 0, false, if mode.Reading? then content else [], [], 0));
      reply := Opened(handleSeq, blockSize);
    }

    method Read(handle: nat, number: nat, broken: bool) returns (reply: ReadReply)
      modifies this
      ensures (View(), reply) == OnRead(old(View()), handle, number, broken)
    {
      if slot.None? { return ReadRefused(NotOpen); }
      var t := slot.value;
      if t.handle != handle { return ReadRefused(InvalidHandle); }
      if !t.mode.Reading? { return ReadRefused(InvalidMode); }
      if t.done { return ReadRefused(NotOpen); }
      if number != t.number { return ReadRefused(BlockSequence); }
      if broken {
        slot := None;
        return ReadRefused(Fatal);
      }
      var (data, last) := ReadBlock(t);
      slot := Some(t.(number := (t.number + 1) % UINT32, done := last, rest := t.rest[|data|..]));
      reply := BlockReply(Block(handle, t.number, last, data));
    }

    method Write(b: Block, broken: bool) returns (status: Status)
      modifies this
      ensures (View(), status) == OnWrite(old(View()), b, broken)
    {
      if slot.None? { return NotOpen; }
      var t := slot.value;
      if t.handle != b.handle { return InvalidHandle; }
      if !t.mode.Writing? { return InvalidMode; }
      if b.number != t.number { return BlockSequence; }
      if |b.data| > t.blockSize { return WriteBlockSize; }
      if broken {
        slot := None;
        return Fatal;
      }
      slot := Some(t.(number := (t.number + 1) % UINT32, done := b.last,
                      written := t.written + b.data, received := t.received + |b.data|));
      status := Success;
    }

    method Close(handle: nat, broken: bool) returns (status: Status)
      modifies this
      ensures (View(), status) == OnClose(old(View()), handle, broken)
    {
      if slot.None? || slot.value.handle != handle { return InvalidHandle; }
      var t := slot.value;
      slot := None;
      if broken || (t.mode.Writing? && (!t.done || t.received != t.size)) { return Fatal; }
      if t.mode.Writing? { landed := t.written; }
      status := Success;
    }
  }

  // ---------- The master's transfer ----------

  datatype Phase = Opening | Moving | Closing | Over(ok: bool)

  /** Both ends of one transfer. `sink` is what the master has written out and `source` what it
      has still to send; `blocks` records each block moved, with its flag. */
  datatype Transfer = Transfer(
    server: Server, phase: Phase, handle: nat, number: nat, last: bool, blockSize: nat,
    sink: seq<Octet>, source: seq<Octet>, blocks: seq<bool>)

  /** What happens to one request: it is answered, it or its answer is lost, or an end fails to
      read or write. */
  datatype Fate = Answered | LostRequest | LostReply | ServerBroken | MasterBroken

  /** The transfer's request, what the master sends at most in one fragment, the size it declares
      and the file it concerns. */
  datatype Job = Job(mode: Mode, asked: nat, maxTx: int, limits: Limits, size: nat, content: seq<Octet>)

  /** The block size the outstation settles on. */
  function Granted(j: Job): nat {
    NegotiateBlockSize(j.limits, j.asked)
  }

  function Failed(t: Transfer): Transfer {
    t.(phase := Over(false))
  }

  /** The block size the master goes by: the smaller of its own and the one it was granted. */
  function Chosen(asked: nat, granted: nat): nat {
    if granted > 0 && granted < asked then granted else asked
  }

  function OpenStep(j: Job, t: Transfer, fate: Fate): Transfer {
    if fate.LostRequest? then Failed(t)
    else
      var (server, reply) := OnOpen(t.server, j.mode, Granted(j), j.size, j.content);
      var t1 := t.(server := server);
      if fate.LostReply? || reply.OpenRefused? || reply.handle == 0 then Failed(t1)
      else t1.(phase := Moving, handle := reply.handle, blockSize := Chosen(j.asked, reply.blockSize))
  }

  /** One block read: asked for by number, checked against that number, written out. */
  function ReadStep(j: Job, t: Transfer, fate: Fate): Transfer {
    var request := Block(t.handle, t.number, false, []);
    var sent := ParseBlock(EncodeBlock(request));
    if !Requestable(j.maxTx, request) || fate.LostRequest? || sent.None? then Failed(t)
    else
      var (server, reply) := OnRead(t.server, sent.value.handle, sent.value.number, fate.ServerBroken?);
      var t1 := t.(server := server);
      if fate.LostReply? || !reply.Data? then Failed(t1)
      else
        var got := ParseBlock(EncodeBlock(reply.b));
        if got.None? || got.value.number != t.number || (fate.MasterBroken? && |got.value.data| > 0) then Failed(t1)
        else
          t1.(sink := t.sink + got.value.data, number := (t.number + 1) % UINT32, last := got.value.last,
              phase := if got.value.last then Closing else Moving, blocks := t.blocks + [got.value.last])
  }

  /** One block written: as much of the source as fills it, flagged last when it is short. */
  function WriteStep(j: Job, t: Transfer, fate: Fate): Transfer {
    var data := t.source[..Min(t.blockSize, |t.source|)];
    var last := |data| < t.blockSize;
    var request := Block(t.handle, t.number, last, data);
    var sent := ParseBlock(EncodeBlock(request));
    if !Requestable(j.maxTx, request) || fate.LostRequest? || fate.MasterBroken? || sent.None? then Failed(t)
    else
      var (server, status) := OnWrite(t.server, sent.value, fate.ServerBroken?);
      var t1 := t.(server := server);
      if fate.LostReply? || status != Success then Failed(t1)
      else
        t1.(source := t.source[|data|..], number := (t.number + 1) % UINT32, last := last,
            phase := if last then Closing else Moving, blocks := t.blocks + [last])
  }

  function CloseStep(t: Transfer, fate: Fate): Transfer {
    if fate.LostRequest? then Failed(t)
    else
      var (server, status) := OnClose(t.server, t.handle, fate.ServerBroken?);
      t.(server := server, phase := Over(fate.Answered? && status == Success))
  }

  /** The next exchange of the chain, or the outstation giving up on the transfer between two. */
  datatype Step = Exchange(fate: Fate) | Expires

  function Next(j: Job, t: Transfer, step: Step): Transfer {
    if step.Expires? then t.(server := t.server.(slot := None))
    else
      match t.phase
      case Opening => OpenStep(j, t, step.fate)
      case Moving => if j.mode.Reading? then ReadStep(j, t, step.fate) else WriteStep(j, t, step.fate)
      case Closing => CloseStep(t, step.fate)
      case Over(_) => t
  }

  function Begin(j: Job, server: Server): Transfer {
    Transfer(server, Opening, 0, 0, false, 0, [], if j.mode.Writing? then j.content else [], [])
  }

  function Run(j: Job, t: Transfer, steps: seq<Step>): Transfer {
    if steps == [] then t else Next(j, Run(j, t, steps[..|steps| - 1]), steps[|steps| - 1])
  }

  // ---------- What holds throughout ----------

  /** Every block moved but the final one is unflagged. */
  predicate FlagsOk(t: Transfer) {
    && (forall i :: 0 <= i < |t.blocks| - 1 ==> !t.blocks[i])
    && (t.blocks != [] ==> t.last == t.blocks[|t.blocks| - 1])
    && (t.phase.Moving? ==> t.blocks == [] || !t.last)
  }

  /** A read: what was written out and what is left make up the file, and the outstation's slot,
      while it holds this transfer, has exactly what is left. */
  ghost predicate ReadOk(j: Job, t: Transfer) {
    && t.sink <= j.content
    && ((t.phase.Closing? || t.phase == Over(true)) ==> t.sink == j.content)
    && (t.phase.Moving? || t.phase.Closing? ==> t.handle < UINT32)
    && (t.phase.Closing? && t.server.slot.Some? && t.server.slot.value.handle == t.handle ==>
          t.server.slot.value.mode.Reading?)
    && (t.phase.Moving? && t.server.slot.Some? && t.server.slot.value.handle == t.handle ==>
          var slot := t.server.slot.value;
          slot.mode.Reading? && t.sink + slot.rest == j.content && slot.number == t.number && !slot.done)
  }

  /** A write: what the slot has accepted and what the master still has make up the source. */
  ghost predicate WriteOk(j: Job, t: Transfer) {
    && (t.phase.Moving? || t.phase.Closing? ==> t.handle < UINT32)
    && ((t.phase.Moving? || t.phase.Closing?) && t.server.slot.Some? && t.server.slot.value.handle == t.handle ==>
          var slot := t.server.slot.value;
          && slot.mode.Writing? && slot.size == j.size && slot.number == t.number
          && slot.written + t.source == j.content && slot.received == |slot.written|
          && slot.done == (t.phase.Closing?)
          && (t.phase.Closing? ==> t.source == []))
    && (t.phase == Over(true) ==> |j.content| == j.size && t.server.landed == j.content)
  }

  ghost predicate TransferOk(j: Job, t: Transfer) {
    && FlagsOk(t) && t.number < UINT32
    && (t.phase.Closing? || t.phase == Over(true) ==> t.last && t.blocks != [])
    && (t.phase.Opening? ==> t.blocks == [] && t.number == 0 && t.sink == [])
    && (if j.mode.Reading? then ReadOk(j, t) else WriteOk(j, t) && (t.phase.Opening? ==> t.source == j.content))
  }

  lemma OpenKeeps(j: Job, t: Transfer, fate: Fate)
    requires TransferOk(j, t) && t.phase.Opening?
    ensures TransferOk(j, OpenStep(j, t, fate))
  {
  }

  /** What the outstation serves is the next of what is left. */
  lemma ServedNext(sink: seq<Octet>, slot: Slot, content: seq<Octet>)
    requires sink + slot.rest == content
    ensures var (data, last) := ReadBlock(slot);
      && |data| <= |slot.rest| && (sink + data) + slot.rest[|data|..] == content && sink + data <= content
      && (last ==> sink + data == content)
  {
    var (data, last) := ReadBlock(slot);
    assert slot.rest == data + slot.rest[|data|..];
    assert sink + data + slot.rest[|data|..] == content;
  }

  lemma ReadStepKeeps(j: Job, t: Transfer, fate: Fate)
    requires TransferOk(j, t) && t.phase.Moving? && j.mode.Reading?
    ensures TransferOk(j, ReadStep(j, t, fate))
  {
    hide ParseBlock, EncodeBlock, ReadBlock, Requestable;
    BlockRoundTrip(Block(t.handle, t.number, false, []));
    var (server, reply) := OnRead(t.server, t.handle, t.number % LAST_BLOCK, fate.ServerBroken?);
    if reply.Data? {
      BlockRoundTrip(reply.b);
      ServedNext(t.sink, t.server.slot.value, j.content);
    }
  }

  lemma SentNext(written: seq<Octet>, source: seq<Octet>, content: seq<Octet>, n: nat)
    requires written + source == content && n <= |source|
    ensures (written + source[..n]) + source[n..] == content
  {
    assert source == source[..n] + source[n..];
  }

  /** A block moved is recorded, or nothing is and the transfer is over. */
  lemma FlagsKept(t: Transfer, t': Transfer)
    requires FlagsOk(t) && t.phase.Moving?
    requires || (t'.blocks == t.blocks && t'.last == t.last && t'.phase.Over?)
             || (t'.blocks == t.blocks + [t'.last] && t'.phase == if t'.last then Closing else Moving)
    ensures FlagsOk(t')
  {
  }

  lemma WriteStepKeeps(j: Job, t: Transfer, fate: Fate)
    requires TransferOk(j, t) && t.phase.Moving? && j.mode.Writing?
    ensures TransferOk(j, WriteStep(j, t, fate))
  {
    hide ParseBlock, EncodeBlock, FlagsOk, Requestable;
    FlagsKept(t, WriteStep(j, t, fate));
    var n := Min(t.blockSize, |t.source|);
    BlockRoundTrip(Block(t.handle, t.number, n < t.blockSize, t.source[..n]));
    if t.server.slot.Some? && t.server.slot.value.handle == t.handle {
      SentNext(t.server.slot.value.written, t.source, j.content, n);
    }
  }

  lemma CloseKeeps(j: Job, t: Transfer, fate: Fate)
    requires TransferOk(j, t) && t.phase.Closing?
    ensures TransferOk(j, CloseStep(t, fate))
  {
  }

  lemma ExpireKeeps(j: Job, t: Transfer)
    requires TransferOk(j, t)
    ensures TransferOk(j, Next(j, t, Expires))
  {
  }

  lemma NextKeeps(j: Job, t: Transfer, step: Step)
    requires TransferOk(j, t)
    ensures TransferOk(j, Next(j, t, step))
  {
    hide TransferOk, OpenStep, ReadStep, WriteStep, CloseStep;
    if step.Expires? {
      ExpireKeeps(j, t);
    } else {
      match t.phase
      case Opening => OpenKeeps(j, t, step.fate);
      case Moving => if j.mode.Reading? { ReadStepKeeps(j, t, step.fate); } else { WriteStepKeeps(j, t, step.fate); }
      case Closing => CloseKeeps(j, t, step.fate);
      case Over(_) =>
    }
  }

  lemma BeginOk(j: Job, server: Server)
    ensures TransferOk(j, Begin(j, server))
  {
  }

  lemma {:induction false} RunKeeps(j: Job, server: Server, steps: seq<Step>)
    ensures TransferOk(j, Run(j, Begin(j, server), steps))
  {
    hide TransferOk, Next;
    if steps == [] {
      BeginOk(j, server);
    } else {
      RunKeeps(j, server, steps[..|steps| - 1]);
      NextKeeps(j, Run(j, Begin(j, server), steps[..|steps| - 1]), steps[|steps| - 1]);
    }
  }

  /** Over every run, whatever is lost, fails or expires: a read never writes out anything but
      the beginning of the file, and all of it when it succeeds; a write succeeds only when the
      file landed is the source and as long as was declared; and the last flag is on the final
      block alone. */
  lemma TransfersAreExact(j: Job, server: Server, steps: seq<Step>)
    ensures var t := Run(j, Begin(j, server), steps);
      && (j.mode.Reading? ==> t.sink <= j.content && (t.phase == Over(true) ==> t.sink == j.content))
      && (j.mode.Writing? && t.phase == Over(true) ==> t.server.landed == j.content && |j.content| == j.size)
      && (forall i :: 0 <= i < |t.blocks| - 1 ==> !t.blocks[i])
      && (t.phase == Over(true) ==> t.blocks != [] && t.blocks[|t.blocks| - 1])
  {
    hide Run;
    RunKeeps(j, server, steps);
  }

  // ---------- When nothing goes wrong ----------

  /** `k` exchanges in a row, each answered. */
  function Drive(j: Job, t: Transfer, k: nat): Transfer
    decreases k
  {
    if k == 0 then t else Drive(j, Next(j, t, Exchange(Answered)), k - 1)
  }

  /** How many blocks a read takes: one at least, and none empty after a full one. */
  function ReadBlocks(rest: seq<Octet>, blockSize: nat): nat
    requires blockSize >= 1
    decreases |rest|
  {
    if |rest| <= blockSize then 1 else 1 + ReadBlocks(rest[blockSize..], blockSize)
  }

  /** How many blocks a write takes: the last is always short. */
  function WriteBlocks(source: seq<Octet>, blockSize: nat): nat
    requires blockSize >= 1
    decreases |source|
  {
    if |source| < blockSize then 1 else 1 + WriteBlocks(source[blockSize..], blockSize)
  }

  /** A fragment holds a request for a block, and a size prefix the longest block that is read. */
  predicate ReadHeld(j: Job, blockSize: nat, rest: seq<Octet>) {
    16 <= j.maxTx && Min(blockSize, |rest|) <= MAX_BLOCK_DATA
  }

  /** A size prefix and a fragment hold the longest block that is written. */
  predicate WriteHeld(j: Job, blockSize: nat, source: seq<Octet>) {
    var n := Min(blockSize, |source|);
    n <= MAX_BLOCK_DATA && n + 16 <= j.maxTx
  }

  ghost predicate OurSlot(t: Transfer) {
    t.server.slot.Some? && t.server.slot.value.handle == t.handle && t.handle != 0
  }

  /** An answered read moves one block on, unless the number no longer fits its field, the request
      its fragment or the block its size prefix. */
  lemma ReadAdvances(j: Job, t: Transfer)
    requires TransferOk(j, t) && j.mode.Reading? && t.phase.Moving? && OurSlot(t) && t.server.slot.value.blockSize >= 1
    requires t.number <= LAST_BLOCK
    ensures var t', slot := Next(j, t, Exchange(Answered)), t.server.slot.value;
      if t.number == LAST_BLOCK || !ReadHeld(j, slot.blockSize, slot.rest) then t'.phase == Over(false)
      else
        && t'.phase == (if |slot.rest| <= slot.blockSize then Closing else Moving)
        && OurSlot(t') && t'.number == t.number + 1 && t'.server.slot.value.blockSize == slot.blockSize
        && (t'.phase.Moving? ==> t'.server.slot.value.rest == slot.rest[slot.blockSize..])
  {
    hide ParseBlock, EncodeBlock, Requestable, BlockReply;
    var request := Block(t.handle, t.number, false, []);
    BlockRoundTrip(request);
    BlockSizes(j.maxTx, request);
    var slot := t.server.slot.value;
    var (data, last) := ReadBlock(slot);
    var b := Block(t.handle, slot.number, last, data);
    BlockSizes(j.maxTx, b);
    ReplyIs(b);
    BlockRoundTrip(b);
  }

  lemma ReplyIs(b: Block)
    ensures BlockReply(b).Data? ==> BlockReply(b).b == b
  {
  }

  lemma {:induction false} ReadDrives(j: Job, t: Transfer)
    requires TransferOk(j, t) && j.mode.Reading? && t.phase.Moving? && OurSlot(t) && t.server.slot.value.blockSize >= 1
    requires t.number <= LAST_BLOCK
    ensures var slot := t.server.slot.value;
      var n := ReadBlocks(slot.rest, slot.blockSize);
      var t' := Drive(j, t, n);
      && TransferOk(j, t')
      && (if t.number + n <= LAST_BLOCK && ReadHeld(j, slot.blockSize, slot.rest) then t'.phase.Closing? && OurSlot(t')
          else t'.phase == Over(false))
    decreases |t.server.slot.value.rest|
  {
    hide TransferOk, Next;
    var slot := t.server.slot.value;
    var t' := Next(j, t, Exchange(Answered));
    ReadAdvances(j, t);
    NextKeeps(j, t, Exchange(Answered));
    if t'.phase.Moving? {
      ReadDrives(j, t');
    } else if t'.phase.Over? {
      StaysOver(j, t', ReadBlocks(slot.rest, slot.blockSize) - 1);
    }
  }

  lemma {:induction false} StaysOver(j: Job, t: Transfer, k: nat)
    requires t.phase.Over?
    ensures Drive(j, t, k) == t
  {
    if k > 0 { StaysOver(j, t, k - 1); }
  }

  /** Driving on from where a drive stopped. */
  lemma {:induction false} DriveOn(j: Job, t: Transfer, a: nat, b: nat)
    ensures Drive(j, t, a + b) == Drive(j, Drive(j, t, a), b)
    decreases a
  {
    hide Next;
    if a > 0 { DriveOn(j, Next(j, t, Exchange(Answered)), a - 1, b); }
  }

  ghost predicate WritesFit(t: Transfer) {
    OurSlot(t) && 1 <= t.blockSize <= t.server.slot.value.blockSize
  }

  lemma WriteAdvances(j: Job, t: Transfer)
    requires TransferOk(j, t) && j.mode.Writing? && t.phase.Moving? && WritesFit(t) && t.number <= LAST_BLOCK
    ensures var t' := Next(j, t, Exchange(Answered));
      if t.number == LAST_BLOCK || !WriteHeld(j, t.blockSize, t.source) then t'.phase == Over(false)
      else
        && t'.phase == (if |t.source| < t.blockSize then Closing else Moving)
        && WritesFit(t') && t'.number == t.number + 1 && t'.blockSize == t.blockSize
        && (t'.phase.Moving? ==> t'.source == t.source[t.blockSize..])
  {
    hide ParseBlock, EncodeBlock, Requestable;
    var n := Min(t.blockSize, |t.source|);
    var request := Block(t.handle, t.number, n < t.blockSize, t.source[..n]);
    BlockRoundTrip(request);
    BlockSizes(j.maxTx, request);
  }

  lemma {:induction false} WriteDrives(j: Job, t: Transfer)
    requires TransferOk(j, t) && j.mode.Writing? && t.phase.Moving? && WritesFit(t) && t.number <= LAST_BLOCK
    ensures var n := WriteBlocks(t.source, t.blockSize);
      var t' := Drive(j, t, n);
      && TransferOk(j, t')
      && (if t.number + n <= LAST_BLOCK && WriteHeld(j, t.blockSize, t.source) then t'.phase.Closing? && OurSlot(t')
          else t'.phase == Over(false))
    decreases |t.source|
  {
    hide TransferOk, Next;
    var t' := Next(j, t, Exchange(Answered));
    WriteAdvances(j, t);
    NextKeeps(j, t, Exchange(Answered));
    if t'.phase.Moving? {
      WriteDrives(j, t');
    } else if t'.phase.Over? {
      StaysOver(j, t', WriteBlocks(t.source, t.blockSize) - 1);
    }
  }

  /** A close answered: a read's always succeeds, and a write's exactly when the file is as long
      as was declared. */
  lemma CloseAnswered(j: Job, t: Transfer)
    requires TransferOk(j, t) && t.phase.Closing? && OurSlot(t)
    ensures Next(j, t, Exchange(Answered)).phase == Over(j.mode.Reading? || |j.content| == j.size)
  {
    if j.mode.Writing? {
      var slot := t.server.slot.value;
      assert slot.written + [] == slot.written;
    }
  }

  /** The outstation is free and has a handle to give. */
  predicate Free(server: Server) {
    server.slot.None? && (server.handleSeq + 1) % UINT32 != 0
  }

  lemma OpenAnswered(j: Job, server: Server)
    requires Free(server) && j.limits.maxBlock >= 1 && j.asked >= 1
    ensures var t := Next(j, Begin(j, server), Exchange(Answered));
      && TransferOk(j, t) && t.phase.Moving? && t.number == 0 && OurSlot(t)
      && t.server.slot.value.blockSize == Granted(j) && t.blockSize == Chosen(j.asked, Granted(j)) && WritesFit(t)
      && (if j.mode.Reading? then t.server.slot.value.rest == j.content else t.source == j.content)
  {
    BeginOk(j, server);
    NextKeeps(j, Begin(j, server), Exchange(Answered));
  }

  /** How many blocks a transfer takes. */
  function BlockCount(j: Job): nat
    requires j.limits.maxBlock >= 1 && j.asked >= 1
  {
    if j.mode.Reading? then ReadBlocks(j.content, Granted(j)) else WriteBlocks(j.content, Chosen(j.asked, Granted(j)))
  }

  /** Whether the longest block of a transfer fits its size prefix, and the requests for or with
      blocks the master's fragments. */
  predicate BlocksHeld(j: Job) {
    if j.mode.Reading? then ReadHeld(j, Granted(j), j.content)
    else WriteHeld(j, Chosen(j.asked, Granted(j)), j.content)
  }

  /** With every request answered, a transfer of any file at any block size comes to an end in
      its number of blocks and an open and a close; and it succeeds if and only if the block
      numbers fit their thirty-one bits, its blocks their size prefix and the master's requests,
      and, for a write, the file is as long as declared. */
  lemma TransferSucceeds(j: Job, server: Server)
    requires Free(server) && j.limits.maxBlock >= 1 && j.asked >= 1
    ensures Drive(j, Begin(j, server), 1 + BlockCount(j) + 1).phase
         == Over(BlockCount(j) <= LAST_BLOCK && BlocksHeld(j) && (j.mode.Reading? || |j.content| == j.size))
  {
    hide TransferOk, Next, Begin;
    var n, start := BlockCount(j), Begin(j, server);
    OpenAnswered(j, server);
    var ready := Next(j, start, Exchange(Answered));
    if j.mode.Reading? { ReadDrives(j, ready); } else { WriteDrives(j, ready); }
    var moved := Drive(j, ready, n);
    DriveOn(j, ready, n, 1);
    assert Drive(j, start, 1 + (n + 1)) == Drive(j, ready, n + 1);
    assert Drive(j, moved, 1) == Drive(j, Next(j, moved, Exchange(Answered)), 0);
    if moved.phase.Closing? { CloseAnswered(j, moved); } else { StaysOver(j, moved, 1); }
  }

  /** How many octets a number of blocks holds: the count follows from the length. */
  lemma {:induction false} ReadBlockCount(rest: seq<Octet>, blockSize: nat)
    requires blockSize >= 1
    ensures var n := ReadBlocks(rest, blockSize);
      n >= 1 && (n - 1) * blockSize <= |rest| <= n * blockSize && (n > 1 ==> (n - 1) * blockSize < |rest|)
    decreases |rest|
  {
    if |rest| > blockSize {
      ReadBlockCount(rest[blockSize..], blockSize);
      var n := ReadBlocks(rest, blockSize);
      assert (n - 2) * blockSize + blockSize == (n - 1) * blockSize && (n - 1) * blockSize + blockSize == n * blockSize;
    }
  }

  // ---------- What the outstation sends ----------

  predicate SlotSized(j: Job, server: Server) {
    server.slot.Some? ==> server.slot.value.blockSize == Granted(j)
  }

  lemma StepSized(j: Job, t: Transfer, step: Step)
    requires SlotSized(j, t.server)
    ensures SlotSized(j, Next(j, t, step).server)
  {
    hide EncodeBlock, ParseBlock, ReadBlock, Granted, Min, Chosen;
  }

  /** The slot is only ever for blocks of the size negotiated. */
  lemma {:induction false} SlotNegotiated(j: Job, server: Server, steps: seq<Step>)
    requires server.slot.None?
    ensures SlotSized(j, Run(j, Begin(j, server), steps).server)
  {
    hide Next, SlotSized;
    if steps != [] {
      SlotNegotiated(j, server, steps[..|steps| - 1]);
      StepSized(j, Run(j, Begin(j, server), steps[..|steps| - 1]), steps[|steps| - 1]);
    } else {
      NoSlot(j, server);
    }
  }

  lemma NoSlot(j: Job, server: Server)
    requires server.slot.None?
    ensures SlotSized(j, server)
  {
  }

  /** A read that the negotiated size makes fail: its one block is too large for its size prefix. */
  lemma LargeBlockFails(server: Server, content: seq<Octet>)
    requires Free(server) && |content| == 65535
    ensures var j := Job(Reading, 65535, 70000, Limits(65535, 70000), 0, content);
      Drive(j, Begin(j, server), 3).phase == Over(false)
  {
    hide Drive, Begin;
    var j := Job(Reading, 65535, 70000, Limits(65535, 70000), 0, content);
    TransferSucceeds(j, server);
  }

  /** However a transfer goes, every block the outstation serves fits a fragment of more than 32
      octets, and in one of at most 65559 a block is never left out of its answer. */
  lemma EveryBlockSendable(j: Job, server: Server, steps: seq<Step>, handle: nat, number: nat, broken: bool)
    requires server.slot.None? && 32 < j.limits.maxTx
    ensures var (_, reply) := OnRead(Run(j, Begin(j, server), steps).server, handle, number, broken);
      && (reply.Data? ==> Sendable(j.limits.maxTx, reply.b))
      && (j.limits.maxTx <= 65559 ==> !reply.NoData?)
  {
    hide Sendable, NegotiateBlockSize, Run, BlockReply;
    SlotNegotiated(j, server, steps);
    GrantedBound(j.limits, j.asked);
    var s := Run(j, Begin(j, server), steps).server;
    if s.slot.Some? {
      var t := s.slot.value;
      var (data, last) := ReadBlock(t);
      var b := Block(handle, t.number, last, data);
      BlockSizes(j.limits.maxTx, b);
      ReplyIs(b);
    }
  }

  lemma GrantedBound(limits: Limits, asked: nat)
    requires 32 < limits.maxTx
    ensures NegotiateBlockSize(limits, asked) <= limits.maxTx - 32
  {
  }
}
