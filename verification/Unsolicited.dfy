/** The outstation's unsolicited reporting state: its own sequence space, its retries and its
    giving up. `B` is what a response carries. */
module Unsolicited {
  import opened Protocol

  /** How unsolicited reporting is paced. */
  datatype Pace = Pace(enabled: bool, holdTime: int, maxEvents: int, confirmTimeout: int, maxRetries: nat)

  /** `kept` is the body last transmitted, held so a retry can repeat it. A time of `None` is
      the zero time. */
  datatype Unsol<B> = Unsol(
    seqNo: SeqNum, nullSent: bool, nullConfirmed: bool,
    awaiting: bool, awaitSeq: SeqNum, deadline: int, retries: nat,
    kept: Option<B>, nextAllowed: Option<int>, firstEventAt: Option<int>)

  function Reset<B>(): Unsol<B> {
    Unsol(0, false, false, false, 0, 0, 0, None, None, None)
  }

  /** What a tick may do, before looking at the queue. */
  datatype Action = Idle | TimeOut | Retry | SendNull | Report

  function Decide<B>(u: Unsol<B>, pace: Pace, solicitedPending: bool, now: int): Action {
    if !pace.enabled then Idle
    else if u.awaiting then if now < u.deadline then Idle else TimeOut
    else if solicitedPending then Idle
    else if u.retries > 0 && u.kept.Some? then Retry
    else if !u.nullConfirmed then
      if !u.nullSent || u.nextAllowed.None? || now > u.nextAllowed.value then SendNull else Idle
    else if u.nextAllowed.Some? && now < u.nextAllowed.value then Idle
    else Report
  }

  /** Whether a timeout gives the events back: a deferred read takes them over, or the retries
      have run out. */
  predicate GivesUp<B>(u: Unsol<B>, pace: Pace, readWaiting: bool) {
    (readWaiting && u.nullConfirmed) || u.retries + 1 > pace.maxRetries
  }

  function OnTimeout<B>(u: Unsol<B>, pace: Pace, readWaiting: bool, now: int): Unsol<B> {
    if GivesUp(u, pace, readWaiting) then
      u.(awaiting := false, retries := 0, kept := None, nextAllowed := Some(now + pace.confirmTimeout))
    else u.(awaiting := false, retries := u.retries + 1)
  }

  function OnRetry<B>(u: Unsol<B>, pace: Pace, now: int): Unsol<B> {
    u.(awaiting := true, awaitSeq := u.seqNo, deadline := now + pace.confirmTimeout)
  }

  function OnSend<B>(u: Unsol<B>, pace: Pace, body: B, isNull: bool, now: int): Unsol<B> {
    var next := SeqPlus(u.seqNo, 1);
    u.(seqNo := next, awaiting := true, awaitSeq := next, deadline := now + pace.confirmTimeout,
       nullSent := u.nullSent || isNull, kept := Some(body))
  }

  predicate Accepts<B>(u: Unsol<B>, seqNo: SeqNum) {
    u.awaiting && seqNo == u.awaitSeq
  }

  function OnConfirm<B>(u: Unsol<B>, seqNo: SeqNum): Unsol<B> {
    if Accepts(u, seqNo) then
      u.(awaiting := false, retries := 0, kept := None, nullConfirmed := true)
    else u
  }

  /** What every step keeps: a response awaiting confirmation is the one kept, under the
      current number, and one kept past its deadline is owed a retry. */
  ghost predicate Consistent<B(!new)>(u: Unsol<B>) {
    && (u.awaiting ==> u.kept.Some? && u.awaitSeq == u.seqNo)
    && (u.kept.Some? && !u.awaiting ==> u.retries > 0)
  }
}
