# A model of go-dnp3's confirmed-event machinery and of the master that talks to it

go-dnp3 implements both ends of DNP3 (IEEE Std 1815-2012) at the application layer. An outstation queues
events, reports them in responses it sends one fragment at a time, and may only forget them once the
master has confirmed them. A master polls, takes unsolicited reports, issues commands and moves files.

This project models those two ends in Dafny and proves what they promise over whole runs: every theorem
is for every input, every run or every reachable state of the model. The sessions, the event buffer, the
response builder, the task queue, the file slot, the freeze queue, the bus and the line arbiter are classes
whose methods update their fields as the Go code does; each method is proved equal to a function on values,
and the theorems are about those functions. Nothing here was executed.

## How it is organised

| files | what they hold |
|---|---|
| `Protocol.dfy`, `Wire.dfy`, `Objects.dfy`, `Codecs.dfy`, `Packed.dfy` | octets, sequence numbers, object headers and the parser that walks them, sizes and times, self-delimiting encodings, bit packing |
| `EventBuffer.dfy`, `OctetStrings.dfy` | the event buffer, its accounting and its overflow latch; octet strings and the storage their events share |
| `EventFragments.dfy`, `EventMeaning.dfy`, `UnsolicitedFit.dfy` | splitting events over fragments, what a master makes of each, and how many fit one |
| `StaticRanges.dfy`, `StaticMeaning.dfy`, `StaticPoints.dfy`, `MasterDispatch.dfy` | splitting static ranges, the variation each point is reported in, and the master's decoder, the inverse of both builders |
| `Unsolicited.dfy`, `Outstation.dfy`, `OutstationSession.dfy` | the outstation session, as functions and as a class |
| `OutstationRuns.dfy`, `OutstationSafety.dfy` | exclusion, repeated requests, and that no event is lost |
| `OutstationLimits.dfy`, `Reconnection.dfy` | exactly when one is, with a run for each way |
| `UnsolicitedDelivery.dfy`, `ResponseSeries.dfy`, `LateFragments.dfy` | both parties over channels that lose (and, for responses, repeat) messages, and what a late fragment does |
| `Commands.dfy`, `CommandRequests.dfy`, `SelectOperate.dfy`, `ControlExchange.dfy` | control requests, select-before-operate, and both ends of a select-and-operate |
| `Scheduler.dfy`, `MasterTasks.dfy`, `MasterSession.dfy` | the master's queue, chains and callers |
| `FileTransfer.dfy`, `FreezeSchedules.dfy`, `Deadbands.dfy`, `Multidrop.dfy` | file transfer, scheduled freezes, deadbands, a shared line |

## Where the code falls short of what it is meant to do

Each of these is stated in the model as an exact condition, with the behaviour on the other side of it.

- A read that arrives between an unsolicited timeout and its retry is not held back. If it is answered with
  events, confirming the answer removes events that only the unsolicited response carried
  (`GapReadLoses`, and a run in `GapReadLosesOne`).
- A broadcast read selects events that no response owns, and the next response confirmed, to a read or
  unsolicited, removes them, unless nothing it selected could be encoded (`BroadcastReadLoses`,
  `BroadcastReadLosesOne`). It is not held back while an unsolicited response awaits its confirmation either, and
  then that confirmation removes them (`BroadcastWhileAwaitingLoses`, `BroadcastWhileAwaitingLosesOne`).
- A malformed request replaces a response in progress without handing its events back, and the next response
  confirmed removes them (`MalformedRequestLoses`, `MalformedRequestLosesOne`). What it was answered with also
  replaces what a repeat of the request before it is answered with (`MalformedReplacesAnswer`).
- A connection that drops while an unsolicited response is unconfirmed leaves its events selected. After the
  next connection's first confirmed response they are gone, unconfirmed (`ReconnectLoses`, `ReconnectLosesOne`).
- A later fragment of one response that arrives during the next request, under whose number it may well be, is
  confirmed and not delivered, and the outstation takes the confirmation for its new response's
  (`LateFragmentConfirms`, and a run in `LateFragmentLosesOne`).
- An event raised for an octet string shares the point's storage, so a later update that fits the storage
  rewrites the event while it is queued (`HeldStringKept`, `SecondOverwritesFirst`).
- Unsolicited numbers are compared only with the last one seen: sixteen transmissions later a new response
  is taken for a repeat, confirmed and not delivered (`TakenForRepeat`, `SixteenApartLoses`).
- A first fragment left over from an earlier exchange, under the number of a new request, is taken for the
  start of its answer (`StaleTaken`); `StaleDoesNothingIff` says which leftovers do nothing at all.
- A time base that does not fit 48 bits is clamped, and the times relative to it are off by as much
  (`TimesComeBackIff`).
- A master cannot tell an empty octet string from one zero octet (`StringsToldApart`).
- More than 255 commands of a kind in a row, all to low indexes, are sent with a truncated count
  (`RequestSurvives`, `OneTooManyIsLost`).
- A file of more than 2^31 blocks cannot be transferred, since a block's number is sent in 31 bits, and neither
  can one with a block of more than 65527 octets, which a fragment of more than 65559 allows, since its size is
  sent in 16 (`TransferSucceeds`, `LargeBlockFails`, `NegotiatedBlockFits`).
- A file created before 1970 or in its first millisecond, or past what 48 bits of milliseconds reach, or
  within a millisecond, or named with more than 65535 octets, is not listed as it is (`EntryRoundTrip`).

## Model

| member | source | states |
|---|---|---|
| EventBuffers.SelectThenRelease | outstation/eventbuffer.go:277-299 | selecting and then releasing a tail of what was selected leaves the same events, marks and counters as a shorter selection |
| EventBuffers.ApplyValid | outstation/eventbuffer.go:104-340 | every operation keeps the buffer within capacity and strictly ordered by event number |
| EventBuffers.HistoryIsAccounted | outstation/eventbuffer.go:104-340 | over every sequence of operations, each event ever added is held, confirmed, lost or wiped, exactly one of them, and none of the buffer's own operations alters a held event but for its mark |
| EventBuffers.Conservation | outstation/eventbuffer.go:104-340 | over every sequence of operations, added = held + confirmed + lost + wiped |
| EventBuffers.LossStaysIndicated | outstation/eventbuffer.go:192-255 | a loss after the last selection keeps overflow latched through the next confirm, whatever else happens but a reset or an explicit clear |
| EventBuffers.SelectedAfterSelect | outstation/eventbuffer.go:192-214 | what is selected after a selection is what was before and what it returned |
| EventBuffers.EventBuffer.Enqueue | outstation/eventbuffer.go:104-116 | adds an event, dropping the oldest at capacity, as the specification function says |
| EventBuffers.EventBuffer.Count | outstation/eventbuffer.go:119-130 | the number of events held in any of the classes, selected or not |
| EventBuffers.EventBuffer.SelectWhere | outstation/eventbuffer.go:192-214 | marks and returns the oldest unselected matches up to a limit, and no others |
| EventBuffers.EventBuffer.ConfirmAll | outstation/eventbuffer.go:232-255 | removes exactly the selected events and clears the latch only if nothing was dropped since the selection |
| EventBuffers.EventBuffer.UnselectAll | outstation/eventbuffer.go:259-271 | returns every selected event to the queue |
| EventBuffers.EventBuffer.ReleaseSome | outstation/eventbuffer.go:277-299 | returns just the named events to the queue |
| EventBuffers.EventBuffer.DiscardSome | outstation/eventbuffer.go:306-332 | removes just the named events and counts them as drops |
| EventBuffers.EventBuffer.Wipe | outstation/eventbuffer.go:335-340 | empties the buffer |
| OctetStrings.HeldStringKept | outstation/database.go:582-605 | over every sequence of later updates of an octet string, a queued event says the same throughout if and only if each update, up to the first that outgrows the storage they share, agrees with it on the octets both have |
| OctetStrings.SecondOverwritesFirst | outstation/database.go:596-603 | after "ab" and then "cd" the first event says "cd" |
| OctetStrings.OctetPoint.Store | outstation/database.go:598 | the octets go over the storage the point has, if they fit it, and otherwise into new storage |
| OctetStrings.OctetPoint.UpdateText | outstation/database.go:582-605 | the point, its storage and the events that hold it are what the specification function of an update says |
| Wire.HeaderRoundTrip | internal/app/objheader.go:258-310 | a well-formed object header parses back from its octets, whatever follows |
| Wire.ParseEncodeAll | internal/app/fragment.go:39-74 | parsing the octets of any list of well-formed headers gives the list |
| Wire.ParsedWellFormed | internal/app/objheader.go:96-300 | whatever octets parse, the headers they parse into are well formed |
| MasterDispatch.DecodeRun | master/dispatch.go:113-146 | the decoding loop yields each object in order, at the index its prefix or the range gives it, and stops where the data ends |
| EventFragments.ResponseBuilder.FlushCurrent | outstation/response.go:54-59 | ends the fragment in progress if it holds anything |
| EventFragments.ResponseBuilder.AppendHeader | outstation/response.go:62-67 | appends a header, starting a new fragment when it does not fit |
| EventFragments.ResponseBuilder.Finish | outstation/response.go:71-77 | the octets of every body, and one empty body when there is none |
| EventFragments.EmitRun | outstation/response.go:705-762 | one run of events, chunk by chunk, as the specification function lays it out, with what could not be sent |
| EventFragments.EmitEvents | outstation/response.go:649-766 | a whole event list, run by run, as the specification function lays it out, with what could not be sent |
| EventMeaning.SentAndUnsentPartition | outstation/response.go:649-766 | the encoded and the unsent events split the input between them, in order |
| EventMeaning.WindowTimeExact | outstation/response.go:842-863 | within the window of a common time, an event's offset is not clamped, and its time comes back within a millisecond if and only if clamping the common time leaves it alone or moves it one millisecond toward what the offset leaves off |
| EventMeaning.CtoExact | outstation/response.go:825-836 | the common time comes back as the nearest one 48 bits hold, and as it was if and only if it fits |
| EventMeaning.FragmentsPreserveMeaning | outstation/response.go:649-863 | for every event list, its times included, and fragment size: sent and unsent split the input; the fragments carry the sent ones once each in order; each fragment is within the limit; and each decoded alone gives every event it carries at its index, with its octets and its own offset from the common time of its chunk |
| EventMeaning.TimesComeBackIff | outstation/response.go:825-863 | which relative times a master gets within a millisecond: exactly those whose chunk has a common time that clamping keeps, or misses by one millisecond in the right direction |
| EventMeaning.RepresentableTimesComeBack | outstation/response.go:825-863 | when 48 bits hold the millisecond of every event, every relative time comes back, however the events are split |
| EventMeaning.LoneTimeComesBackIff | outstation/response.go:825-863 | the time of an event sent alone comes back if and only if it is after -1 ms and no later than the last millisecond of 48 bits |
| UnsolicitedFit.FitsOneExact | outstation/unsolicited.go:168-189 | a prefix fits one fragment exactly when the octets it needs do |
| UnsolicitedFit.FitsOneMonotone | outstation/unsolicited.go:168-189 | if a prefix fits one fragment so does every shorter one, which is what the search relies on |
| UnsolicitedFit.FitCountIsLargest | outstation/unsolicited.go:168-189 | the search returns the largest prefix that fits one fragment |
| UnsolicitedFit.EventsThatFit | outstation/unsolicited.go:171-189 | the binary-search loop computes that count |
| OutstationSession.Session.Advance | outstation/session.go:1740-1794 | sends the next fragment, or finishes, exactly when nothing holds it back |
| OutstationSession.Session.Finish | outstation/session.go:1825-1845 | closes a response out, dropping its events and the indications it reported |
| OutstationSession.Session.Abandon | outstation/session.go:1807-1819 | gives up a response and hands its events back |
| OutstationSession.Session.CheckTimeout | outstation/session.go:778-792 | an unconfirmed response past its deadline is dropped and every selection undone |
| OutstationSession.Session.Confirmed | outstation/session.go:1120-1137 | takes a confirmation only under the number awaited |
| OutstationSession.Session.Read | outstation/session.go:1140-1286 | selects, builds, discards what cannot be sent and starts the response |
| OutstationSession.Session.Start | outstation/session.go:1709-1727 | stores and starts a response; a broadcast gets none |
| OutstationSession.Session.Replay | outstation/session.go:1673-1695 | starts the stored response again without carrying anything out |
| OutstationSession.Session.Reject | outstation/session.go:1020-1044 | answers a malformed request with an indication |
| OutstationSession.Session.Defer | outstation/session.go:1056-1076 | holds a read back while an unsolicited response is unconfirmed |
| OutstationSession.Session.ResumeDeferred | outstation/session.go:1080-1090 | answers the read held back once nothing is unconfirmed |
| OutstationSession.Session.DispatchRequest | outstation/session.go:799-994 | dispatches one request: malformed, confirmation, repeat or new |
| OutstationSession.Session.UnsolicitedConfirmed | outstation/unsolicited.go:325-346 | takes an unsolicited confirmation only under the number awaited |
| OutstationSession.Session.SendUnsolicited | outstation/unsolicited.go:263-308 | cuts the selection to one fragment, hands the rest back and sends |
| OutstationSession.Session.Poll | outstation/unsolicited.go:97-260 | the unsolicited part of a tick: time out, give up, retry, announce or report |
| OutstationSession.Session.ServeAll | outstation/session.go:625-736 | a whole connection behaves as the specification run says, state and record alike |
| OutstationRuns.NeverBothAwaiting | outstation/session.go:1056-1090 | in every reachable state an unsolicited response awaiting confirmation and a solicited response carrying events never coexist, whatever the peer sends |
| OutstationRuns.RepeatsRunOnce | outstation/session.go:1648-1669 | over every run, what was carried out is what was asked with back-to-back repeats removed |
| OutstationRuns.RepeatsAnswerAlike | outstation/session.go:1648-1727 | from any state a connection reaches, after a request is taken up, as it arrives or resumed, and over any run of repeats, confirmations, timeouts, updates and unsolicited traffic: nothing further is carried out, every solicited fragment sent is a fragment of the answer the request got, at its place and under its number, and each repeat starts that answer over from its first fragment, with at least its request errors |
| OutstationRuns.MalformedReplacesAnswer | outstation/session.go:1020-1044 | the limit of that: a malformed request replaces the stored answer with an empty one and keeps the stored request |
| OutstationSafety.TransmissionIsExact | outstation/unsolicited.go:161-308 | an unsolicited transmission adds to the selection exactly the events its one body carries, none of which was selected |
| OutstationSafety.EventsAreNeverLost | outstation/session.go:1740-1845 | over every run, broadcasts and malformed requests included, that takes up none of the three kinds of request that cost an event: an event is confirmed away only just after the last confirmation of a solicited response that carried it, every fragment of which was confirmed under its number with nothing else solicited sent since its first, or just after the confirmation of the latest unsolicited response, which carried it |
| OutstationSafety.SolicitedOnlyRuns | outstation/session.go:1120-1137 | with unsolicited reporting off the gap does not arise: over every run without a broadcast read or a malformed request that costs an event, the same holds, and nothing is selected whenever no response with events is in progress |
| OutstationSafety.UnsolicitedOnlyRuns | outstation/unsolicited.go:97-346 | over every run without reads, whatever else arrives, an event leaves only just after the unsolicited response last sent, which carried it, was confirmed under its own number |
| OutstationLimits.JustifiedExactly | outstation/session.go:1120-1137 | when a response has been wholly confirmed, what that justifies removing is exactly what it carried |
| OutstationLimits.JustifiedByReport | outstation/unsolicited.go:325-346 | when the unsolicited response last sent is confirmed, what that justifies removing is exactly what it carried |
| OutstationLimits.SentIffSomeFit | outstation/response.go:649-766 | an event list is answered with some event if and only if some run of it has an encoding that fits an empty fragment |
| OutstationLimits.ReadThenConfirmed | outstation/session.go:1140-1286 | from any state, a new read answered with events and wholly confirmed loses nothing if and only if nothing was selected when it was taken up |
| OutstationLimits.RepeatThenConfirmed | outstation/session.go:1673-1695 | a repeated read answered with stored events and wholly confirmed loses nothing if and only if nothing is selected but what it carries |
| OutstationLimits.ReportThenConfirmed | outstation/unsolicited.go:263-346 | from any state, a new unsolicited response confirmed loses nothing if and only if nothing was selected when it was sent |
| OutstationLimits.GapReadLoses | outstation/unsolicited.go:192-260 | in any state reached without loss, a read answered with events and wholly confirmed has lost an event if and only if something was selected that its answer does not carry, which is only in the gap |
| OutstationLimits.GapReadLosesOne | outstation/unsolicited.go:192-260 | a run of any reporting outstation, from a fresh connection, in which that happens |
| OutstationLimits.BroadcastReadLoses | outstation/session.go:1709-1727 | after a broadcast read, however the unsolicited exchange then stands, the next response confirmed, to a read or unsolicited, has lost an event if and only if some of what the broadcast selected has an encoding that fits an empty fragment |
| OutstationLimits.BroadcastWhileAwaitingLoses | outstation/session.go:1056-1076 | a broadcast read while an unsolicited response awaits its confirmation: once that comes an event has been lost if and only if the read selected one that the response does not carry |
| OutstationLimits.BroadcastWhileAwaitingLosesOne | outstation/session.go:1056-1076 | a run of any reporting outstation in which that happens |
| OutstationLimits.BroadcastReadLosesOne | outstation/session.go:1709-1727 | a run of any outstation with fragments of ten octets or more in which that happens |
| OutstationLimits.MalformedRequestLoses | outstation/session.go:1020-1044 | after a malformed request is answered, however the unsolicited exchange then stands, the next response confirmed, to a read or unsolicited, has lost an event if and only if one was selected: with no unsolicited events in hand, if and only if a response in progress had events selected |
| OutstationLimits.MalformedRequestLosesOne | outstation/session.go:1020-1044 | a run of any outstation with fragments of ten octets or more in which that happens |
| Reconnection.ReconnectLoses | outstation/session.go:640-647 | after a connection drops and another is made, the next response confirmed, to a read or unsolicited, has lost an event if and only if one was selected for an unsolicited response when the connection dropped |
| Reconnection.ReconnectLosesOne | outstation/session.go:640-647 | a run of any reporting outstation, over two connections, in which that happens |
| UnsolicitedDelivery.DeliveredExactlyOnce | outstation/unsolicited.go:97-346 | both parties over a channel that may lose messages, while fewer than sixteen apart: each body is delivered at most once, in order and unaltered, and every data body seen confirmed was delivered exactly once |
| UnsolicitedDelivery.TakenForRepeat | master/session.go:778-796 | a new response is taken for a repeat, confirmed and not delivered, if and only if it is a multiple of sixteen ahead of the last seen |
| UnsolicitedDelivery.TakenForCurrent | outstation/unsolicited.go:325-346 | a confirmation is taken for the response awaiting one if and only if it is a multiple of sixteen behind it |
| UnsolicitedDelivery.SixteenApartLoses | master/session.go:778-796 | a run, under any pacing, in which a data body is confirmed and never delivered |
| ResponseSeries.AcceptedFormASeries | master/session.go:677-775 | whatever the peer sends, the accepted fragments carry t.seq, t.seq+1, ... mod 16, FIR on the first alone, FIN on nothing but the last, and the request completes exactly when that one is accepted |
| ResponseSeries.StaleDoesNothingIff | master/session.go:677-775 | whatever is left over from earlier exchanges leaves a new request as it was sent, and makes the master confirm nothing, if and only if none of it is under its number and a first fragment, one that asks for a confirmation, or garbled |
| ResponseSeries.StaleTaken | master/session.go:677-775 | one that is: a first fragment is delivered as the start of the answer, and a later one is confirmed and not delivered |
| LateFragments.LateFragmentConfirms | master/session.go:697-725 | a later fragment of an earlier response, under the new request's number, is confirmed undelivered, and that confirmation makes the outstation drop the events of its new response |
| LateFragments.LateFragmentLosesOne | master/session.go:697-725 | a run of both ends from empty channels, of request 5 and then 6, in which that costs an event the master was never delivered |
| Exchange.AdvanceShape | outstation/session.go:1740-1794 | a response moves on by at most one fragment, which is the next piece under its number, and waits whenever it asked for a confirmation |
| Exchange.DispatchShape | outstation/session.go:799-994 | a request, new or repeated, is answered from the first fragment with the bodies then stored for it |
| Exchange.DeliveredIsAPrefix | outstation/session.go:1740-1794 | the whole outstation session and the master over channels that lose and repeat, for responses of any length: what the master delivers is a prefix of the one response built, and all of it when the request completes |
| Exchange.RemovedWasDelivered | outstation/session.go:1120-1137 | over every run of such an exchange, when a confirmation makes the outstation remove the events of the response, the master has delivered every fragment of it |
| Commands.ExecuteCommands | outstation/command.go:248-347 | the walk over a request asks the handler about each known command within the limit the selection let through, gives each command one status, and echoes each object with it |
| Commands.EchoReadsBack | master/command.go:227-256 | the master reads off the echo of any request the status of each command in it, in order |
| Commands.StatusesReachTheMaster | outstation/command.go:248-347 | from the octets of any request that parses, over the wire, to the statuses the master ends up with |
| Commands.ParseCommandStatuses | master/command.go:227-256 | the loop reads the last octet of each whole object of each command header |
| CommandRequests.BuildCommands | master/command.go:177-224 | the grouping loops build the specified headers, and fail exactly when they outgrow the request |
| CommandRequests.BuiltNames | master/command.go:177-224 | the headers built name the commands given, each once, in order, at its own index |
| CommandRequests.RequestSurvives | master/command.go:177-224 | the request parses back into those headers if and only if every run fits its count |
| CommandRequests.OneTooManyIsLost | master/command.go:177-224 | 256 analog output commands at indexes 0 to 255 fit a request of the default size and do not parse back |
| CommandRequests.CommandsRoundTrip | master/command.go:177-256 | a list of commands ends up with one status each, as the outstation judged them, in order |
| SelectOperate.CallsAreFor | outstation/command.go:248-347 | every handler call of a request is for one of its commands and of its kind, and none is made when the selection refused it |
| SelectOperate.AllAgreed | outstation/command.go:215-240 | all statuses a success means the handler was asked about every command and agreed |
| SelectOperate.SelectBeforeOperate | outstation/command.go:142-240 | over every run, repeats and reconnections included: an after-select call is made only when the SELECT or OPERATE carried out just before was a SELECT accepted in full, with the same octets, one number earlier and in its window, and only for points accepted then |
| SelectOperate.OneOperatePerSelect | outstation/command.go:178-212 | between two operates that reached the handler there is a SELECT accepted in full |
| SelectOperate.OperateFollowsSelect | outstation/command.go:142-163 | the operate right after an accepted select, same octets, next number, in the window, is let through, and consumes the selection |
| SelectOperate.CommandSession.Selects | outstation/command.go:215-240 | a select reserves when every command is accepted and clears the reservation otherwise |
| SelectOperate.CommandSession.Operates | outstation/command.go:178-212 | an operate is checked against the selection and consumes it either way |
| SelectOperate.CommandSession.Receive | outstation/session.go:799-994 | a request as it arrives: unparsed, repeated or carried out, and what a command is answered with |
| ControlExchange.SuccessMeansOnce | master/command.go:314-342 | both ends, from any state of the outstation and with any number of copies of either request: a success means the handler was asked to select (unless the select was taken for a repeat) and then to operate each command once, in order, and agreed; after a refused select nothing is operated |
| ControlExchange.WindowDecides | outstation/command.go:142-163 | after a select that succeeded now, an operate inside the window has the handler's own outcome, and one past it asks nothing and fails |
| ControlExchange.AskedOnce | outstation/command.go:248-347 | when every status is a success the handler was asked about each command exactly once, in order |
| Scheduler.TaskQueue.Push | master/task.go:322-330 | queues a task in its place by due time, priority and push order |
| Scheduler.TaskQueue.Peek | master/task.go:339-344 | the root of the heap is the next to run |
| Scheduler.TaskQueue.Pop | master/task.go:332-337 | takes the next to run and leaves the rest in order |
| Scheduler.TaskQueue.Clear | master/task.go:355-369 | keeps exactly the periodic tasks, in order, and hands over the rest |
| Scheduler.RootFirst | master/task.go:371-403 | nothing in the heap comes before its root |
| MasterTasks.TasksAccounted | master/session.go:475-591 | over every run, across connections and restarts: each caller waits on exactly one task or was told exactly once; each periodic scan is there exactly once; the startup flag is up exactly when one startup step is queued or in flight; the queue is in order; a successor is the next request on the wire; an operate follows only a select that succeeded in full |
| MasterTasks.HandOn | master/session.go:755-775 | completing a task that is handed on changes nothing, and its successor takes over its caller |
| MasterSession.Session.Startup | master/session.go:270-300 | drops one-shot tasks, failing their callers, and queues one startup step |
| MasterSession.Session.Observe | master/session.go:650-674 | a restart indication starts over unless that is under way |
| MasterSession.Session.Complete | master/session.go:558-581 | reschedules a periodic task, lowers the startup flag when due, and tells the caller |
| MasterSession.Session.Send | master/session.go:491-543 | sends under the next number, or completes what cannot be sent or will not be answered |
| MasterSession.Session.RunDue | master/session.go:475-485 | sends the next task due when nothing is in flight |
| MasterSession.Session.Fail | master/session.go:584-591 | fails the task in flight |
| MasterSession.Session.Take | master/session.go:677-775 | judges a fragment against the series, confirms it, and completes or chains on the last |
| Packed.PackedRoundTrip | objects/packed.go:15-107 | one-bit and two-bit values packed into octets are read back, each at its place |
| Packed.AppendPacked | objects/packed.go:68-95 | the loop that ors values into place packs them |
| StaticRanges.EmitPoints | outstation/response.go:304-400 | one run of points, as many to a header as fit, as the specification function lays it out |
| StaticRanges.EmitRange | outstation/response.go:86-132 | a range of points in given variations, clipped and split into runs, as the specification function lays it out; it terminates for every range |
| StaticMeaning.HeaderSeen | outstation/response.go:475-492 | a range header shows a master exactly its points, at their indexes |
| StaticMeaning.BuildRangeSeen | outstation/response.go:501-552 | for either way of reporting, and added to any response: what a master sees grows by exactly the points that are to be reported, and every fragment stays within the limit |
| StaticMeaning.StaticRangeReported | outstation/response.go:86-132 | for every database of at most 65536 points, range and fragment size, and either way of treating a point that does not fit: each existing point that is to be reported is reported once, ascending, in its variation, within the limit, and decodes back; all of them when all fit |
| StaticPoints.NoFlagHidden | outstation/response.go:222-254 | whatever range and variation are asked for, everything decoded in a variation without flags is a point whose flags are normal, and a normal point comes in the variation asked for or configured |
| StaticPoints.StringsReported | outstation/response.go:501-565 | every octet string of a range before the first too long for a fragment comes back once, in order, at its index, with its own octets, an empty one as one zero octet |
| StaticPoints.StringsToldApart | outstation/response.go:518-520 | a master can tell two strings apart unless one is empty and the other one zero octet |
| FileTransfer.BlockRoundTrip | objects/file.go:216-239 | a block object comes back as it was, its number modulo 2^31 |
| FileTransfer.FileServer.Open | outstation/file.go:402-530 | opens one transfer at a time, under a new handle and with the block size negotiated |
| FileTransfer.NegotiatedBlockFits | outstation/file.go:513-530 | a block of the size negotiated can be sent if and only if sixteen bits hold its size and the fragment is of more than 32 octets or happens to hold it |
| FileTransfer.EveryBlockSendable | outstation/file.go:372-379 | over every run of a transfer every block served fits a fragment of more than 32 octets, and in one of at most 65559 none is left out of its answer |
| FileTransfer.FileServer.Read | outstation/file.go:713-807 | serves the next block, flagged last when nothing follows, refuses any other, and answers without data when the block is too large for its size prefix |
| FileTransfer.FileServer.Write | outstation/file.go:810-863 | accepts the next block and refuses any other |
| FileTransfer.FileServer.Close | outstation/file.go:546-597 | a write that did not arrive whole is not a success, and the handle is released |
| FileTransfer.TransfersAreExact | master/fileapi.go:43-120 | over every run of losses, failures and expiries: a read writes out only a prefix of the file, and all of it on success; a write succeeds only if the file landed is the source and as long as declared; the last flag is on the final block alone |
| FileTransfer.TransferSucceeds | master/file.go:119-286 | with every request answered a transfer ends after its blocks, and succeeds if and only if the block numbers fit 31 bits, the longest block fits its size prefix and, written, the master's request, and a write is as long as declared |
| FileTransfer.LargeBlockFails | internal/app/freeformat.go:32-37 | a read of 65535 octets in one block, with fragments of 70000, fails |
| FileTransfer.ReadBlockCount | outstation/file.go:784-807 | how many blocks a file takes: none is empty but the only one |
| Deadbands.NeverDrifts | outstation/database.go:353-499 | after every sequence of updates of analogs, analog outputs, frozen analogs, counters and frozen counters and of freezes and clearing freezes of any range, every point is within its deadband of the last event it raised, and every frozen counter is what it last reported |
| Deadbands.AnalogSteady | outstation/database.go:418-499 | an update raises no event if and only if the point has reported before, its flags are unchanged and the value is within the deadband of the last event |
| Deadbands.FrozenSteady | outstation/extended_database.go:27-42 | a frozen analog stays within its deadband of its last event, and a freeze always reports |
| Deadbands.CounterSteady | outstation/database.go:362-377 | a counter stays within its deadband of its last event |
| Deadbands.Database.SetAnalogAt | outstation/database.go:418-436 | stores a value at its index, as the specification says, and says whether that raised an event |
| Deadbands.Database.SetCounterAt | outstation/database.go:362-377 | the same for a counter |
| Deadbands.Database.SetFrozenAt | outstation/extended_database.go:27-42 | the same for a frozen analog |
| Deadbands.Database.FreezeAnalogRange | outstation/extended_database.go:49-66 | each frozen analog in range takes and reports its analog's value, clearing zeroes the analog, and nothing else changes |
| Deadbands.Database.FreezeCounterRange | outstation/database.go:703-715 | the same for counters |
| FreezeSchedules.RanKeeps | outstation/freeze.go:119-154 | a schedule that ran is stamped with the time it was due and lands strictly after now, at most one interval ahead, on its beat |
| FreezeSchedules.TickKeeps | outstation/freeze.go:119-154 | after a tick each schedule not due is kept as it was, each due one-shot is done, each other due one is kept, run once more, and there are no others; every kept one is strictly later than now |
| FreezeSchedules.SchedulesKeepTime | outstation/freeze.go:36-154 | over every run at most sixteen are held, every stamp is the first time plus a whole number of intervals, strictly increasing, and a one-shot runs exactly once |
| FreezeSchedules.FreezeQueue.Schedules | outstation/freeze.go:84-116 | queues a freeze unless it is past, already queued or one too many |
| FreezeSchedules.FreezeQueue.RunFreezes | outstation/freeze.go:119-154 | performs what is due and keeps the rest |
| Multidrop.ConflictIsAmbiguity | multidrop/multidrop.go:152-163 | two stations conflict if and only if some unicast frame would be taken by both |
| Multidrop.FramesFindTheirStation | multidrop/multidrop.go:505-551 | after any additions, removals, connections and drops a unicast frame goes to at most one station, a broadcast to exactly the outstations connected, and on a closed bus nothing to anyone |
| Multidrop.LinePassesInTurn | multidrop/arbiter.go:47-130 | over every run the line passes to another master only after a release, a whole reply to the holder, a turnaround of silence from it, or the bus shutting |
| Multidrop.SharedBus.AddStation | multidrop/multidrop.go:255-275 | a station is added unless unusable or in conflict |
| Multidrop.SharedBus.Route | multidrop/multidrop.go:505-512 | the stations a frame is for that have a connection, in order |
| Multidrop.Arbiter.TryAcquire | multidrop/arbiter.go:47-68 | takes a free, own or expired hold, lets anyone pass when there is no turnaround, and otherwise changes nothing |
| Multidrop.Arbiter.Observes | multidrop/arbiter.go:71-91 | a whole reply ends the hold and anything less extends it |
| Multidrop.Arbiter.Releases | multidrop/arbiter.go:94-100 | gives up the hold of whoever has it, and nobody else's |
| Codecs.PrintThenParse | objects/dataset.go:17-41 | dataset elements that can be printed parse back |
| Codecs.ParseThenPrint | objects/dataset.go:17-41 | octets that parse into elements print back as they were |
| Codecs.ParseDescriptor | objects/dataset.go:17-28 | the parsing loop does what the specification says, errors included |
| Codecs.EntryRoundTrip | objects/file.go:303-337 | for any creation time, a directory entry comes back if and only if its name is at most 65535 octets and its time, if any, is a whole number of milliseconds after the start of 1970 that 48 bits hold |
| Codecs.ListingRoundTrip | objects/file.go:368-379 | a listing comes back if and only if every entry of it does |
| Codecs.EntriesTakeRoom | objects/file.go:303-379 | on any input, each entry takes at least twenty octets |
| Codecs.NarrowIntRoundTrip | objects/attribute.go:113-214 | every 64-bit integer comes back, signed or not, from the narrowest width that holds it |
| Codecs.ListRoundTrip | objects/attribute.go:146-248 | an attribute list can be sent if and only if it has at most 255 items, and then comes back |

## Left out

- Scope of the event-safety runs: one served connection that starts with nothing selected and no response in
  progress, secure authentication off. A solicited response left in progress when a connection drops is kept by the
  code into the next; beyond `ReconnectLoses` no run goes on from there.
- OutstationSafety.EventsAreNeverLost: holds for runs that take up none of three kinds of request, because the code
  loses events to each, as the first three points above state exactly: a read answered with events in the gap between
  an unsolicited timeout and its retry, a broadcast read that selects events nothing answers for, and a malformed
  request answered over a response that has events selected.
- UnsolicitedDelivery.DeliveredExactlyOnce: holds while sender and receiver stay fewer than sixteen apart; beyond
  that it is false of the code.
- Exchange.DeliveredIsAPrefix: an exchange begins with empty channels (what is left over is the subject of
  `StaleDoesNothingIff` alone) and with the outstation neither part way
  through sending nor holding an older read, and one message is handled per turn of the loop.
- UnsolicitedFit.FitCountIsLargest: for at most 255 events that each fit an empty fragment with a two-octet index;
  the session never offers more than 64.
- OutstationSession.Session.DispatchRequest: what a request's objects ask for is an input; broadcast confirmations
  and authentication are not modelled.
- Wire.ParsedWellFormed: of the headers modelled, which have no all-objects range, no four-octet range and no size
  prefix of one or four octets; a read's headers, which may have the first, enter the session as what they ask for.
- StaticRanges.EmitRange: the variation of each point is an input here; `StaticPoints` chooses it.
- SelectOperate.SelectBeforeOperate: the command part of the session keeps its own record of the request last acted
  on, which in the code is the one record the whole session keeps.
- MasterTasks.TasksAccounted: a task in a chain other than startup and select-operate names its successor freely.
- FileTransfer.TransferSucceeds: the open and close requests are taken to fit the master's fragments, and what either
  end can receive in one is not modelled: a message too large for it is one that is lost.
- FileTransfer.TransfersAreExact: the master's chain of closures is modelled on values; the abort or close sent
  after a failure, directory listing by file and file authentication are not modelled.
- Deadbands.NeverDrifts: over exact reals and not-a-number, not over floating point; a deadband stays as it is.
- OctetStrings.HeldStringKept: how much storage the runtime allocates is an input.
- Scheduler.TaskQueue.Pop: the heap of the standard library is modelled by its sift-up and sift-down.
- Multidrop.Arbiter.TryAcquire: blocking and waking are modelled as one attempt at a time.
- Events recorded for operated controls (groups 13 and 43), device attributes beyond integers and lists, virtual
  terminals, time synchronisation and the write functions enter only as abstract effects of a request.
- Secure authentication, which rests on cryptography and randomness.
- Link and transport layers, sockets, TLS, serial lines, dialling and back-off.
- Floating-point codecs and the generated fixed-layout codecs, which are encoders of known size here.
- The command-line programs, the decoder's text output, logging and statistics.
- File access, the file and command handlers and the application, which are callbacks with a record of their calls.
- Four-octet ranges and the size prefixes of one and four octets, which neither end writes, and the all-objects range.
