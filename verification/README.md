# Exactly-once integration, event streams and cluster membership

This project models the parts of veracity that have to survive crashes, ambiguous failures and concurrency, and proves
what they guarantee over every run:

- the integration supervisor, a write-ahead journal protocol that accepts a command, has it handled, and appends the
  events that it produced to an event stream (`internal/integration/supervisor.go`);
- the event-stream worker, which appends each batch of events unless it finds it stored already
  (`internal/eventstream/worker.go`);
- the event-stream supervisor, which starts workers and forwards requests (`internal/eventstream/supervisor.go`);
- the driver that all of these state machines run on (`internal/fsm`);
- the rendezvous partitioner over a sorted slice (`internal/cluster/partition.go`, `internal/optimistic/orderedset.go`);
- the observer of the cluster registry (`internal/cluster/registry.go`).

## How it is built

| file | what it holds |
|---|---|
| `Common.dfy` | identifiers, envelopes, requests, the result of a sequence of steps |
| `IntegrationJournal.dfy` | the records of a handler's journal, their grammar, and the scan that recovery makes |
| `StreamJournal.dfy` | the records of a stream, how they tile the offsets, binary search and forward scan |
| `Protocol.dfy` | the protocol as a state machine: any number of supervisors on one journal, any number of workers |
| `ProtocolInvariant.dfy`, `ProtocolSteps.dfy` | its invariant, and the proof that every step keeps it |
| `ProtocolTheorems.dfy` | what follows for every run: at most once, exactly once, order, hints, responses, acknowledgements |
| `World.dfy` | the world around one supervisor and one worker: stores, the handler, everybody else |
| `StreamWorker.dfy`, `Supervisor.dfy` | the worker and the supervisor as objects whose methods follow the protocol |
| `StreamLifecycle.dfy` | the event-stream supervisor and its goroutines as a state machine, and what holds of every run |
| `StreamSupervisor.dfy` | the event-stream supervisor as an object whose methods follow that machine |
| `Fsm.dfy`, `OrderedSet.dfy`, `Partition.dfy`, `Registry.dfy` | the driver, the set, the partitioner, the observer |

`dafny verify dfyconfig.toml` checks everything.

**Runs.** A run is any finite sequence of actions; an action that is not enabled changes nothing. Each action is one
persistence operation, one call of the handler, or one local step between two of them. Every persistence operation with
a durable effect may succeed, fail before its effect, or fail after it. Every process may fail at any point (`Fail`),
after which a supervisor starts over with its recovery, on the same object with its stream and offset hint kept, or on a
new one (`Replace`). Supervisors, workers and other sources of events interleave freely.

**History variables.** `Shared` keeps, besides the durable state, the truncated records (`history`), the acknowledged
commands, the requests and responses so far, and who produced which batch of events (`batchOf`, `claims`). No step of a
process reads these, with two exceptions that stand for messages and for identifiers: a worker takes a request that was
issued, and a response that was given is what a supervisor receives; a handler's events carry identifiers never used
before.

**Objects.** `Supervising.Supervisor`, `StreamWorking.StreamWorker` and `StreamSupervising.Supervisor` have the fields
and methods of the program. `At(pc)` ties their fields to the state that the protocol gives them, and every method says
from which point to which point of the protocol it goes; so what is proved of all runs holds of whatever these objects
do. What the rest of the world does around each call is a script that the world is constructed with, and every
statement is for every script. A world is quiet (`World.Quiet`) if from now on nobody else acts and nothing fails.
Its handler is willing (`World.Willing`) if from now on it succeeds whenever it is called, each time with events that
nobody has produced before. A worker is current (`StreamWorker.Current`) if it is stopped or its cache is up to date, as
it is after a restart of the process. "Undisturbed" below means a quiet world and a current worker.

**What is assumed of the persistence library.** `Append(pos, r)` takes effect only if `pos` is the end of the journal;
otherwise it is a conflict and changes nothing, also when `pos` was truncated away. `Range` yields the records from its
start to the end that it reaches, and fails if its start was truncated. `Truncate(p)` drops exactly the positions below `p`.
`ScanFromSearchResult` searches the half-open interval for a hit, then scans forward from it as far as it happens to
see, at least to the end of the interval. When `SelectEventStream` fails it returns no stream. The library is not part
of this model.

**What is assumed of events.** The identifiers of a batch are fresh when the batch is produced and distinct within it.
Appends to streams come from workers. A request from another source than this handler carries fresh events and a hint
that was an end offset of its stream.

## Where the code does less than its documentation says

- `Shutdown` of the event-stream supervisor is documented to stop it when it next becomes idle
  (`internal/eventstream/supervisor.go:48`), but no state reads the latch. `StreamLifecycle.ShutdownChangesNothing`
  proves that requests to shut down can be erased from any run, `StreamLifecycle.IdleStopsIff` says exactly when an idle
  supervisor stops, and `StreamLifecycle.ServesAfterShutdown` is an instance of one that goes on.
- A state may fail with a nil error. Then a later stop, for instance that of the final state, replaces the outcome of
  the failure by the error of a cancelled context. `Fsm.IntendedIff` gives the exact condition and
  `Fsm.NilFailureIsMasked` an instance.
- The registry observer compares identifiers only, so a node that changes its addresses goes unnoticed.
  `Registry.UpToDateIff` gives the exact condition and `Registry.NewAddressIsInvisible` an instance.
- `Route` is documented to return the node that handles a workload, but returns nil if every score is zero.
  `Partition.RoutedIff` and the contract of `Route` give the
  exact condition, and `Partition.RouteToNobody` an instance.
- A request is documented to carry the lowest offset at which its events may already be. How far a hint may exceed it
  before a retry stores the events again is `ProtocolTheorems.StoredAgainIff`.

## Model

| member | source | states |
|---|---|---|
| IntegrationJournal.WellFormedIffBlocks | internal/integration/supervisor.go:213-413 | a journal that the record automaton accepts is exactly a concatenation of blocks accepted, handled, appended (the third only if there are events) followed by at most one block in progress |
| IntegrationJournal.WellFormedIsScannable | internal/integration/supervisor.go:121-138 | in such a journal, commands accepted once are handled once, never before they are accepted, and never marked appended before they are handled |
| IntegrationJournal.Neighbours | internal/integration/supervisor.go:345-408 | every handled record directly follows the acceptance of the same command, every append record directly follows a handled record of the same command with events |
| IntegrationJournal.AppendFollows | internal/integration/supervisor.go:369-408 | a handled record with events is followed by nothing but its own append record |
| IntegrationJournal.DeleteFirst | internal/integration/supervisor.go:122-127 | the loop deletes exactly the first match, if there is one; when identifiers are distinct none is left |
| IntegrationJournal.PendingCommandsMeaning | internal/integration/supervisor.go:84-87 | a command is pending if and only if it was accepted and no record handles it |
| IntegrationJournal.PendingOpsMeaning | internal/integration/supervisor.go:89-92 | an operation is pending if and only if it was recorded and no record marks it appended |
| IntegrationJournal.PendingCommandsInOrder | internal/integration/supervisor.go:119 | the pending commands come in the order in which the journal accepted them |
| IntegrationJournal.PendingOpsInOrder | internal/integration/supervisor.go:128 | the pending operations come in the order in which the journal recorded them |
| IntegrationJournal.PendingSnoc | internal/integration/supervisor.go:116-138 | one more record changes the pending work by exactly one edit of the two lists |
| IntegrationJournal.RecoveryScan | internal/integration/supervisor.go:102-145 | the loop ends at the end of the journal, and for every journal in which commands are unique and in order its deletions in place leave exactly the pending commands and the pending operations, in journal order |
| IntegrationJournal.PendingOfSuffix | internal/integration/supervisor.go:102-109 | scanning only the live records is scanning that part of the whole history |
| IntegrationJournal.PendingAtMostOne | internal/integration/supervisor.go:152-184 | from a settled position, at most one command is unhandled or at most one non-empty batch is unappended, and it is the one that the end of the journal calls for |
| StreamJournal.Search | internal/eventstream/internal/eventstreamjournal/journal.go:31-46 | the binary search driven by the comparison finds the record below the given position that covers the offset, or none if there is none |
| StreamJournal.Scan | internal/eventstream/worker.go:203-214 | the forward scan finds the first record from a position on whose first event has the identifier |
| StreamJournal.TilesCover | internal/eventstream/internal/eventstreamjournal/journal.go:31-46 | in a tiled journal every offset below the end is covered by a record, so the search always hits |
| StreamJournal.CoverUnique | internal/eventstream/internal/eventstreamjournal/journal.go:31-46 | no offset is covered by two records |
| StreamJournal.FastLookupRefinesLinearScan | internal/eventstream/worker.go:191-216 | search then scan returns what a scan of the whole journal returns if and only if there is nothing to find or the hint lies before the end of the record to find |
| StreamJournal.TiledAppend | internal/eventstream/worker.go:138-167 | a record written at the end offset keeps the offsets tiled |
| StreamJournal.FlattenTiles | internal/eventstream/append.go:25-29 | the offsets of a record are the indices of its events in the flattened stream |
| StreamJournal.FlattenPrefix | internal/eventstream/worker.go:141-154 | what was visible in a stream stays a prefix of it |
| ProtocolSteps.SettledMeansAdded | internal/integration/supervisor.go:297-300 | below a settled position every accepted command is handled next and is in the set of accepted commands |
| ProtocolSteps.AppendsOnlyAtTheEnd | internal/integration/supervisor.go:256-408 | only the three appends change the history; each adds its record exactly when the supervisor is at the end of the journal and the append does not fail beforehand, a conflict changes nothing, and a failure after the effect leaves the record behind without moving the position or acknowledging |
| ProtocolSteps.CheckKeeps | internal/integration/supervisor.go:232-254 | a command that is not in the set is not accepted anywhere below the supervisor's position, so accepting it there keeps commands unique; one that is in the set was journaled, so it may be acknowledged |
| ProtocolSteps.AcceptKeeps | internal/integration/supervisor.go:256-274 | the append of the acceptance, in all its failure cases and conflicts, keeps the invariant |
| ProtocolSteps.AddKeeps | internal/integration/supervisor.go:297-300 | adding to the set keeps the invariant: only journaled commands are in it |
| ProtocolSteps.HandlerKeeps | internal/integration/supervisor.go:316-343 | a successful handler call claims its fresh batch for this supervisor and keeps the invariant |
| ProtocolSteps.HandOver | internal/integration/supervisor.go:341-355 | recording the outcome moves the claim on the batch to the record, with a hint that is sound for good |
| ProtocolSteps.RecordKeeps | internal/integration/supervisor.go:345-356 | the append of the outcome, in all its failure cases and conflicts, keeps the invariant |
| ProtocolSteps.ResponseInStream | internal/integration/supervisor.go:389-391 | the end offset of a response has been reached by the stream, so it is a sound hint for later batches |
| ProtocolSteps.MarkKeeps | internal/integration/supervisor.go:393-408 | the append record, in all its failure cases and conflicts, keeps the invariant |
| ProtocolSteps.ReadAllKeeps | internal/integration/supervisor.go:104-145 | whatever recovery reads, the lists it makes fit the end of the journal that it saw |
| ProtocolSteps.PickKeeps | internal/integration/supervisor.go:152-184 | working through the two lists in order never takes up anything that the journal does not call for |
| ProtocolSteps.TruncateKeeps | internal/integration/supervisor.go:186-190 | truncation, in all its failure cases, leaves a settled beginning |
| ProtocolSteps.TakeKeeps | internal/eventstream/worker.go:176-182 | a request whose hint is not below the cached end offset is not stored below the cached position |
| ProtocolSteps.LookupIsExact | internal/eventstream/worker.go:184-216 | with a sound hint, the lookup finds the record of the request's own batch if the part of the journal that it sees holds it, and otherwise the batch is not below the cached position |
| ProtocolSteps.WriteKeeps | internal/eventstream/worker.go:138-173 | the optimistic append at the cached position, in all its failure cases and conflicts, keeps every batch in one place and the cache true |
| ProtocolSteps.SupStepKeeps | internal/integration/supervisor.go:76-413 | every step of a supervisor keeps the invariant, only lets durable state grow, and moves no claim but its own |
| ProtocolSteps.WorkerStepKeeps | internal/eventstream/worker.go:39-216 | every step of a worker keeps the invariant and only lets durable state grow |
| ProtocolSteps.StepKeeps | internal/integration/supervisor.go:76-413 | every step of every process keeps the invariant of the whole system |
| ProtocolSteps.Always | internal/integration/supervisor.go:76-413 | the invariant holds after every run of any number of supervisors and workers |
| ProtocolTheorems.CommandsAtMostOnce | internal/integration/supervisor.go:232-281 | over all history and across truncations each command is accepted at most once and handled at most once |
| ProtocolTheorems.HistoryIsBlocks | internal/integration/supervisor.go:186-190 | the history is whole blocks and at most one in progress, and what was truncated is whole blocks |
| ProtocolTheorems.RecoveryFindsAtMostOne | internal/integration/supervisor.go:152-184 | a recovering supervisor has at most one unhandled command or non-empty unappended batch before it |
| ProtocolTheorems.NothingIsTakenBack | internal/integration/supervisor.go:76-413 | whatever happens next, history, sets, responses and streams only grow |
| ProtocolTheorems.EventsAtMostOnce | internal/integration/supervisor.go:363-413 | wherever two events of one handled command are seen, in whatever streams, they lie in the command's stream in one contiguous copy of the whole batch |
| ProtocolTheorems.ExactlyOnceWhenIdle | internal/integration/supervisor.go:195-211 | when a supervisor is idle, every command handled below its position has its whole batch in its stream and no event of it anywhere else |
| ProtocolTheorems.SettledIsComplete | internal/integration/supervisor.go:186-192 | in a settled journal every command ever accepted is handled and in the set, and every batch is in its stream exactly once |
| ProtocolTheorems.CompleteMeansSet | internal/integration/supervisor.go:297-300 | when nothing is left undone, the set of accepted commands is exactly what the history has ever accepted |
| ProtocolTheorems.HintsAreSound | internal/integration/supervisor.go:330-343 | the hint of every recorded operation is at or below the offset at which its batch is stored, whichever way the hint came about |
| ProtocolTheorems.OffsetsTile | internal/eventstream/worker.go:43-58 | in every reachable state the records of every stream tile its offsets, and a running worker's position and offset are true of a prefix of them |
| ProtocolTheorems.NeverStoredTwice | internal/eventstream/worker.go:110-174 | no two records of a stream begin with the same event, however stale the caches and however often a request is retried |
| ProtocolTheorems.LookupFindsItOrNothing | internal/eventstream/worker.go:191-216 | a lookup in an up-to-date journal finds the batch if and only if the hint lies before the end of its record, and finds nothing else |
| ProtocolTheorems.StoredAgainIff | internal/eventstream/worker.go:110-182 | for a request with any hint whose batch is stored already: a worker stores it again if and only if its cache is up to date and the hint lies at or beyond the end of the stored record |
| ProtocolTheorems.ResponsesAreTrue | internal/eventstream/worker.go:116-173 | for fresh and deduplicated appends alike the offsets of the response are those of the request's events in the flattened stream, then and after any continuation of the run |
| ProtocolTheorems.FlagIsTrue | internal/eventstream/worker.go:128-173 | in every run, a new response says that the events were appended by a prior attempt if and only if they were in the stream already |
| ProtocolTheorems.OrderIsPreserved | internal/integration/supervisor.go:155-181 | batches of the handler on one stream are stored in the order of their handled records, also when recovery appends them |
| ProtocolTheorems.AcksAreDurable | internal/integration/supervisor.go:238-274 | every acknowledged command, and every command in the set, was journaled as accepted |
| ProtocolTheorems.IdleMeansHandled | internal/integration/supervisor.go:195-211 | below the position of an idle supervisor every accepted command is handled and in the set |
| ProtocolTheorems.HandlerIsCalledFor | internal/integration/supervisor.go:285-323 | in every run the handler is called with exactly the command, contents included, that the last record before the supervisor accepts, when the command is in the set and no record below handles it |
| ProtocolTheorems.AckedIsDoneWhenIdle | internal/integration/supervisor.go:238-281 | when a lone supervisor is idle, every acknowledged command is handled and its events are in their stream exactly once |
| Environment.World.Range | internal/integration/supervisor.go:104-144 | yields the records from the position to the end, and succeeds only if that position is not truncated |
| Environment.World.Append | internal/integration/supervisor.go:256-271 | an append succeeds only at the end of the journal; undisturbed it succeeds and appends exactly the record |
| Environment.World.Truncate | internal/integration/supervisor.go:186-190 | a successful truncation drops what is below the position; undisturbed it changes nothing else |
| Environment.World.HasAccepted | internal/integration/supervisor.go:238-254 | tells whether the command is in the set, and a command that is there is acknowledged |
| Environment.World.Handle | internal/integration/supervisor.go:316-343 | the handler fails only if the script has it refuse, and otherwise yields the events of the script, which nobody has produced before; what the supervisor turns to in each case; a willing handler in a quiet world succeeds and stays willing |
| Environment.World.AppendToStream | internal/eventstream/worker.go:141-154 | an append to the stream succeeds only at its end, and then the request has its response |
| StreamWorking.StreamWorker.Run | internal/eventstream/worker.go:43-58 | after a start the cached position and offset are those of the last record, and nothing of the stream has escaped the worker |
| StreamWorking.StreamWorker.LookIn | internal/eventstream/worker.go:191-216 | the two loops compute the lookup that the refinement lemma is about |
| StreamWorking.StreamWorker.FindAppendRecord | internal/eventstream/worker.go:191-216 | a record is found only with a true response to the request; otherwise the worker goes on to write, or stops with an error |
| StreamWorking.StreamWorker.AppendEvents | internal/eventstream/worker.go:112-174 | success gives a response recorded by the protocol and an updated cache, failure stops the worker; undisturbed and with a current cache it succeeds |
| StreamWorking.StreamWorker.HandleAppend | internal/eventstream/worker.go:86-108 | on success the request's events are in the flattened stream at the offsets of the response; a failure leaves the worker stopped; in a quiet world, a batch that was stored is reported as such and nothing changes, and any other becomes exactly one new record at the end of its stream |
| Supervising.Supervisor.Ask | internal/integration/supervisor.go:376-391 | asks for an append; on success the batch is in its stream, and the hint becomes the end of the batch for an operation of its own and stays as it was for any other |
| Supervising.Supervisor.AppendEvents | internal/integration/supervisor.go:365-413 | appends the record that marks the operation appended and moves one position on; the hint becomes the end of the batch for an operation of its own and stays as it was for any other; without events it does nothing at all; undisturbed it succeeds and writes nothing else |
| Supervising.Supervisor.AppendOwnEvents | internal/integration/supervisor.go:360-391 | the events of an operation of its own are in their stream and the hint is the offset just after them |
| Supervising.Supervisor.CallHandler | internal/integration/supervisor.go:297-343 | adds the command to the set before the handler is called, and ends with an operation that holds what the handler produced, under the stream and the hint that the supervisor had, if it had one; the handler is blamed only if it was called and refused, and quiet with a willing handler the call succeeds |
| Supervising.Supervisor.DescribeOutcome | internal/integration/supervisor.go:325-343 | an operation with events names this supervisor's stream and its hint; a stream is selected only if there is none yet; without events there is neither stream nor hint |
| Supervising.Supervisor.RecordOutcome | internal/integration/supervisor.go:285-356 | the record at the supervisor's old position says what the handler produced for the command, and the position moves one on |
| Supervising.Supervisor.HandleCommand | internal/integration/supervisor.go:285-361 | the journal records how the command was handled where the supervisor was, then that its events were appended; the events are in the supervisor's stream and its hint is the offset just after them; the stream and the hint recorded are those it had before; undisturbed exactly these records are written, or as many of them as the failure of the handler or of a stale worker leaves; with a willing handler and a current worker it succeeds |
| Supervising.Supervisor.AcceptCommand | internal/integration/supervisor.go:215-281 | the sender is acknowledged exactly if the command was accepted before or its acceptance was appended now, whatever happened to it afterwards; undisturbed a new command is always accepted and acknowledged, with exactly the records of its handling, and a command accepted before changes nothing; with a willing handler and a current worker it succeeds |
| Supervising.Supervisor.AcceptNew | internal/integration/supervisor.go:256-280 | the acceptance is the record where the supervisor was, it is acknowledged before the command is handled, and a failure of the handler does not take that back |
| Supervising.Supervisor.ReadPending | internal/integration/supervisor.go:97-145 | the lists are the pending work that the protocol computes and the position is the end of what was read |
| Supervising.Supervisor.AppendPending | internal/integration/supervisor.go:162-166 | all pending operations are appended in order, without touching the stream and the hint of the supervisor; undisturbed it succeeds and accepts nothing; if no append was due nothing changes |
| Supervising.Supervisor.HandlePending | internal/integration/supervisor.go:176-180 | all pending commands are handled in order; undisturbed it accepts nothing, and with a willing handler it succeeds |
| Supervising.Supervisor.DropJournal | internal/integration/supervisor.go:186-192 | undisturbed the journal is empty afterwards and nothing is left undone |
| Supervising.Supervisor.Recover | internal/integration/supervisor.go:76-193 | from any crash, undisturbed and with a willing handler, recovery succeeds; a success in a quiet world leaves it idle with an empty journal, every command ever accepted handled and every batch stored exactly once; it fails for the handler only if a command awaits handling and the handler, called, refuses; in a quiet world it fails otherwise only for a stale worker cache, which is then gone; if nothing was pending, as on a second recovery, it changes nothing but where the journal begins |
| Supervising.Supervisor.RecoverTwice | internal/integration/supervisor.go:76-193 | what starting again after a failure achieves: in a quiet world with a willing handler, two recoveries get from every reachable state, even with a stale worker cache, to an empty journal with nothing left undone |
| Supervising.Supervisor.Serve | internal/integration/supervisor.go:196-281 | the inbox is served in order: acceptances are appended in its order, all commands but the last one taken were served successfully, and undisturbed exactly the new ones among those taken are accepted, in order, and all are acknowledged |
| Supervising.Supervisor.Run | internal/integration/supervisor.go:45-66 | however a run ends, acknowledged commands were durably accepted, acceptances were appended in the order of the inbox, and the last entry belongs to the command at which the run stopped; in a quiet world exactly the commands taken that are new to the history were accepted, in order, and every one taken is acknowledged; undisturbed and with a willing handler the run succeeds, which means every command acknowledged and handled and every batch stored exactly once |
| StreamLifecycle.StructureKept | internal/eventstream/supervisor.go:54-161 | every step keeps the map of workers exact, exchanges with workers of their own stream, and all remaining workers told to shut down while draining |
| StreamLifecycle.StepConserves | internal/eventstream/supervisor.go:54-98 | for every exchange, holders plus answers are the same before and after every step, except that taking it adds one holder |
| StreamLifecycle.WorkersAreTheUnreported | internal/eventstream/supervisor.go:114-161 | in every run the map holds exactly the workers that were started and have not reported, one for each stream |
| StreamLifecycle.AnsweredAtMostOnce | internal/eventstream/supervisor.go:66-98 | no exchange is answered twice, and none is answered that was not taken |
| StreamLifecycle.NeverLost | internal/eventstream/supervisor.go:82-97 | an exchange that was taken and is not answered is held by the supervisor alone or by the registered worker of its stream |
| StreamLifecycle.AllAnsweredInTheEnd | internal/eventstream/supervisor.go:100-112 | when the supervisor has returned no worker is left and every exchange taken has exactly one answer |
| StreamLifecycle.StopsOnlyForAReason | internal/eventstream/supervisor.go:54-98 | without a cancelled context, and without a worker that cannot be started or that fails, the supervisor never stops, never refuses an exchange, and every answer given is a success, whatever idle timeouts and requests to shut down occur |
| StreamLifecycle.IdleStopsIff | internal/eventstream/supervisor.go:54-69 | an idle supervisor stops if and only if it notices that the context is cancelled or receives the error of a worker |
| StreamLifecycle.OfferingStopsIff | internal/eventstream/supervisor.go:82-97 | a supervisor that offers an exchange refuses it and stops if and only if it notices that the context is cancelled or receives the error of a worker, of whichever stream |
| StreamLifecycle.ForwardingStopsIff | internal/eventstream/supervisor.go:76-80 | a supervisor that looks for a worker refuses the exchange and stops if and only if it has none and cannot start one |
| StreamLifecycle.StopsIff | internal/eventstream/supervisor.go:54-98 | in every run the supervisor is on its way out if and only if one of these reasons has occurred |
| StreamLifecycle.OneReason | internal/eventstream/supervisor.go:54-98 | it stops once, for one reason |
| StreamLifecycle.RepliesIff | internal/eventstream/worker.go:95-101 | in every run an exchange is answered with success if and only if a worker busy with it succeeded, and with an error if and only if a worker busy with it failed or the supervisor refused it |
| StreamLifecycle.WorkerEndsIff | internal/eventstream/worker.go:43-108 | in every run a worker has ended with an error if and only if it could not start, failed to append, or stopped when the context was cancelled; and without one if and only if it stopped, for a timeout or as told, when it was not |
| StreamLifecycle.ShutdownChangesNothing | internal/eventstream/supervisor.go:48-69 | erasing all requests to shut down from a run changes nothing but the latch |
| StreamLifecycle.ServesAfterShutdown | internal/eventstream/supervisor.go:48-69 | a supervisor that was asked to shut down serves a request, becomes idle, and goes on to the next request |
| StreamLifecycle.DrainingOnlyShrinks | internal/eventstream/supervisor.go:100-112 | while the supervisor drains, every step that changes a worker brings it closer to its report, and nothing is taken |
| StreamLifecycle.DrainingIsNotStuck | internal/eventstream/supervisor.go:106-109 | while the supervisor drains and workers are left, each of them has a step to take that waits for no timeout and no cancellation: an idle one was told to shut down |
| StreamLifecycle.StoppingIsNotStuck | internal/eventstream/supervisor.go:100-109 | with the context cancelled, or on its way out for another reason, the supervisor has a step that brings it closer to draining, among them telling one more worker to shut down |
| StreamLifecycle.CanAlwaysReturn | internal/eventstream/supervisor.go:100-112 | after any run the supervisor can return once the context is cancelled or it stops for another reason, by steps in which no worker times out or sees the context cancelled: their shutdown latches suffice |
| StreamSupervising.Scheduler.AwaitResult | internal/eventstream/supervisor.go:107 | while the supervisor drains, waiting for a result always ends with one, without any timeout |
| StreamSupervising.Supervisor.Receive | internal/eventstream/supervisor.go:59-64 | the worker that reports leaves the map, what it reports is what it ended with, and an error makes the supervisor stop or refuse what it holds |
| StreamSupervising.Supervisor.IdleState | internal/eventstream/supervisor.go:54-69 | a request not taken before is always taken up, a cancelled context always stops the supervisor when it is what is ready, a finished worker is always received and makes it fail exactly if it reports an error |
| StreamSupervising.Supervisor.WorkerByStreamID | internal/eventstream/supervisor.go:116-161 | yields the registered worker of the stream, started if need be, or leaves the exchange to be refused |
| StreamSupervising.Supervisor.Offer | internal/eventstream/supervisor.go:82-97 | the exchange is handed over whenever the worker is what is ready and waiting; a result that is ready is received, and the supervisor refuses the exchange and fails exactly if it is an error; a cancelled context makes it refuse the exchange and stop |
| StreamSupervising.Supervisor.ForwardAppendState | internal/eventstream/supervisor.go:72-98 | what `Offer` does, with the worker of the stream started first if need be; if that fails the exchange is refused and the supervisor fails |
| StreamSupervising.Supervisor.SignalWorkers | internal/eventstream/supervisor.go:102-104 | the loop sets the shutdown latch of every worker in the map |
| StreamSupervising.Supervisor.ShutdownState | internal/eventstream/supervisor.go:101-112 | every worker that was left has been told to shut down, and the loop ends with an empty map |
| StreamSupervising.Supervisor.Run | internal/eventstream/supervisor.go:38-46 | when it returns every exchange that it took has exactly one answer and no worker is left, and its error is that of a worker unless it stopped for the cancelled context; each state that it went through did what its rule says about whatever was ready, and asked for the next; it does not end before the given number of states was entered unless one of them stopped it; and it returns once the context is cancelled and nothing else is ready |
| Fsm.OutcomeSnoc | internal/fsm/action.go:9-40 | how one more action changes the result of the machine |
| Fsm.IntendedIff | internal/fsm/action.go:9-24 | the machine returns the last failure's error, or else the first context error that a stop saw, if and only if it is not the case that the last failure carries no error and a later stop sees a cancelled context |
| Fsm.NilFailureIsMasked | internal/fsm/action.go:18-24 | a failure without an error is replaced by the context error that the final state's stop sees |
| Fsm.StopMasksNoFailure | internal/fsm/action.go:9-16 | a stop, also that of the final state, keeps an error that is there |
| Fsm.RulesInFull | internal/fsm/fsm.go:24-43 | a state that was entered is called next, one that stays is called again, a stop is followed by the final state, and the first call is of the initial state |
| Fsm.Machine.Execute | internal/fsm/action.go:9-40 | what each action does to the current state and to the error |
| Fsm.Machine.Start | internal/fsm/fsm.go:24-43 | the final state is called after every stop and at no other time and may revive the machine, a state that stays is called again, the run ends exactly when nothing is to be called, and the error is the outcome of the calls |
| Optimistic.CompareByLessIsLawful | internal/optimistic/orderedset.go:67-77 | the comparison by `Less` is a total order |
| Optimistic.SortedUnique | internal/optimistic/orderedset.go:10-14 | the sorted slice is determined by the set of its members |
| Optimistic.BinarySearch | internal/optimistic/orderedset.go:17-44 | the search finds the member if it is there, and otherwise where it belongs |
| Optimistic.InsertKeepsSorted | internal/optimistic/orderedset.go:20-22 | inserting where the search ends keeps the slice strictly sorted and adds one member |
| Optimistic.DeleteKeepsSorted | internal/optimistic/orderedset.go:32-34 | deleting keeps the slice strictly sorted and removes one member |
| Optimistic.SortedSize | internal/optimistic/orderedset.go:46-49 | the length of the slice is the size of the set |
| Optimistic.OrderedSet.Add | internal/optimistic/orderedset.go:16-26 | adds to the set, and nothing else changes |
| Optimistic.OrderedSet.Delete | internal/optimistic/orderedset.go:28-38 | removes from the set, and nothing else changes |
| Optimistic.OrderedSet.Has | internal/optimistic/orderedset.go:40-44 | tells membership |
| Optimistic.OrderedSet.Members | internal/optimistic/orderedset.go:51-55 | the members in strictly increasing order |
| Partition.OwnerIsUnique | internal/cluster/partition.go:26-52 | routing is a function of the set of nodes: no history of it matters |
| Partition.OwnerExists | internal/cluster/partition.go:26-52 | every set of nodes determines an owner, or none if every score is zero |
| Partition.AddingMovesOnlyToTheNewNode | internal/cluster/partition.go:16-19 | a joining node takes over exactly the workloads at which it beats the owner, and no other workload moves |
| Partition.RemovingMovesOnlyItsOwn | internal/cluster/partition.go:21-24 | a leaving node's workloads move, and no others |
| Partition.MovesHaveACause | internal/cluster/partition.go:16-52 | over any history of joins and leaves a workload changes its node only if its old node left or its new node joined in between |
| Partition.RoutedIff | internal/cluster/partition.go:34-51 | a workload is routed to a node if and only if some score is not zero |
| Partition.Partitioner.Route | internal/cluster/partition.go:26-52 | panics exactly without nodes; otherwise the loop yields the owner, the smallest identifier winning ties, and it yields some node if and only if some score is not zero |
| Partition.Partitioner.Replay | internal/cluster/partition.go:16-24 | after any history of joins and leaves the partitioner holds the resulting set |
| Partition.RouteToNobody | internal/cluster/partition.go:34-51 | a lone node whose scores are all zero: nobody is chosen |
| Registry.MembershipAlternates | internal/cluster/registry.go:252-262 | for each node, delivered registrations and deregistrations alternate, beginning with a registration |
| Registry.OneSideOnly | internal/cluster/registry.go:250-262 | no event names an identifier on both sides |
| Registry.CommitReachesSnapshot | internal/cluster/registry.go:278-287 | after delivery the identifiers are those of the polled snapshot, nodes that stay as they were known |
| Registry.UpToDateIff | internal/cluster/registry.go:252-262 | what is known equals the snapshot after delivery if and only if no node that stays has changed |
| Registry.NewAddressIsInvisible | internal/cluster/registry.go:252-266 | a node with a new address makes no event and stays known under the old one |
| Registry.RegistryObserver.LoadNodes | internal/cluster/registry.go:291-317 | loads exactly the live registrations, if they are kept under the identifiers of their nodes, and deletes exactly the expired ones; it fails if and only if a deletion does, and then no live registration is lost |
| Registry.RegistryObserver.Missing | internal/cluster/registry.go:252-262 | the loop lists exactly the nodes that the other map lacks, each once |
| Registry.RegistryObserver.PollState | internal/cluster/registry.go:244-269 | no event means that the identifiers agree; otherwise the event is exactly the difference |
| Registry.RegistryObserver.ApplyEvent | internal/cluster/registry.go:279-285 | the two loops add and remove exactly what the event says |
| Registry.RegistryObserver.PublishState | internal/cluster/registry.go:272-289 | only delivery changes what is known, and what is known is always what the delivered events add up to |
| Registry.RegistryObserver.Move | internal/cluster/registry.go:231-289 | one turn follows the rules of its state, and what it polls is what the next event or the idle state is about |
| Registry.RegistryObserver.Run | internal/cluster/registry.go:211-289 | over any run of polls, failed loads, abandoned and delivered events: the observer moves as its states prescribe, in particular from idle to a poll at every tick; its nodes are the replay of the events delivered, which are exactly those published and taken; and when idle its identifiers are those that were live at its last poll |

## Left out

- Telemetry, logging, spans, metrics, configuration, networking, gRPC, generated messages and marshalling: no effect on the state modelled.
- Message packing and the bodies of handlers: a handler call is a failure, or a success with any events that have fresh identifiers.
- `uint64` wrap-around of positions and offsets: natural numbers.
- Record operations of a stream other than appended events: there are none.
- A request without events makes a worker panic (`internal/eventstream/worker.go:90-93`): every request modelled has events.
- Environment.World.Range: ranges over the journal in one step, at the end of the scan; the protocol itself also allows for a truncation meanwhile.
- Closing and opening journals, sets and keyspaces.
- The queue mechanics of commands and exchanges: abstracted to receive, send and reply once. Exchanges that the event-stream supervisor has not taken from its queue are not its own yet.
- One worker object serves one stream at a time in `StreamWorking.StreamWorker`; the protocol has any number of workers on any streams.
- `StreamSupervising.Supervisor.Run` enters a given number of states at most, and `Registry.RegistryObserver.Run` takes a given number of turns; the program runs until it is stopped.
- Concurrent use of `OrderedSet` and `Value`: `slices.Insert` and `slices.Delete` may edit the array that other holders of the slice share, so only sequential use is modelled.
- xxhash: any function from node and workload to a number. `Partitioner.Route` reuses one digest, which is reset for each node, so the score is such a function.
- `Registrar`, tickers and wall-clock time: the store that a poll meets and the current time are arbitrary; registrations are kept under the identifier of their node.
- A failing `Range` over the registry itself: only failing deletions are modelled, and either way the load fails.
- The driver's states are represented by what they return, call by call; invalid actions and nil states panic in the program and cannot be expressed.
