# Payment intermediary: a Dafny model

The repository holds near-copies of one design: several processes accept payments over HTTP, queue
them, and let workers send each one to one of two payment gateways. A shared byte names the gateway to
use; a polling thread and the workers both write it. Confirmed payments are kept in LMDB, one table per
gateway, and a summary counts and adds the records of a time range. One variant puts a proxy in front and
passes requests through shared-memory slots with semaphores.

The model follows `c++-haproxy-mongoose-lmdb` for the ledger, the queue, the retry loop, the chooser and
the HTTP handler, and `c++-boost-ipc-lmdb` for the slot protocol, the recursive worker and the startup
handshake.

| file | contents |
|---|---|
| `Types.dfy`, `Sums.dfy`, `Totals.dfy` | shared names; sums over sets and counts over sequences |
| `Bytes.dfy`, `Records.dfy` | words in native byte order, LMDB's two comparators, packed records |
| `Ledger.dfy`, `Repository.dfy` | the sorted table, what a range summary means; transactions, cursor, repository and service as classes |
| `Queue.dfy`, `Processor.dfy`, `Api.dfy` | the pending queue, a worker's retry loop, the HTTP handler, as classes and methods |
| `Pipeline.dfy` | every interleaving of processes, workers, HTTP threads, chooser stores and purges, with the run's history |
| `PipelineSafety.dfy`, `QueueOrder.dfy`, `LedgerAgreement.dfy`, `EndToEnd.dfy`, `Purge.dfy`, `WorkerRefinement.dfy` | what every run keeps |
| `Slot.dfy`, `SlotPermits.dfy`, `SlotSafety.dfy`, `SlotDamage.dfy`, `SlotDiscipline.dfy` | the shared-memory slot protocol: its permits, sequential service, what an early request can damage, and exactly which starts are safe |
| `Ipc.dfy` | the protocol's code as classes |
| `Chooser.dfy`, `RecursiveProcessor.dfy`, `Startup.dfy` | the polling loop, the recursive worker, the startup handshake |

State machines are total step functions: an action that is not possible in a state leaves it unchanged, and
a run is any sequence of actions, so a statement about all runs is a statement about all interleavings.
Loops that wait for the outside (the queue's timed wait, the retry loop, the polling loop) take what they
meet as a sequence; an exhausted sequence is an observation that ends before the loop does.

Amounts are the 64 bits of a double and are added as exact reals. The request counter wraps at 2^32.

What the code does not guarantee is stated with its exact condition:

- A summary whose `from` lies before 1970 skips every record, because keys compare unsigned
  (`Ledger.ClockSummaryExactIff`, and `Ledger.AnySummaryExactIff` for keys on both sides of 1970).
- Summaries of adjacent ranges add up unless a range starts before 1970 (`Ledger.AdjacentScansAddUpIff`).
- Two confirmations equal in time, amount and id leave one record (`EndToEnd.OneRecordPerConfirmationIff`;
  `EndToEnd.RepeatedConfirmationsLeaveOneRecord` gives the run).
- A purge is three separate steps, and a payment confirmed before it can be stored after it. What a purge drops
  stays empty exactly when every worker is inactive (`Purge.PurgeLeavesNothingIff`).
- A post does not wait for its handler, so the next request can overwrite it in the slot
  (`SlotDamage.EarlyPostCanLoseAPayment`). A start is safe exactly when nothing on the slot is unread, or
  nobody serves the slot, or the request does not touch the slot, or it is a purge and the unread payment's handler
  has already looked at the tag (`SlotDiscipline.StartIsSafeIff`).
- A permit left over in the named semaphore lets a follower in before the coordinator has rebuilt the
  database (`Startup.StartupIsOrderedIff`).

## Model

| member | source | states |
|---|---|---|
| Bytes.WordRoundTrip | c++-haproxy-mongoose-lmdb/src/api/PaymentRepository.h:21-24 | storing an 8-byte word in native order and reading it back are inverse, both ways, on either endianness |
| Bytes.LessIsStrictTotalOrder | c++-boost-ipc-lmdb/src/api/Database.cpp:39-57 | the comparator the flags select (backwards on little-endian, forwards on big-endian) is a strict total order on byte strings |
| Bytes.LessIff | c++-boost-ipc-lmdb/src/api/Database.cpp:39-57 | on strings of one length it decides at the last byte that differs on a little-endian machine and at the first on a big-endian one |
| Bytes.ByteOfWord | c++-haproxy-mongoose-lmdb/src/api/PaymentRepository.h:21-24 | the i-th lowest byte of a word is at place i on a little-endian machine, counted from the end on a big-endian one |
| Bytes.WordOrder | c++-boost-ipc-lmdb/src/api/Database.cpp:39-57 | on either machine it orders stored words exactly by their value modulo 2^64 |
| Bytes.KeyOrderIsSignedOrderIff | c++-haproxy-mongoose-lmdb/src/api/PaymentRepository.cpp:64-68 | key order agrees with the signed order of the times if and only if both times have the same sign |
| Records.PackRoundTrip | c++-haproxy-mongoose-lmdb/src/api/PaymentRepository.h:21-30 | a record and its packed key and data determine each other |
| Records.NormalAmount | c++-haproxy-mongoose-lmdb/src/api/PaymentRepository.cpp:71 | an amount with exponent field e in 1..2046 and fraction m is worth (2^52 + m) * 2^(e - 1075): times 2^k it is (2^52 + m) * 2^(e - 1075 + k), for every k that leaves no denominator |
| Records.SubnormalAmount | c++-haproxy-mongoose-lmdb/src/api/PaymentRepository.cpp:71 | with exponent field 0 it is worth m * 2^-1074, in the same terms |
| Records.NegativeAmount | c++-haproxy-mongoose-lmdb/src/api/PaymentRepository.cpp:71 | the top bit negates it |
| Records.PowerOfTwoAmount | c++-haproxy-mongoose-lmdb/src/api/PaymentRepository.cpp:71 | exponent field 1023 + n and no fraction is 2^n, so 0x3FF0000000000000 is one |
| Records.AcceptableIff | c++-haproxy-mongoose-lmdb/src/api/main.cpp:104-110 | the guard accepts exactly 36 bytes of id with a double that is not zero and has no sign bit |
| Records.EntryLessIsStrictTotalOrder | c++-boost-ipc-lmdb/src/api/Database.cpp:51-57 | key-then-data order of a sorted-duplicates table is a strict total order |
| Records.EntryOrderIsTimeOrder | c++-haproxy-mongoose-lmdb/src/api/PaymentRepository.cpp:59-74 | along the table times never decrease as unsigned numbers |
| Records.EntryOrderIsRecordOrder | c++-boost-ipc-lmdb/src/api/Database.cpp:51-57 | table order in full: by unsigned time; among equal times by amount and then id on a big-endian machine, by id from its last byte and then amount on a little-endian one |
| Ledger.InsertHolds | c++-haproxy-mongoose-lmdb/src/api/PaymentRepository.cpp:24-26 | a put without flags leaves the old pairs and the new one, and nothing else |
| Ledger.InsertAddsRecord | c++-haproxy-mongoose-lmdb/src/api/PaymentRepository.cpp:13-27 | it keeps the table strictly sorted, without repeated pairs, and adds exactly that record |
| Ledger.TableIsCanonical | c++-haproxy-mongoose-lmdb/src/api/PaymentRepository.cpp:13-27 | a table is determined by the set of records it holds, so insertion order leaves no trace |
| Ledger.ClockSummaryExactIff | c++-haproxy-mongoose-lmdb/src/api/PaymentRepository.cpp:39-81 | the scan is right for every ledger of clock-made keys if and only if `from` is absent or not before 1970, or `to` is before 1970 |
| Ledger.AnySummaryExactIff | c++-haproxy-mongoose-lmdb/src/api/PaymentRepository.cpp:39-81 | with arbitrary keys it is right for every ledger only on the unbounded range, the range up to the largest time, and ranges wholly before 1970 |
| Repository.RecordRaisesSummary | c++-haproxy-mongoose-lmdb/src/api/PaymentRepository.cpp:13-81 | over clock-made records and a range not starting before 1970: putting a new record that is in range raises the scan of its gateway's table by one request (modulo 2^32) and its amount, any other put changes no scan, and the other gateway's table is untouched |
| Ledger.AdjacentScansAddUpIff | c++-haproxy-mongoose-lmdb/src/api/PaymentRepository.cpp:39-81 | over every ledger of clock-made keys the scans of two adjacent ranges add up to the scan of both, in exact arithmetic, if and only if the cut is harmless; it is whenever the ranges do not start before 1970 |
| Repository.Transaction.constructor | c++-haproxy-mongoose-lmdb/src/api/Database.h:63-68 | a transaction sees the tables committed when it began; a writer takes the writer lock |
| Repository.Transaction.Finish | c++-haproxy-mongoose-lmdb/src/api/Database.h:70-76 | a read transaction changes nothing, a write transaction publishes its view and releases the lock |
| Repository.Cursor.SetRange | c++-haproxy-mongoose-lmdb/src/api/PaymentRepository.cpp:47 | the seek stops at the first entry whose key is not below the given one |
| Repository.StretchTotals | c++-haproxy-mongoose-lmdb/src/api/PaymentRepository.cpp:59-81 | count and running total over those positions are the count and exact sum of the visited set |
| Repository.PaymentRepository.PostPayment | c++-haproxy-mongoose-lmdb/src/api/PaymentRepository.cpp:13-27 | the packed record is put in this gateway's table, the other table is untouched, and the writer lock is free again |
| Repository.PaymentRepository.GetPaymentsSummary | c++-haproxy-mongoose-lmdb/src/api/PaymentRepository.cpp:29-82 | the loop returns the count modulo 2^32 and the sum of the visited set, for every table and every range |
| Repository.PaymentRepository.Accumulate | c++-haproxy-mongoose-lmdb/src/api/PaymentRepository.cpp:59-74 | the loop stops exactly at the end or at the first time after `to`, having counted and added what lies before |
| Repository.PaymentRepository.Purge | c++-haproxy-mongoose-lmdb/src/api/PaymentRepository.cpp:84-90 | this gateway's table is emptied, the other untouched |
| Repository.PaymentService.PostPayment | c++-haproxy-mongoose-lmdb/src/api/PaymentService.cpp:7-12 | exactly this record is added to the named gateway's records and the other table is unchanged |
| Repository.PaymentService.GetPaymentsSummary | c++-haproxy-mongoose-lmdb/src/api/PaymentService.cpp:14-33 | both halves are scan summaries of one snapshot, and the database is unchanged |
| Repository.PaymentService.Purge | c++-haproxy-mongoose-lmdb/src/api/PaymentService.cpp:35-39 | undisturbed, both tables end empty |
| Queue.PendingPaymentsQueue.Enqueue | c++-haproxy-mongoose-lmdb/src/api/PendingPaymentsQueue.h:31-39 | the payment goes to the back |
| Queue.PendingPaymentsQueue.Dequeue | c++-haproxy-mongoose-lmdb/src/api/PendingPaymentsQueue.h:41-62 | it returns the front element at the first wake-up that sees one, and none only when the queue is empty and the process is finishing; it waits on only while neither is so; with nobody else about it takes the front at once |
| Queue.PendingPaymentsQueue.Purge | c++-haproxy-mongoose-lmdb/src/api/PendingPaymentsQueue.h:64-68 | the queue ends empty |
| Queue.OpsKeepOrder | c++-haproxy-mongoose-lmdb/src/api/PendingPaymentsQueue.h:31-68 | whatever others do while the lock is released, what is left is an end of the old contents followed by what was pushed, and all of it if they only push |
| Processor.ProcessPayment | c++-haproxy-mongoose-lmdb/src/api/PaymentProcessor.cpp:41-120 | every request goes where a fresh client for the captured gateway would send it; all attempts but the last met no response or a status from 500 to 599; the payment is recorded, once, with its own gateway, amount and time, if and only if the last status is 200, and dropped with a flip and no record if and only if it is any other |
| Api.HttpApi.PostPayments | c++-haproxy-mongoose-lmdb/src/api/main.cpp:83-121 | 200 and enqueued if and only if id and amount are present, the id has 36 bytes and the amount is positive; otherwise 422 and nothing enqueued |
| Api.HttpApi.PurgePayments | c++-haproxy-mongoose-lmdb/src/api/main.cpp:122-128 | undisturbed, both tables and this process's queue end empty |
| Api.HttpApi.GetPaymentsSummary | c++-haproxy-mongoose-lmdb/src/api/main.cpp:54-82 | both halves are the scan summaries; over clock-made records and a range not starting before 1970 they are the filter-and-sum of their ledgers |
| PipelineSafety.CacheAlwaysMatches | c++-haproxy-mongoose-lmdb/src/api/PaymentProcessor.cpp:49-76 | in every run, although an iteration compares only the old and the new address: a worker about to send, or waiting, has a client, and it targets the gateway just captured; between attempts it targets the last address |
| PipelineSafety.ReplyByNumber | c++-haproxy-mongoose-lmdb/src/api/PaymentProcessor.cpp:86-118 | for every status, a worker whose client matches is confirmed by the captured gateway on 200, tries again with the same client on no response or 500 to 599, and is refused on anything else |
| PipelineSafety.PaymentsAreConserved | c++-haproxy-mongoose-lmdb/src/api/PaymentProcessor.cpp:26-120 | in every run, for every payment: copies accepted = queued + held by workers + stored + discarded by a decisive rejection + cleared by purges |
| QueueOrder.QueuesAreFifo | c++-haproxy-mongoose-lmdb/src/api/PendingPaymentsQueue.h:31-68 | in every run what entered a queue is, in order, what left it (to workers or in purges) followed by what it holds |
| QueueOrder.PostArrives | c++-haproxy-mongoose-lmdb/src/api/main.cpp:83-121 | every acceptable post, by the bytes received, puts its payment at the back of its process's queue and is logged; any other leaves no trace |
| QueueOrder.WorkerTakesFront | c++-haproxy-mongoose-lmdb/src/api/PaymentProcessor.cpp:26-36 | an idle worker takes the front of its queue, without address or client; any other take leaves no trace |
| QueueOrder.PurgesClearTheQueue | c++-haproxy-mongoose-lmdb/src/api/PendingPaymentsQueue.h:64-68 | in every run, when a queue is cleared everything that had entered it has left it |
| LedgerAgreement.ConfirmationsAreStored | c++-haproxy-mongoose-lmdb/src/api/PaymentProcessor.cpp:86-101 | in every run, for every record: confirmations by a gateway = times stored under that gateway + confirmations still with a worker |
| LedgerAgreement.LedgerIsItsHistory | c++-haproxy-mongoose-lmdb/src/api/PaymentService.cpp:7-39 | in every run each table is sorted and holds exactly what was kept for its gateway, whatever purges and workers interleave |
| EndToEnd.KeptIff | c++-haproxy-mongoose-lmdb/src/api/PaymentRepository.cpp:84-90 | kept means: stored by some event after which the gateway's table was not dropped |
| EndToEnd.AnswersComeFromOneMoment | c++-haproxy-mongoose-lmdb/src/api/PaymentService.cpp:14-33 | in every run each summary answered gives, for both gateways, the tables as they were at one moment after the request for it arrived and before the answer |
| EndToEnd.SummaryRuns | c++-haproxy-mongoose-lmdb/src/api/PaymentService.cpp:14-33 | left alone, a free thread logs the request with its range and answers with the scans of both tables for that range, changing nothing else |
| EndToEnd.RunsAreFaithful | c++-haproxy-mongoose-lmdb/src/api/PaymentProcessor.cpp:41-120 | every reachable state is faithful: tables equal their history, confirmations equal stored plus pending for every gateway and record, stored times come from the clock |
| EndToEnd.EveryRecordWasConfirmed | c++-haproxy-mongoose-lmdb/src/api/PaymentProcessor.cpp:86-101 | in a faithful state, purges included, each record in a ledger was confirmed with 200 by that gateway, and its time is not before 1970 |
| EndToEnd.ConfirmedIsStoredOrPending | c++-haproxy-mongoose-lmdb/src/api/PaymentProcessor.cpp:52-119 | with no drop of its table, the distinct confirmations of a gateway are the records in its ledger together with those still in a worker's hands |
| EndToEnd.SummaryIsWhatTheGatewayConfirmed | c++-haproxy-mongoose-lmdb/src/api/PaymentRepository.cpp:29-82 | with nothing pending either, the summary of any range not starting before 1970, and the unbounded one, is the count and exact sum of the distinct confirmations in it |
| EndToEnd.LedgerAgreesWithTheGateway | c++-haproxy-mongoose-lmdb/src/api/PaymentProcessor.cpp:52-119 | both, in every run of any number of processes, workers, HTTP threads, chooser stores and flips |
| EndToEnd.RunsAreCausal | c++-haproxy-mongoose-lmdb/src/api/PaymentProcessor.cpp:90-100 | in every run each stored record was confirmed by its gateway before it was stored |
| EndToEnd.KeptIsBracketed | c++-haproxy-mongoose-lmdb/src/api/PaymentService.cpp:14-33 | what a table held at a moment of the call includes every record stored before the request and not dropped since, and only records confirmed and stored before the answer |
| EndToEnd.TrueAnswerPrintsWhatWasConfirmed | c++-haproxy-mongoose-lmdb/src/api/PaymentService.cpp:14-33 | an answer about a range not starting before 1970, read at a moment of its call in a causal history, is the count and exact sum over the range of such a set of records |
| EndToEnd.PrintedSummaryIsWhatTheGatewayConfirmed | c++-haproxy-mongoose-lmdb/src/api/main.cpp:54-82 | the same for every answer printed in any run, purges included: everything stored before the request and not dropped since is counted if in range, and nothing is that the gateway had not confirmed |
| EndToEnd.SettledAnswerIsExact | c++-haproxy-mongoose-lmdb/src/api/main.cpp:54-82 | such an answer, for a gateway whose table was never dropped and whose confirmations were all stored before the request, is the count and exact sum of its distinct confirmations in range |
| EndToEnd.OneRecordPerConfirmationIff | c++-haproxy-mongoose-lmdb/src/api/PaymentRepository.cpp:17-26 | with no drop and nothing pending, the ledger has as many records as confirmations if and only if no two confirmations agree in time, amount and id |
| EndToEnd.RepeatedConfirmationsLeaveOneRecord | c++-haproxy-mongoose-lmdb/src/api/PaymentRepository.cpp:17-26 | the failing side, from every initial state with a worker and for every gateway, payment and clock value: a run in which the gateway confirms twice, both are stored, and the ledger has one record and the summary counts one |
| EndToEnd.DistinctConfirmations | c++-haproxy-mongoose-lmdb/src/api/PaymentRepository.cpp:17-26 | distinct confirmations never outnumber confirmations, and are as many exactly when none repeats |
| Purge.PurgeLeavesNothingIff | c++-haproxy-mongoose-lmdb/src/api/main.cpp:122-128 | from every state whose clients match and that has an HTTP thread: in all continuations without arrivals whatever tables are dropped stay empty, if and only if every worker is idle or about to flip and finds its queue empty |
| Purge.PurgeRuns | c++-haproxy-mongoose-lmdb/src/api/main.cpp:122-128 | left alone, a free thread ends with both tables and its process's queue empty, everything else as before, and has logged both drops and all the payments it cleared |
| Purge.NothingToStoreNothingLeft | c++-haproxy-mongoose-lmdb/src/api/main.cpp:122-128 | with every worker inactive, no continuation without arrivals puts anything into a dropped table |
| Purge.PurgeCanLeaveARecord | c++-haproxy-mongoose-lmdb/src/api/main.cpp:122-128 | from any state with an active worker: a continuation without arrivals in which a whole purge begins and ends, clearing its queue, and a record is stored after it |
| Purge.RunsStayPlaced | c++-haproxy-mongoose-lmdb/src/api/PaymentProcessor.cpp:41-120 | the reachable states are among those the equivalence speaks of |
| WorkerRefinement.SoloWorkerRunsTheLoop | c++-haproxy-mongoose-lmdb/src/api/PaymentProcessor.cpp:52-119 | a pipeline worker scheduled alone, under any stores to the gateway byte, goes through the retry loop's iterations and ends where the loop's contract says |
| WorkerRefinement.TurnRuns | c++-haproxy-mongoose-lmdb/src/api/PaymentProcessor.cpp:54-118 | load, send and reply of the pipeline come to one iteration of the loop |
| WorkerRefinement.SoloWorkerStores | c++-haproxy-mongoose-lmdb/src/api/PaymentProcessor.cpp:90-101 | then an accepted payment is stored under the gateway and time of its own attempt, and the worker is free |
| WorkerRefinement.SoloWorkerFlips | c++-haproxy-mongoose-lmdb/src/api/PaymentProcessor.cpp:102-118 | and a rejected one flips the byte away from the gateway that rejected it, storing nothing |
| WorkerRefinement.ServeRuns | c++-haproxy-mongoose-lmdb/src/api/PaymentProcessor.cpp:26-101 | a payment posted to an idle worker's empty queue and accepted at its first attempt leaves queue and worker as they were, and adds its record to the table of the gateway that accepted it |
| WorkerRefinement.AttemptAmongOthers | c++-haproxy-mongoose-lmdb/src/api/PaymentProcessor.cpp:54-101 | with anything by others in between, stores to the byte and purges included, an attempt is judged by its status under the gateway captured when it began and the clock read when it was sent |
| WorkerRefinement.StoreAmongOthers | c++-haproxy-mongoose-lmdb/src/api/PaymentProcessor.cpp:90-101 | and then its own record goes into the table of the gateway that confirmed it, and into no other |
| WorkerRefinement.FlipAmongOthers | c++-haproxy-mongoose-lmdb/src/api/PaymentProcessor.cpp:102-118 | or the byte is left naming not the gateway that refused, with nothing stored |
| SlotPermits.PermitsAreAccounted | c++-boost-ipc-lmdb/src/api/main.cpp:39-69 | in every interleaving: requests posted = request permits + handlers in service + payments enqueued + responses posted; responses posted = permits + one being read + returned; bodies taken = enqueued + in handlers' hands |
| SlotSafety.DisciplinedRunsAreSequential | c++-boost-ipc-lmdb/src/proxy/main.cpp:71-150 | if the proxy starts requests only when nothing on the slot is unread: it never writes or reads the slot while a permit is up or a handler may look at it, at most one permit or such handler exists, and the history is that of requests served one at a time (each payment taken once, in order, each response read belonging to the request just posted) |
| SlotSafety.SummariesAndPurgesAreSafe | c++-boost-ipc-lmdb/src/proxy/main.cpp:83-106 | traffic without posts meets that discipline by itself, for any number of handlers, and request permits + handlers in service + response permits never exceed one |
| SlotSafety.StrictRunsAreExclusive | c++-boost-ipc-lmdb/src/api/main.cpp:39-69 | if requests start only with no permit up and no handler in service, request permits + handlers in service + response permits never exceed one |
| SlotSafety.StartIsSequentialIff | c++-boost-ipc-lmdb/src/proxy/main.cpp:111-139 | from a good state, the history stays that of requests served one at a time, in every continuation of a request that posts, if and only if nothing on the slot is unread |
| SlotDiscipline.StartIsSafeIff | c++-boost-ipc-lmdb/src/proxy/main.cpp:71-150 | after any run of harmless starts, and for every request, unreadable ones included: all continuations take each payment posted exactly once, as posted, and give each response to its own request, if and only if starting it is harmless: nothing unread, or no handlers, or a request that does not touch the slot, or a purge while the handler of the unread payment only has to read the body |
| SlotDiscipline.HarmlessRunsAreUndamaged | c++-boost-ipc-lmdb/src/api/main.cpp:39-69 | whole runs in which every start is harmless: no payment is made up, torn, taken twice or lost, and every response read was made for the request just posted |
| SlotDamage.GoodIsUndamaged | c++-boost-ipc-lmdb/src/api/main.cpp:39-69 | a sequential service damages nothing |
| SlotDamage.StepKeepsOverlapped | c++-boost-ipc-lmdb/src/api/main.cpp:41-68 | a purge under way beside a handler that is about to read a payment leaves payments and responses intact at every step |
| SlotDamage.HarmfulStart | c++-boost-ipc-lmdb/src/proxy/main.cpp:83-143 | any other start has a continuation that takes a payment nobody posted, or leaves a posted one untaken for good |
| SlotDamage.EarlyPostCanLoseAPayment | c++-boost-ipc-lmdb/src/proxy/main.cpp:114-135 | whenever a posted payment is unread and there is a handler, be it that the permit is up, or a handler just woken or about to read, a second post has a continuation that enqueues the second payment twice and never takes the first |
| SlotSafety.ProxyPosts | c++-boost-ipc-lmdb/src/proxy/main.cpp:111-149 | the proxy's writes end with the slot showing the request and one more permit |
| SlotDamage.HandlerTakesBody | c++-boost-ipc-lmdb/src/api/main.cpp:45-52 | a handler about to read a payment enqueues whatever the union holds then |
| SlotDamage.RequestIsCarriedOut | c++-boost-ipc-lmdb/src/proxy/main.cpp:83-149 | on a quiet slot with a sleeping handler every request that wakes it can be carried out and leaves the slot quiet: a payment is enqueued as posted, a summary is answered for the range asked about, a purge is made, and each response reaches its request |
| Ipc.HandlerTurn | c++-boost-ipc-lmdb/src/api/main.cpp:41-68 | what one uninterrupted turn of a handler comes to, for each tag |
| Ipc.WritesSettle | c++-boost-ipc-lmdb/src/proxy/main.cpp:83-143 | what the writes of each request leave in the slot, unreadable and unacceptable requests included |
| Ipc.IpcMessage.WriteRequest | c++-boost-ipc-lmdb/src/proxy/main.cpp:71-150 | the proxy's code, undisturbed, is exactly the protocol's proxy steps; it wakes a handler for a readable summary, a purge, and a payment with 36 bytes of id and a double greater than zero, and for nothing else |
| Ipc.IpcMessage.HandleRequest | c++-boost-ipc-lmdb/src/api/main.cpp:41-68 | whatever the union holds: a handler enqueues what it reads as the payment, or answers with the scan summaries of both ledgers for what it reads as the range, or purges, and posts a response except for a payment; undisturbed it is exactly the protocol's handler steps |
| Ipc.IpcConnection.constructor | c++-boost-ipc-lmdb/src/common/Protocol.h:65-87 | one fresh slot per worker, all distinct and in the protocol's initial state, then ready |
| Ipc.SlotAssignment.SlotFor | c++-boost-ipc-lmdb/src/proxy/main.cpp:66-71 | a proxy thread keeps its slot, a new thread gets the next number, and all others keep theirs |
| Ipc.SlotsSufficeIff | c++-boost-ipc-lmdb/src/proxy/main.cpp:66-71 | no two threads share a slot, and all slots in use lie within those allocated if and only if no more threads asked for one than there are workers |
| Chooser.Choose | c++-haproxy-mongoose-lmdb/src/api/GatewayChooserService.cpp:145-183 | branch by branch: two healthy gateways are told apart by a default time over 100 and over twice the fallback's, a failing one is avoided, two failing mean the default; one known gateway is used unless failing, except that a healthy fallback alone only keeps the value loaded |
| Chooser.GatewayChooser.Iterate | c++-haproxy-mongoose-lmdb/src/api/GatewayChooserService.cpp:123-192 | exactly the due polls are made, and the byte ends with the last store made: by others before the load or in the window, or after them the choice, stored if it differs from the value loaded |
| Chooser.GatewayChooser.PollIfDue | c++-haproxy-mongoose-lmdb/src/api/GatewayChooserService.cpp:128-142 | a gateway is polled exactly when due, 5010 ms after its last poll; then the health kept is the poll's own result, or the old one if it failed, and the other gateway's is untouched |
| Chooser.GatewayChooser.Handler | c++-haproxy-mongoose-lmdb/src/api/GatewayChooserService.cpp:113-211 | whatever the clock does, every round makes exactly the polls that are due, every decision is explained by the last store before its load and the last successful polls, and the polls of a gateway are 5010 ms apart; with a monotone clock and full sleeps every round polls both |
| Chooser.NeverTheFailingOne | c++-haproxy-mongoose-lmdb/src/api/GatewayChooserService.cpp:145-169 | in any run, with polls i and j the last of each gateway that succeeded: a gateway that said failing there is not chosen while the other said healthy, and of two healthy ones the times in those polls decide |
| Chooser.OnlyDefaultKnown | c++-haproxy-mongoose-lmdb/src/api/GatewayChooserService.cpp:164-170 | with no successful poll of the fallback, the last one of the default decides |
| Chooser.OnlyFallbackKnown | c++-haproxy-mongoose-lmdb/src/api/GatewayChooserService.cpp:171-180 | with no successful poll of the default, a failing fallback means the default and a healthy one leaves the value loaded |
| Chooser.LastKnownIff | c++-haproxy-mongoose-lmdb/src/api/GatewayChooserService.cpp:128-142 | the health remembered is h exactly when some poll of the gateway returned h and no later one of it succeeded |
| Chooser.HealthIsRemembered | c++-haproxy-mongoose-lmdb/src/api/GatewayChooserService.cpp:120-142 | known health never returns to unknown; it is unknown exactly while no poll succeeded; later results replace earlier ones |
| Chooser.SameHealthSameByte | c++-haproxy-mongoose-lmdb/src/api/GatewayChooserService.cpp:145-192 | a corollary of Handler's contract: with the default's health known and no store in the window, two runs that agree on the last successful polls leave the same byte, whatever flips came before |
| Chooser.UnknownMeansDefault | c++-haproxy-mongoose-lmdb/src/api/GatewayChooserService.cpp:171-183 | in any run, with no successful poll of the default, and none of the fallback or a failing last one, the choice is the default |
| Chooser.PollRateBound | c++-haproxy-mongoose-lmdb/src/api/GatewayChooserService.cpp:117-142 | with a monotone clock and full sleeps, one health request to each gateway leaves per iteration, and at most floor(W / 5 010 000 000) + 1 in any window of W nanoseconds |
| Chooser.WindowHoldsFew | c++-haproxy-mongoose-lmdb/src/api/GatewayChooserService.cpp:117-142 | times at least POLL_TIME apart: at most floor(W / POLL_TIME) + 1 fall in any window of length W |
| RecursiveProcessor.ProcessPayment | c++-boost-ipc-lmdb/src/api/PaymentProcessor.cpp:76-162 | every call before the last met a status other than 200; the payment is recorded under the last target if and only if the last reply is 200, dropped if and only if it is a transport exception, and otherwise the calls go on |
| RecursiveProcessor.AttemptsFollowFlips | c++-boost-ipc-lmdb/src/api/PaymentProcessor.cpp:78-154 | each attempt goes to the last store by others before it, and without one away from the gateway that has just refused |
| RecursiveProcessor.TargetsAlternate | c++-boost-ipc-lmdb/src/api/PaymentProcessor.cpp:78-154 | with no other writer attempt k goes to the starting gateway exactly when k is even |
| RecursiveProcessor.UndisturbedOutcome | c++-boost-ipc-lmdb/src/api/PaymentProcessor.cpp:76-162 | with no other writer, after n statuses other than 200 the register ends at the gateway of parity n, the payment is recorded there if and only if the next reply is 200, and it is dropped without a record if and only if that is an exception |
| Startup.FollowersPassOneByOne | c++-boost-ipc-lmdb/src/api/Database.cpp:16-37 | at every moment followers passed and permits left add up to the permits left over and the coordinator's one post |
| Startup.FollowerPassesBeforeCommit | c++-boost-ipc-lmdb/src/api/Database.cpp:21-65 | a follower can pass while the coordinator holds its transaction, and its tables open once that is committed |
| Startup.StartupIsOrderedIff | c++-boost-ipc-lmdb/src/api/Database.cpp:19-66 | in every interleaving followers open tables only after the old files were removed and both tables committed, if and only if the semaphore starts at zero |
| Startup.LeftOverPermitBreaksOrder | c++-boost-ipc-lmdb/src/api/Database.cpp:17-33 | with a permit left over, a follower can be in the tables before the coordinator has done anything |

## Left out

- HTTP, TCP, DNS, coroutines, JSON reading and formatting: library code; an attempt is an arbitrary status or exception, a poll an optional result, a request its fields.
- LMDB's pages, maps and flags other than key order: its documented contract is taken over (comparator order, one copy of equal pairs, single writer, snapshot reads); a store error ends a run.
- Rounding of doubles and infinite or undefined amounts: amounts are added as exact reals, so sums do not depend on order.
- Overflow of `minResponseTime * 2`: response times are unbounded integers.
- What a gateway did with a request it never answered: only confirmations that reached a worker count as confirmed.
- Weak memory: stores to the gateway byte, semaphore operations and accesses to a slot are interleaved one at a time.
- Liveness: fairness, wake-up timing and shutdown by signals; a timeout is a possible step.
- Startup.StartupIsOrderedIff: speaks of the variant with the semaphore; the two-second sleep of the other variant orders nothing. The constructor is modelled as interleaved statements, not as a class.
- Slot.Writes: each field of the union, the 36 bytes of an id included, is written in one step, and a handler reads a whole request in one. A start that `SlotDiscipline.StartIsSafeIff` calls harmless does not write the union while somebody may read it, so finer steps would not change the answer.
- Ipc.IpcMessage.HandleRequest: what the bytes of one request mean when read as another is an arbitrary payment or range.
- RecursiveProcessor.ProcessPayment: exceptions other than transport ones, which end the coroutine, are not modelled.
- Slot.Step: the response of a summary is an arbitrary value in the protocol; `Ipc.IpcMessage.HandleRequest` says which.
- The waiting side of the shared-memory header (`ready`), creation and removal of shared memory, and the statuses the proxy returns (always 200).
- The proxies of the other variants, haproxy.cfg, and the API trees of `c++-boost-lmdb` and `c++-drogon-lmdb`: forwarding, and copies with another web layer.
- Config, parseHostPort, parseDateTime, logging, build and container files.
