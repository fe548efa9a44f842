# Credits, streams, subscriptions and limits

A verification project for an inference gateway that sells credits: it models the service's
central bookkeeping and stream handling in Dafny and proves what the code relies on. `dafny verify
dfyconfig.toml` checks the whole project.

Four groups of modules, each on the code's own state:

* **Credits.** `Charge` and `HoldPlan` are the price arithmetic and the sizing of a hold, exact and on
  64-bit integers. `Ledger` gives each billing transaction its meaning as one atomic step on the
  organization, hold, request and ledger tables; `BillingRepository` is the repository, statement by
  statement on mutable tables, proved against it. `Conservation` and `CreditRuns` prove the balance
  equation for every transaction and every run; `Settlement` proves confluence of settlement, the
  debt bound and the cost ceiling; `Recording` when transactions commit and that what was delivered is
  recorded; `HoldExpiry` how long holds live. `LockProtocol` splits the transactions into their
  statements under row locks on organizations and holds and proves that every interleaving is
  equivalent to a serial run and cannot deadlock, `LockProgress` that it comes to an end.
* **Streams.** `EventStream` is the binary frame codec (Amazon Event Stream message framing), with the
  buffered reader as an object; `ServerSentEvents` the line scanner and the native route's writer;
  `ResponsesAdapter`, `AnthropicSink` and `OpenAISink` the stateful translators as classes;
  `StreamGrammar` and `Dialects` prove the grammar of the frames and the agreement of the two
  dialects, `ClientProtocol` that strict clients of both read responses to their end; `Relay` is the
  relay loop with its verdict, and the path from verdict to bill; `SentStreams` tells verdict and
  bill from the provider's messages, byte by byte.
* **Subscriptions.** `Subscriptions` decides which mandate to keep and which to cancel; `Deliveries` is
  the machine of many interleaved, crashing and repeated deliveries; `Redelivery` says what a single
  delivery amounts to and what a crash followed by a redelivery changes, `Cancellations` which mandates
  the two cancel; `Mandates` tells judgement, grants and cancellations from the plan list and the
  invoices alone; `DodoService` is the handler on its stored rows, proved against all that.
* **Limits and requests.** `Limiter`, `LimiterTraces` and `LimiterMemory` are the token buckets, their
  traces and the limiter object, `LimiterRates` what they grant in requests per minute;
  `RequestTranslation` the way of a chat request to the provider's input.

`Wrappers`, `Text`, `Sums` and `Frames` are shared vocabulary.

What the proofs assume of the surroundings, as hypotheses of the theorems:

* Each idempotency key belongs to one job with one fixed hold, organization and amount, and the job's
  hold row exists and belongs to the job's organization. Generated hold ids are fresh. No grant key
  begins with `usage:`.
* Prices are not negative. `NeverOverdrawn` also assumes that a call is billed at the prices it was
  reserved at, within its estimate and cap, before its hold is reclaimed.
* Subscription ids, plan slugs and months have no colon and no outer white space, and other
  services write no ledger row under a subscription's key.
* Clock readings do not go back from one call to the next on the limiter, and a bucket is created at
  the reading of the call that needs it.

Where the code does less than its comments say, the model follows the code and a lemma says exactly
when:

* A balance above 9223372036854 micros left for output overflows the scaled budget; up to twice that
  it is refused as if it were empty (`HoldPlan.Int64Exact`, `HoldPlan.LargeBalanceIsRefused`).
* The frame reader's length guard admits header lengths between total minus 15 and total, which stop
  the program (`EventStream.PanicsExactly`, `EventStream.OverlongStopsProgram`).
* A stream that ends right after a frame's 12-byte prelude is taken for a clean end, because the
  wrapped end-of-file error still matches (`EventStream.CutIsNoticedExactly`,
  `EventStream.CutAfterPreludeIsMissed`, `Relay.CutStreamVerdict`).
* Argument fragments before any function call reach no tool call (`Dialects.NothingLostExactly`,
  `Dialects.EarlyArgumentsAreLost`).
* A webhook delivery that grants and raises the plan, breaks off before it stores the mandate and is
  delivered again cancels the subscription just paid for, if the stored mandate's plan is not known
  from invoices (`Redelivery.RedeliveryCompletesExactly`, `Cancellations.UpgradeCanBeLost`).
* A mandate adopted below the organization's plan is cancelled by the next delivery of the same event
  (`Cancellations.AdoptedRedelivery`, `Cancellations.DuplicateCancelsAdopted`).

## Model

| member | source | states |
|---|---|---|
| Charge.CeilCovers | internal/services/billing/charge.go:20-25 | a budget covers the ceiling price exactly when it covers the exact, unrounded price |
| Charge.BillIsExact | internal/services/billing/charge.go:10-18 | the bill is the exact price of the tokens, negative counts taken for none, cut to whole micros towards zero |
| Charge.BudgetInverts | internal/services/billing/charge.go:27-36 | one integer division inverts the ceiling price: a count within the hard cap is affordable if and only if it is at most the quotient |
| Charge.FloorWithinCeiling | internal/services/billing/charge.go:10-25 | the floor bill of a call within its estimate and cap is between zero and the ceiling freeze |
| HoldPlan.AffordableExact | internal/services/billing/hold_plan.go:41-52 | the affordable count is the exact threshold: a count is within it if and only if its freeze fits the balance |
| HoldPlan.ComputeHoldIsMaximal | internal/services/billing/hold_plan.go:20-68 | a hold is granted exactly when the threshold, the input and one output token are affordable; it then promises the largest affordable count within the request and freezes exactly its price, so the closing guard never refuses |
| HoldPlan.Int64Exact | internal/services/billing/hold_plan.go:20-68 | with price products that fit, for every 64-bit balance the 64-bit computation equals the exact one if and only if the balance left for output can be scaled by a million, or wraps to one that affords the request all the same, or is not looked at |
| HoldPlan.PromisesWhenNot | internal/services/billing/hold_plan.go:41-67 | with a larger balance the exact computation promises the whole request, the 64-bit one refuses or promises less unless the wrapped budget affords it |
| HoldPlan.LargeBalanceIsRefused | internal/services/billing/hold_plan.go:20-68 | a balance of ten million dollars for which the 64-bit computation refuses the hold that the exact one grants |
| HoldPlan.RefusesWhenNot | internal/services/billing/hold_plan.go:41-52 | a balance above the bound, up to twice it, is refused for insufficient credits although the exact computation grants the hold |
| Sums.SumSplit | internal/repositories/billing/hold.go:207-233 | taking some rows out of a table takes exactly their amounts out of its sum, in whatever order rows are added |
| BillingRepository.Repository.ReclaimExpiredHoldsTxCount | internal/repositories/billing/hold.go:207-233 | settles exactly the organization's expired holds, returns their sum to its balance and counts them |
| BillingRepository.Repository.PlaceHold | internal/repositories/billing/hold.go:26-124 | the transaction leaves the tables and answers the caller as its atomic meaning says; every refusal leaves them untouched |
| BillingRepository.Repository.SettleHoldTx | internal/repositories/billing/hold.go:255-349 | settles an open hold once: refund and use in the same update; unknown and settled holds change nothing |
| BillingRepository.Repository.DebitUsageTx | internal/repositories/billing/hold.go:351-368 | moves a positive amount from remaining to used |
| BillingRepository.Repository.ReleaseHold | internal/repositories/billing/hold.go:126-145 | a release is a settlement with no use |
| BillingRepository.Repository.ReleaseExpiredHolds | internal/repositories/billing/hold.go:147-200 | the sweeper's loop over the organizations nobody else has locked amounts to sweeping them all at once, and the count is the number of holds released |
| BillingRepository.Repository.ReclaimExpiredForOrg | internal/repositories/billing/hold.go:385-414 | sweeps one existing organization; a missing one is reported and nothing changes |
| BillingRepository.Repository.Record | internal/repositories/billing/repository.go:43-157 | request row, usage row, settlement and late debit, statement by statement, amount to the atomic meaning; a failed settlement rolls everything back |
| BillingRepository.Repository.GrantCredits | internal/repositories/billing/repository.go:183-245 | grants once per key and leaves the tables alone for a known key or an invalid grant |
| Conservation.SweepMoves | internal/repositories/billing/hold.go:207-233 | a sweep lowers the frozen total of an organization by exactly its expired holds |
| Conservation.SweepConserves | internal/repositories/billing/hold.go:207-233 | a sweep keeps the balance equation of every organization, and neither repairs nor breaks it |
| Conservation.PlaceConserves | internal/repositories/billing/hold.go:26-124 | placing a hold keeps the balance equation of every organization |
| Conservation.GrantConserves | internal/repositories/billing/repository.go:201-245 | a grant keeps it |
| Conservation.ReleaseConserves | internal/repositories/billing/hold.go:126-145 | a release keeps it |
| Conservation.RecordConservesExactly | internal/repositories/billing/repository.go:43-157 | recording a call keeps it if and only if its usage row and its settlement or debit go together on one organization |
| Conservation.RecordShape | internal/repositories/billing/repository.go:63-151 | every committed recording, table by table: what each organization gets back and is charged |
| CreditRuns.EmptyTablesAreBalanced | internal/repositories/billing/repository.go:43-157 | the empty tables satisfy the invariant |
| CreditRuns.StepKeeps | internal/repositories/billing/hold.go:26-368 | every transaction keeps the whole invariant: balances, ledger rows and job rows |
| CreditRuns.EveryRunConserves | internal/repositories/billing/repository.go:43-157 | in every state that any interleaving and any redelivery reaches, granted is the sum of the grant rows, used the sum of the usage rows, and remaining plus open holds their difference |
| CreditRuns.EveryRunAges | internal/repositories/billing/hold.go:255-330 | over every run a hold keeps its organization and amount and is settled at most once, never reopened |
| Settlement.RunsAreConfluent | internal/repositories/billing/repository.go:63-151 | two runs in any order that recorded the same calls and grants end with the same ledger, granted and used credits, and free and frozen credits together; where the same is frozen, with the same balances |
| Settlement.SettlementIsConfluent | internal/repositories/billing/repository.go:63-151 | for one job, any sequence of deliveries, releases and sweeps with one committed recording: one request row, at most one usage row of the actual charge, the hold settled, free and frozen credits lowered by exactly the charge |
| Settlement.OnlyHoldComesBack | internal/repositories/billing/hold.go:255-349 | with no other open hold, the balance ends at what it was before the hold less exactly the charge |
| Settlement.FailureIsFree | internal/repositories/billing/repository.go:95-134 | a failed call writes no usage row and settles as a plain release: used is unchanged, an open hold comes back in full |
| Settlement.PlaceReplyIsTrue | internal/repositories/billing/hold.go:99-123 | the reply names a new open hold, exactly what was planned for the balance it reports, and the balances before and after it |
| Settlement.SettleReplyIsTrue | internal/repositories/billing/hold.go:255-349 | the reply says applied exactly if the hold was open, and then the stored balances differ by the refund it names |
| Settlement.PlaceLeavesNonNegative | internal/repositories/billing/hold.go:77-97 | a committed hold leaves the balance it was taken from non-negative |
| Settlement.DebtIsBounded | internal/repositories/billing/repository.go:140-151 | over every run, debt grows by no more than the overruns of timely settlements, the charges on refunded holds and the charges without a hold |
| Settlement.PlannedHoldIsPlaced | internal/services/billing/reserve.go:73-87 | under the row lock the conditional debit commits exactly the plans that the planner makes |
| Settlement.BilledWithinHold | internal/services/billing/charge.go:10-25 | a call within its plan that is billed before its hold is reclaimed never overruns it |
| Settlement.NeverOverdrawn | internal/services/billing/reserve.go:50-102 | runs whose calls keep to their plan and settle in time never overdraw any organization, at any point |
| Recording.PlaceCommitsExactly | internal/repositories/billing/hold.go:26-97 | a hold is placed if and only if the organization exists, the planner plans at least one micro and one token, and the balance left by the reclaim covers the plan and the threshold |
| Recording.GrantCommitsExactly | internal/repositories/billing/repository.go:201-245 | a grant goes through if and only if it has a key and a positive amount and its organization exists or its key is known; a new key then moves exactly its amount |
| Recording.RecordCommitsExactly | internal/repositories/billing/repository.go:63-156 | a call is recorded if and only if it has a key, its organization exists (or its request row does and no usage row is due) and its hold, if it exists, belongs to an existing organization |
| Recording.DeliveredIsRecorded | internal/repositories/billing/repository.go:63-156 | over every run: wherever a call is delivered, or a grant made, for an existing organization, its row is there in the end |
| Recording.OneDeliveryCharges | internal/repositories/billing/repository.go:63-156 | one delivery is enough: among any repetitions, releases and sweeps the call is charged exactly once, in full, and its hold settled |
| HoldExpiry.HoldLivesItsTtl | internal/repositories/billing/hold.go:33-35 | a sweep settles a hold just placed if and only if it covers its organization and comes later than the whole seconds of its time to live, a minute for less than a second |
| HoldExpiry.HoldOutlivesRun | internal/repositories/billing/hold.go:99-110 | over every run nothing but its own settlement or a reclaim after its time takes a hold away; the first reclaim after that does |
| HoldExpiry.SweeperSettlesExactly | internal/repositories/billing/hold.go:147-200 | a pass of the sweeper settles exactly the holds that have expired, except where somebody else has locked the organization |
| LockProtocol.FreshStartIsOk | internal/repositories/billing/hold.go:26-124 | transactions that have not begun, with fresh ids, are a system in order |
| LockProtocol.StatementKeepsOk | internal/repositories/billing/hold.go:26-124 | after every statement a transaction's locks and uncommitted writes are what the committed rows it locked determine |
| LockProtocol.OthersStayOk | internal/repositories/billing/hold.go:253-330 | another transaction's commit does not disturb a transaction's writes: rows are changed only under their organization's lock |
| LockProtocol.CommitIsAtomic | internal/repositories/billing/hold.go:26-124 | a commit makes the tables exactly what the whole transaction, run at that instant, makes of them |
| LockProtocol.AbortIsAtomic | internal/repositories/billing/hold.go:26-124 | giving up leaves the tables as the whole transaction, run at that instant, would have left them |
| LockProtocol.StepRefines | internal/repositories/billing/hold.go:253-330 | every statement of every interleaving refines the atomic transactions |
| LockProtocol.InterleavingIsSerial | internal/repositories/billing/hold.go:126-330 | every interleaving of hold, release, reclaim and sweep statements equals running the transactions one after the other; balances stay true and no hold is settled twice |
| LockProtocol.RowsAreUnderLockedOrgs | internal/repositories/billing/hold.go:252-253 | a locked hold row belongs to an organization that the same transaction has locked, or is the row of the hold being placed |
| LockProtocol.RowsDisjoint | internal/repositories/billing/hold.go:291-298 | no hold row is locked by two transactions |
| LockProtocol.LockHoldersNeverWait | internal/repositories/billing/hold.go:252-298 | a transaction that holds a lock on an organization or a hold row never waits for another one: not at the hold's FOR UPDATE, not at the reclaim's updates, not at the insert |
| LockProtocol.NoDeadlock | internal/repositories/billing/hold.go:252-253 | as long as a transaction is unfinished some transaction can go on |
| LockProtocol.HoldFirstWouldDeadlock | internal/repositories/billing/hold.go:252-253 | with the hold locked before its organization, two transactions would wait for each other for ever |
| LockProgress.RowsAreWaitedFor | internal/repositories/billing/hold.go:252-298 | statements wait for the rows they lock: the organization's at the start, the hold's at its FOR UPDATE, each expired hold's at the reclaim, the new one's at the insert |
| LockProgress.SweeperLocksExactly | internal/repositories/billing/hold.go:153-164 | the sweeper locks exactly the organizations with an expired hold that nobody else has locked |
| LockProgress.InterleavingsEnd | internal/repositories/billing/hold.go:126-330 | no interleaving goes on for ever: the number of its statements is bounded beforehand |
| LockProgress.EveryTransactionEnds | internal/repositories/billing/hold.go:126-330 | an interleaving that cannot go on has ended every transaction |
| Frames.TrackingSink.HandleFrame | internal/services/inference/mantle_stream.go:55-65 | takes the frame or remembers that a write failed |
| ResponsesAdapter.Ascending | internal/services/inference/mantle_stream.go:274-290 | the open blocks in ascending order, each once |
| ResponsesAdapter.Adapter.EnsureStartedNow | internal/services/inference/mantle_stream.go:229-236 | sends the message start once |
| ResponsesAdapter.Adapter.CloseOpenBlocks | internal/services/inference/mantle_stream.go:274-290 | sends one stop per open block in ascending order, as far as the sink has room |
| ResponsesAdapter.Adapter.Handle | internal/services/inference/mantle_stream.go:86-227 | one event changes the adapter's fields and feeds the sink exactly as the step function says; it fails exactly when the sink runs out of room, and then the failure mark, the usage and the remembered text are still known |
| ResponsesAdapter.Adapter.HandleCompleted | internal/services/inference/mantle_stream.go:170-227 | stop reason, usage, closing blocks, stop and metadata in this order |
| ResponsesAdapter.ContainsExactly | internal/services/inference/mantle_stream.go:170-227 | the search for a word in the provider's reason finds it exactly if it occurs |
| AnthropicSink.StreamSink.HandleFrame | internal/services/compat/anthropic/stream.go:65-195 | what the sink writes for a frame and what it remembers |
| AnthropicSink.StreamSink.Close | internal/services/compat/anthropic/stream.go:201-225 | writes the terminal pair unless it was written or an error was reported |
| AnthropicSink.OneTerminator | internal/services/compat/anthropic/stream.go:201-225 | whatever frames arrive, the client gets one message_delta and one message_stop exactly when usage arrived or no error was reported, else none |
| OpenAISink.StreamSink.HandleFrame | internal/services/compat/openai/stream.go:104-201 | what the sink writes for a frame and what it remembers |
| OpenAISink.StreamSink.Close | internal/services/compat/openai/stream.go:216-231 | writes a default finish if there was none, and the done marker |
| OpenAISink.OneDoneMarker | internal/services/compat/openai/stream.go:166-231 | whatever frames arrive, the stream ends with its only done marker and carries one finish chunk per stop frame, or one default |
| Dialects.SinksAgree | internal/services/compat/anthropic/stream.go:82-154 | for every frame sequence the two dialects' clients assemble the same text and the same tool calls, those that the frames spell out |
| Dialects.DialectsAgree | internal/services/inference/mantle_stream.go:104-170 | for every Responses event sequence both clients end with the text, the ordered tool ids and names and the argument strings that the events themselves spell out; OpenAI tool indexes count up from 0 |
| Dialects.NothingLostExactly | internal/services/inference/mantle_stream.go:248-265 | argument fragments are lost exactly if some fragment comes before every function call |
| Dialects.EarlyArgumentsAreLost | internal/services/inference/mantle_stream.go:248-265 | a fragment before its call is announced: lost to the OpenAI client, filed under no call by the Anthropic one |
| Dialects.StreamedIsText | internal/services/inference/mantle_stream.go:104-116 | the text remembered for the token estimate is the text of the events, where no write fails |
| StreamGrammar.CompletedIsWholeMessage | internal/services/inference/mantle_stream.go:104-290 | a response that completes without failure is one start, a body in which every tool delta targets a started block with its own index, one stop per opened block in ascending order, its stop reason (tools if it called any, else the provider's) and its usage |
| StreamGrammar.WholeMessageEndsOnce | internal/services/compat/openai/stream.go:166-231 | such a message ends with exactly one finish chunk and done marker, and exactly one Anthropic terminal pair |
| StreamGrammar.WholeMessageEndsWith | internal/services/compat/anthropic/stream.go:155-218 | the last events of both dialects carry the stop reason, each in its own words, and the usage |
| StreamGrammar.BodyStreams | internal/services/inference/mantle_stream.go:104-170 | every prefix of a response follows the frame grammar, and the adapter's tables describe it |
| ClientProtocol.AnthropicClientIsContent | internal/services/compat/anthropic/stream.go:65-218 | a strict Anthropic client reads a whole message to its end: start first, every block opened before its first delta and closed once, none open when the stop reason comes, nothing behind the end |
| ClientProtocol.OpenAIClientIsContent | internal/services/compat/openai/stream.go:104-231 | a strict OpenAI client reads it to its end: the role first and once, calls numbered in order, arguments for announced calls, one finish reason, usage behind it, the done marker last |
| ClientProtocol.CompletedReachesClients | internal/services/inference/mantle_stream.go:86-290 | both read every completed response to its end, whatever its events |
| ClientProtocol.ReasonsAreTranslated | internal/services/compat/anthropic/response.go:36-49 | each dialect's word for every stop reason, and which reasons it stands for |
| ClientProtocol.CompletedSaysWhy | internal/services/inference/mantle_stream.go:170-227 | what each dialect's client is told at the end of a completed response: tools if it called any, the token limit if it was cut off without a reason or with one that mentions the maximum, else its end; and the usage |
| ClientProtocol.BrokenSaysDefault | internal/services/compat/anthropic/stream.go:201-225 | a stream without a stop reason ends for both clients as if the turn were over |
| ClientProtocol.ErrorsAreTold | internal/services/compat/anthropic/stream.go:176-194 | the Anthropic client is told every error of the frames, in order and in words, and nothing else as an error |
| ClientProtocol.FailuresAreTold | internal/services/inference/mantle_stream.go:86-103 | the same for the provider's failures, from the events to the client |
| EventStream.ParseEventStreamHeaders | internal/services/inference/eventstream.go:164-226 | the loop over the header block ends and computes the headers or the error of the block |
| EventStream.HeadersRoundTrip | internal/services/inference/eventstream.go:164-226 | a block of headers of any types is read to its end; strings and bools are kept, later ones win |
| EventStream.Reader.ReadFull | internal/services/inference/eventstream.go:97-128 | all the bytes or the cause why not, as io.ReadFull tells an end of file from an unexpected one |
| EventStream.Reader.ReadAWSEventStreamFrame | internal/services/inference/eventstream.go:97-143 | consumes one frame with its checks in their order |
| EventStream.PanicsExactly | internal/services/inference/eventstream.go:110-133 | a complete frame with accepted prelude stops the program if and only if its header length exceeds total minus 16: the guard compares with total only |
| EventStream.OverlongStopsProgram | internal/services/inference/eventstream.go:110-133 | complete 16-byte frames with right checksums and header length 1 to 16 that pass the guard and stop the program, for every checksum function |
| EventStream.FrameRoundTrip | internal/services/inference/eventstream.go:97-143 | reading a sent frame gives back its payload and headers and exactly the bytes behind it |
| EventStream.StreamRoundTrip | internal/services/inference/eventstream.go:97-143 | reading a concatenation of sent frames gives them back in order, and then what follows |
| EventStream.WholeStreamIsClean | internal/services/inference/eventstream.go:95-104 | a whole stream decodes to its frames and a clean end |
| EventStream.CutIsNoticedExactly | internal/services/inference/eventstream.go:97-125 | a stream cut inside a frame is reported as truncated at every position but one: right after the prelude the wrapped end of file passes for a clean end |
| EventStream.CutAfterPreludeIsMissed | internal/services/inference/eventstream.go:97-125 | the empty frame cut after twelve bytes, reported as what passes for a clean end |
| EventStream.TextHeaderOnWire | internal/services/inference/eventstream.go:164-226 | a string header byte by byte: name length, name, type 7, two bytes of length, value; it is kept under its name |
| EventStream.BoolHeaderOnWire | internal/services/inference/eventstream.go:164-196 | a bool header byte by byte, kept as the word true or false |
| EventStream.UnreadableExactly | internal/services/inference/eventstream.go:180-224 | a header's value cannot be read exactly if its type is above 9 or bytes are missing |
| EventStream.ReadExactly | internal/services/inference/eventstream.go:97-143 | a frame is read if and only if, byte by byte, its prelude, lengths, both checksums and header block are right and all of it is there |
| EventStream.ReadsWhat | internal/services/inference/eventstream.go:97-143 | what is then read: the header block, the payload and the bytes behind the frame, by their positions |
| EventStream.BreakIsReported | internal/services/inference/eventstream.go:97-125 | a stream that is cancelled or breaks inside a frame is reported with that cause |
| ServerSentEvents.ScanSSE | internal/services/inference/mantle_stream.go:317-358 | the line loop yields the events of the input in order; a clean end dispatches what is left, an error does not |
| ServerSentEvents.UnendedExactly | internal/services/inference/mantle_stream.go:317-358 | an event whose blank line never came is received exactly if the input ends cleanly |
| ServerSentEvents.OtherLine | internal/services/inference/mantle_stream.go:317-358 | lines of other fields and comments change nothing |
| ServerSentEvents.EventsRoundTrip | internal/services/inference/mantle_stream.go:317-358 | scanning sent events gives them back in order, with either line break and with or without a space behind the colon, multi-line data joined, empty events and closing markers left out |
| ServerSentEvents.PassthroughIsRead | internal/services/inference/eventstream.go:44-52 | a scanner reads back from the native route exactly the frame's type and payload, if both are plain lines and the payload is not the closing marker |
| Relay.RelayBedrockStream | internal/services/inference/service.go:313-394 | the loop's verdict and usage for any byte stream, any end of it, and a sink that fails at any point |
| Relay.VerdictExactly | internal/services/inference/service.go:313-394 | the verdict is a failure exactly if an exception was decoded, or the sink failed other than by a hang-up, or the stream broke other than by its end or a cancellation; never both failed and cancelled |
| Relay.UsageExactly | internal/services/inference/service.go:313-394 | the relay reports the latest usage that reached the client, or an estimate from all the text decoded if that counts no output |
| Relay.ExceptionSticks | internal/services/inference/service.go:313-394 | once an exception frame is decoded the verdict is a failure and not a cancellation, whatever follows |
| Relay.ExceptionSticksInBytes | internal/services/inference/service.go:285-302 | the same for every byte stream, every end of it and every sink |
| Relay.WholeStreamVerdict | internal/services/inference/service.go:313-394 | a whole stream is judged a failure exactly if it carried an exception |
| Relay.CutStreamVerdict | internal/services/inference/service.go:327-340 | a stream cut inside a frame is judged a failure unless it is cut right after a prelude and carried no exception |
| Relay.FailedStreamIsFree | internal/controller/shared/billing.go:22-78 | through status, charge and recording, a stream with a decoded exception writes no usage row, uses no credits and returns its open hold in full |
| Relay.RelayResponsesStream | internal/services/inference/mantle_stream.go:19-49 | the verdict of the Responses relay, token counts and estimate included, for any events, any end and a sink that fails at any point |
| Relay.FedExactly | internal/services/inference/mantle_stream.go:86-227 | what the adapter has gathered when its feeding ends, in terms of the events handled: failure, latest usage, text without the one that could not start the message |
| Relay.ResponsesVerdictExactly | internal/services/inference/mantle_stream.go:19-49 | the exact condition of failure and of cancellation, the usage of the latest completion handled or the estimate |
| Relay.FailureEventSticks | internal/services/inference/mantle_stream.go:19-49 | a failure event reached before the sink fails makes the verdict a failure and not a cancellation, even if reporting it is what fails, and the call is free |
| SentStreams.SentVerdictExactly | internal/services/inference/service.go:343-394 | for any messages sent: the verdict is a failure exactly if, before the client gave out, the last string or bool header named by the bytes of :message-type was the bytes of exception, or the client failed other than by hanging up |
| SentStreams.BrokenVerdictExactly | internal/services/inference/service.go:327-340 | a stream broken off between or inside messages: a failure unless the request was cancelled and nothing was raised |
| SentStreams.SentUsageExactly | internal/services/inference/service.go:352-393 | the usage reported for any messages sent: that of the last metadata that reached the client, with an estimate of all the text if it counts no output |
| SentStreams.JobExactly | internal/controller/shared/billing.go:22-78 | the job of a verdict: success unless it failed, the exact price in whole micros, the prompt's estimate for a cancelled call without usage |
| SentStreams.VerdictIsBilled | internal/controller/shared/billing.go:22-78 | from any verdict to the tables: recorded, hold settled, a failure free, everything else the exact price |
| SentStreams.SentStreamIsBilled | internal/services/inference/service.go:313-394 | from the messages to the tables: an exception raised before the client gave out makes the call free, a stream that arrives whole costs exactly the price of its usage |
| Subscriptions.HigherPlanIsHighest | internal/services/webhook/dodo.go:858-875 | of two plans the higher one is picked; it is known if either is |
| Subscriptions.RetryIsStableExactly | internal/services/webhook/dodo.go:899-931 | deciding again after the plan was attached gives the same action if and only if nothing was raised, the plan is retired, or the stored mandate is none, the incoming one, or known to be lower; otherwise it gives stale |
| Subscriptions.DistinctIsExact | internal/services/webhook/dodo.go:834-856 | the list has exactly the identifiers mentioned and not excluded, none twice, in first-seen order |
| Subscriptions.MergePriorSubscriptionIDs | internal/services/webhook/dodo.go:834-856 | adopting cancels exactly the stored mandate and all invoice subscriptions except the incoming one, once each, in first-seen order |
| Subscriptions.StaleInvoiceIDs | internal/services/webhook/dodo.go:803-828 | keeping cancels exactly the invoice subscriptions whose plan is known and strictly below the current one, never the kept one, none if the current plan is unknown |
| Deliveries.PlanKeyInjective | internal/services/webhook/dodo.go:933-942 | different subscriptions, plans or months have different grant keys |
| Deliveries.GrantKey | internal/services/webhook/dodo.go:160-183 | a gated delivery never grants under a legacy key |
| Deliveries.OnlyGrantsTouchCredits | internal/services/webhook/dodo.go:138-195 | no other statement touches the credit tables, and only an adopt or keep decision with a plan and credits leads to the grant |
| Deliveries.GrantedOncePerPeriod | internal/services/webhook/dodo.go:138-195 | however deliveries are duplicated, reordered, interleaved, broken off and repeated: no subscription, plan and month is granted twice, each grant has its own row, and a gated delivery that completes finds it granted |
| Deliveries.PlansNeverFall | internal/repositories/organization/repository.go:146-196 | over every run no organization's plan falls in rank |
| Redelivery.ActsAsGated | internal/services/webhook/dodo.go:679-690 | within one delivery the decision after grant and plan is the gate's decision over again |
| Redelivery.FinishIsOutcome | internal/services/webhook/dodo.go:107-202 | statement by statement, an undisturbed delivery amounts to its outcome |
| Redelivery.FinishCancelsAsGated | internal/services/webhook/dodo.go:694-724 | an undisturbed delivery that completes has cancelled exactly what the gate's decision names |
| Redelivery.OnlyFitDeliveriesCount | internal/services/webhook/dodo.go:146-159 | stale and deferred deliveries grant nothing, raise no plan and store no mandate |
| Redelivery.StaleIsCancelled | internal/services/webhook/dodo.go:146-159 | a stale delivery grants nothing and stores nothing; it only has its own subscription cancelled |
| Redelivery.RedeliveryCompletesExactly | internal/services/webhook/dodo.go:107-214 | a delivery that breaks off anywhere and is delivered again leaves the same credits, plan and mandate as one that did not, if and only if it is not an upgrade broken off between plan and mandate over a mandate not known to be lower |
| Redelivery.FlippedIsCancelled | internal/services/webhook/dodo.go:708-716 | in that case the redelivery has the subscription just paid for cancelled |
| Cancellations.UpgradeCanBeLost | internal/services/webhook/dodo.go:662-677 | a concrete upgrade for which this happens: the redelivery leaves the old mandate stored and cancels the new one, unlike the undisturbed delivery |
| Cancellations.RedeliveryCancelsExactly | internal/services/webhook/dodo.go:679-724 | a delivery broken off anywhere has cancelled a first part of what the whole one cancels, and its redelivery cancels exactly what the state before and the place of the break determine |
| Cancellations.AdoptedRedelivery | internal/services/webhook/dodo.go:904-911 | a delivery that adopted and stored its subscription, delivered again under any invoices, has exactly that subscription cancelled if and only if the incoming plan is known and the organization's is known to be higher; otherwise exactly the leftovers of keeping it |
| Cancellations.AdoptedDuplicate | internal/services/webhook/dodo.go:103-106 | the same for a duplicate of a delivery that completed |
| Cancellations.OutrankedBefore | internal/services/webhook/dodo.go:904-911 | whether that is so can be told from the ranks before the call |
| Cancellations.DuplicateCancelsAdopted | internal/services/webhook/dodo.go:899-931 | a concrete delivery that grants, stores its mandate and cancels the old one, and whose duplicate has the stored mandate cancelled |
| Mandates.AdoptingCancelsExactly | internal/services/webhook/dodo.go:740-779 | an adopting delivery that completes has cancelled exactly the mandate stored before and every one the invoices list, its own and blanks apart, each once, in the order first seen |
| Mandates.KeepingCancelsExactly | internal/services/webhook/dodo.go:694-702 | a keeping one exactly the invoices' other mandates whose offered plan ranks below an offered incoming plan or the organization's, each once, in order |
| Mandates.JudgedExactly | internal/services/webhook/dodo.go:899-931 | the whole judgement from the plan list, the stored mandate and the invoices: when a delivery is adopted, kept, deferred or stale |
| Mandates.DeliveryStoresExactly | internal/services/webhook/dodo.go:160-202 | what an adopted or kept delivery leaves stored, from its first to its last statement: the grant's row by its text, the balances, the plan, the mandate; it fails exactly if its plan is not listed |
| Mandates.DeferredDoesNothing | internal/services/webhook/dodo.go:704-706 | a deferred delivery changes and cancels nothing |
| DodoService.Service.AttachPlan | internal/repositories/organization/repository.go:146-196 | raises the plan if the incoming one ranks at least as high, retired plans counted by rank |
| DodoService.Service.StoredPlanOrder | internal/services/webhook/dodo.go:662-677 | the loop finds the first listing of the stored mandate |
| DodoService.Service.PersistSubscription | internal/services/webhook/dodo.go:679-724 | acts on a decision taken afresh: what is stored and what is cancelled in each case |
| DodoService.Service.HandleSubscriptionGrant | internal/services/webhook/dodo.go:107-214 | a whole delivery: credits, plan and mandate become the outcome, exactly the gate's cancellations follow in order until the provider fails, and it succeeds if all that does |
| Limiter.WaitSuffices | internal/limiter/limiter.go:191-201 | after the announced wait and one nanosecond an empty bucket has a token |
| LimiterRates.AdmissionsPerMinute | internal/limiter/limiter.go:159-207 | in every interval of every trace each organization and each playground user is admitted at most the burst and the requests per minute for the interval's minutes |
| LimiterRates.LevelRises | internal/limiter/limiter.go:175-189 | a bucket left alone fills by its requests per minute, exactly, up to its burst |
| LimiterRates.TokenReturns | internal/limiter/limiter.go:175-189 | once the time for one request has passed untouched there is a token again |
| LimiterRates.StrangersAreFull | internal/limiter/limiter.go:143-182 | an organization or user never seen before has its whole burst |
| LimiterRates.AnsweredExactly | internal/limiter/limiter.go:79-123 | every answer from the levels and the counter before the call: scope, limit, tokens left, shortest whole wait but a second at least, reset |
| LimiterRates.AdmissionTakesPlace | internal/limiter/limiter.go:106-110 | an admission takes one place of its organization and leaves the others alone |
| LimiterRates.ReleaseExactly | internal/limiter/limiter.go:125-141 | the first release of a place frees it, any other release changes nothing |
| LimiterMemory.Memory.Ask | internal/limiter/limiter.go:79-110 | one call on the stored buckets and counter, in the order of the checks, with the answer's limit, remaining, wait and reset |
| LimiterMemory.Memory.Free | internal/limiter/limiter.go:125-141 | only a first release counts, and then the guard against a negative counter holds |
| LimiterMemory.Memory.constructor | internal/limiter/limiter.go:72-77 | starts empty with at least one concurrent call allowed |
| LimiterTraces.AdmittedExactly | internal/limiter/limiter.go:79-110 | a call is admitted if and only if its user's bucket, its organization's bucket and the counter have room; a rejection names the first check that fails, an admission the tokens left |
| LimiterTraces.AnsweredAlike | internal/limiter/limiter.go:79-110 | states with the same levels and counters answer every call alike and stay so |
| LimiterTraces.RejectionLeavesNoTrace | internal/limiter/limiter.go:79-104 | a rejected call leaves a state nobody can tell from the one before, though it may have made buckets and refilled them |
| LimiterTraces.RejectionsAreInvisible | internal/limiter/limiter.go:79-110 | taking a rejected call out of a trace changes no other answer |
| LimiterTraces.AdmissionsAreBounded | internal/limiter/limiter.go:159-207 | in every interval of every trace each organization's and each playground user's bucket admits at most its burst plus what flows in |
| LimiterTraces.GuardNeverFails | internal/limiter/limiter.go:131-139 | a first release always finds a call in flight |
| LimiterTraces.EveryTraceCounts | internal/limiter/limiter.go:101-141 | over every trace with any repeated releases the counter is the number of unreleased reservations and within the limit |
| LimiterTraces.RetryAfterSuffices | internal/limiter/limiter.go:112-123 | a bucket's rejection promises a token after its wait and one nanosecond |
| RequestTranslation.ToConverse | internal/services/compat/openai/request.go:171-234 | the loop makes the turns and the instruction of the messages: longest runs of tool results in one user turn, system messages apart |
| RequestTranslation.TurnsKeepContent | internal/services/compat/openai/request.go:171-234 | the turns end to end are the messages' blocks in order; none is empty, all are the user's or the assistant's |
| RequestTranslation.RunIsOneTurn | internal/services/compat/openai/request.go:181-201 | a run of tool messages, as long as it is, makes one user turn with one result each, in order |
| RequestTranslation.TextsAreOneItem | internal/services/inference/mantle.go:160-196 | texts that follow one another in a turn are told as one item, each on its line |
| RequestTranslation.ToolsStandAlone | internal/services/inference/mantle.go:165-192 | a call or an output is told by itself, wherever it is in its turn |
| RequestTranslation.TurnItems | internal/services/inference/mantle.go:160-196 | a turn's items: calls and outputs as they are, between them exactly the texts, joined |
| RequestTranslation.ConverseToResponsesInput | internal/services/inference/mantle.go:158-199 | the items of all turns in order |
| RequestTranslation.ItemsKeepTools | internal/services/inference/mantle.go:158-199 | a turn's calls and outputs keep their ids, contents and order |
| RequestTranslation.TranslationIsFaithful | internal/services/inference/mantle.go:158-199 | both translations together give the provider, message by message and in order, every text under its role, every call and every output |
| RequestTranslation.Translate | internal/services/compat/openai/request.go:171-234 | the two loops run one after the other tell the provider, by role and in order, every text, call and output of the request, and apart from them its instructions |

## Left out

- SQL text, drivers and database errors: each statement has its table-level meaning, an abort is a
  rollback, a crash of a delivery leaves its committed statements in place.
- BIGINT overflow of balances, and the ledger's vendor amount, request id and note columns.
- LockProtocol.NoDeadlock: covers holds, releases, reclaims and sweeps; `Record` is not in the
  interleaved machine, because its inserts take foreign-key locks before the settlement does.
- CreditRuns.EveryRunConserves: transactions are atomic there; the statement-level interleaving is
  the business of `LockProtocol`.
- JSON: the modules work on decoded events, frames and messages; decoders and encoders are function
  parameters, argument text is opaque. The CRC32 of the frame codec is a function parameter.
- EventStream.PanicsExactly: out-of-range slicing is modelled as one outcome that ends the program.
- Frames.TrackingSink.HandleFrame: a sink is a number of frames it takes before every write fails;
  whether the failure was the client hanging up is a parameter of the relay.
- LimiterMemory.Memory.Ask: tokens are real numbers, so the rounding of floating point is not
  modelled; locks are modelled by calls following one another.
- Events after completion of a response, and strict nesting of Anthropic blocks, which the adapter
  does not keep: block 0 stays open beside tool blocks.
- DodoService.Service.HandleSubscriptionGrant: resolving organization, plan and credits from metadata,
  payments and products happens before; the invoice that a delivery records at its end is an outside
  change of the invoice listing; a failed read of the organization's plan, which the code takes for no
  plan, is a move of the delivery machine and not of the method.
- Redelivery.RedeliveryCompletesExactly: both attempts read the organization's plan.
- Deliveries.GrantedOncePerPeriod: deliveries without a subscription id use one key per event type,
  month and organization and are not part of the claim.
- The invoice table's merge and its latest-plan query: the listing of an organization's subscriptions
  is arbitrary and may change between any two statements.
- One-time payments, refunds, the mandate's amount limit, and at most one live mandate across a crash
  between storing a mandate and the cancellations.
- Relay.FailedStreamIsFree: the model id is present and its price is known; the queue and the
  synchronous attempt before it are deliveries of the same job.
- Tools, tool choice, sampling parameters and stop sequences of a request, which are copied.
- HTTP handlers, authentication, configuration, logging, mail, catalogue, plan entitlements, history
  and usage reports.
