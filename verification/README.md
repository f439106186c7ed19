# A model of the ACP turn protocol, the browser bridge and their neighbours

This project models the stateful parts of allthecodes whose correctness spans
several functions, and proves what they keep over all interleavings and inputs.
`dafny verify dfyconfig.toml` goes through the whole project.

- **Turn protocol** (`Turns`, with `TurnAck`, `TurnAnswers`, `TurnExclusivity`,
  `TurnOwnership`, `TurnBreaks`, `TurnSids`, `TurnCancellation`, `TurnReasons`,
  `TurnAims`, `TurnAborts`, `TurnSeen`, `TurnStreams`, `TurnServes`,
  `TurnWitnesses` and `TurnRuntime`). One sequential reader and any number of
  prompt workers share each session's turn slot and abort flag, the table of
  cancellable requests and one output queue. Every lock-protected region and
  every channel operation is one step, and a run is any list of steps; a step
  that cannot be taken changes nothing. The reader's input is a list of lines,
  parsed as `Jsonrpc` parses them; what a request asks for, what the engine
  streams and when a timeout fires are left to the run. The class in
  `TurnRuntime` holds the reader's own code as loops over mutable fields, each
  method shown to be a run of the protocol.
- **Permission manager** (`RequestIds`, `Permissions`, `PermissionRuns`,
  `PermissionDecisions`). The two-index table as a class, and the manager under
  interleaving, with the cancel-all that takes a snapshot and then removes one
  request at a time.
- **JSON-RPC envelopes** (`Jsonrpc`). From parsed JSON to inbound messages, and
  from results to outbound envelopes and batch replies.
- **Update mapper** (`UpdateMapper`, `MapperContent`, `MapperRuns`,
  `MapperBlocks`). The translator from engine messages to session updates, with
  its counters and block-to-id maps.
- **Browser bridge** (`Framing`, `Bridge`, `BridgeValues`). The length-prefixed
  codec on bytes, and request correlation with reconnects, timeouts and
  drain-on-close.
- **Registry, credentials file, shard plan, tree printer** (`Registry`,
  `RegistryQueries`, `AtomicWrite`, `Shards`, `TreePrinter`, `TreeLines`).

`Wrappers` and `Decimal` hold what several modules share.

## What the proofs found

The code is modelled as it stands. Where a promise does not hold in general, the
exact condition is proved and the failing case shown.

- A prompt cancelled before its start clears the turn slot twice, once directly
  and once when its background worker wakes. `TurnBreaks.ExclusiveExactlyWhenSafe`
  says from which states that can put two workers on one session, and
  `TurnBreaks.DoubleClearBreaks` gives a run. Forced closes alone never do, for
  one session object: `TurnExclusivity.CalmRunsExclusive`.
- Opening a session id registers a new session object whether or not the old one
  is at work. So one worker per object is not one worker per id: loading or
  resuming an id with an unfinished worker and prompting it puts two workers under
  that id, and `session/cancel` reaches only the newer one (`TurnSids.ReopenBreaks`,
  `TurnSids.CancelMissesOlder`). `TurnSids.OpenKeepsExclusiveExactlyWhenIdle` says
  exactly when opening an id is harmless.
- In the reader loop only a prompt inside a batch can be cancelled before its
  start, because the loop reads no other line while it holds a single request
  (`TurnAnswers.SinglesNeverWithdrawn`).
- A prompt refused after the slot was claimed leaves its session busy for good
  (`TurnOwnership.StuckForever`, `TurnWitnesses.RefusalSticks`); nothing else leaves
  a claimed slot without a worker (`TurnOwnership.ClaimedExactly`).
- `session/cancel` marks the turn and aborts the engine in two steps, and the worker
  looks at the mark once per result and once at the end of its stream. A mark that
  comes after the look for a result counts only if the abort comes before the result
  is mapped; a mark that comes after the look at the end of a stream without a result
  is lost, and the turn ends without an idle update (`TurnReasons.ReasonsExactly`,
  `TurnReasons.MarkKeptExactly`, `TurnReasons.LateMarkKeptExactly`, with the runs
  `TurnWitnesses.MarkAfterReadMissed` and `TurnWitnesses.MarkAfterEndMissed`).
- A turn's start clears the abort flag, and with it an abort made before: such a turn
  is reported as cancelled, but its engine runs on to its own end
  (`TurnAborts.MarkedEngineExactly`, `TurnAborts.AbortWiped`).
- A close that gives up waiting sends an idle update itself, and the worker it gave up
  on may send another (`TurnSeen.SeenTwiceExactly`, `TurnSeen.SeenTwice`).
- Every response of a turn numbers its blocks from zero, and the block ids are kept
  from one to the next: blocks of two responses with text of one kind at one index
  share a message id, and the text regrouped under it mixes the two
  (`MapperBlocks.IdsSeparateExactly`, `MapperBlocks.RegroupedIsOneBlock`,
  `MapperBlocks.TwoResponsesMix`).
- The text of connector and redacted block starts, and of a delta's second non-empty
  field, is not passed on (`MapperRuns.RegroupedIsComplete`).
- A registration that reuses a live tool key hides the older request from `take`
  (`Permissions.RegisterKeepsIndexed`), and an answer to the older one can then
  hide a request that is still pending (`Permissions.TakeMissesAfterDuplicate`).
- Numeric request ids of 2^63 and more are accepted and echoed as negative numbers
  (`Jsonrpc.RequestIdEchoed`).
- `write_framed` accepts an empty payload that `read_framed` rejects
  (`Framing.SingleRoundTrip`). The comment on `read_framed` speaks of an end of
  stream at a frame boundary; the code also reports a clean end inside a length
  prefix (`Framing.DecodeSound`).
- `atomic_write` reports failure although the destination has changed if setting
  permissions fails after the rename (`AtomicWrite.FailureLeavesDestination`).
- Closing a bridge connection does not unblock every caller: a request inserted after
  the connection was drained waits for its timeout (`Bridge.AwaitingCanReturn`,
  `Bridge.StrandedHappens`).

## Model

| member | source | states |
|---|---|---|
| `TurnAck.AckBeforeStream` | `crates/allthecodes-acp/src/runtime.rs:100-131` | in every run, single requests and batches alike, an update sent by a prompt's background worker is preceded in the output queue by the frame that carries that prompt's acceptance, and only a worker released by that frame sends any |
| `TurnAck.WithdrawnNeverStreams` | `crates/allthecodes-acp/src/runtime.rs:856-860` | a prompt answered as cancelled before its start sends no update, before or after that answer |
| `TurnAnswers.AnsweredInOrder` | `crates/allthecodes-acp/src/runtime.rs:150-221` | the answer frames in the output queue are exactly those owed for the lines read, in order, each with its line's request ids in order (section 6 of the JSON-RPC 2.0 specification); nothing is sent for a line without requests |
| `TurnAnswers.RepliesMatchAnswers` | `crates/allthecodes-acp/src/runtime.rs:463-468` | the k-th reply of every frame carries the k-th dispatch result; the internal-error fallback for a missing result is never reached |
| `TurnAnswers.WithdrawnExactly` | `crates/allthecodes-acp/src/runtime.rs:453-461` | a request's result is a withdrawal exactly if it is an accepted prompt and a later `$/cancel_request` of the same frame names its id before another request of the frame reuses the id |
| `TurnAnswers.SinglesNeverWithdrawn` | `crates/allthecodes-acp/src/runtime.rs:167-193` | outside a batch no prompt is ever cancelled before its start: the sequential reader reads no cancellation while it holds the request |
| `TurnAnswers.NoTaskLeftPaused` | `crates/allthecodes-acp/src/runtime.rs:463-468` | whenever the reader is ready for another line, every accepted prompt's start signal has been sent or dropped, so the branch that would forget start signals is never taken |
| `TurnExclusivity.CalmRunsExclusive` | `crates/allthecodes-acp/src/runtime.rs:831-839` | per session object: in every run without a cancel-before-start no object has two unfinished workers, forced closes included |
| `TurnOwnership.UnfinishedHoldsSlot` | `crates/allthecodes-acp/src/runtime.rs:831-839` | per session object: in every run without a cancel-before-start or a forced close, an unfinished worker is the only one of its object and the slot is claimed by that very turn |
| `TurnOwnership.ClaimedExactly` | `crates/allthecodes-acp/src/runtime.rs:831-846` | the converse, as an if-and-only-if: in those runs an object has an unfinished turn exactly if its slot is claimed and not by a refused prompt; the slot is claimed without one exactly if it is held by a prompt refused after the claim |
| `TurnSids.OrderlyRunsExclusive` | `crates/allthecodes-acp/src/session.rs:83-128` | per session id: in every run without a cancel-before-start in which no id is opened while a worker of it is unfinished, no id has two unfinished workers |
| `TurnSids.UnfinishedAloneUnderId` | `crates/allthecodes-acp/src/runtime.rs:831-839` | if no close gives up either, an unfinished worker is the only one of its id and holds the slot |
| `TurnSids.SidExclusiveExactlyWhenSafe` | `crates/allthecodes-acp/src/session.rs:122-125` | from a quiet state with one worker per id at most, every continuation of that kind keeps it so if and only if every registered id is safe: its object is safe by itself, and no worker of the id is unfinished on another object, unless the registered one is blocked by a refused prompt |
| `TurnSids.OpenKeepsExclusiveExactlyWhenIdle` | `crates/allthecodes-acp/src/session.rs:122-125` | opening an id from a safe quiet state keeps all such continuations to one worker per id if and only if no worker of that id was unfinished on any object, registered, displaced or force-closed |
| `TurnSids.ReopenBreaks` | `crates/allthecodes-acp/src/session.rs:122-125` | a concrete run with neither a cancel-before-start nor a forced close: open, prompt, open the id anew, prompt; two unfinished workers under one id, although each object has one |
| `TurnSids.CancelMissesOlder` | `crates/allthecodes-acp/src/runtime.rs:367-372` | `session/cancel` leaves the slot and abort flag of an older object of the id untouched |
| `TurnOwnership.RefusedPromptSticks` | `crates/allthecodes-acp/src/runtime.rs:842-846` | a prompt refused after the claim leaves the slot claimed with no worker behind it |
| `TurnOwnership.StuckForever` | `crates/allthecodes-acp/src/runtime.rs:842-846` | from then on, short of a forced close or a cancel-before-start, the session runs no worker and refuses every prompt as busy |
| `TurnWitnesses.RefusalSticks` | `crates/allthecodes-acp/src/runtime.rs:842-846` | a concrete run to a slot claimed by a refused prompt, with no worker behind it |
| `TurnBreaks.UnsafeBreaks` | `crates/allthecodes-acp/src/runtime.rs:82-89` | from any quiet exclusive state with an unsafe registered session, a concrete continuation without further cancel-before-start leads to two unfinished workers of one session |
| `TurnBreaks.ExclusiveExactlyWhenSafe` | `crates/allthecodes-acp/src/runtime.rs:82-89` | from a quiet exclusive state, every continuation without a further cancel-before-start stays exclusive if and only if every registered session is safe: no cancelled worker still to wake and no unfinished worker beside a free slot, or exactly one still to wake behind the stuck claim of an unconverted prompt |
| `TurnBreaks.DoubleClearBreaks` | `crates/allthecodes-acp/src/runtime.rs:856-860` | a concrete run: a batch cancels its own prompt, the state is still quiet and exclusive, and the withdrawn worker's second clear then lets two workers of one session run |
| `TurnCancellation.OneIdlePerResult` | `crates/allthecodes-acp/src/runtime.rs:902-940` | a finished worker has sent exactly one idle update per result it saw; having seen none, at most one, with reason cancelled |
| `TurnCancellation.CancellationNotLost` | `crates/allthecodes-acp/src/runtime.rs:895-940` | a turn marked for cancellation before its worker has looked at the mark ends, whatever follows while it keeps its slot, `reset_abort` included, with idle updates that all say cancelled: one per result, and one if there was none |
| `TurnCancellation.CalmRunsKeepSlot` | `crates/allthecodes-acp/src/runtime.rs:927-944` | in runs without a cancel-before-start or a forced close an unfinished worker keeps its slot until it clears it itself, so the condition of the previous row holds |
| `TurnReasons.ReasonsExactly` | `crates/allthecodes-acp/src/runtime.rs:902-940` | in every run a finished worker has sent one idle update per result, the i-th saying cancelled if and only if the mark was set when it read the slot for the i-th result or the engine was aborted when it mapped it; with no result it has sent cancelled if the mark was set when it found the stream over, and otherwise nothing |
| `TurnReasons.OneResultExactly` | `crates/allthecodes-acp/src/runtime.rs:904-917` | the same for the single result the engine promises: the idles are just cancelled if and only if one of the two looks said so |
| `TurnReasons.MarkKeptExactly` | `crates/allthecodes-acp/src/runtime.rs:927-940` | a turn marked before its first result and keeping its slot ends, with one result at most, by sending just cancelled, unless the mark came after the worker found the stream over with the slot unmarked: then it sends no idle update at all |
| `TurnReasons.LateMarkKeptExactly` | `crates/allthecodes-acp/src/runtime.rs:906-917` | a turn marked after the slot was read for its only result ends by sending cancelled if and only if the slot was marked already or the engine is aborted when the result is mapped |
| `TurnWitnesses.MarkAfterEndMissed` | `crates/allthecodes-acp/src/runtime.rs:927-940` | a concrete run: the stream ends without a result, the slot is read, the client cancels, and the worker finishes, its slot kept, without any idle update |
| `TurnWitnesses.MarkAfterReadMissed` | `crates/allthecodes-acp/src/runtime.rs:361-376` | a concrete run: the slot is read for the result, the client cancels, the result is mapped before the abort, and the worker finishes, its slot kept, with the one idle update saying end of turn |
| `TurnAims.CancelledOnlyIfAimed` | `crates/allthecodes-acp/src/runtime.rs:361-376` | a worker sends cancelled only if the client cancelled, closed or deleted that session after the turn was claimed |
| `TurnAborts.AbortHeldExactly` | `crates/allthecodes-acp/src/runtime.rs:892-902` | in calm runs the engine of a worker past its `reset_abort`, and not done, is aborted if and only if the reader aborted it after that reset |
| `TurnAborts.MarkedEngineExactly` | `crates/allthecodes-acp/src/runtime.rs:361-376` | a marked turn that still holds its slot has had its engine aborted once the reader has moved on, and in calm runs, past the reset, that engine is still aborted if and only if one of the aborts came after the reset |
| `TurnAborts.AbortWiped` | `crates/allthecodes-acp/src/runtime.rs:892-916` | a concrete calm run: the client cancels, the engine is aborted, the worker resets the flag, and the engine comes to a result of its own, un-aborted, which is reported cancelled |
| `TurnSeen.SeenTwiceExactly` | `crates/allthecodes-acp/src/session.rs:194-214` | the idle updates queued about a finished turn, by its worker and by a close that gave up on it, number one per worker idle and at most one more; they are more than one if and only if there were several results, or a close gave up and the worker had a result or found its stream over with the mark set |
| `TurnSeen.SeenTwice` | `crates/allthecodes-acp/src/session.rs:194-214` | a concrete run in which a close gives up and both it and the worker send an idle update about the one turn |
| `TurnStreams.StreamsExactly` | `crates/allthecodes-acp/src/runtime.rs:892-940` | over every run, what a worker itself puts in the output queue is the front of: running, then for each message the engine gave it, in order, what a fresh mapper shows of it after those before it, a result's updates in its place with the reason the worker's looks call for, and at a marked end without result one idle; once the worker is done it is all of that |
| `TurnStreams.SentIsAll` | `crates/allthecodes-acp/src/runtime.rs:918-924` | if the engine and the progress callbacks publish nothing on its behalf, these are all the updates in the worker's name |
| `TurnStreams.TurnReassembles` | `crates/allthecodes-acp/src/runtime.rs:902-925` | from engine to client: the chunks a finished worker has put in the queue under a block's message id concatenate to exactly the text the engine streamed to the turn for that kind and block index, in order; an index without an id had no text |
| `TurnStreams.UpdatesAddressed` | `crates/allthecodes-acp/src/runtime.rs:922-924` | every update in a worker's name goes to the session id its turn was claimed for |
| `TurnServes.ReaderTellsExactly` | `crates/allthecodes-acp/src/session.rs:83-128` | over every run, the updates the reader publishes itself are exactly those its requests call for, in order and for their sessions, and one idle for each close that gave up; while it publishes, the rest is to come |
| `TurnServes.AnswersFitRequests` | `crates/allthecodes-acp/src/runtime.rs:231-314` | every answer of a run fits the request it answers: a prompt is accepted only if it converts and else refused as unknown session or invalid parameters, other requests get the result of doing them, a close the outcome of archiving, an empty object or an unknown session |
| `TurnServes.PromptDecided` | `crates/allthecodes-acp/src/runtime.rs:814-846` | which answer a prompt gets: unknown session (-32002) if its id is not registered, busy (-32602) if the slot is taken, otherwise acceptance of a new turn or, if it does not convert, invalid parameters |
| `TurnServes.PromptResults` | `crates/allthecodes-acp/src/runtime.rs:100-131` | an accepted prompt is answered by an empty object, a withdrawn one by the error -32800 |
| `TurnServes.NothingPendingWhenReady` | `crates/allthecodes-acp/src/runtime.rs:167-193` | no request stays in the table of cancellable ones: whenever the reader is ready for another line, the table is empty |
| `TurnServes.SessionsAsOpened` | `crates/allthecodes-acp/src/session.rs:83-128` | the session objects of a run are those its requests opened, in order, each with the id and the way of showing briefs it was opened with |
| `Turns.TaskShape` | `crates/allthecodes-acp/src/runtime.rs:855-945` | a worker's step touches only its own turn, its session's slot and abort flag, and adds at most one update of its own, once it runs |
| `Turns.HandleShape` | `crates/allthecodes-acp/src/runtime.rs:231-314` | what dispatching an entry may do to sessions, directory and turns: claim a free slot for a new turn, register a fresh session object, mark a slot, or nothing |
| `TurnRuntime.Runtime.CancelBeforeStart` | `crates/allthecodes-acp/src/runtime.rs:82-89` | clears the slot and drops the start signal: the new shared state is the protocol's withdrawal of that turn |
| `TurnRuntime.Runtime.ResolveDispatchOutcome` | `crates/allthecodes-acp/src/runtime.rs:100-117` | resolves one outcome; the new shared state is one Resolve step of the protocol |
| `TurnRuntime.Runtime.ResolveOutcomes` | `crates/allthecodes-acp/src/runtime.rs:451-461` | the loop of `handle_batch` returns the accepted turns in order and is a run of Resolve steps, one per outcome |
| `TurnRuntime.Runtime.ReleaseStarts` | `crates/allthecodes-acp/src/runtime.rs:465-467` | start signals are sent in order, then the request is forgotten: a run of Start steps |
| `TurnRuntime.Runtime.FinishBatch` | `crates/allthecodes-acp/src/runtime.rs:451-469` | the end of `handle_batch` is a run of the protocol: all outcomes resolved, one frame sent if anything is owed, only then the starts |
| `TurnRuntime.Runtime.SendDispatchOutcome` | `crates/allthecodes-acp/src/runtime.rs:120-131` | a single request's answer is sent before its worker is released, as a run of the protocol |
| `TurnRuntime.Runtime.RegisterRequest` | `crates/allthecodes-acp/src/runtime.rs:168-174` | a fresh cancel channel replaces whatever the table held for the id |
| `TurnRuntime.Runtime.HandleSessionPrompt` | `crates/allthecodes-acp/src/runtime.rs:814-948` | claim, conversion and spawn, with the early return that keeps the slot claimed, are the protocol's claim and conversion steps |
| `TurnRuntime.Runtime.OpenSession` | `crates/allthecodes-acp/src/session.rs:83-128` | a fresh session object is registered under the id and its updates are sent in order before the response |
| `TurnRuntime.Runtime.BeginClose` | `crates/allthecodes-acp/src/session.rs:182-192` | marks the turn, aborts the engine and reports whether there was a turn |
| `TurnRuntime.Runtime.ForceIdle` | `crates/allthecodes-acp/src/session.rs:206-213` | a close that gave up waiting clears the slot and sends one idle update itself |
| `TurnRuntime.Runtime.EndClose` | `crates/allthecodes-acp/src/session.rs:194-221` | waiting, forced clear if it gave up, and removal from the directory are a run of the protocol |
| `TurnRuntime.Runtime.CancelSessionTurn` | `crates/allthecodes-acp/src/runtime.rs:361-376` | `session/cancel` marks the turn if there is one, then aborts, in two steps of the protocol |
| `RequestIds.PermissionIdInjective` | `crates/allthecodes-acp/src/permissions.rs:116-117` | request ids determine session text and sequence number, whatever dashes and digits the session text holds |
| `RequestIds.OnlyStringsNamePermissions` | `crates/allthecodes-acp/src/permissions.rs:388-394` | although lookup keys of different ids collide, only the string id itself reaches a permission request |
| `PermissionRuns.Conservation` | `crates/allthecodes-acp/src/permissions.rs:110-195` | over every interleaving the registered ids are the disjoint union of pending, removed but unanswered, taken and settled, and each reply channel receives at most one value |
| `PermissionRuns.IndexesAgree` | `crates/allthecodes-acp/src/permissions.rs:116-142` | every tool-index entry points to a live request with exactly that key even after duplicate registrations, and a fresh number's id is never in the table already |
| `PermissionRuns.IndexesInverse` | `crates/allthecodes-acp/src/permissions.rs:116-142` | the two indexes are inverse to each other at every moment of a run if and only if no registration of the run reuses a live tool key |
| `PermissionRuns.CancelAllClears` | `crates/allthecodes-acp/src/permissions.rs:198-222` | whatever happens between the snapshot and the removals, when `cancel_all` returns every request of its session pending at the snapshot is gone, each one it removed was answered deny, and it removed none of another session |
| `PermissionRuns.OnlyClientGrants` | `crates/allthecodes-acp/src/permissions.rs:145-168` | a waiting tool receives anything but a deny only if the client decided so for exactly that request, or the caller that took it out replied so |
| `PermissionDecisions.DecisionReachesTool` | `crates/allthecodes-acp/src/permissions.rs:145-195` | over every run, what a request's channel receives or is about to receive is exactly the decision of the step that settled it: the client's decision, deny for a cancellation or a cancel-all that came to it, or the reply of the caller that took it; nothing for a request nobody settled |
| `PermissionDecisions.HeldIsSent` | `crates/allthecodes-acp/src/permissions.rs:163-167` | sending hands over exactly the decision held |
| `PermissionDecisions.RegisteredAsAsked` | `crates/allthecodes-acp/src/permissions.rs:110-134` | the n-th request of a run, once inserted, is registered for good under the id of its number and with the session and tool that asked |
| `PermissionDecisions.TakeHandsOut` | `crates/allthecodes-acp/src/permissions.rs:137-142` | over every run, taking by session and tool hands out the pending request that asked with exactly these, if the tool index has one, and changes nothing otherwise |
| `Permissions.RegisterKeepsIndexed` | `crates/allthecodes-acp/src/permissions.rs:118-132` | a registration keeps the two indexes inverse if and only if its tool key was free |
| `Permissions.MutualInverses` | `crates/allthecodes-acp/src/permissions.rs:110-142` | the indexes are inverse to each other exactly when following either and then the other returns to the start, and then no two live requests share a tool key |
| `Permissions.TakeFindsPending` | `crates/allthecodes-acp/src/permissions.rs:137-142` | with inverse indexes a tool key is found exactly if a request under it is pending |
| `Permissions.TakeMissesAfterDuplicate` | `crates/allthecodes-acp/src/permissions.rs:118-142` | after a duplicate registration and an answer to the first, the second is still pending and can no longer be taken by its tool key |
| `Permissions.IssuedIsFresh` | `crates/allthecodes-acp/src/permissions.rs:116-117` | the id built from the next number overwrites no table entry |
| `Permissions.SweepDeniesEach` | `crates/allthecodes-acp/src/permissions.rs:198-212` | undisturbed, a cancel-all removes exactly the listed requests and sends each one deny, in order |
| `Permissions.PermissionManager.Register` | `crates/allthecodes-acp/src/permissions.rs:110-134` | issues the next number and files the request under both indexes, overwriting the tool entry of an older one |
| `Permissions.PermissionManager.Take` | `crates/allthecodes-acp/src/permissions.rs:137-142` | hands out the request the tool entry points to and removes it from both indexes; answers nothing for an unknown key |
| `Permissions.PermissionManager.TakeByRequestId` | `crates/allthecodes-acp/src/permissions.rs:188-195` | removes a request by id, and with it whatever the tool index holds under its key, even an entry that by then belongs to another request |
| `Permissions.PermissionManager.ResolveRequestId` | `crates/allthecodes-acp/src/permissions.rs:157-168` | settles exactly the request whose id text matches, once, with the response given |
| `Permissions.PermissionManager.CancelRequestId` | `crates/allthecodes-acp/src/permissions.rs:175-181` | settles exactly that request with a deny |
| `Permissions.PermissionManager.Snapshot` | `crates/allthecodes-acp/src/permissions.rs:198-207` | lists each pending request of the session once |
| `Permissions.PermissionManager.CancelAll` | `crates/allthecodes-acp/src/permissions.rs:198-212` | the new table and the replies are those of a sweep over the session's requests in some order |
| `Jsonrpc.ParseFrame` | `crates/allthecodes-acp/src/jsonrpc.rs:70-112` | the loop over a line's elements computes the frame the specification function gives, first error first |
| `Jsonrpc.BatchParses` | `crates/allthecodes-acp/src/jsonrpc.rs:92-101` | a batch parses to one entry per element if and only if every element parses; otherwise the error is the first failing element's |
| `Jsonrpc.ReadExactly` | `crates/allthecodes-acp/src/jsonrpc.rs:114-158` | an object parses to an entry if and only if it writes that entry: version absent or 2.0, not both result and error, a method text, parameters null or absent for none, an id absent, null, text or an integer modulo 2^64 |
| `Jsonrpc.LineReadExactly` | `crates/allthecodes-acp/src/jsonrpc.rs:70-112` | a line yields nothing exactly if it is blank or a bare literal, one entry exactly if it is an object that writes it, a batch exactly if it is a non-empty array whose elements write its entries; the error is a parse error (-32700) exactly for text that is no JSON and an invalid request (-32600) otherwise |
| `Jsonrpc.EnvelopeRoundTrip` | `crates/allthecodes-acp/src/jsonrpc.rs:188-232` | what the response, request and notification builders produce is of version 2.0 and parses back to kind, id, method and payload; an error comes back as an object of exactly its code, its message and, if there is one, its data; null parameters become absent (sections 4 and 5 of the JSON-RPC 2.0 specification) |
| `Jsonrpc.RequestIdEchoed` | `crates/allthecodes-acp/src/jsonrpc.rs:160-175` | an accepted id comes back unchanged if and only if it is no integer of 2^63 or more |
| `Jsonrpc.BatchPairing` | `crates/allthecodes-acp/src/jsonrpc.rs:236-288` | the k-th reply answers the k-th request entry with the k-th result; a missing result becomes an internal error |
| `Jsonrpc.BuildBatchResponse` | `crates/allthecodes-acp/src/jsonrpc.rs:236-288` | the loop with its advancing index yields exactly those replies, and no array if and only if there is no request |
| `Jsonrpc.BatchReplyReadBack` | `crates/allthecodes-acp/src/jsonrpc.rs:236-288` | the reply array parses back to one response per request, in order, under the request's id and with its result or error; a request without a result is told of an internal error (-32603) |
| `UpdateMapper.TextInjective` | `crates/allthecodes-acp/src/updates.rs:37-57` | message id texts are equal only for the same kind and number |
| `UpdateMapper.OnlyResultIsIdle` | `crates/allthecodes-acp/src/updates.rs:130-154` | no message but a result maps to an idle update |
| `UpdateMapper.ReplayShape` | `crates/allthecodes-acp/src/updates.rs:162-198` | a replay numbers its user messages consecutively and changes no other counter |
| `UpdateMapper.SplitBlocks` | `crates/allthecodes-acp/src/updates.rs:200-246` | the loop over an assistant message's blocks separates text, thinking and tool updates in order, as `MapperContent.AssistantHolds` says block by block |
| `MapperContent.AssistantHolds` | `crates/allthecodes-acp/src/updates.rs:200-264` | told from the blocks alone: one message holding the text of every non-empty text and connector block, then the update of every tool block, then one thought holding the text of every non-empty thinking and redacted block, each in block order with none missing; message and thought are absent exactly if there is no such block, and take the next number exactly if they are there |
| `MapperContent.ReplayHolds` | `crates/allthecodes-acp/src/updates.rs:162-198` | told from the blocks alone: every non-empty text block as a message of its own under consecutive numbers and every tool result, in block order; if no block is shown, the plain content, if there is any |
| `MapperContent.OthersHold` | `crates/allthecodes-acp/src/updates.rs:130-146` | notices are shown as one thought with their note, a brief as structured exactly if the session asked for it, a goal with entries as a plan, an init not at all, each taking a number of its own kind only |
| `MapperContent.EventsHold` | `crates/allthecodes-acp/src/updates.rs:266-321` | a message start says running, a tool block start shows the tool, and no other event without text shows anything |
| `MapperContent.ResultHolds` | `crates/allthecodes-acp/src/updates.rs:745-769` | a result is shown as usage and idle; the reason is the forced one, else each reason exactly for the results it stands for, and never cancelled |
| `MapperRuns.StreamReassembly` | `crates/allthecodes-acp/src/updates.rs:266-360` | over any message sequence the chunks under a block's message id concatenate to exactly the accepted text of that kind and block index, in order; an index without an id had no text |
| `MapperRuns.RegroupedIsComplete` | `crates/allthecodes-acp/src/updates.rs:281-344` | for a kind and block index, the regrouped output is all the text its events held if and only if no connector or redacted block start held text and no delta held text behind its first non-empty field |
| `MapperRuns.ChunksShareIds` | `crates/allthecodes-acp/src/updates.rs:83-96` | two chunks of a run share a message id if and only if they are of one kind and one block index |
| `MapperRuns.WholeMessageIdsFresh` | `crates/allthecodes-acp/src/updates.rs:200-264` | a whole-message id differs from every other id of the run, earlier or later, chunk or whole message |
| `MapperBlocks.IdsSeparateExactly` | `crates/allthecodes-acp/src/updates.rs:59-64` | with a block named by its response, the number of message starts before it, its kind and its index: chunks share a message id exactly when they belong to one streamed block, if and only if no two responses stream text of one kind at one index |
| `MapperBlocks.RegroupedIsOneBlock` | `crates/allthecodes-acp/src/updates.rs:266-279` | the text regrouped for a kind and index is the text streamed for one response's block if and only if no other response streamed text of that kind at that index |
| `MapperBlocks.TwoResponsesMix` | `crates/allthecodes-acp/src/updates.rs:266-279` | two responses with text in block 0: both blocks share one message id, and the regrouped text is that of both |
| `MapperBlocks.IdsGivenExactly` | `crates/allthecodes-acp/src/updates.rs:281-344` | over every run a kind and index has a message id exactly if some message opened such a block, with text or without, or streamed text into one |
| `UpdateMapper.AcpUpdateMapper.AgentMessageIdForBlock` | `crates/allthecodes-acp/src/updates.rs:83-88` | an unknown block gets the next number, a known one keeps its id |
| `UpdateMapper.AcpUpdateMapper.ThoughtMessageIdForBlock` | `crates/allthecodes-acp/src/updates.rs:90-96` | the same for thoughts, from their own counter |
| `UpdateMapper.AcpUpdateMapper.MapContentBlockStart` | `crates/allthecodes-acp/src/updates.rs:281-321` | new state and updates of a block start |
| `UpdateMapper.AcpUpdateMapper.MapContentBlockDelta` | `crates/allthecodes-acp/src/updates.rs:323-344` | new state and updates of a delta: the first non-empty of text, thinking and data decides |
| `UpdateMapper.AcpUpdateMapper.MapAssistantBlocks` | `crates/allthecodes-acp/src/updates.rs:200-264` | text message first, then tool updates, then the thought, with ids taken in that order |
| `UpdateMapper.AcpUpdateMapper.MapUserReplay` | `crates/allthecodes-acp/src/updates.rs:162-198` | new state and updates of a replayed user message |
| `UpdateMapper.AcpUpdateMapper.Map` | `crates/allthecodes-acp/src/updates.rs:130-146` | the mapper object computes the specification function on every message |
| `Framing.LittleEndianRead` | `crates/allthecodes-browser/src/native_host.rs:88-92` | four bytes, lowest first, give back the length they were made from |
| `Framing.LittleEndianWritten` | `crates/allthecodes-browser/src/native_host.rs:112-118` | and the other way round |
| `Framing.LengthsRefused` | `crates/allthecodes-browser/src/native_host.rs:88-96` | a length prefix is refused as soon as it is read exactly if it says zero or more than 2^20 |
| `Framing.SingleRoundTrip` | `crates/allthecodes-browser/src/native_host.rs:84-120` | a payload the writer accepts is read back if and only if it is not empty |
| `Framing.ListRoundTrip` | `crates/allthecodes-browser/src/native_host.rs:84-120` | any list of payloads of 1 to 2^20 bytes decodes to itself, then to the end of the stream |
| `Framing.StreamRoundTrip` | `crates/allthecodes-browser/src/native_host.rs:84-120` | frames followed by any bytes decode to the payloads followed by what those bytes give |
| `Framing.FramesInjective` | `crates/allthecodes-browser/src/native_host.rs:104-120` | different payload lists have different encodings |
| `Framing.DecodeSound` | `crates/allthecodes-browser/src/native_host.rs:84-102` | whatever the bytes, the payloads read re-encode to the front of the stream, each consumed at least 5 bytes, and the end counts as clean exactly if fewer than 4 bytes were left |
| `Framing.CutStream` | `crates/allthecodes-browser/src/native_host.rs:84-102` | a stream cut anywhere yields a prefix of the payloads sent |
| `Framing.ReadBack` | `crates/allthecodes-browser/src/native_host.rs:84-120` | however the bytes are split into reads, the read loop returns exactly the payloads and a clean end |
| `Framing.ByteReader.ReadExact` | `crates/allthecodes-browser/src/native_host.rs:88-101` | gathers pieces until the buffer is full, or reports the end with nothing left |
| `Framing.ByteReader.ReadFramed` | `crates/allthecodes-browser/src/native_host.rs:84-102` | reads what the decoder says from the remaining bytes |
| `Framing.ByteReader.ReadFrames` | `crates/allthecodes-browser/src/mcp_bridge.rs:348-378` | the loop over frames returns the decoder's list and its end |
| `Framing.ByteWriter.WriteFramed` | `crates/allthecodes-browser/src/native_host.rs:104-120` | appends one frame, or nothing if the payload is over the limit of 2^20 bytes |
| `Bridge.OwnAnswer` | `crates/allthecodes-browser/src/mcp_bridge.rs:342-432` | over any interleaving of calls, replies, timeouts, closes and reconnects a finished call that returns a value got the host's message for its own request id, or the closed marker of its own connection after that socket ended; no call sees its reply channel dropped |
| `BridgeValues.ReturnsWhatArrived` | `crates/allthecodes-browser/src/mcp_bridge.rs:357-419` | over every run, a call that returns a message returns exactly one the host sent on the call's own connection while its request was pending there; one that returns the marker was pending when its connection closed |
| `BridgeValues.TakenIsTheAnswer` | `crates/allthecodes-browser/src/mcp_bridge.rs:357-363` | a message taken for a request is delivered next or has been sent, and no other value is ever sent for that request; likewise the marker for a request cut off |
| `BridgeValues.FailuresExactly` | `crates/allthecodes-browser/src/mcp_bridge.rs:398-431` | a call ends as a failed write exactly if its write failed, as a timeout exactly if its timeout fired, unsent exactly if its connect failed |
| `Bridge.AnsweredOnce` | `crates/allthecodes-browser/src/mcp_bridge.rs:225-229` | no request is answered twice and no two calls share a request id |
| `Bridge.NewerNeverEvicted` | `crates/allthecodes-browser/src/mcp_bridge.rs:253-258` | the stored connection is evicted only by a step of that very connection |
| `Bridge.AwaitingCanReturn` | `crates/allthecodes-browser/src/mcp_bridge.rs:379-384` | a call awaiting its reply on a connection that has ended can still return a value, by some continuation, if and only if its request was inserted before the socket closed |
| `Bridge.StrandedHappens` | `crates/allthecodes-browser/src/mcp_bridge.rs:398-416` | a concrete run: the socket closes and is drained between the moment a call takes the connection and the moment it inserts its request; the call waits and can return nothing |
| `Bridge.StrandedNeverReturns` | `crates/allthecodes-browser/src/mcp_bridge.rs:379-384` | a request inserted after its connection was drained never returns a value, however long the run goes on |
| `Bridge.PublishedStays` | `crates/allthecodes-browser/src/mcp_bridge.rs:253-258` | over any run a published connection stays in the store through all steps of other connections, older or newer |
| `BridgeValues.EvictedForGood` | `crates/allthecodes-browser/src/mcp_bridge.rs:253-258` | a connection whose socket has closed, or on which a write has failed and been cleaned up, is never in the store again |
| `Bridge.PendingRequests.ReadSocket` | `crates/allthecodes-browser/src/mcp_bridge.rs:342-385` | undisturbed, each waiter gets the first frame that carries its id, or the closed marker, and the table ends empty |
| `BridgeValues.FirstForIsFirst` | `crates/allthecodes-browser/src/mcp_bridge.rs:357-363` | what a waiter is given is the first frame that carries its id, or the marker if none does |
| `Registry.RunRefinesMap` | `crates/allthecodes-commands/src/dynamic_registry.rs:94-137` | after any operations the list holds each name and source pair once, and what a map keyed by that pair would |
| `Registry.LookupAgrees` | `crates/allthecodes-commands/src/dynamic_registry.rs:94-110` | looking a pair up in the list answers as the map does |
| `Registry.FindsOnce` | `crates/allthecodes-commands/src/dynamic_registry.rs:142-160` | the result of `find` is determined by its promise |
| `Registry.UnregisterReveals` | `crates/allthecodes-commands/src/dynamic_registry.rs:124-160` | unregistering the winner reveals the first listed entry of maximal priority among the others |
| `Registry.UnregisterOther` | `crates/allthecodes-commands/src/dynamic_registry.rs:124-160` | unregistering anything else leaves the winner in place |
| `Registry.LowerPriorityCannotShadow` | `crates/allthecodes-commands/src/dynamic_registry.rs:94-160` | a registration of lower priority takes no query away from its winner, whatever its name and aliases |
| `RegistryQueries.SourcesRanked` | `crates/allthecodes-commands/src/dynamic_registry.rs:24-32` | builtin outranks user, user project, project plugin, plugin skill |
| `RegistryQueries.BuiltinWins` | `crates/allthecodes-commands/src/dynamic_registry.rs:20-24` | whenever a builtin entry answers a query, a builtin entry is found |
| `RegistryQueries.RegisterShadowsExactly` | `crates/allthecodes-commands/src/dynamic_registry.rs:94-160` | after a registration under a key that is not the winner's, the query finds the new entry if and only if it names or aliases the query and outranks the winner, and else the old winner |
| `RegistryQueries.RegisterFoundExactly` | `crates/allthecodes-commands/src/dynamic_registry.rs:94-160` | a query that found nothing finds a new entry if and only if it names or aliases the query |
| `Registry.SortIsStable` | `crates/allthecodes-commands/src/dynamic_registry.rs:163-192` | the listing order is a permutation, sorted by priority then usage, with ties in list order |
| `Registry.StableSortUnique` | `crates/allthecodes-commands/src/dynamic_registry.rs:163-192` | these promises determine the listing |
| `RegistryQueries.VisibleAt` | `crates/allthecodes-commands/src/dynamic_registry.rs:163-170` | the visible entries are those not hidden, in list order with none missing |
| `RegistryQueries.ListedInOrder` | `crates/allthecodes-commands/src/dynamic_registry.rs:171-176` | a listing goes by source priority and within a source by falling usage |
| `Registry.DynamicRegistry.Register` | `crates/allthecodes-commands/src/dynamic_registry.rs:94-113` | replaces the entry of the same pair, appends the new one, counts one revision |
| `Registry.DynamicRegistry.RegisterAll` | `crates/allthecodes-commands/src/dynamic_registry.rs:116-121` | returns the replaced entries in order, leaves what the registrations one by one leave, and counts one revision per entry |
| `Registry.RevisionsCounted` | `crates/allthecodes-commands/src/dynamic_registry.rs:103-109` | revisions count registrations modulo 2^64 |
| `Registry.DynamicRegistry.Unregister` | `crates/allthecodes-commands/src/dynamic_registry.rs:124-137` | removes exactly that pair and counts a revision only if it was there |
| `Registry.DynamicRegistry.RecordUsage` | `crates/allthecodes-commands/src/dynamic_registry.rs:198-204` | raises the score of every entry of that name, capped at one, and counts no revision |
| `RegistryQueries.UsesAddUp` | `crates/allthecodes-commands/src/dynamic_registry.rs:198-204` | n recorded uses add n tenths to the score of every entry of that name, up to one, and change no other entry |
| `Registry.DynamicRegistry.Find` | `crates/allthecodes-commands/src/dynamic_registry.rs:142-160` | the loop returns the first listed entry of maximal priority among name or alias matches |
| `Registry.DynamicRegistry.ListVisible` | `crates/allthecodes-commands/src/dynamic_registry.rs:163-177` | the stable sort of the entries not hidden |
| `Registry.DynamicRegistry.ListAll` | `crates/allthecodes-commands/src/dynamic_registry.rs:180-192` | the stable sort of all entries |
| `AtomicWrite.TempNamesDistinct` | `crates/allthecodes-auth/src/token.rs:99-104` | temporary names of one process differ for different sequence numbers and from the destination |
| `AtomicWrite.DestinationIsWhole` | `crates/allthecodes-auth/src/token.rs:92-125` | over any interleaving of writers and a crash at any step the destination is its initial content or the complete content of the writer that renamed last |
| `AtomicWrite.FailureLeavesDestination` | `crates/allthecodes-auth/src/token.rs:112-124` | a call that reports failure has changed the destination if and only if what failed was the permission change after the rename |
| `AtomicWrite.FailureReported` | `crates/allthecodes-auth/src/token.rs:92-125` | a call blames an operation if and only if that operation failed |
| `AtomicWrite.NothingLeftBehind` | `crates/allthecodes-auth/src/token.rs:92-125` | a failed call whose cleanup worked leaves no temporary file, for good |
| `AtomicWrite.OnlyReplaceChanges` | `crates/allthecodes-auth/src/token.rs:117-117` | only a successful rename changes the destination, to what its own writer wrote |
| `AtomicWrite.Directory.Write` | `crates/allthecodes-auth/src/token.rs:92-125` | one call with a fault at any stage: outcome, destination, temporary file and all other files |
| `AtomicWrite.Directory.Attempt` | `crates/allthecodes-auth/src/token.rs:112-124` | the steps of one attempt and its cleanup, for any temporary name |
| `Shards.ContainsMeans` | `scripts/pty_tui_shards.py:294-294` | the substring filter means what it says |
| `Shards.PrefixMeans` | `scripts/pty_tui_shards.py:101-102` | a prefix matches exactly the tests whose names go on with a double colon after it |
| `Shards.OverlappingPrefixesRejected` | `scripts/pty_tui_shards.py:149-164` | a duplicated prefix, or one that extends another, is always rejected |
| `Shards.ValidateCoverage` | `scripts/pty_tui_shards.py:105-189` | accepts if and only if the counts agree and every test matches exactly one configured prefix and every prefix some test; otherwise it reports the first check that failed with exactly the tests or prefixes concerned; the late union and overlap errors are never raised |
| `Shards.PtyTestCommands` | `scripts/pty_tui_shards.py:281-298` | under substring and exact filters the commands run exactly the runnable tests, each once |
| `Shards.RunShard` | `scripts/pty_tui_shards.py:312-335` | a shard runs the default tests assigned to its prefixes |
| `Shards.ExactCover` | `scripts/pty_tui_shards.py:139-164` | after an accepted assignment the shards' plans together run each default test exactly once and no ignored test |
| `Shards.RunAllShards` | `scripts/pty_tui_shards.py:312-335` | all shards together run the union of the plans, counted with multiplicity |
| `Shards.ValidateAndRun` | `scripts/pty_tui_shards.py:105-335` | whenever validation accepts, running every shard runs each default test exactly once |
| `TreePrinter.RoundTrip` | `crates/allthecodes-commands/src/browser.rs:36-124` | the parser recovers the exact forest shape and every line's text from the printed body if and only if no text holds a newline and no root line starts with a space |
| `TreePrinter.PrintedDistinguishes` | `crates/allthecodes-commands/src/browser.rs:36-124` | two printable forests print alike if and only if they have the same shape and texts |
| `TreePrinter.SameShapeSameBody` | `crates/allthecodes-commands/src/browser.rs:36-124` | the printed body depends on the shape and the line texts alone |
| `TreePrinter.ParseYieldsPrintable` | `crates/allthecodes-commands/src/browser.rs:54-124` | whatever text parses, parses to a printable forest |
| `TreeLines.ChildDrawn` | `crates/allthecodes-commands/src/browser.rs:98-124` | each child stands after its elder siblings, with a corner if it is the last and a branch otherwise, followed by its own children under a bar that goes on exactly if it has younger siblings |
| `TreeLines.LabelReadBack` | `crates/allthecodes-commands/src/browser.rs:61-75` | badge, name and detail are read back from a node's text, for names without dash or leading bracket and badges without closing bracket |
| `TreeLines.HeadingDrawn` | `crates/allthecodes-commands/src/browser.rs:36-44` | a title stands above a rule of dashes as long as itself, up to sixty; without a title there is no heading; a tree without entries says so |
| `TreePrinter.PushLine` | `crates/allthecodes-commands/src/browser.rs:61-75` | appends a root line: badge in brackets, label, detail after a dash |
| `TreePrinter.RenderChild` | `crates/allthecodes-commands/src/browser.rs:98-124` | appends the node's line and, under the extended prefix, its children's |
| `TreePrinter.RenderChildren` | `crates/allthecodes-commands/src/browser.rs:115-124` | the loop over children appends their lines in order, the last with the closing connector |
| `TreePrinter.RenderRoot` | `crates/allthecodes-commands/src/browser.rs:54-96` | appends a root's line and its children's under two spaces |
| `TreePrinter.RenderTree` | `crates/allthecodes-commands/src/browser.rs:36-52` | the whole text is header and body |

## Left out

- Text, sockets, files and clocks: JSON text, standard input and output, sockets and pipes are replaced by values, queues and steps that may or may not happen; a timeout is a step that may fire at any time.
- The async scheduler: any enabled step may come next, and nothing is said about fairness or progress.
- ACP schema types: method and parameter decoding is an external library, so a run chooses what each request or notification asks for; updates carry only what the proofs speak of. Messages of error values are fixed texts.
- Envelope serialization: the shapes the builders produce come from an external library and are taken from sections 4 and 5 of the JSON-RPC 2.0 specification.
- The query engine: any stream of messages, an abort flag, and any non-idle updates on behalf of a turn that has been woken.
- Sessions and workers as objects: `Turns` numbers them and keeps them in sequences, so aliasing is by number; `TurnRuntime.Runtime` updates those sequences in place.
- The 5 ms polling loop of `close_session`: the wait ends when the slot is seen free or when the timeout step is taken.
- Permission traffic inside the turn protocol: closing and cancelling a session also cancels its permission requests; that is proved in `PermissionRuns` and not repeated in `Turns`.
- Bounded counters: wrap-around at 2^64 of request numbers, connection ids and temporary names.
- Several bridge processes on one native host: request ids are unique per process only.
- A serialization error after a bridge request was filed: it would leave the entry behind; building that payload from JSON values does not fail.
- Tool classification, tool titles, diffs, URLs and the tool cache: a tool block maps to an abstract call or outcome.
- Prompt conversion: only whether it succeeds.
- Permission option tables and the mapping from outcomes to decisions: case tables.
- Usage scores are real numbers, not floating point.
- The branch of `render_node` for nodes that are not roots: never called.
- A credentials path without a parent directory.
- OAuth refresh, keychain, browser discovery, slash-command handlers, the knowledge-base script, diagnostics, timing, cost and compaction: input and output or one-branch tables.
