# wekactl in Dafny

A model of the parts of wekactl whose correctness is hard to see from one function at a time, with proofs. Calls into
the cloud, the network, clocks and the scheduler are parameters: an environment (or oracle) that may answer anything,
and differently at every call. A failing call that changes something is modelled with the choice whether it had its
effect.

## What is modelled

**The JSON-RPC connection** (`Wire`, `Protocol`, `Handling`, `Exchange`, `AnyPeer`, `Connections`, `Progress`,
`RequestOrder`, `Goroutines`, `Objects`). `Protocol` is a transition system of two connections joined by FIFO streams.
Callers, reader loops and request goroutines interleave in single steps: registering, writing, receiving, cancelling and
leaving a call; taking a message off the stream and sending to a caller's channel; starting, going parallel, replying,
returning and ending a request; looking a request up for Cancel and cancelling it. `Exchange` holds the invariant
between the end that calls and the end that serves. It counts the places a call can be in, and every step of either end
keeps it. `AnyPeer` is about one connection whose peer may send anything: when its reader can block, and how often it
answers itself. Two connections discharge each other's need of a peer that answers once. `Progress` gives a measure that
every step of existing work lowers. `RequestOrder` is about which requests the peer takes up, and in which order.
`Goroutines` is what the goroutine of a request makes of its handlers, as a function and as a series of steps. `Objects`
are the mutable request, channel and connection, whose methods perform the steps of `Protocol`.

**Framing** (`Framing`, `HeaderStream`). The header loop as a function of the bytes, a decimal printer and parser, and
the stream object that reads and writes them.

**The terminate lambda** (`Cloud`, `Terminate`, `TerminateSafety`, `TerminateCoverage`, `TerminateReport`, `Drain`,
`TerminateLambda`, `FanOut`). `Terminate` is the handler as a function from an environment to the log of all calls and
the result. `TerminateLambda` is the code with its loops, proved to compute that function. `TerminateSafety` says what a
run may destroy, `TerminateCoverage` what it does not miss, `TerminateReport` what its log and its response look like
for any answers, and `Drain` what repeated runs achieve. `FanOut` is the semaphore, mutex and wait group pattern as a
step machine, for both of its users.

**Reconciliation** (`Reconcile`, `Convergence`). `EnsureResource` on an arbitrary tree of resources, with a log of all
calls. Host groups and clusters report no deployed version, and are therefore created in every run, also in a dry run.

**Two resources with repair logic** (`LoadBalancer`, `LoadBalancerRepair`, `LambdaResource`). The load balancer with its
parts and DNS alias, and the Lambda with the `#` marker on its version.

**Supporting cores** (`Pool`, `Naming`, `Batching`, `Strings`, `Bags`). Failover of the RPC pool; name shortening with
the ELF hash and the role lookup that depends on it; attaching instances in batches.

## Where the code differs from what one would expect

Each of these is proved, together with the exact condition under which the expected property holds.

- An answer whose error is a nil `*Error` builds a response with neither result nor error, and the caller sees success
  (`Wire.ResponseShape`). JSON-RPC 2.0, section 5, requires exactly one of the two.
- A call with an empty method name is routed as a response by the peer and never answered
  (`Connections.EmptyMethodNeverAnswered`).
- A peer can block the reader for good exactly if two of its messages are responses to one id
  (`AnyPeer.JamsExactlyIfAnsweredTwice`, `AnyPeer.JammedForGood`). With the peer being this same code that cannot happen
  (`Connections.ReaderNeverBlocks`).
- An empty message, or one of 2^31 bytes and more, is written but rejected by the reader (`Framing.ReadBack`).
- Errors of the unhealthy-instance step are missing from the response exactly when nothing is to be detached
  (`TerminateReports.HandlerErrors`, `TerminateReports.ErrorIsLost`).
- An instance counts as free of termination protection even if the call to remove it failed, and is sent to be
  terminated (`TerminateReports.StillProtectedIsTerminated`). Protection was off for all ids sent exactly if that
  fan-out gave no errors (`TerminateSafety.HandlerSafe`, `FanOut.NoErrorsNoFailures`).
- The terminate lambda crashes exactly if the autoscaling group does not exist, or a candidate has lost its private
  address between two descriptions while there is an explicit removal list (`TerminateSafety.HandlerCrashes`).
- Attaching instances crashes exactly if the group does not exist (`Batching.AttachEnds`).
- With a DNS alias configured, a load balancer whose alias is the only missing part, apart from the target group, is
  never repaired: every later pass crashes or fails (`LoadBalancerRepair.GoodPassRepairs`,
  `LoadBalancerRepair.StrandedForGood`, `LoadBalancerRepair.AliasFailureStrands`).
- An update of the load balancer that finds a part of an unsupported version succeeds all the same if a creation after
  the check overwrites the error (`LoadBalancerRepair.UnsupportedFails`, `LoadBalancerRepair.OldTargetGroupMasked`).
- A failed runtime or environment update of a Lambda is reported as success if the status read after it succeeds
  (`LambdaResource.ConfigureResult`, `LambdaResource.FailedEndpointReported`, `LambdaResource.FailedRuntimeReported`).
- A Lambda whose tag differs from the target only by a trailing `#` never settles
  (`LambdaResource.MarkedTagNeverSettles`, `LambdaResource.PassConverges`).
- A resource with an empty target version is created or updated in every run (`Convergence.Converges`).
- A role whose base name and hash do not fit in 64 characters is never found again, and each run creates another
  (`Naming.LongNamesPileUp`, `Naming.OnlyLongNames`), unless the base straddles the cut (`Naming.NameKeepsBase`), which
  one that ends in a word cannot (`Naming.WordNameKeepsBase`).
- A call to the pool reads past the end of the list exactly if all clients fail retryably (`Pools.FirstThatAnswers`).

## Model

| member | source | states |
|---|---|---|
| `Wire.ResponseShape` | internal/lib/jsonrpc2/jsonrpc2.go:257-270 | A response carries the request's id, is routed back to the caller, survives decoding with the same outcome, and has exactly one of result and error, unless the handler passed a nil coded error: then neither, and success with null |
| `Wire.AnswerArrives` | internal/lib/jsonrpc2/jsonrpc2.go:190-197 | What the caller gets, by the form of the answer: a coded error itself, any other error as code 0 with its text, a result as it is, an error for a result that cannot be marshalled, and null for a nil coded error |
| `Handling.TargetStep` | internal/lib/jsonrpc2/jsonrpc2.go:225-287 | Each step of a request keeps its bookkeeping (closed once iff parallel or later, one answer iff replied), moves it only forward, and lets it start only after its predecessor has closed its channel |
| `Handling.ServedKept` | internal/lib/jsonrpc2/jsonrpc2.go:363-383 | Every step of a connection keeps the order of handling for all its requests, and none moves backwards or loses an answer |
| `Handling.StartOrder` | internal/lib/jsonrpc2/jsonrpc2.go:321-383 | The requests that have started are a prefix in arrival order, all but the last have gone parallel, at most one is serial |
| `Handling.LetsNextStart` | internal/lib/jsonrpc2/jsonrpc2.go:225-255 | A handler that goes parallel, its reply to a call, and the end of a request let the next request start |
| `Handling.UntouchedKept` | internal/lib/jsonrpc2/jsonrpc2.go:341-365 | No step touches a request that has not started: it is unclaimed and unanswered |
| `Handling.OnlyCancelCancels` | internal/lib/jsonrpc2/jsonrpc2.go:89-96 | No step but a Cancel that has looked it up cancels a request |
| `Handling.FinishedAnswers` | internal/lib/jsonrpc2/jsonrpc2.go:366-382 | A finished call has exactly one answer and a finished notification none, whatever the handlers did; who gave it and with which error |
| `Handling.ChainRuns` | internal/lib/jsonrpc2/jsonrpc2.go:363-383 | The chain of nextRequest channels never deadlocks: the first unfinished request, and the first not yet parallel, can take a step |
| `Goroutines.ServedOnce` | internal/lib/jsonrpc2/jsonrpc2.go:363-383 | Whatever its handlers do, the goroutine of a call ends with exactly one answer, written or lost, that of a notification with none; it closes its channel once, writes nothing else, and has claimed the request iff a handler did |
| `Goroutines.WhoAnswers` | internal/lib/jsonrpc2/jsonrpc2.go:363-383 | The answer to a call is the first reply of any handler; without one it is method not found, or did not reply if a handler has claimed the call; it is lost exactly if its write fails |
| `Goroutines.ServeIsSteps` | internal/lib/jsonrpc2/jsonrpc2.go:363-383 | What the goroutine makes of its handlers is what a series of enabled steps of that request leads to, from start to end, with the same messages written |
| `Exchange.StepKeepsViews` | internal/lib/jsonrpc2/jsonrpc2.go:137-404 | Every step of either end keeps the relation of both ends: each call is in exactly one place until answered, everything on its way is genuine |
| `Exchange.ReadsCounted` | internal/lib/jsonrpc2/jsonrpc2.go:384-397 | The reader taking a message keeps the count of places of each call, whether the response is kept or its call has left |
| `Exchange.ServerReplies` | internal/lib/jsonrpc2/jsonrpc2.go:240-287 | Writing a reply moves the call from the served requests to the stream, or to the lost ones |
| `AnyPeer.BlocksOnlyOnSecondAnswer` | internal/lib/jsonrpc2/jsonrpc2.go:384-397 | For any peer and any schedule: pending is exactly the calls between registration and return, and the send to a caller's channel, cancelled or not, blocks only if two responses to that call have arrived |
| `AnyPeer.SingleAnswersNeverBlock` | internal/lib/jsonrpc2/jsonrpc2.go:154-173 | With any peer that answers each id at most once the reader never blocks |
| `AnyPeer.JamsExactlyIfAnsweredTwice` | internal/lib/jsonrpc2/jsonrpc2.go:387-397 | Exactly those sequences of messages from a peer that hold two responses to one id can jam the reader, for some calls and schedule |
| `AnyPeer.TwoAnswersJam` | internal/lib/jsonrpc2/jsonrpc2.go:154-159 | Any two responses to a waiting call jam the reader if the call is cancelled in between |
| `AnyPeer.JammedForGood` | internal/lib/jsonrpc2/jsonrpc2.go:387-396 | Nothing the connection does and nothing that arrives frees a jammed reader |
| `AnyPeer.CallerIsFree` | internal/lib/jsonrpc2/jsonrpc2.go:101-209 | Whatever the peer does, a call that waits can be cancelled and a call that ends can leave, and calls and notifications can be written |
| `AnyPeer.AnswersAtMostOnce` | internal/lib/jsonrpc2/jsonrpc2.go:240-287 | Whatever arrives and whatever handlers do, a connection writes at most as many responses with an id as it got calls with it, and its own calls once |
| `AnyPeer.PeersNeverBlock` | internal/lib/jsonrpc2/jsonrpc2.go:137-404 | Two connections that get what the other sends, with different call ids, never block each other's readers |
| `Connections.OneRequestPerCall` | internal/lib/jsonrpc2/jsonrpc2.go:341-361 | No call is served by two requests |
| `Connections.HandlingKept` | internal/lib/jsonrpc2/jsonrpc2.go:289-300 | Each step keeps the handling table equal to the calls being served, each mapped to its own request |
| `Connections.StepKeepsInv` | internal/lib/jsonrpc2/jsonrpc2.go:137-404 | Every interleaved step of the two connections keeps the whole invariant |
| `Connections.EveryRun` | internal/lib/jsonrpc2/jsonrpc2.go:137-404 | The invariant holds in every state of every run |
| `Connections.ReplyIntegrity` | internal/lib/jsonrpc2/jsonrpc2.go:184-199 | A call that got a response gets the one answer to the one request that the peer served for it, with its id, method and parameters: the handler's result or error by its form, method not found if that came from the default handler, did not reply if from the deferred part |
| `Connections.EndsAlone` | internal/lib/jsonrpc2/jsonrpc2.go:137-404 | Each end of a run of two joined connections is a connection on its own that gets exactly what the other has written |
| `RequestOrder.RequestsInOrder` | internal/lib/jsonrpc2/jsonrpc2.go:101-361 | In every run the requests that an end has taken up, followed by those on their way to it, are exactly the notifications and calls the other end has asked for, with id, method and parameters, in that order |
| `Connections.ReaderNeverBlocks` | internal/lib/jsonrpc2/jsonrpc2.go:387-397 | So in every run of two of these connections pending is exact and neither reader blocks |
| `Connections.CancelFindsItsRequest` | internal/lib/jsonrpc2/jsonrpc2.go:89-92 | Cancel finds the request of its id exactly while that is being handled |
| `Connections.CancelHitsItsRequest` | internal/lib/jsonrpc2/jsonrpc2.go:93-95 | Whenever a Cancel goes on after releasing the lock, it cancels the one request of its id and no other, whatever has happened in between |
| `Connections.NoReplyForgotten` | internal/lib/jsonrpc2/jsonrpc2.go:137-404 | When nothing can move on, every request is finished and every call has returned, except those with an empty method name or an unwritten reply |
| `Connections.EmptyMethodNeverAnswered` | internal/lib/jsonrpc2/jsonrpc2.go:341-342 | A call with an empty method name never gets a response |
| `Progress.StepWork` | internal/lib/jsonrpc2/jsonrpc2.go:137-404 | Every step without a new call or notification keeps the work left from growing, and every step that carries work on lowers it |
| `Progress.WorkRunsOut` | internal/lib/jsonrpc2/jsonrpc2.go:137-404 | A series of steps without new work contains at most as many that carry work on as there is work |
| `Progress.WorkEnds` | internal/lib/jsonrpc2/jsonrpc2.go:137-404 | The same from every reachable state: no livelock |
| `Objects.Slot.Put` | internal/lib/jsonrpc2/jsonrpc2.go:158 | A send to the one-slot channel blocks iff it is full |
| `Objects.ServerRequest.Parallel` | internal/lib/jsonrpc2/jsonrpc2.go:225-231 | The request object goes parallel as in the transition system, and closes its channel only once |
| `Objects.ServerRequest.Reply` | internal/lib/jsonrpc2/jsonrpc2.go:240-287 | A second reply and a reply to a notification are refused without effect; any other is recorded and written |
| `Objects.ServerRequest.Handle` | internal/lib/jsonrpc2/jsonrpc2.go:377-382 | Whatever operations a handler performs, request and stream end as the function of the handler says |
| `Objects.ServerRequest.DeliverDefault` | internal/lib/jsonrpc2/handler.go:116-125 | The default handler answers a call that no handler has claimed and leaves any other alone: the object ends as the step of the transition system and its write do |
| `Objects.ServerRequest.Conclude` | internal/lib/jsonrpc2/jsonrpc2.go:366-376 | The deferred part ends as the unwinding and ending steps and the write do |
| `Objects.ServerRequest.Deliver` | internal/lib/jsonrpc2/jsonrpc2.go:363-383 | The loop over the handlers and the default one ends with the request, its answer and the bytes written that the handlers as a function give, and with whether one claimed it |
| `Objects.Connection.Register` | internal/lib/jsonrpc2/jsonrpc2.go:158-161 | Registers a fresh empty channel and touches no other; the object then is the transition system's connection after the new call |
| `Objects.Connection.TakeResponse` | internal/lib/jsonrpc2/jsonrpc2.go:183-185 | The caller gets what its channel holds, as in the transition system |
| `Objects.Connection.Unregister` | internal/lib/jsonrpc2/jsonrpc2.go:162-169 | Removes the call, as leaving a call does in the transition system |
| `Objects.Connection.TakeMessage` | internal/lib/jsonrpc2/jsonrpc2.go:339-403 | One turn of the reader on the objects, with channels, requests and tables, is that of the transition system, and it blocks exactly if that does |
| `Objects.Connection.Serve` | internal/lib/jsonrpc2/jsonrpc2.go:363-383 | The goroutine of a request that its predecessor has let go leaves the connection that the steps from its start to its end lead to, an unwritten reply recorded as lost; with any handlers, exactly one answer to a call, nothing else written, one close |
| `Objects.Connection.Cancel` | internal/lib/jsonrpc2/jsonrpc2.go:89-96 | Cancels the listed request and nothing else, as looking up and cancelling do in the transition system |
| `Framing.ParseDecimal` | internal/lib/jsonrpc2/stream.go:114 | Parsing a printed number as a 32-bit integer gives the number back, or fails iff it does not fit |
| `Framing.ParseSigned` | internal/lib/jsonrpc2/stream.go:114 | Digits with or without a sign, leading zeros included, parse to their value, or fail iff that does not fit in 32 bits |
| `Framing.ParseRejects` | internal/lib/jsonrpc2/stream.go:114 | Everything else is rejected |
| `Framing.HeaderMeans` | internal/lib/jsonrpc2/stream.go:102-119 | A line with any white space around it is blank, has no colon, or names a header: any name but Content-Length is unknown, and that one asks for its trimmed value, if positive |
| `Framing.LengthLine` | internal/lib/jsonrpc2/stream.go:102-119 | The header line that is written parses to the length, and is an invalid length iff that is 0 or does not fit |
| `Framing.ReadBack` | internal/lib/jsonrpc2/stream.go:88-150 | A written message is read back unchanged with the byte count written and nothing more consumed, iff its length is positive and fits; the exact error otherwise |
| `Framing.RoundTrip` | internal/lib/jsonrpc2/stream.go:88-150 | Any sequence of such messages, whatever bytes they hold, is read back as that sequence and then the stream is at its end |
| `Framing.LineBefore` | internal/lib/jsonrpc2/stream.go:94-123 | Any line put before a frame: an unknown header or another length changes nothing but the byte count, and every other line is the error that it is |
| `Framing.UnknownSkipped` | internal/lib/jsonrpc2/stream.go:120-122 | Any number of unknown headers before any input changes nothing but the byte count |
| `Framing.CutShort` | internal/lib/jsonrpc2/stream.go:96-130 | A stream cut anywhere inside a frame yields an error, never a message |
| `HeaderStreams.HeaderStream.ReadString` | internal/lib/jsonrpc2/stream.go:97 | The next line with its end, or all that is left and not found |
| `HeaderStreams.HeaderStream.ReadHeaders` | internal/lib/jsonrpc2/stream.go:94-123 | The header loop consumes the lines up to the blank one and gives the last length, or the first error |
| `HeaderStreams.HeaderStream.Read` | internal/lib/jsonrpc2/stream.go:88-133 | The object reads what the function of the bytes says: message, count, error, and the input left |
| `HeaderStreams.HeaderStream.Write` | internal/lib/jsonrpc2/stream.go:135-150 | What reaches the stream is a prefix of the frame, of the length reported; success iff it is the whole frame |
| `FanOut.StepKeepsInv` | internal/aws/common/aws.go:53-78 | Every step of any goroutine keeps permits, wait count, lock and results in balance |
| `FanOut.EveryRun` | internal/aws/common/aws.go:53-78 | That balance holds under every schedule, with other fan-outs on the same semaphore |
| `FanOut.Throttled` | internal/aws/common/aws.go:47-68 | At most 20 goroutines hold a permit, at most one is in the critical section |
| `FanOut.NeverStuck` | internal/aws/common/aws.go:59-76 | While a goroutine is unfinished some goroutine can step, or other fan-outs hold all permits and can release one |
| `FanOut.StepsDecrease` | internal/aws/common/aws.go:59-76 | Every step of a goroutine brings the fan-out one step closer to its end |
| `FanOut.AllUpdated` | internal/aws/common/aws.go:53-78 | When the wait group releases the caller, the list is a permutation of the ids, failed calls included, with one error for each failed call |
| `FanOut.NoErrorsNoFailures` | internal/aws/common/aws.go:64-73 | The fan-out returns no error exactly if none of its calls has failed |
| `FanOut.MatchesCollected` | internal/aws/iam/role.go:237-272 | The role search returns exactly the matching roles, each once; one whose tags could not be read is left out |
| `FanOut.ResultStable` | internal/aws/common/aws.go:76-77 | After the release nothing changes the result any more |
| `TerminateSafety.TerminateAsgSafe` | internal/aws/lambdas/terminate/terminate.go:117-143 | Given ids that may be terminated, the call for at most 50 of them follows a successful removal of scale-in protection for the very list, or is for none |
| `TerminateSafety.TriageSafe` | internal/aws/lambdas/terminate/terminate.go:204-241 | Only unhealthy members are chosen: to detach if unprotected or gone, to terminate if protected and seen stopped |
| `TerminateSafety.DetachSafe` | internal/aws/autoscaling/autoscaling.go:104-120 | Each detach call is for 1 to 20 ids, all of which may be detached |
| `TerminateSafety.DetachUnhealthySafe` | internal/aws/lambdas/terminate/terminate.go:204-264 | All calls of the unhealthy step are safe; what it detaches was chosen so or has just been confirmed as terminating |
| `TerminateSafety.CandidateIsSurplus` | internal/aws/lambdas/terminate/terminate.go:37-111 | A chosen candidate is a member, was seen with an address that is no Weka host's, and in the description of the candidates that follows the one of all members was not going down and explicitly listed by id and address, or half an hour old by the clock as read for it |
| `TerminateSafety.TerminateSurplusSafe` | internal/aws/lambdas/terminate/terminate.go:93-115 | All calls of the surplus step are safe |
| `TerminateSafety.HandlerSafe` | internal/aws/lambdas/terminate/terminate.go:145-202 | Over a whole run under any answers: every id terminated is a stopped unhealthy protected member or a surplus member, at most 50 a call, right after scale-in protection was removed for that list; termination protection was off for all of them exactly if that fan-out gave no errors; every detached id is allowed |
| `TerminateSafety.CrashNeedsLostAddress` | internal/aws/lambdas/terminate/terminate.go:68-75 | The surplus step crashes exactly if two descriptions succeed, there is an explicit list and a candidate of the second has no private address |
| `TerminateSafety.HandlerCrashes` | internal/aws/lambdas/terminate/terminate.go:145-202 | A run crashes exactly if the group does not exist or its surplus step does |
| `TerminateCoverage.TriageMissesNone` | internal/aws/lambdas/terminate/terminate.go:204-241 | Every unhealthy member is dealt with: unprotected and in use, it is to be detached; protected, it was described and detached if gone, terminated if stopped |
| `TerminateCoverage.TriageErrors` | internal/aws/lambdas/terminate/terminate.go:215-220 | There is exactly one error for each description that failed |
| `TerminateCoverage.DetachSendsAll` | internal/aws/autoscaling/autoscaling.go:104-120 | The batches sent join to an initial part of the list to detach, all of it if no call fails |
| `TerminateCoverage.ReportTells` | internal/aws/lambdas/terminate/terminate.go:192-199 | The response names the terminated instances in order, each with the launch time of a described instance of that id |
| `TerminateReports.AsgTells` | internal/aws/lambdas/terminate/terminate.go:117-143 | By its log, a termination makes its three calls: for the first 50 ids, for those listed by that, and for those or, if the second fails, none; its errors are those of the first call and one for each of the others that fails |
| `TerminateReports.TriageTells` | internal/aws/lambdas/terminate/terminate.go:204-241 | By its log, exactly the unhealthy protected members are described, one at a time and in order; those seen stopped are to be terminated, in that order, and no member is dealt with twice |
| `TerminateReports.UnhealthyTells` | internal/aws/lambdas/terminate/terminate.go:204-264 | By its log, the unhealthy step detaches what the triage has put down and what was confirmed as terminating, in batches of 20 up to the first that fails, and returns its errors unless nothing was to be detached |
| `TerminateReports.SurplusTells` | internal/aws/lambdas/terminate/terminate.go:37-115 | By its log, the surplus step describes the members, then exactly those with an address that is no host's, and sends to be terminated exactly those not going down and listed by id and address or half an hour old; where it stops, and what it reports |
| `TerminateReports.HandlerRefuses` | internal/aws/lambdas/terminate/terminate.go:145-170 | Without the right version, a group name or a listed group: no call but the listing, and which result |
| `TerminateReports.HandlerTells` | internal/aws/lambdas/terminate/terminate.go:145-202 | The log of a whole run holds what the cloud has answered, and is a listing, an unhealthy step and a surplus step, with the errors handed on |
| `TerminateReports.HandlerErrors` | internal/aws/lambdas/terminate/terminate.go:161-202 | By the log alone, the response lists the errors handed on, then those of the unhealthy step, one for each failed call in order, except that all are lost exactly if nothing was detached, then those of the last termination, or none if that is not reached |
| `TerminateReports.ErrorIsLost` | internal/aws/lambdas/terminate/terminate.go:214-221 | One unhealthy protected member whose description fails: the step has an error and returns none |
| `TerminateReports.StillProtectedIsTerminated` | internal/aws/lambdas/terminate/terminate.go:117-143 | An instance whose termination protection could not be removed is terminated all the same, and the failure reported |
| `Drain.RunTerminates` | internal/aws/lambdas/terminate/terminate.go:93-143 | A failure-free surplus step terminates exactly min(50, N) of the N eligible instances and nothing else |
| `Drain.HandlerTerminates` | internal/aws/lambdas/terminate/terminate.go:145-202 | The same for a run of the whole handler, from the end of its unhealthy step on |
| `Drain.AfterEligible` | internal/aws/lambdas/terminate/terminate.go:98-109 | Terminating a batch takes exactly its members out of the eligible set |
| `Drain.RoundShrinks` | internal/aws/lambdas/terminate/terminate.go:145-202 | A run of the handler in which nothing fails from the surplus step on leaves N - min(50, N) eligible |
| `Drain.Drained` | internal/aws/lambdas/terminate/terminate.go:145-202 | After n such runs of the handler, with members, hosts and requests that may change but make no other instance eligible, at most N - 50 n are left: none after N / 50 runs, rounded up |
| `TerminateLambda.Session.TerminateAsgInstances` | internal/aws/lambdas/terminate/terminate.go:117-143 | The method makes the calls and returns the lists of the specification |
| `TerminateLambda.Session.DetachInstances` | internal/aws/autoscaling/autoscaling.go:104-120 | The index loop sends the batches of the specification and stops at the first failure |
| `TerminateLambda.Session.DetachUnhealthyInstances` | internal/aws/lambdas/terminate/terminate.go:204-264 | The loop over members with its appends and early continue gives the specified calls and errors |
| `TerminateLambda.Session.GetDeltaInstancesIds` | internal/aws/lambdas/terminate/terminate.go:37-53 | The loop gives the members with an address that is no host's, in order |
| `TerminateLambda.Session.ChooseInstances` | internal/aws/lambdas/terminate/terminate.go:93-109 | The loop chooses the specified candidates, or meets the nil address |
| `TerminateLambda.Session.Handler` | internal/aws/lambdas/terminate/terminate.go:145-202 | The whole handler, with every early return, makes the specified calls and returns the specified response |
| `Reconcile.Session.EnsureFetched` | internal/cluster/resource.go:41-75 | Fetch and then Create, Update or nothing, on the deployed and target versions and the dry-run flag |
| `Reconcile.Session.EnsureResource` | internal/cluster/resource.go:31-76 | The loop over sub-resources with early exit and the recursion compute the specified run on any tree |
| `Convergence.RunWalks` | internal/cluster/resource.go:31-67 | The effects of a run are an initial part of the post-order walk, all of it iff the run succeeds, and end at the first failure |
| `Convergence.DescendantsFirst` | internal/cluster/resource.go:32-36 | In the walk no resource comes before one of its descendants, and none comes twice |
| `Convergence.EffectsInOrder` | internal/cluster/resource.go:31-67 | Under any failures: post-order, each resource at most once and after its descendants, created or updated only right after its own fetch, nothing after a failure |
| `Convergence.CallsFit` | internal/cluster/resource.go:38-67 | On any tree and under any failures: only host groups, clusters and resources without a deployed version are created, only resources with one that is not the target are updated, neither of the managed ones in a dry run, and a fetched resource gets the call that is due right after |
| `Convergence.EachGetsItsCall` | internal/cluster/resource.go:31-76 | In a failure-free run every resource of the tree is fetched, and created or updated exactly if its version asks for it; host groups and clusters are created even in a dry run |
| `Convergence.FailureShows` | internal/cluster/resource.go:46-67 | A run whose last call failed leaves that resource with the version that the call left |
| `Convergence.Untouched` | internal/cluster/resource.go:46-67 | A dry run, or a run over an up-to-date tree, changes nothing; it creates only host groups and clusters and updates nothing |
| `Convergence.RunGrows` | internal/cluster/resource.go:31-76 | Whatever fails, resources that were up to date stay so |
| `Convergence.RetriesGrow` | internal/cluster/resource.go:31-76 | The same over any number of runs |
| `Convergence.SuccessDeploys` | internal/cluster/resource.go:57-66 | A successful run leaves every managed resource at its target |
| `Convergence.GoodRunSucceeds` | internal/cluster/resource.go:31-76 | A run fails only if some call does |
| `Convergence.WorkIsDone` | internal/cluster/resource.go:46-67 | A failure-free run over a tree that is not up to date does create or update a managed resource |
| `Convergence.Converges` | internal/cluster/resource.go:31-76 | After any failed runs, a successful one brings all to target; the next run leaves all managed resources alone iff each has a target version |
| `LoadBalancer.ApplicationLoadBalancer.FetchVersions` | internal/aws/cluster/alb.go:41-75 | Every API read of each look-up in order with early return; the fields then tell the cloud's state, and a record found earlier is kept if the alias is not looked up |
| `LoadBalancer.ApplicationLoadBalancer.CreateParts` | internal/aws/cluster/alb.go:97-118 | Balancer, target group, listener, alias in order, stopping at the first failure |
| `LoadBalancer.ApplicationLoadBalancer.UpdateParts` | internal/aws/cluster/alb.go:120-172 | The repair with its overwritten error variable and the nil balancer does what the specification says |
| `LoadBalancerRepair.PassGood` | internal/aws/cluster/alb.go:41-172 | A pass, failed or not, creates only parts that do not exist and leaves a state that the next pass can read |
| `LoadBalancerRepair.NeverTwice` | internal/aws/cluster/alb.go:97-172 | However many passes fail and wherever, no part is created twice |
| `LoadBalancerRepair.CompleteIsTarget` | internal/aws/cluster/alb.go:82-95 | The deployed version equals the target exactly if all parts exist |
| `LoadBalancerRepair.PartialVersion` | internal/aws/cluster/alb.go:82-95 | An incomplete load balancer reads as a version other than the target, and as none exactly if nothing of it exists and no alias is configured |
| `LoadBalancerRepair.RecordStays` | internal/aws/cluster/alb.go:61-72 | After a successful Fetch the fields tell the cloud's state, except that a record found earlier stays if the alias is not looked up |
| `LoadBalancerRepair.FetchTakes` | internal/aws/cluster/alb.go:41-75 | How many reads a Fetch takes, by what exists |
| `LoadBalancerRepair.CreateMakes` | internal/aws/cluster/alb.go:97-118 | Create makes its parts in order up to the first failure, and succeeds iff each call does |
| `LoadBalancerRepair.UpdateMakes` | internal/aws/cluster/alb.go:120-172 | Without failures an update makes exactly the missing parts, in order, the alias only with the balancer known by then, and looks up what a listener needs |
| `LoadBalancerRepair.PassStops` | internal/aws/cluster/alb.go:41-172 | Under any answers a pass stops at the first call that fails, and reports an error |
| `LoadBalancerRepair.GoodPassRepairs` | internal/aws/cluster/alb.go:120-172 | A failure-free pass completes the load balancer, exactly unless balancer and listener exist and the configured alias does not: then it crashes |
| `LoadBalancerRepair.SuccessMeansComplete` | internal/aws/cluster/alb.go:41-172 | Whatever the calls answer, a pass that reports success has completed it, so that the next Fetch finds the target |
| `LoadBalancerRepair.RepairedAfterFailures` | internal/aws/cluster/alb.go:97-165 | Without an alias: after any failures one failure-free pass completes all, with each part created once |
| `LoadBalancerRepair.StrandedForGood` | internal/aws/cluster/alb.go:144-169 | The excepted state is never left and no pass in it succeeds |
| `LoadBalancerRepair.AliasFailureStrands` | internal/aws/cluster/alb.go:114-117 | One failing alias call in the first pass leads into it |
| `LoadBalancerRepair.UnsupportedFails` | internal/aws/cluster/alb.go:125-169 | An update in which no call fails returns the unsupported-version error exactly if nothing, the alias included, is created after the check that found it |
| `LoadBalancerRepair.OldTargetGroupMasked` | internal/aws/cluster/alb.go:125-162 | With an old target group and no listener a pass succeeds, and the version is still not the target |
| `LambdaResource.Lambda.FetchVersion` | internal/aws/cluster/lambda.go:44-70 | The tag, the role of the profile if it is not known yet, and the role of the function if there is a tag, in that order with each failure; the version is marked if the roles differ |
| `LambdaResource.FetchSees` | internal/aws/cluster/lambda.go:44-70 | A Fetch that succeeds gives the tag, marked exactly if the function has another role than the one known or, if none is known, answered by the look-up; it fails exactly if one of its calls does |
| `LambdaResource.Lambda.TryChange` | internal/aws/lambdas/lambda.go:365-379 | At most three attempts, repeated only for a refused parameter; the last error counts |
| `LambdaResource.Lambda.WaitForUpdate` | internal/aws/lambdas/lambda.go:304-320 | At most twelve status reads, up to the first that fails or finds the update successful |
| `LambdaResource.AttemptsMean` | internal/aws/lambdas/lambda.go:365-379 | Every attempt but the last was refused its parameter, the last one decides, and only the wanted call is made |
| `LambdaResource.WaitMeans` | internal/aws/lambdas/lambda.go:304-320 | The wait goes on as long as the update is in progress, and succeeds iff its last read finds it successful |
| `LambdaResource.PatienceEnds` | internal/aws/lambdas/lambda.go:304-390 | If nothing ever works: three attempts for the runtime, one for the endpoint, twelve status reads each, and failure |
| `LambdaResource.Lambda.ConfigureFunction` | internal/aws/cluster/lambda.go:102-129 | Runtime, architecture and endpoint in order, with the attempts, the waits, the dropped errors and the nil and parse cases |
| `LambdaResource.Lambda.UpdateFunction` | internal/aws/cluster/lambda.go:102-142 | The whole update does what the specification says |
| `LambdaResource.ConfigureKeeps` | internal/aws/cluster/lambda.go:102-129 | Configuring touches neither tag nor role, and code only to bring in the target |
| `LambdaResource.ConfigureResult` | internal/aws/lambdas/lambda.go:322-390 | Configuring that reports success has set the architecture; the runtime is right exactly if it was or one of its attempts did not fail, the endpoint exactly if it was or the one call to set it did not fail |
| `LambdaResource.SuccessWasSeen` | internal/aws/lambdas/lambda.go:304-390 | Configuring that reports success has read the function, and in each step that called for a change seen the update successful; the call for the architecture did not fail |
| `LambdaResource.FailedEndpointReported` | internal/aws/lambdas/lambda.go:381-390 | Only the endpoint is wrong, every write fails and every read succeeds: success is reported and nothing has changed |
| `LambdaResource.FailedRuntimeReported` | internal/aws/lambdas/lambda.go:322-338 | The same with only the runtime or handler wrong |
| `LambdaResource.GoodConfigure` | internal/aws/cluster/lambda.go:102-129 | With no failing call: crashes exactly without the endpoint variable, fails exactly if that is no flag or a needed bucket is missing, and otherwise sets all that is wrong and only that |
| `LambdaResource.GoodUpdate` | internal/aws/cluster/lambda.go:102-142 | The same for a whole update, with the code and tag brought in iff the version asks for it |
| `LambdaResource.UploadMeans` | internal/aws/cluster/lambda.go:131-141 | Code, a read and the tag, each only if all before it went well, and success iff all do |
| `LambdaResource.FlagsAre` | internal/aws/cluster/lambda.go:120-123 | The texts that are understood as a flag |
| `LambdaResource.PassConverges` | internal/aws/cluster/lambda.go:44-142 | A successful pass ends with the target tag and the role known or answered by the look-up, exactly unless the marks were ambiguous |
| `LambdaResource.UpdateConverges` | internal/aws/cluster/lambda.go:131-141 | For an unmarked tag and any target the next Fetch gives the target; the role is re-pointed iff it differed, code uploaded iff the tag differed |
| `LambdaResource.UpdateStaysHonest` | internal/aws/lambdas/lambda.go:174-208 | Whatever fails, the tag never claims a target that the code is not |
| `LambdaResource.MarkedTagNeverSettles` | internal/aws/cluster/lambda.go:131-141 | A tag that is the target with a trailing mark survives every successful pass |
| `Pools.DropKeepsTheRest` | internal/lib/jrpc/pool.go:28-34 | Dropping removes one occurrence if there is one and keeps the rest as a multiset |
| `Pools.DropKeepsTheActive` | internal/lib/jrpc/pool.go:21-36 | Dropping another address leaves the active one, its client, and its place in the list |
| `Pools.RetryIsSmaller` | internal/lib/jrpc/pool.go:39-50 | Each retry lowers the list's length plus one for an active address not listed |
| `Pools.OrderIsBackwards` | internal/lib/jrpc/pool.go:28-43 | The addresses are tried first to last as: the first, then the others from the end |
| `Pools.OrderTriesEachOnce` | internal/lib/jrpc/pool.go:28-43 | Each listed address is tried as often as it is listed, not more |
| `Pools.FirstThatAnswers` | internal/lib/jrpc/pool.go:45-54 | Called in turn, the first client that does not fail retryably gives the outcome, with those up to it called once each; past the end iff there is none |
| `Pools.CallTriesInOrder` | internal/lib/jrpc/pool.go:38-55 | A call without an active address calls the clients in that order and gives that outcome |
| `Pools.CallTriesActiveFirst` | internal/lib/jrpc/pool.go:38-55 | With an active address its client comes first, then the others in order |
| `Pools.CallDropsTheFailed` | internal/lib/jrpc/pool.go:38-55 | After any call: an active address that answers stays, and the list with it; otherwise exactly the failed ones are gone from the order, and the answering one is active and first |
| `Pools.CallKeepsMatched` | internal/lib/jrpc/pool.go:39-45 | An active address always has the client built for it, so no nil client is called |
| `Pools.NoneCalledTwice` | internal/lib/jrpc/pool.go:38-55 | With distinct addresses the addresses called in one call to the pool are distinct |
| `Pools.RetryableMeans` | internal/lib/jrpc/pool.go:47 | A failure is retried exactly if one of four texts occurs in its message |
| `Pools.Pool.Drop` | internal/lib/jrpc/pool.go:21-36 | The loop with swap and truncation, and the reset of the active address |
| `Pools.Pool.Call` | internal/lib/jrpc/pool.go:38-55 | The recursive call on the mutated pool computes the specified state and outcome, and terminates |
| `Naming.ElfHash` | internal/lib/strings/strings.go:53-63 | The loop over 32-bit words computes the hash of the specification |
| `Naming.ElfStepLow` | internal/lib/strings/strings.go:56-60 | The low four bits of a step are those of the byte |
| `Naming.ElfStepFolds` | internal/lib/strings/strings.go:56-60 | The next four bits are folded with the four that overflow, wrap-around included |
| `Naming.ElfStepKeeps` | internal/lib/strings/strings.go:56-60 | The next sixteen bits of a step are those of the sum, overflow or not |
| `Naming.ElfStepClears` | internal/lib/strings/strings.go:56-60 | So are the next four, and the highest four are cleared |
| `Naming.ElfStepAppends` | internal/lib/strings/strings.go:56-60 | Without overflow a step appends the byte in base 16 |
| `Naming.ElfFromLeft` | internal/lib/strings/strings.go:55-61 | The hash takes the bytes from the left, starting from 0 |
| `Naming.ElfDigitsBounded` | internal/lib/strings/strings.go:54-63 | For every string the hash prints as one to nine digits |
| `Naming.SuffixedFits` | internal/lib/strings/strings.go:65-71 | For a bound of 10 or more the name always fits; a shortened one has exactly that length and keeps all but its last ten characters |
| `Naming.SuffixedPanics` | internal/lib/strings/strings.go:66-70 | Shortening slices out of bounds exactly if the string reaches a bound no longer than its hash |
| `Naming.NameKeepsBase` | internal/aws/cluster/iam.go:32-43 | For any base: a role's name contains it exactly if base and hash leave room for the dash in 64 characters, or the base straddles the cut |
| `Naming.WordNameKeepsBase` | internal/aws/cluster/iam.go:32-43 | For a base that ends in a word, as those of all profiles do, exactly if there is that room |
| `Naming.BaseLengths` | internal/aws/cluster/iam.go:32-43 | Up to 54 characters always, from 65 on never |
| `Naming.ShortName` | internal/aws/cluster/iam.go:37-43 | A base of at most 26 characters is followed by a dash and the uuid |
| `Naming.LookupFindsFirst` | internal/aws/iam/role.go:63-84 | Paging does not show: the first match of the whole listing, not found, or failed if a page fails before a match |
| `Naming.CreatedRoleIsFound` | internal/aws/iam/role.go:63-84 | A role created for a base of at most 54 characters is found wherever it is listed, unless an earlier role contains the base too |
| `Naming.LongNamesPileUp` | internal/aws/cluster/iam.go:45-49 | For any base that leaves its hash no room and does not straddle the cut: whatever else is listed, the lookup never returns a role created for it |
| `Naming.OnlyLongNames` | internal/aws/iam/role.go:63-84 | If all roles listed were created so for the base, the lookup finds none, however many there are |
| `Naming.IamProfile.FindRole` | internal/aws/iam/role.go:63-84 | The loop over a page and the recursion over pages compute the lookup |
| `Naming.IamProfile.Fetch` | internal/aws/cluster/iam.go:45-58 | Name and version are taken from the role found, and left alone otherwise |
| `Naming.IamProfile.ResourceName` | internal/aws/cluster/iam.go:37-43 | A new name is legal and, for a base of at most 54 characters, makes the lookup succeed in every listing that holds it |
| `Strings.ContainsMeans` | internal/lib/strings/strings.go:19-26 | The substring search succeeds exactly if the substring occurs at some index |
| `Strings.AnyMeans` | internal/lib/strings/strings.go:19-26 | One of several substrings is found exactly if it is contained |
| `Batching.GetDeltaInstancesIds` | internal/aws/common/aws.go:160-177 | The set and the filter loop give the ids not in the group, in order |
| `Batching.DeltaMeans` | internal/aws/common/aws.go:168-177 | An id is in the delta iff it is requested and not a member |
| `Batching.Group.AttachInstances` | internal/aws/autoscaling/autoscaling.go:82-102 | The index loop sends the specified batches and stops at the first failure; a failed listing sends nothing, and a group that does not exist crashes |
| `Batching.AttachEnds` | internal/aws/autoscaling/autoscaling.go:82-102 | A run crashes exactly if the group does not exist, and succeeds exactly if it is listed and every call succeeds; without a listing nothing is sent |
| `Batching.BatchesCover` | internal/aws/autoscaling/autoscaling.go:90-100 | Batches hold 20 ids, the last of 1 to 20, and join to an initial part of the delta, all of it on success |
| `Batching.RunGains` | internal/aws/autoscaling/autoscaling.go:90-100 | What a run attaches is part of the delta as a multiset, all of it on success, even if failing calls attach some of a batch |
| `Batching.NeverAttachedTwice` | internal/aws/autoscaling/autoscaling.go:82-102 | Over any number of failing runs an id named once is attached at most once, and never if it was a member |
| `Batching.SuccessIsComplete` | internal/aws/autoscaling/autoscaling.go:82-102 | After success every requested id is in the group and the next run sends nothing |
| `Batching.RerunContinues` | internal/aws/autoscaling/autoscaling.go:82-102 | If failing calls attach nothing, a rerun's delta is exactly what the stopped run left over, from a batch boundary on |

## Left out

- `Progress.WorkEnds`: counts steps that carry existing work on; handlers that reply or go parallel without end, and
  cancellations, are not bounded.
- `Connections.NoReplyForgotten`: speaks of states at rest; a handler that never returns keeps its connection from rest.
- `Framing.RoundTrip`: white space around header fields is that of ASCII; `strings.TrimSpace` also strips Unicode
  spaces.
- `FanOut.AllUpdated`: goroutines of other fan-outs appear only as holders of permits.
- `TerminateSafety.HandlerSafe`: assumes that the services answer only about the ids they were asked for, and that the
  fan-out lists each id once and returns one error for each call that fails, which `FanOut.AllUpdated` proves for every
  schedule.
- `Drain.Drained`: between the runs members, hosts and requests may change, but no instance becomes eligible that was
  not; within a run no call fails from the surplus step on.
- `Convergence.Converges`: versions are what Fetch reports; user tags that overwrite the version tag are excluded.
- `LambdaResource.PassConverges`: for an existing function with a version tag; creating one is not modelled.
- `Batching.NeverAttachedTwice`: nothing else changes the group between the runs.
- JSON encoding and decoding of messages and ids, and malformed messages, which the reader reports and skips. The
  decoder's reading of null is modelled.
- The observer hooks of handlers (Request, Response, Done, Read, Wrote, Error) and what they log.
- Contexts: a cancelled context ends a call or makes a write fail; its effect inside handlers is not followed.
- Writes of the connection either reach the peer or do not; partial frames are covered by `HeaderStreams` only.
- `plainStream` and `httpStream`, OAuth tokens and transports.
- The goroutines of `Objects` are methods; their interleaving is that of `Protocol`. Locks are the atomicity of steps.
- Concurrent callers of one `Pool`.
- Resource objects in `Reconcile` are values in a tree, with paths for identity; fields shared between them are not
  modelled. Resources other than the load balancer and the Lambda appear through their versions only.
- Clocks, uuids and random names are parameters.
- `getSubnetsRouteMap` and `DeleteInstances`, whose code does not do what it appears meant to do, and
  `CloudWatch.Update`, which adds a target that Fetch does not read.
- The scale-down, join and protocol packages of `weka/go-cloud-lib` are not part of this model; the scale response is an
  arbitrary record.
- Commands, logging, templates, cleaners, tag conversion and policy documents: they would add only easy members.
