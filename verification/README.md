# Proofs about the event router

A Dafny model of the hard parts of this repository, and proofs about it: the router that settles
messages, the redelivery runs it causes, the component group and the broker subscribers that start
and stop under interleaving, the CloudEvents codec with its SNS to SQS path, and the correlation and
causation of events across hops. `dafny verify dfyconfig.toml` checks everything.

## How it is modelled

**The router.** `Settlement` is the table of what one delivery must do: which stage ends it, what
that end means and the calls the outside sees, in order. Every call into user or broker code answers
from a `Script`: ok, an error (with the marks `errors.Is` and `errors.As` would find), or a panic.
`Router` is the code: the classes `World`, `Message` and `Mux` with the fields of the original, the
retry middleware's loop (`Retry`), the two recoveries and the contained observer. A method that
panics returns the panic's value and its caller unwinds. `Router.Mux.Handle` is proved to do what the
table says, for every script. `Stages`, `Deliveries` and `Ordering` say what that means for one
delivery, independently of the table: what the end of each stage leads to, what is counted, and in
which order things happen;
`Redelivery` for whole runs: the same message delivered with counts 1, 2, 3, … for as long as the
broker gives it back, because it was nacked, left undecided, or its decision was not accepted.

**Lifecycles.** `Lifecycle` and `Subscriptions` are step relations with an invariant over every
interleaving. `Groups.Group` and `Subscribers.Subscriber` are the imperative methods, in which other
goroutines act at every point where the lock is free; each execution is shown to be a run of the
relation. `Registration` is the mux's own wiring.

**Codec and correlation.** `Envelope` has binary `Encode` and `Decode` as loops over unordered
attributes, each proved against a closed form in which no order occurs; binary and structured mode
are sections 3.1 and 3.2 of the CloudEvents HTTP Protocol Binding 1.0.2. `Decoding` says pair by
pair what decoding accepts and makes of it. `Sns` adds the attribute
budget and both ends of the SNS to SQS path. `Correlation` has the extensions of results and
dead-letter copies, `Chains` composes router and codec over chains of any length, `Utf8` has the
dead-letter text (UTF-8 is section 4 of RFC 3629), `EventHttp` the HTTP subscriber around the router.

**What is taken from outside.** Functions of the CloudEvents SDK and of Go's library are fields of
the parameter `Sdk`; the laws assumed of them are `CloudEvents.Lawful` and, for the JSON codec,
`Envelope.StructuredInverse`. Beyond those, the model takes the SDK to behave as follows: `SetID`
trims and refuses a blank id; `SetExtension` stores the lower-case name and refuses names that are
not alphanumeric or, in any letter case, a context attribute; a refused setter call makes `Validate`
fail until the field is set again; `SetData` with bytes sets the base64 flag. A Go string is a
`string` whose characters stand for bytes. Durations are 64-bit integers that wrap around.

## What the proofs found

- `OnMessage` is documented to run exactly once per message (pkg/eventmux/observer.go:20). It runs
  exactly when the message is decided and its delivery callback did not panic:
  `Deliveries.DecidedOnce`, and by the script alone `Deliveries.ToldExactlyOnce`.
- `OnPublish` is documented to run once per publish (pkg/eventmux/observer.go:26). It does not run
  for a publish that panicked: `Deliveries.DecidedOnce`.
- A dead-letter publisher that panics twice leaves the message undecided, and then `MaxRetries`
  bounds nothing: `Redelivery.PanickingCopiesNeverSettle`. The exact condition is in
  `Redelivery.RedeliveredExactly` and `Redelivery.RunsSettleExactly`: past the limit a message comes
  again if and only if the recovery's own dead-letter publish panicked or the decision did not reach
  the broker.
- When Acks get lost, the result goes out again with every delivery: `Redelivery.LostAcksDuplicate`.
  A delivery that got something out is followed by another if and only if its decision did not reach
  the broker (`Redelivery.SuccessGoesOnExactly`), so nothing gets out before a run's last delivery if
  and only if every earlier success had its decision accepted (`Redelivery.FateIsConservedExactly`).
- A group that was started again lets a late report of an earlier cycle through to that cycle's
  `onFatal`, although the documentation says reports are dropped once Stop has begun
  (pkg/kit/lifecycle/group.go:85-87): `Lifecycle.DroppedExactly` has the exact condition,
  `Lifecycle.StragglerFires` what such a report does and `Lifecycle.RestartIsPossible` a run of a group
  with one member that leads there.
- `delayFor` is the capped exponential up to attempt 61; from 62 on it is the maximum, even where the
  exponential is still below it: `Retry.DelayIsCappedExponential`, `Retry.SaturatesEarly`.
- Reserved metadata keys are matched exactly but stored in lower case, so `DeadLetterReason` sets the
  reserved extension, although results are documented never to carry it
  (pkg/event/deadletter.go:18-20): `Correlation.DeadLetterOnResult` has the exact condition.
- `causationid` is documented to be out of the reach of metadata (pkg/event/correlation.go:16-19). It
  is for an event with an id, and `correlationid` is for an event that carries one
  (`Correlation.ReservedHold`); without them a key in another letter case sets the name:
  `Correlation.ReservedExactly` has the exact condition, `Correlation.CausationForged` an input.
- A result's extensions can depend on the order in which the metadata map is iterated
  (`Correlation.CollisionsDependOnOrder`, for any event). They do not if and only if keys that differ
  only in letter case have the same value or their value is overwritten by the parent's id or an
  inherited extension: `Correlation.OrderIrrelevantExactly`.
- `Rescue` is documented to yield an event that validates when an id is given
  (pkg/transport/internal/envelope/envelope.go:163-168). It does exactly when, in addition, the
  transport's content type parses: `Envelope.RescueValidates`, and `Envelope.RescueFails` has an input.
- After a core NATS drain that failed, no Drain is ever issued to that subscription again, because
  attempts are what is counted: `Subscriptions.DrainedOnce`, and `Subscriptions.FailedDrainIsFinal`
  has the run.
- A caller's own error rule without a status code answers 202 for a message that was not acked:
  `EventHttp.StatusIsAccepted` has the exact condition, `EventHttp.UnsetStatusAccepts` an input.
- What a refusal echoes is documented to be safe (pkg/transport/eventhttp/subscriber.go:207-209), yet
  a type or correlation id that is not UTF-8 and was not checked yet makes the client's mistake a
  500: `EventHttp.RefusedExactly` and `EventHttp.RefusedEventAnswered` have the exact condition,
  `EventHttp.RefusalFails` two inputs.

## Model

| member | source | states |
|---|---|---|
| Router.Mux.Handle | pkg/eventmux/mux.go:251-290 | for every script of answers and panics no panic leaves it; outcome, cause, context cancellation and the whole ordered trace are the table's |
| Router.Mux.Route | pkg/eventmux/mux.go:275-289 | undecodable messages never reach a route, unmatched ones are discarded with ErrNoRoute, the rest is handed to the first matching route |
| Router.Mux.Stamp | pkg/eventmux/mux.go:256-261 | an event without correlation id gets its own id as one, unless that is empty |
| Router.Mux.ProcessAndHandle | pkg/eventmux/mux.go:338-389 | decode, preflight, handler and publish each end the delivery as the table says, or unwind with nothing decided |
| Router.Mux.Invoke | pkg/eventmux/failure.go:45-55 | the handler chain's answer is that of its retry loop, with one recorded run per attempt |
| Router.Mux.Deliver | pkg/eventmux/mux.go:360-389 | default order: the result is published before anything is decided, and its failure decides |
| Router.Mux.DeliverAfterAck | pkg/eventmux/mux.go:367-389 | the other order: the Ack first, then the publish, whose error or panic changes no decision |
| Router.Mux.PublishResult | pkg/eventmux/mux.go:393-434 | an event that does not encode is a non-retryable error without a publish; otherwise exactly one publish of the result event |
| Router.Mux.FindMatchingRoute | pkg/eventmux/mux.go:307-314 | the first route whose filter matches, or the panic of the filter before it |
| Router.Mux.Fail | pkg/eventmux/failure.go:145-187 | a retryable failure nacks; a definitive one publishes its copy first, then discards, or nacks when the copy failed retryably and a redelivery is bounded; a panicking publisher leaves it undecided |
| Router.Mux.Contain | pkg/eventmux/mux.go:253-255 | the deferred recovery turns whatever the body left, decided or unwound, into the table's decision and trace |
| Router.Mux.Recover | pkg/eventmux/failure.go:61-82 | settles only a message a panic left undecided, and swallows a second panic |
| Router.Mux.Settle | pkg/eventmux/mux.go:294-305 | the decision, its callback and its notification; a panicking callback skips notification and cancellation |
| Router.Message.Decide | pkg/event/message.go:145-155 | only the first decision is recorded and reaches a callback; a nil Discard means Ack |
| Router.World.Observe | pkg/eventmux/observer.go:58-66 | an observer's panic has no effect |
| Router.World.Publish | pkg/eventmux/observer.go:50-54 | OnPublish follows a publish that returned, and its answer is unchanged |
| Router.World.Handle | pkg/middleware/retry/retry.go:85-102 | the retry loop inside the handler chain, one run per attempt |
| Deliveries.NackedExactly | pkg/eventmux/failure.go:145-187 | a delivery is nacked if and only if its failure is retryable, or its copy failed retryably while a redelivery is bounded |
| Deliveries.NackedWithinLimit | pkg/eventmux/failure.go:98-141 | a nack implies a transport that can nack and a known count not past MaxRetries |
| Deliveries.HandlerFailureTold | pkg/eventmux/failure.go:98-115 | a failing handler, for every answer of the dead-letter publisher: nacked when the error is retryable, the transport can nack and the limit is not passed; otherwise discarded with exactly one of three reasons, nacked for a copy worth another delivery, or left to the recovery by a panicking publisher |
| Deliveries.ReasonTextsDiffer | pkg/event/deadletter.go:8-16 | no two reasons are written alike |
| Deliveries.PendingExactly | pkg/eventmux/failure.go:72-81 | a message stays undecided if and only if the dead-letter publish of the recovery itself panicked |
| Deliveries.DecidedOnce | pkg/eventmux/observer.go:19-33 | at most one callback; OnMessage exactly when decided without a callback panic; OnPublish exactly for the publishes that returned; handler runs are none or those of one retry loop |
| Deliveries.ToldExactlyOnce | pkg/eventmux/observer.go:20-25 | when no callback panics OnMessage runs exactly once, or never if the recovery's own dead-letter publish panicked |
| Deliveries.ToldTheDecision | pkg/eventmux/mux.go:294-305 | every callback and OnMessage of a trace belongs to the recorded outcome and reason |
| Deliveries.OneFate | pkg/eventmux/mux.go:338-389 | one delivery gets at most one result or copy out, and then acks or discards |
| Deliveries.DiscardedFate | pkg/eventmux/failure.go:145-187 | discarded for a reason with a dead-letter publisher: the copy went out, or failed for good, or no bounded redelivery was left |
| Stages.SearchExactly | pkg/eventmux/mux.go:307-314 | a route is found if and only if its filter matches and every one before it skips; no route if and only if all skip; a panic only of the first filter that does not skip |
| Stages.UndecodableTold | pkg/eventmux/mux.go:275-278 | an undecodable envelope is discarded as decode with its error, or nacked for a copy worth a bounded redelivery, without the handler |
| Stages.UnroutedTold | pkg/eventmux/mux.go:318-326 | an unmatched message is discarded with ErrNoRoute, without a reason and without a copy |
| Stages.FilterPanicTold | pkg/eventmux/failure.go:57-82 | a panicking filter is reported as a panic by the recovery, or leaves the message undecided if that panics too |
| Stages.DecodeTold | pkg/eventmux/mux.go:339-343 | a payload that does not decode is discarded as decode whatever its error, the transport and the count; a panicking decoder goes to the recovery |
| Stages.PreflightTold | pkg/eventmux/failure.go:98-104 | a preflight error is discarded as validation, a preflight panic as panic, without the handler |
| Stages.HandlerPanicTold | pkg/eventmux/failure.go:98-101 | a handler panic is discarded as panic, never nacked for itself; its error is no mark but the panic's |
| Stages.HandlerErrorTold | pkg/eventmux/failure.go:98-115 | a handler error is discarded as nonretryable, noredelivery or maxretries, in that order, and nacked otherwise |
| Stages.PublishFailureTold | pkg/eventmux/failure.go:117-125 | in default order a failed publish is nacked, or discarded as publish when it cannot help or is not allowed; its error keeps its own marks; a result that does not encode is never nacked for itself |
| Stages.NothingToPublish | pkg/eventmux/mux.go:360-388 | without a publisher or data the message is acked and nothing is published, in either order |
| Stages.CallbackChosen | pkg/event/message.go:66-76 | a callback is called if and only if it is the one for the outcome; a discard without its own callback is an Ack |
| Stages.CalledBeforeTold | pkg/eventmux/mux.go:294-305 | the transport is told before the observer |
| Stages.NoticesFollowPublishes | pkg/eventmux/observer.go:50-54 | each OnPublish follows its publish at once, with its event and error |
| Ordering.PublishesPrecedeDecision | pkg/eventmux/mux.go:360-388 | copies precede every decision; results precede it in default order and follow the Ack in the other |
| Ordering.AckedIffPublished | pkg/eventmux/mux.go:360-367 | default order: a produced result's message is acked if and only if its publish returned nil, and the whole trace is runs, publish, Ack |
| Ordering.LatePublishDecidesNothing | pkg/eventmux/mux.go:379-388 | with PublishAfterAck neither the publish's error nor its panic changes outcome, reason or cause |
| Ordering.AckedThenPublished | pkg/eventmux/mux.go:367-388 | with PublishAfterAck: the exact trace of a produced result, acked whatever the publish answers |
| Ordering.PublishesAreSentOn | pkg/eventmux/mux.go:393-434 | whatever a delivery publishes is exactly the result event of what the handler returned, or a dead-letter copy, of the stamped message |
| Ordering.PublishesStayInChain | pkg/eventmux/mux.go:393-434 | whatever a delivery publishes keeps the message's correlation id; a result names the message as its cause, a copy is the message itself |
| Ordering.CopyTellsTheDecision | pkg/eventmux/failure.go:145-243 | a copy that went out means the message was discarded, and carries that decision's reason and its sanitized, truncated error |
| Ordering.CopyNamesTheStage | pkg/event/deadletter.go:8-23 | its deadletterreason is the documented word for that reason |
| Redelivery.RunsSettle | pkg/eventmux/failure.go:131-141 | with a limit of M every run ends within M + 1 deliveries, and without a Nack within one, provided the delivery at the limit is decided and its decision accepted |
| Redelivery.RedeliveredExactly | pkg/eventmux/failure.go:131-141 | past the limit a delivery leads to another if and only if the recovery's own dead-letter publish panicked or the broker did not accept the decision |
| Redelivery.RunsSettleExactly | pkg/eventmux/failure.go:72-141 | a run of M + 1 deliveries goes on if and only if its last one was left undecided or lost its decision |
| Redelivery.TrustedSettles | pkg/eventmux/failure.go:72-81 | a broker that accepts every decision and a dead-letter publisher that never panics meet that condition |
| Redelivery.AcceptedExactly | pkg/event/message.go:145-155 | a decision was accepted if and only if the callback its outcome runs, if any, returned nil |
| Redelivery.RetryLayersCompose | pkg/middleware/retry/retry.go:85-132 | over a whole run, under the same condition, the handler runs at most (r + 1) * (M + 1) times, or r + 1 + M with SkipOnRedelivery |
| Redelivery.BoundsAreReached | pkg/middleware/retry/retry.go:36-45 | both bounds and the M + 1 deliveries are attained by one run |
| Redelivery.WorstIsRun | pkg/eventmux/failure.go:138-141 | a run of every length up to M + 1 exists, and of every length when M is 0 |
| Redelivery.WorstEnds | pkg/eventmux/failure.go:111-113 | that run's last delivery is discarded for maxretries with the handler's error |
| Redelivery.PanickingCopiesNeverSettle | pkg/eventmux/failure.go:72-81 | a panicking dead-letter publisher allows runs of every length despite a limit |
| Redelivery.FateIsConserved | pkg/eventmux/mux.go:338-389 | in either publish order a run in which every earlier success had its decision accepted gets at most one result or copy out, in its last delivery only |
| Redelivery.FateIsConservedExactly | pkg/eventmux/mux.go:338-389 | that condition is the exact one for nothing to get out before the last delivery |
| Redelivery.SuccessGoesOnExactly | pkg/eventmux/mux.go:338-389 | a delivery that got something out got one thing out, and is followed by another if and only if its decision did not reach the broker |
| Redelivery.DiscardedRuns | pkg/eventmux/failure.go:145-187 | under the same condition, a run that ends discarded for a reason sent exactly one copy if the publish its decision rests on succeeded; otherwise that publish failed with a non-retryable error or with no bounded redelivery left |
| Redelivery.LostAcksDuplicate | pkg/eventmux/mux.go:360-367 | acceptance by the broker is needed: with lost Acks n deliveries publish n results |
| Retry.Run | pkg/middleware/retry/retry.go:85-102 | the loop ends at its first final attempt, runs at most retries + 1 times, once on a redelivery with SkipOnRedelivery, and waits at least the attempts' delays and at most retries * maxDelay |
| Retry.LoopExactly | pkg/middleware/retry/retry.go:85-132 | which calls are repeated and what the loop returns; an unknown count is not a redelivery |
| Retry.Wait | pkg/middleware/retry/retry.go:106-121 | each wait is between the attempt's delay and maxDelay |
| Retry.Jittered | pkg/middleware/retry/retry.go:147-153 | in 64-bit arithmetic, for every jitter: the sum cut at maxDelay, without overflow |
| Retry.ShiftFits | pkg/middleware/retry/retry.go:137-142 | the guard by right shift holds exactly when the 64-bit left shift is exact and at most maxDelay |
| Retry.DelayIsCappedExponential | pkg/middleware/retry/retry.go:134-142 | delayFor is min(base * 2^attempt, maxDelay) if and only if attempt is below 62 or that power has reached the maximum |
| Retry.SaturatesEarly | pkg/middleware/retry/retry.go:134-142 | at attempt 62, base 1 and the largest maximum the two differ |
| Retry.DelayNeverDecreases | pkg/middleware/retry/retry.go:137-142 | later attempts never wait less |
| Registration.Mux.Handle | pkg/eventmux/mux.go:120-154 | a route is added unless the mux has ever been started or an identical filter would make it unreachable |
| Registration.Mux.Start | pkg/eventmux/mux.go:180-218 | the first Start freezes routes even when it fails; however many restarts, each handler and preflight chain is built once and each result or dead-letter publisher observed once |
| Registration.Mux.Stop | pkg/eventmux/mux.go:222-238 | a failed Stop leaves the mux started |
| Lifecycle.InvHolds | pkg/kit/lifecycle/group.go:90-181 | every interleaving of Start, Stops, failures, reports and Adds keeps the invariant |
| Lifecycle.WhoIsUp | pkg/kit/lifecycle/group.go:117-181 | Starts minus Stops of a member is 1 exactly for those below the accounted level and for the just-started one, else 0 |
| Lifecycle.StartReturns | pkg/kit/lifecycle/group.go:83-154 | a Start that returns an error leaves nothing up; nil means every member is up and accounted for |
| Lifecycle.StopsInReverse | pkg/kit/lifecycle/group.go:168-181 | a member is stopped while everything below it is up and nothing accounted above it is |
| Lifecycle.StopStops | pkg/kit/lifecycle/group.go:159-181 | after a Stop only the member whose Start was under way can be up |
| Lifecycle.AtMostOneLate | pkg/kit/lifecycle/group.go:121-126 | between a Stop and the next Start of the group at most one member's Start completes, none is started after it, and it is down when Start has returned |
| Lifecycle.OnFatalOnce | pkg/kit/lifecycle/group.go:101-115 | onFatal at most once per cycle, and in the latest cycle never for a report checked after its Stop began |
| Lifecycle.LiveFailureFires | pkg/kit/lifecycle/group.go:101-115 | from every running state the first report of the cycle reaches onFatal |
| Lifecycle.DroppedExactly | pkg/kit/lifecycle/group.go:102-108 | a report checked after its cycle began to end is dropped if and only if the group has not been started again or is being stopped |
| Lifecycle.StragglerFires | pkg/kit/lifecycle/group.go:96-108 | from every restarted state such a report, from a cycle that had a component and no report yet, calls the finished cycle's onFatal |
| Lifecycle.RestartIsPossible | pkg/kit/lifecycle/group.go:90-181 | such a state is reached by a group of one member that is started, stopped and started again |
| Groups.Group.Start | pkg/kit/lifecycle/group.go:90-132 | with other goroutines acting at every unlocked point: an error leaves nothing up, nil everything, and the execution is a run of the protocol |
| Groups.Group.AbortStart | pkg/kit/lifecycle/group.go:136-142 | what was started is stopped and the cycle ends |
| Groups.Group.StopUnaccounted | pkg/kit/lifecycle/group.go:146-154 | the member a Stop overtook is stopped by Start itself |
| Groups.Group.StopLocked | pkg/kit/lifecycle/group.go:168-181 | every accounted member gets exactly one Stop, no other member any |
| Groups.Group.Stop | pkg/kit/lifecycle/group.go:159-166 | nothing without a Start; afterwards only a just-started member is up |
| Groups.Group.Add | pkg/kit/lifecycle/group.go:68-81 | a new member, unless the group is started |
| Subscriptions.InvHolds | pkg/transport/nats/jetstream/subscriber.go:97-212 | every interleaving of Starts, Stops, timeouts, worker exits and closes keeps the invariant, for all four brokers |
| Subscriptions.OneSetOfWorkers | pkg/transport/aws/sqs/subscriber.go:138-190 | every run but the current one has ended with no worker left, and a Stop that returned nil confirmed it |
| Subscriptions.StopMeansEnded | pkg/transport/gcp/pubsub/subscriber.go:137-157 | a Stop that returned nil after seeing a run means that run is over; any other Stop that returned has signalled it, or for core has noted that a drain was begun, even if its Drain then failed |
| Subscriptions.OnlyItsOwnRun | pkg/transport/nats/core/subscriber.go:101-130 | a run is forgotten only by a Stop that saw this very run end; a late Stop clears nothing newer |
| Subscriptions.DrainedOnce | pkg/transport/nats/core/subscriber.go:97-113 | Drain is attempted at most once per run, on JetStream exactly when a Stop signalled it, elsewhere never |
| Subscriptions.FailedDrainIsFinal | pkg/transport/nats/core/subscriber.go:101-113 | a run in which the first Stop's Drain fails and the second Stop waits without draining |
| Subscriptions.FailureReported | pkg/transport/nats/jetstream/subscriber.go:163-171 | onError only for a run that ended by itself before any Stop signalled it, on Pub/Sub only with an error, on SQS and core never; once its watcher looked, always, unless a Stop signalled it meanwhile |
| Subscriptions.WatcherReports | pkg/transport/nats/jetstream/subscriber.go:164-171 | the watcher of an ended run calls onError if and only if the run failed by itself and no Stop signalled it |
| Subscriptions.OwnFailureReported | pkg/transport/gcp/pubsub/subscriber.go:105-131 | a consumer that closes by itself and a Receive that fails are reported |
| Subscribers.Subscriber.Start | pkg/transport/aws/sqs/subscriber.go:138-164 | refused while a run is current, unchanged when setup fails, otherwise one new run |
| Subscribers.Subscriber.Stop | pkg/transport/nats/core/subscriber.go:101-130 | with anything happening between its sections: the run it saw is signalled, and nil means it ended and is no longer current |
| Subscribers.Subscriber.BeginStop | pkg/transport/nats/jetstream/subscriber.go:185-197 | the first section of Stop for each broker; only the first Stop of a run drains |
| Subscribers.Subscriber.SignalRun | pkg/transport/nats/core/subscriber.go:109-113 | the unlocked drain or cancellation; only a failing core Drain ends the Stop here |
| Subscribers.Subscriber.Wait | pkg/transport/nats/core/subscriber.go:114-122 | the wait ends with the run's end or the caller's deadline |
| Subscribers.Subscriber.ClearRun | pkg/transport/nats/jetstream/subscriber.go:205-209 | the fields are cleared if and only if they still hold the run this Stop saw |
| Envelope.Encode | pkg/transport/internal/envelope/envelope.go:49-73 | for every order of the extensions: exactly the wanted attributes, or an error if and only if some extension has no string form |
| Envelope.ReadAttributes | pkg/transport/internal/envelope/envelope.go:128-149 | the loop, which stops at its first error, equals the recursive fold |
| Envelope.Decode | pkg/transport/internal/envelope/envelope.go:114-161 | equals an order-free closed form: duplicate names, refused values and invalid events fail, anything else is assembled from the named attributes and the defaults |
| Envelope.FoldedIsAssembled | pkg/transport/internal/envelope/envelope.go:128-149 | the attribute loop equals the closed form, errors included |
| Envelope.DecodeUnordered | pkg/transport/internal/envelope/envelope.go:114-161 | two permutations of the same pairs decode to the same event or both fail |
| Decoding.CaseVariantsFail | pkg/transport/internal/envelope/envelope.go:134-145 | two prefixed keys equal up to letter case always fail |
| Decoding.SameNameFails | pkg/transport/internal/envelope/envelope.go:134-145 | two pairs for one attribute always fail |
| Decoding.DecodedIsValid | pkg/transport/internal/envelope/envelope.go:114-161 | in either mode only events that validate are decoded |
| Decoding.StructuredExactly | pkg/transport/internal/envelope/envelope.go:114-126 | structured mode decodes the body if and only if it parses to a valid event, whatever the attributes say |
| Decoding.PairDecoded | pkg/transport/internal/envelope/envelope.go:185-210 | the decoded event holds the value of every prefixed pair, none of which was refused |
| Decoding.AbsentDecoded | pkg/transport/internal/envelope/envelope.go:128-133 | what no pair carries is the default for id, type and source and absent otherwise |
| Decoding.PayloadDecoded | pkg/transport/internal/envelope/envelope.go:151-157 | the payload is kept, under the transport's content type or as JSON without one |
| Decoding.RefusedPairFails | pkg/transport/internal/envelope/envelope.go:146-149 | one refused pair fails, wherever it is |
| Decoding.DecodesOtherwise | pkg/transport/internal/envelope/envelope.go:114-161 | binary mode fails for no other reason than a repeated attribute, a refused value or an invalid event |
| Decoding.BareIsRescue | pkg/transport/internal/envelope/envelope.go:163-181 | without attributes decoding gives exactly the rescue event, if that validates |
| Envelope.KeyRoundTrip | pkg/transport/internal/envelope/envelope.go:49-73 | the key of an attribute, in lower case, names that attribute again |
| Envelope.RoundTrip | pkg/transport/internal/envelope/envelope.go:49-161 | decoding what Encode produced, in any order, with any unprefixed attributes and any defaults, gives the event's canonical form |
| Envelope.CanonicalIsFinal | pkg/transport/internal/envelope/envelope.go:76-81 | the canonical form is well-formed and a second round trip is the identity |
| Envelope.StructuredRoundTrip | pkg/transport/internal/envelope/envelope.go:90-100 | given a JSON codec that inverts itself up to insignificant whitespace of inline data, structured mode restores the event, base64 data byte by byte; the payload is inline if and only if it was not base64, or is valid JSON of a JSON media type |
| Envelope.RescueValidates | pkg/transport/internal/envelope/envelope.go:163-181 | the rescue event keeps the data and validates if and only if an id is set and the content type parses |
| Envelope.RescueFails | pkg/transport/internal/envelope/envelope.go:163-181 | an input with an id whose rescue event does not validate |
| Sns.Marshal | pkg/transport/aws/sns/marshaler.go:43-72 | binary mode while the budget holds, otherwise structured; never more than 9 attributes; the exact error condition |
| Sns.StringValues | pkg/transport/aws/sns/marshaler.go:63-66 | every pair becomes one String attribute |
| Sns.Publish | pkg/transport/aws/sns/publisher.go:134-153 | at most 10 attributes with the trace header: ErrTooManyAttributes is unreachable with the default marshaler |
| Sns.Unmarshal | pkg/transport/aws/sqs/unmarshaler.go:23-47 | decodes the String attributes in the given order with the message id as default |
| Sns.BinaryOnWire | pkg/transport/aws/sqs/unmarshaler.go:36-47 | in every iteration order, what SQS yields is what SNS was given, plus unprefixed keys |
| Sns.PublishRoundTrip | pkg/transport/aws/sqs/unmarshaler.go:20-47 | from Publish to the SQS subscriber the event is restored in whichever mode the budget chose, in binary mode exactly as its canonical form |
| Sns.ModeByBudget | pkg/transport/aws/sns/marshaler.go:28-53 | binary mode if and only if the attributes, the Content-Type and a trace header fit the limit of 10 |
| Sns.RefusedExactly | pkg/transport/aws/sns/publisher.go:134-153 | whatever marshaler ran, a message is refused if and only if it has more than 10 attributes with the trace header |
| Sns.Filterable | pkg/transport/aws/sns/marshaler.go:54-63 | in either mode id, type and source are message attributes |
| Sns.TraceTravels | pkg/transport/aws/sns/publisher.go:134-153 | the trace goes out as the native header and arrives as the extension, beside all other string extensions |
| Sns.ForeignMessage | pkg/transport/aws/sqs/unmarshaler.go:18-32 | a message without CloudEvents attributes takes its id from SQS and the defaults for type and source |
| Correlation.Validate | pkg/event/correlation.go:28-43 | valid if and only if 1 to 128 bytes in 0x21..0x7E; otherwise the first offending byte |
| Correlation.StampedExactly | pkg/eventmux/mux.go:256-261 | the stamp adds the id as correlation id where there is none, changes nothing else, and is idempotent |
| Correlation.DeadLetterError | pkg/eventmux/failure.go:236-267 | the error on a copy is clean text of at most 256 bytes, cut only at a rune boundary |
| Correlation.BuildExtensions | pkg/eventmux/mux.go:406-430 | the two loops, in any order of the extensions, equal the specification |
| Correlation.ReservedHold | pkg/eventmux/mux.go:30 | neither metadata, in any letter case, nor incoming extensions change the causation id of an event with an id or the correlation id of an event that has one |
| Correlation.ReservedExactly | pkg/event/correlation.go:16-19 | a result has a causation id if and only if the event has an id or the metadata a case variant of the name, and a correlation id if and only if the event has one or the metadata a case variant |
| Correlation.CausationForged | pkg/event/correlation.go:16-19 | for an event without an id a mixed-case key sets the causation id |
| Correlation.DeadLetterOnResult | pkg/eventmux/mux.go:406-427 | a result has a dead-letter extension if and only if the metadata has a case variant of its name |
| Correlation.LowerCaseKeepsClean | pkg/eventmux/mux.go:406-427 | metadata in lower case never marks a result |
| Correlation.CaseVariantMarks | pkg/eventmux/mux.go:30 | a mixed-case key does |
| Correlation.ResultIsClosedForm | pkg/eventmux/mux.go:393-434 | for every iteration order of metadata whose keys agree, the result's extensions are one closed form |
| Correlation.OrderIrrelevantExactly | pkg/eventmux/mux.go:406-430 | every iteration order gives the same result if and only if keys that name the same extension have the same value, or it is overwritten |
| Correlation.LowerCaseClosedForm | pkg/eventmux/mux.go:393-434 | what that form holds for each name: parent id, then unreserved metadata, then inherited extensions |
| Correlation.CollisionsDependOnOrder | pkg/eventmux/mux.go:416-418 | for every event, two keys that differ in letter case and in value give different results in the two orders |
| Chains.DecodedWellFormed | pkg/transport/internal/envelope/envelope.go:114-161 | whatever binary mode accepts has the form the round trip asks for |
| Chains.ResultIsResult | pkg/eventmux/mux.go:393-402 | a result has its own id and time, the source of its event, its type marked as a result and the handler's data as JSON |
| Chains.HopCarries | pkg/eventmux/failure.go:191-243 | one hop through router and codec, of a result or of a dead-letter copy, carries the chain's id; a result arrives with its own id and time, the handler's data and its parent's source and marked type, and names its parent; a copy is the event itself with reason and error |
| Chains.ChainCarries | pkg/eventmux/mux.go:251-261 | over a chain of any length, of results and dead-letter copies in any order, every event carries the root's correlation id and is what its hop promises: a result has its parent's id as causation id, a copy arrives as the event itself |
| Chains.ChainLeavesDeadLetters | pkg/eventmux/failure.go:238-243 | a dead-letter copy sent back in arrives marked, and the result of handling it does not, keeps the chain's id and names the original event as its cause |
| Chains.ResultsAreClean | pkg/eventmux/mux.go:419-427 | no result in such a chain is marked, when its metadata is in lower case |
| Chains.CopyWellFormed | pkg/eventmux/failure.go:238-243 | a dead-letter copy meets the round trip's preconditions when its event does |
| Chains.DeliveryIsHop | pkg/eventmux/mux.go:251-290 | every publish of a delivery, under any script, is such a hop |
| Chains.DeliveryChainCarries | pkg/eventmux/mux.go:251-290 | over deliveries of any routers, each of what the one before published, every event carries the root's correlation id and is a result that names its parent or a copy of it |
| Utf8.Truncate | pkg/eventmux/failure.go:258-267 | the loop finds the greatest rune start at or below the limit |
| Utf8.SanitizeCleans | pkg/eventmux/failure.go:248-255 | valid UTF-8, no refused control byte, idempotent |
| Utf8.SanitizeKeepsExactly | pkg/eventmux/failure.go:248-255 | unchanged if and only if already valid and clean |
| Utf8.SanitizeFilters | pkg/eventmux/failure.go:248-255 | of the repaired text exactly the unprintable bytes are dropped |
| Utf8.ValidIsKept | pkg/eventmux/failure.go:248-255 | valid text in front of anything is kept |
| Utf8.RunIsReplaced | pkg/eventmux/failure.go:248-255 | a run of bytes that belong to no rune becomes one replacement, whatever its length |
| Utf8.EncodedIsRune | pkg/eventmux/failure.go:257-267 | the encoding of every Unicode scalar value is one rune |
| Utf8.RuneIsEncoded | pkg/eventmux/failure.go:257-267 | every rune is the encoding of a Unicode scalar value: no surrogate, no overlong form, nothing above U+10FFFF |
| Utf8.DeadLetterText | pkg/eventmux/failure.go:238-267 | for every text: a valid, clean prefix of at most the limit that loses at most 3 bytes to the rune boundary |
| EventHttp.AcceptedExactly | pkg/transport/eventhttp/subscriber.go:171-205 | a request is handed on if and only if its ids and type check out; only a missing correlation id is filled in |
| EventHttp.RefusedWhy | pkg/transport/eventhttp/subscriber.go:171-249 | 413 if and only if the body is over the limit, 415 if and only if a plain request is not JSON, 400 otherwise, each with its code |
| EventHttp.PlainAccepted | pkg/transport/eventhttp/subscriber.go:232-263 | the event of a plain request, field by field |
| EventHttp.RefusedSafely | pkg/transport/eventhttp/subscriber.go:190-219 | which check refuses with which code and what of the event is echoed: never the id or correlation id that was refused |
| EventHttp.RefusedExactly | pkg/transport/eventhttp/response.go:26-42 | a refusal is answered with its own status if and only if the echoed type and correlation id and the pattern are valid UTF-8, otherwise with 500 |
| EventHttp.RefusedEventAnswered | pkg/transport/eventhttp/subscriber.go:190-219 | the same for a parsed event, by its raw id, type and correlation id |
| EventHttp.RefusalFails | pkg/transport/eventhttp/subscriber.go:207-219 | two requests refused with 400 and answered 500 |
| EventHttp.StatusIsAccepted | pkg/transport/eventhttp/error.go:42-69 | 202 if and only if acked, or one of the caller's rules has status 202 or none |
| EventHttp.DefaultsAnswer | pkg/transport/eventhttp/error.go:39-69 | status, code and detail of every failure under the default rules; a 500 shows no detail of the error |
| EventHttp.DefaultStatus | pkg/transport/eventhttp/response.go:26-42 | exactly that status, unless the pattern or a client error's own detail is not valid UTF-8: then 500 |
| EventHttp.UndecidedAnswer | pkg/transport/eventhttp/subscriber.go:148-152 | an undecided message is a 500 |
| EventHttp.UnroutedAnswer | pkg/transport/eventhttp/error.go:46-47 | an accepted request that no route matches is a 400 ROUTE-NOT-FOUND |
| EventHttp.UndecodedAnswer | pkg/transport/eventhttp/error.go:48-49 | one whose payload does not decode is a 400, INVALID-PAYLOAD unless the error is the client's own |
| EventHttp.RetryIsTheCallers | pkg/transport/eventhttp/subscriber.go:139-141 | a retryable handler error over HTTP is nacked, never dead-lettered |
| EventHttp.UnsetStatusAccepts | pkg/transport/eventhttp/response.go:26-30 | for any usable pattern and type, a caller's rule without a status answers 202 for a nacked message |
| EventHttp.AcceptedIffAcked | pkg/transport/eventhttp/subscriber.go:124-161 | with the default rules an accepted request is answered 202 if and only if the router acked |
| EventHttp.CorrelatedEndToEnd | pkg/transport/eventhttp/subscriber.go:167-205 | the same valid correlation id in the response, the handled message, every result and every dead-letter copy |
| EventHttp.Subscriber.Serve | pkg/transport/eventhttp/subscriber.go:82-161 | 503 unless started; otherwise the refusal, or the router's run on the request's event and the answer to its outcome |
| EventHttp.Subscriber.FindRule | pkg/transport/eventhttp/error.go:60-69 | the first matching rule, the caller's before the defaults |
| EventHttp.Subscriber.Start | pkg/transport/eventhttp/subscriber.go:96-102 | a second Start is refused and changes nothing |

## Left out

- Router.Mux.Handle: does not model filters, handlers or observers that settle the message or change its event themselves, nor errors whose own Error method panics.
- Router.World.Observe: does not say how often the logger is called; logging, durations, stack traces and log attributes are left out throughout, and the logger is taken not to panic.
- Redelivery.RunsSettle: assumes counts that rise by one from 1.
- Retry.Run: wall-clock time is left out; whether the context ends during a wait is an arbitrary choice, and jitter an arbitrary non-negative integer.
- Lifecycle.InvHolds: assumes that a Start begins only after the previous Start has returned, because the code tells runs apart by one flag; a component's Start or Stop that panics is left out.
- Groups.Group.StopLocked: component errors of a Stop and their joining are left out, they change no state; so are the signal handling and error joining of Group.Run.
- Subscriptions.InvHolds: broker calls that set up a consumer are one answer, succeeded or failed; receive batches, sleeps and acknowledgement deadlines inside a run are left out.
- Subscribers.Subscriber.Stop: one class stands for the four brokers, whose fields differ only in how the current run is held; aliasing of their handles is not modelled.
- Registration.Mux.Handle: middlewares are not modelled beyond the chain being built once; the generic payload type is left out.
- Envelope.Decode: attributes that declare specversion 0.3 are outside its claims, and so is the order in which ErrDecode details are joined.
- Envelope.DecodeUnordered: the same restriction to specversion 1.0 holds here and for Sns.Unmarshal.
- Sns.Unmarshal: attributes that declare specversion 0.3 are outside its claim.
- Envelope.StructuredRoundTrip: the JSON codec is a pair of functions with an inverse law; its bytes are not modelled.
- Sns.Publish: topic resolution and the AWS calls are left out.
- Chains.ChainCarries: a copy of an event whose own content type is application/cloudevents+json is outside its claim, because in binary mode that value selects the structured decoder.
- EventHttp.Subscriber.Serve: the number of bytes in the detail of a 413 is left out; the SDK's parsing of a request, reading its body and media types are inputs; the HTTP publisher and its tokens are left out.
- JMESPath filters, schema validation, metadata storage, error skipping and health checks are correct by inspection and would add only easy members.
