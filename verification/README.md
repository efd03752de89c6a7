# Verified models of Bettergram's stateful core

These Dafny 4.11 modules model the parts of the Bettergram desktop client that are state machines or
algorithms with invariants of their own, and prove what the rest of the client relies on. Code that
changes fields step by step is a class whose methods are proved against functions on a small state
value; what holds in every run is proved about those functions. Handlers, callbacks and other code
that the original calls back into is represented by scripts: finite descriptions of what such code
does before it returns, over all of which the theorems range.

| file | what it is about |
|---|---|
| `UpdateSequence.dfy`, `UpdateFates.dfy` | the seq reorder buffer of the update stream, and what becomes of each container |
| `DifferenceScheduler.dfy`, `DifferenceSlots.dfy` | deadlines, timers and back-off of getDifference and getChannelDifference, as a whole and for each slot |
| `ViewsBatcher.dfy` | the batches in which view counts are sent |
| `Sha1.dfy` | the SHA-1 of the update packer, the standard it has to meet, and numbers as words |
| `ObserverList.dfy` | the linked list of subscriptions that handlers change while it is enumerated |
| `ObserverRuntime.dfy` | the event queues of all observables and the pending and active registries |
| `RuntimeComposer.dfy` | the layout of a block of components for a mask |
| `ComposerLifecycle.dfy` | construction, moves and destruction of components |
| `DialogRequests.dfy` | the callbacks that wait for dialog entries |
| `WebPages.dfy` | the requests for pending web pages, with their placeholder ids |
| `StripComments.dfy` | taking comments out of a JSON-like text |
| `SettingsStream.dfy`, `Settings.dfy`, `SettingsFields.dfy` | the stream of the session settings, the three exclusive sections, and every field after any stream |
| `FlatContainers.dfy` | flat_map, flat_set, and the order in which feedMsgs adds messages |
| `FlatMultis.dfy` | the sorted containers that hold several elements of one rank |
| `BinaryGuard.dfy` | two guards that share an atomic cell across threads |
| `LastUsedCache.dfy` | the cache ordered by last use |
| `PeerUpdates.dfy` | the delayed peer updates in two places, and their flush |
| `OrderedKeys.dfy`, `OrderedNames.dfy` | the least key of an ordered container, for numbers and for strings |
| `Options.dfy`, `Subsequences.dfy` | the optional value and the lists within lists that several of the above use |

`dafny verify dfyconfig.toml` checks everything.

## What turned out false

Some properties that one would expect do not hold of the code. Each has a lemma with a run or an
input that shows it, and the exact condition where there is one.

- Views of a peer whose request was answered with a list of another length are never sent again
  (`ViewsBatcher.MismatchLosesViews`, `StalePeerIsNeverSent`, `WaitingIsCoveredUnlessMismatched`).
- A failed channel difference is scheduled for a retry that never sends anything
  (`DifferenceScheduler.FailedChannelIsNeverRetried`).
- After an answer without a state, which differenceTooLong is, the main stream counts as requesting
  for ever and never asks again (`DifferenceScheduler.TooLongStopsTheStream`, `StopsExactlyWhen`,
  `StoppedStaysStopped`).
- A reorder buffer can be filled with neither a timer nor a request: it takes a final answer that
  does not move the seq, over a buffer that a force-logout container filled during the request
  (`UpdateSequence.ForceLogoutLosesTimer`; the exact condition is `StepStaysCoveredExactlyWhen`).
- A web page that is due when its message cannot be found waits with no timer until it is requested
  again, unless the timer runs for another page (`WebPages.MissedAre`).
- Settings with a corner that is none, with the submit ways Both or None, or with a ratio that is no
  whole number of millionths in 0..1, do not come back from the stream
  (`Settings.RoundTripExactlyWhen`, `RatiosLost`).
- hashSha1 does not pad as SHA-1 does for messages of 2^29 bytes and more, since the number of bits
  takes one word only (`Packer.PadsAsStandard`); nothing is said about the digests of those.

## Model

| member | source | states |
|---|---|---|
| `UpdateSequence.MainWidget.FeedUpdates` | Telegram/SourceFiles/mainwidget.cpp:3753-3793 | With the mutual recursion, which ends because the buffer shrinks, the new state is the reference state `Feed`; what that is for each container say `UpdateFates.FeedHas` and `ReceivedHasFate` |
| `UpdateSequence.MainWidget.UpdSetState` | Telegram/SourceFiles/mainwidget.cpp:2873-2904 | Setting the seq drops the stale buffered containers and applies those whose turn has come, up to the state `SetSeq`; the gap timer is started only when the first buffered key is beyond the next seq |
| `UpdateSequence.MainWidget.UpdateReceived` | Telegram/SourceFiles/mainwidget.cpp:3722-3751 | While a difference is requested a container is ignored, unless it has a force-logout notification |
| `UpdateSequence.MainWidget.NewSessionCreated` | Telegram/SourceFiles/mainwidget.cpp:3727-3735 | A new session sets the seq to zero and asks for the difference |
| `UpdateSequence.MainWidget.GetDifference` | Telegram/SourceFiles/mainwidget.cpp:3193-3217 | A request clears the buffer and its timer, unless one is in flight |
| `UpdateSequence.MainWidget.GotState` | Telegram/SourceFiles/mainwidget.cpp:2995-3043 | The seq of a state is taken, and only then the widget stops requesting; after a slice it asks again |
| `UpdateSequence.EveryRunIsSafe` | Telegram/SourceFiles/mainwidget.cpp:2873-2904 | In every run of well-formed containers, answers, session resets and timer events, each applied container that carries a seq started right after the seq reached before it, and after every event all buffered keys exceed the next seq |
| `UpdateSequence.StepArmsTimerExactlyWhen` | Telegram/SourceFiles/mainwidget.cpp:3743-3746 | The stricter invariant that the timer runs exactly while something is buffered, with nothing buffered during a request, is kept by an event if and only if it is not a force-logout container that is fed during a request and has to wait |
| `UpdateSequence.StepStaysCoveredExactlyWhen` | Telegram/SourceFiles/mainwidget.cpp:2883-2903 | In any safe state whose buffer, if filled, has a timer or a request, exactly one kind of event leaves it with neither: a final answer without a seq, or with the seq that is there already, over a buffer without a timer |
| `UpdateSequence.EveryRunStaysCovered` | Telegram/SourceFiles/mainwidget.cpp:2883-2903 | In every run without such an answer a filled buffer has a timer or a request |
| `UpdateSequence.EveryRunArmsTimer` | Telegram/SourceFiles/mainwidget.cpp:2884-2903 | Without force-logout containers the gap timer runs exactly while something is buffered |
| `UpdateSequence.ForceLogoutLosesTimer` | Telegram/SourceFiles/mainwidget.cpp:3743-3746 | A run with a force-logout container fed during a request that ends with something buffered, no timer and no request |
| `UpdateSequence.AppliedIsPrefix` | Telegram/SourceFiles/mainwidget.cpp:3753-3793 | Of tiles that arrive in any order and with repeats, those applied are the longest run from the front that has fully arrived |
| `UpdateSequence.DeliveryOrderIsInvisible` | Telegram/SourceFiles/mainwidget.cpp:3753-3793 | Two deliveries of the same set of tiles end in the same seq, buffer and timer with the same containers applied in the same order |
| `UpdateSequence.CompleteDelivery` | Telegram/SourceFiles/mainwidget.cpp:3753-3793 | Once every tile has arrived each was applied exactly once in ascending order, the seq is the end of the last one and the buffer is empty |
| `UpdateFates.FeedHas` | Telegram/SourceFiles/mainwidget.cpp:3753-3793 | A container without a seq or with the next one is applied at once; an earlier one changes nothing; a later one is in the buffer under its first seq with the timer running; after an application the buffered containers follow as `DrainWalks` says, unless a gap asked for the difference |
| `UpdateFates.DrainWalks` | Telegram/SourceFiles/mainwidget.cpp:2880-2903 | The buffered containers that are applied are a chain of the ones in turn, taken from the buffer, up to the first that is not there or runs into a gap; exactly those beyond the next seq stay, and the timer runs exactly if there are any |
| `UpdateFates.StepHasOutcome` | Telegram/SourceFiles/mainwidget.cpp:2995-3043 | The whole state after every event, stated on the two states: containers, answers, slices, session resets, timers and requests |
| `UpdateFates.ReceivedHasFate` | Telegram/SourceFiles/mainwidget.cpp:3753-3793 | A container that is fed is applied as the next one, or dropped as an earlier one with nothing changed, or buffered with nothing else changed |
| `UpdateFates.BufferedStaysOrLeaves` | Telegram/SourceFiles/mainwidget.cpp:2883-2903 | A buffered container stays, unless it is applied, replaced under its key, overtaken by the seq, or cleared by a request that the event starts |
| `UpdateFates.EveryContainerHasFate` | Telegram/SourceFiles/mainwidget.cpp:3722-3793 | Over every run each container that was received was ignored during a request, or was an earlier one, or has been applied, or is buffered, or left the buffer in one of the three other ways at a moment that is named |
| `UpdateFates.OnlyReceivedIsApplied` | Telegram/SourceFiles/mainwidget.cpp:3722-3793 | Whatever is applied or buffered in a run was received, or buffered before |
| `DifferenceScheduler.MainWidget.GetDifference` | Telegram/SourceFiles/mainwidget.cpp:3193-3217 | The request clears the main deadline by pts in any case, and the deadline after a failure only if it is sent |
| `DifferenceScheduler.MainWidget.GetChannelDifference` | Telegram/SourceFiles/mainwidget.cpp:3219-3250 | Which deadlines of the channel are removed, and when a request is sent, by what asked for it |
| `DifferenceScheduler.MainWidget.GetDifferenceByPts` | Telegram/SourceFiles/mainwidget.cpp:3141-3164 | The walk over the table, erasing while it iterates and with requests nested in it, has the outcome of requesting all expired channels at once, and the timer gets the least remaining wait |
| `DifferenceScheduler.MainWidget.GetDifferenceAfterFail` | Telegram/SourceFiles/mainwidget.cpp:3166-3191 | The same for the table of deadlines after failures |
| `DifferenceScheduler.MainWidget.GetDifferenceTimeChanged` | Telegram/SourceFiles/mainwidget.cpp:3045-3084 | The table and the flag are those of the reference `Changed`; `DifferenceSlots.ChangedSlots` says what they are |
| `DifferenceScheduler.MainWidget.PtsWaiterStartTimerFor` | Telegram/SourceFiles/mainwidget.cpp:3086-3090 | The table changes and is recomputed only if the deadline changed |
| `DifferenceScheduler.MainWidget.FailDifferenceStartTimerFor` | Telegram/SourceFiles/mainwidget.cpp:3092-3106 | The back-off in use is scheduled and then doubled unless it is 64 |
| `DifferenceScheduler.VisitsAddUp` | Telegram/SourceFiles/mainwidget.cpp:3150-3158 | Visiting the expired channels one after the other, each visit erasing its own entry, comes to one request for all of them |
| `DifferenceScheduler.EveryRunCovers` | Telegram/SourceFiles/mainwidget.cpp:3141-3191 | In every state that can be reached from the start each pending deadline of either table, of the main stream or of a channel, is covered by the active timer of that table, due no later |
| `DifferenceScheduler.RecomputeServes` | Telegram/SourceFiles/mainwidget.cpp:3141-3191 | A recompute leaves only deadlines in the future, arms the timer for exactly the earliest of them or cancels it, and has a request in flight for every channel that was due and could be requested |
| `DifferenceScheduler.EveryRunMainOk` | Telegram/SourceFiles/mainwidget.cpp:3092-3217 | At most one main request is in flight, never together with a scheduled retry; a stream that is marked as requesting has a request or a retry coming if and only if no answer without a state has come, and after such an answer it has neither and is marked as requesting; every back-off is a power of two up to 64 |
| `DifferenceScheduler.StopsExactlyWhen` | Telegram/SourceFiles/mainwidget.cpp:3038-3041 | The one event that stops the main stream is such an answer: differenceTooLong, or a first state that failed |
| `DifferenceScheduler.StoppedStaysStopped` | Telegram/SourceFiles/mainwidget.cpp:3193-3198 | From then on no run of any events puts another main request in flight or schedules one: the guard of getDifference finds the stream requesting |
| `DifferenceScheduler.TooLongStopsTheStream` | Telegram/SourceFiles/mainwidget.cpp:3038-3041 | A run in which the stream is asked in vain after such an answer |
| `DifferenceScheduler.EveryRunChannels` | Telegram/SourceFiles/mainwidget.cpp:3219-3250 | A channel has at most one request in flight, and only while it is marked as requesting; one that is marked with nothing in flight stays so |
| `DifferenceScheduler.FailedChannelIsNeverRetried` | Telegram/SourceFiles/mainwidget.cpp:3226 | After the difference of a channel failed no run sends another request for it: the retry finds the channel marked as requesting and returns |
| `DifferenceSlots.ChangedSlots` | Telegram/SourceFiles/mainwidget.cpp:3045-3084 | For a positive wait the slot holds the lesser of what it held and the new deadline, otherwise none; no other slot changes, and the flag is true exactly if the table differs |
| `DifferenceSlots.StartTimerInTime` | Telegram/SourceFiles/mainwidget.cpp:3086-3090 | After a request for a timer the slot has a deadline no later than asked for, and the timer is due by then |
| `DifferenceSlots.StartFailTimerInTime` | Telegram/SourceFiles/mainwidget.cpp:3092-3106 | After a failure the retry is no later than the back-off in use asks for, and the timer is due by then |
| `DifferenceSlots.FailuresDouble` | Telegram/SourceFiles/mainwidget.cpp:3105 | After n failures in a row the back-off is 2^n, and 64 from the sixth on |
| `DifferenceSlots.AskMainIs` | Telegram/SourceFiles/mainwidget.cpp:3193-3217 | One more request exactly if the stream is not requesting; which deadlines go, and that nothing else changes |
| `DifferenceSlots.AskChannelIs` | Telegram/SourceFiles/mainwidget.cpp:3219-3250 | One more request exactly if the channel has a pts and is not requesting, whatever asked for it; which of its deadlines go, and that nothing else changes |
| `DifferenceSlots.AskedEventsAre` | Telegram/SourceFiles/mainwidget.cpp:3086-3250 | What other code gets that asks for a difference or for a timer: the request unless one is under way, the deadline, and the timer |
| `DifferenceSlots.InitedMayAsk` | Telegram/SourceFiles/mainwidget.cpp:3226 | A channel may be asked for from when it has a pts |
| `DifferenceSlots.RecomputeByPtsIs` | Telegram/SourceFiles/mainwidget.cpp:3141-3164 | For each slot: a deadline that has passed is gone and leads to a request where one can be sent, any other one stays |
| `DifferenceSlots.RecomputeAfterFailIs` | Telegram/SourceFiles/mainwidget.cpp:3166-3191 | The same for the table after failures, where the main stream is asked for in any case |
| `DifferenceSlots.TimersLeadOn` | Telegram/SourceFiles/mainwidget.cpp:3141-3191 | A timer that is due leads to the recompute of its table and is set for the first deadline that is left |
| `DifferenceSlots.MainAnswerLeadsOn` | Telegram/SourceFiles/mainwidget.cpp:3008-3043 | An answer ends its request; a slice asks for the rest at once |
| `DifferenceSlots.ChannelAnswerLeadsOn` | Telegram/SourceFiles/mainwidget.cpp:2906-2973 | An answer that is not final leads to the next request at once; a final one to a deadline for the next poll that the timer keeps |
| `DifferenceSlots.FailureLeadsOn` | Telegram/SourceFiles/mainwidget.cpp:3132-3138 | A failure of either kind leaves a retry that the timer keeps, and doubles the back-off |
| `DifferenceSlots.StepForgetsNothing` | Telegram/SourceFiles/mainwidget.cpp:3045-3250 | Whatever happens, both deadlines of a slot stay or become earlier, unless its requests are under way, it has no pts, or somebody gives the deadline up |
| `DifferenceSlots.EveryRunForgetsNothing` | Telegram/SourceFiles/mainwidget.cpp:3045-3250 | Over every run a deadline that nobody gives up is still there or was served at some moment |
| `ViewsBatcher.MainWidget.ScheduleViewIncrement` | Telegram/SourceFiles/mainwidget.cpp:1497-1512 | The two tables and the timer are those of the reference `Schedule`; what becomes of the id say `StepForId` and `SendsAreAccepted` |
| `ViewsBatcher.MainWidget.ViewsIncrement` | Telegram/SourceFiles/mainwidget.cpp:1514-1530 | Every peer without a request has all its waiting ids sent in one request, and the peers with one keep theirs |
| `ViewsBatcher.MainWidget.ViewsIncrementDone` | Telegram/SourceFiles/mainwidget.cpp:1532-1552 | Only an answer of the same length is taken: its counts go to the messages, and the request is erased; the timer is started again if something waits |
| `ViewsBatcher.MainWidget.ViewsIncrementFail` | Telegram/SourceFiles/mainwidget.cpp:1554-1567 | An error that is handled elsewhere leaves the request; any other one erases it |
| `ViewsBatcher.EveryRunKeeps` | Telegram/SourceFiles/mainwidget.cpp:1497-1567 | The request table agrees with the requests under way, waiting ids are covered by the timer or by the table, and sends are bounded, in every run |
| `ViewsBatcher.SendsAreBounded` | Telegram/SourceFiles/mainwidget.cpp:1497-1530 | Each id of a peer is sent at most once more than the peer was opened, and no two requests under way are for one peer |
| `ViewsBatcher.WaitingIsCoveredUnlessMismatched` | Telegram/SourceFiles/mainwidget.cpp:1532-1552 | Waiting ids have the timer or a request under way if and only if the timer runs or the last request of the peer was not answered with a list of another length |
| `ViewsBatcher.StalePeerIsNeverSent` | Telegram/SourceFiles/mainwidget.cpp:1534-1548 | After an answer of another length nothing is sent for that peer in any run |
| `ViewsBatcher.MismatchLosesViews` | Telegram/SourceFiles/mainwidget.cpp:1534-1548 | Such a run, with an id that waits although no timer and no request is there |
| `ViewsBatcher.StepForId` | Telegram/SourceFiles/mainwidget.cpp:1497-1567 | For every id and every event: it waits from when it is counted until a pass of the timer finds its peer without a request, and then is sent exactly once, in a request that lists all waiting ids of the peer in their order; nothing else sends it or lets it wait |
| `ViewsBatcher.CountedIsSent` | Telegram/SourceFiles/mainwidget.cpp:1497-1530 | In every run an id that was counted waits or was sent |
| `ViewsBatcher.SendsAreAccepted` | Telegram/SourceFiles/mainwidget.cpp:1497-1530 | In every run an id was sent exactly as often as it was accepted while it did not wait, but for the last time if it still waits |
| `ViewsBatcher.AnswerSetsViews` | Telegram/SourceFiles/mainwidget.cpp:1532-1552 | An answer of the same length gives each loaded message of the request its own count and changes no other, and ends the request; any other answer changes no count and no entry |
| `ViewsBatcher.RefusalEndsRequest` | Telegram/SourceFiles/mainwidget.cpp:1554-1567 | A refusal erases the entry of its peer and no other, unless the error is handled elsewhere |
| `ViewsBatcher.TimerIs` | Telegram/SourceFiles/mainwidget.cpp:1506-1509 | The timer is started by the first id that waits for a peer, and again after an answer or a refusal if something waits |
| `ViewsBatcher.SetViewsIs` | Telegram/SourceFiles/mainwidget.cpp:1539-1543 | Each loaded message of a list without repeats gets the count at its own place |
| `Sha1Standard.PaddingIsSmallest` | Telegram/SourceFiles/_other/packer.cpp:127-139 | The padding has the least number of zero bytes that completes the block, as section 5.1.1 of FIPS 180-4 asks |
| `Packer.Sha1Shift` | Telegram/SourceFiles/_other/packer.cpp:72-74 | The two shifts joined by `|` are the rotation for the three amounts that are used |
| `Packer.ChOr` | Telegram/SourceFiles/_other/packer.cpp:94-95 | The or-form of Ch equals the function of section 4.1.1 |
| `Packer.MajOr` | Telegram/SourceFiles/_other/packer.cpp:97 | The or-form of Maj equals the function of section 4.1.1 |
| `Packer.Sha1PartHash` | Telegram/SourceFiles/_other/packer.cpp:76-108 | The five loops with their macros, over a schedule that is filled in on the way, are the compression of section 6.1.2 |
| `Packer.HashWhole` | Telegram/SourceFiles/_other/packer.cpp:117-125 | After the block loop the state is the hash of all whole blocks, parsed big-endian, and `block` is the first byte not hashed |
| `Packer.HashTail` | Telegram/SourceFiles/_other/packer.cpp:127-139 | The one or two last blocks that are built in place are the rest of the padded message; the last word is the length shifted left by three |
| `BinaryWords.ShiftedIs` | Telegram/SourceFiles/_other/packer.cpp:138 | A word of 32 bits shifted left by three is the word of eight times the number modulo 2^32 |
| `BinaryWords.BytesAreWord` | Telegram/SourceFiles/_other/packer.cpp:121-124 | The four bytes of a number, the most significant first, make up its word |
| `Packer.WriteDigest` | Telegram/SourceFiles/_other/packer.cpp:141-145 | The twenty bytes are the words in big-endian order, and no other byte of the buffer changes |
| `Packer.HashSha1` | Telegram/SourceFiles/_other/packer.cpp:112-148 | The digest of the message as the packer pads it, with its one length word modulo 2^32 |
| `Packer.PadsAsStandard` | Telegram/SourceFiles/_other/packer.cpp:138 | The packer pads as FIPS 180-4 does if and only if the message is shorter than 2^29 bytes |
| `Packer.HashesAsStandard` | Telegram/SourceFiles/_other/packer.cpp:112-148 | For every message shorter than 2^29 bytes the digest is the SHA-1 of FIPS 180-4 |
| `ObserverList.ObservableData.Append` | Telegram/SourceFiles/base/observer.h:157-167 | The new node is the last of the list, and links, ends and cursor stay consistent |
| `ObserverList.ObservableData.Remove` | Telegram/SourceFiles/base/observer.h:184-202 | Exactly that node leaves the list; the cursor steps back if it was on it, and the data is reset if the list becomes empty with the cursor elsewhere |
| `ObserverList.ObservableData.Release` | Telegram/SourceFiles/base/observer.h:204-209 | Destroying a subscription removes its node if the data is still there |
| `ObserverList.ObservableData.NotifyEnumerate` | Telegram/SourceFiles/base/observer.h:211-224 | The loop over the cursor makes exactly the calls of the reference enumeration over a plain sequence, whatever the handlers do to the list |
| `ObserverList.ResetsExactlyWhen` | Telegram/SourceFiles/base/observer.h:197-201 | The data is reset under an enumeration if and only if a handler removes the only subscription left and that one was not called yet |
| `ObserverList.EnumerateFrom` | Telegram/SourceFiles/base/observer.h:211-224 | From any point of an enumeration on the calls are in list order, none twice, none after its removal and none passed over |
| `ObserverList.EnumerationIsComplete` | Telegram/SourceFiles/base/observer.h:211-224 | For every list and every behaviour of the handlers the calls are in list order, once each, never to a removed subscription; and every subscription in the list at the end was called, unless the data was reset |
| `ObserverList.SubscribesAppend` | Telegram/SourceFiles/base/observer.h:157-167 | Handlers that subscribe put their nodes at the end of the list in their order |
| `ObserverRuntime.Observables.NotifyObservers` | Telegram/SourceFiles/base/observer.h:249-267 | An asynchronous event, or one of an observable whose handlers run, only goes to the end of the queue, which is registered if it was empty: no handler runs and nothing else changes; a synchronous one is delivered before the call returns, after everything that was queued; the observable goes away only if what the handlers did used up its subscriptions |
| `ObserverRuntime.Observables.CallHandlers` | Telegram/SourceFiles/base/observer.h:274-287 | Every event that was queued is delivered before the observable leaves the active set, whatever is notified, created or destroyed by the handlers, which run and return once for each event; a nested notification of it is queued; no observable is destroyed unless the actions that were taken meanwhile used up its subscriptions |
| `ObserverRuntime.Observables.DestroyMeIfEmpty` | Telegram/SourceFiles/base/observer.h:226-232 | The data goes away exactly if no subscription is left |
| `ObserverRuntime.Observables.RemoveSubscription` | Telegram/SourceFiles/base/observer.h:184-209 | The data goes away with the last subscription, unless its own handlers are running |
| `ObserverRuntime.Observables.HandleObservables` | Telegram/SourceFiles/base/observer.cpp:60-71 | Every observable from which nobody unsubscribes meanwhile is still there, and has delivered everything that it was notified of before the call, in the order of notification; so has any other one that is still there; it was notified of exactly what the handlers did meanwhile, in their order; and the active set ends empty |
| `ObserverRuntime.StaysUnless` | Telegram/SourceFiles/base/observer.h:226-232 | An observable with subscriptions stays, with at least as many, unless somebody unsubscribes from it |
| `ObserverRuntime.QuietMeansDelivered` | Telegram/SourceFiles/base/observer.h:249-287 | With no observable pending, active or being handled, each one has delivered exactly what it was notified of, in that order |
| `ObserverRuntime.LeftAndThen` | Telegram/SourceFiles/base/observer.h:184-209 | Whether and how many subscriptions are left after a series of actions is found part by part |
| `ObserverRuntime.QueuedIsJustQueued` | Telegram/SourceFiles/base/observer.h:259-265 | Queueing changes the queue and the history of that observable and its registration, and nothing else |
| `ObserverRuntime.HeardTwice` | Telegram/SourceFiles/base/observer.h:249-267 | The account of notifications adds up: an observable that is still there was notified of exactly the events that the log of actions has for it, in their order |
| `ObserverRuntime.TakenKeeps` | Telegram/SourceFiles/base/observer.h:274-277 | Taking the queue loses nothing: what was notified is what was delivered, then what is in hand, then what is queued |
| `ObserverRuntime.QueuedKeeps` | Telegram/SourceFiles/base/observer.h:261-265 | An observable with queued events is in the pending or the active set |
| `ObserverRuntime.FinishedKeeps` | Telegram/SourceFiles/base/observer.h:285-286 | After callHandlers the observable may leave the active set: what it was notified of before is delivered, and later events have it in the pending set |
| `ObserverRuntime.DestroyedKeeps` | Telegram/SourceFiles/base/observer.h:269-271 | A destroyed observable is in neither set |
| `ObserverRuntime.LaterTrans` | Telegram/SourceFiles/base/observer.h:249-287 | What handlers may do to other observables adds up: histories only grow, nothing is delivered inside a delivery of the same observable, the active set only loses observables that are done, and an observable is gone only if the actions that were taken used up its subscriptions |
| `ComposerLayout.Metadata.constructor` | Telegram/SourceFiles/base/runtime_composer.h:97-122 | The loop fills the offsets, the size, the last index and the alignment, which is the greatest one that is needed, with those of the reference layout, also where it stops early |
| `ComposerLayout.Metadata.Place` | Telegram/SourceFiles/base/runtime_composer.h:102-110 | A component gets the first aligned place after those before it |
| `ComposerLayout.SlotsAreGood` | Telegram/SourceFiles/base/runtime_composer.h:97-122 | For every mask and every table of sizes and alignments the slots are aligned, disjoint, behind the pointer and inside the size; an offset is at least that of the pointer exactly for the components that are there |
| `ComposerLayout.LastIsAbove` | Telegram/SourceFiles/base/runtime_composer.h:111-114 | `last` is above every bit of the mask |
| `ComposerLayout.LastIsLeast` | Telegram/SourceFiles/base/runtime_composer.h:111-114 | And the bit before `last` is set |
| `ComposerLayout.NoLayoutIsSmaller` | Telegram/SourceFiles/base/runtime_composer.h:97-122 | No other aligned layout in the order of the indices puts any component lower or needs fewer bytes |
| `ComposerLayout.BitIs` | Telegram/SourceFiles/base/runtime_composer.h:98-99 | 1ULL << i has the bit i and no other |
| `ComposerLayout.MaskAdds` | Telegram/SourceFiles/base/runtime_composer.h:127-129 | Bit by bit, maskadd sets what either mask has |
| `ComposerLayout.MaskRemoves` | Telegram/SourceFiles/base/runtime_composer.h:130-132 | Bit by bit, maskremove keeps what only the first mask has |
| `ComposerLifecycle.Composer.constructor` | Telegram/SourceFiles/base/runtime_composer.h:143-160 | The components of the mask are constructed in the order of their indices, each once |
| `ComposerLifecycle.Composer.Destruct` | Telegram/SourceFiles/base/runtime_composer.h:178-189 | Every component of the block is destructed once |
| `ComposerLifecycle.Composer.UpdateComponents` | Telegram/SourceFiles/base/runtime_composer.h:192-213 | Nothing happens for the same mask; otherwise the block is the one built for the new mask, with the values of the shared components, and everything of the old block is destructed |
| `ComposerLifecycle.Composer.AddComponents` | Telegram/SourceFiles/base/runtime_composer.h:214-216 | The update to the union of the masks |
| `ComposerLifecycle.Composer.RemoveComponents` | Telegram/SourceFiles/base/runtime_composer.h:217-219 | The update to the difference of the masks |
| `ComposerLifecycle.BuildIsGood` | Telegram/SourceFiles/base/runtime_composer.h:152-160 | A new block has exactly the components of the mask, default-constructed and all distinct |
| `ComposerLifecycle.EveryRunBalances` | Telegram/SourceFiles/base/runtime_composer.h:143-219 | In every run of updates, adds, removes and writes, what was constructed and is not in the block was destructed exactly once, and what is in the block never |
| `ComposerLifecycle.EachDestructedOnce` | Telegram/SourceFiles/base/runtime_composer.h:143-219 | From construction to destruction every component that was constructed is destructed exactly once |
| `ComposerLifecycle.EachLivesAlone` | Telegram/SourceFiles/base/runtime_composer.h:192-219 | Each component behaves as if it were alone: it appears with its bit with the constructed value, keeps its last written value over all rebuilds, and goes with its bit |
| `ComposerLifecycle.AddAndRemove` | Telegram/SourceFiles/base/runtime_composer.h:214-219 | Add and remove change exactly the components that they name |
| `DialogRequests.ApiWrap.RequestDialogEntry` | Telegram/SourceFiles/apiwrap.cpp:689-713 | The tables and the posted sends are those of the reference `Requested`; see `RequestedIs` |
| `DialogRequests.RequestedIs` | Telegram/SourceFiles/apiwrap.cpp:689-713 | The callback goes to the end of the list of its history, in flight if it is there and pending otherwise; one send is posted when the table of pending ones was empty; nothing else changes |
| `DialogRequests.SentIs` | Telegram/SourceFiles/apiwrap.cpp:715-734 | A send leaves nothing pending and every list in flight as it was, with one batch more, or none if nothing was pending |
| `DialogRequests.ApiWrap.SendDialogRequests` | Telegram/SourceFiles/apiwrap.cpp:715-734 | All pending callbacks move to those in flight, none is dropped by emplace, and one batch goes out that lists exactly their histories, each once and in their order; an empty table sends nothing |
| `DialogRequests.ApiWrap.DialogEntryApplied` | Telegram/SourceFiles/apiwrap.cpp:752-764 | Every callback that waited for the history when it was called has been called when it returns, even if the history and the callbacks register new ones meanwhile, and no request in flight waits for the history |
| `DialogRequests.ApiWrap.CallAll` | Telegram/SourceFiles/apiwrap.cpp:754-763 | The callbacks of a list are called one by one in the order of the list, with what they call in between |
| `DialogRequests.ApiWrap.Perform` | Telegram/SourceFiles/apiwrap.cpp:689-764 | Every callback that the code hands over is registered, and whatever waited for a history that it applies waits no longer |
| `DialogRequests.ApiWrap.RequestDone` | Telegram/SourceFiles/apiwrap.cpp:736-750 | An answer or a failure goes through the histories of its batch, none of which waits for an answer afterwards |
| `DialogRequests.ApiWrap.Run` | Telegram/SourceFiles/apiwrap.cpp:689-764 | Over every run of requests, posted sends, answers and failures the tables stay disjoint and accounted for; with nothing posted and no batch on its way every callback has been called as often as it was registered |
| `DialogRequests.RequestedKeeps` | Telegram/SourceFiles/apiwrap.cpp:689-713 | A request keeps the tables disjoint, every callback accounted for, a send posted while something is pending, and every history in flight in a batch |
| `DialogRequests.SentKeeps` | Telegram/SourceFiles/apiwrap.cpp:715-734 | So does a send |
| `DialogRequests.TakenKeeps` | Telegram/SourceFiles/apiwrap.cpp:754-763 | So does taking the callbacks of a history out of either table |
| `DialogRequests.AnsweredKeeps` | Telegram/SourceFiles/apiwrap.cpp:736-741 | So does an answer: the histories it still has to go through are those that wait for no other batch |
| `DialogRequests.ServedCalls` | Telegram/SourceFiles/apiwrap.cpp:752-764 | What was registered and waits no longer has been called |
| `DialogRequests.QuietMeansDone` | Telegram/SourceFiles/apiwrap.cpp:689-764 | With nothing posted, sent or being gone through, no table has an entry and every callback has been called exactly as often as it was registered |
| `WebPages.ApiWrap.RequestWebPageDelayed` | Telegram/SourceFiles/apiwrap.cpp:2611-2618 | A pending page is marked as not asked for, also if a request for it is in flight; the timer then fires no later than a millisecond after the page is due, or after this moment if it is due already, and is put off by a millisecond at most |
| `WebPages.ApiWrap.ClearWebPageRequest` | Telegram/SourceFiles/apiwrap.cpp:2620-2625 | The page leaves the table, and the timer stops if that was the last one |
| `WebPages.ApiWrap.ResolveWebPages` | Telegram/SourceFiles/apiwrap.cpp:2632-2704 | No placeholder is left; every page that is due and has a message holds the id of the one new request of its channel, and every other page holds what it held; there is one new request for each channel that is needed, over the pages in the strictly ascending order of the table; the timer is set for the first page that is not due, and after it every waiting page has the timer unless it was due and had no message |
| `WebPages.EachListedOnce` | Telegram/SourceFiles/apiwrap.cpp:2640-2687 | Each new request lists the message of each of its pages once and in the order of the table, and its pages are exactly those of its channel |
| `WebPages.MissedAre` | Telegram/SourceFiles/apiwrap.cpp:2643-2703 | The pages that a pass leaves waiting without having them timed are those that were due and had no message; every waiting page has the timer if and only if there is none of those or the timer runs for another page |
| `WebPages.ApiWrap.Append` | Telegram/SourceFiles/apiwrap.cpp:2649-2663 | A new channel gets the number of channels so far as its index: channels and the indices below their number stay in bijection |
| `WebPages.CodesAreInBounds` | Telegram/SourceFiles/apiwrap.cpp:2679-2698 | The decoded index of every placeholder is one of the channels |
| `WebPages.CodesAreResolved` | Telegram/SourceFiles/apiwrap.cpp:2688-2699 | The placeholder of every picked page decodes to the request of its channel, and the second pass may only be skipped when there is no placeholder |
| `WebPages.RequestsAreDisjoint` | Telegram/SourceFiles/apiwrap.cpp:2640-2687 | No page is in two requests of one pass |
| `WebPages.ApiWrap.GotWebPages` | Telegram/SourceFiles/apiwrap.cpp:3043-3053 | Exactly the pages that hold the answered id leave the table; those of them that were pending are marked and notified, and no other page changes |
| `WebPages.AnswerErasesItsPages` | Telegram/SourceFiles/apiwrap.cpp:3043-3053 | Every page that leaves is one that the answered request was sent for |
| `StripComments.StripAll` | Telegram/SourceFiles/base/parse_helper.cpp:13-97 | The scan with its chunks returns the text of the reference `Strip`, and the content itself when nothing was fed |
| `StripComments.TurnOutside` | Telegram/SourceFiles/base/parse_helper.cpp:42-68 | One turn outside of comments, with strings and escaped quotes |
| `StripComments.TurnInLine` | Telegram/SourceFiles/base/parse_helper.cpp:57-64 | One turn within a comment up to the end of the line |
| `StripComments.TurnInBlock` | Telegram/SourceFiles/base/parse_helper.cpp:69-80 | One turn within a comment with an explicit end: a line end is fed after what waits before it |
| `StripComments.PiecesAreTheText` | Telegram/SourceFiles/base/parse_helper.cpp:13-97 | The text is the concatenation of its pieces: single characters, and whole comments |
| `StripComments.TextIsCopied` | Telegram/SourceFiles/base/parse_helper.cpp:13-97 | What is left is those pieces in their order, every character outside of comments as it was, and spaces and line ends for the comments |
| `StripComments.NewLinesKept` | Telegram/SourceFiles/base/parse_helper.cpp:57-80 | The line ends of the text and their kinds are kept for every input, terminated or not |
| `StripComments.NeverGrows` | Telegram/SourceFiles/base/parse_helper.cpp:13-97 | The result is never longer than the text |
| `StripComments.Idempotent` | Telegram/SourceFiles/base/parse_helper.cpp:13-97 | Stripping twice is stripping once |
| `StripComments.UnchangedExactlyWhen` | Telegram/SourceFiles/base/parse_helper.cpp:86-96 | A text is returned as it is if and only if no comment opens in it outside of strings |
| `SettingsStream.ReadGroupBack` | Telegram/SourceFiles/auth_session.cpp:71-104 | A group of fields that was written is read back, whatever follows it |
| `SettingsStream.ReadGroupMore` | Telegram/SourceFiles/auth_session.cpp:148-225 | What is read does not depend on what follows in the stream |
| `SettingsStream.CutGroupIsBad` | Telegram/SourceFiles/auth_session.cpp:226-230 | A group that is cut at any byte cannot be read |
| `SettingsStream.CutStream` | Telegram/SourceFiles/auth_session.cpp:148-230 | A stream of the first k groups gives these and leaves the rest; with part of the next group it is bad |
| `SettingsStream.CutLies` | Telegram/SourceFiles/auth_session.cpp:148-225 | Every cut of a stream lies between two groups or inside one |
| `SettingsStream.DecodedAlike` | Telegram/SourceFiles/auth_session.cpp:148-225 | Whatever the stream is, every field that is read is of the kind that belongs there |
| `SettingsStream.DataStream.ReadOverrides` | Telegram/SourceFiles/auth_session.cpp:153-163 | The counted loop gives the sound overrides that the recursive reader gives, and fails where it does |
| `SettingsStream.DataStream.ReadHidden` | Telegram/SourceFiles/auth_session.cpp:170-180 | The same for the hidden peers |
| `SettingsStream.DataStream.ReadAll` | Telegram/SourceFiles/auth_session.cpp:148-225 | Reading group after group while the stream is not at its end, the first one in any case, gives the groups and their number of the reference decoding |
| `Settings.AuthSessionSettings.Serialize` | Telegram/SourceFiles/auth_session.cpp:50-107 | The stream is the groups of the settings in their order, with every sound override and every hidden peer once, in the order of the keys and of the peers |
| `Settings.OneStream` | Telegram/SourceFiles/auth_session.cpp:74-84 | The order of the two containers leaves exactly one stream for given settings |
| `Settings.AuthSessionSettings.ConstructFromSerialized` | Telegram/SourceFiles/auth_session.cpp:109-310 | The settings become those of the reference `Constructed`; an empty or a bad stream, or an autoDownload that is not accepted, changes nothing; for the fields see `SettingsFields.FieldsTaken` |
| `Settings.CutAt` | Telegram/SourceFiles/auth_session.cpp:148-230 | A stream that ends after k groups gives their fields and leaves the others at what the local variables held; one that ends inside a group changes nothing |
| `Settings.CutAnywhere` | Telegram/SourceFiles/auth_session.cpp:148-230 | However many bytes of a stored stream are there: if they are exactly the first k groups those are taken, and if they end anywhere else nothing changes |
| `Settings.RoundTrip` | Telegram/SourceFiles/auth_session.cpp:50-310 | What is there after the whole stream was read, field by field: everything as it was stored, the ratio to the millionth, except for corners that are none, submit ways other than the two known ones, the third section next to the tabbed one, and the legacy field |
| `Settings.RoundTripExactlyWhen` | Telegram/SourceFiles/auth_session.cpp:231-310 | The stream gives back what was stored if and only if the ratio is a whole number of millionths in 0..1, the corner is a corner, the submit way is one of the two, the autoDownload is not empty and not both sections are on, or what was there before makes up for it |
| `Settings.RatioBack` | Telegram/SourceFiles/auth_session.cpp:87-90 | Any ratio comes back snapped to 0..1 and then to the nearest millionth, and unchanged if and only if it is a whole number of millionths in there |
| `Settings.RatiosLost` | Telegram/SourceFiles/auth_session.cpp:87-90 | Ratios outside of 0..1 and between two millionths that do not come back |
| `Settings.ConstructedShowsOne` | Telegram/SourceFiles/auth_session.cpp:275-282 | Whatever is read, at most one of the three sections is on |
| `Settings.AuthSessionSettings.SetBettergramTabsSectionEnabled` | Telegram/SourceFiles/auth_session.cpp:324-331 | The section is set, and the other two are off if it is on |
| `Settings.AuthSessionSettings.SetTabbedSelectorSectionEnabled` | Telegram/SourceFiles/auth_session.cpp:345-352 | The same for the tabbed selector |
| `Settings.AuthSessionSettings.SetThirdSectionInfoEnabled` | Telegram/SourceFiles/auth_session.cpp:359-369 | The same for the third section, but nothing at all happens if it is as it should be |
| `Settings.SettersShowOne` | Telegram/SourceFiles/auth_session.cpp:324-369 | Every sequence of the setters keeps at most one section on |
| `Settings.ThirdNeedsAtMostOne` | Telegram/SourceFiles/auth_session.cpp:359-369 | Turning the third section on leaves one section if and only if there was at most one before or the third was off |
| `Settings.AuthSessionSettings.Change` | Telegram/SourceFiles/auth_session.cpp:324-369 | Any sequence of the setters has the outcome of the reference changes, and leaves at most one section on if there was at most one |
| `SettingsFields.FieldsTaken` | Telegram/SourceFiles/auth_session.cpp:122-310 | Any stream of k groups of the right kinds, field by field: the ratio, the widths, the ways of sending, the support settings, the counters, the warning and the autoDownload keep what they were where their group is not there; the others then have the fixed values of the local variables; and a value that is none of an enumeration leaves its field |
| `SettingsFields.MapOfIsLast` | Telegram/SourceFiles/auth_session.cpp:157-161 | Of several sounds for one key the last one counts, and no other key is there |
| `SettingsFields.PartOfGroupChangesNothing` | Telegram/SourceFiles/auth_session.cpp:226-230 | A stream of any groups that ends within a group changes nothing |
| `SettingsFields.MoreChangesNothing` | Telegram/SourceFiles/auth_session.cpp:223-225 | What follows the groups that are known changes nothing |
| `FlatMaps.FlatMap.TryEmplace` | Telegram/SourceFiles/base/flat_map.h:660-722 | With its fast paths for both ends the map gets the entry exactly if it has no key of that rank, and keeps the one it has |
| `FlatMaps.FlatMap.Index` | Telegram/SourceFiles/base/flat_map.h:736-749 | operator[] adds a default value exactly if the key is new, and gives the place of the key |
| `FlatMaps.FlatMap.Assign` | Telegram/SourceFiles/base/flat_map.h:736-749 | Assigning through operator[] changes the value of that key only |
| `FlatMaps.FlatMap.Find` | Telegram/SourceFiles/base/flat_map.h:456-464 | The place of the key, or the end if it is not there |
| `FlatMaps.FlatMap.Remove` | Telegram/SourceFiles/base/flat_map.h:418-431 | The key is gone and nothing else changes; true exactly if it was there |
| `FlatMaps.FlatMap.Take` | Telegram/SourceFiles/base/flat_map.h:751-759 | The value is returned and the key is gone |
| `FlatSets.FlatSet.Insert` | Telegram/SourceFiles/base/flat_set.h:604-617 | The set gets the value exactly if it has none of that rank |
| `FlatSets.FlatSet.Find` | Telegram/SourceFiles/base/flat_set.h:314-322 | The place of a value of that rank, or the end |
| `FlatSets.FlatSet.Remove` | Telegram/SourceFiles/base/flat_set.h:276-288 | That rank is gone and nothing else changes |
| `FlatSets.FlatSet.Finalize` | Telegram/SourceFiles/base/flat_set.h:705-715 | Of sorted elements the first of each rank stays, in strictly ascending order |
| `FlatSets.FlatSet.Merge` | Telegram/SourceFiles/base/flat_set.h:688-694 | The union of both, with one element for each rank, each from one of the two |
| `FlatSets.FlatSet.constructor` | Telegram/SourceFiles/base/flat_set.h:575-581 | A set from a range has one element for each rank of the range |
| `FlatStorage.InsertKeeps` | Telegram/SourceFiles/base/flat_map.h:660-674 | Inserting at the lower bound keeps the ranks strictly ascending and adds one entry to the contents |
| `FlatStorage.OneOrder` | Telegram/SourceFiles/base/flat_map.h:660-772 | Containers with the same contents have the same elements in the same order |
| `FlatStorage.FoundAtLower` | Telegram/SourceFiles/base/flat_map.h:456-464 | A key is there if and only if the lower bound has its rank |
| `FlatMultis.FlatMultiSet.Insert` | Telegram/SourceFiles/base/flat_set.h:249-270 | The elements of every rank keep their order, and the new one is the last of its rank |
| `FlatMultis.FlatMultiSet.RemoveOne` | Telegram/SourceFiles/base/flat_set.h:276-288 | The oldest element of the rank goes, and every other element stays in its place; true exactly if there was one |
| `FlatMultis.FlatMultiSet.RemoveAll` | Telegram/SourceFiles/base/flat_set.h:289-302 | All elements of the rank go, their number is returned, and the other ranks are as they were |
| `FlatMultis.FlatMultiSet.Count` | Telegram/SourceFiles/base/flat_set.h:363-371 | The number of elements of the rank, also where the fast paths answer |
| `FlatMultis.OneStableOrder` | Telegram/SourceFiles/base/flat_set.h:249-302 | The storage is determined by the ranks and by the order of the elements of each rank: it is the stable sort of what was inserted and not removed |
| `FlatMultis.RangeIsRank` | Telegram/SourceFiles/base/flat_set.h:363-371 | The equal range holds exactly the elements of the rank |
| `FeedMessages.FeedMsgs` | Telegram/SourceFiles/app.cpp:205-224 | Every message that is not skipped is added exactly once, in the order of the unsigned id and then of the index |
| `FeedMessages.PositionsCompare` | Telegram/SourceFiles/app.cpp:219 | The packed keys compare as the pairs of unsigned id and index do, and two messages never collide |
| `BinaryGuard.EveryRunKeeps` | Telegram/SourceFiles/base/binary_guard.h:36-80 | In every interleaving of makes, moves, loads, takes, exchanges and deletes a cell is exchanged at most twice, holds true until the first exchange, and is deleted by the second one |
| `BinaryGuard.NoUseAfterDelete` | Telegram/SourceFiles/base/binary_guard.h:57-72 | No step reads or writes a cell that has been deleted |
| `BinaryGuard.DeletedExactlyOnce` | Telegram/SourceFiles/base/binary_guard.h:65-72 | A cell that nobody has any more was deleted exactly once, and one that somebody has never |
| `BinaryGuard.AliveWhileBoth` | Telegram/SourceFiles/base/binary_guard.h:57-59 | A guard is alive if and only if the other side still has the cell or is yet to exchange it |
| `BinaryGuard.DeadStaysDead` | Telegram/SourceFiles/base/binary_guard.h:57-59 | A guard that is not alive stays so until another cell is put into it |
| `BinaryGuard.DestroyedLeaves` | Telegram/SourceFiles/base/binary_guard.h:65-72 | A destruction in one go leaves the guard without a cell, which is deleted exactly if the other side exchanged it before |
| `BinaryGuard.StepIs` | Telegram/SourceFiles/base/binary_guard.h:36-80 | What each step does to every pointer and every cell: a move and a take hand the pointer over and leave null, a make gives both guards one new cell that holds true, an exchange leaves false, and only a failed one leads to a deletion |
| `BinaryGuard.OnlyTouched` | Telegram/SourceFiles/base/binary_guard.h:57-72 | A step changes no cell but those it touches, and a load depends on no other |
| `BinaryGuard.Memory.MoveAssign` | Telegram/SourceFiles/base/binary_guard.h:41-46 | The guard gives up its cell and takes over the pointer of the other one, which is left empty; nothing happens if it is the same guard |
| `BinaryGuard.Memory.Destroy` | Telegram/SourceFiles/base/binary_guard.h:65-72 | The three steps in a row |
| `BinaryGuard.Memory.CompareExchange` | Telegram/SourceFiles/base/binary_guard.h:68 | True exactly if the cell held true, which it does not afterwards |
| `BinaryGuard.Memory.MakeBinaryGuard` | Telegram/SourceFiles/base/binary_guard.h:74-80 | Both guards get one new cell that holds true |
| `BinaryGuard.Memory.MoveTo` | Telegram/SourceFiles/base/binary_guard.h:36-46 | The cell goes to the other guard |
| `LastUsedCache.Cache.Up` | Telegram/SourceFiles/base/last_used_cache.h:29-40 | List and map stay in bijection, and the entry is now the one used last |
| `LastUsedCache.Cache.Remove` | Telegram/SourceFiles/base/last_used_cache.h:42-49 | Only that entry is gone from both |
| `LastUsedCache.Cache.Clear` | Telegram/SourceFiles/base/last_used_cache.h:51-55 | Both are empty |
| `LastUsedCache.Cache.TakeLowest` | Telegram/SourceFiles/base/last_used_cache.h:57-66 | The entry returned and removed is the one whose last use is the longest ago of all; a default one if there is none |
| `LastUsedCache.MoveRefines` | Telegram/SourceFiles/base/last_used_cache.h:34-36 | Splicing a node to the end refines using its entry now |
| `LastUsedCache.EraseRefines` | Telegram/SourceFiles/base/last_used_cache.h:42-49 | Erasing a node and its iterator refines forgetting the entry |
| `LastUsedCache.UsedLast` | Telegram/SourceFiles/base/last_used_cache.h:29-40 | An order by last use stays one when the used entry goes to the end |
| `PeerUpdates.Updates.PeerUpdatedDelayed` | Telegram/SourceFiles/observer_peer.cpp:41-70 | In whichever of the two places, the peer has one entry, merged with the update if it was there; the peers of the list keep their order, and the update is one more that was given and waits |
| `PeerUpdates.Updates.PeerUpdatedSendDelayed` | Telegram/SourceFiles/observer_peer.cpp:72-88 | The updates returned are those of the list and then of the map, and they are among the notifications of this flush in that order; every update that waited is a part of a notification sent during the flush, nothing that was sent is taken back, and what handlers add or flush meanwhile is kept |
| `PeerUpdates.MergeAllIs` | Telegram/SourceFiles/observer_peer.cpp:32-39 | What a series of updates of one peer comes to: every flag of its updates, and the letters of the first that changed the name, or of the first |
| `PeerUpdates.FlushSendsEach` | Telegram/SourceFiles/observer_peer.cpp:72-83 | A flush sends each waiting update once, and nothing waits when the list is empty, because the map is used only when the list is full |
| `PeerUpdates.MergedInList` | Telegram/SourceFiles/observer_peer.cpp:47-54 | Merging in the list keeps one entry for each peer over both places |
| `PeerUpdates.PushedToList` | Telegram/SourceFiles/observer_peer.cpp:56-58 | So does appending to a list of less than five |
| `PeerUpdates.PutToMap` | Telegram/SourceFiles/observer_peer.cpp:59-69 | So does the map once the list is full |
| `PeerUpdates.NotedKeeps` | Telegram/SourceFiles/observer_peer.cpp:41-70 | When one more update is given each update still is at exactly one place, and what waits for the peer is what all its waiting parts come to |
| `PeerUpdates.TakenAllKeeps` | Telegram/SourceFiles/observer_peer.cpp:75-78 | When a flush takes both places nothing waits any more, and nothing is lost |
| `PeerUpdates.TakenAllInHand` | Telegram/SourceFiles/observer_peer.cpp:75-76 | The lists taken are entries in hand: one for each peer that waited, with all the parts that waited for it |
| `PeerUpdates.NotifiedKeeps` | Telegram/SourceFiles/observer_peer.cpp:80-84 | A notification moves exactly the parts of its entry from the hand to what was sent |
| `PeerUpdates.FlushIsCalm` | Telegram/SourceFiles/observer_peer.cpp:72-88 | A flush leaves in hand what outer flushes have in hand, and every update that waited when it began is a part of one of its notifications |
| `PeerUpdates.Updates.Perform` | Telegram/SourceFiles/observer_peer.cpp:41-88 | Code that gives updates and flushes: its updates are given in their order, and if it flushes everything that waited before has been sent |
| `PeerUpdates.AllSinceJoins` | Telegram/SourceFiles/observer_peer.cpp:72-88 | What waited at one moment and was not sent by a later one waits there, so that a flush from then on sends it |
| `PeerUpdates.AllSentInTheEnd` | Telegram/SourceFiles/observer_peer.cpp:41-88 | When nothing waits and no flush is going on, every update that was ever given, by its serial number, is a part of exactly one notification, which was sent after it was given, for its peer and with all its flags; and every notification is what its parts come to, so that nothing else was sent |

## Left out

- User interface, network transport, TL parsing, `History` and `PeerData` internals, RSA, LZMA, file packing and the updaters: foreign calls and I/O.
- UpdateSequence.MainWidget.UpdSetState: does not model the date, qts and pts parts, which the seq buffer does not depend on; seqs are unbounded integers, not int32.
- UpdateSequence.MainWidget.GotState: updates that the difference itself feeds are not modelled; they carry no seq.
- DifferenceScheduler.EveryRunMainOk: times are unbounded integers and each step is instantaneous; an error that is handled elsewhere counts as a request still in flight, and an answer of type differenceTooLong, or a failure of the first state, as one that brings no state.
- Packer.HashSha1: lengths of 2^32 - 64 and more are excluded, since there the 32-bit counter of the block loop wraps around and the loop does not end.
- ObserverList.ObservableData.NotifyEnumerate: a data that is reset under an enumeration ends the model of it, where the original goes on with memory that was freed; `ResetsExactlyWhen` says when that is. The table of subscriptions stands for the `Subscription` objects.
- ObserverRuntime.Observables.HandleObservables: is not re-entered, and is called from the event loop only; the handlers of one event are one script, and their list is that of `ObserverList.dfy`.
- ObserverRuntime.Observables.RemoveSubscription: when the last subscription goes while the observable calls its handlers, the data always goes after the event; the original resets it at once if the cursor is elsewhere, which `ObserverList.dfy` models.
- ViewsBatcher.MainWidget.ViewsIncrementDone: which messages are loaded is an input.
- ComposerLifecycle.Composer.constructor: the path for a constructor that throws is not modelled; sizes are unbounded, and the memory itself is a map from index to component.
- DialogRequests.ApiWrap.RequestDone: request ids, the peers of the request and the session guard of the posted call are not modelled.
- WebPages.ApiWrap.RequestWebPageDelayed: the time at which a page is due changes only where this model changes it; INT_MAX as a time to wait stands for none.
- WebPages.ApiWrap.ClearWebPageRequest: `clearWebPageRequests` is the same for all pages and would only add an easy member.
- WebPages.ApiWrap.GotWebPages: only the end of gotWebPages, after the messages were added.
- StripComments.StripAll: the byte before the buffer, which the original reads when the first byte is a backslash, is taken not to be a backslash; the `reserve` calls are not modelled.
- Settings.AuthSessionSettings.ConstructFromSerialized: the selector tab and the tabs flag that are kept in QSettings are left out, but for the flag as a parameter; autoDownload is an opaque array with a predicate that accepts it; a null string is read as an empty one, and written as one of length zero.
- Settings.RatioBack: ratios are reals, and qRound does not overflow, as it would beyond 2147.
- SettingsStream.DataStream.ReadFields: a negative count makes the stream bad, where the original counts until its integer overflows; and reading stops at the first failure, where the original goes on with a stream that stays bad.
- FlatMaps.FlatMap.Find: `std::lower_bound` is a binary search; a comparator is given by integer ranks of the keys, and flat_multi_map is the multi set of its pairs.
- FlatSets.FlatSet.Merge: `std::sort` is modelled by what is known of it, so which of two equal elements stays is open; `modify` is left out, since it only repairs a move past one neighbour.
- FeedMessages.FeedMsgs: whether a message is skipped is an input.
- BinaryGuard.Memory.Destroy: memory order is sequential, and one guard object is not used by two threads at once, as the original requires.
- LastUsedCache.Cache.Up: the nodes of the list are numbers, and their order a sequence; next and prev pointers are not modelled.
- PeerUpdates.Updates.PeerUpdatedSendDelayed: the capacity that is swapped back into the empty list, and the delayed call that leads to the flush, are not modelled.
