# Guest simulator: a verified model

The guest simulator plays guests of a resort. A journey registers a guest, walks at random through a
booking graph, selects a stay, pays, waits for messages on the guest's queue, and then lives through the
stay in a WebSocket dialogue that is gated by the time of day. Many journeys go on at once and share one
keyed cache. This project models that behaviour and proves what holds for every input, every interleaving
and every failure of the outside world.

| file | what it models |
|---|---|
| `Calendar.dfy` | UTC days and hours as integer seconds |
| `Wrappers.dfy` | the option type and the list function used by the plans |
| `LodgingPlan.dfy` | message vocabulary, action tables, dated plans |
| `LodgingScript.dfy` | a stay as a flat script and the meaning of a script against any environment |
| `LodgingStep.dfy` | the lodging step with its loops, each proved to mean its piece of script |
| `LodgingTheorems.dfy` | what every run of every script keeps, and exactly when it succeeds |
| `LodgingDefault.dfy` | the default flow: dialogue, schedule, actions, replies, for stays of any length |
| `ChatClient.dfy` | reader and caller of the chat client as interleaved steps, and the client's loops |
| `LodgingChat.dfy` | a stay over the chat client |
| `GuestBus.dfy` | overflow queue, subscriber channels and waiter; when they keep the order; the three-type bus on top |
| `TimeGate.dfy` | hour events, forwarding goroutine and waiter; which waits pass and which still can |
| `StaySelection.dfy` | availability search, stable sort, deduplication |
| `StepGraph.dfy` | weighted choice and the booking graph |
| `Journey.dfy` | the whole journey on its cached record and its bus, with cleanup |
| `JourneyOutcome.dfy` | what a journey meets and what comes of it |
| `JourneyIsolation.dfy` | many journeys on one store |
| `JourneyPool.dfy` | the slots of the concurrent journeys |

How the outside world enters: inbound messages, hour events, deliveries, schedules, random numbers and the
answers of remote calls are arbitrary parameters; cache faults and cancellation are arbitrary choices inside the
methods. A failing operation has no effect. Concurrent parts are event machines: an event is one atomic step, a run is any
sequence of events, and a disabled event does not happen.

Assumptions that claims rest on, each explicit in a contract: cache operations fail once a journey is
cancelled (a cancelled flow ends without an error, so without this a journey could skip a stage);
`reliable` in the cleanup and success claims means that cache and channel operations do not fail and nobody
cancels;
`Quiet` in the success criterion means that every time gate passes and no write fails; `Honest` in the
stop-and-wait claims means fresh message ids and a peer that acknowledges only ids already written.

Properties one might expect of the code and that it does not have. Each line names the lemma with the failing
case and, where there is one, the lemma with the exact condition under which the property holds:

- A wait for an hour does not always pass when the hour strikes. A case is `TargetHourCanBeMissed`. A
  drained, uncancelled wait passes if and only if its one look at the clock saw the target reached or an event
  of the target hour was offered while the wait was on the list with a free channel (`PassesIff`); and at any
  moment a wait can still pass if and only if it is `Hopeful` (`CanPassIff`): once the target hour is over and
  none of its events is under way, never.
- The bus is not first-in first-out, and a wait can lose the earlier of two messages (`LaterMessageOvertakes`).
  It is in order, with nothing lost, at every moment of a run if and only if every step keeps the turn
  (`InOrderIff`, with the guards of `KeepsTurn`).
- A queued message that would match is not always reached (`QueuedMatchIsStranded`). Message i of the queue a
  wait starts with is handled if and only if at least i messages have come through the channel without matching
  and the waiter has looked since; for a blocked waiter, if and only if at least i messages came through its
  channel (`QueuedReachedIff`).
- Gate times increase if and only if the stay has a night (`ScheduleOrder`); for others checkout precedes
  check-in. Selected stays have at least three nights (`SelectedStayHasANight`).
- A confirmed send need not have been accepted: an ack of any status confirms (`AnyStatusConfirms`), and no run
  depends on the status of any ack (`StatusIsNeverRead`). With fresh ids and a peer that acknowledges only ids
  already written, a confirmed send was accepted if and only if the first ack the peer sent for it says so
  (`AcceptedIff`).
- The read loop can get stuck on acks that nobody takes (`UnsolicitedAcksBlock`). It is stuck on an ack if and only
  if more acks than the channel holds were read beyond those taken (`BlockedOnAckIff`), which cannot happen before
  the first failed send if the peer acknowledges each id at most once and after it was written
  (`HonestPeerNeverBlocks`).
- The documented check-in message never matches. The documentation asks for the start date and shows 15:00; the
  code compares instants, and stays start at midnight (`DocumentedCheckinNeverMatches`). The message that does
  match is unique (`CheckinMatchesIff`).
- The stay plan does not cover every day: its offsets are exactly 0 and 2 up to the last full day (`StayShape`),
  since the recurring days start at offset 2.

## Model

| member | source | states |
|---|---|---|
| LodgingPlan.ExpandPlan | internal/app/steps/lodging_step/run_lodging.go:158-169 | every table entry is dated with the offset, in table order |
| LodgingPlan.BuildStayActionPlan | internal/app/steps/lodging_step/run_lodging.go:144-152 | the built plan is the first day followed by the recurring day on offsets 2 up to the last full day |
| LodgingPlan.StayShape | internal/app/steps/lodging_step/run_lodging.go:144-169 | a stay of n nights has 4+7·max(0,n−2) steps on exactly the offsets 0 and 2..n−1, all below the checkout offset |
| LodgingMessages.MatchesIff | internal/infra/websocket/lodging_chat.go:92-95 | a wait is satisfied exactly by a message that says what it waits for; system messages are exactly the specified notifications and requests |
| LodgingStep.RunLodging.WaitUntil | internal/app/steps/lodging_step/run_lodging.go:282-321 | one look at the clock, then the select loop; succeeds exactly when the gate machine passes on the scheduled interleaving, wherever the time service stands when the wait starts |
| LodgingStep.RunLodging.WaitForNextSystemMessage | internal/infra/websocket/lodging_chat.go:85-99 | hands out the next notification or request, skips exactly the messages that are neither, fails only at the end |
| LodgingStep.RunLodging.Expect | internal/app/steps/lodging_step/run_lodging.go:395-433 | consumes up to and including the first matching message, or everything and fails |
| LodgingStep.RunLodging.FinishCheckin | internal/app/steps/lodging_step/run_lodging.go:361-393 | answers document and booking requests until check-in completes; equals the desk meaning for any flow and failures, whose replies RepliesAreRight and PapersAreShown fix |
| LodgingStep.RunLodging.WaitForActionGate | internal/app/steps/lodging_step/run_lodging.go:244-280 | time, notification and request gates in this order; the returned message is the one that opened the request gate |
| LodgingStep.RunLodging.ExecuteActionPlan | internal/app/steps/lodging_step/run_lodging.go:171-201 | the loop over a plan means the plan's script |
| LodgingStep.RunLodging.ExecuteCheckoutPlan | internal/app/steps/lodging_step/run_lodging.go:203-242 | the same for checkout, answering the key request with the key |
| LodgingStep.RunLodging.Execute | internal/app/steps/lodging_step/run_lodging.go:99-127 | the whole step means the stay's script, for any flow and any environment |
| LodgingTheorems.RunFollowsScript | internal/app/steps/lodging_step/run_lodging.go:171-280 | in every run, failing or not, the trace is a prefix of the script, and the whole of it exactly on success |
| LodgingTheorems.NoActionBeforeItsTime | internal/app/steps/lodging_step/run_lodging.go:255-321 | in every run, whatever events the services drop and however waits interleave with them, an action behind a hold is sent only after an event at or after the hold's target was accepted; with events that never go back, the latest accepted is one |
| LodgingTheorems.HoldSucceedsIff | internal/app/steps/lodging_step/run_lodging.go:282-321 | an uncancelled, drained wait of a stay succeeds if and only if the gate for its very target was opened |
| LodgingTheorems.NoActionBeforeItsMessage | internal/app/steps/lodging_step/run_lodging.go:263-280 | an action after a message gate is sent only after a matching message was consumed for this gate |
| LodgingTheorems.RunIsDisciplined | internal/app/steps/lodging_step/run_lodging.go:361-393 | replies answer earlier requests of their kind under their correlation ids, no request twice |
| LodgingTheorems.RunSucceedsIff | internal/app/steps/lodging_step/run_lodging.go:395-433 | greedy skipping is complete: success exactly when the wants embed into the messages; the messages heard are the pointwise earliest embedding and the run stops right behind it |
| LodgingTheorems.GreedyIsEarliest | internal/app/steps/lodging_step/run_lodging.go:400-412 | taking the first match is pointwise no later than any other choice |
| LodgingDefault.LodgingSucceedsIff | internal/app/steps/lodging_step/run_lodging.go:101-127 | a default stay of any length succeeds exactly when its dialogue is a subsequence of the inbound messages, and then hears exactly the earliest one |
| LodgingDefault.DefaultWants | internal/config/lodging_flow.go:35-66 | the dialogue: check-in complete, key, dinner, (breakfast, dinner) per middle day, key request, check-out complete |
| LodgingDefault.DefaultStay | internal/config/lodging_flow.go:35-66 | everything a default stay waits for, hears, answers and does, entry by entry with its times in seconds, for every number of nights |
| LodgingDefault.ActionTraceRefinesPlan | internal/app/steps/lodging_step/run_lodging.go:101-127 | actions sent are a prefix of show-up, key, stay plan, checkout plan in every run of every flow, all of them on success |
| LodgingDefault.ScheduleOrder | internal/app/steps/lodging_step/run_lodging.go:323-345 | gate times over the whole stay strictly increase if and only if the stay has a night |
| LodgingDefault.SleepAlternates | internal/config/lodging_flow.go:44-64 | sleep and wake-up alternate over the stay and end awake |
| LodgingDefault.OneKeyTakenAndReturned | internal/app/steps/lodging_step/run_lodging.go:99-118 | of all replies a run sends, those about the key are a prefix of one receipt and one return naming the same key, and both on success |
| LodgingDefault.ReplyDiscipline | internal/app/steps/lodging_step/run_lodging.go:203-222 | reply discipline for every default run, failing or not |
| LodgingDefault.RepliesAreRight | internal/app/steps/lodging_step/run_lodging.go:366-392 | in every default run, failing or not, every reply gives what its request asks for: document id, booking id, key received, key returned |
| LodgingDefault.PapersAreShown | internal/app/steps/lodging_step/run_lodging.go:366-392 | if no write fails, each request for papers consumed before check-in is complete is answered |
| LodgingChat.StayConsumesWhatWasRead | internal/infra/websocket/lodging_chat.go:85-189 | over every interleaving of reader and caller, a stay consumes the first non-ack messages read, in order, each with its acknowledgement attempted, and replies only to requests read |
| LodgingChat.StayHearsTheEarliestDialogue | internal/app/steps/lodging_step/run_lodging.go:395-433 | a successful stay heard the earliest dialogue in all the client read |
| ChatClient.StepRefinesQueue | internal/infra/websocket/lodging_chat.go:101-189 | each step of the read loop or the caller enqueues, dequeues the oldest or leaves the abstract queue alone |
| ChatClient.RunIsFifo | internal/infra/websocket/lodging_chat.go:101-189 | for every interleaving, handed out + pending + channel + in hand is what was read, in order; channels stay bounded |
| ChatClient.OldestCanBeHandedOut | internal/infra/websocket/lodging_chat.go:101-189 | the oldest message not handed out can always be handed out next, whatever the reader holds |
| ChatClient.WaitingCallerFreesReader | internal/infra/websocket/lodging_chat.go:153-172 | a caller waiting for an ack always frees a reader with a message to pass, and the queue stays as it is |
| ChatClient.RunReportsOnce | internal/infra/websocket/lodging_chat.go:101-119 | the reader's error is waiting or was returned once, and only a reader that ended has one |
| ChatClient.ErrorIsTaken | internal/infra/websocket/lodging_chat.go:160-163 | an error returned without cancellation is the reader's and is gone |
| ChatClient.RunAcksOnce | internal/infra/websocket/lodging_chat.go:121-151 | acknowledgement attempts are exactly the ids read, once each and in order |
| ChatClient.AckedBeforeVisible | internal/infra/websocket/lodging_chat.go:121-128 | a message with an id has its ack attempted before the caller can see it |
| ChatClient.RunStopsAndWaits | internal/infra/websocket/lodging_chat.go:153-172 | until a send fails, all sends but the current one are confirmed in order; each by an ack of its own; acks are conserved |
| ChatClient.HonestIds | internal/infra/websocket/lodging_chat.go:61-83 | with fresh ids and an honest peer, written ids are distinct and every ack read is for a written id |
| ChatClient.FreshWriteHasNoAck | internal/infra/websocket/lodging_chat.go:153-167 | no ack of a fresh id is around when its send starts, so success means this message was acknowledged |
| ChatClient.AtMostOneUnacknowledged | internal/infra/websocket/lodging_chat.go:153-172 | until a send fails, an unacknowledged guest message is the last one written and is being waited for |
| ChatClient.StatusIsNeverRead | internal/infra/websocket/lodging_chat.go:164-168 | the same run happens whatever statuses the acks carry |
| ChatClient.AnyStatusConfirms | internal/infra/websocket/lodging_chat.go:164-168 | an ack of any status, a rejection too, confirms a send |
| ChatClient.AckConfirms | internal/infra/websocket/lodging_chat.go:164-168 | a waiting caller is confirmed as soon as its ack comes with no other ack in the way |
| ChatClient.AcceptedIff | internal/infra/websocket/lodging_chat.go:153-172 | with fresh ids and an honest peer a send is ended by the first ack read for its id, so a confirmed send was accepted if and only if that ack says accepted |
| ChatClient.BlockedOnAckIff | internal/infra/websocket/lodging_chat.go:121-124 | in every run the read loop is stuck on an ack if and only if more acks than the channel holds were read beyond those taken |
| ChatClient.StaysBlocked | internal/infra/websocket/lodging_chat.go:174-189 | asking for messages never frees a read loop stuck on an ack, and nothing more is read |
| ChatClient.UnsolicitedAcksBlock | internal/infra/websocket/lodging_chat.go:121-124 | one more unsolicited ack than the channel holds blocks the read loop |
| ChatClient.HonestPeerNeverBlocks | internal/infra/websocket/lodging_chat.go:121-172 | with fresh ids and at most one ack per written id, until a send fails at most one ack is under way and the read loop is never stuck on it |
| ChatClient.Client.SendAndWaitAck | internal/infra/websocket/lodging_chat.go:153-172 | follows its schedule: acknowledged if and only if, while it waits, the select takes an ack for its id; an error if and only if the write fails or, while it waits, the select picks an error; else still waiting at the end |
| ChatClient.Client.NextMessage | internal/infra/websocket/lodging_chat.go:174-189 | set-aside messages first; else follows its schedule: a message if and only if the select picks the channel first, an error if and only if it picks one first, else nothing yet; always the oldest message read and not handed out |
| TypedBus.MessageBus.Notify | internal/app/journey/journey_services/guest_communication_bus.go:218-231 | every free subscriber gets the message, busy ones keep theirs; reports whether any took it |
| TypedBus.MessageBus.PublishMessage | internal/app/journey/journey_services/guest_communication_bus.go:160-176 | queued exactly when no subscriber took it |
| TypedBus.MessageBus.TakePending | internal/app/journey/journey_services/wait_payment_request.go:103-113 | pops the oldest queued message |
| TypedBus.MessageBus.Wait | internal/app/journey/journey_services/wait_payment_request.go:16-48 | follows its schedule from subscribing to unsubscribing: returns a message if and only if, while it waits, it tries that message and it matches; gives up if and only if, while it waits, the select says so; else still waiting |
| TypedBus.PublishedIsTaken | internal/app/journey/journey_services/guest_communication_bus.go:160-176 | a message published to a blocked waiter with a free channel is the one it takes next |
| TypedBus.QueuedIsTaken | internal/app/journey/journey_services/wait_payment_request.go:21-30 | a waiter that starts takes the oldest queued message |
| TypedBus.RunConserves | internal/app/journey/journey_services/wait_payment_request.go:16-113 | published = pending + buffered + handled + abandoned as multisets over every interleaving; at most one abandoned per ended wait |
| TypedBus.LaterMessageOvertakes | internal/app/journey/journey_services/wait_payment_request.go:21-46 | a run in which the later message is accepted and the earlier one lost |
| TypedBus.InOrderIff | internal/app/journey/journey_services/wait_payment_request.go:16-113 | over distinct messages, handled + buffered + queued is what was published, in order and with nothing lost, at every moment of a run if and only if every step keeps the turn |
| TypedBus.QueuedReachedIff | internal/app/journey/journey_services/wait_payment_request.go:21-46 | message i of the queue is handled in a wait if and only if at least i messages came through the channel without matching and the waiter looked since, else it is still queued; for a blocked waiter, if and only if at least i messages came through its channel |
| TypedBus.QueuedMatchIsStranded | internal/app/journey/journey_services/wait_payment_request.go:21-46 | without traffic the second of two queued messages stays queued |
| GuestBus.RunIsSound | internal/app/journey/journey_services/guest_communication_bus.go:52-158 | all three types conserved; each delivery taken is settled once and in order, acked exactly if it was dispatched and decoded; each type published exactly what came for it, in order |
| GuestBus.SettledByContent | internal/app/journey/journey_services/guest_communication_bus.go:68-158 | a delivery is acked if and only if it is a decoded payment request, booking confirmation or check-in message, and what it held was published on the bus of its type |
| GuestBus.PublishedByContent | internal/app/journey/journey_services/guest_communication_bus.go:116-158 | nothing is published but what a delivery of its type held |
| GuestBus.DeliveryReachesWaiter | internal/app/journey/journey_services/guest_communication_bus.go:52-79 | with a free goroutine a delivery is taken, published on its bus and acked |
| GuestBus.WaitHears | internal/app/journey/journey_services/wait_payment_request.go:16-48 | a message that passes the test, delivered while the wait listens with nothing queued, is accepted and its delivery acked, for each of the three types |
| GuestBus.WaitHearsQueued | internal/app/journey/journey_services/wait_payment_request.go:21-30 | the oldest queued message, if it passes the test, is accepted at once |
| GuestBus.WaitHearsArrival | internal/app/journey/journey_services/guest_communication_bus.go:160-176 | what arrives while nobody waits is kept, and accepted by the next wait if it passes the test |
| GuestBus.AckedIsPublished | internal/app/journey/journey_services/guest_communication_bus.go:52-79 | between deliveries the acked count is the published count over the three types |
| GuestBus.AcceptedWasDelivered | internal/app/journey/journey_services/guest_communication_bus.go:52-158 | every message a wait accepted came in a delivery of its type that was taken and is acked once settled |
| StaySelection.PickNearestSuitablePeriod | internal/app/steps/booking_step/select_period.go:180-210 | the clamped scan returns the earliest of all feasible days, and none exactly when there is none |
| StaySelection.FirstFittingOption | internal/app/steps/booking_step/select_period.go:119-132 | stopping at the first night option that fits gives the best stay of the cottage and window |
| StaySelection.SortStable | internal/app/steps/booking_step/select_period.go:140-151 | sorted permutation that keeps tied candidates in their order |
| StaySelection.UniqueStayCandidates | internal/app/steps/booking_step/select_period.go:216-230 | keeps exactly the candidates whose key did not occur before |
| StaySelection.FirstOnlyIsExact | internal/app/steps/booking_step/select_period.go:216-230 | every key once, none lost, head unchanged |
| StaySelection.HeadIsOptimal | internal/app/steps/booking_step/select_period.go:136-153 | the head of the sorted candidates is the optimum of the whole search space |
| StaySelection.CollectStayCandidates | internal/app/steps/booking_step/select_period.go:110-154 | fails exactly when some request fails; else the head is optimal, and empty exactly when no stay exists |
| StaySelection.SelectStay | internal/app/steps/booking_step/select_period.go:83-108 | the selection is the optimum by start, nights, name over everything; no suitable period exactly when there is no stay |
| StaySelection.BestIff | internal/app/steps/booking_step/select_period.go:83-154 | best means: on offer, and before every stay on offer by start, then by nights, then by the first character in which the cottage names differ |
| StaySelection.StayIff | internal/app/steps/booking_step/select_period.go:20-24 | the search space by its numbers: seven windows, five numbers of nights, whole UTC days inside an answered period, five days out or later |
| StaySelection.OptimumIsUnique | internal/app/steps/booking_step/select_period.go:140-151 | the optimum is one stay |
| StaySelection.SelectedStayHasANight | internal/app/steps/booking_step/select_period.go:20-24 | selected stays have at least three nights, start on a midnight five days out or later |
| TimeGate.PassedMeansTimeHasCome | internal/app/steps/lodging_step/run_lodging.go:282-321 | a wait passes only after an event at or after its target was accepted, whatever is dropped |
| TimeGate.RunIsSound | internal/app/services/time_event_service.go:121-143 | every time under way or current was accepted |
| TimeGate.PassesIff | internal/app/steps/lodging_step/run_lodging.go:282-321 | a drained wait that nobody cancels, started at any point of the service's announcing, passes if and only if its look at the clock saw the target reached or a qualifying event was offered to it while its channel was free |
| TimeGate.CanPassIff | internal/app/steps/lodging_step/run_lodging.go:282-321 | at any moment some continuation passes if and only if the wait has not looked yet, an event that ends it is under way, or the target hour is still open |
| TimeGate.GivenUpIsLost | internal/app/services/hour_notification_service.go:27-43 | a cancelled wait, and one whose forwarder ended with nothing notified, never passes |
| TimeGate.TargetHourCanBeMissed | internal/app/steps/lodging_step/run_lodging.go:291-300 | a run that misses the target hour because registration comes late; one hour later no continuation passes |
| WeightedChoice.PickRandomWeighted | internal/app/services/step_selector_service.go:9-29 | returns the item whose cumulative interval holds r·total; the last item only when no weight is positive |
| WeightedChoice.ChosenIsUnique | internal/app/services/step_selector_service.go:17-28 | intervals do not overlap |
| BookingGraph.EdgeIff | internal/config/booking_flow.go:39-69 | the edges of the graph are exactly the eleven listed |
| BookingGraph.ChoiceIsNextStep | internal/app/flows/flow.go:55-61 | the step chosen for each interval of the random number |
| BookingGraph.PickFollowsEdge | internal/app/flows/flow.go:55-61 | a pick follows a positive edge of the graph |
| BookingGraph.BooksAtMostOnce | internal/config/booking_flow.go:39-69 | on every walk the booking step comes at most once, directly after a period selection, and only the end follows |
| GuestJourney.GuestJourney.CreateGuest | internal/app/journey/guest_journey.go:139-164 | sets guest and key, creates a fresh record under it |
| GuestJourney.GuestJourney.RegisterGuest | internal/app/steps/register_guest_step/register_guest.go:44-89 | sets the guest id answered, in the state and in the record, and keeps the rest; with a reliable cache it succeeds if and only if the service answers; the guest check cannot fail |
| GuestJourney.GuestJourney.SetupCommunication | internal/app/journey/journey_services/guest_communication.go:24-72 | succeeds if and only if there is a guest id and queue, binding and consumer are granted; attached, or closed once, or untouched when the guest id is missing |
| GuestJourney.GuestJourney.ExecuteSelectCottage | internal/app/steps/booking_step/select_cottage.go:29-63 | never indexes an empty list; leaves a booking context |
| GuestJourney.GuestJourney.ExecuteSelectPeriod | internal/app/steps/booking_step/select_period.go:61-108 | saves cottage and period of the optimum of this search; the nil-booking check cannot fail |
| GuestJourney.GuestJourney.ExecuteBookCottage | internal/app/steps/booking_step/book_cottage.go:46-101 | books the last selected stay; guest, nil-booking, period and already-booked checks cannot fail |
| GuestJourney.GuestJourney.Turn | internal/app/flows/flow.go:42-63 | a turn executes its step and establishes what every possible next step needs |
| GuestJourney.GuestJourney.PickNext | internal/app/flows/flow.go:55-61 | follows an edge, namely the one whose interval holds the random number |
| GuestJourney.GuestJourney.BookingFlow | internal/app/flows/flow.go:28-64 | executed steps are a walk on the graph; at most one booking, of the selected stay; with a reliable cache the walk fails, goes on or ends with a booking exactly as the draws and answers have it |
| GuestJourney.GuestJourney.SyncStateCache | internal/app/journey/journey_services/cache_service.go:45-74 | puts the guest id into the record and keeps the rest; succeeds only if not cancelled, and always with a reliable cache |
| GuestJourney.GuestJourney.WaitPaymentRequest | internal/app/journey/journey_services/wait_payment_request.go:16-89 | a wait on the bus that accepts only a request for the booked cottage and the guest's email, and records its trimmed invoice; with a reliable cache it succeeds if and only if some message the bus handed it matches |
| GuestJourney.GuestJourney.PaymentFlow | internal/app/steps/payment_step/pay_invoice.go:50-110 | pays exactly the recorded invoice and records the receipt; its context checks cannot fail; with a reliable cache it succeeds if and only if the service answers |
| GuestJourney.GuestJourney.WaitBookingConfirmation | internal/app/journey/journey_services/wait_booking_confirmation.go:14-69 | a wait on the bus that accepts only a CONFIRMED message for the booking and guest; with a reliable cache if and only if the bus handed it one |
| GuestJourney.GuestJourney.WaitCheckinToday | internal/app/journey/journey_services/wait_checkin_today.go:14-74 | a wait on the bus that accepts only a check-in message for booking, guest, cottage and start; with a reliable cache if and only if the bus handed it one |
| JourneyState.PaymentMatchesIff | internal/app/journey/journey_services/wait_payment_request.go:50-89 | once booked, a payment request matches exactly if it has an invoice number, a positive total with currency, the booked cottage and the guest's email |
| JourneyState.ConfirmationMatchesIff | internal/app/journey/journey_services/wait_booking_confirmation.go:47-69 | once booked, exactly one confirmation matches |
| JourneyState.CheckinMatchesIff | internal/app/journey/journey_services/wait_checkin_today.go:51-75 | once booked, exactly one message matches, and it names a midnight |
| JourneyState.DocumentedCheckinNeverMatches | internal/app/journey/journey_services/wait_checkin_today.go:71-73 | the documented example, and any 15:00 check-in on the right day, is never accepted |
| GuestJourney.GuestJourney.LodgingFlow | internal/app/steps/lodging_step/run_lodging.go:75-142 | starts the stay with the booked period and ids; its context checks cannot fail; with a reliable cache it succeeds if and only if the chat connects and the stay's script completes |
| GuestJourney.GuestJourney.Cleanup | internal/app/journey/guest_journey.go:173-189 | deletes the record and closes an attached channel once; touches no other record |
| GuestJourney.GuestJourney.Start | internal/app/journey/guest_journey.go:56-137 | whole-journey order about one booking, the optimum of the last search; every message accepted came in a delivery of its type, acked once settled; the queue is set up before anything is booked or delivered; a reliable journey succeeds if and only if it Prospers: registered, set up, the draws lead to a booking, each wait hears a match, the payment and the chat are answered and the stay completes; one key throughout; no cached-context check can fail; cleanup on every way out |
| JourneyOutcome.ShortestWalkBooks | internal/app/flows/flow.go:40-63 | with every request answered, five draws lead to a booking of the best stay |
| JourneyIsolation.RunsAsIfAlone | internal/infra/redis/cache.go:59-98 | any interleaving of journeys with distinct keys leaves each one's loads and record as if it ran alone |
| JourneyIsolation.StepLoadsAndStores | internal/infra/redis/cache.go:59-98 | a step loads what is stored under the journey's key, stores what it saves, and nothing else |
| JourneyIsolation.InterleaveSnoc | internal/infra/redis/cache.go:59-98 | an interleaving is made of the steps its schedule names |
| JourneyIsolation.KeysAreDistinct | internal/app/journey/guest_journey.go:160-163 | keys are equal if and only if the lower-cased document ids are |
| JourneyIsolation.DistinctGuestsRunAsIfAlone | internal/app/journey/guest_journey.go:160-163 | journeys of guests with distinct lower-cased document ids run as if alone, whatever the interleaving |
| JourneyPool.SlotsAreConserved | internal/main.go:96-128 | live journeys plus notices make up the level between turns; a journey that ends never blocks |
| JourneyPool.EndedJourneyIsReplaced | internal/main.go:119-126 | between loop turns the notice of a journey that ends is taken and a new one started in its place |
| JourneyPool.NothingStartsAfterStop | internal/main.go:119-123 | after shutdown no journey is started and live ones only get fewer |

## Left out

- Wire formats (protobuf, JSON, HTTP, AMQP, Redis, WebSocket framing): messages are datatypes, decoding may fail, remote calls answer arbitrarily.
- Telemetry, logging, probes, configuration loading and container files: they carry no property.
- Integer width of durations, sub-second times and rounding of weights: unbounded integers in seconds and reals.
- Liveness under the scheduler: only safety, and termination over finite schedules.
- The three typed copies of the bus and of the wait loop: one generic bus, used at three message types.
- Bus reset on cleanup and several waiters at once on one message type: a journey's waits follow one another, and nothing reads the bus after cleanup.
- Time-event and hour-notification services as objects: modelled on values as steps of one wait, so other subscribers and channel identities are not captured.
- Chat client and bus objects keep their fields in one value that methods replace: sharing by pointer between goroutines is not captured, the interleaving of atomic steps is.
- Sorting of the night options: the constant list is already ascending, which the search requires.
- The key text of the deduplication: modelled as the triple it formats.
- Account retrieval, end step, no-op step, process start and shutdown order: they would only add easy members.
- The lodging run and the chat client meet at the messages handed out; whether a write of the run fails is a choice of its environment.
- GuestJourney.GuestJourney.BookingFlow: stops when the given draws are used up, reporting the journey as unfinished; the program would go on.
- GuestJourney.GuestJourney.WaitPaymentRequest: like the two other waits, reports the journey as unfinished when the given schedule ends while it still waits; the program would go on waiting.
