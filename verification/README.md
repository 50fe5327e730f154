# Verification of the litter box firmware

A Dafny 4.11 project about the parts of the firmware in which a wrong step is hard to see: the MQTT 5.0 client's
delivery of messages, the cleaning sequence of the motors, the button driver, the reassembly of the sensor stream,
the cat detector, the sharing out of water and the list of access points. `dafny verify dfyconfig.toml` checks all of it.

Code that changes its state in place is modelled in place, by classes and methods with loops. Each such method is
proved to do exactly what a function of the old state says, and the main results are lemmas about those functions,
over every run of events.

- `MqttOutbox`, `MqttRequeue`, `MqttDelivery`, `MqttTurns`, `MqttProgress`, `MqttClient`: packets from the call of the
  API to their completion. The client is a machine of atomic steps (API calls, turns of its loop, acknowledgements, expiry,
  reconnects), `Wire` records what the broker has seen, and the invariant ties the in-flight counter to it.
- `MqttFragment`, `MqttReceive`, `MqttKeepAlive`, `MqttAlias`: long messages out and in, pings, topic aliases.
- `CleaningLog`, `CleaningPlan`, `CleaningGuard`, `CleaningAccounts`, `CleaningEnvironment`, `CleaningSequencer`: one
  cleaning against an arbitrary script of sensor words, motor flags, distances, clock readings, presses of the stop and
  pause buttons, and commands that clear the stop, in any order and number between two looks. Every command, reading
  and change of the flags goes to a log; the interlocks are rules over logs, a verdict says which of them hold, and a
  guard says what has gone out under the flags. A run without end is covered by its beginnings. Methods hide the
  definitions they do not need from the verifier.
- `ButtonHandler`, `ButtonRegistry`: debounce, press sessions, the sorted table of callbacks.
- `LineStream`: the carry buffer and the line parser, at the level of C strings in fixed buffers.
- `Common`: an optional value and a few facts the others share.
- `WaterSplit`, `WifiDedupe`, `CatDetector`: 32-bit proportional shares, an in-place merge, a ring mean and its machine.

## What the proofs turned up

Each of these has an if-and-only-if, a concrete run, or both, in the members named.

- Ids are drawn at random and not checked against the outbox. A packet that draws one already there is sent and stays
  QUEUED, so that it is sent again every turn until the window is full (`SentStaysQueuedIff`, `SentUntilFull`,
  `DrawnTwice`); a subscription that does so marks that other packet as sent (`SubscribedMarksIff`). The requeueing
  after a reconnect ends all the same (`RequeueAlwaysEnds`).
- A fragmented publish that is stored but held back leaves its data offset behind, and the next short publish is
  followed on the wire by bytes that do not belong to it (`WrittenWholeIff`, `SpoiledIff`).
- The window of Receive Maximum widens by completions of packets from an earlier connection, and closes for good by
  packets that expire before they complete (`StaleCompletionWidensWindow`, `ExpiryLeaksWindow`). `FlowControl` says by
  how much, `ConnectionWindowIff` on which connections it can happen, and `NothingLeaks` when nothing does.
- Topic aliases outlive the connection they were set on (`AgreesWithStandardIff`).
- A read that times out in the middle of an incoming message ends the delivery with success, and nothing else does
  before the message is complete (`DeliverPublish`, `FateIff`).
- After an obstacle the press that resumes lets the retract command go out once before the scenario is left: the loop
  that waits ends on the pause flag before it looks at the request. `CheckTofPause` says exactly when, `CleanToExit`
  that nothing else breaks the rule, and `ResumedOverObstacle` is such a run.
- Without an answer of the distance sensor the retract goes out too (`RetractedUnseeing`); `CleanToExit` says exactly
  when every retract had a distance above the limit.
- Every console command but the stop clears the emergency stop, so one that is followed by another command before the
  sequencer looks is never noticed (`StopStandsIff`, `WaitMotor`, `StoppedInVain`).
- With the stop standing one motion may still go out, or the rest of a start of the main cover, or what is left of
  closing the waste cover, or a full turn of the search (`MayFollow`, `OrderlyMeans`, `StoppedInSearch`). The search
  looks neither at the request nor at the pause: paused or resumed there, it goes on with full turns for as long as the
  sensor is not read (`AskedInVain`, `PausedInVain`, `NeverReadNeverEnds`).
- A stop that stands at the exit does not keep a recovery from closing the waste cover (`RecoverWasteCover`), and the
  calibration in it forgets the stop (`CalibrateForRecovery`).
- The recovery moves the waste cover and the scoop where the cleaning would not. `RecoveryKeepsIff` says which rules it
  keeps; `ResumedAtOnce`, `ResumedOverShutCover` and `ResumedUnderway` break every one of them.
- The retries of closing the waste cover do not look at the emergency stop: giving up takes all five motions
  (`CloseWaste`). The calibration forgets a stop that came before it (`Calibrate`).
- With the pause standing a motion may go out too: after CHECK_ESTOP (`CheckStop`, `ReachOut`), after a distance check,
  after the last look of a wait. The list for the pause is that for the request and the turn after the 90 seconds.
- A debounce of 8 ticks makes the button dead (`PressesAtAllIff`). A comment in the source calls 8 the maximum
  (managed_components/espressif__button/iot_button.c:93); the component's configuration admits 1 to 7 and is right.
- A long press in the first tick past the short press time is refused and yet leaves an entry (`RefusalSparesIff`).
- A read that overflows the carry buffer drops the line begun (`ExactIff`), and one that fills it without a NUL byte
  runs the parser off its end (`FullReadRunsOff`).
- A scan that overflows the list of access points can keep out a new name for the sake of records of known ones
  (`BatchIff`, `KnownNameCrowdsOut`); a later scan can bring it back (`FinalIff`, `BroughtBack`).
- A device of the water bowl that is disabled twice between settlements loses its earlier stretch (`SettledInFullIff`).
- Water is conserved exactly as long as the times add up in 32 bits (`ConservesIff`). Nothing calls the function that
  counts the time, nor the settlement: main/ble/ble_tracker_id.c:130-144 and 74-119 have no caller.

## Model

| member | source | states |
|---|---|---|
| `MqttOutbox.First` | managed_components/espressif__mqtt/lib/mqtt_outbox.c:75-99 | finds the first packet in list order with the id or state asked for, and says so when none has it |
| `MqttOutbox.UnexpiredAt` | managed_components/espressif__mqtt/lib/mqtt_outbox.c:198-213 | one turn of the expiry loop either keeps the packet and moves on or cuts it out and stays; what is still to come is unchanged |
| `MqttOutbox.TotalLenWithout` | managed_components/espressif__mqtt/lib/mqtt_outbox.c:101-116 | deleting a packet takes exactly its length off the bytes stored |
| `MqttOutbox.Outbox.Find` | managed_components/espressif__mqtt/lib/mqtt_outbox.c:75-99 | a list search from the head answers the first match |
| `MqttOutbox.Outbox.Enqueue` | managed_components/espressif__mqtt/lib/mqtt_outbox.c:47-73 | the packet joins the end, first part and remaining part joined, QUEUED; the byte count stays the sum of the lengths |
| `MqttOutbox.Outbox.DeleteItem` | managed_components/espressif__mqtt/lib/mqtt_outbox.c:101-116 | removes exactly that packet and keeps the byte count exact |
| `MqttOutbox.Outbox.DeleteById` | managed_components/espressif__mqtt/lib/mqtt_outbox.c:131-145 | removes the first packet with that id and type, or reports that there is none |
| `MqttOutbox.Outbox.MarkPending` | managed_components/espressif__mqtt/lib/mqtt_outbox.c:147-157 | changes the state of the first packet with the id and nothing else |
| `MqttOutbox.Outbox.MarkTick` | managed_components/espressif__mqtt/lib/mqtt_outbox.c:168-178 | changes the tick of the first packet with the id and nothing else, and says whether there is one |
| `MqttOutbox.Outbox.MarkDuplicate` | managed_components/espressif__mqtt/mqtt_client.c:1855-1861 | sets DUP in the stored packet of a QoS 1 or 2 PUBLISH, leaves any other packet as it is |
| `MqttOutbox.Outbox.DeleteExpired` | managed_components/espressif__mqtt/lib/mqtt_outbox.c:198-213 | leaves exactly the unexpired packets, in order, and returns how many went |
| `MqttOutbox.Outbox.DeleteAll` | managed_components/espressif__mqtt/lib/mqtt_outbox.c:220-230 | empties the outbox and its byte count |
| `MqttRequeue.OneTurn` | managed_components/espressif__mqtt/mqtt_client.c:859-879 | with every TRANSMITTED packet the first with its id, one turn of the requeue loop settles the first of them, and the number of them falls by one |
| `MqttRequeue.RequeueTransmitted` | managed_components/espressif__mqtt/mqtt_client.c:847-880 | followed for any number of turns from any outbox, the loop takes exactly those turns; with as many turns as packets it ends if and only if every TRANSMITTED packet is the first with its id, and the outbox is then the old one with every TRANSMITTED packet requeued |
| `MqttRequeue.RequeueEffect` | managed_components/espressif__mqtt/mqtt_client.c:847-880 | nothing is lost, reordered or left TRANSMITTED; ACKNOWLEDGED packets stay; DUP lands on exactly the requeued QoS 1 and 2 PUBLISH packets and no other bit changes |
| `MqttRequeue.RequeueEndsIff` | managed_components/espressif__mqtt/mqtt_client.c:859-879 | over every outbox: the loop ends if and only if every TRANSMITTED packet is the first one with its id; RequeueAlwaysEnds shows that no run leads to another outbox |
| `MqttDelivery.SendOrder` | managed_components/espressif__mqtt/mqtt_client.c:2079-2097 | what is sent next is queued; QoS 1 and 2 packets and subscriptions go in order and not into a full window; only a QoS 0 packet overtakes, and only then |
| `MqttDelivery.PublishKeeps` | managed_components/espressif__mqtt/mqtt_client.c:2568-2704 | a publish call, however it ends, keeps the delivery invariant |
| `MqttDelivery.ReceiveKeeps` | managed_components/espressif__mqtt/mqtt_client.c:1730-1811 | every acknowledgement keeps the delivery invariant |
| `MqttDelivery.SendKeeps` | managed_components/espressif__mqtt/mqtt_client.c:2079-2118 | sending a queued packet keeps the delivery invariant |
| `MqttDelivery.ConnectKeeps` | managed_components/espressif__mqtt/mqtt_client.c:944-951 | an accepted connection restarts the counter and the broker's view together and keeps the delivery invariant |
| `MqttDelivery.StepKeeps` | managed_components/espressif__mqtt/mqtt_client.c:1985-2145 | every step of the machine keeps unique ids, the counter bound and the exact account of the counter: with what was taken from it, it is the open packets and the leaked ones |
| `MqttDelivery.RunKeeps` | managed_components/espressif__mqtt/mqtt_client.c:1972-2195 | every run keeps it |
| `MqttDelivery.RequeueAlwaysEnds` | managed_components/espressif__mqtt/mqtt_client.c:859-879 | after every run, whatever ids were drawn, every TRANSMITTED packet is the first with its id, and the requeue loop of the next connection ends, all of them requeued |
| `MqttDelivery.FlowControl` | managed_components/espressif__mqtt/mqtt5_client.c:381-390 | section 4.9 of MQTT 5.0, over every run, every broker and whatever ids are drawn: counter plus taken is open plus leaked, the counter is within Receive Maximum while connected, and the open packets are within it exactly when what was taken does not exceed what is left of it and what leaked |
| `MqttDelivery.HonestWindow` | managed_components/espressif__mqtt/mqtt5_client.c:25-37 | whatever ids are drawn: in a run whose broker completes only what is open or what the client no longer has, the counter is exactly the open packets plus the leaked ones, so no more than Receive Maximum are open |
| `MqttDelivery.ConnectionWindowIff` | managed_components/espressif__mqtt/mqtt_client.c:1730-1811 | a condition known at the CONNACK: with a broker that completes what is open, once each what an earlier connection left ACKNOWLEDGED, and what the client no longer has, the open packets stay within Receive Maximum in every run of the connection if and only if no publish was ACKNOWLEDGED in the outbox, or Receive Maximum is 0, or it is 65534 or more, as many as there are ids; the same whether ids in use may be drawn or not |
| `MqttDelivery.WindowAppliesToRuns` | managed_components/espressif__mqtt/mqtt_client.c:1972-2195 | every run leads to a state that ConnectionWindowIff speaks of, whatever ids are drawn |
| `MqttDelivery.OutboxWindow` | managed_components/espressif__mqtt/mqtt_client.c:2079-2118 | the publishes of this connection still TRANSMITTED or ACKNOWLEDGED never outnumber the counter by more than what was taken from it, and not at all with such a broker, whatever ids are drawn |
| `MqttDelivery.TransmittedIsOpen` | managed_components/espressif__mqtt/mqtt_client.c:2079-2118 | with unused ids drawn, every TRANSMITTED publish was sent on the present connection |
| `MqttDelivery.StaleCompletionWidensWindow` | managed_components/espressif__mqtt/mqtt_client.c:1792-1800 | a run in which a completion left over from an earlier connection lets two packets be open under a limit of one |
| `MqttDelivery.ExpiryLeaksWindow` | managed_components/espressif__mqtt/mqtt_client.c:1920-1940 | a run in which an expired packet stays counted, so that the window stays shut with nothing open |
| `MqttDelivery.StepSpares` | managed_components/espressif__mqtt/mqtt_client.c:1985-2145 | no step but completion, expiry and stop removes a QoS 1 or 2 PUBLISH, and none changes its bytes but for DUP |
| `MqttDelivery.NothingIsLost` | managed_components/espressif__mqtt/mqtt_client.c:1972-2195 | over every run without those, the packet stays in the outbox, its bytes the same but for DUP |
| `MqttDelivery.PublishIsStored` | managed_components/espressif__mqtt/mqtt_client.c:2532-2566 | a publish of QoS 1 or 2 that passes the checks is in the outbox afterwards, sent or not |
| `MqttTurns.GoesIff` | managed_components/espressif__mqtt/mqtt_client.c:2079-2097 | a turn sends packet i if and only if it is the first queued, or, when the window is full and that one is a PUBLISH of QoS 1 or 2, the first packet without id and that a queued QoS 0 PUBLISH; no function of the engine is named |
| `MqttTurns.TurnEffect` | managed_components/espressif__mqtt/mqtt_client.c:2079-2134 | what a turn leaves, packet by packet: a QoS 0 packet sent is gone, of any other the first with its id is marked with the time, one of QoS 1 or 2 is counted, a failed write only drops the connection; with nothing to send and the time come, what RepeatEffect says, else nothing |
| `MqttTurns.RepeatEffect` | managed_components/espressif__mqtt/mqtt_client.c:2121-2134 | what repeating leaves: bit 3 of the first byte set in the first TRANSMITTED packet exactly when that is older than the timeout and a PUBLISH of QoS 1 or 2, every other bit, byte, field and packet the same; the connection drops exactly when that write fails, or that of the PUBREL for the first ACKNOWLEDGED packet when that is older |
| `MqttTurns.RepeatedWithDup` | managed_components/espressif__mqtt/mqtt_client.c:1855-1861 | the first byte 0x32 of a packet sent at tick 0 is 0x3A after a due turn at 2000 ms with a timeout of 1000 ms |
| `MqttTurns.PublishEffect` | managed_components/espressif__mqtt/mqtt_client.c:2568-2704 | what a publish call leaves: the packet joins exactly when it is of QoS 1 or 2, passes the checks and fits; it counts as sent exactly when connected with room in the window and written; the connection drops exactly when a write is tried and fails |
| `MqttTurns.CallIff` | managed_components/espressif__mqtt/mqtt_client.c:2354-2432 | an enqueue or subscribe call adds its packet exactly under its conditions, a subscription marks the first packet with its id, and a refused call changes nothing |
| `MqttTurns.AcknowledgeEffect` | managed_components/espressif__mqtt/mqtt_client.c:1730-1811 | PUBACK and PUBCOMP take out the first PUBLISH with the id and one of the counter if there is such a packet, PUBREC marks the first packet with the id, SUBACK and UNSUBACK take out theirs; nothing else changes |
| `MqttTurns.ExpireEffect` | managed_components/espressif__mqtt/lib/mqtt_outbox.c:198-213 | expiry keeps exactly the packets of at most 30 s, unchanged and in their order, and leaves counter and connection alone |
| `MqttTurns.PhaseIff` | managed_components/espressif__mqtt/mqtt_client.c:1972-2195 | each phase of the client is reached and left exactly by its events: CONNECTED only by an accepted CONNACK, and left exactly by a failed write, an abort, a refresh and a stop |
| `MqttProgress.SentStaysQueuedIff` | managed_components/espressif__mqtt/mqtt_client.c:2079-2118 | a packet that is sent stays QUEUED if and only if another with its id is ahead of it, and is then unchanged |
| `MqttProgress.PublishedStaysQueuedIff` | managed_components/espressif__mqtt/mqtt_client.c:2689-2691 | a publish written at once stays QUEUED if and only if its id is in the outbox already |
| `MqttProgress.SentUntilFull` | managed_components/espressif__mqtt/mqtt_client.c:2079-2118 | such a packet at the head of the queue is written once for every place left in the window, and is still QUEUED when it is full; nothing else is sent, and every repetition stays counted |
| `MqttProgress.DrawnTwice` | managed_components/espressif__mqtt/mqtt_client.c:2079-2118 | a run of the client in which an id drawn twice fills a window of ten with one open packet |
| `MqttProgress.SubscribedMarksIff` | managed_components/espressif__mqtt/mqtt_client.c:2354-2432 | a subscription stays QUEUED if and only if its id is in the outbox already, and then marks the first packet with that id TRANSMITTED, sent or not; nothing else changes |
| `MqttProgress.MarkedUnsent` | managed_components/espressif__mqtt/mqtt_client.c:2354-2432 | a run in which a publish never sent counts as TRANSMITTED |
| `MqttProgress.AllGoOutIff` | managed_components/espressif__mqtt/mqtt_client.c:2079-2118 | progress: with room in the window and writes that succeed, as many turns as there are packets queued empty the queue if and only if every queued packet with an id is the first with it |
| `MqttProgress.ReconnectSendsAll` | managed_components/espressif__mqtt/mqtt_client.c:944-951 | whatever went before with unused ids: on the next connection every QoS 1 or 2 packet not yet acknowledged goes out, and all else that is queued, in as many turns as there are packets, when the window has room and the writes succeed |
| `MqttProgress.NothingLeaks` | managed_components/espressif__mqtt/mqtt_client.c:1920-1940 | in every run in which no open packet expires nothing leaks, the outbox holds every open packet, and with a broker as in HonestWindow the counter is exactly the open packets |
| `MqttProgress.ExpiryLeaksIff` | managed_components/espressif__mqtt/mqtt_client.c:1920-1940 | after an expiry some completion will leak if and only if an open packet was among what expired |
| `MqttClient.Client.CheckInflightMaximum` | managed_components/espressif__mqtt/mqtt5_client.c:381-390 | admits a packet exactly when the window is not full |
| `MqttClient.Client.Publish` | managed_components/espressif__mqtt/mqtt_client.c:2568-2704 | takes exactly the publish step of the machine and leaves what PublishEffect says; returns the id exactly when the packet was stored and not cut off by a failed write, -2 exactly over the outbox limit, and for QoS 0 the id 0 exactly when it was written |
| `MqttClient.Client.EnqueuePublish` | managed_components/espressif__mqtt/mqtt_client.c:2706-2750 | takes exactly the enqueue step; returns the id exactly when the packet was stored, -2 exactly over the limit, else -1 |
| `MqttClient.Client.Subscribe` | managed_components/espressif__mqtt/mqtt_client.c:2354-2432 | takes exactly the subscribe step: marked TRANSMITTED before it is written; returns the id exactly when it was written, -2 exactly over the limit, else -1 |
| `MqttClient.Client.ExpireMessages` | managed_components/espressif__mqtt/mqtt_client.c:1920-1940 | takes exactly the expiry step, without touching the counter |
| `MqttClient.Client.Receive` | managed_components/espressif__mqtt/mqtt_client.c:1654-1811 | each acknowledgement takes exactly its step and leaves what AcknowledgeEffect says |
| `MqttClient.Client.NextQueued` | managed_components/espressif__mqtt/mqtt_client.c:2079-2097 | chooses the packet the machine sends next |
| `MqttClient.Client.PumpOutbox` | managed_components/espressif__mqtt/mqtt_client.c:2079-2134 | sends the packet that may go, or repeats when none may, and leaves exactly what TurnEffect says |
| `MqttClient.Client.Retransmit` | managed_components/espressif__mqtt/mqtt_client.c:2121-2134 | repeats the first TRANSMITTED packet when it is old, with bit 3 of its first byte set if it is a PUBLISH of QoS 1 or 2, and the PUBREL of the first old ACKNOWLEDGED one; the connection drops exactly when one of these writes fails, and nothing else changes |
| `MqttClient.Client.FinishConnect` | managed_components/espressif__mqtt/mqtt_client.c:944-951 | only an accepted CONNACK resets the counter and requeues; from any outbox, the client is connected exactly when the requeue loop ends |
| `MqttClient.Client.ConnectedTurn` | managed_components/espressif__mqtt/mqtt_client.c:2059-2145 | one turn of the client's loop while connected is a run of the machine's steps, in the source's order and with its early exits |
| `MqttClient.TurnTells` | managed_components/espressif__mqtt/mqtt_client.c:2059-2145 | what a turn does, told by what it leaves: expired packets go, a disconnect ends it, else the packet read takes effect, a failed read ends it, else a packet goes out or is repeated; a failed ping drops the connection, otherwise a refresh starts over |
| `MqttClient.TurnKeeps` | managed_components/espressif__mqtt/mqtt_client.c:2059-2145 | however the turn ends, it keeps the delivery invariant |
| `MqttFragment.StoredWhole` | managed_components/espressif__mqtt/mqtt_client.c:2549-2562 | the outbox is always given the whole message, fragmented or not |
| `MqttFragment.WrittenWholeIff` | managed_components/espressif__mqtt/mqtt_client.c:2645-2677 | the bytes written are the bytes stored if and only if the message is fragmented or the data offset left by an earlier message is no larger than this payload's position |
| `MqttFragment.HeldBackFragmentSpoilsNext` | managed_components/espressif__mqtt/lib/mqtt5_msg.c:1154-1169 | a fragmented message held back by a full window makes the next small publish write 18 payload bytes too many; header lengths are those of the fixed header for the remaining length |
| `MqttFragment.SpoiledIff` | managed_components/espressif__mqtt/mqtt_client.c:81-88 | over every run of packets, control packets, connects and subscriptions among them: a publish that fits the buffer is followed by bytes that do not belong to it if and only if an earlier one was held back in fragments, no request and no written publish has come since, and the offset it left, less what the headers since have shifted it, lies beyond this payload |
| `MqttFragment.WritesWholeIff` | managed_components/espressif__mqtt/mqtt_client.c:818-844 | a packet is written whole, over every script of the transport, if and only if the calls before the first that takes nothing or fails take all of it: the writing does not give up before |
| `MqttFragment.AllWritten` | managed_components/espressif__mqtt/mqtt_client.c:2645-2677 | a transport that takes something with each of as many calls as there are bytes gets every packet of a message written |
| `MqttFragment.Sender.Write` | managed_components/espressif__mqtt/mqtt_client.c:818-844 | writes exactly as much as the transport takes before a call that takes nothing or fails; a good end means, exactly, that this is all of the packet |
| `MqttFragment.Sender.ComposeControl` | managed_components/espressif__mqtt/lib/mqtt5_msg.c:188-219 | a packet without payload shifts the offset by its header; connect, subscribe and unsubscribe clear it first |
| `MqttFragment.Sender.ComposePublish` | managed_components/espressif__mqtt/lib/mqtt5_msg.c:1154-1171 | a payload that does not fit is cut at the buffer's end and its offset noted; otherwise the old offset stays |
| `MqttFragment.Sender.StorePublish` | managed_components/espressif__mqtt/mqtt_client.c:2543-2563 | stores header and payload whole; the total length is cleared and the offset is not |
| `MqttFragment.Sender.SendFragments` | managed_components/espressif__mqtt/mqtt_client.c:2646-2677 | a good end has the first packet and the rest of the payload on the wire, a buffer at a time, else a beginning of them; it ends well exactly when the transport takes each of these packets whole |
| `MqttFragment.Sender.StoreAndSend` | managed_components/espressif__mqtt/mqtt_client.c:2613-2677 | a QoS 1 or 2 publish is stored whole; when every write succeeds, wire and outbox agree if and only if the earlier offset does no harm, and the offset is 0 then; a failed write leaves a beginning of that on the wire; one that is held back leaves the offset that SpoiledIff reckons with; it ends well exactly when it may write and the transport takes each packet whole |
| `MqttReceive.EachByteOnce` | managed_components/espressif__mqtt/mqtt_client.c:1343-1387 | tiling means that every payload byte arrives in exactly one data event |
| `MqttReceive.FateIff` | managed_components/espressif__mqtt/mqtt_client.c:1373-1386 | over every script of reads: the message is complete exactly when the counts bring all that is left before one is not positive, and the reading times out exactly when the first such count is 0, or the script ends there, before that |
| `MqttReceive.PositiveReadsComplete` | managed_components/espressif__mqtt/mqtt_client.c:1373-1386 | as many positive reads as there are bytes left complete the message, however short they are |
| `MqttReceive.Receiver.DeliverPublish` | managed_components/espressif__mqtt/mqtt_client.c:1343-1390 | data events tile the payload from 0 without gap or overlap up to exactly the bytes read, each read fits the buffer, the loop ends; it succeeds with an incomplete message exactly when the reading times out, and fails exactly when a read fails |
| `MqttKeepAlive.TimedOutIsComparison` | managed_components/espressif__mqtt/mqtt_client.c:781-785 | for spans under 2^63 the wrapping test is now >= last + timeout |
| `MqttKeepAlive.MisjudgedIff` | managed_components/espressif__mqtt/mqtt_client.c:781-785 | it is wrong exactly for spans of more than 2^63 past the deadline |
| `MqttKeepAlive.HistoryIsState` | managed_components/espressif__mqtt/mqtt_client.c:787-816 | the fields, the interval in force among them, are what the history of connects, answers and pings says |
| `MqttKeepAlive.KeepAliveIff` | managed_components/espressif__mqtt/mqtt_client.c:787-816 | section 3.1.2.10 of MQTT 5.0: in every run, with the interval that the latest CONNACK with a Server Keep Alive named, else the configured one, a ping is tried exactly with none outstanding and half the interval gone since the connect or the last answer, and goes out exactly when it can be written; the connection is given up exactly with one outstanding and the whole interval gone; neither with an interval of 0; a connection that a failed resend dropped in the same turn makes no difference |
| `MqttKeepAlive.PingAfterDropIff` | managed_components/espressif__mqtt/mqtt_client.c:2121-2136 | after a drop the turn still tries a ping, with no connection standing, if and only if keep-alive is on and half the interval has gone |
| `MqttKeepAlive.Connection.OnConnect` | managed_components/espressif__mqtt/mqtt_client.c:2053-2056 | a connection starts the interval, and a Server Keep Alive in its CONNACK replaces it |
| `MqttKeepAlive.Connection.OnRefusal` | managed_components/espressif__mqtt/lib/mqtt5_msg.c:971-976 | a CONNACK that refuses replaces the interval too, and nothing else |
| `MqttKeepAlive.Connection.OnPingResponse` | managed_components/espressif__mqtt/mqtt_client.c:1813-1822 | an answer restarts it |
| `MqttKeepAlive.Connection.Abort` | managed_components/espressif__mqtt/mqtt_client.c:997-1009 | a dropped connection waits for no answer |
| `MqttKeepAlive.Connection.ProcessKeepAlive` | managed_components/espressif__mqtt/mqtt_client.c:787-816 | takes the step of the machine, whether the connection stands or not, fails exactly on a missing answer or a failed ping, and sends at most one ping |
| `MqttAlias.AsMapAt` | managed_components/espressif__mqtt/mqtt5_client.c:461-473 | the list, searched from its head, is the map it stands for |
| `MqttAlias.EqualUpToIsEqual` | managed_components/espressif__mqtt/mqtt5_client.c:437 | for topics without NUL the bounded string comparison is equality |
| `MqttAlias.AliasTable.Update` | managed_components/espressif__mqtt/mqtt5_client.c:424-459 | the map gets the alias with the new topic, unless it has one that the bounded comparison takes for the same, and keeps every other; for topics without NUL it always has the new topic |
| `MqttAlias.AliasTable.Get` | managed_components/espressif__mqtt/mqtt5_client.c:461-473 | looks up the map |
| `MqttAlias.AliasTable.ResolveTopic` | managed_components/espressif__mqtt/mqtt5_client.c:150-173 | refuses aliases over the maximum, learns one with a topic, resolves one without |
| `MqttAlias.TableIsLatest` | managed_components/espressif__mqtt/mqtt5_client.c:424-473 | over every sequence of packets the table holds the topic last sent with each alias |
| `MqttAlias.EmptyTopicResolves` | managed_components/espressif__mqtt/mqtt5_client.c:157-165 | section 3.3.2.3.4 of MQTT 5.0: a packet without topic resolves to the topic last sent with its alias |
| `MqttAlias.ResolvesIff` | managed_components/espressif__mqtt/mqtt5_client.c:150-173 | what each packet of a run resolves to, told by the packets alone: its own topic if it has one or no alias, else the one last sent with its alias; nothing exactly when the alias is out of range or was never set |
| `MqttAlias.AgreesWithStandardIff` | managed_components/espressif__mqtt/mqtt5_client.c:411-422 | across reconnects the client agrees with the standard if and only if the alias was set on this connection or never: the list is not cleared in between |
| `CleaningLog.PtCheck` | main/motor.c:58-80 | the sensor word read as closed, open or neither, closed first: -1 exactly at the closed limit, 1 exactly at the open one and not at the closed |
| `CleaningLog.OpenFirstMeans` | main/motor.c:264-278 | in an interlocked log every scoop or waste motion follows a reading of the open main cover |
| `CleaningLog.CloseOverOutMeans` | main/motor.c:351-365 | every closing of the waste cover is issued with the latest scoop motion outward |
| `CleaningLog.RetractMeans` | main/motor.c:328-341 | every retract of 10 s, as within a cycle, has the waste cover last sent open; every other has it last sent shut and read shut since |
| `CleaningLog.TofCheckedMeans` | main/motor.c:336-338 | every retract has a distance check after the scoop last went out |
| `CleaningLog.ScoopSettledMeans` | main/motor.c:297-308 | no motion starts before the scoop motion ahead of it was read at its limit or seen standing |
| `CleaningLog.WasteSettledMeans` | main/motor.c:328-338 | no scoop motion starts before the waste motion ahead of it was |
| `CleaningLog.TofClearMeans` | main/motor.c:413-415 | in a run that ends well the latest distance before every retract was clear |
| `CleaningLog.TofAboveMeans` | main/motor.c:27-56 | the latest distance before every retract was measured and above 550 mm, under the rule that asks for it |
| `CleaningLog.NapsMeans` | main/motor.c:193-213 | the counts of delays, unpaused and paused, are those of the log |
| `CleaningLog.StoppedMeans` | main/motor.c:455-459 | a motor counts as stopped if and only if there was a command to it and the latest one was STOP |
| `CleaningLog.AccountMeans` | main/motor.c:238-468 | the running account of a log is the rules, summary and acts of that log |
| `CleaningPlan.FullDrive` | main/motor.c:132-147 | the cover drive at full speed is the five commands 100, 70, 80, 90, 100 |
| `CleaningGuard.SinceMeans` | main/motor.c:92-130 | what has gone out under a flag is all the motions from the point on at which the flag was set, or at which the exit was |
| `CleaningGuard.OrderlyMeans` | main/motor.c:19-25 | in an orderly log, from any such point up to any later one, what went out is on the list for that flag: under the stop some of a group, one motion or one full turn; under the request and the pause also any number of full turns and the motion that follows a search |
| `CleaningGuard.FewUnderStop` | main/motor.c:365-402 | under a stop that stands no more than six motions go out |
| `CleaningGuard.BlockedMeans` | main/motor.c:27-56 | a log ends blocked if and only if a distance check saw an obstacle and nothing but paused delays, stops and changes of the flags has come since |
| `CleaningEnvironment.StopStandsIff` | main/main.c:193-196 | over every order of commands between two looks: an emergency stop is seen at the later one if and only if it came with no clearing after it |
| `CleaningEnvironment.AskedIff` | main/motor.c:92-113 | the recovery is asked for if and only if there were two presses of the pause button, or one in a pause, and no command takes it back |
| `CleaningEnvironment.SearchEndsIff` | main/motor.c:573-584 | a search ends if and only if some look at the clock is 30 s after the first one, or some look at the sensor reads as wanted |
| `CleaningEnvironment.NeverReadNeverEnds` | main/motor.c:601-618 | the whole search, which starts over, never ends without a reading of the sensor |
| `CleaningAccounts.RecoveryKeepsIff` | main/motor.c:471-558 | which rules a recovery keeps, each if and only if: the closing rule when the cover is read closed or the scoop was last sent out; the opening rule when the main cover was read open by the first motion; one at a time when nothing was underway then and at the retract; the retract rules when distance and waste cover were as they ask |
| `CleaningSequencer.Sequencer.SetEmergencyStop` | main/motor.c:115-125 | the emergency stop ends with STOP to all five motors |
| `CleaningSequencer.Sequencer.ToggleCleanPause` | main/motor.c:92-113 | the first press pauses and stops all motors, the second asks for the recovery |
| `CleaningSequencer.Sequencer.SitOutPause` | main/motor.c:158-161 | a pause that is not stopped already ends well if and only if presses lift it before a stop or a request stands at one of its looks, and then the recovery is asked for |
| `CleaningSequencer.Sequencer.WaitMotor` | main/motor.c:149-191 | its end and what it leaves are told by the script: it goes on to the first look that settles it, ends well exactly when that finds the limit read or, after 300 ms, the motor standing, and aborts exactly when it finds only the time up, or a stop or a request; a pause never lets it end well, and without such a look it never ends; it leaves at its first look if and only if a stop or a request stands then, and with a ticking clock it ends as soon as the pauses do |
| `CleaningSequencer.Sequencer.WaitDuration` | main/motor.c:193-213 | a good end means exactly ceil(ms / 100) unpaused delays of 100 ms; without a stop, a request or a pause at any of that many looks it ends well and uses up just those, and the first stop or request ends it there |
| `CleaningSequencer.Sequencer.CheckStop` | main/motor.c:19-25 | goes on if and only if no stop and no request stands after what was pressed; it does not look at the pause, which may stand when it goes on |
| `CleaningSequencer.Sequencer.CheckTofPause` | main/motor.c:27-56 | the distance is checked; an obstacle stops all motors; the scenario is resumed over it if and only if no stop and no request stands and the pause that follows is lifted by a press, and the recovery is then asked for; without an obstacle it goes on with whatever the sensor answered, -1 and 0 included |
| `CleaningSequencer.Sequencer.Retract` | main/motor.c:338-341 | the command goes out, admitted by what has gone out under the flags, and breaks a rule exactly over an obstacle, or after a distance that is not above the limit; it ends well only over no obstacle |
| `CleaningSequencer.Sequencer.DriveMainCover` | main/motor.c:132-147 | full speed, then a ramp of tens up to the target, sent to its end whatever the other tasks ask for in its five delays |
| `CleaningSequencer.Sequencer.OpenMainCover` | main/motor.c:258-280 | after the six delays of the drive it ends well exactly when the first look to settle the wait of 20 s finds the cover arrived and the next one reads it open; a good end means the open main cover was read |
| `CleaningEnvironment.OpensLate` | main/motor.c:149-191 | a cover that is on its way for any time short of 20 s and then read open, twice, opens: the wait does not give up before, and uses up exactly the looks to there |
| `CleaningSequencer.Sequencer.ReachOut` | main/motor.c:290-299 | the exact motions, or their beginning; a pause pressed as the five seconds end does not keep the scoop back |
| `CleaningSequencer.Sequencer.Dig` | main/motor.c:290-308 | the exact motions and 95 seconds of unpaused delays of this part; cut short, a beginning of them |
| `CleaningSequencer.Sequencer.Dump` | main/motor.c:310-349 | the exact motions of this part, the scoop taken in over the open cover; the rules about distances break exactly when the scenario is resumed over an obstacle, or a check had no answer |
| `CleaningSequencer.Sequencer.PutBack` | main/motor.c:351-363 | one motion out, and a second one exactly when the reading after the first wait does not find the scoop out |
| `CleaningSequencer.Sequencer.TryClosed` | main/motor.c:385-394 | one try to close the waste cover ends well exactly when the first look to settle the wait of 15 s finds it arrived and the next one reads it closed |
| `CleaningSequencer.Sequencer.CloseWaste` | main/motor.c:365-402 | a good end means the cover was read closed, in at most two retries; giving up means all five motions were sent, even after a stop; with a stop that stands it never ends well |
| `CleaningSequencer.Sequencer.Cycle` | main/motor.c:284-405 | the exact motions of a cycle, ending with the waste cover read closed and the scoop out; cut short, a beginning of them |
| `CleaningSequencer.Sequencer.FindSpinOrigin` | main/motor.c:560-622 | turns nothing but the scoop; its first turn decides about the interlocks; only the stop gives it up: without one it comes to its end if and only if AfterOrigin says so of the script, and leaves what that says, whether the request or the pause stands or not; under the stop it sends one full turn at most, under the others full turns alone; a good end off the sensor means that the last search, begun on an earlier rest of the script, ran for 30 s |
| `CleaningSequencer.Sequencer.Search` | main/motor.c:573-608 | ends, without a stop, if and only if the start sensor is read as wanted or 30 s have gone by at one of its looks, with the motor stopped |
| `CleaningSequencer.Sequencer.Calibrate` | main/motor.c:624-667 | the exact motions of the calibration, no rule broken; it forgets an earlier emergency stop: with 13 swift instants, no pause standing and no recovery asked for, it ends well whether a stop came before or not; its abort stops the scoop's two motors |
| `CleaningSequencer.Sequencer.StowScoop` | main/motor.c:413-430 | distance, retract and turn, in that order; the rules about distances break exactly when the scenario is resumed over an obstacle, or a check had no answer |
| `CleaningSequencer.Sequencer.PutAway` | main/motor.c:413-437 | final retract, calibration and closing: the exact motions, or a beginning of them |
| `CleaningSequencer.Sequencer.CloseMainCover` | main/motor.c:432-437 | closes the main cover, with a wait of 10 s told by the script from the seventh instant on, and stops it and the plate on a good end |
| `CleaningSequencer.Sequencer.CleanBody` | main/motor.c:258-437 | however it ends, the verdict is exact: no interlock broken, every distance clear unless the scenario was resumed over an obstacle, and above the limit unless a check had no answer either; its motions begin those of a scenario, and a good end has made all of them |
| `CleaningSequencer.Sequencer.CleanToExit` | main/motor.c:238-460 | over every environment, stops that other commands clear included: the interlocks hold of the whole log; its acts begin those of a scenario, and are all of them exactly in a success; every retract had a clear distance if and only if no press resumed the scenario over an obstacle, and one above the limit if and only if every check was answered as well; a press did so if and only if the log has the retract as the next command after such a check and its pause; at every point of the log, cut runs included, what has gone out since the stop, the request or the pause stands is on its list, full turns among it; success has four motors stopped, the exit all five |
| `CleaningSequencer.Sequencer.DoClean` | main/motor.c:238-468 | the same for do_clean without a recovery; with one, the lists hold to its end, counted anew from the exit; the interlocks hold up to where the scenario was left, the acts then begin those of a recovery, the verdict on the whole log is the one RecoveryVerdict tells from there and from the recovery's first readings and first retract, a step of the log, on both exits, and both stop all five motors |
| `CleaningSequencer.Sequencer.Recover` | main/motor.c:471-558 | whichever exit it takes, the verdict is RecoveryVerdict of where it set out, the words it read first, and the summary at its first retract; a good end has made exactly the recovery's motions; both ends stop all five motors and clear the flags |
| `CleaningSequencer.Sequencer.RecoverWasteCover` | main/motor.c:482-495 | closing the cover first keeps the closing rule if and only if it was read closed or the scoop was last sent out |
| `CleaningSequencer.Sequencer.PutInPlace` | main/motor.c:501-526 | the scoop is taken in exactly when it is not read in, and the main cover closed exactly when it is read open after that |
| `CleaningSequencer.Sequencer.CalibrateForRecovery` | main/motor.c:669-707 | the retract in it asks for no distance check: the verdict follows from the summary at that retract, whether the calibration ends well or not |
| `CleaningSequencer.ResumedAtOnce` | main/motor.c:479-496 | a script of ten instants whose recovery shuts the waste cover before the main cover was read open and with the scoop not out |
| `CleaningSequencer.ResumedOverShutCover` | main/motor.c:498-500 | a script of 23 instants whose recovery takes the scoop in without a distance check and with a waste cover that was never moved |
| `CleaningSequencer.ResumedUnderway` | main/motor.c:479-496 | a script of 65 instants whose recovery moves the waste cover while the scoop is underway |
| `CleaningSequencer.ResumedOverObstacle` | main/motor.c:41-50 | a script of 974 instants in which a press resumes the cleaning over an obstacle and the retract goes out |
| `CleaningSequencer.RetractedUnseeing` | main/motor.c:27-56 | a script of 973 instants in which the distance check has no answer and the retract goes out |
| `CleaningSequencer.StoppedInVain` | main/main.c:193-196 | the same script with an emergency stop and then another command before each of 972 looks: the cleaning still comes to its first retract |
| `CleaningSequencer.StoppedInSearch` | main/motor.c:560-573 | a script of do_clean with an emergency stop at the look before the first turn of the search, which goes out with the stop standing |
| `CleaningSequencer.AskedInVain` | main/motor.c:601-618 | for every number, a script of do_clean that is paused and resumed as the calibration begins and sends that many full turns with the request standing, without leaving the scenario |
| `CleaningSequencer.PausedInVain` | main/motor.c:601-618 | the same in a pause |
| `ButtonHandler.EverySessionIsWhole` | managed_components/espressif__button/iot_button.c:111-317 | over every sample stream the events fall into whole sessions, as defined by Session, and one underway, where the fields stand |
| `ButtonHandler.CutJoins` | managed_components/espressif__button/iot_button.c:111-317 | cutting the events into sessions loses none of them |
| `ButtonHandler.UpFollowsDown` | managed_components/espressif__button/iot_button.c:144-149 | in a session every PRESS_UP directly follows a PRESS_DOWN |
| `ButtonHandler.DownFollowsUp` | managed_components/espressif__button/iot_button.c:171-179 | and no PRESS_DOWN directly follows another |
| `ButtonHandler.FactsMean` | managed_components/espressif__button/iot_button.c:181-209 | what a session is said to hold is what its events are: clicks, long presses, how many PRESS_DOWN and PRESS_END |
| `ButtonHandler.ReportsMean` | managed_components/espressif__button/iot_button.c:193-202 | and how many MULTIPLE_CLICK there are and what the latest of them reports |
| `ButtonHandler.StepContinues` | managed_components/espressif__button/iot_button.c:130-316 | one step carries the session underway on, or completes it |
| `ButtonHandler.DownIsDebounced` | managed_components/espressif__button/iot_button.c:120-128 | every PRESS_DOWN comes with the last of at least DEBOUNCE_TICKS active samples in a row |
| `ButtonHandler.LevelChangesIff` | managed_components/espressif__button/iot_button.c:120-128 | over every stream the debounced level changes with a sample exactly when that is the last of DEBOUNCE_TICKS in a row that differ from it, and never with a count above 7 |
| `ButtonHandler.LongPressTiming` | managed_components/espressif__button/iot_button.c:150-152 | LONG_PRESS_START comes exactly as many samples after its PRESS_DOWN as are configured |
| `ButtonHandler.ClickTiming` | managed_components/espressif__button/iot_button.c:180 | clicks are reported exactly one sample past the short press time after the PRESS_UP |
| `ButtonHandler.EventsIff` | managed_components/espressif__button/iot_button.c:111-317 | over every stream each event comes with a sample if and only if its cause is there, told by the debounced levels, the events of the session underway and the samples since its latest edge: a click, with the number of presses, exactly when the button has been up for the short press time since the latest release; a long press start exactly when the first press has lasted its time; a release closes the session exactly after a long press, or a further press of at least the short press time; and the events of a sample come in the source's order |
| `ButtonHandler.QuietIsClick` | managed_components/espressif__button/iot_button.c:180-210 | a button that stays up for the short press time after a release that left its session open has its presses counted and reported |
| `ButtonHandler.EveryRunIsOnTime` | managed_components/espressif__button/iot_button.c:115-118 | in every run the tick counter is the age of the latest press or release, and no deadline goes by unnoticed |
| `ButtonHandler.PressesAtAllIff` | managed_components/espressif__button/iot_button.c:69 | the button can be pressed at all if and only if DEBOUNCE_TICKS is at most 7, the upper end of what managed_components/espressif__button/Kconfig:12 admits |
| `ButtonHandler.ButtonDevice.Debounce` | managed_components/espressif__button/iot_button.c:120-128 | the debounced level and its three-bit counter |
| `ButtonHandler.ButtonDevice.Handle` | managed_components/espressif__button/iot_button.c:111-317 | takes exactly the step of the machine and fires exactly its events, which are those of EventsIff |
| `ButtonHandler.ButtonDevice.HoldOrRelease` | managed_components/espressif__button/iot_button.c:228-315 | holding and releasing a long press |
| `ButtonHandler.ButtonDevice.ReportClicks` | managed_components/espressif__button/iot_button.c:180-210 | the events of a finished series of clicks, in order |
| `ButtonRegistry.InsertPoint` | managed_components/espressif__button/iot_button.c:581-597 | the entry goes in front of the larger keys at the end |
| `ButtonRegistry.RegisteredIsStableSort` | managed_components/espressif__button/iot_button.c:578-597 | over every run of requests the table is sorted and keeps, for every key, its requests in their order |
| `ButtonRegistry.OrderDoesNotShow` | managed_components/espressif__button/iot_button.c:578-597 | the order in which different keys are registered does not show in the table |
| `ButtonRegistry.SortedIsUnique` | managed_components/espressif__button/iot_button.c:578-597 | a sorted table is settled by the entries of each key |
| `ButtonRegistry.GapIs` | managed_components/espressif__button/iot_button.c:555-579 | which press times pass both checks, and which pass only the first |
| `ButtonRegistry.RefusalSparesIff` | managed_components/espressif__button/iot_button.c:555-579 | a refused request leaves the table alone if and only if it is at most the short press time |
| `ButtonRegistry.RefusedButKept` | managed_components/espressif__button/iot_button.c:572-579 | 183 ms with a 5 ms tick is refused and yet leaves an entry |
| `ButtonRegistry.TableIsTakenIff` | managed_components/espressif__button/iot_button.c:549-627 | over every run the table is the stable sort of the requests taken if and only if none fell in that gap |
| `ButtonRegistry.LongPressIsEarliest` | managed_components/espressif__button/iot_button.c:599-602 | the long press starts at the least of the configured ticks and those of the entries taken |
| `ButtonRegistry.Callbacks.Grow` | managed_components/espressif__button/iot_button.c:558-574 | one more place, whose key is whatever the memory held |
| `ButtonRegistry.Callbacks.InsertInPlace` | managed_components/espressif__button/iot_button.c:580-597 | shifting in place from the end inserts in sorted order |
| `ButtonRegistry.Callbacks.RegisterLongPress` | managed_components/espressif__button/iot_button.c:549-603 | table, ticks and result as specified, refusals included |
| `ButtonRegistry.Callbacks.RegisterMultipleClick` | managed_components/espressif__button/iot_button.c:605-624 | zero clicks are refused and change nothing, any other is inserted |
| `ButtonRegistry.Callbacks.Dispatch` | managed_components/espressif__button/iot_button.c:191-202 | every callback of that number of clicks is called once, in table order, and no other |
| `LineStream.LinesMakeUp` | main/sensor.c:212-226 | lines, newlines and rest make up the stream, and no newline is left in them |
| `LineStream.LinesAreUnique` | main/sensor.c:212-226 | there is only one such split |
| `LineStream.ReaderSplitsKept` | main/main.c:424-451 | for every byte stream and every chunking, overflows and NUL bytes included: as long as no read leaves a full buffer without a NUL, the reader has handed over the lines of the stream it kept and carries its rest |
| `LineStream.KeptIsAll` | main/main.c:425-435 | it keeps everything without an overflow, and strictly less with one |
| `LineStream.FitsIff` | main/main.c:424-436 | every read fits, told by the stream alone, if and only if the reader gets through them all without an overflow and without running off the buffer |
| `LineStream.ExactIff` | main/main.c:424-451 | lines and carry are those of the whole stream if and only if every read fits behind its carry, with a NUL in a buffer that it fills, and no newline follows the first NUL byte |
| `LineStream.ChunkingDoesNotShow` | main/main.c:424-451 | two chunkings of one stream whose reads fit come to the same lines and the same carry |
| `LineStream.FullReadRunsOff` | main/main.c:425-436 | one read of 512 bytes without a NUL runs the parser off the buffer |
| `LineStream.GetLine` | main/sensor.c:212-226 | copies up to the first newline within the limit and answers its length with the newline, or -1 |
| `LineStream.SensorReader.Dispatch` | main/sensor.c:247-334 | the C string in the line buffer is the line |
| `LineStream.SensorReader.Parse` | main/sensor.c:228-347 | hands over exactly the lines of the text and returns the point behind its last newline, or fails exactly when the buffer holds no NUL |
| `LineStream.SensorReader.ParseLines` | main/sensor.c:242-342 | the loop ends, having handed over every line once, in order |
| `LineStream.SensorReader.TakeIn` | main/main.c:424-451 | one read takes exactly one step, and fails exactly when that step runs off the buffer |
| `LineStream.SensorReader.Append` | main/main.c:425-435 | the bytes join the carry, or replace it when they do not fit |
| `LineStream.SensorReader.Shift` | main/main.c:437-451 | what follows the lines moves to the front and the rest of the buffer is zero |
| `WaterSplit.LongerGetsNoLess` | main/ble/ble_tracker_id.c:105-106 | a longer contributor gets no less |
| `WaterSplit.ConservesWithoutOverflow` | main/ble/ble_tracker_id.c:82-117 | the shares are at most the weight and lose less than one unit per contributor |
| `WaterSplit.ConservesIff` | main/ble/ble_tracker_id.c:82-117 | that holds of every weight if and only if the times add up in 32 bits |
| `WaterSplit.SettlementAccounts` | main/ble/ble_tracker_id.c:74-119 | whether the 32-bit meters are about to wrap or not, the water shows up in what they go up by, in that of nobody known with no contributor, and every time is settled |
| `WaterSplit.EachShare` | main/ble/ble_tracker_id.c:74-119 | each device is given the water in proportion to its time, rounded down, is disabled, and has its time added to its total; its other fields stay |
| `WaterSplit.RoundSumIsNobody` | main/ble/ble_tracker_id.c:82-94 | times that add up to 2^32 settle as though nobody had come, and stay |
| `WaterSplit.OnlyTheLastStretch` | main/ble/ble_tracker_id.c:120-128 | a device disabled twice before a settlement is settled for its last stretch only |
| `WaterSplit.SettledInFullIff` | main/ble/ble_tracker_id.c:120-128 | over every run of a device: the next settlement settles it for all the time gathered since the latest one if and only if it was never disabled while an earlier stretch was unsettled, the settlement's own disabling included |
| `WaterSplit.LostIff` | main/ble/ble_tracker_id.c:120-128 | time is lost if and only if there was such a disabling since the latest settlement |
| `WaterSplit.TimeIsAccounted` | main/ble/ble_tracker_id.c:120-144 | what it will be settled for, what it is gathering and what was lost add up to what it has gathered since |
| `WaterSplit.ArrivalKeepsDistinctIff` | main/ble/ble_tracker_id.c:146-187 | an arrival keeps the ids apart unless it is longer than 31 characters, there is room and its first 31 are taken |
| `WaterSplit.ArrivalIff` | main/ble/ble_tracker_id.c:146-187 | word from a device enables the first slot with its id and starts its silence over; if none has it, the first empty slot takes the newcomer, enabled and with nothing on its meters; every other slot stays |
| `WaterSplit.EnabledUntilTimeout` | main/ble/ble_tracker_id.c:261-271 | without word from it a device stays enabled exactly until 5 s of silence |
| `WaterSplit.Tracker.DisableDevice` | main/ble/ble_tracker_id.c:120-128 | moves the time to the settlement and the total |
| `WaterSplit.Tracker.AddTime` | main/ble/ble_tracker_id.c:130-144 | adds 100 ms to an enabled device, else nothing |
| `WaterSplit.Tracker.AddUpTimes` | main/ble/ble_tracker_id.c:82-88 | the 32-bit sum of the times |
| `WaterSplit.Tracker.EndIntake` | main/ble/ble_tracker_id.c:74-119 | takes exactly the settlement specified |
| `WaterSplit.Tracker.Arrive` | main/ble/ble_tracker_id.c:146-187 | enables the slot with the id, else takes the first empty one, else changes nothing |
| `WaterSplit.Tracker.Tick` | main/ble/ble_tracker_id.c:254-273 | every enabled device ages by 100 ms and is disabled at 5 s |
| `WifiDedupe.DedupeRepresents` | main/wifi/wifi_task.c:119-157 | every name once, in the order first seen, by its earliest strongest record |
| `WifiDedupe.DedupeInSteps` | main/wifi/wifi_task.c:187-226 | removing duplicates after each scan is removing them once |
| `WifiDedupe.CollectedIsDedupe` | main/wifi/wifi_task.c:187-241 | over every sequence of scans, failed and truncated ones included, the list is one removal of duplicates from all that was taken, and at most 30 long |
| `WifiDedupe.CollectedFills` | main/wifi/wifi_task.c:187-241 | over every sequence of scans the list is one removal of duplicates from the parts taken, and the part of each scan is its beginning, as long as the scan or, if that is less, as the room that the distinct names so far leave in 30 |
| `WifiDedupe.PartsOf` | main/wifi/wifi_task.c:213-220 | every sequence of scans has such parts |
| `WifiDedupe.FirstThirty` | main/wifi/wifi_task.c:213-220 | a first scan of 30 or more different names gives exactly its first 30 |
| `WifiDedupe.IncrementalIsBatch` | main/wifi/wifi_task.c:187-241 | with no scan overflowing, that is all the records found |
| `WifiDedupe.AllConsideredIff` | main/wifi/wifi_task.c:213-220 | every record found is considered if and only if no scan finds more than there is room for |
| `WifiDedupe.BatchIff` | main/wifi/wifi_task.c:187-241 | over every sequence of scans: after each scan the list is one removal of duplicates from all records found, if and only if each record cut off has a namesake at least as strong among those taken by then |
| `WifiDedupe.SameDedupeIff` | main/wifi/wifi_task.c:119-157 | two lists of records come to the same if and only if they have the same earliest strongest record of every name, and the same order of first sight |
| `WifiDedupe.FinalIff` | main/wifi/wifi_task.c:187-241 | the list in the end is one removal of duplicates from all records found if and only if the records taken and the records found agree in that way, whatever was missed on the way |
| `WifiDedupe.FinalStrengthsIff` | main/wifi/wifi_task.c:187-241 | and it has every name found, at its strength, if and only if each record found has a namesake at least as strong among those taken, then or later |
| `WifiDedupe.BroughtBack` | main/wifi/wifi_task.c:213-220 | a name crowded out by one scan and found by the next is in the end as though nothing had been missed |
| `WifiDedupe.KnownNameCrowdsOut` | main/wifi/wifi_task.c:213-220 | with one place left, a weaker record of a known name keeps out a new name that the list had room for |
| `WifiDedupe.RemoveDuplicates` | main/wifi/wifi_task.c:119-157 | in place: the front of the buffer is the list without duplicates, the part behind the count untouched |
| `WifiDedupe.Append` | main/wifi/wifi_task.c:213-220 | copies the beginning of the scan behind what is held, as much of it as there is room for, and no less |
| `WifiDedupe.ScanStart` | main/wifi/wifi_task.c:187-241 | the three rounds, with their failures and early stop, collect exactly that list, which is the one of the parts that CollectedFills speaks of |
| `CatDetector.RecentSumNext` | main/loadcell.c:92-107 | a weight joins the sum and the oldest leaves it once the ring is full |
| `CatDetector.EveryRunIsSound` | main/loadcell.c:109-242 | in every run the baseline is the exact mean of the latest weights, frozen or not, and every state but the first has at least 30 |
| `CatDetector.StateIsHistory` | main/loadcell.c:109-242 | over every run the state, the weights in the mean and the time of leaving are told by the events alone: by when a cat came, left, or all was reset, each defined by the samples, their means and the clock, without the state |
| `CatDetector.NoticesIff` | main/loadcell.c:139-200 | from idle or waiting a sample leads to occupied exactly when a cat comes, 1000 g over the mean it has moved and no sudden drop; from occupied it leads to waiting exactly when the cat leaves, and stays exactly when neither that nor a reset shows |
| `CatDetector.OrdersIff` | main/loadcell.c:201-240 | a cleaning is ordered exactly when a cat left at an earlier event, 180 s ago or more, with no cat, order or reset since and no cat on the scale now; coming, leaving and waiting are told by the events, without the state |
| `CatDetector.EveryVisitIsCleaned` | main/loadcell.c:201-240 | a cat that has left and does not come again is cleaned up after, by the first sample judged 180 s later at the latest |
| `CatDetector.OneVisit` | main/loadcell.c:122-242 | thirty samples of an even weight, one at least 1034 g above it, then that weight again: a cleaning is ordered 180 s later |
| `CatDetector.SafeAutoClean` | main/loadcell.c:201-240 | since it left there was no reset and every processed sample was below its own baseline plus 1000 g |
| `CatDetector.OneOrderForAVisit` | main/loadcell.c:180-240 | between two orders a cat comes, 1000 g over the mean its weight has moved, and leaves, to within 300 g of the frozen baseline |
| `CatDetector.LoadCell.ResetRing` | main/loadcell.c:81-90 | everything starts over |
| `CatDetector.LoadCell.PushRing` | main/loadcell.c:92-107 | ring, head, count and sum keep standing for the latest 200 weights, and their mean is returned |
| `CatDetector.LoadCell.Process` | main/loadcell.c:109-120 | takes exactly the step of the machine, the reset at the end of a cleaning included |
| `CatDetector.LoadCell.Decide` | main/loadcell.c:122-242 | the four states, exactly, each told by the history in StateIsHistory and NoticesIff |
| `CatDetector.LoadCell.ExecuteTare` | main/loadcell.c:305-317 | a tare starts over |

## Left out

- MqttDelivery.RunKeeps: unique ids are kept only while those drawn are not in the outbox; `FlowControl`, `HonestWindow`, `OutboxWindow`, `RequeueAlwaysEnds` and `ConnectionWindowIff` do without.
- MqttDelivery.TransmittedIsOpen: is stated for such ids; `MqttProgress.MarkedUnsent` shows how it fails otherwise.
- MqttProgress.NothingLeaks: is stated for such ids, and so is `MqttProgress.ReconnectSendsAll`; `MqttProgress.DrawnTwice` shows how they fail otherwise, and `MqttProgress.AllGoOutIff` what the queue needs.
- MqttFragment.StoredWhole: remaining lengths of 2^28 and more, for which the fixed header has no room, are not modelled.
- CleaningSequencer.Sequencer.FindSpinOrigin: ends well off the sensor when its last search timed out, as in the source (main/motor.c:589-599); it recurses as long as the script lasts.
- ButtonHandler.ButtonDevice.Handle: which of the registered long-press callbacks a LONG_PRESS_START in states 1 and 4 calls, by their press times, is not modelled; the events are.
- ButtonHandler.ButtonDevice.HoldOrRelease: the same for LONG_PRESS_HOLD and LONG_PRESS_UP.
- The MQTT 3.1.1 branches, TLS, the transports and `mqtt_message_receive`.
- Allocation failures, queues that are full, and rounding in floating point: weights are real numbers.
- The shaking of the scoop, which is behind a feature switch that no file defines.
- The ring of distances in main/sensor.c:1-210; a distance is an input. `RingBuffer_Push` and `RingBuffer_Pop` in main/main.c.
- What `strlen` and `strdup` read behind a full buffer without a NUL byte: such a read is a failed step of the reader.
- What a sensor line says: its numbers go to the cat detector and the sensor word as inputs. A status line `ST: ` with more than 31 characters up to the next blank overflows `status[32]` (main/sensor.c:250, 328), which the model does not show.
- A press of a button is one atomic step; its five stop commands are not interleaved with the sequencer's own. It falls on a look or a delay of the sequencer, not between two commands without one.
- Console commands that move motors themselves, or start a recovery outside a cleaning; that they clear the stop is modelled.
- Unregistering button callbacks, power saving, LEDs, OTA, BLE, provisioning.
