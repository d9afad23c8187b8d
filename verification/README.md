# Verification of the Thread UDP and CoAP device software

This project models the event-driven cores of the repository in Dafny and proves how they behave over whole
runs. `dafny verify dfyconfig.toml` checks everything.

Four systems are modelled.

* **The Thread_UDP event machine.** `AppLed.dfy` and `AppFsm.dfy` hold the code as classes that update their
  fields and queues in place: the LEDs, the state machine, the two bounded message queues, the receive loop, and
  the work handler with its drain loops. `FsmSystem.dfy` runs the same transitions one atomic kernel call at a time,
  interleaved with any number of posting contexts, the receive thread and a Thread stack that changes its role;
  `FsmTheorems.dfy` states what holds in every interleaving, `FsmRuns.dfy` gives the runs that break what does not, and
  `FsmHandler.dfy` shows that the handler run alone stops and is the class method.
* **CoAP pairing and lights.** `Window.dfy` is the pairing window under every interleaving of activation, timer
  expiry, role change and request. `CoapServer.dfy` has the server's handlers as a class with a clock;
  `WindowRefinement.dfy` shows that each is the window's handler run without interruption. `CoapClient.dfy` has the client
  and its coalescing work queue, `PollRace.dfy` the race between saving and restoring the poll period. `Pairing.dfy`
  joins one client, any number of interleaved servers, and a network that loses, duplicates, delays and reorders
  messages but does not forge them.
* **The beacon table.** `rssi_table.h` states its algorithm and no code is in the repository, so `BeaconTable.dfy` is
  an implementation of that stated contract over a fixed array. `Rotation.dfy` is the theory of rotating by oldest
  stamp, and `BeaconRotation.dfy` applies it to the table.
* **The echo server.** `EchoServer.dfy` is the slot table, the watch set and the serving loop of `server.c`.

How the surroundings appear in the model:

* `k_msgq` is a bounded queue whose put fails when it is full. `k_work` is a pending flag beside a program counter:
  submitting a pending item does nothing, submitting a running one makes it pending again.
* Outcomes of the environment (role queries, `socket`, `bind`, `recvfrom`, CoAP sends, `select`, `accept`, `recv`) are
  parameters or labels and may be anything, except where a predicate such as `EchoServer.Plausible` says what the
  kernel promises: only watched descriptors are ready, and an accepted descriptor is positive and not in use. `recv`
  takes what waits as far as it leaves one byte of the buffer free.
* A successful `udp_open` creates the receive thread on one static thread object. If a receive thread exists, the
  model restarts it wherever it was; a frame it had queued and not announced then counts as a lost UDP_RX.
* Stopping a running timer runs its stop callback; stopping a stopped one does nothing.
* The beacon table advances its tick before each report, starting from 0, increments the 8-bit sample count modulo
  256, copies out the stamped entries, and breaks the ties the header leaves open by slot order. The fairness results hold
  for every selection the header allows.

Statements one might expect and the code does not meet. Each has a run that breaks it and the exact condition under
which it holds:

* *A frame in the queue has somebody bound to drain it.* `StrandedFrame` and, with no put ever failing,
  `StrandedByReopen`; `FrameStrandedIff` for a step, `AwaitedIff` for a run.
* *UDP_READY means there is a socket.* `StaleReadyWithoutSocket`; `ReadyWithoutSocketIff`.
* *An accepted UDP_READY leads to UDP_READY.* `ReadyBehindDetach`; `SelfPostOutcome`.
* *LED_ROLE shows whether the device is the leader.* `LeaderWithDarkLed`; `RoleLedFollowsIff`.
* *The state follows the last role event.* `AttachedAfterDetach`; `RoleAgreement`.
* *A running blink timer has somebody bound to stop it.* `BlinkOutlivesWindow`; `BlinkOrphanedIff` for a step,
  `BlinkKeptIff` and `LeftBlinkingIff` for a run.
* *A running pairing timer means an open window.* `PressSwallowed`; `PressSwallowedIff` for a step, `PressKeptIff` for
  a run.
* *The configured poll period is in use or saved.* `PeriodCanBeLost`; `PeriodLostIff` for a step, `PeriodKeptIff` for a
  run. `RestorableIff` holds both sides for the handlers run one at a time.
* *The connection LED settles on the connection state.* `LedGoesDarkWhileConnected`; `LedFollowsRoleIff` for
  a role change, `LedOfRunIff` for a run.
* *ceil(n / k) collections report n beacons.* `OneOfThreeMissed`; `RotationIsFair`, which covers the wrap of the tick.

Where code and documentation disagree the code is followed: the specification document of Thread_UDP asks for
queues that overwrite their oldest element, the code drops the newest; the document submits the work item even when the
put failed, the code does not.

## Model

| member | source | states |
|---|---|---|
| Led.AppLed.Init | 01.Window_ThreadDevice/Thread_UDP/src/app/app_led.c:37-51 | A successful initialisation turns shadow and pins off; a failing one writes neither. |
| Led.AppLed.Set | 01.Window_ThreadDevice/Thread_UDP/src/app/app_led.c:58-65 | Shadow and pin of one LED take the value, all others keep theirs. |
| Led.AppLed.Toggle | 01.Window_ThreadDevice/Thread_UDP/src/app/app_led.c:72-75 | The new value is the negated shadow, on the pin as well, whatever the pin showed. |
| FsmModel.WireRoundTrip | 01.Window_ThreadDevice/Thread_UDP/inc/udp/udp.h:29-34 | Type, sequence number, node identifier low byte first, payload; the 64-byte wire form and the message determine each other, and the receiver sees exactly the message sent. |
| FsmModel.AnyDatagram | 01.Window_ThreadDevice/Thread_UDP/src/udp/udp.c:70-86 | A datagram of any length arrives as its first 64 bytes, zero-filled, with its sender and length. |
| FsmModel.FirstByteSteers | 01.Window_ThreadDevice/Thread_UDP/src/app/app_fsm.c:55-70 | The first byte of a datagram steers LED_RX and nothing else: 2 on, 3 off, anything else or no byte at all toggles. |
| FsmModel.HandlingLowersWeight | 01.Window_ThreadDevice/Thread_UDP/src/app/app_fsm.c:116-157 | Handling any event lowers the queue weight (ATTACHED 2, others 1) although ATTACHED may post UDP_READY. |
| FsmModel.DrainIsBounded | 01.Window_ThreadDevice/Thread_UDP/src/app/app_fsm.c:116-157 | With no other producer the handler handles at most 16 events per run, whatever the environment answers. |
| FsmModel.AppFsm.FsmEvtPost | 01.Window_ThreadDevice/Thread_UDP/src/app/app_fsm.c:164-172 | With fewer than eight events queued the event is last and the work item pending; otherwise the event is dropped and nothing submitted. |
| FsmModel.AppFsm.OnThreadStateChanged | 01.Window_ThreadDevice/Thread_UDP/src/thread/thread.c:75-108 | Attached roles post ATTACHED, detached ones DETACHED, other changes post nothing. |
| FsmModel.AppFsm.UdpRxOnce | 01.Window_ThreadDevice/Thread_UDP/src/udp/udp.c:69-95 | A failed receive or 16 queued frames change nothing; otherwise the frame, with sender, length and bytes as received, is queued last and UDP_RX posted. |
| FsmModel.AppFsm.UdpOpen | 01.Window_ThreadDevice/Thread_UDP/src/udp/udp.c:111-147 | UDP_READY is posted exactly when socket and bind succeed, which is when 0 is returned. |
| FsmModel.AppFsm.OnUdpRx | 01.Window_ThreadDevice/Thread_UDP/src/app/app_fsm.c:55-70 | The loop handles all queued frames in order and leaves the frame queue empty. |
| FsmModel.AppFsm.OnBtnReleased | 01.Window_ThreadDevice/Thread_UDP/src/app/app_fsm.c:41-105 | Outside UDP_READY, and for other buttons, nothing happens; buttons 1 and 2 send the bytes 1, sequence number and 62 zeros to one or to all, advance the number and flip LED_TX. |
| FsmModel.AppFsm.FsmEvtWorkHandler | 01.Window_ThreadDevice/Thread_UDP/src/app/app_fsm.c:111-158 | The loop over the in-place queue ends with an empty queue in the state `Drain` gives, despite re-posting. |
| FsmSystem.InvStep | 01.Window_ThreadDevice/Thread_UDP/src/app/app_fsm.c:111-172 | Every atomic step of every context keeps the wake-up, hand-off, node, session and role invariants. |
| FsmTheorems.NoLostWakeUp | 01.Window_ThreadDevice/Thread_UDP/src/app/app_fsm.c:111-172 | In every interleaving a non-empty event queue has somebody bound to look at it; at rest the queue is empty. |
| FsmTheorems.FrameHandoff | 01.Window_ThreadDevice/Thread_UDP/src/udp/udp.c:69-95 | Handled then queued frames are the accepted ones in order, at most 16 queued; without a lost UDP_RX a system at rest has handled all. |
| FsmTheorems.DrainHandlesEarlierFrames | 01.Window_ThreadDevice/Thread_UDP/src/app/app_fsm.c:55-70 | Whatever was dropped, the end of any drain finds every frame handled that was accepted at any earlier moment. |
| FsmTheorems.FrameStrandedIff | 01.Window_ThreadDevice/Thread_UDP/src/udp/udp.c:69-138 | Among all steps of all contexts exactly two leave a waiting frame with nobody to drain it, with no UDP_RX queued and no drain running: the UDP_RX put on a full event queue, and the re-creation of the receive thread between its frame put and its UDP_RX put. |
| FsmTheorems.AwaitedIff | 01.Window_ThreadDevice/Thread_UDP/src/udp/udp.c:69-138 | Over any run every waiting frame has somebody bound to drain it all along exactly when neither of these steps occurs. |
| FsmRuns.StrandedFrame | 01.Window_ThreadDevice/Thread_UDP/src/udp/udp.c:88-94 | A run that ends completely at rest with a frame still queued. |
| FsmRuns.StrandedByReopen | 01.Window_ThreadDevice/Thread_UDP/src/udp/udp.c:134-138 | The same at rest with no put ever having failed: the next session's open cuts the receive thread off. |
| FsmTheorems.SessionAccounting | 01.Window_ThreadDevice/Thread_UDP/src/app/app_fsm.c:119-144 | Entries to UDP_READY <= UDP_READY consumed <= successful opens <= entries to THREAD_ATTACHED (plus the one in progress); opens equal UDP_READY consumed, pending, dropped and about to be put. |
| FsmTheorems.SelfPostLands | 01.Window_ThreadDevice/Thread_UDP/src/app/app_fsm.c:125-126 | An accepted self-posted UDP_READY, consumed with no DETACHED since, leaves UDP_READY in every later state of the run. |
| FsmTheorems.SocketIffOpened | 01.Window_ThreadDevice/Thread_UDP/src/udp/udp.c:111-147 | From an open until the next DETACHED is consumed there is a socket exactly if the open succeeded, wherever its UDP_READY went. |
| FsmTheorems.ReadyWithoutSocketIff | 01.Window_ThreadDevice/Thread_UDP/src/app/app_fsm.c:119-144 | From an open until the next DETACHED is consumed, the state is UDP_READY without a socket exactly when the open failed and a UDP_READY already queued at the open has been consumed. |
| FsmTheorems.SelfPostOutcome | 01.Window_ThreadDevice/Thread_UDP/src/app/app_fsm.c:139-144 | Consuming the self-posted UDP_READY gives UDP_READY exactly when the last role event queued before it is not DETACHED. |
| FsmRuns.ReadyBehindDetach | 01.Window_ThreadDevice/Thread_UDP/src/app/app_fsm.c:131-144 | A run whose accepted UDP_READY is consumed behind a DETACHED and lost, leaving THREAD_INIT with an open socket. |
| FsmRuns.StaleReadyWithoutSocket | 01.Window_ThreadDevice/Thread_UDP/src/app/app_fsm.c:139-144 | A run that reaches UDP_READY without a socket, by a UDP_READY left over from an earlier session. |
| FsmTheorems.DetachedResets | 01.Window_ThreadDevice/Thread_UDP/src/app/app_fsm.c:131-137 | The state after any events equals the state after those since the last DETACHED. |
| FsmTheorems.ResetForgets | 01.Window_ThreadDevice/Thread_UDP/src/app/app_fsm.c:119-137 | State, LED_THREAD and LED_ROLE depend only on the events since the last DETACHED and, once these opened a session, on the answer of its role query. |
| FsmTheorems.StatusLeds | 01.Window_ThreadDevice/Thread_UDP/src/app/app_fsm.c:119-137 | Between events LED_THREAD is on exactly in THREAD_ATTACHED and UDP_READY; LED_ROLE implies it and shows the opening query's answer. |
| FsmTheorems.RoleLedFrozen | 01.Window_ThreadDevice/Thread_UDP/src/app/app_fsm.c:119-137 | Outside THREAD_INIT and all through an attach LED_ROLE keeps its value in every run until a DETACHED is consumed, whatever is attached or elected. |
| FsmTheorems.RoleLedFollowsIff | 01.Window_ThreadDevice/Thread_UDP/src/app/app_fsm.c:119-129 | From the ATTACHED that opens a session until a DETACHED is consumed, LED_ROLE equals the device's current role exactly when the last election gave it the role it had at that ATTACHED. |
| FsmRuns.LeaderWithDarkLed | 01.Window_ThreadDevice/Thread_UDP/src/app/app_fsm.c:119-129 | A run in which the device becomes leader and reports ATTACHED within a session, and LED_ROLE stays dark. |
| FsmTheorems.InitIffDetachedLast | 01.Window_ThreadDevice/Thread_UDP/src/app/app_fsm.c:119-144 | The machine is in THREAD_INIT exactly when the last consumed role event is not ATTACHED. |
| FsmTheorems.RoleAgreement | 01.Window_ThreadDevice/Thread_UDP/src/app/app_fsm.c:164-172 | With an empty queue the state follows an accepted last role event always; a dropped ATTACHED exactly when the last accepted one is ATTACHED, a dropped DETACHED exactly when it is DETACHED or there is none. |
| FsmRuns.AttachedAfterDetach | 01.Window_ThreadDevice/Thread_UDP/src/app/app_fsm.c:164-172 | A run that rests in an attached state although the last role event was DETACHED, dropped on a full queue. |
| FsmTheorems.FramesAndSends | 01.Window_ThreadDevice/Thread_UDP/src/app/app_fsm.c:41-97 | In every reachable state LED_RX is the fold of the handled frames; the i-th message goes on the air as 1, i mod 256 and 62 zeros; counter and LED_TX count the messages. |
| FsmTheorems.SendsExactlyWhenReady | 01.Window_ThreadDevice/Thread_UDP/src/app/app_fsm.c:76-97 | A step sends exactly when it takes button 1 or 2 in UDP_READY: one message, to one or to all. |
| FsmTheorems.SentArePresses | 01.Window_ThreadDevice/Thread_UDP/src/app/app_fsm.c:76-97 | In every reachable state what has been sent are the presses of buttons 1 and 2 consumed in UDP_READY, in order, each to its kind of destination. |
| FsmTheorems.PinsFollow | 01.Window_ThreadDevice/Thread_UDP/src/app/app_led.c:58-75 | A pin that once agrees with its shadow agrees in every later state of every run. |
| FsmTheorems.ShadowIsHardware | 01.Window_ThreadDevice/Thread_UDP/src/app/app_led.c:37-75 | After a successful LED initialisation the shadow array equals the pins in every reachable state. |
| FsmHandler.HandlerTerminates | 01.Window_ThreadDevice/Thread_UDP/src/app/app_fsm.c:111-158 | A run of handler steps alone is no longer than a rank of its first state, re-submissions included. |
| FsmHandler.HandlerLeavesNothing | 01.Window_ThreadDevice/Thread_UDP/src/app/app_fsm.c:111-172 | Once the handler has stopped with nobody mid-post, no event is left, and no frame unless a UDP_RX was lost. |
| FsmHandler.PostIsAtomic | 01.Window_ThreadDevice/Thread_UDP/src/app/app_fsm.c:164-172 | The put and the submission of a post, run alone, change the machine exactly as `FsmEvtPost` does, for every event and queue. |
| FsmHandler.ReceiveIsAtomic | 01.Window_ThreadDevice/Thread_UDP/src/udp/udp.c:69-95 | One turn of the receive thread, run alone, queues the frame and posts UDP_RX as `UdpRxOnce` does. |
| FsmHandler.AloneIsDrain | 01.Window_ThreadDevice/Thread_UDP/src/app/app_fsm.c:111-158 | Run without interruption, the fine-grained handler computes exactly the `Drain` that the class method implements. |
| Window.WindowHasCloser | 01.Window_ThreadDevice/OT_coap_server/src/coap_server.c:57-85 | In every interleaving an open window has its pairing timer running, or an activation or a deactivation past that timer in progress; at rest both timers run. |
| Window.PairingIsSingleUse | 01.Window_ThreadDevice/OT_coap_server/src/ot_coap_utils.c:98-125 | Successful responses never exceed activations, wherever a timeout or a new activation falls. |
| Window.WindowCloses | 01.Window_ThreadDevice/OT_coap_server/src/coap_server.c:57-85 | From every state that keeps the window invariant, as all reachable ones do, and with activations in progress too, a schedule that finishes what is under way takes at most 22 steps, and where it cannot be continued the window is closed. |
| Window.BlinkOrphanedIff | 01.Window_ThreadDevice/OT_coap_server/src/coap_server.c:57-78 | A step leaves the blink timer with nobody bound to stop it exactly when a deactivation stops the pairing timer while the blink timer runs again, no activation is in progress, and no other deactivation is about to stop the blink timer. |
| Window.BlinkKeptIff | 01.Window_ThreadDevice/OT_coap_server/src/coap_server.c:57-85 | Over any run somebody is bound to stop the blink timer all along exactly when no such step occurs; then the run never rests blinking without a pairing timer. |
| Window.OrphanBlinksOn | 01.Window_ThreadDevice/OT_coap_server/src/coap_server.c:57-95 | Orphaned means orphaned: with nobody bound to stop it, the blink timer runs on through every way of finishing what is under way, unless a request past its check is still answered. |
| Window.LeftBlinkingIff | 01.Window_ThreadDevice/OT_coap_server/src/coap_server.c:57-95 | When everything under way has been finished, the provisioning LED is left blinking only after such a step, and after such a step always, unless a request past its check at the start was still answered. |
| Window.BlinkOutlivesWindow | 01.Window_ThreadDevice/OT_coap_server/src/coap_server.c:57-72 | A run that rests with a closed window and the LED blinking. |
| Window.FlagIsChecked | 01.Window_ThreadDevice/OT_coap_server/src/coap_server.c:69-78 | A deactivation goes on to clear the flag exactly if it finds it set; after its callback the request handler clears it in any case. |
| Window.PressSwallowedIff | 01.Window_ThreadDevice/OT_coap_server/src/ot_coap_utils.c:98-125 | A step leaves the pairing timer running for a closed window exactly when somebody past the stop of that timer clears the flag of a newer activation, before or after it starts the timer. |
| Window.PressKeptIff | 01.Window_ThreadDevice/OT_coap_server/src/ot_coap_utils.c:98-125 | Over any run a running pairing timer means an open window all along exactly when no such step occurs; then every resting state has both or neither. |
| Window.PressSwallowed | 01.Window_ThreadDevice/OT_coap_server/src/ot_coap_utils.c:98-125 | A run that rests with timer and LED running and the window closed: the button was pressed while the handler was about to clear the flag again. |
| CoapServer.RunTells | 01.Window_ThreadDevice/OT_coap_server/src/coap_server.c:32-131 | In every run flag, responses, clock, blinks, light commands and connection LED are folds over the events alone: what opens and closes the window, which requests are answered, which carry a light command, the last role. |
| CoapServer.TimedWindow | 01.Window_ThreadDevice/OT_coap_server/src/coap_server.c:57-102 | In every run of atomic handlers: the window is open exactly if the events opened it last; then the pairing timer is due 5000 ms after the last button press and the blink timer 100 ms after the last blink or press; otherwise both are stopped and the LED dark. |
| CoapServer.AnsweredRequests | 01.Window_ThreadDevice/OT_coap_server/src/ot_coap_utils.c:98-125 | The responses are the non-confirmable GETs that came while the events had the window open. |
| CoapServer.BlinkCadence | 01.Window_ThreadDevice/OT_coap_server/src/coap_server.c:63-95 | An open window has blinked once per full 100 ms; the LED's phase carries over between windows. |
| CoapServer.WindowEndsOnTime | 01.Window_ThreadDevice/OT_coap_server/src/coap_server.c:64-85 | At five seconds time cannot pass and the expiry closes the window. |
| CoapServer.SecondRequestUnanswered | 01.Window_ThreadDevice/OT_coap_server/src/ot_coap_utils.c:98-125 | After an answered request, every request before the next button press changes nothing. |
| CoapServer.LightFollowsCommands | 01.Window_ThreadDevice/OT_coap_server/src/ot_coap_utils.c:127-156 | In every run the driven LED is what the first payload bytes of the non-confirmable PUTs with a payload mean, in order. |
| Light.LightIsLastLevelFlipped | 01.Window_ThreadDevice/OT_coap_server/src/coap_server.c:32-55 | That meaning is the last '1' or '0' (initially off) flipped by the number of later '2's; other bytes count for nothing. |
| CoapServer.Device.OnLightRequest | 01.Window_ThreadDevice/OT_coap_server/src/coap_server.c:32-55 | The static value and the LED after each command. |
| CoapServer.Device.DeactivateProvisioning | 01.Window_ThreadDevice/OT_coap_server/src/coap_server.c:69-78 | Both timers stopped, the LED dark if it was blinking, the flag clear. |
| CoapServer.Device.OnLedTimerExpiry | 01.Window_ThreadDevice/OT_coap_server/src/coap_server.c:87-95 | The LED takes the static value, which flips; the timer is due a period later. |
| CoapServer.Device.ProvisioningRequestHandler | 01.Window_ThreadDevice/OT_coap_server/src/ot_coap_utils.c:98-125 | Only an enabled window, a NON GET and a successful send close the window; everything else changes nothing. |
| CoapServer.Device.LightRequestHandler | 01.Window_ThreadDevice/OT_coap_server/src/ot_coap_utils.c:127-156 | Only a NON PUT with a payload reaches the light, with its first byte. |
| WindowRefinement.ButtonIsAtomic | 01.Window_ThreadDevice/OT_coap_server/src/coap_server.c:57-67 | The interleaved activation, run alone, is the atomic one. |
| WindowRefinement.RoleLossIsAtomic | 01.Window_ThreadDevice/OT_coap_server/src/coap_server.c:113-131 | The interleaved deactivation, run alone, is the atomic one. |
| WindowRefinement.RequestIsAtomic | 01.Window_ThreadDevice/OT_coap_server/src/ot_coap_utils.c:98-125 | The interleaved request handler, run alone, is the atomic one, for every message and send outcome. |
| WindowRefinement.PairingExpiryIsAtomic | 01.Window_ThreadDevice/OT_coap_server/src/coap_server.c:80-85 | The interleaved timer expiry, run alone, is the atomic one. |
| CoapClient.RunTells | 01.Window_ThreadDevice/OT_coap_client/src/coap_client_utils.c:68-305 | In every run pending items, requests sent, stored address, mode, connection LED and poll period are folds over the events alone: coalescing first-in first-out items; the last 16-byte reply; one toggle per unicast item with a peer; fast polling from a provisioning item to the next reply in sleepy mode. |
| CoapClient.PeriodStaysSafe | 01.Window_ThreadDevice/OT_coap_client/src/coap_client_utils.c:68-104 | For a non-zero period every run keeps (saved = 0, link = P) or (saved = P, link = 100); requests never overwrite P. |
| CoapClient.ReplyRestoresPeriod | 01.Window_ThreadDevice/OT_coap_client/src/coap_client_utils.c:106-143 | Any reply taken in sleepy mode, valid or not, restores the configured period exactly. |
| CoapClient.RestorableIff | 01.Window_ThreadDevice/OT_coap_client/src/coap_client_utils.c:78-103 | The configured period can be restored after every run exactly when it is not zero. |
| PollRace.PeriodLostIff | 01.Window_ThreadDevice/OT_coap_client/src/coap_client_utils.c:78-103 | Interleaved, the only losing step is setting the fast period after the restore has written the link. |
| PollRace.PeriodKeptIff | 01.Window_ThreadDevice/OT_coap_client/src/coap_client_utils.c:78-103 | Over any interleaving the period is safe all along exactly when no such step occurs; with both sides idle it is then in use, or saved under the fast one. |
| PollRace.UninterruptedIsAtomic | 01.Window_ThreadDevice/OT_coap_client/src/coap_client_utils.c:73-104 | The three steps of save and of restore, uninterrupted, are the client's atomic ones. |
| PollRace.PeriodCanBeLost | 01.Window_ThreadDevice/OT_coap_client/src/coap_client_utils.c:78-103 | A run that ends with the period neither saved nor in use, for every period but 0 and 100. |
| CoapClient.RequestsOfRun | 01.Window_ThreadDevice/OT_coap_client/src/coap_client_utils.c:145-177 | The k-th mesh command is ON exactly when k is odd; unicast toggles go only to addresses learned from replies. |
| CoapClient.MeshLightsAgree | 01.Window_ThreadDevice/OT_coap_client/src/coap_client_utils.c:163-177 | Two servers, each after any run of its own, that took the k-th mesh command last drive their lights alike, on exactly when k is odd. |
| CoapClient.SilentUntilAttached | 01.Window_ThreadDevice/OT_coap_client/src/coap_client_utils.c:245-305 | Until the first attach no run sends anything, whatever is pressed. |
| CoapClient.LedSettlesTheSame | 01.Window_ThreadDevice/OT_coap_client/src/coap_client_utils.c:220-252 | Work items, buttons and replies never change which way the connection LED will settle. |
| CoapClient.LedFollowsRoleIff | 01.Window_ThreadDevice/OT_coap_client/src/coap_client_utils.c:224-238 | After a role change the LED will settle wrong exactly when the change's work item was already pending with the opposite one pending behind it. |
| CoapClient.LedOfRunIff | 01.Window_ThreadDevice/OT_coap_client/src/coap_client_utils.c:220-252 | Over every run from start-up: the LED will settle wrong, and is wrong once the work queue is empty, exactly when the run's last role change found its work item pending with the opposite one behind it. |
| CoapClient.LedGoesDarkWhileConnected | 01.Window_ThreadDevice/OT_coap_client/src/coap_client_utils.c:224-238 | Attach, detach, attach before the work queue runs: connected with a dark LED. |
| CoapClient.Device.OnProvisioningReply | 01.Window_ThreadDevice/OT_coap_client/src/coap_client_utils.c:106-143 | Every 16-byte payload becomes the stored address, printable or not, and no other does; a saved period is restored in every case in sleepy mode. |
| CoapClient.Device.ToggleMeshLights | 01.Window_ThreadDevice/OT_coap_client/src/coap_client_utils.c:163-177 | The static command goes from '0' to '1', else to '0', and is sent to all. |
| CoapClient.Device.ToggleOneLight | 01.Window_ThreadDevice/OT_coap_client/src/coap_client_utils.c:145-161 | One '2' goes to the stored address unless its first two bytes are zero. |
| CoapClient.Device.ToggleMinimalSleepyEndDevice | 01.Window_ThreadDevice/OT_coap_client/src/coap_client_utils.c:199-214 | The mode flips exactly if setting it succeeded. |
| CoapClient.Device.RunOldestWork | 01.Window_ThreadDevice/OT_coap_client/src/coap_client_utils.c:269-280 | The work queue runs the oldest pending item. |
| Pairing.EndToEnd | 01.Window_ThreadDevice/OT_coap_client/src/coap_client_utils.c:106-161 | Over a lossy, duplicating, reordering network with any number of interleaved servers, the stored address is zero or belongs to a server that was activated and passed the check; unicast toggles go only to such servers. |
| Pairing.LearnsLastAnswer | 01.Window_ThreadDevice/OT_coap_client/src/coap_client_utils.c:106-143 | In every run the stored address is the one in the last answer delivered, or zero. |
| Pairing.UnicastTogglesPeer | 01.Window_ThreadDevice/OT_coap_client/src/coap_client_utils.c:145-161 | A unicast item sends one toggle to the stored address, none if its first two bytes are zero. |
| Pairing.NetworkStep | 01.Window_ThreadDevice/OT_coap_server/src/ot_coap_utils.c:44-96 | A provisioning item puts its request on the network, a server that responds its own address under the request's token; no other step puts anything there. |
| Pairing.PairingSucceeds | 01.Window_ThreadDevice/OT_coap_client/src/coap_client_utils.c:106-161 | Whichever server answers, there is a run in which the client learns its address and toggles its light. |
| Pairing.AnswersArePaid | 01.Window_ThreadDevice/OT_coap_server/src/ot_coap_utils.c:98-125 | However often requests are duplicated, the distinct answers on the network never exceed the activations of all servers. |
| BeaconTable.Beacons.Update | 01.Window_ThreadDevice/Thread_CoAP/inc/rssi/rssi_table.h:50-61 | In-place update of the beacon's own slot, else a free one, else the one reported longest ago: latest strength and distance, one more sample modulo 256 or the first, stamp kept or zero, all other slots untouched. |
| BeaconTable.Beacons.CollectForReport | 01.Window_ThreadDevice/Thread_CoAP/inc/rssi/rssi_table.h:74-91 | Present beacons stay and are unmarked, others go; min(present, max_send) of them are picked so that nobody left out was reported longer ago, or equally long ago and is stronger; the picked are stamped and copied out. |
| BeaconTable.Beacons.Snapshot | 01.Window_ThreadDevice/Thread_CoAP/inc/rssi/rssi_table.h:63-72 | Copies of the entries in use in the lowest slots, in table order, as many as fit. |
| BeaconTable.Beacons.Clear | 01.Window_ThreadDevice/Thread_CoAP/inc/rssi/rssi_table.h:43-48 | Every slot is zero. |
| BeaconRotation.AddressesStayDistinct | 01.Window_ThreadDevice/Thread_CoAP/inc/rssi/rssi_table.h:53-83 | Addresses of valid entries stay distinct under every sequence of updates and collections. |
| BeaconRotation.UpdateTouchesOneBeacon | 01.Window_ThreadDevice/Thread_CoAP/inc/rssi/rssi_table.h:53-55 | An update changes one slot only, keeps slot and stamp of a known beacon, and costs another beacon its entry exactly when the table is full, the beacon new, and the other one in the oldest slot. |
| BeaconRotation.TouchAllCounts | 01.Window_ThreadDevice/Thread_CoAP/inc/rssi/rssi_table.h:53-54 | After any samples an entry holds strength and distance of its last sample and counts its samples modulo 256. |
| BeaconRotation.CollectKeepsSeen | 01.Window_ThreadDevice/Thread_CoAP/inc/rssi/rssi_table.h:77-82 | A collection keeps exactly the beacons seen this period and clears their marks. |
| BeaconRotation.TouchIsUpdate | 01.Window_ThreadDevice/Thread_CoAP/inc/rssi/rssi_table.h:53-55 | For a beacon that stays, an update in whichever slot the search finds is a change of that beacon only. |
| Rotation.FairIff | 01.Window_ThreadDevice/Thread_CoAP/inc/rssi/rssi_table.h:79-81 | All participants are served by consecutive reports exactly when the reports, up to the first one past a wrap of the stamp, offer as many places as there are participants. |
| BeaconRotation.RotationIsFair | 01.Window_ThreadDevice/Thread_CoAP/inc/rssi/rssi_table.h:77-83 | While n beacons stay, all are reported in m consecutive collections exactly when m * max_send >= n, however RSSI changes; of collections past a wrap of the 32-bit tick only the first one counts. |
| BeaconRotation.RotationIsFairUnwrapped | 01.Window_ThreadDevice/Thread_CoAP/inc/rssi/rssi_table.h:77-83 | In runs without a wrap every collection counts: all n are reported in m collections exactly when m * max_send >= n, with no premise on the stamps but their age. |
| BeaconRotation.CeilingSuffices | 01.Window_ThreadDevice/Thread_CoAP/inc/rssi/rssi_table.h:77-83 | In a run of any length all n are reported once ceil(n / max_send) collections took place, counted up to the first one past a wrap. |
| BeaconRotation.FullTableInFour | 01.Window_ThreadDevice/Thread_CoAP/inc/rssi/rssi_table.h:22-23 | Sixteen entries, four per report: four collections report a full table exactly when at most one is past the wrap. |
| BeaconRotation.StampsStayAged | 01.Window_ThreadDevice/Thread_CoAP/inc/rssi/rssi_table.h:81-83 | From any tick, through any updates, evictions and collections, the next 32-bit tick is younger than every stamp as long as it has not wrapped, so fairness applies. |
| BeaconRotation.NobodyNewPastWrap | 01.Window_ThreadDevice/Thread_CoAP/inc/rssi/rssi_table.h:33 | Of a run across the wrap, whoever is reported at all is reported by the first collection past it. |
| BeaconRotation.StarvedAfterWrap | 01.Window_ThreadDevice/Thread_CoAP/inc/rssi/rssi_table.h:33 | Collections stamped from zero on, over older stamps, repeat one selection: all beacons are reported exactly when one report holds them all. |
| BeaconRotation.MissedAcrossWrap | 01.Window_ThreadDevice/Thread_CoAP/inc/rssi/rssi_table.h:33 | From every table and for every way of sampling its beacons, if the places up to the first collection past the wrap do not hold all, there is a run that misses one although all its places would. |
| BeaconRotation.OneOfThreeMissed | 01.Window_ThreadDevice/Thread_CoAP/inc/rssi/rssi_table.h:33 | Three beacons, one per report, three collections, the tick wrapping after the first: one beacon is missed. |
| EchoServer.Server.Register | 02.Raspberrypi_BorderRouter_Borker/server.c:64-74 | The loop watches exactly the listening and the occupied descriptors, and max_fd is the greatest of them. |
| EchoServer.Server.Store | 02.Raspberrypi_BorderRouter_Borker/server.c:94-99 | The new descriptor takes the first free slot, or is forgotten when there is none. |
| EchoServer.Server.ServeOne | 02.Raspberrypi_BorderRouter_Borker/server.c:104-116 | A ready slot with nothing waiting is closed and freed; else the first 1023 waiting bytes and a zero are in the buffer and what was received is sent from it. |
| EchoServer.Server.PlayRound | 02.Raspberrypi_BorderRouter_Borker/server.c:83-117 | One round over the in-place table; a failing accept ends it. |
| EchoServer.SlotTable | 02.Raspberrypi_BorderRouter_Borker/server.c:63-118 | After any rounds taken slots hold distinct descriptors of open connections, and every connection got back its own bytes in order, out of one buffer shared by all and never cleared. |
| EchoServer.RoundEffect | 02.Raspberrypi_BorderRouter_Borker/server.c:83-117 | A round reads each ready tracked connection once, sends back the first 1023 bytes that wait on it or closes it exactly if none do, and touches no other; a new connection is not read in its round, and is untracked exactly when no slot was free. |
| EchoServer.EchoesOfRun | 02.Raspberrypi_BorderRouter_Borker/server.c:63-118 | After any rounds every connection has been sent the concatenation of what waited on it, up to 1023 bytes a time, over the rounds that read it. |
| EchoServer.Accounting | 02.Raspberrypi_BorderRouter_Borker/server.c:83-111 | Accepted connections are those in the table, those closed, and those accepted while it was full. |

## Left out

- The start-up interval before `app_fsm_init` has set the work queue, when the button is already live.
- `thread_init`, address logging and the mutex calls: they only call the Thread stack.
- The button module with its press times: the handler ignores the duration.
- Whether `sendto` succeeds: the code ignores it, so `sent` lists the messages handed to the socket.
- A receive thread that keeps running beside its re-created self: the thread object is static, so the model has one.
- BeaconTable.Beacons.Update: the distance formula is a parameter, because rssi_distance.h has no implementation.
- BeaconRotation.RotationIsFair: across a wrap, asks that stamps small enough to be reached by the ticks past it fit into the collections up to the first one past it, and that the run is at most 2^32 collections long; among more such stamps ties by signal strength decide, and no number of places does.
- BeaconRotation.StampsStayAged: says nothing once the tick has wrapped; `NobodyNewPastWrap` and `StarvedAfterWrap` say what is reported then.
- Pairing.EndToEnd: the client's own handlers are atomic here; their interleaving is the subject of `PollRace`.
- CoapServer.TimedWindow: handlers are atomic and the clock does not pass a due timer; `Window` has the interleavings without time.
- The order in which the two timers fire when both are due is not fixed; either is allowed.
- `select` failing, which ends the echo server, and a `send` that transmits less than it was given.
- The copies of the server sources under `OT_coap_client/coap_server/src` are identical and modelled once.
- BLE, RAM power-down and console power management: wrappers around library calls.
- The MQTT clients, the dummy sensor, and the single-client echo programs: I/O without hard state.
- Thread priorities, stack sizes and wall-clock latency.
