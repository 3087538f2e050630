# Verification of the browser-control stack and four data cores

This project models the parts of Use Brian whose correctness depends on the order of side effects,
and proves what they promise over every run.

The browser-control stack is a distributed protocol in three parts. The *relay* keeps one connection
for each (user, browser profile), admits and replaces connections while authority checks are pending,
puts commands on the wire, settles each of them, serialises task-bound commands and keeps a Stop that
was given while nothing was connected. The *desktop executor* fences commands with a generation and an
epoch, so that nothing sent before a Stop runs after it. The *extension executor* has a bounded
cancellable command lane, a consent gate with a Stop latch, and a disclosure lock over a growing set
of tabs. Beside it stand a PostgreSQL plan and query rewriter that counts predicate evaluations, a
crash-tolerant migration runner, the byte quota of browser files, and the saved-account stores.

How the models are built:

- A stretch of code between two `await`s is one atomic step. A suspended handler is a value holding
  what its closure captured; a timer is armed or fired; sockets, tokens, tasks and clocks are abstract.
  A step function over an event and `Exec` over a list of events give every interleaving, and the
  theorems hold of every list of events.
- Each object that the source updates in place is a class whose methods follow the source statement
  by statement and take exactly the step of the model, so the theorems about runs hold of the object;
  a row for such a handler says what that step is. Where the model's state has many tables the class
  keeps it in one record field.
- The relay's connection records are tables indexed by connection. A connection that was replaced
  keeps its entry, which is how a late timer or continuation still finds what it captured.
- Records of what happened (`settled`, `answers`, `issued`, `announced`, `again`, `seen`, `effects`, `ran`, `sql`)
  are history: no branch of a model reads them.
- The relay and the desktop are modelled each on their own and then composed: every run of the two is a
  run of the fence's model, so what is proved of the fence is proved of the relay's own transitions.

Where code and expectation part, the model follows the code:

- A queued Stop is delivered without a control epoch, so a desktop that has announced a Stop on the
  current link refuses every such delivery there. It is proved that the Stop is never lost and is
  always being delivered or about to be, and exactly when it is refused; not that it is acknowledged.
- A Stop given between the relay's admission and reading `ready` is announced twice, so having
  processed every announcement is not what a passing command needs. A concrete run is given, and exactly
  what it needs.
- Requiring a manual approval starts no new task generation, so a prompt shown earlier may still lift
  the requirement. A concrete run is given, and exactly when it cannot.
- An operation that passed its last check just before a `cancel` is still reported as a success
  afterwards, and so is one that ends without a check. It is proved exactly when success is reported.
- A save that reports failure may have stored the new blob. The account store's promises are proved
  with that included.
- Adding an account may store nine when the store is full of others and the current session is stashed
  too. A concrete case is given, and the exact condition under which the cap holds.

## Model

| member | source | states |
|---|---|---|
| RelaySteps.StepKeeps | apps/browser-relay/src/relay.ts:224-526 | Every atomic step of the relay, for any frame, verdict, timer or call, keeps the whole invariant (registries, timers, settlement, lanes, bindings, queued Stops). |
| RelaySteps.ExecKeeps | apps/browser-relay/src/relay.ts:224-551 | Hence every run keeps it. |
| RelayTheorems.RegistriesAgree | apps/browser-relay/src/relay.ts:120-123 | In every reachable state the profile and socket registries are mutually inverse and hold no closed socket; `current` is plain registration; a registered connection's terminal event is its profile's. |
| RelayTheorems.SettledExactlyOnce | apps/browser-relay/src/relay.ts:348-428 | Every command ever sent is either pending on exactly one connection, registered, with its timer armed and never settled, or pending nowhere and settled exactly once; nothing else was ever settled. |
| RelayHistory.NeverSettledTwice | apps/browser-relay/src/relay.ts:504-551 | A settled command stays settled once, whatever result, timeout, replacement or disconnect follows. |
| RelayAnswers.AnsweredExactlyWhen | apps/browser-relay/src/relay.ts:348-428 | Over every run a caller is told that its command went well, or that it failed, if and only if a result saying so came for a Stop pending on that current connection, or was granted by the authority while the command was pending on its registered connection; that nothing answered if and only if the timer fired first; any other settled command was told that an event or the end of its connection aborted it, and no other was told anything. |
| RelayTheorems.BoundCommandsInOrder | apps/browser-relay/src/relay.ts:444-453 | Task-bound commands of one profile reach the wire in submission order, each only after all earlier ones are settled, and only on the connection registered when it was submitted. |
| RelayTheorems.NoCallStranded | apps/browser-relay/src/relay.ts:445-453 | Every queued call waits for an earlier one, for its own authority check, or for its own armed timer. |
| RelayTheorems.BindingIsOneWay | apps/browser-relay/src/relay.ts:480-493 | On one connection: at most 1024 retired tasks, no unbound command after a bound one, no return to a task that was left, nothing but Stop after Stop for a task. |
| RelayFrames.RetiredTasksOnlyGrow | apps/browser-relay/src/relay.ts:480-493 | Over any run and continuation retired tasks only grow, a bound connection stays bound, and a task that is left is retired. |
| RelayFrames.HandlersSendProperFrames | apps/browser-relay/src/relay.ts:495-525 | Every command frame carries the control epoch its connection has at that moment, a queued Stop's carries none, and a fill reference goes only to a connection with the capability. |
| RelayFrames.StoppedSetsTheEpoch | apps/browser-relay/src/relay.ts:386-408 | Only a `stopped` event with an epoch changes a connection's epoch, that of its own connection, to that epoch; an event sends nothing. |
| RelayFrames.AdmissionSetsNoEpoch | apps/browser-relay/src/relay.ts:288-328 | Admission gives a new connection no epoch and no binding, keeps all others', and sends at most a queued Stop without an epoch. |
| RelayWire.NewIds | apps/browser-relay/src/relay.ts:498-524 | Every frame a step sends has an id between the relay's two counters, no earlier frame changes, and a delivery is always a Stop: the frames between the counters, in id order, are all that was sent. |
| RelayWire.WireStep | apps/browser-relay/src/relay.ts:386-525 | Whatever happens, except an event of the connection itself, its epoch stays, and each frame it is sent carries that epoch, or none if it is a queued Stop. |
| RelayWire.EventStep | apps/browser-relay/src/relay.ts:386-408 | An event of the connection sends nothing and sets its epoch exactly if it is a Stop with one. |
| RelayWire.AdmissionStep | apps/browser-relay/src/relay.ts:288-328 | A socket gets its connection only by a granted admission; it starts without an epoch and all it is sent then is a queued Stop. |
| RelayWire.SocketHasOneConnection | apps/browser-relay/src/relay.ts:241-282 | In every run a socket that ever had a connection never has another: its frames are handled for that one or not at all. |
| RelayAdmissions.EveryConnectionWasAdmitted | apps/browser-relay/src/relay.ts:243-307 | In every run, each connection that ever existed said hello on its own socket with an identity verified for its own key and the fill capability it now has, and the admission check begun by that hello was granted later. |
| RelayFrames.HelloEpochs | apps/browser-relay/src/relay.ts:243-271 | A hello on an open socket the relay does not know, with an accepted identity, may start one admission check that holds that identity; any other hello starts none, and no hello registers a connection or changes an epoch. |
| RelayHistory.DeadConnectionIsSilent | apps/browser-relay/src/relay.ts:269-282 | Once a connection is replaced, revoked, swept or disconnected, it stays so and nothing is ever sent on it again. |
| RelayHistory.NothingAfterBoundTimeout | apps/browser-relay/src/relay.ts:505-515 | After a task-bound command times out its connection is dead, and nothing further is sent on it in any continuation. |
| RelayStops.StopSurvivesStep | apps/browser-relay/src/relay.ts:148-170 | A queued Stop leaves the queue in a step only if that step is an ok result for one of its own outstanding deliveries. |
| RelayStops.StopIsNeverLost | apps/browser-relay/src/relay.ts:148-170 | Over a whole run: a queued Stop that is gone was acknowledged at some step, across timeouts, failures, events and reconnects. |
| RelayStops.StopIsBeingDelivered | apps/browser-relay/src/relay.ts:152-168 | While a profile with a queued Stop is connected there is exactly one outstanding delivery, timer armed, or exactly one armed retry; otherwise neither. |
| BrowserRelay.BrowserRelay.RejectPending | apps/browser-relay/src/relay.ts:545-551 | The loop disarms every entry's timer, settles each once, fails its caller or arms its retry, and clears the table. |
| BrowserRelay.BrowserRelay.HandleDisconnect | apps/browser-relay/src/relay.ts:412-428 | Unregistering before rejecting, as written, is the model's disconnect; the order does not matter. |
| BrowserRelay.BrowserRelay.HandleHello | apps/browser-relay/src/relay.ts:243-261 | Hello up to its await takes the model's step; a second hello on a socket disconnects it. |
| BrowserRelay.BrowserRelay.FinishHello | apps/browser-relay/src/relay.ts:262-329 | The continuation takes the model's step. |
| BrowserRelay.BrowserRelay.Admit | apps/browser-relay/src/relay.ts:262-329 | Replacing by overwriting the profile's entry equals disconnecting the old connection, because the registries are inverse in every reachable state. |
| BrowserRelay.BrowserRelay.HandleResult | apps/browser-relay/src/relay.ts:348-384 | A result takes the model's step: Stop before the authority check, anything else after it. |
| BrowserRelay.BrowserRelay.HandleEvent | apps/browser-relay/src/relay.ts:386-408 | An extension event takes the model's step. |
| BrowserRelay.BrowserRelay.HandlePing | apps/browser-relay/src/relay.ts:338-346 | A ping takes the model's step. |
| BrowserRelay.BrowserRelay.Resume | apps/browser-relay/src/relay.ts:341-383 | A handler resumed with its verdict takes the model's step, on what it captured; a refused handler has sent nothing and leaves its connection dead. |
| RelayDispatch.BindAndSendMeans | apps/browser-relay/src/relay.ts:480-525 | A frame for the command goes out if and only if the guards hold. Without a task: no task was ever bound. With task t: t is not retired, or this is Stop of the active t; and t is active, or this is `navigate` or `open_tab` with nothing outstanding and fewer than 1024 tasks left behind; and a fill needs the capability. The frame is pending there with its timer and the connection's epoch, its task is active, and Stop, and only Stop, retires it. A starter that finds the tasks used up revokes the connection. Anything else sends nothing and changes nothing but that the call is over. |
| BrowserRelay.BrowserRelay.BindAndSend | apps/browser-relay/src/relay.ts:480-525 | The statements do exactly that: a frame if and only if the guards hold, a revocation if and only if the tasks are used up, and otherwise only the end of the call. |
| RelayDispatch.DispatchBoundMeans | apps/browser-relay/src/relay.ts:456-478 | Without a connection an unbound Stop is queued and anything else is over; with one a Stop meets the guards at once, and any other command does nothing but wait for the authority, on the connection found. |
| RelayVerdicts.DeniedIsDead | apps/browser-relay/src/relay.ts:338-478 | In every reachable state a refused ping, result or command sends nothing and leaves its connection dead, its socket closed if it was registered, and silent in every continuation; a refused renewal or safety check does so exactly if the connection is still registered, and else changes nothing. |
| RelayVerdicts.CommandsWereGranted | apps/browser-relay/src/relay.ts:463-525 | Over every run each command frame other than Stop and the relay's own deliveries was sent by the grant of a check begun for that very command, with its operation and task, on the connection it was sent to, registered at that moment. |
| RelayHandlers.GrantMeans | apps/browser-relay/src/relay.ts:341-478 | A grant lets a ping, a renewal and a safety check go on without effect; settles the command of a result exactly if the connection is registered and the command pending, an ok one clearing the terminal event of the profile; and sends a waiting command by the guards above exactly if its connection is still registered. |
| RelayHandlers.ResultMeans | apps/browser-relay/src/relay.ts:348-384 | A result for a pending Stop settles it before the authority is asked, and an ok one marks the profile as stopped; any other result settles nothing yet and waits for the authority. |
| RelayHandlers.EventMeans | apps/browser-relay/src/relay.ts:386-408 | Any event settles everything in flight on its connection; Stop and a closed tab are remembered as the profile's terminal event, a lost debugger is not. |
| RelayHandlers.ActiveStopIsSent | apps/browser-relay/src/relay.ts:435-525 | In every reachable state Stop of a connection's active task with no call before it is on the wire in that very step, timer armed, and its task is retired. |
| RelayHandlers.QueuedStopIsSent | apps/browser-relay/src/relay.ts:445-525 | Queued behind others it goes out in the step in which its turn comes, if the connection it was submitted on is still registered. |
| RelayHandlers.CallMeans | apps/browser-relay/src/relay.ts:445-454 | A call whose turn comes is dispatched on the connection registered at its submission, and is over without effect if another or none is registered now. |
| RelayHandlers.HelloMeans | apps/browser-relay/src/relay.ts:243-261 | A hello is dropped on a closed socket, ends a socket that said hello before, is refused without an identity, and otherwise does nothing but start one admission check. |
| RelayHandlers.AdmissionMeans | apps/browser-relay/src/relay.ts:262-329 | An admission granted while the socket is open registers exactly the new connection in place of the profile's old one; any other registers nothing, and a refused one closes the socket. |
| RelayHandlers.UnboundTimeoutMeans | apps/browser-relay/src/relay.ts:504-515 | An unbound command that times out is settled alone and its connection stays as it is. |
| RelayLiveness.SweptExactlyWhenSilent | apps/browser-relay/src/relay.ts:529-543 | After any run a registered connection is swept if and only if the last frame it was heard with, computed from the events, is more than 90 000 ms old; otherwise nothing changes. |
| BrowserRelay.BrowserRelay.DispatchBoundCommand | apps/browser-relay/src/relay.ts:456-478 | The caller may rely on exactly that. |
| BrowserRelay.BrowserRelay.DispatchCommand | apps/browser-relay/src/relay.ts:435-454 | A task-bound call joins its profile's tail or runs at once. |
| BrowserRelay.BrowserRelay.TailSettled | apps/browser-relay/src/relay.ts:447-450 | A queued call runs when its predecessor has settled. |
| BrowserRelay.BrowserRelay.CommandExpired | apps/browser-relay/src/relay.ts:157-160 | A fired command timer takes the model's step: a Stop delivery tries again, a bound command revokes. |
| BrowserRelay.BrowserRelay.RetryExpired | apps/browser-relay/src/relay.ts:152-166 | A fired one-second retry takes the model's step. |
| BrowserRelay.BrowserRelay.RenewAuthority | apps/browser-relay/src/relay.ts:133-137 | After the loop every registered connection has been asked about, and the registry is unchanged. |
| BrowserRelay.BrowserRelay.SweepDead | apps/browser-relay/src/relay.ts:529-543 | Exactly the connections silent past the window are gone, all others stay, and the result counts them. |
| FenceTheorems.StepKeeps | apps/app-desktop/src/embedded-browser.ts:136-414 | Every step of desktop, link and relay keeps the fence's invariant: the epoch in force is the last announced on the link, epochs rise, and what the relay has read of them is what is no longer in flight. |
| FenceTheorems.OnlyFreshCommandsPass | apps/app-desktop/src/embedded-browser.ts:371-376 | A dispatched command passes the epoch test if and only if nothing was announced on this link or the relay had, when it sent the command, processed an announcement of the link's latest epoch: the last one, or the one before it that `ready` made the desktop repeat. A queued Stop passes if and only if nothing was announced. |
| FenceTheorems.OneStopAnnouncedTwice | packages/browser-control/src/relay-client.ts:158-169 | Events are sent whenever the socket is open: a Stop between admission and reading `ready` is announced twice, and a command sent after the first passes. |
| FenceTheorems.PassedAfterStopWasProcessed | apps/app-desktop/src/embedded-browser.ts:257-282 | When control is taken on an open link, any command that passes there later left the relay after it had processed the announcement of that very Stop. |
| FenceTheorems.DurableStopStaysRefused | apps/app-desktop/src/embedded-browser.ts:371-376 | While a link lasts on which something was announced, a queued Stop's delivery is refused. |
| FenceTheorems.DormantAnnouncesAgain | apps/app-desktop/src/embedded-browser.ts:184-189 | On reading `ready` a dormant or released desktop announces the fence in force, after everything announced on this link before and before it reads any command. |
| FenceTheorems.StopFencesEverything | apps/app-desktop/src/embedded-browser.ts:285-317 | Every way of taking control leaves no executor, moves past the generation of every accepted command, and announces on an open link an epoch larger than all before. |
| FenceTheorems.StaleCommandIsSilent | apps/app-desktop/src/embedded-browser.ts:403-413 | A command accepted before a later Stop, release or restart never acts again and publishes nothing, in any continuation. |
| FenceTheorems.OneCommandActs | apps/app-desktop/src/embedded-browser.ts:326-328 | At most one command can act at a time, and it finds the live host and the executor of its own generation. |
| FenceTheorems.NoHostReplaced | apps/app-desktop/src/embedded-browser.ts:216-244 | No host is started while another lives, whatever interleaving of pairing, show and commands. |
| FenceTheorems.OnlyStarterReopens | apps/app-desktop/src/embedded-browser.ts:387-400 | Blocked and inactive, control comes back only by the user, a new pairing, or a starter with a usable URL that passes the fence, and only if a host can be made. |
| FenceHandlers.PublishedExactlyWhen | apps/app-desktop/src/embedded-browser.ts:403-413 | For every reachable state, accepted command and run: it is published as ok if and only if its closure ended without an error before any change of control, and as failed if and only if before any change of control it threw or its turn came without active control; after a change of control it ends silently. |
| FenceHandlers.BeginsExactlyWhen | apps/app-desktop/src/embedded-browser.ts:403-412 | A queued command's turn comes if and only if every earlier one of its queue is over; it then executes if it is of the current generation and control is active, and otherwise ends at once, silently if the generation moved. |
| FenceHandlers.ActsExactlyWhen | apps/app-desktop/src/embedded-browser.ts:345-351 | A debugger call of an executing command acts, once, if and only if the command is of the current generation and control is active; otherwise the command is over. |
| FenceHandlers.GenerationCountsChanges | apps/app-desktop/src/embedded-browser.ts:257-400 | Each event that takes control or gives it anew, listed from the events, moves the generation by one; no other event moves it. |
| FenceHandlers.BlockedExactlyWhen | apps/app-desktop/src/embedded-browser.ts:136-400 | The automatic block is set by exactly these: being unpaired or turned down, the last tab closed, the debugger lost, the dialog refused, Stop with no host; and lifted by exactly these: a host made, pairing begun or settled, the host closed, a disposal that does not preserve it. |
| FenceHandlers.RelaySideMeans | apps/browser-relay/src/relay.ts:386-525 | The relay's side of the link: a hello is turned down once, events are read in order and only a Stop's changes the epoch put on commands, and a queued Stop carries none. |
| FenceHandlers.RelayMovesLink | apps/browser-relay/src/relay.ts:386-525 | Whatever the relay does changes nothing of the desktop but the link, and nothing while there is none. |
| FenceHandlers.ReceivedExactlyWhen | apps/app-desktop/src/embedded-browser.ts:371-414 | A command of another epoch is ignored; a Stop takes control and leaves the user the host; a command that needs a host is ignored if it is a starter with a refused URL, changes the generation alone if no host can be made, and otherwise runs on one new host; every other is queued on the host there is. |
| FenceHandlers.PairsExactlyWhen | apps/app-desktop/src/embedded-browser.ts:143-157 | Pairing goes ahead if and only if none is under way, the caller's expected epoch is current and, if automatic, nothing is blocked, active or armed; it then stops everything, lifts the block and asks unless the user had approved, and otherwise nothing changes. |
| FenceHandlers.AnswersExactlyWhen | apps/app-desktop/src/embedded-browser.ts:161-163 | The dialog's answer counts only in the generation it was asked in: a refusal blocks automatic pairing, a consent connects. |
| FenceHandlers.SettlesExactlyWhen | apps/app-desktop/src/embedded-browser.ts:203-213 | A settled pairing of the current generation starts one host if the user asked and none if it was automatic, and ends everything if it failed; an older one changes nothing. |
| FenceHandlers.ShowsExactlyWhen | apps/app-desktop/src/embedded-browser.ts:109-114 | `show` starts a host if and only if none lives, pairing is armed, the relay is ready and a host can be made. |
| FenceHandlers.TabClosedIsSent | apps/app-desktop/src/embedded-browser.ts:225-229 | A closed tab of the executor is reported if and only if the link's socket is open. |
| ComposedFence.StepProjects | apps/browser-relay/src/relay.ts:386-525 | Relay and desktop together: each step of the two, the relay handling anything at all, is a run of `Fence`, and the link's record of the relay stays the relay's own record of that socket. |
| ComposedFence.ComposedRefinesFence | apps/browser-relay/src/relay.ts:224-551 | Refinement by induction over all runs: the desktop of every run of the relay's model with a desktop is the desktop of a run of `Fence`, where each relay step was nothing, an event read, or the frames newly issued for the link's connection in id order. |
| ComposedFence.ComposedFence | apps/app-desktop/src/embedded-browser.ts:371-376 | Hence of the relay itself: a command it issued passes if and only if it had then processed the desktop's latest epoch on that link. |
| ComposedFence.ComposedStop | apps/browser-relay/src/relay.ts:386-391 | Stop across both parties: when control is taken on an open link, a dispatched command that passes there later was issued by the relay after it handled the event of that very Stop. |
| ComposedFence.ComposedDurableStop | apps/browser-relay/src/relay.ts:148-170 | Of the relay's own deliveries: in every run of both, a queued Stop is refused for as long as a link lasts on which the desktop has announced anything. |
| ComposedFence.ComposedReconnect | apps/app-desktop/src/embedded-browser.ts:184-189 | In every run of both, a desktop that was stopped announces the fence in force when it reads `ready`, after everything announced on that link before. |
| EmbeddedBrowser.EmbeddedBrowser.StopControl | apps/app-desktop/src/embedded-browser.ts:285-317 | After `stop` no host and no executor remain, every accepted command is of an older generation, and a kept channel has announced an epoch larger than all before; otherwise channel and partition are gone. |
| EmbeddedBrowser.EmbeddedBrowser.Release | apps/app-desktop/src/embedded-browser.ts:257-282 | After `releaseControl` the host, if there is one, is kept and the user's, no executor remains, every accepted command is stale, and the announced epoch is larger than all before. |
| EmbeddedBrowser.EmbeddedBrowser.Start | apps/app-desktop/src/embedded-browser.ts:216-244 | `startHost` is called only while no host lives. Afterwards there is exactly one more and it is the only one, control is Brian's and unblocked, the executor is of the current generation, the invariant that every handler relies on holds again, and no job that was running before may act on the new host. |
| EmbeddedBrowser.EmbeddedBrowser.StartAnother | apps/app-desktop/src/embedded-browser.ts:387-400 | A start in a new generation: everything accepted before is of an older one, even if no host can be made, and the invariant holds again. |
| EmbeddedBrowser.EmbeddedBrowser.ReceiveCommand | apps/app-desktop/src/embedded-browser.ts:371-414 | A command of another epoch changes nothing; a Stop that passes makes everything accepted stale and announces a new epoch; any other is queued at most once, last, with the generation current when it is. |
| EmbeddedBrowser.EmbeddedBrowser.AcceptCommand | apps/app-desktop/src/embedded-browser.ts:378-414 | Past the fence: a released host is taken back, a starter or an unblocked pairing starts one in a new generation, and the command is queued unless its URL or the host is refused. |
| EmbeddedBrowser.EmbeddedBrowser.BecameReady | apps/app-desktop/src/embedded-browser.ts:184-189 | Control that Brian holds has announced nothing on this link and drops its fence. Control that was taken keeps its epoch and announces it after everything announced on this link before, none of which is later, so that the last announcement is again the epoch in force. |
| EmbeddedBrowser.EmbeddedBrowser.OnFrame | apps/app-desktop/src/embedded-browser.ts:174-195 | A frame from the relay, `ready`, a refusal or a command, extends the run by the model's step. |
| EmbeddedBrowser.EmbeddedBrowser.OnUnpaired | apps/app-desktop/src/embedded-browser.ts:190-190 | Being unpaired or replaced ends control. |
| EmbeddedBrowser.EmbeddedBrowser.OnToolbarStop | apps/app-desktop/src/embedded-browser.ts:222-222 | The toolbar's Stop keeps the host, makes everything accepted stale and announces a new epoch. |
| EmbeddedBrowser.EmbeddedBrowser.OnEmpty | apps/app-desktop/src/embedded-browser.ts:224-224 | Closing the last tab takes the host away, makes everything accepted stale and announces a new epoch. |
| EmbeddedBrowser.EmbeddedBrowser.OnHostClosed | apps/app-desktop/src/embedded-browser.ts:223-223 | Closing the host ends control and the automatic block. |
| EmbeddedBrowser.EmbeddedBrowser.OnTabClosed | apps/app-desktop/src/embedded-browser.ts:225-229 | Losing the executor's tab tells the relay, and changes nothing of the fence. |
| EmbeddedBrowser.EmbeddedBrowser.OnDetached | apps/app-desktop/src/embedded-browser.ts:230-232 | Losing the debugger ends control for good. |
| EmbeddedBrowser.EmbeddedBrowser.OnShow | apps/app-desktop/src/embedded-browser.ts:109-114 | `show` starts a host in a new generation when an armed, ready relay has none; the generation moves on even if the host cannot be made. |
| EmbeddedBrowser.EmbeddedBrowser.BeginPairing | apps/app-desktop/src/embedded-browser.ts:143-157 | Pairing up to its await: a stale expected epoch or a busy automatic pair is refused, anything else starts from a clean slate. |
| EmbeddedBrowser.EmbeddedBrowser.DialogClosed | apps/app-desktop/src/embedded-browser.ts:161-163 | The dialog's answer acts only if nothing took control meanwhile. |
| EmbeddedBrowser.EmbeddedBrowser.FinishPairing | apps/app-desktop/src/embedded-browser.ts:203-213 | The continuation acts only if no Stop came meanwhile. |
| EmbeddedBrowser.EmbeddedBrowser.BeginJob | apps/app-desktop/src/embedded-browser.ts:403-412 | A queued command executes only if its generation is still the current one. |
| EmbeddedBrowser.EmbeddedBrowser.CallDebugger | apps/app-desktop/src/embedded-browser.ts:345-351 | A debugger call acts only after its check. |
| EmbeddedBrowser.EmbeddedBrowser.EndJob | apps/app-desktop/src/embedded-browser.ts:406-412 | The result is published as ok if the command is of the current generation, control is active and it did not throw, as failed if it failed in the current generation, and not at all otherwise; nothing else changes. |
| CommandQueueTheorems.LaneIsSafe | apps/browser-extension/src/command-queue.ts:12-51 | In every reachable state: waiting plus active within the limit, waiting implies active, at most one job in the lane also across `cancel`, every promise settled exactly once when finished and never before. |
| CommandQueueTheorems.FirstInFirstOut | apps/browser-extension/src/command-queue.ts:26-51 | The jobs taken so far followed by those waiting are exactly the accepted, uncancelled jobs in submission order. |
| CommandQueueTheorems.AcceptedExactlyWhen | apps/browser-extension/src/command-queue.ts:17-43 | In every reachable state a submission is refused, settled at once and changes nothing else if and only if waiting and active reach the limit; otherwise it takes a free lane or waits last. |
| CommandQueueTheorems.RunsExactlyWhen | apps/browser-extension/src/command-queue.ts:29-33 | A job that took the lane begins if and only if no `cancel` came since its submission; a stale one fails once without beginning and the lane passes to the first that waits. |
| CommandQueueTheorems.LanePassesOn | apps/browser-extension/src/command-queue.ts:34-51 | When an operation has ended its promise is settled once with its result, and the lane passes to the first that waits, nobody else moving. |
| CommandQueueTheorems.CancelMakesStale | apps/browser-extension/src/command-queue.ts:12-15 | `cancel` puts every earlier job behind the generation and rejects all waiting ones, each once. |
| CommandQueueTheorems.NothingStaleAfterCancel | apps/browser-extension/src/background.ts:203-208 | Whatever follows a `cancel`, an earlier job that had not begun never begins, and no earlier guarded job succeeds unless it had passed its last check before the `cancel`. |
| CommandQueueTheorems.ReportsSuccessExactlyWhen | apps/browser-extension/src/command-queue.ts:29-38 | In every reachable state, for every running job and every continuation: it is reported as a success if and only if its operation did not throw and, where it ends with `check()`, no `cancel` came between submission and that check; nothing later changes that, and reporting it needs one step. |
| CommandQueueTheorems.CancelStopsExactlyGuardedWork | apps/browser-extension/src/command-queue.ts:9-15 | For every operation running at a `cancel` that later ends without throwing, whatever happened meanwhile: it still succeeds if and only if it does not end with `check()`. |
| CommandQueue.CommandQueue.Submit | apps/browser-extension/src/command-queue.ts:17-43 | `run` takes the model's step. |
| CommandQueue.CommandQueue.CancelAllWaiting | apps/browser-extension/src/command-queue.ts:12-15 | `cancel` and its loop take the model's step. |
| CommandQueue.CommandQueue.StartJob | apps/browser-extension/src/command-queue.ts:29-33 | A taken job checks its generation before its body begins. |
| CommandQueue.CommandQueue.EndJob | apps/browser-extension/src/background.ts:203-207 | The operation's own last check decides its result. |
| CommandQueue.CommandQueue.ContinueJob | apps/browser-extension/src/command-queue.ts:32-38 | After the await the promise settles once, the lane is free and the next job is taken. |
| CommandQueue.CommandQueue.TakeNext | apps/browser-extension/src/command-queue.ts:45-51 | The order of jobs taken and waiting does not change, at most one is taken and none while the lane is active, afterwards the lane is idle only if nobody waits, and the lane's invariant is restored. |
| TaskGateTheorems.StopIsReleasedOnlyByFreshAllow | apps/browser-extension/src/task-gate.ts:97-108 | With any number of concurrent callers, Stop is released by a step if and only if it resumes a caller with an Allow from a prompt shown since the last `stop` or `endTask` without pre-approval. |
| TaskGateTheorems.StaleCallerFails | apps/browser-extension/src/task-gate.ts:91-101 | A caller that joined a prompt shown before the last end fails, and resuming it changes nothing else. |
| TaskGateTheorems.StoppedAlwaysAsks | apps/browser-extension/src/task-gate.ts:71-91 | While stopped every `requireTab` waits for a prompt; one shown since the last end allows no pre-approval. |
| TaskGateTheorems.OnePromptInFlight | apps/browser-extension/src/task-gate.ts:83-90 | At most one prompt is unanswered, and it is the one in flight. |
| TaskGateTheorems.GenerationCountsEnds | apps/browser-extension/src/task-gate.ts:185-197 | Exactly `stop` and `endTask` start a new generation. |
| TaskGateTheorems.ManualRequirementIsNotFenced | apps/browser-extension/src/task-gate.ts:178-182 | A run in which a prompt shown with pre-approval lifts a later manual-approval requirement. |
| TaskGateTheorems.ManualRequirementHoldsExactlyWhen | apps/browser-extension/src/task-gate.ts:71-109 | For every reachable state: after `revokeConsent` with the requirement, over every continuation, the first step that lifts it is a grant of a prompt shown without pre-approval if and only if, at the call, no prompt of the current task shown with pre-approval was unanswered or allowed with a caller still waiting. |
| TaskGateTheorems.TabTablesAgree | apps/browser-extension/src/task-gate.ts:221-267 | In every reachable state the two tab tables are inverse and unambiguous, the active handle is registered, task mode holds no full-scope tab, and at most 8 tabs are created ones. |
| TaskGateTheorems.HandlesAreNeverReused | apps/browser-extension/src/task-gate.ts:221-227 | Over any run a handle once given out keeps meaning the same tab or nothing. |
| TaskGateTheorems.EndReturnsOpenCreatedTabs | apps/browser-extension/src/task-gate.ts:184-197 | The tabs `stop` and `endTask` return are, in order, those newly registered as created since the last end and not removed since; expiry, revocation and mode changes lose none. |
| TaskGateHandlers.RequireAsksExactlyWhen | apps/browser-extension/src/task-gate.ts:71-91 | After any run `requireTab` uses the selected tab without asking if and only if the gate is not stopped, a tab is selected once the mode is applied, and the latest grant, selection or accepted command since the last end or revocation, computed from the events, is at most 600 000 ms old; otherwise it drops all but created tabs and waits for a prompt. |
| TaskGateHandlers.ResumeMeans | apps/browser-extension/src/task-gate.ts:92-109 | A caller whose prompt was allowed in its own generation is granted exactly that tab, registered once and selected, and Stop and the manual requirement are lifted; any other fails and changes nothing else. |
| TaskGateHandlers.ModeMeans | apps/browser-extension/src/task-gate.ts:112-121 | Applying a mode keeps exactly the tabs usable in it, and keeps the selection or selects the first one left. |
| TaskGateHandlers.SelectMeans | apps/browser-extension/src/task-gate.ts:146-153 | A handle is selected, and the idle time restarts, exactly if its tab is registered and usable in the mode asked for. |
| TaskGateHandlers.CreatedMeans | apps/browser-extension/src/task-gate.ts:123-136 | An opened tab is registered last with a new handle unless it is known or eight created ones are registered. |
| TaskGateHandlers.RemovalMeans | apps/browser-extension/src/task-gate.ts:200-207 | A closed tab is forgotten, and if it was selected the first usable one left is selected. |
| TaskGateHandlers.EndMeans | apps/browser-extension/src/task-gate.ts:176-197 | Revoking keeps exactly the created tabs and selects none; ending forgets all tabs in a new generation; Stop does that and latches; none of them answers a prompt or a caller. |
| TaskGate.TaskGate.KeepOnly | apps/browser-extension/src/task-gate.ts:115-117 | The loop of removals over a copy of the table leaves both tables and the active handle as filtering does. |
| TaskGate.TaskGate.RequireTab | apps/browser-extension/src/task-gate.ts:71-91 | The selected tab is returned at once if and only if the gate is not stopped, a tab is selected in the mode asked for and the gate was used at most 600 000 ms ago; otherwise the caller waits for a prompt and every authorization but the created tabs is gone. |
| TaskGate.TaskGate.ResumeCaller | apps/browser-extension/src/task-gate.ts:92-109 | `requireTab` after its await takes the model's step. |
| TaskGate.TaskGate.ApplyMode | apps/browser-extension/src/task-gate.ts:112-121 | Narrowing drops full-scope tabs and reselects. |
| TaskGate.TaskGate.RegisterCreatedTab | apps/browser-extension/src/task-gate.ts:123-136 | Refuses exactly a new tab beyond the limit, and otherwise returns a handle that means the tab. |
| TaskGate.TaskGate.RegisterFullTab | apps/browser-extension/src/task-gate.ts:139-144 | Refuses exactly a new tab outside full mode. |
| TaskGate.TaskGate.SelectHandle | apps/browser-extension/src/task-gate.ts:146-153 | Selecting a handle takes the model's step. |
| TaskGate.TaskGate.OnTabRemoved | apps/browser-extension/src/task-gate.ts:200-207 | Removing a tab takes the model's step and tells whether it was selected. |
| TaskGate.TaskGate.RevokeConsent | apps/browser-extension/src/task-gate.ts:178-182 | Revoking takes the model's step. |
| TaskGate.TaskGate.End | apps/browser-extension/src/task-gate.ts:185-197 | Returns exactly the created tabs that the history says are open. |
| ProtectedFillTheorems.DescendantsAreTheClosure | apps/browser-extension/src/protected-fill.ts:243-252 | The fixpoint loop ends, with the least superset of the recorded tabs that is closed under live openers. |
| ProtectedFillTheorems.ClosureCharacterised | apps/browser-extension/src/protected-fill.ts:243-252 | A tab is recorded afterwards if and only if it is in every opener-closed superset. |
| ProtectedFillTheorems.OneStepCheckSuffices | apps/browser-extension/src/protected-fill.ts:326-327 | The one-step check holds if and only if no live tab is in the opener closure of the recorded ones. |
| ProtectedFillTheorems.ReadsAreCurrent | apps/browser-extension/src/protected-fill.ts:43-51 | A closure of the lane always sees the lock as it is stored when it writes. |
| ProtectedFillTheorems.LockOnlyGrows | apps/browser-extension/src/protected-fill.ts:181-204 | In every reachable state a step keeps the lock's request and session, only adds tabs and never changes a pinned endpoint, unless it is the end of `complete`. |
| ProtectedFillTheorems.DisclosureSurvives | apps/browser-extension/src/protected-fill.ts:43-60 | Over any run without a removal the lock stays the same disclosure with at least its tabs. |
| ProtectedFillTheorems.CleanupIsComplete | apps/browser-extension/src/protected-fill.ts:317-330 | When the session path removes the lock, no live tab is in the opener closure of any recorded tab, no tab event was lost in this worker, and the lock is of this browser session, whatever happened between check and removal. |
| ProtectedFillHandlers.TrackedTabsAreGone | apps/browser-extension/src/protected-fill.ts:52-60 | When the session path removes the lock, no tab whose tracking committed under it is open, whatever became of its opener or of the link to it. |
| ProtectedFillHandlers.TrackedStaysRecorded | apps/browser-extension/src/protected-fill.ts:52-60 | A tab whose tracking commits under a lock of the session that records its opener is recorded in every continuation until the lock is removed. |
| ProtectedFillHandlers.LaneMeans | apps/browser-extension/src/protected-fill.ts:43-51 | Closures are queued last and start first-come, each reading the lock when it starts, exactly while none is running. |
| ProtectedFillHandlers.ClosureEnds | apps/browser-extension/src/protected-fill.ts:45-60 | A closure ends when it has written or thrown, and the next may start; only a tracking closure that throws is remembered, and no closure touches another's tabs, lane or session. |
| ProtectedFillHandlers.BrowserMeans | apps/browser-extension/src/protected-fill.ts:63-85 | A restarted worker forgets its lane and that an event was lost, and keeps the lock, the session and the tabs; a restarted browser keeps the lock alone; a tab opens with a number new in this browser run, by an opener that is open, and closes or loses its opener alone. |
| ProtectedFillHandlers.QueryMeans | apps/browser-extension/src/protected-fill.ts:236-240 | The closures that collect and check look at the tabs only under a lock of this session with no tab event lost; recovery only under a lock. |
| ProtectedFillHandlers.ReserveMeans | apps/browser-extension/src/protected-fill.ts:181-187 | A fill is reserved exactly if nothing is locked, for the tabs and endpoint given and under the session's identity where there is one. |
| ProtectedFillHandlers.MergeMeans | apps/browser-extension/src/protected-fill.ts:199-204 | After a merge exactly the recorded and the named tabs are recorded. |
| ProtectedFillHandlers.CollectMeans | apps/browser-extension/src/protected-fill.ts:236-256 | After collecting exactly the opener closure, among the tabs shown, of what was recorded is recorded. |
| ProtectedFillHandlers.FinishMeans | apps/browser-extension/src/protected-fill.ts:317-330 | The lock is removed if and only if no tab shown is recorded or was opened by a recorded one; in recovery, if and only if nothing but the keeper is shown. |
| ProtectedFillHandlers.ConfigureMeans | apps/browser-extension/src/protected-fill.ts:88-96 | A pinned endpoint is never replaced and an unpinned lock takes the configured one; recovery locks only where nothing is locked. |
| ProtectedFillTheorems.TrackingFailureSticks | apps/browser-extension/src/protected-fill.ts:52-60 | A lost tab event is remembered for as long as the worker lives. |
| ProtectedFillTheorems.RestartBlocksSessionPath | apps/browser-extension/src/protected-fill.ts:63-85 | After a browser restart a lock made before is never of the current session, and the next session will be another one. |
| ProtectedFill.CollectDescendants | apps/browser-extension/src/protected-fill.ts:243-252 | The `while (added)` loop computes the closure. |
| ProtectedFill.MergeIds | apps/browser-extension/src/protected-fill.ts:202-202 | The merge keeps the recorded tabs first and adds the new ones once. |
| ProtectedFill.AnyLeft | apps/browser-extension/src/protected-fill.ts:326-327 | The loop decides the one-step check. |
| ProtectedFill.ProtectedFill.CommitTrack | apps/browser-extension/src/protected-fill.ts:53-59 | Under a lock of this session that records the opener the new tab is recorded last, once; otherwise the lock is as it was. |
| ProtectedFill.ProtectedFill.CommitReserve | apps/browser-extension/src/protected-fill.ts:181-187 | The closure that creates the lock takes the model's step. |
| ProtectedFill.ProtectedFill.CommitMerge | apps/browser-extension/src/protected-fill.ts:199-204 | The merging closure takes the model's step. |
| ProtectedFill.ProtectedFill.CommitCollect | apps/browser-extension/src/protected-fill.ts:236-256 | Persists the closure before anything is closed and returns exactly its live tabs. |
| ProtectedFill.ProtectedFill.CommitFinish | apps/browser-extension/src/protected-fill.ts:317-330 | Removes the lock exactly when the check passes. |
| ProbeExpressions.PlannedPreserves | scripts/crm/permission-probe.c:172-191 | Under three-valued logic with short-circuit AND, OR, both forms of CASE, COALESCE and ANY/ALL subplans, volatile operators and functions included, the rewritten expression has the original outcome, NULL and ERROR included, calls the same things in the same order, and the counters grow by exactly the predicate nodes and mapped builtins evaluated; a hashed subplan's test expression is untouched. |
| ProbeExpressions.CallPreserved | scripts/crm/permission-probe.c:316-329 | A replaced builtin calls the original with the same arguments at the same point and counts it once; a strict one that is given a NULL is neither called nor counted. |
| ProbeExpressions.ReplacementRuns | scripts/crm/permission-probe.c:316-329 | A replacement calls its builtin once with the same arguments and counts one hash or one privilege check; a strict one given a NULL returns NULL, calls nothing and counts nothing. |
| ProbeExpressions.WrapCounts | scripts/crm/permission-probe.c:342-353 | A wrapper returns its argument, counts one completed evaluation and calls nothing else. |
| ProbePlans.ProbePlanRewritesSlots | scripts/crm/permission-probe.c:192-230 | `probe_plan` rewrites every expression it reaches and leaves keys and unsupported nodes exactly alone. |
| ProbePlans.NoExecutorCanTell | scripts/crm/permission-probe.c:192-230 | Any executor, however it chooses what to evaluate next from what it has seen, sees the same outcomes from the rewritten plan, and everything evaluated in a reached slot is counted once. |
| ProbePlans.ZeroMissedIsFullCoverage | scripts/crm/permission-probe.c:176-227 | The three unobserved-counters stay zero if and only if every node is supported and every expression was instrumented throughout. |
| ProbeCounters.CountersMean | scripts/crm/permission-probe.c:172-230 | `unobserved_index_quals` is the number of quals of the index scans visited, `unobserved_join_keys` that of the clauses of the hash and merge joins visited plus the hashed subplans entered in their expressions, and `unsupported_plans` the number of nodes visited of no supported kind. |
| ProbeCounters.PredicateCountedExactlyWhen | scripts/crm/permission-probe.c:183-186 | One evaluation of an operator node counts one predicate beyond its operands if and only if it completes and is an operator with a Boolean result, a NULL test, a Boolean test or an ANY/ALL over an array. |
| ProbeQueries.AtMostOneWrapper | scripts/crm/permission-probe.c:134-168 | In a query and every nested one, no path within the level carries two direct wrappers, no watched predicate lacks one, and row-security qualifications carry none. |
| ProbeQueries.NothingExposed | scripts/crm/permission-probe.c:109-159 | At a query's top level every watched predicate is under a wrapper. |
| ProbeQueries.CandidateMeans | scripts/crm/permission-probe.c:109-157 | What is wrapped is a Boolean variable that is watched, or a predicate node with a watched variable of its own query level anywhere in it. |
| ProbeQueries.OnlyWatchedWrapped | scripts/crm/permission-probe.c:134-159 | In the whole rewritten query, nested ones and qualifications included, every direct wrapper is around exactly one such predicate. |
| ProbeQueries.NoBuiltinLeft | scripts/crm/permission-probe.c:160-166 | No call of a mapped builtin is left anywhere. |
| ProbeQueries.RewriteIsErasable | scripts/crm/permission-probe.c:134-168 | Reading the wrappers as the identities they are and replacements as their builtins gives back exactly the parsed query. |
| CallGraph.RunExact | scripts/crm/permission-probe.c:82-101 | While enabled, the entry, edge and direct-edge tables have one slot per key that occurred, holding exactly how often, with caller and root the innermost and outermost function then running, none where none ran. |
| CallGraph.CallsAreConserved | scripts/crm/permission-probe.c:82-101 | While enabled, for every callee the calls over its edges add up to its entry count, and the direct-edge counts to `direct_predicates`. |
| CallGraph.DisabledExactlyWhen | scripts/crm/permission-probe.c:84-97 | The probe switches itself off exactly when a new function finds 8192 entries, a new edge or site finds 4096, a function starts inside 1024 others, or a function leaves that is not the innermost. |
| CallGraph.DisabledIsFinal | scripts/crm/permission-probe.c:82-83 | Once off the probe counts nothing more, whatever follows. |
| PermissionProbe.Search | scripts/crm/permission-probe.c:85-85 | The linear search finds the key's slot or the number of slots in use. |
| PermissionProbe.PermissionProbe.FunctionStarts | scripts/crm/permission-probe.c:84-94 | FHET_START on the arrays takes the model's step. |
| PermissionProbe.PermissionProbe.FunctionLeaves | scripts/crm/permission-probe.c:95-98 | FHET_END and FHET_ABORT on the arrays take the model's step. |
| PermissionProbe.PermissionProbe.PredicateEvaluated | scripts/crm/permission-probe.c:342-350 | The direct counter and its attribution take the model's step. |
| Migrations.EveryRowIsEarned | apps/api/src/migrate-pglite.ts:117-208 | Over any sequence of runs, each ended by a crash, an error or not at all: no file is recorded twice; each file's SQL commits at most once, and only that of an unrecorded ordinary file; an ordinary file has a new row if and only if its SQL committed or a legacy name was recorded before, never both; and a concurrent file is recorded only after all its statements ran. |
| Migrations.CrashThenRun | apps/api/src/migrate-pglite.ts:99-210 | A run over any prefix, stopped anywhere, followed by a full run leaves the rows, the committed SQL, their order and the status of the full run alone, and the insertions add up. |
| Migrations.AnyHistoryThenRun | apps/api/src/migrate-pglite.ts:99-210 | The same for any number of interrupted or partial runs. |
| Migrations.RerunReturnsZero | apps/api/src/migrate-pglite.ts:116-209 | A completed run's count is its ledger insertions; an immediate re-run inserts nothing, commits nothing and returns 0. |
| Migrations.SplitRun | apps/api/src/migrate-pglite.ts:111-114 | Running through a and then through b, a not after b, gives the ledger, commit order and count of running through b. |
| Migrations.RecordedInOrder | apps/api/src/migrate-pglite.ts:111-117 | One run records files in directory order. |
| Migrations.TurnExactlyWhen | apps/api/src/migrate-pglite.ts:117-208 | An uninterrupted turn completes if and only if the file is recorded, under its own or a legacy name, or its SQL is accepted, each statement of it where it runs by statement, and a superseded file besides has its checksum, and its tables unless it is recorded; a file newly recorded gets exactly one row telling how, with its SQL committed if that is how; otherwise it throws and ledger and committed SQL are as before. |
| Migrations.CompletesExactlyWhen | apps/api/src/migrate-pglite.ts:99-210 | An uninterrupted run completes if and only if every file's turn goes through on the ledger the files before it left. |
| Migrations.CrashesExactlyWhen | apps/api/src/migrate-pglite.ts:99-210 | A process may die before any action of a run: a run allowed n actions crashes if and only if the uninterrupted one takes more, and otherwise ends exactly as that does. |
| MigrationRunner.MigrationRunner.Run | apps/api/src/migrate-pglite.ts:99-210 | The loop over files computes the model's run and its count. |
| MigrationRunner.MigrationRunner.MigrateFile | apps/api/src/migrate-pglite.ts:118-207 | After a file's turn it is in the ledger, or ledger and committed SQL are as before; the count is that of new rows, at most one and naming the file; SQL commits only for an unrecorded file and with its row; and what the ledger promises stays true. |
| MigrationRunner.MigrationRunner.ApplyFile | apps/api/src/migrate-pglite.ts:137-207 | The same for a file with no recorded legacy name, whichever of the three ways it is applied. |
| MigrationRunner.MigrationRunner.RunStatements | apps/api/src/migrate-pglite.ts:187-191 | The statement loop runs all statements before the ledger row, and stops at an error. |
| BrowserFiles.QuotaHolds | apps/app-desktop/src/browser-files.ts:44-137 | After any interleaving uploaded bytes, 32 MiB per progressing download and the recorded sizes of the others never exceed 128 MiB; at most 4 progress, at most 20 entries and 20 uploads. |
| BrowserFiles.TerminalDownloadsAreFinal | apps/app-desktop/src/browser-files.ts:55-88 | A download that left `progressing` never changes again. |
| BrowserFiles.DownloadFate | apps/app-desktop/src/browser-files.ts:55-88 | Over any run the first event that ends a download decides for good what is recorded: what arrived and the reported state if it is done within 32 MiB, nothing and `cancelled` if it outgrew that, was interrupted or timed out, and the size last reported if the session was closed. |
| BrowserFiles.RollbackRestores | apps/app-desktop/src/browser-files.ts:125-136 | After any interleaving of other uploads and downloads, an upload that fails or outlives its session gives back exactly what it took when it started: what remains is what the others hold. |
| BrowserFiles.ReadAll | apps/app-desktop/src/browser-files.ts:97-112 | Reading chunk by chunk from each next offset gives back the file. |
| BrowserFiles.BrowserFiles.CaptureItem | apps/app-desktop/src/browser-files.ts:44-67 | A download is accepted if and only if the session is open, fewer than 20 are recorded, 32 MiB suffice for what was announced and 32 MiB more fit into 128 MiB; it is then the last one, and otherwise nothing changes. |
| BrowserFiles.BrowserFiles.ItemUpdated | apps/app-desktop/src/browser-files.ts:68-73 | The `updated` handler takes the model's step. |
| BrowserFiles.BrowserFiles.ItemDone | apps/app-desktop/src/browser-files.ts:74-88 | The `done` handler takes the model's step. |
| BrowserFiles.BrowserFiles.BeginUpload | apps/app-desktop/src/browser-files.ts:114-126 | An upload is accepted if and only if the session is open, it has at most 4 MiB, fewer than 20 are held and it fits into 128 MiB; its bytes are reserved before it is written, and otherwise nothing changes. |
| BrowserFiles.BrowserFiles.FinishUpload | apps/app-desktop/src/browser-files.ts:127-136 | A write that succeeds while the session is open keeps its reservation; any other gives it back, and nothing else changes. |
| SavedAccounts.StoreStaysWellFormed | apps/app-desktop/src/deployment-accounts.ts:96-140 | Over any run, blobs that could not be written and blobs written but not confirmed included, account keys stay unique and every active pointer names an entry of that same deployment. |
| SavedAccounts.ActiveIsUsable | apps/app-desktop/src/deployment-accounts.ts:83-87 | An active pointer always has a session behind it, and `current` finds it. |
| SavedAccounts.CurrentAfterPut | apps/app-desktop/src/deployment-accounts.ts:83-105 | What was put and activated is what `current` returns; other deployments' sessions do not change. |
| SavedAccounts.PutWithoutActivating | apps/app-desktop/src/deployment-accounts.ts:96-105 | Put without being activated, a session changes no deployment's current one, except that where it was current already its tokens are the new ones. |
| SavedAccounts.CurrentIsOfDeployment | apps/app-desktop/src/deployment-accounts.ts:83-87 | Whatever is stored, `current` answers with a saved session of that very deployment or not at all. |
| SavedAccounts.PresentMeans | apps/app-desktop/src/deployment-accounts.ts:115-123 | Updating a presentation changes that of this account alone. |
| SavedAccounts.PutKeepsPlace | apps/app-desktop/src/deployment-accounts.ts:96-105 | Putting an account again keeps its place and presentation and replaces only its tokens; a new one is appended. |
| SavedAccounts.RemovedIsGone | apps/app-desktop/src/deployment-accounts.ts:106-114 | A removed account is gone from the accounts, the stored order and the active pointers; other sessions stay current. |
| SavedAccounts.OrderedIsStablePermutation | apps/app-desktop/src/deployment-accounts.ts:124-129 | `orderedEntries` is a permutation in ascending rank that keeps the stored order among equals. |
| SavedAccounts.CloudComesFirst | apps/app-desktop/src/deployment-accounts.ts:124-129 | Without a stored order Cloud accounts come first, and each of the two groups is in stored order. |
| SavedAccounts.ListedComeFirst | apps/app-desktop/src/deployment-accounts.ts:124-129 | With a stored order the listed accounts come first, in the order of their last mention, and the others after them in stored order. |
| SavedAccounts.MoveExchanges | apps/app-desktop/src/deployment-accounts.ts:130-140 | A move up or down shows the old order with exactly the account and the one before or after it exchanged. |
| SavedAccounts.MoveBack | apps/app-desktop/src/deployment-accounts.ts:130-140 | Up then down, or down then up, shows the original order again. |
| SavedAccounts.MovesExactlyWhen | apps/app-desktop/src/deployment-accounts.ts:130-140 | A move succeeds if and only if the account is saved and not shown at that end already. |
| SavedAccounts.RemoveShowsTheRest | apps/app-desktop/src/deployment-accounts.ts:106-129 | After a removal the other accounts are shown in the order they were shown in. |
| DeploymentAccounts.DeploymentAccounts.Save | apps/app-desktop/src/deployment-accounts.ts:74-82 | The blob is written before it is read back, so a false result may leave the new store behind; true means written and confirmed. |
| DeploymentAccounts.DeploymentAccounts.Put | apps/app-desktop/src/deployment-accounts.ts:96-105 | The blob then holds the store with the account put, or is as before if it could not be written; the result tells whether it was confirmed. |
| DeploymentAccounts.DeploymentAccounts.Remove | apps/app-desktop/src/deployment-accounts.ts:106-114 | The three loops of `remove` compute the model's store. |
| DeploymentAccounts.DeploymentAccounts.Move | apps/app-desktop/src/deployment-accounts.ts:130-140 | `move` succeeds exactly when there is a neighbour on that side and the store can be saved. |
| DeploymentLinks.AccountExactlyWhen | apps/app-desktop/src/deployment-links.ts:92-129 | The answer is one account if and only if everything at exactly this origin is at its root and of one deployment, and the account is the active one there or else the only one. |
| DeploymentLinks.AccountIsSaved | apps/app-desktop/src/deployment-links.ts:117-129 | The account answered is a saved one of the target's deployment at the link's exact root. |
| DeploymentLinks.ResolvesExactlyWhen | apps/app-desktop/src/deployment-links.ts:92-136 | Each of the other answers has its exact condition and content: unknown if the link is no root or nothing is saved at its origin; an unsupported base path if anything there is below its root, with one target for each deployment below, the last saved; a choice of target if there are several deployments; and a choice among exactly the accounts there if none of several is the active one. |
| DeploymentLinks.AddingElsewhereChangesNothing | apps/app-desktop/src/deployment-links.ts:76-90 | Saving any number of accounts of other origins, anywhere in the list, and making them active never changes how a link resolves. |
| DeploymentLinks.OtherOriginsDoNotMatter | apps/app-desktop/src/deployment-links.ts:76-90 | Stores that agree at an origin resolve its links alike, whatever else they hold. |
| DeploymentLinks.EveryDeploymentIsOffered | apps/app-desktop/src/deployment-links.ts:105-115 | A choice of target lists every deployment at the origin once, with its number of accounts. |
| DeploymentLinks.ResolveLink | apps/app-desktop/src/deployment-links.ts:67-136 | The loops compute the resolution, which is that of the entries at the link's origin alone. |
| DesktopAccounts.HistoryIsKept | apps/app-desktop/src/desktop-accounts.ts:121-243 | After any run the store holds exactly the accounts written and not dropped since, with their last tokens, and the directory lists them once each in the order of their last writes. |
| DesktopAccounts.DirectoryIsTheStore | apps/app-desktop/src/desktop-accounts.ts:121-219 | Directory ids are distinct and are exactly the stored ids. |
| DesktopAccounts.LogoutCandidates | apps/app-desktop/src/desktop-accounts.ts:230-243 | Logout candidates are exactly the remaining stored accounts with a token, most recently written first. |
| DesktopAccounts.AddStores | apps/app-desktop/src/desktop-accounts.ts:139-160 | A successful add stores exactly the old accounts, the stashed one and the new one. |
| DesktopAccounts.AddWithinCapExactlyWhen | apps/app-desktop/src/desktop-accounts.ts:153-155 | From a store within the cap a successful add stays within it if and only if it does not stash a further account into a full store. |
| DesktopAccounts.RotationIsRefusedExactlyWhen | apps/app-desktop/src/desktop-accounts.ts:195-204 | A rotation is refused if and only if nothing is stored. |
| DesktopAccounts.AddIsRefusedExactlyWhen | apps/app-desktop/src/desktop-accounts.ts:139-160 | An add is refused if and only if the new account has no token, stashed or stored, and the stored accounts with the stashed one are at least eight. |
| DesktopAccounts.AddMayExceedCap | apps/app-desktop/src/desktop-accounts.ts:148-158 | The case in which nine accounts are stored. |

## Left out

- Real time: timers are armed or fired; no latency and no eventual delivery is claimed.
- JSON and schema parsing, tokens, signatures, encryption, `fetch`, dialogs and URL parsing: their outcomes are parameters of the events.
- `TabExecutor` and the debugger protocol: not part of this model.
- `RelayClient`'s own reconnection timers and token storage: a link is FIFO in both directions and loses everything in flight when it drops; events are sent whenever its socket is open and dropped while it is not.
- A host whose constructor succeeds but whose later setup throws inside `startHost`: only a host that cannot be made at all is modelled.
- `connectionStatus`, `connectionCount`, build staleness, the data of results and the texts and codes of errors: read-only views and payloads with one branch each.
- Socket writes and closes themselves: a frame sent is a row of `issued`, and a close only shows as the events it causes.
- Iteration order of JavaScript maps in `rejectPending`, `renewAuthority`, `sweepDead` and `remove`: the loops visit entries in any order, and the result does not depend on it.
- BrowserRelay.BrowserRelay.HandleDisconnect: the class keeps the fields of the relay and of its connection records in one record of tables, so aliasing between two references to one connection is not expressed.
- FenceTheorems.DurableStopStaysRefused: says when a queued Stop is refused, not that it is ever acknowledged, because its frame carries no epoch.
- `execute` in the desktop executor beyond its checks: each debugger call is one step that checks the generation first; tabs, uploads and dialogs are not modelled.
- CommandQueueTheorems.LaneIsSafe: operations are bodies that begin and end; what they do in between is not modelled.
- `closeTabs` and `closeAllTabs` give up after twenty attempts: the retry loops are not modelled, the closures they queue are.
- That a closure of the disclosure lock threw, other than a tracking one, shows only in what it does not write: what its caller is told is not modelled.
- `approve`, the ninety-second approval timer and the assignment of values in protected fill: outside the lock's promises.
- Tabs without an id in Chrome's answers: they take no part in any branch modelled here.
- A subplan's rows are fetched before its test expression is evaluated on them; how PostgreSQL interleaves the two is not expressed.
- ProbeExpressions.PlannedPreserves: counts are those of an enabled probe within its capacities; beyond them the probe raises an error, see `CallGraph.DisabledExactlyWhen`.
- ProbePlans.ProbePlanRewritesSlots: plans are values, so a plan node shared by two parents and rewritten twice in place is not expressed; parallel and pruning fields only set a counter.
- `direct_var`'s table and column names: a variable is watched or not.
- The namespace, planning and observer-mode guards of the probe's hooks: an event of the call-graph model is one that the guards let through.
- 64-bit wrap-around of counters, the plan fingerprints and the JSON report of the probe.
- `migrationRuns`: calls on one database are chained one after the other, which is the sequence of runs the theorems quantify over.
- `toPgliteMigrationSql`, the split into DDL and seed rows and the SQL of a migration: a transaction commits as a whole or not at all.
- Migrations.CrashThenRun: `accepts` depends on the file, the statement and the ledger's rows, never on which of a file's statements already ran; that a concurrent-index file can be replayed after a crash, which its `IF NOT EXISTS` is for, is assumed.
- File names, mime types, base64 checks and the file system in browser files: only sizes and states matter for the quota.
- A stored account blob that does not parse loads as empty: runs start from a well-formed store.
- The web mirror of the account cookies, cookie specifications, auto-update, window policy, popups, side panels and the Discord connector: single-branch policies or event plumbing.
