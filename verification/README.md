# Request/reply protocols over ZeroMQ: models and proofs

This project models the protocol programs of the repository (the Paranoid Pirate queue and worker, the
federated broker, two load-balancing brokers, two lockstep retry clients, the ROUTER-to-REQ shutdown example
and the parallel task pipeline) and proves what every interleaved run of them keeps. Sockets are abstract:
a ROUTER puts the sender's identity in front of what it receives and uses up the first frame of what it
sends, a REQ adds and strips an empty delimiter and alternates sending and receiving (RFC 28/REQREP,
sections "The REQ Socket Type", "The ROUTER Socket Type" and "The DEALER Socket Type").

Three layers recur:

- The loops that change state are methods of classes with the source's own variables (`PPQueue.Queue`,
  `PPWorker.Worker`, `LoadBalance.ListBroker`, `ArrayBroker.Broker`, `Federation.Broker`, `MdClient.Mdcli`), or
  methods with the source's loops (`LazyPirate.Client`, `Rtreq.Serve`, `TaskFarm.Work` ...). Each is proved
  equal to a specification function of its inputs and old state.
- Transition systems put those same functions beside channels that deliver in any order, and an inductive
  invariant is kept by every step of every run, for any number of clients, workers, brokers and messages.
- Main theorems are drawn from the invariants, and where a promise holds only under a condition, the condition
  is shown to be the right one by an equivalence or by a run that breaks it.

Main results, hardest first:

- **No false suspicion** (`Heartbeats.NoFalseSuspicion`, `SlowNetwork.SuspicionBound`). In real time, with any
  number of workers starting at any moment, no worker's liveness reaches 0 and no listed worker is purged, as
  long as `2 * delay + (N + 4) * pass <= 1000` (and `(N + 4) * pass < 1000`), where `delay` bounds the way of a
  message and `pass` the time a loop pass takes. The bound on the delay is sharp: with two or more workers and
  passes that take no time, suspicion is impossible if and only if `2 * delay <= 1000`; at 501 ms a complete run
  is given that ends in a false suspicion. Slow passes alone are enough as well: with passes of 667 ms one
  worker can give up on a network without any delay (`SlowNetwork.SlowPasses`).
- **Who is listed** (`QueueSpec.ListedIff`): over every history, exactly those workers that have reported less than
  three seconds ago and were given no request since.
- **Ownership and refinement of the queue** (`PPQueue`). The worker list of distinct heap records refines a
  sequence of entries; every identity frame is owned by one listed record, or was handed to exactly one outgoing
  request, or destroyed once, and the frames handed on are in order the destinations of the requests sent.
- **Federation** (`Federation.OneHop`, `Federation.RepliesComeHome`). A request crosses at most one link, its
  reply retraces it, and whatever reaches a client answers a request of that client at that broker; no worker is
  lost from a queue, so no request gets stuck (`Federation.WorkersConserved`, `Federation.NoDeadlock`).
- **Two brokers, one behaviour** (`ArrayBroker.AgreeUpToExitIff`, `ArrayBroker.RunsAgree`), token
  conservation and termination of both.
- **End-to-end conservation** with crashing workers and lossy channels (`Pirate.Conservation`).
- **Lockstep clients** (`LazyPirate.AcceptedIff`, `LazyPirate.WholeSession`, `LazyPirate.LegalIff`, `MdClient.DeliveredIff`) and **distributed
  shutdown** (`Rtreq.Shutdown`, `TaskFarm.KillIsSafe`).

Where the code and its comments or intentions differ, the model follows the code:

- The comment at `src/loadbalance/lbbroker2.c:55-57` claims identical functionality of the two brokers. In the
  system with its clients and workers this is so, up to the text that says READY: every run of the array
  broker is a run of the list broker (`ArrayBroker.RunsAgree`), and when the array broker exits nothing is
  left to do (`ArrayBroker.ExitLeavesNothing`); the list broker just never exits. As programs, on arbitrary
  polls, they agree up to the exit if and only if the exiting poll comes without a request
  (`ArrayBroker.AgreeUpToExitIff`, and `ArrayBroker.PassesDiverge` for a poll where they differ).
- `mdcli_send` leaves the REQ socket waiting when it gives up, so the next call begins with a send the socket
  refuses (`MdClient.GivingUpSpoilsNextCall`).
- An interrupted poll that does not end the Lazy Pirate client makes it send again while a reply is still
  outstanding (`LazyPirate.InterruptBreaksLockstep`; exactly when, is `LazyPirate.LegalIff`).
- The Paranoid Pirate queue dispatches before it purges, so it can hand work to a worker whose expiry has
  passed (a run that does: `QueueSpec.ExpiredDispatch`; exactly when: `QueueSpec.ExpiredDispatchIff`); how
  stale that worker can be is bounded (`QueueSpec.DispatchStaleness`).
- The worker's interval, but not its liveness, is reset by any message (`src/ppq/worker.c:65`, `:75`), and in
  the overload branch no reply is sent, so the request is lost.

Files: one module each, named after it. `Frames`, `Channels` and `Decimal` are shared helpers (frames and
envelopes, sums over channels, `sprintf`/`atoi`), `Sockets` is the REQ socket.

## Model

| member | source | states |
|---|---|---|
| QueueSpec.ReadyKeeps | src/ppq/queue.c:28-39 | a worker that reports is listed exactly once, last, with the new expiry; everybody else stays; order of expiry is kept |
| QueueSpec.RemoveFirstMembers | src/ppq/queue.c:29-37 | among distinct ids, replacing takes out that worker and nobody else |
| QueueSpec.PurgeIsFilter | src/ppq/queue.c:52-62 | on a list in order of expiry, stopping at the first live worker equals filtering the whole list |
| QueueSpec.PurgeNeedsOrder | src/ppq/queue.c:54-57 | without that order the early stop leaves an expired worker behind (concrete list) |
| QueueSpec.PassKeepsInv | src/ppq/queue.c:77-134 | a pass keeps ids distinct and expiries sorted, and leaves exactly the workers whose expiry is after the last clock reading |
| QueueSpec.RunKeepsInv | src/ppq/queue.c:77-134 | after any sequence of passes with readings in order, ids are distinct, expiries sorted and everybody listed is alive at the last reading |
| QueueSpec.RunPurgesAll | src/ppq/queue.c:52-62 | at every point of every run the early-stopping purge leaves what a full filter at its last clock reading would leave |
| QueueSpec.ListAfterPass | src/ppq/queue.c:28-62 | the list after a pass, from the list before and the messages alone: everybody keeps his place but the sender, who goes last with three seconds to live, the worker given the request, who goes, and those who have expired at the last reading |
| QueueSpec.ListedAfterPassIff | src/ppq/queue.c:89-133 | entry by entry: listed after a pass if and only if alive at the last reading, not given the request, and either the sender's new entry or an old one of somebody else |
| QueueSpec.PassSends | src/ppq/queue.c:99-132 | what a pass sends: every backend message of more than one frame goes on without its envelope; a request goes unchanged to the first listed worker that does not report in this pass; heartbeats and rearming exactly when due |
| QueueSpec.ListedIff | src/ppq/queue.c:77-134 | over every history from the empty list: a worker is listed if and only if it has reported, was given no request since, and three seconds from that report are not over |
| QueueSpec.HistorySnoc | src/ppq/queue.c:77-134 | one more pass extends the outputs of a history by the output of that pass |
| QueueSpec.RoundGap | src/ppq/queue.c:122-132 | with passes over within delta, two consecutive heartbeat rounds are at least 1000 and at most 2000 + 2 delta ms apart |
| QueueSpec.RoundReachesEachOnce | src/ppq/queue.c:123-130 | a round sends one heartbeat to every listed worker, in list order, no two alike |
| QueueSpec.DispatchStaleness | src/ppq/queue.c:112-119 | in every run of passes of at most delta ms, a worker given a request was heard less than 4000 + delta ms before the heartbeat test |
| QueueSpec.ExpiredDispatchIff | src/ppq/queue.c:95-118 | a request goes to an expired worker if and only if the first listed worker that does not report in this pass has expired when the pass begins |
| QueueSpec.ExpiredDispatch | src/ppq/queue.c:112-133 | a run from the empty list, with passes of at most 10 ms, whose last pass gives a request read at 3505 to a worker that expired at 3500 |
| PPQueue.HexInjective | src/ppq/queue.c:9-31 | comparing hex strings of identities is comparing identities |
| PPQueue.WorkerRecord.Destroy | src/ppq/queue.c:16-25 | a live record dies, with its identity frame unless that was handed on |
| PPQueue.Queue.constructor | src/ppq/queue.c:73-75 | an empty list, owning nothing, nothing handed on, first round due in 1000 ms |
| PPQueue.Queue.NewWorker | src/ppq/queue.c:6-13 | a fresh record with expiry 3000 ms after the reading, owning its identity, not listed yet |
| PPQueue.Queue.Find | src/ppq/queue.c:29-36 | finds the first listed worker with the same id |
| PPQueue.Queue.WorkerReady | src/ppq/queue.c:28-39 | the list becomes the old one without that id plus the new record; the replaced record dies and its frame, and no other frame, is destroyed |
| PPQueue.Queue.WorkerNext | src/ppq/queue.c:42-49 | takes the head of a list that is never empty, hands its still owned frame on, frees the rest; no other frame changes, and no frame is handed on twice |
| PPQueue.Queue.HandOn | src/ppq/queue.c:45-48 | the frame leaves its record before the record is destroyed, so it is sent and not freed |
| PPQueue.Queue.Purge | src/ppq/queue.c:52-62 | with the clock read anew for each worker, the result is the purge at the last reading alone; whatever frame changes was owned and is destroyed |
| PPQueue.Queue.HeartbeatRound | src/ppq/queue.c:123-130 | one heartbeat per listed worker in order; no identity changes hands |
| PPQueue.Queue.HandleBackend | src/ppq/queue.c:89-110 | the sender is (re)listed, a one-frame message is only read, anything else goes to the frontend unwrapped |
| PPQueue.Queue.HandleSockets | src/ppq/queue.c:89-119 | backend first, then a request to the head of the resulting list, as specified (and QueueSpec.ListAfterPass says who stays); exactly one owned frame is handed on, the first of that request, if there is a request, and none otherwise |
| PPQueue.Queue.HandleTimers | src/ppq/queue.c:122-133 | a round if due, rearmed from a later reading, then the purge |
| PPQueue.Queue.Pass | src/ppq/queue.c:77-134 | the heap pass equals the specified pass; one owned frame is handed to its outgoing request if it has one, all other frames stay or are destroyed, and spent frames are never touched again |
| PPQueue.Queue.Serve | src/ppq/queue.c:65-144 | any number of passes: outputs are those of the specified history; at the end every frame was destroyed or handed on once, and the frames handed on are, in order, the destinations of the outgoing requests |
| PPQueue.OneMoreOutput | src/ppq/queue.c:112-119 | a pass adds to the frames handed on exactly what it adds to the destinations of requests |
| PPQueue.Queue.Drain | src/ppq/queue.c:136-140 | the final drain destroys every frame that is still owned and touches no other |
| PPWorker.Worker.constructor | src/ppq/worker.c:20-28 | three lives, interval 1000, one socket |
| PPWorker.Worker.Pass | src/ppq/worker.c:29-98 | the loop body equals the specified pass, and opens a new socket exactly when it reconnects |
| PPWorker.RequestRead | src/ppq/worker.c:42-61 | a request is sent back unchanged if and only if the worker is below its fourth or draws neither crash nor overload; it stops if and only if it draws the crash then; the sleep is 1, 3 or 0 s accordingly |
| PPWorker.OtherPoll | src/ppq/worker.c:62-97 | any other poll sends READY on a new socket, after sleeping the interval, if and only if it is silent with one life left, and never stops the worker |
| PPWorker.TimerRearmed | src/ppq/worker.c:92-97 | the heartbeat timer is rearmed exactly when a heartbeat is sent |
| PPWorker.CyclesCountRequests | src/ppq/worker.c:42-43 | over every history cycles is the number of requests read |
| PPWorker.LivenessAndInterval | src/ppq/worker.c:62-90 | after any history without a crash: liveness is 3 minus the silent polls since the last heartbeat or connect and stays in 1..3; interval is 1000 * 2^min(k,5), k the number of passes that reconnected since the last message |
| PPWorker.LifeStep | src/ppq/worker.c:62-90 | a pass reconnects exactly when its poll is silent with one life left; what it does to liveness and interval follows from that |
| PPWorker.EveryThirdSilence | src/ppq/worker.c:76-90 | the worker reconnects at every third silent poll since the last heartbeat and at no other: both counts in closed form |
| PPWorker.Doubling | src/ppq/worker.c:83-85 | doubling below the maximum is one step up the powers of two, stopping at 32000 |
| PPWorker.SilentBackoff | src/ppq/worker.c:76-90 | a worker that hears nothing reconnects at every third poll, and n reconnects sleep 1000(2^n - 1) ms in all up to n = 6, and 63000 + 32000(n - 6) beyond |
| Heartbeats.NeverThirdSilence | src/ppq/worker.c:76-77 | within the bound, a worker's poll can only time out while it has a life to spare |
| Heartbeats.SendMeansClear | src/ppq/worker.c:92-97 | when a worker's timer has run out, its message before that has been read |
| Heartbeats.BusyBound | src/ppq/queue.c:83-110 | a busy queue is done with what waits within (N + 1) passes, however it picks |
| Heartbeats.NobodyExpires | src/ppq/queue.c:133 | within the bound, no listed worker is due when the purge reads the clock |
| Heartbeats.FirstHeard | src/ppq/queue.c:95-97 | the pass that lists a worker leaves a heartbeat due in time for it |
| Heartbeats.RoundCovers | src/ppq/queue.c:122-132 | a round replaces the promise of a heartbeat by one that is on its way in time |
| Heartbeats.StepKeepsInv | src/ppq/queue.c:77-134 | every step of time, delivery, queue or worker keeps the timed invariant |
| Heartbeats.SystemKeepsInv | src/ppq/queue.c:77-134 | so every run does |
| Heartbeats.NoFalseSuspicion | src/ppq/queue.c:77-134 | in every request-free run within the bound no liveness reaches 0 and every listed worker is still listed after the next step |
| Heartbeats.BeatsUsedUp | src/ppq/worker.c:36-70 | over every run each heartbeat that reaches a worker is read exactly once or still waits |
| Heartbeats.TimeProgresses | src/ppq/queue.c:83-84 | the timing assumptions never stop the clock for good: a millisecond can pass or another step is possible |
| SlowNetwork.FalseSuspicion | src/ppq/worker.c:76-77 | from 501 ms of delay on, with two workers, a run exists in which a connected worker gives the queue up |
| SlowNetwork.SuspicionBound | src/ppq/queue.c:77-134 | with immediate passes and two or more workers: no run suspects anybody if and only if 2 * delay <= 1000 |
| SlowNetwork.SlowPasses | src/ppq/queue.c:77-134 | however short the delay, once passes may take 667 ms a run exists in which a single worker gives the queue up |
| Pirate.ReadEffect | src/ppq/worker.c:42-61 | a worker sends back exactly the request it read, or nothing of it |
| Pirate.FromWorkerTokens | src/ppq/worker.c:56-96 | what a worker puts on the wire reaches the queue with the same requests in it |
| Pirate.QueuePassCounts | src/ppq/queue.c:89-131 | a pass of the queue moves requests and replies on and neither makes nor loses any |
| Pirate.ReadCounts | src/ppq/worker.c:42-61 | a read request is replying afterwards, or counted as lost |
| Pirate.ReadLosesIff | src/ppq/worker.c:42-61 | a request that is read is replying afterwards if and only if the worker answers it, and is added to the lost ones otherwise |
| Pirate.StepKeepsInv | src/ppq/queue.c:77-134 | every step keeps the count of places equal to the count of sends |
| Pirate.Conservation | src/ppq/queue.c:89-119 | in every run each request, as often as sent, is in exactly one place: inbound, at a worker, replying, delivered or lost |
| Pirate.OnlyOwnRequestsAnswered | src/ppq/queue.c:107-119 | only bodies the client sent are delivered to it, and a request sent once and delivered is nowhere else: not lost, and in no channel |
| Federation.Broker.HandleBackend | src/cloud/lcflow.c:112-146 | the worker is queued, READY is swallowed, and any other reply is sent exactly once, to a peer if its first frame is a peer's name, otherwise to the clients |
| Federation.Broker.HandleFrontends | src/cloud/lcflow.c:148-177 | requests are passed on while capacity lasts; capacity stays the number of queued workers |
| Federation.ReplyRouted | src/cloud/lcflow.c:136-146 | a worker's reply moves one step closer to the client and broker that issued its request |
| Federation.PeerReplyRouted | src/cloud/lcflow.c:127-146 | so does a reply that comes back from a peer |
| Federation.SentToPeer | src/cloud/lcflow.c:167-170 | a rerouted request carries the name of the broker it belongs to |
| Federation.GivenToWorker | src/cloud/lcflow.c:171-176 | a request keeps its envelope when wrapped for a worker |
| Federation.WorkOnCourse | src/cloud/lcflow.c:42-51 | a worker changes the body only, the envelope comes back as it was |
| Federation.StepKeepsInv | src/cloud/lcflow.c:101-178 | every step keeps every message on the way from its origin to a worker or back |
| Federation.AlwaysOnCourse | src/cloud/lcflow.c:101-178 | so does every run |
| Federation.WorkersConserved | src/cloud/lcflow.c:118-176 | over every run, for each broker and worker: times queued, reporting and working together equal the READYs it sent, so who reports is queued and who is given a request leaves the queue |
| Federation.NoDeadlock | src/cloud/lcflow.c:101-178 | while a request is unanswered and every broker has a worker that signalled, some broker, worker or client can take a step |
| Federation.ServedInOrder | src/cloud/lcflow.c:118-176 | over any number of turns of the main loop workers are served in the order in which they reported |
| Federation.LoopSends | src/cloud/lcflow.c:148-177 | the inner loop takes messages in order until workers run out; a client's message with a detour goes to that peer, any other to the worker whose turn it is, each as it came under the frames pushed on it |
| Federation.OneHop | src/cloud/lcflow.c:155-177 | a request crosses at most one link between brokers, its reply at most one more, and no message is longer than six frames |
| Federation.RepliesComeHome | src/cloud/lcflow.c:112-177 | what is handed to a client answers a request of that client at that broker; no request is answered twice; each is answered or still on its way |
| Federation.LocalReplyHomeIff | src/cloud/lcflow.c:123-146 | a worker's reply reaches the local clients if and only if its client is not named like a peer and not like READY |
| Federation.RemoteReplyHomeIff | src/cloud/lcflow.c:123-142 | a lent worker's reply gets back to its broker if and only if that is not named like READY and both ends list the link |
| LoadBalance.ListBroker.Pass | src/loadbalance/lbbroker2.c:80-114 | the loop body equals the specified pass: append the worker, forward unless READY, give a request to the worker waiting longest |
| LoadBalance.PassSplits | src/loadbalance/lbbroker2.c:91-113 | a pass with both sockets ready is a backend pass and then a frontend pass |
| LoadBalance.ServedInOrder | src/loadbalance/lbbroker2.c:96-112 | over any sequence of polls workers are served in the order in which they reported |
| LoadBalance.WorkAnswered | src/loadbalance/lbbroker2.c:44-50 | a worker's answer moves its token and its client's to the backend channel |
| LoadBalance.StepKeepsInv | src/loadbalance/lbbroker2.c:80-114 | every step of clients, workers, channels and broker keeps the token invariant |
| LoadBalance.TokenConservation | src/loadbalance/lbbroker2.c:39-50 | in every run each worker and each client's request is in exactly one stage |
| LoadBalance.Consequences | src/loadbalance/lbbroker2.c:90-113 | no duplicates in the queue, nobody queued while working, one request per worker, at most one reply per client |
| LoadBalance.StepDecreases | src/loadbalance/lbbroker2.c:80-114 | every step decreases one global measure |
| LoadBalance.RunLength | src/loadbalance/lbbroker2.c:80-114 | so no run is longer than 6 steps per client and 3 per worker |
| LoadBalance.Progress | src/loadbalance/lbbroker2.c:80-114 | with at least one worker, some step is possible until every client has its answer |
| LoadBalance.MaximalRunAnswersAll | src/loadbalance/lbbroker2.c:80-114 | every run that cannot go on has answered every client exactly once |
| ArrayBroker.Broker.constructor | src/loadbalance/lbbroker.c:127-131 | all slots empty |
| ArrayBroker.Broker.Dequeue | src/loadbalance/lbbroker.c:9 | the shift in place moves every slot down one and keeps the last |
| ArrayBroker.DequeueIsPop | src/loadbalance/lbbroker.c:9 | the shift is a pop with all other slots NULL if and only if the array was not full |
| ArrayBroker.Broker.Pass | src/loadbalance/lbbroker.c:137-183 | slots below available_workers hold the abstract queue, the others NULL; the pass equals the specified one with its assertion, countdown and exit |
| ArrayBroker.PassesAgree | src/loadbalance/lbbroker2.c:55-57 | one poll, up to the READY text: both brokers end with the same queue and messages if and only if the assertion holds and the array broker does not exit in front of a request; its messages are always a prefix |
| ArrayBroker.PassesDiverge | src/loadbalance/lbbroker.c:164-166 | a poll with the last reply and one more request, which only the list broker takes |
| ArrayBroker.TwoBrokersAgree | src/loadbalance/lbbroker2.c:55-57 | the claim of the comment: for all poll sequences the same routed messages, until the array broker stops |
| ArrayBroker.AgreeUpToExitIff | src/loadbalance/lbbroker.c:164-166 | for a poll sequence on which the array broker exits, the messages up to the exit agree if and only if the exiting poll comes without a request for a queued worker |
| ArrayBroker.RoomForOneMore | src/loadbalance/lbbroker.c:149 | by counting tokens, whenever the backend has a message fewer than all workers are queued |
| ArrayBroker.PassRefines | src/loadbalance/lbbroker.c:137-183 | in the system a pass never fails its assertion and is a pass of the list broker |
| ArrayBroker.GuardFollows | src/loadbalance/lbbroker.c:155-173 | in the system the messages polled always have the frames that the array broker reads |
| ArrayBroker.TwoUnanswered | src/loadbalance/lbbroker.c:147-182 | a waiting reply and a waiting request belong to two clients not yet answered |
| ArrayBroker.ExitPassHasNoRequest | src/loadbalance/lbbroker.c:164-166 | so in the system the exiting pass never comes with a request |
| ArrayBroker.SystemPassesAgree | src/loadbalance/lbbroker2.c:55-57 | and every pass, the exiting one included, is the list broker's own step |
| ArrayBroker.RunsAgree | src/loadbalance/lbbroker2.c:55-57 | every run of the array broker's system is, state for state, a run of the list broker's |
| ArrayBroker.ArrayRefinesList | src/loadbalance/lbbroker.c:137-183 | every step of the array system is a step of the list system |
| ArrayBroker.NeverAssertFails | src/loadbalance/lbbroker.c:149 | so in every run the assertion holds, and client_nbr counts the replies not yet relayed |
| ArrayBroker.ExitMeansAllRelayed | src/loadbalance/lbbroker.c:164-166 | on the exit exactly one reply for every client has been relayed |
| ArrayBroker.ExitLeavesNothing | src/loadbalance/lbbroker.c:164-166 | at the exit no request is unsent, unread, at a worker, or answered and not relayed |
| ArrayBroker.ExitsAfterLastReply | src/loadbalance/lbbroker.c:164-166 | the broker has exited if and only if all replies are relayed |
| ArrayBroker.ArrayMaximalRunAnswersAll | src/loadbalance/lbbroker.c:137-183 | every run of the array system that cannot go on has answered every client |
| LazyPirate.PollOnce | src/lpp/client.c:24-57 | one poll: accept the matching reply, ignore others, or retry on a fresh socket, or give up |
| LazyPirate.AcceptedIff | src/lpp/client.c:31-42 | over every run: a reply is accepted for request n if and only if the client polls, n was the last thing sent, and the text reads n; it is called malformed if and only if it reads something else |
| LazyPirate.AnsweredRequest | src/lpp/client.c:23-56 | a request answered after k <= 2 silences is sent k + 1 times and accepted, and the next has all its retries |
| LazyPirate.ThreeSilencesEnd | src/lpp/client.c:44-46 | the third silence in a row ends the client, whatever would follow |
| LazyPirate.WholeSession | src/lpp/client.c:16-58 | the complete log against a server that answers any number of requests after at most two silences each and then falls silent |
| LazyPirate.Client | src/lpp/client.c:16-58 | both loops over any script of outcomes produce the specified sends and acceptances |
| LazyPirate.SendsAreLegal | src/lpp/client.c:18-55 | without interrupts every send finds the REQ socket ready, with a text that parses to its sequence number |
| LazyPirate.SentAtMostThrice | src/lpp/client.c:44-56 | no sequence number is sent more than three times, interrupted or not |
| LazyPirate.AcceptedInOrder | src/lpp/client.c:36-39 | replies accepted are for consecutive numbers, none skipped or taken twice |
| LazyPirate.Lockstep | src/lpp/client.c:16-58 | all three from the start: 1, 2, 3, ... accepted, three sends each, every send legal |
| LazyPirate.InnerLoopEnds | src/lpp/client.c:24-57 | each poll leaves the inner loop or uses up retries or the outstanding reply, so rubbish cannot keep it going |
| LazyPirate.LegalIff | src/lpp/client.c:27-35 | with interrupts, every send is legal if and only if none comes, without ending the program, while a reply is outstanding |
| LazyPirate.InterruptBreaksLockstep | src/lpp/client.c:27-29 | the shortest such run |
| MdClient.Mdcli.Connect | api/MDP/mdcliapi.c:4-14 | the old socket is replaced by one ready to send |
| MdClient.Mdcli.SetRetries | api/MDP/mdcliapi.c:50-53 | sets the retries of later calls |
| MdClient.Mdcli.SendRequest | api/MDP/mdcliapi.c:56-119 | every message sent is the six bytes MDPC01, the service and the body's frames in order; sends, result and socket state are the specified ones |
| MdClient.BoundedIdenticalCopies | api/MDP/mdcliapi.c:61-105 | one identical framed copy per silent poll and one more, at most as many as retries; only the first can meet a waiting socket |
| MdClient.DeliveredIff | api/MDP/mdcliapi.c:82-99 | a body is returned if and only if the first answer within the retries is MDPC01, the service and exactly that body |
| MdClient.FramedReplyDelivered | api/MDP/mdcliapi.c:61-99 | round trip of the framing: an answer framed as requests are delivers its body |
| MdClient.EndsIff | api/MDP/mdcliapi.c:68-118 | NULL if and only if the retries are used up in silence or an interrupt comes first; an assertion fails if and only if the first answer has another header, service or no body |
| MdClient.GivingUpSpoilsNextCall | api/MDP/mdcliapi.c:106-118 | the next call's first send is legal if and only if this call got an answer |
| Rtreq.Serve | src/loadbalance/rtreq.c:54-79 | the loop's replies and stop are the specified ones |
| Rtreq.StopsAtLastExit | src/loadbalance/rtreq.c:69-78 | every message is answered in order, and the loop stops at the exit that completes the count and not before, for any number of workers |
| Rtreq.WorkerTask | src/loadbalance/rtreq.c:12-33 | the total is the number of replies before the first "exit" |
| Rtreq.ExitsBound | src/loadbalance/rtreq.c:74-77 | while a Hello waits, fewer exits than workers have been sent |
| Rtreq.RunKeepsInv | src/loadbalance/rtreq.c:57-79 | in every run each worker has exactly one turn: idle, asking, being answered or done |
| Rtreq.Shutdown | src/loadbalance/rtreq.c:57-79 | whatever the clock does, nobody is told to exit twice, the broker stops exactly when all were told, and no Hello is left or can follow |
| Rtreq.TotalsAddUp | src/loadbalance/rtreq.c:25-30 | when all workers are done their totals sum to the "ok" replies sent |
| TaskFarm.Ventilate | src/task/ventilator.c:16-32 | one marker to the sink, one text per workload that parses back to it, and the total cost |
| TaskFarm.TotalAdds | src/task/ventilator.c:25-26 | the total is additive over the workloads and a single workload counts as itself |
| TaskFarm.Sink | src/task/sink.c:14-37 | KILL goes out if and only if one more message than there are tasks has come |
| TaskFarm.Work | src/task/worker.c:21-37 | each task up to KILL is slept for as long as its text says and sent on unchanged, in order |
| TaskFarm.DoneUpToKill | src/task/worker.c:22-37 | a worker does the tasks of all polls up to the first that reports KILL, that one included, and no more |
| TaskFarm.StepKeepsInv | src/task/sink.c:14-37 | every step conserves tasks over ventilator, pipe, workers and sink |
| TaskFarm.RunKeepsInv | src/task/sink.c:14-37 | so does every run, in any interleaving |
| TaskFarm.KillIsSafe | src/task/worker.c:34-36 | once KILL is sent or a worker has stopped, every task was worked on and collected exactly once, even if a result overtook the marker |
| Decimal.RoundTrip | src/lpp/client.c:19-36 | what "%d" prints, atoi reads back, for every natural number |
| Decimal.AtoiReads | src/lpp/client.c:36 | atoi in full: leading white space, a sign, a number, and anything that does not begin with a digit |
| Decimal.PrintInjective | src/lpp/client.c:20-36 | different sequence numbers have different texts |
| Decimal.PrintLength | src/lpp/client.c:19-20 | a number needs at most k digits if and only if it is below 10^k |
| Decimal.FitsRequestBuffer | src/lpp/client.c:19-20 | the ten-byte buffer holds exactly the numbers up to 999999999 |

## Left out

- Sockets, endpoints, threads, signals, logging, colours and real sleeping: channels, steps and clock readings stand for them.
- Interrupts in the broker and worker loops (`rc == -1`, a NULL message): they end the loop; the model ends the run, and `PPQueue.Queue.Serve` then drains.
- `randof`: its draws are free choices of the peer, the crash, the overload and the workloads.
- Integer widths: counters and times are unbounded; sequence numbers beyond the buffer are covered only by `Decimal.FitsRequestBuffer`.
- C strings and buffers: identities and texts are frames of byte values; truncation in `src/base.c` and the unterminated copies in `src/loadbalance/lbbroker.c` are not modelled.
- An empty frame compared with one byte (`memcmp` on size 0) reads beyond the frame; here it does not match.
- Channels deliver in any order, which includes the order ZeroMQ keeps; the clock never runs backwards.
- Heartbeats.NoFalseSuspicion: request-free runs only; a worker that is handed a request leaves the list and sleeps. With passes that take time the bound is sufficient, and it is proved exact only for passes that take none; that it must grow with the number of workers is not shown. The delay of a poll's wake-up counts as part of the pass.
- Heartbeats: the channels lose nothing there, workers do not stop, and a worker's draws play no part since only heartbeats are read.
- Pirate.Conservation: a worker that reconnects gets any identity not in use; request bodies are single frames, as the clients of the repository send them; a request whose worker is gone stays in its channel until it is counted as lost.
- One outstanding request per worker is not claimed for the Paranoid Pirate queue: a heartbeat already on its way can list a worker again that has just been given a request.
- Federation: the client and worker tasks use REP sockets, which cannot send first; they are modelled as an environment that delivers the frames the broker loop expects. Messages to unknown destinations are dropped, as ROUTER sockets do.
- Federation.Broker.HandleFrontends: the poll's preference for the cloud is an input, not a choice of the model; the system allows any order.
- MdClient.Mdcli.SendRequest: negative `retries` never reach 0 and loop until an answer comes; the method is total because it stops with its script. Timeouts are outcomes of the script.
- MdClient: `mdcli_destroy`, `mdcli_set_timeout` and verbose dumps.
- LoadBalance: the clean-up after the loop of `src/loadbalance/lbbroker2.c:116-122`, and fairness; every run is finite without it.
- ArrayBroker.TwoBrokersAgree: for polls whose messages have the frames the two programs read; identities do not begin with the byte that marks READY.
- `api/MDP/mdwrkapi.c` (its receive loop is a stub), `src/cloud/full.c`, `src/cloud/stateflow.c`, the smaller examples (`src/mt`, `src/ucontext`, `src/weather`, `src/envelope`, `src/helloworld`, `src/router`, `src/rrb`, `src/async`) and the Erlang programs.
