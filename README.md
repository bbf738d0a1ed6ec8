# Replicated response service with a load balancer — a Dafny model

The system is a small Spring application:

- Two **response service** instances run as a pair on ports 8080 and 8081.
  - The active instance (the primary port at start-up) generates bursts of synthetic requests against its own `/response` endpoint.
  - Each saved request updates a per-minute window and the instance's latest `Health` record (`numRequests`, `diff`, nullable `flag`).
  - Each saved request is also broadcast once to the peer's replica-sync endpoint. `processReplicaData` saves a replicated payload without broadcasting it again.
  - When a burst runs too far above the per-minute cap, the instance runs a crash arbitration. It draws two numbers in 1..5 locally, one for itself and one for its peer, redrawn until the two differ. The side with the higher draw is reported down to the health controller and scheduled for a restart. This instance ends up operating on the port of the side that keeps running.
- A **load balancer** counts requests in a cycle of 80.
  - At cycle position 1 it brings every down server back up.
  - At position 21 it shuts one server down: the server with the strictly greater of two draws in 1..5, or either one on a tie.
  - It fans every request out to the servers that are up.
- A **health controller** keeps one liveness flag per instance. Instance-down notifications and probes that throw clear a flag; successful probes set it.
- A **client controller** answers whether the latest `Health` record says the node is alive, and generates random ten-letter payloads.

The model has nine modules, one group per source file:

| Module | Models |
|---|---|
| `LoadBalancer` | `LoadBalancerService`. `Lb`, `Step` and `Run` specify it as a function of a request counter and the servers' up-flags. Class `LoadBalancerService` and its list of `ResponseServer` objects update those flags in place, and each method is proved against the function. |
| `ResponseSpec` | The fields of `ResponseService` as a snapshot value `Svc`, with one function per method of the service and the lemmas about them: the window rule, the crash arbitration, the broadcast rule, and the generation loop (`Burst`). |
| `Responses` | Class `ResponseService`. Its fields are updated in place, and each method ensures `State() == F(old(State()), inputs)` for the `ResponseSpec` function `F` its row in the table below names, or states its effect by an explicit frame (the replica broadcast, the instance-down notice and the restart scheduling). The generation loop and forceCrash's redraw loop are `while` loops with invariants. |
| `HealthMonitor` | Class `HealthController`, with its two flags, proved against the functions on `Liveness`. |
| `ClientApi` | `checkHealth`, as written and as intended (see Findings), and `generateRandomData`. |
| `Wrappers`, `Http`, `Draws`, `Entities` | Shared pieces: `Option` for a nullable reference; the outcome of an HTTP call; the draw range 1..5; the `Health` record and the two ports. |

The following are parameters of the model, not computed by it:

- the answer to every HTTP call;
- every random draw;
- the clock, in whole seconds.

An HTTP call ends in one of four ways (`Http.Outcome`):

- `Ok`: a 2xx answer.
- `NotOk`: a non-2xx answer handed back without an exception.
- `StatusError(code)`: an `HttpStatusCodeException`.
- `Unreachable`: any other exception.

This distinction matters. In the response service, the POST to `/response` (ResponseService.java:156) and the probe after a failed POST (:413) catch only `HttpStatusCodeException`, so an `Unreachable` outcome there ends the scheduled method (`escaped` in the model). The replica broadcast (:239) and the instance-down notice (:390) catch every exception, so their outcome changes nothing and is not an input. The health controller catches every exception.

Facts about the code that the model makes explicit:

- **Shutdown choice.** The server with the strictly greater draw goes down. With draws 4 and 2, server 1, the one that drew 4, goes down (`LoadBalancer.ShutdownScenario`).
- **Crash limit.** The per-minute cap is 20 and the excess limit is 20, and the excess inside the loop is the count before the request minus 20. A burst of successful requests in one window therefore runs the arbitration first on its 42nd request, from within the local save (`ResponseSpec.FirstCrashOnFortySecondRequest`). 85 such requests run it twice, on the 42nd and the 83rd (`ResponseSpec.EightyFiveRequestsCrashTwice`). If the 42nd POST fails instead, the check after the loop runs the arbitration and leaves the excess at 21 (`ResponseSpec.FailedFortySecondPostCrashesAfterLoop`).
- **Peer draw.** Both draws of an arbitration are made locally; the retry code that would ask the peer is commented out.
- **Ports.** The load balancer's servers are at ports 8081 and 8082. The response instances and the health controller use 8080 and 8081. The health controller passes 8081/8082 to `handleFaultRecovery`, which ignores the port.

## Model

Source paths are under `Assignment1/src/main/java/com/assignment/`.

| member | source | states |
|---|---|---|
| LoadBalancer.CyclePosition | Assignment1/src/main/java/com/assignment/service/LoadBalancerService.java:41-42 | the position of a request in the cycle lies below the cycle length 20 + 60 |
| LoadBalancer.CycleActions | Assignment1/src/main/java/com/assignment/service/LoadBalancerService.java:41-54 | servers are started exactly when count % 80 == 1 and one is shut down exactly when count % 80 == 21; the two never happen on the same request |
| LoadBalancer.Victim | Assignment1/src/main/java/com/assignment/service/LoadBalancerService.java:92-100 | the strictly greater draw selects its server for shutdown (draw1 > draw2 picks server 1, draw2 > draw1 picks server 2) |
| LoadBalancer.TieEitherServer | Assignment1/src/main/java/com/assignment/service/LoadBalancerService.java:96-99 | on equal draws either server can be chosen, depending on the coin |
| LoadBalancer.StartAll | Assignment1/src/main/java/com/assignment/service/LoadBalancerService.java:119-134 | after starting, a server is up iff it was up or its remote call succeeded; a failed call leaves a down server down |
| LoadBalancer.ShutDown | Assignment1/src/main/java/com/assignment/service/LoadBalancerService.java:104-115 | only the chosen server's flag can change; it goes down iff it was up and the remote call succeeded, and the other flag never changes |
| LoadBalancer.UpIndices | Assignment1/src/main/java/com/assignment/service/LoadBalancerService.java:61-75 | the servers posted to are exactly the up ones, in list order |
| LoadBalancer.Reached | Assignment1/src/main/java/com/assignment/service/LoadBalancerService.java:62-70 | a server receives the request iff it is up and its POST went through, independently of the other server |
| LoadBalancer.Step | Assignment1/src/main/java/com/assignment/service/LoadBalancerService.java:38-58 | a request raises the counter by exactly 1; a flag rises only at a cycle start for a server whose call succeeded, and falls only at the shutdown position for the chosen server whose call succeeded; at a cycle start each down server comes up iff its call succeeds, and at the shutdown position the chosen server goes down iff it was up and its call succeeded while the other keeps its flag |
| LoadBalancer.Run | Assignment1/src/main/java/com/assignment/service/LoadBalancerService.java:38-39 | n consecutive requests raise the counter by n and keep two servers |
| LoadBalancer.DownStaysDownUntilCycleStart | Assignment1/src/main/java/com/assignment/service/LoadBalancerService.java:41-54 | a down server stays down through any run of requests none of which starts a cycle |
| LoadBalancer.UpStaysUpUntilShutdown | Assignment1/src/main/java/com/assignment/service/LoadBalancerService.java:41-54 | an up server stays up through any run of requests none of which reaches the shutdown position |
| LoadBalancer.NoStartBeforeCycleEnd | Assignment1/src/main/java/com/assignment/service/LoadBalancerService.java:41-48 | from cycle position 2 to the end of the cycle no request starts the servers |
| LoadBalancer.DownForRestOfCycle | Assignment1/src/main/java/com/assignment/service/LoadBalancerService.java:41-54 | a server that is down mid-cycle stays down until the cycle ends |
| LoadBalancer.ShutdownScenario | Assignment1/src/main/java/com/assignment/service/LoadBalancerService.java:80-108 | with both servers up, the 21st request with draws 4 and 2 takes down server 1 and leaves server 2 up |
| LoadBalancer.ResponseServer.constructor | Assignment1/src/main/java/com/assignment/service/LoadBalancerService.java:141-144 | a server holds the given URL and up-flag |
| LoadBalancer.LoadBalancerService.constructor | Assignment1/src/main/java/com/assignment/service/LoadBalancerService.java:22-35 | two distinct fresh servers at the two fixed URLs, both up, and a counter of 0 |
| LoadBalancer.LoadBalancerService.HandleRequest | Assignment1/src/main/java/com/assignment/service/LoadBalancerService.java:38-58 | the new counter and flags are `Step` of the old ones; the server list keeps its two fixed URLs; it posts to exactly the up servers |
| LoadBalancer.LoadBalancerService.SendRequestToServers | Assignment1/src/main/java/com/assignment/service/LoadBalancerService.java:61-75 | it changes nothing, attempts exactly the up servers, and one failed POST does not skip the other server |
| LoadBalancer.LoadBalancerService.ShutdownOneServer | Assignment1/src/main/java/com/assignment/service/LoadBalancerService.java:78-116 | the flags become `ShutDown` of the old ones for the server `Victim` picks |
| LoadBalancer.LoadBalancerService.StartNewServers | Assignment1/src/main/java/com/assignment/service/LoadBalancerService.java:119-134 | the flags become `StartAll` of the old ones |
| ResponseSpec.Initial | Assignment1/src/main/java/com/assignment/service/ResponseService.java:38-55 | a new service has empty counters, /response alive, not active, nothing sent or saved, random number -1, and the configured port |
| ResponseSpec.Initialized | Assignment1/src/main/java/com/assignment/service/ResponseService.java:58-67 | after start-up the instance is active iff it runs on 8080; nothing else changes |
| ResponseSpec.WithActivePort | Assignment1/src/main/java/com/assignment/service/ResponseService.java:70-78 | the instance is active iff its port is the given one; nothing else changes |
| ResponseSpec.Peer | Assignment1/src/main/java/com/assignment/service/ResponseService.java:233 | the peer port is never this port and is always 8080 or 8081; every port other than 8080 has 8080 as its peer |
| ResponseSpec.PeerInvolution | Assignment1/src/main/java/com/assignment/service/ResponseService.java:273 | on {8080, 8081} the peer of the peer is the port itself |
| ResponseSpec.RolledWindow | Assignment1/src/main/java/com/assignment/service/ResponseService.java:177-184 | after 60 s or more the window restarts at `now` with a count of 0; otherwise nothing changes |
| ResponseSpec.CurrentHealth | Assignment1/src/main/java/com/assignment/service/ResponseService.java:168-175 | the stored record is used as it is; with none, a new record has no requests, diff 0 and flag 1 |
| ResponseSpec.FirstDistinct | Assignment1/src/main/java/com/assignment/service/ResponseService.java:276-285 | the redraw loop stops at the first round whose two draws differ |
| ResponseSpec.ArbitrationHasOneWinner | Assignment1/src/main/java/com/assignment/service/ResponseService.java:288-319 | on ports 8080/8081 an arbitration reports exactly one of the two ports down, queues that one for restart, and leaves the instance on the other one |
| ResponseSpec.CrashedPort | Assignment1/src/main/java/com/assignment/service/ResponseService.java:288-319 | this port is reported down iff its draw is not the lower one; otherwise the peer port is |
| ResponseSpec.ForceCrash | Assignment1/src/main/java/com/assignment/service/ResponseService.java:269-330 | the crashed port is reported down once and queued for restart; the port is kept when the local draw is lower and becomes the peer port otherwise, so it is never the crashed one; the local draw is stored; nothing else changes |
| ResponseSpec.ExcessReset | Assignment1/src/main/java/com/assignment/service/ResponseService.java:226-230 | the excess and the window count are 0 and the crash flag is cleared; nothing else changes |
| ResponseSpec.CrashBranch | Assignment1/src/main/java/com/assignment/service/ResponseService.java:186-197 | the crash branch stores flag 0, resets both counters, queues one restart, sends one instance-down notice and moves to the peer port iff the local draw is not the lower one, keeping the window start, the responses and the alive and active flags |
| ResponseSpec.Recorded | Assignment1/src/main/java/com/assignment/service/ResponseService.java:199-221 | the payload is saved, numRequests rises by 1, diff is the excess, the flag is 0 iff the excess is above 20, and exactly one replica-sync goes to the peer |
| ResponseSpec.SaveRandomResponse | Assignment1/src/main/java/com/assignment/service/ResponseService.java:167-224 | one save: the window rule; a crash and reset iff the excess is above 20, with the port after the crash as `ForceCrash` leaves it; numRequests + 1; diff and flag from the final excess; the payload appended; an instance-down notice only on a crash, then exactly one broadcast to the peer |
| ResponseSpec.SaveLeavesFlagUp | Assignment1/src/main/java/com/assignment/service/ResponseService.java:186-216 | every save ends with flag 1: the crash branch resets the excess before the final flag is chosen |
| ResponseSpec.ReplicaApplied | Assignment1/src/main/java/com/assignment/service/ResponseService.java:245-267 | a replicated payload is saved and nothing is broadcast; numRequests, diff, flag and the window counters are unchanged (a missing record is created as in a save) |
| ResponseSpec.SendRandomData | Assignment1/src/main/java/com/assignment/service/ResponseService.java:142-165 | a POST counts as delivered iff it answered 2xx and escapes iff it threw a non-status exception; a 404 marks /response down; a failed POST saves, counts and broadcasts nothing and changes only the outbox and, on a 404, the alive flag; a delivered one is exactly `SaveRandomResponse` after the self-POST |
| ResponseSpec.CheckedResponse | Assignment1/src/main/java/com/assignment/service/ResponseService.java:400-418 | the probe sets /response alive iff it answered 2xx, escapes iff it threw a non-status exception (then the alive flag is kept), and changes nothing but the alive flag and the outbox |
| ResponseSpec.Iteration | Assignment1/src/main/java/com/assignment/service/ResponseService.java:110-120 | the excess is the pre-increment count minus 20, not clamped at zero, whether the POST succeeds or fails; a request that does not escape is counted, one that escapes is not; only a 2xx POST saves, and it appends its own payload; above the limit the save crashes and the count restarts at 1 |
| ResponseSpec.Generated | Assignment1/src/main/java/com/assignment/service/ResponseService.java:87-100 | an instance that is not active, or whose /response is down, sends nothing and changes nothing |
| ResponseSpec.AfterBurst | Assignment1/src/main/java/com/assignment/service/ResponseService.java:134-138 | an exception that escaped the loop skips the final check; otherwise an excess above 20 runs exactly one arbitration, reported and queued once, without resetting the counters, leaving the instance on the port `ForceCrash` chooses and every other field as it was; an excess of at most 20 changes nothing |
| ResponseSpec.Restarted | Assignment1/src/main/java/com/assignment/service/ResponseService.java:333-346 | when the oldest restart fires, /response is believed alive again and that restart leaves the queue |
| ResponseSpec.Burst | Assignment1/src/main/java/com/assignment/service/ResponseService.java:110-129 | the request loop saves the payloads of the successful POSTs before the first failed one, in order, and no others |
| ResponseSpec.Saved | Assignment1/src/main/java/com/assignment/service/ResponseService.java:110-120 | the payloads saved by a burst: one per successful POST before the first failure, in order |
| ResponseSpec.FirstFailure | Assignment1/src/main/java/com/assignment/service/ResponseService.java:114-120 | the index of the first POST that did not answer 2xx |
| ResponseSpec.BurstEndsAtFailure | Assignment1/src/main/java/com/assignment/service/ResponseService.java:116-120 | a failed first POST ends the loop with a probe, or escapes, whatever follows it |
| ResponseSpec.BurstSplit | Assignment1/src/main/java/com/assignment/service/ResponseService.java:110-129 | consecutive successful requests compose: a burst over `first + rest` is the burst over `rest` after the burst over `first` |
| ResponseSpec.BurstStopsAtFirstFailure | Assignment1/src/main/java/com/assignment/service/ResponseService.java:116-120 | the loop stops after the first failed send: attempts after it are never used |
| ResponseSpec.BurstCountsRequests | Assignment1/src/main/java/com/assignment/service/ResponseService.java:110-129 | inside one window and below the limit, each successful request counts once and saves once, and the excess is the last pre-increment count minus 20 |
| ResponseSpec.BurstCrashesOnce | Assignment1/src/main/java/com/assignment/service/ResponseService.java:110-129 | from a count of c, the (42 - c)-th successful request in one window runs exactly one arbitration, leaving a count of 1 and an excess of 0 |
| ResponseSpec.FirstCrashOnFortySecondRequest | Assignment1/src/main/java/com/assignment/service/ResponseService.java:87-139 | a burst in one window runs no arbitration in its first 41 requests and exactly one on its 42nd, and the final check then finds no excess |
| ResponseSpec.FailedFortySecondPostCrashesAfterLoop | Assignment1/src/main/java/com/assignment/service/ResponseService.java:110-138 | when the 42nd POST of a burst in one window fails, the loop stops with count 42 and excess 21 and the check after the loop runs exactly one arbitration |
| ResponseSpec.EightyFiveRequestsCrashTwice | Assignment1/src/main/java/com/assignment/service/ResponseService.java:87-139 | 85 successful requests in one window run the arbitration exactly twice and end with a count of 3 |
| Responses.GenerateRandomString | Assignment1/src/main/java/com/assignment/service/ResponseService.java:420-430 | a payload has ten characters in 'a'..'z', each the code point drawn |
| Responses.RandomStringKeepsCodes | Assignment1/src/main/java/com/assignment/service/ResponseService.java:420-430 | two payloads are equal iff their draws are equal |
| Responses.DrawUntilDistinct | Assignment1/src/main/java/com/assignment/service/ResponseService.java:276-285 | the do-while loop returns the first pair of distinct draws, both in 1..5 |
| Responses.ResponseService.constructor | Assignment1/src/main/java/com/assignment/service/ResponseService.java:38-55 | the fields start as `Initial` |
| Responses.ResponseService.Init | Assignment1/src/main/java/com/assignment/service/ResponseService.java:58-67 | the new state is `Initialized` of the old |
| Responses.ResponseService.UpdateActiveInstance | Assignment1/src/main/java/com/assignment/service/ResponseService.java:70-78 | the new state is `WithActivePort` of the old |
| Responses.ResponseService.HandleInstanceSwitch | Assignment1/src/main/java/com/assignment/service/ResponseService.java:81-83 | a switch does what `updateActiveInstance` does |
| Responses.ResponseService.GenerateAndSendRandomRequests | Assignment1/src/main/java/com/assignment/service/ResponseService.java:87-139 | the new state, and whether an exception escaped, are `Generated` of the old state |
| Responses.ResponseService.SendBurst | Assignment1/src/main/java/com/assignment/service/ResponseService.java:110-129 | the loop's final state, and whether an exception escaped, are `Burst` of the state before it |
| Responses.ResponseService.CheckExcessAfterBurst | Assignment1/src/main/java/com/assignment/service/ResponseService.java:134-138 | the state after the final excess check is `AfterBurst` |
| Responses.ResponseService.SendAndCount | Assignment1/src/main/java/com/assignment/service/ResponseService.java:112-115 | one loop body ends in the state and send outcome of `Iteration` |
| Responses.ResponseService.SendRandomDataToResponse | Assignment1/src/main/java/com/assignment/service/ResponseService.java:142-165 | the state and send outcome are `SendRandomData` |
| Responses.ResponseService.SaveRandomResponse | Assignment1/src/main/java/com/assignment/service/ResponseService.java:167-224 | the new state is `ResponseSpec.SaveRandomResponse` of the old |
| Responses.ResponseService.RollWindow | Assignment1/src/main/java/com/assignment/service/ResponseService.java:177-184 | the new state is `RolledWindow` of the old |
| Responses.ResponseService.CrashBeforeSaving | Assignment1/src/main/java/com/assignment/service/ResponseService.java:186-197 | the new state is `CrashBranch` of the old |
| Responses.ResponseService.RecordAndBroadcast | Assignment1/src/main/java/com/assignment/service/ResponseService.java:199-221 | the new state is `Recorded` of the old |
| Responses.ResponseService.ResetExcessRequests | Assignment1/src/main/java/com/assignment/service/ResponseService.java:226-230 | the new state is `ExcessReset` of the old |
| Responses.ResponseService.BroadcastOperationToReplica | Assignment1/src/main/java/com/assignment/service/ResponseService.java:232-242 | exactly one replica-sync call goes to the peer port; nothing else changes |
| Responses.ResponseService.ProcessReplicaData | Assignment1/src/main/java/com/assignment/service/ResponseService.java:245-247 | the new state is `ReplicaApplied` of the old: nothing is broadcast |
| Responses.ResponseService.SaveRandomResponseWithoutBroadcast | Assignment1/src/main/java/com/assignment/service/ResponseService.java:250-267 | the new state is `ReplicaApplied` of the old |
| Responses.ResponseService.ForceCrash | Assignment1/src/main/java/com/assignment/service/ResponseService.java:269-330 | the new state is `ResponseSpec.ForceCrash` of the old |
| Responses.ResponseService.ScheduleInstanceRestart | Assignment1/src/main/java/com/assignment/service/ResponseService.java:332-347 | one restart is queued for the port; nothing else changes |
| Responses.ResponseService.RestartThreadFires | Assignment1/src/main/java/com/assignment/service/ResponseService.java:340-344 | the new state is `Restarted` of the old |
| Responses.ResponseService.InformHealthEndpoint | Assignment1/src/main/java/com/assignment/service/ResponseService.java:384-393 | exactly one instance-down notice for the port is sent; nothing else changes |
| Responses.ResponseService.CheckResponseHealth | Assignment1/src/main/java/com/assignment/service/ResponseService.java:400-418 | the new state, and whether an exception escaped, are `CheckedResponse` of the old |
| HealthMonitor.AfterFaultRecovery | Assignment1/src/main/java/com/assignment/controller/HealthController.java:73-85 | fault recovery only clears flags, the one its name selects, and ignores the port |
| HealthMonitor.AfterInstanceDown | Assignment1/src/main/java/com/assignment/controller/HealthController.java:88-102 | port 8080 clears instance 1, port 8081 clears instance 2, and the other flag, or both for any other port, keep their values |
| HealthMonitor.AfterProbe | Assignment1/src/main/java/com/assignment/controller/HealthController.java:49-71 | a 2xx probe sets the named flag, any exception clears it, a non-2xx answer without an exception keeps it, and the other flag never changes |
| HealthMonitor.AfterMonitoring | Assignment1/src/main/java/com/assignment/controller/HealthController.java:43-47 | each flag is decided by its own instance's probe alone |
| HealthMonitor.InstanceDownIdempotent | Assignment1/src/main/java/com/assignment/controller/HealthController.java:88-102 | a repeated instance-down for the same port changes nothing more |
| HealthMonitor.ProbeDecides | Assignment1/src/main/java/com/assignment/controller/HealthController.java:52-69 | a probe that answers 2xx or throws decides the flag whatever its old value |
| HealthMonitor.ArbitrationNotice | Assignment1/src/main/java/com/assignment/service/ResponseService.java:384-393 | the notice an arbitration sends marks exactly the crashed instance down in the health controller and leaves the other flag |
| HealthMonitor.HealthController.constructor | Assignment1/src/main/java/com/assignment/controller/HealthController.java:25-26 | both instances start out alive |
| HealthMonitor.HealthController.MonitorInstances | Assignment1/src/main/java/com/assignment/controller/HealthController.java:43-47 | the new flags are `AfterMonitoring` of the old |
| HealthMonitor.HealthController.CheckInstanceHealth | Assignment1/src/main/java/com/assignment/controller/HealthController.java:49-71 | the new flags are `AfterProbe` of the old |
| HealthMonitor.HealthController.HandleFaultRecovery | Assignment1/src/main/java/com/assignment/controller/HealthController.java:73-85 | the new flags are `AfterFaultRecovery` of the old |
| HealthMonitor.HealthController.InstanceDown | Assignment1/src/main/java/com/assignment/controller/HealthController.java:88-102 | it always answers 200, and the new flags are `AfterInstanceDown` of the old |
| ClientApi.CheckHealthAsWritten | Assignment1/src/main/java/com/assignment/controller/ClientController.java:49-57 | no record gives 404, flag 1 gives 200, any other flag gives 404, and a missing flag throws |
| ClientApi.NullFlagThrows | Assignment1/src/main/java/com/assignment/controller/ClientController.java:52 | a record whose flag was never set makes the check throw |
| ClientApi.CheckHealth | Assignment1/src/main/java/com/assignment/controller/ClientController.java:49-57 | the corrected check never throws and answers 200 iff there is a record whose flag is 1 or missing |
| ClientApi.CheckHealthAgreesWhenFlagSet | Assignment1/src/main/java/com/assignment/controller/ClientController.java:52-55 | the corrected and the as-written checks agree on every input the as-written one handles |
| ClientApi.AliveAfterSave | Assignment1/src/main/java/com/assignment/controller/ClientController.java:52-53 | after any save the client reports the node alive, by either check |
| ClientApi.GenerateRandomData | Assignment1/src/main/java/com/assignment/controller/ClientController.java:60-69 | the payload has exactly ten characters in 'a'..'z', the i-th being 'a' plus the i-th draw, as `generateRandomString` would produce |

## Left out

- HTTP: every RestTemplate call is represented only by its outcome (`Http.Outcome`) or a success boolean. URLs, request bodies and response bodies are not modelled. A response service's calls are recorded in order in `outbox`.
- The re-entrant self-POST in `sendRandomDataToResponse`: its request is recorded as a `SelfPost` message, and only the local save that follows a 2xx answer is modelled. Whatever the receiving endpoint does with the POST is not part of this model.
- Threads, sleeps and `@Scheduled`: the restart thread after a crash is recorded in `pendingRestarts`, and its effect is the separate step `RestartThreadFires`. The thread that `forceCrash` starts to run a new burst after a second is not modelled; in the model a new burst is a separate call of `GenerateAndSendRandomRequests`. Concurrency between the scheduler, HTTP handlers and these threads is not modelled: every operation runs to completion alone.
- Randomness: every `Random` draw is an input in its range. This covers the burst size (`nextInt(101)`), which is modelled as the length of `attempts` (at most 100), as well as the tie coin, the crash draws and the payload letters.
- forceCrash's redraw loop: the draw stream is required to contain a pair of distinct draws (`ValidDraws`). The Java loop ends with probability 1 but has no bound.
- The clock: `LocalDateTime.now` is an integer number of seconds (`now`); the payload of each generated request is an input to `Attempt`.
- Persistence: JPA repositories and entities. `Health` is a value holding the latest record, and the saved `Response` rows are their payload strings. The `Client` record that `ClientController.sendRandomDataToResponse` saves is not modelled.
- `ClientController.sendRandomDataToResponse`, `HealthController.getHealthStatus`, `LoadBalancerController` and `ResponseController` are not part of this model. They only forward to the modelled operations or read a flag. `ResponseController` calls methods that `ResponseService` does not define.
- `ResponseService.getRandomNumber` is a getter and is not modelled. The commented-out peer-draw retry code is not modelled either.
- Logging, `intervalInMs` and `Thread.sleep` in the generation loop are not modelled.
- Java `int` and `AtomicInteger` overflow: counters are unbounded integers.
- HealthMonitor.HealthController.CheckInstanceHealth keeps its `url` parameter and HealthMonitor.HealthController.HandleFaultRecovery its `port` parameter; both are unused, as in the source.

## Findings

| source | as written | input that shows it | evidently intended | confidence | as-written member | corrected member |
|---|---|---|---|---|---|---|
| Assignment1/src/main/java/com/assignment/controller/ClientController.java:52 | `health.getFlag() == 1` unboxes the `Integer` flag before the `== null` test, so a record with a null flag throws `NullPointerException` instead of answering | a latest Health record with `flag == null` | answer 200 when the flag is 1 or null, as the condition's second disjunct says | not executed | ClientApi.CheckHealthAsWritten (shown by ClientApi.NullFlagThrows) | ClientApi.CheckHealth (agreement elsewhere by ClientApi.CheckHealthAgreesWhenFlagSet) |
