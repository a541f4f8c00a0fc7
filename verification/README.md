# Moving a user's service between edge servers: a verified model

A central controller watches mobile users and their base stations. When a user moves, it
orders one edge server to hand the user's running container over to another, while the
user's device changes its base station. This project models that system in Dafny and
proves what its parts promise each other:

| files | part of the system |
|---|---|
| `Handlers`, `Controller` | the controller's handlers, for one user and on its dictionaries |
| `Decisions` | what each of these handlers publishes, schedules and stores, branch by branch |
| `EdgeHandlers`, `EdgeNode`, `EdgeServices` | an edge server: message handlers, source thread, destination thread, list of services |
| `Ports` | the ports of an edge server over whole runs |
| `Pairs`, `SourceThread`, `Overlap` | the queue of the source thread and the socket that all its migrations share |
| `EndUser` | the simulated device and its application |
| `Protocol`, `SingleCopy` | all of them with their messages in between, for one user: one container, one opinion about where it is |
| `Handovers` | where the user is sent, and where its device ends up |
| `Fleet` | any number of users on the same servers, inboxes, queues and sockets |
| `Redeployment`, `Repeats`, `RepeatRuns` | users that ask for their service again: the first repeated order, and any number of them |
| `Epochs`, `StaleTimers` | what the controller publishes between two resets, under every planner and every order of timers; which timers come too late |
| `Completion` | that a plan of the optimization planner which is near is carried out, once |
| `DiffPatch`, `Disk`, `SnapshotChain`, `SnapshotTrail` | the pre-copy snapshots: file deltas, folders, the chain of commands, and the images it is made of |
| `Sums`, `Assignment`, `Gains`, `Planner` | the optimization planner, and what it takes for a gain |
| `Geometry`, `Location`, `LeadTimes` | when a handover will come, where a user is, and when to start |
| `Framing`, `Primes` | length-prefixed messages and the test service's prime search |
| `Sampler` | the back-and-forth mobility model |
| `Route`, `Marks`, `Shaping` | packet marks, routing tables and speed limits of simulated users |

How it is built. A handler is a function on a value that holds everything the program
keeps for one user or one service; a class has the program's own fields, and each of its
methods is proved to do to the one user it is called for exactly what the function says,
and nothing to the others. Runs are sequences of such steps, in any order, and the main
theorems hold in every state of every run. The snapshots appear twice: `EdgeNode` and
`Protocol` keep only whether the second one exists, `SnapshotChain` has the folders. A
user's run in `Protocol` has its server's queues to itself and finds the socket open;
`Fleet` merges the queues of all users, lets every command see the one socket and every
raise end the thread for everybody, and proves the same of each user.

## Assumptions

- Callbacks are atomic. In `Protocol` and `Fleet`, every receiver has one inbox, filled in
  the order of sending; nothing is lost or duplicated. That is more than MQTT quality of
  service 1 gives (MQTT 3.1.1, section 4.3.2: at least once; section 4.6: message ordering).
- In `SingleCopy` and `Fleet`, checkpoints and restores succeed, no server is lost, no
  user leaves, and a user asks for its service once; in `Repeats` it asks any number of
  times.
- In `Protocol` and `Repeats`, which follow one user, the source's socket is open when
  that user's migrate runs; `Fleet` proves it for users that ask once.
- In `SourceThread`, the queue is what it is when the thread starts on it, and the message
  and destination threads change no listing, container or second snapshot meanwhile.
- xdelta: patching the old file undoes a delta against it, there is no delta against a
  missing file, and what has not the format of a delta is not accepted as one
  (`DiffPatch.Sound`, which `DiffPatch.AppendingIsSound` shows can be met). That a plain
  file which stands in for a delta has not that format is NOT assumed: the round trips
  hold exactly when none is mistaken for one.
- The solver of the planner answers with an optimal feasible 0/1 point or says that it
  has none; the root finder returns the roots; the linear solver returns the solution.
- Reals are exact, and the ratio `omega` of squared distances is given and above one.

## What turned out not to hold

- A user that asks for its service again can end up with two containers, or with none.
  The state the discovery handler compares with is never assigned, so the order to deploy
  is sent during a migration too; and the answer to any such order puts the row back to
  `running` and the bits to RUNNING, even while a migration is under way. So the row is no
  guard: a second order finds it `running` after the container has left
  (`RepeatRuns.TwoContainers`), and a second plan finds it `running` too and starts the
  migration twice, whose stale MIGRATE later takes the container to a server that has not
  prepared for it (`RepeatRuns.NoContainer`). The single copy survives all runs exactly
  when the controller never repeats an order, or never migrates, or sends both orders and
  migrations only while every MIGRATE it has published has had its MIGRATED
  (`RepeatRuns.SafePolicies`). Guarding the orders alone is not enough.
- For the first repeated order, up to its reading: it does harm exactly when it was sent
  in `pre_migrate` or `pre_migrated` (`Redeployment.FirstOrder`); at the moment it is read,
  what counts is whether the reader runs the container (`SingleCopy.Redeploy`).
- When a plan cannot build its message, the row stays in `pre_migrate`: the user is never
  moved again, which `SingleCopy.Agreement` states as an equivalence.
- All migrations from one source share one socket, and a handler that raises ends the
  thread for all of them. `SourceThread.ServedExactly` says what each command needs; two
  overlapping migrations lose the second container, which is stopped, stays listed, and
  is on its way nowhere (`SourceThread.SecondIsLost`). Threshold planners never cause that
  (`Fleet.FleetIsSafe`). The optimization planner does (`Overlap.OverlapHappens`); under
  it a container survives its source's queue exactly when no migrate of it that is reached
  finds the socket closed (`SourceThread.SurvivesExactly`).
- In optimization mode a PRE_MIGRATE may be published to a server the service has left
  (`Epochs.StalePreMigration`), exactly when the service was reported elsewhere since the
  timer was started (`StaleTimers.StaleExactly`). MIGRATEs are still never more than
  PRE_MIGRATEDs.
- In optimization mode a user that reports a handover before it was told of one, while its
  service is prepared for, is not told of it at all; otherwise a near plan leads to exactly
  one HANDOVER (`Completion.NearPlanIsCarriedOut`).
- A plan that replaces a scheduled handover does not stop it: the older timer still sends
  its own base station, and the newer one is then dropped (`Completion.ReplacedIsSent`).
- A file for which no delta could be made is sent whole under a delta's name. If it looks
  like a delta, the destination patches with it, and the file is lost
  (`DiffPatch.FileRoundTrip`; `DiffPatch.LooksLikeDelta` has such a file). The sender can
  tell beforehand (`DiffPatch.Plain`).
- The file filters leave a gap: `xtar.gz.img` is neither sent nor diffed
  (`DiffPatch.Coverage`, and exactly, `DiffPatch.RecoveredExactly`).
- With a negative length on the wire the decoder depends on how the stream is cut, exactly
  when more bytes follow than the length says (`Framing.ChunkInvariance`,
  `Framing.NegativeLengthBreaksIt`); an empty message is invisible to it, but not to the
  blocking reader (`Framing.ReadersAgree`).
- `is_prime` also says prime for every number below two (`Primes.IsPrime`).
- A mobility sample that passes two turning points leaves the trip (`Sampler.StepOnWave`),
  and a run is right exactly when none does (`Sampler.RunExactly`).
- Releasing the tables also deletes older lines that merely begin with an allocated id
  (`Marks.FileRestored`): a line for table 1001 goes with table 100
  (`Marks.OlderLineIsLost`). A second `allocate_speeds` invalidates remembered speeds
  (`Shaping.Reallocated`), and a speed that is asked for again is then not set
  (`Shaping.StaleSpeed`).
- Three base stations on one line do not determine a position
  (`Location.CollinearIsAmbiguous`).

## Model

| member | source | states |
|---|---|---|
| Fleet.FleetIsSafe | migrate_source.py:285-436 | with any number of users and servers, however their moves interleave: every user has exactly one copy from the first allocation on and agrees with the database when at rest; the oldest message of each shared inbox and the oldest command of each shared queue are their user's oldest; no migrate that is about to run finds the shared socket closed |
| SingleCopy.SingleCopy | centralized_controller.py:240-297 | in every state of every run, from the first allocation on, exactly one of these exists: a server that runs or lists the container, or a `migrate` datagram in transit; a server that has it runs it and lists it once, under its own port |
| SingleCopy.Agreement | centralized_controller.py:662-704 | whenever no message or migration command is pending, one server runs the container, and the database and the user both name that server and its port; the database knows a connected device's base station; the row is `running` exactly when no plan lost its message |
| RepeatRuns.SafePolicies | centralized_controller.py:201-215 | for users that ask again any number of times: the container stays single in every state of every run if and only if the controller never repeats an order, or never migrates, or sends both orders and migrations only while every MIGRATE it has published has had its MIGRATED |
| SourceThread.ServedExactly | migrate_source.py:248-412 | from any state of the thread, a queue is served to its end if and only if each first snapshot finds its container running, each measurement its container running and its service listed, each prepare a second snapshot, and each migrate its prepare and a prepare, of any service, since the last migrate |
| SourceThread.PairedIsServed | centralized_controller.py:291-297 | in a queue of pairs, as threshold planners order them, no migrate ever raises, and the queue is served exactly when its other commands find what they need |
| SourceThread.OverlapIsLost | migrate_source.py:407-412 | two migrates without a prepare in between end the thread, whatever it starts from |
| SourceThread.SurvivesExactly | migrate_source.py:358-436 | whatever planner filled the queue, a running container survives it, here or on its way, if and only if no migrate of it that is reached, and was prepared, finds the socket closed |
| Completion.NearPlanIsCarriedOut | centralized_controller.py:305-454 | in optimization mode, for a user in state RUNNING with no handover or migration scheduled: a plan for another server and base station that is due within 60 seconds, whose pre-migration is answered with a lead time of at most 200 and whose timers fire before the bits are reset, leads to exactly one PRE_MIGRATE and one MIGRATE, both to the user's server and for the plan's place, and to exactly one HANDOVER, to the plan's base station, if and only if the user has not reported a handover by itself first |
| Handovers.SentInOrder | centralized_controller.py:257-270 | in every run from any state, the user is sent exactly to the base stations of the plans that find it elsewhere with no handover under way, each once and in order, and its device is on the last of those it has read about and knows |
| Handovers.StationsArePlanned | centralized_controller.py:385-407 | in every run, each base station in a waiting HANDOVER, and, but for the first one, the device's own, each one it reports and the one the controller believes in, was sent by an earlier plan for that base station |
| Epochs.OnePublicationEach | centralized_controller.py:385-454 | between two resets bits only grow, and at most one HANDOVER, one MIGRATE and one PRE_MIGRATE are published, for every planner and timer order |
| Epochs.MigrationsArePrepared | centralized_controller.py:573-658 | in optimization mode the published MIGRATEs are matched, one to one, by earlier PRE_MIGRATEDs that name the same server and base station, whatever stale timers fire |
| StaleTimers.StaleExactly | centralized_controller.py:338-343 | in every run of the optimization planner, a pending pre-migration timer publishes to a server other than the row's if and only if the bits let it fire and, since it was started, the last report of where the service runs named another server than the timer's; comparing the timer's server with the row tells |
| SnapshotChain.Restores | migrate_source.py:285-408 | in every run, whatever is interleaved and however late datagrams are read, the restored snapshot has every covered file of the final checkpoint if and only if none of them was mistaken for a delta, given that the destination's pre3 was right; it was when the last prepare sent no file that looks like a delta |
| SnapshotTrail.PrepareServedExactly | migrate_source.py:258-342 | in every run a prepare is served if and only if a second snapshot is there, by the last measurement or from an earlier migration to this host; it then sends exactly that image first and leaves its own in pre3 |
| SnapshotTrail.RestoresTheMigrated | migrate_source.py:358-412 | in every run the restored snapshot has every covered file of the image that the migrate command took, whenever the images of the last measurement, of the last prepare and of the migration have no file, sent whole, that looks like a delta |
| DiffPatch.DirRoundTrip | diff_patch.py:57-77 | filtered rsync and patched deltas give back every covered file of the new directory, over stale files in all three folders, if and only if no file sent whole is mistaken for a delta |
| DiffPatch.RecoveredExactly | migrate_controller.py:135-161 | every file comes back if and only if every name is covered and no file is mistaken |
| Framing.ChunkInvariance | docker_test_service/simple.py:64-102 | the messages do not depend on how the stream is cut if and only if every negative length in it is followed by at most that many bytes; then the final state does not depend on it either |
| Framing.RoundTrip | end-user/simulated_mobile_eu.py:303-319 | however cut, the complete non-empty messages come out in order, and the counter is their number, with an incomplete last message pending |
| Framing.ReadersAgree | edge_protocol.py:50-60 | the two readers agree on a first message that is not empty; the decoder skips an empty one |
| Planner.OptimizationPlanner.ComputePlan | optimization_planner.py:34-66 | missing information or a non-optimal answer gives no plan; otherwise the plans move every movable user to its chosen place, within all limits, worth, in the gains of `Gains.GainIsGreatest`, at least as much as any allowed placement, and nobody else |
| Planner.CarriedOut | optimization_planner.py:34-66 | the proof of that for an optimal answer, KeyError excluded |
| Assignment.BestPlacement | optimization_planner.py:97-150 | no allowed placement is worth more than the chosen one |
| Gains.GainIsGreatest | stats_edge.py:268-312 | a gain is known exactly when both places are measured and the migration time is known; it is the greatest number that stays within what the user's requests are spared, both with the microseconds of the migration added and with those of the handover |
| Gains.DeltaIsSpared | stats_edge.py:268-293 | the difference in delay is the delay of a request now less its delay at the target: transfer, round trip, and processing that takes as much longer as the target is slower |
| Gains.FasterLinkGains | stats_edge.py:287-289 | more bandwidth at the target raises the gain strictly |
| Gains.ShorterTripGains | stats_edge.py:287-289 | a shorter round trip to the target raises it strictly |
| Gains.FasterServerGains | stats_edge.py:281-290 | more capacity of the target server raises it strictly |
| Gains.LongerMigrationCosts | stats_edge.py:303-312 | a longer migration never raises it, and lowers it once it takes longer than the handover |
| Gains.AllowedExactly | optimization_planner.py:116-150 | an allowed placement exceeds no server's processing power, memory or disk and puts at most 200 users on a base station, each on a neighbouring one |
| Geometry.HandoverTimeIsFirst | central_database.py:785-829 | the answer is the first time the boundary is met, none exactly when it is never met; the condition keeps its value before it, and one that holds today ends there for good |
| Location.Trilateration | central_database.py:1180-1199 | the true position solves the system; the computed location is the true one exactly when the stations are not on one line; fewer than three stations give the origin |
| LeadTimes.MigLeadIsGreatest | planner.py:127-159 | the migration lead time is the greatest number of at most 1000 seconds after which the migration over the link from the user's server to the target, and the half second of a handover, each with a tenth more, still end before the crossing at hysteresis 7; unknown exactly without that link's time or without a crossing |
| LeadTimes.PreMigLeadIsGreatest | planner.py:90-125 | the same for the pre-migration, with its own time before either of the two |
| LeadTimes.LeastIsGreatest | planner.py:36-54 | a neighbour search finds the greatest number of at most 1000 seconds after which a pre-migration, with a tenth more, ends before the crossing to each neighbour that is reached at hysteresis 2 |
| LeadTimes.PreMigrationComesFirst | planner.py:90-159 | both lead times are known or neither; the first is never later, and the gap is exactly 1.1 times the pre-migration time unless capped or nothing is to be waited for |
| Ports.PortsStayExclusive | migrate_dest.py:29-47 | in every run of the handlers and of other programs, no two holders ever have the same port |
| Ports.UsersFindTheirService | migrate_dest.py:100-148 | after every run, a created container that a migrate starts listens on the port its user is told, and nobody else holds that port |
| Sampler.RunOnWave | end-user/mobility_models.py:23-55 | samples at most one leg apart follow the triangle wave of the distance walked and stay between the ends, whatever the samples in between and the direction at the start |
| Sampler.StepOnWave | end-user/mobility_models.py:33-48 | one sample is on the triangle wave if and only if, full rounds aside, it does not pass two turning points |
| Sampler.RunExactly | end-user/mobility_models.py:28-55 | the samples of a run, however far apart, are all on the wave if and only if none passes two turning points |
| Marks.Conservation | end-user/route.py:102-150 | allocate, any calls, release: the host is as it was, the file under that condition |
| Marks.SetFilterKeeps | end-user/route.py:123-138 | marks stay distinct and disjoint from older ones; each marked user has exactly one filter, at its latest destination, and one rule |
| Marks.FileRestored | end-user/route.py:72-75 | the table file is as before if and only if no older line begins with an allocated id |
| Marks.OlderLineIsLost | end-user/route.py:72-75 | an older line for table 1001 is deleted when table 100 is released |
| Shaping.ShapingAgreement | end-user/datarate.py:118-169 | in every run a remembered speed is the rate of the class the user's traffic goes through |
| Shaping.Reallocated | end-user/datarate.py:42-91 | after a second allocation speeds agree only if all are the default, and no traffic is led to a class |
| Shaping.StaleSpeed | end-user/datarate.py:118-169 | after a second allocation a remembered speed differs from the class rate, and asking for it again changes nothing |
| Primes.IsPrime | docker_test_service/simple.py:26-36 | true exactly for primes and for numbers below two |
| Framing.CommandRoundTrip | edge_protocol.py:106-116 | a command and its payload survive if and only if the command name has no space |
| Fleet.MoveKeeps | migrate_source.py:425-436 | every move of every user or server keeps the invariant: the shared queues are the users' own queues merged, and the prepares and migrates of each server, queued or still in its inbox, come in pairs |
| Fleet.SocketIsOpen | migrate_source.py:294-412 | a migrate at the head of a live server's queue finds the socket open, because its own prepare opened it and no other prepare or migrate came between |
| SingleCopy.StepKeeps | edge_controller.py:277-377 | every step of every component keeps the invariant that locates the container and both migration messages |
| SingleCopy.Redeploy | edge_controller.py:361-377 | a deployment order that is read keeps the copy single if and only if its reader runs the container |
| Redeployment.SafeWhileRunning | centralized_controller.py:201-215 | the first repeated order, sent while the row is `running`, does no harm when it is read: it is the first message of the server that holds the container, and nothing can move the container before; what its answer does later is `RepeatRuns.NoContainer` |
| Redeployment.BreaksWhileMigrating | edge_controller.py:361-377 | two runs, one for each phase, after which the order reaches the server the container has left and starts a second one |
| Redeployment.FirstOrder | centralized_controller.py:201-215 | the first repeated order can break the single copy by being read, after some run, if and only if the row is in `pre_migrate` or `pre_migrated` when it is sent |
| Repeats.ActOk | centralized_controller.py:561-567 | with careful orders and migrations every step, repeated requests among them, keeps the invariant: waiting orders are the first messages of the holder, and each answer names the server the row will name when it is read |
| Repeats.CautiousIsSafe | centralized_controller.py:201-215 | the policies of the equivalence keep one copy in every state of every run |
| Repeats.CarefulAgreement | centralized_controller.py:538-571 | under the careful policy, once nothing is pending, no MIGRATED is due, and the server, the database and the user name the same place |
| RepeatRuns.TwoContainers | centralized_controller.py:561-567 | under any policy that repeats orders while the row is `running`, a run with three requests ends with two containers |
| RepeatRuns.NoContainer | centralized_controller.py:271-297 | under any policy that migrates while the row is `running`, even if orders are sent only while nothing is due, a run with two requests ends with no container |
| SourceThread.SecondIsLost | migrate_source.py:371-412 | of two overlapping migrations the second container is stopped, still listed, and on its way nowhere |
| Overlap.OverlapHappens | centralized_controller.py:338-343 | a run of the optimization controller with two users sends their orders in that order, and carrying them out loses the second container |
| SingleCopy.CopiesAt | migrate_dest.py:109-153 | for each stage of a migration, the exact set of copies |
| SingleCopy.PlanKeeps | centralized_controller.py:240-297 | a plan either starts one migration from the server that holds the container or leaves the stage |
| SingleCopy.HostReceiveKeeps | edge_controller.py:320-357 | an order that reaches an edge server moves along the pipeline, or deploys the first container |
| SingleCopy.SourceRunKeeps | migrate_source.py:358-423 | a source command moves the container into transit exactly when it is this user's migrate; the socket it needs is open, which `Fleet.SocketIsOpen` proves |
| SingleCopy.DestRunKeeps | migrate_dest.py:77-153 | a datagram handled at the destination prepares it or lands the container there |
| Handovers.FollowsThePlans | end-user/simulated_mobile_eu.py:559-576 | a device that has read everything and knows every base station is on that of the last plan that sent it away |
| Handovers.StepWaits | end-user/simulated_mobile_eu.py:559-576 | what each step of each component does to the waiting handovers, the device's base station and its connection |
| Completion.HandoverComes | centralized_controller.py:627-642 | a handover that is stored while the service is prepared for is published exactly once after an answered pre-migration, unless the user reports one first |
| Completion.MigrationComes | centralized_controller.py:627-658 | a stored migration whose pre-migration is answered is published exactly once |
| Completion.CanBeCarriedOut | centralized_controller.py:305-454 | such a run exists for every near plan |
| Completion.HandoversArePlanned | centralized_controller.py:344-383 | whatever timers fire, a published HANDOVER names the base station of an earlier plan |
| Completion.ReplacedIsSent | centralized_controller.py:359-407 | of two scheduled handovers the older timer publishes its own base station, although the newer one is stored, and the newer timer publishes nothing |
| Completion.TwoPlans | centralized_controller.py:359-378 | two plans for the user's own server, both due within two seconds, lead there |
| Completion.OneHandoverEach | centralized_controller.py:385-407 | published HANDOVERs and the one that is stored are never more than the plans |
| Decisions.PlanPublishes | centralized_controller.py:240-297 | a threshold plan publishes a HANDOVER if and only if the user is elsewhere and no handover is under way, and it names the plan's base station; PRE_MIGRATE and MIGRATE if and only if the row runs on another server, to that server and for the plan's place |
| Decisions.HandoverHalf | centralized_controller.py:257-270 | what its handover half leaves in the bits and in the stored plans |
| Decisions.MigrationHalf | centralized_controller.py:271-297 | what its migration half leaves there and in the row |
| Decisions.BatchIsOwnPlans | centralized_controller.py:240-297 | a batch of plans does to each user exactly what the user's own plans do, one after the other |
| Decisions.BatchTells | centralized_controller.py:240-297 | nobody is told anything but what one of its own plans says |
| Decisions.ReportStores | centralized_controller.py:538-571 | an allocation or migration report puts the row at the reported server and port, `running`, and the bits at RUNNING, for exactly the users that are known |
| Decisions.HandoverReportStores | centralized_controller.py:683-704 | a known user is at the base station it reports; during a pre-migration the report is remembered, otherwise the state is RUNNING again |
| Decisions.DiscoveryDeploys | centralized_controller.py:180-236 | whom a discovery deploys, where, and that it changes nothing for a user with a row |
| Decisions.AnswerPublishes | centralized_controller.py:589-602 | under a threshold planner an answer publishes exactly the stored migration that it answers, if it is still to be published |
| Decisions.OptimizedPlanStarts | centralized_controller.py:327-383 | a plan of the optimization planner starts exactly the pre-migration due within 60 seconds, or, on the same server, the handover due within 2 |
| Decisions.OptimizedPlanStores | centralized_controller.py:341-378 | it stores itself when it starts something, and its base station when that is a new one |
| Decisions.AnswerStarts | centralized_controller.py:603-658 | an answer starts a timer for the stored handover if and only if none was triggered, and for the stored migration if and only if it answers it and none was published, each for a lead time of at most 200 |
| Decisions.AnswerStores | centralized_controller.py:603-658 | with a longer one the migration is given up and both plans are forgotten; otherwise the answer is remembered |
| Decisions.TimerPublishes | centralized_controller.py:385-454 | a timer publishes what it was started for if and only if that is still to be done |
| Decisions.TimerStores | centralized_controller.py:385-454 | a publication sets its bit and uses up the stored plan |
| Completion.HistoryCounts | centralized_controller.py:428-454 | the MIGRATEs and PRE_MIGRATEDs that the matching counts are those published and received |
| Epochs.ResetsExactly | centralized_controller.py:561-702 | state bits are only ever lost in a reset, which leaves INIT or RUNNING; says when each handler resets |
| Epochs.Pays | centralized_controller.py:385-454 | each publication uses up a budget that only a reset refills |
| Epochs.StalePreMigration | centralized_controller.py:338-343 | a run with such a timer: a plan computed twice |
| Handlers.Handled | centralized_controller.py:244-258 | the batch stops at the first plan whose user is not known |
| Controller.CentralizedController.TriggerHandover | centralized_controller.py:385-407 | does to this user what the handover function says, to the others nothing |
| Controller.CentralizedController.TriggerMigration | centralized_controller.py:428-454 | likewise for the migration timer, which in the state RUNNING only drops the stored plan |
| Controller.CentralizedController.ApplyThresholdPlan | centralized_controller.py:244-297 | one whole plan does to this user what `ThresholdPlan` says, whose publications and new state are those of `Decisions.PlanPublishes`, `HandoverHalf` and `MigrationHalf`, and to the others nothing |
| Controller.CentralizedController.TriggerOtherPlanners | centralized_controller.py:240-297 | the loop over a batch does to every user, and logs for every user, what the plans up to the first user without a service row, a user row or a migration state do in order, each as `Decisions.PlanPublishes` says |
| Controller.CentralizedController.ApplyOptimizedPlan | centralized_controller.py:305-383 | one plan of the optimization planner; what it starts and stores is `Decisions.OptimizedPlanStarts` and `OptimizedPlanStores` |
| Controller.CentralizedController.ProcessDiscovery | centralized_controller.py:180-238 | first and repeated discoveries |
| Controller.CentralizedController.ProcessAllocated | centralized_controller.py:538-571 | the allocation report |
| Controller.CentralizedController.ProcessMigrated | centralized_controller.py:662-681 | the migration report |
| Controller.CentralizedController.ProcessHandovered | centralized_controller.py:683-704 | the handover report |
| Controller.CentralizedController.ProcessPreMigrated | centralized_controller.py:573-660 | the pre-migration report under either kind of planner; what it publishes, starts and stores is `Decisions.AnswerPublishes`, `AnswerStarts` and `AnswerStores` |
| EdgeHandlers.OrdersAreQueued | edge_controller.py:277-359 | an order to prepare or migrate is queued, as given, if and only if the service is listed and goes to another server; a PRE_MIGRATE to the server itself is answered at once |
| EdgeHandlers.PrepareIsRecorded | migrate_source.py:285-303 | a prepare is recorded even when it raises, and announces and sends only when a second snapshot is there |
| EdgeNode.FindOpenPort | migrate_dest.py:44-47 | the first free port of 9900 to 9998, and none only when all are busy |
| EdgeNode.TakenPorts | migrate_dest.py:29-42 | exactly the ports a running container, an open socket or another program holds |
| EdgeNode.Node.ProcessPreMigrate | edge_controller.py:277-318 | queues a prepare for a listed service that goes elsewhere, or answers at once; other services are untouched |
| EdgeNode.Node.ProcessMigrate | edge_controller.py:320-359 | queues a migrate for a listed service that goes elsewhere |
| EdgeNode.Node.ProcessDeploy | edge_controller.py:160-265 | answers with the running service or starts one on an open port; ports stay exclusive |
| EdgeNode.Node.RunQueue | migrate_source.py:425-436 | the loop over the real fields serves the queue exactly when the specification does, and leaves every service and the socket as it says |
| EdgeNode.Node.RunSourceCommand | migrate_source.py:425-436 | one turn of the source thread, for the service of the oldest command only |
| EdgeNode.Node.HandleCommand | migrate_source.py:248-423 | each source command, with every case in which it raises, and what it does to the shared socket |
| EdgeNode.Node.HandleMigrate | migrate_source.py:358-423 | stops the container, sends the datagram, takes the service off the list; with the socket closed it raises after the stop |
| EdgeNode.Node.HandleDestPrepare | migrate_dest.py:77-107 | reserves a port nobody holds and creates the container with it; raises only when none is left |
| EdgeNode.Node.HandleDestMigrate | migrate_dest.py:109-153 | the announced port is the one the container was created with in the latest prepare; the service is listed under it; an exited container whose port is taken does not start |
| EdgeServices.Registry.FindIndexService | edge_services.py:14-19 | the first entry of a user and service name, and none only when there is none |
| EdgeServices.Registry.GetService | edge_services.py:44-47 | the oldest listed service |
| EdgeServices.Registry.RemoveService | edge_services.py:21-24 | removes the oldest entry of the key and nothing of any other key |
| EndUser.MobileDevice.UpdateEu | end-user/simulated_mobile_eu.py:150-164 | the device is back, and says so once, at the first update after that time |
| EndUser.MobileEUTestApp.ProcessAllocated | end-user/simulated_mobile_eu.py:578-595 | the user's step of the protocol; an open socket always leads to the current service |
| EndUser.MobileEUTestApp.ProcessMigrated | end-user/simulated_mobile_eu.py:597-617 | the same, and the old socket is closed |
| EndUser.MobileEUTestApp.ProcessHandover | end-user/simulated_mobile_eu.py:559-576 | the same for a handover |
| EndUser.MobileEUTestApp.Update | end-user/simulated_mobile_eu.py:150-164 | the reconnection step of the protocol, exactly when the base station is published |
| EndUser.MobileEUTestApp.Request | end-user/simulated_mobile_eu.py:332-340 | a request goes only to the current service, over a connected device |
| DiffPatch.FiltersExactly | migrate_controller.py:121-133 | a delta is made of a file unless "tar.gz.img" stands in its name; a file is sent unless its name ends in ".img" and not in ".tar.gz.img" |
| DiffPatch.Coverage | migrate_controller.py:121-133 | names in which "tar.gz.img" occurs only as the end of the suffix ".tar.gz.img" are sent or diffed; another name is neither |
| DiffPatch.AppendingIsSound | diff_patch.py:21-45 | the assumption about xdelta can be met by a program that makes deltas and needs the right old file |
| DiffPatch.FileRoundTrip | diff_patch.py:21-45 | one file comes back if and only if a delta was made of it or the file, sent whole, is not accepted as a delta; the old file may be a stale one where there was none |
| DiffPatch.LooksLikeDelta | diff_patch.py:33-45 | a sound xdelta and a file that is lost |
| Disk.Machine.CreateXdeltaDiff | diff_patch.py:57-69 | the loop writes exactly the delta of every diffed file into the patch folder |
| Disk.Machine.CreateXdeltaPatch | diff_patch.py:71-77 | the loop writes exactly the patched files into the new folder |
| Disk.Machine.ComputeDiff | migrate_controller.py:135-148 | a fresh patch folder, and return code 0 only with both folders there |
| Disk.Machine.RestoreDiff | migrate_controller.py:150-161 | patches over what is there, with each missing folder handled |
| SnapshotChain.Source.HandleMeasureDirty | migrate_source.py:258-283 | does to the folders what `SnapshotTrail.MeasureLeaves` and `MeasureOfStopped` say: the image in pre2, the differences to pre1 beside it; a container that does not run or a service that is not listed ends the thread |
| SnapshotChain.Source.HandlePrepare | migrate_source.py:285-356 | both machines' folders after a prepare, and that a missing second snapshot ends the thread |
| SnapshotChain.Source.HandleMigrate | migrate_source.py:358-423 | both machines' folders after a migrate, which needs an earlier prepare |
| SnapshotChain.Destination.HandlePrepare | migrate_dest.py:77-107 | rebuilds pre3 |
| SnapshotChain.Destination.HandleMigrate | migrate_dest.py:109-153 | rebuilds and restores the final snapshot, then takes its own pre2 |
| SnapshotChain.StepKeeps | migrate_source.py:248-408 | every command and datagram keeps the invariant of the chain of snapshots |
| SnapshotChain.ReceivePrepareKeeps | migrate_dest.py:77-107 | a handled prepare keeps the invariant of the chain: the destination's pre3 agrees with the source's exactly when none of its files was mistaken for a delta |
| SnapshotChain.ReceiveMigrateKeeps | migrate_dest.py:109-129 | a handled migrate keeps it: the restored snapshot agrees with the final checkpoint exactly when none of its files was mistaken |
| SnapshotTrail.MeasureLeaves | migrate_source.py:258-283 | a measurement of a running container leaves its image in pre2, touches no other folder but the first differences, and these make the image from pre1 again, with the files sent, exactly when none is mistaken |
| SnapshotTrail.MeasureOfStopped | migrate_source.py:258-283 | one of a container that does not run takes pre2 away |
| SnapshotTrail.PrepareLeaves | migrate_source.py:285-342 | a prepare leaves its image in pre3 and keeps every other folder but the second differences |
| SnapshotTrail.NextHostIsPrepared | migrate_dest.py:109-153 | the host that restored a container has a second snapshot of its own: the next migration, from there, is prepared without a measurement and builds on it |
| SnapshotTrail.ThreadEndsExactly | migrate_source.py:248-412 | in every run, a command ends the source thread if and only if it is a first snapshot of a container that does not run, a measurement of one that does not run or is not listed, a prepare without a second snapshot, or a migrate without a prepare |
| SnapshotTrail.MeasuredIsPrepared | migrate_source.py:258-342 | a prepare after a measurement, and no other in between, does not raise and sends that measurement's image |
| Assignment.OnePlace | optimization_planner.py:110-114 | a feasible point gives a user exactly one server and base station, a neighbouring one |
| Assignment.UseIsLoad | optimization_planner.py:116-138 | a resource constraint's double sum is the need of the users placed at the server |
| Assignment.UsersAreAttached | optimization_planner.py:145-150 | the association constraint's double sum counts the users at the base station |
| Assignment.FeasibleMeans | optimization_planner.py:110-150 | a feasible point is a placement of all movable users within CPU, RAM, disk and association limits |
| Assignment.AllowedIsFeasible | optimization_planner.py:110-150 | conversely, every such placement is a feasible point |
| Assignment.ProfitIsWorth | optimization_planner.py:97-108 | the objective's sum over five indices is the sum of the users' own gains, each as `Gains.GainIsGreatest` says |
| Assignment.NeverLoses | optimization_planner.py:97-108 | the optimum is at least zero whenever staying is feasible |
| Gains.ComputableExactly | optimization_planner.py:52-66 | the objective can be computed if and only if every other neighbouring place of each movable user whose place is known is measured and its migration time known; otherwise `ComputePlan` answers with no plan |
| Planner.DiffsApply | optimization_planner.py:15-32 | carrying the plans out gives every listed user its new place and leaves everybody else |
| Planner.DiffsAreChanges | optimization_planner.py:27-31 | each plan is a real change, and no user gets two |
| Planner.OptimizationPlanner.DiffAssign | optimization_planner.py:15-32 | the plans are the differences between what is read from the two dictionaries |
| Geometry.Expansion | estimator.py:14-31 | the expanded polynomial is the hysteresis difference on the line |
| Geometry.CrossedBetween | estimator.py:35-55 | on the line the condition holds exactly between the two handover points, just so at them, and nowhere without a real root |
| Geometry.RemainTimeExactly | estimator.py:57-89 | for any point and velocity: a user that moves in both directions reaches exactly the points on its path, at the time given; one that moves in a single direction may miss the point by less than 0.00001; one that stands has no time; everything else is a ValueError |
| Geometry.RemainTimeOnLine | estimator.py:57-89 | on the line both coordinates give the same travel time, and no ValueError; a standing user has none |
| Geometry.HoldsOverTime | central_database.py:808-815 | for a user on the line, a condition that holds between the roots holds over time exactly between the two travel times |
| Location.CollinearIsAmbiguous | central_database.py:1191-1199 | otherwise another position fits the same differences |
| LeadTimes.EstimateTime.AverageEstPreMig | central_database.py:334-339 | the mean of all recorded times, none without any |
| LeadTimes.EstimateTime.MaxEstPreMig | central_database.py:341-345 | the largest recorded time |
| LeadTimes.PreMigLeadImpliesMigLead | planner.py:90-159 | for any tables, a pre-migration lead time comes with a migration lead time, which the controller relies on |
| LeadTimes.LeastDecreases | planner.py:36-54 | a longer preparation starts earlier, by at most its margin |
| LeadTimes.MaximumStartsFirst | planner.py:24-88 | the start by the maximum is never later than the start by the average |
| LeadTimes.MigrationPlanner.SearchNeighbours | planner.py:39-54 | the loop finds the least lead time over reachable neighbours, capped at 1000 |
| LeadTimes.MigrationPlanner.LifetimeToPreMig | planner.py:90-125 | answers the lead time that `LeadTimes.PreMigLeadIsGreatest` describes |
| LeadTimes.MigrationPlanner.LifetimeToMig | planner.py:127-159 | answers the lead time that `LeadTimes.MigLeadIsGreatest` describes |
| Framing.LengthIsSigned | docker_test_service/simple.py:78-92 | a length is a number of 32 bits in two's complement, most significant byte first |
| Framing.HeaderRoundTrip | edge_protocol.py:114-116 | a packed length is read back, although lengths are signed |
| Framing.TCPServer.DataReceived | docker_test_service/simple.py:64-102 | the loop terminates, consumes a chunk as the specification says, and hands out the completed messages, for all inputs |
| Framing.CutProofSuffices | docker_test_service/simple.py:64-102 | any cutting of such a stream gives the messages and the state of the whole |
| Framing.BadCut | docker_test_service/simple.py:78-92 | for every other stream, a place where cutting it once changes the messages |
| Framing.NegativeLengthBreaksIt | docker_test_service/simple.py:78-92 | an instance that does depend on the cut |
| Framing.ClientThread | edge_protocol.py:50-60 | reads exactly the first message from pieces of any size, or waits for ever |
| Primes.CpuBound | docker_test_service/simple.py:38-39 | the primes below the target, and 0 and 1, in order |
| Sampler.SampleOnWave | end-user/mobility_models.py:28-55 | one sample keeps the position and direction on the wave, waiting time included |
| Sampler.SimpleRoundTripMoving.GetNewPosition | end-user/mobility_models.py:28-55 | updates position, direction and clock as the specification says |
| Route.FirstFree | end-user/route.py:42-46 | the first number of the range that is not taken, none only when all are |
| Route.RouteManager.AllocateTables | end-user/route.py:102-112 | the loop writes one line and one id for each user |
| Route.RouteManager.SetFilter | end-user/route.py:123-138 | moves a user's filter or marks a new user; changes nothing when it raises |
| Route.RouteManager.ReleaseTables | end-user/route.py:140-150 | undoes filters, rules and table lines in order, up to a command that fails |
| Marks.AllocatedIds | end-user/route.py:102-112 | ids are pairwise distinct, in range and new |
| Marks.MissingIds | end-user/route.py:107-108 | an id is missing only when the whole range is taken |
| Marks.SetFilterFails | end-user/route.py:123-138 | a call fails if and only if the user is unknown, or unmarked with no mark left |
| Marks.ReleaseRestores | end-user/route.py:140-150 | releasing succeeds and gives back every filter and rule |
| Marks.TrafficIsMarked | end-user/route.py:48-53 | traffic to a user's latest address carries that user's mark |
| Shaping.SetSpeedKeeps | end-user/datarate.py:118-169 | whichever command fails, remembered speeds are the rates of the classes; success and "unchanged" both mean the wanted rate is set |
| Shaping.SpeedManager.AllocateSpeeds | end-user/datarate.py:42-91 | one class for each user at the default rate, nothing before tables are allocated |
| Shaping.SpeedManager.SetSpeed | end-user/datarate.py:102-169 | updates cache, flag, filter and class as the specification says |

## Left out

- Failed checkpoints, lost servers, departing users and `destroy_service` in `Protocol`: they break the single copy, and the code does not claim otherwise.
- More than one service for a user, and clashes of container names built by joining service and user name: a service is identified by both.
- The rsync (non-live) method and the unused legacy methods of `migrate_source.py` and `migrate_dest.py`.
- Subdirectories of a snapshot, such as CRIU's working folder: folders hold regular files only.
- How long a timer waits: pending timers fire in any order, at any time or never.
- The `elapsed_time` field of handover messages, request counters, time measurements and reports.
- EdgeNode.Node.ProcessDeploy: does not model a machine without an open port, where docker chooses one itself and the service is announced with none.
- SnapshotChain.Restores: says nothing of a migrate that found a wrong pre3, because what xdelta makes of a delta and the wrong old file is not specified.
- Route.RouteManager.SetFilter: does not model iptables and ip commands that fail for another reason than a filter or mark that is missing.
- Shaping.SpeedManager.AllocateSpeeds: does not model tc commands that fail inside the allocation.
- Repeated discoveries in `Fleet`, where users ask once; and the optimization planner in `Protocol` and `Fleet`: its timers let prepares and migrates of different users overlap.
- The queries behind the planner's numbers, and the container needs that may be missing: they are parameters; a missing gain is modelled.
- `stats_edge.py` calls a neighbour query that `central_database.py` does not define: neighbours are a parameter.
- The choice of the three strongest base stations, and the distance computed from a signal strength.
- A user so slow in one direction that it cannot be told from standing, but not standing (velocity below 0.00001).
- Default routes set by `set_gw_ip`, which `release_tables` does not undo.
- The dry-run mode of the speed limits; the default class of unmarked traffic.
- User names with spaces in the table file, and ids that are not numbers.
- Messages with characters outside ASCII, for which the encoder counts characters and not bytes.
- Round-off: reals are exact. Circular trips and signal models need functions Dafny does not have.
- MQTT, sockets, Docker, CRIU, rsync, ssh, tc and iptables as processes: only their effect on state is modelled.
- Monitors, log parsing, plotting, discovery of configuration files, placement and rate tables.
