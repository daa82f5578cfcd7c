# Verification of Synergy's service and configuration logic

This project models the parts of Synergy whose correctness is not visible from reading one
function, and proves what they are for:

* the **path-vector router** that connects the computers of a profile: its ordered route table,
  the handlers that change it, and networks of such routers;
* the **core-protocol scanner and codec** that cuts a byte stream into messages and writes them again;
* the **screen links**, painted from the farthest screen to the nearest;
* the **supervisor of the core process**, the **queues of HTTP jobs**, the **send queue** of a
  connection, and the **placement** of screen icons.

Code that changes state step by step is modelled by classes and methods (`Router`, `FieldIO`,
`ScannerMachine`, `ScreenLinks`, `CloudJobs`, `CoreProcess`, `Connections`, `Placement`), each tied
by its contract to a function of the old state; what the system promises is proved about those
functions, over all inputs and all runs.

## How the parts fit

`Routes` and `RouteTables` define the order of routes and the three best of a set; `RouterSpec` says
what a router does on each event; `RouteIndex`, `RouterLemmas` and `Router` show that the code on the
sorted table does that. `Network` puts routers at the ends of FIFO links that come up, go down, deliver
and lose. `Spreading` says what each step puts on which link, `NetworkInvariant` holds in every run; `GrowthInvariant`, `Convergence` and `Settling` are
about runs in which links only come up, and so is `Delivery`, which counts the data messages with `Loads`;
`Revocation` is about one revocation, `LinkLoss` about a lost link in any run, and `Fading` shows that control
messages die out in any run.

`Codec` reads and writes fields, `Grammars` messages over any good grammar, and `FieldIO` is the code
that does so through a cursor. `Scanner` cuts one token, `ScannerTheorems` says what a whole run means,
`ScannerMachine` is the automaton and the handler, `Messages` and `ProtocolV1` are the 29 messages of version 1.

Where the code does otherwise than its description or name suggests, the model follows the code:

* the grammar takes an empty payload only after a count of zero, but the generated automaton accepts
  one after any count, so that a message that promises more bytes than there are raises the codec's
  error instead of being refused (`ScannerTheorems.CutShort`, `ScannerTheorems.RaisesExactlyOnOverlongCounts`);
* shutting the core process down calls off neither a pending retry nor a pending replacement
  (`Supervisor.ShutdownIsFinalExactly`), and switching servers while the process is disabled moves the
  proxy but not the client (`Supervisor.ProxyAgreesExactly`);
* a revocation does not bring back what its advertisement bumped (`Revocation.RevocationUndoesAdvert`).

## Model

| member | source | states |
|---|---|---|
| `Routes.BeforeTotal` | synergy/service/router/Router.hpp:39-57 | by the composite key (destination, cost, path) no route comes before itself, and of two different ones exactly one comes first |
| `Routes.BeforeTransitive` | synergy/service/router/Router.hpp:39-57 | the order of the key is transitive |
| `Routes.PathLessAtFirstDifference` | synergy/service/router/Router.hpp:39-57 | of two paths the less is a beginning of the other, or has the smaller node at the first place where they differ, counted from the start |
| `Routes.BestAbsorbs` | synergy/service/router/Router.cpp:447-514 | forgetting all but the three best routes early never changes the three best of what is seen later |
| `Routes.BestIsSmall` | synergy/service/router/Router.cpp:18 | the best routes of any set hold at most three for a destination |
| `RouteTables.OfferKeys` | synergy/service/router/Router.cpp:447-514 | after one offered route the keys are the three least of old plus new at every destination, and the table is trimmed again |
| `RouteTables.OfferTouchesOnlyItsDestination` | synergy/service/router/Router.cpp:447-514 | entries that stay keep their connection, other destinations are untouched, a refused route changes nothing |
| `RouteTables.OffersKeepTheBest` | synergy/service/router/Router.cpp:447-514 | after any sequence of offers the table holds the three least of everything ever offered |
| `RouteTables.OffersCommute` | synergy/service/router/Router.cpp:447-514 | the order and the repetition of offers do not matter to the keys held |
| `RouteTables.LearnOrigins` | synergy/service/router/Router.cpp:616-678 | all that an advertisement installs comes from one of its routes, extended by the sender, and what was there keeps its connection |
| `RouteTables.LearnCosts` | synergy/service/router/Router.cpp:616-678 | no best cost gets worse, each accepted route bounds it, and any improvement is among the routes passed on |
| `RouteTables.LearnedKeys` | synergy/service/router/Router.cpp:616-678 | after an advertisement the keys are the three best of what was held and of the accepted routes, each extended by the sender |
| `RouteTables.AdvertOrderIsIrrelevant` | synergy/service/router/Router.cpp:616-678 | the order and repetition of the routes inside an advertisement do not matter to the keys held |
| `RouteTables.LearnedNews` | synergy/service/router/Router.cpp:646-676 | what an advertisement installs is, each once, the new routes that were among the three best when they were reached |
| `RouteIndex.BestByRank` | synergy/service/router/Router.cpp:455-513 | in the sorted table a route is among the three best exactly if fewer than three of its destination stand before it |
| `Router.Place` | synergy/service/router/Router.cpp:455-513 | rank, limit and bump amount to keeping the three best of old plus new; installed means absent before and held after |
| `Router.Bump` | synergy/service/router/Router.cpp:483-505 | into a full destination: the last of the four routes gives way, which may be the new one |
| `Router.Router.constructor` | synergy/service/router/Router.hpp:60-143 | a new router knows nothing, has no connection and is not running |
| `Router.Router.IntegrateRoute` | synergy/service/router/Router.cpp:447-514 | the table becomes the offer's; the reachable signal is raised exactly for a destination not known before |
| `Router.Router.IntegrateAdvert` | synergy/service/router/Router.cpp:616-678 | own advertisements are ignored; otherwise what was installed, and only that, is flooded to all but the source, while running |
| `Router.Router.IntegrateRevocation` | synergy/service/router/Router.cpp:516-614 | exactly the images of the revoked routes go, all images are passed on if one was held, and exactly the lost destinations are reported, once each |
| `Router.Router.Add` | synergy/service/router/Router.cpp:386-414 | a second connection between the same addresses is refused; a new one is told of this node at cost 0 and of every entry |
| `Router.Router.Remove` | synergy/service/router/Router.cpp:680-747 | exactly the entries of the connection go, they are revoked on all the others, and exactly the lost destinations are reported; no entry names a connection outside the table |
| `Router.Router.Shutdown` | synergy/service/router/Router.cpp:287-298 | afterwards nothing is known, connected or sent, and the ledger of events is closed |
| `Router.Router.Forward` | synergy/service/router/Router.cpp:757-772 | a message goes out exactly if the destination is known, and then on the connection of its least route |
| `Router.Router.Flood` | synergy/service/router/Router.cpp:785-796 | each connection but the source gets the message once, if the router runs |
| `Router.Router.Broadcast` | synergy/service/router/Router.cpp:798-807 | each connection gets the message once, if the router runs |
| `RouterSpec.LatestEventDecides` | synergy/service/router/Router.cpp:507-511 | in a ledger, a node is live exactly if its latest event says reachable; every router keeps its events a ledger of the destinations in its table |
| `RouterSpec.EventsAlternate` | synergy/service/router/Router.cpp:706-746 | the events of one node strictly alternate, beginning with reachable |
| `RouterSpec.LedgerLose` | synergy/service/router/Router.cpp:568-613 | reporting distinct live nodes as lost leaves a ledger of the others |
| `RouterSpec.ChosenGoesToSmallerNode` | synergy/service/router/Router.cpp:757-772 | the route used for forwarding is a cheapest one, and where it parts from one as cheap it goes to the smaller node |
| `NetworkInvariant.ExtensionIsOK` | synergy/service/router/Router.cpp:617-671 | a sound route of the sender that passes the loop test becomes a sound route of the receiver |
| `NetworkInvariant.StepKeepsStructure` | synergy/service/router/Router.cpp:386-747 | every step, links going down and revocations included, keeps the structure of tables and queues |
| `NetworkInvariant.RunsAreStructured` | synergy/service/router/Router.cpp:386-747 | in every state of every run each entry is a simple path of links ending at its destination, with its cost, whose first hop is the peer on its live connection; routes in flight have the sender's form, and no revocation names its sender |
| `Spreading.OpenTells` | synergy/service/router/Router.cpp:394-414 | a new connection gets one advertisement, of the node itself at cost 0 and of exactly the routes held; no table changes and no other queue grows |
| `Spreading.NewsSpreads` | synergy/service/router/Router.cpp:616-678 | a delivered advertisement puts one message on every other connection of the receiver, of exactly the news in it; without news no queue grows |
| `Spreading.RevocationSpreads` | synergy/service/router/Router.cpp:516-614 | if a delivered revocation erases an entry, every other connection of the receiver gets one revocation of exactly the extended routes; if it erases none, no queue grows |
| `Spreading.OwnMessagesAreIgnored` | synergy/service/router/Router.cpp:516-530 | control messages a node sent itself change no table and are not passed on |
| `GrowthInvariant.GrowingRunsGrow` | synergy/service/router/Router.cpp:447-514 | while links only come up, for each link and destination the peer already profits from what the node knows or is about to be told, and every route stays backed along its whole path |
| `Convergence.Converged` | synergy/service/router/Router.cpp:617-678 | with no advertisement in flight, best costs are exactly the shortest-path distances, and a node has routes to exactly the others of its component |
| `Convergence.HopsGetCloser` | synergy/service/router/Router.cpp:757-772 | the node a message is forwarded to is the destination or has, then and ever after, a route that costs less |
| `Convergence.DataGetsThrough` | synergy/service/router/Router.cpp:425-442 | no message is ever dropped, and each one in flight is within its bound and can go on from where it comes to |
| `Settling.DeliveryDescends` | synergy/service/router/Router.cpp:617-678 | each delivery uses up a route some table could still take in, or lowers the weight of what is in flight |
| `Settling.DeliveriesEnd` | synergy/service/router/Router.cpp:617-678 | no schedule of deliveries goes on for ever |
| `Settling.EveryNetworkConverges` | synergy/service/router/Router.cpp:386-678 | from any state of such a run, deliveries alone lead to one in which nothing more can be delivered, with shortest-path tables and routes to exactly the component |
| `Delivery.ForwardingReaches` | synergy/service/router/Router.cpp:757-772 | in every state of such a run, going by the route each node would choose leads from any node that knows a destination to it, in at most as many hops as the chosen route costs |
| `Delivery.StepConserves` | synergy/service/router/Router.cpp:425-442 | each step moves messages, of every destination, content and bound, between in flight and arrived at the destination; only originating adds one |
| `Delivery.MessagesAreConserved` | synergy/service/router/Router.cpp:425-442 | at every moment each message sent has either arrived once or is in flight once |
| `Delivery.SettledMeansArrived` | synergy/service/router/Router.cpp:425-442 | once nothing more can be delivered, each message has arrived at its destination exactly as often as it was sent, over at most as many links as its origin's chosen route had |
| `Delivery.EveryMessageArrives` | synergy/service/router/Router.cpp:425-442 | from any state of such a run, deliveries alone lead to one with all of that and shortest paths in all tables |
| `Revocation.RevocationUndoesAdvert` | synergy/service/router/Router.cpp:516-614 | revoking an advertisement leaves what was held before as far as it was neither named nor bumped, and restores the node exactly if none of the routes was held and, counting them, every route held still ranks among its destination's three best |
| `Revocation.BumpedRouteStaysLost` | synergy/service/router/Router.cpp:483-505 | any table with three given ways to a node, and a neighbour that advertises a shorter one and revokes it again: exactly the way that was bumped is missing afterwards |
| `Revocation.CloseAndRevokeMirror` | synergy/service/router/Router.cpp:680-725 | losing a connection erases exactly its entries, and a neighbour that processes the revocation erases exactly the entries that lead over one of them |
| `LinkLoss.CloseTells` | synergy/service/router/Router.cpp:680-725 | closing a connection erases what was learned on it, puts one revocation of it on each other connection of the node, and changes nothing else |
| `LinkLoss.RevocationTakes` | synergy/service/router/Router.cpp:516-583 | in any run, when that revocation is delivered later, the peer loses exactly the entries that lead over the closer along a route the closer had learned on the lost connection |
| `LinkLoss.StaleExactlyIfBumped` | synergy/service/router/Router.cpp:516-583 | an entry that leads over a lost only link outlives the revocation exactly if the closer no longer held the rest of its route |
| `Fading.ControlFades` | synergy/service/router/Router.cpp:516-678 | in any state with sound tables and queues, what an advertisement or revocation brings about weighs less than it did |
| `Fading.ControlIsBounded` | synergy/service/router/Router.cpp:516-678 | in every run, losses included, while no link changes no more control messages are delivered than a number fixed by the state at the beginning |
| `Fading.ControlEnds` | synergy/service/router/Router.cpp:516-678 | from any state of any run, every schedule without end in which no link changes has a last control message |
| `Codec.DecodeEncode` | synergy/service/router/protocol/v1/MessageCodec.hpp:68-177 | reading a field that was written gives its value and leaves what follows |
| `Codec.EncodeDecode` | synergy/service/router/protocol/v1/MessageCodec.hpp:68-177 | writing what was read gives the bytes it was read from |
| `Codec.DecodeEncodeAll` | synergy/service/router/protocol/v1/MessageCodec.hpp:130-143 | the same round trip over any list of fields |
| `Codec.EncodeDecodeAll` | synergy/service/router/protocol/v1/MessageCodec.hpp:130-143 | the same the other way round: what is read fits its fields and is written as the bytes consumed |
| `Codec.EncodingsPrefixFree` | synergy/service/router/protocol/v1/MessageCodec.hpp:95-177 | no encoding is a proper prefix of another of the same fields |
| `Codec.TruncatedOverruns` | synergy/service/router/protocol/v1/MessageCodec.hpp:68-107 | any shorter buffer raises the error |
| `Codec.FieldsOnTheWire` | synergy/service/router/protocol/v1/MessageCodec.hpp:68-168 | numbers are read from the most significant byte on, signed ones in two's complement; texts and vectors follow their count, in order |
| `FieldIO.ReadNumber` | synergy/service/router/protocol/v1/MessageCodec.hpp:68-80 | the cursor moves over big-endian bytes, or stays and the read fails if they are not all there |
| `FieldIO.ReadWords` | synergy/service/router/protocol/v1/MessageCodec.hpp:156-168 | a counted vector, never read past the end of the buffer |
| `FieldIO.ReadMessage` | synergy/service/router/protocol/v1/MessageTypes.cpp:62-79 | compares the tag and reads field by field what decoding the fields says |
| `FieldIO.Size` | synergy/service/router/protocol/v1/MessageTypes.cpp:51-59 | the size is the number of bytes the message is written as |
| `FieldIO.WriteMessage` | synergy/service/router/protocol/v1/MessageTypes.cpp:82-89 | a buffer of that size is filled exactly, with the tag and the fields |
| `Grammars.ReadWritten` | synergy/service/router/protocol/v1/MessageTypes.cpp:51-89 | reading a written message gives it back with no byte left |
| `Grammars.WrittenRead` | synergy/service/router/protocol/v1/MessageTypes.cpp:51-89 | writing a message read off all of some bytes gives those bytes |
| `Grammars.ReadTruncated` | synergy/service/router/protocol/v1/MessageTypes.cpp:62-79 | a message cut short anywhere, in its tag or its fields, raises the error |
| `Messages.TagsPrefixFree` | synergy/service/router/protocol/v1/MessageTypes.cpp:118-174 | no tag of a flow is a prefix of another |
| `Scanner.WholeTokenIsMessage` | synergy/service/router/protocol/v1/Scanner.cpp.rl:11-75 | the bytes the scanner cuts off are a well-formed message legal for the flow, written as the same bytes |
| `Scanner.NextIsTheMessage` | synergy/service/router/protocol/v1/Scanner.cpp.rl:11-55 | the token at the front of a written message is that message, whatever follows |
| `ScannerTheorems.Soundness` | synergy/service/router/protocol/v1/Scanner.cpp.rl:66-111 | whatever the buffer, what was handed over are legal messages whose bytes begin it, and each result is explained by what follows them |
| `ScannerTheorems.Completeness` | synergy/service/router/protocol/v1/Scanner.cpp.rl:83-111 | on the bytes of any legal messages exactly those are handed over in order, up to the first one refused; true exactly if none is |
| `ScannerTheorems.AcceptsExactlyTheWritten` | synergy/service/router/protocol/v1/Scanner.cpp:1829-1860 | the result is true exactly on the bytes of legal messages none of which is refused |
| `ScannerTheorems.RaisesExactlyOnOverlongCounts` | synergy/service/router/protocol/v1/Scanner.cpp:1829-1848 | the error is raised exactly if after accepted messages a count promises more bytes than there are |
| `ScannerTheorems.CutShort` | synergy/service/router/protocol/v1/Scanner.cpp:642-649 | a message cut anywhere before the end of its count is not recognised, cut after it the error is raised |
| `ScannerTheorems.UniquelyDecodable` | synergy/service/router/protocol/v1/Scanner.cpp.rl:24-55 | a buffer is the bytes of at most one list of messages |
| `ScannerMachine.Scan` | synergy/service/router/protocol/v1/Scanner.cpp.rl:5-55 | the automaton's cursor, count and guarded skip find the token, and say there is none exactly when no message starts or it ends too early |
| `ScannerMachine.Proc` | synergy/service/router/protocol/v1/Scanner.cpp.rl:66-75 | the action at the end of a message reads it, hands it over, and goes on, stops or raises as the run says |
| `ScannerMachine.Process` | synergy/service/router/protocol/v1/Scanner.cpp.rl:83-111 | result and messages handled are those of the run, and nothing past the buffer is read |
| `ScannerMachine.Handler.Handle` | synergy/service/router/protocol/v1/Scanner.hpp:30-58 | what the router accepts is sent on re-encoded, in order; refused messages and greetings are not; the answer is the router's or the listeners' |
| `ScannerMachine.RelayIsTransparent` | synergy/service/router/protocol/v1/Scanner.hpp:36-48 | without greetings and refusals, what is sent on is byte for byte what came in |
| `ScannerMachine.ForwardedAre` | synergy/service/router/protocol/v1/Scanner.hpp:36-58 | whatever is handled, what is sent on are exactly the accepted messages that are no greetings, in order, each as it is written |
| `ProtocolV1.NoGreetingIsForwarded` | synergy/service/router/protocol/v1/Scanner.hpp:50-58 | nothing that is sent on begins with the greeting's tag |
| `ProtocolV1.GrammarMatchesLayout` | synergy/service/router/protocol/v1/MessageTypes.hpp:85-157 | for all 29 messages the scanner's byte counts agree with the declared fields |
| `ProtocolV1.TagsAgree` | synergy/service/router/protocol/v1/Scanner.cpp.rl:25-54 | each message is written with the tag the scanner looks for |
| `ProtocolV1.AllBitsSetRead` | synergy/service/router/protocol/v1/MessageTypes.hpp:91-157 | with all bits set, coordinates read as -1 and all other numbers as the greatest of their width, message by message and in order |
| `ProtocolV1.V1Good` | synergy/service/router/protocol/v1/Scanner.cpp.rl:24-55 | the grammar of either flow meets all that the theorems on scanning ask for |
| `ProtocolV1.FlowsDifferInGreeting` | synergy/service/router/protocol/v1/Scanner.cpp.rl:25-26 | a message is legal in both flows exactly if it is no greeting; `Hello` comes from the server, `HelloBack` from the client, under the same tag |
| `ProtocolV1.V1AcceptsExactlyTheWritten` | synergy/service/router/protocol/v1/Scanner.cpp.rl:83-111 | the same exactness for version 1, where a buffer also has one reading only |
| `ScreenLinks.RemoveBeyond` | synergy/common/ConfigGen.cpp:24-66 | exactly the targets wholly to that side of the source go |
| `ScreenLinks.Sort` | synergy/common/ConfigGen.cpp:75-79 | some permutation from far to near; no more is used of it, so ties may come in any order |
| `ScreenLinks.PaintingShowsLast` | synergy/common/ConfigGen.cpp:81-87 | at each coordinate the edge holds the last target painted there whose span and whose source's span contain it |
| `ScreenLinks.LastIsNearest` | synergy/common/ConfigGen.cpp:68-157 | that is a nearest one among all screens that qualify there |
| `ScreenLinks.Link` | synergy/common/ConfigGen.cpp:68-157 | at every coordinate the edge names a nearest qualifying screen, or nothing if there is none; the other edges are untouched |
| `ScreenLinks.LinkScreens` | synergy/common/ConfigGen.cpp:159-181 | the same for all four edges of every screen |
| `Reciprocity.LinkedMeans` | synergy/common/ConfigGen.cpp:24-157 | in coordinates, for any screens: an edge names, of those past no other edge of the source whose closed stretch holds the coordinate, one with the nearest left or upper edge; the id 0 counts as none |
| `Reciprocity.EdgesAreComplete` | synergy/common/ConfigGen.cpp:11-157 | if screens have ids of their own, overlapping or not, an edge is undefined exactly where no screen qualifies, and never names its own screen |
| `Reciprocity.ReciprocalExactlyWhereUnsplit` | synergy/common/ConfigGen.cpp:68-181 | on disjoint screens, at any coordinate, A leads to B across an edge if and only if B leads back to A, for all A and B, exactly if no screen sees, before the next one that straddles the coordinate, both one that ends there and one that begins there |
| `Reciprocity.LinkedScreensReciprocate` | synergy/common/ConfigGen.cpp:159-181 | the same of the edges that linking the screens leaves, in each direction |
| `Reciprocity.ReciprocalOffBoundaries` | synergy/common/ConfigGen.cpp:68-181 | so it holds wherever no screen ends as another begins |
| `Reciprocity.ThreeScreensSplit` | synergy/common/ConfigGen.cpp:93-122 | a boundary of three screens at which it fails |
| `JobQueues.AddKeepsSteadyExactly` | synergy/service/CloudClient.cpp:124-131 | adding keeps one request in flight, at the front of the current queue, unless the category has no queue while one job waits |
| `JobQueues.AnswersKeepSteady` | synergy/service/CloudClient.cpp:56-76 | answers and failures keep it so, and what is sent next is of the first queue that has a job |
| `JobQueues.RunsAreSteady` | synergy/service/CloudClient.cpp:56-141 | in every run one request is in flight exactly if there is a job |
| `JobQueues.RunsFromStartAreSteady` | synergy/service/CloudClient.cpp:25-141 | so it is in every run of a new client |
| `JobQueues.JobsAreConserved` | synergy/service/CloudClient.cpp:56-141 | in every run the jobs of a category are removed once each in the order added, and the rest are still queued |
| `JobQueues.BadAnswersUseUpTries` | synergy/service/CloudClient.cpp:56-76 | bad answers and tries left add up: a job is tried once and then exactly as often again as it says, requests that fail not being counted |
| `JobQueues.OtherJobsStay` | synergy/service/CloudClient.cpp:56-76 | a failure changes no job, an answer none but the one in front of the current queue |
| `JobQueues.AnswersRunOut` | synergy/service/CloudClient.cpp:56-70 | answers, good or bad, number at most the tries of the jobs, and when none is due no job is left |
| `CloudJobs.PriorityJobQueues.AppendJob` | synergy/service/PriorityJobQueues.h:19-27 | the job joins the end of its queue and the size stays the sum of the lengths; an unknown queue refuses |
| `CloudJobs.PriorityJobQueues.NextJob` | synergy/service/PriorityJobQueues.h:42-54 | the first queue with a job becomes current, or nothing changes if there is none |
| `CloudJobs.PriorityJobQueues.PopJob` | synergy/service/PriorityJobQueues.h:56-65 | the front of the current queue goes and the size with it |
| `CloudJobs.CloudClient.AddHttpJob` | synergy/service/CloudClient.cpp:124-131 | the new state is that of the add event |
| `CloudJobs.CloudClient.ResponseReceived` | synergy/service/CloudClient.cpp:56-70 | the new state is that of the answer, a job with tries left staying in front |
| `CloudJobs.CloudClient.RequestFailed` | synergy/service/CloudClient.cpp:72-76 | the new state is that of a failure: nothing is removed |
| `Supervisor.RunsAreSound` | synergy/service/CoreProcess.cpp:37-180 | a run from any such state keeps that: at most one child, a next command waiting for one that is ending, a retry for none, and what is due of the recorded mode |
| `Supervisor.RunsFromStartAreSound` | synergy/service/CoreProcess.cpp:23-180 | so it is in every run from the start |
| `Supervisor.StepKeepsSound` | synergy/service/CoreProcess.cpp:149-180 | each step keeps that, and spawns nothing while disabled |
| `Supervisor.DueAfterStep` | synergy/service/CoreProcess.cpp:92-180 | what is due after each step: the request if there was one, else what was due, and exactly when it is lost |
| `Supervisor.DueIsLastRequest` | synergy/service/CoreProcess.cpp:102-180 | in every run the command running or due is the last one requested |
| `Supervisor.DueWasRequested` | synergy/service/CoreProcess.cpp:23-180 | from the start, nothing is ever due but the last command requested |
| `Supervisor.DueGetsToRun` | synergy/service/CoreProcess.cpp:37-59 | unless disabled, what is due runs after one more exit or timeout at most |
| `Supervisor.ShutdownIsFinalExactly` | synergy/service/CoreProcess.cpp:92-100 | after a shutdown nothing starts unasked in any run exactly if the process is disabled or neither a retry nor a replacement was pending |
| `Supervisor.RetryOutlivesShutdown` | synergy/service/CoreProcess.cpp:44-59 | a run in which a crashed server is started again in spite of a shutdown |
| `Supervisor.ReplacementOutlivesShutdown` | synergy/service/CoreProcess.cpp:161-166 | a run in which a client that was asked for is started in spite of a shutdown |
| `Supervisor.PauseThenResume` | synergy/service/CoreManager.cpp:222-263 | pausing and resuming, whatever exits in between, makes the same kind of process due for the same server, with nothing started meanwhile |
| `Supervisor.PauseEndsTheProcess` | synergy/service/CoreManager.cpp:222-227 | once paused, a child has been told to end, nothing takes its place, and requests are turned down |
| `Supervisor.ResumeWithoutMode` | synergy/service/CoreManager.cpp:229-263 | in every run that has no mode yet nothing was ever started, and pausing and resuming start nothing |
| `Supervisor.SwitchFollows` | synergy/service/CoreManager.cpp:283-324 | mode, server, command and proxy become those asked for; the process stays as it is if it is disabled or already the server |
| `Supervisor.SwitchingTwiceIsOnce` | synergy/service/CoreManager.cpp:286-303 | claims of the own screen after the first, any number of them, change nothing at all |
| `Supervisor.ServerIgnoresClaims` | synergy/service/CoreManager.cpp:287-297 | a server neither ends, restarts nor queues anything when its own screen is claimed |
| `Supervisor.ProxyAgreesExactly` | synergy/service/CoreManager.cpp:283-324 | the proxy keeps leading to the client's server exactly unless a disabled client is switched to another one; resuming then does not repair it |
| `Supervisor.ResumedBehindTheWrongProxy` | synergy/service/CoreManager.cpp:222-324 | a run that ends with a client of one server behind a proxy that leads to another |
| `CoreProcess.CoreProcess.StartCommand` | synergy/service/CoreProcess.cpp:149-180 | the new state is that of the start: refused, queued behind a child told to end, or spawned |
| `CoreProcess.CoreProcess.Exited` | synergy/service/CoreProcess.cpp:37-59 | the new state is that of the exit, classified by whether it was expected |
| `CoreProcess.CoreProcessImpl.Shutdown` | synergy/service/CoreProcessImpl.cpp:108-126 | the child is told to terminate, once however often it is asked, and its exit is expected from then on |
| `CoreProcess.CoreManager.SwitchServer` | synergy/service/CoreManager.cpp:283-324 | the new state is that of the switch |
| `CoreProcess.CoreManager.Resume` | synergy/service/CoreManager.cpp:229-263 | the new state is that of enabling and restarting in the recorded mode |
| `SendQueue.StepKeepsSingle` | synergy/service/router/Connection.cpp:102-118 | every step keeps one writer exactly while there is something to send, busy with the first message, and loses or repeats none |
| `SendQueue.WrittenInOrder` | synergy/service/router/Connection.cpp:102-118 | however sends and writes interleave, what was written and what is queued are together what was sent, in order and once each |
| `SendQueue.WritingEnds` | synergy/service/router/Connection.cpp:109-113 | once nothing more is sent the writer ends after exactly the steps that are left, with everything written |
| `Connections.Connection.Send` | synergy/service/router/Connection.cpp:102-118 | the new state is that of the send, a writer being spawned exactly for the first message |
| `Connections.Connection.Resume` | synergy/service/router/Connection.cpp:109-113 | the new state is that of a writer going on to its next write or its end |
| `Placement.CollideIsSharing` | synergy/config/lib/ScreenBBArrangement.cpp:389-403 | two rectangles collide exactly if they cover a common point of the grid |
| `Placement.CollideWithOthers` | synergy/config/lib/ScreenBBArrangement.cpp:405-420 | lists exactly the other screens that overlap, in order |
| `Placement.DistanceIs` | synergy/config/lib/ScreenBBArrangement.cpp:145-154 | the distance of a side is that of the middle of the icon, in half percent of its extent, rounded down |
| `Placement.ReflectionExchangesSides` | synergy/config/lib/ScreenBBArrangement.cpp:145-154 | reflecting the icon in the middle of the box exchanges the distances of opposite sides |
| `Placement.AcceptedIffInSight` | synergy/config/lib/UIScreen.cpp:51-70 | a coordinate is taken exactly if some of the icon is then within the view, and else the old one is kept |
| `Placement.TouchingIsTight` | synergy/config/lib/ScreenBBArrangement.cpp:161-186 | an icon touches a side exactly if it is clear of the box that way and would not be one point further |
| `Placement.ScreenBBArrangement.RecalculateBoundingBox` | synergy/config/lib/ScreenBBArrangement.cpp:300-326 | the least box around all screens but one, empty exactly if there are no others |
| `Placement.ScreenBBArrangement.ChooseSide` | synergy/config/lib/ScreenBBArrangement.cpp:145-186 | no side of the box is nearer than the one chosen, and ties go to the right, the bottom, and the axis whose other side is farther |
| `Placement.TouchingIsClear` | synergy/config/lib/ScreenBBArrangement.cpp:161-186 | an icon aligned outside a side of the box overlaps none of the screens in it |
| `Placement.Align` | synergy/config/lib/UIScreen.cpp:51-70 | with the visible-area guards, aligning to a side puts the icon against it if the side is in sight, and else leaves that coordinate; no visible icon is put out of sight |
| `Placement.ScreenBBArrangement.CalculateNewPos` | synergy/config/lib/ScreenBBArrangement.cpp:126-188 | the icon touches the nearest side if the visible-area guard accepts it, and otherwise keeps that coordinate; the other coordinate is the screen's, or the local screen's if it has none |
| `Placement.ScreenBBArrangement.AddScreen` | synergy/config/lib/ScreenBBArrangement.cpp:25-37 | a new screen overlaps none of the others if the side it is sent to is in sight |
| `Placement.ScreenBBArrangement.AdjustToBox` | synergy/config/lib/ScreenBBArrangement.cpp:101-110 | a moved screen comes to overlap no other exactly if the nearest side is in sight or it overlapped none where it was |

## Left out

- Sockets, TLS, accept and connect loops, hello heartbeats, certificates: links come up and go down as steps of the network, and handlers are atomic.
- The FlatBuffers encoding of router messages: an advertisement is its sender and its routes.
- `Network.Receive`: data messages carry two counters that are not on the wire, the links crossed and the cost of the route chosen at the origin; a destination's handler is the arrival.
- Convergence and delivery once links are lost: routes bumped by the limit of three are neither remembered nor revoked, so what holds then is the structure (`NetworkInvariant`), what a loss takes with it (`LinkLoss`), and that control messages die out (`Fading`).
- A connection that comes up again is a new one: ids of connections are never used twice in a run, as in the source each connection object is new.
- The 32-bit wrap of costs: a cost is the length of a path without repetition.
- `Router::notifyOtherNodes` and the broadcast destination 0xFFFFFFFF: no part in routing.
- The order of `connections_` and of the connection index: the lists of routes sent are of any order, and of the table's order only in the class.
- Reentrancy of handlers through `io_service::poll`, and messages handed to a connection that is shutting down.
- Counts times unit sizes that exceed the machine word: a 64-bit `size_t` holds every product of a 32-bit count by 4.
- Texts or vectors longer than a 32-bit count can say: writing them throws, and they are not well-formed here.
- `ScannerMachine.Scan`: the states of the generated automaton are grouped by tag position, field position and count position; gotos and `act` are not modelled.
- `ScreenLinks.Link`: one method with the direction as parameter stands for the four that differ only in it; an edge is a map from integers to ids, not an interval map, and sizes and coordinates do not overflow.
- The percentages printed by `printScreenLinks`.
- `CloudJobs.PriorityJobQueues.PopJob`: there has to be a current job, as the caller only pops after a request was sent; the bare `throw` otherwise is not modelled.
- `Supervisor.OnExit`: a process that cannot be spawned from an exit handler or the retry timer throws out of the event loop, and runs end there; command lines that cannot be built are not modelled.
- The race between cancelling the retry timer and its completion: cancelling takes effect.
- `Connections.Connection.Resume`: a write that fails counts as one that is done, as the writer goes on in either case.
- `Placement.ScreenBBArrangement.AdjustToBox`: the snapping path before it, and the scaling and centring of the view after it, are floating point; screens are values here, replaced in their list.
- RPC, JSON and TOML, websockets, session monitors, Windows services, the tray and the user interface.
